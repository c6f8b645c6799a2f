/** The Ethereum node the client talks to, reduced to the state the swap engine reads
    and changes: the account's transaction count as the node reports it, the token
    allowance the account has granted the Uniswap V2 router, the router's read-only
    quote functions, an append-only log of the transactions the account has broadcast,
    and a clock in milliseconds.

    What the node does on its own while the client waits (mining, the lagging report
    of the transaction count, the passing of time) is not determined by the client.
    The methods that model it choose those outcomes freely (`:|`), so that everything
    proved about the client holds for every behaviour their contracts allow. */
module Chain {
  import opened Wrappers

  type Address = string

  /** A transaction hash; the model uses the transaction's position in the log, which
      is fresh for every broadcast. */
  type TxHash = nat

  /** The contract calls the swap engine makes. */
  datatype Call =
    | Approve(spender: Address, amount: nat)
    | SwapExactETHForTokens(amountOutMin: nat, path: seq<Address>, to: Address, deadline: int)
    | SwapExactTokensForETH(amountIn: nat, amountOutMin: nat, path: seq<Address>, to: Address, deadline: int)

  /** The transaction fields the client chooses: sender, attached ether (wei), gas
      limit, gas price (wei) and nonce. */
  datatype TxParams = TxParams(from: Address, value: nat, gas: nat, gasPrice: nat, nonce: nat)

  /** A broadcast transaction: the contract it calls, the call, and its parameters. */
  datatype Tx = Tx(contract: Address, call: Call, params: TxParams)

  /** The router's read-only functions: the WETH address and the getAmountsOut /
      getAmountsIn quotes, None when the call reverts (no liquidity, bad path). */
  datatype Router = Router(
    weth: Address,
    getAmountsOut: (nat, seq<Address>) -> Option<seq<nat>>,
    getAmountsIn: (nat, seq<Address>) -> Option<seq<nat>>)

  /** A transaction receipt: the hash it answers and whether execution succeeded. */
  datatype Receipt = Receipt(hash: TxHash, success: bool)

  class Node {
    /** getTransactionCount(account) as the node currently reports it. */
    var txCount: nat
    /** allowance(account, router) of the pair's token. */
    var allowance: nat
    /** Every transaction the account has broadcast, oldest first. */
    var log: seq<Tx>
    /** Milliseconds since the epoch; never goes back. */
    var clock: nat
    var router: Router
    /** What isConnected() answers. */
    const online: bool

    constructor (txCount: nat, allowance: nat, clock: nat, router: Router, online: bool)
      ensures this.txCount == txCount && this.allowance == allowance && this.clock == clock
      ensures this.router == router && this.online == online && log == []
    {
      this.txCount := txCount;
      this.allowance := allowance;
      this.clock := clock;
      this.router := router;
      this.online := online;
      log := [];
    }

    /** sendRawTransaction: the transaction joins the log and gets a fresh hash. Nothing
        is mined yet, so nothing else changes. */
    method SendRawTransaction(tx: Tx) returns (hash: TxHash)
      modifies this
      ensures log == old(log) + [tx] && hash == |old(log)|
      ensures txCount == old(txCount) && allowance == old(allowance)
      ensures clock == old(clock) && router == old(router)
    {
      hash := |log|;
      log := log + [tx];
    }

    /** waitForTransactionReceipt(hash, timeout): blocks until the transaction is mined
        (Some receipt) or until more than `timeoutSecs` seconds have passed (None, where
        web3 raises). A successful approval sets the allowance to the approved amount;
        the reported transaction count may or may not have caught up yet, and the pool's
        reserves, hence the router's quotes, may have moved. */
    method WaitForTransactionReceipt(hash: TxHash, timeoutSecs: nat) returns (receipt: Option<Receipt>)
      requires hash < |log|
      modifies this
      ensures log == old(log) && router.weth == old(router.weth)
      ensures clock >= old(clock) && txCount >= old(txCount)
      ensures receipt.None? ==> clock > old(clock) + timeoutSecs * 1000
      ensures receipt.Some? ==> receipt.value.hash == hash
      ensures allowance ==
        if receipt.Some? && receipt.value.success && log[hash].call.Approve?
        then log[hash].call.amount
        else old(allowance)
    {
      var mined: bool :| true;
      var success: bool :| true;
      var waited: nat :| mined || waited > timeoutSecs * 1000;
      var reported: nat :| reported >= txCount;
      var amountsOut: (nat, seq<Address>) -> Option<seq<nat>> :| true;
      var amountsIn: (nat, seq<Address>) -> Option<seq<nat>> :| true;
      clock, txCount := clock + waited, reported;
      router := Router(router.weth, amountsOut, amountsIn);
      if mined {
        receipt := Some(Receipt(hash, success));
        if success && log[hash].call.Approve? {
          allowance := log[hash].call.amount;
        }
      } else {
        receipt := None;
      }
    }

    /** time.sleep(ms / 1000): at least `ms` milliseconds pass, during which the node may
        report a higher transaction count and the router's quotes may move. */
    method Sleep(ms: nat)
      modifies this
      ensures clock >= old(clock) + ms && txCount >= old(txCount)
      ensures log == old(log) && allowance == old(allowance) && router.weth == old(router.weth)
    {
      var overshoot: nat :| true;
      var reported: nat :| reported >= txCount;
      var amountsOut: (nat, seq<Address>) -> Option<seq<nat>> :| true;
      var amountsIn: (nat, seq<Address>) -> Option<seq<nat>> :| true;
      clock, txCount := clock + ms + overshoot, reported;
      router := Router(router.weth, amountsOut, amountsIn);
    }
  }
}
