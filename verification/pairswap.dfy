/** The client of one ETH/token pair on the Uniswap V2 router: transport selection at
    construction, transaction-parameter defaulting, the allowance check and the
    approval with its nonce-visibility poll, and the two swap directions. */
module Pairswap {
  import opened Wrappers
  import opened Amounts
  import opened Chain

  const RouterAddress: Address := "0x7a250d5630B4cF539739dF2C5dAcb4c659F2488D"

  /** Constructor defaults: gas is Web3.toWei(100, 'gwei') and gas_price 250000 wei,
      as the source writes them; max_slippage 0.2; transaction_timeout 300 s. */
  const DefaultGas: nat := 100 * Pow(10, 9)
  const DefaultGasPrice: nat := 250000
  const DefaultTxTimeout: int := 300

  /** approve_token's wait and poll guard, in seconds, and its poll interval. */
  const ApprovalTimeout: nat := 3600
  const PollIntervalMs: nat := 500

  datatype Transport = Http | WebSocket | Ipc

  /** The exceptions the core raises or lets through. */
  datatype Error =
    | UnknownProvider(provider: string)   // PairswapError: unknown provider type
    | ConnectionFailed(provider: string)  // PairswapError: connection failed
    | QuoteFailed                         // the router quote reverted or returned no amounts
    | ReceiptTimeout(hash: TxHash)        // the approval was not mined within the wait

  /** The transport chosen by the provider string's prefix. The three prefixes exclude
      one another, so each transport is chosen exactly when its prefix is present. */
  function SelectTransport(provider: string): (r: Result<Transport, Error>)
    ensures r == Ok(Http) <==> "https://" <= provider
    ensures r == Ok(WebSocket) <==> "wss://" <= provider
    ensures r == Ok(Ipc) <==> "/" <= provider
    ensures r.Err? <==> !("https://" <= provider || "wss://" <= provider || "/" <= provider)
    ensures r.Err? ==> r.error == UnknownProvider(provider)
  {
    PrefixFirstChar("https://", provider);
    PrefixFirstChar("wss://", provider);
    PrefixFirstChar("/", provider);
    if "https://" <= provider then Ok(Http)
    else if "wss://" <= provider then Ok(WebSocket)
    else if "/" <= provider then Ok(Ipc)
    else Err(UnknownProvider(provider))
  }

  lemma PrefixFirstChar(prefix: string, s: string)
    requires |prefix| > 0
    ensures prefix <= s ==> |s| > 0 && s[0] == prefix[0]
  {
    if prefix <= s {
      assert s[..|prefix|] == prefix;
    }
  }

  /** `_get_tx_params`: each optional field is the caller's value when one is given
      (zero included) and the configured default, or for the nonce the transaction
      count the node reports, otherwise. */
  function DefaultTxParams(
    from: Address, txGas: nat, txGasPrice: nat, reportedTxCount: nat,
    amount: nat, gas: Option<nat>, gasPrice: Option<nat>, nonce: Option<nat>): (p: TxParams)
    ensures p.from == from && p.value == amount
    ensures gas.Some? ==> p.gas == gas.value
    ensures gas.None? ==> p.gas == txGas
    ensures gasPrice.Some? ==> p.gasPrice == gasPrice.value
    ensures gasPrice.None? ==> p.gasPrice == txGasPrice
    ensures nonce.Some? ==> p.nonce == nonce.value
    ensures nonce.None? ==> p.nonce == reportedTxCount
  {
    TxParams(from, amount, gas.GetOr(txGas), gasPrice.GetOr(txGasPrice), nonce.GetOr(reportedTxCount))
  }

  /** `getAmountsOut(amount, path)[-1]`: None when the call reverts or the list is
      empty (an IndexError); otherwise the amount received at the end of the path. */
  function LastAmountOut(router: Router, amount: nat, path: seq<Address>): (q: Option<nat>)
    ensures q.Some? <==>
      router.getAmountsOut(amount, path).Some? && |router.getAmountsOut(amount, path).value| > 0
    ensures q.Some? ==>
      var amounts := router.getAmountsOut(amount, path).value;
      q.value == amounts[|amounts| - 1]
  {
    match router.getAmountsOut(amount, path)
    case None => None
    case Some(amounts) => if |amounts| == 0 then None else Some(amounts[|amounts| - 1])
  }

  /** `getAmountsIn(amount, path)[0]`, with the same failure cases; otherwise the amount
      paid in at the start of the path. */
  function FirstAmountIn(router: Router, amount: nat, path: seq<Address>): (q: Option<nat>)
    ensures q.Some? <==>
      router.getAmountsIn(amount, path).Some? && |router.getAmountsIn(amount, path).value| > 0
    ensures q.Some? ==> q.value == router.getAmountsIn(amount, path).value[0]
  {
    match router.getAmountsIn(amount, path)
    case None => None
    case Some(amounts) => if |amounts| == 0 then None else Some(amounts[0])
  }

  class ETHPair {
    const address: Address
    const privateKey: string
    const provider: string
    const transport: Transport
    const conn: Node
    const txGas: nat
    const txGasPrice: nat
    const token: Address
    const maxSlippage: Slippage
    const txTimeout: int

    constructor (address: Address, privateKey: string, provider: string, transport: Transport,
                 conn: Node, txGas: nat, txGasPrice: nat, token: Address,
                 maxSlippage: Slippage, txTimeout: int)
      ensures this.address == address && this.privateKey == privateKey
      ensures this.provider == provider && this.transport == transport && this.conn == conn
      ensures this.txGas == txGas && this.txGasPrice == txGasPrice && this.token == token
      ensures this.maxSlippage == maxSlippage && this.txTimeout == txTimeout
    {
      this.address := address;
      this.privateKey := privateKey;
      this.provider := provider;
      this.transport := transport;
      this.conn := conn;
      this.txGas := txGas;
      this.txGasPrice := txGasPrice;
      this.token := token;
      this.maxSlippage := maxSlippage;
      this.txTimeout := txTimeout;
    }

    /** `PairswapClient.__init__` and `ETHPair.__init__`: an unknown provider scheme fails
        before any connection is used, an unreachable node fails next, and otherwise a
        client is built with the caller's settings or the defaults. */
    static method Connect(address: Address, privateKey: string, provider: string, conn: Node,
                          token: Address, maxSlippage: Option<Slippage>, gas: Option<nat>,
                          gasPrice: Option<nat>, txTimeout: Option<int>)
      returns (r: Result<ETHPair, Error>)
      ensures SelectTransport(provider).Err? ==> r == Err(UnknownProvider(provider))
      ensures SelectTransport(provider).Ok? && !conn.online ==> r == Err(ConnectionFailed(provider))
      ensures SelectTransport(provider).Ok? && conn.online ==>
        && r.Ok? && fresh(r.value)
        && r.value.transport == SelectTransport(provider).value
        && r.value.conn == conn && r.value.address == address && r.value.token == token
        && r.value.privateKey == privateKey && r.value.provider == provider
        && r.value.txGas == gas.GetOr(DefaultGas)
        && r.value.txGasPrice == gasPrice.GetOr(DefaultGasPrice)
        && r.value.maxSlippage == maxSlippage.GetOr(DefaultMaxSlippage)
        && r.value.txTimeout == txTimeout.GetOr(DefaultTxTimeout)
    {
      var transport := SelectTransport(provider);
      if transport.Err? {
        return Err(transport.error);
      }
      if !conn.online {
        return Err(ConnectionFailed(provider));
      }
      var pair := new ETHPair(address, privateKey, provider, transport.value, conn,
                              gas.GetOr(DefaultGas), gasPrice.GetOr(DefaultGasPrice), token,
                              maxSlippage.GetOr(DefaultMaxSlippage), txTimeout.GetOr(DefaultTxTimeout));
      r := Ok(pair);
    }

    /** The parameters `_get_tx_params` builds against the node's current state. */
    function GetTxParams(amount: nat, gas: Option<nat>, gasPrice: Option<nat>, nonce: Option<nat>): (p: TxParams)
      reads conn
    {
      DefaultTxParams(address, txGas, txGasPrice, conn.txCount, amount, gas, gasPrice, nonce)
    }

    /** `is_token_approved(amount)`: the router may already spend `amount` of the token.
        Without an amount, the default MAX_APPROVAL_INT is asked for. */
    predicate IsTokenApproved(amount: Option<nat>)
      reads conn
    {
      amount.GetOr(MaxApprovalInt) <= conn.allowance
    }

    /** Approval for the default amount is approval for every uint256 amount, and
        approval for an amount is approval for every smaller one. */
    lemma DefaultApprovalCoversEveryAmount(amount: nat, smaller: nat)
      requires amount < Pow(2, 256) && smaller <= amount
      ensures IsTokenApproved(None) ==> IsTokenApproved(Some(amount))
      ensures IsTokenApproved(Some(amount)) ==> IsTokenApproved(Some(smaller))
    {
      MaxApprovalCoversUint256(conn.allowance, amount);
    }

    /** `_tx_deadline`: the deadline for a transaction sent now. */
    function TxDeadline(): (d: int)
      reads conn
    {
      Deadline(conn.clock, txTimeout)
    }

    /** `_submit_tx`: sign and broadcast one transaction. */
    method SubmitTx(contract: Address, call: Call, params: TxParams) returns (hash: TxHash)
      modifies conn
      ensures conn.log == old(conn.log) + [Tx(contract, call, params)] && hash == |old(conn.log)|
      ensures conn.txCount == old(conn.txCount) && conn.allowance == old(conn.allowance)
      ensures conn.clock == old(conn.clock) && conn.router == old(conn.router)
    {
      hash := conn.SendRawTransaction(Tx(contract, call, params));
    }

    /** `approve_token`. Already approved: nothing happens. Otherwise exactly one
        `approve(router, maxApproval)` carrying no ether is broadcast; the call then waits
        for its receipt (failing if none comes within the hour) and polls until the
        node's transaction count is no longer the approval's nonce or more than an hour
        has passed since the broadcast. */
    method ApproveToken(maxApproval: Option<nat>, gas: Option<nat>, gasPrice: Option<nat>, nonce: Option<nat>)
      returns (r: Outcome<Error>)
      modifies conn
      ensures old(IsTokenApproved(maxApproval)) ==> r.Pass? && unchanged(conn)
      ensures !old(IsTokenApproved(maxApproval)) ==>
        conn.log == old(conn.log)
          + [Tx(token, Approve(RouterAddress, maxApproval.GetOr(MaxApprovalInt)),
                old(GetTxParams(0, gas, gasPrice, nonce)))]
      ensures !old(IsTokenApproved(maxApproval)) && r.Pass? ==>
        || conn.txCount != conn.log[|old(conn.log)|].params.nonce
        || conn.clock > old(conn.clock) + ApprovalTimeout * 1000
      ensures r.Fail? ==> !old(IsTokenApproved(maxApproval)) && r.error == ReceiptTimeout(|old(conn.log)|)
      ensures conn.router.weth == old(conn.router.weth) && conn.clock >= old(conn.clock)
      ensures conn.txCount >= old(conn.txCount)
      ensures conn.allowance == old(conn.allowance) || conn.allowance == maxApproval.GetOr(MaxApprovalInt)
    {
      if IsTokenApproved(maxApproval) {
        return Pass;
      }
      var amount := maxApproval.GetOr(MaxApprovalInt);
      var params := GetTxParams(0, gas, gasPrice, nonce);
      // The transaction count is read a second time for the poll below.
      var currentNonce := if nonce.Some? then nonce.value else conn.txCount;
      var hash := SubmitTx(token, Approve(RouterAddress, amount), params);
      ghost var submitted := conn.log;

      var timeout := ApprovalTimeout;
      var timerStart := conn.clock;
      var receipt := conn.WaitForTransactionReceipt(hash, timeout);
      if receipt.None? {
        return Fail(ReceiptTimeout(hash));
      }

      while currentNonce == conn.txCount && conn.clock - timerStart <= timeout * 1000
        invariant conn.clock >= timerStart && conn.txCount >= old(conn.txCount)
        invariant conn.log == submitted && conn.router.weth == old(conn.router.weth)
        invariant conn.allowance == old(conn.allowance) || conn.allowance == amount
        decreases timeout * 1000 - (conn.clock - timerStart)
      {
        conn.Sleep(PollIntervalMs);
      }
      r := Pass;
    }

    /** `approve_token` called twice in a row (the second call possibly a retry after the
        first timed out): when the token is already approved,
        neither call touches the node, and the second call broadcasts exactly when the
        allowance the first one left (`allowanceBetween`, with `between` transactions
        then in the log) is still short of the amount. */
    method ApproveTokenTwice(maxApproval: Option<nat>, gas: Option<nat>, gasPrice: Option<nat>, nonce: Option<nat>)
      returns (first: Outcome<Error>, second: Outcome<Error>, ghost between: nat, ghost allowanceBetween: nat)
      modifies conn
      ensures old(IsTokenApproved(maxApproval)) ==> first.Pass? && second.Pass? && unchanged(conn)
      ensures between == |old(conn.log)| + if old(IsTokenApproved(maxApproval)) then 0 else 1
      ensures allowanceBetween == old(conn.allowance) || allowanceBetween == maxApproval.GetOr(MaxApprovalInt)
      ensures |conn.log| == between + if allowanceBetween >= maxApproval.GetOr(MaxApprovalInt) then 0 else 1
    {
      first := ApproveToken(maxApproval, gas, gasPrice, nonce);
      between, allowanceBetween := |conn.log|, conn.allowance;
      second := ApproveToken(maxApproval, gas, gasPrice, nonce);
    }

    /** `swap`: ETH to token. Exactly one `swapExactETHForTokens` is broadcast, carrying
        the swap amount as its value, along `[WETH, token]`, to the account, with the
        slippage-bounded minimum of a fresh `getAmountsOut` quote and the current
        deadline. A failed quote raises before anything is broadcast. */
    method Swap(swapAmount: nat, gas: Option<nat>, gasPrice: Option<nat>, nonce: Option<nat>)
      returns (r: Result<TxHash, Error>)
      modifies conn
      ensures conn.txCount == old(conn.txCount) && conn.allowance == old(conn.allowance)
      ensures conn.clock == old(conn.clock) && conn.router == old(conn.router)
      ensures
        var path := [conn.router.weth, token];
        var quote := LastAmountOut(conn.router, swapAmount, path);
        if quote.None? then
          r == Err(QuoteFailed) && conn.log == old(conn.log)
        else
          && r == Ok(|old(conn.log)|)
          && conn.log == old(conn.log) + [Tx(RouterAddress,
               SwapExactETHForTokens(MinOut(quote.value, maxSlippage), path, address, TxDeadline()),
               GetTxParams(swapAmount, gas, gasPrice, nonce))]
    {
      var quote := LastAmountOut(conn.router, swapAmount, [conn.router.weth, token]);
      if quote.None? {
        return Err(QuoteFailed);
      }
      var amountOutMin := MinOut(quote.value, maxSlippage);
      var path := [conn.router.weth, token];
      var toAddress := address;
      var deadline := TxDeadline();
      var call := SwapExactETHForTokens(amountOutMin, path, toAddress, deadline);
      var params := GetTxParams(swapAmount, gas, gasPrice, nonce);
      var hash := SubmitTx(RouterAddress, call, params);
      r := Ok(hash);
    }

    /** `unswap`: token to ETH. First `approve_token` for exactly the amount (which may
        broadcast one approval); then one `swapExactTokensForETH` of the amount along
        `[token, WETH]`, carrying no ether, to the account, with the slippage-bounded
        minimum of `getAmountsIn(amount, [WETH, token])[0]` and the deadline at that
        time. An explicit nonce is given to both transactions. */
    method Unswap(unswapAmount: nat, gas: Option<nat>, gasPrice: Option<nat>, nonce: Option<nat>)
      returns (r: Result<TxHash, Error>)
      modifies conn
      ensures conn.router.weth == old(conn.router.weth) && conn.clock >= old(conn.clock)
      ensures conn.txCount >= old(conn.txCount)
      ensures old(IsTokenApproved(Some(unswapAmount))) ==> conn.allowance == old(conn.allowance)
      ensures conn.allowance == old(conn.allowance) || conn.allowance == unswapAmount
      ensures
        var n := |old(conn.log)|;
        var k := if old(IsTokenApproved(Some(unswapAmount))) then 0 else 1;
        var quote := FirstAmountIn(conn.router, unswapAmount, [conn.router.weth, token]);
        && n + k <= |conn.log| <= n + k + 1
        && conn.log[..n] == old(conn.log)
        && (k == 1 ==>
              conn.log[n] == Tx(token, Approve(RouterAddress, unswapAmount), old(GetTxParams(0, gas, gasPrice, nonce))))
        && (k == 0 ==>
              conn.clock == old(conn.clock) && conn.txCount == old(conn.txCount) && conn.router == old(conn.router))
        && (r.Err? <==> |conn.log| == n + k)
        && (r.Err? ==> r.error == QuoteFailed || (k == 1 && r.error == ReceiptTimeout(n)))
        && (r.Err? && quote.Some? ==> r.error == ReceiptTimeout(n))
        && (r.Ok? ==>
              && quote.Some? && r.value == n + k
              && conn.log[n + k] == Tx(RouterAddress,
                   SwapExactTokensForETH(unswapAmount, MinOut(quote.value, maxSlippage),
                                         [token, conn.router.weth], address, TxDeadline()),
                   GetTxParams(0, gas, gasPrice, nonce)))
      ensures
        var n := |old(conn.log)|;
        r.Ok? && !old(IsTokenApproved(Some(unswapAmount))) ==>
          && conn.log[n].params.value == 0 && conn.log[n + 1].params.value == 0
          && (nonce.Some? ==> conn.log[n].params.nonce == conn.log[n + 1].params.nonce == nonce.value)
          && (nonce.None? ==>
                || conn.log[n + 1].params.nonce != conn.log[n].params.nonce
                || conn.clock > old(conn.clock) + ApprovalTimeout * 1000)
    {
      var approval := ApproveToken(Some(unswapAmount), gas, gasPrice, nonce);
      if approval.Fail? {
        return Err(approval.error);
      }
      var quote := FirstAmountIn(conn.router, unswapAmount, [conn.router.weth, token]);
      if quote.None? {
        return Err(QuoteFailed);
      }
      var amountOutMin := MinOut(quote.value, maxSlippage);
      var path := [token, conn.router.weth];
      var toAddress := address;
      var deadline := TxDeadline();
      var call := SwapExactTokensForETH(unswapAmount, amountOutMin, path, toAddress, deadline);
      var params := GetTxParams(0, gas, gasPrice, nonce);
      var hash := SubmitTx(RouterAddress, call, params);
      r := Ok(hash);
    }
  }
}
