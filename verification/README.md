# pairswap: the quote-and-swap engine of an ETH/token client, in Dafny

pairswap is a Python client that swaps ETH against an ERC20 token through the
Uniswap V2 router. It holds an account, a connection to an Ethereum node, and one
pair's settings: the token, a maximum slippage, a transaction timeout, a default gas
limit and a default gas price. This project models the decision-and-sequencing core
of `ETHPair` (with its base class `PairswapClient` folded in). The web3 connection is
replaced by an abstract node.

- `wrappers.dfy`, module `Wrappers`: `Option`, `Result` and `Outcome`. Raising an
  exception is modelled as an `Err`/`Fail` result.
- `amounts.dfy`, module `Amounts`: integer base-unit arithmetic.
  - `MAX_APPROVAL_INT` is defined by parsing the hexadecimal literal, as the source
    does. A lemma proves that it is 2^256 - 1.
  - The maximum slippage is a fraction `num/den` with `0 <= num <= den`.
  - The minimum output `int((1 - s) * quote)` is computed as a floor division. The
    product is never negative, so flooring agrees with Python's truncation toward zero.
  - The deadline is `int(time.time()) + tx_timeout`.
- `chain.dfy`, module `Chain`: the node. Its class `Node` holds:
  - the transaction count the node reports;
  - the allowance granted by the account to the router;
  - the router's quote functions and WETH address;
  - an append-only log of broadcast transactions (kind, arguments, value, gas, gas
    price, nonce);
  - a clock in milliseconds.

  Broadcasting appends to the log and returns a fresh hash, which is the
  transaction's position in the log. Some things the node does on its own while the
  client waits:
  - whether a transaction is mined, and whether its execution succeeds;
  - how much time passes;
  - when the reported transaction count catches up;
  - how the router's quotes move as the pool's reserves change (the WETH address
    stays the same).

  These choices are left free (`:|`) and are bounded only by the contracts of
  `WaitForTransactionReceipt` and `Sleep`. So whatever is proved about the client
  holds for every behaviour those contracts allow.
- `pairswap.dfy`, module `Pairswap`: the client.
  - Transport selection by provider prefix, and the construction order: an unknown
    scheme fails before the connection is used, then an unreachable node fails.
  - `_get_tx_params` defaulting.
  - `is_token_approved`, whose amount defaults to `MAX_APPROVAL_INT`.
  - `approve_token`, with its wait and its bounded nonce-visibility poll loop. The
    loop is an imperative `while` loop over the node's state, with invariants and a
    clock-based termination measure.
  - `swap` and `unswap`.

Quirks of the code are kept as written:
- `unswap` quotes with `getAmountsIn(amount, [WETH, token])[0]` but swaps along
  `[token, WETH]`.
- An explicit nonce given to `unswap` goes to both the approval and the swap. `Unswap`'s
  contract states that the two transactions then carry the same nonce.
- `approve_token` reads the transaction count twice: once for the parameters and once
  for the nonce it polls on. No time passes between the two reads in the model, so both
  give the approval's nonce. The poll's exit condition is stated against the nonce that
  the approval actually carries.
- The constructor's defaults are kept as the source writes them: a gas limit of
  `Web3.toWei(100, 'gwei')` (10^11) and a gas price of 250000 wei.

Where the code does something other than its comments, names or usual description
suggest, the model follows the code:
- The poll after an approval waits until the reported transaction count *differs* from
  the approval's nonce. Its comment speaks of the nonce being incremented.
- A local socket is any provider starting with `/`.
- The reverse quote is the amount of WETH needed to *buy* the token amount, not the
  ETH output of selling it.

## Model

| member | source | states |
|---|---|---|
| `Pairswap.SelectTransport` | pairswap.py:87-94 | the transport is HTTP exactly when the provider starts with `https://`, WebSocket exactly when it starts with `wss://`, IPC exactly when it starts with `/`; every other provider is an `UnknownProvider` error |
| `Pairswap.ETHPair.Connect` | pairswap.py:75-174 | `ETHPair.__init__` with the `PairswapClient.__init__` it calls: an unknown scheme fails with `UnknownProvider` before the connection is checked; a node that is not connected fails with `ConnectionFailed`; otherwise a fresh client holds the selected transport, the account, key, provider and token, and each of slippage, gas, gas price and timeout as given or else its default (1/5, 10^11, 250000, 300) |
| `Pairswap.DefaultTxParams` | pairswap.py:126-143 | `from` is the account and `value` the amount; gas, gas price and nonce are the caller's values when given (even 0), otherwise the configured gas, the configured gas price and the reported transaction count |
| `Pairswap.ETHPair.DefaultApprovalCoversEveryAmount` | pairswap.py:286-299 | being approved for the default amount `MAX_APPROVAL_INT` means being approved for every uint256 amount, and being approved for an amount means being approved for every smaller one |
| `Amounts.HexValue` | pairswap.py:58 | n hexadecimal digits denote a value below 16^n |
| `Amounts.AllFDigits` | pairswap.py:57 | n `f` digits denote 16^n - 1 |
| `Amounts.HexDigitsAreNibbles` | pairswap.py:57-58 | 16^n equals 2^(4n) |
| `Amounts.MaxApprovalIsUint256Max` | pairswap.py:57-58 | `MAX_APPROVAL_HEX` parses, and `MAX_APPROVAL_INT` is 2^256 - 1 |
| `Amounts.MaxApprovalCoversUint256` | pairswap.py:286-289 | an allowance of at least the default approval amount covers every uint256 amount |
| `Pairswap.ETHPair.ApproveToken` | pairswap.py:304-361 | the amount defaults to `MAX_APPROVAL_INT`. If already approved for it: succeeds and the node is unchanged. Otherwise: exactly one `approve(router, max_approval)` with value 0 and the defaulted parameters is appended to the log; a missing receipt fails with `ReceiptTimeout` of that hash; on success the reported count differs from the approval's nonce, or more than 3600 s have passed since the broadcast; the allowance afterwards is the old one or `max_approval` |
| `Pairswap.ETHPair.ApproveTokenTwice` | pairswap.py:311-318 | when already approved, two calls in a row both succeed and leave the node unchanged; the first adds one transaction exactly when not yet approved, and the second adds one exactly when the allowance the first left is still short of the amount, so once an approval has taken effect the next call broadcasts nothing |
| `Pairswap.ETHPair.SubmitTx` | pairswap.py:145-149 | exactly the built transaction is appended to the log, its hash is fresh, and nothing else on the node changes |
| `Pairswap.LastAmountOut` | pairswap.py:258-264 | a quote exists exactly when `getAmountsOut` returned a non-empty list, and it is the list's last element, the amount received at the end of the path |
| `Pairswap.FirstAmountIn` | pairswap.py:250-256 | a quote exists exactly when `getAmountsIn` returned a non-empty list, and it is the list's first element, the amount paid in at the start of the path |
| `Pairswap.ETHPair.Swap` | pairswap.py:370-414 | a failed `getAmountsOut` quote raises and broadcasts nothing. Otherwise exactly one `swapExactETHForTokens` is appended, with `value` = the swap amount, path `[WETH, token]`, `to` = the account, the minimum output of the last quoted amount and the deadline of the current clock. No transaction count, allowance or time changes |
| `Pairswap.ETHPair.Unswap` | pairswap.py:416-467 | first the approval as in `ApproveToken` for exactly the amount (none if already approved, and then nothing on the node changes before the swap); a receipt timeout or a failed quote stops before the swap. Otherwise the quote is taken after the approval, and exactly one `swapExactTokensForETH(amount, minOut(getAmountsIn(amount, [WETH, token])[0]), [token, WETH], account, deadline)` with value 0 follows. An explicit nonce is carried by both transactions. Without one, the swap's nonce differs from the approval's unless the hour-long poll guard ran out. The reported count never decreases, and the allowance afterwards is the old one (always so when already approved) or the amount |
| `Amounts.MinOut` | pairswap.py:381-383 | the minimum output is `(1 - s) * quote` rounded down to an integer, and never above the quote |
| `Amounts.MinOutEqualsQuoteIff` | pairswap.py:381-383 | the minimum output equals the quote exactly when the slippage is 0 or the quote is 0 |
| `Amounts.MinOutMonotone` | pairswap.py:381-383 | a larger quote never gives a smaller minimum output |
| `Amounts.MinOutExamples` | pairswap.py:381-383 | slippage 0.2 on a quote of 1000 gives 800; slippage 0.1 on 500 * 10^18 gives 450 * 10^18 |
| `Amounts.Deadline` | pairswap.py:244-248 | the deadline is the whole seconds of the clock plus the transaction timeout |
| `Amounts.DeadlineMonotone` | pairswap.py:244-248 | a later clock never gives an earlier deadline, and one at least a second later gives a strictly later deadline |
| `Chain.Node.SendRawTransaction` | pairswap.py:148 | the signed transaction joins the log under a fresh hash, and nothing else changes |
| `Chain.Node.WaitForTransactionReceipt` | pairswap.py:301-302 | a receipt answers the awaited hash; no receipt means that more than the timeout has passed; only a successful approval changes the allowance, and it sets the allowance to the approved amount; the clock and the reported count never decrease; the quotes may move but the WETH address stays |
| `Chain.Node.Sleep` | pairswap.py:361 | at least the requested time passes; the reported count may only grow; the log, the allowance and the WETH address stay as they were, while the quotes may move |

## Left out

- ABI loading from files (`Utils.load_abi`) and the factory contract: file I/O and a contract the core never calls.
- Signing and transport: `_submit_tx` keeps the private key but does not sign. Broadcasting is an append to the node's log. `Web3.toChecksumAddress` is not modelled; addresses are taken as given.
- `suggest_gas_price` and `GAS_STRATEGY_MAP`: an external gas oracle reached over the network.
- The float conversions `_eth_to_wei`, `_wei_to_eth`, `_token_to_tokwei`, `_tokwei_to_token`, and the views `price`, `token_price`, `balance`, `token_balance`, `balances`: these are binary-float arithmetic and network reads. `Swap` and `Unswap` take their amounts already in base units.
- Token symbol and decimals, read once at construction: they are used only by logging and by the float conversions above.
- `__repr__`, `__str__`, `__bool__` and all logging. This includes the swapped gas and gas-price values in `swap`'s debug lines.
- Amounts, gas values and a slippage outside their unsigned ranges: negative values would fail web3's ABI encoding. The source makes no range check on the maximum slippage; the `Slippage` type admits only fractions from 0 to 1, so a slippage above 1 or below 0 is not modelled.
- `int(s, 16)` is modelled (`Amounts.IntBase16`) only for the digits-only form `MAX_APPROVAL_HEX` has. A sign, surrounding blanks and underscores, which Python accepts, are never parsed in the core.
- Amounts.MinOut: does not model the rounding of the binary-float product `(1 - max_slippage) * quote`. It is the exact rational product truncated toward zero.
- Time: `time.time()` and `time.monotonic()` are one millisecond clock on the node. The poll guard compares elapsed milliseconds with 3600 * 1000, not float seconds.
- Pairswap.ETHPair.ApproveToken: the node's allowance changes only through the awaited approval. Revocations or changes by other actors while the client waits are not modelled.
- Chain.Node.Sleep: between polls the node may report any count at or above the previous one. Nothing models why; the lag is an external behaviour.
- Pairswap.ETHPair.Unswap: a broadcast the node rejects is not modelled; every broadcast joins the log. With an explicit nonce and an approval needed, the source sends the swap with the nonce the mined approval already used, which a standard node refuses ("nonce too low") so `unswap` raises; the model's `Ok` in that case stands for that exception.
- Concurrent callers racing for the same nonce: the code does not arbitrate them.
- Receipts of swaps are never awaited by the core. The allowance that `swapExactTokensForETH` spends once mined is therefore not modelled.
