# Transaction simulator engine in Dafny

This project models `SimulationEngine`, the core of a transaction-preview
service. The service takes a transaction (chain id, sender, recipient, value,
call data, optional gas limit and gas price) and predicts what would happen if
it were sent. It dry-runs the transaction against a node of that chain,
estimates its gas and fetches the gas price, with a fallback for each. It then
works out the cost in the chain's native unit and in USD, lists the native
transfer it would make, and attaches warnings.

Modules:

- `Outcomes`: `Option` and `Outcome` (a value, or the text of the exception
  the Python code would raise).
- `Text`: Python's `str.strip`; the address check nested in
  `simulate_transaction`; Python's `int(s)` and `int(s, 16)` as applied to
  the `value`, `gas` and `gas_price` strings; the decimal rendering of an
  integer inside an f-string.
- `Pricing`: wei units, the gas and gas-price fallbacks, `_get_eth_price`, and
  the exact USD cost.
- `Analysis`: `_analyze_asset_changes`, and `_generate_warnings` together with
  the specification of its warning list.
- `Engine`: the `SimulationEngine` class, its constructor (the per-chain
  client table) and `simulate_transaction`. The remote part after the
  transaction is built is `RunCalls`, specified by the predicate `Completion`.
- `Scenarios`: the service's default chain table and requests run against
  it, each stated as what the engine's contracts let a caller conclude.

The remote calls are not performed. A `Node` value says how the node behind
an endpoint would answer the dry-run call, the gas estimate and the gas-price
query. `net` maps each endpoint to its node. `SimulateTransaction` returns,
beside the result dict, the list of remote calls it made. "No remote call on
an early return" is then a postcondition.

The float fields are kept exact:

- `gas_cost_eth` is `gasCostWei / 10^18`;
- `gas_price_gwei` is `gasPriceWei / 10^9`;
- `gas_cost_usd` is `gasCostWei * ethPriceUsd / 10^18`, carried as the
  integer `gasCostWei * ethPriceUsd`;
- the 10 and 50 USD warning thresholds are compared exactly on that integer.

Warnings are tags (`WillFail`, `HighGasUsage(gas)`, `HighGasCost(usd)`,
`ExtremelyHighCost`, `NoAssetTransfers`) that keep the number each message
shows.

Where the service's own documentation and its code differ, the model
follows the code:

- The docstring of `simulate_transaction` (`src/simulation_engine.py:59-62`)
  and the request fields (`src/main.py:98-101`) describe `value`, `gas` and
  `gas_price` as hexadecimal. The code also accepts decimal: a string that
  does not start with `0x` goes to `int(s)` (`Text.ParseQuantity`).
- The same docstring (`src/simulation_engine.py:64-72`) lists the keys of the
  returned dict. An early return (unknown chain, bad address, a literal `int`
  rejects) carries only `success`, `error` and `chain_id`.
- The example request of the request schema (`src/main.py:107`) names a
  sender of 41 characters. The address check rejects it before any remote
  call (`Scenarios.DocumentedExampleScenario`).

Behaviours of the code that are easy to misremember:

- An address is accepted when, after stripping whitespace, it starts with
  `0x` and has 42 characters. The other 40 characters are not checked to be
  hexadecimal (`Text.NormalizeAddressIgnoresDigits`).
- `gas_used` is the node's estimate as given, even below 21000. The 21000
  in `src/simulation_engine.py:129` applies only when estimation fails.
- The caller's `gas` and `gas_price` are parsed and put into the transaction
  sent to the dry run and the estimate (`Engine.BuildTx`).
- `str.strip` (the address check) and `int` skip different whitespace. The
  information separators U+001C to U+001F are whitespace to `str.isspace` but
  make `int` raise (`Text.DecimalAcceptedChars`).

## Model

| member | source | states |
|---|---|---|
| Engine.SimulationEngine.constructor | src/simulation_engine.py:24-40 | For each configured chain there is a client handle exactly when its endpoint is non-empty and the client library accepts it. The handle is bound to that endpoint. No chain outside the configuration gets one. |
| Engine.SimulationEngine.SimulateTransaction | src/simulation_engine.py:74-177 | Checks happen in order, and the first failure returns with its own message and no remote call: unsupported chain, then sender address, then recipient address, then the first of value/gas/gas price that `int` rejects (reported through the outer handler's "Simulation failed: " prefix). Otherwise the three remote calls happen in order and the result satisfies `Completion`. `chain_id` is always echoed back. |
| Engine.RunCalls | src/simulation_engine.py:115-169 | The result satisfies `Completion`. Success holds iff the dry run returned. Gas is the estimate, or 21000 if estimation failed. Price is the node's, or 20 gwei. Cost is gas times price. The USD price comes from the chain table. The first error wins: a call error beats an estimation error, and a call error with an empty message counts as none. A failed price fetch is never reported. The asset changes and the warning list follow `IsWarningList`. |
| Engine.CompletionUnique | src/simulation_engine.py:115-169 | The node's answers fix every field of a completed result and the list of calls: two results that both satisfy `Completion` are equal. |
| Engine.BuildTx | src/simulation_engine.py:101-113 | The transaction carries the normalized addresses, the data and the parsed value. `gas`/`gasPrice` are present exactly when supplied as a non-empty string, and then hold its parsed value. Building fails iff one supplied literal does not parse. The error is that of the first failing literal in the order value, gas, gas price. |
| Engine.Supplied | src/simulation_engine.py:110-112 | The truthiness test of `if gas:` / `if gas_price:`: present and not the empty string. A definition, with no contract of its own. |
| Engine.ChainNotSupported | src/simulation_engine.py:79 | The f-string "Chain {chain_id} not supported", with the chain id rendered by `Text.IntToString`. |
| Engine.ChainNotSupportedReadsBack | src/simulation_engine.py:79 | The error text is "Chain ", then text from which `int` reads back the chain id, then " not supported". So no two chains get the same error. |
| Engine.InvalidAddress | src/simulation_engine.py:97 | The error text ends with the address check's whole message. |
| Engine.SimulationFailed | src/simulation_engine.py:175 | The error text ends with the caught exception's whole message. |
| Engine.GasEstimationFailed | src/simulation_engine.py:131 | The error text ends with the estimation exception's whole message. |
| Engine.AbortReasonsDistinct | src/simulation_engine.py:79-175 | The three early-return errors (unsupported chain at line 79, invalid address at line 97, simulation failed at line 175) never coincide, whatever they wrap. |
| Text.NormalizeAddress | src/simulation_engine.py:84-89 | Accepts iff the stripped address has length 42 and starts with `0x`, and then returns the stripped address. Otherwise the error is "Invalid address format: " followed by the stripped address. |
| Text.NormalizeAddressIdempotent | src/simulation_engine.py:84-89 | Normalizing an accepted address again accepts it unchanged. |
| Text.NormalizeAddressIgnoresPadding | src/simulation_engine.py:84-89 | Surrounding whitespace never changes the verdict or the normalized address. |
| Text.NormalizeAddressIgnoresDigits | src/simulation_engine.py:86-89 | Any 40 characters after `0x` are accepted, hexadecimal or not, unless the last one is whitespace. |
| Text.StartsWith | src/simulation_engine.py:87 | `str.startswith`: the prefix is no longer than the string and equals its first characters. Also used for the `0x` tests at lines 105, 111 and 113. A definition. |
| Text.IsSeparator | src/simulation_engine.py:105 | The information separators U+001C to U+001F, which `str.isspace` counts as whitespace but `int` does not skip. A definition. |
| Text.IntSpace | src/simulation_engine.py:105 | The whitespace `int` skips around a literal (also at lines 111 and 113): `str.isspace` without the information separators. A definition. |
| Text.IsSpace | src/simulation_engine.py:86 | `str.isspace`, the whitespace `strip` removes (U+0009 to U+000D, U+001C to U+0020, U+0085, and the Unicode space, line and paragraph separators). |
| Text.SpaceIsNotLiteral | src/simulation_engine.py:86 | No whitespace character is a digit, a sign or the `x` of `0x`, so stripping never removes part of a literal or an address. |
| Text.LeadingSpaces | src/simulation_engine.py:86 | The count is the length of the longest all-whitespace prefix: everything before it is whitespace and the next character is not. |
| Text.TrailingSpaces | src/simulation_engine.py:86 | The same, for the longest all-whitespace suffix. |
| Text.Strip | src/simulation_engine.py:86 | The stripped string is empty iff the input is all whitespace. Otherwise it starts and ends with a non-whitespace character. |
| Text.StripDecomposition | src/simulation_engine.py:86 | Whitespace, then a string with non-whitespace ends, then whitespace, strips to that middle string. |
| Text.StripParts | src/simulation_engine.py:86 | Every string is whitespace, then its stripped form, then whitespace. |
| Text.StripIgnoresPadding | src/simulation_engine.py:86 | Adding whitespace on either side does not change the stripped form. |
| Text.StripIdempotent | src/simulation_engine.py:86 | Stripping twice equals stripping once. |
| Text.StripUnpadded | src/simulation_engine.py:86 | A string with no whitespace at either end strips to itself. |
| Text.ParseDecimal | src/simulation_engine.py:105 | `int(s)`: on rejection the message is `InvalidLiteral(s, 10)`. An accepted literal contains no information separator (U+001C to U+001F). |
| Text.SignedDecimal | src/simulation_engine.py:105 | The literal rule of `int` once whitespace is skipped: an accepted text is a sign or a digit, then digits only, ending in a digit. Its value is negative only after a `-`. |
| Text.InvalidLiteral | src/simulation_engine.py:105 | The `ValueError` text of `int`: the base, then the literal in quotes, cut to its first 200 characters. The whole literal is shown exactly when it fits. |
| Text.DecimalOfStripped | src/simulation_engine.py:105 | Two literals with the same stripped text, both with or both without an information separator, are read alike by `int`. |
| Text.DecimalAcceptedChars | src/simulation_engine.py:105 | An accepted decimal literal is not blank and holds only whitespace that `int` skips, digits and signs. Any other character (an information separator included) makes `int` raise. |
| Text.ParseHex | src/simulation_engine.py:105 | `int(s, 16)` on a `0x` literal: an accepted value is non-negative, and the literal contains no information separator. On rejection the message names base 16. |
| Text.ParseQuantity | src/simulation_engine.py:105 | A string starting with `0x` is read in base 16, anything else in base 10. The error names the base used, and a hex read is never negative. |
| Text.DecimalIgnoresPadding | src/simulation_engine.py:105 | Whitespace that `int` skips (not the information separators), put around a decimal literal, changes neither acceptance nor the value. |
| Text.DigitsRead | src/simulation_engine.py:105 | Decimal digits, optionally after `-`, read back as their value, negated after the `-`. |
| Text.NatToDigits | src/simulation_engine.py:79 | The rendering of `n` is a non-empty run of digits of the base that denotes `n`, with no leading zero. |
| Text.IntToString | src/simulation_engine.py:79 | `str(n)` starts with `-` exactly when `n` is negative, and with `0` exactly when `n` is zero. |
| Text.IntToStringUnpadded | src/simulation_engine.py:79 | A rendered integer is a `-` or a digit followed by digits, with nothing to strip. |
| Text.IntToStringRoundTrip | src/simulation_engine.py:79 | Rendering an integer and reading it back with the value parser gives the integer. |
| Text.DecimalRoundTrip | src/simulation_engine.py:105 | `int(str(n)) == n` for every integer. |
| Text.HexDigitsRead | src/simulation_engine.py:105 | Any run of hexadecimal digits (either case) behind `0x` is read by `int(s, 16)` as its value. |
| Text.HexRoundTrip | src/simulation_engine.py:105 | Any natural number written in hex behind `0x` reads back as itself. |
| Pricing.EthPriceUsd | src/simulation_engine.py:202-214 | The price is positive: 600 exactly for chain 56, 1 exactly for 137, 40 exactly for 43114, and the 3000 default for every other chain, listed or not. |
| Pricing.GasCostWei | src/simulation_engine.py:141 | `gas_cost_wei`: the gas used times the gas price in wei, exactly. A definition. |
| Pricing.GasCostUsdScaled | src/simulation_engine.py:142-146 | `gas_cost_usd` times 10^18, kept as the exact integer `gas_cost_wei * eth_price_usd` instead of a float. A definition. |
| Pricing.CostAbove | src/simulation_engine.py:232-236 | The `gas_cost_usd > 10` and `> 50` tests, decided exactly on the scaled cost: above `d` dollars iff the scaled cost exceeds `d * 10^18`. A definition. |
| Pricing.CostAboveMonotone | src/simulation_engine.py:232-236 | A cost above a higher threshold is above every lower one, so past $50 is past $10 too. |
| Pricing.FallbackCostBelowWarning | src/simulation_engine.py:129-146 | With both fallbacks (21000 gas at 20 gwei) the cost is 0.00042 of the native unit, under the 10 USD warning on every chain. |
| Analysis.NativeTransfer | src/simulation_engine.py:187-195 | The change dict for a native transfer: type NATIVE, change TRANSFER, sender, recipient, the amount in wei and the symbol ETH. A definition. |
| Analysis.AnalyzeAssetChanges | src/simulation_engine.py:179-200 | There is at most one change, and one exists iff value > 0. It is a NATIVE TRANSFER of exactly `value` wei from sender to recipient, with symbol ETH. |
| Analysis.GenerateWarnings | src/simulation_engine.py:216-241 | The list satisfies `IsWarningList`. It has each warning iff that warning's condition holds (call failed; gas > 1,000,000; cost > $10; cost > $50; no asset change), nothing else, in the fixed order. |
| Analysis.PrefixPartial | src/simulation_engine.py:224-239 | After each of the five conditional appends, the list is correct for the conditions seen so far. |
| Analysis.Step | src/simulation_engine.py:226-239 | One conditional append keeps the list ordered and correct, with one more condition decided. |
| Analysis.PartialComplete | src/simulation_engine.py:241 | A list correct for all five conditions is the warning list. |
| Analysis.RankOrderedUnique | src/simulation_engine.py:224-241 | Two lists in strictly increasing warning order with the same members are equal. |
| Analysis.WarningListUnique | src/simulation_engine.py:224-241 | The conditions determine the warning list completely. |
| Analysis.CostWarningsCumulative | src/simulation_engine.py:232-236 | The extreme-cost warning never replaces the high-cost warning: the high-cost warning comes right before it. |
| Analysis.FailureWarnedFirst | src/simulation_engine.py:226-227 | When the call will fail, the failure warning is first. |
| Analysis.QuietWarningList | src/simulation_engine.py:224-241 | Under both thresholds the list is the failure warning (if failing), then the no-transfer warning (if nothing moves), and nothing else. |
| Analysis.LoudWarningList | src/simulation_engine.py:229-239 | A successful call with no transfer, above 1,000,000 gas and $50, gets the gas, high-cost, extreme-cost and no-transfer warnings, in that order. |
| Scenarios.DefaultEngine | src/main.py:55-66 | The default engine serves exactly chains 1, 56, 137, 42161, 10, 8453 and 43114. |
| Scenarios.DefaultTableShape | src/main.py:55-63 | The default table has seven distinct chains, each with a non-empty endpoint. |
| Scenarios.UnsupportedChainScenario | src/simulation_engine.py:75-81 | Chain 999 is rejected with "Chain 999 not supported" and no remote call. |
| Scenarios.ChainIdText | src/simulation_engine.py:79 | The unsupported-chain message for 999 is "Chain 999 not supported". |
| Scenarios.DocumentedExampleScenario | src/main.py:103-112 | The schema's example sender is rejected as an invalid address before any remote call. |
| Scenarios.RunOnMainnet | src/simulation_engine.py:74-169 | On chain 1, well-formed addresses, a readable value, no data and no overrides run to completion with the transaction built from the stripped addresses. |
| Scenarios.PlainCallScenario | src/simulation_engine.py:115-169 | A zero-value call at 21000 gas and 20 gwei succeeds with no error. It costs 420,000 gwei, makes no transfer, warns only about no transfer, and makes three calls. |
| Scenarios.ValueTransferScenario | src/simulation_engine.py:105-200 | A positive hex value is sent as that many wei. It gives exactly one native transfer between the stripped addresses and no warning. |
| Scenarios.RevertScenario | src/simulation_engine.py:116-131 | A reverting call reports the call's own message, not the estimate's. Gas falls back to 21000, and the warnings are the failure warning then the no-transfer warning. |
| Scenarios.SilentRevertScenario | src/simulation_engine.py:120-131 | A call error with an empty message is replaced by the estimation failure's message. |
| Scenarios.HeavyCallScenario | src/simulation_engine.py:141-239 | 1.5 million gas at 20 gwei on chain 1 costs 0.03 ether ($90). It gets the gas warning and both cost warnings. |
| Scenarios.BadValueScenario | src/simulation_engine.py:105-177 | A non-numeric value aborts through the outer handler with Python's `int` message and no remote call. |
| Scenarios.HealthyRun | src/simulation_engine.py:115-146 | Against a node that answers everything, the result succeeds with the node's estimate and price and no error. |
| Scenarios.RevertingRun | src/simulation_engine.py:116-146 | Against a node that rejects the call and the estimate with the same non-empty message, that message is the error and gas falls back to 21000. |

## Left out

- Remote calls (`eth_call`, `estimate_gas`, `gas_price`) are inputs: the `Node` value behind each endpoint. The HTTP transport, `async`, timeouts and concurrency are not modelled.
- Logging is not modelled.
- Client construction (`Web3(HTTPProvider(url))`) is the `accepts` parameter of the constructor. It says which endpoints the library accepts; a refused one is skipped.
- The constructor takes the chain table as a sequence of distinct (chain id, endpoint) pairs in dict order. The mapping from chain id to client handle is a `map`.
- Floating point: the model carries the exact rationals that the floats approximate, so `round(gas_cost_usd, 4)`, the float conversions and their rounding are left out. A cost within one float rounding step of $10 or $50 may be warned about differently by the Python code.
- Warning display text (emoji, thousands separator, two-decimal dollar amount) is not modelled. Each tag keeps the number the text shows.
- `amount_eth` in an asset change is not kept. It is `amountWei / 10^18`.
- Call data is passed through and never inspected, as in the source (no token-transfer decoding).
- Engine.SimulationEngine.SimulateTransaction: the outer `except` is modelled only for literals that `int` rejects. Exceptions that `from_wei` or the client library could raise on other inputs (for example a value above 2^256 - 1) are left out, because that library code is not part of this model.
- Text.ParseDecimal: Python's `int` also accepts `_` between digits and non-ASCII decimal digits. The model accepts only ASCII digits.
- Text.ParseHex: Python's `int` also accepts `_` between digits (also right after `0x`) and non-ASCII decimal digits, such as fullwidth digits, which it maps to ASCII whatever the base. The model accepts only ASCII hex digits.
- Text.InvalidLiteral: Python's message shows `repr(s)` cut to 200 characters. The model quotes the literal as-is, without `repr`'s choice of quote character (it uses `"` when the literal contains `'` but no `"`) and its escaping of backslashes and unprintable characters, and then cuts it to 200 characters the same way.
- Text.ParseDecimal: CPython 3.11 and later refuse decimal literals of more than 4300 digits (`sys.get_int_max_str_digits()`), with a different message. The model reads literals of any length. For the same reason `Text.DecimalRoundTrip` and `Text.IntToStringRoundTrip` hold in the model for every integer, while CPython's `str` also refuses integers of more than 4300 digits.
- A price-fetch failure is never reported in the model, because the source swallows it.
