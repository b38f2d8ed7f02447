/** Callers of the engine: the engine the service builds from its default
    chain table, the example request of its request schema, and requests that
    exercise each branch of `simulate_transaction` (an unknown chain, a bad
    literal, a plain call, a transfer, a revert, an expensive call). Each is
    stated as what the engine's contracts alone let a caller conclude. */
module Scenarios {
  import opened Outcomes
  import opened Text
  import opened Pricing
  import opened Analysis
  import opened Engine

  /** The default endpoints of the service's `RPC_URLS` table (no overrides). */
  function DefaultRpcUrls(): seq<(int, string)>
  {
    [ (1, "https://eth.llamarpc.com"),
      (56, "https://bsc-dataseed1.binance.org"),
      (137, "https://polygon-rpc.com"),
      (42161, "https://arb1.arbitrum.io/rpc"),
      (10, "https://mainnet.optimism.io"),
      (8453, "https://mainnet.base.org"),
      (43114, "https://api.avax.network/ext/bc/C/rpc") ]
  }

  /** A node that runs every call, estimates `gas` and quotes `priceWei`. */
  function HealthyNode(gas: nat, priceWei: nat): Node
  {
    Node(tx => Ok(()), tx => Ok(gas), Ok(priceWei))
  }

  const Sender := "0xd8dA6BF26964aF9D7eEd9e03E53415D37aA96045"
  const Recipient := "0xA0b86991c6218b36c1d19D4a2e9Eb0cE3606eB48"

  /** The sender of the example request in the service's request schema. */
  const DocumentedSender := "0x742d35Cc6634C0532925a3b844Bc9e7595f0bEb"

  /** The engine the service builds at start-up. */
  method DefaultEngine() returns (e: SimulationEngine)
    ensures forall c :: c in e.w3Instances <==> c in {1, 56, 137, 42161, 10, 8453, 43114}
  {
    var urls := DefaultRpcUrls();
    DefaultTableShape();
    e := new SimulationEngine(urls, u => true);
    assert urls[0].0 == 1 && urls[1].0 == 56 && urls[2].0 == 137 && urls[3].0 == 42161;
    assert urls[4].0 == 10 && urls[5].0 == 8453 && urls[6].0 == 43114;
  }

  /** The default table: seven chains, each once, none with an empty endpoint. */
  lemma DefaultTableShape()
    ensures var urls := DefaultRpcUrls();
      && |urls| == 7 && DistinctKeys(urls)
      && (forall i :: 0 <= i < 7 ==> urls[i].1 != "")
      && urls[0].0 == 1 && urls[1].0 == 56 && urls[2].0 == 137 && urls[3].0 == 42161
      && urls[4].0 == 10 && urls[5].0 == 8453 && urls[6].0 == 43114
  {
  }

  lemma ChainIdText()
    ensures ChainNotSupported(999) == "Chain 999 not supported"
  {
    NineNineNine();
  }

  lemma NineNineNine()
    ensures IntToString(999) == "999"
  {
    assert NatToDigits(9, 10) == "9";
    assert NatToDigits(99, 10) == "99";
  }

  /** A chain outside the table: rejected by name, nothing sent. */
  method UnsupportedChainScenario() returns (r: SimulationResult, calls: seq<RemoteCall>)
    ensures r == Aborted("Chain 999 not supported", 999) && calls == []
    ensures !r.Succeeded() && r.Error() == Some("Chain 999 not supported")
  {
    var e := DefaultEngine();
    r, calls := e.SimulateTransaction(999, Sender, Recipient, "0x0", "0x", None, None, u => HealthyNode(21000, 20 * WeiPerGwei));
    ChainIdText();
  }

  /** The example request in the service's request schema names a sender
      with 41 characters, so the address check rejects it before any call. */
  method DocumentedExampleScenario() returns (r: SimulationResult, calls: seq<RemoteCall>)
    ensures r == Aborted(InvalidAddress("Invalid address format: " + DocumentedSender), 1)
    ensures calls == []
  {
    var e := DefaultEngine();
    var from := DocumentedSender;
    StripUnpadded(from);
    assert NormalizeAddress(from) == Fail("Invalid address format: " + from);
    assert 1 in e.w3Instances;
    r, calls := e.SimulateTransaction(1, from, Recipient, "0x0", "0x", None, None, u => HealthyNode(21000, 20 * WeiPerGwei));
  }

  lemma ZeroLiteral()
    ensures ParseQuantity("0x0") == Ok(0)
  {
    var s := "0x0";
    assert StartsWith(s, "0x") by { assert s[..2] == "0x"; }
    assert s[2..] == "0";
    assert TrailingSpaces("0") == 0;
    assert "0"[..1 - 0] == "0";
  }

  /** The transaction built for a call with no data and no overrides whose
      value literal reads as `n`. */
  lemma PlainTx(fromAddr: string, toAddr: string, value: string, n: int)
    requires ParseQuantity(value) == Ok(n)
    ensures BuildTx(fromAddr, toAddr, value, "0x", None, None) == Ok(Tx(fromAddr, toAddr, n, "0x", None, None))
  {
  }

  /** Against a node that answers everything, a completed simulation
      succeeds with the node's estimate and price and reports no error. */
  lemma HealthyRun(chainId: int, tx: Tx, gas: nat, priceWei: nat, r: SimulationResult, calls: seq<RemoteCall>)
    requires Completion(chainId, tx, HealthyNode(gas, priceWei), r, calls)
    ensures r.Succeeded() && r.Error() == None && r.simulationMethod == "eth_call"
    ensures r.gasUsed == gas && r.gasPriceWei == priceWei && r.gasCostWei == gas * priceWei
    ensures r.ethPriceUsd == EthPriceUsd(chainId)
    ensures calls == [EthCall(tx), EstimateGas(tx), GasPriceQuery]
  {
  }

  /** A request with well-formed addresses, a readable value, no data and
      no overrides, on chain 1 of the default engine, runs to completion
      against `node` with the transaction built from the stripped addresses. */
  method RunOnMainnet(from: string, to: string, value: string, node: Node)
    returns (r: SimulationResult, calls: seq<RemoteCall>)
    requires NormalizeAddress(from).Ok? && NormalizeAddress(to).Ok? && ParseQuantity(value).Ok?
    ensures Completion(1, Tx(Strip(from), Strip(to), ParseQuantity(value).value, "0x", None, None), node, r, calls)
  {
    var e := DefaultEngine();
    PlainTx(Strip(from), Strip(to), value, ParseQuantity(value).value);
    r, calls := e.SimulateTransaction(1, from, to, value, "0x", None, None, u => node);
  }

  /** 21000 gas at 20 gwei, priced at 3000 USD: 1.26 USD, under the 10 USD mark. */
  lemma PlainCost(costWei: nat, usd: nat)
    requires costWei == 21000 * (20 * WeiPerGwei) && usd == EthPriceUsd(1)
    ensures GasCostUsdScaled(costWei, usd) == 1_260_000_000_000_000_000
    ensures !CostAbove(GasCostUsdScaled(costWei, usd), 10)
  {
  }

  /** A plain call with no value on chain 1, at 21000 gas and 20 gwei, between
      any two well-formed addresses: it succeeds, costs 0.00042 ether,
      reports no transfer and only the no-transfer warning. */
  method PlainCallScenario(from: string, to: string) returns (r: SimulationResult, calls: seq<RemoteCall>)
    requires NormalizeAddress(from).Ok? && NormalizeAddress(to).Ok?
    ensures r.Succeeded() && r.Error() == None
    ensures r.gasUsed == 21000 && r.gasCostWei == 420_000_000_000_000 && r.simulationMethod == "eth_call"
    ensures r.assetChanges == [] && r.warnings == [NoAssetTransfers]
    ensures |calls| == 3
  {
    var tx := Tx(Strip(from), Strip(to), 0, "0x", None, None);
    var node := HealthyNode(21000, 20 * WeiPerGwei);
    ZeroLiteral();
    r, calls := RunOnMainnet(from, to, "0x0", node);
    HealthyRun(1, tx, 21000, 20 * WeiPerGwei, r, calls);
    PlainCost(r.gasCostWei, r.ethPriceUsd);
    QuietWarningList(true, 21000, GasCostUsdScaled(r.gasCostWei, r.ethPriceUsd), true, r.warnings);
  }

  /** Sending `amount` wei, written as a hex literal, on chain 1: one native
      transfer between the stripped addresses and no warning at all. */
  method ValueTransferScenario(from: string, to: string, amount: nat) returns (r: SimulationResult, calls: seq<RemoteCall>)
    requires NormalizeAddress(from).Ok? && NormalizeAddress(to).Ok?
    requires amount > 0
    ensures r.Succeeded() && r.Error() == None
    ensures r.assetChanges == [NativeTransfer(Strip(from), Strip(to), amount)]
    ensures r.warnings == []
    ensures |calls| == 3 && calls[0].EthCall? && calls[0].tx.value == amount
  {
    var value := "0x" + NatToDigits(amount, 16);
    var tx := Tx(Strip(from), Strip(to), amount, "0x", None, None);
    var node := HealthyNode(21000, 20 * WeiPerGwei);
    HexRoundTrip(amount);
    r, calls := RunOnMainnet(from, to, value, node);
    HealthyRun(1, tx, 21000, 20 * WeiPerGwei, r, calls);
    PlainCost(r.gasCostWei, r.ethPriceUsd);
    QuietWarningList(true, 21000, GasCostUsdScaled(r.gasCostWei, r.ethPriceUsd), false, r.warnings);
  }

  /** A node that rejects every call and every estimate with `msg`. */
  function RevertingNode(msg: string, priceWei: nat): Node
  {
    Node(tx => Fail(msg), tx => Fail(msg), Ok(priceWei))
  }

  /** Against a node that rejects the call with a non-empty message and
      fails the estimate too, the call's message is the error and the gas
      falls back to 21000. */
  lemma RevertingRun(chainId: int, tx: Tx, msg: string, priceWei: nat, r: SimulationResult, calls: seq<RemoteCall>)
    requires msg != ""
    requires Completion(chainId, tx, RevertingNode(msg, priceWei), r, calls)
    ensures r.Completed? && !r.Succeeded() && r.Error() == Some(msg)
    ensures r.gasUsed == FallbackGas && r.gasPriceWei == priceWei && r.gasCostWei == FallbackGas * priceWei
    ensures r.ethPriceUsd == EthPriceUsd(chainId)
    ensures r.assetChanges == [] <==> tx.value <= 0
  {
  }

  /** A call that reverts: the call's own message is reported (the failed
      estimate does not replace it), gas falls back to 21000 and the list
      opens with the failure warning. */
  method RevertScenario(from: string, to: string) returns (r: SimulationResult, calls: seq<RemoteCall>)
    requires NormalizeAddress(from).Ok? && NormalizeAddress(to).Ok?
    ensures r.Completed? && !r.Succeeded()
    ensures r.Error() == Some("execution reverted")
    ensures r.gasUsed == FallbackGas
    ensures r.warnings == [WillFail, NoAssetTransfers]
  {
    var tx := Tx(Strip(from), Strip(to), 0, "0x", None, None);
    var node := RevertingNode("execution reverted", 20 * WeiPerGwei);
    ZeroLiteral();
    r, calls := RunOnMainnet(from, to, "0x0", node);
    RevertingRun(1, tx, "execution reverted", 20 * WeiPerGwei, r, calls);
    PlainCost(r.gasCostWei, r.ethPriceUsd);
    QuietWarningList(false, FallbackGas, GasCostUsdScaled(r.gasCostWei, r.ethPriceUsd), true, r.warnings);
  }

  /** A call whose exception has an empty message counts as no error, so the
      estimate's failure is what gets reported. */
  method SilentRevertScenario(from: string, to: string) returns (r: SimulationResult, calls: seq<RemoteCall>)
    requires NormalizeAddress(from).Ok? && NormalizeAddress(to).Ok?
    ensures r.Completed? && !r.Succeeded()
    ensures r.Error() == Some(GasEstimationFailed("out of gas"))
  {
    var tx := Tx(Strip(from), Strip(to), 0, "0x", None, None);
    var node := Node(tx => Fail(""), tx => Fail("out of gas"), Ok(20 * WeiPerGwei));
    ZeroLiteral();
    r, calls := RunOnMainnet(from, to, "0x0", node);
  }

  /** A heavy call: 1.5 million gas at 20 gwei on chain 1 costs 0.03 ether,
      90 USD, which raises the gas warning and both cost warnings. */
  method HeavyCallScenario(from: string, to: string) returns (r: SimulationResult, calls: seq<RemoteCall>)
    requires NormalizeAddress(from).Ok? && NormalizeAddress(to).Ok?
    ensures r.Succeeded()
    ensures r.gasCostWei == 30_000_000_000_000_000
    ensures r.warnings == [HighGasUsage(1_500_000), HighGasCost(90 * WeiPerEther), ExtremelyHighCost, NoAssetTransfers]
  {
    var tx := Tx(Strip(from), Strip(to), 0, "0x", None, None);
    var node := HealthyNode(1_500_000, 20 * WeiPerGwei);
    ZeroLiteral();
    r, calls := RunOnMainnet(from, to, "0x0", node);
    HealthyRun(1, tx, 1_500_000, 20 * WeiPerGwei, r, calls);
    assert r.gasCostWei == 30_000_000_000_000_000 && r.ethPriceUsd == 3000;
    assert GasCostUsdScaled(r.gasCostWei, r.ethPriceUsd) == 90 * WeiPerEther;
    LoudWarningList(1_500_000, 90 * WeiPerEther, r.warnings);
  }

  lemma BadValueText()
    ensures ParseQuantity("ten") == Fail(InvalidLiteral("ten", 10))
  {
    var s := "ten";
    assert s[..2][0] == 't';
    assert !StartsWith(s, "0x");
    assert s[0] == 't';
    StripUnpadded(s);
  }

  /** A value that is not a number is caught by the outer handler: the
      request aborts with Python's message and nothing is sent. */
  method BadValueScenario(from: string, to: string) returns (r: SimulationResult, calls: seq<RemoteCall>)
    requires NormalizeAddress(from).Ok? && NormalizeAddress(to).Ok?
    ensures r == Aborted(SimulationFailed(InvalidLiteral("ten", 10)), 1)
    ensures calls == []
  {
    var e := DefaultEngine();
    BadValueText();
    r, calls := e.SimulateTransaction(1, from, to, "ten", "0x", None, None, u => HealthyNode(21000, 20 * WeiPerGwei));
  }
}
