/** `SimulationEngine`: the per-chain handle table and the
    `simulate_transaction` pipeline. The three remote calls (`eth.call`,
    `eth.estimate_gas`, `eth.gas_price`) are not performed here: the node
    behind each endpoint is a `Node` value saying how it would answer, and the
    pipeline returns, beside its result, the list of calls it made. */
module Engine {
  import opened Outcomes
  import opened Text
  import opened Pricing
  import opened Analysis

  /** A client handle bound to one endpoint (`Web3(HTTPProvider(url))`). */
  datatype Handle = Handle(endpoint: string)

  /** The transaction dict sent to the node; `gas` and `gasPrice` are the
      optional keys, present only when the caller supplied them. */
  datatype Tx = Tx(from: string, to: string, value: int, data: string, gas: Option<int>, gasPrice: Option<int>)

  /** How the node behind an endpoint answers: the dry-run call and the gas
      estimate for a given transaction, and the current gas price in wei.
      A `Fail` carries the text of the exception the client library raises. */
  datatype Node = Node(call: Tx -> Outcome<()>, estimateGas: Tx -> Outcome<nat>, gasPrice: Outcome<nat>)

  /** One remote request issued by the pipeline. */
  datatype RemoteCall = EthCall(tx: Tx) | EstimateGas(tx: Tx) | GasPriceQuery

  /** The dict `simulate_transaction` returns. An early return carries only
      `success` (always false), `error` and `chain_id`; a normal completion
      carries every key. The float keys are kept exact: `gas_cost_eth` is
      `gasCostWei / 10^18`, `gas_price_gwei` is `gasPriceWei / 10^9` and
      `gas_cost_usd` is `gasCostWei * ethPriceUsd / 10^18` before rounding. */
  datatype SimulationResult =
    | Aborted(reason: string, chainId: int)
    | Completed(
        success: bool,
        gasUsed: nat,
        gasCostWei: nat,
        gasPriceWei: nat,
        ethPriceUsd: nat,
        callError: Option<string>,
        assetChanges: seq<AssetChange>,
        warnings: seq<Warning>,
        chainId: int,
        simulationMethod: string)
  {
    /** The `success` key. */
    predicate Succeeded()
    {
      Completed? && success
    }

    /** The `error` key. */
    function Error(): Option<string>
    {
      if Aborted? then Some(reason) else callError
    }
  }

  /** The error of an early return for a chain without a client. */
  function ChainNotSupported(chainId: int): string
  {
    "Chain " + IntToString(chainId) + " not supported"
  }

  /** The chain id reads back, with `int`, from the text between the fixed
      words of its error; so no two chains get the same error. */
  lemma ChainNotSupportedReadsBack(chainId: int)
    ensures var m := ChainNotSupported(chainId);
      && |m| > 20 && m[..6] == "Chain " && m[|m| - 14..] == " not supported"
      && ParseDecimal(m[6..|m| - 14]) == Ok(chainId)
  {
    DecimalRoundTrip(chainId);
    Enclosed("Chain ", IntToString(chainId), " not supported");
  }

  /** The middle of a three-part text, cut out by the lengths of the ends. */
  lemma Enclosed(a: string, b: string, c: string)
    ensures var s := a + b + c;
      |s| == |a| + |b| + |c| && s[..|a|] == a && s[|s| - |c|..] == c && s[|a|..|s| - |c|] == b
  {
    var s := a + b + c;
    assert s[..|a|] == a;
    assert s[|s| - |c|..] == c;
    assert s[|a|..|s| - |c|] == b;
  }

  /** The error of an early return for a rejected address; the address
      check's own message is kept whole, at the end. */
  function InvalidAddress(msg: string): (m: string)
    ensures |m| > |msg| && m[|m| - |msg|..] == msg
  {
    "Invalid address: " + msg
  }

  /** The error the outer handler returns; the exception's text is kept
      whole, at the end. */
  function SimulationFailed(msg: string): (m: string)
    ensures |m| > |msg| && m[|m| - |msg|..] == msg
  {
    "Simulation failed: " + msg
  }

  /** The error reported when only gas estimation failed; the exception's
      text is kept whole, at the end. */
  function GasEstimationFailed(msg: string): (m: string)
    ensures |m| > |msg| && m[|m| - |msg|..] == msg
  {
    "Gas estimation failed: " + msg
  }

  /** The three early-return errors never coincide, whatever they wrap: the
      error of an aborted simulation tells which check stopped it. */
  lemma AbortReasonsDistinct(chainId: int, addressMsg: string, failure: string)
    ensures ChainNotSupported(chainId) != InvalidAddress(addressMsg)
    ensures ChainNotSupported(chainId) != SimulationFailed(failure)
    ensures InvalidAddress(addressMsg) != SimulationFailed(failure)
  {
    assert ChainNotSupported(chainId)[0] == 'C';
    assert InvalidAddress(addressMsg)[0] == 'I';
    assert SimulationFailed(failure)[0] == 'S';
  }

  /** Python truthiness of an optional string: `None` and `""` are false,
      every other string is true. */
  predicate Supplied(o: Option<string>)
  {
    o.Some? && o.value != ""
  }

  /** The transaction dict built from the normalized addresses and the
      caller's strings: `value` is always parsed; `gas` and `gas_price` are
      parsed and added only when supplied. The first literal that `int`
      rejects, in the order value, gas, gas price, aborts with its message. */
  function BuildTx(fromAddr: string, toAddr: string, value: string, data: string,
                   gas: Option<string>, gasPrice: Option<string>): (r: Outcome<Tx>)
    ensures r.Ok? <==>
      && ParseQuantity(value).Ok?
      && (Supplied(gas) ==> ParseQuantity(gas.value).Ok?)
      && (Supplied(gasPrice) ==> ParseQuantity(gasPrice.value).Ok?)
    ensures r.Ok? ==>
      && r.value.from == fromAddr && r.value.to == toAddr && r.value.data == data
      && Ok(r.value.value) == ParseQuantity(value)
      && (r.value.gas.Some? <==> Supplied(gas))
      && (r.value.gas.Some? ==> Ok(r.value.gas.value) == ParseQuantity(gas.value))
      && (r.value.gasPrice.Some? <==> Supplied(gasPrice))
      && (r.value.gasPrice.Some? ==> Ok(r.value.gasPrice.value) == ParseQuantity(gasPrice.value))
    ensures ParseQuantity(value).Fail? ==> r == Fail(ParseQuantity(value).msg)
    ensures ParseQuantity(value).Ok? && Supplied(gas) && ParseQuantity(gas.value).Fail? ==>
      r == Fail(ParseQuantity(gas.value).msg)
    ensures && ParseQuantity(value).Ok? && (Supplied(gas) ==> ParseQuantity(gas.value).Ok?)
            && Supplied(gasPrice) && ParseQuantity(gasPrice.value).Fail? ==>
      r == Fail(ParseQuantity(gasPrice.value).msg)
  {
    match ParseQuantity(value)
    case Fail(m) => Fail(m)
    case Ok(v) =>
      var tx := Tx(fromAddr, toAddr, v, data, None, None);
      var withGas :=
        if !Supplied(gas) then Ok(tx)
        else match ParseQuantity(gas.value)
          case Fail(m) => Fail(m)
          case Ok(g) => Ok(tx.(gas := Some(g)));
      match withGas
      case Fail(m) => Fail(m)
      case Ok(t) =>
        if !Supplied(gasPrice) then Ok(t)
        else match ParseQuantity(gasPrice.value)
          case Fail(m) => Fail(m)
          case Ok(p) => Ok(t.(gasPrice := Some(p)))
  }

  /** A Python dict's items, in insertion order: no key twice. */
  predicate DistinctKeys(items: seq<(int, string)>)
  {
    forall i, j :: 0 <= i < j < |items| ==> items[i].0 != items[j].0
  }

  class SimulationEngine {
    /** `rpc_urls`: the items of the chain id to endpoint dict, as configured. */
    var rpcUrls: seq<(int, string)>
    /** `w3_instances`: chain id to client handle, for the chains that have one. */
    var w3Instances: map<int, Handle>

    /** `__init__`: a handle for every chain whose endpoint is not empty and
        whose handle the client library constructs; `accepts` says for which
        endpoints it does (a refused one is logged and skipped). No other chain
        id resolves. */
    constructor (rpcUrls: seq<(int, string)>, accepts: string -> bool)
      requires DistinctKeys(rpcUrls)
      ensures this.rpcUrls == rpcUrls
      ensures forall i :: 0 <= i < |rpcUrls| ==>
        (rpcUrls[i].0 in w3Instances <==> rpcUrls[i].1 != "" && accepts(rpcUrls[i].1))
      ensures forall i :: 0 <= i < |rpcUrls| && rpcUrls[i].0 in w3Instances ==>
        w3Instances[rpcUrls[i].0] == Handle(rpcUrls[i].1)
      ensures forall c :: c in w3Instances ==> exists i :: 0 <= i < |rpcUrls| && rpcUrls[i].0 == c
    {
      this.rpcUrls := rpcUrls;
      w3Instances := map[];
      new;
      for k := 0 to |rpcUrls|
        invariant this.rpcUrls == rpcUrls
        invariant forall i :: 0 <= i < k ==>
          (rpcUrls[i].0 in w3Instances <==> rpcUrls[i].1 != "" && accepts(rpcUrls[i].1))
        invariant forall i :: 0 <= i < k && rpcUrls[i].0 in w3Instances ==>
          w3Instances[rpcUrls[i].0] == Handle(rpcUrls[i].1)
        invariant forall c :: c in w3Instances ==> exists i :: 0 <= i < k && rpcUrls[i].0 == c
      {
        var (chainId, url) := rpcUrls[k];
        if url != "" && accepts(url) {
          w3Instances := w3Instances[chainId := Handle(url)];
        }
      }
    }

    /** `simulate_transaction`. `net` gives the node behind each endpoint;
        `calls` lists the remote requests made, in order. */
    method SimulateTransaction(chainId: int, fromAddress: string, toAddress: string, value: string,
                               data: string, gas: Option<string>, gasPrice: Option<string>,
                               net: string -> Node)
      returns (r: SimulationResult, calls: seq<RemoteCall>)
      ensures r.chainId == chainId
      // No remote request on any early return; all three on a completion.
      ensures calls != [] <==> r.Completed?
      // An unknown chain is rejected first.
      ensures chainId !in w3Instances ==> r == Aborted(ChainNotSupported(chainId), chainId)
      // Then the sender's address, then the recipient's.
      ensures chainId in w3Instances && NormalizeAddress(fromAddress).Fail? ==>
        r == Aborted(InvalidAddress(NormalizeAddress(fromAddress).msg), chainId)
      ensures chainId in w3Instances && NormalizeAddress(fromAddress).Ok? && NormalizeAddress(toAddress).Fail? ==>
        r == Aborted(InvalidAddress(NormalizeAddress(toAddress).msg), chainId)
      // Then the integer literals; `int` raising is caught by the outer handler.
      ensures chainId in w3Instances && NormalizeAddress(fromAddress).Ok? && NormalizeAddress(toAddress).Ok? ==>
        var built := BuildTx(NormalizeAddress(fromAddress).value, NormalizeAddress(toAddress).value,
                             value, data, gas, gasPrice);
        built.Fail? ==> r == Aborted(SimulationFailed(built.msg), chainId)
      // Otherwise the three remote calls, their fallbacks and the derived fields.
      ensures chainId in w3Instances && NormalizeAddress(fromAddress).Ok? && NormalizeAddress(toAddress).Ok? ==>
        var built := BuildTx(NormalizeAddress(fromAddress).value, NormalizeAddress(toAddress).value,
                             value, data, gas, gasPrice);
        built.Ok? ==> Completion(chainId, built.value, net(w3Instances[chainId].endpoint), r, calls)
    {
      calls := [];
      if chainId !in w3Instances {
        return Aborted(ChainNotSupported(chainId), chainId), calls;
      }
      var w3 := w3Instances[chainId];
      var node := net(w3.endpoint);

      var fromAddr := NormalizeAddress(fromAddress);
      if fromAddr.Fail? {
        return Aborted(InvalidAddress(fromAddr.msg), chainId), calls;
      }
      var toAddr := NormalizeAddress(toAddress);
      if toAddr.Fail? {
        return Aborted(InvalidAddress(toAddr.msg), chainId), calls;
      }

      var built := BuildTx(fromAddr.value, toAddr.value, value, data, gas, gasPrice);
      if built.Fail? {
        return Aborted(SimulationFailed(built.msg), chainId), calls;
      }
      var tx := built.value;

      r, calls := RunCalls(chainId, tx, node);
    }
  }

  /** What a completed simulation of `tx` against `node` is: the three
      remote calls in order, their fallbacks, the derived cost fields, and
      the error, asset changes and warnings that follow from them. */
  predicate Completion(chainId: int, tx: Tx, node: Node, r: SimulationResult, calls: seq<RemoteCall>)
  {
    var called, estimated := node.call(tx), node.estimateGas(tx);
    && calls == [EthCall(tx), EstimateGas(tx), GasPriceQuery]
    && r.Completed?
    && r.chainId == chainId
    && r.simulationMethod == "eth_call"
    && (r.success <==> called.Ok?)
    && r.gasUsed == (if estimated.Ok? then estimated.value else FallbackGas)
    && r.gasPriceWei == (if node.gasPrice.Ok? then node.gasPrice.value else FallbackGasPriceWei)
    && r.gasCostWei == GasCostWei(r.gasUsed, r.gasPriceWei)
    && r.ethPriceUsd == EthPriceUsd(chainId)
    // First error wins; a failed price fetch is never reported. A call
    // error with an empty message counts as no error.
    && (called.Ok? && estimated.Ok? ==> r.callError == None)
    && (called.Fail? && (called.msg != "" || estimated.Ok?) ==> r.callError == Some(called.msg))
    && (estimated.Fail? && (called.Ok? || called.msg == "") ==>
          r.callError == Some(GasEstimationFailed(estimated.msg)))
    && (tx.value > 0 ==> r.assetChanges == [NativeTransfer(tx.from, tx.to, tx.value)])
    && (tx.value <= 0 ==> r.assetChanges == [])
    && IsWarningList(r.success, r.gasUsed, GasCostUsdScaled(r.gasCostWei, r.ethPriceUsd),
                     r.assetChanges == [], r.warnings)
  }

  /** `Completion` leaves nothing open: the node's answers decide every
      field of the result and the list of calls. */
  lemma CompletionUnique(chainId: int, tx: Tx, node: Node, r1: SimulationResult, calls1: seq<RemoteCall>,
                         r2: SimulationResult, calls2: seq<RemoteCall>)
    requires Completion(chainId, tx, node, r1, calls1)
    requires Completion(chainId, tx, node, r2, calls2)
    ensures r1 == r2 && calls1 == calls2
  {
    WarningListUnique(r1.success, r1.gasUsed, GasCostUsdScaled(r1.gasCostWei, r1.ethPriceUsd),
                      r1.assetChanges == [], r1.warnings, r2.warnings);
  }

  /** The part of `simulate_transaction` after the transaction is built:
      the dry-run call, the gas estimate and the gas price, each with its
      fallback, then the costs, asset changes and warnings. */
  method RunCalls(chainId: int, tx: Tx, node: Node) returns (r: SimulationResult, calls: seq<RemoteCall>)
    ensures Completion(chainId, tx, node, r, calls)
  {
    calls := [];

    // Dry-run call.
    var simulationSuccess: bool;
    var errorMsg: Option<string>;
    calls := calls + [EthCall(tx)];
    match node.call(tx) {
      case Ok(_) =>
        simulationSuccess := true;
        errorMsg := None;
      case Fail(m) =>
        simulationSuccess := false;
        errorMsg := Some(m);
    }

    // Gas estimate.
    var gasEstimate: nat;
    calls := calls + [EstimateGas(tx)];
    match node.estimateGas(tx) {
      case Ok(g) =>
        gasEstimate := g;
      case Fail(m) =>
        gasEstimate := FallbackGas;
        if errorMsg == None || errorMsg == Some("") {
          errorMsg := Some(GasEstimationFailed(m));
        }
    }

    // Gas price.
    var currentGasPrice: nat;
    calls := calls + [GasPriceQuery];
    match node.gasPrice {
      case Ok(p) =>
        currentGasPrice := p;
      case Fail(_) =>
        currentGasPrice := FallbackGasPriceWei;
    }

    var gasCostWei := GasCostWei(gasEstimate, currentGasPrice);
    var ethPriceUsd := EthPriceUsd(chainId);
    var assetChanges := AnalyzeAssetChanges(tx.from, tx.to, tx.value);
    assert tx.value > 0 ==> assetChanges[0] in assetChanges;
    var warnings := GenerateWarnings(simulationSuccess, gasEstimate,
                                     GasCostUsdScaled(gasCostWei, ethPriceUsd), assetChanges);
    r := Completed(simulationSuccess, gasEstimate, gasCostWei, currentGasPrice, ethPriceUsd,
                   errorMsg, assetChanges, warnings, chainId, "eth_call");
  }
}
