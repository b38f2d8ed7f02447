/** `_analyze_asset_changes` and `_generate_warnings`: the asset changes and
    the ordered warnings derived from a finished simulation. */
module Analysis {
  import opened Pricing

  /** One predicted transfer. `amount_eth`, the float rendering of
      `amountWei`, is not kept: it is `amountWei / 10^18`. */
  datatype AssetChange = AssetChange(
    assetType: string,
    changeType: string,
    from: string,
    to: string,
    amountWei: int,
    symbol: string)

  /** The transfer the engine reports for a call carrying `value`. The symbol
      is `ETH` whatever the chain. */
  function NativeTransfer(fromAddr: string, toAddr: string, value: int): AssetChange
  {
    AssetChange("NATIVE", "TRANSFER", fromAddr, toAddr, value, "ETH")
  }

  /** `_analyze_asset_changes`: one native transfer when `value > 0`, none
      otherwise; the call data is not inspected. */
  method AnalyzeAssetChanges(fromAddr: string, toAddr: string, value: int)
    returns (changes: seq<AssetChange>)
    ensures changes != [] <==> value > 0
    ensures |changes| <= 1
    ensures forall c :: c in changes ==>
      c.assetType == "NATIVE" && c.changeType == "TRANSFER" && c.from == fromAddr
      && c.to == toAddr && c.amountWei == value && c.symbol == "ETH"
  {
    changes := [];
    if value > 0 {
      changes := changes + [NativeTransfer(fromAddr, toAddr, value)];
    }
  }

  /** The warnings, as tags. The display text (the emoji, the thousands
      separator, the two-decimal dollar amount) is not modelled; the tags
      keep the number each text shows. */
  datatype Warning =
    | WillFail                         // "Transaction will likely FAIL - Do not execute"
    | HighGasUsage(gas: nat)           // "Very high gas usage: {gas:,} gas"
    | HighGasCost(usdScaled: nat)      // "High gas cost: ${usd:.2f}", usd = usdScaled / 10^18
    | ExtremelyHighCost                // "EXTREMELY HIGH GAS COST - Verify transaction details"
    | NoAssetTransfers                 // "No asset transfers detected"

  const HighGasThreshold: nat := 1_000_000

  /** The position of each kind of warning in the fixed order. */
  function Rank(w: Warning): nat
  {
    match w
    case WillFail => 0
    case HighGasUsage(_) => 1
    case HighGasCost(_) => 2
    case ExtremelyHighCost => 3
    case NoAssetTransfers => 4
  }

  predicate RankOrdered(ws: seq<Warning>)
  {
    forall i, j :: 0 <= i < j < |ws| ==> Rank(ws[i]) < Rank(ws[j])
  }

  /** What `_generate_warnings` promises: the list holds each warning exactly
      when its own condition holds, nothing else, in the fixed order. */
  predicate IsWarningList(success: bool, gasEstimate: nat, usdScaled: nat, noAssets: bool, ws: seq<Warning>)
  {
    && RankOrdered(ws)
    && (forall w :: w in ws ==>
          w == WillFail || w == HighGasUsage(gasEstimate) || w == HighGasCost(usdScaled)
          || w == ExtremelyHighCost || w == NoAssetTransfers)
    && (WillFail in ws <==> !success)
    && (HighGasUsage(gasEstimate) in ws <==> gasEstimate > HighGasThreshold)
    && (HighGasCost(usdScaled) in ws <==> CostAbove(usdScaled, 10))
    && (ExtremelyHighCost in ws <==> CostAbove(usdScaled, 50))
    && (NoAssetTransfers in ws <==> noAssets)
  }

  /** `_generate_warnings`: appends each warning under its own condition, in
      order. */
  method GenerateWarnings(success: bool, gasEstimate: nat, usdScaled: nat, assetChanges: seq<AssetChange>)
    returns (warnings: seq<Warning>)
    ensures IsWarningList(success, gasEstimate, usdScaled, assetChanges == [], warnings)
  {
    var noAssets := assetChanges == [];
    warnings := [];
    if !success {
      warnings := warnings + [WillFail];
    }
    assert warnings == Prefix(1, success, gasEstimate, usdScaled, noAssets);
    if gasEstimate > HighGasThreshold {
      warnings := warnings + [HighGasUsage(gasEstimate)];
    }
    assert warnings == Prefix(2, success, gasEstimate, usdScaled, noAssets);
    if CostAbove(usdScaled, 10) {
      warnings := warnings + [HighGasCost(usdScaled)];
    }
    assert warnings == Prefix(3, success, gasEstimate, usdScaled, noAssets);
    if CostAbove(usdScaled, 50) {
      warnings := warnings + [ExtremelyHighCost];
    }
    assert warnings == Prefix(4, success, gasEstimate, usdScaled, noAssets);
    if |assetChanges| == 0 {
      warnings := warnings + [NoAssetTransfers];
    }
    assert warnings == Prefix(5, success, gasEstimate, usdScaled, noAssets);
    PrefixPartial(5, success, gasEstimate, usdScaled, noAssets);
    PartialComplete(success, gasEstimate, usdScaled, noAssets, warnings);
  }

  /** The list after the first `k` conditions have been looked at, each
      appending its own warning when it holds. */
  ghost function Prefix(k: nat, success: bool, gasEstimate: nat, usdScaled: nat, noAssets: bool): seq<Warning>
  {
    if k == 0 then []
    else
      Prefix(k - 1, success, gasEstimate, usdScaled, noAssets)
      + (if Condition(k - 1, success, gasEstimate, usdScaled, noAssets)
         then [Candidate(k - 1, gasEstimate, usdScaled)] else [])
  }

  /** Every prefix of the appends is a correct partial list. */
  lemma {:induction false} PrefixPartial(k: nat, success: bool, gasEstimate: nat, usdScaled: nat, noAssets: bool)
    requires 0 < k <= 5
    ensures Partial(k, success, gasEstimate, usdScaled, noAssets, Prefix(k, success, gasEstimate, usdScaled, noAssets))
  {
    var ws := Prefix(k - 1, success, gasEstimate, usdScaled, noAssets);
    if k > 1 {
      PrefixPartial(k - 1, success, gasEstimate, usdScaled, noAssets);
    }
    Step(k - 1, success, gasEstimate, usdScaled, noAssets, ws);
    if !Condition(k - 1, success, gasEstimate, usdScaled, noAssets) {
      assert ws + [] == ws;
    }
  }

  /** The warning of rank `k`, and the condition under which it is added. */
  function Candidate(k: nat, gasEstimate: nat, usdScaled: nat): Warning
  {
    if k == 0 then WillFail
    else if k == 1 then HighGasUsage(gasEstimate)
    else if k == 2 then HighGasCost(usdScaled)
    else if k == 3 then ExtremelyHighCost
    else NoAssetTransfers
  }

  predicate Condition(k: nat, success: bool, gasEstimate: nat, usdScaled: nat, noAssets: bool)
  {
    if k == 0 then !success
    else if k == 1 then gasEstimate > HighGasThreshold
    else if k == 2 then CostAbove(usdScaled, 10)
    else if k == 3 then CostAbove(usdScaled, 50)
    else noAssets
  }

  /** The list after the first `k` conditions have been looked at. */
  predicate Partial(k: nat, success: bool, gasEstimate: nat, usdScaled: nat, noAssets: bool, ws: seq<Warning>)
  {
    && RankOrdered(ws)
    && (forall w :: w in ws ==> Rank(w) < k && w == Candidate(Rank(w), gasEstimate, usdScaled))
    && (forall m: nat :: m < k ==>
          (Candidate(m, gasEstimate, usdScaled) in ws <==> Condition(m, success, gasEstimate, usdScaled, noAssets)))
  }

  /** Looking at condition `k` extends the partial list correctly. */
  lemma Step(k: nat, success: bool, gasEstimate: nat, usdScaled: nat, noAssets: bool, ws: seq<Warning>)
    requires k < 5
    requires k == 0 ==> ws == []
    requires k > 0 ==> Partial(k, success, gasEstimate, usdScaled, noAssets, ws)
    ensures Partial(k + 1, success, gasEstimate, usdScaled, noAssets,
      if Condition(k, success, gasEstimate, usdScaled, noAssets) then ws + [Candidate(k, gasEstimate, usdScaled)] else ws)
  {
    var c := Candidate(k, gasEstimate, usdScaled);
    assert Rank(c) == k;
    if Condition(k, success, gasEstimate, usdScaled, noAssets) {
      AppendKeepsOrder(ws, c);
      var ws' := ws + [c];
      forall m: nat | m < k + 1
        ensures Candidate(m, gasEstimate, usdScaled) in ws' <==> Condition(m, success, gasEstimate, usdScaled, noAssets)
      {
        assert Rank(Candidate(m, gasEstimate, usdScaled)) == m;
      }
    } else {
      forall m: nat | m < k + 1
        ensures Candidate(m, gasEstimate, usdScaled) in ws <==> Condition(m, success, gasEstimate, usdScaled, noAssets)
      {
        assert Rank(Candidate(m, gasEstimate, usdScaled)) == m;
      }
    }
  }

  /** After all five conditions the list is the warning list. */
  lemma PartialComplete(success: bool, gasEstimate: nat, usdScaled: nat, noAssets: bool, ws: seq<Warning>)
    requires Partial(5, success, gasEstimate, usdScaled, noAssets, ws)
    ensures IsWarningList(success, gasEstimate, usdScaled, noAssets, ws)
  {
    assert Candidate(0, gasEstimate, usdScaled) == WillFail;
    assert Candidate(1, gasEstimate, usdScaled) == HighGasUsage(gasEstimate);
    assert Candidate(2, gasEstimate, usdScaled) == HighGasCost(usdScaled);
    assert Candidate(3, gasEstimate, usdScaled) == ExtremelyHighCost;
    assert Candidate(4, gasEstimate, usdScaled) == NoAssetTransfers;
  }

  /** Appending a warning of higher rank than all present keeps the order. */
  lemma AppendKeepsOrder(ws: seq<Warning>, w: Warning)
    requires RankOrdered(ws)
    requires forall x :: x in ws ==> Rank(x) < Rank(w)
    ensures RankOrdered(ws + [w])
  {
    forall i, j | 0 <= i < j < |ws + [w]| ensures Rank((ws + [w])[i]) < Rank((ws + [w])[j]) {
      if j == |ws| { assert ws[i] in ws; }
    }
  }

  /** Two lists ordered by strictly increasing rank with the same elements
      are the same list. */
  lemma {:induction false} RankOrderedUnique(a: seq<Warning>, b: seq<Warning>)
    requires RankOrdered(a) && RankOrdered(b)
    requires forall w :: w in a <==> w in b
    ensures a == b
    decreases |a|
  {
    assert a == [] <==> b == [] by {
      if a != [] { assert a[0] in b; }
      if b != [] { assert b[0] in a; }
    }
    if a != [] {
      HeadIsLeast(a, b[0]);
      HeadIsLeast(b, a[0]);
      TailIsRest(a);
      TailIsRest(b);
      RankOrderedUnique(a[1..], b[1..]);
      assert a == [a[0]] + a[1..];
      assert b == [b[0]] + b[1..];
    }
  }

  /** In a rank-ordered list the head has the least rank. */
  lemma HeadIsLeast(a: seq<Warning>, w: Warning)
    requires RankOrdered(a) && a != [] && w in a
    ensures Rank(a[0]) <= Rank(w)
    ensures Rank(a[0]) == Rank(w) ==> a[0] == w
  {
    var k :| 0 <= k < |a| && a[k] == w;
    assert k == 0 || Rank(a[0]) < Rank(a[k]);
  }

  /** The tail of a rank-ordered list is the list without its head. */
  lemma TailIsRest(a: seq<Warning>)
    requires RankOrdered(a) && a != []
    ensures RankOrdered(a[1..])
    ensures forall w :: w in a[1..] <==> w in a && w != a[0]
  {
    forall w | w in a && w != a[0] ensures w in a[1..] {
      var k :| 0 <= k < |a| && a[k] == w;
      assert a[1..][k - 1] == w;
    }
    forall w | w in a[1..] ensures w != a[0] {
      var k :| 0 <= k < |a| - 1 && a[1..][k] == w;
      assert Rank(a[0]) < Rank(a[k + 1]);
    }
  }

  /** The conditions decide the warning list completely: any two lists that
      meet `IsWarningList` for the same inputs are equal. */
  lemma WarningListUnique(success: bool, gasEstimate: nat, usdScaled: nat, noAssets: bool, a: seq<Warning>, b: seq<Warning>)
    requires IsWarningList(success, gasEstimate, usdScaled, noAssets, a)
    requires IsWarningList(success, gasEstimate, usdScaled, noAssets, b)
    ensures a == b
  {
    RankOrderedUnique(a, b);
  }

  /** The extremely-high warning comes on top of the high-cost warning, right
      after it, never instead of it. */
  lemma CostWarningsCumulative(success: bool, gasEstimate: nat, usdScaled: nat, noAssets: bool, ws: seq<Warning>)
    requires IsWarningList(success, gasEstimate, usdScaled, noAssets, ws)
    requires ExtremelyHighCost in ws
    ensures exists i :: 0 <= i < |ws| - 1 && ws[i] == HighGasCost(usdScaled) && ws[i + 1] == ExtremelyHighCost
  {
    var i :| 0 <= i < |ws| && ws[i] == HighGasCost(usdScaled);
    var j :| 0 <= j < |ws| && ws[j] == ExtremelyHighCost;
    assert i + 1 <= j;
    assert Rank(ws[i + 1]) <= 3;
    assert ws[i + 1] in ws;
  }

  /** A call that will fail is warned about first. */
  lemma FailureWarnedFirst(success: bool, gasEstimate: nat, usdScaled: nat, noAssets: bool, ws: seq<Warning>)
    requires IsWarningList(success, gasEstimate, usdScaled, noAssets, ws)
    requires !success
    ensures ws != [] && ws[0] == WillFail
  {
    HeadIsLeast(ws, WillFail);
  }

  /** Below both thresholds (at most 10^6 gas, at most 10 USD) the list is
      the failure warning if the call failed, then the no-transfer warning if
      nothing moves, and nothing else. */
  lemma QuietWarningList(success: bool, gasEstimate: nat, usdScaled: nat, noAssets: bool, ws: seq<Warning>)
    requires IsWarningList(success, gasEstimate, usdScaled, noAssets, ws)
    requires gasEstimate <= HighGasThreshold && !CostAbove(usdScaled, 10)
    ensures ws == (if success then [] else [WillFail]) + (if noAssets then [NoAssetTransfers] else [])
  {
    var quiet := (if success then [] else [WillFail]) + (if noAssets then [NoAssetTransfers] else []);
    assert IsWarningList(success, gasEstimate, usdScaled, noAssets, quiet);
    WarningListUnique(success, gasEstimate, usdScaled, noAssets, ws, quiet);
  }

  /** Above both cost thresholds and the gas threshold, a successful call with
      no transfer gets the gas warning, both cost warnings and the no-transfer
      warning, in that order. */
  lemma LoudWarningList(gasEstimate: nat, usdScaled: nat, ws: seq<Warning>)
    requires IsWarningList(true, gasEstimate, usdScaled, true, ws)
    requires gasEstimate > HighGasThreshold && CostAbove(usdScaled, 50)
    ensures ws == [HighGasUsage(gasEstimate), HighGasCost(usdScaled), ExtremelyHighCost, NoAssetTransfers]
  {
    var loud := [HighGasUsage(gasEstimate), HighGasCost(usdScaled), ExtremelyHighCost, NoAssetTransfers];
    assert IsWarningList(true, gasEstimate, usdScaled, true, loud);
    WarningListUnique(true, gasEstimate, usdScaled, true, ws, loud);
  }
}
