/**
 * The style classifier `classify_stock` (fundamental_screener_v2.py, lines 63-125).
 * Unlike the scorer it tests fields by Python truthiness (`if pe and pe < 60`), so a
 * metric equal to zero earns no points, exactly as a missing one.
 */
module Classifier {
  import opened Wrappers
  import opened Fundamentals

  /** The style tags, in the order the classifier tests and lists them; `Balanced` is the fallback. */
  datatype Tag = Growth | Value | Moat | Dividend | Cyclical | Defensive | Distressed | Balanced

  /** The order in which the style tags are tested and listed. */
  const StyleOrder: seq<Tag> := [Growth, Value, Moat, Dividend, Cyclical, Defensive, Distressed]

  const CyclicalSectors: set<string> :=
    {"Energy", "Materials", "Industrials", "Consumer Cyclical", "Real Estate"}

  const DefensiveSectors: set<string> := {"Consumer Defensive", "Healthcare", "Utilities"}

  /** Position of a tag in the listing order. */
  function Rank(t: Tag): nat {
    match t
    case Growth => 0
    case Value => 1
    case Moat => 2
    case Dividend => 3
    case Cyclical => 4
    case Defensive => 5
    case Distressed => 6
    case Balanced => 7
  }

  /** Python truthiness of an optional number: present and non-zero. */
  predicate Truthy(x: Option<real>) {
    x.Some? && x.value != 0.0
  }

  /** `x and x < c` */
  predicate TruthyBelow(x: Option<real>, c: real) {
    Truthy(x) && x.value < c
  }

  /** `x and x > c` */
  predicate TruthyAbove(x: Option<real>, c: real) {
    Truthy(x) && x.value > c
  }

  function Points(test: bool, n: nat): nat {
    if test then n else 0
  }

  function GrowthPoints(d: Record): nat {
    Points(TruthyAbove(d.revenueGrowth, 0.15), 1)
    + Points(TruthyAbove(d.earningsGrowth, 0.15), 1)
    + Points(TruthyBelow(d.pe, 60.0), 1)
  }

  function ValuePoints(d: Record): nat {
    (if TruthyBelow(d.pe, 15.0) then 2 else Points(TruthyBelow(d.pe, 20.0), 1))
    + (if TruthyBelow(d.pb, 1.5) then 2 else Points(TruthyBelow(d.pb, 3.0), 1))
    + Points(TruthyAbove(d.profitMargin, 0.05), 1)
  }

  function MoatPoints(d: Record): nat {
    (if TruthyAbove(d.roe, 0.20) then 2 else Points(TruthyAbove(d.roe, 0.15), 1))
    + (if TruthyAbove(d.grossMargin, 0.50) then 2 else Points(TruthyAbove(d.grossMargin, 0.35), 1))
    + Points(TruthyAbove(d.profitMargin, 0.15), 1)
  }

  function DangerPoints(d: Record): nat {
    Points(TruthyAbove(d.debtEquity, 200.0), 2)
    + Points(TruthyBelow(d.fcf, 0.0), 2)
    + Points(TruthyBelow(d.revenueGrowth, -0.05), 1)
    + Points(TruthyBelow(d.profitMargin, 0.0), 2)
  }

  /** The rule that awards each style tag; the fallback `Balanced` is awarded by no rule. */
  predicate Earns(d: Record, t: Tag) {
    match t
    case Growth => GrowthPoints(d) >= 2
    case Value => ValuePoints(d) >= 3
    case Moat => MoatPoints(d) >= 3
    case Dividend =>
      && TruthyAbove(d.dividendYield, 0.02)
      && (d.payoutRatio.None? || d.payoutRatio.value < 0.8)
      && (d.fcf.Some? && d.fcf.value > 0.0)
    case Cyclical => d.sector in CyclicalSectors
    case Defensive => d.sector in DefensiveSectors && (d.beta.None? || d.beta.value < 0.8)
    case Distressed => DangerPoints(d) >= 3
    case Balanced => false
  }

  /** Tags listed in strictly increasing rank, hence each at most once. */
  ghost predicate Ordered(tags: seq<Tag>) {
    forall i, j :: 0 <= i < j < |tags| ==> Rank(tags[i]) < Rank(tags[j])
  }

  /** `[t]` when `d` earns `t`, else nothing. */
  function IfEarned(d: Record, t: Tag): seq<Tag> {
    if Earns(d, t) then [t] else []
  }

  /** The earned tags among the first `k` of the style order, in that order. */
  function EarnedAmong(d: Record, k: nat): seq<Tag>
    requires k <= |StyleOrder|
  {
    if k == 0 then [] else EarnedAmong(d, k - 1) + IfEarned(d, StyleOrder[k - 1])
  }

  /** The specification of the classifier: the earned style tags in order, or `Balanced` alone. */
  function Tags(d: Record): seq<Tag> {
    var styles := EarnedAmong(d, |StyleOrder|);
    if styles == [] then [Balanced] else styles
  }

  /** Position `i` of the style order holds the tag of rank `i`; every style is in it. */
  lemma StyleOrderRanks()
    ensures forall i :: 0 <= i < |StyleOrder| ==> Rank(StyleOrder[i]) == i
    ensures forall t :: t != Balanced ==> t in StyleOrder
  {
    forall t | t != Balanced ensures t in StyleOrder {
      assert StyleOrder[Rank(t)] == t;
    }
  }

  /** The first `k` styles keep exactly the earned ones, each of rank below `k`, in order. */
  lemma {:induction false} EarnedAmongSpec(d: Record, k: nat)
    requires k <= |StyleOrder|
    ensures forall t :: t in EarnedAmong(d, k) <==> t != Balanced && Rank(t) < k && Earns(d, t)
    ensures Ordered(EarnedAmong(d, k))
  {
    StyleOrderRanks();
    if k > 0 {
      EarnedAmongSpec(d, k - 1);
      var prefix, t := EarnedAmong(d, k - 1), StyleOrder[k - 1];
      assert EarnedAmong(d, k) == prefix + IfEarned(d, t);
      forall u | u in prefix + IfEarned(d, t) ensures u != Balanced && Rank(u) < k && Earns(d, u) {
        if u !in prefix { assert u == t; }
      }
      forall u | u != Balanced && Rank(u) < k && Earns(d, u) ensures u in prefix + IfEarned(d, t) {
        if Rank(u) == k - 1 { assert StyleOrder[Rank(u)] == u; }
      }
    }
  }

  /** The classifier's list is never empty, lists each earned style once in the fixed order,
      and holds `Balanced` exactly when no style rule matched, and then alone. */
  lemma TagsShape(d: Record)
    ensures |Tags(d)| >= 1
    ensures Ordered(Tags(d))
    ensures forall t :: t != Balanced ==> (t in Tags(d) <==> Earns(d, t))
    ensures Balanced in Tags(d) <==> Tags(d) == [Balanced]
    ensures Balanced in Tags(d) <==> forall t :: !Earns(d, t)
  {
    var styles := EarnedAmong(d, |StyleOrder|);
    EarnedAmongSpec(d, |StyleOrder|);
    if styles == [] {
      forall t ensures !Earns(d, t) {
        if t != Balanced { assert t !in styles; }
      }
    } else {
      assert styles[0] in styles;
    }
  }

  /** Records that satisfy the same rules get the same tags. */
  lemma {:induction false} SameRulesSameTags(d1: Record, d2: Record, k: nat)
    requires k <= |StyleOrder|
    requires forall t :: Earns(d1, t) == Earns(d2, t)
    ensures EarnedAmong(d1, k) == EarnedAmong(d2, k)
    ensures k == |StyleOrder| ==> Tags(d1) == Tags(d2)
  {
    if k > 0 {
      SameRulesSameTags(d1, d2, k - 1);
    }
  }

  /** The numeric metrics the classifier reads. */
  datatype Metric =
    | Pe | Pb | Roe | GrossMargin | ProfitMargin | RevenueGrowth | EarningsGrowth
    | DividendYield | PayoutRatio | DebtEquity | Beta | Fcf

  /** `d` with metric `m` set to `v`. */
  function WithMetric(d: Record, m: Metric, v: Option<real>): Record {
    match m
    case Pe => d.(pe := v)
    case Pb => d.(pb := v)
    case Roe => d.(roe := v)
    case GrossMargin => d.(grossMargin := v)
    case ProfitMargin => d.(profitMargin := v)
    case RevenueGrowth => d.(revenueGrowth := v)
    case EarningsGrowth => d.(earningsGrowth := v)
    case DividendYield => d.(dividendYield := v)
    case PayoutRatio => d.(payoutRatio := v)
    case DebtEquity => d.(debtEquity := v)
    case Beta => d.(beta := v)
    case Fcf => d.(fcf := v)
  }

  /** Truthiness: for every metric the classifier reads, a value of exactly zero yields the
      same tags as a missing value. */
  lemma ZeroClassifiesAsMissing(d: Record, m: Metric)
    ensures Tags(WithMetric(d, m, Some(0.0))) == Tags(WithMetric(d, m, None))
  {
    var zero, missing := WithMetric(d, m, Some(0.0)), WithMetric(d, m, None);
    forall t ensures Earns(zero, t) == Earns(missing, t) {
      assert GrowthPoints(zero) == GrowthPoints(missing);
      assert ValuePoints(zero) == ValuePoints(missing);
      assert MoatPoints(zero) == MoatPoints(missing);
      assert DangerPoints(zero) == DangerPoints(missing);
    }
    SameRulesSameTags(zero, missing, |StyleOrder|);
  }

  /** The dividend tag needs a truthy yield above 2%, a payout ratio that is missing or
      below 0.8, and free cash flow that is present and positive. */
  lemma DividendRule(d: Record)
    ensures Dividend in Tags(d) <==>
      && d.dividendYield.Some? && d.dividendYield.value > 0.02
      && (d.payoutRatio.None? || d.payoutRatio.value < 0.8)
      && d.fcf.Some? && d.fcf.value > 0.0
  {
    TagsShape(d);
  }

  /** A defensive-sector stock without a beta is tagged defensive; with one, only below 0.8. */
  lemma DefensiveRule(d: Record)
    ensures Defensive in Tags(d) <==>
      d.sector in DefensiveSectors && (d.beta.None? || d.beta.value < 0.8)
    ensures Cyclical in Tags(d) <==> d.sector in CyclicalSectors
  {
    TagsShape(d);
  }

  /** The growth tally of `classify_stock`. */
  method GrowthTally(d: Record) returns (growthScore: nat)
    ensures growthScore == GrowthPoints(d)
  {
    var pe, revenueGrowth, earningsGrowth := d.pe, d.revenueGrowth, d.earningsGrowth;
    growthScore := 0;
    if Truthy(revenueGrowth) && revenueGrowth.value > 0.15 { growthScore := growthScore + 1; }
    if Truthy(earningsGrowth) && earningsGrowth.value > 0.15 { growthScore := growthScore + 1; }
    if Truthy(pe) && pe.value < 60.0 { growthScore := growthScore + 1; }
  }

  /** The value tally of `classify_stock`. */
  method ValueTally(d: Record) returns (valueScore: nat)
    ensures valueScore == ValuePoints(d)
  {
    var pe, pb, profitMargin := d.pe, d.pb, d.profitMargin;
    valueScore := 0;
    if Truthy(pe) && pe.value < 15.0 { valueScore := valueScore + 2; }
    else if Truthy(pe) && pe.value < 20.0 { valueScore := valueScore + 1; }
    if Truthy(pb) && pb.value < 1.5 { valueScore := valueScore + 2; }
    else if Truthy(pb) && pb.value < 3.0 { valueScore := valueScore + 1; }
    if Truthy(profitMargin) && profitMargin.value > 0.05 { valueScore := valueScore + 1; }
  }

  /** The moat tally of `classify_stock`. */
  method MoatTally(d: Record) returns (moatScore: nat)
    ensures moatScore == MoatPoints(d)
  {
    var roe, grossMargin, profitMargin := d.roe, d.grossMargin, d.profitMargin;
    moatScore := 0;
    if Truthy(roe) && roe.value > 0.20 { moatScore := moatScore + 2; }
    else if Truthy(roe) && roe.value > 0.15 { moatScore := moatScore + 1; }
    if Truthy(grossMargin) && grossMargin.value > 0.50 { moatScore := moatScore + 2; }
    else if Truthy(grossMargin) && grossMargin.value > 0.35 { moatScore := moatScore + 1; }
    if Truthy(profitMargin) && profitMargin.value > 0.15 { moatScore := moatScore + 1; }
  }

  /** The danger tally of `classify_stock`. */
  method DangerTally(d: Record) returns (dangerScore: nat)
    ensures dangerScore == DangerPoints(d)
  {
    var debtEquity, fcf, revenueGrowth, profitMargin := d.debtEquity, d.fcf, d.revenueGrowth, d.profitMargin;
    dangerScore := 0;
    if Truthy(debtEquity) && debtEquity.value > 200.0 { dangerScore := dangerScore + 2; }
    if Truthy(fcf) && fcf.value < 0.0 { dangerScore := dangerScore + 2; }
    if Truthy(revenueGrowth) && revenueGrowth.value < -0.05 { dangerScore := dangerScore + 1; }
    if Truthy(profitMargin) && profitMargin.value < 0.0 { dangerScore := dangerScore + 2; }
  }

  /**
   * `classify_stock`: tallies the growth, value, moat and danger points, appends each
   * earned style tag in the fixed order and falls back to `Balanced`.
   */
  method ClassifyStock(d: Record) returns (types: seq<Tag>)
    ensures types == Tags(d)
  {
    types := [];
    var dividendYield, payoutRatio, beta, fcf := d.dividendYield, d.payoutRatio, d.beta, d.fcf;

    var growthScore := GrowthTally(d);
    if growthScore >= 2 {
      types := types + [Growth];
    }
    assert types == EarnedAmong(d, 1);

    var valueScore := ValueTally(d);
    if valueScore >= 3 {
      types := types + [Value];
    }
    assert types == EarnedAmong(d, 2);

    var moatScore := MoatTally(d);
    if moatScore >= 3 {
      types := types + [Moat];
    }
    assert types == EarnedAmong(d, 3);

    if Truthy(dividendYield) && dividendYield.value > 0.02 {
      if (payoutRatio.None? || payoutRatio.value < 0.8) && (fcf.Some? && fcf.value > 0.0) {
        types := types + [Dividend];
      }
    }
    assert types == EarnedAmong(d, 4);

    if d.sector in CyclicalSectors {
      types := types + [Cyclical];
    }
    assert types == EarnedAmong(d, 5);

    if d.sector in DefensiveSectors {
      if beta.None? || beta.value < 0.8 {
        types := types + [Defensive];
      }
    }
    assert types == EarnedAmong(d, 6);

    var dangerScore := DangerTally(d);
    if dangerScore >= 3 {
      types := types + [Distressed];
    }
    assert types == EarnedAmong(d, 7);

    if types == [] {
      types := types + [Balanced];
    }
  }
}
