/**
 * The four sub-scores, their sum and the grade of a total
 * (fundamental_screener_v2.py, lines 127-201). Unlike the classifier, the scorer tests
 * presence with `is not None`, so a metric equal to zero is scored like any other value.
 */
module Scoring {
  import opened Wrappers
  import opened Fundamentals
  import opened Brackets
  import opened Classifier

  // The `if / elif` chains of the scorer, as tables of bands.
  const PeBands: seq<Band> := [Band(12.0, 20), Band(20.0, 15), Band(30.0, 8), Band(40.0, 3)]
  const PbBands: seq<Band> := [Band(1.5, 10), Band(3.0, 7), Band(5.0, 3)]
  const RoeBands: seq<Band> := [Band(0.25, 15), Band(0.15, 12), Band(0.10, 7), Band(0.05, 3)]
  const GrossMarginBands: seq<Band> := [Band(0.50, 10), Band(0.30, 7), Band(0.15, 3)]
  const RevenueGrowthBands: seq<Band> := [Band(0.15, 5), Band(0.05, 3), Band(0.0, 1)]
  const FcfYieldBands: seq<Band> := [Band(0.06, 10), Band(0.03, 6), Band(0.01, 2)]
  const SafetyBands: seq<Band> := [Band(0.3, 15), Band(0.7, 10), Band(1.2, 5), Band(2.0, 2)]

  // Every table is ordered the way its chain tests it, best band first.
  lemma PeBandsOrdered() ensures BelowTable(PeBands) {}
  lemma PbBandsOrdered() ensures BelowTable(PbBands) {}
  lemma SafetyBandsOrdered() ensures BelowTable(SafetyBands) {}
  lemma RoeBandsOrdered() ensures AboveTable(RoeBands) {}
  lemma GrossMarginBandsOrdered() ensures AboveTable(GrossMarginBands) {}
  lemma RevenueGrowthBandsOrdered() ensures AboveTable(RevenueGrowthBands) {}
  lemma FcfYieldBandsOrdered() ensures AboveTable(FcfYieldBands) {}

  /** The P/E term of `score_valuation`: nothing when P/E is missing. */
  function PeTerm(pe: Option<real>): (r: nat)
    ensures r <= 20
  {
    match pe
    case None => 0
    case Some(x) =>
      BelowFour(PeBands[0], PeBands[1], PeBands[2], PeBands[3], x);
      Below(PeBands, x)
  }

  /** The P/B term of `score_valuation`: nothing when P/B is missing. */
  function PbTerm(pb: Option<real>): (r: nat)
    ensures r <= 10
  {
    match pb
    case None => 0
    case Some(x) =>
      BelowThree(PbBands[0], PbBands[1], PbBands[2], x);
      Below(PbBands, x)
  }

  /** The ROE term of `score_profitability`: nothing when ROE is missing. */
  function RoeTerm(roe: Option<real>): (r: nat)
    ensures r <= 15
  {
    match roe
    case None => 0
    case Some(x) =>
      AboveFour(RoeBands[0], RoeBands[1], RoeBands[2], RoeBands[3], x);
      Above(RoeBands, x)
  }

  /** The gross-margin term of `score_profitability`: nothing when the margin is missing. */
  function GrossMarginTerm(grossMargin: Option<real>): (r: nat)
    ensures r <= 10
  {
    match grossMargin
    case None => 0
    case Some(x) =>
      AboveThree(GrossMarginBands[0], GrossMarginBands[1], GrossMarginBands[2], x);
      Above(GrossMarginBands, x)
  }

  /** The revenue-growth term of `score_profitability`: nothing when growth is missing. */
  function RevenueGrowthTerm(revenueGrowth: Option<real>): (r: nat)
    ensures r <= 5
  {
    match revenueGrowth
    case None => 0
    case Some(x) =>
      AboveThree(RevenueGrowthBands[0], RevenueGrowthBands[1], RevenueGrowthBands[2], x);
      Above(RevenueGrowthBands, x)
  }

  /** Valuation score: a P/E term plus a P/B term, at most 30. */
  function Valuation(pe: Option<real>, pb: Option<real>): (r: nat)
    ensures r <= 30
  {
    PeTerm(pe) + PbTerm(pb)
  }

  /** Profitability score: ROE, gross-margin and revenue-growth terms, at most 30. */
  function Profitability(roe: Option<real>, grossMargin: Option<real>, revenueGrowth: Option<real>): (r: nat)
    ensures r <= 30
  {
    RoeTerm(roe) + GrossMarginTerm(grossMargin) + RevenueGrowthTerm(revenueGrowth)
  }

  /** Cash-flow score: nothing without usable data or without positive free cash flow,
      otherwise a base of 15 plus a bonus on the free-cash-flow yield. */
  function Cashflow(fcf: Option<real>, marketCap: Option<real>): (r: nat)
    ensures r == 0 || 15 <= r <= 25
  {
    if fcf.None? || marketCap.None? || marketCap.value == 0.0 then 0
    else if fcf.value > 0.0 then
      AboveThree(FcfYieldBands[0], FcfYieldBands[1], FcfYieldBands[2], fcf.value / marketCap.value);
      15 + Above(FcfYieldBands, fcf.value / marketCap.value)
    else 0
  }

  /** `score_safety`: the neutral 7 without leverage data, else the debt/equity ratio
      (reported in percent) against the safety table. */
  function ScoreSafety(debtEquity: Option<real>): (r: nat)
    ensures r in {0, 2, 5, 7, 10, 15}
    ensures debtEquity.None? ==> r == 7
    ensures debtEquity.Some? ==> r == Below(SafetyBands, debtEquity.value / 100.0)
  {
    if debtEquity.None? then 7
    else
      var de := debtEquity.value / 100.0;
      BelowFour(SafetyBands[0], SafetyBands[1], SafetyBands[2], SafetyBands[3], de);
      if de < 0.3 then 15
      else if de < 0.7 then 10
      else if de < 1.2 then 5
      else if de < 2.0 then 2
      else 0
  }

  /** `score_valuation` */
  method ScoreValuation(pe: Option<real>, pb: Option<real>) returns (score: int)
    ensures score == Valuation(pe, pb)
  {
    score := 0;
    if pe.Some? {
      var v := pe.value;
      BelowFour(PeBands[0], PeBands[1], PeBands[2], PeBands[3], v);
      if v < 12.0 { score := score + 20; }
      else if v < 20.0 { score := score + 15; }
      else if v < 30.0 { score := score + 8; }
      else if v < 40.0 { score := score + 3; }
    }
    if pb.Some? {
      var v := pb.value;
      BelowThree(PbBands[0], PbBands[1], PbBands[2], v);
      if v < 1.5 { score := score + 10; }
      else if v < 3.0 { score := score + 7; }
      else if v < 5.0 { score := score + 3; }
    }
  }

  /** `score_profitability` */
  method ScoreProfitability(roe: Option<real>, grossMargin: Option<real>, revenueGrowth: Option<real>)
    returns (score: int)
    ensures score == Profitability(roe, grossMargin, revenueGrowth)
  {
    score := 0;
    if roe.Some? {
      var v := roe.value;
      AboveFour(RoeBands[0], RoeBands[1], RoeBands[2], RoeBands[3], v);
      if v > 0.25 { score := score + 15; }
      else if v > 0.15 { score := score + 12; }
      else if v > 0.10 { score := score + 7; }
      else if v > 0.05 { score := score + 3; }
    }
    if grossMargin.Some? {
      var v := grossMargin.value;
      AboveThree(GrossMarginBands[0], GrossMarginBands[1], GrossMarginBands[2], v);
      if v > 0.50 { score := score + 10; }
      else if v > 0.30 { score := score + 7; }
      else if v > 0.15 { score := score + 3; }
    }
    if revenueGrowth.Some? {
      var v := revenueGrowth.value;
      AboveThree(RevenueGrowthBands[0], RevenueGrowthBands[1], RevenueGrowthBands[2], v);
      if v > 0.15 { score := score + 5; }
      else if v > 0.05 { score := score + 3; }
      else if v > 0.0 { score := score + 1; }
    }
  }

  /** `score_cashflow` */
  method ScoreCashflow(fcf: Option<real>, marketCap: Option<real>) returns (score: int)
    ensures score == Cashflow(fcf, marketCap)
  {
    if fcf.None? || marketCap.None? || marketCap.value == 0.0 {
      return 0;
    }
    score := 0;
    if fcf.value > 0.0 {
      score := score + 15;
      var fcfYield := fcf.value / marketCap.value;
      AboveThree(FcfYieldBands[0], FcfYieldBands[1], FcfYieldBands[2], fcfYield);
      if fcfYield > 0.06 { score := score + 10; }
      else if fcfYield > 0.03 { score := score + 6; }
      else if fcfYield > 0.01 { score := score + 2; }
    }
  }

  // Monotonicity over present values.

  /** A higher P/E never raises the valuation score. */
  lemma {:induction false} ValuationAntitoneInPe(x: real, y: real, pb: Option<real>)
    requires x <= y
    ensures Valuation(Some(y), pb) <= Valuation(Some(x), pb)
  {
    PeBandsOrdered();
    BelowAntitone(PeBands, x, y);
  }

  /** A higher P/B never raises the valuation score. */
  lemma {:induction false} ValuationAntitoneInPb(pe: Option<real>, x: real, y: real)
    requires x <= y
    ensures Valuation(pe, Some(y)) <= Valuation(pe, Some(x))
  {
    PbBandsOrdered();
    BelowAntitone(PbBands, x, y);
  }

  /** A higher ROE, gross margin or revenue growth never lowers the profitability score. */
  lemma {:induction false} ProfitabilityMonotone(roe: Option<real>, grossMargin: Option<real>,
                                                 revenueGrowth: Option<real>, x: real, y: real)
    requires x <= y
    ensures Profitability(Some(x), grossMargin, revenueGrowth) <= Profitability(Some(y), grossMargin, revenueGrowth)
    ensures Profitability(roe, Some(x), revenueGrowth) <= Profitability(roe, Some(y), revenueGrowth)
    ensures Profitability(roe, grossMargin, Some(x)) <= Profitability(roe, grossMargin, Some(y))
  {
    RoeBandsOrdered();
    GrossMarginBandsOrdered();
    RevenueGrowthBandsOrdered();
    AboveMonotone(RoeBands, x, y);
    AboveMonotone(GrossMarginBands, x, y);
    AboveMonotone(RevenueGrowthBands, x, y);
  }

  /** More leverage never raises the safety score. */
  lemma {:induction false} SafetyAntitone(x: real, y: real)
    requires x <= y
    ensures ScoreSafety(Some(y)) <= ScoreSafety(Some(x))
  {
    SafetyBandsOrdered();
    BelowAntitone(SafetyBands, x / 100.0, y / 100.0);
  }

  /** For a fixed market capitalisation, more free cash flow never lowers the cash-flow score. */
  lemma {:induction false} CashflowMonotoneInFcf(x: real, y: real, marketCap: Option<real>)
    requires x <= y
    ensures Cashflow(Some(x), marketCap) <= Cashflow(Some(y), marketCap)
  {
    if marketCap.Some? && marketCap.value != 0.0 && x > 0.0 {
      var m := marketCap.value;
      if m > 0.0 {
        assert x / m <= y / m by {
          assert y / m - x / m == (y - x) / m;
        }
        FcfYieldBandsOrdered();
        AboveMonotone(FcfYieldBands, x / m, y / m);
      } else {
        assert x / m < 0.0 && y / m < 0.0;
        AboveThree(FcfYieldBands[0], FcfYieldBands[1], FcfYieldBands[2], x / m);
        AboveThree(FcfYieldBands[0], FcfYieldBands[1], FcfYieldBands[2], y / m);
      }
    }
  }

  // Missing data.

  /** A missing P/E or P/B adds nothing to the valuation score: the same as a value in the
      worst band, and never more than a present value. With all data missing the valuation
      and profitability scores are 0 and the safety score is the neutral 7. */
  lemma MissingDataDefaults(pe: Option<real>, pb: Option<real>, x: real)
    ensures Valuation(None, pb) == Valuation(Some(40.0), pb)
    ensures Valuation(pe, None) == Valuation(pe, Some(5.0))
    ensures Valuation(None, pb) <= Valuation(Some(x), pb) && Valuation(pe, None) <= Valuation(pe, Some(x))
    ensures Valuation(None, None) == 0 && Profitability(None, None, None) == 0
    ensures ScoreSafety(None) == 7
  {
    BelowFour(PeBands[0], PeBands[1], PeBands[2], PeBands[3], 40.0);
    BelowThree(PbBands[0], PbBands[1], PbBands[2], 5.0);
  }

  /** A missing ROE, gross margin or revenue growth adds nothing to the profitability score:
      the same as a value of 0, and never more than a present value. */
  lemma MissingProfitabilityDefaults(roe: Option<real>, grossMargin: Option<real>,
                                     revenueGrowth: Option<real>, x: real)
    ensures Profitability(None, grossMargin, revenueGrowth) == Profitability(Some(0.0), grossMargin, revenueGrowth)
    ensures Profitability(roe, None, revenueGrowth) == Profitability(roe, Some(0.0), revenueGrowth)
    ensures Profitability(roe, grossMargin, None) == Profitability(roe, grossMargin, Some(0.0))
    ensures Profitability(None, grossMargin, revenueGrowth) <= Profitability(Some(x), grossMargin, revenueGrowth)
    ensures Profitability(roe, None, revenueGrowth) <= Profitability(roe, Some(x), revenueGrowth)
    ensures Profitability(roe, grossMargin, None) <= Profitability(roe, grossMargin, Some(x))
  {
    AboveFour(RoeBands[0], RoeBands[1], RoeBands[2], RoeBands[3], 0.0);
    AboveThree(GrossMarginBands[0], GrossMarginBands[1], GrossMarginBands[2], 0.0);
    AboveThree(RevenueGrowthBands[0], RevenueGrowthBands[1], RevenueGrowthBands[2], 0.0);
  }

  /** The cash-flow score is zero exactly when free cash flow or market capitalisation is
      missing, the capitalisation is zero, or free cash flow is not positive. */
  lemma CashflowZeroIff(fcf: Option<real>, marketCap: Option<real>)
    ensures Cashflow(fcf, marketCap) == 0 <==>
      fcf.None? || marketCap.None? || marketCap.value == 0.0 || fcf.value <= 0.0
  {
  }

  /** The scorer tests presence, not truthiness: a P/E of exactly 0 is the cheapest band
      and earns 20 points, although the classifier gives it no growth or value points. */
  lemma ZeroPeScoredNotClassified(d: Record)
    requires d.pe == Some(0.0)
    ensures Valuation(d.pe, d.pb) == Valuation(None, d.pb) + 20
    ensures GrowthPoints(d) == GrowthPoints(d.(pe := None))
    ensures ValuePoints(d) == ValuePoints(d.(pe := None))
  {
    BelowFour(PeBands[0], PeBands[1], PeBands[2], PeBands[3], 0.0);
  }

  /** A ticker whose fetch failed, or whose cash-flow statement lacks either row, has no free
      cash flow: it scores nothing for cash flow and is not tagged a dividend stock. */
  lemma MissingCashFlowRow(ticker: string, provider: Provider)
    requires || provider(ticker).None?
             || provider(ticker).value.operatingCashFlow.None?
             || provider(ticker).value.capitalExpenditure.None?
    ensures var s := ScoreRecord(FetchFundamentals(ticker, provider));
      s.data.fcf.None? && s.cashflow == 0 && Dividend !in s.types
  {
    TagsShape(FetchFundamentals(ticker, provider));
  }

  /** Debt/equity is in percent: 30 is a ratio of exactly 0.3, which misses the top band. */
  lemma SafetyAtTopBoundary()
    ensures ScoreSafety(Some(29.0)) == 15
    ensures ScoreSafety(Some(30.0)) == 10
  {
  }

  // The composite score.

  /** A ticker's record together with its tags and scores. */
  datatype ScoredRecord = ScoredRecord(
    data: Record,
    types: seq<Tag>,
    valuation: nat,
    profitability: nat,
    cashflow: nat,
    safety: nat,
    total: nat)

  /** The scored record of `d`: the four sub-scores, their sum and the classifier's tags. */
  function ScoreRecord(d: Record): (r: ScoredRecord)
    ensures r.data == d && r.types == Tags(d)
    ensures r.valuation == Valuation(d.pe, d.pb)
    ensures r.profitability == Profitability(d.roe, d.grossMargin, d.revenueGrowth)
    ensures r.cashflow == Cashflow(d.fcf, d.marketCap)
    ensures r.safety == ScoreSafety(d.debtEquity)
    ensures r.total == r.valuation + r.profitability + r.cashflow + r.safety
    ensures r.total <= 100
  {
    var v := Valuation(d.pe, d.pb);
    var p := Profitability(d.roe, d.grossMargin, d.revenueGrowth);
    var c := Cashflow(d.fcf, d.marketCap);
    var s := ScoreSafety(d.debtEquity);
    ScoredRecord(d, Tags(d), v, p, c, s, v + p + c + s)
  }

  /** `calculate_score` */
  method CalculateScore(d: Record) returns (scored: ScoredRecord)
    ensures scored == ScoreRecord(d)
  {
    var vScore := ScoreValuation(d.pe, d.pb);
    var pScore := ScoreProfitability(d.roe, d.grossMargin, d.revenueGrowth);
    var cfScore := ScoreCashflow(d.fcf, d.marketCap);
    var sScore := ScoreSafety(d.debtEquity);
    var total := vScore + pScore + cfScore + sScore;
    var types := ClassifyStock(d);
    scored := ScoredRecord(d, types, vScore, pScore, cfScore, sScore, total);
  }

  // Grades.

  /** The display grades, worst first. */
  datatype Grade = Avoid | Weak | Neutral | Watch | StronglyWatch

  function Level(g: Grade): nat {
    match g
    case Avoid => 0
    case Weak => 1
    case Neutral => 2
    case Watch => 3
    case StronglyWatch => 4
  }

  /** The lowest total that reaches a grade; `Avoid` has no lower bound. */
  function Cutoff(g: Grade): int
    requires g != Avoid
  {
    match g
    case Weak => 35
    case Neutral => 50
    case Watch => 65
    case StronglyWatch => 80
  }

  /** `grade`: a total reaches a grade exactly when it meets that grade's cut-off. */
  function ScoreGrade(score: int): (g: Grade)
    ensures forall h :: h != Avoid ==> (Level(h) <= Level(g) <==> Cutoff(h) <= score)
  {
    if score >= 80 then StronglyWatch
    else if score >= 65 then Watch
    else if score >= 50 then Neutral
    else if score >= 35 then Weak
    else Avoid
  }

  /** A higher total never earns a lower grade. */
  lemma GradeMonotone(a: int, b: int)
    requires a <= b
    ensures Level(ScoreGrade(a)) <= Level(ScoreGrade(b))
  {
  }

  // Whole records.

  /** A ticker whose fetch failed scores 0, 0, 0 and the neutral 7, is tagged `Balanced`
      alone and is graded `Avoid`. */
  lemma PlaceholderScore(ticker: string)
    ensures var s := ScoreRecord(Placeholder(ticker));
      && s.valuation == 0 && s.profitability == 0 && s.cashflow == 0 && s.safety == 7
      && s.total == 7 && s.types == [Balanced] && ScoreGrade(s.total) == Avoid
  {
    var d := Placeholder(ticker);
    TagsShape(d);
    assert "N/A" !in CyclicalSectors && "N/A" !in DefensiveSectors;
    assert forall t :: !Earns(d, t);
  }

  /** A profitable, cheap, low-leverage technology stock. */
  const StrongExample: Record :=
    Record("EX", "EX", "Technology", "N/A", None,
           Some(10.0), None, Some(1.0), Some(0.30), Some(0.60), Some(0.20),
           Some(20.0), Some(0.20), Some(0.20), Some(0.03), Some(0.5), Some(0.5),
           Some(500.0), Some(10000.0))

  /** The example earns the growth, value, moat and dividend tags and no other. */
  lemma StrongExampleTags()
    ensures Tags(StrongExample) == [Growth, Value, Moat, Dividend]
  {
    var d := StrongExample;
    assert GrowthPoints(d) == 3 && ValuePoints(d) == 5 && MoatPoints(d) == 5 && DangerPoints(d) == 0;
    assert "Technology" !in CyclicalSectors && "Technology" !in DefensiveSectors;
    assert EarnedAmong(d, 4) == [Growth, Value, Moat, Dividend];
    assert EarnedAmong(d, 5) == EarnedAmong(d, 4);
    assert EarnedAmong(d, 6) == EarnedAmong(d, 5);
  }

  /** The example's sub-scores: 20 + 10, 15 + 10 + 5, 15 + 6 (its cash-flow yield of 0.05
      earns the 6-point bonus) and 15. */
  lemma StrongExampleSubScores()
    ensures var d := StrongExample;
      && Valuation(d.pe, d.pb) == 30
      && Profitability(d.roe, d.grossMargin, d.revenueGrowth) == 30
      && Cashflow(d.fcf, d.marketCap) == 21
      && ScoreSafety(d.debtEquity) == 15
  {
    BelowFour(PeBands[0], PeBands[1], PeBands[2], PeBands[3], 10.0);
    BelowThree(PbBands[0], PbBands[1], PbBands[2], 1.0);
    AboveFour(RoeBands[0], RoeBands[1], RoeBands[2], RoeBands[3], 0.30);
    AboveThree(GrossMarginBands[0], GrossMarginBands[1], GrossMarginBands[2], 0.60);
    AboveThree(RevenueGrowthBands[0], RevenueGrowthBands[1], RevenueGrowthBands[2], 0.20);
    AboveThree(FcfYieldBands[0], FcfYieldBands[1], FcfYieldBands[2], 500.0 / 10000.0);
  }

  /** The example totals 96 and gets the top grade. */
  lemma StrongExampleScore()
    ensures var s := ScoreRecord(StrongExample);
      && s.types == [Growth, Value, Moat, Dividend]
      && s.total == 96 && ScoreGrade(s.total) == StronglyWatch
  {
    StrongExampleTags();
    StrongExampleSubScores();
  }
}
