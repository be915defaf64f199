/**
 * `run_screener` (fundamental_screener_v2.py, lines 203-215): fetch and score every ticker
 * in turn, then rank the rows by total score, highest first.
 */
module Screener {
  import opened Wrappers
  import opened Fundamentals
  import opened Classifier
  import opened Scoring

  /** Why a run produced no table. */
  datatype ScreenError =
    // Sorting an empty table fails: it has no total-score column to sort by.
    | NoTotalScoreColumn

  /** The scored row of one ticker. */
  function ScoreTicker(ticker: string, provider: Provider): (r: ScoredRecord)
    ensures r.data.ticker == ticker
    ensures provider(ticker).None? ==>
      r.total == 7 && r.types == [Balanced] && ScoreGrade(r.total) == Avoid
  {
    PlaceholderScore(ticker);
    ScoreRecord(FetchFundamentals(ticker, provider))
  }

  /** The rows in fetch order, one per ticker. */
  function Collected(tickers: seq<string>, provider: Provider): (rows: seq<ScoredRecord>)
    ensures |rows| == |tickers|
    ensures forall k :: 0 <= k < |tickers| ==> rows[k] == ScoreTicker(tickers[k], provider)
  {
    seq(|tickers|, k requires 0 <= k < |tickers| => ScoreTicker(tickers[k], provider))
  }

  /** Rows ordered by total score, highest first. */
  ghost predicate Ranked(rows: seq<ScoredRecord>) {
    forall i, j :: 0 <= i < j < |rows| ==> rows[j].total <= rows[i].total
  }

  /** The tickers of the rows, in row order. */
  function TickersOf(rows: seq<ScoredRecord>): (r: seq<string>)
    ensures |r| == |rows|
    ensures forall k :: 0 <= k < |rows| ==> r[k] == rows[k].data.ticker
  {
    if rows == [] then [] else [rows[0].data.ticker] + TickersOf(rows[1..])
  }

  /** `row` placed before the first row whose total does not exceed its own. */
  function Insert(row: ScoredRecord, rows: seq<ScoredRecord>): seq<ScoredRecord> {
    if rows == [] || rows[0].total <= row.total then [row] + rows
    else [rows[0]] + Insert(row, rows[1..])
  }

  /** The rows ranked by total score. The order of rows with equal totals is not specified
      by the screener; this chooses one. */
  function SortByScore(rows: seq<ScoredRecord>): seq<ScoredRecord> {
    if rows == [] then [] else Insert(rows[0], SortByScore(rows[1..]))
  }

  /** Inserting adds exactly the one row. */
  lemma {:induction false} InsertMultiset(row: ScoredRecord, rows: seq<ScoredRecord>)
    ensures multiset(Insert(row, rows)) == multiset(rows) + multiset{row}
  {
    if rows != [] && rows[0].total > row.total {
      InsertMultiset(row, rows[1..]);
      assert rows == [rows[0]] + rows[1..];
    }
  }

  /** Inserting adds exactly the one ticker. */
  lemma {:induction false} InsertTickers(row: ScoredRecord, rows: seq<ScoredRecord>)
    ensures multiset(TickersOf(Insert(row, rows))) == multiset(TickersOf(rows)) + multiset{row.data.ticker}
  {
    if rows != [] && rows[0].total > row.total {
      var rest := Insert(row, rows[1..]);
      InsertTickers(row, rows[1..]);
      assert TickersOf([rows[0]] + rest) == [rows[0].data.ticker] + TickersOf(rest);
      assert TickersOf(rows) == [rows[0].data.ticker] + TickersOf(rows[1..]);
    } else {
      assert TickersOf([row] + rows) == [row.data.ticker] + TickersOf(rows);
    }
  }

  /** Inserting into a ranked list keeps it ranked. */
  lemma {:induction false} InsertRanked(row: ScoredRecord, rows: seq<ScoredRecord>)
    requires Ranked(rows)
    ensures Ranked(Insert(row, rows))
  {
    if rows != [] && rows[0].total > row.total {
      var rest := Insert(row, rows[1..]);
      InsertRanked(row, rows[1..]);
      InsertMultiset(row, rows[1..]);
      var out := [rows[0]] + rest;
      forall i, j | 0 <= i < j < |out| ensures out[j].total <= out[i].total {
        if i == 0 {
          assert out[j] in multiset(rest);
          assert out[j] == row || out[j] in rows[1..];
        } else {
          assert out[i] == rest[i - 1] && out[j] == rest[j - 1];
        }
      }
    }
  }

  /** Sorting ranks the rows. */
  lemma {:induction false} SortByScoreRanked(rows: seq<ScoredRecord>)
    ensures Ranked(SortByScore(rows))
  {
    if rows != [] {
      SortByScoreRanked(rows[1..]);
      InsertRanked(rows[0], SortByScore(rows[1..]));
    }
  }

  /** Sorting only reorders the rows. */
  lemma {:induction false} SortByScorePermutes(rows: seq<ScoredRecord>)
    ensures multiset(SortByScore(rows)) == multiset(rows)
  {
    if rows != [] {
      var rest := SortByScore(rows[1..]);
      SortByScorePermutes(rows[1..]);
      InsertMultiset(rows[0], rest);
      assert rows == [rows[0]] + rows[1..];
    }
  }

  /** Sorting only reorders the tickers. */
  lemma {:induction false} SortByScoreKeepsTickers(rows: seq<ScoredRecord>)
    ensures multiset(TickersOf(SortByScore(rows))) == multiset(TickersOf(rows))
  {
    if rows != [] {
      var rest := SortByScore(rows[1..]);
      SortByScoreKeepsTickers(rows[1..]);
      InsertTickers(rows[0], rest);
      assert TickersOf(rows) == [rows[0].data.ticker] + TickersOf(rows[1..]);
    }
  }

  /** Every collected row belongs to the ticker it was fetched for. */
  lemma CollectedTickers(tickers: seq<string>, provider: Provider)
    ensures TickersOf(Collected(tickers, provider)) == tickers
  {
  }

  /**
   * `run_screener`: one scored row per ticker, duplicates included, ranked by total score
   * (the order among equal totals is left open). An empty ticker list fails.
   */
  method RunScreener(tickers: seq<string>, provider: Provider)
    returns (result: Result<seq<ScoredRecord>, ScreenError>)
    ensures result.Err? <==> |tickers| == 0
    ensures result.Ok? ==>
      && Ranked(result.value)
      && multiset(result.value) == multiset(Collected(tickers, provider))
      && multiset(TickersOf(result.value)) == multiset(tickers)
  {
    var results: seq<ScoredRecord> := [];
    var i := 0;
    while i < |tickers|
      invariant 0 <= i <= |tickers|
      invariant results == Collected(tickers[..i], provider)
    {
      var data := FetchFundamentals(tickers[i], provider);
      var scored := CalculateScore(data);
      results := results + [scored];
      i := i + 1;
      assert tickers[..i] == tickers[..i - 1] + [tickers[i - 1]];
    }
    assert tickers[..i] == tickers;
    if |results| == 0 {
      return Err(NoTotalScoreColumn);
    }
    SortByScoreRanked(results);
    SortByScorePermutes(results);
    SortByScoreKeepsTickers(results);
    CollectedTickers(tickers, provider);
    result := Ok(SortByScore(results));
  }
}
