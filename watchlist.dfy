/**
 * The watchlist: the default tickers, or the comma-separated list of a configuration
 * string, each piece trimmed and upper-cased, blank pieces dropped
 * (fundamental_screener_v2.py, lines 6-12 and 19-23). The configuration string is a
 * parameter; reading it from the environment is not part of this model.
 */
module Watchlist {

  const DefaultWatchlist: seq<string> := [
    "AAPL", "GOOGL", "MSFT", "META", "AMZN",
    "UNH", "JNJ", "ABT",
    "KO", "PG", "WMT",
    "VZ", "T",
    "JPM", "BRK-B"
  ]

  /** The characters Python's `str.isspace` accepts, which `str.strip()` removes. */
  predicate IsSpace(c: char) {
    || ('\t' <= c <= '\r')                // tab, line feed, vertical tab, form feed, carriage return
    || ('\U{1C}' <= c <= '\U{1F}')        // file, group, record and unit separators
    || c == ' ' || c == '\U{85}' || c == '\U{A0}' || c == '\U{1680}'
    || ('\U{2000}' <= c <= '\U{200A}')
    || c == '\U{2028}' || c == '\U{2029}' || c == '\U{202F}' || c == '\U{205F}' || c == '\U{3000}'
  }

  /** The number of whitespace characters `s` starts with. */
  function LeadingSpaces(s: string): (n: nat)
    ensures n <= |s|
    ensures forall k :: 0 <= k < n ==> IsSpace(s[k])
    ensures n == |s| || !IsSpace(s[n])
  {
    if |s| > 0 && IsSpace(s[0]) then 1 + LeadingSpaces(s[1..]) else 0
  }

  /** The length of `s` without the whitespace it ends with. */
  function TrailingStart(s: string): (n: nat)
    ensures n <= |s|
    ensures forall k :: n <= k < |s| ==> IsSpace(s[k])
    ensures n == 0 || !IsSpace(s[n - 1])
  {
    if |s| > 0 && IsSpace(s[|s| - 1]) then TrailingStart(s[..|s| - 1]) else |s|
  }

  /** Whether `s` neither starts nor ends with whitespace. */
  predicate Trimmed(s: string) {
    s == [] || (!IsSpace(s[0]) && !IsSpace(s[|s| - 1]))
  }

  /** `str.strip()`: `s` without its leading and trailing whitespace. */
  function Trim(s: string): (r: string)
    ensures Trimmed(r)
    ensures Trimmed(s) ==> r == s
  {
    var t := s[LeadingSpaces(s)..];
    t[..TrailingStart(t)]
  }

  /** What `Trim` removes is whitespace, and only from the two ends. */
  lemma TrimSpec(s: string)
    ensures exists i, j ::
      && 0 <= i <= j <= |s| && Trim(s) == s[i..j]
      && (forall k :: 0 <= k < i ==> IsSpace(s[k]))
      && (forall k :: j <= k < |s| ==> IsSpace(s[k]))
  {
    var i := LeadingSpaces(s);
    var t := s[i..];
    var j := TrailingStart(t);
    assert Trim(s) == s[i..i + j];
    forall k | i + j <= k < |s| ensures IsSpace(s[k]) {
      assert s[k] == t[k - i];
    }
  }

  /** ASCII `str.upper()` of one character. */
  function UpperChar(c: char): char {
    if 'a' <= c <= 'z' then (c as int - 32) as char else c
  }

  /** `str.upper()`, restricted to the ASCII letters. */
  function Upper(s: string): (r: string)
    ensures |r| == |s|
    ensures forall k :: 0 <= k < |s| ==> r[k] == UpperChar(s[k])
  {
    seq(|s|, k requires 0 <= k < |s| => UpperChar(s[k]))
  }

  /** `str.split(",")`: the pieces between commas, empty ones included. */
  function Split(s: string): (r: seq<string>)
    ensures |r| >= 1
    ensures forall i :: 0 <= i < |r| ==> ',' !in r[i]
  {
    if |s| == 0 then [""]
    else
      var rest := Split(s[1..]);
      if s[0] == ',' then [""] + rest else [[s[0]] + rest[0]] + rest[1..]
  }

  /** `",".join(parts)` */
  function Join(parts: seq<string>): (r: string)
    requires |parts| >= 1
  {
    if |parts| == 1 then parts[0] else parts[0] + [','] + Join(parts[1..])
  }

  /** What the parser makes of the pieces: trimmed and upper-cased, blank ones dropped. */
  function Normalise(pieces: seq<string>): seq<string> {
    if |pieces| == 0 then []
    else
      var t := Trim(pieces[0]);
      (if t != [] then [Upper(t)] else []) + Normalise(pieces[1..])
  }

  /** A ticker as the parser emits it: non-empty, trimmed, without commas or lower-case letters. */
  predicate Normalised(t: string) {
    && t != [] && Trimmed(t) && ',' !in t
    && forall k :: 0 <= k < |t| ==> !('a' <= t[k] <= 'z')
  }

  predicate AllNormalised(tickers: seq<string>) {
    forall i :: 0 <= i < |tickers| ==> Normalised(tickers[i])
  }

  /** `get_watchlist`, given the configuration string. */
  function GetWatchlist(env: string): (r: seq<string>)
    ensures Trim(env) == [] ==> r == DefaultWatchlist
  {
    var e := Trim(env);
    if e != [] then Normalise(Split(e)) else DefaultWatchlist
  }

  /** Every ticker of a watchlist is well formed, whichever way it was obtained. */
  lemma WatchlistWellFormed(env: string)
    ensures AllNormalised(GetWatchlist(env))
    ensures Trim(env) != [] ==> |GetWatchlist(env)| <= |Split(Trim(env))|
  {
    var e := Trim(env);
    if e != [] {
      NormaliseSpec(Split(e));
    } else {
      DefaultWatchlistNormalised();
    }
  }

  /** The default tickers are in the parser's normal form. */
  lemma DefaultWatchlistNormalised()
    ensures AllNormalised(DefaultWatchlist)
  {
  }

  /** A non-blank piece without commas normalises to a well-formed ticker. */
  lemma NormalisePiece(p: string)
    requires ',' !in p && Trim(p) != []
    ensures Normalised(Upper(Trim(p)))
  {
    var t := Trim(p);
    var u := Upper(t);
    TrimSpec(p);
    assert ',' !in t;
    assert IsSpace(u[0]) == IsSpace(t[0]) && IsSpace(u[|u| - 1]) == IsSpace(t[|t| - 1]);
  }

  /** Every normalised piece is a well-formed ticker; none is added. */
  lemma {:induction false} NormaliseSpec(pieces: seq<string>)
    requires forall i :: 0 <= i < |pieces| ==> ',' !in pieces[i]
    ensures |Normalise(pieces)| <= |pieces|
    ensures AllNormalised(Normalise(pieces))
  {
    if |pieces| > 0 {
      NormaliseSpec(pieces[1..]);
      if Trim(pieces[0]) != [] {
        NormalisePiece(pieces[0]);
      }
    }
  }

  /** Splitting undoes joining when no part holds a comma. */
  lemma {:induction false} SplitJoin(parts: seq<string>)
    requires |parts| >= 1
    requires forall i :: 0 <= i < |parts| ==> ',' !in parts[i]
    ensures Split(Join(parts)) == parts
  {
    if |parts| == 1 {
      SplitNoComma(parts[0]);
    } else {
      SplitJoin(parts[1..]);
      SplitAfterPiece(parts[0], Join(parts[1..]));
    }
  }

  /** Joining undoes splitting. */
  lemma {:induction false} JoinSplit(s: string)
    ensures Join(Split(s)) == s
  {
    if |s| > 0 {
      JoinSplit(s[1..]);
      var rest := Split(s[1..]);
      if s[0] != ',' {
        if |rest| > 1 {
          assert Join(rest) == rest[0] + [','] + Join(rest[1..]);
        }
        assert s == [s[0]] + s[1..];
      } else {
        assert s == [','] + s[1..];
      }
    }
  }

  /** A string without commas is a single piece. */
  lemma {:induction false} SplitNoComma(p: string)
    requires ',' !in p
    ensures Split(p) == [p]
  {
    if |p| > 0 {
      SplitNoComma(p[1..]);
      assert [p[0]] + p[1..] == p;
    }
  }

  /** A comma-free first piece is split off whole. */
  lemma {:induction false} SplitAfterPiece(p: string, rest: string)
    requires ',' !in p
    ensures Split(p + [','] + rest) == [p] + Split(rest)
  {
    if |p| == 0 {
      assert ([] + [','] + rest)[1..] == rest;
    } else {
      SplitAfterPiece(p[1..], rest);
      assert (p + [','] + rest)[1..] == p[1..] + [','] + rest;
      assert [p[0]] + p[1..] == p;
    }
  }

  /** Normalised pieces pass through normalisation unchanged. */
  lemma {:induction false} NormaliseNormalised(pieces: seq<string>)
    requires AllNormalised(pieces)
    ensures Normalise(pieces) == pieces
  {
    if |pieces| > 0 {
      NormaliseNormalised(pieces[1..]);
      var p := pieces[0];
      assert Upper(p) == p;
    }
  }

  /** The joined string starts with the first part and ends with the last. */
  lemma {:induction false} JoinEnds(parts: seq<string>)
    requires |parts| >= 1
    ensures |parts[0]| <= |Join(parts)| && Join(parts)[..|parts[0]|] == parts[0]
    ensures var last := parts[|parts| - 1];
      |last| <= |Join(parts)| && Join(parts)[|Join(parts)| - |last|..] == last
  {
    if |parts| > 1 {
      JoinEnds(parts[1..]);
    }
  }

  /** Joining well-formed tickers gives a string without surrounding whitespace. */
  lemma JoinTrimmed(tickers: seq<string>)
    requires |tickers| >= 1
    requires AllNormalised(tickers)
    ensures Join(tickers) != [] && Trimmed(Join(tickers))
  {
    var env := Join(tickers);
    JoinEnds(tickers);
    var first, last := tickers[0], tickers[|tickers| - 1];
    assert Normalised(first) && Normalised(last);
    assert env[0] == first[0];
    assert env[|env| - 1] == last[|last| - 1];
  }

  /** A trimmed string that splits into well-formed tickers parses to exactly those. */
  lemma ParseSplitsInto(env: string, tickers: seq<string>)
    requires env != [] && Trimmed(env) && Split(env) == tickers
    requires AllNormalised(tickers)
    ensures GetWatchlist(env) == tickers
  {
    NormaliseNormalised(tickers);
  }

  /** Round trip: a list of well-formed tickers written out comma-separated is parsed back
      to the same list, in the same order. */
  lemma WatchlistRoundTrip(tickers: seq<string>)
    requires |tickers| >= 1
    requires AllNormalised(tickers)
    ensures GetWatchlist(Join(tickers)) == tickers
  {
    JoinTrimmed(tickers);
    SplitJoin(tickers);
    ParseSplitsInto(Join(tickers), tickers);
  }

  /** A string of commas only is non-blank, so it yields an empty watchlist rather than
      the default one. */
  lemma CommaOnlyGivesEmptyWatchlist()
    ensures GetWatchlist(",") == []
  {
    assert Trim(",") == ",";
    assert Split(",") == ["", ""];
  }

  /** Pieces are trimmed and upper-cased in order, and blank pieces are dropped. */
  lemma ParseExample()
    ensures GetWatchlist(" aapl, ,msft ") == ["AAPL", "MSFT"]
  {
    TrimExample();
    SplitExample();
    NormaliseExample();
  }

  /** The outer spaces of the example are stripped; the inner ones stay. */
  lemma TrimExample()
    ensures Trim(" aapl, ,msft ") == "aapl, ,msft"
  {
    var e := " aapl, ,msft ";
    assert LeadingSpaces(e[1..]) == 0;
    var t := e[1..];
    assert t[..|t| - 1] == "aapl, ,msft";
    assert TrailingStart(t[..|t| - 1]) == 11;
  }

  /** Splitting keeps the blank middle piece. */
  lemma SplitExample()
    ensures Split("aapl, ,msft") == ["aapl", " ", "msft"]
  {
    var a, b, c := "aapl", " ", "msft";
    assert ',' !in a && ',' !in b && ',' !in c;
    var tail := b + [','] + c;
    SplitNoComma(c);
    SplitAfterPiece(b, c);
    assert Split(tail) == [b, c];
    SplitAfterPiece(a, tail);
    assert "aapl, ,msft" == a + [','] + tail;
  }

  /** The blank piece is dropped and the others upper-cased. */
  lemma NormaliseExample()
    ensures Normalise(["aapl", " ", "msft"]) == ["AAPL", "MSFT"]
  {
    assert Trim("aapl") == "aapl" && Trim("msft") == "msft";
    assert LeadingSpaces(" ") == 1;
    assert Trim(" ") == [];
    assert Upper("aapl") == "AAPL" && Upper("msft") == "MSFT";
    var p := ["aapl", " ", "msft"];
    assert p[1..][1..] == ["msft"] && p[1..][1..][1..] == [];
  }
}
