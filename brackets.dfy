/**
 * Scoring tables. Every sub-score of the screener is a chain of `if / elif` tests of one
 * value against a list of thresholds, awarding the points of the first test that passes
 * and nothing when none does. A table of bands states such a chain as data, so that its
 * bounds and its monotonicity are proved once for every table.
 */
module Brackets {
  /** One test of a chain: `points` are awarded when the value passes `threshold`. */
  datatype Band = Band(threshold: real, points: nat)

  /** Points of the first band whose threshold `x` is strictly below; 0 if there is none. */
  function Below(bands: seq<Band>, x: real): (r: nat)
    ensures (forall i :: 0 <= i < |bands| ==> bands[i].threshold <= x) ==> r == 0
    ensures r == 0 || exists i :: 0 <= i < |bands| && r == bands[i].points && x < bands[i].threshold
  {
    if |bands| == 0 then 0
    else if x < bands[0].threshold then bands[0].points
    else
      var r := Below(bands[1..], x);
      assert r != 0 ==> exists i :: 1 <= i < |bands| && r == bands[i].points && x < bands[i].threshold by {
        if r != 0 {
          var i :| 0 <= i < |bands[1..]| && r == bands[1..][i].points && x < bands[1..][i].threshold;
          assert bands[i + 1] == bands[1..][i];
        }
      }
      r
  }

  /** Points of the first band whose threshold `x` is strictly above; 0 if there is none. */
  function Above(bands: seq<Band>, x: real): (r: nat)
    ensures (forall i :: 0 <= i < |bands| ==> x <= bands[i].threshold) ==> r == 0
    ensures r == 0 || exists i :: 0 <= i < |bands| && r == bands[i].points && bands[i].threshold < x
  {
    if |bands| == 0 then 0
    else if x > bands[0].threshold then bands[0].points
    else
      var r := Above(bands[1..], x);
      assert r != 0 ==> exists i :: 1 <= i < |bands| && r == bands[i].points && bands[i].threshold < x by {
        if r != 0 {
          var i :| 0 <= i < |bands[1..]| && r == bands[1..][i].points && bands[1..][i].threshold < x;
          assert bands[i + 1] == bands[1..][i];
        }
      }
      r
  }

  /** Points never increase along the table. */
  ghost predicate FallingPoints(bands: seq<Band>) {
    forall i, j :: 0 <= i < j < |bands| ==> bands[j].points <= bands[i].points
  }

  /** A "less than" chain: thresholds rise while points fall. */
  ghost predicate BelowTable(bands: seq<Band>) {
    && FallingPoints(bands)
    && forall i, j :: 0 <= i < j < |bands| ==> bands[i].threshold <= bands[j].threshold
  }

  /** A "greater than" chain: thresholds and points both fall. */
  ghost predicate AboveTable(bands: seq<Band>) {
    && FallingPoints(bands)
    && forall i, j :: 0 <= i < j < |bands| ==> bands[j].threshold <= bands[i].threshold
  }

  /** No lookup in a table with falling points awards more than its first band. */
  lemma {:induction false} LookupAtMostFirst(bands: seq<Band>, x: real)
    requires |bands| > 0 && FallingPoints(bands)
    ensures Below(bands, x) <= bands[0].points
    ensures Above(bands, x) <= bands[0].points
  {
    if |bands| > 1 {
      LookupAtMostFirst(bands[1..], x);
      assert bands[1..][0] == bands[1];
    }
  }

  /** A larger value never scores more in a "less than" chain. */
  lemma {:induction false} BelowAntitone(bands: seq<Band>, x: real, y: real)
    requires BelowTable(bands) && x <= y
    ensures Below(bands, y) <= Below(bands, x)
  {
    if |bands| > 0 {
      if x < bands[0].threshold {
        LookupAtMostFirst(bands, y);
      } else {
        BelowAntitone(bands[1..], x, y);
      }
    }
  }

  /** A larger value never scores less in a "greater than" chain. */
  lemma {:induction false} AboveMonotone(bands: seq<Band>, x: real, y: real)
    requires AboveTable(bands) && x <= y
    ensures Above(bands, x) <= Above(bands, y)
  {
    if |bands| > 0 {
      if y > bands[0].threshold {
        LookupAtMostFirst(bands, x);
      } else {
        AboveMonotone(bands[1..], x, y);
      }
    }
  }

  /** A three-band "less than" chain, written out as `if / elif`. */
  lemma BelowThree(a: Band, b: Band, c: Band, x: real)
    ensures Below([a, b, c], x) ==
      if x < a.threshold then a.points
      else if x < b.threshold then b.points
      else if x < c.threshold then c.points
      else 0
  {
    var t1, t2 := [b, c], [c];
    assert [a, b, c][1..] == t1 && t1[1..] == t2 && t2[1..] == [];
    assert Below(t2, x) == if x < c.threshold then c.points else 0;
  }

  /** A four-band "less than" chain, written out as `if / elif`. */
  lemma BelowFour(a: Band, b: Band, c: Band, e: Band, x: real)
    ensures Below([a, b, c, e], x) ==
      if x < a.threshold then a.points
      else if x < b.threshold then b.points
      else if x < c.threshold then c.points
      else if x < e.threshold then e.points
      else 0
  {
    assert [a, b, c, e][1..] == [b, c, e];
    BelowThree(b, c, e, x);
  }

  /** A three-band "greater than" chain, written out as `if / elif`. */
  lemma AboveThree(a: Band, b: Band, c: Band, x: real)
    ensures Above([a, b, c], x) ==
      if x > a.threshold then a.points
      else if x > b.threshold then b.points
      else if x > c.threshold then c.points
      else 0
  {
    var t1, t2 := [b, c], [c];
    assert [a, b, c][1..] == t1 && t1[1..] == t2 && t2[1..] == [];
    assert Above(t2, x) == if x > c.threshold then c.points else 0;
  }

  /** A four-band "greater than" chain, written out as `if / elif`. */
  lemma AboveFour(a: Band, b: Band, c: Band, e: Band, x: real)
    ensures Above([a, b, c, e], x) ==
      if x > a.threshold then a.points
      else if x > b.threshold then b.points
      else if x > c.threshold then c.points
      else if x > e.threshold then e.points
      else 0
  {
    assert [a, b, c, e][1..] == [b, c, e];
    AboveThree(b, c, e, x);
  }
}
