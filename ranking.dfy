/**
 * The ranking step shared by check_sanity and evaluate_precision_recall:
 * sort one row of the similarity table by value (descending for cosine
 * similarity, ascending for the distances), then take the positional
 * slice [1:n + 1] of the sorted row, which drops sorted position 0.
 */
module Ranking {

  /** One entry of a row of the similarity table: the column's title id and its value. */
  datatype Cell = Cell(id: int, score: real)

  /** a may stand before b in a row sorted ascending (or descending). */
  predicate InOrder(a: Cell, b: Cell, ascending: bool)
  {
    if ascending then a.score <= b.score else a.score >= b.score
  }

  predicate Ordered(s: seq<Cell>, ascending: bool)
  {
    forall i, j :: 0 <= i < j < |s| ==> InOrder(s[i], s[j], ascending)
  }

  /** A sorted row stays sorted under a new first entry that may precede each of its entries. */
  lemma ConsOrdered(x: Cell, t: seq<Cell>, ascending: bool)
    requires Ordered(t, ascending)
    requires forall k :: 0 <= k < |t| ==> InOrder(x, t[k], ascending)
    ensures Ordered([x] + t, ascending)
  {
    var r := [x] + t;
    forall i, j | 0 <= i < j < |r| ensures InOrder(r[i], r[j], ascending) {
      if i > 0 {
        assert r[i] == t[i - 1] && r[j] == t[j - 1];
      } else {
        assert r[j] == t[j - 1];
      }
    }
  }

  /** Insert c into a sorted row, before the first entry it may precede. */
  function Insert(c: Cell, s: seq<Cell>, ascending: bool): (r: seq<Cell>)
    requires Ordered(s, ascending)
    ensures |r| == |s| + 1
    ensures multiset(r) == multiset(s) + multiset{c}
    ensures Ordered(r, ascending)
  {
    if s == [] then [c]
    else if InOrder(c, s[0], ascending) then
      assert forall k :: 0 <= k < |s| ==> InOrder(c, s[k], ascending);
      ConsOrdered(c, s, ascending);
      [c] + s
    else
      var rest := Insert(c, s[1..], ascending);
      assert s == [s[0]] + s[1..];
      forall k | 0 <= k < |rest| ensures InOrder(s[0], rest[k], ascending) {
        var x := rest[k];
        assert x in multiset(rest);
        if x != c {
          assert x in s[1..];
          var j :| 0 <= j < |s[1..]| && s[1..][j] == x;
          assert s[j + 1] == x;
        }
      }
      ConsOrdered(s[0], rest, ascending);
      [s[0]] + rest
  }

  /**
   * Series.sort_values on a row: the entries in order of value, every entry kept.  The order among
   * equal values is this model's own (insertion order); nothing proved here depends on it.
   */
  function Sort(s: seq<Cell>, ascending: bool): (r: seq<Cell>)
    ensures |r| == |s|
    ensures Ordered(r, ascending)
    ensures multiset(r) == multiset(s)
  {
    if s == [] then []
    else
      assert s == [s[0]] + s[1..];
      Insert(s[0], Sort(s[1..], ascending), ascending)
  }

  /** Python's normalisation of a slice bound against a length n. */
  function Clamp(k: int, n: nat): (c: nat)
    ensures c <= n
    ensures 0 <= k <= n ==> c == k
    ensures k < 0 && 0 <= k + n ==> c == k + n
    ensures k + n < 0 ==> c == 0
    ensures k > n ==> c == n
  {
    if k < 0 then (if k + n < 0 then 0 else k + n) else if k > n then n else k
  }

  /** The Python slice s[start:stop] (step 1), with negative and out-of-range bounds. */
  function PySlice<T>(s: seq<T>, start: int, stop: int): (r: seq<T>)
    ensures |r| <= |s|
    ensures 0 <= start <= stop <= |s| ==> r == s[start..stop]
    ensures forall i :: 0 <= i < |r| ==> Clamp(start, |s|) + i < |s| && r[i] == s[Clamp(start, |s|) + i]
  {
    var lo, hi := Clamp(start, |s|), Clamp(stop, |s|);
    if lo < hi then s[lo..hi] else []
  }

  /** The ranking query: sorted positions 1 to n of a row, position 0 dropped. */
  function Rank(row: seq<Cell>, ascending: bool, n: int): seq<Cell>
  {
    PySlice(Sort(row, ascending), 1, n + 1)
  }

  /**
   * For n >= 0 the query returns min(n, |row| - 1) entries (none from a row of one), entry k being
   * sorted position k + 1; so never more than n, and never the entry at sorted position 0.
   */
  lemma RankPositions(row: seq<Cell>, ascending: bool, n: int)
    requires n >= 0
    ensures var r := Rank(row, ascending, n);
      && |r| == (if |row| <= 1 then 0 else if n < |row| - 1 then n else |row| - 1)
      && forall k :: 0 <= k < |r| ==> r[k] == Sort(row, ascending)[k + 1]
  {
  }

  /** Whatever n is, the query is a run of the sorted row starting right after position 0. */
  lemma RankSlice(row: seq<Cell>, ascending: bool, n: int)
    ensures row != [] ==>
      1 + |Rank(row, ascending, n)| <= |row| && Rank(row, ascending, n) == Sort(row, ascending)[1..1 + |Rank(row, ascending, n)|]
    ensures row == [] ==> Rank(row, ascending, n) == []
  {
  }

  lemma SliceMultiset<T>(s: seq<T>, lo: nat, hi: nat)
    requires lo <= hi <= |s|
    ensures multiset(s[lo..hi]) <= multiset(s)
  {
    assert s == s[..lo] + s[lo..hi] + s[hi..];
  }

  /** The query's entries come from the row, and come in the row's sorted order. */
  lemma RankFromRow(row: seq<Cell>, ascending: bool, n: int)
    ensures multiset(Rank(row, ascending, n)) <= multiset(row)
    ensures forall c :: c in Rank(row, ascending, n) ==> c in row
    ensures Ordered(Rank(row, ascending, n), ascending)
  {
    var s := Sort(row, ascending);
    var lo, hi := Clamp(1, |s|), Clamp(n + 1, |s|);
    if lo < hi {
      SliceMultiset(s, lo, hi);
    }
    var r := Rank(row, ascending, n);
    forall c | c in r ensures c in row {
      assert c in multiset(r);
    }
  }
}
