/** The top-movers leaderboard: the list of (symbol, total change) records is
    sorted by total, descending for gainers and ascending for losers, and cut
    to its first five entries. */
module Movers {

  datatype Mover = Mover(stock: string, total: real)

  /** How many records each leaderboard keeps (DataFrame.head(5)). */
  const BoardSize: nat := 5

  /** a may stand before b in the ordering asked for. */
  predicate Before(a: Mover, b: Mover, descending: bool) {
    if descending then a.total >= b.total else a.total <= b.total
  }

  predicate SortedBy(s: seq<Mover>, descending: bool) {
    forall i, j :: 0 <= i < j < |s| ==> Before(s[i], s[j], descending)
  }

  function Min(a: nat, b: nat): nat {
    if a <= b then a else b
  }

  /** r is a valid leaderboard of size k drawn from s: as long as s allows,
      ordered, taken from s (with multiplicity), and no record left out ranks
      above a record kept. Ties may be broken either way. */
  predicate IsTop(r: seq<Mover>, s: seq<Mover>, k: nat, descending: bool) {
    && |r| == Min(k, |s|)
    && SortedBy(r, descending)
    && multiset(r) <= multiset(s)
    && forall x, y :: x in multiset(s) - multiset(r) && y in r ==> Before(y, x, descending)
  }

  /** Places m in front of the first record it may stand before. */
  function Insert(m: Mover, s: seq<Mover>, descending: bool): (r: seq<Mover>)
    ensures multiset(r) == multiset(s) + multiset{m}
  {
    if s == [] then [m]
    else if Before(m, s[0], descending) then [m] + s
    else
      assert s == [s[0]] + s[1..];
      [s[0]] + Insert(m, s[1..], descending)
  }

  lemma {:induction false} InsertSorted(m: Mover, s: seq<Mover>, descending: bool)
    requires SortedBy(s, descending)
    ensures SortedBy(Insert(m, s, descending), descending)
  {
    if s != [] && !Before(m, s[0], descending) {
      var rest := Insert(m, s[1..], descending);
      InsertSorted(m, s[1..], descending);
      forall x | x in rest
        ensures Before(s[0], x, descending)
      {
        assert x in multiset(rest);
        if x != m {
          assert x in multiset(s[1..]);
          var j :| 0 <= j < |s[1..]| && s[1..][j] == x;
          assert s[j + 1] == x;
        }
      }
      var r := [s[0]] + rest;
      forall i, j | 0 <= i < j < |r|
        ensures Before(r[i], r[j], descending)
      {
        if i == 0 {
          assert r[j] in rest;
        } else {
          assert r[i] == rest[i - 1] && r[j] == rest[j - 1];
        }
      }
    }
  }

  /** DataFrame.sort_values on the total: a sorted permutation of s. */
  function Sort(s: seq<Mover>, descending: bool): (r: seq<Mover>)
    ensures multiset(r) == multiset(s)
    ensures SortedBy(r, descending)
  {
    if s == [] then []
    else
      assert s == [s[0]] + s[1..];
      var rest := Sort(s[1..], descending);
      InsertSorted(s[0], rest, descending);
      Insert(s[0], rest, descending)
  }

  /** The first k records, or all of them when there are fewer. */
  function Take(s: seq<Mover>, k: nat): seq<Mover> {
    if |s| <= k then s else s[..k]
  }

  function Top(s: seq<Mover>, k: nat, descending: bool): seq<Mover> {
    Take(Sort(s, descending), k)
  }

  function Gainers(s: seq<Mover>): seq<Mover> {
    Top(s, BoardSize, true)
  }

  function Losers(s: seq<Mover>): seq<Mover> {
    Top(s, BoardSize, false)
  }

  /** Sorting and cutting yields a valid leaderboard. */
  lemma TopIsTop(s: seq<Mover>, k: nat, descending: bool)
    ensures IsTop(Top(s, k, descending), s, k, descending)
  {
    var t := Sort(s, descending);
    var n := Min(k, |t|);
    assert |t| == |s| by {
      assert |multiset(t)| == |multiset(s)|;
    }
    PrefixIsTop(t, n, descending);
    assert Top(s, k, descending) == t[..n];
  }

  /** The first n records of a sorted sequence are a valid board of size n. */
  lemma PrefixIsTop(t: seq<Mover>, n: nat, descending: bool)
    requires SortedBy(t, descending) && n <= |t|
    ensures IsTop(t[..n], t, n, descending)
  {
    var r, rest := t[..n], t[n..];
    assert t == r + rest;
    assert multiset(t) - multiset(r) == multiset(rest);
    forall x, y | x in multiset(t) - multiset(r) && y in r
      ensures Before(y, x, descending)
    {
      RanksBelowPrefix(t, n, descending, x, y);
    }
  }

  lemma RanksBelowPrefix(t: seq<Mover>, n: nat, descending: bool, x: Mover, y: Mover)
    requires SortedBy(t, descending) && n <= |t|
    requires x in t[n..] && y in t[..n]
    ensures Before(y, x, descending)
  {
    var j :| 0 <= j < |t[n..]| && t[n..][j] == x;
    var i :| 0 <= i < n && t[..n][i] == y;
    assert t[i] == y && t[n + j] == x;
  }

  /** The gainers board: at most five records, non-increasing totals, the
      records with the largest totals. */
  lemma GainersSpec(s: seq<Mover>)
    ensures IsTop(Gainers(s), s, BoardSize, true)
  {
    TopIsTop(s, BoardSize, true);
  }

  /** The losers board: at most five records, non-decreasing totals, the
      records with the smallest totals. */
  lemma LosersSpec(s: seq<Mover>)
    ensures IsTop(Losers(s), s, BoardSize, false)
  {
    TopIsTop(s, BoardSize, false);
  }

  /** With five records or fewer both boards hold every record, so they are
      the same records, in opposite orders up to ties. */
  lemma SmallBoardsHoldEverything(s: seq<Mover>)
    requires |s| <= BoardSize
    ensures multiset(Gainers(s)) == multiset(s) == multiset(Losers(s))
  {
  }
}
