/**
 * `Array.prototype.sort` with a numeric comparator `(a, b) => rank(a) - rank(b)`.
 * The sort is stable (section 23.1.3.30 of ECMA-262, 2023 edition), so it is
 * modelled as insertion sort: each element, taken in input order, goes after
 * every element already placed whose rank is not larger than its own.
 */
module Sorting {

  /** Ranks never decrease from left to right. */
  ghost predicate Ascending<T>(s: seq<T>, rank: T -> int) {
    forall i, j :: 0 <= i < j < |s| ==> rank(s[i]) <= rank(s[j])
  }

  /** Ranks strictly increase from left to right. */
  ghost predicate StrictlyAscending<T>(s: seq<T>, rank: T -> int) {
    forall i, j :: 0 <= i < j < |s| ==> rank(s[i]) < rank(s[j])
  }

  /** No two elements share a rank. */
  ghost predicate DistinctRanks<T>(s: seq<T>, rank: T -> int) {
    forall i, j :: 0 <= i < |s| && 0 <= j < |s| && i != j ==> rank(s[i]) != rank(s[j])
  }

  /** No value occurs twice. */
  ghost predicate NoDuplicates<T>(s: seq<T>) {
    forall i, j :: 0 <= i < j < |s| ==> s[i] != s[j]
  }

  /** The elements of `s` whose rank is `v`, in their order in `s`. */
  function WithRank<T>(s: seq<T>, rank: T -> int, v: int): seq<T> {
    if s == [] then []
    else (if rank(s[0]) == v then [s[0]] else []) + WithRank(s[1..], rank, v)
  }

  /** Places `x` before the first element of `s` whose rank is larger than its own. */
  function Insert<T>(s: seq<T>, x: T, rank: T -> int): (r: seq<T>)
    requires Ascending(s, rank)
    ensures multiset(r) == multiset(s) + multiset{x}
    ensures Ascending(r, rank)
  {
    if s == [] then [x]
    else if rank(x) < rank(s[0]) then [x] + s
    else
      var tail := Insert(s[1..], x, rank);
      assert s == [s[0]] + s[1..];
      KeepHead(s[0], s[1..], x, tail, rank);
      [s[0]] + tail
  }

  /**
   * An element no larger than anything in `rest` nor than `x` stays in front of
   * any ascending arrangement of `rest` with `x` added.
   */
  lemma KeepHead<T>(h: T, rest: seq<T>, x: T, tail: seq<T>, rank: T -> int)
    requires Ascending([h] + rest, rank) && rank(h) <= rank(x)
    requires Ascending(tail, rank) && multiset(tail) == multiset(rest) + multiset{x}
    ensures multiset([h] + tail) == multiset([h] + rest) + multiset{x}
    ensures Ascending([h] + tail, rank)
  {
    var r := [h] + tail;
    forall i, j | 0 <= i < j < |r| ensures rank(r[i]) <= rank(r[j]) {
      if i == 0 {
        var y := tail[j - 1];
        assert r[0] == h && r[j] == y;
        assert y in multiset(tail);
        if y != x {
          assert y in multiset(rest);
          var k :| 0 <= k < |rest| && rest[k] == y;
          assert ([h] + rest)[0] == h && ([h] + rest)[k + 1] == y;
        }
      } else {
        assert r[i] == tail[i - 1] && r[j] == tail[j - 1];
      }
    }
  }

  /** The sorted copy: `s` stably sorted by ascending rank. */
  function SortBy<T>(s: seq<T>, rank: T -> int): (r: seq<T>)
    ensures multiset(r) == multiset(s)
    ensures Ascending(r, rank)
  {
    if s == [] then []
    else
      var init := s[..|s| - 1];
      assert s == init + [s[|s| - 1]];
      Insert(SortBy(init, rank), s[|s| - 1], rank)
  }

  lemma {:induction false} WithRankAppend<T>(a: seq<T>, b: seq<T>, rank: T -> int, v: int)
    ensures WithRank(a + b, rank, v) == WithRank(a, rank, v) + WithRank(b, rank, v)
  {
    if a == [] {
      assert a + b == b;
    } else {
      assert a + b == [a[0]] + (a[1..] + b) && a == [a[0]] + a[1..];
      WithRankCons(a[0], a[1..] + b, rank, v);
      WithRankCons(a[0], a[1..], rank, v);
      WithRankAppend(a[1..], b, rank, v);
    }
  }

  lemma WithRankCons<T>(h: T, t: seq<T>, rank: T -> int, v: int)
    ensures WithRank([h] + t, rank, v) == (if rank(h) == v then [h] else []) + WithRank(t, rank, v)
  {
    assert ([h] + t)[0] == h && ([h] + t)[1..] == t;
  }

  /** Inserting `x` puts it after every element of equal rank already placed. */
  lemma {:induction false} InsertKeepsTies<T>(s: seq<T>, x: T, rank: T -> int, v: int)
    requires Ascending(s, rank)
    ensures WithRank(Insert(s, x, rank), rank, v)
         == WithRank(s, rank, v) + (if rank(x) == v then [x] else [])
  {
    if s == [] || rank(x) < rank(s[0]) {
      assert Insert(s, x, rank) == [x] + s;
      TiesInFront(s, x, rank, v);
    } else {
      var tail := Insert(s[1..], x, rank);
      InsertKeepsTies(s[1..], x, rank, v);
      assert Insert(s, x, rank) == [s[0]] + tail;
      assert s == [s[0]] + s[1..];
      TiesPastHead(s[0], s[1..], tail, rank, v, if rank(x) == v then [x] else []);
    }
  }

  lemma TiesInFront<T>(s: seq<T>, x: T, rank: T -> int, v: int)
    requires Ascending(s, rank)
    requires s != [] ==> rank(x) < rank(s[0])
    ensures WithRank([x] + s, rank, v) == WithRank(s, rank, v) + (if rank(x) == v then [x] else [])
  {
    WithRankCons(x, s, rank, v);
    if rank(x) == v {
      NoneWithRank(s, rank, v);
    }
  }

  lemma TiesPastHead<T>(h: T, rest: seq<T>, tail: seq<T>, rank: T -> int, v: int, added: seq<T>)
    requires WithRank(tail, rank, v) == WithRank(rest, rank, v) + added
    ensures WithRank([h] + tail, rank, v) == WithRank([h] + rest, rank, v) + added
  {
    WithRankCons(h, tail, rank, v);
    WithRankCons(h, rest, rank, v);
  }

  lemma {:induction false} NoneWithRank<T>(s: seq<T>, rank: T -> int, v: int)
    requires Ascending(s, rank)
    requires s != [] ==> v < rank(s[0])
    ensures WithRank(s, rank, v) == []
  {
    if s != [] {
      NoneWithRank(s[1..], rank, v);
    }
  }

  /**
   * Stability: for every rank, the elements of that rank appear in the sorted
   * copy in the same order as in the input.
   */
  lemma {:induction false} SortIsStable<T>(s: seq<T>, rank: T -> int, v: int)
    ensures WithRank(SortBy(s, rank), rank, v) == WithRank(s, rank, v)
  {
    if s != [] {
      var init, x := s[..|s| - 1], s[|s| - 1];
      assert s == init + [x];
      SortIsStable(init, rank, v);
      InsertKeepsTies(SortBy(init, rank), x, rank, v);
      WithRankAppend(init, [x], rank, v);
      assert WithRank([x], rank, v) == if rank(x) == v then [x] else [] by {
        assert [x][1..] == [];
      }
    }
  }

  /** When no two inputs share a rank, the sorted copy strictly ascends. */
  lemma SortStrictlyAscends<T>(s: seq<T>, rank: T -> int)
    requires DistinctRanks(s, rank)
    ensures StrictlyAscending(SortBy(s, rank), rank)
  {
    var r := SortBy(s, rank);
    forall i, j | 0 <= i < j < |r| ensures rank(r[i]) < rank(r[j]) {
      if rank(r[i]) == rank(r[j]) {
        TwoInMultiset(r, i, j);
        assert r[i] in multiset(s) && r[j] in multiset(s);
        var p :| 0 <= p < |s| && s[p] == r[i];
        var q :| 0 <= q < |s| && s[q] == r[j];
        if p == q {
          assert r[i] == r[j];
          OnlyOnce(s, rank, p);
          assert false;
        } else {
          assert false;
        }
      }
    }
  }

  /** Two different positions holding the same value: that value occurs at least twice. */
  lemma TwoInMultiset<T>(r: seq<T>, i: int, j: int)
    requires 0 <= i < j < |r|
    ensures r[i] == r[j] ==> multiset(r)[r[i]] >= 2
  {
    if r[i] == r[j] {
      assert r == r[..i] + [r[i]] + r[i + 1..j] + [r[j]] + r[j + 1..];
    }
  }

  /** An element of a sequence with distinct ranks occurs in it once. */
  lemma OnlyOnce<T>(s: seq<T>, rank: T -> int, p: int)
    requires DistinctRanks(s, rank)
    requires 0 <= p < |s|
    ensures multiset(s)[s[p]] == 1
  {
    assert s == s[..p] + [s[p]] + s[p + 1..];
    forall k | 0 <= k < |s| && k != p ensures s[k] != s[p] {
      assert rank(s[k]) != rank(s[p]);
    }
    assert s[p] !in s[..p] && s[p] !in s[p + 1..];
  }

  /**
   * Without ties the sorted copy is determined by its elements: any strictly
   * ascending arrangement of the same elements is that copy.
   */
  lemma SortIsTheAscendingArrangement<T>(s: seq<T>, t: seq<T>, rank: T -> int)
    requires DistinctRanks(s, rank)
    requires StrictlyAscending(t, rank) && multiset(t) == multiset(s)
    ensures SortBy(s, rank) == t
  {
    SortStrictlyAscends(s, rank);
    StrictOrderIsUnique(SortBy(s, rank), t, rank);
  }

  lemma {:induction false} StrictOrderIsUnique<T>(a: seq<T>, b: seq<T>, rank: T -> int)
    requires StrictlyAscending(a, rank) && StrictlyAscending(b, rank)
    requires multiset(a) == multiset(b)
    ensures a == b
    decreases |a|
  {
    if a != [] {
      SameHead(a, b, rank);
      DropHead(a, rank);
      DropHead(b, rank);
      StrictOrderIsUnique(a[1..], b[1..], rank);
      assert a == [a[0]] + a[1..] && b == [b[0]] + b[1..];
    } else {
      assert |b| == |multiset(b)| == 0;
    }
  }

  /** Two strictly ascending arrangements of the same elements start alike. */
  lemma SameHead<T>(a: seq<T>, b: seq<T>, rank: T -> int)
    requires StrictlyAscending(a, rank) && StrictlyAscending(b, rank)
    requires multiset(a) == multiset(b)
    requires a != []
    ensures b != [] && a[0] == b[0]
  {
    assert a[0] in multiset(b);
    var i :| 0 <= i < |b| && b[i] == a[0];
    assert b[0] in multiset(a);
    var j :| 0 <= j < |a| && a[j] == b[0];
    assert rank(a[0]) <= rank(a[j]) && rank(b[0]) <= rank(b[i]);
  }

  /** The rest of a strictly ascending sequence ascends strictly and holds the other elements. */
  lemma DropHead<T>(a: seq<T>, rank: T -> int)
    requires StrictlyAscending(a, rank)
    requires a != []
    ensures StrictlyAscending(a[1..], rank)
    ensures multiset(a[1..]) == multiset(a) - multiset{a[0]}
  {
    assert a == [a[0]] + a[1..];
    forall i, j | 0 <= i < j < |a| - 1 ensures rank(a[1..][i]) < rank(a[1..][j]) {
      assert rank(a[i + 1]) < rank(a[j + 1]);
    }
  }
}
