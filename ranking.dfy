/** `sorted(pairs, key=lambda pair: pair[1])` over (restaurant, distance) pairs: Python's
    stable sort, written as an insertion sort. */
module Ranking {
  import opened Catalog

  /** A restaurant with its distance to the delivery address, in kilometres. */
  type Pair = (Restaurant, real)

  predicate SortedByDistance(s: seq<Pair>) {
    forall i, j :: 0 <= i < j < |s| ==> s[i].1 <= s[j].1
  }

  /** No restaurant occurs in two pairs. */
  predicate DistinctRestaurants(s: seq<Pair>) {
    forall i, j :: 0 <= i < j < |s| ==> s[i].0 != s[j].0
  }

  /** Places `x` before the first pair that is at least as far away; inserting the earlier
      elements in front of the later ones this way keeps equal distances in input order. */
  function Insert(x: Pair, s: seq<Pair>): (r: seq<Pair>)
    ensures |r| == |s| + 1
  {
    if s == [] || x.1 <= s[0].1 then [x] + s else [s[0]] + Insert(x, s[1..])
  }

  /** The pairs ordered by non-decreasing distance; equal distances keep their input order. */
  function SortByDistance(s: seq<Pair>): (r: seq<Pair>)
    ensures |r| == |s|
  {
    if s == [] then [] else Insert(s[0], SortByDistance(s[1..]))
  }

  /** The pairs of `s` at distance `d`, in order. */
  function AtDistance(s: seq<Pair>, d: real): (r: seq<Pair>)
    ensures |r| <= |s|
    ensures forall k :: 0 <= k < |r| ==> r[k].1 == d
  {
    if s == [] then [] else (if s[0].1 == d then [s[0]] else []) + AtDistance(s[1..], d)
  }

  /** `x` goes ahead of every pair at its own distance, and no pair at another distance moves
      relative to pairs at the same distance. */
  lemma {:induction false} InsertStable(x: Pair, s: seq<Pair>, d: real)
    ensures AtDistance(Insert(x, s), d) == (if x.1 == d then [x] else []) + AtDistance(s, d)
  {
    if s == [] || x.1 <= s[0].1 {
      var r := [x] + s;
      assert r[0] == x && r[1..] == s;
    } else {
      var rest := Insert(x, s[1..]);
      InsertStable(x, s[1..], d);
      var r := [s[0]] + rest;
      assert r[0] == s[0] && r[1..] == rest;
      assert AtDistance(r, d) == (if s[0].1 == d then [s[0]] else []) + AtDistance(rest, d);
      assert AtDistance(s, d) == (if s[0].1 == d then [s[0]] else []) + AtDistance(s[1..], d);
    }
  }

  /** The sort is stable: the pairs at any one distance come out in their input order. */
  lemma {:induction false} SortByDistanceStable(s: seq<Pair>, d: real)
    ensures AtDistance(SortByDistance(s), d) == AtDistance(s, d)
  {
    if s != [] {
      SortByDistanceStable(s[1..], d);
      InsertStable(s[0], SortByDistance(s[1..]), d);
    }
  }

  lemma {:induction false} InsertPermutes(x: Pair, s: seq<Pair>)
    ensures multiset(Insert(x, s)) == multiset(s) + multiset{x}
  {
    if !(s == [] || x.1 <= s[0].1) {
      InsertPermutes(x, s[1..]);
      assert s == [s[0]] + s[1..];
    }
  }

  lemma {:induction false} InsertKeepsSorted(x: Pair, s: seq<Pair>)
    requires SortedByDistance(s)
    ensures SortedByDistance(Insert(x, s))
  {
    if !(s == [] || x.1 <= s[0].1) {
      var rest := Insert(x, s[1..]);
      InsertKeepsSorted(x, s[1..]);
      InsertPermutes(x, s[1..]);
      forall k | 0 <= k < |rest| ensures s[0].1 <= rest[k].1 {
        assert rest[k] in multiset(rest);
        assert rest[k] == x || rest[k] in multiset(s[1..]);
      }
    }
  }

  lemma {:induction false} InsertKeepsDistinct(x: Pair, s: seq<Pair>)
    requires DistinctRestaurants(s)
    requires forall k :: 0 <= k < |s| ==> s[k].0 != x.0
    ensures DistinctRestaurants(Insert(x, s))
  {
    if !(s == [] || x.1 <= s[0].1) {
      var rest := Insert(x, s[1..]);
      InsertKeepsDistinct(x, s[1..]);
      InsertPermutes(x, s[1..]);
      forall k | 0 <= k < |rest| ensures s[0].0 != rest[k].0 {
        assert rest[k] in multiset(rest);
        assert rest[k] == x || rest[k] in multiset(s[1..]);
      }
    }
  }

  lemma {:induction false} SortByDistancePermutes(s: seq<Pair>)
    ensures multiset(SortByDistance(s)) == multiset(s)
  {
    if s != [] {
      SortByDistancePermutes(s[1..]);
      assert s == [s[0]] + s[1..];
      InsertPermutes(s[0], SortByDistance(s[1..]));
    }
  }

  lemma {:induction false} SortByDistanceSorts(s: seq<Pair>)
    ensures SortedByDistance(SortByDistance(s))
  {
    if s != [] {
      SortByDistanceSorts(s[1..]);
      InsertKeepsSorted(s[0], SortByDistance(s[1..]));
    }
  }

  lemma {:induction false} SortByDistanceKeepsDistinct(s: seq<Pair>)
    requires DistinctRestaurants(s)
    ensures DistinctRestaurants(SortByDistance(s))
  {
    if s != [] {
      var rest := SortByDistance(s[1..]);
      assert DistinctRestaurants(s[1..]);
      SortByDistanceKeepsDistinct(s[1..]);
      SortByDistancePermutes(s[1..]);
      forall k | 0 <= k < |rest| ensures rest[k].0 != s[0].0 {
        assert rest[k] in multiset(s[1..]);
        var j :| 0 <= j < |s[1..]| && s[1..][j] == rest[k];
        assert s[j + 1] == rest[k];
      }
      InsertKeepsDistinct(s[0], rest);
    }
  }

  /** Sorting returns a permutation of its input, sorted by distance, and keeps restaurants
      distinct when they were. */
  lemma SortByDistanceCorrect(s: seq<Pair>)
    ensures multiset(SortByDistance(s)) == multiset(s)
    ensures SortedByDistance(SortByDistance(s))
    ensures DistinctRestaurants(s) ==> DistinctRestaurants(SortByDistance(s))
  {
    SortByDistancePermutes(s);
    SortByDistanceSorts(s);
    if DistinctRestaurants(s) {
      SortByDistanceKeepsDistinct(s);
    }
  }

  /** Sorting a list that is already sorted by distance gives it back unchanged. */
  lemma {:induction false} SortSortedIsIdentity(s: seq<Pair>)
    requires SortedByDistance(s)
    ensures SortByDistance(s) == s
  {
    if s != [] {
      assert SortedByDistance(s[1..]);
      SortSortedIsIdentity(s[1..]);
      assert s == [s[0]] + s[1..];
    }
  }

  /** The same elements as a multiset and the same ordering key determine a sorted list
      of pairs up to ties: two sorted permutations agree on every distance. */
  lemma SortedPermutationsAgreeOnDistances(a: seq<Pair>, b: seq<Pair>)
    requires multiset(a) == multiset(b)
    requires SortedByDistance(a) && SortedByDistance(b)
    ensures |a| == |b|
    ensures forall k :: 0 <= k < |a| ==> a[k].1 == b[k].1
  {
    assert |a| == |multiset(a)| == |multiset(b)| == |b|;
    if a != [] {
      forall k | 0 <= k < |a| ensures a[k].1 == b[k].1 {
        DistancesAtIndex(a, b, k);
      }
    }
  }

  /** Removing one element keeps a list sorted. */
  lemma RemoveKeepsSorted(b: seq<Pair>, i: nat)
    requires i < |b| && SortedByDistance(b)
    ensures SortedByDistance(b[..i] + b[i + 1..])
  {
    var b' := b[..i] + b[i + 1..];
    forall p, q | 0 <= p < q < |b'| ensures b'[p].1 <= b'[q].1 {
      var p' := if p < i then p else p + 1;
      var q' := if q < i then q else q + 1;
      assert b'[p] == b[p'] && b'[q] == b[q'];
    }
  }

  lemma RemoveAtPermutes(b: seq<Pair>, i: nat)
    requires i < |b|
    ensures multiset(b[..i] + b[i + 1..]) == multiset(b) - multiset{b[i]}
  {
    assert b == b[..i] + [b[i]] + b[i + 1..];
  }

  lemma TailsPermute(a: seq<Pair>, b: seq<Pair>, i: nat)
    requires multiset(a) == multiset(b) && a != [] && i < |b| && b[i] == a[0]
    ensures multiset(a[1..]) == multiset(b[..i] + b[i + 1..])
  {
    RemoveAtPermutes(b, i);
    RemoveAtPermutes(a, 0);
    assert a[1..] == a[..0] + a[0 + 1..];
  }

  /** In two sorted permutations of each other, the heads have the same distance. */
  lemma HeadsAgree(a: seq<Pair>, b: seq<Pair>) returns (i: nat)
    requires multiset(a) == multiset(b) && a != []
    requires SortedByDistance(a) && SortedByDistance(b)
    ensures |b| == |a| && i < |b| && b[i] == a[0] && a[0].1 == b[0].1
  {
    assert |a| == |multiset(a)| == |multiset(b)| == |b|;
    assert a[0] in multiset(b);
    assert b[0] in multiset(a);
    i :| 0 <= i < |b| && b[i] == a[0];
    var j :| 0 <= j < |a| && a[j] == b[0];
    assert a[0].1 <= a[j].1;
    assert b[0].1 <= b[i].1;
  }

  /** The k-th distance of a sorted list is determined by its multiset of pairs. */
  lemma {:induction false} DistancesAtIndex(a: seq<Pair>, b: seq<Pair>, k: nat)
    requires multiset(a) == multiset(b)
    requires SortedByDistance(a) && SortedByDistance(b)
    requires k < |a|
    ensures |a| == |b| && a[k].1 == b[k].1
    decreases |a|
  {
    var i := HeadsAgree(a, b);
    if k > 0 {
      var b' := b[..i] + b[i + 1..];
      TailsPermute(a, b, i);
      RemoveKeepsSorted(b, i);
      assert SortedByDistance(a[1..]);
      DistancesAtIndex(a[1..], b', k - 1);
      assert a[1..][k - 1] == a[k];
      if k <= i {
        assert b'[k - 1] == b[k - 1];
        assert b[k - 1].1 <= b[k].1 by { assert k - 1 < k; }
        assert b[k].1 <= b[i].1 by { assert k <= i; }
        assert a[0].1 <= a[k].1 by { assert 0 < k; }
      } else {
        assert b'[k - 1] == b[k - 1 + 1];
      }
    }
  }
}
