/** The list helpers of the tracker, on track ids: filtering, `joint_stracks`, `sub_stracks`. */
module TrackLists {

  ghost predicate Distinct(s: seq<int>) {
    forall j, k :: 0 <= j < k < |s| ==> s[j] != s[k]
  }

  function Filter(s: seq<int>, keep: int -> bool): (r: seq<int>)
    ensures forall x :: x in r <==> x in s && keep(x)
    ensures |r| <= |s|
    ensures Distinct(s) ==> Distinct(r)
  {
    if s == [] then []
    else
      var r := Filter(s[..|s| - 1], keep);
      var last := s[|s| - 1];
      assert Distinct(s) ==> last !in s[..|s| - 1];
      if keep(last) then r + [last] else r
  }

  /** `r` is the elements of `s` that `keep` accepts, in their order: those at the positions `idx`. */
  ghost predicate Picks(r: seq<int>, s: seq<int>, keep: int -> bool, idx: seq<nat>) {
    && |idx| == |r| && (forall j, k :: 0 <= j < k < |idx| ==> idx[j] < idx[k])
    && (forall k :: 0 <= k < |idx| ==> idx[k] < |s| && r[k] == s[idx[k]])
    && (forall i: nat :: i < |s| ==> (keep(s[i]) <==> i in idx))
  }

  lemma PicksMore(r: seq<int>, s: seq<int>, keep: int -> bool, idx: seq<nat>)
    requires s != [] && Picks(r, s[..|s| - 1], keep, idx)
    ensures var n := |s| - 1;
      if keep(s[n]) then Picks(r + [s[n]], s, keep, idx + [n]) else Picks(r, s, keep, idx)
  {
    var n := |s| - 1;
    assert n !in idx;
    forall i: nat | i < n ensures keep(s[i]) <==> i in idx {
      assert s[..n][i] == s[i];
    }
  }

  /** A list comprehension picks exactly the matching members, and keeps their order. */
  lemma {:induction false} FilterPicks(s: seq<int>, keep: int -> bool) returns (idx: seq<nat>)
    ensures Picks(Filter(s, keep), s, keep, idx)
  {
    if s == [] {
      idx := [];
    } else {
      hide Picks;
      var n := |s| - 1;
      idx := FilterPicks(s[..n], keep);
      PicksMore(Filter(s[..n], keep), s, keep, idx);
      idx := idx + if keep(s[n]) then [n] else [];
      assert keep(s[n]) || idx == idx + [];
    }
  }

  /** `joint_stracks`: all of `a`, then each id of `b` not yet in the result. */
  function Joint(a: seq<int>, b: seq<int>): (r: seq<int>)
    ensures forall x :: x in r <==> x in a || x in b
    ensures Distinct(a) ==> Distinct(r)
  {
    if b == [] then a
    else
      var r := Joint(a, b[..|b| - 1]);
      var last := b[|b| - 1];
      if last in r then r else r + [last]
  }

  function NotIn(b: seq<int>): int -> bool { x => x !in b }

  /** `sub_stracks`: the ids of `a`, each once, that are not in `b`. */
  function Sub(a: seq<int>, b: seq<int>): (r: seq<int>)
    ensures forall x :: x in r <==> x in a && x !in b
    ensures Distinct(r)
  {
    Filter(Joint([], a), NotIn(b))
  }

  lemma First(s: seq<int>) returns (x: int)
    requires s != []
    ensures x in s
  {
    x := s[0];
  }

  lemma Empty(s: seq<int>)
    requires forall x :: x !in s
    ensures s == []
  {
    if s != [] {
      var x := First(s);
    }
  }

  /** The elements at the given positions. */
  function At<T>(s: seq<T>, idx: seq<nat>): (r: seq<T>)
    requires forall k :: 0 <= k < |idx| ==> idx[k] < |s|
    ensures |r| == |idx| && forall k :: 0 <= k < |idx| ==> r[k] == s[idx[k]]
  {
    seq(|idx|, k requires 0 <= k < |idx| => s[idx[k]])
  }

  /** Joining distinct, new ids is appending. */
  lemma {:induction false} JointOfNew(a: seq<int>, b: seq<int>)
    requires Distinct(b) && forall x :: x in b ==> x !in a
    ensures Joint(a, b) == a + b
  {
    if b == [] {
      assert a + b == a;
    } else {
      JointOfNew(a, b[..|b| - 1]);
      assert a + b[..|b| - 1] + [b[|b| - 1]] == a + b;
    }
  }

  /** `sorted` by a key: what filtering and appending keep. */
  ghost predicate SortedBy(s: seq<int>, key: int -> int) {
    forall j, k :: 0 <= j < k < |s| ==> key(s[j]) <= key(s[k])
  }

  lemma {:induction false} FilterSorted(s: seq<int>, keep: int -> bool, key: int -> int)
    requires SortedBy(s, key)
    ensures SortedBy(Filter(s, keep), key)
  {
    if s != [] {
      FilterSorted(s[..|s| - 1], keep, key);
      var r := Filter(s[..|s| - 1], keep);
      forall j | 0 <= j < |r| ensures key(r[j]) <= key(s[|s| - 1]) {
        assert r[j] in r;
        var i :| 0 <= i < |s| - 1 && s[i] == r[j];
      }
    }
  }

  lemma SubSorted(a: seq<int>, b: seq<int>, key: int -> int)
    requires Distinct(a) && SortedBy(a, key)
    ensures SortedBy(Sub(a, b), key)
  {
    JointOfNew([], a);
    assert [] + a == a;
    FilterSorted(a, NotIn(b), key);
  }
}
