/** Small vocabulary shared by every module: optional values and duplicate-free lists. */
module Prelude {

  datatype Option<+T> = None | Some(value: T) {
    function GetOr(default: T): T {
      if Some? then value else default
    }
  }

  ghost predicate Distinct<T>(s: seq<T>) {
    forall i, j :: 0 <= i < j < |s| ==> s[i] != s[j]
  }

  /** `Vec::remove(i)`: the list without the element at `i`, order kept. */
  function RemoveAt<T(!new)>(s: seq<T>, i: nat): (r: seq<T>)
    requires i < |s|
    ensures |r| == |s| - 1
    ensures Distinct(s) ==> Distinct(r) && forall x :: x in r <==> x in s && x != s[i]
  {
    var r := s[..i] + s[i + 1..];
    assert forall k :: 0 <= k < |r| ==> r[k] == s[if k < i then k else k + 1];
    assert forall k {:trigger s[k]} :: 0 <= k < |s| && k != i ==> s[k] == r[if k < i then k else k - 1];
    r
  }

  /** `Vec::retain(|x| x != v)`: the list without any occurrence of `v`, order kept. */
  function Without<T(==,!new)>(s: seq<T>, v: T): (r: seq<T>)
    ensures forall x :: x in r <==> x in s && x != v
    ensures Distinct(s) ==> Distinct(r)
    ensures |r| <= |s|
  {
    if s == [] then []
    else
      var front := Without(s[..|s| - 1], v);
      assert s == s[..|s| - 1] + [s[|s| - 1]];
      assert Distinct(s) ==> s[|s| - 1] !in s[..|s| - 1];
      if s[|s| - 1] == v then front
      else
        assert Distinct(s) ==> s[|s| - 1] !in front;
        front + [s[|s| - 1]]
  }

  /** `rest` is `s` without its entry `i`, everything else in the order it had. */
  ghost predicate Dropped<T>(s: seq<T>, i: nat, rest: seq<T>)
    requires i < |s|
  {
    |rest| == |s| - 1 && forall k {:trigger rest[k]} :: 0 <= k < |rest| ==> rest[k] == s[if k < i then k else k + 1]
  }

  lemma RemoveAtDrops<T(!new)>(s: seq<T>, i: nat)
    requires i < |s|
    ensures Dropped(s, i, RemoveAt(s, i))
  {
  }

  lemma WithoutStep<T(!new)>(s: seq<T>, x: T, v: T)
    ensures Without<T>([], v) == []
    ensures Without(s + [x], v) == if x == v then Without(s, v) else Without(s, v) + [x]
  {
    assert (s + [x])[..|s|] == s;
  }

  /** `retain` goes along the list. */
  lemma {:induction false} WithoutJoins<T(!new)>(a: seq<T>, b: seq<T>, v: T)
    ensures Without(a + b, v) == Without(a, v) + Without(b, v)
  {
    hide Without;
    if b == [] {
      assert a + b == a;
      WithoutStep(a, v, v);
    } else {
      var front, x := b[..|b| - 1], b[|b| - 1];
      assert a + b == (a + front) + [x] && b == front + [x];
      WithoutStep(a + front, x, v);
      WithoutStep(front, x, v);
      WithoutJoins(a, front, v);
    }
  }

  lemma {:induction false} WithoutAbsent<T(!new)>(s: seq<T>, v: T)
    requires v !in s
    ensures Without(s, v) == s
  {
    if s != [] { WithoutAbsent(s[..|s| - 1], v); }
  }

  lemma {:induction false} WithoutBoth<T(!new)>(front: seq<T>, v: T, back: seq<T>)
    requires v !in front && v !in back
    ensures Without(front + ([v] + back), v) == front + back
  {
    hide Without;
    WithoutJoins(front, [v] + back, v);
    WithoutJoins([v], back, v);
    WithoutStep([], v, v);
    assert [] + [v] == [v];
    WithoutAbsent(front, v);
    WithoutAbsent(back, v);
    assert [] + back == back;
  }

  /** From a list without duplicates it drops one entry. */
  lemma WithoutDrops<T(!new)>(s: seq<T>, i: nat)
    requires Distinct(s) && i < |s|
    ensures Dropped(s, i, Without(s, s[i]))
  {
    hide Without;
    assert s == s[..i] + ([s[i]] + s[i + 1..]);
    WithoutBoth(s[..i], s[i], s[i + 1..]);
    RemoveAtDrops(s, i);
    assert RemoveAt(s, i) == s[..i] + s[i + 1..];
  }

  lemma DistinctAppend<T>(s: seq<T>, x: T)
    requires Distinct(s) && x !in s
    ensures Distinct(s + [x])
  {
  }

  lemma TwoMembers<T>(s: seq<T>, x: T, y: T)
    requires x in s && y in s && x != y
    ensures |s| > 1
  {
  }

  lemma {:induction false} DistinctSize<T>(s: seq<T>)
    ensures |set x | x in s| <= |s|
    ensures Distinct(s) ==> |set x | x in s| == |s|
  {
    if s == [] {
      assert (set x | x in s) == {};
    } else {
      var front, last := s[..|s| - 1], s[|s| - 1];
      DistinctSize(front);
      assert s == front + [last];
      assert (set x | x in s) == (set x | x in front) + {last};
    }
  }

  function Interval(lo: int, n: nat): (r: set<int>)
    ensures |r| == n && forall x :: x in r <==> lo <= x < lo + n
  {
    if n == 0 then {} else Interval(lo, n - 1) + {lo + n - 1}
  }

  lemma SubsetFills<T>(a: set<T>, b: set<T>)
    requires a <= b
    ensures |a| <= |b|
    ensures |a| >= |b| ==> a == b
  {
    assert b == a + (b - a) && |b| == |a| + |b - a|;
    assert |b - a| == 0 ==> b - a == {};
  }

  /** Distinct numbers from an interval: there are at most as many as it has, and then all of them. */
  lemma Pigeonhole(s: seq<int>, lo: int, n: nat)
    requires Distinct(s) && forall x :: x in s ==> lo <= x < lo + n
    ensures |s| <= n
    ensures |s| == n <==> forall x :: lo <= x < lo + n ==> x in s
  {
    DistinctSize(s);
    var members := set x | x in s;
    SubsetFills(members, Interval(lo, n));
    if forall x :: lo <= x < lo + n ==> x in s {
      assert members == Interval(lo, n);
    } else {
      var x :| lo <= x < lo + n && x !in s;
      assert x in Interval(lo, n) && x !in members;
    }
  }
}
