/** What a random-walk decision means, as a function of the raw draw (rsched/src/scheduler.rs:57-73). */
module Choice {
  import opened Prelude

  lemma Wraps(start: nat, i: nat, n: nat)
    requires start < n && i < n
    ensures (start + i) % n == if start + i < n then start + i else start + i - n
  {
  }

  /** The first index at cyclic distance `i` or more from `start` that is not blocking. */
  function ScanFrom(blocking: seq<bool>, start: nat, i: nat): (r: Option<nat>)
    requires start < |blocking| && i <= |blocking|
    ensures r.Some? ==> r.value < |blocking| && !blocking[r.value]
    decreases |blocking| - i
  {
    if i == |blocking| then None
    else
      var idx := (start + i) % |blocking|;
      if !blocking[idx] then Some(idx) else ScanFrom(blocking, start, i + 1)
  }

  /** The decision for a start index. */
  function Pick(blocking: seq<bool>, start: nat): (r: Option<nat>)
    requires start < |blocking|
    ensures r.Some? ==> r.value < |blocking| && !blocking[r.value]
    ensures r.None? <==> forall j :: 0 <= j < |blocking| ==> blocking[j]
  {
    ScanFromNone(blocking, start, 0);
    ScanFrom(blocking, start, 0)
  }

  /** How far `j` lies ahead of `start`, going round. */
  function Ahead(n: nat, start: nat, j: nat): (d: nat)
    requires start < n && j < n
    ensures d < n
  {
    if start <= j then j - start else j + n - start
  }

  /** Going that far forward, and round at the end, leads from `start` to `j`. */
  lemma AheadReaches(n: nat, start: nat, j: nat)
    requires start < n && j < n
    ensures (start + Ahead(n, start, j)) % n == j
  {
    Wraps(start, Ahead(n, start, j), n);
  }

  lemma {:induction false} ScanFromNone(blocking: seq<bool>, start: nat, i: nat)
    requires start < |blocking| && i <= |blocking|
    ensures ScanFrom(blocking, start, i).None? <==>
            forall j :: 0 <= j < |blocking| && Ahead(|blocking|, start, j) >= i ==> blocking[j]
    decreases |blocking| - i
  {
    if i < |blocking| {
      Wraps(start, i, |blocking|);
      ScanFromNone(blocking, start, i + 1);
      assert Ahead(|blocking|, start, (start + i) % |blocking|) == i;
    }
  }

  /** The scan stops at the nearest eligible entry ahead. */
  lemma {:induction false} ScanStops(blocking: seq<bool>, start: nat, i: nat, j: nat)
    requires start < |blocking| && j < |blocking| && i <= |blocking|
    ensures ScanFrom(blocking, start, i) == Some(j) <==>
      && !blocking[j] && Ahead(|blocking|, start, j) >= i
      && forall k {:trigger blocking[k]} :: 0 <= k < |blocking| && i <= Ahead(|blocking|, start, k) < Ahead(|blocking|, start, j) ==> blocking[k]
    decreases |blocking| - i
  {
    if i < |blocking| {
      Wraps(start, i, |blocking|);
      var idx := (start + i) % |blocking|;
      assert Ahead(|blocking|, start, idx) == i;
      ScanStops(blocking, start, i + 1, j);
      assert forall k :: 0 <= k < |blocking| && Ahead(|blocking|, start, k) == i ==> k == idx;
    }
  }

  /** `choice` is the nearest eligible entry going forward from `start`, or none if there is none. */
  ghost predicate Nearest(blocking: seq<bool>, start: nat, choice: Option<nat>)
    requires start < |blocking|
  {
    match choice
    case None => forall k :: 0 <= k < |blocking| ==> blocking[k]
    case Some(j) =>
      && j < |blocking| && !blocking[j]
      && forall k {:trigger blocking[k]} :: 0 <= k < |blocking| && Ahead(|blocking|, start, k) < Ahead(|blocking|, start, j) ==> blocking[k]
  }

  /** With nobody blocking it is the start itself. */
  lemma FirstOfAll(blocking: seq<bool>, start: nat, choice: Option<nat>)
    requires start < |blocking| && Nearest(blocking, start, choice) && forall k :: 0 <= k < |blocking| ==> !blocking[k]
    ensures choice == Some(start)
  {
    assert !blocking[start] && Ahead(|blocking|, start, start) == 0;
  }

  /** That is what the walk's decision is. */
  lemma PickNearest(blocking: seq<bool>, start: nat, choice: Option<nat>)
    requires start < |blocking|
    ensures Pick(blocking, start) == choice <==> Nearest(blocking, start, choice)
  {
    var pick := Pick(blocking, start);
    if pick.Some? { ScanStops(blocking, start, 0, pick.value); }
    if choice.Some? && choice.value < |blocking| { ScanStops(blocking, start, 0, choice.value); }
  }
}
