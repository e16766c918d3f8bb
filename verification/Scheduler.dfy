/** The decision makers themselves, as objects updated in place (rsched/src/scheduler.rs). */
module Scheduler {
  import opened Prelude
  import opened Choice
  import Xorshift

  /** scheduler.rs:18-35. The ghost fields say how far it has come in its seed's word sequence. */
  class Rng {
    var state: bv64
    ghost const seed: bv64
    ghost var draws: nat

    ghost predicate Valid()
      reads this
    {
      state == Xorshift.Draw(seed, draws)
    }

    constructor (seed: bv64)
      ensures Valid() && this.seed == seed && draws == 0
      ensures state == if seed == 0 then 1 else seed
    {
      state := if seed == 0 then 1 else seed;
      this.seed := seed;
      draws := 0;
    }

    method Next() returns (word: bv64)
      requires Valid()
      modifies this
      ensures Valid() && draws == old(draws) + 1 && word == Xorshift.Draw(seed, draws)
      ensures word == state == Xorshift.Next(old(state))
    {
      hide Xorshift.Left13, Xorshift.Right7, Xorshift.Left17;
      state := Xorshift.Left13(state);
      state := Xorshift.Right7(state);
      state := Xorshift.Left17(state);
      draws := draws + 1;
      word := state;
    }

    method UsizeLessThan(n: nat) returns (i: nat)
      requires Valid() && n > 0
      modifies this
      ensures Valid() && draws == old(draws) + 1
      ensures i < n && i == Xorshift.SeedTape(seed)(old(draws)) % n
      ensures state == Xorshift.Next(old(state)) && i == (state as nat) % n
    {
      var word := Next();
      i := (word as nat) % n;
    }
  }

  /** What a decision over `blocking` is, after `before` draws from `seed`: nothing to decide draws
      nothing; otherwise one word is drawn and reduced to the start of the scan. */
  ghost predicate Decision(seed: bv64, before: nat, blocking: seq<bool>, choice: Option<nat>, after: nat) {
    if |blocking| == 0 then choice == None && after == before
    else after == before + 1 && choice == Pick(blocking, Xorshift.SeedTape(seed)(before) % |blocking|)
  }

  /** The same decision by the generator's own states: one step of the generator, and the nearest
      eligible entry going forward from its new state modulo the number of entries. */
  ghost predicate Walked(was: bv64, now: bv64, blocking: seq<bool>, choice: Option<nat>) {
    if |blocking| == 0 then choice == None && now == was
    else now == Xorshift.Next(was) && NearestBy(blocking, now as nat, choice)
  }

  ghost predicate NearestBy(blocking: seq<bool>, word: nat, choice: Option<nat>)
    requires |blocking| > 0
  {
    Nearest(blocking, word % |blocking|, choice)
  }

  /** scheduler.rs:39-74. */
  class RandomWalk {
    const rng: Rng

    ghost predicate Valid()
      reads this, rng
    {
      rng.Valid()
    }

    constructor (seed: bv64)
      ensures Valid() && fresh(rng) && rng.seed == seed && rng.draws == 0
    {
      rng := new Rng(seed);
    }

    method Choose(blocking: seq<bool>) returns (choice: Option<nat>)
      requires Valid()
      modifies rng
      ensures Valid()
      ensures Decision(rng.seed, old(rng.draws), blocking, choice, rng.draws)
      ensures Walked(old(rng.state), rng.state, blocking, choice)
    {
      var n := |blocking|;
      if n == 0 {
        return None;
      }
      var start := rng.UsizeLessThan(n);
      Wraps(start, 0, n);
      PickNearest(blocking, start, Pick(blocking, start));
      if !blocking[start] {
        return Some(start);
      }
      for i := 1 to n
        invariant ScanFrom(blocking, start, 0) == ScanFrom(blocking, start, i)
      {
        var idx := (start + i) % n;
        if !blocking[idx] {
          return Some(idx);
        }
      }
      return None;
    }
  }

  /** scheduler.rs:78-92: prints and delegates. The printed lines are kept in `lines`. */
  class LoggingScheduler {
    const inner: RandomWalk
    var lines: seq<string>

    constructor (inner: RandomWalk)
      ensures this.inner == inner && lines == []
    {
      this.inner := inner;
      lines := [];
    }

    method Choose(blocking: seq<bool>) returns (choice: Option<nat>)
      requires inner.Valid()
      modifies inner.rng
      ensures inner.Valid()
      ensures Decision(inner.rng.seed, old(inner.rng.draws), blocking, choice, inner.rng.draws)
      ensures Walked(old(inner.rng.state), inner.rng.state, blocking, choice)
    {
      choice := inner.Choose(blocking);
    }

    method OnEvent(event: Option<string>)
      modifies `lines
      ensures lines == old(lines) + if event.Some? then [event.value] else []
    {
      if event.Some? {
        lines := lines + [event.value];
      }
    }
  }

  /** `Box<dyn Scheduler>`: an environment variable says which of the two (lib.rs:127-133). */
  datatype AnyScheduler = Plain(walk: RandomWalk) | Logged(logger: LoggingScheduler) {
    ghost function Rng(): Rng {
      if Plain? then walk.rng else logger.inner.rng
    }
  }

  /** Logged or not, the decision and the use of the generator are the same. */
  method ChooseBy(s: AnyScheduler, blocking: seq<bool>) returns (choice: Option<nat>)
    requires s.Rng().Valid()
    modifies s.Rng()
    ensures s.Rng().Valid()
    ensures Decision(s.Rng().seed, old(s.Rng().draws), blocking, choice, s.Rng().draws)
    ensures Walked(old(s.Rng().state), s.Rng().state, blocking, choice)
  {
    match s
    case Plain(walk) => choice := walk.Choose(blocking);
    case Logged(logger) => choice := logger.Choose(blocking);
  }
}
