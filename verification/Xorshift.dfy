/** The xorshift64 generator behind every scheduling decision (rsched/src/scheduler.rs:18-35). */
module Xorshift {

  /** Generator state right after seeding: the all-zero word is replaced by 1. */
  function Seeded(seed: bv64): (x: bv64)
    ensures x != 0
  {
    if seed == 0 then 1 else seed
  }

  // The three xor-shifts of a draw, and what undoes each.

  function Left13(x: bv64): bv64 { x ^ (x << 13) }
  function Right7(x: bv64): bv64 { x ^ (x >> 7) }
  function Left17(x: bv64): bv64 { x ^ (x << 17) }

  function UnLeft13(y: bv64): bv64 { y ^ (y << 13) ^ (y << 26) ^ (y << 39) ^ (y << 52) }
  function UnRight7(y: bv64): bv64 {
    y ^ (y >> 7) ^ (y >> 14) ^ (y >> 21) ^ (y >> 28) ^ (y >> 35) ^ (y >> 42) ^ (y >> 49) ^ (y >> 56) ^ (y >> 63)
  }
  function UnLeft17(y: bv64): bv64 { y ^ (y << 17) ^ (y << 34) ^ (y << 51) }

  /** One draw; the new state is also the word drawn. */
  function Next(x: bv64): bv64 {
    Left17(Right7(Left13(x)))
  }

  /** Explicit inverse of `Next`: undoes the three xor-shifts in reverse order. */
  function Prev(y: bv64): bv64 {
    UnLeft13(UnRight7(UnLeft17(y)))
  }

  lemma UndoLeft13(x: bv64)
    ensures UnLeft13(Left13(x)) == x && Left13(UnLeft13(x)) == x
  {
    assert UnLeft13(x ^ (x << 13)) == x;
    assert Left13(x ^ (x << 13) ^ (x << 26) ^ (x << 39) ^ (x << 52)) == x;
    assert UnLeft13(Left13(x)) == x by { hide UnLeft13; }
    assert Left13(UnLeft13(x)) == x by { hide Left13; }
  }

  lemma UndoRight7(x: bv64)
    ensures UnRight7(Right7(x)) == x && Right7(UnRight7(x)) == x
  {
    assert UnRight7(x ^ (x >> 7)) == x;
    assert Right7(x ^ (x >> 7) ^ (x >> 14) ^ (x >> 21) ^ (x >> 28) ^ (x >> 35) ^ (x >> 42) ^ (x >> 49) ^ (x >> 56) ^ (x >> 63)) == x;
    assert UnRight7(Right7(x)) == x by { hide UnRight7; }
    assert Right7(UnRight7(x)) == x by { hide Right7; }
  }

  lemma UndoLeft17(x: bv64)
    ensures UnLeft17(Left17(x)) == x && Left17(UnLeft17(x)) == x
  {
    assert UnLeft17(x ^ (x << 17)) == x;
    assert Left17(x ^ (x << 17) ^ (x << 34) ^ (x << 51)) == x;
    assert UnLeft17(Left17(x)) == x by { hide UnLeft17; }
    assert Left17(UnLeft17(x)) == x by { hide Left17; }
  }

  /** `Next` is a bijection on 64-bit words. */
  lemma NextPrev(x: bv64)
    ensures Prev(Next(x)) == x
    ensures Next(Prev(x)) == x
  {
    hide Left13, Right7, Left17, UnLeft13, UnRight7, UnLeft17;
    UndoLeft13(x);
    UndoRight7(Left13(x));
    UndoLeft17(Right7(Left13(x)));
    UndoLeft17(x);
    UndoRight7(UnLeft17(x));
    UndoLeft13(UnRight7(UnLeft17(x)));
  }

  lemma NextInjective(x: bv64, y: bv64)
    ensures Next(x) == Next(y) <==> x == y
    ensures Next(x) == 0 <==> x == 0
  {
    NextPrev(x);
    NextPrev(y);
    NextPrev(0);
    assert Next(0) == 0;
  }

  /** The generator state after `n` draws; for `n > 0` it is also the n-th word drawn. */
  function Draw(seed: bv64, n: nat): bv64 {
    if n == 0 then Seeded(seed) else Next(Draw(seed, n - 1))
  }

  /** No run ever reaches the all-zero state, from which xorshift could not leave. */
  lemma {:induction false} NeverZero(seed: bv64, n: nat)
    ensures Draw(seed, n) != 0
  {
    if n > 0 {
      NeverZero(seed, n - 1);
      NextInjective(Draw(seed, n - 1), 0);
    }
  }

  /** Two seeds have the same generator state after any number of draws exactly when they are
      equal, or are the two words 0 and 1. */
  lemma {:induction false} SeedsStayApart(a: bv64, b: bv64, n: nat)
    ensures Draw(a, n) == Draw(b, n) <==> a == b || (a in {0, 1} && b in {0, 1})
  {
    if n > 0 {
      SeedsStayApart(a, b, n - 1);
      NextInjective(Draw(a, n - 1), Draw(b, n - 1));
    }
  }

  /** The raw words a walk seeded with `seed` will draw, in order. */
  function SeedTape(seed: bv64): nat -> nat {
    (i: nat) => Draw(seed, i + 1) as nat
  }

  // ---------------------------------------------------------------- the words themselves

  /** The first three words of the seeds 1 and 0. */
  lemma FirstWords(seed: bv64)
    requires seed == 1 || seed == 0
    ensures Draw(seed, 0) == 1 && Draw(seed, 1) == 0x40822041
    ensures Draw(seed, 2) == 0x100041060c011441 && Draw(seed, 3) == 0x9b1e842f6e862629
  {
    assert Next(1) == 0x40822041;
    assert Next(0x40822041) == 0x100041060c011441;
    assert Next(0x100041060c011441) == 0x9b1e842f6e862629;
    hide Next;
    assert Draw(seed, 0) == 1;
    assert Draw(seed, 1) == Next(Draw(seed, 0));
    assert Draw(seed, 2) == Next(Draw(seed, 1));
    assert Draw(seed, 3) == Next(Draw(seed, 2));
  }

  /** The tape is the generator's states from the first draw on, as they are. */
  lemma TapeFollows(seed: bv64, i: nat)
    ensures SeedTape(seed)(0) == Next(if seed == 0 then 1 else seed) as nat
    ensures SeedTape(seed)(i) < 0x1_0000_0000_0000_0000
    ensures SeedTape(seed)(i + 1) == Next(SeedTape(seed)(i) as bv64) as nat
  {
    hide Next, Seeded, SeedTape, Draw;
    TapeIs(seed, 0);
    FirstState(seed);
    TapeIs(seed, i);
    TapeIs(seed, i + 1);
    WordBack(Draw(seed, i + 1));
  }

  lemma TapeIs(seed: bv64, i: nat)
    ensures SeedTape(seed)(i) == Draw(seed, i + 1) as nat && Draw(seed, i + 1) == Next(Draw(seed, i))
  {
    hide Next, Seeded;
  }

  lemma FirstState(seed: bv64)
    ensures Draw(seed, 0) == if seed == 0 then 1 else seed
  {
  }

  lemma WordBack(x: bv64)
    ensures (x as nat) as bv64 == x && x as nat < 0x1_0000_0000_0000_0000
  {
  }
}
