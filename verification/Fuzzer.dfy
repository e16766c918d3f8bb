/** Seeds for fuzzing: a 64-bit FNV-1a hash of the input, then consecutive seeds, one per schedule
    (rsched/src/lib.rs:1009-1045). Machine words are 64-bit vectors, so `wrapping_mul` and
    `wrapping_add` are the plain operators. */
module Fuzzer {
  import opened Prelude
  import Xorshift

  const FNV_OFFSET: bv64 := 0xcbf29ce484222325

  /** `wrapping_mul` by the FNV prime. */
  function TimesPrime(x: bv64): bv64 { x * 0x100000001b3 }

  /** Hashing in one byte. */
  function Absorb(hash: bv64, byte: bv8): bv64 {
    TimesPrime(hash ^ (byte as bv64))
  }

  function Fnv(data: seq<bv8>): bv64 {
    if data == [] then FNV_OFFSET
    else Absorb(Fnv(data[..|data| - 1]), data[|data| - 1])
  }

  /** The base seed of an input; a null data pointer is hashed as no bytes at all. */
  function InputHash(data: Option<seq<bv8>>, size: bv64): bv64 {
    Fnv(data.GetOr([])) ^ TimesPrime(size)
  }

  lemma FnvGrows(data: seq<bv8>, i: nat)
    requires i < |data|
    ensures Fnv(data[..i + 1]) == Absorb(Fnv(data[..i]), data[i])
  {
    assert data[..i + 1][..i] == data[..i];
  }

  method FuzzerInputHash(data: Option<seq<bv8>>, size: bv64) returns (hash: bv64)
    ensures hash == InputHash(data, size)
  {
    hide TimesPrime, Absorb;
    hash := FNV_OFFSET;
    if data.Some? {
      var i := 0;
      while i < |data.value|
        invariant i <= |data.value|
        invariant hash == Fnv(data.value[..i])
      {
        FnvGrows(data.value, i);
        hash := Absorb(hash, data.value[i]);
        i := i + 1;
      }
      assert data.value[..i] == data.value;
    }
    hash := hash ^ TimesPrime(size);
  }

  // ---------------------------------------------------------------- inputs that differ in one byte

  /** Multiplication by the inverse of the FNV prime modulo 2^64. */
  function UntimesPrime(y: bv64): bv64 { y * 0xce965057aff6957b }

  lemma PrimeInvertible(x: bv64)
    ensures UntimesPrime(TimesPrime(x)) == x
  {
    assert UntimesPrime(x * 0x100000001b3) == x;
    assert UntimesPrime(TimesPrime(x)) == x by { hide UntimesPrime; }
  }

  lemma XorCancels(a: bv64, b: bv64, c: bv64)
    ensures a ^ c == b ^ c <==> a == b
  {
  }

  lemma XorByte(a: bv64, x: bv8, y: bv8)
    ensures a ^ (x as bv64) == a ^ (y as bv64) <==> x == y
  {
  }

  /** Hashing in the same byte keeps hashes as equal or as different as they were; hashing
      different bytes into one hash makes a difference. */
  lemma AbsorbInjective(a: bv64, b: bv64, x: bv8, y: bv8)
    ensures Absorb(a, x) == Absorb(b, x) <==> a == b
    ensures Absorb(a, x) == Absorb(a, y) <==> x == y
  {
    hide TimesPrime, UntimesPrime;
    PrimeInvertible(a ^ (x as bv64));
    PrimeInvertible(b ^ (x as bv64));
    PrimeInvertible(a ^ (y as bv64));
    XorCancels(a, b, x as bv64);
    XorByte(a, x, y);
  }

  lemma {:induction false} CommonTail(a: seq<bv8>, b: seq<bv8>, tail: seq<bv8>)
    ensures Fnv(a + tail) == Fnv(b + tail) <==> Fnv(a) == Fnv(b)
  {
    hide Absorb;
    if tail == [] {
      assert a + tail == a && b + tail == b;
    } else {
      var n := |tail| - 1;
      assert (a + tail)[..|a| + n] == a + tail[..n] && (b + tail)[..|b| + n] == b + tail[..n];
      CommonTail(a, b, tail[..n]);
      AbsorbInjective(Fnv(a + tail[..n]), Fnv(b + tail[..n]), tail[n], tail[n]);
    }
  }

  /** Two inputs that agree but for one byte never get the same base seed. */
  lemma OneByteChangesSeed(head: seq<bv8>, x: bv8, y: bv8, tail: seq<bv8>, size: bv64)
    ensures InputHash(Some(head + [x] + tail), size) == InputHash(Some(head + [y] + tail), size) <==> x == y
  {
    hide Absorb, TimesPrime;
    XorCancels(Fnv(head + [x] + tail), Fnv(head + [y] + tail), TimesPrime(size));
    CommonTail(head + [x], head + [y], tail);
    assert (head + [x])[..|head|] == head && (head + [y])[..|head|] == head;
    AbsorbInjective(Fnv(head), Fnv(head), x, y);
  }

  // ---------------------------------------------------------------- the hash itself

  /** FNV-1a takes the byte in before it multiplies. */
  lemma AbsorbOrder(hash: bv64, byte: bv8)
    ensures UntimesPrime(Absorb(hash, byte)) == hash ^ (byte as bv64)
  {
    hide TimesPrime, UntimesPrime;
    PrimeInvertible(hash ^ (byte as bv64));
  }

  /** The published FNV-1a values of "", "a" and "ab". */
  lemma KnownHashes()
    ensures Fnv([]) == 0xcbf29ce484222325
    ensures Fnv([0x61]) == 0xaf63dc4c8601ec8c
    ensures Fnv([0x61, 0x62]) == 0x089c4407b545986a
  {
    hide Absorb;
    AbsorbA();
    AbsorbB();
    assert [0x61][..0] == [] && [0x61, 0x62][..1] == [0x61];
    assert Fnv([0x61]) == Absorb(Fnv([]), 0x61);
    assert Fnv([0x61, 0x62]) == Absorb(Fnv([0x61]), 0x62);
  }

  lemma AbsorbA()
    ensures Absorb(0xcbf29ce484222325, 0x61) == 0xaf63dc4c8601ec8c
  {
  }

  lemma AbsorbB()
    ensures Absorb(0xaf63dc4c8601ec8c, 0x62) == 0x089c4407b545986a
  {
  }

  /** The base seeds of no data, of three bytes that are not there, and of "a". */
  lemma KnownSeeds()
    ensures InputHash(None, 0) == 0xcbf29ce484222325
    ensures InputHash(None, 3) == 0xcbf29fe48422263c
    ensures InputHash(Some([0x61]), 1) == 0xaf63dd4c8601ed3f
  {
    KnownHashes();
    assert TimesPrime(0) == 0 && TimesPrime(3) == 0x30000000519 && TimesPrime(1) == 0x100000001b3;
    hide TimesPrime, Fnv;
  }

  // ---------------------------------------------------------------- the schedules of one input

  /** The seed of one schedule; additions wrap around. */
  function ScheduleSeed(base: bv64, schedule: bv64): bv64 {
    base + schedule
  }

  /** The schedule a seed belongs to. */
  function ScheduleOf(base: bv64, seed: bv64): bv64 {
    seed - base
  }

  lemma SeedTellsSchedule(base: bv64, schedule: bv64)
    ensures ScheduleOf(base, ScheduleSeed(base, schedule)) == schedule
  {
    assert ScheduleOf(base, base + schedule) == schedule;
    assert ScheduleOf(base, ScheduleSeed(base, schedule)) == schedule by { hide ScheduleOf; }
  }

  /** The seeds of one input start at its base seed and go up by one. */
  lemma NextSchedule(base: bv64, i: bv64)
    ensures ScheduleSeed(base, 0) == base && ScheduleSeed(base, i + 1) == ScheduleSeed(base, i) + 1
  {
  }

  lemma ZeroThenOne(base: bv64, i: bv64, j: bv64)
    requires ScheduleSeed(base, i) == 0
    ensures ScheduleSeed(base, j) == 1 <==> j == i + 1
  {
    hide ScheduleSeed, ScheduleOf;
    NextSchedule(base, i);
    SeedTellsSchedule(base, i + 1);
    SeedTellsSchedule(base, j);
  }

  lemma OneThenZero(base: bv64, i: bv64, j: bv64, schedules: bv64)
    requires i < j < schedules && ScheduleSeed(base, i) == 1
    ensures ScheduleSeed(base, j) != 0
  {
  }

  /** The schedules of one input start from, and after any number of draws are in, different
      generator states, except two consecutive ones whose seeds are 0 and 1. */
  lemma SchedulesDiffer(base: bv64, i: bv64, j: bv64, schedules: bv64, n: nat)
    requires i < j < schedules
    ensures Xorshift.Draw(ScheduleSeed(base, i), n) == Xorshift.Draw(ScheduleSeed(base, j), n)
            <==> ScheduleSeed(base, i) == 0 && j == i + 1
  {
    hide ScheduleSeed, ScheduleOf;
    var x, y := ScheduleSeed(base, i), ScheduleSeed(base, j);
    SeedTellsSchedule(base, i);
    SeedTellsSchedule(base, j);
    Xorshift.SeedsStayApart(x, y, n);
    if x == 0 {
      ZeroThenOne(base, i, j);
    } else if x == 1 {
      OneThenZero(base, i, j, schedules);
    }
  }
}
