/** How often the random walk takes each thread: the forward scan weights a thread by the run of
    blocking entries just before it (rsched/src/scheduler.rs:32-34, 57-73). */
module Bias {
  import opened Prelude
  import opened Choice

  /** `k` places before `j`, going round. */
  function Back(n: nat, j: nat, k: nat): (i: nat)
    requires j < n && k < n
    ensures i < n && Ahead(n, i, j) == k
  {
    if k <= j then j - k else j + n - k
  }

  /** Length of the run of blocking entries just before `j`, going round, counted from `k` on. */
  function GapFrom(blocking: seq<bool>, j: nat, k: nat): (g: nat)
    requires j < |blocking| && k < |blocking|
    ensures k <= g < |blocking|
    decreases |blocking| - k
  {
    if k + 1 == |blocking| || !blocking[Back(|blocking|, j, k + 1)] then k
    else GapFrom(blocking, j, k + 1)
  }

  function Gap(blocking: seq<bool>, j: nat): nat
    requires j < |blocking|
  {
    GapFrom(blocking, j, 0)
  }

  lemma {:induction false} GapMeans(blocking: seq<bool>, j: nat, k: nat)
    requires j < |blocking| && k < |blocking|
    ensures forall i :: k < i <= GapFrom(blocking, j, k) ==> blocking[Back(|blocking|, j, i)]
    ensures GapFrom(blocking, j, k) + 1 < |blocking| ==> !blocking[Back(|blocking|, j, GapFrom(blocking, j, k) + 1)]
    decreases |blocking| - k
  {
    if k + 1 < |blocking| && blocking[Back(|blocking|, j, k + 1)] {
      GapMeans(blocking, j, k + 1);
    }
  }

  // ---------------------------------------------------------------- which starts select j

  lemma BehindIsBack(n: nat, start: nat, k: nat, j: nat)
    requires start < n && k < n && j < n && Ahead(n, start, k) < Ahead(n, start, j)
    ensures k == Back(n, j, Ahead(n, start, j) - Ahead(n, start, k))
  {
  }

  /** A start selects `j` exactly when it is `j` itself or one of the blocking entries of the run before it. */
  lemma PickedWhen(blocking: seq<bool>, start: nat, j: nat)
    requires start < |blocking| && j < |blocking| && !blocking[j]
    ensures Pick(blocking, start) == Some(j) <==> Ahead(|blocking|, start, j) <= Gap(blocking, j)
  {
    var n, g, a := |blocking|, Gap(blocking, j), Ahead(|blocking|, start, j);
    ScanStops(blocking, start, 0, j);
    GapMeans(blocking, j, 0);
    if a <= g {
      forall k | 0 <= k < n && 0 <= Ahead(n, start, k) < a ensures blocking[k] { BehindIsBack(n, start, k, j); }
    } else {
      var k := Back(n, j, g + 1);
      assert !blocking[k] && Ahead(n, start, k) == a - (g + 1);
    }
  }

  ghost function StartsFor(blocking: seq<bool>, j: nat): set<nat> {
    set s: nat | s < |blocking| && Pick(blocking, s) == Some(j)
  }

  ghost function Before(n: nat, j: nat, d: nat): set<nat>
    requires j < n
  {
    set s: nat | s < n && Ahead(n, s, j) <= d
  }

  lemma BeforeGrows(n: nat, j: nat, d: nat)
    requires j < n && 0 < d < n
    ensures Back(n, j, d) !in Before(n, j, d - 1) && Before(n, j, d) == Before(n, j, d - 1) + {Back(n, j, d)}
  {
    var b := Back(n, j, d);
    forall s: nat | s < n ensures Ahead(n, s, j) == d <==> s == b {}
  }

  lemma BeforeNone(n: nat, j: nat)
    requires j < n
    ensures Before(n, j, 0) == {j}
  {
  }

  lemma {:induction false} BeforeSize(n: nat, j: nat, d: nat)
    requires j < n && d < n
    ensures |Before(n, j, d)| == d + 1
  {
    hide Before, Back;
    if d == 0 {
      BeforeNone(n, j);
    } else {
      BeforeSize(n, j, d - 1);
      BeforeGrows(n, j, d);
    }
  }

  /** An eligible entry is selected by one start more than the blocking entries just before it. */
  lemma StartsCount(blocking: seq<bool>, j: nat)
    requires j < |blocking| && !blocking[j]
    ensures |StartsFor(blocking, j)| == 1 + Gap(blocking, j)
  {
    forall s: nat | s < |blocking| ensures s in StartsFor(blocking, j) <==> s in Before(|blocking|, j, Gap(blocking, j)) {
      PickedWhen(blocking, s, j);
    }
    assert StartsFor(blocking, j) == Before(|blocking|, j, Gap(blocking, j));
    BeforeSize(|blocking|, j, Gap(blocking, j));
  }

  /** The weights of the eligible entries below `k`. */
  function WeightSum(blocking: seq<bool>, k: nat): nat
    requires k <= |blocking|
  {
    if k == 0 then 0
    else WeightSum(blocking, k - 1) + if blocking[k - 1] then 0 else 1 + Gap(blocking, k - 1)
  }

  ghost function StartsBelow(blocking: seq<bool>, k: nat): set<nat> {
    set s: nat | s < |blocking| && Pick(blocking, s).Some? && Pick(blocking, s).value < k
  }

  lemma {:induction false} WeightSumCounts(blocking: seq<bool>, k: nat)
    requires k <= |blocking|
    ensures WeightSum(blocking, k) == |StartsBelow(blocking, k)|
  {
    if k == 0 {
      assert StartsBelow(blocking, 0) == {};
    } else {
      WeightSumCounts(blocking, k - 1);
      assert StartsBelow(blocking, k) == StartsBelow(blocking, k - 1) + StartsFor(blocking, k - 1);
      if blocking[k - 1] {
        assert StartsFor(blocking, k - 1) == {};
      } else {
        StartsCount(blocking, k - 1);
      }
    }
  }

  /** The weights share out all the starts, unless every entry is blocking. */
  lemma WeightsShareStarts(blocking: seq<bool>)
    ensures WeightSum(blocking, |blocking|) == if exists j :: 0 <= j < |blocking| && !blocking[j] then |blocking| else 0
  {
    WeightSumCounts(blocking, |blocking|);
    if exists j :: 0 <= j < |blocking| && !blocking[j] {
      BeforeSize(|blocking|, 0, |blocking| - 1);
      assert StartsBelow(blocking, |blocking|) == Before(|blocking|, 0, |blocking| - 1);
    } else {
      assert StartsBelow(blocking, |blocking|) == {};
    }
  }

  // ---------------------------------------------------------------- which words select j

  /** The words below `total` that reduce to a start in `starts`. */
  ghost function Words(total: nat, n: nat, starts: set<nat>): set<nat>
    requires n > 0
  {
    set w: nat | w < total && w % n in starts
  }

  /** How often the words below `total` reduce to one start index. */
  function Share(total: nat, n: nat, s: nat): nat
    requires n > 0
  {
    total / n + if s < total % n then 1 else 0
  }

  lemma StepDivMod(total: nat, n: nat)
    requires n > 0
    ensures if total % n + 1 == n then (total + 1) / n == total / n + 1 && (total + 1) % n == 0
            else (total + 1) / n == total / n && (total + 1) % n == total % n + 1
  {
    var q, r := total / n, total % n;
    if r + 1 == n {
      Times(q, q + 1, n);
      DivModUnique(total + 1, n, q + 1, 0);
    } else {
      DivModUnique(total + 1, n, q, r + 1);
    }
  }

  lemma SameQuotient(n: nat, q: nat, r: nat, q': nat, r': nat)
    requires r < n && r' < n && q * n + r == q' * n + r'
    ensures q == q' && r == r'
  {
    if q > q' {
      Times(q', q' + 1, n);
      Times(q' + 1, q, n);
    } else if q < q' {
      Times(q, q + 1, n);
      Times(q + 1, q', n);
    }
  }

  lemma Times(a: nat, b: nat, n: nat)
    requires a <= b
    ensures a * n <= b * n
    ensures b == a + 1 ==> b * n == a * n + n
  {
  }

  lemma DivModUnique(x: nat, n: nat, q: nat, r: nat)
    requires r < n && x == q * n + r
    ensures x / n == q && x % n == r
  {
    SameQuotient(n, q, r, x / n, x % n);
  }

  lemma ShareGrows(total: nat, n: nat, s: nat)
    requires n > 0 && s < n
    ensures Share(total + 1, n, s) == Share(total, n, s) + if total % n == s then 1 else 0
  {
    StepDivMod(total, n);
  }

  lemma WordsGrow(total: nat, n: nat, s: nat)
    requires n > 0
    ensures |Words(total + 1, n, {s})| == |Words(total, n, {s})| + if total % n == s then 1 else 0
  {
    assert Words(total + 1, n, {s}) == Words(total, n, {s}) + if total % n == s then {total} else {};
  }

  /** Each start index is hit by its share of the words. */
  lemma {:induction false} StartShare(total: nat, n: nat, s: nat)
    requires n > 0 && s < n
    ensures |Words(total, n, {s})| == Share(total, n, s)
  {
    if total == 0 {
      assert Words(0, n, {s}) == {};
    } else {
      StartShare(total - 1, n, s);
      ShareGrows(total - 1, n, s);
      WordsGrow(total - 1, n, s);
    }
  }

  function Ceiling(total: nat, n: nat): nat
    requires n > 0
  {
    total / n + if total % n > 0 then 1 else 0
  }

  lemma SplitWords(total: nat, n: nat, starts: set<nat>, s: nat)
    requires n > 0 && s in starts
    ensures |Words(total, n, starts)| == |Words(total, n, starts - {s})| + |Words(total, n, {s})|
  {
    var rest, one := Words(total, n, starts - {s}), Words(total, n, {s});
    assert Words(total, n, starts) == rest + one && rest !! one;
  }

  ghost function Below(starts: set<nat>, r: nat): set<nat> {
    set s | s in starts && s < r
  }

  lemma {:induction false} WordsSum(total: nat, n: nat, starts: set<nat>, q: nat, r: nat)
    requires n > 0 && forall s :: s in starts ==> |Words(total, n, {s})| == q + if s < r then 1 else 0
    ensures |Words(total, n, starts)| == |starts| * q + |Below(starts, r)|
  {
    if starts == {} {
      assert Words(total, n, {}) == {} && Below({}, r) == {};
    } else {
      var s :| s in starts;
      var rest := starts - {s};
      WordsSum(total, n, rest, q, r);
      SplitWords(total, n, starts, s);
      SplitBelow(starts, s, r);
      assert |starts| == |rest| + 1;
      Times(|rest|, |rest| + 1, q);
    }
  }

  /** The words that reduce to a set of starts, counted exactly. */
  lemma WordsExact(total: nat, n: nat, starts: set<nat>)
    requires n > 0 && forall s :: s in starts ==> s < n
    ensures |Words(total, n, starts)| == |starts| * (total / n) + |Below(starts, total % n)|
  {
    forall s | s in starts ensures |Words(total, n, {s})| == total / n + if s < total % n then 1 else 0 {
      StartShare(total, n, s);
    }
    WordsSum(total, n, starts, total / n, total % n);
  }

  lemma SplitBelow(starts: set<nat>, s: nat, r: nat)
    requires s in starts
    ensures |Below(starts, r)| == |Below(starts - {s}, r)| + if s < r then 1 else 0
  {
    assert Below(starts, r) == Below(starts - {s}, r) + if s < r then {s} else {};
  }

  const ALL_WORDS := 0x1_0000_0000_0000_0000

  /** The 64-bit words that make the walk take entry `j`. */
  ghost function WordsFor(blocking: seq<bool>, j: nat): set<nat>
    requires |blocking| > 0
  {
    set w: nat | w < ALL_WORDS && Pick(blocking, w % |blocking|) == Some(j)
  }

  /** The starts selecting `j` that one word more reduces to than to the others, because n does not divide 2^64. */
  ghost function Favoured(blocking: seq<bool>, j: nat): set<nat>
    requires |blocking| > 0
  {
    Below(StartsFor(blocking, j), ALL_WORDS % |blocking|)
  }

  /** How many words take an eligible entry: one share of them for each start that selects it, and
      one more for each of these that is favoured. */
  lemma WordsCount(blocking: seq<bool>, j: nat)
    requires j < |blocking| && !blocking[j]
    ensures |WordsFor(blocking, j)| == (1 + Gap(blocking, j)) * (ALL_WORDS / |blocking|) + |Favoured(blocking, j)|
  {
    StartsCount(blocking, j);
    WordsExact(ALL_WORDS, |blocking|, StartsFor(blocking, j));
    assert WordsFor(blocking, j) == Words(ALL_WORDS, |blocking|, StartsFor(blocking, j));
  }

  /** Over all 64-bit words an eligible entry is taken once per start that selects it, up to the
      rounding of 2^64 / n. */
  lemma BiasBound(blocking: seq<bool>, j: nat)
    requires j < |blocking| && !blocking[j]
    ensures var d, n := 1 + Gap(blocking, j), |blocking|;
      d * (ALL_WORDS / n) <= |WordsFor(blocking, j)| <= d * Ceiling(ALL_WORDS, n)
  {
    var starts, favoured := StartsFor(blocking, j), Favoured(blocking, j);
    WordsCount(blocking, j);
    StartsCount(blocking, j);
    SubsetFills(favoured, starts);
    Rounded(|starts|, ALL_WORDS / |blocking|);
    assert ALL_WORDS % |blocking| == 0 ==> favoured == {};
  }

  lemma Rounded(d: nat, q: nat)
    ensures d * (q + 1) == d * q + d
  {
  }

  // ---------------------------------------------------------------- when the selection is uniform

  /** Two eligible entries are taken by equally many starts exactly when equally long runs of
      blocking entries precede them; but starts are not equally likely. */
  lemma SameStartsWhen(blocking: seq<bool>, i: nat, j: nat)
    requires i < |blocking| && j < |blocking| && !blocking[i] && !blocking[j]
    ensures |StartsFor(blocking, i)| == |StartsFor(blocking, j)| <==> Gap(blocking, i) == Gap(blocking, j)
  {
    StartsCount(blocking, i);
    StartsCount(blocking, j);
  }

  /** Two eligible entries are taken by equally many of the 2^64 words exactly when equally long runs
      of blocking entries precede them and equally many of the starts selecting them are favoured.
      Threads have 32-bit ids, so there are fewer than 2^32 entries. */
  lemma SameWordsWhen(blocking: seq<bool>, i: nat, j: nat)
    requires i < |blocking| && j < |blocking| < 0x1_0000_0000 && !blocking[i] && !blocking[j]
    ensures |WordsFor(blocking, i)| == |WordsFor(blocking, j)| <==>
              Gap(blocking, i) == Gap(blocking, j) && |Favoured(blocking, i)| == |Favoured(blocking, j)|
  {
    var n := |blocking|;
    WordsCount(blocking, i);
    WordsCount(blocking, j);
    FewFavoured(blocking, i);
    FewFavoured(blocking, j);
    if |WordsFor(blocking, i)| == |WordsFor(blocking, j)| {
      SameQuotient(ALL_WORDS / n, 1 + Gap(blocking, i), |Favoured(blocking, i)|, 1 + Gap(blocking, j), |Favoured(blocking, j)|);
    }
  }

  /** A start has more words than there are favoured starts. */
  lemma FewFavoured(blocking: seq<bool>, j: nat)
    requires 0 < |blocking| < 0x1_0000_0000
    ensures |Favoured(blocking, j)| < ALL_WORDS / |blocking|
  {
    var n := |blocking|;
    BeforeSize(n, 0, n - 1);
    SubsetFills(Favoured(blocking, j), Before(n, 0, n - 1));
    ShareIsLarge(n);
  }

  lemma ShareIsLarge(n: nat)
    requires 0 < n < 0x1_0000_0000
    ensures ALL_WORDS / n > n
  {
    var q := ALL_WORDS / n;
    assert ALL_WORDS < n * q + n;
    if q <= n {
      Times(q, n, n);
      Times(n + 1, 0x1_0000_0000, n);
    }
  }

  /** The selection is uniform over the eligible entries, as far as equally many words take each of them. */
  ghost predicate Uniform(blocking: seq<bool>)
    requires |blocking| > 0
  {
    forall i: nat, j: nat :: i < |blocking| && j < |blocking| && !blocking[i] && !blocking[j] ==>
      |WordsFor(blocking, i)| == |WordsFor(blocking, j)|
  }

  /** Exactly when it is. */
  lemma UniformWhen(blocking: seq<bool>)
    requires 0 < |blocking| < 0x1_0000_0000
    ensures Uniform(blocking) <==>
      forall i: nat, j: nat :: i < |blocking| && j < |blocking| && !blocking[i] && !blocking[j] ==>
        Gap(blocking, i) == Gap(blocking, j) && |Favoured(blocking, i)| == |Favoured(blocking, j)|
  {
    hide WordsFor, Favoured, Gap;
    forall i: nat, j: nat | i < |blocking| && j < |blocking| && !blocking[i] && !blocking[j]
      ensures |WordsFor(blocking, i)| == |WordsFor(blocking, j)| <==>
                Gap(blocking, i) == Gap(blocking, j) && |Favoured(blocking, i)| == |Favoured(blocking, j)|
    {
      SameWordsWhen(blocking, i, j);
    }
  }

  /** When n divides 2^64 starts are equally likely, and equally long runs are enough. */
  lemma UniformPowers(blocking: seq<bool>)
    requires 0 < |blocking| < 0x1_0000_0000 && ALL_WORDS % |blocking| == 0
    ensures Uniform(blocking) <==>
      forall i: nat, j: nat :: i < |blocking| && j < |blocking| && !blocking[i] && !blocking[j] ==>
        Gap(blocking, i) == Gap(blocking, j)
  {
    UniformWhen(blocking);
    forall j: nat ensures Favoured(blocking, j) == {} {}
  }

  /** It is not uniform when runs of different length precede: of these two eligible entries the
      second has two starts in three. */
  lemma NotUniform()
    ensures var blocking := [false, true, false];
      |StartsFor(blocking, 0)| == 1 && |StartsFor(blocking, 2)| == 2 && !Uniform(blocking)
  {
    var blocking := [false, true, false];
    StartsCount(blocking, 0);
    StartsCount(blocking, 2);
    assert !blocking[Back(3, 0, 1)];
    assert blocking[Back(3, 2, 1)] && !blocking[Back(3, 2, 2)];
    assert GapFrom(blocking, 2, 1) == 1;
    SameWordsWhen(blocking, 0, 2);
  }

  /** Nor when no entry blocks at all: 2^64 leaves remainder 1 modulo 3, so the first of three entries
      has one word more than the others. */
  lemma NotUniformUnblocked()
    ensures var blocking := [false, false, false];
      && Gap(blocking, 0) == Gap(blocking, 1) == Gap(blocking, 2) == 0
      && |WordsFor(blocking, 0)| == |WordsFor(blocking, 1)| + 1 == |WordsFor(blocking, 2)| + 1
      && !Uniform(blocking)
  {
    var blocking := [false, false, false];
    assert !blocking[Back(3, 0, 1)] && !blocking[Back(3, 1, 1)] && !blocking[Back(3, 2, 1)];
    forall j: nat | j < 3 ensures StartsFor(blocking, j) == {j} {
      forall s: nat | s < 3 ensures Pick(blocking, s) == Some(s) { PickedWhen(blocking, s, s); }
    }
    WordsCount(blocking, 0);
    WordsCount(blocking, 1);
    WordsCount(blocking, 2);
    assert Favoured(blocking, 0) == {0} && Favoured(blocking, 1) == {} && Favoured(blocking, 2) == {};
  }
}
