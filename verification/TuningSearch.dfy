/** The search that tuning performs, as functions of a yes-or-no oracle, and what it finds. */
module TuningSearch {
  import opened Options

  /** The Tunable Flags: context length and GPU offload. */
  datatype Flags = Flags(ctxLen: nat, offload: nat)

  /** Whether a launch with these flags comes up. */
  type Oracle = Flags -> bool

  const TWO63 := 0x8000_0000_0000_0000
  const TWO64 := 0x1_0000_0000_0000_0000

  type uint64 = n: int | 0 <= n < TWO64

  // ----- The context ladder

  const STEPS: seq<nat> := [32768, 16384, 8192, 4096, 2048, 1024, 512]

  function RequestedCtx(contextLength: nat): nat {
    if contextLength == 0 then 2048 else contextLength
  }

  function MaxOffload(blockCount: uint64): uint64 {
    if blockCount == 0 then 100 else blockCount
  }

  /** One turn of the loop that builds the ladder. */
  function Climb(ladder: seq<nat>, ctxLen: nat, step: nat): seq<nat> {
    if step <= ctxLen && (ladder == [] || ladder[|ladder| - 1] != step) then ladder + [step] else ladder
  }

  function ClimbAll(ladder: seq<nat>, ctxLen: nat, steps: seq<nat>): seq<nat>
    decreases |steps|
  {
    if steps == [] then ladder else ClimbAll(Climb(ladder, ctxLen, steps[0]), ctxLen, steps[1..])
  }

  function Ladder(ctxLen: nat): seq<nat> {
    ClimbAll([], ctxLen, [ctxLen] + STEPS)
  }

  predicate Descending(s: seq<nat>) {
    forall i, j | 0 <= i < j < |s| :: s[i] > s[j]
  }

  lemma {:induction false} ClimbAllShape(ladder: seq<nat>, ctxLen: nat, steps: seq<nat>)
    requires Descending(ladder) && Descending(steps) && ladder != [] && ladder[0] == ctxLen
    requires var last := ladder[|ladder| - 1]; last == ctxLen || (steps != [] ==> last > steps[0])
    ensures var r := ClimbAll(ladder, ctxLen, steps);
            && Descending(r) && |ladder| <= |r| <= |ladder| + |steps| && r[0] == ctxLen
            && forall c :: c in r <==> c in ladder || (c in steps && c <= ctxLen)
    decreases |steps|
  {
    if steps != [] {
      var next := Climb(ladder, ctxLen, steps[0]);
      assert forall c :: c in steps <==> c == steps[0] || c in steps[1..];
      assert forall c :: c in next <==> c in ladder || (c == steps[0] && c <= ctxLen);
      ClimbAllShape(next, ctxLen, steps[1..]);
    }
  }

  /** The ladder starts at the requested context, strictly descends, has at most eight rungs,
      and its rungs are the request and the standard lengths below it. */
  lemma LadderShape(ctxLen: nat)
    requires ctxLen > 0
    ensures var ladder := Ladder(ctxLen);
            && 1 <= |ladder| <= 8 && ladder[0] == ctxLen && Descending(ladder)
            && forall c :: c in ladder <==> c == ctxLen || (c in [512, 1024, 2048, 4096, 8192, 16384, 32768] && c <= ctxLen)
  {
    var steps := [ctxLen] + STEPS;
    assert steps[1..] == STEPS && steps[0] == ctxLen;
    assert Climb([], ctxLen, ctxLen) == [ctxLen];
    ClimbAllShape([ctxLen], ctxLen, STEPS);
    assert Ladder(ctxLen) == ClimbAll([ctxLen], ctxLen, STEPS);
    assert forall c :: c in STEPS <==> c in [512, 1024, 2048, 4096, 8192, 16384, 32768];
  }

  // ----- Machine integers

  const MAX_INT := TWO63 - 1
  const MIN_INT := -TWO63

  /** What an `int` of 64 bits makes of a number. */
  function Wrap(i: int): int {
    var low := i % TWO64;
    if low < TWO63 then low else low - TWO64
  }

  /** `uint64(i)`. */
  function AsUint(i: int): nat {
    i % TWO64
  }

  /** Division by two, which truncates toward zero. */
  function Half(i: int): int {
    if i >= 0 then i / 2 else -((-i) / 2)
  }

  /** The upper end with which the bisection starts. */
  function High(maxOffload: uint64): int {
    Wrap(Wrap(maxOffload) - 1)
  }

  lemma HighRange(maxOffload: uint64)
    ensures maxOffload <= TWO63 ==> High(maxOffload) == maxOffload - 1
    ensures maxOffload > TWO63 ==> High(maxOffload) < 0
  {
  }

  function Mid(low: int, high: int): int {
    Wrap(low + Half(Wrap(high - low)))
  }

  // ----- Bisection of one rung

  /** What a search comes to: a result, nothing, or no end. */
  datatype Sought<+T> = Best(value: T) | Nothing | Endless

  /** The variables of the bisection. */
  datatype Span = Span(low: int, high: int, best: Option<nat>)

  /** One turn of the loop, in machine arithmetic. */
  function Turn(fits: nat -> bool, s: Span): Span {
    var mid := Mid(s.low, s.high);
    if fits(AsUint(mid)) then Span(Wrap(mid + 1), s.high, Some(AsUint(mid)))
    else Span(s.low, Wrap(mid - 1), s.best)
  }

  /** The loop after `n` turns, or where it ended before. */
  function Turns(fits: nat -> bool, s: Span, n: nat): Span
    decreases n
  {
    if n == 0 || s.low > s.high then s else Turns(fits, Turn(fits, s), n - 1)
  }

  function FitsAt(fits: Oracle, ctxLen: nat): nat -> bool {
    (offload: nat) => fits(Flags(ctxLen, offload))
  }

  function Middle(low: nat, high: int): (mid: nat)
    requires low <= high
    ensures low <= mid <= high
  {
    low + (high - low) / 2
  }

  /** What the loop comes to. Before `low` overflows, the best offload so far is `low - 1`. */
  function Bisect(fits: nat -> bool, low: nat, high: int): Sought<nat>
    decreases high - low + 1
  {
    if low > high then (if low == 0 then Nothing else Best(low - 1))
    else
      var mid := Middle(low, high);
      if !fits(mid) then Bisect(fits, low, mid - 1)
      else if mid == MAX_INT then Endless
      else Bisect(fits, mid + 1, high)
  }

  /** Once `low` has overflowed, the loop goes round between these two states. */
  predicate Overflown(low: int, high: int) {
    high == MAX_INT && (low == MIN_INT || low == MIN_INT + 1)
  }

  lemma WrapIs(i: int)
    ensures MIN_INT <= i <= MAX_INT ==> Wrap(i) == i
    ensures MAX_INT < i <= MAX_INT + TWO64 ==> Wrap(i) == i - TWO64
    ensures MIN_INT - TWO64 <= i < MIN_INT ==> Wrap(i) == i + TWO64
    ensures 0 <= i <= MAX_INT ==> AsUint(i) == i
    ensures MIN_INT <= i < 0 ==> AsUint(i) == i + TWO64
  {
  }

  /** Until `low` overflows, the middle is the usual one. */
  lemma MidOf(low: int, high: int)
    requires 0 <= low <= high <= MAX_INT
    ensures Mid(low, high) == Middle(low, high) == AsUint(Mid(low, high))
    ensures forall i | MIN_INT <= i <= MAX_INT :: Wrap(i) == i
    ensures Wrap(MAX_INT + 1) == MIN_INT
  {
    forall i | MIN_INT <= i <= MAX_INT
      ensures Wrap(i) == i
    {
      WrapIs(i);
    }
    WrapIs(MAX_INT + 1);
    WrapIs(Middle(low, high));
    hide Wrap, AsUint;
  }

  /** After that it is the smallest `int`, which as an offload is 2^63. */
  lemma MidOverflown(low: int, high: int)
    requires Overflown(low, high)
    ensures Mid(low, high) == MIN_INT && AsUint(MIN_INT) == TWO63
    ensures Wrap(MIN_INT - 1) == MAX_INT && Wrap(MIN_INT + 1) == MIN_INT + 1
  {
    WrapIs(high - low);
    WrapIs(MIN_INT);
    WrapIs(MIN_INT - 1);
    WrapIs(MIN_INT + 1);
    hide Wrap, AsUint;
  }

  /** Where the next turn goes from here, one way or the other. */
  lemma NextSpan(low: int, high: int)
    requires (0 <= low <= high <= MAX_INT) || Overflown(low, high)
    ensures var mid, up, down := Mid(low, high), Wrap(Mid(low, high) + 1), Wrap(Mid(low, high) - 1);
            if 0 <= low then
              && AsUint(mid) == mid == Middle(low, high) && down == mid - 1
              && (if mid == MAX_INT then Overflown(up, high) else up == mid + 1)
            else Overflown(up, high) && Overflown(low, down)
    ensures forall l, h :: Overflown(l, h) ==> l < 0 && l <= h
  {
    if 0 <= low {
      MidOf(low, high);
    } else {
      MidOverflown(low, high);
    }
    hide Wrap, Mid, AsUint;
  }

  lemma {:induction false} NeverEnds(fits: nat -> bool, s: Span, n: nat)
    requires Overflown(s.low, s.high)
    ensures var e := Turns(fits, s, n); Overflown(e.low, e.high)
    decreases n
  {
    MidOverflown(s.low, s.high);
    hide Wrap, Mid, AsUint;
    if n > 0 {
      NeverEnds(fits, Turn(fits, s), n - 1);
    }
  }

  function BestBelow(low: nat): Option<nat> {
    if low == 0 then None else Some(low - 1)
  }

  /** The loop ends after some number of turns with this result, or it never ends. */
  ghost predicate ComesTo(fits: nat -> bool, s: Span, turns: nat, r: Sought<nat>) {
    match r
    case Endless => forall n: nat :: var e := Turns(fits, s, n); e.low <= e.high
    case Nothing => var e := Turns(fits, s, turns); e.low > e.high && e.best == None
    case Best(b) => var e := Turns(fits, s, turns); e.low > e.high && e.best == Some(b)
  }

  lemma ComesToAfter(fits: nat -> bool, s: Span, turns: nat, r: Sought<nat>)
    requires s.low <= s.high && ComesTo(fits, Turn(fits, s), turns, r)
    ensures ComesTo(fits, s, turns + 1, r)
  {
    hide Turn;
    if r.Endless? {
      forall n: nat
        ensures var e := Turns(fits, s, n); e.low <= e.high
      {
        if n > 0 {
          assert var e := Turns(fits, Turn(fits, s), n - 1); e.low <= e.high;
        }
      }
    }
  }

  lemma OverflownEndless(fits: nat -> bool, s: Span, turns: nat)
    requires Overflown(s.low, s.high)
    ensures ComesTo(fits, s, turns, Endless)
  {
    forall n: nat
      ensures var e := Turns(fits, s, n); e.low <= e.high
    {
      NeverEnds(fits, s, n);
    }
  }

  lemma TurnOf(fits: nat -> bool, s: Span)
    requires 0 <= s.low <= s.high <= MAX_INT
    ensures var mid := Middle(s.low, s.high);
            Turn(fits, s) == if !fits(mid) then Span(s.low, mid - 1, s.best)
                             else Span(if mid == MAX_INT then MIN_INT else mid + 1, s.high, Some(mid))
  {
    MidOf(s.low, s.high);
    hide Mid, Wrap, AsUint, Middle;
  }

  /** The bisection function is what the loop in machine arithmetic comes to, overflow and all,
      and if the loop ends at all it takes no more turns than the range has binary digits. */
  lemma {:induction false} BisectIsLoop(fits: nat -> bool, low: nat, high: int) returns (turns: nat)
    requires low <= high + 1 && high <= MAX_INT
    ensures ComesTo(fits, Span(low, high, BestBelow(low)), turns, Bisect(fits, low, high))
    ensures !Bisect(fits, low, high).Endless? ==> turns <= Digits(high + 1 - low)
    decreases high - low + 1
  {
    hide Bisect, Turn, ComesTo, Digits, Middle;
    var s := Span(low, high, BestBelow(low));
    if low > high {
      LoopOver(fits, low, high);
      return 0;
    }
    var mid: int := Middle(low, high);
    TurnOf(fits, s);
    BisectTurns(fits, low, high);
    turns := 0;
    if !fits(mid) {
      turns := BisectIsLoop(fits, low, mid - 1);
    } else if mid == MAX_INT {
      OverflownEndless(fits, Turn(fits, s), turns);
    } else {
      turns := BisectIsLoop(fits, mid + 1, high);
    }
    HalvingDigits(low, high);
    ComesToAfter(fits, s, turns, Bisect(fits, low, high));
    turns := turns + 1;
  }

  lemma LoopOver(fits: nat -> bool, low: nat, high: int)
    requires low > high
    ensures ComesTo(fits, Span(low, high, BestBelow(low)), 0, Bisect(fits, low, high))
  {
  }

  /** Whatever the oracle answers, the result is bracketed: it fits, and one more does not.
      Only the largest `int` can overflow. */
  lemma {:induction false} BisectBrackets(fits: nat -> bool, low: nat, high: int)
    requires low <= high + 1 && high <= MAX_INT
    ensures match Bisect(fits, low, high)
            case Nothing => low == 0 && (high >= 0 ==> !fits(0))
            case Best(b) => low - 1 <= b <= high && (b >= low ==> fits(b)) && (b < high ==> !fits(b + 1))
            case Endless => high == MAX_INT && fits(MAX_INT)
    decreases high - low + 1
  {
    hide Middle;
    if low <= high {
      var mid := Middle(low, high);
      if !fits(mid) {
        BisectBrackets(fits, low, mid - 1);
      } else if mid < MAX_INT {
        BisectBrackets(fits, mid + 1, high);
      }
    }
  }

  /** If every offload fits up to the largest `int`, the bisection has no end. */
  lemma {:induction false} BisectOverflows(fits: nat -> bool, low: nat)
    requires low <= MAX_INT && forall o: nat | o <= MAX_INT :: fits(o)
    ensures Bisect(fits, low, MAX_INT).Endless?
    decreases MAX_INT - low
  {
    hide Middle;
    var mid := Middle(low, MAX_INT);
    if mid < MAX_INT {
      BisectOverflows(fits, mid + 1);
    }
  }

  lemma BisectTurns(fits: nat -> bool, low: nat, high: int)
    requires low <= high
    ensures var mid: int := Middle(low, high);
            Bisect(fits, low, high) == if !fits(mid) then Bisect(fits, low, mid - 1)
                                       else if mid == MAX_INT then Endless else Bisect(fits, mid + 1, high)
  {
  }

  lemma BisectEnds(fits: nat -> bool, low: nat, high: int)
    requires low > high
    ensures Bisect(fits, low, high) == if low == 0 then Nothing else Best(low - 1)
  {
  }

  function SearchRung(fits: Oracle, ctxLen: nat, maxOffload: uint64): Sought<nat> {
    if fits(Flags(ctxLen, maxOffload)) then Best(maxOffload) else Bisect(FitsAt(fits, ctxLen), 0, High(maxOffload))
  }

  /** Rung by rung, the first that yields anything. */
  function Search(fits: Oracle, ladder: seq<nat>, maxOffload: uint64): Sought<Flags> {
    if ladder == [] then Nothing
    else
      match SearchRung(fits, ladder[0], maxOffload)
      case Best(offload) => Best(Flags(ladder[0], offload))
      case Nothing => Search(fits, ladder[1..], maxOffload)
      case Endless => Endless
  }

  // ----- Optimality

  /** If some offload fits, so does every smaller one at the same context. */
  ghost predicate DownClosed(fits: Oracle) {
    forall c: nat, o: nat, o': nat | o' <= o && fits(Flags(c, o)) :: fits(Flags(c, o'))
  }

  /** The search ended, and `r` is the lexicographically greatest pair that fits; there is none
      if nothing fits. */
  ghost predicate IsBest(fits: Oracle, ladder: seq<nat>, maxOffload: uint64, r: Sought<Flags>) {
    && !r.Endless?
    && (r.Best? ==> r.value.ctxLen in ladder && r.value.offload <= maxOffload && fits(r.value))
    && forall c: nat, o: nat | c in ladder && o <= maxOffload && fits(Flags(c, o)) ::
         r.Best? && (c < r.value.ctxLen || (c == r.value.ctxLen && o <= r.value.offload))
  }

  lemma RungBest(fits: Oracle, ctxLen: nat, maxOffload: uint64)
    requires DownClosed(fits) && maxOffload <= TWO63 && !SearchRung(fits, ctxLen, maxOffload).Endless?
    ensures var r := SearchRung(fits, ctxLen, maxOffload);
            && (r.Best? ==> r.value <= maxOffload && fits(Flags(ctxLen, r.value)))
            && forall o: nat | o <= maxOffload && fits(Flags(ctxLen, o)) :: r.Best? && o <= r.value
  {
    HighRange(maxOffload);
    BisectBrackets(FitsAt(fits, ctxLen), 0, High(maxOffload));
    hide High;
    assert forall b: nat :: FitsAt(fits, ctxLen)(b) == fits(Flags(ctxLen, b));
  }

  /** A rung is searched without end exactly when 2^63 is the top, does not fit, and everything
      below it does. */
  lemma EndlessExactlyWhen(fits: Oracle, ctxLen: nat, maxOffload: uint64)
    requires DownClosed(fits)
    ensures SearchRung(fits, ctxLen, maxOffload).Endless?
       <==> maxOffload == TWO63 && !fits(Flags(ctxLen, TWO63)) && fits(Flags(ctxLen, TWO63 - 1))
  {
    HighRange(maxOffload);
    var g := FitsAt(fits, ctxLen);
    hide High;
    if maxOffload <= TWO63 {
      BisectBrackets(g, 0, High(maxOffload));
      if maxOffload == TWO63 && fits(Flags(ctxLen, TWO63 - 1)) {
        BisectOverflows(g, 0);
      }
    }
  }

  /** If the search ends, it returns the largest rung on which anything fits with the largest
      offload that fits there, and nothing exactly when nothing fits. */
  lemma {:induction false} SearchOptimal(fits: Oracle, ladder: seq<nat>, maxOffload: uint64)
    requires DownClosed(fits) && Descending(ladder) && maxOffload <= TWO63
    ensures Search(fits, ladder, maxOffload).Endless? || IsBest(fits, ladder, maxOffload, Search(fits, ladder, maxOffload))
    ensures maxOffload < TWO63 ==> !Search(fits, ladder, maxOffload).Endless?
  {
    hide SearchRung;
    if ladder != [] {
      EndlessExactlyWhen(fits, ladder[0], maxOffload);
      if !SearchRung(fits, ladder[0], maxOffload).Endless? {
        RungBest(fits, ladder[0], maxOffload);
        assert forall c :: c in ladder <==> c == ladder[0] || c in ladder[1..];
        assert forall c | c in ladder[1..] :: c < ladder[0];
        if SearchRung(fits, ladder[0], maxOffload).Nothing? {
          SearchOptimal(fits, ladder[1..], maxOffload);
        }
      }
    }
  }

  lemma BestIsUnique(fits: Oracle, ladder: seq<nat>, maxOffload: uint64, r1: Sought<Flags>, r2: Sought<Flags>)
    requires IsBest(fits, ladder, maxOffload, r1) && IsBest(fits, ladder, maxOffload, r2)
    ensures r1 == r2
  {
    if r1.Best? {
      assert fits(Flags(r1.value.ctxLen, r1.value.offload));
    }
    if r2.Best? {
      assert fits(Flags(r2.value.ctxLen, r2.value.offload));
    }
  }

  /** The oracle for which nothing above the given offload fits. */
  function UpTo(most: nat): Oracle {
    (f: Flags) => f.offload <= most
  }

  lemma {:induction false} SearchMissesHuge(ladder: seq<nat>, maxOffload: uint64)
    requires maxOffload > TWO63
    ensures Search(UpTo(0), ladder, maxOffload).Nothing?
  {
    HighRange(maxOffload);
    if ladder != [] {
      SearchMissesHuge(ladder[1..], maxOffload);
    }
  }

  /** At exactly 2^63 the bisection starts at the largest `int`, and if everything below the top
      fits, `low` overflows and the loop has no end. */
  lemma SearchOverflows(ladder: seq<nat>)
    requires ladder != []
    ensures Search(UpTo(TWO63 - 1), ladder, TWO63).Endless?
  {
    EndlessExactlyWhen(UpTo(TWO63 - 1), ladder[0], TWO63);
  }

  /** The search is optimal for every such oracle exactly when the block count fits in an `int`.
      Above 2^63 it is negative as an `int` and the bisection makes no turn. */
  lemma OptimalExactlyWhen(ladder: seq<nat>, maxOffload: uint64)
    requires Descending(ladder) && ladder != []
    ensures (forall fits: Oracle | DownClosed(fits) :: IsBest(fits, ladder, maxOffload, Search(fits, ladder, maxOffload)))
       <==> maxOffload < TWO63
  {
    if maxOffload < TWO63 {
      forall fits: Oracle | DownClosed(fits)
        ensures IsBest(fits, ladder, maxOffload, Search(fits, ladder, maxOffload))
      {
        SearchOptimal(fits, ladder, maxOffload);
      }
    } else if maxOffload == TWO63 {
      SearchOverflows(ladder);
      assert DownClosed(UpTo(TWO63 - 1));
      assert !IsBest(UpTo(TWO63 - 1), ladder, maxOffload, Search(UpTo(TWO63 - 1), ladder, maxOffload));
    } else {
      var fits := UpTo(0);
      SearchMissesHuge(ladder, maxOffload);
      assert DownClosed(fits);
      assert ladder[0] in ladder && fits(Flags(ladder[0], 0));
      assert !IsBest(fits, ladder, maxOffload, Search(fits, ladder, maxOffload));
    }
  }

  // ----- The number of probes

  /** The number of binary digits, which is one more than the floor of the logarithm. */
  function Digits(n: nat): nat {
    if n == 0 then 0 else 1 + Digits(n / 2)
  }

  function Pow2(e: nat): nat {
    if e == 0 then 1 else 2 * Pow2(e - 1)
  }

  lemma {:induction false} DigitsIsLog(n: nat)
    requires n > 0
    ensures Digits(n) >= 1 && Pow2(Digits(n) - 1) <= n < Pow2(Digits(n))
  {
    if n > 1 {
      DigitsIsLog(n / 2);
    } else {
      assert Digits(1) == 1 + Digits(0);
      assert Pow2(1) == 2 * Pow2(0);
    }
  }

  lemma {:induction false} DigitsBelow(n: nat, e: nat)
    requires n < Pow2(e)
    ensures Digits(n) <= e
  {
    if n > 0 {
      DigitsBelow(n / 2, e - 1);
    }
  }

  lemma {:induction false} DigitsMonotone(m: nat, n: nat)
    requires m <= n
    ensures Digits(m) <= Digits(n)
  {
    if m > 0 {
      DigitsMonotone(m / 2, n / 2);
    }
  }

  /** A probe in the middle leaves at most half the range, on either side. */
  lemma HalvingDigits(low: nat, high: int)
    requires low <= high
    ensures var mid := Middle(low, high);
            Digits(mid - low) + 1 <= Digits(high + 1 - low) && Digits(high - mid) + 1 <= Digits(high + 1 - low)
  {
    var mid := Middle(low, high);
    var size: nat := high + 1 - low;
    DigitsMonotone(mid - low, size / 2);
    DigitsMonotone(high - mid, size / 2);
  }

  /** The most launches that one run counts: per rung one at the top and one for every binary
      digit, and the final one. */
  function ProbeBound(rungs: nat, maxOffload: nat): nat {
    Allowance(rungs, maxOffload) + 1
  }

  function Allowance(rungs: nat, maxOffload: nat): nat {
    rungs * (Digits(maxOffload) + 1)
  }

  lemma AllowanceGrows(i: nat, rungs: nat, maxOffload: nat)
    requires i < rungs
    ensures Allowance(i, maxOffload) + Digits(maxOffload) + 1 == Allowance(i + 1, maxOffload) <= Allowance(rungs, maxOffload)
    ensures Allowance(0, maxOffload) == 0
  {
    hide Digits;
    Times(i + 1, rungs, Digits(maxOffload) + 1);
  }

  lemma {:induction false} Pow2Sum(a: nat, b: nat)
    ensures Pow2(a + b) == Pow2(a) * Pow2(b)
  {
    if a > 0 {
      Pow2Sum(a - 1, b);
      assert Pow2(a + b) == 2 * Pow2(a - 1 + b) == 2 * Pow2(a - 1) * Pow2(b);
    }
  }

  lemma MachineWord()
    ensures Pow2(64) == TWO64
  {
    assert Pow2(4) == 16;
    Pow2Sum(4, 4);
    Pow2Sum(8, 8);
    Pow2Sum(16, 16);
    Pow2Sum(32, 32);
    hide Pow2;
  }

  lemma Times(a: nat, b: nat, n: nat)
    requires a <= b
    ensures a * n <= b * n
  {
  }

  /** Whatever the model, 521 launches are enough for a search that ends. */
  lemma ProbesAtMost(rungs: nat, maxOffload: uint64)
    requires rungs <= 8
    ensures ProbeBound(rungs, maxOffload) <= 521
  {
    hide Pow2;
    MachineWord();
    DigitsBelow(maxOffload, 64);
    hide Digits;
    Times(rungs, 8, Digits(maxOffload) + 1);
  }
}
