/** Points, timers and reading time of one question (api/internal/game/scoring.go). */
module Scoring {
  import opened Common

  datatype Jenjang = SD | SMP | SMA | Unknown(name: string)

  const NETWORK_GRACE_MS := 1000
  const STREAK_BONUS := 50
  const MAX_STREAK_BONUS := 250
  const READING_GRACE_MS := 2000
  const READING_GRACE_SD_MS := 3000

  // A level the tables do not know reads as zero, like a missing key of a Go map.
  function BasePoints(level: int): nat {
    match level
    case 1 => 500
    case 2 => 750
    case 3 => 1000
    case _ => 0
  }

  function TimerByLevel(level: int): nat {
    match level
    case 1 => 15 * NS_PER_SECOND
    case 2 => 20 * NS_PER_SECOND
    case 3 => 25 * NS_PER_SECOND
    case _ => 0
  }

  datatype ScoreInput = ScoreInput(level: int, correct: bool, responseMs: int, limitMs: int,
                                   graceMs: int, streakBefore: int, accuracyMode: bool)

  function SpeedFactor(in_: ScoreInput): real {
    if in_.accuracyMode || in_.limitMs <= in_.graceMs then 1.0
    else
      var responseMs := Min(in_.responseMs, in_.limitMs);
      var effectiveMs := Max(0, responseMs - in_.graceMs);
      1.0 - effectiveMs as real / (in_.limitMs - in_.graceMs) as real
  }

  /** 60% of the points are fixed, 40% depend on speed. */
  function Weighted(base: real, speed: real): real {
    base * (1.0 - 0.4 + 0.4 * speed)
  }

  /** math.Round: nearest integer, halves away from zero. */
  function Round(x: real): int {
    if x >= 0.0 then (x + 0.5).Floor else -((-x + 0.5).Floor)
  }

  function StreakBonus(streakBefore: int): int {
    Min(STREAK_BONUS * streakBefore, MAX_STREAK_BONUS)
  }

  function Score(in_: ScoreInput): int {
    if !in_.correct || in_.responseMs > in_.limitMs + NETWORK_GRACE_MS then 0
    else
      var points := Round(Weighted(BasePoints(in_.level) as real, SpeedFactor(in_)));
      points + StreakBonus(in_.streakBefore)
  }

  function QuestionLimit(level: int, jenjang: Jenjang): nat {
    if jenjang.SD? then TimerByLevel(level) * 5 / 4 else TimerByLevel(level)
  }

  function ReadingGrace(jenjang: Jenjang): nat {
    if jenjang.SD? then READING_GRACE_SD_MS else READING_GRACE_MS
  }

  // ---------------------------------------------------------------- the rounded formula

  /** The part of the limit spent after the reading time, as far as it costs points. */
  function PenalisedMs(in_: ScoreInput): nat {
    Max(0, Min(in_.responseMs, in_.limitMs) - in_.graceMs)
  }

  /** Nearest integer to n/d, halves up. */
  function RoundedQuotient(n: int, d: int): int
    requires d > 0
  {
    (2 * n + d) / (2 * d)
  }

  lemma RoundOfQuotient(n: nat, d: nat)
    requires d > 0
    ensures Round(n as real / d as real) == RoundedQuotient(n, d)
  {
    var x := n as real / d as real + 0.5;
    var q := (2 * n + d) / (2 * d);
    var r := (2 * n + d) % (2 * d);
    assert 2 * n + d == q * (2 * d) + r;
    assert x * (2 * d) as real == (2 * n + d) as real by {
      assert n as real / d as real * d as real == n as real;
    }
    assert (q * (2 * d)) as real == q as real * (2 * d) as real;
    assert q as real * (2 * d) as real <= x * (2 * d) as real < (q + 1) as real * (2 * d) as real by {
      assert ((q + 1) * (2 * d)) as real == (q + 1) as real * (2 * d) as real;
    }
    RealOrderCancels(q as real, x, (2 * d) as real);
    RealOrderCancels(x, (q + 1) as real, (2 * d) as real);
    assert q as real <= x < (q + 1) as real;
  }

  lemma RealOrderCancels(a: real, b: real, c: real)
    requires c > 0.0
    ensures a * c <= b * c ==> a <= b
    ensures a * c < b * c ==> a < b
  {
    if a > b { assert (a - b) * c > 0.0; }
    if a >= b { assert (a - b) * c >= 0.0; }
  }

  /** The points before the bonus in whole numbers: B - (2B/5)*e/(T-g), rounded once. */
  function IntegerPoints(in_: ScoreInput): int {
    var b, d := BasePoints(in_.level), in_.limitMs - in_.graceMs;
    if in_.accuracyMode || d <= 0 then b
    else RoundedQuotient(b * d - 2 * b / 5 * PenalisedMs(in_), d)
  }

  /** The float formula is the integer formula, and nothing is divided by zero. */
  lemma ScoreIsIntegerFormula(in_: ScoreInput)
    requires in_.correct && in_.responseMs <= in_.limitMs + NETWORK_GRACE_MS
    ensures Score(in_) == IntegerPoints(in_) + StreakBonus(in_.streakBefore)
  {
    var b, d := BasePoints(in_.level), in_.limitMs - in_.graceMs;
    if !in_.accuracyMode && d > 0 {
      FormulaInIntegers(b, 2 * b / 5, d, PenalisedMs(in_));
    } else {
      assert Round(Weighted(b as real, 1.0)) == b;
    }
  }

  lemma FormulaInIntegers(b: nat, share: nat, d: nat, e: nat)
    requires d > 0 && e <= d && 5 * share == 2 * b
    ensures Round(Weighted(b as real, 1.0 - e as real / d as real))
         == RoundedQuotient(b * d - share * e, d)
  {
    var n := b * d - share * e;
    assert n >= 0 by {
      ProductMonotone(e, d, share);
      ProductMonotone(share, b, d);
    }
    assert Weighted(b as real, 1.0 - e as real / d as real) == n as real / d as real by {
      DifferenceAsReal(b, d, share, e);
      FormulaAsQuotient(b as real, share as real, e as real / d as real, d as real, e as real);
    }
    RoundOfQuotient(n, d);
  }

  lemma DifferenceAsReal(b: int, d: int, share: int, e: int)
    ensures (b * d - share * e) as real == b as real * d as real - share as real * e as real
  {
  }

  lemma FormulaAsQuotient(b: real, share: real, quotient: real, d: real, e: real)
    requires d > 0.0 && quotient == e / d && share == 0.4 * b
    ensures Weighted(b, 1.0 - quotient) == (b * d - share * e) / d
  {
    assert quotient * d == e;
    var lhs := Weighted(b, 1.0 - quotient);
    assert lhs == b - share * quotient;
    assert share * quotient * d == share * e;
    assert lhs * d == b * d - share * e;
  }

  lemma ProductMonotone(m: int, n: int, d: int)
    requires d >= 0 && m <= n
    ensures m * d <= n * d
  {
  }

  /** The quotient is the only multiple count that brackets the dividend. */
  lemma QuotientIs(n: int, d: int, q: int)
    requires d > 0 && q * d <= n < q * d + d
    ensures n / d == q
  {
    var p := n / d;
    assert p * d <= n < p * d + d;
    if p > q { ProductMonotone(q + 1, p, d); }
    if p < q { ProductMonotone(p + 1, q, d); }
  }

  lemma QuotientMonotone(m: int, n: int, d: int)
    requires d > 0 && m <= n
    ensures m / d <= n / d
  {
    var p, q := m / d, n / d;
    assert p * d <= m && n < q * d + d;
    if p > q { ProductMonotone(q + 1, p, d); }
  }

  lemma RoundedQuotientMonotone(m: int, n: int, d: int)
    requires d > 0 && m <= n
    ensures RoundedQuotient(m, d) <= RoundedQuotient(n, d)
  {
    QuotientMonotone(2 * m + d, 2 * n + d, 2 * d);
  }

  lemma RoundedQuotientOfMultiple(k: int, d: int)
    requires d > 0
    ensures RoundedQuotient(k * d, d) == k
  {
    assert k * (2 * d) == 2 * (k * d);
    QuotientIs(2 * (k * d) + d, 2 * d, k);
  }

  lemma IntegerPointsRange(in_: ScoreInput)
    ensures 3 * BasePoints(in_.level) / 5 <= IntegerPoints(in_) <= BasePoints(in_.level)
  {
    var b, d := BasePoints(in_.level), in_.limitMs - in_.graceMs;
    if !in_.accuracyMode && d > 0 {
      var share, e := 2 * b / 5, PenalisedMs(in_);
      ProductMonotone(e, d, share);
      assert b * d - share * d == (b - share) * d;
      RoundedQuotientMonotone((b - share) * d, b * d - share * e, d);
      RoundedQuotientMonotone(b * d - share * e, b * d, d);
      RoundedQuotientOfMultiple(b - share, d);
      RoundedQuotientOfMultiple(b, d);
    }
  }

  /** Every correct answer in time earns between 60% and 100% of the base, plus the capped bonus. */
  lemma ScoreRange(in_: ScoreInput)
    requires in_.correct && in_.responseMs <= in_.limitMs + NETWORK_GRACE_MS
    ensures 3 * BasePoints(in_.level) / 5 + StreakBonus(in_.streakBefore)
         <= Score(in_)
         <= BasePoints(in_.level) + StreakBonus(in_.streakBefore)
  {
    ScoreIsIntegerFormula(in_);
    IntegerPointsRange(in_);
  }

  lemma IntegerPointsMonotone(slow: ScoreInput, fast: ScoreInput)
    requires slow == fast.(responseMs := slow.responseMs) && fast.responseMs <= slow.responseMs
    ensures IntegerPoints(slow) <= IntegerPoints(fast)
  {
    var b, d := BasePoints(fast.level), fast.limitMs - fast.graceMs;
    if !fast.accuracyMode && d > 0 {
      var share := 2 * b / 5;
      ProductMonotone(PenalisedMs(fast), PenalisedMs(slow), share);
      RoundedQuotientMonotone(b * d - share * PenalisedMs(slow), b * d - share * PenalisedMs(fast), d);
    }
  }

  /** A slower answer to the same question never earns more. */
  lemma ScoreNeverRisesWithTime(slow: ScoreInput, fast: ScoreInput)
    requires slow == fast.(responseMs := slow.responseMs) && fast.responseMs <= slow.responseMs
    requires fast.streakBefore >= 0
    ensures Score(slow) <= Score(fast)
  {
    if fast.correct && fast.responseMs <= fast.limitMs + NETWORK_GRACE_MS {
      ScoreIsIntegerFormula(fast);
      IntegerPointsRange(fast);
      if slow.responseMs <= slow.limitMs + NETWORK_GRACE_MS {
        ScoreIsIntegerFormula(slow);
        IntegerPointsMonotone(slow, fast);
      }
    }
  }

  /** At the nanosecond deadline the millisecond lateness check of Score still accepts the answer. */
  lemma InTimeByNanosecondsIsInTimeByMilliseconds(elapsed: int, limit: nat)
    requires elapsed <= limit + NETWORK_GRACE_MS * NS_PER_MS
    ensures Milliseconds(elapsed) <= Milliseconds(limit) + NETWORK_GRACE_MS
  {
  }

  lemma LimitsAreWholeMilliseconds(level: int, jenjang: Jenjang)
    ensures QuestionLimit(level, jenjang) % NS_PER_MS == 0
    ensures 0 <= Milliseconds(QuestionLimit(level, jenjang)) <= 31250
    ensures 1 <= level <= 3 ==> Milliseconds(QuestionLimit(level, jenjang)) > ReadingGrace(jenjang)
  {
  }

  // ---------------------------------------------------------------- the documented cases

  /** A right answer to a medium question with a timer of 20 seconds and 2 seconds to read. */
  function Medium(responseMs: int, streakBefore: int, accuracyMode: bool): ScoreInput {
    ScoreInput(2, true, responseMs, 20000, 2000, streakBefore, accuracyMode)
  }

  /** What the test cases of the scoring promise about speed, ... */
  lemma PromisedBySpeed()
    ensures Score(Medium(1000, 0, false)) == 750 && Score(Medium(4000, 0, false)) == 717
    ensures Score(Medium(12000, 0, false)) == 583 && Score(Medium(19000, 0, false)) == 467
    ensures Score(Medium(20500, 0, false)) == 450 && Score(Medium(21100, 0, false)) == 0
  {
    hide Score;
    ScoreIs(Medium(1000, 0, false), 750);
    ScoreIs(Medium(4000, 0, false), 717);
    ScoreIs(Medium(12000, 0, false), 583);
    ScoreIs(Medium(19000, 0, false), 467);
    ScoreIs(Medium(20500, 0, false), 450);
    NoPoints(Medium(21100, 0, false));
  }

  /** ... about streaks and modes, ... */
  lemma PromisedByStreak()
    ensures Score(Medium(1000, 0, false).(correct := false)) == 0
    ensures Score(Medium(10000, 0, true)) == 750 && Score(Medium(0, 3, true)) == 900
    ensures Score(Medium(1000, 1, false)) == 800 && Score(Medium(1000, 2, false)) == 850
    ensures Score(Medium(1000, 6, false)) == 1000
  {
    hide Score;
    NoPoints(Medium(1000, 0, false).(correct := false));
    ScoreIs(Medium(10000, 0, true), 750);
    ScoreIs(Medium(0, 3, true), 900);
    ScoreIs(Medium(1000, 1, false), 800);
    ScoreIs(Medium(1000, 2, false), 850);
    ScoreIs(Medium(1000, 6, false), 1000);
  }

  /** ... and about other levels and timers. */
  lemma PromisedByLevel()
    ensures Score(ScoreInput(1, true, 500, 15000, 2000, 0, false)) == 500
    ensures Score(ScoreInput(3, true, 500, 25000, 2000, 0, false)) == 1000
    ensures Score(ScoreInput(2, true, 13000, 25000, 3000, 0, false)) == 614
    ensures Score(ScoreInput(2, true, 2500, 25000, 3000, 0, false)) == 750
    ensures Score(ScoreInput(1, true, 1000, 2000, 2000, 0, false)) == 500
  {
    hide Score;
    ScoreIs(ScoreInput(1, true, 500, 15000, 2000, 0, false), 500);
    ScoreIs(ScoreInput(3, true, 500, 25000, 2000, 0, false), 1000);
    ScoreIs(ScoreInput(2, true, 13000, 25000, 3000, 0, false), 614);
    ScoreIs(ScoreInput(2, true, 2500, 25000, 3000, 0, false), 750);
    ScoreIs(ScoreInput(1, true, 1000, 2000, 2000, 0, false), 500);
  }

  lemma ScoreIs(in_: ScoreInput, points: int)
    requires in_.correct && in_.responseMs <= in_.limitMs + NETWORK_GRACE_MS
    requires IntegerPoints(in_) + StreakBonus(in_.streakBefore) == points
    ensures Score(in_) == points
  {
    ScoreIsIntegerFormula(in_);
  }

  lemma NoPoints(in_: ScoreInput)
    requires !in_.correct || in_.responseMs > in_.limitMs + NETWORK_GRACE_MS
    ensures Score(in_) == 0
  {
  }

  /** The timers and reading times that the tests promise, in milliseconds. */
  lemma PromisedLimits(jenjang: Jenjang)
    ensures !jenjang.SD? ==>
      && ReadingGrace(jenjang) == 2000
      && Milliseconds(QuestionLimit(1, jenjang)) == 15000 && Milliseconds(QuestionLimit(2, jenjang)) == 20000
      && Milliseconds(QuestionLimit(3, jenjang)) == 25000
    ensures jenjang.SD? ==>
      && ReadingGrace(jenjang) == 3000
      && Milliseconds(QuestionLimit(1, jenjang)) == 18750 && Milliseconds(QuestionLimit(2, jenjang)) == 25000
      && Milliseconds(QuestionLimit(3, jenjang)) == 31250
  {
  }
}
