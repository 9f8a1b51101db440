/**
 * Levels, currencies and the score Oracle of the dashboard (js/app.js).
 *
 * `state.user.xp` is cumulative: the level is the number of per-level costs,
 * starting from level 1, that the total pays for. A level's cost is
 * `floor(1000 * 1.15^(level - 1))`, computed here exactly as a rational floor.
 */
module Progression {

  // ---------------------------------------------------------------------------
  // XP per level (getXPForLevel, getTotalXPForLevel)
  // ---------------------------------------------------------------------------

  function Pow(b: nat, e: nat): (r: nat)
    ensures b >= 1 ==> r >= 1
  {
    if e == 0 then 1 else b * Pow(b, e - 1)
  }

  /** `100^e <= 115^e`: growth by 15% never shrinks a cost. */
  lemma {:induction false} PowGrowth(e: nat)
    ensures Pow(100, e) <= Pow(115, e)
  {
    if e > 0 {
      PowGrowth(e - 1);
    }
  }

  lemma DivAtLeast(n: nat, d: nat, k: nat)
    requires d > 0 && n >= k * d
    ensures n / d >= k
  {
    var q := n / d;
    assert n == q * d + n % d && n % d < d;
    assert k * d < (q + 1) * d;
    MulCancel(k, q + 1, d);
  }

  lemma MulCancel(a: int, b: int, d: int)
    requires d > 0 && a * d < b * d
    ensures a < b
  {
  }

  /** `n` divided by `b` `e` times over, each time rounding down. */
  function DivPow(n: nat, b: nat, e: nat): nat
    requires b >= 1
  {
    if e == 0 then n else DivPow(n / b, b, e - 1)
  }

  /** Rounding down after each division is rounding down once: `floor(floor(n / b) / m) == floor(n / (b * m))`. */
  lemma NestedDiv(n: nat, b: nat, m: nat)
    requires b >= 1 && m >= 1
    ensures n / b / m == n / (b * m)
  {
    var q, r := n / b, n % b;
    var s, t := q / m, q % m;
    assert b * q == b * (m * s) + b * t by {
      assert q == m * s + t;
    }
    assert b * (m * s) == (b * m) * s;
    MulMonotone(b, t, m - 1);
    DivUnique(n, b * m, s, b * t + r);
  }

  lemma MulMonotone(b: nat, t: int, u: int)
    requires t <= u
    ensures b * t <= b * u
  {
    var k: nat := u - t;
    assert b * u == b * t + b * k;
  }

  /** The quotient is the one `q` with `n == q * d + r` and `0 <= r < d`. */
  lemma DivUnique(n: int, d: int, q: int, r: int)
    requires d > 0 && n == q * d + r && 0 <= r < d
    ensures n / d == q
  {
    var k := n / d - q;
    assert k * d == r - n % d;
    MulCancel(k, 1, d);
    MulCancel(-1, k, d);
  }

  /** The successive divisions round the same as the single one: `DivPow(n, b, e) == n / b^e`. */
  lemma {:induction false} DivPowIsFloor(n: nat, b: nat, e: nat)
    requires b >= 1
    ensures DivPow(n, b, e) == n / Pow(b, e)
  {
    if e > 0 {
      DivPowIsFloor(n / b, b, e - 1);
      NestedDiv(n, b, Pow(b, e - 1));
    }
  }

  /**
   * `getXPForLevel(level)`: `floor(1000 * 1.15^(level - 1))`, that is
   * `1000 * 115^e / 100^e`, computed as `e` divisions by 100 (`DivPowIsFloor`);
   * a level below 1 divides by the growth factor instead.
   */
  function XPForLevel(level: int): (c: nat)
    ensures level >= 1 ==> c >= 1000
  {
    if level >= 1 then
      var e: nat := level - 1;
      PowGrowth(e);
      DivAtLeast(1000 * Pow(115, e), Pow(100, e), 1000);
      DivPowIsFloor(1000 * Pow(115, e), 100, e);
      DivPow(1000 * Pow(115, e), 100, e)
    else
      var e: nat := 1 - level;
      DivPow(1000 * Pow(100, e), 115, e)
  }

  /** The cost as the single rational floor, `1000 * 115^e / 100^e` (and its reciprocal below level 1). */
  lemma XPForLevelExact(level: int)
    ensures level >= 1 ==> XPForLevel(level) == 1000 * Pow(115, level - 1) / Pow(100, level - 1)
    ensures level < 1 ==> XPForLevel(level) == 1000 * Pow(100, 1 - level) / Pow(115, 1 - level)
  {
    if level >= 1 {
      DivPowIsFloor(1000 * Pow(115, level - 1), 100, level - 1);
    } else {
      DivPowIsFloor(1000 * Pow(100, 1 - level), 115, 1 - level);
    }
  }

  /** The first costs: 1000, 1150, 1322, 1520. */
  lemma FirstCosts()
    ensures XPForLevel(1) == 1000 && XPForLevel(2) == 1150 && XPForLevel(3) == 1322 && XPForLevel(4) == 1520
  {
    assert Pow(115, 3) == 1520875 && Pow(100, 3) == 1000000;
  }

  /** The XP needed to reach `level`: the costs of levels 1 to level - 1. */
  function TotalXP(level: int): (t: nat)
    ensures level >= 2 ==> t >= 1000 * (level - 1)
    decreases level
  {
    if level <= 1 then 0 else TotalXP(level - 1) + XPForLevel(level - 1)
  }

  /** Reaching the next level costs exactly the current level's XP. */
  lemma TotalXPStep(level: int)
    requires level >= 1
    ensures TotalXP(1) == 0
    ensures TotalXP(level + 1) == TotalXP(level) + XPForLevel(level)
  {
  }

  /** Higher levels need strictly more XP, by at least 1000 per level. */
  lemma {:induction false} TotalXPIncreasing(a: int, b: int)
    requires 1 <= a <= b
    ensures TotalXP(b) >= TotalXP(a) + 1000 * (b - a)
    decreases b - a
  {
    if a < b {
      TotalXPIncreasing(a, b - 1);
    }
  }

  /** `getTotalXPForLevel(level)`: the `for` loop summing the costs below `level`. */
  method GetTotalXPForLevel(level: int) returns (total: nat)
    ensures total == TotalXP(level)
  {
    total := 0;
    var i := 1;
    while i < level
      invariant 1 <= i <= if level >= 1 then level else 1
      invariant total == TotalXP(i)
    {
      total := total + XPForLevel(i);
      i := i + 1;
    }
  }

  // ---------------------------------------------------------------------------
  // Level from XP (getLevelFromXP, getLevelProgress)
  // ---------------------------------------------------------------------------

  /** The `while` loop of `getLevelFromXP`, continued from `level`. */
  function LevelFrom(x: int, level: int): int
    requires level >= 1
    decreases x - TotalXP(level)
  {
    if TotalXP(level) + XPForLevel(level) <= x then LevelFrom(x, level + 1) else level
  }

  /** `getLevelFromXP(x)`. */
  function LevelOf(x: int): int {
    LevelFrom(x, 1)
  }

  lemma {:induction false} LevelFromBounds(x: int, level: int)
    requires level >= 1 && (TotalXP(level) <= x || level == 1)
    ensures var r := LevelFrom(x, level);
      r >= level && (TotalXP(r) <= x || r == 1) && x < TotalXP(r + 1)
    decreases x - TotalXP(level)
  {
    if TotalXP(level) + XPForLevel(level) <= x {
      LevelFromBounds(x, level + 1);
    }
  }

  /**
   * The level is the one whose XP band holds the total: at least 1, paid for
   * (for a total of at least 0), and the next level not yet paid for.
   */
  lemma LevelOfBand(x: int)
    ensures LevelOf(x) >= 1
    ensures x >= 0 ==> TotalXP(LevelOf(x)) <= x
    ensures x < TotalXP(LevelOf(x) + 1)
    ensures x < 0 ==> LevelOf(x) == 1
  {
    LevelFromBounds(x, 1);
  }

  /** Only one level's band holds a given total. */
  lemma LevelOfUnique(x: int, level: int)
    requires level >= 1 && TotalXP(level) <= x < TotalXP(level + 1)
    ensures LevelOf(x) == level
  {
    LevelOfBand(x);
    var r := LevelOf(x);
    if r < level {
      TotalXPIncreasing(r + 1, level);
    } else if r > level {
      TotalXPIncreasing(level + 1, r);
    }
  }

  /** More XP never means a lower level. */
  lemma LevelOfMonotone(x: int, y: int)
    requires x <= y
    ensures LevelOf(x) <= LevelOf(y)
  {
    LevelOfBand(x);
    LevelOfBand(y);
    if LevelOf(y) < LevelOf(x) {
      TotalXPIncreasing(LevelOf(y) + 1, LevelOf(x));
    }
  }

  /** `getLevelFromXP(x)`: pay for levels while the next one fits in the total. */
  method GetLevelFromXP(x: int) returns (level: int)
    ensures level == LevelOf(x)
  {
    level := 1;
    var xpNeeded := 0;
    while xpNeeded + XPForLevel(level) <= x
      invariant level >= 1 && xpNeeded == TotalXP(level)
      invariant LevelFrom(x, level) == LevelOf(x)
      decreases x - xpNeeded
    {
      xpNeeded := xpNeeded + XPForLevel(level);
      level := level + 1;
    }
  }

  /** `getLevelProgress(x)`: the percentage of the current level's band already earned. */
  function LevelProgress(x: int): (p: real)
    ensures x >= 0 ==> 0.0 <= p < 100.0
  {
    var level := LevelOf(x);
    LevelOfBand(x);
    TotalXPStep(level);
    var into := x - TotalXP(level);
    var needed := TotalXP(level + 1) - TotalXP(level);
    assert needed >= 1000;
    ProgressBounds(into, needed);
    (into as real) / (needed as real) * 100.0
  }

  lemma ProgressBounds(into: int, needed: int)
    requires needed > 0
    ensures 0 <= into < needed ==> 0.0 <= (into as real) / (needed as real) * 100.0 < 100.0
  {
    if 0 <= into < needed {
      var q := (into as real) / (needed as real);
      assert q * (needed as real) == into as real;
      assert q < 1.0;
    }
  }

  // ---------------------------------------------------------------------------
  // The Oracle's arithmetic (updateOracle)
  // ---------------------------------------------------------------------------

  /** `Math.round(x)`: the nearest integer, halves rounded up. */
  function Round(x: real): (r: int)
    ensures x - 0.5 < r as real <= x + 0.5
  {
    (x + 0.5).Floor
  }

  function MaxR(x: real, y: real): real {
    if x >= y then x else y
  }

  function MinR(x: real, y: real): real {
    if x <= y then x else y
  }

  /** The weight `updateOracle` predicts from: the mean of the stored and the session accuracy. */
  function SessionWeight(accuracy: real, correctAnswers: int, totalQuestions: int): real
    requires totalQuestions != 0
  {
    (accuracy + (correctAnswers as real) / (totalQuestions as real) * 100.0) / 2.0
  }

  /** `Math.round(1000 + 600 * (weight / 100))`. */
  function PredictedScore(weight: real): (s: int)
    ensures 0.0 <= weight <= 100.0 ==> 1000 <= s <= 1600
  {
    Round(1000.0 + 600.0 * (weight / 100.0))
  }

  /**
   * The pass probability for a gap of `scoreDiff` points: 95 when the target is
   * met, else 100 minus 5 points per point a day still to gain, kept in [10, 90].
   * With no day left the needed daily gain is infinite in the source, so 10.
   */
  function Probability(scoreDiff: int, daysLeft: int): (p: real)
    ensures scoreDiff <= 0 <==> p == 95.0
    ensures scoreDiff > 0 ==> 10.0 <= p <= 90.0
    ensures scoreDiff > 0 && daysLeft == 0 ==> p == 10.0
  {
    if scoreDiff <= 0 then 95.0
    else if daysLeft == 0 then 10.0
    else MaxR(10.0, MinR(90.0, 100.0 - (scoreDiff as real) / (daysLeft as real) * 5.0))
  }

  // ---------------------------------------------------------------------------
  // state.user, state.stats.accuracy and state.oracle
  // ---------------------------------------------------------------------------

  /** `defaultState.user` as the source writes it: level 23 next to a total of 2450 XP. */
  const DefaultLevelAsWritten := 23
  const DefaultXP := 2450

  /** The level the default total actually reaches. */
  const DefaultLevel := 3

  lemma DefaultLevelMatches()
    ensures LevelOf(DefaultXP) == DefaultLevel
  {
    FirstCosts();
    assert TotalXP(3) == 2150 && TotalXP(4) == 3472;
    LevelOfUnique(DefaultXP, 3);
  }

  /**
   * With the default as written, the first `addXP` of a few points recomputes
   * the level from the total and drops it from 23 to 3.
   */
  lemma DefaultLevelDropsOnAddXP(amount: int)
    requires 0 <= amount < 1000
    ensures LevelOf(DefaultXP + amount) == 3 < DefaultLevelAsWritten
  {
    FirstCosts();
    assert TotalXP(3) == 2150 && TotalXP(4) == 3472;
    LevelOfUnique(DefaultXP + amount, 3);
  }

  /** The economy and Oracle fields of the global `state`. */
  class App {
    var level: int
    var xp: int
    var braincells: int
    var darkmatter: int
    /** `state.stats.accuracy`, a percentage. */
    var accuracy: real
    var predictedScore: int
    var targetScore: int
    var probability: real
    var daysLeft: int

    /** The level shown is the one the cumulative XP reaches. */
    predicate Valid()
      reads this
    {
      level == LevelOf(xp)
    }

    /** `defaultState`, with the level set to the one its 2450 XP reaches. */
    constructor ()
      ensures Valid()
      ensures level == DefaultLevel && xp == DefaultXP && braincells == 1250 && darkmatter == 3
      ensures accuracy == 83.0 && predictedScore == 1420 && targetScore == 1500
      ensures probability == 73.0 && daysLeft == 45
    {
      DefaultLevelMatches();
      level, xp, braincells, darkmatter := DefaultLevel, DefaultXP, 1250, 3;
      accuracy := 83.0;
      predictedScore, targetScore, probability, daysLeft := 1420, 1500, 73.0, 45;
    }

    /**
     * `addXP(amount)`: the total grows by `amount` and the level is recomputed
     * from it; `leveledUp` is whether the level-up banner is shown.
     */
    method AddXP(amount: int) returns (leveledUp: bool)
      modifies this`xp, this`level
      ensures xp == old(xp) + amount && level == LevelOf(xp)
      ensures leveledUp <==> level > old(level)
      ensures Valid()
    {
      var oldLevel := level;
      xp := xp + amount;
      level := GetLevelFromXP(xp);
      leveledUp := level > oldLevel;
    }

    /** `addBrainCells(amount)`. */
    method AddBrainCells(amount: int)
      modifies this`braincells
      ensures braincells == old(braincells) + amount
    {
      braincells := braincells + amount;
    }

    /** `spendBrainCells(amount)`: only with enough cells, and then exactly `amount` fewer. */
    method SpendBrainCells(amount: int) returns (ok: bool)
      modifies this`braincells
      ensures ok <==> old(braincells) >= amount
      ensures braincells == if ok then old(braincells) - amount else old(braincells)
    {
      if braincells >= amount {
        braincells := braincells - amount;
        return true;
      }
      return false;
    }

    /** `addDarkMatter(amount)`. */
    method AddDarkMatter(amount: int)
      modifies this`darkmatter
      ensures darkmatter == old(darkmatter) + amount
    {
      darkmatter := darkmatter + amount;
    }

    /**
     * `updateOracle(correctAnswers, totalQuestions)`: the prediction from the
     * mean of the stored and the session accuracy, then the probability from the
     * gap to the target. A session with no question divides by zero in the
     * source and is excluded.
     */
    method UpdateOracle(correctAnswers: int, totalQuestions: int)
      requires totalQuestions != 0
      modifies this`predictedScore, this`probability
      ensures predictedScore == PredictedScore(SessionWeight(accuracy, correctAnswers, totalQuestions))
      ensures probability == Probability(targetScore - predictedScore, daysLeft)
    {
      var sessionAccuracy := (correctAnswers as real) / (totalQuestions as real) * 100.0;
      var accuracyWeight := (accuracy + sessionAccuracy) / 2.0;
      predictedScore := Round(1000.0 + (1600.0 - 1000.0) * (accuracyWeight / 100.0));
      var scoreDiff := targetScore - predictedScore;
      var daysRemaining := daysLeft;
      if scoreDiff <= 0 {
        probability := 95.0;
      } else if daysRemaining == 0 {
        probability := 10.0;
      } else {
        var improvementNeeded := (scoreDiff as real) / (daysRemaining as real);
        probability := MaxR(10.0, MinR(90.0, 100.0 - improvementNeeded * 5.0));
      }
    }
  }

  /** A non-negative award never lowers a consistent level. */
  lemma AddXPNeverLowersLevel(xp: int, amount: int)
    requires amount >= 0
    ensures LevelOf(xp + amount) >= LevelOf(xp)
  {
    LevelOfMonotone(xp, xp + amount);
  }

  /** Accuracies within 0..100 keep the prediction on the 1000..1600 scale. */
  lemma PredictionInRange(accuracy: real, correctAnswers: int, totalQuestions: int)
    requires 0.0 <= accuracy <= 100.0 && 0 <= correctAnswers <= totalQuestions && totalQuestions > 0
    ensures 1000 <= PredictedScore(SessionWeight(accuracy, correctAnswers, totalQuestions)) <= 1600
  {
    var q := (correctAnswers as real) / (totalQuestions as real);
    assert q * (totalQuestions as real) == correctAnswers as real;
    assert 0.0 <= q <= 1.0;
  }
}
