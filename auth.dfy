/**
 * Accounts (js/auth.js): the `synapse_users` table keyed by lower-cased email,
 * the demo password hash, sign-up and sign-in, and the helpers that update the
 * signed-in user's stats and Oracle.
 *
 * Numbers are JavaScript doubles in the source; here integers are unbounded and
 * the hash's 32-bit arithmetic is the ECMAScript ToInt32 conversion written out.
 */
module Auth {
  import opened Wrappers
  import opened JsText
  import Progression

  // ---------------------------------------------------------------------------
  // 32-bit arithmetic
  // ---------------------------------------------------------------------------

  const Two31 := 0x8000_0000
  const Two32 := 0x1_0000_0000

  /** ECMAScript ToInt32: `x` modulo 2^32, read as a signed 32-bit integer. */
  function ToInt32(x: int): (r: int)
    ensures -Two31 <= r < Two31
  {
    var m := x % Two32;
    if m >= Two31 then m - Two32 else m
  }

  /** ToInt32 keeps the residue modulo 2^32. */
  lemma ToInt32Residue(x: int)
    ensures (ToInt32(x) - x) % Two32 == 0
  {
  }

  /** A signed 32-bit value is fixed by its residue modulo 2^32. */
  lemma ToInt32Unique(x: int, y: int)
    requires -Two31 <= y < Two31 && (y - x) % Two32 == 0
    ensures ToInt32(x) == y
  {
    var r := ToInt32(x);
    ToInt32Residue(x);
    var a, b := (r - x) / Two32, (y - x) / Two32;
    assert r - x == a * Two32;
    assert y - x == b * Two32;
    assert r - y == (a - b) * Two32;
  }

  /** `h << 5`: the shift of the 32-bit value, wrapped back to 32 bits. */
  function ShiftLeft5(h: int): int {
    ToInt32(ToInt32(h) * 32)
  }

  /** One round of the source's update, `(h << 5) - h + c` then `& h`, is ToInt32(31 h + c). */
  lemma HashStep(h: int, c: int)
    requires -Two31 <= h < Two31
    ensures ToInt32(ShiftLeft5(h) - h + c) == ToInt32(31 * h + c)
  {
    var s := ShiftLeft5(h);
    ToInt32Residue(ToInt32(h) * 32);
    ToInt32Residue(s - h + c);
    ToInt32Unique(h, h);
    var k := (s - 32 * h) / Two32;
    assert s - 32 * h == k * Two32;
    var r := ToInt32(s - h + c);
    var j := (r - (s - h + c)) / Two32;
    assert r - (s - h + c) == j * Two32;
    assert r - (31 * h + c) == (j + k) * Two32;
    ToInt32Unique(31 * h + c, r);
  }

  // ---------------------------------------------------------------------------
  // hashPassword
  // ---------------------------------------------------------------------------

  /** The UTF-16 code units of one character, as `charCodeAt` reads them. */
  function CodeUnits(c: char): (u: seq<nat>)
    ensures |u| == if c as int < 0x1_0000 then 1 else 2
    ensures forall i :: 0 <= i < |u| ==> u[i] < 0x1_0000
  {
    if c as int < 0x1_0000 then [c as int]
    else
      var v := c as int - 0x1_0000;
      [0xD800 + v / 0x400, 0xDC00 + v % 0x400]
  }

  /** The UTF-16 code units of a string: one per index below `length`. */
  function Utf16(s: string): (u: seq<nat>)
    ensures |u| == JsLength(s)
    ensures forall i :: 0 <= i < |u| ==> u[i] < 0x1_0000
  {
    if s == [] then [] else CodeUnits(s[0]) + Utf16(s[1..])
  }

  /** The hash of a sequence of code units: from 0, `h := ToInt32(31 h + c)` for each unit `c`. */
  function HashOf(units: seq<nat>): (h: int)
    ensures -Two31 <= h < Two31
  {
    if units == [] then 0 else ToInt32(31 * HashOf(units[..|units| - 1]) + units[|units| - 1])
  }

  function Abs(h: int): nat {
    if h < 0 then -h else h
  }

  /** The stored form of a password: `hash_` and the lower-case hex of the hash's magnitude. */
  function PasswordHash(password: string): string {
    "hash_" + ToDigits(Abs(HashOf(Utf16(password))), 16)
  }

  /** `hashPassword(password)`: the source's loop over the code units. */
  method HashPassword(password: string) returns (hash: string)
    ensures hash == PasswordHash(password)
  {
    var units := Utf16(password);
    var h := 0;
    for i := 0 to |units|
      invariant -Two31 <= h < Two31
      invariant h == HashOf(units[..i])
    {
      var code := units[i];
      HashStep(h, code);
      assert units[..i + 1][..i] == units[..i];
      h := ShiftLeft5(h) - h + code;
      h := ToInt32(h);  // hash & hash
    }
    assert units[..|units|] == units;
    hash := "hash_" + ToDigits(Abs(h), 16);
  }

  /** The empty password hashes to `hash_0`. */
  lemma EmptyPasswordHash()
    ensures PasswordHash("") == "hash_0"
  {
    assert Utf16("") == [];
    assert ToDigits(0, 16) == "0";
  }

  /** A one-unit password hashes to the hex of its own code. */
  lemma SingleUnitHash(c: char)
    requires c as int < 0x1_0000
    ensures PasswordHash([c]) == "hash_" + ToDigits(c as int, 16)
  {
    Utf16Single(c);
    HashOfSingle(c as int);
  }

  lemma Utf16Single(c: char)
    requires c as int < 0x1_0000
    ensures Utf16([c]) == [c as int]
  {
    assert [c][1..] == [];
  }

  lemma HashOfSingle(x: nat)
    requires x < Two31
    ensures HashOf([x]) == x
  {
    assert [x][..0] == [];
    ToInt32Unique(x, x);
  }

  /** The stored form reads back: after `hash_`, hex digits worth the hash's magnitude, at most 2^31. */
  lemma PasswordHashReadsBack(password: string)
    ensures var s := PasswordHash(password);
      |s| >= 6 && s[..5] == "hash_" &&
      FromDigits(s[5..], 16) == Abs(HashOf(Utf16(password))) <= Two31
  {
    var n := Abs(HashOf(Utf16(password)));
    var s := PasswordHash(password);
    assert s[5..] == ToDigits(n, 16);
    DigitsRoundTrip(n, 16);
  }

  // ---------------------------------------------------------------------------
  // User records
  // ---------------------------------------------------------------------------

  datatype Profile = Profile(displayName: string, avatar: string, exam: string, targetScore: int,
                             examDate: Option<string>, currentScore: Option<int>)

  datatype Stats = Stats(level: int, xp: int, braincells: int, darkmatter: int, streak: int,
                         totalQuestions: int, correctAnswers: int, hoursStudied: int)

  datatype Oracle = Oracle(predictedScore: int, targetScore: int, probability: int, daysLeft: int)

  datatype User = User(email: string, passwordHash: string, profile: Profile, stats: Stats, oracle: Oracle)

  /** The `profile` argument of `createUser`: every key may be missing. */
  datatype ProfileInput = ProfileInput(displayName: Option<string>, avatar: Option<string>,
                                       exam: Option<string>, targetScore: Option<int>,
                                       examDate: Option<string>, currentScore: Option<int>)

  /** `s || d` on an optional string: a missing or empty string falls back to `d`. */
  function OrString(s: Option<string>, d: string): (r: string)
    ensures s.Some? && s.value != "" ==> r == s.value
    ensures s.None? || s.value == "" ==> r == d
  {
    if s.Some? && s.value != "" then s.value else d
  }

  /** `n || d` on an optional number: a missing number or 0 falls back to `d`. */
  function OrNumber(n: Option<int>, d: int): (r: int)
    ensures n.Some? && n.value != 0 ==> r == n.value
    ensures n.None? || n.value == 0 ==> r == d
  {
    if n.Some? && n.value != 0 then n.value else d
  }

  /** `x || null` for a string. */
  function OrNullString(s: Option<string>): (r: Option<string>)
    ensures r.Some? <==> s.Some? && s.value != ""
    ensures r.Some? ==> r == s
  {
    if s.Some? && s.value != "" then s else None
  }

  /** `x || null` for a number. */
  function OrNullNumber(n: Option<int>): (r: Option<int>)
    ensures r.Some? <==> n.Some? && n.value != 0
    ensures r.Some? ==> r == n
  {
    if n.Some? && n.value != 0 then n else None
  }

  /**
   * The record `createUser` stores. `daysToExam` is the rounded-up number of
   * days from the clock to the exam date, used only when a date is given.
   */
  function NewUser(key: string, password: string, profile: ProfileInput, daysToExam: int): (u: User)
    ensures u.email == key && u.passwordHash == PasswordHash(password)
    ensures u.stats.level == 1 && u.stats.xp == 0 && u.stats.braincells == 100 && u.stats.darkmatter == 0
    ensures u.stats.totalQuestions == 0 && u.stats.correctAnswers == 0
    ensures u.stats.streak == 0 && u.stats.hoursStudied == 0
    ensures u.profile.displayName == OrString(profile.displayName, "Scholar")
    ensures u.profile.avatar == OrString(profile.avatar, "\U{1F9E0}")
    ensures u.profile.exam == OrString(profile.exam, "sat")
    ensures u.profile.targetScore == OrNumber(profile.targetScore, 1500)
    ensures u.profile.examDate == OrNullString(profile.examDate)
    ensures u.profile.currentScore == OrNullNumber(profile.currentScore)
    ensures u.oracle.predictedScore == OrNumber(profile.currentScore, 1200)
    ensures u.oracle.targetScore == u.profile.targetScore
    ensures u.oracle.daysLeft >= 1 && u.oracle.probability == 50
    ensures u.profile.examDate.None? ==> u.oracle.daysLeft == 90
    ensures u.profile.examDate.Some? ==> u.oracle.daysLeft == if daysToExam > 1 then daysToExam else 1
  {
    var days := if OrNullString(profile.examDate).Some? then (if daysToExam > 1 then daysToExam else 1) else 90;
    User(key, PasswordHash(password),
         Profile(OrString(profile.displayName, "Scholar"), OrString(profile.avatar, "\U{1F9E0}"),
                 OrString(profile.exam, "sat"), OrNumber(profile.targetScore, 1500),
                 OrNullString(profile.examDate), OrNullNumber(profile.currentScore)),
         Stats(1, 0, 100, 0, 0, 0, 0, 0),
         Oracle(OrNumber(profile.currentScore, 1200), OrNumber(profile.targetScore, 1500), 50, days))
  }

  /** Sign-up with an empty profile stores the source's defaults. */
  lemma NewUserDefaults(key: string, password: string, daysToExam: int)
    ensures var u := NewUser(key, password, ProfileInput(None, None, None, None, None, None), daysToExam);
      u.profile == Profile("Scholar", "\U{1F9E0}", "sat", 1500, None, None) &&
      u.oracle == Oracle(1200, 1500, 50, 90)
  {
  }

  // ---------------------------------------------------------------------------
  // Shallow merges (`{ ...current, ...updates }`)
  // ---------------------------------------------------------------------------

  /** The keys of an update object: each one present or missing. */
  datatype ProfilePatch = ProfilePatch(displayName: Option<string>, avatar: Option<string>,
                                       exam: Option<string>, targetScore: Option<int>,
                                       examDate: Option<Option<string>>, currentScore: Option<Option<int>>)

  datatype StatsPatch = StatsPatch(level: Option<int>, xp: Option<int>, braincells: Option<int>,
                                   darkmatter: Option<int>, streak: Option<int>,
                                   totalQuestions: Option<int>, correctAnswers: Option<int>,
                                   hoursStudied: Option<int>)

  datatype OraclePatch = OraclePatch(predictedScore: Option<int>, targetScore: Option<int>,
                                     probability: Option<int>, daysLeft: Option<int>)

  /** The argument of `updateUserProfile`: each of the three parts may be missing. */
  datatype Updates = Updates(profile: Option<ProfilePatch>, stats: Option<StatsPatch>, oracle: Option<OraclePatch>)

  const NoStats := StatsPatch(None, None, None, None, None, None, None, None)
  const NoOracle := OraclePatch(None, None, None, None)

  /** One key of a spread: the update's value when present, else the current one. */
  function Pick<T>(update: Option<T>, current: T): T {
    if update.Some? then update.value else current
  }

  /** Two spreads in a row: the later key wins where present. */
  function Later<T>(first: Option<T>, second: Option<T>): Option<T> {
    if second.Some? then second else first
  }

  function MergeProfile(p: Profile, u: ProfilePatch): Profile {
    Profile(Pick(u.displayName, p.displayName), Pick(u.avatar, p.avatar), Pick(u.exam, p.exam),
            Pick(u.targetScore, p.targetScore), Pick(u.examDate, p.examDate),
            Pick(u.currentScore, p.currentScore))
  }

  function MergeStats(s: Stats, u: StatsPatch): Stats {
    Stats(Pick(u.level, s.level), Pick(u.xp, s.xp), Pick(u.braincells, s.braincells),
          Pick(u.darkmatter, s.darkmatter), Pick(u.streak, s.streak),
          Pick(u.totalQuestions, s.totalQuestions), Pick(u.correctAnswers, s.correctAnswers),
          Pick(u.hoursStudied, s.hoursStudied))
  }

  function MergeOracle(o: Oracle, u: OraclePatch): Oracle {
    Oracle(Pick(u.predictedScore, o.predictedScore), Pick(u.targetScore, o.targetScore),
           Pick(u.probability, o.probability), Pick(u.daysLeft, o.daysLeft))
  }

  function ThenStats(a: StatsPatch, b: StatsPatch): StatsPatch {
    StatsPatch(Later(a.level, b.level), Later(a.xp, b.xp), Later(a.braincells, b.braincells),
               Later(a.darkmatter, b.darkmatter), Later(a.streak, b.streak),
               Later(a.totalQuestions, b.totalQuestions), Later(a.correctAnswers, b.correctAnswers),
               Later(a.hoursStudied, b.hoursStudied))
  }

  function ThenProfile(a: ProfilePatch, b: ProfilePatch): ProfilePatch {
    ProfilePatch(Later(a.displayName, b.displayName), Later(a.avatar, b.avatar), Later(a.exam, b.exam),
                 Later(a.targetScore, b.targetScore), Later(a.examDate, b.examDate),
                 Later(a.currentScore, b.currentScore))
  }

  function ThenOracle(a: OraclePatch, b: OraclePatch): OraclePatch {
    OraclePatch(Later(a.predictedScore, b.predictedScore), Later(a.targetScore, b.targetScore),
                Later(a.probability, b.probability), Later(a.daysLeft, b.daysLeft))
  }

  /** The user after `updateUserProfile(updates)`: each part present is spread over the stored one. */
  function ApplyUpdates(user: User, updates: Updates): (r: User)
    ensures r.email == user.email && r.passwordHash == user.passwordHash
    ensures updates.profile.None? ==> r.profile == user.profile
    ensures updates.stats.None? ==> r.stats == user.stats
    ensures updates.oracle.None? ==> r.oracle == user.oracle
  {
    user.(profile := if updates.profile.Some? then MergeProfile(user.profile, updates.profile.value) else user.profile,
          stats := if updates.stats.Some? then MergeStats(user.stats, updates.stats.value) else user.stats,
          oracle := if updates.oracle.Some? then MergeOracle(user.oracle, updates.oracle.value) else user.oracle)
  }

  /** Spreading two stat updates in turn is spreading their combination once. */
  lemma MergeStatsComposes(s: Stats, a: StatsPatch, b: StatsPatch)
    ensures MergeStats(MergeStats(s, a), b) == MergeStats(s, ThenStats(a, b))
    ensures MergeStats(MergeStats(s, a), a) == MergeStats(s, a)
    ensures MergeStats(s, NoStats) == s
  {
  }

  /** The same laws for the profile spread. */
  lemma MergeProfileComposes(p: Profile, a: ProfilePatch, b: ProfilePatch)
    ensures MergeProfile(MergeProfile(p, a), b) == MergeProfile(p, ThenProfile(a, b))
    ensures MergeProfile(MergeProfile(p, a), a) == MergeProfile(p, a)
    ensures MergeProfile(p, ProfilePatch(None, None, None, None, None, None)) == p
  {
  }

  /** The same laws for the Oracle spread. */
  lemma MergeOracleComposes(o: Oracle, a: OraclePatch, b: OraclePatch)
    ensures MergeOracle(MergeOracle(o, a), b) == MergeOracle(o, ThenOracle(a, b))
    ensures MergeOracle(MergeOracle(o, a), a) == MergeOracle(o, a)
    ensures MergeOracle(o, NoOracle) == o
  {
  }

  // ---------------------------------------------------------------------------
  // Residual levels (addUserXP)
  // ---------------------------------------------------------------------------

  /** The XP paid to climb from level `lo` to level `hi`: the costs of `lo` .. `hi - 1`. */
  function CostSum(lo: int, hi: int): nat
    decreases hi - lo
  {
    if lo >= hi then 0 else Progression.XPForLevel(lo) + CostSum(lo + 1, hi)
  }

  lemma {:induction false} CostSumBack(lo: int, hi: int)
    requires lo <= hi
    ensures CostSum(lo, hi + 1) == CostSum(lo, hi) + Progression.XPForLevel(hi)
    decreases hi - lo
  {
    if lo < hi {
      CostSumBack(lo + 1, hi);
    }
  }

  /** From level 1, the climb costs what the cumulative scheme calls the level's total. */
  lemma {:induction false} CostSumFromOne(level: int)
    requires level >= 1
    ensures CostSum(1, level) == Progression.TotalXP(level)
    decreases level
  {
    if level > 1 {
      CostSumFromOne(level - 1);
      CostSumBack(1, level - 1);
    }
  }

  datatype Progress = Progress(xp: int, level: int)

  /**
   * The `while` loop of `addUserXP`: while the XP covers the current level's
   * cost, pay it and go up one level. The loop stops with less XP than the
   * level costs, having paid for every level it passed.
   */
  function LevelUps(xp: int, level: int): (r: Progress)
    ensures r.level >= level
    ensures r.xp < Progression.XPForLevel(r.level)
    ensures xp == r.xp + CostSum(level, r.level)
    ensures forall m :: level < m <= r.level ==> CostSum(level, m) <= xp
    decreases (if level < 1 then 1 - level else 0), xp
  {
    var cost := Progression.XPForLevel(level);
    if xp >= cost then
      var r := LevelUps(xp - cost, level + 1);
      assert forall m :: level + 1 < m <= r.level ==> CostSum(level, m) == cost + CostSum(level + 1, m);
      r
    else Progress(xp, level)
  }

  /**
   * Started at level 1 with a total of `xp`, the residual scheme reaches the
   * level the cumulative scheme of the dashboard computes, with the XP past
   * that level's threshold left over.
   */
  lemma ResidualMatchesCumulative(xp: int)
    requires xp >= 0
    ensures LevelUps(xp, 1).level == Progression.LevelOf(xp)
    ensures LevelUps(xp, 1).xp == xp - Progression.TotalXP(Progression.LevelOf(xp))
  {
    var r := LevelUps(xp, 1);
    CostSumFromOne(r.level);
    Progression.TotalXPStep(r.level);
    Progression.LevelOfUnique(xp, r.level);
  }

  datatype LevelUp = LevelUp(newLevel: int, newXP: int, leveledUp: bool)

  // ---------------------------------------------------------------------------
  // The Oracle (updateUserOracle)
  // ---------------------------------------------------------------------------

  /** The top of the exam's scale, as the source picks it. */
  function MaxScore(exam: string): int {
    if exam == "sat" then 1600 else if exam == "ielts" then 9 else 120
  }

  /** `Math.round(1000 + (maxScore - 1000) * (accuracy / 100))` for the overall accuracy. */
  function Prediction(exam: string, correct: int, total: int): int
    requires total != 0
  {
    var overallAccuracy := (correct as real) / (total as real) * 100.0;
    Progression.Round(1000.0 + ((MaxScore(exam) - 1000) as real) * (overallAccuracy / 100.0))
  }

  /**
   * The prediction moves from the base score 1000 toward the exam's maximum
   * with the share of correct answers: up to 1600 for the SAT, and down toward
   * 9 or 120 for the other exams.
   */
  lemma PredictionRange(exam: string, correct: int, total: int)
    requires 0 <= correct <= total && total > 0
    ensures exam == "sat" ==> 1000 <= Prediction(exam, correct, total) <= 1600
    ensures exam != "sat" ==> MaxScore(exam) <= Prediction(exam, correct, total) <= 1000
    ensures correct == total ==> Prediction(exam, correct, total) == MaxScore(exam)
    ensures correct == 0 ==> Prediction(exam, correct, total) == 1000
  {
    var q := (correct as real) / (total as real);
    assert q * (total as real) == correct as real;
    assert 0.0 <= q <= 1.0;
    assert correct == total ==> q == 1.0;
    assert q * 100.0 / 100.0 == q;
  }

  /**
   * For the exams whose maximum lies below the base score 1000, more correct
   * answers out of the same total never raise the prediction.
   */
  lemma PredictionFallsWithAccuracy(exam: string, c1: int, c2: int, total: int)
    requires exam != "sat" && 0 <= c1 <= c2 <= total && total > 0
    ensures Prediction(exam, c2, total) <= Prediction(exam, c1, total)
  {
    var t := total as real;
    var q1, q2 := (c1 as real) / t, (c2 as real) / t;
    DivMonotone(c1 as real, c2 as real, t);
    assert q1 * 100.0 / 100.0 == q1 && q2 * 100.0 / 100.0 == q2;
    var m := (MaxScore(exam) - 1000) as real;
    NegTimesNonNeg(m, q2 - q1);
    RoundMonotone(1000.0 + m * q2, 1000.0 + m * q1);
  }

  lemma NegTimesPos(a: real, b: real)
    requires a < 0.0 && b > 0.0
    ensures a * b < 0.0
  {
  }

  lemma DivMonotone(x: real, y: real, t: real)
    requires x <= y && t > 0.0
    ensures x / t <= y / t
  {
    var a, b := x / t, y / t;
    assert a * t == x && b * t == y;
    assert (b - a) * t == y - x;
    if b < a {
      NegTimesPos(b - a, t);
    }
  }

  lemma NegTimesNonNeg(a: real, b: real)
    requires a < 0.0 && b >= 0.0
    ensures a * b <= 0.0
  {
  }

  /**
   * The stored probability: 95 when the prediction meets the target, else 100
   * less 5 per point still to gain each day (with at least one day), kept in
   * 10 .. 90, then rounded.
   */
  function OracleProbability(scoreDiff: int, daysLeft: int): (p: int)
    ensures scoreDiff <= 0 <==> p == 95
    ensures scoreDiff > 0 ==> 10 <= p <= 90
  {
    if scoreDiff <= 0 then 95
    else
      var improvementNeeded := (scoreDiff as real) / ((if daysLeft > 1 then daysLeft else 1) as real);
      Progression.Round(Progression.MaxR(10.0, Progression.MinR(90.0, 100.0 - improvementNeeded * 5.0)))
  }

  /** With more days left, the same gap never gives a lower probability. */
  lemma MoreDaysNeverLower(scoreDiff: int, d1: int, d2: int)
    requires d1 <= d2
    ensures OracleProbability(scoreDiff, d1) <= OracleProbability(scoreDiff, d2)
  {
    if scoreDiff > 0 {
      var e1 := if d1 > 1 then d1 else 1;
      var e2 := if d2 > 1 then d2 else 1;
      var s := scoreDiff as real;
      var q1, q2 := s / (e1 as real), s / (e2 as real);
      DivAntitone(s, e1 as real, e2 as real);
      RoundMonotone(Progression.MaxR(10.0, Progression.MinR(90.0, 100.0 - q1 * 5.0)),
                    Progression.MaxR(10.0, Progression.MinR(90.0, 100.0 - q2 * 5.0)));
    }
  }

  /** A positive amount shared over more days is no more per day. */
  lemma DivAntitone(s: real, a: real, b: real)
    requires s > 0.0 && 0.0 < a <= b
    ensures s / b <= s / a
  {
    var qa, qb := s / a, s / b;
    assert qa * a == s && qb * b == s;
    assert qb * (b - a) >= 0.0;
    assert (qa - qb) * a >= 0.0;
  }

  lemma RoundMonotone(x: real, y: real)
    requires x <= y
    ensures Progression.Round(x) <= Progression.Round(y)
  {
  }

  // ---------------------------------------------------------------------------
  // The users table and the session
  // ---------------------------------------------------------------------------

  /** Every record sits under its own email, which is already lower-cased. */
  predicate UsersKeyed(users: map<string, User>) {
    forall k :: k in users ==> users[k].email == k && Lower(k) == k && k !in InheritedKeys
  }

  /**
   * The lower-case names the table object inherits from `Object.prototype`:
   * for these `key in users` holds and `users[key]` is a truthy value without
   * a `passwordHash`, though no record sits there. Every other inherited name
   * holds an upper-case letter, so a lower-cased email never reaches it.
   */
  const InheritedKeys: set<string> := {"constructor", "__proto__"}

  /** What `loginUser` stores: the signed-in email and whether to remember it. */
  datatype Session = Session(email: string, remember: bool)

  class Store {
    /** The `synapse_users` table. */
    var users: map<string, User>
    /**
     * The session together with the current-user entry: login writes both to
     * the same email, so one field holds them.
     */
    var session: Option<Session>

    predicate Valid()
      reads this
    {
      UsersKeyed(users)
    }

    /** Empty storage: no accounts, nobody signed in. */
    constructor ()
      ensures Valid() && users == map[] && session == None
    {
      users, session := map[], None;
    }

    /**
     * `userExists(email)`: some record carries the lower-cased email, or the
     * lower-cased email names an inherited member of the table object.
     */
    predicate UserExists(email: string)
      requires Valid()
      reads this
      ensures UserExists(email) <==>
        (exists u :: u in users.Values && u.email == Lower(email)) || Lower(email) in InheritedKeys
    {
      var key := Lower(email);
      assert key in users ==> users[key] in users.Values;
      key in users || key in InheritedKeys
    }

    /** The key of the signed-in user's record: `getCurrentUser()` without the copy. */
    function CurrentKey(): (k: Option<string>)
      reads this
      ensures k.Some? <==> session.Some? && session.value.email in users
      ensures k.Some? ==> k.value == session.value.email
    {
      if session.Some? && session.value.email in users then Some(session.value.email) else None
    }

    /**
     * `createUser(email, password, profile)`: refused when the lower-cased
     * email is taken or inherited (checked first) or the password has fewer
     * than 8 UTF-16 units; otherwise exactly one record is added under that
     * email.
     */
    method CreateUser(email: string, password: string, profile: ProfileInput, daysToExam: int)
      returns (r: Result<User>)
      requires Valid()
      modifies this`users
      ensures Valid()
      ensures var key := Lower(email);
        if key in old(users) || key in InheritedKeys then r == Err("User already exists") && users == old(users)
        else if JsLength(password) < 8 then
          r == Err("Password must be at least 8 characters") && users == old(users)
        else
          r == Ok(NewUser(key, password, profile, daysToExam)) && users == old(users)[key := r.value]
      ensures r.Ok? ==> users.Keys == old(users).Keys + {Lower(email)}
    {
      var normalizedEmail := Lower(email);
      if normalizedEmail in users || normalizedEmail in InheritedKeys {
        return Err("User already exists");
      }
      if JsLength(password) < 8 {
        return Err("Password must be at least 8 characters");
      }
      var passwordHash := HashPassword(password);
      LowerIdempotent(email);
      var newUser := NewUser(normalizedEmail, password, profile, daysToExam);
      assert newUser.passwordHash == passwordHash;
      users := users[normalizedEmail := newUser];
      r := Ok(newUser);
    }

    /**
     * `loginUser(email, password, remember)`: refused for an unknown email or
     * a password whose hash differs from the stored one; an inherited name has
     * no stored hash, so it is refused as a wrong password. Otherwise the
     * session names the lower-cased email and the stored record is returned.
     */
    method LoginUser(email: string, password: string, remember: bool) returns (r: Result<User>)
      modifies this`session
      ensures users == old(users) && Valid() == old(Valid())
      ensures var key := Lower(email);
        if key !in users && key !in InheritedKeys then
          r == Err("No account found with this email") && session == old(session)
        else if key !in users || users[key].passwordHash != PasswordHash(password) then
          r == Err("Incorrect password") && session == old(session)
        else r == Ok(users[key]) && session == Some(Session(key, remember))
    {
      var normalizedEmail := Lower(email);
      if normalizedEmail !in users && normalizedEmail !in InheritedKeys {
        return Err("No account found with this email");
      }
      if normalizedEmail !in users {
        return Err("Incorrect password");
      }
      var user := users[normalizedEmail];
      var passwordHash := HashPassword(password);
      if user.passwordHash != passwordHash {
        return Err("Incorrect password");
      }
      session := Some(Session(normalizedEmail, remember));
      r := Ok(user);
    }

    /**
     * `updateUserProfile(updates)`: refused with nobody signed in; otherwise
     * each part present is spread over the signed-in user's stored part.
     */
    method UpdateUserProfile(updates: Updates) returns (r: Result<()>)
      requires Valid()
      modifies this`users
      ensures Valid() && CurrentKey() == old(CurrentKey())
      ensures old(CurrentKey()).None? ==> r == Err("Not logged in") && users == old(users)
      ensures old(CurrentKey()).Some? ==>
        var k := old(CurrentKey()).value;
        r == Ok(()) && users == old(users)[k := ApplyUpdates(old(users)[k], updates)]
    {
      var key := CurrentKey();
      if key.None? {
        return Err("Not logged in");
      }
      var user := users[key.value];
      users := users[user.email := ApplyUpdates(users[user.email], updates)];
      r := Ok(());
    }

    /** `updateUserStats(statsUpdates)`. */
    method UpdateUserStats(statsUpdates: StatsPatch) returns (r: Result<()>)
      requires Valid()
      modifies this`users
      ensures Valid() && CurrentKey() == old(CurrentKey())
      ensures old(CurrentKey()).None? ==> r == Err("Not logged in") && users == old(users)
      ensures old(CurrentKey()).Some? ==>
        var k := old(CurrentKey()).value;
        r == Ok(()) && users == old(users)[k := old(users)[k].(stats := MergeStats(old(users)[k].stats, statsUpdates))]
    {
      r := UpdateUserProfile(Updates(None, Some(statsUpdates), None));
    }

    /**
     * `addUserXP(amount)`: nothing with nobody signed in; otherwise the
     * residual loop runs from the stored XP plus `amount` and the stored level,
     * and its level and left-over XP are stored.
     */
    method AddUserXP(amount: int) returns (r: Option<LevelUp>)
      requires Valid()
      modifies this`users
      ensures Valid() && CurrentKey() == old(CurrentKey())
      ensures old(CurrentKey()).None? ==> r.None? && users == old(users)
      ensures old(CurrentKey()).Some? ==>
        var k := old(CurrentKey()).value;
        var s := old(users)[k].stats;
        var p := LevelUps(s.xp + amount, s.level);
        r == Some(LevelUp(p.level, p.xp, p.level > s.level)) &&
        users == old(users)[k := old(users)[k].(stats := s.(xp := p.xp, level := p.level))]
    {
      var key := CurrentKey();
      if key.None? {
        return None;
      }
      var user := users[key.value];
      var newXP := user.stats.xp + amount;
      var newLevel := user.stats.level;
      while newXP >= Progression.XPForLevel(newLevel)
        invariant LevelUps(newXP, newLevel) == LevelUps(user.stats.xp + amount, user.stats.level)
        decreases (if newLevel < 1 then 1 - newLevel else 0), newXP
      {
        newXP := newXP - Progression.XPForLevel(newLevel);
        newLevel := newLevel + 1;
      }
      var _ := UpdateUserStats(NoStats.(xp := Some(newXP), level := Some(newLevel)));
      r := Some(LevelUp(newLevel, newXP, newLevel > user.stats.level));
    }

    /** `addUserBrainCells(amount)`. */
    method AddUserBrainCells(amount: int)
      requires Valid()
      modifies this`users
      ensures Valid() && CurrentKey() == old(CurrentKey())
      ensures old(CurrentKey()).None? ==> users == old(users)
      ensures old(CurrentKey()).Some? ==>
        var k := old(CurrentKey()).value;
        var s := old(users)[k].stats;
        users == old(users)[k := old(users)[k].(stats := s.(braincells := s.braincells + amount))]
    {
      var key := CurrentKey();
      if key.None? {
        return;
      }
      var user := users[key.value];
      var _ := UpdateUserStats(NoStats.(braincells := Some(user.stats.braincells + amount)));
    }

    /**
     * `spendUserBrainCells(amount)`: fails, changing nothing, with nobody
     * signed in or fewer cells than `amount`; otherwise takes exactly `amount`.
     */
    method SpendUserBrainCells(amount: int) returns (ok: bool)
      requires Valid()
      modifies this`users
      ensures Valid() && CurrentKey() == old(CurrentKey())
      ensures old(CurrentKey()).None? ==> !ok && users == old(users)
      ensures old(CurrentKey()).Some? ==>
        var k := old(CurrentKey()).value;
        var s := old(users)[k].stats;
        (ok <==> s.braincells >= amount) &&
        users == if ok then old(users)[k := old(users)[k].(stats := s.(braincells := s.braincells - amount))]
                 else old(users)
    {
      var key := CurrentKey();
      if key.None? {
        return false;
      }
      var user := users[key.value];
      if user.stats.braincells < amount {
        return false;
      }
      var _ := UpdateUserStats(NoStats.(braincells := Some(user.stats.braincells - amount)));
      return true;
    }

    /** `addUserDarkMatter(amount)`. */
    method AddUserDarkMatter(amount: int)
      requires Valid()
      modifies this`users
      ensures Valid() && CurrentKey() == old(CurrentKey())
      ensures old(CurrentKey()).None? ==> users == old(users)
      ensures old(CurrentKey()).Some? ==>
        var k := old(CurrentKey()).value;
        var s := old(users)[k].stats;
        users == old(users)[k := old(users)[k].(stats := s.(darkmatter := s.darkmatter + amount))]
    {
      var key := CurrentKey();
      if key.None? {
        return;
      }
      var user := users[key.value];
      var _ := UpdateUserStats(NoStats.(darkmatter := Some(user.stats.darkmatter + amount)));
    }

    /**
     * `updateUserOracle(correct, total)`: the session is added to the stored
     * totals, and the prediction and probability are recomputed from them. With
     * no question answered at all the source stores NaN; here the Oracle is then
     * left as it was.
     */
    method UpdateUserOracle(correct: int, total: int)
      requires Valid()
      modifies this`users
      ensures Valid() && CurrentKey() == old(CurrentKey())
      ensures old(CurrentKey()).None? ==> users == old(users)
      ensures old(CurrentKey()).Some? ==>
        var k := old(CurrentKey()).value;
        var u := old(users)[k];
        var newTotal := u.stats.totalQuestions + total;
        var newCorrect := u.stats.correctAnswers + correct;
        var stats := u.stats.(totalQuestions := newTotal, correctAnswers := newCorrect);
        users == old(users)[k := u.(stats := stats, oracle :=
          if newTotal == 0 then u.oracle
          else
            var predicted := Prediction(u.profile.exam, newCorrect, newTotal);
            u.oracle.(predictedScore := predicted,
                      probability := OracleProbability(u.oracle.targetScore - predicted, u.oracle.daysLeft)))]
    {
      var key := CurrentKey();
      if key.None? {
        return;
      }
      var user := users[key.value];
      var oracle := users[user.email].oracle;
      var newTotalQuestions := user.stats.totalQuestions + total;
      var newCorrectAnswers := user.stats.correctAnswers + correct;
      var stats := NoStats.(totalQuestions := Some(newTotalQuestions), correctAnswers := Some(newCorrectAnswers));
      if newTotalQuestions == 0 {
        var _ := UpdateUserProfile(Updates(None, Some(stats), None));
        return;
      }
      var predictedScore := Prediction(user.profile.exam, newCorrectAnswers, newTotalQuestions);
      var probability := OracleProbability(oracle.targetScore - predictedScore, oracle.daysLeft);
      var _ := UpdateUserProfile(Updates(None, Some(stats),
                                         Some(NoOracle.(predictedScore := Some(predictedScore),
                                                        probability := Some(probability)))));
    }
  }

  /**
   * Signing up and then signing in with the same password succeeds under any
   * casing of the email, and signs that account in.
   */
  method SignUpThenSignIn(store: Store, email: string, loginEmail: string, password: string,
                          profile: ProfileInput, daysToExam: int, remember: bool)
    returns (created: Result<User>, signedIn: Result<User>)
    requires store.Valid() && !store.UserExists(email) && JsLength(password) >= 8
    requires Lower(loginEmail) == Lower(email)
    modifies store
    ensures created.Ok? && signedIn == created
    ensures store.CurrentKey() == Some(Lower(email))
  {
    created := store.CreateUser(email, password, profile, daysToExam);
    signedIn := store.LoginUser(loginEmail, password, remember);
  }

  /**
   * An email that lower-cases to an inherited member name, such as
   * "Constructor", is taken before anyone signs up, and signing in with it is
   * refused as a wrong password.
   */
  method InheritedEmailRefused(store: Store, password: string, profile: ProfileInput, daysToExam: int)
    returns (created: Result<User>, signedIn: Result<User>)
    requires store.Valid()
    modifies store
    ensures store.Valid() && store.UserExists("Constructor")
    ensures created == Err("User already exists") && signedIn == Err("Incorrect password")
  {
    ConstructorLower();
    created := store.CreateUser("Constructor", password, profile, daysToExam);
    signedIn := store.LoginUser("Constructor", password, false);
  }

  lemma ConstructorLower()
    ensures Lower("Constructor") == "constructor"
  {
    var s, t := "Constructor", "constructor";
    assert s == ['C'] + t[1..] && t == ['c'] + t[1..];
    LowerKeepsLower(t[1..]);
    assert Lower(s) == [LowerChar('C')] + Lower(s[1..]);
  }
}
