/**
 * Arena mode (js/arena.js): a timed run of five questions of one category.
 * The run's state (`arenaState`) is the class `Run`; every handler of the page
 * is a method on it. The one-second interval's body is `Tick`, called by the
 * caller once per second, and `Math.random` is a caller-supplied number or
 * permutation.
 */
module Arena {
  import opened Wrappers
  import opened JsText
  import opened Collections
  import Questions
  import Progression
  import Antigravity

  type Question = Questions.Question

  // ---------------------------------------------------------------------------
  // Feedback after an answer
  // ---------------------------------------------------------------------------

  const Praises: seq<string> := [
    "Excellent work. Your reasoning was sound.",
    "Well done. You demonstrated clear understanding.",
    "Precisely correct. This shows solid mastery.",
    "Perfect. Your approach was methodical and accurate."
  ]

  const PraiseOpen := "<p class=\"text-success mb-2\">"
  const WhyParagraph := "<p class=\"text-danger mb-2\">Let's understand why this matters.</p>"
  const DungeonNote := "<p class=\"mt-2 text-muted text-sm\">\U{1F4A1} This concept will appear in your upcoming dungeon for targeted practice.</p>"

  function ExplanationParagraph(q: Question): string {
    "<p>" + q.explanation + "</p>"
  }

  /**
   * `generateFeedback(question, isCorrect)`: a right answer opens with one of
   * the praises, a wrong one with the "why this matters" line and closes with
   * the practice note; the explanation paragraph is in the middle either way.
   */
  function GenerateFeedback(q: Question, isCorrect: bool, rnd: real): (f: string)
    requires 0.0 <= rnd < 1.0
    ensures isCorrect ==> exists k :: 0 <= k < |Praises| && f == PraiseOpen + Praises[k] + "</p>" + ExplanationParagraph(q)
    ensures !isCorrect ==> f == WhyParagraph + ExplanationParagraph(q) + DungeonNote
  {
    if isCorrect then
      var k := Antigravity.Draw(rnd, |Praises|);
      PraiseOpen + Praises[k] + "</p>" + ExplanationParagraph(q)
    else
      WhyParagraph + ExplanationParagraph(q) + DungeonNote
  }

  /** The explanation paragraph shows the explanation, whatever surrounds it. */
  lemma ParagraphShows(pre: string, q: Question, post: string)
    ensures Contains(pre + ExplanationParagraph(q) + post, q.explanation)
  {
    var e := q.explanation;
    assert pre + ExplanationParagraph(q) + post == (pre + "<p>") + e + ("</p>" + post);
    ContainsInfix(pre + "<p>", e, "</p>" + post);
  }

  /** Whatever the answer, the feedback shows the question's explanation. */
  lemma FeedbackShowsExplanation(q: Question, isCorrect: bool, rnd: real)
    requires 0.0 <= rnd < 1.0
    ensures Contains(GenerateFeedback(q, isCorrect, rnd), q.explanation)
  {
    var f := GenerateFeedback(q, isCorrect, rnd);
    if isCorrect {
      var k :| 0 <= k < |Praises| && f == PraiseOpen + Praises[k] + "</p>" + ExplanationParagraph(q);
      var pre := PraiseOpen + Praises[k] + "</p>";
      ParagraphShows(pre, q, []);
      assert f == pre + ExplanationParagraph(q) + [];
    } else {
      ParagraphShows(WhyParagraph, q, DungeonNote);
    }
  }

  // ---------------------------------------------------------------------------
  // Results of a run
  // ---------------------------------------------------------------------------

  /**
   * `Math.round((correct / total) * 100)`; a run without questions divides
   * zero by zero, and every comparison with the resulting NaN is false: `None`.
   */
  function Accuracy(correct: nat, total: nat): Option<int> {
    if total == 0 then None
    else Some(Progression.Round((correct as real) / (total as real) * 100.0))
  }

  /** Multiplying both sides by a positive number keeps an order. */
  lemma ScaleOrder(a: real, b: real, t: real)
    requires t > 0.0
    ensures a >= b <==> a * t >= b * t
  {
    if a >= b {
      assert a * t - b * t == (a - b) * t;
    } else {
      assert b * t - a * t == (b - a) * t;
    }
  }

  /** The percentage `c / t * 100` against the rounding boundaries, without division. */
  lemma PercentBounds(c: real, t: real)
    requires t > 0.0
    ensures var x := c / t * 100.0;
      (x >= 79.5 <==> 200.0 * c >= 159.0 * t) && (x >= 99.5 <==> 200.0 * c >= 199.0 * t)
      && (x < 100.5 <==> 200.0 * c < 201.0 * t)
  {
    var x := c / t * 100.0;
    assert x * t == 100.0 * c;
    ScaleOrder(x, 79.5, t);
    ScaleOrder(x, 99.5, t);
    ScaleOrder(x, 100.5, t);
    assert x >= 79.5 <==> 100.0 * c >= 79.5 * t;
    assert x >= 99.5 <==> 100.0 * c >= 99.5 * t;
    assert x >= 100.5 <==> 100.0 * c >= 100.5 * t;
  }

  /** The rounded accuracy reaches 80 exactly when `correct/total >= 0.795`, and 100 when it is in `[0.995, 1.005)`. */
  lemma AccuracyThresholds(correct: nat, total: nat)
    requires total > 0
    ensures Accuracy(correct, total).value >= 80 <==> 200 * correct >= 159 * total
    ensures Accuracy(correct, total).value == 100 <==> 199 * total <= 200 * correct < 201 * total
  {
    var t, c := total as real, correct as real;
    var x := c / t * 100.0;
    var r := Progression.Round(x);
    assert Accuracy(correct, total) == Some(r);
    assert r >= 80 <==> x >= 79.5;
    assert r == 100 <==> 99.5 <= x < 100.5;
    PercentBounds(c, t);
    assert 200 * correct >= 159 * total <==> 200.0 * c >= 159.0 * t;
    assert 199 * total <= 200 * correct <==> 199.0 * t <= 200.0 * c;
    assert 200 * correct < 201 * total <==> 200.0 * c < 201.0 * t;
  }

  /** With at most five questions, the 80 bonus means four fifths right and the 100 bonus means all right. */
  lemma FiveQuestionThresholds(correct: nat, total: nat)
    requires 0 < total <= 5 && correct <= total
    ensures Accuracy(correct, total).value >= 80 <==> 5 * correct >= 4 * total
    ensures Accuracy(correct, total).value == 100 <==> correct == total
  {
    AccuracyThresholds(correct, total);
  }

  /** `m:ss`, the elapsed time on the results screen. */
  function ElapsedText(seconds: nat): string {
    ToDigits(seconds / 60, 10) + ":" + PadZeros(ToDigits(seconds % 60, 10), 2)
  }

  /** `mm:ss`, the countdown of `updateTimerDisplay`. */
  function TimerText(seconds: nat): string {
    PadZeros(ToDigits(seconds / 60, 10), 2) + ":" + PadZeros(ToDigits(seconds % 60, 10), 2)
  }

  /** A number below 100 has at most two decimal digits. */
  lemma TwoDigits(n: nat)
    requires n < 100
    ensures |ToDigits(n, 10)| <= 2
  {
    if n >= 10 {
      assert ToDigits(n, 10) == ToDigits(n / 10, 10) + [DigitChar(n % 10)];
    }
  }

  /** The elapsed text reads back, minutes before the colon and two-digit seconds after it, as the seconds it shows. */
  lemma ElapsedTextRoundTrip(seconds: nat)
    ensures var s := ElapsedText(seconds); var k := |s| - 3;
      k >= 1 && s[k] == ':' && 60 * FromDigits(s[..k], 10) + FromDigits(s[k + 1..], 10) == seconds
  {
    var m, sec := ToDigits(seconds / 60, 10), PadZeros(ToDigits(seconds % 60, 10), 2);
    TwoDigits(seconds % 60);
    var s := ElapsedText(seconds);
    assert s == m + ":" + sec;
    assert s[..|m|] == m && s[|m| + 1..] == sec;
    DigitsRoundTrip(seconds / 60, 10);
    DigitsRoundTrip(seconds % 60, 10);
    PadZerosValue(ToDigits(seconds % 60, 10), 2, 10);
  }

  /** Below 100 minutes the countdown is five characters `mm:ss` that read back as its seconds. */
  lemma TimerTextRoundTrip(seconds: nat)
    requires seconds < 6000
    ensures var s := TimerText(seconds);
      |s| == 5 && s[2] == ':' && 60 * FromDigits(s[..2], 10) + FromDigits(s[3..], 10) == seconds
  {
    var m, sec := PadZeros(ToDigits(seconds / 60, 10), 2), PadZeros(ToDigits(seconds % 60, 10), 2);
    TwoDigits(seconds / 60);
    TwoDigits(seconds % 60);
    var s := TimerText(seconds);
    assert s == m + ":" + sec;
    assert s[..2] == m && s[3..] == sec;
    DigitsRoundTrip(seconds / 60, 10);
    DigitsRoundTrip(seconds % 60, 10);
    PadZerosValue(ToDigits(seconds / 60, 10), 2, 10);
    PadZerosValue(ToDigits(seconds % 60, 10), 2, 10);
  }

  /** What the results screen shows and what is awarded. */
  datatype Results = Results(accuracy: Option<int>, time: string, xp: int, cells: int)

  /** Award for the 80 bonus and for the perfect-score bonus, before the wager doubling. */
  function Bonus(accuracy: Option<int>, at80: int, at100: int): int {
    (if accuracy.Some? && accuracy.value >= 80 then at80 else 0)
    + (if accuracy == Some(100) then at100 else 0)
  }

  /**
   * The results of `endArena`: 15 XP and 10 cells per right answer, plus 25 and
   * 15 from 80 per cent, plus 50 and 25 more at 100 per cent, all doubled in
   * wager mode.
   */
  function Outcome(correct: nat, total: nat, totalTime: nat, wager: bool): (r: Results)
    ensures r.accuracy.None? <==> total == 0
    ensures r.xp >= 0 && r.cells >= 0
  {
    var acc := Accuracy(correct, total);
    var xp, cells := 15 * correct + Bonus(acc, 25, 50), 10 * correct + Bonus(acc, 15, 25);
    Results(acc, ElapsedText(totalTime), if wager then 2 * xp else xp, if wager then 2 * cells else cells)
  }

  /** The rewards of a five-question run, in whole-number terms. */
  lemma OutcomeRewards(correct: nat, total: nat, totalTime: nat, wager: bool)
    requires 0 < total <= 5 && correct <= total
    ensures var r := Outcome(correct, total, totalTime, wager);
      var xp := 15 * correct + (if 5 * correct >= 4 * total then 25 else 0) + (if correct == total then 50 else 0);
      var cells := 10 * correct + (if 5 * correct >= 4 * total then 15 else 0) + (if correct == total then 25 else 0);
      r.xp == (if wager then 2 * xp else xp) && r.cells == (if wager then 2 * cells else cells)
  {
    FiveQuestionThresholds(correct, total);
  }

  /** One more right answer, out of the same total, never earns less. */
  lemma MoreCorrectEarnsMore(correct: nat, total: nat, totalTime: nat, wager: bool)
    requires 0 < total <= 5 && correct < total
    ensures Outcome(correct + 1, total, totalTime, wager).xp > Outcome(correct, total, totalTime, wager).xp
    ensures Outcome(correct + 1, total, totalTime, wager).cells > Outcome(correct, total, totalTime, wager).cells
  {
    OutcomeRewards(correct, total, totalTime, wager);
    OutcomeRewards(correct + 1, total, totalTime, wager);
  }

  /** A perfect five-question run earns 150 XP and 90 cells, twice that under the wager. */
  lemma PerfectRun(totalTime: nat, wager: bool)
    ensures Outcome(5, 5, totalTime, wager).xp == (if wager then 300 else 150)
    ensures Outcome(5, 5, totalTime, wager).cells == (if wager then 180 else 90)
  {
    OutcomeRewards(5, 5, totalTime, wager);
  }

  // ---------------------------------------------------------------------------
  // Hints
  // ---------------------------------------------------------------------------

  /** The indices `0 .. n-1` other than `c`, in increasing order. */
  function WrongIndices(n: nat, c: int): (r: seq<nat>)
    ensures |r| == if 0 <= c < n then n - 1 else n
    ensures forall k :: 0 <= k < |r| ==> r[k] < n && r[k] != c
    ensures forall j, k :: 0 <= j < k < |r| ==> r[j] < r[k]
  {
    if n == 0 then [] else WrongIndices(n - 1, c) + (if n - 1 != c then [n - 1] else [])
  }

  /** The first two wrong indices after the shuffle `order`. */
  function Eliminated(wrongs: seq<nat>, order: seq<nat>): (r: seq<nat>)
    requires IsPermutation(order, |wrongs|)
    ensures |r| == if |wrongs| < 2 then |wrongs| else 2
    ensures forall k :: 0 <= k < |r| ==> r[k] in wrongs
    ensures NoDuplicates(wrongs) ==> NoDuplicates(r)
  {
    var shuffled := seq(|order|, k requires 0 <= k < |order| => wrongs[order[k]]);
    assert NoDuplicates(wrongs) ==> NoDuplicates(shuffled) by {
      if NoDuplicates(wrongs) {
        forall i, j | 0 <= i < j < |shuffled| ensures shuffled[i] != shuffled[j] {
          assert order[i] != order[j];
        }
      }
    }
    shuffled[..if |shuffled| < 2 then |shuffled| else 2]
  }

  /** Every question names one of its options as correct. */
  predicate AllWellFormed(qs: seq<Question>) {
    forall i :: 0 <= i < |qs| ==> Questions.WellFormed(qs[i])
  }

  /** The questions of a run come from the bank, so each names one of its options as correct. */
  lemma DrawnQuestionsWellFormed(t: string, order: seq<nat>)
    requires IsPermutation(order, |Questions.Category(t)|)
    ensures AllWellFormed(Questions.GetRandomQuestions(t, 5, order))
  {
    var qs := Questions.GetRandomQuestions(t, 5, order);
    var all := Questions.AllQuestions();
    Questions.CategoryInBank(t);
    Questions.BankWellFormed();
    forall i | 0 <= i < |qs| ensures Questions.WellFormed(qs[i]) {
      var j :| 0 <= j < |all| && all[j] == qs[i];
    }
  }

  // ---------------------------------------------------------------------------
  // The run
  // ---------------------------------------------------------------------------

  /** The invariant of `Run.Consistent`, on the fields it concerns. */
  predicate ConsistentRun(questions: seq<Question>, currentIndex: int, selectedAnswer: Option<int>, answered: bool, timeRemaining: int) {
    AllWellFormed(questions)
    && 0 <= currentIndex && (|questions| > 0 ==> currentIndex < |questions|)
    && (answered ==> selectedAnswer.Some?)
    && 0 <= timeRemaining <= 90
  }

  /** The invariant of `Run.Valid`, on the fields it concerns. */
  predicate ValidRun(questions: seq<Question>, currentIndex: int, selectedAnswer: Option<int>, answered: bool, timeRemaining: int) {
    ConsistentRun(questions, currentIndex, selectedAnswer, answered, timeRemaining)
    && (|questions| > 0 && !answered ==> timeRemaining >= 1)
  }

  class Run {
    var active: bool
    var topic: Option<string>
    var questions: seq<Question>
    var currentIndex: int
    /** `null`, or the option index chosen; a timeout chooses -1. */
    var selectedAnswer: Option<int>
    var answered: bool
    var correct: nat
    var wrong: nat
    var timeRemaining: int
    var totalTime: nat
    var wagerMode: bool
    var hintUsed: bool
    /** Whether the one-second interval is set. */
    var timerRunning: bool
    /** The application state that pays the wager, the hints and the rewards. */
    const app: Progression.App

    /**
     * The questions are well formed; the index names a question when there is
     * one; an answered question has a selection; the countdown stays within
     * 0..90 and is positive while a question waits for an answer.
     */
    predicate Valid()
      reads this
    {
      ValidRun(questions, currentIndex, selectedAnswer, answered, timeRemaining)
    }

    /** `Valid` without the positive clock: the state at the moment the countdown hits zero. */
    predicate Consistent()
      reads this
    {
      ConsistentRun(questions, currentIndex, selectedAnswer, answered, timeRemaining)
    }

    /** The initial `arenaState`. */
    constructor (app: Progression.App)
      ensures Valid()
      ensures this.app == app
      ensures !active && topic.None? && questions == [] && currentIndex == 0
      ensures selectedAnswer.None? && !answered && correct == 0 && wrong == 0
      ensures timeRemaining == 90 && totalTime == 0 && !wagerMode && !hintUsed && !timerRunning
    {
      this.app := app;
      active, topic, questions, currentIndex := false, None, [], 0;
      selectedAnswer, answered, correct, wrong := None, false, 0, 0;
      timeRemaining, totalTime, wagerMode, hintUsed, timerRunning := 90, 0, false, false, false;
    }

    /**
     * `endArena`: the interval is cleared, the run is over, and its rewards go
     * to the application state together with the Oracle update. A run without
     * questions leaves the Oracle as it was (see the README).
     */
    method EndArena() returns (r: Results)
      modifies this`active, this`timerRunning
      modifies app`xp, app`level, app`braincells, app`predictedScore, app`probability
      ensures r == Outcome(correct, |questions|, totalTime, wagerMode)
      ensures !active && !timerRunning
      ensures Consistent() == old(Consistent()) && Valid() == old(Valid())
      ensures currentIndex == old(currentIndex) && selectedAnswer == old(selectedAnswer)
        && answered == old(answered) && hintUsed == old(hintUsed) && timeRemaining == old(timeRemaining)
      ensures app.xp == old(app.xp) + r.xp && app.level == Progression.LevelOf(app.xp)
      ensures app.braincells == old(app.braincells) + r.cells
      ensures |questions| > 0 ==> (
        app.predictedScore == Progression.PredictedScore(Progression.SessionWeight(app.accuracy, correct, |questions|))
        && app.probability == Progression.Probability(app.targetScore - app.predictedScore, app.daysLeft))
      ensures |questions| == 0 ==> app.predictedScore == old(app.predictedScore) && app.probability == old(app.probability)
    {
      timerRunning := false;
      active := false;
      r := Outcome(correct, |questions|, totalTime, wagerMode);
      var _ := app.AddXP(r.xp);
      ghost var xp, level := app.xp, app.level;
      assert level == Progression.LevelOf(xp);
      app.AddBrainCells(r.cells);
      if |questions| > 0 {
        app.UpdateOracle(correct, |questions|);
      }
      assert app.xp == xp && app.level == level;
    }

    /**
     * `loadQuestion(index)`: an index with no question ends the run; otherwise
     * the question is shown with no selection, unanswered, its hint available
     * and 90 seconds on the clock.
     */
    method LoadQuestion(index: int) returns (ended: Option<Results>)
      requires Consistent()
      modifies this`currentIndex, this`selectedAnswer, this`answered, this`hintUsed, this`timeRemaining
      modifies this`active, this`timerRunning
      modifies app`xp, app`level, app`braincells, app`predictedScore, app`probability
      ensures Consistent()
      ensures old(Valid()) || |questions| == 0 || 0 <= index < |questions| ==> Valid()
      ensures 0 <= index < |questions| ==> (
        ended.None? && currentIndex == index && selectedAnswer.None? && !answered && !hintUsed
        && timeRemaining == 90 && active == old(active) && timerRunning == old(timerRunning)
        && app.xp == old(app.xp) && app.level == old(app.level) && app.braincells == old(app.braincells)
        && app.predictedScore == old(app.predictedScore) && app.probability == old(app.probability))
      ensures !(0 <= index < |questions|) ==> (
        ended == Some(Outcome(correct, |questions|, totalTime, wagerMode)) && !active && !timerRunning
        && currentIndex == old(currentIndex) && selectedAnswer == old(selectedAnswer)
        && answered == old(answered) && hintUsed == old(hintUsed) && timeRemaining == old(timeRemaining)
        && app.xp == old(app.xp) + ended.value.xp && app.braincells == old(app.braincells) + ended.value.cells
        && app.level == Progression.LevelOf(app.xp))
      ensures !(0 <= index < |questions|) && |questions| > 0 ==> (
        app.predictedScore == Progression.PredictedScore(Progression.SessionWeight(app.accuracy, correct, |questions|))
        && app.probability == Progression.Probability(app.targetScore - app.predictedScore, app.daysLeft))
      ensures |questions| == 0 ==> app.predictedScore == old(app.predictedScore) && app.probability == old(app.probability)
    {
      if 0 <= index < |questions| {
        ShowQuestion(index);
        ended := None;
      } else {
        var r := EndArena();
        ended := Some(r);
      }
    }

    /** The in-range half of `loadQuestion`: the question shown afresh. */
    method ShowQuestion(index: int)
      requires AllWellFormed(questions) && 0 <= index < |questions|
      modifies this`currentIndex, this`selectedAnswer, this`answered, this`hintUsed, this`timeRemaining
      ensures Valid()
      ensures currentIndex == index && selectedAnswer.None? && !answered && !hintUsed && timeRemaining == 90
    {
      currentIndex, selectedAnswer, answered, hintUsed := index, None, false, false;
      timeRemaining := 90;
    }

    /**
     * `startArena(topic)`: the counters zeroed, the wager paid if asked for and
     * affordable, the first question loaded and the interval started. `drawn`
     * is `getRandomQuestions(topic, 5)`, that is
     * `Questions.GetRandomQuestions(t, 5, order)` for the shuffle `order`
     * (`DrawnQuestionsWellFormed` gives the precondition for every such draw).
     * An unknown category draws no questions, and the run ends at once.
     */
    method Start(t: string, drawn: seq<Question>, wagerChecked: bool) returns (ended: Option<Results>)
      requires Valid()
      requires AllWellFormed(drawn)
      modifies this`topic, this`questions, this`currentIndex, this`selectedAnswer, this`answered
      modifies this`correct, this`wrong, this`totalTime, this`hintUsed, this`wagerMode, this`active
      modifies this`timeRemaining, this`timerRunning
      modifies app`xp, app`level, app`braincells, app`predictedScore, app`probability
      ensures Valid()
      ensures topic == Some(t) && questions == drawn
      ensures currentIndex == 0 && selectedAnswer.None? && !answered && !hintUsed
      ensures correct == 0 && wrong == 0 && totalTime == 0 && timerRunning
      ensures wagerMode <==> wagerChecked && old(app.braincells) >= 25
      ensures |drawn| > 0 ==> (
        active && ended.None? && timeRemaining == 90 && app.xp == old(app.xp) && app.level == old(app.level)
        && app.braincells == old(app.braincells) - (if wagerMode then 25 else 0))
      ensures |drawn| == 0 ==> (
        !active && ended == Some(Outcome(0, 0, 0, wagerMode))
        && app.xp == old(app.xp) + ended.value.xp && app.level == Progression.LevelOf(app.xp)
        && app.braincells == old(app.braincells) - (if wagerMode then 25 else 0) + ended.value.cells)
      ensures app.predictedScore == old(app.predictedScore) && app.probability == old(app.probability)
    {
      Reset(t, drawn, wagerChecked);
      PayWager();
      ended := LoadQuestion(0);
      StartTimer();
    }

    /** The head of `startArena`: a fresh run of `drawn` on topic `t`, its counters at zero. */
    method Reset(t: string, drawn: seq<Question>, wagerChecked: bool)
      requires Valid()
      requires AllWellFormed(drawn)
      modifies this`topic, this`questions, this`currentIndex, this`selectedAnswer, this`answered
      modifies this`correct, this`wrong, this`totalTime, this`hintUsed, this`wagerMode, this`active
      ensures Consistent()
      ensures topic == Some(t) && questions == drawn && active && wagerMode == wagerChecked
      ensures currentIndex == 0 && selectedAnswer.None? && !answered && !hintUsed
      ensures correct == 0 && wrong == 0 && totalTime == 0
    {
      topic, questions := Some(t), drawn;
      currentIndex, selectedAnswer, answered := 0, None, false;
      correct, wrong, totalTime, hintUsed := 0, 0, 0, false;
      wagerMode, active := wagerChecked, true;
    }

    /** The wager of `startArena`: 25 cells when asked for; without them the run is played unwagered. */
    method PayWager()
      modifies this`wagerMode, app`braincells
      ensures old(Consistent()) ==> Consistent()
      ensures wagerMode <==> old(wagerMode) && old(app.braincells) >= 25
      ensures app.braincells == old(app.braincells) - (if wagerMode then 25 else 0)
    {
      if wagerMode {
        var paid := app.SpendBrainCells(25);
        if !paid {
          wagerMode := false;
        }
      }
    }

    /** `startTimer()`: any earlier interval is replaced by a new one. */
    method StartTimer()
      modifies this`timerRunning
      ensures old(Valid()) ==> Valid()
      ensures timerRunning
    {
      timerRunning := true;
    }

    /** `selectAnswer(index)`: ignored once the question is answered. */
    method SelectAnswer(index: int)
      requires Valid()
      modifies this`selectedAnswer
      ensures Valid()
      ensures selectedAnswer == if old(answered) then old(selectedAnswer) else Some(index)
    {
      if answered {
        return;
      }
      selectedAnswer := Some(index);
    }

    /**
     * `submitAnswer()`: without a selection, or once answered, nothing happens.
     * Otherwise the question becomes answered and exactly one of the two
     * counters grows: `correct` when the selection is the right option.
     */
    method SubmitAnswer(rnd: real) returns (feedback: Option<string>)
      requires Consistent() && |questions| > 0 && 0.0 <= rnd < 1.0
      modifies this`answered, this`correct, this`wrong
      ensures Consistent() && (old(Valid()) || answered ==> Valid())
      ensures old(selectedAnswer).None? || old(answered) ==> (
        feedback.None? && answered == old(answered) && correct == old(correct) && wrong == old(wrong))
      ensures old(selectedAnswer).Some? && !old(answered) ==> (
        var q := questions[currentIndex];
        var right := selectedAnswer.value == q.correct;
        answered && correct + wrong == old(correct) + old(wrong) + 1
        && (correct == old(correct) + 1 <==> right) && (wrong == old(wrong) + 1 <==> !right)
        && feedback == Some(GenerateFeedback(q, right, rnd)))
    {
      if selectedAnswer.None? || answered {
        return None;
      }
      answered := true;
      var q := questions[currentIndex];
      var isCorrect := selectedAnswer.value == q.correct;
      if isCorrect {
        correct := correct + 1;
      } else {
        wrong := wrong + 1;
      }
      return Some(GenerateFeedback(q, isCorrect, rnd));
    }

    /**
     * One second of the interval: only an unanswered question's clock runs;
     * when it reaches zero an empty selection becomes -1 and is submitted,
     * which always counts as wrong.
     */
    method Tick(rnd: real) returns (feedback: Option<string>)
      requires Valid() && |questions| > 0 && 0.0 <= rnd < 1.0
      modifies this`timeRemaining, this`totalTime, this`selectedAnswer, this`answered, this`correct, this`wrong
      ensures Valid()
      ensures old(answered) ==> (
        feedback.None? && timeRemaining == old(timeRemaining) && totalTime == old(totalTime)
        && selectedAnswer == old(selectedAnswer) && answered && correct == old(correct) && wrong == old(wrong))
      ensures !old(answered) ==> timeRemaining == old(timeRemaining) - 1 && totalTime == old(totalTime) + 1
      ensures !old(answered) && old(timeRemaining) > 1 ==> (
        feedback.None? && !answered && selectedAnswer == old(selectedAnswer)
        && correct == old(correct) && wrong == old(wrong))
      ensures !old(answered) && old(timeRemaining) == 1 ==> (
        answered && feedback.Some? && correct + wrong == old(correct) + old(wrong) + 1
        && selectedAnswer == (if old(selectedAnswer).None? then Some(-1) else old(selectedAnswer)))
      ensures !old(answered) && old(timeRemaining) == 1 ==> (
        var q := questions[currentIndex];
        var right := selectedAnswer.value == q.correct;
        (correct == old(correct) + 1 <==> right) && (wrong == old(wrong) + 1 <==> !right)
        && feedback == Some(GenerateFeedback(q, right, rnd)))
      ensures !old(answered) && old(timeRemaining) == 1 && old(selectedAnswer).None? ==> (
        wrong == old(wrong) + 1 && correct == old(correct))
    {
      feedback := None;
      if !answered {
        timeRemaining := timeRemaining - 1;
        totalTime := totalTime + 1;
        if timeRemaining <= 0 {
          if selectedAnswer.None? {
            selectedAnswer := Some(-1);
          }
          feedback := SubmitAnswer(rnd);
        }
      }
    }

    /** `nextQuestion()`: the following question, or the end of the run after the last. */
    method NextQuestion() returns (ended: Option<Results>)
      requires Valid()
      modifies this`currentIndex, this`selectedAnswer, this`answered, this`hintUsed, this`timeRemaining
      modifies this`active, this`timerRunning
      modifies app`xp, app`level, app`braincells, app`predictedScore, app`probability
      ensures Valid()
      ensures old(currentIndex) < |questions| - 1 ==> (
        ended.None? && currentIndex == old(currentIndex) + 1 && selectedAnswer.None? && !answered
        && !hintUsed && timeRemaining == 90 && active == old(active) && timerRunning == old(timerRunning)
        && app.xp == old(app.xp) && app.level == old(app.level) && app.braincells == old(app.braincells)
        && app.predictedScore == old(app.predictedScore) && app.probability == old(app.probability))
      ensures old(currentIndex) >= |questions| - 1 ==> (
        ended == Some(Outcome(correct, |questions|, totalTime, wagerMode)) && !active && !timerRunning
        && currentIndex == old(currentIndex) && selectedAnswer == old(selectedAnswer)
        && answered == old(answered) && hintUsed == old(hintUsed) && timeRemaining == old(timeRemaining)
        && app.xp == old(app.xp) + ended.value.xp && app.braincells == old(app.braincells) + ended.value.cells
        && app.level == Progression.LevelOf(app.xp))
      ensures old(currentIndex) >= |questions| - 1 && |questions| > 0 ==> (
        app.predictedScore == Progression.PredictedScore(Progression.SessionWeight(app.accuracy, correct, |questions|))
        && app.probability == Progression.Probability(app.targetScore - app.predictedScore, app.daysLeft))
      ensures |questions| == 0 ==> app.predictedScore == old(app.predictedScore) && app.probability == old(app.probability)
    {
      if currentIndex < |questions| - 1 {
        ended := LoadQuestion(currentIndex + 1);
      } else {
        var r := EndArena();
        ended := Some(r);
      }
    }

    /** `restartArena()`: back to the topic choice with the interval cleared. */
    method Restart()
      modifies this`active, this`timerRunning
      ensures !active && !timerRunning
    {
      active, timerRunning := false, false;
    }

    /**
     * `useHint()`: once per question and only before answering, for 10 cells.
     * It eliminates up to two wrong options, chosen by the shuffle `order` of
     * the wrong indices; when the cells do not suffice nothing changes.
     */
    method UseHint(order: seq<nat>) returns (eliminated: seq<nat>)
      requires Valid() && |questions| > 0
      requires IsPermutation(order, |questions[currentIndex].options| - 1)
      modifies this`hintUsed, app`braincells
      ensures Valid()
      ensures old(hintUsed) || old(answered) || old(app.braincells) < 10 ==> (
        eliminated == [] && hintUsed == old(hintUsed) && app.braincells == old(app.braincells))
      ensures !old(hintUsed) && !old(answered) && old(app.braincells) >= 10 ==> (
        var q := questions[currentIndex];
        hintUsed && app.braincells == old(app.braincells) - 10
        && |eliminated| == (if |q.options| < 3 then |q.options| - 1 else 2)
        && NoDuplicates(eliminated)
        && forall k :: 0 <= k < |eliminated| ==> eliminated[k] < |q.options| && eliminated[k] != q.correct)
    {
      if hintUsed || answered {
        return [];
      }
      var paid := app.SpendBrainCells(10);
      if !paid {
        return [];
      }
      hintUsed := true;
      var q := questions[currentIndex];
      var wrongAnswers: seq<nat> := [];
      for i := 0 to |q.options|
        invariant wrongAnswers == WrongIndices(i, q.correct)
      {
        if i != q.correct {
          wrongAnswers := wrongAnswers + [i];
        }
      }
      eliminated := Eliminated(wrongAnswers, order);
    }
  }

  /** The countdown shown is always `mm:ss` within a run's 90 seconds. */
  lemma CountdownText(r: Run)
    requires r.Valid()
    ensures |TimerText(r.timeRemaining)| == 5
  {
    TimerTextRoundTrip(r.timeRemaining);
  }
}
