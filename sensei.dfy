/**
 * Sensei mode (js/sensei.js): the user teaches a scripted student. The session
 * keeps three keyword scores, walks a topic's follow-up steps one at a time when
 * the user's text hits a trigger, and ends with a grade and a reward.
 *
 * The `setTimeout` callbacks of the source are separate calls: `SendMessage`
 * reports that an answer is due, the caller then runs `GenerateAIResponse`,
 * whose result says which delayed action (the hint message or the end of the
 * session) the source would schedule.
 */
module Sensei {
  import opened Wrappers
  import opened JsText
  import Antigravity

  type Message = Antigravity.Message

  // ---------------------------------------------------------------------------
  // SENSEI_TOPICS
  // ---------------------------------------------------------------------------

  /** One scripted step: any trigger moves the dialogue on and the student answers with `response`. */
  datatype FollowUp = FollowUp(trigger: seq<string>, satisfied: bool, response: string)

  /** The keyword lists of the three scores. */
  datatype Criteria = Criteria(clarity: seq<string>, depth: seq<string>, engagement: seq<string>)

  /** A topic card; the display icon is not modelled. */
  datatype Topic = Topic(title: string, opening: string, followUps: seq<FollowUp>, resistance: seq<string>, criteria: Criteria)

  /** What the session logic relies on: at least one step, one resistance line and one keyword. */
  predicate WellFormed(t: Topic) {
    |t.followUps| > 0 && |t.resistance| > 0 &&
    |t.criteria.clarity| + |t.criteria.depth| + |t.criteria.engagement| > 0
  }

  const QuadraticTopic := Topic(
    "Quadratic Equations",
    "I've heard " + "about " + "quadratic " + "equations but " + "I don't " + "really get " + "them. What " + "exactly is a " + "quadratic " + "equation?",
    [
      FollowUp(["ax^2", "x squared", "second degree", "power of 2", "squared"],
        true,
        "Okay, so it " + "has an x\U{00B2} " + "term. But why " + "does that " + "matter? What " + "makes it " + "different " + "from a " + "regular " + "equation like " + "2x + 3 = 7?"),
      FollowUp(["parabola", "curve", "u-shape", "two solutions", "two roots"],
        true,
        "Interesting! " + "So it can " + "have two " + "solutions " + "because of " + "the curve? " + "How do I " + "actually " + "solve one " + "though?"),
      FollowUp(["factoring", "factor", "quadratic formula", "completing the square"],
        true,
        "Can you give " + "me a simple " + "example? " + "Like, how " + "would you " + "solve x\U{00B2} - 5x " + "+ 6 = 0?"),
      FollowUp(["(x-2)", "(x-3)", "x = 2", "x = 3", "2 and 3"],
        true,
        "Oh! So we " + "find two " + "numbers that " + "multiply to 6 " + "and add to " + "-5. That's -2 " + "and -3. So " + "(x-2)(x-3) = " + "0, meaning x " + "= 2 or x = 3. " + "I think I get " + "it now!")
    ],
    [
      "Hmm, that " + "doesn't quite " + "click for me. " + "Can you be " + "more specific?",
      "I'm not sure " + "I follow. " + "What do you " + "mean exactly?",
      "That seems a " + "bit vague. " + "Can you " + "explain it " + "differently?",
      "I've heard " + "those words " + "before but I " + "still don't " + "understand " + "the concept."
    ],
    Criteria(
      ["clear", "simple", "example", "because", "means", "so"],
      ["formula", "solution", "solve", "roots", "zero", "equals"],
      ["you", "your", "think", "imagine", "notice", "see"]))

  const InferenceTopic := Topic(
    "Making Inferences",
    "My teacher " + "says I need " + "to make " + "'inferences' " + "when reading. " + "But what does " + "that even " + "mean?",
    [
      FollowUp(["conclude", "conclusion", "figure out", "not stated", "between the lines", "implied"],
        true,
        "So it's like " + "reading " + "between the " + "lines? But " + "how do I know " + "if my " + "inference is " + "correct?"),
      FollowUp(["evidence", "clues", "text says", "support", "details"],
        true,
        "Okay, so I " + "need evidence " + "from the " + "text. Can you " + "give me an " + "example?"),
      FollowUp(["example", "for instance", "like when", "imagine", "suppose"],
        true,
        "That makes " + "sense! So I " + "combine what " + "the text says " + "with what I " + "already know. " + "But how is " + "this " + "different " + "from just " + "guessing?"),
      FollowUp(["logical", "makes sense", "reasonable", "supported", "based on"],
        true,
        "Oh, so it's " + "educated " + "reasoning, " + "not random " + "guessing. The " + "text has to " + "support it. I " + "think I " + "understand " + "now!")
    ],
    [
      "I'm still " + "confused. " + "That sounds " + "like just " + "guessing to " + "me.",
      "But how is " + "that " + "different " + "from making " + "stuff up?",
      "I don't see " + "how I'm " + "supposed to " + "know " + "something " + "that isn't " + "written.",
      "That's too " + "abstract. Can " + "you make it " + "more concrete?"
    ],
    Criteria(
      ["clues", "evidence", "text", "author", "implies"],
      ["logical", "reasoning", "support", "conclude", "deduce"],
      ["example", "imagine", "like", "think about", "consider"]))

  const SemicolonsTopic := Topic(
    "Semicolon Usage",
    "I never know " + "when to use a " + "semicolon. It " + "looks like a " + "period but " + "also like a " + "comma? I'm " + "confused.",
    [
      FollowUp(["independent clause", "two sentences", "complete thought", "could be separate"],
        true,
        "So it " + "connects " + "sentences " + "that could " + "stand alone? " + "Why not just " + "use a period " + "then?"),
      FollowUp(["related", "connected", "close", "relationship", "together"],
        true,
        "Ah, so when " + "ideas are " + "closely " + "related! Can " + "you give me " + "an example?"),
      FollowUp(["example", "like", "for instance", ";"],
        true,
        "Okay, I see. " + "Is there any " + "other time " + "I'd use a " + "semicolon?"),
      FollowUp(["however", "therefore", "conjunctive", "list", "commas"],
        true,
        "Got it! So " + "before words " + "like " + "'however' or " + "in complex " + "lists. This " + "is clearer " + "now, thanks!")
    ],
    [
      "That's still " + "not clear to " + "me. When " + "would I " + "actually use " + "one?",
      "But why not just use a comma?",
      "I need a " + "concrete " + "example to " + "understand.",
      "That rule " + "sounds " + "complicated. " + "Is there an " + "easier way to " + "think about " + "it?"
    ],
    Criteria(
      ["sentence", "period", "comma", "connect", "join"],
      ["independent", "clause", "however", "therefore", "list"],
      ["example", "like", "such as", "for instance", "imagine"]))

  const PythagoreanTopic := Topic(
    "Pythagorean Theorem",
    "What's the " + "Pythagorean " + "theorem? I've " + "seen a\U{00B2} + b\U{00B2} " + "= c\U{00B2} but I " + "don't get " + "what it means.",
    [
      FollowUp(["right triangle", "right angle", "90 degree", "legs", "hypotenuse"],
        true,
        "Okay, so it " + "only works " + "for right " + "triangles. " + "But what are " + "the legs and " + "hypotenuse?"),
      FollowUp(["longest side", "across from", "opposite", "shorter sides"],
        true,
        "So a and b " + "are the two " + "shorter " + "sides, and c " + "is the " + "longest one " + "across from " + "the right " + "angle? Can " + "you show me " + "how to use it?"),
      FollowUp(["3", "4", "5", "example", "solve", "find"],
        true,
        "Oh! So if I " + "know two " + "sides, I can " + "find the " + "third. Like " + "3\U{00B2} + 4\U{00B2} = 9 + " + "16 = 25 = 5\U{00B2}. " + "That's cool!"),
      FollowUp(["distance", "real world", "diagonal", "construction", "practical"],
        true,
        "So it's " + "actually " + "useful in " + "real life " + "too, not just " + "math class. I " + "get it now!")
    ],
    [
      "I don't see " + "why this " + "works. It " + "seems like " + "magic.",
      "But what are " + "a, b, and c " + "supposed to " + "be?",
      "Can you " + "explain it " + "without just " + "stating the " + "formula?",
      "Why does " + "squaring the " + "sides matter?"
    ],
    Criteria(
      ["right", "triangle", "sides", "equals", "square"],
      ["hypotenuse", "legs", "opposite", "formula", "solve"],
      ["imagine", "example", "like", "think", "real"]))


  /** `SENSEI_TOPICS[key]`. */
  function TopicNamed(key: string): Option<Topic> {
    if key == "quadratic" then Some(QuadraticTopic)
    else if key == "inference" then Some(InferenceTopic)
    else if key == "semicolons" then Some(SemicolonsTopic)
    else if key == "pythagorean" then Some(PythagoreanTopic)
    else None
  }

  /** Every topic has four steps, four resistance lines and five or six keywords per score. */
  lemma TopicsWellFormed(key: string)
    ensures TopicNamed(key).Some? ==>
      (WellFormed(TopicNamed(key).value) &&
       |TopicNamed(key).value.followUps| == 4 && |TopicNamed(key).value.resistance| == 4)
  {
    QuadraticShape();
    InferenceShape();
    SemicolonsShape();
    PythagoreanShape();
  }

  lemma QuadraticShape()
    ensures |QuadraticTopic.followUps| == 4 && |QuadraticTopic.resistance| == 4 && |QuadraticTopic.criteria.clarity| == 6
  {
  }

  lemma InferenceShape()
    ensures |InferenceTopic.followUps| == 4 && |InferenceTopic.resistance| == 4 && |InferenceTopic.criteria.clarity| == 5
  {
  }

  lemma SemicolonsShape()
    ensures |SemicolonsTopic.followUps| == 4 && |SemicolonsTopic.resistance| == 4 && |SemicolonsTopic.criteria.clarity| == 5
  {
  }

  lemma PythagoreanShape()
    ensures |PythagoreanTopic.followUps| == 4 && |PythagoreanTopic.resistance| == 4 && |PythagoreanTopic.criteria.clarity| == 5
  {
  }

  // ---------------------------------------------------------------------------
  // Scoring, triggers and grading
  // ---------------------------------------------------------------------------

  /** How many of the keywords occur in `lower`: what one `forEach` adds to a score. */
  function Hits(lower: string, keywords: seq<string>): (n: nat)
    ensures n <= |keywords|
  {
    if keywords == [] then 0
    else Hits(lower, keywords[..|keywords| - 1]) + (if Contains(lower, keywords[|keywords| - 1]) then 1 else 0)
  }
  /** The texts of the user's messages, in order: what `analyzeResponse` has scored. */
  function UserTexts(msgs: seq<Message>): (r: seq<string>)
    ensures |r| <= |msgs|
  {
    if msgs == [] then []
    else
      var last := msgs[|msgs| - 1];
      UserTexts(msgs[..|msgs| - 1]) + (if last.sender == Antigravity.User then [last.text] else [])
  }

  /** One more message adds its text when the user sent it. */
  lemma UserTextsSnoc(msgs: seq<Message>, m: Message)
    ensures UserTexts(msgs + [m]) == UserTexts(msgs) + (if m.sender == Antigravity.User then [m.text] else [])
  {
    assert (msgs + [m])[..|msgs|] == msgs;
  }

  /** One more text adds its own hits to the total. */
  lemma TotalHitsSnoc(texts: seq<string>, t: string, keywords: seq<string>)
    ensures TotalHits(texts + [t], keywords) == TotalHits(texts, keywords) + Hits(Lower(t), keywords)
  {
    assert (texts + [t])[..|texts|] == texts;
  }

  /** Reference definition of a score: the keyword hits of every text, added up. */
  function TotalHits(texts: seq<string>, keywords: seq<string>): nat {
    if texts == [] then 0
    else TotalHits(texts[..|texts| - 1], keywords) + Hits(Lower(texts[|texts| - 1]), keywords)
  }

  /** The three scores are the totals of the keyword hits of the user's messages. */
  predicate ScoredBy(c: Criteria, msgs: seq<Message>, clarity: int, depth: int, engagement: int) {
    var texts := UserTexts(msgs);
    clarity == TotalHits(texts, c.clarity) && depth == TotalHits(texts, c.depth) &&
    engagement == TotalHits(texts, c.engagement)
  }

  /** A user message adds its keyword hits to each of the three totals. */
  lemma UserMessageKeepsScores(c: Criteria, msgs: seq<Message>, text: string, clarity: int, depth: int, engagement: int)
    requires ScoredBy(c, msgs, clarity, depth, engagement)
    ensures ScoredBy(c, msgs + [Antigravity.Message(Antigravity.User, text)], clarity + Hits(Lower(text), c.clarity),
      depth + Hits(Lower(text), c.depth), engagement + Hits(Lower(text), c.engagement))
  {
    UserTextsSnoc(msgs, Antigravity.Message(Antigravity.User, text));
    TotalHitsSnoc(UserTexts(msgs), text, c.clarity);
    TotalHitsSnoc(UserTexts(msgs), text, c.depth);
    TotalHitsSnoc(UserTexts(msgs), text, c.engagement);
  }

  /** A message of the Sensei leaves the totals as they are. */
  lemma AiMessageKeepsScores(c: Criteria, msgs: seq<Message>, text: string, clarity: int, depth: int, engagement: int)
    requires ScoredBy(c, msgs, clarity, depth, engagement)
    ensures ScoredBy(c, msgs + [Antigravity.Message(Antigravity.Ai, text)], clarity, depth, engagement)
  {
    UserTextsSnoc(msgs, Antigravity.Message(Antigravity.Ai, text));
    assert UserTexts(msgs) + [] == UserTexts(msgs);
  }



  /** No hit means no keyword occurs; a full count means every keyword does. */
  lemma {:induction false} HitsExtremes(lower: string, keywords: seq<string>)
    ensures Hits(lower, keywords) == 0 <==> !ContainsAny(lower, keywords)
    ensures Hits(lower, keywords) == |keywords| <==> forall k :: 0 <= k < |keywords| ==> Contains(lower, keywords[k])
  {
    if keywords != [] {
      var init := keywords[..|keywords| - 1];
      HitsExtremes(lower, init);
      assert forall k :: 0 <= k < |init| ==> init[k] == keywords[k];
      if Hits(lower, keywords) == 0 {
        assert forall k :: 0 <= k < |keywords| ==> !Contains(lower, keywords[k]) by {
          forall k | 0 <= k < |keywords| ensures !Contains(lower, keywords[k]) {
            if k < |init| {
              assert !ContainsAny(lower, init);
              assert keywords[k] == init[k];
            }
          }
        }
      }
      if Hits(lower, keywords) == |keywords| {
        assert Hits(lower, init) == |init|;
      }
    }
  }

  /** Some trigger of the step, lower-cased, occurs in the lower-cased text. */
  predicate Triggered(f: FollowUp, text: string) {
    exists k :: 0 <= k < |f.trigger| && Contains(Lower(text), Lower(f.trigger[k]))
  }

  /** `checkFollowUpTrigger`: the current step when it exists and the text triggers it. */
  function NextFollowUp(t: Topic, step: nat, text: string): (r: Option<FollowUp>)
    ensures r.Some? <==> step < |t.followUps| && Triggered(t.followUps[step], text)
    ensures r.Some? ==> r.value == t.followUps[step]
  {
    if step < |t.followUps| && Triggered(t.followUps[step], text) then Some(t.followUps[step]) else None
  }

  /** The `reduce` over the three keyword lists: each list's size times (steps reached + 1). */
  function MaxPossible(c: Criteria, step: nat): (m: nat)
    ensures m == (|c.clarity| + |c.depth| + |c.engagement|) * (step + 1)
  {
    0 + |c.clarity| * (step + 1) + |c.depth| * (step + 1) + |c.engagement| * (step + 1)
  }

  lemma MulAddRight(k: nat, a: nat, d: nat)
    ensures k * (a + d) == k * a + k * d
  {
  }

  lemma MulAtLeast(k: nat, d: nat)
    requires d >= 1
    ensures k * d >= k
  {
  }

  /** No table topic is graded against zero: `endSensei` never divides by zero. */
  lemma MaxPossiblePositive(key: string, step: nat)
    requires TopicNamed(key).Some?
    ensures MaxPossible(TopicNamed(key).value.criteria, step) > 0
  {
    TopicsWellFormed(key);
  }

  /** Each step reached makes more keywords available: the maximum grows with the step. */
  lemma MaxPossibleGrows(c: Criteria, s1: nat, s2: nat)
    requires s1 <= s2
    ensures MaxPossible(c, s1) <= MaxPossible(c, s2)
    ensures s1 < s2 && |c.clarity| + |c.depth| + |c.engagement| > 0 ==> MaxPossible(c, s1) < MaxPossible(c, s2)
  {
    var k := |c.clarity| + |c.depth| + |c.engagement|;
    MulAddRight(k, s1 + 1, s2 - s1);
    if s1 < s2 && k > 0 {
      MulAtLeast(k, s2 - s1);
    }
  }

  /** A total score earns no better reward when it is graded after more steps. */
  lemma LaterStepNoBetterGrade(total: nat, c: Criteria, s1: nat, s2: nat, satisfied: bool)
    requires s1 <= s2 && |c.clarity| + |c.depth| + |c.engagement| > 0
    ensures Evaluate(total, MaxPossible(c, s2), satisfied).xp <= Evaluate(total, MaxPossible(c, s1), satisfied).xp
    ensures Evaluate(total, MaxPossible(c, s2), satisfied).darkMatter <= Evaluate(total, MaxPossible(c, s1), satisfied).darkMatter
  {
    MaxPossibleGrows(c, s1, s2);
    var m1, m2 := MaxPossible(c, s1), MaxPossible(c, s2);
    assert 85 * m1 <= 85 * m2 && 70 * m1 <= 70 * m2 && 50 * m1 <= 50 * m2;
  }

  datatype Grade = A | B | C | D

  /** The grade with its XP and dark-matter reward. */
  datatype Evaluation = Evaluation(grade: Grade, xp: nat, darkMatter: nat)

  function Min(x: real, y: real): real {
    if x <= y then x else y
  }

  /** `Math.min(100, total / maxPossible * 100 + (satisfied ? 40 : 0))`, in exact arithmetic. */
  function Percentage(total: nat, maxPossible: nat, satisfied: bool): real
    requires maxPossible > 0
  {
    Min(100.0, (total as real) / (maxPossible as real) * 100.0 + (if satisfied then 40.0 else 0.0))
  }

  /** `ratio * 100 >= bound` compared without division. */
  lemma RatioAtLeast(total: nat, maxPossible: nat, bound: real)
    requires maxPossible > 0
    ensures (total as real) / (maxPossible as real) * 100.0 >= bound <==> 100.0 * (total as real) >= bound * (maxPossible as real)
  {
    var m := maxPossible as real;
    var r := (total as real) / m;
    assert r * m == total as real;
    assert r * 100.0 * m == 100.0 * (total as real);
    if r * 100.0 >= bound {
      assert r * 100.0 * m >= bound * m;
    } else {
      assert r * 100.0 * m < bound * m;
    }
  }

  /**
   * The grading of `endSensei`: the percentage thresholds 85, 70 and 50, written
   * as integer cross-multiplications, with a satisfied student always giving A.
   */
  function Evaluate(total: nat, maxPossible: nat, satisfied: bool): (e: Evaluation)
    requires maxPossible > 0
    ensures e.grade == A <==> satisfied || 100 * total >= 85 * maxPossible
    ensures e.grade == B <==> !satisfied && 70 * maxPossible <= 100 * total < 85 * maxPossible
    ensures e.grade == C <==> !satisfied && 50 * maxPossible <= 100 * total < 70 * maxPossible
    ensures e.grade == D <==> !satisfied && 100 * total < 50 * maxPossible
    ensures e == Rewarded(e.grade)
  {
    RatioAtLeast(total, maxPossible, 85.0);
    RatioAtLeast(total, maxPossible, 70.0);
    RatioAtLeast(total, maxPossible, 50.0);
    var percentage := Percentage(total, maxPossible, satisfied);
    if percentage >= 85.0 || satisfied then Rewarded(A)
    else if percentage >= 70.0 then Rewarded(B)
    else if percentage >= 50.0 then Rewarded(C)
    else Rewarded(D)
  }

  /** The reward table: A 150 XP and 2 dark matter, B 100 and 1, C 50, D 25. */
  function Rewarded(g: Grade): (e: Evaluation)
    ensures e.grade == g
  {
    match g
    case A => Evaluation(A, 150, 2)
    case B => Evaluation(B, 100, 1)
    case C => Evaluation(C, 50, 0)
    case D => Evaluation(D, 25, 0)
  }

  /** A better grade never earns less. */
  lemma RewardMonotone(total1: nat, total2: nat, maxPossible: nat, satisfied: bool)
    requires maxPossible > 0 && total1 <= total2
    ensures Evaluate(total1, maxPossible, satisfied).xp <= Evaluate(total2, maxPossible, satisfied).xp
    ensures Evaluate(total1, maxPossible, satisfied).darkMatter <= Evaluate(total2, maxPossible, satisfied).darkMatter
  {
  }

  /** What `generateAIResponse` leaves pending on a timer. */
  datatype Timer =
    | NoTimer
      /** `endSensei()` after 2 s: every step was reached. */
    | EndTimer
      /** `addMessage('ai', text)` after 1 s: the hint for a stuck user. */
    | NudgeTimer(text: string)

  const NudgePrefix := "Let me ask more specifically: "

  // ---------------------------------------------------------------------------
  // senseiState
  // ---------------------------------------------------------------------------

  class Session {
    var active: bool
    var topic: Option<string>
    var topicData: Option<Topic>
    var messages: seq<Message>
    var currentFollowUp: nat
    var clarity: nat
    var depth: nat
    var engagement: nat
    var messageCount: nat
    var satisfied: bool

    /**
     * The step index never passes the number of steps and the student is
     * satisfied exactly when it has reached it; without a topic nothing has started.
     */
    predicate Valid()
      reads this
    {
      (topicData.None? ==> !active && currentFollowUp == 0 && !satisfied) &&
      (topicData.Some? ==>
        WellFormed(topicData.value) && currentFollowUp <= |topicData.value.followUps| &&
        (satisfied <==> currentFollowUp == |topicData.value.followUps|))
    }

    /** Each score is the reference total over the user's messages so far. */
    predicate Scored()
      reads this
    {
      topicData.Some? ==> ScoredBy(topicData.value.criteria, messages, clarity, depth, engagement)
    }

    /** The initial `senseiState`. */
    constructor ()
      ensures Valid()
      ensures !active && topic.None? && topicData.None? && messages == []
      ensures currentFollowUp == 0 && clarity == 0 && depth == 0 && engagement == 0
      ensures messageCount == 0 && !satisfied
    {
      active := false;
      topic := None;
      topicData := None;
      messages := [];
      currentFollowUp := 0;
      clarity, depth, engagement := 0, 0, 0;
      messageCount := 0;
      satisfied := false;
    }

    /** `addMessage(sender, text)`: the chat line is appended and nothing else changes. */
    method AddMessage(sender: Antigravity.Sender, text: string)
      modifies this`messages
      ensures messages == old(messages) + [Antigravity.Message(sender, text)]
    {
      messages := messages + [Antigravity.Message(sender, text)];
    }

    /**
     * `startSensei(key)`: a fresh session on the topic whose only message is the
     * topic's opening question. For a key with no topic the resets and
     * `active = true` still happen, and the title update then fails on the
     * missing topic data: the session is left active with no topic data and no
     * message, a state `Valid()` excludes.
     */
    method Start(key: string) returns (r: Result<()>)
      modifies this
      ensures r.Ok? <==> TopicNamed(key).Some?
      ensures active && topic == Some(key) && topicData == TopicNamed(key)
      ensures currentFollowUp == 0 && clarity == 0 && depth == 0 && engagement == 0
      ensures messageCount == 0 && !satisfied
      ensures r.Ok? ==>
        Valid() && Scored() && messages == [Antigravity.Message(Antigravity.Ai, TopicNamed(key).value.opening)]
      ensures r.Err? ==> !Valid() && messages == [] && r == Err("TypeError")
    {
      TopicsWellFormed(key);
      var data := TopicNamed(key);
      topic := Some(key);
      topicData := data;
      messages := [];
      currentFollowUp := 0;
      clarity, depth, engagement := 0, 0, 0;
      messageCount := 0;
      satisfied := false;
      active := true;
      if data.None? {
        return Err("TypeError");
      }
      AddMessage(Antigravity.Ai, data.value.opening);
      assert messages[..0] == [];
      r := Ok(());
    }

    /** `analyzeResponse(text)`: each score gains the number of its keywords found in the text. */
    method AnalyzeResponse(text: string)
      requires topicData.Some?
      modifies this`clarity, this`depth, this`engagement
      ensures var c := topicData.value.criteria; var lower := Lower(text);
        clarity == old(clarity) + Hits(lower, c.clarity) &&
        depth == old(depth) + Hits(lower, c.depth) &&
        engagement == old(engagement) + Hits(lower, c.engagement)
    {
      var c := topicData.value.criteria;
      var lower := Lower(text);
      for i := 0 to |c.clarity|
        invariant clarity == old(clarity) + Hits(lower, c.clarity[..i])
        modifies this`clarity
      {
        assert c.clarity[..i + 1][..i] == c.clarity[..i];
        if Contains(lower, c.clarity[i]) {
          clarity := clarity + 1;
        }
      }
      assert c.clarity[..|c.clarity|] == c.clarity;
      for i := 0 to |c.depth|
        invariant depth == old(depth) + Hits(lower, c.depth[..i])
        modifies this`depth
      {
        assert c.depth[..i + 1][..i] == c.depth[..i];
        if Contains(lower, c.depth[i]) {
          depth := depth + 1;
        }
      }
      assert c.depth[..|c.depth|] == c.depth;
      for i := 0 to |c.engagement|
        invariant engagement == old(engagement) + Hits(lower, c.engagement[..i])
        modifies this`engagement
      {
        assert c.engagement[..i + 1][..i] == c.engagement[..i];
        if Contains(lower, c.engagement[i]) {
          engagement := engagement + 1;
        }
      }
      assert c.engagement[..|c.engagement|] == c.engagement;
    }

    /**
     * `sendMessage()` with the input box's text: ignored when the trimmed text is
     * empty or the session is over; otherwise the trimmed text is appended as a
     * user message, counted and scored, and an answer is due (`sent`).
     */
    method SendMessage(input: string) returns (sent: bool)
      requires Valid()
      modifies this
      ensures active == old(active) && topic == old(topic) && topicData == old(topicData)
      ensures currentFollowUp == old(currentFollowUp) && satisfied == old(satisfied)
      ensures Valid()
      ensures sent <==> Trim(input) != [] && old(active)
      ensures old(Scored()) ==> Scored()
      ensures !sent ==>
        (messages == old(messages) && messageCount == old(messageCount) &&
         clarity == old(clarity) && depth == old(depth) && engagement == old(engagement))
      ensures sent ==>
        (messages == old(messages) + [Antigravity.Message(Antigravity.User, Trim(input))] &&
         messageCount == old(messageCount) + 1 &&
         var c := topicData.value.criteria; var lower := Lower(Trim(input));
         clarity == old(clarity) + Hits(lower, c.clarity) &&
         depth == old(depth) + Hits(lower, c.depth) &&
         engagement == old(engagement) + Hits(lower, c.engagement))
    {
      var text := Trim(input);
      if text == [] || !active {
        return false;
      }
      ghost var c, before, cl, de, en := topicData.value.criteria, messages, clarity, depth, engagement;
      ghost var wasScored := ScoredBy(c, before, cl, de, en);
      AddMessage(Antigravity.User, text);
      messageCount := messageCount + 1;
      AnalyzeResponse(text);
      sent := true;
      if wasScored {
        UserMessageKeepsScores(c, before, text, cl, de, en);
      }
    }

    /** `checkFollowUpTrigger(text)`: a search over the current step's triggers. */
    method CheckFollowUpTrigger(text: string) returns (r: Option<FollowUp>)
      requires topicData.Some?
      ensures r == NextFollowUp(topicData.value, currentFollowUp, text)
    {
      var followUps := topicData.value.followUps;
      if currentFollowUp >= |followUps| {
        return None;
      }
      var followUp := followUps[currentFollowUp];
      var lower := Lower(text);
      for i := 0 to |followUp.trigger|
        invariant forall k :: 0 <= k < i ==> !Contains(lower, Lower(followUp.trigger[k]))
      {
        if Contains(lower, Lower(followUp.trigger[i])) {
          return Some(followUp);
        }
      }
      return None;
    }

    /**
     * `generateAIResponse(userText)`: on a trigger the student answers with the
     * step's response and moves on one step, becoming satisfied (and the session
     * due to end) after the last; otherwise it answers with a resistance line and,
     * after more than six messages without progress, the hint becomes due.
     */
    method GenerateAIResponse(userText: string, rnd: real) returns (timer: Timer)
      requires Valid() && topicData.Some? && 0.0 <= rnd < 1.0
      modifies this
      ensures active == old(active) && topic == old(topic) && topicData == old(topicData)
      ensures clarity == old(clarity) && depth == old(depth) && engagement == old(engagement)
      ensures messageCount == old(messageCount)
      ensures Valid()
      ensures old(Scored()) ==> Scored()
      ensures var t := topicData.value; var next := NextFollowUp(t, old(currentFollowUp), userText);
        if next.Some? then
          messages == old(messages) + [Antigravity.Message(Antigravity.Ai, next.value.response)] &&
          currentFollowUp == old(currentFollowUp) + 1 &&
          (timer == EndTimer <==> currentFollowUp == |t.followUps|) &&
          (timer != EndTimer ==> timer == NoTimer)
        else
          messages == old(messages) +
            [Antigravity.Message(Antigravity.Ai, t.resistance[Antigravity.Draw(rnd, |t.resistance|)])] &&
          currentFollowUp == old(currentFollowUp) && satisfied == old(satisfied) &&
          timer == (if messageCount > 6 && currentFollowUp == 0 then NudgeTimer(NudgePrefix + t.opening) else NoTimer)
    {
      var t := topicData.value;
      var triggered := CheckFollowUpTrigger(userText);
      if triggered.Some? {
        AddMessage(Antigravity.Ai, triggered.value.response);
        currentFollowUp := currentFollowUp + 1;
        if currentFollowUp >= |t.followUps| {
          satisfied := true;
          timer := EndTimer;
        } else {
          timer := NoTimer;
        }
      } else {
        var resistance := t.resistance[Antigravity.Draw(rnd, |t.resistance|)];
        AddMessage(Antigravity.Ai, resistance);
        if messageCount > 6 && currentFollowUp == 0 {
          timer := NudgeTimer(NudgePrefix + t.opening);
        } else {
          timer := NoTimer;
        }
      }
      if old(Scored()) {
        AiMessageKeepsScores(t.criteria, old(messages), messages[|messages| - 1].text, clarity, depth, engagement);
      }
    }

    /**
     * The grading half of `endSensei()`: the session stops and is graded on its
     * total score against the keywords available over the steps reached.
     */
    method EndSensei() returns (e: Evaluation)
      requires Valid() && topicData.Some?
      modifies this`active
      ensures !active && Valid()
      ensures e == Evaluate(clarity + depth + engagement, MaxPossible(topicData.value.criteria, currentFollowUp), satisfied)
      ensures satisfied ==> e == Evaluation(A, 150, 2)
    {
      active := false;
      var total := clarity + depth + engagement;
      var maxPossible := MaxPossible(topicData.value.criteria, currentFollowUp);
      e := Evaluate(total, maxPossible, satisfied);
    }
  }

  // ---------------------------------------------------------------------------
  // Properties of whole sessions
  // ---------------------------------------------------------------------------

  /**
   * Over a whole session each score is bounded by the number of user messages
   * times its keywords: no message can score a keyword twice.
   */
  lemma {:induction false} TotalHitsBound(texts: seq<string>, keywords: seq<string>)
    ensures TotalHits(texts, keywords) <= |texts| * |keywords|
  {
    if texts != [] {
      TotalHitsBound(texts[..|texts| - 1], keywords);
      MulSucc(|texts| - 1, |keywords|);
    }
  }

  /** Every keyword occurs in the text. */
  predicate HitsAll(lower: string, keywords: seq<string>) {
    forall k :: 0 <= k < |keywords| ==> Contains(lower, keywords[k])
  }

  /** A session whose user messages each hit every keyword scores the bound exactly. */
  lemma {:induction false} TotalHitsAll(texts: seq<string>, keywords: seq<string>)
    requires forall i :: 0 <= i < |texts| ==> HitsAll(Lower(texts[i]), keywords)
    ensures TotalHits(texts, keywords) == |texts| * |keywords|
  {
    if texts != [] {
      var n := |texts| - 1;
      var init := texts[..n];
      assert forall i :: 0 <= i < |init| ==> init[i] == texts[i];
      TotalHitsAll(init, keywords);
      assert HitsAll(Lower(texts[n]), keywords);
      AllKeywordsCount(Lower(texts[n]), keywords);
      MulSucc(n, |keywords|);
    }
  }

  lemma MulSucc(n: nat, k: nat)
    ensures (n + 1) * k == n * k + k
  {
  }

  /** A text that hits every keyword of a score adds the whole list to it. */
  lemma AllKeywordsCount(lower: string, keywords: seq<string>)
    requires forall k :: 0 <= k < |keywords| ==> Contains(lower, keywords[k])
    ensures Hits(lower, keywords) == |keywords|
  {
    HitsExtremes(lower, keywords);
  }

  /** Once every step has been reached no text triggers anything. */
  lemma FinishedNeverTriggers(t: Topic, text: string)
    ensures NextFollowUp(t, |t.followUps|, text).None?
  {
  }

  /**
   * A text containing one of the step's triggers, written in any letter case
   * (`word` lower-cases as the trigger does), moves the dialogue on.
   */
  lemma TriggerInText(t: Topic, step: nat, a: string, word: string, b: string, k: nat)
    requires step < |t.followUps| && k < |t.followUps[step].trigger|
    requires Lower(word) == Lower(t.followUps[step].trigger[k])
    ensures NextFollowUp(t, step, a + word + b) == Some(t.followUps[step])
  {
    LowerConcat(a, word);
    LowerConcat(a + word, b);
    ContainsInfix(Lower(a), Lower(word), Lower(b));
  }
}
