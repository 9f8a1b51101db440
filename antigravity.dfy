/**
 * ANTIGRAVITY, the mentor persona (js/antigravity.js): mistake diagnosis,
 * template-based arena feedback, the Sensei quality score, the comprehension
 * log and the study recommendation.
 *
 * Every `Math.floor(Math.random() * pool.length)` is `Draw(rnd, |pool|)` with a
 * caller-supplied `rnd` in [0, 1).
 */
module Antigravity {
  import opened Wrappers
  import opened JsText
  import opened Collections
  import Questions

  // ---------------------------------------------------------------------------
  // Shared pieces
  // ---------------------------------------------------------------------------

  /** `Math.floor(rnd * n)` for `rnd = Math.random()`: an index into a pool of `n`. */
  function Draw(rnd: real, n: nat): (k: nat)
    requires 0.0 <= rnd < 1.0 && n > 0
    ensures k < n
  {
    assert 0.0 <= rnd * (n as real) < n as real by {
      assert rnd * (n as real) <= (n as real) * rnd;
    }
    (rnd * (n as real)).Floor
  }

  datatype Sender = User | Ai

  /** One chat line, `{ sender, text }`. */
  datatype Message = Message(sender: Sender, text: string)

  /**
   * A response template: literal text around one placeholder (`One`) or two
   * (`Two`); a placeholder is a key such as `{insight}`.
   */
  datatype Template =
    | One(head: string, key: string, tail: string)
    | Two(head: string, key1: string, mid: string, key2: string, tail: string)

  /** The template as it is written in the pool. */
  function Text(t: Template): string {
    match t
    case One(h, k, tl) => h + k + tl
    case Two(h, k1, m, k2, tl) => h + k1 + m + k2 + tl
  }

  /** The template with its first placeholder filled by `v1` and its second by `v2`. */
  function Filled(t: Template, v1: string, v2: string): string {
    match t
    case One(h, _, tl) => h + v1 + tl
    case Two(h, _, m, _, tl) => h + v1 + m + v2 + tl
  }

  /** A value that `replace` inserts literally and that cannot start a placeholder. */
  predicate Inert(v: string) {
    '{' !in v && PlainReplacement(v)
  }

  /**
   * The literal text before each placeholder has no brace, and every key starts
   * with one: the first occurrence of a key is then the placeholder itself.
   */
  predicate GoodTemplate(t: Template) {
    match t
    case One(h, k, _) => '{' !in h && |k| > 0 && k[0] == '{'
    case Two(h, k1, m, k2, _) => '{' !in h && '{' !in m && |k1| > 0 && k1[0] == '{' && |k2| > 0 && k2[0] == '{'
  }

  /** Text without a brace contains no placeholder. */
  lemma NoBraceNoMatch(s: string, p: string)
    requires '{' !in s && |p| > 0 && p[0] == '{'
    ensures !Contains(s, p)
  {
    forall i: nat ensures !MatchAt(s, p, i) {
      if i + |p| <= |s| {
        assert s[i..i + |p|][0] == s[i];
      }
    }
    ContainsIff(s, p);
  }

  /**
   * A key whose second character differs from that of `p` does not start a match
   * of `p`, so `p` is absent from `a + k + b` when it is absent from `b`.
   */
  lemma SkipKey(a: string, k: string, b: string, p: string)
    requires '{' !in a && |k| >= 2 && '{' !in k[1..] && |p| >= 2 && p[0] == '{' && k[1] != p[1]
    requires !Contains(b, p)
    ensures !Contains(a + k + b, p)
  {
    var s := a + k + b;
    ContainsIff(b, p);
    forall i: nat ensures !MatchAt(s, p, i) {
      if i + |p| <= |s| {
        if i < |a| {
          assert s[i..i + |p|][0] == s[i] == a[i];
        } else if i == |a| {
          assert s[i..i + |p|][1] == k[1];
        } else if i < |a| + |k| {
          assert s[i..i + |p|][0] == s[i] == k[1..][i - |a| - 1];
        } else {
          assert s[i..i + |p|] == b[i - |a| - |k|..i - |a| - |k| + |p|];
          assert !MatchAt(b, p, i - |a| - |k|);
        }
      }
    }
    ContainsIff(s, p);
  }

  /** Filling a one-slot template with `replace`. */
  lemma FillOne(t: Template, v: string)
    requires t.One? && GoodTemplate(t) && PlainReplacement(v)
    ensures Replace(Text(t), t.key, v) == Filled(t, v, [])
  {
    ReplaceFirst(t.head, t.key, t.tail, v);
  }

  /** Filling a two-slot template with two `replace` calls, first key first. */
  lemma FillTwo(t: Template, v1: string, v2: string)
    requires t.Two? && GoodTemplate(t) && Inert(v1) && PlainReplacement(v2)
    ensures Replace(Replace(Text(t), t.key1, v1), t.key2, v2) == Filled(t, v1, v2)
  {
    assert Text(t) == t.head + t.key1 + (t.mid + t.key2 + t.tail);
    ReplaceFirst(t.head, t.key1, t.mid + t.key2 + t.tail, v1);
    assert t.head + v1 + (t.mid + t.key2 + t.tail) == (t.head + v1 + t.mid) + t.key2 + t.tail;
    ReplaceFirst(t.head + v1 + t.mid, t.key2, t.tail, v2);
  }


  /** A value without `$` is inserted by `replace` as it is. */
  lemma DollarFreePlain(v: string)
    requires '$' !in v
    ensures PlainReplacement(v)
  {
  }

  // ---------------------------------------------------------------------------
  // Template pools (ANTIGRAVITY.templates)
  //
  // Text that a proof needs to know is free of `{` or `$` is held in a named
  // constant written in short pieces, each of which the verifier checks
  // character by character.
  // ---------------------------------------------------------------------------

  // arenaCorrect
  const CorrectHead0 := "Precisely. " + "Your " + "reasoning was " + "methodical " + "and sound. "
  const CorrectHead1 := "Excellent " + "work. You " + "clearly " + "understand " + "the " + "underlying " + "concept here. "
  const CorrectHead2 := "Well done. " + "That's the " + "kind of " + "clarity that " + "translates to " + "real scores. "
  const CorrectHead3 := "Perfect execution. "
  const CorrectHead4 := "Correct. And " + "more " + "importantly, " + "your approach " + "was " + "efficient. "

  const ArenaCorrect: seq<Template> := [
    One(CorrectHead0, "{insight}", ""),
    One(CorrectHead1, "{insight}", ""),
    One(CorrectHead2, "{insight}", ""),
    One(CorrectHead3, "{insight}", " Keep this momentum going."),
    One(CorrectHead4, "{insight}", "")
  ]

  // arenaIncorrect
  const IncorrectHead0 := "Not quite, " + "but I see " + "where your " + "thinking " + "went. "
  const IncorrectHead1 := "Close, but " + "there's a " + "subtle trap " + "here that " + "many students " + "fall into. "
  const IncorrectHead2 := "This is a " + "common " + "misconception, " + "and " + "understanding " + "why matters " + "more than the " + "answer. "
  const IncorrectHead3 := "Let's pause here. "
  const IncorrectHead4 := "Interesting " + "approach, but " + "it missed a " + "crucial " + "element. "
  const UnpackMid := " Let's unpack this: "
  const KeyInsightMid := " The key insight is: "
  const PathMid := " Here's the path: "

  const ArenaIncorrect: seq<Template> := [
    Two(IncorrectHead0, "{diagnosis}", UnpackMid, "{explanation}", ""),
    Two(IncorrectHead1, "{diagnosis}", " ", "{explanation}", ""),
    Two(IncorrectHead2, "{diagnosis}", " ", "{explanation}", ""),
    Two(IncorrectHead3, "{diagnosis}", KeyInsightMid, "{explanation}", ""),
    Two(IncorrectHead4, "{diagnosis}", PathMid, "{explanation}", "")
  ]

  // arenaTimeout
  const TimeoutHead0 := "Time's up, " + "but this is " + "valuable " + "data. Let's " + "review what " + "made this one " + "tricky. "
  const TimeoutHead1 := "Don't worry " + "about the " + "clock. What " + "matters is " + "understanding " + "why: "
  const TimeoutHead2 := "Speed comes " + "with mastery. " + "For now, " + "focus on the " + "concept: "

  const ArenaTimeout: seq<Template> := [
    One(TimeoutHead0, "{explanation}", ""),
    One(TimeoutHead1, "{explanation}", ""),
    One(TimeoutHead2, "{explanation}", "")
  ]

  // senseiAccept
  const AcceptHead0 := "Oh! Now THAT " + "makes sense. " + "The way you " + "broke it down " + "with "
  const AcceptHead1 := "Yes! That example with "
  const AcceptHead2 := "Now I get it. "
  const AcceptHead3 := "Perfect " + "explanation. " + "I could teach " + "this to " + "someone else " + "now because " + "of "
  const AcceptHead4 := "That's the " + "kind of " + "clarity that " + "proves " + "mastery. "

  const SenseiAccept: seq<Template> := [
    One(AcceptHead0, "{highlight}", " really clicked."),
    One(AcceptHead1, "{highlight}", " made it crystal clear."),
    One(AcceptHead2, "{highlight}", " - that's the key insight I was missing."),
    One(AcceptHead3, "{highlight}", "."),
    One(AcceptHead4, "{highlight}", " is exactly right.")
  ]

  // studyRec
  const StudyHead0 := "Based on your " + "pattern, I'd " + "focus on "
  const StudyTail0 := " next. You're almost there."
  const StudyHead1 := "Your "
  const StudyMid1 := " needs attention, but your "
  const StudyTail1 := " is solid. " + "Strategic " + "play: shore " + "up the weak " + "spot."
  const StudyHead2 := "You're " + "leaving " + "points on the " + "table in "
  const StudyTail2 := ". 30 minutes " + "of focused " + "practice " + "could unlock " + "+50 points."
  const StudyHead3 := "I notice you rush through "
  const StudyTail3 := " questions. " + "Slow down - " + "speed will " + "come " + "naturally " + "with " + "confidence."

  const StudyRec: seq<Template> := [
    One(StudyHead0, "{topic}", StudyTail0),
    Two(StudyHead1, "{weakArea}", StudyMid1, "{strongArea}", StudyTail1),
    One(StudyHead2, "{weakArea}", StudyTail2),
    One(StudyHead3, "{topic}", StudyTail3)
  ]

  const SenseiProbe: seq<string> := [
    "Interesting. But what if I asked: why does that work?",
    "I think I follow, but can you give me a concrete example?",
    "That sounds like a textbook answer. Can you explain it in your own words?",
    "Hmm, I'm not quite seeing it. What's the intuition behind that?",
    "Wait, but what happens if we change one variable? Would it still work?",
    "I've heard that before, but I still don't get WHY it's true.",
    "Can you walk me through a specific case? Step by step?"
  ]

  const SenseiResist: seq<string> := [
    "I'm not convinced. That explanation has gaps I can poke through.",
    "That's vague. A real student wouldn't understand that.",
    "You're using jargon without explaining it. What do those terms actually mean?",
    "I could memorize that, but I still wouldn't understand it. Dig deeper.",
    "That's the 'what', but not the 'why'. Why does this work?",
    "Hmm, that sounds like you're reciting rather than explaining."
  ]

  lemma ArenaCorrectTextFree()
    ensures '{' !in CorrectHead0 && '{' !in CorrectHead1 && '{' !in CorrectHead2 &&
      '{' !in CorrectHead3 && '{' !in CorrectHead4
  {
    CorrectHead0Free();
    CorrectHead1Free();
    CorrectHead2Free();
    CorrectHead3Free();
    CorrectHead4Free();
  }

  /** Each pool's templates find their own placeholder first. */
  lemma ArenaCorrectGood()
    ensures forall k :: 0 <= k < |ArenaCorrect| ==> (ArenaCorrect[k].One? && GoodTemplate(ArenaCorrect[k]) &&
      ArenaCorrect[k].key == "{insight}")
  {
    ArenaCorrectTextFree();
  }

  lemma ArenaIncorrectTextFree()
    ensures '{' !in IncorrectHead0 && '{' !in IncorrectHead1 && '{' !in IncorrectHead2 &&
      '{' !in IncorrectHead3 && '{' !in IncorrectHead4
    ensures '{' !in UnpackMid && '{' !in KeyInsightMid && '{' !in PathMid
  {
    IncorrectHead0Free();
    IncorrectHead1Free();
    IncorrectHead2Free();
    IncorrectHead3Free();
    IncorrectHead4Free();
    UnpackMidFree();
    KeyInsightMidFree();
    PathMidFree();
  }

  lemma ArenaIncorrectGood()
    ensures forall k :: 0 <= k < |ArenaIncorrect| ==> (ArenaIncorrect[k].Two? && GoodTemplate(ArenaIncorrect[k]) &&
      ArenaIncorrect[k].key1 == "{diagnosis}" && ArenaIncorrect[k].key2 == "{explanation}")
  {
    ArenaIncorrectTextFree();
  }

  lemma ArenaTimeoutTextFree()
    ensures '{' !in TimeoutHead0 && '{' !in TimeoutHead1 && '{' !in TimeoutHead2
  {
    TimeoutHead0Free();
    TimeoutHead1Free();
    TimeoutHead2Free();
  }

  lemma ArenaTimeoutGood()
    ensures forall k :: 0 <= k < |ArenaTimeout| ==> (ArenaTimeout[k].One? && GoodTemplate(ArenaTimeout[k]) &&
      ArenaTimeout[k].key == "{explanation}")
  {
    ArenaTimeoutTextFree();
  }

  lemma SenseiAcceptTextFree()
    ensures '{' !in AcceptHead0 && '{' !in AcceptHead1 && '{' !in AcceptHead2 &&
      '{' !in AcceptHead3 && '{' !in AcceptHead4
  {
    AcceptHead0Free();
    AcceptHead1Free();
    AcceptHead2Free();
    AcceptHead3Free();
    AcceptHead4Free();
  }

  lemma SenseiAcceptGood()
    ensures forall k :: 0 <= k < |SenseiAccept| ==> (SenseiAccept[k].One? && GoodTemplate(SenseiAccept[k]) &&
      SenseiAccept[k].key == "{highlight}")
  {
    SenseiAcceptTextFree();
  }

  lemma StudyHeadsFree()
    ensures '{' !in StudyHead0 && '{' !in StudyHead1 && '{' !in StudyHead2 && '{' !in StudyHead3 && '{' !in StudyMid1
  {
    StudyHead0Free();
    StudyHead1Free();
    StudyHead2Free();
    StudyHead3Free();
    StudyMid1Free();
  }

  lemma StudyTailsFree()
    ensures '{' !in StudyTail0 && '{' !in StudyTail1 && '{' !in StudyTail2 && '{' !in StudyTail3
  {
    StudyTail0Free();
    StudyTail1Free();
    StudyTail2Free();
    StudyTail3Free();
  }

  /** The study templates have no brace outside their placeholders at all. */
  lemma StudyRecGood()
    ensures forall k :: 0 <= k < |StudyRec| ==> GoodTemplate(StudyRec[k]) && '{' !in StudyRec[k].tail
  {
    StudyHeadsFree();
    StudyTailsFree();
  }

  // ---------------------------------------------------------------------------
  // diagnoseMistake (MISTAKE_TYPES)
  // ---------------------------------------------------------------------------

  datatype MistakeKind = Conceptual | Procedural | Careless | Misread | TrapAnswer

  const CarelessResponse0 := "Classic " + "careless " + "error. You " + "knew this."
  const CarelessResponse1 := "The knowledge " + "is solid. The " + "attention " + "wandered."
  const CarelessResponse2 := "This is about " + "focus, not " + "comprehension."
  const CarelessResponses: seq<string> := [CarelessResponse0, CarelessResponse1, CarelessResponse2]

  const ConceptualResponse0 := "This reveals " + "a conceptual " + "gap, not a " + "careless " + "error."
  const ConceptualResponse1 := "The mistake " + "here is " + "foundational " + "- let's " + "address the " + "root."
  const ConceptualResponse2 := "This isn't " + "about " + "calculation - " + "it's about " + "understanding."
  const ConceptualResponses: seq<string> := [ConceptualResponse0, ConceptualResponse1, ConceptualResponse2]


  const ProceduralResponses: seq<string> := [
    "You know this concept. This was a procedural slip.",
    "The understanding is there, but the execution wandered.",
    "A process error - easy to fix with awareness."
  ]

  const MisreadResponses: seq<string> := [
    "Re-read the question. There's a word you missed.",
    "The question asked something slightly different than what you answered.",
    "Careful with the wording - the question has a specific ask."
  ]

  const TrapAnswerResponses: seq<string> := [
    "That's the trap answer. Test makers designed it to look right.",
    "This answer exploits a common assumption. Let's break it.",
    "Ah, the tempting wrong choice. Here's why it's wrong:"
  ]

  /** `MISTAKE_TYPES[kind].responses`. */
  function MistakeResponses(kind: MistakeKind): (pool: seq<string>)
    ensures |pool| == 3
  {
    match kind
    case Conceptual => ConceptualResponses
    case Procedural => ProceduralResponses
    case Careless => CarelessResponses
    case Misread => MisreadResponses
    case TrapAnswer => TrapAnswerResponses
  }

  lemma CarelessTextFree()
    ensures '{' !in CarelessResponse0 && '{' !in CarelessResponse1 && '{' !in CarelessResponse2
    ensures '$' !in CarelessResponse0 && '$' !in CarelessResponse1 && '$' !in CarelessResponse2
  {
    CarelessResponse0Free();
    CarelessResponse1Free();
    CarelessResponse2Free();
  }

  lemma ConceptualTextFree()
    ensures '{' !in ConceptualResponse0 && '{' !in ConceptualResponse1 && '{' !in ConceptualResponse2
    ensures '$' !in ConceptualResponse0 && '$' !in ConceptualResponse1 && '$' !in ConceptualResponse2
  {
    ConceptualResponse0Free();
    ConceptualResponse1Free();
    ConceptualResponse2Free();
  }

  /** The two pools a diagnosis can actually come from hold plain text. */
  lemma DiagnosisPoolsInert()
    ensures forall k :: 0 <= k < 3 ==> Inert(CarelessResponses[k]) && Inert(ConceptualResponses[k])
  {
    CarelessTextFree();
    ConceptualTextFree();
    forall k | 0 <= k < 3 ensures Inert(CarelessResponses[k]) && Inert(ConceptualResponses[k]) {
      DollarFreePlain(CarelessResponses[k]);
      DollarFreePlain(ConceptualResponses[k]);
    }
  }

  datatype Diagnosis = Diagnosis(kind: MistakeKind, response: string)

  function Abs(x: int): nat {
    if x < 0 then -x else x
  }

  /** The index the heuristic calls the trap: the option just before the correct one. */
  function TrapIndex(correct: int): int {
    if correct == 0 then 1 else correct - 1
  }

  /**
   * `diagnoseMistake(question, userAnswerIndex)`: an adjacent option is careless,
   * the trap index is a trap, anything else is conceptual.
   */
  function DiagnoseMistake(correct: int, selected: int, rnd: real): (d: Diagnosis)
    requires 0.0 <= rnd < 1.0
    ensures d.response in MistakeResponses(d.kind)
    ensures d.kind == Careless <==> Abs(correct - selected) == 1
  {
    var kind :=
      if Abs(correct - selected) == 1 then Careless
      else if selected == TrapIndex(correct) then TrapAnswer
      else Conceptual;
    Diagnosis(kind, MistakeResponses(kind)[Draw(rnd, 3)])
  }

  /** The trap index is always adjacent to the correct one. */
  lemma TrapIsAdjacent(correct: int)
    ensures Abs(correct - TrapIndex(correct)) == 1
  {
  }

  /**
   * The trap branch never fires: a diagnosis is careless exactly for an adjacent
   * option and conceptual for every other one.
   */
  lemma DiagnosisIsCarelessOrConceptual(correct: int, selected: int, rnd: real)
    requires 0.0 <= rnd < 1.0
    ensures DiagnoseMistake(correct, selected, rnd).kind != TrapAnswer
    ensures DiagnoseMistake(correct, selected, rnd).kind ==
      if Abs(correct - selected) == 1 then Careless else Conceptual
  {
    if Abs(correct - selected) != 1 {
      TrapIsAdjacent(correct);
      assert selected != TrapIndex(correct);
    }
  }

  // ---------------------------------------------------------------------------
  // generateInsight
  // ---------------------------------------------------------------------------

  const AlgebraInsight0 := "This " + "algebraic " + "manipulation " + "will appear " + "in many forms " + "on test day."
  const AlgebraInsight1 := "Isolating " + "variables is " + "a core skill " + "you've " + "clearly " + "internalized."
  const AlgebraInsight2 := "This kind of " + "equation " + "solving " + "becomes " + "automatic " + "with practice."
  const AlgebraInsights: seq<string> := [AlgebraInsight0, AlgebraInsight1, AlgebraInsight2]

  const GeometryInsight0 := "Spatial " + "reasoning " + "like this " + "builds strong " + "foundations."
  const GeometryInsight1 := "These " + "geometric " + "relationships " + "connect to " + "many other " + "concepts."
  const GeometryInsight2 := "Visualizing " + "shapes " + "mathematically " + "is a powerful " + "skill."
  const GeometryInsights: seq<string> := [GeometryInsight0, GeometryInsight1, GeometryInsight2]

  const DataInsight0 := "Reading data " + "critically is " + "valuable " + "beyond just " + "tests."
  const DataInsight1 := "Statistical " + "thinking " + "separates " + "good scores " + "from great " + "ones."
  const DataInsight2 := "This " + "analytical " + "approach " + "applies to " + "real-world " + "problems too."
  const DataInsights: seq<string> := [DataInsight0, DataInsight1, DataInsight2]

  const MainIdeaInsight0 := "Finding the " + "main idea " + "quickly is a " + "speed " + "multiplier."
  const MainIdeaInsight1 := "This skill " + "transfers to " + "every passage " + "you'll " + "encounter."
  const MainIdeaInsight2 := "Central " + "argument " + "identification " + "is your " + "reading " + "superpower."
  const MainIdeaInsights: seq<string> := [MainIdeaInsight0, MainIdeaInsight1, MainIdeaInsight2]

  const InferenceInsight0 := "Reading " + "between the " + "lines is " + "where high " + "scores live."
  const InferenceInsight1 := "This kind of " + "logical " + "deduction is " + "what " + "separates " + "scores."
  const InferenceInsight2 := "Inference " + "questions " + "reward " + "careful, " + "analytical " + "reading."
  const InferenceInsights: seq<string> := [InferenceInsight0, InferenceInsight1, InferenceInsight2]

  const GrammarInsight0 := "Clean grammar " + "instincts " + "serve you in " + "every writing " + "context."
  const GrammarInsight1 := "This rule " + "will appear " + "repeatedly - " + "glad you've " + "mastered it."
  const GrammarInsight2 := "Grammar " + "patterns " + "become " + "automatic " + "with " + "recognition."
  const GrammarInsights: seq<string> := [GrammarInsight0, GrammarInsight1, GrammarInsight2]

  const DefaultInsight0 := "This " + "demonstrates " + "solid " + "understanding."
  const DefaultInsight1 := "You're " + "building " + "strong " + "fundamentals " + "here."
  const DefaultInsight2 := "This concept " + "will compound " + "into bigger " + "gains."
  const DefaultInsights: seq<string> := [DefaultInsight0, DefaultInsight1, DefaultInsight2]


  /** The topics with their own insights. */
  const InsightTable: seq<(string, seq<string>)> := [
    ("Algebra", AlgebraInsights),
    ("Geometry", GeometryInsights),
    ("Data Analysis", DataInsights),
    ("Main Idea", MainIdeaInsights),
    ("Inference", InferenceInsights),
    ("Grammar", GrammarInsights)
  ]

  /** The lines for a topic; any other topic, the empty one included, gets the default lines. */
  function InsightPool(topic: string): (pool: seq<string>)
    ensures |pool| == 3
  {
    if topic == "Algebra" then AlgebraInsights
    else if topic == "Geometry" then GeometryInsights
    else if topic == "Data Analysis" then DataInsights
    else if topic == "Main Idea" then MainIdeaInsights
    else if topic == "Inference" then InferenceInsights
    else if topic == "Grammar" then GrammarInsights
    else DefaultInsights
  }

  lemma AlgebraInsightsFree()
    ensures '$' !in AlgebraInsight0 && '$' !in AlgebraInsight1 && '$' !in AlgebraInsight2
  {
    AlgebraInsight0Free();
    AlgebraInsight1Free();
    AlgebraInsight2Free();
  }

  lemma GeometryInsightsFree()
    ensures '$' !in GeometryInsight0 && '$' !in GeometryInsight1 && '$' !in GeometryInsight2
  {
    GeometryInsight0Free();
    GeometryInsight1Free();
    GeometryInsight2Free();
  }

  lemma DataInsightsFree()
    ensures '$' !in DataInsight0 && '$' !in DataInsight1 && '$' !in DataInsight2
  {
    DataInsight0Free();
    DataInsight1Free();
    DataInsight2Free();
  }

  lemma MainIdeaInsightsFree()
    ensures '$' !in MainIdeaInsight0 && '$' !in MainIdeaInsight1 && '$' !in MainIdeaInsight2
  {
    MainIdeaInsight0Free();
    MainIdeaInsight1Free();
    MainIdeaInsight2Free();
  }

  lemma InferenceInsightsFree()
    ensures '$' !in InferenceInsight0 && '$' !in InferenceInsight1 && '$' !in InferenceInsight2
  {
    InferenceInsight0Free();
    InferenceInsight1Free();
    InferenceInsight2Free();
  }

  lemma GrammarInsightsFree()
    ensures '$' !in GrammarInsight0 && '$' !in GrammarInsight1 && '$' !in GrammarInsight2
  {
    GrammarInsight0Free();
    GrammarInsight1Free();
    GrammarInsight2Free();
  }

  lemma DefaultInsightsFree()
    ensures '$' !in DefaultInsight0 && '$' !in DefaultInsight1 && '$' !in DefaultInsight2
  {
    DefaultInsight0Free();
    DefaultInsight1Free();
    DefaultInsight2Free();
  }


  /** `INSIGHTS[topic] || INSIGHTS.default`: the table's pool for a listed topic, the default pool otherwise. */
  lemma InsightPoolFromTable(topic: string)
    ensures forall k :: 0 <= k < |InsightTable| && InsightTable[k].0 == topic ==> InsightPool(topic) == InsightTable[k].1
    ensures (forall k :: 0 <= k < |InsightTable| ==> InsightTable[k].0 != topic) ==> InsightPool(topic) == DefaultInsights
  {
    assert InsightTable[0].0 == "Algebra" && InsightTable[1].0 == "Geometry" && InsightTable[2].0 == "Data Analysis";
    assert InsightTable[3].0 == "Main Idea" && InsightTable[4].0 == "Inference" && InsightTable[5].0 == "Grammar";
  }

  /** No insight line has a `$` in it. */
  lemma InsightsPlain(topic: string)
    ensures forall k :: 0 <= k < 3 ==> PlainReplacement(InsightPool(topic)[k])
  {
    AlgebraInsightsFree();
    GeometryInsightsFree();
    DataInsightsFree();
    MainIdeaInsightsFree();
    InferenceInsightsFree();
    GrammarInsightsFree();
    DefaultInsightsFree();
    forall k | 0 <= k < 3 ensures PlainReplacement(InsightPool(topic)[k]) {
      DollarFreePlain(InsightPool(topic)[k]);
    }
  }

  /**
   * `generateInsight(question)`: a line of the question's topic when the topic
   * has its own lines, otherwise a default line.
   */
  function GenerateInsight(q: Questions.Question, rnd: real): (r: string)
    requires 0.0 <= rnd < 1.0
    ensures forall k :: 0 <= k < |InsightTable| && InsightTable[k].0 == q.topic ==> r in InsightTable[k].1
    ensures (forall k :: 0 <= k < |InsightTable| ==> InsightTable[k].0 != q.topic) ==> r in DefaultInsights
    ensures PlainReplacement(r)
  {
    InsightsPlain(q.topic);
    InsightPoolFromTable(q.topic);
    InsightPool(q.topic)[Draw(rnd, 3)]
  }

  // ---------------------------------------------------------------------------
  // generateArenaFeedback
  // ---------------------------------------------------------------------------

  const SpeedRemark := " Quick and accurate - that's mastery in action."

  /** The random numbers one call consumes: the template's, then the insight's or diagnosis's. */
  datatype Draws = Draws(template: real, detail: real)

  predicate ValidDraws(d: Draws) {
    0.0 <= d.template < 1.0 && 0.0 <= d.detail < 1.0
  }

  /** `generateArenaFeedback(question, userAnswerIndex, isCorrect, timeRemaining)`. */
  function GenerateArenaFeedback(q: Questions.Question, userAnswerIndex: int, isCorrect: bool, timeRemaining: int, d: Draws): string
    requires ValidDraws(d)
  {
    if isCorrect then
      var t := Text(ArenaCorrect[Draw(d.template, |ArenaCorrect|)]);
      Replace(t, "{insight}", GenerateInsight(q, d.detail)) + (if timeRemaining > 60 then SpeedRemark else "")
    else if userAnswerIndex == -1 then
      var t := Text(ArenaTimeout[Draw(d.template, |ArenaTimeout|)]);
      Replace(t, "{explanation}", q.explanation)
    else
      var t := Text(ArenaIncorrect[Draw(d.template, |ArenaIncorrect|)]);
      var diagnosis := DiagnoseMistake(q.correct, userAnswerIndex, d.detail);
      Replace(Replace(t, "{diagnosis}", diagnosis.response), "{explanation}", q.explanation)
  }

  /**
   * A correct answer wins whatever the index: the chosen template with its
   * `{insight}` filled, and the speed remark exactly when more than 60 seconds remained.
   */
  lemma ArenaFeedbackCorrect(q: Questions.Question, userAnswerIndex: int, timeRemaining: int, d: Draws)
    requires ValidDraws(d)
    ensures GenerateArenaFeedback(q, userAnswerIndex, true, timeRemaining, d) ==
      Filled(ArenaCorrect[Draw(d.template, |ArenaCorrect|)], GenerateInsight(q, d.detail), [])
      + (if timeRemaining > 60 then SpeedRemark else "")
  {
    ArenaCorrectGood();
    var t := ArenaCorrect[Draw(d.template, |ArenaCorrect|)];
    FillOne(t, GenerateInsight(q, d.detail));
  }

  /**
   * A wrong answer with index -1 (the clock ran out) gets a timeout template with
   * the explanation in its slot. An explanation with a `$` pattern is excluded:
   * `replace` would expand it.
   */
  lemma ArenaFeedbackTimeout(q: Questions.Question, timeRemaining: int, d: Draws)
    requires ValidDraws(d) && PlainReplacement(q.explanation)
    ensures GenerateArenaFeedback(q, -1, false, timeRemaining, d) ==
      Filled(ArenaTimeout[Draw(d.template, |ArenaTimeout|)], q.explanation, [])
  {
    ArenaTimeoutGood();
    var t := ArenaTimeout[Draw(d.template, |ArenaTimeout|)];
    FillOne(t, q.explanation);
  }

  /**
   * Any other wrong answer: the first `{diagnosis}` of the chosen template gets a
   * careless or conceptual diagnosis, then the first `{explanation}` gets the
   * explanation, and the rest of the template is kept as it is.
   */
  lemma ArenaFeedbackIncorrect(q: Questions.Question, userAnswerIndex: int, timeRemaining: int, d: Draws)
    requires ValidDraws(d) && userAnswerIndex != -1 && PlainReplacement(q.explanation)
    ensures var diagnosis := DiagnoseMistake(q.correct, userAnswerIndex, d.detail).response;
      GenerateArenaFeedback(q, userAnswerIndex, false, timeRemaining, d) ==
        Filled(ArenaIncorrect[Draw(d.template, |ArenaIncorrect|)], diagnosis, q.explanation) &&
      diagnosis in CarelessResponses + ConceptualResponses
  {
    ArenaIncorrectGood();
    DiagnosisInert(q.correct, userAnswerIndex, d.detail);
    var t := ArenaIncorrect[Draw(d.template, |ArenaIncorrect|)];
    var diagnosis := DiagnoseMistake(q.correct, userAnswerIndex, d.detail);
    FillTwo(t, diagnosis.response, q.explanation);
  }

  /** Every diagnosis the heuristic can give is careless or conceptual text, safe to insert. */
  lemma DiagnosisInert(correct: int, selected: int, rnd: real)
    requires 0.0 <= rnd < 1.0
    ensures var r := DiagnoseMistake(correct, selected, rnd).response;
      Inert(r) && r in CarelessResponses + ConceptualResponses
  {
    DiagnosisPoolsInert();
    DiagnosisIsCarelessOrConceptual(correct, selected, rnd);
  }

  // ---------------------------------------------------------------------------
  // generateSenseiResponse
  // ---------------------------------------------------------------------------

  const ExampleWords: seq<string> := ["example", "like", "suppose", "imagine", "if we", "let's say"]
  const ReasoningWords: seq<string> := ["because", "since", "therefore", "so that", "which means", "the reason"]
  const StepWords: seq<string> := ["first", "then", "next", "finally", "step"]

  function B2I(b: bool): nat {
    if b then 1 else 0
  }

  /** The explanation's quality score, from keyword groups on its lower case and its length. */
  function Quality(explanation: string): (q: nat)
    ensures q <= 7
    ensures q == 2 * B2I(ContainsAny(Lower(explanation), ExampleWords))
               + 2 * B2I(ContainsAny(Lower(explanation), ReasoningWords))
               + B2I(ContainsAny(Lower(explanation), StepWords))
               + B2I(JsLength(explanation) > 100) + B2I(JsLength(explanation) > 200)
  {
    var lower := Lower(explanation);
    var q0 := 0;
    var q1 := if ContainsAny(lower, ExampleWords) then q0 + 2 else q0;
    var q2 := if ContainsAny(lower, ReasoningWords) then q1 + 2 else q1;
    var q3 := if ContainsAny(lower, StepWords) then q2 + 1 else q2;
    var q4 := if JsLength(explanation) > 100 then q3 + 1 else q3;
    if JsLength(explanation) > 200 then q4 + 1 else q4
  }

  datatype ReplyKind = Accept | Probe | Resist

  /** The decision rule: accept a strong explanation, or a fair one late in the dialogue. */
  function ReplyKindOf(quality: int, stage: int): (k: ReplyKind)
    ensures k == Accept <==> quality >= 4 || (quality >= 3 && stage >= 2)
    ensures k == Probe <==> !(quality >= 4 || (quality >= 3 && stage >= 2)) && quality >= 2
    ensures k == Resist <==> quality < 2
  {
    if quality >= 4 || (quality >= 3 && stage >= 2) then Accept
    else if quality >= 2 then Probe
    else Resist
  }

  /** What the accepting reply singles out: example, then reasoning, then steps. */
  function Highlight(lower: string): string {
    if ContainsAny(lower, ExampleWords) then "that concrete example"
    else if ContainsAny(lower, ReasoningWords) then "connecting the \"why\""
    else if ContainsAny(lower, StepWords) then "breaking it into steps"
    else "your clear explanation"
  }

  datatype SenseiReply = SenseiReply(kind: ReplyKind, response: string, quality: nat)

  /** `generateSenseiResponse(topic, userExplanation, stage)`; the source does not use the topic. */
  function GenerateSenseiResponse(explanation: string, stage: int, rnd: real): (r: SenseiReply)
    requires 0.0 <= rnd < 1.0
    ensures r.quality == Quality(explanation) && r.kind == ReplyKindOf(r.quality, stage)
    ensures r.kind == Probe ==> r.response in SenseiProbe
    ensures r.kind == Resist ==> r.response in SenseiResist
    ensures r.kind == Accept ==>
      r.response == Filled(SenseiAccept[Draw(rnd, |SenseiAccept|)], Highlight(Lower(explanation)), [])
  {
    var quality := Quality(explanation);
    match ReplyKindOf(quality, stage)
    case Accept =>
      var t := SenseiAccept[Draw(rnd, |SenseiAccept|)];
      var highlight := Highlight(Lower(explanation));
      HighlightPlain(explanation);
      SenseiAcceptGood();
      FillOne(t, highlight);
      SenseiReply(Accept, Replace(Text(t), "{highlight}", highlight), quality)
    case Probe => SenseiReply(Probe, SenseiProbe[Draw(rnd, |SenseiProbe|)], quality)
    case Resist => SenseiReply(Resist, SenseiResist[Draw(rnd, |SenseiResist|)], quality)
  }

  /** The highlight holds no `$`, so `replace` inserts it as it is. */
  lemma HighlightPlain(explanation: string)
    ensures PlainReplacement(Highlight(Lower(explanation)))
  {
    DollarFreePlain(Highlight(Lower(explanation)));
  }

  /** Example words win the highlight over reasons, and reasons over steps. */
  lemma HighlightPriority(explanation: string)
    ensures var l := Lower(explanation);
      (ContainsAny(l, ExampleWords) ==> Highlight(l) == "that concrete example") &&
      (!ContainsAny(l, ExampleWords) && ContainsAny(l, ReasoningWords) ==> Highlight(l) == "connecting the \"why\"") &&
      (!ContainsAny(l, ExampleWords) && !ContainsAny(l, ReasoningWords) && ContainsAny(l, StepWords) ==>
         Highlight(l) == "breaking it into steps")
  {
  }

  /** An explanation with an example and a reason is always accepted. */
  lemma ExampleAndReasonAccepted(explanation: string, stage: int, rnd: real)
    requires 0.0 <= rnd < 1.0
    requires ContainsAny(Lower(explanation), ExampleWords) && ContainsAny(Lower(explanation), ReasoningWords)
    ensures GenerateSenseiResponse(explanation, stage, rnd).kind == Accept
  {
  }

  /** A short explanation with no example and no reason is always resisted. */
  lemma BareShortResisted(explanation: string, stage: int, rnd: real)
    requires 0.0 <= rnd < 1.0 && JsLength(explanation) <= 100
    requires !ContainsAny(Lower(explanation), ExampleWords) && !ContainsAny(Lower(explanation), ReasoningWords)
    ensures GenerateSenseiResponse(explanation, stage, rnd).kind == Resist
  {
  }

  // ---------------------------------------------------------------------------
  // generateComprehensionLog
  // ---------------------------------------------------------------------------

  datatype EntryType = Success | Warning

  /** The six entries the log can hold; `Kind` and `Line` give each one's `type` and `text`. */
  datatype LogEntry = ConcreteExample | ExplainedReasoning | Brief | VagueQualifiers | RuleWithoutWhy | Overall

  function Kind(e: LogEntry): EntryType {
    match e
    case ConcreteExample => Success
    case ExplainedReasoning => Success
    case Overall => Success
    case _ => Warning
  }

  function Line(e: LogEntry): string {
    match e
    case ConcreteExample => "User provided a concrete example. Understanding improved."
    case ExplainedReasoning => "User explained the reasoning, not just the steps."
    case Brief => "Response was brief. I needed more detail to fully grasp it."
    case VagueQualifiers => "User used vague qualifiers. Deeper explanation needed."
    case RuleWithoutWhy => "User stated a rule without explaining why it works."
    case Overall => "Overall: Explanation was methodical and clear. Mastery demonstrated."
  }

  const LogExampleWords: seq<string> := ["example", "like", "suppose", "imagine"]
  const LogReasonWords: seq<string> := ["because", "since", "therefore", "so"]
  const VagueWords: seq<string> := ["just", "simply", "basically", "obviously"]
  const RuleWords: seq<string> := ["formula", "equation", "rule"]
  const WhyWords: seq<string> := ["why", "because"]

  /** The per-message rules, in the order the source checks them. */
  const Rules: seq<LogEntry> := [ConcreteExample, ExplainedReasoning, Brief, VagueQualifiers, RuleWithoutWhy]

  /**
   * Whether a rule fires for a message: only user messages are analysed; the
   * length rule reads the original text, the keyword rules its lower case.
   */
  predicate Fires(e: LogEntry, m: Message) {
    var lower := Lower(m.text);
    m.sender == User &&
    match e
    case ConcreteExample => ContainsAny(lower, LogExampleWords)
    case ExplainedReasoning => ContainsAny(lower, LogReasonWords)
    case Brief => JsLength(m.text) < 50
    case VagueQualifiers => ContainsAny(lower, VagueWords)
    case RuleWithoutWhy => ContainsAny(lower, RuleWords) && !ContainsAny(lower, WhyWords)
    case Overall => false
  }

  /** The entries one message contributes: the rules that fire, in rule order. */
  function MessageEntries(m: Message): (r: seq<LogEntry>)
    ensures Overall !in r
  {
    Filter(Rules, e => Fires(e, m))
  }

  /**
   * A message's entries are exactly the rules whose condition it meets, none of
   * them for an AI message.
   */
  lemma MessageEntriesRules(m: Message)
    ensures forall k :: 0 <= k < |Rules| ==> (Rules[k] in MessageEntries(m) <==> Fires(Rules[k], m))
    ensures m.sender == Ai ==> MessageEntries(m) == []
  {
  }

  /** The entries of all messages, in message order. */
  function PerMessageLog(msgs: seq<Message>): seq<LogEntry> {
    if msgs == [] then [] else MessageEntries(msgs[0]) + PerMessageLog(msgs[1..])
  }

  predicate IsSuccess(e: LogEntry) {
    Kind(e) == Success
  }

  predicate FromUser(m: Message) {
    m.sender == User
  }

  /** The whole log: the per-message entries, then the summary when two or more succeeded. */
  function ComprehensionLog(msgs: seq<Message>): seq<LogEntry> {
    var log := PerMessageLog(msgs);
    log + if Count(log, IsSuccess) >= 2 then [Overall] else []
  }

  lemma {:induction false} PerMessageLogSnoc(msgs: seq<Message>, m: Message)
    ensures PerMessageLog(msgs + [m]) == PerMessageLog(msgs) + MessageEntries(m)
  {
    if msgs == [] {
      assert [] + [m] == [m];
    } else {
      assert (msgs + [m])[1..] == msgs[1..] + [m];
      PerMessageLogSnoc(msgs[1..], m);
    }
  }

  lemma {:induction false} PerMessageLogNoOverall(msgs: seq<Message>)
    ensures Overall !in PerMessageLog(msgs)
  {
    if msgs != [] {
      PerMessageLogNoOverall(msgs[1..]);
    }
  }

  /** AI messages add nothing: the log is the log of the user's messages alone. */
  lemma {:induction false} OnlyUserMessagesLogged(msgs: seq<Message>)
    ensures PerMessageLog(msgs) == PerMessageLog(Filter(msgs, FromUser))
    ensures ComprehensionLog(msgs) == ComprehensionLog(Filter(msgs, FromUser))
  {
    if msgs != [] {
      OnlyUserMessagesLogged(msgs[1..]);
    }
  }

  /** The summary is in the log exactly when at least two success entries were produced. */
  lemma OverallIffTwoSuccesses(msgs: seq<Message>)
    ensures Overall in ComprehensionLog(msgs) <==> Count(PerMessageLog(msgs), IsSuccess) >= 2
  {
    PerMessageLogNoOverall(msgs);
  }

  lemma LogStep(msgs: seq<Message>, i: nat)
    requires i < |msgs|
    ensures PerMessageLog(msgs[..i + 1]) == PerMessageLog(msgs[..i]) + MessageEntries(msgs[i])
  {
    var prefix, m := msgs[..i], msgs[i];
    assert msgs[..i + 1] == prefix + [m];
    PerMessageLogSnoc(prefix, m);
  }

  /** `generateComprehensionLog(messages)`: a `forEach` over the messages, then the summary when the log's successes number two or more. */
  method GenerateComprehensionLog(msgs: seq<Message>) returns (log: seq<LogEntry>)
    ensures log == ComprehensionLog(msgs)
  {
    log := [];
    var i := 0;
    while i < |msgs|
      invariant 0 <= i <= |msgs|
      invariant log == PerMessageLog(msgs[..i])
    {
      LogStep(msgs, i);
      log := log + MessageEntries(msgs[i]);
      i := i + 1;
    }
    assert msgs[..i] == msgs;
    if Count(log, IsSuccess) >= 2 {
      log := log + [Overall];
    }
  }

  // ---------------------------------------------------------------------------
  // generateStudyRecommendation
  // ---------------------------------------------------------------------------

  /** `userStats.skillProgress.sat` as its `Object.entries`: skill name and progress. */
  type Skills = seq<(string, int)>

  predicate IsWeak(progress: int) {
    progress < 50
  }

  /** Names of the weak skills (`weak`) or of the strong ones, in entry order. */
  function AreaNames(skills: Skills, weak: bool): seq<string> {
    if skills == [] then []
    else AreaNames(skills[..|skills| - 1], weak)
         + (if IsWeak(skills[|skills| - 1].1) == weak then [skills[|skills| - 1].0] else [])
  }

  /** `names[0] || fallback`: the first name, unless there is none or it is empty. */
  function FirstOr(names: seq<string>, fallback: string): string {
    if names != [] && names[0] != "" then names[0] else fallback
  }

  function WeakArea(skills: Option<Skills>): string {
    FirstOr(if skills.Some? then AreaNames(skills.value, true) else [], "reading comprehension")
  }

  function StrongArea(skills: Option<Skills>): string {
    FirstOr(if skills.Some? then AreaNames(skills.value, false) else [], "problem solving")
  }

  /** The recommendation text: `{topic}`, `{weakArea}` and `{strongArea}` replaced in that order. */
  function StudyRecommendation(skills: Option<Skills>, rnd: real): string
    requires 0.0 <= rnd < 1.0
  {
    var t := Text(StudyRec[Draw(rnd, |StudyRec|)]);
    var weak, strong := WeakArea(skills), StrongArea(skills);
    Replace(Replace(Replace(t, "{topic}", weak), "{weakArea}", weak), "{strongArea}", strong)
  }

  /**
   * The first name `AreaNames` lists is that of the first skill on the matching
   * side of 50, and the list is empty exactly when no skill is on that side.
   */
  lemma {:induction false} AreaNamesFirst(skills: Skills, weak: bool)
    ensures AreaNames(skills, weak) == [] <==> forall k :: 0 <= k < |skills| ==> IsWeak(skills[k].1) != weak
    ensures AreaNames(skills, weak) != [] ==>
      exists k :: 0 <= k < |skills| && IsWeak(skills[k].1) == weak && AreaNames(skills, weak)[0] == skills[k].0 &&
        (forall j :: 0 <= j < k ==> IsWeak(skills[j].1) != weak)
  {
    if skills != [] {
      var init := skills[..|skills| - 1];
      AreaNamesFirst(init, weak);
      if AreaNames(init, weak) != [] {
        var k :| 0 <= k < |init| && IsWeak(init[k].1) == weak && AreaNames(init, weak)[0] == init[k].0 &&
          forall j :: 0 <= j < k ==> IsWeak(init[j].1) != weak;
        assert skills[k] == init[k];
        assert forall j :: 0 <= j < k ==> skills[j] == init[j];
      } else {
        assert forall j :: 0 <= j < |init| ==> skills[j] == init[j];
      }
    }
  }

  /** The three replacements on a one-slot study template whose key is `{topic}` or `{weakArea}`. */
  lemma StudyFillOne(t: Template, weak: string, strong: string)
    requires t.One? && GoodTemplate(t) && '{' !in t.tail && (t.key == "{topic}" || t.key == "{weakArea}")
    requires Inert(weak) && PlainReplacement(strong)
    ensures Replace(Replace(Replace(Text(t), "{topic}", weak), "{weakArea}", weak), "{strongArea}", strong)
      == Filled(t, weak, [])
  {
    var filled := Filled(t, weak, []);
    if t.key == "{topic}" {
      FillOne(t, weak);
      NoBraceNoMatch(filled, "{weakArea}");
      ReplaceAbsent(filled, "{weakArea}", weak);
    } else {
      NoBraceNoMatch(t.tail, "{topic}");
      SkipKey(t.head, t.key, t.tail, "{topic}");
      ReplaceAbsent(Text(t), "{topic}", weak);
      FillOne(t, weak);
    }
    NoBraceNoMatch(filled, "{strongArea}");
    ReplaceAbsent(filled, "{strongArea}", strong);
  }

  /** The three replacements on the two-slot study template (`{weakArea}`, then `{strongArea}`). */
  lemma StudyFillTwo(t: Template, weak: string, strong: string)
    requires t.Two? && GoodTemplate(t) && '{' !in t.tail && t.key1 == "{weakArea}" && t.key2 == "{strongArea}"
    requires Inert(weak) && PlainReplacement(strong)
    ensures Replace(Replace(Replace(Text(t), "{topic}", weak), "{weakArea}", weak), "{strongArea}", strong)
      == Filled(t, weak, strong)
  {
    NoTopicKey(t);
    ReplaceAbsent(Text(t), "{topic}", weak);
    FillTwo(t, weak, strong);
  }

  /** The two-slot study template has no `{topic}` to replace. */
  lemma NoTopicKey(t: Template)
    requires t.Two? && GoodTemplate(t) && '{' !in t.tail && t.key1 == "{weakArea}" && t.key2 == "{strongArea}"
    ensures !Contains(Text(t), "{topic}")
  {
    NoTopicAfterFirstKey(t.mid, t.tail);
    var k := "{weakArea}";
    assert '{' !in k[1..] && k[1] == 'w';
    SkipKey(t.head, k, t.mid + t.key2 + t.tail, "{topic}");
    assert Text(t) == t.head + t.key1 + (t.mid + t.key2 + t.tail);
  }

  lemma NoTopicAfterFirstKey(mid: string, tail: string)
    requires '{' !in mid && '{' !in tail
    ensures !Contains(mid + "{strongArea}" + tail, "{topic}")
  {
    NoBraceNoMatch(tail, "{topic}");
    var k := "{strongArea}";
    assert '{' !in k[1..] && k[1] == 's';
    SkipKey(mid, k, tail, "{topic}");
  }

  /**
   * When the chosen names are plain text, the recommendation is the chosen
   * template with its first slot filled by the weak area and its second by the
   * strong area.
   */
  lemma StudyRecommendationFill(skills: Option<Skills>, rnd: real)
    requires 0.0 <= rnd < 1.0
    requires Inert(WeakArea(skills)) && PlainReplacement(StrongArea(skills))
    ensures StudyRecommendation(skills, rnd) ==
      Filled(StudyRec[Draw(rnd, |StudyRec|)], WeakArea(skills), StrongArea(skills))
  {
    StudyRecGood();
    var k := Draw(rnd, |StudyRec|);
    if k == 1 {
      StudyFillTwo(StudyRec[k], WeakArea(skills), StrongArea(skills));
    } else {
      StudyFillOne(StudyRec[k], WeakArea(skills), StrongArea(skills));
    }
  }

  /** `generateStudyRecommendation(userStats)`: sort the skills into weak and strong, then fill. */
  method GenerateStudyRecommendation(skills: Option<Skills>, rnd: real) returns (r: string)
    requires 0.0 <= rnd < 1.0
    ensures r == StudyRecommendation(skills, rnd)
  {
    var weakAreas: seq<string> := [];
    var strongAreas: seq<string> := [];
    if skills.Some? {
      var s := skills.value;
      var i := 0;
      while i < |s|
        invariant 0 <= i <= |s|
        invariant weakAreas == AreaNames(s[..i], true)
        invariant strongAreas == AreaNames(s[..i], false)
      {
        assert s[..i + 1][..i] == s[..i];
        if s[i].1 < 50 {
          weakAreas := weakAreas + [s[i].0];
        } else {
          strongAreas := strongAreas + [s[i].0];
        }
        i := i + 1;
      }
      assert s[..i] == s;
    }
    var weakArea := FirstOr(weakAreas, "reading comprehension");
    var strongArea := FirstOr(strongAreas, "problem solving");
    var t := Text(StudyRec[Draw(rnd, |StudyRec|)]);
    r := Replace(Replace(Replace(t, "{topic}", weakArea), "{weakArea}", weakArea), "{strongArea}", strongArea);
  }

  // ---------------------------------------------------------------------------
  // Character facts about the text constants: one small lemma per constant, so
  // that each check stays cheap. The template lemmas above gather them.
  // ---------------------------------------------------------------------------

  lemma CorrectHead0Free()
    ensures '{' !in CorrectHead0
  {
  }

  lemma CorrectHead1Free()
    ensures '{' !in CorrectHead1
  {
  }

  lemma CorrectHead2Free()
    ensures '{' !in CorrectHead2
  {
  }

  lemma CorrectHead3Free()
    ensures '{' !in CorrectHead3
  {
  }

  lemma CorrectHead4Free()
    ensures '{' !in CorrectHead4
  {
  }

  lemma IncorrectHead0Free()
    ensures '{' !in IncorrectHead0
  {
  }

  lemma IncorrectHead1Free()
    ensures '{' !in IncorrectHead1
  {
  }

  lemma IncorrectHead2Free()
    ensures '{' !in IncorrectHead2
  {
  }

  lemma IncorrectHead3Free()
    ensures '{' !in IncorrectHead3
  {
  }

  lemma IncorrectHead4Free()
    ensures '{' !in IncorrectHead4
  {
  }

  lemma UnpackMidFree()
    ensures '{' !in UnpackMid
  {
  }

  lemma KeyInsightMidFree()
    ensures '{' !in KeyInsightMid
  {
  }

  lemma PathMidFree()
    ensures '{' !in PathMid
  {
  }

  lemma TimeoutHead0Free()
    ensures '{' !in TimeoutHead0
  {
  }

  lemma TimeoutHead1Free()
    ensures '{' !in TimeoutHead1
  {
  }

  lemma TimeoutHead2Free()
    ensures '{' !in TimeoutHead2
  {
  }

  lemma AcceptHead0Free()
    ensures '{' !in AcceptHead0
  {
  }

  lemma AcceptHead1Free()
    ensures '{' !in AcceptHead1
  {
  }

  lemma AcceptHead2Free()
    ensures '{' !in AcceptHead2
  {
  }

  lemma AcceptHead3Free()
    ensures '{' !in AcceptHead3
  {
  }

  lemma AcceptHead4Free()
    ensures '{' !in AcceptHead4
  {
  }

  lemma StudyHead0Free()
    ensures '{' !in StudyHead0
  {
  }

  lemma StudyHead1Free()
    ensures '{' !in StudyHead1
  {
  }

  lemma StudyHead2Free()
    ensures '{' !in StudyHead2
  {
  }

  lemma StudyHead3Free()
    ensures '{' !in StudyHead3
  {
  }

  lemma StudyMid1Free()
    ensures '{' !in StudyMid1
  {
  }

  lemma StudyTail0Free()
    ensures '{' !in StudyTail0
  {
  }

  lemma StudyTail1Free()
    ensures '{' !in StudyTail1
  {
  }

  lemma StudyTail2Free()
    ensures '{' !in StudyTail2
  {
  }

  lemma StudyTail3Free()
    ensures '{' !in StudyTail3
  {
  }

  lemma CarelessResponse0Free()
    ensures '{' !in CarelessResponse0 && '$' !in CarelessResponse0
  {
  }

  lemma CarelessResponse1Free()
    ensures '{' !in CarelessResponse1 && '$' !in CarelessResponse1
  {
  }

  lemma CarelessResponse2Free()
    ensures '{' !in CarelessResponse2 && '$' !in CarelessResponse2
  {
  }

  lemma ConceptualResponse0Free()
    ensures '{' !in ConceptualResponse0 && '$' !in ConceptualResponse0
  {
  }

  lemma ConceptualResponse1Free()
    ensures '{' !in ConceptualResponse1 && '$' !in ConceptualResponse1
  {
  }

  lemma ConceptualResponse2Free()
    ensures '{' !in ConceptualResponse2 && '$' !in ConceptualResponse2
  {
  }

  lemma AlgebraInsight0Free()
    ensures '$' !in AlgebraInsight0
  {
  }

  lemma AlgebraInsight1Free()
    ensures '$' !in AlgebraInsight1
  {
  }

  lemma AlgebraInsight2Free()
    ensures '$' !in AlgebraInsight2
  {
  }

  lemma GeometryInsight0Free()
    ensures '$' !in GeometryInsight0
  {
  }

  lemma GeometryInsight1Free()
    ensures '$' !in GeometryInsight1
  {
  }

  lemma GeometryInsight2Free()
    ensures '$' !in GeometryInsight2
  {
  }

  lemma DataInsight0Free()
    ensures '$' !in DataInsight0
  {
  }

  lemma DataInsight1Free()
    ensures '$' !in DataInsight1
  {
  }

  lemma DataInsight2Free()
    ensures '$' !in DataInsight2
  {
  }

  lemma MainIdeaInsight0Free()
    ensures '$' !in MainIdeaInsight0
  {
  }

  lemma MainIdeaInsight1Free()
    ensures '$' !in MainIdeaInsight1
  {
  }

  lemma MainIdeaInsight2Free()
    ensures '$' !in MainIdeaInsight2
  {
  }

  lemma InferenceInsight0Free()
    ensures '$' !in InferenceInsight0
  {
  }

  lemma InferenceInsight1Free()
    ensures '$' !in InferenceInsight1
  {
  }

  lemma InferenceInsight2Free()
    ensures '$' !in InferenceInsight2
  {
  }

  lemma GrammarInsight0Free()
    ensures '$' !in GrammarInsight0
  {
  }

  lemma GrammarInsight1Free()
    ensures '$' !in GrammarInsight1
  {
  }

  lemma GrammarInsight2Free()
    ensures '$' !in GrammarInsight2
  {
  }

  lemma DefaultInsight0Free()
    ensures '$' !in DefaultInsight0
  {
  }

  lemma DefaultInsight1Free()
    ensures '$' !in DefaultInsight1
  {
  }

  lemma DefaultInsight2Free()
    ensures '$' !in DefaultInsight2
  {
  }
}
