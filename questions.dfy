/**
 * The SAT question bank (js/data/questions.js) and its three lookups:
 * a shuffled sample of a category, a category filtered by difficulty, and
 * the first question with a given id.
 */
module Questions {
  import opened Wrappers
  import opened Collections

  /** One multiple-choice item; `correct` is the zero-based index of the right option. */
  datatype Question = Question(
    id: string,
    topic: string,
    difficulty: int,
    question: string,
    options: seq<string>,
    correct: int,
    explanation: string,
    passage: Option<string>)

  /** `correct` names one of the options. */
  predicate WellFormed(q: Question) {
    0 <= q.correct < |q.options|
  }

  // ---------------------------------------------------------------------------
  // The bank
  // ---------------------------------------------------------------------------

  /** `QUESTIONS.sat.math`. */
  const MathBank: seq<Question> := [
    Question(
      "m001",
      "Algebra",
      2,
      "If 3x + 7 = 22, what is the value of x?",
      ["3", "5", "7", "15"],
      1,
      "Subtract 7 from both sides: 3x = 15. Then divide by 3: x = 5.",
      None),
    Question(
      "m002",
      "Algebra",
      3,
      "If 2(x - 3) = 4x + 10, what is the value of x?",
      ["-8", "-4", "4", "8"],
      0,
      "First distribute: 2x - 6 = 4x + 10. Subtract 2x from both sides: -6 = 2x + 10. Subtract 10: -16 = 2x. Divide by 2: x = -8.",
      None),
    Question(
      "m003",
      "Geometry",
      2,
      "A circle has a radius of 5. What is its area in terms of π?",
      ["10π", "25π", "50π", "100π"],
      1,
      "Area of a circle = πr². With r = 5: A = π(5)² = 25π.",
      None),
    Question(
      "m004",
      "Data Analysis",
      3,
      "The mean of 5 numbers is 12. If four of the numbers are 10, 11, 13, and 14, what is the fifth number?",
      ["10", "11", "12", "13"],
      2,
      "Mean × count = sum. So 12 × 5 = 60. The sum of the four known numbers is 10 + 11 + 13 + 14 = 48. The fifth number is 60 - 48 = 12.",
      None),
    Question(
      "m005",
      "Advanced Math",
      4,
      "What is the sum of the solutions to the equation x² - 5x + 6 = 0?",
      ["2", "3", "5", "6"],
      2,
      "Factor: (x - 2)(x - 3) = 0. Solutions are x = 2 and x = 3. Sum = 2 + 3 = 5. Alternatively, for ax² + bx + c = 0, sum of roots = -b/a = 5/1 = 5.",
      None),
    Question(
      "m006",
      "Algebra",
      2,
      "If f(x) = 2x + 3, what is f(4)?",
      ["8", "11", "14", "20"],
      1,
      "Substitute x = 4: f(4) = 2(4) + 3 = 8 + 3 = 11.",
      None),
    Question(
      "m007",
      "Geometry",
      3,
      "In a right triangle, if one leg is 3 and the hypotenuse is 5, what is the length of the other leg?",
      ["2", "4", "6", "8"],
      1,
      "Using the Pythagorean theorem: a² + b² = c². So 3² + b² = 5². 9 + b² = 25. b² = 16. b = 4.",
      None),
    Question(
      "m008",
      "Algebra",
      4,
      "If 2^(x+1) = 32, what is the value of x?",
      ["3", "4", "5", "6"],
      1,
      "32 = 2^5. So 2^(x+1) = 2^5. Therefore x + 1 = 5, and x = 4.",
      None),
    Question(
      "m009",
      "Data Analysis",
      2,
      "If a store offers 20% off a $50 item, what is the sale price?",
      ["$30", "$35", "$40", "$45"],
      2,
      "20% of $50 = 0.20 × 50 = $10. Sale price = $50 - $10 = $40.",
      None),
    Question(
      "m010",
      "Advanced Math",
      5,
      "For what value of k does the equation x² + kx + 9 = 0 have exactly one solution?",
      ["±3", "±6", "±9", "±12"],
      1,
      "For exactly one solution, the discriminant must equal zero: b² - 4ac = 0. So k² - 4(1)(9) = 0. k² = 36. k = ±6.",
      None)
  ]

  /** `QUESTIONS.sat.reading`. */
  const ReadingBank: seq<Question> := [
    Question(
      "r001",
      "Main Idea",
      2,
      "What is the main idea of this passage?",
      ["Exercise is only good for physical health", "Exercise benefits both physical and mental health", "Sedentary people are always stressed", "You must exercise daily to see benefits"],
      1,
      "The passage explicitly states that exercise improves both \"physical health\" and \"mental well-being,\" with evidence about reduced stress and anxiety.",
      Some("Recent studies have shown that regular exercise not only improves physical health but also has significant benefits for mental well-being. Researchers found that people who exercised at least three times a week reported lower levels of stress and anxiety compared to those who were sedentary.")),
    Question(
      "r002",
      "Inference",
      3,
      "What can be inferred about the library?",
      ["It was recently built", "It is currently thriving", "It has fallen into disuse", "It is being renovated"],
      2,
      "The description of dark windows, dust, weeds, and a tilted sign all suggest neglect and abandonment, indicating the library has fallen into disuse.",
      Some("The old library stood on the corner of Main Street, its windows dark and dusty. For decades, it had been the intellectual heart of the community, but now weeds grew through the cracks in the steps, and the once-proud sign hung at an angle.")),
    Question(
      "r003",
      "Vocabulary in Context",
      2,
      "In this context, \"skepticism\" most nearly means:",
      ["Enthusiasm", "Doubt", "Anger", "Support"],
      1,
      "Skepticism means doubt or disbelief. The contrast with later \"acknowledgment\" of validity confirms this meaning.",
      Some("The scientist's hypothesis was initially met with skepticism, but as more data accumulated, even her harshest critics had to acknowledge the validity of her findings.")),
    Question(
      "r004",
      "Author's Purpose",
      3,
      "What is the author's primary purpose?",
      ["To celebrate social media's benefits", "To argue that social media should be banned", "To present a balanced critique of social media", "To explain how social media works"],
      2,
      "The author acknowledges social media's benefits (\"connected the world\") while presenting concerns about its negative effects, indicating a balanced critique.",
      Some("While many argue that social media has connected the world, we must consider its shadow side. Studies link heavy social media use to increased rates of depression, particularly among teenagers. We cannot ignore this data in our rush to celebrate connectivity.")),
    Question(
      "r005",
      "Evidence",
      4,
      "Which claim is directly supported by evidence in the passage?",
      ["Coral reefs are more important than rainforests", "Coral reefs support a disproportionately large number of species", "All marine species depend on coral reefs", "Ocean temperatures are rising faster than predicted"],
      1,
      "The passage provides specific data: 25% of species on less than 1% of ocean floor. This directly supports the claim about disproportionate species support.",
      Some("The coral reefs, often called the \"rainforests of the sea,\" support approximately 25% of all marine species despite covering less than 1% of the ocean floor. However, rising ocean temperatures have triggered mass bleaching events, threatening this delicate ecosystem."))
  ]

  /** `QUESTIONS.sat.writing`. */
  const WritingBank: seq<Question> := [
    Question(
      "w001",
      "Grammar",
      2,
      "Select the correct version: \"Neither the students nor the teacher ____ ready for the surprise inspection.\"",
      ["was", "were", "are", "been"],
      0,
      "With \"neither...nor\" constructions, the verb agrees with the subject closest to it. \"Teacher\" is singular, so use \"was.\"",
      None),
    Question(
      "w002",
      "Punctuation",
      2,
      "Which sentence uses the semicolon correctly?",
      ["I love pizza; and pasta.", "I love pizza; however, I am allergic to cheese.", "I love; pizza, pasta, and salad.", "I love pizza; pasta; and salad."],
      1,
      "A semicolon correctly joins two independent clauses, especially when followed by a conjunctive adverb like \"however.\"",
      None),
    Question(
      "w003",
      "Sentence Structure",
      3,
      "Which revision eliminates the dangling modifier? Original: \"Walking through the park, the flowers were beautiful.\"",
      ["Walking through the park, the beautiful flowers.", "The flowers were beautiful, walking through the park.", "Walking through the park, I found the flowers beautiful.", "The flowers walking through the park were beautiful."],
      2,
      "The original sentence implies the flowers were walking. By adding \"I\" as the subject, it's clear who was walking through the park.",
      None),
    Question(
      "w004",
      "Word Choice",
      2,
      "Select the most precise word: \"The experiment had a ____ impact on our understanding of the phenomenon.\"",
      ["big", "significant", "really large", "super important"],
      1,
      "\"Significant\" is the most precise and formal word choice for academic writing, conveying importance without being vague or informal.",
      None),
    Question(
      "w005",
      "Transitions",
      3,
      "Which transition best connects these sentences? \"The company reported record profits. ____, they announced layoffs.\"",
      ["Consequently", "Nevertheless", "Furthermore", "Similarly"],
      1,
      "\"Nevertheless\" indicates contrast between two seemingly contradictory ideas (high profits vs. layoffs), making it the best choice.",
      None)
  ]

  /** The keys of `QUESTIONS.sat`, in the order `Object.values` visits them. */
  const CategoryNames: seq<string> := ["math", "reading", "writing"]

  /** `QUESTIONS.sat[category] || []`. */
  function Category(name: string): seq<Question> {
    if name == "math" then MathBank
    else if name == "reading" then ReadingBank
    else if name == "writing" then WritingBank
    else []
  }

  /** Every question of the bank, category by category. */
  function AllQuestions(): seq<Question> {
    MathBank + ReadingBank + WritingBank
  }

  lemma CategoryInBank(name: string)
    ensures forall i :: 0 <= i < |Category(name)| ==> Category(name)[i] in AllQuestions()
  {
  }

  /** Every `correct` is a valid option index and every difficulty is a tier 1 to 5. */
  lemma BankWellFormed()
    ensures forall i :: 0 <= i < |AllQuestions()| ==>
      WellFormed(AllQuestions()[i]) && 1 <= AllQuestions()[i].difficulty <= 5
  {
  }

  /** No two questions of the bank share an id. */
  lemma BankIdsDistinct()
    ensures forall i, j :: 0 <= i < j < |AllQuestions()| ==> AllQuestions()[i].id != AllQuestions()[j].id
  {
  }

  // ---------------------------------------------------------------------------
  // Lookups
  // ---------------------------------------------------------------------------

  /** Questions that are distinct values because their ids are. */
  lemma CategoryNoDuplicates(name: string)
    ensures NoDuplicates(Category(name))
  {
    BankIdsDistinct();
    var c, all := Category(name), AllQuestions();
    var off := if name == "math" then 0 else if name == "reading" then |MathBank| else |MathBank| + |ReadingBank|;
    forall i, j | 0 <= i < j < |c| ensures c[i] != c[j] {
      assert c[i] == all[off + i] && c[j] == all[off + j];
    }
  }

  /** End index `Math.min(count, n)` as `slice(0, end)` interprets it. */
  function SliceEnd(count: int, n: nat): (e: nat)
    ensures e <= n
    ensures count >= 0 ==> e == if count < n then count else n
  {
    if count >= n then n else if count >= 0 then count else if n + count >= 0 then n + count else 0
  }

  /**
   * `getRandomQuestions(category, count)`: the first `count` questions of the
   * category in the order the shuffle left them; `order` is that shuffle,
   * written as a permutation of the category's indices.
   */
  function GetRandomQuestions(category: string, count: int, order: seq<nat>): (r: seq<Question>)
    requires IsPermutation(order, |Category(category)|)
    ensures count >= 0 ==> |r| == if count < |Category(category)| then count else |Category(category)|
    ensures forall i :: 0 <= i < |r| ==> r[i] in Category(category)
    ensures NoDuplicates(r)
  {
    var available := Category(category);
    CategoryNoDuplicates(category);
    var shuffled := seq(|order|, k requires 0 <= k < |order| => available[order[k]]);
    assert forall i, j :: 0 <= i < j < |shuffled| ==> shuffled[i] != shuffled[j] by {
      forall i, j | 0 <= i < j < |shuffled| ensures shuffled[i] != shuffled[j] {
        assert order[i] != order[j];
      }
    }
    shuffled[..SliceEnd(count, |shuffled|)]
  }

  /** `getQuestionsByDifficulty(category, difficulty)`. */
  function GetQuestionsByDifficulty(category: string, difficulty: int): (r: seq<Question>)
    ensures forall i :: 0 <= i < |r| ==> r[i] in Category(category) && r[i].difficulty == difficulty
    ensures forall q :: q in Category(category) && q.difficulty == difficulty ==> q in r
    ensures IsSubsequence(r, Category(category))
  {
    Filter(Category(category), (q: Question) => q.difficulty == difficulty)
  }

  /** A name that is not a category finds nothing, whatever the count or difficulty. */
  lemma UnknownCategoryEmpty(category: string, count: int, difficulty: int)
    requires category !in CategoryNames
    ensures GetRandomQuestions(category, count, []) == []
    ensures GetQuestionsByDifficulty(category, difficulty) == []
  {
  }

  /** `qs.find(q => q.id === id)`. */
  function FindById(qs: seq<Question>, id: string): (r: Option<Question>)
    ensures r.Some? ==> r.value in qs && r.value.id == id
    ensures r.Some? ==> exists i :: 0 <= i < |qs| && qs[i] == r.value && forall j :: 0 <= j < i ==> qs[j].id != id
    ensures r.None? <==> forall i :: 0 <= i < |qs| ==> qs[i].id != id
  {
    if qs == [] then None
    else if qs[0].id == id then Some(qs[0])
    else
      var r := FindById(qs[1..], id);
      assert r.Some? ==> exists i :: 0 <= i < |qs[1..]| && qs[1..][i] == r.value && forall j :: 0 <= j < i ==> qs[1..][j].id != id;
      if r.Some? then
        var i :| 0 <= i < |qs[1..]| && qs[1..][i] == r.value && forall j :: 0 <= j < i ==> qs[1..][j].id != id;
        assert qs[i + 1] == r.value && forall j :: 0 <= j < i + 1 ==> qs[j].id != id;
        r
      else r
  }

  lemma {:induction false} FindByIdConcat(a: seq<Question>, b: seq<Question>, id: string)
    ensures FindById(a + b, id) == if FindById(a, id).Some? then FindById(a, id) else FindById(b, id)
  {
    if a == [] {
      assert a + b == b;
    } else {
      assert (a + b)[1..] == a[1..] + b;
      FindByIdConcat(a[1..], b, id);
    }
  }

  /** `getQuestionById(id)`: the first category, in bank order, that has the id decides. */
  function GetQuestionById(id: string): (r: Option<Question>)
    ensures r == FindById(AllQuestions(), id)
  {
    FindByIdConcat(MathBank + ReadingBank, WritingBank, id);
    FindByIdConcat(MathBank, ReadingBank, id);
    match FindById(MathBank, id)
    case Some(q) => Some(q)
    case None =>
      match FindById(ReadingBank, id)
      case Some(q) => Some(q)
      case None => FindById(WritingBank, id)
  }

  /** The lookup returns a question of the bank that has the id, and `null` only when none has it. */
  lemma GetQuestionByIdSpec(id: string)
    ensures GetQuestionById(id).Some? ==> GetQuestionById(id).value in AllQuestions() && GetQuestionById(id).value.id == id
    ensures GetQuestionById(id).None? <==> forall q :: q in AllQuestions() ==> q.id != id
  {
  }
}
