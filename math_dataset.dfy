/**
 * The knowledge base's fixed dataset of eight worked problems, its lookups
 * by topic, difficulty and free-text query, and its flattening into the
 * string records that are embedded and stored.
 */
module MathDataset {
  import opened Text
  import opened Collections

  datatype MathProblem = MathProblem(
    id: string,
    question: string,
    topic: string,
    difficulty: string,
    solutionSteps: seq<string>,
    finalAnswer: string,
    explanation: string,
    relatedConcepts: seq<string>)

  /** A value of a JSON-like record: a string or a list of strings. */
  datatype Field = Str(s: string) | List(items: seq<string>)

  /** A document as stored and searched: a dictionary from keys to fields. */
  type Doc = map<string, Field>

  /** The problems `_create_sample_dataset` builds, in its order. */
  const SampleProblems: seq<MathProblem> := [
    MathProblem(
      "alg_001",
      "Solve the equation: 2x + 5 = 13",
      "algebra",
      "beginner",
      ["Start with the equation: 2x + 5 = 13",
        "Subtract 5 from both sides: 2x = 13 - 5",
        "Simplify: 2x = 8",
        "Divide both sides by 2: x = 8/2",
        "Final answer: x = 4"],
      "x = 4",
      "This is a linear equation in one variable. We solve it by isolating the variable using inverse operations.",
      ["linear equations", "algebraic manipulation", "solving equations"]),
    MathProblem(
      "calc_001",
      "Find the derivative of f(x) = x² + 3x + 2",
      "calculus",
      "intermediate",
      ["Given function: f(x) = x² + 3x + 2",
        "Apply power rule to x²: d/dx(x²) = 2x",
        "Apply power rule to 3x: d/dx(3x) = 3",
        "Derivative of constant 2: d/dx(2) = 0",
        "Combine results: f'(x) = 2x + 3 + 0",
        "Final answer: f'(x) = 2x + 3"],
      "f'(x) = 2x + 3",
      "We use the power rule for differentiation: d/dx(x^n) = nx^(n-1). For each term, we apply this rule and sum the results.",
      ["derivatives", "power rule", "polynomial functions"]),
    MathProblem(
      "geom_001",
      "Find the area of a triangle with base 6 cm and height 8 cm",
      "geometry",
      "beginner",
      ["Given: base = 6 cm, height = 8 cm",
        "Use the formula: Area = (1/2) × base × height",
        "Substitute values: Area = (1/2) × 6 × 8",
        "Calculate: Area = (1/2) × 48",
        "Final answer: Area = 24 cm²"],
      "24 cm²",
      "The area of a triangle is half the product of its base and height. This formula works for any triangle.",
      ["area", "triangle", "geometry formulas"]),
    MathProblem(
      "trig_001",
      "Find the value of sin(30°)",
      "trigonometry",
      "beginner",
      ["Recall the special angle: sin(30°) = 1/2",
        "This is a standard trigonometric value",
        "We can verify using the unit circle",
        "At 30°, the y-coordinate is 1/2",
        "Final answer: sin(30°) = 1/2"],
      "1/2",
      "30° is a special angle in trigonometry. The sine of 30° is always 1/2, which can be derived from a 30-60-90 triangle.",
      ["trigonometric functions", "special angles", "unit circle"]),
    MathProblem(
      "stat_001",
      "Find the mean of the numbers: 2, 4, 6, 8, 10",
      "statistics",
      "beginner",
      ["Given numbers: 2, 4, 6, 8, 10",
        "Add all numbers: 2 + 4 + 6 + 8 + 10 = 30",
        "Count the numbers: n = 5",
        "Apply formula: Mean = Sum / n = 30 / 5",
        "Final answer: Mean = 6"],
      "6",
      "The mean (average) is calculated by adding all values and dividing by the count of values.",
      ["mean", "average", "descriptive statistics"]),
    MathProblem(
      "calc_002",
      "Evaluate the integral: ∫(2x + 3)dx",
      "calculus",
      "intermediate",
      ["Given integral: ∫(2x + 3)dx",
        "Apply power rule: ∫(2x)dx = 2(x²/2) = x²",
        "Apply constant rule: ∫(3)dx = 3x",
        "Combine results: x² + 3x",
        "Add constant of integration: + C",
        "Final answer: x² + 3x + C"],
      "x² + 3x + C",
      "We use the power rule for integration: ∫(x^n)dx = x^(n+1)/(n+1) + C. We integrate each term separately and add the constant of integration.",
      ["integration", "power rule", "indefinite integral"]),
    MathProblem(
      "alg_002",
      "Factor the quadratic: x² - 5x + 6",
      "algebra",
      "intermediate",
      ["Given quadratic: x² - 5x + 6",
        "Find two numbers that multiply to 6 and add to -5",
        "The numbers are -2 and -3: (-2) × (-3) = 6, (-2) + (-3) = -5",
        "Write as product: (x - 2)(x - 3)",
        "Verify: (x - 2)(x - 3) = x² - 3x - 2x + 6 = x² - 5x + 6",
        "Final answer: (x - 2)(x - 3)"],
      "(x - 2)(x - 3)",
      "To factor a quadratic, we find two numbers that multiply to the constant term and add to the coefficient of the linear term.",
      ["factoring", "quadratic equations", "polynomials"]),
    MathProblem(
      "geom_002",
      "Find the circumference of a circle with radius 5 cm",
      "geometry",
      "beginner",
      ["Given: radius = 5 cm",
        "Use formula: C = 2πr",
        "Substitute: C = 2π(5)",
        "Calculate: C = 10π",
        "Approximate: C ≈ 10 × 3.14159 ≈ 31.42 cm",
        "Final answer: C = 10π cm or approximately 31.42 cm"],
      "10π cm (approximately 31.42 cm)",
      "The circumference of a circle is calculated using the formula C = 2πr, where r is the radius.",
      ["circumference", "circle", "pi", "radius"])
  ]

  /** The eight sample problems carry eight different ids. */
  lemma SampleIdsDistinct()
    ensures |SampleProblems| == 8
    ensures forall i, j :: 0 <= i < j < |SampleProblems| ==> SampleProblems[i].id != SampleProblems[j].id
  {
  }

  /** The question, topic or one related concept contains the lower-cased query (case-insensitively). */
  predicate MatchesQuery(p: MathProblem, queryLower: string) {
    Contains(Lower(p.question), queryLower) ||
    Contains(Lower(p.topic), queryLower) ||
    (exists i :: 0 <= i < |p.relatedConcepts| && Contains(Lower(p.relatedConcepts[i]), queryLower))
  }

  /** The flat record `to_dict` makes of one problem. */
  function Record(p: MathProblem): Doc {
    map[
      "id" := Str(p.id),
      "question" := Str(p.question),
      "topic" := Str(p.topic),
      "difficulty" := Str(p.difficulty),
      "solution" := Str(Join(" ", p.solutionSteps)),
      "answer" := Str(p.finalAnswer),
      "explanation" := Str(p.explanation),
      "concepts" := Str(Join(" ", p.relatedConcepts)),
      "content" := Str(p.question + " " + p.explanation + " " + Join(" ", p.solutionSteps))
    ]
  }

  class MathDataset {
    var problems: seq<MathProblem>

    /** `__init__` with `_create_sample_dataset`: appends the sample problems one by one. */
    constructor ()
      ensures problems == SampleProblems
    {
      var built := [];
      for i := 0 to |SampleProblems|
        invariant built == SampleProblems[..i]
      {
        built := built + [SampleProblems[i]];
      }
      problems := built;
    }

    /** `get_problems_by_topic`. */
    function ProblemsByTopic(topic: string): (r: seq<MathProblem>)
      reads this
      ensures IsSubsequence(r, problems)
      ensures forall i :: 0 <= i < |r| ==> r[i].topic == topic
      ensures forall i :: 0 <= i < |problems| && problems[i].topic == topic ==> problems[i] in r
    {
      FilterIsSubsequence(problems, (p: MathProblem) => p.topic == topic);
      Filter(problems, (p: MathProblem) => p.topic == topic)
    }

    /** `get_problems_by_difficulty`. */
    function ProblemsByDifficulty(difficulty: string): (r: seq<MathProblem>)
      reads this
      ensures IsSubsequence(r, problems)
      ensures forall i :: 0 <= i < |r| ==> r[i].difficulty == difficulty
      ensures forall i :: 0 <= i < |problems| && problems[i].difficulty == difficulty ==> problems[i] in r
    {
      FilterIsSubsequence(problems, (p: MathProblem) => p.difficulty == difficulty);
      Filter(problems, (p: MathProblem) => p.difficulty == difficulty)
    }

    /** `search_problems`: the empty query matches every problem. */
    method SearchProblems(query: string) returns (results: seq<MathProblem>)
      ensures results == SearchResults(problems, Lower(query))
      ensures IsSubsequence(results, problems)
      ensures forall i :: 0 <= i < |results| ==> MatchesQuery(results[i], Lower(query))
      ensures forall i :: 0 <= i < |problems| && MatchesQuery(problems[i], Lower(query)) ==> problems[i] in results
      ensures query == "" ==> results == problems
    {
      var queryLower := Lower(query);
      results := [];
      for i := 0 to |problems|
        invariant results == SearchResults(problems[..i], queryLower)
      {
        var problem := problems[i];
        SearchResultsStep(problems, i, queryLower);
        if Contains(Lower(problem.question), queryLower) ||
           Contains(Lower(problem.topic), queryLower) ||
           AnyConceptMatches(problem.relatedConcepts, queryLower)
        {
          results := results + [problem];
        }
      }
      assert problems[..|problems|] == problems;
      SearchResultsFacts(problems, queryLower);
    }

    /** `get_all_problems`. */
    function AllProblems(): (r: seq<MathProblem>)
      reads this
      ensures r == problems
    {
      problems
    }

    /** `to_dict`: one record per problem, in order. */
    function ToDict(): (r: seq<Doc>)
      reads this
      ensures |r| == |problems|
      ensures forall i :: 0 <= i < |r| ==> r[i] == Record(problems[i])
    {
      seq(|problems|, i requires 0 <= i < |problems| reads this => Record(problems[i]))
    }
  }

  /** The problems `search_problems` returns for a lower-cased query: the matching ones, in order. */
  function SearchResults(ps: seq<MathProblem>, queryLower: string): seq<MathProblem> {
    Filter(ps, (p: MathProblem) => MatchesQuery(p, queryLower))
  }

  /** One more problem is appended to the results exactly when it matches. */
  lemma SearchResultsStep(ps: seq<MathProblem>, i: nat, queryLower: string)
    requires i < |ps|
    ensures SearchResults(ps[..i + 1], queryLower) ==
      SearchResults(ps[..i], queryLower) + (if MatchesQuery(ps[i], queryLower) then [ps[i]] else [])
  {
    assert ps[..i + 1] == ps[..i] + [ps[i]];
    FilterAppend(ps[..i], [ps[i]], (p: MathProblem) => MatchesQuery(p, queryLower));
  }

  /**
   * The results keep the problems' order, hold only matching problems and
   * every matching one; the empty query matches everything.
   */
  lemma SearchResultsFacts(ps: seq<MathProblem>, queryLower: string)
    ensures IsSubsequence(SearchResults(ps, queryLower), ps)
    ensures forall i :: 0 <= i < |SearchResults(ps, queryLower)| ==> MatchesQuery(SearchResults(ps, queryLower)[i], queryLower)
    ensures forall i :: 0 <= i < |ps| && MatchesQuery(ps[i], queryLower) ==> ps[i] in SearchResults(ps, queryLower)
    ensures queryLower == "" ==> SearchResults(ps, queryLower) == ps
  {
    FilterIsSubsequence(ps, (p: MathProblem) => MatchesQuery(p, queryLower));
    if queryLower == "" {
      forall i | 0 <= i < |ps| ensures MatchesQuery(ps[i], queryLower) {
        ContainsEmpty(Lower(ps[i].question));
      }
      FilterAll(ps, (p: MathProblem) => MatchesQuery(p, queryLower));
    }
  }

  /** `any(query_lower in concept.lower() for concept in concepts)`. */
  function AnyConceptMatches(concepts: seq<string>, queryLower: string): (b: bool)
    ensures b <==> exists i :: 0 <= i < |concepts| && Contains(Lower(concepts[i]), queryLower)
  {
    if concepts == [] then false
    else Contains(Lower(concepts[0]), queryLower) || AnyConceptMatches(concepts[1..], queryLower)
  }

  /**
   * A record keeps the problem's id, question, topic, difficulty, answer and
   * explanation as strings; its solution is the steps joined by single blanks,
   * and its content is the question, the explanation and that solution joined
   * by single blanks. It has no `solution_steps` key.
   */
  lemma RecordFields(p: MathProblem)
    ensures Record(p)["id"] == Str(p.id) && Record(p)["question"] == Str(p.question)
    ensures Record(p)["topic"] == Str(p.topic) && Record(p)["difficulty"] == Str(p.difficulty)
    ensures Record(p)["answer"] == Str(p.finalAnswer) && Record(p)["explanation"] == Str(p.explanation)
    ensures Record(p)["solution"] == Str(Join(" ", p.solutionSteps))
    ensures Record(p)["content"] == Str(p.question + " " + p.explanation + " " + Record(p)["solution"].s)
    ensures "solution_steps" !in Record(p)
  {
  }
}
