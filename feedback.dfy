/**
 * Feedback and learning: an append-only history of user ratings with its
 * summary, the rule-based scoring of an evaluator's text, and the learning
 * log built from both, with its averages, improvement tally and trend.
 *
 * Persistence of the history to a JSON file is left out: the collector starts
 * from whatever history was loaded. The evaluator (a DSPy predictor) and the
 * clock are inputs.
 */
module Feedback {
  import opened Wrappers
  import opened Text
  import opened Regex
  import opened Collections
  import GeminiClient

  // ---------------------------------------------------------------------------
  // Feedback history

  /** One rating of a response. The rating is not range-checked. */
  datatype FeedbackData = FeedbackData(question: string, response: string, userRating: int,
                                       userComments: string, timestamp: string, sessionId: string)

  /** What `collect_feedback` hands back. */
  datatype Receipt = Receipt(feedbackId: nat, status: string, rating: int, timestamp: string)

  /** The part of the summary present only when there is some feedback. */
  datatype SummaryDetails = SummaryDetails(ratingDistribution: seq<nat>, recentFeedback: seq<FeedbackData>)

  datatype FeedbackSummary = FeedbackSummary(totalFeedback: nat, averageRating: real,
                                             details: Option<SummaryDetails>)

  /** The ratings of a history, in order. */
  function Ratings(h: seq<FeedbackData>): (r: seq<int>)
    ensures |r| == |h| && forall i :: 0 <= i < |h| ==> r[i] == h[i].userRating
  {
    seq(|h|, i requires 0 <= i < |h| => h[i].userRating)
  }

  function Min(a: int, b: int): int { if a < b then a else b }

  /** `sum(xs) / len(xs)` for a non-empty list of integers. */
  function IntMean(xs: seq<int>): (m: real)
    requires xs != []
    ensures m * (|xs| as real) == SumInt(xs) as real
  {
    SumInt(xs) as real / |xs| as real
  }

  class FeedbackCollector {
    var history: seq<FeedbackData>

    /** Starts from the history read back from storage. */
    constructor (loaded: seq<FeedbackData>)
      ensures history == loaded
    {
      history := loaded;
    }

    /** Appends one entry; its id is its 1-based position in the history. */
    method CollectFeedback(question: string, response: string, rating: int, comments: string,
                           sessionId: string, timestamp: string) returns (receipt: Receipt)
      modifies this
      ensures history == old(history) + [FeedbackData(question, response, rating, comments, timestamp, sessionId)]
      ensures receipt == Receipt(|history|, "collected", rating, timestamp)
    {
      history := history + [FeedbackData(question, response, rating, comments, timestamp, sessionId)];
      receipt := Receipt(|history|, "collected", rating, timestamp);
    }

    /**
     * `get_feedback_summary`: count and mean of the ratings, how many ratings
     * are 1, 2, 3, 4 and 5, and the last five entries (all of them when fewer).
     */
    function Summary(): (s: FeedbackSummary)
      reads this
      ensures history == [] ==> s == FeedbackSummary(0, 0.0, None)
      ensures history != [] ==>
        && s.totalFeedback == |history|
        && s.averageRating == IntMean(Ratings(history))
        && s.details.Some?
        && |s.details.value.ratingDistribution| == 5
        && (forall k :: 1 <= k <= 5 ==> s.details.value.ratingDistribution[k - 1] == Occurrences(Ratings(history), k))
        && |s.details.value.recentFeedback| == Min(5, |history|)
        && s.details.value.recentFeedback == history[|history| - Min(5, |history|)..]
    {
      if history == [] then FeedbackSummary(0, 0.0, None)
      else
        var ratings := Ratings(history);
        var n := |history|;
        var distribution := [Occurrences(ratings, 1), Occurrences(ratings, 2), Occurrences(ratings, 3),
                             Occurrences(ratings, 4), Occurrences(ratings, 5)];
        assert forall k :: 1 <= k <= 5 ==> distribution[k - 1] == Occurrences(ratings, k) by {
          forall k | 1 <= k <= 5 ensures distribution[k - 1] == Occurrences(ratings, k) {
            assert k == 1 || k == 2 || k == 3 || k == 4 || k == 5;
          }
        }
        FeedbackSummary(n, IntMean(ratings),
          Some(SummaryDetails(distribution, if n >= 5 then history[n - 5..] else history)))
    }
  }

  /** The five counts of the distribution, added up. */
  function DistributionTotal(ratings: seq<int>): nat {
    Occurrences(ratings, 1) + Occurrences(ratings, 2) + Occurrences(ratings, 3)
      + Occurrences(ratings, 4) + Occurrences(ratings, 5)
  }

  /** How many ratings fall outside 1..5. */
  function OutOfScale(ratings: seq<int>): (n: nat)
    ensures n == 0 <==> forall i :: 0 <= i < |ratings| ==> 1 <= ratings[i] <= 5
  {
    if ratings == [] then 0
    else (if 1 <= ratings[0] <= 5 then 0 else 1) + OutOfScale(ratings[1..])
  }

  lemma {:induction false} DistributionSplit(ratings: seq<int>)
    ensures DistributionTotal(ratings) + OutOfScale(ratings) == |ratings|
  {
    if ratings != [] {
      DistributionSplit(ratings[1..]);
    }
  }

  /**
   * The distribution accounts for every rating exactly when all ratings lie
   * on the 1..5 scale; nothing enforces that scale.
   */
  lemma DistributionCoversAll(ratings: seq<int>)
    ensures DistributionTotal(ratings) == |ratings| <==> forall i :: 0 <= i < |ratings| ==> 1 <= ratings[i] <= 5
  {
    DistributionSplit(ratings);
  }

  // ---------------------------------------------------------------------------
  // Response evaluation

  /** The three patterns one metric is looked for with, tried in this order. */
  function ScorePatterns(metric: string): seq<Pattern> {
    [ Pattern(metric + @":\s*(\d+\.?\d*)", true),
      Pattern(metric + @"\s*score:\s*(\d+\.?\d*)", true),
      Pattern(metric + @"\s*=\s*(\d+\.?\d*)", true) ]
  }

  function RealMin(a: real, b: real): real { if a < b then a else b }

  function RealMax(a: real, b: real): real { if a < b then b else a }

  /** A value above 1 is taken to be out of 10; the result is clamped to [0, 1]. */
  function Normalize(v: real): (r: real)
    ensures 0.0 <= r <= 1.0
    ensures 0.0 <= v <= 1.0 ==> r == v
    ensures 1.0 < v <= 10.0 ==> r == v / 10.0
    ensures v > 10.0 ==> r == 1.0
    ensures v < 0.0 ==> r == 0.0
  {
    var s := if v > 1.0 then v / 10.0 else v;
    RealMin(RealMax(s, 0.0), 1.0)
  }

  /** The value read when the metric is missing or its number does not parse. */
  const DefaultScore: real := 0.5

  /**
   * `_extract_score`: the number captured by the first matching pattern,
   * normalised; 0.5 when no pattern matches or the capture is not a number.
   */
  function ExtractScore(engine: Engine, text: string, metric: string): (score: real)
    ensures 0.0 <= score <= 1.0
    ensures (forall j :: 0 <= j < 3 ==> !Search(engine, ScorePatterns(metric)[j], text)) ==> score == DefaultScore
    ensures var ps := ScorePatterns(metric);
            var i := FirstFound(engine, ps, text);
            i < 3 && GeminiClient.ParseDecimal(FirstGroup(engine, ps[i], text)).Some? ==>
            score == Normalize(GeminiClient.ParseDecimal(FirstGroup(engine, ps[i], text)).value)
  {
    var ps := ScorePatterns(metric);
    var i := FirstFound(engine, ps, text);
    if i == |ps| then DefaultScore
    else
      match GeminiClient.ParseDecimal(FirstGroup(engine, ps[i], text))
      case None => DefaultScore
      case Some(v) => Normalize(v)
  }

  /** An improvement tag raised when both of its keywords occur. */
  datatype Rule = Rule(first: string, second: string, tag: string)

  /** The four rules of `_identify_improvements`, in the order they are tried. */
  const EvaluationRules: seq<Rule> := [
    Rule("step", "missing", "add_more_steps"),
    Rule("explanation", "unclear", "improve_explanation"),
    Rule("answer", "incorrect", "fix_answer"),
    Rule("format", "poor", "improve_formatting")
  ]

  predicate Fires(rule: Rule, lowered: string) {
    Contains(lowered, rule.first) && Contains(lowered, rule.second)
  }

  function Tags(rules: seq<Rule>): (r: seq<string>)
    ensures |r| == |rules| && forall i :: 0 <= i < |rules| ==> r[i] == rules[i].tag
  {
    seq(|rules|, i requires 0 <= i < |rules| => rules[i].tag)
  }

  predicate Distinct(s: seq<string>) {
    forall i, j :: 0 <= i < j < |s| ==> s[i] != s[j]
  }

  /** Some rule with tag `t` fires. */
  predicate SomeFires(rules: seq<Rule>, t: string, lowered: string) {
    rules != [] && ((rules[0].tag == t && Fires(rules[0], lowered)) || SomeFires(rules[1..], t, lowered))
  }

  /** The tags of the rules that fire, in rule order. */
  function FiredTags(rules: seq<Rule>, lowered: string): (r: seq<string>)
    ensures forall t :: t in r <==> SomeFires(rules, t, lowered)
  {
    if rules == [] then []
    else (if Fires(rules[0], lowered) then [rules[0].tag] else []) + FiredTags(rules[1..], lowered)
  }

  /** The fired tags keep rule order and, the tags being distinct, have no repeats. */
  lemma {:induction false} FiredTagsOrdered(rules: seq<Rule>, lowered: string)
    requires Distinct(Tags(rules))
    ensures IsSubsequence(FiredTags(rules, lowered), Tags(rules))
    ensures Distinct(FiredTags(rules, lowered))
  {
    if rules != [] {
      var tags := Tags(rules);
      var rest := FiredTags(rules[1..], lowered);
      assert Tags(rules[1..]) == tags[1..];
      FiredTagsOrdered(rules[1..], lowered);
      if Fires(rules[0], lowered) {
        var r := [rules[0].tag] + rest;
        assert r[1..] == rest;
        forall j | 0 < j < |r| ensures r[0] != r[j] {
          assert r[j] in rest;
          SomeFiresIsRule(rules[1..], r[j], lowered);
          var i :| 0 <= i < |rules[1..]| && rules[1..][i].tag == r[j];
          assert tags[i + 1] == r[j];
        }
        forall i, j | 0 <= i < j < |r| ensures r[i] != r[j] {
          if i > 0 {
            assert r[i] == rest[i - 1] && r[j] == rest[j - 1];
          }
        }
      } else {
        assert FiredTags(rules, lowered) == rest;
        SubsequenceDropHead(rest, tags);
      }
    }
  }

  lemma {:induction false} SomeFiresIsRule(rules: seq<Rule>, t: string, lowered: string)
    requires SomeFires(rules, t, lowered)
    ensures exists i :: 0 <= i < |rules| && rules[i].tag == t
  {
    if rules[0].tag != t || !Fires(rules[0], lowered) {
      SomeFiresIsRule(rules[1..], t, lowered);
      var i :| 0 <= i < |rules[1..]| && rules[1..][i].tag == t;
      assert rules[i + 1].tag == t;
    }
  }

  /** `_identify_improvements`: the tags whose two keywords both occur, case-insensitively. */
  function IdentifyImprovements(text: string): (r: seq<string>)
    ensures |r| <= 4
    ensures IsSubsequence(r, ["add_more_steps", "improve_explanation", "fix_answer", "improve_formatting"])
    ensures Distinct(r)
  {
    assert Tags(EvaluationRules) == ["add_more_steps", "improve_explanation", "fix_answer", "improve_formatting"];
    FiredTagsOrdered(EvaluationRules, Lower(text));
    SubsequenceLength(FiredTags(EvaluationRules, Lower(text)), Tags(EvaluationRules));
    FiredTags(EvaluationRules, Lower(text))
  }

  lemma {:induction false} SubsequenceLength(a: seq<string>, b: seq<string>)
    requires IsSubsequence(a, b)
    ensures |a| <= |b|
    decreases |b|
  {
    if a != [] {
      if a[0] == b[0] {
        SubsequenceLength(a[1..], b[1..]);
      } else {
        SubsequenceLength(a, b[1..]);
      }
    }
  }

  /** Each tag of `_identify_improvements` is raised exactly when both its keywords occur. */
  lemma IdentifyImprovementsRules(text: string)
    ensures var r := IdentifyImprovements(text);
            var l := Lower(text);
            && ("add_more_steps" in r <==> Contains(l, "step") && Contains(l, "missing"))
            && ("improve_explanation" in r <==> Contains(l, "explanation") && Contains(l, "unclear"))
            && ("fix_answer" in r <==> Contains(l, "answer") && Contains(l, "incorrect"))
            && ("improve_formatting" in r <==> Contains(l, "format") && Contains(l, "poor"))
  {
    var rules := EvaluationRules;
    var r := IdentifyImprovements(text);
    var l := Lower(text);
    OnlyRule(rules, 0, l);
    OnlyRule(rules, 1, l);
    OnlyRule(rules, 2, l);
    OnlyRule(rules, 3, l);
  }

  /** When only rule `k` carries its tag, the tag is raised exactly when rule `k` fires. */
  lemma {:induction false} OnlyRule(rules: seq<Rule>, k: nat, lowered: string)
    requires k < |rules|
    requires forall j :: 0 <= j < |rules| && j != k ==> rules[j].tag != rules[k].tag
    ensures SomeFires(rules, rules[k].tag, lowered) <==> Fires(rules[k], lowered)
  {
    if k > 0 {
      assert rules[1..][k - 1] == rules[k];
      forall j | 0 <= j < |rules[1..]| && j != k - 1 ensures rules[1..][j].tag != rules[k].tag {
        assert rules[1..][j] == rules[j + 1];
      }
      OnlyRule(rules[1..], k - 1, lowered);
    } else {
      assert !SomeFires(rules[1..], rules[0].tag, lowered) by {
        forall i | 0 <= i < |rules[1..]| ensures rules[1..][i].tag != rules[0].tag {
          assert rules[1..][i] == rules[i + 1];
        }
        if SomeFires(rules[1..], rules[0].tag, lowered) {
          SomeFiresIsRule(rules[1..], rules[0].tag, lowered);
          assert false;
        }
      }
    }
  }

  /** What the evaluator produced: nothing (DSPy missing), its text, or an exception. */
  datatype Evaluator = Fallback | Predictor(reply: Result<string, string>)

  const FallbackEvaluationText: string := "Fallback evaluation: Response appears to be mathematical content."

  datatype ResponseEvaluation = ResponseEvaluation(accuracy: real, clarity: real, completeness: real,
                                                   overallScore: real, evaluationText: string,
                                                   needsImprovement: seq<string>)

  /** The evaluation returned when the evaluator raises. */
  const FailedEvaluation: ResponseEvaluation :=
    ResponseEvaluation(0.5, 0.5, 0.5, 0.5, "Evaluation failed", ["evaluation_error"])

  /** Every score of the evaluation lies in [0, 1]. */
  predicate InUnit(e: ResponseEvaluation) {
    && 0.0 <= e.accuracy <= 1.0 && 0.0 <= e.clarity <= 1.0
    && 0.0 <= e.completeness <= 1.0 && 0.0 <= e.overallScore <= 1.0
  }

  /** The text the evaluator hands over, when it does not raise. */
  function EvaluatorText(evaluator: Evaluator): string
    requires !(evaluator.Predictor? && evaluator.reply.Failure?)
  {
    if evaluator.Fallback? then FallbackEvaluationText else evaluator.reply.value
  }

  /**
   * `evaluate_response`: the three metric scores read from the evaluator's
   * text, their mean, and the improvement tags of the text.
   */
  function EvaluateResponse(engine: Engine, evaluator: Evaluator): (e: ResponseEvaluation)
    ensures InUnit(e)
    ensures evaluator.Predictor? && evaluator.reply.Failure? ==> e == FailedEvaluation
    ensures !(evaluator.Predictor? && evaluator.reply.Failure?) ==>
      var t := EvaluatorText(evaluator);
      && e.accuracy == ExtractScore(engine, t, "accuracy")
      && e.clarity == ExtractScore(engine, t, "clarity")
      && e.completeness == ExtractScore(engine, t, "completeness")
      && e.overallScore * 3.0 == e.accuracy + e.clarity + e.completeness
      && e.evaluationText == t
      && e.needsImprovement == IdentifyImprovements(t)
  {
    if evaluator.Predictor? && evaluator.reply.Failure? then FailedEvaluation
    else
      var t := EvaluatorText(evaluator);
      var a := ExtractScore(engine, t, "accuracy");
      var c := ExtractScore(engine, t, "clarity");
      var m := ExtractScore(engine, t, "completeness");
      ResponseEvaluation(a, c, m, (a + c + m) / 3.0, t, IdentifyImprovements(t))
  }

  // ---------------------------------------------------------------------------
  // Learning system

  /**
   * One processed interaction. Entries carry no list of improvements, so
   * `entry.get("improvements", [])` is always empty.
   */
  datatype LearningEntry = LearningEntry(question: string, response: string, userRating: int,
                                         userComments: string, evaluation: ResponseEvaluation,
                                         timestamp: string, sessionId: string)

  datatype ProcessResult = ProcessResult(feedbackCollected: Receipt, evaluation: ResponseEvaluation,
                                         improvements: set<Suggestion>, learningUpdated: bool)

  /** The suggestions `_generate_improvements` can make; `Name` is the string the source uses. */
  datatype Suggestion =
    | ImproveAccuracy | AddMoreExplanations | VerifyMathematicalCorrectness | SimplifyExplanations
    | AddMoreSteps | ImproveClarity | AddMoreDetails | VerifySolution
  {
    function Name(): string {
      match this
      case ImproveAccuracy => "improve_accuracy"
      case AddMoreExplanations => "add_more_explanations"
      case VerifyMathematicalCorrectness => "verify_mathematical_correctness"
      case SimplifyExplanations => "simplify_explanations"
      case AddMoreSteps => "add_more_steps"
      case ImproveClarity => "improve_clarity"
      case AddMoreDetails => "add_more_details"
      case VerifySolution => "verify_solution"
    }
  }

  /** Distinct suggestions have distinct names, so the set of suggestions is the set of their strings. */
  lemma SuggestionNamesDistinct(a: Suggestion, b: Suggestion)
    requires a != b
    ensures a.Name() != b.Name()
  {
  }

  /**
   * `_generate_improvements`: the suggestions of the rating, score and
   * comment rules that apply. The source returns `list(set(...))`, whose
   * order is not determined, so the model returns the set.
   */
  function GenerateImprovements(entry: LearningEntry): (r: set<Suggestion>)
    ensures ImproveAccuracy in r <==> entry.userRating <= 2
    ensures AddMoreExplanations in r <==> entry.userRating <= 2
    ensures VerifyMathematicalCorrectness in r <==> entry.evaluation.accuracy < 0.7
    ensures SimplifyExplanations in r <==> entry.evaluation.clarity < 0.7
    ensures AddMoreSteps in r <==> entry.evaluation.completeness < 0.7
    ensures ImproveClarity in r <==> Contains(Lower(entry.userComments), "confusing")
    ensures AddMoreDetails in r <==> Contains(Lower(entry.userComments), "incomplete")
    ensures VerifySolution in r <==> Contains(Lower(entry.userComments), "wrong")
  {
    set s | s in AllSuggestions && Applies(entry, s)
  }

  /** Whether the rule behind suggestion `s` fires for the entry. */
  predicate Applies(entry: LearningEntry, s: Suggestion) {
    match s
    case ImproveAccuracy | AddMoreExplanations => entry.userRating <= 2
    case VerifyMathematicalCorrectness => entry.evaluation.accuracy < 0.7
    case SimplifyExplanations => entry.evaluation.clarity < 0.7
    case AddMoreSteps => entry.evaluation.completeness < 0.7
    case ImproveClarity => Contains(Lower(entry.userComments), "confusing")
    case AddMoreDetails => Contains(Lower(entry.userComments), "incomplete")
    case VerifySolution => Contains(Lower(entry.userComments), "wrong")
  }

  const AllSuggestions: set<Suggestion> := {
    ImproveAccuracy, AddMoreExplanations, VerifyMathematicalCorrectness, SimplifyExplanations,
    AddMoreSteps, ImproveClarity, AddMoreDetails, VerifySolution
  }

  /** Counts per improvement, in first-seen order (a dict's item order). */
  type Tally = seq<(string, nat)>

  function CountOf(counts: Tally, y: string): nat {
    if counts == [] then 0
    else if counts[0].0 == y then counts[0].1
    else CountOf(counts[1..], y)
  }

  predicate DistinctKeys(counts: Tally) {
    forall i, j :: 0 <= i < j < |counts| ==> counts[i].0 != counts[j].0
  }

  /** `counts[x] = counts.get(x, 0) + 1`. */
  function Bump(counts: Tally, x: string): (r: Tally)
    ensures |r| <= |counts| + 1
  {
    if counts == [] then [(x, 1)]
    else if counts[0].0 == x then [(x, counts[0].1 + 1)] + counts[1..]
    else [counts[0]] + Bump(counts[1..], x)
  }

  /** A key of a bumped tally is `x` or an old key. */
  lemma {:induction false} BumpKeyFrom(counts: Tally, x: string, j: nat)
    requires j < |Bump(counts, x)|
    ensures Bump(counts, x)[j].0 == x || exists i :: 0 <= i < |counts| && counts[i].0 == Bump(counts, x)[j].0
  {
    var r := Bump(counts, x);
    if counts != [] && j > 0 {
      if counts[0].0 == x {
        assert r[j] == counts[j];
      } else {
        assert r[j] == Bump(counts[1..], x)[j - 1];
        BumpKeyFrom(counts[1..], x, j - 1);
        if r[j].0 != x {
          var i :| 0 <= i < |counts[1..]| && counts[1..][i].0 == r[j].0;
          assert counts[i + 1] == counts[1..][i];
        }
      }
    }
  }

  /** Bumping adds one to the count of `x`, keeps every other count and keeps keys distinct. */
  lemma {:induction false} BumpFacts(counts: Tally, x: string)
    requires DistinctKeys(counts)
    ensures DistinctKeys(Bump(counts, x))
    ensures forall y :: CountOf(Bump(counts, x), y) == CountOf(counts, y) + (if x == y then 1 else 0)
  {
    if counts != [] {
      var r := Bump(counts, x);
      if counts[0].0 == x {
        forall i, j | 0 <= i < j < |r| ensures r[i].0 != r[j].0 {
          assert r[i].0 == counts[i].0 && r[j].0 == counts[j].0;
        }
        forall y ensures CountOf(r, y) == CountOf(counts, y) + (if x == y then 1 else 0) {
          assert r[1..] == counts[1..];
        }
      } else {
        var rest := Bump(counts[1..], x);
        BumpFacts(counts[1..], x);
        assert r == [counts[0]] + rest && r[1..] == rest;
        forall j | 0 <= j < |rest| ensures rest[j].0 != counts[0].0 {
          BumpKeyFrom(counts[1..], x, j);
          if rest[j].0 != x {
            var i :| 0 <= i < |counts[1..]| && counts[1..][i].0 == rest[j].0;
            assert counts[i + 1].0 == rest[j].0;
          }
        }
        forall i, j | 0 <= i < j < |r| ensures r[i].0 != r[j].0 {
          if i == 0 {
            assert r[j] == rest[j - 1];
          } else {
            assert r[i] == rest[i - 1] && r[j] == rest[j - 1];
          }
        }
      }
    }
  }

  /** The tally of a list of improvements: the dict left by the counting loop. */
  function TallyOf(s: seq<string>): Tally {
    if s == [] then [] else Bump(TallyOf(s[..|s| - 1]), s[|s| - 1])
  }

  lemma {:induction false} OccurrencesSnoc(s: seq<string>, x: string, y: string)
    ensures Occurrences(s + [x], y) == Occurrences(s, y) + (if x == y then 1 else 0)
  {
    if s != [] {
      assert (s + [x])[1..] == s[1..] + [x];
      OccurrencesSnoc(s[1..], x, y);
    }
  }

  /** The tally counts every improvement as often as it occurs, once per key. */
  lemma {:induction false} TallyFacts(s: seq<string>)
    ensures DistinctKeys(TallyOf(s))
    ensures forall y :: CountOf(TallyOf(s), y) == Occurrences(s, y)
  {
    if s != [] {
      var p := s[..|s| - 1];
      TallyFacts(p);
      BumpFacts(TallyOf(p), s[|s| - 1]);
      assert s == p + [s[|s| - 1]];
      forall y ensures CountOf(TallyOf(s), y) == Occurrences(s, y) {
        OccurrencesSnoc(p, s[|s| - 1], y);
      }
    }
  }

  /** The counting loop of `get_learning_insights`. */
  method CountImprovements(all: seq<string>) returns (counts: Tally)
    ensures counts == TallyOf(all)
    ensures DistinctKeys(counts)
    ensures forall y :: CountOf(counts, y) == Occurrences(all, y)
  {
    counts := [];
    var i := 0;
    while i < |all|
      invariant 0 <= i <= |all|
      invariant counts == TallyOf(all[..i])
    {
      assert all[..i + 1][..i] == all[..i];
      counts := Bump(counts, all[i]);
      i := i + 1;
    }
    assert all[..|all|] == all;
    TallyFacts(all);
  }

  function CountKey(p: (string, nat)): real {
    p.1 as real
  }

  /** The recent-versus-older comparison of ratings. */
  datatype Trend = InsufficientData
                 | Trend(improving: bool, recentAvgRating: real, previousAvgRating: real, change: real)

  /** `_analyze_recent_trends` on the ratings in log order. */
  function RecentTrend(ratings: seq<int>): (t: Trend)
    ensures t.InsufficientData? <==> |ratings| < 6
    ensures t.Trend? ==>
      && t.recentAvgRating == IntMean(ratings[|ratings| - 5..])
      && t.previousAvgRating == IntMean(ratings[..|ratings| - 5])
      && (t.improving <==> t.recentAvgRating > t.previousAvgRating)
      && (t.improving <==> t.change > 0.0)
      && t.change == t.recentAvgRating - t.previousAvgRating
  {
    if |ratings| < 5 then InsufficientData
    else
      var recent := ratings[|ratings| - 5..];
      var older := if |ratings| > 5 then ratings[..|ratings| - 5] else [];
      if older == [] then InsufficientData
      else
        var ra := IntMean(recent);
        var oa := IntMean(older);
        Trend(ra > oa, ra, oa, ra - oa)
  }

  /** `trend` as the source spells it. */
  function TrendLabel(t: Trend): string {
    if t.InsufficientData? then "insufficient_data" else if t.improving then "improving" else "declining"
  }

  lemma {:induction false} SumIntConstant(s: seq<int>, c: int)
    requires forall i :: 0 <= i < |s| ==> s[i] == c
    ensures SumInt(s) == c * |s|
  {
    if s != [] {
      SumIntConstant(s[1..], c);
    }
  }

  /** Equal averages are reported as declining: with steady ratings the trend is never improving. */
  lemma SteadyRatingsDecline(ratings: seq<int>, c: int)
    requires |ratings| >= 6
    requires forall i :: 0 <= i < |ratings| ==> ratings[i] == c
    ensures RecentTrend(ratings).Trend?
    ensures TrendLabel(RecentTrend(ratings)) == "declining" && RecentTrend(ratings).change == 0.0
  {
    var n := |ratings|;
    IntMeanConstant(ratings[n - 5..], c);
    IntMeanConstant(ratings[..n - 5], c);
  }

  /** The mean of a constant list is that constant. */
  lemma IntMeanConstant(s: seq<int>, c: int)
    requires s != []
    requires forall i :: 0 <= i < |s| ==> s[i] == c
    ensures IntMean(s) == c as real
  {
    SumIntConstant(s, c);
    var m, n := IntMean(s), |s| as real;
    assert m * n == c as real * n;
    assert (m - c as real) * n == 0.0;
  }

  datatype Insights = NoLearningData
                    | Insights(totalInteractions: nat, averageUserRating: real, averageAccuracy: real,
                               averageClarity: real, averageCompleteness: real,
                               commonImprovements: Tally, recentTrends: Trend)

  /** The `insights` text returned when nothing has been learnt yet. */
  const NoLearningDataMessage: string := "No learning data available"

  function EntryRatings(d: seq<LearningEntry>): (r: seq<int>)
    ensures |r| == |d| && forall i :: 0 <= i < |d| ==> r[i] == d[i].userRating
  {
    seq(|d|, i requires 0 <= i < |d| => d[i].userRating)
  }

  function Accuracies(d: seq<LearningEntry>): (r: seq<real>)
    ensures |r| == |d| && forall i :: 0 <= i < |d| ==> r[i] == d[i].evaluation.accuracy
  {
    seq(|d|, i requires 0 <= i < |d| => d[i].evaluation.accuracy)
  }

  function Clarities(d: seq<LearningEntry>): (r: seq<real>)
    ensures |r| == |d| && forall i :: 0 <= i < |d| ==> r[i] == d[i].evaluation.clarity
  {
    seq(|d|, i requires 0 <= i < |d| => d[i].evaluation.clarity)
  }

  function Completenesses(d: seq<LearningEntry>): (r: seq<real>)
    ensures |r| == |d| && forall i :: 0 <= i < |d| ==> r[i] == d[i].evaluation.completeness
  {
    seq(|d|, i requires 0 <= i < |d| => d[i].evaluation.completeness)
  }

  /** A sum of values in [0, 1] lies between 0 and the number of values. */
  lemma {:induction false} SumOfUnits(xs: seq<real>)
    requires forall i :: 0 <= i < |xs| ==> 0.0 <= xs[i] <= 1.0
    ensures 0.0 <= Sum(xs) <= |xs| as real
  {
    if xs != [] {
      SumOfUnits(xs[1..]);
    }
  }

  /** `sum(xs) / len(xs)` for a non-empty list. */
  function Mean(xs: seq<real>): (m: real)
    requires xs != []
    ensures m * (|xs| as real) == Sum(xs)
  {
    Sum(xs) / |xs| as real
  }

  /** The mean of values in [0, 1] lies in [0, 1]. */
  lemma MeanOfUnits(xs: seq<real>)
    requires xs != []
    requires forall i :: 0 <= i < |xs| ==> 0.0 <= xs[i] <= 1.0
    ensures 0.0 <= Mean(xs) <= 1.0
  {
    SumOfUnits(xs);
    RatioBound(Sum(xs), |xs| as real, Mean(xs));
  }

  lemma RatioBound(s: real, n: real, m: real)
    requires n > 0.0 && m * n == s && 0.0 <= s <= n
    ensures 0.0 <= m <= 1.0
  {
  }

  class LearningSystem {
    var collector: FeedbackCollector
    var learningData: seq<LearningEntry>

    /** Every logged evaluation came from `EvaluateResponse`, so its scores are in [0, 1]. */
    ghost predicate Valid()
      reads this
    {
      forall i :: 0 <= i < |learningData| ==> InUnit(learningData[i].evaluation)
    }

    constructor (loaded: seq<FeedbackData>)
      ensures Valid()
      ensures fresh(collector) && collector.history == loaded
      ensures learningData == []
    {
      collector := new FeedbackCollector(loaded);
      learningData := [];
    }

    /**
     * `process_feedback`: the rating goes into the history, the evaluated
     * interaction into the learning log (one entry each), and the improvement
     * tags of that entry are returned.
     */
    method ProcessFeedback(engine: Engine, evaluator: Evaluator, question: string, response: string,
                           rating: int, comments: string, sessionId: string,
                           feedbackTime: string, learningTime: string) returns (r: ProcessResult)
      requires Valid()
      modifies this, collector
      ensures Valid()
      ensures collector == old(collector)
      ensures collector.history == old(collector.history)
                                   + [FeedbackData(question, response, rating, comments, feedbackTime, sessionId)]
      ensures learningData == old(learningData)
        + [LearningEntry(question, response, rating, comments, EvaluateResponse(engine, evaluator), learningTime, sessionId)]
      ensures r == ProcessResult(Receipt(|collector.history|, "collected", rating, feedbackTime),
                                 EvaluateResponse(engine, evaluator),
                                 GenerateImprovements(learningData[|learningData| - 1]), true)
    {
      var receipt := collector.CollectFeedback(question, response, rating, comments, sessionId, feedbackTime);
      var evaluation := EvaluateResponse(engine, evaluator);
      var entry := LearningEntry(question, response, rating, comments, evaluation, learningTime, sessionId);
      learningData := learningData + [entry];
      r := ProcessResult(receipt, evaluation, GenerateImprovements(entry), true);
    }

    /** `_analyze_recent_trends` on the log. */
    function AnalyzeRecentTrends(): (t: Trend)
      reads this
      ensures t.InsufficientData? <==> |learningData| < 6
      ensures t == RecentTrend(EntryRatings(learningData))
    {
      RecentTrend(EntryRatings(learningData))
    }

    /**
     * `get_learning_insights`: the size of the log, the mean rating and
     * scores, the five most counted improvements and the trend.
     */
    method GetLearningInsights() returns (ins: Insights)
      ensures learningData == [] <==> ins.NoLearningData?
      ensures ins.Insights? ==>
        && ins.totalInteractions == |learningData|
        && ins.averageUserRating == IntMean(EntryRatings(learningData))
        && ins.averageAccuracy == Mean(Accuracies(learningData))
        && ins.averageClarity == Mean(Clarities(learningData))
        && ins.averageCompleteness == Mean(Completenesses(learningData))
        && ins.recentTrends == RecentTrend(EntryRatings(learningData))
        && |ins.commonImprovements| <= 5
        && SortedDesc(ins.commonImprovements, CountKey)
        && ins.commonImprovements == []
      ensures ins.Insights? && Valid() ==>
        && 0.0 <= ins.averageAccuracy <= 1.0
        && 0.0 <= ins.averageClarity <= 1.0
        && 0.0 <= ins.averageCompleteness <= 1.0
    {
      if learningData == [] {
        return NoLearningData;
      }
      var rating := IntMean(EntryRatings(learningData));
      // No entry stores improvements, so the flattened list is empty.
      var counts := CountImprovements([]);
      var common := Head(SortDesc(counts, CountKey), 5);
      ins := Insights(|learningData|, rating, Mean(Accuracies(learningData)), Mean(Clarities(learningData)),
                      Mean(Completenesses(learningData)), common, AnalyzeRecentTrends());
      if Valid() {
        MeanOfUnits(Accuracies(learningData));
        MeanOfUnits(Clarities(learningData));
        MeanOfUnits(Completenesses(learningData));
      }
    }
  }
}
