/**
 * Input guardrails: the length limit, the harmful-content veto, the
 * sanitiser, the mathematical-content score and the topic guess that
 * `validate_input` combines, in that order.
 */
module InputGuardrails {
  import opened Text
  import opened Regex
  import opened Sanitizer

  /** `settings.max_input_length`. */
  const MaxInputLength: nat := 1000

  /** `settings.allowed_topics`. */
  const AllowedTopics: seq<string> :=
    ["mathematics", "algebra", "calculus", "geometry", "statistics", "trigonometry"]

  const MathPatterns: seq<Pattern> := [
    Pattern(@"\b(solve|calculate|find|compute|evaluate|integrate|differentiate|derive)\b", true),
    Pattern(@"\b(equation|formula|function|matrix|vector|limit|derivative|integral)\b", true),
    Pattern(@"\b(algebra|calculus|geometry|trigonometry|statistics|probability)\b", true),
    Pattern(@"[+\-*/=<>(){}[\]^]", true),
    Pattern(@"\d+", true),
    Pattern(@"\b(x|y|z|a|b|c|d|e|f|g|h|i|j|k|l|m|n|o|p|q|r|s|t|u|v|w)\b", true)
  ]

  const HarmfulPatterns: seq<Pattern> := [
    Pattern(@"\b(hack|exploit|bypass|cheat|illegal|harmful|dangerous)\b", true),
    Pattern(@"<script.*?>.*?</script>", true),
    Pattern(@"javascript:", true),
    Pattern(@"data:text/html", true)
  ]

  /** The keyword table of `_detect_math_topic`, in its order. */
  const TopicKeywords: seq<(string, seq<string>)> := [
    ("algebra", ["equation", "variable", "solve", "factor", "polynomial"]),
    ("calculus", ["derivative", "integral", "limit", "differentiate", "integrate"]),
    ("geometry", ["triangle", "circle", "angle", "area", "perimeter", "volume"]),
    ("trigonometry", ["sin", "cos", "tan", "angle", "trigonometric"]),
    ("statistics", ["mean", "median", "mode", "probability", "distribution"]),
    ("linear_algebra", ["matrix", "vector", "determinant", "eigenvalue"])
  ]

  const NotMathWarning: string := "Input may not be mathematical in nature."
  const HarmfulWarning: string := "Potentially harmful content detected."

  function TooLongWarning(): string {
    "Input too long. Maximum " + NatToString(MaxInputLength) + " characters allowed."
  }

  function UnsupportedTopicWarning(topic: string): string {
    "Topic '" + topic + "' may not be supported."
  }

  predicate Supported(topic: string) {
    topic in AllowedTopics
  }

  /** The warning a detected topic outside the allowed list adds. */
  function TopicWarnings(topic: string): seq<string> {
    if Supported(topic) then [] else [UnsupportedTopicWarning(topic)]
  }

  datatype InputValidationResult = InputValidationResult(
    isValid: bool,
    sanitizedInput: string,
    confidenceScore: real,
    detectedTopic: string,
    warnings: seq<string>)

  /** Some harmful pattern matches the raw input. */
  predicate Harmful(engine: Engine, input: string) {
    SearchAny(engine, HarmfulPatterns, input)
  }

  /** The input gets past both vetoes. */
  predicate Accepted(engine: Engine, input: string) {
    |input| <= MaxInputLength && !Harmful(engine, input)
  }

  /** What one pattern adds to the math score: a tenth per match, at most 1. */
  function PatternShare(matches: nat): (r: real)
    ensures 0.0 <= r <= 1.0
    ensures matches >= 10 ==> r == 1.0
    ensures matches < 10 ==> r == matches as real / 10.0
  {
    if matches as real / 10.0 < 1.0 then matches as real / 10.0 else 1.0
  }

  /** The shares of the patterns of `ps`, added up. */
  function ShareSum(engine: Engine, ps: seq<Pattern>, text: string): (r: real)
    ensures 0.0 <= r <= |ps| as real
  {
    if ps == [] then 0.0
    else ShareSum(engine, ps[..|ps| - 1], text) + PatternShare(Count(engine, ps[|ps| - 1], text))
  }

  /** The math score: the mean share over the six patterns, capped at 1. */
  function MathScore(engine: Engine, text: string): (r: real)
    ensures 0.0 <= r <= 1.0
  {
    var mean := ShareSum(engine, MathPatterns, text) / |MathPatterns| as real;
    if mean < 1.0 then mean else 1.0
  }

  /** `_calculate_math_score`. */
  method CalculateMathScore(engine: Engine, text: string) returns (score: real)
    ensures score == MathScore(engine, text)
    ensures 0.0 <= score <= 1.0
  {
    var sum := 0.0;
    for i := 0 to |MathPatterns|
      invariant sum == ShareSum(engine, MathPatterns[..i], text)
    {
      var matches := Count(engine, MathPatterns[i], text);
      if matches > 0 {
        sum := sum + PatternShare(matches);
      }
      assert MathPatterns[..i + 1][..i] == MathPatterns[..i];
    }
    assert MathPatterns[..|MathPatterns|] == MathPatterns;
    var mean := sum / |MathPatterns| as real;
    score := if mean < 1.0 then mean else 1.0;
  }

  /** How many keywords of the list occur in the (lower-cased) text. */
  function KeywordScore(keywords: seq<string>, textLower: string): (n: nat)
    ensures n <= |keywords|
  {
    if keywords == [] then 0
    else KeywordScore(keywords[..|keywords| - 1], textLower) +
         (if Contains(textLower, keywords[|keywords| - 1]) then 1 else 0)
  }

  /** The score of each topic of the table, in table order. */
  function TopicScores(text: string): (r: seq<nat>)
    ensures |r| == |TopicKeywords|
  {
    seq(|TopicKeywords|, i requires 0 <= i < |TopicKeywords| => KeywordScore(TopicKeywords[i].1, Lower(text)))
  }

  /** The first index holding the largest value (Python's `max` with a key). */
  function FirstArgMax(s: seq<nat>): (k: nat)
    requires |s| > 0
    ensures k < |s|
    ensures forall j :: 0 <= j < |s| ==> s[j] <= s[k]
    ensures forall j :: 0 <= j < k ==> s[j] < s[k]
  {
    if |s| == 1 then 0
    else
      var k := FirstArgMax(s[..|s| - 1]);
      if s[|s| - 1] > s[k] then |s| - 1 else k
  }

  /** The topic `_detect_math_topic` picks. */
  function DetectedTopic(text: string): (topic: string)
    ensures topic != "general"
  {
    TopicKeywords[FirstArgMax(TopicScores(text))].0
  }

  /** `_detect_math_topic`. */
  method DetectMathTopic(text: string) returns (topic: string)
    ensures topic == DetectedTopic(text)
  {
    var textLower := Lower(text);
    var scores: seq<nat> := [];
    for i := 0 to |TopicKeywords|
      invariant scores == TopicScores(text)[..i]
    {
      scores := scores + [KeywordScore(TopicKeywords[i].1, textLower)];
    }
    assert scores == TopicScores(text);
    topic := TopicKeywords[FirstArgMax(scores)].0;
  }

  /**
   * The topic is one of the table with the most keyword hits, the earliest
   * such in table order; it is never "general", and a text with no keyword at
   * all is classed as algebra.
   */
  lemma DetectedTopicIsFirstBest(text: string)
    ensures exists k :: (0 <= k < |TopicKeywords| && DetectedTopic(text) == TopicKeywords[k].0 &&
      (forall j :: 0 <= j < |TopicKeywords| ==> TopicScores(text)[j] <= TopicScores(text)[k]) &&
      (forall j :: 0 <= j < k ==> TopicScores(text)[j] < TopicScores(text)[k]))
    ensures (forall j :: 0 <= j < |TopicKeywords| ==> TopicScores(text)[j] == 0) ==>
      DetectedTopic(text) == "algebra"
  {
    var k := FirstArgMax(TopicScores(text));
    assert DetectedTopic(text) == TopicKeywords[k].0;
    var sc := TopicScores(text);
    if k > 0 {
      assert sc[0] < sc[k];
    }
  }

  /** Of the topics the table can produce, only linear_algebra is outside the allowed list. */
  lemma UnsupportedTopic(text: string)
    ensures DetectedTopic(text) !in AllowedTopics <==> DetectedTopic(text) == "linear_algebra"
  {
    var k := FirstArgMax(TopicScores(text));
    assert DetectedTopic(text) == TopicKeywords[k].0;
  }

  /**
   * The part of `validate_input` that follows sanitising: score the text,
   * guess its topic when the score clears 0.3, and collect the warnings.
   */
  method AssessMathContent(engine: Engine, sanitized: string)
    returns (confidence: real, topic: string, warnings: seq<string>)
    ensures MathScore(engine, sanitized) > 0.3 ==>
      confidence == MathScore(engine, sanitized) &&
      topic == DetectedTopic(sanitized) &&
      warnings == TopicWarnings(topic)
    ensures MathScore(engine, sanitized) <= 0.3 ==>
      confidence == 0.1 && topic == "general" && warnings == [NotMathWarning]
  {
    warnings := [];
    topic := "general";
    var mathScore := CalculateMathScore(engine, sanitized);
    if mathScore > 0.3 {
      confidence := mathScore;
      topic := DetectMathTopic(sanitized);
    } else {
      warnings := warnings + [NotMathWarning];
      confidence := 0.1;
    }
    if !Supported(topic) && topic != "general" {
      warnings := warnings + [UnsupportedTopicWarning(topic)];
    }
  }

  /** `validate_input`. */
  method ValidateInput(engine: Engine, input: string) returns (r: InputValidationResult)
    ensures |input| > MaxInputLength ==>
      r == InputValidationResult(false, "", 0.0, "", [TooLongWarning()])
    ensures |input| <= MaxInputLength && Harmful(engine, input) ==>
      r == InputValidationResult(false, "", 0.0, "", [HarmfulWarning])
    ensures r.isValid <==> Accepted(engine, input)
    ensures r.isValid ==> r.sanitizedInput == Sanitize(input)
    ensures r.isValid && MathScore(engine, Sanitize(input)) > 0.3 ==>
      r.confidenceScore == MathScore(engine, Sanitize(input)) &&
      r.detectedTopic == DetectedTopic(Sanitize(input)) &&
      r.warnings == TopicWarnings(r.detectedTopic)
    ensures r.isValid && MathScore(engine, Sanitize(input)) <= 0.3 ==>
      r.confidenceScore == 0.1 && r.detectedTopic == "general" && r.warnings == [NotMathWarning]
  {
    if |input| > MaxInputLength {
      return InputValidationResult(false, "", 0.0, "", [TooLongWarning()]);
    }
    for i := 0 to |HarmfulPatterns|
      invariant forall j :: 0 <= j < i ==> !Search(engine, HarmfulPatterns[j], input)
    {
      if Search(engine, HarmfulPatterns[i], input) {
        return InputValidationResult(false, "", 0.0, "", [HarmfulWarning]);
      }
    }
    assert !Harmful(engine, input);
    var sanitized := Sanitize(input);
    var confidence, topic, warnings := AssessMathContent(engine, sanitized);
    r := InputValidationResult(true, sanitized, confidence, topic, warnings);
  }
}
