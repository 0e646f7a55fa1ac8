/**
 * Output guardrails: the length limit and the inappropriate-content veto on a
 * response, then the sanitiser, two bounded quality scores, the check for the
 * three required elements and a light check of the mathematical content.
 */
module OutputGuardrails {
  import opened Text
  import opened Regex
  import opened Sanitizer
  import opened Collections

  /** `settings.max_output_length`. */
  const MaxOutputLength: nat := 2000

  const QualityIndicators: seq<Pattern> := [
    Pattern(@"\b(step \d+:|first|second|third|next|finally)\b", true),
    Pattern(@"\b(therefore|thus|hence|so|because|since)\b", true),
    Pattern(@"\b(we have|we get|we obtain|we find)\b", true),
    Pattern(@"[=+\-*/]", true),
    Pattern(@"\$\$.*?\$\$", true)
  ]

  const InappropriatePatterns: seq<Pattern> := [
    Pattern(@"\b(cheat|hack|illegal|harmful|dangerous)\b", true),
    Pattern(@"<script.*?>.*?</script>", true),
    Pattern(@"javascript:", true),
    Pattern(@"data:text/html", true)
  ]

  /** The operator, number and variable patterns of the confidence score (case-sensitive). */
  const ConfidenceMathPatterns: seq<Pattern> := [
    Pattern(@"[=+\-*/]", false),
    Pattern(@"\d+", false),
    Pattern(@"\b(x|y|z|a|b|c)\b", false)
  ]

  const StepPatterns: seq<Pattern> := [
    Pattern(@"step \d+", true),
    Pattern("first", true),
    Pattern("second", true),
    Pattern("third", true),
    Pattern("next", true),
    Pattern("finally", true)
  ]

  const ExplanationPatterns: seq<Pattern> := [
    Pattern(@"\b(because|since|therefore|thus|hence|so)\b", true),
    Pattern(@"\b(we have|we get|we obtain|we find|we can see)\b", true),
    Pattern(@"\b(let\'s|let us|first|second|third)\b", true)
  ]

  const NotationPatterns: seq<Pattern> := [
    Pattern(@"\$\$.*?\$\$", false),
    Pattern(@"[=+\-*/]", false),
    Pattern(@"\^", false),
    Pattern(@"_\w+", false)
  ]

  const StepNumber: Pattern := Pattern(@"step \d+", true)
  const ReasoningWord: Pattern := Pattern(@"\b(because|since|therefore|thus|hence)\b", true)
  const AnswerWord: Pattern := Pattern(@"\b(answer|result|solution|final)\b", true)
  const Operation: Pattern := Pattern(@"[=+\-*/]", false)
  const NumberOrVariable: Pattern := Pattern(@"\d+|\b(x|y|z|a|b|c)\b", false)

  /** `self.required_elements`, in order. */
  const RequiredElements: seq<string> :=
    ["step-by-step solution", "mathematical reasoning", "final answer"]

  const NoOperationWarning: string := "No mathematical operations found"
  const NoOperandWarning: string := "No mathematical variables or numbers found"
  const UnbalancedWarning: string := "Unbalanced parentheses in mathematical expressions"
  const InappropriateWarning: string := "Inappropriate content detected in response."

  function TooLongWarning(): string {
    "Response too long. Maximum " + NatToString(MaxOutputLength) + " characters allowed."
  }

  datatype OutputValidationResult = OutputValidationResult(
    isValid: bool,
    sanitizedOutput: string,
    confidenceScore: real,
    educationalValue: real,
    warnings: seq<string>)

  datatype MathValidation = MathValidation(isValid: bool, warnings: seq<string>)

  /** Some inappropriate pattern matches the raw response. */
  predicate Inappropriate(engine: Engine, response: string) {
    SearchAny(engine, InappropriatePatterns, response)
  }

  function MinReal(a: real, b: real): real {
    if a < b then a else b
  }

  /** A tenth per match, capped at 0.3: what each quality or explanation pattern adds. */
  function CappedShare(matches: nat): (r: real)
    ensures 0.0 <= r <= 0.3
  {
    MinReal(matches as real * 0.1, 0.3)
  }

  /** The capped shares of the patterns of `ps`, added up. */
  function CappedShareSum(engine: Engine, ps: seq<Pattern>, text: string): (r: real)
    ensures 0.0 <= r <= 0.3 * |ps| as real
  {
    if ps == [] then 0.0
    else CappedShareSum(engine, ps[..|ps| - 1], text) + CappedShare(Count(engine, ps[|ps| - 1], text))
  }

  /** The three parts of the confidence score, each under its own cap. */
  function QualityPart(engine: Engine, response: string): real {
    CappedShareSum(engine, QualityIndicators, response)
  }

  function OperandPart(engine: Engine, response: string): (r: real)
    ensures 0.0 <= r <= 0.4
  {
    MinReal(CountEach(engine, ConfidenceMathPatterns, response) as real * 0.05, 0.4)
  }

  function StepPart(engine: Engine, response: string): (r: real)
    ensures 0.0 <= r <= 0.3
  {
    MinReal(CountEach(engine, StepPatterns, response) as real * 0.1, 0.3)
  }

  /** `_calculate_confidence_score`: the three parts added up, capped at 1. */
  function ConfidenceScore(engine: Engine, response: string): (r: real)
    ensures 0.0 <= r <= 1.0
  {
    MinReal(QualityPart(engine, response) + OperandPart(engine, response) + StepPart(engine, response), 1.0)
  }

  /** The three parts of the educational value. */
  function ExplanationPart(engine: Engine, response: string): real {
    CappedShareSum(engine, ExplanationPatterns, response)
  }

  function NotationPart(engine: Engine, response: string): (r: real)
    ensures 0.0 <= r <= 0.4
  {
    MinReal(CountEach(engine, NotationPatterns, response) as real * 0.05, 0.4)
  }

  function StructurePart(engine: Engine, response: string): (r: real)
    ensures r == 0.0 || r == 0.3
  {
    if Search(engine, StepNumber, response) then 0.3 else 0.0
  }

  /** `_calculate_educational_value`: the three parts added up, capped at 1. */
  function EducationalValue(engine: Engine, response: string): (r: real)
    ensures 0.0 <= r <= 1.0
  {
    MinReal(ExplanationPart(engine, response) + NotationPart(engine, response) + StructurePart(engine, response), 1.0)
  }

  /** `_calculate_confidence_score`; the question is passed but not used by the source. */
  method CalculateConfidenceScore(engine: Engine, response: string, question: string) returns (score: real)
    ensures score == ConfidenceScore(engine, response)
    ensures 0.0 <= score <= 1.0
  {
    score := 0.0;
    for i := 0 to |QualityIndicators|
      invariant score == CappedShareSum(engine, QualityIndicators[..i], response)
    {
      var matches := Count(engine, QualityIndicators[i], response);
      score := score + MinReal(matches as real * 0.1, 0.3);
      assert QualityIndicators[..i + 1][..i] == QualityIndicators[..i];
    }
    assert QualityIndicators[..|QualityIndicators|] == QualityIndicators;
    var mathScore := CountEach(engine, ConfidenceMathPatterns, response);
    score := score + MinReal(mathScore as real * 0.05, 0.4);
    var stepScore := CountEach(engine, StepPatterns, response);
    score := score + MinReal(stepScore as real * 0.1, 0.3);
    score := MinReal(score, 1.0);
  }

  /** `_calculate_educational_value`. */
  method CalculateEducationalValue(engine: Engine, response: string) returns (value: real)
    ensures value == EducationalValue(engine, response)
    ensures 0.0 <= value <= 1.0
  {
    value := 0.0;
    for i := 0 to |ExplanationPatterns|
      invariant value == CappedShareSum(engine, ExplanationPatterns[..i], response)
    {
      var matches := Count(engine, ExplanationPatterns[i], response);
      value := value + MinReal(matches as real * 0.1, 0.3);
      assert ExplanationPatterns[..i + 1][..i] == ExplanationPatterns[..i];
    }
    assert ExplanationPatterns[..|ExplanationPatterns|] == ExplanationPatterns;
    var notationScore := CountEach(engine, NotationPatterns, response);
    value := value + MinReal(notationScore as real * 0.05, 0.4);
    if Search(engine, StepNumber, response) {
      value := value + 0.3;
    }
    value := MinReal(value, 1.0);
  }

  /**
   * The required elements a response lacks, in the order of the list: an
   * element is missing exactly when its pattern finds nothing.
   */
  function MissingElements(engine: Engine, response: string): (r: seq<string>)
    ensures RequiredElements[0] in r <==> !Search(engine, StepNumber, response)
    ensures RequiredElements[1] in r <==> !Search(engine, ReasoningWord, response)
    ensures RequiredElements[2] in r <==> !Search(engine, AnswerWord, response)
    ensures IsSubsequence(r, RequiredElements)
  {
    SubsequenceOfThree(!Search(engine, StepNumber, response), !Search(engine, ReasoningWord, response),
      !Search(engine, AnswerWord, response), "step-by-step solution", "mathematical reasoning", "final answer");
    (if !Search(engine, StepNumber, response) then ["step-by-step solution"] else [])
      + (if !Search(engine, ReasoningWord, response) then ["mathematical reasoning"] else [])
      + (if !Search(engine, AnswerWord, response) then ["final answer"] else [])
  }

  /**
   * The mathematical-content warnings of a response, in the source's order:
   * each is present exactly when its condition holds.
   */
  function MathWarnings(engine: Engine, response: string): (r: seq<string>)
    ensures NoOperationWarning in r <==> !Search(engine, Operation, response)
    ensures NoOperandWarning in r <==> !Search(engine, NumberOrVariable, response)
    ensures UnbalancedWarning in r <==> CountChar(response, '(') != CountChar(response, ')')
    ensures IsSubsequence(r, [NoOperationWarning, NoOperandWarning, UnbalancedWarning])
  {
    var unbalanced := CountChar(response, '(') != CountChar(response, ')');
    SubsequenceOfThree(!Search(engine, Operation, response), !Search(engine, NumberOrVariable, response),
      unbalanced, NoOperationWarning, NoOperandWarning, UnbalancedWarning);
    (if !Search(engine, Operation, response) then [NoOperationWarning] else [])
      + (if !Search(engine, NumberOrVariable, response) then [NoOperandWarning] else [])
      + (if unbalanced then [UnbalancedWarning] else [])
  }

  /** `_check_required_elements`. */
  method CheckRequiredElements(engine: Engine, response: string) returns (missing: seq<string>)
    ensures missing == MissingElements(engine, response)
    ensures RequiredElements[0] in missing <==> !Search(engine, StepNumber, response)
    ensures RequiredElements[1] in missing <==> !Search(engine, ReasoningWord, response)
    ensures RequiredElements[2] in missing <==> !Search(engine, AnswerWord, response)
    ensures IsSubsequence(missing, RequiredElements)
  {
    SubsequenceOfThree(!Search(engine, StepNumber, response), !Search(engine, ReasoningWord, response),
      !Search(engine, AnswerWord, response), "step-by-step solution", "mathematical reasoning", "final answer");
    missing := [];
    if !Search(engine, StepNumber, response) {
      missing := missing + ["step-by-step solution"];
    }
    if !Search(engine, ReasoningWord, response) {
      missing := missing + ["mathematical reasoning"];
    }
    if !Search(engine, AnswerWord, response) {
      missing := missing + ["final answer"];
    }
  }

  /** `_validate_mathematical_content`: parentheses are only counted, never matched up. */
  method ValidateMathematicalContent(engine: Engine, response: string) returns (v: MathValidation)
    ensures v.isValid <==> v.warnings == []
    ensures v.warnings == MathWarnings(engine, response)
    ensures NoOperationWarning in v.warnings <==> !Search(engine, Operation, response)
    ensures NoOperandWarning in v.warnings <==> !Search(engine, NumberOrVariable, response)
    ensures UnbalancedWarning in v.warnings <==> CountChar(response, '(') != CountChar(response, ')')
    ensures IsSubsequence(v.warnings, [NoOperationWarning, NoOperandWarning, UnbalancedWarning])
  {
    var warnings: seq<string> := [];
    if !Search(engine, Operation, response) {
      warnings := warnings + [NoOperationWarning];
    }
    if !Search(engine, NumberOrVariable, response) {
      warnings := warnings + [NoOperandWarning];
    }
    var openParens := CountChar(response, '(');
    var closeParens := CountChar(response, ')');
    if openParens != closeParens {
      warnings := warnings + [UnbalancedWarning];
    }
    SubsequenceOfThree(!Search(engine, Operation, response), !Search(engine, NumberOrVariable, response),
      openParens != closeParens, NoOperationWarning, NoOperandWarning, UnbalancedWarning);
    v := MathValidation(|warnings| == 0, warnings);
  }

  /** `[f"Missing: {element}" for element in missing]`. */
  function MissingWarnings(missing: seq<string>): (r: seq<string>)
    ensures |r| == |missing|
    ensures forall i :: 0 <= i < |r| ==> r[i] == "Missing: " + missing[i]
  {
    seq(|missing|, i requires 0 <= i < |missing| => "Missing: " + missing[i])
  }

  /** `validate_output`. */
  method ValidateOutput(engine: Engine, response: string, question: string) returns (r: OutputValidationResult)
    ensures |response| > MaxOutputLength ==>
      r == OutputValidationResult(false, "", 0.0, 0.0, [TooLongWarning()])
    ensures |response| <= MaxOutputLength && Inappropriate(engine, response) ==>
      r == OutputValidationResult(false, "", 0.0, 0.0, [InappropriateWarning])
    ensures |response| <= MaxOutputLength && !Inappropriate(engine, response) ==>
      r.sanitizedOutput == Sanitize(response) &&
      r.confidenceScore == ConfidenceScore(engine, r.sanitizedOutput) &&
      r.educationalValue == EducationalValue(engine, r.sanitizedOutput) &&
      (r.isValid <==> r.confidenceScore > 0.1 && r.educationalValue > 0.1) &&
      r.warnings == MissingWarnings(MissingElements(engine, r.sanitizedOutput)) + MathWarnings(engine, r.sanitizedOutput)
    ensures 0.0 <= r.confidenceScore <= 1.0 && 0.0 <= r.educationalValue <= 1.0
  {
    if |response| > MaxOutputLength {
      return OutputValidationResult(false, "", 0.0, 0.0, [TooLongWarning()]);
    }
    for i := 0 to |InappropriatePatterns|
      invariant forall j :: 0 <= j < i ==> !Search(engine, InappropriatePatterns[j], response)
    {
      if Search(engine, InappropriatePatterns[i], response) {
        return OutputValidationResult(false, "", 0.0, 0.0, [InappropriateWarning]);
      }
    }
    assert !Inappropriate(engine, response);
    var sanitized := Sanitize(response);
    var confidence := CalculateConfidenceScore(engine, sanitized, question);
    var educational := CalculateEducationalValue(engine, sanitized);
    var warnings := CollectWarnings(engine, sanitized);
    r := OutputValidationResult(confidence > 0.1 && educational > 0.1, sanitized, confidence, educational, warnings);
  }

  /**
   * The warnings `validate_output` collects for an accepted response: the
   * missing elements first, then the mathematical-content warnings.
   */
  method CollectWarnings(engine: Engine, sanitized: string) returns (warnings: seq<string>)
    ensures warnings == MissingWarnings(MissingElements(engine, sanitized)) + MathWarnings(engine, sanitized)
  {
    warnings := [];
    var missing := CheckRequiredElements(engine, sanitized);
    var missingWarnings := MissingWarnings(missing);
    if missing != [] {
      warnings := warnings + missingWarnings;
    }
    assert warnings == missingWarnings;
    var mathValidation := ValidateMathematicalContent(engine, sanitized);
    if !mathValidation.isValid {
      warnings := warnings + mathValidation.warnings;
    }
  }
}
