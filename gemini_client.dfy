/**
 * The text handling around the language-model client: the prompts it sends,
 * the shape of a generation result, and the parsers applied to the model's
 * replies (solution steps, evaluation scores, final answer). The model itself
 * is a parameter `generate` from prompt to reply, where a failure stands for
 * the exception the client library raises.
 */
module GeminiClient {
  import opened Text
  import opened Regex
  import opened Wrappers
  import WebSearch

  type Generate = string -> Result<string, string>

  const PromptHead: string :=
    "\nYou are an expert mathematics professor. Please solve the following mathematical question step by step.\n\nQuestion: "
  const PromptInstructions: string :=
    "\n\nInstructions:\n1. Provide a clear, step-by-step solution\n2. Explain each step in detail\n" +
    "3. Use proper mathematical notation\n4. Include the final answer clearly marked\n" +
    "5. If the problem involves multiple concepts, explain how they relate\n" +
    "6. Be educational and help the student understand the process\n\n"
  const PromptTail: string := "\n\nPlease provide your solution:\n"

  /** `_create_math_prompt`: the fixed template around the question and the (possibly empty) context. */
  function CreateMathPrompt(question: string, context: string): (r: string)
    ensures StartsWith(r, PromptHead + question + PromptInstructions)
    ensures Contains(r, question) && Contains(r, context)
    ensures context == "" ==> r == PromptHead + question + PromptInstructions + PromptTail
  {
    TemplateFacts(PromptHead, question, PromptInstructions, context, PromptTail);
    PromptHead + question + PromptInstructions + (if context != "" then context else "") + PromptTail
  }

  /** The shape of a template `h + q + i + c + t` with its two filled-in parts `q` and `c`. */
  lemma TemplateFacts(h: string, q: string, i: string, c: string, t: string)
    ensures StartsWith(h + q + i + c + t, h + q + i)
    ensures Contains(h + q + i + c + t, q) && Contains(h + q + i + c + t, c)
    ensures c == "" ==> h + q + i + c + t == h + q + i + t
  {
    var r := h + q + i + c + t;
    assert r[|h|..|h| + |q|] == q;
    assert SliceAt(r, q, |h|);
    assert r[|h + q + i|..|h + q + i| + |c|] == c;
    assert SliceAt(r, c, |h + q + i|);
    assert r[..|h + q + i|] == h + q + i;
  }

  /** Different questions give different prompts under the same context. */
  lemma PromptDeterminesQuestion(q1: string, q2: string, context: string)
    requires CreateMathPrompt(q1, context) == CreateMathPrompt(q2, context)
    ensures q1 == q2
  {
    TemplateUnique(PromptHead, q1, q2, PromptInstructions, context, PromptTail);
  }

  lemma TemplateUnique(h: string, q1: string, q2: string, i: string, c: string, t: string)
    requires h + q1 + i + c + t == h + q2 + i + c + t
    ensures q1 == q2
  {
    var m := i + c + t;
    assert h + q1 + i + c + t == h + q1 + m;
    assert h + q2 + i + c + t == h + q2 + m;
    assert |q1| == |q2|;
    assert q1 == (h + q1 + m)[|h|..|h| + |q1|];
    assert q2 == (h + q2 + m)[|h|..|h| + |q2|];
  }

  /** What `generate_math_response` returns. */
  datatype Generation = Generation(success: bool, response: Option<string>, error: Option<string>,
                                   model: string, confidence: Option<real>)

  /** `generate_math_response`: the reply to the prompt, with the fixed confidence 0.8, or the error. */
  function GenerateMathResponse(question: string, context: string, generate: Generate): (g: Generation)
    ensures g.model == "gemini-pro"
    ensures g.success <==> generate(CreateMathPrompt(question, context)).Success?
    ensures g.success ==> g.response == Some(generate(CreateMathPrompt(question, context)).value) &&
                          g.confidence == Some(0.8) && g.error.None?
    ensures !g.success ==> g.response.None? && g.confidence.None? &&
                           g.error == Some(generate(CreateMathPrompt(question, context)).error)
  {
    match generate(CreateMathPrompt(question, context))
    case Success(text) => Generation(true, Some(text), None, "gemini-pro", Some(0.8))
    case Failure(e) => Generation(false, None, Some(e), "gemini-pro", None)
  }

  // ---------------------------------------------------------------------
  // The step parser of `extract_solution_steps`.

  /** Every character is a decimal digit (vacuously so for the empty string). */
  predicate AllDigits(s: string) {
    forall i :: 0 <= i < |s| ==> IsDigit(s[i])
  }

  /**
   * Every character of `s[lo..hi]` is a decimal digit. Written recursively,
   * so that the solver unfolds it one character at a time.
   */
  predicate DigitsIn(s: string, lo: int, hi: int)
    decreases hi - lo
  {
    0 <= lo <= hi <= |s| && (lo < hi ==> IsDigit(s[lo]) && DigitsIn(s, lo + 1, hi))
  }

  /** Every character of `s[lo..hi]` is whitespace. */
  predicate SpacesIn(s: string, lo: int, hi: int)
    decreases hi - lo
  {
    0 <= lo <= hi <= |s| && (lo < hi ==> IsSpace(s[lo]) && SpacesIn(s, lo + 1, hi))
  }

  /** `DigitsIn` is the quantified statement. */
  lemma {:induction false} DigitsInAll(s: string, lo: int, hi: int)
    requires 0 <= lo <= hi <= |s|
    ensures DigitsIn(s, lo, hi) <==> forall k :: lo <= k < hi ==> IsDigit(s[k])
    decreases hi - lo
  {
    if lo < hi {
      DigitsInAll(s, lo + 1, hi);
    }
  }

  /** `SpacesIn` is the quantified statement. */
  lemma {:induction false} SpacesInAll(s: string, lo: int, hi: int)
    requires 0 <= lo <= hi <= |s|
    ensures SpacesIn(s, lo, hi) <==> forall k :: lo <= k < hi ==> IsSpace(s[k])
    decreases hi - lo
  {
    if lo < hi {
      SpacesInAll(s, lo + 1, hi);
    }
  }

  /** `s[lo..hi]` is at most one `sep` character followed by whitespace only. */
  predicate SepThenSpacesIn(s: string, lo: int, hi: int, sep: set<char>) {
    SpacesIn(s, lo, hi) || (0 <= lo < hi <= |s| && s[lo] in sep && SpacesIn(s, lo + 1, hi))
  }

  /**
   * `s[i..j]` is what `\d+[sep]?\s*` matches at `i`, with every quantifier
   * as greedy as Python's: the digits `s[i..e]`, then at most one `sep`, then
   * whitespace. So `s[e]` is no digit, `s[j..]` does not start with
   * whitespace, nor with `sep` when the match is the digits alone.
   */
  predicate NumberCut(s: string, i: int, e: int, j: int, sep: set<char>) {
    0 <= i < e <= j <= |s| && DigitsIn(s, i, e) &&
    SepThenSpacesIn(s, e, j, sep) &&
    (j == |s| || !IsSpace(s[j])) &&
    (e == j ==> j == |s| || (!IsDigit(s[j]) && s[j] !in sep))
  }

  /**
   * `s[i..j]` is what `\s+\d+[:\-]?\s*` matches at `i`: the whitespace
   * `s[i..k]`, then a number cut whose digits end at `e`.
   */
  predicate StepLabel(s: string, i: int, k: int, e: int, j: int) {
    i < k && SpacesIn(s, i, k) && NumberCut(s, k, e, j, {':', '-'})
  }

  /** Where the run of digits that starts at `i` ends. */
  function SkipDigits(s: string, i: int): (j: int)
    requires 0 <= i <= |s|
    ensures i <= j <= |s| && DigitsIn(s, i, j)
    ensures j == |s| || !IsDigit(s[j])
    decreases |s| - i
  {
    if i < |s| && IsDigit(s[i]) then SkipDigits(s, i + 1) else i
  }

  /** Where the run of whitespace that starts at `i` ends. */
  function SkipSpaces(s: string, i: int): (j: int)
    requires 0 <= i <= |s|
    ensures i <= j <= |s| && SpacesIn(s, i, j)
    ensures j == |s| || !IsSpace(s[j])
    decreases |s| - i
  {
    if i < |s| && IsSpace(s[i]) then SkipSpaces(s, i + 1) else i
  }

  /** Where the greedy `\d+[sep]?\s*` that starts at the digit `s[i]` ends. */
  function NumberEnd(s: string, i: int, sep: set<char>): (j: int)
    requires 0 <= i < |s| && IsDigit(s[i])
    ensures i < j <= |s|
  {
    var e := SkipDigits(s, i);
    SkipSpaces(s, if e < |s| && s[e] in sep then e + 1 else e)
  }

  /** `NumberEnd` ends the greedy match: a number cut from `i`. */
  lemma NumberEndCut(s: string, i: int, sep: set<char>)
    requires 0 <= i < |s| && IsDigit(s[i])
    ensures NumberCut(s, i, SkipDigits(s, i), NumberEnd(s, i, sep), sep)
  {
  }

  /**
   * Where a number cut starts and what `sep` is (no digit, no whitespace)
   * determine where it ends: `\d+[sep]?\s*` matches in one way only.
   */
  lemma NumberCutUnique(s: string, i: int, e: int, j: int, e': int, j': int, sep: set<char>)
    requires forall c :: c in sep ==> !IsDigit(c) && !IsSpace(c)
    requires NumberCut(s, i, e, j, sep) && NumberCut(s, i, e', j', sep)
    ensures e == e' && j == j'
  {
    DigitsInAll(s, i, e);
    DigitsInAll(s, i, e');
    if e < e' {
      NoDigitAfter(s, e, j, sep);
    } else if e' < e {
      NoDigitAfter(s, e', j', sep);
    }
    SepSpacesEnd(s, e, j, j', sep);
  }

  /** What follows the digits of a number cut is no digit. */
  lemma NoDigitAfter(s: string, e: int, j: int, sep: set<char>)
    requires forall c :: c in sep ==> !IsDigit(c) && !IsSpace(c)
    requires 0 <= e < |s| && SepThenSpacesIn(s, e, j, sep)
    requires e == j ==> j == |s| || (!IsDigit(s[j]) && s[j] !in sep)
    ensures !IsDigit(s[e])
  {
  }

  /** Two greedy `[sep]?\s*` runs from the same place end at the same place. */
  lemma SepSpacesEnd(s: string, e: int, j: int, j': int, sep: set<char>)
    requires forall c :: c in sep ==> !IsDigit(c) && !IsSpace(c)
    requires SepThenSpacesIn(s, e, j, sep) && (j == |s| || !IsSpace(s[j]))
    requires e == j ==> j == |s| || (!IsDigit(s[j]) && s[j] !in sep)
    requires SepThenSpacesIn(s, e, j', sep) && (j' == |s| || !IsSpace(s[j']))
    requires e == j' ==> j' == |s| || (!IsDigit(s[j']) && s[j'] !in sep)
    ensures j == j'
  {
    SpacesInAll(s, e, j);
    SpacesInAll(s, e, j');
    if e < j {
      SpacesInAll(s, e + 1, j);
    }
    if e < j' {
      SpacesInAll(s, e + 1, j');
    }
  }

  /** `re.sub(r'^\d+\.?\s*', '', s)`. */
  function DropNumber(s: string): (r: string)
    ensures |r| <= |s|
    ensures s == [] || !IsDigit(s[0]) ==> r == s
  {
    if s != [] && IsDigit(s[0]) then s[NumberEnd(s, 0, {'.'})..] else s
  }

  /** `DropNumber` cuts a prefix; from a line that starts with a digit, the greedy `\d+\.?\s*`. */
  lemma DropNumberCut(s: string)
    ensures DropNumber(s) == s[|s| - |DropNumber(s)|..]
    ensures s != [] && IsDigit(s[0]) ==> NumberCut(s, 0, SkipDigits(s, 0), |s| - |DropNumber(s)|, {'.'})
  {
    if s != [] && IsDigit(s[0]) {
      var j := NumberEnd(s, 0, {'.'});
      assert DropNumber(s) == s[j..];
      assert |s| - |DropNumber(s)| == j;
      NumberEndCut(s, 0, {'.'});
    }
  }

  /** `s` starts with the word `Step`, spelled out character by character. */
  predicate StepWord(s: string) {
    4 <= |s| && s[0] == 'S' && s[1] == 't' && s[2] == 'e' && s[3] == 'p'
  }

  /** `StepWord` is `s.startswith("Step")`. */
  lemma StepWordPrefix(s: string)
    ensures StepWord(s) <==> StartsWith(s, "Step")
  {
    if StartsWith(s, "Step") {
      assert s[..4][0] == 'S' && s[..4][1] == 't' && s[..4][2] == 'e' && s[..4][3] == 'p';
    }
  }

  /** `Step`, at least one blank, and a digit after the blanks: where `^Step\s+\d+` matches. */
  predicate StepMatch(s: string) {
    StepWord(s) && 4 < SkipSpaces(s, 4) < |s| && IsDigit(s[SkipSpaces(s, 4)])
  }

  /** `re.sub(r'^Step\s+\d+[:\-]?\s*', '', s)`. */
  function DropStepLabel(s: string): (r: string)
    ensures |r| <= |s|
    ensures !StepMatch(s) ==> r == s
  {
    if StepMatch(s) then s[NumberEnd(s, SkipSpaces(s, 4), {':', '-'})..] else s
  }

  /** `DropStepLabel` cuts a prefix; where `^Step\s+\d+` matches, `Step` and then a step label. */
  lemma DropStepLabelCut(s: string)
    ensures DropStepLabel(s) == s[|s| - |DropStepLabel(s)|..]
    ensures StepMatch(s) ==>
      var k := SkipSpaces(s, 4); StepLabel(s, 4, k, SkipDigits(s, k), |s| - |DropStepLabel(s)|)
  {
    if StepMatch(s) {
      var k := SkipSpaces(s, 4);
      var j := NumberEnd(s, k, {':', '-'});
      assert DropStepLabel(s) == s[j..];
      assert |s| - |DropStepLabel(s)| == j;
      NumberEndCut(s, k, {':', '-'});
    }
  }

  /** `re.sub(r'^-\s*', '', s)`. */
  function DropDash(s: string): (r: string)
    ensures |r| <= |s|
    ensures s == [] || s[0] != '-' ==> r == s
  {
    if s != [] && s[0] == '-' then s[SkipSpaces(s, 1)..] else s
  }

  /** `DropDash` cuts a prefix; after a dash, exactly the dash and the whitespace that follows it. */
  lemma DropDashCut(s: string)
    ensures DropDash(s) == s[|s| - |DropDash(s)|..]
    ensures s != [] && s[0] == '-' ==>
      SpacesIn(s, 1, |s| - |DropDash(s)|) && (DropDash(s) == [] || !IsSpace(DropDash(s)[0]))
  {
    if s != [] && s[0] == '-' {
      assert DropDash(s) == s[SkipSpaces(s, 1)..];
    }
  }

  /** The three clean-ups, in the order the parser applies them. */
  function CleanStep(line: string): (r: string)
    ensures |r| <= |line|
  {
    DropDash(DropStepLabel(DropNumber(line)))
  }

  /** A stripped line the parser looks at: it starts with a digit, with `Step` or with `-`. */
  predicate IsStepLine(l: string) {
    l != "" && (IsDigit(l[0]) || StartsWith(l, "Step") || StartsWith(l, "-"))
  }

  /** The step one line contributes, if any. */
  function StepOf(line: string): (r: Option<string>)
    ensures r.Some? <==> IsStepLine(Strip(line)) && CleanStep(Strip(line)) != ""
    ensures r.Some? ==> r.value == CleanStep(Strip(line))
  {
    var l := Strip(line);
    if IsStepLine(l) && CleanStep(l) != "" then Some(CleanStep(l)) else None
  }

  function OptionSeq(o: Option<string>): seq<string> {
    if o.Some? then [o.value] else []
  }

  /** What `f` yields for each line, in line order. */
  function Collect(lines: seq<string>, f: string -> Option<string>): seq<string> {
    if lines == [] then []
    else Collect(lines[..|lines| - 1], f) + OptionSeq(f(lines[|lines| - 1]))
  }

  /** The steps of a reply's lines. */
  function StepsOf(lines: seq<string>): seq<string> {
    Collect(lines, StepOf)
  }

  /** What two blocks of lines yield is what the first yields, then what the second yields. */
  lemma {:induction false} CollectAppend(a: seq<string>, b: seq<string>, f: string -> Option<string>)
    ensures Collect(a + b, f) == Collect(a, f) + Collect(b, f)
    decreases |b|
  {
    if b == [] {
      assert a + b == a;
    } else {
      CollectAppend(a, b[..|b| - 1], f);
      assert (a + b)[..|a + b| - 1] == a + b[..|b| - 1];
    }
  }

  /** At most one item per line; each item comes from a line, and every line's item is there. */
  lemma {:induction false} CollectFacts(lines: seq<string>, f: string -> Option<string>)
    ensures |Collect(lines, f)| <= |lines|
    ensures forall k :: 0 <= k < |Collect(lines, f)| ==>
      exists j :: 0 <= j < |lines| && f(lines[j]) == Some(Collect(lines, f)[k])
    ensures forall j :: 0 <= j < |lines| && f(lines[j]).Some? ==> f(lines[j]).value in Collect(lines, f)
  {
    if lines != [] {
      var init := lines[..|lines| - 1];
      CollectFacts(init, f);
      var r := Collect(lines, f);
      forall k | 0 <= k < |r|
        ensures exists j :: 0 <= j < |lines| && f(lines[j]) == Some(r[k])
      {
        if k < |Collect(init, f)| {
          var j :| 0 <= j < |init| && f(init[j]) == Some(Collect(init, f)[k]);
          assert lines[j] == init[j];
        } else {
          assert f(lines[|lines| - 1]) == Some(r[k]);
        }
      }
      forall j | 0 <= j < |lines| && f(lines[j]).Some?
        ensures f(lines[j]).value in r
      {
        if j < |init| {
          assert lines[j] == init[j];
        }
      }
    }
  }

  /** The steps of a reply: steps of earlier lines come first, in line order. */
  lemma StepsOfAppend(a: seq<string>, b: seq<string>)
    ensures StepsOf(a + b) == StepsOf(a) + StepsOf(b)
  {
    CollectAppend(a, b, StepOf);
  }

  /**
   * Each line gives at most one step, each step is what `StepOf` makes of
   * some line (so non-empty), and every line `StepOf` keeps contributes its
   * step.
   */
  lemma StepsOfFacts(a: seq<string>)
    ensures |StepsOf(a)| <= |a|
    ensures forall k :: 0 <= k < |StepsOf(a)| ==>
      StepsOf(a)[k] != "" && exists j :: 0 <= j < |a| && StepOf(a[j]) == Some(StepsOf(a)[k])
    ensures forall j :: 0 <= j < |a| && StepOf(a[j]).Some? ==> StepOf(a[j]).value in StepsOf(a)
  {
    var r := StepsOf(a);
    CollectFacts(a, StepOf);
    forall k | 0 <= k < |r| ensures r[k] != "" {
      var j :| 0 <= j < |a| && StepOf(a[j]) == Some(r[k]);
    }
  }

  const NoStepsFound: string := "Solution steps not clearly identified"

  /** What `extract_solution_steps` returns for a reply of the model. */
  function ExtractedSteps(reply: Result<string, string>): seq<string> {
    match reply
    case Failure(e) => ["Error extracting steps: " + e]
    case Success(text) =>
      var parsed := StepsOf(Split(Strip(text), '\n'));
      if parsed == [] then [NoStepsFound] else parsed
  }

  /** The line loop of `extract_solution_steps`: each stripped step line is cleaned and kept when non-empty. */
  method ParseStepLines(lines: seq<string>) returns (steps: seq<string>)
    ensures steps == StepsOf(lines)
  {
    steps := [];
    for i := 0 to |lines|
      invariant steps == Collect(lines[..i], StepOf)
    {
      assert lines[..i + 1][..i] == lines[..i];
      assert Collect(lines[..i + 1], StepOf) == steps + OptionSeq(StepOf(lines[i]));
      var line := Strip(lines[i]);
      if line != "" && (IsDigit(line[0]) || StartsWith(line, "Step") || StartsWith(line, "-")) {
        var step := CleanStep(line);
        if step != "" {
          steps := steps + [step];
        }
      }
    }
    assert lines[..|lines|] == lines;
  }

  /**
   * `extract_solution_steps` on the model's reply to the extraction prompt:
   * the reply is stripped, split into lines and parsed line by line; the
   * result is never empty.
   */
  method ExtractSolutionSteps(reply: Result<string, string>) returns (steps: seq<string>)
    ensures steps == ExtractedSteps(reply)
    ensures steps != []
  {
    if reply.Failure? {
      return ["Error extracting steps: " + reply.error];
    }
    steps := ParseStepLines(Split(Strip(reply.value), '\n'));
    if steps == [] {
      steps := [NoStepsFound];
    }
  }

  /** `extract_final_answer` on the model's reply: the stripped reply, or the fixed default when the model fails. */
  function ExtractFinalAnswer(reply: Result<string, string>): (r: string)
    ensures reply.Failure? ==> r == "Final answer not clearly identified"
    ensures reply.Success? ==> r == Strip(reply.value)
    ensures reply.Success? ==>
      (exists k :: SliceAt(reply.value, r, k)) && (r == [] || (!IsSpace(r[0]) && !IsSpace(r[|r| - 1])))
  {
    match reply
    case Success(text) => Strip(text)
    case Failure(_) => "Final answer not clearly identified"
  }

  /** `generate_web_search_query` on the model's reply: the stripped reply, or the fixed enhancement when the model fails. */
  function GenerateWebSearchQuery(question: string, reply: Result<string, string>): (r: string)
    ensures reply.Failure? ==> r == question + WebSearch.EnhanceSuffix
    ensures reply.Success? ==> r == Strip(reply.value)
    ensures reply.Success? ==> exists k :: SliceAt(reply.value, r, k)
  {
    match reply
    case Success(text) => Strip(text)
    case Failure(_) => question + " mathematics step by step solution"
  }

  /** When the model fails, the query is what the web client's own enhancement makes of it for a plain question. */
  lemma FallbackQueryIsEnhancement(question: string, reply: Result<string, string>)
    requires reply.Failure?
    requires !WebSearch.AnyIn(WebSearch.MathKeywords, Lower(question))
    ensures GenerateWebSearchQuery(question, reply) == WebSearch.EnhanceMathQuery(question)
    ensures WebSearch.EnhanceMathQuery(GenerateWebSearchQuery(question, reply)) == GenerateWebSearchQuery(question, reply)
  {
    WebSearch.EnhanceIdempotent(question);
  }

  // ---------------------------------------------------------------------
  // `_parse_evaluation`.

  const Metrics: seq<string> := ["accuracy", "clarity", "completeness", "educational_value", "overall"]

  /** `rf"{metric}:\s*([0-9.]+)"`, searched case-insensitively. */
  function MetricPattern(metric: string): Pattern {
    Pattern(metric + @":\s*([0-9.]+)", true)
  }

  /** `explanation:\s*(.+)`, searched case-insensitively and with `.` also matching newlines. */
  const ExplanationPattern: Pattern := Pattern(@"explanation:\s*(.+)", true, true)

  function Pow10(n: nat): (r: nat)
    ensures r >= 1
  {
    if n == 0 then 1 else 10 * Pow10(n - 1)
  }

  /**
   * Python's `float` on a run of digits and dots: a value when there is at most
   * one dot and at least one digit, otherwise the ValueError (`None`).
   */
  function ParseDecimal(s: string): (r: Option<real>)
    ensures r.Some? ==> r.value >= 0.0
    ensures AllDigits(s) && s != "" ==> r == Some(DigitsValue(s) as real)
    ensures CountChar(s, '.') > 1 ==> r.None?
  {
    var parts := Split(s, '.');
    if AllDigits(s) && s != "" then
      SplitWithout(s, '.');
      Some(DigitsValue(s) as real)
    else if |parts| == 2 && AllDigits(parts[0]) && AllDigits(parts[1]) && parts[0] + parts[1] != "" then
      Some(DigitsValue(parts[0]) as real + (DigitsValue(parts[1]) as real) / (Pow10(|parts[1]|) as real))
    else
      None
  }

  /** A string without the separator splits into itself. */
  lemma {:induction false} SplitWithout(s: string, c: char)
    requires forall i :: 0 <= i < |s| ==> s[i] != c
    ensures CountChar(s, c) == 0 && Split(s, c) == [s]
  {
    if s != [] {
      SplitWithout(s[1..], c);
    }
    JoinSplit(s, c);
  }

  /** Reading digits in two pieces: the first piece is shifted by the length of the second. */
  lemma {:induction false} DigitsValueAppend(a: string, b: string)
    ensures DigitsValue(a + b) == DigitsValue(a) * Pow10(|b|) + DigitsValue(b)
    decreases |b|
  {
    if b != [] {
      var b' := b[..|b| - 1];
      assert (a + b)[..|a + b| - 1] == a + b';
      assert (a + b)[|a + b| - 1] == b[|b| - 1];
      DigitsValueAppend(a, b');
      ShiftTen(DigitsValue(a), Pow10(|b'|), Pow10(|b|));
    } else {
      assert a + b == a;
    }
  }

  /** One more digit multiplies the shift by ten. */
  lemma ShiftTen(x: int, p: int, q: int)
    requires q == 10 * p
    ensures x * q == x * p * 10
  {
  }

  /**
   * The value `float` gives a decimal `p[0].p[1]`: the integer its digits spell
   * without the dot, over ten to the number of fractional digits.
   */
  lemma ParseDecimalValue(s: string)
    ensures var p := Split(s, '.');
      |p| == 2 && AllDigits(p[0]) && AllDigits(p[1]) && p[0] + p[1] != "" ==>
        ParseDecimal(s) == Some((DigitsValue(p[0] + p[1]) as real) / (Pow10(|p[1]|) as real))
  {
    var p := Split(s, '.');
    if |p| == 2 && AllDigits(p[0]) && AllDigits(p[1]) && p[0] + p[1] != "" {
      if AllDigits(s) && s != "" {
        SplitWithout(s, '.');
        assert false;
      }
      var a, b, m := DigitsValue(p[0]), DigitsValue(p[1]), Pow10(|p[1]|);
      assert ParseDecimal(s) == Some(a as real + (b as real) / (m as real));
      DigitsValueAppend(p[0], p[1]);
      DecimalQuotient(a, b, m, DigitsValue(p[0] + p[1]));
    }
  }

  /** A whole part plus a fraction over `m` is the combined numerator over `m`. */
  lemma DecimalQuotient(a: nat, b: nat, m: nat, v: nat)
    requires m > 0 && v == a * m + b
    ensures a as real + (b as real) / (m as real) == (v as real) / (m as real)
  {
    CastProduct(a, m);
  }

  /** Converting a product to a real is the product of the conversions. */
  lemma {:induction false} CastProduct(a: nat, m: nat)
    ensures (a * m) as real == (a as real) * (m as real)
  {
    if m > 0 {
      CastProduct(a, m - 1);
      assert a * m == a * (m - 1) + a;
    }
  }

  /** `float` needs at least one digit: "." and "" are errors. */
  lemma ParseDecimalNeedsDigit(s: string)
    ensures (forall i :: 0 <= i < |s| ==> !IsDigit(s[i])) ==> ParseDecimal(s).None?
  {
    var p := Split(s, '.');
    if (forall i :: 0 <= i < |s| ==> !IsDigit(s[i])) && !(AllDigits(s) && s != "") && |p| == 2 && AllDigits(p[0]) && AllDigits(p[1]) && p[0] + p[1] != "" {
      JoinSplit(s, '.');
      assert s == p[0] + ['.'] + p[1];
    }
  }

  /** What the search for one metric finds. */
  datatype Reading = Absent | Value(v: real) | Malformed(text: string)

  function ReadMetric(engine: Engine, text: string, metric: string): Reading {
    if !Search(engine, MetricPattern(metric), text) then Absent
    else
      var g := FirstGroup(engine, MetricPattern(metric), text);
      match ParseDecimal(g)
      case Some(v) => Value(v)
      case None => Malformed(g)
  }

  /** The index of the first metric whose text `float` rejects, or the number of metrics. */
  function FirstMalformed(engine: Engine, text: string, metrics: seq<string>): (f: nat)
    ensures f <= |metrics|
    ensures forall i :: 0 <= i < f ==> !ReadMetric(engine, text, metrics[i]).Malformed?
    ensures f < |metrics| ==> ReadMetric(engine, text, metrics[f]).Malformed?
  {
    if metrics == [] then 0
    else if ReadMetric(engine, text, metrics[0]).Malformed? then 0
    else 1 + FirstMalformed(engine, text, metrics[1..])
  }

  /** The message of the ValueError `float` raises. */
  function FloatError(s: string): string {
    "Error parsing evaluation: could not convert string to float: '" + s + "'"
  }

  /** The parsed evaluation; `scores[i]` is the value of `Metrics[i]`. */
  datatype Evaluation = Evaluation(scores: seq<real>, explanation: string)

  /** The value a metric ends with when the loop stops at metric `f`. */
  function MetricValue(engine: Engine, text: string, i: nat, f: nat): real
    requires i < |Metrics|
  {
    if i < f && ReadMetric(engine, text, Metrics[i]).Value? then ReadMetric(engine, text, Metrics[i]).v else 0.5
  }

  /**
   * `_parse_evaluation`: every metric starts at 0.5; each one the text gives
   * replaces it, unclamped, until a value `float` rejects; that rejection turns
   * the explanation into the error message and ends the parse.
   */
  method ParseEvaluation(engine: Engine, text: string) returns (e: Evaluation)
    ensures |e.scores| == |Metrics|
    ensures forall i :: 0 <= i < |Metrics| ==>
      e.scores[i] == MetricValue(engine, text, i, FirstMalformed(engine, text, Metrics))
    ensures FirstMalformed(engine, text, Metrics) < |Metrics| ==>
      e.explanation == FloatError(ReadMetric(engine, text, Metrics[FirstMalformed(engine, text, Metrics)]).text)
    ensures FirstMalformed(engine, text, Metrics) == |Metrics| ==>
      e.explanation == if Search(engine, ExplanationPattern, text)
                       then Strip(FirstGroup(engine, ExplanationPattern, text))
                       else "Evaluation parsing failed"
  {
    var scores := [0.5, 0.5, 0.5, 0.5, 0.5];
    ghost var f := FirstMalformed(engine, text, Metrics);
    for i := 0 to |Metrics|
      invariant i <= f
      invariant |scores| == |Metrics|
      invariant forall j :: 0 <= j < |Metrics| ==> scores[j] == MetricValue(engine, text, j, i)
    {
      var pattern := MetricPattern(Metrics[i]);
      if Search(engine, pattern, text) {
        var group := FirstGroup(engine, pattern, text);
        var value := ParseDecimal(group);
        if value.None? {
          assert f == i;
          return Evaluation(scores, FloatError(group));
        }
        scores := scores[i := value.value];
      }
    }
    var explanation := "Evaluation parsing failed";
    if Search(engine, ExplanationPattern, text) {
      explanation := Strip(FirstGroup(engine, ExplanationPattern, text));
    }
    return Evaluation(scores, explanation);
  }

  /**
   * A metric written as a whole number is read as that number, whatever its
   * size: nothing clamps it to [0, 1].
   */
  lemma WholeNumberRead(engine: Engine, text: string, metric: string, n: nat)
    requires Search(engine, MetricPattern(metric), text)
    requires FirstGroup(engine, MetricPattern(metric), text) == NatToString(n)
    ensures ReadMetric(engine, text, metric) == Value(n as real)
  {
    NatToStringRoundTrip(n);
  }
}
