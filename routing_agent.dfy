/**
 * The routing agent: it validates a question, routes it to the knowledge base
 * or to web search with fixed thresholds, builds the response from the chosen
 * source and passes the answer through the output guardrails.
 *
 * What the agent obtains from outside (knowledge-base hits, web results, the
 * model's replies, the clock) is an input. The thresholds are literals: no
 * feedback reaches them, so routing depends on the question and the hits only.
 */
module RoutingAgent {
  import opened Wrappers
  import opened Text
  import opened Regex
  import opened Collections
  import opened MathDataset
  import VectorStore
  import WebSearch
  import GeminiClient
  import InputGuardrails
  import OutputGuardrails
  import Sanitizer

  datatype RouteDecision = KnowledgeBaseRoute | WebSearchRoute | RejectRoute

  /** The enum's value, as reported in `routing_info`. */
  function DecisionValue(d: RouteDecision): string {
    match d
    case KnowledgeBaseRoute => "knowledge_base"
    case WebSearchRoute => "web_search"
    case RejectRoute => "reject"
  }

  datatype RoutingResult = RoutingResult(decision: RouteDecision, confidence: real, reasoning: string,
                                         source: string, data: Option<seq<VectorStore.SearchHit>>)

  datatype MathResponse = MathResponse(question: string, answer: string, solutionSteps: seq<string>,
                                       explanation: string, source: string, confidence: real,
                                       sessionId: string, timestamp: string)

  function RealMin(a: real, b: real): real { if a < b then a else b }

  // ---------------------------------------------------------------------------
  // Question complexity

  const ComplexityIndicators: seq<Pattern> := [
    Pattern(@"\b(prove|derive|show that|demonstrate)\b", true),
    Pattern(@"\b(integral|derivative|limit|series|convergence)\b", true),
    Pattern(@"\b(matrix|vector|eigenvalue|determinant)\b", true),
    Pattern(@"\b(probability|distribution|hypothesis|statistical)\b", true),
    Pattern(@"\b(optimization|constraint|lagrange|calculus of variations)\b", true),
    Pattern(@"\b(complex|imaginary|real analysis|topology)\b", true)
  ]

  const ConceptPattern: Pattern := Pattern(@"\b(equation|function|formula|theorem|lemma)\b", true)

  /** How many patterns of the table match somewhere in `t`. */
  function Hits(engine: Engine, ps: seq<Pattern>, t: string): (n: nat)
    ensures n <= |ps|
  {
    if ps == [] then 0
    else Hits(engine, ps[..|ps| - 1], t) + (if Search(engine, ps[|ps| - 1], t) then 1 else 0)
  }

  /**
   * The complexity of a question: 0.2 for each indicator that matches, plus a
   * tenth per concept word up to 0.3, capped at 1.
   */
  function Complexity(engine: Engine, question: string): (r: real)
    ensures 0.0 <= r <= 1.0
  {
    var concepts := RealMin(Count(engine, ConceptPattern, question) as real * 0.1, 0.3);
    RealMin(0.2 * Hits(engine, ComplexityIndicators, question) as real + concepts, 1.0)
  }

  /** `_assess_question_complexity`. */
  method AssessQuestionComplexity(engine: Engine, question: string) returns (score: real)
    ensures score == Complexity(engine, question)
    ensures 0.0 <= score <= 1.0
  {
    score := 0.0;
    for i := 0 to |ComplexityIndicators|
      invariant score == 0.2 * Hits(engine, ComplexityIndicators[..i], question) as real
    {
      assert ComplexityIndicators[..i + 1][..i] == ComplexityIndicators[..i];
      if Search(engine, ComplexityIndicators[i], question) {
        score := score + 0.2;
      }
    }
    assert ComplexityIndicators[..|ComplexityIndicators|] == ComplexityIndicators;
    var concepts := Count(engine, ConceptPattern, question);
    score := score + RealMin(concepts as real * 0.1, 0.3);
    score := RealMin(score, 1.0);
  }

  /** More matching indicators never give fewer hits. */
  lemma {:induction false} HitsMonotone(e1: Engine, t1: string, e2: Engine, t2: string, ps: seq<Pattern>)
    requires forall i :: 0 <= i < |ps| ==> Search(e1, ps[i], t1) ==> Search(e2, ps[i], t2)
    ensures Hits(e1, ps, t1) <= Hits(e2, ps, t2)
  {
    if ps != [] {
      HitsMonotone(e1, t1, e2, t2, ps[..|ps| - 1]);
    }
  }

  /**
   * Complexity never decreases when every indicator that matched still
   * matches and the concept count does not drop.
   */
  lemma ComplexityMonotone(e1: Engine, q1: string, e2: Engine, q2: string)
    requires forall i :: 0 <= i < |ComplexityIndicators| ==>
               Search(e1, ComplexityIndicators[i], q1) ==> Search(e2, ComplexityIndicators[i], q2)
    requires Count(e1, ConceptPattern, q1) <= Count(e2, ConceptPattern, q2)
    ensures Complexity(e1, q1) <= Complexity(e2, q2)
  {
    HitsMonotone(e1, q1, e2, q2, ComplexityIndicators);
  }

  /** Three matching indicators already reach the 0.6 that sends a question to web search. */
  lemma ThreeIndicatorsAreComplex(engine: Engine, question: string)
    requires Hits(engine, ComplexityIndicators, question) >= 3
    ensures Complexity(engine, question) >= 0.6
  {
  }

  // ---------------------------------------------------------------------------
  // Routing

  const HighMatchReason: string := "High confidence match found in knowledge base"
  const ModerateMatchReason: string := "Moderate match in knowledge base for simple question"
  const WebSearchReason: string := "Question requires web search for comprehensive answer"

  /** The question goes to the knowledge base: a strong top hit, or a fair one for a simple question. */
  predicate UsesKnowledgeBase(engine: Engine, question: string, kbResults: seq<VectorStore.SearchHit>) {
    kbResults != [] &&
    (kbResults[0].score > 0.8 || (kbResults[0].score > 0.5 && Complexity(engine, question) < 0.6))
  }

  /** The decision `_make_routing_decision` takes on the hits of the knowledge-base search. */
  function RouteFor(engine: Engine, question: string, kbResults: seq<VectorStore.SearchHit>): (r: RoutingResult)
    ensures r.decision != RejectRoute
    ensures r.decision == KnowledgeBaseRoute <==> UsesKnowledgeBase(engine, question, kbResults)
    ensures r.decision == KnowledgeBaseRoute ==> kbResults != [] && r.data == Some(kbResults)
  {
    if kbResults != [] && kbResults[0].score > 0.8 then
      RoutingResult(KnowledgeBaseRoute, kbResults[0].score, HighMatchReason, "knowledge_base", Some(kbResults))
    else if kbResults != [] && kbResults[0].score > 0.5 && Complexity(engine, question) < 0.6 then
      RoutingResult(KnowledgeBaseRoute, kbResults[0].score, ModerateMatchReason, "knowledge_base", Some(kbResults))
    else
      RoutingResult(WebSearchRoute, 0.7, WebSearchReason, "web_search", None)
  }

  /** `_make_routing_decision` on the hits of the knowledge-base search. */
  method MakeRoutingDecision(engine: Engine, question: string, kbResults: seq<VectorStore.SearchHit>)
    returns (r: RoutingResult)
    ensures r == RouteFor(engine, question, kbResults)
    ensures r.decision != RejectRoute
    ensures r.decision == KnowledgeBaseRoute <==> UsesKnowledgeBase(engine, question, kbResults)
    ensures kbResults != [] && kbResults[0].score > 0.8 ==>
      r == RoutingResult(KnowledgeBaseRoute, kbResults[0].score, HighMatchReason, "knowledge_base", Some(kbResults))
    ensures kbResults != [] && 0.5 < kbResults[0].score <= 0.8 && Complexity(engine, question) < 0.6 ==>
      r == RoutingResult(KnowledgeBaseRoute, kbResults[0].score, ModerateMatchReason, "knowledge_base", Some(kbResults))
    ensures !UsesKnowledgeBase(engine, question, kbResults) ==>
      r == RoutingResult(WebSearchRoute, 0.7, WebSearchReason, "web_search", None)
    ensures r.decision == KnowledgeBaseRoute ==> r.confidence > 0.5 && r.data == Some(kbResults)
  {
    if kbResults != [] && kbResults[0].score > 0.8 {
      return RoutingResult(KnowledgeBaseRoute, kbResults[0].score, HighMatchReason, "knowledge_base", Some(kbResults));
    }
    if kbResults != [] && kbResults[0].score > 0.5 {
      var complexity := AssessQuestionComplexity(engine, question);
      if complexity < 0.6 {
        return RoutingResult(KnowledgeBaseRoute, kbResults[0].score, ModerateMatchReason, "knowledge_base", Some(kbResults));
      }
    }
    r := RoutingResult(WebSearchRoute, 0.7, WebSearchReason, "web_search", None);
  }

  /**
   * The agent searches the knowledge base with threshold 0.7, so every hit
   * clears 0.5: a question with hits goes to web search only when its top hit
   * is at most 0.8 and the question is complex.
   */
  lemma ThresholdedHitsRoute(engine: Engine, question: string, kbResults: seq<VectorStore.SearchHit>)
    requires kbResults != []
    requires forall i :: 0 <= i < |kbResults| ==> kbResults[i].score >= 0.7
    ensures !UsesKnowledgeBase(engine, question, kbResults) <==>
              kbResults[0].score <= 0.8 && Complexity(engine, question) >= 0.6
  {
  }

  // ---------------------------------------------------------------------------
  // Knowledge-base responses

  /** `doc.get(key, "")` for a text field. */
  function TextField(doc: Doc, key: string): string {
    if key in doc && doc[key].Str? then doc[key].s else ""
  }

  /** The steps of a stored document: the list as stored, a text split at newlines, or none. */
  function KbSteps(doc: Doc): (r: seq<string>)
    ensures "solution_steps" !in doc ==> r == []
    ensures "solution_steps" in doc && doc["solution_steps"].List? ==> r == doc["solution_steps"].items
    ensures "solution_steps" in doc && doc["solution_steps"].Str? ==>
              Join("\n", r) == doc["solution_steps"].s && |r| == CountChar(doc["solution_steps"].s, '\n') + 1
  {
    if "solution_steps" !in doc then []
    else match doc["solution_steps"]
      case List(items) => items
      case Str(s) =>
        JoinSplit(s, '\n');
        Split(s, '\n')
  }

  /** `_generate_kb_response`: the top hit's document, with the decision's confidence. */
  function GenerateKbResponse(question: string, routing: RoutingResult, sessionId: string, timestamp: string)
    : (resp: MathResponse)
    requires routing.data.Some? && routing.data.value != []
    ensures var doc := routing.data.value[0].content;
      && resp.question == question
      && resp.answer == TextField(doc, "answer")
      && resp.solutionSteps == KbSteps(doc)
      && resp.explanation == TextField(doc, "explanation")
      && resp.source == "knowledge_base"
      && resp.confidence == routing.confidence
      && resp.sessionId == sessionId && resp.timestamp == timestamp
  {
    var doc := routing.data.value[0].content;
    MathResponse(question, TextField(doc, "answer"), KbSteps(doc), TextField(doc, "explanation"),
                 "knowledge_base", routing.confidence, sessionId, timestamp)
  }

  /**
   * A document of the dataset stores its steps under `solution`, never under
   * `solution_steps`, so a knowledge-base answer drawn from it has no steps.
   */
  lemma DatasetRecordsHaveNoSteps(p: MathProblem, routing: RoutingResult, question: string, sessionId: string, timestamp: string)
    requires routing.data.Some? && routing.data.value != [] && routing.data.value[0].content == Record(p)
    ensures var resp := GenerateKbResponse(question, routing, sessionId, timestamp);
      resp.solutionSteps == [] && resp.answer == p.finalAnswer && resp.explanation == p.explanation
  {
    RecordFields(p);
  }

  // ---------------------------------------------------------------------------
  // Web responses, and the fallback extraction from the page texts

  const StepPatterns: seq<Pattern> := [
    Pattern(@"step \d+[:\-]\s*([^.]*\.)", true),
    Pattern(@"\d+[\.\)]\s*([^.]*\.)", true),
    Pattern(@"first[:\-]\s*([^.]*\.)", true),
    Pattern(@"second[:\-]\s*([^.]*\.)", true),
    Pattern(@"third[:\-]\s*([^.]*\.)", true),
    Pattern(@"next[:\-]\s*([^.]*\.)", true),
    Pattern(@"finally[:\-]\s*([^.]*\.)", true)
  ]

  const AnswerPatterns: seq<Pattern> := [
    Pattern(@"answer[:\-]\s*([^.]*\.)", true),
    Pattern(@"result[:\-]\s*([^.]*\.)", true),
    Pattern(@"solution[:\-]\s*([^.]*\.)", true),
    Pattern(@"therefore[,\s]+([^.]*\.)", true),
    Pattern(@"thus[,\s]+([^.]*\.)", true)
  ]

  const ExplanationPatterns: seq<Pattern> := [
    Pattern(@"[^.]*because[^.]*\.", true),
    Pattern(@"[^.]*since[^.]*\.", true),
    Pattern(@"[^.]*therefore[^.]*\.", true),
    Pattern(@"[^.]*thus[^.]*\.", true),
    Pattern(@"[^.]*we have[^.]*\.", true),
    Pattern(@"[^.]*we get[^.]*\.", true),
    Pattern(@"[^.]*we obtain[^.]*\.", true)
  ]

  const GenericSteps: seq<string> := [
    "Analyze the given problem",
    "Apply appropriate mathematical concepts",
    "Solve step by step",
    "Verify the solution"
  ]

  const NoAnswerStated: string := "Answer not explicitly stated in the sources"
  const DefaultExplanation: string := "This solution is based on mathematical principles and step-by-step reasoning."

  const ApologyAnswer: string :=
    "I apologize, but I couldn't find a suitable solution for your question. Please try rephrasing or providing more specific details."
  const NoContentExplanation: string := "No relevant mathematical content found in web search"

  /** The loop that extends a list with the matches of each pattern in turn. */
  method FindAll(engine: Engine, ps: seq<Pattern>, text: string) returns (found: seq<string>)
    ensures found == FindAllEach(engine, ps, text)
  {
    found := [];
    for i := 0 to |ps|
      invariant found == FindAllEach(engine, ps[..i], text)
    {
      FindAllEachAppend(engine, ps[..i], [ps[i]], text);
      assert ps[..i + 1] == ps[..i] + [ps[i]];
      found := found + engine(ps[i], text);
    }
    assert ps[..|ps|] == ps;
  }

  /** The steps `_extract_solution_steps` finds in the joined page texts. */
  function FallbackSteps(engine: Engine, content: seq<string>): (r: seq<string>)
    ensures |r| <= 10
    ensures FindAllEach(engine, StepPatterns, Join(" ", content)) == [] ==> r == GenericSteps
    ensures FindAllEach(engine, StepPatterns, Join(" ", content)) != [] ==>
      var found := FindAllEach(engine, StepPatterns, Join(" ", content));
      |r| == (if |found| < 10 then |found| else 10) && r == found[..|r|]
  {
    var found := FindAllEach(engine, StepPatterns, Join(" ", content));
    Head(if found == [] then GenericSteps else found, 10)
  }

  /** `_extract_solution_steps`. */
  method ExtractSolutionSteps(engine: Engine, content: seq<string>) returns (steps: seq<string>)
    ensures steps == FallbackSteps(engine, content)
  {
    steps := FindAll(engine, StepPatterns, Join(" ", content));
    if steps == [] {
      steps := GenericSteps;
    }
    steps := Head(steps, 10);
  }

  /** `_extract_final_answer`: the capture of the first answer pattern that matches, stripped. */
  function ExtractFinalAnswer(engine: Engine, content: seq<string>): (r: string)
    ensures var text := Join(" ", content);
      (forall j :: 0 <= j < |AnswerPatterns| ==> !Search(engine, AnswerPatterns[j], text)) ==> r == NoAnswerStated
    ensures var text := Join(" ", content);
      forall j :: 0 <= j < |AnswerPatterns| && Search(engine, AnswerPatterns[j], text) &&
                  (forall k :: 0 <= k < j ==> !Search(engine, AnswerPatterns[k], text)) ==>
        r == Strip(FirstGroup(engine, AnswerPatterns[j], text))
  {
    var text := Join(" ", content);
    var i := FirstFound(engine, AnswerPatterns, text);
    FirstFoundUnique(engine, AnswerPatterns, text);
    if i == |AnswerPatterns| then NoAnswerStated else Strip(FirstGroup(engine, AnswerPatterns[i], text))
  }

  /** The explanation `_generate_explanation` builds: the first three sentences found, joined. */
  function FallbackExplanation(engine: Engine, content: seq<string>): (r: string)
    ensures FindAllEach(engine, ExplanationPatterns, Join(" ", content)) == [] ==> r == DefaultExplanation
    ensures var found := FindAllEach(engine, ExplanationPatterns, Join(" ", content));
      forall i :: 0 <= i < |found| && i < 3 ==> Contains(r, found[i])
    ensures var found := FindAllEach(engine, ExplanationPatterns, Join(" ", content));
      found != [] ==> r == Join(" ", found[..if |found| < 3 then |found| else 3])
  {
    var found := FindAllEach(engine, ExplanationPatterns, Join(" ", content));
    if found == [] then DefaultExplanation
    else
      var kept := Head(found, 3);
      assert forall i :: 0 <= i < |found| && i < 3 ==> found[i] == kept[i];
      forall i | 0 <= i < |kept| ensures Contains(Join(" ", kept), kept[i]) {
        JoinContains(" ", kept, i);
      }
      Join(" ", kept)
  }

  /** `_generate_explanation`. */
  method GenerateExplanation(engine: Engine, content: seq<string>) returns (r: string)
    ensures r == FallbackExplanation(engine, content)
  {
    var sentences := FindAll(engine, ExplanationPatterns, Join(" ", content));
    if sentences != [] {
      return Join(" ", Head(sentences, 3));
    }
    r := DefaultExplanation;
  }

  /** What the model and the helper prompts answer while a web response is built. */
  datatype ModelReplies = ModelReplies(generate: GeminiClient.Generate,
                                       stepsReply: Result<string, string>,
                                       answerReply: Result<string, string>)

  /**
   * The response `_generate_web_response` builds from the web results: an
   * apology when there are none; otherwise the model's answer on the joined
   * page texts, or, when the model fails, the answer extracted from the texts
   * themselves.
   */
  function WebResponse(engine: Engine, question: string, sessionId: string, timestamp: string,
                       webResults: seq<WebSearch.WebResult>, replies: ModelReplies): (resp: MathResponse)
    ensures resp.question == question && resp.source == "web_search"
    ensures resp.sessionId == sessionId && resp.timestamp == timestamp
    ensures webResults == [] ==>
      resp == MathResponse(question, ApologyAnswer, ["Unable to find solution"], NoContentExplanation,
                           "web_search", 0.0, sessionId, timestamp)
    ensures webResults != [] ==>
      var content := WebSearch.Contents(webResults);
      var g := GeminiClient.GenerateMathResponse(question, Join(" ", content), replies.generate);
      && (g.success ==>
            && resp.answer == GeminiClient.ExtractFinalAnswer(replies.answerReply)
            && resp.solutionSteps == GeminiClient.ExtractedSteps(replies.stepsReply)
            && resp.explanation == g.response.value
            && resp.confidence == 0.8)
      && (!g.success ==>
            && resp.answer == ExtractFinalAnswer(engine, content)
            && resp.solutionSteps == FallbackSteps(engine, content)
            && resp.explanation == FallbackExplanation(engine, content)
            && resp.confidence == RealMin(0.8, |webResults| as real * 0.2))
    ensures 0.0 <= resp.confidence <= 0.8
  {
    if webResults == [] then
      MathResponse(question, ApologyAnswer, ["Unable to find solution"], NoContentExplanation,
                   "web_search", 0.0, sessionId, timestamp)
    else
      var content := WebSearch.Contents(webResults);
      var g := GeminiClient.GenerateMathResponse(question, Join(" ", content), replies.generate);
      if g.success then
        MathResponse(question, GeminiClient.ExtractFinalAnswer(replies.answerReply),
                     GeminiClient.ExtractedSteps(replies.stepsReply), g.response.value, "web_search",
                     g.confidence.value, sessionId, timestamp)
      else
        MathResponse(question, ExtractFinalAnswer(engine, content), FallbackSteps(engine, content),
                     FallbackExplanation(engine, content), "web_search",
                     RealMin(0.8, |webResults| as real * 0.2), sessionId, timestamp)
  }

  /** `_generate_web_response`, step by step through the helper methods. */
  method GenerateWebResponse(engine: Engine, question: string, sessionId: string, timestamp: string,
                             webResults: seq<WebSearch.WebResult>, replies: ModelReplies)
    returns (resp: MathResponse)
    ensures resp == WebResponse(engine, question, sessionId, timestamp, webResults, replies)
  {
    if webResults == [] {
      return MathResponse(question, ApologyAnswer, ["Unable to find solution"], NoContentExplanation,
                          "web_search", 0.0, sessionId, timestamp);
    }
    var content := WebSearch.Contents(webResults);
    var context := Join(" ", content);
    var g := GeminiClient.GenerateMathResponse(question, context, replies.generate);
    if g.success {
      var steps := GeminiClient.ExtractSolutionSteps(replies.stepsReply);
      var answer := GeminiClient.ExtractFinalAnswer(replies.answerReply);
      resp := MathResponse(question, answer, steps, g.response.value, "web_search", g.confidence.value,
                           sessionId, timestamp);
    } else {
      var steps := ExtractSolutionSteps(engine, content);
      var explanation := GenerateExplanation(engine, content);
      resp := MathResponse(question, ExtractFinalAnswer(engine, content), steps, explanation, "web_search",
                           RealMin(0.8, |webResults| as real * 0.2), sessionId, timestamp);
    }
  }

  // ---------------------------------------------------------------------------
  // Sessions and the question flow

  /** `math_session_<counter>_<stamp>`. */
  function SessionId(counter: nat, stamp: string): string {
    "math_session_" + NatToString(counter) + "_" + stamp
  }

  /** The counter can be read back from a session id, whatever the stamps. */
  lemma SessionIdDeterminesCounter(m: nat, s1: string, n: nat, s2: string)
    requires SessionId(m, s1) == SessionId(n, s2)
    ensures m == n
  {
    var a := NatToString(m);
    var b := NatToString(n);
    var x := SessionId(m, s1);
    var h := "math_session_";
    assert |h| == 13;
    assert x == h + a + "_" + s1 && x == h + b + "_" + s2;
    assert forall i :: 0 <= i < |a| ==> x[13 + i] == a[i];
    assert forall i :: 0 <= i < |b| ==> x[13 + i] == b[i];
    assert x[13 + |a|] == '_' && x[13 + |b|] == '_';
    assert |a| == |b|;
    assert a == b;
    NatToStringInjective(m, n);
  }

  /** Everything the agent receives from outside while it answers one question. */
  datatype Environment = Environment(
    engine: Engine,
    kbResults: seq<VectorStore.SearchHit>,
    webResults: seq<WebSearch.WebResult>,
    replies: ModelReplies,
    sessionStamp: string,
    responseTime: string)

  datatype Outcome =
    | InvalidInput(warnings: seq<string>, sessionId: string)
    | Answered(response: MathResponse, sessionId: string, routing: RoutingResult,
               inputWarnings: seq<string>, outputWarnings: seq<string>, educationalValue: real)

  /** The response of the source the decision names. */
  function Respond(env: Environment, question: string, routing: RoutingResult, sessionId: string): (resp: MathResponse)
    requires routing.decision == KnowledgeBaseRoute ==> routing.data.Some? && routing.data.value != []
    ensures resp.question == question && resp.sessionId == sessionId
    ensures resp.source == (if routing.decision == KnowledgeBaseRoute then "knowledge_base" else "web_search")
    ensures routing.decision == KnowledgeBaseRoute ==> resp.confidence == routing.confidence
  {
    if routing.decision == KnowledgeBaseRoute then GenerateKbResponse(question, routing, sessionId, env.responseTime)
    else WebResponse(env.engine, question, sessionId, env.responseTime, env.webResults, env.replies)
  }

  /**
   * What `validate_output` makes of a built response: a rejected answer (too
   * long, inappropriate) is kept as it is, with the rejection warning and no
   * educational value; an accepted one is replaced by its sanitised text
   * unless that is empty, and carries the warnings and the educational value
   * of that text.
   */
  predicate Guarded(engine: Engine, b: MathResponse, response: MathResponse, warnings: seq<string>, educational: real) {
    var text := b.answer;
    var accepted := |text| <= OutputGuardrails.MaxOutputLength && !OutputGuardrails.Inappropriate(engine, text);
    var clean := Sanitizer.Sanitize(text);
    && response == (if accepted && clean != "" then b.(answer := clean) else b)
    && warnings ==
         (if |text| > OutputGuardrails.MaxOutputLength then [OutputGuardrails.TooLongWarning()]
          else if !accepted then [OutputGuardrails.InappropriateWarning]
          else OutputGuardrails.MissingWarnings(OutputGuardrails.MissingElements(engine, clean)) +
               OutputGuardrails.MathWarnings(engine, clean))
    && educational == (if accepted then OutputGuardrails.EducationalValue(engine, clean) else 0.0)
  }

  /**
   * What `process_question` reports once routing is done: the decision on the
   * hits, the response of that source, and what the output guardrails make of it.
   */
  predicate AnsweredWith(env: Environment, question: string, sessionId: string, inputWarnings: seq<string>,
                         r: Outcome)
  {
    && r.Answered? && r.sessionId == sessionId && r.inputWarnings == inputWarnings
    && r.routing == RouteFor(env.engine, question, env.kbResults)
    && Guarded(env.engine, Respond(env, question, r.routing, sessionId), r.response, r.outputWarnings, r.educationalValue)
  }

  /** The output guardrails on a built response, and the answer they leave. */
  method GuardResponse(engine: Engine, b: MathResponse, question: string)
    returns (response: MathResponse, warnings: seq<string>, educational: real)
    ensures Guarded(engine, b, response, warnings, educational)
    ensures 0.0 <= educational <= 1.0
  {
    var output := OutputGuardrails.ValidateOutput(engine, b.answer, question);
    response := if output.sanitizedOutput != "" then b.(answer := output.sanitizedOutput) else b;
    warnings, educational := output.warnings, output.educationalValue;
  }

  /**
   * An answered outcome keeps the session and the routing guarantees: the
   * decision is the knowledge base exactly when its hits qualify, the response
   * names its source and carries the top hit's score when it comes from the
   * knowledge base, and the educational value is a fraction.
   */
  lemma AnsweredFacts(env: Environment, question: string, sessionId: string, inputWarnings: seq<string>, r: Outcome)
    requires AnsweredWith(env, question, sessionId, inputWarnings, r)
    ensures r.routing.decision != RejectRoute
    ensures r.routing.decision == KnowledgeBaseRoute <==> UsesKnowledgeBase(env.engine, question, env.kbResults)
    ensures r.response.source == DecisionValue(r.routing.decision)
    ensures r.response.sessionId == sessionId && r.response.question == question
    ensures 0.0 <= r.educationalValue <= 1.0
    ensures r.routing.decision == KnowledgeBaseRoute ==> r.response.confidence == env.kbResults[0].score
  {
  }

  /** `_generate_response`: the builder of the source the decision names. */
  method GenerateResponse(env: Environment, question: string, routing: RoutingResult, sessionId: string)
    returns (resp: MathResponse)
    requires routing.decision == KnowledgeBaseRoute ==> routing.data.Some? && routing.data.value != []
    ensures resp == (if routing.decision == KnowledgeBaseRoute
                     then GenerateKbResponse(question, routing, sessionId, env.responseTime)
                     else WebResponse(env.engine, question, sessionId, env.responseTime, env.webResults, env.replies))
    ensures resp.question == question && resp.sessionId == sessionId
    ensures resp.source == (if routing.decision == KnowledgeBaseRoute then "knowledge_base" else "web_search")
  {
    if routing.decision == KnowledgeBaseRoute {
      resp := GenerateKbResponse(question, routing, sessionId, env.responseTime);
    } else {
      resp := GenerateWebResponse(env.engine, question, sessionId, env.responseTime, env.webResults, env.replies);
    }
  }

  /**
   * The part of `process_question` after a valid input: route, build the
   * response, and replace its answer by the sanitised one when that is not empty.
   */
  method RouteAndAnswer(env: Environment, question: string, sessionId: string, inputWarnings: seq<string>)
    returns (r: Outcome)
    ensures AnsweredWith(env, question, sessionId, inputWarnings, r)
    ensures r.Answered? && r.sessionId == sessionId && r.inputWarnings == inputWarnings
    ensures r.routing.decision != RejectRoute
    ensures r.routing.decision == KnowledgeBaseRoute <==> UsesKnowledgeBase(env.engine, question, env.kbResults)
    ensures r.response.source == DecisionValue(r.routing.decision)
    ensures r.response.sessionId == sessionId && r.response.question == question
    ensures 0.0 <= r.educationalValue <= 1.0
    ensures r.routing.decision == KnowledgeBaseRoute ==> r.response.confidence == env.kbResults[0].score
  {
    var routing := MakeRoutingDecision(env.engine, question, env.kbResults);
    var built := GenerateResponse(env, question, routing, sessionId);
    var response, warnings, educational := GuardResponse(env.engine, built, question);
    r := Answered(response, sessionId, routing, inputWarnings, warnings, educational);
    AnsweredFacts(env, question, sessionId, inputWarnings, r);
  }

  class MathRoutingAgent {
    var sessionCounter: nat

    constructor ()
      ensures sessionCounter == 0
    {
      sessionCounter := 0;
    }

    /** `_generate_session_id`: the counter goes up by exactly one and names the session. */
    method GenerateSessionId(stamp: string) returns (id: string)
      modifies this
      ensures sessionCounter == old(sessionCounter) + 1
      ensures id == SessionId(sessionCounter, stamp)
    {
      sessionCounter := sessionCounter + 1;
      id := SessionId(sessionCounter, stamp);
    }

    /**
     * `process_question`: a new session id, then input validation (a rejected
     * input ends the flow before any routing), routing, the response of the
     * chosen source and the output guardrails, whose sanitised text replaces
     * the answer when it is not empty.
     */
    method ProcessQuestion(env: Environment, question: string) returns (r: Outcome)
      modifies this
      ensures sessionCounter == old(sessionCounter) + 1
      ensures r.sessionId == SessionId(sessionCounter, env.sessionStamp)
      ensures r.InvalidInput? <==> !InputGuardrails.Accepted(env.engine, question)
      ensures |question| > InputGuardrails.MaxInputLength ==>
        r == InvalidInput([InputGuardrails.TooLongWarning()], r.sessionId)
      ensures |question| <= InputGuardrails.MaxInputLength && InputGuardrails.Harmful(env.engine, question) ==>
        r == InvalidInput([InputGuardrails.HarmfulWarning], r.sessionId)
      ensures r.Answered? ==>
        && r.routing.decision != RejectRoute
        && (r.routing.decision == KnowledgeBaseRoute <==> UsesKnowledgeBase(env.engine, question, env.kbResults))
        && r.response.source == DecisionValue(r.routing.decision)
        && r.response.sessionId == r.sessionId
        && r.response.question == question
        && 0.0 <= r.educationalValue <= 1.0
      ensures r.Answered? && r.routing.decision == KnowledgeBaseRoute ==>
        r.response.confidence == env.kbResults[0].score
      ensures r.Answered? ==> AnsweredWith(env, question, r.sessionId, r.inputWarnings, r)
      ensures r.Answered? ==>
        var clean := Sanitizer.Sanitize(question);
        r.inputWarnings == (if InputGuardrails.MathScore(env.engine, clean) > 0.3
                            then InputGuardrails.TopicWarnings(InputGuardrails.DetectedTopic(clean))
                            else [InputGuardrails.NotMathWarning])
    {
      var sessionId := GenerateSessionId(env.sessionStamp);
      var input := InputGuardrails.ValidateInput(env.engine, question);
      if !input.isValid {
        return InvalidInput(input.warnings, sessionId);
      }
      r := RouteAndAnswer(env, question, sessionId, input.warnings);
    }
  }
}
