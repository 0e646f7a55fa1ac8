/**
 * The text side of the web-search client: how a query is enhanced before it
 * is sent, which returned results count as mathematical, and how the
 * explanation and solution-verification summaries are scored from the
 * results. The search service itself is left out; its results are inputs.
 */
module WebSearch {
  import opened Text
  import opened Collections
  import opened Wrappers

  /** `_enhance_math_query`'s keyword list. */
  const MathKeywords: seq<string> := [
    "mathematics", "math", "algebra", "calculus", "geometry",
    "trigonometry", "statistics", "step by step", "solution"
  ]

  const EnhanceSuffix: string := " mathematics step by step solution"

  /** `_is_math_related`'s indicator list. */
  const MathIndicators: seq<string> := [
    "equation", "formula", "solve", "calculate", "derivative",
    "integral", "algebra", "geometry", "trigonometry", "statistics",
    "step", "solution", "answer", "mathematical", "math"
  ]

  /** The words `verify_math_solution` looks for in a result. */
  const SolutionWords: seq<string> := ["step", "solution", "answer"]

  /** `any(k in s for k in keys)`. */
  function AnyIn(keys: seq<string>, s: string): (b: bool)
    ensures b <==> exists i :: 0 <= i < |keys| && Contains(s, keys[i])
  {
    if keys == [] then false else Contains(s, keys[0]) || AnyIn(keys[1..], s)
  }

  /** `_enhance_math_query`. */
  function EnhanceMathQuery(query: string): (r: string)
    ensures AnyIn(MathKeywords, Lower(query)) ==> r == query
    ensures !AnyIn(MathKeywords, Lower(query)) ==> r == query + EnhanceSuffix
  {
    if AnyIn(MathKeywords, Lower(query)) then query else query + EnhanceSuffix
  }

  /** The keywords are written in lower case, so lower-casing leaves them alone. */
  lemma KeywordsLower()
    ensures forall i :: 0 <= i < |MathKeywords| ==> Lower(MathKeywords[i]) == MathKeywords[i]
  {
    forall i | 0 <= i < |MathKeywords| ensures Lower(MathKeywords[i]) == MathKeywords[i] {
      var k := MathKeywords[i];
      assert forall j :: 0 <= j < |k| ==> !('A' <= k[j] <= 'Z');
    }
  }

  /** A query that (case-insensitively) contains one of the keywords is left as it is. */
  lemma KeywordKept(a: string, i: nat, b: string)
    requires i < |MathKeywords|
    ensures EnhanceMathQuery(a + MathKeywords[i] + b) == a + MathKeywords[i] + b
  {
    KeywordsLower();
    var k := MathKeywords[i];
    LowerAppend(a + k, b);
    LowerAppend(a, k);
    ContainsMiddle(Lower(a), k, Lower(b));
    assert Contains(Lower(a + k + b), MathKeywords[i]);
  }

  lemma MentionsMathematics(a: string, b: string)
    ensures EnhanceMathQuery(a + "mathematics" + b) == a + "mathematics" + b
  {
    KeywordKept(a, 0, b);
  }

  /** Enhancing twice is enhancing once: the suffix itself contains `mathematics`. */
  lemma EnhanceIdempotent(query: string)
    ensures EnhanceMathQuery(EnhanceMathQuery(query)) == EnhanceMathQuery(query)
  {
    if !AnyIn(MathKeywords, Lower(query)) {
      assert query + EnhanceSuffix == query + " " + "mathematics" + " step by step solution";
      MentionsMathematics(query + " ", " step by step solution");
    }
  }

  /** The enhanced query always mentions some keyword and starts with the original query. */
  lemma EnhancedMentionsKeyword(query: string)
    ensures AnyIn(MathKeywords, Lower(EnhanceMathQuery(query)))
    ensures StartsWith(EnhanceMathQuery(query), query)
  {
    EnhanceIdempotent(query);
    assert EnhanceMathQuery(query)[..|query|] == query;
  }

  /** `_is_math_related`: the lower-cased content mentions some math indicator. */
  predicate IsMathRelated(content: string): (r: bool)
    ensures r <==> exists i :: 0 <= i < |MathIndicators| && Contains(Lower(content), MathIndicators[i])
  {
    AnyIn(MathIndicators, Lower(content))
  }

  /** A result as the search service returns it: every key may be missing. */
  datatype RawResult = RawResult(title: Option<string>, url: Option<string>,
                                 content: Option<string>, score: Option<real>)

  /** A kept search result. */
  datatype WebResult = WebResult(title: string, url: string, content: string, score: real, source: string)

  /** The record `search_math_content` makes of one result (`get` with its defaults). */
  function Normalize(r: RawResult): (w: WebResult)
    ensures w.source == "tavily"
    ensures w.content == (if r.content.Some? then r.content.value else "")
    ensures w.score == (if r.score.Some? then r.score.value else 0.0)
  {
    WebResult(r.title.GetOr(""), r.url.GetOr(""), r.content.GetOr(""), r.score.GetOr(0.0), "tavily")
  }

  function NormalizeAll(raw: seq<RawResult>): (r: seq<WebResult>)
    ensures |r| == |raw|
    ensures forall i :: 0 <= i < |raw| ==> r[i] == Normalize(raw[i])
  {
    seq(|raw|, i requires 0 <= i < |raw| => Normalize(raw[i]))
  }

  /** Whether `search_math_content` keeps a normalised result. */
  predicate KeepsResult(w: WebResult) {
    IsMathRelated(w.content)
  }

  /** The results `search_math_content` keeps: the math-related ones, normalised, in order. */
  function Processed(raw: seq<RawResult>): seq<WebResult> {
    Filter(NormalizeAll(raw), KeepsResult)
  }

  /** One more raw result adds its normalised form when it is math-related, and nothing otherwise. */
  lemma ProcessedStep(raw: seq<RawResult>, i: nat)
    requires i < |raw|
    ensures Processed(raw[..i + 1]) ==
      Processed(raw[..i]) + (if KeepsResult(Normalize(raw[i])) then [Normalize(raw[i])] else [])
  {
    assert NormalizeAll(raw[..i + 1]) == NormalizeAll(raw[..i]) + [Normalize(raw[i])];
    FilterAppend(NormalizeAll(raw[..i]), [Normalize(raw[i])], KeepsResult);
  }

  /**
   * The filtering loop of `search_math_content`: exactly the math-related
   * results are kept, in their order, tagged with their source.
   */
  method FilterResults(raw: seq<RawResult>) returns (processed: seq<WebResult>)
    ensures processed == Processed(raw)
  {
    processed := [];
    for i := 0 to |raw|
      invariant processed == Processed(raw[..i])
    {
      var result := raw[i];
      ProcessedStep(raw, i);
      if IsMathRelated(result.content.GetOr("")) {
        processed := processed + [WebResult(result.title.GetOr(""), result.url.GetOr(""),
                                            result.content.GetOr(""), result.score.GetOr(0.0), "tavily")];
      }
    }
    assert raw[..|raw|] == raw;
  }

  /**
   * What the kept results are: each is math-related and tagged "tavily",
   * every math-related result is kept, and they keep their order.
   */
  lemma ProcessedFacts(raw: seq<RawResult>)
    ensures forall i :: 0 <= i < |Processed(raw)| ==>
      Processed(raw)[i].source == "tavily" && IsMathRelated(Processed(raw)[i].content)
    ensures forall i :: 0 <= i < |raw| && IsMathRelated(raw[i].content.GetOr("")) ==> Normalize(raw[i]) in Processed(raw)
    ensures IsSubsequence(Processed(raw), NormalizeAll(raw))
  {
    var all := NormalizeAll(raw);
    FilterIsSubsequence(all, KeepsResult);
    forall i | 0 <= i < |Processed(raw)|
      ensures Processed(raw)[i].source == "tavily"
    {
      var j :| 0 <= j < |all| && all[j] == Processed(raw)[i];
    }
    forall i | 0 <= i < |raw| && IsMathRelated(raw[i].content.GetOr(""))
      ensures Normalize(raw[i]) in Processed(raw)
    {
      assert all[i] == Normalize(raw[i]);
    }
  }

  /** The query `get_math_explanation` searches with. */
  function ExplanationQuery(topic: string, difficulty: string): string {
    topic + " mathematics explanation tutorial " + difficulty + " level"
  }

  /** The query `verify_math_solution` searches with. */
  function VerificationQuery(problem: string): string {
    problem + " solution step by step"
  }

  /** The explanation query is sent unchanged: it already mentions mathematics. */
  lemma ExplanationQueryUnchanged(topic: string, difficulty: string)
    ensures EnhanceMathQuery(ExplanationQuery(topic, difficulty)) == ExplanationQuery(topic, difficulty)
  {
    assert ExplanationQuery(topic, difficulty) ==
      topic + " " + "mathematics" + (" explanation tutorial " + difficulty + " level");
    MentionsMathematics(topic + " ", " explanation tutorial " + difficulty + " level");
  }

  /** The verification query is sent unchanged: it already mentions a solution. */
  lemma VerificationQueryUnchanged(problem: string)
    ensures EnhanceMathQuery(VerificationQuery(problem)) == VerificationQuery(problem)
  {
    assert VerificationQuery(problem) == problem + " " + MathKeywords[8] + " step by step";
    KeywordKept(problem + " ", 8, " step by step");
  }

  datatype Source = Source(title: string, url: string)

  datatype Explanation = Explanation(topic: string, difficulty: string, explanation: string,
                                     sources: seq<Source>, confidence: real)

  function Min(a: real, b: real): real { if a < b then a else b }

  function Contents(results: seq<WebResult>): (r: seq<string>)
    ensures |r| == |results|
    ensures forall i :: 0 <= i < |results| ==> r[i] == results[i].content
  {
    seq(|results|, i requires 0 <= i < |results| => results[i].content)
  }

  function Sources(results: seq<WebResult>): (r: seq<Source>)
    ensures |r| == |results|
    ensures forall i :: 0 <= i < |results| ==> r[i] == Source(results[i].title, results[i].url)
  {
    seq(|results|, i requires 0 <= i < |results| => Source(results[i].title, results[i].url))
  }

  /**
   * `get_math_explanation` over the results of its search (a failure stands
   * for an exception raised while they were gathered).
   */
  method GetMathExplanation(topic: string, difficulty: string, search: Result<seq<WebResult>, string>)
    returns (r: Option<Explanation>)
    ensures r.None? <==> search.Failure? || search.value == []
    ensures r.Some? ==>
      var results := search.value;
      r.value.topic == topic && r.value.difficulty == difficulty &&
      r.value.explanation == Join(" ", Contents(results)) &&
      r.value.sources == Sources(results) &&
      r.value.confidence == Min(1.0, (|results| as real) * 0.3)
  {
    if search.Failure? || search.value == [] {
      return None;
    }
    var results := search.value;
    var combined: seq<string> := [];
    var sources: seq<Source> := [];
    for i := 0 to |results|
      invariant combined == Contents(results[..i])
      invariant sources == Sources(results[..i])
    {
      combined := combined + [results[i].content];
      sources := sources + [Source(results[i].title, results[i].url)];
    }
    assert results[..|results|] == results;
    return Some(Explanation(topic, difficulty, Join(" ", combined), sources, Min(1.0, (|results| as real) * 0.3)));
  }

  /**
   * What the explanation promises: each result's content occurs in the
   * explanation, and the confidence is positive, at most 1, and reaches 1
   * exactly from four results on.
   */
  lemma ExplanationFacts(results: seq<WebResult>, i: nat)
    requires i < |results|
    ensures Contains(Join(" ", Contents(results)), results[i].content)
    ensures 0.0 < Min(1.0, (|results| as real) * 0.3) <= 1.0
    ensures Min(1.0, (|results| as real) * 0.3) == 1.0 <==> |results| >= 4
  {
    JoinContains(" ", Contents(results), i);
  }

  /** A result backs a solution when its lower-cased content mentions a step, solution or answer. */
  predicate Supports(r: WebResult) {
    AnyIn(SolutionWords, Lower(r.content))
  }

  datatype Snippet = Snippet(source: string, url: string, content: string)

  datatype Verification = Verification(verified: bool, confidence: real, similarSolutions: seq<Snippet>)

  /** The snippet kept for one supporting result: its first 200 characters and an ellipsis. */
  function SnippetOf(r: WebResult): (s: Snippet)
    ensures s.source == r.title && s.url == r.url
    ensures |s.content| == (if |r.content| < 200 then |r.content| else 200) + 3
    ensures StartsWith(r.content, s.content[..|s.content| - 3]) && s.content[|s.content| - 3..] == "..."
  {
    Snippet(r.title, r.url, Prefix(r.content, 200) + "...")
  }

  function Snippets(results: seq<WebResult>): (r: seq<Snippet>)
    ensures |r| == |results|
    ensures forall i :: 0 <= i < |results| ==> r[i] == SnippetOf(results[i])
  {
    seq(|results|, i requires 0 <= i < |results| => SnippetOf(results[i]))
  }

  /**
   * `verify_math_solution` over the results of its search: 0.3 per supporting
   * result; verified when the score exceeds 0.5. A failure (an exception while
   * the results were gathered or read) gives the negative verdict.
   */
  method VerifyMathSolution(problem: string, solution: string, search: Result<seq<WebResult>, string>)
    returns (v: Verification)
    ensures search.Failure? ==> v == Verification(false, 0.0, [])
    ensures search.Success? ==>
      var supporting := Filter(search.value, Supports);
      v.verified == ((|supporting| as real) * 0.3 > 0.5) &&
      v.confidence == Min((|supporting| as real) * 0.3, 1.0) &&
      v.similarSolutions == Snippets(supporting) &&
      (v.verified <==> |supporting| >= 2) &&
      0.0 <= v.confidence <= 1.0
  {
    if search.Failure? {
      return Verification(false, 0.0, []);
    }
    var results := search.value;
    var score := 0.0;
    var similar: seq<Snippet> := [];
    for i := 0 to |results|
      invariant score == (|Filter(results[..i], Supports)| as real) * 0.3
      invariant similar == Snippets(Filter(results[..i], Supports))
    {
      SupportStep(results, i);
      var content := Lower(results[i].content);
      if AnyIn(SolutionWords, content) {
        SnippetsAppend(Filter(results[..i], Supports), results[i]);
        score := score + 0.3;
        similar := similar + [Snippet(results[i].title, results[i].url, Prefix(results[i].content, 200) + "...")];
      }
    }
    assert results[..|results|] == results;
    ScoreThreshold(|Filter(results, Supports)|);
    return Verification(score > 0.5, Min(score, 1.0), similar);
  }

  /** One more result extends the supporting results by itself exactly when it supports the solution. */
  lemma SupportStep(results: seq<WebResult>, i: nat)
    requires i < |results|
    ensures Filter(results[..i + 1], Supports)
         == Filter(results[..i], Supports) + (if Supports(results[i]) then [results[i]] else [])
  {
    assert results[..i + 1] == results[..i] + [results[i]];
    FilterAppend(results[..i], [results[i]], Supports);
    assert [results[i]][1..] == [];
  }

  lemma SnippetsAppend(a: seq<WebResult>, x: WebResult)
    ensures Snippets(a + [x]) == Snippets(a) + [SnippetOf(x)]
  {
    assert forall i :: 0 <= i < |a| ==> (a + [x])[i] == a[i];
  }

  /** Two supporting results are the fewest whose 0.3 each exceeds 0.5. */
  lemma ScoreThreshold(n: nat)
    ensures (n as real) * 0.3 > 0.5 <==> n >= 2
  {
  }
}
