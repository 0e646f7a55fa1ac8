# Math Routing Agent — a Dafny model of its core

Math-Routing-Agent answers mathematics questions. Each question moves through these stages:

1. An input guardrail checks the question. It rejects text that is too long and text that matches a harmful pattern. Otherwise it sanitises the text, scores how mathematical it is, and guesses its topic.
2. The routing agent assesses the question's complexity. It then sends the question down one of two routes:
   - the knowledge base, a vector store seeded with a small dataset of solved problems, or
   - web search, where Tavily results are fed to Gemini and parsed with a set of fallback regular expressions.
3. An output guardrail scores and sanitises the answer.
4. A learning system records user feedback, evaluates responses and summarises trends.

This project models those stages in Dafny and proves what each one promises. It covers:

- routing_agent: session ids, routing, complexity, the knowledge-base and web responses, and the fallback extractors;
- input_guardrails and output_guardrails: the validators, the scores and the shared sanitiser;
- math_dataset: the sample problems, filters, search and `to_dict`;
- vector_store: the in-memory fallback store and its search;
- web_search_mcp: query enhancement, result filtering, explanations and solution verification;
- gemini_client: the prompt, the step, answer and query extraction, and evaluation parsing;
- dspy_feedback: the feedback collector, response evaluation, improvement tags, insights and trends.

Modelling conventions:

- **Regular expressions** are one parameter, `Regex.Engine`. It maps a pattern and a text to the list `re.findall` would return. Each pattern keeps the repository's literal source text and its ignore-case flag.
  - `re.search` succeeds when that list is non-empty.
  - `match.group(1)` is the list's first element.
  - Everything built on regular expressions is proved for every engine.
- **Substring tests, `lower`, `split`, `join`, `strip`, `str.count` and `str(int)`** are written out exactly. `lower` and digit tests are ASCII only.
- **Python floats** are Dafny `real`.
- **Python dicts built by insertion** are sequences of pairs.
- **`list(set(...))`** is a `set`, because its order is hash-dependent. The improvement suggestions are an enumeration, `Feedback.Suggestion`, whose `Name` is the string the source uses.
- **External services become inputs:**
  - Qdrant's reachability;
  - the sentence-transformer embedding and the cosine similarity;
  - Tavily's result list;
  - Gemini's and DSPy's replies;
  - the clock, as timestamps passed in.
- **Where the design and the code differ, the model follows the code.** `MathLearningSystem` calls itself continuous learning (feedback/dspy_feedback.py:216), but nothing it records feeds back into routing, and the routing thresholds are literals; the model has the same fixed thresholds.

Modules: `Wrappers`, `Text`, `Regex`, `Collections` and `Sanitizer` are shared helpers. Each remaining module models one source file.

## Model

| member | source | states |
|---|---|---|
| InputGuardrails.PatternShare | guardrails/input_guardrails.py:99-102 | a pattern's share is matches/10, capped at 1, and always in [0,1] |
| InputGuardrails.CalculateMathScore | guardrails/input_guardrails.py:94-104 | the loop computes the mean of the six pattern shares (MathScore), and that score lies in [0,1] |
| InputGuardrails.FirstArgMax | guardrails/input_guardrails.py:124-125 | `max(dict, key=get)` returns the first key of greatest score: nothing is larger, and every earlier key is strictly smaller |
| InputGuardrails.DetectMathTopic | guardrails/input_guardrails.py:106-127 | the detected topic is the topic that scores highest on keyword hits |
| InputGuardrails.DetectedTopicIsFirstBest | guardrails/input_guardrails.py:110-125 | the detected topic has the greatest keyword count and is the first such in dictionary order; with no hits at all it is "algebra" |
| InputGuardrails.DetectedTopic | guardrails/input_guardrails.py:124-127 | the topic dictionary is never empty, so "general" is never returned |
| InputGuardrails.UnsupportedTopic | guardrails/input_guardrails.py:74-76 | of the detectable topics, exactly "linear_algebra" falls outside the allowed topics and draws the warning |
| InputGuardrails.AssessMathContent | guardrails/input_guardrails.py:65-76 | a score above 0.3 keeps the score and the detected topic; otherwise the result is confidence 0.1, topic "general" and the not-mathematical warning |
| InputGuardrails.ValidateInput | guardrails/input_guardrails.py:35-84 | too-long input and harmful input are rejected with exactly their one warning; the input is valid iff it is within 1000 characters and not harmful; a valid result carries the sanitised input and the score, topic and warnings of the branch taken |
| Sanitizer.RemoveUnsafe | guardrails/input_guardrails.py:89 | the output is exactly the input's characters other than `<>"'`, in their order, so it contains none of them, and text without them is unchanged |
| Sanitizer.Collapse | guardrails/input_guardrails.py:91 | the output is never longer than the input; a run of whitespace at the start becomes one blank, and any other first character is kept |
| Text.Strip | llm/gemini_client.py:172 | `str.strip()`: the slice of the text that starts after its leading whitespace, with only whitespace after it, and that neither starts nor ends with whitespace |
| Collections.SortDesc | knowledge_base/vector_store.py:141 | `sort(key=..., reverse=True)`: the result is in non-increasing key order and is a permutation of the input |
| Text.Words | guardrails/input_guardrails.py:91 | `split()` without a separator: non-empty runs without whitespace; none at all iff the text is all whitespace |
| Sanitizer.CollapseWords | guardrails/input_guardrails.py:91 | `re.sub(r'\s+', ' ', s)` is `" ".join(s.split())`, with one blank kept at the start and at the end where the text had whitespace there |
| Text.JoinWordsEnds | guardrails/input_guardrails.py:91 | words joined by blanks are empty iff there are no words, and otherwise start and end with a visible character |
| Text.StripPadded | guardrails/input_guardrails.py:91 | stripping whitespace padding off a text that starts and ends visibly gives that text back |
| Sanitizer.SanitizeWords | guardrails/input_guardrails.py:89-92 | the collapse followed by `strip` is `" ".join(t.split())` of the text without unsafe characters |
| Sanitizer.CollapseShape | guardrails/input_guardrails.py:91 | the output has no two adjacent whitespace characters, and its only whitespace is the blank |
| Sanitizer.CollapseChars | guardrails/input_guardrails.py:91 | every character of the output is a blank or comes from the input, so text free of `<>"'` stays free of them |
| Sanitizer.CollapseVisible | guardrails/input_guardrails.py:91 | the output keeps every non-whitespace character of the input, in order, and adds none |
| Sanitizer.StripVisible | guardrails/input_guardrails.py:92 | stripping removes whitespace only: the non-whitespace characters are unchanged, in order |
| Sanitizer.Sanitize | guardrails/output_guardrails.py:91-97 | the sanitised text is Clean: no unsafe characters, single blanks only, no whitespace at either end, and no longer than the input. Its non-whitespace characters are exactly the input's safe non-whitespace characters, in order. A text that is already Clean is returned unchanged. The result is `" ".join(t.split())` for `t`, the input without its unsafe characters |
| Sanitizer.CollapseKeeps | guardrails/input_guardrails.py:91 | collapsing whitespace in text that has no runs and no other whitespace leaves it unchanged |
| Sanitizer.SanitizeIdempotent | guardrails/input_guardrails.py:86-92 | sanitising twice gives the same text as sanitising once |
| OutputGuardrails.CappedShare | guardrails/output_guardrails.py:106 | `min(matches*0.1, 0.3)` lies in [0,0.3] |
| OutputGuardrails.OperandPart | guardrails/output_guardrails.py:109-111 | the mathematical-content part of the confidence lies in [0,0.4] |
| OutputGuardrails.StepPart | guardrails/output_guardrails.py:114-116 | the step-structure part of the confidence lies in [0,0.3] |
| OutputGuardrails.CalculateConfidenceScore | guardrails/output_guardrails.py:99-118 | the loops compute ConfidenceScore, which lies in [0,1]; the question is ignored, as in the source |
| OutputGuardrails.NotationPart | guardrails/output_guardrails.py:136-138 | the notation part of the educational value lies in [0,0.4] |
| OutputGuardrails.StructurePart | guardrails/output_guardrails.py:141-142 | the "step N" bonus is either 0 or 0.3 |
| OutputGuardrails.CalculateEducationalValue | guardrails/output_guardrails.py:120-144 | the loops compute EducationalValue, which lies in [0,1] |
| OutputGuardrails.MissingElements | guardrails/output_guardrails.py:146-162 | the missing required elements: each element is in the list iff its pattern has no match, and the list keeps the order of the required elements |
| OutputGuardrails.MathWarnings | guardrails/output_guardrails.py:164-185 | the math-content warnings: each of the three is in the list iff its condition holds, in the source's order |
| OutputGuardrails.CheckRequiredElements | guardrails/output_guardrails.py:146-162 | the loop returns MissingElements; each required element is reported missing iff its pattern has no match; the result keeps the order of the required elements |
| OutputGuardrails.ValidateMathematicalContent | guardrails/output_guardrails.py:164-185 | the warnings are MathWarnings; valid iff there are no warnings; each of the three warnings appears iff its condition holds (no operator, no number or variable, unequal counts of `(` and `)`); warnings keep the source's order |
| OutputGuardrails.MissingWarnings | guardrails/output_guardrails.py:75-76 | one "Missing: " warning per missing element, in order |
| OutputGuardrails.CollectWarnings | guardrails/output_guardrails.py:73-81 | the warnings are exactly one "Missing: " warning per missing element, followed by the math-content warnings |
| OutputGuardrails.ValidateOutput | guardrails/output_guardrails.py:39-89 | too-long and inappropriate responses are refused with their one warning and zero scores; otherwise the output is the sanitised response with its scores, it is valid iff both scores exceed 0.1, and its warnings are the missing-element warnings followed by the math-content warnings of the sanitised text; both scores always lie in [0,1] |
| MathDataset.SampleIdsDistinct | knowledge_base/math_dataset.py:24-159 | the dataset holds eight sample problems with pairwise distinct ids |
| MathDataset.MathDataset.constructor | knowledge_base/math_dataset.py:20-163 | after construction the dataset holds exactly the sample problems, in order |
| MathDataset.MathDataset.ProblemsByTopic | knowledge_base/math_dataset.py:165-167 | keeps, in order, exactly the problems of the topic |
| MathDataset.MathDataset.ProblemsByDifficulty | knowledge_base/math_dataset.py:169-171 | keeps, in order, exactly the problems of the difficulty |
| MathDataset.AnyConceptMatches | knowledge_base/math_dataset.py:182 | true iff some concept, lower-cased, contains the query |
| MathDataset.SearchResultsFacts | knowledge_base/math_dataset.py:173-185 | the search results keep the problems' order, hold only matching problems and every matching one; the empty query matches every problem |
| MathDataset.MathDataset.SearchProblems | knowledge_base/math_dataset.py:173-185 | returns, in order, exactly the problems whose question, topic or some related concept contains the lower-cased query; the empty query returns every problem |
| MathDataset.MathDataset.AllProblems | knowledge_base/math_dataset.py:187-189 | returns the problem list itself |
| MathDataset.MathDataset.ToDict | knowledge_base/math_dataset.py:191-206 | one record per problem, in order |
| MathDataset.RecordFields | knowledge_base/math_dataset.py:193-205 | a record carries the problem's id, question, topic, difficulty, answer and explanation; its solution is the steps joined by single blanks; its content is question, explanation and solution joined by blanks; it has no "solution_steps" key |
| VectorStore.VectorStore.constructor | knowledge_base/vector_store.py:13-52 | an unreachable database switches to empty fallback storage named "fallback_collection"; a reachable one keeps the configured name |
| VectorStore.VectorStore.UseFallbackStorage | knowledge_base/vector_store.py:48-52 | the collection is renamed "fallback_collection" and both maps are emptied |
| VectorStore.VectorStore.AddToFallback | knowledge_base/vector_store.py:83-89 | without fallback storage nothing changes; with it, document i is stored under key i with its embedding, and keys beyond the batch keep their old entries |
| VectorStore.VectorStore.StoreAt | knowledge_base/vector_store.py:88-89 | one loop step overwrites key k in both maps |
| VectorStore.VectorStore.Hits | knowledge_base/vector_store.py:128-139 | one hit per stored id, scored by the similarity |
| VectorStore.VectorStore.ScanFallback | knowledge_base/vector_store.py:128-139 | the scan over the stored keys yields exactly the qualifying hits, in key order |
| VectorStore.VectorStore.SearchFallback | knowledge_base/vector_store.py:120-143 | without fallback storage the result is empty; otherwise it is the qualifying hits sorted by descending score and cut to `limit`; every hit is stored, meets the threshold and carries its own score and document; ids are distinct; no qualifying document left out scores above one that was returned |
| VectorStore.VectorStore.ResultsQualify | knowledge_base/vector_store.py:134-143 | a sorted, truncated result is sorted, thresholded, faithful to the store and free of duplicate ids |
| VectorStore.VectorStore.ResultsTopK | knowledge_base/vector_store.py:141-143 | the result is a top-k: every qualifying id not returned scores at most every returned hit |
| WebSearch.AnyIn | mcp/web_search_mcp.py:58 | true iff some keyword occurs in the text |
| WebSearch.EnhanceMathQuery | mcp/web_search_mcp.py:49-63 | a query that already names a math keyword is returned unchanged; any other query gets " mathematics step by step solution" appended |
| WebSearch.EnhanceIdempotent | mcp/web_search_mcp.py:49-63 | enhancing twice is enhancing once |
| WebSearch.EnhancedMentionsKeyword | mcp/web_search_mcp.py:56-63 | an enhanced query always names a math keyword and starts with the original query |
| WebSearch.KeywordsLower | mcp/web_search_mcp.py:51-58 | the keywords are written in lower case, so lower-casing leaves each of them unchanged |
| WebSearch.KeywordKept | mcp/web_search_mcp.py:51-63 | any query that contains a math keyword passes through unchanged |
| WebSearch.MentionsMathematics | mcp/web_search_mcp.py:52-63 | any query that contains "mathematics" passes through unchanged |
| WebSearch.IsMathRelated | mcp/web_search_mcp.py:65-74 | true iff the lower-cased content contains one of the fifteen math indicators |
| WebSearch.Normalize | mcp/web_search_mcp.py:35-41 | a raw result becomes a "tavily" result, with a missing content read as "" and a missing score as 0.0 |
| WebSearch.FilterResults | mcp/web_search_mcp.py:32-43 | the loop computes exactly the normalised math-related results, in order |
| WebSearch.ProcessedFacts | mcp/web_search_mcp.py:33-41 | every processed result comes from "tavily" and is math-related; every math-related raw result is kept; order is preserved |
| WebSearch.ExplanationQueryUnchanged | mcp/web_search_mcp.py:100 | the explanation query already names mathematics, so enhancement leaves it as is |
| WebSearch.VerificationQueryUnchanged | mcp/web_search_mcp.py:133 | the verification query already names a keyword, so enhancement leaves it as is |
| WebSearch.Contents | mcp/web_search_mcp.py:110-111 | the contents of the results, in order |
| WebSearch.Sources | mcp/web_search_mcp.py:112-115 | the (title, url) of every result, in order |
| WebSearch.GetMathExplanation | mcp/web_search_mcp.py:96-127 | none iff the search failed or found nothing; otherwise topic, difficulty, the contents joined by blanks, the sources, and confidence min(1, 0.3n) |
| WebSearch.ExplanationFacts | mcp/web_search_mcp.py:120-122 | every result's content occurs in the combined explanation; the confidence is in (0,1] and reaches 1 iff there are at least four results |
| WebSearch.SnippetOf | mcp/web_search_mcp.py:143-147 | a snippet is the first 200 characters of the content followed by "...", with the result's title and url |
| WebSearch.VerifyMathSolution | mcp/web_search_mcp.py:129-161 | a failed search gives (false, 0, []); otherwise confidence is min(0.3·s, 1) for s supporting results, verified iff s ≥ 2, with one snippet per supporting result |
| GeminiClient.CreateMathPrompt | llm/gemini_client.py:36-55 | the prompt starts with the header, the question and the instructions, and contains the question and the context; without context it is exactly the template without a context section |
| GeminiClient.PromptDeterminesQuestion | llm/gemini_client.py:36-55 | the prompt determines the question: equal prompts with one context have equal questions |
| GeminiClient.GenerateMathResponse | llm/gemini_client.py:16-34 | the result is successful iff the model replied; success carries the reply and confidence 0.8; failure carries the error and neither response nor confidence; the model is always "gemini-pro" |
| GeminiClient.DigitsInAll | llm/gemini_client.py:174-175 | a range is a run of digits iff every character in it is a digit |
| GeminiClient.SpacesInAll | llm/gemini_client.py:174-177 | a range is a run of whitespace iff every character in it is whitespace |
| GeminiClient.SkipDigits | llm/gemini_client.py:174-175 | the greedy `\d+`: everything skipped is a digit, and the scan stops at the end or at a non-digit |
| GeminiClient.SkipSpaces | llm/gemini_client.py:174-177 | the greedy `\s*`: everything skipped is whitespace, and the scan stops at the end or at a visible character |
| GeminiClient.NumberEnd | llm/gemini_client.py:174-175 | a number starting at a digit ends strictly after it and within the line |
| GeminiClient.NumberEndCut | llm/gemini_client.py:174-175 | the scan matches `\d+[sep]?\s*` greedily: digits, then an optional separator, then whitespace up to a visible character or the end |
| GeminiClient.NumberCutUnique | llm/gemini_client.py:174-175 | two greedy matches of `\d+[sep]?\s*` at one position end their digits at the same place and end at the same place |
| GeminiClient.DropNumber | llm/gemini_client.py:175 | a line that does not start with a digit is unchanged, and the result is never longer than the line |
| GeminiClient.DropNumberCut | llm/gemini_client.py:175 | `re.sub(r'^\d+\.?\s*', '', line)`: the result is a suffix of the line; for a line starting with a digit, the removed prefix is exactly the greedy match of digits, an optional dot and whitespace |
| GeminiClient.StepWordPrefix | llm/gemini_client.py:173-176 | the character test for "Step" agrees with `startswith('Step')` |
| GeminiClient.DropStepLabel | llm/gemini_client.py:176 | a line the label pattern does not match is unchanged, and the result is never longer than the line |
| GeminiClient.DropStepLabelCut | llm/gemini_client.py:176 | `re.sub(r'^Step\s+\d+[:\-]?\s*', '', s)`: the result is a suffix; when "Step", at least one blank and a digit begin the line, the removed prefix is exactly "Step", the blanks, the number, an optional ':' or '-', and the whitespace after it |
| GeminiClient.DropDash | llm/gemini_client.py:177 | a line that does not start with '-' is unchanged, and the result is never longer than the line |
| GeminiClient.DropDashCut | llm/gemini_client.py:177 | `re.sub(r'^-\s*', '', s)`: the result is a suffix; after a leading '-', the removed prefix is the dash and the whitespace after it, and the rest starts visibly |
| GeminiClient.StepOf | llm/gemini_client.py:171-179 | a line yields a step iff, stripped, it starts with a digit, "Step" or '-' and its cleaned form is non-empty; the step is that cleaned form |
| GeminiClient.StepsOfAppend | llm/gemini_client.py:170-179 | step extraction distributes over concatenation, so steps keep the order of their lines |
| GeminiClient.StepsOfFacts | llm/gemini_client.py:170-179 | at most one step per line; every step is non-empty and comes from some line; every line that yields a step contributes it |
| GeminiClient.CleanStep | llm/gemini_client.py:174-177 | the three substitutions applied in the source's order never lengthen the line |
| GeminiClient.ParseStepLines | llm/gemini_client.py:170-179 | the line loop computes StepsOf: each stripped step line is cleaned and kept when non-empty |
| GeminiClient.ExtractSolutionSteps | llm/gemini_client.py:151-184 | computes ExtractedSteps, which is never empty: the steps found, else the not-identified line, else the error line |
| GeminiClient.ExtractFinalAnswer | llm/gemini_client.py:186-206 | a failed reply gives the not-identified answer; otherwise the answer is the reply stripped: a slice of it with no whitespace at either end, and only whitespace outside it |
| GeminiClient.GenerateWebSearchQuery | llm/gemini_client.py:126-149 | a failed reply gives the question plus the enhancement suffix; otherwise the query is the reply stripped |
| GeminiClient.FallbackQueryIsEnhancement | llm/gemini_client.py:147-149 | for a question without math keywords, the fallback query equals the web searcher's enhancement and is itself left unchanged by it |
| GeminiClient.ParseDecimal | llm/gemini_client.py:114 | `float` of `[0-9.]+`: digit strings read as their value, more than one dot is an error, and values are non-negative |
| GeminiClient.DigitsValueAppend | llm/gemini_client.py:114 | reading digits `a + b` is reading `a` shifted by ten to the length of `b`, plus reading `b` |
| GeminiClient.DecimalQuotient | llm/gemini_client.py:114 | a whole part plus a fraction over `m` equals the combined numerator over `m` |
| GeminiClient.CastProduct | llm/gemini_client.py:114 | converting a product of naturals to a real is the product of the conversions |
| GeminiClient.ParseDecimalValue | llm/gemini_client.py:114 | for `p.q` with digits on both sides of the one dot (one side may be empty), `float` gives the integer spelled by `p + q` divided by ten to the length of `q` |
| GeminiClient.ParseDecimalNeedsDigit | llm/gemini_client.py:114 | a text without any digit ("", ".") is a `float` error |
| GeminiClient.FirstMalformed | llm/gemini_client.py:110-114 | the index of the first metric whose match does not parse: earlier metrics are fine, and that one is malformed |
| GeminiClient.ParseEvaluation | llm/gemini_client.py:95-124 | five scores that all default to 0.5, each set from its match, up to the first unparsable one; the explanation comes from its match, or is the float error, or is "Evaluation parsing failed" |
| GeminiClient.WholeNumberRead | llm/gemini_client.py:111-114 | a metric written as a whole number n reads as n |
| Feedback.FeedbackCollector.constructor | feedback/dspy_feedback.py:26-29 | the collector starts from the loaded history |
| Feedback.FeedbackCollector.CollectFeedback | feedback/dspy_feedback.py:31-52 | the feedback is appended to the history; the receipt's id is the new history length, with status "collected" and the rating and timestamp |
| Feedback.IntMean | feedback/dspy_feedback.py:62 | the mean times the count equals the sum |
| Feedback.FeedbackCollector.Summary | feedback/dspy_feedback.py:54-71 | empty history gives (0, 0.0) and no details; otherwise the count, the mean rating, the count of each rating from 1 to 5, and the last min(5, n) entries |
| Feedback.OutOfScale | feedback/dspy_feedback.py:63-69 | zero iff every rating lies in 1..5 |
| Feedback.DistributionCoversAll | feedback/dspy_feedback.py:63-69 | the five counts add up to the number of ratings iff every rating lies in 1..5 |
| Feedback.Normalize | feedback/dspy_feedback.py:188-190 | scores in [0,1] are kept, (1,10] is divided by 10, and anything else is clamped into [0,1] |
| Feedback.ExtractScore | feedback/dspy_feedback.py:172-195 | with no pattern matching the score is 0.5; otherwise it is the normalised value of the first matching pattern; it always lies in [0,1] |
| Feedback.IdentifyImprovements | feedback/dspy_feedback.py:197-213 | at most the four tags, in the source's order, without repeats |
| Feedback.IdentifyImprovementsRules | feedback/dspy_feedback.py:201-211 | each tag is present iff both of its words occur in the lower-cased text |
| Feedback.FiredTags | feedback/dspy_feedback.py:199-213 | a tag is reported iff some rule with that tag fires |
| Feedback.FiredTagsOrdered | feedback/dspy_feedback.py:199-213 | with distinct tags, the fired tags keep the rule order and are distinct |
| Feedback.EvaluateResponse | feedback/dspy_feedback.py:134-170 | the evaluator's failure gives the fixed 0.5 evaluation tagged "evaluation_error"; otherwise the three scores are extracted from the evaluator text (or the fallback text), the overall score is their mean, and the tags come from that text; every score lies in [0,1] |
| Feedback.GenerateImprovements | feedback/dspy_feedback.py:258-291 | each of the eight suggestions is present iff its own condition holds (rating ≤ 2; accuracy, clarity or completeness below 0.7; "confusing", "incomplete" or "wrong" in the comments) |
| Feedback.SuggestionNamesDistinct | feedback/dspy_feedback.py:267-289 | the eight suggestion strings are pairwise distinct, so a set of suggestions is a set of distinct strings |
| Feedback.BumpFacts | feedback/dspy_feedback.py:311 | one increment keeps keys distinct and raises the count of exactly that key by one |
| Feedback.TallyFacts | feedback/dspy_feedback.py:309-311 | the tally has distinct keys, and each key's count is its number of occurrences |
| Feedback.CountImprovements | feedback/dspy_feedback.py:309-311 | the loop builds the tally: distinct keys, each counted by its occurrences |
| Feedback.RecentTrend | feedback/dspy_feedback.py:323-344 | fewer than six ratings give insufficient data; otherwise it compares the mean of the last five with the mean of the older ones, improving iff the recent mean is larger iff the change is positive |
| Feedback.SteadyRatingsDecline | feedback/dspy_feedback.py:337 | a constant rating sequence reports "declining" with zero change, because only a strict increase counts as improving |
| Feedback.Mean | feedback/dspy_feedback.py:300-302 | the mean times the count equals the sum |
| Feedback.MeanOfUnits | feedback/dspy_feedback.py:300-302 | the mean of scores in [0,1] is in [0,1] |
| Feedback.LearningSystem.constructor | feedback/dspy_feedback.py:218-221 | a fresh collector over the loaded history, and no learning data |
| Feedback.LearningSystem.ProcessFeedback | feedback/dspy_feedback.py:223-256 | the feedback goes to the collector and one learning entry holding the evaluation is appended; the result has the receipt, the evaluation and the suggestions for that entry; every stored evaluation stays in [0,1] |
| Feedback.LearningSystem.AnalyzeRecentTrends | feedback/dspy_feedback.py:323-344 | the trend of the stored ratings, insufficient iff fewer than six entries |
| Feedback.LearningSystem.GetLearningInsights | feedback/dspy_feedback.py:293-321 | no data iff the message; otherwise the count, the mean rating, the three mean scores (each in [0,1]) and the trend; the common improvements are a descending top five, and empty when entries store no improvements |
| RoutingAgent.Complexity | agents/routing_agent.py:162-184 | the complexity lies in [0,1] |
| RoutingAgent.AssessQuestionComplexity | agents/routing_agent.py:162-184 | the loop computes Complexity: 0.2 per matching indicator plus `min(0.1·n, 0.3)` for n concept words, the total capped at 1 |
| RoutingAgent.ComplexityMonotone | agents/routing_agent.py:176-184 | more matching indicators and more concept words never lower the complexity |
| RoutingAgent.ThreeIndicatorsAreComplex | agents/routing_agent.py:176-178 | three matching indicators already make a question complex (≥ 0.6) |
| RoutingAgent.RouteFor | agents/routing_agent.py:125-160 | never rejects; the knowledge base is chosen iff its hits qualify, and then the data is the non-empty hit list |
| RoutingAgent.MakeRoutingDecision | agents/routing_agent.py:125-160 | computes RouteFor;  never rejects; the knowledge base is chosen iff its best score exceeds 0.8, or exceeds 0.5 with complexity below 0.6, with that score as confidence and the hits as data; otherwise web search with confidence 0.7 |
| RoutingAgent.ThresholdedHitsRoute | agents/routing_agent.py:129-160 | with the store's 0.7 threshold, a non-empty search goes to the web iff its best score is at most 0.8 and the question is complex |
| RoutingAgent.KbSteps | agents/routing_agent.py:199-201 | no "solution_steps" gives []; a stored list is returned as it is; a string is split on newlines, so the steps join back to it |
| RoutingAgent.GenerateKbResponse | agents/routing_agent.py:194-212 | the response takes answer, steps and explanation from the best hit, with source "knowledge_base", the routing confidence and the session |
| RoutingAgent.DatasetRecordsHaveNoSteps | agents/routing_agent.py:196-207 | for the dataset's own records the knowledge-base response has no steps, because `to_dict` stores the steps under "solution" |
| RoutingAgent.FindAll | agents/routing_agent.py:290-292 | the loop collects every pattern's matches, pattern by pattern |
| RoutingAgent.FallbackSteps | agents/routing_agent.py:273-303 | at most ten steps: the first ten matches found, or the generic steps when nothing matched |
| RoutingAgent.ExtractSolutionSteps | agents/routing_agent.py:273-303 | the loops compute FallbackSteps |
| RoutingAgent.ExtractFinalAnswer | agents/routing_agent.py:305-324 | the stripped first match of the first matching answer pattern, or the no-answer message when none matches |
| RoutingAgent.FallbackExplanation | agents/routing_agent.py:326-352 | the default explanation when nothing matched; otherwise exactly the first three matches (or fewer, if fewer matched) joined by blanks, so it contains each of them |
| RoutingAgent.GenerateExplanation | agents/routing_agent.py:326-352 | the loops compute FallbackExplanation |
| RoutingAgent.GenerateWebResponse | agents/routing_agent.py:214-271 | the helper methods compute WebResponse |
| RoutingAgent.WebResponse | agents/routing_agent.py:214-271 | no web results give the apology with confidence 0; a Gemini answer is post-processed by Gemini's extractors with confidence 0.8; otherwise the regex fallbacks with confidence min(0.8, 0.2n); confidence always lies in [0,0.8] |
| RoutingAgent.SessionIdDeterminesCounter | agents/routing_agent.py:51-54 | session ids with different counters differ, whatever their timestamps |
| RoutingAgent.GenerateResponse | agents/routing_agent.py:186-192 | dispatches on the decision: knowledge-base routing gives GenerateKbResponse, any other decision gives WebResponse; the source matches the route |
| RoutingAgent.Respond | agents/routing_agent.py:186-192 | the response of the named source carries the question and the session, names that source, and a knowledge-base response keeps the routing confidence |
| RoutingAgent.GuardResponse | agents/routing_agent.py:86-91 | Guarded: a response too long or inappropriate is kept as built, with its one warning and educational value 0; otherwise its answer becomes the sanitised text unless that is empty, with the missing-element and math-content warnings and the educational value of that text |
| RoutingAgent.AnsweredFacts | agents/routing_agent.py:71-116 | an answered outcome never rejects, uses the knowledge base iff its hits qualify, names the route's source, keeps the session and question, has an educational value in [0,1], and a knowledge-base answer carries the best hit's score |
| RoutingAgent.RouteAndAnswer | agents/routing_agent.py:71-116 | AnsweredWith: the routing is RouteFor of the hits, and the response, output warnings and educational value are what the output guardrails make of the response of that source (Guarded); hence never rejected, with the route's source, the session id and an educational value in [0,1] |
| RoutingAgent.MathRoutingAgent.constructor | agents/routing_agent.py:42-49 | the session counter starts at 0 |
| RoutingAgent.MathRoutingAgent.GenerateSessionId | agents/routing_agent.py:51-54 | the counter increases by one and the id embeds the new counter and the timestamp |
| RoutingAgent.MathRoutingAgent.ProcessQuestion | agents/routing_agent.py:56-116 | every call consumes one session id; the input is refused iff the input guardrail rejects it, with that guardrail's one warning; an accepted question is answered as RouteAndAnswer states (AnsweredWith, with the new session id), its input warnings are the topic warnings of the sanitised question or the not-mathematical warning, and a knowledge-base answer keeps the best hit's score as confidence |
| Text.NatToStringInjective | agents/routing_agent.py:54 | distinct counters print as distinct decimal strings |

## Left out

- I/O, async and concurrency: every `await` is read as a plain call, and `print` diagnostics are dropped.
- Clock: timestamps (`datetime.now()`) are inputs.
- Python floats are modelled as exact reals, so there is no rounding.
- Qdrant, the sentence-transformer model, Tavily, Gemini and DSPy are not modelled. Their answers are inputs: database reachability, an embedding function, a similarity function, a search result and a model reply.
- Cosine similarity via numpy is a parameter. Its value is not computed.
- `add_documents`, `search`, `populate_knowledge_base` and `get_collection_info` (knowledge_base/vector_store.py:54-81, 91-118, 145-165) are the Qdrant paths and are left out. Search results reach the routing agent as an input.
- `_fallback_search` (mcp/web_search_mcp.py:76-94) posts to an MCP server, so it is left out. A failed Tavily search is the `Failure` case of the search input.
- `evaluate_response_quality` (llm/gemini_client.py:57-93) only builds a prompt and calls Gemini. Its parsing step is modelled as `GeminiClient.ParseEvaluation`.
- The prompts sent to Gemini for steps, answer and query are not modelled: only the reply is. `CreateMathPrompt` is modelled.
- The JSON load and save of the feedback history (feedback/dspy_feedback.py:73-123) is file I/O. The loaded history is a constructor input.
- `close()` in routing_agent and web_search_mcp only releases HTTP clients.
- The `collect_feedback` placeholder and the `get_learning_insights` delegation (agents/routing_agent.py:354-366) return constant dictionaries or forward to the learning system, so they are left out.
- `AddToFallback` embeds each whole document through the `embed` parameter. The model therefore does not choose the "content" field itself, or question + explanation when that field is absent.
- `MathDataset.MathDataset.AllProblems`: `get_all_problems` returns the list object itself. The model returns its value, so aliasing is not modelled.
- The REJECT branch of `process_question` (agents/routing_agent.py:74-80) is unreachable: `_make_routing_decision` never returns REJECT, and `RoutingAgent.MakeRoutingDecision` proves that. The branch is therefore not modelled.
- The "Processing failed" exception path of `process_question` (agents/routing_agent.py:118-123) is not modelled. In the model no operation raises.
- `RoutingAgent.GenerateKbResponse`: an answer or explanation field that is not a string is read as "", where Python would pass the value through.
- `GeminiClient.CleanStep`: it is the composition of the three substitutions, each specified on its own by `DropNumberCut`, `DropStepLabelCut` and `DropDashCut`. That the whole composition is a suffix of the line is not proved as one lemma; its own contract states only that cleaning never lengthens a line.
- `Collections.SortDesc`: Python's `sorted` is stable; the model does not state stability, only the order and that the result is a permutation.
- `Feedback.LearningSystem.GetLearningInsights`: no learning entry ever stores an "improvements" key, so the common improvements are always empty and the contract says so. The top five tally is modelled but always applies to [].
- `InputGuardrails`, `OutputGuardrails` and `GeminiClient`: `re.IGNORECASE`, `re.DOTALL` and other regex semantics belong to the engine parameter, and are not re-derived from the pattern text.
- `Text.Lower` and `Text.IsDigit` are ASCII only. Python's `lower`, `isdigit` and `\d` also accept non-ASCII letters and digits.
- `GeminiClient.ParseDecimal` reads only the `[0-9.]+` strings that the patterns capture. Strings like "." or "1." follow Python's `float`, but exponents cannot occur.
