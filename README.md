# GPU Mentor core, modelled in Dafny

The model covers the string-processing core of the `GPUMentor` class of the GPU Mentor
assistant. `App/gpu_mentor.py` is the class that sits between the user interface, a
retrieval-augmented answering agent, a code optimiser and a benchmark service. The
modelled parts are:

- the query it composes from a question and a piece of code, and the structured prompt of
  the single-shot code analysis (`prompt.dfy`, module `Prompt`);
- the parser that splits the model's reply into analysis text and optimised code, with its
  line-scanning fallback (`parser.dfy`, module `ResponseParser`);
- the extraction of an execution time from benchmark output. Times are kept as the digits
  that were written, never as floats (`timing.dfy`, module `Timing`);
- the fixed-shape execution report (`report.dfy`, module `Report`);
- the comparison glue: blank-input guards, status mapping, and replacing a missing or zero
  time with 0.001 (`comparison.dfy`, module `Comparison`);
- the Socratic questions and learning objectives (`learning.dfy`, module `Learning`);
- the mentor object itself. It records each fully answered interaction in its conversation
  history, and its chat entry point appends a user/assistant pair to the caller's chat
  history (`mentor.dfy`, module `Mentor`).

`text.dfy` (module `Text`) gives Python's string operations a meaning on `seq<char>`:

- `in`, `find`, `startswith`, `strip` (with the full `str.isspace` set), and `split`/`join`
  on one character;
- `Select`: the sub-list a filtering loop appends in order.

## Modelling decisions

- **Collaborators are parameters.** The answering agent, the code optimiser, the benchmark
  service (`run_benchmark` followed by `format_execution_result`), the chat formatter and
  the float renderer (`:.4f`) all enter as function-typed parameters.
- **Exceptions are results.** A collaborator that can raise returns
  `Outcome<T> = Returned(value) | Raised(message)`. This holds for the collaborators that
  the source calls inside a `try` block. The chat formatter and the agent's clear request are
  called outside one, and the model takes them not to raise (see "## Left out").
- **Loops are methods.** Code that builds lists step by step becomes a `method` proved equal
  to a specification function. Examples: the fallback line scan, the performance-line
  filter, the report assembly, and the question and objective lists. The lemmas state the
  properties about those functions.
- **Mutated state is a class.** The mentor's `conversation_history` and the caller's chat
  history are fields of classes, updated in place by the methods that mutate them.
- **Regular expressions.** The three regular expressions are modelled as leftmost-match
  searches:
  - `\d+\.\d+` is a greedy digit run, a point, and a greedy digit run;
  - `\s*` skips `str.isspace` characters;
  - `(.*?)` under DOTALL ends at the nearest closing fence.

Behaviours the model keeps as the code has them:

- Clearing the conversation memory asks the agent to forget. It leaves the mentor's own
  `conversation_history` untouched (`App/gpu_mentor.py:17-20`), although the method's name
  suggests otherwise. The model follows the code
  (`Mentor.GPUMentor.ClearConversationMemory`).
- An interaction with an empty question and empty code consults nobody but is still
  recorded (`Mentor.EmptyInputRecorded`).
- The chat entry point tests `strip()`, but `process_user_input` tests plain truthiness. A
  whitespace-only message next to code is therefore sent as the question of the
  question-and-code prompt.
- The program output uses the first end marker. An end marker written before the start
  marker hides the output even when another end marker follows.
- `_extract_execution_time` is not called inside `App/gpu_mentor.py`. The comparison takes
  its times from the benchmark service. It is modelled as its own operation.

## Model

| member | source | states |
|---|---|---|
| Prompt.ComposeQuery | App/gpu_mentor.py:40-75 | Without code, the query is the question unchanged. With both, it begins with "Question: " and the question. With code only, it begins with the code-only template. |
| Prompt.QueryEmbedsCode | App/gpu_mentor.py:41-70 | With code present, the query contains the code verbatim between "```python\n" and "\n```". |
| Prompt.QueryEmbedsQuestion | App/gpu_mentor.py:41-58 | With both present, the query contains "Question: " followed by the question. |
| Prompt.ChatUserContent | App/gpu_mentor.py:110-112 | The chat's user message begins with the message when that is not blank, and with the fixed analysis request otherwise. |
| Prompt.ChatContentEndsWithCode | App/gpu_mentor.py:110-112 | Non-blank code ends the chat message, fenced. Blank code leaves it as the message or the fixed request. |
| Prompt.AnalysisPrompt | App/gpu_mentor.py:169-209 | The analysis prompt contains the code verbatim in a python fence. |
| ResponseParser.SecondPiece | App/gpu_mentor.py:403-409 | `split(sep)[1]` is the slice right after the first separator. It runs to the next separator or the end, with no separator inside. |
| ResponseParser.FirstPythonBlock | App/gpu_mentor.py:413-418 | The first block starts at the first opening fence and ends at the nearest closing fence after it. |
| ResponseParser.NoBlockMeansNoMatch | App/gpu_mentor.py:413-417 | When no block is found, no opening fence anywhere is followed by a closing fence: the regular expression has no match. |
| ResponseParser.Parse | App/gpu_mentor.py:403-438 | Without the code header, the result is exactly (response, ""). |
| ResponseParser.WithInsights | App/gpu_mentor.py:419-421 | Without the insights header in the section, the analysis is unchanged. With it, the analysis is followed by a blank line, the insights header and a newline, and ends with the stripped text after that header. |
| ResponseParser.AnalysisKeepsPreamble | App/gpu_mentor.py:406-421 | With the code header, the analysis starts with the stripped text before the first header. |
| ResponseParser.ParseLlmResponse | App/gpu_mentor.py:399-442 | The parser with its line-scan loop computes `Parse`. |
| ResponseParser.ExtractFallbackLines | App/gpu_mentor.py:424-433 | The loop that toggles the in-code flag and appends lines computes exactly `FallbackLines`. |
| ResponseParser.ParseTakesFirstBlock | App/gpu_mentor.py:415-421 | The code is the first block stripped. The analysis grows beyond the stripped prefix exactly when the insights header is in the section. |
| ResponseParser.ParseFallsBackToScan | App/gpu_mentor.py:422-435 | Without a block, the result is the stripped prefix and the stripped join of the scanned lines. |
| ResponseParser.BlockBetweenFences | App/gpu_mentor.py:413-416 | Given the first opening fence and the first closing fence after it, the block is the text between them. |
| ResponseParser.SectionAfterHeader | App/gpu_mentor.py:403-409 | If the text before the header holds no header and neither does the rest, the header is found right after that text and the section is the whole rest. |
| ResponseParser.BlockOfWellFormedSection | App/gpu_mentor.py:413-418 | Text, one python block, then more text yields exactly that block. |
| ResponseParser.ParseWellFormedReply | App/gpu_mentor.py:403-418 | For a reply laid out as the analysis prompt asks, the code is the block stripped and the analysis starts with the stripped text before the header. |
| ResponseParser.FallbackDropsFences | App/gpu_mentor.py:428-430 | No line that starts with a fence after stripping is ever emitted. |
| ResponseParser.FallbackKeepsOrder | App/gpu_mentor.py:427-432 | The emitted lines are exactly the kept lines, in their original order. |
| ResponseParser.FallbackOutsideFence | App/gpu_mentor.py:431-432 | Outside a fence, a line is emitted iff it is not a fence and is non-blank, does not start with "#", and contains "import", "=" or "def". |
| ResponseParser.InCodeUntilNextFence | App/gpu_mentor.py:428-430 | After an opening fence, the in-code flag stays set up to the next fence line. |
| ResponseParser.FallbackKeepsFencedLines | App/gpu_mentor.py:428-432 | Every line between an opening fence and the next fence line is emitted. |
| Timing.NumberAt | App/gpu_mentor.py:303 | A match of `\d+\.\d+` is digits, a point and digits, and both runs are maximal. When there is no match at a digit, the greedy run is not followed by a point and a digit. |
| Timing.CanonicalAt | App/gpu_mentor.py:303 | There is a canonical match at a position iff the CPU or GPU marker starts there and is followed by a number. The match yields that number. |
| Timing.SecondsAt | App/gpu_mentor.py:308 | There is a fallback match at a position iff a number, optional whitespace and "seconds" follow. The match yields that number. |
| Timing.FirstMatch | App/gpu_mentor.py:303-309 | The search returns the leftmost position where the pattern matches, and no position when none does. |
| Timing.ExtractExecutionTime | App/gpu_mentor.py:295-316 | Empty output gives no time. Any time returned is a well-formed `d+.d+` number. |
| Timing.CanonicalWins | App/gpu_mentor.py:303-305 | If a canonical marker matches anywhere, the result is the leftmost canonical match, whatever "seconds" matches exist. |
| Timing.SecondsFallback | App/gpu_mentor.py:307-310 | Without a canonical match, the result is the leftmost "<number> seconds" match. |
| Timing.SentinelOnlyWhenUnmatched | App/gpu_mentor.py:312-316 | With neither pattern matching, the result is 0.001 iff the text contains EXECUTION. The result is None iff nothing matches and EXECUTION is absent. |
| Timing.ExampleNumber | App/gpu_mentor.py:303 | The number in the benchmark's own timing line is read as 1.234000. |
| Timing.CanonicalExample | App/gpu_mentor.py:302-305 | The benchmark's line format "TOTAL CPU EXECUTION TIME: 1.234000 seconds (averaged over 5 runs)" yields 1.234000. |
| Timing.TimeOrSentinel | App/gpu_mentor.py:271 | A present non-zero time is kept unchanged. A missing or zero time becomes 0.001. The result is never zero. |
| Report.Title | App/gpu_mentor.py:336 | `title()` upper-cases each letter that starts a word and lower-cases the rest, keeping other characters and the length. |
| Report.FailedTitle | App/gpu_mentor.py:336 | The status "failed" is shown as "Failed". |
| Report.ProgramOutput | App/gpu_mentor.py:340-346 | Program output is non-empty only when both markers are present and the first end marker comes after the first start marker. |
| Report.ProgramOutputBetweenMarkers | App/gpu_mentor.py:341-346 | With the markers in order, the program output is the stripped text between them. |
| Report.FirstLineWith | App/gpu_mentor.py:385 | The fallback line is the first line containing the text, and there is none only when no line contains it. |
| Report.CollectPerformanceLines | App/gpu_mentor.py:360-378 | The elif-chain loop computes exactly the allow-listed lines. |
| Report.PerformanceExcerpt | App/gpu_mentor.py:380-388 | The excerpt is computed by the loop and its fallback as `Excerpt` specifies. |
| Report.BodySection | App/gpu_mentor.py:338-391 | The part list built after the status equals `BodyParts`: an empty line, the program-output block only when there is output, then the metrics block. |
| Report.StatusSection | App/gpu_mentor.py:331-336 | The status section is the completed line, plus a timing line when there is a time, or the title-cased status line. |
| Report.FormatExecutionResult | App/gpu_mentor.py:318-397 | The report built part by part equals `ExecutionReport`. An absent result gives the "No Results" text. |
| Report.ReportShape | App/gpu_mentor.py:328-395 | The header comes first, then the status line. The line after it is a timing line iff the status is "completed" and a time is present. The last line is the note iff the status is not "completed". |
| Report.NoTimingLineWithoutTime | App/gpu_mentor.py:331-336 | Without a time, neither line after the header is a timing line. |
| Report.PerformanceLinesExact | App/gpu_mentor.py:360-378 | The excerpt is exactly the allow-listed stdout lines, in their original order. |
| Report.PerformanceLinesAllowed | App/gpu_mentor.py:364-378 | Every excerpt line is on the allow-list. |
| Report.ExcerptFallback | App/gpu_mentor.py:382-388 | When no line is allow-listed, the excerpt is the first line containing "EXECUTION TIME", or "No timing information available." when there is none. |
| Comparison.SideRecord | App/gpu_mentor.py:265-272 | The status is "completed" iff the side's status is "Success" and "failed" otherwise. The stdout is passed through. The time is always present and never zero: the reported time when that is present and non-zero, 0.001 otherwise. |
| Comparison.RunCodeComparison | App/gpu_mentor.py:247-293 | The method's two reports equal `Compare`. |
| Comparison.GuardsSkipBackend | App/gpu_mentor.py:249-253 | A blank original, or a blank optimised code, returns the fixed guidance pair, whatever the benchmark service would do. |
| Comparison.ErrorOnBothSides | App/gpu_mentor.py:288-293 | A failing benchmark service gives the same "Error running code comparison: " text, with its message, on both sides. |
| Comparison.SuccessShowsNonZeroTime | App/gpu_mentor.py:265-273 | A successful side is reported as completed, with no failure note and a timing line. The line shows the reported time when that is present and non-zero, and 0.001 otherwise. |
| Comparison.FailureShowsNote | App/gpu_mentor.py:276-284 | A side that did not succeed is shown as "Failed", with no timing line, and ends with the note. |
| Comparison.ReportsFollowSides | App/gpu_mentor.py:259-286 | The two reports are the formatter's reports of the CPU side and the GPU side, under their own labels. |
| Learning.SpeedupQuestions | App/gpu_mentor.py:563-566 | An estimate above 5 or below 2 adds exactly one question. Any other estimate adds none. |
| Learning.CandidateCount | App/gpu_mentor.py:542-566 | The candidate count is 3·[numpy] + 3·[pandas] + [loop] + [def] + [speedup outside 2..5]. |
| Learning.GenerateSocraticQuestions | App/gpu_mentor.py:534-568 | The list grown rule by rule and cut to three is `SocraticQuestions`: the first min(3, n) candidates in rule order. |
| Learning.SocraticQuestions | App/gpu_mentor.py:568 | At most three questions, and they are a prefix of the candidate list. |
| Learning.NumpyQuestionsFirst | App/gpu_mentor.py:542-547 | With numpy detected, the three numpy questions are exactly the result. |
| Learning.PandasQuestionsNext | App/gpu_mentor.py:549-554 | With pandas but not numpy, the three pandas questions are exactly the result. |
| Learning.NoLibraryQuestions | App/gpu_mentor.py:556-568 | Without either library, every firing rule is heard, in the order loop, function, speedup. |
| Learning.SpeedupQuestionBands | App/gpu_mentor.py:563-566 | Estimates in [2, 5] add no question, above 5 the high-potential one, below 2 the low-benefit one. |
| Learning.GenerateLearningObjectives | App/gpu_mentor.py:570-597 | The objectives list grown rule by rule is `LearningObjectives`. |
| Learning.ObjectivesLength | App/gpu_mentor.py:576-597 | The length is 3·[numpy] + 3·[pandas] + ["for " in code] + ["def " in code]. The list is never truncated. |
| Learning.ObjectivesComplete | App/gpu_mentor.py:576-597 | Each firing rule contributes all its objectives. The numpy ones come first, and the function one comes last when it fires. |
| Mentor.RecordedIffNoneRaised | App/gpu_mentor.py:38-100 | An interaction is recorded iff no collaborator raised. Otherwise its response starts with "Error processing request: ". |
| Mentor.RespondEchoesInputs | App/gpu_mentor.py:26-36 | Every response carries its timestamp, question and code. |
| Mentor.QuestionOnly | App/gpu_mentor.py:40-77 | A question without code is sent unchanged, is recorded iff the agent answers, and leaves every code field empty. |
| Mentor.EmptyInputRecorded | App/gpu_mentor.py:40-97 | Empty question and code consult nobody, and the empty interaction is still recorded. |
| Mentor.RecordedWithCode | App/gpu_mentor.py:77-94 | A recorded interaction with code carries the agent's answer, the analysis, the optimised code, the execution output, at most three questions and the objectives. The questions and objectives come from that analysis. |
| Mentor.ChatTurnShape | App/gpu_mentor.py:104-125 | A chat turn adds nothing iff message and code are both blank. Otherwise it adds exactly a user message then an assistant message, and the user message holds non-blank code fenced. |
| Mentor.GPUMentor.constructor | App/gpu_mentor.py:11-15 | A new mentor has an empty conversation history and no execution results. |
| Mentor.GPUMentor.ClearConversationMemory | App/gpu_mentor.py:17-20 | The agent receives one clear request. The conversation history is unchanged. |
| Mentor.GPUMentor.ProcessUserInput | App/gpu_mentor.py:22-102 | The response is `Respond`'s. The history grows by exactly that response when it is recorded and is otherwise unchanged. |
| Mentor.GPUMentor.ChatInterface | App/gpu_mentor.py:104-127 | A blank turn changes neither history. Otherwise the caller's history grows by the turn's two messages and the conversation history by the recorded response. Both input boxes come back empty. |
| Mentor.AnswerToResult | App/gpu_mentor.py:225-245 | A failing service gives "Error analyzing code: " and its message, with no code. A missing or blank answer gives the no-response text, with no code. Any other answer gives the parser's analysis and code. |
| Mentor.AnalyzeCodeOnly | App/gpu_mentor.py:160-245 | Blank code is refused with fixed text, whatever the service would answer. Other code is answered from the service's reply to the analysis prompt. |
| Mentor.CodeOnlyFromHeader | App/gpu_mentor.py:225-235 | Code comes back only from an answer that contains the optimized-code header. |

## Left out

- Floating point. Times are digit strings. The `:.4f` and `:.1f` renderings are an opaque
  `render` parameter, and "zero" is read off the digits.
- `\d` is modelled as ASCII digits only, where Python also accepts other Unicode decimal
  digits.
- Report.Title: models `str.title()` for ASCII letters only. Other cased letters are kept
  unchanged, and they do not count as the start of a word. In Python `"éa".title()` is
  `"Éa"`, but the model gives `"éA"`.
- `_format_chat_response` (App/gpu_mentor.py:129-158) enters the chat as an opaque
  `formatChat` parameter. Its bullets depend on float rendering and on executor output.
- Mentor.GPUMentor.ChatInterface: `formatChat` is assumed not to raise. In the source, a
  raise at App/gpu_mentor.py:118 escapes `chat_interface` with no handler. The conversation
  history has then already grown, and the caller's history is left unchanged. The model does
  not capture that partial update. The formatter can raise, for example, at line 149 when a
  successful execution reports `execution_time` as None.
- Mentor.GPUMentor.ClearConversationMemory: the agent's clear request (App/gpu_mentor.py:19)
  is assumed not to raise. The source has no handler around it.
- `_format_analysis_results` and `_format_analysis_results_with_llm`
  (App/gpu_mentor.py:444-532) are not modelled. Their content comes from the opaque
  executor.
- `get_tutorial_content` and `get_execution_summary` (App/gpu_mentor.py:599-629) are not
  modelled. The first is fixed text. The second is a floating-point average.
- The connection test inside `analyze_code_only` (App/gpu_mentor.py:214-222) is not
  modelled. It catches its own errors, so it cannot change the result.
- Timestamps (`datetime.now()`) are a parameter. `print` and `traceback` output is not
  modelled.
- Learning.CodeAnalysis: only `libraries_detected` and `estimated_speedup` are kept. A
  missing entry takes the source's default; other analysis keys are not modelled.
- Mentor.CodeOutput: the executor's report is kept as a status and a stdout. Its other keys
  are not modelled.
- Mentor.Services: the answering agent and the code optimiser are opaque functions. A
  collaborator that returns a value of an unexpected type is not modelled.
- Comparison.SideResult: the benchmark service's raw and formatted results are merged into
  one record per side. The work directory passed to it is not modelled.
- Mentor.RagAgent: the agent's own memory is not modelled. Only the clear requests it
  receives are counted.
- `App/app.py` (user interface) and `App/launch.py` (installation and service probe) are not
  part of this model.
