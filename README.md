# Recruitment assistant: the logic layer, modelled in Dafny

The application has two Streamlit pages that drive a hosted language model.

- **Mock interview.** The candidate answers a question in a chat box. Each answer runs a small graph: `rating_node` asks the model for a 1–10 score. The conditional edge `rating_mode` routes a score below 7 (or any reply that is not an integer) to `model_answer_node` and 7 or more to `congratulation_node`. Either branch goes to `checking_node`, then END. After the graph, `run` asks the next question. Every turn appends to an append-only session log kept under `graph_state`.
- **CV analysis.** Once the CV and job requirements are uploaded and "Analyze" is pressed, a straight four-node pipeline runs over a log seeded with `[cv, requirements]`. It analyses the CV, analyses the requirements, asks for a two-line numeric comparison, parses it into a bar chart, and writes a model CV.

The model treats every language-model call as the parameter `llm: Prompt -> string`. A `Prompt` value records exactly which log entries the calling node interpolated; the fixed wording is not modelled. The modules are:

- `Wrappers`: `Option` and `Result`.
- `Strings`: Python's `str.strip()`, `str.split(c)`, `c.join(...)`, `int(text)` and `str(n)`, with their round trips.
- `Conversation`: the message record, the session store (class `SessionState`, which holds `graph_state` as `Option<seq<Message>>`), and the graph-local list that one invocation threads through its nodes (class `GraphState<T>`).
- `Interview`: the recruitment page.
  - The router `RatingMode`.
  - Each node as a pure `Step` and as an imperative method on the two lists.
  - A recursive `Walk` that specifies the graph, and the `Invoke` loop that runs it.
  - `Turn`, which specifies one chat submission, and `HandleInput`, which performs it.
- `CvAnalysis`: the CV page.
  - The comparison parser.
  - The pipeline as `Step`/`Walk` and as node methods driven by the `Invoke` loop.
  - The gate in `show`.

The model follows the code as written. Two reads in the code contradict their own docstring or prompt (see "## Findings"). For each, the model keeps the corrected read beside the as-written one and proves how the two differ:

- The interview graph takes a `Variant`. The page runs `AsWritten`, where `congratulation_node` reads `[-3]`. `Corrected` reads `[-2]`.
- The pipeline's skills node takes any reader `parse: Parser`. The page runs `ParseComparisonAsWritten`, which charts line 0 as 'You'. `ParseComparison` is the corrected reader.

Every graph-level proof follows one pattern. An imperative `Invoke` loop, with the invariant "nodes done + walk from here = whole walk", is proved equal to the recursive `Walk`. `Walk` is then proved equal to a straight-line reference (`RatingRound`, `Script`). Every read offset and every log length is stated in terms of that reference.

Behaviour of the code worth noting:

- **First turn.** It adds three session entries: the user's input, the greeting and the first question.
- **Later turns.** A later turn adds 5 entries on the congratulation path and 4 on the model-answer path. `model_answer_node` never writes to the session log, and `run` adds the next question.
- **Window size.** The weak-areas window of `checking_node` is the last 50 session entries.
- **Extra lines.** The comparison parser reads only the first two lines of the reply. Any further lines are ignored and do not cause an error.
- **Two kinds of whitespace.** `int()` skips only space and `\t`..`\r` around its digits. `strip()` also drops the separators `\x1c`..`\x1f`, which make `int()` raise.

## Model

| member | source | states |
|---|---|---|
| Conversation.SessionState.InitializeState | pages/recruitment_process_page.py:12-20 | creates an empty log only when none exists; an existing log is left unchanged |
| Conversation.SessionState.GetLastMessage | pages/recruitment_process_page.py:22-32 | `None` exactly when the log is empty, otherwise entry `[-2]`; a one-entry log is out of range |
| Conversation.SessionState.AddMessage | pages/recruitment_process_page.py:35-44 | the new log is the old log plus exactly one `{role, content}` record at the end |
| Conversation.SessionState.GetMessage | pages/recruitment_process_page.py:46-57 | the last entry when a log exists (an empty log is out of range), nothing when there is no log |
| Conversation.SessionState.GetLastMessages | pages/recruitment_process_page.py:69-80 | a suffix of the log of length min(50, n), the whole log when shorter, empty when there is no log; reads only |
| Conversation.RecentWindow | pages/recruitment_process_page.py:77 | `log[-50:]`: the last min(50, n) entries, each at its original position |
| Conversation.WindowSlides | pages/recruitment_process_page.py:77 | appending one message slides the window: it enters, and the oldest leaves once 50 are held |
| Conversation.GraphState.Append | pages/recruitment_process_page.py:165 | the graph-local list gains exactly one entry at its end |
| Strings.StripShape | pages/analyze_cv_page.py:151 | `strip()` keeps a contiguous slice of its input and drops only whitespace on either side |
| Strings.Strip | pages/analyze_cv_page.py:151 | `strip()` leaves no whitespace at either end and never lengthens its input |
| Strings.StripPadded | pages/analyze_cv_page.py:151 | `strip()` of whitespace + t + whitespace is t, for a non-empty t with no whitespace at its ends |
| Strings.JoinSplit | pages/analyze_cv_page.py:151-153 | joining the pieces of `split(c)` with c gives the text back |
| Strings.SplitJoin | pages/analyze_cv_page.py:151-153 | `split(c)` of a join recovers the pieces when none holds c |
| Strings.Split | pages/analyze_cv_page.py:151-153 | `split(c)` gives at least one piece, and no piece holds c |
| Strings.ParseShowInt | pages/recruitment_process_page.py:265 | `int(str(n)) == n` for every integer n |
| Strings.ParsePaddedInt | pages/recruitment_process_page.py:265 | `int` reads back a rendered integer whatever whitespace it skips (space, `\t`..`\r`) surrounds it |
| Strings.ParseInt | pages/recruitment_process_page.py:265 | `int(text)`: skip space and `\t`..`\r` at both ends, then one optional sign and at least one digit; anything else is `None` (a `ValueError`); no contract of its own, its properties are the lemmas on either side of this row |
| Strings.IntRejectsSeparator | pages/recruitment_process_page.py:265 | `int` skips less than `strip()`: `strip()` of "\x1c8" is "8", while `int("\x1c8")` raises |
| Interview.RatingMode | pages/recruitment_process_page.py:253-271 | the router only ever picks the model answer or the congratulation; no error escapes it |
| Interview.RatingModeCongratulates | pages/recruitment_process_page.py:262-271 | congratulates exactly when `int` reads the reply as 7 or more; any reply `int` rejects goes to the model answer |
| Interview.RatingOfScore | pages/recruitment_process_page.py:264-267 | a reply holding a score, padded with whitespace `int` skips, routes on that score against 7 |
| Interview.RatingExampleLow | pages/recruitment_process_page.py:265-266 | "5" routes to the model answer |
| Interview.RatingExampleHigh | pages/recruitment_process_page.py:265-267 | "8" routes to the congratulation |
| Interview.RatingExampleWord | pages/recruitment_process_page.py:268-271 | "seven" is no integer and routes to the model answer |
| Interview.RatingExampleSeparator | pages/recruitment_process_page.py:264-271 | "\x1c8" is no integer to `int` and routes to the model answer |
| Interview.Successor | pages/recruitment_process_page.py:280-284 | every edge lowers the rank; the rating node, and only it, leads to one of the two branches |
| Interview.CongratulationSubject | pages/recruitment_process_page.py:202 | the entry the congratulation's prompt carries: `[-3]` as written, `[-2]` corrected |
| Interview.Step | pages/recruitment_process_page.py:142-251 | each node appends one text entry to the graph-local list and keeps every earlier entry; each but the model answer appends one session message, and no node drops one; the successor's reads are in range |
| Interview.Walk | pages/recruitment_process_page.py:274-286 | an invocation runs at most rank-many nodes, one prompt each; the graph-local list grows by one per node |
| Interview.WalkFromRating | pages/recruitment_process_page.py:142-286 | the graph run from `rating_node` equals the straight-line rating round: rate `[-1]` against `[-2]`, the branch the rating picks, then the check |
| Interview.RatingRoundSession | pages/recruitment_process_page.py:142-251 | one round adds to the session log the rating, the praise on the congratulation branch only, then the analysis of the recent window, in that order |
| Interview.WalkFromBranch | pages/recruitment_process_page.py:168-251 | either branch, run on the list with the rating appended, equals the written-out second half: the model answer reads the question `[-3]`, the congratulation `[-3]` as written or `[-2]` corrected; only the congratulation writes the session log; the check analyses the recent window |
| Interview.ExactlyOneBranch | pages/recruitment_process_page.py:280-284 | the path is rating, exactly one of the two branches, then checking; the graph-local list grows by exactly 3 |
| Interview.BranchReadsIntended | pages/recruitment_process_page.py:168-216 | with the corrected read, in a graph run on [.., question, answer], the model answer's prompt carries the question and the congratulation's the answer |
| Interview.CongratulationAsWrittenMissesAnswer | pages/recruitment_process_page.py:202-207 | as written, in a graph run on the list a turn builds, [question record, answer], the congratulation's prompt carries the question record and never the answer |
| Interview.VariantsAgreeOnPath | pages/recruitment_process_page.py:168-216 | the as-written and corrected reads take the same path, send the same rating prompt, grow both lists alike, and agree wholly on the model-answer path |
| Interview.Turn | pages/recruitment_process_page.py:318-339 | one chat submission: nothing on empty input, the opening on an empty log, otherwise `Resume`; no contract of its own, its properties are `FirstTurn`, `LaterTurn`, `TurnGrowth`, `TurnKeepsLog` and `TurnEndsWithQuestion` |
| Interview.Resume | pages/recruitment_process_page.py:330-339 | a later submission: log the answer, run the as-written graph on [the entry before it as a record, the answer], then ask from the last session entry; no contract of its own, `LaterTurn` states it |
| Interview.FirstTurn | pages/recruitment_process_page.py:320-329 | the first submission on an empty log adds exactly the input, the greeting and a question built from the greeting, in that order, and runs no node |
| Interview.LaterTurn | pages/recruitment_process_page.py:330-339 | a later submission adds the answer, the rating, the praise only on the congratulation branch, the analysis of the recent window, then a question built from that analysis; the rating prompt carries the previous entry as the question, and so does the praise prompt, which reads `[-3]` |
| Interview.TurnGrowth | pages/recruitment_process_page.py:318-339 | the log grows by 0 on empty input, 3 on the first turn, 5 on the congratulation path and 4 on the model-answer path |
| Interview.TurnKeepsLog | pages/recruitment_process_page.py:318-339 | a turn only appends: the log it starts from is a prefix of the log after it |
| Interview.TurnEndsWithQuestion | pages/recruitment_process_page.py:313 | after every non-empty turn the log ends with a question built from the entry before it |
| Interview.Rate | pages/recruitment_process_page.py:142-166 | logs the rating of answer `[-1]` against question `[-2]` in both lists, as `Step` states |
| Interview.GiveModelAnswer | pages/recruitment_process_page.py:168-191 | appends a model answer to question `[-3]` to the graph-local list only; the session log is untouched |
| Interview.Congratulate | pages/recruitment_process_page.py:193-216 | praises what it reads at `[-3]` and logs the praise in both lists, as `Step` states for the as-written read |
| Interview.Check | pages/recruitment_process_page.py:218-251 | logs the analysis of the recent session window; the graph-local list gets the fixed question instruction |
| Interview.RunNode | pages/recruitment_process_page.py:274-286 | running node n leaves both lists exactly as `Step` states for the as-written read |
| Interview.Invoke | pages/recruitment_process_page.py:274-286 | running nodes from START until END leaves both lists and the path exactly as `Walk` describes |
| Interview.Run | pages/recruitment_process_page.py:289-314 | asks a question from the given conclusions and appends exactly that question to the session log |
| Interview.Stored | pages/recruitment_process_page.py:12-20 | the log a session store holds, a missing one read as the empty log `initialize_state` creates; no contract of its own, `HandleInput` and `FreshSession` state their outcome through it |
| Interview.Open | pages/recruitment_process_page.py:320-329 | the first submission leaves the session log as `Turn` states |
| Interview.Answer | pages/recruitment_process_page.py:330-339 | a later submission leaves the session log and the path as `Resume` states |
| Interview.HandleInput | pages/recruitment_process_page.py:318-339 | one submission, after `initialize_state`, leaves the log and path exactly as `Turn` states |
| Interview.FreshSession | pages/recruitment_process_page.py:12-20 | in a new session, whose store holds no log until `initialize_state` creates it, the first submission leaves the log `Turn` gives on an empty log, and runs no node |
| CvAnalysis.ParseTokens | pages/analyze_cv_page.py:152-153 | `map(int, tokens)` succeeds exactly when every token is an integer, with each token's value in order; otherwise it fails on a token `int` rejects |
| CvAnalysis.ParseTokensFailsFirst | pages/analyze_cv_page.py:152-153 | `map(int, tokens)` raises on the first token `int` rejects: every token before the reported one is an integer |
| CvAnalysis.ParseRow | pages/analyze_cv_page.py:152-153 | `list(map(int, line.split(",")))`: succeeds exactly when every comma-separated token is an integer, with their values in order |
| CvAnalysis.ReadRows | pages/analyze_cv_page.py:151-159 | the reads of `skills_node` in Python's order; success needs two lines and three values on each; no lines fails on line 0 |
| CvAnalysis.ParseComparisonAsWritten | pages/analyze_cv_page.py:151-159 | the reader as written, line 0 as 'You'; a success has one value per category in each series |
| CvAnalysis.ParseComparison | pages/analyze_cv_page.py:134-159 | the corrected reader, line 0 as the requirements, as the prompt asks; a success has one value per category in each series |
| CvAnalysis.Lines | pages/analyze_cv_page.py:151 | the stripped reply split on newlines has at least one line |
| CvAnalysis.ParseComparisonExactly | pages/analyze_cv_page.py:151-159 | a reply parses exactly when it has two lines whose comma-separated tokens are all integers, three per line; line 0 gives the requirements, line 1 the candidate |
| CvAnalysis.ExtraLinesIgnored | pages/analyze_cv_page.py:151-153 | lines after the second never change the outcome |
| CvAnalysis.OneLineFails | pages/analyze_cv_page.py:151-153 | a one-line reply always fails, on a bad token or on the missing second line |
| CvAnalysis.ParseRequestedReply | pages/analyze_cv_page.py:134-159 | the reply in the requested format (requirements line, then CV line) parses back to the comparison it renders |
| CvAnalysis.AsWrittenSwaps | pages/analyze_cv_page.py:151-158 | the as-written reader fails exactly when the corrected one does; on success it swaps the two series |
| CvAnalysis.AsWrittenSwapsRows | pages/analyze_cv_page.py:134-158 | on the requested reply, the as-written chart shows each series under the other's label; it differs from the intended chart whenever the two series differ |
| CvAnalysis.ExampleReply | pages/analyze_cv_page.py:141-143 | the comparison with requirements 1, 2, 5 and CV 4, 6, 3 renders as the prompt's example "1,2,5\n4,6,3" |
| CvAnalysis.AsWrittenExample | pages/analyze_cv_page.py:141-158 | on the prompt's own example, the as-written chart gives the candidate 1, 2, 5; the corrected one gives 4, 6, 3 |
| CvAnalysis.Successor | pages/analyze_cv_page.py:206-210 | the edges form one chain with no conditional edge, each lowering the rank by one |
| CvAnalysis.Step | pages/analyze_cv_page.py:61-196 | no node drops or changes an earlier log entry; the analyses and a successful skills step each append one entry; the model CV appends none; only the skills node fails, and then it leaves the log and display untouched |
| CvAnalysis.Walk | pages/analyze_cv_page.py:198-215 | a run visits at most rank-many nodes, one prompt each |
| CvAnalysis.Seed | pages/analyze_cv_page.py:212-213 | the log `app` starts from: the CV text, then the requirements text; no contract of its own, `PipelineOutcome` states the reads of it |
| CvAnalysis.Pipeline | pages/analyze_cv_page.py:212-214 | `graph.invoke` on the seeded log; no contract of its own, `PipelineIsScript`, `PipelineOutcome` and `PipelineCharts` state what it does |
| CvAnalysis.WalkFromSkills | pages/analyze_cv_page.py:122-196 | from the skills node on: parse `[-1]`/`[-2]`'s comparison; on failure stop; on success chart it, append the reply, then the model CV from `[-2]` and `[0]` |
| CvAnalysis.PipelineIsScript | pages/analyze_cv_page.py:198-215 | the whole run equals the straight-line script: analyse the CV, analyse the requirements, then the skills node onward |
| CvAnalysis.PipelineOutcome | pages/analyze_cv_page.py:61-215 | each node reads its intended entry; on a successful parse the path has all four nodes and the log ends at length 5; on a failed parse it stops after the skills node with length 4 and that error |
| CvAnalysis.PipelineCharts | pages/analyze_cv_page.py:147-163 | when the skills reply parses, the run shows four outputs and the third is the bar chart of what the reader returned |
| CvAnalysis.PageChartsSwapped | pages/analyze_cv_page.py:134-166 | when the model answers in the requested format, the page as written charts the requirements under 'You' and the candidate's scores under 'Requirements'; the corrected reader charts them as meant |
| CvAnalysis.AnaliseCv | pages/analyze_cv_page.py:61-89 | displays and appends the analysis of `[-2]`, as `Step` states |
| CvAnalysis.AnaliseRequirements | pages/analyze_cv_page.py:91-120 | displays and appends the analysis of `[-2]`, as `Step` states |
| CvAnalysis.Skills | pages/analyze_cv_page.py:122-166 | parses the comparison of `[-1]` and `[-2]`; on failure raises with nothing appended, otherwise charts it and appends the reply |
| CvAnalysis.ModelCv | pages/analyze_cv_page.py:168-196 | displays a model CV from `[-2]` and `[0]` and appends nothing |
| CvAnalysis.RunNode | pages/analyze_cv_page.py:198-215 | running node n leaves the log, the display and the error exactly as `Step` states |
| CvAnalysis.Invoke | pages/analyze_cv_page.py:198-215 | running nodes from START until END or a failure gives exactly the path, display, error and log `Walk` describes |
| CvAnalysis.App | pages/analyze_cv_page.py:36-215 | seeds `[cv, requirements]` and runs the pipeline with the as-written reader, which charts line 0 as 'You'; the outcome is `Pipeline`'s |
| CvAnalysis.Show | pages/analyze_cv_page.py:237-243 | nothing happens unless "Analyze" is pressed; with either text empty, an error and no node; otherwise exactly the as-written pipeline's outcome |

## Left out

- The language model is a parameter `llm`. Its prompt wording, the selected technologies and the job level are folded into it. Replies are treated as deterministic per prompt, and failures of the model call are not modelled.
- Streamlit rendering is not modelled: `st.chat_message`, `st.markdown`, `display_messages`, spinners, `print` and the chat box. A submission is the `input` parameter, with "" for none. Displayed outputs of the CV page are kept only as the `Output` values each node shows.
- The sidebar in `options` is not modelled (`app` runs only when technologies and a level are chosen). Neither are `show` of the recruitment page, `main.py` and `pages/main_page.py`: they are UI and page routing.
- `importDox` and python-docx file reading are file I/O through a library; the texts are parameters of `Show`.
- `load_dotenv` and the `OPENAI_API_KEY` check are environment configuration and are not modelled.
- The pandas DataFrame and `st.bar_chart` are reduced to their precondition: both lists must hold one value per category.
- CvAnalysis.ReadRows: the `WrongCount` error names the line the model reports. pandas only says the lengths disagree.
- Strings.ParseInt: Python's `int` also accepts underscores between digits, non-ASCII digits and non-ASCII whitespace. These are not modelled; only space and `\t`..`\r`, one optional sign and ASCII digits are.
- Strings.ParseInt: Python 3.11 and later raise `ValueError` for more than 4300 digits (`sys.int_max_str_digits`). The model reads any number of digits. At line 265 such a rating would go to the model answer; in the model, one of 7 or more goes to the congratulation.
- Strings.Strip: only ASCII whitespace is removed; Python's `strip()` also removes Unicode whitespace.
- Interview.Successor: calling `int` on a record raises a TypeError that nothing catches. The rating entry is required to be text, which it always is, because `rating_node` appends text.
- The LangGraph engine is an explicit transition function (`Successor`) with a loop (`Invoke`). Its state-merging machinery is not modelled.
- A raised exception is modelled as a returned `ParseError`. The graph-local list at that point is returned; the page's display after the exception is not modelled.

## Findings

| source | as written | input that shows it | evidently intended | confidence | as-written member | corrected member |
|---|---|---|---|---|---|---|
| pages/recruitment_process_page.py:202-207 | `congratulation_node` reads `graph_state[-3]`, which is the question record | the graph-local list [question, answer, rating]: `[-3]` is the question | evaluate the candidate's answer, `[-2]`, as the docstring and prompt say | high, not executed | Interview.CongratulationAsWrittenMissesAnswer | Interview.BranchReadsIntended |
| pages/analyze_cv_page.py:134-158 | line 0 of the reply becomes the 'You' series and line 1 'Requirements' | the prompt's example "1,2,5\n4,6,3" (requirements first) charts the requirements as the candidate's scores | the first line, which the prompt asks to hold the requirements, charted as 'Requirements' | medium, not executed | CvAnalysis.PageChartsSwapped | CvAnalysis.ParseRequestedReply |
