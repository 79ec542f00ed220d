# Pipeline runner and SQL test agent, modelled in Dafny

This project models two scripts of the Foundry IQ + Fabric IQ solution accelerator.

- `scripts/00_build_solution.py`, the pipeline runner (module `BuildSolution`, file
  `build_solution.dfy`). It picks the base pipeline of numbered steps (`--only`, `--ai` or the
  default), cuts it at `--from`, drops the steps the `--skip-*` flags name, and looks every
  step up in the `STEPS` table. It then runs each step's script through `run_step`, records
  each outcome in `results`, stops at the first failure unless `--continue-on-error` is given,
  and exits with status 1 exactly when some step failed. A plan error (a `--from` step not in
  the pipeline, an unknown step) also ends the run with status 1 before anything runs, and
  `--dry-run` ends it with status 0.
- `scripts/08_test_foundry_agent.py`, the interactive test of the single-tool agent.
  - `execute_sql` (module `AgentSql`, file `agent_sql.dfy`) renders a query result as a pipe
    table. It shows at most 50 rows, adds a notice about the rows left out and a row count,
    and never raises: a missing endpoint and a failing query both come back as text.
  - `chat` (module `AgentChat`, file `agent_chat.dfy`) sends the user's message and answers
    every `execute_sql` function call of each response with a `function_call_output`. It
    stops at the first response without function calls and returns all gathered message
    text, stripped.
  - The same module models how the sample questions are read from `sample_questions.txt`,
    and the read-eval-print loop: blank lines, `quit`/`exit`/`q`, `help`, and everything else
    passed to `chat`.

`wrappers.dfy` holds `Option`, `Result` and a few sequence facts. `strings.dfy` holds the
Python string operations the scripts use: `strip`, `lower`, `join`, `str(n)` and `[x] * n`.
It also holds `split` on a single character, which neither script calls: it serves only to
state that the text `execute_sql` returns falls apart into the intended lines
(`AgentSql.TableTextLines`).

The outside world is a parameter:

| stands for | in the model |
|---|---|
| each step's subprocess | `world(i)`: whether the i-th step's script exists, and its exit code |
| the database behind the SQL endpoint | `db`: a result set, or the text of the exception raised |
| the agent service | `script`: its answers, one per `responses.create` request, in order |
| the terminal | the sequence of lines typed |
| the questions file | its lines, or `None` when it is absent |

What the scripts print is modelled only where it is the result: the text `execute_sql`
returns, and the sequence of `Shown` events of the loop.

Three facts about the code of `chat` and `execute_sql`:

- Arguments of an `execute_sql` call that are not valid JSON make `json.loads` raise. The
  error ends the turn and reaches the loop's `Error:` handler; the model has this as
  `ChatError.BadArguments`. There is no fall-back to empty arguments.
- The loop in `chat` has no bound: it ends only when a response has no function calls or
  something raises (a request, or `json.loads`). In the model, the finite `script` running
  out stands for a request that raises (`ChatError.NoAnswer`); see "Left out".
- `execute_sql` closes the database connection only on the success path. The model has no
  connection, so this is not modelled; see "Left out".

## Model

| member | source | states |
|---|---|---|
| BuildSolution.BasePipelineChoice | scripts/00_build_solution.py:113-118 | a non-empty `--only` list is the pipeline whatever `--ai` says; otherwise `--ai` picks the AI pipeline and its absence the default one |
| BuildSolution.IndexOf | scripts/00_build_solution.py:123 | `list.index` gives the position of the first occurrence of the step |
| BuildSolution.ApplyFrom | scripts/00_build_solution.py:120-128 | no or empty `--from` leaves the pipeline alone; a step not in the pipeline is an error carrying the pipeline; otherwise the result is the suffix starting at the step's first occurrence |
| BuildSolution.Without | scripts/00_build_solution.py:130-136 | a filter keeps exactly the steps not excluded, in their original order (a subsequence) |
| BuildSolution.WithoutCounts | scripts/00_build_solution.py:130-136 | a filter keeps every step it does not exclude as often as it occurs |
| BuildSolution.WithoutTwice | scripts/00_build_solution.py:130-136 | two filters in a row equal one filter by the union of their sets |
| BuildSolution.WithoutNothing | scripts/00_build_solution.py:130-136 | a filter by the empty set changes nothing |
| BuildSolution.OptionalFilter | scripts/00_build_solution.py:131-136 | a flag-guarded filter is a filter by the flag's set or by nothing |
| BuildSolution.SkipsAsOneFilter | scripts/00_build_solution.py:130-136 | the three skip filters together are one filter by the union of the skipped step sets |
| BuildSolution.SkipFilters | scripts/00_build_solution.py:130-136 | after the skips, the order is kept, 02/03, 06 and 05/07/07a/08/08a are gone when their flag is set, a step remains iff it was there and is not skipped, and unskipped steps keep their multiplicity |
| BuildSolution.Validate | scripts/00_build_solution.py:142-146 | the lookup succeeds iff every step is in `STEPS`; otherwise it fails on the first unknown step |
| BuildSolution.Plan | scripts/00_build_solution.py:113-146 | the steps that will run: the base pipeline, cut at `--from`, filtered by the skip flags and looked up in `STEPS`, or the first plan error on the way; `PlanShape` states what a plan looks like |
| BuildSolution.PlanShape | scripts/00_build_solution.py:113-146 | a planned pipeline is a subsequence of the base pipeline, holds only known, unskipped steps, and is a subsequence of the pipeline from the `--from` step on |
| BuildSolution.RunStep | scripts/00_build_solution.py:223-262 | a missing script is a success with nothing launched; otherwise the command is the interpreter and script path, plus the industry/usecase/size arguments for 01a under `--ai` and `--clean` for 02, and success iff the exit code is 0 |
| BuildSolution.StepSucceeded | scripts/00_build_solution.py:230-232 | `run_step` returns true when the script is missing, and otherwise exactly when the exit code is 0 (lines 256-262) |
| BuildSolution.RecordOneMore | scripts/00_build_solution.py:270-271 | writing a step's outcome into `results` keeps every step recorded with its latest outcome |
| BuildSolution.LastIndex | scripts/00_build_solution.py:270-271 | the position found holds the step and no later position does: the run whose outcome the dictionary keeps |
| BuildSolution.ProgressContinues | scripts/00_build_solution.py:269-277 | after a successful step, or any step under `--continue-on-error`, the loop state still holds with the step appended, its outcome recorded and `failed` updated |
| BuildSolution.ProgressStops | scripts/00_build_solution.py:269-277 | a failed step without `--continue-on-error` stops the loop with that step last, `failed` set, and every other recorded step a success |
| BuildSolution.RanAll | scripts/00_build_solution.py:269-277 | running out of steps finishes the loop |
| BuildSolution.RunPipeline | scripts/00_build_solution.py:265-277 | the steps run are a prefix of the pipeline, all of it under `--continue-on-error`; without it, every step before the last succeeded and a stop happens only at a failure; `failed` iff some run failed; `results` maps each step run to its latest outcome |
| BuildSolution.ExitStatus | scripts/00_build_solution.py:285-287 | the runner's status is 1 when some step failed and 0 otherwise |
| BuildSolution.RepeatedStepKeepsLastOutcome | scripts/00_build_solution.py:266-287 | a step listed twice, failing then succeeding under `--continue-on-error`, leaves `results` showing only its success while the runner exits with status 1 |
| BuildSolution.Run | scripts/00_build_solution.py:113-287 | a plan error exits 1 and `--dry-run` exits 0, with nothing run; otherwise the steps run are a prefix of the plan (all of it under `--continue-on-error`); without that flag every step before the last run succeeded and the run stops short of the plan only right after a failure; the exit status is 1 iff some step run failed and 0 iff all succeeded |
| AgentSql.FormatResultSet | scripts/08_test_foundry_agent.py:161-175 | the formatting loop returns exactly the join of the header, the separator, the first 50 rows, the notice and the count |
| AgentSql.TableLines | scripts/08_test_foundry_agent.py:161-172 | `result_lines`: header, separator, the first 50 rows, the notice when rows were left out, the count; `TableLayout` states it line by line |
| AgentSql.TableText | scripts/08_test_foundry_agent.py:175 | `"\n".join(result_lines)`; `TableTextLines` states the lines a reader sees |
| AgentSql.SqlResultText | scripts/08_test_foundry_agent.py:133-178 | the text `execute_sql` returns: the missing-endpoint text, `"SQL Error: "` and the exception's text, or the table |
| AgentSql.ExecuteSql | scripts/08_test_foundry_agent.py:133-178 | a missing endpoint gives the fixed error text, a failing query gives "SQL Error: " followed by the message, and a result set gives its table; it never raises |
| AgentSql.TableLayout | scripts/08_test_foundry_agent.py:161-172 | the table has the header, the separator, the first min(n, 50) rows in order, the notice exactly when n > 50 (second to last, with n - 50), and the row count last |
| AgentSql.SeventyFiveRows | scripts/08_test_foundry_agent.py:165-172 | with 75 rows, rows 1 to 50 are shown, then "... and 25 more rows", then "(75 rows returned)" |
| AgentSql.MoreRowsLineInjective | scripts/08_test_foundry_agent.py:170 | the notice determines how many rows were left out |
| AgentSql.SeparatorCells | scripts/08_test_foundry_agent.py:163 | the separator is a bar followed by one "---" and a bar per column, or two bars with no columns |
| AgentSql.TableTextLines | scripts/08_test_foundry_agent.py:161-175 | when no cell holds a line break, splitting the returned text at line breaks gives the header, the separator, one line per shown row, then a blank line and the notice (only past 50 rows), then a blank line and the count |
| AgentSql.BlankLine | scripts/08_test_foundry_agent.py:170-175 | a line starting with "\n" joins like an empty line followed by the rest |
| AgentSql.VisibleLinesSingle | scripts/08_test_foundry_agent.py:161-172 | no visible line holds a line break when no cell does |
| AgentSql.TwoRowExample | scripts/08_test_foundry_agent.py:161-175 | two rows, the second with a NULL, render as the header line, the separator line for two columns, the cells "a" and "1", the cells "b" and "NULL", a blank line and "(2 rows returned)" |
| AgentChat.FunctionCalls | scripts/08_test_foundry_agent.py:239-243 | the calls collected are exactly the function-call items of the response |
| AgentChat.MessageTextConcat | scripts/08_test_foundry_agent.py:240-248 | the text gathered from two runs of items is the text of the first, then of the second |
| AgentChat.FunctionCallsConcat | scripts/08_test_foundry_agent.py:239-243 | the calls of two runs of items are the calls of the first, then of the second |
| AgentChat.ReadMessage | scripts/08_test_foundry_agent.py:246-248 | each text part of a message is appended to `final_text` followed by a line break; other parts add nothing |
| AgentChat.ReadResponse | scripts/08_test_foundry_agent.py:239-248 | one pass over a response collects its function calls in order and appends the text of its messages |
| AgentChat.ToolOutputs | scripts/08_test_foundry_agent.py:254-269 | the only error building the outputs can raise is undecodable arguments |
| AgentChat.QueryOf | scripts/08_test_foundry_agent.py:258 | `args.get("sql_query", "")`: the query field, or the empty query when there is none |
| AgentChat.SqlCalls | scripts/08_test_foundry_agent.py:256 | the answered calls are exactly those named `execute_sql`, a subsequence of the calls in the order received |
| AgentChat.ToolOutputIdsInOrder | scripts/08_test_foundry_agent.py:239-269 | when every call is answered, the `call_id`s of the outputs are a subsequence of the `call_id`s of the response's function calls, in the order received |
| AgentChat.ToolOutputsMatchSqlCalls | scripts/08_test_foundry_agent.py:254-269 | the outputs answer the `execute_sql` calls one for one, in order, with the call's id and the `execute_sql` text for its `sql_query`; this fails iff some such call has undecodable arguments, and then on the first one |
| AgentChat.ToolOutputsFailureSticks | scripts/08_test_foundry_agent.py:255-257 | once a call raises, the later calls do not matter |
| AgentChat.AnswerCalls | scripts/08_test_foundry_agent.py:254-269 | the loop over the calls builds exactly the outputs described above |
| AgentChat.Resolve | scripts/08_test_foundry_agent.py:237-280 | a turn consumes at most the answers given; it makes one request fewer after the first than it consumes answers, unless the answers run out |
| AgentChat.Chat | scripts/08_test_foundry_agent.py:222-280 | the `chat` loop ends with the outcome, the answers consumed and the requests sent of the turn |
| AgentChat.Turn | scripts/08_test_foundry_agent.py:222-280 | `chat(message)`: the first request carries the message and the text starts empty; `TurnStopsAtFirstFinalAnswer` states how the turn ends |
| AgentChat.TurnOutputsAnswerCalls | scripts/08_test_foundry_agent.py:237-278 | every request after the message carries the outputs for the response just read, and their ids follow the order of that response's calls |
| AgentChat.ResolveSendsOutputs | scripts/08_test_foundry_agent.py:237-278 | the k-th request after the message answers the k-th answer, which the turn went past |
| AgentChat.HandleResponse | scripts/08_test_foundry_agent.py:238-269 | one response adds its message text; it ends the turn exactly when the turn cannot go past it, with the outcome that response decides, and otherwise gives the outputs to send back |
| AgentChat.TurnEndsAt | scripts/08_test_foundry_agent.py:237-280 | a turn that went past the first n answers and stops at the next one consumes n + 1 answers and sends the message and those n answers' outputs |
| AgentChat.TurnRunsOut | scripts/08_test_foundry_agent.py:237-280 | a turn that goes past every answer raises for want of an answer, after consuming them all and sending all their outputs |
| AgentChat.TurnStopsAtFirstFinalAnswer | scripts/08_test_foundry_agent.py:222-280 | a turn stops at the first response it cannot go past; it sends the message and then each earlier response's outputs, and replies with the stripped text of every response of the turn in order, or raises as that response decides |
| AgentChat.ResolveStops | scripts/08_test_foundry_agent.py:237-280 | the same characterisation for the rest of a turn, with text already gathered |
| AgentChat.SingleExchange | scripts/08_test_foundry_agent.py:226-251 | a first response without function calls ends the turn after one request, with its stripped text |
| AgentChat.LoadSampleQuestions | scripts/08_test_foundry_agent.py:184-190 | an absent file gives no questions; otherwise every stripped line starting with "-" gives itself minus its first two characters, in order |
| AgentChat.Questions | scripts/08_test_foundry_agent.py:186-190 | the questions of a file's lines, in order; `QuestionsConcat`, `BulletLineQuestion` and `OtherLinesIgnored` state what that gives |
| AgentChat.LineQuestions | scripts/08_test_foundry_agent.py:189-190 | what one line contributes: its `strip()[2:]` when it is a bullet line, nothing otherwise |
| AgentChat.ReadQuestionLine | scripts/08_test_foundry_agent.py:189-190 | one line gives its question exactly when its stripped form starts with "-" |
| AgentChat.QuestionsSnoc | scripts/08_test_foundry_agent.py:188-190 | one more line appends just that line's question, if any |
| AgentChat.QuestionsConcat | scripts/08_test_foundry_agent.py:188-190 | the questions of two runs of lines are those of the first, then of the second |
| AgentChat.BulletLineQuestion | scripts/08_test_foundry_agent.py:189-190 | a line "- q" with a line break reads back as q, for stripped q |
| AgentChat.QuestionsRoundTrip | scripts/08_test_foundry_agent.py:184-190 | a file of one "- q" line per stripped question without a line break reads back as those questions |
| AgentChat.OtherLinesIgnored | scripts/08_test_foundry_agent.py:189 | a line that is not a bullet contributes no question wherever it occurs |
| AgentChat.CommandsConcat | scripts/08_test_foundry_agent.py:290-306 | each input line is classified on its own: the commands of two runs of input are the commands of each, one after the other |
| AgentChat.ReadCommand | scripts/08_test_foundry_agent.py:290-306 | the stripped line is empty, an exit word or `help` in any case, or a question, tested in that order |
| AgentChat.Classify | scripts/08_test_foundry_agent.py:290-306 | an input line is classified by its stripped form; `SessionIgnoresPadding` and `ClassifyIgnoresCase` state what that gives |
| AgentChat.ClassifyStripped | scripts/08_test_foundry_agent.py:295-306 | blank, an exit word, `help` in any case, or a question, tested in that order |
| AgentChat.HelpList | scripts/08_test_foundry_agent.py:304 | `help` shows the first five sample questions at most, in order |
| AgentChat.Display | scripts/08_test_foundry_agent.py:310-317 | a non-empty reply is shown, an empty one as "(No response)", a raise as its error |
| AgentChat.Replies | scripts/08_test_foundry_agent.py:288-317 | what the loop shows for the commands typed, with the service's answers taken in order across turns; `SessionEndsWithGoodbye` and `RepliesStopAtQuit` state how it ends |
| AgentChat.Session | scripts/08_test_foundry_agent.py:288-320 | the whole loop over the lines typed; `Repl` computes it |
| AgentChat.Repl | scripts/08_test_foundry_agent.py:288-320 | the loop shows exactly what the session's definition says, with the service's answers taken in order across turns |
| AgentChat.SessionEndsWithGoodbye | scripts/08_test_foundry_agent.py:288-320 | a session prints "Goodbye!" exactly once and then the closing line, and nothing follows |
| AgentChat.QuitEndsSession | scripts/08_test_foundry_agent.py:298-300 | nothing typed after an exit word has any effect |
| AgentChat.RepliesStopAtQuit | scripts/08_test_foundry_agent.py:298-300 | commands after a quit do not change what is shown |
| AgentChat.SessionIgnoresPadding | scripts/08_test_foundry_agent.py:290 | lines that strip to the same text give the same session |
| AgentChat.ClassifyIgnoresCase | scripts/08_test_foundry_agent.py:298-302 | the exit words and `help` are recognised in any mix of case |
| Strings.Strip | scripts/08_test_foundry_agent.py:290 | `str.strip()` gives a string with no leading or trailing whitespace, no longer than the input |
| Strings.StripLeadingSpace | scripts/08_test_foundry_agent.py:290 | leading whitespace makes no difference to `strip()` |
| Strings.StripTrailingPad | scripts/08_test_foundry_agent.py:290 | trailing whitespace makes no difference to `strip()` |
| Strings.StripAllSpace | scripts/08_test_foundry_agent.py:290 | a line of whitespace only strips to the empty string |
| Strings.StripIgnoresPadding | scripts/08_test_foundry_agent.py:290 | surrounding whitespace makes no difference to `strip()` |
| Strings.StripTrailingSpace | scripts/08_test_foundry_agent.py:189-190 | a stripped text followed by whitespace strips back to itself |
| Strings.Lower | scripts/08_test_foundry_agent.py:298-302 | `str.lower()` on ASCII letters, as "Left out" explains |
| Strings.Join | scripts/08_test_foundry_agent.py:162-175 | `sep.join(parts)`; `JoinConcat`, `JoinAvoids` and `SplitJoin` state it |
| Strings.NatToString | scripts/08_test_foundry_agent.py:170-172 | `str(n)` is a non-empty run of decimal digits, one digit exactly for n < 10 |
| Strings.NatToStringValue | scripts/08_test_foundry_agent.py:170-172 | the digits of `str(n)` denote n, most significant first, and the text starts with "0" only for 0 |
| Strings.NatToStringInjective | scripts/08_test_foundry_agent.py:170-172 | different row counts give different texts |
| Strings.SplitJoin | scripts/08_test_foundry_agent.py:175 | splitting a "\n"-join of line-break-free parts gives the parts back |
| Strings.JoinConcat | scripts/08_test_foundry_agent.py:162-175 | the join of two non-empty lists is their joins with a separator in between |

## Left out

- The AI-mode arguments (scripts/00_build_solution.py:152-192) are not modelled. That covers the environment fallback, the sample-scenario listing and the terminal prompts for industry and use case. `Flags` holds the values the script has settled on. The exit with status 1 for an empty answer is not modelled.
- The plan printout and every other message printed by the runner are left out; they only print.
- `load_all_env()` (scripts/00_build_solution.py:149-150) is not modelled. An exception it raises ends the runner before any step runs, and the model does not capture that.
- The "Press Enter to start" prompt (scripts/00_build_solution.py:216) is not modelled. At end of input `input()` raises `EOFError`, the runner exits with status 1 and no step runs; the model does not capture that.
- The missing-script warning at scripts/00_build_solution.py:145-146 is left out because it only prints; the unknown-step failure on the same lines is modelled.
- The subprocess is left out. That covers its working directory, the copied environment without `DATA_FOLDER` and the tail of its captured error output. `world(i)` gives only whether the script exists and its exit code.
- `--only` with an empty list cannot be written on the command line (`nargs="+"`); the model treats it as absent, as Python's truth test does.
- Azure authentication, the ODBC token packing and the connection (scripts/08_test_foundry_agent.py:139-158) are not modelled. `db` gives the columns and rows, or the text of any exception raised on the way. Closing the connection is not modelled.
- `db` gives a query text the same outcome on every call and in every turn. Each `execute_sql` call authenticates and connects afresh (scripts/08_test_foundry_agent.py:140-155), so a token or connection failure that comes and goes, or data that change between calls, are not modelled.
- `str(v)` of a database value is not modelled: each non-NULL cell holds its text already.
- JSON decoding is reduced to two cases: an object whose `sql_query` is a string, or undecodable. Non-object JSON and non-string values are not modelled.
- The preview of the SQL query (first 100 characters) and the "[Executing SQL]" line are left out because they are printing only.
- The client, agent and conversation setup (scripts/08_test_foundry_agent.py:196-216) is not modelled. The model, instructions, tools and conversation id passed to each request are not modelled either.
- AgentChat.Chat: the source's loop is unbounded. The model's service gives a finite list of answers, and running out of answers is `Raised(NoAnswer)`. A service that asks for function calls forever is not modelled.
- Strings.LowerChar: folds ASCII letters only, where `str.lower()` folds all of Unicode. The two agree on whether a stripped line lowers to "quit", "exit", "q" or "help", since no other character lowers to a single letter of those words; `Forward` passes the line on unfolded.
- End of input and `KeyboardInterrupt` both end the loop with a "Goodbye!" preceded by one more blank line than the exit word's. Both are modelled as the same `Goodbye` event, and an interrupt in the middle of a turn is not modelled.
- The Python text `line.strip()[2:]` of a question line: a line "-x", or one with no space after the dash such as "-foo", gives "" or "oo". This is the code's behaviour and the model keeps it.
- Reading the questions file is not modelled as I/O: its lines are given, each with its line break.
- Everything printed by the loop other than the `Shown` events is left out. That covers the banner, "You:" and "Agent:" prompts, and the formatting of the help list and of the closing line with the conversation id.
