# Approval-gated agent core, modelled in Dafny

This project models the part of a tool-using agent that decides whether a tool
may run. An oracle (a language model) proposes one action per step. A policy
engine judges the proposal: allow, deny or needs-extra-confirmation. An
operator approves or refuses it once, and a second time when the action is
high-risk or the mode is strict. Only then does the tool run, with retries on
transient failures. Every step is recorded in a session log of messages and
events. A web front end keeps a registry of runs and is meant to run the same
loop in a worker per run, relaying approval questions to an HTTP caller
through a request/answer handshake. As written, the worker's call into the
loop does not match the loop's signature (see "## Left out"), so the model
covers the registry and the handshake on their own.

Files, one module each:

- `types.dfy` (`Types`): proposals, results, oracle decisions and policy
  verdicts, all immutable records.
- `text.dfy` (`Text`): the Python string behaviour the core relies on.
  - `strip` over Python's whitespace set;
  - ASCII `lower`;
  - `split()[0]`;
  - decimal rendering of integers.
- `paths.dfy` (`Paths`): `os.path.join` and lexical `Path.resolve` with `/` as
  the separator; `relative_to` as a prefix test on segments.
- `patterns.dfy` (`ShellPatterns`): the six destructive shell patterns.
  - A declarative "occurs somewhere" predicate.
  - The policy's early-return scan.
  - Proofs that the two agree.
- `policy.dfy` (`Policy`): the verdict function and its properties.
- `session.dfy` (`Session`): the session log, a class with two append-only
  lists, plus the ten-entry context window.
- `orchestrator.dfy` (`Orchestration`): the step loop.
  - Specification functions `Act`, `Step` and `RunFrom` describe what a run
    does to a `World`. A `World` holds the session lists, the always-deny set,
    and counters of prompts, oracle calls and tool executions.
  - The class `Orchestrator` runs the loop in place. Its methods are proved
    equal to those functions.
- `run_manager.dfy` (`RunManagement`): the run registry and the approval
  handshake.
  - Each locked section is a transition on `RunFields`.
  - The classes `RunState` and `RunManager` perform the transitions in place
    and are proved equal to them.

The oracle, the operator's answers and the tool back-ends are parameters.
- **Oracle:** a function of the step number and what it is shown.
- **Operator's answers:** a function of the prompt's index within the run.
- **Tool back-ends:** a function of the execution's index within the run, the
  tool name and the arguments. The result is a returned `ActionResult` or a
  raised exception.

## Model

| member | source | states |
|---|---|---|
| Types.FailedResult | agent/types.py:22-28 | a failed result carries its error tag and message; stdout, artifacts and payload keep the record's empty defaults |
| Text.Strip | agent/policy.py:39 | `strip()` gives an infix of the text with no whitespace at either end; it is empty exactly when the text is all whitespace |
| Text.LowerChar | agent/policy.py:50 | `A` to `Z` become `a` to `z`, every other character is kept, and whitespace and word characters keep their class |
| Text.Lower | agent/policy.py:50 | `lower()` keeps the length and maps each character by itself; no upper-case letter survives |
| Text.FirstToken | agent/policy.py:43 | `split()[0]` on stripped text: a non-empty prefix free of whitespace, followed by whitespace or the end |
| Paths.SplitPath | agent/policy.py:70 | splitting on `/` gives at least one piece, and no piece contains `/` |
| Paths.SplitAround | agent/policy.py:70 | splitting `a + "/" + b` gives the pieces of `a` followed by those of `b` |
| Paths.Join | agent/policy.py:70 | `os.path.join`: an absolute second part replaces the first; otherwise a `/` is inserted between them exactly when the first part is non-empty and does not already end with one |
| Paths.Resolve | agent/policy.py:21 | resolving against a normal working directory gives a normal path (no `.`, `..` or empty segment) |
| Paths.ResolveRelative | agent/policy.py:21 | resolving a relative path against the working directory is resolving it joined onto the directory's text |
| Paths.ResolveRender | agent/policy.py:21 | resolving the text of a resolved path gives that path back |
| Paths.Render | agent/policy.py:74 | `str(path)` of a resolved path starts with `/` |
| Paths.SplitRender | agent/policy.py:70 | splitting a rendered non-root path gives back an empty first piece followed by its segments |
| Paths.WalkAppend | agent/policy.py:70 | resolving two segment lists one after the other is resolving their concatenation |
| Paths.WalkPlain | agent/policy.py:70 | plain segments only descend: the result is the directory extended by them |
| Paths.ResolveJoin | agent/policy.py:70 | resolving `join(str(root), s)`: an absolute `s` walks its segments from `/`, a relative `s` walks them from the root |
| Paths.WalkWithoutParentStaysBelow | agent/policy.py:84-89 | a walk with no `..` segment ends below where it started |
| Paths.IsUnder | agent/policy.py:84-89 | `relative_to` succeeds exactly when the root's segments are a prefix of the path's |
| Paths.WalkParentName | agent/policy.py:70 | `..` then a plain name from a non-root directory replaces its last segment by the name |
| ShellPatterns.AllWellFormed | agent/policy.py:9-16 | every flag of the six patterns is non-empty and starts with a character that is neither whitespace nor a word character |
| ShellPatterns.MatchAtCorrect | agent/policy.py:52 | the greedy attempt at a position succeeds exactly when the pattern matches a span starting there |
| ShellPatterns.SearchCorrect | agent/policy.py:52 | `re.search` succeeds exactly when the pattern occurs somewhere in the text |
| ShellPatterns.FirstBlockedFrom | agent/policy.py:51-56 | the scan returns the first pattern in list order that occurs, and nothing exactly when none occurs |
| ShellPatterns.FirstBlockedIffBlocked | agent/policy.py:50-56 | the scan finds a pattern exactly when some destructive pattern occurs in the lower-cased command |
| Policy.NewPolicyEngine | agent/policy.py:19-22 | the root is resolved against the working directory; the allow-list is the set of given entries, not lower-cased |
| Policy.ShellCommand | agent/policy.py:39 | the `command` argument's text, `""` when absent, stripped |
| Policy.HasPath | agent/policy.py:66-67 | the `path` argument is present and truthy |
| Policy.Target | agent/policy.py:70 | the path checked is the resolved join of the root's text and the `path` argument |
| Policy.RiskVerdict | agent/policy.py:58-63 | a proposal past the tool checks is never denied, and needs extra confirmation exactly when its risk is high |
| Policy.EvaluateShell | agent/policy.py:38-63 | a shell proposal is denied exactly when its stripped command is empty, its lower-cased first word is not allow-listed, or a destructive pattern occurs; otherwise the risk decides |
| Policy.EvaluateFile | agent/policy.py:65-82 | a file proposal is denied exactly when `path` is missing or falsy, or the resolved join is not under the root; otherwise the risk decides |
| Policy.Evaluate | agent/policy.py:24-36 | dispatch on the tool: an unknown tool is denied, web is judged on risk alone, and extra confirmation is only ever asked for high risk |
| Policy.ValidProposalKnownTool | agent/policy.py:24-36 | a proposal the record's validation admits is never refused as an unknown tool |
| Policy.BlankCommandDenied | agent/policy.py:39-41 | a missing or all-whitespace command is denied as empty |
| Policy.UnlistedWordRefused | agent/policy.py:43-48 | a command whose lower-cased first word is not allow-listed is denied, and the message names that word |
| Policy.UnlistedCommandRefused | agent/policy.py:43-48 | with only `ls` allowed, `rm -rf /` is denied as not allow-listed, naming `rm` |
| Policy.UppercaseEntryNeverAdmits | agent/policy.py:43-44 | adding an allow-list entry that has an upper-case letter changes no verdict |
| Policy.SameLookupSameVerdict | agent/policy.py:43-44 | two engines with the same root that agree on the look-up of a command's first word give the same verdict |
| Policy.BlockedCommandDenied | agent/policy.py:50-56 | a command in which a destructive pattern occurs is denied whatever the allow-list and the risk |
| Policy.RecursiveDeleteText | agent/policy.py:39-43 | `rm -rf /` strips to itself and its lower-cased first word is `rm` |
| Policy.RecursiveDeleteBlocked | agent/policy.py:10 | the first pattern occurs in `rm -rf /` |
| Policy.RecursiveDeleteRefused | tests/test_policy.py:5-14 | a shell proposal for `rm -rf /` is denied under any allow-list (the test's includes `rm`) and any risk |
| Policy.RelativePathWithoutParentInScope | agent/policy.py:70-82 | a relative path with no `..` segment stays under the root, so the verdict is decided by risk alone |
| Policy.AbsolutePathReplacesRoot | agent/policy.py:70-75 | an absolute path is resolved on its own and denied exactly when it does not start with the root |
| Policy.ParentThenNameEscapes | agent/policy.py:70-75 | `../name` from a non-root root is denied exactly when `name` differs from the root's last segment |
| Policy.RepoRoot | agent/policy.py:21 | the root `C:/repo` resolves to the working directory extended by `C:` and `repo` |
| Policy.ParentPathOutOfScope | tests/test_policy.py:17-26 | with `/` as the separator, writing to `../outside.txt` under the root `C:/repo` is denied |
| Policy.BackslashIsAnOrdinaryCharacter | tests/test_policy.py:17-26 | with `/` as the separator, `..\outside.txt` is one file name inside the root and a medium-risk write to it is allowed |
| Session.LastN | agent/session.py:31-32 | `s[-n:]` for `n >= 1` holds `min(n, len(s))` entries and is a suffix of `s` |
| Session.LastNAppend | agent/session.py:31-32 | after an append, the window is the previous newest `n - 1` entries followed by the new one (only the new one for a window of one) |
| Session.ContextOf | agent/session.py:26-36 | the context carries goal and cwd and the last `min(10, len)` messages and events, each a suffix of its list |
| Session.SessionState.constructor | agent/session.py:13-18 | a new session has the given goal and cwd and empty lists |
| Session.SessionState.AddMessage | agent/session.py:20-21 | exactly one message with the given role and content is appended; the events are unchanged |
| Session.SessionState.AddEvent | agent/session.py:23-24 | exactly one event with the given type and data is appended; the messages are unchanged |
| Orchestration.InterpretStrips | agent/orchestrator.py:153 | reading an answer is `strip()`, then `lower()`, then classifying as `ad`, `y`/`yes` or anything else |
| Orchestration.InterpretSamples | agent/orchestrator.py:153-157 | ` Y\n` and `Yes` approve, `\tAD ` always-denies, and `n`, the empty answer and `yep` refuse |
| Orchestration.ExecuteTool | agent/orchestrator.py:132-143 | an unknown tool fails with tag `unknown_tool`, is not retried and names itself; a raised exception becomes a retryable failure tagged `exception` carrying its message; a returned result is passed through |
| Orchestration.IsRetryable | agent/orchestrator.py:166-168 | an error is worth retrying exactly when its type is `timeout`, `web_error`, `shell_error` or `exception` |
| Orchestration.RetryFrom | agent/orchestrator.py:127-129 | a retryable failure below the limit is retried; the loop stops on success, on a failure that is not retryable, or when the retries reach `max_retries`; the result is `last` when nothing more ran, else the final execution's, and every execution in between failed retryably |
| Orchestration.Retries | agent/orchestrator.py:124-130 | between 1 and `1 + max_retries` executions; the result is the last execution's and every earlier one failed in a way worth retrying; all `1 + max_retries` run when the result is still a retryable failure; exactly one when the first result succeeds or is not retryable |
| Orchestration.Ask | agent/orchestrator.py:145-157 | one prompt; `ad` adds the tool to the always-deny set, and nothing else changes |
| Orchestration.Execute | agent/orchestrator.py:108-118 | executes the proposal's tool 1 to `1 + max_retries` times and logs one tool result; the number of executions and the logged result are those of the retry loop; prompts and the always-deny set are untouched |
| Orchestration.NeedsExtraIffHighOrStrict | agent/orchestrator.py:90-94 | given the policy, a second prompt is due exactly for high risk or strict mode |
| Orchestration.Consult | agent/orchestrator.py:85-118 | the tool runs exactly when the operator says yes to the first prompt and, when it is due, to the second; at most `1 + max_retries` times |
| Orchestration.Act | agent/orchestrator.py:73-118 | a proposal runs exactly when its tool is not always denied, the policy does not deny it and the operator consents; only its own tool runs |
| Orchestration.FinalText | agent/orchestrator.py:62 | the final response, or `No final response.` when it is absent or empty |
| Orchestration.Step | agent/orchestrator.py:53-118 | one oracle call per step; the step ends the run exactly on a final answer or an action without a proposal; a final answer becomes an assistant message; a missing proposal logs an error; no tool in the always-deny set runs |
| Orchestration.RunGrows | agent/orchestrator.py:52-53 | a run only appends, and calls the oracle at most once per remaining step |
| Orchestration.RunWithoutFinalStops | agent/orchestrator.py:120-122 | an oracle that always proposes is called `max_steps` times, and the run stops with `Stopped: reached max_steps=N.` as its result and last event |
| Orchestration.DeniedToolNeverRuns | agent/orchestrator.py:73-77 | once a tool is in the always-deny set, it is never executed later in the run |
| Orchestration.NoApprovalNoExecution | agent/orchestrator.py:85-106 | an operator who never says yes sees no tool executed |
| Orchestration.ExecutionBound | agent/orchestrator.py:124-130 | a run executes at most `1 + max_retries` tools per oracle call |
| Orchestration.AlwaysDeniedSkipped | agent/orchestrator.py:73-77 | an always-denied tool gets no policy verdict, no prompt and no execution; only the reason is logged |
| Orchestration.PolicyDenialSkipped | agent/orchestrator.py:79-83 | a policy denial is logged, and no prompt is shown and nothing runs |
| Orchestration.SecondPromptIffExtra | agent/orchestrator.py:90-100 | after a first yes, a second prompt is shown exactly when extra confirmation is due |
| Orchestration.FirstRefusalSkips | agent/orchestrator.py:85-88 | a step whose first answer is not yes executes nothing and does not end the run |
| Orchestration.NoExecutionWithoutApproval | tests/test_orchestrator.py:45-63 | answers `n` then `y` to an oracle that proposes once and then says `done`: the run ends with `done` and nothing executed |
| Orchestration.Orchestrator.constructor | agent/orchestrator.py:33-48 | a new orchestrator keeps the given policy, oracle and tool back-ends and starts with an empty always-deny set |
| Orchestration.Orchestrator.Approve | agent/orchestrator.py:145-157 | returns true exactly for `y`/`yes` after strip and lower; `ad` adds the tool to the always-deny set, which only grows |
| Orchestration.Orchestrator.ExecuteWithRetries | agent/orchestrator.py:124-130 | the retry loop computes `Retries`: the final result and the number of executions |
| Orchestration.Orchestrator.RunStep | agent/orchestrator.py:53-71 | one loop pass changes the session, always-deny set and counters exactly as `Step` says |
| Orchestration.Orchestrator.HandleProposal | agent/orchestrator.py:73-83 | handling a proposal changes the state exactly as `Act` says |
| Orchestration.Orchestrator.ConsultOperator | agent/orchestrator.py:85-118 | prompting and executing change the state exactly as `Consult` says |
| Orchestration.Orchestrator.Run | agent/orchestrator.py:50-122 | the returned text and the final session, always-deny set and counters are those of `RunSpec`, with the always-deny set carried over from earlier runs |
| RunManagement.Normalize | webapp/run_manager.py:92 | a stored decision has no surrounding whitespace and no upper-case letter, and is empty exactly for a blank decision |
| RunManagement.Offered | webapp/run_manager.py:89-96 | an answer is accepted exactly for the outstanding request id. It is stored normalized, status becomes running and one `approval_received` is logged, and the question stays. Otherwise nothing changes |
| RunManagement.Registered | webapp/run_manager.py:186-190 | posting a question sets it pending, clears the answer, sets `waiting_approval` and logs one `approval_requested` |
| RunManagement.Resolved | webapp/run_manager.py:192-200 | with no answer, the waiter times out: `approval_timeout` is logged, status becomes running and the result is `n`. With an answer it is returned, `n` if empty. Either way the question is withdrawn |
| RunManagement.CompletedWith | webapp/run_manager.py:167-171 | completion stores the final text, sets `completed`, withdraws any question and logs `completed` |
| RunManagement.FailedWith | webapp/run_manager.py:172-176 | failure stores the error, sets `failed` and logs `failed`; nothing else changes |
| RunManagement.TransitionPreserves | webapp/run_manager.py:85-200 | every locked section keeps "waiting implies a question and no answer" and only appends events |
| RunManagement.ReplayPreserves | webapp/run_manager.py:85-200 | any sequence of locked sections keeps the invariant, and the event list only grows |
| RunManagement.AnsweredHandshake | webapp/run_manager.py:186-200 | question, matching answer, wake-up: the waiter gets the normalized answer (`n` for a blank one), and the log shows the request and the answer |
| RunManagement.TimedOutHandshake | webapp/run_manager.py:186-197 | question and no answer: the waiter gets `n`, the run is running, and the log shows the request and the time-out |
| RunManagement.StaleAnswerRefused | webapp/run_manager.py:90-91 | an answer with another request id is refused and changes nothing |
| RunManagement.AcceptedTwice | webapp/run_manager.py:89-96 | two answers to the outstanding question are both accepted in turn, both logged, and the second is the one stored |
| RunManagement.LaterAnswerWins | webapp/run_manager.py:89-96 | two answers before the wake-up are both accepted and logged; the waiter collects the later one |
| RunManagement.AnswerAfterWakeRefused | webapp/run_manager.py:90-91 | once the waiter has collected its answer, answering the same question again is refused |
| RunManagement.PendingOutlivesWaiting | webapp/run_manager.py:92-96 | after an accepted answer the run is running while its question is still pending |
| RunManagement.RunState.constructor | webapp/run_manager.py:50-60 | a new run is running with no text, error, question, answer or events |
| RunManagement.RunState.Offer | webapp/run_manager.py:89-96 | the locked part of `approve` performs `Offered` in place |
| RunManagement.RunState.Register | webapp/run_manager.py:186-190 | performs `Registered` in place |
| RunManagement.RunState.Resolve | webapp/run_manager.py:192-200 | performs `Resolved` in place and returns its answer |
| RunManagement.RunState.Complete | webapp/run_manager.py:167-171 | performs `CompletedWith` in place |
| RunManagement.RunState.Fail | webapp/run_manager.py:172-176 | performs `FailedWith` in place |
| RunManagement.RunManager.constructor | webapp/run_manager.py:65-70 | a new manager has no runs |
| RunManagement.RunManager.CreateRun | webapp/run_manager.py:72-79 | a request with a non-empty goal gets a fresh run state in its initial state, registered under the given id |
| RunManagement.RunManager.GetRun | webapp/run_manager.py:81-83 | the run registered under the id, or nothing |
| RunManagement.RunManager.Approve | webapp/run_manager.py:85-96 | an unknown run is refused; otherwise the run's `Offered` transition decides, and no other run changes |
| RunManagement.RunManager.Snapshot | webapp/run_manager.py:98-112 | nothing for an unknown run; otherwise the run's fields, with the event count equal to the event list's length |
| RunManagement.RunManager.Events | webapp/run_manager.py:114-119 | nothing for an unknown run; otherwise a list equal to the run's events |
| RunManagement.RunManager.Finish | webapp/run_manager.py:167-176 | a run that returned is completed with its text; one that raised is failed with the error |
| RunManagement.RunManager.WaitForApproval | webapp/run_manager.py:178-200 | with no answer in time the result is `n`; otherwise the normalized answer, `n` if blank. Afterwards nothing is pending and the run is running; the result and the new fields are exactly `Registered`, then `Offered` when an answer arrived, then `Resolved`, so the logged events, final text, error and stored answer are determined |

## Left out

- Logging and I/O are not modelled:
  - the JSON-lines log writes (`_json_log`) and the `logging` calls;
  - message timestamps;
  - the JSON rendering of the context and of events;
  - the text of the approval prompt.

  The session keeps typed entries instead of dictionaries.
- Threads, the condition variable, the one-hour clock, `uuid4` and the registry lock are not modelled.
  - Each locked section is one transition.
  - The wait's outcome is decided by whether an answer is stored when the waiter wakes.
  - A run id is a parameter of `CreateRun`, and a request id is part of the `PendingApproval` given to `Register`.
- The oracle client, the file, shell and web tools, the command-line front end and the web routes are not part of this model. The oracle and the tools are function parameters.
- The oracle is modelled as a function of the step number, the operator's answers as a function of the prompt's index within the run, and the tools as a function of the execution's index within the run. All three indices restart with each run, so an oracle, an `input_fn` or a tool double whose behaviour depends on calls made in earlier runs on the same orchestrator is not captured.
- The oracle and the operator always answer. An `input_fn` that raises (an `EOFError` at the end of input, say) or an oracle call that raises propagates out of `run` in the source; the model has no such path.
- `_run_worker`'s configuration look-up (provider, model, defaults from the configuration file) is not modelled.
  - The worker's call to the orchestrator is not wired to the handshake. It passes `structured_approve_fn`, but `Orchestrator.run` takes only `input_fn`, so the call as written raises a `TypeError`, which the worker records as a failure.
  - The model therefore takes the worker's outcome as a parameter of `Finish`, and models the wait on its own.
- `RunState.session` (the session reference the worker stores for display) is not modelled.
- `str.lower` is modelled for ASCII only, and the regular-expression class `\w` covers ASCII letters, digits and `_` only. Other letters pass through unchanged and count as non-word characters.
- Paths use `/` as the only separator. Symbolic links, drive letters and a leading `//` get no special treatment. The working directory is a parameter.
  - The out-of-scope test in tests/test_policy.py:17-26 writes `..\outside.txt`, which is denied only where `\` is a separator.
  - Under `/` it names a file inside the root (`Policy.BackslashIsAnOrdinaryCharacter`). The same test written with `/` is `Policy.ParentPathOutOfScope`.
- An argument value is reduced to its `str()` rendering and its truthiness, the only two facts the policy uses.
- Two behaviours of `approve` and the wait are modelled as the code has them:
  - an accepted answer does not withdraw the pending question, so "waiting for approval" and "a question is pending" are not equivalent (`RunManagement.PendingOutlivesWaiting`);
  - collecting an answer does not clear the stored answer. It is cleared only when the next question is posted (`RunManagement.Resolved`).
