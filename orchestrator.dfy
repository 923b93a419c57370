/** The approval-gated step loop. Each step asks the oracle for a decision and
    then either ends the run (a final answer, or an action without a
    proposal) or handles one proposal: a tool the operator has always denied
    is skipped, a policy refusal is skipped, otherwise the operator is asked,
    asked a second time when the action is high-risk or the mode is strict,
    and only then is the tool executed, with retries on transient failures.

    The functions `Act`, `Step` and `RunFrom` say what one proposal, one step
    and the rest of a run do to a `World`: the session's two lists, the
    orchestrator's always-deny set and three counters of the outside effects
    (prompts shown, oracle calls, tool executions). The class `Orchestrator`
    does the same work in place and is proved equal to them. */
module Orchestration {
  import opened Types
  import opened Text
  import opened Policy
  import opened Session

  datatype RunConfig = RunConfig(
    maxSteps: int := 20,
    approvalMode: string := "normal",
    teamMode: bool := false,
    logPath: string := "agent_run.jsonl",
    maxRetries: int := 1)

  /** What the oracle is asked at a step, and what it answers. */
  datatype OracleCall = OracleCall(step: nat, goal: string, context: PromptContext, teamMode: bool)
  datatype OracleReply = OracleReply(decision: AgentDecision, metrics: Args)

  /** What an approval prompt shows the operator. */
  datatype Prompt = Prompt(tool: string, reason: string, args: Args)

  /** A tool either returns a result or raises. */
  datatype ToolOutcome = Returned(result: ActionResult) | Raised(message: string)

  /** The oracle, by step number. */
  type Oracle = OracleCall -> OracleReply
  /** The operator's raw answer to the `n`-th prompt of a run. */
  type Answers = (nat, Prompt) -> string
  /** The tool back-ends' outcome for the `n`-th execution of a run. */
  type Backend = (nat, string, Args) -> ToolOutcome

  const NoFinalResponse: string := "No final response."
  const NoPayloadMessage: string := "Model returned action kind without action payload."
  const ExtraReason: string := "Extra confirmation required for high-risk/strict mode."
  const RetryableErrors: set<string> := {"timeout", "web_error", "shell_error", "exception"}

  function AlwaysDeniedMessage(tool: string): string {
    "Tool '" + tool + "' is always denied for this session."
  }

  function StopMessage(maxSteps: int): string {
    "Stopped: reached max_steps=" + IntToString(maxSteps) + "."
  }

  function Max0(n: int): nat {
    if n < 0 then 0 else n
  }

  // ---------------------------------------------------------------------
  // Answers

  datatype Answer = Yes | No | AlwaysDeny

  /** `input_fn(prompt).strip().lower()`, read as the prompt offers it:
      surrounding whitespace is dropped one character at a time, then the
      rest is lower-cased and classified. */
  function Interpret(raw: string): Answer
    decreases |raw|
  {
    if raw != [] && IsSpace(raw[0]) then Interpret(raw[1..])
    else if raw != [] && IsSpace(raw[|raw| - 1]) then Interpret(raw[..|raw| - 1])
    else Classify(Lower(raw))
  }

  /** `Interpret` is `strip`, then `lower`, then the classification. */
  lemma {:induction false} InterpretStrips(raw: string)
    ensures Interpret(raw) == Classify(Lower(Strip(raw)))
    decreases |raw|
  {
    if raw != [] && IsSpace(raw[0]) {
      InterpretStrips(raw[1..]);
      StripDropFirst(raw);
    } else if raw != [] && IsSpace(raw[|raw| - 1]) {
      InterpretStrips(raw[..|raw| - 1]);
      StripDropLast(raw);
    } else {
      StripIs(raw, 0, |raw|);
      assert raw[0..|raw|] == raw;
    }
  }

  /** The meaning of a stripped, lower-cased answer. */
  function Classify(ans: string): Answer {
    if ans == "ad" then AlwaysDeny
    else if ans == "y" || ans == "yes" then Yes
    else No
  }

  /** Surrounding whitespace and letter case do not matter; anything but
      `y`, `yes` and `ad` is a refusal. */
  lemma InterpretSamples()
    ensures Interpret(" Y\n") == Yes && Interpret("Yes") == Yes
    ensures Interpret("\tAD ") == AlwaysDeny
    ensures Interpret("n") == No && Interpret("") == No && Interpret("yep") == No
  {
    assert Interpret(" Y\n") == Interpret("Y") by {
      assert " Y\n"[1..] == "Y\n";
      assert "Y\n"[..1] == "Y";
    }
    assert Lower("Y") == "y";
    assert Lower("Yes") == "yes";
    assert Interpret("\tAD ") == Interpret("AD") by {
      assert "\tAD "[1..] == "AD ";
      assert "AD "[..2] == "AD";
    }
    assert Lower("AD") == "ad";
    assert Lower("n") == "n";
    assert Lower("yep") == "yep";
  }

  // ---------------------------------------------------------------------
  // Tool execution

  predicate IsRetryable(errorType: Option<string>) {
    errorType.Some? && errorType.value in RetryableErrors
  }

  /** `_execute_tool`: dispatch on the tool name; an exception becomes a
      failed result. */
  function ExecuteTool(backend: Backend, n: nat, tool: string, args: Args): (r: ActionResult)
    ensures tool !in ToolNames ==>
              !r.ok && r.errorType == Some("unknown_tool") && !IsRetryable(r.errorType) && r.stderr == tool
    ensures tool in ToolNames && backend(n, tool, args).Raised? ==>
              !r.ok && r.errorType == Some("exception") && IsRetryable(r.errorType) &&
              r.stderr == backend(n, tool, args).message
    ensures tool in ToolNames && backend(n, tool, args).Returned? ==> r == backend(n, tool, args).result
  {
    if tool in ToolNames then
      match backend(n, tool, args)
      case Returned(result) => result
      case Raised(message) => FailedResult("exception", message)
    else FailedResult("unknown_tool", tool)
  }

  /** Execution `n` of the tool fails with an error worth retrying. */
  predicate FailedRetryably(backend: Backend, n: nat, tool: string, args: Args) {
    var r := ExecuteTool(backend, n, tool, args);
    !r.ok && IsRetryable(r.errorType)
  }

  /** The retry loop from `retries` retries done and `last` the latest
      result: the final result and the number of retries. Execution `k` of
      the call uses back-end index `base + k`. */
  function RetryFrom(backend: Backend, base: nat, tool: string, args: Args, maxRetries: int,
                     retries: nat, last: ActionResult): (res: (ActionResult, nat))
    ensures retries <= res.1 <= if retries < maxRetries then maxRetries else retries
    ensures res.0.ok || !IsRetryable(res.0.errorType) || res.1 >= maxRetries
    ensures !last.ok && retries < maxRetries && IsRetryable(last.errorType) ==> res.1 > retries
    ensures res.1 == retries ==> res.0 == last
    ensures res.1 > retries ==> !last.ok && IsRetryable(last.errorType)
    ensures res.1 > retries ==> res.0 == ExecuteTool(backend, base + res.1, tool, args)
    ensures forall n :: base + retries < n < base + res.1 ==> FailedRetryably(backend, n, tool, args)
    decreases if retries < maxRetries then maxRetries - retries else 0
  {
    if !last.ok && retries < maxRetries && IsRetryable(last.errorType) then
      RetryFrom(backend, base, tool, args, maxRetries, retries + 1,
                ExecuteTool(backend, base + retries + 1, tool, args))
    else (last, retries)
  }

  /** `_execute_with_retries`: the final result and the number of
      executions. There is at least one and at most `1 + max_retries`; the
      loop gives up early only on success or on a failure that is not worth
      retrying; every execution before the last failed in a way worth
      retrying, and the result is the last execution's. */
  function Retries(backend: Backend, base: nat, tool: string, args: Args, maxRetries: int): (res: (ActionResult, nat))
    ensures 1 <= res.1 <= 1 + Max0(maxRetries)
    ensures !res.0.ok && IsRetryable(res.0.errorType) ==> res.1 == 1 + Max0(maxRetries)
    ensures var first := ExecuteTool(backend, base, tool, args);
            first.ok || !IsRetryable(first.errorType) ==> res == (first, 1)
    ensures res.0 == ExecuteTool(backend, base + res.1 - 1, tool, args)
    ensures forall n :: base <= n < base + res.1 - 1 ==> FailedRetryably(backend, n, tool, args)
  {
    var (r, n) := RetryFrom(backend, base, tool, args, maxRetries, 0, ExecuteTool(backend, base, tool, args));
    (r, n + 1)
  }

  // ---------------------------------------------------------------------
  // The state a run acts on

  datatype World = World(
    messages: seq<Message>,
    events: seq<Event>,
    denied: set<string>,
    prompts: nat,
    calls: nat,
    executed: seq<string>)

  /** Everything a run is given: the configuration, the policy, the oracle,
      the operator, the tools and the session's goal and directory. */
  datatype Env = Env(cfg: RunConfig, engine: PolicyEngine, oracle: Oracle, answers: Answers,
                     backend: Backend, goal: string, cwd: string)

  /** Nothing is ever taken back: both lists and the executions are only
      appended to, the always-deny set and the counters only grow. */
  predicate Grows(w: World, w': World) {
    w.messages <= w'.messages && w.events <= w'.events && w.denied <= w'.denied
    && w.prompts <= w'.prompts && w.calls <= w'.calls && w.executed <= w'.executed
  }

  function Log(w: World, kind: string, data: EventData): World {
    w.(events := w.events + [Event(kind, data)])
  }

  datatype Asked = Asked(world: World, answer: Answer)

  /** `_approve`: one prompt; `ad` adds the tool to the always-deny set. */
  function Ask(env: Env, w: World, tool: string, reason: string, args: Args): (a: Asked)
    ensures a.world == w.(prompts := w.prompts + 1, denied := a.world.denied)
    ensures a.answer == Interpret(env.answers(w.prompts, Prompt(tool, reason, args)))
    ensures a.world.denied == if a.answer == AlwaysDeny then w.denied + {tool} else w.denied
  {
    var answer := Interpret(env.answers(w.prompts, Prompt(tool, reason, args)));
    Asked(w.(prompts := w.prompts + 1, denied := if answer == AlwaysDeny then w.denied + {tool} else w.denied),
          answer)
  }

  function Repeat(tool: string, n: nat): (r: seq<string>)
    ensures |r| == n && forall i :: 0 <= i < n ==> r[i] == tool
  {
    seq(n, _ => tool)
  }

  /** Runs the proposal's tool with retries and logs the final result. */
  function Execute(env: Env, w: World, p: ActionProposal): (r: World)
    ensures Grows(w, r) && r.messages == w.messages && r.calls == w.calls
    ensures r.denied == w.denied && r.prompts == w.prompts
    ensures 1 <= |r.executed| - |w.executed| <= 1 + Max0(env.cfg.maxRetries)
    ensures forall i :: |w.executed| <= i < |r.executed| ==> r.executed[i] == p.toolName
    ensures var (res, n) := Retries(env.backend, |w.executed|, p.toolName, p.args, env.cfg.maxRetries);
            |r.executed| == |w.executed| + n
            && r.events == w.events + [Event("tool_result", ToolResult(p.toolName, res))]
  {
    var (result, n) := Retries(env.backend, |w.executed|, p.toolName, p.args, env.cfg.maxRetries);
    Log(w.(executed := w.executed + Repeat(p.toolName, n)), "tool_result", ToolResult(p.toolName, result))
  }

  /** The second prompt is due for a policy verdict of extra confirmation, a
      high-risk proposal or the strict mode. */
  predicate NeedsExtra(cfg: RunConfig, pd: PolicyDecision, p: ActionProposal) {
    pd.status == NeedsExtraConfirmation || p.riskLevel == High || cfg.approvalMode == "strict"
  }

  /** Given the policy, the extra-confirmation verdict adds nothing: the
      second prompt is due exactly for high risk or the strict mode. */
  lemma NeedsExtraIffHighOrStrict(e: PolicyEngine, cfg: RunConfig, p: ActionProposal)
    ensures NeedsExtra(cfg, Evaluate(e, p), p) <==> p.riskLevel == High || cfg.approvalMode == "strict"
  {
  }

  /** The operator said yes to the prompt numbered `w.prompts` and, when a
      second confirmation is due, to the next one as well. */
  predicate Consented(env: Env, w: World, p: ActionProposal, pd: PolicyDecision) {
    Interpret(env.answers(w.prompts, Prompt(p.toolName, p.reason, p.args))) == Yes
    && (NeedsExtra(env.cfg, pd, p) ==>
          Interpret(env.answers(w.prompts + 1, Prompt(p.toolName, ExtraReason, p.args))) == Yes)
  }

  /** The prompts for a proposal the policy admitted, and the execution if
      the operator agrees. */
  function Consult(env: Env, w: World, p: ActionProposal, pd: PolicyDecision): (r: World)
    ensures Grows(w, r) && r.messages == w.messages && r.calls == w.calls
    ensures r.denied <= w.denied + {p.toolName}
    ensures |r.executed| > |w.executed| <==> Consented(env, w, p, pd)
    ensures |r.executed| - |w.executed| <= 1 + Max0(env.cfg.maxRetries)
    ensures forall i :: |w.executed| <= i < |r.executed| ==> r.executed[i] == p.toolName
  {
    var first := Ask(env, w, p.toolName, p.reason, p.args);
    if first.answer != Yes then Log(first.world, "approval_denied", Tool(p.toolName))
    else if NeedsExtra(env.cfg, pd, p) then
      var second := Ask(env, first.world, p.toolName, ExtraReason, p.args);
      if second.answer != Yes then Log(second.world, "approval_denied_extra", Tool(p.toolName))
      else Execute(env, second.world, p)
    else Execute(env, first.world, p)
  }

  /** A proposal may run only if its tool is not always denied, the policy
      does not refuse it and the operator consents. */
  predicate Authorized(env: Env, w: World, p: ActionProposal, pd: PolicyDecision) {
    p.toolName !in w.denied && pd.status != Deny && Consented(env, w, p, pd)
  }

  /** One proposal with policy verdict `pd`, from the always-deny check to
      the logged tool result. */
  function Act(env: Env, w: World, p: ActionProposal, pd: PolicyDecision): (r: World)
    ensures Grows(w, r) && r.messages == w.messages && r.calls == w.calls
    ensures r.denied <= w.denied + {p.toolName}
    ensures |r.executed| > |w.executed| <==> Authorized(env, w, p, pd)
    ensures |r.executed| - |w.executed| <= 1 + Max0(env.cfg.maxRetries)
    ensures forall i :: |w.executed| <= i < |r.executed| ==> r.executed[i] == p.toolName
  {
    if p.toolName in w.denied then Log(w, "approval_denied", Reason(AlwaysDeniedMessage(p.toolName)))
    else
      var w1 := Log(w, "policy", Verdict(pd));
      if pd.status == Deny then w1 else Consult(env, w1, p, pd)
  }

  /** `decision.final_response or "No final response."`: never empty. */
  function FinalText(d: AgentDecision): (r: string)
    ensures r != []
    ensures d.finalResponse.Some? && d.finalResponse.value != [] ==> r == d.finalResponse.value
    ensures d.finalResponse.None? || d.finalResponse.value == [] ==> r == NoFinalResponse
  {
    if d.finalResponse.Some? && d.finalResponse.value != [] then d.finalResponse.value
    else NoFinalResponse
  }

  datatype Outcome = Continue(world: World) | Finish(world: World, text: string)

  function Reply(env: Env, step: nat, w: World): OracleReply {
    env.oracle(OracleCall(step, env.goal, ContextOf(env.goal, env.cwd, w.messages, w.events), env.cfg.teamMode))
  }

  /** One step of the loop: exactly one oracle call, then the decision. */
  function Step(env: Env, step: nat, w: World): (o: Outcome)
    ensures Grows(w, o.world) && o.world.calls == w.calls + 1
    ensures var d := Reply(env, step, w).decision;
            o.Finish? <==> d.kind == Final || d.action.None?
    ensures o.Finish? ==> o.world.executed == w.executed && o.world.denied == w.denied
    ensures var d := Reply(env, step, w).decision;
            d.kind == Final ==> o.Finish? && o.text == FinalText(d)
                                && o.world.messages == w.messages + [Message("assistant", o.text)]
    ensures var d := Reply(env, step, w).decision;
            d.kind == Action && d.action.None? ==>
              o.Finish? && o.text == NoPayloadMessage && o.world.events != []
              && o.world.events[|o.world.events| - 1] == Event("error", ErrorMsg(NoPayloadMessage))
    ensures |o.world.executed| - |w.executed| <= 1 + Max0(env.cfg.maxRetries)
    ensures forall i :: |w.executed| <= i < |o.world.executed| ==> o.world.executed[i] !in w.denied
  {
    var reply := Reply(env, step, w);
    var w1 := Log(w.(calls := w.calls + 1), "model_metrics", Metrics(reply.metrics));
    var d := reply.decision;
    if d.kind == Final then
      var text := FinalText(d);
      Finish(w1.(messages := w1.messages + [Message("assistant", text)]), text)
    else if d.action.None? then
      Finish(Log(w1, "error", ErrorMsg(NoPayloadMessage)), NoPayloadMessage)
    else
      var p := d.action.value;
      Continue(Act(env, w1, p, Evaluate(env.engine, p)))
  }

  datatype RunResult = RunResult(world: World, text: string)

  /** The loop from `step` on; past `max_steps` the run stops with a
      `stopped` event. */
  function RunFrom(env: Env, step: nat, w: World): RunResult
    decreases if step <= env.cfg.maxSteps then env.cfg.maxSteps + 1 - step else 0
  {
    if step > env.cfg.maxSteps then
      var msg := StopMessage(env.cfg.maxSteps);
      RunResult(Log(w, "stopped", Reason(msg)), msg)
    else
      match Step(env, step, w)
      case Finish(w', text) => RunResult(w', text)
      case Continue(w') => RunFrom(env, step + 1, w')
  }

  /** `Orchestrator.run`: the goal becomes the first user message, then the
      steps run from 1. */
  function RunSpec(env: Env, w: World): RunResult {
    RunFrom(env, 1, w.(messages := w.messages + [Message("user", env.goal)]))
  }

  // ---------------------------------------------------------------------
  // Properties of a run

  /** Steps still allowed from `step`. */
  function Budget(maxSteps: int, step: nat): nat {
    if step <= maxSteps then maxSteps + 1 - step else 0
  }

  /** One more turn of the loop after a step that did not end the run. */
  lemma ContinueUnfolds(env: Env, step: nat, w: World)
    requires step <= env.cfg.maxSteps && Step(env, step, w).Continue?
    ensures RunFrom(env, step, w) == RunFrom(env, step + 1, Step(env, step, w).world)
    ensures Budget(env.cfg.maxSteps, step) == Budget(env.cfg.maxSteps, step + 1) + 1
  {
  }

  /** Past the budget the run stops with the stop message. */
  lemma StopUnfolds(env: Env, step: nat, w: World)
    requires step > env.cfg.maxSteps
    ensures RunFrom(env, step, w)
            == RunResult(Log(w, "stopped", Reason(StopMessage(env.cfg.maxSteps))), StopMessage(env.cfg.maxSteps))
    ensures Budget(env.cfg.maxSteps, step) == 0
  {
  }

  /** A run only appends, and it calls the oracle at most once per remaining
      step. */
  lemma {:induction false} RunGrows(env: Env, step: nat, w: World)
    ensures Grows(w, RunFrom(env, step, w).world)
    ensures RunFrom(env, step, w).world.calls <= w.calls + Budget(env.cfg.maxSteps, step)
    decreases Budget(env.cfg.maxSteps, step)
  {
    if step <= env.cfg.maxSteps {
      var o := Step(env, step, w);
      if o.Continue? {
        RunGrows(env, step + 1, o.world);
      }
    }
  }

  /** A step whose oracle brings a proposal does not end the run. */
  lemma ProposalContinues(env: Env, step: nat, w: World)
    requires forall c :: env.oracle(c).decision.kind == Action && env.oracle(c).decision.action.Some?
    ensures Step(env, step, w).Continue?
  {
    var reply := Reply(env, step, w);
    assert reply.decision.kind == Action && reply.decision.action.Some?;
  }

  /** An oracle that never gives a final answer and always brings a proposal
      is called once per step, and the run stops at the budget with the stop
      message as its last event. */
  lemma {:induction false} RunWithoutFinalStops(env: Env, step: nat, w: World)
    requires forall c :: env.oracle(c).decision.kind == Action && env.oracle(c).decision.action.Some?
    ensures var r := RunFrom(env, step, w);
            r.text == StopMessage(env.cfg.maxSteps) && r.world.events != []
            && r.world.events[|r.world.events| - 1] == Event("stopped", Reason(r.text))
            && r.world.calls == w.calls + Budget(env.cfg.maxSteps, step)
    decreases Budget(env.cfg.maxSteps, step)
  {
    if step <= env.cfg.maxSteps {
      ProposalContinues(env, step, w);
      ContinueUnfolds(env, step, w);
      RunWithoutFinalStops(env, step + 1, Step(env, step, w).world);
    } else {
      StopUnfolds(env, step, w);
    }
  }

  /** A tool in the always-deny set when the loop reaches `step` is never
      executed afterwards. */
  lemma {:induction false} DeniedToolNeverRuns(env: Env, step: nat, w: World, tool: string)
    requires tool in w.denied
    ensures var r := RunFrom(env, step, w);
            forall i :: |w.executed| <= i < |r.world.executed| ==> r.world.executed[i] != tool
    decreases Budget(env.cfg.maxSteps, step)
  {
    if step <= env.cfg.maxSteps {
      var o := Step(env, step, w);
      if o.Continue? {
        var r := RunFrom(env, step + 1, o.world);
        assert RunFrom(env, step, w) == r;
        assert tool in o.world.denied;
        DeniedToolNeverRuns(env, step + 1, o.world, tool);
        RunGrows(env, step + 1, o.world);
        forall i | |w.executed| <= i < |r.world.executed| ensures r.world.executed[i] != tool {
          if i < |o.world.executed| {
            assert r.world.executed[i] == o.world.executed[i];
            assert o.world.executed[i] !in w.denied;
          }
        }
      }
    }
  }

  /** The operator never says yes. */
  ghost predicate NeverApproves(answers: Answers) {
    forall n, pr :: Interpret(answers(n, pr)) != Yes
  }

  /** Without a yes from the operator nothing is executed. */
  lemma {:induction false} NoApprovalNoExecution(env: Env, step: nat, w: World)
    requires NeverApproves(env.answers)
    ensures RunFrom(env, step, w).world.executed == w.executed
    decreases Budget(env.cfg.maxSteps, step)
  {
    if step <= env.cfg.maxSteps {
      var o := Step(env, step, w);
      var d := Reply(env, step, w).decision;
      if o.Continue? {
        var w1 := Log(w.(calls := w.calls + 1), "model_metrics", Metrics(Reply(env, step, w).metrics));
        var p := d.action.value;
        var pd := Evaluate(env.engine, p);
        assert o.world == Act(env, w1, p, pd);
        assert !Consented(env, w1, p, pd);
        NoApprovalNoExecution(env, step + 1, o.world);
      }
    }
  }

  /** From `w` to `w'` there were at most `k` executions per oracle call. */
  predicate ExecutionsPerCall(w: World, w': World, k: nat) {
    |w'.executed| - |w.executed| <= (w'.calls - w.calls) * k
  }

  lemma ExecutionsPerCallTrans(w: World, o: World, r: World, k: nat)
    requires ExecutionsPerCall(w, o, k) && ExecutionsPerCall(o, r, k)
    ensures ExecutionsPerCall(w, r, k)
  {
    var x, y := o.calls - w.calls, r.calls - o.calls;
    assert x * k + y * k == (x + y) * k;
  }

  /** Executions are bounded by the oracle calls: at most `1 + max_retries`
      per call. */
  lemma {:induction false} ExecutionBound(env: Env, step: nat, w: World)
    ensures ExecutionsPerCall(w, RunFrom(env, step, w).world, 1 + Max0(env.cfg.maxRetries))
    decreases Budget(env.cfg.maxSteps, step)
  {
    var k := 1 + Max0(env.cfg.maxRetries);
    if step <= env.cfg.maxSteps {
      var o := Step(env, step, w);
      assert o.world.calls - w.calls == 1;
      assert ExecutionsPerCall(w, o.world, k);
      if o.Continue? {
        assert RunFrom(env, step, w) == RunFrom(env, step + 1, o.world);
        ExecutionBound(env, step + 1, o.world);
        ExecutionsPerCallTrans(w, o.world, RunFrom(env, step + 1, o.world).world, k);
      }
    } else {
      var msg := StopMessage(env.cfg.maxSteps);
      assert RunFrom(env, step, w) == RunResult(Log(w, "stopped", Reason(msg)), msg);
    }
  }

  /** A tool in the always-deny set is neither judged, nor asked about, nor
      run: the step only logs why. */
  lemma AlwaysDeniedSkipped(env: Env, w: World, p: ActionProposal, pd: PolicyDecision)
    requires p.toolName in w.denied
    ensures var r := Act(env, w, p, pd);
            r.prompts == w.prompts && r.executed == w.executed && r.denied == w.denied
            && r.events == w.events + [Event("approval_denied", Reason(AlwaysDeniedMessage(p.toolName)))]
  {
  }

  /** A policy refusal is logged and skips the prompts and the execution. */
  lemma PolicyDenialSkipped(env: Env, w: World, p: ActionProposal, pd: PolicyDecision)
    requires p.toolName !in w.denied && pd.status == Deny
    ensures var r := Act(env, w, p, pd);
            r.prompts == w.prompts && r.executed == w.executed && r.denied == w.denied
            && r.events == w.events + [Event("policy", Verdict(pd))]
  {
  }

  /** After a first yes, the second prompt is shown exactly when extra
      confirmation is due. */
  lemma SecondPromptIffExtra(env: Env, w: World, p: ActionProposal, pd: PolicyDecision)
    requires p.toolName !in w.denied && pd.status != Deny
    requires Interpret(env.answers(w.prompts, Prompt(p.toolName, p.reason, p.args))) == Yes
    ensures Act(env, w, p, pd).prompts == w.prompts + if NeedsExtra(env.cfg, pd, p) then 2 else 1
  {
  }

  /** A step whose proposal gets anything but a yes at its first prompt
      executes nothing and does not end the run. */
  lemma FirstRefusalSkips(env: Env, step: nat, w: World)
    requires var d := Reply(env, step, w).decision;
             d.kind == Action && d.action.Some?
             && var p := d.action.value;
                Interpret(env.answers(w.prompts, Prompt(p.toolName, p.reason, p.args))) != Yes
    ensures var o := Step(env, step, w);
            o.Continue? && o.world.executed == w.executed
  {
    var reply := Reply(env, step, w);
    var w1 := Log(w.(calls := w.calls + 1), "model_metrics", Metrics(reply.metrics));
    var p := reply.decision.action.value;
    var pd := Evaluate(env.engine, p);
    assert Step(env, step, w) == Continue(Act(env, w1, p, pd));
    assert w1.prompts == w.prompts;
    assert !Consented(env, w1, p, pd);
  }

  // ---------------------------------------------------------------------
  // Scenario

  /** An oracle that makes proposal `p` at step 1 and answers `done`
      afterwards (in `test_no_execution_without_approval`, `p` lists the directory). */
  function ProposeThenDone(p: ActionProposal, c: OracleCall): OracleReply {
    var metrics := map["latency_ms" := Other("1", true)];
    if c.step == 1 then OracleReply(AgentDecision(Action, Some(p)), metrics)
    else OracleReply(AgentDecision(Final, finalResponse := Some("done")), metrics)
  }

  /** An operator who answers `n`, then `y`. */
  function NoThenYes(n: nat, pr: Prompt): string {
    if n == 0 then "n" else "y"
  }

  /** Step 2 of the scenario: the oracle's final answer ends the run. */
  lemma ThenDone(env: Env, p: ActionProposal, w: World)
    requires forall c :: env.oracle(c) == ProposeThenDone(p, c)
    ensures var o := Step(env, 2, w);
            o.Finish? && o.text == "done" && o.world.executed == w.executed
  {
    var d := Reply(env, 2, w).decision;
    assert d == AgentDecision(Final, finalResponse := Some("done"));
  }

  /** Refusing the only proposal ends the run with the oracle's final answer
      and no execution, whatever the proposal, the policy and the tools (the
      test `test_no_execution_without_approval` allows three steps). */
  lemma NoExecutionWithoutApproval(env: Env, p: ActionProposal, w: World)
    requires env.cfg.maxSteps >= 2 && w.prompts == 0
    requires forall c :: env.oracle(c) == ProposeThenDone(p, c)
    requires forall n, pr :: env.answers(n, pr) == NoThenYes(n, pr)
    ensures var r := RunSpec(env, w);
            r.text == "done" && r.world.executed == w.executed
  {
    var w0 := w.(messages := w.messages + [Message("user", env.goal)]);
    assert Reply(env, 1, w0).decision == AgentDecision(Action, Some(p));
    assert Interpret(env.answers(0, Prompt(p.toolName, p.reason, p.args))) == No by {
      assert Lower("n") == "n";
    }
    FirstRefusalSkips(env, 1, w0);
    ContinueUnfolds(env, 1, w0);
    var o1 := Step(env, 1, w0);
    ThenDone(env, p, o1.world);
    var o2 := Step(env, 2, o1.world);
    assert RunFrom(env, 2, o1.world) == RunResult(o2.world, o2.text);
  }

  // ---------------------------------------------------------------------
  // The orchestrator

  class Orchestrator {
    const policy: PolicyEngine
    const oracle: Oracle
    const backend: Backend
    /** Tools the operator answered `ad` for; kept across runs. */
    var alwaysDenyTools: set<string>

    constructor (policy: PolicyEngine, oracle: Oracle, backend: Backend)
      ensures this.policy == policy && this.oracle == oracle && this.backend == backend
      ensures alwaysDenyTools == {}
    {
      this.policy := policy;
      this.oracle := oracle;
      this.backend := backend;
      alwaysDenyTools := {};
    }

    function EnvOf(cfg: RunConfig, answers: Answers, goal: string, cwd: string): Env {
      Env(cfg, policy, oracle, answers, backend, goal, cwd)
    }

    /** The session, the always-deny set and the counters agree with `w`. */
    predicate Mirrors(session: SessionState, w: World, prompts: nat, executions: nat)
      reads this, session
    {
      session.messages == w.messages && session.events == w.events
      && alwaysDenyTools == w.denied && prompts == w.prompts && executions == |w.executed|
    }

    /** `_approve`, on the prompt numbered `n` of the run. */
    method Approve(tool: string, reason: string, args: Args, answers: Answers, n: nat) returns (ok: bool)
      modifies this
      ensures var answer := Interpret(answers(n, Prompt(tool, reason, args)));
              (ok <==> answer == Yes)
              && alwaysDenyTools == if answer == AlwaysDeny then old(alwaysDenyTools) + {tool} else old(alwaysDenyTools)
    {
      var raw := answers(n, Prompt(tool, reason, args));
      InterpretStrips(raw);
      var ans := Lower(Strip(raw));
      if ans == "ad" {
        alwaysDenyTools := alwaysDenyTools + {tool};
        return false;
      }
      return ans == "y" || ans == "yes";
    }

    /** `_execute_with_retries`, its first execution numbered `base`. */
    method ExecuteWithRetries(tool: string, args: Args, maxRetries: int, base: nat)
      returns (last: ActionResult, executions: nat)
      ensures (last, executions) == Retries(backend, base, tool, args, maxRetries)
    {
      last := ExecuteTool(backend, base, tool, args);
      var retries: nat := 0;
      while !last.ok && retries < maxRetries && IsRetryable(last.errorType)
        invariant RetryFrom(backend, base, tool, args, maxRetries, retries, last)
                  == RetryFrom(backend, base, tool, args, maxRetries, 0, ExecuteTool(backend, base, tool, args))
        decreases maxRetries - retries
      {
        retries := retries + 1;
        last := ExecuteTool(backend, base + retries, tool, args);
      }
      executions := retries + 1;
    }

    /** One pass of the loop body of `run`: the oracle call and the decision. */
    method RunStep(session: SessionState, cfg: RunConfig, answers: Answers, step: nat,
                   prompts: nat, executions: nat, ghost w: World)
      returns (done: bool, text: string, prompts': nat, executions': nat, ghost w': World)
      requires Mirrors(session, w, prompts, executions)
      modifies this, session
      ensures Mirrors(session, w', prompts', executions')
      ensures Step(EnvOf(cfg, answers, session.goal, session.cwd), step, w)
              == if done then Finish(w', text) else Continue(w')
    {
      var reply := oracle(OracleCall(step, session.goal, session.PromptContext(), cfg.teamMode));
      session.AddEvent("model_metrics", Metrics(reply.metrics));
      ghost var w1 := Log(w.(calls := w.calls + 1), "model_metrics", Metrics(reply.metrics));
      var d := reply.decision;
      if d.kind == Final {
        text := FinalText(d);
        session.AddMessage("assistant", text);
        done, prompts', executions', w' := true, prompts, executions, w1.(messages := w1.messages + [Message("assistant", text)]);
        return;
      }
      if d.action.None? {
        text := NoPayloadMessage;
        session.AddEvent("error", ErrorMsg(text));
        done, prompts', executions', w' := true, prompts, executions, Log(w1, "error", ErrorMsg(text));
        return;
      }
      done, text := false, "";
      prompts', executions', w' := HandleProposal(session, cfg, answers, d.action.value, prompts, executions, w1);
    }

    /** The loop body for a proposal: the always-deny check, the policy and
        then the operator. */
    method HandleProposal(session: SessionState, cfg: RunConfig, answers: Answers, p: ActionProposal,
                          prompts: nat, executions: nat, ghost w: World)
      returns (prompts': nat, executions': nat, ghost w': World)
      requires Mirrors(session, w, prompts, executions)
      modifies this, session
      ensures Mirrors(session, w', prompts', executions')
      ensures w' == Act(EnvOf(cfg, answers, session.goal, session.cwd), w, p, Evaluate(policy, p))
    {
      prompts', executions' := prompts, executions;
      if p.toolName in alwaysDenyTools {
        session.AddEvent("approval_denied", Reason(AlwaysDeniedMessage(p.toolName)));
        w' := Log(w, "approval_denied", Reason(AlwaysDeniedMessage(p.toolName)));
        return;
      }
      var pd := Evaluate(policy, p);
      session.AddEvent("policy", Verdict(pd));
      w' := Log(w, "policy", Verdict(pd));
      if pd.status == Deny {
        return;
      }
      prompts', executions', w' := ConsultOperator(session, cfg, answers, p, pd, prompts, executions, w');
    }

    /** The loop body once the policy admitted the proposal: one or two
        prompts, and the execution if the operator agrees. */
    method ConsultOperator(session: SessionState, cfg: RunConfig, answers: Answers, p: ActionProposal,
                           pd: PolicyDecision, prompts: nat, executions: nat, ghost w: World)
      returns (prompts': nat, executions': nat, ghost w': World)
      requires Mirrors(session, w, prompts, executions)
      modifies this, session
      ensures Mirrors(session, w', prompts', executions')
      ensures w' == Consult(EnvOf(cfg, answers, session.goal, session.cwd), w, p, pd)
    {
      ghost var env := EnvOf(cfg, answers, session.goal, session.cwd);
      ghost var first := Ask(env, w, p.toolName, p.reason, p.args);
      var ok := Approve(p.toolName, p.reason, p.args, answers, prompts);
      prompts', executions' := prompts + 1, executions;
      if !ok {
        session.AddEvent("approval_denied", Tool(p.toolName));
        w' := Log(first.world, "approval_denied", Tool(p.toolName));
        return;
      }
      w' := first.world;
      if NeedsExtra(cfg, pd, p) {
        ghost var second := Ask(env, first.world, p.toolName, ExtraReason, p.args);
        ok := Approve(p.toolName, ExtraReason, p.args, answers, prompts');
        prompts' := prompts' + 1;
        if !ok {
          session.AddEvent("approval_denied_extra", Tool(p.toolName));
          w' := Log(second.world, "approval_denied_extra", Tool(p.toolName));
          return;
        }
        w' := second.world;
      }
      var result, n := ExecuteWithRetries(p.toolName, p.args, cfg.maxRetries, executions');
      executions' := executions' + n;
      session.AddEvent("tool_result", ToolResult(p.toolName, result));
      w' := Log(w'.(executed := w'.executed + Repeat(p.toolName, n)), "tool_result", ToolResult(p.toolName, result));
    }

    /** `run`: the final state and text are those of `RunSpec`. */
    method Run(session: SessionState, cfg: RunConfig, answers: Answers) returns (text: string, ghost world: World)
      modifies this, session
      ensures var r := RunSpec(EnvOf(cfg, answers, session.goal, session.cwd),
                               World(old(session.messages), old(session.events), old(alwaysDenyTools), 0, 0, []));
              world == r.world && text == r.text
      ensures Mirrors(session, world, world.prompts, |world.executed|)
    {
      ghost var env := EnvOf(cfg, answers, session.goal, session.cwd);
      ghost var start := World(session.messages, session.events, alwaysDenyTools, 0, 0, []);
      session.AddMessage("user", session.goal);
      world := start.(messages := session.messages);
      var prompts: nat, executions: nat := 0, 0;
      var step: nat := 1;
      while step <= cfg.maxSteps
        invariant Mirrors(session, world, prompts, executions)
        invariant RunFrom(env, step, world) == RunSpec(env, start)
        decreases cfg.maxSteps + 1 - step
      {
        var done;
        done, text, prompts, executions, world := RunStep(session, cfg, answers, step, prompts, executions, world);
        if done {
          return;
        }
        step := step + 1;
      }
      text := StopMessage(cfg.maxSteps);
      session.AddEvent("stopped", Reason(text));
      world := Log(world, "stopped", Reason(text));
    }
  }
}
