/** The web front end's run registry and its approval handshake. Each run has
    a state record that three parties touch under the run's lock: the worker
    (which finishes the run), the waiter inside the worker (which posts an
    approval request and later collects the answer) and the HTTP handler
    `approve` (which delivers an operator's answer). The handshake is modelled
    as a sequential state machine: each locked section is one transition, and
    the condition-variable wait is replaced by its two possible wake-ups. */
module RunManagement {
  import opened Types
  import opened Text

  datatype RunStatus = Running | WaitingApproval | Completed | Failed

  /** A request to start a run; the optional fields fall back to the
      configuration when absent. */
  datatype RunRequest = RunRequest(
    goal: string,
    cwd: string := ".",
    provider: Option<string> := None,
    model: Option<string> := None,
    maxSteps: Option<int> := None,
    maxRetries: Option<int> := None,
    approvalMode: Option<string> := None,
    teamMode: bool := false)

  /** The request schema insists on a non-empty goal. */
  predicate ValidRequest(r: RunRequest) {
    |r.goal| >= 1
  }

  /** One outstanding question to the operator. */
  datatype PendingApproval = PendingApproval(
    requestId: string,
    toolName: string,
    reason: string,
    args: Args,
    stage: string)

  /** The entries of a run's event list. */
  datatype RunEvent =
    | ApprovalRequested(pending: PendingApproval)
    | ApprovalReceived(decision: string)
    | ApprovalTimeout(requestId: string)
    | RunCompleted(finalText: string)
    | RunFailed(error: string)

  /** The mutable part of a run's state record, as one value. */
  datatype RunFields = RunFields(
    status: RunStatus,
    finalText: string,
    error: string,
    pending: Option<PendingApproval>,
    approvalAnswer: Option<string>,
    events: seq<RunEvent>)

  /** A fresh run: running, nothing pending, no answer and no events. */
  const InitialFields := RunFields(Running, "", "", None, None, [])

  /** The one invariant the handshake keeps: a run waiting for approval has a
      question outstanding and no answer yet. The converse does not hold,
      since `approve` leaves the question in place until the waiter collects
      the answer (see `PendingOutlivesWaiting`). */
  predicate Valid(f: RunFields) {
    f.status == WaitingApproval ==> f.pending.Some? && f.approvalAnswer.None?
  }

  /** How an operator's decision is stored: stripped and lower-cased. */
  function Normalize(decision: string): (r: string)
    ensures |r| <= |decision|
    ensures r == [] <==> AllSpace(decision)
    ensures r != [] ==> !IsSpace(r[0]) && !IsSpace(r[|r| - 1])
    ensures forall i :: 0 <= i < |r| ==> !IsUpper(r[i])
  {
    Lower(Strip(decision))
  }

  /** The transitions of one run. */
  datatype Transition =
    | Offer(requestId: string, decision: string)
    | Register(request: PendingApproval)
    | Resolve
    | Complete(finalText: string)
    | Fail(error: string)

  // ---------------------------------------------------------------------
  // Specification of each locked section

  /** The locked part of `approve`: an answer is accepted only for the
      question currently outstanding; it is stored, the run goes back to
      running and the answer is logged. The question itself stays. */
  function Offered(f: RunFields, requestId: string, decision: string): (r: (bool, RunFields))
    ensures r.0 <==> f.pending.Some? && f.pending.value.requestId == requestId
    ensures !r.0 ==> r.1 == f
    ensures r.0 ==> r.1.approvalAnswer == Some(Normalize(decision)) && r.1.status == Running
    ensures r.0 ==> r.1.events == f.events + [ApprovalReceived(Normalize(decision))]
    ensures r.1.pending == f.pending && r.1.finalText == f.finalText && r.1.error == f.error
    ensures Valid(r.1) <== Valid(f)
  {
    if f.pending.None? || f.pending.value.requestId != requestId then (false, f)
    else
      var answer := Normalize(decision);
      (true, f.(approvalAnswer := Some(answer), status := Running,
                events := f.events + [ApprovalReceived(answer)]))
  }

  /** The first locked section of the wait: post the question, forget any
      earlier answer and wait. */
  function Registered(f: RunFields, request: PendingApproval): (r: RunFields)
    ensures r.pending == Some(request) && r.approvalAnswer == None && r.status == WaitingApproval
    ensures r.events == f.events + [ApprovalRequested(request)]
    ensures r.finalText == f.finalText && r.error == f.error
    ensures Valid(r)
  {
    f.(pending := Some(request), approvalAnswer := None, status := WaitingApproval,
       events := f.events + [ApprovalRequested(request)])
  }

  /** The second locked section of the wait, on waking. The wait ends with no
      answer only by timing out; then the time-out is logged, the question
      withdrawn, the run set running again and the answer is `n`. Otherwise
      the question is withdrawn and the stored answer returned, `n` when it
      is empty. */
  function Resolved(f: RunFields): (r: (string, RunFields))
    requires f.pending.Some?
    ensures r.1.pending == None && r.1.finalText == f.finalText && r.1.error == f.error
    ensures r.1.approvalAnswer == f.approvalAnswer
    ensures f.approvalAnswer.None? ==>
              r.0 == "n" && r.1.status == Running
              && r.1.events == f.events + [ApprovalTimeout(f.pending.value.requestId)]
    ensures f.approvalAnswer.Some? ==>
              r.1.status == f.status && r.1.events == f.events
              && r.0 == if f.approvalAnswer.value == [] then "n" else f.approvalAnswer.value
    ensures Valid(r.1) <== Valid(f)
  {
    match f.approvalAnswer
    case None =>
      ("n", f.(events := f.events + [ApprovalTimeout(f.pending.value.requestId)],
               pending := None, status := Running))
    case Some(answer) =>
      (if answer == [] then "n" else answer, f.(pending := None))
  }

  /** The worker's normal end: the final text is kept, the run completed,
      any question withdrawn and the completion logged. */
  function CompletedWith(f: RunFields, finalText: string): (r: RunFields)
    ensures r.status == Completed && r.finalText == finalText && r.pending == None
    ensures r.events == f.events + [RunCompleted(finalText)]
    ensures r.error == f.error && r.approvalAnswer == f.approvalAnswer
    ensures Valid(r)
  {
    f.(finalText := finalText, status := Completed, events := f.events + [RunCompleted(finalText)],
       pending := None)
  }

  /** The worker's end by an exception: the run failed with the exception's
      text, which is logged. Nothing else changes. */
  function FailedWith(f: RunFields, error: string): (r: RunFields)
    ensures r.status == Failed && r.error == error
    ensures r.events == f.events + [RunFailed(error)]
    ensures r.finalText == f.finalText && r.pending == f.pending && r.approvalAnswer == f.approvalAnswer
    ensures Valid(r)
  {
    f.(status := Failed, error := error, events := f.events + [RunFailed(error)])
  }

  /** A transition is possible in a state: collecting an answer needs a
      question outstanding. */
  predicate Enabled(f: RunFields, t: Transition) {
    t.Resolve? ==> f.pending.Some?
  }

  /** The state after one transition. */
  function Apply(f: RunFields, t: Transition): RunFields
    requires Enabled(f, t)
  {
    match t
    case Offer(id, decision) => Offered(f, id, decision).1
    case Register(request) => Registered(f, request)
    case Resolve => Resolved(f).1
    case Complete(text) => CompletedWith(f, text)
    case Fail(error) => FailedWith(f, error)
  }

  /** Every transition keeps the invariant and only appends to the event
      list. */
  lemma TransitionPreserves(f: RunFields, t: Transition)
    requires Enabled(f, t) && Valid(f)
    ensures Valid(Apply(f, t))
    ensures f.events <= Apply(f, t).events
  {
  }

  /** The state after a sequence of transitions, if each is enabled in turn. */
  function Replay(f: RunFields, ts: seq<Transition>): Option<RunFields>
    decreases |ts|
  {
    if ts == [] then Some(f)
    else if !Enabled(f, ts[0]) then None
    else Replay(Apply(f, ts[0]), ts[1..])
  }

  /** From a valid state, any sequence of transitions keeps the invariant and
      the event list is only ever extended. */
  lemma {:induction false} ReplayPreserves(f: RunFields, ts: seq<Transition>)
    requires Valid(f)
    ensures var r := Replay(f, ts); r.Some? ==> Valid(r.value) && f.events <= r.value.events
    decreases |ts|
  {
    if ts != [] && Enabled(f, ts[0]) {
      TransitionPreserves(f, ts[0]);
      ReplayPreserves(Apply(f, ts[0]), ts[1..]);
    }
  }

  // ---------------------------------------------------------------------
  // The handshake end to end

  /** Question, matching answer, wake-up: the waiter gets the normalized
      answer (`n` for a blank one), the question is gone, and the log shows
      the request and the answer. */
  lemma AnsweredHandshake(f: RunFields, request: PendingApproval, decision: string)
    ensures var (ok, g) := Offered(Registered(f, request), request.requestId, decision);
            var (answer, h) := Resolved(g);
            ok && answer == (if AllSpace(decision) then "n" else Normalize(decision))
            && h.pending == None && h.status == Running
            && h.events == f.events + [ApprovalRequested(request), ApprovalReceived(Normalize(decision))]
  {
  }

  /** Question and no answer: the waiter times out with `n`, and the log
      shows the request and the time-out. */
  lemma TimedOutHandshake(f: RunFields, request: PendingApproval)
    ensures var (answer, h) := Resolved(Registered(f, request));
            answer == "n" && h.pending == None && h.status == Running
            && h.events == f.events + [ApprovalRequested(request), ApprovalTimeout(request.requestId)]
  {
  }

  /** An answer for any other question is refused and changes nothing, so a
      stale answer cannot satisfy a newer question. */
  lemma StaleAnswerRefused(f: RunFields, request: PendingApproval, staleId: string, decision: string)
    requires staleId != request.requestId
    ensures var g := Registered(f, request);
            Offered(g, staleId, decision) == (false, g)
  {
  }

  /** Two answers to the outstanding question are both accepted, in turn. */
  lemma AcceptedTwice(g0: RunFields, first: string, second: string)
    requires g0.pending.Some?
    ensures var id := g0.pending.value.requestId;
            var (ok1, g1) := Offered(g0, id, first);
            var (ok2, g2) := Offered(g1, id, second);
            ok1 && ok2 && g2.pending == g0.pending && g2.approvalAnswer == Some(Normalize(second))
            && g2.events == g0.events + [ApprovalReceived(Normalize(first)), ApprovalReceived(Normalize(second))]
  {
    var id := g0.pending.value.requestId;
    var g1 := Offered(g0, id, first).1;
    assert g1.pending == g0.pending;
    var g2 := Offered(g1, id, second).1;
    assert g2.events == g0.events + [ApprovalReceived(Normalize(first))] + [ApprovalReceived(Normalize(second))];
  }

  /** Two answers to the same question before the waiter wakes are both
      accepted and logged; the later one is what the waiter collects. */
  lemma LaterAnswerWins(f: RunFields, request: PendingApproval, first: string, second: string)
    requires !AllSpace(second)
    ensures var (ok1, g1) := Offered(Registered(f, request), request.requestId, first);
            var (ok2, g2) := Offered(g1, request.requestId, second);
            ok1 && ok2 && Resolved(g2).0 == Normalize(second)
            && g2.events == f.events + [ApprovalRequested(request), ApprovalReceived(Normalize(first)),
                                        ApprovalReceived(Normalize(second))]
  {
    var g0 := Registered(f, request);
    AcceptedTwice(g0, first, second);
    var a2 := Normalize(second);
    assert a2 != [];
    var g1 := Offered(g0, request.requestId, first).1;
    var g2 := Offered(g1, request.requestId, second).1;
    assert g2.approvalAnswer == Some(a2);
    assert Resolved(g2).0 == a2;
    assert g0.events == f.events + [ApprovalRequested(request)];
  }

  /** Once the waiter has collected its answer, answering the same question
      again is refused. */
  lemma AnswerAfterWakeRefused(f: RunFields, request: PendingApproval, first: string, second: string)
    ensures var g := Resolved(Offered(Registered(f, request), request.requestId, first).1).1;
            Offered(g, request.requestId, second) == (false, g)
  {
  }

  /** After an accepted answer the run is running while its question is
      still outstanding: "waiting for approval" and "a question is pending"
      are not the same. */
  lemma PendingOutlivesWaiting(f: RunFields, request: PendingApproval, decision: string)
    ensures var g := Offered(Registered(f, request), request.requestId, decision).1;
            g.status == Running && g.pending == Some(request)
  {
  }

  // ---------------------------------------------------------------------
  // The state record and the registry

  datatype RunSnapshot = RunSnapshot(
    runId: string,
    status: RunStatus,
    goal: string,
    cwd: string,
    finalText: string,
    error: string,
    pending: Option<PendingApproval>,
    eventCount: nat)

  class RunState {
    const runId: string
    const request: RunRequest
    var status: RunStatus
    var finalText: string
    var error: string
    var pending: Option<PendingApproval>
    var approvalAnswer: Option<string>
    var events: seq<RunEvent>

    function Fields(): RunFields
      reads this
    {
      RunFields(status, finalText, error, pending, approvalAnswer, events)
    }

    constructor (runId: string, request: RunRequest)
      ensures this.runId == runId && this.request == request
      ensures Fields() == InitialFields
    {
      this.runId := runId;
      this.request := request;
      status := Running;
      finalText := "";
      error := "";
      pending := None;
      approvalAnswer := None;
      events := [];
    }

    /** The locked part of `approve`. */
    method Offer(requestId: string, decision: string) returns (accepted: bool)
      modifies this
      ensures (accepted, Fields()) == Offered(old(Fields()), requestId, decision)
    {
      if pending.None? || pending.value.requestId != requestId {
        return false;
      }
      approvalAnswer := Some(Lower(Strip(decision)));
      status := Running;
      events := events + [ApprovalReceived(approvalAnswer.value)];
      return true;
    }

    /** Posts a question and starts waiting. */
    method Register(request: PendingApproval)
      modifies this
      ensures Fields() == Registered(old(Fields()), request)
    {
      pending := Some(request);
      approvalAnswer := None;
      status := WaitingApproval;
      events := events + [ApprovalRequested(request)];
    }

    /** Wakes up and collects the answer, or times out. */
    method Resolve() returns (answer: string)
      requires pending.Some?
      modifies this
      ensures (answer, Fields()) == Resolved(old(Fields()))
    {
      if approvalAnswer.None? {
        events := events + [ApprovalTimeout(pending.value.requestId)];
        pending := None;
        status := Running;
        return "n";
      }
      answer := if approvalAnswer.value == [] then "n" else approvalAnswer.value;
      pending := None;
    }

    method Complete(text: string)
      modifies this
      ensures Fields() == CompletedWith(old(Fields()), text)
    {
      finalText := text;
      status := Completed;
      events := events + [RunCompleted(text)];
      pending := None;
    }

    method Fail(message: string)
      modifies this
      ensures Fields() == FailedWith(old(Fields()), message)
    {
      status := Failed;
      error := message;
      events := events + [RunFailed(message)];
    }
  }

  /** How a worker's call to the orchestrator ended. */
  datatype WorkerOutcome = Finished(finalText: string) | Raised(error: string)

  class RunManager {
    var runs: map<string, RunState>

    constructor ()
      ensures runs == map[]
    {
      runs := map[];
    }

    /** Registers a new run under a fresh identifier. */
    method CreateRun(runId: string, req: RunRequest) returns (state: RunState)
      requires ValidRequest(req)
      modifies this
      ensures fresh(state) && state.runId == runId && state.request == req
      ensures state.Fields() == InitialFields
      ensures runs == old(runs)[runId := state]
    {
      state := new RunState(runId, req);
      runs := runs[runId := state];
    }

    method GetRun(runId: string) returns (r: Option<RunState>)
      ensures r.Some? <==> runId in runs
      ensures r.Some? ==> r.value == runs[runId]
    {
      if runId in runs {
        return Some(runs[runId]);
      }
      return None;
    }

    /** Delivers an operator's answer: refused for an unknown run, otherwise
        decided by the run's outstanding question. */
    method Approve(runId: string, requestId: string, decision: string) returns (ok: bool)
      modifies if runId in runs then {runs[runId]} else {}
      ensures runId !in runs ==> !ok
      ensures runId in runs ==>
                (ok, runs[runId].Fields()) == Offered(old(runs[runId].Fields()), requestId, decision)
    {
      var state := GetRun(runId);
      if state.None? {
        return false;
      }
      ok := state.value.Offer(requestId, decision);
    }

    /** The run's summary, or nothing for an unknown run. */
    method Snapshot(runId: string) returns (s: Option<RunSnapshot>)
      ensures s.Some? <==> runId in runs
      ensures s.Some? ==> var st := runs[runId];
                s.value == RunSnapshot(st.runId, st.status, st.request.goal, st.request.cwd,
                                    st.finalText, st.error, st.pending, |st.events|)
    {
      var state := GetRun(runId);
      if state.None? {
        return None;
      }
      var st := state.value;
      return Some(RunSnapshot(st.runId, st.status, st.request.goal, st.request.cwd,
                           st.finalText, st.error, st.pending, |st.events|));
    }

    /** A copy of the run's event list, or nothing for an unknown run. */
    method Events(runId: string) returns (e: Option<seq<RunEvent>>)
      ensures e.Some? <==> runId in runs
      ensures e.Some? ==> e.value == runs[runId].events
    {
      var state := GetRun(runId);
      if state.None? {
        return None;
      }
      return Some(state.value.events);
    }

    /** The worker's last locked section, for either way its run ends. */
    method Finish(state: RunState, outcome: WorkerOutcome)
      modifies state
      ensures state.Fields() == match outcome
                                case Finished(text) => CompletedWith(old(state.Fields()), text)
                                case Raised(message) => FailedWith(old(state.Fields()), message)
    {
      match outcome
      case Finished(text) => state.Complete(text);
      case Raised(message) => state.Fail(message);
    }

    /** `_wait_for_approval`: post the question, then wake up; `answered`
        stands for whether an answer arrived in time, and an arriving answer
        is delivered through `approve` for the question just posted. */
    method WaitForApproval(state: RunState, request: PendingApproval, answered: Option<string>)
      returns (answer: string)
      modifies state
      ensures answer == match answered
                        case None => "n"
                        case Some(d) => if AllSpace(d) then "n" else Normalize(d)
      ensures state.pending == None && state.status == Running
      ensures (answer, state.Fields())
              == Resolved(match answered
                          case None => Registered(old(state.Fields()), request)
                          case Some(d) => Offered(Registered(old(state.Fields()), request), request.requestId, d).1)
    {
      state.Register(request);
      if answered.Some? {
        var ok := state.Offer(request.requestId, answered.value);
      }
      answer := state.Resolve();
    }
  }
}
