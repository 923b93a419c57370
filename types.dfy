/** The shared vocabulary of the agent: proposals, results, oracle decisions and
    policy verdicts. Every entity here is an immutable record. */
module Types {

  datatype Option<+T> = None | Some(value: T)

  /** The three risk levels an oracle can attach to a proposal. */
  datatype RiskLevel = Low | Medium | High

  /** An argument value. Only two facts about an arbitrary value are ever used:
      its `str()` rendering and its truthiness. A string is truthy when it is
      non-empty; any other value carries both facts explicitly. */
  datatype Value = Str(s: string) | Other(rendered: string, truthy: bool)
  {
    /** What `str(value)` gives. */
    function Render(): string {
      match this
      case Str(s) => s
      case Other(r, _) => r
    }

    /** What `bool(value)` gives. */
    predicate Truthy() {
      match this
      case Str(s) => s != ""
      case Other(_, t) => t
    }
  }

  type Args = map<string, Value>

  /** The tool names the proposal record admits. */
  const ToolNames: set<string> := {"file", "shell", "web"}

  /** A single tool invocation the oracle asks for. The defaults are those of
      the record: no arguments and medium risk. */
  datatype ActionProposal = ActionProposal(
    toolName: string,
    reason: string,
    args: Args := map[],
    riskLevel: RiskLevel := Medium)

  /** What the record's validation admits: one of the three tool names and a
      non-empty reason. */
  predicate ValidProposal(p: ActionProposal) {
    p.toolName in ToolNames && |p.reason| >= 1
  }

  /** The outcome of one tool execution. */
  datatype ActionResult = ActionResult(
    ok: bool,
    payload: Option<Args> := None,
    stdout: string := "",
    stderr: string := "",
    artifacts: seq<string> := [],
    errorType: Option<string> := None)

  /** A failed execution that carries only an error tag and a message. */
  function FailedResult(errorType: string, stderr: string): (r: ActionResult)
    ensures !r.ok && r.errorType == Some(errorType) && r.stderr == stderr
    ensures r.stdout == "" && r.artifacts == [] && r.payload == None
  {
    ActionResult(false, errorType := Some(errorType), stderr := stderr)
  }

  datatype DecisionKind = Action | Final

  /** One oracle output. The record does not tie `kind` to the optional
      fields: an action decision may come without a proposal. */
  datatype AgentDecision = AgentDecision(
    kind: DecisionKind,
    action: Option<ActionProposal> := None,
    finalResponse: Option<string> := None)

  datatype PolicyStatus = Allow | Deny | NeedsExtraConfirmation

  datatype PolicyDecision = PolicyDecision(status: PolicyStatus, reason: string)
}
