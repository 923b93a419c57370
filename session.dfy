/** The session log of one run: the goal and working directory it was started
    with, and two lists that only ever grow, the conversation messages and the
    structured events. The oracle sees a window of the last ten of each. */
module Session {
  import opened Types

  datatype Message = Message(role: string, content: string)

  /** The payload of an event, one shape per kind the step loop records. */
  datatype EventData =
    | Metrics(metrics: Args)
    | ErrorMsg(msg: string)
    | Reason(reason: string)
    | Tool(tool: string)
    | Verdict(decision: PolicyDecision)
    | ToolResult(tool: string, result: ActionResult)

  datatype Event = Event(kind: string, data: EventData)

  /** What the oracle is shown: the goal, the working directory and the
      recent part of both lists. */
  datatype PromptContext = PromptContext(
    goal: string,
    cwd: string,
    recentMessages: seq<Message>,
    recentEvents: seq<Event>)

  /** How many entries of each list the context keeps. */
  const Window: nat := 10

  function Min(a: nat, b: nat): nat {
    if a < b then a else b
  }

  /** `s[-n:]` for `n >= 1`: the whole list when it is short, else its last
      `n` entries. */
  function LastN<T>(s: seq<T>, n: nat): (r: seq<T>)
    requires n >= 1
    ensures |r| == Min(n, |s|)
    ensures s == s[..|s| - |r|] + r
  {
    if |s| <= n then s else s[|s| - n..]
  }

  /** Appending to a list shows the new entry at the end of any non-empty
      window, behind the newest `n - 1` entries that were there before (none
      for a window of one). */
  lemma LastNAppend<T>(s: seq<T>, x: T, n: nat)
    requires n >= 1
    ensures LastN(s + [x], n) == (if n == 1 then [] else LastN(s, n - 1)) + [x]
  {
    var t := s + [x];
    var r := LastN(t, n);
    var q := if n == 1 then [] else LastN(s, n - 1);
    assert |r| == |q| + 1;
    forall i | 0 <= i < |r| ensures r[i] == (q + [x])[i] {
      assert r[i] == t[|t| - |r| + i];
      if i < |q| {
        assert q[i] == s[|s| - |q| + i];
      }
    }
  }

  /** The context for the given state (`to_prompt_context` without its JSON
      rendering). */
  function ContextOf(goal: string, cwd: string, messages: seq<Message>, events: seq<Event>): (c: PromptContext)
    ensures c.goal == goal && c.cwd == cwd
    ensures |c.recentMessages| == Min(Window, |messages|)
    ensures messages == messages[..|messages| - |c.recentMessages|] + c.recentMessages
    ensures |c.recentEvents| == Min(Window, |events|)
    ensures events == events[..|events| - |c.recentEvents|] + c.recentEvents
  {
    PromptContext(goal, cwd, LastN(messages, Window), LastN(events, Window))
  }

  class SessionState {
    const goal: string
    const cwd: string
    var messages: seq<Message>
    var events: seq<Event>

    constructor (goal: string, cwd: string)
      ensures this.goal == goal && this.cwd == cwd
      ensures messages == [] && events == []
    {
      this.goal := goal;
      this.cwd := cwd;
      messages := [];
      events := [];
    }

    /** Appends one message; the events are untouched. */
    method AddMessage(role: string, content: string)
      modifies this
      ensures messages == old(messages) + [Message(role, content)]
      ensures events == old(events)
    {
      messages := messages + [Message(role, content)];
    }

    /** Appends one event; the messages are untouched. */
    method AddEvent(kind: string, data: EventData)
      modifies this
      ensures events == old(events) + [Event(kind, data)]
      ensures messages == old(messages)
    {
      events := events + [Event(kind, data)];
    }

    function PromptContext(): PromptContext
      reads this
    {
      ContextOf(goal, cwd, messages, events)
    }
  }
}
