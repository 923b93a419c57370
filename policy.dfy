/** The policy engine: a pure verdict on a proposal. A shell command must be
    non-empty, start with an allow-listed word and contain no destructive
    pattern; a file path must stay under the engine's root; a web search is
    only graded by risk; any other tool is refused. Whatever survives these
    checks needs a second confirmation exactly when its risk is high. */
module Policy {
  import opened Types
  import opened Text
  import opened Paths
  import opened ShellPatterns

  /** The engine's configuration, fixed when it is built: the resolved root
      directory and the shell allow-list (kept as given, not lower-cased). */
  datatype PolicyEngine = PolicyEngine(rootDir: Path, allowedShellCommands: set<string>)

  predicate ValidEngine(e: PolicyEngine) {
    Normal(e.rootDir)
  }

  /** Builds the engine: `rootDir` is resolved against the process's working
      directory `cwd`. */
  function NewPolicyEngine(cwd: Path, rootDir: string, allowed: seq<string>): (e: PolicyEngine)
    requires Normal(cwd)
    ensures ValidEngine(e)
    ensures e.rootDir == Resolve(cwd, rootDir)
    ensures forall c :: c in e.allowedShellCommands <==> c in allowed
  {
    PolicyEngine(Resolve(cwd, rootDir), set c | c in allowed)
  }

  /** The verdict for a proposal that passed the tool-specific checks. */
  function RiskVerdict(risk: RiskLevel, kind: string): (d: PolicyDecision)
    ensures d.status != Deny
    ensures d.status == NeedsExtraConfirmation <==> risk == High
  {
    if risk == High then
      PolicyDecision(NeedsExtraConfirmation, "High-risk " + kind + " action requires extra confirmation.")
    else PolicyDecision(Allow, "Allowed " + kind + " action.")
  }

  /** `str(args.get("command", "")).strip()`. */
  function ShellCommand(p: ActionProposal): string {
    Strip(if "command" in p.args then p.args["command"].Render() else "")
  }

  /** Why a shell command is refused, in the order the checks run. */
  ghost predicate ShellRefused(e: PolicyEngine, command: string) {
    command == []
    || Lower(FirstToken(command)) !in e.allowedShellCommands
    || Blocked(Lower(command))
  }

  function EvaluateShell(e: PolicyEngine, p: ActionProposal): (d: PolicyDecision)
    ensures d.status == Deny <==> ShellRefused(e, ShellCommand(p))
    ensures d.status != Deny ==> d == RiskVerdict(p.riskLevel, "shell")
  {
    var command := ShellCommand(p);
    if command == [] then PolicyDecision(Deny, "Shell command is empty.")
    else
      var token := Lower(FirstToken(command));
      if token !in e.allowedShellCommands then
        PolicyDecision(Deny, "Shell command '" + token + "' is not in allowlist.")
      else
        var lowered := Lower(command);
        FirstBlockedIffBlocked(lowered);
        match FirstBlocked(lowered, BlockedShellPatterns)
        case Some(pattern) => PolicyDecision(Deny, "Blocked shell pattern matched: " + pattern.source)
        case None => RiskVerdict(p.riskLevel, "shell")
  }

  /** `args.get("path")` is present and truthy. */
  predicate HasPath(p: ActionProposal) {
    "path" in p.args && p.args["path"].Truthy()
  }

  /** `Path(os.path.join(str(root), str(path))).resolve()`. The joined text
      is absolute, so the working directory passed to `Resolve` plays no part. */
  function Target(e: PolicyEngine, p: ActionProposal): Path
    requires "path" in p.args
  {
    Resolve(e.rootDir, Join(Render(e.rootDir), p.args["path"].Render()))
  }

  function EvaluateFile(e: PolicyEngine, p: ActionProposal): (d: PolicyDecision)
    ensures d.status == Deny <==> !HasPath(p) || !IsUnder(Target(e, p), e.rootDir)
    ensures d.status != Deny ==> d == RiskVerdict(p.riskLevel, "file")
  {
    if !HasPath(p) then PolicyDecision(Deny, "File action missing path.")
    else
      var path := Target(e, p);
      if !IsUnder(path, e.rootDir) then PolicyDecision(Deny, "Path out of scope: " + Render(path))
      else RiskVerdict(p.riskLevel, "file")
  }

  /** `PolicyEngine.evaluate`: dispatch on the tool name. */
  function Evaluate(e: PolicyEngine, p: ActionProposal): (d: PolicyDecision)
    ensures d.status == NeedsExtraConfirmation ==> p.riskLevel == High
    ensures p.toolName !in ToolNames ==> d == PolicyDecision(Deny, "Unknown tool.")
    ensures p.toolName == "web" ==> d == RiskVerdict(p.riskLevel, "web")
    ensures p.toolName == "shell" ==> (d.status == Deny <==> ShellRefused(e, ShellCommand(p)))
    ensures p.toolName == "file" ==>
              (d.status == Deny <==> !HasPath(p) || !IsUnder(Target(e, p), e.rootDir))
    ensures d.status != Deny ==> p.toolName in ToolNames
                                 && d == RiskVerdict(p.riskLevel, p.toolName)
  {
    if p.toolName == "shell" then EvaluateShell(e, p)
    else if p.toolName == "file" then EvaluateFile(e, p)
    else if p.toolName == "web" then RiskVerdict(p.riskLevel, "web")
    else PolicyDecision(Deny, "Unknown tool.")
  }

  // ---------------------------------------------------------------------
  // Properties of the verdict

  /** A proposal the record's validation admits is never refused as an
      unknown tool. */
  lemma ValidProposalKnownTool(e: PolicyEngine, p: ActionProposal)
    requires ValidProposal(p)
    ensures Evaluate(e, p) != PolicyDecision(Deny, "Unknown tool.")
  {
  }

  /** A missing or blank command is refused before anything else is looked
      at. */
  lemma BlankCommandDenied(e: PolicyEngine, p: ActionProposal)
    requires p.toolName == "shell"
    requires "command" !in p.args || AllSpace(p.args["command"].Render())
    ensures Evaluate(e, p) == PolicyDecision(Deny, "Shell command is empty.")
  {
    assert ShellCommand(p) == [];
  }

  /** A destructive command is refused whatever the allow-list and the risk. */
  lemma BlockedCommandDenied(e: PolicyEngine, p: ActionProposal)
    requires p.toolName == "shell" && Blocked(Lower(ShellCommand(p)))
    ensures Evaluate(e, p).status == Deny
    ensures forall allowed: set<string>, risk: RiskLevel ::
              Evaluate(e.(allowedShellCommands := allowed), p.(riskLevel := risk)).status == Deny
  {
    forall allowed: set<string>, risk: RiskLevel
      ensures Evaluate(e.(allowedShellCommands := allowed), p.(riskLevel := risk)).status == Deny
    {
      assert ShellCommand(p.(riskLevel := risk)) == ShellCommand(p);
    }
  }

  /** An allow-list entry with an upper-case letter can never admit a
      command: the first word is lower-cased before the look-up, the list is
      not. */
  lemma UppercaseEntryNeverAdmits(e: PolicyEngine, p: ActionProposal, entry: string)
    requires exists i :: 0 <= i < |entry| && IsUpper(entry[i])
    ensures Evaluate(e.(allowedShellCommands := e.allowedShellCommands + {entry}), p)
            == Evaluate(e, p)
  {
    var command := ShellCommand(p);
    if command != [] {
      var token := Lower(FirstToken(command));
      var i :| 0 <= i < |entry| && IsUpper(entry[i]);
      assert token != entry by {
        if |token| == |entry| { assert !IsUpper(token[i]); }
      }
    }
    SameLookupSameVerdict(e, e.(allowedShellCommands := e.allowedShellCommands + {entry}), p);
  }

  /** The allow-list matters only through the look-up of the command's
      first word. */
  lemma SameLookupSameVerdict(e: PolicyEngine, e': PolicyEngine, p: ActionProposal)
    requires e'.rootDir == e.rootDir
    requires var command := ShellCommand(p);
             command != [] ==> (Lower(FirstToken(command)) in e'.allowedShellCommands
                                <==> Lower(FirstToken(command)) in e.allowedShellCommands)
    ensures Evaluate(e', p) == Evaluate(e, p)
  {
    if p.toolName == "shell" {
      assert EvaluateShell(e', p) == EvaluateShell(e, p);
    }
  }

  /** A relative path with no `..` segment never leaves the root. */
  lemma {:induction false} RelativePathWithoutParentInScope(e: PolicyEngine, p: ActionProposal)
    requires ValidEngine(e) && p.toolName == "file" && HasPath(p)
    requires var text := p.args["path"].Render();
             (text == [] || text[0] != '/') && forall i :: 0 <= i < |SplitPath(text)| ==> SplitPath(text)[i] != ".."
    ensures Evaluate(e, p) == RiskVerdict(p.riskLevel, "file")
  {
    var text := p.args["path"].Render();
    ResolveJoin(e.rootDir, e.rootDir, text);
    WalkWithoutParentStaysBelow(e.rootDir, SplitPath(text));
  }

  /** An absolute path replaces the root and is judged on its own. */
  lemma AbsolutePathReplacesRoot(e: PolicyEngine, p: ActionProposal)
    requires ValidEngine(e) && p.toolName == "file" && HasPath(p)
    requires var text := p.args["path"].Render(); text != [] && text[0] == '/'
    ensures Target(e, p) == Resolve([], p.args["path"].Render())
    ensures Evaluate(e, p).status == Deny <==> !(e.rootDir <= Resolve([], p.args["path"].Render()))
  {
  }

  /** `../name` from a root `/.../last` lands beside the root: refused unless
      `name` is the root's own last segment. */
  lemma ParentThenNameEscapes(e: PolicyEngine, p: ActionProposal, name: string)
    requires ValidEngine(e) && e.rootDir != []
    requires p.toolName == "file" && "path" in p.args && p.args["path"] == Str("../" + name)
    requires PlainSegment(name)
    ensures Evaluate(e, p).status == Deny <==> name != e.rootDir[|e.rootDir| - 1]
  {
    var root := e.rootDir;
    var n := |root|;
    SplitParentName(name);
    ResolveJoin(root, root, "../" + name);
    WalkParentName(root, name);
    var t := root[..n - 1] + [name];
    assert Target(e, p) == t;
    if name == root[n - 1] {
      assert t == root;
    } else {
      assert t[n - 1] != root[n - 1];
    }
  }

  // ---------------------------------------------------------------------
  // Scenarios

  /** `rm -rf /` is refused whatever the allow-list and the risk (the test
      `test_policy_denies_dangerous_shell` allow-lists `rm` and marks the action high-risk). */
  lemma RecursiveDeleteRefused(e: PolicyEngine, p: ActionProposal)
    requires p.toolName == "shell" && "command" in p.args && p.args["command"] == Str("rm -rf /")
    ensures Evaluate(e, p).status == Deny
  {
    RecursiveDeleteText(p);
    RecursiveDeleteBlocked();
    BlockedCommandDenied(e, p);
  }

  /** `rm -rf /` contains the first destructive pattern. */
  lemma RecursiveDeleteBlocked()
    ensures Blocked(Lower("rm -rf /"))
  {
    var s := "rm -rf /";
    assert Lower(s) == s;
    var rmrf := BlockedShellPatterns[0];
    assert SkipSpaces(s, 2) == 3;
    assert FlagFits(s, 3, "-rf");
    assert MatchAt(rmrf, s, 0);
    assert SearchFrom(rmrf, s, 0);
    assert FirstBlocked(s, BlockedShellPatterns).Some?;
    FirstBlockedIffBlocked(s);
  }

  /** The command's first word must be allow-listed: with only `ls` allowed,
      `rm -rf /` is refused before any pattern is tried. */
  lemma UnlistedCommandRefused(e: PolicyEngine, p: ActionProposal)
    requires e.allowedShellCommands == {"ls"}
    requires p.toolName == "shell" && "command" in p.args && p.args["command"] == Str("rm -rf /")
    ensures Evaluate(e, p) == PolicyDecision(Deny, "Shell command '" + "rm" + "' is not in allowlist.")
  {
    RecursiveDeleteText(p);
    UnlistedWordRefused(e, p);
  }

  /** A non-empty command whose lower-cased first word is not allow-listed is
      refused, and the message names that word. */
  lemma UnlistedWordRefused(e: PolicyEngine, p: ActionProposal)
    requires p.toolName == "shell" && ShellCommand(p) != []
    requires Lower(FirstToken(ShellCommand(p))) !in e.allowedShellCommands
    ensures Evaluate(e, p) == PolicyDecision(Deny, "Shell command '" + Lower(FirstToken(ShellCommand(p)))
                                                   + "' is not in allowlist.")
  {
  }

  /** The stripped command and its lower-cased first word. */
  lemma RecursiveDeleteText(p: ActionProposal)
    requires "command" in p.args && p.args["command"] == Str("rm -rf /")
    ensures ShellCommand(p) == "rm -rf /"
    ensures Lower(FirstToken(ShellCommand(p))) == "rm"
  {
    var s := "rm -rf /";
    assert SkipSpaces(s, 0) == 0;
    assert TrailingStart(s, |s|) == |s|;
    assert Strip(s) == s;
    assert NextSpace(s, 0) == 2 by { assert NextSpace(s, 1) == 2; }
    assert FirstToken(s) == "rm";
    assert Lower("rm") == "rm";
  }

  /** With `/` as the separator, the root `C:/repo` (relative to the working
      directory) is left by `../outside.txt`, whatever the allow-list. */
  lemma ParentPathOutOfScope(cwd: Path, allowed: seq<string>, p: ActionProposal)
    requires Normal(cwd)
    requires p.toolName == "file" && "path" in p.args && p.args["path"] == Str("../outside.txt")
    ensures Evaluate(NewPolicyEngine(cwd, "C:/repo", allowed), p).status == Deny
  {
    var e := NewPolicyEngine(cwd, "C:/repo", allowed);
    RepoRoot(cwd);
    assert e.rootDir[|e.rootDir| - 1] == "repo";
    OutsideText();
    ParentThenNameEscapes(e, p, "outside.txt");
  }

  lemma OutsideText()
    ensures "../outside.txt" == "../" + "outside.txt"
    ensures PlainSegment("outside.txt") && "outside.txt" != "repo"
  {
    assert '/' !in "outside.txt";
  }

  lemma RepoRoot(cwd: Path)
    requires Normal(cwd)
    ensures Resolve(cwd, "C:/repo") == cwd + ["C:", "repo"]
  {
    assert "C:/repo" == "C:" + "/" + "repo";
    SplitAround("C:", "repo");
    assert SplitPath("C:") == ["C:"];
    assert SplitPath("repo") == ["repo"];
    assert SplitPath("C:/repo") == ["C:", "repo"];
    WalkPlain(cwd, ["C:", "repo"]);
  }

  /** With `/` as the separator, `..\outside.txt` is one ordinary file name
      inside the root, so a medium-risk write to it is allowed. */
  lemma BackslashIsAnOrdinaryCharacter(e: PolicyEngine)
    requires ValidEngine(e)
    ensures var p := ActionProposal("file", "write file", map["path" := Str("..\\outside.txt")]);
            Evaluate(e, p).status == Allow
  {
    var p := ActionProposal("file", "write file", map["path" := Str("..\\outside.txt")]);
    var text := "..\\outside.txt";
    assert '/' !in text;
    assert SplitPath(text) == [text];
    RelativePathWithoutParentInScope(e, p);
  }
}
