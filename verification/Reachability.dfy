/** Which tools can ever run: exactly those whose rules lead down to an ungated tool, and all
    of them when the rules have no cycle. */
module Reachability {
  import opened Domain
  import opened RuleTable
  import opened TokenStore
  import opened Machine
  import opened Ledgers
  import opened CallRuns
  import opened Ancestry
  import opened ConfigLoader

  /** Tools in an order in which they can be called: the first is ungated, and each later one,
      up to `tool`, has a rule that names the one before. */
  ghost predicate RulePath(rules: seq<Rule>, path: seq<ToolName>, tool: ToolName) {
    && path != [] && path[|path| - 1] == tool && Ungated(rules, path[0])
    && forall i :: 0 < i < |path| ==> DependsOn(rules, path[i], path[i - 1])
  }

  /** The same, each named by the first rule of the next. */
  ghost predicate FirstRulePath(rules: seq<Rule>, path: seq<ToolName>, tool: ToolName) {
    && path != [] && path[|path| - 1] == tool && Ungated(rules, path[0])
    && forall i :: 0 < i < |path| ==> FirstRuleNames(rules, path[i], path[i - 1])
  }

  ghost predicate FirstRuleNames(rules: seq<Rule>, tool: ToolName, p: ToolName) {
    FindRule(rules, tool).Some? && FindRule(rules, tool).value.prerequisite == p
  }

  /** The rules lead from `tool` down to an ungated tool. */
  ghost predicate Grounded(rules: seq<Rule>, tool: ToolName) {
    exists path :: RulePath(rules, path, tool)
  }

  /** A run from an empty state whose last call successfully runs `tool`. */
  ghost predicate RunsTool(rules: seq<Rule>, start: Time, calls: seq<Call>, sid: SessionID, tool: ToolName) {
    && AdmissibleCalls(Opening(rules, start), calls)
    && calls != []
    && calls[|calls| - 1].sid == sid && calls[|calls| - 1].tool == tool
    && Executed(Opening(rules, start), calls, |calls| - 1)
  }

  ghost predicate Reachable(rules: seq<Rule>, sid: SessionID, tool: ToolName) {
    exists start, calls :: RunsTool(rules, start, calls, sid, tool)
  }

  /** A run from an empty state that calls the tools of the path in order, all successfully and
      in one session. */
  ghost predicate RunsPath(rules: seq<Rule>, start: Time, calls: seq<Call>, sid: SessionID, path: seq<ToolName>) {
    && AdmissibleCalls(Opening(rules, start), calls) && |calls| == |path|
    && forall j: nat :: j < |calls| ==>
         calls[j].sid == sid && calls[j].tool == path[j] && Executed(Opening(rules, start), calls, j)
  }

  // ------------------------------------------------------------ what runs is grounded

  lemma {:induction false} RuleIsDependency(rules: seq<Rule>, tool: ToolName, i: nat)
    requires i < |FindRules(rules, tool)|
    ensures DependsOn(rules, tool, FindRules(rules, tool)[i].prerequisite)
  {
    var r := FindRules(rules, tool)[i];
    FindRulesMembers(rules, tool, r);
    var j :| 0 <= j < |rules| && rules[j] == r;
  }

  lemma DependencyIsRule(rules: seq<Rule>, tool: ToolName, p: ToolName) returns (i: nat)
    requires DependsOn(rules, tool, p)
    ensures i < |FindRules(rules, tool)| && FindRules(rules, tool)[i].prerequisite == p
  {
    var j :| 0 <= j < |rules| && rules[j].tool == tool && rules[j].prerequisite == p;
    FindRulesMembers(rules, tool, rules[j]);
    i :| i < |FindRules(rules, tool)| && FindRules(rules, tool)[i] == rules[j];
  }

  lemma ExtendPath(rules: seq<Rule>, path: seq<ToolName>, p: ToolName, tool: ToolName)
    requires RulePath(rules, path, p) && DependsOn(rules, tool, p)
    ensures RulePath(rules, path + [tool], tool)
  {
    hide Ungated, DependsOn;
  }

  lemma ShortenPath(rules: seq<Rule>, path: seq<ToolName>, tool: ToolName)
    requires RulePath(rules, path, tool) && |path| > 1
    ensures RulePath(rules, path[..|path| - 1], path[|path| - 2]) && DependsOn(rules, tool, path[|path| - 2])
  {
    hide Ungated, DependsOn;
    assert path[..|path| - 1][0] == path[0];
  }

  lemma PathEnd(rules: seq<Rule>, path: seq<ToolName>, tool: ToolName)
    requires RulePath(rules, path, tool)
    ensures path != [] && path == path[..|path| - 1] + [tool]
    ensures |path| == 1 ==> Ungated(rules, tool)
  {
  }

  lemma {:induction false} ExecutedIsGrounded(rules: seq<Rule>, start: Time, calls: seq<Call>, k: nat)
    returns (path: seq<ToolName>)
    requires Executed(Opening(rules, start), calls, k)
    ensures RulePath(rules, path, calls[k].tool)
    decreases k
  {
    if Ungated(rules, calls[k].tool) {
      path := [calls[k].tool];
    } else {
      hide Ungated, DependsOn;
      var j := GatedCallIsBacked(rules, start, calls, k);
      var i :| 0 <= i < |FindRules(rules, calls[k].tool)|
               && FindRules(rules, calls[k].tool)[i].prerequisite == calls[j].tool;
      RuleIsDependency(rules, calls[k].tool, i);
      var rest := ExecutedIsGrounded(rules, start, calls, j);
      ExtendPath(rules, rest, calls[j].tool, calls[k].tool);
      path := rest + [calls[k].tool];
    }
  }

  /** Gated tools whose rules all name prerequisites among themselves. */
  ghost predicate Trapped(rules: seq<Rule>, tools: set<ToolName>) {
    forall tool :: tool in tools ==>
      && !Ungated(rules, tool)
      && forall p :: DependsOn(rules, tool, p) ==> p in tools
  }

  lemma {:induction false} PathAvoidsTrap(rules: seq<Rule>, trap: set<ToolName>, path: seq<ToolName>, tool: ToolName)
    requires Trapped(rules, trap) && RulePath(rules, path, tool)
    ensures tool !in trap
  {
    if |path| > 1 {
      hide Ungated, DependsOn;
      ShortenPath(rules, path, tool);
      PathAvoidsTrap(rules, trap, path[..|path| - 1], path[|path| - 2]);
    }
  }

  /** Tools in a trap never run. */
  lemma ClosedSetNeverRuns(rules: seq<Rule>, trap: set<ToolName>, start: Time, calls: seq<Call>, k: nat)
    requires Trapped(rules, trap) && k < |calls| && calls[k].tool in trap
    ensures !Executed(Opening(rules, start), calls, k)
  {
    if Executed(Opening(rules, start), calls, k) {
      var path := ExecutedIsGrounded(rules, start, calls, k);
      PathAvoidsTrap(rules, trap, path, calls[k].tool);
    }
  }

  lemma NoSessionIDOnlyUngated(l: Ledger, k: Call)
    requires Succeeds(l, k) && k.sid == ""
    ensures Ungated(l.core.rules, k.tool)
  {
    hide Ungated, Satisfied;
    assert Allowed(CreateSession(l.core, k.sid, k.createAt).core, k.sid, k.tool, k.validateAt);
  }

  // ------------------------------------------------------------ what is grounded runs

  /** A different token value for every number. */
  function NumberedToken(n: nat): TokenValue {
    seq(n, _ => 'a')
  }

  /** A call that takes no time. */
  function InstantCall(sid: SessionID, tool: ToolName, n: nat): Call {
    var now: Clock := (k: nat) => 0;
    Call(sid, tool, now, now, true, now, Some(NumberedToken(n)), now)
  }

  /** Between calls of an instant run: no time has passed, later token numbers are unused. */
  ghost predicate Instant(l: Ledger, n: nat) {
    l.latest == 0 && forall v :: v in l.used ==> |v| < n
  }

  lemma InstantCallAdmissible(l: Ledger, sid: SessionID, tool: ToolName, n: nat)
    requires Instant(l, n)
    ensures AdmissibleCall(l, InstantCall(sid, tool, n))
    ensures Instant(AdvanceCall(l, InstantCall(sid, tool, n)), n + 1)
  {
    hide AdvanceCall, Succeeds;
    CallBookkeeping(l, InstantCall(sid, tool, n));
    assert |NumberedToken(n)| == n;
  }

  /** After a successful call with a token, its tool is in the history and the token is live. */
  lemma {:induction false} SuccessOpensTheNextTool(l: Ledger, k: Call, at: Time)
    requires Succeeds(l, k) && k.gen.Some? && at < ExpiryOf(l.core.rules, k)
    ensures k.tool in History(AdvanceCall(l, k).core, k.sid)
    ensures ValidValues(Entries(AdvanceCall(l, k).core.stored, k.sid, k.tool), at) != []
  {
    hide AdvanceCall, Succeeds, History, RemoveFirst;
    CallHistory(l, k, k.sid);
    CallEntries(l, k, k.sid, k.tool);
    var es := Entries(AdvanceCall(l, k).core.stored, k.sid, k.tool);
    assert at < es[|es| - 1].expires;
  }

  lemma SatisfiedRuleAllows(l: Ledger, k: Call, i: nat)
    requires i < |FindRules(l.core.rules, k.tool)| && k.sid != "" && k.handlerSucceeds
    requires FindRules(l.core.rules, k.tool)[i].prerequisite in History(l.core, k.sid)
    requires var p := FindRules(l.core.rules, k.tool)[i].prerequisite;
             ValidValues(Entries(l.core.stored, k.sid, p), k.validateAt(i + 1)) != []
    ensures Succeeds(l, k)
  {
    hide ValidValues, Ungated;
    var c := CreateSession(l.core, k.sid, k.createAt).core;
    assert Satisfied(c, k.sid, FindRules(c.rules, k.tool)[i], k.validateAt(i + 1));
    assert Allowed(c, k.sid, k.tool, k.validateAt);
  }

  /** The calls of a path, one after the other, none taking any time. */
  function InstantRun(sid: SessionID, path: seq<ToolName>): (calls: seq<Call>)
    ensures |calls| == |path|
  {
    if path == [] then []
    else InstantRun(sid, path[..|path| - 1]) + [InstantCall(sid, path[|path| - 1], |path| - 1)]
  }

  lemma {:induction false} AppendInstantCall(rules: seq<Rule>, calls: seq<Call>, sid: SessionID, tool: ToolName)
    requires AdmissibleCalls(Opening(rules, 0), calls) && Instant(After(Opening(rules, 0), calls), |calls|)
    requires Succeeds(After(Opening(rules, 0), calls), InstantCall(sid, tool, |calls|))
    ensures var l, more := Opening(rules, 0), calls + [InstantCall(sid, tool, |calls|)];
            && AdmissibleCalls(l, more) && Instant(After(l, more), |more|) && Executed(l, more, |calls|)
            && After(l, more) == AdvanceCall(After(l, calls), InstantCall(sid, tool, |calls|))
  {
    hide AdvanceCall, Succeeds, AdmissibleCall, Instant;
    var more := calls + [InstantCall(sid, tool, |calls|)];
    assert more[..|more| - 1] == calls;
    InstantCallAdmissible(After(Opening(rules, 0), calls), sid, tool, |calls|);
  }

  lemma {:induction false} ExtendRun(
    rules: seq<Rule>, calls: seq<Call>, sid: SessionID, path: seq<ToolName>, tool: ToolName)
    requires RunsPath(rules, 0, calls, sid, path) && Instant(After(Opening(rules, 0), calls), |calls|)
    requires Succeeds(After(Opening(rules, 0), calls), InstantCall(sid, tool, |calls|))
    ensures var more := calls + [InstantCall(sid, tool, |calls|)];
            RunsPath(rules, 0, more, sid, path + [tool]) && Instant(After(Opening(rules, 0), more), |more|)
  {
    hide AdvanceCall, Succeeds, AdmissibleCalls, After, Instant, Executed, NumberedToken;
    AppendInstantCall(rules, calls, sid, tool);
    var l, more := Opening(rules, 0), calls + [InstantCall(sid, tool, |calls|)];
    assert more[..|calls|] == calls;
    forall j: nat | j < |more|
      ensures more[j].sid == sid && more[j].tool == (path + [tool])[j] && Executed(l, more, j)
    {
      if j < |calls| {
        ExecutedInPrefix(l, more, |calls|, j);
      }
    }
  }

  lemma NothingHasHappened(rules: seq<Rule>, sid: SessionID)
    ensures After(Opening(rules, 0), []) == Opening(rules, 0)
    ensures RunsPath(rules, 0, [], sid, []) && Instant(Opening(rules, 0), 0)
  {
  }

  lemma UngatedSucceeds(l: Ledger, k: Call)
    requires Ungated(l.core.rules, k.tool) && k.handlerSucceeds
    ensures Succeeds(l, k)
  {
    hide Ungated;
    assert Allowed(CreateSession(l.core, k.sid, k.createAt).core, k.sid, k.tool, k.validateAt);
  }

  /** Every path can be run: each of its tools in turn, all calls successful. */
  lemma {:induction false} GroundedRuns(rules: seq<Rule>, sid: SessionID, path: seq<ToolName>, tool: ToolName)
    requires RulePath(rules, path, tool) && (sid != "" || |path| == 1)
    ensures RunsPath(rules, 0, InstantRun(sid, path), sid, path)
    ensures Instant(After(Opening(rules, 0), InstantRun(sid, path)), |path|)
  {
    hide RunsPath, Instant, Ungated, Succeeds, RulePath, After;
    PathEnd(rules, path, tool);
    var init := path[..|path| - 1];
    if |path| == 1 {
      NothingHasHappened(rules, sid);
      UngatedSucceeds(Opening(rules, 0), InstantCall(sid, tool, 0));
      ExtendRun(rules, [], sid, [], tool);
    } else {
      ShortenPath(rules, path, tool);
      GroundedRuns(rules, sid, init, path[|path| - 2]);
      NextToolRuns(rules, sid, init, path[|path| - 2], tool);
    }
  }

  lemma {:induction false} NextToolRuns(
    rules: seq<Rule>, sid: SessionID, path: seq<ToolName>, p: ToolName, tool: ToolName)
    requires sid != "" && path != [] && path[|path| - 1] == p && DependsOn(rules, tool, p)
    requires RunsPath(rules, 0, InstantRun(sid, path), sid, path)
    requires Instant(After(Opening(rules, 0), InstantRun(sid, path)), |path|)
    ensures var calls := InstantRun(sid, path) + [InstantCall(sid, tool, |path|)];
            RunsPath(rules, 0, calls, sid, path + [tool]) && Instant(After(Opening(rules, 0), calls), |calls|)
  {
    hide AdvanceCall, Succeeds, Instant, History, Entries, ValidValues, DependsOn;
    var l, calls := Opening(rules, 0), InstantRun(sid, path);
    var init, last := calls[..|calls| - 1], calls[|calls| - 1];
    assert Executed(l, calls, |calls| - 1);
    RulesNeverChange(l, init);
    RulesNeverChange(l, calls);
    SuccessOpensTheNextTool(After(l, init), last, 0);
    var i := DependencyIsRule(rules, tool, p);
    SatisfiedRuleAllows(After(l, calls), InstantCall(sid, tool, |calls|), i);
    ExtendRun(rules, calls, sid, path, tool);
  }

  lemma RunsToItsEnd(rules: seq<Rule>, start: Time, calls: seq<Call>, sid: SessionID, path: seq<ToolName>)
    requires RunsPath(rules, start, calls, sid, path) && path != []
    ensures RunsTool(rules, start, calls, sid, path[|path| - 1])
  {
    hide Executed, AdmissibleCalls;
  }

  lemma ReachableIsGrounded(rules: seq<Rule>, sid: SessionID, tool: ToolName)
    requires Reachable(rules, sid, tool)
    ensures Grounded(rules, tool) && (sid == "" ==> Ungated(rules, tool))
  {
    hide Ungated, Succeeds, After, AdmissibleCalls, RulePath;
    var start, calls :| RunsTool(rules, start, calls, sid, tool);
    var k := |calls| - 1;
    var path := ExecutedIsGrounded(rules, start, calls, k);
    RulesNeverChange(Opening(rules, start), calls[..k]);
    if sid == "" {
      NoSessionIDOnlyUngated(After(Opening(rules, start), calls[..k]), calls[k]);
    }
  }

  /** A tool can be run in some sequential run exactly when its rules lead down to an ungated
      tool; without a session id only ungated tools run. */
  lemma ReachableIffGrounded(rules: seq<Rule>, sid: SessionID, tool: ToolName)
    ensures Reachable(rules, sid, tool) <==> Ungated(rules, tool) || (sid != "" && Grounded(rules, tool))
  {
    hide Ungated, RunsTool, RunsPath, InstantRun;
    if Reachable(rules, sid, tool) {
      ReachableIsGrounded(rules, sid, tool);
    }
    if Ungated(rules, tool) {
      GroundedRuns(rules, sid, [tool], tool);
      RunsToItsEnd(rules, 0, InstantRun(sid, [tool]), sid, [tool]);
    } else if sid != "" && Grounded(rules, tool) {
      var path :| RulePath(rules, path, tool);
      GroundedRuns(rules, sid, path, tool);
      RunsToItsEnd(rules, 0, InstantRun(sid, path), sid, path);
    }
  }

  // ------------------------------------------------------------ acyclic rules

  function ToolsOf(rules: seq<Rule>): set<ToolName> {
    set i | 0 <= i < |rules| :: rules[i].tool
  }

  lemma ExtendWalk(rules: seq<Rule>, trail: seq<ToolName>, next: ToolName)
    requires Walk(rules, trail) && DependsOn(rules, trail[|trail| - 1], next)
    ensures Walk(rules, trail + [next])
  {
    hide DependsOn;
    forall i | 0 <= i < |trail + [next]| - 1 ensures DependsOn(rules, (trail + [next])[i], (trail + [next])[i + 1]) {
      if i < |trail| - 1 {
        assert DependsOn(rules, trail[i], trail[i + 1]);
      }
    }
  }

  /** Following first rules from `tool` ends, because the tools on the trail do not repeat. */
  lemma {:induction false} AcyclicIsGrounded(rules: seq<Rule>, trail: seq<ToolName>, tool: ToolName)
    returns (path: seq<ToolName>)
    requires !Cyclic(rules) && Walk(rules, trail + [tool]) && tool !in trail
    ensures FirstRulePath(rules, path, tool)
    decreases ToolsOf(rules) - set t | t in trail
  {
    if Ungated(rules, tool) {
      path := [tool];
    } else {
      var first, further := FindRules(rules, tool)[0], trail + [tool];
      RuleIsDependency(rules, tool, 0);
      FindRulesMembers(rules, tool, first);
      if first.prerequisite in further {
        CycleThroughStack(rules, further, first.prerequisite);
        assert false;
      }
      assert tool in ToolsOf(rules) && (set t | t in further) == (set t | t in trail) + {tool};
      ExtendWalk(rules, further, first.prerequisite);
      var rest := AcyclicIsGrounded(rules, further, first.prerequisite);
      path := rest + [tool];
    }
  }

  lemma FirstRulePathIsPath(rules: seq<Rule>, path: seq<ToolName>, tool: ToolName)
    requires FirstRulePath(rules, path, tool)
    ensures RulePath(rules, path, tool)
  {
    hide Ungated;
    forall i | 0 < i < |path| ensures DependsOn(rules, path[i], path[i - 1]) {
      assert FirstRuleNames(rules, path[i], path[i - 1]);
      RuleIsDependency(rules, path[i], 0);
    }
  }

  /** Rules that pass the cycle check leave no tool behind: in any session each can be run, by
      successful calls that follow the first rule of each tool. */
  lemma AcyclicRulesReachEveryTool(rules: seq<Rule>, sid: SessionID, tool: ToolName)
    returns (calls: seq<Call>, path: seq<ToolName>)
    requires !Cyclic(rules) && sid != ""
    ensures FirstRulePath(rules, path, tool) && RunsPath(rules, 0, calls, sid, path)
    ensures Reachable(rules, sid, tool)
  {
    path := AcyclicIsGrounded(rules, [], tool);
    FirstRulePathIsPath(rules, path, tool);
    calls := InstantRun(sid, path);
    GroundedRuns(rules, sid, path, tool);
    RunsToItsEnd(rules, 0, calls, sid, path);
  }
}
