/** When tokens are single-use, as the package documentation promises of all of them: this depends
    on the rules alone, and can be read off them before any call. */
module SingleUse {
  import opened Domain
  import opened RuleTable
  import opened TokenStore
  import opened Machine
  import opened Ledgers
  import opened CallRuns
  import opened Ancestry
  import opened Reachability
  import opened ConfigLoader

  ghost predicate IsGatedUse(l: Ledger, k: Call, sid: SessionID, p: ToolName) {
    Succeeds(l, k) && k.sid == sid && NeedsOnly(l.core.rules, k.tool, p)
  }

  /** Successful runs of tools that can only run on a token of `p`, used up or not. */
  ghost function GatedUses(l: Ledger, calls: seq<Call>, sid: SessionID, p: ToolName): nat {
    if calls == [] then 0
    else
      var init, last := calls[..|calls| - 1], calls[|calls| - 1];
      GatedUses(l, init, sid, p) + if IsGatedUse(After(l, init), last, sid, p) then 1 else 0
  }

  /** In this run, those uses and the tokens of `p` live at `t` stay within the tokens issued. */
  ghost predicate Within(rules: seq<Rule>, start: Time, calls: seq<Call>, sid: SessionID, p: ToolName, t: Time) {
    var l := Opening(rules, start);
    AdmissibleCalls(l, calls) && After(l, calls).latest <= t ==>
      GatedUses(l, calls, sid, p) + Spendable(After(l, calls), sid, p, t) <= Issues(l, calls, sid, p)
  }

  /** Every tool that can only run on a token of `p` uses one up. */
  ghost predicate EveryGateSpends(rules: seq<Rule>, p: ToolName) {
    forall tool :: NeedsOnly(rules, tool, p) ==> UsesUp(rules, tool, p)
  }

  // ------------------------------------------------------------ when the bound holds

  lemma {:induction false} GatedUsesAreUses(l: Ledger, calls: seq<Call>, sid: SessionID, p: ToolName)
    requires EveryGateSpends(l.core.rules, p)
    ensures GatedUses(l, calls, sid, p) == Uses(l, calls, sid, p)
  {
    if calls != [] {
      hide Succeeds, NeedsOnly, UsesUp, AdvanceCall;
      var init, last := calls[..|calls| - 1], calls[|calls| - 1];
      GatedUsesAreUses(l, init, sid, p);
      RulesNeverChange(l, init);
      assert NeedsOnly(l.core.rules, last.tool, p) <==> SpendsOnly(l.core.rules, last.tool, p);
    }
  }

  lemma NeedsOnlyIsGated(rules: seq<Rule>, tool: ToolName, p: ToolName)
    requires NeedsOnly(rules, tool, p) && p != ""
    ensures !Ungated(rules, tool)
    ensures forall q :: DependsOn(rules, tool, q) <==> q == p
  {
    NeedsOnlyMatched(rules, tool, p);
    hide FindRules, NeedsOnly;
    forall q ensures DependsOn(rules, tool, q) <==> q == p {
      RuleIsDependency(rules, tool, 0);
      if DependsOn(rules, tool, q) {
        var i := DependencyIsRule(rules, tool, q);
      }
    }
  }

  lemma GatedUseNeedsIssuer(rules: seq<Rule>, start: Time, calls: seq<Call>, k: nat, p: ToolName)
    requires Executed(Opening(rules, start), calls, k) && NeedsOnly(rules, calls[k].tool, p) && p != ""
    ensures Grounded(rules, p)
  {
    NeedsOnlyIsGated(rules, calls[k].tool, p);
    var path := ExecutedIsGrounded(rules, start, calls, k);
    hide Executed, NeedsOnly, Ungated, DependsOn;
    ShortenPath(rules, path, calls[k].tool);
  }

  lemma {:induction false} NothingHappensOnUngroundedTools(
    rules: seq<Rule>, start: Time, calls: seq<Call>, sid: SessionID, p: ToolName, t: Time)
    requires !Grounded(rules, p) && p != ""
    ensures var l := Opening(rules, start);
            GatedUses(l, calls, sid, p) == 0 && Spendable(After(l, calls), sid, p, t) == 0
  {
    hide AdvanceCall, NeedsOnly, ValidValues, Succeeds, Grounded, Entries;
    var l, n := Opening(rules, start), |calls| - 1;
    var es := Entries(After(l, calls).core.stored, sid, p);
    if es != [] {
      var j := EntryHasIssuer(rules, start, calls, sid, p, es[0]);
      GroundedIsExecuted(rules, start, calls, j);
    }
    NoTokensNoValidTokens(t);
    if calls != [] {
      NothingHappensOnUngroundedTools(rules, start, calls[..n], sid, p, t);
      RulesNeverChange(l, calls[..n]);
      if IsGatedUse(After(l, calls[..n]), calls[n], sid, p) {
        GatedUseNeedsIssuer(rules, start, calls, n, p);
      }
    }
  }

  lemma GroundedIsExecuted(rules: seq<Rule>, start: Time, calls: seq<Call>, k: nat)
    requires Executed(Opening(rules, start), calls, k)
    ensures Grounded(rules, calls[k].tool)
  {
    hide RulePath;
    var path := ExecutedIsGrounded(rules, start, calls, k);
  }

  // ------------------------------------------------------------ when it breaks

  /** Before another call of a tool that runs on `p` at time 0 without using its token up. */
  ghost predicate Open(rules: seq<Rule>, calls: seq<Call>, sid: SessionID, p: ToolName) {
    var l := After(Opening(rules, 0), calls);
    && AdmissibleCalls(Opening(rules, 0), calls) && Instant(l, |calls|)
    && p in History(l.core, sid) && ValidValues(Entries(l.core.stored, sid, p), 0) != []
  }

  /** `tool` runs on tokens of `p` only, without using them up. */
  ghost predicate Reuses(rules: seq<Rule>, tool: ToolName, p: ToolName) {
    NeedsOnly(rules, tool, p) && !UsesUp(rules, tool, p)
  }

  lemma {:induction false} ReusersConsumeNothing(rules: seq<Rule>, tool: ToolName, p: ToolName)
    requires Reuses(rules, tool, p)
    ensures ConsumedPrerequisite(rules, tool) == None
    ensures FindRules(rules, tool) != [] && FindRules(rules, tool)[0].prerequisite == p
  {
    NeedsOnlyMatched(rules, tool, p);
    ConsumedPrerequisiteIff(rules, tool, p);
    hide FindRules, UsesUp, NeedsOnly;
  }

  lemma {:induction false} ReuserSucceeds(
    rules: seq<Rule>, calls: seq<Call>, sid: SessionID, p: ToolName, tool: ToolName)
    requires Open(rules, calls, sid, p) && Reuses(rules, tool, p) && sid != ""
    ensures After(Opening(rules, 0), calls).core.rules == rules
    ensures Succeeds(After(Opening(rules, 0), calls), InstantCall(sid, tool, |calls|))
  {
    ReusersConsumeNothing(rules, tool, p);
    RulesNeverChange(Opening(rules, 0), calls);
    hide Succeeds, AdmissibleCalls, After, Instant, History, Entries, ValidValues, Reuses, FindRules;
    SatisfiedRuleAllows(After(Opening(rules, 0), calls), InstantCall(sid, tool, |calls|), 0);
  }

  lemma StaysOpen(rules: seq<Rule>, calls: seq<Call>, sid: SessionID, p: ToolName, tool: ToolName)
    requires Open(rules, calls, sid, p) && Reuses(rules, tool, p) && sid != "" && tool != p
    ensures Open(rules, calls + [InstantCall(sid, tool, |calls|)], sid, p)
  {
    var k, now := InstantCall(sid, tool, |calls|), After(Opening(rules, 0), calls);
    ReusersConsumeNothing(rules, tool, p);
    ReuserSucceeds(rules, calls, sid, p, tool);
    hide AdvanceCall, Succeeds, AdmissibleCalls, After, Instant, History, Entries, ValidValues, Reuses,
         ConsumedPrerequisite, FindRules, RemoveFirst;
    AppendInstantCall(rules, calls, sid, tool);
    CallHistory(now, k, sid);
    CallEntries(now, k, sid, p);
  }

  lemma {:induction false} ReuserRuns(rules: seq<Rule>, calls: seq<Call>, sid: SessionID, p: ToolName, tool: ToolName)
    requires Open(rules, calls, sid, p) && Reuses(rules, tool, p) && sid != "" && tool != p
    ensures var l, more := Opening(rules, 0), calls + [InstantCall(sid, tool, |calls|)];
            && Open(rules, more, sid, p)
            && GatedUses(l, more, sid, p) == GatedUses(l, calls, sid, p) + 1
            && Issues(l, more, sid, p) == Issues(l, calls, sid, p)
  {
    var more := calls + [InstantCall(sid, tool, |calls|)];
    StaysOpen(rules, calls, sid, p, tool);
    ReuserSucceeds(rules, calls, sid, p, tool);
    hide AdvanceCall, Succeeds, After, Open, NeedsOnly, UsesUp, NumberedToken;
    assert more[..|more| - 1] == calls;
  }

  lemma {:induction false} ReuserRunsAgain(
    rules: seq<Rule>, calls: seq<Call>, sid: SessionID, p: ToolName, tool: ToolName, n: nat) returns (more: seq<Call>)
    requires Open(rules, calls, sid, p) && Reuses(rules, tool, p) && sid != "" && tool != p
    ensures var l := Opening(rules, 0);
            && Open(rules, more, sid, p)
            && GatedUses(l, more, sid, p) == GatedUses(l, calls, sid, p) + n
            && Issues(l, more, sid, p) == Issues(l, calls, sid, p)
  {
    more := calls;
    if n > 0 {
      hide Open, Reuses;
      var less := ReuserRunsAgain(rules, calls, sid, p, tool, n - 1);
      ReuserRuns(rules, less, sid, p, tool);
      more := less + [InstantCall(sid, tool, |less|)];
    }
  }

  lemma {:induction false} RunOpensPrerequisite(rules: seq<Rule>, sid: SessionID, path: seq<ToolName>, p: ToolName)
    requires RulePath(rules, path, p) && sid != ""
    ensures Open(rules, InstantRun(sid, path), sid, p)
  {
    hide AdvanceCall, Succeeds, Instant, History, Entries, ValidValues, Ungated, DependsOn;
    var l, calls := Opening(rules, 0), InstantRun(sid, path);
    GroundedRuns(rules, sid, path, p);
    assert Executed(l, calls, |calls| - 1);
    RulesNeverChange(l, calls[..|calls| - 1]);
    SuccessOpensTheNextTool(After(l, calls[..|calls| - 1]), calls[|calls| - 1], 0);
  }

  /** A tool that only needs its own token never gets one. */
  lemma GroundedToolIsNotItsOwnGate(rules: seq<Rule>, p: ToolName)
    requires Grounded(rules, p) && p != ""
    ensures !NeedsOnly(rules, p, p)
  {
    if NeedsOnly(rules, p, p) {
      NeedsOnlyIsGated(rules, p, p);
      var path :| RulePath(rules, path, p);
      hide NeedsOnly, Ungated, DependsOn;
      PathAvoidsTrap(rules, {p}, path, p);
    }
  }

  /** A token that is not used up pays for run after run: more of them than tokens issued. */
  lemma ReuseBreaksTheBound(rules: seq<Rule>, p: ToolName, tool: ToolName, sid: SessionID) returns (calls: seq<Call>)
    requires Grounded(rules, p) && Reuses(rules, tool, p) && p != "" && sid != ""
    ensures AdmissibleCalls(Opening(rules, 0), calls)
    ensures GatedUses(Opening(rules, 0), calls, sid, p) > Issues(Opening(rules, 0), calls, sid, p)
    ensures !Within(rules, 0, calls, sid, p, 0)
  {
    GroundedToolIsNotItsOwnGate(rules, p);
    var path :| RulePath(rules, path, p);
    hide NeedsOnly, UsesUp, RulePath, After, AdmissibleCalls, Grounded;
    RunOpensPrerequisite(rules, sid, path, p);
    var l, first := Opening(rules, 0), InstantRun(sid, path);
    calls := ReuserRunsAgain(rules, first, sid, p, tool, Issues(l, first, sid, p) + 1);
  }

  /** Tokens of `p` are single-use in all runs - runs of tools that need one, plus tokens still
      live, never exceed the tokens issued - exactly when `p` can never run, or the first rule of
      every tool that needs only its tokens is one-time. */
  lemma TokensAreSingleUseIff(rules: seq<Rule>, p: ToolName)
    requires p != ""
    ensures (forall start, calls, sid, t :: Within(rules, start, calls, sid, p, t))
            <==> !Grounded(rules, p) || EveryGateSpends(rules, p)
  {
    hide Within, EveryGateSpends, Grounded, NeedsOnly, UsesUp;
    if !Grounded(rules, p) || EveryGateSpends(rules, p) {
      forall start, calls, sid, t ensures Within(rules, start, calls, sid, p, t) {
        SpendingGatesKeepTheBound(rules, start, calls, sid, p, t);
      }
    } else {
      var tool := ReuserAmongGates(rules, p);
      var calls := ReuseBreaksTheBound(rules, p, tool, "s");
    }
  }

  lemma SpendingGatesKeepTheBound(
    rules: seq<Rule>, start: Time, calls: seq<Call>, sid: SessionID, p: ToolName, t: Time)
    requires p != "" && (!Grounded(rules, p) || EveryGateSpends(rules, p))
    ensures Within(rules, start, calls, sid, p, t)
  {
    hide EveryGateSpends, Grounded;
    var l := Opening(rules, start);
    if !Grounded(rules, p) {
      NothingHappensOnUngroundedTools(rules, start, calls, sid, p, t);
    } else {
      GatedUsesAreUses(l, calls, sid, p);
      if AdmissibleCalls(l, calls) && After(l, calls).latest <= t {
        UsesNeverExceedIssues(rules, start, calls, sid, p, t);
      }
    }
  }

  lemma ReuserAmongGates(rules: seq<Rule>, p: ToolName) returns (tool: ToolName)
    requires !EveryGateSpends(rules, p)
    ensures Reuses(rules, tool, p)
  {
    hide NeedsOnly, UsesUp;
    tool :| NeedsOnly(rules, tool, p) && !UsesUp(rules, tool, p);
  }

  lemma OneReuser(tool: ToolName, p: ToolName)
    requires p != "" && tool != p
    ensures var rules := [Rule(tool, p, 0, "", false)]; Ungated(rules, p) && Reuses(rules, tool, p)
  {
    FindRulesSingle(Rule(tool, p, 0, "", false), p);
    assert Rule(tool, p, 0, "", false) in [Rule(tool, p, 0, "", false)];
    hide FindRules;
  }

  lemma UngatedIsGrounded(rules: seq<Rule>, tool: ToolName)
    requires Ungated(rules, tool)
    ensures Grounded(rules, tool)
  {
    hide Ungated, DependsOn;
    assert RulePath(rules, [tool], tool);
  }

  /** One rule without the one-time flag is enough: more runs of its tool than tokens issued. */
  lemma OneReusableToken(tool: ToolName, p: ToolName, sid: SessionID) returns (calls: seq<Call>)
    requires p != "" && tool != p && sid != ""
    ensures var l := Opening([Rule(tool, p, 0, "", false)], 0);
            AdmissibleCalls(l, calls) && GatedUses(l, calls, sid, p) > Issues(l, calls, sid, p)
  {
    hide Within, Grounded, Ungated, Reuses, AdmissibleCalls, GatedUses, Issues;
    OneReuser(tool, p);
    UngatedIsGrounded([Rule(tool, p, 0, "", false)], p);
    calls := ReuseBreaksTheBound([Rule(tool, p, 0, "", false)], p, tool, sid);
  }
}
