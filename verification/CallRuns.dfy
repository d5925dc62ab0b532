/** Sequential runs of wrapped tool calls. */
module CallRuns {
  import opened Domain
  import opened Collections
  import opened RuleTable
  import opened TokenStore
  import opened Machine
  import opened Ledgers

  /** The call is accepted and its handler succeeds. */
  ghost predicate Succeeds(l: Ledger, k: Call) {
    k.handlerSucceeds && Allowed(CreateSession(l.core, k.sid, k.createAt).core, k.sid, k.tool, k.validateAt)
  }

  ghost function AdvanceCall(l: Ledger, k: Call): Ledger {
    var o := WrappedCall(l.core, k);
    Ledger(
      o.core,
      l.log + o.events,
      if Succeeds(l, k) then k.issueAt(0) else l.latest,
      if Succeeds(l, k) && k.gen.Some? then l.used + {k.gen.value} else l.used)
  }

  ghost function Checked(l: Ledger, k: Call): Ledger {
    Advance(Advance(l, Create(k.sid, k.createAt)),
            Validate(k.sid, k.tool, PresentedToken(l.core, k.sid, k.tool), k.validateAt))
  }

  ghost function Consumed(l: Ledger, k: Call): Ledger {
    Advance(Checked(l, k), Consume(k.sid, k.tool, k.consumeAt))
  }

  ghost function Issued(l: Ledger, k: Call): Ledger {
    Advance(Consumed(l, k), Issue(k.sid, k.tool, k.gen, k.issueAt))
  }

  /** A wrapped call is a run of operations: create and validate, and if it succeeds consume,
      issue and record. */
  lemma WrappedCallIsItsOperations(l: Ledger, k: Call)
    ensures Succeeds(l, k) <==> WrappedCall(l.core, k).verdict.Succeeded?
    ensures AdvanceCall(l, k) == if Succeeds(l, k) then Advance(Issued(l, k), Record(k.sid, k.tool)) else Checked(l, k)
  {
    hide CreateSession, ConsumePrerequisiteToken, IssueToken, Allowed, Rejection, PresentedToken;
    assert RecordToolCall(Issued(l, k).core, k.sid, k.tool).events == [];
  }

  /** One monotone clock serves the whole call, no call starts before an earlier token was
      issued, and generated tokens are new. */
  ghost predicate AdmissibleCall(l: Ledger, k: Call) {
    && (forall i: nat :: l.latest <= k.validateAt(i) <= k.consumeAt(0))
    && k.consumeAt(0) <= k.issueAt(0)
    && (k.gen.Some? ==> k.gen.value !in l.used)
  }

  ghost function After(l: Ledger, calls: seq<Call>): Ledger {
    if calls == [] then l else AdvanceCall(After(l, calls[..|calls| - 1]), calls[|calls| - 1])
  }

  ghost predicate AdmissibleCalls(l: Ledger, calls: seq<Call>) {
    calls != [] ==>
      && AdmissibleCalls(l, calls[..|calls| - 1])
      && AdmissibleCall(After(l, calls[..|calls| - 1]), calls[|calls| - 1])
  }

  // ------------------------------------------------------------ invariants of call runs

  lemma IssuePresent(l: Ledger, k: Call)
    ensures k.sid in Consumed(l, k).core.sessions
    ensures Consumed(l, k).latest == l.latest && Consumed(l, k).used == l.used
  {
  }

  lemma CallBookkeeping(l: Ledger, k: Call)
    ensures AdvanceCall(l, k).latest == if Succeeds(l, k) then k.issueAt(0) else l.latest
    ensures AdvanceCall(l, k).used == if Succeeds(l, k) && k.gen.Some? then l.used + {k.gen.value} else l.used
    ensures AdvanceCall(l, k).core.rules == l.core.rules
  {
  }

  lemma CallKeepsInvariants(l: Ledger, k: Call)
    requires Aligned(l) && Journaled(l) && Balanced(l) && AdmissibleCall(l, k)
    ensures Aligned(AdvanceCall(l, k)) && Journaled(AdvanceCall(l, k)) && Balanced(AdvanceCall(l, k))
  {
    IssuePresent(l, k);
    WrappedCallIsItsOperations(l, k);
    hide Aligned, Journaled, Balanced, Step, AdvanceCall;
    var create := Create(k.sid, k.createAt);
    var validate := Validate(k.sid, k.tool, PresentedToken(l.core, k.sid, k.tool), k.validateAt);
    KeepInvariants(l, create);
    KeepInvariants(Advance(l, create), validate);
    if Succeeds(l, k) {
      KeepInvariants(Checked(l, k), Consume(k.sid, k.tool, k.consumeAt));
      KeepInvariants(Consumed(l, k), Issue(k.sid, k.tool, k.gen, k.issueAt));
      KeepInvariants(Issued(l, k), Record(k.sid, k.tool));
    }
  }

  lemma KeepInvariants(l: Ledger, op: Op)
    requires Aligned(l) && Journaled(l) && Balanced(l) && Admissible(l, op)
    ensures Aligned(Advance(l, op)) && Journaled(Advance(l, op)) && Balanced(Advance(l, op))
  {
    StepKeepsAligned(l, op);
    StepKeepsJournal(l, op);
    StepKeepsBalance(l, op);
  }

  /** In wrapper-only runs no assumption about sessions is left: the wrapper creates them, so
      store, sessions and event log agree after every admissible run. */
  lemma {:induction false} CallRunsKeepInvariants(rules: seq<Rule>, start: Time, calls: seq<Call>)
    requires AdmissibleCalls(Opening(rules, start), calls)
    ensures var l := After(Opening(rules, start), calls);
            l.core.rules == rules && Aligned(l) && Journaled(l) && Balanced(l)
  {
    if calls == [] {
      RunsKeepAligned(rules, start, []);
      LogRebuildsTheStore(rules, start, []);
      StatisticsBalance(rules, start, []);
    } else {
      var init, last := calls[..|calls| - 1], calls[|calls| - 1];
      CallRunsKeepInvariants(rules, start, init);
      CallBookkeeping(After(Opening(rules, start), init), last);
      CallKeepsInvariants(After(Opening(rules, start), init), last);
    }
  }

  // ------------------------------------------------------------ how often a token is used

  /** The tokens of `p` the session could present at time `t`. */
  ghost function Spendable(l: Ledger, sid: SessionID, p: ToolName, t: Time): nat {
    |ValidValues(Entries(l.core.stored, sid, p), t)|
  }

  ghost predicate IsUse(l: Ledger, k: Call, sid: SessionID, p: ToolName) {
    Succeeds(l, k) && k.sid == sid && SpendsOnly(l.core.rules, k.tool, p)
  }

  ghost predicate IsIssue(l: Ledger, k: Call, sid: SessionID, p: ToolName) {
    Succeeds(l, k) && k.sid == sid && k.tool == p && k.gen.Some?
  }

  /** Successful runs of tools that can only run on a one-time token of `p`. */
  ghost function Uses(l: Ledger, calls: seq<Call>, sid: SessionID, p: ToolName): nat {
    if calls == [] then 0
    else
      var init, last := calls[..|calls| - 1], calls[|calls| - 1];
      Uses(l, init, sid, p) + if IsUse(After(l, init), last, sid, p) then 1 else 0
  }

  /** Tokens issued for `p`. */
  ghost function Issues(l: Ledger, calls: seq<Call>, sid: SessionID, p: ToolName): nat {
    if calls == [] then 0
    else
      var init, last := calls[..|calls| - 1], calls[|calls| - 1];
      Issues(l, init, sid, p) + if IsIssue(After(l, init), last, sid, p) then 1 else 0
  }

  lemma CheckedEntries(l: Ledger, k: Call, sid: SessionID, p: ToolName)
    ensures Checked(l, k).core.rules == l.core.rules
    ensures Entries(Checked(l, k).core.stored, sid, p) == Entries(l.core.stored, sid, p)
  {
    hide Step, Entries, PresentedToken;
    var create := Create(k.sid, k.createAt);
    var validate := Validate(k.sid, k.tool, PresentedToken(l.core, k.sid, k.tool), k.validateAt);
    StepEntries(l.core, create, sid, p);
    StepEntries(Advance(l, create).core, validate, sid, p);
  }

  /** The list of `sid` and `p` after the consume step and after the whole call. */
  lemma CallEntries(l: Ledger, k: Call, sid: SessionID, p: ToolName)
    ensures var es := Entries(l.core.stored, sid, p);
            var taken := Taken(l.core, Consume(k.sid, k.tool, k.consumeAt), sid, p);
            var added := Added(l.core, Issue(k.sid, k.tool, k.gen, k.issueAt), sid, p);
            var kept := if taken.Some? then RemoveFirst(es, taken.value) else es;
            Entries(AdvanceCall(l, k).core.stored, sid, p) ==
            if !Succeeds(l, k) then es else if added.Some? then kept + [added.value] else kept
  {
    hide Step, Entries, ValidValues, RemoveFirst, AdvanceCall, Succeeds, Lifetime, ConsumedPrerequisite;
    WrappedCallIsItsOperations(l, k);
    CheckedEntries(l, k, sid, p);
    hide Checked;
    StepEntries(Checked(l, k).core, Consume(k.sid, k.tool, k.consumeAt), sid, p);
    StepEntries(Consumed(l, k).core, Issue(k.sid, k.tool, k.gen, k.issueAt), sid, p);
    StepEntries(Issued(l, k).core, Record(k.sid, k.tool), sid, p);
  }

  /** A spending call was validated at a moment when a token could be presented. */
  lemma SpenderSawAToken(l: Ledger, k: Call, p: ToolName) returns (i: nat)
    requires Succeeds(l, k) && SpendsOnly(l.core.rules, k.tool, p)
    ensures Spendable(l, k.sid, p, k.validateAt(i + 1)) >= 1
  {
    hide ValidValues, FindRules, Ungated;
    SpenderNamesItsToken(l.core.rules, k.tool, p);
    var c := CreateSession(l.core, k.sid, k.createAt).core;
    var rules := FindRules(c.rules, k.tool);
    assert Allowed(c, k.sid, k.tool, k.validateAt);
    i :| 0 <= i < |rules| && Satisfied(c, k.sid, rules[i], k.validateAt(i + 1));
    assert rules[i].prerequisite == p;
  }

  /** Dropping the newest entry costs a live token, or at `now` there was none. */
  lemma DropCosts(es: seq<Entry>, now: Time, later: Time)
    requires SortedByExpiry(es) && Distinct(Values(es)) && now <= later
    requires ValidValues(es, now) != []
    ensures |ValidValues(RemoveFirst(es, ValidValues(es, now)[|ValidValues(es, now)| - 1]), later)|
            <= |ValidValues(es, now)| - 1
  {
    NewestIsRemoved(es, now);
    var k := LiveEntriesAreASuffix(es, now);
    assert now < es[|es| - 1].expires;
    ValidityFades(es[..|es| - 1], now, later);
  }

  /** Removing an entry never adds a live one. */
  lemma {:induction false} RemovingAddsNothing(es: seq<Entry>, v: TokenValue, t: Time)
    ensures |ValidValues(RemoveFirst(es, v), t)| <= |ValidValues(es, t)|
  {
    if es != [] {
      assert es == [es[0]] + es[1..];
      ValidValuesAppend([es[0]], es[1..], t);
      if es[0].value != v {
        RemovingAddsNothing(es[1..], v, t);
        ValidValuesAppend([es[0]], RemoveFirst(es[1..], v), t);
      }
    }
  }

  /** One call against the potential "uses + spendable - issues": measured at `t` after the
      call it is no higher than at some `before`, not earlier than the last issue, before it.
      This covers tokens that expire between validation and consumption. */
  lemma CallSpends(l: Ledger, k: Call, sid: SessionID, p: ToolName, t: Time) returns (before: Time)
    requires Aligned(l) && AdmissibleCall(l, k) && AdvanceCall(l, k).latest <= t
    ensures l.latest <= before
    ensures (if IsUse(l, k, sid, p) then 1 else 0) + Spendable(AdvanceCall(l, k), sid, p, t)
            <= Spendable(l, sid, p, before) + (if IsIssue(l, k, sid, p) then 1 else 0)
  {
    hide Step, Succeeds, ValidValues, Entries, RemoveFirst, AdvanceCall, ConsumedPrerequisite, Lifetime, SpendsOnly;
    CallBookkeeping(l, k);
    CallEntries(l, k, sid, p);
    before := t;
    if Succeeds(l, k) {
      var consume := Consume(k.sid, k.tool, k.consumeAt);
      var u := k.consumeAt(0);
      assert l.latest <= k.validateAt(0) <= u;
      var es := Entries(l.core.stored, sid, p);
      assert AlignedAt(l, sid, p);
      var taken := Taken(l.core, consume, sid, p);
      var kept := if taken.Some? then RemoveFirst(es, taken.value) else es;
      var added := Added(l.core, Issue(k.sid, k.tool, k.gen, k.issueAt), sid, p);
      if added.Some? {
        OneMore(kept, added.value, t);
      }
      if IsUse(l, k, sid, p) {
        SpenderNamesItsToken(l.core.rules, k.tool, p);
        var i := SpenderSawAToken(l, k, p);
        before := k.validateAt(i + 1);
        ValidityFades(es, before, u);
        ValidityFades(es, u, t);
        if taken.Some? {
          DropCosts(es, u, t);
        }
      } else if taken.Some? {
        RemovingAddsNothing(es, taken.value, t);
      }
    }
  }

  lemma {:induction false} OneMore(es: seq<Entry>, e: Entry, t: Time)
    ensures |ValidValues(es + [e], t)| <= |ValidValues(es, t)| + 1
  {
    assert (es + [e])[..|es|] == es;
  }

  /** In every sequential run, the runs paid for with one-time tokens of `p` and the tokens of
      `p` still spendable together never exceed the tokens issued for `p`. */
  lemma {:induction false} UsesNeverExceedIssues(
    rules: seq<Rule>, start: Time, calls: seq<Call>, sid: SessionID, p: ToolName, t: Time)
    requires AdmissibleCalls(Opening(rules, start), calls)
    requires After(Opening(rules, start), calls).latest <= t
    ensures var l := Opening(rules, start);
            Uses(l, calls, sid, p) + Spendable(After(l, calls), sid, p, t) <= Issues(l, calls, sid, p)
  {
    if calls != [] {
      var l := Opening(rules, start);
      var init, last := calls[..|calls| - 1], calls[|calls| - 1];
      CallRunsKeepInvariants(rules, start, init);
      var before := CallSpends(After(l, init), last, sid, p, t);
      UsesNeverExceedIssues(rules, start, init, sid, p, before);
    }
  }
}
