/** Where histories and stored tokens come from: every successful call of a gated tool is
    backed by a chain of earlier successful calls of the same session. */
module Ancestry {
  import opened Domain
  import opened Collections
  import opened RuleTable
  import opened TokenStore
  import opened Machine
  import opened Ledgers
  import opened CallRuns

  // ------------------------------------------------------------ histories

  function History(c: Core, sid: SessionID): seq<ToolName> {
    if sid in c.sessions then c.sessions[sid].history else []
  }

  /** The tools whose calls succeeded in the session, in order. */
  ghost function Executions(l: Ledger, calls: seq<Call>, sid: SessionID): seq<ToolName> {
    if calls == [] then []
    else
      var init, last := calls[..|calls| - 1], calls[|calls| - 1];
      Executions(l, init, sid) + if Succeeds(After(l, init), last) && last.sid == sid then [last.tool] else []
  }

  lemma StepHistory(c: Core, op: Op, sid: SessionID)
    ensures History(Step(c, op).core, sid) ==
            History(c, sid) + if op.Record? && op.sid == sid && sid in c.sessions then [op.tool] else []
    ensures sid in c.sessions ==> sid in Step(c, op).core.sessions
    ensures op.Create? ==> op.sid in Step(c, op).core.sessions
  {
  }

  lemma CallHistory(l: Ledger, k: Call, sid: SessionID)
    ensures History(AdvanceCall(l, k).core, sid) ==
            History(l.core, sid) + if Succeeds(l, k) && k.sid == sid then [k.tool] else []
  {
    WrappedCallIsItsOperations(l, k);
    hide Step, History, AdvanceCall, Succeeds;
    var create := Create(k.sid, k.createAt);
    var validate := Validate(k.sid, k.tool, PresentedToken(l.core, k.sid, k.tool), k.validateAt);
    StepHistory(l.core, create, sid);
    StepHistory(Advance(l, create).core, validate, sid);
    StepHistory(Checked(l, k).core, Consume(k.sid, k.tool, k.consumeAt), sid);
    StepHistory(Consumed(l, k).core, Issue(k.sid, k.tool, k.gen, k.issueAt), sid);
    StepHistory(Issued(l, k).core, Record(k.sid, k.tool), sid);
  }

  /** The history of a session is exactly the sequence of its successful calls. */
  lemma {:induction false} HistoryIsExecutions(rules: seq<Rule>, start: Time, calls: seq<Call>, sid: SessionID)
    ensures History(After(Opening(rules, start), calls).core, sid) == Executions(Opening(rules, start), calls, sid)
  {
    if calls != [] {
      HistoryIsExecutions(rules, start, calls[..|calls| - 1], sid);
      CallHistory(After(Opening(rules, start), calls[..|calls| - 1]), calls[|calls| - 1], sid);
    }
  }

  lemma {:induction false} CountAppend<T>(s: seq<T>, y: T, x: T)
    ensures Count(s + [y], x) == Count(s, x) + if x == y then 1 else 0
  {
    assert (s + [y])[..|s|] == s;
  }

  /** Tokens issued for a tool never outnumber its entries in the history, and match them
      when the generator never fails. */
  lemma {:induction false} IssuesAreInTheHistory(
    rules: seq<Rule>, start: Time, calls: seq<Call>, sid: SessionID, tool: ToolName)
    ensures var l := Opening(rules, start);
            && Issues(l, calls, sid, tool) <= Count(History(After(l, calls).core, sid), tool)
            && ((forall i :: 0 <= i < |calls| ==> calls[i].gen.Some?) ==>
                  Issues(l, calls, sid, tool) == Count(History(After(l, calls).core, sid), tool))
  {
    hide AdvanceCall, Succeeds, History, Count;
    if calls == [] {
      HistoryIsExecutions(rules, start, [], sid);
      CountIsMembership<ToolName>([], tool);
    } else {
      var l := Opening(rules, start);
      var init, last := calls[..|calls| - 1], calls[|calls| - 1];
      IssuesAreInTheHistory(rules, start, init, sid, tool);
      CallHistory(After(l, init), last, sid);
      if Succeeds(After(l, init), last) && last.sid == sid {
        CountAppend(History(After(l, init).core, sid), last.tool, tool);
      } else {
        assert History(After(l, calls).core, sid) == History(After(l, init).core, sid);
      }
      assert forall i :: 0 <= i < |init| ==> init[i] == calls[i];
    }
  }

  // ------------------------------------------------------------ stored tokens

  /** Call `j` of the run succeeded. */
  ghost predicate Executed(l: Ledger, calls: seq<Call>, j: nat) {
    j < |calls| && Succeeds(After(l, calls[..j]), calls[j])
  }

  /** The moment at which the token of call `k` expires. */
  ghost function ExpiryOf(rules: seq<Rule>, k: Call): Time {
    k.issueAt(0) + Lifetime(rules, k.tool)
  }

  lemma ExecutedInPrefix(l: Ledger, calls: seq<Call>, m: nat, j: nat)
    requires j < m <= |calls|
    ensures Executed(l, calls[..m], j) <==> Executed(l, calls, j)
  {
    assert calls[..m][..j] == calls[..j];
  }

  lemma {:induction false} RemoveFirstSubset(es: seq<Entry>, v: TokenValue, e: Entry)
    requires e in RemoveFirst(es, v)
    ensures e in es
  {
    if es != [] && es[0].value != v && e != es[0] {
      RemoveFirstSubset(es[1..], v, e);
    }
  }

  /** Every stored entry was issued by an earlier successful call of that tool and session,
      with that call's expiry. */
  lemma {:induction false} EntryHasIssuer(
    rules: seq<Rule>, start: Time, calls: seq<Call>, sid: SessionID, tool: ToolName, e: Entry) returns (j: nat)
    requires e in Entries(After(Opening(rules, start), calls).core.stored, sid, tool)
    ensures Executed(Opening(rules, start), calls, j)
    ensures calls[j].sid == sid && calls[j].tool == tool && calls[j].gen == Some(e.value)
    ensures e.expires == ExpiryOf(rules, calls[j])
  {
    hide AdvanceCall, Succeeds, RemoveFirst, ValidValues;
    var l := Opening(rules, start);
    var init, n := calls[..|calls| - 1], |calls| - 1;
    var before := After(l, init);
    CallEntries(before, calls[n], sid, tool);
    RulesNeverChange(l, init);
    var es := Entries(before.core.stored, sid, tool);
    var taken := Taken(before.core, Consume(calls[n].sid, calls[n].tool, calls[n].consumeAt), sid, tool);
    var added := Added(before.core, Issue(calls[n].sid, calls[n].tool, calls[n].gen, calls[n].issueAt), sid, tool);
    if Succeeds(before, calls[n]) && added == Some(e) {
      j := n;
    } else {
      if taken.Some? && e !in es {
        RemoveFirstSubset(es, taken.value, e);
      }
      j := EntryHasIssuer(rules, start, init, sid, tool, e);
      ExecutedInPrefix(l, calls, n, j);
    }
  }

  lemma {:induction false} RulesNeverChange(l: Ledger, calls: seq<Call>)
    ensures After(l, calls).core.rules == l.core.rules
  {
    if calls != [] {
      RulesNeverChange(l, calls[..|calls| - 1]);
      CallBookkeeping(After(l, calls[..|calls| - 1]), calls[|calls| - 1]);
    }
  }

  lemma {:induction false} ExecutedIsInHistory(rules: seq<Rule>, start: Time, calls: seq<Call>, j: nat)
    requires Executed(Opening(rules, start), calls, j)
    ensures j < |calls| && calls[j].tool in History(After(Opening(rules, start), calls).core, calls[j].sid)
  {
    hide AdvanceCall, Succeeds, History;
    var l, n := Opening(rules, start), |calls| - 1;
    CallHistory(After(l, calls[..n]), calls[n], calls[j].sid);
    if j < n {
      ExecutedInPrefix(l, calls, n, j);
      ExecutedIsInHistory(rules, start, calls[..n], j);
    }
  }

  /** A stored token of `tool` implies that `tool` is in the history: in wrapper-only runs the
      history test never rejects a call that the token test would accept. */
  lemma {:induction false} TokenImpliesHistory(
    rules: seq<Rule>, start: Time, calls: seq<Call>, sid: SessionID, tool: ToolName)
    requires Entries(After(Opening(rules, start), calls).core.stored, sid, tool) != []
    ensures tool in History(After(Opening(rules, start), calls).core, sid)
  {
    var e := Entries(After(Opening(rules, start), calls).core.stored, sid, tool)[0];
    var j := EntryHasIssuer(rules, start, calls, sid, tool, e);
    ExecutedIsInHistory(rules, start, calls, j);
  }

  /** Rule `i` of the tool names a prerequisite with a live token when it is checked. */
  ghost predicate TokenTest(c: Core, sid: SessionID, tool: ToolName, now: Clock, i: nat) {
    && i < |FindRules(c.rules, tool)|
    && ValidValues(Entries(c.stored, sid, FindRules(c.rules, tool)[i].prerequisite), now(i + 1)) != []
  }

  /** So in wrapper-only runs live tokens alone decide whether a gated tool is accepted. */
  lemma {:induction false} TokensAloneDecide(
    rules: seq<Rule>, start: Time, calls: seq<Call>, sid: SessionID, tool: ToolName, now: Clock)
    requires sid != "" && !Ungated(rules, tool)
    ensures var c := After(Opening(rules, start), calls).core;
            Allowed(c, sid, tool, now) <==> exists i: nat :: TokenTest(c, sid, tool, now, i)
  {
    RulesNeverChange(Opening(rules, start), calls);
    var c := After(Opening(rules, start), calls).core;
    var matched := FindRules(c.rules, tool);
    hide After, ValidValues, Ungated, FindRules;
    if Allowed(c, sid, tool, now) {
      var i :| 0 <= i < |matched| && Satisfied(c, sid, matched[i], now(i + 1));
      assert TokenTest(c, sid, tool, now, i);
    }
    if i: nat :| TokenTest(c, sid, tool, now, i) {
      NoTokensNoValidTokens(now(i + 1));
      TokenImpliesHistory(rules, start, calls, sid, matched[i].prerequisite);
      assert Satisfied(c, sid, matched[i], now(i + 1));
    }
  }

  lemma {:induction false} NoTokensNoValidTokens(now: Time)
    ensures ValidValues([], now) == []
  {
  }

  // ------------------------------------------------------------ the backing chain

  /** The token that call `k` issued, as it is stored. */
  ghost function IssuedEntry(rules: seq<Rule>, k: Call): Entry
    requires k.gen.Some?
  {
    Entry(k.gen.value, ExpiryOf(rules, k))
  }

  /** Call `k` relied on the token of call `j`: same session, a rule edge between their tools, and
      the token was in the store, and live, when that rule was checked. */
  ghost predicate Backs(rules: seq<Rule>, start: Time, calls: seq<Call>, j: nat, k: nat) {
    && j < k < |calls|
    && calls[j].sid == calls[k].sid
    && calls[j].gen.Some?
    && IssuedEntry(rules, calls[j]) in
         Entries(After(Opening(rules, start), calls[..k]).core.stored, calls[k].sid, calls[j].tool)
    && exists i ::
         && 0 <= i < |FindRules(rules, calls[k].tool)|
         && FindRules(rules, calls[k].tool)[i].prerequisite == calls[j].tool
         && calls[k].validateAt(i + 1) < IssuedEntry(rules, calls[j]).expires
  }

  lemma GatedCallIsBacked(rules: seq<Rule>, start: Time, calls: seq<Call>, k: nat) returns (j: nat)
    requires Executed(Opening(rules, start), calls, k) && !Ungated(rules, calls[k].tool)
    ensures j < k && Executed(Opening(rules, start), calls, j) && Backs(rules, start, calls, j, k)
  {
    hide AdvanceCall, ValidValues, After;
    var l, call := Opening(rules, start), calls[k];
    var before := After(l, calls[..k]);
    RulesNeverChange(l, calls[..k]);
    var c := CreateSession(before.core, call.sid, call.createAt).core;
    var matched := FindRules(rules, call.tool);
    assert Allowed(c, call.sid, call.tool, call.validateAt);
    var i :| 0 <= i < |matched| && Satisfied(c, call.sid, matched[i], call.validateAt(i + 1));
    var p, at := matched[i].prerequisite, call.validateAt(i + 1);
    var es := Entries(before.core.stored, call.sid, p);
    var m := LiveEntry(es, at);
    j := EntryHasIssuer(rules, start, calls[..k], call.sid, p, es[m]);
    ExecutedInPrefix(l, calls, k, j);
    assert calls[..k][j] == calls[j];
    assert es[m] == IssuedEntry(rules, calls[j]);
    assert matched[i].prerequisite == calls[j].tool;
  }

  lemma LiveEntry(es: seq<Entry>, at: Time) returns (m: nat)
    requires ValidValues(es, at) != []
    ensures m < |es| && at < es[m].expires
  {
    ValidValuesMembers(es, at, ValidValues(es, at)[0]);
    m :| m < |es| && es[m].value == ValidValues(es, at)[0] && at < es[m].expires;
  }

  /** In the readings of the clock: the rule that let a gated call pass was checked before the
      token of an earlier successful call of its prerequisite, issued `lifetime` ago at most,
      expired - the expiry of that tool's first rule, or five minutes. */
  lemma GatedCallIsInTime(rules: seq<Rule>, start: Time, calls: seq<Call>, k: nat)
    returns (j: nat, i: nat, lifetime: Time)
    requires Executed(Opening(rules, start), calls, k)
    requires HasRule(rules, calls[k].tool)
    requires forall r :: r in rules && r.tool == calls[k].tool ==> r.prerequisite != ""
    ensures j < k && Executed(Opening(rules, start), calls, j) && calls[j].sid == calls[k].sid
    ensures exists r :: r in rules && r.tool == calls[k].tool && r.prerequisite == calls[j].tool
    ensures calls[k].validateAt(i + 1) < calls[j].issueAt(0) + lifetime
    ensures forall f :: IsFirst(rules, f, calls[j].tool) ==>
              lifetime == if rules[f].expiry > 0 then rules[f].expiry else 300_000_000_000
    ensures !HasRule(rules, calls[j].tool) ==> lifetime == 300_000_000_000
  {
    hide AdvanceCall, After, FindRules, Lifetime;
    NoneFound(rules, calls[k].tool);
    var matched := FindRules(rules, calls[k].tool);
    forall m | 0 <= m < |matched| ensures matched[m].prerequisite != "" {
      FindRulesMembers(rules, calls[k].tool, matched[m]);
    }
    j := GatedCallIsBacked(rules, start, calls, k);
    i :| 0 <= i < |matched| && matched[i].prerequisite == calls[j].tool
         && calls[k].validateAt(i + 1) < IssuedEntry(rules, calls[j]).expires;
    FindRulesMembers(rules, calls[k].tool, matched[i]);
    lifetime := Lifetime(rules, calls[j].tool);
    LifetimeOfFirstRule(rules, calls[j].tool);
  }

  /** Successful calls, the first of an ungated tool, each backing the next, the last being `k`. */
  ghost predicate BackingChain(rules: seq<Rule>, start: Time, calls: seq<Call>, chain: seq<nat>, k: nat) {
    && chain != [] && chain[|chain| - 1] == k
    && (forall i :: 0 <= i < |chain| ==> Executed(Opening(rules, start), calls, chain[i]))
    && chain[0] < |calls| && Ungated(rules, calls[chain[0]].tool)
    && (forall i :: 0 < i < |chain| ==> Backs(rules, start, calls, chain[i - 1], chain[i]))
  }

  lemma ExtendChain(rules: seq<Rule>, start: Time, calls: seq<Call>, chain: seq<nat>, j: nat, k: nat)
    requires BackingChain(rules, start, calls, chain, j)
    requires Executed(Opening(rules, start), calls, k) && Backs(rules, start, calls, j, k)
    ensures BackingChain(rules, start, calls, chain + [k], k)
  {
    hide Executed, Backs, Ungated;
  }

  /** Every successful call ends a chain of successful calls of its session, strictly ordered
      in time, that starts at an ungated tool and follows rule edges; each relied on a stored live token
      of the one before. */
  lemma {:induction false} SuccessIsBackedByAChain(rules: seq<Rule>, start: Time, calls: seq<Call>, k: nat)
    returns (chain: seq<nat>)
    requires Executed(Opening(rules, start), calls, k)
    ensures BackingChain(rules, start, calls, chain, k)
    decreases k
  {
    if Ungated(rules, calls[k].tool) {
      chain := [k];
    } else {
      var j := GatedCallIsBacked(rules, start, calls, k);
      var rest := SuccessIsBackedByAChain(rules, start, calls, j);
      ExtendChain(rules, start, calls, rest, j, k);
      chain := rest + [k];
    }
  }

  // ------------------------------------------------------------ without recording

  lemma {:induction false} HistoryNeedsRecording(rules: seq<Rule>, start: Time, ops: seq<Op>, sid: SessionID)
    requires forall i :: 0 <= i < |ops| ==> !ops[i].Record?
    ensures History(RunOps(Opening(rules, start), ops).core, sid) == []
    ensures RunOps(Opening(rules, start), ops).core.rules == rules
  {
    if ops != [] {
      hide Step, History;
      var init := ops[..|ops| - 1];
      HistoryNeedsRecording(rules, start, init, sid);
      StepHistory(RunOps(Opening(rules, start), init).core, ops[|ops| - 1], sid);
      StepEntries(RunOps(Opening(rules, start), init).core, ops[|ops| - 1], sid, "");
    } else {
      assert History(Fresh(rules), sid) == [];
    }
  }

  /** A caller that validates, consumes and issues but never records its calls, as the manual
      wrapper of the documentation does, never gets a gated tool accepted. */
  lemma {:induction false} WithoutRecordingGatedToolsStayClosed(rules: seq<Rule>, start: Time, ops: seq<Op>, op: Op)
    requires forall i :: 0 <= i < |ops| ==> !ops[i].Record?
    requires op.Validate? && !Ungated(rules, op.tool)
    ensures Step(RunOps(Opening(rules, start), ops).core, op).err.Some?
  {
    hide RunOps, Ungated, ValidValues;
    HistoryNeedsRecording(rules, start, ops, op.sid);
  }
}
