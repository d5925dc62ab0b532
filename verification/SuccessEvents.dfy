/** What tool_call_success events count. The event is emitted when a call is accepted, before its
    handler runs, so it is no record of executed tools. */
module SuccessEvents {
  import opened Domain
  import opened Collections
  import opened Machine
  import opened Ledgers
  import opened CallRuns
  import opened Ancestry

  ghost predicate IsSuccess(e: Event, sid: SessionID, tool: ToolName) {
    e.kind == ToolCallSuccess && e.sessionID == sid && e.toolName == tool
  }

  /** The tool_call_success events about one tool in one session. */
  ghost function Reported(log: seq<Event>, sid: SessionID, tool: ToolName): nat {
    if log == [] then 0
    else Reported(log[..|log| - 1], sid, tool) + if IsSuccess(log[|log| - 1], sid, tool) then 1 else 0
  }

  ghost predicate Accepted(l: Ledger, k: Call) {
    Allowed(CreateSession(l.core, k.sid, k.createAt).core, k.sid, k.tool, k.validateAt)
  }

  /** Call `j` of the run is accepted, and then its handler fails. */
  ghost predicate FailsInHandler(l: Ledger, calls: seq<Call>, j: nat) {
    j < |calls| && !calls[j].handlerSucceeds && Accepted(After(l, calls[..j]), calls[j])
  }

  ghost function FailedHandlers(l: Ledger, calls: seq<Call>, sid: SessionID, tool: ToolName): nat {
    if calls == [] then 0
    else
      var n := |calls| - 1;
      FailedHandlers(l, calls[..n], sid, tool)
      + if FailsInHandler(l, calls, n) && calls[n].sid == sid && calls[n].tool == tool then 1 else 0
  }

  lemma {:induction false} ReportedAppend(log: seq<Event>, e: Event, sid: SessionID, tool: ToolName)
    ensures Reported(log + [e], sid, tool) == Reported(log, sid, tool) + if IsSuccess(e, sid, tool) then 1 else 0
  {
    assert (log + [e])[..|log|] == log;
  }

  lemma {:induction false} StepReports(l: Ledger, op: Op, sid: SessionID, tool: ToolName)
    ensures Reported(Advance(l, op).log, sid, tool) == Reported(l.log, sid, tool)
            + if op.Validate? && op.sid == sid && op.tool == tool && Allowed(l.core, sid, tool, op.now) then 1 else 0
  {
    hide Reported, Allowed, Rejection;
    var events := Step(l.core, op).events;
    if events == [] {
      assert l.log + events == l.log;
    } else {
      ReportedAppend(l.log, events[0], sid, tool);
      if |events| == 1 {
        assert l.log + events == l.log + [events[0]];
      } else {
        ReportedAppend(l.log + [events[0]], events[1], sid, tool);
        assert l.log + events == l.log + [events[0]] + [events[1]];
      }
    }
  }

  /** A wrapped call emits the event exactly when it is accepted, however its handler ends. */
  lemma {:induction false} CallReports(l: Ledger, k: Call, sid: SessionID, tool: ToolName)
    ensures Reported(AdvanceCall(l, k).log, sid, tool) ==
            Reported(l.log, sid, tool) + if Accepted(l, k) && k.sid == sid && k.tool == tool then 1 else 0
  {
    WrappedCallIsItsOperations(l, k);
    var create := Create(k.sid, k.createAt);
    assert Step(l.core, create).core == CreateSession(l.core, k.sid, k.createAt).core;
    hide Step, Reported, AdvanceCall, Allowed;
    var validate := Validate(k.sid, k.tool, PresentedToken(l.core, k.sid, k.tool), k.validateAt);
    StepReports(l, create, sid, tool);
    StepReports(Advance(l, create), validate, sid, tool);
    StepReports(Checked(l, k), Consume(k.sid, k.tool, k.consumeAt), sid, tool);
    StepReports(Consumed(l, k), Issue(k.sid, k.tool, k.gen, k.issueAt), sid, tool);
    StepReports(Issued(l, k), Record(k.sid, k.tool), sid, tool);
  }

  /** Over every run the events about a tool are its executions plus its failed handlers. */
  lemma {:induction false} SuccessesAreExecutionsAndFailedHandlers(
    rules: seq<Rule>, start: Time, calls: seq<Call>, sid: SessionID, tool: ToolName)
    ensures var l := Opening(rules, start);
            Reported(After(l, calls).log, sid, tool) ==
            Count(History(After(l, calls).core, sid), tool) + FailedHandlers(l, calls, sid, tool)
  {
    hide AdvanceCall, Accepted, History, Count;
    var l, n := Opening(rules, start), |calls| - 1;
    if calls == [] {
      HistoryIsExecutions(rules, start, [], sid);
      CountIsMembership<ToolName>([], tool);
    } else {
      var before := After(l, calls[..n]);
      SuccessesAreExecutionsAndFailedHandlers(rules, start, calls[..n], sid, tool);
      CallReports(before, calls[n], sid, tool);
      CallHistory(before, calls[n], sid);
      SuccessIsAcceptedAndHandled(before, calls[n]);
      if Succeeds(before, calls[n]) && calls[n].sid == sid {
        CountAppend(History(before.core, sid), calls[n].tool, tool);
      } else {
        assert History(After(l, calls).core, sid) == History(before.core, sid);
      }
    }
  }

  lemma SuccessIsAcceptedAndHandled(l: Ledger, k: Call)
    ensures Succeeds(l, k) <==> Accepted(l, k) && k.handlerSucceeds
  {
  }

  lemma {:induction false} FailedHandlersAreCounted(l: Ledger, calls: seq<Call>, sid: SessionID, tool: ToolName)
    ensures FailedHandlers(l, calls, sid, tool) == 0 <==>
            forall j: nat :: FailsInHandler(l, calls, j) ==> calls[j].sid != sid || calls[j].tool != tool
  {
    if calls != [] {
      hide Accepted, AdvanceCall, After;
      var n := |calls| - 1;
      FailedHandlersAreCounted(l, calls[..n], sid, tool);
      forall j: nat | j < n
        ensures (FailsInHandler(l, calls[..n], j) <==> FailsInHandler(l, calls, j)) && calls[..n][j] == calls[j]
      {
        assert calls[..n][..j] == calls[..j];
      }
      assert forall j: nat :: FailsInHandler(l, calls, j) ==> j < n || j == n;
      hide FailsInHandler;
    }
  }

  /** So the events count executions exactly when no accepted call of the tool failed in its
      handler. */
  lemma {:induction false} EventsCountExecutionsIff(
    rules: seq<Rule>, start: Time, calls: seq<Call>, sid: SessionID, tool: ToolName)
    ensures var l := Opening(rules, start);
            Reported(After(l, calls).log, sid, tool) == Count(History(After(l, calls).core, sid), tool) <==>
            forall j: nat :: FailsInHandler(l, calls, j) ==> calls[j].sid != sid || calls[j].tool != tool
  {
    hide After, Reported, Count, History, FailedHandlers;
    SuccessesAreExecutionsAndFailedHandlers(rules, start, calls, sid, tool);
    FailedHandlersAreCounted(Opening(rules, start), calls, sid, tool);
  }

  /** A call of a tool without rules whose handler fails: the log reports a success, the history
      has no execution. */
  lemma FailedHandlerIsReportedAsSuccess(start: Time, k: Call)
    requires !k.handlerSucceeds
    ensures var l := Opening([], start);
            && WrappedCall(l.core, k).verdict == HandlerFailed
            && Reported(AdvanceCall(l, k).log, k.sid, k.tool) == 1
            && History(AdvanceCall(l, k).core, k.sid) == []
  {
    var l := Opening([], start);
    assert Accepted(l, k);
    CallReports(l, k, k.sid, k.tool);
    CallHistory(l, k, k.sid);
  }
}
