/** Whole runs on the objects: a service, its stores and whatever event store it was given go
    through the states of the machine, so what is proved of runs of the machine holds of them. */
module Driver {
  import opened Domain
  import opened Sessions
  import opened Streaming
  import opened Machine
  import opened Ledgers
  import opened CallRuns
  import opened Ancestry
  import opened RatchetService
  import opened Wrapper
  import opened Isolation

  /** One operation on the service; recording is the wrapper's. */
  method Perform(service: Service, sessionStore: MemorySessionStore, op: Op) returns (err: Option<Error>)
    requires service.Valid() && service.sessionStore == sessionStore
    modifies service.tokenStore, sessionStore.Repr, service.Events()
    ensures service.Valid()
    ensures fresh(sessionStore.Repr - old(sessionStore.Repr)) && fresh(service.Events() - old(service.Events()))
    ensures var o := Step(old(service.View()), op);
            && err == o.err && service.View() == o.core
            && service.Observed() == Observe(old(service.Observed()), o.events, service.Faults())
  {
    hide Service.Valid, Service.View, Service.Observed, Service.Faults, Allowed, Rejection,
         ConsumePrerequisiteToken, IssueToken, ValidateToolCall, Observe;
    service.ViewParts();
    NothingToObserve(service.Observed(), service.Faults());
    match op
    case Create(sid, now) =>
      var session := service.CreateSession(sid, now);
      err := None;
    case Validate(sid, tool, token, now) =>
      err := service.ValidateToolCall(sid, tool, token, now);
    case Consume(sid, tool, now) =>
      err := service.ConsumePrerequisiteToken(sid, tool, now);
    case Issue(sid, tool, gen, now) =>
      var r := service.IssueToken(sid, tool, gen, now);
      err := if r.Ok? then None else Some(r.error);
    case Record(sid, tool) =>
      err := Wrapper.Record(service, sessionStore, sid, tool);
  }

  /** A run of operations. Its results, and what it does to rules, tokens and sessions, are those
      of the run without event store; the event store, however it fails, shows the run's events. */
  method RunOperations(service: Service, sessionStore: MemorySessionStore, ops: seq<Op>)
    returns (errs: seq<Option<Error>>)
    requires service.Valid() && service.sessionStore == sessionStore
    modifies service.tokenStore, sessionStore.Repr, service.Events()
    ensures service.Valid()
    ensures var o := RunObserved(old(service.View()), old(service.Observed()), ops, service.Faults());
            service.View() == o.core && errs == o.errs && service.Observed() == o.sink
    ensures var o := RunObserved(old(service.View()), None, ops, _ => false);
            service.View() == o.core && errs == o.errs
  {
    hide Service.Valid, Service.View, Service.Observed, Service.Faults, Step, Observe;
    errs := [];
    ghost var c, sink, fails := service.View(), service.Observed(), service.Faults();
    for i := 0 to |ops|
      invariant service.Valid()
      invariant fresh(sessionStore.Repr - old(sessionStore.Repr)) && fresh(service.Events() - old(service.Events()))
      invariant var o := RunObserved(c, sink, ops[..i], fails);
                service.View() == o.core && errs == o.errs && service.Observed() == o.sink
    {
      assert ops[..i + 1][..i] == ops[..i];
      var err := Perform(service, sessionStore, ops[i]);
      errs := errs + [err];
    }
    assert ops[..|ops|] == ops;
    ObservabilityIsInert(c, ops, sink, fails, None, _ => false);
  }

  // ------------------------------------------------------------ wrapped calls

  datatype ObservedCalls = ObservedCalls(core: Core, sink: Option<Sink>, verdicts: seq<Verdict>)

  ghost function CallsObserved(c: Core, sink: Option<Sink>, calls: seq<Call>, fails: nat -> bool): ObservedCalls {
    if calls == [] then ObservedCalls(c, sink, [])
    else
      var before := CallsObserved(c, sink, calls[..|calls| - 1], fails);
      var o := WrappedCall(before.core, calls[|calls| - 1]);
      ObservedCalls(o.core, Observe(before.sink, o.events, fails), before.verdicts + [o.verdict])
  }

  /** A run of wrapped calls, in the same way. */
  method RunCalls(service: Service, sessionStore: MemorySessionStore, calls: seq<Call>)
    returns (verdicts: seq<Verdict>)
    requires service.Valid() && service.sessionStore == sessionStore
    modifies service.tokenStore, sessionStore.Repr, service.Events()
    ensures service.Valid()
    ensures var o := CallsObserved(old(service.View()), old(service.Observed()), calls, service.Faults());
            service.View() == o.core && verdicts == o.verdicts && service.Observed() == o.sink
    ensures var o := CallsObserved(old(service.View()), None, calls, _ => false);
            service.View() == o.core && verdicts == o.verdicts
  {
    hide Service.Valid, Service.View, Service.Observed, Service.Faults, WrappedCall, Observe;
    verdicts := [];
    ghost var c, sink, fails := service.View(), service.Observed(), service.Faults();
    for i := 0 to |calls|
      invariant service.Valid()
      invariant fresh(sessionStore.Repr - old(sessionStore.Repr)) && fresh(service.Events() - old(service.Events()))
      invariant var o := CallsObserved(c, sink, calls[..i], fails);
                service.View() == o.core && verdicts == o.verdicts && service.Observed() == o.sink
    {
      assert calls[..i + 1][..i] == calls[..i];
      var verdict := WrapWithRatchet(service, sessionStore, calls[i]);
      verdicts := verdicts + [verdict];
    }
    assert calls[..|calls|] == calls;
    CallsAreInert(c, calls, sink, fails, None, _ => false);
  }

  lemma {:induction false} CallsAreInert(
    c: Core, calls: seq<Call>, sink: Option<Sink>, fails: nat -> bool, sink': Option<Sink>, fails': nat -> bool)
    ensures CallsObserved(c, sink, calls, fails).core == CallsObserved(c, sink', calls, fails').core
    ensures CallsObserved(c, sink, calls, fails).verdicts == CallsObserved(c, sink', calls, fails').verdicts
  {
    if calls != [] {
      CallsAreInert(c, calls[..|calls| - 1], sink, fails, sink', fails');
    }
  }

  lemma CallAdvances(l: Ledger, k: Call)
    ensures var o := WrappedCall(l.core, k);
            && AdvanceCall(l, k).core == o.core && AdvanceCall(l, k).log == l.log + o.events
            && (o.verdict.Succeeded? <==> Succeeds(l, k))
  {
    WrappedCallIsItsOperations(l, k);
  }

  /** Such a run is the run of wrapped calls of the theorems, and a working event store shows its
      events. */
  lemma {:induction false} ObservedCallsAreTheRun(l: Ledger, s: Sink, calls: seq<Call>, fails: nat -> bool)
    requires s.log == l.log && forall n: nat :: !fails(n)
    ensures var o := CallsObserved(l.core, Some(s), calls, fails);
            o.core == After(l, calls).core && o.sink.Some? && o.sink.value.log == After(l, calls).log
  {
    if calls != [] {
      hide WrappedCall, EmitAll, Succeeds, AdvanceCall;
      var n := |calls| - 1;
      var before := CallsObserved(l.core, Some(s), calls[..n], fails);
      ObservedCallsAreTheRun(l, s, calls[..n], fails);
      WorkingStoreKeepsAll(before.sink.value, WrappedCall(before.core, calls[n]).events, fails);
      CallAdvances(After(l, calls[..n]), calls[n]);
    }
  }

  /** The verdicts tell which calls succeeded, whatever the event store does. */
  lemma {:induction false} VerdictsTellSuccess(
    l: Ledger, sink: Option<Sink>, calls: seq<Call>, fails: nat -> bool, j: nat)
    requires j < |calls|
    ensures var o := CallsObserved(l.core, sink, calls, fails);
            && o.core == After(l, calls).core && |o.verdicts| == |calls|
            && (o.verdicts[j].Succeeded? <==> Executed(l, calls, j))
  {
    hide WrappedCall, Observe, Succeeds, AdvanceCall;
    var n := |calls| - 1;
    CallAdvances(After(l, calls[..n]), calls[n]);
    if j < n {
      VerdictsTellSuccess(l, sink, calls[..n], fails, j);
      ExecutedInPrefix(l, calls, n, j);
    } else if n > 0 {
      VerdictsTellSuccess(l, sink, calls[..n], fails, n - 1);
    }
  }
}
