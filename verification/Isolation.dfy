/** What operations leave alone: other sessions, and everything when a call fails; and what
    observability leaves alone: everything but its own log. */
module Isolation {
  import opened Domain
  import opened TokenStore
  import opened Sessions
  import opened EventStore
  import opened Streaming
  import opened Machine
  import opened Ledgers
  import opened RatchetService

  // ------------------------------------------------------------ sessions

  /** Session, token map and stored tokens of `sid` are the same in both states. */
  ghost predicate SameFor(c: Core, d: Core, sid: SessionID) {
    && (sid in c.sessions <==> sid in d.sessions)
    && (sid in c.sessions ==> c.sessions[sid] == d.sessions[sid])
    && forall tool :: Entries(c.stored, sid, tool) == Entries(d.stored, sid, tool)
  }

  lemma OperationsAreIsolated(c: Core, op: Op, other: SessionID)
    requires other != op.sid
    ensures SameFor(c, Step(c, op).core, other)
  {
    hide ValidValues, RemoveFirst, Allowed;
  }

  /** A wrapped call touches one session only. */
  lemma CallsAreIsolated(c: Core, k: Call, other: SessionID)
    requires other != k.sid
    ensures SameFor(c, WrappedCall(c, k).core, other)
  {
    hide ValidValues, RemoveFirst, Allowed, Entries;
    var c1 := CreateSession(c, k.sid, k.createAt).core;
    OperationsAreIsolated(c, Create(k.sid, k.createAt), other);
    var c2 := ConsumePrerequisiteToken(c1, k.sid, k.tool, k.consumeAt).core;
    OperationsAreIsolated(c1, Consume(k.sid, k.tool, k.consumeAt), other);
    var c3 := IssueToken(c2, k.sid, k.tool, k.gen, k.issueAt).core;
    OperationsAreIsolated(c2, Issue(k.sid, k.tool, k.gen, k.issueAt), other);
    OperationsAreIsolated(c3, Record(k.sid, k.tool), other);
  }

  /** A call whose validation or handler fails changes no token list and no history; it only
      leaves the session created. */
  lemma FailedCallsChangeNothing(c: Core, k: Call)
    requires !WrappedCall(c, k).verdict.Succeeded?
    ensures var d := WrappedCall(c, k).core;
            && d.stored == c.stored && d.rules == c.rules
            && d.sessions == if k.sid in c.sessions then c.sessions else c.sessions[k.sid := NEW_SESSION]
  {
  }

  // ------------------------------------------------------------ observability

  /** A run of operations with an event store attached, with the results they return. */
  datatype Observed = Observed(core: Core, sink: Option<Sink>, errs: seq<Option<Error>>)

  ghost function RunObserved(c: Core, sink: Option<Sink>, ops: seq<Op>, fails: nat -> bool): Observed {
    if ops == [] then Observed(c, sink, [])
    else
      var before := RunObserved(c, sink, ops[..|ops| - 1], fails);
      var o := Step(before.core, ops[|ops| - 1]);
      Observed(o.core, Observe(before.sink, o.events, fails), before.errs + [o.err])
  }

  /** Results, rules, sessions and tokens of a run are the same with no event store, a working
      one, or one that fails at arbitrary points. */
  lemma {:induction false} ObservabilityIsInert(
    c: Core, ops: seq<Op>, sink: Option<Sink>, fails: nat -> bool, sink': Option<Sink>, fails': nat -> bool)
    ensures RunObserved(c, sink, ops, fails).core == RunObserved(c, sink', ops, fails').core
    ensures RunObserved(c, sink, ops, fails).errs == RunObserved(c, sink', ops, fails').errs
  {
    if ops != [] {
      ObservabilityIsInert(c, ops[..|ops| - 1], sink, fails, sink', fails');
    }
  }

  lemma {:induction false} WorkingStoreKeepsAll(s: Sink, es: seq<Event>, fails: nat -> bool)
    requires forall n: nat :: !fails(n)
    ensures EmitAll(s, es, fails).log == s.log + es
  {
    if es != [] {
      WorkingStoreKeepsAll(s, es[..|es| - 1], fails);
      assert es == es[..|es| - 1] + [es[|es| - 1]];
    }
  }

  /** A working event store shows exactly the events of the run. */
  lemma {:induction false} WorkingStoreShowsTheRun(l: Ledger, s: Sink, ops: seq<Op>, fails: nat -> bool)
    requires forall n: nat :: !fails(n)
    requires s.log == l.log
    ensures var o := RunObserved(l.core, Some(s), ops, fails);
            o.sink.Some? && o.sink.value.log == RunOps(l, ops).log && o.core == RunOps(l, ops).core
  {
    if ops != [] {
      hide Step, EmitAll;
      var init := ops[..|ops| - 1];
      WorkingStoreShowsTheRun(l, s, init, fails);
      var before := RunObserved(l.core, Some(s), init, fails);
      WorkingStoreKeepsAll(before.sink.value, Step(before.core, ops[|ops| - 1]).events, fails);
    }
  }

  function CountIn<K>(counters: map<K, nat>, k: K): nat {
    if k in counters then counters[k] else 0
  }

  /** The statistics that a working store reports after a run balance. */
  lemma {:induction false} ReportedStatisticsBalance(
    rules: seq<Rule>, start: Time, s: Sink, ops: seq<Op>, fails: nat -> bool, stats: EventStats)
    requires forall n: nat :: !fails(n)
    requires s.log == [] && SessionsPresent(Opening(rules, start), ops)
    requires var o := RunObserved(Fresh(rules), Some(s), ops, fails);
             o.sink.Some? && Describes(stats, o.sink.value.log)
    ensures CountIn(stats.eventsByType, ToolCallAttempt) ==
            CountIn(stats.eventsByType, ToolCallSuccess) + CountIn(stats.eventsByType, ToolCallFailure)
    ensures stats.tokensIssued ==
            stats.tokensConsumed + Held(RunObserved(Fresh(rules), Some(s), ops, fails).core.stored)
  {
    WorkingStoreShowsTheRun(Opening(rules, start), s, ops, fails);
    StatisticsBalance(rules, start, ops);
    hide RunOps, RunObserved, Held;
  }
}
