/** Sequential runs of service operations, and what the token store, the sessions and the
    event log agree on in every state such a run reaches. */
module Ledgers {
  import opened Domain
  import opened Collections
  import opened RuleTable
  import opened TokenStore
  import opened Sessions
  import opened EventLog
  import opened Machine

  /** A state of the machine with its history: the events emitted so far, the latest reading
      an issue took, and all token values the generator has returned. */
  datatype Ledger = Ledger(core: Core, log: seq<Event>, latest: Time, used: set<TokenValue>)

  function Opening(rules: seq<Rule>, start: Time): Ledger {
    Ledger(Fresh(rules), [], start, {})
  }

  /** A token is only issued for a session that exists. */
  ghost predicate SessionPresent(c: Core, op: Op) {
    op.Issue? && op.gen.Some? ==> op.sid in c.sessions
  }

  /** Moreover, time does not run backwards between issues and generated tokens are new. */
  ghost predicate Admissible(l: Ledger, op: Op) {
    && SessionPresent(l.core, op)
    && (op.Issue? ==> l.latest <= op.now(0) && (op.gen.Some? ==> op.gen.value !in l.used))
  }

  ghost function Advance(l: Ledger, op: Op): Ledger {
    var o := Step(l.core, op);
    Ledger(
      o.core,
      l.log + o.events,
      if op.Issue? then op.now(0) else l.latest,
      if op.Issue? && op.gen.Some? then l.used + {op.gen.value} else l.used)
  }

  ghost function RunOps(l: Ledger, ops: seq<Op>): Ledger {
    if ops == [] then l else Advance(RunOps(l, ops[..|ops| - 1]), ops[|ops| - 1])
  }

  ghost predicate AdmissibleOps(l: Ledger, ops: seq<Op>) {
    ops != [] ==>
      && AdmissibleOps(l, ops[..|ops| - 1])
      && Admissible(RunOps(l, ops[..|ops| - 1]), ops[|ops| - 1])
  }

  ghost predicate SessionsPresent(l: Ledger, ops: seq<Op>) {
    ops != [] ==>
      && SessionsPresent(l, ops[..|ops| - 1])
      && SessionPresent(RunOps(l, ops[..|ops| - 1]).core, ops[|ops| - 1])
  }

  // ------------------------------------------------- what an operation does to one list

  function SessionTokens(c: Core, sid: SessionID, tool: ToolName): seq<TokenValue> {
    if sid in c.sessions then TokensOf(c.sessions[sid], tool) else []
  }

  /** The token that `op` takes from the list of `sid` and `tool`. */
  ghost function Taken(c: Core, op: Op, sid: SessionID, tool: ToolName): Option<TokenValue> {
    if op.Consume? && op.sid == sid && ConsumedPrerequisite(c.rules, op.tool) == Some(tool) then
      var valid := ValidValues(Entries(c.stored, sid, tool), op.now(0));
      if valid == [] then None else Some(valid[|valid| - 1])
    else None
  }

  /** The entry that `op` adds to the list of `sid` and `tool`. */
  ghost function Added(c: Core, op: Op, sid: SessionID, tool: ToolName): Option<Entry> {
    if op.Issue? && op.sid == sid && op.tool == tool && op.gen.Some? then
      Some(Entry(op.gen.value, op.now(0) + Lifetime(c.rules, tool)))
    else None
  }

  lemma StepEntries(c: Core, op: Op, sid: SessionID, tool: ToolName)
    ensures Step(c, op).core.rules == c.rules
    ensures Entries(Step(c, op).core.stored, sid, tool) ==
            var es := Entries(c.stored, sid, tool);
            match Taken(c, op, sid, tool)
            case Some(v) => RemoveFirst(es, v)
            case None => match Added(c, op, sid, tool) case Some(e) => es + [e] case None => es
  {
    hide ValidValues, RemoveFirst, Allowed, Rejection, Lifetime, FindRules, AddToken, DropLast;
  }

  lemma StepSessionTokens(c: Core, op: Op, sid: SessionID, tool: ToolName)
    requires SessionPresent(c, op)
    ensures SessionTokens(Step(c, op).core, sid, tool) ==
            var held := SessionTokens(c, sid, tool);
            match Taken(c, op, sid, tool)
            case Some(_) => if held == [] then [] else held[..|held| - 1]
            case None => match Added(c, op, sid, tool) case Some(e) => held + [e.value] case None => held
  {
  }

  // ------------------------------------------------- session lists equal store lists

  /** The entries are sorted by expiry, none outlasting `horizon`; their values are distinct,
      all from `used`, and in order the tokens `held`. */
  ghost predicate Tidy(es: seq<Entry>, held: seq<TokenValue>, used: set<TokenValue>, horizon: Time) {
    && SortedByExpiry(es)
    && Distinct(Values(es))
    && (forall i :: 0 <= i < |es| ==> es[i].value in used && es[i].expires <= horizon)
    && Values(es) == held
  }

  lemma AppendKeepsTidy(es: seq<Entry>, held: seq<TokenValue>, used: set<TokenValue>, horizon: Time, e: Entry)
    requires Tidy(es, held, used, horizon) && horizon <= e.expires && e.value !in used
    ensures Tidy(es + [e], held + [e.value], used + {e.value}, e.expires)
  {
    assert Values(es + [e]) == Values(es) + [e.value];
  }

  lemma {:induction false} TakeKeepsTidy(
    es: seq<Entry>, held: seq<TokenValue>, used: set<TokenValue>, horizon: Time, now: Time)
    requires Tidy(es, held, used, horizon) && ValidValues(es, now) != []
    ensures held != []
    ensures Tidy(RemoveFirst(es, ValidValues(es, now)[|ValidValues(es, now)| - 1]), held[..|held| - 1], used, horizon)
  {
    hide ValidValues, RemoveFirst;
    NewestIsRemoved(es, now);
    assert Values(es[..|es| - 1]) == held[..|held| - 1];
  }

  lemma TidyWeakens(es: seq<Entry>, held: seq<TokenValue>, used: set<TokenValue>, horizon: Time,
                    more: set<TokenValue>, later: Time)
    requires Tidy(es, held, used, horizon) && used <= more && horizon <= later
    ensures Tidy(es, held, more, later)
  {
  }

  ghost predicate AlignedAt(l: Ledger, sid: SessionID, tool: ToolName) {
    Tidy(Entries(l.core.stored, sid, tool), SessionTokens(l.core, sid, tool), l.used,
         l.latest + Lifetime(l.core.rules, tool))
  }

  /** Every stored list is sorted by expiry and free of duplicates, and the session holds the
      same tokens in the same order. */
  ghost predicate Aligned(l: Ledger) {
    forall sid, tool :: AlignedAt(l, sid, tool)
  }

  lemma StepKeepsAlignedAt(l: Ledger, op: Op, sid: SessionID, tool: ToolName)
    requires AlignedAt(l, sid, tool) && Admissible(l, op)
    ensures AlignedAt(Advance(l, op), sid, tool)
  {
    hide Step, Tidy, Entries, Lifetime, SessionTokens;
    StepEntries(l.core, op, sid, tool);
    StepSessionTokens(l.core, op, sid, tool);
    var es, held := Entries(l.core.stored, sid, tool), SessionTokens(l.core, sid, tool);
    var horizon := l.latest + Lifetime(l.core.rules, tool);
    var l' := Advance(l, op);
    if Taken(l.core, op, sid, tool).Some? {
      TakeKeepsTidy(es, held, l.used, horizon, op.now(0));
    } else if Added(l.core, op, sid, tool).Some? {
      AppendKeepsTidy(es, held, l.used, horizon, Added(l.core, op, sid, tool).value);
    } else {
      TidyWeakens(es, held, l.used, horizon, l'.used, l'.latest + Lifetime(l.core.rules, tool));
    }
  }

  lemma StepKeepsAligned(l: Ledger, op: Op)
    requires Aligned(l) && Admissible(l, op)
    ensures Aligned(Advance(l, op))
  {
    forall sid, tool ensures AlignedAt(Advance(l, op), sid, tool) {
      assert AlignedAt(l, sid, tool);
      StepKeepsAlignedAt(l, op, sid, tool);
    }
  }

  /** In every reachable state session lists equal store lists, though consuming drops the
      session's last token without looking at it. */
  lemma {:induction false} RunsKeepAligned(rules: seq<Rule>, start: Time, ops: seq<Op>)
    requires AdmissibleOps(Opening(rules, start), ops)
    ensures Aligned(RunOps(Opening(rules, start), ops))
  {
    if ops != [] {
      RunsKeepAligned(rules, start, ops[..|ops| - 1]);
      StepKeepsAligned(RunOps(Opening(rules, start), ops[..|ops| - 1]), ops[|ops| - 1]);
    }
  }

  // ------------------------------------------------- the log is a faithful journal

  /** The token list the events about one session and tool describe. */
  function Replay(log: seq<Event>, sid: SessionID, tool: ToolName): seq<TokenValue> {
    if log == [] then []
    else
      var before := Replay(log[..|log| - 1], sid, tool);
      var e := log[|log| - 1];
      if e.sessionID != sid || e.toolName != tool then before
      else if e.kind == TokenCreated then before + [e.token]
      else if e.kind == TokenConsumed then Without(before, e.token)
      else before
  }

  ghost predicate JournaledAt(l: Ledger, sid: SessionID, tool: ToolName) {
    Replay(l.log, sid, tool) == Values(Entries(l.core.stored, sid, tool))
  }

  ghost predicate Journaled(l: Ledger) {
    forall sid, tool :: JournaledAt(l, sid, tool)
  }

  lemma {:induction false} ReplayAppend(log: seq<Event>, e: Event, sid: SessionID, tool: ToolName)
    ensures Replay(log + [e], sid, tool) ==
            var before := Replay(log, sid, tool);
            if e.sessionID != sid || e.toolName != tool then before
            else if e.kind == TokenCreated then before + [e.token]
            else if e.kind == TokenConsumed then Without(before, e.token)
            else before
  {
    assert (log + [e])[..|log + [e]| - 1] == log;
  }

  lemma {:induction false} StepReplay(l: Ledger, op: Op, sid: SessionID, tool: ToolName)
    requires SessionPresent(l.core, op)
    ensures Replay(Advance(l, op).log, sid, tool) ==
            var before := Replay(l.log, sid, tool);
            match Taken(l.core, op, sid, tool)
            case Some(v) => Without(before, v)
            case None => match Added(l.core, op, sid, tool) case Some(e) => before + [e.value] case None => before
  {
    hide Replay;
    var events := Step(l.core, op).events;
    if events == [] {
      assert l.log + events == l.log;
    } else {
      ReplayAppend(l.log, events[0], sid, tool);
      if |events| == 1 {
        assert l.log + events == l.log + [events[0]];
      } else {
        ReplayAppend(l.log + [events[0]], events[1], sid, tool);
        assert l.log + events == l.log + [events[0]] + [events[1]];
      }
    }
  }

  lemma StepKeepsJournal(l: Ledger, op: Op)
    requires Journaled(l) && SessionPresent(l.core, op)
    ensures Journaled(Advance(l, op))
  {
    forall sid, tool ensures JournaledAt(Advance(l, op), sid, tool) {
      hide Step, Replay, Entries, RemoveFirst, Without, Values;
      assert JournaledAt(l, sid, tool);
      StepReplay(l, op, sid, tool);
      StepEntries(l.core, op, sid, tool);
      var es := Entries(l.core.stored, sid, tool);
      if Taken(l.core, op, sid, tool).Some? {
        RemoveFirstValues(es, Taken(l.core, op, sid, tool).value);
      } else if Added(l.core, op, sid, tool).Some? {
        var e := Added(l.core, op, sid, tool).value;
        assert Values(es + [e]) == Values(es) + [e.value];
      }
    }
  }

  /** Replaying creations as appends and consumptions as removals rebuilds every stored list. */
  lemma {:induction false} LogRebuildsTheStore(rules: seq<Rule>, start: Time, ops: seq<Op>)
    requires SessionsPresent(Opening(rules, start), ops)
    ensures Journaled(RunOps(Opening(rules, start), ops))
  {
    if ops == [] {
      assert forall sid, tool :: JournaledAt(Opening(rules, start), sid, tool);
    } else {
      LogRebuildsTheStore(rules, start, ops[..|ops| - 1]);
      StepKeepsJournal(RunOps(Opening(rules, start), ops[..|ops| - 1]), ops[|ops| - 1]);
    }
  }

  /** One step keeps the journal faithful exactly when it does not issue a token for a missing
      session: that token is stored, but no event tells of it. */
  lemma JournalNeedsTheSession(l: Ledger, op: Op)
    requires Journaled(l)
    ensures Journaled(Advance(l, op)) <==> SessionPresent(l.core, op)
  {
    if SessionPresent(l.core, op) {
      StepKeepsJournal(l, op);
    } else {
      assert JournaledAt(l, op.sid, op.tool);
      assert l.log + Step(l.core, op).events == l.log;
      StepEntries(l.core, op, op.sid, op.tool);
      assert !JournaledAt(Advance(l, op), op.sid, op.tool);
    }
  }

  // ------------------------------------------------- the statistics balance

  ghost function Lengths(slots: map<ToolName, seq<Entry>>): map<ToolName, nat> {
    map tool | tool in slots :: |slots[tool]|
  }

  ghost function HeldBySession(m: Stored): map<SessionID, nat> {
    map sid | sid in m :: MapSum(Lengths(m[sid]))
  }

  /** All entries in the store, expired ones included. */
  ghost function Held(m: Stored): nat {
    MapSum(HeldBySession(m))
  }

  lemma HeldAfterUpdate(m: Stored, sid: SessionID, tool: ToolName, es: seq<Entry>)
    ensures Held(WithEntries(m, sid, tool, es)) == Held(m) - |Entries(m, sid, tool)| + |es|
  {
    var slots: map<ToolName, seq<Entry>> := if sid in m then m[sid] else map[];
    assert Lengths(slots[tool := es]) == Lengths(slots)[tool := |es|];
    MapSumUpdate(Lengths(slots), tool, |es|);
    var now := MapSum(Lengths(slots[tool := es]));
    assert HeldBySession(WithEntries(m, sid, tool, es)) == HeldBySession(m)[sid := now];
    MapSumUpdate(HeldBySession(m), sid, now);
    assert sid !in m ==> Lengths(slots) == map[];
  }

  ghost predicate Balanced(l: Ledger) {
    && CountKind(l.log, ToolCallAttempt) == CountKind(l.log, ToolCallSuccess) + CountKind(l.log, ToolCallFailure)
    && CountKind(l.log, TokenCreated) == CountKind(l.log, TokenConsumed) + Held(l.core.stored)
  }

  lemma {:induction false} TakingShortens(es: seq<Entry>, now: Time)
    requires ValidValues(es, now) != []
    ensures |RemoveFirst(es, ValidValues(es, now)[|ValidValues(es, now)| - 1])| == |es| - 1
  {
    var v := ValidValues(es, now)[|ValidValues(es, now)| - 1];
    ValidValuesAreValues(es, now, v);
    RemoveFirstLength(es, v);
  }

  /** How many events of each kind an operation emits. */
  lemma {:induction false} StepCounts(l: Ledger, op: Op, kind: EventType)
    requires SessionPresent(l.core, op)
    ensures CountKind(Advance(l, op).log, kind) == CountKind(l.log, kind) + CountKind(Step(l.core, op).events, kind)
    ensures CountKind(Step(l.core, op).events, kind) == EventsOfKind(l.core, op, kind)
  {
    hide CountKind;
    var events := Step(l.core, op).events;
    CountKindAppend(l.log, events, kind);
    CountFew(events, kind);
  }

  lemma {:induction false} CountFew(events: seq<Event>, kind: EventType)
    requires |events| <= 2
    ensures CountKind(events, kind) ==
            (if |events| > 0 && events[0].kind == kind then 1 else 0)
            + (if |events| > 1 && events[1].kind == kind then 1 else 0)
  {
    if |events| == 2 {
      CountKindAppend([events[0]], [events[1]], kind);
      assert events == [events[0]] + [events[1]];
    }
  }

  ghost function EventsOfKind(c: Core, op: Op, kind: EventType): nat {
    match kind
    case ToolCallAttempt => if op.Validate? then 1 else 0
    case ToolCallSuccess => if op.Validate? && Allowed(c, op.sid, op.tool, op.now) then 1 else 0
    case ToolCallFailure => if op.Validate? && !Allowed(c, op.sid, op.tool, op.now) then 1 else 0
    case TokenCreated => if op.Issue? && op.gen.Some? then 1 else 0
    case TokenConsumed => if op.Consume? && ConsumedPrerequisite(c.rules, op.tool).Some?
                             && Taken(c, op, op.sid, ConsumedPrerequisite(c.rules, op.tool).value).Some? then 1 else 0
    case SessionCreated => if op.Create? && op.sid !in c.sessions then 1 else 0
    case Other(_) => 0
  }

  lemma StepHeld(l: Ledger, op: Op)
    requires SessionPresent(l.core, op)
    ensures Held(Step(l.core, op).core.stored) ==
            Held(l.core.stored) + EventsOfKind(l.core, op, TokenCreated) - EventsOfKind(l.core, op, TokenConsumed)
  {
    hide Held, ValidValues, RemoveFirst;
    var o := Step(l.core, op);
    if op.Issue? && op.gen.Some? {
      HeldAfterUpdate(l.core.stored, op.sid, op.tool, Entries(o.core.stored, op.sid, op.tool));
    } else if op.Consume? && o.events != [] {
      var tool := o.events[0].toolName;
      TakingShortens(Entries(l.core.stored, op.sid, tool), op.now(0));
      HeldAfterUpdate(l.core.stored, op.sid, tool, Entries(o.core.stored, op.sid, tool));
    }
  }

  lemma StepKeepsBalance(l: Ledger, op: Op)
    requires Balanced(l) && SessionPresent(l.core, op)
    ensures Balanced(Advance(l, op))
  {
    hide Step, CountKind, Held;
    StepCounts(l, op, ToolCallAttempt);
    StepCounts(l, op, ToolCallSuccess);
    StepCounts(l, op, ToolCallFailure);
    StepCounts(l, op, TokenCreated);
    StepCounts(l, op, TokenConsumed);
    StepHeld(l, op);
  }

  /** One step keeps the balance exactly when it does not issue a token for a missing session. */
  lemma BalanceNeedsTheSession(l: Ledger, op: Op)
    requires Balanced(l)
    ensures Balanced(Advance(l, op)) <==> SessionPresent(l.core, op)
  {
    hide CountKind, Held;
    if SessionPresent(l.core, op) {
      StepKeepsBalance(l, op);
    } else {
      assert l.log + Step(l.core, op).events == l.log;
      HeldAfterUpdate(l.core.stored, op.sid, op.tool, Entries(Step(l.core, op).core.stored, op.sid, op.tool));
    }
  }

  /** Attempts are successes plus failures, and every issued token was consumed or is still
      in the store. */
  lemma {:induction false} StatisticsBalance(rules: seq<Rule>, start: Time, ops: seq<Op>)
    requires SessionsPresent(Opening(rules, start), ops)
    ensures Balanced(RunOps(Opening(rules, start), ops))
  {
    if ops == [] {
      assert Held(map[]) == 0;
    } else {
      StatisticsBalance(rules, start, ops[..|ops| - 1]);
      StepKeepsBalance(RunOps(Opening(rules, start), ops[..|ops| - 1]), ops[|ops| - 1]);
    }
  }
}
