/** Concurrent wrapped calls, interleaved at the locked operations of the stores. Nothing is
    locked from reading the valid tokens to removing one, so another thread may come first. */
module Interleaving {
  import opened Domain
  import opened Collections
  import opened RuleTable
  import opened TokenStore

  datatype Slot = Slot(sid: SessionID, tool: ToolName)

  datatype Ticket = Ticket(slot: Slot, value: TokenValue)

  /** Where a thread stands in its wrapped call: accepted, with its handler at work; about to
      remove the token it chose; finished consuming; finished issuing. */
  datatype Phase =
    | Idle
    | Handled(sid: SessionID, tool: ToolName)
    | Chosen(sid: SessionID, tool: ToolName, prerequisite: ToolName, value: TokenValue)
    | Settled(sid: SessionID, tool: ToolName)
    | Issued(sid: SessionID, tool: ToolName)

  /** The token store, the recorded calls, the threads, the clock, and the accounts: `uses` counts
      finished runs of tools that can only run on a token of the slot and use it up; `spends`
      all finished consume steps on the slot, and `unpaid` those of them that removed nothing. */
  datatype World = World(
    rules: seq<Rule>,
    stored: Stored,
    history: set<Slot>,
    threads: map<nat, Phase>,
    clock: Time,
    issued: multiset<Ticket>,
    consumed: multiset<Ticket>,
    issues: multiset<Slot>,
    uses: multiset<Slot>,
    spends: multiset<Slot>,
    unpaid: multiset<Slot>)

  function Begin(rules: seq<Rule>, clock: Time): World {
    World(rules, map[], {}, map[], clock, multiset{}, multiset{}, multiset{}, multiset{}, multiset{}, multiset{})
  }

  function PhaseOf(w: World, thread: nat): Phase {
    if thread in w.threads then w.threads[thread] else Idle
  }

  datatype Move =
    | Validate(thread: nat, sid: SessionID, tool: ToolName, now: Time)
    | Fail(thread: nat)
    | Choose(thread: nat, now: Time)
    | Remove(thread: nat)
    | Issue(thread: nat, gen: Option<TokenValue>, now: Time)
    | Record(thread: nat)

  ghost predicate Accepts(w: World, sid: SessionID, tool: ToolName, now: Time) {
    var matched := FindRules(w.rules, tool);
    || Ungated(w.rules, tool)
    || (sid != ""
        && exists i :: && 0 <= i < |matched|
                       && Slot(sid, matched[i].prerequisite) in w.history
                       && ValidValues(Entries(w.stored, sid, matched[i].prerequisite), now) != [])
  }

  ghost function Use(rules: seq<Rule>, tool: ToolName, slot: Slot): multiset<Slot> {
    if SpendsOnly(rules, tool, slot.tool) then multiset{slot} else multiset{}
  }

  /** The token that the consume step of `tool` would choose now. */
  ghost function Choice(w: World, sid: SessionID, p: ToolName, now: Time): Option<TokenValue> {
    var valid := ValidValues(Entries(w.stored, sid, p), now);
    if valid == [] then None else Some(valid[|valid| - 1])
  }

  /** Where `m` takes its thread; `None` when the thread is not ready for it. */
  ghost function NextPhase(w: World, m: Move): Option<Phase> {
    var phase := PhaseOf(w, m.thread);
    match m
    case Validate(_, sid, tool, now) =>
      if phase.Idle? && Accepts(w, sid, tool, now) then Some(Handled(sid, tool)) else None
    case Fail(_) => if phase.Handled? then Some(Idle) else None
    case Choose(_, now) =>
      if !phase.Handled? then None
      else
        var needed := ConsumedPrerequisite(w.rules, phase.tool);
        if needed.None? || Choice(w, phase.sid, needed.value, now).None? then Some(Settled(phase.sid, phase.tool))
        else Some(Chosen(phase.sid, phase.tool, needed.value, Choice(w, phase.sid, needed.value, now).value))
    case Remove(_) => if phase.Chosen? then Some(Settled(phase.sid, phase.tool)) else None
    case Issue(_, _, _) => if phase.Settled? then Some(Issued(phase.sid, phase.tool)) else None
    case Record(_) => if phase.Issued? then Some(Idle) else None
  }

  /** What `m` does to all but the place of its thread. */
  ghost function Effect(w: World, m: Move): World
    requires NextPhase(w, m).Some?
  {
    var phase := PhaseOf(w, m.thread);
    match m
    case Validate(_, _, _, now) => w.(clock := now)
    case Fail(_) => w
    case Choose(_, now) =>
      var needed := ConsumedPrerequisite(w.rules, phase.tool);
      if needed.None? || Choice(w, phase.sid, needed.value, now).Some? then w.(clock := now)
      else
        var slot := Slot(phase.sid, needed.value);
        w.(
          clock := now,
          uses := w.uses + Use(w.rules, phase.tool, slot),
          spends := w.spends + multiset{slot},
          unpaid := w.unpaid + multiset{slot})
    case Remove(_) =>
      var slot, es := Slot(phase.sid, phase.prerequisite), Entries(w.stored, phase.sid, phase.prerequisite);
      var settled := w.(uses := w.uses + Use(w.rules, phase.tool, slot), spends := w.spends + multiset{slot});
      if phase.value in Values(es) then
        settled.(
          stored := WithEntries(w.stored, phase.sid, phase.prerequisite, RemoveFirst(es, phase.value)),
          consumed := w.consumed + multiset{Ticket(slot, phase.value)})
      else settled.(unpaid := w.unpaid + multiset{slot})
    case Issue(_, gen, now) =>
      if gen.None? then w.(clock := now)
      else
        var slot, es := Slot(phase.sid, phase.tool), Entries(w.stored, phase.sid, phase.tool);
        var entry := Entry(gen.value, now + Lifetime(w.rules, phase.tool));
        w.(
          clock := now,
          stored := WithEntries(w.stored, phase.sid, phase.tool, es + [entry]),
          issued := w.issued + multiset{Ticket(slot, gen.value)},
          issues := w.issues + multiset{slot})
    case Record(_) => w.(history := w.history + {Slot(phase.sid, phase.tool)})
  }

  /** One locked operation of one thread; a move the thread is not ready for does nothing. */
  ghost function Next(w: World, m: Move): World {
    match NextPhase(w, m)
    case None => w
    case Some(next) => Effect(w, m).(threads := w.threads[m.thread := next])
  }

  ghost function Play(w: World, moves: seq<Move>): World {
    if moves == [] then w else Next(Play(w, moves[..|moves| - 1]), moves[|moves| - 1])
  }

  lemma {:induction false} PlayFront(w: World, m: Move, moves: seq<Move>)
    ensures Play(w, [m] + moves) == Play(Next(w, m), moves)
  {
    hide Next;
    if moves == [] {
      assert [m] + moves == [m] && [m][..0] == [];
    } else {
      assert ([m] + moves)[..|moves|] == [m] + moves[..|moves| - 1];
      PlayFront(w, m, moves[..|moves| - 1]);
    }
  }

  /** The clock does not run back, and a token is issued with a value never issued before. */
  ghost predicate Permitted(w: World, m: Move) {
    && (m.Validate? || m.Choose? || m.Issue? ==> w.clock <= m.now)
    && (m.Issue? && m.gen.Some? ==> forall slot :: Ticket(slot, m.gen.value) !in w.issued)
  }

  ghost predicate PermittedMoves(w: World, moves: seq<Move>) {
    moves != [] ==>
      && PermittedMoves(w, moves[..|moves| - 1])
      && Permitted(Play(w, moves[..|moves| - 1]), moves[|moves| - 1])
  }

  // ------------------------------------------------------------ what a move does to the store

  /** The ticket that `m` takes out of the store. */
  ghost function Removes(w: World, m: Move): Option<Ticket> {
    var phase := PhaseOf(w, m.thread);
    if m.Remove? && phase.Chosen? && phase.value in Values(Entries(w.stored, phase.sid, phase.prerequisite)) then
      Some(Ticket(Slot(phase.sid, phase.prerequisite), phase.value))
    else None
  }

  /** The ticket that `m` puts into the store. */
  ghost function Adds(w: World, m: Move): Option<Ticket> {
    var phase := PhaseOf(w, m.thread);
    if m.Issue? && phase.Settled? && m.gen.Some? then Some(Ticket(Slot(phase.sid, phase.tool), m.gen.value)) else None
  }

  lemma NextRules(w: World, m: Move)
    ensures Next(w, m).rules == w.rules
  {
    hide NextPhase, ValidValues, RemoveFirst, Values, Use, ConsumedPrerequisite, Entries, WithEntries, Lifetime, Choice;
  }

  lemma NextAccounts(w: World, m: Move, t: Ticket)
    ensures Next(w, m).consumed[t] == w.consumed[t] + if Removes(w, m) == Some(t) then 1 else 0
    ensures Next(w, m).issued[t] == w.issued[t] + if Adds(w, m) == Some(t) then 1 else 0
  {
    hide ValidValues, RemoveFirst, Values, Accepts, Use, ConsumedPrerequisite, Entries, WithEntries, Lifetime, Choice;
    match m
    case Remove(_) =>
    case Issue(_, _, _) =>
    case _ =>
  }

  lemma NextEntries(w: World, m: Move, slot: Slot)
    ensures var es := Entries(w.stored, slot.sid, slot.tool);
            Entries(Next(w, m).stored, slot.sid, slot.tool) ==
            if Removes(w, m).Some? && Removes(w, m).value.slot == slot then RemoveFirst(es, Removes(w, m).value.value)
            else if Adds(w, m).Some? && Adds(w, m).value.slot == slot then
              es + [Entry(Adds(w, m).value.value, m.now + Lifetime(w.rules, slot.tool))]
            else es
  {
    hide ValidValues, RemoveFirst, Values, Accepts, SpendsOnly, ConsumedPrerequisite, Entries, WithEntries, Lifetime;
    var phase := PhaseOf(w, m.thread);
    if m.Remove? && phase.Chosen? {
      var es := Entries(w.stored, phase.sid, phase.prerequisite);
      EntriesElsewhere(w.stored, phase.sid, phase.prerequisite, RemoveFirst(es, phase.value), slot.sid, slot.tool);
    } else if m.Issue? && phase.Settled? && m.gen.Some? {
      var es := Entries(w.stored, phase.sid, phase.tool);
      var entry := Entry(m.gen.value, m.now + Lifetime(w.rules, phase.tool));
      EntriesElsewhere(w.stored, phase.sid, phase.tool, es + [entry], slot.sid, slot.tool);
    }
  }

  lemma AddOrRemove(w: World, m: Move)
    ensures Removes(w, m).Some? ==> m.Remove?
    ensures Adds(w, m).Some? ==> m.Issue?
  {
  }

  lemma RemovedIsStored(w: World, m: Move)
    requires Removes(w, m).Some?
    ensures var t := Removes(w, m).value; t.value in Values(Entries(w.stored, t.slot.sid, t.slot.tool))
  {
  }

  // ------------------------------------------------------------ no token is consumed twice

  /** How often the store holds the token of `t`. */
  ghost function HeldCount(w: World, t: Ticket): nat {
    multiset(Values(Entries(w.stored, t.slot.sid, t.slot.tool)))[t.value]
  }

  /** The store holds the issued tokens minus the consumed ones, and no token was issued twice. */
  ghost predicate TicketAccount(w: World, t: Ticket) {
    && HeldCount(w, t) + w.consumed[t] == w.issued[t]
    && w.issued[t] <= 1
  }

  lemma {:induction false} CountAfterRemoval(es: seq<Entry>, v: TokenValue, u: TokenValue)
    requires v in Values(es)
    ensures multiset(Values(RemoveFirst(es, v)))[u] == multiset(Values(es))[u] - if u == v then 1 else 0
  {
    RemoveFirstValues(es, v);
    WithoutMultiset(Values(es), v);
  }

  lemma CountAfterAppend(es: seq<Entry>, e: Entry, u: TokenValue)
    ensures multiset(Values(es + [e]))[u] == multiset(Values(es))[u] + if u == e.value then 1 else 0
  {
    assert Values(es + [e]) == Values(es) + [e.value];
  }

  lemma NextHeldCount(w: World, m: Move, t: Ticket)
    ensures HeldCount(Next(w, m), t) ==
            HeldCount(w, t) - (if Removes(w, m) == Some(t) then 1 else 0) + (if Adds(w, m) == Some(t) then 1 else 0)
  {
    NextEntries(w, m, t.slot);
    AddOrRemove(w, m);
    hide Next, RemoveFirst, Entries, Values, Removes, Adds, Lifetime;
    var es := Entries(w.stored, t.slot.sid, t.slot.tool);
    if Removes(w, m).Some? && Removes(w, m).value.slot == t.slot {
      RemovedIsStored(w, m);
      CountAfterRemoval(es, Removes(w, m).value.value, t.value);
    } else if Adds(w, m).Some? && Adds(w, m).value.slot == t.slot {
      CountAfterAppend(es, Entry(Adds(w, m).value.value, m.now + Lifetime(w.rules, t.slot.tool)), t.value);
    }
  }

  lemma NextKeepsTicket(w: World, m: Move, t: Ticket)
    requires TicketAccount(w, t) && Permitted(w, m)
    ensures TicketAccount(Next(w, m), t)
  {
    NextHeldCount(w, m, t);
    NextAccounts(w, m, t);
    hide Next, Removes, HeldCount;
    if Adds(w, m) == Some(t) {
      assert Ticket(t.slot, m.gen.value) !in w.issued;
    }
  }

  /** In every interleaving no token is consumed twice, and each slot of the store holds
      exactly the tokens issued for it minus the tokens consumed. */
  lemma {:induction false} NoTokenIsConsumedTwice(rules: seq<Rule>, clock: Time, moves: seq<Move>, t: Ticket)
    requires PermittedMoves(Begin(rules, clock), moves)
    ensures TicketAccount(Play(Begin(rules, clock), moves), t)
    ensures Play(Begin(rules, clock), moves).consumed[t] <= 1
  {
    if moves != [] {
      NoTokenIsConsumedTwice(rules, clock, moves[..|moves| - 1], t);
      NextKeepsTicket(Play(Begin(rules, clock), moves[..|moves| - 1]), moves[|moves| - 1], t);
    }
  }

  // ------------------------------------------------------------ entries, spends and issues

  ghost predicate SlotAccount(w: World, slot: Slot) {
    && |Entries(w.stored, slot.sid, slot.tool)| + w.spends[slot] == w.issues[slot] + w.unpaid[slot]
    && w.unpaid[slot] <= w.spends[slot]
  }

  lemma NextIssues(w: World, m: Move, slot: Slot)
    ensures Next(w, m).issues[slot] ==
            w.issues[slot] + if Adds(w, m).Some? && Adds(w, m).value.slot == slot then 1 else 0
  {
    hide NextPhase, ValidValues, RemoveFirst, Values, Use, ConsumedPrerequisite, Entries, WithEntries, Lifetime;
    if m.Issue? {
      assert NextPhase(w, m).Some? <==> PhaseOf(w, m.thread).Settled? by {
        IssueNeedsSettled(w, m);
      }
    }
  }

  lemma IssueNeedsSettled(w: World, m: Move)
    requires m.Issue?
    ensures NextPhase(w, m).Some? <==> PhaseOf(w, m.thread).Settled?
  {
  }

  lemma NextSpends(w: World, m: Move, slot: Slot)
    ensures var w' := Next(w, m);
            w'.spends[slot] + w.unpaid[slot] ==
            w.spends[slot] + w'.unpaid[slot]
            + if Removes(w, m).Some? && Removes(w, m).value.slot == slot then 1 else 0
  {
    hide ValidValues, RemoveFirst, Values, Accepts, Use, ConsumedPrerequisite, Entries, WithEntries, Lifetime, Choice;
    match m
    case Choose(_, _) =>
    case Remove(_) =>
    case Issue(_, _, _) =>
    case _ =>
  }

  lemma NextKeepsSlot(w: World, m: Move, slot: Slot)
    requires SlotAccount(w, slot)
    ensures SlotAccount(Next(w, m), slot)
  {
    NextEntries(w, m, slot);
    NextIssues(w, m, slot);
    NextSpends(w, m, slot);
    AddOrRemove(w, m);
    if Removes(w, m).Some? && Removes(w, m).value.slot == slot {
      RemovedIsStored(w, m);
      RemoveFirstLength(Entries(w.stored, slot.sid, slot.tool), Removes(w, m).value.value);
    }
    hide Next, RemoveFirst, Entries, Values, Removes, Adds, Lifetime;
  }

  /** Entries held, expired ones included, plus finished consume steps are the tokens issued
      plus the consume steps that removed nothing. */
  lemma {:induction false} SlotsBalance(rules: seq<Rule>, clock: Time, moves: seq<Move>, slot: Slot)
    ensures SlotAccount(Play(Begin(rules, clock), moves), slot)
  {
    if moves != [] {
      SlotsBalance(rules, clock, moves[..|moves| - 1], slot);
      NextKeepsSlot(Play(Begin(rules, clock), moves[..|moves| - 1]), moves[|moves| - 1], slot);
    }
  }
}
