/** The usage bound under concurrency: kept while calls on a slot do not collide, and from any
    state exactly as long as the risk of its slot stays within the tokens issued. */
module Overlap {
  import opened Domain
  import opened Collections
  import opened RuleTable
  import opened TokenStore
  import opened Lanes
  import opened Interleaving

  /** Validated for a run that can only go ahead on a token of the slot and uses it up. */
  ghost predicate WaitsOn(rules: seq<Rule>, phase: Phase, slot: Slot) {
    phase.Handled? && phase.sid == slot.sid && SpendsOnly(rules, phase.tool, slot.tool)
  }

  ghost predicate HoldsOn(rules: seq<Rule>, phase: Phase, slot: Slot) {
    && phase.Chosen? && phase.sid == slot.sid && phase.prerequisite == slot.tool
    && SpendsOnly(rules, phase.tool, slot.tool)
  }

  ghost function Waiting(rules: seq<Rule>, threads: map<nat, Phase>, slot: Slot): set<nat> {
    set thread | thread in threads && WaitsOn(rules, threads[thread], slot)
  }

  ghost function Holding(rules: seq<Rule>, threads: map<nat, Phase>, slot: Slot): map<nat, TokenValue> {
    map thread | thread in threads && HoldsOn(rules, threads[thread], slot) :: threads[thread].value
  }

  /** What the world looks like from one slot. */
  ghost function LaneOf(w: World, slot: Slot): Lane {
    Lane(
      Entries(w.stored, slot.sid, slot.tool),
      Waiting(w.rules, w.threads, slot),
      Holding(w.rules, w.threads, slot),
      w.uses[slot],
      w.issues[slot])
  }

  /** Successful runs of tools that can only run on a one-time token of the slot, plus its tokens
      live at `t`, stay within the tokens issued for it. */
  ghost predicate SlotBound(w: World, slot: Slot, t: Time) {
    Bound(LaneOf(w, slot), t)
  }

  ghost function SlotRisk(w: World, slot: Slot): nat {
    Risk(LaneOf(w, slot), w.clock)
  }

  /** `m` would begin another run that needs and uses up a token of the slot. */
  ghost predicate Begins(w: World, m: Move, slot: Slot) {
    && m.Validate? && m.sid == slot.sid && SpendsOnly(w.rules, m.tool, slot.tool)
    && PhaseOf(w, m.thread).Idle? && Accepts(w, m.sid, m.tool, m.now)
  }

  /** What `m` does to the lane of the slot. */
  ghost function LaneAfter(w: World, m: Move, slot: Slot): Lane {
    var l, phase := LaneOf(w, slot), PhaseOf(w, m.thread);
    if Begins(w, m, slot) then Start(l, m.thread)
    else if m.Fail? && m.thread in l.waiting then Leave(l, m.thread)
    else if m.Choose? && m.thread in l.waiting then Pick(l, m.thread, m.now)
    else if m.Remove? && m.thread in l.holding then Settle(l, m.thread)
    else if m.Remove? && phase.Chosen? && Slot(phase.sid, phase.prerequisite) == slot then Drop(l, phase.value)
    else if Adds(w, m).Some? && Adds(w, m).value.slot == slot then
      Add(l, Entry(Adds(w, m).value.value, m.now + Lifetime(w.rules, slot.tool)))
    else l
  }

  lemma ThreadUpdate(rules: seq<Rule>, threads: map<nat, Phase>, thread: nat, phase: Phase, slot: Slot)
    ensures Waiting(rules, threads[thread := phase], slot) ==
            if WaitsOn(rules, phase, slot) then Waiting(rules, threads, slot) + {thread}
            else Waiting(rules, threads, slot) - {thread}
    ensures Holding(rules, threads[thread := phase], slot) ==
            if HoldsOn(rules, phase, slot) then Holding(rules, threads, slot)[thread := phase.value]
            else Holding(rules, threads, slot) - {thread}
  {
    hide SpendsOnly;
  }

  lemma NotInvolved(rules: seq<Rule>, threads: map<nat, Phase>, thread: nat, slot: Slot)
    ensures thread in Waiting(rules, threads, slot) <==> thread in threads && WaitsOn(rules, threads[thread], slot)
    ensures thread in Holding(rules, threads, slot) <==> thread in threads && HoldsOn(rules, threads[thread], slot)
    ensures thread in Holding(rules, threads, slot) ==> Holding(rules, threads, slot)[thread] == threads[thread].value
    ensures var waiting := Waiting(rules, threads, slot); thread !in waiting ==> waiting - {thread} == waiting
    ensures var holding := Holding(rules, threads, slot); thread !in holding ==> holding - {thread} == holding
  {
    hide SpendsOnly;
  }

  /** The entries of the lane, also where a removal finds nothing. */
  lemma LaneEntries(w: World, m: Move, slot: Slot)
    ensures LaneOf(Next(w, m), slot).entries == LaneAfter(w, m, slot).entries
  {
    NextEntries(w, m, slot);
    NotInvolved(w.rules, w.threads, m.thread, slot);
    var phase, es := PhaseOf(w, m.thread), Entries(w.stored, slot.sid, slot.tool);
    if m.Remove? && phase.Chosen? && Slot(phase.sid, phase.prerequisite) == slot && phase.value !in Values(es) {
      RemoveFirstAbsent(es, phase.value);
    }
    hide Next, Accepts, SpendsOnly, ValidValues, RemoveFirst, Values, Entries, Lifetime, Waiting, Holding;
  }

  lemma NextThreads(w: World, m: Move)
    ensures Next(w, m).threads ==
            match NextPhase(w, m) case Some(phase) => w.threads[m.thread := phase] case None => w.threads
  {
    hide NextPhase, Effect;
  }

  lemma LaneThreads(w: World, m: Move, slot: Slot)
    ensures LaneOf(Next(w, m), slot).waiting == LaneAfter(w, m, slot).waiting
    ensures LaneOf(Next(w, m), slot).holding == LaneAfter(w, m, slot).holding
  {
    hide Next, Accepts, SpendsOnly, ConsumedPrerequisite, ValidValues, RemoveFirst, Values, Entries, Lifetime,
         Waiting, Holding, Adds;
    NextThreads(w, m);
    NextRules(w, m);
    NotInvolved(w.rules, w.threads, m.thread, slot);
    var phase := PhaseOf(w, m.thread);
    if NextPhase(w, m).Some? {
      ThreadUpdate(w.rules, w.threads, m.thread, NextPhase(w, m).value, slot);
      if WaitsOn(w.rules, phase, slot) {
        SpenderNamesItsToken(w.rules, phase.tool, slot.tool);
      }
      match m
      case Validate(_, _, _, _) =>
      case Fail(_) =>
      case Choose(_, _) =>
      case Remove(_) =>
      case Issue(_, _, _) =>
      case Record(_) =>
    }
  }

  /** A run that needs and uses up a token of the slot finishes its consume step. */
  ghost predicate Finishes(w: World, m: Move, slot: Slot) {
    var phase := PhaseOf(w, m.thread);
    || (m.Choose? && WaitsOn(w.rules, phase, slot) && ValidValues(Entries(w.stored, slot.sid, slot.tool), m.now) == [])
    || (m.Remove? && HoldsOn(w.rules, phase, slot))
  }

  lemma ChooseUses(w: World, m: Move, slot: Slot)
    requires m.Choose?
    ensures Next(w, m).uses[slot] == w.uses[slot] + if Finishes(w, m, slot) then 1 else 0
  {
    var phase := PhaseOf(w, m.thread);
    if WaitsOn(w.rules, phase, slot) {
      SpenderNamesItsToken(w.rules, phase.tool, slot.tool);
    }
    hide FindRules, ConsumedPrerequisite, ValidValues, Entries, SpendsOnly;
  }

  lemma RemoveUses(w: World, m: Move, slot: Slot)
    requires m.Remove?
    ensures Next(w, m).uses[slot] == w.uses[slot] + if Finishes(w, m, slot) then 1 else 0
  {
    hide SpendsOnly, RemoveFirst, Values, Entries, WithEntries;
  }

  lemma NextUses(w: World, m: Move, slot: Slot)
    ensures Next(w, m).uses[slot] == w.uses[slot] + if Finishes(w, m, slot) then 1 else 0
  {
    hide Accepts, Entries, WithEntries, Lifetime, SpendsOnly;
    match m
    case Choose(_, _) => ChooseUses(w, m, slot);
    case Remove(_) => RemoveUses(w, m, slot);
    case _ =>
  }

  lemma LaneCounts(w: World, m: Move, slot: Slot)
    ensures LaneOf(Next(w, m), slot).uses == LaneAfter(w, m, slot).uses
    ensures LaneOf(Next(w, m), slot).issues == LaneAfter(w, m, slot).issues
  {
    NextUses(w, m, slot);
    NextIssues(w, m, slot);
    NotInvolved(w.rules, w.threads, m.thread, slot);
    hide Next, Accepts, SpendsOnly, ValidValues, RemoveFirst, Values, Entries, WithEntries, Lifetime, Waiting, Holding;
    match m
    case Choose(_, _) =>
    case Remove(_) =>
    case Issue(_, _, _) =>
    case _ =>
  }

  lemma NextLane(w: World, m: Move, slot: Slot)
    ensures LaneOf(Next(w, m), slot) == LaneAfter(w, m, slot)
    ensures Next(w, m).rules == w.rules
  {
    LaneEntries(w, m, slot);
    LaneThreads(w, m, slot);
    LaneCounts(w, m, slot);
    hide LaneAfter, Accepts, ValidValues, RemoveFirst, Values, Entries, WithEntries, Lifetime, Waiting, Holding;
  }

  // ------------------------------------------------------------ what every state keeps

  /** The slot's stored tokens are distinct, and all tokens stored or chosen were issued. */
  ghost predicate Sound(w: World, slot: Slot) {
    var l := LaneOf(w, slot);
    && Distinct(Values(l.entries))
    && (forall v :: v in Values(l.entries) ==> Ticket(slot, v) in w.issued)
    && (forall thread :: thread in l.holding ==> Ticket(slot, l.holding[thread]) in w.issued)
  }

  lemma NextIssued(w: World, m: Move, t: Ticket)
    ensures t in Next(w, m).issued <==> t in w.issued || Adds(w, m) == Some(t)
  {
    NextAccounts(w, m, t);
    hide Next, Adds;
  }

  lemma {:induction false} NewestIsStored(es: seq<Entry>, now: Time)
    requires ValidValues(es, now) != []
    ensures ValidValues(es, now)[|ValidValues(es, now)| - 1] in Values(es)
  {
    ValidValuesAreValues(es, now, ValidValues(es, now)[|ValidValues(es, now)| - 1]);
  }

  lemma NextIsSound(w: World, m: Move, slot: Slot)
    requires Sound(w, slot) && Permitted(w, m)
    ensures Sound(Next(w, m), slot)
  {
    hide Next, NextPhase, Begins, ValidValues, RemoveFirst, Values, Distinct, Entries, Waiting, Holding, Lifetime,
         Choice;
    NextLane(w, m, slot);
    var l, l' := LaneOf(w, slot), LaneOf(Next(w, m), slot);
    SoundEntries(w, m, slot);
    forall thread | thread in l'.holding ensures Ticket(slot, l'.holding[thread]) in Next(w, m).issued {
      NextIssued(w, m, Ticket(slot, l'.holding[thread]));
      if m.Choose? && thread == m.thread && m.thread in l.waiting && ValidValues(l.entries, m.now) != [] {
        NewestIsStored(l.entries, m.now);
      }
    }
  }

  lemma SoundEntries(w: World, m: Move, slot: Slot)
    requires Sound(w, slot) && Permitted(w, m)
    ensures var es := LaneOf(Next(w, m), slot).entries;
            Distinct(Values(es)) && forall v :: v in Values(es) ==> Ticket(slot, v) in Next(w, m).issued
  {
    NextEntries(w, m, slot);
    var es := Entries(w.stored, slot.sid, slot.tool);
    hide Next, RemoveFirst, Values, Entries, Lifetime, Waiting, Holding, Removes, Adds, HeldCount;
    forall v | v in Values(es) ensures Ticket(slot, v) in Next(w, m).issued {
      NextIssued(w, m, Ticket(slot, v));
    }
    if Removes(w, m).Some? && Removes(w, m).value.slot == slot {
      RemovedIsGone(es, Removes(w, m).value.value);
    } else if m.Issue? && Adds(w, m).Some? && Adds(w, m).value.slot == slot {
      AddedIsFresh(w, m);
      AppendedValues(es, Entry(Adds(w, m).value.value, m.now + Lifetime(w.rules, slot.tool)));
      NextIssued(w, m, Adds(w, m).value);
    } else {
      AddOrRemove(w, m);
    }
  }

  lemma AddedIsFresh(w: World, m: Move)
    requires Permitted(w, m) && Adds(w, m).Some?
    ensures Adds(w, m).value !in w.issued
  {
  }

  lemma AppendedValues(es: seq<Entry>, e: Entry)
    ensures Values(es + [e]) == Values(es) + [e.value]
    ensures Distinct(Values(es)) && e.value !in Values(es) ==> Distinct(Values(es + [e]))
  {
  }

  // ------------------------------------------------------------ risk

  lemma LaneThreadPhases(w: World, thread: nat, slot: Slot)
    ensures var l, phase := LaneOf(w, slot), PhaseOf(w, thread);
            && (thread in l.waiting ==> phase.Handled? && thread !in l.holding)
            && (thread in l.holding ==> phase.Chosen?)
  {
    NotInvolved(w.rules, w.threads, thread, slot);
    hide Waiting, Holding, Entries, SpendsOnly;
  }

  lemma SoundTokens(w: World, m: Move, slot: Slot)
    requires Sound(w, slot) && Permitted(w, m)
    ensures Distinct(Values(LaneOf(w, slot).entries))
    ensures Adds(w, m).Some? && Adds(w, m).value.slot == slot ==>
              Adds(w, m).value.value !in LaneOf(w, slot).holding.Values
  {
    hide Waiting, Holding, Entries, Distinct, Values, Adds, Permitted;
    if Adds(w, m).Some? {
      AddedIsFresh(w, m);
    }
  }

  lemma LaneAddsNoRisk(w: World, m: Move, slot: Slot, t: Time)
    requires Sound(w, slot) && Permitted(w, m) && !Begins(w, m, slot)
    requires m.Choose? && PhaseOf(w, m.thread).Handled? ==> t == m.now
    ensures var l, l' := LaneOf(w, slot), LaneAfter(w, m, slot); Risk(l', t) + l.issues <= Risk(l, t) + l'.issues
  {
    LaneThreadPhases(w, m.thread, slot);
    SoundTokens(w, m, slot);
    hide Begins, LaneOf, Sound, Permitted, Risk, Values, Lifetime, Distinct, Adds, PhaseOf, Leave, Pick, Settle, Drop,
         Add;
    var l := LaneOf(w, slot);
    if m.Fail? && m.thread in l.waiting {
      LeaveAddsNoRisk(l, m.thread, t);
    } else if m.Choose? && m.thread in l.waiting {
      PickKeepsRisk(l, m.thread, t);
    } else if m.Remove? && m.thread in l.holding {
      SettleAddsNoRisk(l, m.thread, t);
    } else if m.Remove? && PhaseOf(w, m.thread).Chosen? {
      DropAddsNoRisk(l, PhaseOf(w, m.thread).value, t);
    } else if Adds(w, m).Some? && Adds(w, m).value.slot == slot {
      AddKeepsPace(l, Entry(Adds(w, m).value.value, m.now + Lifetime(w.rules, slot.tool)), t);
    }
  }

  lemma LaneIssues(w: World, slot: Slot)
    ensures LaneOf(w, slot).issues == w.issues[slot]
  {
  }

  /** No move but the beginning of another run on the slot brings its risk closer to the tokens
      issued. */
  lemma MovesAddNoRisk(w: World, m: Move, slot: Slot)
    requires Sound(w, slot) && Permitted(w, m) && !Begins(w, m, slot)
    ensures SlotRisk(Next(w, m), slot) + w.issues[slot] <= SlotRisk(w, slot) + Next(w, m).issues[slot]
  {
    ClockOnly(w, m);
    NextLane(w, m, slot);
    LaneIssues(w, slot);
    LaneIssues(Next(w, m), slot);
    hide Next, Begins, Sound, Permitted, LaneOf, LaneAfter, Risk;
    TimeAddsNoRisk(LaneOf(w, slot), w.clock, Next(w, m).clock);
    LaneAddsNoRisk(w, m, slot, Next(w, m).clock);
  }

  lemma ClockOnly(w: World, m: Move)
    requires Permitted(w, m)
    ensures w.clock <= Next(w, m).clock
    ensures m.Choose? && PhaseOf(w, m.thread).Handled? ==> Next(w, m).clock == m.now
    ensures m.Validate? && NextPhase(w, m).Some? ==> Next(w, m).clock == m.now
    ensures m.Remove? ==> Next(w, m).clock == w.clock
  {
    hide Accepts, FindRules, ConsumedPrerequisite, ValidValues, RemoveFirst, Values, Entries, WithEntries, Lifetime,
         Use;
  }

  // ------------------------------------------------------------ continuations without new runs

  /** Permitted moves of which none begins another run on the slot. */
  ghost predicate Continues(w: World, moves: seq<Move>, slot: Slot) {
    moves != [] ==>
      && Continues(w, moves[..|moves| - 1], slot)
      && Permitted(Play(w, moves[..|moves| - 1]), moves[|moves| - 1])
      && !Begins(Play(w, moves[..|moves| - 1]), moves[|moves| - 1], slot)
  }

  lemma {:induction false} ContinuationsAddNoRisk(w: World, moves: seq<Move>, slot: Slot)
    requires Sound(w, slot) && Continues(w, moves, slot)
    ensures Sound(Play(w, moves), slot)
    ensures SlotRisk(Play(w, moves), slot) + w.issues[slot] <= SlotRisk(w, slot) + Play(w, moves).issues[slot]
  {
    hide Next, SlotRisk, Sound, Begins, Permitted;
    if moves != [] {
      ContinuationsAddNoRisk(w, moves[..|moves| - 1], slot);
      NextIsSound(Play(w, moves[..|moves| - 1]), moves[|moves| - 1], slot);
      MovesAddNoRisk(Play(w, moves[..|moves| - 1]), moves[|moves| - 1], slot);
    }
  }

  lemma RiskBoundsSlot(w: World, slot: Slot, t: Time)
    requires Sound(w, slot) && w.clock <= t && SlotRisk(w, slot) <= w.issues[slot]
    ensures SlotBound(w, slot, t)
  {
    hide Risk, Bound, Values, Distinct, Entries, Waiting, Holding;
    TimeAddsNoRisk(LaneOf(w, slot), w.clock, t);
    RiskBounds(LaneOf(w, slot), t);
  }

  /** A move that takes a thread under way closer to using the slot; no time passes, and the risk
      stays exactly what it was. */
  ghost predicate StepsOn(w: World, m: Move, slot: Slot) {
    var w' := Next(w, m);
    var l, l' := LaneOf(w, slot), LaneOf(w', slot);
    && Permitted(w, m) && !Begins(w, m, slot)
    && w'.clock == w.clock && SlotRisk(w', slot) == SlotRisk(w, slot) && l'.issues == l.issues
    && l'.uses + |l'.waiting| + |l'.holding| == l.uses + |l.waiting| + |l.holding|
    && 2 * |l'.waiting| + |l'.holding| < 2 * |l.waiting| + |l.holding|
  }

  lemma WaitingThreadChooses(w: World, slot: Slot, thread: nat)
    requires Sound(w, slot) && thread in LaneOf(w, slot).waiting
    ensures StepsOn(w, Choose(thread, w.clock), slot)
  {
    var l, m := LaneOf(w, slot), Choose(thread, w.clock);
    NextLane(w, m, slot);
    ClockOnly(w, m);
    SoundTokens(w, m, slot);
    LaneThreadPhases(w, thread, slot);
    hide Next, Risk, Values, Distinct, ValidValues, Accepts, SpendsOnly, LaneOf, Sound, Adds;
    PickKeepsRisk(l, thread, w.clock);
    PickSizes(l, thread, w.clock);
  }

  lemma HoldingThreadRemoves(w: World, slot: Slot, thread: nat)
    requires Sound(w, slot) && LaneOf(w, slot).waiting == {} && thread in LaneOf(w, slot).holding
    ensures StepsOn(w, Remove(thread), slot)
  {
    var l, m := LaneOf(w, slot), Remove(thread);
    NextLane(w, m, slot);
    ClockOnly(w, m);
    SoundTokens(w, m, slot);
    hide Next, Risk, Values, Distinct, RemoveFirst, Accepts, SpendsOnly, LaneOf, Sound, Adds, PhaseOf;
    SettleAddsNoRisk(l, thread, w.clock);
    assert |l.holding - {thread}| == |l.holding| - 1;
  }

  /** While threads are under way on the slot, one can step on: all choose first, then remove. */
  lemma OneStepOn(w: World, slot: Slot) returns (m: Move)
    requires Sound(w, slot) && (LaneOf(w, slot).waiting != {} || LaneOf(w, slot).holding != map[])
    ensures StepsOn(w, m, slot)
  {
    hide Sound, StepsOn, Waiting, Holding;
    if LaneOf(w, slot).waiting != {} {
      var thread :| thread in LaneOf(w, slot).waiting;
      WaitingThreadChooses(w, slot, thread);
      m := Choose(thread, w.clock);
    } else {
      var thread :| thread in LaneOf(w, slot).holding;
      HoldingThreadRemoves(w, slot, thread);
      m := Remove(thread);
    }
  }

  lemma PickSizes(l: Lane, thread: nat, now: Time)
    requires thread in l.waiting && thread !in l.holding
    ensures var l' := Pick(l, thread, now);
            && l'.uses + |l'.waiting| + |l'.holding| == l.uses + |l.waiting| + |l.holding|
            && 2 * |l'.waiting| + |l'.holding| < 2 * |l.waiting| + |l.holding|
  {
    hide ValidValues;
    assert |l.waiting - {thread}| == |l.waiting| - 1;
  }

  lemma {:induction false} ContinuesFront(w: World, m: Move, moves: seq<Move>, slot: Slot)
    requires Permitted(w, m) && !Begins(w, m, slot) && Continues(Next(w, m), moves, slot)
    ensures Continues(w, [m] + moves, slot)
  {
    hide Next, Permitted, Begins;
    if moves == [] {
      assert [m] + moves == [m] && [m][..0] == [];
    } else {
      assert ([m] + moves)[..|moves|] == [m] + moves[..|moves| - 1];
      ContinuesFront(w, m, moves[..|moves| - 1], slot);
      PlayFront(w, m, moves[..|moves| - 1]);
    }
  }

  /** The worst continuation: all waiting threads choose, then all remove. It turns every run
      under way into a use and the whole risk into uses and live tokens. */
  lemma {:induction false} WorstContinuation(w: World, slot: Slot) returns (moves: seq<Move>)
    requires Sound(w, slot)
    ensures Continues(w, moves, slot)
    ensures var l, end := LaneOf(w, slot), Play(w, moves);
            var l' := LaneOf(end, slot);
            && end.clock == w.clock && l'.issues == l.issues
            && l'.uses == l.uses + |l.waiting| + |l.holding|
            && l'.uses + |ValidValues(l'.entries, end.clock)| == SlotRisk(w, slot)
    decreases 2 * |LaneOf(w, slot).waiting| + |LaneOf(w, slot).holding|
  {
    hide Next, Sound, Begins, Permitted, Risk, ValidValues, Entries, Waiting, Holding;
    var l := LaneOf(w, slot);
    if l.waiting == {} && l.holding == map[] {
      moves := [];
      QuietRisk(l, w.clock);
    } else {
      var m := OneStepOn(w, slot);
      NextIsSound(w, m, slot);
      var rest := WorstContinuation(Next(w, m), slot);
      PlayFront(w, m, rest);
      ContinuesFront(w, m, rest, slot);
      moves := [m] + rest;
    }
  }

  lemma {:induction false} QuietRisk(l: Lane, t: Time)
    requires l.waiting == {} && l.holding == map[]
    ensures Risk(l, t) == l.uses + |ValidValues(l.entries, t)|
  {
    AllUnclaimed(l.entries, t);
  }

  lemma {:induction false} AllUnclaimed(es: seq<Entry>, t: Time)
    ensures Unclaimed(es, t, {}) == |ValidValues(es, t)|
  {
    if es != [] {
      AllUnclaimed(es[..|es| - 1], t);
    }
  }

  ghost predicate BoundKept(w: World, moves: seq<Move>, slot: Slot, t: Time) {
    Continues(w, moves, slot) && Play(w, moves).clock <= t ==> SlotBound(Play(w, moves), slot, t)
  }

  /** From any state, all continuations that begin no further run on the slot keep the bound at
      all times to come if and only if the risk of the slot is within the tokens issued. */
  lemma BoundIsKeptIffRiskIsCovered(w: World, slot: Slot)
    requires Sound(w, slot)
    ensures (forall moves, t :: BoundKept(w, moves, slot, t)) <==> SlotRisk(w, slot) <= w.issues[slot]
  {
    hide Continues, Play, Sound, SlotRisk, SlotBound;
    if SlotRisk(w, slot) <= w.issues[slot] {
      forall moves, t ensures BoundKept(w, moves, slot, t) {
        if Continues(w, moves, slot) && Play(w, moves).clock <= t {
          ContinuationsAddNoRisk(w, moves, slot);
          RiskBoundsSlot(Play(w, moves), slot, t);
        }
      }
    } else {
      var moves := WorstContinuation(w, slot);
      BrokenBound(Play(w, moves), slot, Play(w, moves).clock, SlotRisk(w, slot));
      assert !BoundKept(w, moves, slot, Play(w, moves).clock);
    }
  }

  lemma {:induction false} BrokenBound(w: World, slot: Slot, t: Time, total: nat)
    requires var l := LaneOf(w, slot); l.uses + |ValidValues(l.entries, t)| == total && l.issues < total
    ensures !SlotBound(w, slot, t)
  {
  }

  // ------------------------------------------------------------ runs that do not collide

  /** `m` begins a run on the slot only when no thread waits to choose a token of it and none has
      chosen its newest live one. */
  ghost predicate Clear(w: World, m: Move, slot: Slot) {
    Begins(w, m, slot) ==>
      var l := LaneOf(w, slot);
      l.waiting == {} && NewestIsFree(l.entries, m.now, l.holding.Values)
  }

  /** `m` begins a run on the slot only when no other is between validation and removal. */
  ghost predicate Exclusive(w: World, m: Move, slot: Slot) {
    Begins(w, m, slot) ==> LaneOf(w, slot).waiting == {} && LaneOf(w, slot).holding == map[]
  }

  lemma {:induction false} SpenderNeedsALiveToken(w: World, sid: SessionID, tool: ToolName, p: ToolName, now: Time)
    requires SpendsOnly(w.rules, tool, p) && Accepts(w, sid, tool, now)
    ensures ValidValues(Entries(w.stored, sid, p), now) != []
  {
    hide ValidValues, Entries, FindRules, Ungated;
    SpenderNamesItsToken(w.rules, tool, p);
    var matched := FindRules(w.rules, tool);
    var i :| && 0 <= i < |matched| && Slot(sid, matched[i].prerequisite) in w.history
             && ValidValues(Entries(w.stored, sid, matched[i].prerequisite), now) != [];
  }

  lemma ExclusiveIsClear(w: World, m: Move, slot: Slot)
    requires Exclusive(w, m, slot)
    ensures Clear(w, m, slot)
  {
    hide Waiting, Holding, Accepts, SpendsOnly;
    if Begins(w, m, slot) {
      SpenderNeedsALiveToken(w, m.sid, m.tool, slot.tool, m.now);
    }
  }

  /** Beginning a run adds one to the risk exactly when it collides: a thread waits, or the newest
      token has been chosen. */
  lemma BeginRisk(w: World, m: Move, slot: Slot)
    requires Begins(w, m, slot) && Permitted(w, m)
    ensures SlotRisk(Next(w, m), slot) == Risk(LaneOf(w, slot), m.now) + if Clear(w, m, slot) then 0 else 1
    ensures Next(w, m).issues[slot] == w.issues[slot]
  {
    NextLane(w, m, slot);
    ClockOnly(w, m);
    NotInvolved(w.rules, w.threads, m.thread, slot);
    hide Next, Risk, Entries, Waiting, Holding, Accepts, SpendsOnly, NewestIsFree;
    StartRisk(LaneOf(w, slot), m.thread, m.now);
  }

  /** After a run begins, all continuations that begin no further one keep the bound if and only
      if there was slack - tokens expired or used up by others - or the run does not collide. */
  lemma BeginKeepsTheBoundIff(w: World, m: Move, slot: Slot)
    requires Sound(w, slot) && Begins(w, m, slot) && Permitted(w, m)
    ensures var risk := Risk(LaneOf(w, slot), m.now);
            (forall moves, t :: BoundKept(Next(w, m), moves, slot, t)) <==>
            risk < w.issues[slot] || (risk == w.issues[slot] && Clear(w, m, slot))
  {
    hide Next, Sound, Begins, Permitted, LaneOf, Clear, BoundKept, Risk;
    NextIsSound(w, m, slot);
    BeginRisk(w, m, slot);
    BoundIsKeptIffRiskIsCovered(Next(w, m), slot);
  }

  ghost predicate ClearMoves(w: World, moves: seq<Move>, slot: Slot) {
    moves != [] ==>
      && ClearMoves(w, moves[..|moves| - 1], slot)
      && Permitted(Play(w, moves[..|moves| - 1]), moves[|moves| - 1])
      && Clear(Play(w, moves[..|moves| - 1]), moves[|moves| - 1], slot)
  }

  ghost predicate ExclusiveMoves(w: World, moves: seq<Move>, slot: Slot) {
    moves != [] ==>
      && ExclusiveMoves(w, moves[..|moves| - 1], slot)
      && Permitted(Play(w, moves[..|moves| - 1]), moves[|moves| - 1])
      && Exclusive(Play(w, moves[..|moves| - 1]), moves[|moves| - 1], slot)
  }

  lemma {:induction false} ReachableIsSound(rules: seq<Rule>, clock: Time, moves: seq<Move>, slot: Slot)
    requires PermittedMoves(Begin(rules, clock), moves)
    ensures Sound(Play(Begin(rules, clock), moves), slot)
  {
    if moves != [] {
      ReachableIsSound(rules, clock, moves[..|moves| - 1], slot);
      NextIsSound(Play(Begin(rules, clock), moves[..|moves| - 1]), moves[|moves| - 1], slot);
    }
  }

  lemma {:induction false} ClearMovesCoverRisk(rules: seq<Rule>, clock: Time, moves: seq<Move>, slot: Slot)
    requires ClearMoves(Begin(rules, clock), moves, slot)
    ensures var w := Play(Begin(rules, clock), moves); Sound(w, slot) && SlotRisk(w, slot) <= w.issues[slot]
  {
    if moves == [] {
      QuietRisk(LaneOf(Begin(rules, clock), slot), clock);
    } else {
      hide Next, Sound, Risk, Permitted;
      var before, last := Play(Begin(rules, clock), moves[..|moves| - 1]), moves[|moves| - 1];
      ClearMovesCoverRisk(rules, clock, moves[..|moves| - 1], slot);
      NextIsSound(before, last, slot);
      if Begins(before, last, slot) {
        BeginRisk(before, last, slot);
        BeginsLater(before, last, slot);
        TimeAddsNoRisk(LaneOf(before, slot), before.clock, last.now);
      } else {
        MovesAddNoRisk(before, last, slot);
      }
    }
  }

  lemma BeginsLater(w: World, m: Move, slot: Slot)
    requires Begins(w, m, slot) && Permitted(w, m)
    ensures w.clock <= m.now
  {
  }

  /** In every interleaving in which runs on the slot begin only when no thread waits for its
      tokens and the newest is not chosen yet, the bound of sequential runs holds at all times. */
  lemma {:induction false} BoundHoldsWithoutCollisions(
    rules: seq<Rule>, clock: Time, moves: seq<Move>, slot: Slot, t: Time)
    requires ClearMoves(Begin(rules, clock), moves, slot)
    requires Play(Begin(rules, clock), moves).clock <= t
    ensures SlotBound(Play(Begin(rules, clock), moves), slot, t)
  {
    hide Play, Sound, SlotRisk, SlotBound, ClearMoves;
    ClearMovesCoverRisk(rules, clock, moves, slot);
    RiskBoundsSlot(Play(Begin(rules, clock), moves), slot, t);
  }

  lemma {:induction false} ExclusiveMovesAreClear(w: World, moves: seq<Move>, slot: Slot)
    requires ExclusiveMoves(w, moves, slot)
    ensures ClearMoves(w, moves, slot)
  {
    if moves != [] {
      hide Play, Permitted, Exclusive, Clear;
      ExclusiveMovesAreClear(w, moves[..|moves| - 1], slot);
      ExclusiveIsClear(Play(w, moves[..|moves| - 1]), moves[|moves| - 1], slot);
    }
  }

  /** In particular when no two runs are between validation and removal on the slot at once. */
  lemma {:induction false} BoundHoldsWithoutOverlap(
    rules: seq<Rule>, clock: Time, moves: seq<Move>, slot: Slot, t: Time)
    requires ExclusiveMoves(Begin(rules, clock), moves, slot)
    requires Play(Begin(rules, clock), moves).clock <= t
    ensures SlotBound(Play(Begin(rules, clock), moves), slot, t)
  {
    ExclusiveMovesAreClear(Begin(rules, clock), moves, slot);
    BoundHoldsWithoutCollisions(rules, clock, moves, slot, t);
  }

  // ------------------------------------------------------------ two uses of one token

  lemma {:induction false} PlayStep(w: World, moves: seq<Move>, m: Move)
    ensures Play(w, moves + [m]) == Next(Play(w, moves), m)
    ensures PermittedMoves(w, moves) && Permitted(Play(w, moves), m) ==> PermittedMoves(w, moves + [m])
  {
    assert (moves + [m])[..|moves + [m]| - 1] == moves;
  }

  lemma {:induction false} PlayOn(w: World, moves: seq<Move>, more: seq<Move>, slot: Slot)
    requires PermittedMoves(w, moves) && Continues(Play(w, moves), more, slot)
    ensures Play(w, moves + more) == Play(Play(w, moves), more) && PermittedMoves(w, moves + more)
  {
    hide Next, Permitted, Begins;
    if more == [] {
      assert moves + more == moves;
    } else {
      assert (moves + more)[..|moves + more| - 1] == moves + more[..|more| - 1];
      PlayOn(w, moves, more[..|more| - 1], slot);
    }
  }

  /** The rule list of the example: `tool` runs on a one-time token of `p`. */
  function OneTimeRule(tool: ToolName, p: ToolName): seq<Rule> {
    [Rule(tool, p, 0, "", true)]
  }

  lemma {:induction false} OneTimeRuleSpends(tool: ToolName, p: ToolName)
    requires p != "" && p != tool
    ensures SpendsOnly(OneTimeRule(tool, p), tool, p) && !SpendsOnly(OneTimeRule(tool, p), p, p)
    ensures Ungated(OneTimeRule(tool, p), p) && ConsumedPrerequisite(OneTimeRule(tool, p), p) == None
    ensures FindRules(OneTimeRule(tool, p), tool) == OneTimeRule(tool, p)
  {
    FindRulesSingle(OneTimeRule(tool, p)[0], tool);
    FindRulesSingle(OneTimeRule(tool, p)[0], p);
    assert IsFirst(OneTimeRule(tool, p), 0, tool);
    assert OneTimeRule(tool, p)[0] in OneTimeRule(tool, p);
  }

  lemma ThreadValidates(w: World, thread: nat, sid: SessionID, tool: ToolName, now: Time)
    requires PhaseOf(w, thread).Idle? && Accepts(w, sid, tool, now)
    ensures Next(w, Validate(thread, sid, tool, now)) ==
            w.(threads := w.threads[thread := Handled(sid, tool)], clock := now)
  {
    hide Accepts;
  }

  lemma ThreadUsesNothingUp(w: World, thread: nat, now: Time)
    requires PhaseOf(w, thread).Handled? && ConsumedPrerequisite(w.rules, PhaseOf(w, thread).tool).None?
    ensures Next(w, Choose(thread, now)) ==
            w.(threads := w.threads[thread := Settled(PhaseOf(w, thread).sid, PhaseOf(w, thread).tool)], clock := now)
  {
    hide ConsumedPrerequisite, Choice;
  }

  lemma ThreadIssues(w: World, thread: nat, v: TokenValue, now: Time)
    requires PhaseOf(w, thread).Settled?
    ensures var sid, tool, w' := PhaseOf(w, thread).sid, PhaseOf(w, thread).tool, Next(w, Issue(thread, Some(v), now));
            && w'.rules == w.rules && w'.history == w.history && w'.clock == now && w'.uses == w.uses
            && w'.threads == w.threads[thread := Issued(sid, tool)]
            && w'.issues == w.issues + multiset{Slot(sid, tool)}
            && Entries(w'.stored, sid, tool) == Entries(w.stored, sid, tool) + [Entry(v, now + Lifetime(w.rules, tool))]
  {
    hide Entries, WithEntries, Lifetime;
    var sid, tool := PhaseOf(w, thread).sid, PhaseOf(w, thread).tool;
    var es := Entries(w.stored, sid, tool) + [Entry(v, now + Lifetime(w.rules, tool))];
    EntriesElsewhere(w.stored, sid, tool, es, sid, tool);
  }

  lemma ThreadRecords(w: World, thread: nat)
    requires PhaseOf(w, thread).Issued?
    ensures var sid, tool := PhaseOf(w, thread).sid, PhaseOf(w, thread).tool;
            Next(w, Record(thread)) ==
            w.(threads := w.threads[thread := Idle], history := w.history + {Slot(sid, tool)})
  {
  }

  /** The states thread 0 goes through when it runs `p`. */
  lemma FirstRun(w: World, sid: SessionID, p: ToolName, tool: ToolName, v: TokenValue)
    requires p != "" && p != tool && w == Begin(OneTimeRule(tool, p), 0)
    ensures var w1 := Next(w, Validate(0, sid, p, 0));
            var w2 := Next(w1, Choose(0, 0));
            && w1 == w.(threads := map[0 := Handled(sid, p)])
            && w2 == w.(threads := map[0 := Settled(sid, p)])
  {
    hide SpendsOnly, FindRules, Ungated, OneTimeRule, ConsumedPrerequisite, Next, NextPhase, Lifetime;
    OneTimeRuleSpends(tool, p);
    assert Accepts(w, sid, p, 0);
    hide Accepts;
    ThreadValidates(w, 0, sid, p, 0);
    ThreadUsesNothingUp(Next(w, Validate(0, sid, p, 0)), 0, 0);
  }

  /** Thread 0 runs `p`, whose token is then live and recorded. */
  lemma FirstToken(sid: SessionID, p: ToolName, tool: ToolName, v: TokenValue) returns (moves: seq<Move>)
    requires p != "" && p != tool
    ensures PermittedMoves(Begin(OneTimeRule(tool, p), 0), moves)
    ensures var w, slot := Play(Begin(OneTimeRule(tool, p), 0), moves), Slot(sid, p);
            && w.rules == OneTimeRule(tool, p) && w.clock == 0 && w.threads == map[0 := Idle]
            && slot in w.history && w.uses[slot] == 0 && w.issues[slot] == 1
            && Entries(w.stored, sid, p) == [Entry(v, Lifetime(OneTimeRule(tool, p), p))]
  {
    var w := Begin(OneTimeRule(tool, p), 0);
    hide Next, OneTimeRule, Lifetime, Permitted, Play, PermittedMoves;
    var validate, choose, issue, record := Validate(0, sid, p, 0), Choose(0, 0), Issue(0, Some(v), 0), Record(0);
    FirstRun(w, sid, p, tool, v);
    var w1 := Next(w, validate);
    var w2 := Next(w1, choose);
    NothingIssuedYet(w, validate);
    NothingIssuedYet(w1, choose);
    NothingIssuedYet(w2, issue);
    ThreadIssues(w2, 0, v, 0);
    var w3 := Next(w2, issue);
    RecordIsPermitted(w3, 0);
    ThreadRecords(w3, 0);
    FourMoves(w, validate, choose, issue, record);
    moves := [validate, choose, issue, record];
  }

  lemma NothingIssuedYet(w: World, m: Move)
    requires w.issued == multiset{} && (m.Validate? || m.Choose? || m.Issue?) && w.clock <= m.now
    ensures Permitted(w, m)
  {
  }

  lemma RecordIsPermitted(w: World, thread: nat)
    ensures Permitted(w, Record(thread))
  {
  }

  lemma {:induction false} FourMoves(w: World, m0: Move, m1: Move, m2: Move, m3: Move)
    requires Permitted(w, m0) && Permitted(Next(w, m0), m1) && Permitted(Next(Next(w, m0), m1), m2)
    requires Permitted(Next(Next(Next(w, m0), m1), m2), m3)
    ensures Play(w, [m0, m1, m2, m3]) == Next(Next(Next(Next(w, m0), m1), m2), m3)
    ensures PermittedMoves(w, [m0, m1, m2, m3])
  {
    hide Next, Permitted;
    PlayStep(w, [], m0);
    PlayStep(w, [m0], m1);
    PlayStep(w, [m0, m1], m2);
    PlayStep(w, [m0, m1, m2], m3);
    assert [] + [m0] == [m0] && [m0] + [m1] == [m0, m1];
    assert [m0, m1] + [m2] == [m0, m1, m2] && [m0, m1, m2] + [m3] == [m0, m1, m2, m3];
  }

  lemma IdleThreadBegins(w: World, thread: nat, sid: SessionID, p: ToolName, tool: ToolName, v: TokenValue)
    requires sid != "" && p != "" && p != tool && w.rules == OneTimeRule(tool, p) && w.clock == 0
    requires PhaseOf(w, thread).Idle? && Slot(sid, p) in w.history
    requires Entries(w.stored, sid, p) == [Entry(v, Lifetime(OneTimeRule(tool, p), p))]
    ensures var m := Validate(thread, sid, tool, 0);
            && Begins(w, m, Slot(sid, p)) && Permitted(w, m)
            && Next(w, m) == w.(threads := w.threads[thread := Handled(sid, tool)])
  {
    OneTimeRuleSpends(tool, p);
    OneEntry(Entry(v, Lifetime(OneTimeRule(tool, p), p)), 0);
    assert OneTimeRule(tool, p)[0].prerequisite == p && Lifetime(OneTimeRule(tool, p), p) > 0;
    hide SpendsOnly, ValidValues, Entries, Lifetime, FindRules, Ungated, OneTimeRule, Next;
    assert Accepts(w, sid, tool, 0);
    hide Accepts;
    ThreadValidates(w, thread, sid, tool, 0);
  }

  lemma {:induction false} OneEntry(e: Entry, now: Time)
    ensures ValidValues([e], now) == if now < e.expires then [e.value] else []
    ensures Unclaimed([e], now, {}) == if now < e.expires then 1 else 0
  {
    assert [e][..0] == [];
  }

  /** Two threads validate on one live token: nothing is chosen yet, and the risk is two. */
  lemma TwoWaitingRisk(l: Lane, e: Entry, t: Time)
    requires l.entries == [e] && t < e.expires && l.waiting == {1, 2} && l.holding == map[] && l.uses == 0
    ensures Risk(l, t) == 2
  {
    OneEntry(e, t);
    assert l.holding.Values == {};
  }

  /** Overlapping runs can break the bound: one token issued, two uses. */
  lemma OneTokenTwoUses(sid: SessionID, p: ToolName, tool: ToolName, v: TokenValue) returns (moves: seq<Move>)
    requires sid != "" && p != "" && p != tool
    ensures PermittedMoves(Begin(OneTimeRule(tool, p), 0), moves)
    ensures var w, slot := Play(Begin(OneTimeRule(tool, p), 0), moves), Slot(sid, p);
            w.issues[slot] == 1 && w.uses[slot] == 2 && !SlotBound(w, slot, w.clock)
  {
    var start, slot := Begin(OneTimeRule(tool, p), 0), Slot(sid, p);
    var first := FirstToken(sid, p, tool, v);
    var w := Play(start, first);
    IdleThreadBegins(w, 1, sid, p, tool, v);
    var w1 := Next(w, Validate(1, sid, tool, 0));
    IdleThreadBegins(w1, 2, sid, p, tool, v);
    var w2 := Next(w1, Validate(2, sid, tool, 0));
    TwoThreadsWait(w2, sid, p, tool);
    hide Next, Begins, Permitted, OneTimeRule, Lifetime, Waiting, Holding, Risk, Bound;
    PlayStep(start, first, Validate(1, sid, tool, 0));
    PlayStep(start, first + [Validate(1, sid, tool, 0)], Validate(2, sid, tool, 0));
    var six := first + [Validate(1, sid, tool, 0)] + [Validate(2, sid, tool, 0)];
    ReachableIsSound(OneTimeRule(tool, p), 0, six, slot);
    var rest := WorstContinuation(w2, slot);
    PlayOn(start, six, rest, slot);
    moves := six + rest;
    BrokenBound(Play(start, moves), slot, 0, 2);
  }

  lemma TwoThreadsWait(w: World, sid: SessionID, p: ToolName, tool: ToolName)
    requires p != "" && p != tool && w.rules == OneTimeRule(tool, p) && w.clock == 0 && w.uses[Slot(sid, p)] == 0
    requires w.threads == map[0 := Idle, 1 := Handled(sid, tool), 2 := Handled(sid, tool)]
    requires exists v :: Entries(w.stored, sid, p) == [Entry(v, Lifetime(OneTimeRule(tool, p), p))]
    ensures var l := LaneOf(w, Slot(sid, p)); l.waiting == {1, 2} && l.holding == map[]
    ensures SlotRisk(w, Slot(sid, p)) == 2
  {
    OneTimeRuleSpends(tool, p);
    hide SpendsOnly, Risk, Entries, Lifetime, OneTimeRule;
    var v :| Entries(w.stored, sid, p) == [Entry(v, Lifetime(OneTimeRule(tool, p), p))];
    var l := LaneOf(w, Slot(sid, p));
    assert l.waiting == {1, 2} && l.holding == map[];
    TwoWaitingRisk(l, Entry(v, Lifetime(OneTimeRule(tool, p), p)), 0);
  }
}
