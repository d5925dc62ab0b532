/** The interleaved model agrees with the sequential one: a thread that makes its moves alone leaves
    the tokens and recorded calls that the wrapped call leaves. */
module Serial {
  import opened Domain
  import opened RuleTable
  import opened TokenStore
  import opened Machine
  import opened Ledgers
  import opened CallRuns
  import opened Ancestry
  import I = Interleaving

  /** Same rules, same stored tokens, and the same tools recorded in each session. */
  ghost predicate Mirrors(w: I.World, c: Core) {
    && w.rules == c.rules && w.stored == c.stored
    && forall sid, tool :: I.Slot(sid, tool) in w.history <==> tool in History(c, sid)
  }

  /** The moves of a wrapped call that is accepted at `at`, if it is. */
  function CallMoves(k: Call, thread: nat, at: Time): seq<I.Move> {
    [I.Validate(thread, k.sid, k.tool, at)] +
    if k.handlerSucceeds then
      [I.Choose(thread, k.consumeAt(0)), I.Remove(thread), I.Issue(thread, k.gen, k.issueAt(0)), I.Record(thread)]
    else [I.Fail(thread)]
  }

  /** The accounts of a slot move as the counts of sequential runs do. */
  ghost predicate Counted(w: I.World, w': I.World, c: Core, k: Call, slot: I.Slot) {
    var done := WrappedCall(c, k).verdict.Succeeded? && k.sid == slot.sid;
    && w'.uses[slot] == w.uses[slot] + (if done && SpendsOnly(c.rules, k.tool, slot.tool) then 1 else 0)
    && w'.issues[slot] == w.issues[slot] + (if done && k.tool == slot.tool && k.gen.Some? then 1 else 0)
  }

  // ------------------------------------------------------------ acceptance

  lemma CreatingMirrors(w: I.World, c: Core, sid: SessionID, now: Clock)
    requires Mirrors(w, c)
    ensures Mirrors(w, CreateSession(c, sid, now).core) && sid in CreateSession(c, sid, now).core.sessions
  {
    var d := CreateSession(c, sid, now).core;
    forall s ensures History(d, s) == History(c, s) {
    }
  }

  /** A call that is accepted while time passes is accepted by the thread at one of its readings; a
      rejected one is rejected at its last. */
  lemma AcceptedAtAReading(w: I.World, c: Core, sid: SessionID, tool: ToolName, now: Clock) returns (i: nat)
    requires Mirrors(w, c) && sid in c.sessions
    requires forall a: nat, b: nat :: a <= b ==> now(a) <= now(b)
    ensures I.Accepts(w, sid, tool, now(i)) <==> Allowed(c, sid, tool, now)
  {
    hide ValidValues, Entries, Ungated, FindRules;
    var matched := FindRules(c.rules, tool);
    i := |matched| + 1;
    if Ungated(c.rules, tool) || sid == "" {
    } else if Allowed(c, sid, tool, now) {
      var m :| 0 <= m < |matched| && Satisfied(c, sid, matched[m], now(m + 1));
      assert I.Slot(sid, matched[m].prerequisite) in w.history;
      i := m + 1;
    } else {
      forall m | 0 <= m < |matched| && I.Slot(sid, matched[m].prerequisite) in w.history
        ensures ValidValues(Entries(w.stored, sid, matched[m].prerequisite), now(i)) == []
      {
        assert !Satisfied(c, sid, matched[m], now(m + 1));
        ValidityFades(Entries(c.stored, sid, matched[m].prerequisite), now(m + 1), now(i));
      }
    }
  }

  // ------------------------------------------------------------ the moves after acceptance

  lemma IdleDoesNothing(w: I.World, m: I.Move)
    requires I.PhaseOf(w, m.thread).Idle?
    requires m.Validate? ==> !I.Accepts(w, m.sid, m.tool, m.now)
    ensures I.Next(w, m) == w
  {
    hide I.Accepts, I.Effect;
  }

  lemma {:induction false} ChoosesNothing(w: I.World, thread: nat, sid: SessionID, tool: ToolName, now: Time)
    requires I.PhaseOf(w, thread) == I.Handled(sid, tool)
    requires var needed := ConsumedPrerequisite(w.rules, tool);
             needed.Some? ==> ValidValues(Entries(w.stored, sid, needed.value), now) == []
    ensures var w' := I.Next(I.Next(w, I.Choose(thread, now)), I.Remove(thread));
            && w'.rules == w.rules && w'.history == w.history && w'.issues == w.issues && w'.stored == w.stored
            && I.PhaseOf(w', thread) == I.Settled(sid, tool)
  {
    hide Entries, ConsumedPrerequisite, I.Use, ValidValues;
  }

  lemma ChoosesAToken(w: I.World, thread: nat, sid: SessionID, tool: ToolName, p: ToolName, v: TokenValue, now: Time)
    requires I.PhaseOf(w, thread) == I.Handled(sid, tool) && ConsumedPrerequisite(w.rules, tool) == Some(p)
    requires I.Choice(w, sid, p, now) == Some(v)
    ensures I.Next(w, I.Choose(thread, now)) ==
            w.(threads := w.threads[thread := I.Chosen(sid, tool, p, v)], clock := now)
  {
    hide ConsumedPrerequisite, I.Choice;
  }

  lemma {:induction false} RemovesIt(
    w: I.World, thread: nat, sid: SessionID, tool: ToolName, p: ToolName, v: TokenValue)
    requires I.PhaseOf(w, thread) == I.Chosen(sid, tool, p, v) && v in Values(Entries(w.stored, sid, p))
    ensures var w' := I.Next(w, I.Remove(thread));
            && w'.rules == w.rules && w'.history == w.history && w'.issues == w.issues
            && w'.stored == WithEntries(w.stored, sid, p, RemoveFirst(Entries(w.stored, sid, p), v))
            && I.PhaseOf(w', thread) == I.Settled(sid, tool)
  {
    hide Entries, WithEntries, RemoveFirst, I.Use, Values;
  }

  /** Choosing and removing leave the tokens of the consume step. */
  lemma ConsumesAlone(w: I.World, c: Core, thread: nat, sid: SessionID, tool: ToolName, now: Clock)
    requires w.rules == c.rules && w.stored == c.stored && I.PhaseOf(w, thread) == I.Handled(sid, tool)
    ensures var w' := I.Next(I.Next(w, I.Choose(thread, now(0))), I.Remove(thread));
            && w'.rules == w.rules && w'.history == w.history && w'.issues == w.issues
            && w'.stored == ConsumePrerequisiteToken(c, sid, tool, now).core.stored
            && I.PhaseOf(w', thread) == I.Settled(sid, tool)
  {
    hide Entries, WithEntries, ConsumedPrerequisite, RemoveFirst, Values, ValidValues, I.Next;
    var needed := ConsumedPrerequisite(c.rules, tool);
    if needed.None? || ValidValues(Entries(c.stored, sid, needed.value), now(0)) == [] {
      ChoosesNothing(w, thread, sid, tool, now(0));
    } else {
      var p, es := needed.value, Entries(c.stored, sid, needed.value);
      var v := ValidValues(es, now(0))[|ValidValues(es, now(0))| - 1];
      ValidValuesAreValues(es, now(0), v);
      ChoosesAToken(w, thread, sid, tool, p, v, now(0));
      RemovesIt(I.Next(w, I.Choose(thread, now(0))), thread, sid, tool, p, v);
    }
  }

  lemma ChoosingCounts(w: I.World, thread: nat, sid: SessionID, tool: ToolName, now: Time, slot: I.Slot)
    requires I.PhaseOf(w, thread) == I.Handled(sid, tool)
    requires sid == slot.sid && SpendsOnly(w.rules, tool, slot.tool) ==>
               ConsumedPrerequisite(w.rules, tool) == Some(slot.tool)
    ensures var w' := I.Next(w, I.Choose(thread, now));
            var phase := I.PhaseOf(w', thread);
            var spends := sid == slot.sid && SpendsOnly(w.rules, tool, slot.tool);
            && w'.rules == w.rules
            && (phase == I.Settled(sid, tool)
                || (phase.Chosen? && phase.sid == sid && phase.tool == tool
                    && (spends ==> phase.prerequisite == slot.tool)))
            && w'.uses[slot] == w.uses[slot] + if spends && phase.Settled? then 1 else 0
  {
    hide ConsumedPrerequisite, I.Choice, SpendsOnly;
  }

  lemma RemovingCounts(w: I.World, thread: nat, slot: I.Slot)
    requires I.PhaseOf(w, thread).Settled? || I.PhaseOf(w, thread).Chosen?
    ensures var phase := I.PhaseOf(w, thread);
            I.Next(w, I.Remove(thread)).uses[slot] ==
            w.uses[slot] + if && phase.Chosen? && phase.sid == slot.sid && phase.prerequisite == slot.tool
                              && SpendsOnly(w.rules, phase.tool, slot.tool) then 1 else 0
  {
    hide Entries, WithEntries, RemoveFirst, Values, SpendsOnly;
  }

  lemma CountsAlone(w: I.World, thread: nat, sid: SessionID, tool: ToolName, now: Time, slot: I.Slot)
    requires I.PhaseOf(w, thread) == I.Handled(sid, tool)
    ensures var w' := I.Next(I.Next(w, I.Choose(thread, now)), I.Remove(thread));
            w'.uses[slot] ==
            w.uses[slot] + if sid == slot.sid && SpendsOnly(w.rules, tool, slot.tool) then 1 else 0
  {
    hide I.Next, I.PhaseOf, SpendsOnly, ConsumedPrerequisite, Ungated, FindRules;
    if SpendsOnly(w.rules, tool, slot.tool) {
      SpenderNamesItsToken(w.rules, tool, slot.tool);
    }
    ChoosingCounts(w, thread, sid, tool, now, slot);
    RemovingCounts(I.Next(w, I.Choose(thread, now)), thread, slot);
  }

  lemma IssuesAlone(
    w: I.World, c: Core, thread: nat, sid: SessionID, tool: ToolName, gen: Option<TokenValue>, now: Clock)
    requires w.rules == c.rules && w.stored == c.stored && I.PhaseOf(w, thread) == I.Settled(sid, tool)
    ensures var w' := I.Next(w, I.Issue(thread, gen, now(0)));
            && w'.rules == w.rules && w'.history == w.history && w'.uses == w.uses
            && w'.issues == w.issues + (if gen.Some? then multiset{I.Slot(sid, tool)} else multiset{})
            && w'.stored == IssueToken(c, sid, tool, gen, now).core.stored
            && I.PhaseOf(w', thread) == I.Issued(sid, tool)
  {
    hide Entries, WithEntries, Lifetime, AddToken;
  }

  lemma RecordsAlone(w: I.World, thread: nat, sid: SessionID, tool: ToolName)
    requires I.PhaseOf(w, thread) == I.Issued(sid, tool)
    ensures var w' := I.Next(w, I.Record(thread));
            && w'.rules == w.rules && w'.stored == w.stored && w'.uses == w.uses && w'.issues == w.issues
            && w'.history == w.history + {I.Slot(sid, tool)} && I.PhaseOf(w', thread).Idle?
  {
  }

  lemma WrappedCallStores(c: Core, k: Call)
    ensures var o, created := WrappedCall(c, k), CreateSession(c, k.sid, k.createAt).core;
            var consumed := ConsumePrerequisiteToken(created, k.sid, k.tool, k.consumeAt).core;
            && o.core.rules == c.rules
            && (o.verdict.Succeeded? <==> k.handlerSucceeds && Allowed(created, k.sid, k.tool, k.validateAt))
            && (!o.verdict.Succeeded? ==> o.core == created)
            && (o.verdict.Succeeded? ==>
                  o.core.stored == IssueToken(consumed, k.sid, k.tool, k.gen, k.issueAt).core.stored)
            && consumed.rules == c.rules
            && forall s :: History(o.core, s) ==
                           History(c, s) + if o.verdict.Succeeded? && s == k.sid then [k.tool] else []
  {
    var l := Ledger(c, [], 0, {});
    OneMoreCall(l, k);
    CallBookkeeping(l, k);
    ConsumeKeepsRules(CreateSession(c, k.sid, k.createAt).core, k.sid, k.tool, k.consumeAt);
    CreateKeepsRules(c, k.sid, k.createAt);
    forall s {
      CallHistory(l, k, s);
    }
    hide AdvanceCall, History, CreateSession, ConsumePrerequisiteToken, IssueToken, Allowed, Rejection;
  }

  lemma CreateKeepsRules(c: Core, sid: SessionID, now: Clock)
    ensures CreateSession(c, sid, now).core.rules == c.rules
  {
  }

  lemma {:induction false} RejectedAlone(w: I.World, k: Call, thread: nat, at: Time)
    requires I.PhaseOf(w, thread).Idle? && !I.Accepts(w, k.sid, k.tool, at)
    ensures I.Play(w, CallMoves(k, thread, at)) == w
  {
    hide I.Next, I.Accepts;
    NothingMoves(w, thread, CallMoves(k, thread, at));
  }

  lemma {:induction false} NothingMoves(w: I.World, thread: nat, moves: seq<I.Move>)
    requires I.PhaseOf(w, thread).Idle?
    requires forall m :: m in moves ==> m.thread == thread && (m.Validate? ==> !I.Accepts(w, m.sid, m.tool, m.now))
    ensures I.Play(w, moves) == w
  {
    if moves != [] {
      hide I.Next, I.Accepts;
      NothingMoves(w, thread, moves[..|moves| - 1]);
      IdleDoesNothing(w, moves[|moves| - 1]);
    }
  }

  lemma ValidatesAlone(w: I.World, thread: nat, sid: SessionID, tool: ToolName, at: Time)
    requires I.PhaseOf(w, thread).Idle? && I.Accepts(w, sid, tool, at)
    ensures I.Next(w, I.Validate(thread, sid, tool, at)) ==
            w.(threads := w.threads[thread := I.Handled(sid, tool)], clock := at)
  {
    hide I.Accepts;
  }

  lemma {:induction false} FailedAlone(w: I.World, k: Call, thread: nat, at: Time)
    requires I.PhaseOf(w, thread).Idle? && I.Accepts(w, k.sid, k.tool, at) && !k.handlerSucceeds
    ensures var w' := I.Play(w, CallMoves(k, thread, at));
            w' == w.(threads := w'.threads, clock := at) && I.PhaseOf(w', thread).Idle?
  {
    ValidatesAlone(w, thread, k.sid, k.tool, at);
    var w1 := I.Next(w, I.Validate(thread, k.sid, k.tool, at));
    assert I.Next(w1, I.Fail(thread)) == w1.(threads := w1.threads[thread := I.Idle]);
    hide I.Next, I.Accepts;
    I.PlayFront(w, I.Validate(thread, k.sid, k.tool, at), [I.Fail(thread)]);
    I.PlayFront(w1, I.Fail(thread), []);
    assert [I.Fail(thread)] + [] == [I.Fail(thread)];
  }

  lemma {:induction false} SucceededAlone(w: I.World, c: Core, k: Call, thread: nat, at: Time)
    requires w.rules == c.rules && w.stored == c.stored && I.PhaseOf(w, thread).Idle?
    requires I.Accepts(w, k.sid, k.tool, at) && k.handlerSucceeds
    ensures var w' := I.Play(w, CallMoves(k, thread, at));
            var consumed := ConsumePrerequisiteToken(c, k.sid, k.tool, k.consumeAt).core;
            && w'.rules == w.rules && I.PhaseOf(w', thread).Idle?
            && w'.stored == IssueToken(consumed, k.sid, k.tool, k.gen, k.issueAt).core.stored
            && w'.history == w.history + {I.Slot(k.sid, k.tool)}
            && w'.issues == w.issues + (if k.gen.Some? then multiset{I.Slot(k.sid, k.tool)} else multiset{})
            && forall slot: I.Slot :: w'.uses[slot] == w.uses[slot] +
                              if k.sid == slot.sid && SpendsOnly(w.rules, k.tool, slot.tool) then 1 else 0
  {
    var consumed := ConsumePrerequisiteToken(c, k.sid, k.tool, k.consumeAt).core;
    ConsumeKeepsRules(c, k.sid, k.tool, k.consumeAt);
    hide I.Next, I.Accepts, I.PhaseOf, I.Play, CallMoves, ConsumePrerequisiteToken, IssueToken, SpendsOnly;
    UpToConsuming(w, c, k, thread, at);
    var w1 := I.Next(w, I.Validate(thread, k.sid, k.tool, at));
    var w3 := I.Next(I.Next(w1, I.Choose(thread, k.consumeAt(0))), I.Remove(thread));
    IssuesAlone(w3, consumed, thread, k.sid, k.tool, k.gen, k.issueAt);
    RecordsAlone(I.Next(w3, I.Issue(thread, k.gen, k.issueAt(0))), thread, k.sid, k.tool);
    AllMoves(w, k, thread, at);
  }

  lemma UpToConsuming(w: I.World, c: Core, k: Call, thread: nat, at: Time)
    requires w.rules == c.rules && w.stored == c.stored && I.PhaseOf(w, thread).Idle?
    requires I.Accepts(w, k.sid, k.tool, at)
    ensures var w1 := I.Next(w, I.Validate(thread, k.sid, k.tool, at));
            var w3 := I.Next(I.Next(w1, I.Choose(thread, k.consumeAt(0))), I.Remove(thread));
            && w3.rules == w.rules && w3.history == w.history && w3.issues == w.issues
            && w3.stored == ConsumePrerequisiteToken(c, k.sid, k.tool, k.consumeAt).core.stored
            && I.PhaseOf(w3, thread) == I.Settled(k.sid, k.tool)
            && forall slot: I.Slot :: w3.uses[slot] == w.uses[slot] +
                              if k.sid == slot.sid && SpendsOnly(w.rules, k.tool, slot.tool) then 1 else 0
  {
    hide I.Next, I.Accepts, ConsumePrerequisiteToken, SpendsOnly;
    ValidatesAlone(w, thread, k.sid, k.tool, at);
    var w1 := I.Next(w, I.Validate(thread, k.sid, k.tool, at));
    ConsumesAlone(w1, c, thread, k.sid, k.tool, k.consumeAt);
    forall slot: I.Slot {
      CountsAlone(w1, thread, k.sid, k.tool, k.consumeAt(0), slot);
    }
  }

  /** A thread that makes the moves of a call alone leaves the stored tokens and the recorded calls
      of the wrapped call, counts what it counts, and is idle again. */
  lemma AloneIsAWrappedCall(w: I.World, c: Core, k: Call, thread: nat) returns (i: nat)
    requires Mirrors(w, c) && I.PhaseOf(w, thread).Idle?
    requires forall a: nat, b: nat :: a <= b ==> k.validateAt(a) <= k.validateAt(b)
    ensures var w' := I.Play(w, CallMoves(k, thread, k.validateAt(i)));
            && Mirrors(w', WrappedCall(c, k).core) && I.PhaseOf(w', thread).Idle?
            && forall slot :: Counted(w, w', c, k, slot)
  {
    CreatingMirrors(w, c, k.sid, k.createAt);
    WrappedCallStores(c, k);
    var created := CreateSession(c, k.sid, k.createAt).core;
    i := AcceptedAtAReading(w, created, k.sid, k.tool, k.validateAt);
    hide I.Accepts, Allowed, CreateSession, WrappedCall, Mirrors, I.PhaseOf, I.Play, CallMoves, History, SpendsOnly,
         Counted, ConsumePrerequisiteToken, IssueToken;
    var w' := I.Play(w, CallMoves(k, thread, k.validateAt(i)));
    if !Allowed(created, k.sid, k.tool, k.validateAt) {
      RejectedAlone(w, k, thread, k.validateAt(i));
      NothingCounted(w, w', c, k);
    } else if !k.handlerSucceeds {
      FailedAlone(w, k, thread, k.validateAt(i));
      SameMirrors(w, w', created);
      NothingCounted(w, w', c, k);
    } else {
      MirrorParts(w, c);
      MirrorParts(w, created);
      SucceededAlone(w, created, k, thread, k.validateAt(i));
      RecordedMirrors(w, w', c, WrappedCall(c, k).core, k.sid, k.tool);
      SuccessCounted(w, w', c, k);
    }
  }

  lemma NothingCounted(w: I.World, w': I.World, c: Core, k: Call)
    requires !WrappedCall(c, k).verdict.Succeeded? && w'.uses == w.uses && w'.issues == w.issues
    ensures forall slot :: Counted(w, w', c, k, slot)
  {
    hide WrappedCall, SpendsOnly;
  }

  lemma SuccessCounted(w: I.World, w': I.World, c: Core, k: Call)
    requires WrappedCall(c, k).verdict.Succeeded?
    requires w'.issues == w.issues + (if k.gen.Some? then multiset{I.Slot(k.sid, k.tool)} else multiset{})
    requires forall slot: I.Slot :: w'.uses[slot] == w.uses[slot] +
                      if k.sid == slot.sid && SpendsOnly(c.rules, k.tool, slot.tool) then 1 else 0
    ensures forall slot :: Counted(w, w', c, k, slot)
  {
    hide WrappedCall, SpendsOnly;
  }

  lemma MirrorParts(w: I.World, c: Core)
    requires Mirrors(w, c)
    ensures w.rules == c.rules && w.stored == c.stored
  {
  }

  lemma SameMirrors(w: I.World, w': I.World, c: Core)
    requires Mirrors(w, c) && w'.rules == w.rules && w'.stored == w.stored && w'.history == w.history
    ensures Mirrors(w', c)
  {
  }

  lemma RecordedMirrors(w: I.World, w': I.World, c: Core, d: Core, sid: SessionID, tool: ToolName)
    requires Mirrors(w, c) && w'.rules == d.rules && w'.stored == d.stored
    requires w'.history == w.history + {I.Slot(sid, tool)}
    requires forall s :: History(d, s) == History(c, s) + if s == sid then [tool] else []
    ensures Mirrors(w', d)
  {
    hide History;
  }

  lemma ConsumeKeepsRules(c: Core, sid: SessionID, tool: ToolName, now: Clock)
    ensures ConsumePrerequisiteToken(c, sid, tool, now).core.rules == c.rules
  {
  }

  lemma {:induction false} AllMoves(w: I.World, k: Call, thread: nat, at: Time)
    requires k.handlerSucceeds
    ensures I.Play(w, CallMoves(k, thread, at)) ==
            var w1 := I.Next(w, I.Validate(thread, k.sid, k.tool, at));
            var w3 := I.Next(I.Next(w1, I.Choose(thread, k.consumeAt(0))), I.Remove(thread));
            I.Next(I.Next(w3, I.Issue(thread, k.gen, k.issueAt(0))), I.Record(thread))
  {
    hide I.Next, I.Play;
    var validate, choose := I.Validate(thread, k.sid, k.tool, at), I.Choose(thread, k.consumeAt(0));
    var remove, issue, record := I.Remove(thread), I.Issue(thread, k.gen, k.issueAt(0)), I.Record(thread);
    FiveMoves(w, validate, choose, remove, issue, record);
    assert CallMoves(k, thread, at) == [validate, choose, remove, issue, record];
  }

  lemma {:induction false} FiveMoves(w: I.World, m0: I.Move, m1: I.Move, m2: I.Move, m3: I.Move, m4: I.Move)
    ensures I.Play(w, [m0, m1, m2, m3, m4]) == I.Next(I.Next(I.Next(I.Next(I.Next(w, m0), m1), m2), m3), m4)
  {
    hide I.Next;
    var w1 := I.Next(w, m0);
    I.PlayFront(w, m0, [m1, m2, m3, m4]);
    I.PlayFront(w1, m1, [m2, m3, m4]);
    I.PlayFront(I.Next(w1, m1), m2, [m3, m4]);
    I.PlayFront(I.Next(I.Next(w1, m1), m2), m3, [m4]);
    I.PlayFront(I.Next(I.Next(I.Next(w1, m1), m2), m3), m4, []);
    assert [m0] + [m1, m2, m3, m4] == [m0, m1, m2, m3, m4] && [m1] + [m2, m3, m4] == [m1, m2, m3, m4];
    assert [m2] + [m3, m4] == [m2, m3, m4] && [m3] + [m4] == [m3, m4] && [m4] + [] == [m4];
  }

  // ------------------------------------------------------------ whole runs

  /** The calls one after the other, call `i` accepted, if it is, at its reading `at[i]`. */
  function SerialMoves(calls: seq<Call>, thread: nat, at: seq<nat>): seq<I.Move>
    requires |at| == |calls|
  {
    if calls == [] then []
    else
      var n := |calls| - 1;
      SerialMoves(calls[..n], thread, at[..n]) + CallMoves(calls[n], thread, calls[n].validateAt(at[n]))
  }

  lemma {:induction false} PlayConcat(w: I.World, a: seq<I.Move>, b: seq<I.Move>)
    ensures I.Play(w, a + b) == I.Play(I.Play(w, a), b)
  {
    hide I.Next;
    if b == [] {
      assert a + b == a;
    } else {
      assert (a + b)[..|a + b| - 1] == a + b[..|b| - 1];
      PlayConcat(w, a, b[..|b| - 1]);
    }
  }

  /** One thread that makes the moves of all calls of a run in turn ends with the stored tokens and
      recorded calls of the run, and counts the same uses and issues. */
  lemma {:induction false} SerialPlayIsTheRun(rules: seq<Rule>, start: Time, calls: seq<Call>, thread: nat)
    returns (at: seq<nat>)
    requires forall k :: k in calls ==> forall a: nat, b: nat :: a <= b ==> k.validateAt(a) <= k.validateAt(b)
    ensures |at| == |calls|
    ensures var w, l := I.Play(I.Begin(rules, start), SerialMoves(calls, thread, at)), Opening(rules, start);
            && Mirrors(w, After(l, calls).core) && I.PhaseOf(w, thread).Idle?
            && forall slot: I.Slot :: w.uses[slot] == Uses(l, calls, slot.sid, slot.tool)
                                      && w.issues[slot] == Issues(l, calls, slot.sid, slot.tool)
  {
    at := [];
    if calls != [] {
      hide I.Next, WrappedCall, Succeeds, SpendsOnly, AdvanceCall, CallMoves, I.PhaseOf;
      var l, n := Opening(rules, start), |calls| - 1;
      var init := SerialPlayIsTheRun(rules, start, calls[..n], thread);
      var w := I.Play(I.Begin(rules, start), SerialMoves(calls[..n], thread, init));
      var i := AloneIsAWrappedCall(w, After(l, calls[..n]).core, calls[n], thread);
      at := init + [i];
      assert at[..n] == init;
      PlayConcat(I.Begin(rules, start), SerialMoves(calls[..n], thread, init),
                 CallMoves(calls[n], thread, calls[n].validateAt(i)));
      OneMoreCall(After(l, calls[..n]), calls[n]);
      var w' := I.Play(w, CallMoves(calls[n], thread, calls[n].validateAt(i)));
      forall slot: I.Slot
        ensures w'.uses[slot] == Uses(l, calls, slot.sid, slot.tool)
        ensures w'.issues[slot] == Issues(l, calls, slot.sid, slot.tool)
      {
        assert Counted(w, w', After(l, calls[..n]).core, calls[n], slot);
      }
    }
  }

  lemma OneMoreCall(l: Ledger, k: Call)
    ensures AdvanceCall(l, k).core == WrappedCall(l.core, k).core
    ensures Succeeds(l, k) <==> WrappedCall(l.core, k).verdict.Succeeded?
  {
    WrappedCallIsItsOperations(l, k);
  }
}
