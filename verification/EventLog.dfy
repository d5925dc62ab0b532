/** Reading a log of events: queries, pruning and counting, on sequences. */
module EventLog {
  import opened Domain
  import opened Collections

  /** An empty list, and a time that is not given, restrict nothing. */
  datatype EventFilter = EventFilter(
    eventTypes: seq<EventType>,
    toolNames: seq<ToolName>,
    startTime: Option<Time>,
    endTime: Option<Time>,
    limit: int)

  predicate MatchesFilter(e: Event, f: EventFilter) {
    && (|f.eventTypes| > 0 ==> e.kind in f.eventTypes)
    && (|f.toolNames| > 0 ==> e.toolName in f.toolNames)
    && (f.startTime.Some? ==> e.timestamp >= f.startTime.value)
    && (f.endTime.Some? ==> e.timestamp <= f.endTime.value)
  }

  predicate Selected(e: Event, sid: SessionID, f: Option<EventFilter>) {
    e.sessionID == sid && (f.Some? ==> MatchesFilter(e, f.value))
  }

  /** All selected events, in log order. */
  function Query(log: seq<Event>, sid: SessionID, f: Option<EventFilter>): seq<Event> {
    if log == [] then []
    else
      var rest := Query(log[..|log| - 1], sid, f);
      if Selected(log[|log| - 1], sid, f) then rest + [log[|log| - 1]] else rest
  }

  /** The answer to a query: its events, cut off at a positive limit. */
  function Answer(log: seq<Event>, sid: SessionID, f: Option<EventFilter>): seq<Event> {
    var all := Query(log, sid, f);
    if f.Some? && f.value.limit > 0 && |all| > f.value.limit then all[..f.value.limit] else all
  }

  lemma {:induction false} QueryAppend(a: seq<Event>, b: seq<Event>, sid: SessionID, f: Option<EventFilter>)
    ensures Query(a + b, sid, f) == Query(a, sid, f) + Query(b, sid, f)
  {
    if b == [] {
      assert a + b == a;
    } else {
      assert (a + b)[..|a + b| - 1] == a + b[..|b| - 1];
      QueryAppend(a, b[..|b| - 1], sid, f);
    }
  }

  /** A query returns an event as often as it is in the log when it is of the session, its kind
      and tool are among those asked for, and its time is within the given ones; else never. */
  lemma {:induction false} QueryIsExact(log: seq<Event>, sid: SessionID, f: Option<EventFilter>, e: Event)
    ensures multiset(Query(log, sid, f))[e] ==
            if && e.sessionID == sid
               && (f.Some? ==>
                     && (f.value.eventTypes == [] || e.kind in f.value.eventTypes)
                     && (f.value.toolNames == [] || e.toolName in f.value.toolNames)
                     && (f.value.startTime.Some? ==> f.value.startTime.value <= e.timestamp)
                     && (f.value.endTime.Some? ==> e.timestamp <= f.value.endTime.value))
            then multiset(log)[e] else 0
  {
    if log != [] {
      var last := log[|log| - 1];
      assert log == log[..|log| - 1] + [last];
      QueryIsExact(log[..|log| - 1], sid, f, e);
    }
  }

  lemma {:induction false} QueryAt(log: seq<Event>, sid: SessionID, f: Option<EventFilter>) returns (at: seq<nat>)
    ensures Increasing(at)
    ensures forall i: nat :: i in at <==> i < |log| && Selected(log[i], sid, f)
    ensures |Query(log, sid, f)| == |at|
    ensures forall k :: 0 <= k < |at| ==> at[k] < |log| && Query(log, sid, f)[k] == log[at[k]]
  {
    at := [];
    if log != [] {
      var n := |log| - 1;
      at := QueryAt(log[..n], sid, f);
      AppendPosition(at, n);
      if Selected(log[n], sid, f) {
        at := at + [n];
      }
    }
  }

  /** The answer to a query lists, in log order and cut off at a positive limit, the events at the
      positions `at`: those of the session that pass every part of the filter. */
  lemma AnswerAt(log: seq<Event>, sid: SessionID, f: EventFilter) returns (at: seq<nat>)
    ensures Increasing(at)
    ensures forall i: nat :: i in at <==>
              && i < |log| && log[i].sessionID == sid
              && (f.eventTypes == [] || log[i].kind in f.eventTypes)
              && (f.toolNames == [] || log[i].toolName in f.toolNames)
              && (f.startTime.Some? ==> f.startTime.value <= log[i].timestamp)
              && (f.endTime.Some? ==> log[i].timestamp <= f.endTime.value)
    ensures |Answer(log, sid, Some(f))| == if 0 < f.limit < |at| then f.limit else |at|
    ensures forall k :: 0 <= k < |Answer(log, sid, Some(f))| ==>
              at[k] < |log| && Answer(log, sid, Some(f))[k] == log[at[k]]
  {
    at := QueryAt(log, sid, Some(f));
    hide Query;
  }

  // ---------------------------------------------------------------- pruning

  /** The events after the cutoff, in order. */
  function Kept(log: seq<Event>, cutoff: Time): seq<Event> {
    if log == [] then []
    else
      var rest := Kept(log[..|log| - 1], cutoff);
      if log[|log| - 1].timestamp > cutoff then rest + [log[|log| - 1]] else rest
  }

  /** Pruning leaves the events after the cutoff, and those only, in order: those at the positions
      `at`. */
  lemma {:induction false} KeptAt(log: seq<Event>, cutoff: Time) returns (at: seq<nat>)
    ensures Increasing(at)
    ensures forall i: nat :: i in at <==> i < |log| && log[i].timestamp > cutoff
    ensures |Kept(log, cutoff)| == |at|
    ensures forall k :: 0 <= k < |at| ==> at[k] < |log| && Kept(log, cutoff)[k] == log[at[k]]
  {
    at := [];
    if log != [] {
      var n := |log| - 1;
      at := KeptAt(log[..n], cutoff);
      AppendPosition(at, n);
      if log[n].timestamp > cutoff {
        at := at + [n];
      }
    }
  }

  ghost predicate Prunes(log: seq<Event>, cutoff: Time, sid: SessionID, f: Option<EventFilter>, i: nat) {
    i < |log| && log[i].timestamp <= cutoff && Selected(log[i], sid, f)
  }

  lemma {:induction false} PruningShortens(log: seq<Event>, cutoff: Time, sid: SessionID, f: Option<EventFilter>)
    ensures |Query(Kept(log, cutoff), sid, f)| <= |Query(log, sid, f)|
    ensures (exists i: nat :: Prunes(log, cutoff, sid, f, i)) ==>
              |Query(Kept(log, cutoff), sid, f)| < |Query(log, sid, f)|
    ensures !(exists i: nat :: Prunes(log, cutoff, sid, f, i)) ==>
              Query(Kept(log, cutoff), sid, f) == Query(log, sid, f)
  {
    if log != [] {
      var init, last := log[..|log| - 1], log[|log| - 1];
      PruningShortens(init, cutoff, sid, f);
      if last.timestamp > cutoff {
        assert Kept(log, cutoff)[..|Kept(log, cutoff)| - 1] == Kept(init, cutoff);
      }
      if i: nat :| Prunes(log, cutoff, sid, f, i) {
        if i < |init| {
          assert Prunes(init, cutoff, sid, f, i);
        }
      } else {
        assert !Prunes(log, cutoff, sid, f, |init|);
        forall i: nat ensures !Prunes(init, cutoff, sid, f, i) {
          assert !Prunes(log, cutoff, sid, f, i);
        }
      }
    }
  }

  /** Pruning changes what an unlimited query returns exactly when it drops an event that the
      query selects. */
  lemma {:induction false} PruningVisible(log: seq<Event>, cutoff: Time, sid: SessionID, f: Option<EventFilter>)
    ensures Query(Kept(log, cutoff), sid, f) == Query(log, sid, f)
            <==> !(exists i: nat :: Prunes(log, cutoff, sid, f, i))
  {
    PruningShortens(log, cutoff, sid, f);
  }

  /** Every event the query can select lies after the cutoff. */
  ghost predicate AsksAfter(cutoff: Time, sid: SessionID, f: Option<EventFilter>) {
    forall e :: Selected(e, sid, f) ==> e.timestamp > cutoff
  }

  /** A query has the same answer, limit included, before and after pruning of whatever log,
      exactly when it only asks for events after the cutoff. */
  lemma {:induction false} AnswersSurvivePruningIff(cutoff: Time, sid: SessionID, f: Option<EventFilter>)
    ensures (forall log :: Answer(Kept(log, cutoff), sid, f) == Answer(log, sid, f)) <==> AsksAfter(cutoff, sid, f)
  {
    if AsksAfter(cutoff, sid, f) {
      forall log ensures Answer(Kept(log, cutoff), sid, f) == Answer(log, sid, f) {
        PruningShortens(log, cutoff, sid, f);
      }
    } else {
      var e :| Selected(e, sid, f) && e.timestamp <= cutoff;
      assert [e][..0] == [];
      assert Answer(Kept([e], cutoff), sid, f) != Answer([e], sid, f);
    }
  }

  lemma {:induction false} KeptAppend(a: seq<Event>, b: seq<Event>, cutoff: Time)
    ensures Kept(a + b, cutoff) == Kept(a, cutoff) + Kept(b, cutoff)
  {
    if b == [] {
      assert a + b == a;
    } else {
      assert (a + b)[..|a + b| - 1] == a + b[..|b| - 1];
      KeptAppend(a, b[..|b| - 1], cutoff);
    }
  }

  lemma {:induction false} KeptIsRecent(log: seq<Event>, cutoff: Time, e: Event)
    requires e in Kept(log, cutoff)
    ensures e.timestamp > cutoff
  {
    if log[|log| - 1].timestamp <= cutoff || e != log[|log| - 1] {
      KeptIsRecent(log[..|log| - 1], cutoff, e);
    }
  }

  lemma {:induction false} RecentIsKept(log: seq<Event>, cutoff: Time)
    requires forall e :: e in log ==> e.timestamp > cutoff
    ensures Kept(log, cutoff) == log
  {
    if log != [] {
      var init, last := log[..|log| - 1], log[|log| - 1];
      assert log == init + [last];
      RecentIsKept(init, cutoff);
    }
  }

  /** Pruning a log prunes what queries return. */
  lemma {:induction false} QueryOfKept(log: seq<Event>, cutoff: Time, sid: SessionID, f: Option<EventFilter>)
    ensures Query(Kept(log, cutoff), sid, f) == Kept(Query(log, sid, f), cutoff)
  {
    if log != [] {
      var init, last := log[..|log| - 1], log[|log| - 1];
      QueryOfKept(init, cutoff, sid, f);
      assert (Kept(init, cutoff) + [last])[..|Kept(init, cutoff)|] == Kept(init, cutoff);
      assert (Query(init, sid, f) + [last])[..|Query(init, sid, f)|] == Query(init, sid, f);
    }
  }

  /** For one log: an answer, limit included, survives pruning exactly when every event of it lies
      after the cutoff. What the limit already cut off may be lost. */
  lemma {:induction false} AnswerSurvivesPruningIff(
    log: seq<Event>, cutoff: Time, sid: SessionID, f: Option<EventFilter>)
    ensures Answer(Kept(log, cutoff), sid, f) == Answer(log, sid, f)
            <==> forall e :: e in Answer(log, sid, f) ==> e.timestamp > cutoff
  {
    hide Query, Kept;
    var all, answer := Query(log, sid, f), Answer(log, sid, f);
    QueryOfKept(log, cutoff, sid, f);
    if forall e :: e in answer ==> e.timestamp > cutoff {
      var rest := all[|answer|..];
      assert all == answer + rest;
      KeptAppend(answer, rest, cutoff);
      RecentIsKept(answer, cutoff);
      assert (answer + Kept(rest, cutoff))[..|answer|] == answer;
      if rest == [] {
        assert Kept(rest, cutoff) == [] by {
          RecentIsKept(rest, cutoff);
        }
      }
    } else if Answer(Kept(log, cutoff), sid, f) == answer {
      forall e | e in answer ensures e.timestamp > cutoff {
        KeptIsRecent(all, cutoff, e);
      }
    }
  }

  /** In particular a query that starts after the cutoff. */
  lemma {:induction false} RecentAnswersSurvivePruning(log: seq<Event>, cutoff: Time, sid: SessionID, f: EventFilter)
    requires f.startTime.Some? && f.startTime.value > cutoff
    ensures Answer(Kept(log, cutoff), sid, Some(f)) == Answer(log, sid, Some(f))
  {
    AnswersSurvivePruningIff(cutoff, sid, Some(f));
  }

  // ---------------------------------------------------------------- counting

  function CountKind(log: seq<Event>, kind: EventType): nat {
    if log == [] then 0 else CountKind(log[..|log| - 1], kind) + if log[|log| - 1].kind == kind then 1 else 0
  }

  function CountTool(log: seq<Event>, tool: ToolName): nat {
    if log == [] then 0 else CountTool(log[..|log| - 1], tool) + if log[|log| - 1].toolName == tool then 1 else 0
  }

  function SessionIDs(log: seq<Event>): set<SessionID> {
    set i | 0 <= i < |log| :: log[i].sessionID
  }

  function KindsOf(log: seq<Event>): seq<EventType> {
    seq(|log|, i requires 0 <= i < |log| => log[i].kind)
  }

  function ToolsIn(log: seq<Event>): seq<ToolName> {
    seq(|log|, i requires 0 <= i < |log| => log[i].toolName)
  }

  /** The counters count each kind, and each tool, as often as it occurs in the log. */
  lemma {:induction false} CountsAreOccurrences(log: seq<Event>, kind: EventType, tool: ToolName)
    ensures CountKind(log, kind) == multiset(KindsOf(log))[kind]
    ensures CountTool(log, tool) == multiset(ToolsIn(log))[tool]
  {
    if log != [] {
      var init, last := log[..|log| - 1], log[|log| - 1];
      CountsAreOccurrences(init, kind, tool);
      assert KindsOf(log) == KindsOf(init) + [last.kind];
      assert ToolsIn(log) == ToolsIn(init) + [last.toolName];
    }
  }

  lemma {:induction false} CountKindAppend(a: seq<Event>, b: seq<Event>, kind: EventType)
    ensures CountKind(a + b, kind) == CountKind(a, kind) + CountKind(b, kind)
  {
    if b == [] {
      assert a + b == a;
    } else {
      assert (a + b)[..|a + b| - 1] == a + b[..|b| - 1];
      CountKindAppend(a, b[..|b| - 1], kind);
    }
  }
}
