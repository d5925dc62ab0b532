/** The in-memory event store: a growing array of events, pruned in place. */
module EventStore {
  import opened Domain
  import opened Collections
  import opened EventLog

  datatype EventStats = EventStats(
    totalEvents: nat,
    eventsByType: map<EventType, nat>,
    eventsByTool: map<ToolName, nat>,
    activeSessions: nat,
    tokensIssued: nat,
    tokensConsumed: nat)

  /** The statistics count every event, by kind and by (named) tool; sessions are counted
      once each. */
  ghost predicate Describes(stats: EventStats, log: seq<Event>) {
    && stats.totalEvents == |log| == MapSum(stats.eventsByType)
    && (forall kind :: kind in stats.eventsByType <==> CountKind(log, kind) > 0)
    && (forall kind :: kind in stats.eventsByType ==> stats.eventsByType[kind] == CountKind(log, kind))
    && (forall tool :: tool in stats.eventsByTool <==> tool != "" && CountTool(log, tool) > 0)
    && (forall tool :: tool in stats.eventsByTool ==> stats.eventsByTool[tool] == CountTool(log, tool))
    && stats.activeSessions == |SessionIDs(log)|
    && stats.tokensIssued == CountKind(log, TokenCreated)
    && stats.tokensConsumed == CountKind(log, TokenConsumed)
  }

  class MemoryEventStore {
    var buf: array<Event>
    var len: nat

    ghost predicate Valid()
      reads this
    {
      len <= buf.Length
    }

    ghost function Log(): seq<Event>
      requires Valid()
      reads this, buf
    {
      buf[..len]
    }

    constructor ()
      ensures Valid() && fresh(buf) && Log() == []
    {
      buf := new Event[0];
      len := 0;
    }

    /** Appends; a full array is first copied to a larger one. */
    method Store(e: Event)
      requires Valid()
      modifies this, buf
      ensures Valid() && (buf == old(buf) || fresh(buf))
      ensures Log() == old(Log()) + [e]
    {
      if len == buf.Length {
        var larger := new Event[2 * len + 1](_ => e);
        forall i | 0 <= i < len {
          larger[i] := buf[i];
        }
        buf := larger;
      }
      buf[len] := e;
      len := len + 1;
    }

    /** Compacts the array in place, reading ahead of where it writes. */
    method PruneExpired(cutoff: Time)
      requires Valid()
      modifies this`len, buf
      ensures Valid() && Log() == Kept(old(Log()), cutoff)
    {
      ghost var log := Log();
      var kept := 0;
      for i := 0 to len
        invariant kept <= i <= len == old(len)
        invariant buf[..kept] == Kept(log[..i], cutoff)
        invariant buf[i..len] == log[i..]
      {
        var e := buf[i];
        assert e == log[i] && log[..i + 1][..i] == log[..i];
        if e.timestamp > cutoff {
          buf[kept] := e;
          kept := kept + 1;
        }
        assert buf[i + 1..len] == log[i + 1..];
      }
      assert log[..len] == log;
      len := kept;
    }

    method GetEvents(sid: SessionID, filter: Option<EventFilter>) returns (result: seq<Event>)
      requires Valid()
      ensures result == Answer(Log(), sid, filter)
    {
      ghost var log := Log();
      result := [];
      for i := 0 to len
        invariant result == Query(log[..i], sid, filter)
        invariant filter.Some? && filter.value.limit > 0 ==> |result| < filter.value.limit
      {
        var e := buf[i];
        assert log[..i + 1][..i] == log[..i];
        if e.sessionID != sid {
          continue;
        }
        if filter.Some? && !MatchesFilter(e, filter.value) {
          continue;
        }
        result := result + [e];
        if filter.Some? && filter.value.limit > 0 && |result| >= filter.value.limit {
          assert log == log[..i + 1] + log[i + 1..];
          QueryAppend(log[..i + 1], log[i + 1..], sid, filter);
          return;
        }
      }
      assert log[..len] == log;
    }

    method GetStats() returns (stats: EventStats)
      requires Valid()
      ensures Describes(stats, Log())
    {
      hide Describes, SessionIDs, Bumped;
      ghost var log := Log();
      var total, issued, consumed := 0, 0, 0;
      var byType: map<EventType, nat> := map[];
      var byTool: map<ToolName, nat> := map[];
      var sessions: set<SessionID> := {};
      DescribesNothing();
      assert log[..0] == [];
      for i := 0 to len
        invariant Describes(EventStats(total, byType, byTool, |sessions|, issued, consumed), log[..i])
        invariant sessions == SessionIDs(log[..i])
      {
        var e := buf[i];
        assert e == log[i];
        ghost var before := EventStats(total, byType, byTool, |sessions|, issued, consumed);
        total := total + 1;
        byType := Bumped(byType, e.kind);
        if e.toolName != "" {
          byTool := Bumped(byTool, e.toolName);
        }
        sessions := sessions + {e.sessionID};
        match e.kind {
          case TokenCreated => issued := issued + 1;
          case TokenConsumed => consumed := consumed + 1;
          case _ =>
        }
        DescribesOneMore(before, log, i);
      }
      assert log[..len] == log;
      stats := EventStats(total, byType, byTool, |sessions|, issued, consumed);
    }
  }

  /** The statistics in the occurrences they count: every event, each kind and each named tool that
      occurs, each session once, and the two kinds of token events. */
  lemma StatisticsAreOccurrences(stats: EventStats, log: seq<Event>)
    requires Describes(stats, log)
    ensures stats.totalEvents == |log|
    ensures forall kind :: (kind in stats.eventsByType <==> kind in KindsOf(log))
                           && (kind in stats.eventsByType ==>
                                 stats.eventsByType[kind] == multiset(KindsOf(log))[kind])
    ensures forall tool :: (tool in stats.eventsByTool <==> tool != "" && tool in ToolsIn(log))
                           && (tool in stats.eventsByTool ==>
                                 stats.eventsByTool[tool] == multiset(ToolsIn(log))[tool])
    ensures stats.activeSessions == |set i | 0 <= i < |log| :: log[i].sessionID|
    ensures stats.tokensIssued == multiset(KindsOf(log))[TokenCreated]
    ensures stats.tokensConsumed == multiset(KindsOf(log))[TokenConsumed]
  {
    hide CountKind, CountTool, KindsOf, ToolsIn;
    CountsAreOccurrences(log, TokenCreated, "");
    CountsAreOccurrences(log, TokenConsumed, "");
    forall kind ensures CountKind(log, kind) == multiset(KindsOf(log))[kind] {
      CountsAreOccurrences(log, kind, "");
    }
    forall tool ensures CountTool(log, tool) == multiset(ToolsIn(log))[tool] {
      CountsAreOccurrences(log, TokenCreated, tool);
    }
  }

  /** One more for `k`; a missing counter counts from zero. */
  function Bumped<K>(counters: map<K, nat>, k: K): map<K, nat> {
    counters[k := (if k in counters then counters[k] else 0) + 1]
  }

  lemma DescribesNothing()
    ensures Describes(EventStats(0, map[], map[], 0, 0, 0), []) && SessionIDs([]) == {}
  {
  }

  lemma DescribesOneMore(before: EventStats, log: seq<Event>, i: nat)
    requires i < |log| && Describes(before, log[..i])
    ensures SessionIDs(log[..i + 1]) == SessionIDs(log[..i]) + {log[i].sessionID}
    ensures var e := log[i];
            Describes(
              EventStats(
                before.totalEvents + 1,
                Bumped(before.eventsByType, e.kind),
                if e.toolName != "" then Bumped(before.eventsByTool, e.toolName) else before.eventsByTool,
                |SessionIDs(log[..i]) + {e.sessionID}|,
                before.tokensIssued + if e.kind == TokenCreated then 1 else 0,
                before.tokensConsumed + if e.kind == TokenConsumed then 1 else 0),
              log[..i + 1])
  {
    hide CountKind, CountTool, SessionIDs;
    CountsOfOneMore(log, i);
    MapSumUpdate(before.eventsByType, log[i].kind, Bumped(before.eventsByType, log[i].kind)[log[i].kind]);
  }

  lemma CountsOfOneMore(log: seq<Event>, i: nat)
    requires i < |log|
    ensures forall kind ::
              CountKind(log[..i + 1], kind) == CountKind(log[..i], kind) + if log[i].kind == kind then 1 else 0
    ensures forall tool ::
              CountTool(log[..i + 1], tool) == CountTool(log[..i], tool) + if log[i].toolName == tool then 1 else 0
    ensures SessionIDs(log[..i + 1]) == SessionIDs(log[..i]) + {log[i].sessionID}
  {
    assert log[..i + 1][..i] == log[..i];
    forall sid | sid in SessionIDs(log[..i + 1]) ensures sid in SessionIDs(log[..i]) + {log[i].sessionID} {
      var j :| 0 <= j < i + 1 && log[..i + 1][j].sessionID == sid;
      assert j < i ==> log[..i][j].sessionID == sid;
    }
    forall sid | sid in SessionIDs(log[..i]) ensures sid in SessionIDs(log[..i + 1]) {
      var j :| 0 <= j < i && log[..i][j].sessionID == sid;
      assert log[..i + 1][j].sessionID == sid;
    }
    assert log[..i + 1][i].sessionID in SessionIDs(log[..i + 1]);
  }
}
