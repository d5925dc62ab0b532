/** Writing events: the store keeps them, and after a successful write the broadcaster hands
    them to the connections subscribed to their session. */
module Streaming {
  import opened Domain
  import opened Collections
  import opened EventLog
  import opened EventStore

  // ------------------------------------------------------------ as values

  /** Who is subscribed, and what each connection has been sent. */
  datatype Hub = Hub(connections: map<SessionID, set<Connection>>, inbox: map<Connection, seq<Event>>)

  function Subscribers(h: Hub, sid: SessionID): set<Connection> {
    if sid in h.connections then h.connections[sid] else {}
  }

  function Received(h: Hub, c: Connection): seq<Event> {
    if c in h.inbox then h.inbox[c] else []
  }

  function Subscribe(h: Hub, sid: SessionID, c: Connection): Hub {
    h.(connections := h.connections[sid := Subscribers(h, sid) + {c}])
  }

  /** The entry of a session without connections is dropped. */
  function Unsubscribe(h: Hub, sid: SessionID, c: Connection): Hub {
    if sid !in h.connections then h
    else if h.connections[sid] - {c} == {} then h.(connections := h.connections - {sid})
    else h.(connections := h.connections[sid := h.connections[sid] - {c}])
  }

  function Send(inbox: map<Connection, seq<Event>>, to: set<Connection>, e: Event): map<Connection, seq<Event>> {
    map c | c in inbox.Keys + to :: if c in to then (if c in inbox then inbox[c] else []) + [e] else inbox[c]
  }

  /** What an event store shows: its log, how many writes were tried, and its broadcaster. */
  datatype Sink = Sink(log: seq<Event>, writes: nat, hub: Option<Hub>)

  /** The n-th write of the backend fails when `fails(n)`; a failed write leaves no trace. */
  function Emit(s: Sink, e: Event, fails: nat -> bool): Sink {
    if fails(s.writes) then s.(writes := s.writes + 1)
    else
      Sink(
        s.log + [e],
        s.writes + 1,
        match s.hub
        case None => None
        case Some(h) => Some(h.(inbox := Send(h.inbox, Subscribers(h, e.sessionID), e))))
  }

  function EmitAll(s: Sink, es: seq<Event>, fails: nat -> bool): Sink {
    if es == [] then s else Emit(EmitAll(s, es[..|es| - 1], fails), es[|es| - 1], fails)
  }

  lemma {:induction false} EmitAllAppend(s: Sink, a: seq<Event>, b: seq<Event>, fails: nat -> bool)
    ensures EmitAll(s, a + b, fails) == EmitAll(EmitAll(s, a, fails), b, fails)
  {
    if b == [] {
      assert a + b == a;
    } else {
      assert (a + b)[..|a + b| - 1] == a + b[..|b| - 1];
      EmitAllAppend(s, a, b[..|b| - 1], fails);
    }
  }

  /** The log gains the events whose write does not fail, in order: those at the positions `at`. */
  lemma {:induction false} LoggedAt(s: Sink, es: seq<Event>, fails: nat -> bool) returns (at: seq<nat>)
    ensures Increasing(at)
    ensures forall i: nat :: i in at <==> i < |es| && !fails(s.writes + i)
    ensures var s' := EmitAll(s, es, fails);
            && s'.writes == s.writes + |es| && |s'.log| == |s.log| + |at| && s'.log[..|s.log|] == s.log
            && forall k :: 0 <= k < |at| ==> at[k] < |es| && s'.log[|s.log| + k] == es[at[k]]
  {
    at := [];
    if es != [] {
      var n := |es| - 1;
      at := LoggedAt(s, es[..n], fails);
      AppendPosition(at, n);
      if !fails(s.writes + n) {
        at := at + [n];
      }
    }
  }

  // ------------------------------------------------------------ stream and query agree

  datatype StreamStep =
    | Write(event: Event)
    | Join(sid: SessionID, connection: Connection)
    | Leave(sid: SessionID, connection: Connection)

  function Perform(s: Sink, step: StreamStep, fails: nat -> bool): Sink {
    match step
    case Write(e) => Emit(s, e, fails)
    case Join(sid, c) => if s.hub.None? then s else s.(hub := Some(Subscribe(s.hub.value, sid, c)))
    case Leave(sid, c) => if s.hub.None? then s else s.(hub := Some(Unsubscribe(s.hub.value, sid, c)))
  }

  function PerformAll(s: Sink, steps: seq<StreamStep>, fails: nat -> bool): Sink {
    if steps == [] then s else Perform(PerformAll(s, steps[..|steps| - 1], fails), steps[|steps| - 1], fails)
  }

  /** `c` is subscribed to `sid` and to nothing else. */
  ghost predicate ListensOnlyTo(h: Hub, c: Connection, sid: SessionID) {
    forall s :: c in Subscribers(h, s) <==> s == sid
  }

  lemma WriteDelivers(s: Sink, e: Event, fails: nat -> bool, sid: SessionID, c: Connection) returns (gain: seq<Event>)
    requires s.hub.Some? && ListensOnlyTo(s.hub.value, c, sid)
    ensures var s' := Emit(s, e, fails);
            && s'.hub.Some? && s'.hub.value.connections == s.hub.value.connections
            && Query(s'.log, sid, None) == Query(s.log, sid, None) + gain
            && Received(s'.hub.value, c) == Received(s.hub.value, c) + gain
  {
    gain := if !fails(s.writes) && e.sessionID == sid then [e] else [];
    assert (s.log + [e])[..|s.log|] == s.log;
    assert c in Subscribers(s.hub.value, e.sessionID) <==> e.sessionID == sid;
  }

  lemma SameSubscriptions(h: Hub, h': Hub, c: Connection, sid: SessionID)
    requires ListensOnlyTo(h, c, sid) && forall t :: c in Subscribers(h, t) <==> c in Subscribers(h', t)
    ensures ListensOnlyTo(h', c, sid)
  {
  }

  lemma OthersKeepSubscriptions(s: Sink, step: StreamStep, fails: nat -> bool, c: Connection, t: SessionID)
    requires s.hub.Some? && (step.Write? || step.connection != c)
    ensures Perform(s, step, fails).hub.Some?
    ensures c in Subscribers(s.hub.value, t) <==> c in Subscribers(Perform(s, step, fails).hub.value, t)
  {
  }

  lemma StepDelivers(s: Sink, step: StreamStep, fails: nat -> bool, sid: SessionID, c: Connection)
    returns (gain: seq<Event>)
    requires s.hub.Some? && ListensOnlyTo(s.hub.value, c, sid)
    requires step.Write? || step.connection != c
    ensures var s' := Perform(s, step, fails);
            && s'.hub.Some? && ListensOnlyTo(s'.hub.value, c, sid)
            && Query(s'.log, sid, None) == Query(s.log, sid, None) + gain
            && Received(s'.hub.value, c) == Received(s.hub.value, c) + gain
  {
    hide Emit, ListensOnlyTo, Query;
    gain := [];
    if step.Write? {
      gain := WriteDelivers(s, step.event, fails, sid, c);
    }
    OthersKeepSubscriptions(s, step, fails, c, sid);
    var h, h' := s.hub.value, Perform(s, step, fails).hub.value;
    forall t ensures c in Subscribers(h, t) <==> c in Subscribers(h', t) {
      OthersKeepSubscriptions(s, step, fails, c, t);
    }
    SameSubscriptions(h, h', c, sid);
  }

  /** While a connection is subscribed to one session, what it receives is exactly what an
      unfiltered query for that session gains, in the same order, whatever writes fail and
      whoever else joins or leaves. */
  lemma {:induction false} StreamMatchesQuery(
    s: Sink, steps: seq<StreamStep>, fails: nat -> bool, sid: SessionID, c: Connection) returns (gain: seq<Event>)
    requires s.hub.Some? && ListensOnlyTo(s.hub.value, c, sid)
    requires forall i :: 0 <= i < |steps| ==> steps[i].Write? || steps[i].connection != c
    ensures var s' := PerformAll(s, steps, fails);
            && s'.hub.Some? && ListensOnlyTo(s'.hub.value, c, sid)
            && Query(s'.log, sid, None) == Query(s.log, sid, None) + gain
            && Received(s'.hub.value, c) == Received(s.hub.value, c) + gain
  {
    if steps == [] {
      gain := [];
    } else {
      hide Query, ListensOnlyTo, Received, Perform;
      var init := steps[..|steps| - 1];
      var before := StreamMatchesQuery(s, init, fails, sid, c);
      var last := StepDelivers(PerformAll(s, init, fails), steps[|steps| - 1], fails, sid, c);
      gain := before + last;
      SeqAssociates(Query(s.log, sid, None), before, last);
      SeqAssociates(Received(s.hub.value, c), before, last);
    }
  }

  lemma SeqAssociates<T>(a: seq<T>, b: seq<T>, c: seq<T>)
    ensures a + b + c == a + (b + c)
  {
  }

  /** A connection that is not subscribed receives nothing. */
  lemma {:induction false} SilenceWithoutSubscription(
    s: Sink, steps: seq<StreamStep>, fails: nat -> bool, c: Connection)
    requires s.hub.Some? && forall t :: c !in Subscribers(s.hub.value, t)
    requires forall i :: 0 <= i < |steps| ==> steps[i].Write? || steps[i].connection != c
    ensures var s' := PerformAll(s, steps, fails);
            && s'.hub.Some? && (forall t :: c !in Subscribers(s'.hub.value, t))
            && Received(s'.hub.value, c) == Received(s.hub.value, c)
  {
    if steps != [] {
      var before := PerformAll(s, steps[..|steps| - 1], fails);
      SilenceWithoutSubscription(s, steps[..|steps| - 1], fails, c);
      var h := Perform(before, steps[|steps| - 1], fails).hub.value;
      forall t ensures c !in Subscribers(h, t) {
        assert c !in Subscribers(before.hub.value, t);
      }
    }
  }

  /** From subscribing to unsubscribing, and only then: a connection that joins one session
      and leaves it again has received exactly that session's events of the time between. */
  lemma {:induction false} SubscriptionDeliversItsSession(
    s: Sink, during: seq<StreamStep>, later: seq<StreamStep>, fails: nat -> bool, sid: SessionID, c: Connection)
    requires s.hub.Some? && forall t :: c !in Subscribers(s.hub.value, t)
    requires forall i :: 0 <= i < |during| ==> during[i].Write? || during[i].connection != c
    requires forall i :: 0 <= i < |later| ==> later[i].Write? || later[i].connection != c
    ensures var end := PerformAll(Perform(s, Join(sid, c), fails), during, fails);
            var after := PerformAll(Perform(end, Leave(sid, c), fails), later, fails);
            && after.hub.Some?
            && |Query(s.log, sid, None)| <= |Query(end.log, sid, None)|
            && Received(after.hub.value, c) ==
               Received(s.hub.value, c) + Query(end.log, sid, None)[|Query(s.log, sid, None)|..]
  {
    var joined := Perform(s, Join(sid, c), fails);
    forall t ensures c in Subscribers(joined.hub.value, t) <==> t == sid {
      assert c !in Subscribers(s.hub.value, t);
    }
    var gain := StreamMatchesQuery(joined, during, fails, sid, c);
    var end := PerformAll(joined, during, fails);
    var left := Perform(end, Leave(sid, c), fails);
    forall t ensures c !in Subscribers(left.hub.value, t) {
      assert c in Subscribers(end.hub.value, t) <==> t == sid;
    }
    SilenceWithoutSubscription(left, later, fails, c);
  }

  // ------------------------------------------------------------ as objects

  class EventBroadcaster {
    var connections: map<SessionID, set<Connection>>
    var inbox: map<Connection, seq<Event>>

    constructor ()
      ensures View() == Hub(map[], map[])
    {
      connections, inbox := map[], map[];
    }

    ghost function View(): Hub
      reads this
    {
      Hub(connections, inbox)
    }

    method SubscribeTo(sid: SessionID, c: Connection)
      modifies this
      ensures View() == Subscribe(old(View()), sid, c)
    {
      if sid !in connections {
        connections := connections[sid := {}];
      }
      connections := connections[sid := connections[sid] + {c}];
    }

    method UnsubscribeFrom(sid: SessionID, c: Connection)
      modifies this
      ensures View() == Unsubscribe(old(View()), sid, c)
    {
      if sid in connections {
        var conns := connections[sid] - {c};
        connections := connections[sid := conns];
        if |conns| == 0 {
          connections := connections - {sid};
        }
      }
    }

    /** Sends the event to each subscriber, in whatever order they come. */
    method Broadcast(sid: SessionID, e: Event)
      modifies this
      ensures View() == Hub(old(connections), Send(old(inbox), Subscribers(old(View()), sid), e))
    {
      var conns := if sid in connections then connections[sid] else {};
      ghost var sent: set<Connection> := {};
      assert Send(old(inbox), sent, e) == inbox;
      while conns != {}
        invariant connections == old(connections)
        invariant sent !! conns && sent + conns == Subscribers(old(View()), sid)
        invariant inbox == Send(old(inbox), sent, e)
        decreases conns
      {
        var c :| c in conns;
        conns, sent := conns - {c}, sent + {c};
        inbox := inbox[c := (if c in inbox then inbox[c] else []) + [e]];
      }
    }
  }

  /** The event store the service writes to: a backend whose writes may fail (those of the
      in-memory store never do), and possibly a broadcaster behind it. */
  class BroadcastingEventStore {
    const base: MemoryEventStore
    const broadcaster: EventBroadcaster?
    const fails: nat -> bool
    var writes: nat

    constructor (base: MemoryEventStore, broadcaster: EventBroadcaster?, fails: nat -> bool)
      ensures this.base == base && this.broadcaster == broadcaster && this.fails == fails && writes == 0
    {
      this.base, this.broadcaster, this.fails, writes := base, broadcaster, fails, 0;
    }

    ghost function Footprint(): set<object>
      reads this, base
    {
      var owned: set<object> := {this, base, base.buf};
      if broadcaster == null then owned else owned + {broadcaster}
    }

    ghost predicate Valid()
      reads this, base
    {
      base.Valid()
    }

    ghost function View(): Sink
      requires Valid()
      reads this, base, base.buf, broadcaster
    {
      Sink(base.Log(), writes, if broadcaster == null then None else Some(broadcaster.View()))
    }

    /** Stores first, and broadcasts only what was stored. */
    method Store(e: Event) returns (err: Option<Error>)
      requires Valid()
      modifies Footprint()
      ensures Valid() && fresh(Footprint() - old(Footprint()))
      ensures View() == Emit(old(View()), e, fails)
      ensures err == if fails(old(writes)) then Some(StorageFailed) else None
    {
      var n := writes;
      writes := writes + 1;
      if fails(n) {
        return Some(StorageFailed);
      }
      base.Store(e);
      if broadcaster != null {
        broadcaster.Broadcast(e.sessionID, e);
      }
      return None;
    }
  }
}
