/** The paging arithmetic of the events endpoint. */
module Paging {
  import opened Domain
  import opened EventLog
  import opened EventStore

  const MIN_INT64: int := -0x8000_0000_0000_0000
  const MAX_INT64: int := 0x7FFF_FFFF_FFFF_FFFF

  type Int64 = n: int | MIN_INT64 <= n <= MAX_INT64

  const DEFAULT_LIMIT: Int64 := 100

  /** 64-bit addition: results out of range wrap around. */
  function AddInt64(a: Int64, b: Int64): Int64 {
    var sum := a + b;
    if sum > MAX_INT64 then sum - 0x1_0000_0000_0000_0000
    else if sum < MIN_INT64 then sum + 0x1_0000_0000_0000_0000
    else sum
  }

  /** The elements from `offset` on, at most `limit` of them. */
  function Page<T>(all: seq<T>, limit: nat, offset: nat): seq<T> {
    if offset >= |all| then []
    else if offset + limit >= |all| then all[offset..]
    else all[offset..offset + limit]
  }

  /** The limit in force: an unparsable or non-positive parameter leaves the default. */
  function EffectiveLimit(raw: Option<Int64>): (limit: Int64)
    ensures limit > 0
  {
    if raw.Some? && raw.value > 0 then raw.value else DEFAULT_LIMIT
  }

  function EffectiveOffset(raw: Option<Int64>): (offset: Int64)
    ensures offset >= 0
  {
    if raw.Some? && raw.value >= 0 then raw.value else 0
  }

  /** Fetches `limit + offset` events and cuts off the first `offset`. The result is exactly
      that page of all matching events, even when the 64-bit sum wraps: it is then negative,
      and a limit that is not positive means no limit. A disabled store has no events. */
  method EventsPage(
    store: MemoryEventStore?, sid: SessionID, eventTypes: seq<EventType>, toolNames: seq<ToolName>,
    rawLimit: Option<Int64>, rawOffset: Option<Int64>)
    returns (events: seq<Event>)
    requires store != null ==> store.Valid() && |store.Log()| <= MAX_INT64
    ensures store == null ==> events == []
    ensures store != null ==>
              events == Page(
                          Query(store.Log(), sid, Some(EventFilter(eventTypes, toolNames, None, None, 0))),
                          EffectiveLimit(rawLimit), EffectiveOffset(rawOffset))
    ensures store != null ==>
              var all := Query(store.Log(), sid, Some(EventFilter(eventTypes, toolNames, None, None, 0)));
              var limit := if rawLimit.Some? && rawLimit.value > 0 then rawLimit.value else 100;
              var offset := if rawOffset.Some? && rawOffset.value >= 0 then rawOffset.value else 0;
              && |events| == (if |all| <= offset then 0 else if |all| - offset < limit then |all| - offset else limit)
              && forall k :: 0 <= k < |events| ==> events[k] == all[offset + k]
  {
    hide Query, Page, AddInt64;
    var filterLimit := DEFAULT_LIMIT;
    if rawLimit.Some? && rawLimit.value > 0 {
      filterLimit := rawLimit.value;
    }
    var offset: Int64 := 0;
    if rawOffset.Some? && rawOffset.value >= 0 {
      offset := rawOffset.value;
    }
    var filter := EventFilter(eventTypes, toolNames, None, None, AddInt64(filterLimit, offset));
    if store == null {
      events := [];
    } else {
      events := store.GetEvents(sid, Some(filter));
      LimitDoesNotSelect(store.Log(), sid, filter);
      QueryIsNotLonger(store.Log(), sid, Some(filter));
      ghost var all := Query(store.Log(), sid, Some(filter.(limit := 0)));
      SliceIsPage(all, filterLimit, offset);
      PageAt(all, filterLimit, offset);
    }
    if 0 < offset < |events| {
      events := events[offset..];
    } else if offset >= |events| {
      events := [];
    }
  }

  /** Fetching `limit + offset` elements and cutting off `offset` leaves the page. */
  lemma SliceIsPage<T>(all: seq<T>, limit: Int64, offset: Int64)
    requires limit > 0 && offset >= 0 && |all| <= MAX_INT64
    ensures var total := AddInt64(limit, offset);
            var fetched := if 0 < total < |all| then all[..total] else all;
            Page(all, limit, offset) ==
            if 0 < offset < |fetched| then fetched[offset..] else if offset >= |fetched| then [] else fetched
  {
  }

  lemma PageAt<T>(all: seq<T>, limit: nat, offset: nat)
    ensures |Page(all, limit, offset)| ==
            if |all| <= offset then 0 else if |all| - offset < limit then |all| - offset else limit
    ensures forall k :: 0 <= k < |Page(all, limit, offset)| ==> Page(all, limit, offset)[k] == all[offset + k]
  {
  }

  lemma {:induction false} LimitDoesNotSelect(log: seq<Event>, sid: SessionID, f: EventFilter)
    ensures Query(log, sid, Some(f)) == Query(log, sid, Some(f.(limit := 0)))
  {
    if log != [] {
      LimitDoesNotSelect(log[..|log| - 1], sid, f);
    }
  }

  lemma {:induction false} QueryIsNotLonger(log: seq<Event>, sid: SessionID, f: Option<EventFilter>)
    ensures |Query(log, sid, f)| <= |log|
  {
    if log != [] {
      QueryIsNotLonger(log[..|log| - 1], sid, f);
    }
  }

  /** The first `n` pages of size `limit`, one after the other. */
  function Pages<T>(all: seq<T>, limit: nat, n: nat): seq<T> {
    if n == 0 then [] else Pages(all, limit, n - 1) + Page(all, limit, (n - 1) * limit)
  }

  lemma {:induction false} PagesArePrefix<T>(all: seq<T>, limit: nat, n: nat)
    ensures Pages(all, limit, n) == if n * limit >= |all| then all else all[..n * limit]
  {
    if n > 0 {
      PagesArePrefix(all, limit, n - 1);
      var from := (n - 1) * limit;
      assert n * limit == from + limit;
    }
  }

  /** Pages at offsets 0, limit, 2 * limit, ... concatenate to the whole result. */
  lemma {:induction false} PagesCoverEverything<T>(all: seq<T>, limit: nat, n: nat)
    requires n * limit >= |all|
    ensures Pages(all, limit, n) == all
  {
    PagesArePrefix(all, limit, n);
  }
}
