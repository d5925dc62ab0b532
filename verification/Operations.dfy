/** What the operations do, read off the registered rules, the stored entries and the sessions:
    which entry an issue adds, which one a consume step removes, and which events tell of it. */
module Operations {
  import opened Domain
  import opened RuleTable
  import opened TokenStore
  import opened Sessions
  import opened Machine

  /** All stored lists but that of `sid` and `tool` are the same. */
  ghost predicate OtherListsKept(c: Core, d: Core, sid: SessionID, tool: ToolName) {
    forall s, t :: s != sid || t != tool ==> Entries(d.stored, s, t) == Entries(c.stored, s, t)
  }

  /** Rules, all other sessions, and the history and other token lists of `sid` are the same. */
  ghost predicate OtherTokensKept(c: Core, d: Core, sid: SessionID, tool: ToolName) {
    && d.rules == c.rules && d.sessions.Keys == c.sessions.Keys
    && (forall s :: s in c.sessions && s != sid ==> d.sessions[s] == c.sessions[s])
    && (sid in c.sessions ==>
          && d.sessions[sid].history == c.sessions[sid].history
          && forall t :: t != tool ==> TokensOf(d.sessions[sid], t) == TokensOf(c.sessions[sid], t))
  }

  // ------------------------------------------------------------ issuing

  /** An issued token is appended to its list, and expires after the expiry of the first rule of
      its tool when that is positive, otherwise after five minutes. */
  lemma IssueAppends(c: Core, sid: SessionID, tool: ToolName, token: TokenValue, now: Clock)
    ensures var d := IssueToken(c, sid, tool, Some(token), now).core;
            var es, es' := Entries(c.stored, sid, tool), Entries(d.stored, sid, tool);
            && |es'| == |es| + 1 && es'[..|es|] == es && es'[|es|].value == token
            && (forall i :: IsFirst(c.rules, i, tool) ==>
                  es'[|es|].expires == now(0) + if c.rules[i].expiry > 0 then c.rules[i].expiry else 300_000_000_000)
            && (!HasRule(c.rules, tool) ==> es'[|es|].expires == now(0) + 300_000_000_000)
            && OtherListsKept(c, d, sid, tool)
  {
    LifetimeOfFirstRule(c.rules, tool);
    hide Lifetime, Entries, WithEntries, AddToken;
    var es := Entries(c.stored, sid, tool) + [Entry(token, now(0) + Lifetime(c.rules, tool))];
    forall s, t {
      EntriesElsewhere(c.stored, sid, tool, es, s, t);
    }
  }

  /** An existing session holds the token too, and the event tells of it; without a session the
      stored token is left behind an error, and nothing tells of it. Without a token nothing
      happens but the error. */
  lemma IssueTells(c: Core, sid: SessionID, tool: ToolName, token: TokenValue, now: Clock)
    ensures var o := IssueToken(c, sid, tool, Some(token), now);
            && OtherTokensKept(c, o.core, sid, tool)
            && if sid in c.sessions then
                 && o.err == None && o.events == [Event(TokenCreated, sid, tool, token, now(1))]
                 && TokensOf(o.core.sessions[sid], tool) == TokensOf(c.sessions[sid], tool) + [token]
               else o.err == Some(SessionNotFound) && o.events == []
    ensures IssueToken(c, sid, tool, None, now) == Outcome(c, Some(GenerationFailed), [])
  {
    hide Lifetime, Entries, WithEntries;
  }

  // ------------------------------------------------------------ consuming

  /** The last entry not yet expired. */
  ghost predicate IsNewest(es: seq<Entry>, i: int, now: Time) {
    0 <= i < |es| && now < es[i].expires && forall j :: i < j < |es| ==> es[j].expires <= now
  }

  lemma {:induction false} NewestValue(es: seq<Entry>, now: Time, i: int)
    requires IsNewest(es, i, now)
    ensures ValidValues(es, now) != [] && ValidValues(es, now)[|ValidValues(es, now)| - 1] == es[i].value
    decreases |es|
  {
    if i < |es| - 1 {
      NewestValue(es[..|es| - 1], now, i);
    }
  }

  lemma FirstOccurrence(es: seq<Entry>, v: TokenValue, i: nat) returns (first: nat)
    requires i < |es| && es[i].value == v
    ensures first <= i && es[first].value == v && forall j :: 0 <= j < first ==> es[j].value != v
  {
    first := 0;
    while es[first].value != v
      invariant first <= i && forall j :: 0 <= j < first ==> es[j].value != v
      decreases i - first
    {
      first := first + 1;
    }
  }

  /** A tool whose first rule is one-time on `p` takes the newest live token of `p`: the first
      entry with its value goes, the list is one shorter, and all others stay. */
  lemma ConsumeTakesTheNewest(c: Core, sid: SessionID, tool: ToolName, p: ToolName, now: Clock, newest: nat)
    returns (gone: nat)
    requires UsesUp(c.rules, tool, p) && IsNewest(Entries(c.stored, sid, p), newest, now(0))
    ensures var d, es := ConsumePrerequisiteToken(c, sid, tool, now).core, Entries(c.stored, sid, p);
            && gone <= newest && es[gone].value == es[newest].value
            && (forall j :: 0 <= j < gone ==> es[j].value != es[newest].value)
            && Entries(d.stored, sid, p) == es[..gone] + es[gone + 1..]
            && |Entries(d.stored, sid, p)| == |es| - 1
            && OtherListsKept(c, d, sid, p)
  {
    ConsumedPrerequisiteIff(c.rules, tool, p);
    hide ConsumedPrerequisite, Entries, WithEntries, ValidValues, UsesUp, RemoveFirst, DropLast;
    var es := Entries(c.stored, sid, p);
    NewestValue(es, now(0), newest);
    gone := FirstOccurrence(es, es[newest].value, newest);
    RemoveFirstAt(es, es[newest].value, gone);
    forall s, t {
      EntriesElsewhere(c.stored, sid, p, RemoveFirst(es, es[newest].value), s, t);
    }
  }

  /** The event names the token taken; a session that exists loses the last token of its list. */
  lemma ConsumeTells(c: Core, sid: SessionID, tool: ToolName, p: ToolName, now: Clock, newest: nat)
    requires UsesUp(c.rules, tool, p) && IsNewest(Entries(c.stored, sid, p), newest, now(0))
    ensures var o, es := ConsumePrerequisiteToken(c, sid, tool, now), Entries(c.stored, sid, p);
            && o.events == [Event(TokenConsumed, sid, p, es[newest].value, now(1))]
            && OtherTokensKept(c, o.core, sid, p)
            && if sid in c.sessions then
                 && o.err == None
                 && var held := TokensOf(c.sessions[sid], p);
                    TokensOf(o.core.sessions[sid], p) == if held == [] then [] else held[..|held| - 1]
               else o.err == Some(SessionNotFound)
  {
    ConsumedPrerequisiteIff(c.rules, tool, p);
    NewestValue(Entries(c.stored, sid, p), now(0), newest);
    hide ConsumedPrerequisite, Entries, WithEntries, ValidValues, UsesUp, RemoveFirst;
  }

  /** Without a one-time first rule, or without a live token of its prerequisite, nothing happens
      and that is no error. */
  lemma ConsumeMayDoNothing(c: Core, sid: SessionID, tool: ToolName, now: Clock)
    requires forall p :: UsesUp(c.rules, tool, p) ==> forall i :: !IsNewest(Entries(c.stored, sid, p), i, now(0))
    ensures ConsumePrerequisiteToken(c, sid, tool, now) == Outcome(c, None, [])
  {
    hide ConsumedPrerequisite, Entries, UsesUp, IsNewest, ValidValues;
    var needed := ConsumedPrerequisite(c.rules, tool);
    if needed.Some? {
      ConsumedPrerequisiteIff(c.rules, tool, needed.value);
      if ValidValues(Entries(c.stored, sid, needed.value), now(0)) != [] {
        var i := SomeNewest(Entries(c.stored, sid, needed.value), now(0));
        assert false;
      }
    }
  }

  lemma SomeNewest(es: seq<Entry>, now: Time) returns (i: nat)
    requires ValidValues(es, now) != []
    ensures IsNewest(es, i, now)
  {
    i := |es| - 1;
    if es[i].expires <= now {
      i := SomeNewest(es[..i], now);
    }
  }

  // ------------------------------------------------------------ creating, presenting, recording

  /** Recording appends the tool to the history of an existing session, and changes nothing else. */
  lemma RecordAppends(c: Core, sid: SessionID, tool: ToolName)
    ensures var o := RecordToolCall(c, sid, tool);
            && o.core.stored == c.stored && o.core.rules == c.rules && o.events == []
            && o.core.sessions.Keys == c.sessions.Keys
            && (forall s :: s in c.sessions && s != sid ==> o.core.sessions[s] == c.sessions[s])
            && if sid in c.sessions then
                 && o.err == None && o.core.sessions[sid].history == c.sessions[sid].history + [tool]
                 && forall t :: TokensOf(o.core.sessions[sid], t) == TokensOf(c.sessions[sid], t)
               else o.err == Some(SessionNotFound)
  {
  }

  /** A session is created only where there is none; it has no history and no tokens. */
  lemma CreateAddsAnEmptySession(c: Core, sid: SessionID, now: Clock)
    ensures var o := CreateSession(c, sid, now);
            && o.err == None && o.core.rules == c.rules && o.core.stored == c.stored
            && (sid in c.sessions ==> o.core.sessions == c.sessions && o.events == [])
            && (sid !in c.sessions ==>
                  && o.events == [Event(SessionCreated, sid, "", "", now(0))]
                  && o.core.sessions.Keys == c.sessions.Keys + {sid}
                  && (forall s :: s in c.sessions ==> o.core.sessions[s] == c.sessions[s])
                  && o.core.sessions[sid].history == [] && forall t :: TokensOf(o.core.sessions[sid], t) == [])
  {
  }

  /** A wrapped call presents the newest token its session holds for the tool; its validation logs
      the attempt and the decision, each with session, tool, presented token and its own time. */
  lemma CallsAreLogged(c: Core, k: Call)
    ensures var o := WrappedCall(c, k);
            var held := if k.sid in c.sessions then TokensOf(c.sessions[k.sid], k.tool) else [];
            var token := if held == [] then "" else held[|held| - 1];
            var at := if k.sid in c.sessions then 0 else 1;
            && |o.events| >= at + 2
            && (at == 1 ==> o.events[0] == Event(SessionCreated, k.sid, "", "", k.createAt(0)))
            && o.events[at] == Event(ToolCallAttempt, k.sid, k.tool, token, k.validateAt(0))
            && o.events[at + 1] ==
               Event(if o.verdict.Rejected? then ToolCallFailure else ToolCallSuccess, k.sid, k.tool, token,
                     k.validateAt(|FindRules(c.rules, k.tool)| + 1))
            && (!o.verdict.Succeeded? ==> |o.events| == at + 2)
  {
    hide Allowed, Rejection, ConsumePrerequisiteToken, IssueToken, RecordToolCall;
  }
}
