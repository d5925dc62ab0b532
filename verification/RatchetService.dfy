/** The service over its stores. Each operation is proved to do to the stores what the
    function of the same name in Machine does to their contents, and to show its event store
    exactly the events of that function, whether the event store is absent, works, or fails. */
module RatchetService {
  import opened Domain
  import opened RuleTable
  import opened TokenStore
  import opened Sessions
  import opened Streaming
  import M = Machine
  import Config = ConfigLoader

  /** What an optional event store shows after some more events. */
  function Observe(sink: Option<Sink>, events: seq<Event>, fails: nat -> bool): Option<Sink> {
    match sink
    case None => None
    case Some(s) => Some(EmitAll(s, events, fails))
  }

  lemma ObserveAppend(sink: Option<Sink>, a: seq<Event>, b: seq<Event>, fails: nat -> bool)
    ensures Observe(sink, a + b, fails) == Observe(Observe(sink, a, fails), b, fails)
  {
    if sink.Some? {
      EmitAllAppend(sink.value, a, b, fails);
    }
  }

  lemma NothingToObserve(sink: Option<Sink>, fails: nat -> bool)
    ensures Observe(sink, [], fails) == sink
  {
  }

  class Service {
    const tokenStore: MemoryTokenStore
    const sessionStore: MemorySessionStore
    const eventStore: BroadcastingEventStore?
    var rules: seq<Rule>

    constructor (tokenStore: MemoryTokenStore, sessionStore: MemorySessionStore, eventStore: BroadcastingEventStore?)
      requires sessionStore.Valid() && tokenStore !in sessionStore.Repr
      requires eventStore != null ==> eventStore.Valid() && eventStore.Footprint() !! sessionStore.Repr
      ensures Valid()
      ensures this.tokenStore == tokenStore && this.sessionStore == sessionStore && this.eventStore == eventStore
      ensures View() == M.Core([], tokenStore.tokens, sessionStore.View())
    {
      this.tokenStore, this.sessionStore, this.eventStore, rules := tokenStore, sessionStore, eventStore, [];
    }

    ghost function Events(): set<object>
      reads this, eventStore, if eventStore == null then {} else {eventStore.base}
    {
      if eventStore == null then {} else eventStore.Footprint()
    }

    ghost predicate Valid()
      reads this, sessionStore, sessionStore.Repr, eventStore, if eventStore == null then {} else {eventStore.base}
    {
      && sessionStore.Valid()
      && this !in sessionStore.Repr && tokenStore !in sessionStore.Repr
      && (eventStore != null ==> eventStore.Valid())
      && Events() !! sessionStore.Repr
    }

    ghost function View(): M.Core
      requires Valid()
      reads this, tokenStore, sessionStore, sessionStore.Repr, eventStore
      reads if eventStore == null then {} else {eventStore.base}
    {
      M.Core(rules, tokenStore.tokens, sessionStore.View())
    }

    ghost function Faults(): nat -> bool {
      if eventStore == null then _ => false else eventStore.fails
    }

    ghost function Observed(): Option<Sink>
      requires Valid()
      reads this, sessionStore, sessionStore.Repr, eventStore, Events()
      reads if eventStore == null then {} else {eventStore.base}
    {
      if eventStore == null then None else Some(eventStore.View())
    }

    lemma ViewParts()
      requires Valid()
      ensures View().rules == rules && sessionStore.Valid() && View().sessions == sessionStore.View()
    {
    }

    /** A change inside the session store changes nothing else. */
    twostate lemma OnlySessionsChanged()
      requires old(Valid()) && sessionStore.Valid() && fresh(sessionStore.Repr - old(sessionStore.Repr))
      requires unchanged(this) && unchanged(tokenStore) && unchanged(old(Events()))
      ensures Valid() && Events() == old(Events()) && Observed() == old(Observed())
      ensures View() == old(View()).(sessions := sessionStore.View())
    {
    }

    /** Errors of the event store go no further than this. */
    method EmitEvent(kind: EventType, sid: SessionID, tool: ToolName, token: TokenValue, stamp: Time)
      requires Valid()
      modifies Events()
      ensures Valid() && fresh(Events() - old(Events()))
      ensures View() == old(View())
      ensures Observed() == Observe(old(Observed()), [Event(kind, sid, tool, token, stamp)], Faults())
    {
      if eventStore == null {
        return;
      }
      var e := Event(kind, sid, tool, token, stamp);
      var err := eventStore.Store(e);
      assert EmitAll(old(eventStore.View()), [e], eventStore.fails) ==
             Emit(old(eventStore.View()), e, eventStore.fails);
    }

    method FindRules(tool: ToolName) returns (matched: seq<Rule>)
      ensures matched == RuleTable.FindRules(rules, tool)
    {
      matched := [];
      for i := 0 to |rules|
        invariant matched == RuleTable.FindRules(rules[..i], tool)
      {
        assert rules[..i + 1][..i] == rules[..i];
        if rules[i].tool == tool {
          matched := matched + [rules[i]];
        }
      }
      assert rules[..|rules|] == rules;
    }

    method FindRule(tool: ToolName) returns (rule: Option<Rule>)
      ensures rule == RuleTable.FindRule(rules, tool)
    {
      for i := 0 to |rules|
        invariant RuleTable.FindRules(rules[..i], tool) == []
      {
        assert rules[..i + 1][..i] == rules[..i];
        if rules[i].tool == tool {
          assert rules == rules[..i + 1] + rules[i + 1..];
          FindRulesAppend(rules[..i + 1], rules[i + 1..], tool);
          return Some(rules[i]);
        }
      }
      assert rules[..|rules|] == rules;
      return None;
    }

    method RegisterRule(rule: Rule) returns (err: Option<Error>)
      modifies this`rules
      ensures err == if rule.tool == "" then Some(EmptyToolName)
                     else if rule.tool == rule.prerequisite then Some(SelfDependency)
                     else None
      ensures rules == if err.None? then old(rules) + [rule] else old(rules)
    {
      err := rule.Validate();
      if err.None? {
        rules := rules + [rule];
      }
    }

    /** Replaces the rules, but only by acceptable ones without cycles. */
    method LoadConfiguration(records: seq<Config.RuleConfig>) returns (r: Result<seq<Rule>>)
      modifies this`rules
      ensures r.Ok? ==>
                && rules == r.value && |rules| == |records| && !Config.Cyclic(rules)
                && forall i :: 0 <= i < |records| ==>
                     Config.Acceptable(records[i]) && Config.BuiltFrom(rules[i], records[i])
      ensures r.Err? ==>
                && rules == old(rules)
                && ((exists i :: 0 <= i < |records| && Config.Defect(records[i]) == Some(r.error))
                    || (r.error == CircularDependency
                        && exists built: seq<Rule> ::
                             && |built| == |records| && Config.Cyclic(built)
                             && forall i :: 0 <= i < |records| ==> Config.BuiltFrom(built[i], records[i])))
    {
      var loaded := Config.Load(records);
      if loaded.Err? {
        return loaded;
      }
      var err := Config.Validate(loaded.value);
      if err.Some? {
        return Err(err.value);
      }
      rules := loaded.value;
      return loaded;
    }

    method GetRequiredPrerequisite(tool: ToolName) returns (r: Result<ToolName>)
      ensures match RuleTable.FindRule(rules, tool)
              case Some(rule) => r == Ok(rule.prerequisite)
              case None => r == Err(NoRuleFound(tool))
    {
      var rule := FindRule(tool);
      if rule.None? {
        return Err(NoRuleFound(tool));
      }
      return Ok(rule.value.prerequisite);
    }

    /** The token is only logged. */
    method ValidateToolCall(sid: SessionID, tool: ToolName, token: TokenValue, now: Clock) returns (err: Option<Error>)
      requires Valid()
      modifies Events()
      ensures Valid() && fresh(Events() - old(Events()))
      ensures var o := M.ValidateToolCall(old(View()), sid, tool, token, now);
              && err == o.err && View() == o.core
              && Observed() == Observe(old(Observed()), o.events, Faults())
    {
      hide Valid, View, Observed, Faults, Observe, RuleTable.FindRules, M.Allowed, M.Rejection;
      EmitEvent(ToolCallAttempt, sid, tool, token, now(0));
      ViewParts();
      var matched := FindRules(tool);
      err := CheckRules(matched, sid, tool, now);
      var kind := if err.None? then ToolCallSuccess else ToolCallFailure;
      ghost var attempt := Event(ToolCallAttempt, sid, tool, token, now(0));
      ghost var outcome := Event(kind, sid, tool, token, now(|matched| + 1));
      EmitEvent(kind, sid, tool, token, now(|matched| + 1));
      ObserveAppend(old(Observed()), [attempt], [outcome], Faults());
      assert M.ValidateToolCall(old(View()), sid, tool, token, now).events == [attempt] + [outcome];
    }

    /** The decision of ValidateToolCall, without its events. */
    method CheckRules(matched: seq<Rule>, sid: SessionID, tool: ToolName, now: Clock) returns (err: Option<Error>)
      requires Valid() && matched == RuleTable.FindRules(rules, tool)
      ensures err == if M.Allowed(View(), sid, tool, now) then None else Some(M.Rejection(View(), sid, tool))
    {
      hide ValidValues, Entries;
      if |matched| == 0 {
        return None;
      }
      for i := 0 to |matched|
        invariant forall j :: 0 <= j < i ==> matched[j].prerequisite != ""
      {
        if matched[i].prerequisite == "" {
          return None;
        }
      }
      if sid == "" {
        return Some(M.OwnMessage(matched[0], SessionRequired(tool)));
      }
      var session := sessionStore.Get(sid);
      if session.None? {
        return Some(SessionNotFound);
      }
      ghost var c := View();
      var lastErr: Option<Error> := None;
      for i := 0 to |matched|
        invariant session.value.State() == c.sessions[sid]
        invariant forall j :: 0 <= j < i ==> !M.Satisfied(c, sid, matched[j], now(j + 1))
        invariant i > 0 ==> lastErr == Some(M.Complaint(c.sessions[sid], matched[i - 1]))
      {
        var rule := matched[i];
        var called := session.value.HasToolBeenCalled(rule.prerequisite);
        if !called {
          lastErr := Some(M.OwnMessage(rule, PrerequisiteNotCalled(rule.prerequisite)));
          continue;
        }
        var validTokens := tokenStore.GetValidTokens(sid, rule.prerequisite, now(i + 1));
        if |validTokens| == 0 {
          lastErr := Some(M.OwnMessage(rule, InvalidToken));
          continue;
        }
        assert M.Satisfied(c, sid, rule, now(i + 1));
        return None;
      }
      return lastErr;
    }

    /** The store part of IssueToken. */
    method StoreToken(sid: SessionID, tool: ToolName, token: TokenValue, expiry: Time)
      requires Valid()
      modifies tokenStore
      ensures Valid() && Observed() == old(Observed())
      ensures var before := old(View());
              View() == before.(stored := WithEntries(before.stored, sid, tool,
                                                      Entries(before.stored, sid, tool) + [Entry(token, expiry)]))
    {
      tokenStore.Store(sid, tool, token, expiry);
    }

    /** The session part of IssueToken: the token is added through a copy of the session. */
    method HoldToken(sid: SessionID, tool: ToolName, token: TokenValue) returns (err: Option<Error>)
      requires sessionStore.Valid()
      modifies sessionStore.Repr
      ensures sessionStore.Valid() && fresh(sessionStore.Repr - old(sessionStore.Repr))
      ensures var before := old(sessionStore.View());
              if sid !in before then err == Some(SessionNotFound) && sessionStore.View() == before
              else err == None && sessionStore.View() == before[sid := M.AddToken(before[sid], tool, token)]
    {
      var session := sessionStore.Get(sid);
      if session.None? {
        return Some(SessionNotFound);
      }
      session.value.AddToken(tool, token);
      sessionStore.SharedTokensReachOnlyTheirSession(session.value);
      sessionStore.Update(session.value);
      return None;
    }

    /** The store part of ConsumePrerequisiteToken: removes the last valid token, if there is
        one. With no other caller in between, the removal finds the token it was given. */
    method TakeNewest(sid: SessionID, tool: ToolName, now: Time) returns (taken: Option<TokenValue>)
      requires Valid()
      modifies tokenStore
      ensures Valid() && Observed() == old(Observed())
      ensures var before := old(View());
              var es := Entries(before.stored, sid, tool);
              var valid := ValidValues(es, now);
              if valid == [] then taken == None && View() == before
              else
                && taken == Some(valid[|valid| - 1])
                && View() == before.(stored := WithEntries(before.stored, sid, tool,
                                                           RemoveFirst(es, valid[|valid| - 1])))
    {
      hide ValidValues, RemoveFirst, Entries, WithEntries, Values;
      var validTokens := tokenStore.GetValidTokens(sid, tool, now);
      if |validTokens| == 0 {
        return None;
      }
      var lastToken := validTokens[|validTokens| - 1];
      ValidValuesAreValues(Entries(tokenStore.tokens, sid, tool), now, lastToken);
      var err := tokenStore.RemoveToken(sid, tool, lastToken);
      return Some(lastToken);
    }

    /** The session part of ConsumePrerequisiteToken: the last token is dropped unseen. */
    method DropToken(sid: SessionID, tool: ToolName) returns (err: Option<Error>)
      requires sessionStore.Valid()
      modifies sessionStore.Repr
      ensures sessionStore.Valid() && fresh(sessionStore.Repr - old(sessionStore.Repr))
      ensures var before := old(sessionStore.View());
              if sid !in before then err == Some(SessionNotFound) && sessionStore.View() == before
              else err == None && sessionStore.View() == before[sid := M.DropLast(before[sid], tool)]
    {
      var session := sessionStore.Get(sid);
      if session.None? {
        return Some(SessionNotFound);
      }
      var slots := session.value.tokens.slots;
      if tool in slots && |slots[tool]| > 0 {
        session.value.tokens.slots := slots[tool := slots[tool][..|slots[tool]| - 1]];
        sessionStore.SharedTokensReachOnlyTheirSession(session.value);
        assert session.value.State() == M.DropLast(old(sessionStore.View())[sid], tool);
        sessionStore.Update(session.value);
      }
      return None;
    }

    /** `gen` is the generator's answer. */
    method IssueToken(sid: SessionID, tool: ToolName, gen: Option<TokenValue>, now: Clock)
      returns (r: Result<TokenValue>)
      requires Valid()
      modifies tokenStore, sessionStore.Repr, Events()
      ensures Valid() && fresh(sessionStore.Repr - old(sessionStore.Repr)) && fresh(Events() - old(Events()))
      ensures var o := M.IssueToken(old(View()), sid, tool, gen, now);
              && View() == o.core && Observed() == Observe(old(Observed()), o.events, Faults())
              && r == match o.err { case None => Ok(gen.value) case Some(e) => Err(e) }
    {
      hide Valid, View, Observed, Faults, Entries, WithEntries, RuleTable.FindRules, M.AddToken;
      ViewParts();
      var rule := FindRule(tool);
      var expiry := DEFAULT_EXPIRY;
      if rule.Some? && rule.value.expiry > 0 {
        expiry := rule.value.expiry;
      }
      if gen.None? {
        return Err(GenerationFailed);
      }
      StoreToken(sid, tool, gen.value, now(0) + expiry);
      ViewParts();
      label stored:
      var err := HoldToken(sid, tool, gen.value);
      OnlySessionsChanged@stored();
      ghost var issued := M.IssueToken(old(View()), sid, tool, gen, now);
      assert View() == issued.core;
      if err.Some? {
        return Err(err.value);
      }
      EmitEvent(TokenCreated, sid, tool, gen.value, now(1));
      return Ok(gen.value);
    }

    method ConsumePrerequisiteToken(sid: SessionID, tool: ToolName, now: Clock) returns (err: Option<Error>)
      requires Valid()
      modifies tokenStore, sessionStore.Repr, Events()
      ensures Valid() && fresh(sessionStore.Repr - old(sessionStore.Repr)) && fresh(Events() - old(Events()))
      ensures var o := M.ConsumePrerequisiteToken(old(View()), sid, tool, now);
              err == o.err && View() == o.core && Observed() == Observe(old(Observed()), o.events, Faults())
    {
      hide Valid, View, Observed, Faults, Observe, ValidValues, RemoveFirst, Entries, WithEntries, RuleTable.FindRules,
           M.DropLast;
      NothingToObserve(Observed(), Faults());
      ViewParts();
      var rule := FindRule(tool);
      if rule.None? || rule.value.prerequisite == "" || !rule.value.oneTimeUse {
        return None;
      }
      var prerequisite := rule.value.prerequisite;
      var lastToken := TakeNewest(sid, prerequisite, now(0));
      if lastToken.None? {
        return None;
      }
      EmitEvent(TokenConsumed, sid, prerequisite, lastToken.value, now(1));
      ViewParts();
      label emitted:
      err := DropToken(sid, prerequisite);
      OnlySessionsChanged@emitted();
      ghost var consumed := M.ConsumePrerequisiteToken(old(View()), sid, tool, now);
      assert View() == consumed.core;
    }

    /** The part of CreateSession for an id not in use, so that Create finds it free. */
    method AddSession(sid: SessionID) returns (session: Session)
      requires Valid() && sid !in View().sessions
      modifies sessionStore
      ensures Valid() && fresh(sessionStore.Repr - old(sessionStore.Repr))
      ensures Observed() == old(Observed()) && Events() == old(Events())
      ensures View() == old(View()).(sessions := old(View()).sessions[sid := NEW_SESSION])
      ensures fresh(session) && sid in sessionStore.sessions && sessionStore.sessions[sid] == session
    {
      session := new Session(sid);
      var err := sessionStore.Create(session);
      OnlySessionsChanged();
    }

    /** Returns the session there is, or a new one. */
    method CreateSession(sid: SessionID, now: Clock) returns (session: Session)
      requires Valid()
      modifies sessionStore.Repr, Events()
      ensures Valid() && fresh(sessionStore.Repr - old(sessionStore.Repr)) && fresh(Events() - old(Events()))
      ensures var o := M.CreateSession(old(View()), sid, now);
              View() == o.core && Observed() == Observe(old(Observed()), o.events, Faults())
      ensures fresh(session) && sid in View().sessions && session.State() == View().sessions[sid]
    {
      var existing := sessionStore.Get(sid);
      if existing.Some? {
        return existing.value;
      }
      session := AddSession(sid);
      EmitEvent(SessionCreated, sid, "", "", now(0));
    }
  }
}
