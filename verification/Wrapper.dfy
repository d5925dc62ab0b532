/** The wrapper that puts a tool handler under the ratchet: one tool call, step by step. */
module Wrapper {
  import opened Domain
  import opened Sessions
  import opened RatchetService
  import M = Machine

  /** `handlerSucceeds` stands for the handler. Once it has succeeded the call succeeds: what
      goes wrong while consuming, issuing and recording is only logged. */
  method WrapWithRatchet(ratchet: Service, sessionStore: MemorySessionStore, k: M.Call) returns (verdict: M.Verdict)
    requires ratchet.Valid() && ratchet.sessionStore == sessionStore
    modifies ratchet.tokenStore, sessionStore.Repr, ratchet.Events()
    ensures ratchet.Valid()
    ensures fresh(sessionStore.Repr - old(sessionStore.Repr)) && fresh(ratchet.Events() - old(ratchet.Events()))
    ensures var o := M.WrappedCall(old(ratchet.View()), k);
            && verdict == o.verdict && ratchet.View() == o.core
            && ratchet.Observed() == Observe(old(ratchet.Observed()), o.events, ratchet.Faults())
  {
    hide Service.Valid, Service.View, Service.Observed, Service.Faults, Observe,
         M.CreateSession, M.ValidateToolCall, M.ConsumePrerequisiteToken, M.IssueToken, M.RecordToolCall, TokensOf;
    ratchet.ViewParts();
    ghost var start := ratchet.View();
    ghost var sink := ratchet.Observed();
    ghost var fails := ratchet.Faults();
    var token := PresentedToken(ratchet, sessionStore, k);
    ghost var created := M.CreateSession(start, k.sid, k.createAt);
    var err := ratchet.ValidateToolCall(k.sid, k.tool, token, k.validateAt);
    ghost var checked := M.ValidateToolCall(created.core, k.sid, k.tool, token, k.validateAt);
    ObserveAppend(sink, created.events, checked.events, fails);
    if err.Some? {
      return M.Rejected(err.value);
    }
    if !k.handlerSucceeds {
      return M.HandlerFailed;
    }
    err := ratchet.ConsumePrerequisiteToken(k.sid, k.tool, k.consumeAt);
    ghost var consumed := M.ConsumePrerequisiteToken(checked.core, k.sid, k.tool, k.consumeAt);
    ObserveAppend(sink, created.events + checked.events, consumed.events, fails);
    var token' := ratchet.IssueToken(k.sid, k.tool, k.gen, k.issueAt);
    ghost var issued := M.IssueToken(consumed.core, k.sid, k.tool, k.gen, k.issueAt);
    ObserveAppend(sink, created.events + checked.events + consumed.events, issued.events, fails);
    err := Record(ratchet, sessionStore, k.sid, k.tool);
    return M.Succeeded;
  }

  /** Gets or creates the session, and reads the newest token it holds for the tool. */
  method PresentedToken(ratchet: Service, sessionStore: MemorySessionStore, k: M.Call) returns (token: TokenValue)
    requires ratchet.Valid() && ratchet.sessionStore == sessionStore
    modifies sessionStore.Repr, ratchet.Events()
    ensures ratchet.Valid()
    ensures fresh(sessionStore.Repr - old(sessionStore.Repr)) && fresh(ratchet.Events() - old(ratchet.Events()))
    ensures token == M.PresentedToken(old(ratchet.View()), k.sid, k.tool)
    ensures var o := M.CreateSession(old(ratchet.View()), k.sid, k.createAt);
            && ratchet.View() == o.core
            && ratchet.Observed() == Observe(old(ratchet.Observed()), o.events, ratchet.Faults())
  {
    hide Service.Valid, Service.View, Service.Observed, Service.Faults;
    ratchet.ViewParts();
    var found := sessionStore.Get(k.sid);
    var s: Session;
    if found.Some? {
      s := found.value;
    } else {
      s := ratchet.CreateSession(k.sid, k.createAt);
    }
    var held := if k.tool in s.tokens.slots then s.tokens.slots[k.tool] else [];
    token := if |held| > 0 then held[|held| - 1] else "";
  }

  /** Re-reads the session and stores it again with the tool in its history. */
  method Record(ratchet: Service, sessionStore: MemorySessionStore, sid: SessionID, tool: ToolName)
    returns (err: Option<Error>)
    requires ratchet.Valid() && ratchet.sessionStore == sessionStore
    modifies sessionStore
    ensures ratchet.Valid() && fresh(sessionStore.Repr - old(sessionStore.Repr))
    ensures ratchet.Events() == old(ratchet.Events()) && ratchet.Observed() == old(ratchet.Observed())
    ensures var o := M.RecordToolCall(old(ratchet.View()), sid, tool);
            ratchet.View() == o.core && err == o.err
  {
    hide Service.Valid, Service.View, Service.Observed, Service.Faults;
    ratchet.ViewParts();
    err := RecordInStore(sessionStore, sid, tool);
    ratchet.OnlySessionsChanged();
  }

  method RecordInStore(sessionStore: MemorySessionStore, sid: SessionID, tool: ToolName) returns (err: Option<Error>)
    requires sessionStore.Valid()
    modifies sessionStore
    ensures sessionStore.Valid() && fresh(sessionStore.Repr - old(sessionStore.Repr))
    ensures var before := old(sessionStore.View());
            if sid !in before then err == Some(SessionNotFound) && sessionStore.View() == before
            else
              && err == None
              && sessionStore.View() == before[sid := before[sid].(history := before[sid].history + [tool])]
  {
    var s := sessionStore.Get(sid);
    if s.None? {
      return Some(SessionNotFound);
    }
    s.value.RecordToolCall(tool);
    sessionStore.Update(s.value);
    return None;
  }
}
