/** Sessions and the in-memory session store. Reading a session gives a shallow copy:
    its history is its own, its token map is the very object the store holds. */
module Sessions {
  import opened Domain
  import opened Collections

  /** What a session says, without the objects that carry it. */
  datatype SessionState = SessionState(tokens: map<ToolName, seq<TokenValue>>, history: seq<ToolName>)

  const NEW_SESSION := SessionState(map[], [])

  function TokensOf(s: SessionState, tool: ToolName): seq<TokenValue> {
    if tool in s.tokens then s.tokens[tool] else []
  }

  /** The token map of a session, shared by all its copies. */
  class TokenMap {
    var slots: map<ToolName, seq<TokenValue>>

    constructor ()
      ensures slots == map[]
    {
      slots := map[];
    }
  }

  class Session {
    const id: SessionID
    const tokens: TokenMap
    var toolHistory: seq<ToolName>

    /** A session with an empty history and a token map of its own. */
    constructor (id: SessionID)
      ensures this.id == id && fresh(tokens) && State() == NEW_SESSION
    {
      this.id := id;
      tokens := new TokenMap();
      toolHistory := [];
    }

    /** A copy that shares `tokens`. */
    constructor Copy(id: SessionID, tokens: TokenMap, toolHistory: seq<ToolName>)
      ensures this.id == id && this.tokens == tokens && this.toolHistory == toolHistory
    {
      this.id, this.tokens, this.toolHistory := id, tokens, toolHistory;
    }

    ghost function State(): SessionState
      reads this, tokens
    {
      SessionState(tokens.slots, toolHistory)
    }

    method RecordToolCall(tool: ToolName)
      modifies this
      ensures toolHistory == old(toolHistory) + [tool]
    {
      toolHistory := toolHistory + [tool];
    }

    /** Appends to the shared token map. */
    method AddToken(tool: ToolName, token: TokenValue)
      modifies tokens
      ensures tokens.slots == old(tokens.slots)[tool := TokensOf(old(State()), tool) + [token]]
    {
      var held := if tool in tokens.slots then tokens.slots[tool] else [];
      tokens.slots := tokens.slots[tool := held + [token]];
    }

    /** Takes the first occurrence of the token out of the shared map, if there is one. */
    method RemoveToken(tool: ToolName, token: TokenValue)
      modifies tokens
      ensures forall t :: TokensOf(State(), t) ==
                          if t == tool then Without(TokensOf(old(State()), t), token) else TokensOf(old(State()), t)
    {
      var held := if tool in tokens.slots then tokens.slots[tool] else [];
      for i := 0 to |held|
        invariant token !in held[..i]
        invariant tokens.slots == old(tokens.slots)
      {
        if held[i] == token {
          WithoutAt(held, token, i);
          tokens.slots := tokens.slots[tool := held[..i] + held[i + 1..]];
          return;
        }
      }
      WithoutAbsent(held, token);
    }

    method HasToolBeenCalled(tool: ToolName) returns (called: bool)
      ensures called <==> tool in State().history
    {
      called := tool in toolHistory;
    }

    method HasValidToken(tool: ToolName, token: TokenValue) returns (held: bool)
      ensures held <==> token in TokensOf(State(), tool)
    {
      held := tool in tokens.slots && token in tokens.slots[tool];
    }
  }

  class MemorySessionStore {
    var sessions: map<SessionID, Session>
    ghost var Repr: set<object>

    constructor ()
      ensures Valid() && fresh(Repr) && View() == map[]
    {
      sessions := map[];
      Repr := {this};
    }

    /** Sessions are stored under their own id, and no two share a token map. */
    ghost predicate Valid()
      reads this, Repr
      ensures Valid() ==> this in Repr
    {
      && this in Repr
      && (forall id :: id in sessions ==>
            sessions[id] in Repr && sessions[id].tokens in Repr && sessions[id].id == id)
      && (forall a, b :: a in sessions && b in sessions && a != b ==> sessions[a].tokens != sessions[b].tokens)
    }

    ghost function View(): map<SessionID, SessionState>
      requires Valid()
      reads this, Repr
    {
      map id | id in sessions :: SessionState(sessions[id].tokens.slots, sessions[id].toolHistory)
    }

    /** Fails, changing nothing, when the id is taken. */
    method Create(session: Session) returns (err: Option<Error>)
      requires Valid()
      requires forall id :: id in sessions ==> sessions[id].tokens != session.tokens
      modifies this
      ensures Valid() && Repr <= old(Repr) + {session, session.tokens}
      ensures err == if session.id in old(View()) then Some(SessionAlreadyExists) else None
      ensures View() == if err.None? then old(View())[session.id := session.State()] else old(View())
      ensures err.None? ==> sessions == old(sessions)[session.id := session]
    {
      if session.id in sessions {
        return Some(SessionAlreadyExists);
      }
      sessions := sessions[session.id := session];
      Repr := Repr + {session, session.tokens};
      return None;
    }

    /** A new object with the stored history, aliasing the stored token map. */
    method Get(id: SessionID) returns (r: Option<Session>)
      requires Valid()
      ensures r.Some? <==> id in View()
      ensures r.Some? ==> && fresh(r.value) && r.value.id == id
                          && r.value.tokens == sessions[id].tokens && r.value.State() == View()[id]
    {
      if id !in sessions {
        return None;
      }
      var copy := new Session.Copy(id, sessions[id].tokens, sessions[id].toolHistory);
      return Some(copy);
    }

    /** Stores the session under its id; the session before it may have shared its tokens. */
    method Update(session: Session)
      requires Valid()
      requires forall id :: id in sessions && id != session.id ==> sessions[id].tokens != session.tokens
      modifies this
      ensures sessions == old(sessions)[session.id := session]
      ensures Valid() && Repr == old(Repr) + {session, session.tokens}
      ensures View() == old(View())[session.id := session.State()]
    {
      sessions := sessions[session.id := session];
      Repr := Repr + {session, session.tokens};
      assert forall id :: id in old(sessions) ==>
               old(sessions[id]) in old(Repr) && old(sessions[id]).tokens in old(Repr);
    }

    /** Adding a token through a copy reaches the stored session before any update, and no
        other session. */
    twostate lemma SharedTokensReachOnlyTheirSession(new copy: Session)
      requires old(Valid()) && unchanged(this)
      requires copy.id in sessions && copy.tokens == sessions[copy.id].tokens
      requires forall o :: o in old(Repr) && o != copy.tokens ==> unchanged(o)
      ensures Valid()
      ensures View() == old(View())[copy.id := SessionState(copy.tokens.slots, old(View())[copy.id].history)]
    {
    }
  }
}
