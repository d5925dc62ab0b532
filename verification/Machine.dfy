/** The ratchet as a state machine on values: what each service operation, and each wrapped
    tool call, does to rules, stored tokens and sessions, and which events it emits. The
    classes of RatchetService and Wrapper are proved to behave as these functions. */
module Machine {
  import opened Domain
  import opened RuleTable
  import opened TokenStore
  import opened Sessions

  datatype Core = Core(
    rules: seq<Rule>,
    stored: Stored,
    sessions: map<SessionID, SessionState>)

  function Fresh(rules: seq<Rule>): Core {
    Core(rules, map[], map[])
  }

  datatype Outcome = Outcome(core: Core, err: Option<Error>, events: seq<Event>)

  // ------------------------------------------------------------ ValidateToolCall

  /** Rule `r`, checked at time `at`: its prerequisite was called and has a live token. */
  ghost predicate Satisfied(c: Core, sid: SessionID, r: Rule, at: Time)
    requires sid in c.sessions
  {
    && r.prerequisite in c.sessions[sid].history
    && ValidValues(Entries(c.stored, sid, r.prerequisite), at) != []
  }

  /** The i-th rule of a tool is checked at `now(i + 1)`; `now(0)` stamps the attempt. */
  ghost predicate Allowed(c: Core, sid: SessionID, tool: ToolName, now: Clock) {
    var rules := FindRules(c.rules, tool);
    || Ungated(c.rules, tool)
    || (sid != "" && sid in c.sessions
        && exists i :: 0 <= i < |rules| && Satisfied(c, sid, rules[i], now(i + 1)))
  }

  function OwnMessage(r: Rule, otherwise: Error): Error {
    if r.errorMessage != "" then Message(r.errorMessage) else otherwise
  }

  /** What an unsatisfied rule complains about. */
  function Complaint(s: SessionState, r: Rule): Error {
    if r.prerequisite !in s.history then OwnMessage(r, PrerequisiteNotCalled(r.prerequisite))
    else OwnMessage(r, InvalidToken)
  }

  /** The error of a rejected call: without a session id the first rule speaks, otherwise
      the last one. (A tool without rules is never rejected.) */
  function Rejection(c: Core, sid: SessionID, tool: ToolName): Error {
    var rules := FindRules(c.rules, tool);
    if rules == [] then InvalidToken
    else if sid == "" then OwnMessage(rules[0], SessionRequired(tool))
    else if sid !in c.sessions then SessionNotFound
    else Complaint(c.sessions[sid], rules[|rules| - 1])
  }

  ghost function ValidateToolCall(c: Core, sid: SessionID, tool: ToolName, token: TokenValue, now: Clock): Outcome {
    var allowed := Allowed(c, sid, tool, now);
    Outcome(
      c,
      if allowed then None else Some(Rejection(c, sid, tool)),
      [Event(ToolCallAttempt, sid, tool, token, now(0)),
       Event(if allowed then ToolCallSuccess else ToolCallFailure, sid, tool, token,
             now(|FindRules(c.rules, tool)| + 1))])
  }

  // ------------------------------------------------------------ the other operations

  function CreateSession(c: Core, sid: SessionID, now: Clock): Outcome {
    if sid in c.sessions then Outcome(c, None, [])
    else Outcome(c.(sessions := c.sessions[sid := NEW_SESSION]), None, [Event(SessionCreated, sid, "", "", now(0))])
  }

  function AddToken(s: SessionState, tool: ToolName, token: TokenValue): SessionState {
    s.(tokens := s.tokens[tool := TokensOf(s, tool) + [token]])
  }

  /** `gen` is what the generator returned. The token is stored before the session is looked
      up, so a missing session leaves a stored token behind an error. */
  function IssueToken(c: Core, sid: SessionID, tool: ToolName, gen: Option<TokenValue>, now: Clock): Outcome {
    if gen.None? then Outcome(c, Some(GenerationFailed), [])
    else
      var entry := Entry(gen.value, now(0) + Lifetime(c.rules, tool));
      var stored := WithEntries(c.stored, sid, tool, Entries(c.stored, sid, tool) + [entry]);
      if sid !in c.sessions then Outcome(c.(stored := stored), Some(SessionNotFound), [])
      else
        var s := AddToken(c.sessions[sid], tool, gen.value);
        Outcome(c.(stored := stored, sessions := c.sessions[sid := s]), None,
                [Event(TokenCreated, sid, tool, gen.value, now(1))])
  }

  /** Drops the last token of a session's list, without looking at which token it is. */
  function DropLast(s: SessionState, tool: ToolName): SessionState {
    var held := TokensOf(s, tool);
    if held == [] then s else s.(tokens := s.tokens[tool := held[..|held| - 1]])
  }

  function ConsumePrerequisiteToken(c: Core, sid: SessionID, tool: ToolName, now: Clock): Outcome {
    match ConsumedPrerequisite(c.rules, tool)
    case None => Outcome(c, None, [])
    case Some(prerequisite) =>
      var entries := Entries(c.stored, sid, prerequisite);
      var valid := ValidValues(entries, now(0));
      if valid == [] then Outcome(c, None, [])
      else
        var last := valid[|valid| - 1];
        var c' := c.(stored := WithEntries(c.stored, sid, prerequisite, RemoveFirst(entries, last)));
        var event := Event(TokenConsumed, sid, prerequisite, last, now(1));
        if sid !in c.sessions then Outcome(c', Some(SessionNotFound), [event])
        else Outcome(c'.(sessions := c.sessions[sid := DropLast(c.sessions[sid], prerequisite)]), None, [event])
  }

  /** The caller's last step: the tool enters the history of the session. */
  function RecordToolCall(c: Core, sid: SessionID, tool: ToolName): Outcome {
    if sid !in c.sessions then Outcome(c, Some(SessionNotFound), [])
    else
      var s := c.sessions[sid];
      Outcome(c.(sessions := c.sessions[sid := s.(history := s.history + [tool])]), None, [])
  }

  datatype Op =
    | Create(sid: SessionID, now: Clock)
    | Validate(sid: SessionID, tool: ToolName, token: TokenValue, now: Clock)
    | Consume(sid: SessionID, tool: ToolName, now: Clock)
    | Issue(sid: SessionID, tool: ToolName, gen: Option<TokenValue>, now: Clock)
    | Record(sid: SessionID, tool: ToolName)

  ghost function Step(c: Core, op: Op): Outcome {
    match op
    case Create(sid, now) => CreateSession(c, sid, now)
    case Validate(sid, tool, token, now) => ValidateToolCall(c, sid, tool, token, now)
    case Consume(sid, tool, now) => ConsumePrerequisiteToken(c, sid, tool, now)
    case Issue(sid, tool, gen, now) => IssueToken(c, sid, tool, gen, now)
    case Record(sid, tool) => RecordToolCall(c, sid, tool)
  }

  // ------------------------------------------------------------ one wrapped tool call

  /** The inputs of a wrapped call: the session and tool, the clock readings of each of its
      steps, how the handler ends, and what the token generator returns. */
  datatype Call = Call(
    sid: SessionID,
    tool: ToolName,
    createAt: Clock,
    validateAt: Clock,
    handlerSucceeds: bool,
    consumeAt: Clock,
    gen: Option<TokenValue>,
    issueAt: Clock)

  datatype Verdict = Rejected(error: Error) | HandlerFailed | Succeeded

  datatype CallOutcome = CallOutcome(core: Core, verdict: Verdict, events: seq<Event>)

  /** The newest token the session holds for its tool, which is only logged. */
  function PresentedToken(c: Core, sid: SessionID, tool: ToolName): TokenValue {
    var held := if sid in c.sessions then TokensOf(c.sessions[sid], tool) else [];
    if held == [] then "" else held[|held| - 1]
  }

  ghost function WrappedCall(c: Core, k: Call): CallOutcome {
    var created := CreateSession(c, k.sid, k.createAt);
    var checked := ValidateToolCall(created.core, k.sid, k.tool, PresentedToken(c, k.sid, k.tool), k.validateAt);
    var events := created.events + checked.events;
    if checked.err.Some? then CallOutcome(checked.core, Rejected(checked.err.value), events)
    else if !k.handlerSucceeds then CallOutcome(checked.core, HandlerFailed, events)
    else
      var consumed := ConsumePrerequisiteToken(checked.core, k.sid, k.tool, k.consumeAt);
      var issued := IssueToken(consumed.core, k.sid, k.tool, k.gen, k.issueAt);
      var recorded := RecordToolCall(issued.core, k.sid, k.tool);
      CallOutcome(recorded.core, Succeeded, events + consumed.events + issued.events)
  }
}
