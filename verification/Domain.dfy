/** The values every component shares: names, time, rules, events and errors. */
module Domain {
  type ToolName = string
  type SessionID = string
  type TokenValue = string
  type Connection = nat

  /** Points in time and durations, in nanoseconds. */
  type Time = int

  /** The readings one operation takes from the clock. Each place that reads the
      clock has a label; `now(k)` is what the reading labelled `k` returned. */
  type Clock = nat -> Time

  /** Token lifetime when the rule does not give a positive one: five minutes. */
  const DEFAULT_EXPIRY: Time := 300_000_000_000

  datatype Option<+T> = None | Some(value: T)

  datatype Result<+T> = Ok(value: T) | Err(error: Error)

  /** Error kinds; the wording that wraps them is not modelled. */
  datatype Error =
    | EmptyToolName
    | SelfDependency
    | CircularDependency
    | InvalidExpiry(tool: ToolName)
    | Message(text: string)
    | SessionRequired(tool: ToolName)
    | SessionNotFound
    | SessionAlreadyExists
    | PrerequisiteNotCalled(tool: ToolName)
    | InvalidToken
    | TokenNotFound
    | NoRuleFound(tool: ToolName)
    | GenerationFailed
    | StorageFailed

  datatype Rule = Rule(
    tool: ToolName,
    prerequisite: ToolName,
    expiry: Time,
    errorMessage: string,
    oneTimeUse: bool)
  {
    /** `None` when the rule is acceptable. */
    function Validate(): Option<Error> {
      if tool == "" then Some(EmptyToolName)
      else if tool == prerequisite then Some(SelfDependency)
      else None
    }
  }

  datatype EventType =
    | SessionCreated
    | TokenCreated
    | TokenConsumed
    | ToolCallAttempt
    | ToolCallSuccess
    | ToolCallFailure
    | Other(name: string)

  datatype Event = Event(
    kind: EventType,
    sessionID: SessionID,
    toolName: ToolName,
    token: TokenValue,
    timestamp: Time)
}
