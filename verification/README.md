# Verified model of mcp-ratchet

mcp-ratchet makes a server's tools callable only in a configured order. A rule names a tool and
its prerequisite; a successful call issues an expiring token for its tool; a call of a gated tool
needs the prerequisite in the session's history and a live token of it; rules marked one-time use
up a token per call. This project models the ratchet service, its in-memory stores, the call
wrapper, the configuration check and the event readers, and proves what they guarantee over whole
runs.

## Layout

| files | content |
|---|---|
| `Domain`, `Collections`, `RuleTable` | names, rules, events, errors; sequence and map vocabulary; looking up rules |
| `TokenStore`, `Sessions`, `EventStore`, `Streaming` | the in-memory stores and the broadcaster as classes, with the functions they are proved against |
| `EventLog`, `Paging`, `ConfigLoader` | queries, pruning and counting; the paging arithmetic; rule building and cycle detection |
| `Machine`, `Operations` | every operation and the wrapped call as functions on values, and what they do read off rules, entries and sessions |
| `RatchetService`, `Wrapper`, `Driver` | the service and wrapper as objects, and whole runs on them, proved to behave as `Machine` says |
| `Ledgers`, `CallRuns`, `Ancestry`, `Reachability` | sequential runs: agreement of the stores, the usage bound, backing chains, which tools can run |
| `SingleUse`, `SuccessEvents` | exactly when tokens are single-use, and what tool_call_success events count |
| `Acceptance`, `Isolation` | what a decision depends on, what stays unchanged |
| `Lanes`, `Interleaving`, `Overlap`, `Serial` | concurrent calls: one slot of the store, the interleaved steps, exactly when the usage bound is kept, and that calls made one after the other are the sequential runs |

## Assumptions

- One clock, which does not run backwards, serves service and token store. Its readings are inputs:
  each place that reads it has a label, and every theorem holds for all readings.
- Run theorems that need it say that generated tokens are new and that a session is present when a
  token is issued; the wrapper guarantees the second.
- Rules are fixed during a run, except in the theorems about registration.
- The session id is a parameter of the wrapper; the handler is an arbitrary success or failure.

## Where code and documentation differ

The model follows the code.

- The token passed to `ValidateToolCall` plays no part in the decision, though the package
  documentation says the dependent tool requires it (`pkg/ratchet/doc.go`);
  `Acceptance.OrderAndTokenDoNotMatter` says what does decide.
- Tokens are single-use only for one-time rules, and only the first rule of a tool says whether and
  what a call consumes (`pkg/ratchet/doc.go` promises it of all tokens). Shown to fail at one rule
  without the flag by `SingleUse.OneReusableToken`; `SingleUse.TokensAreSingleUseIff` says exactly
  for which rules and tools the promise is kept.
- `tool_call_success` is emitted by validation, before the handler runs, not after execution as
  `pkg/ratchet/domain/event.go` says. `SuccessEvents.FailedHandlerIsReportedAsSuccess` is an input,
  `SuccessEvents.EventsCountExecutionsIff` the exact condition.
- The manual wrapper in `README.md` never records its calls; with it no gated tool is ever accepted
  (`Ancestry.WithoutRecordingGatedToolsStayClosed`).
- Single use is not guaranteed to concurrent callers: `Overlap.OneTokenTwoUses` is an interleaving
  that breaks it, and `Overlap.BoundIsKeptIffRiskIsCovered` says from which states it can break.

## Model

| member | source | states |
|---|---|---|
| `CallRuns.UsesNeverExceedIssues` | pkg/ratchet/mcp/wrapper.go:62-88 | In every sequential run of wrapped calls, per session and tool P: successful runs of tools that can only run on a one-time token of P, plus the tokens of P live at any later time, never exceed the tokens issued for P - also when tokens expire between validation and consumption |
| `CallRuns.CallSpends` | pkg/ratchet/mcp/wrapper.go:63-82 | One wrapped call cannot raise uses + live tokens - issues: measured after the call it is at most what it was at some moment not before the last issue |
| `CallRuns.SpenderSawAToken` | pkg/ratchet/services/ratchet_service.go:117-153 | A successful call of a tool whose rules all name P was validated at a moment when the session had a live stored token of P |
| `CallRuns.CallRunsKeepInvariants` | pkg/ratchet/mcp/wrapper.go:43-104 | After every admissible run of wrapped calls, session lists equal store lists, the log replays to the store, and the statistics balance; no assumption on sessions is needed because the wrapper creates them |
| `CallRuns.WrappedCallIsItsOperations` | pkg/ratchet/mcp/wrapper.go:43-104 | A wrapped call is create, validate, and, if accepted and handled, consume, issue and record, in that order, with their events in that order |
| `CallRuns.CallEntries` | pkg/ratchet/mcp/wrapper.go:75-88 | A wrapped call changes a stored list only by the one removal of its consume step followed by the one append of its issue step, and only when it succeeds |
| `Acceptance.RejectionReports` | pkg/ratchet/services/ratchet_service.go:98-157 | A rejected call reports: without a session id, the message of its first registered rule or that a session is required; for an unknown session, that it is not found; otherwise the message of its last registered rule or, without one, that this rule's prerequisite must be called first or, when it was called, an invalid token |
| `Operations.ConsumeTakesTheNewest` | pkg/ratchet/services/ratchet_service.go:216-235 | When the first rule of the tool is one-time on P and P has an unexpired entry: the first entry with the value of the last unexpired one is taken out of the list of P, which is one entry shorter, and no other list changes |
| `Operations.ConsumeTells` | pkg/ratchet/services/ratchet_service.go:235-253 | The event names session, prerequisite and the token taken; an existing session drops the last token of that list, a missing one is the error |
| `Operations.ConsumeMayDoNothing` | pkg/ratchet/services/ratchet_service.go:216-231 | Without a one-time first rule, or without an unexpired token, consuming changes nothing and is no error |
| `Operations.IssueAppends` | pkg/ratchet/services/ratchet_service.go:163-178 | The issued token is appended to its list and expires after the expiry of the first registered rule of its tool if that is positive, otherwise after five minutes; no other list changes |
| `Operations.IssueTells` | pkg/ratchet/services/ratchet_service.go:169-193 | An existing session gains the token and the event names it; a missing session is an error without event; a failing generator is an error and nothing else |
| `Operations.CreateAddsAnEmptySession` | pkg/ratchet/services/ratchet_service.go:260-275 | Only where there is no session one is added, without history and tokens, and the event names it |
| `Operations.CallsAreLogged` | pkg/ratchet/mcp/wrapper.go:43-66 | A wrapped call logs attempt and decision with session, tool and the newest token the session holds for the tool, each with its own time, after the creation event if the session was new; a call that does not succeed logs nothing else |
| `Operations.RecordAppends` | pkg/ratchet/mcp/wrapper.go:90-104 | Recording appends the tool to the history of an existing session and changes nothing else |
| `RuleTable.LifetimeOfFirstRule` | pkg/ratchet/services/ratchet_service.go:163-167 | The lifetime of a token is the positive expiry of the first registered rule of its tool, otherwise 300 000 000 000 nanoseconds |
| `RuleTable.ConsumedPrerequisiteIff` | pkg/ratchet/services/ratchet_service.go:214-220 | A tool uses up tokens of P if and only if its first registered rule is one-time and names P, and P is not empty |
| `RuleTable.FirstAndLastFound` | pkg/ratchet/services/ratchet_service.go:327-345 | The rules found for a tool begin with the first and end with the last registered rule that names it |
| `SingleUse.TokensAreSingleUseIff` | pkg/ratchet/doc.go:11-14 | For every rule list and every P that is not empty: in all admissible runs, successful runs of tools whose rules all name P, plus live tokens of P, stay within the tokens issued for P, if and only if P can never run or every such tool has P as the one-time prerequisite of its first rule |
| `SingleUse.ReuseBreaksTheBound` | pkg/ratchet/services/ratchet_service.go:214-226 | For every P that can run and every tool that needs only P without using its token up there is an admissible run with more such uses than tokens of P issued |
| `SingleUse.OneReusableToken` | pkg/ratchet/services/ratchet_service.go:214-226 | One rule without the one-time flag is enough: a run with more runs of its tool than tokens issued |
| `SuccessEvents.SuccessesAreExecutionsAndFailedHandlers` | pkg/ratchet/services/ratchet_service.go:80-157 | Over every run, the tool_call_success events of a session and tool number its history entries plus its accepted calls whose handler failed |
| `SuccessEvents.EventsCountExecutionsIff` | pkg/ratchet/mcp/wrapper.go:62-73 | They number the executions if and only if no accepted call of the tool failed in its handler |
| `SuccessEvents.CallReports` | pkg/ratchet/mcp/wrapper.go:62-73 | A wrapped call emits one such event if and only if it is accepted, however its handler ends |
| `SuccessEvents.FailedHandlerIsReportedAsSuccess` | pkg/ratchet/mcp/wrapper.go:69-73 | An accepted call whose handler fails: a success is reported, nothing enters the history |
| `Ledgers.RunsKeepAligned` | pkg/ratchet/services/ratchet_service.go:233-253 | In every reachable state each stored list is sorted by expiry without duplicate values, and the session holds the same tokens in the same order, although consuming drops the last session token unseen |
| `Ledgers.StepKeepsAligned` | pkg/ratchet/services/ratchet_service.go:163-189 | Every service operation keeps that agreement, given a present session, a clock that does not run back and a new token at each issue |
| `TokenStore.LiveEntriesAreASuffix` | pkg/ratchet/adapters/memory_token_store.go:62-68 | In a list sorted by expiry the unexpired tokens are a suffix of the list |
| `TokenStore.NewestIsRemoved` | pkg/ratchet/services/ratchet_service.go:228-237 | With sorted expiries and distinct values, removing the last valid token by value removes the last entry of the list |
| `Ledgers.LogRebuildsTheStore` | pkg/ratchet/services/ratchet_service.go:175-191 | Replaying token_created as append and token_consumed as removal rebuilds every stored list in order, in every run where the session is present at each issue |
| `Ledgers.StepReplay` | pkg/ratchet/services/ratchet_service.go:191-239 | The events of one operation replay as the one removal or append it makes on each list |
| `Ledgers.JournalNeedsTheSession` | pkg/ratchet/services/ratchet_service.go:174-184 | An operation keeps the journal faithful if and only if it does not issue a token for a missing session, whose token is stored but not reported |
| `Ledgers.StatisticsBalance` | pkg/ratchet/services/ratchet_service.go:80-157 | In every such run attempts = successes + failures, and token_created events = token_consumed events + entries in the store |
| `Ledgers.BalanceNeedsTheSession` | pkg/ratchet/services/ratchet_service.go:174-184 | An operation keeps these balances if and only if it does not issue a token for a missing session |
| `Ledgers.StepHeld` | pkg/ratchet/services/ratchet_service.go:214-239 | The number of stored entries moves with the token_created and token_consumed events of each operation |
| `Ledgers.HeldAfterUpdate` | pkg/ratchet/adapters/memory_token_store.go:39-42 | Writing one list changes the total number of stored entries by the change of its length |
| `Isolation.ReportedStatisticsBalance` | pkg/ratchet/adapters/memory_event_store.go:115-144 | The statistics a working store reports after a run balance in the same way |
| `Reachability.ReachableIffGrounded` | pkg/ratchet/services/ratchet_service.go:83-153 | A tool can be run in some sequential run from an empty state if and only if its rules lead down to an ungated tool, any rule at each step; without a session id only ungated tools run |
| `Reachability.AcyclicRulesReachEveryTool` | pkg/ratchet/adapters/yaml_loader.go:113-151 | If the rules have no cycle, every tool can be run in every session with an id, by a run of successful calls from an ungated tool in which the first rule of each tool names the tool called before it |
| `Reachability.AcyclicIsGrounded` | pkg/ratchet/adapters/yaml_loader.go:113-151 | Without a cycle, following first rules from any tool ends at an ungated tool |
| `Reachability.ClosedSetNeverRuns` | pkg/ratchet/services/ratchet_service.go:117-157 | Gated tools whose rules all name prerequisites among themselves never run, in any run |
| `Reachability.GroundedRuns` | pkg/ratchet/mcp/wrapper.go:62-104 | For every path of rule edges from an ungated tool: the run that calls its tools in order, in one session, is admissible and all its calls succeed |
| `Reachability.ExecutedIsGrounded` | pkg/ratchet/mcp/wrapper.go:62-73 | Every tool a run executed ends a path of rule edges from an ungated tool |
| `Reachability.SuccessOpensTheNextTool` | pkg/ratchet/mcp/wrapper.go:82-104 | After a successful call with a token its tool is in the history and has a live token until that token expires |
| `Ancestry.SuccessIsBackedByAChain` | pkg/ratchet/services/ratchet_service.go:119-153 | Every successful call ends a strictly ordered chain of successful calls of its session, from an ungated tool along rule edges, each relying on a token of the one before that was in the store, and live, when the rule was checked |
| `Ancestry.GatedCallIsBacked` | pkg/ratchet/services/ratchet_service.go:126-153 | A successful call of a gated tool has an earlier successful call of one of its prerequisites whose token was still stored, and live, when that rule was checked |
| `Ancestry.GatedCallIsInTime` | pkg/ratchet/services/ratchet_service.go:117-153 | In clock readings: the rule that let a gated call pass was checked before an earlier successful call of its prerequisite in the session, by its issue time plus the positive expiry of that tool's first rule or five minutes, ran out |
| `Ancestry.EntryHasIssuer` | pkg/ratchet/services/ratchet_service.go:163-178 | Every stored entry was issued by an earlier successful call of that session and tool and expires that call's issue time plus the tool's lifetime |
| `Ancestry.HistoryIsExecutions` | pkg/ratchet/mcp/wrapper.go:90-104 | The history of a session is exactly the sequence of its successful calls |
| `Ancestry.IssuesAreInTheHistory` | pkg/ratchet/mcp/wrapper.go:82-104 | Tokens issued for a tool never outnumber its history entries, and match them when token generation never fails |
| `Ancestry.TokenImpliesHistory` | pkg/ratchet/services/ratchet_service.go:126-148 | In wrapper-only runs a stored token of P implies P is in the history, so the history test never rejects what the token test would accept |
| `Ancestry.TokensAloneDecide` | pkg/ratchet/services/ratchet_service.go:117-153 | In wrapper-only runs a gated tool is accepted in a named session if and only if some prerequisite has a live token |
| `Ancestry.WithoutRecordingGatedToolsStayClosed` | pkg/ratchet/services/ratchet_service.go:126-133 | A caller that never records its calls never gets a gated tool accepted |
| `Acceptance.ValidateAcceptsWhatIsAcceptable` | pkg/ratchet/services/ratchet_service.go:79-158 | With readings between two times: what is acceptable at the later one is accepted, and what is accepted was acceptable at the earlier one |
| `Acceptance.OrderAndTokenDoNotMatter` | pkg/ratchet/services/ratchet_service.go:327-335 | At one instant a call is accepted if and only if the tool has no rule, or a rule without prerequisite, or the named session exists and some prerequisite was called and has a live token; rule order and presented token do not matter |
| `Acceptance.UngatedMeans` | pkg/ratchet/services/ratchet_service.go:83-96 | The two early accepts are: no registered rule names the tool, or some rule for it has no prerequisite |
| `Acceptance.MoreRulesNeverRevoke` | pkg/ratchet/services/ratchet_service.go:69-75 | Once a tool has a rule, further rules never turn an accepted call on the same state into a rejected one |
| `Acceptance.FirstRulesDecideAlone` | pkg/ratchet/services/ratchet_service.go:83-88 | A tool without rules is accepted; after registration it is accepted if and only if the new rules alone accept it |
| `Acceptance.OwnMessagesAreReported` | pkg/ratchet/services/ratchet_service.go:98-146 | When all rules of a tool carry a message, a rejection reports one of them if and only if no session id was given or the session exists |
| `RuleTable.FirstRuleWins` | pkg/ratchet/services/ratchet_service.go:337-345 | Once a tool has a rule, later rules change neither its lifetime, nor its reported prerequisite, nor the prerequisite it consumes |
| `RuleTable.FindRulesMembers` | pkg/ratchet/services/ratchet_service.go:327-335 | A rule is found for a tool if and only if it is registered and names the tool |
| `RuleTable.Lifetime` | pkg/ratchet/services/ratchet_service.go:163-167 | Every token has a positive lifetime, whatever the expiry of the rule |
| `Interleaving.NoTokenIsConsumedTwice` | pkg/ratchet/services/ratchet_service.go:222-237 | In every interleaving of concurrent calls at the locked store operations, each slot holds exactly the tokens issued minus the tokens consumed, and no token is consumed twice |
| `Interleaving.SlotsBalance` | pkg/ratchet/adapters/memory_token_store.go:73-97 | In every interleaving, entries held, expired ones included, plus finished consume steps are the tokens issued plus the consume steps that removed nothing |
| `Serial.AloneIsAWrappedCall` | pkg/ratchet/mcp/wrapper.go:43-104 | A thread that makes the moves of a call alone, with readings that do not run back, leaves the stored tokens and recorded calls of the sequential call, counts the same use and issue, and is idle again |
| `Serial.SerialPlayIsTheRun` | pkg/ratchet/mcp/wrapper.go:43-104 | Calls made one after the other end with the stored tokens and recorded calls of the sequential run, and with its numbers of uses and issues on every slot |
| `Serial.AcceptedAtAReading` | pkg/ratchet/services/ratchet_service.go:117-153 | A call is accepted while time passes if and only if it is accepted at one of its readings, the one of the rule that lets it pass or the last |
| `Overlap.BoundIsKeptIffRiskIsCovered` | pkg/ratchet/services/ratchet_service.go:222-237 | From any state whose tokens are distinct and were issued, as in every reachable one: all interleavings that begin no further run on the slot keep the sequential bound at all later times if and only if the risk of the slot - uses, threads under way and live tokens nobody has chosen, less one when a waiting thread can still choose such a token - is within the tokens issued |
| `Overlap.BoundHoldsWithoutCollisions` | pkg/ratchet/mcp/wrapper.go:62-80 | In every interleaving with a monotone clock in which a run on the slot begins only while no thread waits to choose a token of it and its newest live token is not yet chosen, the bound holds at all later times |
| `Overlap.BoundHoldsWithoutOverlap` | pkg/ratchet/mcp/wrapper.go:62-80 | In particular when no two runs on the slot are between validation and removal at once |
| `Overlap.BeginRisk` | pkg/ratchet/mcp/wrapper.go:62-66 | Beginning a run on the slot raises its risk by one exactly when it collides in that sense, and otherwise not at all |
| `Overlap.BeginKeepsTheBoundIff` | pkg/ratchet/mcp/wrapper.go:62-80 | After a run on the slot begins, all interleavings that begin no further one keep the bound if and only if the risk was below the tokens issued, or equal to them and the run does not collide |
| `Overlap.MovesAddNoRisk` | pkg/ratchet/services/ratchet_service.go:222-237 | Every other move of any thread leaves risk less tokens issued no higher: failing handlers, choosing, removing, issuing, recording, and the passing of time |
| `Overlap.WorstContinuation` | pkg/ratchet/services/ratchet_service.go:222-237 | From every such state there is a continuation that turns every run under way into a use and the whole risk into uses and live tokens |
| `Overlap.ReachableIsSound` | pkg/ratchet/services/ratchet_service.go:161-189 | In every reachable state the stored tokens of a slot are distinct, and tokens stored or chosen were issued |
| `Overlap.OneTokenTwoUses` | pkg/ratchet/mcp/wrapper.go:62-80 | A concrete interleaving in a named session in which one token pays for two uses |
| `Lanes.RiskBounds` | pkg/ratchet/services/ratchet_service.go:222-237 | A risk within the tokens issued bounds uses plus live tokens |
| `Lanes.PickKeepsRisk` | pkg/ratchet/services/ratchet_service.go:222-231 | Choosing the newest live token, also one another thread has chosen, or finding none, leaves the risk exactly as it was |
| `Lanes.SettleAddsNoRisk` | pkg/ratchet/services/ratchet_service.go:233-237 | Removing the chosen token, or finding it gone, never raises the risk, and leaves it exactly as it was when nobody waits |
| `Isolation.OperationsAreIsolated` | pkg/ratchet/adapters/memory_session_store.go:37-64 | An operation on one session leaves every other session, its token map and its stored tokens unchanged |
| `Isolation.CallsAreIsolated` | pkg/ratchet/mcp/wrapper.go:43-106 | So does a whole wrapped call |
| `Isolation.FailedCallsChangeNothing` | pkg/ratchet/mcp/wrapper.go:62-73 | A call whose validation or handler fails changes no token list and no history; it only leaves its session created |
| `Driver.RunOperations` | pkg/ratchet/services/ratchet_service.go:304-324 | A run of operations on the service and its stores returns the results, and leaves the rules, sessions and tokens, of the same run without event store, whatever event store is attached and however it fails; that store shows the run's events |
| `Driver.RunCalls` | pkg/ratchet/mcp/wrapper.go:39-107 | So does a run of wrapped calls, with its verdicts |
| `Driver.ObservedCallsAreTheRun` | pkg/ratchet/mcp/wrapper.go:39-107 | Such a run ends in the state of the run theorems, and a working event store holds exactly its log |
| `Driver.VerdictsTellSuccess` | pkg/ratchet/mcp/wrapper.go:62-73 | And its verdicts say exactly which calls succeeded |
| `Driver.Perform` | pkg/ratchet/services/ratchet_service.go:79-275 | One operation on the objects has the result, state and events of the machine |
| `Isolation.ObservabilityIsInert` | pkg/ratchet/services/ratchet_service.go:304-324 | On values: results and state of a run do not depend on the event store |
| `Isolation.WorkingStoreShowsTheRun` | pkg/ratchet/services/ratchet_service.go:311-323 | A working event store shows exactly the events of the run, in order |
| `ConfigLoader.Validate` | pkg/ratchet/adapters/yaml_loader.go:113-152 | Returns the circular-dependency error if and only if the rules contain a cycle of dependencies, for every rule list and every order of starting tools; it always terminates |
| `ConfigLoader.CycleSearch.HasCycle` | pkg/ratchet/adapters/yaml_loader.go:124-141 | A reported cycle exists; otherwise the tool is finished, the stack of unfinished tools is as before, and all that finished tools depend on finished earlier |
| `ConfigLoader.RankedIsAcyclic` | pkg/ratchet/adapters/yaml_loader.go:139-140 | Dependencies that always lead to an earlier finished tool form no cycle |
| `ConfigLoader.CycleThroughStack` | pkg/ratchet/adapters/yaml_loader.go:134-136 | A dependency on a tool of the recursion stack closes a cycle |
| `ConfigLoader.LeaveTool` | pkg/ratchet/adapters/yaml_loader.go:129-140 | A tool all of whose dependencies are finished may be finished |
| `ConfigLoader.Load` | pkg/ratchet/adapters/yaml_loader.go:83-109 | One rule per record, in order and field by field, with five minutes where no expiry is given; the first record with a defect fails the load, with the error of its expiry, its empty tool or its self-dependency |
| `EventStore.MemoryEventStore.Store` | pkg/ratchet/adapters/memory_event_store.go:55-60 | Appends the event, whether or not the array has to grow |
| `EventStore.MemoryEventStore.PruneExpired` | pkg/ratchet/adapters/memory_event_store.go:81-90 | Compacting in the array being read leaves exactly the events after the cutoff, in order |
| `EventStore.MemoryEventStore.GetEvents` | pkg/ratchet/adapters/memory_event_store.go:93-112 | Returns the selected events in log order, cut off at a positive limit |
| `EventStore.MemoryEventStore.GetStats` | pkg/ratchet/adapters/memory_event_store.go:115-144 | Counts all events, by kind and by named tool, with the counts by kind summing to the total, and each session once |
| `EventLog.QueryIsExact` | pkg/ratchet/adapters/memory_event_store.go:98-105 | For each event, a query returns it as often as it is stored when its session, kind, tool and time are asked for, each part of the filter read off its fields, and otherwise never |
| `EventLog.AnswerAt` | pkg/ratchet/adapters/memory_event_store.go:93-161 | An answer lists, in log order and cut off at a positive limit, exactly the events of the session whose kind and tool are among those asked for, where any are, and whose time is within the given bounds, both inclusive |
| `EventLog.KeptAt` | pkg/ratchet/adapters/memory_event_store.go:81-90 | Pruning leaves exactly the events later than the cutoff, in order |
| `EventLog.CountsAreOccurrences` | pkg/ratchet/adapters/memory_event_store.go:126-131 | The counters count each kind and each tool as often as it occurs |
| `EventStore.StatisticsAreOccurrences` | pkg/ratchet/adapters/memory_event_store.go:115-144 | What GetStats reports, in occurrences: all events, each kind and each named tool that occurs, each session once, and the token events |
| `EventLog.RecentAnswersSurvivePruning` | pkg/ratchet/adapters/memory_event_store.go:81-112 | A query that starts after the cutoff has the same answer, limit included, before and after pruning |
| `EventLog.PruningVisible` | pkg/ratchet/adapters/memory_event_store.go:81-161 | Pruning changes what an unlimited query returns if and only if it drops an event the query selects |
| `EventLog.AnswerSurvivesPruningIff` | pkg/ratchet/adapters/memory_event_store.go:81-112 | For every log, an answer, limit included, is the same after pruning if and only if all its events lie after the cutoff |
| `EventLog.QueryOfKept` | pkg/ratchet/adapters/memory_event_store.go:81-112 | What a query returns of a pruned log is what it returned, pruned |
| `EventLog.AnswersSurvivePruningIff` | pkg/ratchet/adapters/memory_event_store.go:81-161 | A query has the same answer, limit included, before and after pruning of every log if and only if it selects only events after the cutoff |
| `Paging.EventsPage` | cmd/mcp-ratchet-demo/main.go:257-286 | For every limit and offset parameter - a positive limit or else 100, a non-negative offset or else 0 - the page is exactly that slice of all matching events, even when limit + offset wraps in 64 bits |
| `Paging.EffectiveLimit` | cmd/mcp-ratchet-demo/main.go:257-263 | The limit in force is positive |
| `Paging.EffectiveOffset` | cmd/mcp-ratchet-demo/main.go:265-271 | The offset in force is not negative |
| `Paging.PagesCoverEverything` | cmd/mcp-ratchet-demo/main.go:265-286 | Pages at offsets 0, L, 2L, ... concatenate to the whole result |
| `Streaming.SubscriptionDeliversItsSession` | cmd/mcp-ratchet-demo/main.go:313-314 | From subscribing to unsubscribing, and only then, a connection receives exactly its session's stored events, in order |
| `Streaming.StreamMatchesQuery` | pkg/ratchet/adapters/broadcasting_event_store.go:44-54 | While subscribed, what a connection receives is what an unfiltered query for its session gains, whatever writes fail and whoever joins or leaves |
| `Streaming.SilenceWithoutSubscription` | cmd/mcp-ratchet-demo/main.go:74-81 | A connection that is not subscribed receives nothing |
| `Streaming.LoggedAt` | pkg/ratchet/adapters/broadcasting_event_store.go:44-54 | The log gains exactly the events whose write does not fail, in order |
| `Streaming.EventBroadcaster.Broadcast` | cmd/mcp-ratchet-demo/main.go:74-81 | Sends the event once to each connection of the session, in any order, and to no other |
| `Streaming.EventBroadcaster.SubscribeTo` | cmd/mcp-ratchet-demo/main.go:52-59 | Adds the connection to the session |
| `Streaming.EventBroadcaster.UnsubscribeFrom` | cmd/mcp-ratchet-demo/main.go:61-70 | Removes the connection, and the session entry when it was the last |
| `Streaming.BroadcastingEventStore.Store` | pkg/ratchet/adapters/broadcasting_event_store.go:44-54 | Stores first; broadcasts only what was stored; reports the store error |
| `TokenStore.MemoryTokenStore.Store` | pkg/ratchet/adapters/memory_token_store.go:31-45 | Appends the token to its list and changes no other |
| `TokenStore.MemoryTokenStore.GetValidTokens` | pkg/ratchet/adapters/memory_token_store.go:48-71 | Returns the values of the entries that expire after now, those and no others, in order |
| `TokenStore.ValidValuesAt` | pkg/ratchet/adapters/memory_token_store.go:62-68 | The valid tokens are the values at exactly the positions whose expiry is later than now, in the order of the list |
| `TokenStore.MemoryTokenStore.RemoveToken` | pkg/ratchet/adapters/memory_token_store.go:75-97 | Removes the first entry with the value; fails without change if and only if there is none |
| `TokenStore.EntriesElsewhere` | pkg/ratchet/adapters/memory_token_store.go:39-42 | Writing one list leaves all others |
| `Sessions.MemorySessionStore.Create` | pkg/ratchet/adapters/memory_session_store.go:26-35 | Stores a session under a free id; fails without change on a taken one |
| `Sessions.MemorySessionStore.Get` | pkg/ratchet/adapters/memory_session_store.go:38-55 | A new object with the stored history that aliases the stored token map |
| `Sessions.MemorySessionStore.Update` | pkg/ratchet/adapters/memory_session_store.go:58-64 | Replaces the session of that id and no other, keeping token maps unshared between sessions |
| `Sessions.MemorySessionStore.SharedTokensReachOnlyTheirSession` | pkg/ratchet/adapters/memory_session_store.go:47-54 | Changing tokens through a copy reaches the stored session of that id at once, and no other session |
| `Sessions.Session.AddToken` | pkg/ratchet/domain/session.go:39-41 | Appends the token to the list of its tool in the shared map |
| `Sessions.Session.RemoveToken` | pkg/ratchet/domain/session.go:44-52 | Takes out the first occurrence of the token and changes no other list |
| `Sessions.Session.HasToolBeenCalled` | pkg/ratchet/domain/session.go:60-62 | True if and only if the tool is in the history |
| `Sessions.Session.HasValidToken` | pkg/ratchet/domain/session.go:55-57 | True if and only if the session holds the token for the tool |
| `Sessions.Session.RecordToolCall` | pkg/ratchet/domain/session.go:34-36 | Appends the tool to the history |
| `RatchetService.Service.ValidateToolCall` | pkg/ratchet/services/ratchet_service.go:79-158 | Decides, reports the error and emits the attempt and outcome events of the machine, changing no rule, token or session, whatever the event store does |
| `RatchetService.Service.CheckRules` | pkg/ratchet/services/ratchet_service.go:82-157 | Accepts if and only if the call is allowed; otherwise the error is that of the first rule without a session id, and of the last rule in an existing session |
| `RatchetService.Service.IssueToken` | pkg/ratchet/services/ratchet_service.go:161-194 | Stores the token, then adds it to the session; a missing session leaves the stored token behind the error |
| `RatchetService.Service.ConsumePrerequisiteToken` | pkg/ratchet/services/ratchet_service.go:214-256 | Removes the last valid token of the first rule's one-time prerequisite, and the last session token; nothing when there is none |
| `RatchetService.Service.CreateSession` | pkg/ratchet/services/ratchet_service.go:260-275 | Creates the session only if there is none, and returns the session there is |
| `RatchetService.Service.EmitEvent` | pkg/ratchet/services/ratchet_service.go:306-324 | Touches the event store only; its errors go no further |
| `RatchetService.Service.RegisterRule` | pkg/ratchet/services/ratchet_service.go:69-75 | Appends an acceptable rule, rejects others without change: one without a tool, then one that names itself |
| `RatchetService.Service.LoadConfiguration` | pkg/ratchet/services/ratchet_service.go:197-210 | Replaces the rules by acceptable, acyclic ones, or fails and keeps the old rules |
| `RatchetService.Service.GetRequiredPrerequisite` | pkg/ratchet/services/ratchet_service.go:278-284 | The prerequisite of the first rule, or an error without rules |
| `RatchetService.Service.FindRule` | pkg/ratchet/services/ratchet_service.go:338-345 | The first rule of the tool |
| `RatchetService.Service.FindRules` | pkg/ratchet/services/ratchet_service.go:327-335 | The rules of the tool, in registration order |
| `Wrapper.WrapWithRatchet` | pkg/ratchet/mcp/wrapper.go:39-107 | Runs the steps of a wrapped call in order; after the handler succeeded the call succeeds whatever consuming, issuing and recording report |
| `Wrapper.PresentedToken` | pkg/ratchet/mcp/wrapper.go:43-60 | Gets or creates the session and reads the newest token it holds for the tool |
| `Wrapper.Record` | pkg/ratchet/mcp/wrapper.go:90-104 | Stores the session with the tool appended to its history, changing nothing else |

## Left out

- Wrapper.WrapWithRatchet: not the fixed demo session id, the logging, the fallback session for a failing session creation, or a session store other than the service's.
- RatchetService.Service.CreateSession: not the error of a creation that loses a race with another caller; between its two steps no other caller runs.
- RatchetService.Service.ConsumePrerequisiteToken: not the error of a removal that finds the token gone; that case is in `Interleaving`.
- RatchetService.Service.LoadConfiguration: not YAML decoding and duration parsing; it starts from decoded records.
- ConfigLoader.Load: stands for both loading loops, which are the same; the observability section is passed through unread.
- Interleaving.NoTokenIsConsumedTwice: covers the token store and the recorded calls; concurrent access to session objects, whose shared maps are not locked, is not modelled, so recording a call is one step and no record is lost.
- Interleaving.SlotsBalance: a thread checks all rules of its tool at one moment; in the code another thread may act between two rules. For a thread alone the two agree (`Serial.AcceptedAtAReading`).
- Paging.EventsPage: not parsing of the query string; parameters are 64-bit integers or absent, and the log is no longer than a slice can be.
- EventStore.MemoryEventStore.PruneExpired: the cutoff is a point in time; calendar arithmetic, the ticker and stopping the pruner are not modelled.
- Streaming.EventBroadcaster.Broadcast: writing to a connection always succeeds; the code ignores such errors.
- Event identifiers and metadata, and the wording of errors.
- Overflow of times and durations; a time is an unbounded integer.
- Deleting sessions, and sessions edited by the application.
- Randomness and the length of tokens; the generator's answer is an input.
- The greeting code, the HTTP and WebSocket plumbing, and the event-store factory.
