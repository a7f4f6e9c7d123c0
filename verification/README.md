# Verification of the ticket agents' protocols

A performance-engineering service runs tickets through agents. The agents talk to MCP servers,
run side effects that must not happen twice, spend budgets that outlive their processes and read
text that nobody vouches for. This project models the parts of that service that have to stay
correct under cancellation, reconnects, crashes and lost acknowledgements, and proves what they
are for. `dafny verify dfyconfig.toml` checks it.

Everything the source runs between two awaits is one atomic step. What an await brings back (a
reply, an error, a cancellation, a lost acknowledgement, the death of the process) is either an
action of a state machine or part of a script given to a method, so every theorem holds for every
behaviour of the environment.

| file | what it models |
|---|---|
| `ConnectionMachine`, `ConnectionInvariant`, `ConnectionSafety`, `ConnectionEndings` | connects, reconnects and disconnects over the server registry and the tool routes, as one transition system; its invariant; what holds over whole runs; how connects and their callers end |
| `MCPClient` | the client object with its dictionaries, connection objects, task sets and locks: valid in every state it reaches, and each block it runs without awaiting is one action of that system |
| `Dispatch` | one tool call with all its exits, the ordinary hooks, and Jumpstarter's hook that dispatches from inside the call |
| `OperationStore`, `ProtectedOperations` | the store's row of a protected operation, and any number of server processes using it |
| `AuditMiddleware`, `ReplayCache` | one protected or ordinary call inside a server, as a write-ahead log; the bounded replay cache |
| `LeaderLease` | lease clients, store, clock and a network that delays, repeats and loses messages |
| `IterationBudget`, `Transcript` | the agent run loop: counters replayed from the event log, ceilings, and the shape of the transcript |
| `BoundedCopy`, `InvestigationContext` | the budgeted copy of untrusted JSON, and its rendering into a prompt |
| `ArtifactPaging`, `StdioFraming` | bounded paging through a file; newline framing over arbitrary chunks |
| `FlowMatch`, `FlowParse`, `FlowRules` | ethtool rules: the packets they select, the parser of the rule table, and both together |
| `RetryGuard` | persistent, bounded backoff |
| `Wrappers`, `Decimal` | optional values; decimal numerals |

## What turned out not to hold

Each of these was looked for as a property of the source; the exact condition under which it does
hold is proved, and a concrete case that breaks it is given.

- *One terminal event per call.* A hook's own result that says it is on record already ends the call
  without another event. The dispatch task of the Jumpstarter hook that is refused before
  any dispatch records its own event but does not tell the hook (`agents/mcp_client.py:1077-1131`).
  If the hook had already stopped waiting, the call records a second one. `Dispatch.CallEndsExactly`
  counts: none in the first case, two in the second, one in all others. `Dispatch.LateRejectionEndsTwice` is such a call.
- *The same, for any tool name.* Connecting records terminal events under `initialize`,
  `list_tools` and `server_exit`; a tool of such a name that is called over a lost session gets them
  too (`Dispatch.ReservedNameEndsTwice`). For all other names they count nothing
  (`Dispatch.ConnectsEndNothing`).
- *`complete` only after the heartbeat stopped cleanly.* The comment at `agents/mcp_audit.py:492`
  expects a cancelled call to be indeterminate already, but a cancellation that arrives while the
  call waits for its heartbeat is swallowed there and the call goes on to complete.
  `AuditMiddleware.MCPAuditMiddleware.OnCallTool` states that this is the only exception;
  `AuditMiddleware.CutShortStillCompletes` is one.
- *One leader for clients that are releasing.* `release` keeps `confirmed_deadline`, so a client
  that released may still believe it leads when another one does (`LeaderLease.ReleasingRun`).
- *Limits across runs*, on three logs. A failed read, or a log beyond the 100,000 events that are
  read, counts as fewer calls (`IterationBudget.UnreadLogOverruns`, `IterationBudget.LongLogOverruns`).
  And the page is sorted by time before it is replayed (`providers/events.py:552-568`): a call recorded
  after a fleet epoch under an earlier time sorts before it and is not counted
  (`IterationBudget.BackdatedCallsOverrun`). `IterationBudget.RunTicket` holds for every log without
  these.
- *Every call is answered once.* Calls that share an id are answered more than once, unless they
  are copies of the call that takes precedence (`Transcript.EachAnsweredOnce`,
  `Transcript.SharedIdAnsweredTwice`). A blocked submit answers only itself, and prose or `end_turn`
  with calls answers none (`Transcript.CallsLeftOpen`); `Transcript.LeavesNoneOpen` is the exact
  condition (`Transcript.AppendKeepsOrder`).
- *Truncation keeps user and assistant alternating*, as the comment at `agents/base.py:2467-2470`
  says: the ticket and the note are two user messages in a row, so what is left alternates exactly
  when the transcript had at most seven messages and alternated before. It gets shorter exactly when
  more than one message is dropped (`Transcript.TruncationAlternates`,
  `Transcript.CutBreaksAlternation`, `Transcript.CutMayNotShorten`). What is kept is the order of
  calls and results.
- *Following the pages of a file* leaves out the rest of a line that was cut. The pages rebuild the
  file exactly when no cut shows: no byte was left for the line, or only a part of its last character
  did not fit and that is the replacement character (`ArtifactPaging.PagesRebuildTheFile`,
  `ArtifactPaging.CutShowsNothing`, `ArtifactPaging.LongLineIsLost`). A limit below one never moves on
  (`ArtifactPaging.FollowingMovesOn`).
- *Reconnecting never raises*, as `agents/mcp_client.py:1153-1156` says: the cancellation of a connect
  task escapes (`agents/mcp_client.py:1221-1232`). A caller gets no answer if and only if it was
  cancelled itself or its connect task ended cancelled (`ConnectionEndings.NoAnswerExactly`), and a
  connect ends cancelled if and only if it was turned away or cancelled
  (`ConnectionEndings.CancelledExactly`). `ConnectionEndings.TurnedAwayRun` is a run in which nothing
  is cancelled from outside and a caller gets no answer.

## Model

| member | source | states |
|---|---|---|
| ConnectionInvariant.StepKeepsInv | agents/mcp_client.py:566-902 | every action of any connect, reconnect, disconnect or lost session keeps the invariant: routes served, registry known, generations without gaps, replaced at most once, disconnect counters, startup tasks, locks |
| ConnectionInvariant.ReroutedExactly | agents/mcp_client.py:854-866 | after an install exactly the listed tools are routed to the name, and no other name's routes change |
| ConnectionSafety.RunKeepsInv | agents/mcp_client.py:566-902 | every state that any interleaving reaches satisfies the invariant |
| ConnectionSafety.RoutedToolsAreServed | agents/mcp_client.py:760-771 | in every reachable state each routed tool points at a server present in the registry |
| ConnectionSafety.ConnectTouchesOnlyItsName | agents/mcp_client.py:854-866 | no step of a connect changes a route or the holder of another name |
| ConnectionSafety.ConflictLeavesMaps | agents/mcp_client.py:827-841 | a tool-name conflict leaves the registry and the route map exactly as they were |
| ConnectionSafety.ConflictExactly | agents/mcp_client.py:827-841 | a conflict is a tool listed twice or routed to another server, and nothing else |
| ConnectionSafety.NothingInstalledWhileClosing | agents/mcp_client.py:802-820 | while a disconnect is outstanding the client is closing, and a closing client registers no connection and no route |
| ConnectionSafety.ReopensOnlyClean | agents/mcp_client.py:2069-2077 | it reopens only when the last outstanding disconnect ends, with both maps empty and a completed cleanup in the group |
| ConnectionSafety.GroupCleanupHappened | agents/mcp_client.py:2055-2077 | a completed cleanup on record really happened in the run while a disconnect of the group was outstanding |
| ConnectionSafety.ReopeningFollowsCleanup | agents/mcp_client.py:2055-2077 | in every run each reopening is preceded by such a cleanup, with disconnects outstanding ever since |
| ConnectionSafety.NoStaleInstall | agents/mcp_client.py:2079-2111 | no connect begun before a cleanup of the registry is ever installed after it |
| ConnectionSafety.ReconnectReplacesItsOwn | agents/mcp_client.py:595-604 | a reconnect installs only over the connection it set out to replace, one generation on |
| ConnectionSafety.ReplacedAtMostOnce | agents/mcp_client.py:1147-1251 | however many callers race, a connection is replaced by reconnect at most once in a run |
| ConnectionSafety.TrueMeansReplaced | agents/mcp_client.py:1234-1251 | an answer True means that the live, usable connection was built to replace the failed one, and the client is open |
| ConnectionSafety.GenerationsRiseByOne | agents/mcp_client.py:642-674 | successive holders of a name rise by exactly one generation; a cleared name starts at zero |
| ConnectionSafety.TurnedAwayMeansCleared | agents/mcp_client.py:802-820 | a connect turned away while the client is open found its name cleared, never taken by another connect |
| ConnectionSafety.OneStartupPerName | agents/mcp_client.py:588-615 | from taking a name's startup lock until it releases it, a connect is the only one of that name, in every run |
| ConnectionSafety.ActiveConnectsAreTracked | agents/mcp_client.py:591-618 | every connect that may still register a connection is among the startup tasks |
| ConnectionSafety.NoConnectDuringSweep | agents/mcp_client.py:2079-2111 | while the registry is swept no connect is under way that could register anything |
| ConnectionSafety.OneDisconnectAtATime | agents/mcp_client.py:2062-2066 | of overlapping disconnects one at a time holds the disconnect lock |
| ConnectionSafety.ReopensIfCompleted | agents/mcp_client.py:2062-2077 | the last disconnect of a group reopens the client if and only if one of the group completed; escaped ones do not count |
| ConnectionSafety.OneReconnectPerConnection | agents/mcp_client.py:1158-1159 | however many callers want a connection replaced, one at a time is at it |
| ConnectionEndings.CancelledExactly | agents/mcp_client.py:584-618 | a connect ends cancelled if and only if it was turned away or cancelled from outside |
| ConnectionEndings.NoAnswerExactly | agents/mcp_client.py:1221-1232 | a caller ends without an answer if and only if it was cancelled or took up a connect task that ended cancelled |
| ConnectionEndings.NoAnswerMeansCutOff | agents/mcp_client.py:1147-1251 | behind an uncancelled caller without an answer there is a connect that was turned away or cancelled |
| ConnectionEndings.TurnedAwayRun | agents/mcp_client.py:1147-1251 | a run without any cancellation from outside in which a caller gets no answer |
| MCPClient.AgentMCPClient.constructor | agents/mcp_client.py:212-235 | a new client is valid and stands for the initial state |
| MCPClient.AgentMCPClient.BeginConnect | agents/mcp_client.py:584-591 | the first locked block keeps the client valid, is the machine's begin, and is refused exactly when closing |
| MCPClient.AgentMCPClient.CreateConnection | agents/mcp_client.py:642-674 | the new connection object is one generation above the holder of the name, whose routes it remembers |
| MCPClient.AgentMCPClient.TakeLock | agents/mcp_client.py:593-615 | under the startup lock a fresh connect has built its connection and knows its predecessor |
| MCPClient.AgentMCPClient.ReconnectStillWanted | agents/mcp_client.py:595-604 | a reconnect goes on exactly when the client is open and the registry still holds the very object it expects |
| MCPClient.AgentMCPClient.CleanupConnection | agents/mcp_client.py:760-771 | closes the connection and clears the name only when the connection holds it, and then all of its routes |
| MCPClient.AgentMCPClient.SessionOpened | agents/mcp_client.py:801-816 | the second locked block: turned away exactly when closing or when the holder is another object than before, else connected |
| MCPClient.AgentMCPClient.FindConflict | agents/mcp_client.py:827-840 | the scan finds a conflict exactly when there is one |
| MCPClient.ConflictMeans | agents/mcp_client.py:827-840 | for a name that has not changed hands a conflict is a repeated tool or a tool of another server |
| MCPClient.AgentMCPClient.TakeRoutes | agents/mcp_client.py:855-864 | rebuilding and filling the route map gives the specified map |
| MCPClient.AgentMCPClient.InstallConnection | agents/mcp_client.py:841-867 | retires the predecessor object, registers the new one and takes its routes |
| MCPClient.AgentMCPClient.ToolsReceived | agents/mcp_client.py:818-898 | the whole third block, with rejection, conflict and invalid owner metadata, and how the connect ends |
| MCPClient.AgentMCPClient.AbortConnect | agents/mcp_client.py:776-799 | an error or cancellation in any phase cleans up exactly the connection that was built |
| MCPClient.AgentMCPClient.Connect | agents/mcp_client.py:566-902 | a fresh connect that nothing interrupts: how it ends, by what the server answers and the routes there are; when it returns, its connection is live under the name with exactly the listed tools, and the startup locks are as before |
| MCPClient.AgentMCPClient.SnapshotTasks | agents/mcp_client.py:2080-2085 | which startup tasks a disconnect cancels and awaits |
| MCPClient.AgentMCPClient.CloseServers | agents/mcp_client.py:2098-2101 | the sweep leaves no registered connection connected |
| MCPClient.AgentMCPClient.FinishDisconnect | agents/mcp_client.py:2069-2077 | the client opens with the last disconnect exactly when one of its group completed |
| MCPClient.AgentMCPClient.Disconnect | agents/mcp_client.py:2055-2120 | a disconnect that nothing interrupts empties both maps and closes every connection, and the client is open again exactly when it completed and was the only one |
| MCPClient.AgentMCPClient.ReplacedMeansDescends | agents/mcp_client.py:1163-1170 | the object test for a replacement is the machine's |
| MCPClient.AgentMCPClient.InspectFailed | agents/mcp_client.py:1159-1184 | the first block of a reconnect and its immediate answers |
| MCPClient.AgentMCPClient.SpawnConnect | agents/mcp_client.py:1188-1214 | looks again before it creates the connect task |
| MCPClient.AgentMCPClient.ConfirmReconnect | agents/mcp_client.py:1234-1251 | the last block answers True exactly when the client is open and the live connection was built to replace the failed one |
| Dispatch.TerminalsAdd | agents/mcp_client.py:1895-1913 | counting the terminal events of an action adds up over the log |
| Dispatch.DispatchEndsOnce | agents/mcp_client.py:1322-1656 | a dispatch records exactly one terminal event under its tool's name, besides those of connecting, on every exit |
| Dispatch.CallEndsExactly | agents/mcp_client.py:1658-1893 | so does the whole call, except that it records none when a hook's result says it is on record already, and two after a late rejection |
| Dispatch.Client.RecordBoundary | agents/mcp_client.py:1895-1913 | an event is added exactly when recording succeeds |
| Dispatch.Client.DispatchMcpRequest | agents/mcp_client.py:1322-1656 | sends at most once, exactly when the script reaches the server; records exactly the specified events; its result and the shared audit state never claim "not sent" falsely |
| Dispatch.Client.SendRequest | agents/mcp_client.py:1496-1656 | one send and the specified events, for every way the request can end |
| Dispatch.Client.CallTool | agents/mcp_client.py:1658-1893 | the whole call: exactly the specified events, at most one send, and an error classed validation or transport_before_send means nothing was sent |
| Dispatch.Client.EndWithAnswer | agents/mcp_client.py:1828-1876 | a hook's own result ends the call, with a terminal event exactly when the hook did not record one |
| Dispatch.JumpstarterHook.DispatchInternal | agents/mcp_client.py:1065-1131 | the dispatch task inside the hook, and what its early refusals leave unsaid |
| Dispatch.JumpstarterHook.PreCall | agents/jumpstarter_mcp.py:107-199 | the hook under timeout and cancellation: what was recorded and whether the caller is told, and at most one send |
| Dispatch.ConnectsEndNothing | agents/mcp_client.py:684-756 | connecting ends no action under a tool name that is not one of its own phases |
| Dispatch.LateRejectionEndsTwice | agents/mcp_client.py:1077-1131 | a call that records two terminal events |
| Dispatch.ReservedNameEndsTwice | agents/mcp_client.py:1496-1656 | the same for a tool named like a phase of connecting |
| OperationStore.LaunchedIsFinal | state_store/trace_store.py:1161-1221 | a launched operation is never claimed or started again, and a terminal outcome never changes |
| OperationStore.StaleFenceChangesNothing | state_store/trace_store.py:1275-1359 | a request with an overtaken fence changes nothing |
| OperationStore.ClaimsRaiseTheFence | state_store/trace_store.py:1161-1221 | each claim is granted under a fence above all before |
| ProtectedOperations.StepKeepsInv | agents/mcp_audit.py:364-443 | every delivery, answer, expiry, death and outside request keeps the clearance invariant |
| ProtectedOperations.HandlerStartsAtMostOnce | agents/mcp_audit.py:704-722 | across any processes, restarts, duplicates and lease expiries the handler starts at most once per idempotency key |
| ProtectedOperations.StartedIsOnRecord | agents/mcp_audit.py:704-722 | whenever a handler has started, its operation is durably launched |
| AuditMiddleware.CrashSafeAtEveryStep | agents/mcp_audit.py:598-827 | a process that dies after any step leaves a log that keeps the order |
| AuditMiddleware.StartsInOrder | agents/mcp_audit.py:648-722 | a protected handler starts only after acknowledged request audit, prepared and side-effect-started, in that order |
| AuditMiddleware.SettledInOrder | agents/mcp_audit.py:780-812 | a final transition follows the handler's result and the matching terminal audit, comes at most once, and never beside an indeterminate report |
| AuditMiddleware.ResultStandsOnSettlement | agents/mcp_audit.py:804-827 | a fresh result of a protected call follows an acknowledged final transition |
| AuditMiddleware.CleanStopMeansRenewed | agents/mcp_audit.py:445-480 | the heartbeat stops cleanly exactly when every renewal before the stop was acknowledged |
| AuditMiddleware.MCPAuditMiddleware.OnCallTool | agents/mcp_audit.py:598-827 | every exit keeps the write-ahead order; a protected call returns a fresh result exactly when everything was acknowledged; the one way to settle without a clean heartbeat stop |
| AuditMiddleware.MCPAuditMiddleware.Guarded | agents/mcp_audit.py:704-827 | the guarded part, from launch to settlement |
| AuditMiddleware.MCPAuditMiddleware.Launch | agents/mcp_audit.py:704-716 | prepared, then side-effect-started, each acknowledged first |
| AuditMiddleware.MCPAuditMiddleware.RunHandler | agents/mcp_audit.py:717-770 | the handler under its heartbeat, and both exception paths |
| AuditMiddleware.MCPAuditMiddleware.StopOperationLeaseRenewal | agents/mcp_audit.py:482-495 | after the handler the call goes on without a renewal failure exactly when the heartbeat stopped or was cut short |
| AuditMiddleware.MCPAuditMiddleware.RenewOperationLease | agents/mcp_audit.py:445-480 | the heartbeat loop ends as specified |
| AuditMiddleware.MCPAuditMiddleware.SettleProtected | agents/mcp_audit.py:770-827 | renewal failure, terminal audit, descriptor, final transition |
| AuditMiddleware.MCPAuditMiddleware.FinishOperation | agents/mcp_audit.py:804-827 | without the final acknowledgement there is no result |
| AuditMiddleware.MCPAuditMiddleware.MarkRenewalFailure | agents/mcp_audit.py:497-547 | a lost renewal ends indeterminate, never settled |
| AuditMiddleware.MCPAuditMiddleware.EmitTerminal | agents/mcp_audit.py:549-596 | a lost terminal audit asks for indeterminate |
| AuditMiddleware.CutShortStillCompletes | agents/mcp_audit.py:482-495 | a call that settles although its heartbeat was cut short |
| ReplayCache.LatestStep | agents/mcp_audit.py:681-700 | how one more sighting changes the latest distinct ids |
| ReplayCache.KnownIffFewSince | agents/mcp_audit.py:681-700 | an id is still known exactly when fewer distinct others than the limit were seen since |
| ReplayCache.Cache.Sight | agents/mcp_audit.py:681-700 | the ordered dictionary always equals the 1024 most recent distinct ids in recency order |
| LeaderLease.StepKeepsInv | orchestrator/leader_lease.py:40-130 | every message, delay, loss and clock step keeps the coverage of confirmed deadlines |
| LeaderLease.ServingCovers | state_store/store.py:207-261 | no request of anyone shortens what the store grants a client that has not begun to release |
| LeaderLease.OneLeader | orchestrator/leader_lease.py:64-110 | two clients that have not begun releasing never both lead, in any run |
| LeaderLease.DeadlinesOverRuns | orchestrator/leader_lease.py:108-130 | a client's deadline never decreases |
| LeaderLease.ReleasingOverlaps | orchestrator/leader_lease.py:132-147 | a released client keeps leading while the store grants the lease anew |
| LeaderLease.ReleasingRun | orchestrator/leader_lease.py:132-147 | a run in which two clients lead |
| LeaderLease.LeaderLeaseClient.AcquireLease | orchestrator/leader_lease.py:40-112 | the first attempt that is not retried settles the call, and the deadline counts from that attempt's start |
| LeaderLease.LeaderLeaseClient.RenewLease | orchestrator/leader_lease.py:114-130 | a renewal moves the deadline exactly when it is granted, and is refused without an epoch |
| IterationBudget.ReplayIsConservative | agents/base.py:478-527 | the replay never counts fewer calls than were recorded for the type, and counts the ticket's exactly |
| IterationBudget.ReplayIsExact | agents/base.py:504-515 | on logs with type metadata it is exact |
| IterationBudget.SortedIsByTime | providers/events.py:552-568 | the replay reads exactly the recorded events of the page, by time |
| IterationBudget.InOrderStays | providers/event_projection.py:105-137 | a log whose times follow the recording is read as recorded |
| IterationBudget.SortingIsConservative | agents/base.py:478-527 | sorting loses no call of the epoch unless a call is backdated before an epoch |
| IterationBudget.AgentBase.GetPreviousIterationCounts | agents/base.py:478-527 | the counting loop is the replay, by time, of the page that could be read |
| IterationBudget.AgentBase.RefreshIterationLimits | agents/base.py:534-556 | the limits read, and when the last-iteration notice is taken back |
| IterationBudget.AgentBase.CheckGuards | agents/base.py:1179-1348 | when a response is dropped, stops the run or is acted on; a notice is never given twice over |
| IterationBudget.AgentBase.Run | agents/base.py:800-930 | counters in memory equal the replay plus the calls made; the ceilings; a bounded run ends by itself; no run ends without its reason |
| IterationBudget.AgentBase.Iterate | agents/base.py:862-930 | the loop itself, against the ceilings |
| IterationBudget.RunGrowsItsOwnType | agents/base.py:923-930 | every call of a run counts for its own type and no other |
| IterationBudget.RunTicket | agents/base.py:478-527 | over any runs, deaths and restarts, on a log that fits the page and backdates no call before an epoch: per type and epoch at most the limit plus one, per ticket at most the global limit |
| IterationBudget.UnreadLogOverruns | agents/base.py:519-527 | an unread log grants the allowance again |
| IterationBudget.LongLogOverruns | agents/base.py:493 | so does a log beyond the page |
| IterationBudget.BackdatedCallsOverrun | providers/events.py:552-568 | and so do calls under times before their epoch |
| Transcript.EveryCallAnswered | agents/base.py:1592-1730 | an ordinary turn answers every call and only issued ids |
| Transcript.EachAnsweredOnce | agents/base.py:1592-1730 | each distinct id exactly once if and only if no two calls share an id, save copies of the preceding call |
| Transcript.SharedIdAnsweredTwice | agents/base.py:1592-1730 | a turn that answers one id twice |
| Transcript.TruncateContext | agents/base.py:2461-2506 | what is cut, and that the note counts exactly what was dropped and kept |
| Transcript.TruncationKeepsOrder | agents/base.py:2461-2506 | a truncated transcript keeps each result after its call, and no fully answered one loses an answer |
| Transcript.TruncationAlternates | agents/base.py:2461-2506 | the result alternates if and only if the transcript has at most seven messages and alternated; it is shorter if and only if more than one message is dropped |
| Transcript.CutBreaksAlternation | agents/base.py:2461-2506 | transcripts of four or more turns alternate before the cut and not after it |
| Transcript.CutMayNotShorten | agents/base.py:2461-2506 | a transcript of eight messages that a cut makes no shorter |
| Transcript.AppendKeepsOrder | agents/base.py:1350-1528 | every reaction keeps the transcript well formed, and leaves a call open exactly in the stated cases |
| Transcript.CallsLeftOpen | agents/base.py:1350-1528 | a blocked submit, and prose with calls, that leave a call open |
| Transcript.AgentBase.AnswerCalls | agents/base.py:1592-1730 | the two loops produce the specified answers |
| Transcript.AgentBase.Handle | agents/base.py:1350-1730 | the branches on a response, with clarification before submit and submit before the rest |
| Transcript.AgentBase.Respond | agents/base.py:1350-1730 | the transcript after a response, when it is saved, and when a call is left open |
| Transcript.AgentBase.RelieveContext | agents/base.py:1188-1245 | one truncation per run, else the wrap-up notice |
| Transcript.AgentBase.Converse | agents/base.py:770-788 | any conversation with deaths and resumptions stays well formed |
| BoundedCopy.CopyIsBounded | agents/base.py:63-129 | text copied plus remaining budget never exceeds the starting budget; nodes and nesting are bounded |
| BoundedCopy.ContextIsBounded | agents/base.py:581-602 | for every ticket at most 8192 characters, 8704 nodes and seven levels |
| BoundedCopy.WhatFitsIsCopiedWhole | agents/base.py:63-129 | a plain value that fits is copied unchanged and pays exactly its size |
| BoundedCopy.BoundInvestigationValue | agents/base.py:63-129 | the recursion over the shared mutable budget computes the specified copy and terminates on every input, JSON inside strings included |
| BoundedCopy.BoundItems | agents/base.py:85-94 | the list loop |
| BoundedCopy.BoundFields | agents/base.py:70-84 | the dictionary loop |
| BoundedCopy.BoundText | agents/base.py:95-121 | strings, decoded and nested JSON |
| InvestigationContext.EncodingIsPrintable | agents/base.py:607-610 | the encoder emits printable ASCII only |
| InvestigationContext.EscapingAtMostDoubles | agents/base.py:614-620 | escaping a printable prefix at most doubles it |
| InvestigationContext.QuotesDouble | agents/base.py:614-620 | and the bound is met |
| InvestigationContext.BodyFits | agents/base.py:607-622 | the body is at most 6000 characters for every value, and unchanged when it fits |
| InvestigationContext.LongRenderingIsCarried | agents/base.py:614-620 | a rendering that is too long leaves a note that reads back as exactly its first 2950 characters |
| ArtifactPaging.SplitJoins | agents/server_utils.py:2877-2883 | splitting into lines loses nothing |
| ArtifactPaging.PageKeepsTheBudget | agents/server_utils.py:2886-2907 | raw bytes never exceed the cap, a line is cut exactly when truncated is set, and how has_more and the line count follow |
| ArtifactPaging.CutShowsNothing | agents/server_utils.py:2893-2905 | a cut line reads like the whole one if and only if only a part of its last character is missing and that is the replacement character |
| ArtifactPaging.PagesRebuildTheFile | agents/server_utils.py:2907-2917 | following the pages until has_more is false rebuilds the file if and only if no cut shows, and never shows more |
| ArtifactPaging.LongLineIsLost | agents/server_utils.py:2886-2917 | a file of one long line that its pages do not rebuild |
| ArtifactPaging.FollowingMovesOn | agents/server_utils.py:2871-2872 | following makes progress exactly when the limit is at least one |
| ArtifactPaging.Reader.Skip | agents/server_utils.py:2877-2883 | the chunked skip passes exactly the requested lines, or all of them |
| ArtifactPaging.Reader.ReadPage | agents/server_utils.py:2886-2907 | the byte-budgeted loop is the simple page specification |
| ArtifactPaging.Reader.ReadArtifactFile | agents/server_utils.py:2816-2917 | for every offset and limit the read is the specified page |
| StdioFraming.ReceivingMore | agents/mcp_stdio.py:129-146 | lines and remainder after one more chunk |
| StdioFraming.RoundTrip | agents/mcp_stdio.py:148-163 | payloads come back unchanged if and only if none holds a newline |
| StdioFraming.StdioClient.StdoutReader | agents/mcp_stdio.py:129-146 | what is delivered depends on the text alone, not on its chunks |
| StdioFraming.StdioClient.StdinWriter | agents/mcp_stdio.py:148-163 | writes every payload with its newline, in order |
| FlowMatch.SameNormalSameBits | agents/ethtool.py:126-139 | values that compare equal stand for the same bits |
| FlowMatch.FullMaskIsZero | agents/ethtool.py:196-205 | the full-match mask compares every bit |
| FlowMatch.WildcardIsAllOnes | agents/ethtool.py:208-223 | a wildcard mask has every bit of the field's width set |
| FlowMatch.UnconfiguredFieldIgnoresAll | agents/ethtool.py:314-326 | a field that was not configured ignores all of its bits |
| FlowMatch.ConfiguredFieldAgrees | agents/ethtool.py:328-350 | a configured field is read back with the same value and mask bits |
| FlowMatch.AcceptedSelectsTheSame | agents/ethtool.py:283-351 | an accepted rule selects exactly the packets the configured rule selects, and has the same action |
| FlowParse.DuplicateKeysDiffer | agents/ethtool.py:483-487 | duplicate keys with different numbers differ |
| FlowParse.UnusedKey | agents/ethtool.py:483-487 | the search for an unused key terminates at the first free one |
| FlowParse.TakeLine | agents/ethtool.py:441-509 | one line: nothing is overwritten, and the line has a place of its own or is on record |
| FlowParse.SettleDeferred | agents/ethtool.py:511-529 | a second destination MAC is the extended one of an Ethernet rule or a duplicate |
| FlowParse.ParseBlock | agents/ethtool.py:428-540 | no line of a block is dropped; what is missing is recorded exactly; a rule that is not partial has non-blank lines = 2 + fields |
| FlowParse.ParseRules | agents/ethtool.py:370-546 | exactly which tables are accepted; ids distinct, in order, one per marker, matching the total |
| FlowRules.AcceptedAccountsForItsBlock | agents/ethtool.py:283-540 | a rule parsed from a block and accepted by the matcher accounts for exactly the lines of the block and selects exactly the configured packets |
| FlowParse.BlocksAreContiguous | agents/ethtool.py:412-428 | the blocks leave nothing out between the first marker and the end |
| RetryGuard.OtherKindsUntouched | orchestrator/retry_guard.py:16-24 | recording or clearing one kind leaves other kinds' well-formed entries as they were |
| RetryGuard.PrunedIsCurrent | orchestrator/retry_guard.py:96-106 | pruning keeps exactly the entries of the current status |
| RetryGuard.RecordTellsTheStay | orchestrator/retry_guard.py:55-86 | in every stay the record tells how often and when the kind failed |
| RetryGuard.FailuresAreBounded | orchestrator/retry_guard.py:55-86 | failures of one kind in one unbroken stay never exceed the limit |
| RetryGuard.FailuresAreSpaced | orchestrator/retry_guard.py:37-52 | a failure comes at least the recorded delay after the one before |
| RetryGuard.SuppressedExactly | orchestrator/retry_guard.py:37-52 | a kind is held back exactly when its failures used up the limit or the delay is not over |
| RetryGuard.DelaysGrow | orchestrator/retry_guard.py:76-77 | delays do not shrink and never exceed the maximum |
| RetryGuard.DelaysDouble | orchestrator/retry_guard.py:76-77 | the first delay is the base, and each next one doubles up to the maximum |
| RetryGuard.ExhaustionStays | orchestrator/retry_guard.py:37-52 | exhaustion suppresses at all later times until cleared or the status changes |

## Left out

- Sockets, HTTP, subprocesses, the model call, logging, redaction patterns and trace building: outcomes given to the methods, or functions passed in.
- asyncio scheduling: any interleaving of atomic steps is allowed; fairness and progress are not claimed.
- MCPClient.AgentMCPClient.Connect: composed for a connect that nothing interrupts, like `Disconnect`; interleavings are those of the connection machine. The blocks that only set a flag, a lock or a task set are proved too and have no row of their own.
- The sweep of a disconnect awaits while it holds the lifecycle lock: modelled by one field that makes every other user of the lock wait; each closed server is one step.
- Retiring connection tasks, `_tool_owners` and the other ownership tables: not part of the registry invariant; whether a policy recheck refuses is an input.
- The generation compared beside the connection's identity (`agents/mcp_client.py:602`): implied, since a connection's generation never changes.
- Dispatch.Client.CallTool: how the registry looks after a reconnect is an input here, not the state of the connection machine; whether recording works is fixed for one call; ordinary hooks send nothing through this client.
- The one-connect guard of the Jumpstarter hook: claimed for sequential calls only, as the flag is tested before an await.
- OperationStore.LaunchedIsFinal: rows are never deleted here; the store's maintenance deletion is not part of this model.
- ProtectedOperations.HandlerStartsAtMostOnce: one clock for all stores and processes; the content of results and descriptors is not modelled.
- AuditMiddleware.MCPAuditMiddleware.OnCallTool: a failure while a result is sanitized or described is an input; that such a call has a terminal audit is not claimed. Identity validation is one yes or no.
- LeaderLease.OneLeader: clients and store share one clock, as the source compares nothing else; each client has one lease call outstanding; after a release the store counts epochs from one again, and epochs are not claimed to grow.
- IterationBudget.RunTicket: one run at a time on a ticket, and epochs only between runs; the agent has an event bus and each recorded event is durable. The older log file and the event store count as one log in cursor order; a time that cannot be parsed counts as later than all others.
- Transcript: the texts of messages; a truncation that raises leaves the transcript as it was.
- BoundedCopy: JSON decoding and the regular expressions are functions passed in; dictionary keys are those of the input in its order; the wording of omission marks.
- InvestigationContext: redaction between the copy and the rendering may produce any value; which agents and tickets get a context; characters outside Unicode scalar values.
- ArtifactPaging: path containment, decoding and newline translation; the file is its decoded text.
- StdioFraming: the incremental decoder; what a line parses to is a function passed in.
- FlowMatch: the label tables and the readers of integers and addresses are functions passed in; `Library` lists what is asked of them. The matcher may reject an equivalent rule that differs under ignored bits.
- FlowParse: lexing of a line and finding markers are inputs; text before the first marker and after a closing count belongs to no block.
- RetryGuard: times and delays are real numbers; floating-point overflow of huge delays.
- Prompts, slash commands, human-input polling, quotas, the circuit breaker, handoffs, the gateways and the user interface: plumbing or single-branch facts.
