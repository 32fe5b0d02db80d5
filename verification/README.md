# Verification of tidewave-core

A Dafny model of the concurrent and the byte-level parts of tidewave-core, with proofs of what
they guarantee. `dafny verify dfyconfig.toml` checks everything.

## What is modelled

**ACP proxy** (`ws/acp.rs`). One agent process serves browser channels that come and go.
`AcpProtocol` is a transition system whose actors are the channel tasks (client messages, then
cleanup), the router that handles the agent's output in order, and the reapers of grace-period
timers. A step is what happens between two points at which another actor may run; a run is any
interleaving. The lifecycle mutexes are objects of their own, because their table entry can be
discarded while somebody still holds or waits for the mutex. A channel whose
message loop meets a binary payload crashes: its task ends without the cleanup. A few fields are
history: the program's own data never depend on them. `attached` notes where in its queue an
owner's messages of a session begin and with which log entry, `released` the sessions let go
since they last had an owner (cancelled by the reaper, or released by a failed load with nobody
to see to them), `bypassed` the sessions whose mutex entry was discarded or passed over while in
use, `outcomes` what became of responses. A session is marked as `bypassed` only as long as some
task is past a mutex of it or waits for another than the registered one, or the router is about
to push one of its messages (`AcpSessions.MarksAreCurrent`); only then is it outside the results
that rest on the mutex. A delivery that began or was repeated meanwhile is not noted in `attached`.
`AcpInvariant` is the inductive invariant, `AcpLocks` and `AcpMoves` say how its parts survive
single changes, and `AcpChannelSteps`, `AcpReaperSteps` and `AcpRouterSteps` go through the
steps. The results are in `AcpTheorems`, `AcpEffects` and `AcpSessions`; `AcpReconnect` (a
reconnect from its replay on), `AcpTimers` (which timers a load makes void), `AcpReleased`
(which sessions without owner are reaped), `AcpResponses` and `AcpDeliveries` (what becomes of
each response), `AcpReplies` (how a load ends), `AcpMessages` (the agent's messages and the
clients' acknowledgements) and
`AcpCrashes` (owners that crash) state theirs over runs. `AcpRuns` joins runs, and
`AcpCounterexamples` has runs in which a result's condition fails and so does its conclusion.
`AcpSession.SessionState`, `AcpProcess.ProcessState` and `AcpInit.InitState` are the source's
own objects, updated in place, method by method. The methods are specified by the functions the
transition systems take their steps with (`AcpSession.After` and `Labelled`, `AcpTable`, and
`AcpIds.Ids` for request ids). `AcpIds`, `AcpInit` and `AcpInactivity` add the transition
systems for request ids drawn in one step and registered in another, for `initialize` and for
stopping idle processes.

**MCP reverse proxy** (`ws/mcp.rs`). `McpProtocol` interleaves HTTP handlers with channel tasks
at the granularity of one access to shared data; a handler that has looked its session up keeps
the entry borrowed until after its push. `McpState.McpChannelState` has the critical sections as
methods. `McpOutcomes` follows requests and answers through whole runs.

**Downloads** (`http_handlers.rs`). `DownloadProtocol` has any number of concurrent requests, the
shared entries with their broadcast channels, and one task for each started entry.
`DownloadProgress` is the read loop with its progress reports, `DownloadStreams` says what
clients read, `DownloadExtraction` is about archives whose extraction breaks off.

**Terminal queries and environment dump** (`shell_env.rs`), **binary frames** (`phoenix.rs`),
**process output** (`server.rs`) and **file watching** (`ws/watch.rs`) are sequential: methods
with the source's loops and mutable state, proved against specifications whose own properties
are proved beside them. `Utf8` defines text by the grammar in section 4 of RFC 3629.

Results about a transition system that ask for `Inv` hold of every reachable state: each system
proves that its initial states satisfy `Inv` and that every step keeps it (`StepKeeps`,
then `RunKeeps` or `RunHolds`, then `ReachableHolds` where there is a `Reachable`); the same goes
for `LateGone` of `AcpCrashes` (`LateGoneHolds`).

## Where the steps come from

The transition systems are functions from state to state. Their branches follow these lines.

- Channel steps of `AcpProtocol`: `LoadBegin` to `LoadFinish` are `handle_tidewave_session_load`
  (acp.rs 1414-1504); `ClaimBegin` to `ClaimFinish` are `handle_acp_session_load_or_resume`
  (1506-1577); `AckBegin` to `AckPrune` are `handle_ack_notification` (1686-1715); `Join`,
  `Leave`, `Unmap`, `Arm` and `Finish` are the join and the cleanup of `init` (930-1062);
  `Crash` is the conversion of the payload (1011), which panics on a binary one.
- Reaper steps: `Wake` to `Discard` are `stop_unmapped_session_if_still_disconnected`
  (1131-1219) with `remove_session` (638-644).
- Router steps: `Receive`, `AppendMessage`, `LookupOwner` and `PushMessage` are
  `handle_process_notification_or_request` (2317-2354); `RespondNew`, `SenderCheck`, `UnmapLate`
  and `ArmLate` are `create_session_from_agent_response`, `confirm_claimed_session_response` and
  `schedule_reap_if_unmapped` (2168-2261); `RespondFailedCreated`, `RespondFailedClaim` and
  `LockDrop` are the failed loads (2138-2156); `DeliverAnswer` to `FindLate` are
  `handle_process_response` and `handle_disconnected_client_response` (2048-2058, 2264-2315);
  `CloseSession` and `LockClose` are 2060-2067.
- `AcpIds`: drawing and registering (465-506), `handle_initialize_request` (1344-1371), the
  reaper's close (1177-1183) and the response (2032-2035).
- `AcpInit`: `handle_initialize_request` (1335-1412), `wait_for_completion` (706-722),
  `maybe_handle_init_response` (2074-2098).
- `AcpInactivity`: the join under the process mutex (944-964), the departure (1051-1104) and
  `spawn_process_stop_after_inactivity` (1221-1276).
- `McpProtocol`: channel steps are `init` (mcp.rs 100-203) and `cleanup_pending_answers`
  (344-369), handler steps are `mcp_channel_client_handler` (211-310) and the drop guard (69-73).
- `DownloadProtocol`: request steps are http_handlers.rs 258-281 and 331-429, steps of the
  download task 290-328, 497-605, 608-641 and 643-656.

## Model

| member | source | states |
|---|---|---|
| AcpSession.NotificationIdsDistinct | tidewave-core/src/ws/acp.rs:803-806 | Notification ids name one notification each, and no JSON-printed request or response id ever equals one |
| AcpSession.IdsReadBack | tidewave-core/src/ws/acp.rs:803-806 | A notification id is "notif_" and its number in decimal, and integer ids are printed in decimal |
| AcpSession.NotificationUnique | tidewave-core/src/ws/acp.rs:803-822 | In a session's log the id of a notification occurs once |
| AcpSession.ReplayRefinesLog | tidewave-core/src/ws/acp.rs:833-855 | With the buffer being the log from k on, the messages after the notification at log index j are the log after max(k, j+1) |
| AcpSession.AcknowledgementsCommute | tidewave-core/src/ws/acp.rs:824-831 | Acknowledgements of two notifications leave the same buffer in either order, and repeating one changes nothing |
| AcpSession.ReplaysAfterExactlyWhenFirst | tidewave-core/src/ws/acp.rs:843-855 | With any entry's id, a replay goes on right after that entry if and only if no earlier entry of the buffer has the same id |
| AcpSession.LabelledExtendsLog | tidewave-core/src/ws/acp.rs:2326-2344 | Labelling the next message keeps notification numbers strictly increasing and every entry under its own id |
| AcpSession.SessionState.constructor | tidewave-core/src/ws/acp.rs:793-801 | A new session has an empty log and buffer, number 1, is not cancelled and has counter 0 |
| AcpSession.SessionState.GenerateNotificationId | tidewave-core/src/ws/acp.rs:803-806 | The number returned is above every number in the log |
| AcpSession.SessionState.AddToBuffer | tidewave-core/src/ws/acp.rs:808-822 | Any entry goes to the end of log and buffer, nothing is dropped; the object stays valid whenever the log with that entry is well-formed |
| AcpSession.SessionState.Record | tidewave-core/src/ws/acp.rs:2326-2344 | A routed message is stored under its id; a notification's id is new to the log |
| AcpSession.SessionState.PruneBuffer | tidewave-core/src/ws/acp.rs:824-831 | Pruning only advances, and to exactly the message after the acknowledged notification |
| AcpProcess.ProcessState.constructor | tidewave-core/src/ws/acp.rs:434-453 | A new process has no session, no request and draws its first id as 1 |
| AcpProcess.ProcessState.GenerateProxyId | tidewave-core/src/ws/acp.rs:465-469 | The id was never drawn for anything before and is not that of any request ever registered |
| AcpProcess.ProcessState.RegisterInflightRequest | tidewave-core/src/ws/acp.rs:489-506 | Registers under the id, whatever it is; an id drawn for a request and not registered before keeps all requests apart |
| AcpProcess.ProcessState.MapClientIdToProxy | tidewave-core/src/ws/acp.rs:471-487 | A forwarded request gets a fresh id and is remembered with its channel and client id |
| AcpProcess.ProcessState.RemoveInflightRequest | tidewave-core/src/ws/acp.rs:514-518 | Succeeds exactly for a registered request not answered before |
| AcpProcess.ProcessState.HandleProcessResponse | tidewave-core/src/ws/acp.rs:2032-2035 | A response goes to the channel and client id that issued the request, a second one with that id or one to a reaper's close changes nothing, and registered = answered + in flight |
| AcpProcess.ProcessState.MapSessionChannel | tidewave-core/src/ws/acp.rs:552-556 | The channel owns the session afterwards exactly if it exists; no session, state object or other owner changes |
| AcpProcess.ProcessState.UnmapSessionIfOwnedBy | tidewave-core/src/ws/acp.rs:558-571 | Releases the session exactly if the channel owns it, and tells so |
| AcpProcess.ProcessState.ClaimOrInsertSessionChannel | tidewave-core/src/ws/acp.rs:573-598 | Refused exactly if somebody owns the session; otherwise claims it or inserts it with a new state |
| AcpProcess.ProcessState.UnmapSessionsForChannel | tidewave-core/src/ws/acp.rs:600-615 | Releases exactly the channel's sessions and returns each once with its cancel counter |
| AcpProcess.ProcessState.InsertSession | tidewave-core/src/ws/acp.rs:617-636 | Inserts exactly if the session is unknown, and never overwrites |
| AcpProcess.ProcessState.RemoveSession | tidewave-core/src/ws/acp.rs:638-644 | Session and mutex entry are gone, all others stay |
| AcpProcess.ProcessState.RemoveSessionIfUnownedOrOwnedBy | tidewave-core/src/ws/acp.rs:646-673 | Never removes a session that another channel owns; otherwise session and mutex entry go |
| AcpProcess.ProcessState.SessionLifecycleLock | tidewave-core/src/ws/acp.rs:675-681 | The registered mutex if there is one, otherwise a new one that becomes the registered one |
| AcpProcess.UnmapAllReleases | tidewave-core/src/ws/acp.rs:600-615 | After its cleanup a channel owns nothing, other owners keep what they had, and a second cleanup changes nothing |
| AcpProcess.UnmapOneByOne | tidewave-core/src/ws/acp.rs:600-615 | Releasing owned sessions one at a time in any order is the cleanup |
| AcpProcess.ClaimsExclude | tidewave-core/src/ws/acp.rs:558-598 | A claim excludes other channels and is undone by its own release only |
| AcpTheorems.RunKeeps | tidewave-core/src/ws/acp.rs:1781-1797 | Every interleaving of channels, router and reapers keeps the invariant |
| AcpTheorems.ReplayHasNoGap | tidewave-core/src/ws/acp.rs:1465-1487 | Whatever the interleaving of router and load, a connected owner whose delivery is noted has received the log from its start on, in order and without gap; only the last replayed message can come twice, and only if it was logged but not yet routed |
| AcpTheorems.LoadStartsAfterLatest | tidewave-core/src/ws/acp.rs:1469-1480 | A load naming the notification at log index j starts at j+1, or where pruning has got to |
| AcpTheorems.OwnersAreLive | tidewave-core/src/ws/acp.rs:1055-1059 | An owner's message loop runs, or its cleanup has still to unmap, or the router is before its sender check, if and only if the owner has not crashed |
| AcpTheorems.OwnerlessIsSeenTo | tidewave-core/src/ws/acp.rs:1058-1062 | A session without owner has a pending timer with its current counter (or a reaper past that test), or a load under way, or was let go since it last had an owner: cancelled by the reaper, or released by a failed load with nobody to see to it |
| AcpTheorems.ReaperSparesOwners | tidewave-core/src/ws/acp.rs:1155-1200 | Past its check the reaper stops only sessions nobody owns |
| AcpTheorems.MutualExclusion | tidewave-core/src/ws/acp.rs:675-681 | At most one actor is past a session's lifecycle mutex unless its exclusion is marked as bypassed |
| AcpEffects.OwnersChangeThroughNone | tidewave-core/src/ws/acp.rs:552-636 | While a session stays in the table its owner changes only from none or to none |
| AcpEffects.TimerVoidAfterLoad | tidewave-core/src/ws/acp.rs:1426-1435 | A timer that has not passed its counter test when a load bumps the counter never stops the session, over every run |
| AcpEffects.SettledResponseKept | tidewave-core/src/ws/acp.rs:2282-2289 | A pushed response is in the channel's queue; a buffered one is in the log, and in the buffer until acknowledged |
| AcpEffects.LateResponseReachesOwner | tidewave-core/src/ws/acp.rs:2282-2295 | A buffered late response is in the queue of every connected owner that starts at or before it |
| AcpSessions.SessionsLeaveTable | tidewave-core/src/ws/acp.rs:638-672 | A session is removed exactly by its answered close, by the failure of the load that created it while nobody else owns it, or by the reaper, which closes it only while nobody owns it |
| AcpSessions.MutexStaysUntilDiscarded | tidewave-core/src/ws/acp.rs:638-681 | A session's mutex entry appears exactly when somebody asks for the mutex and there is none, never changes, and goes exactly with a discard |
| AcpSessions.BuffersShrinkByAckOnly | tidewave-core/src/ws/acp.rs:808-831 | No log ever loses an entry, and a buffer loses entries only to the acknowledgement of a channel found to be the owner |
| AcpSessions.AckPrunesToLatest | tidewave-core/src/ws/acp.rs:1697-1712 | Acknowledging the notification at log index j keeps the log after max of j and what was dropped before |
| AcpMessages.OnlyOwnersPrune | tidewave-core/src/ws/acp.rs:1697-1712 | From the start of any run, whoever is about to prune a buffer was found to own the session since it asked |
| AcpMessages.OwnersAckPrunes | tidewave-core/src/ws/acp.rs:1686-1715 | An owner's acknowledgement of the notification at log index j leaves the log after the later of j and what was dropped before |
| AcpMessages.StrangersAckIsIgnored | tidewave-core/src/ws/acp.rs:1697-1712 | An acknowledgement by a channel that does not own the session changes nothing |
| AcpMessages.EveryMessageIsLogged | tidewave-core/src/ws/acp.rs:2317-2354 | Over every run a notification or request for a session in the table gets the next place in its log, with the agent's content, or the router is still about to put it there; one for another session is dropped |
| AcpMessages.WorkIsAsAsked | tidewave-core/src/ws/acp.rs:1414-1430 | From the start of any run, a load, claim or acknowledgement is for the session, and names the latestId, of its client's message |
| AcpReplies.LoadReplyTellsCancel | tidewave-core/src/ws/acp.rs:1463-1500 | The reply of a load that succeeds says cancelled if and only if, in the run before its replay, a reaper had cancelled that state object and no load had replayed it since |
| AcpReplies.LoadIsAnsweredOnce | tidewave-core/src/ws/acp.rs:1438-1500 | Over every run a load sends exactly one reply, with its last step: the error reply if the session is unknown or owned then, changing no session, and the flag otherwise |
| AcpSessions.CountersOnlyGrow | tidewave-core/src/ws/acp.rs:1432-1435 | Over every run a session's cancel counter never falls |
| AcpSessions.LoadVoidsTimer | tidewave-core/src/ws/acp.rs:1426-1435 | A timer armed with the session's counter and still before its test when a load finds the session never stops it after the load's bump, over every run |
| AcpSessions.BypassedOnlyWhenInUse | tidewave-core/src/ws/acp.rs:638-672 | A session's exclusion is bypassed only when its mutex entry is discarded while somebody else is at it, or when it is created while somebody is past a mutex of it or at another than the registered one |
| AcpSessions.ExclusionFromOrder | tidewave-core/src/ws/acp.rs:675-681 | From any state in which nobody is past a mutex of the session or waits for a stale one, over every run that does not discard its mutex in use: at most one task is past the mutex, loads and reapers past their check have the session without owner, and no step passes it from owner to owner |
| AcpReconnect.ReconnectReplaysTheLog | tidewave-core/src/ws/acp.rs:1465-1487 | From a load with any latestId, through replay and mapping, to any later state of any run in which the channel is still owner: it has received the log from behind the first buffered entry with that id, or from the start of the buffer, in order and without gap; only the message logged but not yet routed at the mapping comes twice |
| AcpReconnect.ReplayedStarts | tidewave-core/src/ws/acp.rs:843-855 | The replay starts behind the first buffered entry with the id, and at the start of the buffer if there is none, as for an empty id |
| AcpReconnect.StartOfNotification | tidewave-core/src/ws/acp.rs:843-855 | With a notification's id it starts right behind the notification, or where pruning has got to |
| AcpReconnect.LateResponseReachesReconnect | tidewave-core/src/ws/acp.rs:2282-2295 | A late response buffered by then, at the start of the replay or later, is among what the reconnected client has received |
| AcpReconnect.AttachedFromOrder | tidewave-core/src/ws/acp.rs:1481-1487 | Over every run that does not discard the mutex in use, whoever owns an unmarked session has a complete delivery noted, if that was so at first or there was no owner |
| AcpReconnect.AttachmentKept | tidewave-core/src/ws/acp.rs:1481-1487 | While a channel owns the session, the place where its delivery began does not change, over every run |
| AcpReconnect.LogsOnlyGrow | tidewave-core/src/ws/acp.rs:808-822 | Over every run a log is only extended |
| AcpTimers.TimerStopsExactlyWhenMatched | tidewave-core/src/ws/acp.rs:1146-1165 | At a load's bump, some continuation lets an old timer stop the session if and only if that timer had passed its counter test |
| AcpTimers.PendingTimerCanStop | tidewave-core/src/ws/acp.rs:1146-1200 | A timer with the current counter of a session without owner can go on to stop it |
| AcpReleased.OwnerlessIsReapedExactlyWhenAttended | tidewave-core/src/ws/acp.rs:1106-1200 | Some continuation without load, claim or close gets a reaper to stop a session without owner, its mutexes being free, if and only if a timer with its current counter, a reaper past that test, an arming cleanup or the router sees to it |
| AcpReleased.ReleasedIsReapedExactlyWhenSeen | tidewave-core/src/ws/acp.rs:2151-2156 | A session let go by a failed load is reaped in some continuation if and only if some task sees to it at that moment |
| AcpReleased.ForgottenStays | tidewave-core/src/ws/acp.rs:1106-1129 | A session without owner that nobody sees to stays so, and in the table, over every run without a load, claim or close of it |
| AcpResponses.EveryResponseIsTakenOn | tidewave-core/src/ws/acp.rs:2027-2046 | Every response the agent gives is worked on by the router under the channel and session it belongs to |
| AcpResponses.LateTargetHolds | tidewave-core/src/ws/acp.rs:2299-2315 | A connected channel that the router is about to push a late response to still owns the session, whatever other tasks did since the lookup |
| AcpResponses.EveryResponseSettles | tidewave-core/src/ws/acp.rs:2264-2297 | Over every run a response is settled once the router is done with it: pushed to the channel that asked or, with that gone, to a channel that owns its session, or put in the log of its session's state object, or given up where it names no session or one that is not in the table |
| AcpDeliveries.ConnectedAskerIsAnswered | tidewave-core/src/ws/acp.rs:2048-2050 | Over every run in which the channel that asked stays connected, its response is on its way to it or in its queue |
| AcpDeliveries.ConnectedOwnerGetsLateResponse | tidewave-core/src/ws/acp.rs:2273-2281 | Over every run in which that channel is gone and another one stays the connected owner, the response is on its way to the owner or in its queue, and neither buffered nor lost |
| AcpDeliveries.AnsweredCloseRemovesSession | tidewave-core/src/ws/acp.rs:2060-2067 | Over every run the response to a close, whatever becomes of it, makes the router remove the session before it turns to anything else |
| AcpCrashes.CrashedOwnerKeeps | tidewave-core/src/ws/acp.rs:1008-1018 | A crashed channel keeps its sessions over every run, until the agent answers their close or fails a load it had asked for |
| AcpCrashes.OwnedIsRefused | tidewave-core/src/ws/acp.rs:1975-1996 | The check of every load and claim of an owned session ends in an error reply and changes neither table nor logs |
| AcpCrashes.CrashedOwnerShutsOut | tidewave-core/src/ws/acp.rs:1439-1455 | Over every run in which a crashed owner keeps a session, no load of it is past its check and no reaper past its own |
| AcpCrashes.IdleOwnersCanCrash | tidewave-core/src/ws/acp.rs:1008-1018 | From every state in which an owner is between two messages, one binary payload makes it a crashed owner |
| AcpCounterexamples.CrashedOwnerHappens | tidewave-core/src/ws/acp.rs:1008-1018 | A crashed owner is reached |
| AcpCounterexamples.ReleasedSessionIsForgotten | tidewave-core/src/ws/acp.rs:2151-2156 | A session let go by a failed load with nobody to see to it is reached |
| AcpCounterexamples.MatchedTimerIsNotVoid | tidewave-core/src/ws/acp.rs:1146-1165 | A timer past its counter test can stop a session although a load has bumped the counter since |
| AcpCounterexamples.EveryLoadCanOverwriteOwner | tidewave-core/src/ws/acp.rs:638-644 | From every state in which a load is past its check and the router between two messages, a run leads to where the load takes the session from a connected owner |
| AcpCounterexamples.EveryReaperCanStopOwned | tidewave-core/src/ws/acp.rs:638-644 | From every state in which a reaper is past its check and the router between two messages, a run leads to where it closes the session under a connected owner |
| AcpCounterexamples.PastTheCheckHappens | tidewave-core/src/ws/acp.rs:1439-1455 | Such states are reached |
| AcpIds.RunKeeps | tidewave-core/src/ws/acp.rs:465-518 | Every interleaving of drawing, registering and answering keeps the ids apart |
| AcpIds.IdsAreDistinct | tidewave-core/src/ws/acp.rs:1344-1373 | Over every run in which ids are drawn in one step and registered in another, all ids drawn are distinct, and nobody registers an id before its drawer does |
| AcpIds.ClosesAreNotAnswered | tidewave-core/src/ws/acp.rs:1177-1183 | The id of a reaper's close is never registered and no response to it is routed; at most one initialize attempt is registered |
| AcpIds.ResponsesAreOneToOne | tidewave-core/src/ws/acp.rs:2032-2058 | Over every run each response goes once, to the channel and client id of its request, and registered = routed + in flight |
| AcpInit.InitState.constructor | tidewave-core/src/ws/acp.rs:685-690 | Starts out not started |
| AcpInit.InitState.Begin | tidewave-core/src/ws/acp.rs:692-704 | Tells the first caller to start and no other, and never lowers the state's rank |
| AcpInit.InitState.SetComplete | tidewave-core/src/ws/acp.rs:724-748 | Completes exactly if the request in flight is the one named |
| AcpInit.InitState.SetFailed | tidewave-core/src/ws/acp.rs:769-772 | Fails from every state |
| AcpInit.InitState.CompleteIfCurrent | tidewave-core/src/ws/acp.rs:724-752 | Completes and notifies the waiters exactly for the request in flight |
| AcpInit.InitState.Fail | tidewave-core/src/ws/acp.rs:769-774 | Fails from every state and notifies the waiters |
| AcpInit.InitializeRunsOnce | tidewave-core/src/ws/acp.rs:1335-1412 | However many clients ask, initialize is forwarded at most once; whoever is answered gets, under its own id, the content of the one response the agent gave to that request; nobody is refused unless the process failed |
| AcpInit.ResponseAnswersLaterRequests | tidewave-core/src/ws/acp.rs:1347-1351 | After the agent's response, and without a failure, every later request is answered with its content under the client's id |
| AcpInit.NoWakeupMissed | tidewave-core/src/ws/acp.rs:706-722 | Once the state is settled and notified every waiter can go on, and then gets an answer or a refusal |
| AcpInit.RankNeverFalls | tidewave-core/src/ws/acp.rs:724-774 | The state never goes back and only the current request completes it |
| AcpInactivity.TimerHarmsExactlyWhenTorn | tidewave-core/src/ws/acp.rs:1066-1068 | Some continuation lets a departing channel's timer signal a process that has subscribers if and only if a join came between its reads of count and epoch and the process was not signalled before |
| AcpInactivity.IdleTimersSpareClients | tidewave-core/src/ws/acp.rs:1240-1248 | From the start: if no epoch of a process was read with a torn count, the process is only ever signalled while nobody is connected to it |
| AcpInactivity.RunKeeps | tidewave-core/src/ws/acp.rs:944-964 | An outdated epoch, or one read with nobody connected or connecting, stays harmless |
| AcpInactivity.TornReadStopsClient | tidewave-core/src/ws/acp.rs:1066-1068 | The torn read happens: a run after which the timer can signal the process of a connected client |
| AcpInactivity.SignalledExactlyWhenEpochStands | tidewave-core/src/ws/acp.rs:1240-1273 | A step sends a process its exit signal if and only if it fires a timer of it whose epoch is the process's present one; from then on it cannot be joined |
| AcpInactivity.SignalledOverRuns | tidewave-core/src/ws/acp.rs:1240-1273 | Over every run the processes signalled are those for which such a timer has fired |
| AcpInactivity.LastDepartureCanStop | tidewave-core/src/ws/acp.rs:1051-1104 | When the last client leaves, its timer can stop the process |
| AcpInactivity.SignalledOnlyAfterZeroCount | tidewave-core/src/ws/acp.rs:1066-1068 | From the start, a process is signalled only after a departing channel has counted no subscribers of it |
| AcpInactivity.RegistrationChangesExactlyWhen | tidewave-core/src/ws/acp.rs:1267-1270 | Which process new clients join changes exactly with the first join, an exit, and a timer whose epoch stands |
| AcpInactivity.FireUnregistersExactlyWhen | tidewave-core/src/ws/acp.rs:1267-1270 | A firing timer unregisters whatever process is registered, exactly if its own epoch stands; a successor of its process is unregistered without being stopped |
| AcpInactivity.PendingTimerCanUnregisterSuccessor | tidewave-core/src/ws/acp.rs:1267-1270 | Every pending timer whose epoch stands can do so: a run in which its process exits, a client starts another one, and that one becomes unknown to later clients |
| McpProtocol.ProxyIdInjective | tidewave-core/src/ws/mcp.rs:253-256 | Different numbers give different proxy ids |
| McpState.McpChannelState.constructor | tidewave-core/src/ws/mcp.rs:76-83 | Nothing is registered or awaited at first |
| McpState.McpChannelState.Join | tidewave-core/src/ws/mcp.rs:116-132 | The session gets a channel id that no registered channel has |
| McpState.McpChannelState.Install | tidewave-core/src/ws/mcp.rs:252-269 | A pending answer is installed under a key that displaces nothing |
| McpState.McpChannelState.Complete | tidewave-core/src/ws/mcp.rs:147-158 | Completes exactly for a response (exactly one of result and error, no method) whose id is awaited from this channel, restores the client's id and removes that entry only |
| McpState.McpChannelState.RemoveIf | tidewave-core/src/ws/mcp.rs:185-187 | Unregisters this channel only, never its replacement |
| McpState.McpChannelState.CleanupPendingAnswers | tidewave-core/src/ws/mcp.rs:344-369 | Fails everything that waits for the channel, once each and under its client's id, and nothing else |
| McpSteps.NeverStarves | tidewave-core/src/ws/mcp.rs:289-300 | The sending half of a waiting handler's oneshot is never dropped unused |
| McpTheorems.RunKeeps | tidewave-core/src/ws/mcp.rs:100-310 | Every interleaving of handlers and channels keeps the invariant |
| McpTheorems.UnregisteredIsLetGo | tidewave-core/src/ws/mcp.rs:237-280 | When a channel has unregistered no handler still holds it, so none can install an entry for it |
| McpTheorems.DepartedStaysClean | tidewave-core/src/ws/mcp.rs:185-200 | From unregistering on a channel's entries only shrink; once it has exited there is none and none can ever be inserted, over every run |
| McpTheorems.EntriesHaveOneOwner | tidewave-core/src/ws/mcp.rs:64-73 | Every entry belongs to one unfinished handler, no handler has two, and a finished one has left none |
| McpTheorems.AnsweredByOwnChannel | tidewave-core/src/ws/mcp.rs:144-158 | What a handler returns came over the channel it asked: the browser's response to its proxy id or the closing error, under the client's id |
| McpTheorems.CompletedAtMostOnce | tidewave-core/src/ws/mcp.rs:149-156 | Over every run the first answer to a request stays |
| McpTheorems.NoRequestStarves | tidewave-core/src/ws/mcp.rs:296-299 | The internal server error for a closed oneshot is never returned |
| McpTheorems.WaitingIsCaredFor | tidewave-core/src/ws/mcp.rs:289-301 | A waiting request is answered, or its channel is about to send, or its entry is where the channel will find it, or the channel has crashed |
| McpTheorems.DepartedChannelAnsweredAll | tidewave-core/src/ws/mcp.rs:189-200 | Whoever still waits for a channel that has exited can take its answer |
| McpTheorems.ForwardedUnderProxyId | tidewave-core/src/ws/mcp.rs:252-279 | What a handler has pushed is the client's message to the channel found, a request under a proxy id no other request has |
| McpTheorems.RegistrationLostToOwnExit | tidewave-core/src/ws/mcp.rs:185-187 | A session loses its channel only to that channel's exit, a new registration or a failed push through it |
| McpTheorems.CrashStrands | tidewave-core/src/ws/mcp.rs:140-142 | After a panic on a binary payload a request that waits for the channel waits until the agent gives up |
| McpTheorems.CrashHappens | tidewave-core/src/ws/mcp.rs:140-142 | Such a state is reached |
| McpOutcomes.DisconnectedNamesRequest | tidewave-core/src/ws/mcp.rs:312-320 | A disconnected reply carries the id of the client's message, or null if that has none |
| McpOutcomes.DisconnectedExactlyWhenMissed | tidewave-core/src/ws/mcp.rs:238-287 | Over every run a handler ends with it if and only if its lookup found no registered channel or its push failed |
| McpOutcomes.HandlersKeepTheirRequest | tidewave-core/src/ws/mcp.rs:211-236 | From the start of any run a handler works for the session and on the message it was called with |
| McpOutcomes.AnswersComeFromTheBrowser | tidewave-core/src/ws/mcp.rs:142-158 | From the start of any run an answer is a message the channel's browser has sent, but for the id, or the closing error of a channel that was left |
| McpOutcomes.RegistrationFollows | tidewave-core/src/ws/mcp.rs:282-287 | A channel that unregisters, or that a push through it has failed, is not registered any more; one that registers is |
| DownloadProgress.ProgressStep | tidewave-core/src/http_handlers.rs:499-506 | The step is a hundredth of a known total, rounded down, and a megabyte otherwise |
| DownloadProgress.ReadLoop | tidewave-core/src/http_handlers.rs:550-590 | Writes the whole body and reports exactly the specified sizes |
| DownloadProgress.ReportsAreSpaced | tidewave-core/src/http_handlers.rs:574-589 | Reports start with the first read, are a step apart and never a whole step behind |
| DownloadProgress.ReportsAreWireBytes | tidewave-core/src/http_handlers.rs:574-581 | Every size reported is the number of wire bytes at some read |
| DownloadProgress.AtMost199Reports | tidewave-core/src/http_handlers.rs:499-506 | A known total of at least 100 that the body keeps to gives at most 199 reports |
| DownloadProgress.Reaches199 | tidewave-core/src/http_handlers.rs:499-506 | 199 bytes arriving one by one give 199 reports |
| DownloadProgress.ReportsBoundedExactlyFrom100 | tidewave-core/src/http_handlers.rs:499-506 | The number of reports is bounded if and only if the known total is at least 100 |
| DownloadProgress.UnknownTotalReportsEveryMegabyte | tidewave-core/src/http_handlers.rs:504-506 | Without a known total reports are at least 1048576 bytes apart |
| DownloadTheorems.RunKeeps | tidewave-core/src/http_handlers.rs:258-429 | Every interleaving of requests and download tasks keeps the invariant |
| DownloadTheorems.OneDownloadPerKey | tidewave-core/src/http_handlers.rs:261-281 | Two downloads of one key never overlap |
| DownloadTheorems.StreamsAreWellFormed | tidewave-core/src/http_handlers.rs:333-428 | Every stream is progress of non-decreasing size and, once ended, exactly one done or error line as its last |
| DownloadStreams.LinesAreReports | tidewave-core/src/http_handlers.rs:339-345 | From the start of any run, the progress lines of a stream are, in order and none twice, reports of what the server of its download answered, none from before its subscription, and carry the announced total exactly if it is positive |
| DownloadStreams.UnlaggedLinesAreAllReports | tidewave-core/src/http_handlers.rs:339-345 | A stream that never lagged has a line for every report from its subscription up to its position |
| DownloadStreams.SuccessReachesEverybody | tidewave-core/src/http_handlers.rs:369-428 | Every stream of a download that does not fail ends with the done line, and then the file is there |
| DownloadStreams.RequestsStreamTheirKey | tidewave-core/src/http_handlers.rs:258-275 | From the start of any run every request streams the key it asked for |
| DownloadStreams.PlainRunsLeaveWholeFiles | tidewave-core/src/http_handlers.rs:632-641 | From the start of any run in which nobody asks for a key with extraction, its file is absent or whole |
| DownloadTheorems.FailureReachesSubscribers | tidewave-core/src/http_handlers.rs:347-367 | If the download failed and the error was broadcast after the subscription, it is the last line however far the receiver lagged, and in no other case |
| DownloadTheorems.BroadcastsTheReports | tidewave-core/src/http_handlers.rs:574-589 | A running download has broadcast exactly what the read loop reports for the part read |
| DownloadTheorems.PlainFilesAreComplete | tidewave-core/src/http_handlers.rs:632-641 | Without extraction the final path is absent or holds the complete body, and a done line means it is there |
| DownloadTheorems.NoSubscriberHangs | tidewave-core/src/http_handlers.rs:276-328 | A stream that cannot go on waits for a download task or a handler that can |
| DownloadTheorems.PartialExtractionReportedDone | tidewave-core/src/http_handlers.rs:608-629 | A partial extraction reported as done is reached |
| DownloadExtraction.MisleadsExactlyWhenBreakable | tidewave-core/src/http_handlers.rs:608-629 | Without beginning another extraction of the key, some continuation reports a partial file to a new request as done if and only if the file is partial or an extraction is running |
| DownloadExtraction.PartialOnlyFromBrokenExtraction | tidewave-core/src/http_handlers.rs:608-629 | Over every run from the start a partial file is that of an extraction of its key that is running or has failed |
| QueryScanner.QueriesNeverOverlap | tidewave-core/src/shell_env.rs:264-265 | Two queries in the output never overlap |
| QueryScanner.HitsAreAnswers | tidewave-core/src/shell_env.rs:281-290 | Searching start by start finds the replies in the order in which their queries end, each once |
| QueryScanner.NewAnswers | tidewave-core/src/shell_env.rs:278-300 | Kept tail and chunk together answer exactly what the whole output is owed next |
| QueryScanner.QueriesGetTheirReports | tidewave-core/src/shell_env.rs:264-265 | Wherever a query ends the reply is the report asked for: the cursor in row 1 and column 1, or the attributes 1 ; 2; nothing is replied anywhere else |
| QueryScanner.Scanner.constructor | tidewave-core/src/shell_env.rs:270-273 | Nothing seen, nothing kept |
| QueryScanner.Scanner.Replies | tidewave-core/src/shell_env.rs:277-303 | Answers exactly the queries that end in the chunk and keeps the last three bytes seen |
| QueryScanner.Drain | tidewave-core/src/shell_env.rs:190-209 | For every split into chunks the replies are those of one scan of the whole output |
| EnvDump.ParseEnvDump | tidewave-core/src/shell_env.rs:331-341 | Of the decoded text, collects the named entries, later ones winning |
| EnvDump.DumpReadsBack | tidewave-core/src/shell_env.rs:327-342 | A NUL-terminated dump reads back as the environment, whatever the values contain |
| Utf8.TextIsEncoded | tidewave-core/src/phoenix.rs:203-216 | Text accepted is exactly what encodes Unicode scalar values |
| PhoenixFrame.DecodeBinary | tidewave-core/src/phoenix.rs:182-234 | Accepts exactly well-formed frames and returns their message; each error in its own case |
| PhoenixFrame.FramesBack | tidewave-core/src/phoenix.rs:192-233 | Framing what was decoded gives the buffer back |
| PhoenixFrame.DecodesBack | tidewave-core/src/phoenix.rs:192-233 | Decoding a framed message gives it back, for fields of at most 255 bytes and no empty reference |
| PhoenixFrame.FramesAreUnambiguous | tidewave-core/src/phoenix.rs:178-181 | A buffer is the frame of a message exactly if it decodes to it |
| ProcessStream.BigEndianRoundTrip | tidewave-core/src/server.rs:831 | A length below 2^32 is read back from its four bytes |
| ProcessStream.ParsesBack | tidewave-core/src/server.rs:828-834 | Serialized frames parse back |
| ProcessStream.ParseIsUnique | tidewave-core/src/server.rs:828-834 | What a body parses to serializes to that body, so it has no other reading |
| ProcessStream.StatusTellsCode | tidewave-core/src/server.rs:836-837 | Different exit codes give different status payloads |
| ProcessStream.StatusReadsBack | tidewave-core/src/server.rs:802-837 | The status text reads back as the exit code in decimal, or -1 if a signal ended the process, in a frame tagged 1 |
| ProcessStream.DataIsTagged | tidewave-core/src/server.rs:828-834 | Data frames are tagged 0 and carry their payload |
| ProcessStream.BreaksOffExactlyWhen | tidewave-core/src/server.rs:780-811 | The body breaks off exactly if a reader failed, or both ended and the exit status could not be had |
| ProcessStream.StreamProcessResponse | tidewave-core/src/server.rs:780-816 | The frames carry every byte each reader delivered, in its order; the body parses to them, with at most one status frame and only at the end |
| ProcessStream.BodyParses | tidewave-core/src/server.rs:780-816 | For every schedule of the readers the body is readable as the data frames and then the status, if there is one |
| ProcessStream.DeliveredOnce | tidewave-core/src/server.rs:783-792 | What a finished reader delivered does not depend on later events |
| Watch.ToRelativePath | tidewave-core/src/ws/watch.rs:371-377 | Exists exactly for paths below the watched one, and joined to it gives the raw path |
| Watch.WatcherTask.constructor | tidewave-core/src/ws/watch.rs:319-322 | No source is remembered at first |
| Watch.WatcherTask.PathsInside | tidewave-core/src/ws/watch.rs:387-395 | The relative paths of those below the watched one, in order |
| Watch.WatcherTask.ConvertRemovals | tidewave-core/src/ws/watch.rs:494-509 | Removal of the watched path ends the watch, of a path below it is reported |
| Watch.WatcherTask.ConvertRename | tidewave-core/src/ws/watch.rs:396-483 | Reports and remembers what the rename mode calls for |
| Watch.WatcherTask.ConvertNotifyEvent | tidewave-core/src/ws/watch.rs:379-514 | Reports the event and keeps remembering the latest unconsumed source |
| Watch.WatcherTask.SendAll | tidewave-core/src/ws/watch.rs:333-342 | Sends up to and including the end of the watch |
| Watch.WatcherTask.Run | tidewave-core/src/ws/watch.rs:322-365 | Sends the specified transcript and deregisters exactly when it stops |
| Watch.NothingAfterTerminated | tidewave-core/src/ws/watch.rs:333-342 | The end of the watch is the last thing sent |
| Watch.RenamesPair | tidewave-core/src/ws/watch.rs:398-451 | A rename is reported exactly if the event settles inside the watched path and the latest unconsumed source lies inside, too |
| Watch.SourceUsedOnce | tidewave-core/src/ws/watch.rs:407-412 | No source is used twice |
| Watch.SourceReportedExactlyWhen | tidewave-core/src/ws/watch.rs:398-451 | A remembered source is reported if and only if the next event that matters settles and is not a bare To outside the watched path |
| Watch.EventsReportTheirPaths | tidewave-core/src/ws/watch.rs:386-510 | Creations, modifications, removals and two-path renames report exactly the paths below the watched one, each under its kind; the watch ends exactly if the watched path itself is removed |
| Watch.EventsReportExactly | tidewave-core/src/ws/watch.rs:386-510 | Every event reports exactly what its kind and mode call for, given the remembered source, and nothing else |
| Watch.ReportsInOrder | tidewave-core/src/ws/watch.rs:387-395 | Paths are reported in the order in which they come |
| Watch.RenamesAreSentExactlyWhenJoined | tidewave-core/src/ws/watch.rs:398-451 | Over every run of the loop a rename is sent if and only if, before the watcher stopped, an event came that joins its two paths with the latest unconsumed source |
| Watch.ResultPathsAreRaw | tidewave-core/src/ws/watch.rs:371-377 | Every path reported for an event is a raw path of the event or of the latest source |
| Watch.SentPathsAreRaw | tidewave-core/src/ws/watch.rs:322-365 | Over every run of the loop every path sent is a raw path of an event that had come |

## Left out

- ReplayHasNoGap: speaks of owners whose delivery is noted; that is every owner of a session whose mutex was not discarded in use meanwhile (AttachedFromOrder), and EveryLoadCanOverwriteOwner shows that no load is safe without that. It speaks of states in which the router is not between lookup and push for this owner.
- ReconnectReplaysTheLog: excludes mappings that happen while the session is marked as bypassed; runs in which the channel loses the session are not its subject.
- OwnersChangeThroughNone: excludes sessions marked as bypassed at that moment; ExclusionFromOrder is the form without the mark.
- ReaperSparesOwners: the same exclusion; EveryReaperCanStopOwned shows why.
- MutualExclusion: the same exclusion, for a discarded mutex excludes nobody.
- LateResponseReachesOwner: takes the start of the delivery as noted; LateResponseReachesReconnect starts from the load.
- EveryResponseSettles: the owner pushed to is known to own the session unless that is marked as bypassed at the push.
- SessionsLeaveTable: for a session marked as bypassed the reaper's removal may hit an owner (EveryReaperCanStopOwned).
- OwnerlessIsSeenTo: excludes sessions let go since they last had an owner; OwnerlessIsReapedExactlyWhenAttended and ReleasedIsReapedExactlyWhenSeen say exactly who is reaped.
- TimerVoidAfterLoad: only for timers that have not passed their counter test, because under the mutex the reaper looks at the owner again but not at the counter; TimerStopsExactlyWhenMatched shows that the others can all stop the session.
- TimerStopsExactlyWhenMatched: for sessions not marked as bypassed.
- CrashedOwnerKeeps: for runs in which the session is not marked as bypassed; a marked one can be taken over by a load past its check.
- HandleProcessResponse: the handling of `initialize` and of pending requests and the delivery are AcpInit and the router steps of AcpProtocol.
- RegisterInflightRequest: registering twice under one id, or under an id that was not drawn, loses the earlier request, as in the source; AcpIds shows that no caller does so.
- ParseEnvDump: works on the decoded text; the lossy decoding of bytes that are no UTF-8 is not modelled.
- CrashStrands: says what a panic costs; WaitingIsCaredFor and DepartedChannelAnsweredAll are the guarantees without one.
- PlainFilesAreComplete: nothing is claimed for keys that were ever requested with extraction; what can happen to those is MisleadsExactlyWhenBreakable and PartialOnlyFromBrokenExtraction.
- InitializeRunsOnce: drawing the id, `begin` and registering the request are one step.
- AcpProtocol, McpProtocol and DownloadProtocol are transition systems on values, since their subject is interleaving; their critical sections as updates in place are AcpSession, AcpProcess, AcpInit.InitState, McpState and DownloadProgress.ReadLoop.
- The exit of the agent process: a run of the ACP proxy is one process life up to its exit, and the process table, removal of processes by key, `exit` requests and the exit monitor are not modelled.
- Responses of the agent are over-approximated in AcpProtocol: any response may answer any channel that ever joined. The translation of ids is AcpProcess and AcpIds.
- One reaper per released session; the source lets one reaper handle all sessions of a departed channel in turn, which allows fewer interleavings. Arming a timer after a late response looks the session up and reads its counter in one step.
- Agent messages without session id, the error texts and capability parsing.
- Real time: an armed timer may fire at any later step.
- JSON text, and with it the textual Phoenix frames: messages are records of the members the code looks at, ids are JSON values with their printed form.
- MCP requests rejected before the lookup (no session id, no JSON, no `jsonrpc` member) touch no shared state.
- Wrap-around of the 64-bit counters, and memory orderings weaker than sequential consistency.
- The topic map of `ws/connection.rs`, which can drop a newer join's sender when an older task for the topic ends.
- Archive formats, the HTTP client, the file system beyond one final path for each key, PTYs, TLS, WSL paths, configuration, the Tauri UI and the CLI.
- Watching: creation of the watcher with its fallback, lossy conversion of paths that are not Unicode, and spellings of a path that differ in trailing separators.
- Origin checks, header filtering, static assets and the simple file endpoints: single-branch code.
