# Catio: a verified model

Catio is a client for terminals, databases and remote desktops with a web server head and an
assistant.  Most of it is glue over drivers; this project models the parts that are state machines,
protocols and algorithms, and proves what they promise.

| modules | what they model |
|---|---|
| `Transport`, `TransportChannel` | the browser's shared WebSocket: reconnects, owned requests, resubscription, early events |
| `WsHub` | the server's fan-out hub with two-phase eviction, and the gate of client subscriptions |
| `TerminalOutput`, `TerminalCapture`, `TerminalRun` | captured terminal commands: output windows, the settle-once machine, busy marks |
| `Optical`, `OpticalStore` | expiring export grants, cancellation tokens, read leases, passphrase lockout |
| `Calendar`, `TimestampOrder` | days to civil dates, the timestamp built from them, and where timestamps sort |
| `Rfb`, `RfbClient`, `RfbHandshake`, `VncSessions` | the RFB client of RFC 6143: codecs, message pump, handshake, task ordering |
| `AgentProjector`, `AgentWire`, `AgentRouter` | the fold over the assistant's event stream, its wire guard, the routing to turns |
| `MetadataCache`, `SchemaLoader` | the metadata cache and the eager schema loader |
| `SqlScan`, `SqlPolicy`, `SqlAppend` | the SQL scanner, the execution policy, and what appending to a script does to its decision |
| `AgentWorkspace` | the epoch-guarded queue of workspace grants |
| `McpLog`, `McpSync` | the merge of a log replay with live events; the queue of registry pushes |
| `Accounts` | users, sessions, tokens and the owners of live resources |
| `LocalTerm`, `Diagnostics`, `ContentDisposition` | the terminal's event positions, the rotating log, the download header |
| `Prelude`, `JsString` | shared datatypes and string functions |

Code that updates variables is a class whose methods are proved against functions on a value that
stands for the object's state; the properties are lemmas about these functions over whole runs.  A
run is a list of steps in any order that the runtime allows.  Steps that the source takes without
giving up control (a callback, a critical section, a handler) are atomic.

## Where the code does less than it seems to

Each of these comes with the exact condition under which the code does what it promises, and with an
input or run that fails.

- The second deletion in `finally` of a capture can unmark a newer capture of the same channel
  (`TerminalCapture.LateReturnRobsTheNext`; exactly when: `BusyMarksHoldExactly`).
- A silent command that is sampled is reported as if output had been left out
  (`TerminalOutput.SilenceReadsAsOmission`; exactly for an empty cleaned output: `SampledTruncation`).
- A capture whose execution has started can be reported as unsupported (`TerminalCapture.UnsupportedAlthoughStarted`;
  exactly when: `UnsupportedAfterStartExactly`).
- Two overlapping emits can leave a gap in the stream of a connection that is still registered
  (`WsHub.OverlappingEmitsLeaveAGap`; exactly when: `StreamIsUnbrokenExactly`).
- A prepare that is answered after a scope change leaves `activePath` behind, and the next prepare
  reports a workspace that the backend does not have (`AgentWorkspace.LateReplySpoilsTheMirror`;
  exactly when: `MirrorHoldsExactly`).
- The log panel repeats entries when the buffered events end before the replay, or when more than 200
  entries come between the listener and the replay (`McpLog.PanelRepeatsEntries`; exactly when:
  `PanelIsRightExactly`, and `PanelShowsTheLog` for any windows).
- The guard of agent envelopes, documented to reject unknown types, accepts the types "constructor"
  and "toString" (`AgentWire.BareTypesThatPass`, exactly these).
- Envelopes of a turn named "__proto__" are accepted again each time
  (`AgentProjector.ProtoTurnsAreRepeated`; exactly when: `RedeliveryChangesNothing`), and the text of a
  message with an inherited name begins with that property (`TextIsTheAcceptedDeltas`, exactly then).
- A server of version 3.889 is refused because its minor version does not fit a byte
  (`RfbHandshake.HandshakeVersions`, exactly from 3.256 on), and the reason of a failed authentication
  is left unread (`HandshakeWithServer`).
- The desktop head can keep a stale VNC session (`VncSessions.UngatedRunLeavesStaleEntry`; exactly when:
  `StaleExactlyWhenInsertedTooLate`).
- Timestamps stop sorting at the year 10000 (`Calendar.FmtDatetimeStopsSorting`; exactly when:
  `TimestampOrder.TimestampsSortExactly`).
- Stripping SQL is not idempotent exactly where two literals touch (`SqlScan.TouchingLiteralsCollapse`,
  `StrippingTwice`).
- A script that does not end in code hides a DROP appended to it (`SqlPolicy.OpenTextHidesTheRest`;
  exactly when: `AppendingIsSafeExactly`), and text appended to a blocked UPDATE or WITH left open can
  unblock it (`SqlAppend.OpenCommentUnblocks`; exactly when: `BlockedStaysExactly`).
- An optical read that is cancelled under way is reported as locked; only a request cancelled before
  its read began is reported as cancelled (`Optical.CancelledReadSaysLocked`; exactly when:
  `ReadIsCancelledExactly`).

## Model

| member | source | states |
|---|---|---|
| `Transport.RequestsSettleExactlyOnce` | src/services/transport.ts:222-246 | in every run of opens, errors, closes, replies, timeouts and calls over any number of sockets, a call is settled at most once and for good, exactly once when nothing is under way; a reply or a close settles only calls sent on that socket |
| `Transport.LateCloseIsHarmless` | src/services/transport.ts:132-149 | the close of a replaced socket leaves the successor, its heartbeat, its connection promise, every buffer and all requests of other sockets as they are, and rejects its own |
| `Transport.EveryHandledTopicIsSubscribed` | src/services/transport.ts:112-120 | once the queued sends have run, the open socket is subscribed to every topic with a handler, across any number of reconnects and unsubscriptions |
| `Transport.EarlyEventsAreFlushedOnce` | src/services/transport.ts:153-166 | no topic is both handled and buffered, agent events are never buffered; buffered events are handed over at most once, in arrival order, within their lifetime, and are if a handler comes in time |
| `Transport.StepKeepsConnected` | src/services/transport.ts:106-149 | each callback keeps the invariant tying the current socket, the one being opened, their ready states and the continuations |
| `Transport.StepKeepsSubscribed` | src/services/transport.ts:119-119 | each callback keeps every handled topic subscribed on the open socket or queued to be |
| `Transport.StepKeepsBuffer` | src/services/transport.ts:153-203 | each callback keeps the buffer disjoint from the handlers and the histories of late deliveries increasing, losing nothing that is still fresh |
| `Transport.StepKeepsEachCallOnce` | src/services/transport.ts:227-246 | each callback keeps every call in exactly one place: waiting, queued, pending or settled |
| `Transport.StepKeepsOwned` | src/services/transport.ts:167-173 | each callback keeps every pending reply with the socket it was sent on and every settlement with its owner |
| `Transport.SettlementsAreFinal` | src/services/transport.ts:227-246 | no callback takes a settlement back, and only a call adds a call |
| `Transport.SilentSocketIsClosed` | src/services/transport.ts:120-128 | whatever else happens, an open socket on which no pong comes in is no longer open after three heartbeats |
| `Transport.ChannelIsNeverStuck` | src/services/transport.ts:132-148 | in every reachable state with a handled topic there is a current open or closing socket, one being opened whose outcome is to come, or an armed reconnect timer |
| `TransportChannel.Channel.EnsureSocketThen` | src/services/transport.ts:106-111 | reusing the open socket, joining the attempt under way or opening a socket, on the mutable variables |
| `TransportChannel.Channel.Opened` | src/services/transport.ts:112-130 | the open callback: a superseded socket is closed; otherwise it becomes current, is resubscribed topic by topic and its continuations run |
| `TransportChannel.Channel.Errored` | src/services/transport.ts:131-131 | the error callback: only of the socket being opened, it clears the attempt and rejects those who wait |
| `TransportChannel.Channel.ClosedDown` | src/services/transport.ts:132-149 | the close callback: owned requests rejected, then clean-up and reconnect timer only for the current or opening socket |
| `TransportChannel.Channel.Message` | src/services/transport.ts:150-177 | the message callback: events to handlers or the buffer, replies to their pending request, pongs of the current socket |
| `TransportChannel.Channel.Subscribe` | src/services/transport.ts:194-205 | registering a handler, flushing the buffer, and queueing the subscription |
| `TransportChannel.Channel.Unsubscribe` | src/services/transport.ts:206-214 | removing a handler; the last one of a topic sends the unsubscription |
| `TransportChannel.Channel.WsCmd` | src/services/transport.ts:222-225 | a call waits for the socket and then becomes a pending request on it |
| `TransportChannel.Channel.Continue` | src/services/transport.ts:227-246 | running a queued continuation: sending a subscription or issuing the request, which a throwing send withdraws |
| `TransportChannel.Events.Flush` | src/services/transport.ts:199-203 | the flush loop gives a new handler exactly the buffered events still within their lifetime, in order |
| `TransportChannel.Requests.RejectOwnedBy` | src/services/transport.ts:136-139 | the loop over pending replies removes and rejects those of one socket and keeps the order of the rest |
| `TransportChannel.Requests.Request` | src/services/transport.ts:227-246 | a pending entry is made before the frame is sent and withdrawn when sending throws |
| `TransportChannel.Requests.TimedOut` | src/services/transport.ts:230-232 | a timer rejects its request only while that is pending |
| `TransportChannel.Sockets.Tick` | src/services/transport.ts:121-127 | a heartbeat counts a missing pong or closes the current open socket at the third |
| `TransportChannel.Sockets.CloseExpired` | src/services/transport.ts:270-270 | an expired login closes its socket only if that is still the current one |
| `TransportChannel.Channel.Reconnect` | src/services/transport.ts:146-148 | the reconnect timer opens a socket if there is none and a topic is handled |
| `WsHub.FramesReachOnlySubscribers` | src-tauri/src/server_ws.rs:95-120 | in every run, an event found in a connection's stream was emitted while that connection was registered, subscribed to its topic and, where an owner is named, his |
| `WsHub.EvictionRemovesOnlyTheFailed` | src-tauri/src/server_ws.rs:149-170 | whoever a second phase removes is a connection that was sent this very emission and refused it |
| `WsHub.IdsAreNeverReused` | src-tauri/src/server_ws.rs:48-66 | an id stays with its owner for good and an id once removed never returns |
| `WsHub.RegisteredMissesNothing` | src-tauri/src/server_ws.rs:149-170 | in every run, overlapping emits included: a registered connection that no unfinished emit has collected has every event due to it, in order, and at most 512 topics |
| `WsHub.StreamsHaveNoGaps` | src-tauri/src/server_ws.rs:149-170 | when emits do not overlap, every connection's stream, evicted or not, is its due events in order with at most the last one missing |
| `WsHub.OverlappingEmitsLeaveAGap` | src-tauri/src/server_ws.rs:149-170 | a run from the start in which two emits overlap and a client that is still registered lacks the first event but has the second: its writer was full, then drained one frame |
| `WsHub.StreamIsUnbrokenExactly` | src-tauri/src/server_ws.rs:95-170 | in every run a connection's stream, evicted or not, is its due events from the first on exactly when no emission was taken by its writer while an unfinished emit had already given it up |
| `WsHub.AcceptedSubRegisters` | src-tauri/src/server.rs:1413-1438 | an allowed subscription is registered exactly when the hub still knows the connection and the topic is there already or below the cap |
| `WsHub.SubscriptionsLast` | src-tauri/src/server_ws.rs:69-81 | a registered subscription stays until it is unsubscribed or its connection leaves the hub |
| `WsHub.UnsubscribedGetsNothing` | src-tauri/src/server_ws.rs:77-81 | after an unsubscription, and until a new subscription, nothing emitted on the topic is meant for the connection |
| `WsHub.ReceiptGuaranteesDelivery` | src-tauri/src/server.rs:1428-1438 | from an accepting receipt on, sent while the hub could register the topic: every later emission of the topic, to everybody or to the connection's owner, is in the client's stream, or the client has been or is being evicted |
| `WsHub.ReceiptsAreOfAllowedSubs` | src-tauri/src/server.rs:1413-1438 | every accepting receipt in a client's stream was sent for an allowed subscription of that client |
| `WsHub.SubscribedIsDelivered` | src-tauri/src/server_ws.rs:99-120 | the same from any registered subscription on, however it came about |
| `WsHub.ProtectedTopicsComeFromTheServer` | src-tauri/src/server.rs:1368-1373 | a protected stream is on a connection only because a command handler put it there |
| `WsHub.LogTopicsAreNotProtected` | src-tauri/src/server.rs:1368-1373 | no log stream is a protected stream, so its scope alone decides |
| `WsHub.LogStreamsAreOwnOrAdmin` | src-tauri/src/server.rs:1420-1427 | a log stream that no command handler added is on a connection only if it is the owner's or an admin subscribed it |
| `WsHub.StepKeepsAccounted` | src-tauri/src/server_ws.rs:95-170 | every operation keeps the account of due, accepted and refused events |
| `WsHub.SharedHub.RegisterConn` | src-tauri/src/server_ws.rs:48-61 | a new id, its connection and its empty writer |
| `WsHub.SharedHub.SubscribeConn` | src-tauri/src/server_ws.rs:69-75 | adds the topic within the cap, and nothing for an unknown connection |
| `WsHub.SharedHub.Unregister` | src-tauri/src/server_ws.rs:64-66 | the connection and its topics are gone, the others stay |
| `WsHub.SharedHub.UnsubscribeConn` | src-tauri/src/server_ws.rs:77-81 | removes the topic of this connection only |
| `WsHub.SharedHub.AnySubscriber` | src-tauri/src/server_ws.rs:92-98 | whether any connection has the topic |
| `WsHub.SharedHub.Collect` | src-tauri/src/server_ws.rs:100-112 | the first phase, in any order of the map: every addressee is offered the frame and exactly those refusing are collected |
| `WsHub.SharedHub.Evict` | src-tauri/src/server_ws.rs:113-118 | the second phase removes exactly the collected ids |
| `WsHub.SharedHub.Emit` | src-tauri/src/server_ws.rs:149-170 | an uninterrupted emit is the two phases in turn |
| `WsHub.SharedHub.HandleSub` | src-tauri/src/server.rs:1413-1438 | a client's subscription message: gate, registration, then the receipt |
| `TerminalOutput.WindowsOfChunks` | src/services/terminalCapture.ts:243-250 | after any chunks the three buffers are the last 32000, first 16000 and last 16000 units of the whole stream and its length |
| `TerminalOutput.Buffers.AppendOutput` | src/services/terminalCapture.ts:243-250 | one append on the variables keeps them the windows of the stream |
| `TerminalOutput.FinishedTruncation` | src/services/terminalCapture.ts:260-269 | a finished result is flagged truncated exactly when its window dropped characters |
| `TerminalOutput.SampledTruncation` | src/services/terminalCapture.ts:252-259 | an untruncated sample is the whole cleaned stream exactly when that is not empty; an empty one becomes the omission marker; a truncated one is the ends of head and tail |
| `TerminalOutput.SilenceReadsAsOmission` | src/services/terminalCapture.ts:252-259 | the input: with nothing heard the report is the omission marker and is not flagged as truncated |
| `TerminalOutput.SampledOutputIsShort` | src/services/terminalCapture.ts:252-259 | a sample never has more than 101 lines, whatever the cleaning does |
| `TerminalOutput.LinesOfJoined` | src/services/terminalCapture.ts:256-258 | splitting undoes joining for lines without a newline |
| `TerminalCapture.SettlesAtMostOnce` | src/services/terminalCapture.ts:260-289 | under every order of abort, close, markers, timers and completions: at most one settlement and one write, settled once aborted and before returning, and settled exactly when released or lingering |
| `TerminalCapture.RunsAreMonotone` | src/services/terminalCapture.ts:291-334 | settlements are never replaced; an aborted capture that has not written never will; release, lingering and return are final |
| `TerminalCapture.UnsettledIsTimed` | src/services/terminalCapture.ts:302-323 | once listening has succeeded, an unsettled capture always has an armed timer that will settle it |
| `TerminalCapture.ListenerIsDroppedOnce` | src/services/terminalCapture.ts:236-241 | the listener is dropped once, exactly at the later of release and completion of `listen` |
| `TerminalCapture.SettledWithWindows` | src/services/terminalCapture.ts:260-277 | a finished or sampled result is built from the windows of all that was heard |
| `TerminalCapture.WhatSettles` | src/services/terminalCapture.ts:260-334 | exactly which events settle a capture, and with which status and exit code each |
| `TerminalCapture.LingeringReleases` | src/services/terminalCapture.ts:297-314 | a lingering capture is released exactly by the end of the terminal or of its own command |
| `TerminalCapture.WhatWrites` | src/services/terminalCapture.ts:316-326 | the command is written exactly when listening succeeds, the signal is not aborted and no result but a lingering one is out |
| `TerminalCapture.BusyMarksHoldExactly` | src/services/terminalCapture.ts:328-333 | every unreleased capture keeps its channel marked throughout a run exactly when no return happens while another unreleased capture has the returning one's channel; then captures exclude each other |
| `TerminalCapture.WaitingKeepsMarks` | src/services/terminalCapture.ts:328-333 | that holds if a channel is captured again only after its earlier activations have returned or linger |
| `TerminalCapture.LateReturnRobsTheNext` | src/services/terminalCapture.ts:331-333 | a run in which the second deletion in `finally` unmarks a newer capture: abort during the write, a new capture, then the write completes |
| `TerminalCapture.VerdictsAreObserved` | src/services/terminalCapture.ts:18-27 | a command is reported as succeeded or failed only after the shell announced the end of this command with its exit code |
| `TerminalCapture.NoCaptureIsBlocked` | src/services/terminalCapture.ts:18-27 | in no run is a capture reported as blocked, the outcome of commands that were not run |
| `TerminalCapture.UnsupportedAfterStartExactly` | src/services/terminalCapture.ts:302-323 | in every run: unsupported exactly when the start timer fires before the capture is settled, and although the execution has started exactly when, besides, its start marker was heard before listen had completed |
| `TerminalCapture.UnsupportedAlthoughStarted` | src/services/terminalCapture.ts:302-323 | such a run |
| `TerminalRun.Run.constructor` | src/services/terminalCapture.ts:182-214 | a launch marks the channel and starts unsettled, listening and watched |
| `TerminalRun.Run.ReleaseChannel` | src/services/terminalCapture.ts:221-242 | release happens once: waiters cleared, channel unmarked, listener dropped now or later |
| `TerminalRun.Run.FinishWith` | src/services/terminalCapture.ts:260-269 | finishing flushes, releases and settles, once |
| `TerminalRun.Run.SnapshotAndMonitor` | src/services/terminalCapture.ts:270-277 | sampling flushes, settles and leaves the capture lingering with its channel marked |
| `TerminalRun.Run.FailWith` | src/services/terminalCapture.ts:278-288 | failing lingers if execution has started and releases otherwise |
| `TerminalRun.Run.HandleMarker` | src/services/terminalCapture.ts:293-315 | the listener's callback: output, close, start and end markers in this order |
| `TerminalRun.Run.HandleListening` | src/services/terminalCapture.ts:316-326 | after `listen`: use the handle if release came first, return or throw if settled or aborted, otherwise arm the timer and write |
| `TerminalRun.Run.HandleListenError` | src/services/terminalCapture.ts:328-330 | a failed `listen` fails the capture |
| `TerminalRun.Run.HandleWritten` | src/services/terminalCapture.ts:325-330 | the end of the write, or its failure |
| `TerminalRun.Run.HandleAbort` | src/services/terminalCapture.ts:289-292 | the abort callback, once and only while watched |
| `TerminalRun.Run.HandleStartTimer` | src/services/terminalCapture.ts:323-323 | the start timer finishes the capture as unsupported |
| `TerminalRun.Run.HandleCompletionTimer` | src/services/terminalCapture.ts:306-309 | the completion timer samples it as streaming or timed out |
| `TerminalRun.Run.Return` | src/services/terminalCapture.ts:331-333 | `finally` |
| `TerminalRun.Channels.MarkExecution` | src/services/terminalCapture.ts:94-96 | the shell marks of the channels |
| `TerminalRun.Channels.IsBusy` | src/services/terminalCapture.ts:74-77 | busy when marked by a capture or by the shell |
| `TerminalRun.BusyExactly` | src/services/terminalCapture.ts:74-77 | while no return has robbed a capture, a channel is busy exactly when the shell runs something there or a capture of it is not released |
| `Optical.LeasesFollowGrants` | src-tauri/src/optical.rs:186-289 | in every run a live lease whose grant is gone is cancelled, a grant has at most one read and it is its live lease's, and no scope has more than eight grants |
| `Optical.StepKeepsInv` | src-tauri/src/optical.rs:121-326 | every operation keeps the links between grants, leases and cancellation tokens |
| `Optical.OtherScopesAreUntouched` | src-tauri/src/optical.rs:219-262 | an operation leaves the grants of other scopes as they are, unless it prunes them as expired |
| `Optical.OtherReadsAreUntouched` | src-tauri/src/optical.rs:219-262 | and neither ends nor cancels their reads |
| `Optical.ReadsGiveDataOnlyUndisturbed` | src-tauri/src/optical.rs:290-310 | a read gives its file only if its grant is still there and unexpired at the end and nobody locked the grant or its scope or cancelled the request since it began |
| `Optical.KilledReadIsCancelled` | src-tauri/src/optical.rs:219-262 | after a lock, scope lock or matching cancel anywhere in a run, the read's token is cancelled for good |
| `Optical.ReadIsCancelledExactly` | src-tauri/src/optical.rs:290-310 | in every run a read answers "cancelled" exactly when its request was remembered as cancelled at its start; one cancelled or locked later answers "locked" |
| `Optical.CancelledReadSaysLocked` | src-tauri/src/optical.rs:299-309 | a run in which a read cancelled under way answers "locked", and a second try "cancelled" |
| `Optical.RefusedExactlyWhenRemembered` | src-tauri/src/optical.rs:274-276 | a read is refused as cancelled exactly when its id is among the last 64 cancelled under the grant |
| `Optical.CancelBeforeReadStopsIt` | src-tauri/src/optical.rs:247-262 | a cancel that overtakes its read stops it, unless 64 other cancels on the grant come in between |
| `Optical.OneReadPerGrant` | src-tauri/src/optical.rs:277-281 | two live leases under one grant are the same lease |
| `Optical.FailuresAreRationed` | src-tauri/src/optical.rs:171-185 | over any span of T milliseconds without a success at most 5·(⌊T/30000⌋+1) verifications fail, from any state of the counter |
| `Optical.CounterAndHash` | src-tauri/src/optical.rs:132-185 | between calls the failure counter is at most four, and a configured hash never changes |
| `Optical.UnlockSucceedsExactly` | src-tauri/src/optical.rs:128-185 | an unlock succeeds exactly when it is let in and its passphrase is stored or verified; success clears counter and lockout, a refusal changes no grant |
| `Optical.NewGrantLastsEightHours` | src-tauri/src/optical.rs:206-217 | the grant given is valid in its scope only and for exactly eight hours |
| `Optical.UnlockRemovesOnlyTheOldest` | src-tauri/src/optical.rs:186-205 | a successful unlock removes only what has expired and, in a full scope, one grant that expires no later than those kept |
| `OpticalStore.Passphrase.Check` | src-tauri/src/optical.rs:128-185 | the order of refusals, setup and verification, with the lockout, on the mutable counter |
| `OpticalStore.Grants.Prune` | src-tauri/src/optical.rs:186-192 | the retain loop removes and cancels exactly the expired grants |
| `OpticalStore.Grants.LockAll` | src-tauri/src/optical.rs:227-236 | the retain loop removes and cancels exactly the scope's grants |
| `OpticalStore.Grants.Oldest` | src-tauri/src/optical.rs:196-201 | the least expiry among the scope's grants, whatever the order of the map |
| `OpticalStore.Grants.Admit` | src-tauri/src/optical.rs:186-217 | a new grant after pruning and, at eight, after removing an oldest one |
| `OpticalStore.Grants.LockOne` | src-tauri/src/optical.rs:219-226 | locking removes and cancels a grant of the scope and no other |
| `OpticalStore.Grants.CancelRequest` | src-tauri/src/optical.rs:247-262 | cancelling a running read, and remembering the last 64 requests |
| `OpticalStore.Grants.Begin` | src-tauri/src/optical.rs:263-289 | the refusals in order, and the lease with its child token |
| `OpticalStore.OpticalState.StartRead` | src-tauri/src/optical.rs:263-289 | the whole of `begin_read`, the switch included |
| `OpticalStore.Grants.Drop` | src-tauri/src/optical.rs:320-326 | dropping a lease takes its read off the grant if that is still there |
| `OpticalStore.OpticalState.UnlockSync` | src-tauri/src/optical.rs:121-218 | the whole of `unlock_sync` |
| `OpticalStore.OpticalState.Finish` | src-tauri/src/optical.rs:306-309 | the final check of a read: a cancelled lease gives "locked", whatever came first in the race |
| `Calendar.CivilIsDate` | src-tauri/src/server_mcp.rs:184-195 | for every integer the result is a date of the Gregorian calendar |
| `Calendar.CivilSuccessor` | src-tauri/src/server_mcp.rs:184-195 | the date of the next day is the calendar's next date, over all integers |
| `Calendar.CivilEpoch` | src-tauri/src/server_mcp.rs:184-195 | day 0 is 1970-01-01 |
| `Calendar.DayNumberOfCivil` | src-tauri/src/server_mcp.rs:184-195 | counting the days to the date gives the day number back |
| `Calendar.CivilOfDayNumber` | src-tauri/src/server_mcp.rs:184-195 | every date is the date of its day number: the conversion is a bijection |
| `Calendar.CivilIsMonotone` | src-tauri/src/server_mcp.rs:184-195 | later days have later dates, and conversely |
| `Calendar.FmtDatetimeIsFixedWidth` | src-tauri/src/server_mcp.rs:198-202 | for the years 0 to 9999 the timestamp has the twenty characters of the RFC 3339 form |
| `Calendar.FmtDatetimeSorts` | src-tauri/src/server_mcp.rs:198-202 | for these years the strings compare as their epochs do |
| `Calendar.FmtDatetimeStopsSorting` | src-tauri/src/server_mcp.rs:198-202 | at the turn to the year 10000 they do not |
| `TimestampOrder.TimestampsSortExactly` | src-tauri/src/server_mcp.rs:198-202 | the timestamps of any interval of epochs, negative years included, sort as the epochs do exactly when no year but its last one turns: no year behind it has one digit more, and no two years before -1 have as many |
| `TimestampOrder.TurnReverses` | src-tauri/src/server_mcp.rs:198-202 | where a year turns, the next year's first second sorts before the second that precedes it |
| `TimestampOrder.FourDigitsDoNotTurn` | src-tauri/src/server_mcp.rs:198-202 | the years -1 to 9998 do not turn and 9999 does |
| `Rfb.VersionLineParses` | src-tauri/src/vnc.rs:48-55 | a printed version line is parsed back exactly when both numbers fit a byte |
| `Rfb.PixelFormatRoundTrip` | src-tauri/src/vnc.rs:67-84 | parsing a printed pixel format |
| `Rfb.ServerInitRoundTrip` | src-tauri/src/vnc.rs:87-100 | parsing a printed ServerInit, name included |
| `Rfb.RectHeaderRoundTrip` | src-tauri/src/vnc.rs:103-114 | parsing a printed rectangle header, signed encoding included |
| `Rfb.EncodeFbUpdateRequest` | src-tauri/src/vnc.rs:117-126 | the array filled in place is the message a server parses |
| `Rfb.EncodePointerEvent` | src-tauri/src/vnc.rs:129-136 | the array filled in place is the message a server parses |
| `Rfb.EncodeKeyEvent` | src-tauri/src/vnc.rs:139-146 | the array filled in place is the message a server parses |
| `Rfb.ClientRoundTrip` | src-tauri/src/vnc.rs:117-146 | a server parses every client message back and stops behind it |
| `Rfb.ClientStreamRoundTrip` | src-tauri/src/vnc.rs:117-146 | and so a whole stream of them |
| `Rfb.VncDesKey` | src-tauri/src/vnc.rs:151-159 | the key array is the first eight password bytes, zero-padded and bit-reversed |
| `Rfb.ReverseBitsMirrors` | src-tauri/src/vnc.rs:156-156 | bit i of a reversed byte is bit 7-i of the byte |
| `Rfb.DesKeyDeterminedByEightBytes` | src-tauri/src/vnc.rs:151-159 | two passwords have the same key exactly when their first eight padded bytes agree |
| `RfbClient.PumpRect` | src-tauri/src/vncconn.rs:247-305 | reading one rectangle from the stream emits and consumes what the specification says |
| `RfbClient.PumpRects` | src-tauri/src/vncconn.rs:247-305 | the loop over an update's rectangles |
| `RfbClient.PumpMessage` | src-tauri/src/vncconn.rs:247-305 | reading one server message |
| `RfbClient.PumpMessages` | src-tauri/src/vncconn.rs:247-305 | the loop emits exactly the events of the specification and ends with its error |
| `RfbClient.MessageRoundTrip` | src-tauri/src/vncconn.rs:247-305 | a printed message gives exactly its events and leaves exactly what follows it |
| `RfbClient.PumpUndoesPrinting` | src-tauri/src/vncconn.rs:247-305 | behind any list of printed messages exactly their rectangles and resizes have been emitted, in order, and the pump reads on |
| `RfbClient.PumpOfPrinted` | src-tauri/src/vncconn.rs:247-305 | on exactly the printed bytes it ends at the end of the stream |
| `RfbClient.PumpContinues` | src-tauri/src/vncconn.rs:247-305 | cut anywhere, a stream emits a prefix of what the whole emits; other errors do not depend on later bytes |
| `RfbClient.PumpOfTruncated` | src-tauri/src/vncconn.rs:247-305 | a printed stream that breaks off emits a prefix of the printed events |
| `RfbHandshake.DoHandshake` | src-tauri/src/vncconn.rs:108-117 | the handshake on streams reads and writes what the specification says |
| `RfbHandshake.DoNegotiate` | src-tauri/src/vncconn.rs:119-136 | the choice of the security type, with the refusal branch |
| `RfbHandshake.DoAuthenticate` | src-tauri/src/vncconn.rs:138-152 | challenge, response and security result |
| `RfbHandshake.DoInitialise` | src-tauri/src/vncconn.rs:154-167 | ClientInit, ServerInit, pixel format and encodings |
| `RfbHandshake.SetEncodingsMsg` | src-tauri/src/vncconn.rs:91-99 | the encodings message built by the loop |
| `RfbHandshake.HandshakeWithServer` | src-tauri/src/vncconn.rs:108-167 | against every server of version 3.7 to 3.255 and any security types the outcome is the expected one, and exactly the server's bytes are read, except the reason that follows a failed security result from 3.8 on |
| `RfbHandshake.HandshakeVersions` | src-tauri/src/vncconn.rs:108-115 | a willing server is connected to exactly when its minor version is 7 to 255, so 3.889 is refused |
| `RfbHandshake.HandshakeRepliesModestly` | src-tauri/src/vncconn.rs:116-117 | for every byte stream, the version replied is 3.7 or 3.8 and no higher than offered |
| `RfbHandshake.HandshakeChoosesSoundly` | src-tauri/src/vncconn.rs:128-136 | for every byte stream, the type chosen was offered, and None only without a password or without VNC authentication on offer |
| `RfbHandshake.AdvertisedEncodingsAreRead` | src-tauri/src/vncconn.rs:91-99 | the pump refuses exactly the encodings that are not advertised |
| `VncSessions.OrderIsKept` | src-tauri/src/vncconn.rs:311-374 | each step of connecting, reading and closing keeps the order of registration and clean-up |
| `VncSessions.GatedRunsLeaveNothingBehind` | src-tauri/src/vncconn.rs:311-374 | with the reader held back until registration no run leaves a stale entry or a task, and the close event comes once or, after a close, never |
| `VncSessions.UngatedRunLeavesStaleEntry` | src-tauri/src/vncconn.rs:171-244 | without it a run leaves a stale entry |
| `VncSessions.StaleExactlyWhenInsertedTooLate` | src-tauri/src/vncconn.rs:171-244 | an entry is stale exactly when it was inserted behind the reader's clean-up and never closed |
| `AgentProjector.RedeliveryChangesNothing` | src/services/agentProjector.ts:70-84 | copies of delivered envelopes, or refused payloads, inserted anywhere later change nothing of state, effects and accepted events exactly when none of them is of a turn named "__proto__" |
| `AgentProjector.ProtoTurnsAreRepeated` | src/services/agentProjector.ts:80-110 | such a turn: a delta delivered twice is appended twice |
| `AgentProjector.OneEffectPerTool` | src/services/agentProjector.ts:111-128 | over any stream a tool id yields one approval effect exactly when it enters the handled list, and likewise one execution effect |
| `AgentProjector.TextIsConcatenation` | src/services/agentProjector.ts:107-110 | a message's text is what the look-up found followed by the accepted deltas in order; under "__proto__" nothing is stored |
| `AgentProjector.TextIsTheAcceptedDeltas` | src/services/agentProjector.ts:107-110 | from the start a text is exactly its accepted deltas if and only if its id is no inherited name |
| `AgentProjector.CompleteTurnsLoseNothing` | src/services/agentProjector.ts:80-110 | a turn numbered from one without a gap keeps all its text, however often parts are redelivered (but none of a turn "__proto__") |
| `AgentProjector.BusyExactly` | src/services/agentProjector.ts:101-134 | a turn is shown as busy exactly when the last accepted sign of it was its start; "__proto__" never is |
| `AgentProjector.GroupsDoNotInterfere` | src/services/agentProjector.ts:70-141 | projecting all turns together gives each group with ids of its own the state and effects of its own envelopes alone |
| `AgentProjector.InterleavingDoesNotMatter` | src/services/agentProjector.ts:70-141 | so text and effects do not depend on how turns are interleaved |
| `AgentWire.EnvelopeRoundTrip` | src/services/agentRuntime.ts:206-218 | a sent envelope is accepted and read back exactly when its ids are there and its number is positive |
| `AgentWire.BareTypesThatPass` | src/services/agentRuntime.ts:173-218 | an event that is only a type passes exactly for the three field-less types and the inherited names "constructor" and "toString", which are then projected as accepted |
| `AgentRouter.ArrivalsAreConserved` | src/App.tsx:1958-1990 | every arrival of a turn is handled, queued or waiting exactly once and in order, and none waits while the turn is active |
| `AgentRouter.NothingEarlyIsLost` | src/App.tsx:2290-2310 | with the queue empty, an active turn is the projection of all that ever arrived of it, before its registration too |
| `AgentRouter.StepKeepsInv` | src/App.tsx:1958-2049 | arrival, registration and handling keep the account of each turn |
| `AgentRouter.Routes.OnEvent` | src/App.tsx:1973-1981 | an envelope is buffered until its turn is registered |
| `AgentRouter.Routes.OnStarted` | src/App.tsx:2295-2310 | registration, then one enqueue for each buffered envelope |
| `AgentRouter.Routes.HandleNext` | src/App.tsx:2040-2049 | the head of the queue is projected if its turn is active; a settled turn is forgotten |
| `MetadataCache.ValuesAreFresh` | src/services/dbMetadata.ts:12-22 | a call's value comes from a load of its key begun after every earlier invalidation of it and untouched until it resolved |
| `MetadataCache.ResolvesExactlyWhenUntouched` | src/services/dbMetadata.ts:15-18 | a load gives its value exactly when no invalidation touched its key since it began |
| `MetadataCache.OneLoadInFlight` | src/services/dbMetadata.ts:13-14 | per key at most one load is in flight that no invalidation has given up |
| `MetadataCache.JoinsExactlyTheUsable` | src/services/dbMetadata.ts:12-22 | a call joins a load exactly when that is the latest of its key, untouched, and in flight or resolved less than a minute ago; otherwise it loads anew |
| `MetadataCache.JoinedWithinTTL` | src/services/dbMetadata.ts:12-22 | a call joins a load in flight or a value at most a minute old, or begins the only live load |
| `MetadataCache.StepKeepsInv` | src/services/dbMetadata.ts:12-28 | call, resolution, rejection and invalidation keep entries and loads consistent |
| `MetadataCache.MetadataRequests.Request` | src/services/dbMetadata.ts:11-22 | the look-up and the new entry on the maps |
| `MetadataCache.MetadataRequests.Loaded` | src/services/dbMetadata.ts:15-18 | the continuation of a load: keep the value, or reject as superseded |
| `MetadataCache.MetadataRequests.LoadFailed` | src/services/dbMetadata.ts:19-19 | a failed load removes its own entry only |
| `MetadataCache.MetadataRequests.InvalidateCache` | src/services/dbMetadata.ts:24-26 | schema keys, one connection or everything |
| `SchemaLoader.EveryNamespaceIsLoadedOnce` | src/services/dbMetadata.ts:50-57 | when the workers have stopped, each index was loaded exactly once, in order of start, and its slot holds its result |
| `SchemaLoader.AtMostFourLoads` | src/services/dbMetadata.ts:52-52 | at most four loads at a time, never two of one index |
| `SqlScan.StripAiSqlComments` | src/services/aiSqlExecutionPolicy.ts:66-108 | the index loop computes the recursive scanner |
| `SqlScan.StripIsScan` | src/services/aiSqlExecutionPolicy.ts:66-108 | the scanner is an automaton that reads one character at a time |
| `SqlScan.StripIsPlain` | src/services/aiSqlExecutionPolicy.ts:66-108 | its output has no comment opener and no quote outside a placeholder |
| `SqlScan.CodeSemicolonsSurvive` | src/services/aiSqlExecutionPolicy.ts:66-108 | its semicolons are exactly those of the source in code, each in its place: the source cut at them, each piece stripped by itself, is the output cut at its semicolons |
| `SqlScan.StripDistributesExactly` | src/services/aiSqlExecutionPolicy.ts:66-108 | stripping a;b is stripping both for every b exactly when a ends in code |
| `SqlScan.StrippingTwice` | src/services/aiSqlExecutionPolicy.ts:66-108 | stripping again changes nothing exactly when no two literals touch; it collapses those that do |
| `SqlScan.TouchingLiteralsCollapse` | src/services/aiSqlExecutionPolicy.ts:72-89 | an input that differs: two literals that touch |
| `SqlPolicy.StatementsDistribute` | src/services/aiSqlExecutionPolicy.ts:110-117 | the statements of a;b are those of a and then of b when a ends in code |
| `SqlPolicy.ActionExactly` | src/services/aiSqlExecutionPolicy.ts:169-213 | exactly which categories are blocked and which run by themselves |
| `SqlPolicy.AppendingNeverWeakens` | src/services/aiSqlExecutionPolicy.ts:169-213 | appending a script with a statement to one that has one and ends in code never weakens the decision of either |
| `SqlPolicy.AppendedRunsExactlyWhenBothRead` | src/services/aiSqlExecutionPolicy.ts:169-213 | and the result runs by itself exactly when every statement only reads |
| `SqlPolicy.ExplainIsJudgedByItsStatement` | src/services/aiSqlExecutionPolicy.ts:133-140 | EXPLAIN, with or without ANALYZE, is judged as the statement it explains |
| `SqlPolicy.AppendingIsSafeExactly` | src/services/aiSqlExecutionPolicy.ts:169-213 | for a script with a statement that is not blocked itself: no appended script makes the decision weaker than for either part, exactly when the script ends in code |
| `SqlPolicy.OpenTextHidesTheRest` | src/services/aiSqlExecutionPolicy.ts:66-108 | behind a script that does not end in code, an appended DROP changes nothing of the decision |
| `SqlPolicy.OpenCommentsMergeStatements` | src/services/aiSqlExecutionPolicy.ts:98-103 | behind an open line comment the semicolon is lost and the next line joins the first script's last statement |
| `SqlAppend.BlockedStaysExactly` | src/services/aiSqlExecutionPolicy.ts:169-213 | a blocked script with a statement stays blocked, whatever is appended and whatever the pattern tests say of longer texts, exactly when it ends in code, or a statement before the open one is dangerous, or the open one is so by its keyword alone |
| `SqlAppend.ClassifyStays` | src/services/aiSqlExecutionPolicy.ts:133-155 | a dangerous statement made longer, under any number of EXPLAINs: dangerous by keyword it stays so; otherwise lenient pattern tests let it pass |
| `SqlAppend.OpenCommentUnblocks` | src/services/aiSqlExecutionPolicy.ts:98-103 | the input: a blocked UPDATE with an open comment behind it runs by itself when the next line is taken for its condition |
| `AgentWorkspace.JobsSettleInOrder` | src/state/agentWorkspace.ts:18-22 | the serial queue settles every job once, one at a time, in the order asked |
| `AgentWorkspace.NoGrantOutlivesItsRevocation` | src/state/agentWorkspace.ts:27-71 | in every interleaving the grant in force was made in an epoch not before the last successful revocation; when that is the latest, in the present epoch |
| `AgentWorkspace.OlderJobsAreTurnedAway` | src/state/agentWorkspace.ts:41-42 | a job of an older epoch that has not begun is rejected without ever calling the backend |
| `AgentWorkspace.ScopeChangeTurnsAway` | src/state/agentWorkspace.ts:27-35 | a scope change makes every waiting job such a job |
| `AgentWorkspace.MirrorHoldsExactly` | src/state/agentWorkspace.ts:43-69 | `activePath` mirrors the backend throughout a run exactly when no revocation succeeds over a late path and no failed save leaves another grant than before it |
| `AgentWorkspace.MirroredPreparesAreGranted` | src/state/agentWorkspace.ts:60-70 | with the mirror right, a prepare that answers at once answers with the grant in force |
| `AgentWorkspace.PathIsTheStoredOne` | src/state/agentWorkspace.ts:46-55 | the path shown is always the one stored for the present scope |
| `AgentWorkspace.LateReplySpoilsTheMirror` | src/state/agentWorkspace.ts:67-69 | a run in which a prepare is answered with a path while the backend has no grant |
| `AgentWorkspace.Workspace.SetAgentWorkspaceScope` | src/state/agentWorkspace.ts:27-35 | a scope change on the variables |
| `AgentWorkspace.Workspace.SaveAgentWorkspace` | src/state/agentWorkspace.ts:37-41 | a save captures owner and epoch, or is refused without an owner |
| `AgentWorkspace.Workspace.PrepareAgentWorkspace` | src/state/agentWorkspace.ts:60-64 | a prepare captures owner and epoch |
| `AgentWorkspace.Workspace.RunNext` | src/state/agentWorkspace.ts:41-67 | the start of a queued job |
| `AgentWorkspace.Workspace.HandleReply` | src/state/agentWorkspace.ts:44-69 | the backend's reply to each kind of call |
| `McpLog.MergeMcpLogReplay` | src/services/mcp.ts:177-190 | the loops find the longest overlap |
| `McpLog.MergeIsShortest` | src/services/mcp.ts:177-190 | the merge starts with the replay, ends by key with the buffer, and nothing shorter does |
| `McpLog.PanelShowsTheLog` | src/services/mcp.ts:192-209 | for any windows: the panel shows the log from the start of the replay, nothing left out or repeated, exactly when replay and buffer interlock, or no event came |
| `McpLog.PanelShowsSomeWindow` | src/services/mcp.ts:192-209 | it shows some window of the log exactly then, or when the replay is empty |
| `McpLog.PanelIsRightExactly` | src/services/mcp.ts:109-114 | with the replay capped at 200: exactly when at most 200 entries were written since the listener was attached and their events had arrived before the merge, or no event came |
| `McpLog.PanelRepeatsEntries` | src/services/mcp.ts:177-209 | two inputs that repeat entries: a buffer that ends before the replay, and a burst of 201 entries |
| `McpSync.NewestSnapshotWins` | src/services/mcp.ts:75-89 | an older snapshot never finishes last: the registry is the newest whose push succeeded, failures before it notwithstanding |
| `Accounts.AccountsStayConsistent` | src-tauri/src/auth.rs:50-148 | in every run of requests: an admin exists if a user does, names are unique, and sessions, secrets and MCP tokens are of existing users |
| `Accounts.IdsAreNeverReused` | src-tauri/src/auth.rs:50-57 | no id is given out again, and an account keeps name and role |
| `Accounts.AnotherAdmin` | src-tauri/src/auth.rs:369-384 | whoever is deleted, an admin remains |
| `Accounts.DeletedUsersStayGone` | src-tauri/src/server.rs:498-514 | after a deletion no later state has a session, secret or token of that id |
| `Accounts.NonAdminsTouchOnlyTheirOwn` | src-tauri/src/server.rs:516-643 | a command of a user who is no admin leaves accounts and what is stored or owned for others unchanged |
| `Accounts.LoginIsForTheNamedUser` | src-tauri/src/server.rs:398-408 | a login succeeds exactly for a known name with its password, and its session is that user's, for seven days |
| `Accounts.DispatchActsOnlyOnOwn` | src-tauri/src/server.rs:709-726 | however long after and whoever joined or left, a user who is no admin gets a command through whose arguments name a live resource only if that was opened under his own id; over HTTP and over the WebSocket |
| `Accounts.GatedFields` | src-tauri/src/server.rs:715-726 | which argument fields are gated: connId, sourceConnId, targetConnId, sessionId, and the tunnelId of a close |
| `Accounts.ClosedIsGated` | src-tauri/src/server.rs:752-758 | what a command takes off the owner maps it has been let through to |
| `Accounts.RotationRetiresTheOldToken` | src-tauri/src/auth.rs:313-322 | after a rotation the old token resolves to nobody for ever, the new one to its owner alone, as enabled as before |
| `Accounts.StepKeepsInv` | src-tauri/src/server.rs:264-335 | every request keeps the tables and the session map consistent |
| `Accounts.AuthDb.Create` | src-tauri/src/auth.rs:99-119 | creating a user, refused for a short password, an empty or a taken name |
| `Accounts.AuthDb.Bootstrap` | src-tauri/src/auth.rs:125-148 | the first admin, only into an empty table |
| `Accounts.AuthDb.Delete` | src-tauri/src/auth.rs:369-394 | deleting a user with everything stored under the id, but not the last admin |
| `Accounts.AuthDb.Upsert` | src-tauri/src/auth.rs:313-322 | a new token keeps the enabled flag |
| `Accounts.LiveState.ResolveSession` | src-tauri/src/server.rs:347-354 | an expired entry is dropped and counts as none |
| `Accounts.LiveState.CreateSessionFor` | src-tauri/src/server.rs:358-367 | the retain loop drops the expired entries before the new one |
| `Accounts.LiveState.PurgeSessionsOf` | src-tauri/src/server.rs:371-375 | the retain loop drops exactly the user's sessions |
| `Accounts.LiveState.Gate` | src-tauri/src/server.rs:715-726 | the gate over the argument fields passes exactly if every resource they name may be used |
| `ContentDisposition.ContentDispositionAttachment` | src-tauri/src/server.rs:1677-1691 | the loop builds the header value |
| `ContentDisposition.NameRoundTrip` | src-tauri/src/server.rs:1677-1691 | the value is read back as the fallback and exactly the bytes of the name, for every name |
| `ContentDisposition.ValueIsPrintable` | src-tauri/src/server.rs:1677-1691 | no character of it can end the header line |
| `LocalTerm.EmitLocalScanned` | src-tauri/src/localterm.rs:62-114 | the loop emits what the specification says and carries the pending command on |
| `LocalTerm.NoByteIsLost` | src-tauri/src/localterm.rs:74-113 | every visible byte is sent once and in order |
| `LocalTerm.EventsSitAtTheirOffsets` | src-tauri/src/localterm.rs:75-110 | each event is announced between the bytes before its offset and those behind it |
| `LocalTerm.HistoryIsReported` | src-tauri/src/localterm.rs:88-109 | the history gets each command line once, at the next end of execution, with its exit code |
| `LocalTerm.EmitChunks` | src-tauri/src/localterm.rs:62-114 | chunk after chunk, the pending command carried on and handed back |
| `LocalTerm.ReportsCarryOver` | src-tauri/src/localterm.rs:62-114 | over all chunks the frames hold every visible byte once, in order, and the history each command line once, also when its end comes in a later chunk |
| `Diagnostics.LogIsARecordAlignedSuffix` | src-tauri/src/diagnostics.rs:106-123 | whatever fails: backup and current file are a suffix of what was written, cut only between records, and each is within the limit or a single record |
| `Diagnostics.SuccessfulAppendsKeepLines` | src-tauri/src/diagnostics.rs:106-123 | when all appends succeed the records are the lines, and the last line is always there |
| `Diagnostics.RotationKeepsEnough` | src-tauri/src/diagnostics.rs:106-123 | when all appends succeed, records are dropped only for more than the limit of newer ones |
| `Diagnostics.LogFiles.AppendRotating` | src-tauri/src/diagnostics.rs:106-123 | one append on the two files, with the operation that fails |

## Left out

- Network, PTY, SSH, SFTP, SQL drivers, the file system and Tauri calls: only their completion or failure is a step.
- Cryptography: DES is a parameter of the handshake; password hashes and sealed secrets are outcomes or opaque strings.
- SQLite: tables are maps under their keys, with ids that are never reused; statement errors other than the modelled ones.
- Two handlers of the server that run at the same time: each handler is one step, so a request that outlives the deletion of its user is not modelled.
- Integer limits of counters (`u64` ids, `i64` day numbers beyond the range of years, message counters): integers are unbounded except where a format fixes the width.
- Rust's `from_utf8_lossy` on the VNC desktop name: the name is its bytes.  Write errors in the VNC handshake.
- `ensureSubscription`: its receipt is a request like any other; its own connection timeout and its check for a removed handler are not modelled.  Nor is `wsNotify`, or the Tauri branch of `subscribe`.
- The heartbeat's clock: its ticks are steps at any time.  Fairness and liveness of peers.
- Two clock readings inside one pruning pass of the optical grants are taken as one.  Reading the file under a lease, its size and type checks.
- ANSI cleaning, the recognition of streaming commands and the text decoder of terminal output: parameters or inputs.  `buildTerminalResultPrompt`.
- The JSON contents of tool inputs: `AgentWire` tells only strings apart.  Projection per turn: `AgentRouter` keeps one projection for each turn as the application does, with effects run inside the handling step.
- `agentAlive` and the subscription epoch of the application, its conversations and panels.  `startAgentTurn`'s abort race.
- `objectsToNamespace`, `preferredNamespace`, column catalogs and searches over the metadata cache.
- The regular expressions inside UPDATE and WITH statements and those that guess the environment of a connection: parameters of `SqlPolicy`.
- A storage that throws when a workspace path is read, and the `subscribe` hook that re-reads it.
- `ServerTargets`, `merge_path`, CIDR matching, configuration flags, preferences: read-only look-ups and small loops that would only add easy members.
- Turn ids of the backend, "turn-" and a random number, are taken as distinct and never inherited names.  Assigning to "__proto__" also changes an object's prototype until its next copy; nothing reads it in between.
- The upload and download routes with their session gate, and the clean-up of a closed WebSocket's resources.
- Trimming of user names before the tables see them.  Changing a password, which touches no other table.
- The scanner behind `emit_local_scanned`: its output is an input with offsets that never fall, as the slices of the source require.
- `Accounts.NonAdminsTouchOnlyTheirOwn`: says nothing of rows an admin writes for an owner id that does not exist, because the server allows them.
- `Diagnostics.LogIsARecordAlignedSuffix`: assumes files below the limit of a 64-bit length, because near it the saturating sum stops rotating.
