# Verified models of Hype Comms

The project models the parts of Hype Comms that must not lose or repeat work and proves what they promise
over whole runs. `dafny verify dfyconfig.toml` checks everything.

Each stateful component appears twice: as transition functions on a record, over which theorems are stated,
and as a class with the original's fields whose methods are proved to take the record from one value to the next.
The `…Outcomes` modules, `RealtimeFrames`, `WatchProgress`, `RecoveryProgress` and `CheckpointFormats` say, beside what is never lost, what does happen:
which call is refused, what a call that succeeds leaves, and that what is due is done.

- **Realtime resume** (`Consumer`, `Realtime`, `RealtimeTheorems`, `RealtimeLatch`, `RealtimeRuns`,
  `RealtimeOutcomes`, `RealtimeFrames`, `RealtimeClient`): `WorkspaceRealtimeClient`.
  Every public call, ticket settlement, socket callback and timer is one step. The consumer's answers
  are arbitrary: accept, refuse or raise, with or without resetting the session from inside the callback.
- **Watch** (`WatchLoop`, `WatchProgress`, `WatchOutcomes`, `WatchCommand`, `WatchWitness`): `watchProductRealtime` on top of that client, with its
  FIFO output tail, shutdown deadline and signals. The server is assumed to send, on a socket opened at a position, every visible event
  above it in increasing order, and to name in its handshake a position that no unsent event is at or below
  (`WatchLoop.Obeys`); nothing else is assumed, and other frames may come at any time.
- **Hermes checkpoint** (`Decimals`, `CheckpointFile`, `CheckpointMigration`, `CheckpointFormats`, `Checkpoint`,
  `CheckpointOutcomes`, `HermesAdapter`): the file format
  with its three older shapes, and the mutators with their rollbacks. A write ends saved, failed, or raised after the file was replaced.
- **Hermes tasks** (`AmbientDelivery`, `AmbientOutcomes`, `CheckpointOrder`, `ReadTargets`, `RecoveryOrder`, `RecoveryProgress`): watch consumer, recovery pass, read-cursor
  flushes and model turns interleaving at their await points, with restarts anywhere. `CheckpointOrder` also assumes that
  a bootstrap position is the server's high water, at or above every position of its epoch that it handed out before (`HighWater`).
- **Context pack** (`JsonText`, `JsonRoundTrip`, `ContextPack`, `ContextBinding`): TypeScript prints, Python splits and parses.
- **Desktop** (`AuthKitFlow`, `CacheCrypto`, `ChatSession`, `AiChannel`, `AiRetirement`, `AiOutcomes`): single-use sign-in, key-file ownership,
  credential generations, agent hosts and permissions.
- **Throttle**, **ChannelSlug**: two compact loops.

## Where the code does less than it promises

Each of these has its exact condition proved for all inputs, and a concrete run that shows it.

- `observeOnly` for a user or workspace other than the latched one reopens the latched scope at the latched cursor
  (`LatchEndsIff`, `ObserveOnlyReopensLatchedScope`; `LatchCounterexample`). The latch is otherwise kept until
  `prepare` or `start` brings progress, or the session is reset or replaced.
- `_persist_cursor` can raise after `os.replace` (the mode change and directory sync follow it). The caller then rolls memory back
  while the file is new; memory and file differ exactly then (`RollbackAgrees`; `RaisedWriteDiverges`). A read target
  is then written without being promised exactly if it is above every promised one (`WrittenExceedsIff`; `HalfWrittenTarget`).
- A sign-in or renewal whose response cannot be read leaves the new credential in the jar without a new generation. A 401 for
  the predecessor then removes the successor: the rejection removes what its request carried if and only if no credential was installed
  behind the sending (`RejectionEndsItsOwn`, `RejectionRemovesWhatItCarried`; `UnreadableSignInIsRejected`).
- With colliding file names, a garbled read removes another scope's key record (`InitializeDestroysIff`, `RecordGoesIff`;
  `UnsoundReadCostsARecord`), and so does a clear behind a save that raised after its rename
  (`ClaimsEndIff`, `ClearDestroysIff`; `LateSaveFailureCostsARecord`).
- A pending authorization and its stored record come apart at exactly the operations of `AuthKitFlow.Splits`: each is one whose store
  call raised after taking effect, but not every such call splits them (`StepAgreesIff`, `RunAgreesIff`; `CancelledAttemptSplits`).

The throttle's bound over a sliding interval is `2 * maxAttempts - 1`, one better than twice the limit, and tight.

## Model

| member | source | states |
|---|---|---|
| `RealtimeTheorems.NeverWedgedNeverDoubled` | packages/api-client/src/realtime.ts:446-611 | after every run of calls, tickets, socket callbacks and timers: exactly one of ticket, reconnect timer and connection exists while the client is neither stopped nor incompatible, none otherwise; what exists carries the current epoch, and a connection the client's scope |
| `RealtimeTheorems.LatchEndsIff` | packages/api-client/src/realtime.ts:808-902 | a latched recovery survives a step if and only if the step is not one of `Releases`, a condition on the state and the call alone; while it lasts the client is stopped and has no ticket, timer or socket |
| `RealtimeTheorems.LatchHoldsOverRuns` | packages/api-client/src/realtime.ts:214-340 | over any run without a releasing step the latch is unchanged and nothing is ever opened |
| `RealtimeTheorems.ReleaseByPrepareIsProgress` | packages/api-client/src/realtime.ts:214-240 | preparing the latched user and workspace releases the latch exactly for another epoch or a strictly later position |
| `RealtimeTheorems.ObserveOnlyReopensLatchedScope` | packages/api-client/src/realtime.ts:312-340 | a release by `observeOnly` while the latched scope is attached requests a ticket for that very scope and cursor |
| `RealtimeTheorems.LatchCounterexample` | packages/api-client/src/realtime.ts:325-340 | a concrete reachable run in which this happens: an oversized replay latches one user, `observeOnly` for another reopens the first |
| `RealtimeTheorems.CursorMovesOnlyByAcknowledgement` | packages/api-client/src/realtime.ts:342-365 | apart from explicit start positions, only an accepted acknowledgement changes the cursor, and to the later of the two |
| `RealtimeTheorems.CursorIsMaximum` | packages/api-client/src/realtime.ts:131-135 | delivery is not progress: over any run between start positions the cursor is exactly the maximum of the start and all accepted acknowledgements |
| `RealtimeTheorems.DeliveryWindow` | packages/api-client/src/realtime.ts:745-760 | in every reachable state the byte counter is the sum over the unacknowledged deliveries, both limits hold, and each of them is in the cursor's epoch and strictly above it |
| `RealtimeTheorems.HandshakeFence` | packages/api-client/src/realtime.ts:650-775 | on every socket of every run the frames delivered are a prefix, in arrival order, of those accepted; nothing is delivered before a `system.connected` for the scope's user; every delivered frame has the scope's workspace and the epoch of the resume position |
| `RealtimeTheorems.HistoryOnlyGrows` | packages/api-client/src/realtime.ts:613-776 | the per-socket histories behind HandshakeFence are never rewritten by a longer run |
| `Realtime.AcceptAcknowledgement` | packages/api-client/src/realtime.ts:342-365 | the cursor becomes the later position and the delivery window stays exact and above it |
| `Realtime.Acknowledge` | packages/api-client/src/realtime.ts:342-365 | an acknowledgement of another epoch moves nothing; otherwise the cursor is the later of the two; nothing else but window and failure count changes |
| `Realtime.AcknowledgeScoped` | packages/api-client/src/realtime.ts:342-365 | keeps the invariant of every state, for a stale scope too |
| `Realtime.Connect` | packages/api-client/src/realtime.ts:496-502 | afterwards the current epoch has exactly one activity, whatever the state callback did before; nothing is delivered |
| `Realtime.ScheduleReconnect` | packages/api-client/src/realtime.ts:930-945 | keeps the invariant although its state callback may reset the session; for a superseded epoch nothing changes |
| `Realtime.RetireConnection` | packages/api-client/src/realtime.ts:918-928 | afterwards a running client has exactly one activity and no connection; for a superseded socket nothing changes |
| `Realtime.Rebased` | packages/api-client/src/realtime.ts:471-483 | the window left by a new start position is exact and strictly above it |
| `Realtime.FreshGeneration` | packages/api-client/src/realtime.ts:471-494 | a new epoch starts with the given cursor, without activity, latch or connection |
| `Realtime.BeginEpoch` | packages/api-client/src/realtime.ts:471-494 | unless the state callback resets the session, a new epoch ends up running with a ticket outstanding for the scope |
| `Realtime.TicketRejected` | packages/api-client/src/realtime.ts:507-525 | keeps the invariant in all of: superseded, protocol mismatch, taken over by the consumer, retried; delivers nothing, moves no cursor |
| `Realtime.TicketGranted` | packages/api-client/src/realtime.ts:527-566 | an owned ticket opens one more socket, at the current cursor and scope, and makes it the live one; otherwise no socket is opened |
| `Realtime.TimerFired` | packages/api-client/src/realtime.ts:930-945 | keeps the invariant; delivers nothing, moves no cursor |
| `Realtime.SocketError` | packages/api-client/src/realtime.ts:597-601 | keeps the invariant; delivers nothing, moves no cursor |
| `Realtime.SocketClosed` | packages/api-client/src/realtime.ts:602-610 | keeps the invariant whether or not the consumer takes the failure over; delivers nothing, moves no cursor |
| `Realtime.UnexpectedResponse` | packages/api-client/src/realtime.ts:584-596 | keeps the invariant for protocol mismatch, consumer takeover and retry; delivers nothing, moves no cursor |
| `Realtime.RejectInvalidEvent` | packages/api-client/src/realtime.ts:778-788 | keeps the invariant; delivers nothing, moves no cursor |
| `Realtime.FailIncompatible` | packages/api-client/src/realtime.ts:790-806 | keeps the invariant; delivers nothing, moves no cursor |
| `Realtime.DeliverPendingRecovery` | packages/api-client/src/realtime.ts:881-902 | keeps the client stopped and its cursor and histories, whatever the consumer answers |
| `Realtime.RequireRecovery` | packages/api-client/src/realtime.ts:808-854 | stops the client of the live socket without delivering anything; for a superseded socket nothing changes; what it latches is stated by RealtimeLatch.LatchTakesPosition |
| `Realtime.RetainWindowless` | packages/api-client/src/realtime.ts:856-879 | stops the client of the live socket without delivering anything; for a superseded socket nothing changes |
| `Realtime.PauseForRenderer` | packages/api-client/src/realtime.ts:904-916 | stops the client of the live socket without delivering anything; for a superseded socket nothing changes |
| `Realtime.Tracked` | packages/api-client/src/realtime.ts:745-760 | recording a delivery keeps the window exact and within both limits |
| `Realtime.Offer` | packages/api-client/src/realtime.ts:761-776 | the frame is handed over exactly once, in order; the connection survives only if the consumer accepted and did not reset |
| `Realtime.Observe` | packages/api-client/src/realtime.ts:733-743 | the windowless observer sees the frame; the answer says exactly whether the connection is still live |
| `Realtime.DeliverEvent` | packages/api-client/src/realtime.ts:733-776 | either nothing or exactly this frame is handed over; the result is true whenever the connection is still live, and if it is not then the client has been left consistent |
| `Realtime.DeliverReplay` | packages/api-client/src/realtime.ts:697-705 | success means that the whole replay was handed over in order on the same connection; a stop in the middle leaves a consistent client |
| `Realtime.GoLive` | packages/api-client/src/realtime.ts:704-731 | keeps the invariant through the live announcement and the delivery of the handshake |
| `Realtime.Handshake` | packages/api-client/src/realtime.ts:690-731 | keeps the invariant; histories only grow; no cursor moves |
| `Realtime.Buffer` | packages/api-client/src/realtime.ts:717-728 | holding a frame keeps counter and limits of the replay buffer exact |
| `Realtime.Hold` | packages/api-client/src/realtime.ts:717-728 | keeps the invariant also when the buffer would overflow |
| `Realtime.DeliverLive` | packages/api-client/src/realtime.ts:730-731 | keeps the invariant and the fence for a frame after the handshake |
| `Realtime.HandleEvent` | packages/api-client/src/realtime.ts:676-731 | keeps the invariant for every kind of accepted frame, windowless or not |
| `Realtime.HandleMessage` | packages/api-client/src/realtime.ts:613-731 | keeps the invariant for every frame, valid or not, from every socket, live or superseded; never moves the cursor |
| `Realtime.Prepare` | packages/api-client/src/realtime.ts:214-240 | stops and disconnects; a scope is returned and attached with the given cursor unless the epoch allocator is exhausted |
| `Realtime.Activate` | packages/api-client/src/realtime.ts:241-257 | keeps the invariant and the histories; moves no cursor |
| `Realtime.Start` | packages/api-client/src/realtime.ts:258-299 | keeps the invariant in every branch |
| `Realtime.ObserveOnly` | packages/api-client/src/realtime.ts:312-340 | keeps the invariant; clears a latch exactly if a cursor exists and the latched user or workspace differs |
| `Realtime.Stop` | packages/api-client/src/realtime.ts:430-440 | keeps the invariant; moves no cursor |
| `Realtime.ResetSession` | packages/api-client/src/realtime.ts:442-469 | from the middle of any callback it restores the full invariant, stopped |
| `Realtime.Apply` | packages/api-client/src/realtime.ts:169-963 | every step keeps the invariant and only extends the histories |
| `Realtime.Run` | packages/api-client/src/realtime.ts:169-963 | so does every run |
| `RealtimeClient.WorkspaceRealtimeClient.constructor` | packages/api-client/src/realtime.ts:169-203 | the initial state |
| `RealtimeClient.WorkspaceRealtimeClient.RetireTransport` | packages/api-client/src/realtime.ts:450-469 | field by field, the retired state, announced or silent |
| `RealtimeClient.WorkspaceRealtimeClient.DropAcknowledged` | packages/api-client/src/realtime.ts:348-362 | the filter loop keeps exactly the deliveries above the new position, with their exact byte sum, and reports whether any was dropped |
| `RealtimeClient.WorkspaceRealtimeClient.Acknowledge` | packages/api-client/src/realtime.ts:342-365 | the assignments refine Realtime.Acknowledge |
| `RealtimeClient.WorkspaceRealtimeClient.AcknowledgeScoped` | packages/api-client/src/realtime.ts:342-365 | the assignments refine Realtime.AcknowledgeScoped |
| `RealtimeClient.WorkspaceRealtimeClient.Connect` | packages/api-client/src/realtime.ts:496-503 | the assignments refine Realtime.Connect |
| `RealtimeClient.WorkspaceRealtimeClient.ScheduleReconnect` | packages/api-client/src/realtime.ts:930-945 | the assignments refine Realtime.ScheduleReconnect, with the second guard after the callback |
| `RealtimeClient.WorkspaceRealtimeClient.RetireConnection` | packages/api-client/src/realtime.ts:918-928 | the assignments refine Realtime.RetireConnection |
| `RealtimeClient.WorkspaceRealtimeClient.BeginEpoch` | packages/api-client/src/realtime.ts:471-494 | the assignments refine Realtime.BeginEpoch |
| `RealtimeClient.WorkspaceRealtimeClient.TicketRejected` | packages/api-client/src/realtime.ts:507-525 | the assignments refine Realtime.TicketRejected |
| `RealtimeClient.WorkspaceRealtimeClient.TicketGranted` | packages/api-client/src/realtime.ts:527-566 | the assignments refine Realtime.TicketGranted |
| `RealtimeClient.WorkspaceRealtimeClient.TimerFired` | packages/api-client/src/realtime.ts:930-945 | the assignments refine Realtime.TimerFired |
| `RealtimeClient.WorkspaceRealtimeClient.SocketClosed` | packages/api-client/src/realtime.ts:602-610 | the assignments refine Realtime.SocketClosed |
| `RealtimeClient.WorkspaceRealtimeClient.UnexpectedResponse` | packages/api-client/src/realtime.ts:584-596 | the assignments refine Realtime.UnexpectedResponse |
| `RealtimeClient.WorkspaceRealtimeClient.RejectInvalidEvent` | packages/api-client/src/realtime.ts:778-788 | the assignments refine Realtime.RejectInvalidEvent |
| `RealtimeClient.WorkspaceRealtimeClient.FailIncompatible` | packages/api-client/src/realtime.ts:790-806 | the assignments refine Realtime.FailIncompatible |
| `RealtimeClient.WorkspaceRealtimeClient.DeliverPendingRecovery` | packages/api-client/src/realtime.ts:881-902 | the assignments refine Realtime.DeliverPendingRecovery |
| `RealtimeClient.WorkspaceRealtimeClient.RequireRecovery` | packages/api-client/src/realtime.ts:808-854 | the assignments refine Realtime.RequireRecovery |
| `RealtimeClient.WorkspaceRealtimeClient.RetainWindowless` | packages/api-client/src/realtime.ts:856-879 | the assignments refine Realtime.RetainWindowless |
| `RealtimeClient.WorkspaceRealtimeClient.PauseForRenderer` | packages/api-client/src/realtime.ts:904-916 | the assignments refine Realtime.PauseForRenderer |
| `RealtimeClient.WorkspaceRealtimeClient.Observe` | packages/api-client/src/realtime.ts:733-743 | the assignments refine Realtime.Observe |
| `RealtimeClient.WorkspaceRealtimeClient.Offer` | packages/api-client/src/realtime.ts:761-776 | the assignments refine Realtime.Offer |
| `RealtimeClient.WorkspaceRealtimeClient.DeliverEvent` | packages/api-client/src/realtime.ts:733-776 | the assignments refine Realtime.DeliverEvent |
| `RealtimeClient.WorkspaceRealtimeClient.DeliverReplay` | packages/api-client/src/realtime.ts:697-703 | the loop over the held frames refines the recursive Realtime.DeliverReplay, early exits included |
| `RealtimeClient.WorkspaceRealtimeClient.Handshake` | packages/api-client/src/realtime.ts:690-716 | the assignments refine Realtime.Handshake |
| `RealtimeClient.WorkspaceRealtimeClient.Hold` | packages/api-client/src/realtime.ts:717-728 | the assignments refine Realtime.Hold |
| `RealtimeClient.WorkspaceRealtimeClient.HandleMessage` | packages/api-client/src/realtime.ts:613-731 | the assignments refine Realtime.HandleMessage |
| `RealtimeClient.WorkspaceRealtimeClient.Prepare` | packages/api-client/src/realtime.ts:214-240 | the assignments refine Realtime.Prepare, the exhausted allocator included |
| `RealtimeClient.WorkspaceRealtimeClient.Activate` | packages/api-client/src/realtime.ts:241-257 | the assignments refine Realtime.Activate |
| `RealtimeClient.WorkspaceRealtimeClient.Start` | packages/api-client/src/realtime.ts:258-299 | the assignments refine Realtime.Start |
| `RealtimeClient.WorkspaceRealtimeClient.ConsumerUnavailable` | packages/api-client/src/realtime.ts:301-303 | the assignment refines Realtime.ConsumerUnavailable |
| `RealtimeClient.WorkspaceRealtimeClient.ObserveOnly` | packages/api-client/src/realtime.ts:312-340 | the assignments refine Realtime.ObserveOnly |
| `RealtimeClient.WorkspaceRealtimeClient.Stop` | packages/api-client/src/realtime.ts:430-440 | the assignments refine Realtime.Stop |
| `RealtimeClient.WorkspaceRealtimeClient.ResetSession` | packages/api-client/src/realtime.ts:442-448 | the assignments refine Realtime.ResetSession |
| `RealtimeLatch.LatchTakesPosition` | packages/api-client/src/realtime.ts:808-879 | whatever step latches, only a product frame of the live socket does, and the latch is for the user and workspace of the client's scope at the very position the client had |
| `RealtimeLatch.OverflowStaysLatched` | packages/api-client/src/realtime.ts:214-340 | behind such a step, over any run of preparations, starts and activations without progress and of callbacks, barring a reset: the latch is unchanged and not one ticket, timer or socket comes into being |
| `RealtimeLatch.ReplayOverflowLatchesIff` | packages/api-client/src/realtime.ts:717-728 | a change before the handshake latches if and only if it outgrows the replay's count or byte limit, and the consumer does not reset the session over it |
| `RealtimeLatch.WindowOverflowLatchesIff` | packages/api-client/src/realtime.ts:745-760 | a change behind the handshake latches if and only if it lies above the position and outgrows the window of unacknowledged deliveries, and the consumer does not reset the session over it |
| `RealtimeLatch.LatchedOpensNothing` | packages/api-client/src/realtime.ts:808-879 | no step of a latched client opens a socket |
| `RealtimeRuns.EveryDeliveryIsRecorded` | packages/api-client/src/realtime.ts:745-760 | in every reachable state each change that the live connection handed to the renderer is at or below the position, or recorded as pending with its own position and size |
| `RealtimeRuns.StepKeeps` | packages/api-client/src/realtime.ts:613-776 | every step keeps that ledger, through handshakes, partial replays, acknowledgements and resets |
| `RealtimeRuns.LeftScopeIsStale` | packages/api-client/src/realtime.ts:342-346 | a scope that some step of a run left is never current again: every later acknowledgement, activation and stop in its name is dropped without effect |
| `RealtimeRuns.DeadSocketIsInert` | packages/api-client/src/realtime.ts:566-611 | a socket that is not live never is again, and no message, error, close or refused upgrade of it has any effect |
| `RealtimeRuns.LeftGenerationIsOver` | packages/api-client/src/realtime.ts:507-530 | leaving a scope, or stopping, ends the generation for good: its ticket is dropped whenever it settles, and its timer is gone |
| `RealtimeRuns.StepRises` | packages/api-client/src/realtime.ts:450-494 | generations and scope numbers only rise, and a new scope has a number that none had before |
| `RealtimeOutcomes.AcknowledgeMeans` | packages/api-client/src/realtime.ts:342-365 | an accepted acknowledgement forgets exactly the deliveries it covers and clears the failure count if there are any |
| `RealtimeOutcomes.TicketRejectedMeans` | packages/api-client/src/realtime.ts:507-525 | late tickets are dropped, a protocol mismatch stops for good, and any other failure is taken over by the consumer or leaves the same generation waiting on a timer |
| `RealtimeOutcomes.TicketGrantedMeans` | packages/api-client/src/realtime.ts:527-566 | late tickets are dropped; a socket that cannot be created leaves the generation waiting; any other is live and yet to be proved |
| `RealtimeOutcomes.TimerMeans` | packages/api-client/src/realtime.ts:930-945 | a fired timer asks for the next ticket of the same generation |
| `RealtimeOutcomes.SocketClosedMeans` | packages/api-client/src/realtime.ts:602-610 | the consumer takes the close over, or the same generation waits on a timer with scope, position and window unchanged |
| `RealtimeOutcomes.UnexpectedResponseMeans` | packages/api-client/src/realtime.ts:584-596 | a protocol mismatch stops for good; any other refusal is taken over or waited out |
| `RealtimeOutcomes.PrepareMeans` | packages/api-client/src/realtime.ts:214-240 | the state after a preparation: detached, nothing outstanding, the new scope at the given position, the latch kept exactly for the same user and workspace without progress |
| `RealtimeOutcomes.ActivateMeans` | packages/api-client/src/realtime.ts:241-257 | stale scopes are dropped, a latched client offers its control again, any other begins a generation with a ticket requested and exactly the deliveries above its position pending |
| `RealtimeOutcomes.StartMeans` | packages/api-client/src/realtime.ts:258-299 | without progress a latch is offered again; a running client acknowledges, or leaves windowless observation by a new generation; any other is prepared and activated |
| `RealtimeOutcomes.ObserveOnlyMeans` | packages/api-client/src/realtime.ts:312-340 | who goes on observing, who begins a generation, and that nothing is observed before a position is known |
| `RealtimeOutcomes.StopMeans` | packages/api-client/src/realtime.ts:430-469 | a stop keeps the latch and a reset does not; both leave scope, window and every activity |
| `RealtimeFrames.FrameMeans` | packages/api-client/src/realtime.ts:613-688 | a frame of another workspace or user, or of an unknown type, stops the client for good; one that breaks the protocol is reported and the connection given up; activity changes nothing |
| `RealtimeFrames.OverflowMeans` | packages/api-client/src/realtime.ts:808-854 | what outgrows a limit latches the control at the client's own position, offers it to a renderer that is ready, keeps the scope attached, and announces going offline once |
| `RealtimeFrames.HeldMeans` | packages/api-client/src/realtime.ts:717-728 | before the handshake a change is held and nobody sees it |
| `RealtimeFrames.LiveFrameMeans` | packages/api-client/src/realtime.ts:733-776 | behind the handshake a change is recorded, then offered; by the answer the client goes on, pauses for the renderer or waits on a timer; a renderer that is not ready is not offered anything; an observer sees it whatever it answers |
| `RealtimeFrames.HandshakeMeans` | packages/api-client/src/realtime.ts:690-731 | before an accepting consumer the handshake makes the connection live with everything held handed over and recorded, or latches if and only if that does not fit the window |
| `RealtimeFrames.ResyncMeans` | packages/api-client/src/realtime.ts:676-689 | a repair signal is offered to the renderer and never recorded |
| `RealtimeFrames.WindowlessResyncMeans` | packages/api-client/src/realtime.ts:676-689 | an observing client stops behind a latch with that signal, at its own position and without a scope |
| `RealtimeFrames.StaleFrame` | packages/api-client/src/realtime.ts:613-617 | a frame of any other socket is dropped |
| `SyncPositions.LaterCursor` | packages/cli/src/watch.ts:62-64 | one of the two positions, at or above both |
| `WatchLoop.NoGap` | packages/cli/src/watch.ts:121-277 | over every run that the server assumption allows, under disconnects, refused tickets, overlapping replays and failed writes: every server event above the start and at or below the cursor was written; the same for every position a socket was ever resumed from and for the position returned |
| `WatchLoop.InvOverRuns` | packages/cli/src/watch.ts:121-277 | the invariant behind NoGap holds after every run |
| `WatchLoop.StepKeeps` | packages/cli/src/watch.ts:137-257 | one input, of the transport, the output or the shutdown, keeps it |
| `WatchLoop.ReplayInOrder` | packages/cli/src/watch.ts:189-193 | handing over the held replay enqueues it contiguously after what was supplied |
| `WatchLoop.Written` | packages/cli/src/watch.ts:154-172 | a successful write keeps the client's invariant through the acknowledgement or the finish that follows |
| `WatchLoop.Apply1` | packages/cli/src/watch.ts:121-277 | every input leaves the realtime client in a valid state |
| `WatchWitness.EventIsReturned` | packages/cli/src/watch.ts:121-277 | the hypotheses of NoGap are met by a concrete run that writes an event and returns its position |
| `WatchCommand.WatchProductRealtime` | packages/cli/src/watch.ts:121-277 | the running loop over the client object: what it reports as cursor and result leaves no server event above the start unwritten, and is what the state machine of WatchLoop gives |
| `WatchCommand.Finish` | packages/cli/src/watch.ts:137-153 | only the first finish counts, and it resets the realtime session |
| `WatchCommand.OutputWritten` | packages/cli/src/watch.ts:155-165 | the effect of one written event on client and closure variables |
| `WatchCommand.OutputFailed` | packages/cli/src/watch.ts:166-169 | the effect of a rejected write: the chain is broken and the loop finishes |
| `WatchCommand.Settle` | packages/cli/src/watch.ts:142-148 | only the first settlement decides the result |
| `WatchCommand.React` | packages/cli/src/watch.ts:137-257 | each callback refines the step of the state machine |
| `WatchProgress.EventIsWritten` | packages/cli/src/watch.ts:121-186 | from the server to the output: a change that the live connection accepts is queued, a drain of the queue is possible, and writes everything queued before it and then it, after which the reported cursor is at or above it |
| `WatchProgress.QueueDrains` | packages/cli/src/watch.ts:155-172 | as long as the output takes what it is given, the whole queue is written in order, whatever it holds, and the cursor is at or above all of it |
| `WatchProgress.InterruptedResolves` | packages/cli/src/watch.ts:137-153 | an interrupted loop resolves, behind everything that was accepted, with a position at or above all of it |
| `WatchProgress.DeadlineSettles` | packages/cli/src/watch.ts:137-153 | a finished loop settles at its deadline whatever the output does, with its failure or the cursor of what was written |
| `WatchProgress.SomethingIsNext` | packages/cli/src/watch.ts:137-172 | a queue that did not fail can always go on, and a finished loop can always settle |
| `WatchProgress.BeginMeans` | packages/cli/src/watch.ts:121-136 | the loop begins at the given position with a ticket requested, unless it was aborted before |
| `WatchProgress.InputMeans` | packages/cli/src/watch.ts:137-172 | what each input does to the closure variables |
| `WatchOutcomes.EventMeans` | packages/cli/src/watch.ts:175-186 | a watch that goes on takes every event in order, and a repair signal also ends it; one that is over takes none |
| `WatchOutcomes.FailureMeans` | packages/cli/src/watch.ts:186-257 | which failures end the watch, with which error, by ticket classification, HTTP status and close code, and that every other is left to the reconnecting client |
| `WatchOutcomes.StateMeans` | packages/cli/src/watch.ts:199-222 | only an incompatible server ends the watch by its state |
| `WatchOutcomes.WrittenEventMeans` | packages/cli/src/watch.ts:155-165 | a written event moves the reported cursor to the later position, and the client's with it |
| `WatchOutcomes.LateOrSignalMeans` | packages/cli/src/watch.ts:154-172 | what is written after the output was given up moves nothing; a written repair signal ends the watch instead |
| `WatchOutcomes.WriteFailedMeans` | packages/cli/src/watch.ts:166-169 | a failed write ends the watch with an output error and rejects what is behind it |
| `WatchOutcomes.SettleMeans` | packages/cli/src/watch.ts:142-148 | the promise is settled once, by the first failure or with the cursor of what was written |
| `WatchOutcomes.FinishMeans` | packages/cli/src/watch.ts:137-153 | only the first ending counts, and it stops the transport |
| `Decimals.CompareIsNumeric` | integrations/hermes-hype-comms/adapter.py:323-332 | length, then code points, is the numeric order on all digit strings |
| `Decimals.DecimalRoundTrip` | integrations/hermes-hype-comms/adapter.py:1600-1609 | printing a number and reading it back gives the number, in canonical spelling |
| `Decimals.CanonicalIsUnique` | integrations/hermes-hype-comms/adapter.py:317-332 | two canonical spellings of one number are the same string |
| `Decimals.IsSequenceMeans` | integrations/hermes-hype-comms/adapter.py:317-320 | the check, by comparison of digits, accepts exactly the canonical spellings of the numbers up to the bigint maximum |
| `CheckpointFile.FileRoundTrip` | integrations/hermes-hype-comms/adapter.py:1338-1489 | every checkpoint the adapter can hold is read back unchanged; only a cursor of another epoch is replaced by the bootstrap's, and exactly then a rewrite is requested |
| `CheckpointFile.CursorRoundTrip` | integrations/hermes-hype-comms/adapter.py:1370-1400 | a valid cursor is read back unchanged |
| `CheckpointFile.ReadsRoundTrip` | integrations/hermes-hype-comms/adapter.py:1400-1425 | valid read targets are read back unchanged |
| `CheckpointFile.WakeRoundTrip` | integrations/hermes-hype-comms/adapter.py:1532-1567 | a valid wake, rebound from a legacy file or not, is read back unchanged |
| `CheckpointFile.WakesRoundTrip` | integrations/hermes-hype-comms/adapter.py:1426-1456 | valid wakes with distinct orders are read back unchanged, none merged |
| `CheckpointMigration.MigrationKeepsOrder` | integrations/hermes-hype-comms/adapter.py:1426-1456 | the helper behind CheckpointFormats.LoadMeans: migrating a legacy ambient file keeps every wake and its anchor, rebinds it to the bootstrap position, and gives distinct orders in 1..n that follow (workspaceSequence, id) |
| `CheckpointMigration.MigrateInOrder` | integrations/hermes-hype-comms/adapter.py:1426-1456 | the sort-and-count loop computes that migration |
| `CheckpointMigration.SortedIds` | integrations/hermes-hype-comms/adapter.py:1426-1440 | the sort puts every wake at its ordinal |
| `CheckpointMigration.OrdinalsKeepOrder` | integrations/hermes-hype-comms/adapter.py:1426-1440 | ordinals are distinct, in 1..n, and order as (workspaceSequence, id) does |
| `CheckpointMigration.MigrationIsWellFormed` | integrations/hermes-hype-comms/adapter.py:1426-1456 | what a migration yields is a state the adapter may hold |
| `CheckpointMigration.LoadIsSound` | integrations/hermes-hype-comms/adapter.py:1338-1456 | whatever the file contains, a successful load yields only well-formed parts, in the bootstrap epoch; which parts, CheckpointFormats.LoadMeans says |
| `CheckpointMigration.RewriteIsStable` | integrations/hermes-hype-comms/adapter.py:1338-1489 | for a file of any accepted format, the rewrite after loading reads back the same and asks for no further rewrite |
| `CheckpointFormats.LoadMeans` | integrations/hermes-hype-comms/adapter.py:1338-1456 | of `Load` itself, for a file of each of the five formats: it is accepted if and only if every field is valid, the wakes are within the limit with distinct orders, and the bootstrap is where it is needed; and then the loaded read targets are the file's, the wakes are the file's with the same ids, anchors and legacy sequences, and the cursor is the file's, the bootstrap's or none |
| `CheckpointFormats.AcceptedIsDocument` | integrations/hermes-hype-comms/adapter.py:1338-1456 | whatever file is accepted is such a document, so nothing else is ever loaded |
| `CheckpointFormats.PlacesKeepOrder` | integrations/hermes-hype-comms/adapter.py:1426-1440 | the order that a legacy wake is loaded with is its place by workspace sequence as a number, then id: from 1 to n, without ties |
| `CheckpointFormats.MigrationIs` | integrations/hermes-hype-comms/adapter.py:1426-1456 | a migration succeeds if and only if every legacy wake is valid and, when there is any, the bootstrap is, and then keeps every wake |
| `CheckpointFormats.WakesIff` | integrations/hermes-hype-comms/adapter.py:1426-1456 | stored wakes are read back if and only if each is valid and their orders are distinct |
| `CheckpointFormats.ReadsIff` | integrations/hermes-hype-comms/adapter.py:1400-1425 | stored read targets are read back if and only if each is valid |
| `Checkpoint.RollbackAgrees` | integrations/hermes-hype-comms/adapter.py:1458-1529 | from agreement, after any mutator, successful or rolled back, memory equals the file if and only if it did not happen that a write raised after replacing the file with something new |
| `Checkpoint.CommitAgrees` | integrations/hermes-hype-comms/adapter.py:1458-1529 | the same for one persist with rollback |
| `Checkpoint.RaisedWriteDiverges` | integrations/hermes-hype-comms/adapter.py:1458-1529 | a concrete case of that exception: a first install, then an advance whose write raises after the replacement |
| `Checkpoint.NewWakeIsLast` | integrations/hermes-hype-comms/adapter.py:1600-1609 | a newly retained wake is ordered strictly after every wake it coexists with |
| `Checkpoint.HighestOrder` | integrations/hermes-hype-comms/adapter.py:1600-1609 | the greatest recovery order, 0 without any |
| `Checkpoint.ConnectKeeps` | integrations/hermes-hype-comms/adapter.py:2136-2150 | reconnecting restores exactly the durable wakes and targets; the cursor is the durable one, or the bootstrap's when there is none or the epoch changed; nothing parked survives |
| `Checkpoint.RetainKeeps` | integrations/hermes-hype-comms/adapter.py:1584-1636 | memory and file stay acceptable to a later load, orders distinct |
| `Checkpoint.CompleteKeeps` | integrations/hermes-hype-comms/adapter.py:1638-1648 | memory and file stay acceptable to a later load |
| `Checkpoint.QueueReadKeeps` | integrations/hermes-hype-comms/adapter.py:1825-1871 | memory and file stay acceptable, parked stays a submap of pending |
| `Checkpoint.CompleteReadKeeps` | integrations/hermes-hype-comms/adapter.py:1873-1897 | memory and file stay acceptable, parked stays a submap of pending |
| `Checkpoint.MutateKeeps` | integrations/hermes-hype-comms/adapter.py:1458-1897 | so under every mutator and every outcome of its write |
| `CheckpointOutcomes.RetainMeans` | integrations/hermes-hype-comms/adapter.py:1584-1636 | a retention is refused without a cursor, for an event that contradicts the retained one or is malformed, and with a full queue; one known before writes nothing; a new one is stored behind all others in memory and file, or rolled back |
| `CheckpointOutcomes.CompleteMeans` | integrations/hermes-hype-comms/adapter.py:1638-1648 | wake and reservation end together in memory and file, or neither does |
| `CheckpointOutcomes.HandoffMeans` | integrations/hermes-hype-comms/adapter.py:1569-1582 | the checkpoint of a handoff is the handed-over position where that is ahead in the same epoch, else the current one |
| `CheckpointOutcomes.QueueReadMeans` | integrations/hermes-hype-comms/adapter.py:1825-1871 | a target takes the place of an older one only with a greater sequence, is then not parked any more, and is stored with the checkpoint or rolled back |
| `CheckpointOutcomes.CompleteReadMeans` | integrations/hermes-hype-comms/adapter.py:1873-1897 | only the very target that was advanced is ended |
| `CheckpointOutcomes.AdvanceMeans` | integrations/hermes-hype-comms/adapter.py:3477-3482 | an event's position is written unless it is the checkpoint already |
| `CheckpointOutcomes.ConnectMeans` | integrations/hermes-hype-comms/adapter.py:2136-2150 | a new installation starts at the bootstrap, a file of its epoch goes on, any other is moved to the bootstrap; only the first and the last write |
| `HermesAdapter.HypeCommsAdapter.PersistCursor` | integrations/hermes-hype-comms/adapter.py:1458-1529 | file, cursor and migration flag after a persist that succeeds, fails, or raises after the replace |
| `HermesAdapter.HypeCommsAdapter.HighestRecoveryOrder` | integrations/hermes-hype-comms/adapter.py:1600-1609 | the loop finds the greatest order by decimal comparison |
| `HermesAdapter.HypeCommsAdapter.RetainAmbientWake` | integrations/hermes-hype-comms/adapter.py:1584-1636 | every branch: known wake, missing cursor, full queue, stored, rolled back |
| `HermesAdapter.HypeCommsAdapter.StoreWake` | integrations/hermes-hype-comms/adapter.py:1611-1636 | insertion, persist, and removal again when it fails |
| `HermesAdapter.HypeCommsAdapter.CompleteAmbientWake` | integrations/hermes-hype-comms/adapter.py:1638-1648 | removal, persist, and restoration when it fails |
| `HermesAdapter.HypeCommsAdapter.QueueReadCursor` | integrations/hermes-hype-comms/adapter.py:1825-1871 | supersession, persist, and restoration of target and parking when it fails |
| `HermesAdapter.HypeCommsAdapter.CompleteReadCursor` | integrations/hermes-hype-comms/adapter.py:1873-1897 | removal only of the expected target, persist, and restoration when it fails |
| `HermesAdapter.HypeCommsAdapter.ParkReadCursor` | integrations/hermes-hype-comms/adapter.py:1915-1974 | parks a target only while it is the pending one |
| `HermesAdapter.HypeCommsAdapter.AdvanceCursor` | integrations/hermes-hype-comms/adapter.py:3477-3482 | persists only a changed position |
| `HermesAdapter.HypeCommsAdapter.Connect` | integrations/hermes-hype-comms/adapter.py:2136-2150 | load, first install, migration rewrite, fresh reservations |
| `AmbientDelivery.CheckpointNeverSkips` | integrations/hermes-hype-comms/adapter.py:3182-3482 | over every interleaving of watch, recovery, flushes, model turns, failing and half-failing writes, reconnects and restarts: an event at or below the durable checkpoint, above what a bootstrap declared caught up, was declined, was completed, or is in the durable file |
| `AmbientDelivery.RetainedThroughRuns` | integrations/hermes-hype-comms/adapter.py:1584-1648 | over every run: a wake that was retained at some point is at the end, in memory and in the file, the wake that was stored then, unless its completion was asked for in between |
| `AmbientDelivery.RetainedUntilCompleted` | integrations/hermes-hype-comms/adapter.py:1584-1648 | the same for one step: failed writes, epoch changes and restarts included |
| `AmbientDelivery.InvOverRuns` | integrations/hermes-hype-comms/adapter.py:1569-1897 | the invariant behind both holds after every run |
| `AmbientDelivery.StepKeeps` | integrations/hermes-hype-comms/adapter.py:1569-1897 | every step of every task keeps it |
| `AmbientDelivery.NothingSkipped` | integrations/hermes-hype-comms/adapter.py:3393-3430 | with gap-free watch output nothing below the next event is left unaccounted for |
| `AmbientDelivery.QueueAfterHandoffKeeps` | integrations/hermes-hype-comms/adapter.py:1569-1582 | the checkpoint written with a read target is covered, for a direct and for a recovered handoff |
| `AmbientDelivery.RetainedKeeps` | integrations/hermes-hype-comms/adapter.py:3288-3312 | after a retention that returned, the wake is tracked or was completed |
| `AmbientDelivery.CompletedKeeps` | integrations/hermes-hype-comms/adapter.py:1638-1648 | a completion, also one whose write fails, forgets no other wake |
| `CheckpointOrder.CheckpointNeverFallsBack` | integrations/hermes-hype-comms/adapter.py:3393-3482 | over every run whose bootstraps declare nothing older than what the adapter knows: between two bootstraps the checkpoint in memory stays in its epoch and never falls back, and the durable one stays at or above it; where the two agree, the durable one does not fall back either |
| `CheckpointOrder.OrderOverRuns` | integrations/hermes-hype-comms/adapter.py:3393-3482 | the order behind it holds after every run |
| `CheckpointOrder.StepInOrder` | integrations/hermes-hype-comms/adapter.py:3393-3482 | every step of every task keeps it: no wake above the checkpoint comes after an event that watch has yet to pass |
| `CheckpointOrder.NextIsNear` | integrations/hermes-hype-comms/adapter.py:3434-3441 | with gap-free watch output the event taken up is the first one above the checkpoint |
| `CheckpointOrder.HandoffRises` | integrations/hermes-hype-comms/adapter.py:1569-1582 | the checkpoint of a handoff is the current or the handed-over position, in the current epoch, and not below the current one |
| `AmbientOutcomes.AmbientEventIsServed` | integrations/hermes-hype-comms/adapter.py:3288-3345 | an ambient event from the moment it is taken up: stored and reserved while the checkpoint is behind it, handed over, then passed by a checkpoint that is in the file with its read target; the turn then ends wake and reservation together |
| `AmbientOutcomes.FetchedMeans` | integrations/hermes-hype-comms/adapter.py:3288-3312 | a fetched wake is stored and reserved before it is handed over; one that is reserved already is not handed over again |
| `AmbientOutcomes.DeferredIsAdmittedLater` | integrations/hermes-hype-comms/adapter.py:3246-3268 | a wake behind an unfinished admission is stored, its position passed, and it is put on the list of the recovery pass |
| `AmbientOutcomes.DeferredExactly` | integrations/hermes-hype-comms/adapter.py:1816-1823 | an event is deferred exactly if a recovery pass that began now could take up a wake of its conversation |
| `AmbientOutcomes.RecoveryServes` | integrations/hermes-hype-comms/adapter.py:1690-1718 | a recovered wake is reserved, handed over and taken off the list, and stays stored until its turn |
| `AmbientOutcomes.RecoveryDeclinedMeans` | integrations/hermes-hype-comms/adapter.py:1705-1707 | a wake that wakes nobody any more goes from memory and file; if that cannot be written, memory is as it was and it stays on the list |
| `AmbientOutcomes.EndedHandoffIsFree` | integrations/hermes-hype-comms/adapter.py:3305-3311 | a handoff that ended in an exception gives its reservation back and leaves the checkpoint where it was |
| `AmbientOutcomes.EndedRecoveryIsFree` | integrations/hermes-hype-comms/adapter.py:3305-3311 | so does a recovery, and its wake stays on the list |
| `AmbientOutcomes.ReceivedMeans` | integrations/hermes-hype-comms/adapter.py:3434-3443 | an event of another epoch ends the watch, one at or below the checkpoint is a duplicate, any other is taken up |
| `AmbientOutcomes.HandedOverMeans` | integrations/hermes-hype-comms/adapter.py:3315-3340 | the read target is queued with its checkpoint; when that fails the watch ends with the reservation kept, because the model has the message |
| `AmbientOutcomes.HistoryIsHonest` | integrations/hermes-hype-comms/adapter.py:3182-3482 | the history that excuses an event records nothing that did not happen: completions only of stored wakes by their own turn or recovery, declined events only where they were passed over, tracked wakes only where they are stored, and a floor only by a bootstrap |
| `AmbientOutcomes.UnretainedMeans` | integrations/hermes-hype-comms/adapter.py:3288-3290 | a wake that cannot be retained is not handed over; the watch ends with the checkpoint where it was |
| `AmbientOutcomes.UnqueuedAdmission` | integrations/hermes-hype-comms/adapter.py:3327-3340 | a handoff whose read target cannot be stored keeps its reservation, so it is not repeated |
| `AmbientOutcomes.ReconnectedMeans` | integrations/hermes-hype-comms/adapter.py:2136-2150 | a connection admits again exactly the wakes of the file; only a restart forgets reservations |
| `ReadTargets.NoTargetLost` | integrations/hermes-hype-comms/adapter.py:1825-1974 | over every interleaving of queueing, in-flight advances, parking, failures and restarts: the greatest queued level is at most the greater of what the server took and what is pending, in memory and in the file, and exactly it when writes are old-or-new; parked is a submap of pending |
| `ReadTargets.WrittenExceedsIff` | integrations/hermes-hype-comms/adapter.py:1825-1871 | a conversation has a written target above all promised ones if and only if a queueing whose write raised after the replacement went higher than every queueing that returned |
| `ReadTargets.HalfWrittenTarget` | integrations/hermes-hype-comms/adapter.py:1825-1871 | a concrete queueing of that kind |
| `ReadTargets.CleanIsExact` | integrations/hermes-hype-comms/adapter.py:1825-1897 | with old-or-new writes no target is written that was not promised |
| `ReadTargets.SupersedesMeans` | integrations/hermes-hype-comms/adapter.py:1840-1856 | queueing raises a conversation's target to the maximum, and touches no other |
| `ReadTargets.StepKeeps` | integrations/hermes-hype-comms/adapter.py:1825-1974 | every step keeps the levels between promised and written |
| `ReadTargets.ServedUnlessParked` | integrations/hermes-hype-comms/adapter.py:1976-2012 | a pending target can be advanced unless one of its conversation is, or the server refused this very one for good |
| `ReadTargets.AdvancedMeans` | integrations/hermes-hype-comms/adapter.py:1950-1974 | an advance that the server took ends the target if it is still pending and the write works; a newer one stays |
| `ReadTargets.RefusedMeans` | integrations/hermes-hype-comms/adapter.py:1930-1950 | a refused target is parked exactly if the refusal is final and it is still the pending one |
| `ReadTargets.ReconnectedMeans` | integrations/hermes-hype-comms/adapter.py:2136-2150 | reconnecting forgets what was in flight and parked and goes on with the file's targets |
| `RecoveryOrder.NeverOvertakesInRuns` | integrations/hermes-hype-comms/adapter.py:1650-1725 | over any run of passes, each over the snapshot it sorts, and for every pattern of failures, deadlines and changes made while a dispatch is suspended: a stored wake is dispatched only when every earlier wake of its conversation, reserved, released or not, has left the recovery set by being admitted, retired or dropped |
| `RecoveryOrder.NeverOvertakes` | integrations/hermes-hype-comms/adapter.py:1650-1718 | the same within one pass, from the invariant of its loop |
| `RecoveryOrder.BlockedByItsOwn` | integrations/hermes-hype-comms/adapter.py:1672-1714 | a wake is held back only by a deadline or an earlier failure of its own conversation |
| `RecoveryOrder.SnapshotIsOk` | integrations/hermes-hype-comms/adapter.py:1657-1670 | a pass over the sorted snapshot starts in order |
| `RecoveryOrder.HeadIsFirst` | integrations/hermes-hype-comms/adapter.py:1672-1690 | what is next in the list is first of its conversation among what awaits admission |
| `RecoveryOrder.VisitKeeps` | integrations/hermes-hype-comms/adapter.py:1672-1718 | one item of the pass keeps the order of the rest |
| `RecoveryOrder.HappenAllKeeps` | integrations/hermes-hype-comms/adapter.py:1650-1725 | whatever other tasks do during a dispatch keeps it |
| `RecoveryOrder.TargetIsLast` | integrations/hermes-hype-comms/adapter.py:1600-1609 | a wake retained during a pass is ordered after all others |
| `RecoveryOrder.SortedSnapshot` | integrations/hermes-hype-comms/adapter.py:1657-1670 | the sort yields exactly the awaiting wakes, ascending |
| `RecoveryOrder.ReplayPass` | integrations/hermes-hype-comms/adapter.py:1650-1725 | the loop with its blocked set computes the pass, whose every fate RecoveryProgress.EveryWakeHasItsTurn determines |
| `RecoveryProgress.EveryWakeHasItsTurn` | integrations/hermes-hype-comms/adapter.py:1650-1725 | over any run of passes: a stored wake of the recovery set has a turn in the next pass unless that is aborted before; there it is dispatched if and only if it is still stored and unreserved, its conversation has not failed in this pass, and no deadline of its conversation is ahead of the clock |
| `RecoveryProgress.FateIs` | integrations/hermes-hype-comms/adapter.py:1672-1718 | the same for every item of a pass, from any pool, with the pool of its turn recorded |
| `RecoveryProgress.JudgedByTheirTurn` | integrations/hermes-hype-comms/adapter.py:1672-1718 | the pool an item is judged by is what the pass over the earlier items left |
| `RecoveryProgress.LeavesIff` | integrations/hermes-hype-comms/adapter.py:1674-1718 | a wake leaves the recovery set if and only if at its turn it was gone or reserved, was handed over, or was retired |
| `RecoveryProgress.PassKeepsWakes` | integrations/hermes-hype-comms/adapter.py:1705-1707 | a pass takes no wake out of the store but one whose dispatch was declined and which was then retired |
| `RecoveryProgress.RetryIsHonoured` | integrations/hermes-hype-comms/adapter.py:1683-1714 | over any run of passes: after a retryable failure nothing of its conversation is dispatched before the time of the failure plus its delay, unless the conversation failed again or ran out of wakes |
| `RecoveryProgress.FailureSetsDeadline` | integrations/hermes-hype-comms/adapter.py:1708-1714 | such a failure puts the deadline at its own time plus its delay and nothing later in the pass moves it |
| `RecoveryProgress.DeadlineIsRespected` | integrations/hermes-hype-comms/adapter.py:1683-1688 | no wake is dispatched before the deadline that its conversation brought into the pass |
| `RecoveryProgress.DeadlineKeeps` | integrations/hermes-hype-comms/adapter.py:1683-1714 | only a retryable failure of the conversation itself moves its deadline |
| `RecoveryProgress.RoundEnds` | integrations/hermes-hype-comms/adapter.py:1719-1725 | a finished pass leaves only stored wakes in the set and deadlines only for their conversations; an aborted one tidies nothing |
| `RecoveryProgress.EventsMean` | integrations/hermes-hype-comms/adapter.py:1650-1725 | what other tasks do to reservations, wakes and the recovery set while a dispatch is suspended |
| `JsonText.Utf16RoundTrip` | packages/contracts/src/workspace.ts:372-382 | decoding loses nothing: every JavaScript string is the UTF-16 of its code points |
| `JsonText.DecodingIsInverse` | packages/contracts/src/workspace.ts:372-382 | and every text without an undecoded pair is what its UTF-16 decodes to |
| `JsonText.FromUtf16` | packages/contracts/src/workspace.ts:372-382 | decoding a JavaScript string leaves no surrogate pair undecoded |
| `JsonRoundTrip.LoadsPrinted` | packages/contracts/src/workspace.ts:392-401 | every JSON value whose strings hold arbitrary code points, lone surrogates included, is read back from its injection-safe text |
| `JsonRoundTrip.ValueRoundTrip` | packages/contracts/src/workspace.ts:392-401 | so inside any larger text, leaving the rest |
| `JsonRoundTrip.StringRoundTrip` | packages/contracts/src/workspace.ts:392-401 | every string is read back up to its closing quote (escapes: section 7 of RFC 8259) |
| `JsonRoundTrip.CharacterRoundTrip` | packages/contracts/src/workspace.ts:392-401 | every code point is read back from its short escape, its `\u` escape or itself, and never looks like the closing quote |
| `ContextPack.RenderedRoundTrip` | packages/cli/src/adapter-protocol.ts:10-43 | for every value the rendered text has exactly four lines under Python's `splitlines`, the two boundaries and the notice among them, and the third reads back to the value |
| `ContextPack.PackFits` | packages/cli/src/adapter-protocol.ts:39-43 | a pack within 65,536 bytes renders within 1,048,576 |
| `ContextPack.PrintedIsInline` | packages/contracts/src/workspace.ts:392-401 | no printed value contains any of the line breaks that `splitlines` knows |
| `ContextPack.Utf8Means` | packages/contracts/src/workspace.ts:372-382 | the bytes counted are those of section 3 of RFC 3629: one to four by range, with the bits of the code point |
| `ContextPack.Utf8ByteLength` | packages/contracts/src/workspace.ts:372-382 | the loop returns the exact length of the UTF-8 encoding |
| `ContextBinding.AcceptedIsValid` | integrations/hermes-hype-comms/adapter.py:376-423 | for a pack the CLI accepted, the adapter's validation succeeds if and only if conversation kind and the newest message's author, mention and thread root are the event's |
| `ContextBinding.RenderedEnvelope` | integrations/hermes-hype-comms/adapter.py:414-426 | what the CLI rendered passes the adapter's envelope checks |
| `ContextBinding.SchemaMeans` | packages/contracts/src/workspace.ts:624-759 | exactly which packs the refinements accept: one without messages says nothing else; any other is anchored at its newest message, has the one reply target that this message determines, and carries no separate root but the one of its thread |
| `ContextBinding.CheckMessages` | packages/contracts/src/workspace.ts:624-759 | the loop with its id set and previous sequence accepts exactly strictly increasing sequences with distinct ids |
| `Throttle.EveryKeyIsBounded` | apps/server/src/throttle.ts:44-61 | over every interleaving of keys and every non-decreasing clock, a key is allowed at most `2 * maxAttempts - 1` attempts in any half-open interval of one window length |
| `Throttle.SlidingBound` | apps/server/src/throttle.ts:44-55 | the same for one key from any window state |
| `Throttle.SlidingBoundIsTight` | apps/server/src/throttle.ts:44-55 | for every limit and window of at least 2 ms a burst reaches that bound |
| `Throttle.CapacityBounds` | apps/server/src/throttle.ts:44-55 | attempts allowed in the interval never exceed the allowance that the open window leaves, by whether it ends inside the interval |
| `Throttle.WaitIsExact` | apps/server/src/throttle.ts:52-52 | a refusal names the exact first moment at which the key is allowed again |
| `Throttle.KeysAreIndependent` | apps/server/src/throttle.ts:44-61 | pruning and other keys never change an answer: each key gets the answers of a window of its own |
| `Throttle.MapHoldsOpenWindows` | apps/server/src/throttle.ts:44-61 | after a call the map holds the call's own key and exactly the other keys whose windows are open |
| `Throttle.FixedWindowAttemptThrottle.RecordAttempt` | apps/server/src/throttle.ts:44-55 | the map after one attempt and its answer |
| `Throttle.FixedWindowAttemptThrottle.Prune` | apps/server/src/throttle.ts:57-61 | the loop removes exactly the expired windows |
| `ChannelSlug.SlugIsWellFormed` | packages/contracts/src/channel-slug.ts:36-57 | for every normalized name the result is empty or matches the slug grammar with at most 100 code points, wherever the cut falls |
| `ChannelSlug.CanonicalSlugIsFixed` | packages/contracts/src/channel-slug.ts:36-57 | every slug of at most 100 code points is a fixed point |
| `ChannelSlug.SlugIsIdempotent` | packages/contracts/src/channel-slug.ts:36-57 | generating twice is generating once |
| `ChannelSlug.SlugIsSegments` | packages/contracts/src/channel-slug.ts:36-57 | the result is the segments of the name, maximal runs that begin with a letter or number, in order and joined by single hyphens; when that is longer than 100 code points, its first 100 but for a hyphen at the end |
| `ChannelSlug.SlugKeepsSegments` | packages/contracts/src/channel-slug.ts:42-56 | so a name that is not cut and its slug have exactly the same segments |
| `ChannelSlug.SlugKeepsWords` | packages/contracts/src/channel-slug.ts:42-56 | the letters and numbers of the result are a prefix of those of the name; all of them unless the result is cut |
| `ChannelSlug.SlugFromName` | packages/contracts/src/channel-slug.ts:36-57 | the loop over characters computes the slug that SlugIsSegments determines |
| `ChannelSlug.ScanKeeps` | packages/contracts/src/channel-slug.ts:42-54 | output is empty or a slug throughout, and the two flags mean what they say |
| `ChannelSlug.SegmentsCut` | packages/contracts/src/channel-slug.ts:56-56 | cutting a slug leaves a slug but for one hyphen at its end |
| `AuthKitFlow.SingleUse` | apps/desktop/src/main/authkit-flow.ts:241-395 | over every run with stops, failing stores and forged or repeated callbacks: a verifier is handed over at most once, only to a callback of the run that presented, without an error, the very state the verifier was minted with, only for the flow's own API, only from an unexpired record of permitted lifetime, and only with the durable record gone; what is stored was never handed over |
| `AuthKitFlow.HandoffIsAnswer` | apps/desktop/src/main/authkit-flow.ts:348-395 | a step hands over at most one verifier, and only answers a callback without an error, carrying the state that this callback presented |
| `AuthKitFlow.InvOverRuns` | apps/desktop/src/main/authkit-flow.ts:241-436 | the invariant behind it |
| `AuthKitFlow.StepKeeps` | apps/desktop/src/main/authkit-flow.ts:241-436 | every operation keeps it |
| `AuthKitFlow.RetireAgrees` | apps/desktop/src/main/authkit-flow.ts:428-436 | memory and store agree after retiring if and only if the clear did not raise after taking effect |
| `AuthKitFlow.BeginAgrees` | apps/desktop/src/main/authkit-flow.ts:291-346 | memory and store agree after a start if and only if neither the save nor the compensating clear raised after taking effect |
| `AuthKitFlow.StepAgreesIff` | apps/desktop/src/main/authkit-flow.ts:241-436 | from agreement, every operation leaves memory and store in agreement if and only if it is not one of `Splits`, a condition on the state it finds and on what the store answers |
| `AuthKitFlow.RunAgreesIff` | apps/desktop/src/main/authkit-flow.ts:241-436 | so over runs: agreement throughout if and only if no step splits the two |
| `AuthKitFlow.CancelledAttemptSplits` | apps/desktop/src/main/authkit-flow.ts:225-235 | a concrete run that splits them: an attempt is cancelled and the clear raises after taking effect |
| `AuthKitFlow.CallbackOutcome` | apps/desktop/src/main/authkit-flow.ts:348-395 | a callback ends the attempt it answers and hands its verifier over exactly if it carries no error, the attempt has not expired and the store was cleared; every other callback changes nothing |
| `AuthKitFlow.StartOutcome` | apps/desktop/src/main/authkit-flow.ts:291-346 | a start ends the attempt it finds, saves the new one first, and leaves it pending exactly if the browser opened in time; each failing store call leaves what it says |
| `AuthKitFlow.LoadOutcome` | apps/desktop/src/main/authkit-flow.ts:241-289 | what the first use finds in the store, and when it raises |
| `AuthKitFlow.InitializeOutcome` | apps/desktop/src/main/authkit-flow.ts:241-282 | an initialization reports what it finds and ends an attempt that ran out |
| `AuthKitFlow.CancelOutcome` | apps/desktop/src/main/authkit-flow.ts:225-235 | a cancellation ends whatever attempt it finds |
| `AuthKitFlow.RetireOutcome` | apps/desktop/src/main/authkit-flow.ts:428-436 | retiring ends only the attempt with the expected state, in the store first |
| `AuthKitFlow.ExpireOutcome` | apps/desktop/src/main/authkit-flow.ts:416-426 | a timer ends only the very attempt it was set for, and only once that has run out |
| `AuthKitFlow.NativeAuthorization.RetirePending` | apps/desktop/src/main/authkit-flow.ts:428-436 | durable record first, memory second, and only for the expected state |
| `AuthKitFlow.NativeAuthorization.LoadStored` | apps/desktop/src/main/authkit-flow.ts:241-282 | load, parse and expiry check, each failure path |
| `AuthKitFlow.NativeAuthorization.InitializeFlow` | apps/desktop/src/main/authkit-flow.ts:241-282 | initialization, repeated or first |
| `AuthKitFlow.NativeAuthorization.BeginAttempt` | apps/desktop/src/main/authkit-flow.ts:291-346 | save before use, compensation when the browser cannot be opened or time has run out |
| `AuthKitFlow.NativeAuthorization.StartAttempt` | apps/desktop/src/main/authkit-flow.ts:291-346 | a start with its lazy initialization |
| `AuthKitFlow.NativeAuthorization.SettlePending` | apps/desktop/src/main/authkit-flow.ts:348-395 | expiry, retirement and only then handoff |
| `AuthKitFlow.NativeAuthorization.Receive` | apps/desktop/src/main/authkit-flow.ts:348-395 | malformed, stateless, foreign and own callbacks |
| `AuthKitFlow.NativeAuthorization.CancelAttempt` | apps/desktop/src/main/authkit-flow.ts:225-235 | cancellation of a pending attempt or of none |
| `AuthKitFlow.NativeAuthorization.ExpireAttempt` | apps/desktop/src/main/authkit-flow.ts:416-426 | expiry only of the expected and really expired attempt |
| `CacheCrypto.SameKeyAgain` | apps/desktop/src/main/cache-crypto.ts:208-258 | for every digest, colliding or not: after a persistent initialization a scope's record stays through any run of sessions, restarts, garbled or raising reads and failing saves if and only if no step of the run is one that takes it; and then the next initialization returns the same key |
| `CacheCrypto.RecordStaysIff` | apps/desktop/src/main/cache-crypto.ts:208-258 | the same from any state whose claims do not cover the record |
| `CacheCrypto.RecordGoesIff` | apps/desktop/src/main/cache-crypto.ts:208-258 | a step takes a scope's record if and only if it is a garbled read of that file name with a removal that works, the scope's own clear, or outside damage; no save does, however it ends |
| `CacheCrypto.InitializeDestroysIff` | apps/desktop/src/main/cache-crypto.ts:208-245 | initialization destroys another scope's record if and only if the names collide, storage is available, the read is garbled and the removal works |
| `CacheCrypto.ClearDestroysIff` | apps/desktop/src/main/cache-crypto.ts:247-258 | clear destroys another scope's record if and only if it removes a file of that name which the instance claims; never while claims hold |
| `CacheCrypto.ClaimsEndIff` | apps/desktop/src/main/cache-crypto.ts:208-258 | a claimed file stays the claimant's own record, damaged or gone, except if and only if a save raises after its rename at a missing file that the instance still claims for another scope |
| `CacheCrypto.PersistentIsStored` | apps/desktop/src/main/cache-crypto.ts:208-245 | a persistent initialization leaves the scope's record, with the reported key, at its path |
| `CacheCrypto.ClearForgets` | apps/desktop/src/main/cache-crypto.ts:247-258 | after clear no key is in memory and exactly a claimed file is gone |
| `CacheCrypto.UnsoundReadCostsARecord` | apps/desktop/src/main/cache-crypto.ts:361-389 | a concrete garbled read with colliding names that destroys a record |
| `CacheCrypto.LateSaveFailureCostsARecord` | apps/desktop/src/main/cache-crypto.ts:418-438 | a concrete save that raises after its rename, with colliding names, after which a clear destroys a record |
| `CacheCrypto.LegacyKeyIsAdopted` | apps/desktop/src/main/cache-crypto.ts:391-405 | a scope without a file goes on with its legacy key: a persistent answer carries it, it is saved under the scope's name, and the legacy file goes only behind that |
| `CacheCrypto.MigrationLosesNoKey` | apps/desktop/src/main/cache-crypto.ts:391-405 | no step takes a legacy record unless it leaves its owner a claimed file with the same key, outside damage aside |
| `CacheCrypto.LegacyKeySurvives` | apps/desktop/src/main/cache-crypto.ts:208-258 | over any run: the key of a legacy record stays in one of the two files, and the next initialization of a scope whose own file holds it or is missing gives that key |
| `CacheCrypto.NewKeyOtherwise` | apps/desktop/src/main/cache-crypto.ts:215-245 | any other scope without a file gets the new key, and no legacy file is touched |
| `CacheCrypto.InitializeOutcome` | apps/desktop/src/main/cache-crypto.ts:208-245 | when an initialization is persistent, goes on without a key or raises, by what it finds at the scope's path, and what is gone then |
| `CacheCrypto.KeyStore.InitializeScope` | apps/desktop/src/main/cache-crypto.ts:208-245 | every branch of initialization on files and fields |
| `CacheCrypto.KeyStore.EstablishKey` | apps/desktop/src/main/cache-crypto.ts:215-245 | the loads, the write and the removals compute the step that InitializeOutcome, LegacyKeyIsAdopted and NewKeyOtherwise determine |
| `CacheCrypto.KeyStore.ClearScope` | apps/desktop/src/main/cache-crypto.ts:247-258 | clear on files and fields |
| `ChatSession.RejectionEndsItsOwn` | apps/desktop/src/main/chat-session.ts:976-998 | for every interleaving: a 401 removes the credential if and only if its last sending was refused, in the current session and credential generation; and then it carried the very credential removed if and only if none was installed since it was sent |
| `ChatSession.RejectionRemovesWhatItCarried` | apps/desktop/src/main/chat-session.ts:976-998 | the same over the steps behind the sending: the credential removed is the one carried if and only if no step there installed one; one that did was never counted by its rotation or exchange |
| `ChatSession.RetryStaysInSession` | apps/desktop/src/main/chat-session.ts:882-943 | a request is sent at most twice, and never across a session change |
| `ChatSession.RetryIff` | apps/desktop/src/main/chat-session.ts:882-931 | the second sending happens exactly behind a first 401, in the same session, under a newer generation, with the current credential |
| `ChatSession.UnreadableSignInIsRejected` | apps/desktop/src/main/chat-session.ts:554-565 | a concrete run for the exception: a sign-in whose answer cannot be read is undone by an older request's 401 |
| `ChatSession.StepKeeps` | apps/desktop/src/main/chat-session.ts:684-706 | every step keeps the link between generations, credentials and requests |
| `ChatSession.AnswersStayInSession` | apps/desktop/src/main/chat-session.ts:882-943 | what waits at the barrier is handed out or sent again if and only if no sign-in was accepted and no sign-out ended since it was issued, and the status still stands for its identity |
| `ChatSession.BarrierMeans` | apps/desktop/src/main/chat-session.ts:895-943 | behind the barrier: given up, sent again with the jar's credential, or handed out |
| `ChatSession.OneAtATime` | apps/desktop/src/main/chat-session.ts:266-275 | mutations never overlap: of those begun in any run all but the running one have ended |
| `ChatSession.JarHasOneWriter` | apps/desktop/src/main/chat-session.ts:266-275 | only the running mutation writes the jar, and identity, epoch and generation stay while it runs |
| `ChatSession.EndsBehindRemoval` | apps/desktop/src/main/chat-session.ts:604-632 | a session ends only behind an attempt to remove its cookie |
| `ChatSession.SignInMeans` | apps/desktop/src/main/chat-session.ts:543-588 | a sign-in takes effect exactly when it was accepted: new epoch, new generation, the answered identity |
| `ChatSession.SignOutMeans` | apps/desktop/src/main/chat-session.ts:604-620 | every removal that runs to its end signs out in a new epoch |
| `ChatSession.RotationMeans` | apps/desktop/src/main/chat-session.ts:684-702 | a rotation advances the generation if it returned, and nothing else |
| `ChatSession.CredentialSession.IssueRequest` | apps/desktop/src/main/chat-session.ts:882-890 | the sending that a new request records |
| `ChatSession.CredentialSession.PassBarrier` | apps/desktop/src/main/chat-session.ts:895-943 | give up, hand out, or send again |
| `ChatSession.CredentialSession.SettleRotation` | apps/desktop/src/main/chat-session.ts:684-702 | a rotation that returned advances the generation, one that failed does not |
| `ChatSession.CredentialSession.SettleExchange` | apps/desktop/src/main/chat-session.ts:543-588 | the four endings of a sign-in |
| `ChatSession.CredentialSession.EndSession` | apps/desktop/src/main/chat-session.ts:604-620 | the end of every sign-out: the session epoch advances, the generation does not |
| `ChatSession.CredentialSession.BeginMarkedSignOut` | apps/desktop/src/main/chat-session.ts:976-998 | whether a rejection is current, decided inside the mutation |
| `AiChannel.ReadyHasHost` | apps/desktop/src/main/ai-channel-controller.ts:427-739 | over every interleaving: with no operation in flight, a controller that says it is ready or running has a live host and a session |
| `AiChannel.NeverStuckStarting` | apps/desktop/src/main/ai-channel-controller.ts:427-507 | over every interleaving: while the controller says it is starting, an operation that nothing has superseded is in flight |
| `AiChannel.NoHostIsLeaked` | apps/desktop/src/main/ai-channel-controller.ts:427-507 | over every interleaving of overlapping operations: with none in flight, every host the factory returned is the current one, was disposed, or reported its exit |
| `AiChannel.InstallationFindsNone` | apps/desktop/src/main/ai-channel-controller.ts:476-483 | a host is only ever installed where there was none |
| `AiChannel.PermissionsResolveOnce` | apps/desktop/src/main/ai-channel-controller.ts:1012-1085 | each permission is resolved at most once, exactly once unless it is the pending one; a selection is an option offered in that request |
| `AiChannel.InvOverRuns` | apps/desktop/src/main/ai-channel-controller.ts:427-739 | the invariants behind them hold after every run |
| `AiChannel.HostsStep` | apps/desktop/src/main/ai-channel-controller.ts:427-630 | every step keeps each live host in the hands of the controller, of the active operation or of a superseded one, and a current host live |
| `AiChannel.PermissionsStep` | apps/desktop/src/main/ai-channel-controller.ts:1012-1200 | every step keeps the permission ledger |
| `AiChannel.ContinueKeeps` | apps/desktop/src/main/ai-channel-controller.ts:427-630 | so does every continuation, current or superseded, successful or not |
| `AiChannel.StartKeeps` | apps/desktop/src/main/ai-channel-controller.ts:427-470 | a start that goes on finds no host |
| `AiChannel.AiChannelController.SettlePermission` | apps/desktop/src/main/ai-channel-controller.ts:1186-1200 | resolves the pending request, if any, once |
| `AiChannel.AiChannelController.HandlePermissionRequest` | apps/desktop/src/main/ai-channel-controller.ts:1012-1085 | stale, invalid and accepted requests; a new one cancels the pending one |
| `AiChannel.AiChannelController.RespondToPermission` | apps/desktop/src/main/ai-channel-controller.ts:722-739 | accepted exactly for the pending request, generation and an offered option, and refused without effect otherwise |
| `AiChannel.AiChannelController.RetireHost` | apps/desktop/src/main/ai-channel-controller.ts:1202-1221 | detach first, then dispose |
| `AiChannel.AiChannelController.FailCurrentHost` | apps/desktop/src/main/ai-channel-controller.ts:1154-1184 | detach first, then dispose, with the new generation |
| `AiChannel.AiChannelController.InstallHost` | apps/desktop/src/main/ai-channel-controller.ts:476-483 | a host created for a superseded start is handed to disposal, never installed |
| `AiChannel.AiChannelController.HandleHostExit` | apps/desktop/src/main/ai-channel-controller.ts:1087-1105 | the exit of the current host detaches it; that of a superseded host is ignored |
| `AiRetirement.StartsWaitForRetirements` | apps/desktop/src/main/ai-channel-controller.ts:427-507 | over every interleaving: no host is held by two operations, a start creates a host only when none is being retired, and with no operation in flight there is nothing to wait for |
| `AiRetirement.TokensAreNew` | apps/desktop/src/main/ai-channel-controller.ts:796-802 | every token is greater than those before it |
| `AiRetirement.TokenNeverReturns` | apps/desktop/src/main/ai-channel-controller.ts:1354-1356 | so the token of a host that was left is never current again |
| `AiOutcomes.SupersededMeans` | apps/desktop/src/main/ai-channel-controller.ts:446-507 | a superseded operation disposes what it holds or was just given, and touches nothing else |
| `AiOutcomes.OpeningMeans` | apps/desktop/src/main/ai-channel-controller.ts:484-507 | an opened conversation makes the channel ready; one that cannot be opened ends the host |
| `AiOutcomes.EndingMeans` | apps/desktop/src/main/ai-channel-controller.ts:1154-1221 | what ends a host leaves the channel not ready, in a new generation |
| `AiOutcomes.FinishMeans` | apps/desktop/src/main/ai-channel-controller.ts:1107-1132 | a prompt that ended well makes the channel ready again, one that failed ends the host, and only the current one counts |
| `AiOutcomes.ExitMeans` | apps/desktop/src/main/ai-channel-controller.ts:1087-1105 | the exit of the current host leaves a channel that can be started again, in a new generation |
| `AiOutcomes.RequestMeans` | apps/desktop/src/main/ai-channel-controller.ts:1012-1085 | a permission is asked exactly if it comes from the current host during the prompt of this generation and is valid, and cancels the one before |
| `AiOutcomes.ResponseMeans` | apps/desktop/src/main/ai-channel-controller.ts:722-739 | an answer counts exactly for the pending request, its own and current generation and an option it offered |
| `AiOutcomes.Available` | apps/desktop/src/main/ai-channel-controller.ts:550-720 | when a conversation can be renewed, a prompt sent and a prompt cancelled |
| `AiOutcomes.NewSessionMeans` | apps/desktop/src/main/ai-channel-controller.ts:550-600 | a new conversation begins a generation in which nothing asked before can be answered |
| `AiOutcomes.StartMeans` | apps/desktop/src/main/ai-channel-controller.ts:427-446 | when a start is refused, does nothing, or supersedes what is in flight |
| `AiOutcomes.GenerationsRise` | apps/desktop/src/main/ai-channel-controller.ts:1334-1340 | generations only rise |

## Left out

- Realtime.Prepare: createRealtimeEpochAllocator is modelled as the client's own counter, not as one shared between clients.
- RecoveryOrder.NeverOvertakesInRuns: leaves out wakes that left the recovery set and came back into it, or were completed and retained again under their old id, during the same pass; the source's snapshot holds them at their old place or not at all.
- CacheCrypto.SameKeyAgain: does not cover overlapping calls of `initialize`, which the caller serializes, because the steps of the model are whole calls.
- JsonRoundTrip.LoadsPrinted: numbers other than non-negative integers are not printed by a context pack and are not part of the JSON values here.
- AmbientDelivery.CheckpointNeverSkips: says nothing of mentioned or direct-message wakes after their checkpoint, which the source does not make durable.
- ChatSession.RetryIff: session checks on answers other than 401 are not stated, because the source makes none.
- Reconnect delays (`delayMs`, jitter, `watchRetryDelayMs`), and how long a backoff is: delays are arbitrary here.
- Typing and presence activity, diagnostics and metrics: they change nothing that the theorems are about.
- Re-entrant calls from callbacks other than `resetSession`; neither the desktop application nor the watch loop makes one. No reset is modelled from inside the offline announcement, where the transport is already retired.
- Schema parsing of frames and responses: a frame is already classified when it reaches the model.
- The JSON text of the checkpoint file: the file is a JSON value, and a cursor stored as JSON text inside a string counts as unsupported.
- AES-GCM, SHA-256, the operating system's protected storage, PKCE and callback URLs: keys, digests and random strings are abstract. Random strings are fresh, and the server never issues one session credential twice.
- Unicode normalization and lower-casing (Unicode Standard Annex #15): the slug model starts behind them.
- Path redaction, entry limits, message, tool and plan projection and the preference store of the AI channel.
- Protocol blocking, renewal timers, context persistence and counter overflow of the chat session.
- SignInThrottle, which only combines three throttles, and the constructor checks of the throttle's options.
