/**
  What a recovery latch remembers (packages/api-client/src/realtime.ts:808-902): the receiving user and workspace
  and the very position that the client had, so that nothing opens again from the position that overflowed.
 */
module RealtimeLatch {
  import opened Wrappers
  import opened SyncPositions
  import opened Consumer
  import opened Realtime
  import opened RealtimeTheorems

  /** The latch of `r` is for the scope and the position of `c`. */
  predicate Remembers(c: Client, r: Client)
  {
    r.recovery.Some? ==>
      var latch := r.recovery.value;
      && c.scope.Some? && c.cursor.Some?
      && latch.userId == c.scope.value.userId && latch.workspaceId == c.scope.value.workspaceId
      && latch.cursor == c.cursor.value
      && latch.event.kind.ResyncRequired? && latch.event.workspaceId == c.scope.value.workspaceId
      && latch.event.position.epoch == c.cursor.value.epoch
  }

  // ---------------------------------------------------------------------------------------------
  // Frames
  // ---------------------------------------------------------------------------------------------

  lemma ActiveIsUnlatched(c: Client, socket: nat)
    requires Core(c) && IsActive(c, socket)
    ensures c.recovery.None?
  {
  }

  lemma RequiredRemembers(c: Client, socket: nat)
    requires Core(c) && IsActive(c, socket)
    ensures Remembers(c, RequireRecovery(c, socket))
  {
    ActiveIsUnlatched(c, socket);
    hide Core;
  }

  lemma RetainedRemembers(c: Client, socket: nat, event: Event)
    requires Core(c) && IsActive(c, socket) && event.kind.ResyncRequired?
    requires event.workspaceId == c.scope.value.workspaceId && event.position.epoch == c.cursor.value.epoch
    ensures Remembers(c, RetainWindowless(c, socket, event))
  {
    assert c.cursor.Some?;
    hide Core;
  }

  lemma DeliveredRemembers(c: Client, socket: nat, event: Event)
    requires Core(c) && IsActive(c, socket) && event.position.epoch == c.cursor.value.epoch
    requires event.kind.ResyncRequired? || NextInOrder(c, socket, event)
    ensures var r := DeliverEvent(c, socket, event).0;
      Remembers(c, r) && (IsActive(r, socket) ==> r.recovery.None? && r.scope == c.scope && r.cursor == c.cursor)
  {
    hide Channels, LiveSocket, Window, NextInOrder, RequireRecovery, Handed;
    ActiveIsUnlatched(c, socket);
    RequiredRemembers(c, socket);
    var r := DeliverEvent(c, socket, event).0;
    if IsActive(r, socket) { ActiveIsUnlatched(r, socket); }
  }

  lemma {:induction false} ReplayRemembers(c: Client, socket: nat, replay: seq<Event>, handshake: Event)
    requires Core(c) && AwaitsReplay(c, socket, replay, handshake)
    ensures var r := DeliverReplay(c, socket, replay, handshake).0;
      Remembers(c, r) && (IsActive(r, socket) ==> r.recovery.None? && r.scope == c.scope && r.cursor == c.cursor)
    decreases |replay|
  {
    hide Core, DeliverEvent, AwaitsReplay, CaughtUp;
    assert IsActive(c, socket) by { AwaitingIsActive(c, socket, replay, handshake); }
    ActiveIsUnlatched(c, socket);
    if replay != [] {
      ReplayHead(c, socket, replay, handshake);
      DeliveredRemembers(c, socket, replay[0]);
      var (c1, ok) := DeliverEvent(c, socket, replay[0]);
      if ok && IsActive(c1, socket) { ReplayRemembers(c1, socket, replay[1..], handshake); }
    }
  }

  lemma AwaitingIsActive(c: Client, socket: nat, replay: seq<Event>, handshake: Event)
    requires AwaitsReplay(c, socket, replay, handshake)
    ensures IsActive(c, socket)
  {
  }

  lemma LiveRemembers(c: Client, socket: nat, event: Event)
    requires Core(c) && IsActive(c, socket) && event.position.epoch == c.cursor.value.epoch
    requires event.kind.Connected? && c.connection.value.handshaken
    requires c.channels[socket].arrived == c.channels[socket].delivered + [event]
    requires ProvedBy(c.channels[socket].arrived, c.channels[socket].scope.userId)
    ensures Remembers(c, GoLive(c, socket, event))
  {
    ActiveIsUnlatched(c, socket);
    var c1 := c.(connection := Some(c.connection.value.(replay := [], replayBytes := 0)));
    var (c2, returned) := DeliverState(c1, Live);
    if returned && IsActive(c2, socket) { DeliveredRemembers(c2, socket, event); }
    hide Core, Settled, DeliverEvent;
  }

  lemma HandshakeRemembers(c: Client, socket: nat, event: Event)
    requires Valid(c) && IsActive(c, socket) && !c.connection.value.handshaken
    requires event.kind.Connected? && event.kind.userId == c.scope.value.userId
    requires event.workspaceId == c.scope.value.workspaceId && event.position.epoch == c.cursor.value.epoch
    ensures Remembers(c, Handshake(c, socket, event))
  {
    hide DeliverReplay, GoLive, ProvedBy;
    var replay := Events(c.connection.value.replay);
    var c1 := Shaken(c, socket, event);
    ReplayRemembers(c1, socket, replay, event);
    var (c2, ok) := DeliverReplay(c1, socket, replay, event);
    if ok { LiveRemembers(c2, socket, event); }
  }

  lemma HeldRemembers(c: Client, socket: nat, event: Event, frameBytes: nat)
    requires Valid(c) && IsActive(c, socket) && !c.connection.value.handshaken && event.kind.Change?
    requires event.workspaceId == c.scope.value.workspaceId && event.position.epoch == c.cursor.value.epoch
    ensures Remembers(c, Hold(c, socket, event, frameBytes))
  {
    ActiveIsUnlatched(c, socket);
    RequiredRemembers(Arrived(c, socket, event), socket);
    hide RequireRecovery, Core, Settled;
  }

  lemma LiveEventRemembers(c: Client, socket: nat, event: Event)
    requires Valid(c) && IsActive(c, socket) && c.connection.value.handshaken && event.kind.Change?
    requires event.workspaceId == c.scope.value.workspaceId && event.position.epoch == c.cursor.value.epoch
    ensures Remembers(c, DeliverLive(c, socket, event))
  {
    ProofSurvives(c.channels[socket].arrived, event, c.channels[socket].scope.userId);
    DeliveredRemembers(Arrived(c, socket, event), socket, event);
    hide DeliverEvent, Core, Settled;
  }

  lemma EventRemembers(c: Client, socket: nat, event: Event, frameBytes: nat)
    requires Valid(c) && IsActive(c, socket)
    requires event.workspaceId == c.scope.value.workspaceId && event.position.epoch == c.cursor.value.epoch
    requires event.kind.Connected? ==> event.kind.userId == c.scope.value.userId
    ensures Remembers(c, HandleEvent(c, socket, event, frameBytes))
  {
    ActiveIsUnlatched(c, socket);
    hide Valid, DeliverEvent, RetainWindowless, RejectInvalidEvent, Handshake, Hold, DeliverLive;
    if event.kind.ResyncRequired? {
      DeliveredRemembers(c, socket, event);
      var (c1, ok) := DeliverEvent(c, socket, event);
      if c.windowless && ok && IsActive(c1, socket) { RetainedRemembers(c1, socket, event); }
    } else if event.kind.Connected? {
      if c.connection.value.handshaken { RejectedRemembers(c, socket); } else { HandshakeRemembers(c, socket, event); }
    } else if !c.connection.value.handshaken {
      HeldRemembers(c, socket, event, frameBytes);
    } else {
      LiveEventRemembers(c, socket, event);
    }
  }

  lemma RejectedRemembers(c: Client, socket: nat)
    requires Valid(c) && c.recovery.None?
    ensures RejectInvalidEvent(c, socket).recovery.None?
    ensures forall reason :: FailIncompatible(c, socket, reason).recovery.None?
  {
    hide Core, Settled;
  }

  lemma FrameRemembers(c: Client, socket: nat, frame: Frame)
    requires Valid(c) && c.recovery.None?
    ensures Remembers(c, HandleMessage(c, socket, frame))
    ensures HandleMessage(c, socket, frame).recovery.Some? ==> frame.Product? && IsActive(c, socket)
  {
    assert IsActive(c, socket) ==> c.cursor.Some?;
    hide Valid, RejectInvalidEvent, FailIncompatible, HandleEvent;
    RejectedRemembers(c, socket);
    if IsActive(c, socket) && frame.Product? && frame.event.workspaceId == c.connection.value.scope.workspaceId {
      var event := frame.event;
      if !(event.kind.Connected? && event.kind.userId != c.connection.value.scope.userId)
         && c.cursor.Some? && event.position.epoch == c.cursor.value.epoch {
        EventRemembers(c, socket, event, frame.frameBytes);
      }
    }
  }

  // ---------------------------------------------------------------------------------------------
  // Steps
  // ---------------------------------------------------------------------------------------------

  lemma OthersLatchNothing(c: Client, step: Step)
    requires Valid(c) && c.recovery.None? && !step.MessageStep?
    ensures Apply(c, step).recovery.None?
  {
    hide Valid, Prepare, Activate, Start, ObserveOnly, Acknowledge, AcknowledgeScoped, Stop, ResetSession, TicketGranted,
         TicketRejected, TimerFired, SocketError, SocketClosed, UnexpectedResponse;
    match step
    case ActivateStep(scope) => ActivateUnlatched(c, scope);
    case StartStep(after, u, w) => StartLatchesNothing(c, after, u, w);
    case ObserveOnlyStep(u, w) => ObservingLatchesNothing(c, u, w);
    case TicketGrantedStep(epoch, created) => GrantLatchesNothing(c, epoch, created);
    case TicketRejectedStep(epoch, mismatch, retryable) => RejectionLatchesNothing(c, epoch, mismatch, retryable);
    case TimerStep => GrantLatchesNothing(c, 0, false);
    case SocketErrorStep(socket) => SocketsLatchNothing(c, socket, 0, false, 0);
    case SocketClosedStep(socket, code) => SocketsLatchNothing(c, socket, code, false, 0);
    case UnexpectedResponseStep(socket, mismatch, status) => SocketsLatchNothing(c, socket, 0, mismatch, status);
    case AcknowledgeStep(position) => ControlsLatchNothing(c, Scope("", "", 0), position, None);
    case AcknowledgeScopedStep(scope, position) => ControlsLatchNothing(c, scope, position, None);
    case StopStep(candidate) => ControlsLatchNothing(c, Scope("", "", 0), Position("", 0), candidate);
    case ResetStep => ControlsLatchNothing(c, Scope("", "", 0), Position("", 0), None);
    case _ =>
  }

  lemma ObservingLatchesNothing(c: Client, u: EntityId, w: EntityId)
    requires Valid(c) && c.recovery.None?
    ensures ObserveOnly(c, u, w).recovery.None?
  {
  }

  lemma CallbacksLatchNothing(c: Client)
    requires c.recovery.None?
    ensures forall state :: DeliverState(c, state).0.recovery.None?
    ensures forall failure :: AskFailure(c, failure).0.recovery.None?
  {
  }

  lemma ReconnectLatchesNothing(c: Client, epoch: nat)
    requires Core(c) && c.recovery.None? && (IsCurrentEpoch(c, epoch) ==> c.ticketEpoch.None? && c.connection.None?)
    ensures ScheduleReconnect(c, epoch).recovery.None?
  {
    hide Core, DeliverState;
    CallbacksLatchNothing(c);
  }

  lemma GrantLatchesNothing(c: Client, epoch: nat, created: bool)
    requires Valid(c) && c.recovery.None?
    ensures TicketGranted(c, epoch, created).recovery.None?
    ensures TimerFired(c).recovery.None?
  {
    if OwnsTicket(c, epoch) { ReconnectLatchesNothing(c.(ticketEpoch := None), epoch); }
    hide Core, Settled, ScheduleReconnect;
  }

  lemma RejectionLatchesNothing(c: Client, epoch: nat, mismatch: bool, retryable: bool)
    requires Valid(c) && c.recovery.None?
    ensures TicketRejected(c, epoch, mismatch, retryable).recovery.None?
  {
    if OwnsTicket(c, epoch) {
      var c1 := c.(ticketEpoch := None);
      CallbacksLatchNothing(c1);
      CallbacksLatchNothing(c1.(incompatible := true));
      var (c2, handled) := AskFailure(c1, TicketFailure(retryable));
      if !handled { ReconnectLatchesNothing(c2, epoch); }
    }
    hide Core, Settled, ScheduleReconnect, DeliverState, AskFailure;
  }

  lemma RetiringLatchesNothing(c: Client, socket: nat)
    requires Core(c) && c.recovery.None?
    ensures RetireConnection(c, socket).recovery.None?
  {
    if IsActive(c, socket) { ReconnectLatchesNothing(c.(connection := None), c.connection.value.epoch); }
    hide Core, ScheduleReconnect;
  }

  lemma SocketsLatchNothing(c: Client, socket: nat, code: nat, mismatch: bool, status: nat)
    requires Valid(c) && c.recovery.None?
    ensures SocketError(c, socket).recovery.None?
    ensures SocketClosed(c, socket, code).recovery.None?
    ensures UnexpectedResponse(c, socket, mismatch, status).recovery.None?
  {
    hide Valid;
    RetiringLatchesNothing(c, socket) by { assert Valid(c); ValidIsCore(c); }
    ClosingLatchesNothing(c, socket, code);
    RefusalLatchesNothing(c, socket, mismatch, status);
  }

  lemma ValidIsCore(c: Client)
    requires Valid(c)
    ensures Core(c)
  {
  }

  lemma ClosingLatchesNothing(c: Client, socket: nat, code: nat)
    requires Valid(c) && c.recovery.None?
    ensures SocketClosed(c, socket, code).recovery.None?
  {
    CallbacksLatchNothing(c);
    if IsActive(c, socket) {
      var (c1, handled) := AskFailure(c, ClosedFailure(code));
      if !handled { ReconnectLatchesNothing(c1.(connection := None), c.connection.value.epoch); }
    }
    hide Core, Settled, ScheduleReconnect, AskFailure;
  }

  lemma RefusalLatchesNothing(c: Client, socket: nat, mismatch: bool, status: nat)
    requires Valid(c) && c.recovery.None?
    ensures UnexpectedResponse(c, socket, mismatch, status).recovery.None?
  {
    RejectedRemembers(c, socket);
    CallbacksLatchNothing(c);
    if IsActive(c, socket) {
      var (c1, handled) := AskFailure(c, HandshakeFailure(status));
      if !handled { RetiringLatchesNothing(c1, socket); }
    }
    hide Core, Settled, AskFailure, FailIncompatible, RetireConnection;
  }

  lemma ControlsLatchNothing(c: Client, scope: Scope, position: Position, candidate: Option<Scope>)
    requires Valid(c) && c.recovery.None?
    ensures Acknowledge(c, position).recovery.None? && AcknowledgeScoped(c, scope, position).recovery.None?
    ensures Stop(c, candidate).recovery.None? && ResetSession(c).recovery.None?
  {
    hide Generation, Channels, LiveSocket;
  }

  lemma StartLatchesNothing(c: Client, after: Position, u: EntityId, w: EntityId)
    requires Valid(c) && c.recovery.None?
    ensures Start(c, after, u, w).0.recovery.None?
  {
    var p := Prepare(c, after, u, w);
    if p.1.Some? { ActivateUnlatched(p.0, p.1.value); }
  }

  /** Only a frame of the live socket latches, and always the client's own scope at the client's own position. */
  lemma LatchTakesPosition(c: Client, step: Step)
    requires Valid(c) && c.recovery.None? && Apply(c, step).recovery.Some?
    ensures step.MessageStep? && step.frame.Product? && IsActive(c, step.socket)
    ensures Remembers(c, Apply(c, step))
  {
    hide Valid, HandleMessage;
    if step.MessageStep? { FrameRemembers(c, step.socket, step.frame); } else { OthersLatchNothing(c, step); }
  }

  // ---------------------------------------------------------------------------------------------
  // Overflow
  // ---------------------------------------------------------------------------------------------

  /** The consumer resets the session while it is told of the recovery, or of the client going offline. */
  predicate ResetsOnRecovery(c: Client)
    requires c.scope.Some? && c.cursor.Some?
  {
    var (h, reply) := if c.ready then c.host.OnEvent(RecoveryEvent(c.scope.value, c.cursor.value)) else (c.host, Reply(No, false));
    reply.resets || h.OnState(Offline).1.resets
  }

  lemma RequiredLatchesIff(c: Client, socket: nat)
    requires Core(c) && IsActive(c, socket)
    ensures RequireRecovery(c, socket).recovery.Some? <==> !ResetsOnRecovery(c)
  {
    assert c.cursor.Some?;
    hide Core;
  }

  /** A replay that outgrows its limits latches, unless the consumer resets the session over it; any other does not. */
  lemma ReplayOverflowLatchesIff(c: Client, socket: nat, event: Event, frameBytes: nat)
    requires Valid(c) && IsActive(c, socket) && !c.connection.value.handshaken && event.kind.Change?
    requires event.workspaceId == c.scope.value.workspaceId && event.position.epoch == c.cursor.value.epoch
    ensures
      var k := c.connection.value;
      var overflow := |k.replay| == REPLAY_MAX_EVENTS || SumFrames(k.replay) + frameBytes > REPLAY_MAX_BYTES;
      HandleMessage(c, socket, Product(event, frameBytes)).recovery.Some? <==> overflow && !ResetsOnRecovery(c)
  {
    ActiveIsUnlatched(c, socket);
    RequiredLatchesIff(Arrived(c, socket, event), socket);
    hide RequireRecovery, ResetSession;
  }

  lemma DeliveryLatchesIff(c: Client, socket: nat, event: Event)
    requires Core(c) && IsActive(c, socket) && event.position.epoch == c.cursor.value.epoch && NextInOrder(c, socket, event)
    requires !c.windowless && event.kind.Change?
    ensures
      var overflow := Later(event.position, c.cursor.value)
                      && (|c.pending| == REPLAY_MAX_EVENTS || SumBytes(c.pending) + event.bytes > REPLAY_MAX_BYTES);
      DeliverEvent(c, socket, event).0.recovery.Some? <==> overflow && !ResetsOnRecovery(c)
  {
    RequiredLatchesIff(c, socket);
    assert c.pendingBytes == SumBytes(c.pending) && |c.pending| <= REPLAY_MAX_EVENTS;
    if NeedsAcknowledgement(c, event)
       && (|c.pending| >= REPLAY_MAX_EVENTS || c.pendingBytes + event.bytes > REPLAY_MAX_BYTES) {
      hide Core, RequireRecovery, ResetsOnRecovery, NextInOrder;
    } else {
      UntroubledLatchesNothing(c, socket, event);
    }
  }

  lemma UntroubledLatchesNothing(c: Client, socket: nat, event: Event)
    requires Core(c) && IsActive(c, socket) && event.position.epoch == c.cursor.value.epoch && NextInOrder(c, socket, event)
    requires !c.windowless
    requires NeedsAcknowledgement(c, event) ==>
               |c.pending| < REPLAY_MAX_EVENTS && c.pendingBytes + event.bytes <= REPLAY_MAX_BYTES
    ensures DeliverEvent(c, socket, event).0.recovery.None?
  {
    ActiveIsUnlatched(c, socket);
    hide Channels, LiveSocket, Window;
  }

  /** So does a delivery that outgrows the window of what the consumer has yet to acknowledge. */
  lemma WindowOverflowLatchesIff(c: Client, socket: nat, event: Event, frameBytes: nat)
    requires Valid(c) && IsActive(c, socket) && c.connection.value.handshaken && event.kind.Change? && !c.windowless
    requires event.workspaceId == c.scope.value.workspaceId && event.position.epoch == c.cursor.value.epoch
    ensures
      var overflow := Later(event.position, c.cursor.value)
                      && (|c.pending| == REPLAY_MAX_EVENTS || SumBytes(c.pending) + event.bytes > REPLAY_MAX_BYTES);
      HandleMessage(c, socket, Product(event, frameBytes)).recovery.Some? <==> overflow && !ResetsOnRecovery(c)
  {
    ProofSurvives(c.channels[socket].arrived, event, c.channels[socket].scope.userId);
    DeliveryLatchesIff(Arrived(c, socket, event), socket, event);
    LiveFrame(c, socket, event, frameBytes);
  }

  lemma LiveFrame(c: Client, socket: nat, event: Event, frameBytes: nat)
    requires Valid(c) && IsActive(c, socket) && c.connection.value.handshaken && event.kind.Change?
    requires event.workspaceId == c.scope.value.workspaceId && event.position.epoch == c.cursor.value.epoch
    ensures NextInOrder(Arrived(c, socket, event), socket, event)
    ensures HandleMessage(c, socket, Product(event, frameBytes)) == DeliverEvent(Arrived(c, socket, event), socket, event).0
  {
    hide Valid, Core, IsActive, DeliverEvent, Arrived, NextInOrder, HandleMessage, HandleEvent;
    LiveIsNext(c, socket, event);
    FrameIsEvent(c, socket, event, frameBytes);
    EventIsLive(c, socket, event, frameBytes);
  }

  lemma FrameIsEvent(c: Client, socket: nat, event: Event, frameBytes: nat)
    requires Valid(c) && IsActive(c, socket) && event.kind.Change?
    requires event.workspaceId == c.scope.value.workspaceId && event.position.epoch == c.cursor.value.epoch
    ensures HandleMessage(c, socket, Product(event, frameBytes)) == HandleEvent(c, socket, event, frameBytes)
  {
    hide Valid, HandleEvent;
  }

  lemma EventIsLive(c: Client, socket: nat, event: Event, frameBytes: nat)
    requires Valid(c) && IsActive(c, socket) && c.connection.value.handshaken && event.kind.Change?
    requires event.workspaceId == c.scope.value.workspaceId && event.position.epoch == c.cursor.value.epoch
    ensures HandleEvent(c, socket, event, frameBytes) == DeliverLive(c, socket, event)
  {
    hide Valid, DeliverLive;
  }

  lemma LiveIsNext(c: Client, socket: nat, event: Event)
    requires Valid(c) && IsActive(c, socket) && c.connection.value.handshaken && event.kind.Change?
    requires event.workspaceId == c.scope.value.workspaceId && event.position.epoch == c.cursor.value.epoch
    ensures NextInOrder(Arrived(c, socket, event), socket, event)
  {
    ProofSurvives(c.channels[socket].arrived, event, c.channels[socket].scope.userId);
    assert c.channels[socket].delivered == c.channels[socket].arrived;
  }

  // ---------------------------------------------------------------------------------------------
  // Runs behind a latch
  // ---------------------------------------------------------------------------------------------

  predicate NoProgress(after: Position, cursor: Position)
  {
    after.epoch == cursor.epoch && after.sequence <= cursor.sequence
  }

  /**
    The step brings no progress beyond `cursor` for the user and workspace of `scope`, names no other ones, and
    neither is nor provokes a reset.
   */
  predicate Idle(before: Client, step: Step, scope: Scope, cursor: Position)
  {
    match step
    case PrepareStep(after, u, w) => SameUser(scope, u, w) && NoProgress(after, cursor)
    case StartStep(after, u, w) =>
      SameUser(scope, u, w) && NoProgress(after, cursor) && (before.recovery.Some? ==> !ConsumerResets(before))
    case ActivateStep(_) => before.recovery.Some? ==> !ConsumerResets(before)
    case ObserveOnlyStep(u, w) => SameUser(scope, u, w)
    case ResetStep => false
    case _ => true
  }

  lemma IdleReleasesNothing(c: Client, before: Client, step: Step)
    requires before.recovery.Some? && c.scope.Some? && c.cursor.Some? && Remembers(c, before)
    requires Idle(before, step, c.scope.value, c.cursor.value)
    ensures !Releases(before, step)
  {
  }

  lemma LatchedOpensNothing(c: Client, step: Step)
    requires Valid(c) && c.recovery.Some?
    ensures Apply(c, step).channels == c.channels
  {
    hide Valid, AcceptAcknowledgement, DeliverPendingRecovery, BeginEpoch, ObserveFrom, ObserveAfresh, HandleEvent;
    LatchedIsIdle(c);
    match step
    case AcknowledgeStep(_) => hide AcknowledgeScoped;
    case AcknowledgeScopedStep(_, _) =>
    case MessageStep(_, _) => hide RejectInvalidEvent, FailIncompatible;
    case _ => hide HandleMessage, AcknowledgeScoped, Acknowledge;
  }

  lemma LatchedIsIdle(c: Client)
    requires Valid(c) && c.recovery.Some?
    ensures c.stopped && c.ticketEpoch.None? && c.connection.None?
  {
  }

  /**
    Behind a step that latched at the client's position, no run of preparations, starts, activations and callbacks
    without progress opens anything: the latch stays, and not one ticket, timer or socket comes into being.
   */
  lemma {:induction false} OverflowStaysLatched(c: Client, step: Step, steps: seq<Step>)
    requires Valid(c) && c.recovery.None? && Apply(c, step).recovery.Some? && c.scope.Some? && c.cursor.Some?
    requires forall k :: 0 <= k < |steps| ==>
               Idle(Run(Apply(c, step), steps[..k]), steps[k], c.scope.value, c.cursor.value)
    ensures
      var d := Apply(c, step);
      var r := Run(d, steps);
      r.recovery == d.recovery && r.channels == d.channels && r.stopped && Activities(r) == 0
    decreases |steps|
  {
    hide Valid, Apply, Releases, Idle, Remembers;
    LatchTakesPosition(c, step);
    var d := Apply(c, step);
    if steps == [] {
      LatchHoldsOverRuns(d, []);
    } else {
      var front, last := steps[..|steps| - 1], steps[|steps| - 1];
      assert forall k :: 0 <= k < |front| ==> front[..k] == steps[..k] && front[k] == steps[k];
      OverflowStaysLatched(c, step, front);
      var before := Run(d, front);
      RememberedStill(c, d, before);
      IdleReleasesNothing(c, before, last);
      LatchEndsIff(before, last);
      LatchedOpensNothing(before, last);
    }
  }

  lemma RememberedStill(c: Client, d: Client, r: Client)
    requires Remembers(c, d) && r.recovery == d.recovery
    ensures Remembers(c, r)
  {
  }
}
