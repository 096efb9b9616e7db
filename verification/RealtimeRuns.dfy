/**
  What the realtime client keeps over whole runs beside its invariant: every change handed over and not yet
  acknowledged is recorded, and what belonged to a stopped or replaced session stays inert
  (packages/api-client/src/realtime.ts:131-138, 304-330, 722-760).
 */
module RealtimeRuns {
  import opened Wrappers
  import opened SyncPositions
  import opened Consumer
  import opened Realtime
  import RealtimeOutcomes

  // ---------------------------------------------------------------------------------------------
  // Unacknowledged deliveries
  // ---------------------------------------------------------------------------------------------

  predicate Recorded(c: Client, event: Event)
    requires c.cursor.Some?
  {
    event.kind.Change? && event.position.sequence > c.cursor.value.sequence ==>
      Delivery(event.position, event.bytes) in c.pending
  }

  /** What the live connection handed to the renderer is acknowledged or recorded; only changes are held back. */
  predicate Ledger(c: Client)
  {
    c.connection.Some? ==>
      var k := c.connection.value;
      && k.socket < |c.channels| && c.cursor.Some?
      && (forall b :: b in k.replay ==> b.event.kind.Change?)
      && (!c.windowless ==> forall e :: e in c.channels[k.socket].delivered ==> Recorded(c, e))
  }

  /** The step left the connection and its ledger alone. */
  predicate Untouched(c: Client, r: Client)
  {
    r.connection.Some? ==>
      && r.connection == c.connection && r.channels == c.channels && r.cursor == c.cursor && r.pending == c.pending
      && (c.windowless ==> r.windowless)
  }

  lemma UntouchedKeeps(c: Client, r: Client)
    requires Ledger(c) && Untouched(c, r)
    ensures Ledger(r)
  {
  }

  /** Only the live socket is connected. */
  lemma ConnectedIsActive(c: Client)
    requires Core(c) && c.connection.Some?
    ensures IsActive(c, c.connection.value.socket)
  {
  }

  lemma GivenKeeps(c: Client, socket: nat, event: Event)
    requires Core(c) && Ledger(c) && IsActive(c, socket) && Recorded(c, event)
    ensures c.connection.value.socket == socket && socket < |c.channels|
    ensures Ledger(HandedOver(c, socket, event))
  {
  }

  lemma TrackedKeeps(c: Client, event: Event)
    requires Core(c) && Ledger(c) && c.cursor.Some? && c.cursor.value.epoch == event.position.epoch
    requires NeedsAcknowledgement(c, event) ==>
               |c.pending| < REPLAY_MAX_EVENTS && c.pendingBytes + event.bytes <= REPLAY_MAX_BYTES
    ensures Ledger(Tracked(c, event)) && Recorded(Tracked(c, event), event)
  {
    hide Core, Window;
    var pushed := c.pending + [Delivery(event.position, event.bytes)];
    assert pushed[|c.pending|] == Delivery(event.position, event.bytes);
    assert forall d :: d in c.pending ==> d in pushed;
  }

  lemma OfferKeeps(c: Client, socket: nat, event: Event)
    requires Core(c) && Ledger(c) && IsActive(c, socket) && c.ready && Recorded(c, event)
    requires event.kind.ResyncRequired? || NextInOrder(c, socket, event)
    ensures Ledger(Offer(c, socket, event).0)
  {
    GivenKeeps(c, socket, event);
    var r := Offer(c, socket, event).0;
    if r.connection.Some? {
      OfferKept(c, socket, event);
      ConnectedIsActive(r);
      UntouchedKeeps(HandedOver(c, socket, event), r);
    }
    hide Core, Offer, NextInOrder, Recorded;
  }

  lemma OfferKept(c: Client, socket: nat, event: Event)
    requires Core(c) && IsActive(c, socket) && c.ready
    requires event.kind.ResyncRequired? || NextInOrder(c, socket, event)
    requires Offer(c, socket, event).0.connection.Some?
    ensures socket < |c.channels| && Untouched(HandedOver(c, socket, event), Offer(c, socket, event).0)
  {
    DeliveredStaysPrefix(c.channels[socket], event);
    hide Channels, LiveSocket, Window, Latch, NextInOrder;
  }

  lemma DeliverKeeps(c: Client, socket: nat, event: Event)
    requires Core(c) && Ledger(c) && IsActive(c, socket) && event.position.epoch == c.cursor.value.epoch
    requires event.kind.ResyncRequired? || NextInOrder(c, socket, event)
    ensures Ledger(DeliverEvent(c, socket, event).0)
    ensures IsActive(DeliverEvent(c, socket, event).0, socket) ==> DeliverEvent(c, socket, event).0.windowless == c.windowless
  {
    hide Core, Handed, Recorded;
    if c.windowless {
      ObserveKept(c, socket, event);
    } else if NeedsAcknowledgement(c, event)
              && (|c.pending| >= REPLAY_MAX_EVENTS || c.pendingBytes + event.bytes > REPLAY_MAX_BYTES) {
      RequiredStops(c, socket);
    } else {
      TrackedKeeps(c, event);
      var d := Tracked(c, event);
      if d.ready { OfferKeeps(d, socket, event); } else { PausedStops(d, socket); }
      hide Ledger, Offer, PauseForRenderer, Tracked;
    }
  }

  lemma ObserveKept(c: Client, socket: nat, event: Event)
    requires Core(c) && Ledger(c) && IsActive(c, socket) && c.windowless
    requires event.kind.ResyncRequired? || NextInOrder(c, socket, event)
    ensures Ledger(Observe(c, socket, event).0)
    ensures IsActive(Observe(c, socket, event).0, socket) ==> Observe(c, socket, event).0.windowless
  {
    hide Channels, LiveSocket, Window, Latch;
  }

  lemma RequiredStops(c: Client, socket: nat)
    requires Core(c) && IsActive(c, socket)
    ensures RequireRecovery(c, socket).connection.None?
  {
    hide Channels, LiveSocket, Window, RequireRecovery;
  }

  lemma PausedStops(c: Client, socket: nat)
    requires Core(c) && IsActive(c, socket)
    ensures PauseForRenderer(c, socket).connection.None?
  {
    hide Channels, LiveSocket, Window, PauseForRenderer;
  }

  lemma {:induction false} ReplayKeeps(c: Client, socket: nat, replay: seq<Event>, handshake: Event)
    requires Core(c) && Ledger(c) && AwaitsReplay(c, socket, replay, handshake)
    ensures Ledger(DeliverReplay(c, socket, replay, handshake).0)
    decreases |replay|
  {
    hide Core, Ledger, DeliverEvent, AwaitsReplay, CaughtUp, NextInOrder;
    AwaitingIsActive(c, socket, replay, handshake);
    if replay != [] {
      ReplayHead(c, socket, replay, handshake);
      DeliverKeeps(c, socket, replay[0]);
      var (c1, ok) := DeliverEvent(c, socket, replay[0]);
      if ok && IsActive(c1, socket) { ReplayKeeps(c1, socket, replay[1..], handshake); }
    }
  }

  lemma AwaitingIsActive(c: Client, socket: nat, replay: seq<Event>, handshake: Event)
    requires AwaitsReplay(c, socket, replay, handshake)
    ensures IsActive(c, socket)
  {
  }

  lemma LiveKeeps(c: Client, socket: nat, event: Event)
    requires Core(c) && Ledger(c) && IsActive(c, socket) && event.position.epoch == c.cursor.value.epoch
    requires event.kind.Connected? && c.connection.value.handshaken
    requires c.channels[socket].arrived == c.channels[socket].delivered + [event]
    requires ProvedBy(c.channels[socket].arrived, c.channels[socket].scope.userId)
    ensures Ledger(GoLive(c, socket, event))
  {
    var c1 := c.(connection := Some(c.connection.value.(replay := [], replayBytes := 0)));
    assert Core(c1) && Ledger(c1);
    var (c2, returned) := DeliverState(c1, Live);
    CallbackKeeps(c1, c2);
    if !returned {
      RetiredKeeps(c2, socket);
    } else if IsActive(c2, socket) {
      DeliverKeeps(c2, socket, event);
    }
    hide Core, Settled, DeliverEvent, DeliverState, Ledger, RetireConnection;
  }

  lemma CallbackKeeps(c: Client, r: Client)
    requires Core(c) && Ledger(c) && AfterCallback(c, r)
    ensures Ledger(r)
  {
    hide Channels, LiveSocket, Window, Latch;
  }

  lemma RetiredKeeps(c: Client, socket: nat)
    requires Core(c) && Ledger(c)
    ensures Ledger(RetireConnection(c, socket))
  {
    hide Core, RetireConnection;
  }

  lemma HandshakeKeeps(c: Client, socket: nat, event: Event)
    requires Valid(c) && Ledger(c) && IsActive(c, socket) && !c.connection.value.handshaken
    requires event.kind.Connected? && event.kind.userId == c.scope.value.userId
    requires event.workspaceId == c.scope.value.workspaceId && event.position.epoch == c.cursor.value.epoch
    ensures Ledger(Handshake(c, socket, event))
  {
    var replay := Events(c.connection.value.replay);
    var c1 := Shaken(c, socket, event);
    assert Ledger(c1);
    hide Valid, Core, Settled, Ledger, DeliverReplay, GoLive, ProvedBy, Shaken;
    ReplayKeeps(c1, socket, replay, event);
    var (c2, ok) := DeliverReplay(c1, socket, replay, event);
    if ok { LiveKeeps(c2, socket, event); }
  }

  lemma HoldKeeps(c: Client, socket: nat, event: Event, frameBytes: nat)
    requires Valid(c) && Ledger(c) && IsActive(c, socket) && !c.connection.value.handshaken && event.kind.Change?
    requires event.workspaceId == c.scope.value.workspaceId && event.position.epoch == c.cursor.value.epoch
    ensures Ledger(Hold(c, socket, event, frameBytes))
  {
    RequiredStops(Arrived(c, socket, event), socket);
    hide RequireRecovery, Core, Settled, Recorded;
    assert c.channels[socket] == c.channels[c.connection.value.socket];
  }

  lemma LiveEventKeeps(c: Client, socket: nat, event: Event)
    requires Valid(c) && Ledger(c) && IsActive(c, socket) && c.connection.value.handshaken && event.kind.Change?
    requires event.workspaceId == c.scope.value.workspaceId && event.position.epoch == c.cursor.value.epoch
    ensures Ledger(DeliverLive(c, socket, event))
  {
    ProofSurvives(c.channels[socket].arrived, event, c.channels[socket].scope.userId);
    var d := Arrived(c, socket, event);
    assert Ledger(d);
    DeliverKeeps(d, socket, event);
    hide DeliverEvent, Core, Settled, Ledger;
  }

  lemma SignalKeeps(c: Client, socket: nat, event: Event, frameBytes: nat)
    requires Valid(c) && Ledger(c) && IsActive(c, socket) && event.kind.ResyncRequired?
    requires event.workspaceId == c.scope.value.workspaceId && event.position.epoch == c.cursor.value.epoch
    ensures Ledger(HandleEvent(c, socket, event, frameBytes))
  {
    ValidIsCore(c);
    DeliverKeeps(c, socket, event);
    hide Valid, DeliverEvent, Ledger, RetainWindowless;
    var (c1, ok) := DeliverEvent(c, socket, event);
    if c.windowless && ok { RetainingKeeps(c1, socket, event); }
  }

  lemma RetainingKeeps(c: Client, socket: nat, event: Event)
    requires Core(c) && Ledger(c) && event.kind.ResyncRequired?
    ensures Ledger(RetainWindowless(c, socket, event))
  {
    hide Channels, LiveSocket, Window;
  }

  lemma ValidIsCore(c: Client)
    requires Valid(c)
    ensures Core(c)
  {
  }

  lemma RejectionKeeps(c: Client, socket: nat)
    requires Valid(c) && Ledger(c)
    ensures Ledger(RejectInvalidEvent(c, socket))
    ensures forall reason :: Ledger(FailIncompatible(c, socket, reason))
  {
    SilentKeeps(c, RejectInvalidEvent(c, socket)) by { RejectedIsUntouched(c, socket); }
    forall reason ensures Ledger(FailIncompatible(c, socket, reason)) {
      var r := FailIncompatible(c, socket, reason);
      SilentKeeps(c, r) by { FailedIsUntouched(c, socket, reason); }
    }
    hide Ledger, RejectInvalidEvent, FailIncompatible, Valid;
  }

  lemma SilentKeeps(c: Client, r: Client)
    requires Ledger(c) && Untouched(c, r)
    ensures Ledger(r)
  {
  }

  lemma RejectedIsUntouched(c: Client, socket: nat)
    requires Valid(c)
    ensures Untouched(c, RejectInvalidEvent(c, socket))
  {
    hide Channels, LiveSocket, Window, Latch;
    if IsActive(c, socket) { RealtimeOutcomes.RejectedFrameMeans(c, socket); }
  }

  lemma FailedIsUntouched(c: Client, socket: nat, reason: DropReason)
    requires Valid(c)
    ensures Untouched(c, FailIncompatible(c, socket, reason))
  {
    hide Channels, LiveSocket, Window, Latch;
  }

  lemma EventKeeps(c: Client, socket: nat, event: Event, frameBytes: nat)
    requires Valid(c) && Ledger(c) && IsActive(c, socket)
    requires event.workspaceId == c.scope.value.workspaceId && event.position.epoch == c.cursor.value.epoch
    requires event.kind.Connected? ==> event.kind.userId == c.scope.value.userId
    ensures Ledger(HandleEvent(c, socket, event, frameBytes))
  {
    hide Valid, Ledger, DeliverEvent, RetainWindowless, RejectInvalidEvent, Handshake, Hold, DeliverLive;
    if event.kind.ResyncRequired? {
      SignalKeeps(c, socket, event, frameBytes);
    } else if event.kind.Connected? {
      if c.connection.value.handshaken { RejectionKeeps(c, socket); } else { HandshakeKeeps(c, socket, event); }
    } else if !c.connection.value.handshaken {
      HoldKeeps(c, socket, event, frameBytes);
    } else {
      LiveEventKeeps(c, socket, event);
    }
  }

  /** The frame is a product event of the connection's own workspace, user and epoch. */
  predicate Accepted(c: Client, socket: nat, frame: Frame)
  {
    && IsActive(c, socket) && c.scope.Some? && c.cursor.Some? && frame.Product?
    && frame.event.workspaceId == c.scope.value.workspaceId && frame.event.position.epoch == c.cursor.value.epoch
    && (frame.event.kind.Connected? ==> frame.event.kind.userId == c.scope.value.userId)
  }

  lemma FrameGoes(c: Client, socket: nat, frame: Frame)
    requires Valid(c)
    ensures
      var r := HandleMessage(c, socket, frame);
      || r == c || r == Drop(c, StaleSocket) || r == RejectInvalidEvent(c, socket)
      || r == FailIncompatible(c, socket, WrongWorkspace) || r == FailIncompatible(c, socket, WrongUser)
      || r == FailIncompatible(c, socket, InvalidEnvelope)
      || (Accepted(c, socket, frame) && r == HandleEvent(c, socket, frame.event, frame.frameBytes))
  {
    hide RejectInvalidEvent, FailIncompatible, HandleEvent, Channels, Window, Latch, Settled;
  }

  lemma DroppedKeeps(c: Client)
    requires Ledger(c)
    ensures Ledger(Drop(c, StaleSocket))
  {
    UntouchedKeeps(c, Drop(c, StaleSocket));
  }

  lemma FrameKeeps(c: Client, socket: nat, frame: Frame)
    requires Valid(c) && Ledger(c)
    ensures Ledger(HandleMessage(c, socket, frame))
  {
    hide Valid, Ledger, HandleMessage, RejectInvalidEvent, FailIncompatible, HandleEvent;
    FrameGoes(c, socket, frame);
    DroppedKeeps(c);
    RejectionKeeps(c, socket);
    if Accepted(c, socket, frame) { EventKeeps(c, socket, frame.event, frame.frameBytes); }
  }

  // ---------------------------------------------------------------------------------------------
  // Steps and runs
  // ---------------------------------------------------------------------------------------------

  lemma SilentStepKeeps(c: Client, step: Step)
    requires Valid(c) && Ledger(c)
    requires step.TicketRejectedStep? || step.TimerStep? || step.SocketErrorStep? || step.SocketClosedStep?
             || step.UnexpectedResponseStep?
    ensures Ledger(Apply(c, step))
  {
    hide Valid, Ledger, TicketRejected, TimerFired, SocketError, SocketClosed, UnexpectedResponse, RealtimeOutcomes.Over,
         RealtimeOutcomes.Waits;
    OverOrWaits(c, Apply(c, step));
    match step {
      case TicketRejectedStep(epoch, mismatch, retryable) =>
        RealtimeOutcomes.TicketRejectedMeans(c, epoch, mismatch, retryable);
      case TimerStep => RealtimeOutcomes.TimerMeans(c);
      case SocketErrorStep(socket) => RealtimeOutcomes.SocketErrorMeans(c, socket);
      case SocketClosedStep(socket, code) => RealtimeOutcomes.SocketClosedMeans(c, socket, code);
      case UnexpectedResponseStep(socket, mismatch, status) =>
        RealtimeOutcomes.UnexpectedResponseMeans(c, socket, mismatch, status);
    }
    SilentKeeps(c, Apply(c, step));
  }

  lemma OverOrWaits(c: Client, r: Client)
    ensures RealtimeOutcomes.Over(c, r) ==> Untouched(c, r)
    ensures forall h: Host :: RealtimeOutcomes.Waits(c, r, h) ==> Untouched(c, r)
  {
  }

  lemma AcknowledgementKeeps(c: Client, position: Position)
    requires Valid(c) && Ledger(c)
    ensures Ledger(Acknowledge(c, position))
  {
    if c.cursor.Some? && position.epoch == c.cursor.value.epoch {
      RealtimeOutcomes.AcknowledgeMeans(c, position);
      var r := Acknowledge(c, position);
      hide Valid, Acknowledge;
      assert r == Apply(c, AcknowledgeStep(position));
      if r.connection.Some? && !r.windowless {
        var k := r.connection.value;
        DeliveredInEpoch(c);
        forall e | e in r.channels[k.socket].delivered ensures Recorded(r, e) {
          assert Recorded(c, e);
        }
      }
    }
  }

  lemma DeliveredInEpoch(c: Client)
    requires Valid(c) && c.connection.Some?
    ensures forall e :: e in c.channels[c.connection.value.socket].delivered ==> e.position.epoch == c.cursor.value.epoch
  {
    var ch := c.channels[c.connection.value.socket];
    assert ChannelOk(ch);
    forall e | e in ch.delivered ensures e.position.epoch == c.cursor.value.epoch {
      var i :| 0 <= i < |ch.delivered| && ch.delivered[i] == e;
      assert ch.arrived[i] == e;
    }
  }

  lemma StoppedIsUntouched(c: Client, r: Client)
    requires Core(r) && r.stopped
    ensures Untouched(c, r)
  {
  }

  lemma ActivationIsUntouched(c: Client, scope: Scope)
    requires Valid(c)
    ensures Untouched(c, Activate(c, scope).0)
  {
    if c.scope == Some(scope) && c.stopped { StoppedIsUntouched(c, c); }
    hide Channels, LiveSocket, Window, BeginEpoch;
  }

  lemma StartKeeps(c: Client, after: Position, userId: EntityId, workspaceId: EntityId)
    requires Valid(c) && Ledger(c)
    ensures Ledger(Start(c, after, userId, workspaceId).0)
  {
    hide Ledger, BeginEpoch, Acknowledge, Activate, Prepare, Window, Channels, LiveSocket;
    if c.scope.Some? && SameUser(c.scope.value, userId, workspaceId) && !c.stopped {
      AcknowledgementKeeps(c, after);
      RunningStartIs(c, after, userId, workspaceId);
      var r := Start(c, after, userId, workspaceId).0;
      if r.connection.None? { SilentKeeps(c, r); }
    } else {
      SilentKeeps(c, Start(c, after, userId, workspaceId).0) by { StartIsUntouched(c, after, userId, workspaceId); }
    }
  }

  lemma RunningStartIs(c: Client, after: Position, userId: EntityId, workspaceId: EntityId)
    requires Valid(c) && c.scope.Some? && SameUser(c.scope.value, userId, workspaceId) && !c.stopped
    ensures
      var r := Start(c, after, userId, workspaceId).0;
      r == Acknowledge(c, after) || r.connection.None?
  {
    hide BeginEpoch, Acknowledge, Window, Channels, LiveSocket;
  }

  lemma StartIsUntouched(c: Client, after: Position, userId: EntityId, workspaceId: EntityId)
    requires Valid(c) && !(c.scope.Some? && SameUser(c.scope.value, userId, workspaceId) && !c.stopped)
    ensures Untouched(c, Start(c, after, userId, workspaceId).0)
  {
    hide Core, Settled, BeginEpoch, Acknowledge, Activate, Prepare;
    RestartIsUntouched(c, after, userId, workspaceId);
    if PreservesRecovery(c, after, userId, workspaceId) && c.scope.Some? {
      ActivationIsUntouched(c.(ready := true, windowless := false), c.scope.value) by { StillValid(c); }
      LatchIsIdle(c);
    }
    if c.recovery.Some? {
      LatchIsIdle(c);
      RestartIsUntouched(c.(recovery := None), after, userId, workspaceId) by { StillValid(c); }
    }
  }

  lemma StillValid(c: Client)
    requires Valid(c)
    ensures Valid(c.(ready := true, windowless := false)) && Valid(c.(recovery := None))
  {
  }

  lemma LatchIsIdle(c: Client)
    requires Valid(c) && c.recovery.Some?
    ensures c.stopped && c.connection.None?
  {
  }

  lemma RestartIsUntouched(c: Client, after: Position, userId: EntityId, workspaceId: EntityId)
    requires Valid(c)
    ensures Untouched(c, PrepareAndActivate(c, after, userId, workspaceId).0)
  {
    var (p, scope) := Prepare(c, after, userId, workspaceId);
    if scope.Some? { ActivationIsUntouched(p, scope.value); }
    hide Core, Settled, Activate, Prepare;
  }

  lemma ObservingIsUntouched(c: Client, userId: EntityId, workspaceId: EntityId)
    requires Valid(c)
    ensures Untouched(c, ObserveOnly(c, userId, workspaceId))
  {
    RealtimeOutcomes.ObserveOnlyMeans(c, userId, workspaceId);
    hide Core, Settled, ObserveOnly;
  }

  lemma LifecycleKeeps(c: Client, step: Step)
    requires Valid(c) && Ledger(c)
    requires !step.MessageStep? && !step.TicketRejectedStep? && !step.TimerStep? && !step.SocketErrorStep?
             && !step.SocketClosedStep? && !step.UnexpectedResponseStep?
    ensures Ledger(Apply(c, step))
  {
    hide Valid, Ledger, Acknowledge, Activate, Start, ObserveOnly, TicketGranted, AcknowledgeScoped;
    match step
    case PrepareStep(_, _, _) => SilentKeeps(c, Apply(c, step));
    case ActivateStep(scope) => ActivationIsUntouched(c, scope); SilentKeeps(c, Apply(c, step));
    case StartStep(after, u, w) => StartKeeps(c, after, u, w);
    case ConsumerUnavailableStep => SilentKeeps(c, Apply(c, step));
    case ObserveOnlyStep(u, w) => ObservingIsUntouched(c, u, w); SilentKeeps(c, Apply(c, step));
    case AcknowledgeStep(position) => AcknowledgementKeeps(c, position);
    case AcknowledgeScopedStep(scope, position) =>
      RealtimeOutcomes.StaleAcknowledgement(c, scope, position);
      AcknowledgementKeeps(c, position);
      if c.scope != Some(scope) { SilentKeeps(c, Apply(c, step)); }
    case StopStep(_) => SilentKeeps(c, Apply(c, step));
    case ResetStep => SilentKeeps(c, Apply(c, step));
    case TicketGrantedStep(epoch, created) => GrantKeeps(c, epoch, created);
  }

  lemma GrantKeeps(c: Client, epoch: nat, created: bool)
    requires Valid(c) && Ledger(c)
    ensures Ledger(TicketGranted(c, epoch, created))
  {
    RealtimeOutcomes.TicketGrantedMeans(c, epoch, created);
    hide Core, Settled, TicketGranted;
  }

  lemma StepKeeps(c: Client, step: Step)
    requires Valid(c) && Ledger(c)
    ensures Ledger(Apply(c, step))
  {
    hide Valid, Ledger;
    match step
    case MessageStep(socket, frame) => FrameKeeps(c, socket, frame);
    case TicketRejectedStep(_, _, _) => SilentStepKeeps(c, step);
    case TimerStep => SilentStepKeeps(c, step);
    case SocketErrorStep(_) => SilentStepKeeps(c, step);
    case SocketClosedStep(_, _) => SilentStepKeeps(c, step);
    case UnexpectedResponseStep(_, _, _) => SilentStepKeeps(c, step);
    case _ => LifecycleKeeps(c, step);
  }

  lemma {:induction false} LedgerOverRuns(host: Host, steps: seq<Step>)
    ensures Ledger(Run(Initial(host), steps))
    decreases |steps|
  {
    if steps != [] {
      LedgerOverRuns(host, steps[..|steps| - 1]);
      StepKeeps(Run(Initial(host), steps[..|steps| - 1]), steps[|steps| - 1]);
    }
  }

  /**
    In every reachable state, each change that the live connection handed to the renderer lies at or below the
    position, so it was acknowledged, or is recorded as pending with its own size.
   */
  lemma EveryDeliveryIsRecorded(host: Host, steps: seq<Step>, event: Event)
    requires
      var c := Run(Initial(host), steps);
      && c.connection.Some? && !c.windowless && c.connection.value.socket < |c.channels|
      && event in c.channels[c.connection.value.socket].delivered && event.kind.Change?
    ensures
      var c := Run(Initial(host), steps);
      && c.cursor.Some? && event.position.epoch == c.cursor.value.epoch
      && (event.position.sequence <= c.cursor.value.sequence || Delivery(event.position, event.bytes) in c.pending)
  {
    LedgerOverRuns(host, steps);
    var c := Run(Initial(host), steps);
    DeliveredInEpoch(c);
    assert Recorded(c, event);
  }

  // ---------------------------------------------------------------------------------------------
  // What is over stays over
  // ---------------------------------------------------------------------------------------------

  /** Generations only rise, and what leaves the scope or stops the client raises them. */
  predicate Rises(c: Client, r: Client)
  {
    && r.epoch >= c.epoch && r.lastScopeEpoch >= c.lastScopeEpoch && |r.channels| >= |c.channels|
    && (r.scope == c.scope || r.scope.None? || c.lastScopeEpoch < r.scope.value.epoch <= r.lastScopeEpoch)
    && (r.epoch == c.epoch ==> r.scope == c.scope && r.stopped == c.stopped)
    && (r.connection.Some? && !(c.connection.Some? && r.connection.value.socket == c.connection.value.socket) ==>
          r.connection.value.socket >= |c.channels|)
  }

  lemma RisesOn(c: Client, m: Client, r: Client)
    requires Rises(c, m) && Rises(m, r)
    ensures Rises(c, r)
  {
  }

  /** What stays in the generation, or leaves it without a connection. */
  predicate Leaves(c: Client, r: Client)
  {
    && r.lastScopeEpoch == c.lastScopeEpoch && |r.channels| == |c.channels|
    && (r.connection.Some? ==> c.connection.Some? && r.connection.value.socket == c.connection.value.socket)
    && (r.scope == c.scope || r.scope.None?)
    && (r.epoch > c.epoch || (r.epoch == c.epoch && r.scope == c.scope && r.stopped == c.stopped))
  }

  lemma LeavesOn(c: Client, m: Client, r: Client)
    requires Leaves(c, m) && Leaves(m, r)
    ensures Leaves(c, r)
  {
  }

  lemma CallbacksLeave(c: Client)
    ensures forall state :: Leaves(c, DeliverState(c, state).0)
    ensures forall failure :: Leaves(c, AskFailure(c, failure).0)
    ensures forall control: Event :: control.kind.ResyncRequired? ==> Leaves(c, OfferControl(c, control).0)
  {
  }

  lemma ReconnectLeaves(c: Client, epoch: nat)
    requires Core(c) && (IsCurrentEpoch(c, epoch) ==> c.ticketEpoch.None? && c.connection.None?)
    ensures Leaves(c, ScheduleReconnect(c, epoch))
  {
    CallbacksLeave(c);
    hide Core, DeliverState;
  }

  lemma EndingsLeave(c: Client, socket: nat)
    requires Core(c)
    ensures Leaves(c, RetireConnection(c, socket)) && Leaves(c, PauseForRenderer(c, socket))
  {
    if IsActive(c, socket) { ReconnectLeaves(c.(connection := None), c.connection.value.epoch); }
    CallbacksLeave(Halted(c, None).(ready := false, windowless := false));
    hide Core, DeliverState, ScheduleReconnect;
  }

  lemma LatchingLeaves(c: Client, socket: nat, event: Event)
    requires Core(c)
    ensures Leaves(c, RequireRecovery(c, socket))
    ensures event.kind.ResyncRequired? ==> Leaves(c, RetainWindowless(c, socket, event))
  {
    hide Channels, LiveSocket, Window;
  }

  lemma GivenLeaves(c: Client, socket: nat, event: Event)
    requires Core(c) && IsActive(c, socket)
    requires event.kind.ResyncRequired? || NextInOrder(c, socket, event)
    ensures socket < |c.channels|
    ensures var d := HandedOver(c, socket, event); Core(d) && Leaves(c, d)
  {
    DeliveredStaysPrefix(c.channels[socket], event);
  }

  lemma ReenteringLeaves(c: Client, h: Host, reply: Reply)
    requires Core(c)
    ensures var r := Reentered(c.(host := h), reply); Core(r) && Leaves(c, r)
  {
    assert Core(c.(host := h));
  }

  lemma OfferLeaves(c: Client, socket: nat, event: Event)
    requires Core(c) && IsActive(c, socket) && c.ready
    requires event.kind.ResyncRequired? || NextInOrder(c, socket, event)
    ensures Leaves(c, Offer(c, socket, event).0)
  {
    hide Core, NextInOrder, Leaves, PauseForRenderer, RetireConnection, Reentered, HandedOver, Handed;
    GivenLeaves(c, socket, event);
    var (h, reply) := c.host.OnEvent(event);
    var d := HandedOver(c, socket, event);
    var c1 := Reentered(d.(host := h), reply);
    ReenteringLeaves(d, h, reply);
    LeavesOn(c, d, c1);
    EndingsLeave(c1, socket);
    LeavesOn(c, c1, PauseForRenderer(c1, socket));
    LeavesOn(c, c1, RetireConnection(c1, socket));
  }

  lemma ObserveLeaves(c: Client, socket: nat, event: Event)
    requires Core(c) && IsActive(c, socket)
    requires event.kind.ResyncRequired? || NextInOrder(c, socket, event)
    ensures Leaves(c, Observe(c, socket, event).0)
  {
    DeliveredStaysPrefix(c.channels[socket], event);
    var (h, reply) := c.host.OnWindowlessEvent(event);
    assert Leaves(c, Reentered(HandedOver(c, socket, event).(host := h), reply));
    hide Channels, LiveSocket, Window, Latch;
  }

  lemma DeliveryLeaves(c: Client, socket: nat, event: Event)
    requires Core(c) && IsActive(c, socket) && event.position.epoch == c.cursor.value.epoch
    requires event.kind.ResyncRequired? || NextInOrder(c, socket, event)
    ensures Leaves(c, DeliverEvent(c, socket, event).0)
  {
    hide Channels, LiveSocket, Window, Latch, Offer, Observe, PauseForRenderer, RequireRecovery, Handed;
    LatchingLeaves(c, socket, event);
    ObserveLeaves(c, socket, event);
    if !c.windowless && !(NeedsAcknowledgement(c, event)
         && (|c.pending| >= REPLAY_MAX_EVENTS || c.pendingBytes + event.bytes > REPLAY_MAX_BYTES)) {
      var d := Tracked(c, event);
      EndingsLeave(d, socket);
      if d.ready { OfferLeaves(d, socket, event); }
    }
  }

  lemma {:induction false} ReplayLeaves(c: Client, socket: nat, replay: seq<Event>, handshake: Event)
    requires Core(c) && AwaitsReplay(c, socket, replay, handshake)
    ensures Leaves(c, DeliverReplay(c, socket, replay, handshake).0)
    decreases |replay|
  {
    hide Core, DeliverEvent, AwaitsReplay, CaughtUp, NextInOrder;
    AwaitingIsActive(c, socket, replay, handshake);
    if replay != [] {
      ReplayHead(c, socket, replay, handshake);
      DeliveryLeaves(c, socket, replay[0]);
      var (c1, ok) := DeliverEvent(c, socket, replay[0]);
      if ok && IsActive(c1, socket) {
        ReplayLeaves(c1, socket, replay[1..], handshake);
        LeavesOn(c, c1, DeliverReplay(c1, socket, replay[1..], handshake).0);
      }
    }
  }

  lemma LiveLeaves(c: Client, socket: nat, event: Event)
    requires Core(c) && IsActive(c, socket) && event.position.epoch == c.cursor.value.epoch
    requires event.kind.Connected? && c.connection.value.handshaken
    requires c.channels[socket].arrived == c.channels[socket].delivered + [event]
    requires ProvedBy(c.channels[socket].arrived, c.channels[socket].scope.userId)
    ensures Leaves(c, GoLive(c, socket, event))
  {
    var c1 := c.(connection := Some(c.connection.value.(replay := [], replayBytes := 0)));
    CallbacksLeave(c1);
    var (c2, returned) := DeliverState(c1, Live);
    EndingsLeave(c2, socket);
    if returned && IsActive(c2, socket) { DeliveryLeaves(c2, socket, event); }
    hide Core, Settled, DeliverEvent, DeliverState, RetireConnection;
  }

  lemma FrameLeaves(c: Client, socket: nat, frame: Frame)
    requires Valid(c)
    ensures Leaves(c, HandleMessage(c, socket, frame))
  {
    hide Valid, HandleMessage, RejectInvalidEvent, FailIncompatible, HandleEvent;
    FrameGoes(c, socket, frame);
    RejectionLeaves(c, socket);
    if Accepted(c, socket, frame) { EventLeaves(c, socket, frame.event, frame.frameBytes); }
  }

  lemma RejectionLeaves(c: Client, socket: nat)
    requires Valid(c)
    ensures Leaves(c, RejectInvalidEvent(c, socket))
    ensures forall reason :: Leaves(c, FailIncompatible(c, socket, reason))
  {
    forall reason ensures Leaves(c, FailIncompatible(c, socket, reason)) { FailureLeaves(c, socket, reason); }
    hide Valid, FailIncompatible, AskFailure, RetireConnection, ResetSession;
    if IsActive(c, socket) {
      RealtimeOutcomes.RejectedFrameMeans(c, socket);
      OverOrWaitsLeaves(c, RejectInvalidEvent(c, socket));
      hide RejectInvalidEvent, RealtimeOutcomes.Over, RealtimeOutcomes.Waits;
    }
  }

  lemma OverOrWaitsLeaves(c: Client, r: Client)
    ensures RealtimeOutcomes.Over(c, r) ==> Leaves(c, r)
    ensures forall h: Host :: RealtimeOutcomes.Waits(c, r, h) ==> Leaves(c, r)
  {
  }

  lemma FailureLeaves(c: Client, socket: nat, reason: DropReason)
    requires Valid(c)
    ensures Leaves(c, FailIncompatible(c, socket, reason))
  {
    CallbacksLeave(Drop(c, reason).(incompatible := true, connection := None));
    hide Core, Settled, DeliverState;
  }

  lemma HandshakeLeaves(c: Client, socket: nat, event: Event)
    requires Valid(c) && IsActive(c, socket) && !c.connection.value.handshaken
    requires event.kind.Connected? && event.kind.userId == c.scope.value.userId
    requires event.workspaceId == c.scope.value.workspaceId && event.position.epoch == c.cursor.value.epoch
    ensures Leaves(c, Handshake(c, socket, event))
  {
    var replay := Events(c.connection.value.replay);
    var c1 := Shaken(c, socket, event);
    assert Leaves(c, c1);
    hide Valid, Core, Settled, DeliverReplay, GoLive, ProvedBy, Shaken;
    ReplayLeaves(c1, socket, replay, event);
    var (c2, ok) := DeliverReplay(c1, socket, replay, event);
    if ok { LiveLeaves(c2, socket, event); }
  }

  lemma EventLeaves(c: Client, socket: nat, event: Event, frameBytes: nat)
    requires Valid(c) && IsActive(c, socket)
    requires event.workspaceId == c.scope.value.workspaceId && event.position.epoch == c.cursor.value.epoch
    requires event.kind.Connected? ==> event.kind.userId == c.scope.value.userId
    ensures Leaves(c, HandleEvent(c, socket, event, frameBytes))
  {
    hide Valid, Core, DeliverEvent, RetainWindowless, RejectInvalidEvent, Handshake, DeliverLive, RequireRecovery, Arrived;
    ValidIsCore(c);
    if event.kind.ResyncRequired? {
      DeliveryLeaves(c, socket, event);
      var (c1, ok) := DeliverEvent(c, socket, event);
      LatchingLeaves(c1, socket, event);
    } else if event.kind.Connected? {
      if c.connection.value.handshaken { RejectionLeaves(c, socket); } else { HandshakeLeaves(c, socket, event); }
    } else if !c.connection.value.handshaken {
      HoldLeaves(c, socket, event, frameBytes);
    } else {
      LiveEventLeaves(c, socket, event);
    }
  }

  lemma HoldLeaves(c: Client, socket: nat, event: Event, frameBytes: nat)
    requires Valid(c) && IsActive(c, socket) && !c.connection.value.handshaken && event.kind.Change?
    requires event.workspaceId == c.scope.value.workspaceId && event.position.epoch == c.cursor.value.epoch
    ensures Leaves(c, Hold(c, socket, event, frameBytes))
  {
    LatchingLeaves(Arrived(c, socket, event), socket, event);
    hide RequireRecovery, Core, Settled;
  }

  lemma LiveEventLeaves(c: Client, socket: nat, event: Event)
    requires Valid(c) && IsActive(c, socket) && c.connection.value.handshaken && event.kind.Change?
    requires event.workspaceId == c.scope.value.workspaceId && event.position.epoch == c.cursor.value.epoch
    ensures Leaves(c, DeliverLive(c, socket, event))
  {
    ProofSurvives(c.channels[socket].arrived, event, c.channels[socket].scope.userId);
    DeliveryLeaves(Arrived(c, socket, event), socket, event);
    hide DeliverEvent, Core, Settled;
  }

  // ---------------------------------------------------------------------------------------------
  // Steps
  // ---------------------------------------------------------------------------------------------

  lemma LeavingRises(c: Client, r: Client)
    requires Leaves(c, r)
    ensures Rises(c, r)
  {
  }

  lemma SettlementsRise(c: Client, step: Step)
    requires Valid(c)
    requires step.TicketRejectedStep? || step.TimerStep? || step.SocketErrorStep? || step.SocketClosedStep?
             || step.UnexpectedResponseStep? || step.TicketGrantedStep? || step.MessageStep?
    ensures Rises(c, Apply(c, step))
  {
    hide Valid, TicketRejected, TicketGranted, TimerFired, SocketError, SocketClosed, UnexpectedResponse, HandleMessage, Rises;
    match step {
      case TicketRejectedStep(epoch, mismatch, retryable) => TicketsRise(c, epoch, mismatch, retryable, false);
      case TicketGrantedStep(epoch, created) => TicketsRise(c, epoch, false, false, created);
      case TimerStep => TicketsRise(c, 0, false, false, false);
      case SocketErrorStep(socket) => SocketsRise(c, socket, 0, false, 0);
      case SocketClosedStep(socket, code) => SocketsRise(c, socket, code, false, 0);
      case UnexpectedResponseStep(socket, mismatch, status) => SocketsRise(c, socket, 0, mismatch, status);
      case MessageStep(socket, frame) =>
        FrameLeaves(c, socket, frame);
        LeavingRises(c, HandleMessage(c, socket, frame));
    }
  }

  lemma HostRises(c: Client, h: Host)
    ensures Rises(c, c.(host := h))
  {
  }

  lemma FailureRises(c: Client, r: Client, h: Host, failure: TransportFailure)
    requires RealtimeOutcomes.Fails(c, r, h, failure)
    ensures Rises(c, r)
  {
    OverOrWaitsRises(c, r);
    hide Rises, RealtimeOutcomes.Over, RealtimeOutcomes.Waits;
  }

  lemma RefusalRises(c: Client, r: Client, h: Host)
    requires RealtimeOutcomes.Refused(c, r, h)
    ensures Rises(c, r)
  {
    OverOrWaitsRises(c, r);
    hide RealtimeOutcomes.Over;
  }

  lemma TicketsRise(c: Client, epoch: nat, mismatch: bool, retryable: bool, created: bool)
    requires Valid(c)
    ensures Rises(c, TicketRejected(c, epoch, mismatch, retryable)) && Rises(c, TicketGranted(c, epoch, created))
    ensures Rises(c, TimerFired(c))
  {
    hide Valid, TicketRejected, TicketGranted, TimerFired, Rises, RealtimeOutcomes.Waits, RealtimeOutcomes.Fails,
         RealtimeOutcomes.Refused;
    RejectionRises(c, epoch, mismatch, retryable);
    GrantRises(c, epoch, created);
    TimerRises(c);
  }

  lemma RejectionRises(c: Client, epoch: nat, mismatch: bool, retryable: bool)
    requires Valid(c)
    ensures Rises(c, TicketRejected(c, epoch, mismatch, retryable))
  {
    hide Valid, TicketRejected, Rises, RealtimeOutcomes.Fails, RealtimeOutcomes.Refused;
    RealtimeOutcomes.TicketRejectedMeans(c, epoch, mismatch, retryable);
    var r := TicketRejected(c, epoch, mismatch, retryable);
    if c.ticketEpoch != Some(epoch) { HostRises(c, r.host); }
    else if mismatch { RefusalRises(c, r, c.host); }
    else { FailureRises(c, r, c.host, TicketFailure(retryable)); }
  }

  lemma GrantRises(c: Client, epoch: nat, created: bool)
    requires Valid(c)
    ensures Rises(c, TicketGranted(c, epoch, created))
  {
    hide Valid, TicketGranted, RealtimeOutcomes.Waits;
    RealtimeOutcomes.TicketGrantedMeans(c, epoch, created);
    OverOrWaitsRises(c, TicketGranted(c, epoch, created));
  }

  lemma TimerRises(c: Client)
    requires Valid(c)
    ensures Rises(c, TimerFired(c))
  {
    hide Valid, TimerFired;
    RealtimeOutcomes.TimerMeans(c);
  }

  lemma SocketsRise(c: Client, socket: nat, code: nat, mismatch: bool, status: nat)
    requires Valid(c)
    ensures Rises(c, SocketError(c, socket)) && Rises(c, SocketClosed(c, socket, code))
    ensures Rises(c, UnexpectedResponse(c, socket, mismatch, status))
  {
    hide Valid, SocketError, SocketClosed, UnexpectedResponse, Rises, RealtimeOutcomes.Waits, RealtimeOutcomes.Fails,
         RealtimeOutcomes.Refused;
    HostRises(c, c.host);
    OverOrWaitsRises(c, SocketError(c, socket));
    RealtimeOutcomes.SocketErrorMeans(c, socket);
    RealtimeOutcomes.SocketClosedMeans(c, socket, code);
    RealtimeOutcomes.UnexpectedResponseMeans(c, socket, mismatch, status);
    if IsActive(c, socket) {
      FailureRises(c, SocketClosed(c, socket, code), c.host, ClosedFailure(code));
      if mismatch { RefusalRises(c, UnexpectedResponse(c, socket, mismatch, status), c.host.OnDrop(ProtocolMismatch)); }
      else { FailureRises(c, UnexpectedResponse(c, socket, mismatch, status), c.host, HandshakeFailure(status)); }
    }
  }

  lemma OverOrWaitsRises(c: Client, r: Client)
    ensures RealtimeOutcomes.Over(c, r) ==> Rises(c, r)
    ensures forall h: Host :: RealtimeOutcomes.Waits(c, r, h) ==> Rises(c, r)
  {
  }

  lemma BeginningRises(c: Client, r: Client, after: Position, scope: Scope)
    requires RealtimeOutcomes.Begins(c, r, after, scope)
    requires c.scope == Some(scope) || c.lastScopeEpoch < scope.epoch <= r.lastScopeEpoch
    ensures Rises(c, r)
  {
  }

  lemma ActivationRises(c: Client, scope: Scope)
    requires Valid(c)
    ensures Rises(c, Activate(c, scope).0)
  {
    RealtimeOutcomes.ActivateMeans(c, scope);
    var r := Activate(c, scope).0;
    hide Valid, Activate, RealtimeOutcomes.Begins;
    if c.scope == Some(scope) && c.stopped && c.recovery.None? {
      BeginningRises(c.(ready := true, windowless := false), r, c.cursor.value, scope);
    }
  }

  lemma RestartRises(c: Client, after: Position, userId: EntityId, workspaceId: EntityId)
    requires Valid(c)
    ensures Rises(c, Prepare(c, after, userId, workspaceId).0)
    ensures Rises(c, PrepareAndActivate(c, after, userId, workspaceId).0)
  {
    RealtimeOutcomes.PrepareMeans(c, after, userId, workspaceId);
    var (p, scope) := Prepare(c, after, userId, workspaceId);
    if scope.Some? {
      ActivationRises(p, scope.value);
      RisesOn(c, p, Activate(p, scope.value).0);
    }
    hide Core, Settled, Activate, Prepare;
  }

  lemma StartRises(c: Client, after: Position, userId: EntityId, workspaceId: EntityId)
    requires Valid(c)
    ensures Rises(c, Start(c, after, userId, workspaceId).0)
  {
    hide Valid, Activate, Prepare, PrepareAndActivate, BeginEpoch, Acknowledge, Rises;
    if PreservesRecovery(c, after, userId, workspaceId) {
      if c.scope.None? {
        RestartRises(c, after, userId, workspaceId);
      } else {
        FlagsRise(c);
        ActivationRises(c.(ready := true, windowless := false), c.scope.value);
        RisesOn(c, c.(ready := true, windowless := false), Start(c, after, userId, workspaceId).0);
      }
    } else {
      FlagsRise(c);
      var c1 := if c.recovery.Some? && c.recovery.value.userId == userId && c.recovery.value.workspaceId == workspaceId then
        c.(recovery := None) else c;
      if c1.scope.Some? && SameUser(c1.scope.value, userId, workspaceId) && !c1.stopped {
        RunningStartRises(c, after, userId, workspaceId);
      } else {
        RestartRises(c1, after, userId, workspaceId);
        RisesOn(c, c1, Start(c, after, userId, workspaceId).0);
      }
    }
  }

  lemma FlagsRise(c: Client)
    requires Valid(c)
    ensures Rises(c, c)
    ensures Valid(c.(ready := true, windowless := false)) && Rises(c, c.(ready := true, windowless := false))
    ensures Valid(c.(recovery := None)) && Rises(c, c.(recovery := None))
  {
  }

  lemma RunningStartRises(c: Client, after: Position, userId: EntityId, workspaceId: EntityId)
    requires Valid(c) && c.scope.Some? && SameUser(c.scope.value, userId, workspaceId) && !c.stopped
    ensures Rises(c, Start(c, after, userId, workspaceId).0)
  {
    RealtimeOutcomes.StartMeans(c, after, userId, workspaceId);
    var r := Start(c, after, userId, workspaceId).0;
    if c.recovery.Some? { LatchIsIdle(c); }
    hide Valid, Start, Prepare, Activate, RealtimeOutcomes.Begins;
    if c.windowless { BeginningRises(c.(ready := true, windowless := false), r, after, c.scope.value); }
  }

  lemma ObservingRises(c: Client, userId: EntityId, workspaceId: EntityId)
    requires Valid(c)
    ensures Rises(c, ObserveOnly(c, userId, workspaceId))
  {
    hide Valid, Prepare, ObserveFrom, ObserveAfresh, Rises;
    FlagsRise(c);
    ObservationRises(c);
    if c.cursor.Some? {
      var c1 := Unlatched(c);
      if c.recovery.Some? { LatchIsIdle(c); }
      if c.scope.Some? { FreshRises(c1, c.scope.value); } else { AfreshRises(c1, userId, workspaceId); }
      ObservationRises(c1);
      RisesOn(c, c1, ObserveOnly(c, userId, workspaceId));
    }
  }

  lemma ObservationRises(c: Client)
    requires Valid(c)
    ensures Rises(c, Flagged(c, false, true)) && Rises(c, Unlatched(c))
  {
    hide Core, Settled;
  }

  lemma FreshRises(c: Client, scope: Scope)
    requires Valid(c) && c.cursor.Some? && c.recovery.None? && c.scope == Some(scope)
    ensures Rises(c, ObserveFrom(c, scope))
  {
    RealtimeOutcomes.BeginningMeans(Flagged(c, false, true), c.cursor.value, scope);
    hide Core, Settled, BeginEpoch;
  }

  lemma AfreshRises(c: Client, userId: EntityId, workspaceId: EntityId)
    requires Valid(c) && c.cursor.Some? && c.recovery.None?
    ensures Rises(c, ObserveAfresh(c, userId, workspaceId))
  {
    RestartRises(c, c.cursor.value, userId, workspaceId);
    var (p, scope) := Prepare(c, c.cursor.value, userId, workspaceId);
    hide Core, Settled, Prepare, Rises, ObserveFrom;
    if scope.Some? {
      FreshRises(p, scope.value);
      RisesOn(c, p, ObserveFrom(p, scope.value));
    }
  }

  lemma StepRises(c: Client, step: Step)
    requires Valid(c)
    ensures Rises(c, Apply(c, step))
  {
    hide Valid, Acknowledge, Activate, Start, ObserveOnly, AcknowledgeScoped, Prepare;
    match step
    case PrepareStep(after, u, w) => RestartRises(c, after, u, w);
    case ActivateStep(scope) => ActivationRises(c, scope);
    case StartStep(after, u, w) => StartRises(c, after, u, w);
    case ConsumerUnavailableStep =>
    case ObserveOnlyStep(u, w) => ObservingRises(c, u, w);
    case AcknowledgeStep(position) => AcknowledgingRises(c, Scope("", "", 0), position);
    case AcknowledgeScopedStep(scope, position) => AcknowledgingRises(c, scope, position);
    case StopStep(_) =>
    case ResetStep =>
    case _ => SettlementsRise(c, step);
  }

  lemma AcknowledgingRises(c: Client, scope: Scope, position: Position)
    requires Valid(c)
    ensures Rises(c, Acknowledge(c, position)) && Rises(c, AcknowledgeScoped(c, scope, position))
  {
    hide Core, Settled;
  }

  lemma {:induction false} RunRises(c: Client, steps: seq<Step>)
    requires Valid(c)
    ensures Rises(c, Run(c, steps))
    decreases |steps|
  {
    hide Valid, Apply;
    if steps == [] {
      FlagsRise(c);
    } else {
      var before := Run(c, steps[..|steps| - 1]);
      RunRises(c, steps[..|steps| - 1]);
      StepRises(before, steps[|steps| - 1]);
      RisesOn(c, before, Run(c, steps));
    }
  }

  // ---------------------------------------------------------------------------------------------
  // Inertness
  // ---------------------------------------------------------------------------------------------

  lemma {:induction false} OpenedBelow(host: Host, steps: seq<Step>)
    ensures var c := Run(Initial(host), steps); c.scope.Some? ==> c.scope.value.epoch <= c.lastScopeEpoch
    decreases |steps|
  {
    if steps != [] {
      var before := Run(Initial(host), steps[..|steps| - 1]);
      OpenedBelow(host, steps[..|steps| - 1]);
      StepRises(before, steps[|steps| - 1]);
    }
    hide Valid, Apply;
  }

  /**
    A scope that was left is never current again, so every later acknowledgement, activation or stop in its name is
    dropped without effect.
   */
  lemma LeftScopeIsStale(host: Host, before: seq<Step>, step: Step, steps: seq<Step>, scope: Scope)
    requires
      var c := Run(Initial(host), before);
      c.scope == Some(scope) && Apply(c, step).scope != Some(scope)
    ensures
      var r := Run(Apply(Run(Initial(host), before), step), steps);
      && r.scope != Some(scope)
      && Apply(r, ActivateStep(scope)) == r.(host := r.host.OnDrop(StaleActivation))
      && Apply(r, StopStep(Some(scope))) == r.(host := r.host.OnDrop(StaleControl))
      && forall p :: Apply(r, AcknowledgeScopedStep(scope, p)) == r.(host := r.host.OnDrop(StaleControl))
  {
    var c := Run(Initial(host), before);
    var d := Apply(c, step);
    OpenedBelow(host, before);
    StepRises(c, step);
    RunRises(d, steps);
    var r := Run(d, steps);
    RealtimeOutcomes.ActivateMeans(r, scope);
    RealtimeOutcomes.StopMeans(r, Some(scope));
    forall p ensures Apply(r, AcknowledgeScopedStep(scope, p)) == r.(host := r.host.OnDrop(StaleControl)) {
      RealtimeOutcomes.StaleAcknowledgement(r, scope, p);
    }
    hide Valid, Apply;
  }

  /** A socket that is not live never is again, so nothing it reports has any effect. */
  lemma DeadSocketIsInert(c: Client, steps: seq<Step>, socket: nat, frame: Frame, code: nat, mismatch: bool, status: nat)
    requires Valid(c) && socket < |c.channels| && !IsActive(c, socket)
    ensures
      var r := Run(c, steps);
      && !IsActive(r, socket)
      && Apply(r, MessageStep(socket, frame)) == r.(host := r.host.OnDrop(StaleSocket))
      && Apply(r, SocketErrorStep(socket)) == r && Apply(r, SocketClosedStep(socket, code)) == r
      && Apply(r, UnexpectedResponseStep(socket, mismatch, status)) == r
  {
    RunRises(c, steps);
    var r := Run(c, steps);
    if c.connection.Some? { ConnectedIsActive(c); }
    hide Valid, Apply;
    UnknownSocket(r, socket, frame, code, mismatch, status);
  }

  lemma UnknownSocket(c: Client, socket: nat, frame: Frame, code: nat, mismatch: bool, status: nat)
    requires Valid(c) && !IsActive(c, socket)
    ensures Apply(c, MessageStep(socket, frame)) == c.(host := c.host.OnDrop(StaleSocket))
    ensures Apply(c, SocketErrorStep(socket)) == c && Apply(c, SocketClosedStep(socket, code)) == c
    ensures Apply(c, UnexpectedResponseStep(socket, mismatch, status)) == c
  {
    hide Core, Settled, HandleEvent, RejectInvalidEvent, FailIncompatible, AskFailure, Disconnected;
  }

  /** Leaving a scope, or stopping, ends the generation: its ticket is dropped whenever it settles, and its timer is gone. */
  lemma LeftGenerationIsOver(c: Client, step: Step, steps: seq<Step>, created: bool, mismatch: bool, retryable: bool)
    requires Valid(c)
    requires Apply(c, step).scope != c.scope || Apply(c, step).stopped != c.stopped
    ensures
      var r := Run(Apply(c, step), steps);
      && r.epoch > c.epoch && r.timer != Some(c.epoch)
      && Apply(r, TicketGrantedStep(c.epoch, created)) == r.(host := r.host.OnDrop(LateTicket))
      && Apply(r, TicketRejectedStep(c.epoch, mismatch, retryable)) == r.(host := r.host.OnDrop(LateTicket))
  {
    var d := Apply(c, step);
    StepRises(c, step);
    RunRises(d, steps);
    var r := Run(d, steps);
    CurrentActivities(r);
    RealtimeOutcomes.TicketGrantedMeans(r, c.epoch, created);
    RealtimeOutcomes.TicketRejectedMeans(r, c.epoch, mismatch, retryable);
    hide Valid, Apply;
  }

  lemma CurrentActivities(c: Client)
    requires Valid(c)
    ensures (c.ticketEpoch.Some? ==> c.ticketEpoch.value == c.epoch) && (c.timer.Some? ==> c.timer.value == c.epoch)
  {
  }
}
