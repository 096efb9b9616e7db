/**
  What each received frame ends in (packages/api-client/src/realtime.ts:602-760): where it is rejected, held, handed
  over, recorded as unacknowledged, and what the consumer's answer does to the connection.
 */
module RealtimeFrames {
  import opened Wrappers
  import opened SyncPositions
  import opened Consumer
  import opened Realtime
  import opened RealtimeOutcomes
  import RealtimeLatch

  // ---------------------------------------------------------------------------------------------
  // Delivery
  // ---------------------------------------------------------------------------------------------

  predicate Expected(c: Client, socket: nat, event: Event)
  {
    && IsActive(c, socket) && c.scope.Some? && c.cursor.Some?
    && event.workspaceId == c.scope.value.workspaceId && event.position.epoch == c.cursor.value.epoch
    && (event.kind.Connected? ==> event.kind.userId == c.scope.value.userId)
  }

  /** The event is an unacknowledged delivery if it is a change above the position. */
  function Outstanding(c: Client, event: Event): Client
    requires c.cursor.Some?
  {
    if event.kind.Change? && event.position.sequence > c.cursor.value.sequence then
      c.(pending := c.pending + [Delivery(event.position, event.bytes)], pendingBytes := c.pendingBytes + event.bytes)
    else c
  }

  predicate Fits(c: Client)
  {
    |c.pending| <= REPLAY_MAX_EVENTS && c.pendingBytes <= REPLAY_MAX_BYTES
  }

  function Given(c: Client, socket: nat, event: Event): Client
    requires socket < |c.channels|
  {
    c.(channels := c.channels[socket := c.channels[socket].(delivered := c.channels[socket].delivered + [event])])
  }

  function Came(c: Client, socket: nat, event: Event): Client
    requires socket < |c.channels|
  {
    c.(channels := c.channels[socket := c.channels[socket].(arrived := c.channels[socket].arrived + [event])])
  }

  /** What the answer of the consumer does. */
  predicate Answered(d: Client, r: Client, answer: (Host, Reply))
  {
    if answer.1.resets then Over(d, r)
    else match answer.1.verdict
      case Yes => r == d.(host := answer.0)
      case No => Pauses(d, r, answer.0)
      case Raised => Waits(d, r, answer.0)
  }

  lemma PausingMeans(c: Client, d: Client, socket: nat)
    requires Core(c) && IsActive(c, socket) && d == c.(host := d.host)
    ensures Pauses(c, PauseForRenderer(d, socket), d.host)
  {
    hide Channels, LiveSocket, Window, Latch;
  }

  lemma RetiringMeans(c: Client, d: Client, socket: nat)
    requires Core(c) && IsActive(c, socket) && d == c.(host := d.host)
    ensures Waits(c, RetireConnection(d, socket), d.host)
  {
    WaitingMeans(c, d.(connection := None));
    hide Channels, LiveSocket, Window, Latch, ScheduleReconnect;
  }

  lemma OfferedMeans(c: Client, socket: nat, event: Event)
    requires Core(c) && IsActive(c, socket) && c.ready && NextInOrder(c, socket, event) && !event.kind.ResyncRequired?
    ensures Answered(Given(c, socket, event), Offer(c, socket, event).0, c.host.OnEvent(event))
    ensures Offer(c, socket, event).1 == c.host.OnEvent(event).1.verdict.Yes?
  {
    DeliveredStaysPrefix(c.channels[socket], event);
    var d := Given(c, socket, event);
    var (h, reply) := c.host.OnEvent(event);
    if !reply.resets {
      PausingMeans(d, d.(host := h), socket);
      RetiringMeans(d, d.(host := h), socket);
    }
    hide Channels, LiveSocket, Window, Latch, PauseForRenderer, RetireConnection, Pauses, Waits;
  }

  /** One delivery to a renderer: recorded first, then offered; a renderer that is not ready pauses the client. */
  lemma DeliveredMeans(c: Client, socket: nat, event: Event)
    requires Core(c) && Expected(c, socket, event) && NextInOrder(c, socket, event) && !event.kind.ResyncRequired?
    requires !c.windowless && Fits(Outstanding(c, event))
    ensures
      var d := Outstanding(c, event);
      var r := DeliverEvent(c, socket, event);
      && (if !c.ready then Pauses(d, r.0, c.host) else Answered(Given(d, socket, event), r.0, c.host.OnEvent(event)))
      && r.1 == (c.ready && c.host.OnEvent(event).1.verdict.Yes?)
  {
    var d := Tracked(c, event);
    assert d == Outstanding(c, event);
    if c.ready { OfferedMeans(d, socket, event); } else { PausingMeans(d, d, socket); }
    hide Core, NextInOrder, Offer, PauseForRenderer, Pauses, Answered;
  }

  /** An observer sees the event whatever it answers, and nothing is recorded as unacknowledged. */
  lemma ObservedMeans(c: Client, socket: nat, event: Event)
    requires Core(c) && Expected(c, socket, event) && NextInOrder(c, socket, event) && !event.kind.ResyncRequired?
    requires c.windowless
    ensures
      var (h, reply) := c.host.OnWindowlessEvent(event);
      var d := Given(c, socket, event);
      var r := DeliverEvent(c, socket, event);
      && (if reply.resets then Over(d, r.0) else r.0 == d.(host := h))
      && r.1 == !reply.resets
  {
    hide Channels, LiveSocket, Window, Latch;
  }

  // ---------------------------------------------------------------------------------------------
  // Frames
  // ---------------------------------------------------------------------------------------------

  /** A frame of a socket that is not the live one changes nothing. */
  lemma StaleFrame(c: Client, socket: nat, frame: Frame)
    requires Valid(c) && !IsActive(c, socket)
    ensures Apply(c, MessageStep(socket, frame)) == c.(host := c.host.OnDrop(StaleSocket))
  {
    hide Core, Settled;
  }

  /** Whose frame it is: another workspace or user, or an unknown type, ends the generation for good. */
  function Foreign(c: Client, frame: Frame): Option<DropReason>
    requires c.scope.Some?
  {
    match frame
    case Undecodable => None
    case BadEnvelope => None
    case Activity(w) => if w != c.scope.value.workspaceId then Some(WrongWorkspace) else None
    case BadPayload(w, knownType) =>
      if w != c.scope.value.workspaceId then Some(WrongWorkspace) else if knownType then None else Some(InvalidEnvelope)
    case Product(event, _) =>
      if event.workspaceId != c.scope.value.workspaceId then Some(WrongWorkspace)
      else if event.kind.Connected? && event.kind.userId != c.scope.value.userId then Some(WrongUser)
      else None
  }

  /** A frame that breaks the protocol of its own workspace: the connection is given up, and tried again. */
  predicate Invalid(c: Client, frame: Frame)
    requires c.connection.Some? && c.cursor.Some?
  {
    match frame
    case Activity(_) => !c.connection.value.handshaken
    case Product(event, _) =>
      event.position.epoch != c.cursor.value.epoch || (event.kind.Connected? && c.connection.value.handshaken)
    case _ => true
  }

  lemma ActiveMeans(c: Client, socket: nat)
    requires Valid(c) && IsActive(c, socket)
    ensures c.connection.Some? && c.cursor.Some? && c.scope == Some(c.connection.value.scope)
  {
  }

  lemma SecondHandshake(c: Client, socket: nat, event: Event, frameBytes: nat)
    requires Valid(c) && Expected(c, socket, event) && event.kind.Connected? && c.connection.value.handshaken
    ensures HandleEvent(c, socket, event, frameBytes) == RejectInvalidEvent(c, socket)
  {
    hide Core, Settled, RejectInvalidEvent;
  }

  lemma FrameMeans(c: Client, socket: nat, frame: Frame)
    requires Valid(c) && IsActive(c, socket)
    ensures
      var r := Apply(c, MessageStep(socket, frame));
      var foreign := Foreign(c, frame);
      && (foreign.Some? ==> Refused(c, r, c.host.OnDrop(foreign.value)))
      && (foreign.None? && Invalid(c, frame) ==> Fails(c, r, c.host.OnDrop(InvalidEnvelope), InvalidFrame))
      && (foreign.None? && !Invalid(c, frame) && frame.Activity? ==> r == c)
  {
    hide Valid, RejectInvalidEvent, FailIncompatible, HandleEvent, Refused, Fails, IsActive;
    ActiveMeans(c, socket);
    RejectedFrameMeans(c, socket);
    FailIncompatibleMeans(c, socket, WrongWorkspace);
    FailIncompatibleMeans(c, socket, WrongUser);
    FailIncompatibleMeans(c, socket, InvalidEnvelope);
    if frame.Product? && Foreign(c, frame).None? && Invalid(c, frame) && frame.event.position.epoch == c.cursor.value.epoch {
      SecondHandshake(c, socket, frame.event, frame.frameBytes);
    }
  }

  lemma Stored(c: Client, socket: nat, event: Event)
    requires Valid(c) && Expected(c, socket, event) && !event.kind.ResyncRequired?
    ensures Arrived(c, socket, event) == Came(c, socket, event)
  {
  }

  /**
    What outgrows a limit: the control with the client's own position is latched and offered to a renderer that is
    ready, the scope stays attached, and going offline is announced once.
   */
  lemma OverflowMeans(c: Client, socket: nat)
    requires Core(c) && IsActive(c, socket)
    ensures
      var r := RequireRecovery(c, socket);
      && c.scope.Some? && c.cursor.Some?
      && var control := Event(ResyncRequired, c.cursor.value, c.scope.value.workspaceId, 0);
      var (h, reply) := if c.ready then c.host.OnEvent(control) else (c.host, Reply(No, false));
      var (g, again) := h.OnState(Offline);
      if reply.resets then Over(c, r) && r.host == g
      else if again.resets then Over(c, r)
      else
        r == c.(host := g, epoch := c.epoch + 1, stopped := true, connection := None, ready := reply.verdict.Yes?,
                recovery := Some(Recovery(c.scope.value.userId, c.scope.value.workspaceId, c.cursor.value, control)))
  {
    hide Channels, Window;
  }

  /** Before the handshake a change is held, and nobody sees it. */
  lemma HeldMeans(c: Client, socket: nat, event: Event, frameBytes: nat)
    requires Valid(c) && Expected(c, socket, event) && !c.connection.value.handshaken && event.kind.Change?
    requires |c.connection.value.replay| < REPLAY_MAX_EVENTS
    requires SumFrames(c.connection.value.replay) + frameBytes <= REPLAY_MAX_BYTES
    ensures
      var k := c.connection.value;
      Apply(c, MessageStep(socket, Product(event, frameBytes)))
      == Came(c, socket, event).(connection := Some(k.(
           replay := k.replay + [Buffered(event, frameBytes)], replayBytes := k.replayBytes + frameBytes)))
  {
    Stored(c, socket, event);
  }

  lemma LiveFrame(c: Client, socket: nat, event: Event)
    requires Valid(c) && Expected(c, socket, event) && c.connection.value.handshaken && event.kind.Change?
    ensures
      var d := Came(c, socket, event);
      Core(d) && NextInOrder(d, socket, event) && Expected(d, socket, event)
  {
    ProofSurvives(c.channels[socket].arrived, event, c.channels[socket].scope.userId);
    assert c.channels[socket].delivered == c.channels[socket].arrived;
    var d := Arrived(c, socket, event);
  }

  /** Behind the handshake a change that fits the window is recorded and offered, or shown to the observer. */
  lemma LiveFrameMeans(c: Client, socket: nat, event: Event, frameBytes: nat)
    requires Valid(c) && Expected(c, socket, event) && c.connection.value.handshaken && event.kind.Change?
    requires c.windowless || Fits(Outstanding(c, event))
    ensures
      var r := Apply(c, MessageStep(socket, Product(event, frameBytes)));
      var seen := Came(c, socket, event);
      if c.windowless then
        var (h, reply) := c.host.OnWindowlessEvent(event);
        if reply.resets then Over(Given(seen, socket, event), r) else r == Given(seen, socket, event).(host := h)
      else if !c.ready then Pauses(Outstanding(seen, event), r, c.host)
      else Answered(Given(Outstanding(seen, event), socket, event), r, c.host.OnEvent(event))
  {
    hide Valid, Core, DeliverEvent, Answered, Pauses, Arrived, HandleMessage, Over, NextInOrder, Fits;
    LiveFrame(c, socket, event);
    Stored(c, socket, event);
    SameWindow(c, socket, event);
    var d := Came(c, socket, event);
    if c.windowless { ObservedMeans(d, socket, event); } else { DeliveredMeans(d, socket, event); }
    RealtimeLatch.LiveFrame(c, socket, event, frameBytes);
  }

  lemma SameWindow(c: Client, socket: nat, event: Event)
    requires Valid(c) && Expected(c, socket, event)
    ensures socket < |c.channels|
    ensures Fits(Outstanding(Came(c, socket, event), event)) == Fits(Outstanding(c, event))
  {
  }

  // ---------------------------------------------------------------------------------------------
  // Repair signals
  // ---------------------------------------------------------------------------------------------

  lemma SignalMeans(c: Client, socket: nat, event: Event)
    requires Core(c) && Expected(c, socket, event) && event.kind.ResyncRequired? && !c.windowless
    ensures
      var r := DeliverEvent(c, socket, event).0;
      if !c.ready then Pauses(c, r, c.host) else Answered(c, r, c.host.OnEvent(event))
  {
    if !c.ready {
      PausingMeans(c, c, socket);
    } else {
      var (h, reply) := c.host.OnEvent(event);
      assert HandedOver(c, socket, event) == c by { assert c.channels[socket := c.channels[socket]] == c.channels; }
      if !reply.resets {
        PausingMeans(c, c.(host := h), socket);
        RetiringMeans(c, c.(host := h), socket);
      }
    }
    hide Channels, LiveSocket, Window, Latch, PauseForRenderer, RetireConnection, Pauses, Waits;
  }

  lemma ResyncMeans(c: Client, socket: nat, event: Event, frameBytes: nat)
    requires Valid(c) && Expected(c, socket, event) && event.kind.ResyncRequired? && !c.windowless
    ensures
      var r := Apply(c, MessageStep(socket, Product(event, frameBytes)));
      if !c.ready then Pauses(c, r, c.host) else Answered(c, r, c.host.OnEvent(event))
  {
    SignalMeans(c, socket, event);
    hide Core, Settled, DeliverEvent, Answered, Pauses;
  }

  /** An observing client that is told to resynchronize stops behind a latch, without a scope. */
  predicate Retains(c: Client, r: Client, event: Event, h: Host)
    requires c.scope.Some? && c.cursor.Some?
  {
    var (after, reply) := h.OnState(Offline);
    if reply.resets then Over(c, r)
    else r == c.(host := after, epoch := c.epoch + 1, stopped := true, scope := None, connection := None,
                 recovery := Some(Recovery(c.scope.value.userId, c.scope.value.workspaceId, c.cursor.value, event)))
  }

  lemma WindowlessResyncMeans(c: Client, socket: nat, event: Event, frameBytes: nat)
    requires Valid(c) && Expected(c, socket, event) && event.kind.ResyncRequired? && c.windowless
    ensures
      var r := Apply(c, MessageStep(socket, Product(event, frameBytes)));
      var (h, reply) := c.host.OnWindowlessEvent(event);
      if reply.resets then Over(c, r) else Retains(c, r, event, h)
  {
    hide Channels, LiveSocket, Window, Latch;
  }

  // ---------------------------------------------------------------------------------------------
  // The handshake before an accepting consumer
  // ---------------------------------------------------------------------------------------------

  /** The consumer accepts whatever it is offered. */
  predicate Accepts(c: Client)
  {
    c.host == Renderer([]) && (c.ready || c.windowless)
  }

  function OutstandingAll(c: Client, events: seq<Event>): (r: Client)
    requires c.cursor.Some?
    ensures r == c.(pending := r.pending, pendingBytes := r.pendingBytes)
    ensures |c.pending| <= |r.pending| && c.pendingBytes <= r.pendingBytes
    decreases |events|
  {
    if events == [] || c.windowless then c else OutstandingAll(Outstanding(c, events[0]), events[1..])
  }

  lemma AcceptedMeans(c: Client, socket: nat, event: Event)
    requires Core(c) && Expected(c, socket, event) && NextInOrder(c, socket, event) && !event.kind.ResyncRequired? && Accepts(c)
    ensures
      var d := if c.windowless then c else Outstanding(c, event);
      var r := DeliverEvent(c, socket, event);
      if Fits(d) then r == (Given(d, socket, event), true) else !r.1 && r.0.recovery.Some?
  {
    if c.windowless {
      ObservedMeans(c, socket, event);
    } else if Fits(Outstanding(c, event)) {
      DeliveredMeans(c, socket, event);
    } else {
      RealtimeLatch.RequiredLatchesIff(c, socket);
    }
    hide NextInOrder, Observe, Offer, RequireRecovery, Tracked, Channels, LiveSocket, Latch;
  }

  lemma {:induction false} ReplayAccepted(c: Client, socket: nat, replay: seq<Event>, handshake: Event)
    requires Core(c) && AwaitsReplay(c, socket, replay, handshake) && Accepts(c)
    requires forall e :: e in replay ==> e.kind.Change?
    ensures
      var d := OutstandingAll(c, replay);
      var r := DeliverReplay(c, socket, replay, handshake);
      if Fits(d) then r == (d.(channels := CaughtUp(c.channels, socket, replay)), true) else !r.1 && r.0.recovery.Some?
    decreases |replay|
  {
    hide Core, DeliverEvent, AwaitsReplay, CaughtUp, Fits, NextInOrder, Outstanding;
    if replay == [] {
      ReplayDone(c, socket, replay, handshake);
    } else {
      ReplayHead(c, socket, replay, handshake);
      ReplayExpected(c, socket, replay, handshake);
      AcceptedMeans(c, socket, replay[0]);
      var d := if c.windowless then c else Outstanding(c, replay[0]);
      OutstandingShape(c, replay[0]);
      OutstandingHead(c, replay);
      if Fits(d) {
        var c1 := Given(d, socket, replay[0]);
        GivenOn(c, d, socket, replay, handshake);
        ReplayAccepted(c1, socket, replay[1..], handshake);
        OutstandingElsewhere(d, c1.channels, replay[1..]);
        SameFits(OutstandingAll(c1, replay[1..]), OutstandingAll(d, replay[1..]));
        assert DeliverReplay(c, socket, replay, handshake) == DeliverReplay(c1, socket, replay[1..], handshake);
      } else {
        FitsNot(d, OutstandingAll(d, replay[1..]));
        assert DeliverReplay(c, socket, replay, handshake) == (DeliverEvent(c, socket, replay[0]).0, false);
      }
    }
  }

  lemma OutstandingHead(c: Client, replay: seq<Event>)
    requires c.cursor.Some? && replay != []
    ensures
      var d := if c.windowless then c else Outstanding(c, replay[0]);
      OutstandingAll(c, replay) == OutstandingAll(d, replay[1..])
  {
    var d := if c.windowless then c else Outstanding(c, replay[0]);
    OutstandingShape(c, replay[0]);
    assert d.windowless == c.windowless;
  }

  lemma OutstandingShape(c: Client, event: Event)
    requires c.cursor.Some?
    ensures var d := Outstanding(c, event); d == c.(pending := d.pending, pendingBytes := d.pendingBytes)
  {
  }

  lemma SameFits(c: Client, d: Client)
    requires c.pending == d.pending && c.pendingBytes == d.pendingBytes
    ensures Fits(c) == Fits(d)
  {
  }

  lemma FitsNot(d: Client, r: Client)
    requires !Fits(d) && |d.pending| <= |r.pending| && d.pendingBytes <= r.pendingBytes
    ensures !Fits(r)
  {
  }

  lemma ReplayDone(c: Client, socket: nat, replay: seq<Event>, handshake: Event)
    requires Core(c) && AwaitsReplay(c, socket, replay, handshake) && replay == []
    ensures socket < |c.channels| && CaughtUp(c.channels, socket, replay) == c.channels && Fits(c)
  {
    assert c.channels[socket].(delivered := c.channels[socket].delivered + replay) == c.channels[socket];
  }

  lemma ReplayExpected(c: Client, socket: nat, replay: seq<Event>, handshake: Event)
    requires Core(c) && AwaitsReplay(c, socket, replay, handshake) && replay != [] && replay[0].kind.Change?
    ensures IsActive(c, socket) && socket < |c.channels| && Expected(c, socket, replay[0])
  {
    var ch := c.channels[socket];
    assert ChannelOk(ch);
    assert ch.arrived[|ch.delivered|] == replay[0];
    assert replay[0] in ch.arrived;
  }

  lemma GivenOn(c: Client, d: Client, socket: nat, replay: seq<Event>, handshake: Event)
    requires Core(c) && AwaitsReplay(c, socket, replay, handshake) && replay != [] && replay[0].kind.Change? && c.cursor.Some?
    requires d == if c.windowless then c else Outstanding(c, replay[0])
    requires Expected(c, socket, replay[0]) && NextInOrder(c, socket, replay[0]) && Accepts(c) && Fits(d)
    ensures socket < |c.channels|
    ensures
      var c1 := Given(d, socket, replay[0]);
      && Core(c1) && AwaitsReplay(c1, socket, replay[1..], handshake) && Accepts(c1) && IsActive(c1, socket)
      && CaughtUp(c1.channels, socket, replay[1..]) == CaughtUp(c.channels, socket, replay)
      && DeliverEvent(c, socket, replay[0]) == (c1, true)
  {
    AcceptedMeans(c, socket, replay[0]);
    CaughtUpStep(c.channels, socket, replay);
    ReplayHead(c, socket, replay, handshake);
    hide Channels, LiveSocket, Window, Latch, AwaitsReplay, CaughtUp, NextInOrder, DeliverEvent;
  }

  lemma {:induction false} OutstandingElsewhere(d: Client, channels: seq<Channel>, events: seq<Event>)
    requires d.cursor.Some?
    ensures OutstandingAll(d.(channels := channels), events) == OutstandingAll(d, events).(channels := channels)
    decreases |events|
  {
    if events != [] && !d.windowless { OutstandingElsewhere(Outstanding(d, events[0]), channels, events[1..]); }
  }

  /**
    The handshake of the right user makes the connection live: what was held is handed over in order and recorded, if
    all of it fits the window of what is yet to be acknowledged, and latches otherwise.
   */
  lemma HandshakeMeans(c: Client, socket: nat, event: Event, frameBytes: nat)
    requires Valid(c) && Expected(c, socket, event) && event.kind.Connected? && !c.connection.value.handshaken && Accepts(c)
    requires forall b :: b in c.connection.value.replay ==> b.event.kind.Change?
    ensures
      var k := c.connection.value;
      var r := Apply(c, MessageStep(socket, Product(event, frameBytes)));
      var d := OutstandingAll(c, Events(k.replay));
      if !Fits(d) then r.recovery.Some?
      else
        r == d.(connection := Some(k.(handshaken := true, replay := [], replayBytes := 0)), channels := r.channels)
  {
    hide Core, Settled, DeliverReplay, GoLive, CaughtUp, Fits, OutstandingAll, ProvedBy, HandleMessage, AwaitsReplay;
    var k := c.connection.value;
    var replay := Events(k.replay);
    var c1 := Shaken(c, socket, event);
    ReplayAccepted(c1, socket, replay, event);
    OutstandingShaken(c, c1, replay);
    SameFits(OutstandingAll(c1, replay), OutstandingAll(c, replay));
    var (c2, ok) := DeliverReplay(c1, socket, replay, event);
    if ok {
      AllCaughtUp(c1, c2, socket, replay, event);
      GoneLive(c2, socket, event);
    }
    Handshaking(c, socket, event, frameBytes);
  }

  lemma AllCaughtUp(c1: Client, c2: Client, socket: nat, replay: seq<Event>, handshake: Event)
    requires Core(c1) && AwaitsReplay(c1, socket, replay, handshake) && c2.channels == CaughtUp(c1.channels, socket, replay)
    ensures c2.channels[socket].arrived == c2.channels[socket].delivered + [handshake]
    ensures ProvedBy(c2.channels[socket].arrived, c2.channels[socket].scope.userId)
  {
  }

  lemma Handshaking(c: Client, socket: nat, event: Event, frameBytes: nat)
    requires Valid(c) && Expected(c, socket, event) && event.kind.Connected? && !c.connection.value.handshaken
    ensures Apply(c, MessageStep(socket, Product(event, frameBytes))) == Handshake(c, socket, event)
  {
    hide Core, Settled, Handshake;
  }

  lemma OutstandingShaken(c: Client, d: Client, events: seq<Event>)
    requires c.cursor.Some? && d == c.(connection := d.connection, channels := d.channels)
    ensures OutstandingAll(d, events) == OutstandingAll(c, events).(connection := d.connection, channels := d.channels)
    decreases |events|
  {
    if events != [] && !d.windowless { OutstandingShaken(Outstanding(c, events[0]), Outstanding(d, events[0]), events[1..]); }
  }

  lemma GoneLive(c: Client, socket: nat, event: Event)
    requires Core(c) && Expected(c, socket, event) && event.kind.Connected? && c.connection.value.handshaken && Accepts(c)
    requires c.channels[socket].arrived == c.channels[socket].delivered + [event]
    requires ProvedBy(c.channels[socket].arrived, c.channels[socket].scope.userId)
    ensures
      var r := GoLive(c, socket, event);
      r == c.(connection := Some(c.connection.value.(replay := [], replayBytes := 0)), channels := r.channels)
  {
    var c1 := c.(connection := Some(c.connection.value.(replay := [], replayBytes := 0)));
    assert c.channels[socket].arrived[|c.channels[socket].delivered|] == event;
    assert Core(c1) && Fits(c1);
    AcceptedMeans(c1, socket, event);
    hide DeliverEvent, Core, Settled;
  }
}
