/**
  Transition functions of WorkspaceRealtimeClient (packages/api-client/src/realtime.ts). Every
  public call, ticket settlement, socket callback and timer is one atomic step on `Client`.
  RealtimeClient.dfy holds the class whose methods are proved against these functions, and
  RealtimeTheorems.dfy states what they promise over whole runs.
 */
module Realtime {
  import opened Wrappers
  import opened SyncPositions
  import opened Consumer

  const REPLAY_MAX_EVENTS: nat := 1024
  const REPLAY_MAX_BYTES: nat := 4 * 1024 * 1024
  const MAX_SAFE_INTEGER: nat := 9_007_199_254_740_991

  datatype Buffered = Buffered(event: Event, frameBytes: nat)

  datatype Delivery = Delivery(position: Position, bytes: nat)

  /** `handshaken` is `connectionId !== null`. */
  datatype Connection = Connection(
    socket: nat,
    epoch: nat,
    scope: Scope,
    replay: seq<Buffered>,
    replayBytes: nat,
    handshaken: bool)

  /**
    What one socket carried: its resume position, the non-resync frames accepted from it and the
    ones handed to the consumer. Sockets are numbered by opening order.
   */
  datatype Channel = Channel(scope: Scope, openedAt: Position, arrived: seq<Event>, delivered: seq<Event>)

  datatype Recovery = Recovery(userId: EntityId, workspaceId: EntityId, cursor: Position, event: Event)

  datatype Client = Client(
    host: Host,
    cursor: Option<Position>,
    scope: Option<Scope>,
    lastScopeEpoch: nat,
    connection: Option<Connection>,
    pending: seq<Delivery>,
    pendingBytes: int,
    ticketEpoch: Option<nat>,
    timer: Option<nat>,
    failures: nat,
    epoch: nat,
    stopped: bool,
    ready: bool,
    windowless: bool,
    incompatible: bool,
    recovery: Option<Recovery>,
    channels: seq<Channel>)

  /** A frame as `#handleMessage` classifies it. */
  datatype Frame =
    | Undecodable
    | Activity(workspaceId: EntityId)
    | BadEnvelope
    | BadPayload(workspaceId: EntityId, knownType: bool)
    | Product(event: Event, frameBytes: nat)

  // ---------------------------------------------------------------------------------------------
  // State predicates
  // ---------------------------------------------------------------------------------------------

  function SumBytes(pending: seq<Delivery>): nat
  {
    if pending == [] then 0 else SumBytes(pending[..|pending| - 1]) + pending[|pending| - 1].bytes
  }

  function SumFrames(replay: seq<Buffered>): nat
  {
    if replay == [] then 0 else SumFrames(replay[..|replay| - 1]) + replay[|replay| - 1].frameBytes
  }

  function Events(replay: seq<Buffered>): (r: seq<Event>)
    ensures |r| == |replay|
    ensures forall i :: 0 <= i < |r| ==> r[i] == replay[i].event
  {
    seq(|replay|, i requires 0 <= i < |replay| => replay[i].event)
  }

  /** The number of outstanding tickets, timers and connections. */
  function Activities(c: Client): nat
  {
    (if c.ticketEpoch.Some? then 1 else 0) + (if c.timer.Some? then 1 else 0)
    + (if c.connection.Some? then 1 else 0)
  }

  predicate Running(c: Client)
  {
    !c.stopped && !c.incompatible
  }

  predicate IsCurrentEpoch(c: Client, epoch: nat)
  {
    Running(c) && c.epoch == epoch
  }

  predicate IsActive(c: Client, socket: nat)
  {
    c.connection.Some? && c.connection.value.socket == socket
    && c.scope == Some(c.connection.value.scope)
    && IsCurrentEpoch(c, c.connection.value.epoch)
  }

  predicate OwnsTicket(c: Client, epoch: nat)
  {
    c.ticketEpoch == Some(epoch) && IsCurrentEpoch(c, epoch)
  }

  predicate SameUser(scope: Scope, userId: EntityId, workspaceId: EntityId)
  {
    scope.userId == userId && scope.workspaceId == workspaceId
  }

  /** Everything outstanding belongs to the current generation, and nothing is outstanding twice. */
  predicate Generation(c: Client)
  {
    && (Running(c) ==> c.scope.Some?)
    && (c.scope.Some? ==> c.cursor.Some?)
    && Activities(c) <= (if Running(c) then 1 else 0)
    && (c.ticketEpoch.Some? ==> c.ticketEpoch.value == c.epoch)
    && (c.timer.Some? ==> c.timer.value == c.epoch)
    && (c.connection.Some? ==> c.connection.value.epoch == c.epoch && c.scope == Some(c.connection.value.scope))
  }

  predicate Window(c: Client)
  {
    && c.pendingBytes == SumBytes(c.pending)
    && |c.pending| <= REPLAY_MAX_EVENTS
    && c.pendingBytes <= REPLAY_MAX_BYTES
    && (c.pending != [] ==> c.cursor.Some?)
    && forall i :: 0 <= i < |c.pending| ==>
         c.pending[i].position.epoch == c.cursor.value.epoch
         && Later(c.pending[i].position, c.cursor.value)
  }

  predicate Latch(c: Client)
  {
    c.recovery.Some? ==>
      c.stopped
      && c.recovery.value.event.kind.ResyncRequired?
      && (c.scope.Some? ==> SameUser(c.scope.value, c.recovery.value.userId, c.recovery.value.workspaceId))
  }

  /** Histories only grow: `b` continues every channel of `a`. */
  predicate Extends(a: seq<Channel>, b: seq<Channel>)
  {
    && |a| <= |b|
    && forall i :: 0 <= i < |a| ==>
         && b[i].scope == a[i].scope && b[i].openedAt == a[i].openedAt
         && a[i].arrived <= b[i].arrived && a[i].delivered <= b[i].delivered
  }

  lemma ExtendsTransitive(a: seq<Channel>, b: seq<Channel>, c: seq<Channel>)
    requires Extends(a, b) && Extends(b, c)
    ensures Extends(a, c)
  {
    forall i | 0 <= i < |a|
      ensures c[i].scope == a[i].scope && c[i].openedAt == a[i].openedAt
              && a[i].arrived <= c[i].arrived && a[i].delivered <= c[i].delivered
    {
      assert b[i].arrived <= c[i].arrived && b[i].delivered <= c[i].delivered;
    }
  }

  predicate ProvedBy(arrived: seq<Event>, userId: EntityId)
  {
    exists i :: 0 <= i < |arrived| && arrived[i].kind.Connected? && arrived[i].kind.userId == userId
  }

  /** Fence and order of one socket. */
  predicate ChannelOk(ch: Channel)
  {
    && ch.delivered <= ch.arrived
    && (ch.delivered != [] ==> ProvedBy(ch.arrived, ch.scope.userId))
    && forall e :: e in ch.arrived ==>
         e.workspaceId == ch.scope.workspaceId && e.position.epoch == ch.openedAt.epoch
         && !e.kind.ResyncRequired?
  }

  predicate Channels(c: Client)
  {
    forall i :: 0 <= i < |c.channels| ==> ChannelOk(c.channels[i])
  }

  /** The live connection is the last socket opened and its replay buffer obeys both limits. */
  predicate LiveSocket(c: Client)
  {
    c.connection.Some? ==>
      var k := c.connection.value;
      && |c.channels| == k.socket + 1
      && c.channels[k.socket].scope == k.scope
      && c.cursor.Some? && c.cursor.value.epoch == c.channels[k.socket].openedAt.epoch
      && k.replayBytes == SumFrames(k.replay)
      && |k.replay| <= REPLAY_MAX_EVENTS
      && k.replayBytes <= REPLAY_MAX_BYTES
  }

  /** Between callbacks: before the handshake everything is held, after it nothing is. */
  predicate Settled(c: Client)
  {
    c.connection.Some? && LiveSocket(c) ==>
      var k := c.connection.value;
      var ch := c.channels[k.socket];
      if k.handshaken then k.replay == [] && ch.delivered == ch.arrived && ProvedBy(ch.arrived, ch.scope.userId)
      else ch.delivered == [] && ch.arrived == Events(k.replay)
  }

  /** What every function below keeps, also in the middle of a callback. */
  predicate Core(c: Client)
  {
    Generation(c) && Window(c) && Latch(c) && Channels(c) && LiveSocket(c)
  }

  /** The invariant between steps: exactly one activity when running, none otherwise. */
  predicate Valid(c: Client)
  {
    Core(c) && Settled(c) && Activities(c) == (if Running(c) then 1 else 0)
  }

  // ---------------------------------------------------------------------------------------------
  // Leaving a generation
  // ---------------------------------------------------------------------------------------------

  /** The part of `#retireTransport` that is silent. */
  function Retired(c: Client, clearRecovery: bool): Client
  {
    c.(epoch := c.epoch + 1, stopped := true, incompatible := false, scope := None,
       pending := [], pendingBytes := 0, ready := false, windowless := false,
       recovery := if clearRecovery then None else c.recovery,
       ticketEpoch := None, timer := None, connection := None)
  }

  /**
    `#retireTransport(clearRecovery, true)`. The offline announcement does not call back into the
    client: a reset from there would retire an already retired transport.
   */
  function StopTransport(c: Client, clearRecovery: bool): Client
  {
    var r := Retired(c, clearRecovery);
    r.(host := r.host.OnState(Offline).0)
  }

  function ResetSession(c: Client): (r: Client)
    ensures Core(c) ==> Valid(r)
    ensures r.stopped && Silent(c, r)
  {
    StopTransport(c, true)
  }

  /** No frame was handed over and no position moved. */
  predicate Silent(c: Client, r: Client)
  {
    && r.channels == c.channels && r.cursor == c.cursor && Quiet(c.host, r.host)
    && (r.windowless ==> c.windowless)
    && (r.connection.None? || r.connection == c.connection)
  }

  /** Whether a callback left the transport alone, or reset the session before it returned. */
  predicate AfterCallback(c: Client, r: Client)
  {
    && (Core(c) ==> Core(r))
    && Silent(c, r)
    && (r == c.(host := r.host) || (r.stopped && (Core(c) ==> Valid(r))))
  }

  function Reentered(c: Client, reply: Reply): (r: Client)
    ensures AfterCallback(c, r)
  {
    if reply.resets then ResetSession(c) else c
  }

  /** `#deliverState`; the result says whether the callback returned normally. */
  function DeliverState(c: Client, state: ConnectionState): (r: (Client, bool))
    ensures AfterCallback(c, r.0)
  {
    var (h, reply) := c.host.OnState(state);
    (Reentered(c.(host := h), reply), !reply.verdict.Raised?)
  }

  function AskFailure(c: Client, failure: TransportFailure): (r: (Client, bool))
    ensures AfterCallback(c, r.0)
  {
    var answer := c.host.OnFailure(failure);
    (Reentered(c.(host := answer.0), answer.1), answer.1.verdict.Yes?)
  }

  function Drop(c: Client, reason: DropReason): Client
  {
    c.(host := c.host.OnDrop(reason))
  }

  // ---------------------------------------------------------------------------------------------
  // Progress
  // ---------------------------------------------------------------------------------------------

  function StillPending(pending: seq<Delivery>, cursor: Position): (r: seq<Delivery>)
    requires forall i :: 0 <= i < |pending| ==> pending[i].position.epoch == cursor.epoch
    ensures |r| <= |pending|
    ensures SumBytes(r) <= SumBytes(pending)
    ensures forall i :: 0 <= i < |r| ==> r[i].position.epoch == cursor.epoch && Later(r[i].position, cursor)
  {
    if pending == [] then []
    else
      var last := pending[|pending| - 1];
      var front := StillPending(pending[..|pending| - 1], cursor);
      assert pending == pending[..|pending| - 1] + [last];
      if Later(last.position, cursor) then
        assert (front + [last])[..|front|] == front;
        front + [last]
      else front
  }

  function AcceptAcknowledgement(c: Client, position: Position): (r: Client)
    requires c.cursor.Some? && c.cursor.value.epoch == position.epoch
    requires Window(c)
    ensures Window(r)
    ensures r == c.(cursor := r.cursor, pending := r.pending, pendingBytes := r.pendingBytes, failures := r.failures)
    ensures r.cursor == Some(LaterCursor(c.cursor.value, position))
  {
    var cursor := LaterCursor(c.cursor.value, position);
    var kept := StillPending(c.pending, cursor);
    c.(cursor := Some(cursor), pending := kept, pendingBytes := SumBytes(kept),
       failures := if |kept| < |c.pending| then 0 else c.failures)
  }

  /** `acknowledge(position)`. */
  function Acknowledge(c: Client, position: Position): (r: Client)
    requires Window(c)
    ensures Window(r)
    ensures r == c.(host := r.host, cursor := r.cursor, pending := r.pending, pendingBytes := r.pendingBytes,
                    failures := r.failures)
    ensures r.cursor.Some? == c.cursor.Some?
    ensures c.cursor.Some? ==>
              r.cursor.value == if position.epoch == c.cursor.value.epoch then LaterCursor(c.cursor.value, position)
                                else c.cursor.value
  {
    if c.cursor.None? || position.epoch != c.cursor.value.epoch then Drop(c, StaleControl)
    else AcceptAcknowledgement(c, position)
  }

  /** `acknowledge({ scope, cursor })`. */
  function AcknowledgeScoped(c: Client, scope: Scope, position: Position): (r: Client)
    requires Valid(c)
    ensures Valid(r)
  {
    if c.scope != Some(scope) then Drop(c, StaleControl)
    else
      AcknowledgeKeeps(c, position);
      Acknowledge(c, position)
  }

  lemma AcknowledgeKeeps(c: Client, position: Position)
    requires Core(c)
    ensures Core(Acknowledge(c, position))
    ensures Valid(c) ==> Valid(Acknowledge(c, position))
  {
  }

  // ---------------------------------------------------------------------------------------------
  // Tickets, sockets and timers
  // ---------------------------------------------------------------------------------------------

  /** The synchronous head of `#connect`: a ticket is requested unless one of the guards holds. */
  function Connect(c: Client, epoch: nat): (r: Client)
    requires Core(c)
    requires IsCurrentEpoch(c, epoch) ==> c.timer.None?
    ensures Core(r) && r.connection == c.connection && Silent(c, r)
    ensures Running(r) == Running(c) && r.epoch == c.epoch
    ensures IsCurrentEpoch(c, epoch) ==> Activities(r) == 1
  {
    if !IsCurrentEpoch(c, epoch) || c.connection.Some? || c.ticketEpoch.Some? then c
    else c.(ticketEpoch := Some(epoch))
  }

  /** `#scheduleReconnect`. The state callback may have retired the generation. */
  function ScheduleReconnect(c: Client, epoch: nat): (r: Client)
    requires Core(c)
    requires IsCurrentEpoch(c, epoch) ==> c.ticketEpoch.None? && c.connection.None?
    ensures Core(r) && Silent(c, r)
    ensures IsCurrentEpoch(c, epoch) ==> r.connection.None? && Activities(r) == (if Running(r) then 1 else 0)
    ensures !IsCurrentEpoch(c, epoch) ==> r == c
  {
    if !IsCurrentEpoch(c, epoch) || c.timer.Some? then c
    else
      var c1 := DeliverState(c, Reconnecting).0;
      if !IsCurrentEpoch(c1, epoch) || c1.timer.Some? then c1
      else c1.(failures := c1.failures + 1, timer := Some(epoch))
  }

  /** `#retireConnection(connection, true)`. */
  function RetireConnection(c: Client, socket: nat): (r: Client)
    requires Core(c)
    ensures Core(r) && Silent(c, r)
    ensures IsActive(c, socket) ==> r.connection.None? && Activities(r) == (if Running(r) then 1 else 0)
    ensures !IsActive(c, socket) ==> r == c
  {
    if !IsActive(c, socket) then c
    else ScheduleReconnect(c.(connection := None), c.connection.value.epoch)
  }

  /** The delivery window of `#beginEpoch`: what `after` leaves unacknowledged, none in a new epoch. */
  function Rebased(c: Client, after: Position): (r: Client)
    requires Window(c)
    ensures Window(r) && r.cursor == Some(after)
    ensures r == c.(cursor := r.cursor, pending := r.pending, pendingBytes := r.pendingBytes, failures := r.failures)
  {
    if c.cursor.Some? && after.epoch == c.cursor.value.epoch then
      AcceptAcknowledgement(c, after).(cursor := Some(after))
    else c.(pending := [], pendingBytes := 0, cursor := Some(after))
  }

  /** The assignments of `#beginEpoch` before its first callback. */
  function FreshGeneration(c: Client, after: Position, scope: Scope): (r: Client)
    requires Core(c) && c.recovery.None?
    ensures Core(r) && Running(r) && Activities(r) == 0 && r.channels == c.channels && r.cursor == Some(after)
    ensures r.recovery.None?
  {
    var c1 := Rebased(c, after);
    c1.(epoch := c1.epoch + 1, stopped := false, incompatible := false, scope := Some(scope),
        ticketEpoch := None, failures := 0, timer := None, connection := None)
  }

  /** `#beginEpoch`: a new generation from `after`, whose first activity is a ticket request. */
  function BeginEpoch(c: Client, after: Position, scope: Scope): (r: Client)
    requires Core(c)
    requires c.recovery.None?
    ensures Core(r) && r.connection.None? && r.channels == c.channels
    ensures Activities(r) == (if Running(r) then 1 else 0)
    ensures r.cursor == Some(after) && r.recovery.None? && Quiet(c.host, r.host)
    ensures !c.host.OnState(Connecting).1.resets ==> Running(r) && r.scope == Some(scope) && r.ticketEpoch.Some?
  {
    var next := FreshGeneration(c, after, scope);
    Connect(DeliverState(next, Connecting).0, next.epoch)
  }

  function TicketFailed(c: Client, epoch: nat, retryable: bool): (r: Client)
    requires Core(c) && Settled(c) && IsCurrentEpoch(c, epoch) && Activities(c) == 0
    ensures Valid(r) && Silent(c, r)
  {
    var (c1, handled) := AskFailure(c, TicketFailure(retryable));
    if handled then ResetSession(c1) else ScheduleReconnect(c1, epoch)
  }

  /** The ticket promise of generation `epoch` rejected. */
  function TicketRejected(c: Client, epoch: nat, protocolMismatch: bool, retryable: bool): (r: Client)
    requires Valid(c)
    ensures Valid(r) && Silent(c, r)
  {
    if !OwnsTicket(c, epoch) then Drop(c, LateTicket)
    else
      var c1 := c.(ticketEpoch := None);
      if protocolMismatch then DeliverState(c1.(incompatible := true), Incompatible).0
      else TicketFailed(c1, epoch, retryable)
  }

  /** The ticket promise of generation `epoch` resolved; `created` is false when createSocket threw. */
  function TicketGranted(c: Client, epoch: nat, created: bool): (r: Client)
    requires Valid(c)
    ensures Valid(r)
    ensures created && OwnsTicket(c, epoch) ==>
              r.channels == c.channels + [Channel(c.scope.value, c.cursor.value, [], [])]
              && IsActive(r, |c.channels|)
    ensures !(created && OwnsTicket(c, epoch)) ==> r.channels == c.channels
    ensures r.cursor == c.cursor && Quiet(c.host, r.host)
  {
    if !OwnsTicket(c, epoch) then Drop(c, LateTicket)
    else
      var c1 := c.(ticketEpoch := None);
      if !created then ScheduleReconnect(c1, epoch)
      else
        c1.(connection := Some(Connection(|c.channels|, epoch, c.scope.value, [], 0, false)),
            channels := c.channels + [Channel(c.scope.value, c.cursor.value, [], [])])
  }

  function TimerFired(c: Client): (r: Client)
    requires Valid(c)
    ensures Valid(r) && Silent(c, r)
  {
    if c.timer.None? then c
    else
      var c1 := c.(timer := None);
      if !IsCurrentEpoch(c1, c.timer.value) then c1 else Connect(c1, c.timer.value)
  }

  function SocketError(c: Client, socket: nat): (r: Client)
    requires Valid(c)
    ensures Valid(r) && Silent(c, r)
  {
    RetireConnection(c, socket)
  }

  function Disconnected(c: Client, epoch: nat): (r: Client)
    requires Core(c) && (c.connection.Some? ==> c.connection.value.epoch == epoch)
    requires c.connection.Some? || !IsCurrentEpoch(c, epoch)
    requires c.connection.None? ==> Activities(c) == (if Running(c) then 1 else 0)
    ensures Valid(r) && Silent(c, r)
  {
    ScheduleReconnect(c.(connection := None), epoch)
  }

  function SocketClosed(c: Client, socket: nat, code: nat): (r: Client)
    requires Valid(c)
    ensures Valid(r) && Silent(c, r)
  {
    if !IsActive(c, socket) then c
    else
      var (c1, handled) := AskFailure(c, ClosedFailure(code));
      if handled then ResetSession(c1) else Disconnected(c1, c.connection.value.epoch)
  }

  /** The HTTP upgrade was refused. */
  function UnexpectedResponse(c: Client, socket: nat, mismatch: bool, status: nat): (r: Client)
    requires Valid(c)
    ensures Valid(r) && Silent(c, r)
  {
    if !IsActive(c, socket) then c
    else if mismatch then FailIncompatible(c, socket, ProtocolMismatch)
    else
      var (c1, handled) := AskFailure(c, HandshakeFailure(status));
      if handled then ResetSession(c1) else RetireConnection(c1, socket)
  }

  // ---------------------------------------------------------------------------------------------
  // Terminal frames
  // ---------------------------------------------------------------------------------------------

  /** `#rejectInvalidEvent`. */
  function RejectInvalidEvent(c: Client, socket: nat): (r: Client)
    requires Valid(c)
    ensures Valid(r) && Silent(c, r)
  {
    if !IsActive(c, socket) then c
    else
      var (c1, handled) := AskFailure(Drop(c, InvalidEnvelope), InvalidFrame);
      if handled then ResetSession(c1) else RetireConnection(c1, socket)
  }

  /** `#failIncompatible`. */
  function FailIncompatible(c: Client, socket: nat, reason: DropReason): (r: Client)
    requires Valid(c)
    ensures Valid(r) && Silent(c, r)
  {
    if !IsActive(c, socket) then Drop(c, StaleSocket)
    else DeliverState(Drop(c, reason).(incompatible := true, connection := None), Incompatible).0
  }

  /** The stop shared by recovery and by a consumer that is not ready. */
  function Halted(c: Client, scope: Option<Scope>): Client
  {
    c.(epoch := c.epoch + 1, stopped := true, scope := scope, ticketEpoch := None, timer := None,
       connection := None)
  }

  function RecoveryEvent(scope: Scope, cursor: Position): Event
  {
    Event(ResyncRequired, cursor, scope.workspaceId, 0)
  }

  function OfferControl(c: Client, control: Event): (r: (Client, bool))
    requires control.kind.ResyncRequired?
    ensures AfterCallback(c, r.0)
  {
    var answer := c.host.OnEvent(control);
    (Reentered(c.(host := answer.0), answer.1), answer.1.verdict.Yes?)
  }

  /** `#deliverPendingAuthoritativeRecovery`. */
  function DeliverPendingRecovery(c: Client): (r: (Client, bool))
    requires Core(c) && c.stopped
    ensures Core(r.0) && r.0.stopped && r.0.channels == c.channels && r.0.cursor == c.cursor
    ensures r.0.epoch >= c.epoch && Quiet(c.host, r.0.host)
  {
    if c.recovery.None? then (c, true)
    else if !c.ready then (c, false)
    else if c.scope.None? then (c.(ready := false), false)
    else
      var (c1, accepted) := OfferControl(c, c.recovery.value.event);
      if accepted then (c1, true) else (c1.(ready := false), false)
  }

  /** `#requireAuthoritativeRecovery`: the receiving scope stays attached to the latched control. */
  function RequireRecovery(c: Client, socket: nat): (r: Client)
    requires Core(c)
    ensures Core(r) && Silent(c, r)
    ensures IsActive(c, socket) ==> r.stopped
    ensures !IsActive(c, socket) ==> r == c
  {
    if !IsActive(c, socket) then c
    else
      var scope, cursor := c.scope.value, c.cursor.value;
      var c1 := Halted(c, c.scope).(
        recovery := Some(Recovery(scope.userId, scope.workspaceId, cursor, RecoveryEvent(scope, cursor))));
      var c2 := DeliverPendingRecovery(c1).0;
      if c2.stopped && c2.epoch == c1.epoch then DeliverState(c2, Offline).0 else c2
  }

  /** `#retainWindowlessAuthoritativeRecovery`. */
  function RetainWindowless(c: Client, socket: nat, event: Event): (r: Client)
    requires Core(c) && event.kind.ResyncRequired?
    ensures Core(r) && Silent(c, r)
    ensures IsActive(c, socket) ==> r.stopped
    ensures !IsActive(c, socket) ==> r == c
  {
    if !IsActive(c, socket) then c
    else
      var scope := c.scope.value;
      DeliverState(
        Halted(c, None).(recovery := Some(Recovery(scope.userId, scope.workspaceId, c.cursor.value, event))),
        Offline).0
  }

  /** `#pauseForRenderer`. */
  function PauseForRenderer(c: Client, socket: nat): (r: Client)
    requires Core(c)
    ensures Core(r) && Silent(c, r)
    ensures IsActive(c, socket) ==> r.stopped
    ensures !IsActive(c, socket) ==> r == c
  {
    if !IsActive(c, socket) then c
    else DeliverState(Halted(c, None).(ready := false, windowless := false), Offline).0
  }

  // ---------------------------------------------------------------------------------------------
  // Frames
  // ---------------------------------------------------------------------------------------------

  function WithArrived(ch: Channel, event: Event): Channel
  {
    ch.(arrived := ch.arrived + [event])
  }

  function WithDelivered(ch: Channel, event: Event): Channel
  {
    if event.kind.ResyncRequired? then ch else ch.(delivered := ch.delivered + [event])
  }

  /** `event` is the oldest accepted frame of the socket that was not handed over yet. */
  predicate NextInOrder(c: Client, socket: nat, event: Event)
  {
    && socket < |c.channels|
    && var ch := c.channels[socket];
    && |ch.delivered| < |ch.arrived| && ch.arrived[|ch.delivered|] == event
    && ProvedBy(ch.arrived, ch.scope.userId)
  }

  function HandedOver(c: Client, socket: nat, event: Event): (r: Client)
    requires socket < |c.channels|
  {
    c.(channels := c.channels[socket := WithDelivered(c.channels[socket], event)])
  }

  predicate NeedsAcknowledgement(c: Client, event: Event)
    requires c.cursor.Some? && c.cursor.value.epoch == event.position.epoch
  {
    event.kind.Change? && Later(event.position, c.cursor.value)
  }

  lemma ProofSurvives(arrived: seq<Event>, event: Event, userId: EntityId)
    requires ProvedBy(arrived, userId)
    ensures ProvedBy(arrived + [event], userId)
  {
    var i :| 0 <= i < |arrived| && arrived[i].kind.Connected? && arrived[i].kind.userId == userId;
    assert (arrived + [event])[i] == arrived[i];
  }

  lemma ArrivalKeepsChannel(ch: Channel, event: Event)
    requires ChannelOk(ch) && !event.kind.ResyncRequired?
    requires event.workspaceId == ch.scope.workspaceId && event.position.epoch == ch.openedAt.epoch
    ensures ChannelOk(WithArrived(ch, event))
  {
    if ch.delivered != [] { ProofSurvives(ch.arrived, event, ch.scope.userId); }
  }

  lemma DeliveredStaysPrefix(ch: Channel, event: Event)
    requires ChannelOk(ch)
    requires event.kind.ResyncRequired? ||
             (|ch.delivered| < |ch.arrived| && ch.arrived[|ch.delivered|] == event && ProvedBy(ch.arrived, ch.scope.userId))
    ensures ChannelOk(WithDelivered(ch, event))
  {
  }

  /** How a host evolves when it is offered one event. */
  predicate Handed(before: Host, after: Host, event: Event)
  {
    Quiet(before, after) || (!event.kind.ResyncRequired? && Quiet(Took(before, event), after))
  }

  /** The bookkeeping of `#deliverEvent` for an event the consumer has yet to acknowledge. */
  function Tracked(c: Client, event: Event): (r: Client)
    requires Core(c) && c.cursor.Some? && c.cursor.value.epoch == event.position.epoch
    requires NeedsAcknowledgement(c, event) ==>
               |c.pending| < REPLAY_MAX_EVENTS && c.pendingBytes + event.bytes <= REPLAY_MAX_BYTES
    ensures Core(r) && r == c.(pending := r.pending, pendingBytes := r.pendingBytes)
  {
    if NeedsAcknowledgement(c, event) then
      var pushed := c.pending + [Delivery(event.position, event.bytes)];
      assert pushed[..|c.pending|] == c.pending;
      c.(pending := pushed, pendingBytes := c.pendingBytes + event.bytes)
    else c
  }

  /** The callback of `#deliverEvent` and what its answer entails. */
  function Offer(c: Client, socket: nat, event: Event): (r: (Client, bool))
    requires Core(c) && IsActive(c, socket) && c.ready
    requires event.kind.ResyncRequired? || NextInOrder(c, socket, event)
    ensures Core(r.0) && r.0.cursor == c.cursor
    ensures r.0.channels == HandedOver(c, socket, event).channels
    ensures IsActive(r.0, socket) ==> r.1 && r.0.connection == c.connection
    ensures !IsActive(r.0, socket) ==>
              r.0.connection.None? && Activities(r.0) == (if Running(r.0) then 1 else 0)
    ensures r.0.windowless ==> c.windowless
    ensures Handed(c.host, r.0.host, event)
    ensures IsActive(r.0, socket) && !event.kind.ResyncRequired? && c.host.Watcher? ==> Quiet(Took(c.host, event), r.0.host)
  {
    DeliveredStaysPrefix(c.channels[socket], event);
    var (h, reply) := c.host.OnEvent(event);
    var c1 := Reentered(HandedOver(c, socket, event).(host := h), reply);
    match reply.verdict
    case Yes => (c1, true)
    case No => (PauseForRenderer(c1, socket), false)
    case Raised => (RetireConnection(c1, socket), false)
  }

  function Observe(c: Client, socket: nat, event: Event): (r: (Client, bool))
    requires Core(c) && IsActive(c, socket)
    requires event.kind.ResyncRequired? || NextInOrder(c, socket, event)
    ensures Core(r.0) && r.1 == IsActive(r.0, socket) && r.0.cursor == c.cursor
    ensures r.0.channels == HandedOver(c, socket, event).channels
    ensures r.1 ==> r.0.connection == c.connection
    ensures !r.1 ==> r.0.connection.None? && Activities(r.0) == (if Running(r.0) then 1 else 0)
    ensures Quiet(c.host, r.0.host)
  {
    DeliveredStaysPrefix(c.channels[socket], event);
    var (h, reply) := c.host.OnWindowlessEvent(event);
    var c1 := Reentered(HandedOver(c, socket, event).(host := h), reply);
    (c1, IsActive(c1, socket))
  }

  /** `#deliverEvent`; the result is false once the connection must not be used any more. */
  function DeliverEvent(c: Client, socket: nat, event: Event): (r: (Client, bool))
    requires Core(c) && IsActive(c, socket)
    requires event.position.epoch == c.cursor.value.epoch
    requires event.kind.ResyncRequired? || NextInOrder(c, socket, event)
    ensures Core(r.0) && r.0.cursor == c.cursor && (r.0.windowless ==> c.windowless)
    ensures r.0.channels == c.channels || r.0.channels == HandedOver(c, socket, event).channels
    ensures IsActive(r.0, socket) ==>
              r.1 && r.0.connection == c.connection && r.0.channels == HandedOver(c, socket, event).channels
    ensures !IsActive(r.0, socket) ==>
              r.0.connection.None? && Activities(r.0) == (if Running(r.0) then 1 else 0)
    ensures Extends(c.channels, r.0.channels) && |r.0.channels| == |c.channels|
    ensures Handed(c.host, r.0.host, event)
    ensures IsActive(r.0, socket) && !event.kind.ResyncRequired? && !c.windowless && c.host.Watcher? ==>
              Quiet(Took(c.host, event), r.0.host)
  {
    if c.windowless then Observe(c, socket, event)
    else if NeedsAcknowledgement(c, event)
            && (|c.pending| >= REPLAY_MAX_EVENTS || c.pendingBytes + event.bytes > REPLAY_MAX_BYTES) then
      (RequireRecovery(c, socket), false)
    else
      var c1 := Tracked(c, event);
      if !c1.ready then (PauseForRenderer(c1, socket), false) else Offer(c1, socket, event)
  }

  function CaughtUp(channels: seq<Channel>, socket: nat, replay: seq<Event>): (r: seq<Channel>)
    requires socket < |channels|
  {
    channels[socket := channels[socket].(delivered := channels[socket].delivered + replay)]
  }

  lemma CaughtUpStep(channels: seq<Channel>, socket: nat, replay: seq<Event>)
    requires socket < |channels| && replay != [] && !replay[0].kind.ResyncRequired?
    ensures CaughtUp(channels[socket := WithDelivered(channels[socket], replay[0])], socket, replay[1..])
            == CaughtUp(channels, socket, replay)
  {
    assert channels[socket].delivered + [replay[0]] + replay[1..] == channels[socket].delivered + replay;
  }

  /** What is left to hand over is `replay`, then the handshake itself. */
  predicate AwaitsReplay(c: Client, socket: nat, replay: seq<Event>, handshake: Event)
  {
    && IsActive(c, socket) && socket < |c.channels|
    && var ch := c.channels[socket];
    && ch.arrived == ch.delivered + replay + [handshake]
    && ProvedBy(ch.arrived, ch.scope.userId)
  }

  lemma ReplayHead(c: Client, socket: nat, replay: seq<Event>, handshake: Event)
    requires Core(c) && AwaitsReplay(c, socket, replay, handshake) && replay != []
    ensures NextInOrder(c, socket, replay[0]) && !replay[0].kind.ResyncRequired?
    ensures replay[0].position.epoch == c.cursor.value.epoch
    ensures forall r: Client :: r.channels == HandedOver(c, socket, replay[0]).channels && IsActive(r, socket)
              ==> AwaitsReplay(r, socket, replay[1..], handshake)
  {
    var ch := c.channels[socket];
    assert ch.arrived[|ch.delivered|] == replay[0] && replay[0] in ch.arrived;
    assert ch.delivered + [replay[0]] + replay[1..] == ch.delivered + replay;
  }

  /** The loop over `pendingReplay` after the handshake. */
  function DeliverReplay(c: Client, socket: nat, replay: seq<Event>, handshake: Event): (r: (Client, bool))
    requires Core(c) && AwaitsReplay(c, socket, replay, handshake)
    ensures Core(r.0) && r.0.cursor == c.cursor && (r.0.windowless ==> c.windowless)
    ensures r.1 ==> IsActive(r.0, socket) && r.0.connection == c.connection
    ensures r.1 ==> r.0.channels == CaughtUp(c.channels, socket, replay)
    ensures !r.1 ==> r.0.connection.None? && Activities(r.0) == (if Running(r.0) then 1 else 0)
    ensures Extends(c.channels, r.0.channels) && |r.0.channels| == |c.channels|
    decreases replay
  {
    if replay == [] then
      assert c.channels[socket].(delivered := c.channels[socket].delivered + replay) == c.channels[socket];
      (c, true)
    else
      ReplayHead(c, socket, replay, handshake);
      var (c1, ok) := DeliverEvent(c, socket, replay[0]);
      if !ok || !IsActive(c1, socket) then (c1, false)
      else
        CaughtUpStep(c.channels, socket, replay);
        ExtendsTransitive(c.channels, c1.channels, DeliverReplay(c1, socket, replay[1..], handshake).0.channels);
        DeliverReplay(c1, socket, replay[1..], handshake)
  }

  /** The handshake after the replay was handed over. */
  function GoLive(c: Client, socket: nat, event: Event): (r: Client)
    requires Core(c) && IsActive(c, socket) && event.position.epoch == c.cursor.value.epoch
    requires event.kind.Connected? && c.connection.value.handshaken
    requires c.channels[socket].arrived == c.channels[socket].delivered + [event]
    requires ProvedBy(c.channels[socket].arrived, c.channels[socket].scope.userId)
    ensures Valid(r) && Extends(c.channels, r.channels) && |r.channels| == |c.channels| && r.cursor == c.cursor
  {
    var c1 := c.(connection := Some(c.connection.value.(replay := [], replayBytes := 0)));
    var (c2, returned) := DeliverState(c1, Live);
    if !returned then RetireConnection(c2, socket)
    else if !IsActive(c2, socket) then c2
    else DeliverEvent(c2, socket, event).0
  }

  /** The handshake is accepted; the held frames are now due in arrival order. */
  function Shaken(c: Client, socket: nat, event: Event): (r: Client)
    requires Valid(c) && IsActive(c, socket) && !c.connection.value.handshaken
    requires event.kind.Connected? && event.kind.userId == c.scope.value.userId
    requires event.workspaceId == c.scope.value.workspaceId && event.position.epoch == c.cursor.value.epoch
    ensures Core(r) && AwaitsReplay(r, socket, Events(c.connection.value.replay), event)
    ensures r.connection.value.handshaken && r.channels[socket].delivered == []
    ensures Extends(c.channels, r.channels) && |r.channels| == |c.channels|
    ensures r == c.(connection := r.connection, channels := r.channels)
  {
    var k := c.connection.value;
    var arrived := WithArrived(c.channels[socket], event);
    ArrivalKeepsChannel(c.channels[socket], event);
    assert arrived.arrived[|arrived.arrived| - 1] == event;
    assert arrived.arrived == arrived.delivered + Events(k.replay) + [event];
    c.(connection := Some(k.(handshaken := true)), channels := c.channels[socket := arrived])
  }

  /** An accepted `system.connected`. */
  function Handshake(c: Client, socket: nat, event: Event): (r: Client)
    requires Valid(c) && IsActive(c, socket) && !c.connection.value.handshaken
    requires event.kind.Connected? && event.kind.userId == c.scope.value.userId
    requires event.workspaceId == c.scope.value.workspaceId && event.position.epoch == c.cursor.value.epoch
    ensures Valid(r) && Extends(c.channels, r.channels) && |r.channels| == |c.channels| && r.cursor == c.cursor
  {
    var c1 := Shaken(c, socket, event);
    var (c2, ok) := DeliverReplay(c1, socket, Events(c.connection.value.replay), event);
    ExtendsTransitive(c.channels, c1.channels, c2.channels);
    if !ok then c2
    else
      ExtendsTransitive(c.channels, c2.channels, GoLive(c2, socket, event).channels);
      GoLive(c2, socket, event)
  }

  function Arrived(c: Client, socket: nat, event: Event): (r: Client)
    requires Core(c) && IsActive(c, socket) && !event.kind.ResyncRequired?
    requires event.workspaceId == c.scope.value.workspaceId && event.position.epoch == c.cursor.value.epoch
    ensures Core(r) && IsActive(r, socket) && Extends(c.channels, r.channels) && |r.channels| == |c.channels|
  {
    ArrivalKeepsChannel(c.channels[socket], event);
    c.(channels := c.channels[socket := WithArrived(c.channels[socket], event)])
  }

  function Buffer(c: Client, socket: nat, event: Event, frameBytes: nat): (r: Client)
    requires Valid(c) && IsActive(c, socket) && !c.connection.value.handshaken
    requires |c.connection.value.replay| < REPLAY_MAX_EVENTS
    requires c.connection.value.replayBytes + frameBytes <= REPLAY_MAX_BYTES
    requires event.kind.Change?
    requires event.workspaceId == c.scope.value.workspaceId && event.position.epoch == c.cursor.value.epoch
    ensures Valid(r) && Extends(c.channels, r.channels) && |r.channels| == |c.channels| && r.cursor == c.cursor
  {
    var k := c.connection.value;
    var held := k.replay + [Buffered(event, frameBytes)];
    assert held[..|k.replay|] == k.replay;
    assert Events(held) == Events(k.replay) + [event];
    Arrived(c, socket, event).(
      connection := Some(k.(replay := held, replayBytes := k.replayBytes + frameBytes)))
  }

  /** A frame held until the handshake proves whose ticket opened the socket. */
  function Hold(c: Client, socket: nat, event: Event, frameBytes: nat): (r: Client)
    requires Valid(c) && IsActive(c, socket) && !c.connection.value.handshaken
    requires event.kind.Change?
    requires event.workspaceId == c.scope.value.workspaceId && event.position.epoch == c.cursor.value.epoch
    ensures Valid(r) && Extends(c.channels, r.channels) && |r.channels| == |c.channels| && r.cursor == c.cursor
  {
    var k := c.connection.value;
    if |k.replay| >= REPLAY_MAX_EVENTS || k.replayBytes + frameBytes > REPLAY_MAX_BYTES then
      RequireRecovery(Arrived(c, socket, event), socket)
    else Buffer(c, socket, event, frameBytes)
  }

  function DeliverLive(c: Client, socket: nat, event: Event): (r: Client)
    requires Valid(c) && IsActive(c, socket) && c.connection.value.handshaken
    requires event.kind.Change?
    requires event.workspaceId == c.scope.value.workspaceId && event.position.epoch == c.cursor.value.epoch
    ensures Valid(r) && Extends(c.channels, r.channels) && |r.channels| == |c.channels| && r.cursor == c.cursor
  {
    ProofSurvives(c.channels[socket].arrived, event, c.channels[socket].scope.userId);
    ExtendsTransitive(c.channels, Arrived(c, socket, event).channels,
                      DeliverEvent(Arrived(c, socket, event), socket, event).0.channels);
    DeliverEvent(Arrived(c, socket, event), socket, event).0
  }

  /** `#handleMessage` for a frame whose workspace and epoch are the connection's. */
  function HandleEvent(c: Client, socket: nat, event: Event, frameBytes: nat): (r: Client)
    requires Valid(c) && IsActive(c, socket)
    requires event.workspaceId == c.scope.value.workspaceId && event.position.epoch == c.cursor.value.epoch
    requires event.kind.Connected? ==> event.kind.userId == c.scope.value.userId
    ensures Valid(r) && Extends(c.channels, r.channels) && |r.channels| == |c.channels| && r.cursor == c.cursor
  {
    if event.kind.ResyncRequired? then
      var (c1, ok) := DeliverEvent(c, socket, event);
      if c.windowless && ok then RetainWindowless(c1, socket, event) else c1
    else if event.kind.Connected? then
      if c.connection.value.handshaken then RejectInvalidEvent(c, socket) else Handshake(c, socket, event)
    else if !c.connection.value.handshaken then Hold(c, socket, event, frameBytes)
    else DeliverLive(c, socket, event)
  }

  /** `#handleMessage`. */
  function HandleMessage(c: Client, socket: nat, frame: Frame): (r: Client)
    requires Valid(c)
    ensures Valid(r) && Extends(c.channels, r.channels) && |r.channels| == |c.channels| && r.cursor == c.cursor
  {
    if !IsActive(c, socket) then Drop(c, StaleSocket)
    else
      var workspaceId := c.connection.value.scope.workspaceId;
      match frame
      case Undecodable => RejectInvalidEvent(c, socket)
      case BadEnvelope => RejectInvalidEvent(c, socket)
      case Activity(w) =>
        if w != workspaceId then FailIncompatible(c, socket, WrongWorkspace)
        else if !c.connection.value.handshaken then RejectInvalidEvent(c, socket)
        else c
      case BadPayload(w, knownType) =>
        if w != workspaceId then FailIncompatible(c, socket, WrongWorkspace)
        else if knownType then RejectInvalidEvent(c, socket)
        else FailIncompatible(c, socket, InvalidEnvelope)
      case Product(event, frameBytes) =>
        if event.workspaceId != workspaceId then FailIncompatible(c, socket, WrongWorkspace)
        else if event.kind.Connected? && event.kind.userId != c.connection.value.scope.userId then
          FailIncompatible(c, socket, WrongUser)
        else if event.position.epoch != c.cursor.value.epoch then RejectInvalidEvent(c, socket)
        else HandleEvent(c, socket, event, frameBytes)
  }

  // ---------------------------------------------------------------------------------------------
  // Session lifecycle
  // ---------------------------------------------------------------------------------------------

  /** The latch survives a preparation that proves no progress beyond it. */
  predicate PreservesRecovery(c: Client, after: Position, userId: EntityId, workspaceId: EntityId)
  {
    c.recovery.Some?
    && var latch := c.recovery.value;
    && latch.userId == userId && latch.workspaceId == workspaceId
    && after.epoch == latch.cursor.epoch && !Later(after, latch.cursor)
  }

  /**
    `prepare`. The scope epoch comes from createRealtimeEpochAllocator, which throws when it is
    exhausted; by then the previous transport has been retired.
   */
  function Prepare(c: Client, after: Position, userId: EntityId, workspaceId: EntityId): (r: (Client, Option<Scope>))
    requires Valid(c)
    ensures Valid(r.0) && r.0.stopped && r.0.connection.None? && r.0.channels == c.channels
    ensures r.1.Some? <==> c.lastScopeEpoch < MAX_SAFE_INTEGER
    ensures r.1.Some? ==> r.0.scope == r.1 && r.0.cursor == Some(after) && SameUser(r.1.value, userId, workspaceId)
    ensures c.recovery.None? ==> r.0.recovery.None?
  {
    var c1 := Retired(c, !PreservesRecovery(c, after, userId, workspaceId));
    if c.lastScopeEpoch >= MAX_SAFE_INTEGER then (c1, None)
    else
      var scope := Scope(userId, workspaceId, c.lastScopeEpoch + 1);
      (c1.(lastScopeEpoch := c.lastScopeEpoch + 1, scope := Some(scope), cursor := Some(after)), Some(scope))
  }

  function Unlatched(c: Client): (r: Client)
    requires Valid(c)
    ensures Valid(r)
  {
    c.(recovery := None)
  }

  /** `activate`. */
  function Activate(c: Client, candidate: Scope): (r: (Client, bool))
    requires Valid(c)
    ensures Valid(r.0) && r.0.channels == c.channels && r.0.cursor == c.cursor && Quiet(c.host, r.0.host)
  {
    if c.scope != Some(candidate) then (Drop(c, StaleActivation), false)
    else if !c.stopped then (c, true)
    else
      var c1 := c.(windowless := false, ready := true);
      if c1.recovery.Some? then DeliverPendingRecovery(c1)
      else (BeginEpoch(c1, c1.cursor.value, candidate), true)
  }

  function PrepareAndActivate(c: Client, after: Position, userId: EntityId, workspaceId: EntityId): (r: (Client, bool))
    requires Valid(c)
    ensures Valid(r.0) && r.0.channels == c.channels
  {
    var (c1, scope) := Prepare(c, after, userId, workspaceId);
    if scope.None? then (c1, false) else Activate(c1, scope.value)
  }

  /** `start`. */
  function Start(c: Client, after: Position, userId: EntityId, workspaceId: EntityId): (r: (Client, bool))
    requires Valid(c)
    ensures Valid(r.0) && r.0.channels == c.channels
  {
    if PreservesRecovery(c, after, userId, workspaceId) then
      if c.scope.None? then
        PrepareAndActivate(c, after, userId, workspaceId)
      else Activate(c.(ready := true, windowless := false), c.scope.value)
    else
      var released := c.recovery.Some? && c.recovery.value.userId == userId && c.recovery.value.workspaceId == workspaceId;
      var c1 := if released then c.(recovery := None) else c;
      if c1.scope.Some? && SameUser(c1.scope.value, userId, workspaceId) && !c1.stopped then
        if c1.windowless then
          (BeginEpoch(c1.(ready := true, windowless := false), after, c1.scope.value), true)
        else
          AcknowledgeKeeps(c1, after);
          (Acknowledge(c1, after), true)
      else PrepareAndActivate(c1, after, userId, workspaceId)
  }

  function Flagged(c: Client, ready: bool, windowless: bool): (r: Client)
    requires Valid(c)
    ensures Valid(r)
  {
    c.(ready := ready, windowless := windowless)
  }

  function ObserveFrom(c: Client, scope: Scope): (r: Client)
    requires Valid(c) && c.cursor.Some? && c.recovery.None?
    ensures Valid(r) && r.channels == c.channels && r.cursor == c.cursor && Quiet(c.host, r.host)
    ensures r.recovery.None?
    ensures !c.host.OnState(Connecting).1.resets ==> Running(r) && r.scope == Some(scope) && r.ticketEpoch.Some?
  {
    BeginEpoch(Flagged(c, false, true), c.cursor.value, scope)
  }

  function ObserveAfresh(c: Client, userId: EntityId, workspaceId: EntityId): (r: Client)
    requires Valid(c) && c.cursor.Some? && c.recovery.None?
    ensures Valid(r) && r.channels == c.channels && r.cursor == c.cursor && Quiet(c.host, r.host)
    ensures r.recovery.None?
  {
    var (c1, scope) := Prepare(c, c.cursor.value, userId, workspaceId);
    if scope.None? then c1 else ObserveFrom(c1, scope.value)
  }

  /** `observeOnly`. */
  function ObserveOnly(c: Client, userId: EntityId, workspaceId: EntityId): (r: Client)
    requires Valid(c)
    ensures Valid(r) && r.channels == c.channels && r.cursor == c.cursor && Quiet(c.host, r.host)
    ensures c.recovery.Some? ==>
              r.recovery ==
              if c.cursor.Some? && (c.recovery.value.userId != userId || c.recovery.value.workspaceId != workspaceId) then None
              else c.recovery
  {
    if c.cursor.None? then c
    else if c.recovery.Some? && c.recovery.value.userId == userId && c.recovery.value.workspaceId == workspaceId then
      Flagged(c, false, true)
    else
      var c1 := Unlatched(c);
      if !c1.stopped && c1.scope.Some? && SameUser(c1.scope.value, userId, workspaceId) then Flagged(c1, false, true)
      else if c1.scope.Some? then ObserveFrom(c1, c1.scope.value)
      else ObserveAfresh(c1, userId, workspaceId)
  }

  /** `consumerUnavailable`. */
  function ConsumerUnavailable(c: Client): (r: Client)
    requires Valid(c)
    ensures Valid(r)
  {
    c.(ready := false)
  }

  /** `stop`. */
  function Stop(c: Client, candidate: Option<Scope>): (r: Client)
    requires Valid(c)
    ensures Valid(r) && r.channels == c.channels && r.cursor == c.cursor && Quiet(c.host, r.host)
  {
    if candidate.Some? && c.scope != candidate then Drop(c, StaleControl) else StopTransport(c, false)
  }

  // ---------------------------------------------------------------------------------------------
  // Runs
  // ---------------------------------------------------------------------------------------------

  datatype Step =
    | PrepareStep(after: Position, userId: EntityId, workspaceId: EntityId)
    | ActivateStep(scope: Scope)
    | StartStep(after: Position, userId: EntityId, workspaceId: EntityId)
    | ConsumerUnavailableStep
    | ObserveOnlyStep(userId: EntityId, workspaceId: EntityId)
    | AcknowledgeStep(position: Position)
    | AcknowledgeScopedStep(scope: Scope, position: Position)
    | StopStep(candidate: Option<Scope>)
    | ResetStep
    | TicketGrantedStep(epoch: nat, created: bool)
    | TicketRejectedStep(epoch: nat, protocolMismatch: bool, retryable: bool)
    | TimerStep
    | MessageStep(socket: nat, frame: Frame)
    | SocketErrorStep(socket: nat)
    | SocketClosedStep(socket: nat, code: nat)
    | UnexpectedResponseStep(socket: nat, mismatch: bool, status: nat)

  function Apply(c: Client, step: Step): (r: Client)
    requires Valid(c)
    ensures Valid(r) && Extends(c.channels, r.channels)
  {
    match step
    case PrepareStep(after, u, w) => Prepare(c, after, u, w).0
    case ActivateStep(scope) => Activate(c, scope).0
    case StartStep(after, u, w) => Start(c, after, u, w).0
    case ConsumerUnavailableStep => ConsumerUnavailable(c)
    case ObserveOnlyStep(u, w) => ObserveOnly(c, u, w)
    case AcknowledgeStep(position) => AcknowledgeKeeps(c, position); Acknowledge(c, position)
    case AcknowledgeScopedStep(scope, position) => AcknowledgeScoped(c, scope, position)
    case StopStep(candidate) => Stop(c, candidate)
    case ResetStep => ResetSession(c)
    case TicketGrantedStep(epoch, created) => TicketGranted(c, epoch, created)
    case TicketRejectedStep(epoch, mismatch, retryable) => TicketRejected(c, epoch, mismatch, retryable)
    case TimerStep => TimerFired(c)
    case MessageStep(socket, frame) => HandleMessage(c, socket, frame)
    case SocketErrorStep(socket) => SocketError(c, socket)
    case SocketClosedStep(socket, code) => SocketClosed(c, socket, code)
    case UnexpectedResponseStep(socket, mismatch, status) => UnexpectedResponse(c, socket, mismatch, status)
  }

  function Initial(host: Host): (c: Client)
    ensures Valid(c)
  {
    Client(host, None, None, 0, None, [], 0, None, None, 0, 0, true, false, false, false, None, [])
  }

  function Run(c: Client, steps: seq<Step>): (r: Client)
    requires Valid(c)
    ensures Valid(r) && Extends(c.channels, r.channels)
    decreases |steps|
  {
    if steps == [] then c else Apply(Run(c, steps[..|steps| - 1]), steps[|steps| - 1])
  }
}
