/**
  What the calls, settlements and socket callbacks of the realtime client end in, for every consumer
  (packages/api-client/src/realtime.ts:207-760): a new generation, a pending reconnect of the same one, a pause for the
  renderer, an incompatible stop, or the end of the session.
 */
module RealtimeOutcomes {
  import opened Wrappers
  import opened SyncPositions
  import opened Consumer
  import opened Realtime

  // ---------------------------------------------------------------------------------------------
  // How a generation ends
  // ---------------------------------------------------------------------------------------------

  predicate Nothing(r: Client)
  {
    r.ticketEpoch.None? && r.timer.None? && r.connection.None?
  }

  /** The session is over: nothing attached, nothing retained and nothing outstanding. */
  predicate Over(c: Client, r: Client)
  {
    && r.stopped && !r.incompatible && r.scope.None? && r.recovery.None? && Nothing(r)
    && r.pending == [] && r.pendingBytes == 0 && !r.ready && !r.windowless
    && r.epoch > c.epoch && r.cursor == c.cursor && r.lastScopeEpoch == c.lastScopeEpoch && r.channels == c.channels
  }

  /** The same generation waits for its next attempt, unless the consumer, told by `h`, resets the session. */
  predicate Waits(c: Client, r: Client, h: Host)
  {
    var (after, reply) := h.OnState(Reconnecting);
    if reply.resets then Over(c, r)
    else r == c.(host := after, connection := None, ticketEpoch := None, timer := Some(c.epoch), failures := c.failures + 1)
  }

  /** A failure the consumer may take over; otherwise the generation waits. */
  predicate Fails(c: Client, r: Client, h: Host, failure: TransportFailure)
  {
    var (after, reply) := h.OnFailure(failure);
    if reply.verdict.Yes? || reply.resets then Over(c, r) else Waits(c, r, after)
  }

  /** Nothing is tried again before an explicit start. */
  predicate Refused(c: Client, r: Client, h: Host)
  {
    var (after, reply) := h.OnState(Incompatible);
    if reply.resets then Over(c, r)
    else r == c.(host := after, incompatible := true, connection := None, ticketEpoch := None)
  }

  /** The transport stops until the renderer starts it again; the position is kept. */
  predicate Pauses(c: Client, r: Client, h: Host)
  {
    var (after, reply) := h.OnState(Offline);
    if reply.resets then Over(c, r)
    else r == c.(host := after, epoch := c.epoch + 1, stopped := true, scope := None, ready := false, windowless := false,
                 connection := None)
  }

  /** A generation that has not called back yet: its ticket is requested unless the consumer resets the session. */
  ghost predicate Begins(c: Client, r: Client, after: Position, scope: Scope)
  {
    var (h, reply) := c.host.OnState(Connecting);
    && r.epoch > c.epoch && r.cursor == Some(after) && r.recovery.None? && r.timer.None? && r.connection.None?
    && r.channels == c.channels && r.lastScopeEpoch == c.lastScopeEpoch
    && if reply.resets then r.stopped && r.scope.None? && Nothing(r) && r.pending == []
       else
         && Running(r) && r.scope == Some(scope) && r.ticketEpoch == Some(r.epoch) && r.failures == 0
         && r.host == h && r.ready == c.ready && r.windowless == c.windowless
         && forall d :: d in r.pending <==>
              d in c.pending && d.position.epoch == after.epoch && d.position.sequence > after.sequence
  }

  // ---------------------------------------------------------------------------------------------
  // Progress
  // ---------------------------------------------------------------------------------------------

  lemma {:induction false} KeptMeans(pending: seq<Delivery>, cursor: Position)
    requires forall i :: 0 <= i < |pending| ==> pending[i].position.epoch == cursor.epoch
    ensures forall d :: d in StillPending(pending, cursor) <==> d in pending && d.position.sequence > cursor.sequence
    ensures |StillPending(pending, cursor)| == |pending| <==> forall d :: d in pending ==> d.position.sequence > cursor.sequence
  {
    if pending != [] {
      KeptMeans(pending[..|pending| - 1], cursor);
      assert pending == pending[..|pending| - 1] + [pending[|pending| - 1]];
    }
  }

  /** What an acknowledgement leaves pending is what lies above it. */
  ghost predicate Forgets(c: Client, r: Client, position: Position)
  {
    && (forall d :: d in r.pending <==>
          d in c.pending && d.position.epoch == position.epoch && d.position.sequence > position.sequence)
    && r.failures == (if exists d :: d in c.pending && d.position.sequence <= position.sequence then 0 else c.failures)
  }

  lemma AcceptedMeans(c: Client, position: Position)
    requires Window(c) && c.cursor.Some? && position.epoch == c.cursor.value.epoch
    ensures Forgets(c, AcceptAcknowledgement(c, position), position)
  {
    var cursor := LaterCursor(c.cursor.value, position);
    KeptMeans(c.pending, cursor);
    forall d | d in c.pending
      ensures d.position.epoch == position.epoch && d.position.sequence > c.cursor.value.sequence
    {
      var i :| 0 <= i < |c.pending| && c.pending[i] == d;
      assert Later(c.pending[i].position, c.cursor.value);
    }
    hide StillPending;
  }

  /** An accepted acknowledgement forgets exactly what it covers, and any it covers clears the failures. */
  lemma AcknowledgeMeans(c: Client, position: Position)
    requires Valid(c) && c.cursor.Some? && position.epoch == c.cursor.value.epoch
    ensures
      var r := Apply(c, AcknowledgeStep(position));
      Forgets(c, r, position) && r.cursor == Some(LaterCursor(c.cursor.value, position)) && r.host == c.host
  {
    AcceptedMeans(c, position);
    hide AcceptAcknowledgement, Forgets, Generation, Latch, Channels, LiveSocket, Settled;
  }

  lemma StaleAcknowledgement(c: Client, scope: Scope, position: Position)
    requires Valid(c)
    ensures c.scope == Some(scope) ==> Apply(c, AcknowledgeScopedStep(scope, position)) == Apply(c, AcknowledgeStep(position))
    ensures c.scope != Some(scope) ==>
              Apply(c, AcknowledgeScopedStep(scope, position)) == c.(host := c.host.OnDrop(StaleControl))
    ensures c.cursor.None? || position.epoch != c.cursor.value.epoch ==>
              Apply(c, AcknowledgeStep(position)) == c.(host := c.host.OnDrop(StaleControl))
  {
    hide Core, Settled;
  }

  // ---------------------------------------------------------------------------------------------
  // Tickets, timers and sockets
  // ---------------------------------------------------------------------------------------------

  lemma WaitingMeans(c: Client, d: Client)
    requires Core(d) && Running(d) && Activities(d) == 0
    requires d == c.(host := d.host, connection := None, ticketEpoch := None)
    ensures Waits(c, ScheduleReconnect(d, d.epoch), d.host)
  {
    hide Core;
  }

  lemma AskingMeans(c: Client, failure: TransportFailure)
    ensures
      var (h, reply) := c.host.OnFailure(failure);
      var (c1, handled) := AskFailure(c, failure);
      && handled == reply.verdict.Yes?
      && (if reply.resets then Over(c, c1) else c1 == c.(host := h))
  {
  }

  /** A fired timer asks for the next ticket of the same generation; without a timer nothing happens. */
  lemma TimerMeans(c: Client)
    requires Valid(c)
    ensures Apply(c, TimerStep) == if c.timer.Some? then c.(timer := None, ticketEpoch := Some(c.epoch)) else c
  {
    hide Channels, LiveSocket, Window, Settled, Latch;
  }

  /** A rejected ticket: late, of another protocol, taken over by the consumer, or tried again. */
  lemma TicketRejectedMeans(c: Client, epoch: nat, mismatch: bool, retryable: bool)
    requires Valid(c)
    ensures
      var r := Apply(c, TicketRejectedStep(epoch, mismatch, retryable));
      if c.ticketEpoch != Some(epoch) then r == c.(host := c.host.OnDrop(LateTicket))
      else if mismatch then Refused(c, r, c.host)
      else Fails(c, r, c.host, TicketFailure(retryable))
  {
    if c.ticketEpoch == Some(epoch) && !mismatch {
      var d := c.(ticketEpoch := None);
      AskingMeans(d, TicketFailure(retryable));
      var (c1, handled) := AskFailure(d, TicketFailure(retryable));
      if !handled && !d.host.OnFailure(TicketFailure(retryable)).1.resets { WaitingMeans(c, c1); }
      hide AskFailure;
    }
    hide Channels, LiveSocket, Window, Settled, Latch, ScheduleReconnect;
  }

  /** A granted ticket opens a socket that has yet to prove its user; one that cannot be created is tried again. */
  lemma TicketGrantedMeans(c: Client, epoch: nat, created: bool)
    requires Valid(c)
    ensures
      var r := Apply(c, TicketGrantedStep(epoch, created));
      if c.ticketEpoch != Some(epoch) then r == c.(host := c.host.OnDrop(LateTicket))
      else if !created then Waits(c, r, c.host)
      else
        && r.connection.Some?
        && var k := r.connection.value;
        && k.socket == |c.channels| && k.epoch == c.epoch && Some(k.scope) == c.scope && !k.handshaken && k.replay == []
        && r == c.(ticketEpoch := None, connection := r.connection,
                   channels := c.channels + [Channel(c.scope.value, c.cursor.value, [], [])])
  {
    if c.ticketEpoch == Some(epoch) && !created { WaitingMeans(c, c.(ticketEpoch := None)); }
    hide Channels, LiveSocket, Window, Settled, Latch, ScheduleReconnect;
  }

  lemma RetiringMeans(c: Client, d: Client, socket: nat)
    requires Valid(c) && IsActive(c, socket) && d == c.(host := d.host)
    ensures Waits(c, RetireConnection(d, socket), d.host)
  {
    WaitingMeans(c, d.(connection := None));
    hide Channels, LiveSocket, Window, Settled, Latch, ScheduleReconnect;
  }

  lemma SocketErrorMeans(c: Client, socket: nat)
    requires Valid(c)
    ensures var r := Apply(c, SocketErrorStep(socket)); if IsActive(c, socket) then Waits(c, r, c.host) else r == c
  {
    if IsActive(c, socket) { RetiringMeans(c, c, socket); }
    hide Core, Settled;
  }

  lemma SocketClosedMeans(c: Client, socket: nat, code: nat)
    requires Valid(c)
    ensures
      var r := Apply(c, SocketClosedStep(socket, code));
      if IsActive(c, socket) then Fails(c, r, c.host, ClosedFailure(code)) else r == c
  {
    if IsActive(c, socket) {
      AskingMeans(c, ClosedFailure(code));
      var (c1, handled) := AskFailure(c, ClosedFailure(code));
      if !handled && !c.host.OnFailure(ClosedFailure(code)).1.resets { WaitingMeans(c, c1.(connection := None)); }
      hide AskFailure;
    }
    hide Channels, LiveSocket, Window, Settled, Latch, ScheduleReconnect;
  }

  lemma FailIncompatibleMeans(c: Client, socket: nat, reason: DropReason)
    requires Valid(c) && IsActive(c, socket)
    ensures Refused(c, FailIncompatible(c, socket, reason), c.host.OnDrop(reason))
  {
    hide Channels, LiveSocket, Window, Settled, Latch;
  }

  lemma RejectedFrameMeans(c: Client, socket: nat)
    requires Valid(c) && IsActive(c, socket)
    ensures Fails(c, RejectInvalidEvent(c, socket), c.host.OnDrop(InvalidEnvelope), InvalidFrame)
  {
    var d := c.(host := c.host.OnDrop(InvalidEnvelope));
    AskingMeans(d, InvalidFrame);
    var (c1, handled) := AskFailure(d, InvalidFrame);
    if !handled && !d.host.OnFailure(InvalidFrame).1.resets { RetiringMeans(c, c1, socket); }
    hide Core, Settled, AskFailure, RetireConnection;
  }

  lemma UnexpectedResponseMeans(c: Client, socket: nat, mismatch: bool, status: nat)
    requires Valid(c)
    ensures
      var r := Apply(c, UnexpectedResponseStep(socket, mismatch, status));
      if !IsActive(c, socket) then r == c
      else if mismatch then Refused(c, r, c.host.OnDrop(ProtocolMismatch))
      else Fails(c, r, c.host, HandshakeFailure(status))
  {
    if IsActive(c, socket) {
      FailIncompatibleMeans(c, socket, ProtocolMismatch);
      AskingMeans(c, HandshakeFailure(status));
      var (c1, handled) := AskFailure(c, HandshakeFailure(status));
      if !handled && !c.host.OnFailure(HandshakeFailure(status)).1.resets { RetiringMeans(c, c1, socket); }
    }
    hide Core, Settled, AskFailure, RetireConnection, FailIncompatible;
  }

  // ---------------------------------------------------------------------------------------------
  // Lifecycle
  // ---------------------------------------------------------------------------------------------

  lemma RebasedMeans(c: Client, after: Position)
    requires Window(c)
    ensures
      forall d :: d in Rebased(c, after).pending <==>
        d in c.pending && d.position.epoch == after.epoch && d.position.sequence > after.sequence
  {
    if c.cursor.Some? && after.epoch == c.cursor.value.epoch {
      AcceptedMeans(c, after);
    } else {
      forall d | d in c.pending ensures d.position.epoch != after.epoch {
        var i :| 0 <= i < |c.pending| && c.pending[i] == d;
      }
    }
    hide AcceptAcknowledgement;
  }

  lemma BeginningMeans(c: Client, after: Position, scope: Scope)
    requires Core(c) && c.recovery.None?
    ensures Begins(c, BeginEpoch(c, after, scope), after, scope)
  {
    RebasedMeans(c, after);
    hide Rebased, Generation, Latch, Channels, LiveSocket;
  }

  /** The latch is for this user and workspace, and `after` is no progress beyond it. */
  predicate Latched(c: Client, after: Position, userId: EntityId, workspaceId: EntityId)
  {
    && c.recovery.Some? && c.recovery.value.userId == userId && c.recovery.value.workspaceId == workspaceId
    && c.recovery.value.cursor.epoch == after.epoch && after.sequence <= c.recovery.value.cursor.sequence
  }

  /** A preparation attaches a scope that nothing had, at the given position, and starts nothing. */
  lemma PrepareMeans(c: Client, after: Position, userId: EntityId, workspaceId: EntityId)
    requires Valid(c)
    ensures
      var (r, scope) := Prepare(c, after, userId, workspaceId);
      && r == Apply(c, PrepareStep(after, userId, workspaceId))
      && r.stopped && !r.incompatible && !r.ready && !r.windowless && Nothing(r) && r.pending == []
      && r.epoch > c.epoch && r.host == c.host && r.channels == c.channels
      && r.recovery == (if Latched(c, after, userId, workspaceId) then c.recovery else None)
      && scope == r.scope
      && (if c.lastScopeEpoch < MAX_SAFE_INTEGER then
            r.scope == Some(Scope(userId, workspaceId, r.lastScopeEpoch)) && r.lastScopeEpoch == c.lastScopeEpoch + 1
            && r.cursor == Some(after)
          else r.scope.None? && r.lastScopeEpoch == c.lastScopeEpoch && r.cursor == c.cursor)
  {
    hide Core, Settled;
  }

  /** What a latched client answers: the control is offered, and a consumer that does not take it is not ready. */
  predicate OffersLatch(c: Client, r: Client, answer: bool)
    requires c.recovery.Some?
  {
    var (h, reply) := c.host.OnEvent(c.recovery.value.event);
    && answer == reply.verdict.Yes?
    && if reply.resets then Over(c, r) else r == c.(host := h, ready := answer, windowless := false)
  }

  lemma ActivateMeans(c: Client, scope: Scope)
    requires Valid(c)
    ensures
      var (r, answer) := Activate(c, scope);
      && r == Apply(c, ActivateStep(scope))
      && if c.scope != Some(scope) then r == c.(host := c.host.OnDrop(StaleActivation)) && !answer
         else if !c.stopped then r == c && answer
         else if c.recovery.Some? then OffersLatch(c, r, answer)
         else answer && Begins(c.(ready := true, windowless := false), r, c.cursor.value, scope)
  {
    if c.scope == Some(scope) && c.stopped && c.recovery.None? {
      BeginningMeans(c.(ready := true, windowless := false), c.cursor.value, scope);
    }
    hide Channels, LiveSocket, Window, Settled, BeginEpoch;
  }

  /** A prepared scope that is activated at once. */
  ghost predicate Restarts(c: Client, r: Client, answer: bool, after: Position, userId: EntityId, workspaceId: EntityId)
    requires Valid(c)
  {
    var (p, scope) := Prepare(c, after, userId, workspaceId);
    if scope.None? then r == p && !answer else (r, answer) == Activate(p, scope.value)
  }

  /**
    A start without progress beyond a latch offers its control again and opens nothing. Otherwise a running client of
    that user and workspace acknowledges the position, or leaves windowless observation by a new generation; any other
    client is prepared and activated.
   */
  lemma StartMeans(c: Client, after: Position, userId: EntityId, workspaceId: EntityId)
    requires Valid(c)
    ensures
      var (r, answer) := Start(c, after, userId, workspaceId);
      && r == Apply(c, StartStep(after, userId, workspaceId))
      && if Latched(c, after, userId, workspaceId) && c.scope.Some? then OffersLatch(c, r, answer)
         else if c.scope.Some? && SameUser(c.scope.value, userId, workspaceId) && !c.stopped then
           answer && (if c.windowless then Begins(c.(ready := true, windowless := false), r, after, c.scope.value)
                      else r == Acknowledge(c, after))
         else
           Restarts(if c.recovery.Some? && c.recovery.value.userId == userId && c.recovery.value.workspaceId == workspaceId
                       && !Latched(c, after, userId, workspaceId) then Unlatched(c) else c,
                    r, answer, after, userId, workspaceId)
  {
    assert c.recovery.Some? ==> c.stopped;
    if Latched(c, after, userId, workspaceId) && c.scope.Some? {
      ActivateMeans(c.(ready := true, windowless := false), c.scope.value);
    } else if c.scope.Some? && SameUser(c.scope.value, userId, workspaceId) && !c.stopped && c.windowless {
      BeginningMeans(c.(ready := true, windowless := false), after, c.scope.value);
    }
    hide Core, Settled, Prepare, Activate, BeginEpoch, Acknowledge;
  }

  /** A window that closes leaves an observer; nothing is observed before a first position is known. */
  lemma ObserveOnlyMeans(c: Client, userId: EntityId, workspaceId: EntityId)
    requires Valid(c)
    ensures
      var r := Apply(c, ObserveOnlyStep(userId, workspaceId));
      var mine := c.recovery.Some? && c.recovery.value.userId == userId && c.recovery.value.workspaceId == workspaceId;
      if c.cursor.None? then r == c
      else if mine || (!c.stopped && c.scope.Some? && SameUser(c.scope.value, userId, workspaceId)) then
        r == c.(ready := false, windowless := true)
      else if c.scope.Some? then
        Begins(c.(recovery := None, ready := false, windowless := true), r, c.cursor.value, c.scope.value)
      else
        var (p, scope) := Prepare(Unlatched(c), c.cursor.value, userId, workspaceId);
        if scope.None? then r == p else Begins(p.(ready := false, windowless := true), r, c.cursor.value, scope.value)
  {
    hide Core, Settled, Prepare, BeginEpoch, Begins;
    assert c.recovery.Some? ==> c.stopped by { LatchIsStopped(c); }
    if c.cursor.Some? {
      var c1 := Unlatched(c);
      if c.scope.Some? {
        BeginningMeans(Flagged(c1, false, true), c.cursor.value, c.scope.value);
      } else {
        var (p, scope) := Prepare(c1, c.cursor.value, userId, workspaceId);
        if scope.Some? { BeginningMeans(Flagged(p, false, true), c.cursor.value, scope.value); }
      }
    }
  }

  lemma LatchIsStopped(c: Client)
    requires Core(c)
    ensures c.recovery.Some? ==> c.stopped
  {
  }

  /** Stopping and resetting leave the session, once the scope matches; only a stop keeps a latch. */
  lemma StopMeans(c: Client, candidate: Option<Scope>)
    requires Valid(c)
    ensures
      var r := Apply(c, StopStep(candidate));
      if candidate.Some? && c.scope != candidate then r == c.(host := c.host.OnDrop(StaleControl))
      else Over(c, r.(recovery := None)) && r.recovery == c.recovery && r.host == c.host.OnState(Offline).0
    ensures Over(c, Apply(c, ResetStep)) && Apply(c, ResetStep).host == c.host.OnState(Offline).0
    ensures Apply(c, ConsumerUnavailableStep) == c.(ready := false)
  {
    hide Core, Settled;
  }
}
