/**
  WorkspaceRealtimeClient (packages/api-client/src/realtime.ts) as the object it is: fields updated
  step by step, buffers changed in place. Every method is proved to take the client from one value
  of `Model()` to the one that the transition functions of module Realtime give.
 */
module RealtimeClient {
  import opened Wrappers
  import opened SyncPositions
  import opened Consumer
  import Spec = Realtime

  class WorkspaceRealtimeClient {
    var host: Host
    var cursor: Option<Position>
    var scope: Option<Scope>
    var lastScopeEpoch: nat
    var connection: Option<Spec.Connection>
    var pendingDelivery: seq<Spec.Delivery>
    var pendingDeliveryBytes: int
    var ticketEpoch: Option<nat>
    var timer: Option<nat>
    var failures: nat
    var epoch: nat
    var stopped: bool
    var ready: bool
    var windowless: bool
    var incompatible: bool
    var recovery: Option<Spec.Recovery>
    ghost var channels: seq<Spec.Channel>

    ghost function Model(): Spec.Client
      reads this
    {
      Spec.Client(host, cursor, scope, lastScopeEpoch, connection, pendingDelivery, pendingDeliveryBytes,
                  ticketEpoch, timer, failures, epoch, stopped, ready, windowless, incompatible, recovery, channels)
    }

    constructor (host: Host)
      ensures Model() == Spec.Initial(host)
    {
      this.host := host;
      cursor, scope, lastScopeEpoch := None, None, 0;
      connection, ticketEpoch, timer, recovery := None, None, None, None;
      pendingDelivery, pendingDeliveryBytes := [], 0;
      failures, epoch := 0, 0;
      stopped, ready, windowless, incompatible := true, false, false, false;
      channels := [];
    }

    // -------------------------------------------------------------------------------------------
    // Predicates of the source
    // -------------------------------------------------------------------------------------------

    predicate IsCurrentEpoch(e: nat)
      reads this
      ensures IsCurrentEpoch(e) == Spec.IsCurrentEpoch(Model(), e)
    {
      !stopped && !incompatible && epoch == e
    }

    predicate IsActiveConnection(socket: nat)
      reads this
      ensures IsActiveConnection(socket) == Spec.IsActive(Model(), socket)
    {
      connection.Some? && connection.value.socket == socket
      && scope == Some(connection.value.scope) && IsCurrentEpoch(connection.value.epoch)
    }

    predicate OwnsTicketRequest(e: nat)
      reads this
      ensures OwnsTicketRequest(e) == Spec.OwnsTicket(Model(), e)
    {
      ticketEpoch == Some(e) && IsCurrentEpoch(e)
    }

    predicate PreservesRecovery(after: Position, userId: EntityId, workspaceId: EntityId)
      reads this
      ensures PreservesRecovery(after, userId, workspaceId)
              == Spec.PreservesRecovery(Model(), after, userId, workspaceId)
    {
      recovery.Some? && recovery.value.userId == userId && recovery.value.workspaceId == workspaceId
      && after.epoch == recovery.value.cursor.epoch && !Later(after, recovery.value.cursor)
    }

    // -------------------------------------------------------------------------------------------
    // Callbacks
    // -------------------------------------------------------------------------------------------

    method DeliverState(state: ConnectionState) returns (returned: bool)
      modifies this
      ensures (Model(), returned) == Spec.DeliverState(old(Model()), state)
    {
      var (h, reply) := host.OnState(state);
      host := h;
      if reply.resets { ResetSession(); }
      returned := !reply.verdict.Raised?;
    }

    method AskFailure(failure: TransportFailure) returns (handled: bool)
      modifies this
      ensures (Model(), handled) == Spec.AskFailure(old(Model()), failure)
    {
      var (h, reply) := host.OnFailure(failure);
      host := h;
      if reply.resets { ResetSession(); }
      handled := reply.verdict.Yes?;
    }

    method OfferEvent(event: Event) returns (verdict: Verdict)
      modifies this
      ensures
        var answer := old(host).OnEvent(event);
        verdict == answer.1.verdict
        && Model() == Spec.Reentered(old(Model()).(host := answer.0), answer.1)
    {
      var (h, reply) := host.OnEvent(event);
      host := h;
      if reply.resets { ResetSession(); }
      verdict := reply.verdict;
    }

    method Drop(reason: DropReason)
      modifies this
      ensures Model() == Spec.Drop(old(Model()), reason)
    {
      host := host.OnDrop(reason);
    }

    method ObserveEvent(event: Event)
      modifies this
      ensures
        var answer := old(host).OnWindowlessEvent(event);
        Model() == Spec.Reentered(old(Model()).(host := answer.0), answer.1)
    {
      hide Host.OnWindowlessEvent, Spec.ResetSession;
      var (h, reply) := host.OnWindowlessEvent(event);
      host := h;
      if reply.resets { ResetSession(); }
    }

    // -------------------------------------------------------------------------------------------
    // Leaving a generation
    // -------------------------------------------------------------------------------------------

    /** The new epoch makes every outstanding callback of the old one inert. */
    method LeaveEpoch(next: Option<Scope>)
      modifies this
      ensures Model() == old(Model()).(epoch := old(epoch) + 1, stopped := true, scope := next)
    {
      epoch := epoch + 1;
      stopped, scope := true, next;
    }

    method CancelActivity()
      modifies this
      ensures Model() == old(Model()).(ticketEpoch := None, timer := None, connection := None)
    {
      ticketEpoch := None;
      timer := None;
      connection := None;
    }

    method ForgetDeliveries()
      modifies this
      ensures Model() == old(Model()).(pending := [], pendingBytes := 0)
    {
      pendingDelivery, pendingDeliveryBytes := [], 0;
    }

    method SetFlags(ready: bool, windowless: bool)
      modifies this
      ensures Model() == old(Model()).(ready := ready, windowless := windowless)
    {
      this.ready, this.windowless := ready, windowless;
    }

    method RetireTransport(clearRecovery: bool, announceOffline: bool)
      modifies this
      ensures Model() == if announceOffline then Spec.StopTransport(old(Model()), clearRecovery)
                         else Spec.Retired(old(Model()), clearRecovery)
    {
      hide Host.OnState;
      LeaveEpoch(None);
      incompatible := false;
      ForgetDeliveries();
      SetFlags(false, false);
      if clearRecovery { recovery := None; }
      CancelActivity();
      if announceOffline { host := host.OnState(Offline).0; }
    }

    method ResetSession()
      modifies this
      ensures Model() == Spec.ResetSession(old(Model()))
    {
      RetireTransport(true, true);
    }

    method Stop(candidate: Option<Scope>)
      requires Spec.Valid(Model())
      modifies this
      ensures Model() == Spec.Stop(old(Model()), candidate)
    {
      hide Spec.StopTransport, Spec.Retired;
      if candidate.Some? && scope != candidate {
        Drop(StaleControl);
        return;
      }
      RetireTransport(false, true);
    }

    // -------------------------------------------------------------------------------------------
    // Progress
    // -------------------------------------------------------------------------------------------

    /** The filter loop over `#pendingDelivery` with its running byte count. */
    method DropAcknowledged(moved: Position) returns (acknowledgedDelivery: bool)
      requires Spec.Window(Model()) && cursor.Some? && moved.epoch == cursor.value.epoch
      modifies this`pendingDelivery, this`pendingDeliveryBytes
      ensures pendingDelivery == Spec.StillPending(old(pendingDelivery), moved)
      ensures pendingDeliveryBytes == Spec.SumBytes(pendingDelivery)
      ensures acknowledgedDelivery == (|pendingDelivery| < |old(pendingDelivery)|)
    {
      hide Spec.StillPending, Spec.SumBytes;
      ghost var before := pendingDelivery;
      var kept: seq<Spec.Delivery> := [];
      acknowledgedDelivery := false;
      var i := 0;
      FilterStart(before, moved);
      while i < |pendingDelivery|
        invariant 0 <= i <= |pendingDelivery| && pendingDelivery == before
        invariant kept == Spec.StillPending(before[..i], moved)
        invariant acknowledgedDelivery == (|kept| < i)
        invariant pendingDeliveryBytes == Spec.SumBytes(before) - Spec.SumBytes(before[..i]) + Spec.SumBytes(kept)
      {
        var delivery := pendingDelivery[i];
        FilterStep(before, i, moved);
        if Later(delivery.position, moved) {
          kept := kept + [delivery];
        } else {
          pendingDeliveryBytes := pendingDeliveryBytes - delivery.bytes;
          acknowledgedDelivery := true;
        }
        i := i + 1;
      }
      assert before[..|before|] == before;
      pendingDelivery := kept;
    }

    static lemma FilterStart(pending: seq<Spec.Delivery>, moved: Position)
      ensures Spec.StillPending(pending[..0], moved) == [] && Spec.SumBytes(pending[..0]) == 0
    {
    }

    static lemma FilterStep(pending: seq<Spec.Delivery>, i: nat, moved: Position)
      requires i < |pending|
      requires forall j :: 0 <= j < |pending| ==> pending[j].position.epoch == moved.epoch
      ensures
        var kept, delivery := Spec.StillPending(pending[..i], moved), pending[i];
        && Spec.StillPending(pending[..i + 1], moved)
           == (if Later(delivery.position, moved) then kept + [delivery] else kept)
        && Spec.SumBytes(pending[..i + 1]) == Spec.SumBytes(pending[..i]) + delivery.bytes
        && Spec.SumBytes(kept + [delivery]) == Spec.SumBytes(kept) + delivery.bytes
    {
      var kept, delivery := Spec.StillPending(pending[..i], moved), pending[i];
      assert pending[..i + 1][..i] == pending[..i];
      assert (kept + [delivery])[..|kept|] == kept;
    }

    method Acknowledge(input: Position)
      requires Spec.Window(Model())
      modifies this
      ensures Model() == Spec.Acknowledge(old(Model()), input)
    {
      hide Spec.StillPending, Spec.SumBytes;
      if cursor.None? || input.epoch != cursor.value.epoch {
        Drop(StaleControl);
        return;
      }
      var moved := LaterCursor(cursor.value, input);
      var acknowledgedDelivery := DropAcknowledged(moved);
      cursor := Some(moved);
      if acknowledgedDelivery { failures := 0; }
    }

    method AcknowledgeScoped(candidate: Scope, input: Position)
      requires Spec.Valid(Model())
      modifies this
      ensures Model() == Spec.AcknowledgeScoped(old(Model()), candidate, input)
    {
      hide Spec.Acknowledge;
      if scope != Some(candidate) {
        Drop(StaleControl);
        return;
      }
      Acknowledge(input);
    }

    // -------------------------------------------------------------------------------------------
    // Tickets, timers and sockets
    // -------------------------------------------------------------------------------------------

    method Connect(e: nat)
      requires Spec.Core(Model()) && (IsCurrentEpoch(e) ==> timer.None?)
      modifies this
      ensures Model() == Spec.Connect(old(Model()), e)
    {
      hide Spec.Core;
      if !IsCurrentEpoch(e) || connection.Some? || ticketEpoch.Some? { return; }
      ticketEpoch := Some(e);
    }

    method ScheduleReconnect(e: nat)
      requires Spec.Core(Model())
      requires IsCurrentEpoch(e) ==> ticketEpoch.None? && connection.None?
      modifies this
      ensures Model() == Spec.ScheduleReconnect(old(Model()), e)
    {
      hide Spec.Core, Spec.DeliverState, Spec.AfterCallback;
      if !IsCurrentEpoch(e) || timer.Some? { return; }
      var _ := DeliverState(Reconnecting);
      if !IsCurrentEpoch(e) || timer.Some? { return; }
      failures := failures + 1;
      timer := Some(e);
    }

    method RetireConnection(socket: nat)
      requires Spec.Core(Model())
      modifies this
      ensures Model() == Spec.RetireConnection(old(Model()), socket)
    {
      hide Spec.ScheduleReconnect;
      if !IsActiveConnection(socket) { return; }
      var e := connection.value.epoch;
      connection := None;
      ScheduleReconnect(e);
    }

    method Rebase(after: Position)
      requires Spec.Window(Model())
      modifies this
      ensures Model() == Spec.Rebased(old(Model()), after)
    {
      hide Spec.AcceptAcknowledgement, Spec.Window;
      if cursor.Some? && after.epoch == cursor.value.epoch {
        Acknowledge(after);
      } else {
        ForgetDeliveries();
      }
      cursor := Some(after);
    }

    method RenewEpoch(after: Position, expectedScope: Scope)
      requires Spec.Core(Model()) && recovery.None?
      modifies this
      ensures Model() == Spec.FreshGeneration(old(Model()), after, expectedScope)
    {
      hide Spec.Rebased;
      Rebase(after);
      LeaveEpoch(Some(expectedScope));
      stopped, incompatible := false, false;
      failures := 0;
      CancelActivity();
    }

    method BeginEpoch(after: Position, expectedScope: Scope)
      requires Spec.Core(Model()) && recovery.None?
      modifies this
      ensures Model() == Spec.BeginEpoch(old(Model()), after, expectedScope)
    {
      hide Spec.Connect, Spec.DeliverState, Spec.FreshGeneration, Spec.Core, Spec.Silent;
      RenewEpoch(after, expectedScope);
      var e := epoch;
      var _ := DeliverState(Connecting);
      Connect(e);
    }

    method TicketRejected(e: nat, protocolMismatch: bool, retryable: bool)
      requires Spec.Valid(Model())
      modifies this
      ensures Model() == Spec.TicketRejected(old(Model()), e, protocolMismatch, retryable)
    {
      hide Spec.DeliverState, Spec.ResetSession, Spec.ScheduleReconnect, Spec.AskFailure;
      if !OwnsTicketRequest(e) {
        Drop(LateTicket);
        return;
      }
      ticketEpoch := None;
      if protocolMismatch {
        incompatible := true;
        var _ := DeliverState(Incompatible);
        return;
      }
      var handled := AskFailure(TicketFailure(retryable));
      if handled {
        ResetSession();
        return;
      }
      ScheduleReconnect(e);
    }

    /** `socket` is what createSocket returned, None when it threw. Sockets are numbered as they open. */
    method TicketGranted(e: nat, socket: Option<nat>)
      requires Spec.Valid(Model())
      requires socket.Some? ==> socket.value == |channels|
      modifies this
      ensures Model() == Spec.TicketGranted(old(Model()), e, socket.Some?)
    {
      hide Spec.ScheduleReconnect;
      if !OwnsTicketRequest(e) {
        Drop(LateTicket);
        return;
      }
      ticketEpoch := None;
      if socket.None? {
        ScheduleReconnect(e);
        return;
      }
      connection := Some(Spec.Connection(socket.value, e, scope.value, [], 0, false));
      channels := channels + [Spec.Channel(scope.value, cursor.value, [], [])];
    }

    method TimerFired()
      requires Spec.Valid(Model())
      modifies this
      ensures Model() == Spec.TimerFired(old(Model()))
    {
      hide Spec.Connect;
      if timer.None? { return; }
      var e := timer.value;
      timer := None;
      if !IsCurrentEpoch(e) { return; }
      Connect(e);
    }

    method SocketClosed(socket: nat, code: nat)
      requires Spec.Valid(Model())
      modifies this
      ensures Model() == Spec.SocketClosed(old(Model()), socket, code)
    {
      hide Spec.ScheduleReconnect, Spec.AskFailure, Spec.ResetSession;
      if !IsActiveConnection(socket) { return; }
      var e := connection.value.epoch;
      var handled := AskFailure(ClosedFailure(code));
      if handled {
        ResetSession();
        return;
      }
      connection := None;
      ScheduleReconnect(e);
    }

    method UnexpectedResponse(socket: nat, mismatch: bool, status: nat)
      requires Spec.Valid(Model())
      modifies this
      ensures Model() == Spec.UnexpectedResponse(old(Model()), socket, mismatch, status)
    {
      hide Spec.RetireConnection, Spec.AskFailure, Spec.ResetSession, Spec.FailIncompatible;
      if !IsActiveConnection(socket) { return; }
      if mismatch {
        FailIncompatible(socket, ProtocolMismatch);
        return;
      }
      var handled := AskFailure(HandshakeFailure(status));
      if handled { ResetSession(); } else { RetireConnection(socket); }
    }

    // -------------------------------------------------------------------------------------------
    // Terminal frames
    // -------------------------------------------------------------------------------------------

    method RejectInvalidEvent(socket: nat)
      requires Spec.Valid(Model())
      modifies this
      ensures Model() == Spec.RejectInvalidEvent(old(Model()), socket)
    {
      hide Spec.RetireConnection, Spec.AskFailure, Spec.ResetSession;
      if !IsActiveConnection(socket) { return; }
      Drop(InvalidEnvelope);
      var handled := AskFailure(InvalidFrame);
      if handled { ResetSession(); } else { RetireConnection(socket); }
    }

    method FailIncompatible(socket: nat, reason: DropReason)
      requires Spec.Valid(Model())
      modifies this
      ensures Model() == Spec.FailIncompatible(old(Model()), socket, reason)
    {
      hide Spec.DeliverState;
      if !IsActiveConnection(socket) {
        Drop(StaleSocket);
        return;
      }
      Drop(reason);
      incompatible := true;
      connection := None;
      var _ := DeliverState(Incompatible);
    }

    method DeliverPendingRecovery() returns (delivered: bool)
      requires Spec.Core(Model()) && stopped
      modifies this
      ensures (Model(), delivered) == Spec.DeliverPendingRecovery(old(Model()))
    {
      hide Spec.Reentered, Host.OnEvent;
      if recovery.None? { return true; }
      if !ready { return false; }
      if scope.None? {
        ready := false;
        return false;
      }
      var verdict := OfferEvent(recovery.value.event);
      if verdict.Yes? { return true; }
      ready := false;
      return false;
    }

    method RequireRecovery(socket: nat)
      requires Spec.Core(Model())
      modifies this
      ensures Model() == Spec.RequireRecovery(old(Model()), socket)
    {
      hide Spec.DeliverPendingRecovery, Spec.DeliverState;
      if !IsActiveConnection(socket) { return; }
      var latch := Spec.Recovery(scope.value.userId, scope.value.workspaceId, cursor.value,
                                 Spec.RecoveryEvent(scope.value, cursor.value));
      LeaveEpoch(scope);
      var recoveryEpoch := epoch;
      CancelActivity();
      recovery := Some(latch);
      var _ := DeliverPendingRecovery();
      if stopped && epoch == recoveryEpoch { var _ := DeliverState(Offline); }
    }

    method RetainWindowless(socket: nat, event: Event)
      requires Spec.Core(Model()) && event.kind.ResyncRequired?
      modifies this
      ensures Model() == Spec.RetainWindowless(old(Model()), socket, event)
    {
      hide Spec.DeliverState;
      if !IsActiveConnection(socket) { return; }
      var latch := Spec.Recovery(scope.value.userId, scope.value.workspaceId, cursor.value, event);
      LeaveEpoch(None);
      CancelActivity();
      recovery := Some(latch);
      var _ := DeliverState(Offline);
    }

    method PauseForRenderer(socket: nat)
      requires Spec.Core(Model())
      modifies this
      ensures Model() == Spec.PauseForRenderer(old(Model()), socket)
    {
      hide Spec.DeliverState;
      if !IsActiveConnection(socket) { return; }
      LeaveEpoch(None);
      SetFlags(false, false);
      CancelActivity();
      var _ := DeliverState(Offline);
    }

    // -------------------------------------------------------------------------------------------
    // Frames
    // -------------------------------------------------------------------------------------------

    /** The frame crosses into the consumer: what the socket has delivered grows by it. */
    ghost method HandOver(socket: nat, event: Event)
      requires socket < |channels|
      modifies this`channels
      ensures Model() == Spec.HandedOver(old(Model()), socket, event)
    {
      channels := channels[socket := Spec.WithDelivered(channels[socket], event)];
    }

    ghost method Arrive(socket: nat, event: Event)
      requires socket < |channels|
      modifies this`channels
      ensures Model() == old(Model()).(channels := old(channels)[socket := Spec.WithArrived(old(channels)[socket], event)])
    {
      channels := channels[socket := Spec.WithArrived(channels[socket], event)];
    }

    static lemma Opened(c: Spec.Client, socket: nat)
      requires Spec.Core(c) && Spec.IsActive(c, socket)
      ensures socket < |c.channels|
    {
    }

    /** The windowless branch of `#deliverEvent`. */
    method Observe(socket: nat, event: Event) returns (ok: bool)
      requires Spec.Core(Model()) && IsActiveConnection(socket)
      requires event.kind.ResyncRequired? || Spec.NextInOrder(Model(), socket, event)
      modifies this
      ensures (Model(), ok) == Spec.Observe(old(Model()), socket, event)
    {
      hide Spec.Reentered, Host.OnWindowlessEvent, Spec.Core, Spec.HandedOver, Spec.NextInOrder;
      Opened(Model(), socket);
      HandOver(socket, event);
      ObserveEvent(event);
      ok := IsActiveConnection(socket);
    }

    /** The try block of `#deliverEvent` once the consumer is ready. */
    method Offer(socket: nat, event: Event) returns (ok: bool)
      requires Spec.Core(Model()) && IsActiveConnection(socket) && ready
      requires event.kind.ResyncRequired? || Spec.NextInOrder(Model(), socket, event)
      modifies this
      ensures (Model(), ok) == Spec.Offer(old(Model()), socket, event)
    {
      hide Spec.Reentered, Host.OnEvent, Spec.Core, Spec.HandedOver, Spec.NextInOrder, Spec.PauseForRenderer,
           Spec.RetireConnection, Spec.AfterCallback;
      OfferKeeps(Model(), socket, event);
      HandOver(socket, event);
      var verdict := OfferEvent(event);
      match verdict {
        case Yes => return true;
        case No => PauseForRenderer(socket);
        case Raised => RetireConnection(socket);
      }
      return false;
    }

    static lemma OfferKeeps(c: Spec.Client, socket: nat, event: Event)
      requires Spec.Core(c) && Spec.IsActive(c, socket)
      requires event.kind.ResyncRequired? || Spec.NextInOrder(c, socket, event)
      ensures socket < |c.channels|
      ensures Spec.Core(Spec.Reentered(Spec.HandedOver(c, socket, event).(host := c.host.OnEvent(event).0),
                                       c.host.OnEvent(event).1))
    {
      hide Spec.Reentered, Host.OnEvent;
      Spec.DeliveredStaysPrefix(c.channels[socket], event);
    }

    method Track(event: Event)
      requires Spec.Core(Model()) && cursor.Some? && cursor.value.epoch == event.position.epoch
      requires Spec.NeedsAcknowledgement(Model(), event) ==>
                 |pendingDelivery| < Spec.REPLAY_MAX_EVENTS && pendingDeliveryBytes + event.bytes <= Spec.REPLAY_MAX_BYTES
      modifies this
      ensures Model() == Spec.Tracked(old(Model()), event)
    {
      hide Spec.Core;
      if event.kind.Change? && Later(event.position, cursor.value) {
        pendingDelivery := pendingDelivery + [Spec.Delivery(event.position, event.bytes)];
        pendingDeliveryBytes := pendingDeliveryBytes + event.bytes;
      }
    }

    method DeliverEvent(socket: nat, event: Event) returns (ok: bool)
      requires Spec.Core(Model()) && IsActiveConnection(socket)
      requires event.position.epoch == cursor.value.epoch
      requires event.kind.ResyncRequired? || Spec.NextInOrder(Model(), socket, event)
      modifies this
      ensures (Model(), ok) == Spec.DeliverEvent(old(Model()), socket, event)
    {
      hide Spec.Observe, Spec.Offer, Spec.PauseForRenderer, Spec.RequireRecovery, Spec.Tracked, Spec.HandedOver,
           Spec.Handed, Host.OnEvent, Spec.AfterCallback, Spec.Channels, Spec.Latch, Spec.Window;
      if windowless {
        ok := Observe(socket, event);
        return;
      }
      if event.kind.Change? && Later(event.position, cursor.value)
         && (|pendingDelivery| >= Spec.REPLAY_MAX_EVENTS || pendingDeliveryBytes + event.bytes > Spec.REPLAY_MAX_BYTES) {
        RequireRecovery(socket);
        return false;
      }
      Track(event);
      if !ready {
        PauseForRenderer(socket);
        return false;
      }
      ok := Offer(socket, event);
    }

    /** The for loop over the held frames once the handshake proved the user. */
    method DeliverReplay(socket: nat, replay: seq<Spec.Buffered>, ghost handshake: Event) returns (ok: bool)
      requires Spec.Core(Model()) && Spec.AwaitsReplay(Model(), socket, Spec.Events(replay), handshake)
      modifies this
      ensures (Model(), ok) == Spec.DeliverReplay(old(Model()), socket, Spec.Events(replay), handshake)
    {
      hide Spec.DeliverEvent, Spec.AwaitsReplay, Spec.Core, Spec.HandedOver, Spec.Extends, Spec.CaughtUp, Spec.Handed, Host.OnEvent, Spec.NextInOrder;
      ghost var before := Model();
      ghost var events := Spec.Events(replay);
      var i := 0;
      assert events[0..] == events;
      while i < |replay|
        invariant 0 <= i <= |replay|
        invariant Spec.Core(Model()) && Spec.AwaitsReplay(Model(), socket, events[i..], handshake)
        invariant Spec.DeliverReplay(Model(), socket, events[i..], handshake)
                  == Spec.DeliverReplay(before, socket, events, handshake)
      {
        ghost var c := Model();
        assert events[i..][1..] == events[i + 1..];
        Spec.ReplayHead(c, socket, events[i..], handshake);
        assert Spec.IsActive(c, socket) by { Active(c, socket, events[i..], handshake); }
        ok := DeliverEvent(socket, replay[i].event);
        if !ok { return false; }
        if !IsActiveConnection(socket) { return false; }
        i := i + 1;
      }
      ok := true;
    }

    static lemma Active(c: Spec.Client, socket: nat, replay: seq<Event>, handshake: Event)
      requires Spec.AwaitsReplay(c, socket, replay, handshake)
      ensures Spec.IsActive(c, socket)
    {
    }

    method GoLive(socket: nat, event: Event)
      requires Spec.Core(Model()) && IsActiveConnection(socket) && event.position.epoch == cursor.value.epoch
      requires event.kind.Connected? && connection.value.handshaken
      requires socket < |channels|
      requires channels[socket].arrived == channels[socket].delivered + [event]
      requires Spec.ProvedBy(channels[socket].arrived, channels[socket].scope.userId)
      modifies this
      ensures Model() == Spec.GoLive(old(Model()), socket, event)
    {
      hide Spec.DeliverState, Spec.RetireConnection, Spec.DeliverEvent, Spec.HandedOver, Spec.Handed, Host.OnEvent;
      connection := Some(connection.value.(replay := [], replayBytes := 0));
      var returned := DeliverState(Live);
      if !returned {
        RetireConnection(socket);
        return;
      }
      if !IsActiveConnection(socket) { return; }
      assert event == channels[socket].arrived[|channels[socket].delivered|];
      var _ := DeliverEvent(socket, event);
    }

    /** The first `system.connected`: held frames cross in arrival order, then the handshake itself. */
    method Handshake(socket: nat, event: Event)
      requires Spec.Valid(Model()) && IsActiveConnection(socket) && !connection.value.handshaken
      requires event.kind.Connected? && event.kind.userId == scope.value.userId
      requires event.workspaceId == scope.value.workspaceId && event.position.epoch == cursor.value.epoch
      modifies this
      ensures Model() == Spec.Handshake(old(Model()), socket, event)
    {
      hide Spec.DeliverReplay, Spec.GoLive, Spec.Extends, Spec.CaughtUp, Spec.Window, Spec.Channels, Spec.Latch;
      ghost var c1 := Spec.Shaken(Model(), socket, event);
      var replay := connection.value.replay;
      connection := Some(connection.value.(handshaken := true));
      Arrive(socket, event);
      assert Model() == c1;
      var ok := DeliverReplay(socket, replay, event);
      if !ok { return; }
      ReadyToGoLive(c1, socket, Spec.Events(replay), event);
      GoLive(socket, event);
    }

    static lemma ReadyToGoLive(c: Spec.Client, socket: nat, replay: seq<Event>, event: Event)
      requires Spec.Core(c) && Spec.AwaitsReplay(c, socket, replay, event)
      requires c.connection.Some? && c.connection.value.handshaken
      requires Spec.DeliverReplay(c, socket, replay, event).1
      ensures var d := Spec.DeliverReplay(c, socket, replay, event).0;
        && Spec.IsActive(d, socket) && socket < |d.channels| && d.connection == c.connection
        && d.channels[socket].arrived == d.channels[socket].delivered + [event]
        && Spec.ProvedBy(d.channels[socket].arrived, d.channels[socket].scope.userId)
    {
    }

    method Hold(socket: nat, event: Event, frameBytes: nat)
      requires Spec.Valid(Model()) && IsActiveConnection(socket) && !connection.value.handshaken
      requires event.kind.Change?
      requires event.workspaceId == scope.value.workspaceId && event.position.epoch == cursor.value.epoch
      modifies this
      ensures Model() == Spec.Hold(old(Model()), socket, event, frameBytes)
    {
      hide Spec.RequireRecovery, Spec.SumFrames, Spec.Window, Spec.Channels, Spec.Latch;
      Arrive(socket, event);
      assert Spec.Core(Spec.Arrived(old(Model()), socket, event));
      if |connection.value.replay| >= Spec.REPLAY_MAX_EVENTS
         || connection.value.replayBytes + frameBytes > Spec.REPLAY_MAX_BYTES {
        RequireRecovery(socket);
        return;
      }
      var held := connection.value;
      connection := Some(held.(replay := held.replay + [Spec.Buffered(event, frameBytes)],
                               replayBytes := held.replayBytes + frameBytes));
    }

    method DeliverLive(socket: nat, event: Event)
      requires Spec.Valid(Model()) && IsActiveConnection(socket) && connection.value.handshaken
      requires event.kind.Change?
      requires event.workspaceId == scope.value.workspaceId && event.position.epoch == cursor.value.epoch
      modifies this
      ensures Model() == Spec.DeliverLive(old(Model()), socket, event)
    {
      hide Spec.DeliverEvent, Spec.Window, Spec.Channels, Spec.Latch, Spec.HandedOver, Spec.Handed, Host.OnEvent;
      Spec.ProofSurvives(channels[socket].arrived, event, channels[socket].scope.userId);
      Arrive(socket, event);
      assert Spec.Core(Spec.Arrived(old(Model()), socket, event));
      var _ := DeliverEvent(socket, event);
    }

    method HandleEvent(socket: nat, event: Event, frameBytes: nat)
      requires Spec.Valid(Model()) && IsActiveConnection(socket)
      requires event.workspaceId == scope.value.workspaceId && event.position.epoch == cursor.value.epoch
      requires event.kind.Connected? ==> event.kind.userId == scope.value.userId
      modifies this
      ensures Model() == Spec.HandleEvent(old(Model()), socket, event, frameBytes)
    {
      hide Spec.DeliverEvent, Spec.RetainWindowless, Spec.RejectInvalidEvent, Spec.Handshake, Spec.Hold, Spec.DeliverLive,
           Spec.Core, Spec.Settled, Spec.HandedOver, Spec.Handed, Host.OnEvent;
      if windowless && event.kind.ResyncRequired? {
        var ok := DeliverEvent(socket, event);
        if !ok { return; }
        RetainWindowless(socket, event);
        return;
      }
      match event.kind {
        case Connected(_, _) =>
          if connection.value.handshaken { RejectInvalidEvent(socket); } else { Handshake(socket, event); }
        case ResyncRequired =>
          var _ := DeliverEvent(socket, event);
        case Change =>
          if connection.value.handshaken { DeliverLive(socket, event); } else { Hold(socket, event, frameBytes); }
      }
    }

    method HandleMessage(socket: nat, frame: Spec.Frame)
      requires Spec.Valid(Model())
      modifies this
      ensures Model() == Spec.HandleMessage(old(Model()), socket, frame)
    {
      hide Spec.RejectInvalidEvent, Spec.FailIncompatible, Spec.HandleEvent;
      if !IsActiveConnection(socket) {
        Drop(StaleSocket);
        return;
      }
      var workspaceId := connection.value.scope.workspaceId;
      match frame {
        case Undecodable => RejectInvalidEvent(socket);
        case BadEnvelope => RejectInvalidEvent(socket);
        case Activity(w) =>
          if w != workspaceId {
            FailIncompatible(socket, WrongWorkspace);
          } else if !connection.value.handshaken {
            RejectInvalidEvent(socket);
          }
        case BadPayload(w, knownType) =>
          if w != workspaceId {
            FailIncompatible(socket, WrongWorkspace);
          } else if knownType {
            RejectInvalidEvent(socket);
          } else {
            FailIncompatible(socket, InvalidEnvelope);
          }
        case Product(event, frameBytes) =>
          if event.workspaceId != workspaceId {
            FailIncompatible(socket, WrongWorkspace);
          } else if event.kind.Connected? && event.kind.userId != connection.value.scope.userId {
            FailIncompatible(socket, WrongUser);
          } else if event.position.epoch != cursor.value.epoch {
            RejectInvalidEvent(socket);
          } else {
            HandleEvent(socket, event, frameBytes);
          }
      }
    }

    // -------------------------------------------------------------------------------------------
    // Session lifecycle
    // -------------------------------------------------------------------------------------------

    method Prepare(after: Position, userId: EntityId, workspaceId: EntityId) returns (prepared: Option<Scope>)
      requires Spec.Valid(Model())
      modifies this
      ensures (Model(), prepared) == Spec.Prepare(old(Model()), after, userId, workspaceId)
    {
      hide Spec.Valid;
      var preserve := PreservesRecovery(after, userId, workspaceId);
      RetireTransport(!preserve, false);
      if lastScopeEpoch >= Spec.MAX_SAFE_INTEGER { return None; }
      lastScopeEpoch := lastScopeEpoch + 1;
      scope := Some(Scope(userId, workspaceId, lastScopeEpoch));
      cursor := Some(after);
      prepared := scope;
    }

    method Activate(candidate: Scope) returns (active: bool)
      requires Spec.Valid(Model())
      modifies this
      ensures (Model(), active) == Spec.Activate(old(Model()), candidate)
    {
      hide Spec.BeginEpoch, Spec.DeliverPendingRecovery;
      if scope != Some(candidate) {
        Drop(StaleActivation);
        return false;
      }
      if !stopped { return true; }
      SetFlags(true, false);
      if recovery.Some? {
        active := DeliverPendingRecovery();
        return;
      }
      BeginEpoch(cursor.value, candidate);
      active := true;
    }

    method PrepareAndActivate(after: Position, userId: EntityId, workspaceId: EntityId) returns (active: bool)
      requires Spec.Valid(Model())
      modifies this
      ensures (Model(), active) == Spec.PrepareAndActivate(old(Model()), after, userId, workspaceId)
    {
      hide Spec.Prepare, Spec.Activate, Spec.Valid;
      var prepared := Prepare(after, userId, workspaceId);
      if prepared.None? { return false; }
      active := Activate(prepared.value);
    }

    method Start(after: Position, userId: EntityId, workspaceId: EntityId) returns (active: bool)
      requires Spec.Valid(Model())
      modifies this
      ensures (Model(), active) == Spec.Start(old(Model()), after, userId, workspaceId)
    {
      hide Spec.PrepareAndActivate, Spec.Activate, Spec.BeginEpoch, Spec.Acknowledge;
      if PreservesRecovery(after, userId, workspaceId) {
        if scope.None? {
          active := PrepareAndActivate(after, userId, workspaceId);
          return;
        }
        SetFlags(true, false);
        active := Activate(scope.value);
        return;
      }
      if recovery.Some? && recovery.value.userId == userId && recovery.value.workspaceId == workspaceId {
        recovery := None;
      }
      if scope.Some? && Spec.SameUser(scope.value, userId, workspaceId) && !stopped {
        if windowless {
          SetFlags(true, false);
          BeginEpoch(after, scope.value);
        } else {
          Acknowledge(after);
        }
        return true;
      }
      active := PrepareAndActivate(after, userId, workspaceId);
    }

    method ConsumerUnavailable()
      requires Spec.Valid(Model())
      modifies this
      ensures Model() == Spec.ConsumerUnavailable(old(Model()))
    {
      ready := false;
    }

    method ObserveFrom(observed: Scope)
      requires Spec.Valid(Model()) && cursor.Some? && recovery.None?
      modifies this
      ensures Model() == Spec.ObserveFrom(old(Model()), observed)
    {
      hide Spec.BeginEpoch;
      SetFlags(false, true);
      BeginEpoch(cursor.value, observed);
    }

    method ObserveOnly(userId: EntityId, workspaceId: EntityId)
      requires Spec.Valid(Model())
      modifies this
      ensures Model() == Spec.ObserveOnly(old(Model()), userId, workspaceId)
    {
      hide Spec.ObserveFrom, Spec.Prepare;
      if cursor.None? { return; }
      if recovery.Some? {
        if recovery.value.userId == userId && recovery.value.workspaceId == workspaceId {
          SetFlags(false, true);
          return;
        }
        recovery := None;
      }
      if !stopped && scope.Some? && Spec.SameUser(scope.value, userId, workspaceId) {
        SetFlags(false, true);
        return;
      }
      var observed := scope;
      if observed.None? {
        observed := Prepare(cursor.value, userId, workspaceId);
        if observed.None? { return; }
      }
      ObserveFrom(observed.value);
    }
  }
}
