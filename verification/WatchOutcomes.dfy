/**
  How a watch ends (packages/cli/src/watch.ts:78-104, 137-277): what the callbacks of the realtime client make of each
  event, state and failure, which of several endings counts, and what is still written.
 */
module WatchOutcomes {
  import opened Wrappers
  import opened SyncPositions
  import opened Consumer
  import opened Realtime
  import opened WatchLoop

  // ---------------------------------------------------------------------------------------------
  // Callbacks
  // ---------------------------------------------------------------------------------------------

  /** The watch is over, with `error` or without one; its transport is to be reset. */
  function Over(w: Watch, error: Option<WatchError>): Watch
  {
    w.(finished := true, failure := error)
  }

  /** A watch that goes on takes every event; a repair signal also ends it. One that is over takes none. */
  lemma EventMeans(w: Watch, event: Event)
    ensures
      Watcher(w).OnEvent(event)
      == if w.finished then (Watcher(w), Reply(No, false))
         else if event.kind.ResyncRequired? then
           (Watcher(Over(w.(queue := w.queue + [event]), Some(ResyncRequiredError))), Reply(Yes, true))
         else (Watcher(w.(queue := w.queue + [event])), Reply(Yes, false))
  {
  }

  /** Only an incompatible server ends the watch by its state: by the protocol version, or by what it sent. */
  lemma StateMeans(w: Watch, state: ConnectionState)
    ensures
      var error := if w.dropReason == Some(ProtocolMismatch) then UpgradeRequired else InvalidServerContract;
      Watcher(w).OnState(state)
      == if state.Incompatible? && !w.finished then (Watcher(Over(w, Some(error))), Reply(Yes, true))
         else (Watcher(w), Reply(Yes, false))
    ensures forall reason :: Watcher(w).OnDrop(reason) == Watcher(w.(dropReason := Some(reason)))
  {
  }

  /** The error a failure ends the watch with; a retryable failure has none. */
  function ErrorOf(failure: TransportFailure): Option<WatchError>
  {
    match failure
    case TicketFailure(retryable) => if retryable then None else Some(TicketError)
    case HandshakeFailure(status) =>
      if status in {401, 403} then Some(Unauthorized)
      else if status < 500 && status != 429 then Some(RealtimeRejected) else None
    case InvalidFrame => Some(InvalidServerContract)
    case ClosedFailure(code) => if code in {4401, 4403} then Some(AuthRevoked) else if code == 4009 then Some(ResyncRequiredError) else None
  }

  /**
    A failure that has an error is taken over and ends the watch, unless it is over; an expired cursor is also written
    out as a repair signal. Any other failure is left to the client, which reconnects.
   */
  lemma FailureMeans(w: Watch, failure: TransportFailure)
    ensures
      var (h, reply) := Watcher(w).OnFailure(failure);
      var error := ErrorOf(failure);
      && reply.verdict == (if error.Some? then Yes else No)
      && reply.resets == (error.Some? && !w.finished)
      && h.Watcher?
      && (error.None? ==> h.watch == w)
      && (error.Some? ==>
            var signalled := if failure == ClosedFailure(4009) then
                               w.(queue := w.queue + [Event(ResyncRequired, w.cursor, w.scope.workspaceId, 0)]) else w;
            h.watch == if w.finished then signalled else Over(signalled, error))
  {
  }

  // ---------------------------------------------------------------------------------------------
  // Endings
  // ---------------------------------------------------------------------------------------------

  /** Only the first ending counts, and it stops the transport. */
  lemma FinishMeans(c: Client, error: Option<WatchError>)
    requires Valid(c) && c.host.Watcher?
    ensures
      var r := WatchLoop.Finish(c, error);
      && r.host.Watcher?
      && (if c.host.watch.finished then r == c
          else r.host.watch == Over(c.host.watch, error) && r.stopped && r.scope.None? && r.recovery.None? && Activities(r) == 0)
  {
  }

  /** The promise is settled once: by the first failure, or with the cursor of what was written. */
  lemma SettleMeans(w: Watch, failure: Option<WatchError>)
    ensures
      var v := WatchLoop.Settle(w, failure);
      if w.outputCancelled then v == w
      else v == w.(outputCancelled := true, result := Some(if failure.Some? then Rejected(failure.value) else Resolved(w.cursor)))
  {
  }

  /** The head is written only while the output was not given up; otherwise it is dropped. */
  lemma StartMeans(w: Watch)
    requires w.queue != []
    ensures StartOutput(w) == if w.outputCancelled then w.(queue := w.queue[1..]) else w.(writing := true)
  {
  }

  /** What was written counts as such, and only the head leaves the queue. */
  function Shifted(w: Watch): Watch
    requires w.queue != []
  {
    w.(written := w.written + [w.queue[0]], queue := w.queue[1..], writing := false)
  }

  /** What is written after the output was given up moves nothing; a written repair signal ends the watch instead. */
  lemma LateOrSignalMeans(c: Client)
    requires Valid(c) && c.host.Watcher? && HeadOk(c.host.watch)
    ensures
      var w, r := c.host.watch, Written(c);
      && (w.outputCancelled ==> r == WithWatch(c, Shifted(w)))
      && (!w.outputCancelled && w.queue[0].kind.ResyncRequired? ==>
            r == WatchLoop.Finish(WithWatch(c, Shifted(w)), Some(ResyncRequiredError)))
  {
    hide Realtime.Core, Settled, WatchLoop.Finish, AcknowledgeScoped;
  }

  /** A written event moves the cursor to the later position, and the client's to the later of that and its own. */
  lemma WrittenEventMeans(c: Client)
    requires Valid(c) && c.host.Watcher? && HeadOk(c.host.watch)
    requires !c.host.watch.outputCancelled && !c.host.watch.queue[0].kind.ResyncRequired?
    ensures
      var w, r := c.host.watch, Written(c);
      var event := w.queue[0];
      var moved := if event.position.sequence > w.cursor.sequence then event.position else w.cursor;
      && r.host.Watcher? && r.host.watch == Shifted(w).(cursor := moved, dropReason := r.host.watch.dropReason)
      && (c.scope == Some(w.scope) && c.cursor.Some? && c.cursor.value.epoch == w.cursor.epoch ==>
            r.cursor == Some(LaterCursor(c.cursor.value, moved)) && r.host.watch == Shifted(w).(cursor := moved))
  {
    hide Realtime.Valid, AcknowledgeScoped, WatchLoop.Finish;
    var w := c.host.watch;
    var moved := Shifted(w).(cursor := LaterCursor(w.cursor, w.queue[0].position));
    AcknowledgedMeans(WithWatch(c, moved), w.scope, moved.cursor);
  }

  lemma AcknowledgedMeans(c: Client, scope: Scope, position: Position)
    requires Valid(c) && c.host.Watcher?
    ensures
      var r := AcknowledgeScoped(c, scope, position);
      && r.host.Watcher? && r.host.watch == c.host.watch.(dropReason := r.host.watch.dropReason)
      && (c.scope == Some(scope) && c.cursor.Some? && c.cursor.value.epoch == position.epoch ==>
            r.cursor == Some(LaterCursor(c.cursor.value, position)) && r.host == c.host)
  {
    ValidWindow(c);
    hide Realtime.Valid, Window, AcceptAcknowledgement;
  }

  lemma ValidWindow(c: Client)
    requires Valid(c)
    ensures Window(c)
  {
  }

  /** A failed write ends the watch with an output error and rejects everything behind it. */
  lemma WriteFailedMeans(c: Client)
    requires Valid(c) && c.host.Watcher?
    ensures
      var w, r := c.host.watch, WriteFailed(c);
      && r.host.Watcher?
      && r.host.watch == (if w.finished then w.(writing := false, broken := true)
                          else Over(w.(writing := false, broken := true), Some(OutputError)))
      && (!w.finished ==> r.stopped && Activities(r) == 0)
  {
  }
}
