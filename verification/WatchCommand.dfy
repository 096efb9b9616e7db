/**
  The body of watchProductRealtime (packages/cli/src/watch.ts) run against the realtime object:
  settlements, socket callbacks and signals arrive one at a time, and each is answered by mutating
  the client and the closure variables. The method at the end is proved against module WatchLoop.
 */
module WatchCommand {
  import opened Wrappers
  import opened SyncPositions
  import opened Consumer
  import opened Realtime
  import opened RealtimeClient
  import Spec = WatchLoop

  /** `finish`. */
  method Finish(realtime: WorkspaceRealtimeClient, error: Option<WatchError>)
    requires Valid(realtime.Model()) && realtime.host.Watcher?
    modifies realtime
    ensures realtime.Model() == Spec.Finish(old(realtime.Model()), error)
  {
    hide Realtime.ResetSession, Realtime.Valid;
    var w := realtime.host.watch;
    if w.finished { return; }
    realtime.host := Watcher(w.(finished := true, failure := error));
    realtime.ResetSession();
  }

  method StartOutput(realtime: WorkspaceRealtimeClient)
    requires realtime.host.Watcher? && realtime.host.watch.queue != []
    modifies realtime
    ensures realtime.Model() == Spec.WithWatch(old(realtime.Model()), Spec.StartOutput(old(realtime.host.watch)))
  {
    hide Realtime.Valid;
    var w := realtime.host.watch;
    realtime.host := Watcher(if w.outputCancelled then w.(queue := w.queue[1..]) else w.(writing := true));
  }

  /** What follows a successful `await input.onEvent(event)` in the chained delivery. */
  method OutputWritten(realtime: WorkspaceRealtimeClient)
    requires Valid(realtime.Model()) && realtime.host.Watcher? && Spec.HeadOk(realtime.host.watch)
    modifies realtime
    ensures realtime.Model() == Spec.Written(old(realtime.Model()))
  {
    hide Spec.Finish, Realtime.AcknowledgeScoped, Realtime.Core, Realtime.Settled;
    var w := realtime.host.watch;
    var event := w.queue[0];
    var w1 := w.(queue := w.queue[1..], writing := false, written := w.written + [event]);
    if w.outputCancelled {
      realtime.host := Watcher(w1);
      return;
    }
    if event.kind.ResyncRequired? {
      assert Valid(Spec.WithWatch(realtime.Model(), w1));
      realtime.host := Watcher(w1);
      Finish(realtime, Some(ResyncRequiredError));
      return;
    }
    var cursor := LaterCursor(w.cursor, event.position);
    assert Valid(Spec.WithWatch(realtime.Model(), w1.(cursor := cursor)));
    realtime.host := Watcher(w1.(cursor := cursor));
    realtime.AcknowledgeScoped(w.scope, cursor);
  }

  method OutputFailed(realtime: WorkspaceRealtimeClient)
    requires Valid(realtime.Model()) && realtime.host.Watcher?
    modifies realtime
    ensures realtime.Model() == Spec.WriteFailed(old(realtime.Model()))
  {
    hide Spec.Finish, Realtime.Core, Realtime.Settled;
    var w := realtime.host.watch.(writing := false, broken := true);
    assert Valid(Spec.WithWatch(realtime.Model(), w));
    realtime.host := Watcher(w);
    Finish(realtime, Some(OutputError));
  }

  /** `settle`: the promise that watchProductRealtime returns. */
  method Settle(realtime: WorkspaceRealtimeClient, failure: Option<WatchError>)
    requires realtime.host.Watcher?
    modifies realtime
    ensures realtime.Model() == Spec.WithWatch(old(realtime.Model()), Spec.Settle(old(realtime.host.watch), failure))
  {
    hide Realtime.Valid;
    var w := realtime.host.watch;
    if w.outputCancelled { return; }
    var result := match failure case None => Resolved(w.cursor) case Some(e) => Rejected(e);
    realtime.host := Watcher(w.(outputCancelled := true, result := Some(result)));
  }

  /** Dispatch of one transport callback; `opened` numbers the sockets. */
  method Callback(realtime: WorkspaceRealtimeClient, step: Step, sockets: nat)
    requires Valid(realtime.Model()) && Spec.IsTransport(step) && sockets == |realtime.channels|
    modifies realtime
    ensures realtime.Model() == Apply(old(realtime.Model()), step)
  {
    hide Realtime.Valid, HandleMessage, TicketGranted, TicketRejected, TimerFired, RetireConnection, SocketClosed,
         UnexpectedResponse;
    match step {
      case TicketGrantedStep(epoch, created) => realtime.TicketGranted(epoch, if created then Some(sockets) else None);
      case TicketRejectedStep(epoch, mismatch, retryable) => realtime.TicketRejected(epoch, mismatch, retryable);
      case TimerStep => realtime.TimerFired();
      case MessageStep(socket, frame) => realtime.HandleMessage(socket, frame);
      case SocketErrorStep(socket) =>
        StillCore(realtime.Model());
        realtime.RetireConnection(socket);
      case SocketClosedStep(socket, code) => realtime.SocketClosed(socket, code);
      case UnexpectedResponseStep(socket, mismatch, status) => realtime.UnexpectedResponse(socket, mismatch, status);
    }
  }

  lemma StillCore(c: Client)
    requires Valid(c)
    ensures Core(c)
  {
  }

  method React(realtime: WorkspaceRealtimeClient, ghost log: seq<Event>, ghost next: nat, input: Spec.Input, sockets: nat)
    requires Valid(realtime.Model()) && realtime.host.Watcher? && sockets == |realtime.channels|
    requires Spec.Enabled(log, Spec.System(realtime.Model(), next), input)
    requires input.OutputSettles? ==> Spec.HeadOk(realtime.host.watch)
    modifies realtime
    ensures realtime.Model() == Spec.Apply1(log, Spec.System(old(realtime.Model()), next), input).client
  {
    hide Realtime.Valid, Realtime.Apply, Spec.Written, Spec.WriteFailed, Spec.Finish, Spec.Obeys, Spec.NextOnSocket;
    match input {
      case Transport(step) => Callback(realtime, step, sockets);
      case OutputStarts => StartOutput(realtime);
      case OutputSettles(ok) => if ok { OutputWritten(realtime); } else { OutputFailed(realtime); }
      case TailSettles =>
        var w := realtime.host.watch;
        Settle(realtime, if w.broken then Some(OutputError) else w.failure);
      case DeadlinePasses => Settle(realtime, realtime.host.watch.failure);
      case Interrupted => Finish(realtime, None);
    }
  }

  method Launch(after: Position, userId: EntityId, workspaceId: EntityId, aborted: bool)
    returns (realtime: WorkspaceRealtimeClient)
    ensures fresh(realtime)
    ensures realtime.Model() == Spec.Begin(after, userId, workspaceId, aborted).client
  {
    hide Realtime.Valid, Realtime.Prepare, Realtime.Activate, Spec.Finish;
    var w := Watch(Scope(userId, workspaceId, 1), after, [], false, false, [], false, false, None, None, None);
    realtime := new WorkspaceRealtimeClient(Watcher(w));
    var scope := realtime.Prepare(after, userId, workspaceId);
    PrepareAsWatcher(w, after, userId, workspaceId);
    if aborted {
      Finish(realtime, None);
    } else {
      var _ := realtime.Activate(scope.value);
    }
  }

  lemma PrepareAsWatcher(w: Watch, after: Position, userId: EntityId, workspaceId: EntityId)
    ensures var (c, scope) := Prepare(Initial(Watcher(w)), after, userId, workspaceId);
      c.host.Watcher? && scope == Some(Scope(userId, workspaceId, 1))
  {
  }

  predicate Opens(realtime: WorkspaceRealtimeClient, step: Step)
    reads realtime
    ensures Opens(realtime, step) == Spec.Opens(realtime.Model(), step)
  {
    step.TicketGrantedStep? && step.created && realtime.OwnsTicketRequest(step.epoch)
  }

  lemma LaunchOpensNothing(after: Position, userId: EntityId, workspaceId: EntityId, aborted: bool)
    ensures Spec.Begin(after, userId, workspaceId, aborted).client.channels == []
  {
  }

  lemma SocketsOpened(log: seq<Event>, s: Spec.System, input: Spec.Input)
    requires Valid(s.client) && s.client.host.Watcher? && Spec.Enabled(log, s, input)
    requires input.OutputSettles? ==> Spec.HeadOk(s.client.host.watch)
    ensures |Spec.Apply1(log, s, input).client.channels|
            == |s.client.channels| + (if input.Transport? && Spec.Opens(s.client, input.step) then 1 else 0)
  {
    hide Realtime.Valid, Apply, Realtime.ResetSession, Realtime.AcknowledgeScoped, Spec.HeadOk, Spec.Obeys,
         Spec.NextOnSocket;
    match input
    case Transport(step) => TransportOpens(s.client, step);
    case OutputSettles(ok) => if ok { WrittenOpensNothing(s.client); }
    case _ =>
  }

  lemma WrittenOpensNothing(c: Client)
    requires Valid(c) && c.host.Watcher? && Spec.HeadOk(c.host.watch)
    ensures Spec.Written(c).channels == c.channels
  {
    hide Realtime.Valid, Realtime.Acknowledge, Spec.Finish;
    var w := c.host.watch;
    var w1 := w.(queue := w.queue[1..], writing := false, written := w.written + [w.queue[0]]);
    FinishOpensNothing(Spec.WithWatch(c, w1), Some(ResyncRequiredError));
  }

  lemma FinishOpensNothing(c: Client, error: Option<WatchError>)
    requires Valid(c) && c.host.Watcher?
    ensures Spec.Finish(c, error).channels == c.channels
  {
    hide Realtime.Valid, Realtime.ResetSession;
  }

  lemma TransportOpens(c: Client, step: Step)
    requires Valid(c) && Spec.IsTransport(step)
    ensures |Apply(c, step).channels| == |c.channels| + (if Spec.Opens(c, step) then 1 else 0)
  {
    hide Realtime.Valid, HandleMessage, TicketGranted, TicketRejected, TimerFired, RetireConnection, SocketClosed,
         UnexpectedResponse;
  }

  /**
    The watch loop. What it reports as its cursor leaves no server event above `after` unwritten,
    for every run that the server assumption allows.
   */
  method WatchProductRealtime(
    ghost log: seq<Event>, after: Position, userId: EntityId, workspaceId: EntityId, aborted: bool,
    inputs: seq<Spec.Input>)
    returns (written: seq<Event>, cursor: Position, result: Option<WatchResult>)
    requires Spec.IsLog(log, after.epoch) && Spec.LegalRun(log, after, userId, workspaceId, aborted, inputs)
    ensures forall i | 0 <= i < |log| && after.sequence < log[i].position.sequence <= cursor.sequence ::
              log[i] in written
    ensures result.Some? && result.value.Resolved? ==>
              forall i | 0 <= i < |log| && after.sequence < log[i].position.sequence <= result.value.cursor.sequence ::
                log[i] in written
    ensures
      var w := Spec.Outcome(log, after, userId, workspaceId, aborted, inputs).host.watch;
      written == w.written && cursor == w.cursor && result == w.result
  {
    hide Spec.Apply1, Spec.Enabled, Spec.Resumable, Spec.FeedOk, Realtime.Valid, Spec.Begin;
    Spec.BeginKeeps(log, after, userId, workspaceId, aborted);
    ghost var start := Spec.Begin(after, userId, workspaceId, aborted);
    var realtime := Launch(after, userId, workspaceId, aborted);
    var sockets := 0;
    LaunchOpensNothing(after, userId, workspaceId, aborted);
    ghost var s := start;
    var i := 0;
    assert inputs[0..] == inputs;
    while i < |inputs|
      invariant 0 <= i <= |inputs|
      invariant fresh(realtime) && realtime.Model() == s.client && sockets == |realtime.channels|
      invariant Spec.Inv(log, after, s) && Spec.Legal(log, after, s, inputs[i..])
      invariant Spec.RunWatch(log, after, s, inputs[i..]) == Spec.RunWatch(log, after, start, inputs)
    {
      assert inputs[i..][1..] == inputs[i + 1..];
      Spec.StepKeeps(log, after, s, inputs[i]);
      SocketsOpened(log, s, inputs[i]);
      var opens := inputs[i].Transport? && Opens(realtime, inputs[i].step);
      React(realtime, log, s.next, inputs[i], sockets);
      sockets := if opens then sockets + 1 else sockets;
      s := Spec.Apply1(log, s, inputs[i]);
      i := i + 1;
    }
    var w := realtime.host.watch;
    Spec.NoGap(log, after, userId, workspaceId, aborted, inputs);
    return w.written, w.cursor, w.result;
  }
}
