/**
  What the watch loop does get done (packages/cli/src/watch.ts:121-277): every accepted event is written in order, an
  interrupted loop resolves with the position of the last of them, and a finished one always settles.
 */
module WatchProgress {
  import opened Wrappers
  import opened SyncPositions
  import opened Consumer
  import opened Realtime
  import opened WatchLoop
  import WatchOutcomes
  import RealtimeFrames
  import RealtimeOutcomes

  // ---------------------------------------------------------------------------------------------
  // Inputs
  // ---------------------------------------------------------------------------------------------

  /** The first settlement decides: the output is given up, with an error or with the cursor. */
  predicate Settles(w: Watch, v: Watch, failure: Option<WatchError>)
  {
    v == if w.outputCancelled then w
         else w.(outputCancelled := true, result := Some(if failure.Some? then Rejected(failure.value) else Resolved(w.cursor)))
  }

  lemma InputMeans(log: seq<Event>, s: System, input: Input)
    requires Valid(s.client) && s.client.host.Watcher? && Enabled(log, s, input)
    requires input.OutputSettles? ==> HeadOk(s.client.host.watch)
    ensures
      var c, r := s.client, Apply1(log, s, input);
      var w := c.host.watch;
      && (!input.Transport? ==> r.next == s.next)
      && match input
         case Transport(step) => r.client == Apply(c, step)
         case OutputStarts =>
           r.client == c.(host := Watcher(if w.outputCancelled then w.(queue := w.queue[1..]) else w.(writing := true)))
         case OutputSettles(ok) => r.client == if ok then Written(c) else WriteFailed(c)
         case TailSettles =>
           r.client.host.Watcher? && r.client == c.(host := r.client.host)
           && Settles(w, r.client.host.watch, if w.broken then Some(OutputError) else w.failure)
         case DeadlinePasses =>
           r.client.host.Watcher? && r.client == c.(host := r.client.host) && Settles(w, r.client.host.watch, w.failure)
         case Interrupted => r.client == WatchLoop.Finish(c, None)
  {
    hide Valid, Apply, Written, WriteFailed, WatchLoop.Finish, HeadOk;
  }

  /** The tail goes on as long as something is queued and nothing failed, and a finished loop can always settle. */
  lemma SomethingIsNext(log: seq<Event>, s: System)
    requires s.client.host.Watcher?
    ensures
      var w := s.client.host.watch;
      && (w.queue != [] && !w.broken ==> Enabled(log, s, OutputStarts) || Enabled(log, s, OutputSettles(true)))
      && (w.queue != [] && w.writing ==> Enabled(log, s, OutputSettles(true)) && Enabled(log, s, OutputSettles(false)))
      && (Enabled(log, s, DeadlinePasses) <==> w.finished)
      && (Enabled(log, s, TailSettles) <==> w.finished && (w.broken || w.queue == []))
      && Enabled(log, s, Interrupted)
  {
  }

  /** The loop begins at the given position with nothing queued, and with a ticket requested unless it was aborted before. */
  lemma BeginMeans(after: Position, userId: EntityId, workspaceId: EntityId, aborted: bool)
    ensures
      var s := Begin(after, userId, workspaceId, aborted);
      var scope := Scope(userId, workspaceId, 1);
      && s.next == 0 && s.client.cursor == Some(after) && s.client.channels == [] && s.client.host.Watcher?
      && s.client.host.watch == Watch(scope, after, [], false, false, [], aborted, false, None, None, None)
      && (if aborted then s.client.stopped
          else Running(s.client) && s.client.ticketEpoch.Some? && s.client.scope == Some(scope) && s.client.ready && !s.client.windowless)
  {
  }

  // ---------------------------------------------------------------------------------------------
  // Draining
  // ---------------------------------------------------------------------------------------------

  /** `n` writes that succeed. */
  function Drain(n: nat): seq<Input>
  {
    if n == 0 then [] else [OutputStarts, OutputSettles(true)] + Drain(n - 1)
  }

  /** The output is neither given up nor broken, and no write is under way. */
  predicate Flows(c: Client)
  {
    c.host.Watcher? && !c.host.watch.outputCancelled && !c.host.watch.broken && !c.host.watch.writing
  }

  ghost predicate Leads(log: seq<Event>, after: Position, s: System, input: Input, t: System)
  {
    && IsLog(log, after.epoch) && Inv(log, after, s) && Inv(log, after, t)
    && s.client.host.Watcher? && Enabled(log, s, input) && (input.OutputSettles? ==> HeadOk(s.client.host.watch))
    && t == Apply1(log, s, input)
  }

  lemma Step1(log: seq<Event>, after: Position, s: System, input: Input) returns (t: System)
    requires IsLog(log, after.epoch) && Inv(log, after, s) && s.client.host.Watcher? && Enabled(log, s, input)
    ensures Leads(log, after, s, input, t)
  {
    StepKeeps(log, after, s, input);
    t := Apply1(log, s, input);
    hide Inv, Apply1, Enabled, HeadOk;
  }

  lemma InvIsWatcher(log: seq<Event>, after: Position, s: System)
    requires Inv(log, after, s)
    ensures Valid(s.client) && s.client.host.Watcher?
  {
    hide Valid;
  }

  lemma LegalStep(log: seq<Event>, after: Position, s: System, input: Input, t: System, rest: seq<Input>)
    requires Leads(log, after, s, input, t)
    requires Legal(log, after, t, rest)
    ensures Legal(log, after, s, [input] + rest)
    ensures RunWatch(log, after, s, [input] + rest) == RunWatch(log, after, t, rest)
  {
    assert ([input] + rest)[1..] == rest;
    hide Inv, Apply1, Enabled, HeadOk, Obeys;
  }

  /** Writing the head: it joins what was written, and the cursor is at or above it. */
  predicate WritesHead(v: Watch, w: Watch)
    requires v.queue != []
  {
    && w.written == v.written + [v.queue[0]] && w.queue == v.queue[1..]
    && v.cursor.sequence <= w.cursor.sequence
    && (!v.queue[0].kind.ResyncRequired? ==> v.queue[0].position.sequence <= w.cursor.sequence)
    && (v.finished ==> w.finished && w.failure == v.failure)
  }

  lemma HeadDrains(log: seq<Event>, after: Position, s: System) returns (t: System, u: System)
    requires IsLog(log, after.epoch) && Inv(log, after, s) && Flows(s.client) && s.client.host.watch.queue != []
    ensures Leads(log, after, s, OutputStarts, t) && Leads(log, after, t, OutputSettles(true), u)
    ensures Flows(u.client) && WritesHead(s.client.host.watch, u.client.host.watch)
  {
    hide Inv, Apply1, HeadOk, Obeys, Valid;
    InvIsWatcher(log, after, s);
    t := Step1(log, after, s, OutputStarts);
    InputMeans(log, s, OutputStarts);
    InvIsWatcher(log, after, t);
    u := Step1(log, after, t, OutputSettles(true));
    InputMeans(log, t, OutputSettles(true));
    HeadIsWritten(t.client);
  }

  lemma HeadIsWritten(c: Client)
    requires Valid(c) && c.host.Watcher? && HeadOk(c.host.watch)
    requires !c.host.watch.outputCancelled && !c.host.watch.broken && c.host.watch.writing
    ensures Flows(Written(c)) && WritesHead(c.host.watch, Written(c).host.watch)
  {
    hide Valid, Written, WatchLoop.Finish;
    var w := c.host.watch;
    if w.queue[0].kind.ResyncRequired? {
      WatchOutcomes.LateOrSignalMeans(c);
      var d := WithWatch(c, WatchOutcomes.Shifted(w));
      WatchOutcomes.FinishMeans(d, Some(ResyncRequiredError));
    } else {
      WatchOutcomes.WrittenEventMeans(c);
    }
  }

  /** Everything queued, in order, and the cursor at or above it. */
  predicate WritesAll(v: Watch, w: Watch)
  {
    && w.written == v.written + v.queue && w.queue == []
    && v.cursor.sequence <= w.cursor.sequence
    && (forall e :: e in v.queue && !e.kind.ResyncRequired? ==> e.position.sequence <= w.cursor.sequence)
    && (v.finished ==> w.finished && w.failure == v.failure)
  }

  /** As long as the output takes what it is given, the whole queue is written, in order and whatever it holds. */
  lemma {:induction false} QueueDrains(log: seq<Event>, after: Position, s: System)
    requires IsLog(log, after.epoch) && Inv(log, after, s) && Flows(s.client)
    ensures Legal(log, after, s, Drain(|s.client.host.watch.queue|))
    ensures
      var t := RunWatch(log, after, s, Drain(|s.client.host.watch.queue|));
      Inv(log, after, t) && Flows(t.client) && WritesAll(s.client.host.watch, t.client.host.watch)
    decreases |s.client.host.watch.queue|
  {
    hide Inv, Apply1, HeadOk, Obeys, Enabled, Valid;
    var v := s.client.host.watch;
    if v.queue == [] {
      assert v.written + v.queue == v.written;
    } else {
      var t, u := HeadDrains(log, after, s);
      var rest := Drain(|v.queue| - 1);
      QueueDrains(log, after, u);
      LegalStep(log, after, t, OutputSettles(true), u, rest);
      LegalStep(log, after, s, OutputStarts, t, [OutputSettles(true)] + rest);
      assert Drain(|v.queue|) == [OutputStarts] + ([OutputSettles(true)] + rest);
      HeadAndRest(v, u.client.host.watch, RunWatch(log, after, u, rest).client.host.watch);
    }
  }

  lemma HeadAndRest(v: Watch, u: Watch, w: Watch)
    requires v.queue != [] && WritesHead(v, u) && WritesAll(u, w)
    ensures WritesAll(v, w)
  {
    assert v.queue == [v.queue[0]] + v.queue[1..];
  }

  // ---------------------------------------------------------------------------------------------
  // Delivery and shutdown
  // ---------------------------------------------------------------------------------------------

  /**
    From the server to the output: a change that the live connection accepts is written behind everything queued before
    it, and the cursor that the loop reports is then at or above it.
   */
  lemma EventIsWritten(log: seq<Event>, after: Position, s: System, socket: nat, event: Event, frameBytes: nat)
      returns (t: System)
    requires IsLog(log, after.epoch) && Inv(log, after, s) && Flows(s.client) && !s.client.host.watch.finished
    requires Enabled(log, s, Transport(MessageStep(socket, Product(event, frameBytes))))
    requires RealtimeFrames.Expected(s.client, socket, event) && s.client.connection.value.handshaken && event.kind.Change?
    requires s.client.ready && RealtimeFrames.Fits(RealtimeFrames.Outstanding(s.client, event))
    ensures Leads(log, after, s, Transport(MessageStep(socket, Product(event, frameBytes))), t) && Flows(t.client)
    ensures Legal(log, after, t, Drain(|t.client.host.watch.queue|))
    ensures
      var v, w := s.client.host.watch, RunWatch(log, after, t, Drain(|t.client.host.watch.queue|)).client.host;
      w.Watcher? && w.watch.written == v.written + v.queue + [event] && w.watch.queue == []
      && event.position.sequence <= w.watch.cursor.sequence
  {
    hide Inv, Apply1, Obeys, Enabled, Valid, Realtime.Apply, RealtimeFrames.Expected, RealtimeFrames.Fits,
         RealtimeFrames.Outstanding, Legal, RunWatch, Drain;
    var step := MessageStep(socket, Product(event, frameBytes));
    InvIsWatcher(log, after, s);
    t := Step1(log, after, s, Transport(step));
    InputMeans(log, s, Transport(step));
    EventIsQueued(log, after, s, socket, event, frameBytes);
    QueueDrains(log, after, t);
    assert s.client.host.watch.written + (s.client.host.watch.queue + [event])
        == s.client.host.watch.written + s.client.host.watch.queue + [event];
  }

  lemma EventIsQueued(log: seq<Event>, after: Position, s: System, socket: nat, event: Event, frameBytes: nat)
    requires Inv(log, after, s) && Valid(s.client) && Flows(s.client) && !s.client.host.watch.finished
    requires RealtimeFrames.Expected(s.client, socket, event) && s.client.connection.value.handshaken && event.kind.Change?
    requires s.client.ready && RealtimeFrames.Fits(RealtimeFrames.Outstanding(s.client, event))
    ensures
      var v := s.client.host.watch;
      Apply(s.client, MessageStep(socket, Product(event, frameBytes))).host == Watcher(v.(queue := v.queue + [event]))
  {
    assert !s.client.windowless;
    hide Inv, Valid, Apply, RealtimeFrames.Fits;
    RealtimeFrames.LiveFrameMeans(s.client, socket, event, frameBytes);
    WatchOutcomes.EventMeans(s.client.host.watch, event);
  }

  /**
    An interrupted loop whose output goes on taking what was accepted resolves, and the position it resolves with is at
    or above everything that was accepted.
   */
  lemma InterruptedResolves(log: seq<Event>, after: Position, s: System) returns (t: System, u: System, last: System)
    requires IsLog(log, after.epoch) && Inv(log, after, s) && Flows(s.client) && !s.client.host.watch.finished
    ensures Leads(log, after, s, Interrupted, t) && t.client.stopped && Flows(t.client)
    ensures Legal(log, after, t, Drain(|s.client.host.watch.queue|))
    ensures u == RunWatch(log, after, t, Drain(|s.client.host.watch.queue|)) && Leads(log, after, u, TailSettles, last)
    ensures
      var v := s.client.host.watch;
      last.client.host.Watcher?
      && var w := last.client.host.watch;
      && w.written == v.written + v.queue
      && w.result == Some(Resolved(w.cursor))
      && forall e :: e in v.queue && !e.kind.ResyncRequired? ==> e.position.sequence <= w.cursor.sequence
  {
    hide Inv, Apply1, Obeys, Valid, HeadOk, Legal, RunWatch, Drain, WatchLoop.Finish;
    InvIsWatcher(log, after, s);
    t := Step1(log, after, s, Interrupted);
    InputMeans(log, s, Interrupted);
    WatchOutcomes.FinishMeans(s.client, None);
    QueueDrains(log, after, t);
    u := RunWatch(log, after, t, Drain(|s.client.host.watch.queue|));
    InvIsWatcher(log, after, u);
    last := Step1(log, after, u, TailSettles);
    InputMeans(log, u, TailSettles);
  }

  /** A finished loop settles at its deadline, whatever the output does, with its failure or the cursor of what was written. */
  lemma DeadlineSettles(log: seq<Event>, after: Position, s: System) returns (t: System)
    requires IsLog(log, after.epoch) && Inv(log, after, s) && s.client.host.watch.finished
    ensures Leads(log, after, s, DeadlinePasses, t) && t.client.host.Watcher? && t.client.host.watch.outputCancelled
    ensures Settles(s.client.host.watch, t.client.host.watch, s.client.host.watch.failure)
  {
    hide Inv, Apply1, Obeys, Valid;
    InvIsWatcher(log, after, s);
    t := Step1(log, after, s, DeadlinePasses);
    InputMeans(log, s, DeadlinePasses);
  }
}
