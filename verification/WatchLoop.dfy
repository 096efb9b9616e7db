/**
  watchProductRealtime (packages/cli/src/watch.ts) over the realtime client: the closure variables
  live in the client's host, and the FIFO `tail` writes events to the output behind the transport.

  The server's visible events of the replay epoch are a log, fixed in advance to everything the run
  will ever see. What is assumed of the server is exactly `Obeys`.
 */
module WatchLoop {
  import opened Wrappers
  import opened SyncPositions
  import opened Consumer
  import opened Realtime

  /** `next` indexes the first log event that the server has not sent on the newest socket. */
  datatype System = System(client: Client, next: nat)

  datatype Input =
    | Transport(step: Step)
    | OutputStarts
    | OutputSettles(ok: bool)
    | TailSettles
    | DeadlinePasses
    | Interrupted

  /** The visible events of one epoch in increasing order. */
  predicate IsLog(log: seq<Event>, epoch: EntityId)
  {
    && (forall i :: 0 <= i < |log| ==> log[i].kind.Change? && log[i].position.epoch == epoch)
    && (forall i, j :: 0 <= i < j < |log| ==> log[i].position.sequence < log[j].position.sequence)
  }

  /** The first log event above `sequence`. */
  function FirstAbove(log: seq<Event>, sequence: nat): (r: nat)
    ensures r <= |log|
    ensures forall i :: 0 <= i < r ==> log[i].position.sequence <= sequence
    ensures r < |log| ==> log[r].position.sequence > sequence
  {
    if log == [] || log[0].position.sequence > sequence then 0
    else
      assert log == [log[0]] + log[1..];
      1 + FirstAbove(log[1..], sequence)
  }

  // ---------------------------------------------------------------------------------------------
  // Steps
  // ---------------------------------------------------------------------------------------------

  predicate IsTransport(step: Step)
  {
    step.TicketGrantedStep? || step.TicketRejectedStep? || step.TimerStep? || step.MessageStep?
    || step.SocketErrorStep? || step.SocketClosedStep? || step.UnexpectedResponseStep?
  }

  /**
    The server assumption. On the live socket the events of the log's epoch and workspace come
    from the log, without a gap, starting above the resume position; a handshake names a position
    that no unsent event is at or below. Control frames and garbage may come at any time.
   */
  predicate Obeys(log: seq<Event>, s: System, step: Step)
  {
    step.MessageStep? && step.frame.Product? && IsActive(s.client, step.socket)
    && s.client.cursor.Some? && s.client.cursor.value.epoch == step.frame.event.position.epoch
    && step.frame.event.workspaceId == s.client.connection.value.scope.workspaceId
    ==>
      var event := step.frame.event;
      match event.kind
      case Change => s.next < |log| && event == log[s.next]
      case Connected(_, _) => s.next >= |log| || log[s.next].position.sequence > event.position.sequence
      case ResyncRequired => true
  }

  /** What can happen next. */
  predicate Enabled(log: seq<Event>, s: System, input: Input)
    requires s.client.host.Watcher?
  {
    var w := s.client.host.watch;
    match input
    case Transport(step) => IsTransport(step) && Obeys(log, s, step)
    case OutputStarts => w.queue != [] && !w.writing && !w.broken
    case OutputSettles(_) => w.writing && w.queue != []
    case TailSettles => w.finished && (w.broken || w.queue == [])
    case DeadlinePasses => w.finished
    case Interrupted => true
  }

  function NextOnSocket(log: seq<Event>, s: System, step: Step): nat
  {
    if step.TicketGrantedStep? && step.created && OwnsTicket(s.client, step.epoch) && s.client.cursor.Some? then
      FirstAbove(log, s.client.cursor.value.sequence)
    else if step.MessageStep? && step.frame.Product? && step.frame.event.kind.Change?
            && IsActive(s.client, step.socket) && s.client.cursor.Some?
            && s.client.cursor.value.epoch == step.frame.event.position.epoch
            && step.frame.event.workspaceId == s.client.connection.value.scope.workspaceId then s.next + 1
    else s.next
  }

  function WithWatch(c: Client, w: Watch): (r: Client)
    ensures Valid(c) ==> Valid(r)
  {
    c.(host := Watcher(w))
  }

  /** `finish` called from the watch loop itself. */
  function Finish(c: Client, error: Option<WatchError>): (r: Client)
    requires Valid(c) && c.host.Watcher?
    ensures Valid(r)
  {
    var (w, resets) := c.host.watch.Finish(error);
    if resets then ResetSession(WithWatch(c, w)) else WithWatch(c, w)
  }

  /** The head of the tail starts: nothing is written once the output was cancelled. */
  function StartOutput(w: Watch): Watch
    requires w.queue != []
  {
    if w.outputCancelled then w.(queue := w.queue[1..]) else w.(writing := true)
  }

  /** The head can be compared with the cursor, should it be written. */
  predicate HeadOk(w: Watch)
  {
    w.queue != []
    && (w.outputCancelled || w.queue[0].kind.ResyncRequired? || w.queue[0].position.epoch == w.cursor.epoch)
  }

  /** The awaited write of the head succeeded. */
  function Written(c: Client): (r: Client)
    requires Valid(c) && c.host.Watcher? && HeadOk(c.host.watch)
    ensures Valid(r)
  {
    var w := c.host.watch;
    var event := w.queue[0];
    var w1 := w.(queue := w.queue[1..], writing := false, written := w.written + [event]);
    if w.outputCancelled then WithWatch(c, w1)
    else if event.kind.ResyncRequired? then Finish(WithWatch(c, w1), Some(ResyncRequiredError))
    else
      var w2 := w1.(cursor := LaterCursor(w.cursor, event.position));
      AcknowledgeScoped(WithWatch(c, w2), w.scope, w2.cursor)
  }

  /** The awaited write of the head failed: the chain is rejected and nothing after it is written. */
  function WriteFailed(c: Client): (r: Client)
    requires Valid(c) && c.host.Watcher?
    ensures Valid(r)
  {
    Finish(WithWatch(c, c.host.watch.(writing := false, broken := true)), Some(OutputError))
  }

  /** `settle`: only the first one decides. */
  function Settle(w: Watch, failure: Option<WatchError>): Watch
  {
    if w.outputCancelled then w
    else w.(outputCancelled := true,
            result := Some(match failure case None => Resolved(w.cursor) case Some(e) => Rejected(e)))
  }

  function Apply1(log: seq<Event>, s: System, input: Input): (r: System)
    requires Valid(s.client) && s.client.host.Watcher? && Enabled(log, s, input)
    requires input.OutputSettles? ==> HeadOk(s.client.host.watch)
    ensures Valid(r.client)
  {
    var c := s.client;
    var w := c.host.watch;
    match input
    case Transport(step) => System(Apply(c, step), NextOnSocket(log, s, step))
    case OutputStarts => s.(client := WithWatch(c, StartOutput(w)))
    case OutputSettles(ok) => s.(client := if ok then Written(c) else WriteFailed(c))
    case TailSettles => s.(client := WithWatch(c, Settle(w, if w.broken then Some(OutputError) else w.failure)))
    case DeadlinePasses => s.(client := WithWatch(c, Settle(w, w.failure)))
    case Interrupted => s.(client := Finish(c, None))
  }

  // ---------------------------------------------------------------------------------------------
  // Coverage
  // ---------------------------------------------------------------------------------------------

  /** Every log event in (after, sequence] is in `q`. */
  predicate Covered(log: seq<Event>, after: nat, q: seq<Event>, sequence: nat)
  {
    forall i :: 0 <= i < |log| && after < log[i].position.sequence <= sequence ==> log[i] in q
  }

  /** Every log event above `after` among the first `n` is in `q`. */
  predicate Sent(log: seq<Event>, after: nat, q: seq<Event>, n: nat)
    requires n <= |log|
  {
    forall i :: 0 <= i < n && after < log[i].position.sequence ==> log[i] in q
  }

  /** Whenever an event is processed, everything the server had below it was processed before. */
  predicate Closed(log: seq<Event>, after: Position, q: seq<Event>)
  {
    q == []
    || (Closed(log, after, q[..|q| - 1])
        && (q[|q| - 1].kind.ResyncRequired?
            || (q[|q| - 1].position.epoch == after.epoch
                && Covered(log, after.sequence, q, q[|q| - 1].position.sequence))))
  }

  function Processing(w: Watch): seq<Event>
  {
    w.written + w.queue
  }

  predicate Safe(log: seq<Event>, after: Position, host: Host)
  {
    && host.Watcher?
    && var w := host.watch;
    && w.cursor.epoch == after.epoch && after.sequence <= w.cursor.sequence
    && (w.outputCancelled || Closed(log, after, Processing(w)))
    && Covered(log, after.sequence, w.written, w.cursor.sequence)
    && (w.result.Some? && w.result.value.Resolved? ==>
          Covered(log, after.sequence, w.written, w.result.value.cursor.sequence))
  }

  /** Unless the output was given up, the first `n` log events have been enqueued. */
  predicate Supplied(log: seq<Event>, after: Position, w: Watch, n: nat)
  {
    n <= |log| && (w.outputCancelled || Sent(log, after.sequence, Processing(w), n))
  }

  /** What the live socket still owes the queue. */
  predicate FeedOk(log: seq<Event>, after: Position, s: System)
    requires s.client.host.Watcher?
  {
    s.client.connection.Some? ==>
      var w, k := s.client.host.watch, s.client.connection.value;
      if k.handshaken then Supplied(log, after, w, s.next)
      else
        && |k.replay| <= s.next <= |log|
        && Events(k.replay) == log[s.next - |k.replay|..s.next]
        && Supplied(log, after, w, s.next - |k.replay|)
  }

  predicate Resumable(log: seq<Event>, after: Position, c: Client)
    requires c.host.Watcher?
  {
    && c.cursor.Some? && c.cursor.value.epoch == after.epoch
    && c.cursor.value.sequence <= c.host.watch.cursor.sequence
    && !c.windowless
    && forall i :: 0 <= i < |c.channels| ==>
         Covered(log, after.sequence, c.host.watch.written, c.channels[i].openedAt.sequence)
  }

  predicate Inv(log: seq<Event>, after: Position, s: System)
  {
    && Valid(s.client)
    && Safe(log, after, s.client.host)
    && Resumable(log, after, s.client)
    && FeedOk(log, after, s)
  }

  lemma QuietProcessing(before: Host, after: Host)
    requires before.Watcher? && Quiet(before, after)
    ensures var q, r := Processing(before.watch), Processing(after.watch);
            q <= r && forall k :: |q| <= k < |r| ==> r[k].kind.ResyncRequired?
  {
    var v, w := before.watch, after.watch;
    assert Processing(w)[..|Processing(v)|] == v.written + w.queue[..|v.queue|];
  }

  lemma {:induction false} ClosedExtends(log: seq<Event>, after: Position, q: seq<Event>, r: seq<Event>)
    requires Closed(log, after, q) && q <= r
    requires forall k :: |q| <= k < |r| ==> r[k].kind.ResyncRequired?
    ensures Closed(log, after, r)
    decreases |r|
  {
    if |q| == |r| {
      assert q == r;
    } else {
      ClosedExtends(log, after, q, r[..|r| - 1]);
    }
  }

  /** The events below any processed event were processed no later than it. */
  lemma {:induction false} ClosedMeans(log: seq<Event>, after: Position, q: seq<Event>, k: nat)
    requires Closed(log, after, q) && k < |q| && !q[k].kind.ResyncRequired?
    ensures q[k].position.epoch == after.epoch
    ensures Covered(log, after.sequence, q[..k + 1], q[k].position.sequence)
    decreases |q|
  {
    if k == |q| - 1 {
      assert q[..k + 1] == q;
    } else {
      ClosedMeans(log, after, q[..|q| - 1], k);
      assert q[..|q| - 1][..k + 1] == q[..k + 1];
    }
  }

  lemma QuietSafe(log: seq<Event>, after: Position, before: Host, host: Host)
    requires Safe(log, after, before) && Quiet(before, host)
    ensures Safe(log, after, host)
  {
    QuietProcessing(before, host);
    if !host.watch.outputCancelled {
      ClosedExtends(log, after, Processing(before.watch), Processing(host.watch));
    }
  }

  lemma SentGrows(log: seq<Event>, after: nat, q: seq<Event>, r: seq<Event>, n: nat)
    requires n <= |log| && q <= r && Sent(log, after, q, n)
    ensures Sent(log, after, r, n)
  {
    forall i | 0 <= i < n && after < log[i].position.sequence ensures log[i] in r {
      var k :| 0 <= k < |q| && q[k] == log[i];
      assert r[k] == log[i];
    }
  }

  lemma CoveredGrows(log: seq<Event>, after: nat, q: seq<Event>, r: seq<Event>, sequence: nat)
    requires q <= r && Covered(log, after, q, sequence)
    ensures Covered(log, after, r, sequence)
  {
    forall i | 0 <= i < |log| && after < log[i].position.sequence <= sequence ensures log[i] in r {
      var k :| 0 <= k < |q| && q[k] == log[i];
      assert r[k] == log[i];
    }
  }

  /** Enqueueing an event whose predecessors are all there. */
  lemma TookSafe(log: seq<Event>, after: Position, host: Host, event: Event)
    requires Safe(log, after, host) && event.position.epoch == after.epoch
    requires host.watch.outputCancelled
             || Covered(log, after.sequence, Processing(host.watch) + [event], event.position.sequence)
    ensures Safe(log, after, Took(host, event))
    ensures Processing(Took(host, event).watch) == Processing(host.watch) + [event]
  {
    var q := Processing(host.watch);
    var r := q + [event];
    assert Processing(Took(host, event).watch) == r;
    assert r[..|r| - 1] == q;
  }

  lemma NextIsCovered(log: seq<Event>, after: Position, q: seq<Event>, n: nat)
    requires IsLog(log, after.epoch) && n < |log| && Sent(log, after.sequence, q, n)
    ensures Covered(log, after.sequence, q + [log[n]], log[n].position.sequence)
    ensures Sent(log, after.sequence, q + [log[n]], n + 1)
  {
    forall i | 0 <= i < |log| && after.sequence < log[i].position.sequence <= log[n].position.sequence
      ensures log[i] in q + [log[n]]
    {
      assert i <= n;
    }
  }

  // ---------------------------------------------------------------------------------------------
  // Frames keep the invariant
  // ---------------------------------------------------------------------------------------------

  /** A client mid-callback whose queue has received everything sent below index `n`. */
  predicate Feeding(log: seq<Event>, after: Position, c: Client, n: nat)
  {
    && c.cursor.Some? && c.cursor.value.epoch == after.epoch && !c.windowless
    && Safe(log, after, c.host)
    && Supplied(log, after, c.host.watch, n)
  }

  lemma QuietSupplied(log: seq<Event>, after: Position, before: Host, host: Host, n: nat)
    requires before.Watcher? && Quiet(before, host) && Supplied(log, after, before.watch, n)
    ensures Supplied(log, after, host.watch, n)
  {
    QuietProcessing(before, host);
    if !host.watch.outputCancelled {
      SentGrows(log, after.sequence, Processing(before.watch), Processing(host.watch), n);
    }
  }

  /** The output and its cursor are the watch loop's own business. */
  predicate SameOutput(before: Host, after: Host)
  {
    before.Watcher? && after.Watcher?
    && after.watch.written == before.watch.written && after.watch.cursor == before.watch.cursor
  }

  /** Handing over the next event of the log, live or from the replay buffer. */
  lemma DeliverNext(log: seq<Event>, after: Position, c: Client, socket: nat, n: nat)
    requires IsLog(log, after.epoch) && n < |log|
    requires Core(c) && IsActive(c, socket) && NextInOrder(c, socket, log[n]) && Feeding(log, after, c, n)
    ensures
      var r := DeliverEvent(c, socket, log[n]).0;
      && Safe(log, after, r.host) && SameOutput(c.host, r.host) && !r.windowless
      && (IsActive(r, socket) ==> Feeding(log, after, r, n + 1))
  {
    var r := DeliverEvent(c, socket, log[n]).0;
    if !c.host.watch.outputCancelled {
      NextIsCovered(log, after, Processing(c.host.watch), n);
    }
    TookSafe(log, after, c.host, log[n]);
    var took := Took(c.host, log[n]);
    if Quiet(took, r.host) {
      QuietSafe(log, after, took, r.host);
      QuietSupplied(log, after, took, r.host, n + 1);
    } else {
      QuietSafe(log, after, c.host, r.host);
    }
  }

  /** One turn of the loop: handed over, or the connection is gone and the loop ends. */
  lemma ReplayTurn(
    log: seq<Event>, after: Position, c: Client, socket: nat, replay: seq<Event>, handshake: Event, n: nat)
    requires IsLog(log, after.epoch) && n < |log| && replay != [] && replay[0] == log[n]
    requires Core(c) && AwaitsReplay(c, socket, replay, handshake) && Feeding(log, after, c, n)
    ensures NextInOrder(c, socket, replay[0]) && replay[0].position.epoch == c.cursor.value.epoch
    ensures
      var c1 := DeliverEvent(c, socket, replay[0]).0;
      && Core(c1) && Safe(log, after, c1.host) && SameOutput(c.host, c1.host) && !c1.windowless
      && (IsActive(c1, socket) ==>
            Feeding(log, after, c1, n + 1) && AwaitsReplay(c1, socket, replay[1..], handshake))
  {
    ReplayHead(c, socket, replay, handshake);
    DeliverNext(log, after, c, socket, n);
  }

  lemma {:induction false} ReplayInOrder(
    log: seq<Event>, after: Position, c: Client, socket: nat, replay: seq<Event>, handshake: Event, n: nat)
    requires IsLog(log, after.epoch) && n + |replay| <= |log| && replay == log[n..n + |replay|]
    requires Core(c) && AwaitsReplay(c, socket, replay, handshake) && Feeding(log, after, c, n)
    ensures
      var r := DeliverReplay(c, socket, replay, handshake);
      && Safe(log, after, r.0.host) && SameOutput(c.host, r.0.host) && !r.0.windowless
      && (r.1 ==> Feeding(log, after, r.0, n + |replay|))
    decreases |replay|
  {
    hide DeliverEvent;
    if replay != [] {
      ReplayTurn(log, after, c, socket, replay, handshake, n);
      var turn := DeliverEvent(c, socket, replay[0]);
      if turn.1 && IsActive(turn.0, socket) {
        ReplayInOrder(log, after, turn.0, socket, replay[1..], handshake, n + 1);
      }
    }
  }

  // ---------------------------------------------------------------------------------------------
  // Transport steps keep the invariant
  // ---------------------------------------------------------------------------------------------

  /** A transport step touches neither output nor resume positions. */
  predicate Carried(c: Client, r: Client)
  {
    && SameOutput(c.host, r.host)
    && r.cursor == c.cursor && !r.windowless
    && |r.channels| == |c.channels|
    && forall i :: 0 <= i < |r.channels| ==> r.channels[i].openedAt == c.channels[i].openedAt
  }

  lemma CarriedResumes(log: seq<Event>, after: Position, c: Client, r: Client)
    requires c.host.Watcher? && Resumable(log, after, c) && Carried(c, r)
    ensures Resumable(log, after, r)
  {
  }

  lemma QuietFeed(log: seq<Event>, after: Position, s: System, r: Client)
    requires s.client.host.Watcher? && FeedOk(log, after, s) && Quiet(s.client.host, r.host)
    requires r.connection.None? || r.connection == s.client.connection
    ensures FeedOk(log, after, System(r, s.next))
  {
    if r.connection.Some? {
      var k := r.connection.value;
      QuietSupplied(log, after, s.client.host, r.host, if k.handshaken then s.next else s.next - |k.replay|);
    }
  }

  /** Steps that offer the consumer no event. */
  lemma QuietKeeps(log: seq<Event>, after: Position, s: System, r: Client)
    requires Inv(log, after, s) && Valid(r) && Carried(s.client, r) && Quiet(s.client.host, r.host)
    requires r.connection.None? || r.connection == s.client.connection
    ensures Inv(log, after, System(r, s.next))
  {
    QuietSafe(log, after, s.client.host, r.host);
    CarriedResumes(log, after, s.client, r);
    QuietFeed(log, after, s, r);
  }

  predicate Opens(c: Client, step: Step)
  {
    step.TicketGrantedStep? && step.created && OwnsTicket(c, step.epoch)
  }

  lemma OtherTransportIsQuiet(c: Client, step: Step)
    requires Valid(c) && c.host.Watcher? && !c.windowless
    requires IsTransport(step) && !step.MessageStep? && !Opens(c, step)
    ensures
      var r := Apply(c, step);
      Carried(c, r) && Quiet(c.host, r.host) && (r.connection.None? || r.connection == c.connection)
  {
  }

  lemma OpeningKeeps(log: seq<Event>, after: Position, s: System, step: Step)
    requires IsLog(log, after.epoch) && Inv(log, after, s) && Opens(s.client, step)
    ensures Inv(log, after, System(Apply(s.client, step), NextOnSocket(log, s, step)))
  {
    var c := s.client;
    var r := Apply(c, step);
    var next := NextOnSocket(log, s, step);
    var w := c.host.watch;
    assert r.connection.value.replay == [] && !r.connection.value.handshaken && r.host == c.host;
    forall i | 0 <= i < next && after.sequence < log[i].position.sequence ensures log[i] in Processing(w) {
      assert log[i] in w.written;
    }
    assert log[next..next] == [];
    CoveredBelow(log, after.sequence, w.written, c.cursor.value.sequence, w.cursor.sequence);
  }

  lemma CoveredBelow(log: seq<Event>, after: nat, q: seq<Event>, low: nat, high: nat)
    requires low <= high && Covered(log, after, q, high)
    ensures Covered(log, after, q, low)
  {
  }

  /** Frames that the client refuses, and activity. */
  predicate Refused(c: Client, socket: nat, frame: Frame)
    requires Valid(c)
  {
    !IsActive(c, socket)
    || !frame.Product?
    || frame.event.workspaceId != c.connection.value.scope.workspaceId
    || (frame.event.kind.Connected? && frame.event.kind.userId != c.connection.value.scope.userId)
    || frame.event.position.epoch != c.cursor.value.epoch
    || (frame.event.kind.Connected? && c.connection.value.handshaken)
  }

  lemma RefusedIsQuiet(c: Client, socket: nat, frame: Frame)
    requires Valid(c) && c.host.Watcher? && !c.windowless && Refused(c, socket, frame)
    ensures
      var r := HandleMessage(c, socket, frame);
      Carried(c, r) && Quiet(c.host, r.host) && (r.connection.None? || r.connection == c.connection)
  {
    hide RejectInvalidEvent, FailIncompatible, HandleEvent;
    if IsActive(c, socket) && frame.Product? && frame.event.workspaceId == c.scope.value.workspaceId
       && frame.event.kind.Connected? && frame.event.kind.userId == c.scope.value.userId
       && frame.event.position.epoch == c.cursor.value.epoch && c.connection.value.handshaken
    {
      RepeatedHandshake(c, socket, frame.event, frame.frameBytes);
    }
  }

  lemma RepeatedHandshake(c: Client, socket: nat, event: Event, frameBytes: nat)
    requires Valid(c) && IsActive(c, socket) && c.connection.value.handshaken
    requires event.workspaceId == c.scope.value.workspaceId && event.position.epoch == c.cursor.value.epoch
    requires event.kind.Connected? && event.kind.userId == c.scope.value.userId
    ensures HandleEvent(c, socket, event, frameBytes) == RejectInvalidEvent(c, socket)
  {
  }

  lemma ResyncIsQuiet(c: Client, socket: nat, frame: Frame)
    requires Valid(c) && c.host.Watcher? && !c.windowless && !Refused(c, socket, frame)
    requires frame.event.kind.ResyncRequired?
    ensures
      var r := HandleMessage(c, socket, frame);
      Carried(c, r) && Quiet(c.host, r.host) && (r.connection.None? || r.connection == c.connection)
  {
  }

  lemma HoldKeeps(log: seq<Event>, after: Position, s: System, socket: nat, event: Event, frameBytes: nat)
    requires IsLog(log, after.epoch) && Inv(log, after, s) && IsActive(s.client, socket)
    requires !s.client.connection.value.handshaken && s.next < |log| && event == log[s.next]
    requires event.workspaceId == s.client.scope.value.workspaceId
    ensures Inv(log, after, System(Hold(s.client, socket, event, frameBytes), s.next + 1))
  {
    hide RequireRecovery;
    var c, k := s.client, s.client.connection.value;
    if |k.replay| >= REPLAY_MAX_EVENTS || k.replayBytes + frameBytes > REPLAY_MAX_BYTES {
      var r := RequireRecovery(Arrived(c, socket, event), socket);
      QuietSafe(log, after, c.host, r.host);
      CarriedResumes(log, after, c, r);
    } else {
      BufferKeeps(log, after, s, socket, event, frameBytes);
    }
  }

  lemma BufferKeeps(log: seq<Event>, after: Position, s: System, socket: nat, event: Event, frameBytes: nat)
    requires IsLog(log, after.epoch) && Inv(log, after, s) && IsActive(s.client, socket)
    requires !s.client.connection.value.handshaken && s.next < |log| && event == log[s.next]
    requires event.workspaceId == s.client.scope.value.workspaceId
    requires |s.client.connection.value.replay| < REPLAY_MAX_EVENTS
    requires s.client.connection.value.replayBytes + frameBytes <= REPLAY_MAX_BYTES
    ensures Inv(log, after, System(Buffer(s.client, socket, event, frameBytes), s.next + 1))
  {
    hide Closed, Covered, Sent, Latch, Generation;
    var c, k := s.client, s.client.connection.value;
    var r := Buffer(c, socket, event, frameBytes);
    assert Events(r.connection.value.replay) == Events(k.replay) + [event];
    assert log[s.next - |k.replay|..s.next + 1] == log[s.next - |k.replay|..s.next] + [log[s.next]];
    CarriedResumes(log, after, c, r);
  }

  lemma LiveKeeps(log: seq<Event>, after: Position, s: System, socket: nat, event: Event)
    requires IsLog(log, after.epoch) && Inv(log, after, s) && IsActive(s.client, socket)
    requires s.client.connection.value.handshaken && s.next < |log| && event == log[s.next]
    requires event.workspaceId == s.client.scope.value.workspaceId
    ensures Inv(log, after, System(DeliverLive(s.client, socket, event), s.next + 1))
  {
    var c := s.client;
    ProofSurvives(c.channels[socket].arrived, event, c.channels[socket].scope.userId);
    var c1 := Arrived(c, socket, event);
    assert NextInOrder(c1, socket, log[s.next]);
    DeliverNext(log, after, c1, socket, s.next);
    var r := DeliverLive(c, socket, event);
    assert r == DeliverEvent(c1, socket, event).0;
    assert Carried(c, r);
    CarriedResumes(log, after, c, r);
  }

  /** A handshake at a position that no unsent event is at or below. */
  lemma LiveHandshakeKeeps(log: seq<Event>, after: Position, c: Client, socket: nat, event: Event, n: nat)
    requires IsLog(log, after.epoch) && Feeding(log, after, c, n)
    requires n == |log| || log[n].position.sequence > event.position.sequence
    requires Core(c) && IsActive(c, socket) && event.position.epoch == c.cursor.value.epoch
    requires event.kind.Connected? && c.connection.value.handshaken
    requires c.channels[socket].arrived == c.channels[socket].delivered + [event]
    requires ProvedBy(c.channels[socket].arrived, c.channels[socket].scope.userId)
    ensures
      var r := GoLive(c, socket, event);
      && Safe(log, after, r.host) && SameOutput(c.host, r.host) && !r.windowless
      && (r.connection.Some? ==> r.connection.value.handshaken && Feeding(log, after, r, n))
  {
    hide DeliverEvent;
    var c1 := c.(connection := Some(c.connection.value.(replay := [], replayBytes := 0)));
    var (c2, returned) := DeliverState(c1, Live);
    assert returned;
    QuietSafe(log, after, c.host, c2.host);
    if IsActive(c2, socket) {
      var q := Processing(c2.host.watch);
      QuietSupplied(log, after, c.host, c2.host, n);
      if !c2.host.watch.outputCancelled {
        SentGrows(log, after.sequence, q, q + [event], n);
        assert Covered(log, after.sequence, q + [event], event.position.sequence);
      }
      HandedSafe(log, after, c2, socket, event, n);
    }
  }

  /** Handing over an event below which everything was handed over. */
  lemma HandedSafe(log: seq<Event>, after: Position, c: Client, socket: nat, event: Event, n: nat)
    requires Core(c) && IsActive(c, socket) && event.position.epoch == c.cursor.value.epoch
    requires Feeding(log, after, c, n) && !event.kind.ResyncRequired? && NextInOrder(c, socket, event)
    requires c.host.watch.outputCancelled
             || Covered(log, after.sequence, Processing(c.host.watch) + [event], event.position.sequence)
    ensures
      var r := DeliverEvent(c, socket, event).0;
      && Safe(log, after, r.host) && SameOutput(c.host, r.host) && Feeding(log, after, r, n)
  {
    hide DeliverEvent;
    var r := DeliverEvent(c, socket, event).0;
    TookSafe(log, after, c.host, event);
    var took := Took(c.host, event);
    if Quiet(took, r.host) {
      QuietSafe(log, after, took, r.host);
      if !c.host.watch.outputCancelled {
        SentGrows(log, after.sequence, Processing(c.host.watch), Processing(took.watch), n);
      }
      QuietSupplied(log, after, took, r.host, n);
    } else {
      QuietSafe(log, after, c.host, r.host);
      QuietSupplied(log, after, c.host, r.host, n);
    }
  }

  lemma HandshakeKeeps(log: seq<Event>, after: Position, s: System, socket: nat, event: Event)
    requires IsLog(log, after.epoch) && Inv(log, after, s) && IsActive(s.client, socket)
    requires !s.client.connection.value.handshaken
    requires event.kind.Connected? && event.kind.userId == s.client.scope.value.userId
    requires event.workspaceId == s.client.scope.value.workspaceId
    requires event.position.epoch == s.client.cursor.value.epoch
    requires s.next >= |log| || log[s.next].position.sequence > event.position.sequence
    ensures Inv(log, after, System(Handshake(s.client, socket, event), s.next))
  {
    hide DeliverReplay, GoLive, Shaken;
    var c, replay := s.client, Events(s.client.connection.value.replay);
    var c1 := Shaken(c, socket, event);
    ReplayInOrder(log, after, c1, socket, replay, event, s.next - |replay|);
    var (c2, ok) := DeliverReplay(c1, socket, replay, event);
    if ok {
      assert c2.channels[socket].arrived == c2.channels[socket].delivered + [event];
      LiveHandshakeKeeps(log, after, c2, socket, event, s.next);
    }
    CarriedResumes(log, after, c, Handshake(c, socket, event));
  }

  // ---------------------------------------------------------------------------------------------
  // Output steps keep the invariant
  // ---------------------------------------------------------------------------------------------

  lemma FinishKeeps(log: seq<Event>, after: Position, s: System, error: Option<WatchError>)
    requires Inv(log, after, s)
    ensures Inv(log, after, System(Finish(s.client, error), s.next))
  {
    hide ResetSession;
    var c := s.client;
    var (w, resets) := c.host.watch.Finish(error);
    var c1 := WithWatch(c, w);
    assert Quiet(c.host, c1.host);
    QuietKeeps(log, after, s, c1);
    if resets {
      QuietKeeps(log, after, System(c1, s.next), ResetSession(c1));
    }
  }

  lemma StartOutputKeeps(log: seq<Event>, after: Position, s: System)
    requires Inv(log, after, s) && s.client.host.watch.queue != []
    ensures Inv(log, after, s.(client := WithWatch(s.client, StartOutput(s.client.host.watch))))
  {
  }

  lemma SettleKeeps(log: seq<Event>, after: Position, s: System, failure: Option<WatchError>)
    requires Inv(log, after, s)
    ensures Inv(log, after, s.(client := WithWatch(s.client, Settle(s.client.host.watch, failure))))
  {
  }

  lemma WriteFailedKeeps(log: seq<Event>, after: Position, s: System)
    requires Inv(log, after, s)
    ensures Inv(log, after, s.(client := WriteFailed(s.client)))
  {
    var c1 := WithWatch(s.client, s.client.host.watch.(writing := false, broken := true));
    assert Inv(log, after, System(c1, s.next));
    FinishKeeps(log, after, System(c1, s.next), Some(OutputError));
  }

  /** The head of the queue moved to the output; the cursor may move up to its position. */
  predicate Moved(w: Watch, v: Watch)
  {
    && w.queue != []
    && v.queue == w.queue[1..] && v.written == w.written + [w.queue[0]]
    && v.outputCancelled == w.outputCancelled && v.result == w.result
    && (v.cursor == w.cursor
        || (!w.outputCancelled && !w.queue[0].kind.ResyncRequired?
            && w.queue[0].position.epoch == w.cursor.epoch
            && v.cursor == LaterCursor(w.cursor, w.queue[0].position)))
  }

  lemma HeadIsOk(log: seq<Event>, after: Position, w: Watch)
    requires Safe(log, after, Watcher(w)) && w.queue != []
    ensures HeadOk(w)
  {
    if !w.outputCancelled && !w.queue[0].kind.ResyncRequired? {
      assert Processing(w)[|w.written|] == w.queue[0];
      ClosedMeans(log, after, Processing(w), |w.written|);
    }
  }

  lemma MovedSafe(log: seq<Event>, after: Position, w: Watch, v: Watch)
    requires Safe(log, after, Watcher(w)) && Moved(w, v)
    ensures Safe(log, after, Watcher(v)) && Processing(v) == Processing(w)
    ensures w.cursor.sequence <= v.cursor.sequence
  {
    var q := Processing(w);
    assert Processing(v) == q;
    CoveredGrows(log, after.sequence, w.written, v.written, w.cursor.sequence);
    if w.result.Some? && w.result.value.Resolved? {
      CoveredGrows(log, after.sequence, w.written, v.written, w.result.value.cursor.sequence);
    }
    if v.cursor != w.cursor {
      assert q[|w.written|] == w.queue[0] && q[..|w.written| + 1] == v.written;
      ClosedMeans(log, after, q, |w.written|);
    }
  }

  lemma MovedKeeps(log: seq<Event>, after: Position, s: System, v: Watch)
    requires Inv(log, after, s) && Moved(s.client.host.watch, v)
    ensures Inv(log, after, System(WithWatch(s.client, v), s.next))
  {
    var c := s.client;
    var w := c.host.watch;
    MovedSafe(log, after, w, v);
    var r := WithWatch(c, v);
    forall i | 0 <= i < |r.channels|
      ensures Covered(log, after.sequence, v.written, r.channels[i].openedAt.sequence)
    {
      CoveredGrows(log, after.sequence, w.written, v.written, r.channels[i].openedAt.sequence);
    }
  }

  /** A scoped acknowledgement changes the cursor, the delivery window and nothing else. */
  lemma AcknowledgementFrame(c: Client, scope: Scope, position: Position)
    requires Valid(c)
    ensures
      var r := AcknowledgeScoped(c, scope, position);
      && Quiet(c.host, r.host)
      && r.connection == c.connection && r.channels == c.channels && r.windowless == c.windowless
      && (r.cursor == c.cursor
          || (c.cursor.Some? && c.cursor.value.epoch == position.epoch
              && r.cursor == Some(LaterCursor(c.cursor.value, position))))
  {
    hide AcceptAcknowledgement, Valid, Window;
  }

  lemma AcknowledgedKeeps(log: seq<Event>, after: Position, s: System)
    requires Inv(log, after, s)
    ensures
      var w := s.client.host.watch;
      Inv(log, after, System(AcknowledgeScoped(s.client, w.scope, w.cursor), s.next))
  {
    hide AcknowledgeScoped;
    var w := s.client.host.watch;
    var r := AcknowledgeScoped(s.client, w.scope, w.cursor);
    AcknowledgementFrame(s.client, w.scope, w.cursor);
    QuietSafe(log, after, s.client.host, r.host);
    QuietFeed(log, after, s, r);
  }

  lemma WrittenKeeps(log: seq<Event>, after: Position, s: System)
    requires Inv(log, after, s) && s.client.host.watch.queue != [] && HeadOk(s.client.host.watch)
    ensures Inv(log, after, s.(client := Written(s.client)))
  {
    hide AcknowledgeScoped, Finish;
    var w := s.client.host.watch;
    var event := w.queue[0];
    var w1 := w.(queue := w.queue[1..], writing := false, written := w.written + [event]);
    if w.outputCancelled {
      MovedKeeps(log, after, s, w1);
    } else if event.kind.ResyncRequired? {
      MovedKeeps(log, after, s, w1);
      FinishKeeps(log, after, System(WithWatch(s.client, w1), s.next), Some(ResyncRequiredError));
    } else {
      var w2 := w1.(cursor := LaterCursor(w.cursor, event.position));
      MovedKeeps(log, after, s, w2);
      AcknowledgedKeeps(log, after, System(WithWatch(s.client, w2), s.next));
    }
  }

  // ---------------------------------------------------------------------------------------------
  // Runs
  // ---------------------------------------------------------------------------------------------

  lemma MessageKeeps(log: seq<Event>, after: Position, s: System, step: Step)
    requires IsLog(log, after.epoch) && Inv(log, after, s)
    requires step.MessageStep? && Obeys(log, s, step)
    ensures Inv(log, after, System(HandleMessage(s.client, step.socket, step.frame), NextOnSocket(log, s, step)))
  {
    hide Hold, Handshake, DeliverLive, HandleMessage, Closed, Covered, Supplied, Channels, Window;
    var c, socket, frame := s.client, step.socket, step.frame;
    if Refused(c, socket, frame) {
      RefusedIsQuiet(c, socket, frame);
      RefusedStays(log, s, step);
      QuietKeeps(log, after, s, HandleMessage(c, socket, frame));
    } else {
      AcceptedFrame(c, socket, frame);
      if frame.event.kind.ResyncRequired? {
        ResyncIsQuiet(c, socket, frame);
        QuietKeeps(log, after, s, HandleMessage(c, socket, frame));
      } else if frame.event.kind.Connected? {
        HandshakeKeeps(log, after, s, socket, frame.event);
      } else if !c.connection.value.handshaken {
        HoldKeeps(log, after, s, socket, frame.event, frame.frameBytes);
      } else {
        LiveKeeps(log, after, s, socket, frame.event);
      }
    }
  }

  /** Where an accepted frame goes. */
  lemma AcceptedFrame(c: Client, socket: nat, frame: Frame)
    requires Valid(c) && !Refused(c, socket, frame)
    ensures IsActive(c, socket) && c.scope == Some(c.connection.value.scope)
    ensures frame.event.kind.Connected? ==> HandleMessage(c, socket, frame) == Handshake(c, socket, frame.event)
    ensures frame.event.kind.Change? ==>
              HandleMessage(c, socket, frame)
              == if c.connection.value.handshaken then DeliverLive(c, socket, frame.event)
                 else Hold(c, socket, frame.event, frame.frameBytes)
  {
    hide Hold, Handshake, DeliverLive, RejectInvalidEvent, FailIncompatible, DeliverEvent, RetainWindowless;
  }

  lemma RefusedStays(log: seq<Event>, s: System, step: Step)
    requires Valid(s.client) && step.MessageStep? && Refused(s.client, step.socket, step.frame)
    ensures NextOnSocket(log, s, step) == s.next
  {
  }

  lemma StepKeeps(log: seq<Event>, after: Position, s: System, input: Input)
    requires IsLog(log, after.epoch) && Inv(log, after, s) && Enabled(log, s, input)
    ensures input.OutputSettles? ==> HeadOk(s.client.host.watch)
    ensures Inv(log, after, Apply1(log, s, input))
  {
    hide Apply, Written, WriteFailed, Finish;
    match input
    case Transport(step) => TransportKeeps(log, after, s, step);
    case OutputStarts => StartOutputKeeps(log, after, s);
    case OutputSettles(ok) =>
      HeadIsOk(log, after, s.client.host.watch);
      if ok { WrittenKeeps(log, after, s); } else { WriteFailedKeeps(log, after, s); }
    case TailSettles =>
      var w := s.client.host.watch;
      SettleKeeps(log, after, s, if w.broken then Some(OutputError) else w.failure);
    case DeadlinePasses => SettleKeeps(log, after, s, s.client.host.watch.failure);
    case Interrupted => FinishKeeps(log, after, s, None);
  }

  lemma TransportKeeps(log: seq<Event>, after: Position, s: System, step: Step)
    requires IsLog(log, after.epoch) && Inv(log, after, s) && IsTransport(step) && Obeys(log, s, step)
    ensures Inv(log, after, System(Apply(s.client, step), NextOnSocket(log, s, step)))
  {
    hide HandleMessage, TicketGranted, TicketRejected, TimerFired, SocketError, SocketClosed, UnexpectedResponse;
    if step.MessageStep? {
      MessageKeeps(log, after, s, step);
    } else if Opens(s.client, step) {
      OpeningKeeps(log, after, s, step);
    } else {
      OtherTransportIsQuiet(s.client, step);
      QuietKeeps(log, after, s, Apply(s.client, step));
    }
  }

  /** watchProductRealtime up to its first await; the session's scope epoch is the allocator's first. */
  function Begin(after: Position, userId: EntityId, workspaceId: EntityId, aborted: bool): System
  {
    var scope := Scope(userId, workspaceId, 1);
    var w := Watch(scope, after, [], false, false, [], false, false, None, None, None);
    var prepared := Prepare(Initial(Watcher(w)), after, userId, workspaceId).0;
    System(if aborted then Finish(prepared, None) else Activate(prepared, scope).0, 0)
  }

  lemma BeginKeeps(log: seq<Event>, after: Position, userId: EntityId, workspaceId: EntityId, aborted: bool)
    ensures Inv(log, after, Begin(after, userId, workspaceId, aborted))
  {
    var w := Watch(Scope(userId, workspaceId, 1), after, [], false, false, [], false, false, None, None, None);
    assert Processing(w) == [];
  }

  /** Every input of the run was possible when it happened. */
  predicate Legal(log: seq<Event>, after: Position, s: System, inputs: seq<Input>)
    requires IsLog(log, after.epoch) && Inv(log, after, s)
    decreases |inputs|
  {
    inputs == []
    || (Enabled(log, s, inputs[0])
        && (StepKeeps(log, after, s, inputs[0]);
            Legal(log, after, Apply1(log, s, inputs[0]), inputs[1..])))
  }

  function RunWatch(log: seq<Event>, after: Position, s: System, inputs: seq<Input>): System
    requires IsLog(log, after.epoch) && Inv(log, after, s) && Legal(log, after, s, inputs)
    decreases |inputs|
  {
    if inputs == [] then s
    else
      StepKeeps(log, after, s, inputs[0]);
      RunWatch(log, after, Apply1(log, s, inputs[0]), inputs[1..])
  }

  lemma {:induction false} InvOverRuns(log: seq<Event>, after: Position, s: System, inputs: seq<Input>)
    requires IsLog(log, after.epoch) && Inv(log, after, s) && Legal(log, after, s, inputs)
    ensures Inv(log, after, RunWatch(log, after, s, inputs))
    decreases |inputs|
  {
    hide Apply1, Resumable, FeedOk, Enabled, Valid;
    if inputs != [] {
      StepKeeps(log, after, s, inputs[0]);
      InvOverRuns(log, after, Apply1(log, s, inputs[0]), inputs[1..]);
    }
  }

  predicate LegalRun(
    log: seq<Event>, after: Position, userId: EntityId, workspaceId: EntityId, aborted: bool, inputs: seq<Input>)
    requires IsLog(log, after.epoch)
  {
    BeginKeeps(log, after, userId, workspaceId, aborted);
    Legal(log, after, Begin(after, userId, workspaceId, aborted), inputs)
  }

  function Outcome(
    log: seq<Event>, after: Position, userId: EntityId, workspaceId: EntityId, aborted: bool, inputs: seq<Input>)
    : (c: Client)
    requires IsLog(log, after.epoch) && LegalRun(log, after, userId, workspaceId, aborted, inputs)
    ensures c.host.Watcher?
  {
    BeginKeeps(log, after, userId, workspaceId, aborted);
    InvOverRuns(log, after, Begin(after, userId, workspaceId, aborted), inputs);
    RunWatch(log, after, Begin(after, userId, workspaceId, aborted), inputs).client
  }

  /**
    No gap, over every run and under any disconnects, refused tickets, reconnects, overlapping
    replays and output failures: every server event above `after` and at or below the cursor has
    been written. So no socket was ever resumed past an unwritten event, and neither is the cursor
    that the loop returns.
   */
  lemma NoGap(
    log: seq<Event>, after: Position, userId: EntityId, workspaceId: EntityId, aborted: bool, inputs: seq<Input>)
    requires IsLog(log, after.epoch) && LegalRun(log, after, userId, workspaceId, aborted, inputs)
    ensures
      var c := Outcome(log, after, userId, workspaceId, aborted, inputs);
      c.host.Watcher?
      && var w := c.host.watch;
      && (forall i | 0 <= i < |log| && after.sequence < log[i].position.sequence <= w.cursor.sequence ::
            log[i] in w.written)
      && (forall i, k | 0 <= i < |log| && 0 <= k < |c.channels|
                        && after.sequence < log[i].position.sequence <= c.channels[k].openedAt.sequence ::
            log[i] in w.written)
      && (w.result.Some? && w.result.value.Resolved? ==>
            forall i | 0 <= i < |log|
                       && after.sequence < log[i].position.sequence <= w.result.value.cursor.sequence ::
              log[i] in w.written)
  {
    BeginKeeps(log, after, userId, workspaceId, aborted);
    InvOverRuns(log, after, Begin(after, userId, workspaceId, aborted), inputs);
    var c := Outcome(log, after, userId, workspaceId, aborted, inputs);
    forall i, k | 0 <= i < |log| && 0 <= k < |c.channels|
                  && after.sequence < log[i].position.sequence <= c.channels[k].openedAt.sequence
      ensures log[i] in c.host.watch.written
    {
      assert Covered(log, after.sequence, c.host.watch.written, c.channels[k].openedAt.sequence);
    }
  }
}
