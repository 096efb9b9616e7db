/**
  The hypotheses of WatchLoop.NoGap are met by a run that gets somewhere: the socket opens, the
  handshake arrives, an event follows it, both are written, and the interrupted loop returns the
  event's position.
 */
module WatchWitness {
  import opened Wrappers
  import opened SyncPositions
  import opened Consumer
  import opened Realtime
  import opened WatchLoop

  const AFTER := Position("e", 5)
  const SCOPE := Scope("alice", "w", 1)
  const HELLO := Event(Connected("c", "alice"), AFTER, "w", 10)
  const NEWS := Event(Change, Position("e", 6), "w", 10)
  const LOG := [NEWS]

  const INPUTS := [
    Transport(TicketGrantedStep(2, true)), Transport(MessageStep(0, Product(HELLO, 10))),
    Transport(MessageStep(0, Product(NEWS, 10))), OutputStarts, OutputSettles(true), OutputStarts, OutputSettles(true),
    Interrupted, TailSettles]

  function Variables(cursor: Position, queue: seq<Event>, writing: bool, written: seq<Event>): Watch
  {
    Watch(SCOPE, cursor, queue, writing, false, written, false, false, None, None, None)
  }

  /** The socket is open for alice and the loop's variables are `w`. */
  predicate Open(s: System, handshaken: bool, w: Watch, sent: nat)
  {
    && Inv(LOG, AFTER, s) && s.next == sent
    && s.client.host == Watcher(w)
    && IsActive(s.client, 0) && s.client.scope == Some(SCOPE) && s.client.cursor == Some(AFTER)
    && s.client.connection.value.handshaken == handshaken
    && s.client.ready && !s.client.windowless && s.client.pending == []
  }

  /** From `s` the inputs are all possible, and they lead to `t`. */
  predicate Leads(s: System, inputs: seq<Input>, t: System)
  {
    Inv(LOG, AFTER, s) && Legal(LOG, AFTER, s, inputs) && RunWatch(LOG, AFTER, s, inputs) == t
  }

  lemma Prepend(s: System, input: Input, t: System, rest: seq<Input>, u: System)
    requires Inv(LOG, AFTER, s) && Enabled(LOG, s, input)
    requires input.OutputSettles? ==> HeadOk(s.client.host.watch)
    requires Apply1(LOG, s, input) == t && Leads(t, rest, u)
    ensures Leads(s, [input] + rest, u)
  {
    hide Inv, Enabled, Apply1, HeadOk;
    StepKeeps(LOG, AFTER, s, input);
    assert ([input] + rest)[1..] == rest;
  }

  lemma Begins()
    ensures var s := Begin(AFTER, "alice", "w", false);
      Inv(LOG, AFTER, s) && s.next == 0 && s.client.ticketEpoch == Some(2) && s.client.channels == []
      && s.client.ready && !s.client.windowless && s.client.pending == [] && s.client.scope == Some(SCOPE)
      && s.client.cursor == Some(AFTER) && s.client.host == Watcher(Variables(AFTER, [], false, []))
      && OwnsTicket(s.client, 2)
  {
    BeginKeeps(LOG, AFTER, "alice", "w", false);
  }

  lemma Granted(s: System) returns (t: System)
    requires s == Begin(AFTER, "alice", "w", false)
    ensures Inv(LOG, AFTER, s) && Enabled(LOG, s, INPUTS[0]) && Apply1(LOG, s, INPUTS[0]) == t
    ensures Open(t, false, Variables(AFTER, [], false, []), 0) && t.client.connection.value.replay == []
  {
    hide Realtime.Valid, Safe, Resumable, FeedOk, Begin, TicketRejected, TimerFired, SocketClosed, SocketError, UnexpectedResponse, HandleMessage;
    Begins();
    t := Apply1(LOG, s, INPUTS[0]);
    StepKeeps(LOG, AFTER, s, INPUTS[0]);
    assert FirstAbove(LOG, 5) == 0;
  }

  predicate Fresh(c: Client)
  {
    && Valid(c) && IsActive(c, 0) && c.scope == Some(SCOPE) && c.cursor == Some(AFTER)
    && !c.connection.value.handshaken && c.connection.value.replay == []
    && c.ready && !c.windowless && c.pending == []
    && c.host == Watcher(Variables(AFTER, [], false, []))
  }

  lemma HandshakeIsTaken(c: Client)
    requires Fresh(c)
    ensures var r := Handshake(c, 0, HELLO);
      r.host == Watcher(Variables(AFTER, [HELLO], false, [])) && IsActive(r, 0) && r.connection.value.handshaken
      && r.scope == c.scope && r.ready && !r.windowless && r.pending == []
  {
    hide Realtime.Valid, Core, ProvedBy;
    assert Events([]) == [];
  }

  lemma Greeted(s: System) returns (t: System)
    requires Open(s, false, Variables(AFTER, [], false, []), 0) && s.client.connection.value.replay == []
    ensures Enabled(LOG, s, INPUTS[1]) && Apply1(LOG, s, INPUTS[1]) == t
    ensures Open(t, true, Variables(AFTER, [HELLO], false, []), 0)
  {
    hide Realtime.Valid, Safe, Resumable, FeedOk, Handshake, Channels, LiveSocket, Settled, TicketRejected, TicketGranted,
         TimerFired, SocketClosed, SocketError, UnexpectedResponse, RejectInvalidEvent, FailIncompatible, Hold, DeliverLive;
    HandshakeIsTaken(s.client);
    t := Apply1(LOG, s, INPUTS[1]);
    StepKeeps(LOG, AFTER, s, INPUTS[1]);
  }

  lemma EventIsTaken(c: Client)
    requires Valid(c) && IsActive(c, 0) && c.scope == Some(SCOPE) && c.cursor == Some(AFTER)
    requires c.connection.value.handshaken && c.ready && !c.windowless && c.pending == [] && c.pendingBytes == 0
    requires c.host == Watcher(Variables(AFTER, [HELLO], false, []))
    ensures var r := DeliverLive(c, 0, NEWS);
      r.host == Watcher(Variables(AFTER, [HELLO, NEWS], false, [])) && r.scope == c.scope && r.cursor == c.cursor
  {
    hide Realtime.Valid, Core, ProvedBy;
  }

  lemma Informed(s: System) returns (t: System)
    requires Open(s, true, Variables(AFTER, [HELLO], false, []), 0)
    ensures Enabled(LOG, s, INPUTS[2]) && Apply1(LOG, s, INPUTS[2]) == t
    ensures Closing(t, Variables(AFTER, [HELLO, NEWS], false, []))
  {
    hide Safe, Resumable, FeedOk, Handshake, Channels, LiveSocket, Settled, TicketRejected, TicketGranted,
         TimerFired, SocketClosed, SocketError, UnexpectedResponse, RejectInvalidEvent, FailIncompatible, Hold, DeliverLive;
    NothingPending(s.client);
    EventIsTaken(s.client);
    t := Apply1(LOG, s, INPUTS[2]);
    StepKeeps(LOG, AFTER, s, INPUTS[2]);
  }

  lemma NothingPending(c: Client)
    requires Valid(c) && c.pending == []
    ensures c.pendingBytes == 0
  {
    hide Generation, Latch, Channels, LiveSocket, Settled;
  }

  /** The tail has work left; the transport no longer matters. */
  predicate Closing(s: System, w: Watch)
  {
    Inv(LOG, AFTER, s) && s.client.host == Watcher(w) && s.client.scope == Some(SCOPE)
    && s.client.cursor.Some? && s.client.cursor.value.epoch == "e"
  }

  lemma HeadStarts(s: System, w: Watch) returns (t: System)
    requires Closing(s, w) && w.queue != [] && !w.writing && !w.broken && !w.outputCancelled
    ensures Enabled(LOG, s, OutputStarts) && Apply1(LOG, s, OutputStarts) == t
    ensures Closing(t, w.(writing := true))
  {
    hide Realtime.Valid, Safe, Resumable, FeedOk;
    t := Apply1(LOG, s, OutputStarts);
    StepKeeps(LOG, AFTER, s, OutputStarts);
  }

  lemma HeadWritten(s: System, w: Watch) returns (t: System)
    requires Closing(s, w) && w.queue != [] && w.writing && !w.outputCancelled && w.scope == SCOPE
    requires !w.queue[0].kind.ResyncRequired? && w.queue[0].position.epoch == "e" == w.cursor.epoch
    ensures Enabled(LOG, s, OutputSettles(true)) && HeadOk(w) && Apply1(LOG, s, OutputSettles(true)) == t
    ensures Closing(t, w.(queue := w.queue[1..], writing := false, written := w.written + [w.queue[0]],
                          cursor := LaterCursor(w.cursor, w.queue[0].position)))
  {
    hide Realtime.Valid, Safe, Resumable, FeedOk, Window;
    t := Apply1(LOG, s, OutputSettles(true));
    StepKeeps(LOG, AFTER, s, OutputSettles(true));
  }

  lemma Ends(s: System, w: Watch) returns (t: System, u: System)
    requires Closing(s, w) && w.queue == [] && !w.finished && !w.broken && !w.outputCancelled && w.failure == None
    ensures Enabled(LOG, s, Interrupted) && Apply1(LOG, s, Interrupted) == t && Inv(LOG, AFTER, t)
    ensures Enabled(LOG, t, TailSettles) && Apply1(LOG, t, TailSettles) == u && Inv(LOG, AFTER, u)
    ensures u.client.host.Watcher? && u.client.host.watch.result == Some(Resolved(w.cursor))
  {
    hide Realtime.Valid, Safe, Resumable, FeedOk;
    t := Apply1(LOG, s, Interrupted);
    StepKeeps(LOG, AFTER, s, Interrupted);
    u := Apply1(LOG, t, TailSettles);
    StepKeeps(LOG, AFTER, t, TailSettles);
  }

  lemma Finished(u: System)
    requires Inv(LOG, AFTER, u)
    ensures Leads(u, [], u)
  {
  }

  /** Two events are written, one after the other, and the loop ends. */
  lemma Drained(s: System) returns (u: System)
    requires Closing(s, Variables(AFTER, [HELLO, NEWS], false, []))
    ensures Leads(s, INPUTS[3..], u)
    ensures u.client.host.Watcher? && u.client.host.watch.result == Some(Resolved(NEWS.position))
  {
    hide Inv, Apply1, Enabled, HeadOk, Leads;
    var w := Variables(AFTER, [HELLO, NEWS], false, []);
    var s4 := HeadStarts(s, w);
    var s5 := HeadWritten(s4, w.(writing := true));
    var v := Variables(AFTER, [NEWS], false, [HELLO]);
    assert w.queue[1..] == v.queue;
    var s6 := HeadStarts(s5, v);
    var s7 := HeadWritten(s6, v.(writing := true));
    var s8;
    s8, u := Ends(s7, Variables(NEWS.position, [], false, [HELLO, NEWS]));
    Finished(u);
    Prepend(s8, TailSettles, u, [], u);
    assert [TailSettles] + [] == [TailSettles];
    Prepend(s7, Interrupted, s8, [TailSettles], u);
    var end := [Interrupted] + [TailSettles];
    Prepend(s6, OutputSettles(true), s7, end, u);
    Prepend(s5, OutputStarts, s6, [OutputSettles(true)] + end, u);
    var second := [OutputStarts] + ([OutputSettles(true)] + end);
    Prepend(s4, OutputSettles(true), s5, second, u);
    Prepend(s, OutputStarts, s4, [OutputSettles(true)] + second, u);
    assert [OutputStarts] + ([OutputSettles(true)] + second) == INPUTS[3..];
  }

  lemma Supplies() returns (u: System)
    ensures Leads(Begin(AFTER, "alice", "w", false), INPUTS, u)
    ensures u.client.host.Watcher? && u.client.host.watch.result == Some(Resolved(NEWS.position))
  {
    hide Inv, Apply1, Enabled, HeadOk, Leads, Begin, IsActive;
    var s0 := Begin(AFTER, "alice", "w", false);
    var s1 := Granted(s0);
    var s2 := Greeted(s1);
    var s3 := Informed(s2);
    u := Drained(s3);
    assert [INPUTS[2]] + INPUTS[3..] == INPUTS[2..];
    assert [INPUTS[1]] + INPUTS[2..] == INPUTS[1..];
    assert [INPUTS[0]] + INPUTS[1..] == INPUTS;
    Prepend(s2, INPUTS[2], s3, INPUTS[3..], u);
    Prepend(s1, INPUTS[1], s2, INPUTS[2..], u);
    Prepend(s0, INPUTS[0], s1, INPUTS[1..], u);
  }

  /** NoGap speaks of this run, and the loop returns the position of the event it wrote. */
  lemma EventIsReturned()
    ensures IsLog(LOG, AFTER.epoch) && LegalRun(LOG, AFTER, "alice", "w", false, INPUTS)
    ensures Outcome(LOG, AFTER, "alice", "w", false, INPUTS).host.watch.result == Some(Resolved(NEWS.position))
  {
    hide Inv, Legal, RunWatch, Begin;
    var _ := Supplies();
  }
}
