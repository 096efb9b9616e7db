/**
  What the realtime client promises over whole runs, for every sequence of calls, ticket
  settlements, socket callbacks and timers and for every script of consumer answers.
 */
module RealtimeTheorems {
  import opened Wrappers
  import opened SyncPositions
  import opened Consumer
  import opened Realtime

  // ---------------------------------------------------------------------------------------------
  // Never wedged, never doubled
  // ---------------------------------------------------------------------------------------------

  /**
    In every reachable state a client that is neither stopped nor incompatible has exactly one of
    {outstanding ticket, reconnect timer, connection}; otherwise it has none. What is outstanding
    belongs to the current generation, and a live connection has the client's scope.
   */
  lemma NeverWedgedNeverDoubled(host: Host, steps: seq<Step>)
    ensures
      var c := Run(Initial(host), steps);
      && (!c.stopped && !c.incompatible ==> Activities(c) == 1)
      && (c.stopped || c.incompatible ==> c.ticketEpoch.None? && c.timer.None? && c.connection.None?)
      && (c.ticketEpoch.Some? ==> c.ticketEpoch.value == c.epoch)
      && (c.timer.Some? ==> c.timer.value == c.epoch)
      && (c.connection.Some? ==>
            c.connection.value.epoch == c.epoch && c.scope == Some(c.connection.value.scope))
  {
    assert Valid(Run(Initial(host), steps));
  }

  // ---------------------------------------------------------------------------------------------
  // Recovery latch
  // ---------------------------------------------------------------------------------------------

  /** Whether the consumer, offered the latched control, resets the session from its callback. */
  predicate ConsumerResets(c: Client)
    requires c.recovery.Some?
  {
    c.host.OnEvent(c.recovery.value.event).1.resets
  }

  /** The steps that end a latched recovery, judged before the step. */
  predicate Releases(c: Client, step: Step)
    requires c.recovery.Some?
  {
    match step
    case PrepareStep(after, u, w) => !PreservesRecovery(c, after, u, w)
    case StartStep(after, u, w) =>
      !PreservesRecovery(c, after, u, w)
      || ((c.scope.Some? || c.lastScopeEpoch < MAX_SAFE_INTEGER) && ConsumerResets(c))
    case ActivateStep(scope) => c.scope == Some(scope) && ConsumerResets(c)
    case ObserveOnlyStep(u, w) =>
      c.cursor.Some? && (c.recovery.value.userId != u || c.recovery.value.workspaceId != w)
    case ResetStep => true
    case _ => false
  }

  lemma PrepareKeepsLatch(c: Client, after: Position, u: EntityId, w: EntityId)
    requires Valid(c) && c.recovery.Some?
    ensures Prepare(c, after, u, w).0.recovery ==
            if PreservesRecovery(c, after, u, w) then c.recovery else None
  {
  }

  lemma ActivateKeepsLatch(c: Client, scope: Scope)
    requires Valid(c) && c.recovery.Some?
    ensures Activate(c, scope).0.recovery ==
            if c.scope == Some(scope) && ConsumerResets(c) then None else c.recovery
  {
  }

  lemma StartKeepsLatch(c: Client, after: Position, u: EntityId, w: EntityId)
    requires Valid(c) && c.recovery.Some?
    ensures Start(c, after, u, w).0.recovery ==
            if Releases(c, StartStep(after, u, w)) then None else c.recovery
  {
    PrepareKeepsLatch(c, after, u, w);
    if PreservesRecovery(c, after, u, w) {
      var p := Prepare(c, after, u, w);
      if c.scope.Some? {
        ActivateKeepsLatch(c.(ready := true, windowless := false), c.scope.value);
      } else if p.1.Some? {
        ActivateKeepsLatch(p.0, p.1.value);
      }
    } else {
      StartAfresh(c, after, u, w);
    }
  }

  /** Without a latch, starting leaves none behind. */
  lemma ActivateUnlatched(c: Client, scope: Scope)
    requires Valid(c) && c.recovery.None?
    ensures Activate(c, scope).0.recovery.None?
  {
  }

  lemma StartAfresh(c: Client, after: Position, u: EntityId, w: EntityId)
    requires Valid(c) && c.recovery.Some? && !PreservesRecovery(c, after, u, w)
    ensures Start(c, after, u, w).0.recovery.None?
  {
    var c1 := if c.recovery.value.userId == u && c.recovery.value.workspaceId == w then c.(recovery := None) else c;
    assert c1.stopped;
    var p := Prepare(c1, after, u, w);
    assert p.0.recovery.None?;
    if p.1.Some? {
      ActivateUnlatched(p.0, p.1.value);
    }
  }

  /** A latched client reacts to no ticket, timer or socket, and no acknowledgement releases it. */
  lemma OthersKeepLatch(c: Client, step: Step)
    requires Valid(c) && c.recovery.Some?
    requires !step.PrepareStep? && !step.StartStep? && !step.ActivateStep? && !step.ObserveOnlyStep?
    ensures Apply(c, step).recovery == if step.ResetStep? then None else c.recovery
  {
    assert c.stopped && c.ticketEpoch.None? && c.timer.None? && c.connection.None?;
  }

  /**
    The latch ends at a step if and only if that step is one of `Releases`; until then the client
    is stopped, so it has neither ticket nor socket nor timer.
   */
  lemma LatchEndsIff(c: Client, step: Step)
    requires Valid(c) && c.recovery.Some?
    ensures !Releases(c, step) ==> Apply(c, step).recovery == c.recovery
    ensures Releases(c, step) ==> Apply(c, step).recovery.None?
    ensures !Releases(c, step) ==> Apply(c, step).stopped && Activities(Apply(c, step)) == 0
  {
    match step
    case PrepareStep(after, u, w) => PrepareKeepsLatch(c, after, u, w);
    case ActivateStep(scope) => ActivateKeepsLatch(c, scope);
    case StartStep(after, u, w) => StartKeepsLatch(c, after, u, w);
    case ObserveOnlyStep(_, _) =>
    case _ => OthersKeepLatch(c, step);
  }

  /** The latch over a run: nothing is opened before a releasing step. */
  lemma {:induction false} LatchHoldsOverRuns(c: Client, steps: seq<Step>)
    requires Valid(c) && c.recovery.Some?
    requires forall k :: 0 <= k < |steps| ==>
               var before := Run(c, steps[..k]);
               before.recovery.Some? ==> !Releases(before, steps[k])
    ensures Run(c, steps).recovery == c.recovery
    ensures Run(c, steps).stopped && Activities(Run(c, steps)) == 0
    decreases |steps|
  {
    if steps != [] {
      var front := steps[..|steps| - 1];
      forall k | 0 <= k < |front|
        ensures var before := Run(c, front[..k]); before.recovery.Some? ==> !Releases(before, front[k])
      {
        assert front[..k] == steps[..k];
      }
      LatchHoldsOverRuns(c, front);
      LatchEndsIff(Run(c, front), steps[|steps| - 1]);
    }
  }

  /** A release by progress really is progress: same user, and a later position or another epoch. */
  lemma ReleaseByPrepareIsProgress(c: Client, after: Position, u: EntityId, w: EntityId)
    requires Valid(c) && c.recovery.Some?
    requires SameUser(Scope(u, w, 0), c.recovery.value.userId, c.recovery.value.workspaceId)
    ensures Releases(c, PrepareStep(after, u, w)) <==>
              after.epoch != c.recovery.value.cursor.epoch
              || after.sequence > c.recovery.value.cursor.sequence
  {
  }

  /**
    observeOnly with a scope other than the latched one while the latched scope is attached drops
    the latch and requests a ticket for the very scope and cursor that were latched.
   */
  lemma ObserveOnlyReopensLatchedScope(c: Client, u: EntityId, w: EntityId)
    requires Valid(c) && c.recovery.Some? && c.scope.Some?
    requires Releases(c, ObserveOnlyStep(u, w))
    requires !c.host.OnState(Connecting).1.resets
    ensures
      var r := Apply(c, ObserveOnlyStep(u, w));
      r.recovery.None? && r.scope == c.scope && r.cursor == c.cursor && r.ticketEpoch.Some? && Running(r)
  {
  }

  lemma RunThen(c: Client, steps: seq<Step>, last: Step)
    requires Valid(c)
    ensures Run(c, steps + [last]) == Apply(Run(c, steps), last)
  {
    assert (steps + [last])[..|steps|] == steps;
  }

  const ALICE := Scope("alice", "w", 1)
  const OPENING := [PrepareStep(Position("e", 5), "alice", "w"), ActivateStep(ALICE)]
  const OVERFLOW := MessageStep(0, Product(Event(Change, Position("e", 6), "w", 10), REPLAY_MAX_BYTES + 1))

  lemma AliceAsksForTicket()
    ensures var c := Run(Initial(Renderer([])), OPENING);
            c.ticketEpoch == Some(2) && c.scope == Some(ALICE) && c.host == Renderer([]) && c.ready && !c.windowless
            && c.channels == [] && c.cursor == Some(Position("e", 5))
  {
    var c0 := Initial(Renderer([]));
    assert Run(c0, []) == c0;
    RunThen(c0, [], OPENING[0]);
    var c1 := Run(c0, [OPENING[0]]);
    assert c1.scope == Some(ALICE) && c1.epoch == 1 && c1.recovery.None? && c1.host == c0.host && c1.stopped;
    RunThen(c0, [OPENING[0]], OPENING[1]);
    assert [OPENING[0]] + [OPENING[1]] == OPENING;
  }

  lemma OversizedReplayLatches(c: Client)
    requires Valid(c) && IsActive(c, 0) && !c.connection.value.handshaken && c.host == Renderer([]) && c.ready && !c.windowless
    requires c.scope == Some(ALICE) && c.cursor.value.epoch == "e"
    ensures var r := Apply(c, OVERFLOW); r.recovery.Some? && r.scope == Some(ALICE) && r.host == Renderer([])
  {
  }

  /** A reachable instance: an oversized replay latches alice, a window closing for bob reopens her. */
  lemma LatchCounterexample() returns (steps: seq<Step>, step: Step)
    ensures
      var before := Run(Initial(Renderer([])), steps);
      && before.recovery.Some?
      && Apply(before, step).recovery.None?
      && Apply(before, step).scope == before.scope
      && Apply(before, step).cursor == before.cursor
      && Apply(before, step).ticketEpoch.Some?
  {
    var c0 := Initial(Renderer([]));
    AliceAsksForTicket();
    var untilOpen := OPENING + [TicketGrantedStep(2, true)];
    RunThen(c0, OPENING, TicketGrantedStep(2, true));
    Opens(Run(c0, OPENING));
    steps := untilOpen + [OVERFLOW];
    RunThen(c0, untilOpen, OVERFLOW);
    OversizedReplayLatches(Run(c0, untilOpen));
    step := ObserveOnlyStep("bob", "w");
    ObserveOnlyReopensLatchedScope(Run(c0, steps), "bob", "w");
  }

  lemma Opens(c: Client)
    requires Valid(c) && c.ticketEpoch == Some(2) && c.channels == []
    ensures var r := Apply(c, TicketGrantedStep(2, true));
            IsActive(r, 0) && !r.connection.value.handshaken && r.host == c.host && r.ready == c.ready
            && r.windowless == c.windowless && r.scope == c.scope && r.cursor == c.cursor
  {
  }

  // ---------------------------------------------------------------------------------------------
  // The cursor
  // ---------------------------------------------------------------------------------------------

  /** The acknowledgement that a step makes the client accept, if any. */
  function Accepted(c: Client, step: Step): Option<Position>
  {
    match step
    case AcknowledgeStep(p) => if c.cursor.Some? && c.cursor.value.epoch == p.epoch then Some(p) else None
    case AcknowledgeScopedStep(scope, p) =>
      if c.scope == Some(scope) && c.cursor.Some? && c.cursor.value.epoch == p.epoch then Some(p) else None
    case _ => None
  }

  predicate SetsPosition(step: Step)
  {
    step.PrepareStep? || step.StartStep?
  }

  function Acknowledged(c: Client, steps: seq<Step>): seq<Position>
    requires Valid(c)
    decreases |steps|
  {
    if steps == [] then []
    else
      var front, last := steps[..|steps| - 1], steps[|steps| - 1];
      Acknowledged(c, front)
      + (match Accepted(Run(c, front), last) case None => [] case Some(p) => [p])
  }

  lemma OthersKeepCursor(c: Client, step: Step)
    requires Valid(c) && !SetsPosition(step) && !step.AcknowledgeStep? && !step.AcknowledgeScopedStep?
    ensures Apply(c, step).cursor == c.cursor
  {
  }

  lemma CursorMovesOnlyByAcknowledgement(c: Client, step: Step)
    requires Valid(c) && c.cursor.Some? && !SetsPosition(step)
    ensures Apply(c, step).cursor ==
            match Accepted(c, step)
            case None => c.cursor
            case Some(p) => Some(LaterCursor(c.cursor.value, p))
  {
    if !step.AcknowledgeStep? && !step.AcknowledgeScopedStep? {
      OthersKeepCursor(c, step);
    }
  }

  /**
    Delivery is not progress: between explicit start positions the cursor is exactly the maximum of
    the start position and all accepted acknowledgements.
   */
  lemma {:induction false} CursorIsMaximum(c: Client, steps: seq<Step>)
    requires Valid(c) && c.cursor.Some?
    requires forall s :: s in steps ==> !SetsPosition(s)
    ensures
      var r := Run(c, steps).cursor;
      && r.Some? && r.value.epoch == c.cursor.value.epoch
      && (r.value == c.cursor.value || r.value in Acknowledged(c, steps))
      && c.cursor.value.sequence <= r.value.sequence
      && forall p :: p in Acknowledged(c, steps) ==> p.sequence <= r.value.sequence
    decreases |steps|
  {
    if steps != [] {
      var front, last := steps[..|steps| - 1], steps[|steps| - 1];
      CursorIsMaximum(c, front);
      assert last in steps;
      CursorMovesOnlyByAcknowledgement(Run(c, front), last);
    }
  }

  /** The delivery window of every reachable state: an exact byte count, both limits, all above the cursor. */
  lemma DeliveryWindow(host: Host, steps: seq<Step>)
    ensures
      var c := Run(Initial(host), steps);
      && c.pendingBytes == SumBytes(c.pending)
      && |c.pending| <= REPLAY_MAX_EVENTS && c.pendingBytes <= REPLAY_MAX_BYTES
      && forall d :: d in c.pending ==>
           c.cursor.Some? && d.position.epoch == c.cursor.value.epoch && Later(d.position, c.cursor.value)
  {
    assert Valid(Run(Initial(host), steps));
  }

  // ---------------------------------------------------------------------------------------------
  // Handshake fence and order
  // ---------------------------------------------------------------------------------------------

  /**
    On every socket the non-resync frames delivered are a prefix, in arrival order, of the frames
    accepted from it. Nothing was delivered unless a `system.connected` for the scope's user had
    arrived, and every frame has the scope's workspace and the epoch of the resume position.
   */
  lemma HandshakeFence(host: Host, steps: seq<Step>, socket: nat)
    requires socket < |Run(Initial(host), steps).channels|
    ensures
      var ch := Run(Initial(host), steps).channels[socket];
      && ch.delivered <= ch.arrived
      && (ch.delivered != [] ==>
            exists i :: 0 <= i < |ch.arrived| && ch.arrived[i].kind.Connected? && ch.arrived[i].kind.userId == ch.scope.userId)
      && forall e :: e in ch.delivered ==>
           e.workspaceId == ch.scope.workspaceId && e.position.epoch == ch.openedAt.epoch
  {
    assert Valid(Run(Initial(host), steps));
    var ch := Run(Initial(host), steps).channels[socket];
    assert ChannelOk(ch);
    forall e | e in ch.delivered ensures e in ch.arrived {
      var i :| 0 <= i < |ch.delivered| && ch.delivered[i] == e;
      assert ch.arrived[i] == e;
    }
  }

  /**
    The history on which HandshakeFence relies is never rewritten: a longer run continues the
    channels of a shorter one.
   */
  lemma {:induction false} HistoryOnlyGrows(c: Client, steps: seq<Step>, k: nat)
    requires Valid(c) && k <= |steps|
    ensures Extends(Run(c, steps[..k]).channels, Run(c, steps).channels)
    decreases |steps|
  {
    if k == |steps| {
      assert steps[..k] == steps;
    } else {
      var front := steps[..|steps| - 1];
      assert front[..k] == steps[..k];
      HistoryOnlyGrows(c, front, k);
      ExtendsTransitive(Run(c, steps[..k]).channels, Run(c, front).channels, Run(c, steps).channels);
    }
  }
}
