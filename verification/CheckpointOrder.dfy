/**
  The checkpoint of the Hermes adapter never falls back (integrations/hermes-hype-comms/adapter.py:1569-1582,
  3393-3482). Watch and recovery both move it, and an event that watch took up before recovery moved it is
  still written afterwards; that this is no step back is a matter of which wakes can be pending above it.
 */
module CheckpointOrder {
  import opened Wrappers
  import opened Decimals
  import opened CheckpointFile
  import opened Checkpoint
  import opened AmbientDelivery

  // ---------------------------------------------------------------------------------------------
  // Positions around the checkpoint
  // ---------------------------------------------------------------------------------------------

  /** Positions of different epochs have no order. */
  predicate AtMost(p: Cursor, q: Cursor)
  {
    p.epoch == q.epoch ==> Num(p.sequence) <= Num(q.sequence)
  }

  predicate AtMostAll(wakes: map<string, Wake>, q: Cursor)
  {
    forall id :: id in wakes ==> AtMost(wakes[id].position, q)
  }

  /** No event above the checkpoint `c` comes before `p`. */
  ghost predicate Near(log: set<Entry>, c: Cursor, p: Cursor)
  {
    p.epoch == c.epoch ==>
      forall f :: f in log && f.position.epoch == c.epoch && !Covers(c, f) ==> Num(p.sequence) <= Num(f.position.sequence)
  }

  ghost predicate NearAll(log: set<Entry>, c: Cursor, wakes: map<string, Wake>)
  {
    forall id :: id in wakes ==> Near(log, c, wakes[id].position)
  }

  lemma NearUp(log: set<Entry>, m: Cursor, c: Cursor)
    requires m.epoch == c.epoch && AtMost(m, c)
    ensures forall p :: Near(log, m, p) ==> Near(log, c, p)
    ensures forall wakes :: NearAll(log, m, wakes) ==> NearAll(log, c, wakes)
    ensures forall f :: Covers(m, f) ==> Covers(c, f)
  {
  }

  // ---------------------------------------------------------------------------------------------
  // Invariant
  // ---------------------------------------------------------------------------------------------

  ghost predicate FileOrder(log: set<Entry>, a: Adapter)
  {
    && (a.cursor.Some? ==> NearAll(log, a.cursor.value, a.wakes))
    && (a.disk.Some? ==> NearAll(log, a.disk.value.cursor, a.disk.value.wakes))
    && (a.cursor.Some? && a.disk.Some? ==> AtMost(a.cursor.value, a.disk.value.cursor))
  }

  /** The position that the recovery task would checkpoint. */
  function Recovering(recovery: Recovery): Option<Cursor>
  {
    if recovery.Refetching? || recovery.Admitting? then Some(recovery.wake.position) else None
  }

  predicate InFlight(watch: Watch)
  {
    watch.Watching? && !watch.phase.Waiting?
  }

  /** Watch is above what it has delivered, and what it works on is at or above everything else. */
  ghost predicate WatchOrder(log: set<Entry>, s: State)
    requires s.a.cursor.Some?
  {
    var c := s.a.cursor.value;
    s.watch.Watching? ==>
      && s.watch.after.epoch == c.epoch && AtMost(s.watch.after, c)
      && (forall e :: e in s.watch.delivered ==> Covers(c, e) || (InFlight(s.watch) && e == s.watch.phase.entry))
      && (InFlight(s.watch) ==>
            var q := s.watch.phase.entry.position;
            && q.epoch == c.epoch && AtMost(c, q) && Near(log, c, q)
            && AtMostAll(s.a.wakes, q) && AtMostAll(s.batch, q)
            && (Recovering(s.recovery).Some? ==> AtMost(Recovering(s.recovery).value, q)))
  }

  ghost predicate Order(log: set<Entry>, s: State)
  {
    && FileOrder(log, s.a)
    && (if s.a.cursor.None? then
          s.watch.NoWatch? && s.recovery.NoRecovery? && s.batch == map[] && s.a.wakes == map[]
        else
          && NearAll(log, s.a.cursor.value, s.batch)
          && (Recovering(s.recovery).Some? ==> Near(log, s.a.cursor.value, Recovering(s.recovery).value))
          && WatchOrder(log, s))
  }

  // ---------------------------------------------------------------------------------------------
  // What a write can do
  // ---------------------------------------------------------------------------------------------

  /** Nothing, all of it, or a file that is ahead of a memory that was rolled back. */
  predicate Wrote(a: Adapter, b: Adapter, c: Cursor, wakes: map<string, Wake>)
  {
    || (b.cursor == a.cursor && b.wakes == a.wakes && b.disk == a.disk)
    || (&& b.disk.Some? && b.disk.value.cursor == c && b.disk.value.wakes == wakes
        && ((b.cursor == Some(c) && b.wakes == wakes) || (b.cursor == a.cursor && b.wakes == a.wakes)))
  }

  lemma CommitWrote(a: Adapter, changed: Adapter, c: Cursor, w: Write)
    requires changed.disk == a.disk
    ensures Wrote(a, Commit(a, changed, c, w).0, c, changed.wakes)
  {
    hide ValidCursor;
  }

  lemma WroteInOrder(log: set<Entry>, a: Adapter, b: Adapter, c: Cursor, wakes: map<string, Wake>)
    requires FileOrder(log, a) && Wrote(a, b, c, wakes) && NearAll(log, c, wakes)
    requires a.cursor.Some? && a.cursor.value.epoch == c.epoch && AtMost(a.cursor.value, c)
    ensures FileOrder(log, b) && b.cursor.Some? && b.cursor.value.epoch == c.epoch
    ensures AtMost(a.cursor.value, b.cursor.value) && AtMost(b.cursor.value, c)
  {
    hide Near;
  }

  /** A write at or above the checkpoint and at or below what watch works on. */
  lemma WroteKeeps(log: set<Entry>, s: State, t: State, c: Cursor, wakes: map<string, Wake>)
    requires Order(log, s) && s.a.cursor.Some? && Wrote(s.a, t.a, c, wakes) && NearAll(log, c, wakes)
    requires s.a.cursor.value.epoch == c.epoch && AtMost(s.a.cursor.value, c)
    requires t.batch == s.batch && (Recovering(t.recovery) == Recovering(s.recovery) || Recovering(t.recovery).None?)
    requires t.watch.Watching? ==>
               s.watch.Watching? && t.watch.after == s.watch.after && t.watch.delivered == s.watch.delivered
    requires InFlight(t.watch) ==>
               InFlight(s.watch) && t.watch.phase.entry == s.watch.phase.entry
               && AtMost(c, s.watch.phase.entry.position) && AtMostAll(wakes, s.watch.phase.entry.position)
    requires t.watch.Watching? && t.watch.phase.Waiting? && InFlight(s.watch) ==>
               t.a.cursor.Some? && Covers(t.a.cursor.value, s.watch.phase.entry)
    ensures Order(log, t) && Rises(s, t)
  {
    hide Near, Covers;
    WroteInOrder(log, s.a, t.a, c, wakes);
    NearUp(log, s.a.cursor.value, t.a.cursor.value);
  }

  /** The checkpoint in memory stays in its epoch and does not go down; a file of that epoch stays in it. */
  predicate Rises(s: State, t: State)
  {
    s.a.cursor.Some? ==>
      && t.a.cursor.Some? && t.a.cursor.value.epoch == s.a.cursor.value.epoch
      && AtMost(s.a.cursor.value, t.a.cursor.value)
      && (s.a.disk.Some? && s.a.disk.value.cursor.epoch == s.a.cursor.value.epoch ==>
            t.a.disk.Some? && t.a.disk.value.cursor.epoch == s.a.cursor.value.epoch)
  }

  lemma AdvanceWrote(a: Adapter, p: Cursor, w: Write)
    ensures Wrote(a, Advance(a, p, w).0, p, a.wakes) && (Advance(a, p, w).1 ==> Advance(a, p, w).0.cursor == Some(p))
  {
    hide ValidCursor;
  }

  lemma RetainWrote(a: Adapter, id: string, event: Wake, w: Write)
    requires a.cursor.Some?
    ensures Wrote(a, Retain(a, id, event, w).0, a.cursor.value, a.wakes[id := Target(a.wakes, id, event)])
    ensures Target(a.wakes, id, event).position == event.position
  {
    hide ValidWake, Commit, HighestOrder;
    CommitWrote(a, a.(wakes := a.wakes[id := Target(a.wakes, id, event)]), a.cursor.value, w);
  }

  lemma CompleteWrote(a: Adapter, id: string, w: Write)
    ensures a.cursor.Some? ==> Wrote(a, Complete(a, id, w).0, a.cursor.value, Without(a.wakes, id))
    ensures a.cursor.None? ==>
              var b := Complete(a, id, w).0; b.cursor == a.cursor && b.wakes == a.wakes && b.disk == a.disk
  {
    hide Commit;
    if a.cursor.Some? { CommitWrote(a, a.(wakes := Without(a.wakes, id)), a.cursor.value, w); }
  }

  lemma CompleteReadWrote(a: Adapter, conversationId: string, t: ReadTarget, w: Write)
    ensures a.cursor.Some? ==> Wrote(a, CompleteRead(a, conversationId, t, w).0, a.cursor.value, a.wakes)
    ensures a.cursor.None? ==> CompleteRead(a, conversationId, t, w).0 == a
  {
    hide Commit;
    if a.cursor.Some? { CommitWrote(a, Removed(a, conversationId), a.cursor.value, w); }
  }

  /** Where a handoff of `p` puts the checkpoint. */
  function HandoffMark(a: Adapter, p: Cursor): Cursor
    requires a.cursor.Some?
  {
    match CheckpointAfterHandoff(a, p)
    case None => a.cursor.value
    case Some(c) => c
  }

  /** A handoff never puts the checkpoint back, nor beyond what was handed over. */
  lemma HandoffRises(a: Adapter, p: Cursor)
    requires Kept(a) && a.cursor.Some?
    ensures var c := HandoffMark(a, p);
      c.epoch == a.cursor.value.epoch && AtMost(a.cursor.value, c) && (c == a.cursor.value || c == p)
  {
    hide ValidReads, ValidWakes, WellFormed, IsEntityId, CompareDecimalStrings;
    if ValidCursor(p) { CompareIsNumeric(p.sequence, a.cursor.value.sequence); }
  }

  lemma QueueWrote(a: Adapter, p: Cursor, read: Read, w: Write)
    requires a.cursor.Some?
    ensures Wrote(a, QueueAfterHandoff(a, p, read, w).0, HandoffMark(a, p), a.wakes)
  {
    hide Commit, ValidCursor, ValidRead, Supersedes, CheckpointAfterHandoff;
    if read.Some? {
      CommitWrote(a, Queued(a, read.value.0, read.value.1), HandoffMark(a, p), w);
    }
  }

  // ---------------------------------------------------------------------------------------------
  // Steps of watch
  // ---------------------------------------------------------------------------------------------

  lemma AcceptInOrder(log: set<Entry>, s: State, e: Entry, w: Write)
    requires Order(log, s) && InFlight(s.watch) && s.watch.phase.entry == e
    ensures Order(log, Accept(s, e, w)) && Rises(s, Accept(s, e, w))
  {
    hide Near, Advance, FileOrder;
    AdvanceWrote(s.a, e.position, w);
    NearUp(log, s.a.cursor.value, e.position);
    WakesAreNear(log, s);
    WroteKeeps(log, s, Accept(s, e, w), e.position, s.a.wakes);
  }

  lemma WakesAreNear(log: set<Entry>, s: State)
    requires Order(log, s) && s.a.cursor.Some?
    ensures NearAll(log, s.a.cursor.value, s.a.wakes)
  {
  }

  lemma RetainedInOrder(log: set<Entry>, s: State, id: string, event: Wake, w: Write)
    requires Order(log, s) && s.a.cursor.Some? && Near(log, s.a.cursor.value, event.position)
    requires InFlight(s.watch) ==> AtMost(event.position, s.watch.phase.entry.position)
    ensures var t := Retained(s, id, event, w).0;
      t == s.(a := t.a, h := t.h) && Order(log, t) && Rises(s, t) && t.a.cursor == s.a.cursor
  {
    hide Near, AtMost, Retain, Target, Track, FileOrder, Covers;
    RetainWrote(s.a, id, event, w);
    WakesAreNear(log, s);
    var c, kept := s.a.cursor.value, s.a.wakes[id := Target(s.a.wakes, id, event)];
    assert AtMost(c, c) by { Reflexive(c); }
    assert InFlight(s.watch) ==> AtMost(c, s.watch.phase.entry.position);
    WroteKeeps(log, s, Retained(s, id, event, w).0, c, kept);
  }

  lemma Reflexive(c: Cursor)
    ensures AtMost(c, c)
  {
  }

  lemma WithoutWatch(log: set<Entry>, s: State)
    requires Order(log, s)
    ensures Order(log, s.(watch := NoWatch))
  {
    hide FileOrder, NearAll, Near;
  }

  lemma HandoffInOrder(log: set<Entry>, s: State, e: Entry, read: Read, w: Write)
    requires Order(log, s) && Kept(s.a) && InFlight(s.watch) && s.watch.phase.entry == e
    ensures Order(log, AfterHandoff(s, e, read, w)) && Rises(s, AfterHandoff(s, e, read, w))
  {
    hide Kept, Near, QueueAfterHandoff, CheckpointAfterHandoff, FileOrder, HandoffMark;
    HandoffRises(s.a, e.position);
    QueueWrote(s.a, e.position, read, w);
    WakesAreNear(log, s);
    var c := HandoffMark(s.a, e.position);
    NearUp(log, s.a.cursor.value, c);
    WroteKeeps(log, s, AfterHandoff(s, e, read, w), c, s.a.wakes);
  }

  /** Without a gap in the watch output, the next event is the first one above the checkpoint. */
  lemma ReceivedInOrder(log: set<Entry>, s: State, e: Entry)
    requires LogOk(log) && Inv(log, s) && Order(log, s) && Enabled(log, s, Receive(e))
    ensures Order(log, Received(s, e)) && Rises(s, Received(s, e))
  {
    hide LogOk, Inv, Kept, FileOrder, CompareDecimalStrings;
    assert ValidCursor(e.position) by { LogIsValid(log, e); }
    assert Ledger(s.a, s.h) by { LedgerOf(log, s); }
    if s.a.cursor.value.epoch == e.position.epoch {
      Numeric(s, e);
      WakesAreNear(log, s);
      if !Covers(s.a.cursor.value, e) { NextIsNear(log, s, e); }
    }
  }

  lemma LogIsValid(log: set<Entry>, e: Entry)
    requires LogOk(log) && e in log
    ensures ValidCursor(e.position)
  {
  }

  lemma LedgerOf(log: set<Entry>, s: State)
    requires Inv(log, s)
    ensures Ledger(s.a, s.h) && Kept(s.a)
  {
  }

  lemma NextIsNear(log: set<Entry>, s: State, e: Entry)
    requires Order(log, s) && Enabled(log, s, Receive(e)) && s.a.cursor.value.epoch == e.position.epoch
    ensures Near(log, s.a.cursor.value, e.position)
  {
    hide FileOrder, NearAll;
    var c := s.a.cursor.value;
    forall f | f in log && f.position.epoch == c.epoch && !Covers(c, f)
      ensures Num(e.position.sequence) <= Num(f.position.sequence)
    {
      assert !Covers(s.watch.after, f) && f !in s.watch.delivered;
      assert !StrictlyBelow(f, e);
    }
  }

  lemma DeferredInOrder(log: set<Entry>, s: State, event: Wake, w: Write, w2: Write)
    requires Order(log, s) && s.watch.Watching? && s.watch.phase.Deciding?
    ensures Order(log, Deferred(s, event, w, w2)) && Rises(s, Deferred(s, event, w, w2))
  {
    hide Near, AtMostAll, FileOrder, NearAll, Retained, Accept, Covers;
    var e := s.watch.phase.entry;
    RetainedInOrder(log, s, e.id, event.(position := e.position), w);
    var (t, ok) := Retained(s, e.id, event.(position := e.position), w);
    WithoutWatch(log, t);
    if ok { AcceptInOrder(log, t.(admissions := t.admissions + {e.id}), e, w2); }
  }

  lemma DispatchedInOrder(log: set<Entry>, s: State, event: Wake, read: Read, w: Write, w2: Write)
    requires Inv(log, s) && Order(log, s) && s.watch.Watching? && s.watch.phase.Deciding?
    ensures Order(log, Dispatched(s, event, read, w, w2)) && Rises(s, Dispatched(s, event, read, w, w2))
  {
    hide Inv, Kept, Near, AtMostAll, FileOrder, NearAll, Retained, AfterHandoff, Covers;
    var e := s.watch.phase.entry;
    var stored := event.(position := e.position);
    RetainedInOrder(log, s, e.id, stored, w);
    var (t, ok) := Retained(s, e.id, stored, w);
    WithoutWatch(log, t);
    if ok && e.id in t.a.admitted {
      assert Kept(t.a) by { LedgerOf(log, s); RetainedIsKept(s, e.id, stored, w); }
      HandoffInOrder(log, t, e, read, w2);
    } else {
      FileOrderIs(log, t.a, t.a.(admitted := t.a.admitted + {e.id}));
    }
  }

  lemma RetainedIsKept(s: State, id: string, event: Wake, w: Write)
    requires Kept(s.a)
    ensures Kept(Retained(s, id, event, w).0.a)
  {
    hide Kept, Retain;
    RetainKeeps(s.a, id, event, w);
  }

  lemma WatchStepInOrder(log: set<Entry>, s: State, step: Step)
    requires LogOk(log) && Inv(log, s) && Order(log, s) && Enabled(log, s, step) && OfWatch(step)
    ensures Order(log, Apply(log, s, step)) && Rises(s, Apply(log, s, step))
  {
    hide LogOk, Inv, Order, Rises, NextOutput, HasPendingAdmission, Received, Accept, Deferred, Dispatched, AfterHandoff;
    match step
    case Receive(e) => ReceivedInOrder(log, s, e);
    case Ignore(w) =>
      DeclinedInOrder(log, s, s.watch.phase.entry);
      AcceptInOrder(log, Declined(s, s.watch.phase.entry), s.watch.phase.entry, w);
    case Defer(event, w, w2) => DeferredInOrder(log, s, event, w, w2);
    case Fetched(_, event, read, w, w2) => DispatchedInOrder(log, s, event, read, w, w2);
    case HandedOver(read, w) =>
      LedgerOf(log, s);
      DeclinedInOrder(log, s, s.watch.phase.entry);
      HandoffInOrder(log, if s.watch.phase.ambient then s else Declined(s, s.watch.phase.entry), s.watch.phase.entry, read, w);
    case Flushed(w) => AcceptInOrder(log, s, s.watch.phase.entry, w);
  }

  lemma DeclinedInOrder(log: set<Entry>, s: State, e: Entry)
    ensures Order(log, Declined(s, e)) == Order(log, s)
    ensures forall t :: Rises(Declined(s, e), t) == Rises(s, t)
  {
  }

  // ---------------------------------------------------------------------------------------------
  // Steps of the other tasks
  // ---------------------------------------------------------------------------------------------

  lemma TaskStepInOrder(log: set<Entry>, s: State, step: Step)
    requires Order(log, s) && Enabled(log, s, step) && OfTasks(step)
    ensures Order(log, Apply(log, s, step)) && Rises(s, Apply(log, s, step))
  {
    hide Near, Covers, AtMost, FileOrder, NextOutput, HasPendingAdmission;
    var t := Apply(log, s, step);
    FileOrderIs(log, s.a, t.a);
    if s.a.cursor.Some? {
      WakesAreNear(log, s);
      Reflexive(s.a.cursor.value);
    }
  }

  lemma CompletedInOrder(log: set<Entry>, s: State, id: string, w: Write, t: State)
    requires Order(log, s) && t.a == Complete(s.a, id, w).0 && t.watch == s.watch && t.batch == s.batch
    requires t.recovery == s.recovery || t.recovery.NoRecovery?
    ensures Order(log, t) && Rises(s, t)
  {
    hide Near, Complete, FileOrder;
    CompleteWrote(s.a, id, w);
    if s.a.cursor.Some? {
      WakesAreNear(log, s);
      WroteKeeps(log, s, t, s.a.cursor.value, Without(s.a.wakes, id));
    } else {
      FileOrderIs(log, s.a, t.a);
    }
  }

  lemma FileOrderIs(log: set<Entry>, a: Adapter, b: Adapter)
    requires b.cursor == a.cursor && b.wakes == a.wakes && b.disk == a.disk
    ensures FileOrder(log, b) == FileOrder(log, a)
  {
  }

  lemma ReadInOrder(log: set<Entry>, s: State, conversationId: string, target: ReadTarget, w: Write)
    requires Order(log, s)
    ensures var t := s.(a := CompleteRead(s.a, conversationId, target, w).0); Order(log, t) && Rises(s, t)
    ensures var t := s.(a := Park(s.a, conversationId, target)); Order(log, t) && Rises(s, t)
  {
    hide Near, CompleteRead, FileOrder;
    CompleteReadWrote(s.a, conversationId, target, w);
    FileOrderIs(log, s.a, Park(s.a, conversationId, target));
    if s.a.cursor.Some? {
      WakesAreNear(log, s);
      WroteKeeps(log, s, s.(a := CompleteRead(s.a, conversationId, target, w).0), s.a.cursor.value, s.a.wakes);
    }
  }

  lemma AdmissionInOrder(log: set<Entry>, s: State, id: string, p: Cursor, read: Read, w: Write)
    requires Order(log, s) && Kept(s.a) && Recovering(s.recovery) == Some(p)
    ensures Order(log, AfterAdmission(s, id, p, read, w)) && Rises(s, AfterAdmission(s, id, p, read, w))
  {
    hide Kept, Near, QueueAfterHandoff, CheckpointAfterHandoff, FileOrder, HandoffMark;
    HandoffRises(s.a, p);
    QueueWrote(s.a, p, read, w);
    WakesAreNear(log, s);
    var c := HandoffMark(s.a, p);
    NearUp(log, s.a.cursor.value, c);
    WroteKeeps(log, s, AfterAdmission(s, id, p, read, w), c, s.a.wakes);
  }

  lemma RefetchedInOrder(log: set<Entry>, s: State, event: Wake, read: Read, w: Write, w2: Write)
    requires Inv(log, s) && Order(log, s) && s.recovery.Refetching?
    ensures var t := RecoveryDispatched(s, event, read, w, w2); Order(log, t) && Rises(s, t)
  {
    hide Inv, Kept, Near, AtMost, FileOrder, NearAll, Retained, AfterAdmission, Covers, AtMostAll;
    var id, wake := s.recovery.id, s.recovery.wake;
    var stored := event.(position := wake.position);
    RetainedInOrder(log, s, id, stored, w);
    var (t, ok) := Retained(s, id, stored, w);
    assert Kept(t.a) by { LedgerOf(log, s); RetainedIsKept(s, id, stored, w); }
    if ok {
      AdmissionInOrder(log, t, id, wake.position, read, w2);
      FileOrderIs(log, t.a, t.a.(admitted := t.a.admitted + {id}));
    }
  }

  // ---------------------------------------------------------------------------------------------
  // Bootstraps
  // ---------------------------------------------------------------------------------------------

  predicate Bootstraps(step: Step)
  {
    step.Resync? || step.Reconnected?
  }

  /** `b` is at or above every position of its epoch that the adapter still knows. */
  predicate Tops(s: State, b: Cursor)
  {
    && (s.a.cursor.Some? ==> AtMost(s.a.cursor.value, b))
    && AtMostAll(s.a.wakes, b) && AtMostAll(s.batch, b)
    && (Recovering(s.recovery).Some? ==> AtMost(Recovering(s.recovery).value, b))
    && (s.a.disk.Some? ==> AtMost(s.a.disk.value.cursor, b) && AtMostAll(s.a.disk.value.wakes, b))
  }

  /** What a bootstrap declares caught up is the server's high-water position. */
  predicate HighWater(s: State, step: Step)
  {
    match step
    case Resync(b, _) => Tops(s, b)
    case Reconnected(b, _, _) => (s.a.disk.Some? && s.a.disk.value.cursor.epoch == b.epoch) || Tops(s, b)
    case _ => true
  }

  lemma TopIsNear(log: set<Entry>, wakes: map<string, Wake>, b: Cursor)
    ensures AtMostAll(wakes, b) ==> NearAll(log, b, wakes)
    ensures forall p :: AtMost(p, b) ==> Near(log, b, p)
  {
  }

  lemma ResyncInOrder(log: set<Entry>, s: State, b: Cursor, w: Write)
    requires Order(log, s) && s.watch.NoWatch? && Tops(s, b)
    ensures Order(log, WithBootstrap(s, b, w))
  {
    hide Near, ValidCursor;
    TopIsNear(log, s.a.wakes, b);
    TopIsNear(log, s.batch, b);
  }

  lemma ReconnectedInOrder(log: set<Entry>, s: State, b: Cursor, restarted: bool, w: Write)
    requires Inv(log, s) && Order(log, s) && ValidCursor(b) && HighWater(s, Reconnected(b, restarted, w))
    ensures Order(log, Connected(s, b, restarted, w))
  {
    hide Inv, Kept, Near, ValidCursor, Connect, Connected;
    var a0 := if restarted then s.a.(admitted := {}) else s.a;
    assert Kept(a0) by { LedgerOf(log, s); RestartIsKept(s.a); }
    ConnectKeeps(a0, b, w);
    ConnectedShape(s, b, restarted, w);
    if s.a.disk.Some? { TopIsNear(log, s.a.disk.value.wakes, b); }
  }

  lemma RestartIsKept(a: Adapter)
    requires Kept(a)
    ensures Kept(a.(admitted := {}))
  {
    hide ValidReads, ValidWakes, ValidCursor, WellFormed;
  }

  // ---------------------------------------------------------------------------------------------
  // Runs
  // ---------------------------------------------------------------------------------------------

  lemma StepInOrder(log: set<Entry>, s: State, step: Step)
    requires LogOk(log) && Inv(log, s) && Order(log, s) && Enabled(log, s, step) && HighWater(s, step)
    ensures Order(log, Apply(log, s, step))
    ensures Bootstraps(step) || Rises(s, Apply(log, s, step))
  {
    hide LogOk, Inv, Order, Rises, NextOutput, HasPendingAdmission, Tops, Completed, Connected, WithBootstrap, AfterAdmission,
         RecoveryDispatched, CompleteRead, Park, Received, Accept, Deferred, Dispatched, AfterHandoff;
    if OfWatch(step) {
      WatchStepInOrder(log, s, step);
    } else if OfTasks(step) {
      TaskStepInOrder(log, s, step);
    } else {
      OtherStepInOrder(log, s, step);
    }
  }

  lemma OtherStepInOrder(log: set<Entry>, s: State, step: Step)
    requires LogOk(log) && Inv(log, s) && Order(log, s) && Enabled(log, s, step) && HighWater(s, step)
    requires !OfWatch(step) && !OfTasks(step)
    ensures Order(log, Apply(log, s, step))
    ensures Bootstraps(step) || Rises(s, Apply(log, s, step))
  {
    hide LogOk, Inv, Order, Rises, NextOutput, HasPendingAdmission, Tops, Connected, WithBootstrap, AfterAdmission,
         RecoveryDispatched, CompleteRead, Complete, Park, Received, Accept, Deferred, Dispatched, AfterHandoff;
    match step
    case Resync(b, w) => ResyncInOrder(log, s, b, w);
    case RecoveryDeclined(w) => CompletedInOrder(log, s, s.recovery.id, w, Apply(log, s, step));
    case Refetched(event, read, w, w2) => RefetchedInOrder(log, s, event, read, w, w2);
    case Admitted(read, w) =>
      LedgerOf(log, s);
      AdmissionInOrder(log, s, s.recovery.id, s.recovery.wake.position, read, w);
    case TurnSucceeded(id, w) => CompletedInOrder(log, s, id, w, Apply(log, s, step));
    case ReadAdvanced(conversationId, target, w) => ReadInOrder(log, s, conversationId, target, w);
    case ReadParked(conversationId, target) => ReadInOrder(log, s, conversationId, target, Failed);
    case Reconnected(b, restarted, w) => ReconnectedInOrder(log, s, b, restarted, w);
  }

  ghost predicate HighWaterRun(log: set<Entry>, s: State, steps: seq<Step>)
    requires Legal(log, s, steps)
    decreases |steps|
  {
    steps == [] || (HighWater(s, steps[0]) && HighWaterRun(log, Apply(log, s, steps[0]), steps[1..]))
  }

  lemma {:induction false} OrderOverRuns(log: set<Entry>, s: State, steps: seq<Step>)
    requires LogOk(log) && Inv(log, s) && Order(log, s) && Legal(log, s, steps) && HighWaterRun(log, s, steps)
    ensures Inv(log, Run(log, s, steps)) && Order(log, Run(log, s, steps))
    ensures (forall k :: 0 <= k < |steps| ==> !Bootstraps(steps[k])) ==> Rises(s, Run(log, s, steps))
    decreases |steps|
  {
    hide LogOk, Inv, Order, Apply, Enabled, HighWater, Bootstraps, Rises;
    if steps == [] {
      RisesTrivially(s);
    } else {
      var t := Apply(log, s, steps[0]);
      StepKeeps(log, s, steps[0]);
      StepInOrder(log, s, steps[0]);
      OrderOverRuns(log, t, steps[1..]);
      if forall k :: 0 <= k < |steps| ==> !Bootstraps(steps[k]) {
        assert forall k :: 0 <= k < |steps[1..]| ==> steps[1..][k] == steps[k + 1];
        RisesOn(s, t, Run(log, t, steps[1..]));
      }
    }
  }

  lemma RisesTrivially(s: State)
    ensures Rises(s, s)
  {
  }

  lemma RisesOn(s: State, t: State, u: State)
    requires Rises(s, t) && Rises(t, u)
    ensures Rises(s, u)
  {
  }

  lemma InstalledInOrder(log: set<Entry>)
    ensures Order(log, Installed())
  {
  }

  /**
    Over every interleaving, if bootstraps declare nothing older than what is known: between two of them the
    checkpoint in memory stays in its epoch and never falls back, and the durable one never falls below it.
    So the durable one does not fall back either where the two agree; it can where a write that raised left
    the file ahead.
   */
  lemma {:induction false} CheckpointNeverFallsBack(log: set<Entry>, front: seq<Step>, after: seq<Step>)
    requires LogOk(log) && Legal(log, Installed(), front) && HighWaterRun(log, Installed(), front)
    requires Legal(log, Run(log, Installed(), front), after)
    requires forall k :: 0 <= k < |after| ==> !Bootstraps(after[k])
    requires Run(log, Installed(), front).a.cursor.Some?
    ensures
      var s := Run(log, Installed(), front).a;
      var t := Run(log, Run(log, Installed(), front), after).a;
      && t.cursor.Some? && t.cursor.value.epoch == s.cursor.value.epoch
      && Num(s.cursor.value.sequence) <= Num(t.cursor.value.sequence)
      && (s.disk.Some? && s.disk.value.cursor.epoch == s.cursor.value.epoch ==>
            && t.disk.Some? && t.disk.value.cursor.epoch == s.cursor.value.epoch
            && Num(t.cursor.value.sequence) <= Num(t.disk.value.cursor.sequence))
      && (s.disk.Some? && s.disk.value.cursor == s.cursor.value ==>
            Num(s.disk.value.cursor.sequence) <= Num(t.disk.value.cursor.sequence))
  {
    InstalledInv(log);
    InstalledInOrder(log);
    hide Inv, LogOk, Enabled, Apply, HighWater;
    OrderOverRuns(log, Installed(), front);
    var s := Run(log, Installed(), front);
    QuietIsHighWater(log, s, after);
    OrderOverRuns(log, s, after);
  }

  lemma {:induction false} QuietIsHighWater(log: set<Entry>, s: State, steps: seq<Step>)
    requires Legal(log, s, steps) && forall k :: 0 <= k < |steps| ==> !Bootstraps(steps[k])
    ensures HighWaterRun(log, s, steps)
    decreases |steps|
  {
    hide Apply, Enabled;
    if steps != [] { QuietIsHighWater(log, Apply(log, s, steps[0]), steps[1..]); }
  }
}
