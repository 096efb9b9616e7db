/**
  Where the tasks of the Hermes adapter lead when their writes succeed, and what they give back when they end early
  (integrations/hermes-hype-comms/adapter.py:1650-1725, 2246-2320, 3182-3480).
 */
module AmbientOutcomes {
  import opened Wrappers
  import opened Decimals
  import opened CheckpointFile
  import opened Checkpoint
  import opened CheckpointOutcomes
  import opened AmbientDelivery

  /** What every reachable state is with a position: writes can be attempted. */
  predicate Ready(a: Adapter)
  {
    Kept(a) && a.cursor.Some?
  }

  /** The file holds what memory holds. */
  predicate Durable(a: Adapter)
  {
    a.cursor.Some? && a.disk == Some(Checkpoint(a.cursor.value, a.targets, a.wakes))
  }

  /** `b` is `a` with its checkpoint at `c`, in memory and, where that moved it, in the file. */
  predicate At(a: Adapter, b: Adapter, c: Cursor)
  {
    && b == a.(cursor := Some(c), needsMigration := b.needsMigration, disk := b.disk)
    && (if a.cursor == Some(c) then b == a else Durable(b))
  }

  /** One step of one task leads from `s` to `t`. */
  ghost predicate Goes(log: set<Entry>, s: State, step: Step, t: State)
  {
    Enabled(log, s, step) && t == Apply(log, s, step)
  }

  lemma WatchGoes(log: set<Entry>, s: State, event: Wake, read: Read, w: Write, w2: Write)
    requires s.watch.Watching?
    ensures s.watch.phase.Deciding? ==> Goes(log, s, Fetched(true, event, read, w, w2), Dispatched(s, event, read, w, w2))
    ensures s.watch.phase.Deciding? && HasPendingAdmission(s, event.conversationId) ==>
              Goes(log, s, Defer(event, w, w2), Deferred(s, event, w, w2))
  {
    hide Dispatched, Deferred, HasPendingAdmission;
  }

  lemma HandoffGoes(log: set<Entry>, s: State, read: Read, w: Write)
    requires s.watch.Watching?
    ensures s.watch.phase.HandingOver? ==>
              var e := s.watch.phase.entry;
              var told := if s.watch.phase.ambient then s else s.(h := s.h.(declined := s.h.declined + {e}));
              Goes(log, s, HandedOver(read, w), AfterHandoff(told, e, read, w))
    ensures s.watch.phase.Flushing? ==> Goes(log, s, Flushed(w), Accept(s, s.watch.phase.entry, w))
  {
    hide AfterHandoff, Accept;
  }

  lemma RecoveryGoes(log: set<Entry>, s: State, event: Wake, read: Read, w: Write, w2: Write)
    ensures s.recovery.Refetching? ==> Goes(log, s, Refetched(event, read, w, w2), RecoveryDispatched(s, event, read, w, w2))
  {
    hide RecoveryDispatched;
  }

  lemma AdmissionGoes(log: set<Entry>, s: State, read: Read, w: Write)
    ensures s.recovery.Admitting? ==>
              Goes(log, s, Admitted(read, w), AfterAdmission(s, s.recovery.id, s.recovery.wake.position, read, w))
  {
    hide AfterAdmission;
  }

  lemma OtherGoes(log: set<Entry>, s: State, id: string, bootstrap: Cursor, restarted: bool, w: Write)
    ensures Goes(log, s, TurnSucceeded(id, w), Completed(s, id, w))
    ensures ValidCursor(bootstrap) ==> Goes(log, s, Reconnected(bootstrap, restarted, w), Connected(s, bootstrap, restarted, w))
    ensures ValidCursor(bootstrap) && s.watch.NoWatch? ==> Goes(log, s, Resync(bootstrap, w), WithBootstrap(s, bootstrap, w))
  {
    hide Completed, Connected, WithBootstrap, ValidCursor;
  }

  lemma AdvancedIsAt(a: Adapter, c: Cursor)
    requires ValidCursor(c)
    ensures Advance(a, c, Saved).1 && At(a, Advance(a, c, Saved).0, c)
  {
    AdvanceMeans(a, c, Saved);
    hide ValidCursor, Advance;
  }

  // ---------------------------------------------------------------------------------------------
  // The watch consumer
  // ---------------------------------------------------------------------------------------------

  /** An event of another epoch ends the watch, one at or below the checkpoint is a duplicate, any other is taken up. */
  lemma ReceivedMeans(log: set<Entry>, s: State, e: Entry)
    requires LogOk(log) && Ready(s.a) && Enabled(log, s, Receive(e))
    ensures
      var t := Apply(log, s, Receive(e));
      var c := s.a.cursor.value;
      if e.position.epoch != c.epoch then t == s.(watch := NoWatch)
      else
        var heard := s.watch.(delivered := s.watch.delivered + {e});
        t == s.(watch := if Num(e.position.sequence) <= Num(c.sequence) then heard else heard.(phase := Deciding(e)))
  {
    KeptParts(s.a);
    if e.position.epoch == s.a.cursor.value.epoch { CompareIsNumeric(e.position.sequence, s.a.cursor.value.sequence); }
    hide Kept, CompareDecimalStrings, NextOutput;
  }

  /** The end of an event: its position is the checkpoint and the watch reads on; a write that fails ends the watch. */
  lemma AcceptedMeans(s: State, e: Entry, w: Write)
    requires s.watch.Watching? && ValidCursor(e.position)
    ensures
      var t := Accept(s, e, w);
      && t == s.(a := t.a, watch := t.watch)
      && (if w.Saved? || s.a.cursor == Some(e.position) then
            At(s.a, t.a, e.position) && t.watch == s.watch.(phase := Waiting)
          else t.watch.NoWatch? && t.a == s.a.(disk := t.a.disk))
  {
    AdvancedIsAt(s.a, e.position);
    AdvanceMeans(s.a, e.position, w);
    hide ValidCursor, Advance, At;
    if s.a.cursor == Some(e.position) { SameAt(s.a, e.position); }
  }

  lemma SameAt(a: Adapter, c: Cursor)
    requires a.cursor == Some(c)
    ensures At(a, a, c)
  {
  }

  /** An event that wakes nobody is passed over, on record. */
  lemma IgnoredMeans(log: set<Entry>, s: State, w: Write)
    requires s.watch.Watching? && s.watch.phase.Deciding? && ValidCursor(s.watch.phase.entry.position)
    ensures
      var e := s.watch.phase.entry;
      var t := Apply(log, s, Ignore(w));
      && t.h == s.h.(declined := s.h.declined + {e})
      && (w.Saved? ==> At(s.a, t.a, e.position) && t.watch == s.watch.(phase := Waiting))
  {
    AcceptedMeans(Declined(s, s.watch.phase.entry), s.watch.phase.entry, w);
    hide Accept, At;
  }

  // ---------------------------------------------------------------------------------------------
  // Wakes
  // ---------------------------------------------------------------------------------------------

  /** The event is the one that was retained, or it is well-formed and there is room for it. */
  ghost predicate Storable(a: Adapter, id: string, event: Wake)
  {
    if id in a.wakes then SameEvent(a.wakes[id], event)
    else |a.wakes| < MAX_PENDING_AMBIENT_WAKES && ValidWake(id, Target(a.wakes, id, event))
  }

  /** `b` is `a` with the wake of the event retained; a new one is in the file as well. */
  ghost predicate Holds(a: Adapter, b: Adapter, id: string, event: Wake)
  {
    if id in a.wakes then b == a
    else
      && Retains(a.wakes, event, Target(a.wakes, id, event)) && Durable(b)
      && b == a.(wakes := a.wakes[id := Target(a.wakes, id, event)], needsMigration := false, disk := b.disk)
  }

  lemma RetainedMeans(s: State, id: string, event: Wake, w: Write)
    requires Ready(s.a)
    ensures
      var (t, ok) := Retained(s, id, event, w);
      && t == s.(a := t.a, h := t.h)
      && (Storable(s.a, id, event) && (w.Saved? || id in s.a.wakes) ==> ok && Holds(s.a, t.a, id, event))
      && (!ok ==> t == s.(a := s.a.(disk := t.a.disk)))
      && (!Storable(s.a, id, event) ==> !ok && t == s)
  {
    RetainMeans(s.a, id, event, w);
    hide Kept, Retain, ValidWake, Target, Retains;
  }

  /** A handoff that nobody refused, with what the reader may write: the read target is stored with the checkpoint. */
  predicate Readable(read: Read)
  {
    read.Some? ==> ValidRead(read.value.0, read.value.1)
  }

  /** The checkpoint that goes with a read target: the event's own position where it is ahead, else the one there was. */
  predicate Ahead(c: Option<Cursor>, p: Cursor)
  {
    c.None? || (p.epoch == c.value.epoch && Num(p.sequence) > Num(c.value.sequence))
  }

  predicate Queues(a: Adapter, b: Adapter, position: Cursor, read: Read)
  {
    if read.None? then b == a
    else
      var (c, target) := read.value;
      && Durable(b)
      && b == a.(cursor := b.cursor, targets := b.targets, parked := b.parked, needsMigration := false, disk := b.disk)
      && b.cursor == (if Ahead(a.cursor, position) then Some(position) else a.cursor)
      && b.targets == (if c !in a.targets || Num(target.conversationSequence) > Num(a.targets[c].conversationSequence) then
                         a.targets[c := target] else a.targets)
  }

  lemma QueuedMeans(a: Adapter, position: Cursor, read: Read, w: Write)
    requires Ready(a) && ValidCursor(position) && Readable(read)
    ensures
      var (b, ok) := QueueAfterHandoff(a, position, read, w);
      && (ok <==> w.Saved? || read.None?)
      && (if ok then Queues(a, b, position, read) else b == a.(disk := b.disk))
  {
    hide Ready, Kept, ValidCursor, ValidRead, QueueRead, CheckpointAfterHandoff, Num, Canonical, CompareDecimalStrings;
    if read.Some? {
      assert Kept(a) && a.cursor.Some? by { ReadyParts(a); }
      HandoffMeans(a, position);
      KeptParts(a);
      var c := CheckpointAfterHandoff(a, position).value;
      QueueReadMeans(a, c, read.value.0, read.value.1, w);
    }
  }

  lemma ReadyParts(a: Adapter)
    requires Ready(a)
    ensures Kept(a) && a.cursor.Some?
  {
    hide Kept;
  }

  /**
    A wake that was fetched is stored and reserved before it is handed over; one that is reserved already is not
    handed over again.
   */
  lemma FetchedMeans(s: State, event: Wake, read: Read, w2: Write)
    requires Ready(s.a) && s.watch.Watching? && s.watch.phase.Deciding? && ValidCursor(s.watch.phase.entry.position)
    requires Storable(s.a, s.watch.phase.entry.id, event.(position := s.watch.phase.entry.position))
    ensures
      var e := s.watch.phase.entry;
      var t := Dispatched(s, event, read, Saved, w2);
      && (e.id !in s.a.admitted ==>
            && t.watch == s.watch.(phase := HandingOver(e, true, true)) && t.a.admitted == s.a.admitted + {e.id}
            && Holds(s.a, t.a.(admitted := s.a.admitted), e.id, event.(position := e.position)))
      && (e.id in s.a.admitted && read.None? ==>
            t.watch == s.watch.(phase := Flushing(e)) && Holds(s.a, t.a, e.id, event.(position := e.position)))
      && t == s.(a := t.a, h := t.h, watch := t.watch)
  {
    var e := s.watch.phase.entry;
    RetainedMeans(s, e.id, event.(position := e.position), Saved);
    hide Ready, Storable, Holds, Retained, Retain, ValidCursor;
    var (t, ok) := Retained(s, e.id, event.(position := e.position), Saved);
    HoldsAdmitted(s.a, t.a, e.id, event.(position := e.position));
  }

  lemma HoldsAdmitted(a: Adapter, b: Adapter, id: string, event: Wake)
    requires Holds(a, b, id, event)
    ensures b.admitted == a.admitted && b.cursor == a.cursor && b.targets == a.targets && id in b.wakes
    ensures forall k :: k in a.wakes ==> k in b.wakes && b.wakes[k] == a.wakes[k]
    ensures b.(admitted := a.admitted) == b
  {
    hide Target, Retains, Durable;
  }

  /** A message that is no ambient wake is handed over without being stored. */
  lemma PlainMeans(log: set<Entry>, s: State, event: Wake, read: Read, w: Write, w2: Write)
    requires s.watch.Watching? && s.watch.phase.Deciding?
    ensures
      Apply(log, s, Fetched(false, event, read, w, w2))
      == s.(watch := s.watch.(phase := HandingOver(s.watch.phase.entry, false, false)))
  {
  }

  /** What follows a handoff: the read target is queued with its checkpoint, and the reservation stays. */
  lemma HandedOverMeans(s: State, read: Read, w: Write)
    requires Ready(s.a) && s.watch.Watching? && s.watch.phase.HandingOver? && Readable(read)
    requires ValidCursor(s.watch.phase.entry.position)
    ensures
      var e := s.watch.phase.entry;
      var t := AfterHandoff(s, e, read, w);
      && t == s.(a := t.a, watch := t.watch)
      && (if w.Saved? || read.None? then Queues(s.a, t.a, e.position, read) && t.watch == s.watch.(phase := Flushing(e))
          else t.watch.NoWatch? && t.a == s.a.(disk := t.a.disk))
  {
    QueuedMeans(s.a, s.watch.phase.entry.position, read, w);
    hide Ready, Readable, ValidCursor, QueueAfterHandoff, Queues;
  }

  /** A handoff that ended in an exception gives its reservation back, so the wake is handed over by the next attempt. */
  lemma EndedHandoffIsFree(log: set<Entry>, s: State)
    requires s.watch.Watching?
    ensures
      var t := Apply(log, s, WatchEnds);
      && t == s.(watch := NoWatch, a := s.a.(admitted := t.a.admitted))
      && t.a.admitted == (if s.watch.phase.HandingOver? && s.watch.phase.reserved then s.a.admitted - {s.watch.phase.entry.id}
                          else s.a.admitted)
  {
  }

  /** The position of `e` is next: in the checkpoint's epoch and above it. */
  predicate IsNext(a: Adapter, e: Entry)
  {
    a.cursor.Some? && ValidCursor(e.position) && Ahead(a.cursor, e.position)
  }

  lemma TurnSucceededMeans(s: State, id: string)
    requires Ready(s.a) && id in s.a.wakes
    ensures
      var t := Completed(s, id, Saved);
      && t.a == s.a.(wakes := s.a.wakes - {id}, admitted := s.a.admitted - {id}, needsMigration := false, disk := t.a.disk)
      && Durable(t.a) && t == s.(a := t.a, h := t.h)
  {
    CompleteMeans(s.a, id, Saved);
    hide Kept, Complete;
  }

  lemma QueuesKeeps(a: Adapter, b: Adapter, position: Cursor, read: Read)
    requires Queues(a, b, position, read)
    ensures b.wakes == a.wakes && b.admitted == a.admitted
    ensures read.None? ==> b == a
    ensures read.Some? && Ahead(a.cursor, position) ==> b.cursor == Some(position) && Durable(b)
    ensures read.Some? ==>
              read.value.0 in b.targets
              && Num(b.targets[read.value.0].conversationSequence) >= Num(read.value.1.conversationSequence)
  {
    hide Durable, Ahead;
  }

  lemma AtKeeps(a: Adapter, b: Adapter, c: Cursor)
    requires At(a, b, c)
    ensures b.wakes == a.wakes && b.admitted == a.admitted && b.targets == a.targets && b.cursor == Some(c)
    ensures a.cursor == Some(c) ==> b == a
    ensures a.cursor != Some(c) ==> Durable(b)
  {
    hide Durable;
  }

  lemma HoldsKeeps(a: Adapter, id: string, event: Wake, w: Write)
    requires Ready(a)
    ensures Kept(Retain(a, id, event, w).0)
  {
    RetainKeeps(a, id, event, w);
    hide Kept, Retain;
  }

  lemma FetchedKeeps(s: State, event: Wake, read: Read, w2: Write)
    requires Ready(s.a) && s.watch.Watching? && s.watch.phase.Deciding? && s.watch.phase.entry.id !in s.a.admitted
    requires Storable(s.a, s.watch.phase.entry.id, event.(position := s.watch.phase.entry.position))
    ensures Kept(Dispatched(s, event, read, Saved, w2).a)
  {
    var e := s.watch.phase.entry;
    RetainKeeps(s.a, e.id, event.(position := e.position), Saved);
    RetainedMeans(s, e.id, event.(position := e.position), Saved);
    hide Retain, ValidReads, ValidWakes, ValidCursor, WellFormed, Storable, Holds;
  }

  lemma QueueKeeps(a: Adapter, position: Cursor, read: Read, w: Write)
    requires Ready(a)
    ensures Kept(QueueAfterHandoff(a, position, read, w).0)
  {
    if read.Some? && CheckpointAfterHandoff(a, position).Some? {
      QueueReadKeeps(a, CheckpointAfterHandoff(a, position).value, read.value.0, read.value.1, w);
    }
    hide Kept, QueueRead, CheckpointAfterHandoff;
  }

  /**
    An ambient event from the moment it is taken up: it is stored and reserved while the checkpoint is still behind it,
    handed over, and passed by a checkpoint that is in the file, with the wake still stored. Its turn then ends both the
    wake and the reservation.
   */
  lemma AmbientEventIsServed(log: set<Entry>, s: State, event: Wake, read: Read) returns (t1: State, t2: State, t3: State, t4: State)
    requires Ready(s.a) && s.watch.Watching? && s.watch.phase.Deciding? && IsNext(s.a, s.watch.phase.entry) && Readable(read)
    requires s.watch.phase.entry.id !in s.a.admitted
    requires Storable(s.a, s.watch.phase.entry.id, event.(position := s.watch.phase.entry.position))
    ensures Goes(log, s, Fetched(true, event, read, Saved, Saved), t1)
    ensures Goes(log, t1, HandedOver(read, Saved), t2) && Goes(log, t2, Flushed(Saved), t3)
    ensures Goes(log, t3, TurnSucceeded(s.watch.phase.entry.id, Saved), t4)
    ensures
      var id := s.watch.phase.entry.id;
      && id in t1.a.wakes && id in t1.a.admitted && t1.a.cursor == s.a.cursor
      && t3.watch == s.watch.(phase := Waiting) && t3.a.cursor == Some(s.watch.phase.entry.position) && Durable(t3.a)
      && id in t3.a.wakes && id in t3.a.admitted
      && (read.Some? ==>
            read.value.0 in t3.a.targets
            && Num(t3.a.targets[read.value.0].conversationSequence) >= Num(read.value.1.conversationSequence))
      && id !in t4.a.wakes && id !in t4.a.admitted && Durable(t4.a) && t4.a.cursor == t3.a.cursor
  {
    hide *;
    t1 := FetchedServes(log, s, event, read);
    t2 := HandedOverServes(log, t1, read);
    t3 := FlushedServes(log, t2);
    t4 := TurnServes(log, t3, s.watch.phase.entry.id);
  }

  lemma FetchedServes(log: set<Entry>, s: State, event: Wake, read: Read) returns (t: State)
    requires Ready(s.a) && s.watch.Watching? && s.watch.phase.Deciding? && IsNext(s.a, s.watch.phase.entry)
    requires s.watch.phase.entry.id !in s.a.admitted
    requires Storable(s.a, s.watch.phase.entry.id, event.(position := s.watch.phase.entry.position))
    ensures Goes(log, s, Fetched(true, event, read, Saved, Saved), t)
    ensures Ready(t.a) && IsNext(t.a, s.watch.phase.entry) && t.a.cursor == s.a.cursor
    ensures s.watch.phase.entry.id in t.a.wakes && s.watch.phase.entry.id in t.a.admitted
    ensures t.watch == s.watch.(phase := HandingOver(s.watch.phase.entry, true, true))
  {
    var e := s.watch.phase.entry;
    t := Dispatched(s, event, read, Saved, Saved);
    hide Kept, ValidCursor, Holds, Storable, Dispatched, Goes;
    WatchGoes(log, s, event, read, Saved, Saved);
    FetchedMeans(s, event, read, Saved);
    FetchedKeeps(s, event, read, Saved);
    HoldsAdmitted(s.a, t.a.(admitted := s.a.admitted), e.id, event.(position := e.position));
  }

  lemma FlushedServes(log: set<Entry>, s: State) returns (t: State)
    requires Ready(s.a) && s.watch.Watching? && s.watch.phase.Flushing? && ValidCursor(s.watch.phase.entry.position)
    requires s.a.cursor != Some(s.watch.phase.entry.position) || Durable(s.a)
    ensures Goes(log, s, Flushed(Saved), t)
    ensures Ready(t.a) && t.watch == s.watch.(phase := Waiting) && t.a.cursor == Some(s.watch.phase.entry.position) && Durable(t.a)
    ensures t.a.wakes == s.a.wakes && t.a.admitted == s.a.admitted && t.a.targets == s.a.targets
  {
    var e := s.watch.phase.entry;
    t := Accept(s, e, Saved);
    hide Kept, ValidCursor, Durable, At, Goes;
    HandoffGoes(log, s, None, Saved);
    AcceptedMeans(s, e, Saved);
    AtKeeps(s.a, t.a, e.position);
    AdvanceKeeps(s.a, e.position, Saved);
  }

  lemma TurnServes(log: set<Entry>, s: State, id: string) returns (t: State)
    requires Ready(s.a) && id in s.a.wakes
    ensures Goes(log, s, TurnSucceeded(id, Saved), t)
    ensures id !in t.a.wakes && id !in t.a.admitted && Durable(t.a) && t.a.cursor == s.a.cursor
  {
    t := Completed(s, id, Saved);
    hide Kept, Goes, Durable;
    OtherGoes(log, s, id, Cursor("", ""), false, Saved);
    TurnSucceededMeans(s, id);
  }

  lemma HandedOverServes(log: set<Entry>, s: State, read: Read) returns (t: State)
    requires Ready(s.a) && s.watch.Watching? && s.watch.phase.HandingOver? && s.watch.phase.ambient && Readable(read)
    requires IsNext(s.a, s.watch.phase.entry)
    ensures Goes(log, s, HandedOver(read, Saved), t)
    ensures Ready(t.a) && t.watch == s.watch.(phase := Flushing(s.watch.phase.entry))
    ensures t.a.wakes == s.a.wakes && t.a.admitted == s.a.admitted && ValidCursor(s.watch.phase.entry.position)
    ensures t.a.cursor != Some(s.watch.phase.entry.position) || Durable(t.a)
    ensures read.Some? ==>
              read.value.0 in t.a.targets
              && Num(t.a.targets[read.value.0].conversationSequence) >= Num(read.value.1.conversationSequence)
  {
    var e := s.watch.phase.entry;
    t := AfterHandoff(s, e, read, Saved);
    hide Kept, Queues, Durable, QueueAfterHandoff, Readable, ValidCursor, Goes;
    HandoffGoes(log, s, read, Saved);
    HandedOverMeans(s, read, Saved);
    QueuesKeeps(s.a, t.a, e.position, read);
    QueueKeeps(s.a, e.position, read, Saved);
  }

  // ---------------------------------------------------------------------------------------------
  // Deferral and recovery
  // ---------------------------------------------------------------------------------------------

  /**
    A wake behind an unfinished admission of its conversation is stored, not handed over, and its position is passed;
    the next recovery pass takes it up.
   */
  lemma DeferredIsAdmittedLater(log: set<Entry>, s: State, event: Wake) returns (t: State)
    requires Ready(s.a) && s.watch.Watching? && s.watch.phase.Deciding? && IsNext(s.a, s.watch.phase.entry)
    requires HasPendingAdmission(s, event.conversationId) && s.watch.phase.entry.id !in s.a.admitted
    requires Storable(s.a, s.watch.phase.entry.id, event.(position := s.watch.phase.entry.position))
    ensures Goes(log, s, Defer(event, Saved, Saved), t)
    ensures t.watch == s.watch.(phase := Waiting) && t.a.cursor == Some(s.watch.phase.entry.position) && Durable(t.a)
    ensures s.watch.phase.entry.id in t.a.wakes && t.admissions == s.admissions + {s.watch.phase.entry.id}
    ensures t.a.admitted == s.a.admitted && t.recovery == s.recovery
  {
    t := Deferred(s, event, Saved, Saved);
    hide Kept, ValidCursor, Holds, Durable, Storable, At, HasPendingAdmission, Goes, Retained, Accept;
    WatchGoes(log, s, event, None, Saved, Saved);
    var e := s.watch.phase.entry;
    RetainedMeans(s, e.id, event.(position := e.position), Saved);
    var (r, ok) := Retained(s, e.id, event.(position := e.position), Saved);
    HoldsAdmitted(s.a, r.a, e.id, event.(position := e.position));
    var d := r.(admissions := r.admissions + {e.id});
    AcceptedMeans(d, e, Saved);
    AtKeeps(d.a, Accept(d, e, Saved).a, e.position);
  }

  /** A stored wake that awaits admission and is not reserved can be taken by the next pass. */
  lemma PassTakes(log: set<Entry>, s: State, id: string)
    requires s.recovery.NoRecovery? && id in s.a.wakes && id in s.admissions && id !in s.a.admitted
    ensures
      var t := Apply(log, s, PassBegins);
      && t == s.(batch := t.batch) && Enabled(log, t, Take(id))
      && Apply(log, t, Take(id)) == t.(recovery := Refetching(id, s.a.wakes[id]))
    ensures forall k :: k in Apply(log, s, PassBegins).batch <==> k in s.a.wakes && k in s.admissions
  {
  }

  /** A wake that cannot be retained is not handed over: the watch, or the recovery, ends with the checkpoint where it was. */
  lemma UnretainedMeans(log: set<Entry>, s: State, event: Wake, read: Read, w: Write, w2: Write)
    requires Ready(s.a) && s.watch.Watching? && s.watch.phase.Deciding?
    requires var e := s.watch.phase.entry;
             !Storable(s.a, e.id, event.(position := e.position)) || (!w.Saved? && e.id !in s.a.wakes)
    ensures
      var t := Dispatched(s, event, read, w, w2);
      && t == s.(watch := NoWatch, a := s.a.(disk := t.a.disk)) && t == Deferred(s, event, w, w2)
      && (!Storable(s.a, s.watch.phase.entry.id, event.(position := s.watch.phase.entry.position)) ==> t.a == s.a)
  {
    var e := s.watch.phase.entry;
    RetainFails(s, e.id, event.(position := e.position), w);
    hide Ready, Retained, Storable, AfterHandoff, Accept;
  }

  lemma RetainFails(s: State, id: string, event: Wake, w: Write)
    requires Ready(s.a) && (!Storable(s.a, id, event) || (!w.Saved? && id !in s.a.wakes))
    ensures
      var (t, ok) := Retained(s, id, event, w);
      && !ok && t == s.(a := s.a.(disk := t.a.disk)) && (!Storable(s.a, id, event) ==> t == s)
  {
    RetainedMeans(s, id, event, w);
    RetainMeans(s.a, id, event, w);
    hide Kept, Retain, ValidWake, Target, Retains;
  }

  lemma UnrecoveredMeans(s: State, event: Wake, read: Read, w: Write, w2: Write)
    requires Ready(s.a) && s.recovery.Refetching?
    requires var wake := event.(position := s.recovery.wake.position);
             !Storable(s.a, s.recovery.id, wake) || (!w.Saved? && s.recovery.id !in s.a.wakes)
    ensures
      var t := RecoveryDispatched(s, event, read, w, w2);
      t == s.(recovery := NoRecovery, a := s.a.(disk := t.a.disk))
  {
    RetainFails(s, s.recovery.id, event.(position := s.recovery.wake.position), w);
    hide Ready, Retained, Storable, AfterAdmission;
  }

  /**
    A handoff whose read target cannot be stored is not repeated: the model has the message, so the reservation stays,
    but the wake stays on the list of the next pass, too.
   */
  lemma UnqueuedAdmission(log: set<Entry>, s: State, conversationId: string, target: ReadTarget, w: Write)
    requires Ready(s.a) && s.recovery.Admitting? && !w.Saved?
    requires ValidCursor(s.recovery.wake.position) && ValidRead(conversationId, target)
    ensures
      var t := AfterAdmission(s, s.recovery.id, s.recovery.wake.position, Some((conversationId, target)), w);
      && Goes(log, s, Admitted(Some((conversationId, target)), w), t)
      && t == s.(recovery := NoRecovery, a := s.a.(disk := t.a.disk))
  {
    AdmissionGoes(log, s, Some((conversationId, target)), w);
    QueuedMeans(s.a, s.recovery.wake.position, Some((conversationId, target)), w);
    hide Ready, ValidCursor, ValidRead, QueueAfterHandoff, Queues, Goes;
  }

  /** A recovered wake that was reserved in the meantime is not handed over again, and comes off the list. */
  lemma ReservedRecoveryMeans(s: State, event: Wake, w: Write, w2: Write)
    requires Ready(s.a) && s.recovery.Refetching? && s.recovery.id in s.a.wakes && s.recovery.id in s.a.admitted
    requires SameEvent(s.a.wakes[s.recovery.id], event.(position := s.recovery.wake.position))
    ensures
      var t := RecoveryDispatched(s, event, None, w, w2);
      t == s.(recovery := FlushingAfter(s.recovery.id), h := t.h)
  {
    StorableAgain(s, event.(position := s.recovery.wake.position));
    RetainedMeans(s, s.recovery.id, event.(position := s.recovery.wake.position), w);
    hide Ready, Retained, Storable, Holds, SameEvent;
  }

  /** A position that is no cursor goes with no read target. */
  lemma RefusedPosition(a: Adapter, position: Cursor, read: Read, w: Write)
    requires !ValidCursor(position) && read.Some?
    ensures QueueAfterHandoff(a, position, read, w) == (a, false)
  {
    hide ValidCursor;
  }

  /** An event is deferred exactly if a pass that began now could take up a wake of its conversation. */
  lemma DeferredExactly(log: set<Entry>, s: State, conversationId: string)
    requires s.recovery.NoRecovery?
    ensures
      var pass := Apply(log, s, PassBegins);
      HasPendingAdmission(s, conversationId) <==>
        exists id :: id in pass.batch && Enabled(log, pass, Take(id)) && pass.batch[id].conversationId == conversationId
  {
    var pass := Apply(log, s, PassBegins);
    assert forall id :: id in pass.batch && Enabled(log, pass, Take(id)) <==>
                        id in s.admissions && id in s.a.wakes && id !in s.a.admitted;
    assert forall id :: id in pass.batch ==> pass.batch[id] == s.a.wakes[id];
  }

  /** The recovery of a wake whose context was fetched again: reserved, handed over, off the admission list, still stored. */
  lemma RecoveryServes(log: set<Entry>, s: State, event: Wake, read: Read) returns (t1: State, t2: State, t3: State)
    requires Ready(s.a) && s.recovery.Refetching? && Readable(read) && ValidCursor(s.recovery.wake.position)
    requires s.recovery.id in s.a.wakes && s.recovery.id !in s.a.admitted
    requires SameEvent(s.a.wakes[s.recovery.id], event.(position := s.recovery.wake.position))
    ensures Goes(log, s, Refetched(event, read, Saved, Saved), t1)
    ensures Goes(log, t1, Admitted(read, Saved), t2) && Goes(log, t2, RecoveryEnds, t3)
    ensures t1.recovery == Admitting(s.recovery.id, s.recovery.wake, true) && t1.a == s.a.(admitted := s.a.admitted + {s.recovery.id})
    ensures t2.recovery == FlushingAfter(s.recovery.id) && Queues(t1.a, t2.a, s.recovery.wake.position, read)
    ensures t3 == t2.(recovery := NoRecovery, admissions := s.admissions - {s.recovery.id})
    ensures s.recovery.id in t3.a.wakes && s.recovery.id in t3.a.admitted
  {
    hide *;
    t1 := RefetchedServes(log, s, event, read);
    ReservedIsReady(s.a, s.recovery.id);
    t2 := AdmittedServes(log, t1, read);
    t3 := FlushedRecoveryServes(log, t2);
    QueuesKeeps(t1.a, t2.a, s.recovery.wake.position, read);
  }

  lemma RefetchedServes(log: set<Entry>, s: State, event: Wake, read: Read) returns (t: State)
    requires Ready(s.a) && s.recovery.Refetching?
    requires s.recovery.id in s.a.wakes && s.recovery.id !in s.a.admitted
    requires SameEvent(s.a.wakes[s.recovery.id], event.(position := s.recovery.wake.position))
    ensures Goes(log, s, Refetched(event, read, Saved, Saved), t)
    ensures t == s.(recovery := Admitting(s.recovery.id, s.recovery.wake, true), h := t.h,
                    a := s.a.(admitted := s.a.admitted + {s.recovery.id}))
  {
    var id := s.recovery.id;
    t := RecoveryDispatched(s, event, read, Saved, Saved);
    hide Kept, Retained, Holds, Storable, Goes, AfterAdmission, SameEvent;
    RecoveryGoes(log, s, event, read, Saved, Saved);
    StorableAgain(s, event.(position := s.recovery.wake.position));
    RetainedMeans(s, id, event.(position := s.recovery.wake.position), Saved);
  }

  lemma AdmittedServes(log: set<Entry>, s: State, read: Read) returns (t: State)
    requires Ready(s.a) && s.recovery.Admitting? && Readable(read) && ValidCursor(s.recovery.wake.position)
    ensures Goes(log, s, Admitted(read, Saved), t)
    ensures t == s.(a := t.a, recovery := FlushingAfter(s.recovery.id)) && Queues(s.a, t.a, s.recovery.wake.position, read)
  {
    t := AfterAdmission(s, s.recovery.id, s.recovery.wake.position, read, Saved);
    hide Ready, ValidCursor, Queues, Readable, QueueAfterHandoff, Goes;
    AdmissionGoes(log, s, read, Saved);
    QueuedMeans(s.a, s.recovery.wake.position, read, Saved);
  }

  lemma FlushedRecoveryServes(log: set<Entry>, s: State) returns (t: State)
    requires s.recovery.FlushingAfter?
    ensures Goes(log, s, RecoveryEnds, t) && t == s.(recovery := NoRecovery, admissions := s.admissions - {s.recovery.id})
  {
    t := Apply(log, s, RecoveryEnds);
  }

  lemma ReservedIsReady(a: Adapter, id: string)
    requires Ready(a)
    ensures Ready(a.(admitted := a.admitted + {id}))
  {
    hide ValidReads, ValidWakes, ValidCursor, WellFormed;
  }

  lemma StorableAgain(s: State, event: Wake)
    requires s.recovery.Refetching? && s.recovery.id in s.a.wakes && SameEvent(s.a.wakes[s.recovery.id], event)
    ensures Storable(s.a, s.recovery.id, event)
    ensures forall b :: Holds(s.a, b, s.recovery.id, event) ==> b == s.a
  {
    hide ValidWake, Target;
  }

  /** A wake whose message no longer wakes anybody is dropped for good; when that cannot be written, it stays on the list. */
  lemma RecoveryDeclinedMeans(log: set<Entry>, s: State, w: Write, t: State)
    requires Ready(s.a) && s.recovery.Refetching? && s.recovery.id in s.a.wakes && Goes(log, s, RecoveryDeclined(w), t)
    ensures t.recovery.NoRecovery? && t.watch == s.watch
    ensures
      if w.Saved? then
        Durable(t.a) && t.a.wakes == s.a.wakes - {s.recovery.id} && t.admissions == s.admissions - {s.recovery.id}
      else t.a == s.a.(disk := t.a.disk) && t.admissions == s.admissions
  {
    hide Ready, Kept, Goes, Complete;
    assert Kept(s.a) && s.a.cursor.Some? by { ReadyParts(s.a); }
    Declining(log, s, w, t);
    CompleteMeans(s.a, s.recovery.id, w);
  }

  lemma Declining(log: set<Entry>, s: State, w: Write, t: State)
    requires s.recovery.Refetching? && Goes(log, s, RecoveryDeclined(w), t)
    ensures
      var (b, ok) := Complete(s.a, s.recovery.id, w);
      && t == s.(a := b, recovery := NoRecovery, h := t.h, admissions := t.admissions)
      && t.admissions == (if ok then s.admissions - {s.recovery.id} else s.admissions)
  {
    hide Complete;
  }

  /** A recovery that ends before its handoff returned gives the reservation back and stays on the list. */
  lemma EndedRecoveryIsFree(log: set<Entry>, s: State)
    requires !s.recovery.FlushingAfter?
    ensures
      var t := Apply(log, s, RecoveryEnds);
      && t == s.(recovery := NoRecovery, a := s.a.(admitted := t.a.admitted))
      && t.a.admitted == (if s.recovery.Admitting? && s.recovery.reserved then s.a.admitted - {s.recovery.id} else s.a.admitted)
  {
  }

  // ---------------------------------------------------------------------------------------------
  // Turns and restarts
  // ---------------------------------------------------------------------------------------------

  /** A turn that ends without a decision gives its reservation back and leaves the wake stored. */
  lemma TurnEndedMeans(log: set<Entry>, s: State, id: string)
    ensures Apply(log, s, TurnEnded(id)) == s.(a := s.a.(admitted := s.a.admitted - {id}))
  {
  }

  /** Read targets are advanced and parked at any time, beside all of this. */
  lemma ReadsMean(log: set<Entry>, s: State, conversationId: string, target: ReadTarget, w: Write)
    ensures Goes(log, s, ReadAdvanced(conversationId, target, w), s.(a := CompleteRead(s.a, conversationId, target, w).0))
    ensures Goes(log, s, ReadParked(conversationId, target), s.(a := Park(s.a, conversationId, target)))
    ensures Enabled(log, s, RecoveryEnds) && Enabled(log, s, WatchEnds) && Enabled(log, s, TurnEnded(conversationId))
  {
    hide CompleteRead, Park;
  }

  /** A watch starts at the checkpoint. */
  lemma SpawnMeans(log: set<Entry>, s: State)
    requires Enabled(log, s, Spawn)
    ensures Apply(log, s, Spawn) == s.(watch := Watching(s.a.cursor.value, {}, Waiting))
  {
  }

  /**
    Reconnecting admits again every wake of the file; a restart has no reservations, a reconnect keeps those of turns
    that may still run.
   */
  lemma ReconnectedMeans(log: set<Entry>, s: State, bootstrap: Cursor, restarted: bool, w: Write, t: State)
    requires Kept(s.a) && s.a.disk.Some? && Goes(log, s, Reconnected(bootstrap, restarted, w), t)
    requires w.Saved? || s.a.disk.value.cursor.epoch == bootstrap.epoch
    ensures t.watch.NoWatch? && t.recovery.NoRecovery? && t.batch == map[]
    ensures t.a.wakes == s.a.disk.value.wakes && t.a.targets == s.a.disk.value.targets && t.a.parked == map[]
    ensures t.admissions == t.a.wakes.Keys && t.a.admitted == (if restarted then {} else s.a.admitted)
    ensures t.a.cursor == Some(if s.a.disk.value.cursor.epoch == bootstrap.epoch then s.a.disk.value.cursor else bootstrap)
  {
    hide Kept, ValidCursor, Connect, Goes;
    Reconnecting(log, s, bootstrap, restarted, w, t);
    var a0 := if restarted then s.a.(admitted := {}) else s.a;
    assert Kept(a0) by { StillKept(s.a); }
    ConnectMeans(a0, bootstrap, w);
  }

  lemma Reconnecting(log: set<Entry>, s: State, bootstrap: Cursor, restarted: bool, w: Write, t: State)
    requires Goes(log, s, Reconnected(bootstrap, restarted, w), t)
    ensures t == Connected(s, bootstrap, restarted, w) && ValidCursor(bootstrap)
  {
    hide Connected, ValidCursor;
  }

  lemma Resyncing(log: set<Entry>, s: State, bootstrap: Cursor, w: Write, t: State)
    requires Goes(log, s, Resync(bootstrap, w), t)
    ensures t == WithBootstrap(s, bootstrap, w) && ValidCursor(bootstrap)
  {
    hide WithBootstrap, ValidCursor;
  }

  lemma StillKept(a: Adapter)
    requires Kept(a)
    ensures Kept(a.(admitted := {}))
  {
    hide ValidReads, ValidWakes, ValidCursor, WellFormed;
  }

  /** A resynchronization moves the checkpoint to the bootstrap, and what lies below is not owed any more. */
  lemma ResyncMeans(log: set<Entry>, s: State, bootstrap: Cursor, t: State)
    requires Kept(s.a) && Goes(log, s, Resync(bootstrap, Saved), t)
    ensures t.a == s.a.(cursor := Some(bootstrap), needsMigration := false, disk := t.a.disk) && Durable(t.a)
    ensures bootstrap.epoch in t.h.floor && t.h.floor[bootstrap.epoch] >= Num(bootstrap.sequence)
    ensures t == s.(a := t.a, h := s.h.(floor := t.h.floor))
  {
    hide Kept, ValidCursor, Persist, Goes;
    Resyncing(log, s, bootstrap, Saved, t);
    PersistMeans(s.a, bootstrap, Saved);
  }

  // ---------------------------------------------------------------------------------------------
  // The history
  // ---------------------------------------------------------------------------------------------

  /** The step asks for the completion of the stored wake `id`. */
  predicate Completes(s: State, step: Step, id: string)
  {
    id in s.a.wakes && ((step.TurnSucceeded? && step.id == id) || (step.RecoveryDeclined? && s.recovery.Refetching? && s.recovery.id == id))
  }

  /** The step passes the event over, or hands it over as no ambient wake. */
  predicate Declines(s: State, step: Step, e: Entry)
  {
    && s.watch.Watching?
    && match s.watch.phase
       case Deciding(entry) => step.Ignore? && entry == e
       case HandingOver(entry, ambient, _) => step.HandedOver? && entry == e && !ambient
       case _ => false
  }

  ghost predicate Honest(s: State, step: Step, t: State)
  {
    && (forall id :: id in t.h.completed && id !in s.h.completed ==> Completes(s, step, id))
    && (forall e :: e in t.h.declined && e !in s.h.declined ==> Declines(s, step, e))
    && (forall id :: id in t.h.tracked && id !in s.h.tracked ==> id in t.a.wakes)
    && (t.h.floor != s.h.floor ==> exists b :: Bootstraps(s, step, b) && Lifted(s.h.floor, b, t.h.floor))
  }

  /** The step starts over at the bootstrap position: a resynchronization, a first connection, or one in a new epoch. */
  predicate Bootstraps(s: State, step: Step, b: Cursor)
  {
    match step
    case Resync(bootstrap, _) => b == bootstrap
    case Reconnected(bootstrap, _, _) => b == bootstrap && (s.a.disk.Some? ==> s.a.disk.value.cursor.epoch != b.epoch)
    case _ => false
  }

  /** The floor of the bootstrap's epoch is its sequence now, where it was lower or none; any other floor is as before. */
  predicate Lifted(floor: map<string, nat>, b: Cursor, lifted: map<string, nat>)
  {
    lifted == floor[b.epoch := Num(b.sequence)] && (b.epoch in floor ==> floor[b.epoch] < Num(b.sequence))
  }

  lemma SameIsHonest(s: State, step: Step, t: State)
    requires t.h == s.h
    ensures Honest(s, step, t)
  {
  }

  /** What follows a retention leaves the history and the wakes alone. */
  predicate Follows(s: State, t: State)
  {
    t.h == s.h && t.a.wakes == s.a.wakes
  }

  lemma TailFollows(s: State, e: Entry, id: string, position: Cursor, read: Read, w: Write)
    ensures s.watch.Watching? ==> Follows(s, Accept(s, e, w)) && Follows(s, AfterHandoff(s, e, read, w))
    ensures Follows(s, AfterAdmission(s, id, position, read, w))
  {
    AdvanceMoves(s.a, e.position, w);
    QueueTail(s.a, e.position, read, w);
    QueueTail(s.a, position, read, w);
    hide Advance, QueueAfterHandoff;
  }

  lemma QueueTail(a: Adapter, position: Cursor, read: Read, w: Write)
    ensures QueueAfterHandoff(a, position, read, w).0.wakes == a.wakes
  {
    if read.Some? && CheckpointAfterHandoff(a, position).Some? {
      QueueMoves(a, CheckpointAfterHandoff(a, position).value, read.value.0, read.value.1, w);
    }
    hide QueueRead, CheckpointAfterHandoff;
  }

  lemma RetentionIsHonest(s: State, step: Step, id: string, event: Wake, w: Write)
    requires Kept(s.a)
    ensures Honest(s, step, Retained(s, id, event, w).0)
    ensures Retained(s, id, event, w).0.watch == s.watch && Retained(s, id, event, w).0.recovery == s.recovery
  {
    hide Kept, Retain, Completes, Declines;
    RetainedIsStored(s.a, id, event, w);
  }

  lemma RetainedIsStored(a: Adapter, id: string, event: Wake, w: Write)
    requires Kept(a)
    ensures Retain(a, id, event, w).1.None? ==> id in Retain(a, id, event, w).0.wakes
  {
    hide Kept, Retain, Target;
    var (b, failure) := Retain(a, id, event, w);
    RetainShape(a, id, event, w, b, failure);
  }

  lemma FollowingIsHonest(s: State, step: Step, m: State, t: State)
    requires Honest(s, step, m) && Follows(m, t)
    ensures Honest(s, step, t)
  {
  }

  lemma DispatchIsHonest(s: State, step: Step, event: Wake, read: Read, w: Write, w2: Write)
    requires Kept(s.a) && s.watch.Watching? && s.watch.phase.Deciding?
    ensures Honest(s, step, Dispatched(s, event, read, w, w2)) && Honest(s, step, Deferred(s, event, w, w2))
  {
    hide Kept, Honest, Accept, AfterHandoff, Retained;
    var e := s.watch.phase.entry;
    RetentionIsHonest(s, step, e.id, event.(position := e.position), w);
    var t := Retained(s, e.id, event.(position := e.position), w).0;
    var joined := t.(admissions := t.admissions + {e.id});
    TailFollows(t, e, e.id, e.position, read, w2);
    TailFollows(joined, e, e.id, e.position, read, w2);
    FollowingIsHonest(s, step, t, Dispatched(s, event, read, w, w2));
    FollowingIsHonest(s, step, t, Deferred(s, event, w, w2));
  }

  lemma RecoveryIsHonest(s: State, step: Step, event: Wake, read: Read, w: Write, w2: Write)
    requires Kept(s.a) && s.recovery.Refetching?
    ensures Honest(s, step, RecoveryDispatched(s, event, read, w, w2))
  {
    hide Kept, Honest, AfterAdmission, Retained;
    var id, wake := s.recovery.id, s.recovery.wake;
    RetentionIsHonest(s, step, id, event.(position := wake.position), w);
    var t := Retained(s, id, event.(position := wake.position), w).0;
    TailFollows(t, Entry(id, wake.position), id, wake.position, read, w2);
    FollowingIsHonest(s, step, t, RecoveryDispatched(s, event, read, w, w2));
  }

  lemma CompletionIsHonest(s: State, step: Step, id: string, w: Write, admissions: set<string>, recovery: Recovery)
    requires id in s.a.wakes ==> Completes(s, step, id)
    ensures Honest(s, step, Completed(s, id, w).(recovery := recovery, admissions := admissions))
  {
    hide Complete, Completes, Declines;
  }

  lemma DecliningIsHonest(s: State, step: Step, e: Entry, read: Read, w: Write)
    requires s.watch.Watching? && Declines(s, step, e)
    ensures Honest(s, step, Accept(Declined(s, e), e, w)) && Honest(s, step, AfterHandoff(Declined(s, e), e, read, w))
  {
    hide Accept, AfterHandoff, Declines, Completes;
    TailFollows(Declined(s, e), e, e.id, e.position, read, w);
  }

  lemma WatchIsHonest(log: set<Entry>, s: State, step: Step)
    requires Enabled(log, s, step) && Kept(s.a)
    requires step.Ignore? || step.Defer? || step.Fetched? || step.HandedOver? || step.Flushed?
    ensures Honest(s, step, Apply(log, s, step))
  {
    hide Kept, Honest, Accept, AfterHandoff, Dispatched, Deferred, HasPendingAdmission;
    var e := s.watch.phase.entry;
    match step
    case Ignore(w) => DecliningIsHonest(s, step, e, None, w);
    case Defer(event, w, w2) => DispatchIsHonest(s, step, event, None, w, w2);
    case Fetched(ambient, event, read, w, w2) =>
      DispatchIsHonest(s, step, event, read, w, w2);
      if !ambient { SameIsHonest(s, step, Apply(log, s, step)); }
    case HandedOver(read, w) =>
      if s.watch.phase.ambient {
        TailFollows(s, e, e.id, e.position, read, w);
        SameIsHonest(s, step, AfterHandoff(s, e, read, w));
      } else {
        DecliningIsHonest(s, step, e, read, w);
      }
    case Flushed(w) =>
      TailFollows(s, e, e.id, e.position, None, w);
      SameIsHonest(s, step, Accept(s, e, w));
  }

  /**
    The history that excuses an event records nothing that did not happen: a completion only of a stored wake by its own
    turn or recovery, a declined event only where it was passed over or handed over plainly, a tracked wake only where it is
    stored, and a floor only by a bootstrap.
   */
  lemma HistoryIsHonest(log: set<Entry>, s: State, step: Step)
    requires Enabled(log, s, step) && Kept(s.a)
    ensures Honest(s, step, Apply(log, s, step))
  {
    hide Kept, Accept, AfterHandoff, AfterAdmission, Dispatched, Deferred, RecoveryDispatched, HasPendingAdmission, Completed,
         Connect, CompleteRead, Park, Persist, NextOutput, ValidCursor, WithBootstrap, Connected;
    match step
    case Resync(b, w) => BootstrapIsHonest(s, step, b, false, w);
    case Reconnected(b, restarted, w) => BootstrapIsHonest(s, step, b, restarted, w);
    case Ignore(_) => WatchIsHonest(log, s, step);
    case Defer(_, _, _) => WatchIsHonest(log, s, step);
    case Fetched(_, _, _, _, _) => WatchIsHonest(log, s, step);
    case HandedOver(_, _) => WatchIsHonest(log, s, step);
    case Flushed(_) => WatchIsHonest(log, s, step);
    case RecoveryDeclined(w) =>
      var discarded := if Complete(s.a, s.recovery.id, w).1 then {s.recovery.id} else {};
      CompletionIsHonest(s, step, s.recovery.id, w, s.admissions - discarded, NoRecovery);
    case Refetched(event, read, w, w2) => RecoveryIsHonest(s, step, event, read, w, w2);
    case Admitted(read, w) => TailFollows(s, Entry(s.recovery.id, s.recovery.wake.position), s.recovery.id, s.recovery.wake.position, read, w);
    case TurnSucceeded(id, w) => CompletionIsHonest(s, step, id, w, s.admissions, s.recovery); TurnLeaves(s, id, w);
    case _ =>
  }

  lemma BootstrapIsHonest(s: State, step: Step, b: Cursor, restarted: bool, w: Write)
    ensures step == Resync(b, w) ==> Honest(s, step, WithBootstrap(s, b, w))
    ensures step == Reconnected(b, restarted, w) ==> Honest(s, step, Connected(s, b, restarted, w))
  {
    hide Connect, Persist, Completes, Declines;
    assert Lift(s.h.floor, b) != s.h.floor ==> Lifted(s.h.floor, b, Lift(s.h.floor, b));
  }

  lemma TurnLeaves(s: State, id: string, w: Write)
    ensures Completed(s, id, w).recovery == s.recovery && Completed(s, id, w).admissions == s.admissions
  {
  }
}
