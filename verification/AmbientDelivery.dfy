/**
  The tasks of the Hermes adapter around its checkpoint (integrations/hermes-hype-comms/adapter.py):
  the watch consumer, the recovery pass, read-cursor flushes and model turns interleave at their
  await points, every write can fail before or after it replaced the file, and the process can stop
  and start again at any point.

  The log is the set of events that the server will ever make visible; watch delivers them as
  module WatchLoop proves of the CLI, without a gap above the position it was spawned with.
 */
module AmbientDelivery {
  import opened Wrappers
  import opened Decimals
  import opened CheckpointFile
  import opened Checkpoint

  datatype Entry = Entry(id: string, position: Cursor)

  datatype WatchPhase =
    | Waiting
    | Deciding(entry: Entry)
    | HandingOver(entry: Entry, ambient: bool, reserved: bool)
    | Flushing(entry: Entry)

  datatype Watch = NoWatch | Watching(after: Cursor, delivered: set<Entry>, phase: WatchPhase)

  datatype Recovery =
    | NoRecovery
    | Refetching(id: string, wake: Wake)
    | Admitting(id: string, wake: Wake, reserved: bool)
    | FlushingAfter(id: string)

  /**
    What happened so far. `floor`: per epoch, the position that a bootstrap declared caught up.
    `declined`: events whose dispatch ended without an ambient wake. `completed`: wakes whose
    completion was asked for. `tracked`: wakes retained since and not completed.
   */
  datatype History = History(
    floor: map<string, nat>, declined: set<Entry>, completed: set<string>, tracked: set<string>)

  datatype State = State(
    a: Adapter, watch: Watch, recovery: Recovery, batch: map<string, Wake>, admissions: set<string>, h: History)

  /** The read target of a handed-over context, when the token may write read cursors. */
  type Read = Option<(string, ReadTarget)>

  datatype Step =
    | Spawn
    | Receive(entry: Entry)
    | Ignore(w: Write)
    | Defer(event: Wake, w: Write, w2: Write)
    | Fetched(ambient: bool, event: Wake, read: Read, w: Write, w2: Write)
    | HandedOver(read: Read, w: Write)
    | Flushed(w: Write)
    | WatchEnds
    | Resync(bootstrap: Cursor, w: Write)
    | PassBegins
    | Take(id: string)
    | RecoveryDeclined(w: Write)
    | Refetched(event: Wake, read: Read, w: Write, w2: Write)
    | Admitted(read: Read, w: Write)
    | RecoveryEnds
    | TurnSucceeded(id: string, w: Write)
    | TurnEnded(id: string)
    | ReadAdvanced(conversationId: string, target: ReadTarget, w: Write)
    | ReadParked(conversationId: string, target: ReadTarget)
    | Reconnected(bootstrap: Cursor, restarted: bool, w: Write)

  // ---------------------------------------------------------------------------------------------
  // Positions
  // ---------------------------------------------------------------------------------------------

  predicate Covers(c: Cursor, e: Entry)
  {
    e.position.epoch == c.epoch && Num(e.position.sequence) <= Num(c.sequence)
  }

  predicate StrictlyBelow(e: Entry, f: Entry)
  {
    e.position.epoch == f.position.epoch && Num(e.position.sequence) < Num(f.position.sequence)
  }

  /** Positions are valid and name one event each. */
  ghost predicate LogOk(log: set<Entry>)
  {
    && (forall e :: e in log ==> ValidCursor(e.position))
    && (forall e, f :: e in log && f in log && Covers(e.position, f) && Covers(f.position, e) ==> e == f)
  }

  function Lift(floor: map<string, nat>, c: Cursor): map<string, nat>
  {
    if c.epoch in floor && floor[c.epoch] >= Num(c.sequence) then floor else floor[c.epoch := Num(c.sequence)]
  }

  predicate Excused(h: History, e: Entry)
  {
    e.position.epoch in h.floor && Num(e.position.sequence) <= h.floor[e.position.epoch]
  }

  /** The event needs no further delivery by watch. */
  predicate Done(h: History, e: Entry)
  {
    Excused(h, e) || e in h.declined || e.id in h.completed || e.id in h.tracked
  }

  ghost predicate Passed(log: set<Entry>, h: History, c: Cursor)
  {
    forall e :: e in log && Covers(c, e) ==> Done(h, e)
  }

  /** Everything at or below a wake's position is done, but for the wake's own event. */
  ghost predicate Anchored(log: set<Entry>, h: History, id: string, c: Cursor)
  {
    forall e :: e in log && Covers(c, e) ==> Done(h, e) || e.id == id
  }

  ghost predicate Below(log: set<Entry>, h: History, e: Entry)
  {
    forall f :: f in log && StrictlyBelow(f, e) ==> Done(h, f)
  }

  // ---------------------------------------------------------------------------------------------
  // Steps
  // ---------------------------------------------------------------------------------------------

  /** The promise of the watch process: what it prints next leaves no event above its start out. */
  ghost predicate NextOutput(log: set<Entry>, watch: Watch, e: Entry)
    requires watch.Watching?
  {
    && e in log && e.position.epoch == watch.after.epoch
    && forall f :: f in log && StrictlyBelow(f, e) && !Covers(watch.after, f) ==> f in watch.delivered
  }

  /** `_has_pending_ambient_admission`. */
  predicate HasPendingAdmission(s: State, conversationId: string)
  {
    exists id :: id in s.admissions && id !in s.a.admitted && id in s.a.wakes
                 && s.a.wakes[id].conversationId == conversationId
  }

  ghost predicate Enabled(log: set<Entry>, s: State, step: Step)
  {
    match step
    case Spawn => s.watch.NoWatch? && s.a.cursor.Some?
    case Receive(e) => s.watch.Watching? && s.watch.phase.Waiting? && NextOutput(log, s.watch, e)
    case Ignore(_) => s.watch.Watching? && s.watch.phase.Deciding?
    case Defer(event, _, _) =>
      s.watch.Watching? && s.watch.phase.Deciding? && HasPendingAdmission(s, event.conversationId)
    case Fetched(_, _, _, _, _) => s.watch.Watching? && s.watch.phase.Deciding?
    case HandedOver(_, _) => s.watch.Watching? && s.watch.phase.HandingOver?
    case Flushed(_) => s.watch.Watching? && s.watch.phase.Flushing?
    case WatchEnds => true
    case Resync(bootstrap, _) => s.watch.NoWatch? && ValidCursor(bootstrap)
    case PassBegins => s.recovery.NoRecovery?
    case Take(id) => s.recovery.NoRecovery? && id in s.batch && id in s.a.wakes && id !in s.a.admitted
    case RecoveryDeclined(_) => s.recovery.Refetching?
    case Refetched(_, _, _, _) => s.recovery.Refetching?
    case Admitted(_, _) => s.recovery.Admitting?
    case RecoveryEnds => true
    case TurnSucceeded(_, _) => true
    case TurnEnded(_) => true
    case ReadAdvanced(_, _, _) => true
    case ReadParked(_, _) => true
    case Reconnected(bootstrap, _, _) => ValidCursor(bootstrap)
  }

  /** An exception leaves `_consume_watch`; a reservation made before the handoff is given back. */
  function EndWatch(s: State): State
  {
    if s.watch.Watching? && s.watch.phase.HandingOver? && s.watch.phase.reserved then
      s.(watch := NoWatch, a := s.a.(admitted := s.a.admitted - {s.watch.phase.entry.id}))
    else s.(watch := NoWatch)
  }

  function EndRecovery(s: State): State
  {
    if s.recovery.Admitting? && s.recovery.reserved then
      s.(recovery := NoRecovery, a := s.a.(admitted := s.a.admitted - {s.recovery.id}))
    else s.(recovery := NoRecovery)
  }

  /** The end of `_accept_event`. */
  function Accept(s: State, e: Entry, w: Write): State
    requires s.watch.Watching?
  {
    var (a, ok) := Advance(s.a, e.position, w);
    s.(a := a, watch := if ok then s.watch.(phase := Waiting) else NoWatch)
  }

  function Received(s: State, e: Entry): State
    requires s.watch.Watching?
  {
    var heard := s.(watch := s.watch.(delivered := s.watch.delivered + {e}));
    if s.a.cursor.Some? && s.a.cursor.value.epoch != e.position.epoch then s.(watch := NoWatch)
    else if s.a.cursor.Some? && CompareDecimalStrings(e.position.sequence, s.a.cursor.value.sequence) <= 0 then heard
    else heard.(watch := heard.watch.(phase := Deciding(e)))
  }

  function Track(h: History, id: string, a: Adapter): History
  {
    if a.disk.Some? && id in a.disk.value.wakes then h.(tracked := h.tracked + {id}) else h
  }

  /** `_retain_ambient_wake` and its trace in the history. */
  ghost function Retained(s: State, id: string, event: Wake, w: Write): (State, bool)
  {
    var (a, failure) := Retain(s.a, id, event, w);
    (s.(a := a, h := if failure.None? then Track(s.h, id, a) else s.h), failure.None?)
  }

  /** `_complete_ambient_wake` and its trace in the history. */
  function Completed(s: State, id: string, w: Write): State
  {
    s.(a := Complete(s.a, id, w).0,
       h := if id in s.a.wakes then
              s.h.(completed := s.h.completed + {id}, tracked := s.h.tracked - {id})
            else s.h)
  }

  function Declined(s: State, e: Entry): State
  {
    s.(h := s.h.(declined := s.h.declined + {e}))
  }

  /** What follows a handoff: the read target is queued together with the checkpoint, or nothing is. */
  function QueueAfterHandoff(a: Adapter, position: Cursor, read: Read, w: Write): (Adapter, bool)
  {
    match read
    case None => (a, true)
    case Some((conversationId, target)) =>
      match CheckpointAfterHandoff(a, position)
      case None => (a, false)
      case Some(c) => QueueRead(a, c, conversationId, target, w)
  }

  function AfterHandoff(s: State, e: Entry, read: Read, w: Write): State
    requires s.watch.Watching?
  {
    var (a, ok) := QueueAfterHandoff(s.a, e.position, read, w);
    s.(a := a, watch := if ok then s.watch.(phase := Flushing(e)) else NoWatch)
  }

  function AfterAdmission(s: State, id: string, position: Cursor, read: Read, w: Write): State
  {
    var (a, ok) := QueueAfterHandoff(s.a, position, read, w);
    s.(a := a, recovery := if ok then FlushingAfter(id) else NoRecovery)
  }

  /** The branch of `_dispatch_message` that stores a newer wake behind an unfinished admission. */
  ghost function Deferred(s: State, event: Wake, w: Write, w2: Write): State
    requires s.watch.Watching? && s.watch.phase.Deciding?
  {
    var e := s.watch.phase.entry;
    var (t, ok) := Retained(s, e.id, event.(position := e.position), w);
    if ok then Accept(t.(admissions := t.admissions + {e.id}), e, w2) else t.(watch := NoWatch)
  }

  /** The context was fetched: retain, reserve, hand over; a reserved wake is not handed over twice. */
  ghost function Dispatched(s: State, event: Wake, read: Read, w: Write, w2: Write): State
    requires s.watch.Watching? && s.watch.phase.Deciding?
  {
    var e := s.watch.phase.entry;
    var (t, ok) := Retained(s, e.id, event.(position := e.position), w);
    if !ok then t.(watch := NoWatch)
    else if e.id in t.a.admitted then AfterHandoff(t, e, read, w2)
    else
      t.(a := t.a.(admitted := t.a.admitted + {e.id}),
         watch := t.watch.(phase := HandingOver(e, true, true)))
  }

  ghost function RecoveryDispatched(s: State, event: Wake, read: Read, w: Write, w2: Write): State
    requires s.recovery.Refetching?
  {
    var id, wake := s.recovery.id, s.recovery.wake;
    var (t, ok) := Retained(s, id, event.(position := wake.position), w);
    if !ok then t.(recovery := NoRecovery)
    else if id in t.a.admitted then AfterAdmission(t, id, wake.position, read, w2)
    else t.(a := t.a.(admitted := t.a.admitted + {id}), recovery := Admitting(id, wake, true))
  }

  function WithBootstrap(s: State, b: Cursor, w: Write): State
  {
    s.(a := Persist(s.a, b, w).0, h := if w.Failed? then s.h else s.h.(floor := Lift(s.h.floor, b)))
  }

  /** Reconnecting drops the tasks and reloads memory; only a restart forgets the reservations. */
  function Connected(s: State, b: Cursor, restarted: bool, w: Write): State
  {
    var a0 := if restarted then s.a.(admitted := {}) else s.a;
    var a := Connect(a0, b, w).0;
    var stays := s.a.disk.Some? && s.a.disk.value.cursor.epoch == b.epoch;
    State(a, NoWatch, NoRecovery, map[], a.wakes.Keys,
          s.h.(floor := if stays then s.h.floor else Lift(s.h.floor, b), tracked := s.h.tracked + a.wakes.Keys))
  }

  ghost function Apply(log: set<Entry>, s: State, step: Step): State
    requires Enabled(log, s, step)
  {
    match step
    case Spawn => s.(watch := Watching(s.a.cursor.value, {}, Waiting))
    case Receive(e) => Received(s, e)
    case Ignore(w) => Accept(Declined(s, s.watch.phase.entry), s.watch.phase.entry, w)
    case Defer(event, w, w2) => Deferred(s, event, w, w2)
    case Fetched(ambient, event, read, w, w2) =>
      if ambient then Dispatched(s, event, read, w, w2)
      else s.(watch := s.watch.(phase := HandingOver(s.watch.phase.entry, false, false)))
    case HandedOver(read, w) =>
      var e := s.watch.phase.entry;
      AfterHandoff(if s.watch.phase.ambient then s else Declined(s, e), e, read, w)
    case Flushed(w) => Accept(s, s.watch.phase.entry, w)
    case WatchEnds => EndWatch(s)
    case Resync(b, w) => WithBootstrap(s, b, w)
    case PassBegins => s.(batch := map id | id in s.a.wakes && id in s.admissions :: s.a.wakes[id])
    case Take(id) => s.(recovery := Refetching(id, s.batch[id]))
    case RecoveryDeclined(w) =>
      var discarded := if Complete(s.a, s.recovery.id, w).1 then {s.recovery.id} else {};
      Completed(s, s.recovery.id, w).(recovery := NoRecovery, admissions := s.admissions - discarded)
    case Refetched(event, read, w, w2) => RecoveryDispatched(s, event, read, w, w2)
    case Admitted(read, w) => AfterAdmission(s, s.recovery.id, s.recovery.wake.position, read, w)
    case RecoveryEnds =>
      if s.recovery.FlushingAfter? then s.(recovery := NoRecovery, admissions := s.admissions - {s.recovery.id})
      else EndRecovery(s)
    case TurnSucceeded(id, w) => Completed(s, id, w)
    case TurnEnded(id) => s.(a := s.a.(admitted := s.a.admitted - {id}))
    case ReadAdvanced(conversationId, t, w) => s.(a := CompleteRead(s.a, conversationId, t, w).0)
    case ReadParked(conversationId, t) => s.(a := Park(s.a, conversationId, t))
    case Reconnected(b, restarted, w) => Connected(s, b, restarted, w)
  }

  function Installed(): State
  {
    State(Adapter(None, map[], map[], map[], {}, false, None), NoWatch, NoRecovery, map[], {},
          History(map[], {}, {}, {}))
  }

  // ---------------------------------------------------------------------------------------------
  // Invariant
  // ---------------------------------------------------------------------------------------------

  /** Tracked wakes are in memory and in the file; what memory holds is tracked or was completed. */
  predicate Ledger(a: Adapter, h: History)
  {
    && Kept(a)
    && h.tracked <= a.wakes.Keys <= h.tracked + h.completed
    && (h.tracked != {} ==> a.disk.Some?)
    && (a.disk.Some? ==> h.tracked <= a.disk.value.wakes.Keys && Agree(a.wakes, a.disk.value.wakes))
  }

  predicate Agree(wakes: map<string, Wake>, stored: map<string, Wake>)
  {
    forall id :: id in wakes && id in stored ==> wakes[id] == stored[id]
  }

  ghost predicate AnchoredAll(log: set<Entry>, h: History, wakes: map<string, Wake>)
  {
    forall id :: id in wakes ==> Anchored(log, h, id, wakes[id].position)
  }

  ghost predicate Positions(log: set<Entry>, a: Adapter, h: History)
  {
    && (a.cursor.Some? ==> Passed(log, h, a.cursor.value))
    && AnchoredAll(log, h, a.wakes)
    && (a.disk.Some? ==> Passed(log, h, a.disk.value.cursor) && AnchoredAll(log, h, a.disk.value.wakes))
  }

  ghost predicate WatchOk(log: set<Entry>, watch: Watch, h: History)
  {
    watch.Watching? ==>
      && Passed(log, h, watch.after)
      && (forall e :: e in watch.delivered ==> Done(h, e) || (!watch.phase.Waiting? && e == watch.phase.entry))
      && (!watch.phase.Waiting? ==> watch.phase.entry in log && Below(log, h, watch.phase.entry))
      && (watch.phase.Flushing? ==> Done(h, watch.phase.entry))
      && (watch.phase.HandingOver? && watch.phase.ambient ==> Done(h, watch.phase.entry))
  }

  ghost predicate RecoveryOk(log: set<Entry>, recovery: Recovery, h: History)
  {
    && (recovery.Refetching? || recovery.Admitting? ==> Anchored(log, h, recovery.id, recovery.wake.position))
    && (recovery.Admitting? ==> recovery.id in h.tracked + h.completed)
  }

  ghost predicate Inv(log: set<Entry>, s: State)
  {
    && Ledger(s.a, s.h)
    && Positions(log, s.a, s.h)
    && WatchOk(log, s.watch, s.h)
    && RecoveryOk(log, s.recovery, s.h)
    && AnchoredAll(log, s.h, s.batch)
  }

  // ---------------------------------------------------------------------------------------------
  // History only grows
  // ---------------------------------------------------------------------------------------------

  predicate Grew(h: History, k: History)
  {
    && (forall epoch :: epoch in h.floor ==> epoch in k.floor && h.floor[epoch] <= k.floor[epoch])
    && h.declined <= k.declined
    && h.completed <= k.completed
    && h.tracked <= k.tracked + k.completed
  }

  lemma Grown(log: set<Entry>, s: State, k: History)
    requires Grew(s.h, k)
    ensures Positions(log, s.a, s.h) ==> Positions(log, s.a, k)
    ensures WatchOk(log, s.watch, s.h) ==> WatchOk(log, s.watch, k)
    ensures RecoveryOk(log, s.recovery, s.h) ==> RecoveryOk(log, s.recovery, k)
    ensures AnchoredAll(log, s.h, s.batch) ==> AnchoredAll(log, k, s.batch)
  {
    assert forall e :: Done(s.h, e) ==> Done(k, e);
  }

  lemma GrownAnchor(log: set<Entry>, h: History, k: History, id: string, c: Cursor)
    requires Grew(h, k)
    ensures Anchored(log, h, id, c) ==> Anchored(log, k, id, c)
    ensures Passed(log, h, c) ==> Passed(log, k, c)
  {
    assert forall e :: Done(h, e) ==> Done(k, e);
  }

  // ---------------------------------------------------------------------------------------------
  // What the writes keep
  // ---------------------------------------------------------------------------------------------

  /** A write that leaves the wakes alone and moves the checkpoint to `c` if anywhere. */
  predicate Moved(a: Adapter, b: Adapter, c: Cursor)
  {
    && b.wakes == a.wakes
    && (b.cursor == a.cursor || b.cursor == Some(c))
    && (b.disk == a.disk
        || (b.disk.Some? && b.disk.value.wakes == a.wakes
            && (b.disk.value.cursor == c || Some(b.disk.value.cursor) == a.cursor)))
  }

  lemma MovedKeeps(log: set<Entry>, a: Adapter, b: Adapter, h: History, c: Cursor)
    requires Ledger(a, h) && Positions(log, a, h) && Kept(b) && Moved(a, b, c) && Passed(log, h, c)
    ensures Ledger(b, h) && Positions(log, b, h)
  {
    hide Kept, Passed, AnchoredAll;
  }

  lemma AdvanceMoves(a: Adapter, c: Cursor, w: Write)
    ensures Moved(a, Advance(a, c, w).0, c)
  {
    hide ValidCursor;
  }

  lemma PersistMoves(a: Adapter, c: Cursor, w: Write)
    requires Kept(a)
    ensures Moved(a, Persist(a, c, w).0, c) && Kept(Persist(a, c, w).0)
    ensures w.Failed? ==> Persist(a, c, w).0 == a
  {
    hide ValidReads, ValidWakes, ValidCursor;
  }

  lemma QueueMoves(a: Adapter, c: Cursor, conversationId: string, t: ReadTarget, w: Write)
    ensures Moved(a, QueueRead(a, c, conversationId, t, w).0, c)
  {
    hide ValidCursor, ValidRead, Supersedes;
  }

  lemma CompleteReadMoves(a: Adapter, conversationId: string, t: ReadTarget, w: Write, c: Cursor)
    ensures Moved(a, CompleteRead(a, conversationId, t, w).0, c)
  {
    hide ValidCursor;
  }

  /** The checkpoint after a handoff is the handed-over position or the current one. */
  lemma QueueAfterHandoffKeeps(log: set<Entry>, a: Adapter, h: History, position: Cursor, read: Read, w: Write)
    requires Ledger(a, h) && Positions(log, a, h) && Passed(log, h, position)
    ensures
      var b := QueueAfterHandoff(a, position, read, w).0;
      Ledger(b, h) && Positions(log, b, h)
  {
    hide Kept, Passed, AnchoredAll, QueueRead, Moved, ValidCursor, CompareDecimalStrings;
    if read.Some? && CheckpointAfterHandoff(a, position).Some? {
      var c := CheckpointAfterHandoff(a, position).value;
      QueueMoves(a, c, read.value.0, read.value.1, w);
      QueueReadKeeps(a, c, read.value.0, read.value.1, w);
      MovedKeeps(log, a, QueueRead(a, c, read.value.0, read.value.1, w).0, h, c);
    }
  }

  lemma AcceptKeeps(log: set<Entry>, s: State, e: Entry, w: Write)
    requires Inv(log, s) && s.watch.Watching? && !s.watch.phase.Waiting? && s.watch.phase.entry == e && Done(s.h, e)
    requires LogOk(log)
    ensures Inv(log, Accept(s, e, w))
  {
    hide Kept, Advance, Moved, Done, Anchored;
    EntryIsPassed(log, s.h, e);
    AdvanceMoves(s.a, e.position, w);
    AdvanceKeeps(s.a, e.position, w);
    MovedKeeps(log, s.a, Advance(s.a, e.position, w).0, s.h, e.position);
  }

  lemma EntryIsAnchored(log: set<Entry>, h: History, e: Entry)
    requires LogOk(log) && e in log && Below(log, h, e)
    ensures Anchored(log, h, e.id, e.position)
  {
    forall f | f in log && Covers(e.position, f) ensures Done(h, f) || f.id == e.id {
      if !StrictlyBelow(f, e) { assert Covers(f.position, e); }
    }
  }

  lemma EntryIsPassed(log: set<Entry>, h: History, e: Entry)
    requires LogOk(log) && e in log && Below(log, h, e) && Done(h, e)
    ensures Passed(log, h, e.position)
  {
    forall f | f in log && Covers(e.position, f) ensures Done(h, f) {
      if !StrictlyBelow(f, e) { assert Covers(f.position, e); }
    }
  }

  lemma AnchorIsPassed(log: set<Entry>, h: History, id: string, c: Cursor)
    requires Anchored(log, h, id, c) && id in h.tracked + h.completed
    ensures Passed(log, h, c)
  {
  }

  // ---------------------------------------------------------------------------------------------
  // Retaining and completing
  // ---------------------------------------------------------------------------------------------

  /** What a retention does: nothing, or one new wake; the file is old or has the new wake. */
  lemma RetainShape(a: Adapter, id: string, event: Wake, w: Write, b: Adapter, failure: Option<Failure>)
    requires Kept(a) && Retain(a, id, event, w) == (b, failure)
    ensures Kept(b) && b.cursor == a.cursor
    ensures id in a.wakes ==> b == a && (failure.None? ==> a.wakes[id].position == event.position)
    ensures id !in a.wakes ==>
              var stored := a.wakes[id := Target(a.wakes, id, event)];
              && b.wakes == (if failure.None? then stored else a.wakes)
              && (failure.None? ==> a.cursor.Some? && b.disk == Some(Checkpoint(a.cursor.value, a.targets, stored)))
              && (b.disk == a.disk
                  || (a.cursor.Some? && b.disk == Some(Checkpoint(a.cursor.value, a.targets, stored))))
  {
    hide *;
    RetainKeeps(a, id, event, w);
    TargetPosition(a.wakes, id, event);
    if id in a.wakes || a.cursor.None? {
      AlreadyRetained(a, id, event, w);
    } else {
      NewlyRetained(a, id, event, w, b, failure);
    }
  }

  lemma AlreadyRetained(a: Adapter, id: string, event: Wake, w: Write)
    requires id in a.wakes || a.cursor.None?
    ensures Retain(a, id, event, w).0 == a
    ensures a.cursor.None? ==> Retain(a, id, event, w).1.Some?
    ensures Retain(a, id, event, w).1.None? ==> a.wakes[id] == Target(a.wakes, id, event)
  {
    hide ValidWake, Commit, Target;
  }

  lemma NewlyRetained(a: Adapter, id: string, event: Wake, w: Write, b: Adapter, failure: Option<Failure>)
    requires id !in a.wakes && a.cursor.Some? && Retain(a, id, event, w) == (b, failure)
    ensures
      var stored := a.wakes[id := Target(a.wakes, id, event)];
      && b.cursor == a.cursor
      && b.wakes == (if failure.None? then stored else a.wakes)
      && (failure.None? ==> b.disk == Some(Checkpoint(a.cursor.value, a.targets, stored)))
      && (b.disk == a.disk || b.disk == Some(Checkpoint(a.cursor.value, a.targets, stored)))
  {
    hide ValidWake, Commit, Target;
    CommitShape(a, a.(wakes := a.wakes[id := Target(a.wakes, id, event)]), a.cursor.value, w);
  }

  lemma TargetPosition(wakes: map<string, Wake>, id: string, event: Wake)
    ensures Target(wakes, id, event).position == event.position
  {
  }

  lemma RetainedKeeps(log: set<Entry>, s: State, id: string, event: Wake, w: Write)
    requires Ledger(s.a, s.h) && Positions(log, s.a, s.h) && Anchored(log, s.h, id, event.position)
    ensures
      var (t, ok) := Retained(s, id, event, w);
      && t == s.(a := t.a, h := t.h) && Grew(s.h, t.h)
      && Ledger(t.a, t.h) && Positions(log, t.a, t.h)
      && (ok ==> id in t.h.tracked + t.h.completed)
  {
    hide Kept, Retain, Passed, Anchored, Target;
    var (b, failure) := Retain(s.a, id, event, w);
    RetainShape(s.a, id, event, w, b, failure);
    TargetPosition(s.a.wakes, id, event);
    var (t, ok) := Retained(s, id, event, w);
    Grown(log, s, t.h);
    GrownAnchor(log, s.h, t.h, id, event.position);
  }

  lemma CompleteShape(a: Adapter, id: string, w: Write)
    requires Kept(a)
    ensures
      var (b, ok) := Complete(a, id, w);
      && Kept(b) && b.cursor == a.cursor
      && (b.wakes == a.wakes || b.wakes == Without(a.wakes, id))
      && (id !in a.wakes ==> b.wakes == a.wakes && b.disk == a.disk)
      && (b.disk == a.disk
          || (a.cursor.Some? && b.disk.Some? && b.disk.value.cursor == a.cursor.value
              && b.disk.value.wakes == Without(a.wakes, id)))
      && (b.wakes != a.wakes ==> b.disk.Some? && b.disk.value.wakes == Without(a.wakes, id))
  {
    CompleteKeeps(a, id, w);
    hide Kept, ValidCursor, Commit;
    if a.cursor.Some? { CommitShape(a, a.(wakes := Without(a.wakes, id)), a.cursor.value, w); }
  }

  lemma CompletedKeeps(log: set<Entry>, s: State, id: string, w: Write)
    requires Ledger(s.a, s.h) && Positions(log, s.a, s.h)
    ensures
      var t := Completed(s, id, w);
      t == s.(a := t.a, h := t.h) && Grew(s.h, t.h) && Ledger(t.a, t.h) && Positions(log, t.a, t.h)
  {
    hide Kept, Complete, Passed, Anchored;
    CompleteShape(s.a, id, w);
    var t := Completed(s, id, w);
    Grown(log, s, t.h);
  }

  // ---------------------------------------------------------------------------------------------
  // Every step keeps the invariant
  // ---------------------------------------------------------------------------------------------

  lemma ReceivedKeeps(log: set<Entry>, s: State, e: Entry)
    requires LogOk(log) && Inv(log, s) && Enabled(log, s, Receive(e))
    ensures Inv(log, Received(s, e))
  {
    hide Ledger, Done, Anchored;
    assert Below(log, s.h, e) by { NothingSkipped(log, s, e); }
    if s.a.cursor.Some? && s.a.cursor.value.epoch == e.position.epoch {
      Numeric(s, e);
    }
  }

  lemma Numeric(s: State, e: Entry)
    requires Ledger(s.a, s.h) && s.a.cursor.Some? && ValidCursor(e.position)
    requires s.a.cursor.value.epoch == e.position.epoch
    ensures CompareDecimalStrings(e.position.sequence, s.a.cursor.value.sequence) <= 0 <==> Covers(s.a.cursor.value, e)
  {
    assert AllDigits(e.position.sequence) && AllDigits(s.a.cursor.value.sequence);
    CompareIsNumeric(e.position.sequence, s.a.cursor.value.sequence);
  }

  /** Without a gap in the watch output, nothing below the next event is left out. */
  lemma NothingSkipped(log: set<Entry>, s: State, e: Entry)
    requires Inv(log, s) && Enabled(log, s, Receive(e))
    ensures Below(log, s.h, e)
  {
    hide Ledger, Positions, Done;
  }

  /** After a successful or refused retention inside the watch dispatch. */
  lemma WatchRetentionKeeps(log: set<Entry>, s: State, event: Wake, w: Write)
    requires LogOk(log) && Inv(log, s) && s.watch.Watching? && s.watch.phase.Deciding?
    ensures
      var e := s.watch.phase.entry;
      var (t, ok) := Retained(s, e.id, event.(position := e.position), w);
      t == s.(a := t.a, h := t.h) && Inv(log, t) && (ok ==> Done(t.h, e))
  {
    hide Kept, Retained, Passed, Anchored, Below;
    var e := s.watch.phase.entry;
    EntryIsAnchored(log, s.h, e);
    RetainedKeeps(log, s, e.id, event.(position := e.position), w);
    Grown(log, s, Retained(s, e.id, event.(position := e.position), w).0.h);
  }

  lemma DeferredKeeps(log: set<Entry>, s: State, event: Wake, w: Write, w2: Write)
    requires LogOk(log) && Inv(log, s) && s.watch.Watching? && s.watch.phase.Deciding?
    ensures Inv(log, Deferred(s, event, w, w2))
  {
    hide Ledger, Positions, RecoveryOk, AnchoredAll, Retained, Accept, Passed, Below, Done;
    var e := s.watch.phase.entry;
    WatchRetentionKeeps(log, s, event, w);
    var (t, ok) := Retained(s, e.id, event.(position := e.position), w);
    if ok { AcceptKeeps(log, t.(admissions := t.admissions + {e.id}), e, w2); }
  }

  lemma DispatchedKeeps(log: set<Entry>, s: State, event: Wake, read: Read, w: Write, w2: Write)
    requires LogOk(log) && Inv(log, s) && s.watch.Watching? && s.watch.phase.Deciding?
    ensures Inv(log, Dispatched(s, event, read, w, w2))
  {
    hide Ledger, Positions, RecoveryOk, AnchoredAll, Retained, AfterHandoff, Passed, Below, Done;
    var e := s.watch.phase.entry;
    WatchRetentionKeeps(log, s, event, w);
    var (t, ok) := Retained(s, e.id, event.(position := e.position), w);
    if ok {
      AfterHandoffKeeps(log, t, e, read, w2);
      AdmittedIsFree(log, t, t.a.(admitted := t.a.admitted + {e.id}));
    }
  }

  lemma AfterHandoffKeeps(log: set<Entry>, s: State, e: Entry, read: Read, w: Write)
    requires LogOk(log) && Inv(log, s) && s.watch.Watching? && !s.watch.phase.Waiting? && s.watch.phase.entry == e
    requires Done(s.h, e)
    ensures Inv(log, AfterHandoff(s, e, read, w))
  {
    hide Ledger, Positions, RecoveryOk, AnchoredAll, QueueAfterHandoff, Passed, Below, Done;
    EntryIsPassed(log, s.h, e);
    QueueAfterHandoffKeeps(log, s.a, s.h, e.position, read, w);
  }

  lemma AfterAdmissionKeeps(log: set<Entry>, s: State, id: string, position: Cursor, read: Read, w: Write)
    requires Inv(log, s) && Passed(log, s.h, position)
    ensures Inv(log, AfterAdmission(s, id, position, read, w))
  {
    hide Ledger, Positions, WatchOk, AnchoredAll, QueueAfterHandoff, Passed;
    QueueAfterHandoffKeeps(log, s.a, s.h, position, read, w);
  }

  lemma RecoveryDispatchKeeps(log: set<Entry>, s: State, event: Wake, read: Read, w: Write, w2: Write)
    requires Inv(log, s) && s.recovery.Refetching?
    ensures Inv(log, RecoveryDispatched(s, event, read, w, w2))
  {
    hide Ledger, Positions, WatchOk, AnchoredAll, Retained, AfterAdmission, Passed, Anchored;
    var id, wake := s.recovery.id, s.recovery.wake;
    RetainedKeeps(log, s, id, event.(position := wake.position), w);
    var (t, ok) := Retained(s, id, event.(position := wake.position), w);
    Grown(log, s, t.h);
    if ok {
      AnchorIsPassed(log, t.h, id, wake.position);
      AfterAdmissionKeeps(log, t, id, wake.position, read, w2);
      AdmittedIsFree(log, t, t.a.(admitted := t.a.admitted + {id}));
    }
  }

  lemma HandoffKeeps(log: set<Entry>, s: State, read: Read, w: Write)
    requires LogOk(log) && Inv(log, s) && s.watch.Watching? && s.watch.phase.HandingOver?
    ensures
      var e := s.watch.phase.entry;
      Inv(log, AfterHandoff(if s.watch.phase.ambient then s else Declined(s, e), e, read, w))
  {
    hide Ledger, Positions, RecoveryOk, AnchoredAll, AfterHandoff, Passed, Below;
    var e := s.watch.phase.entry;
    if s.watch.phase.ambient {
      AfterHandoffKeeps(log, s, e, read, w);
    } else {
      DeclinedKeeps(log, s, e);
      AfterHandoffKeeps(log, Declined(s, e), e, read, w);
    }
  }

  lemma DeclinedKeeps(log: set<Entry>, s: State, e: Entry)
    requires Inv(log, s)
    ensures Inv(log, Declined(s, e)) && Done(Declined(s, e).h, e)
  {
    hide Kept, Positions, RecoveryOk, AnchoredAll, WatchOk;
    Grown(log, s, Declined(s, e).h);
  }

  lemma ResyncKeeps(log: set<Entry>, s: State, b: Cursor, w: Write)
    requires Inv(log, s) && s.watch.NoWatch?
    ensures Inv(log, WithBootstrap(s, b, w))
  {
    var t := WithBootstrap(s, b, w);
    PersistMoves(s.a, b, w);
    if !w.Failed? {
      LiftedIsPassed(log, s.h, b);
      hide Kept, Passed, Anchored, Moved, Persist, Lift;
      Grown(log, s, t.h);
      MovedKeeps(log, s.a, t.a, t.h, b);
    }
  }

  lemma LiftedIsPassed(log: set<Entry>, h: History, b: Cursor)
    ensures Passed(log, h.(floor := Lift(h.floor, b)), b) && Grew(h, h.(floor := Lift(h.floor, b)))
  {
  }

  lemma ConnectedKeeps(log: set<Entry>, s: State, b: Cursor, restarted: bool, w: Write)
    requires Inv(log, s) && ValidCursor(b)
    ensures Inv(log, Connected(s, b, restarted, w))
  {
    hide Passed, Anchored, Connect, Lift, ValidCursor, ValidReads, ValidWakes, Done;
    var a0 := if restarted then s.a.(admitted := {}) else s.a;
    var t := Connected(s, b, restarted, w);
    ConnectKeeps(a0, b, w);
    ConnectedGrew(log, s, b, restarted, w);
    hide Kept, Connected;
    Grown(log, s, t.h);
    ConnectedShape(s, b, restarted, w);
  }

  lemma ConnectedShape(s: State, b: Cursor, restarted: bool, w: Write)
    ensures
      var t := Connected(s, b, restarted, w);
      && t.a == Connect(if restarted then s.a.(admitted := {}) else s.a, b, w).0
      && t.watch.NoWatch? && t.recovery.NoRecovery? && t.batch == map[]
      && t.h.tracked == s.h.tracked + t.a.wakes.Keys && t.h.completed == s.h.completed
  {
    hide Connect, Lift;
  }

  lemma ConnectedGrew(log: set<Entry>, s: State, b: Cursor, restarted: bool, w: Write)
    ensures
      var t := Connected(s, b, restarted, w);
      Grew(s.h, t.h)
      && (!(s.a.disk.Some? && s.a.disk.value.cursor.epoch == b.epoch) ==> Passed(log, t.h, b))
  {
    hide Connect;
  }

  predicate OfWatch(step: Step)
  {
    step.Receive? || step.Ignore? || step.Defer? || (step.Fetched? && step.ambient) || step.HandedOver? || step.Flushed?
  }

  predicate OfTasks(step: Step)
  {
    step.Spawn? || step.WatchEnds? || step.PassBegins? || step.Take? || step.RecoveryEnds? || step.TurnEnded?
    || (step.Fetched? && !step.ambient)
  }

  lemma StepKeeps(log: set<Entry>, s: State, step: Step)
    requires LogOk(log) && Inv(log, s) && Enabled(log, s, step)
    ensures Inv(log, Apply(log, s, step))
  {
    hide LogOk, Inv, Enabled, Apply;
    if OfWatch(step) {
      WatchStepKeeps(log, s, step);
    } else if OfTasks(step) {
      TaskKeeps(log, s, step);
    } else {
      CheckpointStepKeeps(log, s, step);
    }
  }

  lemma WatchStepKeeps(log: set<Entry>, s: State, step: Step)
    requires LogOk(log) && Inv(log, s) && Enabled(log, s, step) && OfWatch(step)
    ensures Inv(log, Apply(log, s, step))
  {
    hide LogOk, Inv, NextOutput, HasPendingAdmission, Accept, Received, Deferred, Dispatched, RecoveryDispatched, AfterHandoff,
         AfterAdmission, WithBootstrap, Connected, Completed, CompleteRead, Complete, Park, Declined;
    match step
    case Receive(e) => ReceivedKeeps(log, s, e);
    case Ignore(w) => IgnoredKeeps(log, s, w);
    case Defer(event, w, w2) => DeferredKeeps(log, s, event, w, w2);
    case Fetched(_, event, read, w, w2) => DispatchedKeeps(log, s, event, read, w, w2);
    case HandedOver(read, w) => HandoffKeeps(log, s, read, w);
    case Flushed(w) =>
      FlushingIsDone(log, s);
      AcceptKeeps(log, s, s.watch.phase.entry, w);
  }

  lemma CheckpointStepKeeps(log: set<Entry>, s: State, step: Step)
    requires LogOk(log) && Inv(log, s) && Enabled(log, s, step) && !OfWatch(step) && !OfTasks(step)
    ensures Inv(log, Apply(log, s, step))
  {
    hide LogOk, Inv, NextOutput, HasPendingAdmission, Accept, Received, Deferred, Dispatched, RecoveryDispatched, AfterHandoff,
         AfterAdmission, WithBootstrap, Connected, Completed, CompleteRead, Complete, Park, Declined;
    match step
    case Resync(b, w) => ResyncKeeps(log, s, b, w);
    case RecoveryDeclined(w) => CompletionKeeps(log, s, s.recovery.id, w);
    case Refetched(event, read, w, w2) => RecoveryDispatchKeeps(log, s, event, read, w, w2);
    case Admitted(read, w) =>
      AdmittingIsPassed(log, s);
      AfterAdmissionKeeps(log, s, s.recovery.id, s.recovery.wake.position, read, w);
    case TurnSucceeded(id, w) => CompletionKeeps(log, s, id, w);
    case ReadAdvanced(conversationId, t, w) => ReadsKeep(log, s, conversationId, t, w);
    case ReadParked(conversationId, t) => ReadsKeep(log, s, conversationId, t, Failed);
    case Reconnected(b, restarted, w) => ConnectedKeeps(log, s, b, restarted, w);
  }

  /** The steps that move tasks but neither memory's checkpoint nor the file. */
  lemma TaskKeeps(log: set<Entry>, s: State, step: Step)
    requires Inv(log, s) && Enabled(log, s, step) && OfTasks(step)
    ensures Inv(log, Apply(log, s, step))
  {
    hide Inv, NextOutput, HasPendingAdmission, Accept, Received, Deferred, Dispatched, RecoveryDispatched, AfterHandoff,
         AfterAdmission, WithBootstrap, Connected, Completed, CompleteRead, Complete, Park, Declined;
    var t := Apply(log, s, step);
    match step
    case Spawn => SpawnKeeps(log, s);
    case PassBegins => PassKeeps(log, s, t.batch);
    case Take(id) => TakeKeeps(log, s, id);
    case Fetched(_, _, _, _, _) => MentionKeeps(log, s);
    case _ => FreedKeeps(log, s, t);
  }

  lemma SpawnKeeps(log: set<Entry>, s: State)
    requires Inv(log, s) && s.a.cursor.Some?
    ensures Inv(log, s.(watch := Watching(s.a.cursor.value, {}, Waiting)))
  {
    hide Ledger, RecoveryOk, AnchoredAll, Passed, Below, Done;
  }

  lemma PassKeeps(log: set<Entry>, s: State, batch: map<string, Wake>)
    requires Inv(log, s) && forall id :: id in batch ==> id in s.a.wakes && s.a.wakes[id] == batch[id]
    ensures Inv(log, s.(batch := batch))
  {
    hide Ledger, RecoveryOk, WatchOk, Anchored, Passed;
  }

  lemma TakeKeeps(log: set<Entry>, s: State, id: string)
    requires Inv(log, s) && id in s.batch
    ensures Inv(log, s.(recovery := Refetching(id, s.batch[id])))
  {
    hide Ledger, Positions, WatchOk, Anchored;
  }

  lemma MentionKeeps(log: set<Entry>, s: State)
    requires Inv(log, s) && s.watch.Watching? && s.watch.phase.Deciding?
    ensures Inv(log, s.(watch := s.watch.(phase := HandingOver(s.watch.phase.entry, false, false))))
  {
    hide Ledger, Positions, RecoveryOk, AnchoredAll, Passed, Below, Done;
  }

  lemma FreedKeeps(log: set<Entry>, s: State, t: State)
    requires Inv(log, s) && t.a == s.a.(admitted := t.a.admitted) && t.batch == s.batch && t.h == s.h
    requires t.watch == s.watch || t.watch.NoWatch?
    requires t.recovery == s.recovery || t.recovery.NoRecovery?
    ensures Inv(log, t)
  {
    hide Ledger, Positions, AnchoredAll, Passed, Anchored, Below, Done;
    AdmittedIsFree(log, s, t.a);
  }

  lemma IgnoredKeeps(log: set<Entry>, s: State, w: Write)
    requires LogOk(log) && Inv(log, s) && s.watch.Watching? && s.watch.phase.Deciding?
    ensures Inv(log, Accept(Declined(s, s.watch.phase.entry), s.watch.phase.entry, w))
  {
    hide Inv, Accept, Done;
    DeclinedKeeps(log, s, s.watch.phase.entry);
    AcceptKeeps(log, Declined(s, s.watch.phase.entry), s.watch.phase.entry, w);
  }

  lemma FlushingIsDone(log: set<Entry>, s: State)
    requires Inv(log, s) && s.watch.Watching? && s.watch.phase.Flushing?
    ensures Done(s.h, s.watch.phase.entry)
  {
  }

  lemma AdmittingIsPassed(log: set<Entry>, s: State)
    requires Inv(log, s) && s.recovery.Admitting?
    ensures Passed(log, s.h, s.recovery.wake.position)
  {
    AnchorIsPassed(log, s.h, s.recovery.id, s.recovery.wake.position);
  }

  lemma CompletionKeeps(log: set<Entry>, s: State, id: string, w: Write)
    requires Inv(log, s)
    ensures Inv(log, Completed(s, id, w))
    ensures forall admissions :: Inv(log, Completed(s, id, w).(recovery := NoRecovery, admissions := admissions))
  {
    hide Ledger, Positions, WatchOk, AnchoredAll, Completed;
    CompletedKeeps(log, s, id, w);
    Grown(log, s, Completed(s, id, w).h);
  }

  lemma ReadsKeep(log: set<Entry>, s: State, conversationId: string, t: ReadTarget, w: Write)
    requires Inv(log, s)
    ensures Inv(log, s.(a := CompleteRead(s.a, conversationId, t, w).0))
    ensures Inv(log, s.(a := Park(s.a, conversationId, t)))
  {
    hide Kept, Positions, WatchOk, RecoveryOk, AnchoredAll, CompleteRead, Park;
    CompleteReadKeeps(s.a, conversationId, t, w);
    ReadMoveKeeps(log, s, CompleteRead(s.a, conversationId, t, w).0, conversationId, t, w);
    ParkKeeps(s.a, conversationId, t);
    ParkIsFree(log, s, conversationId, t);
  }

  lemma AdmittedIsFree(log: set<Entry>, s: State, b: Adapter)
    requires Inv(log, s) && b == s.a.(admitted := b.admitted)
    ensures Ledger(b, s.h) && Positions(log, b, s.h)
  {
    hide Passed, AnchoredAll, ValidReads, ValidWakes;
  }

  lemma ReadMoveKeeps(
    log: set<Entry>, s: State, b: Adapter, conversationId: string, t: ReadTarget, w: Write)
    requires Inv(log, s) && b == CompleteRead(s.a, conversationId, t, w).0 && Kept(b)
    ensures Ledger(b, s.h) && Positions(log, b, s.h)
  {
    hide Kept, Passed, AnchoredAll, CompleteRead, Moved, ValidCursor;
    if s.a.cursor.Some? {
      CompleteReadMoves(s.a, conversationId, t, w, s.a.cursor.value);
      MovedKeeps(log, s.a, b, s.h, s.a.cursor.value);
    } else {
      NoCursorNoMove(s.a, conversationId, t, w);
    }
  }

  lemma NoCursorNoMove(a: Adapter, conversationId: string, t: ReadTarget, w: Write)
    requires a.cursor.None?
    ensures CompleteRead(a, conversationId, t, w).0 == a
  {
  }

  lemma ParkIsFree(log: set<Entry>, s: State, conversationId: string, t: ReadTarget)
    requires Inv(log, s) && Kept(Park(s.a, conversationId, t))
    ensures Ledger(Park(s.a, conversationId, t), s.h) && Positions(log, Park(s.a, conversationId, t), s.h)
  {
    hide Kept, Passed, AnchoredAll;
  }

  // ---------------------------------------------------------------------------------------------
  // Runs
  // ---------------------------------------------------------------------------------------------

  ghost predicate Legal(log: set<Entry>, s: State, steps: seq<Step>)
    decreases |steps|
  {
    steps == [] || (Enabled(log, s, steps[0]) && Legal(log, Apply(log, s, steps[0]), steps[1..]))
  }

  ghost function Run(log: set<Entry>, s: State, steps: seq<Step>): State
    requires Legal(log, s, steps)
    decreases |steps|
  {
    if steps == [] then s else Run(log, Apply(log, s, steps[0]), steps[1..])
  }

  lemma {:induction false} InvOverRuns(log: set<Entry>, s: State, steps: seq<Step>)
    requires LogOk(log) && Inv(log, s) && Legal(log, s, steps)
    ensures Inv(log, Run(log, s, steps))
    decreases |steps|
  {
    hide Inv, LogOk, Apply, Enabled;
    if steps != [] {
      StepKeeps(log, s, steps[0]);
      InvOverRuns(log, Apply(log, s, steps[0]), steps[1..]);
    }
  }

  lemma InstalledInv(log: set<Entry>)
    ensures Inv(log, Installed())
  {
    EmptyIsValid();
  }

  /**
    No wake is lost, over every interleaving of watch, recovery, flushes, model turns, failed and
    half-failed writes, reconnects and restarts: an event at or below the durable checkpoint, and above
    what a bootstrap declared caught up, was declined, was completed, or is in the durable file.
   */
  lemma {:induction false} CheckpointNeverSkips(log: set<Entry>, steps: seq<Step>, e: Entry)
    requires LogOk(log) && Legal(log, Installed(), steps) && e in log
    ensures
      var s := Run(log, Installed(), steps);
      s.a.disk.Some? && Covers(s.a.disk.value.cursor, e) && !Excused(s.h, e) ==>
        e in s.h.declined || e.id in s.h.completed || e.id in s.a.disk.value.wakes
  {
    InstalledInv(log);
    InvOverRuns(log, Installed(), steps);
    var s := Run(log, Installed(), steps);
    hide Kept, Covers, Excused;
    if s.a.disk.Some? && Covers(s.a.disk.value.cursor, e) { assert Done(s.h, e); }
  }

  /** A step that asks for the completion of `id`: a finished turn, or a recovery that was declined. */
  predicate Completes(s: State, step: Step, id: string)
  {
    (step.TurnSucceeded? && step.id == id)
    || (step.RecoveryDeclined? && s.recovery.Refetching? && s.recovery.id == id)
  }

  /**
    Once retained, a wake stays in memory and in the file, with the anchor it was stored with,
    through every step, failed write, epoch change and restart, until its completion is asked for.
   */
  lemma RetainedUntilCompleted(log: set<Entry>, s: State, step: Step, id: string)
    requires LogOk(log) && Inv(log, s) && Enabled(log, s, step) && id in s.h.tracked && !Completes(s, step, id)
    ensures
      var t := Apply(log, s, step);
      && id in t.h.tracked && s.a.disk.Some? && t.a.disk.Some? && id in s.a.disk.value.wakes && id in t.a.disk.value.wakes
      && t.a.disk.value.wakes[id] == s.a.disk.value.wakes[id]
      && id in t.a.wakes && t.a.wakes[id] == t.a.disk.value.wakes[id]
  {
    hide *;
    StepKeeps(log, s, step);
    WakeStays(log, s, step, id);
    StaysMeans(s, Apply(log, s, step), id);
    TrackedIsStored(log, s, id);
    TrackedIsStored(log, Apply(log, s, step), id);
  }

  ghost predicate NeverCompleted(log: set<Entry>, s: State, steps: seq<Step>, id: string)
    decreases |steps|
  {
    steps == []
    || (Enabled(log, s, steps[0]) && !Completes(s, steps[0], id)
        && NeverCompleted(log, Apply(log, s, steps[0]), steps[1..], id))
  }

  lemma {:induction false} StaysTracked(log: set<Entry>, s: State, steps: seq<Step>, id: string)
    requires LogOk(log) && Inv(log, s) && Legal(log, s, steps)
    requires id in s.h.tracked && NeverCompleted(log, s, steps, id)
    ensures
      var t := Run(log, s, steps);
      && id in t.h.tracked && s.a.disk.Some? && t.a.disk.Some? && id in s.a.disk.value.wakes && id in t.a.disk.value.wakes
      && t.a.disk.value.wakes[id] == s.a.disk.value.wakes[id]
      && id in t.a.wakes && t.a.wakes[id] == t.a.disk.value.wakes[id]
    decreases |steps|
  {
    hide LogOk, Inv, Apply, Enabled, Completes;
    TrackedIsStored(log, s, id);
    if steps != [] {
      StepKeeps(log, s, steps[0]);
      RetainedUntilCompleted(log, s, steps[0], id);
      StaysTracked(log, Apply(log, s, steps[0]), steps[1..], id);
    }
  }

  /**
    Over runs: a wake that was retained at some point of any run is at its end, in memory and in the file,
    the very wake that was stored then, unless its completion was asked for in between.
   */
  lemma {:induction false} RetainedThroughRuns(log: set<Entry>, front: seq<Step>, after: seq<Step>, id: string)
    requires LogOk(log) && Legal(log, Installed(), front) && Legal(log, Run(log, Installed(), front), after)
    requires var s := Run(log, Installed(), front); id in s.h.tracked && NeverCompleted(log, s, after, id)
    ensures
      var s := Run(log, Installed(), front);
      var t := Run(log, s, after);
      && s.a.disk.Some? && t.a.disk.Some? && id in s.a.disk.value.wakes && id in t.a.disk.value.wakes
      && t.a.disk.value.wakes[id] == s.a.disk.value.wakes[id]
      && id in t.a.wakes && t.a.wakes[id] == t.a.disk.value.wakes[id]
  {
    hide Inv, LogOk, NeverCompleted;
    InstalledInv(log);
    InvOverRuns(log, Installed(), front);
    StaysTracked(log, Run(log, Installed(), front), after, id);
  }

  lemma TrackedIsStored(log: set<Entry>, s: State, id: string)
    requires Inv(log, s) && id in s.h.tracked
    ensures s.a.disk.Some? && id in s.a.disk.value.wakes && id in s.a.wakes
    ensures s.a.disk.value.wakes[id] == s.a.wakes[id]
  {
    hide Kept, Positions, WatchOk, RecoveryOk, AnchoredAll;
  }

  /** `id` is still tracked, and memory has not replaced it. */
  predicate Stays(s: State, t: State, id: string)
  {
    id in t.h.tracked && id in s.a.wakes && (id in t.a.wakes ==> t.a.wakes[id] == s.a.wakes[id])
  }

  lemma StaysMeans(s: State, t: State, id: string)
    requires Stays(s, t, id)
    ensures id in t.h.tracked && id in s.a.wakes && (id in t.a.wakes ==> t.a.wakes[id] == s.a.wakes[id])
  {
  }

  lemma AcceptLeavesWakes(s: State, e: Entry, w: Write)
    requires s.watch.Watching?
    ensures Accept(s, e, w).a.wakes == s.a.wakes && Accept(s, e, w).h == s.h
  {
    hide Advance;
    AdvanceMoves(s.a, e.position, w);
  }

  lemma QueueLeavesWakes(a: Adapter, position: Cursor, read: Read, w: Write)
    ensures QueueAfterHandoff(a, position, read, w).0.wakes == a.wakes
  {
    hide QueueRead, ValidCursor, CompareDecimalStrings;
    if read.Some? && CheckpointAfterHandoff(a, position).Some? {
      QueueMoves(a, CheckpointAfterHandoff(a, position).value, read.value.0, read.value.1, w);
    }
  }

  lemma RetentionLeavesWakes(s: State, other: string, event: Wake, w: Write, id: string)
    requires Kept(s.a) && id in s.h.tracked && id in s.a.wakes
    ensures Stays(s, Retained(s, other, event, w).0, id)
  {
    hide Kept, Retain, Target;
    var (b, failure) := Retain(s.a, other, event, w);
    RetainShape(s.a, other, event, w, b, failure);
  }

  lemma CompletionLeavesWakes(s: State, other: string, w: Write, id: string)
    requires Kept(s.a) && id in s.h.tracked && id in s.a.wakes && id != other
    ensures Stays(s, Completed(s, other, w), id)
  {
    hide Kept, Complete;
    CompleteShape(s.a, other, w);
  }

  lemma WatchDispatchLeavesWakes(s: State, event: Wake, read: Read, w: Write, w2: Write, id: string)
    requires Kept(s.a) && id in s.h.tracked && id in s.a.wakes && s.watch.Watching? && s.watch.phase.Deciding?
    ensures Stays(s, Deferred(s, event, w, w2), id) && Stays(s, Dispatched(s, event, read, w, w2), id)
  {
    hide Kept, Retained, Accept, QueueAfterHandoff;
    var e := s.watch.phase.entry;
    var anchor := event.(position := e.position);
    RetentionLeavesWakes(s, e.id, anchor, w, id);
    RetentionShape(s, e.id, anchor, w);
    var t := Retained(s, e.id, anchor, w).0;
    AcceptLeavesWakes(t.(admissions := t.admissions + {e.id}), e, w2);
    QueueLeavesWakes(t.a, e.position, read, w2);
  }

  lemma RecoveryDispatchLeavesWakes(s: State, event: Wake, read: Read, w: Write, w2: Write, id: string)
    requires Kept(s.a) && id in s.h.tracked && id in s.a.wakes && s.recovery.Refetching?
    ensures Stays(s, RecoveryDispatched(s, event, read, w, w2), id)
  {
    hide Kept, Retained, QueueAfterHandoff;
    var wake := s.recovery.wake;
    var anchor := event.(position := wake.position);
    RetentionLeavesWakes(s, s.recovery.id, anchor, w, id);
    QueueLeavesWakes(Retained(s, s.recovery.id, anchor, w).0.a, wake.position, read, w2);
  }

  lemma RetentionShape(s: State, id: string, event: Wake, w: Write)
    ensures var t := Retained(s, id, event, w).0; t == s.(a := t.a, h := t.h)
  {
    hide Retain;
  }

  lemma ReloadLeavesWakes(log: set<Entry>, s: State, b: Cursor, restarted: bool, w: Write, id: string)
    requires Inv(log, s) && ValidCursor(b) && id in s.h.tracked
    ensures Stays(s, Connected(s, b, restarted, w), id)
  {
    hide Passed, Connect, Lift, ValidCursor, ValidReads, ValidWakes, AnchoredAll;
    TrackedIsStored(log, s, id);
    ConnectKeeps(if restarted then s.a.(admitted := {}) else s.a, b, w);
    ConnectedShape(s, b, restarted, w);
    hide Connected;
  }

  lemma KeptOf(log: set<Entry>, s: State)
    requires Inv(log, s)
    ensures Kept(s.a)
  {
  }

  lemma FreeStepStays(log: set<Entry>, s: State, step: Step, id: string)
    requires Enabled(log, s, step) && id in s.h.tracked && id in s.a.wakes
    requires OfTasks(step) || step.Receive? || step.ReadParked?
    ensures Stays(s, Apply(log, s, step), id)
  {
    hide NextOutput, HasPendingAdmission, Pending, CompareDecimalStrings, Accept, Deferred, Dispatched,
         RecoveryDispatched, AfterHandoff, AfterAdmission, WithBootstrap, Connected, Completed, CompleteRead, Complete;
    assert Apply(log, s, step).a.wakes == s.a.wakes;
  }

  lemma WatchStepStays(log: set<Entry>, s: State, step: Step, id: string)
    requires Kept(s.a) && Enabled(log, s, step) && id in s.h.tracked && id in s.a.wakes && OfWatch(step) && !step.Receive?
    ensures Stays(s, Apply(log, s, step), id)
  {
    hide Kept, HasPendingAdmission, Accept, Deferred, Dispatched, QueueAfterHandoff;
    match step
    case Ignore(w) => AcceptLeavesWakes(Declined(s, s.watch.phase.entry), s.watch.phase.entry, w);
    case Defer(event, w, w2) => WatchDispatchLeavesWakes(s, event, None, w, w2, id);
    case Fetched(_, event, read, w, w2) => WatchDispatchLeavesWakes(s, event, read, w, w2, id);
    case HandedOver(read, w) => QueueLeavesWakes(s.a, s.watch.phase.entry.position, read, w);
    case Flushed(w) => AcceptLeavesWakes(s, s.watch.phase.entry, w);
  }

  lemma CheckpointStepStays(log: set<Entry>, s: State, step: Step, id: string)
    requires Inv(log, s) && Enabled(log, s, step) && id in s.h.tracked && !Completes(s, step, id)
    requires !OfWatch(step) && !OfTasks(step) && !step.ReadParked?
    ensures Stays(s, Apply(log, s, step), id)
  {
    hide Inv, Kept, RecoveryDispatched, QueueAfterHandoff, Connected, Completed, CompleteRead, Complete, Persist, Lift;
    TrackedIsStored(log, s, id);
    KeptOf(log, s);
    match step
    case Resync(b, w) => PersistMoves(s.a, b, w);
    case RecoveryDeclined(w) => CompletionLeavesWakes(s, s.recovery.id, w, id);
    case Refetched(event, read, w, w2) => RecoveryDispatchLeavesWakes(s, event, read, w, w2, id);
    case Admitted(read, w) => QueueLeavesWakes(s.a, s.recovery.wake.position, read, w);
    case TurnSucceeded(other, w) => CompletionLeavesWakes(s, other, w, id);
    case ReadAdvanced(conversationId, t, w) => CompleteReadMoves(s.a, conversationId, t, w, Cursor("", ""));
    case Reconnected(b, restarted, w) => ReloadLeavesWakes(log, s, b, restarted, w, id);
  }

  lemma WakeStays(log: set<Entry>, s: State, step: Step, id: string)
    requires Inv(log, s) && Enabled(log, s, step) && id in s.h.tracked && !Completes(s, step, id)
    ensures Stays(s, Apply(log, s, step), id)
  {
    hide Inv, Enabled, Apply, Stays, Completes, Kept;
    TrackedIsStored(log, s, id);
    KeptOf(log, s);
    if OfTasks(step) || step.Receive? || step.ReadParked? {
      FreeStepStays(log, s, step, id);
    } else if OfWatch(step) {
      WatchStepStays(log, s, step, id);
    } else {
      CheckpointStepStays(log, s, step, id);
    }
  }
}
