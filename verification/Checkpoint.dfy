/**
  Transition functions of the Hermes checkpoint mutators (integrations/hermes-hype-comms/adapter.py).
  `disk` is what the atomically replaced file holds. HermesAdapter.dfy has the class whose methods
  are proved against these functions.
 */
module Checkpoint {
  import opened Wrappers
  import opened Decimals
  import opened CheckpointFile

  /**
    How one `_persist_cursor` ends. The file is replaced before its mode is set again and before
    the directory is synced, so the call can also raise once the new contents are durable.
   */
  datatype Write = Saved | Failed | RaisedAfterReplace

  datatype Failure = InvalidState | QueueFull | WriteFailed

  datatype Adapter = Adapter(
    cursor: Option<Cursor>,
    targets: map<string, ReadTarget>,
    wakes: map<string, Wake>,
    parked: map<string, ReadTarget>,
    admitted: set<string>,
    needsMigration: bool,
    disk: Option<Checkpoint>)

  /** The document a persist at `cursor` would write. */
  function Contents(a: Adapter, cursor: Cursor): Checkpoint
  {
    Checkpoint(cursor, a.targets, a.wakes)
  }

  /** Memory and file agree. */
  predicate Synced(a: Adapter)
  {
    a.cursor.Some? && a.disk == Some(Contents(a, a.cursor.value))
  }

  /** What every mutator keeps: memory and file hold only what `_load_cursor` would accept. */
  predicate Kept(a: Adapter)
  {
    && ValidReads(a.targets) && ValidWakes(a.wakes)
    && (a.cursor.Some? ==> ValidCursor(a.cursor.value))
    && (a.disk.Some? ==> WellFormed(a.disk.value))
    && a.parked.Keys <= a.targets.Keys
    && (forall c :: c in a.parked ==> a.targets[c] == a.parked[c])
  }

  function Without<T>(m: map<string, T>, k: string): (r: map<string, T>)
    ensures r.Keys == m.Keys - {k}
    ensures forall x :: x in r ==> r[x] == m[x]
  {
    m - {k}
  }

  /** `_persist_cursor`; the flag says whether it returned. */
  function Persist(a: Adapter, cursor: Cursor, w: Write): (Adapter, bool)
  {
    if !ValidCursor(cursor) then (a, false)
    else
      match w
      case Saved =>
        (a.(cursor := Some(cursor), needsMigration := false, disk := Some(Contents(a, cursor))), true)
      case Failed => (a, false)
      case RaisedAfterReplace => (a.(disk := Some(Contents(a, cursor))), false)
  }

  /** A mutator's write of the `changed` memory at `cursor`: when it raises, memory is rolled back. */
  function Commit(a: Adapter, changed: Adapter, cursor: Cursor, w: Write): (Adapter, bool)
  {
    var (b, ok) := Persist(changed, cursor, w);
    if ok then (b, true) else (a.(disk := b.disk), false)
  }

  /** The greatest of the coexisting orders, 0 when there is none. */
  ghost function HighestOrder(wakes: map<string, Wake>): (highest: nat)
    ensures forall m :: m in wakes ==> Num(wakes[m].recoveryOrder) <= highest
    ensures highest == 0 || exists m :: m in wakes && Num(wakes[m].recoveryOrder) == highest
    decreases |wakes|
  {
    if wakes == map[] then 0
    else
      var m :| m in wakes;
      var others := Without(wakes, m);
      assert wakes.Keys == others.Keys + {m};
      assert |wakes| == |wakes.Keys| && |others| == |others.Keys|;
      var rest := HighestOrder(others);
      assert forall o :: o in wakes ==> o == m || o in others;
      if Num(wakes[m].recoveryOrder) > rest then Num(wakes[m].recoveryOrder) else rest
  }

  /** The stored form of a wake event: an earlier retention keeps its order and provenance. */
  ghost function Target(wakes: map<string, Wake>, messageId: string, event: Wake): Wake
  {
    if messageId in wakes then
      event.(recoveryOrder := wakes[messageId].recoveryOrder,
             legacyWorkspaceSequence := wakes[messageId].legacyWorkspaceSequence)
    else event.(recoveryOrder := Decimal(HighestOrder(wakes) + 1), legacyWorkspaceSequence := None)
  }

  /** `_retain_ambient_wake`; `event` carries the anchor, its order and provenance are ignored. */
  ghost function Retain(a: Adapter, messageId: string, event: Wake, w: Write): (Adapter, Option<Failure>)
  {
    var target := Target(a.wakes, messageId, event);
    if a.cursor.None? then (a, Some(InvalidState))
    else if messageId in a.wakes && a.wakes[messageId] == target then (a, None)
    else if !ValidWake(messageId, target) || messageId in a.wakes then (a, Some(InvalidState))
    else if |a.wakes| >= MAX_PENDING_AMBIENT_WAKES then (a, Some(QueueFull))
    else
      var (b, ok) := Commit(a, a.(wakes := a.wakes[messageId := target]), a.cursor.value, w);
      (b, if ok then None else Some(WriteFailed))
  }

  /** `_complete_ambient_wake`; a wake that is not pending only gives its reservation back. */
  function Complete(a: Adapter, messageId: string, w: Write): (Adapter, bool)
  {
    if messageId !in a.wakes then (a.(admitted := a.admitted - {messageId}), true)
    else if a.cursor.None? then (a, false)
    else
      var (b, ok) := Commit(a, a.(wakes := Without(a.wakes, messageId)), a.cursor.value, w);
      (if ok then b.(admitted := b.admitted - {messageId}) else b, ok)
  }

  /** `_checkpoint_after_handoff`; None when the position is refused. */
  function CheckpointAfterHandoff(a: Adapter, position: Cursor): Option<Cursor>
  {
    if !ValidCursor(position) then None
    else if a.cursor.None? then Some(position)
    else
      var current := a.cursor.value;
      if position.epoch != current.epoch then Some(current)
      else if CompareDecimalStrings(position.sequence, current.sequence) > 0 then Some(position) else Some(current)
  }

  /** A target replaces an older one of its conversation only with a greater sequence. */
  predicate Supersedes(targets: map<string, ReadTarget>, conversationId: string, t: ReadTarget)
  {
    conversationId !in targets
    || CompareDecimalStrings(t.conversationSequence, targets[conversationId].conversationSequence) > 0
  }

  /** The read targets that `_queue_read_cursor` leaves. */
  function Queued(a: Adapter, conversationId: string, t: ReadTarget): Adapter
  {
    if Supersedes(a.targets, conversationId, t) then
      a.(targets := a.targets[conversationId := t], parked := Without(a.parked, conversationId))
    else a
  }

  /** `_queue_read_cursor`. */
  function QueueRead(a: Adapter, cursor: Cursor, conversationId: string, t: ReadTarget, w: Write): (Adapter, bool)
  {
    if !ValidCursor(cursor) || !ValidRead(conversationId, t) then (a, false)
    else Commit(a, Queued(a, conversationId, t), cursor, w)
  }

  predicate Pending(a: Adapter, conversationId: string, t: ReadTarget)
  {
    conversationId in a.targets && a.targets[conversationId] == t
  }

  function Removed(a: Adapter, conversationId: string): Adapter
  {
    a.(targets := Without(a.targets, conversationId), parked := Without(a.parked, conversationId))
  }

  /** `_complete_read_cursor`: only the very target that was advanced is removed. */
  function CompleteRead(a: Adapter, conversationId: string, expected: ReadTarget, w: Write): (Adapter, bool)
  {
    if !Pending(a, conversationId, expected) then (a, true)
    else if a.cursor.None? then (a, false)
    else Commit(a, Removed(a, conversationId), a.cursor.value, w)
  }

  /** A permanently refused advance parks its target, unless a newer one replaced it. */
  function Park(a: Adapter, conversationId: string, t: ReadTarget): Adapter
  {
    if Pending(a, conversationId, t) then a.(parked := a.parked[conversationId := t]) else a
  }

  /** The last statement of `_accept_event`: an event's position is written once. */
  function Advance(a: Adapter, position: Cursor, w: Write): (Adapter, bool)
  {
    if a.cursor == Some(position) then (a, true) else Commit(a, a, position, w)
  }

  /**
    `connect` up to its first recovery pass: the file replaces memory, a missing cursor starts at
    the bootstrap position, and a cursor of another epoch is rewritten.
   */
  function Connect(a: Adapter, bootstrap: Cursor, w: Write): (Adapter, bool)
  {
    var empty := Adapter(None, map[], map[], map[], a.admitted, false, a.disk);
    if a.disk.None? then Persist(empty, bootstrap, w)
    else
      match Load(Encode(a.disk.value), Some(bootstrap))
      case Failure(_) => (empty, false)
      case Success(l) =>
        var b := empty.(cursor := l.cursor, targets := l.targets, wakes := l.wakes, needsMigration := l.needsMigration);
        if l.cursor.None? then Persist(b, bootstrap, w)
        else if l.needsMigration then Persist(b, l.cursor.value, w) else (b, true)
  }

  // ---------------------------------------------------------------------------------------------
  // What the mutators keep
  // ---------------------------------------------------------------------------------------------

  lemma WakeOrders(wakes: map<string, Wake>)
    requires ValidWakes(wakes)
    ensures forall m :: m in wakes ==> Canonical(wakes[m].recoveryOrder)
  {
    hide ValidAnchor, ValidCursor, DistinctOrders;
  }

  lemma WithWake(wakes: map<string, Wake>, messageId: string, target: Wake)
    requires ValidWakes(wakes) && |wakes| < MAX_PENDING_AMBIENT_WAKES && ValidWake(messageId, target)
    requires messageId !in wakes && forall m :: m in wakes ==> wakes[m].recoveryOrder != target.recoveryOrder
    ensures ValidWakes(wakes[messageId := target])
  {
    hide ValidWake;
    assert wakes[messageId := target].Keys == wakes.Keys + {messageId};
  }

  lemma WithoutWake(wakes: map<string, Wake>, messageId: string)
    requires ValidWakes(wakes)
    ensures ValidWakes(Without(wakes, messageId))
  {
    hide ValidWake;
    var fewer := Without(wakes, messageId);
    assert wakes.Keys == fewer.Keys + (wakes.Keys - fewer.Keys);
    assert |fewer| == |fewer.Keys| && |wakes| == |wakes.Keys|;
  }

  lemma WithRead(targets: map<string, ReadTarget>, conversationId: string, t: ReadTarget)
    requires ValidReads(targets) && ValidRead(conversationId, t)
    ensures ValidReads(targets[conversationId := t])
  {
    hide ValidRead;
  }

  lemma WithoutRead(targets: map<string, ReadTarget>, conversationId: string)
    requires ValidReads(targets)
    ensures ValidReads(Without(targets, conversationId))
  {
    hide ValidRead;
  }

  /** A new wake is ordered after every wake that it coexists with. */
  lemma NewWakeIsLast(wakes: map<string, Wake>, messageId: string, event: Wake)
    requires ValidWakes(wakes) && messageId !in wakes
    ensures forall m :: m in wakes ==> Num(wakes[m].recoveryOrder) < Num(Target(wakes, messageId, event).recoveryOrder)
  {
    hide ValidWakes;
    WakeOrders(wakes);
    DecimalRoundTrip(HighestOrder(wakes) + 1);
  }

  /** Either everything was written, or memory is as it was and the file old or new. */
  lemma CommitShape(a: Adapter, changed: Adapter, cursor: Cursor, w: Write)
    requires changed.disk == a.disk
    ensures
      var (b, ok) := Commit(a, changed, cursor, w);
      if ok then b == changed.(cursor := Some(cursor), needsMigration := false, disk := Some(Contents(changed, cursor)))
      else b == a.(disk := b.disk) && (b.disk == a.disk || b.disk == Some(Contents(changed, cursor)))
  {
    hide ValidCursor;
  }

  lemma CommitKeeps(a: Adapter, changed: Adapter, cursor: Cursor, w: Write)
    requires Kept(a) && Kept(changed) && changed.disk == a.disk
    ensures Kept(Commit(a, changed, cursor, w).0)
  {
    hide ValidReads, ValidWakes, ValidCursor;
  }

  lemma RetainKeeps(a: Adapter, messageId: string, event: Wake, w: Write)
    requires Kept(a)
    ensures Kept(Retain(a, messageId, event, w).0)
  {
    hide ValidReads, ValidWakes, ValidWake, ValidCursor, WellFormed, Target, Commit;
    var target := Target(a.wakes, messageId, event);
    if a.cursor.Some? && messageId !in a.wakes && ValidWake(messageId, target)
       && |a.wakes| < MAX_PENDING_AMBIENT_WAKES {
      NewWakeIsLast(a.wakes, messageId, event);
      WithWake(a.wakes, messageId, target);
      CommitKeeps(a, a.(wakes := a.wakes[messageId := target]), a.cursor.value, w);
    }
  }

  lemma CompleteKeeps(a: Adapter, messageId: string, w: Write)
    requires Kept(a)
    ensures Kept(Complete(a, messageId, w).0)
  {
    hide ValidReads, ValidWakes, ValidCursor, WellFormed, Commit;
    WithoutWake(a.wakes, messageId);
    if a.cursor.Some? { CommitKeeps(a, a.(wakes := Without(a.wakes, messageId)), a.cursor.value, w); }
  }

  lemma QueuedKeeps(a: Adapter, conversationId: string, t: ReadTarget)
    requires Kept(a) && ValidRead(conversationId, t)
    ensures Kept(Queued(a, conversationId, t))
  {
    hide ValidReads, ValidWakes, ValidRead, ValidCursor, WellFormed, Supersedes;
    WithRead(a.targets, conversationId, t);
  }

  lemma QueueReadKeeps(a: Adapter, cursor: Cursor, conversationId: string, t: ReadTarget, w: Write)
    requires Kept(a)
    ensures Kept(QueueRead(a, cursor, conversationId, t, w).0)
  {
    hide Kept, ValidRead, Commit, Supersedes;
    if ValidRead(conversationId, t) {
      QueuedKeeps(a, conversationId, t);
      CommitKeeps(a, Queued(a, conversationId, t), cursor, w);
    }
  }

  lemma CompleteReadKeeps(a: Adapter, conversationId: string, t: ReadTarget, w: Write)
    requires Kept(a)
    ensures Kept(CompleteRead(a, conversationId, t, w).0)
  {
    hide ValidReads, ValidWakes, ValidCursor, WellFormed, Commit;
    WithoutRead(a.targets, conversationId);
    if a.cursor.Some? { CommitKeeps(a, Removed(a, conversationId), a.cursor.value, w); }
  }

  lemma ParkKeeps(a: Adapter, conversationId: string, t: ReadTarget)
    requires Kept(a)
    ensures Kept(Park(a, conversationId, t))
  {
    hide ValidReads, ValidWakes;
  }

  lemma AdvanceKeeps(a: Adapter, position: Cursor, w: Write)
    requires Kept(a)
    ensures Kept(Advance(a, position, w).0)
  {
    hide Kept, Commit;
    CommitKeeps(a, a, position, w);
  }

  /** Reconnecting, in this process or the next: nothing that was durable is lost. */
  lemma ConnectKeeps(a: Adapter, bootstrap: Cursor, w: Write)
    requires Kept(a) && ValidCursor(bootstrap)
    ensures
      var (b, ok) := Connect(a, bootstrap, w);
      && Kept(b) && b.admitted == a.admitted && b.parked == map[] && (ok ==> Synced(b))
      && b.wakes == (if a.disk.Some? then a.disk.value.wakes else map[])
      && b.targets == (if a.disk.Some? then a.disk.value.targets else map[])
      && (if a.disk.Some? && a.disk.value.cursor.epoch == bootstrap.epoch then
            ok && b.cursor == Some(a.disk.value.cursor) && b.disk == a.disk
          else
            (b.cursor == Some(bootstrap) || (b.cursor.None? && !ok && a.disk.None?))
            && (b.disk == a.disk || b.disk == Some(Contents(b, bootstrap))))
  {
    hide ValidReads, ValidWakes, ValidCursor, Load, Encode;
    EmptyIsValid();
    if a.disk.Some? { FileRoundTrip(a.disk.value, bootstrap); }
  }

  lemma EmptyIsValid()
    ensures ValidReads(map[]) && ValidWakes(map[])
  {
  }

  // ---------------------------------------------------------------------------------------------
  // Memory and file
  // ---------------------------------------------------------------------------------------------

  datatype Mutation =
    | Retaining(messageId: string, event: Wake)
    | Completing(messageId: string)
    | Queueing(cursor: Cursor, conversationId: string, target: ReadTarget)
    | CompletingRead(conversationId: string, target: ReadTarget)
    | Advancing(position: Cursor)

  ghost function Mutate(a: Adapter, m: Mutation, w: Write): Adapter
  {
    match m
    case Retaining(id, event) => Retain(a, id, event, w).0
    case Completing(id) => Complete(a, id, w).0
    case Queueing(cursor, conversationId, t) => QueueRead(a, cursor, conversationId, t, w).0
    case CompletingRead(conversationId, t) => CompleteRead(a, conversationId, t, w).0
    case Advancing(position) => Advance(a, position, w).0
  }

  /** The document a mutator replaces the file with when its guards let it through. */
  ghost function Attempt(a: Adapter, m: Mutation): Option<Checkpoint>
    requires a.cursor.Some?
  {
    var cursor := a.cursor.value;
    match m
    case Retaining(id, event) =>
      var target := Target(a.wakes, id, event);
      if id !in a.wakes && ValidWake(id, target) && |a.wakes| < MAX_PENDING_AMBIENT_WAKES then
        Some(Checkpoint(cursor, a.targets, a.wakes[id := target]))
      else None
    case Completing(id) =>
      if id in a.wakes then Some(Checkpoint(cursor, a.targets, Without(a.wakes, id))) else None
    case Queueing(next, conversationId, t) =>
      if ValidCursor(next) && ValidRead(conversationId, t) then Some(Contents(Queued(a, conversationId, t), next))
      else None
    case CompletingRead(conversationId, t) =>
      if Pending(a, conversationId, t) then Some(Contents(Removed(a, conversationId), cursor)) else None
    case Advancing(position) =>
      if ValidCursor(position) then Some(Contents(a, position)) else None
  }

  /**
    After every mutator, successful or rolled back, memory equals the file, except exactly when the
    write raised after it had replaced the file with something new.
   */
  lemma RollbackAgrees(a: Adapter, m: Mutation, w: Write)
    requires Kept(a) && Synced(a)
    ensures Kept(Mutate(a, m, w))
    ensures Synced(Mutate(a, m, w)) <==>
            !(w.RaisedAfterReplace? && Attempt(a, m).Some? && Attempt(a, m) != a.disk)
  {
    hide Kept, Synced, Commit, ValidWake, ValidRead, ValidCursor, Target, Pending, Supersedes;
    MutateKeeps(a, m, w);
    assert a.cursor.Some? by { Current(a); }
    var cursor := a.cursor.value;
    match m
    case Retaining(id, event) => CommitAgrees(a, a.(wakes := a.wakes[id := Target(a.wakes, id, event)]), cursor, w);
    case Completing(id) =>
      var changed := a.(wakes := Without(a.wakes, id));
      CommitAgrees(a, changed, cursor, w);
      AdmissionIsVolatile(Commit(a, changed, cursor, w).0, id);
      AdmissionIsVolatile(a, id);
    case Queueing(next, conversationId, t) => CommitAgrees(a, Queued(a, conversationId, t), next, w);
    case CompletingRead(conversationId, t) => CommitAgrees(a, Removed(a, conversationId), cursor, w);
    case Advancing(position) => AdvanceAgrees(a, position, w);
  }

  lemma Current(a: Adapter)
    requires Synced(a)
    ensures a.cursor.Some? && a.disk == Some(Contents(a, a.cursor.value))
  {
  }

  lemma AdmissionIsVolatile(a: Adapter, messageId: string)
    ensures Synced(a.(admitted := a.admitted - {messageId})) == Synced(a)
  {
  }

  lemma AdvanceAgrees(a: Adapter, position: Cursor, w: Write)
    requires Kept(a) && Synced(a)
    ensures Synced(Advance(a, position, w).0) <==>
            !(w.RaisedAfterReplace? && ValidCursor(position) && Some(Contents(a, position)) != a.disk)
  {
    hide Kept, ValidCursor, Commit;
    CommitAgrees(a, a, position, w);
  }

  lemma CommitAgrees(a: Adapter, changed: Adapter, cursor: Cursor, w: Write)
    requires Kept(a) && Synced(a) && changed.disk == a.disk
    ensures a.cursor.Some? && ValidCursor(a.cursor.value)
    ensures Synced(Commit(a, changed, cursor, w).0) <==>
            !(w.RaisedAfterReplace? && ValidCursor(cursor) && Some(Contents(changed, cursor)) != a.disk)
  {
    hide ValidReads, ValidWakes, ValidCursor;
  }

  lemma MutateKeeps(a: Adapter, m: Mutation, w: Write)
    requires Kept(a)
    ensures Kept(Mutate(a, m, w))
  {
    hide Kept, Retain, Complete, QueueRead, CompleteRead, Advance;
    match m
    case Retaining(id, event) => RetainKeeps(a, id, event, w);
    case Completing(id) => CompleteKeeps(a, id, w);
    case Queueing(cursor, conversationId, t) => QueueReadKeeps(a, cursor, conversationId, t, w);
    case CompletingRead(conversationId, t) => CompleteReadKeeps(a, conversationId, t, w);
    case Advancing(position) => AdvanceKeeps(a, position, w);
  }

  const EPOCH := "00000000-0000-0000-0000-000000000000"

  /**
    The exception is reached in two calls: a first install, then an advance whose write raises behind the
    replacement. Memory stays at 0, the file says 1.
   */
  lemma RaisedWriteDiverges()
    ensures
      var empty := Adapter(None, map[], map[], map[], {}, false, None);
      var (a, ok) := Connect(empty, Cursor(EPOCH, "0"), Saved);
      var b := Mutate(a, Advancing(Cursor(EPOCH, "1")), RaisedAfterReplace);
      && ok && Kept(a) && Synced(a) && !Synced(b)
      && b.cursor == Some(Cursor(EPOCH, "0")) && b.disk.Some? && b.disk.value.cursor == Cursor(EPOCH, "1")
  {
    hide IsEntityId, IsSequence;
    SmallSequences();
    EpochIsValid();
    EmptyIsValid();
  }

  lemma EpochIsValid()
    ensures IsEntityId(EPOCH)
  {
  }

  lemma SmallSequences()
    ensures IsSequence("0") && IsSequence("1")
  {
    assert Value("") == 0;
    assert "1"[..0] == "" == "0"[..0];
  }
}
