/**
  What each checkpoint mutator of the Hermes adapter does (integrations/hermes-hype-comms/adapter.py:1458-1529,
  1569-1648, 1825-1897): which calls are refused, what a call that succeeds stores in memory and in the file, and what
  is left of one whose write fails.
 */
module CheckpointOutcomes {
  import opened Wrappers
  import opened Decimals
  import opened CheckpointFile
  import opened Checkpoint

  /** A write of `changed` at `cursor` that was attempted: all of it, nothing, or a file ahead of the old memory. */
  predicate Written(a: Adapter, changed: Adapter, cursor: Cursor, w: Write, b: Adapter, ok: bool)
  {
    var file := Checkpoint(cursor, changed.targets, changed.wakes);
    match w
    case Saved => ok && b == changed.(cursor := Some(cursor), needsMigration := false, disk := Some(file))
    case Failed => !ok && b == a
    case RaisedAfterReplace => !ok && b == a.(disk := Some(file))
  }

  lemma PersistMeans(a: Adapter, cursor: Cursor, w: Write)
    ensures var (b, ok) := Persist(a, cursor, w);
      if ValidCursor(cursor) then Written(a, a, cursor, w, b, ok) else b == a && !ok
  {
    hide ValidCursor;
  }

  lemma CommitMeans(a: Adapter, changed: Adapter, cursor: Cursor, w: Write)
    requires changed.disk == a.disk
    ensures var (b, ok) := Commit(a, changed, cursor, w);
      if ValidCursor(cursor) then Written(a, changed, cursor, w, b, ok) else b == a && !ok
  {
    hide ValidCursor;
  }

  /** The anchor that a wake event carries, as far as a retention compares it. */
  predicate SameEvent(a: Wake, b: Wake)
  {
    && a.position == b.position && a.conversationId == b.conversationId && a.conversationSequence == b.conversationSequence
    && a.authorId == b.authorId && a.threadRootId == b.threadRootId && a.createdAt == b.createdAt
  }

  /** The retained form of a new event: behind every other wake, and of no legacy origin. */
  predicate Retains(wakes: map<string, Wake>, event: Wake, target: Wake)
  {
    && SameEvent(target, event) && target.legacyWorkspaceSequence.None?
    && Canonical(target.recoveryOrder)
    && (forall m :: m in wakes ==> Num(wakes[m].recoveryOrder) < Num(target.recoveryOrder))
    && (wakes == map[] ==> target.recoveryOrder == "1")
    && (wakes != map[] ==> exists m :: m in wakes && Num(target.recoveryOrder) == Num(wakes[m].recoveryOrder) + 1)
  }

  lemma TargetMeans(wakes: map<string, Wake>, id: string, event: Wake)
    ensures id in wakes ==> (Target(wakes, id, event) == wakes[id] <==> SameEvent(wakes[id], event))
    ensures id !in wakes && (forall m :: m in wakes ==> Canonical(wakes[m].recoveryOrder)) ==>
              Retains(wakes, event, Target(wakes, id, event))
  {
    if id !in wakes {
      var highest := HighestOrder(wakes);
      DecimalRoundTrip(highest + 1);
      if wakes == map[] { OneIsWritten(); }
      NumIs(highest + 1);
      hide HighestOrder, Decimal, Canonical;
      if wakes != map[] && highest == 0 {
        var m :| m in wakes;
        assert Num(wakes[m].recoveryOrder) == 0;
      }
    }
  }

  lemma OneIsWritten()
    ensures Decimal(1) == "1"
  {
  }

  lemma NumIs(n: nat)
    ensures Num(Decimal(n)) == n
  {
    DecimalRoundTrip(n);
  }

  /**
    A retention is refused without a cursor, for an event that contradicts a retained one or is malformed, and when
    the queue is full. One that was retained before changes nothing; a new one is stored behind all others, or rolled back.
   */
  lemma RetainMeans(a: Adapter, id: string, event: Wake, w: Write)
    requires Kept(a)
    ensures
      var (b, failure) := Retain(a, id, event, w);
      if a.cursor.None? then b == a && failure == Some(InvalidState)
      else if id in a.wakes then b == a && failure == (if SameEvent(a.wakes[id], event) then None else Some(InvalidState))
      else
        var target := Target(a.wakes, id, event);
        && Retains(a.wakes, event, target)
        && (if !ValidWake(id, target) then b == a && failure == Some(InvalidState)
            else if |a.wakes| == MAX_PENDING_AMBIENT_WAKES then b == a && failure == Some(QueueFull)
            else failure in {None, Some(WriteFailed)}
                 && Written(a, a.(wakes := a.wakes[id := target]), a.cursor.value, w, b, failure.None?))
  {
    hide Kept, ValidWake, Target, Commit, Retains, Written, ValidCursor, Canonical;
    KeptParts(a);
    TargetMeans(a.wakes, id, event);
    if a.cursor.Some? { CommitMeans(a, a.(wakes := a.wakes[id := Target(a.wakes, id, event)]), a.cursor.value, w); }
  }

  lemma KeptParts(a: Adapter)
    requires Kept(a)
    ensures |a.wakes| <= MAX_PENDING_AMBIENT_WAKES && (a.cursor.Some? ==> ValidCursor(a.cursor.value))
    ensures forall m :: m in a.wakes ==> Canonical(a.wakes[m].recoveryOrder)
  {
    hide ValidReads, ValidCursor, WellFormed, ValidWake, Canonical;
    WakeOrders(a.wakes);
  }

  /** A completion ends the wake and its reservation together, or neither; a wake that is gone only gives back its reservation. */
  lemma CompleteMeans(a: Adapter, id: string, w: Write)
    requires Kept(a)
    ensures
      var (b, ok) := Complete(a, id, w);
      if id !in a.wakes then ok && b == a.(admitted := a.admitted - {id})
      else if a.cursor.None? then !ok && b == a
      else if w.Saved? then Written(a, a.(wakes := a.wakes - {id}, admitted := a.admitted - {id}), a.cursor.value, w, b, ok)
      else Written(a, a.(wakes := a.wakes - {id}), a.cursor.value, w, b, ok)
  {
    KeptParts(a);
    hide Kept, ValidCursor;
  }

  /** The checkpoint of a handoff: the handed-over position where that is ahead in the same epoch, else the current one. */
  lemma HandoffMeans(a: Adapter, p: Cursor)
    requires Kept(a)
    ensures CheckpointAfterHandoff(a, p)
            == if !ValidCursor(p) then None
               else if a.cursor.None? || (p.epoch == a.cursor.value.epoch && Num(p.sequence) > Num(a.cursor.value.sequence)) then Some(p)
               else a.cursor
  {
    KeptParts(a);
    if a.cursor.Some? && ValidCursor(p) { CompareIsNumeric(p.sequence, a.cursor.value.sequence); }
    hide Kept, IsEntityId, CompareDecimalStrings;
  }

  /** A target takes the place of an older one of its conversation only with a greater sequence, and is then no longer parked. */
  lemma QueueReadMeans(a: Adapter, cursor: Cursor, c: string, t: ReadTarget, w: Write)
    requires Kept(a)
    ensures
      var (b, ok) := QueueRead(a, cursor, c, t, w);
      var newer := c !in a.targets || Num(t.conversationSequence) > Num(a.targets[c].conversationSequence);
      if !ValidCursor(cursor) || !ValidRead(c, t) then b == a && !ok
      else Written(a, if newer then a.(targets := a.targets[c := t], parked := a.parked - {c}) else a, cursor, w, b, ok)
  {
    if ValidRead(c, t) && c in a.targets {
      assert ValidRead(c, a.targets[c]) by { KeptRead(a, c); }
      CompareIsNumeric(t.conversationSequence, a.targets[c].conversationSequence);
    }
    hide Kept, ValidCursor, IsEntityId, CompareDecimalStrings;
  }

  lemma KeptRead(a: Adapter, c: string)
    requires Kept(a) && c in a.targets
    ensures ValidRead(c, a.targets[c])
  {
    hide ValidRead, ValidWakes, ValidCursor, WellFormed;
  }

  /** Only the very target that was advanced is ended. */
  lemma CompleteReadMeans(a: Adapter, c: string, t: ReadTarget, w: Write)
    requires Kept(a)
    ensures
      var (b, ok) := CompleteRead(a, c, t, w);
      if c !in a.targets || a.targets[c] != t then b == a && ok
      else if a.cursor.None? then b == a && !ok
      else Written(a, a.(targets := a.targets - {c}, parked := a.parked - {c}), a.cursor.value, w, b, ok)
  {
    KeptParts(a);
    hide Kept, ValidCursor;
  }

  lemma ParkMeans(a: Adapter, c: string, t: ReadTarget)
    ensures Park(a, c, t) == if c in a.targets && a.targets[c] == t then a.(parked := a.parked[c := t]) else a
  {
  }

  /** An event's position is written unless it is the checkpoint already. */
  lemma AdvanceMeans(a: Adapter, p: Cursor, w: Write)
    ensures
      var (b, ok) := Advance(a, p, w);
      if a.cursor == Some(p) then b == a && ok
      else if !ValidCursor(p) then b == a && !ok
      else Written(a, a, p, w, b, ok)
  {
    hide ValidCursor;
  }

  /** Memory as it is read from a file: nothing parked, and no write pending. */
  function Fresh(a: Adapter, cursor: Option<Cursor>, targets: map<string, ReadTarget>, wakes: map<string, Wake>): Adapter
  {
    Adapter(cursor, targets, wakes, map[], a.admitted, false, a.disk)
  }

  /**
    Connecting starts a new installation at the bootstrap position, goes on with a file of the bootstrap's epoch, and
    moves any other file to the bootstrap position. It writes in the first and the last case only.
   */
  lemma ConnectMeans(a: Adapter, bootstrap: Cursor, w: Write)
    requires Kept(a) && ValidCursor(bootstrap)
    ensures
      var (b, ok) := Connect(a, bootstrap, w);
      if a.disk.None? then
        var empty := Fresh(a, None, map[], map[]);
        Written(empty, empty, bootstrap, w, b, ok)
      else
        var file := a.disk.value;
        if file.cursor.epoch == bootstrap.epoch then ok && b == Fresh(a, Some(file.cursor), file.targets, file.wakes)
        else
          var moved := Fresh(a, Some(bootstrap), file.targets, file.wakes).(needsMigration := true);
          Written(moved, moved, bootstrap, w, b, ok)
  {
    if a.disk.Some? {
      FileIsWellFormed(a);
      FileRoundTrip(a.disk.value, bootstrap);
    }
    hide Kept, ValidCursor, Load, Encode, WellFormed;
  }

  lemma FileIsWellFormed(a: Adapter)
    requires Kept(a) && a.disk.Some?
    ensures WellFormed(a.disk.value)
  {
    hide ValidReads, ValidCursor, WellFormed, ValidWakes;
  }
}
