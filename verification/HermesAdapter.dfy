/**
  The checkpoint methods of HypeCommsAdapter (integrations/hermes-hype-comms/adapter.py) on the
  object's own dictionaries, with each rollback spelled out, proved against module Checkpoint.
 */
module HermesAdapter {
  import opened Wrappers
  import opened Decimals
  import opened CheckpointFile
  import Spec = Checkpoint

  function Get<T>(m: map<string, T>, k: string): Option<T>
  {
    if k in m then Some(m[k]) else None
  }

  /** What the `except` branches do to one key of a dictionary. */
  function Restored<T>(m: map<string, T>, k: string, previous: Option<T>): map<string, T>
  {
    if previous.None? then m - {k} else m[k := previous.value]
  }

  lemma RestoringUndoes<T>(m: map<string, T>, k: string, t: T)
    ensures Restored(m, k, Get(m, k)) == m
    ensures Restored(m[k := t], k, Get(m, k)) == m
    ensures Restored(m - {k}, k, Get(m, k)) == m
  {
  }

  class HypeCommsAdapter {
    var cursor: Option<Cursor>
    var pendingReadCursors: map<string, ReadTarget>
    var pendingAmbientWakes: map<string, Wake>
    var parkedReadCursors: map<string, ReadTarget>
    var admittedAmbientWakes: set<string>
    var stateNeedsMigration: bool
    /** The durable cell that os.replace swaps. */
    var file: Option<Checkpoint>

    ghost function Model(): Spec.Adapter
      reads this
    {
      Spec.Adapter(cursor, pendingReadCursors, pendingAmbientWakes, parkedReadCursors, admittedAmbientWakes,
                   stateNeedsMigration, file)
    }

    constructor ()
      ensures Model() == Spec.Adapter(None, map[], map[], map[], {}, false, None)
    {
      cursor, pendingReadCursors, pendingAmbientWakes, parkedReadCursors := None, map[], map[], map[];
      admittedAmbientWakes, stateNeedsMigration, file := {}, false, None;
    }

    /** `_persist_cursor`; false when it raises. `w` is how the file system answers. */
    method PersistCursor(next: Cursor, w: Spec.Write) returns (ok: bool)
      modifies this`cursor, this`stateNeedsMigration, this`file
      ensures (Model(), ok) == Spec.Persist(old(Model()), next, w)
    {
      hide ValidCursor;
      if !ValidCursor(next) { return false; }
      if w.Failed? { return false; }
      file := Some(Checkpoint(next, pendingReadCursors, pendingAmbientWakes));
      if w.RaisedAfterReplace? { return false; }
      cursor, stateNeedsMigration := Some(next), false;
      return true;
    }

    /** The generator inside `max(...)`. */
    method HighestRecoveryOrder() returns (highest: nat)
      ensures highest == Spec.HighestOrder(pendingAmbientWakes)
    {
      var ids := pendingAmbientWakes.Keys;
      highest := 0;
      while ids != {}
        invariant ids <= pendingAmbientWakes.Keys
        invariant forall m :: m in pendingAmbientWakes.Keys - ids ==> Num(pendingAmbientWakes[m].recoveryOrder) <= highest
        invariant highest == 0
                  || exists m :: m in pendingAmbientWakes && Num(pendingAmbientWakes[m].recoveryOrder) == highest
        decreases ids
      {
        var m :| m in ids;
        if Num(pendingAmbientWakes[m].recoveryOrder) > highest {
          highest := Num(pendingAmbientWakes[m].recoveryOrder);
        }
        ids := ids - {m};
      }
    }

    /** `_retain_ambient_wake`. */
    method RetainAmbientWake(messageId: string, event: Wake, w: Spec.Write) returns (failure: Option<Spec.Failure>)
      modifies this
      ensures (Model(), failure) == Spec.Retain(old(Model()), messageId, event, w)
    {
      hide ValidWake, Decimal, Spec.HighestOrder, Spec.Commit;
      if cursor.None? { return Some(Spec.InvalidState); }
      var target := event;
      if messageId in pendingAmbientWakes {
        var previous := pendingAmbientWakes[messageId];
        target := target.(recoveryOrder := previous.recoveryOrder,
                          legacyWorkspaceSequence := previous.legacyWorkspaceSequence);
        if previous == target { return None; }
        return Some(Spec.InvalidState);
      }
      var highest := HighestRecoveryOrder();
      target := target.(recoveryOrder := Decimal(highest + 1), legacyWorkspaceSequence := None);
      if !ValidWake(messageId, target) { return Some(Spec.InvalidState); }
      if |pendingAmbientWakes| >= MAX_PENDING_AMBIENT_WAKES { return Some(Spec.QueueFull); }
      var ok := StoreWake(messageId, target, w);
      return if ok then None else Some(Spec.WriteFailed);
    }

    /** The insertion of `_retain_ambient_wake` and its rollback. */
    method StoreWake(messageId: string, target: Wake, w: Spec.Write) returns (ok: bool)
      requires cursor.Some? && messageId !in pendingAmbientWakes
      modifies this
      ensures (Model(), ok)
              == Spec.Commit(old(Model()), old(Model()).(wakes := old(pendingAmbientWakes)[messageId := target]),
                             old(cursor).value, w)
    {
      hide ValidCursor;
      ghost var before := pendingAmbientWakes;
      pendingAmbientWakes := pendingAmbientWakes[messageId := target];
      ok := PersistCursor(cursor.value, w);
      if !ok {
        pendingAmbientWakes := pendingAmbientWakes - {messageId};
        assert pendingAmbientWakes == before;
      }
    }

    /** `_complete_ambient_wake`. */
    method CompleteAmbientWake(messageId: string, w: Spec.Write) returns (ok: bool)
      modifies this
      ensures (Model(), ok) == Spec.Complete(old(Model()), messageId, w)
    {
      hide ValidCursor;
      if messageId !in pendingAmbientWakes {
        admittedAmbientWakes := admittedAmbientWakes - {messageId};
        return true;
      }
      if cursor.None? { return false; }
      ghost var before := pendingAmbientWakes;
      var target := pendingAmbientWakes[messageId];
      pendingAmbientWakes := pendingAmbientWakes - {messageId};
      ok := PersistCursor(cursor.value, w);
      if ok {
        admittedAmbientWakes := admittedAmbientWakes - {messageId};
      } else {
        pendingAmbientWakes := pendingAmbientWakes[messageId := target];
        assert pendingAmbientWakes == before;
      }
    }

    predicate Supersedes(conversationId: string, target: ReadTarget)
      reads this
      ensures Supersedes(conversationId, target) == Spec.Supersedes(pendingReadCursors, conversationId, target)
    {
      conversationId !in pendingReadCursors
      || CompareDecimalStrings(target.conversationSequence,
                               pendingReadCursors[conversationId].conversationSequence) > 0
    }

    /** `_queue_read_cursor`. */
    method QueueReadCursor(workspaceCursor: Cursor, conversationId: string, target: ReadTarget, w: Spec.Write)
      returns (ok: bool)
      modifies this
      ensures (Model(), ok) == Spec.QueueRead(old(Model()), workspaceCursor, conversationId, target, w)
    {
      hide ValidCursor, ValidRead, Spec.Supersedes, Get, Restored;
      if !ValidCursor(workspaceCursor) || !ValidRead(conversationId, target) { return false; }
      RestoringUndoes(pendingReadCursors, conversationId, target);
      RestoringUndoes(parkedReadCursors, conversationId, target);
      var previous := Get(pendingReadCursors, conversationId);
      var previousParked := Get(parkedReadCursors, conversationId);
      if Supersedes(conversationId, target) {
        pendingReadCursors := pendingReadCursors[conversationId := target];
        parkedReadCursors := parkedReadCursors - {conversationId};
      }
      ok := PersistCursor(workspaceCursor, w);
      if !ok {
        pendingReadCursors := Restored(pendingReadCursors, conversationId, previous);
        parkedReadCursors := Restored(parkedReadCursors, conversationId, previousParked);
      }
    }

    /** `_complete_read_cursor`. */
    method CompleteReadCursor(conversationId: string, expected: ReadTarget, w: Spec.Write) returns (ok: bool)
      modifies this
      ensures (Model(), ok) == Spec.CompleteRead(old(Model()), conversationId, expected, w)
    {
      hide ValidCursor;
      if conversationId !in pendingReadCursors || pendingReadCursors[conversationId] != expected { return true; }
      if cursor.None? { return false; }
      RestoringUndoes(pendingReadCursors, conversationId, expected);
      RestoringUndoes(parkedReadCursors, conversationId, expected);
      var previousParked := Get(parkedReadCursors, conversationId);
      pendingReadCursors := pendingReadCursors - {conversationId};
      parkedReadCursors := parkedReadCursors - {conversationId};
      ok := PersistCursor(cursor.value, w);
      if !ok {
        pendingReadCursors := pendingReadCursors[conversationId := expected];
        parkedReadCursors := Restored(parkedReadCursors, conversationId, previousParked);
      }
    }

    /** The branch of `_flush_one_read_cursor` for a refusal that cannot be retried. */
    method ParkReadCursor(conversationId: string, target: ReadTarget)
      modifies this`parkedReadCursors
      ensures Model() == Spec.Park(old(Model()), conversationId, target)
    {
      if conversationId in pendingReadCursors && pendingReadCursors[conversationId] == target {
        parkedReadCursors := parkedReadCursors[conversationId := target];
      }
    }

    /** The last statement of `_accept_event`. */
    method AdvanceCursor(position: Cursor, w: Spec.Write) returns (ok: bool)
      modifies this
      ensures (Model(), ok) == Spec.Advance(old(Model()), position, w)
    {
      hide ValidCursor;
      if cursor == Some(position) { return true; }
      ok := PersistCursor(position, w);
    }

    /** `_load_cursor`, then the two persists of `connect`. */
    method Connect(bootstrap: Cursor, w: Spec.Write) returns (ok: bool)
      modifies this
      ensures (Model(), ok) == Spec.Connect(old(Model()), bootstrap, w)
    {
      hide ValidCursor, Load, Encode;
      pendingReadCursors, pendingAmbientWakes, parkedReadCursors := map[], map[], map[];
      stateNeedsMigration, cursor := false, None;
      if file.Some? {
        match Load(Encode(file.value), Some(bootstrap)) {
          case Failure(_) => return false;
          case Success(l) =>
            pendingReadCursors, pendingAmbientWakes := l.targets, l.wakes;
            stateNeedsMigration, cursor := l.needsMigration, l.cursor;
        }
      }
      if cursor.None? {
        ok := PersistCursor(bootstrap, w);
      } else if stateNeedsMigration {
        ok := PersistCursor(cursor.value, w);
      } else {
        ok := true;
      }
    }
  }
}
