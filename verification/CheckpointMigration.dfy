/**
  What `_load_cursor` promises about files it did not write itself: whatever it accepts is a
  checkpoint the adapter can keep, and a legacy ambient file keeps its order of admission.
 */
module CheckpointMigration {
  import opened Wrappers
  import opened Decimals
  import opened CheckpointFile

  // ---------------------------------------------------------------------------------------------
  // The legacy order
  // ---------------------------------------------------------------------------------------------

  lemma EarlierIsTotal(scalars: map<string, nat>, a: string, b: string)
    requires a in scalars && b in scalars
    ensures Earlier(scalars, a, b) <==> a != b && !Earlier(scalars, b, a)
  {
    BeforeIsTotal(a, b);
  }

  lemma EarlierIsTransitive(scalars: map<string, nat>, a: string, b: string, c: string)
    requires a in scalars && b in scalars && c in scalars
    requires Earlier(scalars, a, b) && Earlier(scalars, b, c)
    ensures Earlier(scalars, a, c)
  {
    if scalars[a] == scalars[b] == scalars[c] { BeforeIsTransitive(a, b, c); }
  }

  lemma SmallerSet<T>(p: set<T>, q: set<T>)
    requires p < q
    ensures |p| < |q|
  {
    assert q == p + (q - p) && q - p != {};
  }

  lemma EarlierCountsLess(scalars: map<string, nat>, a: string, b: string)
    requires a in scalars && b in scalars && Earlier(scalars, a, b)
    ensures Ordinal(scalars, a) < Ordinal(scalars, b)
  {
    hide Earlier;
    var p, q := Predecessors(scalars, a), Predecessors(scalars, b);
    forall o | o in p ensures o in q {
      EarlierIsTransitive(scalars, o, a, b);
    }
    EarlierIsTotal(scalars, a, a);
    assert a in q && a !in p;
    SmallerSet(p, q);
  }

  /** The ordinal of a legacy wake orders it exactly as (workspaceSequence, id) did. */
  lemma OrdinalsKeepOrder(scalars: map<string, nat>, a: string, b: string)
    requires a in scalars && b in scalars
    ensures Ordinal(scalars, a) < Ordinal(scalars, b) <==> Earlier(scalars, a, b)
    ensures Ordinal(scalars, a) == Ordinal(scalars, b) <==> a == b
    ensures 1 <= Ordinal(scalars, a) <= |scalars|
  {
    hide Earlier;
    EarlierIsTotal(scalars, a, b);
    EarlierIsTotal(scalars, a, a);
    if Earlier(scalars, a, b) {
      EarlierCountsLess(scalars, a, b);
    } else if a != b {
      EarlierCountsLess(scalars, b, a);
    }
    assert Predecessors(scalars, a) <= scalars.Keys && a !in Predecessors(scalars, a);
    SmallerSet(Predecessors(scalars, a), scalars.Keys);
  }

  method Earliest(scalars: map<string, nat>, ids: set<string>) returns (m: string)
    requires ids <= scalars.Keys && ids != {}
    ensures m in ids && forall o :: o in ids && o != m ==> Earlier(scalars, m, o)
  {
    hide Earlier;
    m :| m in ids;
    var rest := ids - {m};
    while rest != {}
      invariant rest <= ids && m in ids && m !in rest
      invariant forall o :: o in ids - rest && o != m ==> Earlier(scalars, m, o)
      decreases rest
    {
      var o :| o in rest;
      EarlierIsTotal(scalars, o, m);
      if Earlier(scalars, o, m) {
        forall p | p in ids - rest && p != m ensures Earlier(scalars, o, p) {
          EarlierIsTransitive(scalars, o, m, p);
        }
        m := o;
      }
      rest := rest - {o};
    }
  }

  /** `wake_items.sort(...)`: the list in which every wake stands at its ordinal. */
  method SortedIds(scalars: map<string, nat>) returns (sorted: seq<string>)
    ensures |sorted| == |scalars|
    ensures forall i :: 0 <= i < |sorted| ==> sorted[i] in scalars && Ordinal(scalars, sorted[i]) == i + 1
  {
    hide Earlier, Ordinal;
    sorted := [];
    var remaining := scalars.Keys;
    while remaining != {}
      invariant remaining <= scalars.Keys && |sorted| + |remaining| == |scalars|
      invariant forall i :: 0 <= i < |sorted| ==> sorted[i] in scalars && Ordinal(scalars, sorted[i]) == i + 1
      invariant forall a, b :: a in scalars.Keys - remaining && b in remaining ==> Earlier(scalars, a, b)
      decreases remaining
    {
      var m := Earliest(scalars, remaining);
      PickedOrdinal(scalars, remaining, m);
      sorted := sorted + [m];
      remaining := remaining - {m};
    }
  }

  lemma PickedOrdinal(scalars: map<string, nat>, remaining: set<string>, m: string)
    requires remaining <= scalars.Keys && m in remaining
    requires forall o :: o in remaining && o != m ==> Earlier(scalars, m, o)
    requires forall a, b :: a in scalars.Keys - remaining && b in remaining ==> Earlier(scalars, a, b)
    ensures Ordinal(scalars, m) == |scalars| - |remaining| + 1
  {
    hide Earlier;
    forall o | o in remaining ensures !Earlier(scalars, o, m) {
      EarlierIsTotal(scalars, o, m);
    }
    assert Predecessors(scalars, m) == scalars.Keys - remaining;
    assert |scalars.Keys - remaining| == |scalars.Keys| - |remaining|;
  }

  /** The loop of `_load_cursor` over the sorted legacy wakes, counting from 1. */
  method MigrateInOrder(wakes: map<string, Json>, bootstrap: Cursor) returns (next: map<string, Wake>)
    requires AllLegacy(wakes) && ValidCursor(bootstrap)
    ensures Some(next) == MigrateWakes(wakes, Some(bootstrap))
  {
    hide LegacySequence, Ordinal, Rebound, Earlier, ValidCursor, Migrated;
    ghost var target := Migrated(wakes, bootstrap);
    var sorted := SortedIds(Scalars(wakes));
    next := map[];
    var i := 0;
    while i < |sorted|
      invariant 0 <= i <= |sorted| && next.Keys <= wakes.Keys
      invariant forall k :: 0 <= k < i ==> sorted[k] in next
      invariant forall m :: m in next ==> next[m] == target[m]
    {
      next := next[sorted[i] := Rebound(sorted[i], wakes[sorted[i]], bootstrap, i + 1)];
      i := i + 1;
    }
    forall m | m in wakes ensures m in next { EveryIdIsSorted(Scalars(wakes), sorted, m); }
    assert next == target;
  }

  lemma EveryIdIsSorted(scalars: map<string, nat>, sorted: seq<string>, m: string)
    requires |sorted| == |scalars| && m in scalars
    requires forall i :: 0 <= i < |sorted| ==> sorted[i] in scalars && Ordinal(scalars, sorted[i]) == i + 1
    ensures m in sorted
  {
    hide Ordinal;
    OrdinalsKeepOrder(scalars, m, m);
    var k := Ordinal(scalars, m) - 1;
    OrdinalsKeepOrder(scalars, sorted[k], m);
  }

  // ---------------------------------------------------------------------------------------------
  // What is accepted
  // ---------------------------------------------------------------------------------------------

  lemma ReboundIsValid(m: string, j: Json, bootstrap: Cursor, n: nat)
    requires LegacySequence(m, j).Some? && ValidCursor(bootstrap) && 1 <= n <= MAX_PENDING_AMBIENT_WAKES
    ensures ValidWake(m, Rebound(m, j, bootstrap, n))
  {
    hide IsEntityId, IsIsoDateTime, IsSequence, ValidCursor;
    DecimalIsSequence(n);
    DecimalPositive(n);
    SameAnchor(j.fields, m, bootstrap, Decimal(n), LegacySequence(m, j));
  }

  lemma SameAnchor(fields: map<string, Json>, m: string, position: Cursor, order: string, legacy: Option<string>)
    requires IsAnchor(fields) && ValidAnchor(m, AnchorOf(fields, Cursor("", ""), "", None))
    ensures ValidAnchor(m, AnchorOf(fields, position, order, legacy))
  {
  }

  lemma MigratedOrder(wakes: map<string, Json>, bootstrap: Option<Cursor>, a: string)
    requires MigrateWakes(wakes, bootstrap).Some? && a in wakes
    ensures var w := MigrateWakes(wakes, bootstrap).value;
      w.Keys == wakes.Keys && AllDigits(w[a].recoveryOrder)
      && Value(w[a].recoveryOrder) == Ordinal(Scalars(wakes), a)
  {
    hide LegacySequence, Ordinal, Migrated;
    DecimalRoundTrip(Ordinal(Scalars(wakes), a));
  }

  lemma MigrationIsWellFormed(wakes: map<string, Json>, bootstrap: Option<Cursor>)
    requires MigrateWakes(wakes, bootstrap).Some? && |wakes| <= MAX_PENDING_AMBIENT_WAKES
    ensures WellFormedParts(map[], MigrateWakes(wakes, bootstrap).value)
  {
    hide ValidWake, Rebound, Ordinal, LegacySequence, Migrated;
    var migrated := MigrateWakes(wakes, bootstrap).value;
    assert migrated.Keys == wakes.Keys;
    assert |migrated| == |wakes|;
    forall m | m in wakes ensures ValidWake(m, migrated[m]) {
      OrdinalsKeepOrder(Scalars(wakes), m, m);
      ReboundIsValid(m, wakes[m], bootstrap.value, Ordinal(Scalars(wakes), m));
    }
    forall a, b | a in migrated && b in migrated && migrated[a].recoveryOrder == migrated[b].recoveryOrder
      ensures a == b
    {
      MigratedOrder(wakes, bootstrap, a);
      MigratedOrder(wakes, bootstrap, b);
      OrdinalsKeepOrder(Scalars(wakes), a, b);
    }
  }

  lemma DecodedIsWellFormed(pending: map<string, Json>, wakes: map<string, Json>)
    requires DecodeReads(pending).Some? && DecodeWakes(wakes).Some? && |wakes| <= MAX_PENDING_AMBIENT_WAKES
    ensures WellFormedParts(DecodeReads(pending).value, DecodeWakes(wakes).value)
  {
    hide DecodeRead, DecodeWake, ValidRead, ValidWake, DistinctOrders;
    var targets, decoded := DecodeReads(pending).value, DecodeWakes(wakes).value;
    assert decoded.Keys == wakes.Keys && |decoded| == |wakes|;
    forall c | c in targets ensures ValidRead(c, targets[c]) { DecodedReadIsValid(c, pending[c]); }
    forall m | m in decoded ensures ValidWake(m, decoded[m]) { DecodedWakeIsValid(m, wakes[m]); }
  }

  lemma DecodedReadIsValid(c: string, j: Json)
    requires DecodeRead(c, j).Some?
    ensures ValidRead(c, DecodeRead(c, j).value)
  {
  }

  lemma DecodedWakeIsValid(m: string, j: Json)
    requires DecodeWake(m, j).Some?
    ensures ValidWake(m, DecodeWake(m, j).value)
  {
    hide ValidWake;
  }

  /** Only well-formed checkpoints come out of a file, of any format and any contents. */
  lemma LoadIsSound(payload: Json, bootstrap: Option<Cursor>)
    requires Load(payload, bootstrap).Success?
    ensures var l := Load(payload, bootstrap).value;
      WellFormedParts(l.targets, l.wakes) && (l.cursor.Some? ==> ValidCursor(l.cursor.value))
      && (l.cursor.Some? && bootstrap.Some? ==> l.cursor.value.epoch == bootstrap.value.epoch)
  {
    hide DecodeReads, DecodeWakes, MigrateWakes, WellFormedParts, DecodeCursor, ValidCursor, ShapeOf, IsSequence,
         RebaseCursor, StoredCursor, WakeFields;
    var fields := payload.fields;
    var shape := ShapeOf(fields).value;
    LoadedCursor(shape, fields["cursor"], bootstrap);
    if shape.Scalar1? {
      EmptyIsWellFormed();
    } else {
      var pending, wakes := fields["pendingReadCursors"].fields, WakeFields(shape, fields).value;
      BoundedWakes(shape, fields);
      if shape.Ambient3? {
        MigrationIsWellFormed(wakes, bootstrap);
        ReadsAreWellFormed(pending);
        JoinParts(DecodeReads(pending).value, MigrateWakes(wakes, bootstrap).value);
      } else {
        DecodedIsWellFormed(pending, wakes);
      }
    }
  }

  lemma BoundedWakes(shape: Shape, fields: map<string, Json>)
    requires ShapeOf(fields) == Some(shape) && WakeFields(shape, fields).Some?
    ensures |WakeFields(shape, fields).value| <= MAX_PENDING_AMBIENT_WAKES
  {
  }

  lemma LoadedCursor(shape: Shape, j: Json, bootstrap: Option<Cursor>)
    requires StoredCursor(shape, j).Some?
    ensures
      var rebased := RebaseCursor(StoredCursor(shape, j).value, bootstrap);
      rebased.Some? && rebased.value.0.Some? ==>
        ValidCursor(rebased.value.0.value)
        && (bootstrap.Some? ==> rebased.value.0.value.epoch == bootstrap.value.epoch)
  {
    hide ValidCursor, DecodeCursor, IsSequence;
    if DecodeCursor(j).Some? { DecodedCursorIsValid(j); }
  }

  lemma EmptyIsWellFormed()
    ensures WellFormedParts(map[], map[])
  {
  }

  lemma ReadsAreWellFormed(pending: map<string, Json>)
    requires DecodeReads(pending).Some?
    ensures WellFormedParts(DecodeReads(pending).value, map[])
  {
    assert DecodeWakes(map[]) == Some(map[]);
    DecodedIsWellFormed(pending, map[]);
  }

  lemma JoinParts(targets: map<string, ReadTarget>, wakes: map<string, Wake>)
    requires WellFormedParts(targets, map[]) && WellFormedParts(map[], wakes)
    ensures WellFormedParts(targets, wakes)
  {
  }

  lemma DecodedCursorIsValid(j: Json)
    requires DecodeCursor(j).Some?
    ensures ValidCursor(DecodeCursor(j).value)
  {
  }

  // ---------------------------------------------------------------------------------------------
  // Migration
  // ---------------------------------------------------------------------------------------------

  predicate SameAnchors(a: Wake, b: Wake)
  {
    && a.conversationId == b.conversationId && a.conversationSequence == b.conversationSequence
    && a.authorId == b.authorId && a.threadRootId == b.threadRootId && a.createdAt == b.createdAt
  }

  /**
    Migrating a legacy ambient file: every wake keeps its anchor and its scalar, moves to the
    bootstrap position, and the new orders lie in 1..n, are distinct and follow (workspaceSequence, id).
   */
  lemma MigrationKeepsOrder(legacy: map<string, Json>, bootstrap: Option<Cursor>, a: string, b: string)
    requires MigrateWakes(legacy, bootstrap).Some? && a in legacy && b in legacy
    ensures
      var w := MigrateWakes(legacy, bootstrap).value;
      && AllLegacy(legacy) && w.Keys == legacy.Keys && bootstrap.Some?
      && w[a].position == bootstrap.value && w[a].legacyWorkspaceSequence == LegacySequence(a, legacy[a])
      && legacy[a].Object? && IsAnchor(legacy[a].fields)
      && SameAnchors(w[a], AnchorOf(legacy[a].fields, bootstrap.value, "", None))
      && AllDigits(w[a].recoveryOrder) && AllDigits(w[b].recoveryOrder)
      && 1 <= Value(w[a].recoveryOrder) <= |legacy|
      && (Value(w[a].recoveryOrder) < Value(w[b].recoveryOrder) <==> Earlier(Scalars(legacy), a, b))
      && (w[a].recoveryOrder == w[b].recoveryOrder ==> a == b)
  {
    hide Ordinal, Earlier, MigrateWakes, Scalars, LegacySequence, AnchorOf, IsAnchor, AllDigits;
    MigratedAnchor(legacy, bootstrap, a);
    MigratedOrder(legacy, bootstrap, a);
    MigratedOrder(legacy, bootstrap, b);
    OrdinalsKeepOrder(Scalars(legacy), a, b);
  }

  lemma MigratedAnchor(legacy: map<string, Json>, bootstrap: Option<Cursor>, a: string)
    requires MigrateWakes(legacy, bootstrap).Some? && a in legacy
    ensures
      var w := MigrateWakes(legacy, bootstrap).value;
      && AllLegacy(legacy) && a in w && bootstrap.Some? && w[a].position == bootstrap.value
      && w[a].legacyWorkspaceSequence == LegacySequence(a, legacy[a])
      && legacy[a].Object? && IsAnchor(legacy[a].fields)
      && SameAnchors(w[a], AnchorOf(legacy[a].fields, bootstrap.value, "", None))
  {
    hide Ordinal, Migrated;
    assert LegacySequence(a, legacy[a]).Some?;
  }

  /**
    Whatever the format of the file, the V4 rewrite that follows its migration reads back with the
    same cursor, read targets and wakes, and asks for no further rewrite.
   */
  lemma RewriteIsStable(payload: Json, bootstrap: Cursor)
    requires Load(payload, Some(bootstrap)).Success? && ValidCursor(bootstrap)
    ensures
      var l := Load(payload, Some(bootstrap)).value;
      var cursor := if l.cursor.Some? then l.cursor.value else bootstrap;
      Load(Encode(Checkpoint(cursor, l.targets, l.wakes)), Some(bootstrap))
      == Success(Loaded(Some(cursor), l.targets, l.wakes, false))
  {
    hide WellFormedParts, Load, Encode, ValidCursor;
    LoadIsSound(payload, Some(bootstrap));
    var l := Load(payload, Some(bootstrap)).value;
    var cursor := if l.cursor.Some? then l.cursor.value else bootstrap;
    FileRoundTrip(Checkpoint(cursor, l.targets, l.wakes), bootstrap);
  }
}
