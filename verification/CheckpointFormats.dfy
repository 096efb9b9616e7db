/**
  Every checkpoint format that `_load_cursor` has to read (integrations/hermes-hype-comms/adapter.py:1338-1456),
  as the document an earlier version wrote. Loading accepts exactly the valid documents of the five formats and
  keeps all that they hold.
 */
module CheckpointFormats {
  import opened Wrappers
  import opened Decimals
  import opened CheckpointFile
  import Migration = CheckpointMigration

  /** A wake from before replay epochs. */
  datatype LegacyWake = LegacyWake(
    conversationId: string,
    conversationSequence: string,
    authorId: string,
    threadRootId: Option<string>,
    createdAt: string,
    workspaceSequence: string)

  datatype Document =
    | Version1(scalar: string)
    | Version2(scalar: string, targets: map<string, ReadTarget>)
    | Version3(cursor: Cursor, targets: map<string, ReadTarget>)
    | AmbientVersion3(scalar: string, targets: map<string, ReadTarget>, legacy: map<string, LegacyWake>)
    | Version4(cursor: Cursor, targets: map<string, ReadTarget>, wakes: map<string, Wake>)

  // ---------------------------------------------------------------------------------------------
  // As JSON
  // ---------------------------------------------------------------------------------------------

  function OptionalText(t: Option<string>): Json
  {
    if t.Some? then Str(t.value) else Null
  }

  function EncodeLegacy(w: LegacyWake): Json
  {
    Object(map["conversationId" := Str(w.conversationId),
               "conversationSequence" := Str(w.conversationSequence),
               "authorId" := Str(w.authorId),
               "threadRootId" := OptionalText(w.threadRootId),
               "createdAt" := Str(w.createdAt),
               "workspaceSequence" := Str(w.workspaceSequence)])
  }

  function EncodeLegacies(legacy: map<string, LegacyWake>): Json
  {
    Object(map m | m in legacy :: EncodeLegacy(legacy[m]))
  }

  function Base(version: int, cursor: Json, targets: map<string, ReadTarget>): map<string, Json>
  {
    map["version" := Number(version), "cursor" := cursor, "pendingReadCursors" := EncodeReads(targets)]
  }

  function Written(d: Document): Json
  {
    match d
    case Version1(scalar) => Object(map["version" := Number(1), "cursor" := Str(scalar)])
    case Version2(scalar, targets) => Object(Base(2, Str(scalar), targets))
    case Version3(cursor, targets) => Object(Base(3, EncodeCursor(cursor), targets))
    case AmbientVersion3(scalar, targets, legacy) =>
      Object(Base(3, Str(scalar), targets)["pendingAmbientWakes" := EncodeLegacies(legacy)])
    case Version4(cursor, targets, wakes) =>
      Object(Base(4, EncodeCursor(cursor), targets)["pendingAmbientWakes" := EncodeWakes(wakes)])
  }

  // ---------------------------------------------------------------------------------------------
  // What it means
  // ---------------------------------------------------------------------------------------------

  predicate ValidLegacy(m: string, w: LegacyWake)
  {
    && IsEntityId(m) && IsEntityId(w.conversationId) && IsSequence(w.conversationSequence) && IsEntityId(w.authorId)
    && (w.threadRootId.Some? ==> IsEntityId(w.threadRootId.value)) && IsIsoDateTime(w.createdAt)
    && IsSequence(w.workspaceSequence)
  }

  predicate Valid(d: Document)
  {
    match d
    case Version1(scalar) => IsSequence(scalar)
    case Version2(scalar, targets) => IsSequence(scalar) && ValidReads(targets)
    case Version3(cursor, targets) => ValidCursor(cursor) && ValidReads(targets)
    case AmbientVersion3(scalar, targets, legacy) =>
      && IsSequence(scalar) && ValidReads(targets)
      && |legacy| <= MAX_PENDING_AMBIENT_WAKES && forall m :: m in legacy ==> ValidLegacy(m, legacy[m])
    case Version4(cursor, targets, wakes) => ValidCursor(cursor) && ValidReads(targets) && ValidWakes(wakes)
  }

  /** The bootstrap cursor is looked at only where it is needed. */
  predicate BootstrapOk(d: Document, bootstrap: Option<Cursor>)
  {
    match d
    case AmbientVersion3(_, _, legacy) => legacy != map[] ==> bootstrap.Some? && ValidCursor(bootstrap.value)
    case Version3(_, _) => bootstrap.Some? ==> ValidCursor(bootstrap.value)
    case Version4(_, _, _) => bootstrap.Some? ==> ValidCursor(bootstrap.value)
    case _ => true
  }

  /** `a` comes before `b`: by workspace sequence as a number, then by message id. */
  predicate Sooner(legacy: map<string, LegacyWake>, a: string, b: string)
    requires a in legacy && b in legacy
  {
    var x, y := Num(legacy[a].workspaceSequence), Num(legacy[b].workspaceSequence);
    x < y || (x == y && Before(a, b))
  }

  function Place(legacy: map<string, LegacyWake>, m: string): nat
    requires m in legacy
  {
    1 + |set o | o in legacy && Sooner(legacy, o, m)|
  }

  /** The wake stays what it was, at the bootstrap position, behind all that came sooner. */
  function Rebased(w: LegacyWake, bootstrap: Cursor, place: nat): Wake
  {
    Wake(bootstrap, w.conversationId, w.conversationSequence, w.authorId, w.threadRootId, w.createdAt,
         Decimal(place), Some(w.workspaceSequence))
  }

  function RebasedAll(legacy: map<string, LegacyWake>, bootstrap: Option<Cursor>): map<string, Wake>
    requires legacy != map[] ==> bootstrap.Some?
  {
    map m | m in legacy :: Rebased(legacy[m], bootstrap.value, Place(legacy, m))
  }

  predicate Retired(cursor: Cursor, bootstrap: Option<Cursor>)
  {
    bootstrap.Some? && bootstrap.value.epoch != cursor.epoch
  }

  function Current(cursor: Cursor, bootstrap: Option<Cursor>): Cursor
  {
    if Retired(cursor, bootstrap) then bootstrap.value else cursor
  }

  function Meaning(d: Document, bootstrap: Option<Cursor>): Loaded
    requires BootstrapOk(d, bootstrap)
  {
    match d
    case Version1(_) => Loaded(None, map[], map[], true)
    case Version2(_, targets) => Loaded(None, targets, map[], true)
    case Version3(cursor, targets) => Loaded(Some(Current(cursor, bootstrap)), targets, map[], true)
    case AmbientVersion3(_, targets, legacy) => Loaded(None, targets, RebasedAll(legacy, bootstrap), true)
    case Version4(cursor, targets, wakes) =>
      Loaded(Some(Current(cursor, bootstrap)), targets, wakes, Retired(cursor, bootstrap))
  }

  // ---------------------------------------------------------------------------------------------
  // Parts
  // ---------------------------------------------------------------------------------------------

  lemma CursorIff(c: Cursor)
    ensures DecodeCursor(EncodeCursor(c)) == if ValidCursor(c) then Some(c) else None
  {
    hide ValidCursor;
    assert EncodeCursor(c).fields.Keys == {"epoch", "sequence"};
  }

  lemma ReadIff(id: string, t: ReadTarget)
    ensures DecodeRead(id, EncodeRead(t)) == if ValidRead(id, t) then Some(t) else None
  {
    hide ValidRead;
    assert EncodeRead(t).fields.Keys == {"messageId", "conversationSequence"};
  }

  lemma ReadsIff(targets: map<string, ReadTarget>)
    ensures DecodeReads(EncodeReads(targets).fields) == if ValidReads(targets) then Some(targets) else None
  {
    hide ValidRead, DecodeRead, EncodeRead;
    var fields := EncodeReads(targets).fields;
    forall c | c in targets ensures DecodeRead(c, fields[c]) == if ValidRead(c, targets[c]) then Some(targets[c]) else None {
      ReadIff(c, targets[c]);
    }
    if !ValidReads(targets) {
      var c :| c in targets && !ValidRead(c, targets[c]);
      assert c in fields && DecodeRead(c, fields[c]).None?;
    } else {
      assert (map c | c in fields :: DecodeRead(c, fields[c]).value) == targets;
    }
  }

  lemma WakeIff(m: string, w: Wake)
    ensures DecodeWake(m, EncodeWake(w)) == if ValidWake(m, w) then Some(w) else None
  {
    hide ValidAnchor, ValidCursor, IsSequence, EncodeCursor, DecodeCursor, IsAnchor, AnchorOf;
    var fields := EncodeWake(w).fields;
    CursorIff(w.position);
    AnchorIs(w, fields);
    assert fields.Keys - {"legacyWorkspaceSequence"} == ANCHOR_KEYS + {"position", "recoveryOrder"};
    assert ValidWake(m, w) ==> ValidCursor(w.position);
  }

  lemma AnchorIs(w: Wake, fields: map<string, Json>)
    requires forall k :: k in ANCHOR_KEYS ==> k in fields && fields[k] == AnchorFields(w)[k]
    ensures IsAnchor(fields)
    ensures forall position, order, legacy ::
              AnchorOf(fields, position, order, legacy)
              == w.(position := position, recoveryOrder := order, legacyWorkspaceSequence := legacy)
  {
    assert forall k :: k in ANCHOR_TEXTS ==> k in ANCHOR_KEYS;
    assert "threadRootId" in ANCHOR_KEYS;
  }

  lemma WakesIff(wakes: map<string, Wake>)
    ensures |EncodeWakes(wakes).fields| == |wakes|
    ensures DecodeWakes(EncodeWakes(wakes).fields)
            == if (forall m :: m in wakes ==> ValidWake(m, wakes[m])) && DistinctOrders(wakes) then Some(wakes) else None
  {
    hide ValidWake, DecodeWake, EncodeWake, DistinctOrders;
    var fields := EncodeWakes(wakes).fields;
    assert fields.Keys == wakes.Keys && |fields| == |fields.Keys| && |wakes| == |wakes.Keys|;
    forall m | m in wakes ensures DecodeWake(m, fields[m]) == if ValidWake(m, wakes[m]) then Some(wakes[m]) else None {
      WakeIff(m, wakes[m]);
    }
    if exists m :: m in wakes && !ValidWake(m, wakes[m]) {
      var m :| m in wakes && !ValidWake(m, wakes[m]);
      assert m in fields && DecodeWake(m, fields[m]).None?;
    } else {
      assert (map m | m in fields :: DecodeWake(m, fields[m]).value) == wakes;
    }
  }

  lemma LegacyIff(m: string, w: LegacyWake)
    ensures LegacySequence(m, EncodeLegacy(w)) == if ValidLegacy(m, w) then Some(w.workspaceSequence) else None
    ensures ValidLegacy(m, w) ==>
              forall b, n :: Rebound(m, EncodeLegacy(w), b, n) == Rebased(w, b, n)
  {
    hide IsEntityId, IsSequence, IsIsoDateTime;
    var fields := EncodeLegacy(w).fields;
    var typed := Wake(Cursor("", ""), w.conversationId, w.conversationSequence, w.authorId, w.threadRootId, w.createdAt, "", None);
    AnchorIs(typed, fields);
    assert fields.Keys == ANCHOR_KEYS + {"workspaceSequence"};
  }

  lemma LegaciesIff(legacy: map<string, LegacyWake>)
    ensures EncodeLegacies(legacy).fields.Keys == legacy.Keys && |EncodeLegacies(legacy).fields| == |legacy|
    ensures AllLegacy(EncodeLegacies(legacy).fields) <==> forall m :: m in legacy ==> ValidLegacy(m, legacy[m])
  {
    hide ValidLegacy, LegacySequence, EncodeLegacy;
    var fields := EncodeLegacies(legacy).fields;
    assert fields.Keys == legacy.Keys && |fields| == |fields.Keys| && |legacy| == |legacy.Keys|;
    forall m | m in legacy ensures LegacySequence(m, fields[m]).Some? <==> ValidLegacy(m, legacy[m]) {
      LegacyIff(m, legacy[m]);
    }
  }

  /** The place by which a legacy wake is migrated is the one that `Place` counts. */
  lemma PlaceIs(legacy: map<string, LegacyWake>, m: string)
    requires m in legacy && forall o :: o in legacy ==> ValidLegacy(o, legacy[o])
    ensures AllLegacy(EncodeLegacies(legacy).fields)
    ensures Ordinal(Scalars(EncodeLegacies(legacy).fields), m) == Place(legacy, m)
  {
    hide ValidLegacy, LegacySequence, EncodeLegacy, Num, Before;
    LegaciesIff(legacy);
    var fields := EncodeLegacies(legacy).fields;
    var scalars := Scalars(fields);
    forall o | o in legacy ensures o in scalars && scalars[o] == Num(legacy[o].workspaceSequence) {
      LegacyIff(o, legacy[o]);
      ScalarIs(o, legacy[o]);
    }
    assert Predecessors(scalars, m) == set o | o in legacy && Sooner(legacy, o, m);
  }

  lemma ScalarIs(m: string, w: LegacyWake)
    requires ValidLegacy(m, w)
    ensures AllDigits(w.workspaceSequence) && Value(w.workspaceSequence) == Num(w.workspaceSequence)
  {
    hide IsEntityId, IsIsoDateTime;
  }

  lemma MigrationIs(legacy: map<string, LegacyWake>, bootstrap: Option<Cursor>)
    ensures
      MigrateWakes(EncodeLegacies(legacy).fields, bootstrap)
      == if (forall m :: m in legacy ==> ValidLegacy(m, legacy[m])) && (legacy != map[] ==> bootstrap.Some? && ValidCursor(bootstrap.value))
         then Some(RebasedAll(legacy, bootstrap)) else None
  {
    hide ValidLegacy, LegacySequence, EncodeLegacy, ValidCursor, Place, Ordinal, Rebound, Rebased, Scalars, AllLegacy;
    LegaciesIff(legacy);
    var fields := EncodeLegacies(legacy).fields;
    if (forall m :: m in legacy ==> ValidLegacy(m, legacy[m])) && legacy != map[] && bootstrap.Some? && ValidCursor(bootstrap.value) {
      var migrated := Migrated(fields, bootstrap.value);
      forall m | m in legacy ensures migrated[m] == RebasedAll(legacy, bootstrap)[m] {
        PlaceIs(legacy, m);
        LegacyIff(m, legacy[m]);
        assert fields[m] == EncodeLegacy(legacy[m]);
      }
      assert migrated == RebasedAll(legacy, bootstrap);
    }
  }

  // ---------------------------------------------------------------------------------------------
  // Loading
  // ---------------------------------------------------------------------------------------------

  lemma ShapeIs(d: Document)
    ensures
      var fields := Written(d).fields;
      && ShapeOf(fields) == Some(match d
                                 case Version1(_) => Scalar1
                                 case Version2(_, _) => Scalar2
                                 case Version3(_, _) => Epoch3
                                 case AmbientVersion3(_, _, _) => Ambient3
                                 case Version4(_, _, _) => Shape.Current)
  {
    hide EncodeCursor, EncodeReads, EncodeWakes, EncodeLegacies;
    var fields := Written(d).fields;
    match d
    case Version1(_) => assert fields.Keys == {"version", "cursor"};
    case Version2(_, _) => assert fields.Keys == BASE_KEYS;
    case Version3(_, _) => assert fields.Keys == BASE_KEYS;
    case AmbientVersion3(_, _, _) => assert fields.Keys == BASE_KEYS + {"pendingAmbientWakes"};
    case Version4(_, _, _) => assert fields.Keys == BASE_KEYS + {"pendingAmbientWakes"};
  }

  lemma StoredIs(cursor: Cursor, bootstrap: Option<Cursor>)
    ensures RebaseCursor(Some(cursor), bootstrap)
            == if bootstrap.Some? && !ValidCursor(bootstrap.value) then None
               else Some((Some(Current(cursor, bootstrap)), Retired(cursor, bootstrap)))
  {
    hide ValidCursor;
  }

  /**
    A document of any format is accepted if and only if its parts are valid and the bootstrap cursor is, where it
    is needed; and then what is loaded is exactly what the document holds.
   */
  lemma LoadMeans(d: Document, bootstrap: Option<Cursor>)
    ensures Load(Written(d), bootstrap)
            == if Valid(d) && BootstrapOk(d, bootstrap) then Success(Meaning(d, bootstrap)) else Failure(Unsupported)
  {
    hide Load, Written, Valid, BootstrapOk, Meaning;
    match d
    case Version3(_, _) => LoadEpoch(d, bootstrap);
    case Version4(_, _, _) => LoadCurrent(d, bootstrap);
    case _ => LoadScalar(d, bootstrap);
  }

  lemma LoadScalar(d: Document, bootstrap: Option<Cursor>)
    requires d.Version1? || d.Version2? || d.AmbientVersion3?
    ensures Load(Written(d), bootstrap)
            == if Valid(d) && BootstrapOk(d, bootstrap) then Success(Meaning(d, bootstrap)) else Failure(Unsupported)
  {
    hide ValidCursor, ValidReads, ValidWakes, ValidLegacy, IsSequence, EncodeCursor, EncodeReads, EncodeWakes, EncodeLegacies,
         DecodeCursor, DecodeReads, DecodeWakes, MigrateWakes, RebasedAll, ShapeOf, RebaseCursor;
    ShapeIs(d);
    NoneStored(bootstrap);
    if !d.Version1? {
      ReadsIff(d.targets);
      ReadsAreObject(d.targets);
      NoWakes();
    }
    if d.AmbientVersion3? {
      LegaciesIff(d.legacy);
      LegaciesAreObject(d.legacy);
      MigrationIs(d.legacy, bootstrap);
    }
  }

  lemma LoadEpoch(d: Document, bootstrap: Option<Cursor>)
    requires d.Version3?
    ensures Load(Written(d), bootstrap)
            == if Valid(d) && BootstrapOk(d, bootstrap) then Success(Meaning(d, bootstrap)) else Failure(Unsupported)
  {
    hide ValidCursor, ValidReads, ValidWakes, ValidLegacy, IsSequence, EncodeCursor, EncodeReads, EncodeWakes, EncodeLegacies,
         DecodeCursor, DecodeReads, DecodeWakes, MigrateWakes, RebasedAll, ShapeOf, RebaseCursor;
    ShapeIs(d);
    CursorIff(d.cursor);
    StoredIs(d.cursor, bootstrap);
    ReadsIff(d.targets);
    ReadsAreObject(d.targets);
    NoWakes();
  }

  lemma LoadCurrent(d: Document, bootstrap: Option<Cursor>)
    requires d.Version4?
    ensures Load(Written(d), bootstrap)
            == if Valid(d) && BootstrapOk(d, bootstrap) then Success(Meaning(d, bootstrap)) else Failure(Unsupported)
  {
    hide ValidCursor, ValidReads, ValidWakes, ValidLegacy, IsSequence, EncodeCursor, EncodeReads, EncodeWakes, EncodeLegacies,
         DecodeCursor, DecodeReads, DecodeWakes, MigrateWakes, RebasedAll, ShapeOf, RebaseCursor;
    ShapeIs(d);
    CursorIff(d.cursor);
    StoredIs(d.cursor, bootstrap);
    ReadsIff(d.targets);
    ReadsAreObject(d.targets);
    WakesIff(d.wakes);
    WakesAreObject(d.wakes);
  }

  lemma NoneStored(bootstrap: Option<Cursor>)
    ensures RebaseCursor(None, bootstrap) == Some((None, false))
  {
  }

  lemma ReadsAreObject(targets: map<string, ReadTarget>)
    ensures EncodeReads(targets).Object?
  {
  }

  lemma LegaciesAreObject(legacy: map<string, LegacyWake>)
    ensures EncodeLegacies(legacy).Object?
  {
  }

  lemma WakesAreObject(wakes: map<string, Wake>)
    ensures EncodeWakes(wakes).Object?
    ensures ValidWakes(wakes) <==>
              |wakes| <= MAX_PENDING_AMBIENT_WAKES && (forall m :: m in wakes ==> ValidWake(m, wakes[m])) && DistinctOrders(wakes)
  {
  }

  lemma NoWakes()
    ensures DecodeWakes(map[]) == Some(map[])
  {
  }

  // ---------------------------------------------------------------------------------------------
  // Nothing else is accepted
  // ---------------------------------------------------------------------------------------------

  lemma CursorBack(j: Json)
    requires DecodeCursor(j).Some?
    ensures EncodeCursor(DecodeCursor(j).value) == j
  {
    hide ValidCursor;
    assert "epoch" in {"epoch", "sequence"} && "sequence" in {"epoch", "sequence"};
    assert EncodeCursor(DecodeCursor(j).value).fields == j.fields;
  }

  lemma ReadsBack(fields: map<string, Json>)
    requires DecodeReads(fields).Some?
    ensures EncodeReads(DecodeReads(fields).value) == Object(fields)
  {
    hide DecodeRead, EncodeRead;
    var targets := DecodeReads(fields).value;
    forall c | c in fields ensures EncodeRead(targets[c]) == fields[c] { ReadBack(c, fields[c]); }
    assert EncodeReads(targets).fields == fields;
  }

  lemma ReadBack(id: string, j: Json)
    requires DecodeRead(id, j).Some?
    ensures EncodeRead(DecodeRead(id, j).value) == j
  {
    hide ValidRead;
    assert "messageId" in {"messageId", "conversationSequence"} && "conversationSequence" in {"messageId", "conversationSequence"};
    assert EncodeRead(DecodeRead(id, j).value).fields == j.fields;
  }

  lemma WakesBack(fields: map<string, Json>)
    requires DecodeWakes(fields).Some?
    ensures EncodeWakes(DecodeWakes(fields).value) == Object(fields)
  {
    hide DecodeWake, EncodeWake, DistinctOrders;
    var wakes := DecodeWakes(fields).value;
    forall m | m in fields ensures EncodeWake(wakes[m]) == fields[m] { WakeBack(m, fields[m]); }
    assert EncodeWakes(wakes).fields == fields;
  }

  lemma WakeBack(m: string, j: Json)
    requires DecodeWake(m, j).Some?
    ensures EncodeWake(DecodeWake(m, j).value) == j
  {
    hide ValidWake, DecodeCursor, EncodeCursor;
    CursorBack(j.fields["position"]);
    AnchorTexts(j.fields);
    var w := DecodeWake(m, j).value;
    var rest := j.fields.Keys - {"legacyWorkspaceSequence"};
    assert j.fields.Keys == if "legacyWorkspaceSequence" in j.fields then rest + {"legacyWorkspaceSequence"} else rest;
    assert EncodeWake(w).fields.Keys == j.fields.Keys;
    assert EncodeWake(w).fields == j.fields;
  }

  lemma AnchorTexts(fields: map<string, Json>)
    requires IsAnchor(fields)
    ensures fields["conversationId"].Str? && fields["conversationSequence"].Str? && fields["authorId"].Str? && fields["createdAt"].Str?
  {
    assert "conversationId" in ANCHOR_TEXTS && "conversationSequence" in ANCHOR_TEXTS && "authorId" in ANCHOR_TEXTS
           && "createdAt" in ANCHOR_TEXTS;
  }

  /** The legacy wake that `j` spells. */
  function LegacyOf(m: string, j: Json): LegacyWake
    requires LegacySequence(m, j).Some?
  {
    var w := AnchorOf(j.fields, Cursor("", ""), "", None);
    LegacyWake(w.conversationId, w.conversationSequence, w.authorId, w.threadRootId, w.createdAt, LegacySequence(m, j).value)
  }

  lemma LegacyBack(m: string, j: Json)
    requires LegacySequence(m, j).Some?
    ensures EncodeLegacy(LegacyOf(m, j)) == j
  {
    hide ValidAnchor, IsSequence;
    AnchorTexts(j.fields);
    assert EncodeLegacy(LegacyOf(m, j)).fields.Keys == j.fields.Keys;
    assert EncodeLegacy(LegacyOf(m, j)).fields == j.fields;
  }

  function LegaciesOf(fields: map<string, Json>): map<string, LegacyWake>
    requires AllLegacy(fields)
  {
    map m | m in fields :: LegacyOf(m, fields[m])
  }

  lemma LegaciesBack(fields: map<string, Json>)
    requires AllLegacy(fields)
    ensures EncodeLegacies(LegaciesOf(fields)) == Object(fields)
  {
    hide LegacySequence, LegacyOf, EncodeLegacy;
    forall m | m in fields ensures EncodeLegacy(LegaciesOf(fields)[m]) == fields[m] { LegacyBack(m, fields[m]); }
    assert EncodeLegacies(LegaciesOf(fields)).fields == fields;
  }

  /** Whatever file is accepted is a valid document of one of the five formats, so LoadMeans says what it means. */
  lemma AcceptedIsDocument(payload: Json, bootstrap: Option<Cursor>) returns (d: Document)
    requires Load(payload, bootstrap).Success?
    ensures payload == Written(d) && Valid(d) && BootstrapOk(d, bootstrap)
    ensures Load(payload, bootstrap) == Success(Meaning(d, bootstrap))
  {
    d := Spelled(payload, bootstrap);
    LoadMeans(d, bootstrap);
  }

  lemma Spelled(payload: Json, bootstrap: Option<Cursor>) returns (d: Document)
    requires Load(payload, bootstrap).Success?
    ensures payload == Written(d)
  {
    hide EncodeCursor, EncodeReads, EncodeWakes, EncodeLegacies, DecodeCursor, DecodeReads, DecodeWakes, MigrateWakes,
         IsSequence, RebaseCursor, ShapeOf, Written;
    var fields := payload.fields;
    var shape := ShapeOf(fields).value;
    ShapeFields(fields, shape);
    if shape.Scalar1? {
      d := Version1(fields["cursor"].s);
      WrittenBase(d, fields);
    } else {
      var pending := fields["pendingReadCursors"].fields;
      ReadsBack(pending);
      var targets := DecodeReads(pending).value;
      if shape.Scalar2? || shape.Ambient3? {
        if shape.Scalar2? {
          d := Version2(fields["cursor"].s, targets);
        } else {
          var legacy := fields["pendingAmbientWakes"].fields;
          MigratesLegacy(legacy, bootstrap);
          LegaciesBack(legacy);
          d := AmbientVersion3(fields["cursor"].s, targets, LegaciesOf(legacy));
        }
      } else {
        CursorBack(fields["cursor"]);
        var cursor := DecodeCursor(fields["cursor"]).value;
        if shape.Epoch3? {
          d := Version3(cursor, targets);
        } else {
          var wakes := fields["pendingAmbientWakes"].fields;
          WakesBack(wakes);
          d := Version4(cursor, targets, DecodeWakes(wakes).value);
        }
      }
      WrittenBase(d, fields);
    }
  }

  lemma MigratesLegacy(legacy: map<string, Json>, bootstrap: Option<Cursor>)
    requires MigrateWakes(legacy, bootstrap).Some?
    ensures AllLegacy(legacy)
  {
    hide LegacySequence, Migrated;
  }

  /** The keys and the version of an accepted shape. */
  lemma ShapeFields(fields: map<string, Json>, shape: Shape)
    requires ShapeOf(fields) == Some(shape)
    ensures "version" in fields && fields["version"] == Number(if shape.Scalar1? then 1 else if shape.Scalar2? then 2
                                                               else if shape.Current? then 4 else 3)
    ensures fields.Keys == if shape.Scalar1? then {"version", "cursor"}
                           else if shape.Scalar2? || shape.Epoch3? then BASE_KEYS
                           else BASE_KEYS + {"pendingAmbientWakes"}
  {
  }

  lemma WrittenBase(d: Document, fields: map<string, Json>)
    requires "version" in fields && "cursor" in fields
    requires !d.Version1? ==> "pendingReadCursors" in fields && fields["pendingReadCursors"] == EncodeReads(d.targets)
    requires match d
             case Version1(scalar) =>
               fields.Keys == {"version", "cursor"} && fields["version"] == Number(1) && fields["cursor"] == Str(scalar)
             case Version2(scalar, _) => fields.Keys == BASE_KEYS && fields["version"] == Number(2) && fields["cursor"] == Str(scalar)
             case Version3(cursor, _) =>
               fields.Keys == BASE_KEYS && fields["version"] == Number(3) && fields["cursor"] == EncodeCursor(cursor)
             case AmbientVersion3(scalar, _, legacy) =>
               fields.Keys == BASE_KEYS + {"pendingAmbientWakes"} && fields["version"] == Number(3) && fields["cursor"] == Str(scalar)
               && fields["pendingAmbientWakes"] == EncodeLegacies(legacy)
             case Version4(cursor, _, wakes) =>
               fields.Keys == BASE_KEYS + {"pendingAmbientWakes"} && fields["version"] == Number(4) && fields["cursor"] == EncodeCursor(cursor)
               && fields["pendingAmbientWakes"] == EncodeWakes(wakes)
    ensures Object(fields) == Written(d)
  {
    hide EncodeCursor, EncodeReads, EncodeWakes, EncodeLegacies;
    assert Written(d).fields.Keys == fields.Keys;
    assert Written(d).fields == fields;
  }

  // ---------------------------------------------------------------------------------------------
  // The order of migrated wakes
  // ---------------------------------------------------------------------------------------------

  /** Migrated wakes are ordered from 1 to n, by workspace sequence and then by message id. */
  lemma PlacesKeepOrder(legacy: map<string, LegacyWake>, a: string, b: string)
    requires a in legacy && b in legacy && forall o :: o in legacy ==> ValidLegacy(o, legacy[o])
    ensures
      var x, y := Num(legacy[a].workspaceSequence), Num(legacy[b].workspaceSequence);
      && 1 <= Place(legacy, a) <= |legacy|
      && (Place(legacy, a) < Place(legacy, b) <==> x < y || (x == y && Before(a, b)))
      && (Place(legacy, a) == Place(legacy, b) <==> a == b)
  {
    hide ValidLegacy, LegacySequence, EncodeLegacy, Num, Before, Ordinal, Place;
    PlaceIs(legacy, a);
    PlaceIs(legacy, b);
    LegaciesIff(legacy);
    var fields := EncodeLegacies(legacy).fields;
    LegacyIff(a, legacy[a]);
    LegacyIff(b, legacy[b]);
    ScalarIs(a, legacy[a]);
    ScalarIs(b, legacy[b]);
    Migration.OrdinalsKeepOrder(Scalars(fields), a, b);
    assert |Scalars(fields)| == |Scalars(fields).Keys| && |legacy| == |legacy.Keys|;
  }
}
