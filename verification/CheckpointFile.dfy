/**
  The durable checkpoint of the Hermes adapter (integrations/hermes-hype-comms/adapter.py): what
  `_persist_cursor` writes, what `_load_cursor` accepts of its own and of every earlier format, and
  how legacy files are migrated. A file is a JSON value; the text of JSON is not part of this module.
 */
module CheckpointFile {
  import opened Wrappers
  import opened Decimals

  const CURSOR_FILE_VERSION := 4
  const LEGACY_CURSOR_FILE_VERSION := 1
  const MAX_PENDING_AMBIENT_WAKES: nat := 4096

  datatype Json =
    | Null
    | Bool(b: bool)
    | Number(n: int)
    | Float
    | Str(s: string)
    | Array(items: seq<Json>)
    | Object(fields: map<string, Json>)

  datatype Cursor = Cursor(epoch: string, sequence: string)

  datatype ReadTarget = ReadTarget(messageId: string, conversationSequence: string)

  datatype Wake = Wake(
    position: Cursor,
    conversationId: string,
    conversationSequence: string,
    authorId: string,
    threadRootId: Option<string>,
    createdAt: string,
    recoveryOrder: string,
    legacyWorkspaceSequence: Option<string>)

  /** What one atomic replacement of the file makes durable. */
  datatype Checkpoint = Checkpoint(cursor: Cursor, targets: map<string, ReadTarget>, wakes: map<string, Wake>)

  datatype Loaded = Loaded(
    cursor: Option<Cursor>, targets: map<string, ReadTarget>, wakes: map<string, Wake>, needsMigration: bool)

  datatype LoadError = Unreadable | Unsupported

  // ---------------------------------------------------------------------------------------------
  // Formats
  // ---------------------------------------------------------------------------------------------

  predicate IsHex(c: char)
  {
    '0' <= c <= '9' || 'a' <= c <= 'f' || 'A' <= c <= 'F'
  }

  /** `_ENTITY_ID`. */
  predicate IsEntityId(s: string)
  {
    && |s| == 36
    && (forall i :: 0 <= i < 36 ==> if i in {8, 13, 18, 23} then s[i] == '-' else IsHex(s[i]))
    && (('1' <= s[14] <= '8' && s[19] in "89ABab")
        || s == "00000000-0000-0000-0000-000000000000" || s == "ffffffff-ffff-ffff-ffff-ffffffffffff")
  }

  function Pair(s: string, i: nat): nat
    requires i + 2 <= |s| && IsDigit(s[i]) && IsDigit(s[i + 1])
  {
    10 * Digit(s[i]) + Digit(s[i + 1])
  }

  predicate TwoDigits(s: string, i: nat, low: nat, high: nat)
    requires i + 2 <= |s|
  {
    IsDigit(s[i]) && IsDigit(s[i + 1]) && low <= Pair(s, i) <= high
  }

  predicate IsLeap(century: nat, year: nat)
  {
    year % 4 == 0 && (year != 0 || century % 4 == 0)
  }

  function DaysIn(century: nat, year: nat, month: nat): nat
  {
    if month == 2 then (if IsLeap(century, year) then 29 else 28)
    else if month in {4, 6, 9, 11} then 30 else 31
  }

  predicate IsDate(s: string)
    requires |s| >= 10
  {
    && TwoDigits(s, 0, 0, 99) && TwoDigits(s, 2, 0, 99) && s[4] == '-' && TwoDigits(s, 5, 1, 12) && s[7] == '-'
    && TwoDigits(s, 8, 1, DaysIn(Pair(s, 0), Pair(s, 2), Pair(s, 5)))
  }

  /** What may follow the minutes. */
  predicate EndsInSeconds(s: string)
    requires |s| >= 17
  {
    || (|s| == 17 && s[16] == 'Z')
    || (|s| >= 20 && s[16] == ':' && TwoDigits(s, 17, 0, 59) && s[|s| - 1] == 'Z'
        && (|s| == 20 || (|s| >= 22 && s[19] == '.' && forall i :: 20 <= i < |s| - 1 ==> IsDigit(s[i]))))
  }

  /** `_ISO_DATE_TIME`. */
  predicate IsIsoDateTime(s: string)
  {
    && |s| >= 17 && IsDate(s) && s[10] == 'T'
    && TwoDigits(s, 11, 0, 23) && s[13] == ':' && TwoDigits(s, 14, 0, 59) && EndsInSeconds(s)
  }

  predicate ValidCursor(c: Cursor)
  {
    IsEntityId(c.epoch) && IsSequence(c.sequence)
  }

  predicate ValidRead(conversationId: string, t: ReadTarget)
  {
    IsEntityId(conversationId) && IsEntityId(t.messageId) && IsSequence(t.conversationSequence)
  }

  /** The part of `_valid_ambient_wake` that legacy and current wakes share. */
  predicate ValidAnchor(messageId: string, w: Wake)
  {
    && IsEntityId(messageId) && IsEntityId(w.conversationId) && IsSequence(w.conversationSequence)
    && IsEntityId(w.authorId) && (w.threadRootId.Some? ==> IsEntityId(w.threadRootId.value))
    && IsIsoDateTime(w.createdAt)
  }

  /** `_valid_ambient_wake`. */
  predicate ValidWake(messageId: string, w: Wake)
  {
    && ValidAnchor(messageId, w) && ValidCursor(w.position)
    && IsSequence(w.recoveryOrder) && w.recoveryOrder != "0"
    && (w.legacyWorkspaceSequence.Some? ==> IsSequence(w.legacyWorkspaceSequence.value))
  }

  predicate DistinctOrders(wakes: map<string, Wake>)
  {
    forall a, b :: a in wakes && b in wakes && wakes[a].recoveryOrder == wakes[b].recoveryOrder ==> a == b
  }

  predicate ValidReads(targets: map<string, ReadTarget>)
  {
    forall c :: c in targets ==> ValidRead(c, targets[c])
  }

  predicate ValidWakes(wakes: map<string, Wake>)
  {
    && |wakes| <= MAX_PENDING_AMBIENT_WAKES
    && (forall m :: m in wakes ==> ValidWake(m, wakes[m]))
    && DistinctOrders(wakes)
  }

  predicate WellFormedParts(targets: map<string, ReadTarget>, wakes: map<string, Wake>)
  {
    ValidReads(targets) && ValidWakes(wakes)
  }

  predicate WellFormed(c: Checkpoint)
  {
    ValidCursor(c.cursor) && WellFormedParts(c.targets, c.wakes)
  }

  // ---------------------------------------------------------------------------------------------
  // Writing
  // ---------------------------------------------------------------------------------------------

  function EncodeCursor(c: Cursor): Json
  {
    Object(map["epoch" := Str(c.epoch), "sequence" := Str(c.sequence)])
  }

  function EncodeRead(t: ReadTarget): Json
  {
    Object(map["messageId" := Str(t.messageId), "conversationSequence" := Str(t.conversationSequence)])
  }

  /** The keys every stored wake has besides its position. */
  function AnchorFields(w: Wake): map<string, Json>
  {
    map["conversationId" := Str(w.conversationId),
        "conversationSequence" := Str(w.conversationSequence),
        "authorId" := Str(w.authorId),
        "threadRootId" := if w.threadRootId.Some? then Str(w.threadRootId.value) else Null,
        "createdAt" := Str(w.createdAt)]
  }

  function EncodeWake(w: Wake): Json
  {
    var fields := AnchorFields(w)["position" := EncodeCursor(w.position)]["recoveryOrder" := Str(w.recoveryOrder)];
    Object(if w.legacyWorkspaceSequence.Some? then
             fields["legacyWorkspaceSequence" := Str(w.legacyWorkspaceSequence.value)]
           else fields)
  }

  function EncodeReads(targets: map<string, ReadTarget>): Json
  {
    Object(map c | c in targets :: EncodeRead(targets[c]))
  }

  function EncodeWakes(wakes: map<string, Wake>): Json
  {
    Object(map m | m in wakes :: EncodeWake(wakes[m]))
  }

  /** The document of `_persist_cursor`. */
  function Encode(c: Checkpoint): Json
  {
    Object(map["version" := Number(CURSOR_FILE_VERSION),
               "cursor" := EncodeCursor(c.cursor),
               "pendingReadCursors" := EncodeReads(c.targets),
               "pendingAmbientWakes" := EncodeWakes(c.wakes)])
  }

  // ---------------------------------------------------------------------------------------------
  // Reading
  // ---------------------------------------------------------------------------------------------

  predicate Texts(fields: map<string, Json>, keys: set<string>)
  {
    forall k :: k in keys ==> k in fields && fields[k].Str?
  }

  function DecodeCursor(j: Json): Option<Cursor>
  {
    if j.Object? && j.fields.Keys == {"epoch", "sequence"} && Texts(j.fields, {"epoch", "sequence"}) then
      var c := Cursor(j.fields["epoch"].s, j.fields["sequence"].s);
      if ValidCursor(c) then Some(c) else None
    else None
  }

  function DecodeRead(conversationId: string, j: Json): Option<ReadTarget>
  {
    if j.Object? && j.fields.Keys == {"messageId", "conversationSequence"}
       && Texts(j.fields, {"messageId", "conversationSequence"}) then
      var t := ReadTarget(j.fields["messageId"].s, j.fields["conversationSequence"].s);
      if ValidRead(conversationId, t) then Some(t) else None
    else None
  }

  const ANCHOR_KEYS: set<string> :=
    {"conversationId", "conversationSequence", "authorId", "threadRootId", "createdAt"}

  const ANCHOR_TEXTS: set<string> := {"conversationId", "conversationSequence", "authorId", "createdAt"}

  predicate IsAnchor(fields: map<string, Json>)
  {
    && Texts(fields, ANCHOR_TEXTS)
    && "threadRootId" in fields && (fields["threadRootId"].Null? || fields["threadRootId"].Str?)
  }

  function AnchorOf(fields: map<string, Json>, position: Cursor, order: string, legacy: Option<string>): Wake
    requires IsAnchor(fields)
  {
    assert forall k :: k in ANCHOR_TEXTS ==> k in fields && fields[k].Str?;
    Wake(position, fields["conversationId"].s, fields["conversationSequence"].s, fields["authorId"].s,
         if fields["threadRootId"].Str? then Some(fields["threadRootId"].s) else None,
         fields["createdAt"].s, order, legacy)
  }

  function DecodeWake(messageId: string, j: Json): Option<Wake>
  {
    if j.Object? && IsAnchor(j.fields)
       && j.fields.Keys - {"legacyWorkspaceSequence"} == ANCHOR_KEYS + {"position", "recoveryOrder"}
       && (forall k :: k in {"recoveryOrder", "legacyWorkspaceSequence"} && k in j.fields ==> j.fields[k].Str?)
       && DecodeCursor(j.fields["position"]).Some? then
      var legacy := if "legacyWorkspaceSequence" in j.fields then Some(j.fields["legacyWorkspaceSequence"].s) else None;
      var w := AnchorOf(j.fields, DecodeCursor(j.fields["position"]).value, j.fields["recoveryOrder"].s, legacy);
      if ValidWake(messageId, w) then Some(w) else None
    else None
  }

  /** The scalar position of a wake from before replay epochs, when it is a valid legacy wake. */
  function LegacySequence(messageId: string, j: Json): Option<string>
  {
    if j.Object? && IsAnchor(j.fields) && j.fields.Keys == ANCHOR_KEYS + {"workspaceSequence"}
       && j.fields["workspaceSequence"].Str? && IsSequence(j.fields["workspaceSequence"].s)
       && ValidAnchor(messageId, AnchorOf(j.fields, Cursor("", ""), "", None)) then
      Some(j.fields["workspaceSequence"].s)
    else None
  }

  predicate AllLegacy(wakes: map<string, Json>)
  {
    forall m :: m in wakes ==> LegacySequence(m, wakes[m]).Some?
  }

  /** int(workspaceSequence) of every legacy wake. */
  function Scalars(wakes: map<string, Json>): (scalars: map<string, nat>)
    requires AllLegacy(wakes)
    ensures scalars.Keys == wakes.Keys
  {
    map m | m in wakes :: Value(LegacySequence(m, wakes[m]).value)
  }

  /** The key by which `_load_cursor` sorts legacy wakes: (int(workspaceSequence), message id). */
  predicate Earlier(scalars: map<string, nat>, a: string, b: string)
    requires a in scalars && b in scalars
  {
    scalars[a] < scalars[b] || (scalars[a] == scalars[b] && Before(a, b))
  }

  function Predecessors(scalars: map<string, nat>, m: string): set<string>
    requires m in scalars
  {
    set o | o in scalars && Earlier(scalars, o, m)
  }

  /** The position of `m` in the sorted list, counted from 1. */
  function Ordinal(scalars: map<string, nat>, m: string): nat
    requires m in scalars
  {
    |Predecessors(scalars, m)| + 1
  }

  /** The V4 form of a legacy wake. */
  function Rebound(m: string, j: Json, bootstrap: Cursor, ordinal: nat): Wake
    requires LegacySequence(m, j).Some?
  {
    AnchorOf(j.fields, bootstrap, Decimal(ordinal), LegacySequence(m, j))
  }

  function DecodeReads(pending: map<string, Json>): Option<map<string, ReadTarget>>
  {
    if forall c :: c in pending ==> DecodeRead(c, pending[c]).Some? then
      Some(map c | c in pending :: DecodeRead(c, pending[c]).value)
    else None
  }

  function DecodeWakes(wakes: map<string, Json>): Option<map<string, Wake>>
  {
    if forall m :: m in wakes ==> DecodeWake(m, wakes[m]).Some? then
      var decoded := map m | m in wakes :: DecodeWake(m, wakes[m]).value;
      if DistinctOrders(decoded) then Some(decoded) else None
    else None
  }

  function Migrated(wakes: map<string, Json>, bootstrap: Cursor): (migrated: map<string, Wake>)
    requires AllLegacy(wakes)
    ensures migrated.Keys == wakes.Keys
    ensures forall m :: m in wakes ==> migrated[m] == Rebound(m, wakes[m], bootstrap, Ordinal(Scalars(wakes), m))
  {
    hide LegacySequence, Ordinal, Rebound;
    map m | m in wakes :: Rebound(m, wakes[m], bootstrap, Ordinal(Scalars(wakes), m))
  }

  function MigrateWakes(wakes: map<string, Json>, bootstrap: Option<Cursor>): Option<map<string, Wake>>
  {
    if !AllLegacy(wakes) || (wakes != map[] && (bootstrap.None? || !ValidCursor(bootstrap.value))) then None
    else if wakes == map[] then Some(map[])
    else Some(Migrated(wakes, bootstrap.value))
  }

  datatype Shape = Scalar1 | Scalar2 | Epoch3 | Ambient3 | Current

  const BASE_KEYS: set<string> := {"version", "cursor", "pendingReadCursors"}

  function ShapeOf(fields: map<string, Json>): (shape: Option<Shape>)
    ensures shape.Some? ==> "cursor" in fields
    ensures shape.Some? && !shape.value.Scalar1? ==> "pendingReadCursors" in fields
    ensures shape.Some? && (shape.value.Ambient3? || shape.value.Current?) ==> "pendingAmbientWakes" in fields
  {
    if "version" !in fields || !fields["version"].Number? then None
    else
      var version := fields["version"].n;
      if version == LEGACY_CURSOR_FILE_VERSION then
        if fields.Keys == {"version", "cursor"} then Some(Scalar1) else None
      else if version == 2 then
        if fields.Keys == BASE_KEYS then Some(Scalar2) else None
      else if version == 3 then
        if fields.Keys == BASE_KEYS then Some(Epoch3)
        else if fields.Keys == BASE_KEYS + {"pendingAmbientWakes"} then Some(Ambient3) else None
      else if version == CURSOR_FILE_VERSION then
        if fields.Keys == BASE_KEYS + {"pendingAmbientWakes"} then Some(Current) else None
      else None
  }

  function WakeFields(shape: Shape, fields: map<string, Json>): Option<map<string, Json>>
    requires ShapeOf(fields) == Some(shape)
  {
    if shape.Ambient3? || shape.Current? then
      var wakes := fields["pendingAmbientWakes"];
      if wakes.Object? && |wakes.fields| <= MAX_PENDING_AMBIENT_WAKES then Some(wakes.fields) else None
    else Some(map[])
  }

  /** The stored cursor: none for a scalar, which has no order relation with any epoch. */
  function StoredCursor(shape: Shape, j: Json): Option<Option<Cursor>>
  {
    if shape.Epoch3? || shape.Current? then
      if DecodeCursor(j).Some? then Some(DecodeCursor(j)) else None
    else if j.Str? && IsSequence(j.s) then Some(None) else None
  }

  /** A cursor of a retired epoch is replaced by the connection's bootstrap cursor. */
  function RebaseCursor(cursor: Option<Cursor>, bootstrap: Option<Cursor>): Option<(Option<Cursor>, bool)>
  {
    if cursor.None? || bootstrap.None? then Some((cursor, false))
    else if !ValidCursor(bootstrap.value) then None
    else if cursor.value.epoch != bootstrap.value.epoch then Some((bootstrap, true))
    else Some((cursor, false))
  }

  /** `_load_cursor` on a readable file. */
  function Load(payload: Json, bootstrap: Option<Cursor>): Result<Loaded, LoadError>
  {
    if !payload.Object? || ShapeOf(payload.fields).None? then Failure(Unsupported)
    else
      var fields := payload.fields;
      var shape := ShapeOf(fields).value;
      var stored := StoredCursor(shape, fields["cursor"]);
      if stored.None? then Failure(Unsupported)
      else if shape.Scalar1? then Success(Loaded(None, map[], map[], true))
      else if !fields["pendingReadCursors"].Object? || WakeFields(shape, fields).None? then Failure(Unsupported)
      else
        var targets := DecodeReads(fields["pendingReadCursors"].fields);
        var wakes := if shape.Ambient3? then MigrateWakes(WakeFields(shape, fields).value, bootstrap)
                     else DecodeWakes(WakeFields(shape, fields).value);
        var rebased := RebaseCursor(stored.value, bootstrap);
        if targets.None? || wakes.None? || rebased.None? then Failure(Unsupported)
        else
          Success(Loaded(rebased.value.0, targets.value, wakes.value, rebased.value.1 || !shape.Current?))
  }

  // ---------------------------------------------------------------------------------------------
  // Round trip
  // ---------------------------------------------------------------------------------------------

  lemma CursorRoundTrip(c: Cursor)
    requires ValidCursor(c)
    ensures DecodeCursor(EncodeCursor(c)) == Some(c)
  {
    hide IsEntityId, IsSequence;
    assert EncodeCursor(c).fields.Keys == {"epoch", "sequence"};
  }

  lemma ReadRoundTrip(conversationId: string, t: ReadTarget)
    requires ValidRead(conversationId, t)
    ensures DecodeRead(conversationId, EncodeRead(t)) == Some(t)
  {
    hide IsEntityId, IsSequence;
    assert EncodeRead(t).fields.Keys == {"messageId", "conversationSequence"};
  }

  lemma ReadsRoundTrip(targets: map<string, ReadTarget>)
    requires forall c :: c in targets ==> ValidRead(c, targets[c])
    ensures DecodeReads(EncodeReads(targets).fields) == Some(targets)
  {
    hide DecodeRead, EncodeRead, ValidRead;
    var fields := EncodeReads(targets).fields;
    forall c | c in fields ensures DecodeRead(c, fields[c]) == Some(targets[c]) {
      ReadRoundTrip(c, targets[c]);
    }
    assert (map c | c in fields :: DecodeRead(c, fields[c]).value) == targets;
  }

  lemma AnchorRoundTrip(fields: map<string, Json>, w: Wake)
    requires forall k :: k in ANCHOR_KEYS ==> k in fields && fields[k] == AnchorFields(w)[k]
    ensures IsAnchor(fields)
    ensures AnchorOf(fields, w.position, w.recoveryOrder, w.legacyWorkspaceSequence) == w
  {
    forall k | k in ANCHOR_TEXTS ensures k in fields && fields[k].Str? {
      assert k in ANCHOR_KEYS;
    }
  }

  lemma WakeRoundTrip(messageId: string, w: Wake)
    requires ValidWake(messageId, w)
    ensures DecodeWake(messageId, EncodeWake(w)) == Some(w)
  {
    hide ValidCursor, ValidAnchor, IsSequence, DecodeCursor, EncodeCursor, IsAnchor, AnchorOf;
    var fields := EncodeWake(w).fields;
    CursorRoundTrip(w.position);
    AnchorRoundTrip(fields, w);
    assert fields.Keys - {"legacyWorkspaceSequence"} == ANCHOR_KEYS + {"position", "recoveryOrder"};
  }

  lemma WakesRoundTrip(wakes: map<string, Wake>)
    requires forall m :: m in wakes ==> ValidWake(m, wakes[m])
    requires DistinctOrders(wakes)
    ensures |EncodeWakes(wakes).fields| == |wakes|
    ensures DecodeWakes(EncodeWakes(wakes).fields) == Some(wakes)
  {
    hide DecodeWake, EncodeWake, ValidWake;
    var fields := EncodeWakes(wakes).fields;
    assert fields.Keys == wakes.Keys;
    forall m | m in fields ensures DecodeWake(m, fields[m]) == Some(wakes[m]) {
      WakeRoundTrip(m, wakes[m]);
    }
    assert (map m | m in fields :: DecodeWake(m, fields[m]).value) == wakes;
  }

  /**
    Every checkpoint that the adapter can write is read back unchanged; only a cursor of another
    epoch than the bootstrap's is replaced, and only then is a rewrite requested.
   */
  lemma FileRoundTrip(c: Checkpoint, bootstrap: Cursor)
    requires WellFormed(c) && ValidCursor(bootstrap)
    ensures Load(Encode(c), Some(bootstrap))
            == Success(Loaded(Some(if c.cursor.epoch == bootstrap.epoch then c.cursor else bootstrap),
                              c.targets, c.wakes, c.cursor.epoch != bootstrap.epoch))
  {
    hide ValidCursor, ValidRead, ValidWake, DistinctOrders, DecodeReads, DecodeWakes, DecodeCursor, EncodeCursor,
         EncodeReads, EncodeWakes;
    var fields := Encode(c).fields;
    assert fields.Keys == BASE_KEYS + {"pendingAmbientWakes"};
    ValidParts(c);
    CursorRoundTrip(c.cursor);
    ReadsRoundTrip(c.targets);
    WakesRoundTrip(c.wakes);
    assert EncodeWakes(c.wakes).Object? && EncodeReads(c.targets).Object? by { Objects(c); }
    assert ShapeOf(fields) == Some(Current);
  }

  lemma ValidParts(c: Checkpoint)
    requires WellFormed(c)
    ensures ValidCursor(c.cursor) && DistinctOrders(c.wakes) && |c.wakes| <= MAX_PENDING_AMBIENT_WAKES
    ensures forall m :: m in c.wakes ==> ValidWake(m, c.wakes[m])
    ensures forall r :: r in c.targets ==> ValidRead(r, c.targets[r])
  {
  }

  lemma Objects(c: Checkpoint)
    ensures EncodeWakes(c.wakes).Object? && EncodeReads(c.targets).Object?
  {
  }
}
