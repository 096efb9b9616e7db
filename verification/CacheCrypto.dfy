/**
  Key-file ownership of CacheCrypto (apps/desktop/src/main/cache-crypto.ts:208-258, 332-438). The digest
  that names a scope's file is an arbitrary function, so two scopes may share a file name. Files can be
  damaged or lost by others at any time, a read can fail although the file is sound, and a save can
  fail before or after the rename.
 */
module CacheCrypto {
  import opened Wrappers

  datatype Identity = Identity(apiOrigin: string, userId: string, workspaceId: string)

  /** A sound key record, or contents that nobody can use. */
  datatype File = KeyFile(owner: Identity, key: nat) | Garbage

  datatype Path = Legacy | Keyed(digest: nat)

  datatype Write = Saved | FailedBefore | FailedAfter

  /** How reading a file ends: it tells what the file holds, its contents make no sense, or it raises. */
  datatype Reading = Sound | Garbled | Unreadable

  /** What the platform answers. */
  datatype World = World(available: bool, read: Reading, legacyRead: Reading, save: Write, removes: bool, newKey: nat)

  datatype Status = Persistent(key: nat) | MemoryOnly | Raised

  datatype Cache = Cache(files: map<Path, File>, dataKey: Option<nat>, scope: Option<Identity>, ownsStoredKey: bool)

  datatype StoredKeyLoad = Missing | Loaded(key: nat) | Unusable | ScopeMismatch | ReadError

  function KeyPath(digest: Identity -> nat, id: Identity): Path
  {
    Keyed(digest(id))
  }

  /** `#loadStoredKey`. */
  function LoadStoredKey(files: map<Path, File>, path: Path, id: Identity, reading: Reading): StoredKeyLoad
  {
    if reading.Unreadable? then ReadError
    else if path !in files then Missing
    else if reading.Garbled? then Unusable
    else
      match files[path]
      case Garbage => Unusable
      case KeyFile(owner, key) => if owner == id then Loaded(key) else ScopeMismatch
  }

  function Removed(files: map<Path, File>, path: Path, removes: bool): map<Path, File>
  {
    if removes then files - {path} else files
  }

  /** `#saveKey`; false when it throws. */
  function SaveKey(files: map<Path, File>, path: Path, id: Identity, key: nat, w: Write): (map<Path, File>, bool)
  {
    (if w.FailedBefore? then files else files[path := KeyFile(id, key)], w.Saved?)
  }

  function Adopted(c: Cache, files: map<Path, File>, id: Identity, key: nat): Cache
  {
    Cache(files, Some(key), Some(id), true)
  }

  function WithoutKey(files: map<Path, File>, id: Identity): Cache
  {
    Cache(files, None, Some(id), false)
  }

  /** The end of `initialize` when no file of the scope exists: adopt the legacy key or make one. */
  function Establish(c: Cache, path: Path, id: Identity, e: World): (Cache, Status)
  {
    var legacy := LoadStoredKey(c.files, Legacy, id, e.legacyRead);
    var key := if legacy.Loaded? then legacy.key else e.newKey;
    var (files, ok) := SaveKey(c.files, path, id, key, e.save);
    if legacy.ReadError? then (c, Raised)
    else if !ok then (c.(files := files), Raised)
    else (Adopted(c, if legacy.Loaded? then Removed(files, Legacy, e.removes) else files, id, key), Persistent(key))
  }

  function Initialize(c: Cache, digest: Identity -> nat, id: Identity, e: World): (Cache, Status)
  {
    var path := KeyPath(digest, id);
    if !e.available then (WithoutKey(c.files, id), MemoryOnly)
    else
      match LoadStoredKey(c.files, path, id, e.read)
      case Loaded(key) => (Adopted(c, c.files, id, key), Persistent(key))
      case Unusable => (WithoutKey(Removed(c.files, path, e.removes), id), MemoryOnly)
      case ScopeMismatch => (WithoutKey(c.files, id), MemoryOnly)
      case ReadError => (c, Raised)
      case Missing => Establish(c, path, id, e)
  }

  function Clear(c: Cache, digest: Identity -> nat, removes: bool): Cache
  {
    var files := if c.scope.Some? && c.ownsStoredKey then Removed(c.files, KeyPath(digest, c.scope.value), removes)
                 else c.files;
    Cache(files, None, None, false)
  }

  datatype Step =
    | InitializeStep(id: Identity, e: World)
    | ClearStep(removes: bool)
    | DamageStep(path: Path)
    | LossStep(path: Path)
    | RestartStep

  function Apply(c: Cache, digest: Identity -> nat, step: Step): Cache
  {
    match step
    case InitializeStep(id, e) => Initialize(c, digest, id, e).0
    case ClearStep(removes) => Clear(c, digest, removes)
    case DamageStep(path) => if path in c.files then c.(files := c.files[path := Garbage]) else c
    case LossStep(path) => c.(files := c.files - {path})
    case RestartStep => Cache(c.files, None, None, false)
  }

  // ---------------------------------------------------------------------------------------------
  // What a step destroys
  // ---------------------------------------------------------------------------------------------

  /** The step removed or replaced the sound record of `owner` at `path`. */
  predicate Destroys(c: Cache, d: Cache, path: Path, owner: Identity)
  {
    path in c.files && c.files[path].KeyFile? && c.files[path].owner == owner
    && (path !in d.files || d.files[path] != c.files[path])
  }

  /**
    `initialize` destroys another scope's sound record exactly when the file names collide and a
    failing read made it look like the scope's own unusable file.
   */
  lemma InitializeDestroysIff(c: Cache, digest: Identity -> nat, id: Identity, e: World, path: Path, owner: Identity)
    requires owner != id
    ensures Destroys(c, Initialize(c, digest, id, e).0, path, owner) <==>
            e.available && e.read.Garbled? && e.removes && path == KeyPath(digest, id)
            && path in c.files && c.files[path].KeyFile? && c.files[path].owner == owner
  {
  }

  /** If the file at `path` is the one that the instance claims, it is the scope's own record, damaged, or gone. */
  predicate ClaimsAt(c: Cache, digest: Identity -> nat, path: Path)
  {
    c.ownsStoredKey ==>
      c.scope.Some?
      && (path == KeyPath(digest, c.scope.value) && path in c.files ==>
            c.files[path].Garbage? || c.files[path].owner == c.scope.value)
  }

  predicate Claims(c: Cache, digest: Identity -> nat)
  {
    c.ownsStoredKey ==> c.scope.Some? && ClaimsAt(c, digest, KeyPath(digest, c.scope.value))
  }

  /**
    `clear` destroys another scope's sound record exactly when it removes a claimed file of that name; as
    long as claims hold it destroys none.
   */
  lemma ClearDestroysIff(c: Cache, digest: Identity -> nat, removes: bool, path: Path, owner: Identity)
    requires c.scope != Some(owner)
    ensures Destroys(c, Clear(c, digest, removes), path, owner) <==>
            removes && c.ownsStoredKey && c.scope.Some? && path == KeyPath(digest, c.scope.value)
            && path in c.files && c.files[path].KeyFile? && c.files[path].owner == owner
    ensures Destroys(c, Clear(c, digest, removes), path, owner) ==> !Claims(c, digest)
  {
  }

  /** A save that raises behind its rename, where the instance still claims that missing file for another scope. */
  predicate Undermines(c: Cache, digest: Identity -> nat, step: Step)
  {
    step.InitializeStep?
    && step.e.available && !step.e.read.Unreadable? && !step.e.legacyRead.Unreadable? && step.e.save.FailedAfter?
    && KeyPath(digest, step.id) !in c.files
    && c.ownsStoredKey && c.scope.Some? && c.scope != Some(step.id)
    && KeyPath(digest, c.scope.value) == KeyPath(digest, step.id)
  }

  /** The only way in which a claim comes to cover another scope's record. */
  lemma ClaimsEndIff(c: Cache, digest: Identity -> nat, step: Step)
    requires Claims(c, digest)
    ensures Claims(Apply(c, digest, step), digest) <==> !Undermines(c, digest, step)
  {
  }

  predicate HasRecord(c: Cache, digest: Identity -> nat, owner: Identity, key: nat)
  {
    KeyPath(digest, owner) in c.files && c.files[KeyPath(digest, owner)] == KeyFile(owner, key)
  }

  /** The steps that take the record of `owner` away, judged before the step. */
  predicate Takes(c: Cache, digest: Identity -> nat, step: Step, owner: Identity)
  {
    var path := KeyPath(digest, owner);
    match step
    case InitializeStep(id, e) => e.available && e.read.Garbled? && e.removes && KeyPath(digest, id) == path
    case ClearStep(removes) => removes && c.ownsStoredKey && c.scope == Some(owner)
    case DamageStep(damaged) => damaged == path
    case LossStep(lost) => lost == path
    case RestartStep => false
  }

  /**
    A step takes a scope's record away if and only if it is a failing read of a file of that name, with
    a removal that works, the scope's own clear, or damage from outside. No save does, however it ends.
   */
  lemma RecordGoesIff(c: Cache, digest: Identity -> nat, step: Step, owner: Identity, key: nat)
    requires HasRecord(c, digest, owner, key) && ClaimsAt(c, digest, KeyPath(digest, owner))
    ensures HasRecord(Apply(c, digest, step), digest, owner, key) <==> !Takes(c, digest, step, owner)
    ensures !Takes(c, digest, step, owner) ==> ClaimsAt(Apply(c, digest, step), digest, KeyPath(digest, owner))
  {
  }

  function Run(c: Cache, digest: Identity -> nat, steps: seq<Step>): Cache
    decreases |steps|
  {
    if steps == [] then c else Run(Apply(c, digest, steps[0]), digest, steps[1..])
  }

  predicate Untaken(c: Cache, digest: Identity -> nat, steps: seq<Step>, owner: Identity)
    decreases |steps|
  {
    steps == []
    || (!Takes(c, digest, steps[0], owner) && Untaken(Apply(c, digest, steps[0]), digest, steps[1..], owner))
  }

  /** The record of `owner` is there, unchanged, before and after every step. */
  predicate Stays(c: Cache, digest: Identity -> nat, steps: seq<Step>, owner: Identity, key: nat)
    decreases |steps|
  {
    HasRecord(c, digest, owner, key)
    && (steps == [] || Stays(Apply(c, digest, steps[0]), digest, steps[1..], owner, key))
  }

  lemma {:induction false} RecordStaysIff(c: Cache, digest: Identity -> nat, steps: seq<Step>, owner: Identity, key: nat)
    requires HasRecord(c, digest, owner, key) && ClaimsAt(c, digest, KeyPath(digest, owner))
    ensures Stays(c, digest, steps, owner, key) <==> Untaken(c, digest, steps, owner)
    ensures Untaken(c, digest, steps, owner) ==> HasRecord(Run(c, digest, steps), digest, owner, key)
    decreases |steps|
  {
    hide HasRecord, ClaimsAt, Takes, Apply;
    if steps != [] {
      RecordGoesIff(c, digest, steps[0], owner, key);
      if !Takes(c, digest, steps[0], owner) {
        RecordStaysIff(Apply(c, digest, steps[0]), digest, steps[1..], owner, key);
      } else {
        assert !Stays(Apply(c, digest, steps[0]), digest, steps[1..], owner, key);
      }
    }
  }

  /**
    For every digest, colliding or not: once a scope was initialised persistently, its record stays through
    any run of sessions, restarts, failing reads and failing saves, its own and others', if and only if
    no step of the run takes it; and then the scope is given the same key again.
   */
  lemma {:induction false} SameKeyAgain(
    c: Cache, digest: Identity -> nat, owner: Identity, first: World, steps: seq<Step>, again: World)
    requires Initialize(c, digest, owner, first).1.Persistent? && again.available && again.read.Sound?
    ensures
      var (d, status) := Initialize(c, digest, owner, first);
      && (Stays(d, digest, steps, owner, status.key) <==> Untaken(d, digest, steps, owner))
      && (Untaken(d, digest, steps, owner) ==> Initialize(Run(d, digest, steps), digest, owner, again).1 == status)
  {
    hide Stays, Untaken;
    var (d, status) := Initialize(c, digest, owner, first);
    PersistentIsStored(c, digest, owner, first);
    RecordStaysIff(d, digest, steps, owner, status.key);
  }

  /** A persistent initialisation leaves the scope's own record, with the key it reports, at its path. */
  lemma PersistentIsStored(c: Cache, digest: Identity -> nat, id: Identity, e: World)
    requires Initialize(c, digest, id, e).1.Persistent?
    ensures
      var (d, status) := Initialize(c, digest, id, e);
      && KeyPath(digest, id) in d.files && d.files[KeyPath(digest, id)] == KeyFile(id, status.key)
      && d.dataKey == Some(status.key) && d.scope == Some(id) && d.ownsStoredKey
  {
  }

  /** After `clear` no key stays in memory, and exactly a claimed file is removed. */
  lemma ClearForgets(c: Cache, digest: Identity -> nat, path: Path)
    ensures
      var d := Clear(c, digest, true);
      && d.dataKey.None? && d.scope.None? && !d.ownsStoredKey
      && (path in d.files <==>
            path in c.files && !(c.scope.Some? && c.ownsStoredKey && path == KeyPath(digest, c.scope.value)))
  {
  }

  /**
    An initialisation is persistent, goes on without a key, or raises, by what it finds at the scope's path; without a key
    the scope is active with nothing claimed, and nothing but its own unusable file is gone.
   */
  lemma InitializeOutcome(c: Cache, digest: Identity -> nat, id: Identity, e: World)
    ensures
      var (d, status) := Initialize(c, digest, id, e);
      var path := KeyPath(digest, id);
      var there := path in c.files;
      var own := there && e.read.Sound? && c.files[path].KeyFile? && c.files[path].owner == id;
      var unusable := there && (e.read.Garbled? || c.files[path].Garbage?);
      && (status.Raised? <==>
            e.available && (e.read.Unreadable? || (!there && (e.legacyRead.Unreadable? || !e.save.Saved?))))
      && (status.MemoryOnly? <==> !e.available || (there && !e.read.Unreadable? && !own))
      && (status.MemoryOnly? ==>
            d == Cache(if e.available && unusable && e.removes then c.files - {path} else c.files, None, Some(id), false))
      && (status.Raised? ==> d.dataKey == c.dataKey && d.scope == c.scope && d.ownsStoredKey == c.ownsStoredKey)
      && (status.Raised? && !(!there && !e.read.Unreadable? && e.save.FailedAfter?) ==> d == c)
      && (own && e.available ==> d.files == c.files && status == Persistent(c.files[path].key))
  {
  }

  /** What happens outside: damage spoils an existing file, a loss removes one, a restart forgets what is in memory. */
  lemma OutsideMeans(c: Cache, digest: Identity -> nat, path: Path)
    ensures
      var damaged, lost := Apply(c, digest, DamageStep(path)), Apply(c, digest, LossStep(path));
      && damaged == c.(files := damaged.files) && damaged.files.Keys == c.files.Keys
      && (forall p :: p in c.files ==> damaged.files[p] == if p == path then Garbage else c.files[p])
      && lost == c.(files := lost.files) && lost.files.Keys == c.files.Keys - {path}
      && (forall p :: p in lost.files ==> lost.files[p] == c.files[p])
      && Apply(c, digest, RestartStep) == Cache(c.files, None, None, false)
  {
  }

  // ---------------------------------------------------------------------------------------------
  // The legacy key
  // ---------------------------------------------------------------------------------------------

  predicate LegacyHeld(c: Cache, owner: Identity, key: nat)
  {
    Legacy in c.files && c.files[Legacy] == KeyFile(owner, key)
  }

  /** A scope without a file of its own goes on with its legacy key, which is saved before the legacy file goes. */
  lemma LegacyKeyIsAdopted(c: Cache, digest: Identity -> nat, id: Identity, key: nat, e: World)
    requires LegacyHeld(c, id, key) && KeyPath(digest, id) !in c.files
    requires e.available && !e.read.Unreadable? && e.legacyRead.Sound?
    ensures
      var (d, status) := Initialize(c, digest, id, e);
      && status == (if e.save.Saved? then Persistent(key) else Raised)
      && (HasRecord(d, digest, id, key) <==> !e.save.FailedBefore?)
      && (LegacyHeld(d, id, key) <==> !(e.save.Saved? && e.removes))
  {
  }

  /** Any other scope without a file gets the new key, and no legacy file is touched. */
  lemma NewKeyOtherwise(c: Cache, digest: Identity -> nat, id: Identity, e: World)
    requires KeyPath(digest, id) !in c.files && e.available && !e.read.Unreadable? && !e.legacyRead.Unreadable?
    requires e.legacyRead.Garbled? || Legacy !in c.files || c.files[Legacy].Garbage? || c.files[Legacy].owner != id
    ensures
      var (d, status) := Initialize(c, digest, id, e);
      && status == (if e.save.Saved? then Persistent(e.newKey) else Raised)
      && (HasRecord(d, digest, id, e.newKey) <==> !e.save.FailedBefore?)
      && (Legacy in d.files <==> Legacy in c.files) && (Legacy in c.files ==> d.files[Legacy] == c.files[Legacy])
  {
  }

  /** The legacy record goes only by outside damage, or in a step that leaves its owner a file with the same key. */
  lemma MigrationLosesNoKey(c: Cache, digest: Identity -> nat, step: Step, owner: Identity, key: nat)
    requires LegacyHeld(c, owner, key) && step != DamageStep(Legacy) && step != LossStep(Legacy)
    ensures
      var d := Apply(c, digest, step);
      LegacyHeld(d, owner, key)
      || (HasRecord(d, digest, owner, key) && ClaimsAt(d, digest, KeyPath(digest, owner)))
  {
  }

  /** The owner's key is in the legacy file, or in its own file that nobody else's claim covers. */
  predicate KeyHeld(c: Cache, digest: Identity -> nat, owner: Identity, key: nat)
  {
    LegacyHeld(c, owner, key) || (HasRecord(c, digest, owner, key) && ClaimsAt(c, digest, KeyPath(digest, owner)))
  }

  /** No outside damage to the legacy file, and no step takes the record once that is all there is. */
  predicate Undisturbed(c: Cache, digest: Identity -> nat, steps: seq<Step>, owner: Identity, key: nat)
    decreases |steps|
  {
    steps == []
    || (&& (if LegacyHeld(c, owner, key) then steps[0] != DamageStep(Legacy) && steps[0] != LossStep(Legacy)
            else !Takes(c, digest, steps[0], owner))
        && Undisturbed(Apply(c, digest, steps[0]), digest, steps[1..], owner, key))
  }

  /**
    No migration discards a scope's only key: over any run the key of a legacy record stays in one of the two
    files, and a scope whose own file is that one, or is missing, is given the key.
   */
  lemma {:induction false} LegacyKeySurvives(
    c: Cache, digest: Identity -> nat, owner: Identity, key: nat, steps: seq<Step>, e: World)
    requires KeyHeld(c, digest, owner, key) && Undisturbed(c, digest, steps, owner, key)
    requires e.available && e.read.Sound? && e.legacyRead.Sound? && e.save.Saved?
    ensures
      var d := Run(c, digest, steps);
      && KeyHeld(d, digest, owner, key)
      && (HasRecord(d, digest, owner, key) || KeyPath(digest, owner) !in d.files ==>
            Initialize(d, digest, owner, e).1 == Persistent(key))
    decreases |steps|
  {
    hide HasRecord, ClaimsAt, Takes, Apply, LegacyHeld;
    if steps == [] {
      if HasRecord(c, digest, owner, key) || KeyPath(digest, owner) !in c.files { KeyIsGiven(c, digest, owner, key, e); }
    } else {
      if LegacyHeld(c, owner, key) {
        MigrationLosesNoKey(c, digest, steps[0], owner, key);
      } else {
        RecordGoesIff(c, digest, steps[0], owner, key);
      }
      LegacyKeySurvives(Apply(c, digest, steps[0]), digest, owner, key, steps[1..], e);
    }
  }

  lemma KeyIsGiven(c: Cache, digest: Identity -> nat, owner: Identity, key: nat, e: World)
    requires KeyHeld(c, digest, owner, key) && e.available && e.read.Sound? && e.legacyRead.Sound? && e.save.Saved?
    requires HasRecord(c, digest, owner, key) || KeyPath(digest, owner) !in c.files
    ensures Initialize(c, digest, owner, e).1 == Persistent(key)
  {
  }

  // ---------------------------------------------------------------------------------------------
  // Where the promise ends
  // ---------------------------------------------------------------------------------------------

  /** A failing read, and a save that raises behind its rename: with colliding names each costs a record. */
  lemma UnsoundReadCostsARecord(a: Identity, b: Identity)
    requires a != b
    ensures
      var digest: Identity -> nat := (_: Identity) => 0;
      var c := Cache(map[Keyed(0) := KeyFile(a, 7)], None, None, false);
      var e := World(true, Garbled, Sound, Saved, true, 8);
      Destroys(c, Apply(c, digest, InitializeStep(b, e)), Keyed(0), a)
  {
  }

  lemma LateSaveFailureCostsARecord(a: Identity, b: Identity)
    requires a != b
    ensures
      var digest: Identity -> nat := (_: Identity) => 0;
      var c := Cache(map[Keyed(0) := KeyFile(a, 7)], Some(7), Some(a), true);
      var lost := Apply(c, digest, LossStep(Keyed(0)));
      var failed := Apply(lost, digest, InitializeStep(b, World(true, Sound, Sound, FailedAfter, true, 8)));
      Claims(c, digest) && Destroys(failed, Apply(failed, digest, ClearStep(true)), Keyed(0), b)
  {
  }

  // ---------------------------------------------------------------------------------------------
  // The object
  // ---------------------------------------------------------------------------------------------

  class KeyStore {
    const digest: Identity -> nat
    var files: map<Path, File>
    var dataKey: Option<nat>
    var scope: Option<Identity>
    var ownsStoredKey: bool

    ghost function Model(): Cache
      reads this
    {
      Cache(files, dataKey, scope, ownsStoredKey)
    }

    constructor (digest: Identity -> nat, files: map<Path, File>)
      ensures Model() == Cache(files, None, None, false) && this.digest == digest
    {
      this.digest, this.files := digest, files;
      dataKey, scope, ownsStoredKey := None, None, false;
    }

    method RemoveFile(path: Path, removes: bool)
      modifies this`files
      ensures files == Removed(old(files), path, removes)
    {
      if removes { files := files - {path}; }
    }

    method WriteKey(path: Path, id: Identity, key: nat, w: Write) returns (ok: bool)
      modifies this`files
      ensures (files, ok) == SaveKey(old(files), path, id, key, w)
    {
      if !w.FailedBefore? { files := files[path := KeyFile(id, key)]; }
      ok := w.Saved?;
    }

    method Adopt(id: Identity, key: nat) returns (status: Status)
      modifies this
      ensures Model() == Adopted(old(Model()), old(files), id, key) && status == Persistent(key)
    {
      dataKey, scope, ownsStoredKey := Some(key), Some(id), true;
      status := Persistent(key);
    }

    method GoMemoryOnly(id: Identity) returns (status: Status)
      modifies this
      ensures Model() == WithoutKey(old(files), id) && status == MemoryOnly
    {
      dataKey, scope, ownsStoredKey := None, Some(id), false;
      status := MemoryOnly;
    }

    /** `#adoptLegacyKey`, then a new key when there is none to adopt. */
    method EstablishKey(path: Path, id: Identity, e: World) returns (status: Status)
      modifies this
      ensures (Model(), status) == Establish(old(Model()), path, id, e)
    {
      var legacy := LoadStoredKey(files, Legacy, id, e.legacyRead);
      if legacy.ReadError? { return Raised; }
      var key := if legacy.Loaded? then legacy.key else e.newKey;
      var ok := WriteKey(path, id, key, e.save);
      if !ok { return Raised; }
      if legacy.Loaded? { RemoveFile(Legacy, e.removes); }
      status := Adopt(id, key);
    }

    method InitializeScope(id: Identity, e: World) returns (status: Status)
      modifies this
      ensures (Model(), status) == Initialize(old(Model()), digest, id, e)
    {
      hide Establish;
      if !e.available {
        status := GoMemoryOnly(id);
        return;
      }
      var path := KeyPath(digest, id);
      match LoadStoredKey(files, path, id, e.read) {
        case Loaded(key) => status := Adopt(id, key);
        case Unusable =>
          RemoveFile(path, e.removes);
          status := GoMemoryOnly(id);
        case ScopeMismatch => status := GoMemoryOnly(id);
        case ReadError => status := Raised;
        case Missing => status := EstablishKey(path, id, e);
      }
    }

    method ClearScope(removes: bool)
      modifies this
      ensures Model() == Clear(old(Model()), digest, removes)
    {
      dataKey := None;
      var cleared, owned := scope, ownsStoredKey;
      scope := None;
      ownsStoredKey := false;
      if cleared.Some? && owned { RemoveFile(KeyPath(digest, cleared.value), removes); }
    }
  }
}
