/**
  AuthKitFlow (apps/desktop/src/main/authkit-flow.ts:241-436): the durable, single-use half of a PKCE
  sign-in (RFC 7636). Operations run one at a time on the lifecycle queue; the process can stop between
  any two of them. A store call that is cut off by a stop is a call that fails, before or after it
  became durable, with the stop right behind it.
 */
module AuthKitFlow {
  import opened Wrappers

  const AUTHKIT_MAX_AUTHORIZATION_TTL_MS: int := 15 * 60 * 1000

  /** `state` and `verifier` stand for the two random strings of an attempt. */
  datatype Record = Record(apiOrigin: string, state: nat, verifier: nat, createdAt: int, expiresAt: int)

  /** How a save or a clear ends; the last one raises although the store has changed. */
  datatype StoreWrite = Done | FailedBefore | FailedAfter

  /** What the world answers during one operation. */
  datatype World = World(
    loads: bool, loadedAt: int, checkedAt: int, now: int, later: int,
    firstClear: StoreWrite, secondClear: StoreWrite, save: StoreWrite, opens: bool)

  /**
    What was handed to the exchange: the state that the callback presented and the verifier, with the record
    they came from, the time, and what the store held at that moment.
   */
  datatype Handoff = Handoff(state: nat, verifier: nat, record: Record, at: int, stored: Option<Record>)

  datatype Callback = Malformed | WithoutState(failed: bool) | WithState(state: nat, failed: bool)

  datatype Status = Idle | Pending | Expired | Ignored | AuthenticationFailed | HandedOff | Started | Cancelled | Nothing | Raised

  /** `minted` is history: the state that each verifier was created with. */
  datatype Flow = Flow(
    apiOrigin: string,
    ttl: int,
    pending: Option<Record>,
    initialized: bool,
    store: Option<Record>,
    handoffs: seq<Handoff>,
    minted: map<nat, nat>)

  // ---------------------------------------------------------------------------------------------
  // Operations
  // ---------------------------------------------------------------------------------------------

  /** `parseStoredAuthKitPendingAuthorization`, past its format checks. */
  predicate Parses(r: Record, apiOrigin: string)
  {
    r.apiOrigin == apiOrigin && r.createdAt < r.expiresAt
    && r.expiresAt - r.createdAt <= AUTHKIT_MAX_AUTHORIZATION_TTL_MS
  }

  predicate IsExpired(r: Record, now: int)
  {
    r.expiresAt <= now
  }

  /** `#retire`; false when the store raises. */
  function Retire(f: Flow, expected: nat, w: StoreWrite): (Flow, bool)
  {
    if f.pending.None? || f.pending.value.state != expected then (f, true)
    else
      match w
      case Done => (f.(store := None, pending := None), true)
      case FailedBefore => (f, false)
      case FailedAfter => (f.(store := None), false)
  }

  function CurrentStatus(f: Flow): Status
  {
    if f.pending.None? then Idle else Pending
  }

  /** `#initialize` before anything was loaded. */
  function LoadPending(f: Flow, e: World): (Flow, Status)
  {
    if !e.loads then (f, Raised)
    else if f.store.None? then (f.(pending := None, initialized := true), Idle)
    else
      var r := f.store.value;
      if !Parses(r, f.apiOrigin) || r.expiresAt - e.loadedAt > AUTHKIT_MAX_AUTHORIZATION_TTL_MS then (f, Raised)
      else
        var g := f.(pending := Some(r));
        if IsExpired(r, e.checkedAt) then
          var (h, ok) := Retire(g, r.state, e.firstClear);
          if ok then (h.(initialized := true), Expired) else (h, Raised)
        else (g.(initialized := true), Pending)
  }

  function Initialize(f: Flow, e: World): (Flow, Status)
  {
    if !f.initialized then LoadPending(f, e)
    else if f.pending.Some? && IsExpired(f.pending.value, e.checkedAt) then
      var (g, ok) := Retire(f, f.pending.value.state, e.firstClear);
      (g, if ok then Expired else Raised)
    else (f, CurrentStatus(f))
  }

  function EnsureInitialized(f: Flow, e: World): (Flow, Status)
  {
    if f.initialized then (f, CurrentStatus(f)) else LoadPending(f, e)
  }

  /** `#start` once the previous attempt is gone. */
  function Begin(f: Flow, e: World, state: nat, verifier: nat): (Flow, Status)
  {
    var r := Record(f.apiOrigin, state, verifier, e.now, e.now + f.ttl);
    var g := f.(minted := f.minted[verifier := state]);
    match e.save
    case FailedBefore => (g, Raised)
    case FailedAfter => (g.(store := Some(r)), Raised)
    case Done =>
      var h := g.(store := Some(r), pending := Some(r));
      if e.opens && !IsExpired(r, e.later) then (h, Started) else (Retire(h, state, e.secondClear).0, Raised)
  }

  function Start(f: Flow, e: World, state: nat, verifier: nat): (Flow, Status)
  {
    var (g, status) := EnsureInitialized(f, e);
    if status.Raised? then (g, Raised)
    else if g.pending.Some? then
      var (h, ok) := Retire(g, g.pending.value.state, e.firstClear);
      if ok then Begin(h, e, state, verifier) else (h, Raised)
    else Begin(g, e, state, verifier)
  }

  /** The end of `#handleCallback` for the pending transaction itself; a handoff carries the callback's state on. */
  function Settle(f: Flow, e: World, r: Record, presented: nat, failed: bool): (Flow, Status)
  {
    var (g, ok) := Retire(f, r.state, e.secondClear);
    if !ok then (g, Raised)
    else if IsExpired(r, e.now) then (g, Expired)
    else if failed then (g, AuthenticationFailed)
    else (g.(handoffs := g.handoffs + [Handoff(presented, r.verifier, r, e.now, g.store)]), HandedOff)
  }

  function HandleCallback(f: Flow, e: World, callback: Callback): (Flow, Status)
  {
    var (g, status) := EnsureInitialized(f, e);
    if status.Raised? || status.Expired? then (g, status)
    else if callback.Malformed? || g.pending.None? then (g, Ignored)
    else
      var r := g.pending.value;
      match callback
      case WithoutState(failed) => if failed then Settle(g, e, r, r.state, true) else (g, Ignored)
      case WithState(state, failed) => if state == r.state then Settle(g, e, r, state, failed) else (g, Ignored)
  }

  function Cancel(f: Flow, e: World): (Flow, Status)
  {
    var (g, status) := EnsureInitialized(f, e);
    if status.Raised? then (g, Raised)
    else if g.pending.None? then (g, Nothing)
    else
      var (h, ok) := Retire(g, g.pending.value.state, e.secondClear);
      (h, if ok then Cancelled else Raised)
  }

  /** The queued operation of an expiry timer. */
  function Expire(f: Flow, e: World, expected: nat): (Flow, Status)
  {
    if f.pending.None? || f.pending.value.state != expected || !IsExpired(f.pending.value, e.now) then (f, Nothing)
    else
      var (g, ok) := Retire(f, expected, e.secondClear);
      (g, if ok then Nothing else Raised)
  }

  /** The process stops; only the store survives. */
  function Crash(f: Flow): Flow
  {
    f.(pending := None, initialized := false)
  }

  datatype Step =
    | InitializeStep(e: World)
    | StartStep(e: World, state: nat, verifier: nat)
    | CallbackStep(e: World, callback: Callback)
    | CancelStep(e: World)
    | ExpireStep(e: World, expected: nat)
    | CrashStep

  function Apply(f: Flow, step: Step): (Flow, Status)
  {
    match step
    case InitializeStep(e) => Initialize(f, e)
    case StartStep(e, state, verifier) => Start(f, e, state, verifier)
    case CallbackStep(e, callback) => HandleCallback(f, e, callback)
    case CancelStep(e) => Cancel(f, e)
    case ExpireStep(e, expected) => Expire(f, e, expected)
    case CrashStep => (Crash(f), Nothing)
  }

  /** The random strings of an attempt are new. */
  predicate Fresh(f: Flow, step: Step)
  {
    step.StartStep? ==> step.verifier !in f.minted
  }

  // ---------------------------------------------------------------------------------------------
  // Single use
  // ---------------------------------------------------------------------------------------------

  predicate Released(f: Flow, verifier: nat)
  {
    exists i :: 0 <= i < |f.handoffs| && f.handoffs[i].verifier == verifier
  }

  /** A record that is still held was minted with its state and never handed over. */
  predicate Unused(f: Flow, r: Option<Record>)
  {
    r.Some? ==> r.value.verifier in f.minted && f.minted[r.value.verifier] == r.value.state
                && !Released(f, r.value.verifier)
  }

  /** The record is for the flow's API and, as the flow's own attempts are, of permitted lifetime. */
  predicate Permitted(apiOrigin: string, ttl: int, r: Record)
  {
    && r.apiOrigin == apiOrigin
    && (0 < ttl <= AUTHKIT_MAX_AUTHORIZATION_TTL_MS ==>
          r.createdAt < r.expiresAt <= r.createdAt + AUTHKIT_MAX_AUTHORIZATION_TTL_MS)
  }

  predicate HandoffOk(f: Flow, h: Handoff)
  {
    && h.verifier in f.minted && f.minted[h.verifier] == h.state
    && h.record.verifier == h.verifier && h.at < h.record.expiresAt && Permitted(f.apiOrigin, f.ttl, h.record)
    && h.stored.None?
  }

  predicate Inv(f: Flow)
  {
    && Unused(f, f.pending) && Unused(f, f.store)
    && (f.pending.Some? && f.store.Some? ==> f.pending == f.store)
    && (f.pending.Some? ==> Permitted(f.apiOrigin, f.ttl, f.pending.value))
    && (forall i :: 0 <= i < |f.handoffs| ==> HandoffOk(f, f.handoffs[i]))
    && (forall i, j :: 0 <= i < j < |f.handoffs| ==> f.handoffs[i].verifier != f.handoffs[j].verifier)
  }

  lemma RetireKeeps(f: Flow, expected: nat, w: StoreWrite)
    requires Inv(f)
    ensures var (g, ok) := Retire(f, expected, w);
      Inv(g) && g == f.(store := g.store, pending := g.pending)
      && (ok && f.pending.Some? && f.pending.value.state == expected ==> g.pending.None? && g.store.None?)
      && (g.pending == f.pending || g.pending.None?)
  {
  }

  lemma LoadKeeps(f: Flow, e: World)
    requires Inv(f)
    ensures Inv(LoadPending(f, e).0)
  {
    hide Retire;
    if f.store.Some? && Parses(f.store.value, f.apiOrigin) {
      var r := f.store.value;
      RetireKeeps(f.(pending := Some(r)), r.state, e.firstClear);
    }
  }

  lemma EnsureKeeps(f: Flow, e: World)
    requires Inv(f)
    ensures Inv(EnsureInitialized(f, e).0) && EnsureInitialized(f, e).0.minted == f.minted
  {
    hide Inv, Retire;
    LoadKeeps(f, e);
    LoadMints(f, e);
  }

  lemma LoadMints(f: Flow, e: World)
    ensures LoadPending(f, e).0.minted == f.minted
  {
  }

  lemma BeginKeeps(f: Flow, e: World, state: nat, verifier: nat)
    requires Inv(f) && f.pending.None? && verifier !in f.minted
    ensures Inv(Begin(f, e, state, verifier).0)
  {
    hide Retire;
    var r := Record(f.apiOrigin, state, verifier, e.now, e.now + f.ttl);
    var g := f.(minted := f.minted[verifier := state]);
    forall i | 0 <= i < |f.handoffs| ensures f.handoffs[i].verifier != verifier { assert HandoffOk(f, f.handoffs[i]); }
    assert Inv(g);
    var h := g.(store := Some(r), pending := Some(r));
    assert Inv(h);
    RetireKeeps(h, state, e.secondClear);
  }

  lemma SettleKeeps(f: Flow, e: World, presented: nat, failed: bool)
    requires Inv(f) && f.pending.Some? && presented == f.pending.value.state
    ensures Inv(Settle(f, e, f.pending.value, presented, failed).0)
  {
    hide Retire;
    var r := f.pending.value;
    RetireKeeps(f, r.state, e.secondClear);
    var (g, ok) := Retire(f, r.state, e.secondClear);
    var h := Settle(f, e, r, presented, failed).0;
    if h.handoffs != g.handoffs {
      assert forall i :: 0 <= i < |g.handoffs| ==> h.handoffs[i] == g.handoffs[i];
      assert !Released(f, r.verifier);
    }
  }

  lemma StepKeeps(f: Flow, step: Step)
    requires Inv(f) && Fresh(f, step)
    ensures Inv(Apply(f, step).0)
  {
    hide Inv, LoadPending, Retire, Begin, Settle, EnsureInitialized;
    match step
    case InitializeStep(e) =>
      LoadKeeps(f, e);
      if f.pending.Some? { RetireKeeps(f, f.pending.value.state, e.firstClear); }
    case StartStep(e, state, verifier) => StartKeeps(f, e, state, verifier);
    case CallbackStep(e, callback) =>
      EnsureKeeps(f, e);
      var g := EnsureInitialized(f, e).0;
      if g.pending.Some? {
        SettleKeeps(g, e, g.pending.value.state, true);
        SettleKeeps(g, e, g.pending.value.state, false);
      }
    case CancelStep(e) =>
      EnsureKeeps(f, e);
      var g := EnsureInitialized(f, e).0;
      if g.pending.Some? { RetireKeeps(g, g.pending.value.state, e.secondClear); }
    case ExpireStep(e, expected) => RetireKeeps(f, expected, e.secondClear);
    case CrashStep => CrashKeeps(f);
  }

  lemma CrashKeeps(f: Flow)
    requires Inv(f)
    ensures Inv(Crash(f))
  {
  }

  lemma StartKeeps(f: Flow, e: World, state: nat, verifier: nat)
    requires Inv(f) && verifier !in f.minted
    ensures Inv(Start(f, e, state, verifier).0)
  {
    hide Inv, Retire, Begin, EnsureInitialized;
    EnsureKeeps(f, e);
    var g := EnsureInitialized(f, e).0;
    if g.pending.Some? {
      RetireKeeps(g, g.pending.value.state, e.firstClear);
      var (h, ok) := Retire(g, g.pending.value.state, e.firstClear);
      if ok { BeginKeeps(h, e, state, verifier); }
    } else {
      BeginKeeps(g, e, state, verifier);
    }
  }

  predicate FreshRun(f: Flow, steps: seq<Step>)
    decreases |steps|
  {
    steps == [] || (Fresh(f, steps[0]) && FreshRun(Apply(f, steps[0]).0, steps[1..]))
  }

  function Run(f: Flow, steps: seq<Step>): Flow
    decreases |steps|
  {
    if steps == [] then f else Run(Apply(f, steps[0]).0, steps[1..])
  }

  lemma {:induction false} InvOverRuns(f: Flow, steps: seq<Step>)
    requires Inv(f) && FreshRun(f, steps)
    ensures Inv(Run(f, steps))
    decreases |steps|
  {
    hide Inv, Apply, Fresh;
    if steps != [] {
      StepKeeps(f, steps[0]);
      InvOverRuns(Apply(f, steps[0]).0, steps[1..]);
    }
  }

  /** A first start of the application, over whatever an earlier version left in the store. */
  function Installed(apiOrigin: string, ttl: int, store: Option<Record>): Flow
  {
    Flow(apiOrigin, ttl, None, false, store, [],
         if store.Some? then map[store.value.verifier := store.value.state] else map[])
  }

  /** A handoff needs a callback without an error, and carries the state that this callback presented. */
  lemma HandoffIsAnswer(f: Flow, step: Step)
    ensures
      var g := Apply(f, step).0;
      g.handoffs == f.handoffs
      || (step.CallbackStep? && step.callback.WithState? && !step.callback.failed
          && |g.handoffs| == |f.handoffs| + 1 && f.handoffs <= g.handoffs
          && g.handoffs[|f.handoffs|].state == step.callback.state && g.handoffs[|f.handoffs|].at == step.e.now)
  {
    hide Parses;
  }

  lemma {:induction false} HandoffsAreAnswers(f: Flow, steps: seq<Step>, i: nat)
    requires |f.handoffs| <= i < |Run(f, steps).handoffs|
    ensures exists k :: 0 <= k < |steps| && Presents(steps[k], Run(f, steps).handoffs[i])
    decreases |steps|
  {
    hide Apply;
    var g, rest := Apply(f, steps[0]).0, steps[1..];
    HandoffIsAnswer(f, steps[0]);
    HandoffsGrow(g, rest);
    if i < |g.handoffs| {
      assert Presents(steps[0], g.handoffs[i]);
    } else {
      HandoffsAreAnswers(g, rest, i);
      var k :| 0 <= k < |rest| && Presents(rest[k], Run(g, rest).handoffs[i]);
      assert Presents(steps[k + 1], Run(f, steps).handoffs[i]);
    }
  }

  lemma {:induction false} HandoffsGrow(f: Flow, steps: seq<Step>)
    ensures f.handoffs <= Run(f, steps).handoffs
    decreases |steps|
  {
    hide Apply;
    if steps != [] {
      HandoffIsAnswer(f, steps[0]);
      HandoffsGrow(Apply(f, steps[0]).0, steps[1..]);
    }
  }

  predicate Presents(step: Step, h: Handoff)
  {
    step.CallbackStep? && step.callback == WithState(h.state, false) && step.e.now == h.at
  }

  /**
    Over every run with stops, failing stores and forged or repeated callbacks: a verifier is handed over
    at most once, only to a callback of the run that presented the very state it was minted with, only for
    the flow's own API, only from an unexpired record of permitted lifetime, and only when the store no
    longer held any record.
   */
  lemma SingleUse(apiOrigin: string, ttl: int, store: Option<Record>, steps: seq<Step>)
    requires FreshRun(Installed(apiOrigin, ttl, store), steps)
    ensures
      var f := Run(Installed(apiOrigin, ttl, store), steps);
      && (forall i, j :: 0 <= i < j < |f.handoffs| ==> f.handoffs[i].verifier != f.handoffs[j].verifier)
      && (forall i | 0 <= i < |f.handoffs| ::
            var h := f.handoffs[i];
            && (exists k :: 0 <= k < |steps| && Presents(steps[k], h))
            && h.verifier in f.minted && f.minted[h.verifier] == h.state
            && h.record.verifier == h.verifier && h.record.apiOrigin == apiOrigin && h.at < h.record.expiresAt
            && (0 < ttl <= AUTHKIT_MAX_AUTHORIZATION_TTL_MS ==>
                  h.record.createdAt < h.record.expiresAt <= h.record.createdAt + AUTHKIT_MAX_AUTHORIZATION_TTL_MS)
            && h.stored.None?)
      && (f.store.Some? ==> !Released(f, f.store.value.verifier))
  {
    hide Run, FreshRun, Unused, Presents;
    InstalledInv(apiOrigin, ttl, store);
    var start := Installed(apiOrigin, ttl, store);
    InvOverRuns(start, steps);
    var f := Run(start, steps);
    StoredIsUnused(f);
    SettingsStay(start, steps);
    forall i | 0 <= i < |f.handoffs| ensures exists k :: 0 <= k < |steps| && Presents(steps[k], f.handoffs[i]) {
      HandoffsAreAnswers(start, steps, i);
    }
  }

  lemma {:induction false} SettingsStay(f: Flow, steps: seq<Step>)
    ensures Run(f, steps).apiOrigin == f.apiOrigin && Run(f, steps).ttl == f.ttl
    decreases |steps|
  {
    hide Apply;
    if steps != [] {
      StepSettings(f, steps[0]);
      SettingsStay(Apply(f, steps[0]).0, steps[1..]);
    }
  }

  lemma StepSettings(f: Flow, step: Step)
    ensures Apply(f, step).0.apiOrigin == f.apiOrigin && Apply(f, step).0.ttl == f.ttl
  {
    hide Parses;
  }

  lemma StoredIsUnused(f: Flow)
    requires Inv(f)
    ensures f.store.Some? ==> !Released(f, f.store.value.verifier)
  {
  }

  lemma InstalledInv(apiOrigin: string, ttl: int, store: Option<Record>)
    ensures Inv(Installed(apiOrigin, ttl, store))
  {
  }

  // ---------------------------------------------------------------------------------------------
  // Memory and store
  // ---------------------------------------------------------------------------------------------

  /** Once initialised, memory holds what the store holds. */
  predicate Agrees(f: Flow)
  {
    f.initialized ==> f.pending == f.store
  }

  /** Retiring keeps the two apart exactly when the clear raises after it took effect. */
  lemma RetireAgrees(f: Flow, expected: nat, w: StoreWrite)
    requires f.pending.Some? && f.pending == f.store && f.pending.value.state == expected
    ensures Retire(f, expected, w).0.pending == Retire(f, expected, w).0.store <==> !w.FailedAfter?
  {
  }

  /** Saving the new attempt, or clearing it again when it cannot be used, raises after taking effect. */
  predicate BeginSplits(f: Flow, e: World)
  {
    e.save.FailedAfter?
    || (e.save.Done? && !(e.opens && e.now + f.ttl > e.later) && e.secondClear.FailedAfter?)
  }

  /** Saving keeps the two apart exactly when the save raises after it took effect. */
  lemma BeginAgrees(f: Flow, e: World, state: nat, verifier: nat)
    requires f.initialized && f.pending.None? && f.store.None?
    ensures Agrees(Begin(f, e, state, verifier).0) <==> !BeginSplits(f, e)
  {
  }

  lemma EnsureAgrees(f: Flow, e: World)
    requires Agrees(f)
    ensures var (g, status) := EnsureInitialized(f, e);
      Agrees(g) && (!status.Raised? ==> g.initialized) && (status.Raised? ==> !g.initialized)
  {
    hide Parses;
  }

  /** The callback is for the pending attempt, so `#handleCallback` retires it. */
  predicate Answers(callback: Callback, r: Record)
  {
    match callback
    case Malformed => false
    case WithoutState(failed) => failed
    case WithState(state, _) => state == r.state
  }

  /** The operations that set memory and store apart, judged by what they find and what the store answers. */
  predicate Splits(f: Flow, step: Step)
  {
    match step
    case InitializeStep(e) =>
      f.initialized && f.pending.Some? && IsExpired(f.pending.value, e.checkedAt) && e.firstClear.FailedAfter?
    case StartStep(e, _, _) =>
      var (g, status) := EnsureInitialized(f, e);
      !status.Raised?
      && (if g.pending.Some? && !e.firstClear.Done? then e.firstClear.FailedAfter? else BeginSplits(f, e))
    case CallbackStep(e, callback) =>
      var (g, status) := EnsureInitialized(f, e);
      !status.Raised? && !status.Expired? && g.pending.Some? && Answers(callback, g.pending.value)
      && e.secondClear.FailedAfter?
    case CancelStep(e) =>
      var (g, status) := EnsureInitialized(f, e);
      !status.Raised? && g.pending.Some? && e.secondClear.FailedAfter?
    case ExpireStep(e, expected) =>
      f.initialized && f.pending.Some? && f.pending.value.state == expected && IsExpired(f.pending.value, e.now)
      && e.secondClear.FailedAfter?
    case CrashStep => false
  }

  /** An operation leaves memory and store in agreement if and only if it is not one of `Splits`. */
  lemma StepAgreesIff(f: Flow, step: Step)
    requires Agrees(f)
    ensures Agrees(Apply(f, step).0) <==> !Splits(f, step)
  {
    hide Parses;
    match step
    case InitializeStep(e) => InitializeAgrees(f, e);
    case StartStep(e, state, verifier) => StartAgrees(f, e, state, verifier);
    case CallbackStep(e, callback) => CallbackAgrees(f, e, callback);
    case CancelStep(e) => CancelAgrees(f, e);
    case _ =>
  }

  lemma InitializeAgrees(f: Flow, e: World)
    requires Agrees(f)
    ensures Agrees(Initialize(f, e).0) <==> !Splits(f, InitializeStep(e))
  {
    hide Parses;
    if !f.initialized { EnsureAgrees(f, e); }
  }

  lemma StartAgrees(f: Flow, e: World, state: nat, verifier: nat)
    requires Agrees(f)
    ensures Agrees(Start(f, e, state, verifier).0) <==> !Splits(f, StartStep(e, state, verifier))
  {
    hide Begin, EnsureInitialized;
    var (g, status) := EnsureInitialized(f, e);
    EnsureAgrees(f, e);
    EnsureKeepsTtl(f, e);
    if !status.Raised? {
      var h := if g.pending.Some? then Retire(g, g.pending.value.state, e.firstClear).0 else g;
      if h.pending.None? { BeginAgrees(h, e, state, verifier); }
    }
  }

  lemma EnsureKeepsTtl(f: Flow, e: World)
    ensures EnsureInitialized(f, e).0.ttl == f.ttl
  {
  }

  lemma CallbackAgrees(f: Flow, e: World, callback: Callback)
    requires Agrees(f)
    ensures Agrees(HandleCallback(f, e, callback).0) <==> !Splits(f, CallbackStep(e, callback))
  {
    hide EnsureInitialized;
    EnsureAgrees(f, e);
  }

  lemma CancelAgrees(f: Flow, e: World)
    requires Agrees(f)
    ensures Agrees(Cancel(f, e).0) <==> !Splits(f, CancelStep(e))
  {
    hide EnsureInitialized;
    EnsureAgrees(f, e);
  }

  /** Memory and store agree after every operation of a run if and only if none of them splits the two. */
  lemma {:induction false} RunAgreesIff(f: Flow, steps: seq<Step>)
    requires Agrees(f)
    ensures (forall k :: 0 <= k <= |steps| ==> Agrees(Run(f, steps[..k]))) <==> NoneSplits(f, steps)
    decreases |steps|
  {
    hide Agrees, Apply, Splits;
    if steps != [] {
      var g, rest := Apply(f, steps[0]).0, steps[1..];
      StepAgreesIff(f, steps[0]);
      assert forall k :: 0 <= k <= |rest| ==> steps[..k + 1][1..] == rest[..k];
      assert forall k :: 1 <= k <= |steps| ==> Run(f, steps[..k]) == Run(g, rest[..k - 1]);
      if !Splits(f, steps[0]) {
        RunAgreesIff(g, rest);
        assert forall k :: 0 <= k <= |rest| ==> Run(g, rest[..k]) == Run(f, steps[..k + 1]);
      } else {
        assert Run(g, rest[..0]) == g;
      }
    }
  }

  predicate NoneSplits(f: Flow, steps: seq<Step>)
    decreases |steps|
  {
    steps == [] || (!Splits(f, steps[0]) && NoneSplits(Apply(f, steps[0]).0, steps[1..]))
  }

  /**
    A run that sets them apart: a started attempt is cancelled, and the store raises although it has
    forgotten the record. Memory goes on with an attempt that no restart would find.
   */
  lemma CancelledAttemptSplits()
    ensures
      var e := World(true, 0, 0, 0, 1, Done, FailedAfter, Done, true);
      var f := Run(Installed("https://api", 1000, None), [StartStep(e, 1, 2), CancelStep(e)]);
      f.initialized && f.pending == Some(Record("https://api", 1, 2, 0, 1000)) && f.store.None?
  {
    var e := World(true, 0, 0, 0, 1, Done, FailedAfter, Done, true);
    var f0 := Installed("https://api", 1000, None);
    var f1 := Apply(f0, StartStep(e, 1, 2)).0;
    assert Run(f0, [StartStep(e, 1, 2), CancelStep(e)]) == Run(f1, [CancelStep(e)]) == Run(Apply(f1, CancelStep(e)).0, []);
  }

  // ---------------------------------------------------------------------------------------------
  // Outcomes
  // ---------------------------------------------------------------------------------------------

  /** A stored record is good: for this API, of permitted lifetime, and not from a clock far ahead. */
  predicate Acceptable(f: Flow, r: Record, at: int)
  {
    && r.apiOrigin == f.apiOrigin
    && r.createdAt < r.expiresAt <= r.createdAt + AUTHKIT_MAX_AUTHORIZATION_TTL_MS
    && r.expiresAt <= at + AUTHKIT_MAX_AUTHORIZATION_TTL_MS
  }

  predicate Good(f: Flow, e: World)
  {
    e.loads && f.store.Some? && Acceptable(f, f.store.value, e.loadedAt)
  }

  /** The stored record has run out, which ends the attempt at the first use. */
  predicate RunOut(f: Flow, e: World)
  {
    Good(f, e) && f.store.value.expiresAt <= e.checkedAt
  }

  /** The first use of the store fails: it cannot be read, holds no good record, or cannot drop one that ran out. */
  predicate LoadFails(f: Flow, e: World)
  {
    !f.initialized && (!e.loads || (f.store.Some? && !Good(f, e)) || (RunOut(f, e) && !e.firstClear.Done?))
  }

  /** The attempt that an operation finds, in memory or by its first use of the store. */
  function Found(f: Flow, e: World): Option<Record>
  {
    if f.initialized then f.pending
    else if Good(f, e) && !RunOut(f, e) then f.store else None
  }

  lemma LoadOutcome(f: Flow, e: World)
    ensures
      var (g, status) := EnsureInitialized(f, e);
      && (status.Raised? <==> LoadFails(f, e))
      && (status.Expired? <==> !f.initialized && RunOut(f, e) && e.firstClear.Done?)
      && (status.Pending? <==> !LoadFails(f, e) && Found(f, e).Some?)
      && (status.Idle? <==> !LoadFails(f, e) && Found(f, e).None? && !status.Expired?)
      && g.handoffs == f.handoffs && g.minted == f.minted
      && (if status.Raised? then !g.initialized && (g.store == f.store || (RunOut(f, e) && e.firstClear.FailedAfter? && g.store.None?))
          else g.initialized && g.pending == Found(f, e) && g.store == (if status.Expired? then None else f.store))
  {
  }

  /** An initialization reports what it finds, and ends an attempt that has run out in the meantime. */
  lemma InitializeOutcome(f: Flow, e: World)
    ensures
      var (g, status) := Initialize(f, e);
      if !f.initialized then (g, status) == EnsureInitialized(f, e)
      else if f.pending.None? then g == f && status.Idle?
      else if e.checkedAt < f.pending.value.expiresAt then g == f && status.Pending?
      else
        && status == (if e.firstClear.Done? then Expired else Raised)
        && g == f.(pending := if e.firstClear.Done? then None else f.pending,
                   store := if e.firstClear.FailedBefore? then f.store else None)
  {
  }

  /** The attempt is retired: forgotten if the store was cleared, kept in memory if clearing it raised. */
  function Ended(f: Flow, r: Record, w: StoreWrite): Flow
  {
    f.(pending := if w.Done? then None else Some(r), store := if w.FailedBefore? then f.store else None)
  }

  /** Retiring ends only the attempt with the expected state, and says so; there is nothing to raise for any other. */
  lemma RetireOutcome(f: Flow, expected: nat, w: StoreWrite)
    ensures
      Retire(f, expected, w)
      == if f.pending.Some? && f.pending.value.state == expected then (Ended(f, f.pending.value, w), w.Done?) else (f, true)
  {
  }

  /**
    A callback ends the attempt that it answers, and hands its verifier over if it carries no error, the attempt has
    not expired and the store was cleared. Every other callback changes nothing.
   */
  lemma CallbackOutcome(f: Flow, e: World, callback: Callback)
    ensures
      var (g, status) := HandleCallback(f, e, callback);
      var (h, loaded) := EnsureInitialized(f, e);
      var found := Found(f, e);
      if loaded.Raised? || loaded.Expired? then (g, status) == (h, loaded)
      else if found.None? || !Answers(callback, found.value) then g == h && status.Ignored?
      else
        var r := found.value;
        var fails := callback.failed;
        && status == (if !e.secondClear.Done? then Raised else if r.expiresAt <= e.now then Expired
                      else if fails then AuthenticationFailed else HandedOff)
        && g == Ended(h, r, e.secondClear).(
                  handoffs := f.handoffs + if status.HandedOff? then [Handoff(callback.state, r.verifier, r, e.now, None)] else [])
  {
    hide Parses, LoadPending;
    LoadOutcome(f, e);
    hide EnsureInitialized, Found, LoadFails, RunOut;
  }

  /** A cancellation ends whatever attempt it finds. */
  lemma CancelOutcome(f: Flow, e: World)
    ensures
      var (g, status) := Cancel(f, e);
      var (h, loaded) := EnsureInitialized(f, e);
      if loaded.Raised? then (g, status) == (h, loaded)
      else if Found(f, e).None? then g == h && status.Nothing?
      else g == Ended(h, Found(f, e).value, e.secondClear) && status == (if e.secondClear.Done? then Cancelled else Raised)
  {
    LoadOutcome(f, e);
    hide EnsureInitialized, Found, LoadFails, RunOut;
  }

  /** An expiry timer ends only the very attempt it was set for, and only once that has run out. */
  lemma ExpireOutcome(f: Flow, e: World, expected: nat)
    ensures
      var (g, status) := Expire(f, e, expected);
      if f.pending.Some? && f.pending.value.state == expected && f.pending.value.expiresAt <= e.now then
        g == Ended(f, f.pending.value, e.secondClear) && status == (if e.secondClear.Done? then Nothing else Raised)
      else g == f && status.Nothing?
  {
  }

  /**
    A start ends the attempt it finds, saves the new one before it is used, and leaves it pending exactly if the browser
    opened in time; otherwise the new attempt is ended again.
   */
  lemma StartOutcome(f: Flow, e: World, state: nat, verifier: nat)
    ensures
      var (g, status) := Start(f, e, state, verifier);
      var (h, loaded) := EnsureInitialized(f, e);
      var found := Found(f, e);
      var r := Record(f.apiOrigin, state, verifier, e.now, e.now + f.ttl);
      if loaded.Raised? then (g, status) == (h, loaded)
      else if found.Some? && !e.firstClear.Done? then g == Ended(h, found.value, e.firstClear) && status.Raised?
      else
        var emptied := h.(pending := None, store := if found.Some? then None else h.store, minted := f.minted[verifier := state]);
        && (status.Started? <==> e.save.Done? && e.opens && e.later < r.expiresAt)
        && (status.Started? || status.Raised?)
        && g == match e.save
                case FailedBefore => emptied
                case FailedAfter => emptied.(store := Some(r))
                case Done => if status.Started? then emptied.(pending := Some(r), store := Some(r))
                             else Ended(emptied.(store := Some(r)), r, e.secondClear)
  {
    hide Parses, LoadPending;
    LoadOutcome(f, e);
    SettingsKept(f, e);
    hide EnsureInitialized, Found, LoadFails, RunOut;
  }

  lemma SettingsKept(f: Flow, e: World)
    ensures var g := EnsureInitialized(f, e).0; g.apiOrigin == f.apiOrigin && g.ttl == f.ttl
  {
  }

  /** A stop forgets memory and keeps the store; a timer or an attempt of before is not known any more. */
  lemma CrashOutcome(f: Flow)
    ensures var g := Crash(f); !g.initialized && g.pending.None? && g.store == f.store && g.handoffs == f.handoffs
  {
  }

  // ---------------------------------------------------------------------------------------------
  // The object
  // ---------------------------------------------------------------------------------------------

  class NativeAuthorization {
    const apiOrigin: string
    const authorizationTtlMs: int
    var pending: Option<Record>
    var initialized: bool
    /** The OS-protected cell of AuthKitPendingAuthorizationStore. */
    var store: Option<Record>
    ghost var handoffs: seq<Handoff>
    ghost var minted: map<nat, nat>

    ghost function Model(): Flow
      reads this
    {
      Flow(apiOrigin, authorizationTtlMs, pending, initialized, store, handoffs, minted)
    }

    constructor (apiOrigin: string, authorizationTtlMs: int, stored: Option<Record>)
      requires 0 < authorizationTtlMs <= AUTHKIT_MAX_AUTHORIZATION_TTL_MS
      ensures Model() == Installed(apiOrigin, authorizationTtlMs, stored)
    {
      this.apiOrigin, this.authorizationTtlMs := apiOrigin, authorizationTtlMs;
      pending, initialized, store := None, false, stored;
      handoffs := [];
      minted := if stored.Some? then map[stored.value.verifier := stored.value.state] else map[];
    }

    method ClearStore(w: StoreWrite) returns (ok: bool)
      modifies this`store
      ensures store == if w.FailedBefore? then old(store) else None
      ensures ok == w.Done?
    {
      if !w.FailedBefore? { store := None; }
      ok := w.Done?;
    }

    method RetirePending(expected: nat, w: StoreWrite) returns (ok: bool)
      modifies this
      ensures (Model(), ok) == Retire(old(Model()), expected, w)
    {
      if pending.None? || pending.value.state != expected { return true; }
      ok := ClearStore(w);
      if !ok { return; }
      pending := None;
    }

    method LoadStored(e: World) returns (status: Status)
      modifies this
      ensures (Model(), status) == LoadPending(old(Model()), e)
    {
      hide Retire;
      if !e.loads { return Raised; }
      var loaded := store;
      if loaded.Some? {
        if !Parses(loaded.value, apiOrigin)
           || loaded.value.expiresAt - e.loadedAt > AUTHKIT_MAX_AUTHORIZATION_TTL_MS {
          return Raised;
        }
      }
      pending := loaded;
      if loaded.None? {
        initialized := true;
        return Idle;
      }
      if IsExpired(loaded.value, e.checkedAt) {
        var ok := RetirePending(loaded.value.state, e.firstClear);
        if !ok { return Raised; }
        initialized := true;
        return Expired;
      }
      initialized := true;
      return Pending;
    }

    method InitializeFlow(e: World) returns (status: Status)
      modifies this
      ensures (Model(), status) == Initialize(old(Model()), e)
    {
      hide Retire, LoadPending;
      if initialized {
        if pending.Some? && IsExpired(pending.value, e.checkedAt) {
          var ok := RetirePending(pending.value.state, e.firstClear);
          return if ok then Expired else Raised;
        }
        return if pending.None? then Idle else Pending;
      }
      status := LoadStored(e);
    }

    method EnsureReady(e: World) returns (status: Status)
      modifies this
      ensures (Model(), status) == EnsureInitialized(old(Model()), e)
    {
      hide LoadPending;
      if initialized { return if pending.None? then Idle else Pending; }
      status := LoadStored(e);
    }

    /** `#start` after the previous attempt was retired. */
    method BeginAttempt(e: World, state: nat, verifier: nat) returns (status: Status)
      modifies this
      ensures (Model(), status) == Begin(old(Model()), e, state, verifier)
    {
      hide Retire;
      var attempt := Record(apiOrigin, state, verifier, e.now, e.now + authorizationTtlMs);
      minted := minted[verifier := state];
      if !e.save.FailedBefore? { store := Some(attempt); }
      if !e.save.Done? { return Raised; }
      pending := Some(attempt);
      if e.opens && !IsExpired(attempt, e.later) { return Started; }
      var _ := RetirePending(state, e.secondClear);
      return Raised;
    }

    method StartAttempt(e: World, state: nat, verifier: nat) returns (status: Status)
      modifies this
      ensures (Model(), status) == Start(old(Model()), e, state, verifier)
    {
      hide Retire, Begin, EnsureInitialized;
      status := EnsureReady(e);
      if status.Raised? { return; }
      if pending.Some? {
        var ok := RetirePending(pending.value.state, e.firstClear);
        if !ok { return Raised; }
      }
      status := BeginAttempt(e, state, verifier);
    }

    method SettlePending(e: World, presented: nat, failed: bool) returns (status: Status)
      requires pending.Some?
      modifies this
      ensures (Model(), status) == Settle(old(Model()), e, old(pending).value, presented, failed)
    {
      hide Retire;
      var settled := pending.value;
      var ok := RetirePending(settled.state, e.secondClear);
      if !ok { return Raised; }
      if IsExpired(settled, e.now) { return Expired; }
      if failed { return AuthenticationFailed; }
      handoffs := handoffs + [Handoff(presented, settled.verifier, settled, e.now, store)];
      return HandedOff;
    }

    method Receive(e: World, callback: Callback) returns (status: Status)
      modifies this
      ensures (Model(), status) == HandleCallback(old(Model()), e, callback)
    {
      hide Settle, EnsureInitialized;
      status := EnsureReady(e);
      if status.Raised? || status.Expired? { return; }
      if callback.Malformed? || pending.None? { return Ignored; }
      match callback {
        case WithoutState(failed) =>
          if !failed { return Ignored; }
          status := SettlePending(e, pending.value.state, true);
        case WithState(state, failed) =>
          if state != pending.value.state { return Ignored; }
          status := SettlePending(e, state, failed);
      }
    }

    method CancelAttempt(e: World) returns (status: Status)
      modifies this
      ensures (Model(), status) == Cancel(old(Model()), e)
    {
      hide Retire, EnsureInitialized;
      status := EnsureReady(e);
      if status.Raised? { return; }
      if pending.None? { return Nothing; }
      var ok := RetirePending(pending.value.state, e.secondClear);
      return if ok then Cancelled else Raised;
    }

    method ExpireAttempt(e: World, expected: nat) returns (status: Status)
      modifies this
      ensures (Model(), status) == Expire(old(Model()), e, expected)
    {
      hide Retire;
      if pending.None? || pending.value.state != expected { return Nothing; }
      if !IsExpired(pending.value, e.now) { return Nothing; }
      var ok := RetirePending(expected, e.secondClear);
      return if ok then Nothing else Raised;
    }
  }
}
