/**
  Read targets of the Hermes adapter (integrations/hermes-hype-comms/adapter.py:1825-1974): queueing,
  concurrent advances of several conversations, parking, rollbacks and restarts. A level is a
  conversation sequence plus one, 0 standing for none.
 */
module ReadTargets {
  import opened Wrappers
  import opened Decimals
  import opened CheckpointFile
  import opened Checkpoint

  /**
    `accepted`: the highest level the server took. `promised`: the highest level of a queueing that
    returned. `written`: the highest level of a queueing whose document replaced the file, returned
    or not.
   */
  datatype Levels = Levels(accepted: map<string, nat>, promised: map<string, nat>, written: map<string, nat>)

  /** `inFlight`: the target each conversation's lock holder is advancing. */
  datatype Flow = Flow(a: Adapter, inFlight: map<string, ReadTarget>, l: Levels)

  datatype Step =
    | Queue(cursor: Cursor, conversationId: string, target: ReadTarget, w: Write)
    | Begin(conversationId: string)
    | Advanced(conversationId: string, w: Write)
    | Refused(conversationId: string, retryable: bool, reachedServer: bool)
    | Wakes(mutation: Mutation, w: Write)
    | Reconnected(bootstrap: Cursor, w: Write)

  function LevelOf(t: ReadTarget): nat
  {
    Num(t.conversationSequence) + 1
  }

  function Level(targets: map<string, ReadTarget>, c: string): nat
  {
    if c in targets then LevelOf(targets[c]) else 0
  }

  function Get(levels: map<string, nat>, c: string): nat
  {
    if c in levels then levels[c] else 0
  }

  function Max(x: nat, y: nat): nat
  {
    if x < y then y else x
  }

  function Raise(levels: map<string, nat>, c: string, level: nat): (r: map<string, nat>)
    ensures forall d :: Get(r, d) == if d == c then Max(Get(levels, c), level) else Get(levels, d)
  {
    levels[c := Max(Get(levels, c), level)]
  }

  /** The greatest of what the server took and what is still pending. */
  function Reached(l: Levels, targets: map<string, ReadTarget>, c: string): nat
  {
    Max(Get(l.accepted, c), Level(targets, c))
  }

  ghost predicate Enabled(f: Flow, step: Step)
  {
    match step
    case Begin(c) => c !in f.inFlight && c in f.a.targets && !(c in f.a.parked && f.a.parked[c] == f.a.targets[c])
    case Advanced(c, _) => c in f.inFlight
    case Refused(c, _, _) => c in f.inFlight
    case Wakes(m, _) => m.Retaining? || m.Completing? || m.Advancing?
    case Reconnected(bootstrap, _) => ValidCursor(bootstrap)
    case Queue(_, _, _, _) => true
  }

  function Taken(l: Levels, c: string, t: ReadTarget): Levels
  {
    l.(accepted := Raise(l.accepted, c, LevelOf(t)))
  }

  /** The server took `t`; a failed removal parks the target that was advanced. */
  function Advance(f: Flow, c: string, t: ReadTarget, w: Write): Flow
  {
    var (b, ok) := CompleteRead(f.a, c, t, w);
    Flow(if ok then b else Park(b, c, t), f.inFlight - {c}, Taken(f.l, c, t))
  }

  function Refuse(f: Flow, c: string, t: ReadTarget, retryable: bool, reachedServer: bool): Flow
  {
    Flow(if retryable then f.a else Park(f.a, c, t), f.inFlight - {c},
         if reachedServer then Taken(f.l, c, t) else f.l)
  }

  function Recorded(l: Levels, c: string, t: ReadTarget, returned: bool, durable: bool): Levels
  {
    Levels(l.accepted,
           if returned then Raise(l.promised, c, LevelOf(t)) else l.promised,
           if durable then Raise(l.written, c, LevelOf(t)) else l.written)
  }

  function Enqueue(f: Flow, cursor: Cursor, c: string, t: ReadTarget, w: Write): Flow
  {
    var (b, ok) := QueueRead(f.a, cursor, c, t, w);
    f.(a := b, l := Recorded(f.l, c, t, ok, ValidCursor(cursor) && ValidRead(c, t) && !w.Failed?))
  }

  ghost function Apply(f: Flow, step: Step): Flow
    requires Enabled(f, step)
  {
    match step
    case Queue(cursor, c, t, w) => Enqueue(f, cursor, c, t, w)
    case Begin(c) => f.(inFlight := f.inFlight[c := f.a.targets[c]])
    case Advanced(c, w) => Advance(f, c, f.inFlight[c], w)
    case Refused(c, retryable, reachedServer) => Refuse(f, c, f.inFlight[c], retryable, reachedServer)
    case Wakes(m, w) => f.(a := Mutate(f.a, m, w))
    case Reconnected(b, w) => f.(a := Connect(f.a, b, w).0, inFlight := map[])
  }

  // ---------------------------------------------------------------------------------------------
  // Invariant
  // ---------------------------------------------------------------------------------------------

  /** Of `c`, nothing promised is missing from `targets`, and nothing unwritten is in it. */
  predicate Between(l: Levels, targets: map<string, ReadTarget>, c: string)
  {
    Get(l.promised, c) <= Reached(l, targets, c) <= Get(l.written, c)
  }

  ghost predicate Holds(l: Levels, targets: map<string, ReadTarget>)
  {
    forall c :: Between(l, targets, c)
  }

  ghost predicate Inv(f: Flow)
  {
    && Kept(f.a)
    && Holds(f.l, f.a.targets)
    && (if f.a.disk.Some? then Holds(f.l, f.a.disk.value.targets) else Holds(f.l, map[]))
    && (forall c :: c in f.inFlight ==> LevelOf(f.inFlight[c]) <= Get(f.l.written, c))
  }

  /** The file is the old one, or holds `targets`. */
  predicate Stored(a: Adapter, b: Adapter, targets: map<string, ReadTarget>)
  {
    b.disk == a.disk || (b.disk.Some? && b.disk.value.targets == targets)
  }

  lemma SupersedesMeans(a: Adapter, c: string, t: ReadTarget)
    requires Kept(a) && ValidRead(c, t)
    ensures Level(Queued(a, c, t).targets, c) == Max(Level(a.targets, c), LevelOf(t))
    ensures forall d :: d != c ==> Level(Queued(a, c, t).targets, d) == Level(a.targets, d)
    ensures Queued(a, c, t).targets.Keys == a.targets.Keys + {c}
  {
    hide ValidWakes, CompareDecimalStrings, WellFormed, IsEntityId;
    if c in a.targets {
      assert ValidRead(c, a.targets[c]);
      CompareIsNumeric(t.conversationSequence, a.targets[c].conversationSequence);
    }
  }

  lemma QueueShape(a: Adapter, cursor: Cursor, c: string, t: ReadTarget, w: Write)
    ensures
      var (b, ok) := QueueRead(a, cursor, c, t, w);
      && (ok ==> ValidRead(c, t) && ValidCursor(cursor) && w.Saved?)
      && b.targets == (if ok then Queued(a, c, t).targets else a.targets)
      && (if ok then b.disk.Some? && b.disk.value.targets == b.targets
          else b.disk == a.disk
               || (ValidRead(c, t) && ValidCursor(cursor) && !w.Failed? && Stored(a, b, Queued(a, c, t).targets)))
  {
    hide ValidCursor, ValidRead, Supersedes;
  }

  /** Raising what was promised and pending together, or what was written alone, keeps the bounds. */
  lemma RecordedHolds(l: Levels, before: map<string, ReadTarget>, after: map<string, ReadTarget>, c: string, t: ReadTarget)
    requires Holds(l, before)
    requires Level(after, c) == Max(Level(before, c), LevelOf(t))
    requires forall d :: d != c ==> Level(after, d) == Level(before, d)
    ensures Holds(Recorded(l, c, t, true, true), after)
    ensures Holds(Recorded(l, c, t, false, true), after)
  {
    forall d ensures Between(Recorded(l, c, t, true, true), after, d) && Between(Recorded(l, c, t, false, true), after, d) {
      assert Between(l, before, d);
    }
  }

  lemma WrittenHolds(l: Levels, targets: map<string, ReadTarget>, c: string, t: ReadTarget)
    requires Holds(l, targets)
    ensures Holds(Recorded(l, c, t, false, true), targets) && Recorded(l, c, t, false, false) == l
  {
    forall d ensures Between(Recorded(l, c, t, false, true), targets, d) { assert Between(l, targets, d); }
  }

  lemma EnqueueKeeps(f: Flow, cursor: Cursor, c: string, t: ReadTarget, w: Write)
    requires Inv(f)
    ensures Inv(Enqueue(f, cursor, c, t, w))
  {
    hide Kept, QueueRead, Queued, ValidCursor, ValidRead, Holds, Level, LevelOf;
    QueueReadKeeps(f.a, cursor, c, t, w);
    QueueShape(f.a, cursor, c, t, w);
    var stored := if f.a.disk.Some? then f.a.disk.value.targets else map[];
    WrittenHolds(f.l, f.a.targets, c, t);
    WrittenHolds(f.l, stored, c, t);
    if ValidRead(c, t) {
      SupersedesMeans(f.a, c, t);
      RecordedHolds(f.l, f.a.targets, Queued(f.a, c, t).targets, c, t);
    }
  }

  lemma RemovalShape(a: Adapter, c: string, t: ReadTarget, w: Write)
    ensures
      var (b, ok) := CompleteRead(a, c, t, w);
      && (b.targets == a.targets || (Pending(a, c, t) && b.targets == Without(a.targets, c)))
      && (b.disk == a.disk || (Pending(a, c, t) && Stored(a, b, Without(a.targets, c))))
  {
    hide ValidCursor;
  }

  lemma TakenHolds(l: Levels, targets: map<string, ReadTarget>, c: string, t: ReadTarget)
    requires Holds(l, targets) && LevelOf(t) <= Get(l.written, c)
    ensures Holds(Taken(l, c, t), targets)
  {
    forall d ensures Between(Taken(l, c, t), targets, d) { assert Between(l, targets, d); }
  }

  /** Removing an advanced target loses nothing: the server has it. */
  lemma RemovalHolds(l: Levels, a: Adapter, c: string, t: ReadTarget)
    requires Holds(l, a.targets) && Pending(a, c, t)
    ensures Holds(Taken(l, c, t), Without(a.targets, c))
  {
    forall d ensures Between(Taken(l, c, t), Without(a.targets, c), d) { assert Between(l, a.targets, d); }
  }

  lemma AdvancedKeeps(f: Flow, c: string, w: Write)
    requires Inv(f) && c in f.inFlight
    ensures Inv(Advance(f, c, f.inFlight[c], w))
  {
    hide Kept, CompleteRead, Park, Holds, Pending, LevelOf;
    var t := f.inFlight[c];
    CompleteReadKeeps(f.a, c, t, w);
    ParkKeeps(CompleteRead(f.a, c, t, w).0, c, t);
    ParkShape(CompleteRead(f.a, c, t, w).0, c, t);
    RemovalShape(f.a, c, t, w);
    TakenHolds(f.l, f.a.targets, c, t);
    TakenHolds(f.l, if f.a.disk.Some? then f.a.disk.value.targets else map[], c, t);
    if Pending(f.a, c, t) { RemovalHolds(f.l, f.a, c, t); }
  }

  lemma ParkShape(a: Adapter, c: string, t: ReadTarget)
    ensures Park(a, c, t) == a.(parked := Park(a, c, t).parked)
  {
  }

  lemma RefusedKeeps(f: Flow, c: string, retryable: bool, reachedServer: bool)
    requires Inv(f) && c in f.inFlight
    ensures Inv(Refuse(f, c, f.inFlight[c], retryable, reachedServer))
  {
    hide Kept, Park, Holds, LevelOf;
    var t := f.inFlight[c];
    ParkKeeps(f.a, c, t);
    ParkShape(f.a, c, t);
    TakenHolds(f.l, f.a.targets, c, t);
    TakenHolds(f.l, if f.a.disk.Some? then f.a.disk.value.targets else map[], c, t);
  }

  lemma WakesLeaveTargets(a: Adapter, m: Mutation, w: Write)
    requires m.Retaining? || m.Completing? || m.Advancing?
    ensures Mutate(a, m, w).targets == a.targets && Stored(a, Mutate(a, m, w), a.targets)
  {
    hide ValidWake, Target, Commit;
    if a.cursor.Some? {
      if m.Retaining? {
        CommitShape(a, a.(wakes := a.wakes[m.messageId := Target(a.wakes, m.messageId, m.event)]), a.cursor.value, w);
      } else if m.Completing? {
        CommitShape(a, a.(wakes := Without(a.wakes, m.messageId)), a.cursor.value, w);
      }
    }
    if m.Advancing? { CommitShape(a, a, m.position, w); }
  }

  lemma ReconnectKeeps(f: Flow, b: Cursor, w: Write)
    requires Inv(f) && ValidCursor(b)
    ensures Inv(f.(a := Connect(f.a, b, w).0, inFlight := map[]))
  {
    hide Kept, ValidCursor, Connect, Holds;
    ConnectKeeps(f.a, b, w);
  }

  lemma StepKeeps(f: Flow, step: Step)
    requires Inv(f) && Enabled(f, step)
    ensures Inv(Apply(f, step))
  {
    hide Kept, Enqueue, Advance, Refuse, Mutate, Connect, Holds;
    match step
    case Queue(cursor, c, t, w) => EnqueueKeeps(f, cursor, c, t, w);
    case Begin(c) => PendingIsWritten(f, c);
    case Advanced(c, w) => AdvancedKeeps(f, c, w);
    case Refused(c, retryable, reachedServer) => RefusedKeeps(f, c, retryable, reachedServer);
    case Wakes(m, w) =>
      MutateKeeps(f.a, m, w);
      WakesLeaveTargets(f.a, m, w);
    case Reconnected(b, w) => ReconnectKeeps(f, b, w);
  }

  lemma PendingIsWritten(f: Flow, c: string)
    requires Inv(f) && c in f.a.targets
    ensures LevelOf(f.a.targets[c]) <= Get(f.l.written, c)
  {
    hide Kept;
    assert Between(f.l, f.a.targets, c);
  }

  // ---------------------------------------------------------------------------------------------
  // What an advance does
  // ---------------------------------------------------------------------------------------------

  /** A pending target can be advanced unless one of its conversation is, or the server refused this very one for good. */
  lemma ServedUnlessParked(f: Flow, c: string)
    requires Kept(f.a) && c in f.a.targets
    ensures Enabled(f, Begin(c)) <==> c !in f.inFlight && c !in f.a.parked
    ensures Enabled(f, Begin(c)) ==>
              Apply(f, Begin(c)) == f.(inFlight := f.inFlight[c := f.a.targets[c]])
  {
    hide ValidReads, ValidWakes, ValidCursor, WellFormed;
  }

  /**
    An advance that the server took raises what it has accepted. It ends the target if that is still pending
    and the file can be written; a target that cannot be ended is parked, and a newer one stays to be advanced.
   */
  lemma AdvancedMeans(f: Flow, c: string, w: Write)
    requires Inv(f) && c in f.inFlight
    ensures
      var t := f.inFlight[c];
      var g := Apply(f, Advanced(c, w));
      && g.inFlight == f.inFlight - {c}
      && Get(g.l.accepted, c) == Max(Get(f.l.accepted, c), LevelOf(t)) && g.l.promised == f.l.promised && g.l.written == f.l.written
      && (forall d :: d != c ==> Get(g.l.accepted, d) == Get(f.l.accepted, d))
      && (if !Pending(f.a, c, t) then g.a == f.a
          else if f.a.cursor.Some? && w.Saved? then
            g.a.targets == Without(f.a.targets, c) && g.a.parked == Without(f.a.parked, c)
          else g.a.targets == f.a.targets && g.a.parked == f.a.parked[c := t])
  {
    hide ValidReads, ValidWakes, IsEntityId, IsSequence, Holds;
  }

  /** A refused target is parked exactly if the refusal is final and it is still the pending one; otherwise it can be tried again. */
  lemma RefusedMeans(f: Flow, c: string, retryable: bool, reachedServer: bool)
    requires c in f.inFlight
    ensures
      var t := f.inFlight[c];
      var g := Apply(f, Refused(c, retryable, reachedServer));
      && g.inFlight == f.inFlight - {c}
      && g.a == f.a.(parked := if !retryable && Pending(f.a, c, t) then f.a.parked[c := t] else f.a.parked)
      && g.l == f.l.(accepted := g.l.accepted)
      && Get(g.l.accepted, c) == (if reachedServer then Max(Get(f.l.accepted, c), LevelOf(t)) else Get(f.l.accepted, c))
  {
  }

  /** Reconnecting forgets what was in flight and parked, and goes on with the file's targets. */
  lemma ReconnectedMeans(f: Flow, b: Cursor, w: Write)
    requires Inv(f) && ValidCursor(b)
    ensures
      var g := Apply(f, Reconnected(b, w));
      g.inFlight == map[] && g.l == f.l && g.a.parked == map[]
      && g.a.targets == if f.a.disk.Some? then f.a.disk.value.targets else map[]
  {
    hide ValidReads, ValidWakes, ValidCursor, Connect, Holds;
    ConnectKeeps(f.a, b, w);
  }

  /** Wakes are retained and completed beside the targets. */
  lemma WakesMean(f: Flow, m: Mutation, w: Write)
    requires Enabled(f, Wakes(m, w))
    ensures var g := Apply(f, Wakes(m, w)); g == f.(a := Mutate(f.a, m, w)) && g.a.targets == f.a.targets
  {
    hide Mutate;
    WakesLeaveTargets(f.a, m, w);
  }

  // ---------------------------------------------------------------------------------------------
  // Runs
  // ---------------------------------------------------------------------------------------------

  ghost predicate Legal(f: Flow, steps: seq<Step>)
    decreases |steps|
  {
    steps == [] || (Enabled(f, steps[0]) && Legal(Apply(f, steps[0]), steps[1..]))
  }

  ghost function Run(f: Flow, steps: seq<Step>): Flow
    requires Legal(f, steps)
    decreases |steps|
  {
    if steps == [] then f else Run(Apply(f, steps[0]), steps[1..])
  }

  function Empty(): Flow
  {
    Flow(Adapter(None, map[], map[], map[], {}, false, None), map[], Levels(map[], map[], map[]))
  }

  lemma {:induction false} InvOverRuns(f: Flow, steps: seq<Step>)
    requires Inv(f) && Legal(f, steps)
    ensures Inv(Run(f, steps))
    decreases |steps|
  {
    hide Inv, Apply, Enabled;
    if steps != [] {
      StepKeeps(f, steps[0]);
      InvOverRuns(Apply(f, steps[0]), steps[1..]);
    }
  }

  /** No write of the run raised after it had replaced the file. */
  predicate CleanWrites(steps: seq<Step>)
  {
    forall i :: 0 <= i < |steps| && steps[i].Queue? ==> !steps[i].w.RaisedAfterReplace?
  }

  lemma {:induction false} CleanIsExact(f: Flow, steps: seq<Step>)
    requires Legal(f, steps) && CleanWrites(steps) && f.l.promised == f.l.written
    ensures Run(f, steps).l.promised == Run(f, steps).l.written
    decreases |steps|
  {
    hide Enabled, Apply;
    if steps != [] {
      CleanQueue(f, steps[0]);
      CleanIsExact(Apply(f, steps[0]), steps[1..]);
    }
  }

  lemma CleanQueue(f: Flow, step: Step)
    requires Enabled(f, step) && f.l.promised == f.l.written && (step.Queue? ==> !step.w.RaisedAfterReplace?)
    ensures Apply(f, step).l.promised == Apply(f, step).l.written
  {
    hide Mutate, Connect, CompleteRead, Park, Supersedes, ValidRead, ValidCursor;
  }

  /** A queueing of `c` whose write raised although the file now holds the target: memory is rolled back. */
  predicate HalfWritten(step: Step, c: string)
  {
    step.Queue? && step.conversationId == c && step.w.RaisedAfterReplace?
    && ValidCursor(step.cursor) && ValidRead(c, step.target)
  }

  lemma QueueMeans(a: Adapter, cursor: Cursor, c: string, t: ReadTarget, w: Write)
    ensures QueueRead(a, cursor, c, t, w).1 <==> ValidRead(c, t) && ValidCursor(cursor) && w.Saved?
  {
    hide ValidCursor, ValidRead, Supersedes;
  }

  /** How one step moves the two ledgers of a conversation. */
  lemma LedgersMove(f: Flow, step: Step, c: string, level: nat)
    requires Enabled(f, step) && Get(Apply(f, step).l.promised, c) <= level
    ensures Get(f.l.promised, c) <= Get(Apply(f, step).l.promised, c)
    ensures Get(Apply(f, step).l.written, c) > level <==>
            Get(f.l.written, c) > level || (HalfWritten(step, c) && LevelOf(step.target) > level)
  {
    hide Mutate, Connect, CompleteRead, Park, QueueRead, ValidRead, ValidCursor;
    if step.Queue? { QueueMeans(f.a, step.cursor, step.conversationId, step.target, step.w); }
  }

  lemma {:induction false} LedgersRun(f: Flow, steps: seq<Step>, c: string, level: nat)
    requires Legal(f, steps) && Get(Run(f, steps).l.promised, c) <= level
    ensures Get(f.l.promised, c) <= Get(Run(f, steps).l.promised, c)
    ensures Get(Run(f, steps).l.written, c) > level <==>
            Get(f.l.written, c) > level
            || exists k :: 0 <= k < |steps| && HalfWritten(steps[k], c) && LevelOf(steps[k].target) > level
    decreases |steps|
  {
    hide Enabled, Apply, HalfWritten, LevelOf;
    if steps != [] {
      var g, rest := Apply(f, steps[0]), steps[1..];
      LedgersRun(g, rest, c, level);
      LedgersMove(f, steps[0], c, level);
      assert forall k :: 0 <= k < |rest| ==> rest[k] == steps[k + 1];
      assert forall k :: 1 <= k < |steps| ==> steps[k] == rest[k - 1];
    }
  }

  /**
    What was written exceeds what was promised if and only if some half-written queueing of the run went
    higher than every queueing of the conversation that returned.
   */
  lemma WrittenExceedsIff(steps: seq<Step>, c: string)
    requires Legal(Empty(), steps)
    ensures
      var promised := Get(Run(Empty(), steps).l.promised, c);
      Get(Run(Empty(), steps).l.written, c) > promised <==>
        exists k :: 0 <= k < |steps| && HalfWritten(steps[k], c) && LevelOf(steps[k].target) > promised
  {
    hide Legal, Run, HalfWritten, LevelOf;
    LedgersRun(Empty(), steps, c, Get(Run(Empty(), steps).l.promised, c));
  }

  /** A concrete one: the first target of a conversation is queued, and its write raises behind the replacement. */
  lemma HalfWrittenTarget()
    ensures
      var first := Queue(Cursor(EPOCH, "1"), EPOCH, ReadTarget(EPOCH, "1"), RaisedAfterReplace);
      var steps := [Reconnected(Cursor(EPOCH, "0"), Saved), first];
      Legal(Empty(), steps) && HalfWritten(first, EPOCH)
      && Get(Run(Empty(), steps).l.written, EPOCH) > 0 == Get(Run(Empty(), steps).l.promised, EPOCH)
  {
    hide IsEntityId, IsSequence, Connect, QueueRead, LevelOf;
    SmallSequences();
    EpochIsValid();
    var first := Queue(Cursor(EPOCH, "1"), EPOCH, ReadTarget(EPOCH, "1"), RaisedAfterReplace);
    var f := Apply(Empty(), Reconnected(Cursor(EPOCH, "0"), Saved));
    QueueMeans(f.a, first.cursor, EPOCH, first.target, first.w);
    LevelIsPositive(first.target);
    var g := Apply(f, first);
    assert Legal(g, []) && [first][1..] == [];
    assert Legal(f, [first]) && Run(f, [first]) == Run(g, []) == g;
    assert [Reconnected(Cursor(EPOCH, "0"), Saved), first][1..] == [first];
    assert Legal(Empty(), [Reconnected(Cursor(EPOCH, "0"), Saved), first]);
    assert Run(Empty(), [Reconnected(Cursor(EPOCH, "0"), Saved), first]) == Run(f, [first]);
  }

  lemma LevelIsPositive(t: ReadTarget)
    ensures LevelOf(t) > 0
  {
  }

  /**
    No read target is lost, for every interleaving of queueing, in-flight advances, parking, failures
    and restarts: what was queued is at most what the server took or what is pending, in memory and
    in the file; with writes that are old or new but never half-reported, it is exactly that.
   */
  lemma {:induction false} NoTargetLost(steps: seq<Step>, c: string)
    requires Legal(Empty(), steps)
    ensures
      var f := Run(Empty(), steps);
      && Get(f.l.promised, c) <= Reached(f.l, f.a.targets, c) <= Get(f.l.written, c)
      && (f.a.disk.Some? ==>
            Get(f.l.promised, c) <= Reached(f.l, f.a.disk.value.targets, c) <= Get(f.l.written, c))
      && (CleanWrites(steps) ==> Get(f.l.promised, c) == Reached(f.l, f.a.targets, c))
      && (forall d :: d in f.a.parked ==> d in f.a.targets && f.a.targets[d] == f.a.parked[d])
  {
    hide Legal, Run, CleanWrites;
    EmptyInv();
    InvOverRuns(Empty(), steps);
    InvMeans(Run(Empty(), steps), c);
    if CleanWrites(steps) { CleanIsExact(Empty(), steps); }
  }

  lemma EmptyInv()
    ensures Inv(Empty())
  {
    EmptyIsValid();
    hide ValidReads, ValidWakes;
    forall c: string ensures Between(Empty().l, map[], c) {}
  }

  lemma InvMeans(f: Flow, c: string)
    requires Inv(f)
    ensures Between(f.l, f.a.targets, c) && (f.a.disk.Some? ==> Between(f.l, f.a.disk.value.targets, c))
    ensures forall d :: d in f.a.parked ==> d in f.a.targets && f.a.targets[d] == f.a.parked[d]
  {
    hide ValidReads, ValidWakes, ValidCursor, WellFormed, Between;
  }
}
