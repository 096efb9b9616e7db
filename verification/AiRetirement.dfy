/**
  Retirements of AiChannelController (apps/desktop/src/main/ai-channel-controller.ts:427-476, 1154-1259): a later start
  waits for every host that is being retired, and no retirement is forgotten or waited for in vain.
 */
module AiRetirement {
  import opened Wrappers
  import opened AiChannel

  /** The operation disposes a host that a later start has to wait for. */
  predicate Tracked(op: Op)
  {
    op.Retiring? || op.Cancelling? || op.Failing?
  }

  /** The operations in flight, in the order in which they began. */
  function InFlight(c: Controller): seq<Op>
  {
    c.stale + if c.active.Some? then [c.active.value] else []
  }

  /** No host is held twice. */
  predicate Apart(ops: seq<Op>)
  {
    forall i, j :: 0 <= i < j < |ops| && Holds(ops[i]).Some? ==> Holds(ops[i]) != Holds(ops[j])
  }

  /** The pending retirement is that of the one tracked operation, if there is one. */
  predicate Pending(ops: seq<Op>, retirement: Option<nat>)
  {
    && (forall i :: 0 <= i < |ops| && Tracked(ops[i]) ==> retirement == Holds(ops[i]))
    && (retirement.Some? ==> exists i :: 0 <= i < |ops| && Tracked(ops[i]))
  }

  predicate HeldOnce(c: Controller)
  {
    Apart(InFlight(c)) && Pending(InFlight(c), c.retirement)
  }

  // ---------------------------------------------------------------------------------------------
  // Lists of operations
  // ---------------------------------------------------------------------------------------------

  lemma SupersededIsInFlight(c: Controller)
    ensures InFlight(Superseded(c)) == InFlight(c) && Superseded(c).active.None?
  {
  }

  /** A new operation that holds nothing, or the host that nobody else holds. */
  lemma Appended(ops: seq<Op>, op: Op, before: Option<nat>, after: Option<nat>)
    requires Apart(ops) && Pending(ops, before)
    requires Holds(op).Some? ==> forall i :: 0 <= i < |ops| ==> Holds(ops[i]) != Holds(op)
    requires if Tracked(op) then before.None? && after == Holds(op) else after == before
    ensures Apart(ops + [op]) && Pending(ops + [op], after)
  {
    var a := ops + [op];
    if after.Some? && !Tracked(op) {
      var i :| 0 <= i < |ops| && Tracked(ops[i]);
      assert Tracked(a[i]);
    } else if after.Some? {
      assert Tracked(a[|ops|]);
    }
  }

  /** The operation at `k` goes on as `next`, or ends. */
  function Continuing(ops: seq<Op>, k: nat, next: Option<Op>): seq<Op>
    requires k < |ops|
  {
    if next.Some? then ops[k := next.value] else ops[..k] + ops[k + 1..]
  }

  predicate Handover(ops: seq<Op>, k: nat, next: Option<Op>, before: Option<nat>, after: Option<nat>)
    requires k < |ops|
  {
    && (next.Some? && Holds(next.value).Some? ==>
          forall i :: 0 <= i < |ops| && i != k ==> Holds(ops[i]) != Holds(next.value))
    && (if Tracked(ops[k]) then !(next.Some? && Tracked(next.value)) && after.None?
        else if next.Some? && Tracked(next.value) then before.None? && after == Holds(next.value)
        else after == before)
  }

  lemma ContinuingHeldOnce(ops: seq<Op>, k: nat, next: Option<Op>, before: Option<nat>, after: Option<nat>)
    requires k < |ops| && Apart(ops) && Pending(ops, before) && Handover(ops, k, next, before, after)
    ensures Apart(Continuing(ops, k, next)) && Pending(Continuing(ops, k, next), after)
  {
    var a := Continuing(ops, k, next);
    if next.None? { assert forall i :: 0 <= i < |a| ==> a[i] == ops[if i < k then i else i + 1]; }
    OneTracked(ops, before);
    if after.Some? && !(next.Some? && Tracked(next.value)) {
      var i :| 0 <= i < |ops| && Tracked(ops[i]);
      assert Tracked(a[if next.Some? || i < k then i else i - 1]);
    } else if after.Some? {
      assert Tracked(a[k]);
    }
  }

  /** There is at most one tracked operation, as all of them hold the pending retirement. */
  lemma OneTracked(ops: seq<Op>, retirement: Option<nat>)
    requires Apart(ops) && Pending(ops, retirement)
    ensures forall i, j :: 0 <= i < j < |ops| ==> !(Tracked(ops[i]) && Tracked(ops[j]))
  {
  }

  // ---------------------------------------------------------------------------------------------
  // Steps
  // ---------------------------------------------------------------------------------------------

  function Index(c: Controller, which: Which): nat
  {
    match which
    case Active => |c.stale|
    case Stale(i) => i
  }

  lemma PlacedIs(c: Controller, which: Which, next: Option<Op>)
    requires OpAt(c, which).Some?
    ensures Index(c, which) < |InFlight(c)| && InFlight(c)[Index(c, which)] == OpAt(c, which).value
    ensures InFlight(Placed(c, which, next)) == Continuing(InFlight(c), Index(c, which), next)
    ensures Placed(c, which, next).retirement == c.retirement
  {
  }

  /** What an operation holds behind its await: the fresh host, the current one, or none. */
  lemma ContinuedHolds(c: Controller, op: Op, current: bool, ok: bool)
    requires c.host.Some? ==> c.retirement.None?
    requires Tracked(op) ==> c.retirement == Holds(op)
    requires !Tracked(op) && Holds(op).Some? ==> c.retirement != Holds(op)
    ensures
      var (e, next) := Continued(c, op, current, ok);
      && (next.Some? && Holds(next.value).Some? ==> Holds(next.value) == c.host || Holds(next.value) == Some(|c.fates|))
      && (if Tracked(op) then !(next.Some? && Tracked(next.value)) && e.retirement.None?
          else if next.Some? && Tracked(next.value) then c.retirement.None? && e.retirement == Holds(next.value)
          else e.retirement == c.retirement)
  {
    hide Settle;
  }

  lemma ContinuedHandover(c: Controller, which: Which, op: Op, ok: bool)
    requires Hosts(c) && InOrder(c) && HeldOnce(c) && OpAt(c, which) == Some(op) && CanContinue(c, op)
    ensures
      var (e, next) := Continued(c, op, which.Active? && !c.disposed, ok);
      && InFlight(e) == InFlight(c)
      && Index(c, which) < |InFlight(c)|
      && Handover(InFlight(c), Index(c, which), next, c.retirement, e.retirement)
  {
    PlacedIs(c, which, None);
    HeldIsKnown(c);
    ContinuedShape(c, op, which.Active? && !c.disposed, ok);
    StrayIsNotRetired(c, Index(c, which));
    HostIsUnretired(c, Index(c, which));
    ContinuedHolds(c, op, which.Active? && !c.disposed, ok);
    hide Hosts, InOrder, HeldOnce, Continued, Placed;
  }

  lemma HostIsUnretired(c: Controller, k: nat)
    requires InOrder(c) && HeldOnce(c) && k < |InFlight(c)|
    ensures c.host.Some? ==> c.retirement.None?
    ensures Tracked(InFlight(c)[k]) ==> c.retirement == Holds(InFlight(c)[k])
  {
  }

  lemma HeldIsKnown(c: Controller)
    requires Hosts(c)
    ensures forall i :: 0 <= i < |InFlight(c)| && Holds(InFlight(c)[i]).Some? ==>
              Holds(InFlight(c)[i]).value < |c.fates| && Holds(InFlight(c)[i]) != c.host
  {
  }

  lemma StrayIsNotRetired(c: Controller, k: nat)
    requires HeldOnce(c) && k < |InFlight(c)|
    ensures !Tracked(InFlight(c)[k]) && Holds(InFlight(c)[k]).Some? ==> c.retirement != Holds(InFlight(c)[k])
  {
    var ops := InFlight(c);
    if c.retirement.Some? {
      var i :| 0 <= i < |ops| && Tracked(ops[i]);
      assert c.retirement == Holds(ops[i]);
      if i < k { assert Holds(ops[i]) != Holds(ops[k]); }
    }
  }

  lemma ContinueHeldOnce(c: Controller, which: Which, ok: bool)
    requires Hosts(c) && InOrder(c) && HeldOnce(c) && Enabled(c, Continue(which, ok))
    ensures HeldOnce(Apply(c, Continue(which, ok)))
  {
    var op := OpAt(c, which).value;
    var (e, next) := Continued(c, op, which.Active? && !c.disposed, ok);
    ContinuedHandover(c, which, op, ok);
    ContinuedShape(c, op, which.Active? && !c.disposed, ok);
    ContinuingHeldOnce(InFlight(c), Index(c, which), next, c.retirement, e.retirement);
    PlacedIs(e, which, next);
    hide Hosts, InOrder, Continued, Placed, Apart, Pending;
  }

  /** A step that supersedes what is in flight and begins `op`. */
  lemma BegunHeldOnce(c: Controller, d: Controller, op: Option<Op>)
    requires HeldOnce(c) && InFlight(d) == InFlight(c) + (if op.Some? then [op.value] else [])
    requires op.Some? && Holds(op.value).Some? ==>
               forall i :: 0 <= i < |InFlight(c)| ==> Holds(InFlight(c)[i]) != Holds(op.value)
    requires if op.Some? && Tracked(op.value) then c.retirement.None? && d.retirement == Holds(op.value)
             else d.retirement == c.retirement
    ensures HeldOnce(d)
  {
    if op.Some? {
      Appended(InFlight(c), op.value, c.retirement, d.retirement);
    } else {
      assert InFlight(c) + [] == InFlight(c);
    }
  }

  lemma StepHeldOnce(c: Controller, step: Step)
    requires Hosts(c) && InOrder(c) && HeldOnce(c) && Enabled(c, step)
    ensures HeldOnce(Apply(c, step))
  {
    HeldIsKnown(c);
    match step
    case Continue(which, ok) => ContinueHeldOnce(c, which, ok);
    case Start => if Apply(c, step) != c { BegunHeldOnce(c, Apply(c, step), Some(WaitingToCreate)); }
    case Withdraw(kind) => WithdrawHeldOnce(c, kind);
    case NewSession => BegunHeldOnce(c, Apply(c, step), Some(Renewing(c.token.value)));
    case CancelPrompt => BegunHeldOnce(c, Apply(c, step), Some(Cancelling(c.host.value)));
    case FinishPrompt(prompt, succeeded) => FinishHeldOnce(c, prompt, succeeded);
    case _ => SameHeldOnce(c, Apply(c, step));
  }

  lemma SameHeldOnce(c: Controller, d: Controller)
    requires HeldOnce(c) && d.active == c.active && d.stale == c.stale && d.retirement == c.retirement
    ensures HeldOnce(d)
  {
  }

  lemma WithdrawHeldOnce(c: Controller, kind: Kind)
    requires Hosts(c) && InOrder(c) && HeldOnce(c) && Enabled(c, Withdraw(kind))
    ensures HeldOnce(Apply(c, Withdraw(kind)))
  {
    HeldIsKnown(c);
    WithdrawBegins(c, kind);
    var d := Apply(c, Withdraw(kind));
    hide Hosts, HeldOnce, InOrder, Apply;
    BegunHeldOnce(c, d, d.active);
  }

  lemma WithdrawBegins(c: Controller, kind: Kind)
    requires InOrder(c) && Enabled(c, Withdraw(kind))
    ensures
      var d := Apply(c, Withdraw(kind));
      && InFlight(d) == InFlight(c) + (if d.active.Some? then [d.active.value] else [])
      && (d.active.Some? && Holds(d.active.value).Some? ==> Holds(d.active.value) == c.host)
      && (if d.active.Some? && Tracked(d.active.value) then c.retirement.None? && d.retirement == Holds(d.active.value)
          else d.retirement == c.retirement)
  {
    SupersededIsInFlight(c);
    hide Settle;
  }

  lemma FinishHeldOnce(c: Controller, prompt: Prompt, succeeded: bool)
    requires Hosts(c) && InOrder(c) && HeldOnce(c) && Enabled(c, FinishPrompt(prompt, succeeded))
    ensures HeldOnce(Apply(c, FinishPrompt(prompt, succeeded)))
  {
    HeldIsKnown(c);
    hide HeldOnce, NoneLost, StaleOk;
    if succeeded {
      SameHeldOnce(c, Apply(c, FinishPrompt(prompt, succeeded)));
    } else {
      BegunHeldOnce(c, Apply(c, FinishPrompt(prompt, succeeded)), Apply(c, FinishPrompt(prompt, succeeded)).active);
    }
  }

  // ---------------------------------------------------------------------------------------------
  // Runs
  // ---------------------------------------------------------------------------------------------

  lemma {:induction false} HeldOnceOverRuns(c: Controller, steps: seq<Step>)
    requires Hosts(c) && Permissions(c) && InOrder(c) && StartingOk(c) && HeldOnce(c) && Legal(c, steps)
    ensures HeldOnce(Run(c, steps))
    decreases |steps|
  {
    hide Hosts, Permissions, InOrder, StartingOk, HeldOnce, Apply, Enabled;
    if steps != [] {
      HostsStep(c, steps[0]);
      PermissionsStep(c, steps[0]);
      OrderStep(c, steps[0]);
      StepHeldOnce(c, steps[0]);
      HeldOnceOverRuns(Apply(c, steps[0]), steps[1..]);
    }
  }

  /**
    Over every interleaving: no host is held by two operations; a start goes on to create a host only when no earlier
    one is being retired; and with no operation in flight there is nothing to wait for.
   */
  lemma {:induction false} StartsWaitForRetirements(steps: seq<Step>, ok: bool)
    requires Legal(Initialized(), steps)
    ensures
      var c := Run(Initialized(), steps);
      && Apart(InFlight(c))
      && (c.active == Some(WaitingToCreate) && Enabled(c, Continue(Active, ok)) ==>
            forall i :: 0 <= i < |InFlight(c)| ==> !Tracked(InFlight(c)[i]))
      && (InFlight(c) == [] ==> c.retirement.None?)
  {
    hide *;
    HeldOnceFromStart(steps);
    HeldOnceMeans(Run(Initialized(), steps));
    CreatesOnlyUnretired(Run(Initialized(), steps), ok);
  }

  lemma HeldOnceFromStart(steps: seq<Step>)
    requires Legal(Initialized(), steps)
    ensures HeldOnce(Run(Initialized(), steps))
  {
    hide Run, Legal;
    HeldOnceOverRuns(Initialized(), steps);
  }

  lemma CreatesOnlyUnretired(c: Controller, ok: bool)
    ensures c.active == Some(WaitingToCreate) && Enabled(c, Continue(Active, ok)) ==> c.retirement.None?
  {
  }

  lemma HeldOnceMeans(c: Controller)
    requires HeldOnce(c)
    ensures Apart(InFlight(c))
    ensures c.retirement.None? ==> forall i :: 0 <= i < |InFlight(c)| ==> !Tracked(InFlight(c)[i])
    ensures InFlight(c) == [] ==> c.retirement.None?
  {
    assert forall op :: Tracked(op) ==> Holds(op).Some?;
  }

  /** Every token comes after those before it, so that of a host that was superseded is never current again. */
  lemma TokensAreNew(c: Controller, step: Step)
    requires Enabled(c, step)
    ensures
      var d := Apply(c, step);
      c.nextToken <= d.nextToken
      && (d.token.Some? && d.token != c.token ==> d.token == Some(c.nextToken) && d.nextToken == c.nextToken + 1)
  {
    hide Settle, Placed;
    if step.Continue? { ContinuedTokens(c, step.which, step.ok); }
  }

  lemma ContinuedTokens(c: Controller, which: Which, ok: bool)
    requires Enabled(c, Continue(which, ok))
    ensures
      var d := Apply(c, Continue(which, ok));
      c.nextToken <= d.nextToken
      && (d.token.Some? && d.token != c.token ==> d.token == Some(c.nextToken) && d.nextToken == c.nextToken + 1)
  {
    var op := OpAt(c, which).value;
    ContinuedToken(c, op, which.Active? && !c.disposed, ok);
    hide Continued;
  }

  lemma ContinuedToken(c: Controller, op: Op, current: bool, ok: bool)
    ensures
      var e := Continued(c, op, current, ok).0;
      c.nextToken <= e.nextToken
      && (e.token.Some? && e.token != c.token ==> e.token == Some(c.nextToken) && e.nextToken == c.nextToken + 1)
  {
    hide Settle, HostDisposed;
    DisposalLeavesTokens(c);
  }

  lemma DisposalLeavesTokens(c: Controller)
    ensures forall h :: HostDisposed(c, h).token == c.token && HostDisposed(c, h).nextToken == c.nextToken
  {
  }

  predicate OldTokens(c: Controller)
  {
    c.token.Some? ==> c.token.value < c.nextToken
  }

  lemma {:induction false} TokenNeverReturns(c: Controller, steps: seq<Step>, token: nat)
    requires OldTokens(c) && Legal(c, steps) && token < c.nextToken && c.token != Some(token)
    ensures Run(c, steps).token != Some(token)
    decreases |steps|
  {
    hide Apply, Enabled;
    if steps != [] {
      TokensAreNew(c, steps[0]);
      TokenNeverReturns(Apply(c, steps[0]), steps[1..], token);
    }
  }
}
