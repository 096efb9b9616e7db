/**
  Hosts and permissions of AiChannelController (apps/desktop/src/main/ai-channel-controller.ts:427-739,
  1012-1251). Lifecycle operations overlap: each begins by superseding the others, and goes on behind its
  awaits as a superseded one. Hosts are numbered in the order in which the factory returns them.
 */
module AiChannel {
  import opened Wrappers

  datatype Kind = Choosing | Suspending | Disposing

  /** Where a lifecycle operation is suspended; `Concluding` has no host left to wait for. */
  datatype Op =
    | WaitingToCreate
    | Creating(token: nat)
    | Opening(token: nat)
    | Stray(host: nat)
    | Withdrawing(kind: Kind)
    | Retiring(kind: Kind, host: nat)
    | Concluding
    | Renewing(token: nat)
    | Cancelling(host: nat)
    | Failing(host: nat)

  datatype Fate = Live | Disposed | Exited

  datatype Status = NotReady | Starting | Ready | Running

  datatype Prompt = Prompt(generation: nat, token: nat)

  datatype Outcome = Cancelled | Selected(option: string)

  /** A request shown to the user: public option ids stand for the raw ones. */
  datatype Permission = Permission(id: nat, generation: nat, options: map<nat, string>)

  datatype Answer = Answer(id: nat, outcome: Outcome)

  /**
    `active` is the operation that no other has superseded. `fates`, `offered` and `answers` are
    history: what became of each host, the options of each request, and the resolutions of their
    promises.
   */
  datatype Controller = Controller(
    host: Option<nat>,
    token: Option<nat>,
    nextToken: nat,
    accepted: bool,
    prompt: Option<Prompt>,
    status: Status,
    generation: nat,
    retirement: Option<nat>,
    disposed: bool,
    active: Option<Op>,
    stale: seq<Op>,
    pending: Option<Permission>,
    fates: seq<Fate>,
    offered: seq<set<string>>,
    answers: seq<Answer>)

  /** Which operation continues. */
  datatype Which = Active | Stale(i: nat)

  datatype Step =
    | Start
    | Withdraw(kind: Kind)
    | NewSession
    | SendPrompt
    | CancelPrompt
    | FinishPrompt(prompt: Prompt, succeeded: bool)
    | HostExit(token: nat)
    | RequestPermission(token: nat, valid: bool, options: map<nat, string>)
    | RespondPermission(id: nat, generation: nat, option: nat)
    | AbortPermission(id: nat)
    | Continue(which: Which, ok: bool)

  // ---------------------------------------------------------------------------------------------
  // Pieces
  // ---------------------------------------------------------------------------------------------

  /** `#settlePermission`. */
  function Settle(c: Controller, outcome: Outcome): (d: Controller)
    ensures d == c.(pending := None, answers := d.answers) && c.answers <= d.answers
  {
    if c.pending.None? then c
    else c.(pending := None, answers := c.answers + [Answer(c.pending.value.id, outcome)])
  }

  /** `#beginLifecycleOperation`. */
  function Superseded(c: Controller): Controller
  {
    c.(active := None, stale := if c.active.Some? then c.stale + [c.active.value] else c.stale)
  }

  /** The host leaves the controller's hands; whoever holds it has to dispose it. */
  function Detached(c: Controller): (d: Controller)
    ensures d == Settle(c, Cancelled).(host := None, token := None, accepted := false, prompt := None)
  {
    Settle(c, Cancelled).(host := None, token := None, accepted := false, prompt := None)
  }

  function IsTokenCurrent(c: Controller, token: nat): bool
  {
    !c.disposed && c.token == Some(token)
  }

  function Holds(op: Op): Option<nat>
  {
    match op
    case Stray(h) => Some(h)
    case Retiring(_, h) => Some(h)
    case Cancelling(h) => Some(h)
    case Failing(h) => Some(h)
    case _ => None
  }

  function HostDisposed(c: Controller, h: nat): Controller
  {
    c.(fates := if h < |c.fates| then c.fates[h := Disposed] else c.fates,
       retirement := if c.retirement == Some(h) then None else c.retirement)
  }

  /** `#failCurrentHost` up to its await. */
  function Fail(c: Controller): (Controller, Option<Op>)
  {
    if c.host.None? then (Detached(c).(status := NotReady, generation := c.generation + 1), None)
    else (Detached(c).(retirement := c.host), Some(Failing(c.host.value)))
  }

  /** `#retireHost` once no earlier retirement is pending. */
  function Retire(c: Controller, kind: Kind): (Controller, Option<Op>)
  {
    if c.host.None? then (Detached(c), if kind.Disposing? then None else Some(Concluding))
    else (Detached(c).(retirement := c.host), Some(Retiring(kind, c.host.value)))
  }

  // ---------------------------------------------------------------------------------------------
  // Continuing an operation
  // ---------------------------------------------------------------------------------------------

  /** The operation waits for the retirement of an earlier host. */
  predicate Waits(op: Op)
  {
    op.WaitingToCreate? || op.Withdrawing?
  }

  predicate CanContinue(c: Controller, op: Op)
  {
    Waits(op) ==> c.retirement.None?
  }

  /** The awaiters of one retirement resume in the order in which they began to wait. */
  predicate IsNext(c: Controller, which: Which)
  {
    forall i :: 0 <= i < |c.stale| && (which.Stale? ==> i < which.i) ==> !Waits(c.stale[i])
  }

  /** The operation after its await; `current` says that nothing has superseded it. */
  function Continued(c: Controller, op: Op, current: bool, ok: bool): (Controller, Option<Op>)
  {
    match op
    case WaitingToCreate =>
      if !current then (c, None)
      else (c.(token := Some(c.nextToken), nextToken := c.nextToken + 1, accepted := false), Some(Creating(c.nextToken)))
    case Creating(token) =>
      var mine := current && IsTokenCurrent(c, token);
      if ok then
        var h := |c.fates|;
        var d := c.(fates := c.fates + [Live]);
        if mine then (d.(host := Some(h)), Some(Opening(token))) else (d, Some(Stray(h)))
      else if mine then (c.(token := None, status := NotReady), None)
      else (c, None)
    case Opening(token) => Opened(c, token, current, ok)
    case Renewing(token) => Opened(c, token, current, ok)
    case Stray(h) => (HostDisposed(c, h), None)
    case Withdrawing(kind) => Retire(c, kind)
    case Retiring(kind, h) =>
      var d := HostDisposed(c, h);
      if !current then (d, None)
      else if kind.Choosing? then (d, Some(Concluding))
      else (d.(status := NotReady, generation := c.generation + 1), None)
    case Concluding => if current then (c.(status := NotReady, generation := c.generation + 1), None) else (c, None)
    case Cancelling(h) => (if current then HostDisposed(c, h).(status := NotReady) else HostDisposed(c, h), None)
    case Failing(h) =>
      (if current then HostDisposed(c, h).(status := NotReady, generation := c.generation + 1) else HostDisposed(c, h), None)
  }

  /** The end of `start` and of `newSession`, once the conversation is open or has failed to open. */
  function Opened(c: Controller, token: nat, current: bool, ok: bool): (Controller, Option<Op>)
  {
    if !current || !IsTokenCurrent(c, token) then (c, None)
    else if ok then (c.(accepted := true, status := Ready), None)
    else Fail(c)
  }

  function OpAt(c: Controller, which: Which): Option<Op>
  {
    match which
    case Active => c.active
    case Stale(i) => if i < |c.stale| then Some(c.stale[i]) else None
  }

  function Placed(c: Controller, which: Which, op: Option<Op>): Controller
    requires OpAt(c, which).Some?
  {
    match which
    case Active => c.(active := op)
    case Stale(i) => c.(stale := if op.Some? then c.stale[i := op.value] else c.stale[..i] + c.stale[i + 1..])
  }

  // ---------------------------------------------------------------------------------------------
  // Steps
  // ---------------------------------------------------------------------------------------------

  predicate Enabled(c: Controller, step: Step)
  {
    match step
    case Start => !c.disposed && c.status != Running && c.status != Starting
    case Withdraw(_) => !c.disposed
    case NewSession => !c.disposed && c.status == Ready && c.host.Some? && c.token.Some? && c.accepted
    case SendPrompt => !c.disposed && c.status == Ready && c.host.Some? && c.token.Some? && c.accepted && c.prompt.None?
    case CancelPrompt => !c.disposed && c.status == Running && c.prompt.Some? && c.host.Some?
    case FinishPrompt(prompt, _) =>
      c.prompt == Some(prompt) && IsTokenCurrent(c, prompt.token) && c.generation == prompt.generation
    case HostExit(token) => IsTokenCurrent(c, token)
    case RespondPermission(id, generation, option) =>
      !c.disposed && c.pending.Some? && c.pending.value.id == id && c.pending.value.generation == generation
      && generation == c.generation && option in c.pending.value.options
    case AbortPermission(id) => c.pending.Some? && c.pending.value.id == id
    case Continue(which, _) =>
      OpAt(c, which).Some? && CanContinue(c, OpAt(c, which).value)
      && (Waits(OpAt(c, which).value) ==> IsNext(c, which))
    case RequestPermission(_, _, _) => true
  }

  /** `#handlePermissionRequest`: a new request cancels the pending one. */
  function Requested(c: Controller, token: nat, valid: bool, options: map<nat, string>): Controller
  {
    if !IsTokenCurrent(c, token) || c.status != Running || c.prompt.None?
       || c.prompt.value.generation != c.generation then c
    else
      var d := Settle(c, Cancelled);
      if !valid || options == map[] then d
      else d.(pending := Some(Permission(|c.offered|, c.generation, options)), offered := c.offered + [options.Values])
  }

  function Apply(c: Controller, step: Step): Controller
    requires Enabled(c, step)
  {
    match step
    case Start =>
      if c.status == Ready && c.host.Some? && c.accepted then c
      else Superseded(c).(active := Some(WaitingToCreate), status := Starting)
    case Withdraw(kind) =>
      var d := Superseded(c).(disposed := kind.Disposing?);
      if c.retirement.Some? then d.(active := Some(Withdrawing(kind)))
      else
        var (e, op) := Retire(d, kind);
        e.(active := op)
    case NewSession =>
      Superseded(Settle(c, Cancelled)).(
        active := Some(Renewing(c.token.value)),
        prompt := None, accepted := false, status := Starting, generation := c.generation + 1)
    case SendPrompt => c.(prompt := Some(Prompt(c.generation, c.token.value)), status := Running)
    case CancelPrompt =>
      Superseded(Detached(c)).(
        active := Some(Cancelling(c.host.value)), retirement := c.host, generation := c.generation + 1)
    case FinishPrompt(prompt, succeeded) =>
      if succeeded then Settle(c, Cancelled).(prompt := None, status := Ready)
      else
        var (e, op) := Fail(Superseded(c));
        e.(active := op)
    case HostExit(token) =>
      Detached(c).(status := NotReady, generation := c.generation + 1,
                   fates := if c.host.Some? && c.host.value < |c.fates| then c.fates[c.host.value := Exited] else c.fates)
    case RequestPermission(token, valid, options) => Requested(c, token, valid, options)
    case RespondPermission(_, _, option) => Settle(c, Selected(c.pending.value.options[option]))
    case AbortPermission(_) => Settle(c, Cancelled)
    case Continue(which, ok) =>
      var (e, op) := Continued(c, OpAt(c, which).value, which.Active? && !c.disposed, ok);
      Placed(e, which, op)
  }

  // ---------------------------------------------------------------------------------------------
  // Invariants
  // ---------------------------------------------------------------------------------------------

  predicate HeldBy(ops: seq<Op>, h: nat)
  {
    exists i :: 0 <= i < |ops| && Holds(ops[i]) == Some(h)
  }

  predicate HeldByActive(c: Controller, h: nat)
  {
    c.active.Some? && Holds(c.active.value) == Some(h)
  }

  predicate InHands(c: Controller, h: nat)
  {
    c.host == Some(h) || HeldByActive(c, h) || HeldBy(c.stale, h)
  }

  /** What an operation holds was returned by the factory and is not the current host. */
  predicate OpOk(c: Controller, op: Op)
  {
    Holds(op).Some? ==> Holds(op).value < |c.fates| && c.host != Holds(op)
  }

  /** A current host is live, and the controller is starting, or ready or running with its session. */
  predicate HostOk(c: Controller)
  {
    && (c.host.Some? ==>
          c.host.value < |c.fates| && c.fates[c.host.value].Live?
          && (c.status == Starting || (c.accepted && (c.status == Running || c.status == Ready))))
    && (c.prompt.Some? ==> c.host.Some? && c.status == Running)
    && (c.token.Some? ==> c.status == Starting || c.host.Some?)
  }

  /** What the operation with the last word can count on. */
  predicate Expects(c: Controller, op: Op)
  {
    match op
    case WaitingToCreate => c.host.None? && c.token.None? && c.status == Starting
    case Creating(_) => c.host.None?
    case Opening(token) => if c.host.Some? then c.status == Starting else c.token.None?
    case Renewing(token) => if c.host.Some? then c.status == Starting else c.token.None?
    case Stray(_) => true
    case Withdrawing(_) => true
    case _ => c.host.None? && c.token.None?
  }

  predicate ActiveOk(c: Controller)
  {
    c.active.Some? ==> OpOk(c, c.active.value) && (!c.disposed ==> Expects(c, c.active.value))
  }

  predicate StaleOk(c: Controller)
  {
    forall i :: 0 <= i < |c.stale| ==> OpOk(c, c.stale[i])
  }

  /** No live host is out of hands. */
  predicate NoneLost(c: Controller)
  {
    forall h :: 0 <= h < |c.fates| && c.fates[h].Live? ==> InHands(c, h)
  }

  predicate Hosts(c: Controller)
  {
    HostOk(c) && ActiveOk(c) && StaleOk(c) && NoneLost(c)
  }

  predicate Answered(c: Controller, id: nat)
  {
    exists i :: 0 <= i < |c.answers| && c.answers[i].id == id
  }

  predicate AnswerOk(c: Controller, a: Answer)
  {
    a.id < |c.offered| && (a.outcome.Selected? ==> a.outcome.option in c.offered[a.id])
  }

  predicate Permissions(c: Controller)
  {
    && (forall id :: 0 <= id < |c.offered| ==> Answered(c, id) || (c.pending.Some? && c.pending.value.id == id))
    && (c.pending.Some? ==> c.pending.value.id < |c.offered| && !Answered(c, c.pending.value.id)
                            && c.pending.value.options.Values == c.offered[c.pending.value.id])
    && (forall i :: 0 <= i < |c.answers| ==> AnswerOk(c, c.answers[i]))
    && (forall i, j :: 0 <= i < j < |c.answers| ==> c.answers[i].id != c.answers[j].id)
  }

  function Initialized(): Controller
  {
    Controller(None, None, 1, false, None, NotReady, 1, None, false, None, [], None, [], [], [])
  }

  // ---------------------------------------------------------------------------------------------
  // Hosts
  // ---------------------------------------------------------------------------------------------

  lemma HeldByAppended(ops: seq<Op>, op: Op, h: nat)
    ensures HeldBy(ops, h) || Holds(op) == Some(h) ==> HeldBy(ops + [op], h)
  {
    if HeldBy(ops, h) {
      var i :| 0 <= i < |ops| && Holds(ops[i]) == Some(h);
      assert (ops + [op])[i] == ops[i];
    } else if Holds(op) == Some(h) {
      assert (ops + [op])[|ops|] == op;
    }
  }

  lemma HeldByRest(ops: seq<Op>, k: nat, op: Op, h: nat)
    requires k < |ops| && HeldBy(ops, h) && Holds(ops[k]) != Some(h)
    ensures HeldBy(ops[..k] + ops[k + 1..], h) && HeldBy(ops[k := op], h)
  {
    var i :| 0 <= i < |ops| && Holds(ops[i]) == Some(h);
    var rest := ops[..k] + ops[k + 1..];
    assert rest[if i < k then i else i - 1] == ops[i];
    assert ops[k := op][i] == ops[i];
  }

  lemma SupersededKeeps(c: Controller)
    requires Hosts(c)
    ensures Hosts(Superseded(c))
  {
    hide HeldBy;
    var d := Superseded(c);
    if c.active.Some? {
      forall h | 0 <= h < |c.fates| && c.fates[h].Live? ensures InHands(d, h) {
        HeldByAppended(c.stale, c.active.value, h);
      }
    }
  }

  /** What becomes of the live hosts when an operation continues. */
  predicate Passes(c: Controller, e: Controller, op: Op, next: Option<Op>)
  {
    forall h :: 0 <= h < |e.fates| && e.fates[h].Live? ==>
      (h < |c.fates| && c.fates[h].Live? && Holds(op) != Some(h) && c.host != Some(h))
      || e.host == Some(h) || (next.Some? && Holds(next.value) == Some(h))
  }

  /** The operation that continues keeps, disposes or passes on what it held. */
  lemma PlacedKeeps(c: Controller, e: Controller, which: Which, op: Op, next: Option<Op>)
    requires Hosts(c) && OpAt(c, which) == Some(op) && e.active == c.active && e.stale == c.stale
    requires HostOk(e) && |c.fates| <= |e.fates| && (next.Some? ==> OpOk(e, next.value)) && Passes(c, e, op, next)
    requires e.host == c.host || e.host.None? || e.host == Some(|c.fates|)
    requires which.Active? && next.Some? && !e.disposed ==> Expects(e, next.value)
    requires which.Stale? && e.active.Some? && !e.disposed ==> Expects(e, e.active.value)
    requires e.disposed == c.disposed
    ensures Hosts(Placed(e, which, next))
  {
    hide HeldBy, Expects, HostOk;
    var d := Placed(e, which, next);
    PlacedIsElsewhere(e, which, next);
    PlacedStale(c, e, which, next);
    forall h | 0 <= h < |d.fates| && d.fates[h].Live? ensures InHands(d, h) {
      if next.Some? && Holds(next.value) == Some(h) && which.Stale? {
        NowHeld(c.stale, which.i, next.value, h);
      } else if e.host != Some(h) && HeldBy(c.stale, h) && which.Stale? {
        HeldByRest(c.stale, which.i, if next.Some? then next.value else op, h);
      }
    }
  }

  lemma PlacedIsElsewhere(e: Controller, which: Which, next: Option<Op>)
    requires OpAt(e, which).Some?
    ensures var d := Placed(e, which, next);
      && d == e.(active := d.active, stale := d.stale)
      && HostOk(d) == HostOk(e) && (forall op: Op :: Expects(d, op) == Expects(e, op))
  {
  }

  lemma PlacedStale(c: Controller, e: Controller, which: Which, next: Option<Op>)
    requires StaleOk(c) && OpAt(e, which).Some? && e.stale == c.stale && |c.fates| <= |e.fates|
    requires e.host == c.host || e.host.None? || e.host == Some(|c.fates|)
    requires next.Some? ==> OpOk(e, next.value)
    ensures StaleOk(Placed(e, which, next))
  {
    var d := Placed(e, which, next);
    forall i | 0 <= i < |d.stale| ensures OpOk(d, d.stale[i]) {
      if which.Stale? && next.None? {
        assert d.stale[i] == c.stale[if i < which.i then i else i + 1];
      } else if which.Stale? && i == which.i {
      } else {
        assert d.stale[i] == c.stale[i];
      }
    }
  }

  lemma NowHeld(ops: seq<Op>, k: nat, op: Op, h: nat)
    requires k < |ops| && Holds(op) == Some(h)
    ensures HeldBy(ops[k := op], h)
  {
    assert ops[k := op][k] == op;
  }

  lemma ContinuedFits(c: Controller, which: Which, op: Op, ok: bool)
    requires Hosts(c) && OpAt(c, which) == Some(op) && CanContinue(c, op)
    ensures
      var (e, next) := Continued(c, op, which.Active? && !c.disposed, ok);
      && e.active == c.active && e.stale == c.stale && e.disposed == c.disposed && |c.fates| <= |e.fates|
      && HostOk(e) && (next.Some? ==> OpOk(e, next.value)) && Passes(c, e, op, next)
      && (e.host == c.host || e.host.None? || e.host == Some(|c.fates|))
      && (which.Active? && next.Some? && !e.disposed ==> Expects(e, next.value))
      && (which.Stale? && e.active.Some? && !e.disposed ==> Expects(e, e.active.value))
  {
    hide NoneLost, StaleOk, HeldBy, Opened, Detached;
    assert OpOk(c, op) by { OpIsOk(c, which); }
    match op
    case Opening(token) => OpenedFits(c, which, op, ok);
    case Renewing(token) => OpenedFits(c, which, op, ok);
    case Withdrawing(kind) => RetiredFits(c, which, op);
    case WaitingToCreate => CreationFits(c, which, op, ok);
    case Creating(_) => CreationFits(c, which, op, ok);
    case _ =>
  }

  lemma CreationFits(c: Controller, which: Which, op: Op, ok: bool)
    requires Hosts(c) && OpAt(c, which) == Some(op) && (op.WaitingToCreate? || op.Creating?)
    ensures
      var (e, next) := Continued(c, op, which.Active? && !c.disposed, ok);
      && e.active == c.active && e.stale == c.stale && e.disposed == c.disposed && |c.fates| <= |e.fates|
      && HostOk(e) && (next.Some? ==> OpOk(e, next.value)) && Passes(c, e, op, next)
      && (e.host == c.host || e.host == Some(|c.fates|))
      && (which.Active? && next.Some? && !e.disposed ==> Expects(e, next.value))
      && (which.Stale? && e.active.Some? && !e.disposed ==> Expects(e, e.active.value))
  {
    hide NoneLost, StaleOk, HeldBy;
  }

  lemma OpIsOk(c: Controller, which: Which)
    requires Hosts(c) && OpAt(c, which).Some?
    ensures OpOk(c, OpAt(c, which).value)
  {
    hide NoneLost, HostOk;
  }

  lemma RetiredFits(c: Controller, which: Which, op: Op)
    requires Hosts(c) && OpAt(c, which) == Some(op) && op.Withdrawing?
    ensures
      var (e, next) := Retire(c, op.kind);
      && e.active == c.active && e.stale == c.stale && e.disposed == c.disposed && e.fates == c.fates
      && HostOk(e) && (next.Some? ==> OpOk(e, next.value) && Expects(e, next.value)) && Passes(c, e, op, next)
      && e.host.None?
      && (which.Stale? && e.active.Some? && !e.disposed ==> Expects(e, e.active.value))
  {
    hide NoneLost, StaleOk, HeldBy;
  }

  lemma OpenedFits(c: Controller, which: Which, op: Op, ok: bool)
    requires Hosts(c) && OpAt(c, which) == Some(op) && (op.Opening? || op.Renewing?)
    ensures
      var (e, next) := Opened(c, op.token, which.Active? && !c.disposed, ok);
      && e.active == c.active && e.stale == c.stale && e.disposed == c.disposed && e.fates == c.fates
      && HostOk(e) && (next.Some? ==> OpOk(e, next.value)) && Passes(c, e, op, next)
      && (e.host == c.host || e.host.None?)
      && (which.Active? && next.Some? && !e.disposed ==> Expects(e, next.value))
      && (which.Stale? ==> e == c)
  {
    hide NoneLost, StaleOk, HeldBy;
  }

  lemma ContinueKeeps(c: Controller, which: Which, ok: bool)
    requires Hosts(c) && Enabled(c, Continue(which, ok))
    ensures Hosts(Apply(c, Continue(which, ok)))
  {
    hide Hosts, HostOk, OpOk, Expects, Passes, Continued, Placed, CanContinue;
    var op := OpAt(c, which).value;
    var (e, next) := Continued(c, op, which.Active? && !c.disposed, ok);
    ContinuedFits(c, which, op, ok);
    PlacedKeeps(c, e, which, op, next);
  }

  /** A step that takes the host out of the controller's hands into those of the new active operation. */
  lemma TakenKeeps(c: Controller, d: Controller)
    requires Hosts(c) && d.host.None? && d.token.None? && d.prompt.None? && d.fates == c.fates && d.stale == Superseded(c).stale
    requires c.host.Some? ==> d.active.Some? && Holds(d.active.value) == c.host
    requires d.active.Some? ==>
               Expects(d, d.active.value)
               && (Holds(d.active.value).Some? ==> Holds(d.active.value).value < |d.fates|)
    ensures Hosts(d)
  {
    hide HeldBy, Expects;
    SupersededKeeps(c);
    forall h | 0 <= h < |d.fates| && d.fates[h].Live? ensures InHands(d, h) {
      assert InHands(Superseded(c), h);
    }
  }

  lemma HostsStep(c: Controller, step: Step)
    requires Hosts(c) && Enabled(c, step)
    ensures Hosts(Apply(c, step))
  {
    hide Hosts, Continued, Placed, CanContinue;
    match step
    case Start => StartKeeps(c);
    case Withdraw(kind) => WithdrawKeeps(c, kind);
    case NewSession => NewSessionKeeps(c);
    case CancelPrompt => CancelKeeps(c);
    case FinishPrompt(prompt, succeeded) => FinishKeeps(c, prompt, succeeded);
    case HostExit(token) => ExitKeeps(c, token);
    case Continue(which, ok) => ContinueKeeps(c, which, ok);
    case _ => UntouchedKeeps(c, step);
  }

  /** Nothing about hosts changes but that a new active operation may hold none. */
  lemma HandsOnly(c: Controller, d: Controller)
    requires Hosts(c) && d.host == c.host && d.fates == c.fates && d.stale == c.stale && HostOk(d)
    requires (d.active == c.active && d.disposed == c.disposed) || (c.active.None? && d.active.Some? && Holds(d.active.value).None?)
    requires d.active.Some? && !d.disposed ==> Expects(d, d.active.value)
    ensures Hosts(d)
  {
    hide Expects, HeldBy;
  }

  lemma UntouchedKeeps(c: Controller, step: Step)
    requires Hosts(c) && Enabled(c, step)
    requires step.SendPrompt? || step.RequestPermission? || step.RespondPermission? || step.AbortPermission?
    ensures Hosts(Apply(c, step))
  {
    hide HeldBy, NoneLost, StaleOk;
    HandsOnly(c, Apply(c, step));
  }

  /** A start that goes on finds no host. */
  lemma StartKeeps(c: Controller)
    requires Hosts(c) && Enabled(c, Start)
    ensures Hosts(Apply(c, Start))
    ensures Apply(c, Start) != c ==> c.host.None?
  {
    hide HeldBy, NoneLost, StaleOk;
    SupersededKeeps(c);
    if Apply(c, Start) != c { HandsOnly(Superseded(c), Apply(c, Start)); }
  }

  lemma WithdrawKeeps(c: Controller, kind: Kind)
    requires Hosts(c) && Enabled(c, Withdraw(kind))
    ensures Hosts(Apply(c, Withdraw(kind)))
  {
    hide HeldBy, NoneLost, StaleOk;
    SupersededKeeps(c);
    var d := Apply(c, Withdraw(kind));
    if c.retirement.Some? { HandsOnly(Superseded(c), d); } else { TakenKeeps(c, d); }
  }

  lemma NewSessionKeeps(c: Controller)
    requires Hosts(c) && Enabled(c, NewSession)
    ensures Hosts(Apply(c, NewSession))
  {
    hide HeldBy, NoneLost, StaleOk;
    SupersededKeeps(c);
    HandsOnly(Superseded(c), Apply(c, NewSession));
  }

  lemma CancelKeeps(c: Controller)
    requires Hosts(c) && Enabled(c, CancelPrompt)
    ensures Hosts(Apply(c, CancelPrompt))
  {
    hide HeldBy, NoneLost, StaleOk;
    TakenKeeps(c, Apply(c, CancelPrompt));
  }

  lemma FinishKeeps(c: Controller, prompt: Prompt, succeeded: bool)
    requires Hosts(c) && Enabled(c, FinishPrompt(prompt, succeeded))
    ensures Hosts(Apply(c, FinishPrompt(prompt, succeeded)))
  {
    hide HeldBy, NoneLost, StaleOk;
    var d := Apply(c, FinishPrompt(prompt, succeeded));
    if succeeded { HandsOnly(c, d); } else { TakenKeeps(c, d); }
  }

  lemma ExitKeeps(c: Controller, token: nat)
    requires Hosts(c) && Enabled(c, HostExit(token))
    ensures Hosts(Apply(c, HostExit(token)))
  {
    hide HeldBy;
  }

  // ---------------------------------------------------------------------------------------------
  // Permissions
  // ---------------------------------------------------------------------------------------------

  lemma SettleKeepsPermissions(c: Controller, outcome: Outcome)
    requires Permissions(c)
    requires c.pending.Some? && outcome.Selected? ==> outcome.option in c.pending.value.options.Values
    ensures Permissions(Settle(c, outcome))
  {
    var d := Settle(c, outcome);
    if c.pending.Some? {
      assert d.answers[|c.answers|].id == c.pending.value.id;
      forall id | 0 <= id < |c.offered| ensures Answered(d, id) {
        if Answered(c, id) {
          var i :| 0 <= i < |c.answers| && c.answers[i].id == id;
          assert d.answers[i] == c.answers[i];
        }
      }
    }
  }

  lemma RequestKeepsPermissions(c: Controller, options: map<nat, string>)
    requires Permissions(c) && c.pending.None?
    ensures Permissions(c.(pending := Some(Permission(|c.offered|, c.generation, options)),
                           offered := c.offered + [options.Values]))
  {
    var d := c.(pending := Some(Permission(|c.offered|, c.generation, options)), offered := c.offered + [options.Values]);
    forall id | 0 <= id < |c.offered| ensures Answered(d, id) {
      assert Answered(c, id);
      var i :| 0 <= i < |c.answers| && c.answers[i].id == id;
      assert d.answers[i].id == id;
    }
    forall i | 0 <= i < |c.answers| ensures AnswerOk(d, d.answers[i]) && d.answers[i].id != |c.offered| {
      assert AnswerOk(c, c.answers[i]);
    }
  }

  /** Two states with the same requests and resolutions. */
  predicate SamePermissions(c: Controller, d: Controller)
  {
    d.pending == c.pending && d.offered == c.offered && d.answers == c.answers
  }

  lemma SamePermissionsKeep(c: Controller, d: Controller)
    requires Permissions(c) && SamePermissions(c, d)
    ensures Permissions(d)
  {
    forall id: nat ensures Answered(c, id) == Answered(d, id) {}
    forall a: Answer ensures AnswerOk(c, a) == AnswerOk(d, a) {}
  }

  lemma ContinuedSettles(c: Controller, op: Op, current: bool, ok: bool)
    ensures
      var e := Continued(c, op, current, ok).0;
      (SamePermissions(c, e) || SamePermissions(Settle(c, Cancelled), e)) && e.active == c.active && e.stale == c.stale
  {
    hide Opened, Retire, SamePermissions;
    if op.Opening? || op.Renewing? { OpenedSettles(c, op.token, current, ok); }
    if op.Withdrawing? { RetireSettles(c, op.kind); }
    UnchangedIsSame(c, Continued(c, op, current, ok).0);
  }

  lemma UnchangedIsSame(c: Controller, e: Controller)
    ensures e.pending == c.pending && e.offered == c.offered && e.answers == c.answers ==> SamePermissions(c, e)
  {
  }

  lemma OpenedSettles(c: Controller, token: nat, current: bool, ok: bool)
    ensures
      var e := Opened(c, token, current, ok).0;
      (SamePermissions(c, e) || SamePermissions(Settle(c, Cancelled), e)) && e.active == c.active && e.stale == c.stale
  {
  }

  lemma RetireSettles(c: Controller, kind: Kind)
    ensures
      var e := Retire(c, kind).0;
      SamePermissions(Settle(c, Cancelled), e) && e.active == c.active && e.stale == c.stale
  {
  }

  lemma OthersSettle(c: Controller, step: Step)
    requires Enabled(c, step) && !step.RequestPermission? && !step.RespondPermission? && !step.Continue?
    ensures SamePermissions(c, Apply(c, step)) || SamePermissions(Settle(c, Cancelled), Apply(c, step))
  {
    hide Placed, Continued;
  }

  lemma PermissionsStep(c: Controller, step: Step)
    requires Permissions(c) && Enabled(c, step)
    ensures Permissions(Apply(c, step))
  {
    hide Permissions, Placed, CanContinue, Continued, SamePermissions;
    var d := Apply(c, step);
    SettleKeepsPermissions(c, Cancelled);
    if step.RequestPermission? {
      RequestedKeeps(c, step.token, step.valid, step.options);
    } else if step.RespondPermission? {
      SelectionKeeps(c, step.id, step.generation, step.option);
    } else {
      if step.Continue? {
        var op := OpAt(c, step.which).value;
        var (e, next) := Continued(c, op, step.which.Active? && !c.disposed, step.ok);
        ContinuedSettles(c, op, step.which.Active? && !c.disposed, step.ok);
        PlacedIsSilent(c, e, step.which, next);
      } else {
        OthersSettle(c, step);
      }
      if SamePermissions(c, d) { SamePermissionsKeep(c, d); } else { SamePermissionsKeep(Settle(c, Cancelled), d); }
    }
  }

  lemma RequestedKeeps(c: Controller, token: nat, valid: bool, options: map<nat, string>)
    requires Permissions(c)
    ensures Permissions(Requested(c, token, valid, options))
  {
    hide Permissions;
    SettleKeepsPermissions(c, Cancelled);
    RequestKeepsPermissions(Settle(c, Cancelled), options);
  }

  lemma SelectionKeeps(c: Controller, id: nat, generation: nat, option: nat)
    requires Permissions(c) && Enabled(c, RespondPermission(id, generation, option))
    ensures Permissions(Apply(c, RespondPermission(id, generation, option)))
  {
    hide Permissions;
    assert c.pending.value.options[option] in c.pending.value.options.Values;
    SettleKeepsPermissions(c, Selected(c.pending.value.options[option]));
  }

  lemma PlacedIsSilent(c: Controller, e: Controller, which: Which, op: Option<Op>)
    requires OpAt(e, which).Some?
    ensures SamePermissions(c, e) ==> SamePermissions(c, Placed(e, which, op))
    ensures SamePermissions(Settle(c, Cancelled), e) ==> SamePermissions(Settle(c, Cancelled), Placed(e, which, op))
  {
    hide Settle;
  }

  // ---------------------------------------------------------------------------------------------
  // Runs
  // ---------------------------------------------------------------------------------------------

  predicate Legal(c: Controller, steps: seq<Step>)
    decreases |steps|
  {
    steps == [] || (Enabled(c, steps[0]) && Legal(Apply(c, steps[0]), steps[1..]))
  }

  function Run(c: Controller, steps: seq<Step>): Controller
    requires Legal(c, steps)
    decreases |steps|
  {
    if steps == [] then c else Run(Apply(c, steps[0]), steps[1..])
  }

  lemma {:induction false} InvOverRuns(c: Controller, steps: seq<Step>)
    requires Hosts(c) && Permissions(c) && Legal(c, steps)
    ensures Hosts(Run(c, steps)) && Permissions(Run(c, steps))
    decreases |steps|
  {
    hide Hosts, Permissions, Apply, Enabled;
    if steps != [] {
      HostsStep(c, steps[0]);
      PermissionsStep(c, steps[0]);
      InvOverRuns(Apply(c, steps[0]), steps[1..]);
    }
  }

  /**
    Over every interleaving of overlapping operations: with none in flight, every host that the
    factory ever returned is the current one, was disposed, or reported its exit.
   */
  lemma {:induction false} NoHostIsLeaked(steps: seq<Step>, h: nat)
    requires Legal(Initialized(), steps)
    ensures
      var c := Run(Initialized(), steps);
      c.active.None? && c.stale == [] && h < |c.fates| ==>
        c.host == Some(h) || c.fates[h].Disposed? || c.fates[h].Exited?
  {
    InvOverRuns(Initialized(), steps);
    var c := Run(Initialized(), steps);
    if c.active.None? && c.stale == [] && h < |c.fates| && c.fates[h].Live? { assert InHands(c, h); }
  }

  /** Installing a host never overwrites one: when a step changes the current host, there was none. */
  lemma {:induction false} InstallationFindsNone(steps: seq<Step>, step: Step)
    requires Legal(Initialized(), steps) && Enabled(Run(Initialized(), steps), step)
    ensures
      var c := Run(Initialized(), steps);
      var d := Apply(c, step);
      d.host.Some? && d.host != c.host ==> c.host.None? && d.host == Some(|c.fates|) && |d.fates| == |c.fates| + 1
  {
    InvOverRuns(Initialized(), steps);
    InstallsIntoNone(Run(Initialized(), steps), step);
  }

  lemma InstallsIntoNone(c: Controller, step: Step)
    requires Hosts(c) && Enabled(c, step)
    ensures
      var d := Apply(c, step);
      d.host.Some? && d.host != c.host ==> c.host.None? && d.host == Some(|c.fates|) && |d.fates| == |c.fates| + 1
  {
    hide NoneLost, StaleOk, HostOk, Retire, Fail, Settle;
    if step.Continue? { ContinuedInstalls(c, step.which, step.ok); } else { OthersInstallNone(c, step); }
  }

  lemma ContinuedInstalls(c: Controller, which: Which, ok: bool)
    requires ActiveOk(c) && Enabled(c, Continue(which, ok))
    ensures
      var d := Apply(c, Continue(which, ok));
      d.host.Some? && d.host != c.host ==> c.host.None? && d.host == Some(|c.fates|) && |d.fates| == |c.fates| + 1
  {
  }

  lemma OthersInstallNone(c: Controller, step: Step)
    requires Enabled(c, step) && !step.Continue?
    ensures Apply(c, step).host.Some? ==> Apply(c, step).host == c.host
  {
    hide Continued, Placed;
  }

  /**
    Every permission promise is resolved at most once, and exactly once unless it is the one that is
    pending; a selection is one of the options that were offered in that very request.
   */
  lemma {:induction false} PermissionsResolveOnce(steps: seq<Step>)
    requires Legal(Initialized(), steps)
    ensures
      var c := Run(Initialized(), steps);
      && (forall i, j :: 0 <= i < j < |c.answers| ==> c.answers[i].id != c.answers[j].id)
      && (forall id | 0 <= id < |c.offered| ::
            Answered(c, id) <==> !(c.pending.Some? && c.pending.value.id == id))
      && (forall i | 0 <= i < |c.answers| ::
            c.answers[i].id < |c.offered|
            && (c.answers[i].outcome.Selected? ==> c.answers[i].outcome.option in c.offered[c.answers[i].id]))
  {
    InvOverRuns(Initialized(), steps);
    var c := Run(Initialized(), steps);
    hide Legal, Run, Hosts;
    forall i | 0 <= i < |c.answers|
      ensures c.answers[i].id < |c.offered|
              && (c.answers[i].outcome.Selected? ==> c.answers[i].outcome.option in c.offered[c.answers[i].id])
    {
      assert AnswerOk(c, c.answers[i]);
    }
  }

  // ---------------------------------------------------------------------------------------------
  // Never stuck starting
  // ---------------------------------------------------------------------------------------------

  /** A host or a token excludes a pending retirement and everything that may still detach them. */
  predicate InOrder(c: Controller)
  {
    c.host.Some? || c.token.Some? ==>
      && c.retirement.None?
      && (c.active.Some? ==> !c.active.value.Withdrawing?)
      && forall i :: 0 <= i < |c.stale| ==> !c.stale[i].Withdrawing?
  }

  /** An operation that goes on to replace the status `Starting`. */
  predicate Concludes(c: Controller, op: Op)
  {
    match op
    case Creating(token) => c.token == Some(token)
    case Opening(token) => c.token == Some(token)
    case Renewing(token) => c.token == Some(token)
    case Stray(_) => false
    case Withdrawing(kind) => !kind.Disposing?
    case _ => true
  }

  predicate StartingOk(c: Controller)
  {
    !c.disposed && c.status == Starting ==> c.active.Some? && Concludes(c, c.active.value)
  }

  lemma ContinuedConcludes(c: Controller, op: Op, current: bool, ok: bool)
    requires InOrder(c) && CanContinue(c, op) && c.status == Starting
    requires current ==> !c.disposed && Concludes(c, op)
    requires op.Withdrawing? ==> c.host.None? && c.token.None?
    ensures var (e, next) := Continued(c, op, current, ok);
      && e.disposed == c.disposed && e.active == c.active && e.stale == c.stale
      && (current && e.status == Starting ==> next.Some? && Concludes(e, next.value))
      && (!current ==> e.token == c.token && e.host == c.host && e.status == c.status)
  {
  }

  lemma ContinuedInOrder(c: Controller, op: Op, current: bool, ok: bool)
    requires InOrder(c) && CanContinue(c, op)
    requires op.Withdrawing? ==> c.host.None? && c.token.None?
    requires op.WaitingToCreate? && current ==>
               (c.active.Some? ==> !c.active.value.Withdrawing?) && forall i :: 0 <= i < |c.stale| ==> !c.stale[i].Withdrawing?
    ensures var (e, next) := Continued(c, op, current, ok);
      && InOrder(e) && (next.Some? ==> !next.value.Withdrawing?)
  {
    hide Settle;
  }

  lemma PlacedInOrder(e: Controller, which: Which, next: Option<Op>)
    requires InOrder(e) && OpAt(e, which).Some? && (next.Some? ==> !next.value.Withdrawing?)
    ensures InOrder(Placed(e, which, next))
  {
    var d := Placed(e, which, next);
    forall i | 0 <= i < |d.stale| && (e.host.Some? || e.token.Some?) ensures !d.stale[i].Withdrawing? {
      if which.Stale? && next.None? { assert d.stale[i] == e.stale[if i < which.i then i else i + 1]; }
    }
  }

  lemma OrderStep(c: Controller, step: Step)
    requires InOrder(c) && StartingOk(c) && Enabled(c, step)
    ensures InOrder(Apply(c, step)) && StartingOk(Apply(c, step))
  {
    hide Continued, Placed, Settle;
    match step
    case Continue(which, ok) => ContinueInOrder(c, which, ok);
    case _ =>
  }

  lemma ContinueInOrder(c: Controller, which: Which, ok: bool)
    requires InOrder(c) && StartingOk(c) && Enabled(c, Continue(which, ok))
    ensures var d := Apply(c, Continue(which, ok)); InOrder(d) && StartingOk(d)
  {
    hide Continued;
    var op := OpAt(c, which).value;
    var current := which.Active? && !c.disposed;
    ContinuedInOrder(c, op, current, ok);
    ContinuedShape(c, op, current, ok);
    var (e, next) := Continued(c, op, current, ok);
    PlacedInOrder(e, which, next);
    if c.status == Starting && !c.disposed { ContinuedConcludes(c, op, current, ok); }
  }

  lemma ContinuedShape(c: Controller, op: Op, current: bool, ok: bool)
    ensures var (e, _) := Continued(c, op, current, ok);
      e.active == c.active && e.stale == c.stale && e.disposed == c.disposed && (e.status == Starting ==> c.status == Starting)
  {
  }

  lemma {:induction false} OrderOverRuns(c: Controller, steps: seq<Step>)
    requires InOrder(c) && StartingOk(c) && Legal(c, steps)
    ensures InOrder(Run(c, steps)) && StartingOk(Run(c, steps))
    decreases |steps|
  {
    hide InOrder, StartingOk, Apply, Enabled;
    if steps != [] {
      OrderStep(c, steps[0]);
      OrderOverRuns(Apply(c, steps[0]), steps[1..]);
    }
  }

  /**
    Over every interleaving: a controller that says it is starting has an operation in flight that nothing
    has superseded; no leftover `Starting` refuses later starts.
   */
  lemma {:induction false} NeverStuckStarting(steps: seq<Step>)
    requires Legal(Initialized(), steps)
    ensures var c := Run(Initialized(), steps); !c.disposed && c.active.None? ==> c.status != Starting
  {
    OrderOverRuns(Initialized(), steps);
  }

  /** Only a disposed controller withdraws for good. */
  predicate DisposalOk(c: Controller)
  {
    c.active == Some(Withdrawing(Disposing)) ==> c.disposed
  }

  /** The operation replaces a status that its withdrawn host left behind. */
  predicate Withdraws(op: Op)
  {
    op.Withdrawing? || op.Retiring? || op.Concluding? || op.Cancelling? || op.Failing?
  }

  predicate Serves(c: Controller)
  {
    c.status == Ready || c.status == Running
  }

  predicate ServingOk(c: Controller)
  {
    !c.disposed && Serves(c) && c.host.None? ==> c.active.Some? && Withdraws(c.active.value)
  }

  lemma ServingStep(c: Controller, step: Step)
    requires Hosts(c) && InOrder(c) && StartingOk(c) && DisposalOk(c) && ServingOk(c) && Enabled(c, step)
    ensures DisposalOk(Apply(c, step)) && ServingOk(Apply(c, step))
  {
    hide StaleOk, NoneLost, Continued, Placed, Settle;
    match step
    case Continue(which, ok) => ContinueServing(c, which, ok);
    case _ =>
  }

  lemma ContinueServing(c: Controller, which: Which, ok: bool)
    requires Hosts(c) && InOrder(c) && StartingOk(c) && DisposalOk(c) && ServingOk(c)
    requires Enabled(c, Continue(which, ok))
    ensures var d := Apply(c, Continue(which, ok)); DisposalOk(d) && ServingOk(d)
  {
    hide StaleOk, NoneLost, Continued;
    var op := OpAt(c, which).value;
    ContinuedShape(c, op, which.Active? && !c.disposed, ok);
    ContinuedServes(c, which, op, ok);
  }

  lemma ContinuedServes(c: Controller, which: Which, op: Op, ok: bool)
    requires Hosts(c) && InOrder(c) && StartingOk(c) && DisposalOk(c) && ServingOk(c) && OpAt(c, which) == Some(op)
    ensures var (e, next) := Continued(c, op, which.Active? && !c.disposed, ok);
      && (next.Some? ==> !next.value.Withdrawing?)
      && (!c.disposed && Serves(e) && e.host.None? ==>
            if which.Active? then next.Some? && Withdraws(next.value) else c.active.Some? && Withdraws(c.active.value))
  {
    hide StaleOk, NoneLost, Settle;
  }

  lemma {:induction false} ServingOverRuns(c: Controller, steps: seq<Step>)
    requires Hosts(c) && Permissions(c) && InOrder(c) && StartingOk(c) && DisposalOk(c) && ServingOk(c) && Legal(c, steps)
    ensures ServingOk(Run(c, steps))
    decreases |steps|
  {
    hide Hosts, Permissions, InOrder, StartingOk, DisposalOk, ServingOk, Apply, Enabled;
    if steps != [] {
      HostsStep(c, steps[0]);
      PermissionsStep(c, steps[0]);
      OrderStep(c, steps[0]);
      ServingStep(c, steps[0]);
      ServingOverRuns(Apply(c, steps[0]), steps[1..]);
    }
  }

  /**
    Over every interleaving: with no operation in flight, a controller that says it is ready or running has a
    live host and a session.
   */
  lemma {:induction false} ReadyHasHost(steps: seq<Step>)
    requires Legal(Initialized(), steps)
    ensures
      var c := Run(Initialized(), steps);
      !c.disposed && c.active.None? && Serves(c) ==>
        c.accepted && c.host.Some? && c.host.value < |c.fates| && c.fates[c.host.value].Live?
  {
    InvOverRuns(Initialized(), steps);
    ServingOverRuns(Initialized(), steps);
  }

  // ---------------------------------------------------------------------------------------------
  // The object
  // ---------------------------------------------------------------------------------------------

  /**
    The controller's fields. A method runs from one await to the next; where it stops is the operation
    that it returns. The fields below `disposed` are the history of `Controller`.
   */
  class AiChannelController {
    var host: Option<nat>
    var hostToken: Option<nat>
    var nextHostToken: nat
    var accepted: bool
    var activePrompt: Option<Prompt>
    var status: Status
    var generation: nat
    var hostRetirement: Option<nat>
    var pendingPermission: Option<Permission>
    var disposed: bool
    var fates: seq<Fate>
    var offered: seq<set<string>>
    ghost var answers: seq<Answer>
    ghost var active: Option<Op>
    ghost var stale: seq<Op>

    ghost function Model(): Controller
      reads this
    {
      Controller(host, hostToken, nextHostToken, accepted, activePrompt, status, generation, hostRetirement, disposed,
                 active, stale, pendingPermission, fates, offered, answers)
    }

    method SettlePermission(outcome: Outcome)
      modifies this
      ensures Model() == Settle(old(Model()), outcome)
    {
      if pendingPermission.None? { return; }
      answers := answers + [Answer(pendingPermission.value.id, outcome)];
      pendingPermission := None;
    }

    method ForgetHost()
      modifies this
      ensures Model() == old(Model()).(host := None, token := None)
    {
      host, hostToken := None, None;
    }

    method Detach()
      modifies this
      ensures Model() == Detached(old(Model()))
    {
      hide Settle;
      SettlePermission(Cancelled);
      ForgetHost();
      accepted, activePrompt := false, None;
    }

    /** `#handlePermissionRequest`; the options are those that passed validation. */
    method HandlePermissionRequest(token: nat, valid: bool, options: map<nat, string>)
      modifies this
      ensures Model() == Requested(old(Model()), token, valid, options)
    {
      hide Settle;
      if disposed || hostToken != Some(token) || status != Running || activePrompt.None?
         || activePrompt.value.generation != generation {
        return;
      }
      SettlePermission(Cancelled);
      if !valid || options == map[] { return; }
      pendingPermission := Some(Permission(|offered|, generation, options));
      offered := offered + [options.Values];
    }

    /** `respondPermission`; a stale request or an option that was not offered is refused. */
    method RespondToPermission(id: nat, expected: nat, option: nat) returns (accepted: bool)
      modifies this
      ensures accepted == Enabled(old(Model()), RespondPermission(id, expected, option))
      ensures Model() == if accepted then Apply(old(Model()), RespondPermission(id, expected, option)) else old(Model())
    {
      accepted := !disposed && pendingPermission.Some? && pendingPermission.value.id == id
        && pendingPermission.value.generation == expected && expected == generation
        && option in pendingPermission.value.options;
      if !accepted { return; }
      SettlePermission(Selected(pendingPermission.value.options[option]));
    }

    /** `#retireHost` once no earlier retirement is pending. */
    method RetireHost(kind: Kind) returns (next: Option<Op>)
      modifies this
      ensures (Model(), next) == Retire(old(Model()), kind)
    {
      hide Detached;
      var retired := host;
      Detach();
      if retired.None? { return if kind.Disposing? then None else Some(Concluding); }
      hostRetirement := retired;
      next := Some(Retiring(kind, retired.value));
    }

    /** `#failCurrentHost`, up to its await. */
    method FailCurrentHost() returns (next: Option<Op>)
      modifies this
      ensures (Model(), next) == Fail(old(Model()))
    {
      hide Detached;
      var failed := host;
      Detach();
      if failed.None? {
        status := NotReady;
        generation := generation + 1;
        return None;
      }
      hostRetirement := failed;
      next := Some(Failing(failed.value));
    }

    /** `start` behind the await of the host factory. */
    method InstallHost(token: nat, current: bool) returns (next: Option<Op>)
      modifies this
      ensures (Model(), next) == Continued(old(Model()), Creating(token), current, true)
    {
      var created := |fates|;
      fates := fates + [Live];
      if !current || disposed || hostToken != Some(token) { return Some(Stray(created)); }
      host := Some(created);
      next := Some(Opening(token));
    }

    /** `#handleHostExit`; the exit of a superseded host is ignored. */
    method HandleHostExit(token: nat)
      modifies this
      ensures Model() == if Enabled(old(Model()), HostExit(token)) then Apply(old(Model()), HostExit(token)) else old(Model())
    {
      hide Detached;
      if disposed || hostToken != Some(token) { return; }
      var exited := host;
      Detach();
      if exited.Some? && exited.value < |fates| { fates := fates[exited.value := Exited]; }
      status := NotReady;
      generation := generation + 1;
    }
  }
}
