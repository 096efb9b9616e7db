/**
  Credential generations of ChatSession (apps/desktop/src/main/chat-session.ts:266-273, 684-706,
  882-998). Session changes run one at a time on the mutation chain; requests, their answers and the jar
  move between their await points.
 */
module ChatSession {
  import opened Wrappers

  /** One sending of a request; `carried` and `installed` are history. */
  datatype Attempt = Attempt(carried: Option<nat>, epoch: nat, generation: nat, installed: nat)

  datatype Progress = InFlight | AwaitingBarrier | Returned | Abandoned

  /** An API request: its scope, its last sending, and whether that one was answered with 401. */
  datatype Request = Request(
    context: Option<nat>, epoch: nat, last: Attempt, sendings: nat, refused: bool, progress: Progress)

  /** The running mutation; `cleared` says that its removal of the cookie is over. */
  datatype Work =
    | NoWork
    | Rotating
    | Exchanging
    | Clearing(cleared: bool)

  datatype Status = SignedOut | SignedIn(who: nat) | Unavailable(last: Option<nat>)

  /**
    `epoch` is `#sessionEpoch`; `cookie` is the credential in the jar; `installed` counts the credentials
    that responses have put there, and `seen` holds every credential that was ever there.
   */
  datatype Session = Session(
    epoch: nat,
    generation: nat,
    installed: nat,
    seen: set<nat>,
    cookie: Option<nat>,
    status: Status,
    work: Work,
    requests: seq<Request>)

  datatype Verdict = Accepted(context: nat) | Unreadable | RefusedLink | NoVerdict

  datatype Step =
    | Issue
    | Answer(i: nat, refused: bool)
    | Barrier(i: nat)
    | BeginRotation
    | BeginExchange
    | BeginSignOut
    | Replace(credential: nat)
    | RotationSettles(ok: bool)
    | ExchangeSettles(verdict: Verdict)
    | Identify(context: nat)
    | Lose(last: Option<nat>)
    | ClearCookie(removed: bool)
    | FinishClearing
    | MarkSignedOut(i: nat)

  // ---------------------------------------------------------------------------------------------
  // Steps
  // ---------------------------------------------------------------------------------------------

  /** `#authenticatedContextFromState`. */
  function ContextOf(status: Status): Option<nat>
  {
    match status
    case SignedOut => None
    case SignedIn(who) => Some(who)
    case Unavailable(last) => last
  }

  function Sending(s: Session): Attempt
  {
    Attempt(s.cookie, s.epoch, s.generation, s.installed)
  }

  /** `#assertRequestSession`. */
  predicate SameSession(s: Session, r: Request)
  {
    s.epoch == r.epoch && ContextOf(s.status) == r.context
  }

  predicate Rejects(s: Session, r: Request)
  {
    r.refused && r.last.epoch == s.epoch && r.last.generation == s.generation
  }

  /** What can happen next; the server never issues a credential twice. */
  predicate Enabled(s: Session, step: Step)
  {
    match step
    case Issue => !s.status.Unavailable?
    case Answer(i, _) => i < |s.requests| && s.requests[i].progress.InFlight?
    case Barrier(i) => s.work.NoWork? && i < |s.requests| && s.requests[i].progress.AwaitingBarrier?
    case BeginRotation => s.work.NoWork?
    case BeginExchange => s.work.NoWork?
    case BeginSignOut => s.work.NoWork?
    case Replace(credential) => (s.work.Rotating? || s.work.Exchanging?) && credential !in s.seen
    case RotationSettles(_) => s.work.Rotating?
    case ExchangeSettles(_) => s.work.Exchanging?
    case Identify(_) => s.work.NoWork?
    case Lose(_) => s.work.NoWork?
    case ClearCookie(_) => s.work.Clearing?
    case FinishClearing => s.work.Clearing? && s.work.cleared
    case MarkSignedOut(i) => s.work.NoWork? && i < |s.requests| && s.requests[i].progress.Returned?
  }

  /** The answer to a sending: a first 401 waits for the chain, a retry always does. */
  function Answered(r: Request, refused: bool): Request
  {
    r.(refused := refused, progress := if refused || r.sendings > 1 then AwaitingBarrier else Returned)
  }

  /** Behind the barrier: give up, hand the answer out, or send once more with the successor. */
  function AfterBarrier(s: Session, r: Request): Request
  {
    if !SameSession(s, r) then r.(progress := Abandoned)
    else if r.sendings > 1 || s.generation == r.last.generation then r.(progress := Returned)
    else r.(last := Sending(s), sendings := r.sendings + 1, progress := InFlight)
  }

  function Apply(s: Session, step: Step): Session
    requires Enabled(s, step)
  {
    match step
    case Issue => s.(requests := s.requests + [Request(ContextOf(s.status), s.epoch, Sending(s), 1, false, InFlight)])
    case Answer(i, refused) => s.(requests := s.requests[i := Answered(s.requests[i], refused)])
    case Barrier(i) => s.(requests := s.requests[i := AfterBarrier(s, s.requests[i])])
    case BeginRotation => s.(work := Rotating)
    case BeginExchange => s.(work := Exchanging)
    case BeginSignOut => s.(work := Clearing(false))
    case Replace(credential) =>
      s.(cookie := Some(credential), installed := s.installed + 1, seen := s.seen + {credential})
    case RotationSettles(ok) => s.(work := NoWork, generation := if ok then s.generation + 1 else s.generation)
    case ExchangeSettles(verdict) =>
      (match verdict
       case Accepted(context) =>
         s.(epoch := s.epoch + 1, generation := s.generation + 1, status := SignedIn(context), work := NoWork)
       case RefusedLink => s.(work := if s.status.SignedIn? then NoWork else Clearing(false))
       case Unreadable => s.(work := NoWork)
       case NoVerdict => s.(work := NoWork))
    case Identify(context) => s.(status := SignedIn(context))
    case Lose(last) => s.(status := Unavailable(last))
    case ClearCookie(removed) => s.(cookie := if removed then None else s.cookie, work := Clearing(true))
    case FinishClearing => s.(epoch := s.epoch + 1, status := SignedOut, work := NoWork)
    case MarkSignedOut(i) => if Rejects(s, s.requests[i]) then s.(work := Clearing(false)) else s
  }

  // ---------------------------------------------------------------------------------------------
  // Invariant
  // ---------------------------------------------------------------------------------------------

  /** In the session that sent it, a sending carried the jar's credential unless one was installed since. */
  predicate RequestOk(s: Session, r: Request)
  {
    && r.last.epoch == r.epoch <= s.epoch && r.last.generation <= s.generation && r.last.installed <= s.installed
    && (r.last.carried.Some? ==> r.last.carried.value in s.seen)
    && 1 <= r.sendings <= 2
    && (r.last.epoch == s.epoch && !(s.work.Clearing? && s.work.cleared) ==>
          (r.last.installed == s.installed <==> r.last.carried == s.cookie))
  }

  predicate Inv(s: Session)
  {
    && (s.cookie.Some? ==> s.cookie.value in s.seen)
    && forall i :: 0 <= i < |s.requests| ==> RequestOk(s, s.requests[i])
  }

  lemma StepKeeps(s: Session, step: Step)
    requires Inv(s) && Enabled(s, step)
    ensures Inv(Apply(s, step))
  {
    var t := Apply(s, step);
    forall i | 0 <= i < |t.requests| ensures RequestOk(t, t.requests[i]) {
      if i < |s.requests| { assert RequestOk(s, s.requests[i]); }
    }
  }

  function Start(cookie: Option<nat>): Session
  {
    Session(0, 0, 0, if cookie.Some? then {cookie.value} else {}, cookie, SignedOut, NoWork, [])
  }

  predicate Legal(s: Session, steps: seq<Step>)
    decreases |steps|
  {
    steps == [] || (Enabled(s, steps[0]) && Legal(Apply(s, steps[0]), steps[1..]))
  }

  function Run(s: Session, steps: seq<Step>): Session
    requires Legal(s, steps)
    decreases |steps|
  {
    if steps == [] then s else Run(Apply(s, steps[0]), steps[1..])
  }

  lemma {:induction false} InvOverRuns(s: Session, steps: seq<Step>)
    requires Inv(s) && Legal(s, steps)
    ensures Inv(Run(s, steps))
    decreases |steps|
  {
    hide Inv, Apply, Enabled;
    if steps != [] {
      StepKeeps(s, steps[0]);
      InvOverRuns(Apply(s, steps[0]), steps[1..]);
    }
  }

  /**
    For any interleaving of renewals, sign-ins, sign-outs and requests: a rejection ends the session exactly
    if its last sending was answered with 401, belongs to the current session and carries the current
    generation; and then the credential about to be removed is the one it carried if and only if no
    credential was installed since.
   */
  lemma {:induction false} RejectionEndsItsOwn(cookie: Option<nat>, steps: seq<Step>, i: nat)
    requires Legal(Start(cookie), steps)
    requires var s := Run(Start(cookie), steps); Enabled(s, MarkSignedOut(i))
    ensures
      var s := Run(Start(cookie), steps);
      var r := s.requests[i];
      var t := Apply(s, MarkSignedOut(i));
      && (t.work.Clearing? <==> r.refused && r.last.epoch == s.epoch && r.last.generation == s.generation)
      && (!t.work.Clearing? ==> t == s)
      && (t.work.Clearing? ==> r.epoch == s.epoch && (r.last.carried == s.cookie <==> r.last.installed == s.installed))
  {
    InvOverRuns(Start(cookie), steps);
    var s := Run(Start(cookie), steps);
    assert RequestOk(s, s.requests[i]);
  }

  /** A step by which a mutation counts the credential that it installed. */
  predicate Counts(step: Step)
  {
    step == RotationSettles(true) || (step.ExchangeSettles? && step.verdict.Accepted?)
  }

  function Replacements(steps: seq<Step>): nat
  {
    if steps == [] then 0 else (if steps[0].Replace? then 1 else 0) + Replacements(steps[1..])
  }

  function Generations(steps: seq<Step>): nat
  {
    if steps == [] then 0 else (if Counts(steps[0]) then 1 else 0) + Generations(steps[1..])
  }

  /** The two counters over a run, and what the run leaves of a request that it does not send again. */
  lemma {:induction false} Since(s: Session, after: seq<Step>, i: nat)
    requires Legal(s, after) && i < |s.requests|
    ensures var t := Run(s, after);
      && t.installed == s.installed + Replacements(after)
      && t.generation == s.generation + Generations(after)
      && i < |t.requests| && s.requests[i].sendings <= t.requests[i].sendings
      && (t.requests[i].sendings == s.requests[i].sendings ==> t.requests[i].last == s.requests[i].last)
    decreases |after|
  {
    if after != [] { Since(Apply(s, after[0]), after[1..], i); }
  }

  lemma {:induction false} NoneCounted(steps: seq<Step>)
    ensures Replacements(steps) == 0 <==> forall k :: 0 <= k < |steps| ==> !steps[k].Replace?
    ensures Generations(steps) == 0 <==> forall k :: 0 <= k < |steps| ==> !Counts(steps[k])
  {
    if steps != [] {
      NoneCounted(steps[1..]);
      assert forall k :: 1 <= k < |steps| ==> steps[k] == steps[1..][k - 1];
    }
  }

  /**
    The same over the steps behind the sending, which `front` ends with. A rejection that ends the session
    removes the very credential that its request carried if and only if no credential was installed behind
    the sending; one that was is one that its rotation or exchange left without a new generation.
   */
  lemma {:induction false} RejectionRemovesWhatItCarried(cookie: Option<nat>, front: seq<Step>, after: seq<Step>, i: nat)
    requires Legal(Start(cookie), front) && Legal(Run(Start(cookie), front), after)
    requires var sent := Run(Start(cookie), front);
             i < |sent.requests| && sent.requests[i].last == Sending(sent)
    requires var sent := Run(Start(cookie), front);
             var s := Run(sent, after);
             Enabled(s, MarkSignedOut(i)) && s.requests[i].sendings == sent.requests[i].sendings
    ensures
      var s := Run(Run(Start(cookie), front), after);
      Apply(s, MarkSignedOut(i)).work.Clearing? ==>
        && (s.requests[i].last.carried == s.cookie <==> forall k :: 0 <= k < |after| ==> !after[k].Replace?)
        && forall k :: 0 <= k < |after| ==> !Counts(after[k])
  {
    InvOverRuns(Start(cookie), front);
    var sent := Run(Start(cookie), front);
    InvOverRuns(sent, after);
    Since(sent, after, i);
    NoneCounted(after);
    var s := Run(sent, after);
    assert RequestOk(s, s.requests[i]);
  }

  /** Every request is sent at most twice, and the second time only in the session that issued it. */
  lemma {:induction false} RetryStaysInSession(cookie: Option<nat>, steps: seq<Step>, i: nat)
    requires Legal(Start(cookie), steps) && i < |Run(Start(cookie), steps).requests|
    ensures
      var r := Run(Start(cookie), steps).requests[i];
      r.sendings <= 2 && r.last.epoch == r.epoch
  {
    InvOverRuns(Start(cookie), steps);
    var s := Run(Start(cookie), steps);
    assert RequestOk(s, s.requests[i]);
  }

  /** A second sending happens exactly behind a first 401, in the same session, under a new generation. */
  lemma RetryIff(s: Session, i: nat)
    requires Inv(s) && Enabled(s, Barrier(i))
    ensures
      var r, q := s.requests[i], Apply(s, Barrier(i)).requests[i];
      && (q.sendings == r.sendings + 1 <==>
            r.sendings == 1 && r.epoch == s.epoch && r.context == ContextOf(s.status) && r.last.generation < s.generation)
      && (q.sendings == r.sendings + 1 ==> q.last == Sending(s) && q.last.carried == s.cookie)
      && (q.progress.Returned? ==> r.epoch == s.epoch && r.context == ContextOf(s.status))
  {
    assert RequestOk(s, s.requests[i]);
  }

  // ---------------------------------------------------------------------------------------------
  // One mutation at a time
  // ---------------------------------------------------------------------------------------------

  /** The step puts a mutation on the chain; a rejection does when it is current. */
  predicate Begins(s: Session, step: Step)
  {
    step.BeginRotation? || step.BeginExchange? || step.BeginSignOut?
    || (step.MarkSignedOut? && step.i < |s.requests| && Rejects(s, s.requests[step.i]))
  }

  /** A refused link first removes the credential, where nobody is signed in. */
  predicate Ends(s: Session, step: Step)
  {
    step.RotationSettles? || step.FinishClearing?
    || (step.ExchangeSettles? && (step.verdict.RefusedLink? ==> s.status.SignedIn?))
  }

  function Begun(s: Session, steps: seq<Step>): nat
    requires Legal(s, steps)
    decreases |steps|
  {
    if steps == [] then 0 else (if Begins(s, steps[0]) then 1 else 0) + Begun(Apply(s, steps[0]), steps[1..])
  }

  function Ended(s: Session, steps: seq<Step>): nat
    requires Legal(s, steps)
    decreases |steps|
  {
    if steps == [] then 0 else (if Ends(s, steps[0]) then 1 else 0) + Ended(Apply(s, steps[0]), steps[1..])
  }

  function Running(s: Session): nat
  {
    if s.work.NoWork? then 0 else 1
  }

  /** Mutations never overlap: of those begun in any run, all but the running one have ended. */
  lemma {:induction false} OneAtATime(s: Session, steps: seq<Step>)
    requires Legal(s, steps)
    ensures Running(s) + Begun(s, steps) == Ended(s, steps) + Running(Run(s, steps))
    ensures Running(Run(s, steps)) <= 1
    decreases |steps|
  {
    if steps != [] { OneAtATime(Apply(s, steps[0]), steps[1..]); }
  }

  /** The jar is written only by the running rotation, sign-in or removal, and identity and epoch not at all while it runs. */
  lemma JarHasOneWriter(s: Session, step: Step)
    requires Enabled(s, step)
    ensures
      var t := Apply(s, step);
      && (t.cookie != s.cookie ==> !s.work.NoWork? && (step.Replace? || step.ClearCookie?))
      && (step.Replace? ==> t.cookie == Some(step.credential) && t.work == s.work)
      && (step.ClearCookie? ==> t.cookie == (if step.removed then None else s.cookie) && s.work.Clearing? && t.work == Clearing(true))
      && (!s.work.NoWork? && !t.work.NoWork? ==> t.epoch == s.epoch && t.generation == s.generation && t.status == s.status)
  {
  }

  /** A session ends only behind an attempt to remove its cookie. */
  lemma {:induction false} EndsBehindRemoval(s: Session, steps: seq<Step>)
    requires Legal(s, steps) && !(s.work.Clearing? && s.work.cleared)
    requires Run(s, steps).work.Clearing? && Run(s, steps).work.cleared
    ensures exists k :: 0 <= k < |steps| && steps[k].ClearCookie?
    decreases |steps|
  {
    if steps != [] && !steps[0].ClearCookie? {
      var t := Apply(s, steps[0]);
      assert !(t.work.Clearing? && t.work.cleared);
      EndsBehindRemoval(t, steps[1..]);
      var k :| 0 <= k < |steps[1..]| && steps[1..][k].ClearCookie?;
      assert steps[k + 1].ClearCookie?;
    } else if steps != [] {
      assert steps[0].ClearCookie?;
    }
  }

  // ---------------------------------------------------------------------------------------------
  // How mutations end
  // ---------------------------------------------------------------------------------------------

  /**
    A sign-in takes effect exactly when it was accepted: a new session epoch and credential generation, and the
    identity that was answered. Without a verdict, or refused behind an active session, it changes nothing.
   */
  lemma SignInMeans(s: Session, verdict: Verdict)
    requires Enabled(s, ExchangeSettles(verdict))
    ensures
      var t := Apply(s, ExchangeSettles(verdict));
      && t.cookie == s.cookie && t.requests == s.requests
      && (if verdict.Accepted? then
            t.epoch == s.epoch + 1 && t.generation == s.generation + 1 && t.status == SignedIn(verdict.context) && t.work.NoWork?
          else
            t.epoch == s.epoch && t.generation == s.generation && t.status == s.status
            && t.work == if verdict.RefusedLink? && !s.status.SignedIn? then Clearing(false) else NoWork)
  {
  }

  /** Every removal that runs to its end signs out, in a new session epoch. */
  lemma SignOutMeans(s: Session)
    requires Enabled(s, FinishClearing)
    ensures
      var t := Apply(s, FinishClearing);
      t.status.SignedOut? && t.epoch == s.epoch + 1 && t.generation == s.generation && t.work.NoWork?
      && t.cookie == s.cookie && t.requests == s.requests
  {
  }

  /** A rotation that returned leaves everything but the generation, and so does one that failed. */
  lemma RotationMeans(s: Session, ok: bool)
    requires Enabled(s, RotationSettles(ok))
    ensures
      var t := Apply(s, RotationSettles(ok));
      && t == s.(generation := t.generation, work := NoWork)
      && t.generation - s.generation == (if ok then 1 else 0)
  {
  }

  /** Reading the identity, and losing the service, change the status and nothing else. */
  lemma ProbeMeans(s: Session, context: nat, last: Option<nat>)
    requires s.work.NoWork?
    ensures Apply(s, Identify(context)) == s.(status := SignedIn(context))
    ensures Apply(s, Lose(last)) == s.(status := Unavailable(last))
  {
  }

  // ---------------------------------------------------------------------------------------------
  // Requests
  // ---------------------------------------------------------------------------------------------

  /** The status still stands for `identity`; a session that was lost stands for the identity it had. */
  predicate StandsFor(status: Status, identity: Option<nat>)
  {
    match status
    case SignedOut => identity.None?
    case SignedIn(who) => identity == Some(who)
    case Unavailable(last) => identity == last
  }

  /** A request belongs to the identity and the session that issue it. */
  lemma IssuedFor(s: Session)
    requires Enabled(s, Issue)
    ensures
      var t := Apply(s, Issue);
      var r := t.requests[|s.requests|];
      && t == s.(requests := s.requests + [r]) && StandsFor(s.status, r.context) && r.epoch == s.epoch
      && r.last == Attempt(s.cookie, s.epoch, s.generation, s.installed) && r.sendings == 1 && r.progress.InFlight?
  {
  }

  /** Only a first answer that is no refusal is handed out at once; every other waits for the chain. */
  lemma AnswerMeans(s: Session, i: nat, refused: bool)
    requires Inv(s) && Enabled(s, Answer(i, refused))
    ensures
      var r, t := s.requests[i], Apply(s, Answer(i, refused));
      t == s.(requests := s.requests[i := r.(refused := refused,
                                             progress := if r.sendings == 1 && !refused then Returned else AwaitingBarrier)])
  {
    assert RequestOk(s, s.requests[i]);
  }

  /**
    Behind the barrier: a request whose session or identity is gone is given up, a first refusal under an older
    generation is sent again with the jar's credential, and any other answer is handed out.
   */
  lemma BarrierMeans(s: Session, i: nat)
    requires Inv(s) && Enabled(s, Barrier(i))
    ensures
      var r, q := s.requests[i], Apply(s, Barrier(i)).requests[i];
      var same := s.epoch == r.epoch && StandsFor(s.status, r.context);
      && (q.progress.Abandoned? <==> !same)
      && (q.progress.InFlight? <==> same && r.sendings == 1 && r.last.generation < s.generation)
      && (q.progress.InFlight? ==> q.sendings == 2 && q.last == Attempt(s.cookie, s.epoch, s.generation, s.installed))
      && (!q.progress.InFlight? ==> q == r.(progress := q.progress) && (same ==> q.progress.Returned?))
      && Apply(s, Barrier(i)) == s.(requests := s.requests[i := q])
  {
    assert RequestOk(s, s.requests[i]);
  }

  function Sessions(steps: seq<Step>): nat
  {
    if steps == [] then 0
    else (if steps[0].FinishClearing? || (steps[0].ExchangeSettles? && steps[0].verdict.Accepted?) then 1 else 0) + Sessions(steps[1..])
  }

  lemma {:induction false} EpochCounts(s: Session, steps: seq<Step>)
    requires Legal(s, steps)
    ensures Run(s, steps).epoch == s.epoch + Sessions(steps)
    decreases |steps|
  {
    if steps != [] { EpochCounts(Apply(s, steps[0]), steps[1..]); }
  }

  lemma {:induction false} NoSessionEnds(steps: seq<Step>)
    ensures Sessions(steps) == 0 <==>
            forall k :: 0 <= k < |steps| ==> !steps[k].FinishClearing? && !(steps[k].ExchangeSettles? && steps[k].verdict.Accepted?)
  {
    if steps != [] {
      NoSessionEnds(steps[1..]);
      assert forall k :: 1 <= k < |steps| ==> steps[k] == steps[1..][k - 1];
    }
  }

  /**
    No answer crosses a session: what waits at the barrier is handed out or sent again if and only if no sign-in was
    accepted and no sign-out ended since it was issued, and the status still stands for the identity it was issued for.
   */
  lemma {:induction false} AnswersStayInSession(s: Session, after: seq<Step>, i: nat)
    requires Inv(s) && Enabled(s, Issue) && i == |s.requests|
    requires Legal(Apply(s, Issue), after) && Enabled(Run(Apply(s, Issue), after), Barrier(i))
    ensures
      var t := Run(Apply(s, Issue), after);
      i < |t.requests|
      && (!Apply(t, Barrier(i)).requests[i].progress.Abandoned? <==>
            (forall k :: 0 <= k < |after| ==> !after[k].FinishClearing? && !(after[k].ExchangeSettles? && after[k].verdict.Accepted?))
            && StandsFor(t.status, Apply(s, Issue).requests[i].context))
  {
    hide Apply, Enabled, StandsFor;
    var issued := Apply(s, Issue);
    StepKeeps(s, Issue);
    IssuedFor(s);
    InvOverRuns(issued, after);
    EpochCounts(issued, after);
    NoSessionEnds(after);
    OriginStays(issued, after, i);
    BarrierMeans(Run(issued, after), i);
  }

  lemma {:induction false} OriginStays(s: Session, steps: seq<Step>, i: nat)
    requires Legal(s, steps) && i < |s.requests|
    ensures var t := Run(s, steps);
      i < |t.requests| && t.requests[i].epoch == s.requests[i].epoch && t.requests[i].context == s.requests[i].context
    decreases |steps|
  {
    if steps != [] { OriginStays(Apply(s, steps[0]), steps[1..], i); }
  }

  // ---------------------------------------------------------------------------------------------
  // Where the promise ends
  // ---------------------------------------------------------------------------------------------

  /**
    A sign-in whose answer cannot be read leaves its credential in the jar without a new epoch or
    generation: an older request's 401 then removes the successor.
   */
  lemma UnreadableSignInIsRejected()
    ensures
      var s0 := Start(Some(1));
      var steps := [Issue, Answer(0, true), BeginExchange, Replace(2), ExchangeSettles(Unreadable), Barrier(0)];
      Legal(s0, steps)
      && var s := Run(s0, steps);
      Enabled(s, MarkSignedOut(0)) && Apply(s, MarkSignedOut(0)).work.Clearing?
      && s.cookie == Some(2) && s.requests[0].last.carried == Some(1)
  {
    hide Legal, Run;
    var s0 := Start(Some(1));
    var s1 := Apply(s0, Issue);
    var s2 := Apply(s1, Answer(0, true));
    var s3 := Apply(s2, BeginExchange);
    var s4 := Apply(s3, Replace(2));
    var s5 := Apply(s4, ExchangeSettles(Unreadable));
    Traced([s0, s1, s2, s3, s4, s5, Apply(s5, Barrier(0))],
           [Issue, Answer(0, true), BeginExchange, Replace(2), ExchangeSettles(Unreadable), Barrier(0)]);
  }

  lemma {:induction false} Traced(states: seq<Session>, steps: seq<Step>)
    requires |states| == |steps| + 1
    requires forall k :: 0 <= k < |steps| ==> Enabled(states[k], steps[k]) && states[k + 1] == Apply(states[k], steps[k])
    ensures Legal(states[0], steps) && Run(states[0], steps) == states[|steps|]
    decreases |steps|
  {
    if steps != [] { Traced(states[1..], steps[1..]); }
  }

  // ---------------------------------------------------------------------------------------------
  // The object
  // ---------------------------------------------------------------------------------------------

  class CredentialSession {
    var sessionEpoch: nat
    var credentialGeneration: nat
    var cookie: Option<nat>
    var status: Status
    var work: Work
    var requests: seq<Request>
    /** History, as in `Session`. */
    var installed: nat
    ghost var seen: set<nat>

    ghost function Model(): Session
      reads this
    {
      Session(sessionEpoch, credentialGeneration, installed, seen, cookie, status, work, requests)
    }

    constructor (cookie: Option<nat>)
      ensures Model() == Start(cookie)
    {
      sessionEpoch, credentialGeneration, installed := 0, 0, 0;
      seen := if cookie.Some? then {cookie.value} else {};
      this.cookie, status, work, requests := cookie, SignedOut, NoWork, [];
    }

    method CurrentSending() returns (a: Attempt)
      ensures a == Sending(Model())
    {
      a := Attempt(cookie, sessionEpoch, credentialGeneration, installed);
    }

    /** `fetch`, up to the await of its first sending. */
    method IssueRequest()
      requires Enabled(Model(), Issue)
      modifies this
      ensures Model() == Apply(old(Model()), Issue)
    {
      var sent := CurrentSending();
      requests := requests + [Request(ContextOf(status), sessionEpoch, sent, 1, false, InFlight)];
    }

    /** `#fetchWithCredentialRetry` behind the barrier of an answer, up to the next await. */
    method PassBarrier(i: nat)
      requires Enabled(Model(), Barrier(i))
      modifies this
      ensures Model() == Apply(old(Model()), Barrier(i))
    {
      var r := requests[i];
      if sessionEpoch != r.epoch || ContextOf(status) != r.context {
        requests := requests[i := r.(progress := Abandoned)];
      } else if r.sendings > 1 || credentialGeneration == r.last.generation {
        requests := requests[i := r.(progress := Returned)];
      } else {
        var sent := CurrentSending();
        requests := requests[i := r.(last := sent, sendings := r.sendings + 1, progress := InFlight)];
      }
    }

    /** `#rotateSession` behind its await. */
    method SettleRotation(ok: bool)
      requires Enabled(Model(), RotationSettles(ok))
      modifies this
      ensures Model() == Apply(old(Model()), RotationSettles(ok))
    {
      if ok { credentialGeneration := credentialGeneration + 1; }
      work := NoWork;
    }

    /** `#exchangeMagicLink` behind the await of its exchange. */
    method SettleExchange(verdict: Verdict)
      requires Enabled(Model(), ExchangeSettles(verdict))
      modifies this
      ensures Model() == Apply(old(Model()), ExchangeSettles(verdict))
    {
      if verdict.Accepted? {
        sessionEpoch := sessionEpoch + 1;
        credentialGeneration := credentialGeneration + 1;
        status := SignedIn(verdict.context);
        work := NoWork;
        return;
      }
      work := if verdict.RefusedLink? && !status.SignedIn? then Clearing(false) else NoWork;
    }

    /** The end of every mutation that removed the cookie. */
    method EndSession()
      requires Enabled(Model(), FinishClearing)
      modifies this
      ensures Model() == Apply(old(Model()), FinishClearing)
    {
      sessionEpoch := sessionEpoch + 1;
      status := SignedOut;
      work := NoWork;
    }

    /** `markSignedOut` when its mutation runs, up to the removal of the cookie. */
    method BeginMarkedSignOut(i: nat) returns (current: bool)
      requires Enabled(Model(), MarkSignedOut(i))
      modifies this
      ensures Model() == Apply(old(Model()), MarkSignedOut(i)) && current == Rejects(old(Model()), old(requests)[i])
    {
      var r := requests[i];
      if !r.refused || r.last.epoch != sessionEpoch || r.last.generation != credentialGeneration { return false; }
      work := Clearing(false);
      return true;
    }
  }
}
