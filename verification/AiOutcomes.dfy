/**
  How each operation of AiChannelController ends (apps/desktop/src/main/ai-channel-controller.ts:427-739, 1012-1205),
  for the operation that nothing has superseded and for one that something has.
 */
module AiOutcomes {
  import opened Wrappers
  import opened AiChannel

  // ---------------------------------------------------------------------------------------------
  // Behind an await
  // ---------------------------------------------------------------------------------------------

  /** A superseded operation disposes what it holds or was just given, and touches nothing else. */
  lemma SupersededMeans(c: Controller, op: Op, ok: bool)
    requires !op.Withdrawing?
    ensures
      var (e, next) := Continued(c, op, false, ok);
      && e == c.(fates := e.fates, retirement := e.retirement)
      && e.retirement == (if Holds(op).Some? && c.retirement == Holds(op) then None else c.retirement)
      && (if op.Creating? && ok then e.fates == c.fates + [Live] && next == Some(Stray(|c.fates|))
          else next.None? && |e.fates| == |c.fates|
               && forall h :: 0 <= h < |c.fates| ==> e.fates[h] == if Holds(op) == Some(h) then Disposed else c.fates[h])
  {
  }

  /** A withdrawal detaches the host, settles what is asked, and goes on to dispose it; without a host a disposal is over. */
  lemma WithdrawalMeans(c: Controller, kind: Kind, current: bool, ok: bool)
    ensures
      var (e, next) := Continued(c, Withdrawing(kind), current, ok);
      && e == Detached(c).(retirement := e.retirement)
      && e.host.None? && e.token.None? && !e.accepted && e.prompt.None? && e.pending.None?
      && e.retirement == (if c.host.Some? then c.host else c.retirement)
      && next == (if c.host.Some? then Some(Retiring(kind, c.host.value)) else if kind.Disposing? then None else Some(Concluding))
  {
  }

  /** The current start takes a new token and gives it to the host that it asks for. */
  lemma CreationMeans(c: Controller, token: nat, ok: bool)
    requires !c.disposed
    ensures Continued(c, WaitingToCreate, true, ok)
            == (c.(token := Some(c.nextToken), nextToken := c.nextToken + 1, accepted := false), Some(Creating(c.nextToken)))
    ensures c.token == Some(token) ==>
              Continued(c, Creating(token), true, ok)
              == if ok then (c.(host := Some(|c.fates|), fates := c.fates + [Live]), Some(Opening(token)))
                 else (c.(token := None, status := NotReady), None)
  {
  }

  /** An opened conversation makes the channel ready; one that cannot be opened ends the host. */
  lemma OpeningMeans(c: Controller, token: nat, ok: bool)
    requires !c.disposed && c.token == Some(token)
    ensures
      var (e, next) := Continued(c, Opening(token), true, ok);
      && (e, next) == Continued(c, Renewing(token), true, ok)
      && (if ok then e == c.(accepted := true, status := Ready) && next.None?
          else e.host.None? && e.token.None? && !e.accepted && e.prompt.None? && e.pending.None?
               && (if c.host.Some? then next == Some(Failing(c.host.value)) && e.retirement == c.host && e.status == c.status && e.generation == c.generation
                   else next.None? && e.status == NotReady && e.generation == c.generation + 1))
  {
  }

  /** What ends a host leaves the channel not ready, in a new generation unless the operation began one. */
  lemma EndingMeans(c: Controller, h: nat, kind: Kind, ok: bool)
    requires !c.disposed && h < |c.fates|
    ensures
      var gone := c.(fates := c.fates[h := Disposed], retirement := if c.retirement == Some(h) then None else c.retirement);
      var over := gone.(status := NotReady, generation := c.generation + 1);
      && Continued(c, Failing(h), true, ok) == (over, None)
      && Continued(c, Cancelling(h), true, ok) == (gone.(status := NotReady), None)
      && Continued(c, Stray(h), true, ok) == (gone, None)
      && Continued(c, Retiring(kind, h), true, ok) == (if kind.Choosing? then (gone, Some(Concluding)) else (over, None))
      && Continued(c, Concluding, true, ok) == (c.(status := NotReady, generation := c.generation + 1), None)
  {
  }

  // ---------------------------------------------------------------------------------------------
  // Calls
  // ---------------------------------------------------------------------------------------------

  /** A start is refused while the channel is busy, does nothing where it is ready, and otherwise supersedes what is in flight. */
  lemma StartMeans(c: Controller)
    ensures Enabled(c, Start) <==> !c.disposed && !c.status.Running? && !c.status.Starting?
    ensures Enabled(c, Start) ==>
              var d := Apply(c, Start);
              if c.status.Ready? && c.host.Some? && c.accepted then d == c
              else
                d == c.(active := Some(WaitingToCreate), status := Starting,
                        stale := c.stale + if c.active.Some? then [c.active.value] else [])
  {
    assert c.stale + [] == c.stale;
  }

  /** A new conversation begins a generation, in which nothing asked before can be answered. */
  lemma NewSessionMeans(c: Controller)
    requires Enabled(c, NewSession)
    ensures
      var d := Apply(c, NewSession);
      && d.generation == c.generation + 1 && d.status == Starting && !d.accepted && d.prompt.None? && d.pending.None?
      && d.host == c.host && d.token == c.token && d.active == Some(Renewing(c.token.value))
      && d.stale == c.stale + if c.active.Some? then [c.active.value] else []
  {
    assert c.stale + [] == c.stale;
  }

  /**
    A conversation can be renewed, and a prompt sent, exactly on a ready channel whose host holds an accepted one; a
    prompt can be cancelled exactly while it runs.
   */
  lemma Available(c: Controller)
    ensures
      var serves := !c.disposed && c.host.Some? && c.token.Some? && c.accepted;
      && (Enabled(c, NewSession) <==> serves && c.status == Ready)
      && (Enabled(c, SendPrompt) <==> serves && c.status == Ready && c.prompt.None?)
      && (Enabled(c, CancelPrompt) <==> !c.disposed && c.host.Some? && c.prompt.Some? && c.status == Running)
  {
  }

  lemma PromptMeans(c: Controller)
    ensures Enabled(c, SendPrompt) ==>
              var d := Apply(c, SendPrompt);
              d == c.(prompt := Some(Prompt(c.generation, c.token.value)), status := Running)
    ensures Enabled(c, CancelPrompt) ==>
              var d := Apply(c, CancelPrompt);
              && d.host.None? && d.token.None? && !d.accepted && d.prompt.None? && d.pending.None?
              && d.generation == c.generation + 1 && d.retirement == c.host && d.active == Some(Cancelling(c.host.value))
              && d.stale == c.stale + (if c.active.Some? then [c.active.value] else []) && d.status == c.status
  {
    assert c.stale + [] == c.stale;
  }

  /** A prompt that ended well makes the channel ready again; one that failed ends the host. Only the current one counts. */
  lemma FinishMeans(c: Controller, prompt: Prompt, succeeded: bool)
    ensures Enabled(c, FinishPrompt(prompt, succeeded)) <==>
              c.prompt == Some(prompt) && !c.disposed && c.token == Some(prompt.token) && c.generation == prompt.generation
    ensures Enabled(c, FinishPrompt(prompt, succeeded)) ==>
              var d := Apply(c, FinishPrompt(prompt, succeeded));
              && d.prompt.None? && d.pending.None?
              && (if succeeded then d.status == Ready && d.host == c.host && d.token == c.token && d.accepted == c.accepted && d.active == c.active
                  else d.host.None? && d.token.None? && !d.accepted
                       && (if c.host.Some? then d.active == Some(Failing(c.host.value)) && d.retirement == c.host
                           else d.active.None? && d.status == NotReady && d.generation == c.generation + 1))
  {
  }

  /** The exit of the current host leaves a channel that can be started again, in a new generation. */
  lemma ExitMeans(c: Controller, token: nat)
    ensures Enabled(c, HostExit(token)) <==> !c.disposed && c.token == Some(token)
    ensures Enabled(c, HostExit(token)) ==>
              var d := Apply(c, HostExit(token));
              && d.host.None? && d.token.None? && !d.accepted && d.prompt.None? && d.pending.None?
              && d.status == NotReady && d.generation == c.generation + 1 && d.active == c.active && d.stale == c.stale
              && d.retirement == c.retirement
              && |d.fates| == |c.fates|
              && forall h :: 0 <= h < |c.fates| ==> d.fates[h] == if c.host == Some(h) then Exited else c.fates[h]
  {
  }

  // ---------------------------------------------------------------------------------------------
  // Permissions
  // ---------------------------------------------------------------------------------------------

  /**
    A request is shown exactly if it comes from the current host, during the prompt of this generation, and offers
    something valid. It then takes the place of the one before, which is cancelled; a request that comes at any other time
    disturbs nothing.
   */
  lemma RequestMeans(c: Controller, token: nat, valid: bool, options: map<nat, string>)
    ensures
      var d := Requested(c, token, valid, options);
      var heard := !c.disposed && c.token == Some(token) && c.status == Running && c.prompt.Some? && c.prompt.value.generation == c.generation;
      && (!heard ==> d == c)
      && (heard ==>
            && d.answers == c.answers + (if c.pending.Some? then [Answer(c.pending.value.id, Cancelled)] else [])
            && d == c.(pending := d.pending, offered := d.offered, answers := d.answers)
            && (if valid && options != map[] then
                  d.pending == Some(Permission(|c.offered|, c.generation, options)) && d.offered == c.offered + [options.Values]
                else d.pending.None? && d.offered == c.offered))
      && Enabled(c, RequestPermission(token, valid, options)) && Apply(c, RequestPermission(token, valid, options)) == d
  {
    assert c.answers + [] == c.answers;
  }

  /** An answer counts exactly for the pending request, in its own and the current generation, and for an option it offered. */
  lemma ResponseMeans(c: Controller, id: nat, generation: nat, option: nat)
    ensures Enabled(c, RespondPermission(id, generation, option)) <==>
              && !c.disposed && c.pending.Some? && c.pending.value.id == id
              && c.pending.value.generation == generation == c.generation && option in c.pending.value.options.Keys
    ensures Enabled(c, RespondPermission(id, generation, option)) ==>
              var d := Apply(c, RespondPermission(id, generation, option));
              d == c.(pending := None, answers := c.answers + [Answer(id, Selected(c.pending.value.options[option]))])
    ensures Enabled(c, AbortPermission(id)) <==> c.pending.Some? && c.pending.value.id == id
    ensures Enabled(c, AbortPermission(id)) ==>
              Apply(c, AbortPermission(id)) == c.(pending := None, answers := c.answers + [Answer(id, Cancelled)])
  {
  }

  /** Generations only go up, so that nothing of an older one is taken for the current. */
  lemma GenerationsRise(c: Controller, step: Step)
    requires Enabled(c, step)
    ensures c.generation <= Apply(c, step).generation <= c.generation + 1
    ensures c.disposed ==> Apply(c, step).disposed
  {
    hide Settle;
    if step.Continue? { ContinuedGeneration(c, OpAt(c, step.which).value, step.which.Active? && !c.disposed, step.ok); }
  }

  lemma ContinuedGeneration(c: Controller, op: Op, current: bool, ok: bool)
    ensures var e := Continued(c, op, current, ok).0;
      c.generation <= e.generation <= c.generation + 1 && e.disposed == c.disposed
  {
    hide Settle;
  }

  /** The awaiters of a retirement resume only once it is over, and the first of them first. */
  lemma ResumptionMeans(c: Controller, which: Which, ok: bool)
    ensures Enabled(c, Continue(which, ok)) <==>
              OpAt(c, which).Some?
              && (OpAt(c, which).value.WaitingToCreate? || OpAt(c, which).value.Withdrawing? ==>
                    c.retirement.None?
                    && forall i :: 0 <= i < (if which.Active? then |c.stale| else which.i) ==>
                         !c.stale[i].WaitingToCreate? && !c.stale[i].Withdrawing?)
  {
  }
}
