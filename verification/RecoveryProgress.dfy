/**
  What a recovery pass does (integrations/hermes-hype-comms/adapter.py:1650-1725): which wakes it dispatches,
  which it skips and why, what leaves the recovery set, and how long a failed conversation waits.
 */
module RecoveryProgress {
  import opened Wrappers
  import opened Decimals
  import opened CheckpointFile
  import opened Checkpoint
  import opened RecoveryOrder

  // ---------------------------------------------------------------------------------------------
  // The fate of every item
  // ---------------------------------------------------------------------------------------------

  /** The wake is stored and nobody has reserved it. */
  predicate Ready(p: Pool, id: string)
  {
    id in p.wakes && id !in p.admitted
  }

  predicate Waiting(p: Pool, conversation: string, now: nat)
  {
    conversation in p.deadlines && p.deadlines[conversation] > now
  }

  /** From this item on the pass leaves its conversation alone. */
  predicate HoldsBack(item: Item, turn: Turn, fate: Fate)
  {
    || (fate.Dispatched? && turn.outcome.Retryable?)
    || (Ready(fate.before, item.id) && Waiting(fate.before, item.wake.conversationId, turn.now))
  }

  predicate HeldEarlier(items: seq<Item>, turns: seq<Turn>, fates: seq<Fate>, k: nat)
    requires k <= |fates| <= |items| && |turns| == |items| && k < |items|
  {
    exists j :: 0 <= j < k && items[j].wake.conversationId == items[k].wake.conversationId
                && HoldsBack(items[j], turns[j], fates[j])
  }

  lemma VisitBlocks(p: Pool, item: Item, blocked: set<string>, turn: Turn)
    ensures
      var (_, b, _, fate) := Visit(p, item, blocked, turn);
      && fate.before == p
      && b == blocked + (if HoldsBack(item, turn, fate) then {item.wake.conversationId} else {})
      && (fate.Gone? <==> !Ready(p, item.id))
      && (fate.Dispatched? <==>
            Ready(p, item.id) && item.wake.conversationId !in blocked && !Waiting(p, item.wake.conversationId, turn.now))
      && (fate.Dispatched? ==> fate.failed == turn.outcome.Retryable?)
  {
    hide HappenAll;
  }

  /** The pool that an item was judged by decides its fate, together with what its conversation went through. */
  predicate FateOk(items: seq<Item>, blocked: set<string>, turns: seq<Turn>, fates: seq<Fate>, k: nat)
    requires k < |fates| <= |items| && |turns| == |items|
  {
    var item, fate := items[k], fates[k];
    && (fate.Gone? <==> !Ready(fate.before, item.id))
    && (fate.Dispatched? <==>
          && Ready(fate.before, item.id)
          && item.wake.conversationId !in blocked
          && !HeldEarlier(items, turns, fates, k)
          && !Waiting(fate.before, item.wake.conversationId, turns[k].now))
    && (fate.Dispatched? ==> fate.failed == turns[k].outcome.Retryable?)
  }

  lemma {:induction false} FateIs(p: Pool, items: seq<Item>, blocked: set<string>, turns: seq<Turn>, k: nat)
    requires |turns| == |items| && k < |Pass(p, items, blocked, turns).1|
    ensures |Pass(p, items, blocked, turns).1| <= |items|
    ensures FateOk(items, blocked, turns, Pass(p, items, blocked, turns).1, k)
    ensures Pass(p, items, blocked, turns).1[0].before == p
    decreases |items|
  {
    hide Visit, HoldsBack, Ready, Waiting;
    PassLength(p, items, blocked, turns);
    VisitBlocks(p, items[0], blocked, turns[0]);
    var (q, b, goes, fate) := Visit(p, items[0], blocked, turns[0]);
    if k > 0 {
      FateIs(q, items[1..], b, turns[1..], k - 1);
      HeldShifts(items, turns, fate, Pass(q, items[1..], b, turns[1..]).1, k);
    }
  }

  lemma HeldShifts(items: seq<Item>, turns: seq<Turn>, fate: Fate, rest: seq<Fate>, k: nat)
    requires 0 < k <= |rest| < |items| == |turns|
    ensures HeldEarlier(items, turns, [fate] + rest, k) <==>
            (items[0].wake.conversationId == items[k].wake.conversationId && HoldsBack(items[0], turns[0], fate))
            || HeldEarlier(items[1..], turns[1..], rest, k - 1)
  {
    hide HoldsBack;
    var fates := [fate] + rest;
    assert forall j :: 0 <= j < k - 1 ==> items[1..][j] == items[j + 1] && turns[1..][j] == turns[j + 1] && rest[j] == fates[j + 1];
    assert forall j :: 1 <= j < k ==> items[j] == items[1..][j - 1] && turns[j] == turns[1..][j - 1] && fates[j] == rest[j - 1];
    assert items[k] == items[1..][k - 1];
  }

  lemma {:induction false} ReachesAll(p: Pool, items: seq<Item>, blocked: set<string>, turns: seq<Turn>)
    requires |turns| == |items|
    ensures var fates := Pass(p, items, blocked, turns).1; |fates| == |items| || Aborted(fates, turns)
    decreases |items|
  {
    if items != [] {
      hide HappenAll;
      PassLength(p, items, blocked, turns);
      var (q, b, goes, fate) := Visit(p, items[0], blocked, turns[0]);
      if goes { ReachesAll(q, items[1..], b, turns[1..]); }
    }
  }

  /**
    Over any run of passes: every stored wake of the recovery set has its turn in the next pass, unless that
    is aborted before. It is dispatched if and only if at its turn it is still stored and unreserved, and its own
    conversation has neither failed in this pass nor a deadline ahead of the clock.
   */
  lemma {:induction false} EveryWakeHasItsTurn(p: Pool, rounds: seq<Round>, last: Round, id: string) returns (k: nat)
    requires LegalRounds(p, rounds) && |last.turns| == |last.items|
    requires var start := Opened(AfterRounds(p, rounds), last);
             Snapshot(start, last.items) && id in start.wakes && id in start.remaining
    ensures
      var start := Opened(AfterRounds(p, rounds), last);
      var fates := Pass(start, last.items, {}, last.turns).1;
      && k < |last.items| && last.items[k] == Item(id, start.wakes[id])
      && |fates| <= |last.items|
      && (if k < |fates| then FateOk(last.items, {}, last.turns, fates, k) else Aborted(fates, last.turns))
  {
    hide Pass, HappenAll, FateOk;
    var start := Opened(AfterRounds(p, rounds), last);
    assert Item(id, start.wakes[id]) in last.items;
    k :| 0 <= k < |last.items| && last.items[k] == Item(id, start.wakes[id]);
    PassLength(start, last.items, {}, last.turns);
    ReachesAll(start, last.items, {}, last.turns);
    if k < |Pass(start, last.items, {}, last.turns).1| { FateIs(start, last.items, {}, last.turns, k); }
  }

  // ---------------------------------------------------------------------------------------------
  // What leaves
  // ---------------------------------------------------------------------------------------------

  predicate Returns(events: seq<Event>, id: string)
  {
    exists i :: 0 <= i < |events| && (events[i] == Rejoined(id) || (events[i].Retained? && events[i].id == id && events[i].joins))
  }

  predicate Completes(events: seq<Event>, id: string)
  {
    exists i :: 0 <= i < |events| && events[i] == Event.Completed(id)
  }

  lemma {:induction false} EventsKeep(p: Pool, events: seq<Event>, id: string)
    ensures var q := HappenAll(p, events);
      && (id in p.remaining ==> id in q.remaining)
      && (!Returns(events, id) && id in q.remaining ==> id in p.remaining)
      && (!Completes(events, id) && id in p.wakes ==> id in q.wakes && q.wakes[id] == p.wakes[id])
    decreases |events|
  {
    if events != [] {
      hide Order, Canonical;
      var q, rest := Happen(p, events[0]), events[1..];
      EventsKeep(q, rest, id);
      assert forall i :: 0 <= i < |rest| ==> rest[i] == events[i + 1];
    }
  }

  /** What other tasks do to the pool, one at a time and in order. */
  lemma EventsMean(p: Pool, id: string, wake: Wake, joins: bool, rest: seq<Event>, e: Event)
    ensures Happen(p, Reserved(id)) == p.(admitted := p.admitted + {id})
    ensures Happen(p, Released(id)) == p.(admitted := p.admitted - {id})
    ensures Happen(p, Event.Completed(id)) == p.(wakes := Without(p.wakes, id), admitted := p.admitted - {id})
    ensures var q := Happen(p, Rejoined(id));
      id in q.remaining && (id in p.remaining ==> q == p)
      && (id !in p.remaining ==> q == p.(remaining := p.remaining + {id}, rejoined := p.rejoined + {id}))
    ensures id !in p.wakes && IsLast(p.wakes, wake) ==>
              var q := Happen(p, Event.Retained(id, wake, joins));
              id in q.wakes && q.wakes[id] == wake && id in q.renewed && (joins ==> id in q.remaining)
              && q.wakes - {id} == p.wakes && (!joins ==> q.remaining == p.remaining)
    ensures id in p.wakes ==> Happen(p, Event.Retained(id, wake, joins)) == p
    ensures HappenAll(p, []) == p && HappenAll(p, [e] + rest) == HappenAll(Happen(p, e), rest)
  {
    assert ([e] + rest)[1..] == rest;
    if id !in p.wakes { assert p.wakes[id := wake] - {id} == p.wakes; }
  }

  /** A wake whose dispatch was declined and which was then retired is no longer stored. */
  lemma RetiredIsGone(p: Pool, item: Item, blocked: set<string>, turn: Turn)
    ensures
      var (q, _, goes, fate) := Visit(p, item, blocked, turn);
      && (fate.Dispatched? && turn.outcome == Declined(true) ==> item.id !in q.wakes && goes)
      && (fate.Dispatched? && turn.outcome == Handed ==> q.wakes == HappenAll(p, turn.during).wakes && goes)
      && (!goes <==> fate.Dispatched? && (turn.outcome.Fatal? || turn.outcome == Declined(false)))
  {
    hide HappenAll;
  }

  /**
    A pass that ran to its end leaves the recovery set with stored wakes only, and deadlines only for their
    conversations; a pass that was aborted tidies nothing. The next one begins with an empty history.
   */
  lemma RoundEnds(p: Pool, round: Round)
    requires |round.turns| == |round.items|
    ensures
      var (q, fates) := Pass(Opened(p, round), round.items, {}, round.turns);
      var closed := Closed(p, round);
      && Opened(p, round).rejoined == {} && Opened(p, round).renewed == {}
      && Opened(p, round) == HappenAll(p, round.between).(rejoined := {}, renewed := {})
      && (Aborted(fates, round.turns) ==> closed == q)
      && (!Aborted(fates, round.turns) ==>
            && closed == q.(remaining := closed.remaining, deadlines := closed.deadlines)
            && closed.remaining == q.remaining * q.wakes.Keys
            && (forall c :: c in closed.deadlines <==> c in q.deadlines && StillPending(q, c))
            && (forall c :: c in closed.deadlines ==> closed.deadlines[c] == q.deadlines[c]))
  {
    hide Pass, HappenAll, Tidied, StillPending, Aborted;
    var q := Pass(Opened(p, round), round.items, {}, round.turns).0;
    forall c ensures c in Tidied(q).deadlines <==> c in q.deadlines && StillPending(q, c) { TidyKeepsDeadline(q, c); }
    forall c | c in Tidied(q).deadlines ensures Tidied(q).deadlines[c] == q.deadlines[c] { TidyKeepsDeadline(q, c); }
    TidyShape(q);
  }

  lemma TidyShape(q: Pool)
    ensures Tidied(q) == q.(remaining := q.remaining * q.wakes.Keys, deadlines := Tidied(q).deadlines)
  {
  }

  /** The item leaves the recovery set: it was gone or reserved, it was handed over, or it was retired. */
  predicate Leaves(turn: Turn, fate: Fate)
  {
    fate.Gone? || (fate.Dispatched? && (turn.outcome.Handed? || turn.outcome == Declined(true)))
  }

  predicate LeavesIn(items: seq<Item>, turns: seq<Turn>, fates: seq<Fate>, id: string)
    requires |fates| <= |items| == |turns|
  {
    exists k :: 0 <= k < |fates| && items[k].id == id && Leaves(turns[k], fates[k])
  }

  predicate NeverReturns(turns: seq<Turn>, id: string)
  {
    forall k :: 0 <= k < |turns| ==> !Returns(turns[k].during, id)
  }

  lemma VisitLeaves(p: Pool, item: Item, blocked: set<string>, turn: Turn, id: string)
    ensures
      var (q, _, _, fate) := Visit(p, item, blocked, turn);
      && (id in p.remaining && !(item.id == id && Leaves(turn, fate)) ==> id in q.remaining)
      && (item.id == id && Leaves(turn, fate) ==> id !in q.remaining)
      && (!Returns(turn.during, id) && id in q.remaining ==> id in p.remaining)
  {
    hide HappenAll, Returns;
    EventsKeep(p, turn.during, id);
  }

  /**
    In a pass a wake leaves the recovery set only as one that was gone or reserved at its turn, was handed over, or
    was retired; and every such one leaves it, unless another task adds it again.
   */
  lemma {:induction false} LeavesIff(p: Pool, items: seq<Item>, blocked: set<string>, turns: seq<Turn>, id: string)
    requires |turns| == |items|
    ensures var (q, fates) := Pass(p, items, blocked, turns);
      && |fates| <= |items|
      && (id in p.remaining && id !in q.remaining ==> LeavesIn(items, turns, fates, id))
      && (NeverReturns(turns, id) && id in q.remaining ==> id in p.remaining)
      && (NeverReturns(turns, id) && LeavesIn(items, turns, fates, id) ==> id !in q.remaining)
    decreases |items|
  {
    hide Visit, Leaves, Returns;
    PassLength(p, items, blocked, turns);
    if items != [] {
      VisitLeaves(p, items[0], blocked, turns[0], id);
      var (q, b, goes, fate) := Visit(p, items[0], blocked, turns[0]);
      if goes {
        LeavesIff(q, items[1..], b, turns[1..], id);
        var rest := Pass(q, items[1..], b, turns[1..]).1;
        LeavesShifts(items, turns, fate, rest, id);
        assert NeverReturns(turns, id) ==> NeverReturns(turns[1..], id);
      } else {
        LeavesShifts(items, turns, fate, [], id);
      }
    }
  }

  lemma LeavesShifts(items: seq<Item>, turns: seq<Turn>, fate: Fate, rest: seq<Fate>, id: string)
    requires |rest| < |items| == |turns|
    ensures LeavesIn(items, turns, [fate] + rest, id) <==>
            (items[0].id == id && Leaves(turns[0], fate)) || LeavesIn(items[1..], turns[1..], rest, id)
  {
    hide Leaves;
    var fates := [fate] + rest;
    assert forall j :: 0 <= j < |rest| ==> items[1..][j] == items[j + 1] && turns[1..][j] == turns[j + 1] && rest[j] == fates[j + 1];
    assert forall j :: 1 <= j < |fates| ==> items[j] == items[1..][j - 1] && turns[j] == turns[1..][j - 1] && fates[j] == rest[j - 1];
  }

  predicate NeverCompletes(turns: seq<Turn>, id: string)
  {
    forall k :: 0 <= k < |turns| ==> !Completes(turns[k].during, id)
  }

  predicate RetiredIn(items: seq<Item>, turns: seq<Turn>, fates: seq<Fate>, id: string)
    requires |fates| <= |items| == |turns|
  {
    exists k :: 0 <= k < |fates| && items[k].id == id && fates[k].Dispatched? && turns[k].outcome == Declined(true)
  }

  /** A pass takes no wake out of the store but one whose dispatch was declined and which was then retired. */
  lemma {:induction false} PassKeepsWakes(p: Pool, items: seq<Item>, blocked: set<string>, turns: seq<Turn>, id: string)
    requires |turns| == |items| && id in p.wakes && NeverCompletes(turns, id)
    ensures var (q, fates) := Pass(p, items, blocked, turns);
      && |fates| <= |items|
      && (!RetiredIn(items, turns, fates, id) ==> id in q.wakes && q.wakes[id] == p.wakes[id])
    decreases |items|
  {
    hide HappenAll, Completes;
    PassLength(p, items, blocked, turns);
    if items != [] {
      EventsKeep(p, turns[0].during, id);
      var (q, b, goes, fate) := Visit(p, items[0], blocked, turns[0]);
      var fates := Pass(p, items, blocked, turns).1;
      if !RetiredIn(items, turns, fates, id) {
        assert fates[0] == fate;
        if goes {
          assert NeverCompletes(turns[1..], id);
          PassKeepsWakes(q, items[1..], b, turns[1..], id);
          assert forall j :: 1 <= j < |fates| ==>
                   items[j] == items[1..][j - 1] && turns[j] == turns[1..][j - 1] && fates[j] == fates[1..][j - 1];
        }
      }
    }
  }

  /** The pool that an item is judged by is the one that the pass over the earlier items leaves. */
  lemma {:induction false} JudgedByTheirTurn(p: Pool, items: seq<Item>, blocked: set<string>, turns: seq<Turn>, k: nat)
    requires |turns| == |items| && k < |Pass(p, items, blocked, turns).1|
    ensures |Pass(p, items, blocked, turns).1| <= |items|
    ensures Pass(p, items, blocked, turns).1[k].before == Pass(p, items[..k], blocked, turns[..k]).0
    ensures Pass(p, items[..k], blocked, turns[..k]).1 == Pass(p, items, blocked, turns).1[..k]
    decreases |items|
  {
    hide Visit;
    PassLength(p, items, blocked, turns);
    VisitBlocks(p, items[0], blocked, turns[0]);
    if k > 0 {
      var (q, b, goes, fate) := Visit(p, items[0], blocked, turns[0]);
      JudgedByTheirTurn(q, items[1..], b, turns[1..], k - 1);
      assert items[..k][1..] == items[1..][..k - 1] && turns[..k][1..] == turns[1..][..k - 1];
      assert items[..k][0] == items[0] && turns[..k][0] == turns[0];
    }
  }

  // ---------------------------------------------------------------------------------------------
  // Deadlines
  // ---------------------------------------------------------------------------------------------

  predicate SameDeadline(p: Pool, q: Pool, conversation: string)
  {
    (conversation in p.deadlines <==> conversation in q.deadlines)
    && (conversation in p.deadlines ==> p.deadlines[conversation] == q.deadlines[conversation])
  }

  predicate FailsIn(items: seq<Item>, turns: seq<Turn>, fates: seq<Fate>, conversation: string)
    requires |fates| <= |items| == |turns|
  {
    exists k :: 0 <= k < |fates| && items[k].wake.conversationId == conversation
                && fates[k].Dispatched? && turns[k].outcome.Retryable?
  }

  lemma VisitDeadline(p: Pool, item: Item, blocked: set<string>, turn: Turn, c: string)
    ensures
      var (q, b, _, fate) := Visit(p, item, blocked, turn);
      var fails := item.wake.conversationId == c && fate.Dispatched? && turn.outcome.Retryable?;
      && (if fails then c in q.deadlines && q.deadlines[c] == turn.outcome.at + turn.outcome.delay && c in b && c !in blocked
          else SameDeadline(p, q, c))
      && blocked <= b
  {
    DeadlinesAreOurs(p, turn.during);
  }

  lemma FailsShifts(items: seq<Item>, turns: seq<Turn>, fate: Fate, rest: seq<Fate>, c: string)
    requires |rest| < |items| == |turns|
    ensures FailsIn(items, turns, [fate] + rest, c) <==>
            (items[0].wake.conversationId == c && fate.Dispatched? && turns[0].outcome.Retryable?)
            || FailsIn(items[1..], turns[1..], rest, c)
  {
    var fates := [fate] + rest;
    assert forall j :: 0 <= j < |rest| ==> items[1..][j] == items[j + 1] && turns[1..][j] == turns[j + 1] && rest[j] == fates[j + 1];
    assert forall j :: 1 <= j < |fates| ==> items[j] == items[1..][j - 1] && turns[j] == turns[1..][j - 1] && fates[j] == rest[j - 1];
  }

  /** Only a retryable failure of the conversation itself moves its deadline. */
  lemma {:induction false} DeadlineKeeps(p: Pool, items: seq<Item>, blocked: set<string>, turns: seq<Turn>, c: string)
    requires |turns| == |items|
    ensures var (q, fates) := Pass(p, items, blocked, turns);
      && |fates| <= |items|
      && (c in blocked || !FailsIn(items, turns, fates, c) ==> SameDeadline(p, q, c))
    decreases |items|
  {
    hide Visit, FailsIn;
    PassLength(p, items, blocked, turns);
    if items != [] {
      VisitDeadline(p, items[0], blocked, turns[0], c);
      var (q, b, goes, fate) := Visit(p, items[0], blocked, turns[0]);
      if goes {
        DeadlineKeeps(q, items[1..], b, turns[1..], c);
        FailsShifts(items, turns, fate, Pass(q, items[1..], b, turns[1..]).1, c);
      } else {
        FailsShifts(items, turns, fate, [], c);
        assert [fate] + [] == [fate];
      }
    }
  }

  /** Such a failure puts the deadline at its own time plus its delay, and the rest of the pass leaves it there. */
  lemma {:induction false} FailureSetsDeadline(
    p: Pool, items: seq<Item>, blocked: set<string>, turns: seq<Turn>, k: nat)
    requires |turns| == |items| && k < |Pass(p, items, blocked, turns).1|
    ensures |Pass(p, items, blocked, turns).1| <= |items|
    ensures
      var (q, fates) := Pass(p, items, blocked, turns);
      var c := items[k].wake.conversationId;
      fates[k].Dispatched? && turns[k].outcome.Retryable? ==>
        c in q.deadlines && q.deadlines[c] == turns[k].outcome.at + turns[k].outcome.delay
    decreases |items|
  {
    hide Visit;
    PassLength(p, items, blocked, turns);
    var c := items[k].wake.conversationId;
    VisitDeadline(p, items[0], blocked, turns[0], c);
    var (q, b, goes, fate) := Visit(p, items[0], blocked, turns[0]);
    if k > 0 {
      FailureSetsDeadline(q, items[1..], b, turns[1..], k - 1);
    } else if goes {
      DeadlineKeeps(q, items[1..], b, turns[1..], c);
    }
  }

  /** No wake is dispatched before the deadline that its conversation brought into the pass. */
  lemma {:induction false} DeadlineIsRespected(p: Pool, items: seq<Item>, turns: seq<Turn>, j: nat)
    requires |turns| == |items| && j < |Pass(p, items, {}, turns).1|
    ensures |Pass(p, items, {}, turns).1| <= |items|
    ensures Pass(p, items, {}, turns).1[j].Dispatched? ==> !Waiting(p, items[j].wake.conversationId, turns[j].now)
  {
    hide Pass;
    FateIs(p, items, {}, turns, j);
    JudgedByTheirTurn(p, items, {}, turns, j);
    var fates := Pass(p, items, {}, turns).1;
    if fates[j].Dispatched? { DeadlineKeeps(p, items[..j], {}, turns[..j], items[j].wake.conversationId); }
  }

  /** The conversation has a stored wake in the recovery set. */
  predicate StillPending(p: Pool, conversation: string)
  {
    exists id :: id in p.remaining && id in p.wakes && p.wakes[id].conversationId == conversation
  }

  lemma TidyKeepsDeadline(p: Pool, c: string)
    ensures Tidied(p).wakes == p.wakes && Tidied(p).remaining == p.remaining * p.wakes.Keys
    ensures StillPending(p, c) <==> StillPending(Tidied(p), c)
    ensures c in Tidied(p).deadlines <==> c in p.deadlines && StillPending(p, c)
    ensures c in Tidied(p).deadlines ==> Tidied(p).deadlines[c] == p.deadlines[c]
  {
    var q := Tidied(p);
    if StillPending(p, c) {
      var id :| id in p.remaining && id in p.wakes && p.wakes[id].conversationId == c;
      assert id in q.remaining;
    }
  }

  lemma OpeningKeepsDeadline(p: Pool, round: Round, c: string)
    ensures SameDeadline(p, Opened(p, round), c)
  {
    DeadlinesAreOurs(p, round.between);
  }

  /** Rounds in which the conversation does not fail again and never runs out of pending wakes. */
  predicate Patient(p: Pool, rounds: seq<Round>, c: string)
    requires LegalRounds(p, rounds)
    decreases |rounds|
  {
    rounds == []
    || (&& var (_, fates) := Pass(Opened(p, rounds[0]), rounds[0].items, {}, rounds[0].turns);
        && |fates| <= |rounds[0].items|
        && !FailsIn(rounds[0].items, rounds[0].turns, fates, c)
        && StillPending(Closed(p, rounds[0]), c)
        && Patient(Closed(p, rounds[0]), rounds[1..], c))
  }

  lemma ClosingKeepsDeadline(p: Pool, round: Round, c: string)
    requires |round.turns| == |round.items| && StillPending(Closed(p, round), c)
    ensures SameDeadline(Pass(Opened(p, round), round.items, {}, round.turns).0, Closed(p, round), c)
  {
    hide Pass, Aborted, Opened, Tidied, StillPending;
    TidyKeepsDeadline(Pass(Opened(p, round), round.items, {}, round.turns).0, c);
  }

  lemma RoundKeepsDeadline(p: Pool, round: Round, c: string)
    requires |round.turns| == |round.items| && StillPending(Closed(p, round), c)
    requires var (_, fates) := Pass(Opened(p, round), round.items, {}, round.turns);
             |fates| <= |round.items| && !FailsIn(round.items, round.turns, fates, c)
    ensures SameDeadline(p, Closed(p, round), c)
  {
    hide Pass, Aborted, FailsIn, Opened, Tidied, StillPending;
    OpeningKeepsDeadline(p, round, c);
    DeadlineKeeps(Opened(p, round), round.items, {}, round.turns, c);
    TidyKeepsDeadline(Pass(Opened(p, round), round.items, {}, round.turns).0, c);
  }

  lemma {:induction false} RoundsKeepDeadline(p: Pool, rounds: seq<Round>, c: string)
    requires LegalRounds(p, rounds) && Patient(p, rounds, c)
    ensures SameDeadline(p, AfterRounds(p, rounds), c)
    decreases |rounds|
  {
    hide Closed, FailsIn, StillPending, Snapshot;
    if rounds != [] {
      RoundKeepsDeadline(p, rounds[0], c);
      RoundsKeepDeadline(Closed(p, rounds[0]), rounds[1..], c);
    }
  }

  /**
    A retryable failure is honoured: in any later pass nothing of the conversation is dispatched before the
    time of the failure plus its delay, as long as the conversation has not failed again or run out of wakes.
   */
  lemma {:induction false} RetryIsHonoured(
    p: Pool, failed: Round, k: nat, rounds: seq<Round>, last: Round, j: nat)
    requires |failed.turns| == |failed.items|
    requires var fates := Pass(Opened(p, failed), failed.items, {}, failed.turns).1;
             k < |fates| <= |failed.items| && fates[k].Dispatched? && failed.turns[k].outcome.Retryable?
    requires var c := failed.items[k].wake.conversationId;
             StillPending(Closed(p, failed), c)
             && LegalRounds(Closed(p, failed), rounds) && Patient(Closed(p, failed), rounds, c)
    requires |last.turns| == |last.items|
    requires var fates := Pass(Opened(AfterRounds(Closed(p, failed), rounds), last), last.items, {}, last.turns).1;
             j < |fates| <= |last.items| && fates[j].Dispatched?
             && last.items[j].wake.conversationId == failed.items[k].wake.conversationId
    ensures last.turns[j].now >= failed.turns[k].outcome.at + failed.turns[k].outcome.delay
  {
    hide Pass, Closed, Opened, Snapshot, StillPending, Patient, LegalRounds;
    var c := failed.items[k].wake.conversationId;
    FailureSetsDeadline(Opened(p, failed), failed.items, {}, failed.turns, k);
    ClosingKeepsDeadline(p, failed, c);
    RoundsKeepDeadline(Closed(p, failed), rounds, c);
    var q := AfterRounds(Closed(p, failed), rounds);
    OpeningKeepsDeadline(q, last, c);
    DeadlineIsRespected(Opened(q, last), last.items, last.turns, j);
  }
}
