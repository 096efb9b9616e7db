/**
  `_replay_pending_ambient_wakes` (integrations/hermes-hype-comms/adapter.py:1650-1725). One pass
  walks a sorted snapshot of the recovery set; while a dispatch is suspended, watch, model turns and
  other tasks change the wakes, the reservations and the recovery set under it.
 */
module RecoveryOrder {
  import opened Wrappers
  import opened Decimals
  import opened CheckpointFile
  import opened Checkpoint
  import Migration = CheckpointMigration

  /**
    `rejoined` and `renewed` are the history of this pass: the ids that came back into the recovery set
    while it ran, and the ids that were retained as new while it ran.
   */
  datatype Pool = Pool(
    wakes: map<string, Wake>,
    admitted: set<string>,
    remaining: set<string>,
    deadlines: map<string, nat>,
    rejoined: set<string>,
    renewed: set<string>)

  /** What other tasks do while a dispatch is suspended. */
  datatype Event =
    | Retained(id: string, wake: Wake, joins: bool)
    | Rejoined(id: string)
    | Reserved(id: string)
    | Released(id: string)
    | Completed(id: string)

  /** How one dispatch ends; `at` is the clock when its failure is handled. */
  datatype Outcome = Handed | Declined(stored: bool) | Retryable(at: nat, delay: nat) | Fatal

  /** The environment of one item of the pass; `now` is the clock at its deadline check. */
  datatype Turn = Turn(now: nat, during: seq<Event>, outcome: Outcome)

  /** What became of an item, with the pool it was judged by. */
  datatype Fate = Gone(before: Pool) | Blocked(before: Pool) | Dispatched(before: Pool, failed: bool)

  datatype Item = Item(id: string, wake: Wake)

  function Order(w: Wake): nat
  {
    Num(w.recoveryOrder)
  }

  /** The wake carries an order above every coexisting one, as `_retain_ambient_wake` gives it. */
  predicate IsLast(wakes: map<string, Wake>, wake: Wake)
  {
    Canonical(wake.recoveryOrder) && forall m :: m in wakes ==> Order(wakes[m]) < Order(wake)
  }

  lemma TargetIsLast(wakes: map<string, Wake>, id: string, event: Wake)
    requires ValidWakes(wakes) && id !in wakes
    ensures IsLast(wakes, Target(wakes, id, event))
  {
    hide ValidWakes;
    NewWakeIsLast(wakes, id, event);
    DecimalRoundTrip(HighestOrder(wakes) + 1);
  }

  function Happen(p: Pool, e: Event): Pool
  {
    match e
    case Retained(id, wake, joins) =>
      if id in p.wakes || !IsLast(p.wakes, wake) then p
      else p.(wakes := p.wakes[id := wake],
              remaining := if joins then p.remaining + {id} else p.remaining,
              renewed := p.renewed + {id})
    case Rejoined(id) => if id in p.remaining then p else p.(remaining := p.remaining + {id}, rejoined := p.rejoined + {id})
    case Reserved(id) => p.(admitted := p.admitted + {id})
    case Released(id) => p.(admitted := p.admitted - {id})
    case Completed(id) => p.(wakes := Without(p.wakes, id), admitted := p.admitted - {id})
  }

  function HappenAll(p: Pool, events: seq<Event>): Pool
    decreases |events|
  {
    if events == [] then p else HappenAll(Happen(p, events[0]), events[1..])
  }

  /** The branches after a dispatch; the flag says whether the pass goes on. */
  function Settle(p: Pool, item: Item, blocked: set<string>, outcome: Outcome): (Pool, set<string>, bool)
  {
    var conversation := item.wake.conversationId;
    match outcome
    case Handed => (p.(remaining := p.remaining - {item.id}), blocked, true)
    case Declined(stored) =>
      if stored then (p.(wakes := Without(p.wakes, item.id), remaining := p.remaining - {item.id}), blocked, true)
      else (p, blocked, false)
    case Retryable(at, delay) =>
      (p.(deadlines := p.deadlines[conversation := at + delay]), blocked + {conversation}, true)
    case Fatal => (p, blocked, false)
  }

  /** One iteration of the loop. */
  function Visit(p: Pool, item: Item, blocked: set<string>, turn: Turn): (Pool, set<string>, bool, Fate)
  {
    var conversation := item.wake.conversationId;
    if item.id !in p.wakes || item.id in p.admitted then (p.(remaining := p.remaining - {item.id}), blocked, true, Gone(p))
    else if conversation in blocked then (p, blocked, true, Blocked(p))
    else if conversation in p.deadlines && p.deadlines[conversation] > turn.now then
      (p, blocked + {conversation}, true, Blocked(p))
    else
      var (q, b, goes) := Settle(HappenAll(p, turn.during), item, blocked, turn.outcome);
      (q, b, goes, Dispatched(p, turn.outcome.Retryable?))
  }

  /** The loop from item `i` on; a pass that aborts leaves the rest without a fate. */
  function Pass(p: Pool, items: seq<Item>, blocked: set<string>, turns: seq<Turn>): (Pool, seq<Fate>)
    requires |turns| == |items|
    decreases |items|
  {
    if items == [] then (p, [])
    else
      var (q, b, goes, fate) := Visit(p, items[0], blocked, turns[0]);
      if !goes then (q, [fate])
      else
        var (r, fates) := Pass(q, items[1..], b, turns[1..]);
        (r, [fate] + fates)
  }

  /** The sorted list that the pass walks. */
  predicate Snapshot(p: Pool, items: seq<Item>)
  {
    && (forall i :: 0 <= i < |items| ==>
          items[i].id in p.wakes && items[i].id in p.remaining && items[i].wake == p.wakes[items[i].id])
    && (forall i, j :: 0 <= i < j < |items| ==> Order(items[i].wake) < Order(items[j].wake))
    && (forall id :: id in p.wakes && id in p.remaining ==> Item(id, p.wakes[id]) in items)
  }

  // ---------------------------------------------------------------------------------------------
  // No overtaking
  // ---------------------------------------------------------------------------------------------

  /** `v` is in the recovery set, reserved or not, since the pass began or as a new wake. */
  predicate Awaits(p: Pool, v: string)
  {
    v in p.wakes && v in p.remaining && v !in p.rejoined
  }

  /** The wake of `item` has been stored ever since the snapshot saw it. */
  predicate Unchanged(p: Pool, item: Item)
  {
    item.id in p.wakes && item.id !in p.renewed
  }

  /** Every earlier wake of the conversation has been admitted, retired or dropped, so it left the set. */
  predicate FirstOfConversation(p: Pool, item: Item)
  {
    forall v :: v in p.wakes && Awaits(p, v) && p.wakes[v].conversationId == item.wake.conversationId
                ==> Order(item.wake) <= Order(p.wakes[v])
  }

  /** What is left to visit starts with it, its conversation is blocked, or it is later than all that is left. */
  predicate Accounted(p: Pool, items: seq<Item>, blocked: set<string>, v: string)
    requires v in p.wakes
  {
    || Item(v, p.wakes[v]) in items
    || p.wakes[v].conversationId in blocked
    || forall item :: item in items && Unchanged(p, item) ==> Order(item.wake) < Order(p.wakes[v])
  }

  predicate Orderly(wakes: map<string, Wake>)
  {
    forall m :: m in wakes ==> Canonical(wakes[m].recoveryOrder)
  }

  predicate Ascending(items: seq<Item>)
  {
    forall i, j :: 0 <= i < j < |items| ==> Order(items[i].wake) < Order(items[j].wake)
  }

  predicate PassOk(p: Pool, items: seq<Item>, blocked: set<string>)
  {
    && Orderly(p.wakes) && Ascending(items)
    && (forall item :: item in items && Unchanged(p, item) ==> p.wakes[item.id] == item.wake)
    && (forall v :: v in p.wakes && Awaits(p, v) ==> Accounted(p, items, blocked, v))
  }

  lemma AccountedStays(p: Pool, q: Pool, items: seq<Item>, blocked: set<string>, v: string)
    requires v in p.wakes && v in q.wakes && q.wakes[v] == p.wakes[v] && Accounted(p, items, blocked, v)
    requires forall item :: item in items && Unchanged(q, item) ==> Unchanged(p, item)
    ensures Accounted(q, items, blocked, v)
  {
    hide Order;
  }

  lemma NewIsAccounted(p: Pool, e: Event, items: seq<Item>, blocked: set<string>)
    requires PassOk(p, items, blocked) && e.Retained? && e.id !in p.wakes && IsLast(p.wakes, e.wake)
    ensures var q := Happen(p, e); Orderly(q.wakes) && Accounted(q, items, blocked, e.id)
  {
    hide Order, Accounted;
    var q := Happen(p, e);
    forall item | item in items && Unchanged(q, item) ensures Order(item.wake) < Order(q.wakes[e.id]) {
      assert Unchanged(p, item);
    }
    LaterIsAccounted(q, items, blocked, e.id);
  }

  lemma LaterIsAccounted(p: Pool, items: seq<Item>, blocked: set<string>, v: string)
    requires v in p.wakes && forall item :: item in items && Unchanged(p, item) ==> Order(item.wake) < Order(p.wakes[v])
    ensures Accounted(p, items, blocked, v)
  {
  }

  lemma HappenKeeps(p: Pool, e: Event, items: seq<Item>, blocked: set<string>)
    requires PassOk(p, items, blocked)
    ensures PassOk(Happen(p, e), items, blocked)
  {
    hide Order, Canonical, Accounted;
    var q := Happen(p, e);
    if e.Retained? && e.id !in p.wakes && IsLast(p.wakes, e.wake) { NewIsAccounted(p, e, items, blocked); }
    forall v | v in q.wakes && Awaits(q, v) ensures Accounted(q, items, blocked, v) {
      if v in p.wakes && Awaits(p, v) { AccountedStays(p, q, items, blocked, v); }
    }
  }

  lemma {:induction false} HappenAllKeeps(p: Pool, events: seq<Event>, items: seq<Item>, blocked: set<string>)
    requires PassOk(p, items, blocked)
    ensures PassOk(HappenAll(p, events), items, blocked)
    decreases |events|
  {
    hide PassOk, Happen;
    if events != [] {
      HappenKeeps(p, events[0], items, blocked);
      HappenAllKeeps(Happen(p, events[0]), events[1..], items, blocked);
    }
  }

  /** The head of the list comes first among what awaits admission in its conversation. */
  lemma HeadIsFirst(p: Pool, items: seq<Item>, blocked: set<string>)
    requires PassOk(p, items, blocked) && items != [] && items[0].wake.conversationId !in blocked
    requires Unchanged(p, items[0])
    ensures FirstOfConversation(p, items[0])
  {
    hide Order, Canonical;
    var item := items[0];
    forall v | v in p.wakes && Awaits(p, v) && p.wakes[v].conversationId == item.wake.conversationId
      ensures Order(item.wake) <= Order(p.wakes[v])
    {
      assert Accounted(p, items, blocked, v);
      if Item(v, p.wakes[v]) in items {
        var k :| 0 <= k < |items| && items[k] == Item(v, p.wakes[v]);
      }
    }
  }

  /** Moving past the head: it is gone, its conversation is blocked, or it no longer awaits admission. */
  lemma TailIsOk(p: Pool, items: seq<Item>, blocked: set<string>, q: Pool, next: set<string>)
    requires PassOk(p, items, blocked) && items != [] && blocked <= next
    requires q.wakes == p.wakes || q.wakes == Without(p.wakes, items[0].id)
    requires q.admitted == p.admitted && q.rejoined == p.rejoined && q.renewed == p.renewed && q.remaining <= p.remaining
    requires items[0].wake.conversationId in next || items[0].id !in q.remaining || items[0].id !in q.wakes
    ensures PassOk(q, items[1..], next)
  {
    hide Order, Canonical;
    forall v | v in q.wakes && Awaits(q, v) ensures Accounted(q, items[1..], next, v) {
      assert Awaits(p, v) && Accounted(p, items, blocked, v);
      if Item(v, p.wakes[v]) == items[0] {
        assert p.wakes[v].conversationId in next;
      } else if Item(v, p.wakes[v]) in items {
        assert Item(v, p.wakes[v]) in items[1..];
      }
    }
    forall item | item in items[1..] && Unchanged(q, item) ensures q.wakes[item.id] == item.wake {
      assert item in items && Unchanged(p, item);
    }
  }

  lemma VisitKeeps(p: Pool, items: seq<Item>, blocked: set<string>, turn: Turn)
    requires PassOk(p, items, blocked) && items != []
    ensures var (q, b, goes, _) := Visit(p, items[0], blocked, turn); goes ==> PassOk(q, items[1..], b)
  {
    hide PassOk, HappenAll, FirstOfConversation;
    var (q, b, goes, fate) := Visit(p, items[0], blocked, turn);
    if fate.Dispatched? {
      HappenAllKeeps(p, turn.during, items, blocked);
      if goes { TailIsOk(HappenAll(p, turn.during), items, blocked, q, b); }
    } else {
      TailIsOk(p, items, blocked, q, b);
    }
  }

  /**
    In one pass, for every pattern of failures, deadlines and changes made while dispatches were
    suspended: a stored wake is dispatched only when every earlier wake of its conversation in the
    recovery set has been admitted, retired or dropped.
   */
  lemma {:induction false} NeverOvertakes(p: Pool, items: seq<Item>, blocked: set<string>, turns: seq<Turn>, k: nat)
    requires |turns| == |items| && PassOk(p, items, blocked)
    requires k < |Pass(p, items, blocked, turns).1|
    ensures |Pass(p, items, blocked, turns).1| <= |items|
    ensures var fate := Pass(p, items, blocked, turns).1[k];
            fate.Dispatched? && Unchanged(fate.before, items[k]) ==> FirstOfConversation(fate.before, items[k])
    decreases |items|
  {
    hide PassOk, Visit, FirstOfConversation, Unchanged;
    var (q, b, goes, fate) := Visit(p, items[0], blocked, turns[0]);
    DispatchShape(p, items[0], blocked, turns[0]);
    if fate.Dispatched? && Unchanged(p, items[0]) { HeadIsFirst(p, items, blocked); }
    VisitKeeps(p, items, blocked, turns[0]);
    PassLength(p, items, blocked, turns);
    if goes && k > 0 { NeverOvertakes(q, items[1..], b, turns[1..], k - 1); }
  }

  lemma DispatchShape(p: Pool, item: Item, blocked: set<string>, turn: Turn)
    ensures var fate := Visit(p, item, blocked, turn).3;
      fate.Dispatched? ==> fate.before == p && item.wake.conversationId !in blocked
  {
  }

  lemma {:induction false} PassLength(p: Pool, items: seq<Item>, blocked: set<string>, turns: seq<Turn>)
    requires |turns| == |items|
    ensures |Pass(p, items, blocked, turns).1| <= |items|
    decreases |items|
  {
    hide Visit;
    if items != [] {
      var (q, b, goes, fate) := Visit(p, items[0], blocked, turns[0]);
      if goes { PassLength(q, items[1..], b, turns[1..]); }
    }
  }

  /** A pass starts in order: everything that awaits admission is in the sorted snapshot. */
  lemma SnapshotIsOk(p: Pool, items: seq<Item>)
    requires Orderly(p.wakes) && Snapshot(p, items)
    ensures PassOk(p, items, {})
  {
    hide Order, Canonical;
  }

  // ---------------------------------------------------------------------------------------------
  // Runs of passes
  // ---------------------------------------------------------------------------------------------

  /** What happens before a pass, the sorted snapshot it takes then, and its turns. */
  datatype Round = Round(between: seq<Event>, items: seq<Item>, turns: seq<Turn>)

  /** The end of a pass: the set keeps stored wakes only, and only their conversations keep a deadline. */
  function Tidied(p: Pool): Pool
  {
    var left := p.remaining * p.wakes.Keys;
    var pending := set id | id in left :: p.wakes[id].conversationId;
    p.(remaining := left, deadlines := map c | c in p.deadlines && c in pending :: p.deadlines[c])
  }

  /** The pool when the pass of `round` begins; its history is empty. */
  function Opened(p: Pool, round: Round): Pool
  {
    HappenAll(p, round.between).(rejoined := {}, renewed := {})
  }

  /** The last dispatch of the pass raised what is not retried, or its completion did. */
  predicate Aborted(fates: seq<Fate>, turns: seq<Turn>)
  {
    0 < |fates| <= |turns| && fates[|fates| - 1].Dispatched?
    && var outcome := turns[|fates| - 1].outcome;
    outcome.Fatal? || outcome == Declined(false)
  }

  /** The pool behind the round; a pass that was aborted ends without its tidying. */
  function Closed(p: Pool, round: Round): Pool
    requires |round.turns| == |round.items|
  {
    var (q, fates) := Pass(Opened(p, round), round.items, {}, round.turns);
    if Aborted(fates, round.turns) then q else Tidied(q)
  }

  predicate LegalRounds(p: Pool, rounds: seq<Round>)
    decreases |rounds|
  {
    rounds == []
    || (|rounds[0].turns| == |rounds[0].items| && Snapshot(Opened(p, rounds[0]), rounds[0].items)
        && LegalRounds(Closed(p, rounds[0]), rounds[1..]))
  }

  function AfterRounds(p: Pool, rounds: seq<Round>): Pool
    requires LegalRounds(p, rounds)
    decreases |rounds|
  {
    if rounds == [] then p else AfterRounds(Closed(p, rounds[0]), rounds[1..])
  }

  lemma {:induction false} HappenAllOrderly(p: Pool, events: seq<Event>)
    requires Orderly(p.wakes)
    ensures Orderly(HappenAll(p, events).wakes)
    decreases |events|
  {
    hide Order, Canonical;
    if events != [] { HappenAllOrderly(Happen(p, events[0]), events[1..]); }
  }

  lemma {:induction false} PassOrderly(p: Pool, items: seq<Item>, blocked: set<string>, turns: seq<Turn>)
    requires |turns| == |items| && Orderly(p.wakes)
    ensures Orderly(Pass(p, items, blocked, turns).0.wakes)
    decreases |items|
  {
    hide Canonical, HappenAll;
    if items != [] {
      HappenAllOrderly(p, turns[0].during);
      var (q, b, goes, _) := Visit(p, items[0], blocked, turns[0]);
      assert Orderly(q.wakes);
      if goes { PassOrderly(q, items[1..], b, turns[1..]); }
    }
  }

  lemma {:induction false} RoundsOrderly(p: Pool, rounds: seq<Round>)
    requires Orderly(p.wakes) && LegalRounds(p, rounds)
    ensures Orderly(AfterRounds(p, rounds).wakes)
    decreases |rounds|
  {
    hide Orderly, Snapshot, Pass, HappenAll;
    if rounds != [] {
      HappenAllOrderly(p, rounds[0].between);
      PassOrderly(Opened(p, rounds[0]), rounds[0].items, {}, rounds[0].turns);
      RoundsOrderly(Closed(p, rounds[0]), rounds[1..]);
    }
  }

  /**
    Over any run of passes, each over the snapshot it sorts for itself: a stored wake is dispatched only
    when every earlier wake of its conversation has left the recovery set, admitted, retired or dropped.
   */
  lemma {:induction false} NeverOvertakesInRuns(p: Pool, rounds: seq<Round>, last: Round, k: nat)
    requires Orderly(p.wakes) && LegalRounds(p, rounds)
    requires var start := Opened(AfterRounds(p, rounds), last);
             |last.turns| == |last.items| && Snapshot(start, last.items)
             && k < |Pass(start, last.items, {}, last.turns).1|
    ensures
      var start := Opened(AfterRounds(p, rounds), last);
      var fates := Pass(start, last.items, {}, last.turns).1;
      |fates| <= |last.items|
      && (fates[k].Dispatched? && Unchanged(fates[k].before, last.items[k]) ==>
            FirstOfConversation(fates[k].before, last.items[k]))
  {
    hide Orderly, Snapshot, Pass, HappenAll, Unchanged, FirstOfConversation;
    RoundsOrderly(p, rounds);
    var q := AfterRounds(p, rounds);
    HappenAllOrderly(q, last.between);
    SnapshotIsOk(Opened(q, last), last.items);
    NeverOvertakes(Opened(q, last), last.items, {}, last.turns, k);
  }

  // ---------------------------------------------------------------------------------------------
  // No conversation blocks another
  // ---------------------------------------------------------------------------------------------

  /** A deadline set before the pass, or a failure in it, of the conversation itself. */
  ghost predicate OwnReason(p: Pool, items: seq<Item>, turns: seq<Turn>, fates: seq<Fate>, conversation: string, k: nat)
    requires |turns| == |items| && k < |fates| <= |items|
  {
    exists j :: 0 <= j <= k && items[j].wake.conversationId == conversation
                && ((fates[j].Dispatched? && fates[j].failed)
                    || (fates[j].Blocked? && conversation in p.deadlines && p.deadlines[conversation] > turns[j].now))
  }

  lemma DeadlinesAreOurs(p: Pool, events: seq<Event>)
    ensures HappenAll(p, events).deadlines == p.deadlines
    decreases |events|
  {
    if events != [] { DeadlinesAreOurs(Happen(p, events[0]), events[1..]); }
  }

  /** What one iteration does to the deadlines and to the blocked conversations. */
  lemma VisitShape(p: Pool, item: Item, blocked: set<string>, turn: Turn)
    ensures
      var (q, b, _, fate) := Visit(p, item, blocked, turn);
      var c := item.wake.conversationId;
      && (forall d :: d != c ==> (d in q.deadlines <==> d in p.deadlines)
                                 && (d in p.deadlines ==> q.deadlines[d] == p.deadlines[d]))
      && ((fate.Dispatched? && fate.failed) || q.deadlines == p.deadlines)
      && blocked <= b <= blocked + {c}
      && (c in b && c !in blocked ==>
            (fate.Dispatched? && fate.failed) || (fate.Blocked? && c in p.deadlines && p.deadlines[c] > turn.now))
      && (fate.Blocked? || (fate.Dispatched? && fate.failed) ==> c in b)
  {
    DeadlinesAreOurs(p, turn.during);
  }

  /**
    A wake is held back only by its own conversation: by its deadline, or by an earlier failure of the
    conversation in this pass. A failing or waiting conversation never holds back another.
   */
  lemma {:induction false} BlockedByItsOwn(p: Pool, items: seq<Item>, blocked: set<string>, turns: seq<Turn>, k: nat)
    requires |turns| == |items| && k < |Pass(p, items, blocked, turns).1|
    ensures |Pass(p, items, blocked, turns).1| <= |items|
    ensures
      var fates := Pass(p, items, blocked, turns).1;
      var c := items[k].wake.conversationId;
      fates[k].Blocked? && c !in blocked ==> OwnReason(p, items, turns, fates, c, k)
    decreases |items|
  {
    hide Visit, OwnReason;
    PassLength(p, items, blocked, turns);
    var (q, b, goes, fate) := Visit(p, items[0], blocked, turns[0]);
    VisitShape(p, items[0], blocked, turns[0]);
    var fates := Pass(p, items, blocked, turns).1;
    var c := items[k].wake.conversationId;
    if fates[k].Blocked? && c !in blocked {
      if k == 0 || c in b {
        FirstReason(p, items, turns, fates, k);
      } else {
        PassLength(q, items[1..], b, turns[1..]);
        BlockedByItsOwn(q, items[1..], b, turns[1..], k - 1);
        LaterReason(p, q, items, turns, fates, c, k);
      }
    }
  }

  lemma FirstReason(p: Pool, items: seq<Item>, turns: seq<Turn>, fates: seq<Fate>, k: nat)
    requires |turns| == |items| && k < |fates| <= |items|
    requires var c := items[0].wake.conversationId;
             (fates[0].Dispatched? && fates[0].failed)
             || (fates[0].Blocked? && c in p.deadlines && p.deadlines[c] > turns[0].now)
    ensures OwnReason(p, items, turns, fates, items[0].wake.conversationId, k)
  {
  }

  lemma LaterReason(p: Pool, q: Pool, items: seq<Item>, turns: seq<Turn>, fates: seq<Fate>, c: string, k: nat)
    requires |turns| == |items| && 0 < k < |fates| <= |items|
    requires OwnReason(q, items[1..], turns[1..], fates[1..], c, k - 1)
    requires c in q.deadlines ==> c in p.deadlines && p.deadlines[c] == q.deadlines[c]
    ensures OwnReason(p, items, turns, fates, c, k)
  {
    var j :| 0 <= j <= k - 1 && items[1..][j].wake.conversationId == c
             && ((fates[1..][j].Dispatched? && fates[1..][j].failed)
                 || (fates[1..][j].Blocked? && c in q.deadlines && q.deadlines[c] > turns[1..][j].now));
    assert items[j + 1] == items[1..][j] && fates[j + 1] == fates[1..][j] && turns[j + 1] == turns[1..][j];
  }

  // ---------------------------------------------------------------------------------------------
  // The loop
  // ---------------------------------------------------------------------------------------------

  /** The sort keys of the wakes in the recovery set. */
  function BatchOrders(p: Pool): (orders: map<string, nat>)
    ensures forall id :: id in orders <==> id in p.wakes && id in p.remaining
    ensures forall id :: id in orders ==> orders[id] == Order(p.wakes[id])
  {
    map id | id in p.wakes && id in p.remaining :: Order(p.wakes[id])
  }

  /** `sorted(...)` by recovery order. */
  method SortedSnapshot(p: Pool) returns (items: seq<Item>)
    requires Orderly(p.wakes) && DistinctOrders(p.wakes)
    ensures Snapshot(p, items)
  {
    hide Order, Snapshot, Orderly, DistinctOrders, Ordinal;
    var orders := BatchOrders(p);
    var sorted := Migration.SortedIds(orders);
    items := seq(|sorted|, i requires 0 <= i < |sorted| && sorted[i] in p.wakes => Item(sorted[i], p.wakes[sorted[i]]));
    SortedIsSnapshot(p, sorted, items);
  }

  lemma SortedIsSnapshot(p: Pool, sorted: seq<string>, items: seq<Item>)
    requires Orderly(p.wakes) && DistinctOrders(p.wakes) && |sorted| == |items| == |BatchOrders(p)|
    requires forall i :: 0 <= i < |sorted| ==>
               sorted[i] in BatchOrders(p) && Ordinal(BatchOrders(p), sorted[i]) == i + 1
    requires forall i :: 0 <= i < |items| ==> items[i] == Item(sorted[i], p.wakes[sorted[i]])
    ensures Snapshot(p, items)
  {
    hide Order, Orderly, DistinctOrders, Ordinal, Before;
    var orders := BatchOrders(p);
    forall id | id in p.wakes && id in p.remaining ensures Item(id, p.wakes[id]) in items {
      Migration.EveryIdIsSorted(orders, sorted, id);
      var k :| 0 <= k < |sorted| && sorted[k] == id;
      assert items[k] == Item(id, p.wakes[id]);
    }
    forall i, j | 0 <= i < j < |items| ensures Order(items[i].wake) < Order(items[j].wake) {
      Migration.OrdinalsKeepOrder(orders, sorted[i], sorted[j]);
      if orders[sorted[i]] == orders[sorted[j]] { SameOrderSameWake(p.wakes, sorted[i], sorted[j]); }
    }
  }

  lemma SameOrderSameWake(wakes: map<string, Wake>, a: string, b: string)
    requires Orderly(wakes) && DistinctOrders(wakes) && a in wakes && b in wakes && Order(wakes[a]) == Order(wakes[b])
    ensures a == b
  {
    CanonicalIsUnique(wakes[a].recoveryOrder, wakes[b].recoveryOrder);
  }

  /** The for loop of the pass, with its set of blocked conversations. */
  method ReplayPass(p: Pool, items: seq<Item>, turns: seq<Turn>) returns (q: Pool, fates: seq<Fate>)
    requires |turns| == |items|
    ensures (q, fates) == Pass(p, items, {}, turns)
  {
    hide Visit;
    q, fates := p, [];
    var blocked: set<string> := {};
    var i := 0;
    assert items[0..] == items && turns[0..] == turns;
    assert [] + Pass(p, items, {}, turns).1 == Pass(p, items, {}, turns).1;
    while i < |items|
      invariant 0 <= i <= |items|
      invariant Pass(p, items, {}, turns) == Resumed(q, items[i..], blocked, turns[i..], fates)
    {
      assert items[i..][1..] == items[i + 1..] && turns[i..][1..] == turns[i + 1..];
      var (next, b, goes, fate) := Visit(q, items[i], blocked, turns[i]);
      ResumedStep(q, items[i..], blocked, turns[i..], fates);
      q, blocked, fates := next, b, fates + [fate];
      if !goes { return; }
      i := i + 1;
    }
    assert fates + [] == fates;
  }

  /** The rest of a pass, behind the fates already decided. */
  function Resumed(p: Pool, items: seq<Item>, blocked: set<string>, turns: seq<Turn>, fates: seq<Fate>): (Pool, seq<Fate>)
    requires |turns| == |items|
  {
    var (r, rest) := Pass(p, items, blocked, turns);
    (r, fates + rest)
  }

  lemma ResumedStep(p: Pool, items: seq<Item>, blocked: set<string>, turns: seq<Turn>, fates: seq<Fate>)
    requires |turns| == |items| && items != []
    ensures
      var (q, b, goes, fate) := Visit(p, items[0], blocked, turns[0]);
      Resumed(p, items, blocked, turns, fates)
      == if goes then Resumed(q, items[1..], b, turns[1..], fates + [fate]) else (q, fates + [fate])
  {
    hide Visit;
    var (q, b, goes, fate) := Visit(p, items[0], blocked, turns[0]);
    if goes {
      var rest := Pass(q, items[1..], b, turns[1..]).1;
      assert fates + ([fate] + rest) == fates + [fate] + rest;
    }
  }
}
