/** What a topology update does to a pane that disappeared, or whose session has a newer generation: its
    slot moves on, everything queued there is answered as replaced and never starts, and what runs there
    is reported as unknown. */
module SchedulerTopology {
  import opened Options
  import opened SchedulerModel
  import opened SchedulerInvariant
  import opened SchedulerEvents
  import opened SchedulerTheorems
  import opened SchedulerGenerations
  import opened SchedulerPromises
  import opened SchedulerAnswers
  import opened SchedulerHistory
  import opened SchedulerOutcomes

  // ---------------------------------------------------------------- one pane's slot

  ghost predicate NoOlder(ledger: map<Key, Entry>, p: PaneId, generation: nat) {
    forall key :: key in ledger && ledger[key].pane == p ==> ledger[key].generation >= generation
  }

  /** The operation is out of the loop, and all its waiters were told that its pane was replaced. */
  ghost predicate Dismissed(live: set<OpId>, log: seq<Answer>, id: OpId, waiters: seq<Attached>) {
    id !in live && SaysAll(log, id, waiters, PaneReplaced)
  }

  ghost predicate AllDismissed(ops: map<OpId, Op>, live: set<OpId>, log: seq<Answer>, ids: seq<OpId>) {
    forall i :: 0 <= i < |ids| ==> Dismissed(live, log, ids[i], OpIn(ops, ids[i]).waiters)
  }

  ghost predicate Shrinks(s: Sched, t: Sched) {
    && s.log <= t.log && t.live <= s.live && t.ops == s.ops
    && (forall key :: key in t.ledger ==> key in s.ledger && t.ledger[key] == s.ledger[key])
  }

  /** A slot either stays as it is, or has a larger generation and nothing of the older ones left but the
      effect that runs. */
  ghost predicate MovesOn(s: Sched, t: Sched, p: PaneId) {
    var before, after := SlotOf(s, p), SlotOf(t, p);
    && Shrinks(s, t) && after.inFlight == before.inFlight && (p in s.slots ==> p in t.slots)
    && (|| (after.generation == before.generation && after.queue == before.queue)
        || (&& after.generation > before.generation && NoOlder(t.ledger, p, after.generation)
            && AllDismissed(s.ops, t.live, t.log, before.queue)))
  }

  lemma DismissedStays(ops: map<OpId, Op>, live: set<OpId>, live': set<OpId>, log: seq<Answer>, log': seq<Answer>, ids: seq<OpId>)
    requires AllDismissed(ops, live, log, ids) && live' <= live && log <= log'
    ensures AllDismissed(ops, live', log', ids)
  {
    hide SaysAll;
    forall i | 0 <= i < |ids|
      ensures Dismissed(live', log', ids[i], OpIn(ops, ids[i]).waiters)
    {
      assert Dismissed(live, log, ids[i], OpIn(ops, ids[i]).waiters);
      SaysAllStays(log, log', ids[i], OpIn(ops, ids[i]).waiters, PaneReplaced);
    }
  }

  lemma MovesOnTwice(s: Sched, t: Sched, u: Sched, p: PaneId)
    requires MovesOn(s, t, p) && MovesOn(t, u, p)
    ensures MovesOn(s, u, p)
  {
    hide AllDismissed;
    if SlotOf(t, p).generation > SlotOf(s, p).generation {
      DismissedStays(s.ops, t.live, u.live, t.log, u.log, SlotOf(s, p).queue);
    }
  }

  lemma SameMovesOn(s: Sched, p: PaneId)
    ensures MovesOn(s, s, p)
  {
    hide AllDismissed, NoOlder;
  }

  // ---------------------------------------------------------------- answering a queue

  lemma StaleSays(s: Sched, id: OpId)
    requires !OpOf(s, id).dispatched
    ensures Dismissed(Stale(s, id).live, Stale(s, id).log, id, OpOf(s, id).waiters) && Stale(s, id).ops == s.ops
  {
    RespondSays(DropKey(s.(deadlines := s.deadlines - {id}), OpOf(s, id).key), id, PaneReplaced);
    hide SaysAll, Answers;
  }

  lemma OneDismissed(ops: map<OpId, Op>, live: set<OpId>, log: seq<Answer>, id: OpId)
    requires Dismissed(live, log, id, OpIn(ops, id).waiters)
    ensures AllDismissed(ops, live, log, [id])
  {
    hide Dismissed;
  }

  lemma {:induction false} StaleAllDismisses(s: Sched, ids: seq<OpId>)
    requires forall i :: 0 <= i < |ids| ==> !OpOf(s, ids[i]).dispatched
    ensures AllDismissed(s.ops, StaleAll(s, ids).live, StaleAll(s, ids).log, ids)
    decreases |ids|
  {
    if ids != [] {
      var u, t := Stale(s, ids[0]), StaleAll(s, ids);
      StaleSays(s, ids[0]);
      hide Stale, Dismissed;
      StaleAllDismisses(u, ids[1..]);
      StaleAllGrows(u, ids[1..]);
      StaleAllFrame(u, ids[1..]);
      OneDismissed(s.ops, u.live, u.log, ids[0]);
      DismissedStays(s.ops, u.live, t.live, u.log, t.log, [ids[0]]);
      assert ids == [ids[0]] + ids[1..];
      assert Dismissed(t.live, t.log, [ids[0]][0], OpIn(s.ops, ids[0]).waiters);
      forall i | 0 <= i < |ids|
        ensures Dismissed(t.live, t.log, ids[i], OpIn(s.ops, ids[i]).waiters)
      {
        if i > 0 {
          assert Dismissed(t.live, t.log, ids[1..][i - 1], OpIn(s.ops, ids[1..][i - 1]).waiters);
        }
      }
    }
  }

  lemma QueueWaits(s: Sched, p: PaneId)
    requires Inv(s, {})
    ensures var queue := SlotOf(s, p).queue;
      forall i :: 0 <= i < |queue| ==>
        && queue[i] in s.ops && queue[i] in s.live && !s.ops[queue[i]].relay && !s.ops[queue[i]].dispatched
        && s.ops[queue[i]].pane == p
  {
    if p in s.slots {
      assert SlotShape(s.ops, s.live, {}, p, s.slots[p]);
      hide SlotsShape, RelayShape, AllLocated, Fates, LedgerOk, Counted, Timed, Honest, StartsOk, Ordered;
    }
  }

  /** Superseding a pane answers its queue as replaced and forgets its older entries. */
  lemma SupersedeDismisses(s: Sched, p: PaneId, generation: nat)
    requires Inv(s, {})
    ensures var t := Supersede(s, p, generation, "");
      NoOlder(t.ledger, p, generation) && AllDismissed(s.ops, t.live, t.log, SlotOf(s, p).queue)
  {
    var emptied := s.(slots := s.slots[p := SlotOf(s, p).(generation := generation, queue := [])]);
    QueueWaits(s, p);
    NoKeylessEntry(s);
    hide Inv, AllDismissed;
    StaleAllDismisses(emptied, SlotOf(s, p).queue);
    StaleAllFrame(emptied, SlotOf(s, p).queue);
    hide StaleAll;
  }

  lemma SupersedeMovesOn(s: Sched, q: PaneId, generation: nat, p: PaneId)
    requires Inv(s, {}) && generation > SlotOf(s, q).generation
    ensures MovesOn(s, Supersede(s, q, generation, ""), p)
    ensures SlotOf(Supersede(s, q, generation, ""), p).generation == if p == q then generation else SlotOf(s, p).generation
  {
    hide Inv, AllDismissed, NoOlder;
    SupersedeFrame(s, q, generation, "");
    SupersedeGrows(s, q, generation, "");
    SupersedeDismisses(s, q, generation);
    hide Supersede;
  }

  // ---------------------------------------------------------------- retiring and raising

  /** The generation a topology update gives a slot that vanished, or leaves one that did not. */
  ghost function Retired(s: Sched, gone: seq<PaneId>, p: PaneId): nat {
    if p in s.slots && p in gone then s.slots[p].generation + 1 else SlotOf(s, p).generation
  }

  lemma {:induction false} RetireGoneMovesOn(s: Sched, gone: seq<PaneId>, p: PaneId)
    requires Inv(s, {}) && forall i, j :: 0 <= i < j < |gone| ==> gone[i] != gone[j]
    ensures MovesOn(s, RetireGone(s, gone), p) && SlotOf(RetireGone(s, gone), p).generation == Retired(s, gone, p)
    ensures p in RetireGone(s, gone).slots <==> p in s.slots
    decreases |gone|
  {
    SameMovesOn(s, p);
    hide Inv, MovesOn, Supersede;
    if gone != [] {
      var q := gone[0];
      assert gone == [q] + gone[1..];
      var t := if q in s.slots then Supersede(s, q, s.slots[q].generation + 1, "") else s;
      if q in s.slots {
        SupersedeMovesOn(s, q, s.slots[q].generation + 1, p);
        SupersedeFrame(s, q, s.slots[q].generation + 1, "");
        SupersedeKeeps(s, {}, q, s.slots[q].generation + 1, "");
      }
      RetireGoneMovesOn(t, gone[1..], p);
      MovesOnTwice(s, t, RetireGone(s, gone), p);
    }
  }

  /** The largest of a generation and those a topology update names for the pane. */
  ghost function Highest(raised: seq<(PaneId, nat)>, p: PaneId, generation: nat): nat
    decreases |raised|
  {
    if raised == [] then generation
    else Highest(raised[1..], p, if raised[0].0 == p && raised[0].1 > generation then raised[0].1 else generation)
  }

  ghost predicate Named(raised: seq<(PaneId, nat)>, p: PaneId) {
    exists i :: 0 <= i < |raised| && raised[i].0 == p
  }

  /** The largest of `generation` and the generations named for the pane. */
  ghost predicate Largest(raised: seq<(PaneId, nat)>, p: PaneId, generation: nat, g: nat) {
    && g >= generation && (forall i :: 0 <= i < |raised| && raised[i].0 == p ==> raised[i].1 <= g)
    && (g == generation || (p, g) in raised)
  }

  lemma {:induction false} HighestIsLargest(raised: seq<(PaneId, nat)>, p: PaneId, generation: nat)
    ensures Largest(raised, p, generation, Highest(raised, p, generation))
    decreases |raised|
  {
    if raised != [] {
      var next := if raised[0].0 == p && raised[0].1 > generation then raised[0].1 else generation;
      HighestIsLargest(raised[1..], p, next);
      assert raised == [raised[0]] + raised[1..];
      assert next == generation || (raised[0] == (p, next) && raised[0] in raised);
    }
  }

  lemma RaiseOneMovesOn(s: Sched, q: PaneId, generation: nat, p: PaneId)
    requires Inv(s, {})
    ensures var t := RaiseOne(s, q, generation);
      && MovesOn(s, t, p) && (p in t.slots <==> p in s.slots || p == q)
      && SlotOf(t, p).generation == if p == q && generation > SlotOf(s, p).generation then generation else SlotOf(s, p).generation
  {
    if generation > SlotOf(s, q).generation {
      SupersedeMovesOn(s, q, generation, p);
      SupersedeFrame(s, q, generation, "");
    }
    hide Inv, Supersede, NoOlder, AllDismissed;
  }

  lemma {:induction false} RaiseAllMovesOn(s: Sched, raised: seq<(PaneId, nat)>, p: PaneId)
    requires Inv(s, {})
    ensures MovesOn(s, RaiseAll(s, raised), p)
    ensures SlotOf(RaiseAll(s, raised), p).generation == Highest(raised, p, SlotOf(s, p).generation)
    ensures p in RaiseAll(s, raised).slots <==> p in s.slots || Named(raised, p)
    decreases |raised|
  {
    SameMovesOn(s, p);
    hide Inv, MovesOn, RaiseOne;
    if raised != [] {
      var t := RaiseOne(s, raised[0].0, raised[0].1);
      assert raised == [raised[0]] + raised[1..];
      RaiseOneMovesOn(s, raised[0].0, raised[0].1, p);
      RaiseOneKeeps(s, raised[0].0, raised[0].1);
      RaiseAllMovesOn(t, raised[1..], p);
      MovesOnTwice(s, t, RaiseAll(s, raised), p);
      NamedTail(raised, p);
    }
  }

  lemma NamedTail(raised: seq<(PaneId, nat)>, p: PaneId)
    requires raised != []
    ensures Named(raised, p) <==> raised[0].0 == p || Named(raised[1..], p)
  {
    if Named(raised[1..], p) {
      var i :| 0 <= i < |raised[1..]| && raised[1..][i].0 == p;
      assert raised[i + 1].0 == p;
    }
    if Named(raised, p) {
      var i :| 0 <= i < |raised| && raised[i].0 == p;
      assert i > 0 ==> raised[1..][i - 1].0 == p;
    }
  }

  // ---------------------------------------------------------------- the update

  /** A topology update up to its dispatch. */
  ghost function Updated(s: Sched, e: Event): Sched
    requires e.TopologyUpdate?
  {
    RaiseAll(RetireGone(s, e.gone), e.raised).(knownActive := e.active)
  }

  /** The pane had a slot and was active, and the update no longer lists it. */
  ghost predicate Vanishes(s: Sched, e: Event, p: PaneId)
    requires e.TopologyUpdate?
  {
    p in s.slots && p in s.knownActive && p !in e.active
  }

  ghost function Base(s: Sched, e: Event, p: PaneId): nat
    requires e.TopologyUpdate?
  {
    if Vanishes(s, e, p) then SlotOf(s, p).generation + 1 else SlotOf(s, p).generation
  }

  lemma RetiredIsBase(s: Sched, e: Event, p: PaneId)
    requires e.TopologyUpdate? && Admissible(s, e)
    ensures Retired(s, e.gone, p) == Base(s, e, p)
  {
  }

  lemma ActiveMovesOn(s: Sched, t: Sched, active: set<PaneId>, p: PaneId)
    requires MovesOn(s, t, p)
    ensures MovesOn(s, t.(knownActive := active), p)
  {
    hide NoOlder, AllDismissed;
  }

  lemma ListedOnce(s: Sched, e: Event)
    requires e.TopologyUpdate? && Admissible(s, e)
    ensures forall i, j :: 0 <= i < j < |e.gone| ==> e.gone[i] != e.gone[j]
  {
  }

  lemma UpdateMovesOn(s: Sched, e: Event, p: PaneId)
    requires Inv(s, {}) && e.TopologyUpdate? && Admissible(s, e)
    ensures var v := Updated(s, e);
      && MovesOn(s, v, p) && SlotOf(v, p).generation == Highest(e.raised, p, Base(s, e, p))
      && (p in v.slots <==> p in s.slots || Named(e.raised, p))
  {
    var t := RetireGone(s, e.gone);
    var u := RaiseAll(t, e.raised);
    RetiredIsBase(s, e, p);
    ListedOnce(s, e);
    hide Inv, RetireGone, RaiseAll, MovesOn, Named, Admissible, Base, Retired;
    RetireGoneMovesOn(s, e.gone, p);
    RetireGoneKeeps(s, e.gone);
    RaiseAllMovesOn(t, e.raised, p);
    MovesOnTwice(s, t, u, p);
    ActiveMovesOn(s, u, e.active, p);
  }

  lemma UpdateKeeps(s: Sched, e: Event)
    requires Inv(s, {}) && e.TopologyUpdate?
    ensures Inv(Updated(s, e), {}) && Step(s, e) == Dispatch(Updated(s, e), e.now) && Updated(s, e).knownActive == e.active
  {
    var t := RetireGone(s, e.gone);
    var u := RaiseAll(t, e.raised);
    hide Inv, RetireGone, RaiseAll, Dispatch;
    RetireGoneKeeps(s, e.gone);
    RaiseAllKeeps(t, e.raised);
    KnownActiveKeeps(u, e.active);
  }

  /** Everything that waited on the pane is out of the loop; each of its waiters heard that the pane was
      replaced, and nothing else. */
  ghost predicate QueueReplaced(ops: map<OpId, Op>, live: set<OpId>, log: seq<Answer>, ids: seq<OpId>) {
    forall i :: 0 <= i < |ids| ==> ids[i] !in live && AllHeard(log, ids[i], OpIn(ops, ids[i]).waiters, PaneReplaced)
  }

  lemma DismissedIsReplaced(t: Sched, ops: map<OpId, Op>, ids: seq<OpId>)
    requires Inv(t, {}) && AllDismissed(ops, t.live, t.log, ids)
    ensures QueueReplaced(ops, t.live, t.log, ids)
  {
    hide Inv, AllHeard, SaysAll;
    forall i | 0 <= i < |ids|
      ensures ids[i] !in t.live && AllHeard(t.log, ids[i], OpIn(ops, ids[i]).waiters, PaneReplaced)
    {
      assert Dismissed(t.live, t.log, ids[i], OpIn(ops, ids[i]).waiters);
      SaidIsHeard(t, ids[i], OpIn(ops, ids[i]).waiters, PaneReplaced);
    }
  }

  lemma PassedSlot(s: Sched, t: Sched, p: PaneId)
    requires Passed(s, t) && p in s.slots
    ensures p in t.slots && t.slots[p].generation == s.slots[p].generation
    ensures s.slots[p].inFlight.Some? ==> t.slots[p].inFlight == s.slots[p].inFlight
    ensures NoOlder(s.ledger, p, s.slots[p].generation) ==> NoOlder(t.ledger, p, t.slots[p].generation)
    ensures s.log <= t.log && t.live <= s.live && t.knownActive == s.knownActive
  {
    hide KeysOf, SameOps;
  }

  lemma RunningIsStamped(s: Sched, p: PaneId)
    requires Inv(s, {}) && p in s.slots && s.slots[p].inFlight.Some?
    ensures s.slots[p].inFlight.value.generation <= s.slots[p].generation
  {
    assert SlotShape(s.ops, s.live, {}, p, s.slots[p]);
    hide SlotsShape, RelayShape, AllLocated, Fates, LedgerOk, Counted, Timed, Honest, StartsOk, Ordered;
  }

  /** No entry of an older session of the pane is left, everything that was queued there was answered as
      replaced, and what runs there is overtaken. */
  ghost predicate LeftBehind(s: Sched, t: Sched, p: PaneId) {
    && p in t.slots && NoOlder(t.ledger, p, t.slots[p].generation)
    && QueueReplaced(s.ops, t.live, t.log, SlotOf(s, p).queue)
    && (SlotOf(s, p).inFlight.Some? ==> Overtaken(t, p, SlotOf(s, p).inFlight.value.op))
  }

  lemma MovedLeavesBehind(s: Sched, v: Sched, t: Sched, p: PaneId)
    requires Inv(s, {}) && Inv(t, {}) && MovesOn(s, v, p) && Passed(v, t) && p in v.slots
    requires SlotOf(v, p).generation > SlotOf(s, p).generation
    ensures LeftBehind(s, t, p)
  {
    hide Inv, Passed, AllDismissed, NoOlder, QueueReplaced;
    PassedSlot(v, t, p);
    DismissedStays(s.ops, v.live, t.live, v.log, t.log, SlotOf(s, p).queue);
    DismissedIsReplaced(t, s.ops, SlotOf(s, p).queue);
    if SlotOf(s, p).inFlight.Some? {
      RunningIsStamped(s, p);
    }
  }

  /** The slot a topology update leaves: its generation is the largest of the pane's own, one more if the
      pane disappeared, and those the update names for it. If it moved, the older sessions are left
      behind. */
  lemma TopologyMovesOn(s: Sched, e: Event, p: PaneId)
    requires Between(s) && e.TopologyUpdate? && Admissible(s, e) && (p in s.slots || Named(e.raised, p))
    ensures Step(s, e).knownActive == e.active
    ensures var t := Step(s, e);
      && p in t.slots && Largest(e.raised, p, Base(s, e, p), t.slots[p].generation)
      && (t.slots[p].generation > SlotOf(s, p).generation ==> LeftBehind(s, t, p))
  {
    var v, t := Updated(s, e), Step(s, e);
    BetweenInv(s);
    hide Between, Inv, Admissible, Named, MovesOn, Passed, Step, Updated, Base, LeftBehind, Dispatch, Highest, Largest;
    UpdateMovesOn(s, e, p);
    UpdateKeeps(s, e);
    HighestIsLargest(e.raised, p, Base(s, e, p));
    DispatchPassed(v, e.now);
    DispatchKeeps(v, e.now);
    PassedSlot(v, t, p);
    if t.slots[p].generation > SlotOf(s, p).generation {
      MovedLeavesBehind(s, v, t, p);
    }
  }

  // ---------------------------------------------------------------- for good

  /** The update supersedes the pane: it disappeared, or a newer generation is named for it. */
  ghost predicate Supersedes(s: Sched, e: Event, p: PaneId)
    requires e.TopologyUpdate?
  {
    Vanishes(s, e, p) || exists i :: 0 <= i < |e.raised| && e.raised[i].0 == p && e.raised[i].1 > SlotOf(s, p).generation
  }

  lemma SupersedesLeavesBehind(s: Sched, e: Event, p: PaneId)
    requires Between(s) && e.TopologyUpdate? && Admissible(s, e) && Supersedes(s, e, p)
    ensures p in Step(s, e).slots && Step(s, e).slots[p].generation > SlotOf(s, p).generation && LeftBehind(s, Step(s, e), p)
  {
    hide Between, Admissible, Step, LeftBehind;
    assert p in s.slots || Named(e.raised, p);
    TopologyMovesOn(s, e, p);
  }

  lemma MovedDooms(s: Sched, v: Sched, now: int, p: PaneId, i: nat)
    requires Inv(s, {}) && Inv(v, {}) && MovesOn(s, v, p) && i < |SlotOf(s, p).queue|
    requires SlotOf(v, p).generation > SlotOf(s, p).generation
    ensures SlotOf(s, p).queue[i] in s.ops && Behind(Dispatch(v, now), SlotOf(s, p).queue[i], false)
  {
    var id := SlotOf(s, p).queue[i];
    QueueWaits(s, p);
    hide Inv, Dispatch, NoOlder, SaysAll;
    assert Dismissed(v.live, v.log, id, OpIn(s.ops, id).waiters);
    assert Behind(v, id, false);
    DispatchDooms(v, now, id, false);
  }

  lemma SupersedesRaises(s: Sched, e: Event, p: PaneId)
    requires e.TopologyUpdate? && Supersedes(s, e, p)
    ensures Highest(e.raised, p, Base(s, e, p)) > SlotOf(s, p).generation
  {
    HighestIsLargest(e.raised, p, Base(s, e, p));
    hide Highest;
  }

  /** What was queued there is doomed: out of the loop without having started. */
  lemma SupersedesDooms(s: Sched, e: Event, p: PaneId, i: nat)
    requires Between(s) && e.TopologyUpdate? && Admissible(s, e) && Supersedes(s, e, p) && i < |SlotOf(s, p).queue|
    ensures SlotOf(s, p).queue[i] in s.ops && Behind(Step(s, e), SlotOf(s, p).queue[i], false)
  {
    var v := Updated(s, e);
    BetweenInv(s);
    hide Between, Inv, Admissible, MovesOn, Step, Updated, Dispatch, Highest, Behind, Named, Supersedes, Base;
    UpdateMovesOn(s, e, p);
    UpdateKeeps(s, e);
    SupersedesRaises(s, e, p);
    MovedDooms(s, v, e.now, p, i);
  }

  /** Over whole runs: what was queued on a superseded pane never starts, and each of its waiters has
      exactly the answer that the pane was replaced. */
  lemma QueuedNeverStarts(capacity: nat, before: seq<Event>, e: Event, after: seq<Event>, p: PaneId, i: nat)
    requires Admitted(Initial(capacity), before) && e.TopologyUpdate?
    requires var s := Run(Initial(capacity), before);
      Admissible(s, e) && Supersedes(s, e, p) && i < |SlotOf(s, p).queue| && Admitted(Step(s, e), after)
    ensures var s := Run(Initial(capacity), before); var t := Run(Step(s, e), after);
      var id := SlotOf(s, p).queue[i];
      && !WasStarted(t.starts, id) && id in s.ops && AllHeard(t.log, id, s.ops[id].waiters, PaneReplaced)
  {
    var s := Run(Initial(capacity), before);
    var u := Step(s, e);
    var t, id := Run(u, after), SlotOf(s, p).queue[i];
    InitialBetween(capacity);
    RunBetween(Initial(capacity), before);
    hide Run, Step, Between, Admissible, Admitted, Supersedes, Behind, AllHeard, WasStarted;
    SupersedesDooms(s, e, p, i);
    SupersedesLeavesBehind(s, e, p);
    StepBetween(s, e);
    RunBetween(u, after);
    RunDooms(u, after, id, false);
    RunGrows(u, after);
    BetweenInv(t);
    NeverStarted(t, id);
    QueueReplacedAt(s.ops, u.live, u.log, SlotOf(s, p).queue, i);
    HeardStays(u, t, id, s.ops[id].waiters, PaneReplaced);
  }

  lemma QueueReplacedAt(ops: map<OpId, Op>, live: set<OpId>, log: seq<Answer>, ids: seq<OpId>, i: nat)
    requires QueueReplaced(ops, live, log, ids) && i < |ids|
    ensures AllHeard(log, ids[i], OpIn(ops, ids[i]).waiters, PaneReplaced)
  {
    hide AllHeard;
  }

  lemma UpdateOvertakes(s: Sched, e: Event, p: PaneId, id: OpId)
    requires Between(s) && e.TopologyUpdate? && Admissible(s, e) && Supersedes(s, e, p) && RunsOn(s.slots, p, id)
    ensures Overtaken(Step(s, e), p, id) && forall i :: 0 <= i < |Step(s, e).log| ==> Step(s, e).log[i].op != id
  {
    var u := Step(s, e);
    hide Step, Between, Admissible, Supersedes, NoOlder, QueueReplaced;
    SupersedesLeavesBehind(s, e, p);
    assert Overtaken(u, p, id);
    StepBetween(s, e);
    BetweenInv(u);
    hide Overtaken, RunsOn;
    OvertakenIsBehind(u, p, id);
    NotYetAnswered(u, id);
  }

  /** Nothing but an unknown outcome is said of the operation; once it has ended every waiter it has
      gathered heard that and nothing else; by the loop's exit it has. */
  ghost predicate ReportedUnknown(t: Sched, id: OpId) {
    && OnlyUnknown(t.log, id) && id in t.ops
    && (id !in t.live ==> forall k :: 0 <= k < |t.ops[id].waiters| ==> ToldUnknown(t.log, t.ops[id].waiters[k].waiter, id))
    && (Exited(t) ==> id !in t.live)
  }

  lemma OvertakenIsReported(capacity: nat, before: seq<Event>, after: seq<Event>, p: PaneId, id: OpId)
    requires Admitted(Initial(capacity), before)
    requires var u := Run(Initial(capacity), before);
      && Admitted(u, after) && Overtaken(u, p, id)
      && forall i :: 0 <= i < |u.log| ==> u.log[i].op != id
    ensures ReportedUnknown(Run(Run(Initial(capacity), before), after), id)
  {
    hide Run, Admitted, Exited, ToldUnknown, Overtaken;
    OvertakenIsUnknown(capacity, before, after, p, id);
    RunGrows(Run(Initial(capacity), before), after);
  }

  /** And what runs there is reported as unknown, to every waiter it has or still gathers. */
  lemma RunningIsUnknown(capacity: nat, before: seq<Event>, e: Event, after: seq<Event>, p: PaneId, id: OpId)
    requires Admitted(Initial(capacity), before) && e.TopologyUpdate?
    requires var s := Run(Initial(capacity), before);
      !Exited(s) && Admissible(s, e) && Supersedes(s, e, p) && RunsOn(s.slots, p, id) && Admitted(Step(s, e), after)
    ensures ReportedUnknown(Run(Step(Run(Initial(capacity), before), e), after), id)
  {
    var s := Run(Initial(capacity), before);
    InitialBetween(capacity);
    RunBetween(Initial(capacity), before);
    hide Run, Step, Between, Admissible, Admitted, Supersedes, Exited, ReportedUnknown, Overtaken, RunsOn;
    UpdateOvertakes(s, e, p, id);
    RunSplits(Initial(capacity), before, e);
    OvertakenIsReported(capacity, before + [e], after, p, id);
  }
}
