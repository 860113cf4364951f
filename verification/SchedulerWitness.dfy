/** A run in which a stale request costs an operation under way its ledger entry, so that a third
    request with the same key is enqueued beside it. If that request carries another payload, the first
    operation's result is recorded for that payload and replayed to its repetition. */
module SchedulerWitness {
  import opened Options
  import opened SchedulerModel
  import opened SchedulerTheorems
  import opened SchedulerAnswers
  import opened SchedulerHistory

  const KEY: Key := "k"

  /** A command for pane 0 under one key, admitted for `generation`. */
  function Command(hash: string, generation: nat, sequence: nat, waiter: Waiter): Op {
    Op(false, 0, generation, KEY, hash, 10, 0, sequence, 0, [Attached(waiter, false)], false)
  }

  const First: Event := Request(1, Command("h", 5, 1, 1), [], 0, 0, 0)
  const Stale4: Event := Request(2, Command("h", 4, 2, 2), [], 0, 0, 0)

  function Again(hash: string): Event {
    Request(3, Command(hash, 5, 3, 3), [], 0, 0, 0)
  }

  /** The first command runs on pane 0 at generation 5; `present` says whether its entry is there. */
  ghost predicate Running(s: Sched, present: bool) {
    && s.capacity == 1 && s.inUse == 1 && !s.stopping && s.relayQueue == [] && 1 in s.live
    && 1 in s.ops && s.ops[1].key == KEY && s.ops[1].dispatched
    && !s.ops[1].relay && s.ops[1].pane == 0 && s.ops[1].hash == "h"
    && s.slots == map[0 := Slot(5, [], Some(InFlight(1, 5)))]
    && (if present then s.ledger.Keys == {KEY} && s.ledger[KEY].operation == Some(1) && s.ledger[KEY].hash == "h" else s.ledger == map[])
  }

  lemma OnePane()
    ensures SortedPanes({0}) == [0]
  {
    var panes: set<PaneId> := {0};
    LeastPane(panes);
    var p :| p in panes && (forall q :: q in panes ==> p <= q) && SortedPanes(panes) == [p] + SortedPanes(panes - {p});
    assert panes - {p} == {};
  }

  /** With the only slot of capacity free, dispatch starts the waiting command. */
  lemma DispatchStarts(s: Sched, id: OpId)
    requires s.capacity == 1 && s.inUse == 0 && !s.stopping && s.relayQueue == []
    requires s.slots == map[0 := Slot(5, [id], None)] && id in s.ops && s.ops[id].generation == 5 && s.ops[id].deadline == 10
    ensures Dispatch(s, 0) == StartPane(PopPane(s, 0), 0, id)
  {
    OnePane();
    assert s.slots.Keys == {0};
    var after := StartPane(PopPane(s, 0), 0, id);
    assert VisitPane(s, 0, 0) == after;
    assert PaneRound(s, [0], 0) == PaneRound(after, [], 0) == after;
    assert Backlog(s, [0]) == 1 + Backlog(s, []) && Backlog(after, [0]) == 0 + Backlog(after, []);
    assert PaneRounds(after, [0], 0) == after;
  }

  /** With capacity used up, dispatch changes nothing. */
  lemma DispatchRests(s: Sched)
    requires s.inUse >= s.capacity
    ensures Dispatch(s, 0) == s
  {
  }

  lemma EmptyPrunes()
    ensures Pruned(map[], 0, []) == map[] && PruneOrder(Aged(map[], 0), [])
  {
  }

  /** An entry under way is not pruned. */
  lemma EntryStays(ledger: map<Key, Entry>)
    requires forall k :: k in ledger ==> ledger[k].operation.Some?
    ensures Pruned(ledger, 0, []) == ledger && PruneOrder(Aged(ledger, 0), [])
  {
    assert Aged(ledger, 0) == ledger;
  }

  lemma FirstEnqueued(t: Sched)
    requires t.slots == map[] && t.ledger == map[] && t.relayQueue == [] && 1 in t.ops && t.ops[1] == Command("h", 5, 1, 1)
    ensures var q := Enqueue(t, 1);
      && q.slots == map[0 := Slot(5, [1], None)] && q.relayQueue == [] && q.live == t.live && q.fate == t.fate
      && q.capacity == t.capacity && q.inUse == t.inUse && q.stopping == t.stopping
      && q.ops == t.ops[1 := Command("h", 5, 1, 1).(generation := 5)]
      && q.ledger.Keys == {KEY} && q.ledger[KEY].operation == Some(1) && q.ledger[KEY].hash == "h"
  {
    var r := Record(t, 1);
    assert r.ledger.Keys == {KEY} && r.ledger[KEY].operation == Some(1);
    var raised := Supersede(r, 0, 5, KEY);
    assert StaleAll(r.(slots := r.slots[0 := Slot(5, [], None)]), []) == r.(slots := r.slots[0 := Slot(5, [], None)]);
    assert raised.ledger == r.ledger && raised.ops == r.ops && raised.slots == map[0 := Slot(5, [], None)];
    assert InsertBySequence(StampAndInsert(raised, 1).ops, [], 1) == [1];
  }

  /** A request that finds nothing under its key, and no newer generation, is enqueued. */
  lemma Enqueues(s: Sched, id: OpId, op: Op, victims: seq<Key>)
    requires !s.stopping && op.deadline == 10 && op.key !in Pruned(s.ledger, 0, victims)
    requires op.pane !in s.slots || op.admitted >= s.slots[op.pane].generation
    ensures var t := Take(s, id, op).(ledger := Pruned(s.ledger, 0, victims));
      Step(s, Request(id, op, victims, 0, 0, 0)) == Dispatch(Enqueue(t, id), 0)
  {
    hide Dispatch, Enqueue, Pruned;
  }

  lemma StartedRuns(q: Sched)
    requires q.slots == map[0 := Slot(5, [1], None)] && q.relayQueue == [] && 1 in q.live && q.capacity == 1 && q.inUse == 0
    requires !q.stopping && 1 in q.ops && q.ops[1].key == KEY && !q.ops[1].relay && q.ops[1].pane == 0 && q.ops[1].hash == "h"
    requires q.ledger.Keys == {KEY} && q.ledger[KEY].operation == Some(1) && q.ledger[KEY].hash == "h"
    ensures var t := StartPane(PopPane(q, 0), 0, 1);
      Running(t, true) && t.ops.Keys == q.ops.Keys && t.fate == q.fate
  {
    assert q.slots[0].queue[1..] == [];
  }

  lemma FirstAdmitted(s: Sched, op: Op)
    requires s == Initial(1) && op == Command("h", 5, 1, 1)
    ensures Admissible(s, Request(1, op, [], 0, 0, 0)) && Pruned(s.ledger, 0, []) == map[]
    ensures var t := Take(s, 1, op).(ledger := map[]);
      && t.slots == map[] && t.relayQueue == [] && t.ops == map[1 := op] && t.fate.Keys == {1} && 1 in t.live
      && t.capacity == 1 && t.inUse == 0 && !t.stopping
  {
    EmptyPrunes();
    hide Pruned;
  }

  /** The first request starts at once. */
  lemma FirstRuns(s: Sched, op: Op)
    requires s == Initial(1) && op == Command("h", 5, 1, 1)
    ensures var e := Request(1, op, [], 0, 0, 0);
      Admissible(s, e) && Running(Step(s, e), true) && Step(s, e).ops.Keys == {1} && Step(s, e).fate.Keys == {1}
  {
    hide Enqueue, Step, Dispatch, Running, Pruned, Admissible, Take;
    FirstAdmitted(s, op);
    Enqueues(s, 1, op, []);
    var t := Take(s, 1, op).(ledger := map[]);
    FirstEnqueued(t);
    var q := Enqueue(t, 1);
    DispatchStarts(q, 1);
    StartedRuns(q);
  }

  /** A request admitted for an older generation is refused and takes the entry with it. */
  lemma StaleForgets(s: Sched)
    requires Running(s, true) && 2 !in s.ops && 2 !in s.fate
    ensures Admissible(s, Stale4) && Running(Step(s, Stale4), false)
    ensures Step(s, Stale4).ops.Keys == s.ops.Keys + {2} && Step(s, Stale4).fate.Keys == s.fate.Keys + {2}
  {
    EntryStays(s.ledger);
    hide Pruned, PruneOrder, Answers;
  }

  /** The first command runs, and a third request with payload `hash` waits behind it and owns the
      entry. */
  ghost predicate Doubled(s: Sched, hash: string) {
    && s.capacity == 1 && s.inUse == 1 && !s.stopping && s.relayQueue == [] && 1 in s.live && 3 in s.live
    && s.ops.Keys == {1, 2, 3} && s.fate.Keys == {1, 2, 3}
    && s.ops[1].key == KEY && s.ops[1].dispatched && !s.ops[1].relay && s.ops[1].pane == 0 && s.ops[1].hash == "h"
    && s.ops[3].key == KEY && !s.ops[3].dispatched && s.ops[3].generation == 5 && s.ops[3].deadline == 10
    && s.slots == map[0 := Slot(5, [3], Some(InFlight(1, 5)))]
    && s.ledger == map[KEY := Entry(hash, Some(3), None, 5, 0, 0)]
  }

  lemma AgainEnqueued(s: Sched, hash: string)
    requires Running(s, false) && s.ops.Keys == {1, 2} && s.fate.Keys == {1, 2}
    ensures var q := Enqueue(Take(s, 3, Command(hash, 5, 3, 3)).(ledger := map[]), 3); q.inUse >= q.capacity && Doubled(q, hash)
  {
    var t := Take(s, 3, Command(hash, 5, 3, 3)).(ledger := map[]);
    var r := Record(t, 3);
    var raised := r.(slots := r.slots[0 := SlotOf(r, 0)]);
    assert raised.slots == s.slots;
    assert Enqueue(t, 3) == StampAndInsert(raised, 3);
    assert InsertBySequence(StampAndInsert(raised, 3).ops, [], 3) == [3];
  }

  /** So another request under the same key joins the queue while the first one runs. */
  lemma AgainQueues(s: Sched, hash: string)
    requires Running(s, false) && s.ops.Keys == {1, 2} && s.fate.Keys == {1, 2}
    ensures Admissible(s, Again(hash)) && Doubled(Step(s, Again(hash)), hash)
  {
    EmptyPrunes();
    AgainEnqueued(s, hash);
    hide Enqueue, Dispatch, Doubled, Pruned, PruneOrder;
    var t := Take(s, 3, Command(hash, 5, 3, 3)).(ledger := map[]);
    assert Step(s, Again(hash)) == Dispatch(Enqueue(t, 3), 0);
    DispatchRests(Enqueue(t, 3));
  }

  lemma GoesOn(s: Sched, present: bool)
    requires Running(s, present)
    ensures !Exited(s)
  {
  }

  lemma ThreeSteps(s: Sched, e: Event, f: Event, g: Event)
    requires !Exited(s) && Admissible(s, e) && !Exited(Step(s, e)) && Admissible(Step(s, e), f)
    requires !Exited(Step(Step(s, e), f)) && Admissible(Step(Step(s, e), f), g)
    ensures Admitted(s, [e, f, g]) && Run(s, [e, f, g]) == Step(Step(Step(s, e), f), g)
  {
    hide Step, Admissible, Exited;
    var a, b := Step(s, e), Step(Step(s, e), f);
    var c := Step(b, g);
    assert [e, f, g][1..] == [f, g] && [f, g][1..] == [g] && [g][1..] == [];
    assert Run(c, []) == c && Run(b, [g]) == c && Run(a, [f, g]) == c;
    assert Admitted(c, []) && Admitted(b, [g]) && Admitted(a, [f, g]);
  }

  /** The run up to the third request. */
  lemma Doubles(events: seq<Event>, hash: string)
    requires events == [First, Stale4, Again(hash)]
    ensures Admitted(Initial(1), events) && Doubled(Run(Initial(1), events), hash)
  {
    hide Step, Admissible, Run, Admitted, Running, Doubled;
    var s, first, stale, again := Initial(1), events[0], events[1], events[2];
    FirstRuns(s, first.op);
    var a := Step(s, first);
    StaleForgets(a);
    var b := Step(a, stale);
    AgainQueues(b, hash);
    GoesOn(a, true);
    GoesOn(b, false);
    ThreeSteps(s, first, stale, again);
    assert events == [first, stale, again];
  }

  /** Two operations with one key under way: the second was enqueued because a stale request in
      between deleted the first one's entry. */
  lemma StaleRequestCostsTheEntry(events: seq<Event>)
    requires events == [First, Stale4, Again("h")]
    ensures var t := Run(Initial(1), events);
      && Admitted(Initial(1), events)
      && 1 in t.live && 3 in t.live && 1 in t.ops && 3 in t.ops && t.ops[1].key == t.ops[3].key == KEY
      && t.ops[1].dispatched && 0 in t.slots && t.slots[0].queue == [3]
  {
    hide Run, Admitted;
    Doubles(events, "h");
  }

  // ---------------------------------------------------------------- the wrong payload's result

  /** The first command ends, in its current session. */
  function End(v: Result): Event {
    Completion(1, Some(v), false, true, 0)
  }

  lemma FirstSettles(s: Sched, hash: string, v: Result)
    requires Doubled(s, hash) && v.phase != "not_started"
    ensures EndsCurrent(s, 1, true)
    ensures var c := CompletePane(s, 1, Some(v), false, true);
      && c.capacity == 1 && c.inUse == 0 && !c.stopping && c.relayQueue == [] && c.ops == s.ops && c.fate.Keys == s.fate.Keys
      && c.slots == map[0 := Slot(5, [3], None)]
      && c.ledger == map[KEY := Entry(hash, None, Some(v), 5, 0, 0)]
  {
    hide Answers;
  }

  /** Its result goes into the entry of the third request. */
  lemma EndRecordsForAnother(s: Sched, hash: string, v: Result)
    requires Doubled(s, hash) && v.phase != "not_started"
    ensures RecordedBy(s, End(v), KEY, hash, v) && 1 in s.ops && s.ops[1].hash == "h"
    ensures var t := Step(s, End(v));
      && t.ops.Keys == {1, 2, 3} && t.fate.Keys == {1, 2, 3} && !t.stopping && t.ledger == map[KEY := Entry(hash, None, Some(v), 5, 0, 0)]
      && 0 in t.slots && t.slots[0].generation == 5
  {
    var c := CompletePane(s, 1, Some(v), false, true);
    FirstSettles(s, hash, v);
    hide CompletePane, EndsCurrent, Dispatch;
    assert Step(s, End(v)) == Dispatch(c, 0);
    DispatchStarts(c, 3);
  }

  lemma YoungStays(ledger: map<Key, Entry>, hash: string, v: Result)
    requires ledger == map[KEY := Entry(hash, None, Some(v), 5, 0, 0)]
    ensures PruneOrder(Aged(ledger, 0), []) && KEY in Pruned(ledger, 0, [])
  {
    assert Aged(ledger, 0) == ledger && |ledger| == 1;
  }

  /** A repetition of the third request. */
  function Retry(hash: string): Event {
    Request(4, Command(hash, 5, 4, 4), [], 0, 0, 0)
  }

  lemma RetryIsAdmissible(t: Sched, hash: string, v: Result)
    requires t.ops.Keys == {1, 2, 3} && t.fate.Keys == {1, 2, 3} && t.ledger == map[KEY := Entry(hash, None, Some(v), 5, 0, 0)]
    ensures Admissible(t, Retry(hash)) && KEY in Pruned(t.ledger, 0, [])
  {
    YoungStays(t.ledger, hash, v);
    hide Pruned, PruneOrder;
  }

  /** The result `v` of payload "h" stands in the entry of payload `other`. */
  ghost predicate Mistaken(t: Sched, other: string, v: Result) {
    && Between(t) && t.ops.Keys == {1, 2, 3} && t.fate.Keys == {1, 2, 3} && !t.stopping
    && t.ledger == map[KEY := Entry(other, None, Some(v), 5, 0, 0)] && 0 in t.slots && t.slots[0].generation == 5
  }

  /** The run up to the end of the first command. */
  lemma Mistakes(events: seq<Event>, other: string, v: Result)
    requires events == [First, Stale4, Again(other)] + [End(v)] && v.phase != "not_started"
    ensures var s, t := Run(Initial(1), events[..3]), Run(Initial(1), events);
      && Admitted(Initial(1), events) && Mistaken(t, other, v)
      && RecordedBy(s, End(v), KEY, other, v) && 1 in s.ops && s.ops[1].hash == "h"
  {
    var three := events[..3];
    assert three == [First, Stale4, Again(other)];
    Doubles(three, other);
    var s := Run(Initial(1), three);
    EndRecordsForAnother(s, other, v);
    hide Step, Run, Admitted, Between, RecordedBy;
    RunSplits(Initial(1), three, End(v));
    InitialBetween(1);
    RunBetween(Initial(1), events);
  }

  lemma RetryIsAnswered(t: Sched, other: string, v: Result)
    requires Mistaken(t, other, v)
    ensures Admissible(t, Retry(other)) && !Exited(t) && Step(t, Retry(other)).log == t.log + [Answer(4, 4, Replayed(v), true)]
  {
    RetryIsAdmissible(t, other, v);
    hide Step, Pruned, PruneOrder, Between, Admissible;
    KnownKeyAnswer(t, Retry(other));
  }

  lemma Listed(events: seq<Event>, a: Event, b: Event, c: Event, d: Event, e: Event)
    requires events == [a, b, c, d, e]
    ensures events[..4] == [a, b, c] + [d] && events == events[..4] + [e] && events[..4][..3] == events[..3] && events[3] == d
  {
  }

  /** A result is replayed to a command with another payload: the run enqueues payload "h", which
      loses its entry to a stale request, then payload `other` under the same key, and the first one's
      result answers the repetition of the second. */
  lemma ReplaysAnotherPayload(events: seq<Event>, other: string, v: Result)
    requires events == [First, Stale4, Again(other), End(v), Retry(other)] && v.phase != "not_started" && other != "h"
    ensures var s, t := Run(Initial(1), events[..3]), Run(Initial(1), events);
      && Admitted(Initial(1), events) && t.log != []
      && RecordedBy(s, events[3], KEY, other, v) && 1 in s.ops && s.ops[1].hash != other
      && t.log[|t.log| - 1] == Answer(4, 4, Replayed(v), true)
  {
    var four := events[..4];
    hide Step, Run, Admitted, RecordedBy, Mistaken, Admissible, Exited, Again, End, Retry;
    Listed(events, First, Stale4, Again(other), End(v), Retry(other));
    Mistakes(four, other, v);
    RunSplits(Initial(1), four, Retry(other));
    RetryIsAnswered(Run(Initial(1), four), other, v);
  }
}
