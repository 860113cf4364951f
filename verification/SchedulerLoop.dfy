/** The scheduler's event loop in the source's own form: one owner, whose fields are the local
    variables of `Scheduler.run` and whose methods are the cases of its select. Every method is
    proved to do exactly one step of the state machine in `SchedulerModel`, so the promises proved
    there hold of it. */
module SchedulerLoop {
  import opened Options
  import opened SchedulerModel
  import opened SchedulerInvariant
  import opened SchedulerEvents
  import opened SchedulerTheorems
  import DeadlineHeap

  /** Lists a set in an arbitrary order, as ranging over a Go map does. */
  method ListPanes(panes: set<PaneId>) returns (order: seq<PaneId>)
    ensures Lists(order, panes)
  {
    order := [];
    var todo := panes;
    while todo != {}
      invariant todo <= panes && Lists(order, panes - todo)
      decreases todo
    {
      var p :| p in todo;
      assert forall q :: q in order + [p] <==> q in order || q == p;
      todo, order := todo - {p}, order + [p];
    }
    assert panes - todo == panes;
  }

  method ListGenerations(generations: map<PaneId, nat>) returns (raised: seq<(PaneId, nat)>)
    ensures forall pair :: pair in raised <==> pair.0 in generations && generations[pair.0] == pair.1
  {
    raised := [];
    var todo := generations.Keys;
    while todo != {}
      invariant todo <= generations.Keys
      invariant forall pair :: pair in raised <==>
          pair.0 in generations && pair.0 !in todo && generations[pair.0] == pair.1
      decreases todo
    {
      var p :| p in todo;
      var item := (p, generations[p]);
      assert forall pair :: pair in raised + [item] <==> pair in raised || pair == item;
      todo, raised := todo - {p}, raised + [item];
    }
  }

  /** The heap knows each operation it holds by that operation's deadline. */
  ghost predicate HeapMatches(items: seq<OpId>, due: map<OpId, int>, ops: map<OpId, Op>) {
    forall id :: id in items ==> id in ops && id in due && due[id] == ops[id].deadline
  }

  lemma MatchesStamped(items: seq<OpId>, due: map<OpId, int>, ops: map<OpId, Op>, id: OpId, op: Op)
    requires HeapMatches(items, due, ops) && id in ops && op.deadline == ops[id].deadline
    ensures HeapMatches(items, due, ops[id := op])
  {
  }

  class Scheduler {
    const capacity: nat
    const deadlines: DeadlineHeap.Heap
    var ops: map<OpId, Op>
    var slots: map<PaneId, Slot>
    var relayQueue: seq<OpId>
    var relayInFlight: set<OpId>
    var ledger: map<Key, Entry>
    var knownActive: set<PaneId>
    var inUse: int
    var stopping: bool
    var acked: bool
    var log: seq<Answer>             // what was sent on the response channels
    ghost var live: set<OpId>
    ghost var fate: map<Waiter, Fate>
    ghost var starts: seq<Start>

    ghost function View(): Sched
      reads this, deadlines
    {
      Sched(capacity, ops, slots, relayQueue, relayInFlight, ledger, knownActive, deadlines.Contents(),
            inUse, stopping, acked, live, fate, log, starts)
    }

    /** The heap holds the deadlines of the operations it names; no entry has an empty key. */
    ghost predicate Synced()
      reads this, deadlines
    {
      && deadlines.Valid()
      && HeapMatches(deadlines.items, deadlines.due, ops)
      && "" !in ledger
    }

    ghost predicate Valid()
      reads this, deadlines
    {
      Synced() && Between(View())
    }

    constructor (herdrCapacity: int)
      ensures Valid() && fresh(deadlines)
      ensures View() == Initial(if herdrCapacity <= 0 then 8 else herdrCapacity)
    {
      capacity := if herdrCapacity <= 0 then 8 else herdrCapacity;
      deadlines := new DeadlineHeap.Heap();
      ops, slots, relayQueue, relayInFlight, ledger, knownActive := map[], map[], [], {}, map[], {};
      inUse, stopping, acked, log := 0, false, false, [];
      live, fate, starts := {}, map[], [];
      new;
      hide Between;
      InitialBetween(capacity);
      assert View() == Initial(capacity);
    }

    // -------------------------------------------------------------- answering

    /** `replyWithReplay`. */
    method Reply(id: OpId, reply: Reply)
      requires Synced()
      modifies this`log, this`live, this`fate
      ensures Synced() && View() == Respond(old(View()), id, reply)
    {
      var waiters := OpIn(ops, id).waiters;
      ghost var all := Answers(id, waiters, reply);
      for k := 0 to |waiters|
        invariant log == old(log) + all[..k] && live == old(live) && fate == old(fate)
      {
        log := log + [Answer(waiters[k].waiter, id, reply, reply.Replayed? || waiters[k].replayed)];
        assert all[..k + 1] == all[..k] + [all[k]];
      }
      assert all[..|waiters|] == all;
      live := live - {id};
      fate := Respond(old(View()), id, reply).fate;
    }

    /** `if op.index >= 0 { heap.Remove(&deadlines, op.index) }`. */
    method RemoveDeadline(id: OpId)
      requires Synced()
      modifies deadlines
      ensures Synced() && View() == old(View()).(deadlines := old(View()).deadlines - {id})
    {
      deadlines.PositionMeansMember(id);
      if id in deadlines.index && deadlines.index[id] >= 0 {
        var removed := deadlines.Remove(deadlines.index[id]);
        assert forall x :: x in deadlines.items ==> x in deadlines.Contents();
      } else {
        assert deadlines.Contents() - {id} == deadlines.Contents();
      }
    }

    method ForgetKey(key: Key)
      requires Synced()
      modifies this`ledger
      ensures Synced() && View() == DropKey(old(View()), key)
    {
      if key != "" {
        ledger := ledger - {key};
      } else {
        assert ledger - {""} == ledger;
      }
    }

    method ExpireOp(id: OpId)
      requires Synced()
      modifies this, deadlines
      ensures Synced() && View() == Expire(old(View()), id)
    {
      RemoveDeadline(id);
      ForgetKey(OpIn(ops, id).key);
      Reply(id, NotStarted);
    }

    method ReplyStale(id: OpId)
      requires Synced()
      modifies this, deadlines
      ensures Synced() && View() == Stale(old(View()), id)
    {
      RemoveDeadline(id);
      ForgetKey(OpIn(ops, id).key);
      Reply(id, if OpIn(ops, id).dispatched then DispatchedUnknown else PaneReplaced);
    }

    method ReplyStaleAll(ids: seq<OpId>)
      requires Synced()
      modifies this, deadlines
      ensures Synced() && View() == StaleAll(old(View()), ids)
    {
      for k := 0 to |ids|
        invariant Synced() && StaleAll(View(), ids[k..]) == StaleAll(old(View()), ids)
      {
        hide Stale, Synced;
        assert ids[k..][1..] == ids[k + 1..];
        ReplyStale(ids[k]);
      }
    }

    method ReplyClosedAll(ids: seq<OpId>)
      requires Synced()
      modifies this`log, this`live, this`fate
      ensures Synced() && View() == CloseAll(old(View()), ids)
    {
      for k := 0 to |ids|
        invariant Synced() && CloseAll(View(), ids[k..]) == CloseAll(old(View()), ids)
      {
        hide Respond, Synced;
        assert ids[k..][1..] == ids[k + 1..];
        Reply(ids[k], Closed);
      }
    }

    // -------------------------------------------------------------- dispatch

    /** `start` for a relay-level command. */
    method LaunchRelay(id: OpId)
      requires Synced()
      modifies this`inUse, this`relayInFlight, this`ops, this`starts
      ensures Synced() && View() == StartRelay(old(View()), id)
    {
      inUse := inUse + 1;
      relayInFlight := relayInFlight + {id};
      starts := starts + [Start(id, OpIn(ops, id).pane, 0, 0)];
      ops := ops[id := OpIn(ops, id).(dispatched := true)];
    }

    /** `start` for a pane command: the token carries the slot's generation. */
    method LaunchPane(p: PaneId, id: OpId)
      requires Synced() && p in slots
      modifies this`inUse, this`slots, this`ops, this`starts
      ensures Synced() && View() == StartPane(old(View()), p, id)
    {
      inUse := inUse + 1;
      starts := starts + [Start(id, OpIn(ops, id).pane, slots[p].generation, slots[p].generation)];
      slots := slots[p := slots[p].(inFlight := Some(InFlight(id, slots[p].generation)))];
      ops := ops[id := OpIn(ops, id).(dispatched := true)];
    }

    method DispatchRelayQueue(now: int)
      requires Synced()
      modifies this, deadlines
      ensures Synced() && View() == DispatchRelay(old(View()), now)
    {
      while relayQueue != [] && inUse < capacity && !stopping
        invariant Synced() && DispatchRelay(View(), now) == DispatchRelay(old(View()), now)
        decreases |relayQueue|
      {
        hide Synced;
        ghost var before := View();
        var id := relayQueue[0];
        TakeFirstRelay();
        ghost var popped := View();
        SettledGrows(popped, id);
        hide Expire, StartRelay;
        if now >= OpIn(ops, id).deadline {
          ExpireOp(id);
        } else {
          LaunchRelay(id);
        }
        assert View() == RelayStep(before, now);
        StepShortens(before, now);
      }
    }

    lemma StepShortens(s: Sched, now: int)
      requires s.relayQueue != []
      ensures |RelayStep(s, now).relayQueue| < |s.relayQueue|
    {
    }

    method TakeFirstRelay()
      requires Synced() && relayQueue != []
      modifies this`relayQueue
      ensures Synced() && View() == old(View()).(relayQueue := old(relayQueue)[1..])
    {
      relayQueue := relayQueue[1..];
    }

    method TakeFirst(p: PaneId)
      requires Synced() && Runnable(View(), p)
      modifies this`slots
      ensures Synced() && View() == PopPane(old(View()), p)
    {
      slots := slots[p := slots[p].(queue := slots[p].queue[1..])];
    }

    method Visit(p: PaneId, now: int) returns (progress: bool)
      requires Synced()
      modifies this, deadlines
      ensures Synced() && View() == VisitPane(old(View()), p, now)
      ensures progress == (old(inUse) < capacity && Runnable(old(View()), p))
    {
      if inUse >= capacity || p !in slots || slots[p].inFlight.Some? || slots[p].queue == [] {
        return false;
      }
      var id := slots[p].queue[0];
      TakeFirst(p);
      hide Synced, Stale, Expire, StartPane;
      if OpIn(ops, id).generation != slots[p].generation {
        ReplyStale(id);
      } else if now >= OpIn(ops, id).deadline {
        ExpireOp(id);
      } else {
        LaunchPane(p, id);
      }
      progress := true;
    }

    method Round(panes: seq<PaneId>, now: int) returns (progress: bool)
      requires Synced() && inUse < capacity
      modifies this, deadlines
      ensures Synced() && View() == PaneRound(old(View()), panes, now)
      ensures progress == (Backlog(View(), panes) < Backlog(old(View()), panes))
    {
      progress := false;
      ghost var start := View();
      for k := 0 to |panes|
        invariant Synced() && PaneRound(View(), panes[k..], now) == PaneRound(start, panes, now)
        invariant progress == (Backlog(View(), panes) < Backlog(start, panes))
        invariant Backlog(View(), panes) <= Backlog(start, panes)
      {
        hide Synced, VisitPane;
        assert panes[k..][1..] == panes[k + 1..];
        ghost var before := View();
        VisitPaneFrame(before, panes[k], now);
        var popped := Visit(panes[k], now);
        BacklogFrame(before, View(), panes[k], panes);
        hide Backlog;
        progress := progress || popped;
      }
    }

    /** `dispatch`. */
    method DispatchAll(now: int)
      requires Synced()
      modifies this, deadlines
      ensures Synced() && View() == Dispatch(old(View()), now)
    {
      DispatchRelayDrains(View(), now);
      DispatchRelayQueue(now);
      var panes := SortedPanes(slots.Keys);
      ghost var base := View();
      hide Synced, DispatchRelay, PaneRound;
      var progress := true;
      while progress && inUse < capacity && !stopping
        invariant Synced()
        invariant if progress then PaneRounds(View(), panes, now) == PaneRounds(base, panes, now)
                  else View() == PaneRounds(base, panes, now)
        decreases Backlog(View(), panes), progress
      {
        PaneRoundFrame(View(), panes, panes, now);
        progress := Round(panes, now);
      }
    }

    // -------------------------------------------------------------- ledger

    /** The range loop that forgets a pane's older entries. */
    method ForgetOlder(p: PaneId, generation: nat, keep: Key)
      requires Synced()
      modifies this`ledger
      ensures Synced() && View() == old(View()).(ledger := WithoutOlder(old(ledger), p, generation, keep))
    {
      var todo := ledger.Keys;
      while todo != {}
        invariant todo <= old(ledger).Keys
        invariant ledger == map k | k in old(ledger) &&
            (k in todo || k == keep || old(ledger)[k].pane != p || old(ledger)[k].generation >= generation) :: old(ledger)[k]
        decreases todo
      {
        var key :| key in todo;
        if key != keep && ledger[key].pane == p && ledger[key].generation < generation {
          ledger := ledger - {key};
        }
        todo := todo - {key};
      }
    }

    method DropAged(now: int)
      requires Synced()
      modifies this`ledger
      ensures Synced() && ledger == Aged(old(ledger), now)
    {
      var todo := ledger.Keys;
      while todo != {}
        invariant todo <= old(ledger).Keys
        invariant ledger == map k | k in old(ledger) &&
            (k in todo || !(old(ledger)[k].operation.None? && now - old(ledger)[k].createdAt >= LEDGER_RETENTION)) ::
            old(ledger)[k]
        decreases todo
      {
        var key :| key in todo;
        if ledger[key].operation.None? && now - ledger[key].createdAt >= LEDGER_RETENTION {
          ledger := ledger - {key};
        }
        todo := todo - {key};
      }
    }

    /** The oldest finished entry's key, or "" when every entry's operation is under way. */
    method OldestKey() returns (oldest: Key)
      requires "" !in ledger
      ensures oldest == "" ==> forall k :: k in ledger ==> ledger[k].operation.Some?
      ensures oldest != "" ==> OldestFinished(ledger, oldest)
    {
      oldest := "";
      var todo := ledger.Keys;
      while todo != {}
        invariant todo <= ledger.Keys
        invariant oldest == "" ==> forall k :: k in ledger && k !in todo ==> ledger[k].operation.Some?
        invariant oldest != "" ==> oldest in ledger && ledger[oldest].operation.None?
        invariant oldest != "" ==> forall k :: k in ledger && k !in todo && ledger[k].operation.None? ==>
            ledger[oldest].createdAt <= ledger[k].createdAt
        decreases todo
      {
        var key :| key in todo;
        if ledger[key].operation.None? && (oldest == "" || ledger[key].createdAt < ledger[oldest].createdAt) {
          oldest := key;
        }
        todo := todo - {key};
      }
    }

    /** `pruneLedger`. */
    method PruneLedger(now: int) returns (ghost victims: seq<Key>)
      requires Synced()
      modifies this`ledger
      ensures Synced() && PruneOrder(Aged(old(ledger), now), victims)
      ensures View() == old(View()).(ledger := Pruned(old(ledger), now, victims))
    {
      DropAged(now);
      victims := DropOldest();
    }

    /** The loop that drops the oldest finished entries until there is room. */
    method DropOldest() returns (ghost victims: seq<Key>)
      requires Synced()
      modifies this`ledger
      ensures Synced() && PruneOrder(old(ledger), victims) && ledger == Dropped(old(ledger), victims)
    {
      victims := [];
      assert Continues(ledger, victims, ledger) by { ContinuesNone(ledger); }
      hide Continues, PruneOrder, Dropped;
      while |ledger| >= MAX_LEDGER_ENTRIES
        invariant Synced()
        invariant Continues(old(ledger), victims, ledger)
        decreases |ledger|
      {
        var oldest := OldestKey();
        if oldest == "" {
          break;
        }
        ContinuesStep(old(ledger), victims, ledger, oldest);
        ledger := ledger - {oldest};
        victims := victims + [oldest];
      }
      ContinuesEnd(old(ledger), victims, ledger);
    }

    // -------------------------------------------------------------- superseding

    method SetSlot(p: PaneId, slot: Slot)
      requires Synced()
      modifies this`slots
      ensures Synced() && View() == old(View()).(slots := old(slots)[p := slot])
    {
      slots := slots[p := slot];
    }

    method SupersedePane(p: PaneId, generation: nat, keep: Key)
      requires Synced() && p in slots
      modifies this, deadlines
      ensures Synced() && View() == Supersede(old(View()), p, generation, keep)
    {
      var queue := slots[p].queue;
      SetSlot(p, slots[p].(generation := generation, queue := []));
      hide Synced, StaleAll, WithoutOlder;
      ReplyStaleAll(queue);
      ForgetOlder(p, generation, keep);
    }

    // -------------------------------------------------------------- events

    method TakeRequest(id: OpId, op: Op)
      requires Synced() && |op.waiters| == 1 && id !in ops
      modifies this`ops, this`live, this`fate
      ensures Synced() && View() == Take(old(View()), id, op)
    {
      ops := ops[id := op];
      live := live + {id};
      fate := fate[op.waiters[0].waiter := Waiting(id, 0)];
    }

    method AttachTo(id: OpId, host: OpId)
      requires Synced() && host in ops
      modifies this`ops, this`live, this`fate
      ensures Synced() && View() == Attach(old(View()), id, host)
    {
      fate := Attach(View(), id, host).fate;
      live := live - {id};
      var joined := [];
      var mine := OpIn(ops, id).waiters;
      for k := 0 to |mine|
        invariant |joined| == k && forall i :: 0 <= i < k ==> joined[i] == mine[i].(replayed := true)
      {
        joined := joined + [mine[k].(replayed := true)];
      }
      assert joined == seq(|mine|, i requires 0 <= i < |mine| => mine[i].(replayed := true));
      ops := ops[host := ops[host].(waiters := ops[host].waiters + joined)];
    }

    method OpenEntry(id: OpId)
      requires Synced() && id in ops && id !in deadlines.Contents()
      modifies this`ledger, deadlines
      ensures Synced() && View() == Record(old(View()), id)
    {
      var op := ops[id];
      if op.key != "" {
        ledger := ledger[op.key := Entry(op.hash, Some(id), None, 0, op.pane, op.receivedAt)];
      }
      deadlines.Push(id, op.deadline);
      assert forall x :: x in deadlines.items ==> x in deadlines.Contents();
    }

    /** `insertBySequence`: binary search for the first operation with a larger sequence number. */
    method Inserted(queue: seq<OpId>, id: OpId) returns (longer: seq<OpId>)
      requires Ordered(ops, queue)
      ensures longer == InsertBySequence(ops, queue, id)
    {
      var low, high := 0, |queue|;
      while low < high
        invariant 0 <= low <= high <= |queue|
        invariant forall i :: 0 <= i < low ==> OpIn(ops, queue[i]).sequence <= OpIn(ops, id).sequence
        invariant forall i :: high <= i < |queue| ==> OpIn(ops, queue[i]).sequence > OpIn(ops, id).sequence
      {
        var mid := (low + high) / 2;
        if OpIn(ops, queue[mid]).sequence > OpIn(ops, id).sequence {
          high := mid;
        } else {
          low := mid + 1;
        }
      }
      longer := queue[..low] + [id] + queue[low..];
      InsertionPoint(ops, queue, id, low);
    }

    method JoinRelayQueue(id: OpId)
      requires Synced() && Ordered(ops, relayQueue)
      modifies this`relayQueue
      ensures Synced() && View() == EnqueueRelay(old(View()), id)
    {
      relayQueue := Inserted(relayQueue, id);
    }

    method StampEntry(key: Key, generation: nat)
      requires Synced()
      modifies this`ledger
      ensures Synced()
      ensures ledger == if key in old(ledger) then old(ledger)[key := old(ledger)[key].(generation := generation)] else old(ledger)
    {
      if key in ledger {
        ledger := ledger[key := ledger[key].(generation := generation)];
      }
    }

    method StampInto(id: OpId)
      requires Synced() && id in ops && ops[id].pane in slots
      requires Ordered(ops, slots[ops[id].pane].queue) && id !in slots[ops[id].pane].queue
      modifies this`ops, this`ledger, this`slots
      ensures Synced() && View() == StampAndInsert(old(View()), id)
    {
      var op := ops[id];
      var slot := slots[op.pane];
      MatchesStamped(deadlines.items, deadlines.due, ops, id, op.(generation := slot.generation));
      hide HeapMatches;
      StampEntry(op.key, slot.generation);
      ops := ops[id := op.(generation := slot.generation)];
      var queue := Inserted(slot.queue, id);
      slots := slots[op.pane := slot.(queue := queue)];
    }

    /** The pane branch of ingress after the ledger. */
    method EnqueueOnPane(id: OpId)
      requires Synced() && id in ops
      requires Ordered(ops, SlotOf(View(), ops[id].pane).queue) && id !in SlotOf(View(), ops[id].pane).queue
      modifies this, deadlines
      ensures Synced() && View() == EnqueuePane(old(View()), id)
    {
      var op := ops[id];
      SameSupersede(View(), op.pane, op.admitted, op.key);
      if op.pane !in slots {
        SetSlot(op.pane, Slot(0, [], None));
      } else {
        assert slots[op.pane := slots[op.pane]] == slots;
      }
      hide Synced;
      if op.admitted > slots[op.pane].generation {
        SupersedeFrame(View(), op.pane, op.admitted, op.key);
        hide Supersede;
        SupersedePane(op.pane, op.admitted, op.key);
      }
      hide StampAndInsert;
      StampInto(id);
    }

    /** What ingress does with a command it neither answers nor attaches, up to `dispatch`. */
    method EnqueueOp(id: OpId)
      requires Synced() && Inv(View(), {id}) && id !in deadlines.Contents()
      modifies this, deadlines
      ensures Synced() && View() == Enqueue(old(View()), id)
    {
      QueuesOrdered(View(), id);
      hide Inv, Synced, EnqueuePane, EnqueueRelay;
      var relay := OpIn(ops, id).relay;
      OpenEntry(id);
      if relay {
        JoinRelayQueue(id);
      } else {
        EnqueueOnPane(id);
      }
    }

    /** The ingress case. */
    method Submit(id: OpId, op: Op, early: int, now: int, later: int) returns (ghost e: Event)
      requires Valid() && Fresh(View(), id, op)
      modifies this, deadlines
      ensures Valid() && Admissible(old(View()), e) && View() == Step(old(View()), e)
      ensures e.Request? && e.id == id && e.op == op && e.early == early && e.now == now && e.later == later
    {
      ghost var before := View();
      TakeKeeps(before, id, op);
      assert id !in deadlines.Contents();
      TakeRequest(id, op);
      ghost var victims := PruneLedger(early);
      e := Request(id, op, victims, early, now, later);
      PruneKeeps(Take(before, id, op), {id}, early, victims);
      assert View() == Take(before, id, op).(ledger := Pruned(before.ledger, early, victims));
      StepBetween(before, e);
      HostsKnown(View(), id);
      hide Inv, Between, PruneOrder, Enqueue, Dispatch, Attach, Respond, Stale, Pruned;
      Decide(id, op, now, later);
    }

    /** The ingress case once the ledger is pruned. */
    method Decide(id: OpId, op: Op, now: int, later: int)
      requires Synced() && Inv(View(), {id}) && id !in deadlines.Contents() && OpIn(ops, id) == op
      requires forall key :: key in ledger && ledger[key].operation.Some? && !stopping ==> ledger[key].operation.value in ops
      modifies this, deadlines
      ensures Synced() && View() == Decided(old(View()), id, op, now, later)
    {
      hide Inv, Enqueue, Dispatch, Attach, Respond, Stale;
      if stopping {
        Reply(id, Closed);
      } else if now >= op.deadline {
        Reply(id, NotStarted);
      } else if !op.relay && op.pane in slots && op.admitted < slots[op.pane].generation {
        ReplyStale(id);
      } else if op.key != "" && op.key in ledger {
        var existing := ledger[op.key];
        if existing.hash != op.hash {
          Reply(id, Conflict);
        } else if existing.result.Some? {
          Reply(id, Replayed(existing.result.value));
        } else if existing.operation.Some? {
          AttachTo(id, existing.operation.value);
        }
      } else {
        EnqueueOp(id);
        DispatchAll(later);
      }
    }

    // -------------------------------------------------------------- completion

    method SettleEntry(key: Key, result: Option<Result>)
      requires Synced()
      modifies this`ledger
      ensures Synced() && View() == old(View()).(ledger := SettledLedger(old(ledger), key, result))
    {
      if key != "" && key in ledger {
        if result.None? || result.value.phase == "not_started" {
          ledger := ledger - {key};
        } else {
          ledger := ledger[key := ledger[key].(result := result, operation := None)];
        }
      }
    }

    method FinishOp(id: OpId, result: Option<Result>)
      requires Synced()
      modifies this, deadlines
      ensures Synced() && View() == Finish(old(View()), id, result)
    {
      inUse := inUse - 1;
      RemoveDeadline(id);
      hide SettledLedger, Respond, Synced;
      SettleEntry(OpIn(ops, id).key, result);
      Reply(id, Completed(result));
    }

    method UnplugRecord(p: PaneId, id: OpId, result: Option<Result>, bump: bool, current: bool) returns (stale: bool)
      requires Synced() && OpIn(ops, id).pane == p && RunsOn(slots, p, id)
      modifies this`slots, this`ledger
      ensures Synced() && View() == Unplug(old(View()), id, result, bump, current)
      ensures stale == Superseded(old(View()), p, current)
    {
      var slot := slots[p];
      stale := slot.inFlight.value.generation != slot.generation;
      if !stale {
        stale := !current;
      }
      if bump && !stale {
        slot := slot.(generation := slot.generation + 1);
        hide WithoutOlder;
        ForgetOlder(p, slot.generation, OpIn(ops, id).key);
      }
      slot := slot.(inFlight := None);
      if slot.queue == [] && bump && !stale && result.Some? && result.value.phase == "closed" {
        slots := slots - {p};
      } else {
        slots := slots[p := slot];
      }
    }

    /** The completion case, `completeAndRedispatch`. */
    method EffectEnded(id: OpId, result: Option<Result>, bump: bool, current: bool, now: int) returns (ghost e: Event)
      requires Valid()
      modifies this, deadlines
      ensures Valid() && Admissible(old(View()), e) && View() == Step(old(View()), e)
      ensures e == Completion(id, result, bump, current, now)
    {
      e := Completion(id, result, bump, current, now);
      StepBetween(View(), e);
      hide Between;
      FinishCompletion(id, result, bump, current, now);
    }

    method FinishCompletion(id: OpId, result: Option<Result>, bump: bool, current: bool, now: int)
      requires Synced()
      modifies this, deadlines
      ensures Synced() && View() == Complete(old(View()), id, result, bump, current, now)
    {
      hide Synced, Finish, Stale, Dispatch;
      var p := OpIn(ops, id).pane;
      if OpIn(ops, id).relay {
        if id !in relayInFlight {
          return;
        }
        UnplugRelay(id);
        FinishOp(id, result);
      } else {
        if !RunsOn(slots, p, id) {
          return;
        }
        var stale := UnplugRecord(p, id, result, bump, current);
        hide Unplug, Superseded;
        if stale {
          FreeCapacity();
          ReplyStale(id);
        } else {
          FinishOp(id, result);
        }
      }
      DispatchAll(now);
    }

    method UnplugRelay(id: OpId)
      requires Synced()
      modifies this`relayInFlight
      ensures Synced() && View() == old(View()).(relayInFlight := old(relayInFlight) - {id})
    {
      relayInFlight := relayInFlight - {id};
    }

    method FreeCapacity()
      requires Synced()
      modifies this`inUse
      ensures Synced() && View() == old(View()).(inUse := old(inUse) - 1)
    {
      inUse := inUse - 1;
    }

    // -------------------------------------------------------------- topology

    method RetirePanes(gone: seq<PaneId>)
      requires Synced()
      modifies this, deadlines
      ensures Synced() && View() == RetireGone(old(View()), gone)
    {
      for k := 0 to |gone|
        invariant Synced() && RetireGone(View(), gone[k..]) == RetireGone(old(View()), gone)
      {
        hide Synced, Supersede;
        assert gone[k..][1..] == gone[k + 1..];
        if gone[k] in slots {
          SupersedePane(gone[k], slots[gone[k]].generation + 1, "");
        }
      }
    }

    method RaisePanes(raised: seq<(PaneId, nat)>)
      requires Synced()
      modifies this, deadlines
      ensures Synced() && View() == RaiseAll(old(View()), raised)
    {
      for k := 0 to |raised|
        invariant Synced() && RaiseAll(View(), raised[k..]) == RaiseAll(old(View()), raised)
      {
        hide Synced, RaiseOne;
        assert raised[k..][1..] == raised[k + 1..];
        RaisePane(raised[k].0, raised[k].1);
      }
    }

    method RaisePane(p: PaneId, generation: nat)
      requires Synced()
      modifies this, deadlines
      ensures Synced() && View() == RaiseOne(old(View()), p, generation)
    {
      SameSupersede(View(), p, generation, "");
      if p !in slots {
        SetSlot(p, Slot(0, [], None));
      } else {
        assert slots[p := slots[p]] == slots;
      }
      hide Synced, Supersede;
      if generation > slots[p].generation {
        SupersedePane(p, generation, "");
      }
    }

    method NoteActive(active: set<PaneId>)
      requires Synced()
      modifies this`knownActive
      ensures Synced() && View() == old(View()).(knownActive := active)
    {
      knownActive := active;
    }

    method Retopologize(active: set<PaneId>, gone: seq<PaneId>, raised: seq<(PaneId, nat)>, now: int)
      requires Synced()
      modifies this, deadlines
      ensures Synced() && View() == Topology(old(View()), active, gone, raised, now)
    {
      hide RetireGone, RaiseAll, Dispatch, Synced;
      RetirePanes(gone);
      RaisePanes(raised);
      NoteActive(active);
      DispatchAll(now);
    }

    /** The topology case, `applyTopology`. */
    method ApplyTopology(active: set<PaneId>, generations: map<PaneId, nat>, now: int) returns (ghost e: Event)
      requires Valid()
      modifies this, deadlines
      ensures Valid() && Admissible(old(View()), e) && View() == Step(old(View()), e)
      ensures e.TopologyUpdate? && e.active == active && e.now == now
      ensures forall pair :: pair in e.raised <==> pair.0 in generations && generations[pair.0] == pair.1
    {
      hide Between, Topology, Synced;
      var gone := ListPanes(knownActive - active);
      var raised := ListGenerations(generations);
      e := TopologyUpdate(active, gone, raised, now);
      StepBetween(View(), e);
      Retopologize(active, gone, raised, now);
    }

    // -------------------------------------------------------------- ledger requests

    method ReplaceResult(key: Key, generation: nat, result: Option<Result>) returns (applied: bool)
      requires Synced()
      modifies this`ledger
      ensures Synced() && (View(), applied) == UpdateLedger(old(View()), key, generation, result)
    {
      applied := key in ledger && ledger[key].generation == generation && ledger[key].result.Some? && result.Some?;
      if applied {
        ledger := ledger[key := ledger[key].(result := result)];
      }
    }

    /** The ledger case, `UpdateLedgerResult` on the owner's side. */
    method UpdateEntry(key: Key, generation: nat, result: Option<Result>) returns (applied: bool)
      requires Valid()
      modifies this`ledger
      ensures Valid() && View() == Step(old(View()), LedgerUpdate(key, generation, result))
      ensures applied == UpdateLedger(old(View()), key, generation, result).1
    {
      StepBetween(View(), LedgerUpdate(key, generation, result));
      hide Between, UpdateLedger, Synced;
      applied := ReplaceResult(key, generation, result);
    }

    /** The replay case: found without a result and without a conflict means the matching operation
        is still queued or in flight, so submitting again attaches to it. */
    method Replay(key: Key, hash: string) returns (found: bool, conflict: bool, result: Option<Result>)
      requires Valid()
      ensures found <==> key in ledger
      ensures conflict <==> found && ledger[key].hash != hash
      ensures result.Some? ==> found && !conflict && ledger[key].operation.None? && result == ledger[key].result
      ensures found && !conflict && result.None? ==> ledger[key].operation.Some?
      ensures found && !conflict && result.None? && !stopping ==>
        var id := ledger[key].operation.value; id in live && Located(View(), id) && OpIn(ops, id).hash == hash
    {
      found := key in ledger;
      conflict := found && ledger[key].hash != hash;
      result := if found && !conflict then ledger[key].result else None;
      assert found ==> EntryOk(ops, live, stopping, key, ledger[key]);
    }

    // -------------------------------------------------------------- timer

    /** `removeOperation`. */
    method Without(queue: seq<OpId>, id: OpId) returns (shorter: seq<OpId>, removed: bool)
      ensures removed == (id in queue)
      ensures shorter == if removed then RemoveOp(queue, id) else queue
    {
      for i := 0 to |queue|
        invariant id !in queue[..i]
      {
        if queue[i] == id {
          FirstOccurrence(queue, id, i);
          return queue[..i] + queue[i + 1..], true;
        }
        assert queue[..i + 1] == queue[..i] + [queue[i]];
      }
      assert queue[..|queue|] == queue;
      return queue, false;
    }

    /** `removeQueued`. */
    method TakeOut(id: OpId) returns (removed: bool)
      requires Synced()
      modifies this`relayQueue, this`slots
      ensures Synced() && removed == Queued(old(View()), id)
      ensures View() == if removed then Unqueue(old(View()), id) else old(View())
    {
      if OpIn(ops, id).relay {
        relayQueue, removed := Without(relayQueue, id);
      } else {
        var p := OpIn(ops, id).pane;
        if p !in slots || RunsOn(slots, p, id) {
          return false;
        }
        var queue;
        queue, removed := Without(slots[p].queue, id);
        if removed {
          slots := slots[p := slots[p].(queue := queue)];
        }
      }
    }

    /** One iteration of the timer case: the operation due first leaves the heap. */
    method PopDeadline() returns (id: OpId)
      requires Synced() && deadlines.items != []
      modifies deadlines
      ensures Synced() && id in old(View()).deadlines
      ensures View() == old(View()).(deadlines := old(View()).deadlines - {id})
      ensures forall other :: other in old(View()).deadlines ==> OpIn(ops, id).deadline <= OpIn(ops, other).deadline
    {
      assert forall x :: x in deadlines.Contents() <==> x in deadlines.items;
      id := deadlines.Pop();
      assert forall x :: x in deadlines.items ==> x in deadlines.Contents();
    }

    method ExpireFirst() returns (id: OpId)
      requires Synced() && deadlines.items != []
      modifies this, deadlines
      ensures Synced() && id in old(View()).deadlines && View() == TimerPop(old(View()), id)
      ensures ops == old(ops)
      ensures forall other :: other in old(View()).deadlines ==> OpIn(ops, id).deadline <= OpIn(ops, other).deadline
    {
      id := PopDeadline();
      hide Synced, Unqueue;
      ghost var popped := View();
      UnqueueKeepsRest(popped, id);
      var queued := TakeOut(id);
      if queued {
        ExpireOp(id);
        assert View() == Expire(Unqueue(popped, id), id) by { RemovedAlready(Unqueue(popped, id), id); }
      }
    }

    /** The timer case. */
    method TimerFired(now: int, later: int) returns (ghost e: Event)
      requires Valid()
      modifies this, deadlines
      ensures Valid() && Admissible(old(View()), e) && View() == Step(old(View()), e)
      ensures e.TimerFires? && e.now == now && e.later == later
    {
      hide Between, TimerPops, Dispatch, Synced, DueOrder;
      ghost var before := View();
      ghost var due := ExpireDue(now);
      e := TimerFires(due, now, later);
      StepBetween(before, e);
      DispatchAll(later);
    }

    method ExpireDue(now: int) returns (ghost due: seq<OpId>)
      requires Synced()
      modifies this, deadlines
      ensures Synced() && DueOrder(old(View()), due, now) && View() == TimerPops(old(View()), due)
    {
      due := [];
      ghost var before := View();
      while deadlines.items != [] && now >= OpIn(ops, deadlines.items[0]).deadline
        invariant Synced() && View() == TimerPops(before, due) && ops == before.ops
        invariant Popped(before, due, View().deadlines, now)
        decreases |View().deadlines|
      {
        hide TimerPop;
        ghost var s := View();
        ghost var top := deadlines.items[0];
        assert top in s.deadlines;
        var id := ExpireFirst();
        TimerPopDeadlines(s, id);
        TimerPopsSnoc(before, due, id);
        PoppedSnoc(before, due, s.deadlines, now, id);
        due := due + [id];
      }
      AllDuePopped(before, due, now);
    }

    /** When the loop ends the top of the heap, and so everything left in it, is not yet due. */
    lemma AllDuePopped(before: Sched, due: seq<OpId>, now: int)
      requires Synced() && ops == before.ops && Popped(before, due, View().deadlines, now)
      requires deadlines.items == [] || now < OpIn(ops, deadlines.items[0]).deadline
      ensures DueOrder(before, due, now)
    {
      forall id | id in View().deadlines
        ensures now < OpOf(before, id).deadline
      {
        var k :| 0 <= k < |deadlines.items| && deadlines.items[k] == id;
        DeadlineHeap.TopIsFirst(deadlines.items, deadlines.due, k);
        assert deadlines.items[0] in deadlines.items;
      }
    }

    // -------------------------------------------------------------- stopping

    method CloseQueues(panes: seq<PaneId>)
      requires Synced()
      modifies this`slots, this`log, this`live, this`fate
      ensures Synced() && View() == CloseSlots(old(View()), panes)
    {
      for k := 0 to |panes|
        invariant Synced() && CloseSlots(View(), panes[k..]) == CloseSlots(old(View()), panes)
      {
        assert panes[k..][1..] == panes[k + 1..];
        if panes[k] in slots {
          var queue := slots[panes[k]].queue;
          SetSlot(panes[k], slots[panes[k]].(queue := []));
          hide Synced, CloseAll;
          ReplyClosedAll(queue);
        }
      }
    }

    method CloseEverything() returns (ghost panes: seq<PaneId>)
      requires Synced()
      modifies this
      ensures Synced() && Lists(panes, old(slots).Keys) && View() == BeginStop(old(View()), panes)
    {
      hide Lists, CloseSlots, CloseAll, Synced;
      var order := ListPanes(slots.Keys);
      panes := order;
      if !stopping {
        NoteStopping();
        CloseQueues(order);
        var queue := relayQueue;
        DropRelayQueue();
        ReplyClosedAll(queue);
      }
    }

    method NoteStopping()
      requires Synced()
      modifies this`stopping
      ensures Synced() && View() == old(View()).(stopping := true)
    {
      stopping := true;
    }

    method DropRelayQueue()
      requires Synced()
      modifies this`relayQueue
      ensures Synced() && View() == old(View()).(relayQueue := [])
    {
      relayQueue := [];
    }

    /** The `cancelInflight` case. */
    method Cancel() returns (ghost e: Event)
      requires Valid()
      modifies this
      ensures Valid() && Admissible(old(View()), e) && View() == Step(old(View()), e) && e.CancelInflight?
    {
      hide Between, BeginStop, Synced, Lists;
      ghost var before := View();
      ghost var panes := CloseEverything();
      e := CancelInflight(panes);
      StepBetween(before, e);
    }

    /** The `stop` case: the caller's acknowledgement channel is kept for the exit. */
    method StopLoop() returns (ghost e: Event)
      requires Valid()
      modifies this
      ensures Valid() && Admissible(old(View()), e) && View() == Step(old(View()), e) && e.Stop?
    {
      hide Between, BeginStop, Synced, Lists;
      ghost var before := View();
      ghost var panes := CloseEverything();
      e := Stop(panes);
      StepBetween(before, e);
      NoteAck();
    }

    method NoteAck()
      requires Synced()
      modifies this`acked
      ensures Synced() && View() == old(View()).(acked := true)
    {
      acked := true;
    }

    /** The test at the top of the loop; when it holds, everything taken has been answered. */
    method MayExit() returns (exit: bool)
      requires Valid()
      ensures exit == Exited(View())
      ensures exit ==> live == {} && forall w :: w in fate ==> fate[w].Told?
    {
      exit := stopping && inUse == 0 && acked;
      if exit {
        assert relayInFlight == {} && Busy(slots) == {};
        assert forall p :: p in slots ==> p !in Busy(slots);
        assert forall id :: id in live ==> Located(View(), id);
      }
    }
  }

  /** Whatever order empties `ledger` further completes `victims` to one for `start`. */
  ghost predicate Continues(start: map<Key, Entry>, victims: seq<Key>, ledger: map<Key, Entry>) {
    forall rest :: PruneOrder(ledger, rest) ==>
      PruneOrder(start, victims + rest) && Dropped(start, victims + rest) == Dropped(ledger, rest)
  }

  lemma ContinuesNone(ledger: map<Key, Entry>)
    ensures Continues(ledger, [], ledger)
  {
    assert forall rest: seq<Key> :: [] + rest == rest;
  }

  lemma ContinuesStep(start: map<Key, Entry>, victims: seq<Key>, ledger: map<Key, Entry>, oldest: Key)
    requires Continues(start, victims, ledger) && |ledger| >= MAX_LEDGER_ENTRIES && OldestFinished(ledger, oldest)
    ensures Continues(start, victims + [oldest], ledger - {oldest})
  {
    forall rest | PruneOrder(ledger - {oldest}, rest)
      ensures PruneOrder(start, victims + [oldest] + rest)
      ensures Dropped(start, victims + [oldest] + rest) == Dropped(ledger - {oldest}, rest)
    {
      assert ([oldest] + rest)[1..] == rest;
      assert PruneOrder(ledger, [oldest] + rest);
      hide OldestFinished;
      assert victims + ([oldest] + rest) == victims + [oldest] + rest;
    }
  }

  lemma ContinuesEnd(start: map<Key, Entry>, victims: seq<Key>, ledger: map<Key, Entry>)
    requires Continues(start, victims, ledger)
    requires |ledger| < MAX_LEDGER_ENTRIES || forall k :: k in ledger ==> ledger[k].operation.Some?
    ensures PruneOrder(start, victims) && Dropped(start, victims) == ledger
  {
    assert PruneOrder(ledger, []) && victims + [] == victims;
  }

  lemma {:induction false} FirstOccurrence(queue: seq<OpId>, id: OpId, i: nat)
    requires i < |queue| && queue[i] == id && id !in queue[..i]
    ensures RemoveOp(queue, id) == queue[..i] + queue[i + 1..]
    decreases i
  {
    if i > 0 {
      assert queue[0] == queue[..i][0];
      assert queue[1..][..i - 1] == queue[..i][1..];
      FirstOccurrence(queue[1..], id, i - 1);
      assert [queue[0]] + (queue[1..][..i - 1] + queue[1..][i..]) == queue[..i] + queue[i + 1..];
    }
  }

  lemma UnqueueKeepsRest(s: Sched, id: OpId)
    ensures var t := Unqueue(s, id); t.ops == s.ops && t.deadlines == s.deadlines
  {
  }

  /** Removing a deadline that is already out changes nothing. */
  lemma RemovedAlready(s: Sched, id: OpId)
    requires id !in s.deadlines
    ensures s.deadlines - {id} == s.deadlines
  {
  }

  lemma TimerPopDeadlines(s: Sched, id: OpId)
    ensures TimerPop(s, id).deadlines == s.deadlines - {id}
  {
    UnqueueKeepsRest(s.(deadlines := s.deadlines - {id}), id);
    hide Unqueue;
  }

  lemma {:induction false} TimerPopsSnoc(s: Sched, due: seq<OpId>, id: OpId)
    ensures TimerPops(s, due + [id]) == TimerPop(TimerPops(s, due), id)
    decreases |due|
  {
    hide TimerPop;
    if due == [] {
      assert TimerPops(s, [id]) == TimerPops(TimerPop(s, id), [id][1..]);
    } else {
      assert (due + [id])[1..] == due[1..] + [id];
      TimerPopsSnoc(TimerPop(s, due[0]), due[1..], id);
    }
  }

  /** What the timer loop has popped so far: due operations, earliest first, none due later than
      what is left. */
  ghost predicate Popped(s: Sched, due: seq<OpId>, left: set<OpId>, now: int) {
    && (forall id :: id in s.deadlines <==> id in due || id in left)
    && (forall id :: id in due ==> id !in left && now >= OpOf(s, id).deadline)
    && (forall id, other :: id in due && other in left ==> OpOf(s, id).deadline <= OpOf(s, other).deadline)
    && (forall i, j :: 0 <= i < j < |due| ==> due[i] != due[j] && OpOf(s, due[i]).deadline <= OpOf(s, due[j]).deadline)
  }

  lemma PoppedSnoc(s: Sched, due: seq<OpId>, left: set<OpId>, now: int, id: OpId)
    requires Popped(s, due, left, now) && id in left && now >= OpOf(s, id).deadline
    requires forall other :: other in left ==> OpOf(s, id).deadline <= OpOf(s, other).deadline
    ensures Popped(s, due + [id], left - {id}, now)
  {
    var longer := due + [id];
    assert forall x :: x in longer <==> x in due || x == id;
    forall i, j | 0 <= i < j < |longer|
      ensures longer[i] != longer[j] && OpOf(s, longer[i]).deadline <= OpOf(s, longer[j]).deadline
    {
      assert longer[i] == due[i] && longer[i] in due;
    }
  }

  lemma HostsKnown(s: Sched, id: OpId)
    requires Inv(s, {id})
    ensures forall key :: key in s.ledger && s.ledger[key].operation.Some? && !s.stopping ==>
      s.ledger[key].operation.value in s.ops
  {
    forall key | key in s.ledger && s.ledger[key].operation.Some? && !s.stopping
      ensures s.ledger[key].operation.value in s.ops
    {
      assert EntryOk(s.ops, s.live, s.stopping, key, s.ledger[key]);
    }
  }

  /** Creating the slot first makes no difference. */
  lemma SameSupersede(s: Sched, p: PaneId, generation: nat, keep: Key)
    ensures var filled := s.(slots := s.slots[p := SlotOf(s, p)]);
      Supersede(filled, p, generation, keep) == Supersede(s, p, generation, keep)
  {
    var filled := s.(slots := s.slots[p := SlotOf(s, p)]);
    var slot := SlotOf(s, p).(generation := generation, queue := []);
    assert filled.slots[p := slot] == s.slots[p := slot];
    hide StaleAll;
  }

  lemma QueuesOrdered(s: Sched, id: OpId)
    requires Inv(s, {id})
    ensures id in s.ops && Ordered(s.ops, s.relayQueue)
    ensures var queue := SlotOf(s, s.ops[id].pane).queue; id !in queue && Ordered(s.ops, queue)
  {
    var p := s.ops[id].pane;
    if p in s.slots {
      assert SlotShape(s.ops, s.live, {id}, p, s.slots[p]);
    }
  }

  lemma {:induction false} InsertionPoint(ops: map<OpId, Op>, queue: seq<OpId>, id: OpId, at: nat)
    requires at <= |queue|
    requires forall i :: 0 <= i < at ==> OpIn(ops, queue[i]).sequence <= OpIn(ops, id).sequence
    requires forall i :: at <= i < |queue| ==> OpIn(ops, queue[i]).sequence > OpIn(ops, id).sequence
    ensures InsertBySequence(ops, queue, id) == queue[..at] + [id] + queue[at..]
    decreases |queue|
  {
    if at == 0 {
      assert queue[..0] + [id] + queue[0..] == [id] + queue;
    } else {
      InsertionPoint(ops, queue[1..], id, at - 1);
      hide OpIn;
      assert [queue[0]] + (queue[1..][..at - 1] + [id] + queue[1..][at - 1..]) == queue[..at] + [id] + queue[at..];
    }
  }
}
