/** The scheduler's promises, each stated for every state a run of the loop can reach. */
module SchedulerPromises {
  import opened Options
  import opened SchedulerModel
  import opened SchedulerInvariant
  import opened SchedulerEvents
  import opened SchedulerTheorems

  // ---------------------------------------------------------------- waiters

  /** No response channel ever gets two messages, and only channels of requests get one. */
  lemma AtMostOneAnswer(capacity: nat, events: seq<Event>)
    requires Admitted(Initial(capacity), events)
    ensures var log := Run(Initial(capacity), events).log;
      && (forall i, j :: 0 <= i < j < |log| ==> log[i].waiter != log[j].waiter)
      && (forall i :: 0 <= i < |log| ==> log[i].waiter in Taken(events))
  {
    var s := Run(Initial(capacity), events);
    InitialBetween(capacity);
    RunBetween(Initial(capacity), events);
    RunGrows(Initial(capacity), events);
    assert LogOk(s.fate, s.log);
    hide Inv, Run;
  }

  ghost predicate AnsweredOnce(log: seq<Answer>, w: Waiter) {
    exists i :: 0 <= i < |log| && log[i].waiter == w && forall j :: 0 <= j < |log| && j != i ==> log[j].waiter != w
  }

  /** The waiter has exactly one answer, and it is this one. */
  ghost predicate HeardOnly(log: seq<Answer>, w: Waiter, id: OpId, reply: Reply) {
    exists i :: 0 <= i < |log| && log[i].waiter == w && log[i].op == id && log[i].reply == reply &&
                forall j :: 0 <= j < |log| && j != i ==> log[j].waiter != w
  }

  /** One message on a channel is the only one. */
  lemma HeardOnce(s: Sched, i: nat)
    requires Inv(s, {}) && i < |s.log|
    ensures HeardOnly(s.log, s.log[i].waiter, s.log[i].op, s.log[i].reply)
  {
    assert LogOk(s.fate, s.log);
    hide Inv;
  }

  /** When the loop exits, every waiter of every request it took has exactly one answer. */
  lemma ExitAnswersEveryone(capacity: nat, events: seq<Event>)
    requires Admitted(Initial(capacity), events) && Exited(Run(Initial(capacity), events))
    ensures var s := Run(Initial(capacity), events);
      s.live == {} && forall w :: w in Taken(events) ==> AnsweredOnce(s.log, w)
  {
    var s := Run(Initial(capacity), events);
    InitialBetween(capacity);
    RunBetween(Initial(capacity), events);
    RunGrows(Initial(capacity), events);
    hide Run;
    NothingLeft(s);
    forall w | w in Taken(events)
      ensures AnsweredOnce(s.log, w)
    {
      ToldOnce(s, w);
    }
  }

  lemma NothingLeft(s: Sched)
    requires Between(s) && Exited(s)
    ensures s.live == {}
  {
    assert s.relayInFlight == {} && Busy(s.slots) == {};
    assert forall p :: p in s.slots ==> p !in Busy(s.slots);
    hide Fates, LedgerOk, Timed, Honest, StartsOk, RelayShape, SlotsShape;
    assert forall id :: id in s.live ==> Located(s, id);
  }

  lemma ToldOnce(s: Sched, w: Waiter)
    requires Inv(s, {}) && s.live == {} && w in s.fate
    ensures AnsweredOnce(s.log, w)
  {
    assert s.fate[w].Told?;
    var i := s.fate[w].index;
    assert s.log[i].waiter == w;
  }

  // ---------------------------------------------------------------- ledger

  /** An entry has a result exactly when it has no operation; until stopping, its operation is
      queued or in flight under that very key. */
  lemma LedgerIsSound(capacity: nat, events: seq<Event>, key: Key)
    requires Admitted(Initial(capacity), events) && key in Run(Initial(capacity), events).ledger
    ensures var s := Run(Initial(capacity), events); var entry := s.ledger[key];
      && (entry.result.Some? <==> entry.operation.None?)
      && (entry.operation.Some? && !s.stopping ==>
            var id := entry.operation.value;
            && id in s.ops && s.ops[id].key == key && s.ops[id].hash == entry.hash
            && (Queued(s, id) || id in s.relayInFlight || RunsOn(s.slots, s.ops[id].pane, id)))
  {
    var s := Run(Initial(capacity), events);
    InitialBetween(capacity);
    RunBetween(Initial(capacity), events);
    hide Run;
    var entry := s.ledger[key];
    assert EntryOk(s.ops, s.live, s.stopping, key, entry);
    if entry.operation.Some? && !s.stopping {
      LiveIsPlaced(s, entry.operation.value);
    }
  }

  lemma LiveIsPlaced(s: Sched, id: OpId)
    requires Inv(s, {}) && id in s.live
    ensures Queued(s, id) || id in s.relayInFlight || RunsOn(s.slots, OpOf(s, id).pane, id)
  {
    assert Located(s, id);
  }

  /** While a key has an entry, a request with that key enqueues nothing: it is refused, replayed,
      attached or answered, and no second operation with the key joins the queues. */
  lemma NoSecondOperation(s: Sched, id: OpId, op: Op, victims: seq<Key>, early: int, now: int, later: int)
    requires Between(s) && Fresh(s, id, op) && op.key in Pruned(s.ledger, early, victims)
    ensures var t := Ingress(s, id, op, victims, early, now, later);
      t.live <= s.live && t.relayQueue == s.relayQueue && t.slots == s.slots && t.starts == s.starts
  {
    PrunedIsPart(s.ledger, early, victims);
    assert EntryOk(s.ops, s.live, s.stopping, op.key, s.ledger[op.key]);
    assert id !in s.live;
    hide Inv, Dispatch, Enqueue, Pruned, Drained, Unqueued, Stale, Respond;
    var t := Take(s, id, op).(ledger := Pruned(s.ledger, early, victims));
    SettledGrows(t, id);
    SettledLeavesLive(t, id);
  }

  lemma SettledLeavesLive(s: Sched, id: OpId)
    ensures Stale(s, id).live == s.live - {id} && Expire(s, id).live == s.live - {id}
    ensures forall reply {:trigger Respond(s, id, reply)} ::
      var t := Respond(s, id, reply);
      t.live == s.live - {id} && t.slots == s.slots && t.relayQueue == s.relayQueue && t.starts == s.starts
  {
  }

  ghost predicate HasRoom(ledger: map<Key, Entry>) {
    |ledger| < MAX_LEDGER_ENTRIES || forall key :: key in ledger ==> ledger[key].operation.Some?
  }

  lemma {:induction false} DroppingKeepsLive(ledger: map<Key, Entry>, victims: seq<Key>)
    requires PruneOrder(ledger, victims)
    ensures var rest := Dropped(ledger, victims);
      && HasRoom(rest)
      && (forall key :: key in ledger && ledger[key].operation.Some? ==> key in rest && rest[key] == ledger[key])
    decreases |victims|
  {
    if victims != [] {
      DroppingKeepsLive(ledger - {victims[0]}, victims[1..]);
    }
  }

  /** Pruning keeps every entry whose operation is under way, and afterwards the ledger has room or
      holds nothing else. */
  lemma PruningKeepsLiveEntries(ledger: map<Key, Entry>, now: int, victims: seq<Key>)
    requires PruneOrder(Aged(ledger, now), victims)
    ensures var rest := Pruned(ledger, now, victims);
      && (forall key :: key in ledger && ledger[key].operation.Some? ==> key in rest && rest[key] == ledger[key])
      && HasRoom(rest)
  {
    DroppingKeepsLive(Aged(ledger, now), victims);
  }

  /** A finished entry went to make room: none that stays is older, and no more went than needed. */
  ghost predicate MadeRoom(ledger: map<Key, Entry>, rest: map<Key, Entry>, key: Key)
    requires key in ledger
  {
    && ledger[key].operation.None? && |rest| >= MAX_LEDGER_ENTRIES - 1
    && forall other :: other in rest && rest[other].operation.None? ==> ledger[key].createdAt <= rest[other].createdAt
  }

  lemma {:induction false} DroppingIsFair(ledger: map<Key, Entry>, victims: seq<Key>)
    requires PruneOrder(ledger, victims)
    ensures forall key :: key in ledger && key !in Dropped(ledger, victims) ==> MadeRoom(ledger, Dropped(ledger, victims), key)
    decreases |victims|
  {
    if victims != [] {
      var less, rest := ledger - {victims[0]}, Dropped(ledger, victims);
      DroppingIsFair(less, victims[1..]);
      DroppedIsPart(less, victims[1..]);
      assert |less| == |ledger| - 1 by { assert ledger.Keys == less.Keys + {victims[0]}; }
      assert MadeRoom(ledger, rest, victims[0]) by {
        if k :| k in less && k !in rest {
          assert MadeRoom(less, rest, k);
        } else {
          assert rest == less;
        }
      }
      forall key | key in ledger && key !in rest
        ensures MadeRoom(ledger, rest, key)
      {
        assert key != victims[0] ==> MadeRoom(less, rest, key);
      }
    }
  }

  /** An entry leaves the ledger by pruning only when it is finished, and then either because its
      retention is over, which always removes it, or to make room. */
  lemma PruningIsFair(ledger: map<Key, Entry>, now: int, victims: seq<Key>, key: Key)
    requires PruneOrder(Aged(ledger, now), victims) && key in ledger
    ensures var rest := Pruned(ledger, now, victims); var over := now - ledger[key].createdAt >= LEDGER_RETENTION;
      && (ledger[key].operation.None? && over ==> key !in rest)
      && (key !in rest ==> ledger[key].operation.None? && (over || MadeRoom(ledger, rest, key)))
  {
    PrunedIsPart(ledger, now, victims);
    DroppingIsFair(Aged(ledger, now), victims);
    DroppedIsPart(Aged(ledger, now), victims);
    hide PruneOrder, Dropped;
    if key in Aged(ledger, now) && key !in Pruned(ledger, now, victims) {
      assert MadeRoom(Aged(ledger, now), Pruned(ledger, now, victims), key);
    }
  }

  /** Whether the entry of an operation under way survives a request with that key is decided exactly
      by the generation check: a stale request deletes it by key. */
  lemma EntrySurvivesUnlessStale(s: Sched, id: OpId, op: Op, victims: seq<Key>, early: int, now: int, later: int)
    requires Between(s) && Fresh(s, id, op) && PruneOrder(Aged(s.ledger, early), victims) && now < op.deadline
    requires !s.stopping && op.key in s.ledger && s.ledger[op.key].operation.Some?
    ensures op.key in Ingress(s, id, op, victims, early, now, later).ledger <==>
      (op.relay || op.pane !in s.slots || op.admitted >= s.slots[op.pane].generation)
  {
    PruningKeepsLiveEntries(s.ledger, early, victims);
    assert op.key != "" by { assert EntryOk(s.ops, s.live, s.stopping, op.key, s.ledger[op.key]); }
    hide Inv, Dispatch, Enqueue, Pruned, Drained, Unqueued, PruneOrder;
  }

  // ---------------------------------------------------------------- starts and answers

  /** Every effect starts once; a pane effect's token carries the generation its command was
      admitted with, which is the slot's generation at that moment. */
  lemma StartsAreCurrent(capacity: nat, events: seq<Event>)
    requires Admitted(Initial(capacity), events)
    ensures var s := Run(Initial(capacity), events);
      && (forall i, j :: 0 <= i < j < |s.starts| ==> s.starts[i].op != s.starts[j].op)
      && (forall i :: 0 <= i < |s.starts| && s.starts[i].op in s.ops && !s.ops[s.starts[i].op].relay ==>
            s.starts[i].token == s.starts[i].slotGeneration == s.ops[s.starts[i].op].admitted)
  {
    InitialBetween(capacity);
    RunBetween(Initial(capacity), events);
    hide Run;
  }

  /** "Not started", "pane replaced", closed, conflict and replay are only said of operations that
      never start in the whole run; a completion or "outcome unknown" only of ones that did. */
  lemma AnswersTellTheTruth(capacity: nat, events: seq<Event>)
    requires Admitted(Initial(capacity), events)
    ensures var s := Run(Initial(capacity), events);
      forall i :: 0 <= i < |s.log| ==> (ForStarted(s.log[i].reply) <==> WasStarted(s.starts, s.log[i].op))
  {
    InitialBetween(capacity);
    RunBetween(Initial(capacity), events);
    hide Run;
  }

  // ---------------------------------------------------------------- capacity

  lemma CapacityIsRespected(capacity: nat, events: seq<Event>)
    requires Admitted(Initial(capacity), events)
    ensures var s := Run(Initial(capacity), events);
      s.inUse == |s.relayInFlight| + |Busy(s.slots)| && 0 <= s.inUse <= capacity
  {
    InitialBetween(capacity);
    RunBetween(Initial(capacity), events);
    RunGrows(Initial(capacity), events);
    hide Run;
  }

  /** No pane has two running effects. */
  lemma OneEffectPerPane(s: Sched, a: OpId, b: OpId)
    requires Inv(s, {}) && a in s.live && b in s.live
    requires OpOf(s, a).dispatched && OpOf(s, b).dispatched && !OpOf(s, a).relay && !OpOf(s, b).relay
    requires OpOf(s, a).pane == OpOf(s, b).pane
    ensures a == b
  {
    assert Located(s, a) && Located(s, b);
  }

  /** Between events nothing runnable waits while capacity is free, and every queue is in sequence
      order. */
  lemma NoRunnableWaits(capacity: nat, events: seq<Event>)
    requires Admitted(Initial(capacity), events)
    ensures var s := Run(Initial(capacity), events);
      && (!s.stopping && s.inUse < s.capacity ==> s.relayQueue == [] && forall p :: p in s.slots ==> !Runnable(s, p))
      && Ordered(s.ops, s.relayQueue)
      && (forall p :: p in s.slots ==> Ordered(s.ops, s.slots[p].queue))
  {
    var s := Run(Initial(capacity), events);
    InitialBetween(capacity);
    RunBetween(Initial(capacity), events);
    hide Run;
    forall p | p in s.slots
      ensures Ordered(s.ops, s.slots[p].queue)
    {
      assert SlotShape(s.ops, s.live, {}, p, s.slots[p]);
    }
  }

  // ---------------------------------------------------------------- timer

  lemma {:induction false} RemoveOpMembers(queue: seq<OpId>, id: OpId, x: OpId)
    requires x != id
    ensures x in RemoveOp(queue, id) <==> x in queue
    decreases |queue|
  {
    if queue != [] {
      assert queue == [queue[0]] + queue[1..];
      RemoveOpMembers(queue[1..], id, x);
    }
  }

  lemma UnqueueFrame(s: Sched, id: OpId, x: OpId)
    requires x != id
    ensures Queued(Unqueue(s, id), x) <==> Queued(s, x)
    ensures Unqueue(s, id) == s.(slots := Unqueue(s, id).slots, relayQueue := Unqueue(s, id).relayQueue)
  {
    hide RemoveOp;
    var t := Unqueue(s, id);
    if OpOf(s, id).relay {
      RemoveOpMembers(s.relayQueue, id, x);
    } else {
      var p := OpOf(s, id).pane;
      RemoveOpMembers(SlotOf(s, p).queue, id, x);
      assert RunsOn(t.slots, p, x) <==> RunsOn(s.slots, p, x);
    }
  }

  lemma TimerPopFrame(s: Sched, id: OpId, x: OpId)
    requires x != id
    ensures var t := TimerPop(s, id);
      && t.live == (if Queued(s, id) then s.live - {id} else s.live)
      && t.ops == s.ops && t.starts == s.starts
      && (Queued(t, x) <==> Queued(s, x))
  {
    var popped := s.(deadlines := s.deadlines - {id});
    UnqueueFrame(popped, id, x);
    assert Queued(popped, x) <==> Queued(s, x);
    hide Expire, Unqueue;
    SettledGrows(Unqueue(popped, id), id);
    SettledLeavesLive(Unqueue(popped, id), id);
  }

  lemma {:induction false} TimerPopsLive(s: Sched, due: seq<OpId>, x: OpId)
    requires forall i, j :: 0 <= i < j < |due| ==> due[i] != due[j]
    ensures var t := TimerPops(s, due);
      && (x in t.live <==> x in s.live && !(x in due && Queued(s, x)))
      && t.starts == s.starts
    decreases |due|
  {
    if due != [] {
      assert due == [due[0]] + due[1..];
      var u := TimerPop(s, due[0]);
      TimerPopFrame(s, due[0], if x == due[0] then x + 1 else x);
      assert due[0] !in due[1..];
      hide TimerPop, Queued;
      TimerPopsLive(u, due[1..], x);
    }
  }

  /** A timer pass expires exactly the queued operations whose deadline has passed. */
  lemma TimerExpiresExactly(s: Sched, due: seq<OpId>, now: int, id: OpId)
    requires Between(s) && !s.stopping && DueOrder(s, due, now) && id in s.live
    ensures id in TimerPops(s, due).live <==> !(Queued(s, id) && now >= OpOf(s, id).deadline)
    ensures OpOf(s, id).dispatched ==> id in TimerPops(s, due).live
  {
    TimerPopsLive(s, due, id);
    hide TimerPops;
    QueuedIsTimed(s, id);
  }

  lemma QueuedIsTimed(s: Sched, id: OpId)
    requires Inv(s, {}) && !s.stopping && id in s.live
    ensures Queued(s, id) <==> !OpOf(s, id).dispatched
    ensures Queued(s, id) ==> id in s.deadlines
  {
    assert Located(s, id);
    if !s.ops[id].relay {
      assert SlotShape(s.ops, s.live, {}, s.ops[id].pane, s.slots[s.ops[id].pane]);
    }
  }
}
