/** Every event of the scheduler loop keeps the invariant. */
module SchedulerEvents {
  import opened Options
  import opened SchedulerModel
  import opened SchedulerInvariant

  // ---------------------------------------------------------------- taking a request

  ghost predicate Fresh(s: Sched, id: OpId, op: Op) {
    id !in s.ops && !op.dispatched && |op.waiters| == 1 && op.waiters[0].waiter !in s.fate
  }

  lemma TakePlaces(s: Sched, id: OpId, op: Op)
    requires Inv(s, {}) && Fresh(s, id, op)
    ensures var t := Take(s, id, op);
      && RelayShape(t.ops, t.live, {id}, t.relayQueue, t.relayInFlight)
      && SlotsShape(t.ops, t.live, {id}, t.slots) && AllLocated(t, {id})
  {
    var t := Take(s, id, op);
    hide Fates, LedgerOk, Counted, Timed, Honest, StartsOk;
    forall p | p in s.slots
      ensures SlotShape(t.ops, t.live, {id}, p, s.slots[p])
    {
      assert SlotShape(s.ops, s.live, {}, p, s.slots[p]);
      hide SlotsShape, RelayShape, AllLocated;
    }
    hide SlotShape;
  }

  lemma TakeFates(s: Sched, id: OpId, op: Op)
    requires Fates(s.ops, s.live, s.fate, s.log) && s.live <= s.ops.Keys && Fresh(s, id, op)
    ensures var t := Take(s, id, op); Fates(t.ops, t.live, t.fate, t.log)
  {
    var t := Take(s, id, op);
    assert WaitingOk(t.ops, t.live, t.fate) by { hide ToldOk, AttachedOk, LogOk; }
    assert ToldOk(t.fate, t.log) by { hide WaitingOk, AttachedOk, LogOk; }
    assert AttachedOk(t.ops, t.live, t.fate) by { hide WaitingOk, ToldOk, LogOk; }
    assert LogOk(t.fate, t.log) by { hide WaitingOk, AttachedOk, ToldOk; }
    hide WaitingOk, ToldOk, AttachedOk, LogOk;
  }

  lemma TakeRest(s: Sched, id: OpId, op: Op)
    requires Inv(s, {}) && Fresh(s, id, op)
    ensures var t := Take(s, id, op);
      && Fates(t.ops, t.live, t.fate, t.log) && LedgerOk(t.ops, t.live, t.stopping, t.ledger)
      && Honest(t.ops, t.live, t.log) && StartsOk(t.ops, t.starts)
  {
    hide RelayShape, SlotsShape, AllLocated, Counted, Timed, Fates;
    var t := Take(s, id, op);
    TakeFates(s, id, op);
    assert Honest(t.ops, t.live, t.log) by { hide LedgerOk, StartsOk; }
    assert StartsOk(t.ops, t.starts) by { hide LedgerOk, Honest; }
    hide StartsOk, Honest;
  }

  lemma TakeKeeps(s: Sched, id: OpId, op: Op)
    requires Inv(s, {}) && Fresh(s, id, op)
    ensures Inv(Take(s, id, op), {id}) && Unreferenced(Take(s, id, op), id)
  {
    TakePlaces(s, id, op);
    TakeRest(s, id, op);
    hide RelayShape, SlotsShape, AllLocated, Fates, Honest, StartsOk, Counted;
  }

  /** The host's waiters followed by the duplicate's, and where each waiter now sits. */
  lemma AttachWaiters(s: Sched, id: OpId, host: OpId)
    requires id in s.ops && host in s.ops && host != id
    ensures var t := Attach(s, id, host); var mine, theirs := s.ops[id].waiters, s.ops[host].waiters;
      && t.ops == s.ops[host := s.ops[host].(waiters := t.ops[host].waiters)]
      && |t.ops[host].waiters| == |theirs| + |mine|
      && (forall k :: 0 <= k < |theirs| ==> t.ops[host].waiters[k] == theirs[k])
      && (forall k :: |theirs| <= k < |t.ops[host].waiters| ==>
            t.ops[host].waiters[k].waiter == mine[k - |theirs|].waiter)
      && t.live == s.live - {id} && t.log == s.log && t.fate.Keys == s.fate.Keys
      && (forall w :: w in s.fate && s.fate[w].Waiting? && s.fate[w].op == id ==>
            t.fate[w] == Waiting(host, |theirs| + s.fate[w].position))
      && (forall w :: w in s.fate && !(s.fate[w].Waiting? && s.fate[w].op == id) ==> t.fate[w] == s.fate[w])
  {
  }

  lemma AttachKeepsAttached(s: Sched, id: OpId, host: OpId)
    requires AttachedOk(s.ops, s.live, s.fate) && id in s.live && id in s.ops && host in s.live && host in s.ops
    requires host != id
    ensures var t := Attach(s, id, host); AttachedOk(t.ops, t.live, t.fate)
  {
    var t := Attach(s, id, host);
    AttachWaiters(s, id, host);
    hide Attach;
    var theirs := |s.ops[host].waiters|;
    forall x, k | x in t.live && x in t.ops && 0 <= k < |t.ops[x].waiters|
      ensures t.ops[x].waiters[k].waiter in t.fate && t.fate[t.ops[x].waiters[k].waiter] == Waiting(x, k)
    {
      if x != host || k < theirs {
        assert s.fate[s.ops[x].waiters[k].waiter] == Waiting(x, k);
      } else {
        assert s.fate[s.ops[id].waiters[k - theirs].waiter] == Waiting(id, k - theirs);
      }
    }
  }

  lemma AttachKeepsWaiting(s: Sched, id: OpId, host: OpId)
    requires WaitingOk(s.ops, s.live, s.fate) && id in s.live && id in s.ops && host in s.live && host in s.ops
    requires host != id
    ensures var t := Attach(s, id, host); WaitingOk(t.ops, t.live, t.fate)
  {
    AttachWaiters(s, id, host);
    hide Attach;
  }

  lemma AttachKeepsTold(s: Sched, id: OpId, host: OpId)
    requires ToldOk(s.fate, s.log) && LogOk(s.fate, s.log) && id in s.ops && host in s.ops && host != id
    ensures var t := Attach(s, id, host); ToldOk(t.fate, t.log) && LogOk(t.fate, t.log)
  {
    AttachWaiters(s, id, host);
    hide Attach;
  }

  lemma AttachFates(s: Sched, id: OpId, host: OpId)
    requires Fates(s.ops, s.live, s.fate, s.log) && id in s.live && id in s.ops && host in s.live && host in s.ops
    requires host != id
    ensures var t := Attach(s, id, host); Fates(t.ops, t.live, t.fate, t.log)
  {
    hide Attach, WaitingOk, AttachedOk, ToldOk, LogOk;
    AttachKeepsAttached(s, id, host);
    AttachKeepsWaiting(s, id, host);
    AttachKeepsTold(s, id, host);
  }

  /** Only the waiters of `host` change and `id` leaves the live set: no place notices. */
  lemma WaitersSlot(
    ops: map<OpId, Op>, live: set<OpId>, id: OpId, host: OpId, waiters: seq<Attached>, p: PaneId, slot: Slot)
    requires host in ops && SlotShape(ops, live, {id}, p, slot)
    ensures SlotShape(ops[host := ops[host].(waiters := waiters)], live - {id}, {}, p, slot)
  {
  }

  lemma WaitersPlaces(s: Sched, t: Sched, id: OpId, host: OpId, waiters: seq<Attached>)
    requires Inv(s, {id}) && host in s.live && host in s.ops && host != id
    requires t == s.(ops := s.ops[host := s.ops[host].(waiters := waiters)], live := s.live - {id}, fate := t.fate)
    ensures RelayShape(t.ops, t.live, {}, t.relayQueue, t.relayInFlight)
    ensures SlotsShape(t.ops, t.live, {}, t.slots) && AllLocated(t, {})
  {
    hide Fates, Counted, LedgerOk, Honest, StartsOk, Timed;
    assert RelayShape(t.ops, t.live, {}, t.relayQueue, t.relayInFlight) by { hide SlotsShape, AllLocated; }
    hide RelayShape, SlotShape, Ordered;
    forall p | p in s.slots
      ensures SlotShape(t.ops, t.live, {}, p, s.slots[p])
    {
      WaitersSlot(s.ops, s.live, id, host, waiters, p, s.slots[p]);
    }
    assert SlotsShape(t.ops, t.live, {}, t.slots);
    hide SlotsShape;
  }

  lemma WaitersRest(s: Sched, t: Sched, id: OpId, host: OpId, waiters: seq<Attached>)
    requires Inv(s, {id}) && host in s.live && host in s.ops && host != id && Unreferenced(s, id)
    requires t == s.(ops := s.ops[host := s.ops[host].(waiters := waiters)], live := s.live - {id}, fate := t.fate)
    ensures LedgerOk(t.ops, t.live, t.stopping, t.ledger) && Timed(t.ops, t.live, {}, t.stopping, t.deadlines)
    ensures Honest(t.ops, t.live, t.log) && StartsOk(t.ops, t.starts) && t.live <= t.ops.Keys
  {
    hide Fates, Counted, RelayShape, SlotsShape, AllLocated;
    assert Honest(t.ops, t.live, t.log) by { hide LedgerOk, StartsOk, Timed, Unreferenced; }
    assert StartsOk(t.ops, t.starts) by { hide LedgerOk, Honest, Timed, Unreferenced; }
    hide Honest, StartsOk;
  }

  lemma AttachKeeps(s: Sched, id: OpId, host: OpId)
    requires Inv(s, {id}) && host in s.live && host != id && Unreferenced(s, id)
    ensures Inv(Attach(s, id, host), {})
  {
    var t := Attach(s, id, host);
    var waiters := t.ops[host].waiters;
    AttachFates(s, id, host);
    assert t == s.(ops := s.ops[host := s.ops[host].(waiters := waiters)], live := s.live - {id}, fate := t.fate);
    hide Attach;
    WaitersPlaces(s, t, id, host, waiters);
    WaitersRest(s, t, id, host, waiters);
    hide Fates, Counted, RelayShape, SlotsShape, AllLocated, LedgerOk, Timed, Honest, StartsOk;
  }

  // ---------------------------------------------------------------- entering a queue

  lemma {:induction false} InsertKeeps(ops: map<OpId, Op>, queue: seq<OpId>, id: OpId)
    requires Ordered(ops, queue) && id !in queue
    ensures Ordered(ops, InsertBySequence(ops, queue, id))
    ensures forall x :: x in InsertBySequence(ops, queue, id) <==> x == id || x in queue
    decreases |queue|
  {
    if queue == [] || OpIn(ops, queue[0]).sequence > OpIn(ops, id).sequence {
      assert InsertBySequence(ops, queue, id) == [id] + queue;
    } else {
      var rest := queue[1..];
      assert queue == [queue[0]] + rest;
      assert Ordered(ops, rest);
      InsertKeeps(ops, rest, id);
      var tail := InsertBySequence(ops, rest, id);
      var whole := [queue[0]] + tail;
      forall i, j | 0 <= i < j < |whole|
        ensures whole[i] != whole[j] && OpIn(ops, whole[i]).sequence <= OpIn(ops, whole[j]).sequence
      {
        assert whole[j] == tail[j - 1] && tail[j - 1] in tail;
        if i > 0 {
          assert whole[i] == tail[i - 1];
        }
      }
    }
  }

  lemma EnqueueRelayKeeps(s: Sched, id: OpId)
    requires Inv(s, {id}) && OpOf(s, id).relay && !OpOf(s, id).dispatched && id in s.deadlines
    ensures Inv(EnqueueRelay(s, id), {})
  {
    var t := EnqueueRelay(s, id);
    assert id !in s.relayQueue;
    InsertKeeps(s.ops, s.relayQueue, id);
    PlacesFrame(s, {id}, id, s.ops[id]);
    assert s.ops[id := s.ops[id]] == s.ops && {id} - {id} == {};
    hide Fates, Counted, LedgerOk, Honest, StartsOk, SlotsShape, Ordered, InsertBySequence;
    forall i | 0 <= i < |t.relayQueue|
      ensures Waits(t.ops, t.live, {}, t.relayQueue[i]) && t.ops[t.relayQueue[i]].relay
    {
      assert t.relayQueue[i] in t.relayQueue;
    }
    assert RelayShape(t.ops, t.live, {}, t.relayQueue, t.relayInFlight) by { hide AllLocated, Timed; }
    hide RelayShape;
  }

  lemma StampPlaces(s: Sched, id: OpId)
    requires Inv(s, {id}) && !OpOf(s, id).relay && !OpOf(s, id).dispatched
    requires OpOf(s, id).pane in s.slots && s.slots[OpOf(s, id).pane].generation == OpOf(s, id).admitted
    ensures var t := StampAndInsert(s, id);
      && RelayShape(t.ops, t.live, {}, t.relayQueue, t.relayInFlight)
      && SlotsShape(t.ops, t.live, {}, t.slots) && AllLocated(t, {})
  {
    hide Fates, LedgerOk, Counted, Timed, Honest, StartsOk;
    var t := StampAndInsert(s, id);
    var p := s.ops[id].pane;
    var slot := s.slots[p];
    assert SlotShape(s.ops, s.live, {id}, p, slot);
    assert id !in slot.queue;
    PlacesFrame(s, {id}, id, t.ops[id]);
    assert {id} - {id} == {};
    assert SlotShape(t.ops, t.live, {}, p, slot);
    InsertKeeps(t.ops, slot.queue, id);
    hide Ordered, InsertBySequence, RelayShape;
    var longer := t.slots[p].queue;
    assert SlotShape(t.ops, t.live, {}, p, t.slots[p]) by {
      hide SlotsShape, AllLocated;
      forall i | 0 <= i < |longer|
        ensures Waits(t.ops, t.live, {}, longer[i]) && StampedFor(t.ops[longer[i]], p, slot.generation)
      {
        assert longer[i] in longer;
      }
    }
    SlotReplaced(t.ops, t.live, {}, s.slots, p, t.slots[p]);
    hide SlotShape, SlotsShape;
  }

  lemma StampFates(s: Sched, id: OpId)
    requires Fates(s.ops, s.live, s.fate, s.log) && LedgerOk(s.ops, s.live, s.stopping, s.ledger) && id in s.ops
    ensures var t := StampAndInsert(s, id);
      Fates(t.ops, t.live, t.fate, t.log) && LedgerOk(t.ops, t.live, t.stopping, t.ledger)
  {
    hide InsertBySequence;
    var t := StampAndInsert(s, id);
    assert LedgerOk(t.ops, t.live, t.stopping, t.ledger) by { hide Fates; }
    hide LedgerOk;
  }

  lemma StampHonest(s: Sched, id: OpId)
    requires Honest(s.ops, s.live, s.log) && StartsOk(s.ops, s.starts) && id in s.ops
    requires Timed(s.ops, s.live, {id}, s.stopping, s.deadlines) && !OpOf(s, id).dispatched && id in s.deadlines
    ensures var t := StampAndInsert(s, id);
      Honest(t.ops, t.live, t.log) && StartsOk(t.ops, t.starts) && Timed(t.ops, t.live, {}, t.stopping, t.deadlines)
  {
    hide InsertBySequence;
    var t := StampAndInsert(s, id);
    assert Honest(t.ops, t.live, t.log) by { hide StartsOk, Timed; }
    assert StartsOk(t.ops, t.starts) by { hide Honest, Timed; }
    hide Honest, StartsOk;
  }

  lemma StampRest(s: Sched, id: OpId)
    requires Inv(s, {id}) && !OpOf(s, id).dispatched && id in s.deadlines
    ensures var t := StampAndInsert(s, id);
      && Fates(t.ops, t.live, t.fate, t.log) && LedgerOk(t.ops, t.live, t.stopping, t.ledger)
      && Honest(t.ops, t.live, t.log) && StartsOk(t.ops, t.starts) && Timed(t.ops, t.live, {}, t.stopping, t.deadlines)
  {
    hide RelayShape, SlotsShape, AllLocated, Counted, StampAndInsert, Fates, LedgerOk, Honest, StartsOk;
    assert id in s.ops;
    StampFates(s, id);
    StampHonest(s, id);
  }

  lemma StampKeeps(s: Sched, id: OpId)
    requires Inv(s, {id}) && !OpOf(s, id).relay && !OpOf(s, id).dispatched && id in s.deadlines
    requires OpOf(s, id).pane in s.slots && s.slots[OpOf(s, id).pane].generation == OpOf(s, id).admitted
    ensures Inv(StampAndInsert(s, id), {})
  {
    var t := StampAndInsert(s, id);
    StampPlaces(s, id);
    StampRest(s, id);
    hide InsertBySequence;
    BusyFrame(s.slots, s.ops[id].pane, t.slots[s.ops[id].pane]);
    hide RelayShape, SlotsShape, AllLocated, Fates, LedgerOk, Honest, StartsOk, Timed, Busy;
  }

  // ---------------------------------------------------------------- superseding a pane session

  lemma NewSlotKeeps(s: Sched, hand: set<OpId>, p: PaneId)
    requires Inv(s, hand)
    ensures Inv(s.(slots := s.slots[p := SlotOf(s, p)]), hand)
  {
    var t := s.(slots := s.slots[p := SlotOf(s, p)]);
    if p in s.slots {
      assert t.slots == s.slots && t == s;
    } else {
      assert Busy(t.slots) == Busy(s.slots);
      assert SlotShape(s.ops, s.live, hand, p, NewSlot);
      SlotReplaced(s.ops, s.live, hand, s.slots, p, NewSlot);
      hide RelayShape, SlotsShape, Fates, LedgerOk, Honest, StartsOk, Timed, Busy;
    }
  }

  lemma SupersedeKeeps(s: Sched, hand: set<OpId>, p: PaneId, generation: nat, keep: Key)
    requires Inv(s, hand) && generation >= SlotOf(s, p).generation
    ensures Inv(Supersede(s, p, generation, keep), hand)
  {
    var queue := SlotOf(s, p).queue;
    var waiting := set id | id in queue;
    NewSlotKeeps(s, hand, p);
    var s0 := s.(slots := s.slots[p := SlotOf(s, p)]);
    QueueDistinct(s0, hand, p);
    hide Inv, Ordered;
    EmptySlotKeeps(s0, hand, p, generation);
    var emptied := s.(slots := s.slots[p := SlotOf(s, p).(generation := generation, queue := [])]);
    assert emptied.slots == s0.slots[p := s0.slots[p].(generation := generation, queue := [])];
    StaleAllKeeps(emptied, hand + waiting, queue);
    assert (hand + waiting) - waiting == hand;
    var answered := StaleAll(emptied, queue);
    hide StaleAll;
    ForgetKeeps(answered, answered.(ledger := WithoutOlder(answered.ledger, p, generation, keep)), hand);
  }

  lemma QueueDistinct(s: Sched, hand: set<OpId>, p: PaneId)
    requires Inv(s, hand) && p in s.slots
    ensures var queue := s.slots[p].queue;
      && (forall i, j :: 0 <= i < j < |queue| ==> queue[i] != queue[j])
      && (set id | id in queue) !! hand
  {
    assert SlotShape(s.ops, s.live, hand, p, s.slots[p]);
  }

  lemma SupersedeFrame(s: Sched, p: PaneId, generation: nat, keep: Key)
    ensures var t := Supersede(s, p, generation, keep);
      && OnlySettled(s.(slots := t.slots), t)
      && t.slots == s.slots[p := SlotOf(s, p).(generation := generation, queue := [])]
  {
    StaleAllFrame(s.(slots := s.slots[p := SlotOf(s, p).(generation := generation, queue := [])]), SlotOf(s, p).queue);
  }

  // ---------------------------------------------------------------- ingress

  lemma EnqueuePaneKeeps(s: Sched, id: OpId)
    requires Inv(s, {id}) && !OpOf(s, id).relay && !OpOf(s, id).dispatched && id in s.deadlines
    requires OpOf(s, id).admitted >= SlotOf(s, OpOf(s, id).pane).generation
    ensures Inv(EnqueuePane(s, id), {})
  {
    var op := OpOf(s, id);
    var p := op.pane;
    assert id in s.ops && id !in (set x | x in SlotOf(s, p).queue) by {
      if p in s.slots { assert SlotShape(s.ops, s.live, {id}, p, s.slots[p]); }
    }
    if op.admitted > SlotOf(s, p).generation {
      SupersedeKeeps(s, {id}, p, op.admitted, op.key);
      SupersedeFrame(s, p, op.admitted, op.key);
      SupersedeTimers(s, p, op.admitted, op.key, id);
      hide Inv, Supersede, StampAndInsert;
      StampKeeps(Supersede(s, p, op.admitted, op.key), id);
    } else {
      NewSlotKeeps(s, {id}, p);
      hide Inv, Supersede, StampAndInsert;
      StampKeeps(s.(slots := s.slots[p := SlotOf(s, p)]), id);
    }
  }

  /** Superseding leaves the deadlines of operations that were not queued on the pane. */
  lemma SupersedeTimers(s: Sched, p: PaneId, generation: nat, keep: Key, id: OpId)
    requires id in s.deadlines && id !in SlotOf(s, p).queue
    ensures id in Supersede(s, p, generation, keep).deadlines
  {
    StaleAllTimers(s.(slots := s.slots[p := SlotOf(s, p).(generation := generation, queue := [])]), SlotOf(s, p).queue, id);
  }

  lemma {:induction false} StaleAllTimers(s: Sched, ids: seq<OpId>, id: OpId)
    requires id in s.deadlines && id !in ids
    ensures id in StaleAll(s, ids).deadlines
    decreases |ids|
  {
    if ids != [] {
      StaleAllTimers(Stale(s, ids[0]), ids[1..], id);
    }
  }

  lemma RecordKeeps(s: Sched, id: OpId)
    requires Inv(s, {id}) && OpOf(s, id).key !in s.ledger
    ensures Inv(Record(s, id), {id})
  {
    hide RelayShape, SlotsShape, Fates, Honest, StartsOk, Counted;
  }

  lemma EnqueueKeeps(s: Sched, id: OpId)
    requires Inv(s, {id}) && !OpOf(s, id).dispatched
    requires OpOf(s, id).key !in s.ledger
    requires !OpOf(s, id).relay ==> OpOf(s, id).admitted >= SlotOf(s, OpOf(s, id).pane).generation
    ensures Inv(Enqueue(s, id), {})
  {
    RecordKeeps(s, id);
    hide Inv, EnqueuePane, EnqueueRelay;
    if OpOf(s, id).relay {
      EnqueueRelayKeeps(Record(s, id), id);
    } else {
      EnqueuePaneKeeps(Record(s, id), id);
    }
  }

  lemma {:induction false} DroppedIsPart(ledger: map<Key, Entry>, victims: seq<Key>)
    ensures var rest := Dropped(ledger, victims); forall key :: key in rest ==> key in ledger && rest[key] == ledger[key]
    decreases |victims|
  {
    if victims != [] {
      DroppedIsPart(ledger - {victims[0]}, victims[1..]);
    }
  }

  lemma PrunedIsPart(ledger: map<Key, Entry>, now: int, victims: seq<Key>)
    ensures var rest := Pruned(ledger, now, victims); forall key :: key in rest ==> key in ledger && rest[key] == ledger[key]
  {
    DroppedIsPart(Aged(ledger, now), victims);
  }

  lemma PruneKeeps(s: Sched, hand: set<OpId>, now: int, victims: seq<Key>)
    requires Inv(s, hand)
    ensures Inv(s.(ledger := Pruned(s.ledger, now, victims)), hand)
  {
    hide Inv, Pruned;
    PrunedIsPart(s.ledger, now, victims);
    ForgetKeeps(s, s.(ledger := Pruned(s.ledger, now, victims)), hand);
  }

  lemma DecidedKeeps(t: Sched, id: OpId, op: Op, now: int, later: int)
    requires Inv(t, {id}) && Unreferenced(t, id) && OpOf(t, id) == op && !op.dispatched
    ensures Inv(Decided(t, id, op, now, later), {})
  {
    assert id in t.ops && "" !in t.ledger;
    assert op.key in t.ledger ==> EntryOk(t.ops, t.live, t.stopping, op.key, t.ledger[op.key]);
    hide Inv, Unreferenced, Respond, Attach, Enqueue, Dispatch, Stale, LedgerOk;
    assert {id} - {id} == {};
    if t.stopping {
      RespondKeeps(t, {id}, id, Closed);
    } else if now >= op.deadline {
      RespondKeeps(t, {id}, id, NotStarted);
    } else if !op.relay && op.pane in t.slots && op.admitted < t.slots[op.pane].generation {
      StaleKeeps(t, {id}, id);
    } else if op.key != "" && op.key in t.ledger {
      var existing := t.ledger[op.key];
      if existing.hash != op.hash {
        RespondKeeps(t, {id}, id, Conflict);
      } else if existing.result.Some? {
        RespondKeeps(t, {id}, id, Replayed(existing.result.value));
      } else {
        JoinHost(t, id, op.key);
        AttachKeeps(t, id, existing.operation.value);
      }
    } else {
      EnqueueKeeps(t, id);
      DispatchKeeps(Enqueue(t, id), later);
    }
  }

  lemma IngressKeeps(s: Sched, id: OpId, op: Op, victims: seq<Key>, early: int, now: int, later: int)
    requires Inv(s, {}) && Fresh(s, id, op)
    ensures Inv(Ingress(s, id, op, victims, early, now, later), {})
  {
    hide Inv, Pruned, Decided;
    TakeKeeps(s, id, op);
    var taken := Take(s, id, op);
    PruneKeeps(taken, {id}, early, victims);
    PrunedIsPart(s.ledger, early, victims);
    DecidedKeeps(taken.(ledger := Pruned(s.ledger, early, victims)), id, op, now, later);
  }

  /** The operation a duplicate joins is under way and is not the duplicate itself. */
  lemma JoinHost(s: Sched, id: OpId, key: Key)
    requires !s.stopping && key in s.ledger && Unreferenced(s, id) && s.ledger[key].operation.Some?
    ensures s.ledger[key].operation.value != id
  {
  }

  // ---------------------------------------------------------------- completion

  /** An effect that ended: its record is gone, its capacity is back, its operation is in hand. */
  lemma UnplugRelayKeeps(s: Sched, id: OpId)
    requires Inv(s, {}) && id in s.relayInFlight
    ensures Inv(s.(relayInFlight := s.relayInFlight - {id}, inUse := s.inUse - 1), {id})
  {
    hide Fates, LedgerOk, Honest, StartsOk, Ordered, Busy;
    var t := s.(relayInFlight := s.relayInFlight - {id}, inUse := s.inUse - 1);
    forall p | p in s.slots
      ensures SlotShape(t.ops, t.live, {id}, p, s.slots[p])
    {
      assert SlotShape(s.ops, s.live, {}, p, s.slots[p]);
      hide SlotsShape, AllLocated, Timed;
    }
    assert SlotsShape(t.ops, t.live, {id}, t.slots);
    hide SlotsShape, SlotShape;
  }

  lemma BusyShrinks(slots: map<PaneId, Slot>, p: PaneId, slot: Slot)
    requires p in slots && slots[p].inFlight.Some? && slot.inFlight.None?
    ensures |Busy(slots[p := slot])| == |Busy(slots)| - 1 == |Busy(slots - {p})|
  {
    assert Busy(slots[p := slot]) == Busy(slots) - {p};
    assert Busy(slots - {p}) == Busy(slots) - {p};
  }

  lemma UnplugSlots(s: Sched, id: OpId, p: PaneId, slot: Slot)
    requires SlotsShape(s.ops, s.live, {}, s.slots) && RunsOn(s.slots, p, id) && s.live <= s.ops.Keys
    requires slot == s.slots[p].(generation := slot.generation, inFlight := None)
    requires slot.generation >= s.slots[p].generation
    ensures SlotsShape(s.ops, s.live, {id}, s.slots[p := slot])
  {
    var slots := s.slots[p := slot];
    assert SlotShape(s.ops, s.live, {}, p, s.slots[p]);
    hide Ordered;
    forall q | q in slots
      ensures SlotShape(s.ops, s.live, {id}, q, slots[q])
    {
      assert SlotShape(s.ops, s.live, {}, q, s.slots[q]);
      hide SlotsShape;
    }
    hide SlotShape;
  }

  lemma UnplugPaneKeeps(s: Sched, id: OpId, slot: Slot, gone: bool)
    requires Inv(s, {}) && RunsOn(s.slots, OpOf(s, id).pane, id)
    requires var p := OpOf(s, id).pane;
      && slot == s.slots[p].(generation := slot.generation, inFlight := None)
      && slot.generation >= s.slots[p].generation
      && (gone ==> slot.queue == [])
    ensures var p := OpOf(s, id).pane;
      Inv(s.(slots := if gone then s.slots - {p} else s.slots[p := slot], inUse := s.inUse - 1), {id})
  {
    hide Fates, LedgerOk, Honest, StartsOk, Ordered, Busy;
    var p := OpOf(s, id).pane;
    var t := s.(slots := if gone then s.slots - {p} else s.slots[p := slot], inUse := s.inUse - 1);
    assert SlotShape(s.ops, s.live, {}, p, s.slots[p]) by { hide RelayShape, AllLocated, Timed, SlotShape; }
    assert id in s.live && id in s.ops && s.ops[id].dispatched && !s.ops[id].relay by { hide RelayShape, AllLocated, Timed, SlotsShape; }
    UnplugSlots(s, id, p, slot);
    BusyShrinks(s.slots, p, slot);
    assert SlotsShape(t.ops, t.live, {id}, t.slots) by { hide RelayShape, AllLocated, Timed, SlotShape; }
    hide SlotsShape, SlotShape;
    assert AllLocated(t, {id}) by { hide RelayShape, Timed; }
    hide AllLocated;
  }

  lemma SettledKeeps(s: Sched, id: OpId, result: Option<Result>)
    requires Inv(s, {id})
    ensures var t := s.(deadlines := s.deadlines - {id}, ledger := SettledLedger(s.ledger, OpOf(s, id).key, result));
      Inv(t, {id}) && Unreferenced(t, id)
  {
    hide RelayShape, SlotsShape, Fates, Honest, StartsOk, Counted;
  }

  /** `Finish` on a state whose capacity and in-flight record were already given back. */
  lemma FinishKeeps(s: Sched, id: OpId, result: Option<Result>)
    requires Inv(s.(inUse := s.inUse - 1), {id}) && OpOf(s, id).dispatched
    ensures Inv(Finish(s, id, result), {})
  {
    var t := s.(inUse := s.inUse - 1);
    assert id in s.ops && {id} - {id} == {};
    hide Inv, SettledLedger, Unreferenced;
    SettledKeeps(t, id, result);
    var u := t.(deadlines := t.deadlines - {id}, ledger := SettledLedger(t.ledger, OpOf(t, id).key, result));
    hide Respond;
    RespondKeeps(u, {id}, id, Completed(result));
  }

  lemma CompleteRelayKeeps(s: Sched, id: OpId, result: Option<Result>)
    requires Inv(s, {}) && id in s.relayInFlight
    ensures Inv(CompleteRelay(s, id, result), {})
  {
    assert OpOf(s, id).dispatched;
    UnplugRelayKeeps(s, id);
    hide Inv, Finish;
    FinishKeeps(s.(relayInFlight := s.relayInFlight - {id}), id, result);
  }

  lemma RunningIsDispatched(s: Sched, p: PaneId, id: OpId)
    requires Inv(s, {}) && RunsOn(s.slots, p, id)
    ensures id in s.ops && s.ops[id].dispatched && s.ops[id].pane == p && id in s.live
  {
    assert SlotShape(s.ops, s.live, {}, p, s.slots[p]);
  }

  lemma UnplugKeeps(s: Sched, id: OpId, result: Option<Result>, bump: bool, current: bool)
    requires Inv(s, {}) && RunsOn(s.slots, OpOf(s, id).pane, id)
    ensures var t := Unplug(s, id, result, bump, current);
      Inv(t.(inUse := t.inUse - 1), {id}) && OpOf(s, id).dispatched
  {
    hide Inv, ClosedPane, WithoutOlder;
    var p := OpOf(s, id).pane;
    var bumps := bump && !Superseded(s, p, current);
    hide Superseded;
    var generation := if bumps then s.slots[p].generation + 1 else s.slots[p].generation;
    var slot := s.slots[p].(generation := generation, inFlight := None);
    var gone := slot.queue == [] && bumps && ClosedPane(result);
    RunningIsDispatched(s, p, id);
    UnplugPaneKeeps(s, id, slot, gone);
    var slots := if gone then s.slots - {p} else s.slots[p := slot];
    var u := s.(slots := slots, inUse := s.inUse - 1);
    var t := Unplug(s, id, result, bump, current);
    assert t == s.(slots := slots, ledger := t.ledger);
    if bumps {
      OlderAreForgotten(s.ledger, p, generation, OpOf(s, id).key);
    }
    ForgetKeeps(u, t.(inUse := t.inUse - 1), {id});
  }

  lemma OlderAreForgotten(ledger: map<Key, Entry>, p: PaneId, generation: nat, keep: Key)
    ensures var rest := WithoutOlder(ledger, p, generation, keep);
      forall key :: key in rest ==> key in ledger && rest[key] == ledger[key]
  {
  }

  lemma CompletePaneKeeps(s: Sched, id: OpId, result: Option<Result>, bump: bool, current: bool)
    requires Inv(s, {}) && RunsOn(s.slots, OpOf(s, id).pane, id)
    ensures Inv(CompletePane(s, id, result, bump, current), {})
  {
    hide Inv, Finish, Stale;
    UnplugKeeps(s, id, result, bump, current);
    var t := Unplug(s, id, result, bump, current);
    assert t.ops == s.ops;
    hide Unplug, WithoutOlder;
    if Superseded(s, OpOf(s, id).pane, current) {
      StaleKeeps(t.(inUse := t.inUse - 1), {id}, id);
      assert {id} - {id} == {};
    } else {
      FinishKeeps(t, id, result);
    }
  }

  lemma CompleteKeeps(s: Sched, id: OpId, result: Option<Result>, bump: bool, current: bool, now: int)
    requires Inv(s, {})
    ensures Inv(Complete(s, id, result, bump, current, now), {})
  {
    hide Inv, CompleteRelay, CompletePane, Dispatch;
    if OpOf(s, id).relay {
      if id in s.relayInFlight {
        CompleteRelayKeeps(s, id, result);
        DispatchKeeps(CompleteRelay(s, id, result), now);
      }
    } else if RunsOn(s.slots, OpOf(s, id).pane, id) {
      CompletePaneKeeps(s, id, result, bump, current);
      DispatchKeeps(CompletePane(s, id, result, bump, current), now);
    }
  }

  // ---------------------------------------------------------------- topology

  lemma {:induction false} RetireGoneKeeps(s: Sched, gone: seq<PaneId>)
    requires Inv(s, {})
    ensures Inv(RetireGone(s, gone), {})
    decreases |gone|
  {
    hide Inv, Supersede;
    if gone != [] {
      var p := gone[0];
      if p in s.slots {
        SupersedeKeeps(s, {}, p, s.slots[p].generation + 1, "");
        RetireGoneKeeps(Supersede(s, p, s.slots[p].generation + 1, ""), gone[1..]);
      } else {
        RetireGoneKeeps(s, gone[1..]);
      }
    }
  }

  lemma RaiseOneKeeps(s: Sched, p: PaneId, generation: nat)
    requires Inv(s, {})
    ensures Inv(RaiseOne(s, p, generation), {})
  {
    hide Inv, Supersede;
    if generation <= SlotOf(s, p).generation {
      NewSlotKeeps(s, {}, p);
    } else {
      SupersedeKeeps(s, {}, p, generation, "");
    }
  }

  lemma {:induction false} RaiseAllKeeps(s: Sched, raised: seq<(PaneId, nat)>)
    requires Inv(s, {})
    ensures Inv(RaiseAll(s, raised), {})
    decreases |raised|
  {
    hide Inv, RaiseOne;
    if raised != [] {
      RaiseOneKeeps(s, raised[0].0, raised[0].1);
      RaiseAllKeeps(RaiseOne(s, raised[0].0, raised[0].1), raised[1..]);
    }
  }

  lemma KnownActiveKeeps(s: Sched, active: set<PaneId>)
    requires Inv(s, {})
    ensures Inv(s.(knownActive := active), {})
  {
    hide RelayShape, SlotsShape, Fates, Honest, StartsOk, Counted, LedgerOk, Timed;
  }

  lemma TopologyKeeps(s: Sched, active: set<PaneId>, gone: seq<PaneId>, raised: seq<(PaneId, nat)>, now: int)
    requires Inv(s, {})
    ensures Inv(Topology(s, active, gone, raised, now), {})
  {
    hide Inv, RetireGone, RaiseAll, Dispatch;
    RetireGoneKeeps(s, gone);
    RaiseAllKeeps(RetireGone(s, gone), raised);
    KnownActiveKeeps(RaiseAll(RetireGone(s, gone), raised), active);
    DispatchKeeps(RaiseAll(RetireGone(s, gone), raised).(knownActive := active), now);
  }

  // ---------------------------------------------------------------- ledger, timer, stop

  lemma UpdateLedgerKeeps(s: Sched, key: Key, generation: nat, result: Option<Result>)
    requires Inv(s, {})
    ensures Inv(UpdateLedger(s, key, generation, result).0, {})
  {
    hide RelayShape, SlotsShape, Fates, Honest, StartsOk, Counted, Timed;
  }

  lemma {:induction false} RemoveKeeps(ops: map<OpId, Op>, queue: seq<OpId>, id: OpId)
    requires Ordered(ops, queue)
    ensures Ordered(ops, RemoveOp(queue, id))
    ensures forall x :: x in RemoveOp(queue, id) <==> x in queue && x != id
    decreases |queue|
  {
    if queue != [] {
      var rest := queue[1..];
      assert queue == [queue[0]] + rest;
      assert Ordered(ops, rest);
      if queue[0] != id {
        RemoveKeeps(ops, rest, id);
        var tail := RemoveOp(rest, id);
        var whole := [queue[0]] + tail;
        forall i, j | 0 <= i < j < |whole|
          ensures whole[i] != whole[j] && OpIn(ops, whole[i]).sequence <= OpIn(ops, whole[j]).sequence
        {
          assert whole[j] == tail[j - 1] && tail[j - 1] in tail;
          if i > 0 {
            assert whole[i] == tail[i - 1];
          }
        }
      }
    }
  }

  lemma UnqueueRelayKeeps(s: Sched, id: OpId)
    requires Inv(s, {}) && id in s.relayQueue
    ensures Inv(Unqueue(s.(deadlines := s.deadlines - {id}), id), {id})
  {
    var t := Unqueue(s.(deadlines := s.deadlines - {id}), id);
    RemoveKeeps(s.ops, s.relayQueue, id);
    assert id in s.ops && s.ops[id].relay && !s.ops[id].dispatched;
    hide Fates, LedgerOk, Honest, StartsOk, Counted, Ordered, RemoveOp;
    forall i | 0 <= i < |t.relayQueue|
      ensures Waits(t.ops, t.live, {id}, t.relayQueue[i]) && t.ops[t.relayQueue[i]].relay
    {
      assert t.relayQueue[i] in t.relayQueue;
    }
    forall p | p in s.slots
      ensures SlotShape(t.ops, t.live, {id}, p, s.slots[p])
    {
      assert SlotShape(s.ops, s.live, {}, p, s.slots[p]);
      hide SlotsShape, AllLocated, Timed, RelayShape;
    }
    assert SlotsShape(t.ops, t.live, {id}, t.slots);
    hide SlotsShape, SlotShape;
  }

  lemma UnqueueSlots(s: Sched, p: PaneId, id: OpId, slot: Slot)
    requires SlotsShape(s.ops, s.live, {}, s.slots) && p in s.slots && id in s.slots[p].queue
    requires slot == s.slots[p].(queue := RemoveOp(s.slots[p].queue, id))
    ensures SlotsShape(s.ops, s.live, {id}, s.slots[p := slot])
  {
    var slots := s.slots[p := slot];
    assert SlotShape(s.ops, s.live, {}, p, s.slots[p]);
    RemoveKeeps(s.ops, s.slots[p].queue, id);
    hide Ordered, RemoveOp;
    forall q | q in slots
      ensures SlotShape(s.ops, s.live, {id}, q, slots[q])
    {
      assert SlotShape(s.ops, s.live, {}, q, s.slots[q]);
      hide SlotsShape;
      if q == p {
        forall i | 0 <= i < |slot.queue|
          ensures Waits(s.ops, s.live, {id}, slot.queue[i]) && StampedFor(s.ops[slot.queue[i]], p, slot.generation)
        {
          assert slot.queue[i] in slot.queue;
        }
      }
    }
    hide SlotShape;
  }

  lemma UnqueuePaneKeeps(s: Sched, id: OpId)
    requires Inv(s, {}) && !OpOf(s, id).relay && OpOf(s, id).pane in s.slots && id in s.slots[OpOf(s, id).pane].queue
    ensures Inv(Unqueue(s.(deadlines := s.deadlines - {id}), id), {id})
  {
    var p := OpOf(s, id).pane;
    var t := Unqueue(s.(deadlines := s.deadlines - {id}), id);
    assert SlotShape(s.ops, s.live, {}, p, s.slots[p]);
    assert id in s.ops && !s.ops[id].dispatched && id in s.live;
    UnqueueSlots(s, p, id, t.slots[p]);
    BusyFrame(s.slots, p, t.slots[p]);
    RemoveKeeps(s.ops, s.slots[p].queue, id);
    hide Fates, LedgerOk, Honest, StartsOk, Busy, Ordered, RemoveOp, SlotsShape, SlotShape;
    assert AllLocated(t, {id}) by { hide RelayShape, Timed; }
    hide AllLocated;
  }

  /** A live operation that is not queued is running, so the timer only forgets its deadline. */
  lemma PoppedKeeps(s: Sched, id: OpId)
    requires Inv(s, {}) && !Queued(s, id)
    ensures Inv(s.(deadlines := s.deadlines - {id}), {})
  {
    assert id in s.live ==> s.ops[id].dispatched;
    hide Fates, LedgerOk, Honest, StartsOk, Counted, RelayShape, SlotsShape, SlotShape;
  }

  lemma TimerPopKeeps(s: Sched, id: OpId)
    requires Inv(s, {})
    ensures Inv(TimerPop(s, id), {})
  {
    if Queued(s, id) {
      assert !OpOf(s, id).dispatched by {
        if !OpOf(s, id).relay {
          assert SlotShape(s.ops, s.live, {}, OpOf(s, id).pane, s.slots[OpOf(s, id).pane]);
        }
      }
      hide Inv;
      if OpOf(s, id).relay {
        UnqueueRelayKeeps(s, id);
      } else {
        UnqueuePaneKeeps(s, id);
      }
      assert {id} - {id} == {};
      ExpireKeeps(Unqueue(s.(deadlines := s.deadlines - {id}), id), {id}, id);
    } else {
      PoppedKeeps(s, id);
    }
  }

  lemma {:induction false} TimerPopsKeeps(s: Sched, due: seq<OpId>)
    requires Inv(s, {})
    ensures Inv(TimerPops(s, due), {})
    decreases |due|
  {
    hide Inv, TimerPop;
    if due != [] {
      TimerPopKeeps(s, due[0]);
      TimerPopsKeeps(TimerPop(s, due[0]), due[1..]);
    }
  }

  lemma {:induction false} CloseSlotsKeeps(s: Sched, panes: seq<PaneId>)
    requires Inv(s, {}) && s.stopping
    ensures Inv(CloseSlots(s, panes), {}) && CloseSlots(s, panes).stopping
    decreases |panes|
  {
    if panes != [] {
      var p := panes[0];
      if p in s.slots {
        var queue := s.slots[p].queue;
        QueueDistinct(s, {}, p);
        assert forall i :: 0 <= i < |queue| ==> !OpOf(s, queue[i]).dispatched by {
          assert SlotShape(s.ops, s.live, {}, p, s.slots[p]);
        }
        EmptySlotKeeps(s, {}, p, s.slots[p].generation);
        hide Inv;
        var emptied := s.(slots := s.slots[p := s.slots[p].(queue := [])]);
        var waiting := set id | id in queue;
        assert {} + waiting == waiting && waiting - waiting == {};
        CloseAllKeeps(emptied, waiting, queue);
        CloseAllFrame(emptied, queue);
        CloseSlotsKeeps(CloseAll(emptied, queue), panes[1..]);
      } else {
        CloseSlotsKeeps(s, panes[1..]);
      }
    }
  }

  lemma StoppingKeeps(s: Sched)
    requires Inv(s, {})
    ensures Inv(s.(stopping := true), {})
  {
    hide RelayShape, SlotsShape, Fates, Honest, StartsOk, Counted;
  }

  lemma CloseRelayKeeps(s: Sched)
    requires Inv(s, {}) && s.stopping
    ensures Inv(CloseAll(s.(relayQueue := []), s.relayQueue), {})
  {
    var queue := s.relayQueue;
    assert forall i :: 0 <= i < |queue| ==> !OpOf(s, queue[i]).dispatched;
    assert forall i, j :: 0 <= i < j < |queue| ==> queue[i] != queue[j];
    EmptyRelayKeeps(s, {});
    hide Inv;
    var waiting := set id | id in queue;
    assert {} + waiting == waiting && waiting - waiting == {};
    CloseAllKeeps(s.(relayQueue := []), waiting, queue);
  }

  lemma BeginStopKeeps(s: Sched, panes: seq<PaneId>)
    requires Inv(s, {})
    ensures Inv(BeginStop(s, panes), {})
  {
    hide Inv, CloseSlots, CloseAll;
    if !s.stopping {
      StoppingKeeps(s);
      CloseSlotsKeeps(s.(stopping := true), panes);
      CloseRelayKeeps(CloseSlots(s.(stopping := true), panes));
    }
  }

  lemma AckedKeeps(s: Sched)
    requires Inv(s, {})
    ensures Inv(s.(acked := true), {})
  {
    hide RelayShape, SlotsShape, Fates, Honest, StartsOk, Counted, LedgerOk, Timed;
  }

  // ---------------------------------------------------------------- every event

  lemma StepKeeps(s: Sched, e: Event)
    requires Inv(s, {}) && Admissible(s, e)
    ensures Inv(Step(s, e), {})
  {
    hide Inv, Ingress, Complete, Topology, UpdateLedger, TimerPops, Dispatch, BeginStop;
    match e
    case Request(id, op, victims, early, now, later) => IngressKeeps(s, id, op, victims, early, now, later);
    case Completion(id, result, bump, current, now) => CompleteKeeps(s, id, result, bump, current, now);
    case TopologyUpdate(active, gone, raised, now) => TopologyKeeps(s, active, gone, raised, now);
    case LedgerUpdate(key, generation, result) => UpdateLedgerKeeps(s, key, generation, result);
    case TimerFires(due, now, later) =>
      TimerPopsKeeps(s, due);
      DispatchKeeps(TimerPops(s, due), later);
    case CancelInflight(panes) => BeginStopKeeps(s, panes);
    case Stop(panes) =>
      BeginStopKeeps(s, panes);
      AckedKeeps(BeginStop(s, panes));
  }
}
