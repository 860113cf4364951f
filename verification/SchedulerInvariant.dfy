/** The invariant that ties the scheduler's queues, in-flight records, deadline heap, ledger and
    waiters together, and the proof that each elementary change of the loop keeps it.

    Inside an event an operation may have left its queue and not yet been answered or started.
    `hand` is the set of such operations; between events it is empty.

    Each part of the invariant is a predicate over just the fields it speaks of, so that a change
    to other fields keeps it by congruence. */
module SchedulerInvariant {
  import opened Options
  import opened SchedulerModel

  ghost predicate Waits(ops: map<OpId, Op>, live: set<OpId>, hand: set<OpId>, id: OpId) {
    id in ops && id in live && id !in hand && !ops[id].dispatched
  }

  ghost predicate Runs(ops: map<OpId, Op>, live: set<OpId>, hand: set<OpId>, id: OpId) {
    id in ops && id in live && id !in hand && ops[id].dispatched
  }

  /** Sequence order without repetition. */
  ghost predicate Ordered(ops: map<OpId, Op>, queue: seq<OpId>) {
    forall i, j :: 0 <= i < j < |queue| ==>
      queue[i] != queue[j] && OpIn(ops, queue[i]).sequence <= OpIn(ops, queue[j]).sequence
  }

  ghost predicate RelayShape(
    ops: map<OpId, Op>, live: set<OpId>, hand: set<OpId>, relayQueue: seq<OpId>, relayInFlight: set<OpId>)
  {
    && Ordered(ops, relayQueue)
    && (forall i :: 0 <= i < |relayQueue| ==> Waits(ops, live, hand, relayQueue[i]) && ops[relayQueue[i]].relay)
    && (forall id :: id in relayInFlight ==> Runs(ops, live, hand, id) && ops[id].relay)
  }

  /** A pane operation is stamped with the generation it was admitted for. */
  ghost predicate StampedFor(op: Op, p: PaneId, upTo: nat) {
    !op.relay && op.pane == p && op.generation == op.admitted <= upTo
  }

  ghost predicate SlotShape(ops: map<OpId, Op>, live: set<OpId>, hand: set<OpId>, p: PaneId, slot: Slot) {
    && Ordered(ops, slot.queue)
    && (forall i :: 0 <= i < |slot.queue| ==>
          Waits(ops, live, hand, slot.queue[i]) && StampedFor(ops[slot.queue[i]], p, slot.generation))
    && (slot.inFlight.Some? ==>
          && Runs(ops, live, hand, slot.inFlight.value.op)
          && StampedFor(ops[slot.inFlight.value.op], p, slot.generation)
          && ops[slot.inFlight.value.op].generation == slot.inFlight.value.generation)
  }

  ghost predicate SlotsShape(ops: map<OpId, Op>, live: set<OpId>, hand: set<OpId>, slots: map<PaneId, Slot>) {
    forall p :: p in slots ==> SlotShape(ops, live, hand, p, slots[p])
  }

  /** A live operation sits where its own fields say: one queue, or one in-flight record. */
  ghost predicate Located(s: Sched, id: OpId) {
    id in s.ops &&
    if s.ops[id].relay then
      if s.ops[id].dispatched then id in s.relayInFlight else id in s.relayQueue
    else
      && s.ops[id].pane in s.slots
      && if s.ops[id].dispatched then RunsOn(s.slots, s.ops[id].pane, id) else id in s.slots[s.ops[id].pane].queue
  }

  ghost predicate AllLocated(s: Sched, hand: set<OpId>) {
    forall id :: id in s.live && id !in hand ==> Located(s, id)
  }

  ghost predicate WaitingOk(ops: map<OpId, Op>, live: set<OpId>, fate: map<Waiter, Fate>) {
    forall w :: w in fate && fate[w].Waiting? ==>
      && fate[w].op in live && fate[w].op in ops && fate[w].position < |ops[fate[w].op].waiters|
      && ops[fate[w].op].waiters[fate[w].position].waiter == w
  }

  ghost predicate ToldOk(fate: map<Waiter, Fate>, log: seq<Answer>) {
    forall w :: w in fate && fate[w].Told? ==>
      fate[w].index < |log| && log[fate[w].index].waiter == w && log[fate[w].index].op == fate[w].op
  }

  ghost predicate AttachedOk(ops: map<OpId, Op>, live: set<OpId>, fate: map<Waiter, Fate>) {
    forall id, k :: id in live && id in ops && 0 <= k < |ops[id].waiters| ==>
      ops[id].waiters[k].waiter in fate && fate[ops[id].waiters[k].waiter] == Waiting(id, k)
  }

  ghost predicate LogOk(fate: map<Waiter, Fate>, log: seq<Answer>) {
    forall i :: 0 <= i < |log| ==> log[i].waiter in fate && fate[log[i].waiter] == Told(log[i].op, i)
  }

  /** Every waiter taken from ingress is attached to exactly one unanswered operation or was told
      by exactly one answer. */
  ghost predicate Fates(ops: map<OpId, Op>, live: set<OpId>, fate: map<Waiter, Fate>, log: seq<Answer>) {
    WaitingOk(ops, live, fate) && ToldOk(fate, log) && AttachedOk(ops, live, fate) && LogOk(fate, log)
  }

  ghost predicate EntryOk(ops: map<OpId, Op>, live: set<OpId>, stopping: bool, key: Key, entry: Entry) {
    && key != ""
    && (entry.operation.None? <==> entry.result.Some?)
    && (entry.operation.Some? && !stopping ==>
          && entry.operation.value in live && entry.operation.value in ops
          && ops[entry.operation.value].key == key && ops[entry.operation.value].hash == entry.hash)
  }

  ghost predicate LedgerOk(ops: map<OpId, Op>, live: set<OpId>, stopping: bool, ledger: map<Key, Entry>) {
    forall key :: key in ledger ==> EntryOk(ops, live, stopping, key, ledger[key])
  }

  ghost function Busy(slots: map<PaneId, Slot>): set<PaneId> {
    set p | p in slots && slots[p].inFlight.Some?
  }

  ghost predicate Counted(slots: map<PaneId, Slot>, relayInFlight: set<OpId>, inUse: int, capacity: nat) {
    inUse == |relayInFlight| + |Busy(slots)| <= capacity
  }

  /** Until stopping, everything queued is in the deadline heap. */
  ghost predicate Timed(ops: map<OpId, Op>, live: set<OpId>, hand: set<OpId>, stopping: bool, deadlines: set<OpId>) {
    && deadlines <= ops.Keys
    && (forall id :: !stopping && id in live && id !in hand && id in ops && !ops[id].dispatched ==> id in deadlines)
  }

  /** Whether an answer speaks for an effect that ran or for a command that never started. */
  predicate ForStarted(reply: Reply) {
    reply.Completed? || reply.DispatchedUnknown?
  }

  /** An answered operation is out of the loop, and it was started exactly if its answers say so. */
  ghost predicate Honest(ops: map<OpId, Op>, live: set<OpId>, log: seq<Answer>) {
    forall i :: 0 <= i < |log| ==>
      && log[i].op in ops && log[i].op !in live
      && (ops[log[i].op].dispatched <==> ForStarted(log[i].reply))
  }

  ghost predicate WasStarted(starts: seq<Start>, id: OpId) {
    exists i :: 0 <= i < |starts| && starts[i].op == id
  }

  /** An operation is marked dispatched exactly if it was started, and it is started once; a pane
      effect starts with the generation its command was admitted for, which is the slot's at that
      moment. */
  ghost predicate StartsOk(ops: map<OpId, Op>, starts: seq<Start>) {
    && (forall id :: id in ops && ops[id].dispatched ==> WasStarted(starts, id))
    && (forall i :: 0 <= i < |starts| ==> starts[i].op in ops && ops[starts[i].op].dispatched)
    && (forall i :: 0 <= i < |starts| && starts[i].op in ops && !ops[starts[i].op].relay ==>
          && starts[i].pane == ops[starts[i].op].pane
          && starts[i].token == starts[i].slotGeneration == ops[starts[i].op].admitted)
    && (forall i, j :: 0 <= i < j < |starts| ==> starts[i].op != starts[j].op)
  }

  ghost predicate Inv(s: Sched, hand: set<OpId>) {
    && s.live <= s.ops.Keys
    && hand <= s.live
    && RelayShape(s.ops, s.live, hand, s.relayQueue, s.relayInFlight)
    && SlotsShape(s.ops, s.live, hand, s.slots)
    && AllLocated(s, hand)
    && Fates(s.ops, s.live, s.fate, s.log)
    && LedgerOk(s.ops, s.live, s.stopping, s.ledger)
    && Counted(s.slots, s.relayInFlight, s.inUse, s.capacity)
    && Timed(s.ops, s.live, hand, s.stopping, s.deadlines)
    && Honest(s.ops, s.live, s.log)
    && StartsOk(s.ops, s.starts)
  }

  // ---------------------------------------------------------------- answering

  ghost predicate Unreferenced(s: Sched, id: OpId) {
    !s.stopping ==> forall key :: key in s.ledger ==> s.ledger[key].operation != Some(id)
  }

  lemma RespondLog(s: Sched, id: OpId, reply: Reply)
    ensures var t := Respond(s, id, reply); var n := |s.log|;
      && |t.log| == n + |OpOf(s, id).waiters|
      && (forall i :: 0 <= i < n ==> t.log[i] == s.log[i])
      && (forall i :: n <= i < |t.log| ==>
            t.log[i].waiter == OpOf(s, id).waiters[i - n].waiter && t.log[i].op == id && t.log[i].reply == reply)
  {
  }

  /** Answering touches only the fates of the operation's own waiters. */
  lemma RespondFate(s: Sched, id: OpId, reply: Reply, w: Waiter)
    requires Fates(s.ops, s.live, s.fate, s.log) && id in s.live && id in s.ops && w in s.fate
    ensures var t := Respond(s, id, reply);
      && w in t.fate
      && t.fate[w] == if s.fate[w].Waiting? && s.fate[w].op == id then Told(id, |s.log| + s.fate[w].position) else s.fate[w]
  {
    hide Answers, LogOk, ToldOk;
  }

  lemma RespondWaiting(s: Sched, id: OpId, reply: Reply)
    requires Fates(s.ops, s.live, s.fate, s.log) && id in s.live && id in s.ops
    ensures var t := Respond(s, id, reply); WaitingOk(t.ops, t.live, t.fate) && AttachedOk(t.ops, t.live, t.fate)
  {
    hide Answers, LogOk, ToldOk;
  }

  lemma RespondTold(s: Sched, id: OpId, reply: Reply)
    requires Fates(s.ops, s.live, s.fate, s.log) && id in s.live && id in s.ops
    ensures var t := Respond(s, id, reply); ToldOk(t.fate, t.log) && LogOk(t.fate, t.log)
  {
    var t := Respond(s, id, reply);
    RespondLog(s, id, reply);
    assert t.fate.Keys == s.fate.Keys;
    hide Answers;
    forall w | w in t.fate && t.fate[w].Told?
      ensures t.fate[w].index < |t.log| && t.log[t.fate[w].index].waiter == w && t.log[t.fate[w].index].op == t.fate[w].op
    {
      RespondFate(s, id, reply, w);
      hide Respond, AttachedOk, LogOk;
    }
    forall i | 0 <= i < |t.log|
      ensures t.log[i].waiter in t.fate && t.fate[t.log[i].waiter] == Told(t.log[i].op, i)
    {
      RespondFate(s, id, reply, t.log[i].waiter);
      hide Respond, WaitingOk, ToldOk;
    }
  }

  lemma RespondFates(s: Sched, id: OpId, reply: Reply)
    requires Fates(s.ops, s.live, s.fate, s.log) && id in s.live && id in s.ops
    ensures var t := Respond(s, id, reply); Fates(t.ops, t.live, t.fate, t.log)
  {
    RespondWaiting(s, id, reply);
    RespondTold(s, id, reply);
    hide Respond, WaitingOk, ToldOk, AttachedOk, LogOk;
  }

  lemma RespondHonest(s: Sched, id: OpId, reply: Reply)
    requires Honest(s.ops, s.live, s.log) && id in s.ops
    requires s.ops[id].dispatched <==> ForStarted(reply)
    ensures var t := Respond(s, id, reply); Honest(t.ops, t.live, t.log)
  {
    RespondLog(s, id, reply);
    hide Answers;
  }

  lemma RespondKeeps(s: Sched, hand: set<OpId>, id: OpId, reply: Reply)
    requires Inv(s, hand) && id in hand && Unreferenced(s, id)
    requires s.ops[id].dispatched <==> ForStarted(reply)
    ensures Inv(Respond(s, id, reply), hand - {id})
  {
    RespondFates(s, id, reply);
    RespondHonest(s, id, reply);
    hide Fates, Honest, Counted, StartsOk, Ordered;
  }

  /** Deleting ledger entries or in-hand deadlines never hurts. */
  lemma ForgetKeeps(s: Sched, t: Sched, hand: set<OpId>)
    requires Inv(s, hand)
    requires t == s.(ledger := t.ledger, deadlines := t.deadlines)
    requires forall key :: key in t.ledger ==> key in s.ledger && t.ledger[key] == s.ledger[key]
    requires t.deadlines <= s.deadlines && s.deadlines - t.deadlines <= hand
    ensures Inv(t, hand)
  {
    hide Fates, Honest, Counted, StartsOk, RelayShape, SlotsShape;
  }

  /** Settling an in-hand operation as expired or stale: out of the heap, key dropped, answered. */
  lemma SettleKeeps(s: Sched, hand: set<OpId>, id: OpId, reply: Reply)
    requires Inv(s, hand) && id in hand && id in s.ops
    requires s.ops[id].dispatched <==> ForStarted(reply)
    ensures Inv(Respond(DropKey(s.(deadlines := s.deadlines - {id}), s.ops[id].key), id, reply), hand - {id})
  {
    var t := DropKey(s.(deadlines := s.deadlines - {id}), s.ops[id].key);
    assert Unreferenced(t, id);
    hide LedgerOk, Unreferenced;
    ForgetKeeps(s, t, hand);
    hide Inv, Respond;
    RespondKeeps(t, hand, id, reply);
  }

  lemma StaleKeeps(s: Sched, hand: set<OpId>, id: OpId)
    requires Inv(s, hand) && id in hand
    ensures Inv(Stale(s, id), hand - {id})
  {
    SettleKeeps(s, hand, id, StaleReply(s, id));
  }

  lemma ExpireKeeps(s: Sched, hand: set<OpId>, id: OpId)
    requires Inv(s, hand) && id in hand && !OpOf(s, id).dispatched
    ensures Inv(Expire(s, id), hand - {id})
  {
    SettleKeeps(s, hand, id, NotStarted);
  }

  lemma {:induction false} StaleAllKeeps(s: Sched, hand: set<OpId>, ids: seq<OpId>)
    requires Inv(s, hand)
    requires forall i :: 0 <= i < |ids| ==> ids[i] in hand
    requires forall i, j :: 0 <= i < j < |ids| ==> ids[i] != ids[j]
    ensures Inv(StaleAll(s, ids), hand - (set id | id in ids))
    decreases |ids|
  {
    hide Inv, Stale;
    if ids == [] {
      assert hand - (set id | id in ids) == hand;
    } else {
      StaleKeeps(s, hand, ids[0]);
      StaleAllKeeps(Stale(s, ids[0]), hand - {ids[0]}, ids[1..]);
      assert ids == [ids[0]] + ids[1..];
      assert hand - {ids[0]} - (set id | id in ids[1..]) == hand - (set id | id in ids);
    }
  }

  lemma HandIsKnown(s: Sched, hand: set<OpId>, id: OpId)
    requires Inv(s, hand) && s.stopping && id in hand
    ensures id in s.ops && Unreferenced(s, id)
  {
    hide RelayShape, SlotsShape, AllLocated, Fates, LedgerOk, Counted, Timed, Honest, StartsOk;
  }

  lemma RespondFrame(s: Sched, id: OpId, reply: Reply)
    ensures Respond(s, id, reply).ops == s.ops && Respond(s, id, reply).stopping == s.stopping
  {
  }

  lemma {:induction false} CloseAllKeeps(s: Sched, hand: set<OpId>, ids: seq<OpId>)
    requires Inv(s, hand) && s.stopping
    requires forall i :: 0 <= i < |ids| ==> ids[i] in hand && !OpOf(s, ids[i]).dispatched
    requires forall i, j :: 0 <= i < j < |ids| ==> ids[i] != ids[j]
    ensures Inv(CloseAll(s, ids), hand - (set id | id in ids))
    decreases |ids|
  {
    hide Inv, Respond, Unreferenced;
    if ids == [] {
      assert hand - (set id | id in ids) == hand;
    } else {
      HandIsKnown(s, hand, ids[0]);
      RespondKeeps(s, hand, ids[0], Closed);
      RespondFrame(s, ids[0], Closed);
      CloseAllKeeps(Respond(s, ids[0], Closed), hand - {ids[0]}, ids[1..]);
      assert ids == [ids[0]] + ids[1..];
      assert hand - {ids[0]} - (set id | id in ids[1..]) == hand - (set id | id in ids);
    }
  }

  /** What settling operations leaves alone. */
  ghost predicate OnlySettled(s: Sched, t: Sched) {
    && t == s.(ledger := t.ledger, deadlines := t.deadlines, live := t.live, fate := t.fate, log := t.log)
    && t.live <= s.live
    && (forall key :: key in t.ledger ==> key in s.ledger && t.ledger[key] == s.ledger[key])
  }

  lemma {:induction false} StaleAllFrame(s: Sched, ids: seq<OpId>)
    ensures OnlySettled(s, StaleAll(s, ids))
    decreases |ids|
  {
    if ids != [] {
      StaleAllFrame(Stale(s, ids[0]), ids[1..]);
    }
  }

  lemma {:induction false} CloseAllFrame(s: Sched, ids: seq<OpId>)
    ensures OnlySettled(s, CloseAll(s, ids)) && CloseAll(s, ids).ledger == s.ledger
    decreases |ids|
  {
    if ids != [] {
      CloseAllFrame(Respond(s, ids[0], Closed), ids[1..]);
    }
  }

  // ---------------------------------------------------------------- leaving a queue

  lemma PopRelayKeeps(s: Sched, hand: set<OpId>)
    requires Inv(s, hand) && s.relayQueue != []
    ensures Inv(s.(relayQueue := s.relayQueue[1..]), hand + {s.relayQueue[0]})
  {
    var id := s.relayQueue[0];
    var t := s.(relayQueue := s.relayQueue[1..]);
    assert s.relayQueue == [id] + t.relayQueue;
    hide Fates, Honest, Counted, StartsOk, LedgerOk;
  }

  lemma BusyFrame(slots: map<PaneId, Slot>, p: PaneId, slot: Slot)
    requires p in slots
    requires slot.inFlight.Some? <==> slots[p].inFlight.Some?
    ensures Busy(slots[p := slot]) == Busy(slots)
  {
  }

  lemma PopPaneKeeps(s: Sched, hand: set<OpId>, p: PaneId)
    requires Inv(s, hand) && Runnable(s, p)
    ensures Inv(PopPane(s, p), hand + {s.slots[p].queue[0]})
  {
    var slot := s.slots[p];
    var id := slot.queue[0];
    var t := PopPane(s, p);
    BusyFrame(s.slots, p, t.slots[p]);
    assert slot.queue == [id] + t.slots[p].queue;
    hide Fates, Honest, StartsOk, LedgerOk, Busy;
    assert SlotShape(s.ops, s.live, hand, p, slot);
    assert SlotShape(t.ops, t.live, hand + {id}, p, t.slots[p]);
  }

  /** Emptying a slot's queue puts what waited there in the loop's hands. */
  lemma EmptySlotKeeps(s: Sched, hand: set<OpId>, p: PaneId, generation: nat)
    requires Inv(s, hand) && p in s.slots && generation >= s.slots[p].generation
    ensures Inv(s.(slots := s.slots[p := s.slots[p].(generation := generation, queue := [])]),
                hand + (set id | id in s.slots[p].queue))
  {
    var slot := s.slots[p];
    var t := s.(slots := s.slots[p := slot.(generation := generation, queue := [])]);
    var more := hand + (set id | id in slot.queue);
    BusyFrame(s.slots, p, t.slots[p]);
    assert SlotShape(s.ops, s.live, hand, p, slot);
    hide Fates, Honest, StartsOk, LedgerOk, Busy, Ordered;
    assert RelayShape(t.ops, t.live, more, t.relayQueue, t.relayInFlight) by { hide SlotsShape, Timed, AllLocated; }
    forall q | q in t.slots
      ensures SlotShape(t.ops, t.live, more, q, t.slots[q])
    {
      assert SlotShape(s.ops, s.live, hand, q, s.slots[q]);
      hide SlotsShape, Timed, AllLocated, RelayShape;
    }
    assert SlotsShape(t.ops, t.live, more, t.slots);
    hide RelayShape, SlotsShape;
  }

  lemma EmptyRelayKeeps(s: Sched, hand: set<OpId>)
    requires Inv(s, hand)
    ensures Inv(s.(relayQueue := []), hand + (set id | id in s.relayQueue))
  {
    hide Fates, Honest, StartsOk, LedgerOk, Counted;
  }

  // ---------------------------------------------------------------- starting

  /** Marking an in-hand operation as dispatched, for the parts that do not speak of places. */
  lemma StartFrame(s: Sched, id: OpId)
    requires id in s.ops && id in s.live && !s.ops[id].dispatched
    requires Fates(s.ops, s.live, s.fate, s.log) && LedgerOk(s.ops, s.live, s.stopping, s.ledger)
    requires Honest(s.ops, s.live, s.log)
    ensures var ops := s.ops[id := s.ops[id].(dispatched := true)];
      Fates(ops, s.live, s.fate, s.log) && LedgerOk(ops, s.live, s.stopping, s.ledger) && Honest(ops, s.live, s.log)
  {
  }

  lemma SlotReplaced(
    ops: map<OpId, Op>, live: set<OpId>, hand: set<OpId>, slots: map<PaneId, Slot>, p: PaneId, slot: Slot)
    requires SlotsShape(ops, live, hand, slots) && SlotShape(ops, live, hand, p, slot)
    ensures SlotsShape(ops, live, hand, slots[p := slot])
  {
    hide SlotShape;
  }

  lemma StartsGrow(s: Sched, start: Start)
    requires start.op in s.ops && !s.ops[start.op].dispatched && StartsOk(s.ops, s.starts)
    requires !s.ops[start.op].relay ==>
      start.pane == s.ops[start.op].pane && start.token == start.slotGeneration == s.ops[start.op].admitted
    ensures StartsOk(s.ops[start.op := s.ops[start.op].(dispatched := true)], s.starts + [start])
  {
    var longer := s.starts + [start];
    assert longer[|s.starts|] == start;
    forall id | WasStarted(s.starts, id)
      ensures WasStarted(longer, id)
    {
      var i :| 0 <= i < |s.starts| && s.starts[i].op == id;
      assert longer[i].op == id;
    }
  }

  /** What is queued or running does not notice a change to an operation in hand. */
  lemma PlacesFrame(s: Sched, hand: set<OpId>, id: OpId, op: Op)
    requires id in hand
    requires RelayShape(s.ops, s.live, hand, s.relayQueue, s.relayInFlight)
    requires SlotsShape(s.ops, s.live, hand, s.slots)
    ensures RelayShape(s.ops[id := op], s.live, hand - {id}, s.relayQueue, s.relayInFlight)
    ensures SlotsShape(s.ops[id := op], s.live, hand - {id}, s.slots)
  {
    forall p | p in s.slots
      ensures SlotShape(s.ops[id := op], s.live, hand - {id}, p, s.slots[p])
    {
      assert SlotShape(s.ops, s.live, hand, p, s.slots[p]);
    }
  }

  lemma StartRelayPlaces(s: Sched, hand: set<OpId>, id: OpId)
    requires id in hand && hand <= s.live && s.live <= s.ops.Keys
    requires !s.ops[id].dispatched && s.ops[id].relay
    requires SlotsShape(s.ops, s.live, hand, s.slots) && AllLocated(s, hand)
    requires RelayShape(s.ops, s.live, hand, s.relayQueue, s.relayInFlight)
    ensures var t := StartRelay(s, id);
      && SlotsShape(t.ops, t.live, hand - {id}, t.slots) && AllLocated(t, hand - {id})
      && RelayShape(t.ops, t.live, hand - {id}, t.relayQueue, t.relayInFlight)
  {
    var t := StartRelay(s, id);
    PlacesFrame(s, hand, id, t.ops[id]);
    hide Ordered, SlotsShape;
    assert RelayShape(t.ops, t.live, hand - {id}, t.relayQueue, t.relayInFlight) by { hide AllLocated; }
    hide RelayShape;
  }

  lemma StartRelayKeeps(s: Sched, hand: set<OpId>, id: OpId)
    requires Inv(s, hand) && id in hand && !OpOf(s, id).dispatched && OpOf(s, id).relay && s.inUse < s.capacity
    ensures Inv(StartRelay(s, id), hand - {id})
  {
    var t := StartRelay(s, id);
    assert id !in s.relayInFlight;
    StartFrame(s, id);
    StartsGrow(s, t.starts[|s.starts|]);
    hide SlotsShape, AllLocated;
    StartRelayPlaces(s, hand, id);
    hide Fates, Honest, LedgerOk, Busy, RelayShape, StartsOk;
  }

  lemma BusyGrows(slots: map<PaneId, Slot>, p: PaneId, slot: Slot)
    requires p in slots && slots[p].inFlight.None? && slot.inFlight.Some?
    ensures |Busy(slots[p := slot])| == |Busy(slots)| + 1
  {
    assert Busy(slots[p := slot]) == Busy(slots) + {p};
  }

  lemma StartPanePlaces(s: Sched, hand: set<OpId>, p: PaneId, id: OpId)
    requires id in hand && hand <= s.live && s.live <= s.ops.Keys && p in s.slots && s.slots[p].inFlight.None?
    requires !s.ops[id].dispatched && StampedFor(s.ops[id], p, s.slots[p].generation)
    requires s.ops[id].generation == s.slots[p].generation
    requires SlotsShape(s.ops, s.live, hand, s.slots) && AllLocated(s, hand)
    requires RelayShape(s.ops, s.live, hand, s.relayQueue, s.relayInFlight)
    ensures var t := StartPane(s, p, id);
      && SlotsShape(t.ops, t.live, hand - {id}, t.slots) && AllLocated(t, hand - {id})
      && RelayShape(t.ops, t.live, hand - {id}, t.relayQueue, t.relayInFlight)
  {
    var t := StartPane(s, p, id);
    PlacesFrame(s, hand, id, t.ops[id]);
    hide Ordered, RelayShape;
    assert SlotShape(t.ops, t.live, hand - {id}, p, t.slots[p]) by {
      assert SlotShape(t.ops, t.live, hand - {id}, p, s.slots[p]);
      hide SlotsShape, AllLocated;
    }
    SlotReplaced(t.ops, t.live, hand - {id}, s.slots, p, t.slots[p]);
    hide SlotsShape, SlotShape;
  }

  lemma StartPaneKeeps(s: Sched, hand: set<OpId>, p: PaneId, id: OpId)
    requires Inv(s, hand) && id in hand && p in s.slots && s.slots[p].inFlight.None? && s.inUse < s.capacity
    requires var op := OpOf(s, id);
      !op.dispatched && StampedFor(op, p, s.slots[p].generation) && op.generation == s.slots[p].generation
    ensures Inv(StartPane(s, p, id), hand - {id})
  {
    var t := StartPane(s, p, id);
    StartFrame(s, id);
    StartsGrow(s, t.starts[|s.starts|]);
    BusyGrows(s.slots, p, t.slots[p]);
    hide SlotsShape, AllLocated;
    StartPanePlaces(s, hand, p, id);
    hide Fates, Honest, LedgerOk, Busy, RelayShape, StartsOk;
  }

  // ---------------------------------------------------------------- dispatch

  lemma RelayStepKeeps(s: Sched, now: int)
    requires Inv(s, {}) && s.relayQueue != [] && s.inUse < s.capacity
    ensures Inv(RelayStep(s, now), {})
  {
    var id := s.relayQueue[0];
    assert id in s.ops && !s.ops[id].dispatched && s.ops[id].relay;
    PopRelayKeeps(s, {});
    var popped := s.(relayQueue := s.relayQueue[1..]);
    hide Inv;
    assert {} + {id} == {id};
    assert {id} - {id} == {};
    if now >= s.ops[id].deadline {
      ExpireKeeps(popped, {id}, id);
    } else {
      StartRelayKeeps(popped, {id}, id);
    }
  }

  lemma {:induction false} DispatchRelayKeeps(s: Sched, now: int)
    requires Inv(s, {})
    ensures Inv(DispatchRelay(s, now), {})
    decreases |s.relayQueue|
  {
    hide Inv;
    if s.relayQueue != [] && s.inUse < s.capacity && !s.stopping {
      RelayStepKeeps(s, now);
      DispatchRelayKeeps(RelayStep(s, now), now);
    }
  }

  lemma VisitPaneKeeps(s: Sched, p: PaneId, now: int)
    requires Inv(s, {})
    ensures Inv(VisitPane(s, p, now), {})
  {
    if s.inUse < s.capacity && Runnable(s, p) {
      var id := s.slots[p].queue[0];
      assert SlotShape(s.ops, s.live, {}, p, s.slots[p]);
      assert id in s.ops && !s.ops[id].dispatched;
      PopPaneKeeps(s, {}, p);
      hide Inv;
      var popped := PopPane(s, p);
      assert {} + {id} == {id};
      assert {id} - {id} == {};
      if s.ops[id].generation != s.slots[p].generation {
        StaleKeeps(popped, {id}, id);
      } else if now >= s.ops[id].deadline {
        ExpireKeeps(popped, {id}, id);
      } else {
        StartPaneKeeps(popped, {id}, p, id);
      }
    }
  }

  lemma {:induction false} PaneRoundKeeps(s: Sched, panes: seq<PaneId>, now: int)
    requires Inv(s, {})
    ensures Inv(PaneRound(s, panes, now), {})
    decreases |panes|
  {
    hide Inv;
    if panes != [] {
      VisitPaneKeeps(s, panes[0], now);
      PaneRoundKeeps(VisitPane(s, panes[0], now), panes[1..], now);
    }
  }

  lemma {:induction false} PaneRoundsKeeps(s: Sched, panes: seq<PaneId>, now: int)
    requires Inv(s, {})
    ensures Inv(PaneRounds(s, panes, now), {})
    decreases Backlog(s, panes)
  {
    hide Inv;
    if s.inUse < s.capacity && !s.stopping {
      var after := PaneRound(s, panes, now);
      PaneRoundKeeps(s, panes, now);
      if Backlog(after, panes) < Backlog(s, panes) {
        PaneRoundsKeeps(after, panes, now);
      }
    }
  }

  lemma DispatchKeeps(s: Sched, now: int)
    requires Inv(s, {})
    ensures Inv(Dispatch(s, now), {})
  {
    hide Inv;
    DispatchRelayKeeps(s, now);
    PaneRoundsKeeps(DispatchRelay(s, now), SortedPanes(s.slots.Keys), now);
  }
}
