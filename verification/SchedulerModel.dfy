/** The command scheduler's event loop as a state machine over values.

    `Sched` holds what `Scheduler.run` keeps in local variables, and four history fields that the
    loop does not keep but that its promises are about: which operations are still unanswered
    (`live`), what became of every waiter taken from ingress (`fate`), every answer sent (`log`),
    and every effect started with its token (`starts`).

    Operations are heap objects in the source, told apart by a unique operation id; here `ops` maps
    that id to the object's current fields. Lookups are total (`OpOf`, `SlotOf`), so the step
    functions need no preconditions; the invariant is what says the defaults are never used. */
module SchedulerModel {
  import opened Options

  type OpId = nat
  type PaneId = nat    // a string in the source, used only for equality and for the visiting order
  type Waiter = nat    // one response channel
  type Key = string    // ledger key; "" means the command carries none

  const LEDGER_RETENTION: int := 24 * 3600 * 1000
  const MAX_LEDGER_ENTRIES: nat := 256

  datatype Result = Result(phase: string, body: int)

  /** What one answer says. `Completed` carries the effect's own result; the others are the
      scheduler's own words. */
  datatype Reply =
    | Completed(result: Option<Result>)
    | NotStarted
    | PaneReplaced
    | DispatchedUnknown
    | Closed
    | Conflict
    | Replayed(earlier: Result)

  /** One `scheduleWaiter`. */
  datatype Attached = Attached(waiter: Waiter, replayed: bool)

  /** One message sent on a waiter's response channel on behalf of operation `op`. */
  datatype Answer = Answer(waiter: Waiter, op: OpId, reply: Reply, replayed: bool)

  /** One `scheduledOperation`. `admitted` is the pane generation the caller named. */
  datatype Op = Op(
    relay: bool, pane: PaneId, admitted: nat, key: Key, hash: string,
    deadline: int, receivedAt: int, sequence: nat,
    generation: nat, waiters: seq<Attached>, dispatched: bool)

  datatype InFlight = InFlight(op: OpId, generation: nat)

  datatype Slot = Slot(generation: nat, queue: seq<OpId>, inFlight: Option<InFlight>)

  datatype Entry = Entry(
    hash: string, operation: Option<OpId>, result: Option<Result>,
    generation: nat, pane: PaneId, createdAt: int)

  /** The worker token an effect was started with, and its slot's generation at that moment. */
  datatype Start = Start(op: OpId, pane: PaneId, token: nat, slotGeneration: nat)

  /** A waiter is either still attached to an unanswered operation or was told by one answer of it. */
  datatype Fate = Waiting(op: OpId, position: nat) | Told(op: OpId, index: nat)

  datatype Sched = Sched(
    capacity: nat,
    ops: map<OpId, Op>,
    slots: map<PaneId, Slot>,
    relayQueue: seq<OpId>,
    relayInFlight: set<OpId>,
    ledger: map<Key, Entry>,
    knownActive: set<PaneId>,
    deadlines: set<OpId>,
    inUse: int,
    stopping: bool,
    acked: bool,
    live: set<OpId>,
    fate: map<Waiter, Fate>,
    log: seq<Answer>,
    starts: seq<Start>)

  const NoOp: Op := Op(false, 0, 0, "", "", 0, 0, 0, 0, [], false)
  const NewSlot: Slot := Slot(0, [], None)

  function OpIn(ops: map<OpId, Op>, id: OpId): Op {
    if id in ops then ops[id] else NoOp
  }

  function OpOf(s: Sched, id: OpId): Op {
    OpIn(s.ops, id)
  }

  function SlotOf(s: Sched, p: PaneId): Slot {
    if p in s.slots then s.slots[p] else NewSlot
  }

  function Initial(capacity: nat): Sched {
    Sched(capacity, map[], map[], [], {}, map[], {}, {}, 0, false, false, {}, map[], [], [])
  }

  // ---------------------------------------------------------------- answering

  function Answers(id: OpId, waiters: seq<Attached>, reply: Reply): (r: seq<Answer>)
    ensures |r| == |waiters|
  {
    seq(|waiters|, i requires 0 <= i < |waiters| =>
      Answer(waiters[i].waiter, id, reply, reply.Replayed? || waiters[i].replayed))
  }

  /** `replyWithReplay`: every waiter of the operation hears `reply`. */
  function Respond(s: Sched, id: OpId, reply: Reply): Sched {
    s.(log := s.log + Answers(id, OpOf(s, id).waiters, reply),
       live := s.live - {id},
       fate := map w | w in s.fate ::
         if s.fate[w].Waiting? && s.fate[w].op == id then Told(id, |s.log| + s.fate[w].position) else s.fate[w])
  }

  function DropKey(s: Sched, key: Key): Sched {
    s.(ledger := s.ledger - {key})
  }

  /** `expire` after the caller took the operation out of the deadline heap. */
  function Expire(s: Sched, id: OpId): Sched {
    Respond(DropKey(s.(deadlines := s.deadlines - {id}), OpOf(s, id).key), id, NotStarted)
  }

  function StaleReply(s: Sched, id: OpId): Reply {
    if OpOf(s, id).dispatched then DispatchedUnknown else PaneReplaced
  }

  /** `replyStale` after the caller took the operation out of the deadline heap. */
  function Stale(s: Sched, id: OpId): Sched {
    Respond(DropKey(s.(deadlines := s.deadlines - {id}), OpOf(s, id).key), id, StaleReply(s, id))
  }

  function StaleAll(s: Sched, ids: seq<OpId>): Sched
    decreases |ids|
  {
    if ids == [] then s else StaleAll(Stale(s, ids[0]), ids[1..])
  }

  function CloseAll(s: Sched, ids: seq<OpId>): Sched
    decreases |ids|
  {
    if ids == [] then s else CloseAll(Respond(s, ids[0], Closed), ids[1..])
  }

  // ---------------------------------------------------------------- dispatch

  function StartRelay(s: Sched, id: OpId): Sched {
    s.(inUse := s.inUse + 1,
       relayInFlight := s.relayInFlight + {id},
       ops := s.ops[id := OpOf(s, id).(dispatched := true)],
       starts := s.starts + [Start(id, OpOf(s, id).pane, 0, 0)])
  }

  function StartPane(s: Sched, p: PaneId, id: OpId): Sched {
    var slot := SlotOf(s, p);
    s.(inUse := s.inUse + 1,
       slots := s.slots[p := slot.(inFlight := Some(InFlight(id, slot.generation)))],
       ops := s.ops[id := OpOf(s, id).(dispatched := true)],
       starts := s.starts + [Start(id, OpOf(s, id).pane, slot.generation, slot.generation)])
  }

  function RelayStep(s: Sched, now: int): Sched
    requires s.relayQueue != []
  {
    var id := s.relayQueue[0];
    var popped := s.(relayQueue := s.relayQueue[1..]);
    if now >= OpOf(s, id).deadline then Expire(popped, id) else StartRelay(popped, id)
  }

  function DispatchRelay(s: Sched, now: int): Sched
    decreases |s.relayQueue|
  {
    if s.relayQueue == [] || s.inUse >= s.capacity || s.stopping then s
    else DispatchRelay(RelayStep(s, now), now)
  }

  predicate Runnable(s: Sched, p: PaneId) {
    p in s.slots && s.slots[p].inFlight.None? && s.slots[p].queue != []
  }

  function PopPane(s: Sched, p: PaneId): Sched
    requires Runnable(s, p)
  {
    s.(slots := s.slots[p := s.slots[p].(queue := s.slots[p].queue[1..])])
  }

  /** One pane of one round: at most one operation leaves its queue. */
  function VisitPane(s: Sched, p: PaneId, now: int): Sched {
    if s.inUse >= s.capacity || !Runnable(s, p) then s else
      var id := s.slots[p].queue[0];
      var popped := PopPane(s, p);
      if OpOf(s, id).generation != s.slots[p].generation then Stale(popped, id)
      else if now >= OpOf(s, id).deadline then Expire(popped, id)
      else StartPane(popped, p, id)
  }

  function PaneRound(s: Sched, panes: seq<PaneId>, now: int): Sched
    decreases |panes|
  {
    if panes == [] then s else PaneRound(VisitPane(s, panes[0], now), panes[1..], now)
  }

  /** How many operations wait on the listed panes; a round makes progress by lowering it. */
  function Backlog(s: Sched, panes: seq<PaneId>): nat
    decreases |panes|
  {
    if panes == [] then 0 else |SlotOf(s, panes[0]).queue| + Backlog(s, panes[1..])
  }

  function PaneRounds(s: Sched, panes: seq<PaneId>, now: int): Sched
    decreases Backlog(s, panes)
  {
    if s.inUse >= s.capacity || s.stopping then s else
      var after := PaneRound(s, panes, now);
      if Backlog(after, panes) < Backlog(s, panes) then PaneRounds(after, panes, now) else after
  }

  /** Pane names are numbers here, so a set of them has a least one. */
  lemma LeastBelow(panes: set<PaneId>, p: PaneId)
    requires p in panes
    ensures exists m :: m in panes && forall q :: q in panes ==> m <= q
    decreases p
  {
    if q :| q in panes && q < p {
      LeastBelow(panes, q);
    }
  }

  lemma LeastPane(panes: set<PaneId>)
    requires panes != {}
    ensures exists p :: p in panes && forall q :: q in panes ==> p <= q
  {
    var p :| p in panes;
    LeastBelow(panes, p);
  }

  /** `sort.Strings` over the keys of the slot map. */
  function SortedPanes(panes: set<PaneId>): seq<PaneId> {
    if panes == {} then [] else
      LeastPane(panes);
      var p :| p in panes && forall q :: q in panes ==> p <= q;
      [p] + SortedPanes(panes - {p})
  }

  lemma {:induction false} SortedPanesListAll(panes: set<PaneId>, p: PaneId)
    ensures p in SortedPanes(panes) <==> p in panes
  {
    if panes != {} {
      var order := SortedPanes(panes);
      assert order[0] in panes && order[1..] == SortedPanes(panes - {order[0]});
      SortedPanesListAll(panes - {order[0]}, p);
      assert order == [order[0]] + order[1..];
    }
  }

  lemma {:induction false} SortedPanesAscend(panes: set<PaneId>, i: nat, j: nat)
    requires i < j < |SortedPanes(panes)|
    ensures SortedPanes(panes)[i] < SortedPanes(panes)[j]
  {
    var order := SortedPanes(panes);
    var rest := panes - {order[0]};
    assert order[0] in panes && order[1..] == SortedPanes(rest);
    if i > 0 {
      SortedPanesAscend(rest, i - 1, j - 1);
    } else {
      SortedPanesListAll(rest, order[j]);
      assert order[j] == order[1..][j - 1];
    }
  }

  function Dispatch(s: Sched, now: int): Sched {
    PaneRounds(DispatchRelay(s, now), SortedPanes(s.slots.Keys), now)
  }

  // ---------------------------------------------------------------- events

  function WithoutOlder(ledger: map<Key, Entry>, p: PaneId, generation: nat, keep: Key): map<Key, Entry> {
    map k | k in ledger && (k == keep || ledger[k].pane != p || ledger[k].generation >= generation) :: ledger[k]
  }

  /** Raises a slot's generation: queued work is answered as stale and older ledger entries of the
      pane are forgotten, except the one under `keep`. */
  function Supersede(s: Sched, p: PaneId, generation: nat, keep: Key): Sched {
    var queue := SlotOf(s, p).queue;
    var emptied := s.(slots := s.slots[p := SlotOf(s, p).(generation := generation, queue := [])]);
    var answered := StaleAll(emptied, queue);
    answered.(ledger := WithoutOlder(answered.ledger, p, generation, keep))
  }

  function InsertBySequence(ops: map<OpId, Op>, queue: seq<OpId>, id: OpId): seq<OpId>
    decreases |queue|
  {
    if queue == [] || OpIn(ops, queue[0]).sequence > OpIn(ops, id).sequence then [id] + queue
    else [queue[0]] + InsertBySequence(ops, queue[1..], id)
  }

  /** First half of `pruneLedger`: finished entries past the retention time go. */
  function Aged(ledger: map<Key, Entry>, now: int): map<Key, Entry> {
    map k | k in ledger && !(ledger[k].operation.None? && now - ledger[k].createdAt >= LEDGER_RETENTION) :: ledger[k]
  }

  predicate OldestFinished(ledger: map<Key, Entry>, key: Key) {
    && key in ledger && ledger[key].operation.None?
    && forall k :: k in ledger && ledger[k].operation.None? ==> ledger[key].createdAt <= ledger[k].createdAt
  }

  /** Second half of `pruneLedger`: `victims` is a possible order in which the oldest finished
      entries are dropped (ties are broken by Go's map order, so several may be possible). */
  predicate PruneOrder(ledger: map<Key, Entry>, victims: seq<Key>)
    decreases |victims|
  {
    if victims == [] then |ledger| < MAX_LEDGER_ENTRIES || forall k :: k in ledger ==> ledger[k].operation.Some?
    else
      && |ledger| >= MAX_LEDGER_ENTRIES
      && OldestFinished(ledger, victims[0])
      && PruneOrder(ledger - {victims[0]}, victims[1..])
  }

  function Dropped(ledger: map<Key, Entry>, victims: seq<Key>): map<Key, Entry>
    decreases |victims|
  {
    if victims == [] then ledger else Dropped(ledger - {victims[0]}, victims[1..])
  }

  function Pruned(ledger: map<Key, Entry>, now: int, victims: seq<Key>): map<Key, Entry> {
    Dropped(Aged(ledger, now), victims)
  }

  /** A request taken from ingress: it is live and in the loop's hands, in no queue yet. */
  function Take(s: Sched, id: OpId, op: Op): Sched {
    s.(ops := s.ops[id := op],
       live := s.live + {id},
       fate := if |op.waiters| == 1 then s.fate[op.waiters[0].waiter := Waiting(id, 0)] else s.fate)
  }

  /** A duplicate of an operation still under way joins that operation's waiters. */
  function Attach(s: Sched, id: OpId, host: OpId): Sched {
    var mine := OpOf(s, id).waiters;
    var theirs := OpOf(s, host).waiters;
    var joined := seq(|mine|, i requires 0 <= i < |mine| => mine[i].(replayed := true));
    s.(ops := s.ops[host := OpOf(s, host).(waiters := theirs + joined)],
       live := s.live - {id},
       fate := map w | w in s.fate ::
         if s.fate[w].Waiting? && s.fate[w].op == id then Waiting(host, |theirs| + s.fate[w].position) else s.fate[w])
  }

  function NewEntry(op: Op): Entry {
    Entry(op.hash, None, None, 0, op.pane, op.receivedAt)
  }

  function EnqueueRelay(s: Sched, id: OpId): Sched {
    s.(relayQueue := InsertBySequence(s.ops, s.relayQueue, id))
  }

  /** The last lines of the pane branch: stamp the operation and insert it. */
  function StampAndInsert(s: Sched, id: OpId): Sched {
    var op := OpOf(s, id);
    var slot := SlotOf(s, op.pane);
    var stamped := s.(
      ops := s.ops[id := op.(generation := slot.generation)],
      ledger := if op.key in s.ledger
        then s.ledger[op.key := s.ledger[op.key].(generation := slot.generation)] else s.ledger);
    stamped.(slots := stamped.slots[op.pane := slot.(queue := InsertBySequence(stamped.ops, slot.queue, id))])
  }

  /** The pane branch of ingress after the ledger: raise the slot if needed, stamp, insert. */
  function EnqueuePane(s: Sched, id: OpId): Sched {
    var op := OpOf(s, id);
    var p := op.pane;
    var raised :=
      if op.admitted > SlotOf(s, p).generation then Supersede(s, p, op.admitted, op.key)
      else s.(slots := s.slots[p := SlotOf(s, p)]);
    StampAndInsert(raised, id)
  }

  /** Opens a ledger entry for the operation if it carries a key, and sets its deadline. */
  function Record(s: Sched, id: OpId): Sched {
    var op := OpOf(s, id);
    s.(ledger := if op.key == "" then s.ledger else s.ledger[op.key := NewEntry(op).(operation := Some(id))],
       deadlines := s.deadlines + {id})
  }

  function Enqueue(s: Sched, id: OpId): Sched {
    if OpOf(s, id).relay then EnqueueRelay(Record(s, id), id) else EnqueuePane(Record(s, id), id)
  }

  /** The ingress case once the request is taken and the ledger pruned. */
  function Decided(t: Sched, id: OpId, op: Op, now: int, later: int): Sched {
    if t.stopping then Respond(t, id, Closed)
    else if now >= op.deadline then Respond(t, id, NotStarted)
    else if !op.relay && op.pane in t.slots && op.admitted < t.slots[op.pane].generation then Stale(t, id)
    else if op.key != "" && op.key in t.ledger then
      var existing := t.ledger[op.key];
      if existing.hash != op.hash then Respond(t, id, Conflict)
      else if existing.result.Some? then Respond(t, id, Replayed(existing.result.value))
      else if existing.operation.Some? then Attach(t, id, existing.operation.value)
      else t
    else Dispatch(Enqueue(t, id), later)
  }

  /** One request from the ingress channel. `op` is fresh: one waiter, never dispatched. The clock is
      read three times: for the pruning, for the deadline and by the dispatch. */
  function Ingress(s: Sched, id: OpId, op: Op, victims: seq<Key>, early: int, now: int, later: int): Sched {
    Decided(Take(s, id, op).(ledger := Pruned(s.ledger, early, victims)), id, op, now, later)
  }

  /** The ledger after the operation under `key` ended with `result`. */
  function SettledLedger(ledger: map<Key, Entry>, key: Key, result: Option<Result>): map<Key, Entry> {
    if key == "" || key !in ledger then ledger
    else if result.None? || result.value.phase == "not_started" then ledger - {key}
    else ledger[key := ledger[key].(result := result, operation := None)]
  }

  /** The common end of a completion that is not stale. */
  function Finish(s: Sched, id: OpId, result: Option<Result>): Sched {
    Respond(
      s.(inUse := s.inUse - 1, deadlines := s.deadlines - {id},
         ledger := SettledLedger(s.ledger, OpOf(s, id).key, result)),
      id, Completed(result))
  }

  /** `completeAndRedispatch` up to its `dispatch`. `current` is the generation validator's verdict. */
  function CompleteRelay(s: Sched, id: OpId, result: Option<Result>): Sched {
    Finish(s.(relayInFlight := s.relayInFlight - {id}), id, result)
  }

  predicate RunsOn(slots: map<PaneId, Slot>, p: PaneId, id: OpId) {
    p in slots && slots[p].inFlight.Some? && slots[p].inFlight.value.op == id
  }

  predicate Superseded(s: Sched, p: PaneId, current: bool)
    requires p in s.slots && s.slots[p].inFlight.Some?
  {
    s.slots[p].inFlight.value.generation != s.slots[p].generation || !current
  }

  predicate ClosedPane(result: Option<Result>) {
    result.Some? && result.value.phase == "closed"
  }

  /** The pane's slot and ledger once its effect has ended. */
  function Unplug(s: Sched, id: OpId, result: Option<Result>, bump: bool, current: bool): Sched
    requires RunsOn(s.slots, OpOf(s, id).pane, id)
  {
    var op := OpOf(s, id);
    var p := op.pane;
    var bumps := bump && !Superseded(s, p, current);
    var generation := if bumps then s.slots[p].generation + 1 else s.slots[p].generation;
    var slot := s.slots[p].(generation := generation, inFlight := None);
    var gone := slot.queue == [] && bumps && ClosedPane(result);
    s.(slots := if gone then s.slots - {p} else s.slots[p := slot],
       ledger := if bumps then WithoutOlder(s.ledger, p, generation, op.key) else s.ledger)
  }

  function CompletePane(s: Sched, id: OpId, result: Option<Result>, bump: bool, current: bool): Sched
    requires RunsOn(s.slots, OpOf(s, id).pane, id)
  {
    var t := Unplug(s, id, result, bump, current);
    if Superseded(s, OpOf(s, id).pane, current) then Stale(t.(inUse := t.inUse - 1), id) else Finish(t, id, result)
  }

  function Complete(s: Sched, id: OpId, result: Option<Result>, bump: bool, current: bool, now: int): Sched {
    if OpOf(s, id).relay then
      if id in s.relayInFlight then Dispatch(CompleteRelay(s, id, result), now) else s
    else if RunsOn(s.slots, OpOf(s, id).pane, id) then Dispatch(CompletePane(s, id, result, bump, current), now)
    else s
  }

  /** Panes that were active and no longer are; `gone` is any order of them. */
  function RetireGone(s: Sched, gone: seq<PaneId>): Sched
    decreases |gone|
  {
    if gone == [] then s
    else
      var p := gone[0];
      RetireGone(if p in s.slots then Supersede(s, p, s.slots[p].generation + 1, "") else s, gone[1..])
  }

  function RaiseOne(s: Sched, p: PaneId, generation: nat): Sched {
    if generation <= SlotOf(s, p).generation then s.(slots := s.slots[p := SlotOf(s, p)])
    else Supersede(s, p, generation, "")
  }

  function RaiseAll(s: Sched, raised: seq<(PaneId, nat)>): Sched
    decreases |raised|
  {
    if raised == [] then s else RaiseAll(RaiseOne(s, raised[0].0, raised[0].1), raised[1..])
  }

  function Topology(s: Sched, active: set<PaneId>, gone: seq<PaneId>, raised: seq<(PaneId, nat)>, now: int): Sched {
    Dispatch(RaiseAll(RetireGone(s, gone), raised).(knownActive := active), now)
  }

  function UpdateLedger(s: Sched, key: Key, generation: nat, result: Option<Result>): (r: (Sched, bool)) {
    if key in s.ledger && s.ledger[key].generation == generation && s.ledger[key].result.Some? && result.Some?
    then (s.(ledger := s.ledger[key := s.ledger[key].(result := result)]), true)
    else (s, false)
  }

  function RemoveOp(queue: seq<OpId>, id: OpId): seq<OpId>
    decreases |queue|
  {
    if queue == [] then [] else if queue[0] == id then queue[1..] else [queue[0]] + RemoveOp(queue[1..], id)
  }

  predicate Queued(s: Sched, id: OpId) {
    if OpOf(s, id).relay then id in s.relayQueue
    else
      && OpOf(s, id).pane in s.slots
      && !RunsOn(s.slots, OpOf(s, id).pane, id)
      && id in s.slots[OpOf(s, id).pane].queue
  }

  /** `removeQueued` when the operation is queued. */
  function Unqueue(s: Sched, id: OpId): Sched {
    if OpOf(s, id).relay then s.(relayQueue := RemoveOp(s.relayQueue, id))
    else
      var p := OpOf(s, id).pane;
      s.(slots := s.slots[p := SlotOf(s, p).(queue := RemoveOp(SlotOf(s, p).queue, id))])
  }

  function TimerPop(s: Sched, id: OpId): Sched {
    var popped := s.(deadlines := s.deadlines - {id});
    if Queued(s, id) then Expire(Unqueue(popped, id), id) else popped
  }

  function TimerPops(s: Sched, due: seq<OpId>): Sched
    decreases |due|
  {
    if due == [] then s else TimerPops(TimerPop(s, due[0]), due[1..])
  }

  /** `due` lists the operations the heap yields while its top has passed its deadline. */
  ghost predicate DueOrder(s: Sched, due: seq<OpId>, now: int) {
    && (forall id :: id in due <==> id in s.deadlines && now >= OpOf(s, id).deadline)
    && (forall i, j :: 0 <= i < j < |due| ==> due[i] != due[j] && OpOf(s, due[i]).deadline <= OpOf(s, due[j]).deadline)
  }

  function Timer(s: Sched, due: seq<OpId>, now: int): Sched {
    Dispatch(TimerPops(s, due), now)
  }

  function CloseSlots(s: Sched, panes: seq<PaneId>): Sched
    decreases |panes|
  {
    if panes == [] then s
    else if panes[0] !in s.slots then CloseSlots(s, panes[1..])
    else
      var p := panes[0];
      var emptied := s.(slots := s.slots[p := s.slots[p].(queue := [])]);
      CloseSlots(CloseAll(emptied, s.slots[p].queue), panes[1..])
  }

  /** The first `cancelInflight` or `stop`: nothing queued will ever start. */
  function BeginStop(s: Sched, panes: seq<PaneId>): Sched {
    if s.stopping then s else
      var t := CloseSlots(s.(stopping := true), panes);
      CloseAll(t.(relayQueue := []), t.relayQueue)
  }

  datatype Event =
    | Request(id: OpId, op: Op, victims: seq<Key>, early: int, now: int, later: int)
    | Completion(id: OpId, result: Option<Result>, bump: bool, current: bool, now: int)
    | TopologyUpdate(active: set<PaneId>, gone: seq<PaneId>, raised: seq<(PaneId, nat)>, now: int)
    | LedgerUpdate(key: Key, generation: nat, result: Option<Result>)
    | TimerFires(due: seq<OpId>, now: int, later: int)
    | CancelInflight(panes: seq<PaneId>)
    | Stop(panes: seq<PaneId>)

  /** One order in which Go may range over a map with these keys. */
  ghost predicate Lists(order: seq<PaneId>, panes: set<PaneId>) {
    && (forall p :: p in order <==> p in panes)
    && (forall i, j :: 0 <= i < j < |order| ==> order[i] != order[j])
  }

  /** What the loop's environment guarantees: a request is a new operation with one new response
      channel, and iteration orders list what the source iterates over. Nothing is assumed about
      completions, topology snapshots, generations, keys or clock readings. */
  ghost predicate Admissible(s: Sched, e: Event) {
    match e
    case Request(id, op, victims, early, now, later) =>
      && id !in s.ops && !op.dispatched && |op.waiters| == 1 && op.waiters[0].waiter !in s.fate
      && PruneOrder(Aged(s.ledger, early), victims)
    case TopologyUpdate(active, gone, raised, now) => Lists(gone, s.knownActive - active)
    case TimerFires(due, now, later) => DueOrder(s, due, now)
    case CancelInflight(panes) => Lists(panes, s.slots.Keys)
    case Stop(panes) => Lists(panes, s.slots.Keys)
    case Completion(_, _, _, _, _) => true
    case LedgerUpdate(_, _, _) => true
  }

  function Step(s: Sched, e: Event): Sched {
    match e
    case Request(id, op, victims, early, now, later) => Ingress(s, id, op, victims, early, now, later)
    case Completion(id, result, bump, current, now) => Complete(s, id, result, bump, current, now)
    case TopologyUpdate(active, gone, raised, now) => Topology(s, active, gone, raised, now)
    case LedgerUpdate(key, generation, result) => UpdateLedger(s, key, generation, result).0
    case TimerFires(due, now, later) => Timer(s, due, later)
    case CancelInflight(panes) => BeginStop(s, panes)
    case Stop(panes) => BeginStop(s, panes).(acked := true)
  }

  predicate Exited(s: Sched) {
    s.stopping && s.inUse == 0 && s.acked
  }

  /** A run of the loop: every event admissible where it happens, none after the loop has exited. */
  ghost predicate Admitted(s: Sched, events: seq<Event>)
    decreases |events|
  {
    events == [] || (!Exited(s) && Admissible(s, events[0]) && Admitted(Step(s, events[0]), events[1..]))
  }

  function Run(s: Sched, events: seq<Event>): Sched
    decreases |events|
  {
    if events == [] then s else Run(Step(s, events[0]), events[1..])
  }
}
