/** The answers to requests and completions, read off the log, the ledger and the waiters' fates, and the
    history of every replayed or completed answer over whole runs. */
module SchedulerHistory {
  import opened Options
  import opened SchedulerModel
  import opened SchedulerInvariant
  import opened SchedulerEvents
  import opened SchedulerTheorems
  import opened SchedulerGenerations
  import opened SchedulerPromises
  import opened SchedulerAnswers

  // ---------------------------------------------------------------- hearing an answer

  ghost predicate Says(log: seq<Answer>, w: Waiter, id: OpId, reply: Reply) {
    exists i :: 0 <= i < |log| && log[i].waiter == w && log[i].op == id && log[i].reply == reply
  }

  ghost predicate SaysAll(log: seq<Answer>, id: OpId, waiters: seq<Attached>, reply: Reply) {
    forall k :: 0 <= k < |waiters| ==> Says(log, waiters[k].waiter, id, reply)
  }

  /** Each of the waiters has exactly one answer, and it is this one. */
  ghost predicate AllHeard(log: seq<Answer>, id: OpId, waiters: seq<Attached>, reply: Reply) {
    forall k :: 0 <= k < |waiters| ==> HeardOnly(log, waiters[k].waiter, id, reply)
  }

  lemma RespondSays(s: Sched, id: OpId, reply: Reply)
    ensures SaysAll(Respond(s, id, reply).log, id, OpOf(s, id).waiters, reply)
  {
    var t, waiters := Respond(s, id, reply), OpOf(s, id).waiters;
    forall k | 0 <= k < |waiters|
      ensures Says(t.log, waiters[k].waiter, id, reply)
    {
      assert t.log[|s.log| + k] == Answers(id, waiters, reply)[k];
    }
  }

  lemma SaysAllStays(log: seq<Answer>, longer: seq<Answer>, id: OpId, waiters: seq<Attached>, reply: Reply)
    requires SaysAll(log, id, waiters, reply) && log <= longer
    ensures SaysAll(longer, id, waiters, reply)
  {
    forall k | 0 <= k < |waiters|
      ensures Says(longer, waiters[k].waiter, id, reply)
    {
      var w := waiters[k].waiter;
      assert Says(log, w, id, reply);
      var j :| 0 <= j < |log| && log[j].waiter == w && log[j].op == id && log[j].reply == reply;
      assert longer[j] == log[j];
    }
  }

  /** What is said is heard, and nothing else. */
  lemma SaidIsHeard(t: Sched, id: OpId, waiters: seq<Attached>, reply: Reply)
    requires Inv(t, {}) && SaysAll(t.log, id, waiters, reply)
    ensures AllHeard(t.log, id, waiters, reply)
  {
    hide Inv, HeardOnly;
    forall k | 0 <= k < |waiters|
      ensures HeardOnly(t.log, waiters[k].waiter, id, reply)
    {
      assert Says(t.log, waiters[k].waiter, id, reply);
      var j :| 0 <= j < |t.log| && t.log[j].waiter == waiters[k].waiter && t.log[j].op == id && t.log[j].reply == reply;
      HeardOnce(t, j);
    }
  }

  lemma HeardIsSaid(log: seq<Answer>, id: OpId, waiters: seq<Attached>, reply: Reply)
    requires AllHeard(log, id, waiters, reply)
    ensures SaysAll(log, id, waiters, reply)
  {
    forall k | 0 <= k < |waiters|
      ensures Says(log, waiters[k].waiter, id, reply)
    {
      assert HeardOnly(log, waiters[k].waiter, id, reply);
    }
  }

  /** A message once given is the only one its channel ever gets. */
  lemma HeardStays(u: Sched, t: Sched, id: OpId, waiters: seq<Attached>, reply: Reply)
    requires AllHeard(u.log, id, waiters, reply) && u.log <= t.log && Inv(t, {})
    ensures AllHeard(t.log, id, waiters, reply)
  {
    hide Inv, AllHeard, SaysAll;
    HeardIsSaid(u.log, id, waiters, reply);
    SaysAllStays(u.log, t.log, id, waiters, reply);
    SaidIsHeard(t, id, waiters, reply);
  }

  // ---------------------------------------------------------------- a request

  /** A request for a pane session that is already over. */
  ghost predicate Outdated(s: Sched, op: Op) {
    !op.relay && op.pane in s.slots && op.admitted < s.slots[op.pane].generation
  }

  /** A request is turned away without a look at the ledger: the loop is stopping, its deadline has
      passed, or its pane session is over. */
  lemma TurnedAway(s: Sched, e: Event)
    requires Between(s) && e.Request? && Admissible(s, e)
    requires s.stopping || e.now >= e.op.deadline || Outdated(s, e.op)
    ensures var a := e.op.waiters[0];
      Step(s, e).log == s.log + [Answer(a.waiter, e.id,
        if s.stopping then Closed else if e.now >= e.op.deadline then NotStarted else PaneReplaced, a.replayed)]
  {
    hide Between, Pruned, PruneOrder;
  }

  lemma KnownKey(s: Sched, e: Event)
    requires Between(s) && e.Request? && !s.stopping && e.op.key in Pruned(s.ledger, e.early, e.victims)
    ensures e.op.key != "" && e.op.key in s.ledger
    ensures var entry := s.ledger[e.op.key];
      && Pruned(s.ledger, e.early, e.victims)[e.op.key] == entry
      && (entry.operation.Some? <==> entry.result.None?)
      && (entry.operation.Some? ==> entry.operation.value in s.live && entry.operation.value in s.ops)
  {
    PrunedIsPart(s.ledger, e.early, e.victims);
    assert EntryOk(s.ops, s.live, s.stopping, e.op.key, s.ledger[e.op.key]);
    hide Inv, Pruned, Drained, Unqueued;
  }

  lemma OneAnswer(s: Sched, id: OpId, op: Op, ledger: map<Key, Entry>, reply: Reply)
    requires Fresh(s, id, op)
    ensures var t := Respond(Take(s, id, op).(ledger := ledger), id, reply);
      && t.ledger == ledger
      && t.log == s.log + [Answer(op.waiters[0].waiter, id, reply, reply.Replayed? || op.waiters[0].replayed)]
  {
  }

  lemma JoinWaits(s: Sched, id: OpId, op: Op, ledger: map<Key, Entry>, host: OpId)
    requires Fresh(s, id, op) && host in s.ops && host in s.live
    ensures var t := Attach(Take(s, id, op).(ledger := ledger), id, host); var w := op.waiters[0].waiter;
      && t.ledger == ledger && t.log == s.log && host in t.ops && host in t.live
      && t.ops[host].waiters == s.ops[host].waiters + [Attached(w, true)]
      && w in t.fate && t.fate[w] == Waiting(host, |s.ops[host].waiters|)
  {
  }

  /** The answer to a request whose key has an entry. Another payload conflicts; the same payload hears
      the recorded result at once; without one it waits, as a repetition, at the operation under way. */
  lemma KnownKeyAnswer(s: Sched, e: Event)
    requires Between(s) && e.Request? && Admissible(s, e)
    requires !s.stopping && e.now < e.op.deadline && !Outdated(s, e.op)
    requires e.op.key in Pruned(s.ledger, e.early, e.victims)
    ensures e.op.key in s.ledger
    ensures var entry, a, t := s.ledger[e.op.key], e.op.waiters[0], Step(s, e);
      && t.ledger == Pruned(s.ledger, e.early, e.victims)
      && (entry.hash != e.op.hash ==> t.log == s.log + [Answer(a.waiter, e.id, Conflict, a.replayed)])
      && (entry.hash == e.op.hash && entry.result.Some? ==>
            t.log == s.log + [Answer(a.waiter, e.id, Replayed(entry.result.value), true)])
      && (entry.hash == e.op.hash && entry.result.None? ==>
            && entry.operation.Some? && entry.operation.value in s.live && entry.operation.value in s.ops
            && var host := entry.operation.value;
            && t.log == s.log && host in t.ops && host in t.live
            && t.ops[host].waiters == s.ops[host].waiters + [Attached(a.waiter, true)]
            && a.waiter in t.fate && t.fate[a.waiter] == Waiting(host, |s.ops[host].waiters|))
  {
    KnownKey(s, e);
    hide Between, Pruned, PruneOrder, Dispatch, Enqueue, Respond, Attach;
    var entry, ledger := s.ledger[e.op.key], Pruned(s.ledger, e.early, e.victims);
    OneAnswer(s, e.id, e.op, ledger, Conflict);
    if entry.result.Some? {
      OneAnswer(s, e.id, e.op, ledger, Replayed(entry.result.value));
    } else {
      JoinWaits(s, e.id, e.op, ledger, entry.operation.value);
    }
  }

  /** The entry a request opens. */
  ghost predicate OpenedFor(entry: Entry, id: OpId, op: Op) {
    && entry.hash == op.hash && entry.operation == Some(id) && entry.result.None?
    && entry.pane == op.pane && entry.createdAt == op.receivedAt
  }

  ghost predicate NoneCarries(ops: map<OpId, Op>, ids: seq<OpId>, key: Key) {
    forall i :: 0 <= i < |ids| ==> OpIn(ops, ids[i]).key != key
  }

  lemma {:induction false} StaleAllSpares(s: Sched, ids: seq<OpId>, key: Key)
    requires key in s.ledger && NoneCarries(s.ops, ids, key)
    ensures key in StaleAll(s, ids).ledger
    decreases |ids|
  {
    if ids != [] {
      StaleSpares(s, ids[0], key);
      hide Stale;
      StaleAllSpares(Stale(s, ids[0]), ids[1..], key);
    }
  }

  lemma StaleSpares(s: Sched, id: OpId, key: Key)
    requires key in s.ledger && OpOf(s, id).key != key
    ensures Stale(s, id).ops == s.ops && key in Stale(s, id).ledger
  {
    hide Answers;
  }

  lemma SupersedeSpares(s: Sched, p: PaneId, generation: nat, key: Key)
    requires key in s.ledger && NoneCarries(s.ops, SlotOf(s, p).queue, key)
    ensures key in Supersede(s, p, generation, key).ledger
  {
    StaleAllSpares(s.(slots := s.slots[p := SlotOf(s, p).(generation := generation, queue := [])]), SlotOf(s, p).queue, key);
    hide StaleAll, NoneCarries;
  }

  lemma StampOpens(s: Sched, id: OpId)
    requires id in s.ops && (s.ops[id].key in s.ledger ==> OpenedFor(s.ledger[s.ops[id].key], id, s.ops[id]))
    ensures var op, t := s.ops[id], StampAndInsert(s, id);
      && t.live == s.live && t.ledger.Keys == s.ledger.Keys && SameOps(s.ops, t.ops)
      && (op.key in t.ledger ==> OpenedFor(t.ledger[op.key], id, op))
  {
    hide InsertBySequence;
  }

  lemma RecordOpens(s: Sched, id: OpId)
    requires id in s.ops && s.ops[id].key != ""
    ensures var op, t := s.ops[id], Record(s, id);
      && t.live == s.live && t.ops == s.ops && t.slots == s.slots && op.key in t.ledger && OpenedFor(t.ledger[op.key], id, op)
      && (EnqueueRelay(t, id).live == s.live && EnqueueRelay(t, id).ops == s.ops && EnqueueRelay(t, id).ledger == t.ledger)
  {
    hide InsertBySequence;
  }

  /** The entry of a request that is enqueued is its own, unless an operation that still waits on its
      pane under the same key is answered as stale on the way. */
  lemma EnqueueOpens(s: Sched, id: OpId)
    requires id in s.ops && s.ops[id].key != ""
    ensures var op, t := s.ops[id], Enqueue(s, id);
      && t.live <= s.live && SameOps(s.ops, t.ops)
      && (op.key in t.ledger ==> OpenedFor(t.ledger[op.key], id, op))
      && (NoneCarries(s.ops, SlotOf(s, op.pane).queue, op.key) ==> op.key in t.ledger)
  {
    var op, r := s.ops[id], Record(s, id);
    RecordOpens(s, id);
    hide Record, EnqueueRelay, NoneCarries;
    if !op.relay {
      var raised := if op.admitted > SlotOf(r, op.pane).generation then Supersede(r, op.pane, op.admitted, op.key)
        else r.(slots := r.slots[op.pane := SlotOf(r, op.pane)]);
      SupersedeFrame(r, op.pane, op.admitted, op.key);
      if NoneCarries(s.ops, SlotOf(s, op.pane).queue, op.key) {
        SupersedeSpares(r, op.pane, op.admitted, op.key);
      }
      hide Supersede, StampAndInsert, SameOps;
      StampOpens(raised, id);
    }
  }

  /** No other operation under way carries the key. */
  ghost predicate Alone(s: Sched, id: OpId, key: Key) {
    forall x :: x in s.live && x != id && x in s.ops ==> s.ops[x].key != key
  }

  lemma PassedSpares(s: Sched, t: Sched, id: OpId, key: Key)
    requires Passed(s, t) && Alone(s, id, key)
    ensures key in t.ledger ==> key in s.ledger && t.ledger[key] == s.ledger[key]
    ensures id in t.live && key in s.ledger ==> key in t.ledger
  {
    hide OwnWords, SameOps, SameSlots;
    assert id in t.live ==> key !in KeysOf(s.ops, s.live - t.live);
  }

  lemma PassedPart(s: Sched, t: Sched, key: Key)
    requires Passed(s, t) && key in t.ledger
    ensures key in s.ledger && t.ledger[key] == s.ledger[key]
  {
    hide OwnWords, SameOps, SameSlots, KeysOf;
  }

  lemma QueueIsLive(s: Sched, p: PaneId)
    requires Inv(s, {}) && p in s.slots
    ensures forall i :: 0 <= i < |s.slots[p].queue| ==> s.slots[p].queue[i] in s.live && s.slots[p].queue[i] in s.ops
  {
    assert SlotShape(s.ops, s.live, {}, p, s.slots[p]);
    hide SlotsShape, RelayShape, AllLocated, Fates, LedgerOk, Counted, Timed, Honest, StartsOk, Ordered;
  }

  lemma TakenCarriers(s: Sched, id: OpId, op: Op, ledger: map<Key, Entry>)
    requires Inv(s, {}) && Fresh(s, id, op) && Alone(s, id, op.key)
    ensures var t := Take(s, id, op).(ledger := ledger);
      NoneCarries(t.ops, SlotOf(t, op.pane).queue, op.key) && Alone(t, id, op.key)
  {
    hide Inv;
    if op.pane in s.slots {
      QueueIsLive(s, op.pane);
    }
  }

  /** A request whose key has no entry opens one for itself; it is still there after the dispatch if the
      request is, and nobody else under way carries the key. */
  lemma UnknownKeyOpens(s: Sched, e: Event)
    requires Between(s) && e.Request? && Admissible(s, e)
    requires !s.stopping && e.now < e.op.deadline && !Outdated(s, e.op)
    requires e.op.key != "" && e.op.key !in Pruned(s.ledger, e.early, e.victims)
    ensures var key, t := e.op.key, Step(s, e);
      && (key in t.ledger ==> OpenedFor(t.ledger[key], e.id, e.op))
      && (Alone(s, e.id, key) && e.id in t.live ==> key in t.ledger)
  {
    var ledger := Pruned(s.ledger, e.early, e.victims);
    var taken := Take(s, e.id, e.op).(ledger := ledger);
    TakeKeeps(s, e.id, e.op);
    PruneKeeps(Take(s, e.id, e.op), {e.id}, e.early, e.victims);
    var q := Enqueue(taken, e.id);
    hide Between, Inv, Pruned, PruneOrder, Dispatch, Enqueue, Alone, NoneCarries, Passed;
    assert Step(s, e) == Dispatch(q, e.later);
    EnqueueKeeps(taken, e.id);
    EnqueueOpens(taken, e.id);
    DispatchPassed(q, e.later);
    if e.op.key in Step(s, e).ledger {
      PassedPart(q, Step(s, e), e.op.key);
    }
    if Alone(s, e.id, e.op.key) {
      BetweenInv(s);
      TakenCarriers(s, e.id, e.op, ledger);
      AloneStays(taken, q, e.id, e.op.key);
      PassedSpares(q, Step(s, e), e.id, e.op.key);
    }
  }

  lemma AloneStays(s: Sched, t: Sched, id: OpId, key: Key)
    requires Alone(s, id, key) && t.live <= s.live <= s.ops.Keys && SameOps(s.ops, t.ops)
    ensures Alone(t, id, key)
  {
  }

  lemma BetweenInv(s: Sched)
    requires Between(s)
    ensures Inv(s, {})
  {
    hide Inv;
  }

  // ---------------------------------------------------------------- the end of an effect

  /** The loop just after a current effect's end, before it dispatches again. */
  ghost predicate Settles(s: Sched, id: OpId, result: Option<Result>, c: Sched) {
    && c.ops == s.ops && c.live == s.live - {id}
    && (id in s.ops ==>
          && SaysAll(c.log, id, s.ops[id].waiters, Completed(result))
          && Kept(s.ledger, c.ledger, s.ops[id].key, result))
  }

  /** What becomes of the entry under `key`: it takes the result, or goes if there is nothing to replay. */
  ghost predicate Kept(before: map<Key, Entry>, after: map<Key, Entry>, key: Key, result: Option<Result>) {
    && (key in after <==> key in before && !(result.None? || result.value.phase == "not_started"))
    && (key in after ==> after[key] == before[key].(result := result, operation := None))
  }

  lemma FinishSettles(s: Sched, u: Sched, id: OpId, result: Option<Result>)
    requires id in s.ops && u.ops == s.ops && u.live == s.live && u.log == s.log && "" !in u.ledger
    requires var key := s.ops[id].key;
      (key in u.ledger <==> key in s.ledger) && (key in u.ledger ==> u.ledger[key] == s.ledger[key])
    ensures Settles(s, id, result, Finish(u, id, result))
  {
    RespondSays(
      u.(inUse := u.inUse - 1, deadlines := u.deadlines - {id}, ledger := SettledLedger(u.ledger, OpOf(u, id).key, result)),
      id, Completed(result));
    hide Answers, SaysAll;
  }

  lemma UnplugSpares(s: Sched, id: OpId, result: Option<Result>, bump: bool, current: bool)
    requires RunsOn(s.slots, OpOf(s, id).pane, id)
    ensures var key, u := OpOf(s, id).key, Unplug(s, id, result, bump, current);
      && u.ops == s.ops && u.live == s.live && u.log == s.log && u.ledger.Keys <= s.ledger.Keys
      && (key in u.ledger <==> key in s.ledger) && (key in u.ledger ==> u.ledger[key] == s.ledger[key])
  {
    hide Superseded, ClosedPane;
  }

  lemma NoKeylessEntry(s: Sched)
    requires Inv(s, {})
    ensures "" !in s.ledger
  {
    hide RelayShape, SlotsShape, AllLocated, Fates, Counted, Timed, Honest, StartsOk;
    assert "" !in s.ledger;
  }

  /** A completion of a current effect, up to its dispatch. */
  ghost function Ended(s: Sched, e: Event): Sched
    requires e.Completion? && EndsCurrent(s, e.id, e.current)
  {
    if s.ops[e.id].relay then CompleteRelay(s, e.id, e.result) else CompletePane(s, e.id, e.result, e.bump, e.current)
  }

  lemma EndSettles(s: Sched, e: Event)
    requires Inv(s, {}) && e.Completion? && EndsCurrent(s, e.id, e.current)
    ensures Settles(s, e.id, e.result, Ended(s, e)) && Inv(Ended(s, e), {}) && Step(s, e) == Dispatch(Ended(s, e), e.now)
  {
    NoKeylessEntry(s);
    hide Inv, Settles, Dispatch, Superseded, Finish, Unplug, Stale;
    if s.ops[e.id].relay {
      FinishSettles(s, s.(relayInFlight := s.relayInFlight - {e.id}), e.id, e.result);
      CompleteRelayKeeps(s, e.id, e.result);
    } else {
      UnplugSpares(s, e.id, e.result, e.bump, e.current);
      FinishSettles(s, Unplug(s, e.id, e.result, e.bump, e.current), e.id, e.result);
      CompletePaneKeeps(s, e.id, e.result, e.bump, e.current);
    }
  }

  /** Every waiter of an effect that ends while its session is current hears its own result, and
      nothing else. */
  lemma CurrentEndTells(s: Sched, e: Event)
    requires Between(s) && e.Completion? && EndsCurrent(s, e.id, e.current)
    ensures var t := Step(s, e);
      e.id !in t.live && AllHeard(t.log, e.id, s.ops[e.id].waiters, Completed(e.result))
  {
    var c, t := Ended(s, e), Step(s, e);
    hide Inv, EndsCurrent, Drained, Unqueued, Passed, Step, Dispatch, SaysAll, AllHeard, Kept;
    EndSettles(s, e);
    DispatchPassed(c, e.now);
    DispatchKeeps(c, e.now);
    PassedFacts(c, t);
    SaysAllStays(c.log, t.log, e.id, s.ops[e.id].waiters, Completed(e.result));
    SaidIsHeard(t, e.id, s.ops[e.id].waiters, Completed(e.result));
  }

  lemma PassedFacts(s: Sched, t: Sched)
    requires Passed(s, t)
    ensures s.log <= t.log && t.live <= s.live
  {
    hide SameOps, SameSlots, KeysOf;
  }

  /** In every continuation of the run, the result of a current effect is all its waiters ever hear. */
  lemma CurrentEndIsHeard(capacity: nat, before: seq<Event>, e: Event, after: seq<Event>)
    requires Admitted(Initial(capacity), before) && e.Completion?
    requires var s := Run(Initial(capacity), before); EndsCurrent(s, e.id, e.current) && Admitted(Step(s, e), after)
    ensures var s := Run(Initial(capacity), before);
      AllHeard(Run(Step(s, e), after).log, e.id, s.ops[e.id].waiters, Completed(e.result))
  {
    var s := Run(Initial(capacity), before);
    var u := Step(s, e);
    var t := Run(u, after);
    InitialBetween(capacity);
    RunBetween(Initial(capacity), before);
    hide Run, Step, EndsCurrent, AllHeard, Admitted, Between;
    assert Admissible(s, e);
    StepBetween(s, e);
    RunBetween(u, after);
    RunGrows(u, after);
    CurrentEndTells(s, e);
    BetweenInv(t);
    HeardStays(u, t, e.id, s.ops[e.id].waiters, Completed(e.result));
  }

  /** The ledger after a current effect ended. A nil result, or one that says the command never started,
      forgets the key; any other is kept for repetitions in place of the operation, and stays exactly
      unless the dispatch that follows ends another operation with the same key. */
  lemma CurrentEndRecords(s: Sched, e: Event)
    requires Between(s) && e.Completion? && EndsCurrent(s, e.id, e.current)
    ensures var key, t := s.ops[e.id].key, Step(s, e);
      && (key in t.ledger <==>
            && key in s.ledger && !(e.result.None? || e.result.value.phase == "not_started")
            && key !in KeysOf(s.ops, s.live - {e.id} - t.live))
      && (key in t.ledger ==> t.ledger[key] == s.ledger[key].(result := e.result, operation := None))
      && (Alone(s, e.id, key) ==> key !in KeysOf(s.ops, s.live - {e.id} - t.live))
  {
    var c, t := Ended(s, e), Step(s, e);
    hide Inv, EndsCurrent, Drained, Unqueued, Passed, Step, Dispatch, Answers;
    EndSettles(s, e);
    DispatchPassed(c, e.now);
    PassedLedger(c, t);
    assert Alone(s, e.id, s.ops[e.id].key) ==> s.ops[e.id].key !in KeysOf(s.ops, s.live - {e.id} - t.live);
    hide KeysOf, Alone;
  }

  lemma PassedLedger(s: Sched, t: Sched)
    requires Passed(s, t)
    ensures t.ledger == s.ledger - KeysOf(s.ops, s.live - t.live)
  {
    hide SameOps, SameSlots, KeysOf, OwnWords;
  }

  // ---------------------------------------------------------------- over whole runs

  /** The loop's state when event number `n` of a run from the start arrives. */
  ghost function At(capacity: nat, events: seq<Event>, n: nat): Sched
    requires n <= |events|
  {
    Run(Initial(capacity), events[..n])
  }

  lemma {:induction false} RunSplits(s: Sched, events: seq<Event>, e: Event)
    ensures Run(s, events + [e]) == Step(Run(s, events), e)
    ensures Admitted(s, events + [e]) <==> Admitted(s, events) && !Exited(Run(s, events)) && Admissible(Run(s, events), e)
    decreases |events|
  {
    hide Step, Admissible, Exited;
    if events == [] {
      assert [] + [e] == [e] && [e][1..] == [];
      assert Run(s, [e]) == Run(Step(s, e), []);
      assert Admitted(Step(s, e), []);
    } else {
      assert (events + [e])[1..] == events[1..] + [e];
      RunSplits(Step(s, events[0]), events[1..], e);
    }
  }

  /** The last step of a run: its states before, and what it adds. */
  lemma LastStep(capacity: nat, events: seq<Event>)
    requires events != [] && Admitted(Initial(capacity), events)
    ensures var last := |events| - 1; var s := At(capacity, events, last);
      && Admitted(Initial(capacity), events[..last])
      && Run(Initial(capacity), events) == Step(s, events[last])
      && Between(s) && Accounted(s, events[last], s, Step(s, events[last]))
  {
    var last := |events| - 1;
    hide Step, Admissible, Accounted, Between;
    assert events == events[..last] + [events[last]];
    RunSplits(Initial(capacity), events[..last], events[last]);
    hide Run, Admitted;
    InitialBetween(capacity);
    RunBetween(Initial(capacity), events[..last]);
    BetweenInv(At(capacity, events, last));
    StepAccounted(At(capacity, events, last), events[last]);
  }

  /** Answer number `i` was given in event number `n`, which justified it. */
  ghost predicate GivenIn(capacity: nat, events: seq<Event>, n: nat, i: nat, a: Answer)
    requires n < |events|
  {
    var s := At(capacity, events, n);
    |s.log| <= i < |Step(s, events[n]).log| && Justified(s, events[n], a)
  }

  lemma AccountedAt(s: Sched, e: Event, i: nat)
    requires Accounted(s, e, s, Step(s, e)) && i < |Step(s, e).log|
    ensures i < |s.log| ==> s.log[i] == Step(s, e).log[i]
    ensures i >= |s.log| ==> Justified(s, e, Step(s, e).log[i])
  {
    hide AllRecorded, Justified, Step;
  }

  lemma GivenInPrefix(capacity: nat, events: seq<Event>, last: nat, n: nat, i: nat, a: Answer)
    requires n < last <= |events| && GivenIn(capacity, events[..last], n, i, a)
    ensures GivenIn(capacity, events, n, i, a)
  {
    hide Step, Run, Justified;
    assert events[..last][..n] == events[..n];
  }

  /** Every answer of a run was given in one event that justified it. */
  lemma {:induction false} EveryAnswerIsJustified(capacity: nat, events: seq<Event>, i: nat)
    requires Admitted(Initial(capacity), events) && i < |Run(Initial(capacity), events).log|
    ensures exists n :: 0 <= n < |events| && GivenIn(capacity, events, n, i, Run(Initial(capacity), events).log[i])
    decreases |events|
  {
    if events != [] {
      var last := |events| - 1;
      var s, a := At(capacity, events, last), Run(Initial(capacity), events).log[i];
      LastStep(capacity, events);
      hide Step, Run, Between, Accounted, Justified, Admitted;
      AccountedAt(s, events[last], i);
      if i < |s.log| {
        EveryAnswerIsJustified(capacity, events[..last], i);
        hide GivenIn;
        var n :| 0 <= n < last && GivenIn(capacity, events[..last], n, i, a);
        GivenInPrefix(capacity, events, last, n, i, a);
      } else {
        assert GivenIn(capacity, events, last, i, a);
      }
    }
  }

  /** Event number `m` recorded the result, and it has stood in the entry up to event number `n`. */
  ghost predicate StandsSince(capacity: nat, events: seq<Event>, m: nat, n: nat, key: Key, hash: string, v: Result)
    requires m < n <= |events|
  {
    && RecordedBy(At(capacity, events, m), events[m], key, hash, v)
    && forall j :: m < j <= n ==> Has(At(capacity, events, j).ledger, key, hash, v)
  }

  lemma AccountedEntry(s: Sched, e: Event, key: Key, hash: string, v: Result)
    requires Accounted(s, e, s, Step(s, e)) && Has(Step(s, e).ledger, key, hash, v)
    ensures Has(s.ledger, key, hash, v) || RecordedBy(s, e, key, hash, v)
  {
    hide AllJustified, RecordedBy, Step;
  }

  lemma StandsOn(capacity: nat, events: seq<Event>, m: nat, n: nat, key: Key, hash: string, v: Result)
    requires m < n < |events| && StandsSince(capacity, events, m, n, key, hash, v)
    requires Has(At(capacity, events, n + 1).ledger, key, hash, v)
    ensures StandsSince(capacity, events, m, n + 1, key, hash, v)
  {
    hide Run, Has, RecordedBy, At;
  }

  lemma StandsNow(capacity: nat, events: seq<Event>, key: Key, hash: string, v: Result)
    requires events != [] && Has(Run(Initial(capacity), events).ledger, key, hash, v)
    requires RecordedBy(At(capacity, events, |events| - 1), events[|events| - 1], key, hash, v)
    ensures StandsSince(capacity, events, |events| - 1, |events|, key, hash, v)
  {
    hide Run, Has, RecordedBy;
    assert events[..|events|] == events;
  }

  /** Every result in the ledger has stood there since an event that recorded it under that key, in an
      entry for that payload. */
  lemma {:induction false} EveryResultIsRecorded(capacity: nat, events: seq<Event>, key: Key, hash: string, v: Result)
    requires Admitted(Initial(capacity), events) && Has(Run(Initial(capacity), events).ledger, key, hash, v)
    ensures exists m :: 0 <= m < |events| && StandsSince(capacity, events, m, |events|, key, hash, v)
    decreases |events|
  {
    if events != [] {
      var last := |events| - 1;
      var s := At(capacity, events, last);
      LastStep(capacity, events);
      hide Step, Run, Between, Accounted, Admitted, RecordedBy, Has, StandsSince;
      AccountedEntry(s, events[last], key, hash, v);
      if Has(s.ledger, key, hash, v) {
        EveryResultIsRecorded(capacity, events[..last], key, hash, v);
        var m :| 0 <= m < last && StandsSince(capacity, events[..last], m, last, key, hash, v);
        StandsInPrefix(capacity, events, m, last, key, hash, v);
        assert events[..|events|] == events;
        StandsOn(capacity, events, m, last, key, hash, v);
      } else {
        StandsNow(capacity, events, key, hash, v);
      }
    }
  }

  /** A completed answer repeats the result of the completion that ended its operation, while its
      session was current. */
  lemma CompletedIsOwn(capacity: nat, events: seq<Event>, i: nat)
    requires Admitted(Initial(capacity), events) && i < |Run(Initial(capacity), events).log|
    requires Run(Initial(capacity), events).log[i].reply.Completed?
    ensures var a := Run(Initial(capacity), events).log[i];
      exists n :: 0 <= n < |events| && GivenIn(capacity, events, n, i, a) &&
                  var e := events[n];
                  e.Completion? && e.id == a.op && e.result == a.reply.result && EndsCurrent(At(capacity, events, n), e.id, e.current)
  {
    hide Run, Admitted, Step, EndsCurrent;
    EveryAnswerIsJustified(capacity, events, i);
  }

  /** A replayed answer goes to the one waiter of a request, and repeats the result last recorded under
      the request's key for the request's payload. */
  lemma ReplayedIsRecorded(capacity: nat, events: seq<Event>, i: nat)
    requires Admitted(Initial(capacity), events) && i < |Run(Initial(capacity), events).log|
    requires Run(Initial(capacity), events).log[i].reply.Replayed?
    ensures var a := Run(Initial(capacity), events).log[i];
      exists m, n :: 0 <= m < n < |events| && GivenIn(capacity, events, n, i, a) && Asks(events[n], a) && a.replayed &&
                     StandsSince(capacity, events, m, n, events[n].op.key, events[n].op.hash, a.reply.earlier)
  {
    var a := Run(Initial(capacity), events).log[i];
    EveryAnswerIsJustified(capacity, events, i);
    var n :| 0 <= n < |events| && GivenIn(capacity, events, n, i, a);
    AdmittedPrefix(Initial(capacity), events, n);
    var key, hash, v := events[n].op.key, events[n].op.hash, a.reply.earlier;
    hide Run, Admitted, Step, StandsSince;
    EveryResultIsRecorded(capacity, events[..n], key, hash, v);
    hide GivenIn, Has;
    var m :| 0 <= m < n && StandsSince(capacity, events[..n], m, n, key, hash, v);
    StandsInPrefix(capacity, events, m, n, key, hash, v);
  }

  lemma StandsInPrefix(capacity: nat, events: seq<Event>, m: nat, n: nat, key: Key, hash: string, v: Result)
    requires m < n <= |events| && StandsSince(capacity, events[..n], m, n, key, hash, v)
    ensures StandsSince(capacity, events, m, n, key, hash, v)
  {
    hide Run, Has, RecordedBy;
    assert events[..n][..m] == events[..m];
    forall j | m < j <= n
      ensures Has(At(capacity, events, j).ledger, key, hash, v)
    {
      assert Has(At(capacity, events[..n], j).ledger, key, hash, v);
      assert events[..n][..j] == events[..j];
    }
  }

  lemma {:induction false} AdmittedPrefix(s: Sched, events: seq<Event>, n: nat)
    requires n <= |events| && Admitted(s, events)
    ensures Admitted(s, events[..n])
    decreases n
  {
    hide Step, Admissible, Exited;
    if n > 0 {
      AdmittedPrefix(Step(s, events[0]), events[1..], n - 1);
      assert events[..n][1..] == events[1..][..n - 1];
    }
  }

  // ---------------------------------------------------------------- whose result is replayed

  /** A repetition right after a current effect ended hears its result exactly if it carries the payload
      the entry was opened for. So the command's own repetition hears it exactly if the entry its key
      leads to was opened for its own payload, which the loop does not look at. */
  lemma RepetitionHears(s: Sched, e: Event, again: Event)
    requires Between(s) && e.Completion? && EndsCurrent(s, e.id, e.current)
    requires var t := Step(s, e);
      && again.Request? && Admissible(t, again) && !t.stopping && again.now < again.op.deadline && !Outdated(t, again.op)
      && again.op.key == s.ops[e.id].key && again.op.key in Pruned(t.ledger, again.early, again.victims)
    ensures var t := Step(s, e); var a := again.op.waiters[0];
      && again.op.key in s.ledger && e.result.Some?
      && Step(t, again).log == t.log + [
           if s.ledger[again.op.key].hash == again.op.hash then Answer(a.waiter, again.id, Replayed(e.result.value), true)
           else Answer(a.waiter, again.id, Conflict, a.replayed)]
  {
    var t := Step(s, e);
    assert Admissible(s, e);
    hide Step, Between, EndsCurrent, Pruned, Admissible, Alone, KeysOf;
    StepBetween(s, e);
    CurrentEndRecords(s, e);
    KnownKey(t, again);
    KnownKeyAnswer(t, again);
  }

  /** Whose payload the entry was opened for: that of the operation it names. An effect that still owns
      its entry records its result for its own payload. */
  lemma EntryOwner(s: Sched, key: Key)
    requires Between(s) && !s.stopping && key in s.ledger && s.ledger[key].operation.Some?
    ensures var owner := s.ledger[key].operation.value;
      owner in s.ops && s.ops[owner].key == key && s.ledger[key].hash == s.ops[owner].hash
  {
    assert EntryOk(s.ops, s.live, s.stopping, key, s.ledger[key]);
    hide RelayShape, SlotsShape, AllLocated, Fates, LedgerOk, Counted, Timed, Honest, StartsOk, Drained, Unqueued;
  }
}
