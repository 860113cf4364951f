/** Who hears what: a request under a known key, the waiters of an effect that ended, and where every
    replayed or completed answer of a run comes from. */
module SchedulerAnswers {
  import opened Options
  import opened SchedulerModel
  import opened SchedulerInvariant
  import opened SchedulerEvents
  import opened SchedulerTheorems
  import opened SchedulerGenerations
  import opened SchedulerPromises

  // ---------------------------------------------------------------- a dispatch pass

  /** What the loop says of its own accord, without an effect's result and without the ledger. */
  predicate OwnWord(reply: Reply) {
    reply.NotStarted? || reply.PaneReplaced? || reply.DispatchedUnknown? || reply.Closed?
  }

  ghost predicate OwnWords(before: seq<Answer>, after: seq<Answer>) {
    before <= after && forall i :: |before| <= i < |after| ==> OwnWord(after[i].reply)
  }

  ghost function KeysOf(ops: map<OpId, Op>, ids: set<OpId>): set<Key> {
    set id | id in ids && id in ops :: ops[id].key
  }

  /** Operations keep who they are and who waits for them. */
  ghost predicate SameOps(before: map<OpId, Op>, after: map<OpId, Op>) {
    forall id :: id in before ==> id in after && after[id].key == before[id].key && after[id].waiters == before[id].waiters
  }

  /** No slot's generation moves and no running effect is touched. */
  ghost predicate SameSlots(before: map<PaneId, Slot>, after: map<PaneId, Slot>) {
    forall p :: p in before ==>
      && p in after && after[p].generation == before[p].generation
      && (before[p].inFlight.Some? ==> after[p].inFlight == before[p].inFlight)
  }

  /** A dispatch pass: the ledger loses exactly the keys of the operations that ended. */
  ghost predicate Passed(s: Sched, t: Sched) {
    && OwnWords(s.log, t.log) && t.live <= s.live && SameOps(s.ops, t.ops) && SameSlots(s.slots, t.slots)
    && t.ledger == s.ledger - KeysOf(s.ops, s.live - t.live) && t.knownActive == s.knownActive
  }

  lemma SamePassed(s: Sched)
    ensures Passed(s, s)
  {
    assert s.live - s.live == {};
  }

  lemma PassedTwice(s: Sched, t: Sched, u: Sched)
    requires Passed(s, t) && Passed(t, u) && s.live <= s.ops.Keys
    ensures Passed(s, u)
  {
    hide OwnWords, SameSlots;
    assert KeysOf(s.ops, s.live - u.live) == KeysOf(s.ops, s.live - t.live) + KeysOf(t.ops, t.live - u.live);
    LogTwice(s.log, t.log, u.log);
    SlotsTwice(s.slots, t.slots, u.slots);
  }

  lemma LogTwice(a: seq<Answer>, b: seq<Answer>, c: seq<Answer>)
    requires OwnWords(a, b) && OwnWords(b, c)
    ensures OwnWords(a, c)
  {
  }

  lemma SlotsTwice(a: map<PaneId, Slot>, b: map<PaneId, Slot>, c: map<PaneId, Slot>)
    requires SameSlots(a, b) && SameSlots(b, c)
    ensures SameSlots(a, c)
  {
  }

  /** An operation that was taken off its queue is settled: only its key goes. */
  lemma SettledPassed(s: Sched, t: Sched, id: OpId, reply: Reply)
    requires id in s.live && id in s.ops && OwnWord(reply)
    requires t == s.(slots := t.slots, relayQueue := t.relayQueue) && SameSlots(s.slots, t.slots)
    ensures Passed(s, Respond(DropKey(t.(deadlines := t.deadlines - {id}), OpOf(t, id).key), id, reply))
  {
    var u := DropKey(t.(deadlines := t.deadlines - {id}), OpOf(t, id).key);
    var v := Respond(u, id, reply);
    RespondLog(u, id, reply);
    hide Answers, SameSlots;
    assert s.live - v.live == {id};
    assert KeysOf(s.ops, {id}) == {s.ops[id].key};
  }

  lemma StartedPassed(s: Sched, t: Sched)
    requires t.log == s.log && t.live == s.live && t.ledger == s.ledger && SameOps(s.ops, t.ops) && SameSlots(s.slots, t.slots)
    requires t.knownActive == s.knownActive
    ensures Passed(s, t)
  {
    assert s.live - t.live == {};
  }

  lemma DroppedPassed(s: Sched, t: Sched, id: OpId)
    requires id in s.live && id in s.ops
    requires t == s.(slots := t.slots, relayQueue := t.relayQueue) && SameSlots(s.slots, t.slots)
    ensures Passed(s, Stale(t, id)) && Passed(s, Expire(t, id))
  {
    hide Passed, Respond, SameSlots;
    SettledPassed(s, t, id, StaleReply(t, id));
    SettledPassed(s, t, id, NotStarted);
  }

  lemma HeadWaits(s: Sched)
    requires Inv(s, {}) && s.relayQueue != []
    ensures s.relayQueue[0] in s.live && s.relayQueue[0] in s.ops && s.live <= s.ops.Keys
  {
    hide SlotsShape, AllLocated, Fates, LedgerOk, Counted, Timed, Honest, StartsOk, Ordered;
  }

  lemma StartRelayPassed(s: Sched, id: OpId)
    requires s.relayQueue != []
    ensures Passed(s, StartRelay(s.(relayQueue := s.relayQueue[1..]), id))
  {
    hide Passed;
    StartedPassed(s, StartRelay(s.(relayQueue := s.relayQueue[1..]), id));
  }

  lemma RelayStepPassed(s: Sched, now: int)
    requires Inv(s, {}) && s.relayQueue != []
    ensures Passed(s, RelayStep(s, now))
  {
    HeadWaits(s);
    hide Inv, Passed, Expire, StartRelay;
    var id := s.relayQueue[0];
    DroppedPassed(s, s.(relayQueue := s.relayQueue[1..]), id);
    StartRelayPassed(s, id);
  }

  lemma LiveAreKnown(s: Sched)
    requires Inv(s, {})
    ensures s.live <= s.ops.Keys
  {
    hide RelayShape, SlotsShape, AllLocated, Fates, LedgerOk, Counted, Timed, Honest, StartsOk;
  }

  lemma {:induction false} DispatchRelayPassed(s: Sched, now: int)
    requires Inv(s, {})
    ensures Passed(s, DispatchRelay(s, now))
    decreases |s.relayQueue|
  {
    hide Inv, Passed, RelayStep;
    if s.relayQueue == [] || s.inUse >= s.capacity || s.stopping {
      SamePassed(s);
    } else {
      RelayStepPassed(s, now);
      RelayStepKeeps(s, now);
      RelayStepGrows(s, now);
      LiveAreKnown(s);
      DispatchRelayPassed(RelayStep(s, now), now);
      PassedTwice(s, RelayStep(s, now), DispatchRelay(s, now));
    }
  }

  lemma StartPanePassed(s: Sched, p: PaneId, id: OpId)
    requires Runnable(s, p)
    ensures Passed(s, StartPane(PopPane(s, p), p, id))
  {
    hide Passed;
    StartedPassed(s, StartPane(PopPane(s, p), p, id));
  }

  lemma VisitPanePassed(s: Sched, p: PaneId, now: int)
    requires Inv(s, {})
    ensures Passed(s, VisitPane(s, p, now))
  {
    if s.inUse >= s.capacity || !Runnable(s, p) {
      hide Inv;
      SamePassed(s);
    } else {
      var id := s.slots[p].queue[0];
      HeadIsStamped(s, p);
      hide Inv, Passed, Stale, Expire, StartPane;
      DroppedPassed(s, PopPane(s, p), id);
      StartPanePassed(s, p, id);
    }
  }

  lemma {:induction false} PaneRoundPassed(s: Sched, panes: seq<PaneId>, now: int)
    requires Inv(s, {})
    ensures Passed(s, PaneRound(s, panes, now))
    decreases |panes|
  {
    hide Inv, Passed, VisitPane;
    if panes == [] {
      SamePassed(s);
    } else {
      VisitPanePassed(s, panes[0], now);
      VisitPaneKeeps(s, panes[0], now);
      LiveAreKnown(s);
      PaneRoundPassed(VisitPane(s, panes[0], now), panes[1..], now);
      PassedTwice(s, VisitPane(s, panes[0], now), PaneRound(s, panes, now));
    }
  }

  lemma {:induction false} PaneRoundsPassed(s: Sched, panes: seq<PaneId>, now: int)
    requires Inv(s, {})
    ensures Passed(s, PaneRounds(s, panes, now))
    decreases Backlog(s, panes)
  {
    hide Inv, Passed, PaneRound;
    if s.inUse >= s.capacity || s.stopping {
      SamePassed(s);
    } else {
      var after := PaneRound(s, panes, now);
      PaneRoundPassed(s, panes, now);
      PaneRoundKeeps(s, panes, now);
      LiveAreKnown(s);
      if Backlog(after, panes) < Backlog(s, panes) {
        PaneRoundsPassed(after, panes, now);
        PassedTwice(s, after, PaneRounds(s, panes, now));
      }
    }
  }

  /** A dispatch pass says nothing but its own words, and forgets exactly the keys of the operations it
      ended. */
  lemma DispatchPassed(s: Sched, now: int)
    requires Inv(s, {})
    ensures Passed(s, Dispatch(s, now))
  {
    hide Inv, Passed, DispatchRelay, PaneRounds;
    var t := DispatchRelay(s, now);
    DispatchRelayPassed(s, now);
    DispatchRelayKeeps(s, now);
    LiveAreKnown(s);
    PaneRoundsPassed(t, SortedPanes(s.slots.Keys), now);
    PassedTwice(s, t, Dispatch(s, now));
  }

  // ---------------------------------------------------------------- what an event adds

  ghost predicate NoNewResults(before: map<Key, Entry>, after: map<Key, Entry>) {
    forall key :: key in after && after[key].result.Some? ==>
      key in before && after[key].hash == before[key].hash && after[key].result == before[key].result
  }

  /** The loop says only its own words and records no result. */
  ghost predicate Still(s: Sched, t: Sched) {
    OwnWords(s.log, t.log) && NoNewResults(s.ledger, t.ledger)
  }

  lemma StillTwice(s: Sched, t: Sched, u: Sched)
    requires Still(s, t) && Still(t, u)
    ensures Still(s, u)
  {
  }

  lemma SettledStill(s: Sched, t: Sched)
    requires t.log == s.log && forall key :: key in t.ledger ==> key in s.ledger && t.ledger[key] == s.ledger[key]
    ensures Still(s, t)
  {
  }

  lemma RespondStill(s: Sched, id: OpId, reply: Reply)
    requires OwnWord(reply)
    ensures Still(s, Respond(s, id, reply))
  {
    RespondLog(s, id, reply);
    hide Answers;
  }

  lemma DropStill(s: Sched, id: OpId)
    ensures Still(s, Stale(s, id)) && Still(s, Expire(s, id))
  {
    var dropped := DropKey(s.(deadlines := s.deadlines - {id}), OpOf(s, id).key);
    SettledStill(s, dropped);
    RespondStill(dropped, id, StaleReply(s, id));
    RespondStill(dropped, id, NotStarted);
    hide Still, Respond;
    StillTwice(s, dropped, Stale(s, id));
    StillTwice(s, dropped, Expire(s, id));
  }

  lemma {:induction false} StaleAllStill(s: Sched, ids: seq<OpId>)
    ensures Still(s, StaleAll(s, ids))
    decreases |ids|
  {
    if ids != [] {
      hide Still, Stale;
      DropStill(s, ids[0]);
      StaleAllStill(Stale(s, ids[0]), ids[1..]);
      StillTwice(s, Stale(s, ids[0]), StaleAll(s, ids));
    }
  }

  lemma {:induction false} CloseAllStill(s: Sched, ids: seq<OpId>)
    ensures Still(s, CloseAll(s, ids))
    decreases |ids|
  {
    if ids != [] {
      hide Still, Respond;
      RespondStill(s, ids[0], Closed);
      CloseAllStill(Respond(s, ids[0], Closed), ids[1..]);
      StillTwice(s, Respond(s, ids[0], Closed), CloseAll(s, ids));
    }
  }

  lemma PassedStill(s: Sched, t: Sched)
    requires Passed(s, t)
    ensures Still(s, t)
  {
    hide KeysOf, OwnWords, SameOps, SameSlots;
  }

  lemma SupersedeStill(s: Sched, p: PaneId, generation: nat, keep: Key)
    ensures Still(s, Supersede(s, p, generation, keep))
  {
    var emptied := s.(slots := s.slots[p := SlotOf(s, p).(generation := generation, queue := [])]);
    var answered := StaleAll(emptied, SlotOf(s, p).queue);
    SettledStill(s, emptied);
    StaleAllStill(emptied, SlotOf(s, p).queue);
    hide StaleAll, OwnWords;
    SettledStill(answered, Supersede(s, p, generation, keep));
    hide Still;
    StillTwice(s, emptied, answered);
    StillTwice(s, answered, Supersede(s, p, generation, keep));
  }

  lemma {:induction false} RetireGoneStill(s: Sched, gone: seq<PaneId>)
    ensures Still(s, RetireGone(s, gone))
    decreases |gone|
  {
    if gone != [] {
      hide Still, Supersede;
      if gone[0] in s.slots {
        var t := Supersede(s, gone[0], s.slots[gone[0]].generation + 1, "");
        SupersedeStill(s, gone[0], s.slots[gone[0]].generation + 1, "");
        RetireGoneStill(t, gone[1..]);
        StillTwice(s, t, RetireGone(s, gone));
      } else {
        RetireGoneStill(s, gone[1..]);
      }
    }
  }

  lemma {:induction false} RaiseAllStill(s: Sched, raised: seq<(PaneId, nat)>)
    ensures Still(s, RaiseAll(s, raised))
    decreases |raised|
  {
    if raised != [] {
      var p, generation := raised[0].0, raised[0].1;
      var t := RaiseOne(s, p, generation);
      SupersedeStill(s, p, generation, "");
      SettledStill(s, s.(slots := s.slots[p := SlotOf(s, p)]));
      hide Still, Supersede;
      RaiseAllStill(t, raised[1..]);
      StillTwice(s, t, RaiseAll(s, raised));
    }
  }

  lemma TopologyStill(s: Sched, active: set<PaneId>, gone: seq<PaneId>, raised: seq<(PaneId, nat)>, now: int)
    requires Inv(s, {})
    ensures Still(s, Topology(s, active, gone, raised, now))
  {
    hide Inv, RetireGone, RaiseAll, Dispatch;
    var t := RetireGone(s, gone);
    var u := RaiseAll(t, raised);
    var v := u.(knownActive := active);
    RetireGoneStill(s, gone);
    RetireGoneKeeps(s, gone);
    RaiseAllStill(t, raised);
    RaiseAllKeeps(t, raised);
    SettledStill(u, v);
    KnownActiveKeeps(u, active);
    DispatchPassed(v, now);
    PassedStill(v, Dispatch(v, now));
    hide Still, Passed;
    StillTwice(s, t, u);
    StillTwice(s, u, v);
    StillTwice(s, v, Dispatch(v, now));
  }

  lemma TimerPopStill(s: Sched, id: OpId)
    ensures Still(s, TimerPop(s, id))
  {
    var popped := s.(deadlines := s.deadlines - {id});
    var removed := Unqueue(popped, id);
    hide RemoveOp, OwnWords;
    SettledStill(s, popped);
    SettledStill(s, removed);
    DropStill(removed, id);
    hide Still, Expire, Unqueue, Queued;
    StillTwice(s, removed, Expire(removed, id));
  }

  lemma {:induction false} TimerPopsStill(s: Sched, due: seq<OpId>)
    ensures Still(s, TimerPops(s, due))
    decreases |due|
  {
    if due != [] {
      hide Still, TimerPop;
      TimerPopStill(s, due[0]);
      TimerPopsStill(TimerPop(s, due[0]), due[1..]);
      StillTwice(s, TimerPop(s, due[0]), TimerPops(s, due));
    }
  }

  lemma TimerStill(s: Sched, due: seq<OpId>, now: int)
    requires Inv(s, {})
    ensures Still(s, Timer(s, due, now))
  {
    hide Inv, Still, Passed, TimerPops, Dispatch;
    var t := TimerPops(s, due);
    TimerPopsStill(s, due);
    TimerPopsKeeps(s, due);
    DispatchPassed(t, now);
    PassedStill(t, Dispatch(t, now));
    StillTwice(s, t, Dispatch(t, now));
  }

  lemma {:induction false} CloseSlotsStill(s: Sched, panes: seq<PaneId>)
    ensures Still(s, CloseSlots(s, panes))
    decreases |panes|
  {
    if panes != [] {
      var p := panes[0];
      if p !in s.slots {
        hide Still;
        CloseSlotsStill(s, panes[1..]);
      } else {
        var emptied := s.(slots := s.slots[p := s.slots[p].(queue := [])]);
        var closed := CloseAll(emptied, s.slots[p].queue);
        SettledStill(s, emptied);
        hide Still, CloseAll;
        CloseAllStill(emptied, s.slots[p].queue);
        CloseSlotsStill(closed, panes[1..]);
        StillTwice(s, emptied, closed);
        StillTwice(s, closed, CloseSlots(s, panes));
      }
    }
  }

  lemma BeginStopStill(s: Sched, panes: seq<PaneId>)
    ensures Still(s, BeginStop(s, panes))
  {
    if !s.stopping {
      var stopping := s.(stopping := true);
      var t := CloseSlots(stopping, panes);
      SettledStill(s, stopping);
      SettledStill(t, t.(relayQueue := []));
      hide Still, CloseSlots, CloseAll;
      CloseSlotsStill(stopping, panes);
      CloseAllStill(t.(relayQueue := []), t.relayQueue);
      StillTwice(s, stopping, t);
      StillTwice(s, t, t.(relayQueue := []));
      StillTwice(s, t.(relayQueue := []), BeginStop(s, panes));
    }
  }

  lemma StampStill(s: Sched, id: OpId)
    ensures Still(s, StampAndInsert(s, id))
  {
    hide InsertBySequence;
  }

  lemma EnqueuePaneStill(s: Sched, id: OpId)
    ensures Still(s, EnqueuePane(s, id))
  {
    var op := OpOf(s, id);
    var raised := if op.admitted > SlotOf(s, op.pane).generation then Supersede(s, op.pane, op.admitted, op.key)
      else s.(slots := s.slots[op.pane := SlotOf(s, op.pane)]);
    SupersedeStill(s, op.pane, op.admitted, op.key);
    SettledStill(s, s.(slots := s.slots[op.pane := SlotOf(s, op.pane)]));
    hide Supersede, Still, StampAndInsert;
    StampStill(raised, id);
    StillTwice(s, raised, StampAndInsert(raised, id));
  }

  lemma RecordStill(s: Sched, id: OpId)
    ensures Still(s, Record(s, id)) && Still(s, EnqueueRelay(Record(s, id), id))
  {
    hide InsertBySequence;
  }

  lemma EnqueueStill(s: Sched, id: OpId)
    ensures Still(s, Enqueue(s, id))
  {
    var r := Record(s, id);
    RecordStill(s, id);
    hide Still, EnqueuePane, EnqueueRelay;
    EnqueuePaneStill(r, id);
    StillTwice(s, r, EnqueuePane(r, id));
  }

  // ---------------------------------------------------------------- where answers and results come from

  /** An effect of the loop ends while its pane session, if it has one, is still the current one. */
  ghost predicate EndsCurrent(s: Sched, id: OpId, current: bool) {
    id in s.ops &&
    if s.ops[id].relay then id in s.relayInFlight
    else RunsOn(s.slots, s.ops[id].pane, id) && !Superseded(s, s.ops[id].pane, current)
  }

  ghost predicate Asks(e: Event, a: Answer) {
    e.Request? && e.id == a.op && |e.op.waiters| == 1 && a.waiter == e.op.waiters[0].waiter
  }

  ghost predicate Has(ledger: map<Key, Entry>, key: Key, hash: string, v: Result) {
    key in ledger && ledger[key].hash == hash && ledger[key].result == Some(v)
  }

  /** What must be so, in the state an event finds, for the loop to give this answer to it. */
  ghost predicate Justified(s: Sched, e: Event, a: Answer) {
    match a.reply
    case Completed(r) => e.Completion? && e.id == a.op && e.result == r && EndsCurrent(s, e.id, e.current)
    case Replayed(v) => Asks(e, a) && a.replayed && Has(s.ledger, e.op.key, e.op.hash, v)
    case Conflict => Asks(e, a) && e.op.key in s.ledger && s.ledger[e.op.key].hash != e.op.hash
    case _ => true
  }

  /** The event puts `v` under `key`, into an entry opened for payload `hash`. */
  ghost predicate RecordedBy(s: Sched, e: Event, key: Key, hash: string, v: Result) {
    && key in s.ledger && s.ledger[key].hash == hash
    && match e
       case Completion(id, result, _, current, _) => result == Some(v) && EndsCurrent(s, id, current) && s.ops[id].key == key
       case LedgerUpdate(k, generation, result) =>
         k == key && result == Some(v) && s.ledger[key].generation == generation && s.ledger[key].result.Some?
       case _ => false
  }

  ghost predicate AllJustified(o: Sched, e: Event, before: seq<Answer>, after: seq<Answer>) {
    before <= after && forall i :: |before| <= i < |after| ==> Justified(o, e, after[i])
  }

  ghost predicate AllRecorded(o: Sched, e: Event, before: map<Key, Entry>, after: map<Key, Entry>) {
    forall key :: key in after && after[key].result.Some? ==>
      || Has(before, key, after[key].hash, after[key].result.value)
      || RecordedBy(o, e, key, after[key].hash, after[key].result.value)
  }

  /** From `s` to `t`, inside the event `e` that found the loop in state `o`, every new answer is
      justified and every new result recorded. */
  ghost predicate Accounted(o: Sched, e: Event, s: Sched, t: Sched) {
    AllJustified(o, e, s.log, t.log) && AllRecorded(o, e, s.ledger, t.ledger)
  }

  lemma AccountedTwice(o: Sched, e: Event, s: Sched, t: Sched, u: Sched)
    requires Accounted(o, e, s, t) && Accounted(o, e, t, u)
    ensures Accounted(o, e, s, u)
  {
    hide Justified, RecordedBy;
  }

  lemma StillAccounted(o: Sched, e: Event, s: Sched, t: Sched)
    requires Still(s, t)
    ensures Accounted(o, e, s, t)
  {
    hide RecordedBy, EndsCurrent, Asks;
  }

  lemma SettledLedgerRecorded(o: Sched, e: Event, ledger: map<Key, Entry>)
    requires e.Completion? && EndsCurrent(o, e.id, e.current)
    requires forall key :: key in ledger ==> key in o.ledger && ledger[key] == o.ledger[key]
    ensures AllRecorded(o, e, ledger, SettledLedger(ledger, o.ops[e.id].key, e.result))
  {
    hide EndsCurrent;
  }

  lemma CompletedJustified(o: Sched, e: Event, s: Sched)
    requires e.Completion? && EndsCurrent(o, e.id, e.current)
    ensures AllJustified(o, e, s.log, Respond(s, e.id, Completed(e.result)).log)
  {
    RespondLog(s, e.id, Completed(e.result));
    hide Answers, EndsCurrent;
  }

  lemma FinishAccounted(o: Sched, e: Event, s: Sched)
    requires e.Completion? && EndsCurrent(o, e.id, e.current) && s.ops == o.ops
    requires forall key :: key in s.ledger ==> key in o.ledger && s.ledger[key] == o.ledger[key]
    ensures Accounted(o, e, s, Finish(s, e.id, e.result))
  {
    assert e.id in o.ops;
    hide EndsCurrent, AllJustified, AllRecorded;
    SettledLedgerRecorded(o, e, s.ledger);
    var t := s.(inUse := s.inUse - 1, deadlines := s.deadlines - {e.id},
                ledger := SettledLedger(s.ledger, OpOf(s, e.id).key, e.result));
    CompletedJustified(o, e, t);
    hide SettledLedger;
    assert Finish(s, e.id, e.result).ledger == t.ledger;
    hide Respond;
  }

  lemma UnplugPart(s: Sched, id: OpId, result: Option<Result>, bump: bool, current: bool)
    requires RunsOn(s.slots, OpOf(s, id).pane, id)
    ensures var t := Unplug(s, id, result, bump, current);
      t.ops == s.ops && t.log == s.log && forall key :: key in t.ledger ==> key in s.ledger && t.ledger[key] == s.ledger[key]
  {
    hide Superseded, ClosedPane;
  }

  lemma FreedStill(s: Sched, id: OpId)
    ensures Still(s, Stale(s.(inUse := s.inUse - 1), id))
  {
    hide Stale, OwnWords;
    SettledStill(s, s.(inUse := s.inUse - 1));
    DropStill(s.(inUse := s.inUse - 1), id);
    hide Still;
    StillTwice(s, s.(inUse := s.inUse - 1), Stale(s.(inUse := s.inUse - 1), id));
  }

  /** The two ends of a pane effect once its slot is unplugged. */
  lemma EndAccounted(s: Sched, e: Event, u: Sched)
    requires e.Completion? && e.id in s.ops && u.ops == s.ops && u.log == s.log
    requires forall key :: key in u.ledger ==> key in s.ledger && u.ledger[key] == s.ledger[key]
    ensures Accounted(s, e, s, Stale(u.(inUse := u.inUse - 1), e.id))
    ensures EndsCurrent(s, e.id, e.current) ==> Accounted(s, e, s, Finish(u, e.id, e.result))
  {
    var stale, finished := Stale(u.(inUse := u.inUse - 1), e.id), Finish(u, e.id, e.result);
    hide Accounted, EndsCurrent, OwnWords, Finish, Stale;
    SettledStill(s, u);
    StillAccounted(s, e, s, u);
    FreedStill(u, e.id);
    StillAccounted(s, e, u, stale);
    AccountedTwice(s, e, s, u, stale);
    if EndsCurrent(s, e.id, e.current) {
      FinishAccounted(s, e, u);
      AccountedTwice(s, e, s, u, finished);
    }
  }

  lemma CompletePaneAccounted(s: Sched, e: Event)
    requires e.Completion? && e.id in s.ops && !s.ops[e.id].relay && RunsOn(s.slots, OpOf(s, e.id).pane, e.id)
    ensures Accounted(s, e, s, CompletePane(s, e.id, e.result, e.bump, e.current))
  {
    UnplugPart(s, e.id, e.result, e.bump, e.current);
    hide Unplug, Superseded, Accounted, Finish, Stale;
    EndAccounted(s, e, Unplug(s, e.id, e.result, e.bump, e.current));
  }

  lemma CompleteRelayAccounted(s: Sched, e: Event)
    requires e.Completion? && e.id in s.ops && s.ops[e.id].relay && e.id in s.relayInFlight
    ensures Accounted(s, e, s, CompleteRelay(s, e.id, e.result))
  {
    var u := s.(relayInFlight := s.relayInFlight - {e.id});
    hide Accounted, OwnWords;
    SettledStill(s, u);
    StillAccounted(s, e, s, u);
    FinishAccounted(s, e, u);
    hide Finish;
    AccountedTwice(s, e, s, u, CompleteRelay(s, e.id, e.result));
  }

  lemma PassAccounted(o: Sched, e: Event, s: Sched, t: Sched, now: int)
    requires Accounted(o, e, s, t) && Inv(t, {})
    ensures Accounted(o, e, s, Dispatch(t, now))
  {
    hide Inv, Accounted, Still, Passed, Dispatch;
    DispatchPassed(t, now);
    PassedStill(t, Dispatch(t, now));
    StillAccounted(o, e, t, Dispatch(t, now));
    AccountedTwice(o, e, s, t, Dispatch(t, now));
  }

  lemma RelayRuns(s: Sched, id: OpId)
    requires Inv(s, {}) && id in s.relayInFlight
    ensures id in s.ops && s.ops[id].relay && id in s.live
  {
    hide SlotsShape, AllLocated, Fates, LedgerOk, Counted, Timed, Honest, StartsOk, Ordered;
  }

  lemma PaneRuns(s: Sched, p: PaneId, id: OpId)
    requires Inv(s, {}) && RunsOn(s.slots, p, id)
    ensures id in s.ops && !s.ops[id].relay && s.ops[id].pane == p && id in s.live && s.ops[id].dispatched
  {
    assert SlotShape(s.ops, s.live, {}, p, s.slots[p]);
    hide Fates, LedgerOk, Counted, Timed, Honest, StartsOk, AllLocated, RelayShape, SlotsShape, Ordered;
  }

  lemma CompleteAccounted(s: Sched, e: Event)
    requires Inv(s, {}) && e.Completion?
    ensures Accounted(s, e, s, Step(s, e))
  {
    hide Inv, CompletePane, CompleteRelay, Dispatch, Accounted, OwnWords;
    SettledStill(s, s);
    StillAccounted(s, e, s, s);
    hide Still;
    if OpOf(s, e.id).relay {
      if e.id in s.relayInFlight {
        RelayRuns(s, e.id);
        CompleteRelayAccounted(s, e);
        CompleteRelayKeeps(s, e.id, e.result);
        PassAccounted(s, e, s, CompleteRelay(s, e.id, e.result), e.now);
      }
    } else if RunsOn(s.slots, OpOf(s, e.id).pane, e.id) {
      PaneRuns(s, OpOf(s, e.id).pane, e.id);
      CompletePaneAccounted(s, e);
      CompletePaneKeeps(s, e.id, e.result, e.bump, e.current);
      PassAccounted(s, e, s, CompletePane(s, e.id, e.result, e.bump, e.current), e.now);
    }
  }

  /** The one answer to a request that finds its key in the ledger. */
  lemma RefusedAccounted(o: Sched, e: Event, t: Sched, reply: Reply)
    requires e.Request? && |e.op.waiters| == 1 && OpOf(t, e.id) == e.op
    requires Justified(o, e, Answer(e.op.waiters[0].waiter, e.id, reply, reply.Replayed? || e.op.waiters[0].replayed))
    ensures Accounted(o, e, t, Respond(t, e.id, reply))
  {
    hide Justified, RecordedBy;
  }

  lemma AttachStill(t: Sched, id: OpId, host: OpId)
    ensures Still(t, Attach(t, id, host))
  {
  }

  lemma KnownKeyAccounted(o: Sched, e: Event, t: Sched)
    requires e.Request? && |e.op.waiters| == 1 && OpOf(t, e.id) == e.op
    requires e.op.key != "" && e.op.key in t.ledger && e.op.key in o.ledger && t.ledger[e.op.key] == o.ledger[e.op.key]
    requires !t.stopping && e.now < e.op.deadline
    requires !(!e.op.relay && e.op.pane in t.slots && e.op.admitted < t.slots[e.op.pane].generation)
    ensures Accounted(o, e, t, Decided(t, e.id, e.op, e.now, e.later))
  {
    var existing := t.ledger[e.op.key];
    hide Accounted, Respond, Attach, OwnWords, EndsCurrent;
    SettledStill(t, t);
    StillAccounted(o, e, t, t);
    hide Still;
    if existing.hash != e.op.hash {
      RefusedAccounted(o, e, t, Conflict);
    } else if existing.result.Some? {
      RefusedAccounted(o, e, t, Replayed(existing.result.value));
    } else if existing.operation.Some? {
      AttachStill(t, e.id, existing.operation.value);
      StillAccounted(o, e, t, Attach(t, e.id, existing.operation.value));
    }
  }

  lemma DecidedAccounted(o: Sched, e: Event, t: Sched)
    requires e.Request? && Inv(t, {e.id}) && |e.op.waiters| == 1 && OpOf(t, e.id) == e.op && !e.op.dispatched
    requires forall key :: key in t.ledger ==> key in o.ledger && t.ledger[key] == o.ledger[key]
    requires "" !in t.ledger
    ensures Accounted(o, e, t, Decided(t, e.id, e.op, e.now, e.later))
  {
    hide Inv, Accounted, Respond, Stale, Dispatch, Enqueue, Attach, Still;
    if t.stopping {
      RespondStill(t, e.id, Closed);
      StillAccounted(o, e, t, Respond(t, e.id, Closed));
    } else if e.now >= e.op.deadline {
      RespondStill(t, e.id, NotStarted);
      StillAccounted(o, e, t, Respond(t, e.id, NotStarted));
    } else if !e.op.relay && e.op.pane in t.slots && e.op.admitted < t.slots[e.op.pane].generation {
      DropStill(t, e.id);
      StillAccounted(o, e, t, Stale(t, e.id));
    } else if e.op.key in t.ledger {
      KnownKeyAccounted(o, e, t);
    } else {
      EnqueueStill(t, e.id);
      EnqueueKeeps(t, e.id);
      StillAccounted(o, e, t, Enqueue(t, e.id));
      PassAccounted(o, e, t, Enqueue(t, e.id), e.later);
    }
  }

  lemma IngressAccounted(s: Sched, e: Event)
    requires Inv(s, {}) && e.Request? && Fresh(s, e.id, e.op)
    ensures Accounted(s, e, s, Step(s, e))
  {
    var taken := Take(s, e.id, e.op);
    var t := taken.(ledger := Pruned(s.ledger, e.early, e.victims));
    TakeKeeps(s, e.id, e.op);
    hide Inv, Pruned, Decided, Accounted, OwnWords;
    PruneKeeps(taken, {e.id}, e.early, e.victims);
    PrunedIsPart(s.ledger, e.early, e.victims);
    NoEmptyKey(s, e.early, e.victims);
    SettledStill(s, t);
    hide Still;
    StillAccounted(s, e, s, t);
    DecidedAccounted(s, e, t);
    AccountedTwice(s, e, s, t, Step(s, e));
  }

  /** Every answer of a step is justified, and every result in the ledger after it was there before or
      is recorded by it. */
  lemma StepAccounted(s: Sched, e: Event)
    requires Inv(s, {}) && Admissible(s, e)
    ensures Accounted(s, e, s, Step(s, e))
  {
    hide Inv, Accounted, Still, Ingress, Complete, Topology, Timer, BeginStop, PruneOrder, DueOrder, Lists, OwnWords;
    var t := Step(s, e);
    match e
    case Request(id, op, _, _, _, _) => IngressAccounted(s, e);
    case Completion(_, _, _, _, _) => CompleteAccounted(s, e);
    case TopologyUpdate(active, gone, raised, now) =>
      TopologyStill(s, active, gone, raised, now);
      StillAccounted(s, e, s, t);
    case LedgerUpdate(key, generation, result) => UpdateAccounted(s, e);
    case TimerFires(due, now, later) =>
      TimerStill(s, due, later);
      StillAccounted(s, e, s, t);
    case CancelInflight(panes) =>
      BeginStopStill(s, panes);
      StillAccounted(s, e, s, t);
    case Stop(panes) =>
      BeginStopStill(s, panes);
      SettledStill(BeginStop(s, panes), t);
      StillTwice(s, BeginStop(s, panes), t);
      StillAccounted(s, e, s, t);
  }

  lemma UpdateAccounted(s: Sched, e: Event)
    requires e.LedgerUpdate?
    ensures Accounted(s, e, s, Step(s, e))
  {
  }
}
