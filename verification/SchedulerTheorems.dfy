/** What the scheduler promises, over every run of its loop. */
module SchedulerTheorems {
  import opened Options
  import opened SchedulerModel
  import opened SchedulerInvariant
  import opened SchedulerEvents

  // ---------------------------------------------------------------- histories only grow

  /** Answers and starts are never taken back, and no waiter is forgotten. */
  ghost predicate Grows(s: Sched, t: Sched) {
    && s.log <= t.log && s.starts <= t.starts && t.fate.Keys == s.fate.Keys
    && t.capacity == s.capacity && t.stopping == s.stopping && t.acked == s.acked
  }

  lemma RespondGrows(s: Sched, id: OpId, reply: Reply)
    ensures Grows(s, Respond(s, id, reply))
  {
  }

  lemma {:induction false} StaleAllGrows(s: Sched, ids: seq<OpId>)
    ensures Grows(s, StaleAll(s, ids))
    decreases |ids|
  {
    if ids != [] {
      StaleAllGrows(Stale(s, ids[0]), ids[1..]);
    }
  }

  lemma {:induction false} CloseAllGrows(s: Sched, ids: seq<OpId>)
    ensures Grows(s, CloseAll(s, ids))
    decreases |ids|
  {
    if ids != [] {
      CloseAllGrows(Respond(s, ids[0], Closed), ids[1..]);
    }
  }

  lemma RelayStepGrows(s: Sched, now: int)
    requires s.relayQueue != []
    ensures Grows(s, RelayStep(s, now)) && |RelayStep(s, now).relayQueue| < |s.relayQueue|
  {
    var popped := s.(relayQueue := s.relayQueue[1..]);
    SettledGrows(popped, s.relayQueue[0]);
    hide Expire;
  }

  lemma {:induction false} DispatchRelayGrows(s: Sched, now: int)
    ensures Grows(s, DispatchRelay(s, now))
    decreases |s.relayQueue|
  {
    if s.relayQueue != [] && s.inUse < s.capacity && !s.stopping {
      RelayStepGrows(s, now);
      hide RelayStep;
      DispatchRelayGrows(RelayStep(s, now), now);
    }
  }

  lemma SettledGrows(s: Sched, id: OpId)
    ensures Grows(s, Stale(s, id)) && OnlySettled(s, Stale(s, id))
    ensures Grows(s, Expire(s, id)) && OnlySettled(s, Expire(s, id))
  {
  }

  lemma VisitPaneGrows(s: Sched, p: PaneId, now: int)
    ensures Grows(s, VisitPane(s, p, now))
  {
    hide Stale, Expire;
    if Runnable(s, p) {
      SettledGrows(PopPane(s, p), s.slots[p].queue[0]);
    }
  }

  lemma {:induction false} PaneRoundGrows(s: Sched, panes: seq<PaneId>, now: int)
    ensures Grows(s, PaneRound(s, panes, now))
    decreases |panes|
  {
    hide VisitPane;
    if panes != [] {
      VisitPaneGrows(s, panes[0], now);
    }
    if panes != [] {
      PaneRoundGrows(VisitPane(s, panes[0], now), panes[1..], now);
    }
  }

  lemma {:induction false} PaneRoundsGrows(s: Sched, panes: seq<PaneId>, now: int)
    ensures Grows(s, PaneRounds(s, panes, now))
    decreases Backlog(s, panes)
  {
    if s.inUse < s.capacity && !s.stopping {
      var after := PaneRound(s, panes, now);
      PaneRoundGrows(s, panes, now);
      if Backlog(after, panes) < Backlog(s, panes) {
        PaneRoundsGrows(after, panes, now);
      }
    }
  }

  lemma DispatchGrows(s: Sched, now: int)
    ensures Grows(s, Dispatch(s, now))
  {
    DispatchRelayGrows(s, now);
    PaneRoundsGrows(DispatchRelay(s, now), SortedPanes(s.slots.Keys), now);
  }

  lemma SupersedeGrows(s: Sched, p: PaneId, generation: nat, keep: Key)
    ensures Grows(s, Supersede(s, p, generation, keep))
  {
    StaleAllGrows(s.(slots := s.slots[p := SlotOf(s, p).(generation := generation, queue := [])]), SlotOf(s, p).queue);
  }

  lemma EnqueueGrows(s: Sched, id: OpId)
    ensures Grows(s, Enqueue(s, id))
  {
    var r := Record(s, id);
    var op := OpOf(r, id);
    SupersedeGrows(r, op.pane, op.admitted, op.key);
    hide Supersede;
  }

  lemma AttachGrows(s: Sched, id: OpId, host: OpId)
    ensures Grows(s, Attach(s, id, host))
  {
  }

  lemma IngressGrows(s: Sched, id: OpId, op: Op, victims: seq<Key>, early: int, now: int, later: int)
    requires |op.waiters| == 1
    ensures Grows(s.(fate := s.fate[op.waiters[0].waiter := Waiting(id, 0)]), Ingress(s, id, op, victims, early, now, later))
  {
    hide Enqueue, Dispatch, Pruned, Respond, Attach;
    var t := Take(s, id, op).(ledger := Pruned(s.ledger, early, victims));
    if !t.stopping && now < op.deadline {
      if !op.relay && op.pane in t.slots && op.admitted < t.slots[op.pane].generation {
        RespondGrows(DropKey(t.(deadlines := t.deadlines - {id}), OpOf(t, id).key), id, StaleReply(t, id));
      } else if op.key != "" && op.key in t.ledger {
        var existing := t.ledger[op.key];
        RespondGrows(t, id, Conflict);
        if existing.result.Some? { RespondGrows(t, id, Replayed(existing.result.value)); }
        if existing.operation.Some? { AttachGrows(t, id, existing.operation.value); }
      } else {
        EnqueueGrows(t, id);
        DispatchGrows(Enqueue(t, id), later);
      }
    } else {
      RespondGrows(t, id, Closed);
      RespondGrows(t, id, NotStarted);
    }
  }

  lemma FinishGrows(s: Sched, id: OpId, result: Option<Result>)
    ensures Grows(s, Finish(s, id, result))
  {
    hide SettledLedger;
  }

  lemma CompleteGrows(s: Sched, id: OpId, result: Option<Result>, bump: bool, current: bool, now: int)
    ensures Grows(s, Complete(s, id, result, bump, current, now))
  {
    hide Dispatch, WithoutOlder, Finish, Stale, Superseded, ClosedPane;
    if OpOf(s, id).relay {
      FinishGrows(s.(relayInFlight := s.relayInFlight - {id}), id, result);
      DispatchGrows(CompleteRelay(s, id, result), now);
    } else if RunsOn(s.slots, OpOf(s, id).pane, id) {
      var t := Unplug(s, id, result, bump, current);
      assert Grows(s, t);
      hide Unplug;
      FinishGrows(t, id, result);
      SettledGrows(t.(inUse := t.inUse - 1), id);
      DispatchGrows(CompletePane(s, id, result, bump, current), now);
    }
  }

  lemma {:induction false} RetireGoneGrows(s: Sched, gone: seq<PaneId>)
    ensures Grows(s, RetireGone(s, gone))
    decreases |gone|
  {
    if gone != [] {
      var p := gone[0];
      if p in s.slots {
        SupersedeGrows(s, p, s.slots[p].generation + 1, "");
        hide Supersede;
        RetireGoneGrows(Supersede(s, p, s.slots[p].generation + 1, ""), gone[1..]);
      } else {
        RetireGoneGrows(s, gone[1..]);
      }
    }
  }

  lemma {:induction false} RaiseAllGrows(s: Sched, raised: seq<(PaneId, nat)>)
    ensures Grows(s, RaiseAll(s, raised))
    decreases |raised|
  {
    if raised != [] {
      SupersedeGrows(s, raised[0].0, raised[0].1, "");
      hide Supersede;
      RaiseAllGrows(RaiseOne(s, raised[0].0, raised[0].1), raised[1..]);
    }
  }

  lemma {:induction false} TimerPopsGrows(s: Sched, due: seq<OpId>)
    ensures Grows(s, TimerPops(s, due))
    decreases |due|
  {
    if due != [] {
      TimerPopsGrows(TimerPop(s, due[0]), due[1..]);
    }
  }

  lemma {:induction false} CloseSlotsGrows(s: Sched, panes: seq<PaneId>)
    ensures Grows(s, CloseSlots(s, panes))
    decreases |panes|
  {
    if panes != [] {
      var p := panes[0];
      if p in s.slots {
        var emptied := s.(slots := s.slots[p := s.slots[p].(queue := [])]);
        CloseAllGrows(emptied, s.slots[p].queue);
        CloseSlotsGrows(CloseAll(emptied, s.slots[p].queue), panes[1..]);
      } else {
        CloseSlotsGrows(s, panes[1..]);
      }
    }
  }

  /** The waiter a request brings, if the event is one. */
  ghost function Brings(e: Event): set<Waiter> {
    if e.Request? then set a | a in e.op.waiters :: a.waiter else {}
  }

  lemma BeginStopGrows(s: Sched, panes: seq<PaneId>)
    ensures var t := BeginStop(s, panes); t.stopping && Grows(s, t.(stopping := s.stopping))
  {
    hide CloseSlots, CloseAll;
    CloseSlotsGrows(s.(stopping := true), panes);
    var t := CloseSlots(s.(stopping := true), panes);
    CloseAllGrows(t.(relayQueue := []), t.relayQueue);
  }

  lemma TopologyGrows(s: Sched, active: set<PaneId>, gone: seq<PaneId>, raised: seq<(PaneId, nat)>, now: int)
    ensures Grows(s, Topology(s, active, gone, raised, now))
  {
    hide RetireGone, RaiseAll, Dispatch;
    RetireGoneGrows(s, gone);
    RaiseAllGrows(RetireGone(s, gone), raised);
    DispatchGrows(RaiseAll(RetireGone(s, gone), raised).(knownActive := active), now);
  }

  lemma TimerGrows(s: Sched, due: seq<OpId>, now: int)
    ensures Grows(s, Timer(s, due, now))
  {
    hide TimerPops, Dispatch;
    TimerPopsGrows(s, due);
    DispatchGrows(TimerPops(s, due), now);
  }

  lemma StepGrows(s: Sched, e: Event)
    requires Admissible(s, e)
    ensures var t := Step(s, e);
      && s.log <= t.log && s.starts <= t.starts && t.fate.Keys == s.fate.Keys + Brings(e)
      && t.capacity == s.capacity && (s.stopping ==> t.stopping)
  {
    hide Ingress, Complete, Topology, Timer, BeginStop, DueOrder, PruneOrder, Lists;
    match e
    case Request(id, op, victims, early, now, later) =>
      IngressGrows(s, id, op, victims, early, now, later);
      assert op.waiters == [op.waiters[0]];
      assert Brings(e) == {op.waiters[0].waiter};
    case Completion(id, result, bump, current, now) => CompleteGrows(s, id, result, bump, current, now);
    case TopologyUpdate(active, gone, raised, now) => TopologyGrows(s, active, gone, raised, now);
    case LedgerUpdate(key, generation, result) =>
    case TimerFires(due, now, later) => TimerGrows(s, due, later);
    case CancelInflight(panes) => BeginStopGrows(s, panes);
    case Stop(panes) => BeginStopGrows(s, panes);
  }

  // ---------------------------------------------------------------- nothing runnable waits

  /** The loop has stopped starting work, or capacity is used up, or nothing can be started. */
  ghost predicate Drained(s: Sched) {
    s.stopping || s.inUse >= s.capacity || (s.relayQueue == [] && forall p :: p in s.slots ==> !Runnable(s, p))
  }

  /** From the moment the loop starts to stop, nothing is queued. */
  ghost predicate Unqueued(s: Sched) {
    s.stopping ==> s.relayQueue == [] && forall p :: p in s.slots ==> s.slots[p].queue == []
  }

  lemma {:induction false} DispatchRelayDrains(s: Sched, now: int)
    ensures var t := DispatchRelay(s, now);
      (t.relayQueue == [] || t.inUse >= t.capacity || t.stopping) && t.slots == s.slots
    decreases |s.relayQueue|
  {
    if s.relayQueue != [] && s.inUse < s.capacity && !s.stopping {
      DispatchRelayDrains(RelayStep(s, now), now);
    }
  }

  /** A visit either changes nothing or takes one operation off that pane's queue. */
  lemma VisitPaneFrame(s: Sched, p: PaneId, now: int)
    ensures var t := VisitPane(s, p, now);
      && t.slots.Keys == s.slots.Keys && t.relayQueue == s.relayQueue
      && (forall q :: q in s.slots && q != p ==> t.slots[q] == s.slots[q])
      && t.inUse >= s.inUse && t.capacity == s.capacity && t.stopping == s.stopping
      && if s.inUse < s.capacity && Runnable(s, p)
         then p in t.slots && |t.slots[p].queue| == |s.slots[p].queue| - 1
         else t == s
  {
    hide Stale, Expire;
    if Runnable(s, p) {
      SettledGrows(PopPane(s, p), s.slots[p].queue[0]);
    }
  }

  lemma {:induction false} BacklogFrame(s: Sched, t: Sched, p: PaneId, panes: seq<PaneId>)
    requires t.slots.Keys == s.slots.Keys
    requires forall q :: q in s.slots && q != p ==> t.slots[q] == s.slots[q]
    requires |SlotOf(t, p).queue| <= |SlotOf(s, p).queue|
    ensures Backlog(t, panes) <= Backlog(s, panes)
    ensures p in panes && |SlotOf(t, p).queue| < |SlotOf(s, p).queue| ==> Backlog(t, panes) < Backlog(s, panes)
    decreases |panes|
  {
    if panes != [] {
      assert panes == [panes[0]] + panes[1..];
      BacklogFrame(s, t, p, panes[1..]);
    }
  }

  /** A round over some of the panes leaves their number and lowers the backlog, or changes
      nothing because no visited pane was runnable. */
  lemma {:induction false} PaneRoundProgress(s: Sched, panes: seq<PaneId>, all: seq<PaneId>, now: int)
    requires s.inUse < s.capacity && forall p :: p in panes ==> p in all
    ensures var t := PaneRound(s, panes, now);
      && t.slots.Keys == s.slots.Keys && t.relayQueue == s.relayQueue
      && t.capacity == s.capacity && t.stopping == s.stopping
      && Backlog(t, all) <= Backlog(s, all)
      && (Backlog(t, all) == Backlog(s, all) ==> t == s && forall p :: p in panes ==> !Runnable(s, p))
    decreases |panes|
  {
    if panes != [] {
      assert panes == [panes[0]] + panes[1..];
      var p := panes[0];
      var u := VisitPane(s, p, now);
      VisitPaneFrame(s, p, now);
      BacklogFrame(s, u, p, all);
      hide VisitPane;
      PaneRoundFrame(u, panes[1..], all, now);
      if !Runnable(s, p) {
        PaneRoundProgress(s, panes[1..], all, now);
      }
    }
  }

  lemma {:induction false} PaneRoundFrame(s: Sched, panes: seq<PaneId>, all: seq<PaneId>, now: int)
    ensures var t := PaneRound(s, panes, now);
      && t.slots.Keys == s.slots.Keys && t.relayQueue == s.relayQueue
      && t.capacity == s.capacity && t.stopping == s.stopping
      && Backlog(t, all) <= Backlog(s, all)
    decreases |panes|
  {
    if panes != [] {
      var u := VisitPane(s, panes[0], now);
      VisitPaneFrame(s, panes[0], now);
      BacklogFrame(s, u, panes[0], all);
      hide VisitPane;
      PaneRoundFrame(u, panes[1..], all, now);
    }
  }

  lemma {:induction false} PaneRoundsDrain(s: Sched, panes: seq<PaneId>, now: int)
    requires forall p :: p in s.slots ==> p in panes
    ensures var t := PaneRounds(s, panes, now);
      && t.relayQueue == s.relayQueue && t.capacity == s.capacity && t.stopping == s.stopping
      && (s.inUse >= s.capacity || s.stopping ==> t == s)
      && (t.stopping || t.inUse >= t.capacity || forall p :: p in t.slots ==> !Runnable(t, p))
    decreases Backlog(s, panes)
  {
    if s.inUse < s.capacity && !s.stopping {
      PaneRoundProgress(s, panes, panes, now);
      var after := PaneRound(s, panes, now);
      hide PaneRound;
      if Backlog(after, panes) < Backlog(s, panes) {
        PaneRoundsDrain(after, panes, now);
      }
    }
  }

  /** `dispatch` leaves nothing runnable waiting while capacity is free. */
  lemma DispatchDrains(s: Sched, now: int)
    ensures Drained(Dispatch(s, now))
    ensures s.stopping ==> Dispatch(s, now) == s
  {
    DispatchRelayDrains(s, now);
    DispatchRelayGrows(s, now);
    forall p | p in s.slots
      ensures p in SortedPanes(s.slots.Keys)
    {
      SortedPanesListAll(s.slots.Keys, p);
    }
    PaneRoundsDrain(DispatchRelay(s, now), SortedPanes(s.slots.Keys), now);
  }

  // ---------------------------------------------------------------- nothing is queued once stopping

  lemma SupersedeUnqueued(s: Sched, p: PaneId, generation: nat)
    requires Unqueued(s)
    ensures Unqueued(Supersede(s, p, generation, ""))
  {
    SupersedeFrame(s, p, generation, "");
    hide Supersede;
  }

  lemma {:induction false} RetireGoneUnqueued(s: Sched, gone: seq<PaneId>)
    requires Unqueued(s)
    ensures Unqueued(RetireGone(s, gone))
    decreases |gone|
  {
    hide Supersede, Unqueued;
    if gone != [] {
      var p := gone[0];
      if p in s.slots {
        SupersedeUnqueued(s, p, s.slots[p].generation + 1);
        RetireGoneUnqueued(Supersede(s, p, s.slots[p].generation + 1, ""), gone[1..]);
      } else {
        RetireGoneUnqueued(s, gone[1..]);
      }
    }
  }

  lemma {:induction false} RaiseAllUnqueued(s: Sched, raised: seq<(PaneId, nat)>)
    requires Unqueued(s)
    ensures Unqueued(RaiseAll(s, raised))
    decreases |raised|
  {
    if raised != [] {
      SupersedeUnqueued(s, raised[0].0, raised[0].1);
      hide Supersede;
      RaiseAllUnqueued(RaiseOne(s, raised[0].0, raised[0].1), raised[1..]);
    }
  }

  lemma {:induction false} TimerPopsUnqueued(s: Sched, due: seq<OpId>)
    requires Unqueued(s) && s.stopping
    ensures Unqueued(TimerPops(s, due)) && TimerPops(s, due).stopping
    decreases |due|
  {
    if due != [] {
      assert !Queued(s, due[0]);
      TimerPopsUnqueued(TimerPop(s, due[0]), due[1..]);
    }
  }

  lemma {:induction false} CloseSlotsEmpties(s: Sched, panes: seq<PaneId>)
    ensures var t := CloseSlots(s, panes);
      && t.slots.Keys == s.slots.Keys
      && (forall p :: p in s.slots ==> t.slots[p].queue == if p in panes then [] else s.slots[p].queue)
    decreases |panes|
  {
    if panes != [] {
      var p := panes[0];
      assert panes == [p] + panes[1..];
      if p in s.slots {
        var emptied := s.(slots := s.slots[p := s.slots[p].(queue := [])]);
        CloseAllFrame(emptied, s.slots[p].queue);
        var closed := CloseAll(emptied, s.slots[p].queue);
        hide CloseAll;
        CloseSlotsEmpties(closed, panes[1..]);
      } else {
        CloseSlotsEmpties(s, panes[1..]);
      }
    }
  }

  lemma BeginStopUnqueues(s: Sched, panes: seq<PaneId>)
    requires Unqueued(s) && Lists(panes, s.slots.Keys)
    ensures Unqueued(BeginStop(s, panes)) && BeginStop(s, panes).stopping
  {
    BeginStopGrows(s, panes);
    if !s.stopping {
      CloseSlotsEmpties(s.(stopping := true), panes);
      var t := CloseSlots(s.(stopping := true), panes);
      CloseAllFrame(t.(relayQueue := []), t.relayQueue);
      hide CloseSlots, CloseAll;
    }
  }

  lemma UnpluggedUnqueued(s: Sched, id: OpId, result: Option<Result>, bump: bool, current: bool)
    requires Unqueued(s) && RunsOn(s.slots, OpOf(s, id).pane, id)
    ensures var t := Unplug(s, id, result, bump, current);
      Unqueued(t) && t.stopping == s.stopping && t.relayQueue == s.relayQueue
  {
    hide Superseded, ClosedPane, WithoutOlder;
  }

  lemma FinishedUnqueued(t: Sched, id: OpId, result: Option<Result>)
    requires Unqueued(t)
    ensures Unqueued(Finish(t, id, result)) && Unqueued(Stale(t.(inUse := t.inUse - 1), id))
  {
    SettledGrows(t.(inUse := t.inUse - 1), id);
    hide Stale, SettledLedger, Answers;
  }

  lemma UnplugUnqueued(s: Sched, id: OpId, result: Option<Result>, bump: bool, current: bool)
    requires Unqueued(s) && RunsOn(s.slots, OpOf(s, id).pane, id)
    ensures Unqueued(CompletePane(s, id, result, bump, current))
  {
    hide Unplug, Stale, Finish, Superseded, Unqueued;
    UnpluggedUnqueued(s, id, result, bump, current);
    FinishedUnqueued(Unplug(s, id, result, bump, current), id, result);
  }

  // ---------------------------------------------------------------- between events

  ghost predicate Between(s: Sched) {
    Inv(s, {}) && Drained(s) && Unqueued(s)
  }

  lemma DispatchBetween(s: Sched, now: int)
    requires Inv(s, {}) && Unqueued(s)
    ensures Between(Dispatch(s, now))
  {
    DispatchKeeps(s, now);
    DispatchDrains(s, now);
    DispatchGrows(s, now);
    hide Inv, Dispatch, Drained;
  }

  /** The parts of the state that decide whether work waits. */
  ghost predicate SameWork(s: Sched, t: Sched) {
    && t.slots == s.slots && t.relayQueue == s.relayQueue && t.inUse == s.inUse && t.capacity == s.capacity
    && t.stopping == s.stopping
  }

  lemma SettledWork(t: Sched, id: OpId, reply: Reply, host: OpId)
    ensures SameWork(t, Respond(t, id, reply)) && SameWork(t, Stale(t, id)) && SameWork(t, Attach(t, id, host))
  {
    hide Answers, OpOf;
  }

  lemma DecidedWork(t: Sched, id: OpId, op: Op, now: int, later: int)
    ensures var result := Decided(t, id, op, now, later);
      (!t.stopping && result == Dispatch(Enqueue(t, id), later)) || SameWork(t, result)
  {
    hide Dispatch, Enqueue, Respond, Stale, Attach;
    SettledWork(t, id, Closed, id);
    SettledWork(t, id, NotStarted, id);
    SettledWork(t, id, Conflict, id);
    if op.key in t.ledger {
      var existing := t.ledger[op.key];
      if existing.result.Some? {
        SettledWork(t, id, Replayed(existing.result.value), id);
      } else if existing.operation.Some? {
        SettledWork(t, id, Closed, existing.operation.value);
      }
    }
  }

  /** Ingress enqueues and dispatches, or leaves the work that waits alone. */
  lemma IngressWork(s: Sched, id: OpId, op: Op, victims: seq<Key>, early: int, now: int, later: int)
    ensures var t := Take(s, id, op).(ledger := Pruned(s.ledger, early, victims));
      var result := Ingress(s, id, op, victims, early, now, later);
      t.stopping == s.stopping && ((!t.stopping && result == Dispatch(Enqueue(t, id), later)) || SameWork(s, result))
  {
    hide Dispatch, Enqueue, Pruned, Decided;
    DecidedWork(Take(s, id, op).(ledger := Pruned(s.ledger, early, victims)), id, op, now, later);
  }

  lemma IngressBetween(s: Sched, id: OpId, op: Op, victims: seq<Key>, early: int, now: int, later: int)
    requires Between(s) && Fresh(s, id, op)
    ensures Between(Ingress(s, id, op, victims, early, now, later))
  {
    hide Inv, Dispatch, Enqueue, Pruned, Ingress, Take;
    IngressKeeps(s, id, op, victims, early, now, later);
    IngressWork(s, id, op, victims, early, now, later);
    var t := Take(s, id, op).(ledger := Pruned(s.ledger, early, victims));
    var result := Ingress(s, id, op, victims, early, now, later);
    if !SameWork(s, result) {
      EnqueueGrows(t, id);
      DispatchDrains(Enqueue(t, id), later);
      DispatchGrows(Enqueue(t, id), later);
      hide Drained;
    }
  }

  lemma CompleteBetween(s: Sched, id: OpId, result: Option<Result>, bump: bool, current: bool, now: int)
    requires Between(s)
    ensures Between(Complete(s, id, result, bump, current, now))
  {
    hide Inv, Dispatch, CompletePane, Drained;
    if OpOf(s, id).relay {
      if id in s.relayInFlight {
        CompleteRelayKeeps(s, id, result);
        DispatchBetween(CompleteRelay(s, id, result), now);
      }
    } else if RunsOn(s.slots, OpOf(s, id).pane, id) {
      CompletePaneKeeps(s, id, result, bump, current);
      UnplugUnqueued(s, id, result, bump, current);
      DispatchBetween(CompletePane(s, id, result, bump, current), now);
    }
  }

  lemma TopologyBetween(s: Sched, active: set<PaneId>, gone: seq<PaneId>, raised: seq<(PaneId, nat)>, now: int)
    requires Between(s)
    ensures Between(Topology(s, active, gone, raised, now))
  {
    hide Inv, RetireGone, RaiseAll, Dispatch, Drained;
    RetireGoneKeeps(s, gone);
    RaiseAllKeeps(RetireGone(s, gone), raised);
    KnownActiveKeeps(RaiseAll(RetireGone(s, gone), raised), active);
    RetireGoneUnqueued(s, gone);
    RaiseAllUnqueued(RetireGone(s, gone), raised);
    DispatchBetween(RaiseAll(RetireGone(s, gone), raised).(knownActive := active), now);
  }

  lemma TimerBetween(s: Sched, due: seq<OpId>, now: int)
    requires Between(s)
    ensures Between(Timer(s, due, now))
  {
    hide Inv, TimerPops, Dispatch, Drained;
    TimerPopsKeeps(s, due);
    TimerPopsGrows(s, due);
    if s.stopping {
      TimerPopsUnqueued(s, due);
    }
    DispatchBetween(TimerPops(s, due), now);
  }

  lemma StepBetween(s: Sched, e: Event)
    requires Between(s) && Admissible(s, e)
    ensures Between(Step(s, e))
  {
    hide Inv, Ingress, Complete, Topology, Timer, BeginStop, DueOrder, PruneOrder, Lists;
    match e
    case Request(id, op, victims, early, now, later) => IngressBetween(s, id, op, victims, early, now, later);
    case Completion(id, result, bump, current, now) => CompleteBetween(s, id, result, bump, current, now);
    case TopologyUpdate(active, gone, raised, now) => TopologyBetween(s, active, gone, raised, now);
    case LedgerUpdate(key, generation, result) =>
      UpdateLedgerKeeps(s, key, generation, result);
      assert SameWork(s, Step(s, e));
    case TimerFires(due, now, later) => TimerBetween(s, due, later);
    case CancelInflight(panes) =>
      BeginStopKeeps(s, panes);
      BeginStopUnqueues(s, panes);
    case Stop(panes) =>
      BeginStopKeeps(s, panes);
      AckedKeeps(BeginStop(s, panes));
      BeginStopUnqueues(s, panes);
  }

  lemma InitialBetween(capacity: nat)
    ensures Between(Initial(capacity))
  {
  }

  lemma {:induction false} RunBetween(s: Sched, events: seq<Event>)
    requires Between(s) && Admitted(s, events)
    ensures Between(Run(s, events))
    decreases |events|
  {
    hide Between, Step, Admissible;
    if events != [] {
      StepBetween(s, events[0]);
      RunBetween(Step(s, events[0]), events[1..]);
    }
  }

  /** The waiters of every request a run took from ingress. */
  ghost function Taken(events: seq<Event>): set<Waiter>
    decreases |events|
  {
    if events == [] then {} else Brings(events[0]) + Taken(events[1..])
  }

  lemma {:induction false} RunGrows(s: Sched, events: seq<Event>)
    requires Admitted(s, events)
    ensures var t := Run(s, events);
      s.log <= t.log && s.starts <= t.starts && t.fate.Keys == s.fate.Keys + Taken(events) && t.capacity == s.capacity
    decreases |events|
  {
    hide Step, Admissible, Brings;
    if events != [] {
      StepGrows(s, events[0]);
      RunGrows(Step(s, events[0]), events[1..]);
    }
  }
}
