/** Work queued for a pane session that has been superseded never starts, in any continuation of
    the run: not after further topology updates, completions, timers or a reused pane id. */
module SchedulerGenerations {
  import opened Options
  import opened SchedulerModel
  import opened SchedulerInvariant
  import opened SchedulerEvents
  import opened SchedulerTheorems

  /** A pane operation that, as long as it is unanswered, is behind a newer generation of its slot. */
  ghost predicate Behind(s: Sched, id: OpId, started: bool) {
    && id in s.ops && !s.ops[id].relay && s.ops[id].dispatched == started
    && (id in s.live ==> s.ops[id].pane in s.slots && s.ops[id].admitted < s.slots[s.ops[id].pane].generation)
  }

  lemma SettledDooms(s: Sched, t: Sched, id: OpId, started: bool)
    requires Behind(s, id, started) && OnlySettled(s, t)
    ensures Behind(t, id, started)
  {
  }

  /** Slots whose generation only rises keep an operation doomed. */
  lemma RaisedDooms(s: Sched, id: OpId, p: PaneId, slot: Slot, started: bool)
    requires Behind(s, id, started) && slot.generation >= SlotOf(s, p).generation
    ensures Behind(s.(slots := s.slots[p := slot]), id, started)
  {
  }

  lemma RelayStepDooms(s: Sched, now: int, id: OpId, started: bool)
    requires Inv(s, {}) && s.relayQueue != [] && Behind(s, id, started)
    ensures Behind(RelayStep(s, now), id, started)
  {
    var first := s.relayQueue[0];
    assert s.ops[first].relay;
    hide Inv, Expire;
    var popped := s.(relayQueue := s.relayQueue[1..]);
    SettledGrows(popped, first);
    SettledDooms(popped, Expire(popped, first), id, started);
  }

  lemma {:induction false} DispatchRelayDooms(s: Sched, now: int, id: OpId, started: bool)
    requires Inv(s, {}) && Behind(s, id, started)
    ensures Behind(DispatchRelay(s, now), id, started)
    decreases |s.relayQueue|
  {
    hide Inv, Behind;
    if s.relayQueue != [] && s.inUse < s.capacity && !s.stopping {
      RelayStepDooms(s, now, id, started);
      RelayStepKeeps(s, now);
      DispatchRelayDooms(RelayStep(s, now), now, id, started);
    }
  }

  lemma HeadIsStamped(s: Sched, p: PaneId)
    requires Inv(s, {}) && Runnable(s, p)
    ensures var first := s.slots[p].queue[0];
      first in s.live && first in s.ops && s.ops[first].pane == p && s.ops[first].generation == s.ops[first].admitted
  {
    assert SlotShape(s.ops, s.live, {}, p, s.slots[p]);
    hide RelayShape, SlotsShape, AllLocated, Fates, LedgerOk, Counted, Timed, Honest, StartsOk, Ordered;
  }

  /** The heart of the matter: only an operation of the slot's own generation is started. */
  lemma VisitPaneDooms(s: Sched, p: PaneId, now: int, id: OpId, started: bool)
    requires Inv(s, {}) && Behind(s, id, started)
    ensures Behind(VisitPane(s, p, now), id, started)
  {
    if s.inUse < s.capacity && Runnable(s, p) {
      var first := s.slots[p].queue[0];
      HeadIsStamped(s, p);
      hide Inv, Stale, Expire;
      var popped := PopPane(s, p);
      SettledGrows(popped, first);
      SettledDooms(popped, Stale(popped, first), id, started);
      SettledDooms(popped, Expire(popped, first), id, started);
    }
  }

  lemma {:induction false} PaneRoundDooms(s: Sched, panes: seq<PaneId>, now: int, id: OpId, started: bool)
    requires Inv(s, {}) && Behind(s, id, started)
    ensures Behind(PaneRound(s, panes, now), id, started)
    decreases |panes|
  {
    hide Inv, Behind, VisitPane;
    if panes != [] {
      VisitPaneDooms(s, panes[0], now, id, started);
      VisitPaneKeeps(s, panes[0], now);
      PaneRoundDooms(VisitPane(s, panes[0], now), panes[1..], now, id, started);
    }
  }

  lemma {:induction false} PaneRoundsDooms(s: Sched, panes: seq<PaneId>, now: int, id: OpId, started: bool)
    requires Inv(s, {}) && Behind(s, id, started)
    ensures Behind(PaneRounds(s, panes, now), id, started)
    decreases Backlog(s, panes)
  {
    hide Inv, Behind, PaneRound;
    if s.inUse < s.capacity && !s.stopping {
      var after := PaneRound(s, panes, now);
      PaneRoundDooms(s, panes, now, id, started);
      PaneRoundKeeps(s, panes, now);
      if Backlog(after, panes) < Backlog(s, panes) {
        PaneRoundsDooms(after, panes, now, id, started);
      }
    }
  }

  lemma DispatchDooms(s: Sched, now: int, id: OpId, started: bool)
    requires Inv(s, {}) && Behind(s, id, started)
    ensures Behind(Dispatch(s, now), id, started)
  {
    hide Inv, Behind;
    DispatchRelayDooms(s, now, id, started);
    DispatchRelayKeeps(s, now);
    PaneRoundsDooms(DispatchRelay(s, now), SortedPanes(s.slots.Keys), now, id, started);
  }

  lemma SupersedeDooms(s: Sched, p: PaneId, generation: nat, keep: Key, id: OpId, started: bool)
    requires Behind(s, id, started) && generation >= SlotOf(s, p).generation
    ensures Behind(Supersede(s, p, generation, keep), id, started)
  {
    SupersedeFrame(s, p, generation, keep);
    var t := Supersede(s, p, generation, keep);
    hide Supersede;
    RaisedDooms(s, id, p, t.slots[p], started);
    SettledDooms(s.(slots := t.slots), t, id, started);
  }

  lemma EnqueueDooms(s: Sched, next: OpId, id: OpId, started: bool)
    requires Behind(s, id, started) && next != id && next in s.ops
    ensures Behind(Enqueue(s, next), id, started)
  {
    var r := Record(s, next);
    assert Behind(r, id, started);
    var op := OpOf(r, next);
    if !op.relay {
      if op.admitted > SlotOf(r, op.pane).generation {
        SupersedeDooms(r, op.pane, op.admitted, op.key, id, started);
        SupersedeFrame(r, op.pane, op.admitted, op.key);
        hide Supersede;
        StampDooms(Supersede(r, op.pane, op.admitted, op.key), next, id, started);
      } else {
        StampDooms(r.(slots := r.slots[op.pane := SlotOf(r, op.pane)]), next, id, started);
      }
    }
  }

  lemma StampDooms(s: Sched, next: OpId, id: OpId, started: bool)
    requires Behind(s, id, started) && next != id
    ensures Behind(StampAndInsert(s, next), id, started)
  {
    hide InsertBySequence;
  }

  lemma IngressEnqueues(s: Sched, next: OpId, op: Op, victims: seq<Key>, early: int, now: int, later: int)
    requires var t := Take(s, next, op).(ledger := Pruned(s.ledger, early, victims)); EnqueuesHere(t, next, op, now)
    ensures var t := Take(s, next, op).(ledger := Pruned(s.ledger, early, victims));
      Ingress(s, next, op, victims, early, now, later) == Dispatch(Enqueue(t, next), later)
  {
    hide Dispatch, Enqueue, Pruned, Respond;
  }

  lemma EnqueueBranchDooms(s: Sched, next: OpId, op: Op, now: int, later: int, id: OpId, started: bool)
    requires Inv(s, {next}) && OpOf(s, next) == op && !op.dispatched && EnqueuesHere(s, next, op, now)
    requires Behind(s, id, started) && next != id && next in s.ops
    ensures Behind(Dispatch(Enqueue(s, next), later), id, started)
  {
    hide Inv, Dispatch, Enqueue;
    EnqueueKeeps(s, next);
    EnqueueDooms(s, next, id, started);
    DispatchDooms(Enqueue(s, next), later, id, started);
  }

  lemma IngressDooms(s: Sched, next: OpId, op: Op, victims: seq<Key>, early: int, now: int, later: int, id: OpId, started: bool)
    requires Inv(s, {}) && Fresh(s, next, op) && Behind(s, id, started)
    ensures Behind(Ingress(s, next, op, victims, early, now, later), id, started)
  {
    hide Inv, Dispatch, Enqueue, Pruned, Ingress, EnqueuesHere;
    var t := Take(s, next, op).(ledger := Pruned(s.ledger, early, victims));
    NoEmptyKey(s, early, victims);
    if EnqueuesHere(t, next, op, now) {
      TakeKeeps(s, next, op);
      PruneKeeps(Take(s, next, op), {next}, early, victims);
      IngressEnqueues(s, next, op, victims, early, now, later);
      EnqueueBranchDooms(t, next, op, now, later, id, started);
    } else {
      QuietIngressDooms(s, next, op, victims, early, now, later, id, started);
    }
  }

  lemma NoEmptyKey(s: Sched, now: int, victims: seq<Key>)
    requires Inv(s, {})
    ensures "" !in Pruned(s.ledger, now, victims)
  {
    PrunedIsPart(s.ledger, now, victims);
    assert "" !in s.ledger;
  }

  ghost predicate EnqueuesHere(t: Sched, next: OpId, op: Op, now: int) {
    && !t.stopping && now < op.deadline
    && !(!op.relay && op.pane in t.slots && op.admitted < t.slots[op.pane].generation)
    && op.key !in t.ledger
  }

  lemma QuietIngressDooms(s: Sched, next: OpId, op: Op, victims: seq<Key>, early: int, now: int, later: int, id: OpId, started: bool)
    requires Fresh(s, next, op) && Behind(s, id, started)
    requires !EnqueuesHere(Take(s, next, op).(ledger := Pruned(s.ledger, early, victims)), next, op, now)
    requires "" !in Pruned(s.ledger, early, victims)
    ensures Behind(Ingress(s, next, op, victims, early, now, later), id, started)
  {
    hide Dispatch, Enqueue, Pruned, Respond;
    var t := Take(s, next, op).(ledger := Pruned(s.ledger, early, victims));
    assert Behind(t, id, started);
    forall reply {:trigger Respond(t, next, reply)} | true
      ensures Behind(Respond(t, next, reply), id, started)
    {
      RespondDooms(t, next, reply, id, started);
    }
    RespondDooms(DropKey(t.(deadlines := t.deadlines - {next}), op.key), next, StaleReply(t, next), id, started);
  }

  lemma RespondDooms(s: Sched, other: OpId, reply: Reply, id: OpId, started: bool)
    requires Behind(s, id, started)
    ensures Behind(Respond(s, other, reply), id, started)
  {
  }

  lemma CompleteDooms(s: Sched, other: OpId, result: Option<Result>, bump: bool, current: bool, now: int, id: OpId, started: bool)
    requires Inv(s, {}) && Behind(s, id, started)
    ensures Behind(Complete(s, other, result, bump, current, now), id, started)
  {
    hide Inv, Dispatch, CompleteRelay, CompletePane;
    if OpOf(s, other).relay {
      if other in s.relayInFlight {
        FinishDooms(s.(relayInFlight := s.relayInFlight - {other}), other, result, id, started);
        assert Behind(CompleteRelay(s, other, result), id, started) by { RelayUnfolds(s, other, result); }
        CompleteRelayKeeps(s, other, result);
        DispatchDooms(CompleteRelay(s, other, result), now, id, started);
      }
    } else if RunsOn(s.slots, OpOf(s, other).pane, other) {
      CompletePaneDooms(s, other, result, bump, current, id, started);
      CompletePaneKeeps(s, other, result, bump, current);
      DispatchDooms(CompletePane(s, other, result, bump, current), now, id, started);
    }
  }

  lemma RelayUnfolds(s: Sched, other: OpId, result: Option<Result>)
    ensures CompleteRelay(s, other, result) == Finish(s.(relayInFlight := s.relayInFlight - {other}), other, result)
  {
  }

  lemma FinishDooms(s: Sched, other: OpId, result: Option<Result>, id: OpId, started: bool)
    requires Behind(s, id, started)
    ensures Behind(Finish(s, other, result), id, started)
  {
    hide SettledLedger, Respond;
    RespondDooms(
      s.(inUse := s.inUse - 1, deadlines := s.deadlines - {other},
         ledger := SettledLedger(s.ledger, OpOf(s, other).key, result)),
      other, Completed(result), id, started);
  }

  /** A slot is only forgotten when its queue is empty, and its record cleared only by the record's own
      end, so never under another operation that waits or runs there. */
  lemma UnplugDooms(s: Sched, other: OpId, result: Option<Result>, bump: bool, current: bool, id: OpId, started: bool)
    requires Behind(s, id, started) && RunsOn(s.slots, OpOf(s, other).pane, other) && other != id
    requires id in s.live ==> id in SlotOf(s, s.ops[id].pane).queue || RunsOn(s.slots, s.ops[id].pane, id)
    ensures Behind(Unplug(s, other, result, bump, current), id, started)
  {
    hide WithoutOlder, Superseded, ClosedPane;
  }

  lemma StaysInSlot(s: Sched, id: OpId, started: bool)
    requires Inv(s, {}) && Behind(s, id, started) && id in s.live
    ensures id in SlotOf(s, s.ops[id].pane).queue || RunsOn(s.slots, s.ops[id].pane, id)
  {
    assert Located(s, id);
  }

  /** The end of the operation's own effect takes it out of the loop. */
  lemma OwnEndDooms(s: Sched, result: Option<Result>, bump: bool, current: bool, id: OpId, started: bool)
    requires Behind(s, id, started) && RunsOn(s.slots, OpOf(s, id).pane, id)
    ensures Behind(CompletePane(s, id, result, bump, current), id, started)
  {
    hide WithoutOlder, Superseded, ClosedPane, SettledLedger, Answers, StaleReply;
  }

  lemma OtherEndDooms(s: Sched, other: OpId, result: Option<Result>, bump: bool, current: bool, id: OpId, started: bool)
    requires Inv(s, {}) && Behind(s, id, started) && RunsOn(s.slots, OpOf(s, other).pane, other) && other != id
    ensures Behind(Unplug(s, other, result, bump, current), id, started)
  {
    if id in s.live {
      StaysInSlot(s, id, started);
    }
    hide Inv, Unplug;
    UnplugDooms(s, other, result, bump, current, id, started);
  }

  lemma CompletePaneDooms(s: Sched, other: OpId, result: Option<Result>, bump: bool, current: bool, id: OpId, started: bool)
    requires Inv(s, {}) && Behind(s, id, started) && RunsOn(s.slots, OpOf(s, other).pane, other)
    ensures Behind(CompletePane(s, other, result, bump, current), id, started)
  {
    if other == id {
      hide Inv, CompletePane;
      OwnEndDooms(s, result, bump, current, id, started);
    } else {
      OtherEndDooms(s, other, result, bump, current, id, started);
      hide Inv, Behind, Unplug, Finish, Stale, Superseded;
      var t := Unplug(s, other, result, bump, current);
      FinishDooms(t, other, result, id, started);
      FreedDooms(t, other, id, started);
    }
  }

  lemma FreedDooms(s: Sched, other: OpId, id: OpId, started: bool)
    requires Behind(s, id, started)
    ensures Behind(Stale(s.(inUse := s.inUse - 1), other), id, started)
  {
    hide Stale;
    var freed := s.(inUse := s.inUse - 1);
    SettledGrows(freed, other);
    SettledDooms(freed, Stale(freed, other), id, started);
  }

  lemma {:induction false} RetireGoneDooms(s: Sched, gone: seq<PaneId>, id: OpId, started: bool)
    requires Behind(s, id, started)
    ensures Behind(RetireGone(s, gone), id, started)
    decreases |gone|
  {
    hide Behind, Supersede;
    if gone != [] {
      var p := gone[0];
      if p in s.slots {
        SupersedeDooms(s, p, s.slots[p].generation + 1, "", id, started);
        RetireGoneDooms(Supersede(s, p, s.slots[p].generation + 1, ""), gone[1..], id, started);
      } else {
        RetireGoneDooms(s, gone[1..], id, started);
      }
    }
  }

  lemma {:induction false} RaiseAllDooms(s: Sched, raised: seq<(PaneId, nat)>, id: OpId, started: bool)
    requires Behind(s, id, started)
    ensures Behind(RaiseAll(s, raised), id, started)
    decreases |raised|
  {
    hide Supersede;
    if raised != [] {
      var p, generation := raised[0].0, raised[0].1;
      if generation > SlotOf(s, p).generation {
        SupersedeDooms(s, p, generation, "", id, started);
      } else {
        RaisedDooms(s, id, p, SlotOf(s, p), started);
      }
      hide Behind;
      RaiseAllDooms(RaiseOne(s, p, generation), raised[1..], id, started);
    }
  }

  lemma TimerPopDooms(s: Sched, other: OpId, id: OpId, started: bool)
    requires Behind(s, id, started)
    ensures Behind(TimerPop(s, other), id, started)
  {
    hide Expire, RemoveOp;
    var removed := Unqueue(s.(deadlines := s.deadlines - {other}), other);
    if Queued(s, other) {
      assert Behind(removed, id, started);
      SettledGrows(removed, other);
      SettledDooms(removed, Expire(removed, other), id, started);
    }
  }

  lemma {:induction false} TimerPopsDooms(s: Sched, due: seq<OpId>, id: OpId, started: bool)
    requires Behind(s, id, started)
    ensures Behind(TimerPops(s, due), id, started)
    decreases |due|
  {
    hide Behind, TimerPop;
    if due != [] {
      TimerPopDooms(s, due[0], id, started);
      TimerPopsDooms(TimerPop(s, due[0]), due[1..], id, started);
    }
  }

  lemma {:induction false} CloseSlotsDooms(s: Sched, panes: seq<PaneId>, id: OpId, started: bool)
    requires Behind(s, id, started)
    ensures Behind(CloseSlots(s, panes), id, started)
    decreases |panes|
  {
    if panes != [] {
      var p := panes[0];
      if p in s.slots {
        var emptied := s.(slots := s.slots[p := s.slots[p].(queue := [])]);
        CloseAllFrame(emptied, s.slots[p].queue);
        SettledDooms(emptied, CloseAll(emptied, s.slots[p].queue), id, started);
        hide Behind, CloseAll;
        CloseSlotsDooms(CloseAll(emptied, s.slots[p].queue), panes[1..], id, started);
      } else {
        CloseSlotsDooms(s, panes[1..], id, started);
      }
    }
  }

  lemma BeginStopDooms(s: Sched, panes: seq<PaneId>, id: OpId, started: bool)
    requires Behind(s, id, started)
    ensures Behind(BeginStop(s, panes), id, started)
  {
    CloseSlotsDooms(s.(stopping := true), panes, id, started);
    var t := CloseSlots(s.(stopping := true), panes);
    hide CloseSlots;
    CloseAllFrame(t.(relayQueue := []), t.relayQueue);
    SettledDooms(t.(relayQueue := []), CloseAll(t.(relayQueue := []), t.relayQueue), id, started);
  }

  lemma StepDooms(s: Sched, e: Event, id: OpId, started: bool)
    requires Inv(s, {}) && Admissible(s, e) && Behind(s, id, started)
    ensures Behind(Step(s, e), id, started)
  {
    hide Inv, Ingress, Complete, RetireGone, RaiseAll, TimerPops, Dispatch, BeginStop;
    match e
    case Request(next, op, victims, early, now, later) => IngressDooms(s, next, op, victims, early, now, later, id, started);
    case Completion(other, result, bump, current, now) => CompleteDooms(s, other, result, bump, current, now, id, started);
    case TopologyUpdate(active, gone, raised, now) =>
      RetireGoneDooms(s, gone, id, started);
      RaiseAllDooms(RetireGone(s, gone), raised, id, started);
      RetireGoneKeeps(s, gone);
      RaiseAllKeeps(RetireGone(s, gone), raised);
      KnownActiveKeeps(RaiseAll(RetireGone(s, gone), raised), active);
      DispatchDooms(RaiseAll(RetireGone(s, gone), raised).(knownActive := active), now, id, started);
    case LedgerUpdate(key, generation, result) =>
    case TimerFires(due, now, later) =>
      TimerPopsDooms(s, due, id, started);
      TimerPopsKeeps(s, due);
      DispatchDooms(TimerPops(s, due), later, id, started);
    case CancelInflight(panes) => BeginStopDooms(s, panes, id, started);
    case Stop(panes) => BeginStopDooms(s, panes, id, started);
  }

  lemma {:induction false} RunDooms(s: Sched, events: seq<Event>, id: OpId, started: bool)
    requires Between(s) && Admitted(s, events) && Behind(s, id, started)
    ensures Behind(Run(s, events), id, started)
    decreases |events|
  {
    if events != [] {
      StepDooms(s, events[0], id, started);
      StepBetween(s, events[0]);
      hide Between, Behind, Step;
      RunDooms(Step(s, events[0]), events[1..], id, started);
    }
  }

  /** An operation that waits in a slot whose generation has moved past the one it was admitted
      for is never started, whatever the rest of the run brings. */
  lemma SupersededNeverStarts(capacity: nat, before: seq<Event>, after: seq<Event>, id: OpId)
    requires Admitted(Initial(capacity), before)
    requires var s := Run(Initial(capacity), before);
      && Admitted(s, after)
      && id in s.live && !OpOf(s, id).relay && !OpOf(s, id).dispatched
      && OpOf(s, id).admitted < SlotOf(s, OpOf(s, id).pane).generation
    ensures !WasStarted(Run(Run(Initial(capacity), before), after).starts, id)
  {
    var s := Run(Initial(capacity), before);
    InitialBetween(capacity);
    RunBetween(Initial(capacity), before);
    RunBetween(s, after);
    hide Run;
    RunDooms(s, after, id, false);
    assert Behind(Run(s, after), id, false);
    NeverStarted(Run(s, after), id);
  }

  lemma NeverStarted(s: Sched, id: OpId)
    requires Inv(s, {}) && Behind(s, id, false)
    ensures !WasStarted(s.starts, id)
  {
  }
}
