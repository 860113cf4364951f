/** A started effect whose pane session was overtaken: it stays overtaken until it ends, and then every
    waiter it has gathered, early or late, hears that the outcome is unknown. */
module SchedulerOutcomes {
  import opened Options
  import opened SchedulerModel
  import opened SchedulerInvariant
  import opened SchedulerEvents
  import opened SchedulerTheorems
  import opened SchedulerGenerations
  import opened SchedulerPromises

  // ---------------------------------------------------------------- what a step leaves alone

  /** The answers added to `before` say of `id` nothing of an effect that completed. */
  ghost predicate NoCompletion(before: seq<Answer>, after: seq<Answer>, id: OpId) {
    before <= after && forall i :: |before| <= i < |after| && after[i].op == id ==> !after[i].reply.Completed?
  }

  ghost predicate HostsKept(before: map<Waiter, Fate>, after: map<Waiter, Fate>) {
    forall w :: w in before ==> w in after && after[w].op == before[w].op
  }

  ghost predicate WaitersKept(before: map<OpId, Op>, after: map<OpId, Op>, id: OpId) {
    PaneKept(before, after, id) && (id in before ==> after[id].waiters == before[id].waiters)
  }

  ghost predicate PaneKept(before: map<OpId, Op>, after: map<OpId, Op>, id: OpId) {
    id in before ==> id in after && after[id].pane == before[id].pane
  }

  /** Nothing completes for `id`, no waiter changes its host, and `id` keeps its waiters. */
  ghost predicate Calm(s: Sched, t: Sched, id: OpId) {
    NoCompletion(s.log, t.log, id) && HostsKept(s.fate, t.fate) && WaitersKept(s.ops, t.ops, id)
  }

  lemma CalmTwice(s: Sched, t: Sched, u: Sched, id: OpId)
    requires Calm(s, t, id) && Calm(t, u, id)
    ensures Calm(s, u, id)
  {
  }

  /** Only what answers are not about changes. */
  lemma ElsewhereCalm(s: Sched, t: Sched, id: OpId)
    requires t.log == s.log && t.fate == s.fate && WaitersKept(s.ops, t.ops, id)
    ensures Calm(s, t, id)
  {
  }

  lemma RespondCalm(s: Sched, other: OpId, reply: Reply, id: OpId)
    requires other != id || !reply.Completed?
    ensures Calm(s, Respond(s, other, reply), id)
  {
    RespondLog(s, other, reply);
    hide Answers;
  }

  lemma SettledCalm(s: Sched, other: OpId, id: OpId)
    ensures Calm(s, Stale(s, other), id) && Calm(s, Expire(s, other), id)
  {
    var dropped := DropKey(s.(deadlines := s.deadlines - {other}), OpOf(s, other).key);
    RespondCalm(dropped, other, StaleReply(s, other), id);
    RespondCalm(dropped, other, NotStarted, id);
    RespondCalm(DropKey(s, OpOf(s, other).key), other, NotStarted, id);
    hide Answers;
  }

  lemma {:induction false} StaleAllCalm(s: Sched, ids: seq<OpId>, id: OpId)
    ensures Calm(s, StaleAll(s, ids), id)
    decreases |ids|
  {
    hide Calm, Stale;
    if ids == [] {
      SameCalm(s, id);
    } else {
      SettledCalm(s, ids[0], id);
      StaleAllCalm(Stale(s, ids[0]), ids[1..], id);
      CalmTwice(s, Stale(s, ids[0]), StaleAll(s, ids), id);
    }
  }

  lemma SameCalm(s: Sched, id: OpId)
    ensures Calm(s, s, id)
  {
  }

  lemma {:induction false} CloseAllCalm(s: Sched, ids: seq<OpId>, id: OpId)
    ensures Calm(s, CloseAll(s, ids), id)
    decreases |ids|
  {
    hide Calm, Respond;
    if ids == [] {
      SameCalm(s, id);
    } else {
      RespondCalm(s, ids[0], Closed, id);
      CloseAllCalm(Respond(s, ids[0], Closed), ids[1..], id);
      CalmTwice(s, Respond(s, ids[0], Closed), CloseAll(s, ids), id);
    }
  }

  // ---------------------------------------------------------------- dispatch

  lemma RelayStepCalm(s: Sched, now: int, id: OpId)
    requires s.relayQueue != []
    ensures Calm(s, RelayStep(s, now), id)
  {
    var first := s.relayQueue[0];
    var popped := s.(relayQueue := s.relayQueue[1..]);
    ElsewhereCalm(s, popped, id);
    SettledCalm(popped, first, id);
    hide Expire, HostsKept, NoCompletion;
    ElsewhereCalm(popped, StartRelay(popped, first), id);
    hide Calm;
    CalmTwice(s, popped, RelayStep(s, now), id);
  }

  lemma {:induction false} DispatchRelayCalm(s: Sched, now: int, id: OpId)
    ensures Calm(s, DispatchRelay(s, now), id)
    decreases |s.relayQueue|
  {
    hide Calm, RelayStep;
    if s.relayQueue == [] || s.inUse >= s.capacity || s.stopping {
      SameCalm(s, id);
    } else {
      RelayStepCalm(s, now, id);
      RelayStepGrows(s, now);
      DispatchRelayCalm(RelayStep(s, now), now, id);
      CalmTwice(s, RelayStep(s, now), DispatchRelay(s, now), id);
    }
  }

  lemma VisitPaneCalm(s: Sched, p: PaneId, now: int, id: OpId)
    ensures Calm(s, VisitPane(s, p, now), id)
  {
    if s.inUse >= s.capacity || !Runnable(s, p) {
      SameCalm(s, id);
    } else {
      var first := s.slots[p].queue[0];
      var popped := PopPane(s, p);
      ElsewhereCalm(s, popped, id);
      SettledCalm(popped, first, id);
      hide Stale, Expire, HostsKept, NoCompletion;
      ElsewhereCalm(popped, StartPane(popped, p, first), id);
      hide Calm;
      CalmTwice(s, popped, VisitPane(s, p, now), id);
    }
  }

  lemma {:induction false} PaneRoundCalm(s: Sched, panes: seq<PaneId>, now: int, id: OpId)
    ensures Calm(s, PaneRound(s, panes, now), id)
    decreases |panes|
  {
    hide Calm, VisitPane;
    if panes == [] {
      SameCalm(s, id);
    } else {
      VisitPaneCalm(s, panes[0], now, id);
      PaneRoundCalm(VisitPane(s, panes[0], now), panes[1..], now, id);
      CalmTwice(s, VisitPane(s, panes[0], now), PaneRound(s, panes, now), id);
    }
  }

  lemma {:induction false} PaneRoundsCalm(s: Sched, panes: seq<PaneId>, now: int, id: OpId)
    ensures Calm(s, PaneRounds(s, panes, now), id)
    decreases Backlog(s, panes)
  {
    hide Calm, PaneRound;
    if s.inUse >= s.capacity || s.stopping {
      SameCalm(s, id);
    } else {
      var after := PaneRound(s, panes, now);
      PaneRoundCalm(s, panes, now, id);
      if Backlog(after, panes) < Backlog(s, panes) {
        PaneRoundsCalm(after, panes, now, id);
        CalmTwice(s, after, PaneRounds(s, panes, now), id);
      }
    }
  }

  lemma DispatchCalm(s: Sched, now: int, id: OpId)
    ensures Calm(s, Dispatch(s, now), id)
  {
    hide Calm, DispatchRelay, PaneRounds;
    var t := DispatchRelay(s, now);
    DispatchRelayCalm(s, now, id);
    PaneRoundsCalm(t, SortedPanes(s.slots.Keys), now, id);
    CalmTwice(s, t, Dispatch(s, now), id);
  }

  // ---------------------------------------------------------------- the other cases

  lemma SupersedeCalm(s: Sched, p: PaneId, generation: nat, keep: Key, id: OpId)
    ensures Calm(s, Supersede(s, p, generation, keep), id)
  {
    var emptied := s.(slots := s.slots[p := SlotOf(s, p).(generation := generation, queue := [])]);
    var answered := StaleAll(emptied, SlotOf(s, p).queue);
    ElsewhereCalm(s, emptied, id);
    StaleAllCalm(emptied, SlotOf(s, p).queue, id);
    hide StaleAll, WithoutOlder;
    ElsewhereCalm(answered, Supersede(s, p, generation, keep), id);
    hide Calm;
    CalmTwice(s, emptied, answered, id);
    CalmTwice(s, answered, Supersede(s, p, generation, keep), id);
  }

  lemma EnqueuePaneCalm(s: Sched, next: OpId, id: OpId)
    requires next != id
    ensures Calm(s, EnqueuePane(s, next), id)
  {
    var op := OpOf(s, next);
    var raised := if op.admitted > SlotOf(s, op.pane).generation then Supersede(s, op.pane, op.admitted, op.key)
      else s.(slots := s.slots[op.pane := SlotOf(s, op.pane)]);
    SupersedeCalm(s, op.pane, op.admitted, op.key, id);
    ElsewhereCalm(s, s.(slots := s.slots[op.pane := SlotOf(s, op.pane)]), id);
    hide Supersede, InsertBySequence, HostsKept, NoCompletion;
    ElsewhereCalm(raised, StampAndInsert(raised, next), id);
    hide Calm, StampAndInsert;
    CalmTwice(s, raised, StampAndInsert(raised, next), id);
  }

  lemma EnqueueCalm(s: Sched, next: OpId, id: OpId)
    requires next != id
    ensures Calm(s, Enqueue(s, next), id)
  {
    var r := Record(s, next);
    ElsewhereCalm(s, r, id);
    ElsewhereCalm(r, EnqueueRelay(r, next), id);
    EnqueuePaneCalm(r, next, id);
    hide Calm, EnqueuePane, EnqueueRelay;
    CalmTwice(s, r, Enqueue(s, next), id);
  }

  lemma {:induction false} RetireGoneCalm(s: Sched, gone: seq<PaneId>, id: OpId)
    ensures Calm(s, RetireGone(s, gone), id)
    decreases |gone|
  {
    hide Calm, Supersede;
    if gone == [] {
      SameCalm(s, id);
    } else if gone[0] in s.slots {
      var t := Supersede(s, gone[0], s.slots[gone[0]].generation + 1, "");
      SupersedeCalm(s, gone[0], s.slots[gone[0]].generation + 1, "", id);
      RetireGoneCalm(t, gone[1..], id);
      CalmTwice(s, t, RetireGone(s, gone), id);
    } else {
      RetireGoneCalm(s, gone[1..], id);
    }
  }

  lemma RaiseOneCalm(s: Sched, p: PaneId, generation: nat, id: OpId)
    ensures Calm(s, RaiseOne(s, p, generation), id)
  {
    SupersedeCalm(s, p, generation, "", id);
    ElsewhereCalm(s, s.(slots := s.slots[p := SlotOf(s, p)]), id);
    hide Supersede, Calm;
  }

  lemma {:induction false} RaiseAllCalm(s: Sched, raised: seq<(PaneId, nat)>, id: OpId)
    ensures Calm(s, RaiseAll(s, raised), id)
    decreases |raised|
  {
    hide Calm, RaiseOne;
    if raised == [] {
      SameCalm(s, id);
    } else {
      var t := RaiseOne(s, raised[0].0, raised[0].1);
      RaiseOneCalm(s, raised[0].0, raised[0].1, id);
      RaiseAllCalm(t, raised[1..], id);
      CalmTwice(s, t, RaiseAll(s, raised), id);
    }
  }

  lemma TopologyCalm(s: Sched, active: set<PaneId>, gone: seq<PaneId>, raised: seq<(PaneId, nat)>, now: int, id: OpId)
    ensures Calm(s, Topology(s, active, gone, raised, now), id)
  {
    var t := RetireGone(s, gone);
    var u := RaiseAll(t, raised);
    RetireGoneCalm(s, gone, id);
    RaiseAllCalm(t, raised, id);
    hide RetireGone, RaiseAll, Dispatch;
    ElsewhereCalm(u, u.(knownActive := active), id);
    DispatchCalm(u.(knownActive := active), now, id);
    hide Calm;
    CalmTwice(s, t, u, id);
    CalmTwice(s, u, u.(knownActive := active), id);
    CalmTwice(s, u.(knownActive := active), Topology(s, active, gone, raised, now), id);
  }

  lemma TimerPopCalm(s: Sched, other: OpId, id: OpId)
    ensures Calm(s, TimerPop(s, other), id)
  {
    var popped := s.(deadlines := s.deadlines - {other});
    var removed := Unqueue(popped, other);
    hide RemoveOp;
    ElsewhereCalm(s, popped, id);
    ElsewhereCalm(s, removed, id);
    SettledCalm(removed, other, id);
    hide Calm, Expire, Unqueue, Queued;
    CalmTwice(s, removed, Expire(removed, other), id);
  }

  lemma {:induction false} TimerPopsCalm(s: Sched, due: seq<OpId>, id: OpId)
    ensures Calm(s, TimerPops(s, due), id)
    decreases |due|
  {
    hide Calm, TimerPop;
    if due == [] {
      SameCalm(s, id);
    } else {
      TimerPopCalm(s, due[0], id);
      TimerPopsCalm(TimerPop(s, due[0]), due[1..], id);
      CalmTwice(s, TimerPop(s, due[0]), TimerPops(s, due), id);
    }
  }

  lemma TimerCalm(s: Sched, due: seq<OpId>, now: int, id: OpId)
    ensures Calm(s, Timer(s, due, now), id)
  {
    hide Calm, TimerPops, Dispatch;
    TimerPopsCalm(s, due, id);
    DispatchCalm(TimerPops(s, due), now, id);
    CalmTwice(s, TimerPops(s, due), Timer(s, due, now), id);
  }

  lemma {:induction false} CloseSlotsCalm(s: Sched, panes: seq<PaneId>, id: OpId)
    ensures Calm(s, CloseSlots(s, panes), id)
    decreases |panes|
  {
    if panes == [] {
      SameCalm(s, id);
    } else if panes[0] !in s.slots {
      hide Calm;
      CloseSlotsCalm(s, panes[1..], id);
    } else {
      var p := panes[0];
      var emptied := s.(slots := s.slots[p := s.slots[p].(queue := [])]);
      var closed := CloseAll(emptied, s.slots[p].queue);
      ElsewhereCalm(s, emptied, id);
      hide Calm, CloseAll;
      CloseAllCalm(emptied, s.slots[p].queue, id);
      CloseSlotsCalm(closed, panes[1..], id);
      CalmTwice(s, emptied, closed, id);
      CalmTwice(s, closed, CloseSlots(s, panes), id);
    }
  }

  lemma BeginStopCalm(s: Sched, panes: seq<PaneId>, id: OpId)
    ensures Calm(s, BeginStop(s, panes), id)
  {
    if s.stopping {
      SameCalm(s, id);
    } else {
      var stopping := s.(stopping := true);
      var t := CloseSlots(stopping, panes);
      ElsewhereCalm(s, stopping, id);
      ElsewhereCalm(t, t.(relayQueue := []), id);
      hide Calm, CloseSlots, CloseAll;
      CloseSlotsCalm(stopping, panes, id);
      CloseAllCalm(t.(relayQueue := []), t.relayQueue, id);
      CalmTwice(s, stopping, t, id);
      CalmTwice(s, t, t.(relayQueue := []), id);
      CalmTwice(s, t.(relayQueue := []), BeginStop(s, panes), id);
    }
  }

  // ---------------------------------------------------------------- the end of an effect

  lemma FinishCalm(s: Sched, other: OpId, result: Option<Result>, id: OpId)
    requires other != id
    ensures Calm(s, Finish(s, other, result), id)
  {
    var t := s.(inUse := s.inUse - 1, deadlines := s.deadlines - {other},
                ledger := SettledLedger(s.ledger, OpOf(s, other).key, result));
    hide SettledLedger, Respond;
    ElsewhereCalm(s, t, id);
    RespondCalm(t, other, Completed(result), id);
    hide Calm;
    CalmTwice(s, t, Finish(s, other, result), id);
  }

  /** An effect that is behind is superseded when it ends, whatever the validator says. */
  lemma BehindIsSuperseded(s: Sched, id: OpId, current: bool)
    requires Inv(s, {}) && Behind(s, id, true) && RunsOn(s.slots, OpOf(s, id).pane, id)
    ensures Superseded(s, OpOf(s, id).pane, current)
  {
    assert SlotShape(s.ops, s.live, {}, s.ops[id].pane, s.slots[s.ops[id].pane]);
    hide Fates, LedgerOk, Counted, Timed, Honest, StartsOk, AllLocated, RelayShape, SlotsShape, Ordered;
  }

  lemma UnplugCalm(s: Sched, other: OpId, result: Option<Result>, bump: bool, current: bool, id: OpId)
    requires RunsOn(s.slots, OpOf(s, other).pane, other)
    ensures Calm(s, Unplug(s, other, result, bump, current), id)
  {
    hide WithoutOlder, Superseded, ClosedPane;
    ElsewhereCalm(s, Unplug(s, other, result, bump, current), id);
  }

  lemma FreedCalm(s: Sched, other: OpId, id: OpId)
    ensures Calm(s, Stale(s.(inUse := s.inUse - 1), other), id)
  {
    hide Stale;
    ElsewhereCalm(s, s.(inUse := s.inUse - 1), id);
    SettledCalm(s.(inUse := s.inUse - 1), other, id);
    hide Calm;
    CalmTwice(s, s.(inUse := s.inUse - 1), Stale(s.(inUse := s.inUse - 1), other), id);
  }

  lemma CompletePaneCalm(s: Sched, other: OpId, result: Option<Result>, bump: bool, current: bool, id: OpId)
    requires RunsOn(s.slots, OpOf(s, other).pane, other)
    requires other == id ==> Superseded(s, OpOf(s, id).pane, current)
    ensures Calm(s, CompletePane(s, other, result, bump, current), id)
  {
    hide Calm, Unplug, Superseded, Stale, Finish;
    var t := Unplug(s, other, result, bump, current);
    UnplugCalm(s, other, result, bump, current, id);
    FreedCalm(t, other, id);
    if other != id {
      FinishCalm(t, other, result, id);
    }
    CalmTwice(s, t, CompletePane(s, other, result, bump, current), id);
  }

  lemma CompleteCalm(s: Sched, other: OpId, result: Option<Result>, bump: bool, current: bool, now: int, id: OpId)
    requires !OpOf(s, id).relay
    requires other == id && RunsOn(s.slots, OpOf(s, id).pane, id) ==> Superseded(s, OpOf(s, id).pane, current)
    ensures Calm(s, Complete(s, other, result, bump, current, now), id)
  {
    SameCalm(s, id);
    hide Calm, CompletePane, CompleteRelay, Dispatch, Superseded;
    if OpOf(s, other).relay {
      if other in s.relayInFlight {
        var t := s.(relayInFlight := s.relayInFlight - {other});
        var u := CompleteRelay(s, other, result);
        ElsewhereCalm(s, t, id);
        FinishCalm(t, other, result, id);
        RelayUnfolds(s, other, result);
        CalmTwice(s, t, u, id);
        DispatchCalm(u, now, id);
        CalmTwice(s, u, Dispatch(u, now), id);
      }
    } else if RunsOn(s.slots, OpOf(s, other).pane, other) {
      var t := CompletePane(s, other, result, bump, current);
      CompletePaneCalm(s, other, result, bump, current, id);
      DispatchCalm(t, now, id);
      CalmTwice(s, t, Dispatch(t, now), id);
    }
  }

  // ---------------------------------------------------------------- every step

  /** Every waiter the operation has gathered is, or was, its own. */
  ghost predicate Hosted(s: Sched, id: OpId) {
    id in s.ops && forall k :: 0 <= k < |s.ops[id].waiters| ==>
      s.ops[id].waiters[k].waiter in s.fate && s.fate[s.ops[id].waiters[k].waiter].op == id
  }

  lemma CalmHosts(s: Sched, t: Sched, id: OpId)
    requires Calm(s, t, id) && Hosted(s, id)
    ensures Hosted(t, id)
  {
    hide NoCompletion;
  }

  lemma LiveHosts(s: Sched, id: OpId)
    requires Inv(s, {}) && id in s.live
    ensures Hosted(s, id)
  {
    hide RelayShape, SlotsShape, AllLocated, LedgerOk, Counted, Timed, Honest, StartsOk, WaitingOk, ToldOk, LogOk;
  }

  /** A step says of the operation no more than that its outcome is unknown, and its waiters stay its
      own. */
  ghost predicate Outcome(s: Sched, t: Sched, id: OpId) {
    NoCompletion(s.log, t.log, id) && PaneKept(s.ops, t.ops, id) && (Hosted(s, id) ==> Hosted(t, id))
  }

  lemma CalmOutcome(s: Sched, t: Sched, id: OpId)
    requires Calm(s, t, id)
    ensures Outcome(s, t, id)
  {
    if Hosted(s, id) {
      CalmHosts(s, t, id);
    }
    hide Hosted, HostsKept, WaitersKept;
  }

  lemma TakeCalm(s: Sched, next: OpId, op: Op, ledger: map<Key, Entry>, id: OpId)
    requires Fresh(s, next, op) && next != id
    ensures Calm(s, Take(s, next, op).(ledger := ledger), id)
  {
  }

  /** Joining another operation is calm for this one. */
  lemma JoinCalm(s: Sched, taken: Sched, next: OpId, host: OpId, id: OpId)
    requires Calm(s, taken, id) && next != id && host != id && next in taken.ops && host in taken.ops && host != next
    requires forall w :: w in s.fate ==> w in taken.fate && !(taken.fate[w].Waiting? && taken.fate[w].op == next)
    ensures Calm(s, Attach(taken, next, host), id)
  {
    AttachWaiters(taken, next, host);
    hide Attach;
  }

  /** Joining this operation says nothing of it. */
  lemma JoinQuiet(s: Sched, taken: Sched, next: OpId, id: OpId)
    requires Calm(s, taken, id) && next != id && next in taken.ops && id in taken.ops
    ensures var u := Attach(taken, next, id); NoCompletion(s.log, u.log, id) && PaneKept(s.ops, u.ops, id)
  {
    AttachWaiters(taken, next, id);
    hide Attach, HostsKept;
  }

  /** A duplicate joins an operation under way: it may be this one, which then is still live. */
  lemma AttachOutcome(s: Sched, taken: Sched, next: OpId, host: OpId, id: OpId)
    requires Calm(s, taken, id) && next != id && id in taken.ops && host in taken.live && next in taken.ops && host in taken.ops
    requires host != next && Inv(Attach(taken, next, host), {})
    requires forall w :: w in s.fate ==> w in taken.fate && !(taken.fate[w].Waiting? && taken.fate[w].op == next)
    ensures Outcome(s, Attach(taken, next, host), id)
  {
    var u := Attach(taken, next, host);
    hide Inv, Hosted, Calm;
    if host == id {
      JoinQuiet(s, taken, next, id);
      assert id in u.live;
      hide Attach, NoCompletion, PaneKept;
      LiveHosts(u, id);
    } else {
      hide Attach;
      JoinCalm(s, taken, next, host, id);
      CalmOutcome(s, u, id);
    }
  }

  lemma FreshHasNoWaiters(s: Sched, next: OpId, op: Op, ledger: map<Key, Entry>)
    requires Inv(s, {}) && Fresh(s, next, op)
    ensures var taken := Take(s, next, op).(ledger := ledger);
      forall w :: w in s.fate ==> w in taken.fate && !(taken.fate[w].Waiting? && taken.fate[w].op == next)
  {
    hide RelayShape, SlotsShape, AllLocated, LedgerOk, Counted, Timed, Honest, StartsOk, AttachedOk, ToldOk, LogOk;
  }

  lemma DecidedCalm(t: Sched, next: OpId, op: Op, now: int, later: int, id: OpId)
    requires next != id
    ensures var u := Decided(t, next, op, now, later);
      || Calm(t, u, id)
      || (!t.stopping && op.key in t.ledger && t.ledger[op.key].result.None? && t.ledger[op.key].operation.Some? &&
          u == Attach(t, next, t.ledger[op.key].operation.value))
  {
    hide Calm, Respond, Stale, Attach, Dispatch, Enqueue;
    SameCalm(t, id);
    SettledCalm(t, next, id);
    RespondCalm(t, next, Closed, id);
    RespondCalm(t, next, NotStarted, id);
    RespondCalm(t, next, Conflict, id);
    if op.key in t.ledger && t.ledger[op.key].result.Some? {
      RespondCalm(t, next, Replayed(t.ledger[op.key].result.value), id);
    }
    EnqueueCalm(t, next, id);
    DispatchCalm(Enqueue(t, next), later, id);
    CalmTwice(t, Enqueue(t, next), Dispatch(Enqueue(t, next), later), id);
  }

  /** The host a duplicate would join is under way and not the duplicate itself. */
  lemma HostIsLive(s: Sched, next: OpId, op: Op, victims: seq<Key>, early: int)
    requires Inv(s, {}) && Fresh(s, next, op) && !s.stopping
    requires op.key in Pruned(s.ledger, early, victims) && Pruned(s.ledger, early, victims)[op.key].operation.Some?
    ensures var host := Pruned(s.ledger, early, victims)[op.key].operation.value;
      host in s.live && host in s.ops && host != next
  {
    PrunedIsPart(s.ledger, early, victims);
    assert EntryOk(s.ops, s.live, s.stopping, op.key, s.ledger[op.key]);
    hide RelayShape, SlotsShape, AllLocated, Fates, LedgerOk, Counted, Timed, Honest, StartsOk, Pruned;
  }

  lemma IngressOutcome(s: Sched, next: OpId, op: Op, victims: seq<Key>, early: int, now: int, later: int, id: OpId)
    requires Inv(s, {}) && Fresh(s, next, op) && id in s.ops
    ensures Outcome(s, Ingress(s, next, op, victims, early, now, later), id)
  {
    var ledger := Pruned(s.ledger, early, victims);
    var taken := Take(s, next, op).(ledger := ledger);
    var u := Ingress(s, next, op, victims, early, now, later);
    hide Inv, Calm, Outcome, Pruned, Decided;
    TakeCalm(s, next, op, ledger, id);
    DecidedCalm(taken, next, op, now, later, id);
    if Calm(taken, u, id) {
      CalmTwice(s, taken, u, id);
      CalmOutcome(s, u, id);
    } else {
      HostIsLive(s, next, op, victims, early);
      IngressKeeps(s, next, op, victims, early, now, later);
      FreshHasNoWaiters(s, next, op, ledger);
      AttachOutcome(s, taken, next, ledger[op.key].operation.value, id);
    }
  }

  lemma StepOutcome(s: Sched, e: Event, id: OpId)
    requires Inv(s, {}) && Admissible(s, e) && Behind(s, id, true)
    ensures Outcome(s, Step(s, e), id)
  {
    assert id in s.ops && !OpOf(s, id).relay;
    hide Inv, Calm, Outcome, Superseded, Ingress, Complete, Topology, Timer, BeginStop, PruneOrder, DueOrder, Lists, Behind;
    match e
    case Request(next, op, victims, early, now, later) => IngressOutcome(s, next, op, victims, early, now, later, id);
    case Completion(other, result, bump, current, now) =>
      if other == id && RunsOn(s.slots, OpOf(s, id).pane, id) {
        BehindIsSuperseded(s, id, current);
      }
      CompleteCalm(s, other, result, bump, current, now, id);
      CalmOutcome(s, Step(s, e), id);
    case TopologyUpdate(active, gone, raised, now) =>
      TopologyCalm(s, active, gone, raised, now, id);
      CalmOutcome(s, Step(s, e), id);
    case LedgerUpdate(key, generation, result) =>
      ElsewhereCalm(s, Step(s, e), id);
      CalmOutcome(s, Step(s, e), id);
    case TimerFires(due, now, later) =>
      TimerCalm(s, due, later, id);
      CalmOutcome(s, Step(s, e), id);
    case CancelInflight(panes) =>
      BeginStopCalm(s, panes, id);
      CalmOutcome(s, Step(s, e), id);
    case Stop(panes) =>
      var t := BeginStop(s, panes);
      BeginStopCalm(s, panes, id);
      ElsewhereCalm(t, Step(s, e), id);
      CalmTwice(s, t, Step(s, e), id);
      CalmOutcome(s, Step(s, e), id);
  }

  lemma OutcomeTwice(s: Sched, t: Sched, u: Sched, id: OpId)
    requires Outcome(s, t, id) && Outcome(t, u, id)
    ensures Outcome(s, u, id)
  {
    hide Hosted;
  }

  lemma {:induction false} RunOutcome(s: Sched, events: seq<Event>, id: OpId)
    requires Between(s) && Admitted(s, events) && Behind(s, id, true)
    ensures Outcome(s, Run(s, events), id)
    decreases |events|
  {
    if events != [] {
      var t := Step(s, events[0]);
      StepOutcome(s, events[0], id);
      StepDooms(s, events[0], id, true);
      StepBetween(s, events[0]);
      hide Between, Behind, Step, Outcome;
      RunOutcome(t, events[1..], id);
      OutcomeTwice(s, t, Run(s, events), id);
    }
  }

  // ---------------------------------------------------------------- the promise

  /** The effect runs, and its slot has moved past the generation it was started with. */
  ghost predicate Overtaken(s: Sched, p: PaneId, id: OpId) {
    RunsOn(s.slots, p, id) && s.slots[p].inFlight.value.generation < s.slots[p].generation
  }

  lemma OvertakenIsBehind(s: Sched, p: PaneId, id: OpId)
    requires Inv(s, {}) && Overtaken(s, p, id)
    ensures Behind(s, id, true) && id in s.live && OpOf(s, id).pane == p
  {
    assert SlotShape(s.ops, s.live, {}, p, s.slots[p]);
    hide Fates, LedgerOk, Counted, Timed, Honest, StartsOk, AllLocated, RelayShape, SlotsShape, Ordered;
  }

  lemma StillOvertaken(s: Sched, id: OpId)
    requires Inv(s, {}) && Behind(s, id, true) && id in s.live
    ensures Overtaken(s, s.ops[id].pane, id)
  {
    assert Located(s, id);
    assert SlotShape(s.ops, s.live, {}, s.ops[id].pane, s.slots[s.ops[id].pane]);
    hide Fates, LedgerOk, Counted, Timed, Honest, StartsOk, AllLocated, RelayShape, SlotsShape, Ordered;
  }

  /** Whatever is still said of an operation that is behind is that its outcome is unknown. */
  lemma SaidUnknown(s: Sched, t: Sched, id: OpId)
    requires Outcome(s, t, id) && Inv(t, {}) && Behind(t, id, true)
    ensures forall i :: |s.log| <= i < |t.log| && t.log[i].op == id ==> t.log[i].reply == DispatchedUnknown
  {
    hide RelayShape, SlotsShape, AllLocated, LedgerOk, Counted, Timed, Fates, StartsOk, Hosted;
  }

  /** Each waiter of an operation that has ended has exactly one answer, and the operation gave it. */
  lemma EndedAnswers(t: Sched, id: OpId, k: nat)
    requires Inv(t, {}) && id !in t.live && Hosted(t, id) && k < |t.ops[id].waiters|
    ensures var w := t.ops[id].waiters[k].waiter;
      exists i :: 0 <= i < |t.log| && t.log[i].waiter == w && t.log[i].op == id &&
                  forall j :: 0 <= j < |t.log| && j != i ==> t.log[j].waiter != w
  {
    var w := t.ops[id].waiters[k].waiter;
    hide RelayShape, SlotsShape, AllLocated, LedgerOk, Counted, Timed, Honest, StartsOk, AttachedOk;
    assert t.fate[w].Told?;
    var i := t.fate[w].index;
    assert t.log[i].waiter == w && t.log[i].op == id;
  }

  /** The waiter has exactly one answer: the operation's outcome is unknown. */
  ghost predicate ToldUnknown(log: seq<Answer>, w: Waiter, id: OpId) {
    HeardOnly(log, w, id, DispatchedUnknown)
  }

  lemma NotYetAnswered(s: Sched, id: OpId)
    requires Inv(s, {}) && id in s.live
    ensures forall i :: 0 <= i < |s.log| ==> s.log[i].op != id
  {
    hide RelayShape, SlotsShape, AllLocated, LedgerOk, Counted, Timed, Fates, StartsOk;
  }

  /** An operation of which only unknown outcomes were said, and which has ended, has told exactly that
      to every waiter it gathered. */
  lemma AllToldUnknown(s: Sched, t: Sched, id: OpId)
    requires Inv(s, {}) && id in s.live && Inv(t, {}) && id !in t.live && Outcome(s, t, id) && s.log <= t.log
    requires forall i :: |s.log| <= i < |t.log| && t.log[i].op == id ==> t.log[i].reply == DispatchedUnknown
    ensures id in t.ops && forall k :: 0 <= k < |t.ops[id].waiters| ==> ToldUnknown(t.log, t.ops[id].waiters[k].waiter, id)
  {
    LiveHosts(s, id);
    NotYetAnswered(s, id);
    hide Inv;
    forall k | 0 <= k < |t.ops[id].waiters|
      ensures ToldUnknown(t.log, t.ops[id].waiters[k].waiter, id)
    {
      EndedAnswers(t, id, k);
      hide Hosted, NoCompletion;
    }
  }

  /** A started effect that was overtaken stays overtaken until it ends: from then on the loop says of
      it only that the outcome is unknown, and once it has ended every waiter it gathered, late
      attachments included, has exactly that answer. At exit it has ended. */
  lemma OvertakenIsUnknown(capacity: nat, before: seq<Event>, after: seq<Event>, p: PaneId, id: OpId)
    requires Admitted(Initial(capacity), before)
    requires Admitted(Run(Initial(capacity), before), after) && Overtaken(Run(Initial(capacity), before), p, id)
    ensures var s := Run(Initial(capacity), before);
      var t := Run(s, after);
      && (forall i :: |s.log| <= i < |t.log| && t.log[i].op == id ==> t.log[i].reply == DispatchedUnknown)
      && (id in t.live ==> Overtaken(t, p, id))
      && id in t.ops
      && (id !in t.live ==> forall k :: 0 <= k < |t.ops[id].waiters| ==> ToldUnknown(t.log, t.ops[id].waiters[k].waiter, id))
      && (Exited(t) ==> id !in t.live)
  {
    var s := Run(Initial(capacity), before);
    var t := Run(s, after);
    InitialBetween(capacity);
    RunBetween(Initial(capacity), before);
    RunBetween(s, after);
    hide Run;
    OvertakenIsBehind(s, p, id);
    RunDooms(s, after, id, true);
    RunOutcome(s, after, id);
    SaidUnknown(s, t, id);
    assert id in s.ops && id in t.ops && t.ops[id].pane == p;
    if Exited(t) {
      NothingLeft(t);
    }
    hide Drained, Unqueued;
    if id in t.live {
      StillOvertaken(t, id);
    } else {
      hide Inv, Behind;
      AllToldUnknown(s, t, id);
    }
  }

  lemma RunningPaneOp(s: Sched, p: PaneId, id: OpId)
    requires Inv(s, {}) && RunsOn(s.slots, p, id)
    ensures id in s.live && id in s.ops && !s.ops[id].relay && s.ops[id].dispatched
  {
    assert SlotShape(s.ops, s.live, {}, p, s.slots[p]);
    hide Fates, LedgerOk, Counted, Timed, Honest, StartsOk, AllLocated, RelayShape, SlotsShape, Ordered;
  }

  lemma StaleEnds(s: Sched, id: OpId, result: Option<Result>, bump: bool, current: bool)
    requires RunsOn(s.slots, OpOf(s, id).pane, id) && Superseded(s, OpOf(s, id).pane, current)
    ensures var t := CompletePane(s, id, result, bump, current); id !in t.live && t.ops == s.ops
  {
    hide WithoutOlder, Superseded, Answers;
  }

  /** Once its effect has ended an operation is behind for good: there is nothing of it left to start. */
  lemma InvalidatedEnds(s: Sched, e: Event)
    requires Inv(s, {}) && e.Completion? && !e.current && RunsOn(s.slots, OpOf(s, e.id).pane, e.id)
    ensures Behind(Step(s, e), e.id, true) && Calm(s, Step(s, e), e.id) && e.id !in Step(s, e).live
  {
    var id := e.id;
    RunningPaneOp(s, OpOf(s, id).pane, id);
    var t := CompletePane(s, id, e.result, e.bump, e.current);
    StaleEnds(s, id, e.result, e.bump, e.current);
    CompletePaneKeeps(s, id, e.result, e.bump, e.current);
    CompleteCalm(s, id, e.result, e.bump, e.current, e.now, id);
    hide Inv, Calm, CompletePane, Dispatch;
    assert Step(s, e) == Dispatch(t, e.now);
    DispatchDooms(t, e.now, id, true);
    DispatchLive(t, e.now);
  }

  /** Dispatch brings nothing to life. */
  lemma DispatchLive(s: Sched, now: int)
    ensures Dispatch(s, now).live <= s.live
  {
    DispatchRelayLive(s, now);
    PaneRoundsLive(DispatchRelay(s, now), SortedPanes(s.slots.Keys), now);
  }

  lemma {:induction false} DispatchRelayLive(s: Sched, now: int)
    ensures DispatchRelay(s, now).live <= s.live
    decreases |s.relayQueue|
  {
    if s.relayQueue != [] && s.inUse < s.capacity && !s.stopping {
      RelayStepGrows(s, now);
      assert RelayStep(s, now).live <= s.live;
      hide RelayStep;
      DispatchRelayLive(RelayStep(s, now), now);
    }
  }

  lemma {:induction false} PaneRoundLive(s: Sched, panes: seq<PaneId>, now: int)
    ensures PaneRound(s, panes, now).live <= s.live
    decreases |panes|
  {
    if panes != [] {
      VisitPaneLive(s, panes[0], now);
      hide VisitPane;
      PaneRoundLive(VisitPane(s, panes[0], now), panes[1..], now);
    }
  }

  lemma VisitPaneLive(s: Sched, p: PaneId, now: int)
    ensures VisitPane(s, p, now).live <= s.live
  {
    hide Answers;
  }

  lemma {:induction false} PaneRoundsLive(s: Sched, panes: seq<PaneId>, now: int)
    ensures PaneRounds(s, panes, now).live <= s.live
    decreases Backlog(s, panes)
  {
    hide PaneRound;
    if s.inUse < s.capacity && !s.stopping {
      var after := PaneRound(s, panes, now);
      PaneRoundLive(s, panes, now);
      if Backlog(after, panes) < Backlog(s, panes) {
        PaneRoundsLive(after, panes, now);
      }
    }
  }

  lemma ToldStays(u: Sched, t: Sched, w: Waiter, id: OpId)
    requires ToldUnknown(u.log, w, id) && u.log <= t.log && Inv(t, {})
    ensures ToldUnknown(t.log, w, id)
  {
    assert LogOk(t.fate, t.log);
    hide Inv;
    var i :| 0 <= i < |u.log| && u.log[i].waiter == w && u.log[i].op == id && u.log[i].reply == DispatchedUnknown;
    assert t.log[i] == u.log[i];
  }

  lemma CalmFacts(s: Sched, t: Sched, id: OpId)
    requires Calm(s, t, id) && id in s.ops
    ensures id in t.ops && t.ops[id].waiters == s.ops[id].waiters
  {
  }

  lemma OutcomeFacts(s: Sched, t: Sched, id: OpId)
    requires Outcome(s, t, id)
    ensures s.log <= t.log
  {
  }

  lemma EndIsAdmissible(s: Sched, e: Event)
    requires e.Completion?
    ensures Admissible(s, e)
  {
  }

  /** The end itself: everyone is told, and nothing else was said. */
  lemma InvalidatedTells(s: Sched, e: Event)
    requires Between(s) && e.Completion? && !e.current && RunsOn(s.slots, OpOf(s, e.id).pane, e.id)
    ensures var u := Step(s, e);
      && Inv(u, {}) && Behind(u, e.id, true) && Outcome(s, u, e.id) && e.id in s.live
      && e.id in s.ops && e.id in u.ops && u.ops[e.id].waiters == s.ops[e.id].waiters
      && forall k :: 0 <= k < |u.ops[e.id].waiters| ==> ToldUnknown(u.log, u.ops[e.id].waiters[k].waiter, e.id)
  {
    var id, u := e.id, Step(s, e);
    hide Step, Drained, Unqueued, Inv, Behind, Calm, Outcome, RunsOn, Admissible, ToldUnknown;
    EndIsAdmissible(s, e);
    StepBetween(s, e);
    RunningPaneOp(s, OpOf(s, id).pane, id);
    InvalidatedEnds(s, e);
    CalmFacts(s, u, id);
    CalmOutcome(s, u, id);
    OutcomeFacts(s, u, id);
    SaidUnknown(s, u, id);
    AllToldUnknown(s, u, id);
  }

  /** Nothing else is said of an operation from the time it was live to a state where it is behind. */
  ghost predicate OnlyUnknown(log: seq<Answer>, id: OpId) {
    forall i :: 0 <= i < |log| && log[i].op == id ==> log[i].reply == DispatchedUnknown
  }

  lemma SaidOnlyUnknown(s: Sched, t: Sched, id: OpId)
    requires Inv(s, {}) && id in s.live && Inv(t, {}) && Behind(t, id, true) && Outcome(s, t, id)
    ensures OnlyUnknown(t.log, id)
  {
    hide Inv, Behind;
    SaidUnknown(s, t, id);
    NotYetAnswered(s, id);
    OutcomeFacts(s, t, id);
    hide Outcome;
  }

  lemma AllStillTold(u: Sched, t: Sched, id: OpId)
    requires u.log <= t.log && Inv(t, {}) && id in u.ops
    requires forall k :: 0 <= k < |u.ops[id].waiters| ==> ToldUnknown(u.log, u.ops[id].waiters[k].waiter, id)
    ensures forall k :: 0 <= k < |u.ops[id].waiters| ==> ToldUnknown(t.log, u.ops[id].waiters[k].waiter, id)
  {
    hide Inv, ToldUnknown;
    forall k | 0 <= k < |u.ops[id].waiters|
      ensures ToldUnknown(t.log, u.ops[id].waiters[k].waiter, id)
    {
      ToldStays(u, t, u.ops[id].waiters[k].waiter, id);
    }
  }

  lemma InvalidatedFrom(s: Sched, e: Event, after: seq<Event>)
    requires Between(s) && e.Completion? && !e.current && RunsOn(s.slots, OpOf(s, e.id).pane, e.id)
    requires Admitted(Step(s, e), after)
    ensures var t := Run(Step(s, e), after);
      && OnlyUnknown(t.log, e.id) && e.id in s.ops
      && forall k :: 0 <= k < |s.ops[e.id].waiters| ==> ToldUnknown(t.log, s.ops[e.id].waiters[k].waiter, e.id)
  {
    var id, u := e.id, Step(s, e);
    var t := Run(u, after);
    hide Run, Step, Drained, Unqueued, Inv, Behind, Outcome, RunsOn, Admissible, ToldUnknown, Admitted, OnlyUnknown;
    EndIsAdmissible(s, e);
    InvalidatedTells(s, e);
    StepBetween(s, e);
    RunBetween(u, after);
    RunDooms(u, after, id, true);
    RunOutcome(u, after, id);
    OutcomeFacts(u, t, id);
    OutcomeTwice(s, u, t, id);
    SaidOnlyUnknown(s, t, id);
    AllStillTold(u, t, id);
  }

  /** The same for an effect that ends when the generation validator no longer vouches for its session:
      its own result reaches nobody. */
  lemma InvalidatedIsUnknown(capacity: nat, before: seq<Event>, e: Event, after: seq<Event>)
    requires Admitted(Initial(capacity), before)
    requires var s := Run(Initial(capacity), before);
      && e.Completion? && !e.current && RunsOn(s.slots, OpOf(s, e.id).pane, e.id)
      && Admitted(Step(s, e), after)
    ensures var s := Run(Initial(capacity), before);
      var t := Run(Step(s, e), after);
      && OnlyUnknown(t.log, e.id) && e.id in s.ops
      && forall k :: 0 <= k < |s.ops[e.id].waiters| ==> ToldUnknown(t.log, s.ops[e.id].waiters[k].waiter, e.id)
  {
    hide Between, Step, RunsOn, ToldUnknown;
    InitialBetween(capacity);
    RunBetween(Initial(capacity), before);
    InvalidatedFrom(Run(Initial(capacity), before), e, after);
  }
}
