/** Deadlines and shutdown: no effect starts once its deadline has passed, what has expired hears that it
    was not started, and what is queued when the loop stops hears that it is closed. */
module SchedulerDeadlines {
  import opened Options
  import opened SchedulerModel
  import opened SchedulerInvariant
  import opened SchedulerEvents
  import opened SchedulerTheorems
  import opened SchedulerGenerations
  import opened SchedulerPromises
  import opened SchedulerAnswers
  import opened SchedulerHistory

  // ---------------------------------------------------------------- a dispatch pass

  /** The operation is for a pane session that is over. */
  ghost predicate SessionOver(ops: map<OpId, Op>, slots: map<PaneId, Slot>, id: OpId) {
    id in ops && !ops[id].relay && ops[id].pane in slots && ops[id].admitted < slots[ops[id].pane].generation
  }

  /** What a dispatch pass at time `now` says: an operation was not started because its deadline has
      passed, or replaced because its session is over. */
  ghost predicate SaysRightly(ops: map<OpId, Op>, slots: map<PaneId, Slot>, now: int, a: Answer) {
    || (a.reply == NotStarted && a.op in ops && now >= ops[a.op].deadline)
    || (a.reply == PaneReplaced && SessionOver(ops, slots, a.op))
  }

  ghost predicate LogRight(ops: map<OpId, Op>, slots: map<PaneId, Slot>, now: int, before: seq<Answer>, after: seq<Answer>) {
    before <= after && forall i :: |before| <= i < |after| ==> SaysRightly(ops, slots, now, after[i])
  }

  ghost predicate StartsRight(ops: map<OpId, Op>, now: int, before: seq<Start>, after: seq<Start>) {
    before <= after && forall i :: |before| <= i < |after| ==> after[i].op in ops && now < ops[after[i].op].deadline
  }

  /** Operations keep their terms, and slots their generations. */
  ghost predicate SameTerms(before: map<OpId, Op>, after: map<OpId, Op>) {
    before.Keys == after.Keys && forall id :: id in before ==>
      && after[id].relay == before[id].relay && after[id].pane == before[id].pane
      && after[id].admitted == before[id].admitted && after[id].deadline == before[id].deadline
  }

  ghost predicate SameGenerations(before: map<PaneId, Slot>, after: map<PaneId, Slot>) {
    before.Keys == after.Keys && forall p :: p in before ==> after[p].generation == before[p].generation
  }

  ghost predicate Punctual(s: Sched, t: Sched, now: int) {
    && SameTerms(s.ops, t.ops) && SameGenerations(s.slots, t.slots)
    && LogRight(s.ops, s.slots, now, s.log, t.log) && StartsRight(s.ops, now, s.starts, t.starts)
  }

  lemma SamePunctual(s: Sched, now: int)
    ensures Punctual(s, s, now)
  {
  }

  lemma PunctualTwice(s: Sched, t: Sched, u: Sched, now: int)
    requires Punctual(s, t, now) && Punctual(t, u, now)
    ensures Punctual(s, u, now)
  {
  }

  /** An operation off its queue is answered. */
  lemma AnsweredPunctual(s: Sched, t: Sched, id: OpId, reply: Reply, now: int)
    requires t == s.(slots := t.slots, relayQueue := t.relayQueue) && SameGenerations(s.slots, t.slots)
    requires forall a: Answer :: a.op == id && a.reply == reply ==> SaysRightly(s.ops, s.slots, now, a)
    ensures Punctual(s, Respond(DropKey(t.(deadlines := t.deadlines - {id}), OpOf(t, id).key), id, reply), now)
  {
    RespondLog(DropKey(t.(deadlines := t.deadlines - {id}), OpOf(t, id).key), id, reply);
    hide Answers, SameGenerations, SaysRightly;
  }

  lemma ExpiredPunctual(s: Sched, t: Sched, id: OpId, now: int)
    requires t == s.(slots := t.slots, relayQueue := t.relayQueue) && SameGenerations(s.slots, t.slots)
    requires id in s.ops && now >= s.ops[id].deadline
    ensures Punctual(s, Expire(t, id), now)
  {
    hide Punctual, SameGenerations, SessionOver, Respond;
    AnsweredPunctual(s, t, id, NotStarted, now);
  }

  lemma StalePunctual(s: Sched, t: Sched, id: OpId, now: int)
    requires t == s.(slots := t.slots, relayQueue := t.relayQueue) && SameGenerations(s.slots, t.slots)
    requires SessionOver(s.ops, s.slots, id) && !OpOf(s, id).dispatched
    ensures Punctual(s, Stale(t, id), now)
  {
    hide Punctual, SameGenerations, SessionOver, Respond;
    AnsweredPunctual(s, t, id, PaneReplaced, now);
  }

  lemma StartedPunctual(s: Sched, t: Sched, start: Start, now: int)
    requires t.log == s.log && t.starts == s.starts + [start] && SameTerms(s.ops, t.ops) && SameGenerations(s.slots, t.slots)
    requires start.op in s.ops && now < s.ops[start.op].deadline
    ensures Punctual(s, t, now)
  {
    hide SameTerms, SameGenerations;
  }

  lemma StartRelayPunctual(s: Sched, id: OpId, now: int)
    requires s.relayQueue != [] && id in s.ops && now < s.ops[id].deadline
    ensures Punctual(s, StartRelay(s.(relayQueue := s.relayQueue[1..]), id), now)
  {
    hide Punctual;
    StartedPunctual(s, StartRelay(s.(relayQueue := s.relayQueue[1..]), id), Start(id, s.ops[id].pane, 0, 0), now);
  }

  lemma RelayStepPunctual(s: Sched, now: int)
    requires Inv(s, {}) && s.relayQueue != []
    ensures Punctual(s, RelayStep(s, now), now)
  {
    HeadWaits(s);
    var id, popped := s.relayQueue[0], s.(relayQueue := s.relayQueue[1..]);
    hide Inv, Punctual, Expire, StartRelay;
    if now >= s.ops[id].deadline {
      ExpiredPunctual(s, popped, id, now);
    } else {
      StartRelayPunctual(s, id, now);
    }
  }

  lemma {:induction false} DispatchRelayPunctual(s: Sched, now: int)
    requires Inv(s, {})
    ensures Punctual(s, DispatchRelay(s, now), now)
    decreases |s.relayQueue|
  {
    hide Inv, Punctual, RelayStep;
    if s.relayQueue == [] || s.inUse >= s.capacity || s.stopping {
      SamePunctual(s, now);
    } else {
      RelayStepPunctual(s, now);
      RelayStepKeeps(s, now);
      RelayStepGrows(s, now);
      DispatchRelayPunctual(RelayStep(s, now), now);
      PunctualTwice(s, RelayStep(s, now), DispatchRelay(s, now), now);
    }
  }

  lemma HeadIsWaiting(s: Sched, p: PaneId)
    requires Inv(s, {}) && Runnable(s, p)
    ensures var id := s.slots[p].queue[0];
      && id in s.ops && !s.ops[id].dispatched && !s.ops[id].relay && s.ops[id].pane == p
      && (s.ops[id].generation != s.slots[p].generation ==> SessionOver(s.ops, s.slots, id))
  {
    assert SlotShape(s.ops, s.live, {}, p, s.slots[p]);
    hide RelayShape, SlotsShape, AllLocated, Fates, LedgerOk, Counted, Timed, Honest, StartsOk, Ordered;
  }

  lemma StartPanePunctual(s: Sched, p: PaneId, id: OpId, now: int)
    requires Runnable(s, p) && id in s.ops && now < s.ops[id].deadline
    ensures Punctual(s, StartPane(PopPane(s, p), p, id), now)
  {
    hide Punctual;
    StartedPunctual(s, StartPane(PopPane(s, p), p, id),
      Start(id, s.ops[id].pane, s.slots[p].generation, s.slots[p].generation), now);
  }

  lemma VisitPanePunctual(s: Sched, p: PaneId, now: int)
    requires Inv(s, {})
    ensures Punctual(s, VisitPane(s, p, now), now)
  {
    if s.inUse >= s.capacity || !Runnable(s, p) {
      hide Inv;
      SamePunctual(s, now);
    } else {
      var id, popped := s.slots[p].queue[0], PopPane(s, p);
      HeadIsWaiting(s, p);
      hide Inv, Punctual, Stale, Expire, StartPane, SessionOver;
      if s.ops[id].generation != s.slots[p].generation {
        StalePunctual(s, popped, id, now);
      } else if now >= s.ops[id].deadline {
        ExpiredPunctual(s, popped, id, now);
      } else {
        StartPanePunctual(s, p, id, now);
      }
    }
  }

  lemma {:induction false} PaneRoundPunctual(s: Sched, panes: seq<PaneId>, now: int)
    requires Inv(s, {})
    ensures Punctual(s, PaneRound(s, panes, now), now)
    decreases |panes|
  {
    hide Inv, Punctual, VisitPane;
    if panes == [] {
      SamePunctual(s, now);
    } else {
      VisitPanePunctual(s, panes[0], now);
      VisitPaneKeeps(s, panes[0], now);
      PaneRoundPunctual(VisitPane(s, panes[0], now), panes[1..], now);
      PunctualTwice(s, VisitPane(s, panes[0], now), PaneRound(s, panes, now), now);
    }
  }

  lemma {:induction false} PaneRoundsPunctual(s: Sched, panes: seq<PaneId>, now: int)
    requires Inv(s, {})
    ensures Punctual(s, PaneRounds(s, panes, now), now)
    decreases Backlog(s, panes)
  {
    hide Inv, Punctual, PaneRound;
    if s.inUse >= s.capacity || s.stopping {
      SamePunctual(s, now);
    } else {
      var after := PaneRound(s, panes, now);
      PaneRoundPunctual(s, panes, now);
      PaneRoundKeeps(s, panes, now);
      if Backlog(after, panes) < Backlog(s, panes) {
        PaneRoundsPunctual(after, panes, now);
        PunctualTwice(s, after, PaneRounds(s, panes, now), now);
      }
    }
  }

  /** A dispatch pass starts only what is before its deadline; it says "not started" only of what is past
      it, "replaced" only of what belongs to a session that is over, and nothing else. */
  lemma DispatchPunctual(s: Sched, now: int)
    requires Inv(s, {})
    ensures Punctual(s, Dispatch(s, now), now)
  {
    hide Inv, Punctual, DispatchRelay, PaneRounds;
    var t := DispatchRelay(s, now);
    DispatchRelayPunctual(s, now);
    DispatchRelayKeeps(s, now);
    PaneRoundsPunctual(t, SortedPanes(s.slots.Keys), now);
    PunctualTwice(s, t, Dispatch(s, now), now);
  }

  // ---------------------------------------------------------------- what starts in an event

  /** The clock reading of the event's dispatch. */
  ghost function Clock(e: Event): int {
    match e
    case Request(_, _, _, _, _, later) => later
    case Completion(_, _, _, _, now) => now
    case TopologyUpdate(_, _, _, now) => now
    case TimerFires(_, _, later) => later
    case _ => 0
  }

  ghost predicate StartsNothing(s: Sched, t: Sched) {
    t.starts == s.starts
  }

  lemma SupersedeStartsNothing(s: Sched, p: PaneId, generation: nat, keep: Key)
    ensures StartsNothing(s, Supersede(s, p, generation, keep))
  {
    SupersedeFrame(s, p, generation, keep);
    hide Supersede;
  }

  lemma EnqueueStartsNothing(s: Sched, id: OpId)
    ensures StartsNothing(s, Enqueue(s, id))
  {
    var r := Record(s, id);
    var op := OpOf(r, id);
    SupersedeStartsNothing(r, op.pane, op.admitted, op.key);
    hide Supersede, InsertBySequence;
  }

  lemma CompletionStartsNothing(s: Sched, id: OpId, result: Option<Result>, bump: bool, current: bool)
    ensures StartsNothing(s, CompleteRelay(s, id, result))
    ensures RunsOn(s.slots, OpOf(s, id).pane, id) ==> StartsNothing(s, CompletePane(s, id, result, bump, current))
  {
    hide Answers, SettledLedger, WithoutOlder, Superseded, ClosedPane;
  }

  lemma {:induction false} RetireGoneStartsNothing(s: Sched, gone: seq<PaneId>)
    ensures StartsNothing(s, RetireGone(s, gone))
    decreases |gone|
  {
    hide Supersede;
    if gone != [] {
      if gone[0] in s.slots {
        SupersedeStartsNothing(s, gone[0], s.slots[gone[0]].generation + 1, "");
        RetireGoneStartsNothing(Supersede(s, gone[0], s.slots[gone[0]].generation + 1, ""), gone[1..]);
      } else {
        RetireGoneStartsNothing(s, gone[1..]);
      }
    }
  }

  lemma {:induction false} RaiseAllStartsNothing(s: Sched, raised: seq<(PaneId, nat)>)
    ensures StartsNothing(s, RaiseAll(s, raised))
    decreases |raised|
  {
    if raised != [] {
      SupersedeStartsNothing(s, raised[0].0, raised[0].1, "");
      hide Supersede;
      RaiseAllStartsNothing(RaiseOne(s, raised[0].0, raised[0].1), raised[1..]);
    }
  }

  lemma {:induction false} CloseSlotsStartsNothing(s: Sched, panes: seq<PaneId>)
    ensures StartsNothing(s, CloseSlots(s, panes))
    decreases |panes|
  {
    if panes != [] {
      var p := panes[0];
      if p in s.slots {
        var emptied := s.(slots := s.slots[p := s.slots[p].(queue := [])]);
        CloseAllFrame(emptied, s.slots[p].queue);
        hide CloseAll;
        CloseSlotsStartsNothing(CloseAll(emptied, s.slots[p].queue), panes[1..]);
      } else {
        CloseSlotsStartsNothing(s, panes[1..]);
      }
    }
  }

  lemma BeginStopStartsNothing(s: Sched, panes: seq<PaneId>)
    ensures StartsNothing(s, BeginStop(s, panes))
  {
    var t := CloseSlots(s.(stopping := true), panes);
    CloseSlotsStartsNothing(s.(stopping := true), panes);
    CloseAllFrame(t.(relayQueue := []), t.relayQueue);
    hide CloseSlots, CloseAll;
  }

  /** What an event starts is before its deadline at the event's dispatch. */
  ghost predicate InTime(s: Sched, t: Sched, now: int) {
    s.starts <= t.starts &&
    forall i :: |s.starts| <= i < |t.starts| ==> t.starts[i].op in t.ops && now < t.ops[t.starts[i].op].deadline
  }

  lemma PunctualInTime(s: Sched, v: Sched, now: int)
    requires StartsNothing(s, v) && Inv(v, {})
    ensures InTime(s, Dispatch(v, now), now)
  {
    hide Inv, Dispatch, LogRight, SameGenerations;
    DispatchPunctual(v, now);
  }

  lemma RequestInTime(s: Sched, e: Event)
    requires Inv(s, {}) && e.Request? && Fresh(s, e.id, e.op)
    ensures InTime(s, Step(s, e), e.later)
  {
    var taken := Take(s, e.id, e.op).(ledger := Pruned(s.ledger, e.early, e.victims));
    TakeKeeps(s, e.id, e.op);
    hide Inv, Pruned, Respond, Attach, Enqueue, Dispatch;
    PruneKeeps(Take(s, e.id, e.op), {e.id}, e.early, e.victims);
    NoEmptyKey(s, e.early, e.victims);
    if EnqueuesHere(taken, e.id, e.op, e.now) {
      IngressEnqueues(s, e.id, e.op, e.victims, e.early, e.now, e.later);
      EnqueueStartsNothing(taken, e.id);
      EnqueueKeeps(taken, e.id);
      hide InTime;
      PunctualInTime(s, Enqueue(taken, e.id), e.later);
    } else {
      QuietStartsNothing(taken, e.id, e.op, e.now, e.later);
    }
  }

  lemma QuietStartsNothing(t: Sched, id: OpId, op: Op, now: int, later: int)
    requires !EnqueuesHere(t, id, op, now) && "" !in t.ledger
    ensures StartsNothing(t, Decided(t, id, op, now, later))
  {
    hide Dispatch, Enqueue, Answers;
  }

  lemma CompletionInTime(s: Sched, e: Event)
    requires Inv(s, {}) && e.Completion?
    ensures InTime(s, Step(s, e), e.now)
  {
    hide Inv, Dispatch, CompleteRelay, CompletePane;
    CompletionStartsNothing(s, e.id, e.result, e.bump, e.current);
    if OpOf(s, e.id).relay {
      if e.id in s.relayInFlight {
        CompleteRelayKeeps(s, e.id, e.result);
        PunctualInTime(s, CompleteRelay(s, e.id, e.result), e.now);
      }
    } else if RunsOn(s.slots, OpOf(s, e.id).pane, e.id) {
      CompletePaneKeeps(s, e.id, e.result, e.bump, e.current);
      PunctualInTime(s, CompletePane(s, e.id, e.result, e.bump, e.current), e.now);
    }
  }

  lemma TopologyInTime(s: Sched, e: Event)
    requires Inv(s, {}) && e.TopologyUpdate?
    ensures InTime(s, Step(s, e), e.now)
  {
    var t := RetireGone(s, e.gone);
    var u := RaiseAll(t, e.raised);
    hide Inv, RetireGone, RaiseAll, Dispatch, InTime;
    RetireGoneStartsNothing(s, e.gone);
    RetireGoneKeeps(s, e.gone);
    RaiseAllStartsNothing(t, e.raised);
    RaiseAllKeeps(t, e.raised);
    KnownActiveKeeps(u, e.active);
    PunctualInTime(s, u.(knownActive := e.active), e.now);
  }

  lemma TimerInTime(s: Sched, e: Event)
    requires Inv(s, {}) && e.TimerFires? && Admissible(s, e)
    ensures InTime(s, Step(s, e), e.later)
  {
    TimerPopsLive(s, e.due, 0);
    hide Inv, TimerPops, Dispatch, InTime, DueOrder;
    TimerPopsKeeps(s, e.due);
    PunctualInTime(s, TimerPops(s, e.due), e.later);
  }

  /** No event starts an effect whose deadline has passed by the clock of its dispatch. */
  lemma StepStartsInTime(s: Sched, e: Event)
    requires Inv(s, {}) && Admissible(s, e)
    ensures InTime(s, Step(s, e), Clock(e))
  {
    hide Inv, Ingress, Complete, Topology, Timer, BeginStop, PruneOrder, DueOrder, Lists;
    match e
    case Request(_, _, _, _, _, _) => RequestInTime(s, e);
    case Completion(_, _, _, _, _) => CompletionInTime(s, e);
    case TopologyUpdate(_, _, _, _) => TopologyInTime(s, e);
    case LedgerUpdate(_, _, _) =>
    case TimerFires(_, _, _) => TimerInTime(s, e);
    case CancelInflight(panes) => BeginStopStartsNothing(s, panes);
    case Stop(panes) => BeginStopStartsNothing(s, panes);
  }

  /** Start number `i` happened in event number `n`, before the deadline of what it started. */
  ghost predicate StartedIn(capacity: nat, events: seq<Event>, n: nat, i: nat)
    requires n < |events|
  {
    var s := At(capacity, events, n);
    var t := Step(s, events[n]);
    && |s.starts| <= i < |t.starts| && t.starts[i].op in t.ops
    && Clock(events[n]) < t.ops[t.starts[i].op].deadline
  }

  lemma StartedInPrefix(capacity: nat, events: seq<Event>, last: nat, n: nat, i: nat)
    requires n < last <= |events| && StartedIn(capacity, events[..last], n, i)
    ensures StartedIn(capacity, events, n, i)
  {
    hide Step, Run, Clock;
    assert events[..last][..n] == events[..n];
  }

  lemma LastStarts(capacity: nat, events: seq<Event>)
    requires events != [] && Admitted(Initial(capacity), events)
    ensures var last := |events| - 1; var s := At(capacity, events, last);
      && Admitted(Initial(capacity), events[..last])
      && Run(Initial(capacity), events) == Step(s, events[last]) && InTime(s, Step(s, events[last]), Clock(events[last]))
  {
    var last := |events| - 1;
    hide Step, Admissible, InTime, Between;
    assert events == events[..last] + [events[last]];
    RunSplits(Initial(capacity), events[..last], events[last]);
    hide Run, Admitted;
    InitialBetween(capacity);
    RunBetween(Initial(capacity), events[..last]);
    BetweenInv(At(capacity, events, last));
    StepStartsInTime(At(capacity, events, last), events[last]);
  }

  /** Over whole runs: every effect was started by an event before its command's deadline. */
  lemma {:induction false} NeverStartsLate(capacity: nat, events: seq<Event>, i: nat)
    requires Admitted(Initial(capacity), events) && i < |Run(Initial(capacity), events).starts|
    ensures exists n :: 0 <= n < |events| && StartedIn(capacity, events, n, i)
    decreases |events|
  {
    if events != [] {
      var last := |events| - 1;
      LastStarts(capacity, events);
      hide Step, Run, Admitted, Clock;
      if i < |At(capacity, events, last).starts| {
        NeverStartsLate(capacity, events[..last], i);
        hide StartedIn;
        var n :| 0 <= n < last && StartedIn(capacity, events[..last], n, i);
        StartedInPrefix(capacity, events, last, n, i);
      } else {
        assert StartedIn(capacity, events, last, i);
      }
    }
  }

  // ---------------------------------------------------------------- the timer

  lemma ExpireSays(s: Sched, id: OpId)
    ensures SaysAll(Expire(s, id).log, id, OpOf(s, id).waiters, NotStarted) && id !in Expire(s, id).live
  {
    RespondSays(DropKey(s.(deadlines := s.deadlines - {id}), OpOf(s, id).key), id, NotStarted);
    hide SaysAll, Answers;
  }

  lemma TimerPopSays(s: Sched, id: OpId)
    requires Queued(s, id)
    ensures SaysAll(TimerPop(s, id).log, id, OpOf(s, id).waiters, NotStarted) && id !in TimerPop(s, id).live
  {
    var removed := Unqueue(s.(deadlines := s.deadlines - {id}), id);
    ExpireSays(removed, id);
    hide SaysAll, Expire, RemoveOp;
  }

  lemma {:induction false} TimerPopsSays(s: Sched, due: seq<OpId>, id: OpId)
    requires id in due && Queued(s, id) && forall i, j :: 0 <= i < j < |due| ==> due[i] != due[j]
    ensures SaysAll(TimerPops(s, due).log, id, OpOf(s, id).waiters, NotStarted) && id !in TimerPops(s, due).live
    decreases |due|
  {
    assert due == [due[0]] + due[1..];
    var u := TimerPop(s, due[0]);
    TimerPopsLive(s, due, id);
    if due[0] == id {
      TimerPopSays(s, id);
      hide SaysAll, TimerPop, Queued;
      TimerPopsGrows(u, due[1..]);
      SaysAllStays(u.log, TimerPops(s, due).log, id, OpOf(s, id).waiters, NotStarted);
    } else {
      TimerPopFrame(s, due[0], id);
      hide SaysAll, TimerPop, Queued;
      TimerPopsSays(u, due[1..], id);
    }
  }

  lemma QueuedMeansOpen(s: Sched, id: OpId)
    requires Between(s) && Queued(s, id)
    ensures !s.stopping
  {
    hide Inv, Drained;
  }

  lemma DueIsListed(s: Sched, e: Event, id: OpId)
    requires e.TimerFires? && Admissible(s, e) && id in s.deadlines && e.now >= OpOf(s, id).deadline
    ensures id in e.due && forall i, j :: 0 <= i < j < |e.due| ==> e.due[i] != e.due[j]
  {
  }

  /** When the timer fires, everything queued whose deadline has passed is out of the loop, and its
      waiters hear that it was not started, and nothing else. */
  lemma TimerTells(s: Sched, e: Event, id: OpId)
    requires Between(s) && e.TimerFires? && Admissible(s, e) && id in s.live && Queued(s, id) && e.now >= OpOf(s, id).deadline
    ensures id !in Step(s, e).live && AllHeard(Step(s, e).log, id, OpOf(s, id).waiters, NotStarted)
  {
    var u := TimerPops(s, e.due);
    QueuedMeansOpen(s, id);
    BetweenInv(s);
    QueuedIsTimed(s, id);
    DueIsListed(s, e, id);
    TimerPopsSays(s, e.due, id);
    hide Between, Inv, Admissible, TimerPops, Dispatch, SaysAll, AllHeard, Queued;
    TimerPopsKeeps(s, e.due);
    DispatchPassed(u, e.later);
    DispatchKeeps(u, e.later);
    TellsThrough(u, e.later, id, OpOf(s, id).waiters, NotStarted);
  }

  lemma TellsThrough(u: Sched, now: int, id: OpId, waiters: seq<Attached>, reply: Reply)
    requires Inv(u, {}) && SaysAll(u.log, id, waiters, reply) && id !in u.live
    ensures id !in Dispatch(u, now).live && AllHeard(Dispatch(u, now).log, id, waiters, reply)
  {
    hide Inv, Passed, SaysAll, AllHeard, Dispatch;
    DispatchPassed(u, now);
    DispatchKeeps(u, now);
    PassedFacts(u, Dispatch(u, now));
    SaysAllStays(u.log, Dispatch(u, now).log, id, waiters, reply);
    SaidIsHeard(Dispatch(u, now), id, waiters, reply);
  }

  // ---------------------------------------------------------------- stopping

  lemma {:induction false} CloseAllSays(s: Sched, ids: seq<OpId>, id: OpId)
    requires id in ids
    ensures SaysAll(CloseAll(s, ids).log, id, OpOf(s, id).waiters, Closed) && id !in CloseAll(s, ids).live
    decreases |ids|
  {
    assert ids == [ids[0]] + ids[1..];
    var u := Respond(s, ids[0], Closed);
    RespondFrame(s, ids[0], Closed);
    assert ids[0] !in u.live;
    if ids[0] == id {
      RespondSays(s, id, Closed);
      hide SaysAll, Respond;
      CloseAllGrows(u, ids[1..]);
      CloseAllFrame(u, ids[1..]);
      SaysAllStays(u.log, CloseAll(s, ids).log, id, OpOf(s, id).waiters, Closed);
    } else {
      hide SaysAll, Respond;
      CloseAllSays(u, ids[1..], id);
    }
  }

  /** What closing the slots leaves alone. */
  ghost predicate OnlyClosed(s: Sched, t: Sched) {
    t.ops == s.ops && t.relayQueue == s.relayQueue && t.live <= s.live && s.log <= t.log
  }

  lemma {:induction false} CloseSlotsFrame(s: Sched, panes: seq<PaneId>)
    ensures OnlyClosed(s, CloseSlots(s, panes))
    decreases |panes|
  {
    if panes != [] {
      var p := panes[0];
      if p in s.slots {
        var emptied := s.(slots := s.slots[p := s.slots[p].(queue := [])]);
        CloseAllFrame(emptied, s.slots[p].queue);
        CloseAllGrows(emptied, s.slots[p].queue);
        hide CloseAll;
        CloseSlotsFrame(CloseAll(emptied, s.slots[p].queue), panes[1..]);
      } else {
        CloseSlotsFrame(s, panes[1..]);
      }
    }
  }

  lemma {:induction false} CloseSlotsSays(s: Sched, panes: seq<PaneId>, p: PaneId, id: OpId)
    requires p in panes && p in s.slots && id in s.slots[p].queue
    ensures SaysAll(CloseSlots(s, panes).log, id, OpOf(s, id).waiters, Closed) && id !in CloseSlots(s, panes).live
    decreases |panes|
  {
    assert panes == [panes[0]] + panes[1..];
    var q := panes[0];
    if q in s.slots {
      var emptied := s.(slots := s.slots[q := s.slots[q].(queue := [])]);
      var closed := CloseAll(emptied, s.slots[q].queue);
      CloseAllFrame(emptied, s.slots[q].queue);
      if q == p {
        CloseAllSays(emptied, s.slots[p].queue, id);
        hide SaysAll, CloseAll;
        CloseSlotsFrame(closed, panes[1..]);
        SaysAllStays(closed.log, CloseSlots(s, panes).log, id, OpOf(s, id).waiters, Closed);
      } else {
        hide SaysAll, CloseAll;
        CloseSlotsSays(closed, panes[1..], p, id);
      }
    } else {
      CloseSlotsSays(s, panes[1..], p, id);
    }
  }

  lemma BeginStopSays(s: Sched, panes: seq<PaneId>, id: OpId)
    requires !s.stopping && Queued(s, id) && forall p :: p in s.slots ==> p in panes
    ensures SaysAll(BeginStop(s, panes).log, id, OpOf(s, id).waiters, Closed) && id !in BeginStop(s, panes).live
  {
    var stopping := s.(stopping := true);
    var t := CloseSlots(stopping, panes);
    var u := t.(relayQueue := []);
    CloseSlotsFrame(stopping, panes);
    CloseAllFrame(u, t.relayQueue);
    CloseAllGrows(u, t.relayQueue);
    if OpOf(s, id).relay {
      hide SaysAll, CloseSlots, CloseAll;
      CloseAllSays(u, t.relayQueue, id);
    } else {
      CloseSlotsSays(stopping, panes, OpOf(s, id).pane, id);
      hide SaysAll, CloseSlots, CloseAll;
      SaysAllStays(t.log, CloseAll(u, t.relayQueue).log, id, OpOf(s, id).waiters, Closed);
    }
  }

  /** When the loop begins to stop, everything queued is out of the loop, and its waiters hear that the
      scheduler is closed, and nothing else. */
  lemma StopTells(s: Sched, e: Event, id: OpId)
    requires Between(s) && (e.CancelInflight? || e.Stop?) && Admissible(s, e) && Queued(s, id)
    ensures Step(s, e).stopping
    ensures id !in Step(s, e).live && AllHeard(Step(s, e).log, id, OpOf(s, id).waiters, Closed)
  {
    QueuedMeansOpen(s, id);
    BetweenInv(s);
    BeginStopSays(s, e.panes, id);
    BeginStopGrows(s, e.panes);
    hide Between, Inv, SaysAll, AllHeard, BeginStop, Queued;
    StepKeeps(s, e);
    SaidIsHeard(Step(s, e), id, OpOf(s, id).waiters, Closed);
  }
}
