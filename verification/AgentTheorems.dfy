/** What the agent state machine promises over every run of polls, topology snapshots, status
    events, classifications, acknowledgements and notification requests. */
module AgentTheorems {
  import opened Options
  import opened AgentModel

  // ---------------------------------------------------------------- the invariant

  /** A pane shows blocked details exactly while it is blocked. */
  ghost predicate DetailsOk(a: Agent, lastEvent: nat) {
    && (a.status.Blocked? ==> 0 < a.eventId <= lastEvent && !a.kind.NoKind?)
    && (!a.status.Blocked? ==> a.eventId == 0 && a.kind.NoKind? && a.controls == 0)
  }

  ghost predicate AgentsOk(agents: map<PaneId, Agent>, prevStatus: map<PaneId, Status>, lastEvent: nat) {
    && prevStatus.Keys == agents.Keys
    && (forall p :: p in agents ==> prevStatus[p] == agents[p].status && DetailsOk(agents[p], lastEvent))
  }

  /** No notification that was registered can be registered again: its revision is no later than
      `bound`, and the pane's completion has moved on or is marked finished. */
  ghost predicate NotifiedOk(notified: seq<(PaneId, nat)>, completionRev: map<PaneId, nat>, finished: set<PaneId>, bound: int) {
    && (forall i :: 0 <= i < |notified| && notified[i].1 > 0 ==>
          && notified[i].1 <= bound
          && (Count(completionRev, notified[i].0) == notified[i].1 ==> notified[i].0 in finished))
    && (forall i, j :: 0 <= i < j < |notified| && notified[i].1 > 0 ==> notified[i] != notified[j])
  }

  ghost predicate MarksOk(unseen: set<PaneId>, acked: set<PaneId>, agents: map<PaneId, Agent>) {
    unseen !! acked && unseen <= agents.Keys && acked <= agents.Keys
  }

  ghost predicate CountersOk(s: Agents) {
    && (forall p :: p in s.completionRev ==> s.completionRev[p] <= s.revCounter)
    && (forall p :: p in s.revision ==> s.revision[p] <= s.revCounter)
  }

  /** `bound` is the revision counter, or one less while a commit is under way. */
  ghost predicate Core(s: Agents, bound: int) {
    && AgentsOk(s.agents, s.prevStatus, s.lastEvent)
    && s.pending.Keys !! s.agents.Keys
    && MarksOk(s.unseen, s.acked, s.agents)
    && NotifiedOk(s.notified, s.completionRev, s.finished, bound)
    && CountersOk(s)
  }

  ghost predicate Inv(s: Agents) {
    Core(s, s.revCounter)
  }

  // ---------------------------------------------------------------- marks

  /** A change of marks that cannot make a registered notification registrable again. */
  ghost predicate SafeChange(m: Marks, n: Marks, rev: nat) {
    && !(n.unseen && n.acked)
    && (n.completion == 0 || n.completion == rev || (n.completion == m.completion && (m.finished ==> n.finished)))
  }

  lemma TransitionSafe(m: Marks, prev: Option<Status>, status: Status, previousKind: Kind, kind: Kind, rev: nat)
    requires !(m.unseen && m.acked)
    ensures SafeChange(m, Transition(m, prev, status, previousKind, rev), rev)
    ensures SafeChange(m, AfterTransition(m, prev, status, previousKind, kind, rev), rev)
  {
  }

  lemma SetMarksCore(s: Agents, p: PaneId, m: Marks, rev: nat, bound: int)
    requires Core(s, bound) && bound < rev <= s.revCounter && p in s.agents
    requires SafeChange(MarksOf(s, p), m, rev)
    ensures Core(SetMarks(s, p, m), bound)
  {
    var t := SetMarks(s, p, m);
    assert MarksOk(t.unseen, t.acked, t.agents);
    hide AgentsOk, MarksOk;
    assert NotifiedOk(t.notified, t.completionRev, t.finished, bound);
  }

  // ---------------------------------------------------------------- committing one record

  /** Records carry no event id, or the one of the blocked pane they were copied from. */
  ghost predicate RecordOk(s: Agents, incoming: Incoming) {
    incoming.agent.eventId == 0 ||
    (Known(s, incoming).Some? && Known(s, incoming).value.status.Blocked? &&
     incoming.agent.eventId == Known(s, incoming).value.eventId)
  }

  lemma CommittedOk(s: Agents, incoming: Incoming, baseRev: nat, initial: bool, now: int)
    requires AgentsOk(s.agents, s.prevStatus, s.lastEvent) && s.pending.Keys !! s.agents.Keys && RecordOk(s, incoming)
    ensures var a := Committed(s, incoming, baseRev, initial, now);
      && DetailsOk(a, if a.eventId == s.lastEvent + 1 then s.lastEvent + 1 else s.lastEvent)
      && (Known(s, incoming).Some? && Known(s, incoming).value.status.Blocked? && a.status.Blocked? ==>
            a.eventId == Known(s, incoming).value.eventId)
  {
    if Known(s, incoming).Some? {
      assert DetailsOk(s.agents[incoming.pane], s.lastEvent);
    }
    hide AgentsOk, Differ;
  }

  lemma MarksSafe(s: Agents, incoming: Incoming, a: Agent, bound: int)
    requires Core(s, bound)
    ensures SafeChange(MarksOf(s, incoming.pane), CommittedMarks(s, incoming, a), s.revCounter)
  {
    hide NotifiedOk, CountersOk, Differ;
  }

  lemma EnteredCore(s: Agents, incoming: Incoming, a: Agent, initial: bool, bound: int)
    requires Core(s, bound)
    requires DetailsOk(a, if a.eventId == s.lastEvent + 1 then s.lastEvent + 1 else s.lastEvent)
    ensures Core(Entered(s, incoming, a, initial), bound)
  {
    hide NotifiedOk, ContentMoved, AttentionMoved, OpensSession, Bumped;
  }

  lemma CommitOneCore(s: Agents, incoming: Incoming, baseRev: nat, initial: bool, now: int, bound: int)
    requires Core(s, bound) && bound < s.revCounter && RecordOk(s, incoming)
    ensures Core(CommitOne(s, incoming, baseRev, initial, now), bound)
  {
    var a := Committed(s, incoming, baseRev, initial, now);
    CommittedOk(s, incoming, baseRev, initial, now);
    hide Committed, RecordOk, DetailsOk;
    EnteredCore(s, incoming, a, initial, bound);
    MarksSafe(s, incoming, a, bound);
    var t := Entered(s, incoming, a, initial);
    assert MarksOf(t, incoming.pane) == MarksOf(s, incoming.pane) && t.revCounter == s.revCounter;
    hide Core, CommittedMarks, Entered, SafeChange;
    assert incoming.pane in t.agents by { EnteredPresent(s, incoming, a, initial); }
    SetMarksCore(t, incoming.pane, CommittedMarks(s, incoming, a), s.revCounter, bound);
  }

  lemma EnteredPresent(s: Agents, incoming: Incoming, a: Agent, initial: bool)
    ensures incoming.pane in Entered(s, incoming, a, initial).agents
  {
  }

  // ---------------------------------------------------------------- a commit touches each pane once

  /** Two states agree on everything kept about one pane. */
  ghost predicate AgreeAt(s: Agents, t: Agents, p: PaneId) {
    && (p in s.agents <==> p in t.agents) && (p in s.agents ==> s.agents[p] == t.agents[p])
    && Count(s.revision, p) == Count(t.revision, p)
    && Count(s.contentRev, p) == Count(t.contentRev, p)
    && Count(s.generation, p) == Count(t.generation, p)
    && Prev(s, p) == Prev(t, p)
    && MarksOf(s, p) == MarksOf(t, p)
    && (p in s.pending <==> p in t.pending) && (p in s.pending ==> s.pending[p] == t.pending[p])
    && s.revCounter == t.revCounter && s.topologyGen == t.topologyGen && s.notified == t.notified
  }

  lemma CommitOneFrame(s: Agents, incoming: Incoming, baseRev: nat, initial: bool, now: int, q: PaneId)
    requires q != incoming.pane
    ensures AgreeAt(s, CommitOne(s, incoming, baseRev, initial, now), q)
  {
    hide Committed, CommittedMarks, ContentMoved, AttentionMoved, OpensSession;
  }

  lemma {:induction false} RecordsFrame(s: Agents, records: seq<Incoming>, baseRev: nat, initial: bool, now: int, q: PaneId)
    requires q !in Panes(records)
    ensures AgreeAt(s, CommitRecords(s, records, baseRev, initial, now), q)
    decreases |records|
  {
    if records != [] {
      assert records[0] in records && forall r :: r in records[1..] ==> r in records;
      CommitOneFrame(s, records[0], baseRev, initial, now, q);
      hide CommitOne;
      RecordsFrame(CommitOne(s, records[0], baseRev, initial, now), records[1..], baseRev, initial, now, q);
    }
  }

  /** Records of one commit: distinct panes, no foreign event ids. */
  ghost predicate Batch(s: Agents, records: seq<Incoming>) {
    && (forall j, k :: 0 <= j < k < |records| ==> records[j].pane != records[k].pane)
    && (forall j :: 0 <= j < |records| ==> RecordOk(s, records[j]))
  }

  lemma CommitOneBatch(s: Agents, records: seq<Incoming>, baseRev: nat, initial: bool, now: int)
    requires records != [] && Batch(s, records)
    ensures Batch(CommitOne(s, records[0], baseRev, initial, now), records[1..])
  {
    var t := CommitOne(s, records[0], baseRev, initial, now);
    forall j | 0 <= j < |records[1..]|
      ensures RecordOk(t, records[1..][j])
    {
      CommitOneFrame(s, records[0], baseRev, initial, now, records[j + 1].pane);
      hide CommitOne;
    }
    hide CommitOne;
  }

  lemma CommitOneKeys(s: Agents, incoming: Incoming, baseRev: nat, initial: bool, now: int)
    ensures var t := CommitOne(s, incoming, baseRev, initial, now);
      && t.agents.Keys == s.agents.Keys + {incoming.pane} && t.revCounter == s.revCounter
      && t.topologyGen == s.topologyGen && t.ready == s.ready && t.notified == s.notified && s.lastEvent <= t.lastEvent
  {
    hide Committed, CommittedMarks, ContentMoved, AttentionMoved, OpensSession;
  }

  /** The record at `i` is committed on a state that still agrees with the start about its pane,
      and no later record disturbs the outcome. */
  lemma {:induction false} RecordsAt(
    s: Agents, records: seq<Incoming>, baseRev: nat, initial: bool, now: int, i: nat, bound: int) returns (mid: Agents)
    requires i < |records| && Core(s, bound) && bound < s.revCounter && Batch(s, records)
    ensures Core(mid, bound) && AgreeAt(s, mid, records[i].pane) && RecordOk(mid, records[i]) && s.lastEvent <= mid.lastEvent
    ensures AgreeAt(CommitOne(mid, records[i], baseRev, initial, now),
                    CommitRecords(s, records, baseRev, initial, now), records[i].pane)
    decreases i
  {
    hide CommitOne, Core, RecordOk;
    var t := CommitOne(s, records[0], baseRev, initial, now);
    assert RecordOk(s, records[0]);
    if i == 0 {
      mid := s;
      assert records[0].pane !in Panes(records[1..]);
      RecordsFrame(t, records[1..], baseRev, initial, now, records[0].pane);
    } else {
      CommitOneCore(s, records[0], baseRev, initial, now, bound);
      CommitOneBatch(s, records, baseRev, initial, now);
      CommitOneKeys(s, records[0], baseRev, initial, now);
      CommitOneFrame(s, records[0], baseRev, initial, now, records[i].pane);
      hide Batch;
      mid := RecordsAt(t, records[1..], baseRev, initial, now, i - 1, bound);
    }
  }

  lemma {:induction false} RecordsCore(s: Agents, records: seq<Incoming>, baseRev: nat, initial: bool, now: int, bound: int)
    requires Core(s, bound) && bound < s.revCounter && Batch(s, records)
    ensures Core(CommitRecords(s, records, baseRev, initial, now), bound)
    decreases |records|
  {
    hide CommitOne, Core, RecordOk;
    if records != [] {
      assert RecordOk(s, records[0]);
      CommitOneCore(s, records[0], baseRev, initial, now, bound);
      CommitOneBatch(s, records, baseRev, initial, now);
      CommitOneKeys(s, records[0], baseRev, initial, now);
      hide Batch;
      RecordsCore(CommitOne(s, records[0], baseRev, initial, now), records[1..], baseRev, initial, now, bound);
    }
  }

  lemma {:induction false} RecordsKeys(s: Agents, records: seq<Incoming>, baseRev: nat, initial: bool, now: int)
    ensures var t := CommitRecords(s, records, baseRev, initial, now);
      && t.agents.Keys == s.agents.Keys + Panes(records) && t.revCounter == s.revCounter
      && t.topologyGen == s.topologyGen && t.ready == s.ready && t.notified == s.notified && s.lastEvent <= t.lastEvent
    decreases |records|
  {
    hide CommitOne;
    if records != [] {
      CommitOneKeys(s, records[0], baseRev, initial, now);
      RecordsKeys(CommitOne(s, records[0], baseRev, initial, now), records[1..], baseRev, initial, now);
      assert records == [records[0]] + records[1..];
      assert Panes(records) == {records[0].pane} + Panes(records[1..]);
    }
  }

  lemma ForgetCore(s: Agents, seen: set<PaneId>, bound: int)
    requires Core(s, bound)
    ensures Core(Forget(s, seen), bound)
  {
    var t := Forget(s, seen);
    assert NotifiedOk(t.notified, t.completionRev, t.finished, bound) by { hide AgentsOk, CountersOk, MarksOk; }
    hide NotifiedOk;
  }

  lemma InventoryCore(s: Agents, records: seq<Incoming>, baseRev: nat, now: int)
    requires Inv(s) && Batch(s, records)
    ensures Inv(CommitInventory(s, records, baseRev, now))
  {
    var begun := Begun(s, records);
    assert Core(begun, s.revCounter) && Batch(begun, records) by { BegunBatch(s, records); }
    hide Core, Batch, TopologyChanged;
    RecordsCore(begun, records, baseRev, !s.ready, now, s.revCounter);
    RecordsKeys(begun, records, baseRev, !s.ready, now);
    var committed := CommitRecords(begun, records, baseRev, !s.ready, now);
    hide CommitRecords, Forget;
    ForgetCore(committed, Panes(records), s.revCounter);
    ForgetCounter(committed, Panes(records));
    LoosenCore(Forget(committed, Panes(records)), s.revCounter, now);
  }

  lemma ForgetCounter(s: Agents, seen: set<PaneId>)
    ensures Forget(s, seen).revCounter == s.revCounter
  {
  }

  lemma LoosenCore(s: Agents, bound: int, now: int)
    requires Core(s, bound) && bound <= s.revCounter
    ensures Inv(s.(pending := Unexpired(s.pending, now)))
  {
    hide AgentsOk, MarksOk;
  }

  lemma BegunBatch(s: Agents, records: seq<Incoming>)
    requires Inv(s) && Batch(s, records)
    ensures Core(Begun(s, records), s.revCounter) && Batch(Begun(s, records), records)
  {
    hide AgentsOk, MarksOk, NotifiedOk, TopologyChanged;
    forall j | 0 <= j < |records|
      ensures RecordOk(Begun(s, records), records[j])
    {
      assert RecordOk(s, records[j]);
    }
  }

  // ---------------------------------------------------------------- every step keeps the invariant

  lemma WellFormedBatch(s: Agents, records: seq<Incoming>)
    requires WellFormed(records)
    ensures Batch(s, records)
  {
  }

  lemma KeepStatusesBatch(s: Agents, records: seq<Incoming>)
    requires Inv(s) && WellFormed(records)
    ensures Batch(s, KeepStatuses(s, records))
  {
    var kept := KeepStatuses(s, records);
    forall j | 0 <= j < |kept|
      ensures RecordOk(s, kept[j]) && kept[j].pane == records[j].pane
    {
      hide Core;
      assert kept[j] == KeepStatus(s, records[j]) && records[j].agent.eventId == 0;
    }
    hide Core, RecordOk, KeepStatuses;
  }

  lemma EventAgentOk(s: Agents, p: PaneId, status: Status, updatedAt: int, now: int)
    requires AgentsOk(s.agents, s.prevStatus, s.lastEvent) && p in s.agents
    ensures var a := EventAgent(s, p, status, updatedAt, now);
      && a.status == status
      && DetailsOk(a, if a.eventId == s.lastEvent + 1 then s.lastEvent + 1 else s.lastEvent)
      && (s.agents[p].status.Blocked? && status.Blocked? ==> a.eventId == s.agents[p].eventId)
  {
    assert DetailsOk(s.agents[p], s.lastEvent);
  }

  /** A known pane's entry moves to revision `revCounter + 1`; the marks come afterwards. */
  lemma RevisedCore(s: Agents, t: Agents, p: PaneId)
    requires Inv(s) && p in s.agents
    requires t == s.(agents := t.agents, revCounter := s.revCounter + 1, revision := s.revision[p := s.revCounter + 1],
                     contentRev := t.contentRev, attentionRev := t.attentionRev, prevStatus := t.prevStatus,
                     lastEvent := t.lastEvent)
    requires t.agents.Keys == s.agents.Keys && AgentsOk(t.agents, t.prevStatus, t.lastEvent)
    ensures Core(t, s.revCounter)
  {
    hide AgentsOk, NotifiedOk;
  }

  lemma EventEnteredOk(s: Agents, p: PaneId, a: Agent)
    requires AgentsOk(s.agents, s.prevStatus, s.lastEvent) && p in s.agents
    requires DetailsOk(a, if a.eventId == s.lastEvent + 1 then s.lastEvent + 1 else s.lastEvent)
    ensures var t := EventEntered(s, p, a);
      && AgentsOk(t.agents, t.prevStatus, t.lastEvent)
      && t.agents.Keys == s.agents.Keys && t.revCounter == s.revCounter + 1 && MarksOf(t, p) == MarksOf(s, p)
      && t == s.(agents := t.agents, revCounter := s.revCounter + 1, revision := s.revision[p := s.revCounter + 1],
                 contentRev := t.contentRev, attentionRev := t.attentionRev, prevStatus := t.prevStatus,
                 lastEvent := t.lastEvent)
  {
  }

  /** The entry has moved to the next revision; its marks follow. */
  lemma MarkedInv(s: Agents, t: Agents, p: PaneId, marks: Marks)
    requires Inv(s) && p in s.agents
    requires t == s.(agents := t.agents, revCounter := s.revCounter + 1, revision := s.revision[p := s.revCounter + 1],
                     contentRev := t.contentRev, attentionRev := t.attentionRev, prevStatus := t.prevStatus,
                     lastEvent := t.lastEvent)
    requires t.agents.Keys == s.agents.Keys && AgentsOk(t.agents, t.prevStatus, t.lastEvent)
    requires SafeChange(MarksOf(s, p), marks, s.revCounter + 1)
    ensures Inv(SetMarks(t, p, marks))
  {
    hide SafeChange, AgentsOk, Core, MarksOk;
    RevisedCore(s, t, p);
    assert MarksOf(t, p) == MarksOf(s, p) && p in t.agents;
    SetMarksCore(t, p, marks, s.revCounter + 1, s.revCounter);
    LoosenBound(SetMarks(t, p, marks), s.revCounter);
  }

  lemma DisjointMarks(s: Agents, p: PaneId)
    requires Inv(s)
    ensures !(MarksOf(s, p).unseen && MarksOf(s, p).acked)
  {
    hide AgentsOk, NotifiedOk, CountersOk;
  }

  lemma InvAgents(s: Agents)
    requires Inv(s)
    ensures AgentsOk(s.agents, s.prevStatus, s.lastEvent)
  {
    hide NotifiedOk, CountersOk, MarksOk;
  }

  lemma ApplyEventInv(s: Agents, p: PaneId, status: Status, updatedAt: int, now: int)
    requires Inv(s) && p in s.agents
    ensures Inv(ApplyEvent(s, p, status, updatedAt, now))
  {
    var a := EventAgent(s, p, status, updatedAt, now);
    var before := s.agents[p];
    hide Inv, AgentsOk, DetailsOk, EventAgent, EventEntered, SafeChange, AfterTransition, SetMarks, MarksOf;
    InvAgents(s);
    EventAgentOk(s, p, status, updatedAt, now);
    EventEnteredOk(s, p, a);
    DisjointMarks(s, p);
    TransitionSafe(MarksOf(s, p), Some(before.status), status, before.kind, a.kind, s.revCounter + 1);
    MarkedInv(s, EventEntered(s, p, a), p,
              AfterTransition(MarksOf(s, p), Some(before.status), status, before.kind, a.kind, s.revCounter + 1));
  }

  lemma LoosenBound(s: Agents, bound: int)
    requires Core(s, bound) && bound <= s.revCounter
    ensures Inv(s)
  {
    hide AgentsOk, MarksOk;
  }

  lemma ReclassifiedOk(s: Agents, p: PaneId, kind: Kind, controls: nat)
    requires AgentsOk(s.agents, s.prevStatus, s.lastEvent) && p in s.agents && s.agents[p].status.Blocked? && !kind.NoKind?
    ensures var t := Reclassified(s, p, s.agents[p].(kind := kind, controls := controls));
      && AgentsOk(t.agents, t.prevStatus, t.lastEvent) && t.agents.Keys == s.agents.Keys
      && t == s.(agents := t.agents, revCounter := s.revCounter + 1, revision := s.revision[p := s.revCounter + 1],
                 contentRev := t.contentRev, attentionRev := t.attentionRev, prevStatus := t.prevStatus,
                 lastEvent := t.lastEvent)
  {
  }

  lemma ClassifyInv(s: Agents, p: PaneId, eventId: nat, generation: nat, contentRev: nat, kind: Kind, controls: nat)
    requires Inv(s)
    ensures Inv(Classify(s, p, eventId, generation, contentRev, kind, controls))
  {
    hide Inv, AgentsOk, DetailsOk, Reclassified, SetMarks, MarksOf;
    if ClassifiesCurrent(s, p, eventId, generation, contentRev) {
      InvAgents(s);
      DisjointMarks(s, p);
      var a := s.agents[p];
      var settled := if kind.NoKind? then Unknown else kind;
      ReclassifiedOk(s, p, settled, controls);
      var next := a.(kind := settled, controls := controls);
      MarkedInv(s, Reclassified(s, p, next), p, ChatSync(MarksOf(s, p), a.kind, next.kind, s.revCounter + 1));
    }
  }

  lemma RegisterInv(s: Agents, p: PaneId, revision: nat)
    requires Inv(s)
    ensures Inv(Register(s, p, revision))
  {
    hide AgentsOk, MarksOk;
    if Registers(s, p, revision) {
      var t := Register(s, p, revision);
      assert forall i :: 0 <= i < |s.notified| ==> t.notified[i] == s.notified[i];
      assert Count(s.completionRev, p) <= s.revCounter;
    }
  }

  /** Only counters outside the invariant move. */
  lemma ElsewhereInv(s: Agents, t: Agents)
    requires Inv(s) && t == s.(topologyGen := t.topologyGen, generation := t.generation, ready := t.ready)
    ensures Inv(t)
  {
    hide AgentsOk, MarksOk, NotifiedOk;
  }

  lemma PostponeInv(s: Agents, p: PaneId, tab: string, workspace: string, status: Status, updatedAt: int,
                    evicted: PaneId, now: int)
    requires Inv(s) && p !in s.agents
    ensures Inv(Postpone(s, p, tab, workspace, status, updatedAt, evicted, now))
  {
    hide AgentsOk, MarksOk, NotifiedOk;
  }

  lemma FinishedInv(s: Agents, p: PaneId)
    requires Inv(s)
    ensures Inv(s.(finished := s.finished + {p}))
  {
    hide AgentsOk, MarksOk;
  }

  lemma SeenOk(agents: map<PaneId, Agent>, prevStatus: map<PaneId, Status>, lastEvent: nat, p: PaneId, now: int)
    requires AgentsOk(agents, prevStatus, lastEvent) && p in agents
    ensures AgentsOk(agents[p := Seen(agents[p], now)], prevStatus, lastEvent)
  {
  }

  /** Entries and marks change, nothing else. */
  lemma MarkOnlyInv(s: Agents, t: Agents)
    requires Inv(s) && t == s.(agents := t.agents, unseen := t.unseen, acked := t.acked)
    requires t.agents.Keys == s.agents.Keys && AgentsOk(t.agents, s.prevStatus, s.lastEvent)
    requires MarksOk(t.unseen, t.acked, t.agents)
    ensures Inv(t)
  {
    hide AgentsOk, MarksOk, NotifiedOk;
  }

  lemma InvMarks(s: Agents)
    requires Inv(s)
    ensures MarksOk(s.unseen, s.acked, s.agents)
  {
    hide AgentsOk, NotifiedOk, CountersOk;
  }

  lemma AcknowledgeInv(s: Agents, p: PaneId, now: int)
    requires Inv(s)
    ensures Inv(Acknowledge(s, p, now))
  {
    if p in s.agents {
      InvAgents(s);
      InvMarks(s);
      hide Inv, AgentsOk, Seen, Settles;
      SeenOk(s.agents, s.prevStatus, s.lastEvent, p, now);
      MarkOnlyInv(s, Acknowledge(s, p, now));
    }
  }

  lemma CommitsInv(s: Agents, e: Event)
    requires Inv(s) && Admissible(s, e) && (e.Poll? || e.Snapshot?)
    ensures Inv(Step(s, e))
  {
    hide Inv, Batch, CommitInventory, KeepStatuses, WellFormed;
    match e
    case Poll(records, token, now) =>
      WellFormedBatch(s, records);
      InventoryCore(s, records, token.baseRevision, now);
    case Snapshot(records, baseRev, workspaceChanged, now) =>
      var t := if workspaceChanged then s.(topologyGen := s.topologyGen + 1) else s;
      ElsewhereInv(s, t);
      KeepStatusesBatch(t, records);
      InventoryCore(t, KeepStatuses(t, records), baseRev, now);
  }

  lemma StepInv(s: Agents, e: Event)
    requires Inv(s) && Admissible(s, e)
    ensures Inv(Step(s, e))
  {
    hide Inv, ApplyEvent, Postpone, Classify, Acknowledge, Register, Matches;
    match e
    case Poll(_, _, _) => CommitsInv(s, e);
    case Snapshot(_, _, _, _) => CommitsInv(s, e);
    case StatusEvent(p, tab, workspace, status, updatedAt, evicted, now) =>
      if p in s.agents {
        ApplyEventInv(s, p, status, updatedAt, now);
      } else {
        PostponeInv(s, p, tab, workspace, status, updatedAt, evicted, now);
      }
    case Classification(p, eventId, expected, contentRev, kind, controls) =>
      ClassifyInv(s, p, eventId, expected, contentRev, kind, controls);
    case Acknowledged(p, now) => AcknowledgeInv(s, p, now);
    case Finished(p) => FinishedInv(s, p);
    case FinishedFor(p, revision) => RegisterInv(s, p, revision);
    case Bump(p) => ElsewhereInv(s, Step(s, e));
    case TopologyMoved => ElsewhereInv(s, Step(s, e));
    case InventoryFailed => ElsewhereInv(s, Step(s, e));
  }

  lemma {:induction false} RunInv(s: Agents, events: seq<Event>)
    requires Inv(s) && Admitted(s, events)
    ensures Inv(Run(s, events))
    decreases |events|
  {
    hide Inv, Step, Admissible;
    if events != [] {
      StepInv(s, events[0]);
      RunInv(Step(s, events[0]), events[1..]);
    }
  }

  lemma EmptyInv()
    ensures Inv(Empty)
  {
  }
}
