/** The promises of the agent state machine, each over every run: polls never undo an event, a pane's
    generation tells its sessions apart, a completion is notified once, and a blocked event id names
    one uninterrupted wait. */
module AgentPromises {
  import opened Options
  import opened AgentModel
  import opened AgentTheorems

  // ---------------------------------------------------------------- one commit, one pane

  /** The records an event commits, if it is a commit that is accepted. */
  function Committing(s: Agents, e: Event): Option<seq<Incoming>> {
    match e
    case Poll(records, token, now) => if s.topologyGen == token.topologyGen then Some(records) else None
    case Snapshot(records, baseRev, workspaceChanged, now) =>
      Some(KeepStatuses(Base(s, e), records))
    case _ => None
  }

  /** The state an accepted commit starts from: a snapshot may have moved the topology first. */
  function Base(s: Agents, e: Event): Agents {
    if e.Snapshot? && e.workspaceChanged then s.(topologyGen := s.topologyGen + 1) else s
  }

  function BaseRev(e: Event): nat {
    if e.Poll? then e.token.baseRevision else if e.Snapshot? then e.baseRev else 0
  }

  function Clock(e: Event): int {
    if e.Poll? || e.Snapshot? then e.now else 0
  }

  ghost predicate SameBase(s: Agents, base: Agents) {
    && base.agents == s.agents && base.generation == s.generation && base.revision == s.revision
    && base.lastEvent == s.lastEvent && base.revCounter == s.revCounter && base.notified == s.notified
    && base.ready == s.ready && s.topologyGen <= base.topologyGen
  }

  lemma CommitShape(s: Agents, e: Event)
    requires Inv(s) && Admissible(s, e) && Committing(s, e).Some?
    ensures Inv(Base(s, e)) && Batch(Base(s, e), Committing(s, e).value) && SameBase(s, Base(s, e))
    ensures Step(s, e) == CommitInventory(Base(s, e), Committing(s, e).value, BaseRev(e), Clock(e))
  {
    hide Inv, WellFormed, Batch, CommitInventory, KeepStatuses, Step, SameBase;
    CommitStep(s, e);
    BaseOf(s, e);
    hide Base;
    if e.Poll? {
      WellFormedBatch(Base(s, e), e.records);
    } else {
      KeepStatusesBatch(Base(s, e), e.records);
    }
  }

  lemma BaseOf(s: Agents, e: Event)
    requires Inv(s)
    ensures Inv(Base(s, e)) && SameBase(s, Base(s, e))
  {
    hide Inv;
    if e.Snapshot? && e.workspaceChanged {
      ElsewhereInv(s, s.(topologyGen := s.topologyGen + 1));
    }
  }

  lemma CommitStep(s: Agents, e: Event)
    requires Committing(s, e).Some?
    ensures Step(s, e) == CommitInventory(Base(s, e), Committing(s, e).value, BaseRev(e), Clock(e))
  {
    hide CommitInventory, KeepStatuses, CommitEvent, Classify, Acknowledge, Register;
  }

  /** A pane named by a commit is committed as if it were the only record; `mid` is the state its
      turn finds, which knows about that pane what `s` knew. */
  lemma InventoryAt(s: Agents, records: seq<Incoming>, baseRev: nat, now: int, i: nat) returns (mid: Agents)
    requires Inv(s) && Batch(s, records) && i < |records|
    ensures Core(mid, s.revCounter) && AgreeAt(Begun(s, records), mid, records[i].pane)
    ensures RecordOk(mid, records[i]) && s.lastEvent <= mid.lastEvent
    ensures var t, p := CommitInventory(s, records, baseRev, now), records[i].pane;
      var one := CommitOne(mid, records[i], baseRev, !s.ready, now);
      && p in t.agents && p in one.agents && t.agents[p] == one.agents[p]
      && Count(t.generation, p) == Count(one.generation, p) && Count(t.revision, p) == Count(one.revision, p)
      && Count(t.contentRev, p) == Count(one.contentRev, p) && MarksOf(t, p) == MarksOf(one, p)
  {
    var begun := Begun(s, records);
    BegunBatch(s, records);
    hide Batch, Core, TopologyChanged, RecordOk;
    mid := RecordsAt(begun, records, baseRev, !s.ready, now, i, s.revCounter);
    RecordsKeys(begun, records, baseRev, !s.ready, now);
    hide CommitOne, CommitRecords;
    assert records[i].pane in Panes(records);
    ForgetSeen(CommitRecords(begun, records, baseRev, !s.ready, now), Panes(records), records[i].pane);
  }

  lemma ForgetSeen(s: Agents, seen: set<PaneId>, p: PaneId)
    requires p in seen && p in s.agents
    ensures var t := Forget(s, seen);
      p in t.agents && t.agents[p] == s.agents[p] && Count(t.generation, p) == Count(s.generation, p) &&
      Count(t.revision, p) == Count(s.revision, p) && Count(t.contentRev, p) == Count(s.contentRev, p) &&
      MarksOf(t, p) == MarksOf(s, p)
  {
  }

  lemma ForgetUnseen(s: Agents, seen: set<PaneId>, p: PaneId)
    requires p !in seen
    ensures p !in Forget(s, seen).agents
    ensures Count(Forget(s, seen).generation, p) == Count(s.generation, p) + if p in s.agents then 1 else 0
  {
  }

  /** A pane no record names is forgotten, and its session ends. */
  lemma InventoryElsewhere(s: Agents, records: seq<Incoming>, baseRev: nat, now: int, p: PaneId)
    requires p !in Panes(records)
    ensures var t := CommitInventory(s, records, baseRev, now);
      p !in t.agents && Count(t.generation, p) == Count(s.generation, p) + if p in s.agents then 1 else 0
  {
    var begun := Begun(s, records);
    RecordsFrame(begun, records, baseRev, !s.ready, now, p);
    ForgetUnseen(CommitRecords(begun, records, baseRev, !s.ready, now), Panes(records), p);
    hide CommitRecords, Forget, TopologyChanged;
  }

  lemma InventoryCounters(s: Agents, records: seq<Incoming>, baseRev: nat, now: int)
    ensures var t := CommitInventory(s, records, baseRev, now);
      && t.revCounter == s.revCounter + 1 && t.notified == s.notified && s.lastEvent <= t.lastEvent
      && t.agents.Keys == Panes(records)
      && t.topologyGen == s.topologyGen + if TopologyChanged(s, records) then 1 else 0
  {
    hide TopologyChanged;
    var begun := Begun(s, records);
    RecordsKeys(begun, records, baseRev, !s.ready, now);
    hide CommitRecords;
  }

  /** What a commit makes of the generation of a pane it names. */
  lemma InventoryGeneration(s: Agents, records: seq<Incoming>, baseRev: nat, now: int, i: nat)
    requires Inv(s) && Batch(s, records) && i < |records|
    ensures var p := records[i].pane;
      Count(CommitInventory(s, records, baseRev, now).generation, p) ==
      Count(s.generation, p) + if OpensSession(s, records[i], !s.ready) then 1 else 0
  {
    var mid := InventoryAt(s, records, baseRev, now, i);
    hide Inv, Core, Batch, CommitInventory, Committed, CommittedMarks, ContentMoved, AttentionMoved, RecordOk, TopologyChanged, Replaced;
  }

  // ---------------------------------------------------------------- steps that commit nothing

  /** Between two states of one pane's session: a blocked event id is carried on or is new. */
  ghost predicate CarriesEvent(a: Agent, b: Agent, lastEvent: nat) {
    b.status.Blocked? ==> if a.status.Blocked? then b.eventId == a.eventId else b.eventId > lastEvent
  }

  ghost predicate RevisionsRise(before: map<PaneId, nat>, after: map<PaneId, nat>, counter: nat) {
    forall q :: Count(after, q) == Count(before, q) || Count(after, q) == counter
  }

  ghost predicate AllCarry(before: map<PaneId, Agent>, after: map<PaneId, Agent>, lastEvent: nat) {
    forall p :: p in before && p in after ==> CarriesEvent(before[p], after[p], lastEvent)
  }

  /** What every step that is not an accepted commit leaves alone. */
  ghost predicate SmallFrame(s: Agents, t: Agents, e: Event) {
    && t.agents.Keys == s.agents.Keys
    && s.topologyGen <= t.topologyGen && s.revCounter <= t.revCounter && s.lastEvent <= t.lastEvent
    && s.notified <= t.notified
    && RevisionsRise(s.revision, t.revision, t.revCounter)
    && t.generation == (if e.Bump? then s.generation[e.pane := Count(s.generation, e.pane) + 1] else s.generation)
    && AllCarry(s.agents, t.agents, s.lastEvent)
  }

  lemma EventFrame(s: Agents, p: PaneId, status: Status, updatedAt: int, now: int, e: Event)
    requires AgentsOk(s.agents, s.prevStatus, s.lastEvent) && p in s.agents && e.StatusEvent?
    ensures SmallFrame(s, ApplyEvent(s, p, status, updatedAt, now), e)
  {
    var a := EventAgent(s, p, status, updatedAt, now);
    EventAgentOk(s, p, status, updatedAt, now);
    hide EventAgent, AfterTransition, AgentsOk, DetailsOk, MarksOf;
    var t := ApplyEvent(s, p, status, updatedAt, now);
    assert t.agents == s.agents[p := a] && t.revision == s.revision[p := t.revCounter];
    RevisionSet(s.revision, p, t.revCounter);
    CarrySet(s, p, a);
    hide AllCarry, RevisionsRise;
  }

  lemma RevisionSet(revision: map<PaneId, nat>, p: PaneId, counter: nat)
    ensures RevisionsRise(revision, revision, counter) && RevisionsRise(revision, revision[p := counter], counter)
  {
  }

  lemma CarrySet(s: Agents, p: PaneId, a: Agent)
    requires p in s.agents && CarriesEvent(s.agents[p], a, s.lastEvent)
    ensures AllCarry(s.agents, s.agents, s.lastEvent) && AllCarry(s.agents, s.agents[p := a], s.lastEvent)
  {
  }

  lemma NothingMoved(s: Agents)
    ensures RevisionsRise(s.revision, s.revision, s.revCounter) && AllCarry(s.agents, s.agents, s.lastEvent)
  {
  }

  lemma ReclassifiedFrame(s: Agents, p: PaneId, next: Agent, marks: Marks, e: Event)
    requires p in s.agents && CarriesEvent(s.agents[p], next, s.lastEvent) && e.Classification?
    ensures SmallFrame(s, SetMarks(Reclassified(s, p, next), p, marks), e)
  {
    RevisionSet(s.revision, p, s.revCounter + 1);
    CarrySet(s, p, next);
    hide AllCarry, RevisionsRise, CarriesEvent;
    var t := SetMarks(Reclassified(s, p, next), p, marks);
    assert t.agents == s.agents[p := next] && t.revision == s.revision[p := t.revCounter];
  }

  lemma ClassifyFrame(s: Agents, p: PaneId, eventId: nat, generation: nat, contentRev: nat, kind: Kind, controls: nat, e: Event)
    requires e.Classification?
    ensures SmallFrame(s, Classify(s, p, eventId, generation, contentRev, kind, controls), e)
  {
    hide SmallFrame, SetMarks, Reclassified, ChatSync, MarksOf;
    ElsewhereFrame(s, s, e);
    if ClassifiesCurrent(s, p, eventId, generation, contentRev) {
      var a := s.agents[p];
      var next := a.(kind := if kind.NoKind? then Unknown else kind, controls := controls);
      ReclassifiedFrame(s, p, next, ChatSync(MarksOf(s, p), a.kind, next.kind, s.revCounter + 1), e);
    }
  }

  lemma AcknowledgeFrame(s: Agents, p: PaneId, now: int, e: Event)
    requires e.Acknowledged?
    ensures SmallFrame(s, Acknowledge(s, p, now), e)
  {
    NothingMoved(s);
    if p in s.agents {
      CarrySet(s, p, Seen(s.agents[p], now));
      hide Settles, Seen, AllCarry, RevisionsRise;
      assert Acknowledge(s, p, now).agents.Keys == s.agents.Keys;
    }
  }

  lemma PostponeFrame(s: Agents, p: PaneId, tab: string, workspace: string, status: Status, updatedAt: int,
                      evicted: PaneId, now: int, e: Event)
    requires e.StatusEvent?
    ensures SmallFrame(s, Postpone(s, p, tab, workspace, status, updatedAt, evicted, now), e)
  {
    NothingMoved(s);
    hide AllCarry, RevisionsRise;
  }

  lemma RegisterFrame(s: Agents, p: PaneId, revision: nat, e: Event)
    requires e.FinishedFor?
    ensures SmallFrame(s, Register(s, p, revision), e)
  {
    hide Registers, SmallFrame;
    if Registers(s, p, revision) {
      ElsewhereFrame(s, Register(s, p, revision), e);
    } else {
      ElsewhereFrame(s, s, e);
    }
  }

  /** Only the notifications, the topology generation, the readiness or the bumped generation move. */
  lemma ElsewhereFrame(s: Agents, t: Agents, e: Event)
    requires t == s.(finished := t.finished, topologyGen := t.topologyGen, generation := t.generation, ready := t.ready,
                     notified := t.notified)
    requires s.topologyGen <= t.topologyGen && s.notified <= t.notified
    requires t.generation == (if e.Bump? then s.generation[e.pane := Count(s.generation, e.pane) + 1] else s.generation)
    ensures SmallFrame(s, t, e)
  {
    NothingMoved(s);
    hide AllCarry, RevisionsRise;
  }

  lemma SmallStep(s: Agents, e: Event)
    requires Inv(s) && !e.Poll? && !e.Snapshot?
    ensures SmallFrame(s, Step(s, e), e)
  {
    InvAgents(s);
    hide Inv, ApplyEvent, Postpone, Classify, Acknowledge, Register, AgentsOk, Matches, SmallFrame;
    match e
    case StatusEvent(p, tab, workspace, status, updatedAt, evicted, now) =>
      if p !in s.agents {
        PostponeFrame(s, p, tab, workspace, status, updatedAt, evicted, now, e);
      } else if Matches(s.agents[p], tab, workspace) {
        EventFrame(s, p, status, updatedAt, now, e);
      } else {
        ElsewhereFrame(s, s, e);
      }
    case Classification(p, eventId, expected, contentRev, kind, controls) =>
      ClassifyFrame(s, p, eventId, expected, contentRev, kind, controls, e);
    case Acknowledged(p, now) => AcknowledgeFrame(s, p, now, e);
    case Finished(_) => ElsewhereFrame(s, Step(s, e), e);
    case FinishedFor(p, revision) => RegisterFrame(s, p, revision, e);
    case Bump(_) => ElsewhereFrame(s, Step(s, e), e);
    case TopologyMoved => ElsewhereFrame(s, Step(s, e), e);
    case InventoryFailed => ElsewhereFrame(s, Step(s, e), e);
  }

  // ---------------------------------------------------------------- polls never undo an event

  /** A record settles to the status the pane holds exactly when the pane moved past the base. */
  lemma CommittedStatus(s: Agents, incoming: Incoming, baseRev: nat, initial: bool, now: int)
    requires s.pending.Keys !! s.agents.Keys && Known(s, incoming).Some?
    ensures Committed(s, incoming, baseRev, initial, now).status ==
      if Count(s.revision, incoming.pane) > baseRev then s.agents[incoming.pane].status else incoming.agent.status
  {
    hide Differ, SameActivity;
  }

  /** An accepted poll leaves the status of a pane whose revision moved past the poll's base, and
      brings its own status to every other pane whose session it knows. */
  lemma PollKeepsEvents(s: Agents, records: seq<Incoming>, token: Token, now: int, i: nat)
    requires Inv(s) && WellFormed(records) && i < |records|
    requires s.topologyGen == token.topologyGen && Known(s, records[i]).Some?
    ensures var (t, committed) := CommitPoll(s, records, token, now);
      var p := records[i].pane;
      && committed && p in t.agents
      && t.agents[p].status ==
           if Count(s.revision, p) > token.baseRevision then s.agents[p].status else records[i].agent.status
  {
    WellFormedBatch(s, records);
    var mid := InventoryAt(s, records, token.baseRevision, now, i);
    assert mid.pending.Keys !! mid.agents.Keys by { hide AgentsOk, MarksOk, NotifiedOk, CountersOk; }
    hide Inv, Core, Batch, WellFormed, CommitInventory, RecordOk, TopologyChanged, Replaced;
    CommittedStatus(mid, records[i], token.baseRevision, !s.ready, now);
    CommitOneAgent(mid, records[i], token.baseRevision, !s.ready, now);
  }

  lemma CommitOneAgent(s: Agents, incoming: Incoming, baseRev: nat, initial: bool, now: int)
    ensures var t := CommitOne(s, incoming, baseRev, initial, now);
      && incoming.pane in t.agents
      && t.agents[incoming.pane] == Committed(s, incoming, baseRev, initial, now)
      && Count(t.revision, incoming.pane) == s.revCounter
  {
    hide Committed, CommittedMarks, ContentMoved, AttentionMoved, OpensSession;
  }

  /** A commit that leaves the topology generation alone named exactly the known panes. */
  lemma SameTopology(s: Agents, records: seq<Incoming>)
    requires forall i, j :: 0 <= i < j < |records| ==> records[i].pane != records[j].pane
    requires !TopologyChanged(s, records)
    ensures Panes(records) == s.agents.Keys
  {
    PanesSize(records);
    assert forall i :: 0 <= i < |records| ==> records[i].pane in s.agents;
    assert Panes(records) <= s.agents.Keys;
    EqualByLength(Panes(records), s.agents.Keys);
  }

  lemma EqualByLength(a: set<PaneId>, b: set<PaneId>)
    requires a <= b && |a| == |b|
    ensures a == b
  {
    assert |b - a| == |b| - |a|;
  }

  lemma {:induction false} PanesSize(records: seq<Incoming>)
    requires forall i, j :: 0 <= i < j < |records| ==> records[i].pane != records[j].pane
    ensures |Panes(records)| == |records|
    decreases |records|
  {
    if records != [] {
      PanesSize(records[1..]);
      assert records == [records[0]] + records[1..];
      assert Panes(records) == {records[0].pane} + Panes(records[1..]);
      assert records[0].pane !in Panes(records[1..]);
    }
  }

  /** The topology generation never falls, and while it stands still the pane set does too. */
  lemma CommitTopologyQuiet(s: Agents, records: seq<Incoming>, baseRev: nat, now: int)
    requires Batch(s, records)
    ensures var t := CommitInventory(s, records, baseRev, now);
      s.topologyGen <= t.topologyGen && (s.topologyGen == t.topologyGen ==> t.agents.Keys == s.agents.Keys)
  {
    InventoryCounters(s, records, baseRev, now);
    hide CommitInventory;
    if !TopologyChanged(s, records) {
      SameTopology(s, records);
    }
  }

  lemma StepTopologyQuiet(s: Agents, e: Event)
    requires Inv(s) && Admissible(s, e)
    ensures var t := Step(s, e);
      s.topologyGen <= t.topologyGen && (s.topologyGen == t.topologyGen ==> t.agents.Keys == s.agents.Keys)
  {
    hide Inv, Base, BaseRev, Clock, Batch, Step, CommitInventory, Committing, AllCarry, RevisionsRise, Admissible;
    if Committing(s, e).Some? {
      CommitShape(s, e);
      CommitTopologyQuiet(Base(s, e), Committing(s, e).value, BaseRev(e), Clock(e));
    } else {
      SmallOrNothing(s, e);
    }
  }

  /** A step that commits nothing is small, or a refused poll that changes nothing. */
  lemma SmallOrNothing(s: Agents, e: Event)
    requires Inv(s) && Committing(s, e).None?
    ensures SmallFrame(s, Step(s, e), e)
  {
    NothingMoved(s);
    hide Inv, AllCarry, RevisionsRise;
    if !e.Poll? {
      hide Step;
      SmallStep(s, e);
    }
  }

  lemma {:induction false} RunTopologyQuiet(s: Agents, events: seq<Event>)
    requires Inv(s) && Admitted(s, events)
    ensures Inv(Run(s, events))
    ensures var t := Run(s, events);
      s.topologyGen <= t.topologyGen && (s.topologyGen == t.topologyGen ==> t.agents.Keys == s.agents.Keys)
    decreases |events|
  {
    hide Inv, Step, Admissible;
    if events != [] {
      StepInv(s, events[0]);
      StepTopologyQuiet(s, events[0]);
      RunTopologyQuiet(Step(s, events[0]), events[1..]);
    }
  }

  /** A poll is accepted only on the pane set its token was taken on. */
  lemma PollSeesTokenPanes(s: Agents, events: seq<Event>, records: seq<Incoming>, now: int)
    requires Inv(s) && Admitted(s, events)
    requires CommitPoll(Run(s, events), records, BeginPoll(s), now).1
    ensures Run(s, events).agents.Keys == s.agents.Keys
  {
    RunTopologyQuiet(s, events);
  }

  /** A pane that stays has a revision that never falls. */
  lemma StepRevision(s: Agents, e: Event, p: PaneId)
    requires Inv(s) && Admissible(s, e) && p in s.agents && p in Step(s, e).agents
    ensures Count(s.revision, p) <= Count(Step(s, e).revision, p)
  {
    hide Inv, Base, BaseRev, Clock, Step, Admissible, Committing, CommitInventory, Batch, AllCarry, Core, CommitOne, RecordOk;
    InvRevision(s, p);
    if Committing(s, e).Some? {
      CommitShape(s, e);
      CommitRevision(Base(s, e), Committing(s, e).value, BaseRev(e), Clock(e), p);
    } else {
      SmallOrNothing(s, e);
    }
  }

  lemma InvRevision(s: Agents, p: PaneId)
    requires Inv(s)
    ensures Count(s.revision, p) <= s.revCounter
  {
    hide AgentsOk, MarksOk, NotifiedOk;
  }

  lemma CommitRevision(s: Agents, records: seq<Incoming>, baseRev: nat, now: int, p: PaneId)
    requires Inv(s) && Batch(s, records) && p in CommitInventory(s, records, baseRev, now).agents
    ensures Count(CommitInventory(s, records, baseRev, now).revision, p) == s.revCounter + 1
  {
    hide Inv, CommitInventory, Batch, CommitOne, RecordOk, Core, TopologyChanged;
    InventoryCounters(s, records, baseRev, now);
    var i :| 0 <= i < |records| && records[i].pane == p;
    var mid := InventoryAt(s, records, baseRev, now, i);
    CommitOneAgent(mid, records[i], baseRev, !s.ready, now);
  }

  lemma {:induction false} RunRevision(s: Agents, events: seq<Event>, p: PaneId)
    requires Inv(s) && Admitted(s, events) && p in s.agents && Run(s, events).topologyGen == s.topologyGen
    ensures p in Run(s, events).agents && Count(s.revision, p) <= Count(Run(s, events).revision, p)
    decreases |events|
  {
    hide Inv, Step, Admissible;
    if events != [] {
      var t := Step(s, events[0]);
      StepInv(s, events[0]);
      StepTopologyQuiet(s, events[0]);
      RunTopologyQuiet(t, events[1..]);
      StepRevision(s, events[0], p);
      RunRevision(t, events[1..], p);
    }
  }

  /** Whatever status event a pane accepts after a poll took its token, the poll, if it is accepted
      at all, leaves the status the pane then has. */
  lemma PollKeepsEventsOfRun(
    s: Agents, before: seq<Event>, e: Event, after: seq<Event>, records: seq<Incoming>, now: int, i: nat)
    requires Inv(s) && Admitted(s, before)
    requires var at := Run(s, before);
      && e.StatusEvent? && e.pane in at.agents && Matches(at.agents[e.pane], e.tab, e.workspace)
      && Admissible(at, e) && Admitted(Step(at, e), after)
    requires var last := Run(Step(Run(s, before), e), after);
      && CommitPoll(last, records, BeginPoll(s), now).1
      && WellFormed(records) && i < |records| && records[i].pane == e.pane && Known(last, records[i]).Some?
    ensures var last := Run(Step(Run(s, before), e), after);
      var t := CommitPoll(last, records, BeginPoll(s), now).0;
      && e.pane in t.agents && t.agents[e.pane].status == last.agents[e.pane].status
  {
    var at := Run(s, before);
    RunTopologyQuiet(s, before);
    RunCounter(s, before);
    var landed := Step(at, e);
    StepInv(at, e);
    StepTopologyQuiet(at, e);
    EventRevision(at, e.pane, e.status, e.updatedAt, e.now);
    assert landed == ApplyEvent(at, e.pane, e.status, e.updatedAt, e.now);
    hide Inv, ApplyEvent, Admissible, Matches, WellFormed;
    RunTopologyQuiet(landed, after);
    RunRevision(landed, after, e.pane);
    PollKeepsEvents(Run(landed, after), records, BeginPoll(s), now, i);
  }

  lemma EventRevision(s: Agents, p: PaneId, status: Status, updatedAt: int, now: int)
    requires p in s.agents
    ensures var t := ApplyEvent(s, p, status, updatedAt, now);
      t.topologyGen == s.topologyGen && Count(t.revision, p) == s.revCounter + 1 && p in t.agents
  {
    hide EventAgent, AfterTransition, MarksOf;
  }

  lemma StepCounter(s: Agents, e: Event)
    requires Inv(s) && Admissible(s, e)
    ensures s.revCounter <= Step(s, e).revCounter && s.notified <= Step(s, e).notified && s.lastEvent <= Step(s, e).lastEvent
  {
    hide Inv, Base, BaseRev, Clock, Batch, Step, CommitInventory, Committing, AllCarry, RevisionsRise, Admissible, TopologyChanged;
    if Committing(s, e).Some? {
      CommitShape(s, e);
      InventoryCounters(Base(s, e), Committing(s, e).value, BaseRev(e), Clock(e));
    } else {
      SmallOrNothing(s, e);
    }
  }

  lemma {:induction false} RunCounter(s: Agents, events: seq<Event>)
    requires Inv(s) && Admitted(s, events)
    ensures Inv(Run(s, events)) && s.revCounter <= Run(s, events).revCounter && s.notified <= Run(s, events).notified
    decreases |events|
  {
    hide Inv, Step, Admissible;
    if events != [] {
      StepInv(s, events[0]);
      StepCounter(s, events[0]);
      RunCounter(Step(s, events[0]), events[1..]);
    }
  }

  // ---------------------------------------------------------------- generations tell sessions apart

  /** The step ends the session of a pane: its generation is bumped, or a commit omits the pane or
      names another session under its id. */
  ghost predicate EndsSession(s: Agents, e: Event, p: PaneId) {
    || (e.Bump? && e.pane == p)
    || (Committing(s, e).Some? &&
        !exists i :: 0 <= i < |Committing(s, e).value| && Committing(s, e).value[i].pane == p &&
                     Known(s, Committing(s, e).value[i]).Some?)
  }

  /** No step of the run ends the session. */
  ghost predicate SameSession(s: Agents, events: seq<Event>, p: PaneId)
    decreases |events|
  {
    events == [] || (!EndsSession(s, events[0], p) && SameSession(Step(s, events[0]), events[1..], p))
  }

  /** Generations never fall; that of a known pane rises exactly when its session ends, and the
      pane is still known when it does not. */
  lemma StepGeneration(s: Agents, e: Event, p: PaneId)
    requires Inv(s) && Admissible(s, e)
    ensures Count(s.generation, p) <= Count(Step(s, e).generation, p)
    ensures p in s.agents ==> (Count(s.generation, p) < Count(Step(s, e).generation, p) <==> EndsSession(s, e, p))
    ensures p in s.agents && !EndsSession(s, e, p) ==> p in Step(s, e).agents
  {
    hide Inv, Base, BaseRev, Clock, Batch, Step, CommitInventory, Committing, AllCarry, RevisionsRise, Admissible;
    if Committing(s, e).Some? {
      CommitGeneration(s, e, p);
    } else {
      SmallOrNothing(s, e);
      assert EndsSession(s, e, p) <==> e.Bump? && e.pane == p;
    }
  }

  lemma CommitGeneration(s: Agents, e: Event, p: PaneId)
    requires Inv(s) && Admissible(s, e) && Committing(s, e).Some?
    ensures Count(s.generation, p) <= Count(Step(s, e).generation, p)
    ensures p in s.agents ==> (Count(s.generation, p) < Count(Step(s, e).generation, p) <==> EndsSession(s, e, p))
    ensures p in s.agents && !EndsSession(s, e, p) ==> p in Step(s, e).agents
  {
    hide Inv, Base, BaseRev, Clock, Step, Admissible, CommitInventory, Committing, Batch, Replaced, TopologyChanged, EndsSession;
    var records, base := Committing(s, e).value, Base(s, e);
    CommitShape(s, e);
    InventoryCounters(base, records, BaseRev(e), Clock(e));
    NotBump(s, e);
    if p in Panes(records) {
      var i :| 0 <= i < |records| && records[i].pane == p;
      InventoryGeneration(base, records, BaseRev(e), Clock(e), i);
      OnlyRecord(base, records, i);
      SameKnown(s, base, records[i]);
      EndsAt(s, e, p, i);
    } else {
      InventoryElsewhere(base, records, BaseRev(e), Clock(e), p);
      EndsUnnamed(s, e, p);
    }
  }

  lemma EndsAt(s: Agents, e: Event, p: PaneId, i: nat)
    requires Committing(s, e).Some? && !e.Bump? && i < |Committing(s, e).value| && Committing(s, e).value[i].pane == p
    requires forall j :: 0 <= j < |Committing(s, e).value| && Committing(s, e).value[j].pane == p ==> j == i
    ensures EndsSession(s, e, p) <==> Known(s, Committing(s, e).value[i]).None?
  {
    hide Committing, Known;
  }

  lemma EndsUnnamed(s: Agents, e: Event, p: PaneId)
    requires Committing(s, e).Some? && p !in Panes(Committing(s, e).value)
    ensures EndsSession(s, e, p)
  {
    hide Committing, Known;
  }

  lemma OnlyRecord(s: Agents, records: seq<Incoming>, i: nat)
    requires Batch(s, records) && i < |records|
    ensures forall j :: 0 <= j < |records| && records[j].pane == records[i].pane ==> j == i
  {
  }

  lemma {:induction false} RunGeneration(s: Agents, events: seq<Event>, p: PaneId)
    requires Inv(s) && Admitted(s, events)
    ensures Count(s.generation, p) <= Count(Run(s, events).generation, p)
    decreases |events|
  {
    hide Inv, Step, Admissible, EndsSession;
    if events != [] {
      StepInv(s, events[0]);
      StepGeneration(s, events[0], p);
      RunGeneration(Step(s, events[0]), events[1..], p);
    }
  }

  /** A generation captured while a pane was present is current later exactly when nothing ended
      that session in between: once it is stale it stays stale, even if the id is used again. */
  lemma {:induction false} CapturedGeneration(s: Agents, events: seq<Event>, p: PaneId)
    requires Inv(s) && Admitted(s, events) && p in s.agents
    ensures SessionCurrent(Run(s, events), p, Count(s.generation, p)) <==> SameSession(s, events, p)
    decreases |events|
  {
    hide Inv, Step, Admissible, EndsSession;
    if events != [] {
      var t := Step(s, events[0]);
      StepInv(s, events[0]);
      StepGeneration(s, events[0], p);
      if EndsSession(s, events[0], p) {
        RunGeneration(t, events[1..], p);
      } else {
        CapturedGeneration(t, events[1..], p);
      }
    }
  }

  /** A generation read while the pane was absent stays unusable when the pane comes back, unless
      the commit that brings it is the first after a failed poll or the pane never had a session. */
  lemma AbsentGeneration(s: Agents, records: seq<Incoming>, baseRev: nat, now: int, i: nat)
    requires Inv(s) && WellFormed(records) && i < |records| && records[i].pane !in s.agents
    ensures SessionCurrent(CommitInventory(s, records, baseRev, now), records[i].pane, Count(s.generation, records[i].pane))
      <==> !s.ready || Count(s.generation, records[i].pane) == 0
  {
    WellFormedBatch(s, records);
    InventoryCounters(s, records, baseRev, now);
    assert records[i].pane in Panes(records);
    InventoryGeneration(s, records, baseRev, now, i);
    hide Inv, Batch, WellFormed, CommitInventory;
  }

  // ---------------------------------------------------------------- a blocked event names one wait

  ghost predicate BlockedAt(s: Agents, p: PaneId) {
    p in s.agents && s.agents[p].status.Blocked?
  }

  /** The pane waits in every state of the run, in one session. */
  ghost predicate OneWait(s: Agents, events: seq<Event>, p: PaneId)
    decreases |events|
  {
    BlockedAt(s, p) &&
    (events == [] || (!Reopens(s, events[0], p) && OneWait(Step(s, events[0]), events[1..], p)))
  }

  /** A commit names another session under the pane's id. */
  ghost predicate Reopens(s: Agents, e: Event, p: PaneId) {
    Committing(s, e).Some? && EndsSession(s, e, p)
  }

  /** A record that continues a wait keeps its event; every other one that blocks draws a new one. */
  lemma CommittedEvent(s: Agents, incoming: Incoming, baseRev: nat, initial: bool, now: int)
    requires AgentsOk(s.agents, s.prevStatus, s.lastEvent) && s.pending.Keys !! s.agents.Keys && RecordOk(s, incoming)
    ensures var a := Committed(s, incoming, baseRev, initial, now);
      var continued := Known(s, incoming).Some? && BlockedAt(s, incoming.pane);
      a.status.Blocked? ==> if continued then a.eventId == s.agents[incoming.pane].eventId else a.eventId > s.lastEvent
  {
    CommittedOk(s, incoming, baseRev, initial, now);
    hide AgentsOk, Differ, SameActivity;
  }

  lemma CommitEventId(s: Agents, records: seq<Incoming>, baseRev: nat, now: int, i: nat)
    requires Inv(s) && Batch(s, records) && i < |records|
    ensures var t, p := CommitInventory(s, records, baseRev, now), records[i].pane;
      BlockedAt(t, p) ==>
        if BlockedAt(s, p) && Known(s, records[i]).Some? then t.agents[p].eventId == s.agents[p].eventId
        else t.agents[p].eventId > s.lastEvent
  {
    var mid := InventoryAt(s, records, baseRev, now, i);
    assert AgentsOk(mid.agents, mid.prevStatus, mid.lastEvent) && mid.pending.Keys !! mid.agents.Keys by {
      hide MarksOk, NotifiedOk, CountersOk, AgentsOk;
    }
    hide Inv, Core, Batch, CommitInventory, AgentsOk, TopologyChanged, RecordOk, Replaced;
    CommittedEvent(mid, records[i], baseRev, !s.ready, now);
    CommitOneAgent(mid, records[i], baseRev, !s.ready, now);
    hide CommitOne, Committed;
  }

  /** A step that leaves the pane waiting keeps its event if it was waiting in the same session,
      and otherwise gives it an event no pane had before. */
  lemma StepEventId(s: Agents, e: Event, p: PaneId)
    requires Inv(s) && Admissible(s, e) && BlockedAt(Step(s, e), p)
    ensures var t := Step(s, e);
      if BlockedAt(s, p) && !Reopens(s, e, p) then t.agents[p].eventId == s.agents[p].eventId
      else t.agents[p].eventId > s.lastEvent
  {
    hide Inv, Step, Committing, RevisionsRise, Admissible, EndsSession;
    if Committing(s, e).Some? {
      CommitStepEventId(s, e, p);
    } else {
      SmallOrNothing(s, e);
    }
  }

  lemma CommitStepEventId(s: Agents, e: Event, p: PaneId)
    requires Inv(s) && Admissible(s, e) && BlockedAt(Step(s, e), p) && Committing(s, e).Some?
    ensures var t := Step(s, e);
      if BlockedAt(s, p) && !EndsSession(s, e, p) then t.agents[p].eventId == s.agents[p].eventId
      else t.agents[p].eventId > s.lastEvent
  {
    hide Inv, Base, BaseRev, Clock, Batch, Step, CommitInventory, Committing, Admissible, EndsSession, Known, TopologyChanged;
    var records, base := Committing(s, e).value, Base(s, e);
    CommitShape(s, e);
    InventoryCounters(base, records, BaseRev(e), Clock(e));
    NotBump(s, e);
    var i :| 0 <= i < |records| && records[i].pane == p;
    CommitEventId(base, records, BaseRev(e), Clock(e), i);
    OnlyRecord(base, records, i);
    SameKnown(s, base, records[i]);
    EndsAt(s, e, p, i);
  }

  lemma SameKnown(s: Agents, t: Agents, incoming: Incoming)
    requires s.agents == t.agents
    ensures Known(s, incoming) == Known(t, incoming)
  {
  }

  lemma NotBump(s: Agents, e: Event)
    requires Committing(s, e).Some?
    ensures !e.Bump?
  {
  }

  /** Once every wait of the pane is newer than an event, that stays so. */
  lemma {:induction false} NewerForever(s: Agents, events: seq<Event>, p: PaneId, event: nat)
    requires Inv(s) && Admitted(s, events) && event <= s.lastEvent
    requires BlockedAt(s, p) ==> s.agents[p].eventId > event
    ensures BlockedAt(Run(s, events), p) ==> Run(s, events).agents[p].eventId > event
    decreases |events|
  {
    hide Inv, Step, Admissible, Reopens;
    if events != [] {
      var t := Step(s, events[0]);
      StepInv(s, events[0]);
      StepCounter(s, events[0]);
      if BlockedAt(t, p) {
        StepEventId(s, events[0], p);
      }
      NewerForever(t, events[1..], p, event);
    }
  }

  /** Two states of a run in which a pane waits carry the same event id exactly when the pane waited
      all the time in between, in one session. */
  lemma {:induction false} EventIdNamesOneWait(s: Agents, events: seq<Event>, p: PaneId)
    requires Inv(s) && Admitted(s, events) && BlockedAt(s, p) && BlockedAt(Run(s, events), p)
    ensures Run(s, events).agents[p].eventId == s.agents[p].eventId <==> OneWait(s, events, p)
    decreases |events|
  {
    hide Inv, Step, Admissible, Reopens;
    if events != [] {
      var t := Step(s, events[0]);
      StepInv(s, events[0]);
      StepCounter(s, events[0]);
      EventIsDrawn(s, p);
      if BlockedAt(t, p) {
        StepEventId(s, events[0], p);
      }
      if BlockedAt(t, p) && !Reopens(s, events[0], p) {
        EventIdNamesOneWait(t, events[1..], p);
      } else {
        NewerForever(t, events[1..], p, s.lastEvent);
      }
    }
  }

  lemma EventIsDrawn(s: Agents, p: PaneId)
    requires Inv(s) && BlockedAt(s, p)
    ensures s.agents[p].eventId <= s.lastEvent
  {
    InvAgents(s);
    hide Inv;
  }

  // ---------------------------------------------------------------- reachable states

  lemma Reachable(events: seq<Event>)
    requires Admitted(Empty, events)
    ensures Inv(Run(Empty, events))
  {
    EmptyInv();
    RunInv(Empty, events);
  }

  /** A pane is blocked exactly when it has an event id, and exactly when it has an attention kind. */
  lemma BlockedExactly(events: seq<Event>, p: PaneId)
    requires Admitted(Empty, events) && p in Run(Empty, events).agents
    ensures var a := Run(Empty, events).agents[p];
      (a.status.Blocked? <==> a.eventId != 0) && (a.status.Blocked? <==> !a.kind.NoKind?)
  {
    var s := Run(Empty, events);
    Reachable(events);
    InvAgents(s);
    hide Inv, Run;
    assert DetailsOk(s.agents[p], s.lastEvent);
  }

  /** The full snapshot and the single-pane query report the same status. */
  lemma SnapshotAgrees(events: seq<Event>, p: PaneId)
    requires Admitted(Empty, events) && p in Run(Empty, events).agents
    ensures Shown(Run(Empty, events), p) == Displayed(Run(Empty, events), p)
  {
    var s := Run(Empty, events);
    Reachable(events);
    InvMarks(s);
    hide Inv, Run;
  }

  /** Once a finished notification was registered for a pane's positive completion revision, no
      later request for it succeeds. */
  lemma FinishedOnce(s: Agents, p: PaneId, revision: nat, events: seq<Event>)
    requires Inv(s) && Registers(s, p, revision) && revision > 0
    requires Admitted(Step(s, FinishedFor(p, revision)), events)
    ensures !Registers(Run(Step(s, FinishedFor(p, revision)), events), p, revision)
  {
    var t := Step(s, FinishedFor(p, revision));
    assert Admissible(s, FinishedFor(p, revision));
    StepInv(s, FinishedFor(p, revision));
    assert t.notified == s.notified + [(p, revision)];
    RunCounter(t, events);
    var last := Run(t, events);
    hide Run, Step;
    assert last.notified[|s.notified|] == t.notified[|s.notified|] == (p, revision);
    NotifiedIsFinished(last, |s.notified|);
    hide Inv;
  }

  lemma NotifiedIsFinished(s: Agents, i: nat)
    requires Inv(s) && i < |s.notified| && s.notified[i].1 > 0
    ensures Count(s.completionRev, s.notified[i].0) == s.notified[i].1 ==> s.notified[i].0 in s.finished
  {
    hide AgentsOk, MarksOk, CountersOk;
  }
}
