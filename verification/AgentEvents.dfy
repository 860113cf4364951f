/** What reaches a pane: a status event, an event that waited for the pane to appear, and a
    classification computed from what the pane showed earlier. */
module AgentEvents {
  import opened Options
  import opened AgentModel
  import opened AgentTheorems
  import opened AgentPromises
  import opened AgentMarks

  // ---------------------------------------------------------------- status events

  /** An event for a known session brings its status at once and touches no other pane; one for another
      session changes nothing. */
  lemma EventTakesHold(s: Agents, e: Event, q: PaneId)
    requires e.StatusEvent? && e.pane in s.agents
    ensures var t := Step(s, e);
      if Matches(s.agents[e.pane], e.tab, e.workspace) then
        && e.pane in t.agents && t.agents[e.pane].status == e.status && t.agents[e.pane].updatedAt == e.updatedAt
        && (q != e.pane ==>
              && (q in t.agents <==> q in s.agents) && (q in s.agents ==> t.agents[q] == s.agents[q])
              && MarksOf(t, q) == MarksOf(s, q) && Count(t.generation, q) == Count(s.generation, q))
      else t == s
  {
    hide Matches, AfterTransition;
  }

  /** The topology generation stands still exactly through a commit that names the known panes, each in
      its session. */
  lemma TopologyMovesExactly(s: Agents, records: seq<Incoming>, baseRev: nat, now: int)
    requires forall i, j :: 0 <= i < j < |records| ==> records[i].pane != records[j].pane
    ensures CommitInventory(s, records, baseRev, now).topologyGen == s.topologyGen <==>
      Panes(records) == s.agents.Keys && forall i :: 0 <= i < |records| ==> Known(s, records[i]).Some?
  {
    InventoryCounters(s, records, baseRev, now);
    hide CommitInventory, Known;
    PanesSize(records);
    if !TopologyChanged(s, records) {
      SameTopology(s, records);
    }
  }

  // ---------------------------------------------------------------- events that wait for their pane

  /** The waiting event a commit at time `now` would apply to this record. */
  ghost predicate WaitsFor(s: Agents, incoming: Incoming, now: int) {
    && incoming.pane in s.pending && now < s.pending[incoming.pane].expiresAt
    && Matches(incoming.agent, s.pending[incoming.pane].tab, s.pending[incoming.pane].workspace)
  }

  lemma AppearsWith(s: Agents, incoming: Incoming, baseRev: nat, initial: bool, now: int)
    requires incoming.pane !in s.agents
    ensures Committed(s, incoming, baseRev, initial, now).status ==
      if WaitsFor(s, incoming, now) then s.pending[incoming.pane].status else incoming.agent.status
  {
    hide Differ, Replaced;
  }

  lemma InventoryAppears(s: Agents, records: seq<Incoming>, baseRev: nat, now: int, i: nat)
    requires Inv(s) && Batch(s, records) && i < |records| && records[i].pane !in s.agents
    ensures var t, p := CommitInventory(s, records, baseRev, now), records[i].pane;
      p in t.agents && t.agents[p].status ==
        if WaitsFor(s, records[i], now) then s.pending[p].status else records[i].agent.status
  {
    var mid := InventoryAt(s, records, baseRev, now, i);
    hide Inv, Core, Batch, CommitInventory, TopologyChanged, RecordOk, Matches;
    AppearsWith(mid, records[i], baseRev, !s.ready, now);
    CommitOneAgent(mid, records[i], baseRev, !s.ready, now);
    hide CommitOne, Committed;
  }

  lemma KeptUnknown(s: Agents, records: seq<Incoming>, i: nat)
    requires i < |records| && records[i].pane !in s.agents
    ensures |KeepStatuses(s, records)| == |records| && KeepStatuses(s, records)[i] == records[i]
  {
  }

  lemma UnknownBase(s: Agents, e: Event)
    requires e.Poll? || e.Snapshot?
    ensures Base(s, e).agents == s.agents && Base(s, e).pending == s.pending && Clock(e) == e.now
  {
  }

  lemma UnknownRecord(s: Agents, e: Event, i: nat)
    requires (e.Poll? || e.Snapshot?) && Committing(s, e).Some? && i < |e.records| && e.records[i].pane !in s.agents
    ensures i < |Committing(s, e).value| && Committing(s, e).value[i] == e.records[i]
  {
    UnknownBase(s, e);
    hide Base, KeepStatuses;
    if e.Snapshot? {
      KeptUnknown(Base(s, e), e.records, i);
    }
  }

  /** A pane that appears starts with the status of the event that waited for it, if it still waits and
      is meant for this session, and with the sampled one otherwise. */
  lemma WaitingEventDecides(s: Agents, e: Event, i: nat)
    requires Inv(s) && Admissible(s, e) && (e.Poll? || e.Snapshot?) && Committing(s, e).Some?
    requires i < |e.records| && e.records[i].pane !in s.agents
    ensures var t, p := Step(s, e), e.records[i].pane;
      p in t.agents && t.agents[p].status ==
        if WaitsFor(s, e.records[i], e.now) then s.pending[p].status else e.records[i].agent.status
  {
    hide Inv, Step, Base, BaseRev, Clock, Committing, Batch, CommitInventory, Matches, Admissible;
    CommitShape(s, e);
    UnknownRecord(s, e, i);
    UnknownBase(s, e);
    InventoryAppears(Base(s, e), Committing(s, e).value, BaseRev(e), Clock(e), i);
  }

  /** The event leaves the one that waits for pane `p` until time `until` alone: no commit names the pane
      or comes too late, and no other event for the pane, or in want of room, takes its place. */
  ghost predicate LeavesWaiting(s: Agents, e: Event, p: PaneId, until: int) {
    && (e.Poll? || e.Snapshot? ==> p !in Panes(e.records) && e.now < until)
    && (e.StatusEvent? ==> e.pane != p && (e.pane in s.agents || |s.pending| < PENDING_LIMIT || e.evicted != p))
  }

  ghost predicate StillWaits(s: Agents, p: PaneId, event: Pending) {
    p !in s.agents && p in s.pending && s.pending[p] == event
  }

  lemma InventoryWaits(s: Agents, records: seq<Incoming>, baseRev: nat, now: int, p: PaneId, event: Pending)
    requires StillWaits(s, p, event) && p !in Panes(records) && now < event.expiresAt
    ensures StillWaits(CommitInventory(s, records, baseRev, now), p, event)
  {
    var begun := Begun(s, records);
    RecordsFrame(begun, records, baseRev, !s.ready, now, p);
    hide CommitRecords, TopologyChanged, MarksOf;
  }

  lemma NamedBySnapshot(s: Agents, records: seq<Incoming>, p: PaneId)
    requires p !in Panes(records)
    ensures p !in Panes(KeepStatuses(s, records))
  {
    var kept := KeepStatuses(s, records);
    forall r | r in kept
      ensures r.pane != p
    {
      var i :| 0 <= i < |kept| && kept[i] == r;
      assert records[i] in records && r.pane == records[i].pane;
    }
  }

  lemma CommitWaits(s: Agents, e: Event, p: PaneId, event: Pending)
    requires StillWaits(s, p, event) && LeavesWaiting(s, e, p, event.expiresAt) && Committing(s, e).Some?
    ensures StillWaits(Step(s, e), p, event)
  {
    var base, records := Base(s, e), Committing(s, e).value;
    if e.Snapshot? {
      NamedBySnapshot(base, e.records, p);
    }
    hide KeepStatuses, CommitInventory;
    CommitStep(s, e);
    hide Step;
    InventoryWaits(base, records, BaseRev(e), Clock(e), p, event);
  }

  lemma StatusWaits(s: Agents, e: Event, p: PaneId, event: Pending)
    requires StillWaits(s, p, event) && LeavesWaiting(s, e, p, event.expiresAt) && e.StatusEvent?
    ensures StillWaits(Step(s, e), p, event)
  {
    if e.pane in s.agents {
      AppliedFields(s, e.pane, e.status, e.updatedAt, e.now);
    }
    hide ApplyEvent, Matches;
  }

  lemma AppliedFields(s: Agents, q: PaneId, status: Status, updatedAt: int, now: int)
    requires q in s.agents
    ensures var t := ApplyEvent(s, q, status, updatedAt, now); t.pending == s.pending && t.agents.Keys == s.agents.Keys
  {
    hide EventAgent, AfterTransition, MarksOf;
  }

  lemma ClassificationWaits(s: Agents, e: Event, p: PaneId, event: Pending)
    requires StillWaits(s, p, event) && e.Classification?
    ensures StillWaits(Step(s, e), p, event)
  {
    hide ChatSync, MarksOf;
  }

  lemma AcknowledgedWaits(s: Agents, e: Event, p: PaneId, event: Pending)
    requires StillWaits(s, p, event) && e.Acknowledged?
    ensures StillWaits(Step(s, e), p, event)
  {
    AcknowledgeKeys(s, e.pane, e.now);
    hide Acknowledge;
  }

  lemma StepWaits(s: Agents, e: Event, p: PaneId, event: Pending)
    requires StillWaits(s, p, event) && LeavesWaiting(s, e, p, event.expiresAt)
    ensures StillWaits(Step(s, e), p, event)
  {
    hide Step, Committing, LeavesWaiting;
    if Committing(s, e).Some? {
      CommitWaits(s, e, p, event);
    } else if e.Poll? {
      RefusedPoll(s, e);
    } else if e.Snapshot? {
      AlwaysCommits(s, e);
    } else if e.StatusEvent? {
      StatusWaits(s, e, p, event);
    } else if e.Classification? {
      ClassificationWaits(s, e, p, event);
    } else if e.Acknowledged? {
      AcknowledgedWaits(s, e, p, event);
    } else {
      QuietStep(s, e);
    }
  }

  ghost predicate LeftWaiting(s: Agents, events: seq<Event>, p: PaneId, until: int)
    decreases |events|
  {
    events == [] || (LeavesWaiting(s, events[0], p, until) && LeftWaiting(Step(s, events[0]), events[1..], p, until))
  }

  lemma {:induction false} RunWaits(s: Agents, events: seq<Event>, p: PaneId, event: Pending)
    requires Inv(s) && Admitted(s, events) && StillWaits(s, p, event) && LeftWaiting(s, events, p, event.expiresAt)
    ensures Inv(Run(s, events)) && StillWaits(Run(s, events), p, event)
    decreases |events|
  {
    hide Inv, Step, Admissible, StillWaits, LeavesWaiting;
    if events != [] {
      StepInv(s, events[0]);
      StepWaits(s, events[0], p, event);
      RunWaits(Step(s, events[0]), events[1..], p, event);
    }
  }

  lemma EventWaits(s: Agents, e: Event)
    requires e.StatusEvent? && e.pane !in s.agents
    ensures StillWaits(Step(s, e), e.pane, Pending(e.tab, e.workspace, e.status, e.updatedAt, e.now + 30000))
  {
  }

  /** An event for a pane that is not known yet is not lost: whatever happens in between that does not
      take its place, the pane that appears in its session within 30 seconds appears with its status. */
  lemma WaitingEventReaches(s: Agents, e: Event, between: seq<Event>, f: Event, i: nat)
    requires Inv(s) && e.StatusEvent? && e.pane !in s.agents && Admissible(s, e)
    requires Admitted(Step(s, e), between) && LeftWaiting(Step(s, e), between, e.pane, e.now + 30000)
    requires var u := Run(Step(s, e), between);
      (f.Poll? || f.Snapshot?) && Admissible(u, f) && Committing(u, f).Some? && i < |f.records| && f.records[i].pane == e.pane
    ensures var t := Step(Run(Step(s, e), between), f);
      e.pane in t.agents && t.agents[e.pane].status ==
        if f.now < e.now + 30000 && Matches(f.records[i].agent, e.tab, e.workspace) then e.status else f.records[i].agent.status
  {
    var event := Pending(e.tab, e.workspace, e.status, e.updatedAt, e.now + 30000);
    EventWaits(s, e);
    StepInv(s, e);
    hide Inv, Step, Run, Admissible, Admitted, Committing, LeftWaiting, Matches;
    RunWaits(Step(s, e), between, e.pane, event);
    WaitingEventDecides(Run(Step(s, e), between), f, i);
  }

  // ---------------------------------------------------------------- classifications

  /** What a classification is computed from. */
  ghost predicate SameContent(a: Agent, b: Agent) {
    a.status == b.status && a.content == b.content && a.activity == b.activity && SameDetails(a, b)
  }

  /** The pane's content revision never falls, and while it stands still so does its content. */
  ghost predicate ContentRises(s: Agents, t: Agents, p: PaneId)
    requires p in s.agents && p in t.agents
  {
    && Count(s.contentRev, p) <= Count(t.contentRev, p)
    && (Count(s.contentRev, p) == Count(t.contentRev, p) ==> SameContent(s.agents[p], t.agents[p]))
  }

  lemma CommitOneContent(s: Agents, incoming: Incoming, baseRev: nat, initial: bool, now: int)
    requires Known(s, incoming).Some?
    ensures var t := CommitOne(s, incoming, baseRev, initial, now); incoming.pane in t.agents && ContentRises(s, t, incoming.pane)
  {
    hide Committed, CommittedMarks, Replaced, OpensSession;
  }

  lemma InventoryContent(s: Agents, records: seq<Incoming>, baseRev: nat, now: int, i: nat)
    requires Inv(s) && Batch(s, records) && i < |records| && Known(s, records[i]).Some?
    ensures var t := CommitInventory(s, records, baseRev, now);
      records[i].pane in t.agents && ContentRises(s, t, records[i].pane)
  {
    var mid := InventoryAt(s, records, baseRev, now, i);
    hide Inv, Core, Batch, CommitInventory, TopologyChanged, RecordOk, Replaced, CommitOne, MarksOf, SameContent;
    CommitOneContent(mid, records[i], baseRev, !s.ready, now);
  }

  lemma EventContent(s: Agents, q: PaneId, status: Status, updatedAt: int, now: int, p: PaneId)
    requires Inv(s) && q in s.agents && p in s.agents
    ensures var t := ApplyEvent(s, q, status, updatedAt, now); p in t.agents && ContentRises(s, t, p)
  {
    InvAgents(s);
    assert DetailsOk(s.agents[q], s.lastEvent);
    hide Inv, AgentsOk, AfterTransition, MarksOf;
  }

  lemma ClassifyContent(s: Agents, q: PaneId, eventId: nat, generation: nat, contentRev: nat, kind: Kind, controls: nat, p: PaneId)
    requires p in s.agents
    ensures var t := Classify(s, q, eventId, generation, contentRev, kind, controls); p in t.agents && ContentRises(s, t, p)
  {
    hide ChatSync, MarksOf;
  }

  lemma AcknowledgeKeys(s: Agents, q: PaneId, now: int)
    ensures Acknowledge(s, q, now).agents.Keys == s.agents.Keys
    ensures Acknowledge(s, q, now).contentRev == s.contentRev && Acknowledge(s, q, now).pending == s.pending
  {
  }

  lemma AcknowledgeContent(s: Agents, q: PaneId, now: int, p: PaneId)
    requires p in s.agents && p in Acknowledge(s, q, now).agents
    ensures SameContent(s.agents[p], Acknowledge(s, q, now).agents[p])
  {
    hide Settles;
  }

  lemma StatusContent(s: Agents, e: Event, p: PaneId)
    requires Inv(s) && e.StatusEvent? && p in s.agents
    ensures p in Step(s, e).agents && ContentRises(s, Step(s, e), p)
  {
    hide Inv, ApplyEvent, Matches;
    if e.pane in s.agents {
      EventContent(s, e.pane, e.status, e.updatedAt, e.now, p);
    }
  }

  /** What an announcement touches. */
  ghost predicate OnlyAnnounced(s: Agents, t: Agents) {
    t.agents == s.agents && t.contentRev == s.contentRev && t.pending == s.pending
  }

  lemma AnnouncedFields(s: Agents, t: Agents)
    requires t == s.(finished := t.finished, notified := t.notified)
    ensures OnlyAnnounced(s, t)
  {
  }

  lemma RegisterFields(s: Agents, q: PaneId, revision: nat)
    ensures OnlyAnnounced(s, Register(s, q, revision))
  {
    hide Registers, OnlyAnnounced;
    if Registers(s, q, revision) {
      AnnouncedFields(s, Register(s, q, revision));
    } else {
      AnnouncedFields(s, s);
    }
  }

  /** Requests and counters touch no entry and no waiting event. */
  lemma QuietStep(s: Agents, e: Event)
    requires e.Finished? || e.FinishedFor? || e.Bump? || e.TopologyMoved? || e.InventoryFailed?
    ensures Step(s, e).agents == s.agents && Step(s, e).contentRev == s.contentRev && Step(s, e).pending == s.pending
  {
    hide CommitPoll, CommitTopology, CommitEvent, Classify, Acknowledge, Register;
    match e
    case FinishedFor(q, revision) => RegisterFields(s, q, revision);
    case Finished(_) =>
    case Bump(_) =>
    case TopologyMoved =>
    case InventoryFailed =>
  }

  lemma AcknowledgedContent(s: Agents, e: Event, p: PaneId)
    requires e.Acknowledged? && p in s.agents
    ensures p in Step(s, e).agents && ContentRises(s, Step(s, e), p)
  {
    AcknowledgeKeys(s, e.pane, e.now);
    AcknowledgeContent(s, e.pane, e.now, p);
    hide Acknowledge, SameContent;
  }

  lemma ClassificationContent(s: Agents, e: Event, p: PaneId)
    requires e.Classification? && p in s.agents
    ensures p in Step(s, e).agents && ContentRises(s, Step(s, e), p)
  {
    ClassifyContent(s, e.pane, e.eventId, e.expected, e.contentRev, e.kind, e.controls, p);
    hide Classify, ContentRises;
  }

  lemma SmallContent(s: Agents, e: Event, p: PaneId)
    requires Inv(s) && !e.Poll? && !e.Snapshot? && p in s.agents
    ensures p in Step(s, e).agents && ContentRises(s, Step(s, e), p)
  {
    hide Inv, Step, SameContent;
    if e.StatusEvent? {
      StatusContent(s, e, p);
    } else if e.Classification? {
      ClassificationContent(s, e, p);
    } else if e.Acknowledged? {
      AcknowledgedContent(s, e, p);
    } else {
      QuietStep(s, e);
      SameContentOf(s, p);
    }
  }

  lemma SameContentOf(s: Agents, p: PaneId)
    requires p in s.agents
    ensures SameContent(s.agents[p], s.agents[p])
  {
  }

  /** The record that continues the pane's session. */
  lemma Continued(s: Agents, e: Event, p: PaneId) returns (i: nat)
    requires Committing(s, e).Some? && !EndsSession(s, e, p)
    ensures i < |Committing(s, e).value| && Committing(s, e).value[i].pane == p && Known(s, Committing(s, e).value[i]).Some?
  {
    hide Committing, Known;
    i :| 0 <= i < |Committing(s, e).value| && Committing(s, e).value[i].pane == p && Known(s, Committing(s, e).value[i]).Some?;
  }

  lemma CommitContent(s: Agents, e: Event, p: PaneId)
    requires Inv(s) && Admissible(s, e) && p in s.agents && Committing(s, e).Some? && !EndsSession(s, e, p)
    ensures p in Step(s, e).agents && ContentRises(s, Step(s, e), p)
  {
    hide Inv, Base, BaseRev, Clock, Batch, Step, CommitInventory, Committing, Admissible, Known, EndsSession;
    var i := Continued(s, e, p);
    var records, base := Committing(s, e).value, Base(s, e);
    BaseContent(s, e);
    CommitShape(s, e);
    SameKnown(s, base, records[i]);
    InventoryContent(base, records, BaseRev(e), Clock(e), i);
  }

  lemma BaseContent(s: Agents, e: Event)
    ensures Base(s, e).contentRev == s.contentRev && Base(s, e).agents == s.agents
  {
  }

  lemma StepContent(s: Agents, e: Event, p: PaneId)
    requires Inv(s) && Admissible(s, e) && p in s.agents && !EndsSession(s, e, p)
    ensures p in Step(s, e).agents && ContentRises(s, Step(s, e), p)
  {
    hide Inv, Step, Admissible, ContentRises, EndsSession, Committing;
    if Committing(s, e).Some? {
      CommitContent(s, e, p);
    } else if e.Poll? {
      RefusedPoll(s, e);
      SameRises(s, p);
    } else if e.Snapshot? {
      AlwaysCommits(s, e);
    } else {
      SmallContent(s, e, p);
    }
  }

  lemma SameRises(s: Agents, p: PaneId)
    requires p in s.agents
    ensures ContentRises(s, s, p)
  {
  }

  /** Over one session, an unchanged content revision means unchanged content. */
  lemma {:induction false} RunContent(s: Agents, events: seq<Event>, p: PaneId)
    requires Inv(s) && Admitted(s, events) && p in s.agents && SameSession(s, events, p)
    ensures p in Run(s, events).agents && ContentRises(s, Run(s, events), p)
    decreases |events|
  {
    hide Inv, Step, Admissible, EndsSession;
    if events != [] {
      StepInv(s, events[0]);
      StepContent(s, events[0], p);
      RunContent(Step(s, events[0]), events[1..], p);
    }
  }

  /** A classification computed from what a blocked pane showed takes hold later exactly if the pane's
      session has not ended and its content revision has not moved since. Then the pane still shows the
      very content that was classified, in the same uninterrupted wait. */
  lemma ClassificationIsCurrent(s: Agents, events: seq<Event>, p: PaneId)
    requires Inv(s) && Admitted(s, events) && BlockedAt(s, p)
    ensures var u := Run(s, events);
      var takes := ClassifiesCurrent(u, p, s.agents[p].eventId, Count(s.generation, p), Count(s.contentRev, p));
      && (takes <==> SameSession(s, events, p) && Count(u.contentRev, p) == Count(s.contentRev, p))
      && (takes ==> p in u.agents && SameContent(s.agents[p], u.agents[p]) && OneWait(s, events, p))
  {
    CapturedGeneration(s, events, p);
    hide Inv, Run, Admitted, SameSession, OneWait;
    if SameSession(s, events, p) {
      RunContent(s, events, p);
      if BlockedAt(Run(s, events), p) {
        EventIdNamesOneWait(s, events, p);
      }
    }
  }

  /** Then it replaces kind and controls and nothing else of the pane's entry; otherwise nothing at all
      happens. */
  lemma ClassificationTakesHold(s: Agents, e: Event)
    requires Inv(s) && e.Classification?
    ensures var t := Step(s, e);
      if ClassifiesCurrent(s, e.pane, e.eventId, e.expected, e.contentRev)
      then && e.pane in t.agents
           && t.agents[e.pane] == s.agents[e.pane].(kind := if e.kind.NoKind? then Unknown else e.kind, controls := e.controls)
      else t == s
  {
    hide Inv, ChatSync, MarksOf;
  }
}
