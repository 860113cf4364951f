/** What a pane shows between one stretch of work and the next: done until it is looked at, then idle,
    whatever polls, snapshots and events come in between. */
module AgentMarks {
  import opened Options
  import opened AgentModel
  import opened AgentTheorems
  import opened AgentPromises

  /** A pane that stops working, or stops waiting for anything but a chat, shows as done until it is
      looked at, and its completion can be announced at that revision unless one was already. */
  lemma CompletionShowsDone(s: Agents, p: PaneId, status: Status, updatedAt: int, now: int)
    requires Inv(s) && p in s.agents && Attention(s.agents[p].status) && !s.agents[p].kind.Chat?
    requires status.Done? || status.Idle?
    ensures var t := ApplyEvent(s, p, status, updatedAt, now);
      && p in t.agents && Displayed(t, p).Done?
      && (Registers(t, p, s.revCounter + 1) <==> p !in s.finished)
  {
    InvMarks(s);
    SettledAgent(s, p, status, updatedAt, now);
    hide Inv, EventAgent;
  }

  lemma SettledAgent(s: Agents, p: PaneId, status: Status, updatedAt: int, now: int)
    requires p in s.agents && !status.Blocked?
    ensures var a := EventAgent(s, p, status, updatedAt, now); a.status == status && a.kind.NoKind?
  {
  }

  /** Looking at a pane that shows as done makes it show as idle. */
  lemma LookingSettles(s: Agents, p: PaneId, now: int)
    requires Inv(s) && p in s.agents && Displayed(s, p).Done?
    ensures var t := Acknowledge(s, p, now); p in t.agents && Displayed(t, p) == Idle
  {
    InvMarks(s);
    hide Inv;
  }

  /** A pane that starts to work or to wait again forgets what was seen, acknowledged, announced and
      completed. */
  lemma ResumingClears(s: Agents, p: PaneId, status: Status, updatedAt: int, now: int)
    requires Inv(s) && p in s.agents && Attention(status) && s.agents[p].status != status
    ensures MarksOf(ApplyEvent(s, p, status, updatedAt, now), p) == Marks(false, false, false, 0)
  {
    assert !EventAgent(s, p, status, updatedAt, now).kind.Chat?;
    hide Inv, EventAgent;
  }

  // ---------------------------------------------------------------- marks stay while a pane rests

  ghost predicate Rests(s: Agents, p: PaneId) {
    p in s.agents && !Attention(s.agents[p].status)
  }

  ghost predicate SameMarks(s: Agents, t: Agents, p: PaneId) {
    (p in t.unseen <==> p in s.unseen) && (p in t.acked <==> p in s.acked)
  }

  /** Between two states of rest of one session nothing is marked anew. */
  lemma RestingTransition(m: Marks, prev: Option<Status>, status: Status, previousKind: Kind, kind: Kind, rev: nat)
    requires !Attention(status) && !WasAttention(prev) && !previousKind.Chat? && !kind.Chat?
    ensures Transition(m, prev, status, previousKind, rev) == m && ChatSync(m, previousKind, kind, rev) == m
    ensures AfterTransition(m, prev, status, previousKind, kind, rev) == m
  {
  }

  lemma RestingAgent(s: Agents, p: PaneId)
    requires AgentsOk(s.agents, s.prevStatus, s.lastEvent) && Rests(s, p)
    ensures s.agents[p].kind.NoKind? && Prev(s, p) == Some(s.agents[p].status)
  {
    assert DetailsOk(s.agents[p], s.lastEvent);
  }

  lemma CommittedKind(s: Agents, incoming: Incoming, baseRev: nat, initial: bool, now: int)
    ensures var a := Committed(s, incoming, baseRev, initial, now); !a.status.Blocked? ==> a.kind.NoKind?
  {
    hide Stamped;
  }

  lemma CommitOneMarks(s: Agents, incoming: Incoming, baseRev: nat, initial: bool, now: int)
    ensures var t := CommitOne(s, incoming, baseRev, initial, now);
      MarksOf(t, incoming.pane) == CommittedMarks(s, incoming, Committed(s, incoming, baseRev, initial, now))
  {
    hide Committed, CommittedMarks, Entered;
  }

  lemma CommitRests(s: Agents, incoming: Incoming, baseRev: nat, initial: bool, now: int)
    requires AgentsOk(s.agents, s.prevStatus, s.lastEvent) && Known(s, incoming).Some? && Rests(s, incoming.pane)
    requires !Attention(Committed(s, incoming, baseRev, initial, now).status)
    ensures CommittedMarks(s, incoming, Committed(s, incoming, baseRev, initial, now)) == MarksOf(s, incoming.pane)
  {
    var a := Committed(s, incoming, baseRev, initial, now);
    CommittedKind(s, incoming, baseRev, initial, now);
    RestingAgent(s, incoming.pane);
    hide Committed, AgentsOk, Replaced;
    var kind := s.agents[incoming.pane].kind;
    RestingTransition(MarksOf(s, incoming.pane), Prev(s, incoming.pane), a.status, kind, a.kind, s.revCounter);
    hide Transition, ChatSync;
  }

  lemma InventoryRests(s: Agents, records: seq<Incoming>, baseRev: nat, now: int, i: nat)
    requires Inv(s) && Batch(s, records) && i < |records| && Known(s, records[i]).Some? && Rests(s, records[i].pane)
    requires var t := CommitInventory(s, records, baseRev, now); Rests(t, records[i].pane)
    ensures SameMarks(s, CommitInventory(s, records, baseRev, now), records[i].pane)
  {
    var mid := InventoryAt(s, records, baseRev, now, i);
    assert AgentsOk(mid.agents, mid.prevStatus, mid.lastEvent) by { hide MarksOk, NotifiedOk, CountersOk, AgentsOk; }
    hide Inv, Core, Batch, CommitInventory, AgentsOk, TopologyChanged, RecordOk, Replaced;
    CommitOneAgent(mid, records[i], baseRev, !s.ready, now);
    CommitOneMarks(mid, records[i], baseRev, !s.ready, now);
    hide CommitOne, Committed, CommittedMarks;
    CommitRests(mid, records[i], baseRev, !s.ready, now);
  }

  lemma EventRests(s: Agents, q: PaneId, status: Status, updatedAt: int, now: int, p: PaneId)
    requires Inv(s) && q in s.agents && Rests(s, p) && Rests(ApplyEvent(s, q, status, updatedAt, now), p)
    ensures SameMarks(s, ApplyEvent(s, q, status, updatedAt, now), p)
  {
    InvAgents(s);
    EventAgentOk(s, q, status, updatedAt, now);
    RestingAgent(s, p);
    var a := EventAgent(s, q, status, updatedAt, now);
    if q == p {
      assert !Attention(status) by { hide AfterTransition, EventAgent; }
      RestingTransition(MarksOf(s, p), Some(s.agents[p].status), status, s.agents[p].kind, a.kind, s.revCounter + 1);
    }
    hide Inv, AgentsOk, EventAgent, AfterTransition;
  }

  lemma ClassifyRests(s: Agents, q: PaneId, eventId: nat, generation: nat, contentRev: nat, kind: Kind, controls: nat, p: PaneId)
    requires Rests(s, p)
    ensures SameMarks(s, Classify(s, q, eventId, generation, contentRev, kind, controls), p)
  {
    hide ChatSync, MarksOf, Reclassified;
    if ClassifiesCurrent(s, q, eventId, generation, contentRev) {
      var a := s.agents[q];
      var next := a.(kind := if kind.NoKind? then Unknown else kind, controls := controls);
      ReclassifiedMarks(s, q, next);
    }
  }

  lemma ReclassifiedMarks(s: Agents, q: PaneId, next: Agent)
    ensures Reclassified(s, q, next).unseen == s.unseen && Reclassified(s, q, next).acked == s.acked
  {
  }

  lemma StatusRests(s: Agents, e: Event, p: PaneId)
    requires Inv(s) && e.StatusEvent? && Rests(s, p) && Rests(Step(s, e), p)
    ensures SameMarks(s, Step(s, e), p)
  {
    hide Inv, ApplyEvent, Matches, Rests;
    if e.pane in s.agents && Matches(s.agents[e.pane], e.tab, e.workspace) {
      EventRests(s, e.pane, e.status, e.updatedAt, e.now, p);
    }
  }

  lemma OtherAcknowledged(s: Agents, q: PaneId, now: int, p: PaneId)
    requires q != p
    ensures SameMarks(s, Acknowledge(s, q, now), p)
  {
    hide Settles, Seen;
  }

  lemma RegisterMarks(s: Agents, q: PaneId, revision: nat)
    ensures Register(s, q, revision).unseen == s.unseen && Register(s, q, revision).acked == s.acked
  {
    hide Registers;
  }

  /** Requests and counters leave the marks of another pane alone. */
  lemma OtherRests(s: Agents, e: Event, p: PaneId)
    requires !e.Poll? && !e.Snapshot? && !e.StatusEvent? && !e.Classification? && !(e.Acknowledged? && e.pane == p)
    ensures SameMarks(s, Step(s, e), p)
  {
    hide CommitPoll, CommitTopology, CommitEvent, Classify, Acknowledge, Register;
    match e
    case Acknowledged(q, now) => OtherAcknowledged(s, q, now, p);
    case FinishedFor(q, revision) => RegisterMarks(s, q, revision);
    case Finished(_) =>
    case Bump(_) =>
    case TopologyMoved =>
    case InventoryFailed =>
  }

  /** A step that neither looks at the pane nor ends its session keeps what it shows while it rests. */
  lemma StepRests(s: Agents, e: Event, p: PaneId)
    requires Inv(s) && Admissible(s, e) && Rests(s, p) && Rests(Step(s, e), p)
    requires !(e.Acknowledged? && e.pane == p) && !Reopens(s, e, p)
    ensures SameMarks(s, Step(s, e), p)
  {
    hide Inv, Committing, Rests, SameMarks, Admissible, Reopens, Step;
    if Committing(s, e).Some? {
      CommitStepRests(s, e, p);
    } else if e.Poll? {
      RefusedPoll(s, e);
      Unchanged(s, p);
    } else if e.Snapshot? {
      AlwaysCommits(s, e);
    } else if e.StatusEvent? {
      StatusRests(s, e, p);
    } else if e.Classification? {
      ClassificationRests(s, e, p);
    } else {
      OtherRests(s, e, p);
    }
  }

  lemma Unchanged(s: Agents, p: PaneId)
    ensures SameMarks(s, s, p)
  {
  }

  lemma ClassificationRests(s: Agents, e: Event, p: PaneId)
    requires e.Classification? && Rests(s, p)
    ensures SameMarks(s, Step(s, e), p)
  {
    ClassifyRests(s, e.pane, e.eventId, e.expected, e.contentRev, e.kind, e.controls, p);
    hide Classify;
  }

  lemma RefusedPoll(s: Agents, e: Event)
    requires e.Poll? && Committing(s, e).None?
    ensures Step(s, e) == s
  {
    hide CommitInventory;
  }

  lemma AlwaysCommits(s: Agents, e: Event)
    requires e.Snapshot?
    ensures Committing(s, e).Some?
  {
    hide KeepStatuses;
  }

  lemma CommitStepRests(s: Agents, e: Event, p: PaneId)
    requires Inv(s) && Admissible(s, e) && Rests(s, p) && Rests(Step(s, e), p) && Committing(s, e).Some?
    requires !Reopens(s, e, p)
    ensures SameMarks(s, Step(s, e), p)
  {
    hide Inv, Base, BaseRev, Clock, Batch, Step, CommitInventory, Committing, Admissible, Known, TopologyChanged;
    var records, base := Committing(s, e).value, Base(s, e);
    CommitShape(s, e);
    BaseMarks(s, e);
    var i :| 0 <= i < |records| && records[i].pane == p && Known(s, records[i]).Some?;
    SameKnown(s, base, records[i]);
    InventoryRests(base, records, BaseRev(e), Clock(e), i);
  }

  lemma BaseMarks(s: Agents, e: Event)
    ensures Base(s, e).unseen == s.unseen && Base(s, e).acked == s.acked
  {
  }

  /** The pane rests in every state of the run, in one session, and nobody looks at it. */
  ghost predicate Undisturbed(s: Agents, events: seq<Event>, p: PaneId)
    decreases |events|
  {
    Rests(s, p) &&
    (events == [] ||
     (!(events[0].Acknowledged? && events[0].pane == p) && !Reopens(s, events[0], p) &&
      Undisturbed(Step(s, events[0]), events[1..], p)))
  }

  lemma {:induction false} RunRests(s: Agents, events: seq<Event>, p: PaneId)
    requires Inv(s) && Admitted(s, events) && Undisturbed(s, events, p)
    ensures Inv(Run(s, events)) && Rests(Run(s, events), p) && SameMarks(s, Run(s, events), p)
    decreases |events|
  {
    hide Inv, Step, Admissible, Reopens, Rests;
    if events != [] {
      var t := Step(s, events[0]);
      assert Rests(t, p);
      StepInv(s, events[0]);
      StepRests(s, events[0], p);
      RunRests(t, events[1..], p);
    }
  }

  // ---------------------------------------------------------------- snapshots sample, they do not rule

  /** A snapshot's record as it is committed carries the status, and where blocked the details, of the
      session it names. */
  lemma KeptRecord(s: Agents, incoming: Incoming)
    requires Known(s, incoming).Some? && incoming.agent.eventId == 0
    ensures var k := KeepStatus(s, incoming);
      && k.pane == incoming.pane && Known(s, k) == Known(s, incoming)
      && k.agent.status == s.agents[incoming.pane].status
      && (s.agents[incoming.pane].status.Blocked? ==> SameDetails(k.agent, s.agents[incoming.pane]))
  {
  }

  /** A record that agrees with the pane's status changes neither status nor details, whatever the base
      revision. */
  lemma AgreeingRecord(s: Agents, incoming: Incoming, baseRev: nat, initial: bool, now: int)
    requires AgentsOk(s.agents, s.prevStatus, s.lastEvent) && s.pending.Keys !! s.agents.Keys
    requires Known(s, incoming).Some? && incoming.agent.status == s.agents[incoming.pane].status
    requires s.agents[incoming.pane].status.Blocked? ==> SameDetails(incoming.agent, s.agents[incoming.pane])
    ensures var a := Committed(s, incoming, baseRev, initial, now);
      a.status == s.agents[incoming.pane].status && SameDetails(a, s.agents[incoming.pane])
  {
    assert DetailsOk(s.agents[incoming.pane], s.lastEvent);
    hide AgentsOk, Differ, SameActivity;
  }

  lemma AgreeingMarks(s: Agents, incoming: Incoming, a: Agent)
    requires AgentsOk(s.agents, s.prevStatus, s.lastEvent) && Known(s, incoming).Some?
    requires a.status == s.agents[incoming.pane].status && SameDetails(a, s.agents[incoming.pane])
    ensures CommittedMarks(s, incoming, a) == MarksOf(s, incoming.pane)
  {
    assert Prev(s, incoming.pane) == Some(a.status);
    hide AgentsOk, Replaced;
  }

  lemma InventoryAgrees(s: Agents, records: seq<Incoming>, baseRev: nat, now: int, i: nat)
    requires Inv(s) && Batch(s, records) && i < |records| && Known(s, records[i]).Some?
    requires records[i].agent.status == s.agents[records[i].pane].status
    requires s.agents[records[i].pane].status.Blocked? ==> SameDetails(records[i].agent, s.agents[records[i].pane])
    ensures var t, p := CommitInventory(s, records, baseRev, now), records[i].pane;
      && p in t.agents && t.agents[p].status == s.agents[p].status && SameDetails(t.agents[p], s.agents[p])
      && MarksOf(t, p) == MarksOf(s, p)
  {
    var mid := InventoryAt(s, records, baseRev, now, i);
    assert AgentsOk(mid.agents, mid.prevStatus, mid.lastEvent) && mid.pending.Keys !! mid.agents.Keys by {
      hide MarksOk, NotifiedOk, CountersOk, AgentsOk;
    }
    hide Inv, Core, Batch, CommitInventory, AgentsOk, TopologyChanged, RecordOk, Replaced;
    CommitOneAgent(mid, records[i], baseRev, !s.ready, now);
    CommitOneMarks(mid, records[i], baseRev, !s.ready, now);
    hide CommitOne, Committed, CommittedMarks;
    AgreeingRecord(mid, records[i], baseRev, !s.ready, now);
    AgreeingMarks(mid, records[i], Committed(mid, records[i], baseRev, !s.ready, now));
  }

  /** A snapshot leaves a pane whose session it knows its status, its event, its kind, its controls and
      its marks, whatever status it sampled and whatever its base revision. */
  lemma SnapshotKeepsStatus(s: Agents, e: Event, i: nat)
    requires Inv(s) && e.Snapshot? && WellFormed(e.records) && i < |e.records| && Known(s, e.records[i]).Some?
    ensures var t, p := Step(s, e), e.records[i].pane;
      && p in t.agents && t.agents[p].status == s.agents[p].status
      && t.agents[p].eventId == s.agents[p].eventId && t.agents[p].kind == s.agents[p].kind
      && t.agents[p].controls == s.agents[p].controls && MarksOf(t, p) == MarksOf(s, p)
  {
    var base, records := Base(s, e), KeepStatuses(Base(s, e), e.records);
    assert Committing(s, e) == Some(records) && Admissible(s, e) && records[i] == KeepStatus(base, e.records[i]);
    CommitShape(s, e);
    BaseMarks(s, e);
    BaseSameMarks(s, e, e.records[i].pane);
    hide Inv, Step, Base, CommitInventory, KeepStatuses, Batch, WellFormed, MarksOf;
    SameKnown(s, base, e.records[i]);
    assert e.records[i].agent.eventId == 0 by { NoForeignId(e.records, i); }
    KeptRecord(base, e.records[i]);
    hide KeepStatus, Known;
    InventoryAgrees(base, records, BaseRev(e), Clock(e), i);
  }

  lemma NoForeignId(records: seq<Incoming>, i: nat)
    requires WellFormed(records) && i < |records|
    ensures records[i].agent.eventId == 0
  {
  }

  lemma BaseSameMarks(s: Agents, e: Event, p: PaneId)
    ensures MarksOf(Base(s, e), p) == MarksOf(s, p)
  {
  }

  // ---------------------------------------------------------------- the promises

  ghost predicate AtEase(s: Agents, p: PaneId) {
    p in s.agents && (s.agents[p].status.Done? || s.agents[p].status.Idle?)
  }

  /** A pane that finished shows as done through every run in which it stays finished or idle in its
      session and nobody looks at it. */
  lemma CompletionStaysDone(s: Agents, p: PaneId, status: Status, updatedAt: int, now: int, events: seq<Event>)
    requires Inv(s) && p in s.agents && Attention(s.agents[p].status) && !s.agents[p].kind.Chat?
    requires status.Done? || status.Idle?
    requires var t := ApplyEvent(s, p, status, updatedAt, now);
      && Admitted(t, events) && Undisturbed(t, events, p)
      && AtEase(Run(t, events), p)
    ensures Displayed(Run(ApplyEvent(s, p, status, updatedAt, now), events), p).Done?
  {
    var t := ApplyEvent(s, p, status, updatedAt, now);
    ApplyEventInv(s, p, status, updatedAt, now);
    CompletionShowsDone(s, p, status, updatedAt, now);
    hide ApplyEvent;
    RunRests(t, events, p);
    InvMarks(t);
    InvMarks(Run(t, events));
    DoneIsUnseen(s, p, status, updatedAt, now);
    hide Inv, Run, Undisturbed;
  }

  lemma DoneIsUnseen(s: Agents, p: PaneId, status: Status, updatedAt: int, now: int)
    requires p in s.agents && Attention(s.agents[p].status) && !s.agents[p].kind.Chat? && (status.Done? || status.Idle?)
    ensures p in ApplyEvent(s, p, status, updatedAt, now).unseen
  {
    SettledAgent(s, p, status, updatedAt, now);
    hide EventAgent;
  }

  /** Once looked at, it shows as idle through every run in which it stays finished or idle in its
      session, even where a later status says done again. */
  lemma LookingStaysIdle(s: Agents, p: PaneId, now: int, events: seq<Event>)
    requires Inv(s) && p in s.agents && Displayed(s, p).Done?
    requires var t := Acknowledge(s, p, now);
      && Admitted(t, events) && Undisturbed(t, events, p)
      && AtEase(Run(t, events), p)
    ensures Displayed(Run(Acknowledge(s, p, now), events), p) == Idle
  {
    var t := Acknowledge(s, p, now);
    AcknowledgeInv(s, p, now);
    InvMarks(s);
    assert p in t.acked && p !in t.unseen by { hide Inv; }
    hide Acknowledge;
    RunRests(t, events, p);
    hide Inv, Run, Undisturbed;
  }
}
