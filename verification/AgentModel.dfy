/** The agent state machine as a state machine over values.

    `Agents` holds the per-pane maps of the source's `State` and one history field, the finished
    notifications that were registered. Statuses are words in the source; only their class matters,
    so `Status` keeps the class and a number for the exact word. Names, directories, prompts and
    controls are compared only for equality and travel as opaque numbers. Blocked event ids are
    fresh numbers, 0 standing for none. */
module AgentModel {
  import opened Options

  type PaneId = string

  datatype Status = Working | Blocked | Idle | Done(word: nat) | Other(word: nat)

  datatype Kind = NoKind | Unknown | Approval | Question | Chat

  const DONE := Done(0)
  const PENDING_LIMIT: nat := 128

  /** One `AgentState`. `content` stands for name, directory and agent, `probe` for what only moves
      the update time, `controls` for everything a blocked pane shows. */
  datatype Agent = Agent(
    raw: string, terminal: string, tab: string, workspace: string,
    status: Status, content: nat, activity: nat, probe: nat,
    updatedAt: int, lastActiveAt: int, lastSeenAt: int,
    eventId: nat, kind: Kind, controls: nat)

  /** A record of a poll or topology snapshot; the last two fields are what the triage file
      remembers of the pane's identity. */
  datatype Incoming = Incoming(pane: PaneId, agent: Agent, recalledActive: int, recalledSeen: int)

  datatype Pending = Pending(tab: string, workspace: string, status: Status, updatedAt: int, expiresAt: int)

  datatype Agents = Agents(
    agents: map<PaneId, Agent>,
    revision: map<PaneId, nat>,
    contentRev: map<PaneId, nat>,
    attentionRev: map<PaneId, nat>,
    prevStatus: map<PaneId, Status>,
    topologyGen: nat,
    revCounter: nat,
    unseen: set<PaneId>,
    acked: set<PaneId>,
    finished: set<PaneId>,
    completionRev: map<PaneId, nat>,
    generation: map<PaneId, nat>,
    ready: bool,
    pending: map<PaneId, Pending>,
    lastEvent: nat,
    notified: seq<(PaneId, nat)>)

  const Empty: Agents :=
    Agents(map[], map[], map[], map[], map[], 0, 0, {}, {}, {}, map[], map[], false, map[], 0, [])

  function Count(m: map<PaneId, nat>, p: PaneId): nat {
    if p in m then m[p] else 0
  }

  predicate Attention(status: Status) {
    status.Working? || status.Blocked?
  }

  predicate WasAttention(status: Option<Status>) {
    status.Some? && Attention(status.value)
  }

  function Prev(s: Agents, p: PaneId): Option<Status> {
    if p in s.prevStatus then Some(s.prevStatus[p]) else None
  }

  // ---------------------------------------------------------------- identities

  predicate Differ(a: string, b: string) {
    a != "" && b != "" && a != b
  }

  /** `paneSessionReplaced`. */
  predicate Replaced(existing: Agent, incoming: Agent) {
    || Differ(existing.raw, incoming.raw)
    || Differ(existing.terminal, incoming.terminal)
    || Differ(existing.tab, incoming.tab)
    || Differ(existing.workspace, incoming.workspace)
  }

  /** `eventIdentityMatches`. */
  predicate Matches(agent: Agent, tab: string, workspace: string) {
    !Differ(tab, agent.tab) && !Differ(workspace, agent.workspace)
  }

  // ---------------------------------------------------------------- blocked details

  function Cleared(a: Agent): Agent {
    a.(eventId := 0, kind := NoKind, controls := 0)
  }

  function WithDetailsOf(a: Agent, source: Agent): Agent {
    a.(eventId := source.eventId, kind := source.kind, controls := source.controls)
  }

  predicate SameDetails(a: Agent, b: Agent) {
    a.eventId == b.eventId && a.kind == b.kind && a.controls == b.controls
  }

  /** `applyBlockedCycleLocked`; `drawn` is the id it would draw. */
  function Cycled(a: Agent, existing: Option<Agent>, drawn: nat): Agent {
    if !a.status.Blocked? then Cleared(a)
    else
      var kinded := if a.kind.NoKind? then a.(kind := Unknown) else a;
      if kinded.eventId != 0 then kinded
      else if existing.Some? && existing.value.status.Blocked? && existing.value.eventId != 0
      then kinded.(eventId := existing.value.eventId)
      else kinded.(eventId := drawn)
  }

  // ---------------------------------------------------------------- notification state

  /** The completion marks of one pane, which transitions and classifications update. */
  datatype Marks = Marks(unseen: bool, acked: bool, finished: bool, completion: nat)

  function MarksOf(s: Agents, p: PaneId): Marks {
    Marks(p in s.unseen, p in s.acked, p in s.finished, Count(s.completionRev, p))
  }

  function Member(s: set<PaneId>, p: PaneId, on: bool): set<PaneId> {
    if on then s + {p} else s - {p}
  }

  function Counted(m: map<PaneId, nat>, p: PaneId, n: nat): map<PaneId, nat> {
    if n == 0 then m - {p} else m[p := n]
  }

  function SetMarks(s: Agents, p: PaneId, m: Marks): Agents {
    s.(unseen := Member(s.unseen, p, m.unseen), acked := Member(s.acked, p, m.acked),
       finished := Member(s.finished, p, m.finished), completionRev := Counted(s.completionRev, p, m.completion))
  }

  /** `registerTransition`, at revision `rev`. */
  function Transition(m: Marks, prev: Option<Status>, status: Status, previousKind: Kind, rev: nat): Marks {
    if Attention(status) then
      if prev == Some(status) then m else Marks(false, false, false, 0)
    else if status.Done? then
      if WasAttention(prev) then m.(unseen := true, acked := false, completion := rev) else m
    else if status.Idle? && WasAttention(prev) && !(prev == Some(Blocked) && previousKind.Chat?) then
      m.(unseen := true, acked := false, completion := rev)
    else m
  }

  /** `syncAttentionCompletionLocked`. */
  function ChatSync(m: Marks, previous: Kind, current: Kind, rev: nat): Marks {
    if current.Chat? then
      if previous.Chat? then m else m.(finished := false, completion := rev)
    else if previous.Chat? then m.(finished := false, completion := 0)
    else m
  }

  /** `preservesChatCompletion`. */
  predicate PreservesChat(prev: Option<Status>, status: Status, previousKind: Kind) {
    prev == Some(Blocked) && status.Idle? && previousKind.Chat?
  }

  function AfterTransition(m: Marks, prev: Option<Status>, status: Status, previousKind: Kind, kind: Kind, rev: nat): Marks {
    var t := Transition(m, prev, status, previousKind, rev);
    if PreservesChat(prev, status, previousKind) then t else ChatSync(t, previousKind, kind, rev)
  }

  // ---------------------------------------------------------------- committing one record

  function Known(s: Agents, incoming: Incoming): Option<Agent> {
    if incoming.pane in s.agents && !Replaced(s.agents[incoming.pane], incoming.agent)
    then Some(s.agents[incoming.pane]) else None
  }

  predicate PendingApplies(s: Agents, incoming: Incoming, now: int) {
    && incoming.pane in s.pending
    && now < s.pending[incoming.pane].expiresAt
    && Matches(incoming.agent, s.pending[incoming.pane].tab, s.pending[incoming.pane].workspace)
  }

  /** The record's status after an event that landed during the poll, or one that waited for the
      pane, has had its say. */
  function Settled(s: Agents, incoming: Incoming, baseRev: nat, now: int): Agent {
    var known := Known(s, incoming);
    var a := incoming.agent;
    var kept :=
      if known.Some? && Count(s.revision, incoming.pane) > baseRev && a.status != known.value.status then
        if known.value.status.Blocked? then WithDetailsOf(a.(status := Blocked), known.value)
        else a.(status := known.value.status)
      else a;
    if PendingApplies(s, incoming, now)
    then kept.(status := s.pending[incoming.pane].status, updatedAt := s.pending[incoming.pane].updatedAt)
    else kept
  }

  predicate SameActivity(a: Agent, b: Agent) {
    a.status == b.status && a.content == b.content && a.activity == b.activity && a.probe == b.probe
  }

  function Stamped(s: Agents, incoming: Incoming, baseRev: nat, initial: bool, now: int): Agent {
    var known := Known(s, incoming);
    var a := Settled(s, incoming, baseRev, now);
    var seen := if known.Some? then known.value.lastSeenAt else incoming.recalledSeen;
    var active := if known.Some? then known.value.lastActiveAt else incoming.recalledActive;
    var waited := PendingApplies(s, incoming, now);
    var updated :=
      if known.None? then (if waited then a.updatedAt else if initial then 0 else now)
      else if SameActivity(known.value, a) then known.value.updatedAt
      else now;
    var advanced := waited || (known.Some? && (known.value.status != a.status || known.value.activity != a.activity));
    a.(updatedAt := updated, lastSeenAt := seen,
       lastActiveAt := if advanced && updated > active then updated else active)
  }

  /** The marks of a pane that was not known before: unseen or acknowledged as triage remembers. */
  function Recalled(m: Marks, a: Agent): Marks {
    if !(a.status.Done? || a.status.Idle?) then m
    else if a.lastActiveAt > a.lastSeenAt then m.(unseen := true, acked := false)
    else if a.status.Done? && (a.lastActiveAt > 0 || a.lastSeenAt > 0) then m.(acked := true)
    else m
  }

  /** What one record makes of the pane's agent entry. */
  function Committed(s: Agents, incoming: Incoming, baseRev: nat, initial: bool, now: int): Agent {
    Cycled(Stamped(s, incoming, baseRev, initial, now), Known(s, incoming), s.lastEvent + 1)
  }

  function PreviousKind(s: Agents, incoming: Incoming): Kind {
    if Known(s, incoming).Some? then Known(s, incoming).value.kind else NoKind
  }

  /** What one record makes of the pane's marks. */
  function CommittedMarks(s: Agents, incoming: Incoming, a: Agent): Marks {
    var p := incoming.pane;
    var known := Known(s, incoming);
    var replaced := p in s.agents && known.None?;
    var prev := if replaced then None else Prev(s, p);
    var marks := if replaced then Marks(false, false, false, 0) else MarksOf(s, p);
    var previousKind := PreviousKind(s, incoming);
    var moved := Transition(marks, prev, a.status, previousKind, s.revCounter);
    var recalled := if known.None? then Recalled(moved, a) else moved;
    if PreservesChat(prev, a.status, previousKind) then recalled
    else ChatSync(recalled, previousKind, a.kind, s.revCounter)
  }

  predicate AttentionMoved(known: Option<Agent>, a: Agent) {
    known.None? || !SameDetails(known.value, a)
  }

  predicate ContentMoved(known: Option<Agent>, a: Agent) {
    AttentionMoved(known, a) || known.value.status != a.status || known.value.content != a.content ||
    known.value.activity != a.activity
  }

  /** A replaced or reappearing pane opens another session. */
  predicate OpensSession(s: Agents, incoming: Incoming, initial: bool) {
    Known(s, incoming).None? &&
    (incoming.pane in s.agents || (!initial && Count(s.generation, incoming.pane) > 0))
  }

  function Bumped(m: map<PaneId, nat>, p: PaneId, on: bool): map<PaneId, nat> {
    if on then m[p := Count(m, p) + 1] else m
  }

  /** The pane's entry and its revisions. */
  function WithEntry(s: Agents, p: PaneId, known: Option<Agent>, a: Agent): Agents {
    s.(agents := s.agents[p := a],
       revision := s.revision[p := s.revCounter],
       contentRev := Bumped(s.contentRev, p, ContentMoved(known, a)),
       attentionRev := Bumped(s.attentionRev, p, AttentionMoved(known, a)),
       prevStatus := s.prevStatus[p := a.status],
       pending := s.pending - {p})
  }

  /** An event id that the record drew counts as used. */
  function Drawn(lastEvent: nat, a: Agent): nat {
    if a.eventId == lastEvent + 1 then lastEvent + 1 else lastEvent
  }

  /** The pane's session, entry and counters after one record, before its marks. */
  function Entered(s: Agents, incoming: Incoming, a: Agent, initial: bool): Agents {
    WithEntry(
      s.(generation := Bumped(s.generation, incoming.pane, OpensSession(s, incoming, initial)),
         lastEvent := Drawn(s.lastEvent, a)),
      incoming.pane, Known(s, incoming), a)
  }

  /** One iteration of the record loop of `commitInventoryLocked`. */
  function CommitOne(s: Agents, incoming: Incoming, baseRev: nat, initial: bool, now: int): Agents {
    var a := Committed(s, incoming, baseRev, initial, now);
    SetMarks(Entered(s, incoming, a, initial), incoming.pane, CommittedMarks(s, incoming, a))
  }

  function CommitRecords(s: Agents, records: seq<Incoming>, baseRev: nat, initial: bool, now: int): Agents
    decreases |records|
  {
    if records == [] then s
    else CommitRecords(CommitOne(s, records[0], baseRev, initial, now), records[1..], baseRev, initial, now)
  }

  function Panes(records: seq<Incoming>): set<PaneId> {
    set r | r in records :: r.pane
  }

  function Raised(generation: map<PaneId, nat>, gone: set<PaneId>): map<PaneId, nat> {
    map p | p in generation.Keys + gone :: if p in gone then Count(generation, p) + 1 else Count(generation, p)
  }

  /** The sessions of the panes in `gone` end. */
  function Ended(s: Agents, gone: set<PaneId>): Agents {
    s.(agents := s.agents - gone, revision := s.revision - gone, contentRev := s.contentRev - gone,
       attentionRev := s.attentionRev - gone, prevStatus := s.prevStatus - gone,
       unseen := s.unseen - gone, acked := s.acked - gone, finished := s.finished - gone,
       completionRev := s.completionRev - gone, generation := Raised(s.generation, gone))
  }

  /** The sessions of the panes of `s` that a commit did not see end. */
  function Forget(s: Agents, seen: set<PaneId>): Agents {
    Ended(s, s.agents.Keys - seen)
  }

  function Unexpired(pending: map<PaneId, Pending>, now: int): map<PaneId, Pending> {
    map p | p in pending && now < pending[p].expiresAt :: pending[p]
  }

  predicate TopologyChanged(s: Agents, records: seq<Incoming>) {
    |records| != |s.agents| ||
    exists i :: 0 <= i < |records| && Known(s, records[i]).None?
  }

  /** The counters at the start of a commit. */
  function Begun(s: Agents, records: seq<Incoming>): Agents {
    s.(topologyGen := if TopologyChanged(s, records) then s.topologyGen + 1 else s.topologyGen,
       revCounter := s.revCounter + 1,
       ready := true)
  }

  /** `commitInventoryLocked`. */
  function CommitInventory(s: Agents, records: seq<Incoming>, baseRev: nat, now: int): Agents {
    var committed := CommitRecords(Begun(s, records), records, baseRev, !s.ready, now);
    var rest := Forget(committed, Panes(records));
    rest.(pending := Unexpired(rest.pending, now))
  }

  /** `commitTopologyLocked`: a snapshot does not overwrite the status of a pane it knows. */
  function KeepStatus(s: Agents, incoming: Incoming): Incoming {
    var known := Known(s, incoming);
    if known.None? then incoming
    else if known.value.status.Blocked?
    then incoming.(agent := WithDetailsOf(incoming.agent.(status := Blocked), known.value))
    else incoming.(agent := incoming.agent.(status := known.value.status))
  }

  function KeepStatuses(s: Agents, records: seq<Incoming>): seq<Incoming> {
    seq(|records|, i requires 0 <= i < |records| => KeepStatus(s, records[i]))
  }

  function CommitTopology(s: Agents, records: seq<Incoming>, baseRev: nat, workspaceChanged: bool, now: int): Agents {
    var t := if workspaceChanged then s.(topologyGen := s.topologyGen + 1) else s;
    CommitInventory(t, KeepStatuses(t, records), baseRev, now)
  }

  datatype Token = Token(baseRevision: nat, topologyGen: nat)

  function BeginPoll(s: Agents): Token {
    Token(s.revCounter, s.topologyGen)
  }

  /** `CommitPoll`: refused when the topology moved since the token was taken. */
  function CommitPoll(s: Agents, records: seq<Incoming>, token: Token, now: int): (r: (Agents, bool)) {
    if s.topologyGen != token.topologyGen then (s, false)
    else (CommitInventory(s, records, token.baseRevision, now), true)
  }

  // ---------------------------------------------------------------- events and requests

  /** `CommitEventForSession` for a pane that is not known yet. `evicted` is the pending event that
      makes room when 128 already wait. */
  function Postpone(s: Agents, p: PaneId, tab: string, workspace: string, status: Status, updatedAt: int,
                    evicted: PaneId, now: int): Agents {
    var room := if |s.pending| >= PENDING_LIMIT then s.pending - {evicted} else s.pending;
    s.(pending := room[p := Pending(tab, workspace, status, updatedAt, now + 30000)])
  }

  function EventAgent(s: Agents, p: PaneId, status: Status, updatedAt: int, now: int): Agent
    requires p in s.agents
  {
    var a := s.agents[p];
    var active := if updatedAt > a.lastActiveAt then updatedAt else if updatedAt <= 0 then now else a.lastActiveAt;
    var moved := a.(status := status, updatedAt := updatedAt, lastActiveAt := active);
    if !status.Blocked? then Cleared(moved)
    else if !a.status.Blocked? || a.eventId == 0
    then Cleared(moved).(eventId := s.lastEvent + 1, kind := Unknown)
    else moved
  }

  /** The pane's entry and counters after an event, before its marks. */
  function EventEntered(s: Agents, p: PaneId, a: Agent): Agents
    requires p in s.agents
  {
    var before := s.agents[p];
    s.(agents := s.agents[p := a],
       revCounter := s.revCounter + 1,
       revision := s.revision[p := s.revCounter + 1],
       contentRev := Bumped(s.contentRev, p, before.status != a.status),
       attentionRev := Bumped(s.attentionRev, p, !SameDetails(before, a)),
       prevStatus := s.prevStatus[p := a.status],
       lastEvent := Drawn(s.lastEvent, a))
  }

  /** `CommitEventForSession` for a known pane whose identity matches. */
  function ApplyEvent(s: Agents, p: PaneId, status: Status, updatedAt: int, now: int): Agents
    requires p in s.agents
  {
    var before := s.agents[p];
    var a := EventAgent(s, p, status, updatedAt, now);
    SetMarks(
      EventEntered(s, p, a), p,
      AfterTransition(MarksOf(s, p), Some(before.status), status, before.kind, a.kind, s.revCounter + 1))
  }

  function CommitEvent(s: Agents, p: PaneId, tab: string, workspace: string, status: Status, updatedAt: int,
                       evicted: PaneId, now: int): Agents {
    if p !in s.agents then Postpone(s, p, tab, workspace, status, updatedAt, evicted, now)
    else if !Matches(s.agents[p], tab, workspace) then s
    else ApplyEvent(s, p, status, updatedAt, now)
  }

  /** `CommitAttentionClassification`: only while the blocked event, generation and content that
      were read are still current. */
  predicate ClassifiesCurrent(s: Agents, p: PaneId, eventId: nat, generation: nat, contentRev: nat) {
    && p in s.agents && s.agents[p].status.Blocked? && s.agents[p].eventId == eventId
    && Count(s.generation, p) == generation && Count(s.contentRev, p) == contentRev
  }

  /** The pane's entry and counters after a classification that changed it, before its marks. */
  function Reclassified(s: Agents, p: PaneId, next: Agent): Agents {
    s.(agents := s.agents[p := next],
       revCounter := s.revCounter + 1,
       revision := s.revision[p := s.revCounter + 1],
       contentRev := Bumped(s.contentRev, p, true),
       attentionRev := Bumped(s.attentionRev, p, true))
  }

  function Classify(s: Agents, p: PaneId, eventId: nat, generation: nat, contentRev: nat, kind: Kind, controls: nat): Agents {
    if !ClassifiesCurrent(s, p, eventId, generation, contentRev) then s
    else
      var a := s.agents[p];
      var next := a.(kind := if kind.NoKind? then Unknown else kind, controls := controls);
      if next == a then s
      else SetMarks(Reclassified(s, p, next), p, ChatSync(MarksOf(s, p), a.kind, next.kind, s.revCounter + 1))
  }

  function Seen(a: Agent, now: int): Agent {
    a.(lastSeenAt := if now > a.lastActiveAt then now else a.lastActiveAt)
  }

  predicate Settles(s: Agents, p: PaneId) {
    p in s.unseen || (p in s.agents && s.agents[p].status.Done?)
  }

  /** `AcknowledgePane`. */
  function Acknowledge(s: Agents, p: PaneId, now: int): Agents {
    if p !in s.agents then s
    else
      s.(agents := s.agents[p := Seen(s.agents[p], now)],
         unseen := s.unseen - {p},
         acked := if Settles(s, p) then s.acked + {p} else s.acked)
  }

  predicate CompletionShows(a: Agent) {
    !Attention(a.status) || (a.status.Blocked? && a.kind.Chat?)
  }

  /** `RegisterFinishedNotificationForTransition` succeeds. */
  predicate Registers(s: Agents, p: PaneId, revision: nat) {
    && p in s.agents && CompletionShows(s.agents[p])
    && Count(s.completionRev, p) == revision && p !in s.finished
  }

  function Register(s: Agents, p: PaneId, revision: nat): Agents {
    if Registers(s, p, revision)
    then s.(finished := s.finished + {p}, notified := s.notified + [(p, revision)]) else s
  }

  // ---------------------------------------------------------------- reading

  /** `DisplayedStatus` of a known pane. */
  function Displayed(s: Agents, p: PaneId): Status
    requires p in s.agents
  {
    var status := s.agents[p].status;
    if status.Done? && p in s.acked then Idle
    else if status.Idle? && p in s.unseen then DONE
    else status
  }

  /** The status `Snapshot` reports for a pane. */
  function Shown(s: Agents, p: PaneId): Status
    requires p in s.agents
  {
    var status := s.agents[p].status;
    var calmed := if status.Done? && p in s.acked then Idle else status;
    if calmed.Idle? && p in s.unseen then DONE else calmed
  }

  /** `PaneSessionCurrent`. */
  predicate SessionCurrent(s: Agents, p: PaneId, generation: nat) {
    p in s.agents && Count(s.generation, p) == generation
  }

  // ---------------------------------------------------------------- runs

  datatype Event =
    | Poll(records: seq<Incoming>, token: Token, now: int)
    | Snapshot(records: seq<Incoming>, baseRev: nat, workspaceChanged: bool, now: int)
    | StatusEvent(pane: PaneId, tab: string, workspace: string, status: Status, updatedAt: int, evicted: PaneId, now: int)
    | Classification(pane: PaneId, eventId: nat, expected: nat, contentRev: nat, kind: Kind, controls: nat)
    | Acknowledged(pane: PaneId, now: int)
    | Finished(pane: PaneId)
    | FinishedFor(pane: PaneId, revision: nat)
    | Bump(pane: PaneId)
    | TopologyMoved
    | InventoryFailed

  /** Records of one commit name distinct panes and carry no event id of their own. */
  ghost predicate WellFormed(records: seq<Incoming>) {
    && (forall i, j :: 0 <= i < j < |records| ==> records[i].pane != records[j].pane)
    && (forall i :: 0 <= i < |records| ==> records[i].agent.eventId == 0)
  }

  /** A full waiting room gives up its first event to expire. The search restarts whenever it stands
      on the pane with the empty name, so the choice is only sure where no such pane waits. */
  ghost predicate Evictable(pending: map<PaneId, Pending>, evicted: PaneId) {
    |pending| >= PENDING_LIMIT ==>
      && evicted in pending
      && ("" !in pending ==> forall q :: q in pending ==> pending[evicted].expiresAt <= pending[q].expiresAt)
  }

  ghost predicate Admissible(s: Agents, e: Event) {
    match e
    case Poll(records, token, now) => WellFormed(records)
    case Snapshot(records, baseRev, workspaceChanged, now) => WellFormed(records)
    case StatusEvent(p, _, _, _, _, evicted, _) => p !in s.agents ==> Evictable(s.pending, evicted)
    case _ => true
  }

  function Step(s: Agents, e: Event): Agents {
    match e
    case Poll(records, token, now) => CommitPoll(s, records, token, now).0
    case Snapshot(records, baseRev, workspaceChanged, now) => CommitTopology(s, records, baseRev, workspaceChanged, now)
    case StatusEvent(p, tab, workspace, status, updatedAt, evicted, now) =>
      CommitEvent(s, p, tab, workspace, status, updatedAt, evicted, now)
    case Classification(p, eventId, expected, contentRev, kind, controls) =>
      Classify(s, p, eventId, expected, contentRev, kind, controls)
    case Acknowledged(p, now) => Acknowledge(s, p, now)
    case Finished(p) => s.(finished := s.finished + {p})
    case FinishedFor(p, revision) => Register(s, p, revision)
    case Bump(p) => s.(generation := s.generation[p := Count(s.generation, p) + 1])
    case TopologyMoved => s.(topologyGen := s.topologyGen + 1)
    case InventoryFailed => s.(ready := false)
  }

  ghost predicate Admitted(s: Agents, events: seq<Event>)
    decreases |events|
  {
    events == [] || (Admissible(s, events[0]) && Admitted(Step(s, events[0]), events[1..]))
  }

  function Run(s: Agents, events: seq<Event>): Agents
    decreases |events|
  {
    if events == [] then s else Run(Step(s, events[0]), events[1..])
  }
}
