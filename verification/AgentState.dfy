/** The agent state as the source keeps it: per-pane maps updated in place, record by record. Every
    method's outcome is tied to the step function of the same name. */
module AgentState {
  import opened Options
  import M = AgentModel

  type PaneId = M.PaneId

  ghost predicate CompletionsOk(completionRev: map<PaneId, nat>) {
    forall p :: p in completionRev ==> completionRev[p] > 0
  }

  ghost predicate EventsOk(agents: map<PaneId, M.Agent>, lastEvent: nat) {
    forall p :: p in agents ==> agents[p].eventId <= lastEvent
  }

  lemma EventsSet(agents: map<PaneId, M.Agent>, lastEvent: nat, p: PaneId, a: M.Agent)
    requires EventsOk(agents, lastEvent) && a.eventId <= lastEvent
    ensures EventsOk(agents[p := a], lastEvent)
  {
  }

  lemma EventsGrow(agents: map<PaneId, M.Agent>, lastEvent: nat, later: nat)
    requires EventsOk(agents, lastEvent) && lastEvent <= later
    ensures EventsOk(agents, later)
  {
  }

  class State {
    var agents: map<PaneId, M.Agent>
    var revision: map<PaneId, nat>
    var contentRev: map<PaneId, nat>
    var attentionRev: map<PaneId, nat>
    var prevStatus: map<PaneId, M.Status>
    var topologyGen: nat
    var revCounter: nat
    var unseen: set<PaneId>
    var acked: set<PaneId>
    var finished: set<PaneId>
    var completionRev: map<PaneId, nat>
    var generation: map<PaneId, nat>
    var ready: bool
    var pending: map<PaneId, M.Pending>
    var lastEvent: nat
    ghost var notified: seq<(PaneId, nat)>

    ghost function View(): M.Agents
      reads this
    {
      M.Agents(agents, revision, contentRev, attentionRev, prevStatus, topologyGen, revCounter, unseen, acked, finished,
               completionRev, generation, ready, pending, lastEvent, notified)
    }

    /** A stored completion is never zero, which stands for none, and every event id was drawn. */
    ghost predicate Valid()
      reads this
    {
      CompletionsOk(completionRev) && EventsOk(agents, lastEvent)
    }

    ghost function Marks(p: PaneId): M.Marks
      reads this
    {
      M.Marks(p in unseen, p in acked, p in finished, M.Count(completionRev, p))
    }

    constructor ()
      ensures Valid() && View() == M.Empty
    {
      agents, revision, contentRev, attentionRev, prevStatus := map[], map[], map[], map[], map[];
      topologyGen, revCounter, unseen, acked, finished := 0, 0, {}, {}, {};
      completionRev, generation, ready, pending, lastEvent := map[], map[], false, map[], 0;
      notified := [];
    }

    // -------------------------------------------------------------- marks

    method ClearMarks(p: PaneId)
      requires Valid()
      modifies this`unseen, this`acked, this`finished, this`completionRev
      ensures Valid() && View() == M.SetMarks(old(View()), p, M.Marks(false, false, false, 0))
    {
      unseen, acked, finished, completionRev := unseen - {p}, acked - {p}, finished - {p}, completionRev - {p};
    }

    method MarkUnseen(p: PaneId)
      requires Valid() && p in revision && revision[p] > 0
      modifies this`unseen, this`acked, this`completionRev
      ensures Valid()
      ensures View() == M.SetMarks(old(View()), p, old(Marks(p)).(unseen := true, acked := false, completion := revision[p]))
    {
      acked := acked - {p};
      unseen := unseen + {p};
      completionRev := completionRev[p := revision[p]];
    }

    lemma MarksKept(p: PaneId)
      requires Valid()
      ensures M.SetMarks(View(), p, Marks(p)) == View()
    {
      var t := M.SetMarks(View(), p, Marks(p));
      assert t.unseen == unseen && t.acked == acked && t.finished == finished;
      assert t.completionRev == completionRev;
    }

    /** `registerTransition`. */
    method RegisterTransition(p: PaneId, prev: Option<M.Status>, status: M.Status, previousKind: M.Kind)
      requires Valid() && p in revision && revision[p] > 0
      modifies this`unseen, this`acked, this`finished, this`completionRev
      ensures Valid()
      ensures View() == M.SetMarks(old(View()), p, M.Transition(old(Marks(p)), prev, status, previousKind, revision[p]))
    {
      MarksKept(p);
      hide M.SetMarks;
      if M.Attention(status) {
        if prev != Some(status) {
          ClearMarks(p);
        }
      } else if status.Done? {
        if M.WasAttention(prev) {
          MarkUnseen(p);
        }
      } else if status.Idle? && M.WasAttention(prev) {
        if !(prev == Some(M.Blocked) && previousKind.Chat?) {
          MarkUnseen(p);
        }
      }
    }

    /** `syncAttentionCompletionLocked`. */
    method SyncCompletion(p: PaneId, previous: M.Kind, current: M.Kind)
      requires Valid() && p in revision && revision[p] > 0
      modifies this`finished, this`completionRev
      ensures Valid()
      ensures View() == M.SetMarks(old(View()), p, M.ChatSync(old(Marks(p)), previous, current, revision[p]))
    {
      MarksKept(p);
      if current.Chat? {
        if !previous.Chat? {
          finished := finished - {p};
          completionRev := completionRev[p := revision[p]];
        }
      } else if previous.Chat? {
        finished := finished - {p};
        completionRev := completionRev - {p};
      }
    }

    // -------------------------------------------------------------- committing one record

    /** The record with its times and its status, once an event that landed during the poll or
        waited for the pane has had its say. */
    method Stamp(incoming: M.Incoming, known: Option<M.Agent>, baseRev: nat, initial: bool, now: int) returns (cp: M.Agent)
      requires known == M.Known(View(), incoming)
      ensures cp == M.Stamped(View(), incoming, baseRev, initial, now)
    {
      var p := incoming.pane;
      cp := incoming.agent;
      if known.Some? && M.Count(revision, p) > baseRev && incoming.agent.status != known.value.status {
        cp := cp.(status := known.value.status);
        if known.value.status.Blocked? {
          cp := M.WithDetailsOf(cp, known.value);
        }
      }
      var waited := false;
      if p in pending && now < pending[p].expiresAt && M.Matches(incoming.agent, pending[p].tab, pending[p].workspace) {
        cp := cp.(status := pending[p].status, updatedAt := pending[p].updatedAt);
        waited := true;
      }
      assert waited == M.PendingApplies(View(), incoming, now);
      assert cp == M.Settled(View(), incoming, baseRev, now);
      hide M.Settled, M.PendingApplies, M.Known, M.Matches;
      if known.Some? {
        cp := cp.(lastActiveAt := known.value.lastActiveAt, lastSeenAt := known.value.lastSeenAt);
      } else {
        cp := cp.(lastActiveAt := incoming.recalledActive, lastSeenAt := incoming.recalledSeen);
      }
      if known.None? {
        if !waited {
          cp := cp.(updatedAt := if initial then 0 else now);
        }
      } else if M.SameActivity(known.value, cp) {
        cp := cp.(updatedAt := known.value.updatedAt);
      } else {
        cp := cp.(updatedAt := now);
      }
      var advanced := waited || (known.Some? && (known.value.status != cp.status || known.value.activity != cp.activity));
      if advanced && cp.updatedAt > cp.lastActiveAt {
        cp := cp.(lastActiveAt := cp.updatedAt);
      }
    }

    /** `applyBlockedCycleLocked`. */
    method Cycle(a: M.Agent, existing: Option<M.Agent>) returns (cp: M.Agent)
      modifies this`lastEvent
      ensures cp == M.Cycled(a, existing, old(lastEvent) + 1)
      ensures a.eventId <= old(lastEvent) && (existing.Some? ==> existing.value.eventId <= old(lastEvent)) ==>
        lastEvent == if cp.eventId == old(lastEvent) + 1 then old(lastEvent) + 1 else old(lastEvent)
    {
      if !a.status.Blocked? {
        return M.Cleared(a);
      }
      cp := a;
      if cp.kind.NoKind? {
        cp := cp.(kind := M.Unknown);
      }
      if cp.eventId != 0 {
        return;
      }
      if existing.Some? && existing.value.status.Blocked? && existing.value.eventId != 0 {
        cp := cp.(eventId := existing.value.eventId);
        return;
      }
      lastEvent := lastEvent + 1;
      cp := cp.(eventId := lastEvent);
    }

    lemma SetTwice(s: M.Agents, p: PaneId, m: M.Marks, n: M.Marks)
      ensures M.SetMarks(M.SetMarks(s, p, m), p, n) == M.SetMarks(s, p, n)
      ensures M.MarksOf(M.SetMarks(s, p, m), p) == m
    {
      var t, u := M.SetMarks(M.SetMarks(s, p, m), p, n), M.SetMarks(s, p, n);
      assert t.unseen == u.unseen && t.acked == u.acked && t.finished == u.finished;
      assert t.completionRev == u.completionRev;
    }

    lemma StampedEvent(incoming: M.Incoming, baseRev: nat, initial: bool, now: int)
      requires Valid() && incoming.agent.eventId <= lastEvent
      ensures M.Stamped(View(), incoming, baseRev, initial, now).eventId <= lastEvent
    {
      hide M.Replaced, M.Matches, M.SameActivity;
    }

    /** A pane id that names another session from here on, or one that reappears, opens a session. */
    method OpenSession(p: PaneId, replaced: bool, reappeared: bool) returns (prev: Option<M.Status>)
      requires Valid()
      modifies this`generation, this`prevStatus, this`unseen, this`acked, this`finished, this`completionRev
      ensures Valid() && generation == M.Bumped(old(generation), p, replaced || reappeared)
      ensures prevStatus == if replaced then old(prevStatus) - {p} else old(prevStatus)
      ensures prev == if replaced then None else M.Prev(old(View()), p)
      ensures View() == M.SetMarks(old(View()).(generation := generation, prevStatus := prevStatus), p,
                                   if replaced then M.Marks(false, false, false, 0) else old(Marks(p)))
    {
      MarksKept(p);
      if replaced {
        generation := generation[p := M.Count(generation, p) + 1];
        prevStatus := prevStatus - {p};
        ClearMarks(p);
      } else if reappeared {
        generation := generation[p := M.Count(generation, p) + 1];
      }
      prev := if p in prevStatus then Some(prevStatus[p]) else None;
    }

    /** The revisions of the pane's content and of its blocked details. */
    method Revise(p: PaneId, content: bool, attention: bool)
      modifies this`contentRev, this`attentionRev
      ensures contentRev == M.Bumped(old(contentRev), p, content) && attentionRev == M.Bumped(old(attentionRev), p, attention)
    {
      if content {
        contentRev := contentRev[p := M.Count(contentRev, p) + 1];
      }
      if attention {
        attentionRev := attentionRev[p := M.Count(attentionRev, p) + 1];
      }
    }

    /** The pane's entry and its revisions. */
    method Enter(p: PaneId, known: Option<M.Agent>, cp: M.Agent)
      requires Valid() && cp.eventId <= lastEvent
      modifies this`agents, this`revision, this`contentRev, this`attentionRev, this`prevStatus, this`pending
      ensures Valid() && View() == M.WithEntry(old(View()), p, known, cp)
    {
      hide EventsOk, CompletionsOk, M.ContentMoved, M.AttentionMoved, M.Bumped;
      EventsSet(agents, lastEvent, p, cp);
      Revise(p, M.ContentMoved(known, cp), M.AttentionMoved(known, cp));
      agents, revision, prevStatus, pending :=
        agents[p := cp], revision[p := revCounter], prevStatus[p := cp.status], pending - {p};
    }

    /** The marks of a pane that was not known, as triage remembers them. */
    method Recall(p: PaneId, cp: M.Agent)
      requires Valid()
      modifies this`unseen, this`acked
      ensures Valid() && View() == M.SetMarks(old(View()), p, M.Recalled(old(Marks(p)), cp))
    {
      MarksKept(p);
      if cp.status.Done? || cp.status.Idle? {
        if cp.lastActiveAt > cp.lastSeenAt {
          unseen := unseen + {p};
          acked := acked - {p};
        } else if cp.status.Done? && (cp.lastActiveAt > 0 || cp.lastSeenAt > 0) {
          acked := acked + {p};
        }
      }
    }

    /** The pane's marks once its entry stands: transition, recall, then chat completion. */
    method Mark(incoming: M.Incoming, known: Option<M.Agent>, prev: Option<M.Status>, cp: M.Agent)
      requires Valid() && incoming.pane in revision && revision[incoming.pane] > 0
      modifies this`unseen, this`acked, this`finished, this`completionRev
      ensures Valid()
      ensures var p := incoming.pane;
        var previous := if known.Some? then known.value.kind else M.NoKind;
        var moved := M.Transition(old(Marks(p)), prev, cp.status, previous, revision[p]);
        var recalled := if known.None? then M.Recalled(moved, cp) else moved;
        View() == M.SetMarks(old(View()), p,
          if M.PreservesChat(prev, cp.status, previous) then recalled else M.ChatSync(recalled, previous, cp.kind, revision[p]))
    {
      var p := incoming.pane;
      var previous := if known.Some? then known.value.kind else M.NoKind;
      ghost var s, m := View(), Marks(p);
      ghost var moved := M.Transition(m, prev, cp.status, previous, revision[p]);
      ghost var recalled := M.Recalled(moved, cp);
      hide M.SetMarks, M.Transition, M.Recalled, M.ChatSync;
      RegisterTransition(p, prev, cp.status, previous);
      SetTwice(s, p, moved, recalled);
      assert Marks(p) == M.MarksOf(View(), p) == moved;
      if known.None? {
        Recall(p, cp);
        SetTwice(s, p, recalled, M.ChatSync(recalled, previous, cp.kind, revision[p]));
        assert Marks(p) == M.MarksOf(View(), p) == recalled;
      }
      SetTwice(s, p, moved, M.ChatSync(moved, previous, cp.kind, revision[p]));
      if !M.PreservesChat(prev, cp.status, previous) {
        SyncCompletion(p, previous, cp.kind);
      }
    }

    /** What the record makes of the pane's entry; a fresh wait draws an event id. */
    method Prepare(incoming: M.Incoming, known: Option<M.Agent>, baseRev: nat, initial: bool, now: int) returns (cp: M.Agent)
      requires Valid() && incoming.agent.eventId <= lastEvent && known == M.Known(View(), incoming)
      modifies this`lastEvent
      ensures Valid() && cp == M.Committed(old(View()), incoming, baseRev, initial, now) && cp.eventId <= lastEvent
      ensures lastEvent == M.Drawn(old(lastEvent), cp)
    {
      var stamped := Stamp(incoming, known, baseRev, initial, now);
      StampedEvent(incoming, baseRev, initial, now);
      assert known.Some? ==> known.value.eventId <= lastEvent;
      cp := Cycle(stamped, known);
      EventsGrow(agents, old(lastEvent), lastEvent);
      hide M.Stamped, M.Known;
    }

    /** Marks and entries are kept apart. */
    lemma Apart(s: M.Agents, p: PaneId, known: Option<M.Agent>, cp: M.Agent, m: M.Marks, dropped: bool)
      ensures M.WithEntry(M.SetMarks(s.(prevStatus := if dropped then s.prevStatus - {p} else s.prevStatus), p, m), p, known, cp)
        == M.SetMarks(M.WithEntry(s, p, known, cp), p, m)
    {
      hide M.Member, M.Counted, M.Bumped, M.ContentMoved, M.AttentionMoved;
      assert (s.prevStatus - {p})[p := cp.status] == s.prevStatus[p := cp.status];
    }

    /** The pane's session, on the state `s` the record's turn began with. */
    method Arrive(incoming: M.Incoming, known: Option<M.Agent>, initial: bool, ghost s: M.Agents)
      returns (prev: Option<M.Status>, ghost open: M.Agents)
      requires Valid() && known == M.Known(s, incoming) && View() == s.(lastEvent := lastEvent)
      modifies this`prevStatus, this`generation, this`unseen, this`acked, this`finished, this`completionRev
      ensures Valid()
      ensures open == s.(generation := M.Bumped(s.generation, incoming.pane, M.OpensSession(s, incoming, initial)),
                         lastEvent := lastEvent)
      ensures var replaced := incoming.pane in s.agents && known.None?;
        && prev == (if replaced then None else M.Prev(s, incoming.pane))
        && View() == M.SetMarks(
             open.(prevStatus := if replaced then s.prevStatus - {incoming.pane} else s.prevStatus), incoming.pane,
             if replaced then M.Marks(false, false, false, 0) else M.MarksOf(s, incoming.pane))
    {
      hide EventsOk, CompletionsOk, M.SetMarks, M.Known, M.Bumped, M.Count;
      var p := incoming.pane;
      var replaced := p in agents && known.None?;
      var reappeared := known.None? && !replaced && !initial && M.Count(generation, p) > 0;
      prev := OpenSession(p, replaced, reappeared);
      open := s.(generation := generation, lastEvent := lastEvent);
    }

    /** The rest of the record's turn. */
    method Conclude(incoming: M.Incoming, known: Option<M.Agent>, cp: M.Agent, initial: bool, ghost s: M.Agents)
      requires Valid() && revCounter > 0 && cp.eventId <= lastEvent
      requires known == M.Known(s, incoming) && View() == s.(lastEvent := M.Drawn(s.lastEvent, cp))
      modifies this`agents, this`revision, this`contentRev, this`attentionRev, this`prevStatus, this`pending,
        this`generation, this`unseen, this`acked, this`finished, this`completionRev
      ensures Valid()
      ensures View() == M.SetMarks(M.Entered(s, incoming, cp, initial), incoming.pane, M.CommittedMarks(s, incoming, cp))
    {
      hide EventsOk, CompletionsOk, M.SetMarks, M.Transition, M.Recalled, M.ChatSync, M.Known, M.PreservesChat, M.MarksOf,
        M.OpensSession, M.Bumped, M.Drawn;
      ghost var p := incoming.pane;
      ghost var replaced := p in s.agents && known.None?;
      ghost var marks := if replaced then M.Marks(false, false, false, 0) else M.MarksOf(s, p);
      var prev, open := Arrive(incoming, known, initial, s);
      Enter(incoming.pane, known, cp);
      Apart(open, p, known, cp, marks, replaced);
      SetTwice(M.WithEntry(open, p, known, cp), p, marks, M.CommittedMarks(s, incoming, cp));
      MarksView(p);
      Mark(incoming, known, prev, cp);
    }

    lemma MarksView(p: PaneId)
      ensures Marks(p) == M.MarksOf(View(), p)
    {
    }

    /** One iteration of the record loop of `commitInventoryLocked`. */
    method CommitRecord(incoming: M.Incoming, baseRev: nat, initial: bool, now: int)
      requires Valid() && revCounter > 0 && incoming.agent.eventId <= lastEvent
      modifies this
      ensures Valid() && View() == M.CommitOne(old(View()), incoming, baseRev, initial, now)
    {
      hide M.Known, M.Committed, EventsOk, CompletionsOk, M.Entered, M.CommittedMarks, M.SetMarks, M.Drawn;
      ghost var s := View();
      var known := Lookup(incoming);
      var cp := Prepare(incoming, known, baseRev, initial, now);
      Conclude(incoming, known, cp, initial, s);
    }

    /** The session the record continues, if there is one. */
    method Lookup(incoming: M.Incoming) returns (known: Option<M.Agent>)
      ensures known == M.Known(View(), incoming)
    {
      var p := incoming.pane;
      known := if p in agents && !M.Replaced(agents[p], incoming.agent) then Some(agents[p]) else None;
    }

    // -------------------------------------------------------------- commits

    /** Whether a commit names other sessions than the ones known. */
    method Differs(records: seq<M.Incoming>) returns (changed: bool)
      ensures changed == M.TopologyChanged(View(), records)
    {
      changed := |records| != |agents|;
      if !changed {
        var i := 0;
        while i < |records|
          invariant 0 <= i <= |records| && !changed
          invariant forall j :: 0 <= j < i ==> M.Known(View(), records[j]).Some?
        {
          var p := records[i].pane;
          if p !in agents || M.Replaced(agents[p], records[i].agent) {
            changed := true;
            assert M.Known(View(), records[i]).None?;
            break;
          }
          i := i + 1;
        }
      }
    }

    /** A commit's records in order. */
    method CommitAll(records: seq<M.Incoming>, baseRev: nat, initial: bool, now: int) returns (seen: set<PaneId>)
      requires Valid() && revCounter > 0
      requires forall i :: 0 <= i < |records| ==> records[i].agent.eventId <= lastEvent
      modifies this
      ensures Valid() && View() == M.CommitRecords(old(View()), records, baseRev, initial, now) && seen == M.Panes(records)
    {
      hide EventsOk, CompletionsOk, M.CommitOne;
      seen := {};
      var i := 0;
      ghost var s := View();
      while i < |records|
        invariant 0 <= i <= |records| && Valid() && revCounter > 0
        invariant forall j :: 0 <= j < |records| ==> records[j].agent.eventId <= lastEvent
        invariant seen == M.Panes(records[..i])
        invariant M.CommitRecords(View(), records[i..], baseRev, initial, now) ==
          M.CommitRecords(s, records, baseRev, initial, now)
      {
        assert records[..i + 1] == records[..i] + [records[i]];
        assert records[i..][1..] == records[i + 1..];
        seen := seen + {records[i].pane};
        OneGrows(View(), records[i], baseRev, initial, now);
        CommitRecord(records[i], baseRev, initial, now);
        i := i + 1;
      }
      assert records[..i] == records;
    }

    lemma OneGrows(s: M.Agents, incoming: M.Incoming, baseRev: nat, initial: bool, now: int)
      ensures s.lastEvent <= M.CommitOne(s, incoming, baseRev, initial, now).lastEvent
      ensures s.revCounter == M.CommitOne(s, incoming, baseRev, initial, now).revCounter
    {
      hide M.Committed, M.CommittedMarks, M.Known, M.OpensSession, M.ContentMoved, M.AttentionMoved;
    }

    method DropEntry(p: PaneId)
      requires EventsOk(agents, lastEvent)
      modifies this`agents, this`revision, this`contentRev, this`attentionRev, this`prevStatus
      ensures EventsOk(agents, lastEvent) && agents == old(agents) - {p} && revision == old(revision) - {p}
      ensures contentRev == old(contentRev) - {p} && attentionRev == old(attentionRev) - {p}
      ensures prevStatus == old(prevStatus) - {p}
    {
      FewerOk(agents, lastEvent, p);
      hide EventsOk;
      agents, revision, contentRev, attentionRev, prevStatus :=
        agents - {p}, revision - {p}, contentRev - {p}, attentionRev - {p}, prevStatus - {p};
    }

    /** One pane that a commit did not see. */
    method Drop(p: PaneId)
      requires Valid() && p in agents
      modifies this`agents, this`revision, this`contentRev, this`attentionRev, this`prevStatus, this`generation,
        this`unseen, this`acked, this`finished, this`completionRev
      ensures Valid() && View() == M.Ended(old(View()), {p})
    {
      hide EventsOk, CompletionsOk, M.Ended, M.SetMarks, M.Count;
      EndedOne(View(), p);
      generation := generation[p := M.Count(generation, p) + 1];
      DropEntry(p);
      ClearMarks(p);
    }

    /** The panes in `gone`, in any order. */
    method DropAll(gone: set<PaneId>)
      requires Valid() && gone <= agents.Keys
      modifies this`agents, this`revision, this`contentRev, this`attentionRev, this`prevStatus, this`generation,
        this`unseen, this`acked, this`finished, this`completionRev
      ensures Valid() && View() == M.Ended(old(View()), gone)
    {
      hide EventsOk, CompletionsOk;
      ghost var s := View();
      ghost var done: set<PaneId> := {};
      var left := gone;
      EndedNone(s);
      while left != {}
        invariant Valid() && left !! done && left + done == gone && left <= agents.Keys
        invariant View() == M.Ended(s, done)
        decreases left
      {
        var p :| p in left;
        EndedAfter(s, done, p);
        hide M.Ended;
        EndedKeys(View(), p);
        Drop(p);
        left := left - {p};
        done := done + {p};
      }
      assert done == gone;
    }

    /** The waiting events that are still due, the others being dropped one by one. */
    method DropExpired(now: int)
      modifies this`pending
      ensures View() == old(View()).(pending := M.Unexpired(old(pending), now))
    {
      var left := pending.Keys;
      while left != {}
        invariant left <= pending.Keys
        invariant pending.Keys <= old(pending).Keys && forall p :: p in pending ==> pending[p] == old(pending)[p]
        invariant forall p :: p in old(pending) && p !in left ==> (p in pending <==> now < old(pending)[p].expiresAt)
        decreases left
      {
        var p :| p in left;
        left := left - {p};
        if now >= pending[p].expiresAt {
          pending := pending - {p};
        }
      }
      assert pending == M.Unexpired(old(pending), now);
    }

    /** `commitInventoryLocked`. */
    method CommitInventory(records: seq<M.Incoming>, baseRev: nat, now: int)
      requires Valid() && forall i :: 0 <= i < |records| ==> records[i].agent.eventId <= lastEvent
      modifies this
      ensures Valid() && View() == M.CommitInventory(old(View()), records, baseRev, now)
    {
      hide EventsOk, CompletionsOk, M.CommitRecords, M.Ended, M.Unexpired, M.TopologyChanged;
      var initial := !ready;
      var changed := Differs(records);
      if changed {
        topologyGen := topologyGen + 1;
      }
      revCounter := revCounter + 1;
      ready := true;
      assert View() == M.Begun(old(View()), records);
      var seen := CommitAll(records, baseRev, initial, now);
      DropAll(agents.Keys - seen);
      DropExpired(now);
    }

    /** `CommitPoll`. */
    method CommitPoll(records: seq<M.Incoming>, token: M.Token, now: int) returns (committed: bool)
      requires Valid() && forall i :: 0 <= i < |records| ==> records[i].agent.eventId == 0
      modifies this
      ensures Valid() && (View(), committed) == M.CommitPoll(old(View()), records, token, now)
    {
      hide EventsOk, CompletionsOk, M.CommitInventory;
      if topologyGen != token.topologyGen {
        return false;
      }
      CommitInventory(records, token.baseRevision, now);
      committed := true;
    }

    method BeginPoll() returns (token: M.Token)
      ensures token == M.BeginPoll(View())
    {
      token := M.Token(revCounter, topologyGen);
    }

    /** `CommitTopology`: the records are copied with the status of the panes they name. */
    method CommitTopology(records: seq<M.Incoming>, baseRev: nat, workspaceChanged: bool, now: int)
      requires Valid() && forall i :: 0 <= i < |records| ==> records[i].agent.eventId == 0
      modifies this
      ensures Valid() && View() == M.CommitTopology(old(View()), records, baseRev, workspaceChanged, now)
    {
      hide EventsOk, CompletionsOk, M.CommitInventory, M.KeepStatuses;
      ghost var t := if workspaceChanged then View().(topologyGen := topologyGen + 1) else View();
      if workspaceChanged {
        topologyGen := topologyGen + 1;
      }
      assert View() == t;
      var kept := CopyStatuses(records);
      CommitInventory(kept, baseRev, now);
    }

    method CopyStatuses(records: seq<M.Incoming>) returns (kept: seq<M.Incoming>)
      requires Valid() && forall i :: 0 <= i < |records| ==> records[i].agent.eventId == 0
      ensures kept == M.KeepStatuses(View(), records)
      ensures forall i :: 0 <= i < |kept| ==> kept[i].agent.eventId <= lastEvent
    {
      kept := [];
      while |kept| < |records|
        invariant |kept| <= |records|
        invariant forall i :: 0 <= i < |kept| ==> kept[i] == M.KeepStatus(View(), records[i]) && kept[i].agent.eventId <= lastEvent
      {
        var incoming := records[|kept|];
        var p := incoming.pane;
        if p !in agents || M.Replaced(agents[p], incoming.agent) {
          kept := kept + [incoming];
        } else {
          var cp := incoming.agent.(status := agents[p].status);
          if agents[p].status.Blocked? {
            cp := M.WithDetailsOf(cp, agents[p]);
          }
          kept := kept + [incoming.(agent := cp)];
        }
      }
    }

    // -------------------------------------------------------------- events and requests

    /** The waiting event that makes room: the first to expire, the pane with the empty name aside. */
    method Oldest() returns (oldest: PaneId)
      requires pending != map[]
      ensures oldest in pending
      ensures "" !in pending ==> forall q :: q in pending ==> pending[oldest].expiresAt <= pending[q].expiresAt
    {
      oldest := "";
      var expires := 0;
      var left := pending.Keys;
      while left != {}
        invariant left <= pending.Keys
        invariant oldest in pending || (left == pending.Keys && oldest == "")
        invariant oldest in pending && oldest != "" ==> expires == pending[oldest].expiresAt
        invariant "" !in pending ==> forall q :: q in pending && q !in left ==>
          oldest in pending && pending[oldest].expiresAt <= pending[q].expiresAt
        decreases left
      {
        var id :| id in left;
        left := left - {id};
        if oldest == "" || pending[id].expiresAt < expires {
          oldest, expires := id, pending[id].expiresAt;
        }
      }
    }

    /** An event for a pane that is not known yet waits for it. */
    method Wait(p: PaneId, tab: string, workspace: string, status: M.Status, updatedAt: int, now: int) returns (ghost evicted: PaneId)
      modifies this`pending
      ensures M.Evictable(old(pending), evicted)
      ensures View() == M.Postpone(old(View()), p, tab, workspace, status, updatedAt, evicted, now)
    {
      evicted := "";
      if |pending| >= M.PENDING_LIMIT {
        var oldest := Oldest();
        evicted := oldest;
        pending := pending - {oldest};
      }
      pending := pending[p := M.Pending(tab, workspace, status, updatedAt, now + 30000)];
    }

    method EventEntry(p: PaneId, status: M.Status, updatedAt: int, now: int) returns (a: M.Agent)
      requires Valid() && p in agents
      modifies this`lastEvent
      ensures Valid() && a == M.EventAgent(old(View()), p, status, updatedAt, now) && a.eventId <= lastEvent
      ensures lastEvent == M.Drawn(old(lastEvent), a)
    {
      var prev := agents[p].status;
      a := agents[p].(status := status, updatedAt := updatedAt);
      if updatedAt > a.lastActiveAt {
        a := a.(lastActiveAt := updatedAt);
      } else if updatedAt <= 0 {
        a := a.(lastActiveAt := now);
      }
      if status.Blocked? {
        if !prev.Blocked? || a.eventId == 0 {
          lastEvent := lastEvent + 1;
          a := M.Cleared(a).(eventId := lastEvent, kind := M.Unknown);
        }
      } else {
        a := M.Cleared(a);
      }
      EventsGrow(agents, old(lastEvent), lastEvent);
    }

    /** The pane's entry moves to the next revision. */
    method Move(p: PaneId, a: M.Agent, content: bool, attention: bool)
      requires Valid() && p in agents && a.eventId <= lastEvent
      modifies this`agents, this`revCounter, this`revision, this`contentRev, this`attentionRev
      ensures Valid() && p in revision && revision[p] == revCounter > 0
      ensures agents == old(agents)[p := a] && revCounter == old(revCounter) + 1
      ensures revision == old(revision)[p := revCounter]
      ensures contentRev == M.Bumped(old(contentRev), p, content) && attentionRev == M.Bumped(old(attentionRev), p, attention)
    {
      hide EventsOk, CompletionsOk, M.Bumped;
      EventsSet(agents, lastEvent, p, a);
      revCounter := revCounter + 1;
      revision := revision[p := revCounter];
      agents := agents[p := a];
      Revise(p, content, attention);
    }

    /** The event's entry and revisions. */
    method EnterEvent(p: PaneId, status: M.Status, updatedAt: int, now: int) returns (a: M.Agent)
      requires Valid() && p in agents
      modifies this`agents, this`revCounter, this`revision, this`contentRev, this`attentionRev, this`prevStatus, this`lastEvent
      ensures Valid() && a == M.EventAgent(old(View()), p, status, updatedAt, now)
      ensures View() == M.EventEntered(old(View()), p, a) && p in revision && revision[p] == revCounter > 0
    {
      hide EventsOk, CompletionsOk, M.EventAgent, M.Bumped, M.SameDetails, M.Drawn;
      var before := agents[p];
      a := EventEntry(p, status, updatedAt, now);
      Move(p, a, before.status != a.status, !M.SameDetails(before, a));
      prevStatus := prevStatus[p := a.status];
    }

    /** The event's transition and chat completion. */
    method MarkEvent(p: PaneId, prev: M.Status, status: M.Status, previous: M.Kind, kind: M.Kind)
      requires Valid() && p in revision && revision[p] > 0
      modifies this`unseen, this`acked, this`finished, this`completionRev
      ensures Valid()
      ensures View() == M.SetMarks(old(View()), p, M.AfterTransition(old(Marks(p)), Some(prev), status, previous, kind, revision[p]))
    {
      hide EventsOk, CompletionsOk, M.Transition, M.ChatSync, M.PreservesChat, M.SetMarks, M.MarksOf;
      ghost var s := View();
      ghost var moved := M.Transition(Marks(p), Some(prev), status, previous, revision[p]);
      RegisterTransition(p, Some(prev), status, previous);
      SetTwice(s, p, moved, M.ChatSync(moved, previous, kind, revision[p]));
      MarksView(p);
      if !M.PreservesChat(Some(prev), status, previous) {
        SyncCompletion(p, previous, kind);
      }
    }

    /** `CommitEventForSession` for a known pane whose identity matches. */
    method ApplyEvent(p: PaneId, status: M.Status, updatedAt: int, now: int)
      requires Valid() && p in agents
      modifies this
      ensures Valid() && View() == M.ApplyEvent(old(View()), p, status, updatedAt, now)
    {
      ghost var s := View();
      var before := agents[p];
      hide EventsOk, CompletionsOk, M.EventAgent, M.AfterTransition, M.SetMarks;
      var a := EnterEvent(p, status, updatedAt, now);
      EnteredMarks(s, p, a);
      MarksView(p);
      hide M.MarksOf, M.EventEntered;
      assert revCounter == s.revCounter + 1 by { EnteredMarks(s, p, a); }
      MarkEvent(p, before.status, status, before.kind, a.kind);
    }

    lemma EnteredMarks(s: M.Agents, p: PaneId, a: M.Agent)
      requires p in s.agents
      ensures M.MarksOf(M.EventEntered(s, p, a), p) == M.MarksOf(s, p)
      ensures M.EventEntered(s, p, a).revCounter == s.revCounter + 1
    {
    }

    /** `CommitEventForSession`. */
    method CommitEvent(p: PaneId, tab: string, workspace: string, status: M.Status, updatedAt: int, now: int)
      returns (applied: bool, ghost evicted: PaneId)
      requires Valid()
      modifies this
      ensures Valid() && View() == M.CommitEvent(old(View()), p, tab, workspace, status, updatedAt, evicted, now)
      ensures p !in old(agents) ==> M.Evictable(old(pending), evicted)
      ensures applied == (p in old(agents) && M.Matches(old(agents)[p], tab, workspace))
    {
      hide EventsOk, CompletionsOk, M.ApplyEvent, M.Postpone, M.Matches, M.Evictable;
      evicted := "";
      if p !in agents {
        evicted := Wait(p, tab, workspace, status, updatedAt, now);
        return false, evicted;
      }
      if !M.Matches(agents[p], tab, workspace) {
        return false, evicted;
      }
      ApplyEvent(p, status, updatedAt, now);
      applied := true;
    }

    /** `CommitAttentionClassification`. */
    method Classify(p: PaneId, eventId: nat, expected: nat, content: nat, kind: M.Kind, controls: nat) returns (current: bool)
      requires Valid()
      modifies this
      ensures Valid() && View() == M.Classify(old(View()), p, eventId, expected, content, kind, controls)
      ensures current == M.ClassifiesCurrent(old(View()), p, eventId, expected, content)
    {
      current := p in agents && agents[p].status.Blocked? && agents[p].eventId == eventId &&
        M.Count(generation, p) == expected && M.Count(contentRev, p) == content;
      if current {
        Reclassify(p, if kind.NoKind? then M.Unknown else kind, controls);
      }
    }

    /** The pane's blocked details change, if they differ. */
    method Reclassify(p: PaneId, kind: M.Kind, controls: nat)
      requires Valid() && p in agents
      modifies this
      ensures Valid()
      ensures var a := old(agents[p]);
        var next := a.(kind := kind, controls := controls);
        View() == if next == a then old(View())
          else M.SetMarks(M.Reclassified(old(View()), p, next), p,
                          M.ChatSync(M.MarksOf(old(View()), p), a.kind, kind, old(revCounter) + 1))
    {
      var a := agents[p];
      var next := a.(kind := kind, controls := controls);
      MarksView(p);
      EventBound(p);
      hide EventsOk, CompletionsOk, M.ChatSync, M.SetMarks, M.Bumped;
      if next != a {
        Move(p, next, true, true);
        MarksView(p);
        SyncCompletion(p, a.kind, next.kind);
      }
    }

    lemma EventBound(p: PaneId)
      requires Valid() && p in agents
      ensures agents[p].eventId <= lastEvent
    {
    }

    /** `AcknowledgePane`. */
    method Acknowledge(p: PaneId, now: int) returns (known: bool)
      requires Valid()
      modifies this`agents, this`unseen, this`acked
      ensures Valid() && View() == M.Acknowledge(old(View()), p, now) && known == (p in old(agents))
    {
      known := p in agents;
      if known {
        EventBound(p);
        EventsSet(agents, lastEvent, p, M.Seen(agents[p], now));
        hide EventsOk, CompletionsOk;
        var settles := p in unseen || agents[p].status.Done?;
        agents := agents[p := M.Seen(agents[p], now)];
        if settles {
          unseen, acked := unseen - {p}, acked + {p};
        }
        assert unseen == old(unseen) - {p};
      }
    }

    /** `RegisterFinishedNotificationForTransition`. */
    method RegisterFinished(p: PaneId, expected: nat) returns (registered: bool)
      modifies this`finished, this`notified
      ensures View() == M.Register(old(View()), p, expected) && registered == M.Registers(old(View()), p, expected)
    {
      if p !in agents ||
        (M.Attention(agents[p].status) && !(agents[p].status.Blocked? && agents[p].kind.Chat?)) ||
        M.Count(completionRev, p) != expected || p in finished {
        return false;
      }
      finished := finished + {p};
      notified := notified + [(p, expected)];
      registered := true;
    }

    method BumpGeneration(p: PaneId)
      modifies this`generation
      ensures View() == M.Step(old(View()), M.Bump(p))
    {
      generation := generation[p := M.Count(generation, p) + 1];
    }

    /** `DisplayedStatus` of a known pane. */
    method DisplayedStatus(p: PaneId) returns (status: Option<M.Status>)
      ensures status == if p in agents then Some(M.Displayed(View(), p)) else None
    {
      if p !in agents {
        return None;
      }
      if agents[p].status.Done? && p in acked {
        return Some(M.Idle);
      }
      if agents[p].status.Idle? && p in unseen {
        return Some(M.DONE);
      }
      status := Some(agents[p].status);
    }

    /** The statuses `Snapshot` reports. */
    method Snapshot() returns (shown: map<PaneId, M.Status>)
      ensures shown.Keys == agents.Keys && forall p :: p in agents ==> shown[p] == M.Shown(View(), p)
    {
      shown := map[];
      var left := agents.Keys;
      while left != {}
        invariant left <= agents.Keys && shown.Keys == agents.Keys - left
        invariant forall p :: p in shown ==> shown[p] == M.Shown(View(), p)
        decreases left
      {
        var p :| p in left;
        left := left - {p};
        var status := agents[p].status;
        if status.Done? && p in acked {
          status := M.Idle;
        }
        if status.Idle? && p in unseen {
          status := M.DONE;
        }
        shown := shown[p := status];
      }
    }
  }

  lemma RaisedOne(generation: map<PaneId, nat>, p: PaneId)
    ensures M.Raised(generation, {p}) == generation[p := M.Count(generation, p) + 1]
  {
  }

  lemma FewerOk(agents: map<PaneId, M.Agent>, lastEvent: nat, p: PaneId)
    requires EventsOk(agents, lastEvent)
    ensures EventsOk(agents - {p}, lastEvent)
  {
  }

  lemma EndedOne(s: M.Agents, p: PaneId)
    ensures M.Ended(s, {p}) ==
      M.SetMarks(s.(generation := s.generation[p := M.Count(s.generation, p) + 1],
                    agents := s.agents - {p}, revision := s.revision - {p}, contentRev := s.contentRev - {p},
                    attentionRev := s.attentionRev - {p}, prevStatus := s.prevStatus - {p}),
                 p, M.Marks(false, false, false, 0))
  {
    RaisedOne(s.generation, p);
    hide M.Raised;
  }

  lemma EndedNone(s: M.Agents)
    ensures M.Ended(s, {}) == s
  {
    assert M.Raised(s.generation, {}) == s.generation;
    MinusNone(s.agents); MinusNone(s.revision); MinusNone(s.contentRev); MinusNone(s.attentionRev);
    MinusNone(s.prevStatus); MinusNone(s.completionRev);
    hide M.Raised;
  }

  lemma MinusNone<V>(m: map<PaneId, V>)
    ensures m - {} == m
  {
  }

  lemma MinusTwice<V>(m: map<PaneId, V>, done: set<PaneId>, p: PaneId)
    ensures m - done - {p} == m - (done + {p})
  {
  }

  lemma WithoutTwice(s: set<PaneId>, done: set<PaneId>, p: PaneId)
    ensures s - done - {p} == s - (done + {p})
  {
  }

  lemma RaisedTwice(m: map<PaneId, nat>, done: set<PaneId>, p: PaneId)
    requires p !in done
    ensures M.Raised(M.Raised(m, done), {p}) == M.Raised(m, done + {p})
  {
  }

  lemma EndedKeys(s: M.Agents, p: PaneId)
    ensures M.Ended(s, {p}).agents.Keys == s.agents.Keys - {p}
  {
    hide M.Raised;
  }

  lemma EndedAfter(s: M.Agents, done: set<PaneId>, p: PaneId)
    requires p !in done
    ensures M.Ended(M.Ended(s, done), {p}) == M.Ended(s, done + {p})
  {
    hide M.Raised;
    MinusTwice(s.agents, done, p); MinusTwice(s.revision, done, p); MinusTwice(s.contentRev, done, p);
    MinusTwice(s.attentionRev, done, p); MinusTwice(s.prevStatus, done, p); MinusTwice(s.completionRev, done, p);
    WithoutTwice(s.unseen, done, p); WithoutTwice(s.acked, done, p); WithoutTwice(s.finished, done, p);
    RaisedTwice(s.generation, done, p);
  }
}
