/** A run in which a generation read while a pane was absent becomes current again. */
module AgentWitness {
  import opened Options
  import opened AgentModel
  import opened AgentTheorems
  import opened AgentPromises

  /** One pane is polled, disappears, a poll fails and the pane comes back. */
  function ComeAndGo(r: Incoming): seq<Event> {
    [Poll([r], Token(0, 0), 1), Poll([], Token(1, 1), 2), InventoryFailed, Poll([r], Token(2, 2), 3)]
  }

  lemma PollCommits(s: Agents, e: Event)
    requires Inv(s) && e.Poll? && WellFormed(e.records) && e.token.topologyGen == s.topologyGen && |e.records| != |s.agents.Keys|
    ensures Admissible(s, e)
    ensures var t := Step(s, e);
      && Inv(t) && t == CommitInventory(s, e.records, e.token.baseRevision, e.now)
      && t.agents.Keys == Panes(e.records) && t.topologyGen == s.topologyGen + 1
  {
    StepInv(s, e);
    InventoryCounters(s, e.records, e.token.baseRevision, e.now);
    hide Inv, CommitInventory, WellFormed;
  }

  lemma OneRecord(records: seq<Incoming>)
    requires |records| <= 1 && forall i :: 0 <= i < |records| ==> records[i].agent.eventId == 0
    ensures WellFormed(records) && Panes(records) == if records == [] then {} else {records[0].pane}
  {
    if records != [] {
      assert records[0] in records && forall r :: r in records ==> r == records[0];
    }
  }

  lemma PollFails(s: Agents, e: Event)
    requires Inv(s) && e.InventoryFailed?
    ensures Step(s, e) == s.(ready := false) && Inv(Step(s, e)) && Admissible(s, e)
  {
    StepInv(s, e);
    hide Inv;
  }

  /** A pane that was there is gone, and its session has ended. */
  lemma ComesAndGoes(s: Agents, e: Event, f: Event, p: PaneId)
    requires Inv(s) && s.agents.Keys == {} && s.topologyGen == 0 && e.Poll? && f.Poll?
    requires |e.records| == 1 && e.records[0].pane == p && e.records[0].agent.eventId == 0 && e.token.topologyGen == 0
    requires f.records == [] && f.token.topologyGen == 1
    ensures var a := Step(s, e);
      var b := Step(a, f);
      && Admissible(s, e) && Admissible(a, f)
      && Inv(b) && b.agents.Keys == {} && b.topologyGen == 2 && Count(b.generation, p) > 0
  {
    hide Inv, Step, CommitInventory, WellFormed, Panes, Admissible;
    OneRecord(e.records);
    OneRecord(f.records);
    PollCommits(s, e);
    var a := Step(s, e);
    PollCommits(a, f);
    InventoryElsewhere(a, f.records, f.token.baseRevision, f.now, p);
  }

  /** After a failed poll it comes back to the generation it left. */
  lemma ComesBack(s: Agents, e: Event, p: PaneId)
    requires Inv(s) && !s.ready && s.agents.Keys == {} && s.topologyGen == 2 && e.Poll? && e.token.topologyGen == 2
    requires |e.records| == 1 && e.records[0].pane == p && e.records[0].agent.eventId == 0
    ensures Admissible(s, e) && SessionCurrent(Step(s, e), p, Count(s.generation, p))
  {
    hide Inv, Step, CommitInventory, WellFormed, Panes, Admissible, SessionCurrent;
    OneRecord(e.records);
    PollCommits(s, e);
    AbsentGeneration(s, e.records, e.token.baseRevision, e.now, 0);
  }

  lemma FourSteps(s: Agents, events: seq<Event>, a: Agents, b: Agents, c: Agents, d: Agents)
    requires |events| == 4 && a == Step(s, events[0]) && b == Step(a, events[1]) && c == Step(b, events[2]) && d == Step(c, events[3])
    requires Admissible(s, events[0]) && Admissible(a, events[1]) && Admissible(b, events[2]) && Admissible(c, events[3])
    ensures Admitted(s, events) && Run(s, events) == d && Run(s, events[..3]) == c
  {
    hide Step, Admissible;
    assert events[1..][1..] == events[2..] && events[2..][1..] == events[3..] && events[3..][1..] == [];
    assert Run(d, []) == d && Run(c, events[3..]) == d && Run(b, events[2..]) == d && Run(a, events[1..]) == d;
    assert Admitted(d, []) && Admitted(c, events[3..]) && Admitted(b, events[2..]) && Admitted(a, events[1..]);
    var first := events[..3];
    assert first[1..] == events[1..3] && first[1..][1..] == events[2..3] && events[2..3][1..] == [];
    assert Run(c, []) == c && Run(b, events[2..3]) == c && Run(a, events[1..3]) == c;
  }

  /** The run of `ComeAndGo`: the generation read while the pane was absent, although the pane had a
      session before, is current once the pane is back. */
  lemma AbsentGenerationReturns(s: Agents, r: Incoming, events: seq<Event>)
    requires s == Empty && r.agent.eventId == 0 && events == ComeAndGo(r)
    ensures var absent := Run(s, events[..3]);
      && Admitted(s, events) && r.pane !in absent.agents && Count(absent.generation, r.pane) > 0
      && SessionCurrent(Run(s, events), r.pane, Count(absent.generation, r.pane))
  {
    EmptyInv();
    assert s.agents.Keys == {} && s.topologyGen == 0;
    hide Inv, Step, Admissible, Run, Admitted, SessionCurrent, Empty;
    var e, f, g, h := events[0], events[1], events[2], events[3];
    ComesAndGoes(s, e, f, r.pane);
    hide ComeAndGo;
    var a := Step(s, e);
    var b := Step(a, f);
    PollFails(b, g);
    var c := Step(b, g);
    ComesBack(c, h, r.pane);
    FourSteps(s, events, a, b, c, Step(c, h));
  }
}
