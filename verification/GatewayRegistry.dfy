/** Registration of relays at the gateway: look the id up, probe the incumbent, then claim the id,
    with other registrations and unwinding links in between. Every registration brings a link of its
    own. `silent` remembers which link's probe of which other link went unanswered. */
module GatewayRegistry {
  import opened Options

  type LinkId = nat
  type RelayId = string

  datatype Refusal = AtCapacity | RelayBusy

  /** Where a registration stands. */
  datatype Phase =
    | Arrived
    | Probing(previous: LinkId)
    | Unanswered(previous: LinkId)
    | Installed
    | Refused(code: Refusal)
    | Unwound

  datatype Registration = Registration(relay: RelayId, phase: Phase)

  datatype State = State(
    table: map<RelayId, LinkId>,
    regs: map<LinkId, Registration>,
    silent: set<(LinkId, LinkId)>)

  const Empty: State := State(map[], map[], {})

  function At(s: State, link: LinkId, phase: Phase): State
    requires link in s.regs
  {
    s.(regs := s.regs[link := s.regs[link].(phase := phase)])
  }

  predicate Full(s: State, maxRelays: int) {
    maxRelays >= 0 && |s.table| >= maxRelays
  }

  function Current(s: State, relay: RelayId): Option<LinkId> {
    if relay in s.table then Some(s.table[relay]) else None
  }

  /** The first locked part of `registerRelay`. */
  function Look(s: State, maxRelays: int, link: LinkId): State
    requires link in s.regs
  {
    var relay := s.regs[link].relay;
    match Current(s, relay)
    case Some(previous) => At(s, link, Probing(previous))
    case None =>
      if Full(s, maxRelays) then At(s, link, Refused(AtCapacity))
      else At(s, link, Installed).(table := s.table[relay := link])
  }

  /** The second locked part, after a probe that nothing answered. */
  function Claim(s: State, maxRelays: int, link: LinkId, previous: LinkId): State
    requires link in s.regs
  {
    var relay := s.regs[link].relay;
    var current := Current(s, relay);
    if current.Some? && current.value != previous then At(s, link, Refused(RelayBusy))
    else if current.None? && Full(s, maxRelays) then At(s, link, Refused(AtCapacity))
    else At(s, link, Installed).(table := s.table[relay := link])
  }

  /** `unregisterRelay` of a link whose pump has ended. */
  function Unregister(s: State, link: LinkId): State
    requires link in s.regs
  {
    var relay := s.regs[link].relay;
    var t := At(s, link, Unwound);
    if Current(s, relay) == Some(link) then t.(table := s.table - {relay}) else t
  }

  datatype Event =
    | Hello(link: LinkId, relay: RelayId)
    | Advance(link: LinkId)
    | Answered(link: LinkId)
    | TimedOut(link: LinkId)
    | PumpEnded(link: LinkId)

  function Step(s: State, maxRelays: int, e: Event): State {
    match e
    case Hello(link, relay) =>
      if link in s.regs then s else s.(regs := s.regs[link := Registration(relay, Arrived)])
    case Advance(link) =>
      if link !in s.regs then s
      else if s.regs[link].phase.Arrived? then Look(s, maxRelays, link)
      else if s.regs[link].phase.Unanswered? then Claim(s, maxRelays, link, s.regs[link].phase.previous)
      else s
    case Answered(link) =>
      if link in s.regs && s.regs[link].phase.Probing? then At(s, link, Refused(RelayBusy)) else s
    case TimedOut(link) =>
      if link in s.regs && s.regs[link].phase.Probing?
      then At(s, link, Unanswered(s.regs[link].phase.previous)).(silent := s.silent + {(link, s.regs[link].phase.previous)})
      else s
    case PumpEnded(link) =>
      if link in s.regs && s.regs[link].phase.Installed? then Unregister(s, link) else s
  }

  function Run(s: State, maxRelays: int, events: seq<Event>): State
    decreases |events|
  {
    if events == [] then s else Run(Step(s, maxRelays, events[0]), maxRelays, events[1..])
  }

  // ---------------------------------------------------------------- the invariant

  /** A link is in the table only under its own relay id and only after it was installed; the probes
      that went unanswered are those that registrations act on; the table is within its limit. */
  ghost predicate Inv(s: State, maxRelays: int) {
    TableOk(s.table, s.regs) && ProbesOk(s.regs, s.silent) && (maxRelays >= 0 ==> |s.table| <= maxRelays)
  }

  ghost predicate TableOk(table: map<RelayId, LinkId>, regs: map<LinkId, Registration>) {
    forall id :: id in table ==>
      table[id] in regs && regs[table[id]].relay == id && regs[table[id]].phase.Installed?
  }

  ghost predicate ProbesOk(regs: map<LinkId, Registration>, silent: set<(LinkId, LinkId)>) {
    forall l :: l in regs && regs[l].phase.Unanswered? ==> (l, regs[l].phase.previous) in silent
  }

  lemma EmptyKeeps(s: State, maxRelays: int)
    requires s == Empty
    ensures Inv(s, maxRelays)
  {
  }

  lemma PutSize(table: map<RelayId, LinkId>, relay: RelayId, link: LinkId)
    ensures |table[relay := link]| == |table| + if relay in table then 0 else 1
  {
    assert table[relay := link].Keys == table.Keys + {relay};
  }

  lemma DropSize(table: map<RelayId, LinkId>, relay: RelayId)
    ensures |table - {relay}| <= |table|
  {
    assert (table - {relay}).Keys == table.Keys - {relay};
    if relay in table {
      assert |table.Keys - {relay}| == |table.Keys| - 1;
    } else {
      assert table.Keys - {relay} == table.Keys;
    }
  }

  /** A registration that is not in the table changes phase. */
  lemma AtKeeps(s: State, maxRelays: int, link: LinkId, phase: Phase)
    requires Inv(s, maxRelays) && link in s.regs && !s.regs[link].phase.Installed? && !phase.Unanswered?
    ensures Inv(At(s, link, phase), maxRelays)
  {
  }

  lemma InstallKeeps(s: State, maxRelays: int, link: LinkId)
    requires Inv(s, maxRelays) && link in s.regs && !s.regs[link].phase.Installed?
    requires s.regs[link].relay in s.table || !Full(s, maxRelays)
    ensures Inv(At(s, link, Installed).(table := s.table[s.regs[link].relay := link]), maxRelays)
  {
    PutSize(s.table, s.regs[link].relay, link);
    AtKeeps(s, maxRelays, link, Installed);
  }

  lemma UnregisterKeeps(s: State, maxRelays: int, link: LinkId)
    requires Inv(s, maxRelays) && link in s.regs && s.regs[link].phase.Installed?
    ensures Inv(Unregister(s, link), maxRelays)
  {
    DropSize(s.table, s.regs[link].relay);
  }

  lemma TimedOutKeeps(s: State, maxRelays: int, link: LinkId)
    requires Inv(s, maxRelays) && link in s.regs && s.regs[link].phase.Probing?
    ensures Inv(Step(s, maxRelays, TimedOut(link)), maxRelays)
  {
  }

  lemma StepKeeps(s: State, maxRelays: int, e: Event)
    requires Inv(s, maxRelays)
    ensures Inv(Step(s, maxRelays, e), maxRelays)
  {
    match e
    case Hello(link, relay) =>
    case Advance(link) =>
      hide Inv, Full;
      if link in s.regs && s.regs[link].phase.Arrived? {
        var relay := s.regs[link].relay;
        if relay in s.table {
          AtKeeps(s, maxRelays, link, Probing(s.table[relay]));
        } else if Full(s, maxRelays) {
          AtKeeps(s, maxRelays, link, Refused(AtCapacity));
        } else {
          InstallKeeps(s, maxRelays, link);
        }
      } else if link in s.regs && s.regs[link].phase.Unanswered? {
        var relay := s.regs[link].relay;
        if relay in s.table && s.table[relay] != s.regs[link].phase.previous {
          AtKeeps(s, maxRelays, link, Refused(RelayBusy));
        } else if relay !in s.table && Full(s, maxRelays) {
          AtKeeps(s, maxRelays, link, Refused(AtCapacity));
        } else {
          InstallKeeps(s, maxRelays, link);
        }
      }
    case Answered(link) =>
      hide Inv;
      if link in s.regs && s.regs[link].phase.Probing? {
        AtKeeps(s, maxRelays, link, Refused(RelayBusy));
      }
    case TimedOut(link) =>
      hide Inv;
      if link in s.regs && s.regs[link].phase.Probing? {
        TimedOutKeeps(s, maxRelays, link);
      }
    case PumpEnded(link) =>
      hide Inv;
      if link in s.regs && s.regs[link].phase.Installed? {
        UnregisterKeeps(s, maxRelays, link);
      }
  }

  lemma {:induction false} RunKeeps(s: State, maxRelays: int, events: seq<Event>)
    requires Inv(s, maxRelays)
    ensures Inv(Run(s, maxRelays, events), maxRelays)
    decreases |events|
  {
    hide Inv, Step;
    if events != [] {
      StepKeeps(s, maxRelays, events[0]);
      RunKeeps(Step(s, maxRelays, events[0]), maxRelays, events[1..]);
    }
  }

  // ---------------------------------------------------------------- who may take an id away

  /** The only ways for a link to lose its id: its own pump ended, or a registration whose probe of
      that very link went unanswered took its place. */
  ghost predicate Rightly(s: State, e: Event, r: State, relay: RelayId, link: LinkId) {
    || (e == PumpEnded(link) && relay !in r.table)
    || (e.Advance? && relay in r.table && r.table[relay] == e.link && (e.link, link) in s.silent)
  }

  lemma LosesRightly(s: State, maxRelays: int, e: Event, relay: RelayId)
    requires Inv(s, maxRelays) && relay in s.table
    ensures var r := Step(s, maxRelays, e);
      Current(r, relay) != Some(s.table[relay]) ==> Rightly(s, e, r, relay, s.table[relay])
  {
  }

  /** Over every run, a link that held an id and does not hold it at the end lost it rightly at some
      step; in particular a displaced link never removes its successor. */
  lemma {:induction false} RunLosesRightly(s: State, maxRelays: int, events: seq<Event>, relay: RelayId)
    requires Inv(s, maxRelays) && relay in s.table
    requires Current(Run(s, maxRelays, events), relay) != Some(s.table[relay])
    ensures exists k :: 0 <= k < |events| && LostAt(s, maxRelays, events, relay, k)
    decreases |events|
  {
    var r := Step(s, maxRelays, events[0]);
    StepKeeps(s, maxRelays, events[0]);
    LosesRightly(s, maxRelays, events[0], relay);
    hide Inv, Step, Rightly;
    if Current(r, relay) != Some(s.table[relay]) {
      assert Run(s, maxRelays, events[..0]) == s;
      assert LostAt(s, maxRelays, events, relay, 0);
    } else {
      RunLosesRightly(r, maxRelays, events[1..], relay);
      var k :| 0 <= k < |events[1..]| && LostAt(r, maxRelays, events[1..], relay, k);
      assert events[..k + 1][1..] == events[1..][..k] && events[..k + 1][0] == events[0];
      assert Run(s, maxRelays, events[..k + 1]) == Run(r, maxRelays, events[1..][..k]);
      assert LostAt(s, maxRelays, events, relay, k + 1);
    }
  }

  /** The link that holds the id at the start still holds it before step `k` and loses it there. */
  ghost predicate LostAt(s: State, maxRelays: int, events: seq<Event>, relay: RelayId, k: nat)
    requires relay in s.table && k < |events|
  {
    var before := Run(s, maxRelays, events[..k]);
    && Current(before, relay) == Some(s.table[relay])
    && Rightly(before, events[k], Step(before, maxRelays, events[k]), relay, s.table[relay])
  }

  /** A link once installed that no longer holds its id never holds it again. */
  ghost predicate Displaced(s: State, link: LinkId) {
    link in s.regs && (s.regs[link].phase.Installed? || s.regs[link].phase.Unwound?) &&
    Current(s, s.regs[link].relay) != Some(link)
  }

  lemma StepDisplaced(s: State, maxRelays: int, e: Event, link: LinkId)
    requires Inv(s, maxRelays) && Displaced(s, link)
    ensures Displaced(Step(s, maxRelays, e), link)
    ensures e.link == link ==> Step(s, maxRelays, e).table == s.table
  {
  }

  lemma {:induction false} DisplacedForever(s: State, maxRelays: int, events: seq<Event>, link: LinkId)
    requires Inv(s, maxRelays) && Displaced(s, link)
    ensures Displaced(Run(s, maxRelays, events), link)
    decreases |events|
  {
    hide Inv, Step, Displaced;
    if events != [] {
      StepKeeps(s, maxRelays, events[0]);
      StepDisplaced(s, maxRelays, events[0], link);
      DisplacedForever(Step(s, maxRelays, events[0]), maxRelays, events[1..], link);
    }
  }

  // ---------------------------------------------------------------- what a registration gets

  /** The link is installed under its id, and nothing else in the table moves. */
  ghost predicate InstalledIn(s: State, r: State, link: LinkId) {
    && link in s.regs && link in r.regs && r.regs[link].phase.Installed?
    && r.table == s.table[s.regs[link].relay := link]
  }

  ghost predicate RefusedIn(s: State, r: State, link: LinkId, code: Refusal) {
    link in r.regs && r.regs[link].phase == Refused(code) && r.table == s.table
  }

  /** A registration that has just arrived: a free id is taken if there is room and refused for capacity
      exactly if there is none; for an id in use its incumbent, and no other link, is probed. */
  lemma FirstLook(s: State, maxRelays: int, link: LinkId)
    requires link in s.regs && s.regs[link].phase.Arrived?
    ensures var r := Step(s, maxRelays, Advance(link));
      var relay := s.regs[link].relay;
      && (relay !in s.table && (maxRelays < 0 || |s.table| < maxRelays) <==> InstalledIn(s, r, link))
      && (relay !in s.table && 0 <= maxRelays <= |s.table| <==> RefusedIn(s, r, link, AtCapacity))
      && (relay in s.table ==> r.table == s.table && r.regs[link].phase == Probing(s.table[relay]))
  {
  }

  /** A registration that probes: an answer refuses it as busy, a silence lets it go on about that very
      link, and neither touches the table. */
  lemma ProbeEnds(s: State, maxRelays: int, link: LinkId, previous: LinkId)
    requires link in s.regs && s.regs[link].phase == Probing(previous)
    ensures RefusedIn(s, Step(s, maxRelays, Answered(link)), link, RelayBusy)
    ensures var r := Step(s, maxRelays, TimedOut(link));
      link in r.regs && r.regs[link].phase == Unanswered(previous) && (link, previous) in r.silent && r.table == s.table
  {
  }

  /** A registration whose probe went unanswered: it is refused as busy exactly if another link than the
      one it probed holds the id by now, for capacity exactly if the id is free and there is no room, and
      it is installed in every other case. */
  lemma SecondLook(s: State, maxRelays: int, link: LinkId, previous: LinkId)
    requires link in s.regs && s.regs[link].phase == Unanswered(previous)
    ensures var r := Step(s, maxRelays, Advance(link));
      var relay := s.regs[link].relay;
      && (relay in s.table && s.table[relay] != previous <==> RefusedIn(s, r, link, RelayBusy))
      && (relay !in s.table && 0 <= maxRelays <= |s.table| <==> RefusedIn(s, r, link, AtCapacity))
      && (InstalledIn(s, r, link) <==>
            if relay in s.table then s.table[relay] == previous else maxRelays < 0 || |s.table| < maxRelays)
  {
  }
}
