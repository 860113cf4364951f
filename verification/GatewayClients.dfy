/** The gateway's client ceiling as threads interleave.

    Each step is what a thread does under one lock or in one atomic operation on the shared counter.
    A slot against the ceiling has an identity here: it is drawn when it is reserved and travels with
    the reserving thread, the link's connection table and the thread that gives it back, so that
    "released exactly once" can be said of it. `attached` counts the attachments of a link. */
module GatewayClients {
  type LinkId = nat
  type Thread = nat
  type Slot = nat

  const ID_SPACE: nat := 0x1_0000_0000

  datatype Link = Link(conns: map<nat, Slot>, nextId: nat, attached: nat, closed: bool)

  /** Where a thread stands in `attach`, `remove`, `sweepIdle` or `detachClients`. */
  datatype Phase =
    | Trying(link: LinkId)
    | Loaded(link: LinkId, seen: int)
    | Reserved(link: LinkId, slot: Slot)
    | Returning(slots: set<Slot>)

  datatype Holder = AtThread(thread: Thread) | AtLink(link: LinkId, id: nat) | Given

  datatype Limits = Limits(maxClients: int, maxPerRelay: int)

  datatype State = State(
    clients: int, links: map<LinkId, Link>, threads: map<Thread, Phase>,
    issued: nat, holder: map<Slot, Holder>)

  const Empty: State := State(0, map[], map[], 0, map[])

  // ---------------------------------------------------------------- steps

  /** The increment of a 32-bit id that skips zero. */
  function NextId(id: nat): nat {
    var next := (id + 1) % ID_SPACE;
    if next == 0 then 1 else next
  }

  function Leave(s: State, t: Thread): State {
    s.(threads := s.threads - {t})
  }

  function Go(s: State, t: Thread, phase: Phase): State {
    s.(threads := s.threads[t := phase])
  }

  /** The counter goes up by one and the thread holds the slot. */
  function Reserve(s: State, t: Thread, link: LinkId): State {
    State(s.clients + 1, s.links, s.threads[t := Reserved(link, s.issued)],
          s.issued + 1, s.holder[s.issued := AtThread(t)])
  }

  /** `reserveClient` begins: without a ceiling one addition reserves at once. */
  function Begin(s: State, limits: Limits, t: Thread, link: LinkId): State {
    if limits.maxClients < 0 then Reserve(s, t, link) else Go(s, t, Trying(link))
  }

  function Load(s: State, limits: Limits, t: Thread, link: LinkId): State {
    if s.clients >= limits.maxClients then Leave(s, t) else Go(s, t, Loaded(link, s.clients))
  }

  function CompareAndSwap(s: State, t: Thread, link: LinkId, seen: int): State {
    if s.clients == seen then Reserve(s, t, link) else Go(s, t, Trying(link))
  }

  /** The part of `attach` under the link's lock succeeds. */
  predicate Accepts(l: Link, limits: Limits) {
    !l.closed && !(limits.maxPerRelay >= 0 && |l.conns| >= limits.maxPerRelay)
  }

  function Attach(s: State, limits: Limits, t: Thread, link: LinkId, slot: Slot): State {
    if link !in s.links || !Accepts(s.links[link], limits) then Go(s, t, Returning({slot}))
    else
      var l := s.links[link];
      var id := NextId(l.nextId);
      Leave(s, t).(
        links := s.links[link := l.(conns := l.conns[id := slot], nextId := id, attached := l.attached + 1)],
        holder := s.holder[slot := AtLink(link, id)])
  }

  function SlotsOf(conns: map<nat, Slot>, ids: set<nat>): set<Slot> {
    set id | id in conns && id in ids :: conns[id]
  }

  /** `remove`, `sweepIdle` and `detachClients`: the connections in `ids` leave the table in one
      locked step and the thread owes their slots. */
  function Detach(s: State, t: Thread, link: LinkId, ids: set<nat>): State {
    if link !in s.links || SlotsOf(s.links[link].conns, ids) == {} then s
    else
      var l := s.links[link];
      var slots := SlotsOf(l.conns, ids);
      s.(links := s.links[link := l.(conns := l.conns - ids)],
         threads := s.threads[t := Returning(slots)],
         holder := map x | x in s.holder :: if x in slots then AtThread(t) else s.holder[x])
  }

  /** `releaseClients`. */
  function Release(s: State, t: Thread, slots: set<Slot>): State {
    Leave(s, t).(
      clients := s.clients - |slots|,
      holder := map x | x in s.holder :: if x in slots then Given else s.holder[x])
  }

  datatype Event =
    | NewLink(link: LinkId)
    | CloseLink(link: LinkId)
    | Arrive(thread: Thread, link: LinkId)
    | Advance(thread: Thread)
    | Remove(thread: Thread, link: LinkId, id: nat)
    | Sweep(thread: Thread, link: LinkId, stale: set<nat>)
    | DetachAll(thread: Thread, link: LinkId)

  function Advanced(s: State, limits: Limits, t: Thread): State
    requires t in s.threads
  {
    match s.threads[t]
    case Trying(link) => Load(s, limits, t, link)
    case Loaded(link, seen) => CompareAndSwap(s, t, link, seen)
    case Reserved(link, slot) => Attach(s, limits, t, link, slot)
    case Returning(slots) => Release(s, t, slots)
  }

  function Step(s: State, limits: Limits, e: Event): State {
    match e
    case NewLink(link) => if link in s.links then s else s.(links := s.links[link := Link(map[], 0, 0, false)])
    case CloseLink(link) => if link !in s.links then s else s.(links := s.links[link := s.links[link].(closed := true)])
    case Arrive(t, link) => if t in s.threads then s else Begin(s, limits, t, link)
    case Advance(t) => if t !in s.threads then s else Advanced(s, limits, t)
    case Remove(t, link, id) => if t in s.threads then s else Detach(s, t, link, {id})
    case Sweep(t, link, stale) => if t in s.threads then s else Detach(s, t, link, stale)
    case DetachAll(t, link) =>
      if t in s.threads || link !in s.links then s else Detach(s, t, link, s.links[link].conns.Keys)
  }

  function Run(s: State, limits: Limits, events: seq<Event>): State
    decreases |events|
  {
    if events == [] then s else Run(Step(s, limits, events[0]), limits, events[1..])
  }

  // ---------------------------------------------------------------- sums

  ghost function Sum(m: map<nat, nat>): nat
    decreases |m|
  {
    if m == map[] then 0
    else
      var k :| k in m;
      assert |(m - {k}).Keys| < |m.Keys| by { assert (m - {k}).Keys == m.Keys - {k}; }
      m[k] + Sum(m - {k})
  }

  lemma {:induction false} SumWithout(m: map<nat, nat>, k: nat)
    requires k in m
    ensures Sum(m) == m[k] + Sum(m - {k})
    decreases |m|
  {
    var j :| j in m && Sum(m) == m[j] + Sum(m - {j});
    if j != k {
      assert |(m - {j}).Keys| < |m.Keys| by { assert (m - {j}).Keys == m.Keys - {j}; }
      assert |(m - {k}).Keys| < |m.Keys| by { assert (m - {k}).Keys == m.Keys - {k}; }
      SumWithout(m - {j}, k);
      SumWithout(m - {k}, j);
      assert m - {j} - {k} == m - {k} - {j};
    }
  }

  lemma SumSet(m: map<nat, nat>, k: nat, v: nat)
    ensures Sum(m[k := v]) == Sum(m) - (if k in m then m[k] else 0) + v
  {
    SumWithout(m[k := v], k);
    assert m[k := v] - {k} == m - {k};
    if k in m {
      SumWithout(m, k);
    } else {
      assert m - {k} == m;
    }
  }

  lemma SumRemoved(m: map<nat, nat>, k: nat)
    ensures Sum(m - {k}) == Sum(m) - (if k in m then m[k] else 0)
  {
    if k in m {
      SumWithout(m, k);
    } else {
      assert m - {k} == m;
    }
  }

  function Held(phase: Phase): set<Slot> {
    match phase
    case Reserved(_, slot) => {slot}
    case Returning(slots) => slots
    case _ => {}
  }

  function LinkLoads(links: map<LinkId, Link>): map<nat, nat> {
    map l | l in links :: |links[l].conns|
  }

  function ThreadLoads(threads: map<Thread, Phase>): map<nat, nat> {
    map t | t in threads :: |Held(threads[t])|
  }

  lemma LinkSet(links: map<LinkId, Link>, l: LinkId, link: Link)
    ensures Sum(LinkLoads(links[l := link])) ==
      Sum(LinkLoads(links)) - (if l in links then |links[l].conns| else 0) + |link.conns|
  {
    assert LinkLoads(links[l := link]) == LinkLoads(links)[l := |link.conns|];
    SumSet(LinkLoads(links), l, |link.conns|);
  }

  lemma ThreadSet(threads: map<Thread, Phase>, t: Thread, phase: Phase)
    ensures Sum(ThreadLoads(threads[t := phase])) ==
      Sum(ThreadLoads(threads)) - (if t in threads then |Held(threads[t])| else 0) + |Held(phase)|
  {
    assert ThreadLoads(threads[t := phase]) == ThreadLoads(threads)[t := |Held(phase)|];
    SumSet(ThreadLoads(threads), t, |Held(phase)|);
  }

  lemma ThreadGone(threads: map<Thread, Phase>, t: Thread)
    ensures Sum(ThreadLoads(threads - {t})) == Sum(ThreadLoads(threads)) - (if t in threads then |Held(threads[t])| else 0)
  {
    assert ThreadLoads(threads - {t}) == ThreadLoads(threads) - {t};
    SumRemoved(ThreadLoads(threads), t);
  }

  // ---------------------------------------------------------------- the invariant

  /** The counter is what the links hold plus what the threads hold. */
  ghost predicate Balanced(s: State) {
    s.clients == Sum(LinkLoads(s.links)) + Sum(ThreadLoads(s.threads))
  }

  ghost predicate ThreadsHold(threads: map<Thread, Phase>, holder: map<Slot, Holder>) {
    forall t: Thread, x: Slot :: t in threads && x in Held(threads[t]) ==> x in holder && holder[x] == AtThread(t)
  }

  ghost predicate LinksHold(links: map<LinkId, Link>, holder: map<Slot, Holder>) {
    forall l: LinkId, id: nat :: l in links && id in links[l].conns ==>
      links[l].conns[id] in holder && holder[links[l].conns[id]] == AtLink(l, id)
  }

  ghost predicate PlaceHas(threads: map<Thread, Phase>, links: map<LinkId, Link>, place: Holder, x: Slot) {
    match place
    case AtThread(t) => t in threads && x in Held(threads[t])
    case AtLink(l, id) => l in links && id in links[l].conns && links[l].conns[id] == x
    case Given => true
  }

  ghost predicate PlacesHave(threads: map<Thread, Phase>, links: map<LinkId, Link>, holder: map<Slot, Holder>) {
    forall x: Slot :: x in holder ==> PlaceHas(threads, links, holder[x], x)
  }

  /** Every slot drawn so far is in exactly one place. */
  ghost predicate OnePlace(s: State) {
    && (forall x: Slot :: x in s.holder <==> x < s.issued)
    && ThreadsHold(s.threads, s.holder) && LinksHold(s.links, s.holder) && PlacesHave(s.threads, s.links, s.holder)
  }

  ghost predicate CeilingKept(clients: int, threads: map<Thread, Phase>, limits: Limits) {
    limits.maxClients >= 0 ==>
      clients <= limits.maxClients && forall t :: t in threads && threads[t].Loaded? ==> threads[t].seen < limits.maxClients
  }

  ghost predicate RelayCapKept(links: map<LinkId, Link>, limits: Limits) {
    limits.maxPerRelay >= 0 ==> forall l :: l in links ==> |links[l].conns| <= limits.maxPerRelay
  }

  /** Ids count the attachments of a link until they would wrap. */
  ghost predicate FreshIds(links: map<LinkId, Link>) {
    forall l :: l in links && links[l].attached < ID_SPACE ==>
      && links[l].nextId == links[l].attached
      && forall id :: id in links[l].conns ==> 0 < id <= links[l].nextId
  }

  ghost predicate Inv(s: State, limits: Limits) {
    && Balanced(s) && OnePlace(s) && CeilingKept(s.clients, s.threads, limits)
    && RelayCapKept(s.links, limits) && FreshIds(s.links)
  }

  // ---------------------------------------------------------------- every step keeps it

  /** A thread changes phase and keeps what it holds. */
  lemma PhasePlace(s: State, t: Thread, phase: Phase)
    requires OnePlace(s) && Held(phase) == if t in s.threads then Held(s.threads[t]) else {}
    ensures OnePlace(Go(s, t, phase))
  {
    var r := Go(s, t, phase);
    assert ThreadsHold(r.threads, r.holder) by { hide LinksHold, PlacesHave; }
    assert PlacesHave(r.threads, r.links, r.holder) by { hide LinksHold, ThreadsHold; }
    hide LinksHold, PlacesHave, ThreadsHold;
  }

  lemma GoKeeps(s: State, limits: Limits, t: Thread, phase: Phase)
    requires Inv(s, limits) && Held(phase) == if t in s.threads then Held(s.threads[t]) else {}
    requires limits.maxClients >= 0 && phase.Loaded? ==> phase.seen < limits.maxClients
    ensures Inv(Go(s, t, phase), limits)
  {
    ThreadSet(s.threads, t, phase);
    PhasePlace(s, t, phase);
    hide OnePlace, RelayCapKept, FreshIds, Held;
  }

  lemma ReservePlace(s: State, t: Thread, link: LinkId)
    requires OnePlace(s) && (t in s.threads ==> Held(s.threads[t]) == {})
    ensures OnePlace(Reserve(s, t, link))
  {
    var r := Reserve(s, t, link);
    assert s.issued !in s.holder;
    assert forall x: Slot :: x in r.holder <==> x < r.issued by { hide LinksHold, ThreadsHold, PlacesHave; }
    forall u: Thread, x: Slot | u in r.threads && x in Held(r.threads[u])
      ensures x in r.holder && r.holder[x] == AtThread(u)
    {
      hide LinksHold, PlacesHave;
      if u != t {
        assert x in Held(s.threads[u]);
      }
    }
    assert LinksHold(r.links, r.holder) by { hide ThreadsHold, PlacesHave; }
    assert PlacesHave(r.threads, r.links, r.holder) by { hide LinksHold, ThreadsHold; }
    hide LinksHold, PlacesHave;
  }

  lemma ReserveKeeps(s: State, limits: Limits, t: Thread, link: LinkId)
    requires Inv(s, limits) && (t in s.threads ==> Held(s.threads[t]) == {})
    requires limits.maxClients >= 0 ==> s.clients < limits.maxClients
    ensures Inv(Reserve(s, t, link), limits)
  {
    ThreadSet(s.threads, t, Reserved(link, s.issued));
    ReservePlace(s, t, link);
    hide OnePlace, RelayCapKept, FreshIds;
  }

  lemma LeavePlace(s: State, t: Thread)
    requires OnePlace(s) && (t in s.threads ==> Held(s.threads[t]) == {})
    ensures OnePlace(Leave(s, t))
  {
    var r := Leave(s, t);
    assert ThreadsHold(r.threads, r.holder) by { hide LinksHold, PlacesHave; }
    assert PlacesHave(r.threads, r.links, r.holder) by { hide LinksHold, ThreadsHold; }
    hide LinksHold, PlacesHave, ThreadsHold;
  }

  lemma LeaveKeeps(s: State, limits: Limits, t: Thread)
    requires Inv(s, limits) && (t in s.threads ==> Held(s.threads[t]) == {})
    ensures Inv(Leave(s, t), limits)
  {
    ThreadGone(s.threads, t);
    LeavePlace(s, t);
    hide OnePlace, RelayCapKept, FreshIds;
  }

  lemma PutCount(conns: map<nat, Slot>, id: nat, slot: Slot)
    ensures |conns[id := slot]| == |conns| + if id in conns then 0 else 1
  {
    assert conns[id := slot].Keys == conns.Keys + {id};
  }

  /** Attaching keeps the books exactly when the new id is not in use. */
  lemma AttachBalances(s: State, limits: Limits, t: Thread, link: LinkId, slot: Slot)
    requires Balanced(s) && t in s.threads && s.threads[t] == Reserved(link, slot)
    requires link in s.links && Accepts(s.links[link], limits)
    ensures Balanced(Attach(s, limits, t, link, slot)) <==> NextId(s.links[link].nextId) !in s.links[link].conns
  {
    hide NextId, Sum, LinkLoads, ThreadLoads, Accepts;
    var l := s.links[link];
    var id := NextId(l.nextId);
    PutCount(l.conns, id, slot);
    ThreadGone(s.threads, t);
    LinkSet(s.links, link, l.(conns := l.conns[id := slot], nextId := id, attached := l.attached + 1));
    assert |Held(s.threads[t])| == 1;
    hide Held;
    var r := Attach(s, limits, t, link, slot);
    assert r.clients == s.clients && r.threads == s.threads - {t};
    assert r.links == s.links[link := l.(conns := l.conns[id := slot], nextId := id, attached := l.attached + 1)];
    hide Attach;
  }

  lemma NextIsFresh(s: State, link: LinkId)
    requires FreshIds(s.links) && link in s.links && s.links[link].attached + 1 < ID_SPACE
    ensures NextId(s.links[link].nextId) == s.links[link].attached + 1
    ensures NextId(s.links[link].nextId) !in s.links[link].conns
  {
  }

  lemma AttachPlace(s: State, limits: Limits, t: Thread, link: LinkId, slot: Slot)
    requires OnePlace(s) && t in s.threads && s.threads[t] == Reserved(link, slot)
    requires link in s.links && Accepts(s.links[link], limits) && NextId(s.links[link].nextId) !in s.links[link].conns
    ensures OnePlace(Attach(s, limits, t, link, slot))
  {
    hide NextId, Accepts;
    var r := Attach(s, limits, t, link, slot);
    assert slot in Held(s.threads[t]);
    assert slot in s.holder && s.holder[slot] == AtThread(t);
    assert forall x: Slot :: x in r.holder <==> x < r.issued by { hide LinksHold, ThreadsHold, PlacesHave; }
    assert ThreadsHold(r.threads, r.holder) by { hide LinksHold, PlacesHave; }
    assert LinksHold(r.links, r.holder) by { hide ThreadsHold, PlacesHave; }
    assert PlacesHave(r.threads, r.links, r.holder) by { hide LinksHold, ThreadsHold; }
    hide LinksHold, PlacesHave, ThreadsHold;
  }

  lemma AttachFresh(s: State, limits: Limits, t: Thread, link: LinkId, slot: Slot)
    requires FreshIds(s.links) && RelayCapKept(s.links, limits) && link in s.links && Accepts(s.links[link], limits)
    requires s.links[link].attached + 1 < ID_SPACE
    ensures var r := Attach(s, limits, t, link, slot); FreshIds(r.links) && RelayCapKept(r.links, limits)
  {
    NextIsFresh(s, link);
    hide NextId;
    var r := Attach(s, limits, t, link, slot);
    assert r.links[link].conns.Keys == s.links[link].conns.Keys + {NextId(s.links[link].nextId)};
  }

  lemma AttachKeeps(s: State, limits: Limits, t: Thread, link: LinkId, slot: Slot)
    requires Inv(s, limits) && t in s.threads && s.threads[t] == Reserved(link, slot)
    requires link in s.links && Accepts(s.links[link], limits) && s.links[link].attached + 1 < ID_SPACE
    ensures Inv(Attach(s, limits, t, link, slot), limits)
  {
    NextIsFresh(s, link);
    AttachBalances(s, limits, t, link, slot);
    AttachPlace(s, limits, t, link, slot);
    AttachFresh(s, limits, t, link, slot);
    hide Balanced, NextId, OnePlace, FreshIds, RelayCapKept, Accepts;
  }

  lemma SlotsOne(conns: map<nat, Slot>, ids: set<nat>, a: nat)
    requires a in conns && a in ids && forall b :: b in conns && conns[b] == conns[a] ==> b == a
    ensures conns[a] !in SlotsOf(conns - {a}, ids) && SlotsOf(conns, ids) == SlotsOf(conns - {a}, ids) + {conns[a]}
    ensures conns - {a} - ids == conns - ids && |conns - {a}| == |conns| - 1
  {
    assert (conns - {a}).Keys == conns.Keys - {a};
    forall b | b in conns && b in ids && b != a
      ensures conns[b] in SlotsOf(conns - {a}, ids)
    {
      assert (conns - {a})[b] == conns[b];
    }
  }

  lemma {:induction false} SlotsCount(conns: map<nat, Slot>, ids: set<nat>)
    requires forall a, b :: a in conns && b in conns && conns[a] == conns[b] ==> a == b
    ensures |conns - ids| + |SlotsOf(conns, ids)| == |conns|
    decreases |conns|
  {
    if a :| a in conns && a in ids {
      SlotsOne(conns, ids, a);
      hide SlotsOf;
      SlotsCount(conns - {a}, ids);
    } else {
      assert conns - ids == conns && SlotsOf(conns, ids) == {};
    }
  }

  /** The slots that leave are exactly those under the ids that leave. */
  ghost predicate Leaving(l: Link, link: LinkId, ids: set<nat>, slots: set<Slot>, holder: map<Slot, Holder>) {
    && (forall x :: x in slots ==> x in holder && holder[x].AtLink? && holder[x].link == link && holder[x].id in ids)
    && (forall id :: id in l.conns ==> (l.conns[id] in slots <==> id in ids))
  }

  lemma LeavingSlots(links: map<LinkId, Link>, holder: map<Slot, Holder>, link: LinkId, ids: set<nat>)
    requires LinksHold(links, holder) && link in links
    ensures Leaving(links[link], link, ids, SlotsOf(links[link].conns, ids), holder)
  {
  }

  function Moved(holder: map<Slot, Holder>, slots: set<Slot>, place: Holder): map<Slot, Holder> {
    map x | x in holder :: if x in slots then place else holder[x]
  }

  lemma MovedThreads(threads: map<Thread, Phase>, holder: map<Slot, Holder>, t: Thread, slots: set<Slot>)
    requires ThreadsHold(threads, holder) && t !in threads
    requires forall x :: x in slots ==> x in holder && !holder[x].AtThread?
    ensures ThreadsHold(threads[t := Returning(slots)], Moved(holder, slots, AtThread(t)))
  {
  }

  lemma MovedLinks(links: map<LinkId, Link>, holder: map<Slot, Holder>, link: LinkId, ids: set<nat>, slots: set<Slot>, place: Holder)
    requires LinksHold(links, holder) && link in links && Leaving(links[link], link, ids, slots, holder)
    ensures LinksHold(links[link := links[link].(conns := links[link].conns - ids)], Moved(holder, slots, place))
  {
  }

  lemma MovedPlaces(threads: map<Thread, Phase>, links: map<LinkId, Link>, holder: map<Slot, Holder>, t: Thread,
                    link: LinkId, ids: set<nat>, slots: set<Slot>)
    requires PlacesHave(threads, links, holder) && t !in threads && link in links && Leaving(links[link], link, ids, slots, holder)
    ensures PlacesHave(threads[t := Returning(slots)], links[link := links[link].(conns := links[link].conns - ids)],
                       Moved(holder, slots, AtThread(t)))
  {
  }

  lemma DetachPlace(s: State, t: Thread, link: LinkId, ids: set<nat>)
    requires OnePlace(s) && t !in s.threads && link in s.links
    ensures OnePlace(Detach(s, t, link, ids))
  {
    var slots := SlotsOf(s.links[link].conns, ids);
    hide SlotsOf, ThreadsHold, LinksHold, PlacesHave;
    LeavingSlots(s.links, s.holder, link, ids);
    MovedThreads(s.threads, s.holder, t, slots);
    MovedLinks(s.links, s.holder, link, ids, slots, AtThread(t));
    MovedPlaces(s.threads, s.links, s.holder, t, link, ids, slots);
    assert Moved(s.holder, slots, AtThread(t)).Keys == s.holder.Keys;
    hide Leaving;
    if slots != {} {
      assert Detach(s, t, link, ids).holder == Moved(s.holder, slots, AtThread(t));
      hide Moved;
    }
  }

  lemma DetachBalances(s: State, t: Thread, link: LinkId, ids: set<nat>)
    requires Balanced(s) && LinksHold(s.links, s.holder) && t !in s.threads && link in s.links
    ensures Balanced(Detach(s, t, link, ids))
  {
    var l := s.links[link];
    forall a, b | a in l.conns && b in l.conns && l.conns[a] == l.conns[b]
      ensures a == b
    {
      assert s.holder[l.conns[a]] == AtLink(link, a) && s.holder[l.conns[b]] == AtLink(link, b);
    }
    SlotsCount(l.conns, ids);
    ThreadSet(s.threads, t, Returning(SlotsOf(l.conns, ids)));
    LinkSet(s.links, link, l.(conns := l.conns - ids));
    hide LinksHold, SlotsOf;
  }

  lemma DetachFresh(s: State, limits: Limits, t: Thread, link: LinkId, ids: set<nat>)
    requires FreshIds(s.links) && RelayCapKept(s.links, limits) && link in s.links
    ensures var r := Detach(s, t, link, ids); FreshIds(r.links) && RelayCapKept(r.links, limits)
  {
    var l := s.links[link];
    assert |(l.conns - ids).Keys| <= |l.conns.Keys| by {
      assert (l.conns - ids).Keys <= l.conns.Keys;
      Fewer((l.conns - ids).Keys, l.conns.Keys);
    }
    hide SlotsOf;
  }

  lemma Fewer(a: set<nat>, b: set<nat>)
    requires a <= b
    ensures |a| <= |b|
  {
    assert |b - a| == |b| - |a|;
  }

  lemma DetachKeeps(s: State, limits: Limits, t: Thread, link: LinkId, ids: set<nat>)
    requires Inv(s, limits) && t !in s.threads
    ensures Inv(Detach(s, t, link, ids), limits)
  {
    if link in s.links {
      DetachBalances(s, t, link, ids);
      DetachPlace(s, t, link, ids);
      DetachFresh(s, limits, t, link, ids);
      hide Balanced, OnePlace, FreshIds, RelayCapKept, SlotsOf;
    }
  }

  lemma ReleasePlace(s: State, t: Thread, slots: set<Slot>)
    requires OnePlace(s) && t in s.threads && s.threads[t] == Returning(slots)
    ensures OnePlace(Release(s, t, slots))
  {
    var r := Release(s, t, slots);
    assert forall x :: x in slots ==> x in s.holder && s.holder[x] == AtThread(t) by {
      assert forall x :: x in slots ==> x in Held(s.threads[t]);
      hide LinksHold, PlacesHave;
    }
    assert r.holder.Keys == s.holder.Keys;
    assert forall x: Slot :: x in r.holder <==> x < r.issued by { hide LinksHold, ThreadsHold, PlacesHave; }
    assert ThreadsHold(r.threads, r.holder) by { hide LinksHold, PlacesHave; }
    assert LinksHold(r.links, r.holder) by { hide ThreadsHold, PlacesHave; }
    assert PlacesHave(r.threads, r.links, r.holder) by { hide LinksHold, ThreadsHold; }
    hide LinksHold, PlacesHave, ThreadsHold;
  }

  lemma ReleaseKeeps(s: State, limits: Limits, t: Thread, slots: set<Slot>)
    requires Inv(s, limits) && t in s.threads && s.threads[t] == Returning(slots)
    ensures Inv(Release(s, t, slots), limits)
  {
    ThreadGone(s.threads, t);
    ReleasePlace(s, t, slots);
    hide OnePlace, RelayCapKept, FreshIds;
  }

  lemma LinkPlace(s: State, link: LinkId, l: Link)
    requires OnePlace(s)
    requires l.conns == if link in s.links then s.links[link].conns else map[]
    ensures OnePlace(s.(links := s.links[link := l]))
  {
    var r := s.(links := s.links[link := l]);
    assert LinksHold(r.links, r.holder) by { hide ThreadsHold, PlacesHave; }
    assert PlacesHave(r.threads, r.links, r.holder) by { hide LinksHold, ThreadsHold; }
    hide LinksHold, PlacesHave, ThreadsHold;
  }

  lemma LinkKeeps(s: State, limits: Limits, link: LinkId, l: Link)
    requires Inv(s, limits)
    requires if link in s.links then l == s.links[link].(closed := true) else l == Link(map[], 0, 0, false)
    ensures Inv(s.(links := s.links[link := l]), limits)
  {
    LinkSet(s.links, link, l);
    LinkPlace(s, link, l);
    hide OnePlace;
  }

  /** No link has used up its ids. */
  ghost predicate Spare(s: State) {
    forall l :: l in s.links ==> s.links[l].attached < ID_SPACE
  }

  lemma StepKeeps(s: State, limits: Limits, e: Event)
    requires Inv(s, limits) && Spare(Step(s, limits, e))
    ensures Inv(Step(s, limits, e), limits)
  {
    hide Inv;
    match e
    case NewLink(link) => if link !in s.links { LinkKeeps(s, limits, link, Link(map[], 0, 0, false)); }
    case CloseLink(link) => if link in s.links { LinkKeeps(s, limits, link, s.links[link].(closed := true)); }
    case Arrive(t, link) =>
      if t !in s.threads {
        if limits.maxClients < 0 {
          ReserveKeeps(s, limits, t, link);
        } else {
          GoKeeps(s, limits, t, Trying(link));
        }
      }
    case Advance(t) => if t in s.threads { AdvanceKeeps(s, limits, t); }
    case Remove(t, link, id) => if t !in s.threads { DetachKeeps(s, limits, t, link, {id}); }
    case Sweep(t, link, stale) => if t !in s.threads { DetachKeeps(s, limits, t, link, stale); }
    case DetachAll(t, link) =>
      if t !in s.threads && link in s.links { DetachKeeps(s, limits, t, link, s.links[link].conns.Keys); }
  }

  lemma AdvanceKeeps(s: State, limits: Limits, t: Thread)
    requires Inv(s, limits) && t in s.threads && Spare(Advanced(s, limits, t))
    ensures Inv(Advanced(s, limits, t), limits)
  {
    match s.threads[t]
    case Trying(link) =>
      hide Inv;
      if s.clients >= limits.maxClients {
        LeaveKeeps(s, limits, t);
      } else {
        GoKeeps(s, limits, t, Loaded(link, s.clients));
      }
    case Loaded(link, seen) =>
      assert limits.maxClients >= 0 ==> seen < limits.maxClients by { hide Balanced, OnePlace, FreshIds, RelayCapKept; }
      hide Inv;
      if s.clients == seen {
        ReserveKeeps(s, limits, t, link);
      } else {
        GoKeeps(s, limits, t, Trying(link));
      }
    case Reserved(link, slot) =>
      hide Inv;
      if link in s.links && Accepts(s.links[link], limits) {
        assert Advanced(s, limits, t).links[link].attached == s.links[link].attached + 1;
        AttachKeeps(s, limits, t, link, slot);
      } else {
        GoKeeps(s, limits, t, Returning({slot}));
      }
    case Returning(slots) =>
      hide Inv;
      ReleaseKeeps(s, limits, t, slots);
  }

  lemma StepSpares(s: State, limits: Limits, e: Event)
    requires Spare(Step(s, limits, e))
    ensures Spare(s)
  {
    var r := Step(s, limits, e);
    hide Accepts, SlotsOf, NextId;
    forall l | l in s.links
      ensures l in r.links && s.links[l].attached <= r.links[l].attached
    {
    }
  }

  lemma {:induction false} RunSpares(s: State, limits: Limits, events: seq<Event>)
    requires Spare(Run(s, limits, events))
    ensures Spare(s)
    decreases |events|
  {
    hide Step, Spare;
    if events != [] {
      RunSpares(Step(s, limits, events[0]), limits, events[1..]);
      StepSpares(s, limits, events[0]);
    }
  }

  /** In every interleaving, for links with fewer than 2^32 attachments, the counter equals the
      attached connections plus the slots in the hands of threads, stays within the ceiling, and
      every slot is in exactly one place. */
  lemma {:induction false} RunKeeps(s: State, limits: Limits, events: seq<Event>)
    requires Inv(s, limits) && Spare(Run(s, limits, events))
    ensures Inv(Run(s, limits, events), limits)
    decreases |events|
  {
    hide Inv, Step, Spare;
    if events != [] {
      RunSpares(Step(s, limits, events[0]), limits, events[1..]);
      StepKeeps(s, limits, events[0]);
      RunKeeps(Step(s, limits, events[0]), limits, events[1..]);
    }
  }

  lemma EmptyBalances(s: State)
    requires s.clients == 0 && s.links == map[] && s.threads == map[]
    ensures Balanced(s)
  {
    assert LinkLoads(s.links) == map[] && ThreadLoads(s.threads) == map[];
  }

  lemma EmptyKeeps(s: State, limits: Limits)
    requires s == Empty
    ensures Inv(s, limits)
  {
    hide Balanced;
    EmptyBalances(s);
  }

  // ---------------------------------------------------------------- what follows

  /** A slot that was given back is never held again, and it is given back only by the thread that
      holds it. */
  lemma StepGives(s: State, limits: Limits, e: Event, x: Slot)
    requires Inv(s, limits) && x in s.holder
    ensures var r := Step(s, limits, e);
      && x in r.holder
      && (s.holder[x].Given? ==> r.holder[x].Given?)
      && (r.holder[x].Given? && !s.holder[x].Given? ==>
            e.Advance? && s.holder[x] == AtThread(e.thread) && s.threads[e.thread].Returning?)
  {
    hide Balanced, CeilingKept, RelayCapKept, FreshIds, NextId, Accepts;
    assert OnePlace(s);
    match e
    case Advance(t) =>
      if t in s.threads {
        hide LinksHold, PlacesHave;
        assert forall y :: y in Held(s.threads[t]) ==> y in s.holder && s.holder[y] == AtThread(t);
      }
    case Remove(t, link, id) => if link in s.links { LeavingSlots(s.links, s.holder, link, {id}); hide OnePlace, SlotsOf; }
    case Sweep(t, link, stale) => if link in s.links { LeavingSlots(s.links, s.holder, link, stale); hide OnePlace, SlotsOf; }
    case DetachAll(t, link) =>
      if link in s.links { LeavingSlots(s.links, s.holder, link, s.links[link].conns.Keys); hide OnePlace, SlotsOf; }
    case _ => hide OnePlace;
  }

  lemma {:induction false} GivenForever(s: State, limits: Limits, events: seq<Event>, x: Slot)
    requires Inv(s, limits) && Spare(Run(s, limits, events)) && x in s.holder && s.holder[x].Given?
    ensures x in Run(s, limits, events).holder && Run(s, limits, events).holder[x].Given?
    decreases |events|
  {
    hide Inv, Step, Spare;
    if events != [] {
      RunSpares(Step(s, limits, events[0]), limits, events[1..]);
      StepGives(s, limits, events[0], x);
      StepKeeps(s, limits, events[0]);
      GivenForever(Step(s, limits, events[0]), limits, events[1..], x);
    }
  }

  /** When every connection is gone and every thread is through, each slot ever reserved has been
      given back and the counter is at zero. */
  lemma QuietIsEmpty(s: State, limits: Limits)
    requires Inv(s, limits) && s.threads == map[]
    requires forall l :: l in s.links ==> s.links[l].conns == map[]
    ensures s.clients == 0 && forall x: Slot :: x < s.issued ==> s.holder[x].Given?
  {
    assert ThreadLoads(s.threads) == map[];
    ZeroSum(LinkLoads(s.links));
    forall x: Slot | x < s.issued
      ensures s.holder[x].Given?
    {
      assert PlaceHas(s.threads, s.links, s.holder[x], x);
    }
  }

  lemma {:induction false} ZeroSum(m: map<nat, nat>)
    requires forall k :: k in m ==> m[k] == 0
    ensures Sum(m) == 0
    decreases |m|
  {
    if m != map[] {
      var k :| k in m && Sum(m) == m[k] + Sum(m - {k});
      assert |(m - {k}).Keys| < |m.Keys| by { assert (m - {k}).Keys == m.Keys - {k}; }
      ZeroSum(m - {k});
    }
  }

  /** After 2^32 - 1 attachments the id starts over at one; if that connection is still there it is
      overwritten and its slot is lost to the counter. */
  lemma WrapLosesASlot(s: State, limits: Limits, t: Thread, link: LinkId, slot: Slot)
    requires Balanced(s) && t in s.threads && s.threads[t] == Reserved(link, slot)
    requires link in s.links && Accepts(s.links[link], limits)
    requires s.links[link].nextId == ID_SPACE - 1 && 1 in s.links[link].conns
    ensures !Balanced(Attach(s, limits, t, link, slot))
  {
    AttachBalances(s, limits, t, link, slot);
    hide Balanced, Attach, Accepts;
  }

  /** The connections in `ids` are gone from the link, every other one and every other link stands, and
      the thread owes exactly the slots of those that went. */
  ghost predicate WentAway(s: State, r: State, t: Thread, link: LinkId, ids: set<nat>) {
    && link in s.links && link in r.links && s.links.Keys == r.links.Keys && r.clients == s.clients
    && (forall l :: l in s.links && l != link ==> r.links[l] == s.links[l])
    && (forall id :: id in r.links[link].conns <==> id in s.links[link].conns && id !in ids)
    && (forall id :: id in r.links[link].conns ==> r.links[link].conns[id] == s.links[link].conns[id])
    && r.links[link].nextId == s.links[link].nextId && r.links[link].closed == s.links[link].closed
    && (if exists id :: id in s.links[link].conns && id in ids
        then t in r.threads && r.threads[t].Returning? &&
             forall x :: x in r.threads[t].slots <==> exists id :: id in s.links[link].conns && id in ids && s.links[link].conns[id] == x
        else r == s)
  }

  lemma DetachTakes(s: State, t: Thread, link: LinkId, ids: set<nat>)
    requires link in s.links && t !in s.threads
    ensures WentAway(s, Detach(s, t, link, ids), t, link, ids)
  {
    var conns := s.links[link].conns;
    var slots := SlotsOf(conns, ids);
    if id :| id in conns && id in ids {
      assert conns[id] in slots;
    } else {
      assert slots == {};
    }
  }

  /** Sweeping takes exactly the stale connections, removing exactly the named one, and detaching all of
      them; what they take is theirs to give back. */
  lemma WhoLeaves(s: State, limits: Limits, t: Thread, link: LinkId, id: nat, stale: set<nat>)
    requires link in s.links && t !in s.threads
    ensures WentAway(s, Step(s, limits, Sweep(t, link, stale)), t, link, stale)
    ensures WentAway(s, Step(s, limits, Remove(t, link, id)), t, link, {id})
    ensures WentAway(s, Step(s, limits, DetachAll(t, link)), t, link, s.links[link].conns.Keys)
  {
    hide WentAway, Detach;
    DetachTakes(s, t, link, stale);
    DetachTakes(s, t, link, {id});
    DetachTakes(s, t, link, s.links[link].conns.Keys);
  }

  /** A thread with a slot in hand attaches exactly if the link is open and has room; otherwise it owes
      the slot. */
  lemma WhoAttaches(s: State, limits: Limits, t: Thread, link: LinkId, slot: Slot)
    requires t in s.threads && s.threads[t] == Reserved(link, slot) && link in s.links
    ensures var r, l := Step(s, limits, Advance(t)), s.links[link];
      if !l.closed && (limits.maxPerRelay < 0 || |l.conns| < limits.maxPerRelay)
      then r.links == s.links[link := l.(conns := l.conns[NextId(l.nextId) := slot], nextId := NextId(l.nextId), attached := l.attached + 1)] &&
           t !in r.threads
      else r.links == s.links && t in r.threads && r.threads[t] == Returning({slot})
  {
    hide NextId;
  }

  /** Below the ceiling a reservation that is not disturbed succeeds; at the ceiling it is refused. */
  lemma WhoReserves(s: State, limits: Limits, t: Thread, link: LinkId)
    requires limits.maxClients >= 0 && t in s.threads && s.threads[t] == Trying(link)
    ensures var loaded := Step(s, limits, Advance(t));
      if s.clients < limits.maxClients
      then var r := Step(loaded, limits, Advance(t));
        t in r.threads && r.threads[t] == Reserved(link, s.issued) && r.clients == s.clients + 1
      else loaded.clients == s.clients && t !in loaded.threads
  {
  }
}
