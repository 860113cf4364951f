/** A run with the default limits in which connection ids start over while the first connection is
    still there: a phone stays connected while others come and go. */
module GatewayWitness {
  import opened GatewayClients

  const DefaultLimits: Limits := Limits(512, 8)

  /** Nothing is under way, and link 0 holds its first connection after `n` attachments. */
  ghost predicate Holding(s: State, n: nat) {
    n > 0 && s.threads == map[] && s.clients == 1 && s.links == map[0 := Link(map[1 := 0], n, n, false)]
  }

  /** Thread 1 has a slot for link 0 in hand. */
  ghost predicate InHand(s: State, n: nat, slot: Slot) {
    n > 0 && s.threads == map[1 := Reserved(0, slot)] && s.clients == 2 && s.links == map[0 := Link(map[1 := 0], n, n, false)]
  }

  const Reserving: seq<Event> := [Arrive(1, 0), Advance(1), Advance(1)]

  /** A second phone connects as connection `id` and is gone again. */
  function Leaving(id: nat): seq<Event> {
    [Advance(1), Remove(1, 0, id), Advance(1)]
  }

  const Opening: seq<Event> := [NewLink(0), Arrive(0, 0), Advance(0), Advance(0), Advance(0)]

  function Churn(n: nat): seq<Event> {
    if n <= 1 then Opening else Churn(n - 1) + Reserving + Leaving(n)
  }

  // ---------------------------------------------------------------- runs in pieces

  lemma {:induction false} RunBoth(s: State, limits: Limits, a: seq<Event>, b: seq<Event>)
    ensures Run(s, limits, a + b) == Run(Run(s, limits, a), limits, b)
    decreases |a|
  {
    hide Step;
    if a == [] {
      assert a + b == b;
    } else {
      RunBoth(Step(s, limits, a[0]), limits, a[1..], b);
      assert (a + b)[0] == a[0] && (a + b)[1..] == a[1..] + b;
    }
  }

  lemma ThreeSteps(s: State, limits: Limits, events: seq<Event>)
    requires |events| == 3
    ensures Run(s, limits, events) == Step(Step(Step(s, limits, events[0]), limits, events[1]), limits, events[2])
  {
    hide Step;
    var a := Step(s, limits, events[0]);
    var b := Step(a, limits, events[1]);
    var c := Step(b, limits, events[2]);
    assert events[1..][1..] == events[2..] && events[2..][1..] == [];
    assert Run(c, limits, []) == c && Run(b, limits, events[2..]) == c && Run(a, limits, events[1..]) == c;
  }

  // ---------------------------------------------------------------- coming and going

  lemma Reserves(s: State, limits: Limits, n: nat)
    requires limits == DefaultLimits && Holding(s, n)
    ensures InHand(Run(s, limits, Reserving), n, s.issued)
  {
    ThreeSteps(s, limits, Reserving);
    var a := Step(s, limits, Arrive(1, 0));
    assert a == s.(threads := map[1 := Trying(0)]);
    var b := Step(a, limits, Advance(1));
    assert b == s.(threads := map[1 := Loaded(0, 1)]);
  }

  /** Two connections of link 0, the first and the newest. */
  ghost predicate Both(s: State, n: nat, slot: Slot) {
    n > 1 && s.threads == map[] && s.clients == 2 && s.links == map[0 := Link(map[1 := 0, n := slot], n, n, false)]
  }

  lemma Connects(s: State, limits: Limits, n: nat, slot: Slot)
    requires limits == DefaultLimits && InHand(s, n, slot) && n + 1 < ID_SPACE
    ensures Both(Step(s, limits, Advance(1)), n + 1, slot)
  {
    assert NextId(n) == n + 1;
    hide NextId;
    assert map[1 := 0][n + 1 := slot] == map[1 := 0, n + 1 := slot];
  }

  lemma Disconnects(s: State, limits: Limits, n: nat, slot: Slot)
    requires Both(s, n, slot)
    ensures var t := Step(s, limits, Remove(1, 0, n));
      t.threads == map[1 := Returning({slot})] && t.clients == 2 && t.links == map[0 := Link(map[1 := 0], n, n, false)]
  {
    var conns: map<nat, Slot> := map[1 := 0, n := slot];
    assert SlotsOf(conns, {n}) == {slot} && conns - {n} == map[1 := 0];
    hide SlotsOf;
  }

  lemma Leaves(s: State, limits: Limits, n: nat, slot: Slot)
    requires limits == DefaultLimits && InHand(s, n, slot) && n + 1 < ID_SPACE
    ensures Holding(Run(s, limits, Leaving(n + 1)), n + 1)
  {
    ThreeSteps(s, limits, Leaving(n + 1));
    Connects(s, limits, n, slot);
    var a := Step(s, limits, Advance(1));
    Disconnects(a, limits, n + 1, slot);
    var b := Step(a, limits, Remove(1, 0, n + 1));
    hide Run, Both, InHand;
    assert Step(b, limits, Advance(1)) == Release(b, 1, {slot});
    hide Step;
  }

  lemma Opens(s: State, limits: Limits)
    requires limits == DefaultLimits && s == Empty
    ensures Holding(Run(s, limits, Opening), 1)
  {
    var a := Step(s, limits, NewLink(0));
    var b := Step(a, limits, Arrive(0, 0));
    var rest := [Advance(0), Advance(0), Advance(0)];
    assert Opening[1..] == [Arrive(0, 0)] + rest && ([Arrive(0, 0)] + rest)[1..] == rest;
    assert Run(s, limits, Opening) == Run(a, limits, Opening[1..]) == Run(b, limits, rest);
    ThreeSteps(b, limits, rest);
    assert a.links == map[0 := Link(map[], 0, 0, false)] && b == a.(threads := map[0 := Trying(0)]);
    var c := Step(b, limits, Advance(0));
    assert c == a.(threads := map[0 := Loaded(0, 0)]);
    var d := Step(c, limits, Advance(0));
    assert d.threads == map[0 := Reserved(0, 0)] && d.clients == 1 && d.links == a.links;
    assert NextId(0) == 1;
  }

  /** Any number of attachments below 2^32 is reached with the first connection still there. */
  lemma {:induction false} ChurnHolds(s: State, limits: Limits, n: nat)
    requires limits == DefaultLimits && s == Empty && 1 <= n < ID_SPACE
    ensures Holding(Run(s, limits, Churn(n)), n)
    decreases n
  {
    hide Run, Holding, InHand;
    if n == 1 {
      Opens(s, limits);
    } else {
      ChurnHolds(s, limits, n - 1);
      var before := Run(s, limits, Churn(n - 1));
      Reserves(before, limits, n - 1);
      var middle := Run(before, limits, Reserving);
      Leaves(middle, limits, n - 1, before.issued);
      RunBoth(s, limits, Churn(n - 1), Reserving);
      RunBoth(s, limits, Churn(n - 1) + Reserving, Leaving(n));
    }
  }

  /** From the empty gateway, with the default limits, a run that keeps the books up to a step that
      breaks them: the id after 2^32 - 1 is taken from the connection that still has it. */
  lemma WrapIsReached(s: State, limits: Limits, n: nat)
    requires limits == DefaultLimits && s == Empty && n == ID_SPACE - 1
    ensures var r := Run(s, limits, Churn(n) + Reserving);
      Inv(r, limits) && !Balanced(Step(r, limits, Advance(1)))
  {
    hide Inv, Balanced, Run, Attach;
    ChurnHolds(s, limits, n);
    var before := Run(s, limits, Churn(n));
    Reserves(before, limits, n);
    RunBoth(s, limits, Churn(n), Reserving);
    var r := Run(s, limits, Churn(n) + Reserving);
    EmptyKeeps(s, limits);
    assert Spare(r);
    RunKeeps(s, limits, Churn(n) + Reserving);
    assert Balanced(r) by { BooksKept(r, limits); }
    WrapLosesASlot(r, limits, 1, 0, before.issued);
  }

  lemma BooksKept(s: State, limits: Limits)
    requires Inv(s, limits)
    ensures Balanced(s)
  {
    hide OnePlace, CeilingKept, RelayCapKept, FreshIds, Balanced;
  }
}
