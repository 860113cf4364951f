/** Pane size leases: phones lease a width and perhaps a height of a shared terminal, the narrowest
    lease wins, and the terminal goes back to the size it had when the last lease ends.

    `terminal` is the world the manager acts on: the size of every pane's terminal, changed only
    through `SetSize`, which may fail and then changes nothing. `began` remembers the size each
    tracked pane had when tracking began. Looking a pane's terminal up, reading its size, resizing it
    and the caller's connection may fail at any time; which of them do is an input. */
module PaneSize {
  import opened Options

  type PaneId = string
  type ClientId = string

  const MIN_COLUMNS := 40
  const MAX_COLUMNS := 240
  const MIN_ROWS := 10
  const MAX_ROWS := 120
  const MAX_RESTORE_FAILURES: nat := 5
  const LEASE_TTL := 120
  const RELEASE_GRACE := 10

  datatype Size = Size(rows: int, columns: int)

  /** `rows` is zero for a lease of the width alone. */
  datatype Lease = Lease(columns: int, rows: int, expiresAt: int)

  datatype PaneState = PaneState(baseline: Size, applied: Size, leases: map<ClientId, Lease>, restoreFailures: nat)

  datatype Failure = Closed | InvalidColumns | InvalidRows | InvalidLease | OwnerGone | Unavailable | ResizeFailed

  datatype Result = Ok(size: Size) | Failed(why: Failure)

  /** What goes wrong during one `Acquire`: the caller is gone before or after the terminal is measured,
      it cannot be measured, or it cannot be resized. */
  datatype Faults = Faults(gone: bool, unreadable: bool, leaves: bool, stuck: bool)

  // ---------------------------------------------------------------- minima

  predicate LeaseOk(lease: Lease) {
    MIN_COLUMNS <= lease.columns <= MAX_COLUMNS && (lease.rows == 0 || MIN_ROWS <= lease.rows <= MAX_ROWS)
  }

  ghost predicate LeasesOk(leases: map<ClientId, Lease>) {
    forall c :: c in leases ==> LeaseOk(leases[c])
  }

  /** `columns` is the narrowest lease, or zero when there is none. */
  ghost predicate Narrowest(leases: map<ClientId, Lease>, columns: int) {
    if leases == map[] then columns == 0
    else (exists c :: c in leases && leases[c].columns == columns) && forall c :: c in leases ==> columns <= leases[c].columns
  }

  /** `rows` is the lowest lease of a height, or zero when every lease is of the width alone. */
  ghost predicate Lowest(leases: map<ClientId, Lease>, rows: int) {
    if forall c :: c in leases ==> leases[c].rows <= 0 then rows == 0
    else (exists c :: c in leases && leases[c].rows == rows > 0) && forall c :: c in leases && leases[c].rows > 0 ==> rows <= leases[c].rows
  }

  lemma OneNarrowest(leases: map<ClientId, Lease>, a: int, b: int)
    requires Narrowest(leases, a) && Narrowest(leases, b)
    ensures a == b
  {
  }

  lemma OneLowest(leases: map<ClientId, Lease>, a: int, b: int)
    requires Lowest(leases, a) && Lowest(leases, b)
    ensures a == b
  {
  }

  /** `minimumColumns`. */
  method MinimumColumns(leases: map<ClientId, Lease>) returns (minimum: int, active: bool)
    requires LeasesOk(leases)
    ensures Narrowest(leases, minimum) && (active <==> leases != map[])
  {
    minimum := 0;
    var left := leases.Keys;
    while left != {}
      invariant left <= leases.Keys
      invariant if left == leases.Keys then minimum == 0
        else (exists c :: c in leases && c !in left && leases[c].columns == minimum) &&
             forall c :: c in leases && c !in left ==> minimum <= leases[c].columns
      decreases left
    {
      var c :| c in left;
      left := left - {c};
      if minimum == 0 || leases[c].columns < minimum {
        minimum := leases[c].columns;
      }
    }
    assert leases != map[] ==> leases.Keys != {};
    active := minimum != 0;
  }

  /** `minimumRows`. */
  method MinimumRows(leases: map<ClientId, Lease>) returns (minimum: int)
    ensures Lowest(leases, minimum)
  {
    minimum := 0;
    var left := leases.Keys;
    while left != {}
      invariant left <= leases.Keys && minimum >= 0
      invariant if forall c :: c in leases && c !in left ==> leases[c].rows <= 0 then minimum == 0
        else (exists c :: c in leases && c !in left && leases[c].rows == minimum > 0) &&
             forall c :: c in leases && c !in left && leases[c].rows > 0 ==> minimum <= leases[c].rows
      decreases left
    {
      var c :| c in left;
      left := left - {c};
      if leases[c].rows > 0 {
        if minimum == 0 || leases[c].rows < minimum {
          minimum := leases[c].rows;
        }
      }
    }
  }

  ghost function Unexpired(leases: map<ClientId, Lease>, now: int): map<ClientId, Lease> {
    map c | c in leases && leases[c].expiresAt > now :: leases[c]
  }

  /** `removeExpired`. */
  method RemoveExpired(leases: map<ClientId, Lease>, now: int) returns (rest: map<ClientId, Lease>, removed: bool)
    ensures rest == Unexpired(leases, now) && (removed <==> rest != leases)
  {
    rest, removed := leases, false;
    var left := leases.Keys;
    while left != {}
      invariant left <= rest.Keys <= leases.Keys && forall c :: c in rest ==> rest[c] == leases[c]
      invariant forall c :: c in leases && c !in left ==> (c in rest <==> leases[c].expiresAt > now)
      invariant removed <==> rest.Keys != leases.Keys
      decreases left
    {
      var c :| c in left;
      left := left - {c};
      if leases[c].expiresAt <= now {
        rest := rest - {c};
        removed := true;
      }
    }
    assert removed ==> exists c :: c in leases && c !in rest;
  }

  /** What a pane's leases ask of its terminal: the narrowest width, the lowest height, and where no
      lease constrains the height the one it had before. */
  ghost predicate Target(s: PaneState, size: Size) {
    && Narrowest(s.leases, size.columns)
    && exists rows :: Lowest(s.leases, rows) && size.rows == if rows > 0 then rows else s.baseline.rows
  }

  /** The target and the rows to hand to the terminal, zero where its height is left alone. */
  method Wanted(s: PaneState) returns (target: Size, sttyRows: int)
    requires LeasesOk(s.leases) && s.baseline.rows >= 1
    ensures Target(s, target)
    ensures sttyRows == target.rows > 0 || (sttyRows == 0 && target.rows == s.applied.rows == s.baseline.rows && Lowest(s.leases, 0))
  {
    var columns, _ := MinimumColumns(s.leases);
    var rows := MinimumRows(s.leases);
    var constrained := rows > 0;
    target := Size(if constrained then rows else s.baseline.rows, columns);
    sttyRows := target.rows;
    if !constrained && target.rows == s.applied.rows {
      sttyRows := 0;
    }
  }

  class Manager {
    var panes: map<PaneId, PaneState>
    var terminal: map<PaneId, Size>
    var closed: bool
    ghost var began: map<PaneId, Size>

    constructor (world: map<PaneId, Size>)
      ensures Valid() && panes == map[] && terminal == world && !closed
    {
      panes, terminal, closed := map[], world, false;
      began := map[];
    }

    /** Every tracked pane's terminal has the applied size, and its baseline is the size it had when
        tracking began. */
    ghost predicate Valid()
      reads this
    {
      AllTracked(panes, terminal, began)
    }

    // -------------------------------------------------------------- the terminal

    method SetSize(p: PaneId, columns: int, rows: int, works: bool) returns (ok: bool)
      requires p in terminal
      modifies this`terminal
      ensures ok == works
      ensures terminal ==
        if ok then old(terminal)[p := Size(if rows > 0 then rows else old(terminal[p].rows), columns)] else old(terminal)
    {
      ok := works;
      if ok {
        terminal := terminal[p := Size(if rows > 0 then rows else terminal[p].rows, columns)];
      }
    }

    /** `restore`: back to the baseline, and no longer tracked. After five failures the pane is given
        up. */
    method Restore(p: PaneId, works: bool) returns (ok: bool)
      requires Valid() && p in panes
      modifies this`panes, this`terminal
      ensures ok == works
      ensures Valid()
      ensures ok ==> panes == old(panes) - {p} && terminal == old(terminal)[p := old(panes[p].baseline)]
      ensures !ok ==> terminal == old(terminal) && panes == GivenUp(old(panes), p)
    {
      var s := panes[p];
      var sttyRows := s.baseline.rows;
      if s.applied.rows == s.baseline.rows {
        sttyRows := 0;
      }
      ok := SetSize(p, s.baseline.columns, sttyRows, works);
      if !ok {
        panes := panes[p := s.(restoreFailures := s.restoreFailures + 1)];
        if s.restoreFailures + 1 >= MAX_RESTORE_FAILURES {
          panes := panes - {p};
        }
        assert panes == GivenUp(old(panes), p);
        return;
      }
      panes := panes - {p};
    }

    /** `reconcile`: the terminal follows the leases that are left. */
    method Reconcile(p: PaneId, works: bool) returns (ok: bool)
      requires Valid() && p in panes
      modifies this`panes, this`terminal
      ensures works ==> ok
      ensures Valid()
      ensures ok ==> Reconciled(old(panes), old(terminal), panes, terminal, p)
      ensures !ok ==> terminal == old(terminal)
      ensures !ok ==> panes == if old(panes[p].leases) == map[] then GivenUp(old(panes), p) else old(panes)
    {
      var s := panes[p];
      var _, active := MinimumColumns(s.leases);
      if !active {
        ok := Restore(p, works);
        return;
      }
      var target, sttyRows := Wanted(s);
      if target == s.applied {
        assert panes == old(panes)[p := s.(applied := target)] && terminal == old(terminal)[p := target];
        return true;
      }
      ok := SetSize(p, target.columns, sttyRows, works);
      if ok {
        panes := panes[p := s.(applied := target)];
      }
    }

    // -------------------------------------------------------------- acquiring

    /** What survives even resizes from outside: the terminals exist and the leases are in range. */
    ghost predicate Sane()
      reads this
    {
      AllSane(panes, terminal)
    }

    lemma ValidIsSane()
      requires Valid()
      ensures Sane()
    {
    }

    /** The pane's expired leases go. */
    method Expire(p: PaneId, now: int) returns (removed: bool)
      requires Sane() && p in panes
      modifies this`panes
      ensures Sane() && (old(Valid()) ==> Valid())
      ensures panes == old(panes)[p := old(panes[p]).(leases := Unexpired(old(panes[p].leases), now))]
      ensures removed <==> Unexpired(old(panes[p].leases), now) != old(panes[p].leases)
    {
      var s := panes[p];
      var rest;
      rest, removed := RemoveExpired(s.leases, now);
      UnexpiredOk(s.leases, now);
      SanePut(panes, terminal, p, s.(leases := rest), terminal[p]);
      if AllTracked(panes, terminal, began) {
        TrackedPut(panes, terminal, began, p, s.(leases := rest), terminal[p]);
      }
      hide AllTracked, AllSane, LeasesOk, Unexpired;
      panes := panes[p := s.(leases := rest)];
    }

    /** `readSize`, and looking the terminal up before it. */
    method Measure(p: PaneId, readable: bool) returns (size: Option<Size>)
      ensures size == if readable && Measurable(terminal, p) then Some(terminal[p]) else None
    {
      if readable && p in terminal && terminal[p].rows >= 1 && terminal[p].columns >= 1 {
        return Some(terminal[p]);
      }
      size := None;
    }

    /** The terminal gets the size that the pane's leases ask for, if it does not have it. */
    method Fit(p: PaneId, s: PaneState, works: bool) returns (r: Option<Size>)
      requires p in terminal && LeasesOk(s.leases) && s.baseline.rows >= 1
      requires s.applied.rows == terminal[p].rows || s.baseline.rows == terminal[p].rows
      modifies this`terminal
      ensures works ==> r.Some?
      ensures r.Some? ==> Target(s, r.value) && terminal == old(terminal)[p := r.value]
      ensures r.None? ==> terminal == old(terminal)
    {
      var current := terminal[p];
      var target, sttyRows := Wanted(s);
      hide Target, Lowest, LeasesOk;
      var needed := target.columns != current.columns;
      if sttyRows > 0 && target.rows != current.rows {
        needed := true;
      }
      if needed {
        var ok := SetSize(p, target.columns, sttyRows, works);
        if !ok {
          return None;
        }
      }
      assert terminal[p] == target;
      r := Some(target);
    }

    /** The pane's state with the lease in it takes effect, or is undone as if it had not come. */
    method Grant(p: PaneId, s: PaneState, client: ClientId, lease: Lease, works: bool) returns (r: Option<Size>)
      requires Sane() && p in terminal && LeaseOk(lease) && LeasesOk(s.leases) && s.baseline.rows >= 1
      requires s.applied.rows == terminal[p].rows || s.baseline.rows == terminal[p].rows
      requires p in panes ==> panes[p] == s
      modifies this`panes, this`terminal, this`began
      ensures Sane() && (works ==> r.Some?)
      ensures r.Some? ==> Target(s.(leases := s.leases[client := lease]), r.value)
      ensures r.Some? ==> terminal == old(terminal)[p := r.value]
      ensures r.Some? ==> panes == old(panes)[p := s.(leases := s.leases[client := lease], applied := r.value)]
      ensures r.None? ==> terminal == old(terminal) && panes == old(panes)[p := s]
      ensures old(Valid()) && (p !in old(panes) ==> s.applied == s.baseline == old(terminal[p])) ==> Valid()
    {
      if p !in panes {
        began := began[p := s.baseline];
      }
      var granted := s.(leases := s.leases[client := lease]);
      assert LeasesOk(granted.leases);
      hide Target;
      r := Fit(p, granted, works);
      panes := panes[p := if r.Some? then granted.(applied := r.value) else s];
    }

    /** The pane's state as `Acquire` finds it: measured if it is new, else without its expired
        leases and with a size changed from outside as its new baseline. */
    method Reach(p: PaneId, now: int, readable: bool) returns (found: Option<PaneState>)
      requires Sane()
      modifies this`panes
      ensures found.Some? <==> readable && Measurable(terminal, p)
      ensures Sane() && (old(Valid()) ==> Valid()) && panes - {p} == old(panes) - {p}
      ensures found.Some? ==> p in terminal && terminal[p].rows >= 1
      ensures found.Some? ==> found.value == Before(old(panes), p, terminal[p], now)
      ensures found.Some? ==> panes == if p in old(panes) then old(panes)[p := found.value] else old(panes)
    {
      hide LeasesOk, Unexpired;
      if p !in panes {
        var size := Measure(p, readable);
        return if size.Some? then Some(PaneState(size.value, size.value, map[], 0)) else None;
      }
      found := Refresh(p, now, readable);
    }

    /** The tracked case of `Reach`. */
    method Refresh(p: PaneId, now: int, readable: bool) returns (found: Option<PaneState>)
      requires Sane() && p in panes
      modifies this`panes
      ensures found.Some? <==> readable && Measurable(terminal, p)
      ensures Sane() && (old(Valid()) ==> Valid()) && panes - {p} == old(panes) - {p}
      ensures found.Some? ==> terminal[p].rows >= 1
      ensures found.Some? ==> found.value == Before(old(panes), p, terminal[p], now) && panes == old(panes)[p := found.value]
    {
      hide AllTracked, Unexpired, LeasesOk;
      var removed := Expire(p, now);
      var current := Measure(p, readable);
      if current.None? {
        return None;
      }
      var s := Rebased(panes[p], current.value);
      SanePut(panes, terminal, p, s, current.value);
      if AllTracked(panes, terminal, began) {
        TrackedAt(panes, terminal, began, p);
        TrackedPut(panes, terminal, began, p, s, current.value);
      }
      hide AllSane;
      found := Some(s);
      panes := panes[p := s];
    }

    /** A lease in range reaches its pane. */
    method Take(client: ClientId, p: PaneId, lease: Lease, now: int, faults: Faults) returns (r: Result)
      requires Sane() && LeaseOk(lease)
      modifies this`panes, this`terminal, this`began
      ensures faults.unreadable || !Measurable(old(terminal), p) ==> r == Failed(Unavailable)
      ensures !faults.unreadable && Measurable(old(terminal), p) && faults.leaves ==> r == Failed(OwnerGone)
      ensures !faults.unreadable && Measurable(old(terminal), p) && !faults.leaves ==> r.Ok? || (faults.stuck && r == Failed(ResizeFailed))
      ensures Sane() && (old(Valid()) ==> Valid())
      ensures Acquired(old(panes), old(terminal), panes, terminal, client, p, lease, now, r)
    {
      assert p in panes ==> LeasesOk(panes[p].leases) && panes[p].baseline.rows >= 1;
      hide Target, LeasesOk, AllTracked, AllSane, Before, LeaseOk, Acquired;
      var found := Reach(p, now, !faults.unreadable);
      if found.None? || faults.leaves {
        r := Failed(if found.None? then Unavailable else OwnerGone);
        NotAcquired(old(panes), old(terminal), panes, client, p, lease, now, r);
        return;
      }
      BeforeOk(old(panes), p, terminal[p], now);
      r := Attempt(client, p, found.value, lease, !faults.stuck, old(panes), now);
    }

    /** The lease reaches the pane's state. */
    method Attempt(client: ClientId, p: PaneId, s: PaneState, lease: Lease, works: bool, ghost start: map<PaneId, PaneState>, now: int)
      returns (r: Result)
      requires Sane() && p in terminal && LeaseOk(lease) && LeasesOk(s.leases) && s.baseline.rows >= 1
      requires s.applied.rows == terminal[p].rows || s.baseline.rows == terminal[p].rows
      requires s == Before(start, p, terminal[p], now) && panes == (if p in start then start[p := s] else start)
      modifies this`panes, this`terminal, this`began
      ensures Sane()
      ensures old(Valid()) && (p !in start ==> s.applied == s.baseline == old(terminal[p])) ==> Valid()
      ensures Acquired(start, old(terminal), panes, terminal, client, p, lease, now, r)
      ensures r.Ok? || (!works && r == Failed(ResizeFailed))
    {
      hide Target, LeasesOk, AllTracked, AllSane, Before, LeaseOk, Acquired;
      ghost var reached := panes;
      var granted := Grant(p, s, client, lease, works);
      if granted.None? {
        r := Failed(ResizeFailed);
        NotAcquired(start, old(terminal), panes, client, p, lease, now, r);
      } else {
        r := Ok(granted.value);
        HasAcquired(start, old(terminal), reached, client, p, lease, now, r.size);
      }
    }

    /** `Acquire`. It leaves the narrowest lease applied even on a terminal that was resized from
        outside, and keeps to its bookkeeping on one that was not. */
    method Acquire(client: ClientId, p: PaneId, columns: int, rows: int, now: int, faults: Faults) returns (r: Result)
      requires Sane()
      modifies this`panes, this`terminal, this`began
      ensures Sane() && (old(Valid()) ==> Valid())
      ensures Acquired(old(panes), old(terminal), panes, terminal, client, p, Lease(columns, rows, now + LEASE_TTL), now, r)
      ensures !LeaseOk(Lease(columns, rows, 0)) || client == "" || p == "" || closed ==> r.Failed? && panes == old(panes)
      ensures var why := Complaint(client, p, columns, rows, closed, Measurable(old(terminal), p), faults);
        if why.Some? then r == Failed(why.value) else r.Ok? || (faults.stuck && r == Failed(ResizeFailed))
    {
      if client == "" || p == "" {
        return Failed(InvalidLease);
      }
      if columns < MIN_COLUMNS || columns > MAX_COLUMNS {
        return Failed(InvalidColumns);
      }
      if rows != 0 && (rows < MIN_ROWS || rows > MAX_ROWS) {
        return Failed(InvalidRows);
      }
      if closed {
        return Failed(Closed);
      }
      if faults.gone {
        return Failed(OwnerGone);
      }
      hide Acquired;
      r := Take(client, p, Lease(columns, rows, now + LEASE_TTL), now, faults);
    }

    /** Someone else resizes a terminal. */
    method ResizedOutside(p: PaneId, size: Size)
      requires Sane()
      modifies this`terminal
      ensures Sane() && terminal == old(terminal)[p := size]
    {
      terminal := terminal[p := size];
    }

    // -------------------------------------------------------------- releasing

    /** One client's lease of a pane is replaced, or dropped. */
    method SetLease(p: PaneId, client: ClientId, lease: Option<Lease>)
      requires Valid() && p in panes && (lease.Some? ==> LeaseOk(lease.value))
      modifies this`panes
      ensures Valid() && panes == old(panes)[p := old(panes[p]).(leases := WithLease(old(panes[p].leases), client, lease))]
    {
      panes := panes[p := panes[p].(leases := WithLease(panes[p].leases, client, lease))];
      assert LeasesOk(panes[p].leases);
    }

    /** `Release`: the lease lapses after a grace, and only one that has already lapsed goes now. */
    method Release(client: ClientId, p: PaneId, now: int, works: bool) returns (ok: bool)
      requires Valid()
      modifies this`panes, this`terminal
      ensures client == "" || p == "" ==> !ok
      ensures client != "" && p != "" && works ==> ok
      ensures Valid()
      ensures closed || p !in old(panes) || client !in old(panes[p].leases) ==> panes == old(panes) && terminal == old(terminal)
      ensures ok && !closed && client != "" && p != "" && p in old(panes) && client in old(panes[p].leases) ==>
        Released(old(panes), old(terminal), panes, terminal, client, p, now)
    {
      if client == "" || p == "" {
        return false;
      }
      if closed || p !in panes || client !in panes[p].leases {
        return true;
      }
      var lease := panes[p].leases[client];
      assert LeaseOk(lease);
      if lease.expiresAt > now + RELEASE_GRACE {
        lease := lease.(expiresAt := now + RELEASE_GRACE);
        SetLease(p, client, Some(lease));
      } else {
        SameLease(panes, p, client);
      }
      if lease.expiresAt > now {
        return true;
      }
      assert panes == old(panes);
      SetLease(p, client, None);
      hide Reconciled, Valid;
      ok := Reconcile(p, works);
    }

    /** The pane follows the leases it has, leaving every other pane alone. */
    method Follow(p: PaneId, works: bool) returns (ok: bool)
      requires Valid() && p in panes
      modifies this`panes, this`terminal
      ensures works ==> ok
      ensures Valid() && Apart(old(panes), old(terminal), panes, terminal, p)
      ensures ok ==> InOrder(old(panes[p]), panes, terminal, p)
    {
      ghost var s := panes[p];
      ok := Reconcile(p, works);
      hide Valid;
      if ok {
        ReconciledInOrder(old(panes), old(terminal), panes, terminal, p);
      } else {
        GivenUpApart(old(panes), old(terminal), p);
      }
    }

    /** `SweepExpired`: if nothing fails, every pane that was tracked is in order without its expired
        leases. */
    method SweepExpired(now: int, stuck: set<PaneId>) returns (ok: bool)
      requires Valid()
      modifies this`panes, this`terminal
      ensures stuck !! old(panes).Keys ==> ok
      ensures Valid()
      ensures closed ==> panes == old(panes) && terminal == old(terminal)
      ensures ok && !closed ==> forall p :: p in old(panes) ==>
        InOrder(old(panes[p]).(leases := Unexpired(old(panes[p].leases), now)), panes, terminal, p)
    {
      ok := true;
      if closed {
        return;
      }
      ghost var start, world, wanted := panes, terminal, Swept(panes, now);
      hide AllTracked, InOrder, Waiting, Settled, Swept, Apart;
      var left := panes.Keys;
      Beginning(start, world, wanted);
      while left != {}
        invariant Valid() && left <= start.Keys && Waiting(start, world, panes, terminal, left)
        invariant stuck !! start.Keys ==> ok
        invariant ok ==> Settled(wanted, panes, terminal, left)
        decreases left
      {
        var p :| p in left;
        ghost var before, was := panes, terminal;
        StillWaiting(start, world, panes, terminal, left, p);
        SweptAt(start, now, p);
        var fine := SweepOne(p, now, p !in stuck);
        ok := ok && fine;
        NextSettled(start, world, wanted, before, was, panes, terminal, p, left, ok);
        left := left - {p};
      }
      if ok {
        AllSettled(start, now, panes, terminal);
      }
    }

    method SweepOne(p: PaneId, now: int, works: bool) returns (ok: bool)
      requires Valid() && p in panes
      modifies this`panes, this`terminal
      ensures works ==> ok
      ensures Valid() && Apart(old(panes), old(terminal), panes, terminal, p)
      ensures ok ==> InOrder(old(panes[p]).(leases := Unexpired(old(panes[p].leases), now)), panes, terminal, p)
    {
      ValidIsSane();
      var removed := Expire(p, now);
      var s := panes[p];
      var _, active := MinimumColumns(s.leases);
      var target, _ := Wanted(s);
      if !removed && active && s.applied == target {
        return true;
      }
      hide Valid, InOrder, Target, Apart;
      ghost var mid := panes;
      ok := Follow(p, works);
      ApartAfter(old(panes), old(terminal), mid[p], panes, terminal, p);
    }

    /** One pane of `ReleaseClient`: its lease goes, and the pane follows what is left unless others
        hold it and this client did not. */
    method ReleaseOne(client: ClientId, p: PaneId, works: bool) returns (ok: bool)
      requires Valid() && p in panes
      modifies this`panes, this`terminal
      ensures works ==> ok
      ensures Valid() && Apart(old(panes), old(terminal), panes, terminal, p)
      ensures ok ==> ClientGone(old(panes[p]), panes, terminal, client, p)
    {
      var owned := client in panes[p].leases;
      ghost var s := panes[p];
      if owned {
        SetLease(p, client, None);
      }
      var _, active := MinimumColumns(panes[p].leases);
      if !owned && active {
        return true;
      }
      hide Valid, InOrder, Target, Apart;
      ghost var mid := panes;
      assert mid[p] == s.(leases := s.leases - {client}) && mid == old(panes)[p := mid[p]];
      ok := Follow(p, works);
      ApartAfter(old(panes), old(terminal), mid[p], panes, terminal, p);
    }

    /** `ReleaseClient`: if nothing fails, no pane keeps a lease of the client, and each that had one,
        or had none at all, is in order. */
    method ReleaseClient(client: ClientId, stuck: set<PaneId>) returns (ok: bool)
      requires Valid()
      modifies this`panes, this`terminal
      ensures client != "" && stuck !! old(panes).Keys ==> ok
      ensures Valid()
      ensures closed || client == "" ==> panes == old(panes) && terminal == old(terminal)
      ensures ok && !closed && client != "" ==> forall p :: p in old(panes) ==> ClientGone(old(panes[p]), panes, terminal, client, p)
    {
      ok := client != "";
      if closed || client == "" {
        return;
      }
      hide AllTracked, ClientGone;
      var left := panes.Keys;
      while left != {}
        invariant Valid() && left <= old(panes).Keys
        invariant forall q :: q in left ==> Untouched(old(panes), old(terminal), panes, terminal, q)
        invariant stuck !! old(panes).Keys ==> ok
        invariant ok ==> forall q :: q in old(panes) && q !in left ==> ClientGone(old(panes[q]), panes, terminal, client, q)
        decreases left
      {
        var p :| p in left;
        left := left - {p};
        ghost var before, world := panes, terminal;
        var fine := ReleaseOne(client, p, p !in stuck);
        ok := ok && fine;
        KeepOthers(old(panes), old(terminal), before, world, panes, terminal, p, left);
        KeepGone(before, world, panes, terminal, client, p);
      }
    }

    /** `Shutdown`: if nothing fails, nothing is tracked any more and every terminal that was is back
        at its baseline. */
    method Shutdown(stuck: set<PaneId>) returns (ok: bool)
      requires Valid()
      modifies this`panes, this`terminal, this`closed
      ensures stuck !! old(panes).Keys ==> ok
      ensures Valid() && closed
      ensures ok ==> panes == map[] && forall p :: p in old(panes) ==> p in terminal && terminal[p] == old(panes[p].baseline)
    {
      closed := true;
      ok := true;
      ghost var start, world, wanted := panes, terminal, Unleased(panes);
      hide AllTracked, InOrder, Waiting, Settled, Unleased, Apart;
      var left := panes.Keys;
      Beginning(start, world, wanted);
      while left != {}
        invariant Valid() && left <= start.Keys && closed && panes.Keys <= start.Keys
        invariant Waiting(start, world, panes, terminal, left)
        invariant stuck !! start.Keys ==> ok
        invariant ok ==> Settled(wanted, panes, terminal, left)
        decreases left
      {
        var p :| p in left;
        ghost var before, was := panes, terminal;
        StillWaiting(start, world, panes, terminal, left, p);
        UnleasedAt(start, p);
        var fine := ShutOne(p, p !in stuck);
        ok := ok && fine;
        NextSettled(start, world, wanted, before, was, panes, terminal, p, left, ok);
        SubsetKept(before, was, panes, terminal, p);
        left := left - {p};
      }
      if ok {
        AllShut(start, panes, terminal);
      }
    }

    method ShutOne(p: PaneId, works: bool) returns (ok: bool)
      requires Valid() && p in panes
      modifies this`panes, this`terminal
      ensures ok == works
      ensures Valid() && Apart(old(panes), old(terminal), panes, terminal, p)
      ensures ok ==> InOrder(old(panes[p]).(leases := map[]), panes, terminal, p)
    {
      panes := panes[p := panes[p].(leases := map[])];
      ghost var mid := panes;
      ok := Restore(p, works);
      if ok {
        assert Reconciled(mid, old(terminal), panes, terminal, p);
        ReconciledInOrder(mid, old(terminal), panes, terminal, p);
      } else {
        GivenUpApart(mid, old(terminal), p);
      }
      hide Apart, Valid;
      ApartAfter(old(panes), old(terminal), mid[p], panes, terminal, p);
    }
  }

  ghost function SizeAt(sizes: map<PaneId, Size>, p: PaneId): Option<Size> {
    if p in sizes then Some(sizes[p]) else None
  }

  predicate Measurable(terminal: map<PaneId, Size>, p: PaneId) {
    p in terminal && terminal[p].rows >= 1 && terminal[p].columns >= 1
  }

  /** Why a lease is refused before its terminal is touched, the first reason first. */
  function Complaint(client: ClientId, p: PaneId, columns: int, rows: int, closed: bool, measurable: bool, faults: Faults): Option<Failure> {
    if client == "" || p == "" then Some(InvalidLease)
    else if !(MIN_COLUMNS <= columns <= MAX_COLUMNS) then Some(InvalidColumns)
    else if !(rows == 0 || MIN_ROWS <= rows <= MAX_ROWS) then Some(InvalidRows)
    else if closed then Some(Closed)
    else if faults.gone then Some(OwnerGone)
    else if faults.unreadable || !measurable then Some(Unavailable)
    else if faults.leaves then Some(OwnerGone)
    else None
  }

  ghost predicate AllTracked(panes: map<PaneId, PaneState>, terminal: map<PaneId, Size>, began: map<PaneId, Size>) {
    forall p :: p in panes ==> Tracked(panes[p], SizeAt(terminal, p), SizeAt(began, p))
  }

  ghost predicate AllSane(panes: map<PaneId, PaneState>, terminal: map<PaneId, Size>) {
    forall p :: p in panes ==> p in terminal && LeasesOk(panes[p].leases) && panes[p].baseline.rows >= 1
  }

  lemma TrackedPut(panes: map<PaneId, PaneState>, terminal: map<PaneId, Size>, began: map<PaneId, Size>,
                   p: PaneId, s: PaneState, size: Size)
    requires AllTracked(panes, terminal, began) && Tracked(s, Some(size), SizeAt(began, p))
    ensures AllTracked(panes[p := s], terminal[p := size], began)
    ensures p in terminal && terminal[p] == size ==> AllTracked(panes[p := s], terminal, began)
  {
    assert p in terminal && terminal[p] == size ==> terminal[p := size] == terminal;
  }

  lemma TrackedAt(panes: map<PaneId, PaneState>, terminal: map<PaneId, Size>, began: map<PaneId, Size>, p: PaneId)
    requires AllTracked(panes, terminal, began) && p in panes
    ensures p in terminal && p in began && Tracked(panes[p], Some(terminal[p]), Some(began[p]))
  {
  }

  lemma SanePut(panes: map<PaneId, PaneState>, terminal: map<PaneId, Size>, p: PaneId, s: PaneState, size: Size)
    requires AllSane(panes, terminal) && LeasesOk(s.leases) && s.baseline.rows >= 1
    ensures AllSane(panes[p := s], terminal[p := size])
    ensures p in terminal ==> AllSane(panes[p := s], terminal)
  {
  }

  lemma UnexpiredOk(leases: map<ClientId, Lease>, now: int)
    requires LeasesOk(leases)
    ensures LeasesOk(Unexpired(leases, now))
  {
  }

  ghost predicate Tracked(s: PaneState, terminal: Option<Size>, began: Option<Size>) {
    terminal == Some(s.applied) && began == Some(s.baseline) && LeasesOk(s.leases) && s.baseline.rows >= 1
  }

  /** One more failure to restore a pane; the fifth is the last. */
  ghost function GivenUp(panes: map<PaneId, PaneState>, p: PaneId): map<PaneId, PaneState>
    requires p in panes
  {
    if panes[p].restoreFailures + 1 >= MAX_RESTORE_FAILURES then panes - {p}
    else panes[p := panes[p].(restoreFailures := panes[p].restoreFailures + 1)]
  }

  /** A pane without leases is back at its baseline and forgotten; any other has its target. */
  ghost predicate Reconciled(panes: map<PaneId, PaneState>, terminal: map<PaneId, Size>,
                             panes': map<PaneId, PaneState>, terminal': map<PaneId, Size>, p: PaneId)
    requires p in panes
  {
    var s := panes[p];
    if s.leases == map[] then panes' == panes - {p} && terminal' == terminal[p := s.baseline]
    else p in terminal' && Target(s, terminal'[p]) && terminal' == terminal[p := terminal'[p]] &&
         panes' == panes[p := s.(applied := terminal'[p])]
  }

  /** A dimension that was changed from outside becomes the one to go back to. */
  function Rebased(s: PaneState, current: Size): PaneState {
    s.(baseline := Size(if current.rows != s.applied.rows then current.rows else s.baseline.rows,
                        if current.columns != s.applied.columns then current.columns else s.baseline.columns))
  }

  /** The pane's state when a lease reaches it. */
  ghost function Before(panes: map<PaneId, PaneState>, p: PaneId, current: Size, now: int): PaneState {
    if p in panes then Rebased(panes[p].(leases := Unexpired(panes[p].leases, now)), current)
    else PaneState(current, current, map[], 0)
  }

  /** What `Acquire` makes of panes and terminals: on success the pane has the lease and its terminal
      the size its leases ask for; on failure no terminal changes and no other pane does. */
  ghost predicate Acquired(panes: map<PaneId, PaneState>, terminal: map<PaneId, Size>,
                           panes': map<PaneId, PaneState>, terminal': map<PaneId, Size>,
                           client: ClientId, p: PaneId, lease: Lease, now: int, r: Result) {
    if r.Ok? then
      && p in terminal && terminal' == terminal[p := r.size]
      && var s := Before(panes, p, terminal[p], now);
         var leased := s.(leases := s.leases[client := lease]);
         panes' == panes[p := leased.(applied := r.size)] && Target(leased, r.size)
    else terminal' == terminal && panes' - {p} == panes - {p}
  }

  lemma NotAcquired(panes: map<PaneId, PaneState>, terminal: map<PaneId, Size>, panes': map<PaneId, PaneState>,
                    client: ClientId, p: PaneId, lease: Lease, now: int, r: Result)
    requires r.Failed? && panes' - {p} == panes - {p}
    ensures Acquired(panes, terminal, panes', terminal, client, p, lease, now, r)
  {
  }

  lemma HasAcquired(panes: map<PaneId, PaneState>, terminal: map<PaneId, Size>, reached: map<PaneId, PaneState>,
                    client: ClientId, p: PaneId, lease: Lease, now: int, size: Size)
    requires p in terminal && (reached == panes || reached == panes[p := Before(panes, p, terminal[p], now)])
    requires var s := Before(panes, p, terminal[p], now); Target(s.(leases := s.leases[client := lease]), size)
    ensures var s := Before(panes, p, terminal[p], now);
      Acquired(panes, terminal, reached[p := s.(leases := s.leases[client := lease], applied := size)], terminal[p := size],
               client, p, lease, now, Ok(size))
  {
    hide Before, Target;
  }

  lemma BeforeOk(panes: map<PaneId, PaneState>, p: PaneId, current: Size, now: int)
    requires p in panes ==> LeasesOk(panes[p].leases) && panes[p].baseline.rows >= 1
    requires current.rows >= 1
    ensures var s := Before(panes, p, current, now);
      && LeasesOk(s.leases) && s.baseline.rows >= 1
      && (s.applied.rows == current.rows || s.baseline.rows == current.rows)
      && (p in panes && panes[p].applied == current ==> s.applied == current && s.baseline == panes[p].baseline)
      && (p !in panes ==> s.applied == s.baseline == current)
  {
  }

  function WithLease(leases: map<ClientId, Lease>, client: ClientId, lease: Option<Lease>): map<ClientId, Lease> {
    if lease.Some? then leases[client := lease.value] else leases - {client}
  }

  /** A lease that still has time left keeps at most the grace; one without is gone, and the pane
      follows the leases that are left. */
  ghost predicate Released(panes: map<PaneId, PaneState>, terminal: map<PaneId, Size>,
                           panes': map<PaneId, PaneState>, terminal': map<PaneId, Size>,
                           client: ClientId, p: PaneId, now: int)
    requires p in panes && client in panes[p].leases
  {
    var s, lease := panes[p], panes[p].leases[client];
    if lease.expiresAt > now then
      var lapse := if lease.expiresAt > now + RELEASE_GRACE then now + RELEASE_GRACE else lease.expiresAt;
      panes' == panes[p := s.(leases := s.leases[client := lease.(expiresAt := lapse)])] && terminal' == terminal
    else
      Reconciled(panes[p := s.(leases := s.leases - {client})], terminal, panes', terminal', p)
  }

  /** A pane that `s` described is in order: without leases it is back at its baseline and forgotten,
      with leases it is tracked and its terminal has the size they ask for. */
  ghost predicate InOrder(s: PaneState, panes: map<PaneId, PaneState>, terminal: map<PaneId, Size>, p: PaneId) {
    && p in terminal
    && if s.leases == map[] then p !in panes && terminal[p] == s.baseline
       else p in panes && panes[p] == s.(applied := terminal[p]) && Target(s, terminal[p])
  }

  lemma SameLease(panes: map<PaneId, PaneState>, p: PaneId, client: ClientId)
    requires p in panes && client in panes[p].leases
    ensures var s := panes[p]; panes == panes[p := s.(leases := s.leases[client := s.leases[client]])]
  {
    var s := panes[p];
    assert s.leases[client := s.leases[client]] == s.leases;
    assert s.(leases := s.leases[client := s.leases[client]]) == s;
  }

  /** Only the pane `p` and its terminal differ. */
  ghost predicate Apart(panes: map<PaneId, PaneState>, terminal: map<PaneId, Size>,
                        panes': map<PaneId, PaneState>, terminal': map<PaneId, Size>, p: PaneId) {
    forall q :: q != p ==> Untouched(panes, terminal, panes', terminal', q)
  }

  ghost predicate Untouched(panes: map<PaneId, PaneState>, terminal: map<PaneId, Size>,
                            panes': map<PaneId, PaneState>, terminal': map<PaneId, Size>, q: PaneId) {
    && (q in panes <==> q in panes') && (q in panes ==> panes[q] == panes'[q])
    && (q in terminal <==> q in terminal') && (q in terminal ==> terminal[q] == terminal'[q])
  }

  lemma ReconciledInOrder(panes: map<PaneId, PaneState>, terminal: map<PaneId, Size>,
                          panes': map<PaneId, PaneState>, terminal': map<PaneId, Size>, p: PaneId)
    requires p in panes && Reconciled(panes, terminal, panes', terminal', p)
    ensures Apart(panes, terminal, panes', terminal', p) && InOrder(panes[p], panes', terminal', p)
  {
    hide Target;
  }

  lemma ApartAfter(panes: map<PaneId, PaneState>, terminal: map<PaneId, Size>, s: PaneState,
                   panes': map<PaneId, PaneState>, terminal': map<PaneId, Size>, p: PaneId)
    requires Apart(panes[p := s], terminal, panes', terminal', p)
    ensures Apart(panes, terminal, panes', terminal', p)
  {
    forall q | q != p
      ensures Untouched(panes, terminal, panes', terminal', q)
    {
      assert Untouched(panes[p := s], terminal, panes', terminal', q);
    }
  }

  lemma GivenUpApart(panes: map<PaneId, PaneState>, terminal: map<PaneId, Size>, p: PaneId)
    requires p in panes
    ensures Apart(panes, terminal, GivenUp(panes, p), terminal, p) && Apart(panes, terminal, panes, terminal, p)
  {
  }

  lemma KeepOthers(start: map<PaneId, PaneState>, startWorld: map<PaneId, Size>,
                   panes: map<PaneId, PaneState>, terminal: map<PaneId, Size>,
                   panes': map<PaneId, PaneState>, terminal': map<PaneId, Size>, p: PaneId, left: set<PaneId>)
    requires Apart(panes, terminal, panes', terminal', p) && p !in left
    requires forall q :: q in left ==> Untouched(start, startWorld, panes, terminal, q)
    ensures forall q :: q in left ==> Untouched(start, startWorld, panes', terminal', q)
    ensures forall q, s: PaneState :: q != p && InOrder(s, panes, terminal, q) ==> InOrder(s, panes', terminal', q)
  {
    hide Target;
    forall q, s: PaneState | q != p && InOrder(s, panes, terminal, q)
      ensures InOrder(s, panes', terminal', q)
    {
      assert Untouched(panes, terminal, panes', terminal', q);
    }
    forall q | q in left
      ensures Untouched(start, startWorld, panes', terminal', q)
    {
      assert Untouched(panes, terminal, panes', terminal', q);
    }
  }

  /** No lease of the client is left on the pane; one that was its, or was unleased, is in order. */
  ghost predicate ClientGone(s: PaneState, panes: map<PaneId, PaneState>, terminal: map<PaneId, Size>, client: ClientId, p: PaneId) {
    if client in s.leases || s.leases == map[] then InOrder(s.(leases := s.leases - {client}), panes, terminal, p)
    else p in panes && panes[p] == s
  }

  lemma KeepGone(panes: map<PaneId, PaneState>, terminal: map<PaneId, Size>,
                 panes': map<PaneId, PaneState>, terminal': map<PaneId, Size>, client: ClientId, p: PaneId)
    requires Apart(panes, terminal, panes', terminal', p)
    ensures forall q, s: PaneState :: q != p && ClientGone(s, panes, terminal, client, q) ==> ClientGone(s, panes', terminal', client, q)
  {
    hide Target;
    forall q, s: PaneState | q != p && ClientGone(s, panes, terminal, client, q)
      ensures ClientGone(s, panes', terminal', client, q)
    {
      assert Untouched(panes, terminal, panes', terminal', q);
    }
  }

  /** The panes in `left` still have their turn before them. */
  ghost predicate Waiting(start: map<PaneId, PaneState>, world: map<PaneId, Size>,
                          panes: map<PaneId, PaneState>, terminal: map<PaneId, Size>, left: set<PaneId>) {
    forall q :: q in left ==> Untouched(start, world, panes, terminal, q)
  }

  /** Every other pane is in order as `wanted` describes it. */
  ghost predicate Settled(wanted: map<PaneId, PaneState>, panes: map<PaneId, PaneState>, terminal: map<PaneId, Size>, left: set<PaneId>) {
    forall q :: q in wanted && q !in left ==> InOrder(wanted[q], panes, terminal, q)
  }

  ghost function Swept(panes: map<PaneId, PaneState>, now: int): map<PaneId, PaneState> {
    map q | q in panes :: panes[q].(leases := Unexpired(panes[q].leases, now))
  }

  ghost function Unleased(panes: map<PaneId, PaneState>): map<PaneId, PaneState> {
    map q | q in panes :: panes[q].(leases := map[])
  }

  lemma Beginning(start: map<PaneId, PaneState>, world: map<PaneId, Size>, wanted: map<PaneId, PaneState>)
    requires wanted == Unleased(start) || exists now :: wanted == Swept(start, now)
    ensures wanted.Keys == start.Keys && Waiting(start, world, start, world, start.Keys) && Settled(wanted, start, world, start.Keys)
  {
  }

  lemma StillWaiting(start: map<PaneId, PaneState>, world: map<PaneId, Size>,
                     panes: map<PaneId, PaneState>, terminal: map<PaneId, Size>, left: set<PaneId>, p: PaneId)
    requires Waiting(start, world, panes, terminal, left) && p in left && p in start
    ensures p in panes && panes[p] == start[p]
  {
    assert Untouched(start, world, panes, terminal, p);
  }

  lemma SweptAt(panes: map<PaneId, PaneState>, now: int, p: PaneId)
    requires p in panes
    ensures p in Swept(panes, now) && Swept(panes, now)[p] == panes[p].(leases := Unexpired(panes[p].leases, now))
  {
  }

  lemma UnleasedAt(panes: map<PaneId, PaneState>, p: PaneId)
    requires p in panes
    ensures p in Unleased(panes) && Unleased(panes)[p] == panes[p].(leases := map[])
  {
  }

  /** One pane has had its turn. */
  lemma NextSettled(start: map<PaneId, PaneState>, world: map<PaneId, Size>, wanted: map<PaneId, PaneState>,
                    panes: map<PaneId, PaneState>, terminal: map<PaneId, Size>,
                    panes': map<PaneId, PaneState>, terminal': map<PaneId, Size>, p: PaneId, left: set<PaneId>, ok: bool)
    requires Waiting(start, world, panes, terminal, left) && Apart(panes, terminal, panes', terminal', p) && p in wanted
    requires ok ==> Settled(wanted, panes, terminal, left) && InOrder(wanted[p], panes', terminal', p)
    ensures Waiting(start, world, panes', terminal', left - {p})
    ensures ok ==> Settled(wanted, panes', terminal', left - {p})
  {
    KeepOthers(start, world, panes, terminal, panes', terminal', p, left - {p});
    hide InOrder;
  }

  lemma AllSettled(start: map<PaneId, PaneState>, now: int, panes: map<PaneId, PaneState>, terminal: map<PaneId, Size>)
    requires Settled(Swept(start, now), panes, terminal, {})
    ensures forall p :: p in start ==> InOrder(start[p].(leases := Unexpired(start[p].leases, now)), panes, terminal, p)
  {
    hide InOrder;
    forall p | p in start
      ensures InOrder(start[p].(leases := Unexpired(start[p].leases, now)), panes, terminal, p)
    {
      SweptAt(start, now, p);
      hide Swept;
    }
  }

  lemma SubsetKept(panes: map<PaneId, PaneState>, terminal: map<PaneId, Size>,
                   panes': map<PaneId, PaneState>, terminal': map<PaneId, Size>, p: PaneId)
    requires Apart(panes, terminal, panes', terminal', p)
    ensures panes'.Keys <= panes.Keys + {p}
  {
    forall q | q in panes' && q != p
      ensures q in panes
    {
      assert Untouched(panes, terminal, panes', terminal', q);
    }
  }

  lemma AllShut(start: map<PaneId, PaneState>, panes: map<PaneId, PaneState>, terminal: map<PaneId, Size>)
    requires panes.Keys <= start.Keys && Settled(Unleased(start), panes, terminal, {})
    ensures panes == map[] && forall p :: p in start ==> p in terminal && terminal[p] == start[p].baseline
  {
    forall p | p in start
      ensures p !in panes && p in terminal && terminal[p] == start[p].baseline
    {
      UnleasedAt(start, p);
      hide Unleased;
      EmptyInOrder(start[p], panes, terminal, p);
    }
    assert panes.Keys == {};
  }

  lemma EmptyInOrder(s: PaneState, panes: map<PaneId, PaneState>, terminal: map<PaneId, Size>, p: PaneId)
    requires InOrder(s.(leases := map[]), panes, terminal, p)
    ensures p !in panes && p in terminal && terminal[p] == s.baseline
  {
  }
}
