/** The activity journal as a process keeps it: the entries in memory, their size, and the two files.
    Any durable write may fail and leave its file alone; which of them work is an input. `history` collects every state of the disk,
    that of a torn append included, so what holds of it holds at every point where a crash can
    strike. */
module Journal {
  import opened Options
  import opened JournalModel

  method Total(entries: seq<Entry>) returns (total: nat)
    ensures total == Bytes(entries)
  {
    total := 0;
    var i := 0;
    while i < |entries|
      invariant 0 <= i <= |entries| && total == Bytes(entries[..i])
    {
      BytesSnoc(entries, i);
      total := total + entries[i].size;
      i := i + 1;
    }
    assert entries[..i] == entries;
  }

  /** `retainWithinLimits`. */
  method RetainWithinLimits(all: seq<Entry>) returns (kept: Option<(seq<Entry>, nat)>)
    ensures kept.None? <==> all != [] && all[|all| - 1].size > MAX_BYTES
    ensures kept.Some? ==> LongestFit(all, kept.value.0) && kept.value.1 == Bytes(kept.value.0)
  {
    hide LongestFit;
    var entries := if |all| > MAX_ITEMS then all[|all| - MAX_ITEMS..] else all;
    var total := Total(entries);
    var first := 0;
    while total > MAX_BYTES && first < |entries| - 1
      invariant 0 <= first <= |entries| && (entries != [] ==> first < |entries|)
      invariant total == Bytes(entries[first..])
      invariant first > 0 ==> Bytes(entries[first - 1..]) > MAX_BYTES
    {
      assert entries[first..][1..] == entries[first + 1..];
      total := total - entries[first].size;
      first := first + 1;
    }
    if entries != [] {
      LastWeighs(entries[first..]);
    }
    if total > MAX_BYTES {
      return None;
    }
    CutFromFront(all, entries, first);
    kept := Some((entries[first..], total));
  }

  class Journal {
    var entries: seq<Entry>
    var bytes: nat
    var disk: Disk
    ghost var history: seq<Disk>

    /** A process that has not opened its journal yet. */
    constructor (d: Disk)
      ensures disk == d && history == [d] && entries == [] && bytes == 0
    {
      entries, bytes, disk := [], 0, d;
      history := [d];
    }

    /** The file holds exactly the entries in memory, within the limits. */
    ghost predicate Valid()
      reads this
    {
      && Fits(entries) && bytes == Bytes(entries)
      && (disk.file == Some(Records(entries)) || (disk.file.None? && entries == []))
      && |history| > 0 && history[|history| - 1] == disk
    }

    /** What a process that opened the disk now would come up with. */
    lemma Reopens()
      requires Valid()
      ensures Recovered(disk) == Some(Without(entries, disk.tombstones))
    {
      if disk.file.Some? {
        CleanFile(entries, disk.tombstones);
      }
    }

    // -------------------------------------------------------------- durable writes

    method WriteTombstones(ids: set<string>, works: bool) returns (ok: bool)
      modifies this`disk, this`history
      ensures ok == works
      ensures disk == if ok then old(disk).(tombstones := ids) else old(disk)
      ensures history == old(history) + [disk]
    {
      ok := works;
      if ok {
        disk := disk.(tombstones := ids);
      }
      history := history + [disk];
    }

    method WriteLines(lines: seq<Line>, works: bool) returns (ok: bool)
      modifies this`disk, this`history
      ensures ok == works
      ensures disk == if ok then old(disk).(file := Some(lines)) else old(disk)
      ensures history == old(history) + [disk]
    {
      ok := works;
      if ok {
        disk := disk.(file := Some(lines));
      }
      history := history + [disk];
    }

    /** `compactEntriesLocked`. */
    method Compact(next: seq<Entry>, works: bool) returns (ok: bool)
      modifies this`disk, this`history, this`entries, this`bytes
      ensures ok == works
      ensures disk == if ok then old(disk).(file := Some(Records(next))) else old(disk)
      ensures entries == if ok then next else old(entries)
      ensures bytes == if ok then Bytes(next) else old(bytes)
      ensures history == old(history) + [disk]
    {
      var lines, written := Encoded(next);
      ok := WriteLines(lines, works);
      if ok {
        entries, bytes := next, written;
      }
    }

    static method Encoded(es: seq<Entry>) returns (lines: seq<Line>, written: nat)
      ensures lines == Records(es) && written == Bytes(es)
    {
      lines, written := [], 0;
      var i := 0;
      while i < |es|
        invariant 0 <= i <= |es| && lines == Records(es[..i]) && written == Bytes(es[..i])
      {
        RecordsSnoc(es, i);
        BytesSnoc(es, i);
        lines, written := lines + [Record(es[i])], written + es[i].size;
        i := i + 1;
      }
      assert es[..i] == es;
    }

    // -------------------------------------------------------------- opening

    static method Scan(lines: seq<Line>, tombstones: set<string>) returns (es: seq<Entry>, size: nat, readable: bool)
      ensures es == Surviving(lines, tombstones) && size == Size(lines)
      ensures readable <==> forall line :: line in lines ==> LineSize(line) <= MAX_BYTES
    {
      es, size, readable := [], 0, true;
      var i := 0;
      while i < |lines|
        invariant 0 <= i <= |lines| && es == Surviving(lines[..i], tombstones) && size == Size(lines[..i])
        invariant readable <==> forall line :: line in lines[..i] ==> LineSize(line) <= MAX_BYTES
      {
        assert lines[..i + 1] == lines[..i] + [lines[i]];
        SurvivingSplit(lines[..i], [lines[i]], tombstones);
        SizeSplit(lines[..i], [lines[i]]);
        assert Size([lines[i]]) == LineSize(lines[i]) + Size([]);
        assert Surviving([lines[i]][1..], tombstones) == [];
        readable := readable && LineSize(lines[i]) <= MAX_BYTES;
        size := size + LineSize(lines[i]);
        if lines[i].Record? && lines[i].entry.id !in tombstones {
          es := es + [lines[i].entry];
        }
        i := i + 1;
      }
      assert lines[..i] == lines;
    }

    /** `load`, on a disk in any state: what is left of earlier crashes is cleaned up, and whatever
        part of that reaches the disk changes nothing about the entries. */
    method Load(rewrites: bool, cleans: bool) returns (ok: bool)
      requires |history| > 0 && history[|history| - 1] == disk
      modifies this
      ensures ok <==> Recovered(old(disk)).Some? && (NeedsRewrite(old(disk)) ==> rewrites) && (old(disk.tombstones) != {} ==> cleans)
      ensures ok ==> Valid() && Recovered(old(disk)) == Some(entries) && disk.tombstones == {}
      ensures ok ==> disk == ApplyAll(old(disk), RecoveryWrites(old(disk)))
      ensures forall i :: |old(history)| <= i < |history| ==> OnTheWay(old(disk), history[i])
      ensures Recovered(old(disk)).None? ==> !ok && disk == old(disk)
      ensures old(history) <= history && history[|history| - 1] == disk
      ensures forall i :: |old(history)| <= i < |history| ==> Recovered(history[i]) == Recovered(old(disk))
    {
      var tombstones := disk.tombstones;
      if disk.file.None? {
        entries, bytes := [], 0;
        ok := true;
        NoFileWay(disk);
        hide OnTheWay, ApplyAll, RecoveryWrites;
        if tombstones != {} {
          ok := WriteTombstones({}, cleans);
        }
        return;
      }
      var es, size, readable := Scan(disk.file.value, tombstones);
      if size > 4 * MAX_BYTES || !readable {
        return false;
      }
      var retained := RetainWithinLimits(es);
      if retained.None? {
        return false;
      }
      hide LongestFit, LongestSuffix, Surviving, Size, OnTheWay, ApplyAll, RecoveryWrites;
      ok := Adopt(es, size, retained.value.0, retained.value.1, rewrites, cleans);
    }

    /** The end of `load`: the entries are taken over, and the files follow where they differ. */
    method Adopt(es: seq<Entry>, size: nat, kept: seq<Entry>, total: nat, rewrites: bool, cleans: bool) returns (ok: bool)
      requires |history| > 0 && history[|history| - 1] == disk && disk.file.Some? && Recovered(disk).Some?
      requires es == Surviving(disk.file.value, disk.tombstones) && size == Size(disk.file.value)
      requires LongestFit(es, kept) && total == Bytes(kept)
      modifies this
      ensures ok <==> (NeedsRewrite(old(disk)) ==> rewrites) && (old(disk.tombstones) != {} ==> cleans)
      ensures ok ==> Valid() && Recovered(old(disk)) == Some(entries) && disk.tombstones == {}
      ensures ok ==> disk == ApplyAll(old(disk), RecoveryWrites(old(disk)))
      ensures forall i :: |old(history)| <= i < |history| ==> OnTheWay(old(disk), history[i])
      ensures old(history) <= history && history[|history| - 1] == disk
      ensures forall i :: |old(history)| <= i < |history| ==> Recovered(history[i]) == Recovered(old(disk))
    {
      hide Recovered, LongestFit, Surviving, Size, Fits, Bytes, Records;
      var tombstones := disk.tombstones;
      ghost var lines := disk.file.value;
      assert disk == Disk(Some(lines), tombstones);
      Adopted(lines, tombstones, kept);
      FileWay(disk, kept);
      RewriteNeeded(disk, kept);
      hide OnTheWay, ApplyAll, RecoveryWrites, NeedsRewrite;
      entries, bytes := kept, total;
      ok := true;
      if tombstones != {} || size > MAX_BYTES || |entries| != |es| || bytes != size {
        ok := Compact(entries, rewrites);
      }
      if ok && tombstones != {} {
        ok := WriteTombstones({}, cleans);
      }
    }

    lemma Adopted(lines: seq<Line>, tombstones: set<string>, kept: seq<Entry>)
      requires Recovered(Disk(Some(lines), tombstones)).Some? && LongestFit(Surviving(lines, tombstones), kept)
      ensures Fits(kept) && Recovered(Disk(Some(lines), tombstones)) == Some(kept)
      ensures Recovered(Disk(Some(Records(kept)), tombstones)) == Some(kept)
      ensures Recovered(Disk(Some(Records(kept)), {})) == Some(kept)
      ensures tombstones == {} && |kept| == |Surviving(lines, tombstones)| && Bytes(kept) == Size(lines) ==> lines == Records(kept)
    {
      var es := Surviving(lines, tombstones);
      LongestSuffixFits(es);
      OneLongest(es, kept, LongestSuffix(es));
      RewriteKeeps(lines, tombstones);
      NothingElse(lines, tombstones);
      WholeKeptOf(es, kept);
      hide Recovered, LongestFit, Surviving, Size, Fits, Bytes, LongestSuffix;
    }

    lemma WholeKeptOf(all: seq<Entry>, kept: seq<Entry>)
      requires LongestFit(all, kept)
      ensures Fits(kept) && (|kept| == |all| ==> kept == all)
    {
    }

    // -------------------------------------------------------------- operations

    /** `Append`. A torn append is a state a crash may leave behind. */
    method Append(e: Entry, works: bool) returns (ok: bool)
      requires Valid()
      modifies this
      ensures ok <==> e.size <= MAX_BYTES && works
      ensures Valid() && disk.tombstones == old(disk.tombstones)
      ensures entries == if ok then LongestSuffix(old(entries) + [e]) else old(entries)
      ensures !ok ==> disk == old(disk)
      ensures ok ==> (e in Without(entries, disk.tombstones) <==> e.id !in disk.tombstones)
      ensures old(history) <= history
      ensures forall i :: |old(history)| <= i < |history| ==>
        Recovered(history[i]) in {Some(Without(old(entries), disk.tombstones)), Some(Without(entries, disk.tombstones))}
    {
      hide LongestFit, Recovered, Readable;
      if e.size > MAX_BYTES {
        return false;
      }
      Reopens();
      var candidate := entries + [e];
      var retained := RetainWithinLimits(candidate);
      assert LongestFit(candidate, retained.value.0);
      LongestSuffixFits(candidate);
      OneLongest(candidate, retained.value.0, LongestSuffix(candidate));
      KeptFits(candidate);
      NewestIsKept(entries, e);
      WithoutFits(LongestSuffix(candidate), disk.tombstones);
      if |retained.value.0| != |candidate| || retained.value.1 > MAX_BYTES || |candidate| > MAX_ITEMS {
        ok := Compact(retained.value.0, works);
        Reopens();
        return;
      }
      assert retained.value.0 == candidate by { WholeKept(candidate); }
      ok := Extend(e, works);
    }

    lemma WholeKept(all: seq<Entry>)
      requires |LongestSuffix(all)| == |all|
      ensures LongestSuffix(all) == all
    {
      LongestSuffixFits(all);
    }

    /** The short path of `Append`: one line at the end of the file. */
    method Extend(e: Entry, works: bool) returns (ok: bool)
      requires Valid() && Fits(entries + [e])
      modifies this
      ensures ok == works
      ensures Valid() && disk.tombstones == old(disk.tombstones)
      ensures entries == if ok then old(entries) + [e] else old(entries)
      ensures !ok ==> disk == old(disk)
      ensures old(history) <= history
      ensures forall i :: |old(history)| <= i < |history| ==>
        Recovered(history[i]) in {Some(Without(old(entries), disk.tombstones)), Some(Without(entries, disk.tombstones))}
    {
      Longer(entries, e);
      ghost var torn: pos :| torn <= e.size || torn == 1;
      TornAppend(entries, disk.tombstones, torn);
      Reopens();
      hide Recovered, Readable, Records, Bytes, Fits, Without;
      var lines := if disk.file.Some? then disk.file.value else [];
      assert lines == Records(entries);
      history := history + [disk.(file := Some(Records(entries) + [Garbage(torn)]))];
      ok := WriteLines(lines + [Record(e)], works);
      if ok {
        entries, bytes := entries + [e], bytes + e.size;
      }
      Reopens();
    }

    lemma Longer(es: seq<Entry>, e: Entry)
      ensures Bytes(es + [e]) == Bytes(es) + e.size && Records(es + [e]) == Records(es) + [Record(e)] && Records([]) == []
    {
      BytesSnoc(es + [e], |es|);
      RecordsSnoc(es + [e], |es|);
      assert (es + [e])[..|es|] == es && (es + [e])[..|es| + 1] == es + [e];
    }

    static method Remaining(es: seq<Entry>, id: string) returns (retained: seq<Entry>, found: bool)
      ensures retained == Without(es, {id}) && (found <==> exists e :: e in es && e.id == id)
    {
      retained, found := [], false;
      var i := 0;
      while i < |es|
        invariant 0 <= i <= |es| && retained == Without(es[..i], {id})
        invariant found <==> exists e :: e in es[..i] && e.id == id
      {
        assert es[..i + 1] == es[..i] + [es[i]];
        WithoutSplit(es[..i], [es[i]], {id});
        assert Without([es[i]], {id}) == if es[i].id == id then [] else [es[i]];
        if es[i].id == id {
          found := true;
        } else {
          retained := retained + [es[i]];
        }
        i := i + 1;
      }
      assert es[..i] == es;
    }

    /** The tombstones are durable before the file is rewritten and are withdrawn afterwards, or when
        the rewrite fails. `mark` are the ids that go, `next` the entries that stay; `durable` and
        `withdrawn` are where in the history the tombstones come and go. */
    method Erase(mark: set<string>, next: seq<Entry>, marks: bool, rewrites: bool, withdraws: bool)
      returns (ok: bool, ghost durable: nat, ghost withdrawn: nat)
      requires Valid() && Fits(next) && Without(next, mark) == next
      modifies this
      ensures ok <==> marks && rewrites
      ensures Valid()
      ensures entries == if ok then next else old(entries)
      ensures old(history) <= history
      ensures Timeline(history, |old(history)|, durable, withdrawn, old(disk.tombstones), mark, old(entries), next, ok)
      ensures ok ==> Recovered(disk) == Some(Without(next, old(disk.tombstones)))
      ensures !ok ==> Recovered(disk) == Some(Without(old(entries), disk.tombstones))
    {
      hide Recovered, Readable, Fits, Bytes, Records, Without;
      var previous := disk.tombstones;
      durable, withdrawn := |history|, |history|;
      NoEntries();
      Reopens();
      WithoutTwice(next, mark, previous);
      assert mark + previous == previous + mark;
      ok := WriteTombstones(previous + mark, marks);
      Reopens();
      if !ok {
        return;
      }
      ok := Compact(next, rewrites);
      Reopens();
      withdrawn := |history|;
      var restored := WriteTombstones(previous, withdraws);
      if !restored {
        withdrawn := |history|;
      }
      Reopens();
    }

    lemma NoEntries()
      ensures Records([]) == [] && Bytes([]) == 0
    {
    }

    /** `Discard`. Once the tombstone is durable a successful call never goes back; one whose rewrite
        fails goes back exactly from the withdrawal on. */
    method Discard(id: string, readable: bool, marks: bool, rewrites: bool, withdraws: bool)
      returns (ok: bool, ghost durable: nat, ghost withdrawn: nat)
      requires Valid()
      modifies this
      ensures ok <==> id == "" || (forall e :: e in old(entries) ==> e.id != id) || (readable && marks && rewrites)
      ensures Valid()
      ensures ok && id != "" ==> entries == Without(old(entries), {id})
      ensures ok && id != "" ==> Recovered(disk) == Some(Without(old(entries), old(disk.tombstones) + {id}))
      ensures !ok || id == "" ==> entries == old(entries) && Recovered(disk) == Some(Without(old(entries), disk.tombstones))
      ensures old(history) <= history && |old(history)| <= durable <= withdrawn <= |history|
      ensures forall i :: |old(history)| <= i < |history| ==>
        history[i].tombstones == if durable <= i < withdrawn then old(disk.tombstones) + {id} else old(disk.tombstones)
      ensures ok ==> forall j, i :: |old(history)| <= j <= i < |history| && id in history[j].tombstones ==>
        Recovered(history[i]) == Some(Without(old(entries), old(disk.tombstones) + {id}))
      ensures !ok ==> forall i :: |old(history)| <= i < |history| ==>
        Recovered(history[i]) ==
          Some(Without(old(entries), if durable <= i < withdrawn then old(disk.tombstones) + {id} else old(disk.tombstones)))
      ensures forall i :: |old(history)| <= i < |history| ==>
        Recovered(history[i]) in {Some(Without(old(entries), old(disk.tombstones))),
                                  Some(Without(old(entries), old(disk.tombstones) + {id}))}
      ensures forall i :: |old(history)| <= i < |history| && id in history[i].tombstones ==>
        Recovered(history[i]) == Some(Without(old(entries), old(disk.tombstones) + {id}))
    {
      hide Recovered, Readable;
      durable, withdrawn := |history|, |history|;
      Reopens();
      if id == "" {
        ok := true;
        return;
      }
      var retained, found := Remaining(entries, id);
      WithoutTwice(entries, {id}, disk.tombstones);
      assert {id} + disk.tombstones == disk.tombstones + {id};
      assert id in disk.tombstones ==> disk.tombstones + {id} == disk.tombstones;
      WithoutFits(entries, {id});
      if !found {
        WithoutNone(entries, {id});
        ok := true;
        return;
      }
      ok := readable;
      if ok {
        WithoutNone(retained, {id});
        ok, durable, withdrawn := Erase({id}, retained, marks, rewrites, withdraws);
      }
    }

    static method Named(es: seq<Entry>) returns (ids: set<string>)
      ensures ids == Names(es)
    {
      ids := {};
      var i := 0;
      while i < |es|
        invariant 0 <= i <= |es| && ids == Names(es[..i])
      {
        assert es[..i + 1] == es[..i] + [es[i]];
        if es[i].id != "" {
          ids := ids + {es[i].id};
        }
        i := i + 1;
      }
      assert es[..i] == es;
    }

    /** `Clear`. An entry without an id cannot be marked, so a crash may bring it back. Once the
        tombstones are durable a successful call never goes back further; one whose rewrite fails goes
        back exactly from the withdrawal on. */
    method Clear(readable: bool, marks: bool, rewrites: bool, withdraws: bool)
      returns (ok: bool, ghost durable: nat, ghost withdrawn: nat)
      requires Valid()
      modifies this
      ensures ok <==> readable && marks && rewrites
      ensures Valid()
      ensures ok ==> entries == [] && Recovered(disk) == Some([])
      ensures !ok ==> entries == old(entries) && Recovered(disk) == Some(Without(old(entries), disk.tombstones))
      ensures old(history) <= history && |old(history)| <= durable <= withdrawn <= |history|
      ensures forall i :: |old(history)| <= i < |history| ==>
        history[i].tombstones == if durable <= i < withdrawn then Marked(old(disk), old(entries)) else old(disk.tombstones)
      ensures ok ==> durable == |old(history)| < |history|
      ensures ok ==> Recovered(history[durable]) == Some(Without(old(entries), Marked(old(disk), old(entries))))
      ensures ok ==> forall j, i :: |old(history)| <= j <= i < |history| && Marked(old(disk), old(entries)) <= history[j].tombstones ==>
        Recovered(history[i]) in {Some(Without(old(entries), Marked(old(disk), old(entries)))), Some([])}
      ensures !ok ==> forall i :: |old(history)| <= i < |history| ==>
        Recovered(history[i]) == Some(Without(old(entries),
          if durable <= i < withdrawn then Marked(old(disk), old(entries)) else old(disk.tombstones)))
    {
      hide Recovered, Readable;
      durable, withdrawn := |history|, |history|;
      Reopens();
      ok := readable;
      if ok {
        var ids := Named(entries);
        ok, durable, withdrawn := Erase(ids, [], marks, rewrites, withdraws);
      }
    }
  }

  /** A recovery from `d` rewrites the file. */
  predicate NeedsRewrite(d: Disk) {
    d.file.Some? &&
    var es := Surviving(d.file.value, d.tombstones);
    d.tombstones != {} || LongestSuffix(es) != es || Bytes(es) != Size(d.file.value)
  }

  lemma RewriteNeeded(d: Disk, kept: seq<Entry>)
    requires d.file.Some? && LongestFit(Surviving(d.file.value, d.tombstones), kept)
    ensures var es, size := Surviving(d.file.value, d.tombstones), Size(d.file.value);
      d.tombstones != {} || size > MAX_BYTES || |kept| != |es| || Bytes(kept) != size <==> NeedsRewrite(d)
  {
    var es := Surviving(d.file.value, d.tombstones);
    LongestSuffixFits(es);
    OneLongest(es, kept, LongestSuffix(es));
    assert |kept| == |es| ==> kept == es;
    hide LongestSuffix, Surviving, Size;
  }

  /** The disk after some of the writes of a recovery from `d`. */
  ghost predicate OnTheWay(d: Disk, x: Disk) {
    exists k :: 0 <= k <= |RecoveryWrites(d)| && x == ApplyAll(d, RecoveryWrites(d)[..k])
  }

  lemma NoFileWay(d: Disk)
    requires d.file.None?
    ensures OnTheWay(d, d) && OnTheWay(d, d.(tombstones := {}))
    ensures ApplyAll(d, RecoveryWrites(d)) == d.(tombstones := {})
  {
    var ws := RecoveryWrites(d);
    ApplyPrefix(d, ws, 0);
    ApplyPrefix(d, ws, |ws|);
    assert ws[..|ws|] == ws;
    hide ApplyAll;
    assert d == ApplyAll(d, ws[..0]);
    assert d.tombstones == {} ==> d.(tombstones := {}) == d;
    assert d.(tombstones := {}) == ApplyAll(d, ws[..|ws|]);
  }

  /** The two files after each write of a recovery that finds a file. */
  lemma FileWay(d: Disk, kept: seq<Entry>)
    requires d.file.Some? && LongestFit(Surviving(d.file.value, d.tombstones), kept)
    ensures OnTheWay(d, d)
    ensures var rewritten := d.(file := Some(Records(kept)));
      var es := Surviving(d.file.value, d.tombstones);
      if d.tombstones != {} || Size(d.file.value) > MAX_BYTES || |kept| != |es| || Bytes(kept) != Size(d.file.value)
      then
        && OnTheWay(d, rewritten) && OnTheWay(d, rewritten.(tombstones := {}))
        && ApplyAll(d, RecoveryWrites(d)) == rewritten.(tombstones := {})
      else ApplyAll(d, RecoveryWrites(d)) == d
  {
    var es := Surviving(d.file.value, d.tombstones);
    LongestSuffixFits(es);
    OneLongest(es, kept, LongestSuffix(es));
    hide LongestFit, LongestSuffix, Surviving, Size, Bytes, Records, ApplyAll;
    var ws := RecoveryWrites(d);
    ApplyPrefix(d, ws, 0);
    ApplyPrefix(d, ws, |ws|);
    assert ws[..|ws|] == ws && d == ApplyAll(d, ws[..0]);
    var rewritten := d.(file := Some(Records(kept)));
    if ws != [] {
      ApplyPrefix(d, ws, 1);
      assert rewritten == ApplyAll(d, ws[..1]);
      assert d.tombstones == {} ==> rewritten.(tombstones := {}) == rewritten;
      assert rewritten.(tombstones := {}) == ApplyAll(d, ws[..|ws|]);
    }
  }

  /** The tombstones of a clear: those there were and every id of an entry. */
  function Marked(d: Disk, es: seq<Entry>): set<string> {
    d.tombstones + Names(es)
  }

  /** The states of the disk from `n` on while `mark` is being erased. Where the rewrite succeeds every
      one of them reopens to what the marks leave or to what stays; where it fails, to what the marks
      leave as long as they stand and to the entries before as soon as they are withdrawn. */
  ghost predicate Timeline(history: seq<Disk>, n: nat, durable: nat, withdrawn: nat, previous: set<string>, mark: set<string>,
                           es: seq<Entry>, next: seq<Entry>, ok: bool) {
    && n <= durable <= withdrawn <= |history|
    && (ok ==> durable == n < |history| && Recovered(history[n]) == Some(Without(es, previous + mark)))
    && forall i :: n <= i < |history| ==>
         && history[i].tombstones == (if durable <= i < withdrawn then previous + mark else previous)
         && (ok ==> Recovered(history[i]) in {Some(Without(es, previous + mark)), Some(Without(next, previous))})
         && (!ok ==> Recovered(history[i]) == Some(Without(es, history[i].tombstones)))
  }

  function Names(es: seq<Entry>): set<string> {
    set e | e in es && e.id != "" :: e.id
  }

  /** A cleared journal reopens empty from the moment its tombstones are durable exactly when none
      of the entries still to be seen lacks an id. */
  lemma MarkedIsGone(es: seq<Entry>, tombstones: set<string>)
    ensures Without(es, tombstones + Names(es)) == [] <==> forall e :: e in Without(es, tombstones) ==> e.id != ""
  {
    WithoutFits(es, tombstones);
    WithoutFits(es, tombstones + Names(es));
    if forall e :: e in Without(es, tombstones) ==> e.id != "" {
      WithoutAll(es, tombstones + Names(es));
    } else {
      var e :| e in Without(es, tombstones) && e.id == "";
      assert e in Without(es, tombstones + Names(es));
    }
  }

  lemma {:induction false} WithoutAll(es: seq<Entry>, ids: set<string>)
    requires forall e :: e in es ==> e.id in ids
    ensures Without(es, ids) == []
  {
    if es != [] {
      assert forall e :: e in es[1..] ==> e in es;
      WithoutAll(es[1..], ids);
    }
  }

  /** An entry without an id, appended to an empty journal, is back after a crash between the durable
      tombstones and the rewrite of a clear. */
  lemma UnnamedComesBack(e: Entry)
    requires e.id == "" && e.size <= MAX_BYTES
    ensures var written := Apply(Disk(None, {}), Lines(Records(LongestSuffix([e]))));
      Recovered(Apply(written, Tombstones(Marked(written, LongestSuffix([e]))))) == Some([e])
  {
    LastWeighs([e]);
    assert LongestSuffix([e]) == [e];
    var written := Apply(Disk(None, {}), Lines(Records([e])));
    assert Names([e]) == {} && Marked(written, [e]) == {};
    CleanFile([e], {});
    WithoutNone([e], {});
    assert Apply(written, Tombstones({})) == Disk(Some(Records([e])), {});
  }

  /** The same as the process does it: append and clear succeed, and the history holds a state, after
      the tombstones, that reopens to the entry. */
  method ClearBringsBack(e: Entry) returns (j: Journal)
    requires e.id == "" && e.size <= MAX_BYTES
    ensures j.entries == [] && exists i :: 0 <= i < |j.history| && Recovered(j.history[i]) == Some([e])
  {
    j := new Journal(Disk(None, {}));
    LastWeighs([e]);
    var appended := j.Append(e, true);
    assert [] + [e] == [e] && LongestSuffix([e]) == [e];
    assert Names([e]) == {} && Marked(j.disk, [e]) == {};
    WithoutNone([e], {});
    ghost var at, gone;
    var cleared;
    cleared, at, gone := j.Clear(true, true, true, true);
  }
}
