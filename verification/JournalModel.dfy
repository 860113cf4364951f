/** The activity journal on disk, and what reopening it yields.

    The journal is two files: the entries, one line each, and the tombstones, ids whose entries no
    longer count. Both are only ever replaced as a whole or, for the entries, extended at the end, so
    the disk is a value and an operation is a short list of durable writes. An entry carries the
    length of its encoded line; a line that does not parse is garbage of some length. */
module JournalModel {
  import opened Options

  const MAX_ITEMS: nat := 500
  const MAX_BYTES: nat := 2 * 1024 * 1024

  datatype Entry = Entry(id: string, content: nat, size: nat)

  type pos = n: int | n > 0 witness 1

  datatype Line = Record(entry: Entry) | Garbage(size: pos)

  datatype Disk = Disk(file: Option<seq<Line>>, tombstones: set<string>)

  datatype Write = Lines(lines: seq<Line>) | Tombstones(ids: set<string>)

  function Apply(d: Disk, w: Write): Disk {
    match w
    case Lines(lines) => d.(file := Some(lines))
    case Tombstones(ids) => d.(tombstones := ids)
  }

  function ApplyAll(d: Disk, ws: seq<Write>): Disk
    decreases |ws|
  {
    if ws == [] then d else ApplyAll(Apply(d, ws[0]), ws[1..])
  }

  // ---------------------------------------------------------------- the limits

  function Bytes(es: seq<Entry>): nat {
    if es == [] then 0 else es[0].size + Bytes(es[1..])
  }

  predicate Fits(es: seq<Entry>) {
    |es| <= MAX_ITEMS && Bytes(es) <= MAX_BYTES
  }

  function Tail(es: seq<Entry>, n: nat): seq<Entry>
    requires n <= |es|
  {
    es[|es| - n..]
  }

  /** `kept` is the longest suffix of `all` within the limits. */
  ghost predicate LongestFit(all: seq<Entry>, kept: seq<Entry>) {
    && |kept| <= |all| && kept == Tail(all, |kept|) && Fits(kept)
    && forall n :: |kept| < n <= |all| ==> !Fits(Tail(all, n))
  }

  lemma {:induction false} BytesSplit(es: seq<Entry>, k: nat)
    requires k <= |es|
    ensures Bytes(es) == Bytes(es[..k]) + Bytes(es[k..])
    decreases k
  {
    if k > 0 {
      BytesSplit(es[1..], k - 1);
      assert es[..k][1..] == es[1..][..k - 1] && es[k..] == es[1..][k - 1..];
    }
  }

  lemma BytesSnoc(es: seq<Entry>, k: nat)
    requires k < |es|
    ensures Bytes(es[..k + 1]) == Bytes(es[..k]) + es[k].size
  {
    BytesSplit(es[..k + 1], k);
    assert es[..k + 1][..k] == es[..k] && es[..k + 1][k..] == [es[k]];
    assert Bytes([es[k]]) == es[k].size + Bytes([]);
  }

  lemma LastWeighs(es: seq<Entry>)
    requires es != []
    ensures Bytes(es) >= es[|es| - 1].size && (|es| == 1 ==> Bytes(es) == es[0].size)
  {
    BytesSnoc(es, |es| - 1);
    assert es[..|es|] == es;
  }

  lemma TailFits(es: seq<Entry>, n: nat)
    requires n <= |es| && Fits(es)
    ensures Fits(Tail(es, n))
  {
    BytesSplit(es, |es| - n);
  }

  lemma ShorterFits(all: seq<Entry>, m: nat, n: nat)
    requires m <= n <= |all| && Fits(Tail(all, n))
    ensures Fits(Tail(all, m))
  {
    TailFits(Tail(all, n), m);
    assert Tail(Tail(all, n), m) == Tail(all, m);
  }

  /** A suffix that fits while the next longer one does not is the longest. */
  lemma NextDecides(all: seq<Entry>, kept: seq<Entry>)
    requires |kept| <= |all| && kept == Tail(all, |kept|) && Fits(kept)
    requires |kept| == |all| || !Fits(Tail(all, |kept| + 1))
    ensures LongestFit(all, kept)
  {
    forall n | |kept| < n <= |all|
      ensures !Fits(Tail(all, n))
    {
      if Fits(Tail(all, n)) {
        ShorterFits(all, |kept| + 1, n);
      }
    }
  }

  /** Cutting to the last 500 items and then from the front until the bytes fit leaves the longest
      suffix that fits. */
  lemma CutFromFront(all: seq<Entry>, entries: seq<Entry>, first: nat)
    requires entries == if |all| > MAX_ITEMS then all[|all| - MAX_ITEMS..] else all
    requires first <= |entries| && Bytes(entries[first..]) <= MAX_BYTES
    requires first > 0 ==> Bytes(entries[first - 1..]) > MAX_BYTES
    ensures LongestFit(all, entries[first..])
  {
    hide Bytes;
    var suffix := entries[first..];
    assert suffix == Tail(all, |suffix|);
    if first > 0 {
      assert Tail(all, |suffix| + 1) == entries[first - 1..];
    }
    NextDecides(all, suffix);
  }

  function LongestSuffix(all: seq<Entry>): seq<Entry> {
    if Fits(all) then all else LongestSuffix(all[1..])
  }

  lemma {:induction false} LongestSuffixFits(all: seq<Entry>)
    ensures LongestFit(all, LongestSuffix(all))
    decreases |all|
  {
    var kept := LongestSuffix(all);
    if Fits(all) {
      assert Tail(all, |all|) == all;
    } else {
      LongestSuffixFits(all[1..]);
      assert Tail(all[1..], |kept|) == Tail(all, |kept|);
      if |kept| + 1 < |all| {
        assert Tail(all[1..], |kept| + 1) == Tail(all, |kept| + 1);
      } else {
        assert Tail(all, |kept| + 1) == all;
      }
      NextDecides(all, kept);
    }
  }

  lemma KeptFits(all: seq<Entry>)
    ensures Fits(LongestSuffix(all))
  {
    LongestSuffixFits(all);
  }

  lemma OneLongest(all: seq<Entry>, a: seq<Entry>, b: seq<Entry>)
    requires LongestFit(all, a) && LongestFit(all, b)
    ensures a == b
  {
  }

  lemma FittingPrefix(all: seq<Entry>, more: seq<Entry>, n: nat)
    requires n <= |all| && Fits(Tail(all + more, n + |more|))
    ensures Fits(Tail(all, n))
  {
    var suffix := Tail(all + more, n + |more|);
    assert suffix[..n] == Tail(all, n);
    BytesSplit(suffix, n);
  }

  lemma SameTail(all: seq<Entry>, kept: seq<Entry>, more: seq<Entry>, n: nat)
    requires |kept| <= |all| && kept == Tail(all, |kept|) && n <= |kept| + |more|
    ensures Tail(kept + more, n) == Tail(all + more, n)
  {
  }

  /** Keeping the longest suffix and appending loses nothing that keeping it at the end would keep. */
  lemma KeepThenAppend(all: seq<Entry>, more: seq<Entry>)
    ensures LongestSuffix(LongestSuffix(all) + more) == LongestSuffix(all + more)
  {
    var kept := LongestSuffix(all);
    var final := LongestSuffix(all + more);
    LongestSuffixFits(all);
    LongestSuffixFits(all + more);
    LongestSuffixFits(kept + more);
    hide LongestSuffix, Fits, Tail;
    if |final| > |kept| + |more| {
      FittingPrefix(all, more, |final| - |more|);
    }
    SameTail(all, kept, more, |final|);
    forall n | |final| < n <= |kept + more|
      ensures !Fits(Tail(kept + more, n))
    {
      SameTail(all, kept, more, n);
    }
    OneLongest(kept + more, LongestSuffix(kept + more), final);
  }

  /** The list after appending each entry of `more` in turn and trimming every time. */
  function Appended(start: seq<Entry>, more: seq<Entry>): seq<Entry>
    decreases |more|
  {
    if more == [] then start else Appended(LongestSuffix(start + [more[0]]), more[1..])
  }

  /** Over every run of appends the kept list is the longest suffix, within 500 items and 2 MiB, of
      everything that was accepted. */
  lemma {:induction false} AppendsKeepLongestSuffix(start: seq<Entry>, more: seq<Entry>)
    requires Fits(start)
    ensures LongestFit(start + more, Appended(start, more))
    decreases |more|
  {
    hide Fits, Tail;
    LongestSuffixFits(start + more);
    if more == [] {
      assert start + more == start;
      hide LongestFit;
    } else {
      hide LongestSuffix, LongestFit;
      var next := LongestSuffix(start + [more[0]]);
      KeptFits(start + [more[0]]);
      AppendsKeepLongestSuffix(next, more[1..]);
      LongestSuffixFits(next + more[1..]);
      OneLongest(next + more[1..], Appended(next, more[1..]), LongestSuffix(next + more[1..]));
      KeepThenAppend(start + [more[0]], more[1..]);
      assert start + [more[0]] + more[1..] == start + more;
    }
  }

  // ---------------------------------------------------------------- what reopening yields

  function Records(es: seq<Entry>): seq<Line> {
    if es == [] then [] else [Record(es[0])] + Records(es[1..])
  }

  function LineSize(line: Line): nat {
    if line.Record? then line.entry.size else line.size
  }

  function Size(lines: seq<Line>): nat {
    if lines == [] then 0 else LineSize(lines[0]) + Size(lines[1..])
  }

  /** The entries a file still holds, tombstones aside. */
  function Surviving(lines: seq<Line>, tombstones: set<string>): seq<Entry> {
    if lines == [] then []
    else if lines[0].Record? && lines[0].entry.id !in tombstones
    then [lines[0].entry] + Surviving(lines[1..], tombstones)
    else Surviving(lines[1..], tombstones)
  }

  function Without(es: seq<Entry>, ids: set<string>): seq<Entry> {
    if es == [] then []
    else if es[0].id in ids then Without(es[1..], ids)
    else [es[0]] + Without(es[1..], ids)
  }

  predicate Readable(lines: seq<Line>) {
    Size(lines) <= 4 * MAX_BYTES && forall line :: line in lines ==> LineSize(line) <= MAX_BYTES
  }

  /** `retainWithinLimits`: refused when even the last entry does not fit. */
  function Retained(es: seq<Entry>): Option<seq<Entry>> {
    if es != [] && es[|es| - 1].size > MAX_BYTES then None else Some(LongestSuffix(es))
  }

  /** The entries `OpenJournal` comes up with, or `None` where it reports an error. */
  function Recovered(d: Disk): Option<seq<Entry>> {
    match d.file
    case None => Some([])
    case Some(lines) => if Readable(lines) then Retained(Surviving(lines, d.tombstones)) else None
  }

  /** The durable writes of `load`. */
  function RecoveryWrites(d: Disk): seq<Write> {
    var clean := if d.tombstones == {} then [] else [Tombstones({})];
    match d.file
    case None => clean
    case Some(lines) =>
      var es := Surviving(lines, d.tombstones);
      var kept := LongestSuffix(es);
      if d.tombstones != {} || Size(lines) > MAX_BYTES || |kept| != |es| || Bytes(kept) != Size(lines)
      then [Lines(Records(kept))] + clean
      else clean
  }

  // ---------------------------------------------------------------- recovery is stable

  lemma {:induction false} RecordsFacts(es: seq<Entry>, ids: set<string>)
    ensures Size(Records(es)) == Bytes(es) && Surviving(Records(es), ids) == Without(es, ids)
    ensures forall line :: line in Records(es) ==> line.Record? && line.entry in es
  {
    if es != [] {
      RecordsFacts(es[1..], ids);
      assert forall e :: e in es[1..] ==> e in es;
    }
  }

  lemma {:induction false} RecordsSnoc(es: seq<Entry>, k: nat)
    requires k < |es|
    ensures Records(es[..k + 1]) == Records(es[..k]) + [Record(es[k])]
    decreases k
  {
    if k > 0 {
      RecordsSnoc(es[1..], k - 1);
      assert es[..k + 1][1..] == es[1..][..k] && es[..k][1..] == es[1..][..k - 1];
    } else {
      assert es[..1][1..] == [];
    }
  }

  lemma {:induction false} WithoutFits(es: seq<Entry>, ids: set<string>)
    ensures |Without(es, ids)| <= |es| && Bytes(Without(es, ids)) <= Bytes(es)
    ensures forall e :: e in Without(es, ids) <==> e in es && e.id !in ids
  {
    if es != [] {
      WithoutFits(es[1..], ids);
      assert es == [es[0]] + es[1..];
      if es[0].id !in ids {
        assert Without(es, ids)[1..] == Without(es[1..], ids);
      }
    }
  }

  lemma {:induction false} WithoutNone(es: seq<Entry>, ids: set<string>)
    requires forall e :: e in es ==> e.id !in ids
    ensures Without(es, ids) == es
  {
    if es != [] {
      assert forall e :: e in es[1..] ==> e in es;
      WithoutNone(es[1..], ids);
    }
  }

  lemma {:induction false} WithoutTwice(es: seq<Entry>, a: set<string>, b: set<string>)
    ensures Without(Without(es, a), b) == Without(es, a + b)
  {
    if es != [] {
      WithoutTwice(es[1..], a, b);
    }
  }

  lemma {:induction false} SurvivingFacts(lines: seq<Line>, ids: set<string>)
    ensures forall e :: e in Surviving(lines, ids) ==> Record(e) in lines && e.id !in ids
  {
    if lines != [] {
      SurvivingFacts(lines[1..], ids);
      assert forall line :: line in lines[1..] ==> line in lines;
    }
  }

  lemma {:induction false} SizeOfMember(es: seq<Entry>, e: Entry)
    requires e in es
    ensures e.size <= Bytes(es)
  {
    if es[0] != e {
      SizeOfMember(es[1..], e);
    }
  }

  /** A file that holds exactly `es`, within the limits, reopens to `es` minus the tombstones. */
  lemma CleanFile(es: seq<Entry>, tombstones: set<string>)
    requires Fits(es)
    ensures Recovered(Disk(Some(Records(es)), tombstones)) == Some(Without(es, tombstones))
  {
    RecordsFacts(es, tombstones);
    WithoutFits(es, tombstones);
    var kept := Without(es, tombstones);
    forall line | line in Records(es)
      ensures LineSize(line) <= MAX_BYTES
    {
      SizeOfMember(es, line.entry);
    }
    if kept != [] {
      SizeOfMember(kept, kept[|kept| - 1]);
    }
  }

  /** The rewritten file reopens to the same entries, with the tombstones or without. */
  lemma RewriteKeeps(lines: seq<Line>, tombstones: set<string>)
    requires Recovered(Disk(Some(lines), tombstones)).Some?
    ensures var kept := LongestSuffix(Surviving(lines, tombstones));
      && Recovered(Disk(Some(lines), tombstones)) == Some(kept)
      && Recovered(Disk(Some(Records(kept)), tombstones)) == Some(kept)
      && Recovered(Disk(Some(Records(kept)), {})) == Some(kept)
  {
    var es := Surviving(lines, tombstones);
    var kept := LongestSuffix(es);
    LongestSuffixFits(es);
    SurvivingFacts(lines, tombstones);
    hide LongestSuffix, Surviving, Readable, Fits;
    assert forall e :: e in kept ==> e in es;
    CleanFile(kept, tombstones);
    CleanFile(kept, {});
    WithoutNone(kept, tombstones);
    WithoutNone(kept, {});
  }

  lemma ApplyPrefix(d: Disk, ws: seq<Write>, k: nat)
    requires k <= |ws| <= 2
    ensures ApplyAll(d, ws[..k]) ==
      if k == 0 then d else if k == 1 then Apply(d, ws[0]) else Apply(Apply(d, ws[0]), ws[1])
  {
    if k == 1 {
      assert ws[..k] == [ws[0]];
      assert ApplyAll(Apply(d, ws[0]), []) == Apply(d, ws[0]);
    } else if k == 2 {
      assert ws[..k] == [ws[0], ws[1]];
      var one := Apply(d, ws[0]);
      assert [ws[0], ws[1]][1..] == [ws[1]] && [ws[1]][1..] == [];
      assert ApplyAll(one, [ws[1]]) == ApplyAll(Apply(one, ws[1]), []) == Apply(one, ws[1]);
    }
  }

  /** Whatever part of a recovery reaches the disk before a crash, the next one finds the same
      entries. */
  lemma RecoveryKeeps(d: Disk, k: nat)
    requires Recovered(d).Some? && k <= |RecoveryWrites(d)|
    ensures Recovered(ApplyAll(d, RecoveryWrites(d)[..k])) == Recovered(d)
  {
    ApplyPrefix(d, RecoveryWrites(d), k);
    hide ApplyAll;
    if d.file.Some? {
      RewriteKeeps(d.file.value, d.tombstones);
      hide Recovered, Surviving, LongestSuffix, Size, Bytes, Records;
    }
  }

  /** Every recovery of a sequence but the last is cut short after the given number of writes. */
  function CutShort(d: Disk, cuts: seq<nat>): Disk
    decreases |cuts|
  {
    if cuts == [] then d
    else
      var writes := RecoveryWrites(d);
      CutShort(ApplyAll(d, writes[..if cuts[0] <= |writes| then cuts[0] else |writes|]), cuts[1..])
  }

  /** Crashes during recovery, however many, change nothing about what reopening yields. */
  lemma {:induction false} RepeatedCrashes(d: Disk, cuts: seq<nat>)
    requires Recovered(d).Some?
    ensures Recovered(CutShort(d, cuts)) == Recovered(d)
    decreases |cuts|
  {
    if cuts != [] {
      var writes := RecoveryWrites(d);
      var k := if cuts[0] <= |writes| then cuts[0] else |writes|;
      RecoveryKeeps(d, k);
      RepeatedCrashes(ApplyAll(d, writes[..k]), cuts[1..]);
    }
  }

  /** An append that a crash tore leaves a tail that reopening skips. */
  lemma TornAppend(es: seq<Entry>, tombstones: set<string>, torn: pos)
    requires Fits(es) && torn <= MAX_BYTES
    ensures Recovered(Disk(Some(Records(es) + [Garbage(torn)]), tombstones)) == Some(Without(es, tombstones))
  {
    TornFacts(es, tombstones, torn);
    CleanFile(es, tombstones);
    RecordsFacts(es, tombstones);
    forall line | line in Records(es)
      ensures LineSize(line) <= MAX_BYTES
    {
      SizeOfMember(es, line.entry);
    }
  }

  lemma {:induction false} TornFacts(es: seq<Entry>, tombstones: set<string>, torn: pos)
    ensures Size(Records(es) + [Garbage(torn)]) == Bytes(es) + torn
    ensures Surviving(Records(es) + [Garbage(torn)], tombstones) == Without(es, tombstones)
  {
    if es != [] {
      TornFacts(es[1..], tombstones, torn);
      assert (Records(es) + [Garbage(torn)])[1..] == Records(es[1..]) + [Garbage(torn)];
    } else {
      assert Records(es) + [Garbage(torn)] == [Garbage(torn)];
      assert Size([Garbage(torn)][1..]) == 0;
    }
  }

  // ---------------------------------------------------------------- scanning

  lemma {:induction false} SurvivingSplit(a: seq<Line>, b: seq<Line>, ids: set<string>)
    ensures Surviving(a + b, ids) == Surviving(a, ids) + Surviving(b, ids)
  {
    if a == [] {
      assert a + b == b;
    } else {
      SurvivingSplit(a[1..], b, ids);
      assert (a + b)[0] == a[0] && (a + b)[1..] == a[1..] + b;
    }
  }

  lemma {:induction false} SizeSplit(a: seq<Line>, b: seq<Line>)
    ensures Size(a + b) == Size(a) + Size(b)
  {
    if a == [] {
      assert a + b == b;
    } else {
      SizeSplit(a[1..], b);
      assert (a + b)[0] == a[0] && (a + b)[1..] == a[1..] + b;
    }
  }

  lemma {:induction false} WithoutSplit(a: seq<Entry>, b: seq<Entry>, ids: set<string>)
    ensures Without(a + b, ids) == Without(a, ids) + Without(b, ids)
  {
    if a == [] {
      assert a + b == b;
    } else {
      WithoutSplit(a[1..], b, ids);
      assert (a + b)[1..] == a[1..] + b;
    }
  }

  /** A file whose entries account for its whole size holds nothing else. */
  lemma {:induction false} NothingElse(lines: seq<Line>, ids: set<string>)
    ensures Bytes(Surviving(lines, ids)) <= Size(lines)
    ensures ids == {} && Bytes(Surviving(lines, ids)) == Size(lines) ==> lines == Records(Surviving(lines, ids))
  {
    if lines != [] {
      NothingElse(lines[1..], ids);
      assert Surviving(lines, ids) == (if lines[0].Record? && lines[0].entry.id !in ids then [lines[0].entry] else []) +
        Surviving(lines[1..], ids);
    }
  }

  /** The entry just appended is kept if it fits at all. */
  lemma NewestIsKept(all: seq<Entry>, e: Entry)
    requires e.size <= MAX_BYTES
    ensures e in LongestSuffix(all + [e])
  {
    LongestSuffixFits(all + [e]);
    var kept := LongestSuffix(all + [e]);
    assert Tail(all + [e], 1) == [e];
    LastWeighs([e]);
    assert Fits(Tail(all + [e], 1));
    assert kept[|kept| - 1] == e;
  }

  // ---------------------------------------------------------------- a failed append

  /** A file whose last `tail` bytes lack their newline. */
  datatype Unfinished = Unfinished(lines: seq<Line>, tail: nat)

  /** What an append that reported a failure may leave: any part of its line, or all of it. */
  function LeftBehind(es: seq<Entry>, failed: Entry, written: nat): Unfinished {
    if written == failed.size then Unfinished(Records(es + [failed]), 0) else Unfinished(Records(es), written)
  }

  /** The next line is written right behind the tail, and is then part of a line that does not parse. */
  function Behind(f: Unfinished, e: Entry): seq<Line> {
    f.lines + [if f.tail == 0 then Record(e) else Garbage(f.tail + e.size)]
  }

  lemma RecordLast(es: seq<Entry>, e: Entry)
    ensures Records(es + [e]) == Records(es) + [Record(e)]
  {
    RecordsSnoc(es + [e], |es|);
    assert (es + [e])[..|es| + 1] == es + [e] && (es + [e])[..|es|] == es;
  }

  /** An entry accepted after a failed append survives a reopening if and only if the failed one left
      nothing or its whole line; if the two together make a line that is too long, nothing can be
      reopened at all. */
  lemma FailedPredecessor(es: seq<Entry>, failed: Entry, written: nat, e: Entry, tombstones: set<string>)
    requires Fits(es + [failed]) && Fits(es + [e]) && written <= failed.size && failed.size > 0
    requires e !in es && e != failed && e.id !in tombstones
    ensures var r := Recovered(Disk(Some(Behind(LeftBehind(es, failed, written), e)), tombstones));
      && (r.Some? && e in r.value <==> written == 0 || written == failed.size)
      && (r.None? <==> 0 < written < failed.size && written + e.size > MAX_BYTES)
  {
    BytesSnoc(es + [failed], |es|);
    BytesSnoc(es + [e], |es|);
    assert (es + [e])[..|es|] == es && (es + [e])[..|es| + 1] == es + [e];
    assert (es + [failed])[..|es|] == es && (es + [failed])[..|es| + 1] == es + [failed];
    WithoutFits(es, tombstones);
    RecordLast(es, e);
    if written == failed.size {
      WholeLineStays(es, failed, e, tombstones);
    } else if written == 0 {
      CleanFile(es + [e], tombstones);
      WithoutFits(es + [e], tombstones);
    } else if written + e.size <= MAX_BYTES {
      TornAppend(es, tombstones, written + e.size);
    } else {
      assert Garbage(written + e.size) in Behind(LeftBehind(es, failed, written), e);
      hide Recovered;
      assert !Readable(Behind(LeftBehind(es, failed, written), e));
      TooLong(Behind(LeftBehind(es, failed, written), e), tombstones);
    }
  }

  lemma TooLong(lines: seq<Line>, tombstones: set<string>)
    requires !Readable(lines)
    ensures Recovered(Disk(Some(lines), tombstones)).None?
  {
  }

  /** The failed append left its whole line: both entries are on disk. */
  lemma WholeLineStays(es: seq<Entry>, failed: Entry, e: Entry, tombstones: set<string>)
    requires Fits(es + [failed]) && e.size <= MAX_BYTES && e.id !in tombstones && Bytes(es + [failed]) <= MAX_BYTES
    ensures var r := Recovered(Disk(Some(Records(es + [failed]) + [Record(e)]), tombstones)); r.Some? && e in r.value
  {
    var all := es + [failed] + [e];
    RecordLast(es + [failed], e);
    RecordsFacts(all, tombstones);
    BytesSnoc(all, |all| - 1);
    assert all[..|all|] == all && all[..|all| - 1] == es + [failed];
    forall line | line in Records(all)
      ensures LineSize(line) <= MAX_BYTES
    {
      if line.entry != e {
        assert line.entry in es + [failed];
        SizeOfMember(es + [failed], line.entry);
      }
    }
    WithoutSplit(es + [failed], [e], tombstones);
    assert Without([e], tombstones) == [e];
    var kept := Without(es + [failed], tombstones);
    assert Without(all, tombstones) == kept + [e];
    NewestIsKept(kept, e);
  }
}
