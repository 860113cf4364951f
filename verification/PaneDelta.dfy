/** Terminal frames as deltas: the current frame is built from runs of lines of the previous one and
    literal text, and applying the delta to the previous frame gives the current one back. Text is a
    sequence of bytes, a line runs up to and including its newline, and the rest after the last
    newline is a line too, empty or not. */
module PaneDelta {
  import opened Options

  const MINIMUM_COPY_LINES: nat := 3
  const MAX_CANDIDATES: nat := 64

  /** A copy of `copyLines` lines where that is positive, else literal text. */
  datatype Segment = Segment(copyStart: int, copyLines: int, text: string)

  // ---------------------------------------------------------------- lines

  function SplitAfter(s: string): (lines: seq<string>)
    ensures lines != []
    decreases |s|
  {
    if s == "" then [""]
    else
      var rest := SplitAfter(s[1..]);
      if s[0] == '\n' then [[s[0]]] + rest else [[s[0]] + rest[0]] + rest[1..]
  }

  function Join(lines: seq<string>): string {
    if lines == [] then "" else lines[0] + Join(lines[1..])
  }

  function Newlines(s: string): nat {
    if s == "" then 0 else (if s[0] == '\n' then 1 else 0) + Newlines(s[1..])
  }

  /** Cutting a text into lines loses nothing, and leaves one line more than it has newlines. */
  lemma {:induction false} LinesRejoin(s: string)
    ensures Join(SplitAfter(s)) == s && |SplitAfter(s)| == Newlines(s) + 1
    decreases |s|
  {
    if s != "" {
      LinesRejoin(s[1..]);
      var rest := SplitAfter(s[1..]);
      assert s == [s[0]] + s[1..];
      if s[0] == '\n' {
        assert SplitAfter(s)[1..] == rest;
      } else {
        assert SplitAfter(s)[1..] == rest[1..];
      }
    } else {
      assert [""][1..] == [];
    }
  }

  lemma {:induction false} JoinSplit(a: seq<string>, b: seq<string>)
    ensures Join(a + b) == Join(a) + Join(b)
  {
    if a == [] {
      assert a + b == b;
    } else {
      JoinSplit(a[1..], b);
      assert (a + b)[1..] == a[1..] + b;
    }
  }

  lemma JoinRun(lines: seq<string>, i: nat, j: nat)
    requires i <= j <= |lines|
    ensures Join(lines[..j]) == Join(lines[..i]) + Join(lines[i..j])
  {
    JoinSplit(lines[..i], lines[i..j]);
    assert lines[..i] + lines[i..j] == lines[..j];
  }

  // ---------------------------------------------------------------- applying

  predicate InRange(lines: seq<string>, seg: Segment) {
    seg.copyLines > 0 ==> 0 <= seg.copyStart && seg.copyStart + seg.copyLines <= |lines|
  }

  function Text(lines: seq<string>, seg: Segment): string
    requires InRange(lines, seg)
  {
    if seg.copyLines > 0 then Join(lines[seg.copyStart..seg.copyStart + seg.copyLines]) else seg.text
  }

  /** What the segments stand for, if every copy is in range. */
  function Rebuilt(lines: seq<string>, segs: seq<Segment>): Option<string>
    decreases |segs|
  {
    if segs == [] then Some("")
    else
      var last := segs[|segs| - 1];
      var before := Rebuilt(lines, segs[..|segs| - 1]);
      if before.None? || !InRange(lines, last) then None else Some(before.value + Text(lines, last))
  }

  lemma RebuiltSnoc(lines: seq<string>, segs: seq<Segment>, seg: Segment)
    ensures Rebuilt(lines, segs + [seg]) ==
      if Rebuilt(lines, segs).None? || !InRange(lines, seg) then None
      else Some(Rebuilt(lines, segs).value + Text(lines, seg))
  {
    assert (segs + [seg])[..|segs|] == segs;
  }

  lemma {:induction false} RebuiltPrefix(lines: seq<string>, segs: seq<Segment>, k: nat)
    requires k <= |segs| && Rebuilt(lines, segs[..k]).None?
    ensures Rebuilt(lines, segs).None?
    decreases |segs| - k
  {
    if k < |segs| {
      assert segs[..k + 1] == segs[..k] + [segs[k]];
      RebuiltSnoc(lines, segs[..k], segs[k]);
      RebuiltPrefix(lines, segs, k + 1);
    } else {
      assert segs[..k] == segs;
    }
  }

  lemma OutOfRange(lines: seq<string>, segs: seq<Segment>, i: nat)
    requires i < |segs| && !InRange(lines, segs[i])
    ensures Rebuilt(lines, segs).None?
  {
    assert segs[..i + 1] == segs[..i] + [segs[i]];
    RebuiltSnoc(lines, segs[..i], segs[i]);
    RebuiltPrefix(lines, segs, i + 1);
  }

  /** The lines of one copy, written out. */
  method WriteLines(lines: seq<string>, start: nat, end: nat) returns (written: string)
    requires start <= end <= |lines|
    ensures written == Join(lines[start..end])
  {
    written := "";
    var j := start;
    while j < end
      invariant start <= j <= end && written == Join(lines[start..j])
    {
      assert lines[start..j + 1] == lines[start..j] + [lines[j]];
      JoinSplit(lines[start..j], [lines[j]]);
      assert Join([lines[j]]) == lines[j] + Join([]);
      written := written + lines[j];
      j := j + 1;
    }
  }

  /** `Apply`. */
  method Apply(previous: string, segs: seq<Segment>) returns (r: Option<string>)
    ensures r == Rebuilt(SplitAfter(previous), segs)
  {
    var lines := SplitAfter(previous);
    var output := "";
    var i := 0;
    assert Rebuilt(lines, []) == Some("");
    hide Rebuilt, Join, SplitAfter;
    while i < |segs|
      invariant 0 <= i <= |segs| && Rebuilt(lines, segs[..i]) == Some(output)
    {
      var seg := segs[i];
      var text := seg.text;
      if seg.copyLines > 0 {
        var end := seg.copyStart + seg.copyLines;
        if seg.copyStart < 0 || end < seg.copyStart || end > |lines| {
          OutOfRange(lines, segs, i);
          return None;
        }
        text := WriteLines(lines, seg.copyStart, end);
      }
      assert Rebuilt(lines, segs[..i + 1]) == Some(output + text) by {
        assert segs[..i + 1] == segs[..i] + [seg];
        RebuiltSnoc(lines, segs[..i], seg);
      }
      output := output + text;
      i := i + 1;
    }
    assert segs[..i] == segs;
    r := Some(output);
  }

  // ---------------------------------------------------------------- building

  type Key = (string, string, string)

  function KeyAt(lines: seq<string>, i: nat): Key
    requires i + MINIMUM_COPY_LINES <= |lines|
  {
    (lines[i], lines[i + 1], lines[i + 2])
  }

  /** Where each run of three lines starts in the previous frame, at most 64 places a run. */
  ghost predicate Indexed(matches: map<Key, seq<nat>>, lines: seq<string>) {
    forall key, c :: key in matches && 0 <= c < |matches[key]| ==>
      matches[key][c] + MINIMUM_COPY_LINES <= |lines| && KeyAt(lines, matches[key][c]) == key
  }

  method Index(lines: seq<string>) returns (matches: map<Key, seq<nat>>)
    ensures Indexed(matches, lines)
  {
    matches := map[];
    var i := 0;
    while i + MINIMUM_COPY_LINES <= |lines|
      invariant Indexed(matches, lines)
    {
      var key := KeyAt(lines, i);
      var places := if key in matches then matches[key] else [];
      if |places| < MAX_CANDIDATES {
        matches := matches[key := places + [i]];
      }
      i := i + 1;
    }
  }

  /** `n` lines from `p` on in the previous frame are those from `c` on in the current one. */
  ghost predicate SameRun(previous: seq<string>, current: seq<string>, p: nat, c: nat, n: nat) {
    p + n <= |previous| && c + n <= |current| && previous[p..p + n] == current[c..c + n]
  }

  lemma RunAgrees(previous: seq<string>, current: seq<string>, p: nat, c: nat, n: nat, k: nat)
    requires SameRun(previous, current, p, c, n) && k < n
    ensures previous[p + k] == current[c + k]
  {
    assert previous[p..p + n][k] == current[c..c + n][k];
  }

  /** `matchingLines`: the run cannot be extended. */
  method MatchingLines(previous: seq<string>, current: seq<string>, p: nat, c: nat) returns (matched: nat)
    requires p <= |previous| && c <= |current|
    ensures p + matched <= |previous| && c + matched <= |current|
    ensures previous[p..p + matched] == current[c..c + matched]
    ensures forall n: nat :: SameRun(previous, current, p, c, n) ==> n <= matched
  {
    matched := 0;
    while p + matched < |previous| && c + matched < |current| && previous[p + matched] == current[c + matched]
      invariant p + matched <= |previous| && c + matched <= |current|
      invariant previous[p..p + matched] == current[c..c + matched]
    {
      assert previous[p..p + matched + 1] == previous[p..p + matched] + [previous[p + matched]];
      assert current[c..c + matched + 1] == current[c..c + matched] + [current[c + matched]];
      matched := matched + 1;
    }
    forall n: nat | SameRun(previous, current, p, c, n)
      ensures n <= matched
    {
      if n > matched {
        RunAgrees(previous, current, p, c, n, matched);
      }
    }
  }

  /** The longest run among the candidates. */
  method Best(previous: seq<string>, current: seq<string>, places: seq<nat>, c: nat) returns (start: nat, lines: nat)
    requires c <= |current| && forall k :: 0 <= k < |places| ==> places[k] <= |previous|
    ensures start + lines <= |previous| && c + lines <= |current|
    ensures previous[start..start + lines] == current[c..c + lines]
    ensures forall k, n: nat :: 0 <= k < |places| && SameRun(previous, current, places[k], c, n) ==> n <= lines
  {
    start, lines := 0, 0;
    var k := 0;
    while k < |places|
      invariant 0 <= k <= |places| && start + lines <= |previous| && c + lines <= |current|
      invariant previous[start..start + lines] == current[c..c + lines]
      invariant forall l, n: nat :: 0 <= l < k && SameRun(previous, current, places[l], c, n) ==> n <= lines
    {
      var matched := MatchingLines(previous, current, places[k], c);
      if matched > lines {
        start, lines := places[k], matched;
      }
      k := k + 1;
    }
  }

  method Longest(matches: map<Key, seq<nat>>, previous: seq<string>, current: seq<string>, i: nat) returns (start: nat, lines: nat)
    requires i + MINIMUM_COPY_LINES <= |current| && Indexed(matches, previous)
    ensures start + lines <= |previous| && i + lines <= |current|
    ensures previous[start..start + lines] == current[i..i + lines]
  {
    var key := KeyAt(current, i);
    var places := if key in matches then matches[key] else [];
    start, lines := Best(previous, current, places, i);
  }

  /** The segments so far, and the lines up to `end` that none of them covers yet. */
  method FlushLiteral(segs: seq<Segment>, current: seq<string>, from: nat, end: nat, ghost previous: seq<string>)
    returns (flushed: seq<Segment>)
    requires from <= end <= |current| && Rebuilt(previous, segs) == Some(Join(current[..from]))
    requires CopiesAreLong(segs)
    ensures Rebuilt(previous, flushed) == Some(Join(current[..end])) && CopiesAreLong(flushed)
  {
    if end <= from {
      return segs;
    }
    var literal := Segment(0, 0, Join(current[from..end]));
    RebuiltSnoc(previous, segs, literal);
    JoinRun(current, from, end);
    flushed := segs + [literal];
  }

  /** No copy is shorter than three lines. */
  ghost predicate CopiesAreLong(segs: seq<Segment>) {
    forall i :: 0 <= i < |segs| ==> segs[i].copyLines == 0 || segs[i].copyLines >= MINIMUM_COPY_LINES
  }

  lemma CopyText(lines: seq<string>, copy: Segment)
    requires copy.copyLines > 0 && InRange(lines, copy)
    ensures Text(lines, copy) == Join(lines[copy.copyStart..copy.copyStart + copy.copyLines])
  {
  }

  lemma CopyRun(segs: seq<Segment>, previous: seq<string>, current: seq<string>, start: nat, at: nat, lines: nat)
    requires start + lines <= |previous| && at + lines <= |current| && lines >= MINIMUM_COPY_LINES && CopiesAreLong(segs)
    requires previous[start..start + lines] == current[at..at + lines]
    requires Rebuilt(previous, segs) == Some(Join(current[..at]))
    ensures Rebuilt(previous, segs + [Segment(start, lines, "")]) == Some(Join(current[..at + lines]))
    ensures CopiesAreLong(segs + [Segment(start, lines, "")])
  {
    hide Rebuilt, Join, Text;
    var copy := Segment(start, lines, "");
    var a, b, whole := Join(current[..at]), Join(current[at..at + lines]), Join(current[..at + lines]);
    assert whole == a + b by { JoinRun(current, at, at + lines); }
    assert Text(previous, copy) == b by { CopyText(previous, copy); }
    assert Rebuilt(previous, segs + [copy]) == Some(a + b) by { RebuiltSnoc(previous, segs, copy); }
  }

  /** The literal before a run, then the run. */
  method AddCopy(segs: seq<Segment>, current: seq<string>, from: nat, at: nat, start: nat, lines: nat, ghost previous: seq<string>)
    returns (longer: seq<Segment>)
    requires from <= at && start + lines <= |previous| && at + lines <= |current| && lines >= MINIMUM_COPY_LINES
    requires previous[start..start + lines] == current[at..at + lines]
    requires Rebuilt(previous, segs) == Some(Join(current[..from])) && CopiesAreLong(segs)
    ensures Rebuilt(previous, longer) == Some(Join(current[..at + lines])) && CopiesAreLong(longer)
  {
    hide Rebuilt, Join, CopiesAreLong;
    longer := FlushLiteral(segs, current, from, at, previous);
    CopyRun(longer, previous, current, start, at, lines);
    longer := longer + [Segment(start, lines, "")];
  }

  /** `Build`: the segments rebuild the current frame exactly from the previous one. */
  method Build(previous: string, current: string) returns (segs: seq<Segment>)
    ensures Rebuilt(SplitAfter(previous), segs) == Some(current)
    ensures CopiesAreLong(segs)
  {
    var previousLines, currentLines := SplitAfter(previous), SplitAfter(current);
    LinesRejoin(current);
    assert Rebuilt(previousLines, []) == Some(Join(currentLines[..0]));
    assert CopiesAreLong([]);
    hide Rebuilt, Join, SplitAfter, Indexed, CopiesAreLong;
    var matches := Index(previousLines);
    segs := [];
    var literalStart, i := 0, 0;
    while i < |currentLines|
      invariant 0 <= literalStart <= i <= |currentLines|
      invariant Rebuilt(previousLines, segs) == Some(Join(currentLines[..literalStart])) && CopiesAreLong(segs)
    {
      if i + MINIMUM_COPY_LINES > |currentLines| {
        break;
      }
      var bestStart, bestLines := Longest(matches, previousLines, currentLines, i);
      if bestLines < MINIMUM_COPY_LINES {
        i := i + 1;
      } else {
        segs := AddCopy(segs, currentLines, literalStart, i, bestStart, bestLines, previousLines);
        i := i + bestLines;
        literalStart := i;
      }
    }
    segs := FlushLiteral(segs, currentLines, literalStart, |currentLines|, previousLines);
    assert currentLines[..|currentLines|] == currentLines;
  }

  lemma WholeRun(lines: seq<string>)
    requires lines != []
    ensures Rebuilt(lines, [Segment(0, |lines|, "")]) == Some(Join(lines))
  {
    var copy := Segment(0, |lines|, "");
    assert [] + [copy] == [copy] && lines[0..|lines|] == lines;
    RebuiltSnoc(lines, [], copy);
    assert Rebuilt(lines, []) == Some("") && "" + Join(lines) == Join(lines);
  }

  /** A delta that changes nothing: one copy of the whole frame. */
  lemma WholeCopy(content: string)
    ensures Rebuilt(SplitAfter(content), [Segment(0, Newlines(content) + 1, "")]) == Some(content)
  {
    LinesRejoin(content);
    var lines := SplitAfter(content);
    hide SplitAfter, Newlines, Rebuilt, Join;
    WholeRun(lines);
  }

  function LiteralBytes(segs: seq<Segment>): nat {
    if segs == [] then 0 else LiteralBytes(segs[..|segs| - 1]) + |segs[|segs| - 1].text|
  }

  /** `Efficient`: the delta is worth sending. */
  method Efficient(segs: seq<Segment>, current: string) returns (worth: bool)
    ensures worth <==> LiteralBytes(segs) + |segs| * 64 < |current| * 3 / 4
  {
    var literal := 0;
    var i := 0;
    while i < |segs|
      invariant 0 <= i <= |segs| && literal == LiteralBytes(segs[..i])
    {
      assert segs[..i + 1][..i] == segs[..i];
      literal := literal + |segs[i].text|;
      i := i + 1;
    }
    assert segs[..i] == segs;
    worth := literal + |segs| * 64 < |current| * 3 / 4;
  }
}
