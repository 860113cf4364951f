/** Chunk framing: a logical frame travels as chunks `[version][flags][payload]`, the first of which
    begins its payload with the frame's length, and the reassembler puts it together again. */
module Framing {
  newtype byte = x: int | 0 <= x < 256

  const VERSION: byte := 1
  const HEADER_SIZE: nat := 2
  const LENGTH_PREFIX_SIZE: nat := 4
  const MAX_LOGICAL_BYTES: nat := 21 * 1024 * 1024
  const UINT32: nat := 0x1_0000_0000

  // ---------------------------------------------------------------- chunks

  /** A 32-bit length, most significant byte first. */
  function Uint32(n: nat): (bytes: seq<byte>)
    ensures |bytes| == 4
  {
    [(n / 256 / 256 / 256 % 256) as byte, (n / 256 / 256 % 256) as byte, (n / 256 % 256) as byte, (n % 256) as byte]
  }

  function FromUint32(b: seq<byte>): nat
    requires |b| >= 4
  {
    ((b[0] as nat * 256 + b[1] as nat) * 256 + b[2] as nat) * 256 + b[3] as nat
  }

  lemma LengthSurvives(n: nat, rest: seq<byte>)
    requires n < UINT32
    ensures FromUint32(Uint32(n) + rest) == n
  {
    var b := Uint32(n);
    var q := n / 256;
    var p := q / 256;
    assert n == q * 256 + n % 256 && q == p * 256 + q % 256 && p == (p / 256) * 256 + p % 256 && p / 256 < 256;
    assert (b + rest)[0] == b[0] && (b + rest)[1] == b[1] && (b + rest)[2] == b[2] && (b + rest)[3] == b[3];
  }

  function Flags(start: bool, end: bool): byte {
    (if start then 1 else 0) + (if end then 2 else 0)
  }

  function Header(start: bool, end: bool): seq<byte> {
    [VERSION, Flags(start, end)]
  }

  /** `Count`. */
  function Count(n: nat, maxChunk: int): int
    requires maxChunk > HEADER_SIZE + LENGTH_PREFIX_SIZE
  {
    var start := maxChunk - HEADER_SIZE - LENGTH_PREFIX_SIZE;
    if n <= start then 1
    else
      var cont := maxChunk - HEADER_SIZE;
      1 + (n - start + cont - 1) / cont
  }

  /** The chunks after the first: `cont` bytes each and whatever is left in the last. */
  function Continuations(rest: seq<byte>, cont: nat): (parts: seq<seq<byte>>)
    requires cont > 0
    decreases |rest|
  {
    if rest == [] then []
    else if |rest| <= cont then [Header(false, true) + rest]
    else [Header(false, false) + rest[..cont]] + Continuations(rest[cont..], cont)
  }

  /** The chunks of one logical frame. */
  function Chunked(logical: seq<byte>, maxChunk: int): (parts: seq<seq<byte>>)
    requires maxChunk > HEADER_SIZE + LENGTH_PREFIX_SIZE
    ensures parts != []
  {
    var start := maxChunk - HEADER_SIZE - LENGTH_PREFIX_SIZE;
    if |logical| <= start then [Header(true, true) + Uint32(|logical| % UINT32) + logical]
    else
      [Header(true, false) + Uint32(|logical| % UINT32) + logical[..start]] +
      Continuations(logical[start..], maxChunk - HEADER_SIZE)
  }

  lemma CeilDown(m: nat, cont: nat)
    requires m > cont > 0
    ensures (m + cont - 1) / cont == 1 + (m - cont + cont - 1) / cont
  {
    assert m + cont - 1 == cont + (m - 1);
    DivAdd(m - 1, cont);
  }

  lemma DivAdd(a: nat, d: nat)
    requires d > 0
    ensures (a + d) / d == a / d + 1
  {
    var q := a / d;
    assert a == q * d + a % d;
    assert a + d == (q + 1) * d + a % d;
    DivUnique(a + d, d, q + 1, a % d);
  }

  lemma DivUnique(n: nat, d: nat, q: nat, r: nat)
    requires d > 0 && r < d && n == q * d + r
    ensures n / d == q
  {
    var k := n / d;
    if k < q {
      MulGap(k, q, d);
    } else if q < k {
      MulGap(q, k, d);
    }
  }

  lemma {:induction false} MulGap(a: nat, b: nat, d: nat)
    requires a < b
    ensures a * d + d <= b * d
    decreases b
  {
    if b == a + 1 {
      assert (a + 1) * d == a * d + d;
    } else {
      MulGap(a, b - 1, d);
      assert b * d == (b - 1) * d + d;
    }
  }

  lemma {:induction false} ContinuationsFit(rest: seq<byte>, cont: nat)
    requires cont > 0
    ensures |Continuations(rest, cont)| == (|rest| + cont - 1) / cont
    ensures forall i :: 0 <= i < |Continuations(rest, cont)| ==> |Continuations(rest, cont)[i]| <= cont + HEADER_SIZE
    decreases |rest|
  {
    if rest == [] {
      DivUnique(cont - 1, cont, 0, cont - 1);
    } else if |rest| <= cont {
      DivUnique(|rest| + cont - 1, cont, 1, |rest| - 1);
    } else {
      ContinuationsFit(rest[cont..], cont);
      CeilDown(|rest|, cont);
    }
  }

  /** A frame takes exactly `Count` chunks, each within the limit. */
  lemma ChunksFit(logical: seq<byte>, maxChunk: int)
    requires maxChunk > HEADER_SIZE + LENGTH_PREFIX_SIZE
    ensures |Chunked(logical, maxChunk)| == Count(|logical|, maxChunk)
    ensures forall i :: 0 <= i < |Chunked(logical, maxChunk)| ==> |Chunked(logical, maxChunk)[i]| <= maxChunk
  {
    var start := maxChunk - HEADER_SIZE - LENGTH_PREFIX_SIZE;
    if |logical| > start {
      ContinuationsFit(logical[start..], maxChunk - HEADER_SIZE);
    }
  }

  // ---------------------------------------------------------------- reassembly

  datatype Assembly = Assembly(buf: seq<byte>, want: nat, active: bool)

  datatype Error = ChunkSize | Malformed | Sequence | TooLarge

  datatype Outcome = Incomplete | Frame(bytes: seq<byte>) | Failed(why: Error)

  const Idle: Assembly := Assembly([], 0, false)

  predicate WellFormed(part: seq<byte>, maxChunk: int) {
    HEADER_SIZE <= |part| <= maxChunk && part[0] == VERSION && part[1] < 4
  }

  predicate Starts(part: seq<byte>) {
    |part| >= HEADER_SIZE && part[1] % 2 == 1
  }

  predicate Ends(part: seq<byte>) {
    |part| >= HEADER_SIZE && part[1] / 2 % 2 == 1
  }

  /** The length a START chunk declares. */
  function Declared(part: seq<byte>): nat
    requires |part| >= HEADER_SIZE + LENGTH_PREFIX_SIZE
  {
    FromUint32(part[HEADER_SIZE..])
  }

  /** The last part of `Push`: an END chunk closes the frame if it is complete. */
  function Closed(a: Assembly, end: bool): (Assembly, Outcome) {
    if !end then (a, Incomplete)
    else if |a.buf| != a.want then (a, Failed(Malformed))
    else (Idle, Frame(a.buf))
  }

  /** `Push`. */
  function Pushed(a: Assembly, maxChunk: int, part: seq<byte>): (Assembly, Outcome) {
    if maxChunk <= HEADER_SIZE + LENGTH_PREFIX_SIZE then (a, Failed(ChunkSize))
    else if !WellFormed(part, maxChunk) then (a, Failed(Malformed))
    else if Starts(part) then
      if a.active then (a, Failed(Sequence))
      else if |part| < HEADER_SIZE + LENGTH_PREFIX_SIZE then (a, Failed(Malformed))
      else if Declared(part) > MAX_LOGICAL_BYTES then (a, Failed(TooLarge))
      else
        var body := part[HEADER_SIZE + LENGTH_PREFIX_SIZE..];
        if |body| > Declared(part) then (a.(want := Declared(part)), Failed(Malformed))
        else Closed(Assembly(body, Declared(part), true), Ends(part))
    else if !a.active then (a, Failed(Sequence))
    else if |a.buf| + |part[HEADER_SIZE..]| > a.want then (a, Failed(Malformed))
    else Closed(a.(buf := a.buf + part[HEADER_SIZE..]), Ends(part))
  }

  function After(a: Assembly, maxChunk: int, parts: seq<seq<byte>>): Assembly
    decreases |parts|
  {
    if parts == [] then a else After(Pushed(a, maxChunk, parts[0]).0, maxChunk, parts[1..])
  }

  function Outcomes(a: Assembly, maxChunk: int, parts: seq<seq<byte>>): (r: seq<Outcome>)
    ensures |r| == |parts|
    decreases |parts|
  {
    if parts == [] then []
    else [Pushed(a, maxChunk, parts[0]).1] + Outcomes(Pushed(a, maxChunk, parts[0]).0, maxChunk, parts[1..])
  }

  // ---------------------------------------------------------------- round trip

  lemma PushContinuation(a: Assembly, maxChunk: int, body: seq<byte>, end: bool)
    requires maxChunk > HEADER_SIZE + LENGTH_PREFIX_SIZE && HEADER_SIZE + |body| <= maxChunk
    requires a.active && |a.buf| + |body| <= a.want && (end ==> |a.buf| + |body| == a.want)
    ensures Pushed(a, maxChunk, Header(false, end) + body) ==
      if end then (Idle, Frame(a.buf + body)) else (a.(buf := a.buf + body), Incomplete)
  {
    var part := Header(false, end) + body;
    assert part[HEADER_SIZE..] == body;
  }

  /** The outcomes of a frame of `n` chunks: nothing until the last one. */
  function Delivered(n: nat, logical: seq<byte>): (r: seq<Outcome>)
    requires n > 0
    ensures |r| == n
  {
    seq(n, i => if i < n - 1 then Incomplete else Frame(logical))
  }

  lemma DeliveredLater(n: nat, logical: seq<byte>)
    requires n > 0
    ensures Delivered(n + 1, logical) == [Incomplete] + Delivered(n, logical) && Delivered(1, logical) == [Frame(logical)]
  {
  }

  lemma OutcomesCons(a: Assembly, maxChunk: int, part: seq<byte>, rest: seq<seq<byte>>)
    ensures After(a, maxChunk, [part] + rest) == After(Pushed(a, maxChunk, part).0, maxChunk, rest)
    ensures Outcomes(a, maxChunk, [part] + rest) ==
      [Pushed(a, maxChunk, part).1] + Outcomes(Pushed(a, maxChunk, part).0, maxChunk, rest)
    ensures After(a, maxChunk, []) == a && Outcomes(a, maxChunk, []) == []
  {
    hide Pushed;
    assert ([part] + rest)[1..] == rest && ([part] + rest)[0] == part;
  }

  lemma {:induction false} PushContinuations(a: Assembly, maxChunk: int, rest: seq<byte>)
    requires maxChunk > HEADER_SIZE + LENGTH_PREFIX_SIZE && rest != []
    requires a.active && |a.buf| + |rest| == a.want
    ensures var parts := Continuations(rest, maxChunk - HEADER_SIZE);
      && parts != [] && After(a, maxChunk, parts) == Idle
      && Outcomes(a, maxChunk, parts) == Delivered(|parts|, a.buf + rest)
    decreases |rest|
  {
    hide Pushed, After, Outcomes, Delivered;
    var cont := maxChunk - HEADER_SIZE;
    if |rest| <= cont {
      PushContinuation(a, maxChunk, rest, true);
      OutcomesCons(a, maxChunk, Header(false, true) + rest, []);
      OutcomesCons(Idle, maxChunk, [], []);
      DeliveredLater(1, a.buf + rest);
      assert [Header(false, true) + rest] + [] == [Header(false, true) + rest];
    } else {
      PushContinuation(a, maxChunk, rest[..cont], false);
      var next := a.(buf := a.buf + rest[..cont]);
      var later := Continuations(rest[cont..], cont);
      PushContinuations(next, maxChunk, rest[cont..]);
      assert next.buf + rest[cont..] == a.buf + rest;
      OutcomesCons(a, maxChunk, Header(false, false) + rest[..cont], later);
      DeliveredLater(|later|, a.buf + rest);
    }
  }

  lemma PushStart(a: Assembly, maxChunk: int, n: nat, body: seq<byte>, end: bool)
    requires maxChunk > HEADER_SIZE + LENGTH_PREFIX_SIZE && HEADER_SIZE + LENGTH_PREFIX_SIZE + |body| <= maxChunk
    requires !a.active && |body| <= n <= MAX_LOGICAL_BYTES && (end ==> |body| == n)
    ensures Pushed(a, maxChunk, Header(true, end) + Uint32(n % UINT32) + body) ==
      if end then (Idle, Frame(body)) else (Assembly(body, n, true), Incomplete)
  {
    var part := Header(true, end) + Uint32(n % UINT32) + body;
    assert part[HEADER_SIZE..] == Uint32(n) + body;
    assert part[HEADER_SIZE + LENGTH_PREFIX_SIZE..] == body;
    LengthSurvives(n, body);
    hide FromUint32, Uint32;
  }

  /** Pushing the chunks of one frame yields nothing until the END chunk and then exactly that frame,
      and leaves the reassembler idle. */
  lemma OneFrame(a: Assembly, maxChunk: int, logical: seq<byte>)
    requires maxChunk > HEADER_SIZE + LENGTH_PREFIX_SIZE && !a.active && |logical| <= MAX_LOGICAL_BYTES
    ensures var parts := Chunked(logical, maxChunk);
      After(a, maxChunk, parts) == Idle && Outcomes(a, maxChunk, parts) == Delivered(|parts|, logical)
  {
    hide Pushed, After, Outcomes, Delivered, Uint32, Header, Continuations;
    var start := maxChunk - HEADER_SIZE - LENGTH_PREFIX_SIZE;
    var prefix := Uint32(|logical| % UINT32);
    if |logical| <= start {
      var only := Header(true, true) + prefix + logical;
      PushStart(a, maxChunk, |logical|, logical, true);
      OutcomesCons(a, maxChunk, only, []);
      OutcomesCons(Idle, maxChunk, [], []);
      DeliveredLater(1, logical);
      assert [only] + [] == [only];
    } else {
      PushStart(a, maxChunk, |logical|, logical[..start], false);
      var begun := Assembly(logical[..start], |logical|, true);
      var later := Continuations(logical[start..], maxChunk - HEADER_SIZE);
      PushContinuations(begun, maxChunk, logical[start..]);
      assert begun.buf + logical[start..] == logical;
      OutcomesCons(a, maxChunk, Header(true, false) + prefix + logical[..start], later);
      DeliveredLater(|later|, logical);
    }
  }

  lemma {:induction false} PushBoth(a: Assembly, maxChunk: int, p: seq<seq<byte>>, q: seq<seq<byte>>)
    ensures After(a, maxChunk, p + q) == After(After(a, maxChunk, p), maxChunk, q)
    ensures Outcomes(a, maxChunk, p + q) == Outcomes(a, maxChunk, p) + Outcomes(After(a, maxChunk, p), maxChunk, q)
    decreases |p|
  {
    hide Pushed;
    if p == [] {
      assert p + q == q;
    } else {
      PushBoth(Pushed(a, maxChunk, p[0]).0, maxChunk, p[1..], q);
      assert (p + q)[1..] == p[1..] + q && (p + q)[0] == p[0];
    }
  }

  function AllChunked(frames: seq<seq<byte>>, maxChunk: int): seq<seq<byte>>
    requires maxChunk > HEADER_SIZE + LENGTH_PREFIX_SIZE
  {
    if frames == [] then [] else Chunked(frames[0], maxChunk) + AllChunked(frames[1..], maxChunk)
  }

  function AllDelivered(frames: seq<seq<byte>>, maxChunk: int): seq<Outcome>
    requires maxChunk > HEADER_SIZE + LENGTH_PREFIX_SIZE
  {
    if frames == [] then []
    else Delivered(|Chunked(frames[0], maxChunk)|, frames[0]) + AllDelivered(frames[1..], maxChunk)
  }

  /** Any sequence of frames up to 21 MiB comes through, each at its own END chunk. */
  lemma {:induction false} RoundTrip(maxChunk: int, frames: seq<seq<byte>>)
    requires maxChunk > HEADER_SIZE + LENGTH_PREFIX_SIZE
    requires forall i :: 0 <= i < |frames| ==> |frames[i]| <= MAX_LOGICAL_BYTES
    ensures After(Idle, maxChunk, AllChunked(frames, maxChunk)) == Idle
    ensures Outcomes(Idle, maxChunk, AllChunked(frames, maxChunk)) == AllDelivered(frames, maxChunk)
  {
    hide Pushed, Chunked, Delivered;
    if frames != [] {
      OneFrame(Idle, maxChunk, frames[0]);
      RoundTrip(maxChunk, frames[1..]);
      PushBoth(Idle, maxChunk, Chunked(frames[0], maxChunk), AllChunked(frames[1..], maxChunk));
    }
  }

  // ---------------------------------------------------------------- arbitrary input

  /** The state after the first `n` chunks. */
  function Upon(maxChunk: int, parts: seq<seq<byte>>, n: nat): Assembly
    requires n <= |parts|
  {
    After(Idle, maxChunk, parts[..n])
  }

  lemma UponNext(maxChunk: int, parts: seq<seq<byte>>, n: nat)
    requires n < |parts|
    ensures Upon(maxChunk, parts, n + 1) == Pushed(Upon(maxChunk, parts, n), maxChunk, parts[n]).0
    ensures Outcomes(Idle, maxChunk, parts)[n] == Pushed(Upon(maxChunk, parts, n), maxChunk, parts[n]).1
  {
    hide Pushed;
    assert parts[..n + 1] == parts[..n] + [parts[n]];
    PushBoth(Idle, maxChunk, parts[..n], [parts[n]]);
    assert After(Upon(maxChunk, parts, n), maxChunk, [parts[n]]) == Pushed(Upon(maxChunk, parts, n), maxChunk, parts[n]).0 by {
      assert [parts[n]][1..] == [];
    }
    OutcomeAt(Idle, maxChunk, parts, n);
  }

  ghost predicate Announces(part: seq<byte>, n: nat) {
    Starts(part) && |part| >= HEADER_SIZE + LENGTH_PREFIX_SIZE && Declared(part) == n
  }

  /** The chunk's body goes into the frame: it is in sequence and within the declared length. */
  predicate Accepts(a: Assembly, maxChunk: int, part: seq<byte>) {
    && maxChunk > HEADER_SIZE + LENGTH_PREFIX_SIZE && WellFormed(part, maxChunk)
    && if Starts(part) then
         && !a.active && |part| >= HEADER_SIZE + LENGTH_PREFIX_SIZE && Declared(part) <= MAX_LOGICAL_BYTES
         && |part| - HEADER_SIZE - LENGTH_PREFIX_SIZE <= Declared(part)
       else a.active && |a.buf| + |part| - HEADER_SIZE <= a.want
  }

  /** What a chunk adds to the frame. */
  function Adds(a: Assembly, maxChunk: int, part: seq<byte>): seq<byte> {
    if !Accepts(a, maxChunk, part) then []
    else if Starts(part) then part[HEADER_SIZE + LENGTH_PREFIX_SIZE..] else part[HEADER_SIZE..]
  }

  /** The bodies accepted among the chunks from `j` up to, not including, `n`. */
  function Collected(maxChunk: int, parts: seq<seq<byte>>, j: nat, n: nat): seq<byte>
    requires n <= |parts|
  {
    if n <= j then [] else Collected(maxChunk, parts, j, n - 1) + Adds(Upon(maxChunk, parts, n - 1), maxChunk, parts[n - 1])
  }

  /** The frame that chunk `j` began is under way from there through chunk `n - 1`. */
  ghost predicate Began(maxChunk: int, parts: seq<seq<byte>>, j: nat, n: nat) {
    && j < n <= |parts| && !Upon(maxChunk, parts, j).active
    && forall k :: j < k < n ==> Upon(maxChunk, parts, k).active
  }

  /** What is under way after `n` chunks: begun by chunk `j`, of the length that one declared, and made
      of the bodies accepted since. */
  ghost predicate Origin(maxChunk: int, parts: seq<seq<byte>>, j: nat, n: nat, a: Assembly) {
    Began(maxChunk, parts, j, n) && Announces(parts[j], a.want) && a.buf == Collected(maxChunk, parts, j, n)
  }

  /** Pushing to a frame under way. */
  lemma PushOn(a: Assembly, maxChunk: int, part: seq<byte>)
    requires a.active
    ensures var (b, outcome) := Pushed(a, maxChunk, part);
      && (b.active ==> b.want == a.want && b.buf == a.buf + Adds(a, maxChunk, part))
      && (outcome.Frame? ==> outcome.bytes == a.buf + Adds(a, maxChunk, part) && |outcome.bytes| == a.want)
  {
    hide FromUint32;
    assert a.buf + [] == a.buf;
  }

  /** Pushing to an idle reassembler. */
  lemma PushFirst(a: Assembly, maxChunk: int, part: seq<byte>)
    requires !a.active
    ensures var (b, outcome) := Pushed(a, maxChunk, part);
      && (b.active ==> Announces(part, b.want) && b.buf == Adds(a, maxChunk, part))
      && (outcome.Frame? ==> outcome.bytes == Adds(a, maxChunk, part) && Announces(part, |outcome.bytes|))
  {
    hide FromUint32;
  }

  lemma CollectedNext(maxChunk: int, parts: seq<seq<byte>>, j: nat, n: nat)
    requires j <= n < |parts|
    ensures Collected(maxChunk, parts, j, n + 1) ==
      Collected(maxChunk, parts, j, n) + Adds(Upon(maxChunk, parts, n), maxChunk, parts[n])
    ensures Collected(maxChunk, parts, n, n + 1) == Adds(Upon(maxChunk, parts, n), maxChunk, parts[n])
  {
    hide Adds, Upon;
    assert Collected(maxChunk, parts, n, n) == [];
  }

  lemma {:induction false} OriginOf(maxChunk: int, parts: seq<seq<byte>>, n: nat) returns (j: nat)
    requires n <= |parts| && Upon(maxChunk, parts, n).active
    ensures Origin(maxChunk, parts, j, n, Upon(maxChunk, parts, n))
    decreases n
  {
    hide Pushed, Adds, Collected, After;
    NothingPushed(maxChunk, parts);
    if n > 0 {
      var a, part := Upon(maxChunk, parts, n - 1), parts[n - 1];
      UponNext(maxChunk, parts, n - 1);
      hide Upon;
      if a.active {
        j := OriginOf(maxChunk, parts, n - 1);
        PushOn(a, maxChunk, part);
        CollectedNext(maxChunk, parts, j, n - 1);
      } else {
        j := n - 1;
        PushFirst(a, maxChunk, part);
        CollectedNext(maxChunk, parts, j, n - 1);
      }
    }
  }

  lemma NothingPushed(maxChunk: int, parts: seq<seq<byte>>)
    ensures Upon(maxChunk, parts, 0) == Idle
  {
    assert parts[..0] == [];
  }

  /** Chunk `j` began the frame that chunk `i` ended: it declared the frame's length, the reassembler
      was idle before it and busy from there to `i`, and the frame is made of the bodies accepted from
      `j` to `i`. */
  ghost predicate Assembled(maxChunk: int, parts: seq<seq<byte>>, j: nat, i: nat, bytes: seq<byte>) {
    && j <= i < |parts| && Began(maxChunk, parts, j, i + 1)
    && Announces(parts[j], |bytes|) && bytes == Collected(maxChunk, parts, j, i + 1)
  }

  /** Whatever chunks arrive, a frame that comes out has exactly the length its own START chunk declared
      and exactly the bodies accepted since. */
  lemma FrameHasDeclaredLength(maxChunk: int, parts: seq<seq<byte>>, i: nat)
    requires i < |parts| && Outcomes(Idle, maxChunk, parts)[i].Frame?
    ensures exists j :: 0 <= j <= i && Assembled(maxChunk, parts, j, i, Outcomes(Idle, maxChunk, parts)[i].bytes)
  {
    var a, part := Upon(maxChunk, parts, i), parts[i];
    UponNext(maxChunk, parts, i);
    hide Pushed, Adds, Collected, After, Upon, Outcomes;
    var j: nat;
    if a.active {
      j := OriginOf(maxChunk, parts, i);
      PushOn(a, maxChunk, part);
      CollectedNext(maxChunk, parts, j, i);
    } else {
      j := i;
      PushFirst(a, maxChunk, part);
      CollectedNext(maxChunk, parts, j, i);
    }
    assert Assembled(maxChunk, parts, j, i, Outcomes(Idle, maxChunk, parts)[i].bytes);
  }

  lemma OutcomeAt(a: Assembly, maxChunk: int, parts: seq<seq<byte>>, i: nat)
    requires i < |parts|
    ensures Outcomes(a, maxChunk, parts)[i] == Pushed(After(a, maxChunk, parts[..i]), maxChunk, parts[i]).1
  {
    assert parts == parts[..i] + parts[i..];
    PushBoth(a, maxChunk, parts[..i], parts[i..]);
    hide Pushed;
  }

  // ---------------------------------------------------------------- as the source runs it

  lemma ContinuationSnoc(rest: seq<byte>, cont: nat)
    requires cont > 0 && rest != []
    ensures var body := if |rest| < cont then |rest| else cont;
      Continuations(rest, cont) == [Header(false, |rest| <= cont) + rest[..body]] + Continuations(rest[body..], cont)
  {
    if |rest| <= cont {
      assert rest[..|rest|] == rest && rest[|rest|..] == [];
    }
  }

  /** The rest of a frame, of which `count` chunks are still to come. */
  method ChunkRest(dst: seq<seq<byte>>, rest: seq<byte>, contBody: nat, count: nat) returns (parts: seq<seq<byte>>)
    requires contBody > 0 && count == |Continuations(rest, contBody)|
    ensures parts == dst + Continuations(rest, contBody)
  {
    hide Continuations, Header;
    parts := dst;
    var remaining := rest;
    var index := 0;
    while index < count
      invariant 0 <= index <= count
      invariant |Continuations(remaining, contBody)| == count - index
      invariant parts + Continuations(remaining, contBody) == dst + Continuations(rest, contBody)
    {
      assert remaining != [] by { NoneLeft(contBody); }
      var body := if contBody > |remaining| then |remaining| else contBody;
      ContinuationSnoc(remaining, contBody);
      LastOne(remaining, contBody, count - index);
      parts := parts + [Header(false, index == count - 1) + remaining[..body]];
      remaining := remaining[body..];
      index := index + 1;
    }
    assert Continuations(remaining, contBody) == [];
  }

  /** `Chunk`: the chunks of the frame after those already in `dst`. */
  method Chunk(dst: seq<seq<byte>>, logical: seq<byte>, maxChunk: int) returns (parts: seq<seq<byte>>)
    requires maxChunk > HEADER_SIZE + LENGTH_PREFIX_SIZE
    ensures parts == dst + Chunked(logical, maxChunk)
  {
    var startBody := maxChunk - HEADER_SIZE - LENGTH_PREFIX_SIZE;
    var count := Count(|logical|, maxChunk);
    ChunksFit(logical, maxChunk);
    FirstChunk(logical, maxChunk);
    var body := if startBody > |logical| then |logical| else startBody;
    hide Chunked, Continuations, Header, Uint32, Count;
    var first := Header(true, count == 1) + Uint32(|logical| % UINT32) + logical[..body];
    parts := ChunkRest(dst + [first], logical[body..], maxChunk - HEADER_SIZE, count - 1);
    Regroup(dst, [first], Continuations(logical[body..], maxChunk - HEADER_SIZE));
  }

  lemma Regroup(a: seq<seq<byte>>, b: seq<seq<byte>>, c: seq<seq<byte>>)
    ensures a + b + c == a + (b + c)
  {
  }

  lemma NoneLeft(cont: nat)
    requires cont > 0
    ensures Continuations([], cont) == []
  {
  }

  lemma LastOne(rest: seq<byte>, cont: nat, n: int)
    requires cont > 0 && rest != [] && |Continuations(rest, cont)| == n
    ensures |rest| <= cont <==> n == 1
  {
    if |rest| > cont {
      ContinuationSnoc(rest, cont);
      ContinuationSnoc(rest[cont..], cont);
    }
  }

  lemma FirstChunk(logical: seq<byte>, maxChunk: int)
    requires maxChunk > HEADER_SIZE + LENGTH_PREFIX_SIZE
    ensures var startBody := maxChunk - HEADER_SIZE - LENGTH_PREFIX_SIZE;
      var body := if startBody > |logical| then |logical| else startBody;
      Chunked(logical, maxChunk) ==
      [Header(true, Count(|logical|, maxChunk) == 1) + Uint32(|logical| % UINT32) + logical[..body]] +
      Continuations(logical[body..], maxChunk - HEADER_SIZE)
  {
    ChunksFit(logical, maxChunk);
    var start := maxChunk - HEADER_SIZE - LENGTH_PREFIX_SIZE;
    if |logical| <= start {
      assert logical[..|logical|] == logical && logical[|logical|..] == [];
    } else {
      ContinuationSnoc(logical[start..], maxChunk - HEADER_SIZE);
    }
  }

  class Reassembler {
    const maxChunk: int
    var buf: seq<byte>
    var want: nat
    var active: bool

    constructor (limit: int)
      ensures maxChunk == limit && View() == Idle
    {
      maxChunk, buf, want, active := limit, [], 0, false;
    }

    function View(): Assembly
      reads this
    {
      Assembly(buf, want, active)
    }

    method Push(part: seq<byte>) returns (r: Outcome)
      modifies this
      ensures (View(), r) == Pushed(old(View()), maxChunk, part)
    {
      if maxChunk <= HEADER_SIZE + LENGTH_PREFIX_SIZE {
        return Failed(ChunkSize);
      }
      if |part| < HEADER_SIZE || |part| > maxChunk || part[0] != VERSION || part[1] > 3 {
        return Failed(Malformed);
      }
      var payload := part[HEADER_SIZE..];
      if Starts(part) {
        if active {
          return Failed(Sequence);
        }
        if |payload| < LENGTH_PREFIX_SIZE {
          return Failed(Malformed);
        }
        var declared := FromUint32(payload);
        if declared > MAX_LOGICAL_BYTES {
          return Failed(TooLarge);
        }
        var body := payload[LENGTH_PREFIX_SIZE..];
        assert body == part[HEADER_SIZE + LENGTH_PREFIX_SIZE..];
        want := declared;
        if |body| > want {
          return Failed(Malformed);
        }
        buf, active := body, true;
      } else {
        if !active {
          return Failed(Sequence);
        }
        if |buf| + |payload| > want {
          return Failed(Malformed);
        }
        buf := buf + payload;
      }
      if !Ends(part) {
        return Incomplete;
      }
      if |buf| != want {
        return Failed(Malformed);
      }
      r := Frame(buf);
      buf, want, active := [], 0, false;
    }

    method Reset()
      modifies this
      ensures View() == Idle
    {
      buf, want, active := [], 0, false;
    }
  }
}
