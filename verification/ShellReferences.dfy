/** What references, escapes and comments in a word mean: any text and references can be written as
    one double-quoted word that reads back to them, in order, and expands as they do; and a comment
    begins exactly at an unquoted number sign after an unescaped blank. */
module ShellReferences {
  import opened Options
  import opened ShellWord
  import opened ShellVariables

  // ---------------------------------------------------------------- one reference

  lemma {:induction false} FindAt(n: string, c: char, rest: string)
    requires forall i :: 0 <= i < |n| ==> n[i] != c
    ensures Find(n + [c] + rest, c) == |n|
  {
    var s := n + [c] + rest;
    assert s[|n|] == c;
    assert forall i :: 0 <= i < |n| ==> s[i] == n[i];
  }

  lemma NameHasNoBrace(n: string)
    requires IsName(n)
    ensures forall i :: 0 <= i < |n| ==> n[i] != '}'
  {
  }

  /** A name in braces is that reference, up to and including the closing brace. */
  lemma BracedReference(n: string, rest: string)
    requires IsName(n)
    ensures ReferenceAt("${" + n + "}" + rest) == Some((n, |n| + 3))
  {
    var s := "${" + n + "}" + rest;
    NameHasNoBrace(n);
    FindAt(n, '}', rest);
    assert s[2..] == n + ['}'] + rest;
    assert s[2..2 + |n|] == n;
  }

  lemma LongestName(n: string, rest: string)
    requires (forall i :: 0 <= i < |n| ==> NamePart(n[i])) && (rest == "" || !NamePart(rest[0]))
    ensures NameLength(n + rest) == |n|
  {
    var s := n + rest;
    assert forall i :: 0 <= i < |n| ==> s[i] == n[i];
    assert rest != "" ==> s[|n|] == rest[0];
  }

  /** A bare name is that reference, as far as name bytes go. */
  lemma BareReference(n: string, rest: string)
    requires IsName(n) && (rest == "" || !NamePart(rest[0]))
    ensures ReferenceAt("$" + n + rest) == Some((n, |n| + 1))
  {
    var s := "$" + n + rest;
    assert s[1] == n[0] && s[2..] == n[1..] + rest;
    assert forall i :: 0 <= i < |n[1..]| ==> NamePart(n[1..][i]);
    LongestName(n[1..], rest);
    assert s[1..1 + |n|] == n;
  }

  /** Every other dollar sign is refused: a reference is a name in braces or a bare name. */
  lemma OnlyReferences(s: string)
    requires s != "" && s[0] == '$' && ReferenceAt(s).Some?
    ensures var (n, length) := ReferenceAt(s).value;
      IsName(n) && length <= |s| && (s[..length] == "${" + n + "}" || s[..length] == "$" + n)
  {
  }

  // ---------------------------------------------------------------- writing a word

  predicate NeedsEscape(c: char) {
    c in {'$', '`', '"', '\\'}
  }

  function WrittenText(t: string): string {
    if t == "" then "" else (if NeedsEscape(t[0]) then ['\\', t[0]] else [t[0]]) + WrittenText(t[1..])
  }

  function WrittenPieces(pieces: seq<Piece>): string {
    if pieces == [] then ""
    else
      (match pieces[0]
       case Text(t) => WrittenText(t)
       case Reference(n) => "${" + n + "}") + WrittenPieces(pieces[1..])
  }

  /** Text and references as one double-quoted word: text escaped, names in braces. */
  function Written(pieces: seq<Piece>): string {
    "\"" + WrittenPieces(pieces) + "\""
  }

  /** The same pieces with every byte of text by itself, as reading yields them. */
  function TextBytes(t: string): seq<Piece> {
    if t == "" then [] else [Text([t[0]])] + TextBytes(t[1..])
  }

  function Bytewise(pieces: seq<Piece>): seq<Piece> {
    if pieces == [] then []
    else (if pieces[0].Text? then TextBytes(pieces[0].text) else [pieces[0]]) + Bytewise(pieces[1..])
  }

  ghost predicate NamesOk(pieces: seq<Piece>) {
    forall i :: 0 <= i < |pieces| && pieces[i].Reference? ==> IsName(pieces[i].name)
  }

  // ---------------------------------------------------------------- reading it back

  lemma ReadPlainByte(c: char, rest: string)
    requires !NeedsEscape(c)
    ensures Read([c] + rest, Double, false) == With(Text([c]), Read(rest, Double, false))
  {
    var s := [c] + rest;
    assert s[0] == c && s[1..] == rest;
  }

  lemma ReadEscapedByte(c: char, rest: string)
    requires NeedsEscape(c)
    ensures Read(['\\', c] + rest, Double, false) == With(Text([c]), Read(rest, Double, false))
  {
    var s := ['\\', c] + rest;
    var u := [c] + rest;
    assert s[0] == '\\' && s[1..] == u && u[0] == c && u[1..] == rest;
    assert Read(s, Double, false) == Read(u, Double, true);
  }

  lemma ReadBraced(n: string, rest: string)
    requires IsName(n)
    ensures Read("${" + n + "}" + rest, Double, false) == With(Reference(n), Read(rest, Double, false))
  {
    var s := "${" + n + "}" + rest;
    BracedReference(n, rest);
    assert s[0] == '$' && s[|n| + 3..] == rest;
    hide ReferenceAt;
  }

  /** Pieces before what the rest of the word reads to. */
  function Before(pieces: seq<Piece>, w: Word): Word {
    w.(pieces := pieces + w.pieces)
  }

  lemma BeforeTwice(a: seq<Piece>, b: seq<Piece>, w: Word)
    ensures Before(a, Before(b, w)) == Before(a + b, w)
  {
    assert a + (b + w.pieces) == a + b + w.pieces;
  }

  lemma Regroup(a: string, b: string, c: string)
    ensures a + b + c == a + (b + c)
  {
  }

  lemma {:induction false} ReadWrittenText(t: string, rest: string)
    ensures Read(WrittenText(t) + rest, Double, false) == Before(TextBytes(t), Read(rest, Double, false))
  {
    hide Read;
    if t == "" {
      assert WrittenText(t) + rest == rest && TextBytes(t) + Read(rest, Double, false).pieces == Read(rest, Double, false).pieces;
    } else {
      var head := if NeedsEscape(t[0]) then ['\\', t[0]] else [t[0]];
      var tail := WrittenText(t[1..]) + rest;
      Regroup(head, WrittenText(t[1..]), rest);
      ReadWrittenText(t[1..], rest);
      if NeedsEscape(t[0]) {
        ReadEscapedByte(t[0], tail);
      } else {
        ReadPlainByte(t[0], tail);
      }
      BeforeTwice([Text([t[0]])], TextBytes(t[1..]), Read(rest, Double, false));
    }
  }

  lemma {:induction false} ReadWrittenPieces(pieces: seq<Piece>, rest: string)
    requires NamesOk(pieces)
    ensures Read(WrittenPieces(pieces) + rest, Double, false) == Before(Bytewise(pieces), Read(rest, Double, false))
    decreases |pieces|
  {
    hide Read, WrittenText, TextBytes;
    var last := Read(rest, Double, false);
    if pieces == [] {
      assert WrittenPieces(pieces) + rest == rest && [] + last.pieces == last.pieces;
    } else {
      var tail := WrittenPieces(pieces[1..]) + rest;
      ReadWrittenPieces(pieces[1..], rest);
      if pieces[0].Text? {
        var t := pieces[0].text;
        Regroup(WrittenText(t), WrittenPieces(pieces[1..]), rest);
        ReadWrittenText(t, tail);
        BeforeTwice(TextBytes(t), Bytewise(pieces[1..]), last);
      } else {
        var n := pieces[0].name;
        Regroup("${" + n + "}", WrittenPieces(pieces[1..]), rest);
        ReadBraced(n, tail);
        BeforeTwice([pieces[0]], Bytewise(pieces[1..]), last);
      }
    }
  }

  // ---------------------------------------------------------------- no comment inside

  lemma CommentByte(c: char, rest: string, before: Option<char>)
    requires !NeedsEscape(c) || c == '$' || c == '`'
    ensures CommentAt([c] + rest, Double, false, false, before) == 1 + CommentAt(rest, Double, false, false, Some(c))
  {
    var s := [c] + rest;
    assert s[0] == c && s[1..] == rest;
  }

  lemma CommentEscaped(c: char, rest: string, before: Option<char>)
    ensures CommentAt(['\\', c] + rest, Double, false, false, before) == 2 + CommentAt(rest, Double, false, Blank(c), Some(c))
  {
    var s := ['\\', c] + rest;
    var u := [c] + rest;
    assert s[0] == '\\' && s[1..] == u && u[0] == c && u[1..] == rest;
  }

  lemma {:induction false} CommentPlain(t: string, rest: string, before: Option<char>) returns (last: Option<char>)
    requires forall i :: 0 <= i < |t| ==> !NeedsEscape(t[i]) || t[i] == '$' || t[i] == '`'
    ensures CommentAt(t + rest, Double, false, false, before) == |t| + CommentAt(rest, Double, false, false, last)
    decreases |t|
  {
    hide CommentAt;
    if t == "" {
      last := before;
      assert t + rest == rest;
    } else {
      assert t + rest == [t[0]] + (t[1..] + rest);
      CommentByte(t[0], t[1..] + rest, before);
      last := CommentPlain(t[1..], rest, Some(t[0]));
    }
  }

  lemma {:induction false} CommentWrittenText(t: string, rest: string, before: Option<char>) returns (last: Option<char>)
    ensures CommentAt(WrittenText(t) + rest, Double, false, false, before) ==
      |WrittenText(t)| + CommentAt(rest, Double, false, false, last)
    decreases |t|
  {
    hide CommentAt;
    if t == "" {
      last := before;
      assert WrittenText(t) + rest == rest;
    } else {
      var head := if NeedsEscape(t[0]) then ['\\', t[0]] else [t[0]];
      var tail := WrittenText(t[1..]) + rest;
      Regroup(head, WrittenText(t[1..]), rest);
      if NeedsEscape(t[0]) {
        CommentEscaped(t[0], tail, before);
      } else {
        CommentByte(t[0], tail, before);
      }
      last := CommentWrittenText(t[1..], rest, Some(t[0]));
    }
  }

  lemma {:induction false} CommentWrittenPieces(pieces: seq<Piece>, rest: string, before: Option<char>) returns (last: Option<char>)
    requires NamesOk(pieces)
    ensures CommentAt(WrittenPieces(pieces) + rest, Double, false, false, before) ==
      |WrittenPieces(pieces)| + CommentAt(rest, Double, false, false, last)
    decreases |pieces|
  {
    hide CommentAt, WrittenText;
    if pieces == [] {
      last := before;
      assert WrittenPieces(pieces) + rest == rest;
    } else {
      var tail := WrittenPieces(pieces[1..]) + rest;
      if pieces[0].Text? {
        Regroup(WrittenText(pieces[0].text), WrittenPieces(pieces[1..]), rest);
        last := CommentWrittenText(pieces[0].text, tail, before);
      } else {
        var n := pieces[0].name;
        Regroup("${" + n + "}", WrittenPieces(pieces[1..]), rest);
        BracedIsPlain(n);
        last := CommentPlain("${" + n + "}", tail, before);
      }
      last := CommentWrittenPieces(pieces[1..], rest, last);
    }
  }

  lemma BracedIsPlain(n: string)
    requires IsName(n)
    ensures var t := "${" + n + "}"; forall i :: 0 <= i < |t| ==> !NeedsEscape(t[i]) || t[i] == '$' || t[i] == '`'
  {
    var t := "${" + n + "}";
    forall i | 0 <= i < |t|
      ensures !NeedsEscape(t[i]) || t[i] == '$' || t[i] == '`'
    {
      if 2 <= i < 2 + |n| {
        assert t[i] == n[i - 2] && NamePart(n[i - 2]);
      }
    }
  }

  // ---------------------------------------------------------------- the round trip

  lemma CommentOpens(rest: string)
    ensures CommentAt("\"" + rest, Bare, false, false, None) == 1 + CommentAt(rest, Double, false, false, Some('"'))
  {
    var s := "\"" + rest;
    assert s[0] == '"' && s[1..] == rest;
  }

  lemma CommentCloses(rest: string, before: Option<char>)
    ensures CommentAt("\"" + rest, Double, false, false, before) == 1 + CommentAt(rest, Bare, false, false, Some('"'))
  {
    var s := "\"" + rest;
    assert s[0] == '"' && s[1..] == rest;
  }

  /** Inside the written word no comment begins. */
  lemma CommentAfterWritten(pieces: seq<Piece>, rest: string)
    requires NamesOk(pieces)
    ensures CommentAt(Written(pieces) + rest, Bare, false, false, None) ==
      |Written(pieces)| + CommentAt(rest, Bare, false, false, Some('"'))
  {
    var body, tail := WrittenPieces(pieces), "\"" + rest;
    hide CommentAt, WrittenPieces;
    assert Written(pieces) + rest == "\"" + (body + tail);
    CommentOpens(body + tail);
    var last := CommentWrittenPieces(pieces, tail, Some('"'));
    CommentCloses(rest, last);
  }

  lemma ReadWritten(pieces: seq<Piece>)
    requires NamesOk(pieces)
    ensures Read(Written(pieces), Bare, false) == Word(Bytewise(pieces), None)
  {
    var body := WrittenPieces(pieces);
    var inner := body + "\"";
    hide WrittenPieces, Bytewise;
    assert Written(pieces) == ['"'] + inner;
    StepRead('"', inner, Bare);
    ReadWrittenPieces(pieces, "\"");
    assert "\"" == ['"'] + "";
    StepRead('"', "", Double);
    assert Bytewise(pieces) + [] == Bytewise(pieces);
  }

  lemma WrittenIsTrim(pieces: seq<Piece>)
    ensures Trim(Written(pieces)) == Written(pieces)
  {
    var s := Written(pieces);
    assert s[0] == '"' && s[|s| - 1] == '"';
  }

  /** Text and references written as one word read back to themselves, in order and without an error. */
  lemma WrittenReadsBack(pieces: seq<Piece>)
    requires NamesOk(pieces)
    ensures WordOf(Written(pieces)) == Word(Bytewise(pieces), None)
  {
    var s := Written(pieces);
    CommentAfterWritten(pieces, "");
    assert s + "" == s && CommentAt("", Bare, false, false, Some('"')) == 0 && s[..|s|] == s;
    WrittenIsTrim(pieces);
    ReadWritten(pieces);
  }

  lemma ExpandByte(scope: Scope, path: set<string>, c: char, rest: seq<Piece>)
    ensures ExpandPieces(scope, path, [Text([c])] + rest, None) == Prepend([c], ExpandPieces(scope, path, rest, None))
  {
    assert ([Text([c])] + rest)[1..] == rest && ([Text([c])] + rest)[0] == Text([c]);
  }

  lemma {:induction false} ExpandTextBytes(scope: Scope, path: set<string>, t: string, rest: seq<Piece>)
    ensures ExpandPieces(scope, path, TextBytes(t) + rest, None) == Prepend(t, ExpandPieces(scope, path, rest, None))
    decreases |t|
  {
    hide ExpandPieces;
    var r := ExpandPieces(scope, path, rest, None);
    if t == "" {
      assert TextBytes(t) + rest == rest;
      assert r.Ok? ==> "" + r.value == r.value;
    } else {
      var later := TextBytes(t[1..]) + rest;
      assert TextBytes(t) + rest == [Text([t[0]])] + later;
      ExpandByte(scope, path, t[0], later);
      ExpandTextBytes(scope, path, t[1..], rest);
      Associate([t[0]], t[1..], r);
      assert [t[0]] + t[1..] == t;
    }
  }

  lemma {:induction false} ExpandBytewise(scope: Scope, path: set<string>, pieces: seq<Piece>)
    ensures ExpandPieces(scope, path, Bytewise(pieces), None) == ExpandPieces(scope, path, pieces, None)
    decreases |pieces|
  {
    if pieces != [] {
      ExpandBytewise(scope, path, pieces[1..]);
      if pieces[0].Text? {
        ExpandTextBytes(scope, path, pieces[0].text, Bytewise(pieces[1..]));
      } else {
        assert ([pieces[0]] + Bytewise(pieces[1..]))[1..] == Bytewise(pieces[1..]);
      }
    }
  }

  /** So the written word expands as its pieces do: text as it is, every reference to its value. */
  lemma WrittenExpands(scope: Scope, path: set<string>, pieces: seq<Piece>)
    requires NamesOk(pieces)
    ensures ExpandWord(scope, path, WordOf(Written(pieces))) == ExpandPieces(scope, path, pieces, None)
  {
    WrittenReadsBack(pieces);
    hide WordOf;
    ExpandBytewise(scope, path, pieces);
  }

  // ---------------------------------------------------------------- comments

  /** Where the scan stands before a byte. `escapedBlank` is for the byte after an escaped blank. */
  datatype Mode = Mode(quote: Quote, escaped: bool, escapedBlank: bool)

  function Past(m: Mode, c: char): Mode {
    if m.escaped then Mode(m.quote, false, Blank(c))
    else if c == '\\' && !m.quote.Single? then Mode(m.quote, true, false)
    else if m.quote.Single? then Mode(if c == '\'' then Bare else Single, false, false)
    else if m.quote.Double? then Mode(if c == '"' then Bare else Double, false, false)
    else Mode(if c == '\'' then Single else if c == '"' then Double else Bare, false, false)
  }

  function ModeAt(s: string, i: nat): Mode
    requires i <= |s|
  {
    if i == 0 then Mode(Bare, false, false) else Past(ModeAt(s, i - 1), s[i - 1])
  }

  /** An unquoted, unescaped number sign right after an unescaped blank. */
  predicate CommentBegins(s: string, i: nat)
    requires i < |s|
  {
    s[i] == '#' && i > 0 && Blank(s[i - 1]) && ModeAt(s, i) == Mode(Bare, false, false)
  }

  lemma CommentStep(s: string, i: nat)
    requires i < |s|
    ensures var m, before := ModeAt(s, i), if i == 0 then None else Some(s[i - 1]);
      CommentAt(s[i..], m.quote, m.escaped, m.escapedBlank, before) ==
      if CommentBegins(s, i) then 0
      else 1 + CommentAt(s[i + 1..], ModeAt(s, i + 1).quote, ModeAt(s, i + 1).escaped, ModeAt(s, i + 1).escapedBlank, Some(s[i]))
  {
    assert s[i..][0] == s[i] && s[i..][1..] == s[i + 1..];
    EscapedBlankIsBare(s, i);
  }

  /** Only a blank that was escaped a moment ago is remembered. */
  lemma EscapedBlankIsBare(s: string, i: nat)
    requires i <= |s|
    ensures ModeAt(s, i).escapedBlank ==> i > 0 && !ModeAt(s, i).escaped && Blank(s[i - 1])
  {
  }

  lemma NoComment(m: Mode)
    ensures forall before: Option<char> :: CommentAt("", m.quote, m.escaped, m.escapedBlank, before) == 0
  {
  }

  /** The comment begins at the first place where one does, or nowhere. */
  lemma {:induction false} CommentFrom(s: string, i: nat)
    requires i <= |s|
    ensures var m, before := ModeAt(s, i), if i == 0 then None else Some(s[i - 1]);
      var n := i + CommentAt(s[i..], m.quote, m.escaped, m.escapedBlank, before);
      && n <= |s| && (n < |s| ==> CommentBegins(s, n)) && forall k :: i <= k < n ==> !CommentBegins(s, k)
    decreases |s| - i
  {
    hide CommentAt, ModeAt, CommentBegins;
    NoComment(ModeAt(s, i));
    if i < |s| {
      CommentStep(s, i);
      if !CommentBegins(s, i) {
        CommentFrom(s, i + 1);
      }
    }
  }

  /** A value is cut exactly at the first unquoted, unescaped number sign after an unescaped blank. */
  lemma CommentIsCut(s: string)
    ensures var n := CommentAt(s, Bare, false, false, None);
      && n <= |s| && (n < |s| ==> CommentBegins(s, n)) && forall k :: 0 <= k < n ==> !CommentBegins(s, k)
  {
    CommentFrom(s, 0);
    assert s[0..] == s;
  }

  /** A written word with a comment behind it reads as the word; with no blank between, nothing is cut. */
  lemma CommentBehindWritten(pieces: seq<Piece>, comment: string)
    requires NamesOk(pieces)
    ensures WordOf(Written(pieces) + " #" + comment) == WordOf(Written(pieces))
    ensures CommentAt(Written(pieces) + "#", Bare, false, false, None) == |Written(pieces)| + 1
  {
    var s, rest := Written(pieces), " #" + comment;
    hide WrittenPieces;
    CommentAfterWritten(pieces, rest);
    CommentAfterWritten(pieces, "#");
    CommentAfterWritten(pieces, "");
    var behind := "#" + comment;
    assert rest[0] == ' ' && rest[1..] == behind && behind[0] == '#';
    assert CommentAt(behind, Bare, false, false, Some(' ')) == 0;
    assert CommentAt(rest, Bare, false, false, Some('"')) == 1;
    assert "#"[0] == '#' && "#"[1..] == "" && CommentAt("#", Bare, false, false, Some('"')) == 1 + CommentAt("", Bare, false, false, Some('#'));
    assert s + " #" + comment == s + rest;
    assert (s + rest)[..|s| + 1] == s + " " && s + "" == s && s[..|s|] == s;
    hide CommentAt, Written;
    TrimBlank(s);
  }

  lemma TrimBlank(s: string)
    ensures Trim(s + " ") == Trim(s)
  {
    TrimLeftBlank(s);
    var l := TrimLeft(s);
    if l != "" {
      assert (l + " ")[|l + " "| - 1] == ' ' && (l + " ")[..|l + " "| - 1] == l;
    }
  }

  lemma {:induction false} TrimLeftBlank(s: string)
    ensures TrimLeft(s + " ") == if TrimLeft(s) == "" then "" else TrimLeft(s) + " "
  {
    if s == "" {
      assert s + " " == " " && " "[1..] == "";
    } else if Space(s[0]) {
      assert (s + " ")[1..] == s[1..] + " ";
      TrimLeftBlank(s[1..]);
    }
  }

  // ---------------------------------------------------------------- bare escapes

  /** Every byte behind a backslash, without quotes. */
  function Backslashed(t: string): string {
    if t == "" then "" else ['\\', t[0]] + Backslashed(t[1..])
  }

  lemma ReadBackslash(c: char, rest: string)
    ensures Read(['\\', c] + rest, Bare, false) == With(Text([c]), Read(rest, Bare, false))
  {
    var s := ['\\', c] + rest;
    var u := [c] + rest;
    assert s[0] == '\\' && s[1..] == u && u[0] == c && u[1..] == rest;
    assert Read(s, Bare, false) == Read(u, Bare, true);
  }

  lemma {:induction false} ReadBackslashed(t: string, rest: string)
    ensures Read(Backslashed(t) + rest, Bare, false) == Before(TextBytes(t), Read(rest, Bare, false))
  {
    hide Read;
    if t == "" {
      assert Backslashed(t) + rest == rest && [] + Read(rest, Bare, false).pieces == Read(rest, Bare, false).pieces;
    } else {
      var head := ['\\', t[0]];
      Regroup(head, Backslashed(t[1..]), rest);
      ReadBackslashed(t[1..], rest);
      ReadBackslash(t[0], Backslashed(t[1..]) + rest);
      BeforeTwice([Text([t[0]])], TextBytes(t[1..]), Read(rest, Bare, false));
    }
  }

  lemma CommentBackslash(c: char, rest: string, blank: bool, before: Option<char>)
    ensures CommentAt(['\\', c] + rest, Bare, false, blank, before) == 2 + CommentAt(rest, Bare, false, Blank(c), Some(c))
  {
    var s := ['\\', c] + rest;
    var u := [c] + rest;
    assert s[0] == '\\' && s[1..] == u && u[0] == c && u[1..] == rest;
  }

  lemma {:induction false} CommentBackslashed(t: string, blank: bool, before: Option<char>)
    ensures CommentAt(Backslashed(t), Bare, false, blank, before) == |Backslashed(t)|
    decreases |t|
  {
    if t != "" {
      CommentBackslash(t[0], Backslashed(t[1..]), blank, before);
      CommentBackslashed(t[1..], Blank(t[0]), Some(t[0]));
    }
  }

  lemma {:induction false} BackslashedEnds(t: string)
    requires t != ""
    ensures var init := t[..|t| - 1]; Backslashed(t) == Backslashed(init) + ['\\', t[|t| - 1]]
  {
    if |t| > 1 {
      BackslashedEnds(t[1..]);
      assert t[1..][..|t| - 2] == t[..|t| - 1][1..];
    } else {
      assert t[..0] == "" && t[1..] == "";
    }
  }

  lemma TextBytesPlain(t: string)
    ensures Plain(TextBytes(t)) == Some(t)
  {
    if t != "" {
      TextBytesPlain(t[1..]);
      assert [t[0]] + t[1..] == t;
      assert ([Text([t[0]])] + TextBytes(t[1..]))[1..] == TextBytes(t[1..]);
    }
  }

  lemma BackslashedWord(t: string)
    ensures WordOf(Backslashed(t)) == Read(Trim(Backslashed(t)), Bare, false)
  {
    var s := Backslashed(t);
    CommentBackslashed(t, false, None);
    assert s[..|s|] == s;
    hide CommentAt, Read, Trim;
  }

  lemma BackslashedWhole(t: string)
    requires t == "" || !Space(t[|t| - 1])
    ensures Trim(Backslashed(t)) == Backslashed(t)
  {
    if t != "" {
      BackslashedEnds(t);
      var s := Backslashed(t);
      assert s[0] == '\\' && s[|s| - 1] == t[|t| - 1];
    }
  }

  lemma BackslashedCut(t: string)
    requires t != "" && Space(t[|t| - 1])
    ensures Trim(Backslashed(t)) == Backslashed(t[..|t| - 1]) + "\\"
  {
    BackslashedEnds(t);
    var s := Backslashed(t);
    var cut := Backslashed(t[..|t| - 1]) + "\\";
    assert s[0] == '\\' && s[|s| - 1] == t[|t| - 1] && s[..|s| - 1] == cut && cut[|cut| - 1] == '\\';
    assert TrimLeft(s) == s && TrimRight(cut) == cut;
  }

  lemma OpenBackslash()
    ensures Read("\\", Bare, false).error == Some(OpenEscape)
  {
    assert "\\"[0] == '\\' && "\\"[1..] == "";
    assert Read("\\", Bare, false) == Read("", Bare, true);
  }

  /** Text with every byte escaped reads back to itself exactly if it does not end in a blank: an
      escaped blank at the end is trimmed away, and its backslash is left open. */
  lemma BackslashedReadsBack(t: string)
    ensures var ok := t == "" || !Space(t[|t| - 1]);
      && (ok ==> Reads(WordOf(Backslashed(t)), t))
      && (!ok ==> WordOf(Backslashed(t)).error == Some(OpenEscape))
  {
    var empty := Read("", Bare, false);
    assert empty == Word([], None);
    hide Read, Trim, WordOf, Backslashed, TextBytes;
    BackslashedWord(t);
    TextBytesPlain(t);
    if t == "" || !Space(t[|t| - 1]) {
      BackslashedWhole(t);
      ReadBackslashed(t, "");
      assert Backslashed(t) + "" == Backslashed(t) && TextBytes(t) + [] == TextBytes(t);
    } else {
      BackslashedCut(t);
      ReadBackslashed(t[..|t| - 1], "\\");
      OpenBackslash();
    }
  }
}
