/** Shell words as the deployment worker reads them from an environment file: comments, quotes,
    escapes and variable references. Text is a sequence of bytes. Reading a word leaves literal text
    and references, in order, and possibly an error after them; expanding the references is the
    resolver's part. */
module ShellWord {
  import opened Options

  datatype Quote = Bare | Single | Double

  datatype Error =
    | Cycle(name: string)
    | BadExpansion
    | CommandSubstitution
    | BareWhitespace
    | BadSyntax(found: char)
    | OpenEscape
    | OpenQuote

  datatype Result = Ok(value: string) | Err(error: Error)

  datatype Piece = Text(text: string) | Reference(name: string)

  /** What a word consists of, and the error that ends it early. */
  datatype Word = Word(pieces: seq<Piece>, error: Option<Error>)

  // ---------------------------------------------------------------- names

  predicate NameStart(c: char) {
    c == '_' || 'A' <= c <= 'Z' || 'a' <= c <= 'z'
  }

  predicate NamePart(c: char) {
    NameStart(c) || '0' <= c <= '9'
  }

  predicate IsName(s: string) {
    s != "" && NameStart(s[0]) && forall i :: 1 <= i < |s| ==> NamePart(s[i])
  }

  /** The length of the longest prefix of name characters. */
  function NameLength(s: string): (n: nat)
    ensures n <= |s| && (forall i :: 0 <= i < n ==> NamePart(s[i])) && (n < |s| ==> !NamePart(s[n]))
  {
    if s == "" || !NamePart(s[0]) then 0 else 1 + NameLength(s[1..])
  }

  function Find(s: string, c: char): (n: nat)
    ensures n <= |s| && (n < |s| ==> s[n] == c) && forall i :: 0 <= i < n ==> s[i] != c
  {
    if s == "" || s[0] == c then 0 else 1 + Find(s[1..], c)
  }

  /** The reference that begins at the dollar sign `s` begins with: its name and its length. */
  function ReferenceAt(s: string): (r: Option<(string, nat)>)
    requires s != ""
    ensures r.Some? ==> IsName(r.value.0) && 0 < r.value.1 <= |s|
  {
    if |s| == 1 then None
    else if s[1] == '{' then
      var closing := Find(s[2..], '}');
      if closing == |s| - 2 || !IsName(s[2..2 + closing]) then None
      else Some((s[2..2 + closing], closing + 3))
    else if !NameStart(s[1]) then None
    else
      var n := NameLength(s[2..]);
      Some((s[1..2 + n], 2 + n))
  }

  // ---------------------------------------------------------------- comments and blanks

  predicate Blank(c: char) {
    c == ' ' || c == '\t'
  }

  /** Where an inline comment begins in `s`, given the state of the scan and the byte before. */
  function CommentAt(s: string, quote: Quote, escaped: bool, escapedBlank: bool, before: Option<char>): (n: nat)
    ensures n <= |s|
  {
    if s == "" then 0
    else
      var c, rest, last := s[0], s[1..], Some(s[0]);
      if escaped then 1 + CommentAt(rest, quote, false, Blank(c), last)
      else if c == '\\' && !quote.Single? then 1 + CommentAt(rest, quote, true, false, last)
      else if !quote.Bare? then
        var closes := (quote.Single? && c == '\'') || (quote.Double? && c == '"');
        1 + CommentAt(rest, if closes then Bare else quote, false, false, last)
      else if c == '\'' then 1 + CommentAt(rest, Single, false, false, last)
      else if c == '"' then 1 + CommentAt(rest, Double, false, false, last)
      else if c == '#' && before.Some? && Blank(before.value) && !escapedBlank then 0
      else 1 + CommentAt(rest, Bare, false, false, last)
  }

  predicate Space(c: char) {
    c == ' ' || ('\t' <= c <= '\r')
  }

  function TrimLeft(s: string): string {
    if s != "" && Space(s[0]) then TrimLeft(s[1..]) else s
  }

  function TrimRight(s: string): string {
    if s != "" && Space(s[|s| - 1]) then TrimRight(s[..|s| - 1]) else s
  }

  function Trim(s: string): string {
    TrimRight(TrimLeft(s))
  }

  // ---------------------------------------------------------------- reading a word

  function With(piece: Piece, rest: Word): Word {
    rest.(pieces := [piece] + rest.pieces)
  }

  predicate Special(c: char) {
    c in {';', '&', '|', '<', '>', '(', ')', '*', '?', '[', '~'}
  }

  /** An escaped byte; inside double quotes the backslash stays unless it escapes something. */
  function Escaped(quote: Quote, c: char): string {
    if quote.Double? && c !in {'$', '`', '"', '\\'} then ['\\', c] else [c]
  }

  function Read(s: string, quote: Quote, escaped: bool): Word
    decreases |s|
  {
    if s == "" then Word([], if escaped then Some(OpenEscape) else if !quote.Bare? then Some(OpenQuote) else None)
    else
      var c, rest := s[0], s[1..];
      if escaped then With(Text(Escaped(quote, c)), Read(rest, quote, false))
      else if c == '$' && !quote.Single? then
        match ReferenceAt(s)
        case None => Word([], Some(BadExpansion))
        case Some((name, length)) => With(Reference(name), Read(s[length..], quote, false))
      else if c == '`' && !quote.Single? then Word([], Some(CommandSubstitution))
      else if quote.Bare? && Blank(c) then Word([], Some(BareWhitespace))
      else if quote.Bare? && Special(c) then Word([], Some(BadSyntax(c)))
      else if quote.Single? then
        if c == '\'' then Read(rest, Bare, false) else With(Text([c]), Read(rest, quote, false))
      else if c == '\\' then Read(rest, quote, true)
      else if quote.Double? then
        if c == '"' then Read(rest, Bare, false) else With(Text([c]), Read(rest, quote, false))
      else if c == '\'' then Read(rest, Single, false)
      else if c == '"' then Read(rest, Double, false)
      else With(Text([c]), Read(rest, quote, false))
  }

  /** The word in an assignment's right-hand side. */
  function WordOf(raw: string): Word {
    Read(Trim(raw[..CommentAt(raw, Bare, false, false, None)]), Bare, false)
  }

  // ---------------------------------------------------------------- quoting

  predicate Safe(c: char) {
    'a' <= c <= 'z' || 'A' <= c <= 'Z' || '0' <= c <= '9' ||
    c in {'_', '@', '%', '+', '=', ':', ',', '.', '/', '-'}
  }

  /** Every single quote becomes a double-quoted one between two single-quoted parts. */
  function Requoted(s: string): string {
    if s == "" then "" else (if s[0] == '\'' then "'\"'\"'" else [s[0]]) + Requoted(s[1..])
  }

  /** `shellQuote`. */
  function Quoted(s: string): string {
    if s == "" then "''"
    else if forall i :: 0 <= i < |s| ==> Safe(s[i]) then s
    else "'" + Requoted(s) + "'"
  }

  /** The plain text of pieces without references. */
  function Plain(pieces: seq<Piece>): Option<string> {
    if pieces == [] then Some("")
    else if pieces[0].Reference? || Plain(pieces[1..]).None? then None
    else Some(pieces[0].text + Plain(pieces[1..]).value)
  }

  // ---------------------------------------------------------------- reading what was quoted

  lemma StepRead(c: char, rest: string, quote: Quote)
    requires quote.Single? || (quote.Double? && c == '\'') || (quote.Double? && c == '"') || (quote.Bare? && (Safe(c) || c == '\'' || c == '"'))
    ensures var s := [c] + rest;
      Read(s, quote, false) ==
        if quote.Bare? then
          (if c == '\'' then Read(rest, Single, false) else if c == '"' then Read(rest, Double, false)
           else With(Text([c]), Read(rest, Bare, false)))
        else if (quote.Single? && c == '\'') || (quote.Double? && c == '"') then Read(rest, Bare, false)
        else With(Text([c]), Read(rest, quote, false))
  {
    var s := [c] + rest;
    assert s[0] == c && s[1..] == rest;
  }

  /** The five bytes that stand for a single quote. */
  lemma ReadQuoteMark(rest: string)
    ensures Read("'\"'\"'" + rest, Single, false) == With(Text("'"), Read(rest, Single, false))
  {
    hide Read;
    var d, c, b, a := "'" + rest, "\"'" + rest, "'\"'" + rest, "\"'\"'" + rest;
    assert "'\"'\"'" + rest == ['\''] + a;
    StepRead('\'', a, Single);
    assert a == ['"'] + b;
    StepRead('"', b, Bare);
    assert b == ['\''] + c;
    StepRead('\'', c, Double);
    assert c == ['"'] + d;
    StepRead('"', d, Double);
    assert d == ['\''] + rest;
    StepRead('\'', rest, Bare);
  }

  ghost predicate Reads(w: Word, s: string) {
    w.error.None? && Plain(w.pieces) == Some(s)
  }

  lemma WithReads(t: string, w: Word, s: string)
    requires Reads(w, s)
    ensures Reads(With(Text(t), w), t + s)
  {
    assert ([Text(t)] + w.pieces)[1..] == w.pieces;
  }

  lemma {:induction false} ReadRequoted(s: string)
    ensures Reads(Read(Requoted(s) + "'", Single, false), s)
  {
    if s == "" {
      assert Requoted(s) + "'" == ['\''] + "";
      StepRead('\'', "", Single);
    } else {
      ReadRequoted(s[1..]);
      var rest := Requoted(s[1..]) + "'";
      assert s == [s[0]] + s[1..];
      if s[0] == '\'' {
        assert Requoted(s) + "'" == "'\"'\"'" + rest;
        ReadQuoteMark(rest);
      } else {
        assert Requoted(s) + "'" == [s[0]] + rest;
        StepRead(s[0], rest, Single);
      }
      hide Read, Reads;
      WithReads([s[0]], Read(rest, Single, false), s[1..]);
    }
  }

  lemma {:induction false} ReadSafe(s: string)
    requires forall i :: 0 <= i < |s| ==> Safe(s[i])
    ensures Reads(Read(s, Bare, false), s)
  {
    if s != "" {
      ReadSafe(s[1..]);
      assert s == [s[0]] + s[1..];
      StepRead(s[0], s[1..], Bare);
      hide Read, Reads;
      WithReads([s[0]], Read(s[1..], Bare, false), s[1..]);
    }
  }

  lemma StepComment(c: char, rest: string, quote: Quote, escapedBlank: bool, before: Option<char>)
    requires c == '\'' || c == '"' || quote.Single? || (quote.Bare? && Safe(c))
    ensures CommentAt([c] + rest, quote, false, escapedBlank, before) ==
      1 + CommentAt(rest,
            if quote.Bare? then (if c == '\'' then Single else if c == '"' then Double else Bare)
            else if (quote.Single? && c == '\'') || (quote.Double? && c == '"') then Bare else quote,
            false, false, Some(c))
  {
    var s := [c] + rest;
    assert s[0] == c && s[1..] == rest;
  }

  lemma CommentQuoteMark(rest: string, before: Option<char>)
    ensures CommentAt("'\"'\"'" + rest, Single, false, false, before) == 5 + CommentAt(rest, Single, false, false, Some('\''))
  {
    hide CommentAt;
    var d, c, b, a := "'" + rest, "\"'" + rest, "'\"'" + rest, "\"'\"'" + rest;
    assert "'\"'\"'" + rest == ['\''] + a;
    StepComment('\'', a, Single, false, before);
    assert a == ['"'] + b;
    StepComment('"', b, Bare, false, Some('\''));
    assert b == ['\''] + c;
    StepComment('\'', c, Double, false, Some('"'));
    assert c == ['"'] + d;
    StepComment('"', d, Double, false, Some('\''));
    assert d == ['\''] + rest;
    StepComment('\'', rest, Bare, false, Some('"'));
  }

  lemma {:induction false} CommentRequoted(s: string, before: Option<char>)
    ensures CommentAt(Requoted(s) + "'", Single, false, false, before) == |Requoted(s)| + 1
    decreases |s|
  {
    if s == "" {
      assert Requoted(s) + "'" == ['\''] + "";
      StepComment('\'', "", Single, false, before);
    } else {
      var rest := Requoted(s[1..]) + "'";
      if s[0] == '\'' {
        assert Requoted(s) + "'" == "'\"'\"'" + rest;
        CommentQuoteMark(rest, before);
        CommentRequoted(s[1..], Some('\''));
      } else {
        assert Requoted(s) + "'" == [s[0]] + rest;
        StepComment(s[0], rest, Single, false, before);
        CommentRequoted(s[1..], Some(s[0]));
      }
    }
  }

  lemma {:induction false} CommentSafe(s: string, before: Option<char>)
    requires forall i :: 0 <= i < |s| ==> Safe(s[i])
    ensures CommentAt(s, Bare, false, false, before) == |s|
    decreases |s|
  {
    if s != "" {
      assert s == [s[0]] + s[1..];
      StepComment(s[0], s[1..], Bare, false, before);
      CommentSafe(s[1..], Some(s[0]));
    }
  }

  /** Reading a quoted word gives back the original bytes, whatever they are, with no reference to
      resolve on the way. */
  lemma QuotedReadsBack(s: string)
    ensures Reads(WordOf(Quoted(s)), s)
  {
    var q := Quoted(s);
    if s == "" {
      assert q == "'" + (Requoted("") + "'");
      WrappedReadsBack(s);
    } else if forall i :: 0 <= i < |s| ==> Safe(s[i]) {
      CommentSafe(s, None);
      assert s[..|s|] == s && Trim(s) == s;
      ReadSafe(s);
    } else {
      assert q == "'" + (Requoted(s) + "'");
      WrappedReadsBack(s);
    }
  }

  lemma WrappedReadsBack(s: string)
    ensures Reads(WordOf("'" + (Requoted(s) + "'")), s)
  {
    var body := Requoted(s) + "'";
    var q := "'" + body;
    assert q == ['\''] + body;
    StepComment('\'', body, Bare, false, None);
    CommentRequoted(s, Some('\''));
    assert q[..|q|] == q && q[|q| - 1] == '\'' && Trim(q) == q;
    StepRead('\'', body, Bare);
    ReadRequoted(s);
    hide Read, CommentAt, Requoted;
  }
}
