/** Resolving the variables of an environment file. The reference meaning expands every reference
    afresh along the path that led to it and fails on a name that is already on the path; the
    resolver remembers what it has resolved and marks what it is resolving. */
module ShellVariables {
  import opened Options
  import opened ShellWord

  /** The file's assignments, and the environment for every other name. */
  datatype Scope = Scope(assignments: map<string, string>, environment: map<string, string>)

  function Outside(scope: Scope, name: string): string {
    if name in scope.environment then scope.environment[name] else ""
  }

  // ---------------------------------------------------------------- plain expansion

  function Prepend(text: string, r: Result): Result {
    if r.Ok? then Ok(text + r.value) else r
  }

  lemma KeysLeft(scope: Scope, path: set<string>, name: string)
    requires name in scope.assignments && name !in path
    ensures |scope.assignments.Keys - (path + {name})| < |scope.assignments.Keys - path|
  {
    assert scope.assignments.Keys - (path + {name}) == scope.assignments.Keys - path - {name};
  }

  /** The value of a name reached along `path`. */
  function Expand(scope: Scope, path: set<string>, name: string): Result
    decreases |scope.assignments.Keys - path|, 0, 0
  {
    if name in path then Err(Cycle(name))
    else if name !in scope.assignments then Ok(Outside(scope, name))
    else
      KeysLeft(scope, path, name);
      var word := WordOf(scope.assignments[name]);
      ExpandPieces(scope, path + {name}, word.pieces, word.error)
  }

  /** The text of a word whose references are reached along `path`. */
  function ExpandPieces(scope: Scope, path: set<string>, pieces: seq<Piece>, error: Option<Error>): Result
    decreases |scope.assignments.Keys - path|, 1, |pieces|
  {
    if pieces == [] then (if error.Some? then Err(error.value) else Ok(""))
    else
      var value := if pieces[0].Text? then Ok(pieces[0].text) else Expand(scope, path, pieces[0].name);
      if value.Err? then value else Prepend(value.value, ExpandPieces(scope, path, pieces[1..], error))
  }

  function ExpandWord(scope: Scope, path: set<string>, w: Word): Result {
    ExpandPieces(scope, path, w.pieces, w.error)
  }

  lemma ExpandWith(scope: Scope, path: set<string>, piece: Piece, rest: Word)
    ensures ExpandWord(scope, path, With(piece, rest)) ==
      if piece.Text? then Prepend(piece.text, ExpandWord(scope, path, rest))
      else
        var value := Expand(scope, path, piece.name);
        if value.Err? then value else Prepend(value.value, ExpandWord(scope, path, rest))
  {
    assert ([piece] + rest.pieces)[1..] == rest.pieces;
  }

  /** A quoted word expands to the original, whatever the variables are. */
  lemma QuotedExpandsBack(scope: Scope, path: set<string>, s: string)
    ensures ExpandWord(scope, path, WordOf(Quoted(s))) == Ok(s)
  {
    QuotedReadsBack(s);
    var w := WordOf(Quoted(s));
    hide WordOf, Quoted;
    ExpandPlain(scope, path, w.pieces, s);
  }

  lemma {:induction false} ExpandPlain(scope: Scope, path: set<string>, pieces: seq<Piece>, s: string)
    requires Plain(pieces) == Some(s)
    ensures ExpandPieces(scope, path, pieces, None) == Ok(s)
    decreases |pieces|
  {
    if pieces != [] {
      ExpandPlain(scope, path, pieces[1..], Plain(pieces[1..]).value);
    }
  }

  // ---------------------------------------------------------------- cycles

  /** Each name's assignment refers to the next name. */
  ghost predicate Chain(scope: Scope, names: seq<string>) {
    names != [] && forall i :: 0 <= i < |names| - 1 ==>
      names[i] in scope.assignments && names[i + 1] in References(WordOf(scope.assignments[names[i]]).pieces)
  }

  lemma {:induction false} ReferenceSucceeds(scope: Scope, path: set<string>, pieces: seq<Piece>, error: Option<Error>, name: string)
    requires ExpandPieces(scope, path, pieces, error).Ok? && name in References(pieces)
    ensures Expand(scope, path, name).Ok?
    decreases |pieces|
  {
    if pieces[0] != Reference(name) {
      assert pieces == [pieces[0]] + pieces[1..];
      ReferenceSucceeds(scope, path, pieces[1..], error, name);
    }
  }

  /** A name that expands is on no cycle and leads to none: no chain of references from it comes back
      to a name it has passed, or to one on the path. */
  lemma {:induction false} ExpandedMeansAcyclic(scope: Scope, path: set<string>, names: seq<string>)
    requires Chain(scope, names) && Expand(scope, path, names[0]).Ok?
    ensures forall i :: 0 <= i < |names| ==> names[i] !in path
    ensures forall i, j :: 0 <= i < j < |names| ==> names[i] != names[j]
    decreases |names|
  {
    if |names| > 1 {
      var word := WordOf(scope.assignments[names[0]]);
      hide WordOf;
      ReferenceSucceeds(scope, path + {names[0]}, word.pieces, word.error, names[1]);
      assert forall i :: 0 <= i < |names[1..]| ==> names[1..][i] == names[i + 1];
      ExpandedMeansAcyclic(scope, path + {names[0]}, names[1..]);
      forall i | 1 <= i < |names|
        ensures names[i] !in path && names[i] != names[0]
      {
        assert names[i] == names[1..][i - 1];
      }
    }
  }

  /** Reading a word reports no cycle. */
  lemma {:induction false} ReadsNoCycle(s: string, quote: Quote, escaped: bool)
    ensures Read(s, quote, escaped).error.Some? ==> !Read(s, quote, escaped).error.value.Cycle?
    decreases |s|
  {
    if s != "" {
      ReadsNoCycle(s[1..], quote, false);
      ReadsNoCycle(s[1..], quote, true);
      ReadsNoCycle(s[1..], Bare, false);
      ReadsNoCycle(s[1..], Single, false);
      ReadsNoCycle(s[1..], Double, false);
      if ReferenceAt(s).Some? {
        ReadsNoCycle(s[ReferenceAt(s).value.1..], quote, false);
      }
      hide ReferenceAt, Special, Escaped;
    }
  }

  lemma {:induction false} CycleInPieces(scope: Scope, path: set<string>, pieces: seq<Piece>, error: Option<Error>, c: string)
    returns (name: string)
    requires ExpandPieces(scope, path, pieces, error) == Err(Cycle(c)) && (error.Some? ==> !error.value.Cycle?)
    ensures name in References(pieces) && Expand(scope, path, name) == Err(Cycle(c))
    decreases |pieces|
  {
    assert pieces[0] in pieces && forall p :: p in pieces[1..] ==> p in pieces;
    if pieces[0].Reference? && Expand(scope, path, pieces[0].name).Err? {
      name := pieces[0].name;
    } else {
      name := CycleInPieces(scope, path, pieces[1..], error, c);
    }
  }

  lemma WordHasNoCycle(raw: string)
    ensures WordOf(raw).error.Some? ==> !WordOf(raw).error.value.Cycle?
  {
    ReadsNoCycle(Trim(raw[..CommentAt(raw, Bare, false, false, None)]), Bare, false);
    hide Read;
  }

  lemma ChainLonger(scope: Scope, name: string, rest: seq<string>)
    requires Chain(scope, rest) && name in scope.assignments && rest[0] in References(WordOf(scope.assignments[name]).pieces)
    ensures Chain(scope, [name] + rest)
  {
    hide WordOf, References;
    var names := [name] + rest;
    forall i | 0 <= i < |names| - 1
      ensures names[i] in scope.assignments && names[i + 1] in References(WordOf(scope.assignments[names[i]]).pieces)
    {
      if i > 0 {
        assert names[i] == rest[i - 1] && names[i + 1] == rest[i];
      }
    }
  }

  /** A reported cycle is a real one: a chain of references leads from the name to the one reported,
      and passes it before or finds it on the path. */
  lemma {:induction false} ReportedCycle(scope: Scope, path: set<string>, name: string, c: string) returns (names: seq<string>)
    requires Expand(scope, path, name) == Err(Cycle(c))
    ensures Chain(scope, names) && names[0] == name && names[|names| - 1] == c
    ensures c in path || c in names[..|names| - 1]
    decreases |scope.assignments.Keys - path|
  {
    hide WordOf, References;
    if name in path {
      names := [name];
    } else {
      var word := WordOf(scope.assignments[name]);
      WordHasNoCycle(scope.assignments[name]);
      KeysLeft(scope, path, name);
      var next := CycleInPieces(scope, path + {name}, word.pieces, word.error, c);
      var rest := ReportedCycle(scope, path + {name}, next, c);
      ChainLonger(scope, name, rest);
      hide Chain, Expand, ExpandPieces;
      names := [name] + rest;
      assert names[..|names| - 1] == [name] + rest[..|rest| - 1];
    }
  }

  /** At the top, with nothing on the path: the chain passes the reported name twice. */
  lemma CycleIsReal(scope: Scope, name: string, c: string)
    requires Expand(scope, {}, name) == Err(Cycle(c))
    ensures exists names :: Chain(scope, names) && names[0] == name && names[|names| - 1] == c && c in names[..|names| - 1]
  {
    var names := ReportedCycle(scope, {}, name, c);
  }

  // ---------------------------------------------------------------- what may be remembered

  function References(pieces: seq<Piece>): set<string> {
    set p | p in pieces && p.Reference? :: p.name
  }

  /** A remembered value is the one plain expansion gives, along any path that avoids everything
      remembered. */
  ghost predicate Remembered(scope: Scope, values: map<string, string>) {
    forall n, path: set<string> :: n in values && path !! values.Keys ==> Expand(scope, path, n) == Ok(values[n])
  }

  /** The text of pieces whose references are all remembered. */
  function Filled(pieces: seq<Piece>, values: map<string, string>): string
    requires References(pieces) <= values.Keys
  {
    if pieces == [] then ""
    else
      assert pieces[0] in pieces && forall p :: p in pieces[1..] ==> p in pieces;
      (if pieces[0].Text? then pieces[0].text else values[pieces[0].name]) + Filled(pieces[1..], values)
  }

  lemma {:induction false} FilledExpands(scope: Scope, path: set<string>, pieces: seq<Piece>, values: map<string, string>)
    requires Remembered(scope, values) && References(pieces) <= values.Keys && path !! values.Keys
    ensures ExpandPieces(scope, path, pieces, None) == Ok(Filled(pieces, values))
    decreases |pieces|
  {
    if pieces != [] {
      assert forall p :: p in pieces[1..] ==> p in pieces;
      FilledExpands(scope, path, pieces[1..], values);
      if pieces[0].Reference? {
        assert pieces[0] in pieces;
        assert Expand(scope, path, pieces[0].name) == Ok(values[pieces[0].name]);
      }
    }
  }

  /** Once everything a word refers to is remembered, so may be the name it is assigned to. */
  lemma Remember(scope: Scope, values: map<string, string>, path: set<string>, name: string, value: string)
    requires Remembered(scope, values) && name !in values && name in scope.assignments
    requires var w := WordOf(scope.assignments[name]);
      && w.error.None? && References(w.pieces) <= values.Keys
      && (path + {name}) !! values.Keys && ExpandWord(scope, path + {name}, w) == Ok(value)
    ensures Remembered(scope, values[name := value])
  {
    var w := WordOf(scope.assignments[name]);
    hide WordOf;
    FilledExpands(scope, path + {name}, w.pieces, values);
    forall n, other: set<string> | n in values[name := value] && other !! values[name := value].Keys
      ensures Expand(scope, other, n) == Ok(values[name := value][n])
    {
      assert other !! values.Keys;
      if n == name {
        FilledExpands(scope, other + {name}, w.pieces, values);
      }
    }
  }

  lemma RememberOutside(scope: Scope, values: map<string, string>, name: string)
    requires Remembered(scope, values) && name !in scope.assignments
    ensures Remembered(scope, values[name := Outside(scope, name)])
  {
    forall n, other: set<string> | n in values[name := Outside(scope, name)] && other !! values[name := Outside(scope, name)].Keys
      ensures Expand(scope, other, n) == Ok(values[name := Outside(scope, name)][n])
    {
      assert other !! values.Keys;
    }
  }

  // ---------------------------------------------------------------- the scanners as loops

  /** `isShellVariableName`. */
  method CheckName(s: string) returns (ok: bool)
    ensures ok == IsName(s)
  {
    if s == "" || !NameStart(s[0]) {
      return false;
    }
    var i := 1;
    while i < |s|
      invariant 1 <= i <= |s| && forall j :: 1 <= j < i ==> NamePart(s[j])
    {
      if !NamePart(s[i]) {
        return false;
      }
      i := i + 1;
    }
    ok := true;
  }

  method IndexByte(s: string, c: char) returns (n: nat)
    ensures n == Find(s, c)
  {
    n := 0;
    while n < |s| && s[n] != c
      invariant n <= |s| && forall i :: 0 <= i < n ==> s[i] != c
    {
      n := n + 1;
    }
  }

  /** `shellVariableReference`, from the dollar sign at `index`. */
  method VariableReference(value: string, index: nat) returns (name: string, next: nat, ok: bool)
    requires index < |value|
    ensures ok <==> ReferenceAt(value[index..]).Some?
    ensures ok ==> ReferenceAt(value[index..]) == Some((name, next - index)) && index < next <= |value|
  {
    var s := value[index..];
    if index + 1 >= |value| {
      return "", index + 1, false;
    }
    if value[index + 1] == '{' {
      assert s[2..] == value[index + 2..];
      var closing := IndexByte(value[index + 2..], '}');
      if closing == |value| - index - 2 {
        return "", index + 1, false;
      }
      name := value[index + 2..index + 2 + closing];
      assert name == s[2..2 + closing];
      ok := CheckName(name);
      return name, index + closing + 3, ok;
    }
    if !NameStart(value[index + 1]) {
      return "", index + 1, false;
    }
    var end := index + 2;
    while end < |value| && NamePart(value[end])
      invariant index + 2 <= end <= |value| && forall i :: index + 2 <= i < end ==> NamePart(value[i])
    {
      end := end + 1;
    }
    assert forall i :: 0 <= i < |s[2..]| ==> s[2..][i] == value[index + 2 + i];
    assert value[index + 1..end] == s[1..end - index];
    return value[index + 1..end], end, true;
  }

  /** `stripShellInlineComment`. */
  method StripInlineComment(value: string) returns (r: string)
    ensures r == value[..CommentAt(value, Bare, false, false, None)]
  {
    var quote, escaped, escapedBlank := Bare, false, false;
    var i := 0;
    assert value[0..] == value;
    while i < |value|
      invariant 0 <= i <= |value|
      invariant i + CommentAt(value[i..], quote, escaped, escapedBlank, if i == 0 then None else Some(value[i - 1])) ==
        CommentAt(value, Bare, false, false, None)
    {
      var c := value[i];
      assert value[i..][0] == c && value[i..][1..] == value[i + 1..];
      if escaped {
        escaped := false;
        escapedBlank := c == ' ' || c == '\t';
      } else if c == '\\' && !quote.Single? {
        escaped := true;
        escapedBlank := false;
      } else if !quote.Bare? {
        if (quote.Single? && c == '\'') || (quote.Double? && c == '"') {
          quote := Bare;
        }
        escapedBlank := false;
      } else if c == '\'' || c == '"' {
        quote := if c == '"' then Double else Single;
        escapedBlank := false;
      } else {
        if c == '#' && i > 0 && (value[i - 1] == ' ' || value[i - 1] == '\t') && !escapedBlank {
          return value[..i];
        }
        escapedBlank := false;
      }
      i := i + 1;
    }
    r := value;
    assert value[..|value|] == value;
  }

  /** What the next byte of a word does. */
  datatype Move = Emit(text: string, quote: Quote, escaped: bool) | Refer(name: string, next: nat) | Stop(error: Error)

  ghost predicate Means(move: Move, value: string, index: nat, quote: Quote, escaped: bool)
    requires index < |value|
  {
    var now := Read(value[index..], quote, escaped);
    match move
    case Emit(text, q, e) =>
      var rest := Read(value[index + 1..], q, e);
      now == if text == "" then rest else With(Text(text), rest)
    case Refer(name, next) => index < next <= |value| && now == With(Reference(name), Read(value[next..], quote, false))
    case Stop(error) => now == Word([], Some(error))
  }

  /** One turn of the loop of `unquoteShellWord`. */
  method Next(value: string, index: nat, quote: Quote, escaped: bool) returns (move: Move)
    requires index < |value|
    ensures Means(move, value, index, quote, escaped)
  {
    var c := value[index];
    ghost var s := value[index..];
    assert s[0] == c && s[1..] == value[index + 1..];
    if escaped {
      return Emit(Escaped(quote, c), quote, false);
    }
    if c == '$' && !quote.Single? {
      var name, next, ok := VariableReference(value, index);
      if !ok {
        return Stop(BadExpansion);
      }
      assert s[next - index..] == value[next..];
      return Refer(name, next);
    }
    if c == '`' && !quote.Single? {
      return Stop(CommandSubstitution);
    }
    if quote.Bare? {
      if Blank(c) {
        return Stop(BareWhitespace);
      }
      if Special(c) {
        return Stop(BadSyntax(c));
      }
    }
    if quote.Single? {
      return if c == '\'' then Emit("", Bare, false) else Emit([c], quote, false);
    }
    if c == '\\' {
      return Emit("", quote, true);
    }
    if quote.Double? {
      return if c == '"' then Emit("", Bare, false) else Emit([c], quote, false);
    }
    if c == '\'' || c == '"' {
      return Emit("", if c == '"' then Double else Single, false);
    }
    move := Emit([c], quote, false);
  }

  // ---------------------------------------------------------------- the resolver

  /** What was read so far is `result`; what the rest of the word gives completes it. */
  ghost predicate Halfway(scope: Scope, path: set<string>, whole: Word, result: string, rest: Word, values: map<string, string>) {
    && ExpandWord(scope, path, whole) == Prepend(result, ExpandWord(scope, path, rest))
    && References(whole.pieces) <= values.Keys + References(rest.pieces) && whole.error == rest.error
  }

  lemma TextHalfway(scope: Scope, path: set<string>, whole: Word, result: string, text: string, rest: Word, values: map<string, string>)
    requires Halfway(scope, path, whole, result, With(Text(text), rest), values)
    ensures Halfway(scope, path, whole, result + text, rest, values)
  {
    ExpandWith(scope, path, Text(text), rest);
    assert References(With(Text(text), rest).pieces) == References(rest.pieces);
    Associate(result, text, ExpandWord(scope, path, rest));
    hide ExpandWord, References;
  }

  lemma Associate(a: string, b: string, r: Result)
    ensures Prepend(a, Prepend(b, r)) == Prepend(a + b, r)
  {
    if r.Ok? {
      assert a + b + r.value == a + (b + r.value);
    }
  }

  lemma ReferenceHalfway(scope: Scope, path: set<string>, whole: Word, result: string, name: string, rest: Word,
                         before: map<string, string>, values: map<string, string>)
    requires Halfway(scope, path, whole, result, With(Reference(name), rest), before)
    requires name in values && before.Keys <= values.Keys && Expand(scope, path, name) == Ok(values[name])
    ensures Halfway(scope, path, whole, result + values[name], rest, values)
  {
    ExpandWith(scope, path, Reference(name), rest);
    assert References(With(Reference(name), rest).pieces) == References(rest.pieces) + {name} by {
      assert Reference(name) in [Reference(name)] + rest.pieces;
    }
    Associate(result, values[name], ExpandWord(scope, path, rest));
    hide ExpandWord, References;
  }

  lemma ReferenceFails(scope: Scope, path: set<string>, whole: Word, result: string, name: string, rest: Word, values: map<string, string>)
    requires Halfway(scope, path, whole, result, With(Reference(name), rest), values) && Expand(scope, path, name).Err?
    ensures ExpandWord(scope, path, whole) == Expand(scope, path, name)
  {
    ExpandWith(scope, path, Reference(name), rest);
    hide ExpandWord, References;
  }

  function InProgress(states: map<string, nat>): set<string> {
    set n | n in states && states[n] == 1 :: n
  }

  lemma Busy(states: map<string, nat>, n: string)
    ensures n in InProgress(states) <==> n in states && states[n] == 1
  {
  }

  lemma Progress(states: map<string, nat>, name: string)
    ensures InProgress(states[name := 1]) == InProgress(states) + {name}
    ensures InProgress(states[name := 2]) == InProgress(states) - {name}
    ensures InProgress(states - {name}) == InProgress(states) - {name}
  {
    forall n
      ensures n in InProgress(states[name := 1]) <==> n in InProgress(states) + {name}
      ensures n in InProgress(states[name := 2]) <==> n in InProgress(states) - {name}
      ensures n in InProgress(states - {name}) <==> n in InProgress(states) - {name}
    {
      Busy(states, n);
      Busy(states[name := 1], n);
      Busy(states[name := 2], n);
      Busy(states - {name}, n);
      hide InProgress;
    }
  }

  class Resolver {
    const scope: Scope
    var states: map<string, nat>
    var values: map<string, string>

    constructor (s: Scope)
      ensures Valid() && Path() == {} && scope == s
    {
      scope, states, values := s, map[], map[];
    }

    /** The names being resolved. */
    ghost function Path(): set<string>
      reads this
    {
      InProgress(states)
    }

    ghost predicate Valid()
      reads this
    {
      Path() <= scope.assignments.Keys && Path() !! values.Keys && Remembered(scope, values)
    }

    /** `resolve`: exactly plain expansion along the names being resolved, cycles included. */
    method Resolve(name: string) returns (r: Result)
      requires Valid()
      modifies this
      ensures Valid() && Path() == old(Path()) && old(values).Keys <= values.Keys
      ensures r == Expand(scope, Path(), name)
      ensures r.Ok? ==> name in values && values[name] == r.value
      decreases |scope.assignments.Keys - Path()|, 0
    {
      hide Remembered, WordOf, InProgress;
      if name in values {
        assert Expand(scope, Path(), name) == Ok(values[name]) by { Recall(scope, values, Path(), name); }
        return Ok(values[name]);
      }
      Busy(states, name);
      if name in states && states[name] == 1 {
        return Err(Cycle(name));
      }
      if name !in scope.assignments {
        RememberOutside(scope, values, name);
        var value := if name in scope.environment then scope.environment[name] else "";
        values := values[name := value];
        return Ok(value);
      }
      ghost var path := Path();
      Progress(states, name);
      states := states[name := 1];
      assert Path() == path + {name};
      KeysLeft(scope, path, name);
      r := Parse(scope.assignments[name]);
      Progress(states, name);
      assert path + {name} - {name} == path;
      if r.Err? {
        states := states - {name};
        return;
      }
      Remember(scope, values, path, name, r.value);
      states := states[name := 2];
      values := values[name := r.value];
    }

    /** `parseShellEnvironmentValue`. */
    method Parse(raw: string) returns (r: Result)
      requires Valid()
      modifies this
      ensures Valid() && Path() == old(Path()) && old(values).Keys <= values.Keys
      ensures r == ExpandWord(scope, Path(), WordOf(raw))
      ensures r.Ok? ==> WordOf(raw).error.None? && References(WordOf(raw).pieces) <= values.Keys
      decreases |scope.assignments.Keys - Path()|, 2
    {
      var stripped := StripInlineComment(raw);
      var trimmed := Trim(stripped);
      assert WordOf(raw) == Read(trimmed, Bare, false);
      hide Remembered, WordOf, Read;
      r := Unquote(trimmed);
    }

    /** `unquoteShellWord`. */
    method Unquote(value: string) returns (r: Result)
      requires Valid()
      modifies this
      ensures Valid() && Path() == old(Path()) && old(values).Keys <= values.Keys
      ensures r == ExpandWord(scope, Path(), Read(value, Bare, false))
      ensures r.Ok? ==> Read(value, Bare, false).error.None? && References(Read(value, Bare, false).pieces) <= values.Keys
      decreases |scope.assignments.Keys - Path()|, 1
    {
      hide Remembered, Halfway, References, ExpandWord, Read;
      var result := "";
      var quote, escaped := Bare, false;
      var index := 0;
      ghost var path, whole := Path(), Read(value, Bare, false);
      assert value[0..] == value;
      Begin(scope, path, whole, values);
      while index < |value|
        invariant 0 <= index <= |value|
        invariant Valid() && Path() == path && old(values).Keys <= values.Keys
        invariant Halfway(scope, path, whole, result, Read(value[index..], quote, escaped), values)
        decreases |value| - index
      {
        var move := Next(value, index, quote, escaped);
        match move {
          case Stop(error) =>
            Stopped(scope, path, whole, result, error, values);
            return Err(error);
          case Refer(name, next) =>
            ghost var before, rest := values, Read(value[next..], quote, false);
            var found := Resolve(name);
            if found.Err? {
              ReferenceFails(scope, path, whole, result, name, rest, before);
              return found;
            }
            ReferenceHalfway(scope, path, whole, result, name, rest, before, values);
            result := result + found.value;
            index := next;
            escaped := false;
          case Emit(text, nextQuote, nextEscaped) =>
            if text != "" {
              TextHalfway(scope, path, whole, result, text, Read(value[index + 1..], nextQuote, nextEscaped), values);
              result := result + text;
            }
            index, quote, escaped := index + 1, nextQuote, nextEscaped;
        }
      }
      assert value[index..] == "";
      AtEnd(scope, path, whole, result, quote, escaped, values);
      if escaped {
        return Err(OpenEscape);
      }
      if !quote.Bare? {
        return Err(OpenQuote);
      }
      r := Ok(result);
    }
  }

  lemma Recall(scope: Scope, values: map<string, string>, path: set<string>, name: string)
    requires Remembered(scope, values) && name in values && path !! values.Keys
    ensures Expand(scope, path, name) == Ok(values[name])
  {
  }

  lemma Begin(scope: Scope, path: set<string>, whole: Word, values: map<string, string>)
    ensures Halfway(scope, path, whole, "", whole, values)
  {
    var r := ExpandWord(scope, path, whole);
    assert r.Ok? ==> "" + r.value == r.value;
  }

  lemma Stopped(scope: Scope, path: set<string>, whole: Word, result: string, error: Error, values: map<string, string>)
    requires Halfway(scope, path, whole, result, Word([], Some(error)), values)
    ensures ExpandWord(scope, path, whole) == Err(error)
  {
  }

  lemma AtEnd(scope: Scope, path: set<string>, whole: Word, result: string, quote: Quote, escaped: bool, values: map<string, string>)
    requires Halfway(scope, path, whole, result, Read("", quote, escaped), values)
    ensures ExpandWord(scope, path, whole) ==
      if escaped then Err(OpenEscape) else if !quote.Bare? then Err(OpenQuote) else Ok(result)
    ensures !escaped && quote.Bare? ==> whole.error.None? && References(whole.pieces) <= values.Keys
  {
    assert result + "" == result;
  }
}
