/** Joining an argument vector into a command line, and the word splitting that undoes it. */
module ShellJoin {
  import opened Options
  import opened ShellWord

  function Pending(current: string): seq<string> {
    if current == "" then [] else [current]
  }

  /** The shell's own view of a line: words end at blanks outside quotes and escapes, and blanks alone
      make no word. `current` is the part of the present word already seen. */
  function Tokens(s: string, quote: Quote, escaped: bool, current: string): seq<string>
    decreases |s|
  {
    if s == "" then Pending(current)
    else
      var c, rest, grown := s[0], s[1..], current + [s[0]];
      if escaped then Tokens(rest, quote, false, grown)
      else if c == '\\' && !quote.Single? then Tokens(rest, quote, true, grown)
      else if quote.Single? then Tokens(rest, if c == '\'' then Bare else Single, false, grown)
      else if quote.Double? then Tokens(rest, if c == '"' then Bare else Double, false, grown)
      else if c == ' ' then Pending(current) + Tokens(rest, Bare, false, "")
      else Tokens(rest, if c == '\'' then Single else if c == '"' then Double else Bare, false, grown)
  }

  function Joined(argv: seq<string>): string {
    if argv == [] then "" else if |argv| == 1 then Quoted(argv[0]) else Quoted(argv[0]) + " " + Joined(argv[1..])
  }

  /** `ShellJoin`. */
  method Join(argv: seq<string>) returns (line: string)
    ensures line == Joined(argv)
  {
    var quoted: seq<string> := [];
    var i := 0;
    while i < |argv|
      invariant 0 <= i <= |argv| && |quoted| == i && forall j :: 0 <= j < i ==> quoted[j] == Quoted(argv[j])
    {
      quoted := quoted + [Quoted(argv[i])];
      i := i + 1;
    }
    line := "";
    while i > 0
      invariant 0 <= i <= |argv| && line == Joined(argv[i..])
    {
      i := i - 1;
      assert argv[i..][1..] == argv[i + 1..];
      line := if i == |argv| - 1 then quoted[i] else quoted[i] + " " + line;
    }
    assert argv[0..] == argv;
  }

  // ---------------------------------------------------------------- splitting undoes joining

  lemma StepTokens(c: char, rest: string, quote: Quote, current: string)
    requires c == '\'' || c == '"' || quote.Single? || (quote.Bare? && Safe(c))
    ensures Tokens([c] + rest, quote, false, current) ==
      Tokens(rest,
        if quote.Bare? then (if c == '\'' then Single else if c == '"' then Double else Bare)
        else if (quote.Single? && c == '\'') || (quote.Double? && c == '"') then Bare else quote,
        false, current + [c])
  {
    var s := [c] + rest;
    assert s[0] == c && s[1..] == rest;
  }

  lemma TokensQuoteMark(rest: string, current: string)
    ensures Tokens("'\"'\"'" + rest, Single, false, current) == Tokens(rest, Single, false, current + "'\"'\"'")
  {
    hide Tokens;
    var d, c, b, a := "'" + rest, "\"'" + rest, "'\"'" + rest, "\"'\"'" + rest;
    assert "'\"'\"'" + rest == ['\''] + a;
    StepTokens('\'', a, Single, current);
    assert a == ['"'] + b;
    StepTokens('"', b, Bare, current + ['\'']);
    assert b == ['\''] + c;
    StepTokens('\'', c, Double, current + ['\''] + ['"']);
    assert c == ['"'] + d;
    StepTokens('"', d, Double, current + ['\''] + ['"'] + ['\'']);
    assert d == ['\''] + rest;
    StepTokens('\'', rest, Bare, current + ['\''] + ['"'] + ['\''] + ['"']);
    assert current + ['\''] + ['"'] + ['\''] + ['"'] + ['\''] == current + "'\"'\"'";
  }

  lemma TokensPiece(c: char, rest: string, current: string)
    ensures var piece := if c == '\'' then "'\"'\"'" else [c];
      Tokens(piece + rest, Single, false, current) == Tokens(rest, Single, false, current + piece)
  {
    hide Tokens;
    if c == '\'' {
      TokensQuoteMark(rest, current);
    } else {
      StepTokens(c, rest, Single, current);
    }
  }

  lemma Regroup(a: string, b: string, c: string)
    ensures a + b + c == a + (b + c)
  {
  }

  lemma {:induction false} TokensRequoted(s: string, rest: string, current: string)
    ensures Tokens(Requoted(s) + rest, Single, false, current) == Tokens(rest, Single, false, current + Requoted(s))
    decreases |s|
  {
    hide Tokens;
    if s == "" {
      assert Requoted(s) + rest == rest && current + Requoted(s) == current;
    } else {
      var piece, tail := if s[0] == '\'' then "'\"'\"'" else [s[0]], Requoted(s[1..]);
      assert Requoted(s) == piece + tail;
      hide Requoted;
      Regroup(piece, tail, rest);
      TokensPiece(s[0], tail + rest, current);
      TokensRequoted(s[1..], rest, current + piece);
      Regroup(current, piece, tail);
    }
  }

  lemma {:induction false} TokensSafe(s: string, rest: string, current: string)
    requires forall i :: 0 <= i < |s| ==> Safe(s[i])
    ensures Tokens(s + rest, Bare, false, current) == Tokens(rest, Bare, false, current + s)
    decreases |s|
  {
    hide Tokens;
    if s == "" {
      assert s + rest == rest && current + s == current;
    } else {
      assert s + rest == [s[0]] + (s[1..] + rest);
      StepTokens(s[0], s[1..] + rest, Bare, current);
      TokensSafe(s[1..], rest, current + [s[0]]);
      assert current + [s[0]] + s[1..] == current + s;
    }
  }

  lemma TokensWrapped(w: string, rest: string)
    ensures Tokens("'" + Requoted(w) + "'" + rest, Bare, false, "") == Tokens(rest, Bare, false, "'" + Requoted(w) + "'")
  {
    hide Tokens, Requoted;
    var q := Requoted(w);
    var tail := "'" + rest;
    assert "'" + q + "'" + rest == ['\''] + (q + tail);
    StepTokens('\'', q + tail, Bare, "");
    assert "" + ['\''] == "'";
    TokensRequoted(w, tail, "'");
    assert tail == ['\''] + rest;
    StepTokens('\'', rest, Single, "'" + q);
    assert "'" + q + ['\''] == "'" + q + "'";
  }

  lemma TokensQuoted(w: string, rest: string)
    ensures Tokens(Quoted(w) + rest, Bare, false, "") == Tokens(rest, Bare, false, Quoted(w))
  {
    hide Tokens;
    if w != "" && forall i :: 0 <= i < |w| ==> Safe(w[i]) {
      TokensSafe(w, rest, "");
      assert "" + w == w;
    } else {
      assert Quoted(w) == "'" + Requoted(w) + "'";
      hide Quoted;
      TokensWrapped(w, rest);
    }
  }

  lemma QuotedIsAWord(w: string)
    ensures Quoted(w) != ""
  {
  }

  function AllQuoted(argv: seq<string>): seq<string> {
    seq(|argv|, i requires 0 <= i < |argv| => Quoted(argv[i]))
  }

  lemma AllQuotedFirst(argv: seq<string>)
    requires argv != []
    ensures AllQuoted(argv) == [Quoted(argv[0])] + AllQuoted(argv[1..])
  {
    hide Quoted;
  }

  lemma OneWord(w: string)
    ensures Tokens(Quoted(w), Bare, false, "") == [Quoted(w)]
  {
    TokensQuoted(w, "");
    QuotedIsAWord(w);
    hide Quoted;
    assert Quoted(w) + "" == Quoted(w);
  }

  lemma FirstWord(w: string, rest: string)
    ensures Tokens(Quoted(w) + " " + rest, Bare, false, "") == [Quoted(w)] + Tokens(rest, Bare, false, "")
  {
    QuotedIsAWord(w);
    hide Quoted;
    var blank := " " + rest;
    Regroup(Quoted(w), " ", rest);
    TokensQuoted(w, blank);
    assert blank[0] == ' ' && blank[1..] == rest;
  }

  lemma {:induction false} WordsOfJoined(argv: seq<string>)
    ensures Tokens(Joined(argv), Bare, false, "") == AllQuoted(argv)
  {
    hide Quoted, Tokens, AllQuoted;
    if argv == [] {
      NoWords(argv);
    } else {
      AllQuotedFirst(argv);
      if |argv| == 1 {
        NoWords(argv[1..]);
        OneWord(argv[0]);
      } else {
        FirstWord(argv[0], Joined(argv[1..]));
        WordsOfJoined(argv[1..]);
      }
    }
  }

  lemma NoWords(argv: seq<string>)
    requires argv == []
    ensures AllQuoted(argv) == [] && Tokens("", Bare, false, "") == []
  {
  }

  /** The words of a joined line are the quoted arguments, one for one; each reads back to its
      argument. */
  lemma JoinSplitsBack(argv: seq<string>)
    ensures Tokens(Joined(argv), Bare, false, "") == AllQuoted(argv)
    ensures forall i :: 0 <= i < |argv| ==> Reads(WordOf(AllQuoted(argv)[i]), argv[i])
  {
    WordsOfJoined(argv);
    forall i | 0 <= i < |argv|
      ensures Reads(WordOf(AllQuoted(argv)[i]), argv[i])
    {
      hide Quoted, WordOf, Reads;
      QuotedReadsBack(argv[i]);
    }
  }
}
