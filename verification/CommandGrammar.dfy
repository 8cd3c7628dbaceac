/**
 A grammar for command lines, independent of how they are read: an argument is
 spelled piece by piece, every line has a spelling, and what a line is read as is
 what its spelling means (scripts/devnet/upload-process-classifier.mjs).
 */
module CommandGrammar {
  import opened CommandLine

  /**
   A character as it is; backslashes that stand for themselves; backslashes and a quote that stand for half of them
   and the quote, or for half of them and the begin or end of a quoted part; and two quotes that stand for one.
   */
  datatype Piece = Plain(c: char) | Slashes(n: nat) | Escaped(n: nat) | Turn(n: nat) | Doubled

  function Spelling(p: Piece): (s: string)
    ensures s != "" || p == Slashes(0)
  {
    match p
    case Plain(c) => [c]
    case Slashes(n) => Backslashes(n)
    case Escaped(n) => Backslashes(2 * n + 1) + "\""
    case Turn(n) => Backslashes(2 * n) + "\""
    case Doubled => "\"\""
  }

  function Meaning(p: Piece): string {
    match p
    case Plain(c) => [c]
    case Slashes(n) => Backslashes(n)
    case Escaped(n) => Backslashes(n) + "\""
    case Turn(n) => Backslashes(n)
    case Doubled => "\""
  }

  predicate StartsWith(s: string, c: char) {
    s != "" && s[0] == c
  }

  /** The piece may stand here, inside or outside quotes, with `tail` after it. */
  predicate Stands(p: Piece, quoted: bool, tail: string) {
    match p
    case Plain(c) => c != '\\' && c != '"' && (quoted || !IsSpace(c))
    case Slashes(n) => n > 0 && !StartsWith(tail, '\\') && !StartsWith(tail, '"')
    case Escaped(n) => true
    case Turn(n) => quoted && n == 0 ==> !StartsWith(tail, '"')
    case Doubled => quoted
  }

  function Spelled(pieces: seq<Piece>): string {
    if pieces == [] then "" else Spelling(pieces[0]) + Spelled(pieces[1..])
  }

  function Meant(pieces: seq<Piece>): string {
    if pieces == [] then "" else Meaning(pieces[0]) + Meant(pieces[1..])
  }

  /** The pieces spell an argument that ends where `rest` begins: at white space outside quotes, or with the line. */
  predicate WellSpelled(pieces: seq<Piece>, quoted: bool, rest: string) {
    if pieces == [] then rest == "" || (!quoted && IsSpace(rest[0]))
    else
      && Stands(pieces[0], quoted, Spelled(pieces[1..]) + rest)
      && WellSpelled(pieces[1..], if pieces[0].Turn? then !quoted else quoted, rest)
  }

  lemma {:induction false} PieceIsRead(p: Piece, quoted: bool, tail: string, read: string)
    requires Stands(p, quoted, tail)
    ensures Argument(Spelling(p) + tail, quoted, read)
      == Argument(tail, if p.Turn? then !quoted else quoted, read + Meaning(p))
  {
    hide IsSpace, Argument;
    if p.Plain? {
      ReadsCharacter(p.c, tail, quoted, read);
    } else if p.Slashes? {
      ReadsSlashes(p.n, tail, quoted, read);
    } else if p.Escaped? {
      ReadsSlashesAndQuote(2 * p.n + 1, tail, quoted, read);
      assert read + Backslashes(p.n) + "\"" == read + Meaning(p);
    } else if p.Turn? {
      if p.n == 0 {
        ReadsTurn(tail, quoted, read);
        assert Spelling(p) == "\"" && read + Meaning(p) == read;
      } else {
        ReadsSlashesAndQuote(2 * p.n, tail, quoted, read);
      }
    } else {
      ReadsDoubledQuote(tail, read);
    }
  }

  lemma {:induction false} ReadsTurn(tail: string, quoted: bool, read: string)
    requires quoted ==> !StartsWith(tail, '"')
    ensures Argument("\"" + tail, quoted, read) == Argument(tail, !quoted, read)
  {
    ReadsQuote(tail, quoted, read);
  }

  /** An argument is read as what its spelling means, up to where it ends. */
  lemma {:induction false} SpelledIsRead(pieces: seq<Piece>, quoted: bool, rest: string, read: string)
    requires WellSpelled(pieces, quoted, rest)
    ensures Argument(Spelled(pieces) + rest, quoted, read) == (read + Meant(pieces), rest)
    decreases |pieces|
  {
    hide IsSpace, Stands, Argument, Spelling, Meaning;
    if pieces == [] {
      assert "" + rest == rest && read + "" == read;
      ArgumentEnds(rest, quoted, read);
    } else {
      var tail := Spelled(pieces[1..]) + rest;
      assert Spelled(pieces) + rest == Spelling(pieces[0]) + tail;
      PieceIsRead(pieces[0], quoted, tail, read);
      var turned := if pieces[0].Turn? then !quoted else quoted;
      SpelledIsRead(pieces[1..], turned, rest, read + Meaning(pieces[0]));
      assert read + Meant(pieces) == read + Meaning(pieces[0]) + Meant(pieces[1..]);
    }
  }

  /** The first piece of a line on which an argument goes on. */
  lemma {:induction false} FirstPiece(s: string, quoted: bool) returns (p: Piece, tail: string)
    requires s != "" && (quoted || !IsSpace(s[0]))
    ensures s == Spelling(p) + tail && Stands(p, quoted, tail) && |tail| < |s|
  {
    hide IsSpace;
    if s[0] == '\\' {
      var run := SlashRun(s);
      if run < |s| && s[run] == '"' {
        tail := s[run + 1..];
        p := if run % 2 == 1 then Escaped(run / 2) else Turn(run / 2);
        assert s == s[..run] + [s[run]] + s[run + 1..];
      } else {
        tail := s[run..];
        p := Slashes(run);
        assert s == s[..run] + s[run..];
      }
    } else if s[0] == '"' {
      if quoted && |s| > 1 && s[1] == '"' {
        p, tail := Doubled, s[2..];
        assert s == "\"\"" + s[2..];
      } else {
        p, tail := Turn(0), s[1..];
        assert s == Backslashes(0) + "\"" + s[1..];
      }
    } else {
      p, tail := Plain(s[0]), s[1..];
      assert s == [s[0]] + s[1..];
    }
  }

  /** Every line has a spelling, from wherever an argument is being read. */
  lemma {:induction false} EveryLineIsSpelled(s: string, quoted: bool) returns (pieces: seq<Piece>, rest: string)
    ensures s == Spelled(pieces) + rest && WellSpelled(pieces, quoted, rest)
    decreases |s|
  {
    hide IsSpace, Stands, Spelling;
    if s == "" || (!quoted && IsSpace(s[0])) {
      pieces, rest := [], s;
      assert s == "" + rest;
    } else {
      var p, tail := FirstPiece(s, quoted);
      var more;
      more, rest := EveryLineIsSpelled(tail, if p.Turn? then !quoted else quoted);
      pieces := [p] + more;
      assert pieces[1..] == more;
      assert s == Spelled(pieces) + rest;
    }
  }

  // ----- whole lines

  /** An argument as it is spelled, and the white space after it. */
  datatype Word = Word(pieces: seq<Piece>, gap: string)

  function Line(words: seq<Word>): string {
    if words == [] then "" else Spelled(words[0].pieces) + (words[0].gap + Line(words[1..]))
  }

  /** Every argument has pieces and ends where its gap or the line does, and gaps are white space. */
  predicate WellLined(words: seq<Word>) {
    words == [] ||
    (&& words[0].pieces != []
     && WellSpelled(words[0].pieces, false, words[0].gap + Line(words[1..]))
     && (forall i :: 0 <= i < |words[0].gap| ==> IsSpace(words[0].gap[i]))
     && WellLined(words[1..]))
  }

  function MeantBy(words: seq<Word>): seq<string> {
    if words == [] then [] else [Meant(words[0].pieces)] + MeantBy(words[1..])
  }

  /** A line is read as exactly the arguments its spelling means, whatever white space is around them. */
  lemma {:induction false} LineIsRead(words: seq<Word>, margin: string)
    requires WellLined(words) && forall i :: 0 <= i < |margin| ==> IsSpace(margin[i])
    ensures Arguments(margin + Line(words)) == MeantBy(words)
    decreases |words|
  {
    hide IsSpace, Argument, Spelled, Meant;
    var whole := margin + Line(words);
    if words == [] {
      SpaceRunIs(whole, |whole|);
    } else {
      var rest := words[0].gap + Line(words[1..]);
      var start := Spelled(words[0].pieces) + rest;
      SpelledStarts(words[0].pieces, rest);
      SpelledIsRead(words[0].pieces, false, rest, "");
      assert "" + Meant(words[0].pieces) == Meant(words[0].pieces);
      SpaceRunIs(whole, |margin|);
      assert whole[|margin|..] == start;
      LineIsRead(words[1..], words[0].gap);
    }
  }

  lemma {:induction false} SpelledStarts(pieces: seq<Piece>, rest: string)
    requires pieces != [] && WellSpelled(pieces, false, rest)
    ensures Spelled(pieces) != "" && !IsSpace(Spelled(pieces)[0])
  {
    assert Stands(pieces[0], false, Spelled(pieces[1..]) + rest);
  }

  /** Every line has a spelling: so the parser is what the grammar says, on every input. */
  lemma {:induction false} EveryLineIsLined(s: string) returns (margin: string, words: seq<Word>)
    ensures s == margin + Line(words) && WellLined(words) && forall i :: 0 <= i < |margin| ==> IsSpace(margin[i])
    ensures Arguments(s) == MeantBy(words)
    decreases |s|
  {
    hide IsSpace, Argument, Meant;
    margin := s[..SpaceRun(s)];
    var start := s[SpaceRun(s)..];
    assert s == margin + start;
    if start == "" {
      words := [];
    } else {
      var pieces, rest := EveryLineIsSpelled(start, false);
      assert pieces == [] ==> start == rest;
      SpelledStarts(pieces, rest);
      var gap, more := EveryLineIsLined(rest);
      words := [Word(pieces, gap)] + more;
      assert words[1..] == more;
      assert Line(words) == start;
    }
    LineIsRead(words, margin);
  }
}
