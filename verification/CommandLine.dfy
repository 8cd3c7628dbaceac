/**
 Splitting a Windows command line into arguments, as
 scripts/devnet/upload-process-classifier.mjs does when it inspects the
 command lines of other processes, and the quoting rules it must undo.
 */
module CommandLine {

  /** The characters that JavaScript's white-space class matches. */
  predicate IsSpace(c: char) {
    var code := c as int;
    || 9 <= code <= 13 || code == 32 || code == 0xA0 || code == 0x1680
    || 0x2000 <= code <= 0x200A || code == 0x2028 || code == 0x2029
    || code == 0x202F || code == 0x205F || code == 0x3000 || code == 0xFEFF
  }

  function Backslashes(n: nat): (s: string)
    ensures |s| == n && forall i :: 0 <= i < n ==> s[i] == '\\'
  {
    seq(n, _ => '\\')
  }

  /** Length of the run of backslashes at the front of `s`. */
  function SlashRun(s: string): (n: nat)
    ensures n <= |s| && s[..n] == Backslashes(n)
    ensures n < |s| ==> s[n] != '\\'
  {
    if s != "" && s[0] == '\\' then 1 + SlashRun(s[1..]) else 0
  }

  /** Length of the run of white space at the front of `s`. */
  function SpaceRun(s: string): (n: nat)
    ensures n <= |s| && forall i :: 0 <= i < n ==> IsSpace(s[i])
    ensures n < |s| ==> !IsSpace(s[n])
  {
    if s != "" && IsSpace(s[0]) then 1 + SpaceRun(s[1..]) else 0
  }

  // ----- what the parser computes

  /** Reads one argument from the front of `s`; gives back its text and the rest of the line. */
  function Argument(s: string, quoted: bool, text: string): (r: (string, string))
    ensures |r.1| <= |s|
    ensures s != "" && (quoted || !IsSpace(s[0])) ==> |r.1| < |s|
    decreases |s|
  {
    if s == "" || (!quoted && IsSpace(s[0])) then (text, s)
    else if s[0] == '\\' then
      var run := SlashRun(s);
      if run < |s| && s[run] == '"' then
        if run % 2 == 1
        then Argument(s[run + 1..], quoted, text + Backslashes(run / 2) + "\"")
        else Argument(s[run + 1..], !quoted, text + Backslashes(run / 2))
      else
        Argument(s[run..], quoted, text + Backslashes(run))
    else if s[0] == '"' then
      if quoted && |s| > 1 && s[1] == '"'
      then Argument(s[2..], quoted, text + "\"")
      else Argument(s[1..], !quoted, text)
    else
      Argument(s[1..], quoted, text + [s[0]])
  }

  function Arguments(s: string): seq<string>
    decreases |s|
  {
    var start := s[SpaceRun(s)..];
    if start == "" then []
    else
      var (text, rest) := Argument(start, false, "");
      [text] + Arguments(rest)
  }

  // ----- the parser

  method ParseWindowsCommandLine(input: string) returns (argv: seq<string>)
    ensures argv == Arguments(input)
  {
    hide IsSpace, Argument;
    argv := [];
    var index := 0;
    while index < |input|
      invariant 0 <= index <= |input|
      invariant Arguments(input) == argv + Arguments(input[index..])
    {
      ghost var before := index;
      index := SkipSpaces(input, index);
      if index >= |input| {
        assert input[before..][SpaceRun(input[before..])..] == "";
        break;
      }
      ghost var start := input[index..];
      assert start == input[before..][SpaceRun(input[before..])..];
      var argument;
      argument, index := ParseArgument(input, index);
      argv := argv + [argument];
      ghost var rest := input[index..];
      index := SkipSpaces(input, index);
      SkippedSpaces(rest, input[index..]);
    }
    assert input[index..] == "";
  }

  /** Reads one argument from `from` on, backslash runs and quotes included. */
  method ParseArgument(input: string, from: nat) returns (argument: string, index: nat)
    requires from <= |input|
    ensures from <= index <= |input|
    ensures Argument(input[from..], false, "") == (argument, input[index..])
  {
    hide IsSpace, Argument, SlashRun;
    index := from;
    argument := "";
    var quoted := false;
    while index < |input| && (quoted || !IsSpace(input[index]))
      invariant from <= index <= |input|
      invariant Argument(input[from..], false, "") == Argument(input[index..], quoted, argument)
    {
      ghost var s := input[index..];
      if input[index] == '\\' {
        var slashCount := CountSlashes(input, index);
        ghost var after := input[index + slashCount..];
        SplitSlashes(input, index, slashCount);
        if index + slashCount < |input| && input[index + slashCount] == '"' {
          ReadsSlashesAndQuote(slashCount, input[index + slashCount + 1..], quoted, argument);
          argument := argument + Backslashes(slashCount / 2);
          if slashCount % 2 == 1 {
            argument := argument + "\"";
          } else {
            quoted := !quoted;
          }
          index := index + slashCount + 1;
        } else {
          ReadsSlashes(slashCount, after, quoted, argument);
          argument := argument + Backslashes(slashCount);
          index := index + slashCount;
        }
      } else if input[index] == '"' {
        if quoted && index + 1 < |input| && input[index + 1] == '"' {
          assert s == "\"\"" + input[index + 2..];
          ReadsDoubledQuote(input[index + 2..], argument);
          argument := argument + "\"";
          index := index + 2;
        } else {
          assert s == "\"" + input[index + 1..];
          ReadsQuote(input[index + 1..], quoted, argument);
          quoted := !quoted;
          index := index + 1;
        }
      } else {
        assert s == [input[index]] + input[index + 1..];
        ReadsCharacter(input[index], input[index + 1..], quoted, argument);
        argument := argument + [input[index]];
        index := index + 1;
      }
    }
    ArgumentEnds(input[index..], quoted, argument);
  }

  lemma {:induction false} SplitSlashes(input: string, index: nat, n: nat)
    requires index + n <= |input| && input[index..][..n] == Backslashes(n)
    ensures input[index..] == Backslashes(n) + input[index + n..]
    ensures index + n < |input| && input[index + n] == '"' ==>
              input[index..] == Backslashes(n) + "\"" + input[index + n + 1..]
  {
    assert input[index..] == input[index..][..n] + input[index..][n..];
    assert input[index..][n..] == input[index + n..];
  }

  lemma {:induction false} ArgumentEnds(rest: string, quoted: bool, read: string)
    requires rest == "" || (!quoted && IsSpace(rest[0]))
    ensures Argument(rest, quoted, read) == (read, rest)
  {
  }

  method CountSlashes(input: string, from: nat) returns (count: nat)
    requires from < |input|
    ensures from + count <= |input| && count == SlashRun(input[from..])
  {
    count := 0;
    while from + count < |input| && input[from + count] == '\\'
      invariant from + count <= |input|
      invariant SlashRun(input[from..]) == count + SlashRun(input[from + count..])
    {
      assert input[from + count..][1..] == input[from + count + 1..];
      count := count + 1;
    }
  }

  method SkipSpaces(input: string, from: nat) returns (index: nat)
    requires from <= |input|
    ensures from <= index <= |input| && index == from + SpaceRun(input[from..])
  {
    index := from;
    while index < |input| && IsSpace(input[index])
      invariant from <= index <= |input|
      invariant from + SpaceRun(input[from..]) == index + SpaceRun(input[index..])
    {
      assert input[index..][1..] == input[index + 1..];
      index := index + 1;
    }
  }

  lemma {:induction false} SlashRunIs(s: string, n: nat)
    requires n <= |s| && s[..n] == Backslashes(n) && (n == |s| || s[n] != '\\')
    ensures SlashRun(s) == n
  {
    assert s[..SlashRun(s)] == Backslashes(SlashRun(s));
    assert SlashRun(s) < n ==> s[..n][SlashRun(s)] == '\\';
  }

  lemma {:induction false} SpaceRunIs(s: string, n: nat)
    requires n <= |s| && (forall i :: 0 <= i < n ==> IsSpace(s[i])) && (n == |s| || !IsSpace(s[n]))
    ensures SpaceRun(s) == n
  {
  }

  lemma {:induction false} SkippedSpaces(rest: string, shorter: string)
    requires shorter == rest[SpaceRun(rest)..]
    ensures Arguments(rest) == Arguments(shorter)
  {
    SpaceRunIs(shorter, 0);
    assert shorter[0..] == shorter;
  }

  // ----- the Microsoft C runtime's quoting rules

  /**
   Escapes an argument's text: 2n+1 backslashes stand for n before a literal
   quote, and n backslashes before anything else stand for themselves. Before
   the closing quote, `closing`, n backslashes are written as 2n.
   */
  function Escape(text: string, closing: bool): string
    decreases |text|
  {
    var run := SlashRun(text);
    if run == |text| then Backslashes(if closing then 2 * run else run)
    else EscapedStretch(run, text[run]) + Escape(text[run + 1..], closing)
  }

  /** `n` backslashes and the character after them, as they are escaped. */
  function EscapedStretch(n: nat, c: char): string {
    if c == '"' then Backslashes(2 * n + 1) + "\"" else Backslashes(n) + [c]
  }

  predicate HasSpace(text: string) {
    exists i :: 0 <= i < |text| && IsSpace(text[i])
  }

  /** One argument as it may be written on a line, and the white space after it. */
  datatype Written = Written(text: string, quoted: bool, gap: string)

  /** An argument may go without quotes when it is not empty and has no white space. */
  predicate WellWritten(w: Written) {
    && (!w.quoted ==> w.text != "" && !HasSpace(w.text))
    && forall i :: 0 <= i < |w.gap| ==> IsSpace(w.gap[i])
  }

  function WriteArgument(w: Written): string {
    if w.quoted then "\"" + Escape(w.text, true) + "\"" else Escape(w.text, false)
  }

  function WriteLine(line: seq<Written>): string {
    if line == [] then "" else WriteArgument(line[0]) + line[0].gap + WriteLine(line[1..])
  }

  /** Every argument is well written and a gap follows each one but the last. */
  predicate WellFormed(line: seq<Written>) {
    && (forall i :: 0 <= i < |line| ==> WellWritten(line[i]))
    && (forall i :: 0 <= i < |line| - 1 ==> line[i].gap != "")
  }

  function Texts(line: seq<Written>): (texts: seq<string>)
    ensures |texts| == |line| && forall i :: 0 <= i < |line| ==> texts[i] == line[i].text
  {
    seq(|line|, i requires 0 <= i < |line| => line[i].text)
  }

  /** A string that ends the argument before it when read outside quotes. */
  predicate EndsArgument(rest: string) {
    rest == "" || IsSpace(rest[0])
  }

  // ----- one reading step for each kind of input

  lemma {:induction false} ReadsSlashesAndQuote(n: nat, tail: string, quoted: bool, read: string)
    requires n > 0
    ensures Argument(Backslashes(n) + "\"" + tail, quoted, read)
         == if n % 2 == 1
            then Argument(tail, quoted, read + Backslashes(n / 2) + "\"")
            else Argument(tail, !quoted, read + Backslashes(n / 2))
  {
    var line := Backslashes(n) + "\"" + tail;
    SlashRunIs(line, n);
    assert line[0] == '\\' && line[n] == '"' && line[n + 1..] == tail;
  }

  lemma {:induction false} ReadsSlashes(n: nat, tail: string, quoted: bool, read: string)
    requires tail == "" || (tail[0] != '\\' && tail[0] != '"')
    ensures Argument(Backslashes(n) + tail, quoted, read) == Argument(tail, quoted, read + Backslashes(n))
  {
    var line := Backslashes(n) + tail;
    if n == 0 {
      assert line == tail && read + Backslashes(n) == read;
    } else {
      SlashRunIs(line, n);
      assert line[0] == '\\' && line[n..] == tail;
    }
  }

  lemma {:induction false} ReadsCharacter(c: char, tail: string, quoted: bool, read: string)
    requires c != '\\' && c != '"' && (quoted || !IsSpace(c))
    ensures Argument([c] + tail, quoted, read) == Argument(tail, quoted, read + [c])
  {
    assert ([c] + tail)[1..] == tail;
  }

  lemma {:induction false} ReadsStretch(n: nat, c: char, tail: string, quoted: bool, read: string)
    requires c != '\\' && (quoted || !IsSpace(c))
    ensures Argument(EscapedStretch(n, c) + tail, quoted, read)
         == Argument(tail, quoted, read + Backslashes(n) + [c])
  {
    hide IsSpace, Argument;
    if c == '"' {
      ReadsSlashesAndQuote(2 * n + 1, tail, quoted, read);
    } else {
      assert EscapedStretch(n, c) + tail == Backslashes(n) + ([c] + tail);
      ReadsSlashes(n, [c] + tail, quoted, read);
      ReadsCharacter(c, tail, quoted, read + Backslashes(n));
    }
  }

  lemma {:induction false} Regroup(a: string, b: string, c: string, d: string)
    ensures a + b + c + d == a + (b + c + d) == a + (b + (c + d))
    ensures a == "" ==> b + c + d == b + (c + d)
  {
  }

  lemma {:induction false} ReadsDoubledQuote(tail: string, read: string)
    ensures Argument("\"\"" + tail, true, read) == Argument(tail, true, read + "\"")
  {
    var line := "\"\"" + tail;
    assert line[0] == '"' && line[1] == '"' && line[2..] == tail;
  }

  lemma {:induction false} ReadsQuote(tail: string, quoted: bool, read: string)
    requires quoted ==> tail == "" || tail[0] != '"'
    ensures Argument("\"" + tail, quoted, read) == Argument(tail, !quoted, read)
  {
    assert ("\"" + tail)[1..] == tail;
  }

  // ----- the parser undoes the quoting

  lemma {:induction false} EscapedIsRead(text: string, closing: bool, tail: string, read: string)
    requires closing ==> tail != "" && tail[0] == '"' && EndsArgument(tail[1..])
    requires !closing ==> EndsArgument(tail) && !HasSpace(text)
    ensures Argument(Escape(text, closing) + tail, closing, read)
         == (read + text, if closing then tail[1..] else tail)
    decreases |text|
  {
    hide IsSpace, HasSpace, Argument, SlashRun;
    var run := SlashRun(text);
    if run == |text| {
      assert text == Backslashes(run);
      LastRun(run, closing, tail, read);
    } else {
      var slashes, c, next := Backslashes(run), text[run], text[run + 1..];
      NoSpaceAfter(text, run);
      ReadsStretch(run, c, Escape(next, closing) + tail, closing, read);
      EscapedIsRead(next, closing, tail, read + slashes + [c]);
      assert text == slashes + [c] + next;
      Regroup(read, slashes, [c], next);
      Regroup("", EscapedStretch(run, c), Escape(next, closing), tail);
    }
  }

  lemma {:induction false} NoSpaceAfter(text: string, at: nat)
    requires at < |text|
    ensures !HasSpace(text) ==> !IsSpace(text[at]) && !HasSpace(text[at + 1..])
  {
    if HasSpace(text[at + 1..]) {
      var i :| 0 <= i < |text[at + 1..]| && IsSpace(text[at + 1..][i]);
      assert IsSpace(text[at + 1 + i]);
    }
  }

  lemma {:induction false} LastRun(n: nat, closing: bool, tail: string, read: string)
    requires closing ==> tail != "" && tail[0] == '"' && EndsArgument(tail[1..])
    requires !closing ==> EndsArgument(tail)
    ensures Argument(Backslashes(if closing then 2 * n else n) + tail, closing, read)
         == (read + Backslashes(n), if closing then tail[1..] else tail)
  {
    if closing {
      var rest := tail[1..];
      assert tail == "\"" + rest;
      if n == 0 {
        assert Backslashes(0) + tail == tail && read + Backslashes(0) == read;
        ReadsQuote(rest, true, read);
      } else {
        assert Backslashes(2 * n) + tail == Backslashes(2 * n) + "\"" + rest;
        ReadsSlashesAndQuote(2 * n, rest, true, read);
      }
    } else {
      ReadsSlashes(n, tail, false, read);
    }
  }

  lemma {:induction false} ArgumentIsRead(w: Written, rest: string)
    requires WellWritten(w) && EndsArgument(rest)
    ensures Argument(WriteArgument(w) + rest, false, "") == (w.text, rest)
  {
    assert "" + w.text == w.text;
    if w.quoted {
      var tail := "\"" + rest;
      var body := Escape(w.text, true) + tail;
      assert tail[1..] == rest;
      assert WriteArgument(w) + rest == "\"" + body;
      ReadsQuote(body, false, "");
      EscapedIsRead(w.text, true, tail, "");
    } else {
      EscapedIsRead(w.text, false, rest, "");
    }
  }

  lemma {:induction false} WrittenStartsArgument(w: Written)
    requires WellWritten(w)
    ensures WriteArgument(w) != "" && !IsSpace(WriteArgument(w)[0])
  {
    if !w.quoted && SlashRun(w.text) < |w.text| {
      NoSpaceAfter(w.text, SlashRun(w.text));
    }
  }

  /**
   Any list of arguments, each written quoted or bare and separated by any
   white space, is read back as the list.
   */
  lemma {:induction false} QuotingRoundTrip(line: seq<Written>, margin: string)
    requires WellFormed(line) && forall i :: 0 <= i < |margin| ==> IsSpace(margin[i])
    ensures Arguments(margin + WriteLine(line)) == Texts(line)
    decreases |line|
  {
    hide IsSpace, Argument, WriteArgument;
    var whole := margin + WriteLine(line);
    if line == [] {
      SpaceRunIs(whole, |whole|);
    } else {
      var rest := line[0].gap + WriteLine(line[1..]);
      assert EndsArgument(rest) by {
        if line[0].gap == "" {
          assert line[1..] == [];
        }
      }
      ArgumentIsRead(line[0], rest);
      WrittenStartsArgument(line[0]);
      var start := WriteArgument(line[0]) + rest;
      assert whole == margin + start;
      SpaceRunIs(whole, |margin|);
      assert whole[|margin|..] == start;
      QuotingRoundTrip(line[1..], line[0].gap);
      assert Texts(line) == [line[0].text] + Texts(line[1..]);
    }
  }

  /** Quoting every argument and joining with single blanks, as a shell's caller would. */
  function QuoteAll(argv: seq<string>): seq<Written> {
    seq(|argv|, i requires 0 <= i < |argv| =>
      Written(argv[i], true, if i == |argv| - 1 then "" else " "))
  }

  lemma {:induction false} QuotedListRoundTrip(argv: seq<string>)
    ensures Arguments(WriteLine(QuoteAll(argv))) == argv
  {
    var line := QuoteAll(argv);
    QuotingRoundTrip(line, "");
    assert "" + WriteLine(line) == WriteLine(line);
    assert Texts(line) == argv;
  }
}
