/** iCalendar text: escaping by successive replacement, line folding at 75 octets, and
    the inverse operations of sections 3.1 and 3.3.11 of RFC 5545. */
module ICalendar {
  import opened Texts
  import opened Wrappers

  // ----- Escaping -----

  /** Replace one character by a string, everywhere. */
  function ReplaceChar(s: string, c: char, into: string): string {
    if s == [] then [] else (if s[0] == c then into else [s[0]]) + ReplaceChar(s[1..], c, into)
  }

  /** Replace each CRLF, CR or LF by a backslash and an n. */
  function ReplaceNewlines(s: string): string {
    if s == [] then []
    else if s[0] == '\r' && |s| > 1 && s[1] == '\n' then "\\n" + ReplaceNewlines(s[2..])
    else if s[0] == '\r' || s[0] == '\n' then "\\n" + ReplaceNewlines(s[1..])
    else [s[0]] + ReplaceNewlines(s[1..])
  }

  function EscapeText(s: string): string {
    ReplaceChar(ReplaceChar(ReplaceNewlines(ReplaceChar(s, '\\', "\\\\")), ';', "\\;"), ',', "\\,")
  }

  function EscapeUnit(c: char): string {
    if c == '\\' then "\\\\" else if c == ';' then "\\;" else if c == ',' then "\\," else [c]
  }

  /** One pass over the text. */
  function EscapeOnce(s: string): string {
    if s == [] then []
    else if s[0] == '\r' && |s| > 1 && s[1] == '\n' then "\\n" + EscapeOnce(s[2..])
    else if s[0] == '\r' || s[0] == '\n' then "\\n" + EscapeOnce(s[1..])
    else EscapeUnit(s[0]) + EscapeOnce(s[1..])
  }

  function NormalizeNewlines(s: string): string {
    if s == [] then []
    else if s[0] == '\r' && |s| > 1 && s[1] == '\n' then "\n" + NormalizeNewlines(s[2..])
    else if s[0] == '\r' || s[0] == '\n' then "\n" + NormalizeNewlines(s[1..])
    else [s[0]] + NormalizeNewlines(s[1..])
  }

  /** Reading a TEXT value; None for a backslash that escapes nothing. */
  function Unescape(s: string): Option<string> {
    if s == [] then Some([])
    else if s[0] != '\\' then
      var rest := Unescape(s[1..]); if rest == None then None else Some([s[0]] + rest.value)
    else if |s| == 1 then None
    else
      var c := s[1];
      var rest := Unescape(s[2..]);
      if rest == None then None
      else if c == 'n' || c == 'N' then Some("\n" + rest.value)
      else if c == '\\' || c == ';' || c == ',' then Some([c] + rest.value)
      else None
  }

  lemma {:induction false} ReplaceConcat(a: string, b: string, c: char, into: string)
    ensures ReplaceChar(a + b, c, into) == ReplaceChar(a, c, into) + ReplaceChar(b, c, into)
  {
    if a == [] {
      assert a + b == b;
    } else {
      assert (a + b)[1..] == a[1..] + b;
      ReplaceConcat(a[1..], b, c, into);
    }
  }

  lemma NoNewlines()
    ensures forall b: string :: ReplaceNewlines([]) + b == b
  {
  }

  lemma NewlinesStep(s: string, n: nat)
    requires s != [] && n == if s[0] == '\r' && |s| > 1 && s[1] == '\n' then 2 else 1
    ensures ReplaceNewlines(s) == (if s[0] == '\r' || s[0] == '\n' then "\\n" else [s[0]]) + ReplaceNewlines(s[n..])
  {
  }

  lemma Rejoin(a: string, b: string, c: string)
    ensures (a + b) + c == a + (b + c) && [] + a == a
  {
  }

  /** Newline replacement acts separately on two parts unless a CRLF straddles them. */
  lemma {:induction false} NewlinesConcat(a: string, b: string)
    requires a == [] || a[|a| - 1] != '\r' || b == [] || b[0] != '\n'
    ensures ReplaceNewlines(a + b) == ReplaceNewlines(a) + ReplaceNewlines(b)
    decreases |a|
  {
    hide ReplaceNewlines;
    if a == [] {
      assert a + b == b;
      NoNewlines();
    } else {
      var n := if a[0] == '\r' && |a| > 1 && a[1] == '\n' then 2 else 1;
      NewlinesConcat(a[n..], b);
      NewlinesStep(a + b, n);
      NewlinesStep(a, n);
      assert (a + b)[n..] == a[n..] + b;
      Rejoin(if a[0] == '\r' || a[0] == '\n' then "\\n" else [a[0]], ReplaceNewlines(a[n..]), ReplaceNewlines(b));
    }
  }

  function AfterNewlines(s: string): string {
    ReplaceChar(ReplaceChar(s, ';', "\\;"), ',', "\\,")
  }

  lemma AfterNewlinesConcat(a: string, b: string)
    ensures AfterNewlines(a + b) == AfterNewlines(a) + AfterNewlines(b)
  {
    ReplaceConcat(a, b, ';', "\\;");
    ReplaceConcat(ReplaceChar(a, ';', "\\;"), ReplaceChar(b, ';', "\\;"), ',', "\\,");
  }

  lemma ReplaceTwo(c: char, d: char, x: char, into: string)
    ensures ReplaceChar([c], x, into) == if c == x then into else [c]
    ensures ReplaceChar([c, d], x, into) == (if c == x then into else [c]) + if d == x then into else [d]
  {
    assert [c][1..] == [] && [d][1..] == [] && [c, d][1..] == [d];
    assert ReplaceChar([d], x, into) == if d == x then into else [d];
  }

  lemma UnitPasses(c: char)
    requires c != '\r' && c != '\n'
    ensures AfterNewlines(ReplaceNewlines(ReplaceChar([c], '\\', "\\\\"))) == EscapeUnit(c)
    ensures AfterNewlines("\\n") == "\\n"
  {
    var slashed := ReplaceChar([c], '\\', "\\\\");
    ReplaceTwo(c, c, '\\', "\\\\");
    assert "\\\\" == ['\\', '\\'] && "\\n" == ['\\', 'n'] && "\\;" == ['\\', ';'] && "\\," == ['\\', ','];
    assert ['\\', '\\'][1..] == ['\\'] && ['\\'][1..] == [] && [c][1..] == [];
    assert ReplaceNewlines([c]) == [c] && ReplaceNewlines(['\\']) == ['\\'];
    assert ReplaceNewlines(['\\', '\\']) == ['\\', '\\'];
    ReplaceTwo(c, c, ';', "\\;");
    ReplaceTwo(c, c, ',', "\\,");
    ReplaceTwo('\\', '\\', ';', "\\;");
    ReplaceTwo('\\', '\\', ',', "\\,");
    ReplaceTwo('\\', ';', ',', "\\,");
    ReplaceTwo('\\', 'n', ';', "\\;");
    ReplaceTwo('\\', 'n', ',', "\\,");
  }

  lemma {:induction false} ReplacedStart(s: string)
    requires s != []
    ensures ReplaceChar(s, '\\', "\\\\") != [] && (ReplaceChar(s, '\\', "\\\\")[0] == '\n' <==> s[0] == '\n')
  {
  }

  lemma PassesAfterCrlf(s: string)
    requires |s| > 1 && s[0] == '\r' && s[1] == '\n'
    ensures EscapeText(s) == "\\n" + EscapeText(s[2..])
  {
    var rest := ReplaceChar(s[2..], '\\', "\\\\");
    assert s[1..][1..] == s[2..];
    assert ReplaceChar(s, '\\', "\\\\") == ['\r', '\n'] + rest;
    assert (['\r', '\n'] + rest)[2..] == rest;
    UnitPasses('n');
    AfterNewlinesConcat("\\n", ReplaceNewlines(rest));
  }

  lemma PassesAfterUnit(s: string)
    requires s != [] && !(s[0] == '\r' && |s| > 1 && s[1] == '\n')
    ensures EscapeText(s) == AfterNewlines(ReplaceNewlines(ReplaceChar([s[0]], '\\', "\\\\"))) + EscapeText(s[1..])
  {
    var first, rest := ReplaceChar([s[0]], '\\', "\\\\"), ReplaceChar(s[1..], '\\', "\\\\");
    ReplaceTwo(s[0], s[0], '\\', "\\\\");
    assert ReplaceChar(s, '\\', "\\\\") == first + rest;
    if s[1..] != [] { ReplacedStart(s[1..]); }
    NewlinesConcat(first, rest);
    AfterNewlinesConcat(ReplaceNewlines(first), ReplaceNewlines(rest));
  }

  lemma NewlinePasses(c: char)
    requires c == '\r' || c == '\n'
    ensures AfterNewlines(ReplaceNewlines(ReplaceChar([c], '\\', "\\\\"))) == "\\n"
  {
    ReplaceTwo(c, c, '\\', "\\\\");
    assert [c][1..] == [] && ReplaceNewlines([c]) == "\\n" + [] == "\\n";
    UnitPasses('n');
  }

  lemma EmptyPasses()
    ensures EscapeText([]) == []
  {
  }

  /** The four successive passes equal one pass: no pass touches what an earlier one wrote. */
  lemma {:induction false} PassesAreOnePass(s: string)
    ensures EscapeText(s) == EscapeOnce(s)
    decreases |s|
  {
    hide EscapeText, AfterNewlines, ReplaceChar, ReplaceNewlines;
    if s == [] {
      EmptyPasses();
    } else if s[0] == '\r' && |s| > 1 && s[1] == '\n' {
      PassesAfterCrlf(s);
      PassesAreOnePass(s[2..]);
    } else {
      PassesAfterUnit(s);
      PassesAreOnePass(s[1..]);
      if s[0] == '\r' || s[0] == '\n' { NewlinePasses(s[0]); } else { UnitPasses(s[0]); }
    }
  }

  lemma UnescapePair(c: char, rest: string)
    requires Unescape(rest).Some?
    ensures Unescape(['\\', c] + rest) ==
      if c == 'n' || c == 'N' then Some("\n" + Unescape(rest).value)
      else if c == '\\' || c == ';' || c == ',' then Some([c] + Unescape(rest).value) else None
    ensures c != '\\' ==> Unescape([c] + rest) == Some([c] + Unescape(rest).value)
  {
  }

  /** Reading an escaped text gives the text back with its newlines normalized, and the
      escaped text has no line break left in it. */
  lemma {:induction false} EscapeRoundTrip(s: string)
    ensures Unescape(EscapeOnce(s)) == Some(NormalizeNewlines(s))
    ensures '\r' !in EscapeOnce(s) && '\n' !in EscapeOnce(s)
    decreases |s|
  {
    if s == [] {
    } else if s[0] == '\r' && |s| > 1 && s[1] == '\n' {
      EscapeRoundTrip(s[2..]);
      UnescapePair('n', EscapeOnce(s[2..]));
    } else {
      EscapeRoundTrip(s[1..]);
      var c := if s[0] == '\r' || s[0] == '\n' then 'n' else s[0];
      UnescapePair(c, EscapeOnce(s[1..]));
    }
  }

  // ----- Folding -----

  /** Octets of one character in UTF-8. */
  function Octets(c: char): (n: nat)
    ensures 1 <= n <= 4
  {
    CodeOctets(c as int)
  }

  function Width(s: string): nat {
    if s == [] then 0 else Octets(s[0]) + Width(s[1..])
  }

  const BREAK := "\r\n "

  /** What one character adds to a physical line that holds `length` octets. */
  function FoldUnit(c: char, length: nat): string {
    if length + Octets(c) > 75 then BREAK + [c] else [c]
  }

  function NextLength(c: char, length: nat): (n: nat)
    ensures length <= 75 ==> n <= 75
  {
    if length + Octets(c) > 75 then 1 + Octets(c) else length + Octets(c)
  }

  function FoldFrom(line: string, length: nat): string {
    if line == [] then [] else FoldUnit(line[0], length) + FoldFrom(line[1..], NextLength(line[0], length))
  }

  lemma FoldStep(output: string, line: string, i: nat, length: nat)
    requires i < |line|
    ensures output + FoldFrom(line[i..], length)
         == (output + FoldUnit(line[i], length)) + FoldFrom(line[i + 1..], NextLength(line[i], length))
    ensures output + BREAK + [line[i]] == output + (BREAK + [line[i]])
  {
  }

  method Fold(line: string) returns (output: string)
    ensures output == FoldFrom(line, 0)
  {
    output := "";
    var length := 0;
    for i := 0 to |line|
      invariant length <= 75
      invariant FoldFrom(line, 0) == output + FoldFrom(line[i..], length)
    {
      FoldStep(output, line, i, length);
      var bytes := Octets(line[i]);
      if length + bytes > 75 {
        output := output + BREAK;
        length := 1;
      }
      output := output + [line[i]];
      length := length + bytes;
    }
  }

  /** Remove every line break that is followed by a space or a tab. */
  function Unfold(s: string): string {
    if s == [] then []
    else if |s| >= 3 && s[0] == '\r' && s[1] == '\n' && (s[2] == ' ' || s[2] == '\t') then Unfold(s[3..])
    else [s[0]] + Unfold(s[1..])
  }

  /** Lines end with a carriage return and a line feed, so without the first nothing ends them. */
  predicate OneLine(s: string) {
    '\r' !in s
  }

  lemma UnfoldStep(s: string, c: char)
    requires c != '\r'
    ensures Unfold([c] + s) == [c] + Unfold(s)
    ensures Unfold(BREAK + s) == Unfold(s)
  {
  }

  lemma UnfoldUnit(c: char, length: nat, tail: string)
    requires c != '\r'
    ensures Unfold(FoldUnit(c, length) + tail) == [c] + Unfold(tail)
  {
  }

  /** Unfolding a folded line, with anything after it, gives the line back. */
  lemma {:induction false} FoldRoundTrip(line: string, length: nat, after: string)
    requires OneLine(line)
    ensures Unfold(FoldFrom(line, length) + after) == line + Unfold(after)
    decreases |line|
  {
    hide Unfold, FoldUnit, NextLength;
    if line == [] {
      Rejoin(after, [], []);
      Rejoin(Unfold(after), [], []);
    } else {
      var next := NextLength(line[0], length);
      FoldRoundTrip(line[1..], next, after);
      Rejoin(FoldUnit(line[0], length), FoldFrom(line[1..], next), after);
      UnfoldUnit(line[0], length, FoldFrom(line[1..], next) + after);
      Rejoin([line[0]], line[1..], Unfold(after));
      assert line == [line[0]] + line[1..];
    }
  }

  /** The physical lines of a document: it is cut at every CRLF. */
  function PhysicalLines(s: string): (lines: seq<string>)
    ensures lines != []
  {
    if s == [] then [[]]
    else if |s| >= 2 && s[0] == '\r' && s[1] == '\n' then [[]] + PhysicalLines(s[2..])
    else var rest := PhysicalLines(s[1..]); [[s[0]] + rest[0]] + rest[1..]
  }

  lemma LinesStep(s: string, c: char)
    requires c != '\r'
    ensures PhysicalLines([c] + s) == [[c] + PhysicalLines(s)[0]] + PhysicalLines(s)[1..]
    ensures PhysicalLines("\r\n" + s) == [[]] + PhysicalLines(s)
  {
  }

  lemma WidthStep(s: string, c: char)
    ensures Width([c] + s) == Octets(c) + Width(s)
  {
  }

  predicate Fits(lines: seq<string>, length: nat)
    requires lines != []
  {
    length + Width(lines[0]) <= 75 && forall i :: 1 <= i < |lines| ==> Width(lines[i]) <= 75
  }

  lemma UnitFits(c: char, length: nat, tail: string)
    requires c != '\r' && length <= 75 && Fits(PhysicalLines(tail), NextLength(c, length))
    ensures Fits(PhysicalLines(FoldUnit(c, length) + tail), length)
  {
    var lines := PhysicalLines(tail);
    LinesStep(tail, c);
    WidthStep(lines[0], c);
    if length + Octets(c) > 75 {
      LinesStep([c] + tail, ' ');
      LinesStep([' '] + ([c] + tail), c);
      WidthStep([c] + lines[0], ' ');
      assert FoldUnit(c, length) + tail == "\r\n" + ([' '] + ([c] + tail));
    }
  }

  /** No physical line of a folded line has more than 75 octets, and since breaks stand
      between whole characters no character is split. */
  lemma {:induction false} FoldedLinesFit(line: string, length: nat)
    requires OneLine(line) && length <= 75
    ensures Fits(PhysicalLines(FoldFrom(line, length)), length)
    ensures forall i :: 0 <= i < |PhysicalLines(FoldFrom(line, length))| ==>
              Width(PhysicalLines(FoldFrom(line, length))[i]) <= 75
    decreases |line|
  {
    if line != [] {
      FoldedLinesFit(line[1..], NextLength(line[0], length));
      UnitFits(line[0], length, FoldFrom(line[1..], NextLength(line[0], length)));
    }
  }

  ghost predicate FullAt(lines: seq<string>, i: nat, length: nat)
    requires i + 1 < |lines|
  {
    && |lines[i + 1]| >= 2 && lines[i + 1][0] == ' '
    && (if i == 0 then length else 0) + Width(lines[i]) + Octets(lines[i + 1][1]) > 75
  }

  /** Every line but the first starts with a space, and its next character would not have fitted before the break. */
  ghost predicate Full(lines: seq<string>, length: nat) {
    forall i :: 0 <= i < |lines| - 1 ==> FullAt(lines, i, length)
  }

  lemma SpaceIsOneOctet()
    ensures Octets(' ') == 1
  {
  }

  lemma NoWidth()
    ensures Width([]) == 0
  {
  }

  lemma UnitIsFull(c: char, length: nat, tail: string)
    requires c != '\r' && Full(PhysicalLines(tail), NextLength(c, length))
    ensures Full(PhysicalLines(FoldUnit(c, length) + tail), length)
  {
    var lines := PhysicalLines(tail);
    LinesStep(tail, c);
    WidthStep(lines[0], c);
    hide PhysicalLines, Width, Octets;
    if length + Octets(c) > 75 {
      LinesStep([c] + tail, ' ');
      LinesStep([' '] + ([c] + tail), c);
      WidthStep([c] + lines[0], ' ');
      SpaceIsOneOctet();
      assert FoldUnit(c, length) + tail == "\r\n" + ([' '] + ([c] + tail));
      NoWidth();
      var folded := PhysicalLines(FoldUnit(c, length) + tail);
      assert folded == [[]] + ([[' '] + ([c] + lines[0])] + lines[1..]);
      forall i | 0 <= i < |folded| - 1 ensures FullAt(folded, i, length) {
        if i > 0 { assert FullAt(lines, i - 1, NextLength(c, length)); }
      }
    } else {
      var folded := PhysicalLines(FoldUnit(c, length) + tail);
      assert FoldUnit(c, length) + tail == [c] + tail;
      forall i | 0 <= i < |folded| - 1 ensures FullAt(folded, i, length) {
        assert FullAt(lines, i, NextLength(c, length));
      }
    }
  }

  lemma OneIsFull(length: nat)
    ensures Full(PhysicalLines([]), length)
  {
  }

  /** A line is broken only where it is full. */
  lemma {:induction false} BreaksOnlyWhenFull(line: string, length: nat)
    requires OneLine(line)
    ensures Full(PhysicalLines(FoldFrom(line, length)), length)
    decreases |line|
  {
    hide Full, FoldUnit;
    if line != [] {
      BreaksOnlyWhenFull(line[1..], NextLength(line[0], length));
      UnitIsFull(line[0], length, FoldFrom(line[1..], NextLength(line[0], length)));
    } else {
      OneIsFull(length);
    }
  }

  // ----- Documents -----

  function Document(lines: seq<string>): string {
    if lines == [] then [] else FoldFrom(lines[0], 0) + "\r\n" + Document(lines[1..])
  }

  predicate ContentLine(s: string) {
    OneLine(s) && s != [] && s[0] != ' ' && s[0] != '\t'
  }

  lemma FoldStart(line: string)
    requires line != []
    ensures FoldFrom(line, 0) != [] && FoldFrom(line, 0)[0] == line[0]
  {
  }

  function Joined(lines: seq<string>): string {
    if lines == [] then [] else lines[0] + "\r\n" + Joined(lines[1..])
  }

  lemma LineEndKept(rest: string)
    requires rest == [] || (rest[0] != ' ' && rest[0] != '\t')
    ensures Unfold("\r\n" + rest) == "\r\n" + Unfold(rest)
  {
    var s := "\r\n" + rest;
    assert s[1..] == ['\n'] + rest && (rest != [] ==> s[2] == rest[0]);
    UnfoldStep(rest, '\n');
    assert Unfold(s) == ['\r'] + Unfold(s[1..]);
    hide Unfold;
    Rejoin(['\r'], ['\n'], Unfold(rest));
    assert ['\r'] + ['\n'] == "\r\n";
  }

  /** Unfolding a whole document restores every content line and its terminator. */
  lemma {:induction false} DocumentUnfolds(lines: seq<string>)
    requires forall i :: 0 <= i < |lines| ==> ContentLine(lines[i])
    ensures Unfold(Document(lines)) == Joined(lines)
    decreases |lines|
  {
    if lines != [] {
      var rest := Document(lines[1..]);
      assert Document(lines) == FoldFrom(lines[0], 0) + ("\r\n" + rest);
      FoldRoundTrip(lines[0], 0, "\r\n" + rest);
      DocumentUnfolds(lines[1..]);
      if lines[1..] != [] { FoldStart(lines[1]); }
      LineEndKept(rest);
      assert lines[0] + ("\r\n" + Unfold(rest)) == lines[0] + "\r\n" + Unfold(rest);
    }
  }

  lemma {:induction false} OneLineSplits(line: string, rest: string)
    requires OneLine(line)
    ensures PhysicalLines(line + "\r\n" + rest) == [line] + PhysicalLines(rest)
    decreases |line|
  {
    if line == [] {
      assert line + "\r\n" + rest == "\r\n" + rest;
      LinesStep(rest, 'x');
    } else {
      OneLineSplits(line[1..], rest);
      assert line + "\r\n" + rest == [line[0]] + (line[1..] + "\r\n" + rest);
      LinesStep(line[1..] + "\r\n" + rest, line[0]);
      assert [line[0]] + line[1..] == line;
    }
  }

  lemma {:induction false} JoinedSplits(lines: seq<string>)
    requires forall i :: 0 <= i < |lines| ==> OneLine(lines[i])
    ensures PhysicalLines(Joined(lines)) == lines + [[]]
    decreases |lines|
  {
    if lines != [] {
      JoinedSplits(lines[1..]);
      OneLineSplits(lines[0], Joined(lines[1..]));
      assert lines == [lines[0]] + lines[1..];
    }
  }

  /** From the file back to the text: a property written into a document is found again,
      unescaped to the original text with its newlines normalized. */
  lemma PropertyRoundTrip(before: seq<string>, name: string, text: string, after: seq<string>)
    requires forall i :: 0 <= i < |before| ==> ContentLine(before[i])
    requires forall i :: 0 <= i < |after| ==> ContentLine(after[i])
    requires ContentLine(name)
    ensures var lines := before + [name + EscapeText(text)] + after;
            PhysicalLines(Unfold(Document(lines))) == lines + [[]]
    ensures Unescape((name + EscapeText(text))[|name|..]) == Some(NormalizeNewlines(text))
  {
    PassesAreOnePass(text);
    EscapeRoundTrip(text);
    var line := name + EscapeText(text);
    assert line[|name|..] == EscapeText(text);
    assert ContentLine(line);
    DocumentUnfolds(before + [line] + after);
    JoinedSplits(before + [line] + after);
  }
}
