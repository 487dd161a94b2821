/** Server-sent event framing over arbitrary chunks of decoded text. */
module Sse {
  import opened Texts
  import opened Wrappers

  const LF := 10
  const CR := 13
  const LIMIT := 2000000
  const DATA: Text := [100, 97, 116, 97, 58]
  const DONE: Text := [91, 68, 79, 78, 69, 93]

  // ----- The delimiter: two line ends, each with an optional carriage return -----

  function LineEnd(s: Text, i: nat): nat {
    if i < |s| && s[i] == LF then 1
    else if i + 1 < |s| && s[i] == CR && s[i + 1] == LF then 2
    else 0
  }

  function Delimiter(s: Text, i: nat): (n: nat)
    ensures n == 0 || (2 <= n <= 4 && i + n <= |s|)
  {
    var first := LineEnd(s, i);
    if first == 0 || LineEnd(s, i + first) == 0 then 0 else first + LineEnd(s, i + first)
  }

  ghost predicate IsFirst(s: Text, i: nat) {
    i < |s| && Delimiter(s, i) > 0 && forall j :: 0 <= j < i ==> Delimiter(s, j) == 0
  }

  lemma {:induction false} FirstExists(s: Text, i: nat)
    requires i < |s| && Delimiter(s, i) > 0
    ensures exists k :: IsFirst(s, k)
    decreases i
  {
    if j: nat :| j < i && Delimiter(s, j) > 0 {
      FirstExists(s, j);
    } else {
      assert IsFirst(s, i);
    }
  }

  /** The leftmost match, if there is one. */
  ghost function FindDelimiter(s: Text): (r: Option<nat>)
    ensures r.Some? ==> IsFirst(s, r.value)
    ensures r == None ==> forall i :: 0 <= i < |s| ==> Delimiter(s, i) == 0
  {
    if i: nat :| IsFirst(s, i) then Some(i)
    else
      assert forall i :: 0 <= i < |s| ==> Delimiter(s, i) == 0 by {
        forall i | 0 <= i < |s| ensures Delimiter(s, i) == 0 {
          if Delimiter(s, i) > 0 { FirstExists(s, i); }
        }
      }
      None
  }

  method Exec(s: Text) returns (r: Option<nat>)
    ensures r == FindDelimiter(s)
  {
    for i := 0 to |s|
      invariant forall j :: 0 <= j < i ==> Delimiter(s, j) == 0
    {
      if Delimiter(s, i) > 0 { return Some(i); }
    }
    return None;
  }

  // ----- One block -----

  function SplitLines(s: Text, start: nat, i: nat): seq<Text>
    requires start <= i <= |s|
    decreases |s| - i
  {
    if i == |s| then [s[start..]]
    else
      var n := LineEnd(s, i);
      if n > 0 then [s[start..i]] + SplitLines(s, i + n, i + n) else SplitLines(s, start, i + 1)
  }

  function DataFields(lines: seq<Text>): seq<Text> {
    if lines == [] then []
    else (if DATA <= lines[0] then [TrimStart(lines[0][|DATA|..])] else []) + DataFields(lines[1..])
  }

  function Join(lines: seq<Text>): Text {
    if lines == [] then []
    else if |lines| == 1 then lines[0]
    else lines[0] + [LF] + Join(lines[1..])
  }

  function Payload(block: Text): Text {
    Join(DataFields(SplitLines(block, 0, 0)))
  }

  predicate IsEvent(data: Text) {
    data != [] && data != DONE
  }

  datatype Verdict = Skip | Bad | Yield(data: Text)

  /** `json` says which payloads parse. */
  function Classify(block: Text, json: Text -> bool): Verdict {
    var data := Payload(block);
    if !IsEvent(data) then Skip else if !json(data) then Bad else Yield(data)
  }

  function Reader(json: Text -> bool): Text -> Verdict {
    block => Classify(block, json)
  }

  // ----- The whole text at once -----

  /** Complete blocks and the text left after the last delimiter. */
  datatype Cut = Cut(blocks: seq<Text>, rest: Text)

  function After(s: Text, i: nat): (rest: Text)
    requires Delimiter(s, i) > 0
    ensures |rest| < |s|
  {
    s[i + Delimiter(s, i)..]
  }

  ghost function Blocks(s: Text): (c: Cut)
    decreases |s|
  {
    var found := FindDelimiter(s);
    if found == None then Cut([], s)
    else var c := Blocks(After(s, found.value)); Cut([s[..found.value]] + c.blocks, c.rest)
  }

  datatype Parsed = Parsed(events: seq<Text>, malformed: bool)

  /** Stops at the first block that does not parse. */
  function Events(blocks: seq<Text>, read: Text -> Verdict): Parsed {
    if blocks == [] then Parsed([], false)
    else
      match read(blocks[0])
      case Skip => Events(blocks[1..], read)
      case Bad => Parsed([], true)
      case Yield(data) => var p := Events(blocks[1..], read); Parsed([data] + p.events, p.malformed)
  }

  datatype Outcome = Accepted | Truncated | Malformed | Oversize

  predicate Blank(s: Text) {
    forall i :: 0 <= i < |s| ==> IsSpaceCode(s[i])
  }

  function Finish(p: Parsed, rest: Text): (seq<Text>, Outcome) {
    (p.events, if p.malformed then Malformed else if Blank(rest) then Accepted else Truncated)
  }

  ghost function Whole(s: Text, read: Text -> Verdict): (seq<Text>, Outcome) {
    Finish(Events(Blocks(s).blocks, read), Blocks(s).rest)
  }

  // ----- Chunk by chunk -----

  function Preceded(events: seq<Text>, later: (seq<Text>, Outcome)): (seq<Text>, Outcome) {
    (events + later.0, later.1)
  }

  /** The last chunk is what the decoder flushes when the reader is done. */
  ghost function Streamed(pending: Text, chunks: seq<Text>, read: Text -> Verdict): (seq<Text>, Outcome)
    requires chunks != []
    decreases |chunks|
  {
    var text := pending + chunks[0];
    if |text| > LIMIT then ([], Oversize)
    else
      var p, rest := Events(Blocks(text).blocks, read), Blocks(text).rest;
      if p.malformed || |chunks| == 1 then Finish(p, rest)
      else Preceded(p.events, Streamed(rest, chunks[1..], read))
  }

  /** A match inside a prefix is also the leftmost match of the longer text. */
  lemma DelimiterIsStable(s: Text, more: Text, i: nat)
    requires i < |s| && Delimiter(s, i) > 0
    ensures Delimiter(s + more, i) == Delimiter(s, i)
  {
  }

  lemma NoEarlierDelimiter(s: Text, more: Text, i: nat, j: nat)
    requires j < i < |s| && Delimiter(s, i) > 0 && Delimiter(s, j) == 0
    ensures Delimiter(s + more, j) == 0
  {
  }

  lemma FoundIsStable(s: Text, more: Text)
    requires FindDelimiter(s).Some?
    ensures FindDelimiter(s + more) == FindDelimiter(s)
  {
    var i := FindDelimiter(s).value;
    DelimiterIsStable(s, more, i);
    forall j | 0 <= j < i ensures Delimiter(s + more, j) == 0 {
      NoEarlierDelimiter(s, more, i, j);
    }
    assert IsFirst(s + more, i);
  }

  lemma FirstBlockIsStable(s: Text, more: Text)
    requires FindDelimiter(s).Some?
    ensures var i := FindDelimiter(s).value;
            FindDelimiter(s + more) == Some(i) && (s + more)[..i] == s[..i] && After(s + more, i) == After(s, i) + more
  {
    var i := FindDelimiter(s).value;
    FoundIsStable(s, more);
    DelimiterIsStable(s, more, i);
  }

  lemma Associative(a: seq<Text>, b: seq<Text>, c: seq<Text>)
    ensures (a + b) + c == a + (b + c) && [] + a == a == a + []
  {
  }

  lemma NextBlock(s: Text, i: nat)
    requires FindDelimiter(s) == Some(i)
    ensures Blocks(s) == Cut([s[..i]] + Blocks(After(s, i)).blocks, Blocks(After(s, i)).rest)
  {
  }

  /** Cutting a prefix first and the rest later is cutting everything. */
  lemma {:induction false} BlocksInTwo(s: Text, more: Text)
    ensures |Blocks(s).rest| <= |s|
    ensures var c := Blocks(s); var d := Blocks(c.rest + more);
            Blocks(s + more) == Cut(c.blocks + d.blocks, d.rest)
    decreases |s|
  {
    var found := FindDelimiter(s);
    if found.Some? {
      FirstBlockIsStable(s, more);
      var first, after := s[..found.value], After(s, found.value);
      BlocksInTwo(after, more);
      NextBlock(s, found.value);
      NextBlock(s + more, found.value);
      Associative([first], Blocks(after).blocks, Blocks(Blocks(after).rest + more).blocks);
    } else {
      assert Blocks(s) == Cut([], s);
      assert [] + Blocks(s + more).blocks == Blocks(s + more).blocks;
    }
  }

  lemma {:induction false} EventsInTwo(first: seq<Text>, second: seq<Text>, read: Text -> Verdict)
    ensures var p, q := Events(first, read), Events(second, read);
            Events(first + second, read) == if p.malformed then p else Parsed(p.events + q.events, q.malformed)
  {
    if first == [] {
      assert first + second == second;
    } else {
      assert (first + second)[1..] == first[1..] + second;
      EventsInTwo(first[1..], second, read);
    }
  }

  /** Every chunking yields the events and outcome of the unsplit text, unless it stops
      as oversize; then it has yielded a prefix of those events. */
  lemma {:induction false} ChunkInvariance(pending: Text, chunks: seq<Text>, read: Text -> Verdict)
    requires chunks != []
    ensures var all, r := Whole(pending + Flatten(chunks), read), Streamed(pending, chunks, read);
            if r.1 == Oversize then r.0 <= all.0 else r == all
    ensures |pending + Flatten(chunks)| <= LIMIT ==> Streamed(pending, chunks, read).1 != Oversize
    decreases |chunks|
  {
    var text, later := pending + chunks[0], Flatten(chunks[1..]);
    assert pending + Flatten(chunks) == text + later;
    BlocksInTwo(text, later);
    var c := Blocks(text);
    var d := Blocks(c.rest + later);
    EventsInTwo(c.blocks, d.blocks, read);
    if |chunks| == 1 {
      assert text + later == text;
    } else if |text| <= LIMIT && !Events(c.blocks, read).malformed {
      ChunkInvariance(c.rest, chunks[1..], read);
    }
  }

  // ----- Round trip with a sender -----

  /** A line of an event as a sender means it: a part of its data, or a field or comment that is not data. */
  datatype Line = Data(text: Text) | Other(text: Text) {
    function Written(): Text {
      match this
      case Data(text) => Codes("data: ") + text
      case Other(text) => text
    }

    /** No line end inside; data does not start with white space, and the rest does not pass for data. */
    predicate Plain() {
      && Written() != [] && (forall k :: 0 <= k < |Written()| ==> Written()[k] != 10 && Written()[k] != 13)
      && (Data? && text != [] ==> !IsSpaceCode(text[0])) && (Other? ==> !(Codes("data:") <= text))
    }
  }

  /** One event with either line ending. */
  datatype Sent = Sent(lines: seq<Line>, crlf: bool) {
    predicate Plain() {
      lines != [] && forall k :: 0 <= k < |lines| ==> lines[k].Plain()
    }
  }

  function Ending(crlf: bool): Text {
    if crlf then [13, 10] else [10]
  }

  function Lines(lines: seq<Line>, crlf: bool): Text {
    if lines == [] then []
    else if |lines| == 1 then lines[0].Written()
    else lines[0].Written() + Ending(crlf) + Lines(lines[1..], crlf)
  }

  /** What goes over the wire: every event closed by an empty line. */
  function Frames(events: seq<Sent>): Text {
    if events == [] then []
    else
      var e := events[0];
      Lines(e.lines, e.crlf) + Ending(e.crlf) + Ending(e.crlf) + Frames(events[1..])
  }

  function DataTexts(lines: seq<Line>): seq<Text> {
    if lines == [] then [] else (if lines[0].Data? then [lines[0].text] else []) + DataTexts(lines[1..])
  }

  /** The payloads meant for the receiver: the data of an event line by line, unless there is none or it is the
      closing mark. */
  function Payloads(events: seq<Sent>): seq<Text> {
    if events == [] then []
    else
      var data := Join(DataTexts(events[0].lines));
      (if data == [] || data == Codes("[DONE]") then [] else [data]) + Payloads(events[1..])
  }

  /** Joining puts one line feed between the parts. */
  lemma {:induction false} JoinIs(a: seq<Text>, b: seq<Text>)
    requires a != [] && b != []
    ensures Join(a + b) == Join(a) + [10] + Join(b) && Join(a[..1]) == a[0]
  {
    assert (a + b)[1..] == a[1..] + b;
    if |a| > 1 { JoinIs(a[1..], b); }
  }

  // Splitting a block into its lines.

  lemma {:induction false} SplitShift(p: Text, t: Text, a: nat, i: nat)
    requires a <= i <= |t|
    ensures SplitLines(p + t, |p| + a, |p| + i) == SplitLines(t, a, i)
    decreases |t| - i
  {
    assert LineEnd(p + t, |p| + i) == LineEnd(t, i);
    if i < |t| {
      var n := LineEnd(t, i);
      assert (p + t)[|p| + a..|p| + i] == t[a..i];
      if n > 0 { SplitShift(p, t, i + n, i + n); } else { SplitShift(p, t, a, i + 1); }
    } else {
      assert (p + t)[|p| + a..] == t[a..];
    }
  }

  lemma {:induction false} SplitScan(s: Text, start: nat, i: nat, n: nat)
    requires start <= i <= n <= |s| && forall k :: i <= k < n ==> LineEnd(s, k) == 0
    ensures SplitLines(s, start, i) == SplitLines(s, start, n)
    decreases n - i
  {
    if i < n { SplitScan(s, start, i + 1, n); }
  }

  predicate NoLineEnd(l: Text) {
    forall k :: 0 <= k < |l| ==> l[k] != 10 && l[k] != 13
  }

  lemma EndingAfter(l: Text, crlf: bool, t: Text)
    requires NoLineEnd(l)
    ensures var s := l + Ending(crlf) + t;
            (forall k :: 0 <= k < |l| ==> LineEnd(s, k) == 0) && LineEnd(s, |l|) == |Ending(crlf)|
            && (crlf ==> LineEnd(s, |l| + 1) == 1)
  {
  }

  lemma LineSplits(l: Text, crlf: bool, t: Text)
    requires NoLineEnd(l)
    ensures SplitLines(l + Ending(crlf) + t, 0, 0) == [l] + SplitLines(t, 0, 0)
  {
    var p := l + Ending(crlf);
    var s := p + t;
    EndingAfter(l, crlf, t);
    SplitScan(s, 0, 0, |l|);
    SplitShift(p, t, 0, 0);
    assert s[0..|l|] == l;
  }

  lemma LastLineSplits(l: Text)
    requires NoLineEnd(l)
    ensures SplitLines(l, 0, 0) == [l]
  {
    SplitScan(l, 0, 0, |l|);
    assert l[0..] == l;
  }

  lemma DataPrefix()
    ensures Codes("data:") == DATA && Codes("data: ") == DATA + [32] && Codes("[DONE]") == DONE
  {
  }

  lemma FieldOfLine(line: Line)
    requires line.Plain()
    ensures DATA <= line.Written() <==> line.Data?
    ensures line.Data? ==> TrimStart(line.Written()[|DATA|..]) == line.text
  {
    DataPrefix();
    if line.Data? {
      assert line.Written()[|DATA|..] == [32] + line.text;
      assert ([32] + line.text)[1..] == line.text;
    }
  }

  lemma LineIsPlain(l: Line)
    requires l.Plain()
    ensures NoLineEnd(l.Written()) && l.Written() != []
  {
  }

  lemma OneField(l: Text, rest: seq<Text>)
    ensures DataFields([l] + rest) == (if DATA <= l then [TrimStart(l[|DATA|..])] else []) + DataFields(rest)
  {
    assert ([l] + rest)[1..] == rest;
  }

  /** Reading the lines of an event gives its data. */
  lemma {:induction false} DataIsRead(lines: seq<Line>, crlf: bool)
    requires lines != [] && forall k :: 0 <= k < |lines| ==> lines[k].Plain()
    ensures DataFields(SplitLines(Lines(lines, crlf), 0, 0)) == DataTexts(lines)
    decreases |lines|
  {
    hide SplitLines, Line.Plain;
    var l := lines[0];
    LineIsPlain(l);
    FieldOfLine(l);
    if |lines| == 1 {
      LastLineSplits(l.Written());
      OneField(l.Written(), []);
      assert lines[1..] == [];
    } else {
      DataIsRead(lines[1..], crlf);
      LineSplits(l.Written(), crlf, Lines(lines[1..], crlf));
      OneField(l.Written(), SplitLines(Lines(lines[1..], crlf), 0, 0));
    }
  }

  // Finding the end of a block.

  lemma DelimiterShift(p: Text, t: Text, i: nat)
    ensures Delimiter(p + t, |p| + i) == Delimiter(t, i)
  {
  }

  lemma NoneInLine(l: Text, crlf: bool, t: Text, j: nat)
    requires NoLineEnd(l) && LineEnd(t, 0) == 0 && j < |l| + |Ending(crlf)|
    ensures Delimiter(l + Ending(crlf) + t, j) == 0
  {
    var p := l + Ending(crlf);
    EndingAfter(l, crlf, t);
    assert LineEnd(p + t, |p|) == LineEnd(t, 0);
  }

  lemma LinesStart(lines: seq<Line>, crlf: bool, rest: Text)
    requires lines != [] && lines[0].Plain()
    ensures LineEnd(Lines(lines, crlf) + rest, 0) == 0
  {
    assert (Lines(lines, crlf) + rest)[0] == lines[0].Written()[0];
  }

  lemma LastLineEnds(l: Text, crlf: bool, rest: Text)
    requires NoLineEnd(l)
    ensures IsFirst(l + Ending(crlf) + Ending(crlf) + rest, |l|)
    ensures Delimiter(l + Ending(crlf) + Ending(crlf) + rest, |l|) == 2 * |Ending(crlf)|
  {
    assert l + Ending(crlf) + Ending(crlf) + rest == l + Ending(crlf) + (Ending(crlf) + rest);
    EndingAfter(l, crlf, Ending(crlf) + rest);
    DelimiterShift(l, Ending(crlf) + (Ending(crlf) + rest), 0);
    assert l + Ending(crlf) + (Ending(crlf) + rest) == l + (Ending(crlf) + (Ending(crlf) + rest));
  }

  lemma FirstShift(l: Text, crlf: bool, t: Text, i: nat)
    requires NoLineEnd(l) && LineEnd(t, 0) == 0 && IsFirst(t, i)
    ensures IsFirst(l + Ending(crlf) + t, |l| + |Ending(crlf)| + i)
    ensures Delimiter(l + Ending(crlf) + t, |l| + |Ending(crlf)| + i) == Delimiter(t, i)
  {
    var p := l + Ending(crlf);
    DelimiterShift(p, t, i);
    forall j | 0 <= j < |p| + i ensures Delimiter(p + t, j) == 0 {
      if j < |p| { NoneInLine(l, crlf, t, j); } else { DelimiterShift(p, t, j - |p|); }
    }
    hide Delimiter, LineEnd;
  }

  lemma Regroup(l: Text, e: Text, b: Text, f: Text, rest: Text)
    ensures l + e + b + f + f + rest == l + e + (b + f + f + rest)
  {
  }

  lemma {:induction false} LinesEnd(lines: seq<Line>, crlf: bool, rest: Text)
    requires lines != [] && forall k :: 0 <= k < |lines| ==> lines[k].Plain()
    ensures var s := Lines(lines, crlf) + Ending(crlf) + Ending(crlf) + rest;
            IsFirst(s, |Lines(lines, crlf)|) && Delimiter(s, |Lines(lines, crlf)|) == 2 * |Ending(crlf)|
    decreases |lines|
  {
    hide Line.Plain, IsFirst, Delimiter, LineEnd, Ending;
    var l := lines[0];
    LineIsPlain(l);
    if |lines| == 1 {
      LastLineEnds(l.Written(), crlf, rest);
    } else {
      var b := Lines(lines[1..], crlf);
      var t := b + Ending(crlf) + Ending(crlf) + rest;
      LinesEnd(lines[1..], crlf, rest);
      LinesStart(lines[1..], crlf, Ending(crlf) + Ending(crlf) + rest);
      assert t == b + (Ending(crlf) + Ending(crlf) + rest);
      FirstShift(l.Written(), crlf, t, |b|);
      Regroup(l.Written(), Ending(crlf), b, Ending(crlf), rest);
    }
  }

  lemma FrameIsFirst(e: Sent, rest: Text)
    requires e.Plain()
    ensures var block := Lines(e.lines, e.crlf); var s := block + Ending(e.crlf) + Ending(e.crlf) + rest;
            FindDelimiter(s) == Some(|block|) && s[..|block|] == block && After(s, |block|) == rest
  {
    hide Line.Plain, Lines, Delimiter;
    var block := Lines(e.lines, e.crlf);
    var s := block + Ending(e.crlf) + Ending(e.crlf) + rest;
    LinesEnd(e.lines, e.crlf, rest);
  }

  function BlocksOf(events: seq<Sent>): seq<Text> {
    if events == [] then [] else [Lines(events[0].lines, events[0].crlf)] + BlocksOf(events[1..])
  }

  lemma NoDelimiterIn(tail: Text)
    requires 10 !in tail
    ensures FindDelimiter(tail) == None
  {
    forall i | 0 <= i < |tail| ensures Delimiter(tail, i) == 0 { assert tail[i] in tail; }
  }

  lemma {:induction false} FramesAreBlocks(events: seq<Sent>, tail: Text)
    requires (forall i :: 0 <= i < |events| ==> events[i].Plain()) && 10 !in tail
    ensures Blocks(Frames(events) + tail) == Cut(BlocksOf(events), tail)
    decreases |events|
  {
    hide Sent.Plain, Lines, Ending;
    if events == [] {
      assert [] + tail == tail;
      NoDelimiterIn(tail);
    } else {
      var e := events[0];
      var rest := Frames(events[1..]) + tail;
      var s := Lines(e.lines, e.crlf) + Ending(e.crlf) + Ending(e.crlf) + rest;
      assert Frames(events) + tail == s;
      FrameIsFirst(e, rest);
      FramesAreBlocks(events[1..], tail);
      NextBlock(s, |Lines(e.lines, e.crlf)|);
    }
  }

  lemma OneEvent(block: Text, json: Text -> bool)
    ensures Events([block], Reader(json)) ==
      match Classify(block, json)
      case Skip => Parsed([], false)
      case Bad => Parsed([], true)
      case Yield(d) => Parsed([d], false)
  {
  }

  lemma BlockIsRead(e: Sent, json: Text -> bool)
    requires e.Plain()
    ensures var data := Join(DataTexts(e.lines));
            Events([Lines(e.lines, e.crlf)], Reader(json))
            == if data == [] || data == Codes("[DONE]") then Parsed([], false)
               else if json(data) then Parsed([data], false) else Parsed([], true)
  {
    DataPrefix();
    DataIsRead(e.lines, e.crlf);
    hide Lines, SplitLines, Line.Plain, DataTexts, DataFields, Codes, Join;
    OneEvent(Lines(e.lines, e.crlf), json);
  }

  /** The blocks of the events read as their payloads, up to the first that does not parse. */
  lemma {:induction false} BlocksAreEvents(events: seq<Sent>, json: Text -> bool, k: nat)
    requires forall i :: 0 <= i < |events| ==> events[i].Plain()
    requires k <= |Payloads(events)| && (forall i :: 0 <= i < k ==> json(Payloads(events)[i]))
    requires k < |Payloads(events)| ==> !json(Payloads(events)[k])
    ensures Events(BlocksOf(events), Reader(json)) == Parsed(Payloads(events)[..k], k < |Payloads(events)|)
    decreases |events|
  {
    hide Sent.Plain, Lines, Join, DataTexts, Codes;
    if events != [] {
      var e, later := events[0], events[1..];
      BlockIsRead(e, json);
      EventsInTwo([Lines(e.lines, e.crlf)], BlocksOf(later), Reader(json));
      var data := Join(DataTexts(e.lines));
      if data == [] || data == Codes("[DONE]") {
        assert Payloads(events) == Payloads(later);
        BlocksAreEvents(later, json, k);
      } else {
        assert Payloads(events) == [data] + Payloads(later);
        if k > 0 {
          assert Payloads(events)[0] == data;
          forall i | 0 <= i < |Payloads(later)| ensures Payloads(later)[i] == Payloads(events)[i + 1] {}
          hide Payloads;
          BlocksAreEvents(later, json, k - 1);
          assert Payloads(events)[..k] == [data] + Payloads(later)[..k - 1];
        }
      }
    }
  }

  /** Whatever events are sent, with data on any number of lines between fields and comments and with either line
      ending, and however the text is cut into chunks, the reader yields exactly their payloads, up to the first
      that does not parse; and it accepts what comes after the last event only if that is white space. */
  lemma RoundTrip(events: seq<Sent>, tail: Text, json: Text -> bool, k: nat, chunks: seq<Text>)
    requires (forall i :: 0 <= i < |events| ==> events[i].Plain()) && 10 !in tail
    requires k <= |Payloads(events)| && (forall i :: 0 <= i < k ==> json(Payloads(events)[i]))
    requires k < |Payloads(events)| ==> !json(Payloads(events)[k])
    requires chunks != [] && Flatten(chunks) == Frames(events) + tail && |Flatten(chunks)| <= 2_000_000
    ensures Streamed([], chunks, Reader(json))
            == (Payloads(events)[..k],
                if k < |Payloads(events)| then Malformed
                else if forall i :: 0 <= i < |tail| ==> IsSpaceCode(tail[i]) then Accepted else Truncated)
  {
    hide Sent.Plain, Frames, Payloads;
    ChunkInvariance([], chunks, Reader(json));
    assert [] + Flatten(chunks) == Flatten(chunks);
    FramesAreBlocks(events, tail);
    BlocksAreEvents(events, json, k);
  }

  /** A buffer above two million units ends the stream, and no smaller one does. */
  lemma OversizeAbove(pending: Text, chunk: Text, read: Text -> Verdict)
    ensures Streamed(pending, [chunk], read).1 == Oversize <==> |pending| + |chunk| > 2_000_000
  {
  }

  // ----- The reader loop -----

  lemma TakeOne(taken: seq<Text>, pending: Text, i: nat, read: Text -> Verdict)
    requires FindDelimiter(pending) == Some(i)
    ensures var b, rest := pending[..i], Blocks(After(pending, i));
            taken + Blocks(pending).blocks == (taken + [b]) + rest.blocks && Blocks(pending).rest == rest.rest
    ensures !Events(taken, read).malformed ==>
              Events(taken + [pending[..i]], read) ==
                Parsed(Events(taken, read).events + Events([pending[..i]], read).events,
                       Events([pending[..i]], read).malformed)
  {
    var b, rest := pending[..i], Blocks(After(pending, i));
    NextBlock(pending, i);
    Associative(taken, [b], rest.blocks);
    EventsInTwo(taken, [b], read);
  }

  /** The inner loop; a block that does not parse ends it with an error. */
  method TakeBlocks(text: Text, json: Text -> bool) returns (p: Parsed, pending: Text)
    ensures p == Events(Blocks(text).blocks, Reader(json))
    ensures !p.malformed ==> pending == Blocks(text).rest
  {
    pending := text;
    var events := [];
    ghost var taken: seq<Text> := [];
    Associative(Blocks(text).blocks, [], []);
    var found := Exec(pending);
    while found.Some?
      invariant found == FindDelimiter(pending)
      invariant Blocks(text).blocks == taken + Blocks(pending).blocks && Blocks(text).rest == Blocks(pending).rest
      invariant Events(taken, Reader(json)) == Parsed(events, false)
      decreases |pending|
    {
      var block := pending[..found.value];
      TakeOne(taken, pending, found.value, Reader(json));
      OneEvent(block, json);
      pending := After(pending, found.value);
      taken := taken + [block];
      EventsInTwo(taken, Blocks(pending).blocks, Reader(json));
      Associative(events, [], []);
      var data := Payload(block);
      if IsEvent(data) {
        if !json(data) { return Parsed(events, true), pending; }
        events := events + [data];
      }
      found := Exec(pending);
    }
    Associative(taken, [], []);
    return Parsed(events, false), pending;
  }

  lemma PrecededTwice(a: seq<Text>, b: seq<Text>, later: (seq<Text>, Outcome))
    ensures Preceded([], later) == later && Preceded(a, Preceded(b, later)) == Preceded(a + b, later)
  {
    Associative(a, b, later.0);
    Associative(later.0, [], []);
  }

  method Read(chunks: seq<Text>, json: Text -> bool) returns (events: seq<Text>, outcome: Outcome)
    requires chunks != []
    ensures (events, outcome) == Streamed([], chunks, Reader(json))
  {
    ghost var read, all := Reader(json), Streamed([], chunks, Reader(json));
    events := [];
    var pending: Text := [];
    var n := 0;
    assert chunks[0..] == chunks;
    PrecededTwice([], [], all);
    while true
      invariant n < |chunks|
      invariant all == Preceded(events, Streamed(pending, chunks[n..], read))
      decreases |chunks| - n
    {
      assert chunks[n..][1..] == chunks[n + 1..];
      pending := pending + chunks[n];
      Associative(events, [], []);
      if |pending| > LIMIT { return events, Oversize; }
      var p, rest := TakeBlocks(pending, json);
      if n + 1 < |chunks| { PrecededTwice(events, p.events, Streamed(Blocks(pending).rest, chunks[n + 1..], read)); }
      events := events + p.events;
      if p.malformed { return events, Malformed; }
      pending := rest;
      n := n + 1;
      if n == |chunks| { return events, if Blank(pending) then Accepted else Truncated; }
    }
  }
}
