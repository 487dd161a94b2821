/** Which utterances confirm a calendar preview: the whole utterance, apart from white space, a
    leading affirmation and closing stops, must be an accepted phrase. */
module CalendarPhrases {
  import opened Texts

  datatype Kind = Create | Update | Cancel

  function CancelPhrase(): Text {
    Codes("确认取消")
  }

  function ShortConfirmation(kind: Kind): Text {
    match kind
    case Create => Codes("确认创建")
    case Update => Codes("确认修改")
    case Cancel => CancelPhrase()
  }

  predicate IsStop(u: nat) {
    u == 0x3002 || u == 0xFF01 || u == 0x2E || u == 0x21
  }

  predicate IsSeparator(u: nat) {
    u == 0xFF0C || u == 0x2C || u == 0x3001 || IsSpaceCode(u)
  }

  function WithoutStops(t: Text): Text {
    if t != [] && IsStop(t[|t| - 1]) then WithoutStops(t[..|t| - 1]) else t
  }

  function WithoutSeparators(t: Text): Text {
    if t != [] && IsSeparator(t[0]) then WithoutSeparators(t[1..]) else t
  }

  /** The alternatives of the pattern, in its order. */
  function Affirmations(): seq<Text> {
    [Codes("可以"), Codes("好的"), Codes("好"), Codes("嗯")]
  }

  /** One affirmation goes with the separators after it, of which there must be one. */
  function WithoutAffirmation(t: Text, alternatives: seq<Text>): Text {
    if alternatives == [] then t
    else
      var word := alternatives[0];
      if word <= t && |t| > |word| && IsSeparator(t[|word|]) then WithoutSeparators(t[|word|..])
      else WithoutAffirmation(t, alternatives[1..])
  }

  function Utterance(text: Text): Text {
    WithoutAffirmation(Trim(WithoutStops(Trim(text))), Affirmations())
  }

  function PlainWords(): seq<Text> {
    [Codes("确认"), Codes("确定"), Codes("可以"), Codes("没问题")]
  }

  function DeletingWords(): seq<Text> {
    [Codes("确认删除"), Codes("确定删除"), Codes("确认删掉"), Codes("确定删掉")]
  }

  predicate Confirms(text: Text, expected: Text) {
    var clean := Utterance(text);
    clean == expected || clean in PlainWords() || (expected == CancelPhrase() && clean in DeletingWords())
  }

  lemma {:induction false} NoAffirmation(t: Text, alternatives: seq<Text>)
    requires t != []
    requires forall k :: 0 <= k < |alternatives| ==> alternatives[k] != [] && alternatives[k][0] != t[0]
    ensures WithoutAffirmation(t, alternatives) == t
    decreases |alternatives|
  {
    if alternatives != [] { NoAffirmation(t, alternatives[1..]); }
  }

  /** The phrase that a preview asks for confirms it. */
  lemma ShortPhraseConfirms(kind: Kind)
    ensures Confirms(ShortConfirmation(kind), ShortConfirmation(kind))
  {
    var t := ShortConfirmation(kind);
    assert !IsSpaceCode(t[0]) && !IsSpaceCode(t[3]) && !IsStop(t[3]);
    assert forall k :: 0 <= k < 4 ==> Affirmations()[k][0] != t[0];
    NoAffirmation(t, Affirmations());
  }

  // ----- What does confirm -----

  ghost predicate Blank(t: Text) {
    forall k :: 0 <= k < |t| ==> IsSpaceCode(t[k])
  }

  ghost predicate Stops(t: Text) {
    forall k :: 0 <= k < |t| ==> t[k] in Codes("。！.!")
  }

  ghost predicate Separators(t: Text) {
    forall k :: 0 <= k < |t| ==> t[k] in Codes("，,、") || IsSpaceCode(t[k])
  }

  /** Nothing, or an affirmation that is set apart from what follows. */
  ghost predicate Opening(t: Text, word: Text) {
    t == [] || (word in [Codes("可以"), Codes("好的"), Codes("好"), Codes("嗯")] && |word| < |t|
                && word == t[..|word|] && Separators(t[|word|..]))
  }

  /** What may be said to each kind of preview. */
  predicate Phrase(t: Text, kind: Kind) {
    || t in [Codes("确认"), Codes("确定"), Codes("可以"), Codes("没问题")]
    || match kind
       case Create => t == Codes("确认创建")
       case Update => t == Codes("确认修改")
       case Cancel =>
         t in [Codes("确认取消"), Codes("确认删除"), Codes("确定删除"), Codes("确认删掉"), Codes("确定删掉")]
  }

  /** An utterance taken apart: white space, an opening, a phrase, white space, stops, white space. */
  datatype Parts = Parts(lead: Text, opening: Text, word: Text, phrase: Text, gap: Text, stops: Text, tail: Text) {
    function Whole(): Text {
      lead + (opening + phrase + gap + stops) + tail
    }

    ghost predicate Confirming(kind: Kind) {
      && Blank(lead) && Opening(opening, word) && Phrase(phrase, kind)
      && Blank(gap) && Stops(stops) && Blank(tail)
    }
  }

  lemma TrimStartSplits(t: Text) returns (lead: Text)
    ensures t == lead + TrimStart(t) && Blank(lead)
    ensures TrimStart(t) != [] ==> !IsSpaceCode(TrimStart(t)[0])
  {
    var n := TrimStartIs(t);
    lead := t[..n];
  }

  lemma TrimEndSplits(t: Text) returns (tail: Text)
    ensures t == TrimEnd(t) + tail && Blank(tail)
  {
    var n := TrimEndIs(t);
    tail := t[n..];
  }

  lemma StopIsListed(u: nat)
    ensures IsStop(u) <==> u in Codes("。！.!")
  {
    var listed := Codes("。！.!");
    assert listed == [0x3002, 0xFF01, 0x2E, 0x21];
  }

  lemma SeparatorIsListed(u: nat)
    ensures IsSeparator(u) <==> u in Codes("，,、") || IsSpaceCode(u)
  {
    var listed := Codes("，,、");
    assert listed == [0xFF0C, 0x2C, 0x3001];
  }

  lemma {:induction false} StopsSplit(t: Text) returns (stops: Text)
    ensures t == WithoutStops(t) + stops && Stops(stops)
  {
    hide IsStop;
    stops := [];
    if t != [] && IsStop(t[|t| - 1]) {
      var rest := StopsSplit(t[..|t| - 1]);
      StopIsListed(t[|t| - 1]);
      stops := rest + [t[|t| - 1]];
    }
  }

  lemma {:induction false} SeparatorsSplit(t: Text) returns (gap: Text)
    ensures t == gap + WithoutSeparators(t) && Separators(gap)
    ensures t != [] && IsSeparator(t[0]) ==> gap != []
  {
    hide IsSeparator;
    gap := [];
    if t != [] && IsSeparator(t[0]) {
      var rest := SeparatorsSplit(t[1..]);
      SeparatorIsListed(t[0]);
      gap := [t[0]] + rest;
    }
  }

  lemma {:induction false} AffirmationSplits(t: Text, alternatives: seq<Text>) returns (opening: Text, word: Text)
    requires forall w :: w in alternatives ==> w in Affirmations()
    ensures t == opening + WithoutAffirmation(t, alternatives) && Opening(opening, word)
    decreases |alternatives|
  {
    opening, word := [], [];
    if alternatives != [] {
      word := alternatives[0];
      if word <= t && |t| > |word| && IsSeparator(t[|word|]) {
        var gap := SeparatorsSplit(t[|word|..]);
        opening := word + gap;
        assert word in Affirmations() && opening[..|word|] == word && opening[|word|..] == gap;
      } else {
        opening, word := AffirmationSplits(t, alternatives[1..]);
      }
    }
  }

  lemma {:induction false} BlankIsTrimmed(lead: Text, t: Text)
    requires Blank(lead) && t != [] && !IsSpaceCode(t[0])
    ensures TrimStart(lead + t) == t
  {
    if lead == [] {
      assert lead + t == t;
    } else {
      assert (lead + t)[1..] == lead[1..] + t;
      BlankIsTrimmed(lead[1..], t);
    }
  }

  lemma {:induction false} BlankEndIsTrimmed(t: Text, tail: Text)
    requires Blank(tail) && t != [] && !IsSpaceCode(t[|t| - 1])
    ensures TrimEnd(t + tail) == t
  {
    if tail == [] {
      assert t + tail == t;
    } else {
      assert (t + tail)[..|t + tail| - 1] == t + tail[..|tail| - 1];
      BlankEndIsTrimmed(t, tail[..|tail| - 1]);
    }
  }

  lemma {:induction false} StopsAreDropped(t: Text, stops: Text)
    requires Stops(stops) && t != [] && !IsStop(t[|t| - 1])
    ensures WithoutStops(t + stops) == t
  {
    hide IsStop;
    if stops == [] {
      assert t + stops == t;
    } else {
      StopIsListed(stops[|stops| - 1]);
      assert (t + stops)[..|t + stops| - 1] == t + stops[..|stops| - 1];
      StopsAreDropped(t, stops[..|stops| - 1]);
    }
  }

  lemma {:induction false} SeparatorsAreDropped(gap: Text, t: Text)
    requires Separators(gap) && t != [] && !IsSeparator(t[0])
    ensures WithoutSeparators(gap + t) == t
  {
    hide IsSeparator;
    if gap == [] {
      assert gap + t == t;
    } else {
      SeparatorIsListed(gap[0]);
      assert (gap + t)[1..] == gap[1..] + t;
      SeparatorsAreDropped(gap[1..], t);
    }
  }

  /** Phrases neither start nor end with what cleaning removes. */
  lemma PhraseIsSolid(kind: Kind, t: Text)
    requires Phrase(t, kind)
    ensures t != [] && !IsSeparator(t[0]) && !IsSpaceCode(t[0])
    ensures !IsSpaceCode(t[|t| - 1]) && !IsStop(t[|t| - 1])
    ensures t == Codes("可以") || t[0] == 0x786E || t[0] == 0x6CA1
  {
  }

  /** None is an affirmation set apart. */
  lemma PhraseStays(kind: Kind, t: Text)
    requires Phrase(t, kind)
    ensures WithoutAffirmation(t, Affirmations()) == t
  {
    PhraseIsSolid(kind, t);
    hide Phrase;
    if t == Codes("可以") {
      assert forall k :: 1 <= k < 4 ==> Affirmations()[k][0] != t[0];
      NoAffirmation(t, Affirmations()[1..]);
    } else {
      assert forall k :: 0 <= k < 4 ==> Affirmations()[k][0] != t[0];
      NoAffirmation(t, Affirmations());
    }
  }

  lemma {:induction false} AffirmationApplies(t: Text, alternatives: seq<Text>, i: nat)
    requires i < |alternatives| && alternatives[i] <= t && |alternatives[i]| < |t|
    requires IsSeparator(t[|alternatives[i]|])
    requires forall k :: 0 <= k < i ==> !(alternatives[k] <= t)
    ensures WithoutAffirmation(t, alternatives) == WithoutSeparators(t[|alternatives[i]|..])
    decreases i
  {
    if i > 0 { AffirmationApplies(t, alternatives[1..], i - 1); }
  }

  lemma WhichAffirmation(t: Text, word: Text) returns (i: nat)
    requires word in [Codes("可以"), Codes("好的"), Codes("好"), Codes("嗯")] && word <= t && |word| < |t|
    requires IsSeparator(t[|word|])
    ensures i < |Affirmations()| && Affirmations()[i] == word && word != [] && !IsSpaceCode(word[0])
    ensures forall k :: 0 <= k < i ==> !(Affirmations()[k] <= t)
  {
    assert t[0] == word[0];
    i := if word == Codes("可以") then 0 else if word == Codes("好的") then 1 else if word == Codes("好") then 2 else 3;
    if i == 2 { assert t[1] != Codes("好的")[1]; }
  }

  lemma SetApart(opening: Text, word: Text, phrase: Text)
    requires Opening(opening, word) && opening != [] && phrase != [] && !IsSeparator(phrase[0])
    ensures WithoutAffirmation(opening + phrase, Affirmations()) == phrase && !IsSpaceCode(opening[0])
  {
    hide IsSeparator, WithoutAffirmation, WithoutSeparators, Affirmations;
    var t, gap := opening + phrase, opening[|word|..];
    assert gap[0] in Codes("，,、") || IsSpaceCode(gap[0]);
    SeparatorIsListed(gap[0]);
    assert word <= t && t[|word|] == gap[0] && t[|word|..] == gap + phrase;
    var i := WhichAffirmation(t, word);
    SeparatorsAreDropped(gap, phrase);
    hide Opening;
    AffirmationApplies(t, Affirmations(), i);
  }

  lemma OpeningIsDropped(opening: Text, word: Text, phrase: Text, kind: Kind)
    requires Opening(opening, word) && Phrase(phrase, kind)
    ensures WithoutAffirmation(opening + phrase, Affirmations()) == phrase
    ensures opening + phrase != [] && !IsSpaceCode((opening + phrase)[0])
  {
    PhraseIsSolid(kind, phrase);
    if opening == [] {
      assert opening + phrase == phrase;
      PhraseStays(kind, phrase);
    } else {
      SetApart(opening, word, phrase);
      hide *;
    }
  }

  ghost predicate Solid(t: Text) {
    t != [] && !IsSpaceCode(t[0]) && !IsSpaceCode(t[|t| - 1]) && !IsStop(t[|t| - 1])
  }

  lemma SolidIsTrimmed(said: Text, gap: Text)
    requires Solid(said) && Blank(gap)
    ensures Trim(said + gap) == said && Trim(said) == said
  {
    BlankIsTrimmed([], said);
    BlankIsTrimmed([], said + gap);
    assert [] + said == said && [] + (said + gap) == said + gap && said + [] == said;
    BlankEndIsTrimmed(said, gap);
    BlankEndIsTrimmed(said, []);
  }

  lemma StopsAreCleaned(said: Text, gap: Text, stops: Text, tail: Text)
    requires Solid(said) && Blank(gap) && Stops(stops) && Blank(tail) && stops != []
    ensures WithoutStops(TrimEnd(said + gap + stops + tail)) == said + gap
  {
    var last := stops[|stops| - 1];
    StopIsListed(last);
    assert !IsSpaceCode(last);
    BlankEndIsTrimmed(said + gap + stops, tail);
    StopsAreDropped(said + gap, stops);
  }

  lemma BlankTogether(s: Text, t: Text)
    requires Blank(s) && Blank(t)
    ensures Blank(s + t)
  {
  }

  lemma BlankTailIsCleaned(said: Text, gap: Text, tail: Text)
    requires Solid(said) && Blank(gap) && Blank(tail)
    ensures WithoutStops(TrimEnd(said + gap + [] + tail)) == said
  {
    assert said + gap + [] + tail == said + (gap + tail) && said + [] == said;
    BlankTogether(gap, tail);
    BlankEndIsTrimmed(said, gap + tail);
    StopsAreDropped(said, []);
  }

  lemma TailIsCleaned(said: Text, gap: Text, stops: Text, tail: Text)
    requires Solid(said) && Blank(gap) && Stops(stops) && Blank(tail)
    ensures Trim(WithoutStops(TrimEnd(said + gap + stops + tail))) == said
  {
    hide *;
    SolidIsTrimmed(said, gap);
    if stops == [] { BlankTailIsCleaned(said, gap, tail); } else { StopsAreCleaned(said, gap, stops, tail); }
  }

  lemma PartsConfirm(p: Parts, kind: Kind)
    requires p.Confirming(kind)
    ensures Utterance(p.Whole()) == p.phrase
  {
    var said := p.opening + p.phrase;
    PhraseIsSolid(kind, p.phrase);
    OpeningIsDropped(p.opening, p.word, p.phrase, kind);
    var rest := said + p.gap + p.stops + p.tail;
    assert said[|said| - 1] == p.phrase[|p.phrase| - 1];
    assert p.Whole() == p.lead + rest;
    BlankIsTrimmed(p.lead, rest);
    TailIsCleaned(said, p.gap, p.stops, p.tail);
  }

  lemma ExpectedPhrases(kind: Kind, t: Text)
    ensures Phrase(t, kind) <==>
              || t == ShortConfirmation(kind) || t in PlainWords()
              || (ShortConfirmation(kind) == CancelPhrase() && t in DeletingWords())
  {
    assert ShortConfirmation(Create)[2] == 0x521B && ShortConfirmation(Update)[2] == 0x4FEE;
    assert CancelPhrase()[2] == 0x53D6;
  }

  lemma UtteranceSplits(text: Text) returns (p: Parts)
    ensures p.Whole() == text && p.phrase == Utterance(text)
    ensures Blank(p.lead) && Opening(p.opening, p.word) && Blank(p.gap) && Stops(p.stops) && Blank(p.tail)
  {
    hide TrimStart, TrimEnd, WithoutStops, WithoutAffirmation, Blank, Stops, Opening;
    var lead := TrimStartSplits(text);
    var inner := TrimStart(text);
    var tail := TrimEndSplits(inner);
    var stops := StopsSplit(TrimEnd(inner));
    var left := WithoutStops(TrimEnd(inner));
    var front := TrimStartSplits(left);
    var gap := TrimEndSplits(TrimStart(left));
    var said := Trim(left);
    var opening, word := AffirmationSplits(said, Affirmations());
    p := Parts(lead + front, opening, word, WithoutAffirmation(said, Affirmations()), gap, stops, tail);
    BlankTogether(lead, front);
  }

  /** An utterance confirms a preview if and only if it is one of the phrases for that kind of operation, said
      as a whole: only white space around it, stops behind it, and at most one affirmation, set apart, before it.
      The deleting words are phrases for a cancellation and for nothing else. */
  lemma ConfirmsIff(text: Text, kind: Kind)
    ensures Confirms(text, ShortConfirmation(kind)) <==> exists p: Parts :: p.Whole() == text && p.Confirming(kind)
  {
    hide Utterance, Phrase;
    var p := UtteranceSplits(text);
    ExpectedPhrases(kind, Utterance(text));
    if Confirms(text, ShortConfirmation(kind)) { assert p.Confirming(kind); }
    forall q: Parts | q.Whole() == text && q.Confirming(kind) ensures Confirms(text, ShortConfirmation(kind)) {
      PartsConfirm(q, kind);
    }
  }

  // ----- What can never confirm -----

  /** A unit that cleaning may remove. */
  predicate Removable(u: nat) {
    IsStop(u) || IsSeparator(u) || exists k :: 0 <= k < |Affirmations()| && u in Affirmations()[k]
  }

  lemma TrimKeeps(t: Text, u: nat)
    requires u in t && !IsSpaceCode(u)
    ensures u in Trim(t)
  {
    var first, last := TrimIs(t);
    var k :| 0 <= k < |t| && t[k] == u;
    assert Trim(t)[k - first] == u;
  }

  lemma {:induction false} StopsKeep(t: Text, u: nat)
    requires u in t && !IsStop(u)
    ensures u in WithoutStops(t)
  {
    if IsStop(t[|t| - 1]) {
      assert t == t[..|t| - 1] + [t[|t| - 1]];
      StopsKeep(t[..|t| - 1], u);
    }
  }

  lemma {:induction false} SeparatorsKeep(t: Text, u: nat)
    requires u in t && !IsSeparator(u)
    ensures u in WithoutSeparators(t)
  {
    if IsSeparator(t[0]) { SeparatorsKeep(t[1..], u); }
  }

  lemma {:induction false} AffirmationKeeps(t: Text, alternatives: seq<Text>, u: nat)
    requires u in t && !IsSeparator(u) && forall k :: 0 <= k < |alternatives| ==> u !in alternatives[k]
    ensures u in WithoutAffirmation(t, alternatives)
    decreases |alternatives|
  {
    if alternatives != [] {
      var word := alternatives[0];
      if word <= t && |t| > |word| && IsSeparator(t[|word|]) {
        assert t == word + t[|word|..];
        SeparatorsKeep(t[|word|..], u);
      } else {
        AffirmationKeeps(t, alternatives[1..], u);
      }
    }
  }

  /** Whatever cleaning may not remove is still there to be compared. */
  lemma UtteranceKeeps(text: Text, u: nat)
    requires u in text && !Removable(u)
    ensures u in Utterance(text)
  {
    TrimKeeps(text, u);
    StopsKeep(Trim(text), u);
    var t := WithoutStops(Trim(text));
    TrimKeeps(t, u);
    AffirmationKeeps(Trim(t), Affirmations(), u);
  }

  /** A unit of some accepted phrase. */
  predicate Accepted(u: nat, expected: Text) {
    u in expected || (exists k :: 0 <= k < |PlainWords()| && u in PlainWords()[k])
    || (exists k :: 0 <= k < |DeletingWords()| && u in DeletingWords()[k])
  }

  /** An utterance with anything in it that is neither removed nor part of an accepted phrase,
      such as a negation, a question mark or a quotation mark, never confirms, wherever it is
      and whatever else is said. */
  lemma ForeignUnitNeverConfirms(text: Text, expected: Text, u: nat)
    requires u in text && !Removable(u) && !Accepted(u, expected)
    ensures !Confirms(text, expected)
  {
    UtteranceKeeps(text, u);
    hide Utterance;
  }
}
