/** Selects the model context from a long session: the newest turn first, then a summary,
    recent turns and older turns of the current topic, all within one character budget. */
module ContextBuilder {
  import opened Texts
  import opened Wrappers

  const MESSAGE_OVERHEAD: nat := 16

  function Marker(): (t: Text)
    ensures |t| == 17
  {
    Codes("\n[…内容已按上下文预算截断…]\n")
  }

  function FailedLabel(): Text {
    Codes("[应用状态：这条助手回答失败（failed），不能当作已确认结论。]\n")
  }

  function InterruptedLabel(): Text {
    Codes("[应用状态：这条助手回答被中断（interrupted），内容不完整，不能当作已确认结论。]\n")
  }

  function WithoutNul(t: Text): Text {
    if t == [] then [] else (if t[0] == 0 then [] else [t[0]]) + WithoutNul(t[1..])
  }

  function Clean(t: Text): Text {
    Trim(WithoutNul(t))
  }

  /** `slice(-n)`: the last n units, and the whole text when n is zero. */
  function LastUnits(t: Text, n: nat): Text {
    if n == 0 || n >= |t| then t else t[|t| - n..]
  }

  function HeadUnits(remaining: nat): nat {
    (7 * remaining + 9) / 10
  }

  function Compact(value: Text, maximum: int): Text {
    var clean := Clean(value);
    if |clean| <= maximum then clean
    else if maximum <= |Marker()| then clean[..Max(0, maximum)]
    else
      var remaining := maximum - |Marker()|;
      var head := HeadUnits(remaining);
      clean[..head] + Marker() + LastUnits(clean, remaining - head)
  }

  /** Compacting keeps to its maximum except just above the marker's length, where nothing is
      left for the tail and the whole text is appended instead. */
  lemma CompactFitsIff(value: Text, maximum: nat)
    ensures |Compact(value, maximum)| <= maximum <==> !(|Clean(value)| > maximum && 18 <= maximum <= 20)
  {
  }

  /** A text that fits is only cleaned; one that does not keeps both its ends. */
  lemma CompactKeepsEnds(value: Text, maximum: nat)
    ensures |Clean(value)| <= maximum ==> Compact(value, maximum) == Clean(value)
    ensures |Clean(value)| > maximum > 20 ==>
              var head, tail := HeadUnits(maximum - 17), maximum - 17 - HeadUnits(maximum - 17);
              && 0 < tail <= head && head + tail + 17 == maximum
              && Compact(value, maximum)[..head] == Clean(value)[..head]
              && Compact(value, maximum)[maximum - tail..] == Clean(value)[|Clean(value)| - tail..]
  {
  }

  lemma HeadIs(remaining: nat, head: nat)
    requires 7 * remaining <= 10 * head < 7 * remaining + 10
    ensures head == HeadUnits(remaining) <= remaining
  {
  }

  lemma MarkerIs()
    ensures Marker() == Codes("\n[…内容已按上下文预算截断…]\n")
  {
  }

  /** Cutting, in full: up to 17 units there is no room for the marker; above, the first seven tenths of the room
      beside it, rounded up, then the marker, then the end. */
  lemma CompactIs(value: Text, maximum: nat, head: nat)
    requires |Clean(value)| > maximum
    requires maximum > 17 ==> 7 * (maximum - 17) <= 10 * head < 7 * (maximum - 17) + 10
    ensures maximum <= 17 ==> Compact(value, maximum) == Clean(value)[..maximum]
    ensures maximum > 17 ==>
              && head <= maximum - 17
              && Compact(value, maximum) == Clean(value)[..head] + Codes("\n[…内容已按上下文预算截断…]\n")
                                            + (if head == maximum - 17 then Clean(value)
                                               else Clean(value)[|Clean(value)| - (maximum - 17 - head)..])
  {
    hide Clean, Codes, Marker, HeadUnits;
    if maximum > 17 { HeadIs(maximum - 17, head); }
    MarkerIs();
  }

  lemma WithoutNulStep(t: Text, u: nat, rest: Text)
    requires t == [u] + rest
    ensures WithoutNul(t) == (if u == 0 then [] else [u]) + WithoutNul(rest)
  {
    assert t[1..] == rest;
  }

  lemma Associative(a: Text, b: Text, c: Text)
    ensures a + (b + c) == a + b + c
  {
  }

  lemma {:induction false} WithoutNulJoins(a: Text, b: Text)
    ensures WithoutNul(a + b) == WithoutNul(a) + WithoutNul(b)
  {
    if a == [] {
      assert a + b == b;
    } else {
      WithoutNulJoins(a[1..], b);
      hide WithoutNul;
      assert a == [a[0]] + a[1..];
      Associative([a[0]], a[1..], b);
      WithoutNulStep(a, a[0], a[1..]);
      WithoutNulStep(a + b, a[0], a[1..] + b);
      Associative(if a[0] == 0 then [] else [a[0]], WithoutNul(a[1..]), WithoutNul(b));
    }
  }

  lemma {:induction false} NoNulLeft(t: Text)
    ensures 0 !in WithoutNul(t) && (0 !in t ==> WithoutNul(t) == t)
  {
    if t != [] { NoNulLeft(t[1..]); }
  }

  lemma NulIsDropped(a: Text, b: Text)
    ensures WithoutNul(a + [0] + b) == WithoutNul(a + b)
  {
    WithoutNulJoins(a, b);
    WithoutNulJoins(a, [0]);
    WithoutNulJoins(a + [0], b);
    assert WithoutNul([0]) == [];
    assert WithoutNul(a) + [] == WithoutNul(a);
  }

  /** Cleaning drops the zero units, wherever they are, and the white space outside. */
  lemma CleanDropsNul(a: Text, b: Text)
    ensures Clean(a + [0] + b) == Clean(a + b)
    ensures 0 !in a ==> 0 !in Clean(a) && Clean(a) == Trim(a)
  {
    hide Trim;
    NulIsDropped(a, b);
    NoNulLeft(a);
    TrimIsInside(WithoutNul(a));
  }

  // ----- Messages -----

  datatype Role = User | Assistant | System

  datatype Status = Committed | Streaming | Interrupted | Failed

  /** What was said, or one of the notes put in front of it. */
  datatype Kind = Spoken | Summary | Prior | History

  datatype Message = Message(role: Role, kind: Kind, content: Text, status: Option<Status>, topic: Option<nat>)

  function Cost(m: Message): nat {
    |m.content| + MESSAGE_OVERHEAD
  }

  function CharacterCount(messages: seq<Message>): nat {
    if messages == [] then 0 else CharacterCount(messages[..|messages| - 1]) + Cost(messages[|messages| - 1])
  }

  lemma {:induction false} CountOfConcatenation(a: seq<Message>, b: seq<Message>)
    ensures CharacterCount(a + b) == CharacterCount(a) + CharacterCount(b)
  {
    if b == [] {
      assert a + b == a;
    } else {
      assert (a + b)[..|a + b| - 1] == a + b[..|b| - 1];
      CountOfConcatenation(a, b[..|b| - 1]);
    }
  }

  function StatusAware(m: Message, maximum: nat): Message {
    var content := Compact(m.content, maximum);
    if !m.role.Assistant? || m.status.None? || m.status == Some(Committed) then m.(content := content)
    else m.(content := (if m.status == Some(Failed) then FailedLabel() else InterruptedLabel()) + content)
  }

  function IsSource(m: Message): bool {
    (m.role.User? || m.role.Assistant?) && Trim(m.content) != []
  }

  function SourceOf(messages: seq<Message>): seq<Message> {
    if messages == [] then []
    else SourceOf(messages[..|messages| - 1])
         + if IsSource(messages[|messages| - 1]) then [messages[|messages| - 1]] else []
  }

  /** An answer that failed or was cut off says so in front of its text; anything else is only compacted. */
  lemma UnfinishedAnswersAreLabelled(m: Message, maximum: nat)
    ensures StatusAware(m, maximum) == m.(content := StatusAware(m, maximum).content)
    ensures m.role != Assistant || m.status in {None, Some(Committed)} ==>
              StatusAware(m, maximum).content == Compact(m.content, maximum)
    ensures m.role == Assistant && m.status == Some(Failed) ==>
              StatusAware(m, maximum).content
              == Codes("[应用状态：这条助手回答失败（failed），不能当作已确认结论。]\n") + Compact(m.content, maximum)
    ensures m.role == Assistant && m.status in {Some(Interrupted), Some(Streaming)} ==>
              StatusAware(m, maximum).content
              == Codes("[应用状态：这条助手回答被中断（interrupted），内容不完整，不能当作已确认结论。]\n")
                 + Compact(m.content, maximum)
  {
    hide Compact;
  }

  lemma {:induction false} SourceJoins(a: seq<Message>, b: seq<Message>)
    ensures SourceOf(a + b) == SourceOf(a) + SourceOf(b)
  {
    hide IsSource;
    if b == [] {
      assert a + b == a;
    } else {
      assert (a + b)[..|a + b| - 1] == a + b[..|b| - 1];
      SourceJoins(a, b[..|b| - 1]);
    }
  }

  lemma SaysSomething(m: Message)
    ensures IsSource(m) <==> (m.role == User || m.role == Assistant)
                             && exists k :: 0 <= k < |m.content| && !IsSpaceCode(m.content[k])
  {
    TrimIsEmptyIff(m.content);
  }

  /** The messages a context is made from: the questions and answers that say something, in their order. */
  lemma SourceIsWhatWasSaid(a: seq<Message>, m: Message, b: seq<Message>)
    ensures SourceOf(a + [m] + b) == SourceOf(a) + SourceOf([m]) + SourceOf(b)
    ensures SourceOf([m]) == if (m.role == User || m.role == Assistant)
                                && exists k :: 0 <= k < |m.content| && !IsSpaceCode(m.content[k])
                             then [m] else []
  {
    SourceJoins(a, [m]);
    SourceJoins(a + [m], b);
    SaysSomething(m);
    hide IsSource;
    assert [m][..0] == [];
  }

  // ----- The chosen messages, by position in the source -----

  type Chosen = map<nat, Message>

  function ChosenCost(chosen: Chosen, n: nat): nat {
    if n == 0 then 0 else ChosenCost(chosen, n - 1) + if n - 1 in chosen then Cost(chosen[n - 1]) else 0
  }

  /** The positions below n that were chosen, in source order. */
  function Positions(chosen: Chosen, n: nat): seq<nat> {
    if n == 0 then [] else Positions(chosen, n - 1) + if n - 1 in chosen then [n - 1] else []
  }

  function SelectedMessages(chosen: Chosen, n: nat): seq<Message> {
    if n == 0 then [] else SelectedMessages(chosen, n - 1) + if n - 1 in chosen then [chosen[n - 1]] else []
  }

  lemma {:induction false} CostOfInsertion(chosen: Chosen, i: nat, m: Message, n: nat)
    requires i !in chosen
    ensures ChosenCost(chosen[i := m], n) == ChosenCost(chosen, n) + if i < n then Cost(m) else 0
  {
    if n > 0 { CostOfInsertion(chosen, i, m, n - 1); }
  }

  lemma CountOfOne(m: Message)
    ensures CharacterCount([m]) == Cost(m)
  {
  }

  /** The selection costs what was booked. */
  lemma {:induction false} SelectionCost(chosen: Chosen, n: nat)
    ensures CharacterCount(SelectedMessages(chosen, n)) == ChosenCost(chosen, n)
  {
    if n > 0 {
      SelectionCost(chosen, n - 1);
      if n - 1 in chosen {
        CountOfConcatenation(SelectedMessages(chosen, n - 1), [chosen[n - 1]]);
        CountOfOne(chosen[n - 1]);
      } else {
        assert SelectedMessages(chosen, n) == SelectedMessages(chosen, n - 1);
      }
    }
  }

  /** Positions list what was chosen, once and in order. */
  lemma {:induction false} PositionsInOrder(chosen: Chosen, n: nat)
    ensures forall k :: 0 <= k < |Positions(chosen, n)| ==>
              Positions(chosen, n)[k] < n && Positions(chosen, n)[k] in chosen
    ensures forall j, k :: 0 <= j < k < |Positions(chosen, n)| ==> Positions(chosen, n)[j] < Positions(chosen, n)[k]
    ensures forall i :: i in chosen && i < n ==> i in Positions(chosen, n)
  {
    if n > 0 { PositionsInOrder(chosen, n - 1); }
  }

  lemma {:induction false} SelectionFollowsPositions(chosen: Chosen, n: nat)
    ensures |SelectedMessages(chosen, n)| == |Positions(chosen, n)|
    ensures forall k :: 0 <= k < |Positions(chosen, n)| ==>
              Positions(chosen, n)[k] in chosen && SelectedMessages(chosen, n)[k] == chosen[Positions(chosen, n)[k]]
  {
    if n > 0 { SelectionFollowsPositions(chosen, n - 1); }
  }

  // ----- The builder -----

  datatype Options = Options(maxCharacters: int, recentMessageCount: int, currentTopicMessageCount: int,
                             maxMessageCharacters: int)

  predicate ValidOptions(o: Options) {
    o.maxCharacters >= 512 && 1 <= o.recentMessageCount <= 100 && o.currentTopicMessageCount >= 0
    && o.maxMessageCharacters >= 128
  }

  /** The least and the greatest options, in numbers. */
  lemma OptionsAllowed(o: Options)
    ensures ValidOptions(o) <==>
              && 512 <= o.maxCharacters && 0 < o.recentMessageCount < 101
              && 0 <= o.currentTopicMessageCount && 128 <= o.maxMessageCharacters
  {
  }

  /** Rendered parts that come with the question. The last two are asked for a text of at most
      the given length and may answer with nothing. */
  datatype Extras = Extras(summary: Option<Text>, prior: nat -> Text, recall: nat -> Text)

  ghost predicate KeepsBudget(part: nat -> Text) {
    forall budget :: |part(budget)| <= budget
  }

  function AssistantNote(kind: Kind, content: Text): Message {
    Message(Assistant, kind, content, Some(Committed), None)
  }

  /** What one attempt of the inner closure puts at a free position, if anything. */
  function Fitted(o: Options, used: nat, message: Message, mandatory: bool): Option<Message>
    requires ValidOptions(o)
  {
    var normalized := StatusAware(message, o.maxMessageCharacters);
    if used + Cost(normalized) <= o.maxCharacters then Some(normalized)
    else
      var available := Max(0, o.maxCharacters - used - MESSAGE_OVERHEAD);
      if mandatory && available > 0 then Some(normalized.(content := Compact(normalized.content, available))) else None
  }

  /** Into an empty selection the newest message always goes, whole or shortened; shortening
      needs the budget's lower bound. */
  lemma NewestFits(o: Options, message: Message)
    requires ValidOptions(o)
    ensures Fitted(o, 0, message, true).Some? && Cost(Fitted(o, 0, message, true).value) <= o.maxCharacters
  {
  }

  method Add(o: Options, chosen: Chosen, used: nat, index: nat, message: Message, mandatory: bool)
      returns (chosen': Chosen, used': nat)
    requires ValidOptions(o)
    ensures var fitted := Fitted(o, used, message, mandatory);
            if index in chosen || fitted.None? then chosen' == chosen && used' == used
            else chosen' == chosen[index := fitted.value] && used' == used + Cost(fitted.value)
  {
    hide StatusAware, Compact, Clean, Marker;
    chosen', used' := chosen, used;
    if index !in chosen {
      var normalized := StatusAware(message, o.maxMessageCharacters);
      var cost := CharacterCount([normalized]);
      CountOfOne(normalized);
      if used + cost <= o.maxCharacters {
        chosen', used' := chosen[index := normalized], used + cost;
      } else if mandatory {
        var available := Max(0, o.maxCharacters - used - MESSAGE_OVERHEAD);
        if available > 0 {
          var fitted := normalized.(content := Compact(normalized.content, available));
          CountOfOne(fitted);
          chosen', used' := chosen[index := fitted], used + CharacterCount([fitted]);
        }
      }
    }
  }

  // ----- What a selection guarantees -----

  function Shown(o: Options, m: Message): Message
    requires ValidOptions(o)
  {
    StatusAware(m, o.maxMessageCharacters)
  }

  /** Added to `used`, the message would exceed the budget. */
  predicate TooBig(o: Options, m: Message, used: int)
    requires ValidOptions(o)
  {
    used + Cost(Shown(o, m)) > o.maxCharacters
  }

  /** The chosen map while it grows: booked, within budget, the newest message in it. */
  ghost predicate Books(o: Options, source: seq<Message>, chosen: Chosen, used: int, extra: int) {
    && ValidOptions(o)
    && (forall i :: i in chosen ==> i < |source|)
    && used == ChosenCost(chosen, |source|) + extra <= o.maxCharacters
    && (source != [] ==> |source| - 1 in chosen)
    && (source != [] ==> Fitted(o, 0, source[|source| - 1], true) == Some(chosen[|source| - 1]))
    && (forall i :: i in chosen && i != |source| - 1 ==> chosen[i] == Shown(o, source[i]))
  }

  /** The cost of what was chosen after position `i`, which itself was not. */
  function NewerCost(chosen: Chosen, i: nat, n: nat): int {
    ChosenCost(chosen, n) - ChosenCost(chosen, i)
  }

  /** No recent message left out from `low` on would fit beside what is newer. */
  ghost predicate Crowded(o: Options, source: seq<Message>, chosen: Chosen, extra: int, low: int) {
    ValidOptions(o)
    && forall i: nat :: low <= i < |source| && i !in chosen ==>
         TooBig(o, source[i], extra + NewerCost(chosen, i, |source|))
  }

  predicate OfTopic(m: Message, topic: Option<nat>) {
    topic.Some? && m.topic == topic
  }

  /** What is chosen below `recent`: only the topic asked for, and `older` of them; from `low` on, none that would
      fit beside what is newer is left out. */
  ghost predicate OlderOk(o: Options, source: seq<Message>, chosen: Chosen, extra: int, recent: nat, low: int,
                          topic: Option<nat>, older: nat) {
    ValidOptions(o)
    && (forall i :: i in chosen && i < recent ==> low <= i < |source| && OfTopic(source[i], topic))
    && |Positions(chosen, recent)| == older
    && (forall i: nat :: low <= i < recent <= |source| && i !in chosen && OfTopic(source[i], topic) ==>
          TooBig(o, source[i], extra + NewerCost(chosen, i, |source|)))
  }

  function RecentStart(o: Options, source: seq<Message>): (start: nat)
    requires ValidOptions(o)
    ensures start <= |source|
  {
    Max(0, |source| - o.recentMessageCount)
  }

  /** Position `i` is not selected, and the positions from `k` on are the newer ones. */
  ghost predicate LeftOut(positions: seq<nat>, i: nat, k: nat) {
    k <= |positions| && (forall j :: 0 <= j < k ==> positions[j] < i)
    && (forall j :: k <= j < |positions| ==> i < positions[j])
  }

  /** Was the message at `i` tried? The recent ones all are; the older ones of the topic are until there are
      enough of them. */
  predicate Tried(o: Options, source: seq<Message>, topic: Option<nat>, positions: seq<nat>, older: nat, i: nat)
    requires ValidOptions(o) && i < |source|
  {
    || RecentStart(o, source) <= i
    || (OfTopic(source[i], topic) && (older < o.currentTopicMessageCount || (positions != [] && positions[0] < i)))
  }

  /** The selected messages by position: source order, no repetition, shown as they are; the newest is last, whole
      or shortened to the budget; older ones are of the topic and no more than asked for; and a message that was
      tried is left out only when it does not fit beside the summary and everything newer that was selected. */
  ghost predicate Selection(o: Options, source: seq<Message>, topic: Option<nat>, extra: int,
                            selected: seq<Message>, positions: seq<nat>, older: nat) {
    && ValidOptions(o) && |selected| == |positions|
    && (forall j, k :: 0 <= j < k < |positions| ==> positions[j] < positions[k])
    && (forall k :: 0 <= k < |positions| ==> positions[k] < |source|)
    && (source != [] ==> positions != [] && positions[|positions| - 1] == |source| - 1)
    && (source != [] ==> Fitted(o, 0, source[|source| - 1], true) == Some(selected[|selected| - 1]))
    && (forall k :: 0 <= k < |positions| && positions[k] < |source| - 1 ==>
          selected[k] == Shown(o, source[positions[k]]))
    && older <= |positions| && older <= o.currentTopicMessageCount
    && (forall k :: 0 <= k < |positions| ==> (positions[k] < RecentStart(o, source) <==> k < older))
    && (forall k :: 0 <= k < older ==> OfTopic(source[positions[k]], topic))
    && (forall i: nat, k: nat ::
          i < |source| && LeftOut(positions, i, k) && Tried(o, source, topic, positions, older, i) ==>
            TooBig(o, source[i], extra + CharacterCount(selected[k..])))
  }

  lemma {:induction false} PositionsOfInsertion(chosen: Chosen, i: nat, m: Message, n: nat)
    requires i !in chosen
    ensures |Positions(chosen[i := m], n)| == |Positions(chosen, n)| + if i < n then 1 else 0
  {
    if n > 0 { PositionsOfInsertion(chosen, i, m, n - 1); }
  }

  lemma NothingChosen(n: nat)
    ensures ChosenCost(map[], n) == 0
  {
  }

  lemma {:induction false} NothingBelow(chosen: Chosen, n: nat)
    requires forall i :: i in chosen ==> i >= n
    ensures Positions(chosen, n) == []
  {
    if n > 0 { NothingBelow(chosen, n - 1); }
  }

  /** The older positions are the first ones. */
  lemma {:induction false} OlderComeFirst(chosen: Chosen, recent: nat, n: nat)
    requires recent <= n
    ensures |Positions(chosen, recent)| <= |Positions(chosen, n)|
    ensures Positions(chosen, n)[..|Positions(chosen, recent)|] == Positions(chosen, recent)
    ensures forall k :: |Positions(chosen, recent)| <= k < |Positions(chosen, n)| ==> recent <= Positions(chosen, n)[k]
    ensures forall k :: 0 <= k < |Positions(chosen, recent)| ==> Positions(chosen, n)[k] < recent
  {
    PositionsInOrder(chosen, recent);
    if recent < n { OlderComeFirst(chosen, recent, n - 1); }
  }

  lemma NewestIsLast(chosen: Chosen, n: nat)
    requires n > 0 && n - 1 in chosen
    ensures Positions(chosen, n) != [] && Positions(chosen, n)[|Positions(chosen, n)| - 1] == n - 1
  {
  }

  /** What is selected after a position costs what was booked after it. */
  lemma {:induction false} NewerSelection(chosen: Chosen, i: nat, n: nat)
    requires i <= n
    ensures |Positions(chosen, i)| <= |SelectedMessages(chosen, n)|
    ensures CharacterCount(SelectedMessages(chosen, n)[|Positions(chosen, i)|..]) == NewerCost(chosen, i, n)
  {
    SelectionFollowsPositions(chosen, i);
    if i == n {
      assert SelectedMessages(chosen, n)[|Positions(chosen, i)|..] == [];
    } else {
      NewerSelection(chosen, i, n - 1);
      var k, all := |Positions(chosen, i)|, SelectedMessages(chosen, n - 1);
      if n - 1 in chosen {
        assert (all + [chosen[n - 1]])[k..] == all[k..] + [chosen[n - 1]];
        CountOfConcatenation(all[k..], [chosen[n - 1]]);
        CountOfOne(chosen[n - 1]);
      } else {
        assert SelectedMessages(chosen, n) == all;
      }
    }
  }

  lemma SideOf(positions: seq<nat>, i: nat, k: nat, j: nat)
    requires LeftOut(positions, i, k) && j < |positions|
    ensures (j < k <==> positions[j] < i) && (k <= j <==> i < positions[j])
  {
  }

  lemma LeftOutBounds(positions: seq<nat>, i: nat, k: nat)
    requires LeftOut(positions, i, k)
    ensures k <= |positions| && i !in positions
  {
  }

  /** The position that splits a selection at a message left out is the number of those before it. */
  lemma LeftOutAt(chosen: Chosen, i: nat, k: nat, n: nat)
    requires i <= n && i !in chosen && LeftOut(Positions(chosen, n), i, k)
    ensures k == |Positions(chosen, i)|
  {
    OlderComeFirst(chosen, i, n);
    var positions, c := Positions(chosen, n), |Positions(chosen, i)|;
    assert LeftOut(positions, i, c) by { PositionsInOrder(chosen, n); }
    if k < |positions| {
      SideOf(positions, i, k, k);
      SideOf(positions, i, c, k);
    }
    if c < |positions| {
      SideOf(positions, i, k, c);
      SideOf(positions, i, c, c);
    }
  }

  lemma LeftOutIsTooBig(o: Options, source: seq<Message>, topic: Option<nat>, chosen: Chosen, extra: int, low: int,
                        older: nat, i: nat, k: nat)
    requires ValidOptions(o) && i < |source| && LeftOut(Positions(chosen, |source|), i, k)
    requires Crowded(o, source, chosen, extra, RecentStart(o, source))
    requires OlderOk(o, source, chosen, extra, RecentStart(o, source), low, topic, older)
    requires older < o.currentTopicMessageCount ==> low <= 0
    requires Tried(o, source, topic, Positions(chosen, |source|), older, i)
    ensures |SelectedMessages(chosen, |source|)| == |Positions(chosen, |source|)|
    ensures TooBig(o, source[i], extra + CharacterCount(SelectedMessages(chosen, |source|)[k..]))
  {
    hide Shown, SelectedMessages, Positions, ChosenCost, TooBig, NewerCost, CharacterCount, ValidOptions;
    var n := |source|;
    SelectionFollowsPositions(chosen, n);
    PositionsInOrder(chosen, n);
    LeftOutBounds(Positions(chosen, n), i, k);
    LeftOutAt(chosen, i, k, n);
    NewerSelection(chosen, i, n);
    if i < RecentStart(o, source) && 0 < low {
      assert Positions(chosen, n)[0] in chosen;
    }
  }

  lemma ChosenInOrder(o: Options, source: seq<Message>, topic: Option<nat>, chosen: Chosen, used: int, extra: int,
                      low: int, older: nat)
    requires Books(o, source, chosen, used, extra)
    requires OlderOk(o, source, chosen, extra, RecentStart(o, source), low, topic, older)
    ensures var positions, selected := Positions(chosen, |source|), SelectedMessages(chosen, |source|);
            && |selected| == |positions| && older <= |positions|
            && (forall j, k :: 0 <= j < k < |positions| ==> positions[j] < positions[k])
            && (forall k :: 0 <= k < |positions| ==> positions[k] < |source|)
            && (source != [] ==> positions != [] && positions[|positions| - 1] == |source| - 1)
            && (source != [] ==> Fitted(o, 0, source[|source| - 1], true) == Some(selected[|selected| - 1]))
            && (forall k :: 0 <= k < |positions| && positions[k] < |source| - 1 ==>
                  selected[k] == Shown(o, source[positions[k]]))
            && (forall k :: 0 <= k < |positions| ==> (positions[k] < RecentStart(o, source) <==> k < older))
            && (forall k :: 0 <= k < older ==> OfTopic(source[positions[k]], topic))
  {
    hide Shown, SelectedMessages, Positions, ChosenCost, TooBig, NewerCost, Fitted, OfTopic, Crowded;
    var n, recent := |source|, RecentStart(o, source);
    SelectionFollowsPositions(chosen, n);
    PositionsInOrder(chosen, n);
    OlderComeFirst(chosen, recent, n);
    if n > 0 { NewestIsLast(chosen, n); }
    var positions := Positions(chosen, n);
    forall k | 0 <= k < older ensures OfTopic(source[positions[k]], topic) {
      assert positions[k] in chosen && positions[k] < recent;
    }
    hide RecentStart;
  }

  lemma BooksAreValid(o: Options, source: seq<Message>, chosen: Chosen, used: int, extra: int)
    requires Books(o, source, chosen, used, extra)
    ensures ValidOptions(o)
  {
  }

  /** The map that was built, read in order, is a selection. */
  lemma ChosenIsSelection(o: Options, source: seq<Message>, topic: Option<nat>, chosen: Chosen, used: int, extra: int,
                          low: int, older: nat)
    requires Books(o, source, chosen, used, extra) && Crowded(o, source, chosen, extra, RecentStart(o, source))
    requires OlderOk(o, source, chosen, extra, RecentStart(o, source), low, topic, older)
    requires older <= o.currentTopicMessageCount && (older < o.currentTopicMessageCount ==> low <= 0)
    ensures Selection(o, source, topic, extra, SelectedMessages(chosen, |source|), Positions(chosen, |source|), older)
  {
    hide Shown, SelectedMessages, Positions, ChosenCost, TooBig, NewerCost, CharacterCount, Tried, LeftOut, Books,
      RecentStart, Crowded, OlderOk, OfTopic, Fitted;
    var positions, selected := Positions(chosen, |source|), SelectedMessages(chosen, |source|);
    assert ValidOptions(o) by { BooksAreValid(o, source, chosen, used, extra); }
    ChosenInOrder(o, source, topic, chosen, used, extra, low, older);
    forall i: nat, k: nat | i < |source| && LeftOut(positions, i, k) && Tried(o, source, topic, positions, older, i)
      ensures k <= |selected| && TooBig(o, source[i], extra + CharacterCount(selected[k..]))
    {
      LeftOutBounds(positions, i, k);
      LeftOutIsTooBig(o, source, topic, chosen, extra, low, older, i, k);
    }
  }

  /** A further message at a free position keeps the books. */
  lemma BooksGrow(o: Options, source: seq<Message>, chosen: Chosen, used: int, extra: int, i: nat)
    requires Books(o, source, chosen, used, extra) && i < |source| - 1 && i !in chosen
    requires used + Cost(Shown(o, source[i])) <= o.maxCharacters
    ensures Books(o, source, chosen[i := Shown(o, source[i])], used + Cost(Shown(o, source[i])), extra)
  {
    CostOfInsertion(chosen, i, Shown(o, source[i]), |source|);
    hide Shown, ChosenCost;
  }

  lemma {:induction false} NoCostBelow(chosen: Chosen, n: nat)
    requires forall i :: i in chosen ==> i >= n
    ensures ChosenCost(chosen, n) == 0
  {
    if n > 0 { NoCostBelow(chosen, n - 1); }
  }

  /** An addition before everything chosen leaves what is newer than a later position alone. */
  lemma NewerStays(chosen: Chosen, index: nat, m: Message, i: nat, n: nat)
    requires index !in chosen && index < i <= n
    ensures NewerCost(chosen[index := m], i, n) == NewerCost(chosen, i, n)
  {
    CostOfInsertion(chosen, index, m, i);
    CostOfInsertion(chosen, index, m, n);
  }

  /** What the selection is after the message at `index` was tried, without it when it does not fit. */
  function After(o: Options, source: seq<Message>, chosen: Chosen, used: int, index: nat): (Chosen, int)
    requires ValidOptions(o) && index < |source|
  {
    if used + Cost(Shown(o, source[index])) <= o.maxCharacters
    then (chosen[index := Shown(o, source[index])], used + Cost(Shown(o, source[index]))) else (chosen, used)
  }

  /** What is newer than a later position costs the same after the attempt, and what is newer than the message
      itself is everything chosen. */
  lemma NewerAfter(o: Options, source: seq<Message>, chosen: Chosen, used: int, extra: int, index: nat)
    requires Books(o, source, chosen, used, extra) && index < |source| - 1
    requires forall i :: i in chosen ==> i > index
    ensures var next := After(o, source, chosen, used, index).0;
            && (forall i: nat :: index < i < |source| ==>
                  NewerCost(next, i, |source|) == NewerCost(chosen, i, |source|))
            && (index !in next ==> TooBig(o, source[index], extra + NewerCost(next, index, |source|)))
  {
    var next := After(o, source, chosen, used, index).0;
    NoCostBelow(chosen, index);
    assert NewerCost(chosen, index, |source|) == used - extra;
    hide ChosenCost;
    forall i: nat | index < i < |source| ensures NewerCost(next, i, |source|) == NewerCost(chosen, i, |source|) {
      if index in next { NewerStays(chosen, index, next[index], i, |source|); }
    }
    hide NewerCost, Shown;
  }

  /** Trying the message at `index`, below everything chosen, keeps the books, and leaves it out only when it does
      not fit beside what is newer. */
  lemma Attempted(o: Options, source: seq<Message>, chosen: Chosen, used: int, extra: int, index: nat, low: int)
    requires Books(o, source, chosen, used, extra) && Crowded(o, source, chosen, extra, low) && index < low
    requires index < |source| - 1 && forall i :: i in chosen ==> i > index
    ensures var (next, spent) := After(o, source, chosen, used, index);
            && Books(o, source, next, spent, extra)
            && Crowded(o, source, next, extra, if low == index + 1 then index else low)
  {
    hide Shown, ChosenCost, NewerCost, TooBig;
    NewerAfter(o, source, chosen, used, extra, index);
    if used + Cost(Shown(o, source[index])) <= o.maxCharacters { BooksGrow(o, source, chosen, used, extra, index); }
  }

  lemma AtMostOneMore(o: Options, source: seq<Message>, chosen: Chosen, used: int, index: nat)
    requires ValidOptions(o) && index < |source| && forall i :: i in chosen ==> i > index
    ensures var next := After(o, source, chosen, used, index).0;
            |next| == |chosen| + (if index in next then 1 else 0) && forall i :: i in next ==> i >= index
  {
    hide Shown;
  }

  lemma OlderAttempted(o: Options, source: seq<Message>, chosen: Chosen, used: int, extra: int, recent: nat,
                       topic: Option<nat>, older: nat, index: nat)
    requires Books(o, source, chosen, used, extra) && Crowded(o, source, chosen, extra, recent)
    requires OlderOk(o, source, chosen, extra, recent, index + 1, topic, older)
    requires index < recent <= |source| && index < |source| - 1 && forall i :: i in chosen ==> i > index
    requires OfTopic(source[index], topic)
    ensures var next := After(o, source, chosen, used, index).0;
            OlderOk(o, source, next, extra, recent, index, topic, older + if index in next then 1 else 0)
  {
    hide Shown, ChosenCost, NewerCost, TooBig, Positions;
    NewerAfter(o, source, chosen, used, extra, index);
    PositionsOfInsertion(chosen, index, Shown(o, source[index]), recent);
  }

  lemma OtherTopic(o: Options, source: seq<Message>, chosen: Chosen, extra: int, recent: nat, topic: Option<nat>,
                   older: nat, index: nat)
    requires OlderOk(o, source, chosen, extra, recent, index + 1, topic, older)
    requires index < recent <= |source| && !OfTopic(source[index], topic)
    ensures OlderOk(o, source, chosen, extra, recent, index, topic, older)
  {
  }

  // ----- The notes in front -----

  /** What the newest message takes of the budget. */
  function NewestCost(o: Options, source: seq<Message>): nat
    requires ValidOptions(o)
  {
    if source == [] then 0
    else
      var fitted := Fitted(o, 0, source[|source| - 1], true);
      if fitted.Some? then Cost(fitted.value) else 0
  }

  /** The summary is shown when it fits beside the newest message, and before anything else. */
  function SummaryNote(o: Options, source: seq<Message>, summary: Option<Text>): Option<Message>
    requires ValidOptions(o)
  {
    if summary.None? then None
    else
      var candidate := StatusAware(AssistantNote(Summary, summary.value), Min(6_000, o.maxMessageCharacters));
      if NewestCost(o, source) + Cost(candidate) <= o.maxCharacters then Some(candidate) else None
  }

  function NoteCost(note: Option<Message>): nat {
    if note.Some? then Cost(note.value) else 0
  }

  function WithNote(note: Option<Message>, messages: seq<Message>): seq<Message> {
    if note.Some? then [note.value] + messages else messages
  }

  /** A note in front of the messages when its part has a text for the room that is left. */
  function Headed(o: Options, kind: Kind, part: nat -> Text, messages: seq<Message>): seq<Message> {
    var text := part(Max(0, o.maxCharacters - CharacterCount(messages) - MESSAGE_OVERHEAD));
    if text == [] then messages else [AssistantNote(kind, text)] + messages
  }

  /** A note never breaks the budget. */
  lemma HeadedFits(o: Options, kind: Kind, part: nat -> Text, messages: seq<Message>)
    requires KeepsBudget(part) && CharacterCount(messages) <= o.maxCharacters
    ensures CharacterCount(messages) <= CharacterCount(Headed(o, kind, part, messages)) <= o.maxCharacters
  {
    var text := part(Max(0, o.maxCharacters - CharacterCount(messages) - MESSAGE_OVERHEAD));
    CountOfConcatenation([AssistantNote(kind, text)], messages);
    CountOfOne(AssistantNote(kind, text));
  }

  // ----- The builder -----

  /** What an optional message needs to be added. */
  lemma ShownFits(o: Options, used: nat, m: Message)
    requires ValidOptions(o)
    ensures Fitted(o, used, m, false) == if used + Cost(Shown(o, m)) <= o.maxCharacters then Some(Shown(o, m)) else None
  {
  }

  /** The booked amount is the size of what is sent. */
  lemma BooksCount(o: Options, source: seq<Message>, chosen: Chosen, used: int, note: Option<Message>)
    requires Books(o, source, chosen, used, NoteCost(note))
    ensures var selected := SelectedMessages(chosen, |source|);
            CharacterCount(if note.Some? then [note.value] + selected else selected) == used <= o.maxCharacters
  {
    hide Shown;
    SelectionCost(chosen, |source|);
    if note.Some? {
      CountOfConcatenation([note.value], SelectedMessages(chosen, |source|));
      CountOfOne(note.value);
    }
  }

  class Builder {
    const options: Options

    constructor (options: Options)
      requires ValidOptions(options)
      ensures this.options == options
    {
      this.options := options;
    }

    /** The newest message first; then room for the summary. */
    method ChooseNewest(source: seq<Message>, summary: Option<Text>)
        returns (chosen: Chosen, note: Option<Message>, used: nat)
      requires ValidOptions(options)
      ensures Books(options, source, chosen, used, NoteCost(note))
      ensures chosen.Keys == if source == [] then {} else {|source| - 1}
      ensures note == SummaryNote(options, source, summary)
    {
      hide StatusAware, Compact, Clean, Marker, Shown;
      chosen, used, note := map[], 0, None;
      NothingChosen(|source|);
      if source != [] {
        NewestFits(options, source[|source| - 1]);
        chosen, used := Add(options, chosen, used, |source| - 1, source[|source| - 1], true);
        CostOfInsertion(map[], |source| - 1, chosen[|source| - 1], |source|);
      }
      hide Fitted, ChosenCost;
      if summary.Some? {
        var candidate := StatusAware(AssistantNote(Summary, summary.value), Min(6_000, options.maxMessageCharacters));
        if used + Cost(candidate) <= options.maxCharacters { note, used := Some(candidate), used + Cost(candidate); }
      }
    }

    /** One optional message, put at its free position when it fits. */
    method Try(source: seq<Message>, chosen: Chosen, used: nat, index: nat) returns (chosen': Chosen, used': nat)
      requires ValidOptions(options) && index < |source| && index !in chosen
      ensures (chosen', used') == After(options, source, chosen, used, index)
    {
      hide StatusAware, Compact;
      chosen', used' := Add(options, chosen, used, index, source[index], false);
      ShownFits(options, used, source[index]);
    }

    /** Recent messages, from new to old. */
    method ChooseRecent(source: seq<Message>, chosen: Chosen, used: nat, ghost extra: int)
        returns (chosen': Chosen, used': nat)
      requires Books(options, source, chosen, used, extra)
      requires chosen.Keys == if source == [] then {} else {|source| - 1}
      ensures Books(options, source, chosen', used', extra)
      ensures Crowded(options, source, chosen', extra, RecentStart(options, source))
      ensures forall i :: i in chosen' ==> RecentStart(options, source) <= i
    {
      hide StatusAware, Compact, Clean, Marker, Shown, ChosenCost, NewerCost;
      chosen', used' := chosen, used;
      var index := |source| - 2;
      while index >= RecentStart(options, source)
        invariant index <= |source| - 2
        invariant Books(options, source, chosen', used', extra)
        invariant Crowded(options, source, chosen', extra, index + 1)
        invariant forall i :: i in chosen' ==> i > index && RecentStart(options, source) <= i
        decreases index
      {
        ghost var before, spent := chosen', used';
        chosen', used' := Try(source, chosen', used', index);
        Attempted(options, source, before, spent, extra, index, index + 1);
        hide Books, Crowded;
        index := index - 1;
      }
    }

    /** Older messages of the current topic, from new to old, up to their limit; `low` is where the search ended. */
    method ChooseOlder(source: seq<Message>, topic: Option<nat>, chosen: Chosen, used: nat, ghost extra: int)
        returns (chosen': Chosen, used': nat, older: nat, ghost low: nat)
      requires Books(options, source, chosen, used, extra)
      requires Crowded(options, source, chosen, extra, RecentStart(options, source))
      requires forall i :: i in chosen ==> RecentStart(options, source) <= i
      ensures Books(options, source, chosen', used', extra)
      ensures Crowded(options, source, chosen', extra, RecentStart(options, source))
      ensures OlderOk(options, source, chosen', extra, RecentStart(options, source), low, topic, older)
      ensures older <= options.currentTopicMessageCount && (older < options.currentTopicMessageCount ==> low == 0)
    {
      hide StatusAware, Shown, ChosenCost, NewerCost, TooBig, Fitted, After, Positions;
      chosen', used', older := chosen, used, 0;
      var recent: int := RecentStart(options, source);
      NothingBelow(chosen, recent);
      assert OlderOk(options, source, chosen, extra, recent, recent, topic, 0);
      assert topic.None? ==> OlderOk(options, source, chosen, extra, recent, 0, topic, 0);
      assert ValidOptions(options);
      hide Books, Crowded, OlderOk;
      low := if topic.Some? then recent else 0;
      if topic.Some? && options.currentTopicMessageCount > 0 {
        var index: int := recent - 1;
        while index >= 0 && older < options.currentTopicMessageCount
          invariant -1 <= index < recent
          invariant Books(options, source, chosen', used', extra)
          invariant Crowded(options, source, chosen', extra, recent)
          invariant forall i :: i in chosen' ==> i > index
          invariant older <= options.currentTopicMessageCount
          invariant OlderOk(options, source, chosen', extra, recent, index + 1, topic, older)
          decreases index
        {
          if source[index].topic == topic {
            ghost var before, spent := chosen', used';
            var size := |chosen'|;
            chosen', used' := Try(source, chosen', used', index);
            Attempted(options, source, before, spent, extra, index, recent);
            OlderAttempted(options, source, before, spent, extra, recent, topic, older, index);
            AtMostOneMore(options, source, before, spent, index);
            if |chosen'| > size { older := older + 1; }
          } else {
            OtherTopic(options, source, chosen', extra, recent, topic, older, index);
          }
          index := index - 1;
        }
        low := index + 1;
      }
    }

    /** Read the chosen messages in source order. */
    method Collect(chosen: Chosen, n: nat) returns (selected: seq<Message>)
      ensures selected == SelectedMessages(chosen, n)
    {
      selected := [];
      for i := 0 to n
        invariant selected == SelectedMessages(chosen, i)
      {
        if i in chosen { selected := selected + [chosen[i]]; }
      }
    }

    /** Put a note in front when its source has one for the room that is left. */
    method Prepend(messages: seq<Message>, kind: Kind, part: nat -> Text) returns (r: seq<Message>)
      requires ValidOptions(options) && KeepsBudget(part) && CharacterCount(messages) <= options.maxCharacters
      ensures CharacterCount(messages) <= CharacterCount(r) <= options.maxCharacters
      ensures r == Headed(options, kind, part, messages)
    {
      HeadedFits(options, kind, part, messages);
      var text := part(Max(0, options.maxCharacters - CharacterCount(messages) - MESSAGE_OVERHEAD));
      if text == [] { return messages; }
      r := [AssistantNote(kind, text)] + messages;
    }

    /** The context of a turn: the recall's note, the prior sessions' note and the summary's
        note, each exactly when it has text that fits what the later parts leave, then a
        selection of the history; all of it within the budget. */
    method Build(history: seq<Message>, topic: Option<nat>, extras: Extras)
        returns (messages: seq<Message>, count: nat, ghost selected: seq<Message>, ghost positions: seq<nat>,
                 ghost older: nat)
      requires ValidOptions(options) && KeepsBudget(extras.prior) && KeepsBudget(extras.recall)
      ensures count == CharacterCount(messages) <= options.maxCharacters
      ensures var summarised := WithNote(SummaryNote(options, SourceOf(history), extras.summary), selected);
              messages == Headed(options, History, extras.recall, Headed(options, Prior, extras.prior, summarised))
      ensures var note := SummaryNote(options, SourceOf(history), extras.summary);
              Selection(options, SourceOf(history), topic, NoteCost(note), selected, positions, older)
    {
      hide StatusAware, Compact, Clean, Marker, Shown, SourceOf, Books, Crowded, OlderOk, Selection, KeepsBudget,
        Headed, SummaryNote;
      var source := SourceOf(history);
      var first, note, spent := ChooseNewest(source, extras.summary);
      ghost var extra := NoteCost(note);
      var second, used := ChooseRecent(source, first, spent, extra);
      var chosen, total, quota, low := ChooseOlder(source, topic, second, used, extra);
      older, positions := quota, Positions(chosen, |source|);
      var collected := Collect(chosen, |source|);
      selected := collected;
      ChosenIsSelection(options, source, topic, chosen, total, extra, low, older);
      BooksCount(options, source, chosen, total, note);
      hide Positions, SelectedMessages;
      hide CharacterCount, Cost;
      messages := if note.Some? then [note.value] + collected else collected;
      messages := Prepend(messages, Prior, extras.prior);
      messages := Prepend(messages, History, extras.recall);
      count := CharacterCount(messages);
    }
  }
}
