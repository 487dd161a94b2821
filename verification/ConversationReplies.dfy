/** What becomes of words: pieces of a reply add up, submissions that wait are joined, and a turn is
    filed and stored as it was said. */
module ConversationReplies {
  import opened AnswerLimits
  import opened Texts
  import opened Wrappers
  import opened ConversationStreams
  import opened ConversationTurns

  // ----- Pieces of a reply -----

  /** A piece of the current reply is added to what was said, checkpointed or not; a checkpoint that
      fits writes all of it into the row, and nothing else changes. */
  lemma PieceIsAdded(c: Conv, value: Text, checkpoint: bool)
    ensures var d := Appended(c, c.revision, value, checkpoint);
            && d == c.(partial := c.partial + value, store := d.store) && d.store.Keys == c.store.Keys
            && forall m :: m in c.store ==>
                 d.store[m] == if checkpoint && c.durable.Some? && c.durable.value.message == m && c.Streams(m)
                                  && |c.partial + value| <= 120_000
                               then Stored(c.store[m].turn, Streaming, c.partial + value) else c.store[m]
  {
  }

  /** The values sent for the reply of one revision, in order. */
  function Said(revision: nat, events: seq<Event>): seq<Text> {
    if events == [] then []
    else
      (if events[0].Delta? && events[0].revision == revision then [events[0].value] else [])
      + Said(revision, events[1..])
  }

  /** The event is a piece of the current reply, or comes too late, or is one that an open reply
      does not heed. */
  ghost predicate Undisturbed(c: Conv, e: Event) {
    Late(c, e) || (e.Delta? && e.revision == c.revision) || e.Resume? || e.ConfirmExit? || e.RestoreHistory?
  }

  ghost predicate Speaking(c: Conv, events: seq<Event>)
    requires ValidRun(c, events)
    decreases |events|
  {
    events == [] || (Undisturbed(c, events[0]) && Speaking(Step(c, events[0]), events[1..]))
  }

  /** The reply that was open in `c` is open in `d`, and nothing was filed. */
  ghost predicate SameReply(c: Conv, d: Conv) {
    && d.revision == c.revision && d.durable == c.durable && d.history == c.history && d.state == c.state
    && d.pending == c.pending && d.runtime == c.runtime && d.responseId == c.responseId
    && d.store.Keys == c.store.Keys && d.tasks.Keys <= c.tasks.Keys
    && (forall m :: m in c.store ==> d.store[m].turn == c.store[m].turn)
    && (forall m :: m in c.store && !c.Streams(m) ==> d.store[m] == c.store[m])
    && (forall m :: m in c.store && (c.durable.None? || c.durable.value.message != m) ==> d.store[m] == c.store[m])
  }

  /** What an undisturbed event leaves of an open reply. */
  ghost predicate Continues(c: Conv, e: Event, d: Conv) {
    && ReplyingNow(d) && SameReply(c, d)
    && d.partial == c.partial + (if e.Delta? && e.revision == c.revision then e.value else [])
    && forall t :: c.Current(t) ==> d.Current(t) && d.tasks[t] == c.tasks[t]
  }

  lemma LateContinues(c: Conv, e: Event)
    requires ReplyingNow(c) && Possible(c, e) && Late(c, e)
    ensures Continues(c, e, Step(c, e))
  {
    LateEventsAreInert(c, e);
    var t :| c.Current(t) && c.tasks[t].phase.Replying?;
    var d := Step(c, e);
    assert forall u :: c.Current(u) ==> u in d.tasks && d.tasks[u] == c.tasks[u];
    hide Step, Possible, Late;
    assert d.Current(t);
    assert c.partial + [] == c.partial;
  }

  lemma UndisturbedKeepsReply(c: Conv, e: Event)
    requires Inv(c) && ReplyingNow(c) && Possible(c, e) && Undisturbed(c, e)
    ensures Continues(c, e, Step(c, e))
  {
    if Late(c, e) {
      LateContinues(c, e);
    } else {
      var t :| c.Current(t) && c.tasks[t].phase.Replying?;
      assert PhaseOk(c, c.tasks[t].phase);
      hide Inv;
      if e.Delta? { PieceIsAdded(c, e.value, e.checkpoint); }
      var d := Step(c, e);
      hide Possible, Late;
      assert d.Current(t);
      assert c.partial + [] == c.partial;
    }
  }

  lemma SameReplyThrough(a: Conv, b: Conv, c: Conv)
    requires SameReply(a, b) && SameReply(b, c)
    ensures SameReply(a, c)
  {
  }

  lemma FlattenStep(first: Text, values: seq<Text>)
    ensures Flatten([first] + values) == first + Flatten(values)
  {
    assert ([first] + values)[1..] == values;
  }

  /** Through any run of pieces of an open reply, mixed with anything that comes late, the text is
      what was there before followed by the pieces in order, whichever were checkpointed. */
  lemma {:induction false} TextIsWhatWasSaid(c: Conv, events: seq<Event>)
    requires Inv(c) && ReplyingNow(c) && ValidRun(c, events) && Speaking(c, events)
    ensures var d := Run(c, events);
            && Inv(d) && ReplyingNow(d) && SameReply(c, d)
            && d.partial == c.partial + Flatten(Said(c.revision, events))
            && forall t :: c.Current(t) ==> d.Current(t) && d.tasks[t] == c.tasks[t]
    decreases |events|
  {
    hide Inv, ReplyingNow, Possible, Step, Undisturbed;
    if events == [] {
      assert c.partial + [] == c.partial;
    } else {
      var e, next := events[0], Step(c, events[0]);
      StepKeepsInv(c, e);
      UndisturbedKeepsReply(c, e);
      TextIsWhatWasSaid(next, events[1..]);
      SameReplyThrough(c, next, Run(c, events));
      var rest := Said(c.revision, events[1..]);
      if e.Delta? && e.revision == c.revision {
        FlattenStep(e.value, rest);
        assert Said(c.revision, events) == [e.value] + rest;
        assert c.partial + (e.value + Flatten(rest)) == (c.partial + e.value) + Flatten(rest);
      } else {
        assert Said(c.revision, events) == rest;
      }
    }
  }

  /** An interrupt of an open reply. */
  lemma InterruptStops(c: Conv)
    requires Inv(c) && ReplyingNow(c) && c.runtime
    ensures c.durable.Some? && c.durable.value.message in c.store
    ensures var m, d := c.durable.value.message, Step(c, Interrupt);
            && m in d.store && d.state.Listening? && d.responseId.None? && d.partial == [] && d.pending == c.pending
            && (0 < |c.partial| <= 120_000 ==>
                  && d.store == c.store[m := Stored(c.store[m].turn, ConversationTurns.Interrupted, c.partial)]
                  && d.history == c.history + [Entry(AssistantRole, c.partial + Codes("\n[回答被用户打断，未完成]"),
                                                     EntryInterrupted, Some(m))])
            && (c.partial == [] ==>
                  && d.history == c.history
                  && d.store == c.store[m := c.store[m].(status := ConversationTurns.Interrupted)])
  {
    StoppableIff(c);
    var t :| c.Current(t) && c.tasks[t].phase.Replying?;
    assert PhaseOk(c, c.tasks[t].phase);
    hide Inv, ReplyingNow;
  }

  /** A reply just opened, then spoken, then interrupted: exactly what was said stands in the row and,
      with the note, in the newest line of the history. */
  lemma InterruptKeepsWhatWasSaid(c: Conv, events: seq<Event>)
    requires Inv(c) && ReplyingNow(c) && c.runtime && c.partial == []
    requires ValidRun(c, events) && Speaking(c, events)
    ensures c.durable.Some? && c.durable.value.message in c.store
    ensures var said, m := Flatten(Said(c.revision, events)), c.durable.value.message;
            var d := Step(Run(c, events), Interrupt);
            && m in d.store && d.state.Listening? && d.responseId.None? && d.partial == []
            && (0 < |said| <= 120_000 ==>
                  && d.store[m] == Stored(c.store[m].turn, ConversationTurns.Interrupted, said)
                  && d.history == c.history + [Entry(AssistantRole, said + Codes("\n[回答被用户打断，未完成]"),
                                                     EntryInterrupted, Some(m))])
            && (said == [] ==> d.history == c.history && d.store[m].status.Interrupted?)
  {
    TextIsWhatWasSaid(c, events);
    InterruptStops(c);
    InterruptStops(Run(c, events));
    var said := Flatten(Said(c.revision, events));
    assert [] + said == said;
    hide Inv, ReplyingNow, Run, Speaking, ValidRun, Said, Flatten, Step;
  }

  // ----- Submissions -----

  /** A submission is taken exactly while input is accepted, within 6000 units and 12000 with what
      waits, and when there is anything to say. */
  predicate Taken(c: Conv, clean: Text) {
    && c.AcceptsInput() && |clean| <= 6_000 && |c.pending| + |clean| <= 12_000
    && (clean != [] || c.pending != [])
  }

  /** What waits and what is new, on lines of their own. */
  function AllWords(pending: Text, clean: Text): Text {
    if pending == [] || clean == [] then pending + clean else pending + [10] + clean
  }

  /** A submission that is taken plans all waiting words as one text; one that is too long pauses and
      keeps what waited; any other changes nothing. */
  lemma SubmissionIsTakenIff(c: Conv, clean: Text, forced: bool, t: TaskId)
    requires t !in c.tasks
    ensures var d := Submitted(c, clean, forced, t);
            && (t in d.tasks <==> Taken(c, clean))
            && (Taken(c, clean) ==>
                  && d.state.Thinking? && d.revision == c.revision + 1 && d.responseId.None?
                  && d.pending == AllWords(c.pending, clean)
                  && d.tasks == c.tasks[t := Task(c.revision + 1, Planning(AllWords(c.pending, clean), forced))])
            && (!Taken(c, clean) ==>
                  && d.pending == c.pending && d.tasks == c.tasks
                  && d.state == if c.AcceptsInput() && (|clean| > 6_000 || |c.pending| + |clean| > 12_000)
                                then Paused else c.state)
            && (c.responseId.None? ==> d.history == c.history && d.store == c.store)
  {
    assert c.pending + [] == c.pending && [] + clean == clean;
    hide InterruptedStore, InterruptedHistory, Stranded;
  }

  /** What the arriving plan of the current submission comes to. */
  lemma PlanOutcome(c: Conv, t: TaskId, decision: Decision, retry: bool, ack: UserAck, started: bool, answer: Durable)
    requires Inv(c) && c.Current(t) && c.tasks[t].phase.Planning?
    ensures var text, d := c.tasks[t].phase.text, Planned(c, t, decision, retry, ack, started, answer);
            var user := Entry(UserRole, if retry then Codes("重新回答") else text, EntryCommitted, None);
            if decision.Wait? && !c.tasks[t].phase.forced then
              d.state.Listening? && d.pending == c.pending && d.history == c.history && t !in d.tasks
              && d.store == c.store
            else
              && d.pending == []
              && (if c.runtime && ack.UserThrows? then
                    d.state.Paused? && d.history == c.history && t !in d.tasks && d.store == c.store
                  else if c.runtime && ack.UserDuplicate? then
                    d.state.Listening? && d.history == c.history && t !in d.tasks && d.store == c.store
                  else
                    && d.history == c.history + [user]
                    && (if decision.Exit? then d.state.ExitPending? && t !in d.tasks && d.store == c.store
                        else if c.runtime && !started then d.state.Paused? && t !in d.tasks && d.store == c.store
                        else
                          && d.state.Answering? && d.partial == [] && d.revision == c.revision
                          && d.tasks == c.tasks[t := Task(c.revision, Replying)]
                          && d.responseId == Some(c.revision)
                          && d.durable == (if c.runtime then Some(answer) else None)
                          && d.store == if c.runtime
                                        then c.store[answer.message := Stored(answer.turn, Streaming, [])]
                                        else c.store))
  {
    assert PhaseOk(c, c.tasks[t].phase) && c.durable.None? && c.responseId.None?;
    hide Inv;
  }

  /** What a finished reply comes to: it is filed as it was said and stored trimmed, or the turn
      fails; then the save ends the turn. */
  lemma ReplyOutcome(c: Conv, t: TaskId, final: Text, citations: Option<Text>, saved: bool)
    requires Inv(c) && c.runtime && c.Current(t) && c.tasks[t].phase.Replying? && Commits(final, citations, true)
    ensures c.durable.Some? && c.durable.value.message in c.store
    ensures var m := c.durable.value.message;
            var d := Replied(c, t, final, citations, true);
            && d.tasks == c.tasks[t := Task(c.revision, Saving)] && d.committing
            && d.history == c.history + [Entry(AssistantRole, final, EntryCommitted, Some(m))]
            && d.store == c.store[m := Stored(c.store[m].turn, Committed, Trim(final))]
            && var e := SaveFinished(d, t, saved);
            && e.history == d.history && e.store == d.store && e.tasks == c.tasks - {t} && e.pending == c.pending
            && e.state == (if saved then Listening else Paused) && e.revision == c.revision
            && e.responseId.None? && e.durable.None? && e.partial == [] && !e.committing
  {
    assert PhaseOk(c, c.tasks[t].phase);
    hide Inv, Commits, Trim;
  }

  lemma AskedIsPlanning(c: Conv, words: Text, forced: bool, t: TaskId)
    requires Inv(c) && c.responseId.None? && Taken(c, words) && t !in c.tasks
    ensures var d := Step(c, Submit(words, forced, t));
            && Inv(d) && d.Current(t) && d.tasks[t].phase == Planning(AllWords(c.pending, words), forced)
            && d.tasks == c.tasks[t := Task(c.revision + 1, d.tasks[t].phase)] && d.revision == c.revision + 1
            && d.history == c.history && d.store == c.store && d.runtime == c.runtime && d.responseId.None?
            && d.pending == AllWords(c.pending, words)
  {
    SubmissionIsTakenIff(c, words, forced, t);
    StepKeepsInv(c, Submit(words, forced, t));
    hide Inv, Submitted, Taken, AllWords;
  }

  lemma PlanKeepsRuntime(c: Conv, t: TaskId, answer: Durable)
    requires t in c.tasks && c.tasks[t].phase.Planning?
    ensures Planned(c, t, Respond, false, UserCommitted, true, answer).runtime == c.runtime
  {
  }

  lemma PlanOpens(c: Conv, t: TaskId, answer: Durable)
    requires Inv(c) && c.runtime && c.Current(t) && c.tasks[t].phase.Planning? && answer.message !in c.store
    ensures var plan := PlanArrives(t, Respond, false, UserCommitted, true, answer);
            && Possible(c, plan)
            && var d := Step(c, plan);
            && Inv(d) && ReplyingNow(d) && d.Current(t) && d.tasks == c.tasks[t := Task(c.revision, Replying)]
            && d.runtime && d.pending == [] && d.partial == [] && d.durable == Some(answer) && d.revision == c.revision
            && d.history == c.history + [Entry(UserRole, c.tasks[t].phase.text, EntryCommitted, None)]
            && d.store == c.store[answer.message := Stored(answer.turn, Streaming, [])]
  {
    var plan := PlanArrives(t, Respond, false, UserCommitted, true, answer);
    PlanOutcome(c, t, Respond, false, UserCommitted, true, answer);
    PlanKeepsRuntime(c, t, answer);
    StepKeepsInv(c, plan);
    hide Inv, Planned;
  }

  /** From an idle conversation to the open reply. */
  lemma TurnOpens(c: Conv, words: Text, forced: bool, t: TaskId, answer: Durable)
    requires Inv(c) && c.responseId.None? && c.runtime && Taken(c, words)
    requires t !in c.tasks && answer.message !in c.store
    ensures var asked := Step(c, Submit(words, forced, t));
            var plan := PlanArrives(t, Respond, false, UserCommitted, true, answer);
            && Possible(asked, plan)
            && var open := Step(asked, plan);
            && Inv(open) && ReplyingNow(open) && open.Current(t)
            && open.tasks == c.tasks[t := Task(c.revision + 1, Replying)]
            && open.runtime && open.pending == [] && open.partial == [] && open.durable == Some(answer)
            && open.history == c.history + [Entry(UserRole, AllWords(c.pending, words), EntryCommitted, None)]
            && open.store == c.store[answer.message := Stored(answer.turn, Streaming, [])]
  {
    AskedIsPlanning(c, words, forced, t);
    hide Inv, Step, Possible, Taken, AllWords, ReplyingNow;
    PlanOpens(Step(c, Submit(words, forced, t)), t, answer);
  }

  /** A reply that can be committed, filed and saved. */
  lemma ReplyCloses(c: Conv, t: TaskId, final: Text, citations: Option<Text>, saved: bool)
    requires Inv(c) && c.runtime && c.Current(t) && c.tasks[t].phase.Replying? && Commits(final, citations, true)
    ensures c.durable.Some? && c.durable.value.message in c.store
    ensures var m, reply := c.durable.value.message, ReplyArrives(t, final, citations, true);
            && Possible(c, reply) && Possible(Step(c, reply), SaveArrives(t, saved))
            && var d := Step(Step(c, reply), SaveArrives(t, saved));
            && d.history == c.history + [Entry(AssistantRole, final, EntryCommitted, Some(m))]
            && d.store == c.store[m := Stored(c.store[m].turn, Committed, Trim(final))]
            && d.state == (if saved then Listening else Paused) && d.pending == c.pending && d.partial == []
            && d.responseId.None? && d.durable.None? && d.tasks == c.tasks - {t}
  {
    ReplyOutcome(c, t, final, citations, saved);
    hide Inv, Replied, SaveFinished, Commits, Trim;
  }

  lemma SameAnswer(open: Conv, spoken: Conv)
    requires SameReply(open, spoken) && open.durable.Some? && open.durable.value.message in open.store
    ensures spoken.durable == open.durable && spoken.history == open.history && spoken.pending == open.pending
    ensures spoken.runtime == open.runtime
    ensures spoken.store.Keys == open.store.Keys && spoken.tasks.Keys <= open.tasks.Keys
    ensures spoken.store[open.durable.value.message].turn == open.store[open.durable.value.message].turn
    ensures forall n :: n in open.store && n != open.durable.value.message ==> spoken.store[n] == open.store[n]
  {
  }

  /** From the open reply to the end of its turn. */
  lemma TurnEnds(open: Conv, t: TaskId, speech: seq<Event>, citations: Option<Text>, saved: bool)
    requires Inv(open) && ReplyingNow(open) && open.Current(t) && open.tasks[t].phase.Replying?
    requires open.runtime && open.partial == [] && ValidRun(open, speech) && Speaking(open, speech)
    requires Commits(Flatten(Said(open.revision, speech)), citations, true)
    ensures open.durable.Some? && open.durable.value.message in open.store
    ensures var said, m := Flatten(Said(open.revision, speech)), open.durable.value.message;
            var spoken := Run(open, speech);
            && Possible(spoken, ReplyArrives(t, said, citations, true))
            && var filed := Step(spoken, ReplyArrives(t, said, citations, true));
            && Possible(filed, SaveArrives(t, saved))
            && var d := Step(filed, SaveArrives(t, saved));
            && d.history == open.history + [Entry(AssistantRole, said, EntryCommitted, Some(m))]
            && d.store.Keys == open.store.Keys && d.store[m] == Stored(open.store[m].turn, Committed, Trim(said))
            && (forall n :: n in open.store && n != m ==> d.store[n] == open.store[n])
            && d.state == (if saved then Listening else Paused) && d.pending == open.pending && d.partial == []
            && d.responseId.None? && d.durable.None? && d.tasks.Keys <= open.tasks.Keys - {t}
  {
    hide *;
    TextIsWhatWasSaid(open, speech);
    var said, spoken := Flatten(Said(open.revision, speech)), Run(open, speech);
    assert [] + said == said;
    assert open.durable.Some? && open.durable.value.message in open.store by { InterruptStops(open); }
    SameAnswer(open, spoken);
    ReplyCloses(spoken, t, said, citations, saved);
  }

  /** A whole turn that nothing disturbs: the words that were submitted and what was said in answer
      are the two newest lines, the answer is stored, and nothing is left open. */
  lemma WholeTurn(c: Conv, words: Text, forced: bool, t: TaskId, answer: Durable, open: Conv, speech: seq<Event>,
                  citations: Option<Text>, saved: bool)
    requires Inv(c) && c.responseId.None? && c.runtime && Taken(c, words)
    requires t !in c.tasks && answer.message !in c.store
    requires Possible(Step(c, Submit(words, forced, t)), PlanArrives(t, Respond, false, UserCommitted, true, answer))
    requires var plan := PlanArrives(t, Respond, false, UserCommitted, true, answer);
             open == Step(Step(c, Submit(words, forced, t)), plan)
    requires ValidRun(open, speech) && Speaking(open, speech)
    requires Commits(Flatten(Said(open.revision, speech)), citations, true)
    ensures var said, spoken := Flatten(Said(open.revision, speech)), Run(open, speech);
            && Possible(spoken, ReplyArrives(t, said, citations, true))
            && var filed := Step(spoken, ReplyArrives(t, said, citations, true));
            && Possible(filed, SaveArrives(t, saved))
            && var d := Step(filed, SaveArrives(t, saved));
            && d.history == c.history + [Entry(UserRole, AllWords(c.pending, words), EntryCommitted, None),
                                         Entry(AssistantRole, said, EntryCommitted, Some(answer.message))]
            && d.store == c.store[answer.message := Stored(answer.turn, Committed, Trim(said))]
            && d.state == (if saved then Listening else Paused) && d.pending == [] && d.partial == []
            && d.responseId.None? && d.durable.None? && d.tasks.Keys <= c.tasks.Keys
  {
    hide *;
    TurnOpens(c, words, forced, t, answer);
    TurnEnds(open, t, speech, citations, saved);
  }

  // ----- Words that wait -----

  /** Pieces on lines of their own. */
  function Lines(pieces: seq<Text>): Text {
    if pieces == [] then []
    else if |pieces| == 1 then pieces[0]
    else Lines(pieces[..|pieces| - 1]) + [10] + pieces[|pieces| - 1]
  }

  /** Every piece is submitted and its plan decides to wait for more. */
  function Waits(first: TaskId, pieces: seq<Text>, answer: Durable): seq<Event> {
    if pieces == [] then []
    else
      var n := |pieces| - 1;
      Waits(first, pieces[..n], answer)
      + [Submit(pieces[n], false, first + n), PlanArrives(first + n, Wait, false, UserThrows, false, answer)]
  }

  /** An idle conversation that accepts input, with `pending` waiting and no ids from `first` on. */
  ghost predicate Ready(c: Conv, first: TaskId, answer: Durable) {
    && Inv(c) && c.AcceptsInput() && c.responseId.None? && answer.message !in c.store
    && forall t :: t in c.tasks ==> t < first
  }

  lemma PlanningIsClosed(c: Conv, t: TaskId, decision: Decision, retry: bool, ack: UserAck, started: bool,
                         answer: Durable)
    requires Inv(c) && c.Current(t) && c.tasks[t].phase.Planning? && decision.Wait? && !c.tasks[t].phase.forced
    ensures var d := Planned(c, t, decision, retry, ack, started, answer);
            d.responseId.None? && d.tasks == c.tasks - {t}
  {
    assert PhaseOk(c, c.tasks[t].phase);
  }

  lemma WaitOnce(c: Conv, first: TaskId, clean: Text, answer: Durable)
    requires Ready(c, first, answer) && Taken(c, clean)
    ensures var e, f := Submit(clean, false, first), PlanArrives(first, Wait, false, UserThrows, false, answer);
            && Possible(c, e) && Possible(Step(c, e), f)
            && var d := Step(Step(c, e), f);
            && Ready(d, first + 1, answer) && d.state.Listening? && d.pending == AllWords(c.pending, clean)
            && d.history == c.history && d.store == c.store && d.tasks == c.tasks
  {
    var e, f := Submit(clean, false, first), PlanArrives(first, Wait, false, UserThrows, false, answer);
    SubmissionIsTakenIff(c, clean, false, first);
    StepKeepsInv(c, e);
    hide Inv, Submitted, Planned, Taken, AllWords;
    var asked := Step(c, e);
    assert asked.Current(first) && asked.tasks[first].phase == Planning(AllWords(c.pending, clean), false);
    assert Possible(asked, f) && Step(asked, f) == Planned(asked, first, Wait, false, UserThrows, false, answer);
    StepKeepsInv(asked, f);
    hide Step, Possible;
    PlanOutcome(asked, first, Wait, false, UserThrows, false, answer);
    PlanningIsClosed(asked, first, Wait, false, UserThrows, false, answer);
  }

  lemma LinesGrow(pieces: seq<Text>)
    requires pieces != []
    ensures |Lines(pieces[..|pieces| - 1])| <= |Lines(pieces)|
  {
  }

  lemma LinesAreNotEmpty(pieces: seq<Text>)
    requires pieces != [] && forall k :: 0 <= k < |pieces| ==> 0 < |pieces[k]|
    ensures Lines(pieces) != []
  {
  }

  lemma LastIsTaken(d: Conv, first: TaskId, pieces: seq<Text>, answer: Durable)
    requires pieces != [] && Ready(d, first, answer) && d.pending == Lines(pieces[..|pieces| - 1])
    requires forall k :: 0 <= k < |pieces| ==> 0 < |pieces[k]| <= 6_000
    requires |Lines(pieces)| <= 12_000
    ensures Taken(d, pieces[|pieces| - 1]) && AllWords(d.pending, pieces[|pieces| - 1]) == Lines(pieces)
  {
    var last := pieces[|pieces| - 1];
    assert [] + last == last;
    if |pieces| > 1 { LinesAreNotEmpty(pieces[..|pieces| - 1]); }
  }

  /** Words whose plans keep waiting are collected line by line; nothing is filed or stored. */
  lemma {:induction false} WaitingWordsAreJoined(c: Conv, first: TaskId, pieces: seq<Text>, answer: Durable)
    requires Ready(c, first, answer) && c.pending == []
    requires forall k :: 0 <= k < |pieces| ==> 0 < |pieces[k]| <= 6_000
    requires |Lines(pieces)| <= 12_000
    ensures ValidRun(c, Waits(first, pieces, answer))
    ensures var d := Run(c, Waits(first, pieces, answer));
            && Ready(d, first + |pieces|, answer) && d.pending == Lines(pieces) && d.tasks == c.tasks
            && d.history == c.history && d.store == c.store && (pieces != [] ==> d.state.Listening?)
  {
    hide Inv, Step, Possible, Taken, AllWords, Ready;
    if pieces != [] {
      var n := |pieces| - 1;
      var before, last := pieces[..n], pieces[n];
      var e, f := Submit(last, false, first + n), PlanArrives(first + n, Wait, false, UserThrows, false, answer);
      LinesGrow(pieces);
      WaitingWordsAreJoined(c, first, before, answer);
      var d := Run(c, Waits(first, before, answer));
      assert Taken(d, last) && AllWords(d.pending, last) == Lines(pieces) by {
        LastIsTaken(d, first + n, pieces, answer);
      }
      WaitOnce(d, first + n, last, answer);
      RunTwo(d, e, f);
      hide Run, ValidRun, Lines;
      Concatenate(c, Waits(first, before, answer), [e, f]);
    }
  }

  // ----- Controls -----

  /** Whatever cancels leaves nothing open and moves the revision on. */
  predicate NothingOpen(c: Conv, d: Conv) {
    d.responseId.None? && d.durable.None? && !d.committing && !d.work && d.revision == c.revision + 1
    && d.tasks == c.tasks
  }

  /** Where each control leaves the conversation. */
  lemma ControlOutcome(c: Conv, e: Event)
    requires Inv(c)
    requires e.Interrupt? || e.Pause? || e.RequestExit? || e.Close? || e.RecoverFailedTurn? || e.RevokeMemory?
    ensures var d := Step(c, e);
            && (if Cancels(c, e) || e.RevokeMemory? then NothingOpen(c, d) else d == c)
            && d.pending == (if e.RecoverFailedTurn? || e.RevokeMemory? then [] else c.pending)
            && (e.Interrupt? && c.AcceptsInput() ==> d.state.Listening?)
            && (e.Pause? && c.AcceptsInput() ==> d.state.Paused?)
            && (e.RequestExit? ==> if c.state.Closed? then d.state.Closed? else d.state.ExitPending?)
            && (e.Close? ==> d.state.Closed?)
            && (e.RecoverFailedTurn? ==>
                  d.state == if c.state.Closed? || c.state.ExitPending? then c.state else Listening)
  {
    if c.responseId.None? { assert c.durable.None? && !c.committing; }
    hide Inv, InterruptedHistory, InterruptedStore, Stranded;
  }

  /** Revoking memory files nothing, empties the history and leaves the answer's row as it was stored, interrupted. */
  lemma RevocationOutcome(c: Conv)
    requires Inv(c)
    ensures var d := Step(c, RevokeMemory);
            && d.state == (if c.state.Thinking? || c.state.Answering? then Listening else c.state)
            && d.history == [] && d.store.Keys == c.store.Keys
            && forall m :: m in c.store ==>
                 d.store[m] == if c.Stoppable() && c.durable.value.message == m
                               then c.store[m].(status := ConversationTurns.Interrupted) else c.store[m]
  {
    if c.responseId.None? { assert c.durable.None? && !c.committing; }
    hide Inv, InterruptedHistory, Stranded;
  }

  /** Resuming, confirming and restoring. */
  lemma AnswersToControls(c: Conv, entries: seq<Entry>, confirm: bool)
    ensures Step(c, Resume) == if c.state.Paused? then c.(state := Listening) else c
    ensures Step(c, ConfirmExit(confirm))
         == if !c.state.ExitPending? then c else if confirm then c.(state := Closed) else c.(state := Paused)
    ensures Restored(c, entries)
         == if c.work || c.responseId.Some? || c.state.Closed? || |entries| > 500 then c
            else c.(history := entries, pending := [], state := Listening)
  {
  }
}
