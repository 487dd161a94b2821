/** One logical conversation: submitted turns, late model callbacks and cancellation race over
    shared fields, guarded by a revision counter. Every await is a step boundary; what waits
    behind it is a task that may resume at any time, in any order. */
module ConversationTurns {
  import opened AnswerLimits
  import opened Texts
  import opened Wrappers

  type TaskId = nat
  type TurnId = nat
  type MessageId = nat

  const MAX_INPUT: nat := 6000
  const MAX_PENDING: nat := 12_000
  const MAX_RESTORED: nat := 500
  const NEWLINE: Text := [10]

  function InterruptedNote(): Text {
    Codes("\n[回答被用户打断，未完成]")
  }

  datatype State = Listening | Thinking | Answering | Paused | ExitPending | Closed

  datatype Role = UserRole | AssistantRole

  datatype EntryStatus = EntryCommitted | EntryInterrupted

  /** A line of the in-memory history; `answer` names the durable message behind an answer. */
  datatype Entry = Entry(role: Role, content: Text, status: EntryStatus, answer: Option<MessageId>)

  datatype StoredStatus = Streaming | Committed | Interrupted

  /** An assistant message in the durable store. */
  datatype Stored = Stored(turn: TurnId, status: StoredStatus, content: Text)

  datatype Durable = Durable(turn: TurnId, message: MessageId)

  datatype Phase = Planning(text: Text, forced: bool) | Replying | Saving

  /** A suspended `submit`, with the revision it captured. */
  datatype Task = Task(revision: nat, phase: Phase)

  /** `orphans` records for the proofs which rows a cancel had to leave streaming; the program
      keeps no trace of them. */
  datatype Conv = Conv(state: State, revision: nat, pending: Text, partial: Text, responseId: Option<nat>,
                       durable: Option<Durable>, committing: bool, work: bool, history: seq<Entry>,
                       store: map<MessageId, Stored>, tasks: map<TaskId, Task>, runtime: bool,
                       orphans: set<MessageId>) {
    predicate AcceptsInput() {
      !state.Paused? && !state.ExitPending? && !state.Closed?
    }

    ghost predicate Current(t: TaskId) {
      t in tasks && tasks[t].revision == revision
    }

    predicate Streams(m: MessageId) {
      m in store && store[m].status.Streaming?
    }

    /** Streaming, and not left behind by a cancel. */
    predicate Loose(m: MessageId) {
      Streams(m) && m !in orphans
    }

    /** There is a durable answer for a cancel to stop. */
    predicate Stoppable() {
      durable.Some? && !committing && Streams(durable.value.message)
    }
  }

  // ----- The synchronous pieces -----

  /** Checkpoint the partial text and interrupt the message, in one attempt: a checkpoint that
      the store refuses, because the message no longer streams or the text is too long, skips
      the interruption. The refusal is reported and ignored. */
  function InterruptedStore(c: Conv): map<MessageId, Stored> {
    if c.Stoppable() && |c.partial| <= MAX_ANSWER_UNITS then
      var m := c.durable.value.message;
      c.store[m := Stored(c.store[m].turn, Interrupted, if c.partial != [] then c.partial else c.store[m].content)]
    else c.store
  }

  /** The row that a cancel leaves streaming. */
  function Stranded(c: Conv): set<MessageId> {
    if c.Stoppable() && |c.partial| > MAX_ANSWER_UNITS then {c.durable.value.message} else {}
  }

  function InterruptedHistory(c: Conv): seq<Entry> {
    if c.partial != [] && !c.committing then
      c.history + [Entry(AssistantRole, c.partial + InterruptedNote(), EntryInterrupted,
                         if c.durable.Some? then Some(c.durable.value.message) else None)]
    else c.history
  }

  function Abandoned(c: Conv): Conv {
    c.(store := InterruptedStore(c), history := InterruptedHistory(c), orphans := c.orphans + Stranded(c),
       responseId := None, partial := [], durable := None, committing := false)
  }

  function Cancelled(c: Conv): (d: Conv)
    ensures d.revision == c.revision + 1 && !d.work && d.responseId.None?
    ensures d.state == c.state && d.pending == c.pending && d.tasks == c.tasks && d.runtime == c.runtime
    ensures c.responseId.None? ==> d == c.(revision := c.revision + 1, work := false)
    ensures c.responseId.Some? ==> d.durable.None? && !d.committing && d.partial == []
  {
    var d := c.(revision := c.revision + 1, work := false);
    if c.responseId.None? then d else Abandoned(d)
  }

  function Pausing(c: Conv): Conv {
    if c.AcceptsInput() then Cancelled(c).(state := Paused) else c
  }

  function FailedTurn(c: Conv): Conv {
    Cancelled(c).(state := Paused)
  }

  function ExitRequested(c: Conv): Conv {
    if c.state.Closed? || c.state.ExitPending? then c else Cancelled(c).(state := ExitPending)
  }

  function Cleared(c: Conv, state: State): Conv {
    c.(responseId := None, partial := [], durable := None, state := state)
  }

  function Without(c: Conv, t: TaskId): Conv {
    c.(tasks := c.tasks - {t})
  }

  function Joined(pending: Text, clean: Text): Text {
    if clean == [] then pending else if pending == [] then clean else pending + NEWLINE + clean
  }

  function Submitted(c: Conv, clean: Text, forced: bool, t: TaskId): (d: Conv)
    ensures c.revision <= d.revision <= c.revision + 1 && d.runtime == c.runtime
  {
    if !c.AcceptsInput() then c
    else if |clean| > MAX_INPUT || |c.pending| + |clean| > MAX_PENDING then Pausing(c)
    else
      var text := Joined(c.pending, clean);
      if text == [] then c else
        var d := Cancelled(c.(pending := text));
        d.(state := Thinking, work := true, tasks := d.tasks[t := Task(d.revision, Planning(text, forced))])
  }

  datatype Decision = Respond | Wait | Exit | ClarifyExit

  /** What the store answers: a new row, the row of an earlier submission, or an exception. */
  datatype UserAck = UserCommitted | UserDuplicate | UserThrows

  /** Open the reply and its durable answer. */
  function Opened(e: Conv, t: TaskId, started: bool, answer: Durable): (d: Conv)
    requires t in e.tasks
    ensures e.revision <= d.revision <= e.revision + 1 && d.runtime == e.runtime
  {
    var f := e.(responseId := Some(e.revision), partial := []);
    if f.runtime && !started then Without(FailedTurn(f), t)
    else
      var g := f.(state := Answering, tasks := f.tasks[t := f.tasks[t].(phase := Replying)]);
      if f.runtime then
        g.(durable := Some(answer), store := g.store[answer.message := Stored(answer.turn, Streaming, [])])
      else g
  }

  /** What a turn commits: the submitted text, or the fixed words for a request to answer again. */
  function UserText(text: Text, retry: bool): Text {
    if retry then Codes("重新回答") else text
  }

  /** The plan arrived: commit the user turn, then open the durable answer. */
  function Planned(c: Conv, t: TaskId, decision: Decision, retry: bool, ack: UserAck, started: bool,
                   answer: Durable): (d: Conv)
    requires t in c.tasks && c.tasks[t].phase.Planning?
    ensures c.revision <= d.revision <= c.revision + 1 && d.runtime == c.runtime
  {
    var task := c.tasks[t];
    if task.revision != c.revision then Without(c, t)
    else if decision.Wait? && !task.phase.forced then Without(c, t).(state := Listening)
    else
      var d := c.(pending := []);
      if d.runtime && ack.UserThrows? then Without(FailedTurn(d), t)
      else if d.runtime && ack.UserDuplicate? then Without(d, t).(state := Listening)
      else
        var text := UserText(task.phase.text, retry);
        var e := d.(history := d.history + [Entry(UserRole, text, EntryCommitted, None)]);
        if decision.Exit? then Without(ExitRequested(e), t) else Opened(e, t, started, answer)
  }

  /** A piece of the reply, possibly with a durable checkpoint; a refused checkpoint is thrown to
      whoever produced the piece. */
  function Appended(c: Conv, revision: nat, value: Text, checkpoint: bool): Conv {
    if revision != c.revision then c
    else
      var d := c.(partial := c.partial + value);
      if checkpoint && d.durable.Some? && d.Streams(d.durable.value.message) && |d.partial| <= MAX_ANSWER_UNITS then
        var m := d.durable.value.message;
        d.(store := d.store[m := d.store[m].(content := d.partial)])
      else d
  }

  function Rewritten(c: Conv, revision: nat, text: Text): Conv {
    if revision != c.revision then c else c.(partial := text)
  }

  /** The store takes a reply that it can commit, unless the database itself fails. */
  predicate Commits(final: Text, citations: Option<Text>, stored: bool) {
    stored && Committable(final, citations)
  }

  /** The reply is complete: history first, then the durable commit, then the asynchronous save. */
  function Replied(c: Conv, t: TaskId, final: Text, citations: Option<Text>, stored: bool): (d: Conv)
    requires t in c.tasks
    ensures c.revision <= d.revision <= c.revision + 1 && d.runtime == c.runtime
  {
    if c.tasks[t].revision != c.revision then Without(c, t)
    else
      var answer := if c.durable.Some? then Some(c.durable.value.message) else None;
      var d := c.(partial := final, history := c.history + [Entry(AssistantRole, final, EntryCommitted, answer)],
                  committing := true);
      if answer.None? then d.(tasks := d.tasks[t := c.tasks[t].(phase := Saving)])
      else if Commits(final, citations, stored) && d.Streams(answer.value) then
        d.(store := d.store[answer.value := Stored(d.store[answer.value].turn, Committed, Trim(final))],
           tasks := d.tasks[t := c.tasks[t].(phase := Saving)])
      else Without(FailedTurn(d.(committing := false)), t)
  }

  function ModelFailed(c: Conv, t: TaskId): Conv
    requires t in c.tasks
  {
    if c.tasks[t].revision != c.revision then Without(c, t) else Without(FailedTurn(c), t)
  }

  /** The flag is cleared before the revision is looked at. */
  function SaveFinished(c: Conv, t: TaskId, saved: bool): Conv
    requires t in c.tasks
  {
    var d := Without(c, t).(committing := false);
    if c.tasks[t].revision != c.revision then d else Cleared(d, if saved then Listening else Paused)
  }

  function Restored(c: Conv, history: seq<Entry>): Conv {
    if c.work || c.responseId.Some? || c.state.Closed? || |history| > MAX_RESTORED then c
    else c.(history := history, pending := [], state := Listening)
  }

  /** The last resort after a rejected submit. */
  function Recovered(c: Conv): Conv {
    var d := Cancelled(c).(pending := [], partial := [], responseId := None, durable := None, committing := false);
    if c.state.Closed? || c.state.ExitPending? then d else d.(state := Listening)
  }

  /** Memory was revoked: the partial text is dropped, the model-side history emptied. */
  function Revoked(c: Conv): Conv {
    var d := Cancelled(c.(partial := [], pending := [])).(history := []);
    if c.state.Thinking? || c.state.Answering? then d.(state := Listening) else d
  }

  // ----- Runs -----

  datatype Event =
    | Submit(clean: Text, forced: bool, task: TaskId)
    | PlanArrives(task: TaskId, decision: Decision, retry: bool, ack: UserAck, started: bool, answer: Durable)
    | Delta(revision: nat, value: Text, checkpoint: bool)
    | FinalText(revision: nat, text: Text)
    | ReplyArrives(task: TaskId, final: Text, citations: Option<Text>, stored: bool)
    | CallFails(task: TaskId)
    | SaveArrives(task: TaskId, saved: bool)
    | Interrupt
    | Pause
    | Resume
    | RequestExit
    | ConfirmExit(confirm: bool)
    | Close
    | RestoreHistory(entries: seq<Entry>)
    | RecoverFailedTurn
    | RevokeMemory

  predicate EntryFaithful(e: Entry, store: map<MessageId, Stored>) {
    e.answer.Some? ==>
      e.answer.value in store
      && store[e.answer.value].status
         == match e.status case EntryCommitted => Committed case EntryInterrupted => Interrupted
  }

  /** The history tells of every durable answer what the store says. */
  ghost predicate Faithful(c: Conv) {
    forall i :: 0 <= i < |c.history| ==> EntryFaithful(c.history[i], c.store)
  }

  /** Continuations belong to suspended tasks, callbacks to a reply that has started, and ids
      of messages and tasks are fresh; everything else may happen at any time. */
  ghost predicate Possible(c: Conv, e: Event) {
    match e
    case Submit(_, _, t) => t !in c.tasks
    case PlanArrives(t, _, _, _, _, answer) => t in c.tasks && c.tasks[t].phase.Planning? && answer.message !in c.store
    case Delta(r, _, _) => forall t :: t in c.tasks && c.tasks[t].revision == r ==> !c.tasks[t].phase.Planning?
    case FinalText(r, _) => forall t :: t in c.tasks && c.tasks[t].revision == r ==> !c.tasks[t].phase.Planning?
    case ReplyArrives(t, _, _, _) => t in c.tasks && c.tasks[t].phase.Replying?
    case CallFails(t) => t in c.tasks && !c.tasks[t].phase.Saving?
    case SaveArrives(t, _) => t in c.tasks && c.tasks[t].phase.Saving?
    case RestoreHistory(entries) => forall i :: 0 <= i < |entries| ==> EntryFaithful(entries[i], c.store)
    case _ => true
  }

  ghost function Step(c: Conv, e: Event): Conv
    requires Possible(c, e)
  {
    match e
    case Submit(clean, forced, t) => Submitted(c, clean, forced, t)
    case PlanArrives(t, decision, retry, ack, started, answer) => Planned(c, t, decision, retry, ack, started, answer)
    case Delta(r, value, checkpoint) => Appended(c, r, value, checkpoint)
    case FinalText(r, text) => Rewritten(c, r, text)
    case ReplyArrives(t, final, citations, stored) => Replied(c, t, final, citations, stored)
    case CallFails(t) => ModelFailed(c, t)
    case SaveArrives(t, saved) => SaveFinished(c, t, saved)
    case Interrupt => if c.AcceptsInput() then Cancelled(c).(state := Listening) else c
    case Pause => Pausing(c)
    case Resume => if c.state.Paused? then c.(state := Listening) else c
    case RequestExit => ExitRequested(c)
    case ConfirmExit(confirm) =>
      if c.state.ExitPending? then c.(state := if confirm then Closed else Paused) else c
    case Close => Cancelled(c).(state := Closed)
    case RestoreHistory(entries) => Restored(c, entries)
    case RecoverFailedTurn => Recovered(c)
    case RevokeMemory => Revoked(c)
  }

  ghost predicate ValidRun(c: Conv, events: seq<Event>)
    decreases |events|
  {
    events == [] || (Possible(c, events[0]) && ValidRun(Step(c, events[0]), events[1..]))
  }

  ghost function Run(c: Conv, events: seq<Event>): Conv
    requires ValidRun(c, events)
    decreases |events|
  {
    if events == [] then c else Run(Step(c, events[0]), events[1..])
  }

  const FRESH := Conv(Listening, 0, [], [], None, None, false, false, [], map[], map[], true, {})

  // ----- The invariant -----

  /** Tasks carry distinct revisions, none from the future. */
  ghost predicate TasksOk(c: Conv) {
    && (forall t :: t in c.tasks ==> c.tasks[t].revision <= c.revision)
    && (forall t, u :: t in c.tasks && u in c.tasks && c.tasks[t].revision == c.tasks[u].revision ==> t == u)
  }

  /** What the shared fields look like while `t` is the current task. */
  predicate PhaseOk(c: Conv, phase: Phase) {
    c.work &&
    match phase
    case Planning(_, _) => c.state.Thinking? && c.responseId.None?
    case Replying =>
      c.state.Answering? && c.responseId == Some(c.revision) && !c.committing && (c.durable.Some? <==> c.runtime)
      && (c.durable.Some? ==> c.Streams(c.durable.value.message))
    case Saving =>
      c.state.Answering? && c.responseId == Some(c.revision) && (c.durable.Some? <==> c.runtime)
      && (c.durable.Some? ==> c.durable.value.message in c.store && c.store[c.durable.value.message].status.Committed?)
  }

  ghost predicate CurrentOk(c: Conv) {
    && (forall t :: c.Current(t) ==> PhaseOk(c, c.tasks[t].phase))
    && (c.responseId.Some? || c.state.Thinking? || c.state.Answering? ==> exists t :: c.Current(t))
    && (c.responseId.None? ==> c.durable.None? && !c.committing)
  }

  ghost predicate ReplyingNow(c: Conv) {
    exists t :: c.Current(t) && c.tasks[t].phase.Replying?
  }

  /** A message that was not left behind streams only while its own reply is current and the
      fields name it. */
  ghost predicate OneStream(c: Conv) {
    forall m :: c.Loose(m) ==> c.durable.Some? && c.durable.value.message == m && ReplyingNow(c)
  }

  /** What was left behind streams for ever, and no field names it. */
  ghost predicate OrphansOk(c: Conv) {
    forall m :: m in c.orphans ==> c.Streams(m) && (c.durable.Some? ==> c.durable.value.message != m)
  }

  ghost predicate Inv(c: Conv) {
    TasksOk(c) && CurrentOk(c) && OneStream(c) && OrphansOk(c)
  }

  lemma FreshIsSound()
    ensures Inv(FRESH) && Faithful(FRESH)
  {
  }

  // ----- Every step keeps the invariant -----

  /** Nothing in flight: no current task, no open reply, nothing streaming. */
  ghost predicate Idle(c: Conv) {
    && TasksOk(c) && (forall t :: t in c.tasks ==> c.tasks[t].revision < c.revision)
    && c.responseId.None? && c.durable.None? && !c.committing
    && (forall m :: !c.Loose(m)) && OrphansOk(c)
  }

  lemma CancelledIsIdle(c: Conv)
    requires Inv(c)
    ensures Idle(Cancelled(c))
  {
    var d := Cancelled(c);
    forall m | d.Loose(m) ensures false {
      assert c.Loose(m);
    }
  }

  lemma IdleKeepsInv(c: Conv)
    requires Idle(c) && !c.state.Thinking? && !c.state.Answering?
    ensures Inv(c)
  {
  }

  /** Dropping a task, and changing the state, of an idle conversation. */
  lemma IdleWithout(c: Conv, t: TaskId, state: State)
    requires Idle(c) && !state.Thinking? && !state.Answering?
    ensures Inv(Without(c, t).(state := state)) && Idle(Without(c, t).(state := state))
  {
    var d := Without(c, t).(state := state);
    forall m ensures !d.Loose(m) { assert !c.Loose(m); }
  }

  lemma FailedTurnKeepsInv(c: Conv, t: TaskId)
    requires Inv(c)
    ensures Inv(Without(FailedTurn(c), t)) && Inv(FailedTurn(c))
  {
    CancelledIsIdle(c);
    hide Cancelled;
    IdleWithout(Cancelled(c), t, Paused);
    var d := FailedTurn(c);
    forall m ensures !d.Loose(m) { assert !Cancelled(c).Loose(m); }
  }

  /** A task of an older revision only leaves the task list. */
  lemma DroppingStaleKeepsInv(c: Conv, t: TaskId)
    requires Inv(c) && t in c.tasks && !c.Current(t)
    ensures Inv(Without(c, t))
  {
    var d := Without(c, t);
    forall u ensures d.Current(u) == c.Current(u) {}
    forall m | d.Loose(m) ensures c.Loose(m) {}
    if c.responseId.Some? || c.state.Thinking? || c.state.Answering? {
      var u :| c.Current(u);
      assert d.Current(u);
    }
  }

  lemma StateKeepsInv(c: Conv, state: State)
    requires Inv(c) && (forall t :: !c.Current(t)) && !state.Thinking? && !state.Answering?
    ensures Inv(c.(state := state))
  {
    var d := c.(state := state);
    forall t ensures !d.Current(t) { assert !c.Current(t); }
    forall m ensures !d.Loose(m) { assert !c.Loose(m); }
  }

  /** An idle conversation takes one new planning task at its own revision. */
  lemma NewTaskKeepsInv(d: Conv, t: TaskId, text: Text, forced: bool)
    requires Idle(d) && t !in d.tasks
    ensures Inv(d.(state := Thinking, work := true, tasks := d.tasks[t := Task(d.revision, Planning(text, forced))]))
  {
    var e := d.(state := Thinking, work := true, tasks := d.tasks[t := Task(d.revision, Planning(text, forced))]);
    forall m ensures !e.Loose(m) { assert !d.Loose(m); }
    assert e.Current(t);
  }

  /** Cancel, then any quiet state, with the free fields set to anything. */
  lemma CancelThenKeepsInv(c: Conv, state: State, pending: Text, history: seq<Entry>)
    requires Inv(c) && !state.Thinking? && !state.Answering?
    ensures Inv(Cancelled(c).(state := state, pending := pending, partial := [], history := history))
    ensures Inv(Cancelled(c).(state := state, pending := pending, history := history))
  {
    CancelledIsIdle(c);
    var a := Cancelled(c).(state := state, pending := pending, history := history);
    var b := a.(partial := []);
    hide Cancelled;
    forall m ensures !a.Loose(m) && !b.Loose(m) { assert !Cancelled(c).Loose(m); }
    assert Idle(a) && Idle(b);
  }

  lemma SubmittedKeepsInv(c: Conv, clean: Text, forced: bool, t: TaskId)
    requires Inv(c) && t !in c.tasks
    ensures Inv(Submitted(c, clean, forced, t))
  {
    var text := Joined(c.pending, clean);
    var d := Cancelled(c.(pending := text));
    assert Idle(d) && t !in d.tasks by {
      CancelledIsIdle(c);
      forall m ensures !d.Loose(m) { assert !Cancelled(c).Loose(m); }
    }
    CancelThenKeepsInv(c, Paused, Cancelled(c).pending, Cancelled(c).history);
    hide Inv, Cancelled, Joined, Idle;
    NewTaskKeepsInv(d, t, text, forced);
  }

  lemma ListeningKeepsInv(c: Conv, t: TaskId, pending: Text)
    requires Inv(c) && c.Current(t) && c.tasks[t].phase.Planning?
    ensures Inv(Without(c.(pending := pending), t).(state := Listening))
  {
    var d := Without(c.(pending := pending), t).(state := Listening);
    assert PhaseOk(c, c.tasks[t].phase);
    forall u ensures !d.Current(u) {}
    forall m | d.Loose(m) ensures false { assert c.Loose(m); }
  }

  /** While a task is planning, the fields a plan touches do not matter to the invariant. */
  lemma PlanningFieldsAreFree(c: Conv, t: TaskId, pending: Text, history: seq<Entry>)
    requires Inv(c) && c.Current(t) && c.tasks[t].phase.Planning?
    ensures Inv(c.(pending := pending, history := history))
  {
    var d := c.(pending := pending, history := history);
    assert d.Current(t);
    forall u | d.Current(u) ensures u == t {}
    forall m | d.Loose(m) ensures false { assert c.Loose(m); }
  }

  /** Cancelling right after the reply was opened, before its durable row exists. */
  lemma UnopenedReplyIsIdle(c: Conv, t: TaskId)
    requires Inv(c) && c.Current(t) && c.tasks[t].phase.Planning?
    ensures Inv(Without(FailedTurn(c.(responseId := Some(c.revision), partial := [])), t))
  {
    var d := FailedTurn(c.(responseId := Some(c.revision), partial := []));
    assert PhaseOk(c, c.tasks[t].phase);
    assert c.durable.None? && c.responseId.None?;
    forall m ensures !d.Loose(m) { assert !c.Loose(m); }
    IdleWithout(d, t, Paused);
  }

  lemma OpenedKeepsInv(c: Conv, t: TaskId, answer: Durable)
    requires Inv(c) && c.Current(t) && c.tasks[t].phase.Planning? && answer.message !in c.store
    ensures var f := c.(responseId := Some(c.revision), partial := [], state := Answering,
                        tasks := c.tasks[t := c.tasks[t].(phase := Replying)]);
            Inv(if c.runtime then f.(durable := Some(answer),
                                     store := f.store[answer.message := Stored(answer.turn, Streaming, [])]) else f)
  {
    assert PhaseOk(c, c.tasks[t].phase);
    var f := c.(responseId := Some(c.revision), partial := [], state := Answering,
                tasks := c.tasks[t := c.tasks[t].(phase := Replying)]);
    var g := if c.runtime then f.(durable := Some(answer),
                                  store := f.store[answer.message := Stored(answer.turn, Streaming, [])]) else f;
    assert g.Current(t) && g.tasks[t].phase.Replying?;
    forall u | g.Current(u) ensures u == t {}
    forall m | g.Loose(m) ensures g.durable == Some(answer) && m == answer.message {
      if m != answer.message { assert c.Loose(m); }
    }
  }

  lemma ExitAfterPlan(c: Conv, t: TaskId)
    requires Inv(c) && c.Current(t) && c.tasks[t].phase.Planning?
    ensures Inv(Without(ExitRequested(c), t))
  {
    assert PhaseOk(c, c.tasks[t].phase);
    CancelledIsIdle(c);
    hide Cancelled;
    IdleWithout(Cancelled(c), t, ExitPending);
    assert Without(ExitRequested(c), t) == Without(Cancelled(c), t).(state := ExitPending);
  }

  lemma PlannedKeepsInv(c: Conv, t: TaskId, decision: Decision, retry: bool, ack: UserAck, started: bool,
                        answer: Durable)
    requires Inv(c) && t in c.tasks && c.tasks[t].phase.Planning? && answer.message !in c.store
    ensures Inv(Planned(c, t, decision, retry, ack, started, answer))
  {
    if c.tasks[t].revision != c.revision {
      DroppingStaleKeepsInv(c, t);
    } else {
      var d := c.(pending := []);
      var line := Entry(UserRole, UserText(c.tasks[t].phase.text, retry), EntryCommitted, None);
      var e := d.(history := d.history + [line]);
      ListeningKeepsInv(c, t, c.pending);
      ListeningKeepsInv(c, t, []);
      PlanningFieldsAreFree(c, t, [], d.history);
      PlanningFieldsAreFree(c, t, [], e.history);
      hide Inv, Cancelled;
      FailedTurnKeepsInv(d, t);
      if decision.Exit? {
        ExitAfterPlan(e, t);
      } else {
        UnopenedReplyIsIdle(e, t);
        OpenedKeepsInv(e, t, answer);
      }
    }
  }

  lemma AppendedKeepsInv(c: Conv, revision: nat, value: Text, checkpoint: bool)
    requires Inv(c)
    ensures Inv(Appended(c, revision, value, checkpoint))
  {
    var d := Appended(c, revision, value, checkpoint);
    forall t ensures d.Current(t) == c.Current(t) {}
    forall m ensures d.Loose(m) == c.Loose(m) {}
    assert forall t :: c.Current(t) ==> PhaseOk(c, c.tasks[t].phase);
    forall t | d.Current(t) ensures PhaseOk(d, d.tasks[t].phase) { assert c.Current(t); }
    if m :| d.Loose(m) { assert c.Loose(m); var t :| c.Current(t) && c.tasks[t].phase.Replying?; assert d.Current(t); }
    if c.responseId.Some? || c.state.Thinking? || c.state.Answering? { var t :| c.Current(t); assert d.Current(t); }
  }

  lemma CommittedKeepsInv(c: Conv, t: TaskId, final: Text, citations: Option<Text>, stored: bool)
    requires Inv(c) && c.Current(t) && c.tasks[t].phase.Replying? && (Commits(final, citations, stored) || !c.runtime)
    ensures Inv(Replied(c, t, final, citations, stored))
  {
    hide Commits;
    assert PhaseOk(c, c.tasks[t].phase);
    var d := Replied(c, t, final, citations, stored);
    assert d.Current(t) && d.tasks[t].phase.Saving?;
    forall u | d.Current(u) ensures u == t {}
    forall m ensures !d.Loose(m) { if c.Loose(m) { assert c.durable.Some? && c.durable.value.message == m; } }
  }

  lemma RefusedCommitKeepsInv(c: Conv, t: TaskId, final: Text, citations: Option<Text>, stored: bool)
    requires Inv(c) && c.Current(t) && c.tasks[t].phase.Replying? && c.runtime && !Commits(final, citations, stored)
    ensures Inv(Replied(c, t, final, citations, stored))
  {
    hide Commits;
    assert PhaseOk(c, c.tasks[t].phase);
    var answer := Some(c.durable.value.message);
    var d := c.(partial := final, history := c.history + [Entry(AssistantRole, final, EntryCommitted, answer)]);
    assert Inv(d) by {
      assert d.Current(t);
      forall u | d.Current(u) ensures u == t {}
      forall m | d.Loose(m) ensures d.durable.value.message == m { assert c.Loose(m); }
    }
    FailedTurnKeepsInv(d, t);
    assert d.(committing := true).(committing := false) == d;
  }

  lemma RepliedKeepsInv(c: Conv, t: TaskId, final: Text, citations: Option<Text>, stored: bool)
    requires Inv(c) && Possible(c, ReplyArrives(t, final, citations, stored))
    ensures Inv(Replied(c, t, final, citations, stored))
  {
    if c.tasks[t].revision != c.revision {
      DroppingStaleKeepsInv(c, t);
    } else if Commits(final, citations, stored) || !c.runtime {
      CommittedKeepsInv(c, t, final, citations, stored);
    } else {
      RefusedCommitKeepsInv(c, t, final, citations, stored);
    }
  }

  lemma SavedKeepsInv(c: Conv, t: TaskId, saved: bool)
    requires Inv(c) && Possible(c, SaveArrives(t, saved))
    ensures Inv(SaveFinished(c, t, saved))
  {
    var d := SaveFinished(c, t, saved);
    if c.tasks[t].revision != c.revision {
      DroppingStaleKeepsInv(c, t);
      var e := Without(c, t);
      forall u ensures d.Current(u) == e.Current(u) {}
      forall m ensures d.Loose(m) == e.Loose(m) {}
      forall u | d.Current(u) ensures PhaseOk(d, d.tasks[u].phase) { assert e.Current(u); }
      if d.responseId.Some? || d.state.Thinking? || d.state.Answering? { var u :| e.Current(u); assert d.Current(u); }
      forall m | d.Loose(m) ensures ReplyingNow(d) {
        assert e.Loose(m);
        var u :| e.Current(u) && e.tasks[u].phase.Replying?;
        assert d.Current(u);
      }
    } else {
      assert c.Current(t);
      forall u ensures !d.Current(u) {}
      forall u ensures !(c.Current(u) && c.tasks[u].phase.Replying?) {}
      forall m ensures !d.Loose(m) { assert !c.Loose(m); }
    }
  }

  lemma ControlKeepsInv(c: Conv, e: Event)
    requires Inv(c) && (e.Interrupt? || e.Pause? || e.RequestExit? || e.Close?)
    ensures Inv(Step(c, e))
  {
    hide Inv, Cancelled;
    var d := Cancelled(c);
    match e
    case Interrupt => CancelThenKeepsInv(c, Listening, d.pending, d.history);
    case Pause => CancelThenKeepsInv(c, Paused, d.pending, d.history);
    case RequestExit => CancelThenKeepsInv(c, ExitPending, d.pending, d.history);
    case Close => CancelThenKeepsInv(c, Closed, d.pending, d.history);
  }

  lemma RecoveredKeepsInv(c: Conv)
    requires Inv(c)
    ensures Inv(Recovered(c))
  {
    CancelledIsIdle(c);
    hide Cancelled, Inv;
    var d := Recovered(c);
    assert d.tasks == c.tasks && d.revision == c.revision + 1;
    forall m ensures !d.Loose(m) { assert !Cancelled(c).Loose(m); }
    IdleKeepsInv(d);
  }

  lemma TextIsFree(c: Conv, text: Text)
    requires Inv(c)
    ensures Inv(c.(partial := text))
  {
    var d := c.(partial := text);
    AppendedKeepsInv(c, c.revision, text, false);
    var e := Appended(c, c.revision, text, false);
    forall t ensures d.Current(t) == e.Current(t) {}
    forall m ensures d.Loose(m) == e.Loose(m) {}
    forall t | d.Current(t) ensures PhaseOk(d, d.tasks[t].phase) { assert e.Current(t); }
    if d.responseId.Some? || d.state.Thinking? || d.state.Answering? { var t :| e.Current(t); assert d.Current(t); }
    forall m | d.Loose(m) ensures ReplyingNow(d) {
      assert e.Loose(m);
      var t :| e.Current(t) && e.tasks[t].phase.Replying?;
      assert d.Current(t);
    }
  }

  lemma RevokedKeepsInv(c: Conv)
    requires Inv(c)
    ensures Inv(Revoked(c))
  {
    var r := c.(partial := [], pending := []);
    assert Inv(r) by {
      TextIsFree(c, []);
      var t := c.(partial := []);
      forall u ensures r.Current(u) == t.Current(u) {}
      forall m ensures r.Loose(m) == t.Loose(m) {}
      forall u | r.Current(u) ensures PhaseOk(r, r.tasks[u].phase) { assert t.Current(u); }
      if r.responseId.Some? || r.state.Thinking? || r.state.Answering? { var u :| t.Current(u); assert r.Current(u); }
      forall m | r.Loose(m) ensures ReplyingNow(r) {
        var u :| t.Current(u) && t.tasks[u].phase.Replying?;
        assert r.Current(u);
      }
    }
    CancelThenKeepsInv(r, Listening, [], []);
    if !c.state.Thinking? && !c.state.Answering? { CancelThenKeepsInv(r, c.state, [], []); }
    assert Cancelled(r).state == c.state && Cancelled(r).pending == [];
    hide Inv, Cancelled;
  }

  lemma NotCurrent(c: Conv)
    requires Inv(c) && !c.state.Thinking? && !c.state.Answering?
    ensures forall t :: !c.Current(t)
  {
  }

  lemma RestoredKeepsInv(c: Conv, entries: seq<Entry>)
    requires Inv(c)
    ensures Inv(Restored(c, entries))
  {
    if !c.work {
      forall t ensures !c.Current(t) { assert c.Current(t) ==> PhaseOk(c, c.tasks[t].phase); }
      var d := c.(history := entries, pending := [], state := Listening);
      forall t ensures !d.Current(t) { assert !c.Current(t); }
      forall m ensures !d.Loose(m) { assert !c.Loose(m); }
    }
  }

  lemma StepKeepsInv(c: Conv, e: Event)
    requires Inv(c) && Possible(c, e)
    ensures Inv(Step(c, e))
  {
    match e
    case Submit(clean, forced, t) => SubmittedKeepsInv(c, clean, forced, t);
    case PlanArrives(t, decision, retry, ack, started, answer) =>
      PlannedKeepsInv(c, t, decision, retry, ack, started, answer);
    case Delta(r, value, checkpoint) => AppendedKeepsInv(c, r, value, checkpoint);
    case FinalText(r, text) => TextIsFree(c, text);
    case ReplyArrives(t, final, citations, stored) => RepliedKeepsInv(c, t, final, citations, stored);
    case CallFails(t) => if c.Current(t) { FailedTurnKeepsInv(c, t); } else { DroppingStaleKeepsInv(c, t); }
    case SaveArrives(t, saved) => SavedKeepsInv(c, t, saved);
    case Resume => if c.state.Paused? { NotCurrent(c); StateKeepsInv(c, Listening); }
    case ConfirmExit(confirm) =>
      if c.state.ExitPending? { NotCurrent(c); StateKeepsInv(c, Closed); StateKeepsInv(c, Paused); }
    case RestoreHistory(entries) => RestoredKeepsInv(c, entries);
    case RecoverFailedTurn => RecoveredKeepsInv(c);
    case RevokeMemory => RevokedKeepsInv(c);
    case _ => ControlKeepsInv(c, e);
  }
}
