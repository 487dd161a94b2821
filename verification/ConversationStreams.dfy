/** Runs of the conversation: which messages stream, what late continuations can do, and what is
    never undone. */
module ConversationStreams {
  import opened AnswerLimits
  import opened Texts
  import opened Wrappers
  import opened ConversationTurns

  lemma {:induction false} RunKeepsInv(c: Conv, events: seq<Event>)
    requires Inv(c) && ValidRun(c, events)
    ensures Inv(Run(c, events))
    decreases |events|
  {
    hide Inv, Possible, Step;
    if events != [] {
      StepKeepsInv(c, events[0]);
      RunKeepsInv(Step(c, events[0]), events[1..]);
    }
  }

  // ----- What the invariant says about streaming -----

  /** `m` is the answer of the open reply of an answering conversation. */
  predicate Named(c: Conv, m: MessageId) {
    c.state.Answering? && c.responseId == Some(c.revision) && !c.committing
    && c.durable.Some? && c.durable.value.message == m
  }

  /** A streaming message is the one the open reply names, or it was left behind by a cancel; so
      apart from those at most one streams, and none while paused, exiting or closed. */
  lemma StreamingIsNamed(c: Conv, m: MessageId)
    requires Inv(c) && c.Streams(m)
    ensures Named(c, m) <==> m !in c.orphans
    ensures m !in c.orphans ==> forall n :: c.Loose(n) ==> n == m
  {
    if m !in c.orphans {
      assert c.Loose(m) && ReplyingNow(c);
      var t :| c.Current(t) && c.tasks[t].phase.Replying?;
      assert PhaseOk(c, c.tasks[t].phase);
    }
  }

  /** Nothing has been left behind exactly when every streaming message is named. */
  lemma AllNamedIff(c: Conv)
    requires Inv(c)
    ensures (forall m :: c.Streams(m) ==> Named(c, m)) <==> c.orphans == {}
  {
    if m :| m in c.orphans {
      assert c.Streams(m) && !Named(c, m);
    } else {
      forall m | c.Streams(m) ensures Named(c, m) { StreamingIsNamed(c, m); }
    }
  }

  /** The event cancels whatever reply is in progress. */
  predicate Cancels(c: Conv, e: Event) {
    match e
    case Submit(clean, _, _) =>
      c.AcceptsInput()
      && (|clean| > MAX_INPUT || |c.pending| + |clean| > MAX_PENDING || Joined(c.pending, clean) != [])
    case Interrupt => c.AcceptsInput()
    case Pause => c.AcceptsInput()
    case RequestExit => !c.state.Closed? && !c.state.ExitPending?
    case Close => true
    case RecoverFailedTurn => true
    case _ => false
  }

  /** The durable commit of a finished reply is refused after the history was told. */
  ghost predicate Refuses(c: Conv, e: Event) {
    e.ReplyArrives? && c.Current(e.task) && c.runtime && !Commits(e.final, e.citations, e.stored)
  }

  /** A reply is cancelled, or fails, or is refused, with more text than a checkpoint may hold. */
  ghost predicate Strands(c: Conv, e: Event) {
    ReplyingNow(c) && c.runtime &&
    match e
    case ReplyArrives(_, final, _, _) => Refuses(c, e) && |final| > MAX_ANSWER_UNITS
    case CallFails(t) => c.Current(t) && |c.partial| > MAX_ANSWER_UNITS
    case _ => Cancels(c, e) && |c.partial| > MAX_ANSWER_UNITS
  }

  /** A cancel finds something to stop exactly while a durable reply is open. */
  lemma StoppableIff(c: Conv)
    requires Inv(c)
    ensures c.Stoppable() <==> ReplyingNow(c) && c.runtime
    ensures c.Stoppable() ==> c.responseId.Some? && c.durable.value.message !in c.orphans
  {
    if c.Stoppable() { assert c.Loose(c.durable.value.message); }
  }

  lemma SameStop(c: Conv, d: Conv)
    requires c == d.(pending := c.pending)
    ensures InterruptedStore(c) == InterruptedStore(d) && InterruptedHistory(c) == InterruptedHistory(d)
    ensures Stranded(c) == Stranded(d)
  {
  }

  /** History, store and orphans after one of these events are those of a cancel, or unchanged. */
  lemma CancelShows(c: Conv, e: Event)
    requires Possible(c, e)
    requires e.Submit? || e.Interrupt? || e.Pause? || e.RequestExit? || e.Close? || e.RecoverFailedTurn?
    ensures var d, r := if Cancels(c, e) then Cancelled(c) else c, Step(c, e);
            r.history == d.history && r.store == d.store && r.orphans == d.orphans
  {
    hide InterruptedStore, InterruptedHistory, Stranded;
    if e.Submit? {
      var d := c.(revision := c.revision + 1, work := false);
      SameStop(d.(pending := Joined(c.pending, e.clean)), d);
      hide Joined;
    }
  }

  /** The orphans after the event are the earlier ones and, if it strands, the open answer. */
  ghost predicate StrandsExactly(c: Conv, e: Event)
    requires Possible(c, e)
  {
    && (Strands(c, e) ==> c.durable.Some? && c.durable.value.message !in c.orphans)
    && Step(c, e).orphans == c.orphans + if Strands(c, e) then {c.durable.value.message} else {}
  }

  lemma CancelStrands(c: Conv, e: Event)
    requires Inv(c) && Possible(c, e)
    requires e.Submit? || e.Interrupt? || e.Pause? || e.RequestExit? || e.Close? || e.RecoverFailedTurn?
    ensures StrandsExactly(c, e)
  {
    StoppableIff(c);
    CancelShows(c, e);
    hide Inv, InterruptedStore, InterruptedHistory, ReplyingNow, Step, Possible, Cancels;
  }

  lemma ReplyStrands(c: Conv, e: Event)
    requires Inv(c) && Possible(c, e) && (e.ReplyArrives? || e.CallFails?)
    ensures StrandsExactly(c, e)
  {
    StoppableIff(c);
    if c.Current(e.task) { assert PhaseOk(c, c.tasks[e.task].phase); }
    if e.ReplyArrives? && c.Current(e.task) { assert ReplyingNow(c); }
    hide Inv, InterruptedStore, InterruptedHistory, Commits, ReplyingNow;
  }

  lemma PlanStrandsNothing(c: Conv, e: Event)
    requires Inv(c) && Possible(c, e) && e.PlanArrives?
    ensures StrandsExactly(c, e)
  {
    if c.Current(e.task) { assert PhaseOk(c, c.tasks[e.task].phase) && c.durable.None?; }
    hide Inv, InterruptedStore, InterruptedHistory, ReplyingNow;
  }

  lemma NothingStrands(c: Conv, e: Event)
    requires Inv(c) && Possible(c, e)
    requires e.SaveArrives? || e.Delta? || e.FinalText? || e.Resume? || e.ConfirmExit? || e.RestoreHistory?
             || e.RevokeMemory?
    ensures StrandsExactly(c, e)
  {
    hide Inv, InterruptedStore, InterruptedHistory, ReplyingNow;
  }

  /** Exactly those events leave a row streaming behind, and it is the open answer's. */
  lemma StrandsIff(c: Conv, e: Event)
    requires Inv(c) && Possible(c, e)
    ensures Strands(c, e) ==> c.durable.Some? && c.durable.value.message !in c.orphans
    ensures Step(c, e).orphans == c.orphans + if Strands(c, e) then {c.durable.value.message} else {}
  {
    assert StrandsExactly(c, e) by {
      hide *;
      match e
      case PlanArrives(_, _, _, _, _, _) => PlanStrandsNothing(c, e);
      case SaveArrives(_, _) => NothingStrands(c, e);
      case Delta(_, _, _) => NothingStrands(c, e);
      case FinalText(_, _) => NothingStrands(c, e);
      case Resume => NothingStrands(c, e);
      case ConfirmExit(_) => NothingStrands(c, e);
      case RestoreHistory(_) => NothingStrands(c, e);
      case RevokeMemory => NothingStrands(c, e);
      case ReplyArrives(_, _, _, _) => ReplyStrands(c, e);
      case CallFails(_) => ReplyStrands(c, e);
      case _ => CancelStrands(c, e);
    }
    hide Strands, Step, Possible, Inv;
  }

  ghost predicate NeverStrands(c: Conv, events: seq<Event>)
    requires ValidRun(c, events)
    decreases |events|
  {
    events == [] || (!Strands(c, events[0]) && NeverStrands(Step(c, events[0]), events[1..]))
  }

  lemma {:induction false} OrphansStay(c: Conv, events: seq<Event>)
    requires Inv(c) && ValidRun(c, events)
    ensures Inv(Run(c, events)) && c.orphans <= Run(c, events).orphans
    ensures Run(c, events).orphans == c.orphans <==> NeverStrands(c, events)
    decreases |events|
  {
    hide Inv, Possible, Step, Strands;
    if events != [] {
      var d := Step(c, events[0]);
      StepKeepsInv(c, events[0]);
      StrandsIff(c, events[0]);
      OrphansStay(d, events[1..]);
    }
  }

  /** In every run of a new conversation what streams is the open reply's answer and nothing
      else, exactly when no reply was cancelled, failed or refused with more text than a
      checkpoint may hold. */
  lemma RunsNameTheirStreamIff(events: seq<Event>)
    requires ValidRun(FRESH, events)
    ensures (forall m :: Run(FRESH, events).Streams(m) ==> Named(Run(FRESH, events), m))
       <==> NeverStrands(FRESH, events)
  {
    hide Inv, Run, ValidRun, Named, NeverStrands;
    FreshIsSound();
    OrphansStay(FRESH, events);
    AllNamedIff(Run(FRESH, events));
  }

  /** In every run, whatever was left behind: one message at most streams beside it, and it is
      named. */
  lemma RunsNameTheirStream(events: seq<Event>, m: MessageId)
    requires ValidRun(FRESH, events) && Run(FRESH, events).Loose(m)
    ensures Named(Run(FRESH, events), m) && forall n :: Run(FRESH, events).Loose(n) ==> n == m
  {
    hide Inv, Run, ValidRun;
    FreshIsSound();
    RunKeepsInv(FRESH, events);
    StreamingIsNamed(Run(FRESH, events), m);
  }

  // ----- Late continuations and callbacks -----

  /** The event is a continuation or callback that captured an older revision. */
  ghost predicate Late(c: Conv, e: Event) {
    match e
    case PlanArrives(t, _, _, _, _, _) => t in c.tasks && c.tasks[t].revision < c.revision
    case ReplyArrives(t, _, _, _) => t in c.tasks && c.tasks[t].revision < c.revision
    case CallFails(t) => t in c.tasks && c.tasks[t].revision < c.revision
    case SaveArrives(t, _) => t in c.tasks && c.tasks[t].revision < c.revision
    case Delta(r, _, _) => r < c.revision
    case FinalText(r, _) => r < c.revision
    case _ => false
  }

  /** A late event reaches neither history nor store nor any field a reader sees; the one
      thing it may still do is clear the committing flag. */
  lemma LateEventsAreInert(c: Conv, e: Event)
    requires Possible(c, e) && Late(c, e)
    ensures var d := Step(c, e);
            && d == c.(tasks := d.tasks, committing := d.committing)
            && d.tasks.Keys <= c.tasks.Keys
            && (d.committing != c.committing ==> e.SaveArrives? && c.committing)
  {
  }

  lemma RevisionGrows(c: Conv, e: Event)
    requires Possible(c, e)
    ensures c.revision <= Step(c, e).revision <= c.revision + 1
  {
    hide Cancelled, Joined, Submitted, Planned, Replied;
  }

  /** Confirming, closing and restoring a history are the only ways out of a pending exit. */
  lemma ExitPendingLeftOnlyBy(c: Conv, e: Event)
    requires Inv(c) && Possible(c, e) && c.state.ExitPending?
    ensures !Step(c, e).state.ExitPending? <==>
              e.ConfirmExit? || e.Close?
              || (e.RestoreHistory? && !c.work && c.responseId.None? && |e.entries| <= MAX_RESTORED)
  {
    NotCurrent(c);
    hide Inv, InterruptedStore, InterruptedHistory, Joined;
    match e
    case PlanArrives(t, _, _, _, _, _) => assert !c.Current(t);
    case ReplyArrives(t, _, _, _) => assert !c.Current(t);
    case CallFails(t) => assert !c.Current(t);
    case SaveArrives(t, _) => assert !c.Current(t);
    case _ =>
  }

  lemma ClosedStaysClosed(c: Conv, e: Event)
    requires Inv(c) && Possible(c, e) && c.state.Closed?
    ensures Step(c, e).state.Closed?
  {
    NotCurrent(c);
    hide Inv, InterruptedStore, InterruptedHistory, Joined;
    match e
    case PlanArrives(t, _, _, _, _, _) => assert !c.Current(t);
    case ReplyArrives(t, _, _, _) => assert !c.Current(t);
    case CallFails(t) => assert !c.Current(t);
    case SaveArrives(t, _) => assert !c.Current(t);
    case _ =>
  }

  /** What has fallen behind stays behind, and a closed conversation stays closed, in every run. */
  lemma {:induction false} RunNeverGoesBack(c: Conv, events: seq<Event>)
    requires Inv(c) && ValidRun(c, events)
    ensures c.revision <= Run(c, events).revision
    ensures c.state.Closed? ==> Run(c, events).state.Closed?
    decreases |events|
  {
    hide Inv, Possible, Step;
    if events != [] {
      StepKeepsInv(c, events[0]);
      RevisionGrows(c, events[0]);
      if c.state.Closed? { ClosedStaysClosed(c, events[0]); }
      RunNeverGoesBack(Step(c, events[0]), events[1..]);
    }
  }

  // ----- Concrete runs -----

  /** One letter. */
  const WORD: Text := [120]

  lemma WordCommits()
    ensures Commits(WORD, None, true) && Trim(WORD) == WORD
  {
    assert !IsSpaceCode(120);
  }

  /** The row a cancel may change. */
  predicate Opens(c: Conv, m: MessageId) {
    c.responseId.Some? && c.Stoppable() && c.durable.value.message == m && |c.partial| <= MAX_ANSWER_UNITS
  }

  lemma CancelKeepsOthers(c: Conv)
    ensures Cancelled(c).store.Keys == c.store.Keys
    ensures forall m :: m in c.store && !Opens(c, m) ==> Cancelled(c).store[m] == c.store[m]
  {
  }

  lemma Prepend(c: Conv, e: Event, events: seq<Event>)
    requires Possible(c, e) && ValidRun(Step(c, e), events)
    ensures ValidRun(c, [e] + events) && Run(c, [e] + events) == Run(Step(c, e), events)
  {
  }

  lemma RunTwo(c: Conv, e: Event, f: Event)
    requires Possible(c, e) && Possible(Step(c, e), f)
    ensures ValidRun(c, [e, f]) && Run(c, [e, f]) == Step(Step(c, e), f)
  {
    hide Possible, Step;
    var d := Step(Step(c, e), f);
    assert ValidRun(d, []) && Run(d, []) == d;
    Prepend(Step(c, e), f, []);
    Prepend(c, e, [f] + []);
    assert [e] + ([f] + []) == [e, f];
  }

  /** A new submission up to the open reply. */
  lemma TurnUpToReply(c: Conv, t: TaskId, answer: Durable) returns (events: seq<Event>)
    requires c.AcceptsInput() && c.pending == [] && c.runtime && t !in c.tasks && answer.message !in c.store
    ensures ValidRun(c, events)
    ensures var d := Run(c, events);
            && d.revision == c.revision + 1 && d.tasks == c.tasks[t := Task(c.revision + 1, Replying)]
            && d.AcceptsInput() && d.pending == [] && d.runtime && d.partial == []
            && d.responseId.Some? && d.durable == Some(answer) && d.Streams(answer.message)
            && d.store.Keys == c.store.Keys + {answer.message}
            && forall m :: m in c.store && !Opens(c, m) ==> d.store[m] == c.store[m]
  {
    hide Cancelled;
    var e, f := Submit(WORD, true, t), PlanArrives(t, Respond, false, UserCommitted, true, answer);
    var c1 := Step(c, e);
    assert Joined([], WORD) == WORD;
    assert c1.revision == c.revision + 1 && c1.tasks == c.tasks[t := Task(c1.revision, Planning(WORD, true))];
    CancelKeepsOthers(c.(pending := WORD));
    RunTwo(c, e, f);
    events := [e, f];
  }

  lemma RunOne(c: Conv, e: Event)
    requires Possible(c, e)
    ensures ValidRun(c, [e]) && Run(c, [e]) == Step(c, e)
  {
    hide Possible, Step;
    assert ValidRun(Step(c, e), []) && Run(Step(c, e), []) == Step(c, e);
    Prepend(c, e, []);
    assert [e] + [] == [e];
  }

  lemma {:induction false} Concatenate(c: Conv, a: seq<Event>, b: seq<Event>)
    requires ValidRun(c, a) && ValidRun(Run(c, a), b)
    ensures ValidRun(c, a + b) && Run(c, a + b) == Run(Run(c, a), b)
    decreases |a|
  {
    hide Possible, Step;
    if a == [] {
      assert a + b == b;
    } else {
      assert (a + b)[1..] == a[1..] + b;
      Concatenate(Step(c, a[0]), a[1..], b);
    }
  }

  /** A whole turn up to its durable commit, leaving the save pending. */
  lemma TurnUpToSave(c: Conv, t: TaskId, answer: Durable) returns (events: seq<Event>)
    requires c.AcceptsInput() && c.pending == [] && c.runtime && t !in c.tasks && answer.message !in c.store
    ensures ValidRun(c, events)
    ensures var d := Run(c, events);
            && d.revision == c.revision + 1 && d.tasks == c.tasks[t := Task(c.revision + 1, Saving)]
            && d.AcceptsInput() && d.pending == [] && d.runtime && d.committing && d.partial == WORD
            && d.responseId.Some? && d.durable == Some(answer)
            && d.store.Keys == c.store.Keys + {answer.message} && d.store[answer.message].status.Committed?
  {
    hide Cancelled, Run, ValidRun, Commits;
    var first := TurnUpToReply(c, t, answer);
    var g := ReplyArrives(t, WORD, None, true);
    WordCommits();
    RunOne(Run(c, first), g);
    Concatenate(c, first, [g]);
    events := first + [g];
  }

  /** The open reply of a first turn outgrows the checkpoint and is interrupted; the next turn
      opens a second stream beside the one that was left. */
  lemma OverlongPartialLeavesTwoStreams()
    ensures exists events :: ValidRun(FRESH, events) && Run(FRESH, events).Streams(0) && Run(FRESH, events).Streams(1)
  {
    hide Run, ValidRun;
    var first := TurnUpToReply(FRESH, 0, Durable(0, 0));
    var c := Run(FRESH, first);
    var long := Delta(1, seq(MAX_ANSWER_UNITS + 1, _ => 120), false);
    var d := Step(Step(c, long), Interrupt);
    assert d.Streams(0) && d.AcceptsInput() && d.responseId.None? && d.pending == [] && d.store == c.store;
    var second := TurnUpToReply(d, 1, Durable(1, 1));
    assert Run(d, second).Streams(0) && Run(d, second).Streams(1);
    hide Step, Possible;
    RunTwo(c, long, Interrupt);
    Concatenate(c, [long, Interrupt], second);
    Concatenate(FRESH, first, [long, Interrupt] + second);
  }
}
