/** What the conversation's in-memory history tells of durable answers, and when that differs from
    the store. */
module ConversationHistory {
  import opened AnswerLimits
  import opened Texts
  import opened Wrappers
  import opened ConversationStreams
  import opened ConversationTurns

  ghost predicate SavingNow(c: Conv) {
    exists t :: c.Current(t) && c.tasks[t].phase.Saving?
  }

  /** A cancel finds the flag down although the answer is already committed. */
  ghost predicate Copying(c: Conv) {
    SavingNow(c) && c.durable.Some? && !c.committing && c.partial != []
  }

  ghost predicate Copies(c: Conv, e: Event) {
    Copying(c) && Cancels(c, e)
  }

  lemma FaithfulGrows(c: Conv, d: Conv, e: Entry)
    requires d.history == c.history + [e]
    ensures Faithful(d) <==> Faithful(c.(store := d.store)) && EntryFaithful(e, d.store)
  {
    var b := c.(store := d.store);
    if Faithful(d) {
      assert EntryFaithful(d.history[|c.history|], d.store);
      forall i | 0 <= i < |c.history| ensures EntryFaithful(c.history[i], d.store) {
        assert EntryFaithful(d.history[i], d.store);
      }
    }
    if Faithful(b) && EntryFaithful(e, d.store) {
      forall i | 0 <= i < |d.history| ensures EntryFaithful(d.history[i], d.store) {
        assert i < |c.history| ==> EntryFaithful(b.history[i], b.store);
      }
    }
  }

  /** Settled rows stay settled, so entries about them stay true. */
  lemma FaithfulStoreGrows(c: Conv, store: map<MessageId, Stored>)
    requires Faithful(c)
    requires forall m :: m in c.store && !c.Streams(m) ==> m in store && store[m].status == c.store[m].status
    ensures Faithful(c.(store := store))
  {
  }

  lemma FaithfulDependsOn(c: Conv, d: Conv)
    requires c.store == d.store && c.history == d.history
    ensures Faithful(c) <==> Faithful(d)
  {
  }

  /** Cancelling: the interrupted line is true unless the answer was already committed or had to
      be left streaming. */
  lemma CancelledFaithful(c: Conv)
    requires Inv(c) && Faithful(c)
    ensures Faithful(Cancelled(c)) <==> !Copying(c) && Stranded(c) == {}
  {
    if c.responseId.Some? {
      var d := Cancelled(c);
      var t :| c.Current(t);
      assert PhaseOk(c, c.tasks[t].phase);
      assert SavingNow(c) <==> c.tasks[t].phase.Saving? by {
        if SavingNow(c) { var u :| c.Current(u) && c.tasks[u].phase.Saving?; assert u == t; }
      }
      FaithfulStoreGrows(c, d.store);
      if c.partial != [] && !c.committing {
        FaithfulGrows(c, d, d.history[|c.history|]);
      } else {
        FaithfulDependsOn(c.(store := d.store), d);
      }
    } else {
      assert !SavingNow(c) by {
        forall u ensures !(c.Current(u) && c.tasks[u].phase.Saving?) {
          assert c.Current(u) ==> PhaseOk(c, c.tasks[u].phase);
        }
      }
      FaithfulDependsOn(c, Cancelled(c));
    }
  }

  lemma PlannedFaithful(c: Conv, t: TaskId, decision: Decision, retry: bool, ack: UserAck, started: bool,
                        answer: Durable)
    requires Inv(c) && Faithful(c) && Possible(c, PlanArrives(t, decision, retry, ack, started, answer))
    ensures Faithful(Planned(c, t, decision, retry, ack, started, answer))
  {
    if c.Current(t) {
      assert PhaseOk(c, c.tasks[t].phase) && c.durable.None? && c.responseId.None?;
      assert c.responseId.None?;
      var d := c.(pending := []);
      var line := Entry(UserRole, UserText(c.tasks[t].phase.text, retry), EntryCommitted, None);
      var e := d.(history := d.history + [line]);
      FaithfulDependsOn(c, d);
      FaithfulGrows(d, e, e.history[|d.history|]);
      FaithfulDependsOn(d, d.(store := e.store));
      var f := e.(store := e.store[answer.message := Stored(answer.turn, Streaming, [])]);
      FaithfulStoreGrows(e, f.store);
      var r := Planned(c, t, decision, retry, ack, started, answer);
      var u := e.(responseId := Some(e.revision), partial := []);
      assert Cancelled(u).history == e.history && Cancelled(u).store == e.store;
      assert Cancelled(d).history == d.history && Cancelled(d).store == d.store;
      assert Cancelled(e).history == e.history && Cancelled(e).store == e.store;
      hide Cancelled, Inv, Faithful;
      if r.history == d.history { FaithfulDependsOn(d, r); }
      else if r.store == e.store { FaithfulDependsOn(e, r); }
      else { FaithfulDependsOn(f, r); }
    } else {
      FaithfulDependsOn(c, Planned(c, t, decision, retry, ack, started, answer));
    }
  }

  lemma AppendedFaithful(c: Conv, revision: nat, value: Text, checkpoint: bool)
    requires Faithful(c)
    ensures Faithful(Appended(c, revision, value, checkpoint))
  {
  }

  lemma RefusedIsUnfaithful(c: Conv, t: TaskId, final: Text, citations: Option<Text>, stored: bool)
    requires Inv(c) && c.Current(t) && c.tasks[t].phase.Replying? && c.runtime && !Commits(final, citations, stored)
    ensures !Faithful(Replied(c, t, final, citations, stored))
  {
    hide Commits;
    assert PhaseOk(c, c.tasks[t].phase);
    var r := Replied(c, t, final, citations, stored);
    assert r.history[|c.history|] == Entry(AssistantRole, final, EntryCommitted, Some(c.durable.value.message));
    assert !r.store[c.durable.value.message].status.Committed?;
    assert !EntryFaithful(r.history[|c.history|], r.store);
  }

  /** A finished reply is told truly exactly when the store takes it. */
  lemma RepliedFaithful(c: Conv, t: TaskId, final: Text, citations: Option<Text>, stored: bool)
    requires Inv(c) && Faithful(c) && Possible(c, ReplyArrives(t, final, citations, stored))
    ensures Faithful(Replied(c, t, final, citations, stored))
       <==> !(c.Current(t) && c.runtime && !Commits(final, citations, stored))
  {
    hide Commits;
    var r := Replied(c, t, final, citations, stored);
    if c.Current(t) {
      assert PhaseOk(c, c.tasks[t].phase);
      if c.runtime && !Commits(final, citations, stored) {
        RefusedIsUnfaithful(c, t, final, citations, stored);
      } else {
        FaithfulStoreGrows(c, r.store);
        FaithfulGrows(c, r, r.history[|c.history|]);
      }
    } else {
      FaithfulDependsOn(c, r);
    }
  }

  /** Continuations and callbacks never cancel while an answer is being saved. */
  lemma ContinuationsDoNotCopy(c: Conv, e: Event)
    requires Inv(c) && Possible(c, e)
    requires e.PlanArrives? || e.ReplyArrives? || e.CallFails? || e.SaveArrives? || e.Delta? || e.FinalText?
    ensures !Copies(c, e)
    ensures (e.PlanArrives? || e.SaveArrives? || e.Delta? || e.FinalText?) ==> !Strands(c, e)
    ensures e.ReplyArrives? && Strands(c, e) ==> Refuses(c, e)
  {
  }

  lemma QuietEventsStayFaithful(c: Conv, e: Event)
    requires Inv(c) && Faithful(c) && Possible(c, e)
    requires e.FinalText? || e.SaveArrives? || e.Resume? || e.ConfirmExit? || e.RestoreHistory? || e.RevokeMemory?
    ensures Faithful(Step(c, e)) && !Copies(c, e) && !Strands(c, e)
  {
  }

  lemma TaskPhaseRulesOutSaving(c: Conv, t: TaskId)
    requires Inv(c) && (c.Current(t) ==> !c.tasks[t].phase.Saving?)
    ensures c.Current(t) ==> !SavingNow(c)
  {
  }

  lemma CallFailsFaithful(c: Conv, t: TaskId)
    requires Inv(c) && Faithful(c) && Possible(c, CallFails(t))
    ensures Faithful(ModelFailed(c, t)) <==> !Strands(c, CallFails(t))
  {
    StoppableIff(c);
    CancelledFaithful(c);
    if c.Current(t) {
      TaskPhaseRulesOutSaving(c, t);
      hide Inv, Faithful, Cancelled, SavingNow, ReplyingNow;
      FaithfulDependsOn(Cancelled(c), ModelFailed(c, t));
    } else {
      hide Inv, Cancelled;
      FaithfulDependsOn(c, ModelFailed(c, t));
    }
  }

  lemma ControlFaithful(c: Conv, e: Event)
    requires Inv(c) && Faithful(c) && Possible(c, e)
    requires e.Submit? || e.Interrupt? || e.Pause? || e.RequestExit? || e.Close? || e.RecoverFailedTurn?
    ensures Faithful(Step(c, e)) <==> !Copies(c, e) && !Strands(c, e)
  {
    CancelledFaithful(c);
    StoppableIff(c);
    CancelShows(c, e);
    hide Cancelled, Inv, Faithful, Copying, ReplyingNow, Step, Possible, Cancels;
    FaithfulDependsOn(if Cancels(c, e) then Cancelled(c) else c, Step(c, e));
  }

  /** For every event: the history stays true to the store unless the durable commit is
      refused, a cancel copies an answer whose committing flag was lost, or a row has to be left
      streaming. */
  lemma FaithfulUnless(c: Conv, e: Event)
    requires Inv(c) && Faithful(c) && Possible(c, e)
    ensures Faithful(Step(c, e)) <==> !Refuses(c, e) && !Copies(c, e) && !Strands(c, e)
  {
    hide Inv, Faithful, Copies, Strands, Cancelled, Submitted, Planned, Replied, ModelFailed, SaveFinished, Appended,
      Rewritten, Restored, Recovered, Revoked, Pausing, ExitRequested, Commits;
    match e
    case PlanArrives(t, decision, retry, ack, started, answer) =>
      ContinuationsDoNotCopy(c, e);
      PlannedFaithful(c, t, decision, retry, ack, started, answer);
    case Delta(r, value, checkpoint) =>
      ContinuationsDoNotCopy(c, e);
      AppendedFaithful(c, r, value, checkpoint);
    case ReplyArrives(t, final, citations, stored) =>
      ContinuationsDoNotCopy(c, e);
      RepliedFaithful(c, t, final, citations, stored);
    case CallFails(t) =>
      ContinuationsDoNotCopy(c, e);
      CallFailsFaithful(c, t);
    case FinalText(_, _) => QuietEventsStayFaithful(c, e);
    case SaveArrives(_, _) => QuietEventsStayFaithful(c, e);
    case Resume => QuietEventsStayFaithful(c, e);
    case ConfirmExit(_) => QuietEventsStayFaithful(c, e);
    case RestoreHistory(_) => QuietEventsStayFaithful(c, e);
    case RevokeMemory => QuietEventsStayFaithful(c, e);
    case _ => ControlFaithful(c, e);
  }

  /** The flag is up exactly while a committed answer is being saved. */
  ghost predicate FlagTrue(c: Conv) {
    SavingNow(c) <==> c.committing
  }

  /** A saver of an older turn finishes while a newer answer is being saved. */
  ghost predicate Overlaps(c: Conv, e: Event) {
    e.SaveArrives? && !c.Current(e.task) && SavingNow(c)
  }

  lemma SavingIs(c: Conv, t: TaskId)
    requires Inv(c) && c.Current(t)
    ensures SavingNow(c) <==> c.tasks[t].phase.Saving?
  {
  }

  lemma DroppedFlag(c: Conv, t: TaskId)
    requires t in c.tasks && !c.Current(t)
    ensures FlagTrue(Without(c, t)) <==> FlagTrue(c)
    ensures SavingNow(Without(c, t)) <==> SavingNow(c)
  {
    var d := Without(c, t);
    forall u ensures d.Current(u) == c.Current(u) {}
  }

  /** Whatever cancels leaves the flag down and nobody saving. */
  lemma CancelledFlag(c: Conv, d: Conv)
    requires Inv(c) && d.revision == c.revision + 1
    requires d.committing == Cancelled(c).committing
    requires forall t :: t in d.tasks ==> (t in c.tasks && d.tasks[t] == c.tasks[t]) || d.tasks[t].phase.Planning?
    ensures FlagTrue(d)
  {
  }

  lemma PlannedFlag(c: Conv, t: TaskId, decision: Decision, retry: bool, ack: UserAck, started: bool, answer: Durable)
    requires Inv(c) && FlagTrue(c) && Possible(c, PlanArrives(t, decision, retry, ack, started, answer))
    ensures FlagTrue(Planned(c, t, decision, retry, ack, started, answer))
  {
    if c.Current(t) {
      assert PhaseOk(c, c.tasks[t].phase);
      SavingIs(c, t);
      var d := Planned(c, t, decision, retry, ack, started, answer);
      assert !d.committing;
      forall u ensures !(d.Current(u) && d.tasks[u].phase.Saving?) {}
    } else {
      DroppedFlag(c, t);
    }
  }

  lemma RepliedFlag(c: Conv, t: TaskId, final: Text, citations: Option<Text>, stored: bool)
    requires Inv(c) && FlagTrue(c) && Possible(c, ReplyArrives(t, final, citations, stored))
    ensures FlagTrue(Replied(c, t, final, citations, stored))
  {
    hide Commits;
    if c.Current(t) {
      assert PhaseOk(c, c.tasks[t].phase);
      var d := Replied(c, t, final, citations, stored);
      if Commits(final, citations, stored) || !c.runtime {
        assert d.Current(t) && d.tasks[t].phase.Saving? && d.committing;
      } else {
        assert !d.committing;
        forall u ensures !d.Current(u) {}
      }
    } else {
      DroppedFlag(c, t);
    }
  }

  lemma FailedFlag(c: Conv, t: TaskId)
    requires Inv(c) && FlagTrue(c) && Possible(c, CallFails(t))
    ensures FlagTrue(ModelFailed(c, t))
  {
    if c.Current(t) { CancelledFlag(c, ModelFailed(c, t)); } else { DroppedFlag(c, t); }
  }

  lemma SavedFlag(c: Conv, t: TaskId, saved: bool)
    requires Inv(c) && FlagTrue(c) && Possible(c, SaveArrives(t, saved))
    ensures FlagTrue(SaveFinished(c, t, saved)) <==> !Overlaps(c, SaveArrives(t, saved))
  {
    var d := SaveFinished(c, t, saved);
    if c.Current(t) {
      forall u ensures !d.Current(u) {}
    } else {
      DroppedFlag(c, t);
      var e := Without(c, t);
      forall u ensures d.Current(u) == e.Current(u) {}
      assert SavingNow(d) <==> SavingNow(e);
    }
  }

  lemma SubmittedFlag(c: Conv, clean: Text, forced: bool, t: TaskId)
    requires Inv(c) && FlagTrue(c) && t !in c.tasks
    ensures FlagTrue(Submitted(c, clean, forced, t))
  {
  }

  lemma CancellingFlag(c: Conv, e: Event)
    requires Inv(c) && FlagTrue(c)
    requires e.Interrupt? || e.Pause? || e.RequestExit? || e.Close?
    ensures FlagTrue(Step(c, e))
  {
  }

  lemma ResettingFlag(c: Conv, e: Event)
    requires Inv(c) && FlagTrue(c) && (e.RecoverFailedTurn? || e.RevokeMemory?)
    ensures FlagTrue(Step(c, e))
  {
  }

  lemma QuietFlag(c: Conv, e: Event)
    requires FlagTrue(c) && Possible(c, e)
    requires e.Delta? || e.FinalText? || e.Resume? || e.ConfirmExit? || e.RestoreHistory?
    ensures FlagTrue(Step(c, e))
  {
  }

  /** The flag is lost by overlapping savers and by nothing else. */
  lemma FlagLostOnlyByOverlap(c: Conv, e: Event)
    requires Inv(c) && FlagTrue(c) && Possible(c, e)
    ensures FlagTrue(Step(c, e)) <==> !Overlaps(c, e)
  {
    hide Inv, FlagTrue, Cancelled, Submitted, Planned, Replied, ModelFailed, SaveFinished, Appended, Rewritten,
      Restored,
      Recovered, Revoked;
    match e
    case Submit(clean, forced, t) => SubmittedFlag(c, clean, forced, t);
    case PlanArrives(t, decision, retry, ack, started, answer) =>
      PlannedFlag(c, t, decision, retry, ack, started, answer);
    case ReplyArrives(t, final, citations, stored) => RepliedFlag(c, t, final, citations, stored);
    case CallFails(t) => FailedFlag(c, t);
    case SaveArrives(t, saved) => SavedFlag(c, t, saved);
    case Delta(_, _, _) => QuietFlag(c, e);
    case FinalText(_, _) => QuietFlag(c, e);
    case Resume => QuietFlag(c, e);
    case ConfirmExit(_) => QuietFlag(c, e);
    case RestoreHistory(_) => QuietFlag(c, e);
    case RecoverFailedTurn => ResettingFlag(c, e);
    case RevokeMemory => ResettingFlag(c, e);
    case _ => CancellingFlag(c, e);
  }

  ghost predicate Orderly(c: Conv, events: seq<Event>)
    requires ValidRun(c, events)
    decreases |events|
  {
    events == [] || (!Refuses(c, events[0]) && !Strands(c, events[0]) && !Overlaps(c, events[0])
                     && Orderly(Step(c, events[0]), events[1..]))
  }

  /** In a run without refused commits, over-long partial texts and overlapping savers, whatever
      is cancelled whenever, every durable answer in the history has the status the store gives
      it. */
  lemma {:induction false} OrderlyRunsStayFaithful(c: Conv, events: seq<Event>)
    requires Inv(c) && Faithful(c) && FlagTrue(c) && ValidRun(c, events) && Orderly(c, events)
    ensures Faithful(Run(c, events))
    decreases |events|
  {
    if events != [] {
      var e := events[0];
      assert !Copies(c, e);
      hide Inv, Possible, Step, Faithful, FlagTrue, Refuses, Strands, Overlaps, Copies;
      StepKeepsInv(c, e);
      FaithfulUnless(c, e);
      FlagLostOnlyByOverlap(c, e);
      OrderlyRunsStayFaithful(Step(c, e), events[1..]);
    }
  }

  /** The newest line calls interrupted what the store has committed. */
  predicate Forged(c: Conv, m: MessageId) {
    && c.history != []
    && var last := c.history[|c.history| - 1];
    last.status.EntryInterrupted? && last.answer == Some(m) && m in c.store && c.store[m].status.Committed?
  }

  lemma LateSaverForges(d: Conv)
    requires d.revision == 2 && 0 in d.tasks && d.tasks[0] == Task(1, Saving)
    requires d.AcceptsInput() && d.responseId.Some? && d.durable == Some(Durable(1, 1)) && d.partial != []
    requires 1 in d.store && d.store[1].status.Committed?
    ensures Possible(d, SaveArrives(0, true)) && Forged(Step(Step(d, SaveArrives(0, true)), Interrupt), 1)
  {
  }

  /** The flag can be lost: the saver of a first turn finishes while the second answer, already
      committed, is being saved; an interrupt then files a copy of it as interrupted. */
  lemma OverlapForgesAnInterruption()
    ensures exists events :: ValidRun(FRESH, events) && Forged(Run(FRESH, events), 1)
  {
    hide Run, ValidRun, Step, Forged;
    var first := TurnUpToSave(FRESH, 0, Durable(0, 0));
    var c := Run(FRESH, first);
    var second := TurnUpToSave(c, 1, Durable(1, 1));
    var d := Run(c, second);
    LateSaverForges(d);
    RunTwo(d, SaveArrives(0, true), Interrupt);
    hide Possible;
    Concatenate(c, second, [SaveArrives(0, true), Interrupt]);
    Concatenate(FRESH, first, second + [SaveArrives(0, true), Interrupt]);
  }
}
