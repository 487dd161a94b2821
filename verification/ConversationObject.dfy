/** The conversation object itself: the same steps as statements over its fields. */
module ConversationObject {
  import opened AnswerLimits
  import opened Texts
  import opened Wrappers
  import opened ConversationTurns

  class Conversation {
    var state: State
    var revision: nat
    var pending: Text
    var partial: Text
    var responseId: Option<nat>
    var durable: Option<Durable>
    var committing: bool
    var work: bool
    var history: seq<Entry>
    var store: map<MessageId, Stored>
    var tasks: map<TaskId, Task>
    const runtime: bool
    ghost var orphans: set<MessageId>

    ghost function Contents(): Conv
      reads this
    {
      Conv(state, revision, pending, partial, responseId, durable, committing, work, history, store, tasks, runtime,
           orphans)
    }

    constructor (runtime: bool)
      ensures Contents() == FRESH.(runtime := runtime)
    {
      state, revision, pending, partial, responseId, durable := Listening, 0, [], [], None, None;
      committing, work, history, store, tasks := false, false, [], map[], map[];
      orphans := {};
      this.runtime := runtime;
    }

    function AcceptsInput(): (accepts: bool)
      reads this
      ensures accepts == Contents().AcceptsInput()
    {
      !state.Paused? && !state.ExitPending? && !state.Closed?
    }

    /** The durable checkpoint takes only a message that still streams, and only so much text. */
    method CheckpointAnswer(m: MessageId, content: Text) returns (ok: bool)
      modifies this`store
      ensures ok == (|content| <= MAX_ANSWER_UNITS && old(Contents()).Streams(m))
      ensures store == if ok then old(store)[m := old(store)[m].(content := content)] else old(store)
    {
      ok := |content| <= MAX_ANSWER_UNITS && m in store && store[m].status.Streaming?;
      if ok { store := store[m := store[m].(content := content)]; }
    }

    method InterruptAnswer(m: MessageId) returns (ok: bool)
      modifies this`store
      ensures ok == old(Contents()).Streams(m)
      ensures store == if ok then old(store)[m := old(store)[m].(status := ConversationTurns.Interrupted)]
                       else old(store)
    {
      ok := m in store && store[m].status.Streaming?;
      if ok { store := store[m := store[m].(status := ConversationTurns.Interrupted)]; }
    }

    /** Checkpoint what was said so far, then interrupt; a refusal ends the attempt, and may leave
        the message streaming. */
    method StopAnswer(m: MessageId)
      modifies this`store, this`orphans
      ensures store == if old(Contents()).Streams(m) && |partial| <= MAX_ANSWER_UNITS
                       then old(store)[m := Stored(old(store)[m].turn, ConversationTurns.Interrupted,
                                                   if partial != [] then partial else old(store)[m].content)]
                       else old(store)
      ensures orphans == old(orphans) + if old(Contents()).Streams(m) && |partial| > MAX_ANSWER_UNITS then {m} else {}
    {
      var saved := true;
      if partial != [] { saved := CheckpointAnswer(m, partial); }
      if saved {
        var stopped := InterruptAnswer(m);
      } else if m in store && store[m].status.Streaming? {
        orphans := orphans + {m};
      }
    }

    method CommitAnswer(m: MessageId, content: Text, citations: Option<Text>, stored: bool) returns (ok: bool)
      modifies this`store
      ensures ok == (Commits(content, citations, stored) && old(Contents()).Streams(m))
      ensures store == if ok then old(store)[m := Stored(old(store)[m].turn, Committed, Trim(content))] else old(store)
    {
      hide Trim, Utf8Length;
      ok := stored && Committable(content, citations) && m in store && store[m].status.Streaming?;
      if ok { store := store[m := Stored(store[m].turn, Committed, Trim(content))]; }
    }

    /** Interrupt the durable answer and file the partial text, unless a commit is under way. */
    method AbandonReply()
      modifies this`store, this`history, this`orphans, this`responseId, this`partial, this`durable, this`committing
      ensures Contents() == Abandoned(old(Contents()))
    {
      var wasCommitting := committing;
      committing := false;
      if durable.Some? && !wasCommitting { StopAnswer(durable.value.message); }
      if partial != [] && !wasCommitting {
        history := history + [Entry(AssistantRole, partial + InterruptedNote(), EntryInterrupted,
                                    if durable.Some? then Some(durable.value.message) else None)];
      }
      responseId, partial, durable := None, [], None;
    }

    method Cancel()
      modifies this
      ensures Contents() == Cancelled(old(Contents()))
    {
      hide Abandoned;
      revision := revision + 1;
      work := false;
      if responseId.Some? { AbandonReply(); }
    }

    method Interrupt()
      modifies this
      ensures Contents() == Step(old(Contents()), ConversationTurns.Interrupt)
    {
      hide Cancelled;
      if !AcceptsInput() { return; }
      Cancel();
      state := Listening;
    }

    method Pause()
      modifies this
      ensures Contents() == Pausing(old(Contents()))
    {
      hide Cancelled;
      if !AcceptsInput() { return; }
      Cancel();
      state := Paused;
    }

    method Resume()
      modifies this`state
      ensures Contents() == Step(old(Contents()), ConversationTurns.Resume)
    {
      if state.Paused? { state := Listening; }
    }

    method RequestExit()
      modifies this
      ensures Contents() == ExitRequested(old(Contents()))
    {
      hide Cancelled;
      if state.Closed? || state.ExitPending? { return; }
      Cancel();
      state := ExitPending;
    }

    method ConfirmExit(confirm: bool)
      modifies this`state
      ensures Contents() == Step(old(Contents()), ConversationTurns.ConfirmExit(confirm))
    {
      if !state.ExitPending? { return; }
      state := if confirm then Closed else Paused;
    }

    method Close()
      modifies this
      ensures Contents() == Step(old(Contents()), ConversationTurns.Close)
    {
      hide Cancelled;
      Cancel();
      state := Closed;
    }

    method RestoreHistory(entries: seq<Entry>) returns (restored: bool)
      modifies this
      ensures Contents() == Restored(old(Contents()), entries)
      ensures restored == (!old(work) && old(responseId).None? && !old(state).Closed? && |entries| <= MAX_RESTORED)
    {
      if work || responseId.Some? || state.Closed? { return false; }
      if |entries| > MAX_RESTORED { return false; }
      history, pending, state := entries, [], Listening;
      restored := true;
    }

    method RecoverFailedTurn()
      modifies this
      ensures Contents() == Recovered(old(Contents()))
    {
      hide Cancelled;
      Cancel();
      pending, partial, responseId, durable, committing := [], [], None, None, false;
      if !state.Closed? && !state.ExitPending? { state := Listening; }
    }

    method RevokeMemory()
      modifies this
      ensures Contents() == Revoked(old(Contents()))
    {
      hide Cancelled;
      partial, pending := [], [];
      Cancel();
      history := [];
      if state.Thinking? || state.Answering? { state := Listening; }
    }

    /** The part of a submission before its first await. */
    method Submit(clean: Text, forced: bool, t: TaskId)
      modifies this
      ensures Contents() == Submitted(old(Contents()), clean, forced, t)
    {
      hide Cancelled;
      if !AcceptsInput() { return; }
      if |clean| > MAX_INPUT || |pending| + |clean| > MAX_PENDING {
        Pause();
        return;
      }
      if clean != [] { pending := if pending == [] then clean else pending + NEWLINE + clean; }
      if pending == [] { return; }
      Cancel();
      work := true;
      state := Thinking;
      tasks := tasks[t := Task(revision, Planning(pending, forced))];
    }

    method FailTurn(t: TaskId)
      modifies this
      ensures Contents() == Without(FailedTurn(old(Contents())), t)
    {
      hide Cancelled;
      Cancel();
      state := Paused;
      tasks := tasks - {t};
    }

    method OpenReply(t: TaskId, started: bool, answer: Durable)
      requires t in tasks
      modifies this
      ensures Contents() == Opened(old(Contents()), t, started, answer)
    {
      hide Cancelled;
      responseId, partial := Some(revision), [];
      if runtime {
        if !started { FailTurn(t); return; }
        store := store[answer.message := Stored(answer.turn, Streaming, [])];
        durable := Some(answer);
      }
      state := Answering;
      tasks := tasks[t := tasks[t].(phase := Replying)];
    }

    /** Between the plan and the first await of the reply. */
    method PlanArrives(t: TaskId, decision: Decision, retry: bool, ack: UserAck, started: bool, answer: Durable)
      requires t in tasks && tasks[t].phase.Planning?
      modifies this
      ensures Contents() == Planned(old(Contents()), t, decision, retry, ack, started, answer)
    {
      hide Cancelled, Opened;
      var task := tasks[t];
      if task.revision != revision {
        tasks := tasks - {t};
        return;
      }
      if decision.Wait? && !task.phase.forced {
        tasks, state := tasks - {t}, Listening;
        return;
      }
      pending := [];
      if runtime {
        if ack.UserThrows? { FailTurn(t); return; }
        if ack.UserDuplicate? {
          tasks, state := tasks - {t}, Listening;
          return;
        }
      }
      history := history + [Entry(UserRole, UserText(task.phase.text, retry), EntryCommitted, None)];
      if decision.Exit? {
        RequestExit();
        tasks := tasks - {t};
        return;
      }
      OpenReply(t, started, answer);
    }

    /** A refused checkpoint is thrown out of the callback. */
    method Append(captured: nat, value: Text, checkpoint: bool) returns (threw: bool)
      modifies this
      ensures Contents() == Appended(old(Contents()), captured, value, checkpoint)
      ensures threw == (captured == old(revision) && checkpoint && durable.Some?
                        && (|partial| > MAX_ANSWER_UNITS || !old(Contents()).Streams(durable.value.message)))
    {
      if captured != revision { return false; }
      partial := partial + value;
      if durable.None? || !checkpoint { return false; }
      var ok := CheckpointAnswer(durable.value.message, partial);
      threw := !ok;
    }

    method FinalText(captured: nat, text: Text)
      modifies this`partial
      ensures Contents() == Rewritten(old(Contents()), captured, text)
    {
      if captured != revision { return; }
      partial := text;
    }

    /** Between the end of the reply and the asynchronous save. */
    method ReplyArrives(t: TaskId, final: Text, citations: Option<Text>, stored: bool)
      requires t in tasks
      modifies this
      ensures Contents() == Replied(old(Contents()), t, final, citations, stored)
    {
      hide Cancelled, Commits;
      if tasks[t].revision != revision {
        tasks := tasks - {t};
        return;
      }
      partial := final;
      history := history + [Entry(AssistantRole, partial, EntryCommitted,
                                  if durable.Some? then Some(durable.value.message) else None)];
      committing := true;
      if durable.Some? {
        var ok := CommitAnswer(durable.value.message, partial, citations, stored);
        if !ok {
          committing := false;
          FailTurn(t);
          return;
        }
      }
      tasks := tasks[t := tasks[t].(phase := Saving)];
    }

    method CallFails(t: TaskId)
      requires t in tasks
      modifies this
      ensures Contents() == ModelFailed(old(Contents()), t)
    {
      hide Cancelled;
      if tasks[t].revision != revision {
        tasks := tasks - {t};
        return;
      }
      FailTurn(t);
    }

    /** After the save: the flag goes down before the revision is compared. */
    method SaveArrives(t: TaskId, saved: bool)
      requires t in tasks
      modifies this
      ensures Contents() == SaveFinished(old(Contents()), t, saved)
    {
      committing := false;
      var captured := tasks[t].revision;
      tasks := tasks - {t};
      if captured != revision { return; }
      responseId, partial, durable := None, [], None;
      state := if saved then Listening else Paused;
    }
  }
}
