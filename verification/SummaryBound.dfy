/** The claim bound of a summary job is exact: a run from the empty store claims one job 26 times. */
module SummaryBound {
  import opened Wrappers
  import opened SummaryJobs

  const ONE_MESSAGE := Session(Active, false, 1, 0, {1}, {1}, None)

  function WaitingJob(attempts: nat, deferrals: nat, code: Code, updated: nat): Job {
    Job(0, 1, 1, Failed, attempts, deferrals, 0, Some(code), 0, updated, None)
  }

  function RunningJob(attempts: nat, deferrals: nat, updated: nat): Job {
    Job(0, 1, 1, Running, attempts, deferrals, 0, None, 0, updated, None)
  }

  function With(j: Job): Db {
    Db(map[0 := ONE_MESSAGE], map[0 := j], map[], {})
  }

  lemma StartOfOneMessage()
    ensures ONE_MESSAGE.Start() == Some(1)
  {
  }

  /** A waiting job is next after the longest delay. */
  lemma ClaimWaiting(j: Job, at: nat)
    requires j.session == 0 && j.from == 1 && j.through == 1 && j.attempts < MAX_ATTEMPTS && !j.status.Running?
    requires j.status.Queued? || j.Retryable()
    requires j.updated + BUDGET_DELAY <= at
    ensures Possible(With(j), Claim(at, Some(0)))
    ensures Step(With(j), Claim(at, Some(0))) == With(Begun(j, at))
  {
    StartOfOneMessage();
    hide Session.Start, Session.Floor;
    var db := With(j);
    assert SweptJob(ONE_MESSAGE, j, at) == j;
    assert db.Home(0) == ONE_MESSAGE;
    assert Swept(db, at).jobs == db.jobs;
    assert Swept(db, at) == db;
    assert Eligible(db, 0, at);
    forall id | Eligible(db, id, at) ensures id == 0 {}
    assert IsNext(db, at, Some(0));
    assert !AnyRunning(db) by { forall id | id in db.jobs ensures !db.jobs[id].status.Running? {} }
    assert db.jobs[0 := Begun(j, at)] == map[0 := Begun(j, at)];
  }

  lemma DeferRunning(attempts: nat, deferrals: nat, updated: nat)
    requires attempts >= 1 && deferrals + 1 < MAX_DEFERRALS
    ensures Possible(With(RunningJob(attempts, deferrals, updated)), Defer(0, true, false, updated))
    ensures Step(With(RunningJob(attempts, deferrals, updated)), Defer(0, true, false, updated))
            == With(WaitingJob(attempts - 1, deferrals + 1, BudgetDeferred, updated))
  {
  }

  lemma FailRunning(attempts: nat, deferrals: nat, updated: nat)
    requires 1 <= attempts < MAX_ATTEMPTS
    ensures Possible(With(RunningJob(attempts, deferrals, updated)), Fail(0, ModelFailed, updated))
    ensures Step(With(RunningJob(attempts, deferrals, updated)), Fail(0, ModelFailed, updated))
            == With(WaitingJob(attempts, deferrals, ModelFailed, updated))
  {
  }

  lemma Prepend(db: Db, e: Event, events: seq<Event>, id: JobId)
    requires Possible(db, e) && ValidRun(Step(db, e), events)
    ensures ValidRun(db, [e] + events)
    ensures Claims(db, [e] + events, id)
            == (if e.Claim? && e.choice == Some(id) then 1 else 0) + Claims(Step(db, e), events, id)
  {
  }

  /** Claim, then settle: one more claim in front of what follows. */
  lemma Cycle(j: Job, at: nat, settle: Event, next: Db, rest: seq<Event>) returns (events: seq<Event>)
    requires j.session == 0 && j.from == 1 && j.through == 1 && j.attempts < MAX_ATTEMPTS && !j.status.Running?
    requires j.status.Queued? || j.Retryable()
    requires j.updated + BUDGET_DELAY <= at
    requires Possible(With(Begun(j, at)), settle) && !settle.Claim? && Step(With(Begun(j, at)), settle) == next
    requires ValidRun(next, rest)
    ensures ValidRun(With(j), events) && Claims(With(j), events, 0) == 1 + Claims(next, rest, 0)
  {
    ClaimWaiting(j, at);
    hide Possible, Step, With, Begun;
    Prepend(With(Begun(j, at)), settle, rest, 0);
    events := [settle] + rest;
    Prepend(With(j), Claim(at, Some(0)), events, 0);
    events := [Claim(at, Some(0))] + events;
  }

  lemma LastClaim(j: Job, at: nat) returns (events: seq<Event>)
    requires j.session == 0 && j.from == 1 && j.through == 1 && j.attempts < MAX_ATTEMPTS && j.Retryable()
    requires j.updated + BUDGET_DELAY <= at
    ensures ValidRun(With(j), events) && Claims(With(j), events, 0) == 1
  {
    ClaimWaiting(j, at);
    hide Step, Possible, With;
    var last := Step(With(j), Claim(at, Some(0)));
    assert ValidRun(last, []) && Claims(last, [], 0) == 0;
    Prepend(With(j), Claim(at, Some(0)), [], 0);
    events := [Claim(at, Some(0))] + [];
  }

  /** The last three claims: two failures are retried, the third claim may end any way. */
  lemma ThreeAttempts(attempts: nat, code: Code, updated: nat) returns (events: seq<Event>)
    requires attempts < MAX_ATTEMPTS && RetryCode(code)
    ensures ValidRun(With(WaitingJob(attempts, 23, code, updated)), events)
    ensures Claims(With(WaitingJob(attempts, 23, code, updated)), events, 0) == MAX_ATTEMPTS - attempts
    decreases MAX_ATTEMPTS - attempts
  {
    hide Step, Possible, With;
    var j, at := WaitingJob(attempts, 23, code, updated), updated + BUDGET_DELAY;
    if attempts + 1 < MAX_ATTEMPTS {
      assert Begun(j, at) == RunningJob(attempts + 1, 23, at);
      FailRunning(attempts + 1, 23, at);
      var rest := ThreeAttempts(attempts + 1, ModelFailed, at);
      events := Cycle(j, at, Fail(0, ModelFailed, at), With(WaitingJob(attempts + 1, 23, ModelFailed, at)), rest);
    } else {
      events := LastClaim(j, at);
    }
  }

  lemma Deferrals(deferrals: nat, updated: nat) returns (events: seq<Event>)
    requires deferrals <= 23
    ensures ValidRun(With(WaitingJob(0, deferrals, BudgetDeferred, updated)), events)
    ensures Claims(With(WaitingJob(0, deferrals, BudgetDeferred, updated)), events, 0) == 26 - deferrals
    decreases 23 - deferrals
  {
    if deferrals == 23 {
      events := ThreeAttempts(0, BudgetDeferred, updated);
    } else {
      var j, at := WaitingJob(0, deferrals, BudgetDeferred, updated), updated + BUDGET_DELAY;
      assert Begun(j, at) == RunningJob(1, deferrals, at);
      DeferRunning(1, deferrals, at);
      var rest := Deferrals(deferrals + 1, at);
      hide Step, Possible, With;
      events := Cycle(j, at, Defer(0, true, false, at), With(WaitingJob(0, deferrals + 1, BudgetDeferred, at)), rest);
    }
  }

  const NOTHING := Db(map[], map[], map[], {})

  lemma FirstJob()
    ensures Possible(NOTHING, CreateSession(0, false))
    ensures var a := Step(NOTHING, CreateSession(0, false));
            Possible(a, CommitUserMessage(0))
            && var b := Step(a, CommitUserMessage(0));
            && Possible(b, EnqueueRange(0, 1, 1, 0, 0))
            && Step(b, EnqueueRange(0, 1, 1, 0, 0)) == With(NewJob(0, 1, 1, 0, 0))
  {
    StartOfOneMessage();
    var a := Step(NOTHING, CreateSession(0, false));
    assert a == Db(map[0 := Session(Active, false, 0, 0, {}, {}, None)], map[], map[], {});
    var b := Step(a, CommitUserMessage(0));
    assert {} + {1} == {1};
    assert b == Db(map[0 := ONE_MESSAGE], map[], map[], {});
    assert map[][0 := NewJob(0, 1, 1, 0, 0)] == map[0 := NewJob(0, 1, 1, 0, 0)];
  }

  /** The bound of 26 claims is reached: 23 refusals by the budget that hand the attempt back,
      then three attempts. */
  lemma BoundIsReached()
    ensures exists events :: ValidRun(NOTHING, events) && Claims(NOTHING, events, 0) == 26
  {
    FirstJob();
    var j, at := NewJob(0, 1, 1, 0, 0), BUDGET_DELAY;
    assert Begun(j, at) == RunningJob(1, 0, at);
    DeferRunning(1, 0, at);
    var rest := Deferrals(1, at);
    var a := Step(NOTHING, CreateSession(0, false));
    var b := Step(a, CommitUserMessage(0));
    hide Step, Possible, With, NewJob;
    var events := Cycle(j, at, Defer(0, true, false, at), With(WaitingJob(0, 1, BudgetDeferred, at)), rest);
    Prepend(b, EnqueueRange(0, 1, 1, 0, 0), events, 0);
    Prepend(a, CommitUserMessage(0), [EnqueueRange(0, 1, 1, 0, 0)] + events, 0);
    Prepend(NOTHING, CreateSession(0, false), [CommitUserMessage(0)] + ([EnqueueRange(0, 1, 1, 0, 0)] + events), 0);
  }
}
