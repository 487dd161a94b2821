/** The rules of the summary queue in plain terms: which job goes first, how long a job rests, when one is queued, and
    what each call makes of a row. */
module SummaryRules {
  import opened SummaryJobs
  import opened Wrappers

  // ----- The oldest job goes first -----

  /** A claim starts the oldest of the jobs that are eligible after the sweep, by creation time and
      then by id. */
  lemma OldestIsClaimed(db: Db, at: nat, c: JobId, id: JobId)
    requires Possible(db, Claim(at, Some(c))) && !AnyRunning(db) && Eligible(Swept(db, at), id, at)
    ensures c in db.jobs && id in db.jobs
    ensures db.jobs[c].created < db.jobs[id].created || (db.jobs[c].created == db.jobs[id].created && c <= id)
    ensures Step(db, Claim(at, Some(c))).jobs[c].status.Running?
  {
    hide SweptJob, Session.Start, Session.Floor;
    SweptKeepsCreated(db, at, c);
    SweptKeepsCreated(db, at, id);
  }

  /** A job stays, with its creation time. */
  ghost predicate Keeps(db: Db, next: Db, id: JobId) {
    id in db.jobs ==> id in next.jobs && next.jobs[id].created == db.jobs[id].created
  }

  ghost predicate KeepsRow(db: Db, next: Db, id: JobId) {
    id in db.jobs ==> id in next.jobs && next.jobs[id] == db.jobs[id]
  }

  lemma ClaimKeepsCreated(db: Db, e: Event, id: JobId)
    requires Possible(db, e) && e.Claim?
    ensures Keeps(db, Step(db, e), id)
  {
    hide SweptJob, IsNext, AnyRunning;
    SweptKeepsCreated(db, e.at, id);
    if e.choice.Some? { SweptKeepsCreated(db, e.at, e.choice.value); }
  }

  lemma InsertedKeepsRow(db: Db, s: SessionId, from: int, through: int, at: nat, plan: Plan, id: JobId)
    requires (plan.top.Some? ==> plan.top.value in db.jobs) && plan.id !in db.jobs
    ensures var r := Inserted(db, s, from, through, at, plan); r.Ok? ==> KeepsRow(db, r.value, id)
  {
    hide Held, ClocksAfter, NextGeneration, Session.RangeAllowed;
  }

  lemma EnqueuedClosedKeepsRow(db: Db, s: SessionId, at: nat, plan: Plan, id: JobId)
    requires (plan.top.Some? ==> plan.top.value in db.jobs) && plan.id !in db.jobs
    ensures var r := EnqueuedClosed(db, s, at, plan); r.Ok? ==> KeepsRow(db, r.value, id)
  {
    hide Held, Inserted, HasBlocking, Session.Within;
    if s in db.sessions && plan.end.Some? {
      var session := db.sessions[s];
      var clocked := db.(clocks := ClocksAfter(db, session, plan.top, at));
      hide ClocksAfter;
      InsertedKeepsRow(clocked, s, session.through + 1, plan.end.value, at, plan, id);
    }
  }

  lemma NotQueued(db: Db, s: SessionId, at: nat, plan: Plan)
    requires (plan.top.Some? ==> plan.top.value in db.jobs) && s !in db.sessions
    ensures EnqueuedClosed(db, s, at, plan) == Ok(db)
  {
  }

  /** Events that queue work keep the creation times of what is there. */
  lemma QueueingKeepsCreated(db: Db, e: Event, id: JobId)
    requires Possible(db, e) && (e.Finish? || e.ScheduleActive? || e.EnqueueClosed? || e.Complete? || e.Rebatch?)
    ensures Keeps(db, Step(db, e), id)
  {
    hide Held, Inserted, EnqueuedClosed, HasBlocking, Session.Start, Session.RangeAllowed, Session.Within, IsTop, Nth,
      PlannedRows;
    match e
    case Finish(s, status, at, plan) =>
      if s in db.sessions { EnqueuedClosedKeepsRow(Closed(db, s, status, at), s, at, plan, id); }
    case ScheduleActive(s, _, keepRecent, maxMessages, at, batch, plan) =>
      if s in db.sessions && db.sessions[s].Start().Some? {
        var start := db.sessions[s].Start().value;
        forall end: int | batch(end).Some?
          ensures var r := Inserted(db, s, start, batch(end).value, at, plan); r.Ok? ==> KeepsRow(db, r.value, id)
        {
          InsertedKeepsRow(db, s, start, batch(end).value, at, plan, id);
        }
      }
    case EnqueueClosed(s, at, plan) =>
      if s in db.sessions { EnqueuedClosedKeepsRow(db, s, at, plan, id); } else { NotQueued(db, s, at, plan); }
    case Complete(job, through, at, plan) =>
      if Completable(db, job, through) {
        EnqueuedClosedKeepsRow(Covered(db, job, at), db.jobs[job].session, at, plan, id);
      }
    case Rebatch(job, through, at, plan) =>
      if Rebatchable(db, job, through) {
        InsertedKeepsRow(SplitOff(db, job, at), db.jobs[job].session, db.jobs[job].from, through, at, plan, id);
      }
  }

  lemma StepKeepsCreated(db: Db, e: Event, id: JobId)
    requires Possible(db, e)
    ensures Keeps(db, Step(db, e), id)
  {
    if e.Claim? {
      ClaimKeepsCreated(db, e, id);
    } else if e.Finish? || e.ScheduleActive? || e.EnqueueClosed? || e.Complete? || e.Rebatch? {
      QueueingKeepsCreated(db, e, id);
    } else {
      hide HasBlocking, Session.Start, Session.Floor, Session.RangeAllowed, Session.Within, GoodPlan, Claimed,
        Scheduled, EnqueuedClosed, CompletedSummary, RebatchedTo, Finished;
    }
  }

  /** In the run, no claim that finds `id` eligible starts a job created after `since`, or at that
      time under a greater id. */
  ghost predicate NeverOvertaken(db: Db, events: seq<Event>, id: JobId, since: nat)
    requires ValidRun(db, events)
    decreases |events|
  {
    events == [] ||
    (var e := events[0];
     && (e.Claim? && e.choice.Some? && !AnyRunning(db) && Eligible(Swept(db, e.at), id, e.at) ==>
           && e.choice.value in db.jobs
           && var created := db.jobs[e.choice.value].created;
           created < since || (created == since && e.choice.value <= id))
     && NeverOvertaken(Step(db, e), events[1..], id, since))
  }

  /** From its creation on, whatever else is queued, fails, is forgotten or restarted: no job that was
      created later is claimed while a job is eligible. */
  lemma {:induction false} LaterJobsDoNotOvertake(db: Db, events: seq<Event>, id: JobId)
    requires ValidRun(db, events) && id in db.jobs
    ensures NeverOvertaken(db, events, id, db.jobs[id].created)
    decreases |events|
  {
    hide Step, Possible, Eligible, AnyRunning, Swept;
    if events != [] {
      var e := events[0];
      if e.Claim? && e.choice.Some? && !AnyRunning(db) && Eligible(Swept(db, e.at), id, e.at) {
        OldestIsClaimed(db, e.at, e.choice.value, id);
      }
      StepKeepsCreated(db, e, id);
      LaterJobsDoNotOvertake(Step(db, e), events[1..], id);
    }
  }

  // ----- When a job may run -----

  /** The codes after which a failed job is tried again. */
  predicate WaitsToRetry(j: Job) {
    j.status == Failed
    && (j.error == Some(ModelFailed) || j.error == Some(SchemaInvalid) || j.error == Some(BudgetDeferred))
  }

  /** How long it rests: five minutes when its outcome is unknown, fifteen when the budget refused it, half a
      minute after the first failure and two minutes after the second. */
  function Rest(j: Job): nat {
    if j.status == Unknown then 5 * 60_000
    else if j.error == Some(BudgetDeferred) then 15 * 60_000
    else if j.attempts <= 1 then 30_000 else 2 * 60_000
  }

  /** The sweep before a claim, row by row: open work whose range is no longer the next one fails, an unknown
      outcome after three attempts is given up, and a clock more than fifteen minutes ahead is set back. */
  lemma SweepIs(db: Db, at: nat, id: JobId)
    requires id in db.jobs
    ensures Swept(db, at).sessions == db.sessions && Swept(db, at).jobs.Keys == db.jobs.Keys
    ensures var j, k, session := db.jobs[id], Swept(db, at).jobs[id], db.Home(db.jobs[id].session);
            var open := j.status == Queued || j.status == Unknown || WaitsToRetry(j);
            var moved := (session.Start().Some? && session.Start().value != j.from) || session.latest < j.through;
            && (open && moved ==>
                  k == j.(status := Failed, error := Some(RangeInvalid),
                          updated := if j.updated < at then at else j.updated))
            && (j.status == Unknown && !moved && j.attempts >= 3 ==>
                  k == j.(status := Failed, error := Some(GaveUp),
                          terminal := if j.terminal == None then Some(session.latest) else j.terminal))
            && ((j.status == Unknown || WaitsToRetry(j)) && !moved && j.attempts < 3 ==>
                  k == j.(updated := if j.updated > at + 15 * 60_000 then at else j.updated))
            && (j.status == Running || j.status == Completed || (j.status == Queued && !moved) ==> k == j)
            && (j.status == Failed && (!WaitsToRetry(j) || (!moved && j.attempts >= 3)) ==> k == j)
  {
    hide Session.Start;
  }

  /** A job may be claimed if and only if its session is live or nothing of it was forgotten, its range is the next
      one to be covered, and it is new or has rested. */
  lemma MayBeClaimedIff(db: Db, at: nat, id: JobId)
    requires id in db.jobs && db.jobs[id].updated <= at + 15 * 60_000
    ensures var j, session := db.jobs[id], db.Home(db.jobs[id].session);
            Eligible(Swept(db, at), id, at) <==>
              && (session.marker == None || session.status == Active || session.status == Idle)
              && session.Start() == Some(j.from) && j.through <= session.latest
              && (|| j.status == Queued
                  || ((j.status == Unknown || WaitsToRetry(j)) && j.attempts < 3 && j.updated + Rest(j) <= at))
  {
    hide Session.Start;
    SweepIs(db, at, id);
    hide Swept;
  }

  predicate ClaimOf(e: Event, id: JobId) {
    e.Claim? && e.choice == Some(id)
  }

  predicate NotBefore(e: Event, t: nat) {
    match e
    case Finish(_, _, at, _) => t <= at
    case ScheduleActive(_, _, _, _, at, _, _) => t <= at
    case EnqueueRange(_, _, _, at, _) => t <= at
    case EnqueueClosed(_, at, _) => t <= at
    case Claim(at, _) => t <= at
    case Complete(_, _, at, _) => t <= at
    case Fail(_, _, at) => t <= at
    case Defer(_, _, _, at) => t <= at
    case Rebatch(_, _, at, _) => t <= at
    case Forget(_, at) => t <= at
    case Restart(at) => t <= at
    case _ => true
  }

  /** A job that rests as it was, or that no claim will ever take again. */
  ghost predicate RestsOrIsOver(db: Db, id: JobId, j: Job) {
    id in db.jobs && (db.jobs[id] == j || !db.jobs[id].Blocking())
  }

  lemma ClaimKeepsRest(db: Db, e: Event, id: JobId, j: Job)
    requires Possible(db, e) && e.Claim? && !ClaimOf(e, id) && j.updated <= e.at && RestsOrIsOver(db, id, j)
    requires j.status == Unknown || WaitsToRetry(j)
    ensures RestsOrIsOver(Step(db, e), id, j)
  {
    hide IsNext;
    SweepIs(db, e.at, id);
    hide Swept;
  }

  lemma QueueingKeepsRest(db: Db, e: Event, id: JobId, j: Job)
    requires Possible(db, e) && RestsOrIsOver(db, id, j) && (j.status == Unknown || WaitsToRetry(j))
    requires e.Finish? || e.ScheduleActive? || e.EnqueueClosed? || e.Complete? || e.Rebatch?
    ensures RestsOrIsOver(Step(db, e), id, j)
  {
    hide Held, Inserted, EnqueuedClosed, HasBlocking, Session.Start, Session.RangeAllowed, Session.Within, IsTop, Nth,
      PlannedRows;
    match e
    case Finish(s, status, at, plan) =>
      if s in db.sessions { EnqueuedClosedKeepsRow(Closed(db, s, status, at), s, at, plan, id); }
    case ScheduleActive(s, _, keepRecent, maxMessages, at, batch, plan) =>
      if s in db.sessions && db.sessions[s].Start().Some? {
        var start := db.sessions[s].Start().value;
        forall end: int | batch(end).Some?
          ensures var r := Inserted(db, s, start, batch(end).value, at, plan); r.Ok? ==> KeepsRow(db, r.value, id)
        {
          InsertedKeepsRow(db, s, start, batch(end).value, at, plan, id);
        }
      }
    case EnqueueClosed(s, at, plan) =>
      if s in db.sessions { EnqueuedClosedKeepsRow(db, s, at, plan, id); } else { NotQueued(db, s, at, plan); }
    case Complete(job, through, at, plan) =>
      if Completable(db, job, through) {
        EnqueuedClosedKeepsRow(Covered(db, job, at), db.jobs[job].session, at, plan, id);
      }
    case Rebatch(job, through, at, plan) =>
      if Rebatchable(db, job, through) {
        InsertedKeepsRow(SplitOff(db, job, at), db.jobs[job].session, db.jobs[job].from, through, at, plan, id);
      }
  }

  lemma StepKeepsRest(db: Db, e: Event, id: JobId, j: Job)
    requires Possible(db, e) && NotBefore(e, j.updated) && !ClaimOf(e, id) && RestsOrIsOver(db, id, j)
    requires j.status == Unknown || WaitsToRetry(j)
    ensures RestsOrIsOver(Step(db, e), id, j)
  {
    if e.Claim? {
      ClaimKeepsRest(db, e, id, j);
    } else if e.Finish? || e.ScheduleActive? || e.EnqueueClosed? || e.Complete? || e.Rebatch? {
      QueueingKeepsRest(db, e, id, j);
    } else {
      hide HasBlocking, Session.Start, Session.Floor, Session.RangeAllowed, Session.Within, GoodPlan, Claimed,
        Scheduled, EnqueuedClosed, CompletedSummary, RebatchedTo, Finished;
    }
  }

  lemma {:induction false} RunKeepsRest(db: Db, events: seq<Event>, id: JobId, j: Job)
    requires ValidRun(db, events) && RestsOrIsOver(db, id, j) && (j.status == Unknown || WaitsToRetry(j))
    requires forall e :: e in events ==> NotBefore(e, j.updated) && !ClaimOf(e, id)
    ensures RestsOrIsOver(Run(db, events), id, j)
    decreases |events|
  {
    hide Step, Possible, RestsOrIsOver, NotBefore, ClaimOf;
    if events != [] {
      assert events[0] in events;
      StepKeepsRest(db, events[0], id, j);
      RunKeepsRest(Step(db, events[0]), events[1..], id, j);
    }
  }

  lemma ClaimNeedsRest(db: Db, id: JobId, j: Job, at: nat)
    requires RestsOrIsOver(db, id, j) && (j.status == Unknown || WaitsToRetry(j)) && j.updated <= at
    requires Possible(db, Claim(at, Some(id)))
    ensures !AnyRunning(db) && db.jobs[id] == j && j.attempts < 3 && j.updated + Rest(j) <= at
  {
    assert Eligible(Swept(db, at), id, at);
    SweepIs(db, at, id);
    if db.jobs[id] == j { MayBeClaimedIff(db, at, id); }
    hide Swept, SweptJob, Session.Start;
  }

  /** Backing off: whatever happens in between, as long as no clock runs before it, a job whose attempt failed,
      whose outcome is unknown or that the budget refused is not claimed again before it has rested, and after
      three attempts it is not claimed at all. */
  lemma ClaimWaits(db: Db, events: seq<Event>, id: JobId, later: nat)
    requires ValidRun(db, events) && id in db.jobs && (db.jobs[id].status == Unknown || WaitsToRetry(db.jobs[id]))
    requires forall e :: e in events ==> NotBefore(e, db.jobs[id].updated) && !ClaimOf(e, id)
    requires db.jobs[id].updated <= later && Possible(Run(db, events), Claim(later, Some(id)))
    ensures db.jobs[id].attempts < 3 && db.jobs[id].updated + Rest(db.jobs[id]) <= later
  {
    hide Possible, Run, ValidRun, NotBefore, ClaimOf, Rest;
    RunKeepsRest(db, events, id, db.jobs[id]);
    ClaimNeedsRest(Run(db, events), id, db.jobs[id], later);
  }

  /** A failure the job may be tried again after is final at the third attempt; a final one is anchored at the
      latest message. */
  lemma FailingIs(db: Db, id: JobId, code: Code, at: nat)
    requires id in db.jobs && db.jobs[id].status == Running
    ensures var j := db.jobs[id];
            var retry := code == ModelFailed || code == SchemaInvalid || code == BudgetDeferred;
            var failure := if retry && j.attempts >= 3 then GaveUp else code;
            Step(db, Fail(id, code, at)) == db.(jobs := db.jobs[id := j.(status := Failed, error := Some(failure),
              updated := if j.updated < at then at else j.updated,
              terminal := if failure in {GaveUp, BudgetGaveUp, InputLimit} && j.terminal == None
                          then Some(db.Home(j.session).latest) else j.terminal)])
  {
  }

  /** The budget's refusal counts as a deferral, of which the twenty-fourth is final, and hands the attempt back
      unless a call was made. */
  lemma DeferringIs(db: Db, id: JobId, consumed: bool, at: nat)
    requires id in db.jobs && db.jobs[id].status == Running && db.jobs[id].attempts >= 1
    ensures var j := db.jobs[id];
            var refusal := if consumed && j.attempts >= 3 then GaveUp
                           else if j.deferrals >= 23 then BudgetGaveUp else BudgetDeferred;
            Step(db, Defer(id, true, consumed, at)) == db.(jobs := db.jobs[id := j.(status := Failed,
              error := Some(refusal), updated := if j.updated < at then at else j.updated,
              deferrals := j.deferrals + 1, attempts := if consumed then j.attempts else j.attempts - 1,
              terminal := if refusal != BudgetDeferred && j.terminal == None
                          then Some(db.Home(j.session).latest) else j.terminal)])
  {
  }

  /** A shutdown and a restart leave the outcome of the running job unknown. */
  lemma StoppingIs(db: Db, id: JobId, consumed: bool, at: nat)
    requires id in db.jobs && db.jobs[id].status == Running
    ensures var j := db.jobs[id];
            var stopped := j.(status := Unknown, updated := if j.updated < at then at else j.updated);
            && Step(db, Defer(id, false, consumed, at))
               == db.(jobs := db.jobs[id := stopped.(error := Some(ShutdownUnknown))])
            && id in Step(db, Restart(at)).jobs
            && Step(db, Restart(at)).jobs[id] == stopped.(error := Some(RestartUnknown))
  {
  }

  /** A restart touches the status of active sessions and the running jobs, and nothing else. */
  lemma RestartIs(db: Db, at: nat)
    ensures var next := Step(db, Restart(at));
            && next.clocks == db.clocks && next.summaries == db.summaries
            && next.sessions.Keys == db.sessions.Keys && next.jobs.Keys == db.jobs.Keys
            && (forall s :: s in db.sessions ==>
                  next.sessions[s] == if db.sessions[s].status == Active then db.sessions[s].(status := Idle)
                                      else db.sessions[s])
            && (forall id :: id in db.jobs && db.jobs[id].status != Running ==> next.jobs[id] == db.jobs[id])
  {
  }

  /** A claim spends an attempt and starts the job; nothing else changes but the sweep. */
  lemma ClaimIs(db: Db, at: nat, id: JobId)
    requires Possible(db, Claim(at, Some(id)))
    ensures id in db.jobs && !AnyRunning(db)
    ensures var swept, next := Swept(db, at), Step(db, Claim(at, Some(id)));
            && next.sessions == db.sessions && next.clocks == db.clocks && next.summaries == db.summaries
            && next.jobs.Keys == db.jobs.Keys
            && (forall k :: k in db.jobs && k != id ==> next.jobs[k] == swept.jobs[k])
            && next.jobs[id] == swept.jobs[id].(status := Running, error := None,
                 attempts := swept.jobs[id].attempts + 1,
                 updated := if swept.jobs[id].updated < at then at else swept.jobs[id].updated)
  {
    hide SweptJob, Eligible;
  }

  // ----- When a job is queued -----

  /** The clock of a closed session's recovery: it starts when the job was given up, is kept, and is set back when
      it is more than fifteen minutes ahead. */
  function RecoveryClock(db: Db, top: JobId, at: nat): nat
    requires top in db.jobs
  {
    var clock := if top in db.clocks then db.clocks[top] else db.jobs[top].updated;
    if clock > at + 15 * 60_000 then at else clock
  }

  /** A range that was given up twice more stays closed. Before that, an active session tries it again after sixty
      more committed messages; a closed one an hour after it was given up, and never when it was too large. When it
      was the budget that gave up, the budget must allow it. */
  lemma GateIs(db: Db, s: SessionId, session: Session, top: JobId, at: nat, budget: bool)
    requires top in db.jobs && db.jobs[top].Terminal() && db.jobs[top].terminal.Some?
    ensures !Held(db, session, None, at, budget)
    ensures var j := db.jobs[top];
            var live := session.status == Active || session.status == Idle;
            var since := set c | c in session.committed && c > j.terminal.value;
            && (Held(db, session, Some(top), at, budget) <==>
                  || j.generation >= 2
                  || (j.error == Some(BudgetGaveUp) && !budget)
                  || (live && |since| < 60)
                  || (!live && j.error == Some(InputLimit))
                  || (!live && j.error == Some(GaveUp) && at < RecoveryClock(db, top, at) + 60 * 60_000))
            && ClocksAfter(db, session, Some(top), at)
               == if j.generation < 2 && !live && j.error == Some(GaveUp)
                  then db.clocks[top := RecoveryClock(db, top, at)] else db.clocks
  {
    var j := db.jobs[top];
    assert (set c | c in session.committed && c > j.terminal.Or(0))
        == (set c | c in session.committed && c > j.terminal.value);
  }

  predicate InTheWay(j: Job, s: SessionId) {
    j.session == s
    && (j.status == Queued || j.status == Running || j.status == Unknown || (WaitsToRetry(j) && j.attempts < 3))
  }

  lemma NothingInTheWay(db: Db, s: SessionId)
    ensures HasBlocking(db, s) <==> exists id :: id in db.jobs && InTheWay(db.jobs[id], s)
  {
    forall id | id in db.jobs
      ensures InTheWay(db.jobs[id], s) <==> db.jobs[id].session == s && db.jobs[id].Blocking()
    {
    }
  }

  ghost predicate SameJob(db: Db, id: JobId, s: SessionId, from: int, through: int, generation: nat) {
    id in db.jobs && db.jobs[id].session == s && db.jobs[id].from == from && db.jobs[id].through == through
    && db.jobs[id].generation == generation
  }

  lemma SameJobIs(db: Db, s: SessionId, from: int, through: int, generation: nat)
    ensures (exists id :: SameJob(db, id, s, from, through, generation))
            <==> (exists id :: KeyAt(db, id, s, from, through) && db.jobs[id].generation == generation)
  {
    forall id ensures SameJob(db, id, s, from, through, generation)
                      <==> KeyAt(db, id, s, from, through) && db.jobs[id].generation == generation
    {
    }
  }

  lemma SameRangeIs(db: Db, s: SessionId, from: int, through: int)
    ensures (exists id, g :: SameJob(db, id, s, from, through, g)) <==> (exists id :: KeyAt(db, id, s, from, through))
  {
    forall id, g | SameJob(db, id, s, from, through, g) ensures KeyAt(db, id, s, from, through) {}
    forall id | KeyAt(db, id, s, from, through)
      ensures SameJob(db, id, s, from, through, db.jobs[id].generation)
    {
    }
  }

  lemma SplitKeepsKeys(db: Db, job: JobId, at: nat, s: SessionId, from: int, through: int, generation: nat)
    requires job in db.jobs
    ensures (exists id :: SameJob(SplitOff(db, job, at), id, s, from, through, generation))
            <==> (exists id :: SameJob(db, id, s, from, through, generation))
  {
    forall id ensures SameJob(SplitOff(db, job, at), id, s, from, through, generation)
                      <==> SameJob(db, id, s, from, through, generation)
    {
    }
  }

  /** A range of a session with a forget marker may be summarised only while the session is live, and only from the
      first question after the marker on. */
  lemma RangeAllowedIff(session: Session, from: int)
    ensures session.RangeAllowed(from) <==>
              || session.marker == None
              || ((session.status == Active || session.status == Idle)
                  && exists u :: u in session.users && session.marker.value < u <= from)
  {
    if session.marker.Some? {
      if session.AfterMarker() != {} {
        assert session.Floor().value in session.AfterMarker();
        assert session.Floor().value in session.users;
      }
      forall u | u in session.users && session.marker.value < u
        ensures session.Floor().Some? && session.Floor().value <= u
      {
        assert u in session.AfterMarker();
      }
    }
  }

  /** The row the gate looks at is the given-up one of the range's start with the highest generation, then the
      latest anchor; without one the gate is open. */
  lemma GateRowIs(db: Db, s: SessionId, from: int, top: Option<JobId>, id: JobId)
    requires IsTop(db, s, from, top)
    ensures var given := id in db.jobs && db.jobs[id].session == s && db.jobs[id].from == from
                         && db.jobs[id].status == Failed
                         && db.jobs[id].error in {Some(GaveUp), Some(BudgetGaveUp), Some(InputLimit)};
            && (top == None ==> !given)
            && (top == Some(id) ==> given)
            && (top.Some? ==> top.value in db.jobs)
            && (top.Some? && given ==>
                  var j, t := db.jobs[id], db.jobs[top.value];
                  j.generation < t.generation
                  || (j.generation == t.generation && j.terminal.Or(0) <= t.terminal.Or(0)))
  {
    assert TerminalAt(db, id, s, from) || !TerminalAt(db, id, s, from);
  }

  function Generation(db: Db, plan: Plan): nat
    requires plan.top.Some? ==> plan.top.value in db.jobs
  {
    if plan.top == None then 0 else db.jobs[plan.top.value].generation + 1
  }

  /** Looking at the gate twice at one time gives the same answer. */
  lemma HeldTwice(db: Db, session: Session, top: Option<JobId>, at: nat, budget: bool)
    requires top.Some? ==> top.value in db.jobs
    ensures var clocked := db.(clocks := ClocksAfter(db, session, top, at));
            && Held(clocked, session, top, at, budget) == Held(db, session, top, at, budget)
            && ClocksAfter(clocked, session, top, at) == clocked.clocks
  {
  }

  lemma KeysTwice(db: Db, other: Db, s: SessionId, from: int, through: int, generation: nat)
    requires other.jobs == db.jobs
    ensures (exists id :: KeyAt(other, id, s, from, through) && other.jobs[id].generation == generation)
            <==> (exists id :: KeyAt(db, id, s, from, through) && db.jobs[id].generation == generation)
  {
  }

  /** A closed session gets a job for everything after its pointer if and only if it is the owner's, nothing of it
      was forgotten, nothing else of it is open, the gate lets it through, at least six messages are left, the
      planner found a batch, and that very job was not there already. */
  lemma ClosedSessionQueuesIff(db: Db, s: SessionId, at: nat, plan: Plan)
    requires Possible(db, EnqueueClosed(s, at, plan)) && s in db.sessions
    ensures var session, next := db.sessions[s], Step(db, EnqueueClosed(s, at, plan));
            var start := session.through + 1;
            && plan.id !in db.jobs && (plan.top.Some? ==> plan.top.value in db.jobs)
            && (plan.id in next.jobs <==>
                  && (session.status == Ended || session.status == Expired) && !session.guest && session.marker == None
                  && !HasBlocking(db, s) && !Held(db, session, plan.top, at, plan.budget)
                  && |session.Within(start, session.latest)| >= 6 && plan.end.Some?
                  && !exists id :: SameJob(db, id, s, start, plan.end.value, Generation(db, plan)))
            && (plan.id in next.jobs ==>
                  next.jobs == db.jobs[plan.id := Job(s, start, plan.end.value, Queued, 0, 0, Generation(db, plan),
                                                      None, at, at, None)])
  {
    hide ClocksAfter, Held, HasBlocking, Session.Within;
    var session := db.sessions[s];
    var clocked := db.(clocks := ClocksAfter(db, session, plan.top, at));
    HeldTwice(db, session, plan.top, at, plan.budget);
    if plan.end.Some? {
      KeysTwice(db, clocked, s, session.through + 1, plan.end.value, Generation(db, plan));
      SameJobIs(db, s, session.through + 1, plan.end.value, Generation(db, plan));
    }
    hide IsTop, KeyAt, SameJob;
  }

  lemma StartIsAllowed(session: Session, start: int)
    requires session.Start() == Some(start) && (session.status == Active || session.status == Idle)
    ensures session.RangeAllowed(start)
  {
  }

  /** An active session gets a job from its next uncovered message on if and only if nothing else of it is open, the
      gate lets it through, the threshold is reached, something is left beside the recent messages, and the planner
      found a batch before the last message that may go in. */
  lemma ActiveSessionQueuesIff(db: Db, e: Event, start: int, rows: int, n: int, end: int)
    requires e.ScheduleActive? && Possible(db, e) && e.s in db.sessions && db.sessions[e.s].Start() == Some(start)
    requires var all := |db.sessions[e.s].Within(start, db.sessions[e.s].latest)|;
             rows == (if all <= 500 then all else 500)
    requires n == (if rows - e.keepRecent <= e.maxMessages then rows - e.keepRecent else e.maxMessages)
    requires 1 <= n ==> IsNth(db.sessions[e.s], start, n, end)
    ensures var session, next, plan := db.sessions[e.s], Step(db, e), e.plan;
            && plan.id !in db.jobs && (plan.top.Some? ==> plan.top.value in db.jobs)
            && (plan.id in next.jobs <==>
                  && (session.status == Active || session.status == Idle)
                  && !HasBlocking(db, e.s) && !Held(db, session, plan.top, e.at, plan.budget)
                  && e.threshold <= rows && 1 <= n && e.maxMessages <= 500 && e.batch(end).Some?
                  && !exists id :: SameJob(db, id, e.s, start, e.batch(end).value, Generation(db, plan)))
            && (plan.id in next.jobs ==>
                  next.jobs == db.jobs[plan.id := Job(e.s, start, e.batch(end).value, Queued, 0, 0,
                                                      Generation(db, plan), None, e.at, e.at, None)])
  {
    hide ClocksAfter, Held, HasBlocking, Session.Within, Session.Start, Session.RangeAllowed, IsTop, KeyAt, GoodBatch;
    var session := db.sessions[e.s];
    if session.Live() { StartIsAllowed(session, start); }
    if 1 <= n { NthIsUnique(session, start, n, end, Nth(session, start, n)); }
    if e.batch(end).Some? { SameJobIs(db, e.s, start, e.batch(end).value, Generation(db, e.plan)); }
    hide IsNth, SameJob;
  }

  lemma StartsAfterPointer(session: Session, from: int)
    requires session.Start() == Some(from)
    ensures session.through < from
    ensures session.RangeAllowed(from) <==> session.marker == None || session.status == Active || session.status == Idle
  {
  }

  lemma CoveredOnly(db: Db, id: JobId, through: int, at: nat, plan: Plan)
    requires Completable(db, id, through) && Possible(db, Complete(id, through, at, plan))
    requires db.jobs[id].session in db.sessions
    requires db.sessions[db.jobs[id].session].through < db.jobs[id].from <= through
    ensures plan.top.Some? ==> plan.top.value in db.jobs
    ensures var r, j := EnqueuedClosed(Covered(db, id, at), db.jobs[id].session, at, plan), db.jobs[id];
            && (r.Err? ==> r.error == BatchFailed)
            && (r.Ok? ==>
                  && r.value.sessions == db.sessions[j.session := db.sessions[j.session].(through := through)]
                  && r.value.summaries == db.summaries + {(j.session, through)}
                  && id in r.value.jobs && r.value.jobs[id] == j.(status := Completed, error := None,
                                                                  updated := if j.updated < at then at else j.updated))
  {
    hide IsTop, Held, HasBlocking, ClocksAfter, Session.Within, Session.Start, KeyAt;
    EnqueuedClosedKeepsRow(Covered(db, id, at), db.jobs[id].session, at, plan, id);
  }

  /** A summary is taken exactly for the running job of the next range, ending where the job ends, at a committed
      message and with at most 500 of them; the pointer then moves to the end of the range. */
  lemma CompletingIs(db: Db, id: JobId, through: int, at: nat, plan: Plan)
    requires Inv(db) && Possible(db, Complete(id, through, at, plan))
    ensures var r := Outcome(db, Complete(id, through, at, plan));
            && (r.Ok? || r == Err(BatchFailed) <==>
                  && id in db.jobs && db.jobs[id].status == Running && db.jobs[id].through == through
                  && var session := db.sessions[db.jobs[id].session];
                  && (session.marker == None || session.status == Active || session.status == Idle)
                  && session.Start() == Some(db.jobs[id].from) && through in session.committed
                  && |session.Within(db.jobs[id].from, through)| <= 500)
            && (r.Err? && r.error != BatchFailed ==>
                  r.error == if id !in db.jobs then Unavailable
                             else if !db.Home(db.jobs[id].session).RangeAllowed(db.jobs[id].from) then RangeForgotten
                             else if db.jobs[id].status != Running || db.jobs[id].through != through then Unavailable
                             else RangeUnavailable)
            && (r.Ok? ==>
                  var j, next := db.jobs[id], r.value;
                  && next.sessions == db.sessions[j.session := db.sessions[j.session].(through := through)]
                  && next.summaries == db.summaries + {(j.session, through)}
                  && id in next.jobs && next.jobs[id] == j.(status := Completed, error := None,
                                                            updated := if j.updated < at then at else j.updated))
  {
    hide Coverage, OneRunning, OneBlocking, KeysUnique, EnqueuedClosed, Session.Within, IsTop;
    if id in db.jobs {
      assert db.jobs[id].Ok() && db.jobs[id].session in db.sessions;
      var session := db.sessions[db.jobs[id].session];
      assert session.Ok();
      if session.Start() == Some(db.jobs[id].from) { StartsAfterPointer(session, db.jobs[id].from); }
      hide Inv, Session.Start;
      if Completable(db, id, through) { CoveredOnly(db, id, through, at, plan); }
    }
  }

  /** The next sequence to cover comes after the pointer, and after a forgetting not before the first question asked
      since; until there is one, nothing is covered. */
  lemma NextToCover(session: Session, u: int)
    ensures session.marker == None ==> session.Start() == Some(session.through + 1)
    ensures && session.marker.Some? && u in session.users && session.marker.value < u
            && (forall v :: v in session.users && session.marker.value < v ==> u <= v)
            ==>
              session.Start() == Some(if u <= session.through then session.through + 1 else u)
    ensures session.marker.Some? && (forall v :: v in session.users ==> v <= session.marker.value) ==>
              session.Start() == None
  {
    if session.marker.Some? && u in session.users && session.marker.value < u {
      assert u in session.AfterMarker();
      var f := session.Floor().value;
      assert f in session.AfterMarker() && f <= u;
    }
  }

  /** Forgetting a session marks everything in it up to now, takes its summaries away and fails its open work;
      closing it fails the work only when something was forgotten before. */
  lemma ForgettingIs(db: Db, s: SessionId, at: nat, id: JobId)
    requires s in db.sessions && id in db.jobs
    ensures var session, next := db.sessions[s], Step(db, Forget(s, at));
            var j := db.jobs[id];
            var failed := j.(status := Failed, error := Some(Forgotten),
                             updated := if j.updated < at then at else j.updated);
            && next.sessions == db.sessions[s := session.(marker := Some(session.latest))]
            && next.clocks == db.clocks && (forall row :: row in next.summaries <==> row in db.summaries && row.0 != s)
            && next.jobs.Keys == db.jobs.Keys
            && next.jobs[id] == (if j.session == s && j.status != Completed then failed else j)
    ensures forall status ::
              var session, j, next := db.sessions[s], db.jobs[id], Closed(db, s, status, at);
              && next.sessions == db.sessions[s := session.(status := status)] && id in next.jobs
              && next.jobs[id] == if session.marker.Some? && j.session == s && j.status != Completed
                                  then j.(status := Failed, error := Some(Forgotten),
                                          updated := if j.updated < at then at else j.updated) else j
  {
  }

  /** A running job is split exactly before its end, unless its range was forgotten; it fails as rebatched, and the
      shorter range is queued as its next generation if it is not there already. */
  lemma RebatchingIs(db: Db, id: JobId, through: int, at: nat, plan: Plan)
    requires Possible(db, Rebatch(id, through, at, plan))
    ensures plan.top.Some? ==> plan.top.value in db.jobs
    ensures var r := Outcome(db, Rebatch(id, through, at, plan));
            var splits := id in db.jobs && db.jobs[id].status == Running
                          && db.jobs[id].from <= through < db.jobs[id].through;
            && (r == Err(RangeUnavailable) <==> !splits)
            && (r == Err(RangeForgotten) <==>
                  splits && !db.Home(db.jobs[id].session).RangeAllowed(db.jobs[id].from))
            && (r.Err? ==> r.error == RangeUnavailable || r.error == RangeForgotten)
            && (r.Ok? ==>
                  var j, split := db.jobs[id], SplitOff(db, id, at);
                  var generation := NextGeneration(split, db.Home(j.session), at, plan);
                  && r.value.sessions == db.sessions && id in r.value.jobs && plan.id !in db.jobs
                  && r.value.jobs[id] == j.(status := Failed, error := Some(Rebatched),
                                            updated := if j.updated < at then at else j.updated)
                  && (plan.id in r.value.jobs <==> !exists k :: SameJob(db, k, j.session, j.from, through, generation))
                  && (plan.id in r.value.jobs ==>
                        r.value.jobs[plan.id] == Job(j.session, j.from, through, Queued, 0, 0, generation, None, at, at,
                                                     None)))
  {
    hide IsTop, Held, ClocksAfter, Session.RangeAllowed, NextGeneration;
    if Rebatchable(db, id, through) {
      var j, split := db.jobs[id], SplitOff(db, id, at);
      SameJobIs(split, j.session, j.from, through, NextGeneration(split, db.Home(j.session), at, plan));
      SplitKeepsKeys(db, id, at, j.session, j.from, through, NextGeneration(split, db.Home(j.session), at, plan));
    }
    hide KeyAt, SameJob;
  }

  /** An explicit range is queued exactly when it is the next one, lies before the latest message, is not forgotten
      and nothing else of the session is open; a range that is already there is left alone. */
  lemma ExplicitRangeIff(db: Db, s: SessionId, from: int, through: int, at: nat, id: JobId)
    requires id !in db.jobs && s in db.sessions
    ensures var r, session := Outcome(db, EnqueueRange(s, from, through, at, id)), db.sessions[s];
            var known := exists k, g :: SameJob(db, k, s, from, through, g);
            && (r.Ok? <==> 1 <= from <= through && session.RangeAllowed(from)
                           && (known || (session.Start() == Some(from) && through <= session.latest
                                         && !HasBlocking(db, s))))
            && (r.Ok? ==> r.value == if known then db
                 else db.(jobs := db.jobs[id := Job(s, from, through, Queued, 0, 0, 0, None, at, at, None)]))
  {
    hide HasBlocking, Session.Start, Session.RangeAllowed;
    if k :| KeyAt(db, k, s, from, through) { assert SameJob(db, k, s, from, through, db.jobs[k].generation); }
    hide KeyAt;
    SameRangeIs(db, s, from, through);
    hide SameJob;
  }
}
