/** The summary-job transactions of the conversation store, statement by statement. */
module SummaryStore {
  import opened Wrappers
  import opened SummaryJobs

  lemma NothingWithin(session: Session, from: int, through: int)
    requires through < from
    ensures session.Within(from, through) == {}
  {
  }

  lemma TopIsUnique(db: Db, s: SessionId, from: int, top: Option<JobId>, other: Option<JobId>)
    requires IsTop(db, s, from, top) && IsTop(db, s, from, other)
    ensures top == other
  {
  }

  lemma TopIgnoresClocks(db: Db, clocked: Db, s: SessionId, from: int, top: Option<JobId>)
    requires clocked.jobs == db.jobs && IsTop(db, s, from, top)
    ensures IsTop(clocked, s, from, top)
  {
    forall id ensures TerminalAt(clocked, id, s, from) == TerminalAt(db, id, s, from) {}
  }

  lemma InsertionIgnoresEnd(db: Db, s: SessionId, from: int, through: int, at: nat, top: Option<JobId>,
                            budget: bool, end: Option<int>, id: JobId)
    requires top.Some? ==> top.value in db.jobs
    ensures Inserted(db, s, from, through, at, Plan(top, budget, end, id))
            == Inserted(db, s, from, through, at, Plan(top, budget, None, id))
  {
  }

  lemma EligibleRowExists(db: Db, at: nat)
    ensures forall id :: Eligible(db, id, at) ==> id in db.jobs
  {
  }

  class Store {
    var sessions: map<SessionId, Session>
    var jobs: map<JobId, Job>
    var clocks: map<JobId, nat>
    var summaries: set<(SessionId, int)>

    ghost function Contents(): Db
      reads this
    {
      Db(sessions, jobs, clocks, summaries)
    }

    constructor ()
      ensures Contents() == Db(map[], map[], map[], {})
    {
      sessions, jobs, clocks, summaries := map[], map[], map[], {};
    }

    method SummaryFloor(s: SessionId) returns (floor: Option<int>)
      requires s in sessions
      ensures floor == sessions[s].Floor()
    {
      var session := sessions[s];
      if session.marker.None? { return Some(1); }
      var left := session.AfterMarker();
      floor := None;
      while left != {}
        invariant left <= session.AfterMarker()
        invariant floor.Some? ==> floor.value in session.AfterMarker()
        invariant forall u :: u in session.AfterMarker() && u !in left ==> floor.Some? && floor.value <= u
        decreases left
      {
        var u :| u in left;
        if floor.None? || u < floor.value { floor := Some(u); }
        left := left - {u};
      }
      FloorIsUnique(session, floor);
    }

    method SummaryStart(s: SessionId) returns (start: Option<int>)
      ensures start == if s in sessions then sessions[s].Start() else None
    {
      if s !in sessions { return None; }
      var floor := SummaryFloor(s);
      start := if floor.None? then None else Some(Max(floor.value, sessions[s].through + 1));
    }

    method RangeAllowed(s: SessionId, from: int) returns (allowed: bool)
      requires s in sessions
      ensures allowed == sessions[s].RangeAllowed(from)
    {
      if sessions[s].marker.None? { return true; }
      var floor := SummaryFloor(s);
      allowed := floor.Some? && from >= floor.value && sessions[s].Live();
    }

    method HasBlockingSummaryJob(s: SessionId) returns (blocking: bool)
      ensures blocking == HasBlocking(Contents(), s)
    {
      var left := jobs.Keys;
      while left != {}
        invariant left <= jobs.Keys
        invariant forall id :: id in jobs.Keys - left && jobs[id].session == s ==> !jobs[id].Blocking()
        decreases left
      {
        var id :| id in left;
        if jobs[id].session == s && jobs[id].Blocking() { return true; }
        left := left - {id};
      }
      return false;
    }

    method TerminalRow(s: SessionId, from: int) returns (top: Option<JobId>)
      ensures IsTop(Contents(), s, from, top)
    {
      ghost var db := Contents();
      var left := jobs.Keys;
      top := None;
      while left != {}
        invariant left <= jobs.Keys && db == Contents()
        invariant top.Some? ==> TerminalAt(db, top.value, s, from)
        invariant forall id :: TerminalAt(db, id, s, from) && id !in left ==>
                    top.Some? && RanksBelow(jobs[id], id, jobs[top.value], top.value)
        decreases left
      {
        var id :| id in left;
        var j := jobs[id];
        if j.session == s && j.from == from && j.Terminal() {
          if top.None? || RanksBelow(jobs[top.value], top.value, j, id) { top := Some(id); }
        }
        left := left - {id};
      }
    }

    /** Whether a terminal row holds its start back; may move the row's recovery clock. */
    method HasTerminalSummaryStart(s: SessionId, from: int, at: nat, budget: bool)
        returns (held: bool, top: Option<JobId>)
      requires s in sessions
      modifies this`clocks
      ensures IsTop(old(Contents()), s, from, top)
      ensures top.Some? ==> top.value in jobs
      ensures held == Held(old(Contents()), sessions[s], top, at, budget)
      ensures clocks == ClocksAfter(old(Contents()), sessions[s], top, at)
    {
      top := TerminalRow(s, from);
      if top.None? { return false, top; }
      var terminal := jobs[top.value];
      if terminal.generation >= 2 { return true, top; }
      var session := sessions[s];
      if session.status.Ended? || session.status.Expired? {
        if terminal.error == Some(InputLimit) { return true, top; }
        if terminal.error == Some(BudgetGaveUp) { return !budget, top; }
        if top.value !in clocks { clocks := clocks[top.value := terminal.updated]; }
        if clocks[top.value] - at > BUDGET_DELAY { clocks := clocks[top.value := at]; }
        return clocks[top.value] + RECOVERY_DELAY > at, top;
      }
      var count := |set c | c in session.committed && c > terminal.terminal.Or(0)|;
      if count < 60 { return true, top; }
      if terminal.error == Some(BudgetGaveUp) { return !budget, top; }
      return false, top;
    }

    method InsertSummaryJob(s: SessionId, from: int, through: int, at: nat, budget: bool, id: JobId)
        returns (r: Result<JobId, Error>, ghost top: Option<JobId>)
      requires s in sessions && id !in jobs
      modifies this`jobs, this`clocks
      ensures IsTop(old(Contents()), s, from, top)
      ensures top.Some? ==> top.value in old(jobs)
      ensures var spec := Inserted(old(Contents()), s, from, through, at, Plan(top, budget, None, id));
              if spec.Err? then r.Err? && r.error == spec.error && Contents() == old(Contents())
              else r.Ok? && r.value in jobs && Contents() == spec.value
                   && KeyAt(Contents(), r.value, s, from, through)
                   && jobs[r.value].generation
                      == NextGeneration(old(Contents()), sessions[s], at, Plan(top, budget, None, id))
    {
      ghost var db := Contents();
      var allowed := RangeAllowed(s, from);
      var found := TerminalRow(s, from);
      top := found;
      if !allowed { return Err(RangeForgotten), top; }
      var generation := 0;
      if found.Some? {
        var held, again := HasTerminalSummaryStart(s, from, at, budget);
        TopIsUnique(db, s, from, found, again);
        if !held { generation := jobs[found.value].generation + 1; }
      }
      assert clocks == ClocksAfter(db, sessions[s], top, at);
      assert generation == NextGeneration(db, sessions[s], at, Plan(top, budget, None, id));
      var left := jobs.Keys;
      while left != {}
        invariant left <= jobs.Keys && jobs == db.jobs && clocks == ClocksAfter(db, sessions[s], top, at)
        invariant forall k :: KeyAt(db, k, s, from, through) && jobs[k].generation == generation ==> k in left
        decreases left
      {
        var k :| k in left;
        if jobs[k].session == s && jobs[k].from == from && jobs[k].through == through
           && jobs[k].generation == generation {
          assert KeyAt(db, k, s, from, through);
          return Ok(k), top;
        }
        left := left - {k};
      }
      jobs := jobs[id := NewJob(s, from, through, generation, at)];
      r := Ok(id);
    }

    /** Queue the next range of a closed owner session, unless work is pending or held back. */
    method EnqueueClosedSummary(s: SessionId, at: nat, budget: bool, end: Option<int>, id: JobId)
        returns (r: Result<(), Error>, ghost top: Option<JobId>)
      requires s in sessions && id !in jobs
      modifies this`jobs, this`clocks
      ensures IsTop(old(Contents()), s, sessions[s].through + 1, top)
      ensures top.Some? ==> top.value in old(jobs)
      ensures var spec := EnqueuedClosed(old(Contents()), s, at, Plan(top, budget, end, id));
              if spec.Err? then r.Err? && r.error == spec.error else r.Ok? && Contents() == spec.value
    {
      ghost var db := Contents();
      hide Held, ClocksAfter, Session.Within, Inserted;
      var session := sessions[s];
      top := TerminalRow(s, session.through + 1);
      var blocking := HasBlockingSummaryJob(s);
      if session.marker.Some? || session.guest || session.Live() || blocking { return Ok(()), top; }
      var held, again := HasTerminalSummaryStart(s, session.through + 1, at, budget);
      TopIsUnique(db, s, session.through + 1, top, again);
      if held || |session.Within(session.through + 1, session.latest)| < 6 { return Ok(()), top; }
      if end.None? { return Err(BatchFailed), top; }
      ghost var clocked := Contents();
      var inserted, last := InsertSummaryJob(s, session.through + 1, end.value, at, budget, id);
      TopIgnoresClocks(db, clocked, s, session.through + 1, top);
      TopIsUnique(clocked, s, session.through + 1, top, last);
      InsertionIgnoresEnd(clocked, s, session.through + 1, end.value, at, top, budget, end, id);
      r := if inserted.Ok? then Ok(()) else Err(inserted.error);
    }

    /** Sequences of committed messages from `start` on, ascending, at most 500 of them. */
    method CommittedRows(s: SessionId, start: int) returns (rows: seq<int>)
      requires s in sessions
      ensures |rows| == PlannedRows(sessions[s], start)
      ensures forall i :: 0 <= i < |rows| ==> IsNth(sessions[s], start, i + 1, rows[i])
    {
      hide Session.Within;
      var session := sessions[s];
      rows := [];
      var next := start;
      NothingWithin(session, start, next - 1);
      while next <= session.latest && |rows| < 500
        invariant start <= next && (next <= session.latest + 1 || next == start)
        invariant |rows| == |session.Within(start, next - 1)| <= 500
        invariant forall i :: 0 <= i < |rows| ==> IsNth(session, start, i + 1, rows[i])
        decreases session.latest - next
      {
        WithinGrows(session, start, next - 1);
        if next in session.committed { rows := rows + [next]; }
        next := next + 1;
      }
      if next <= session.latest {
        SmallerRange(session, start, next - 1, session.latest);
      } else if next > session.latest + 1 {
        NothingWithin(session, start, session.latest);
      }
    }

    method ScheduleActiveSummary(s: SessionId, threshold: nat, keepRecent: nat, maxMessages: nat, at: nat,
                                 budget: bool, batch: int -> Option<int>, id: JobId)
        returns (r: Result<Option<JobId>, Error>, ghost top: Option<JobId>)
      requires id !in jobs
      modifies this`jobs, this`clocks
      ensures top.Some? ==> top.value in old(jobs)
      ensures s in sessions && sessions[s].Start().Some? ==>
                IsTop(old(Contents()), s, sessions[s].Start().value, top)
      ensures var spec := Scheduled(old(Contents()), s, threshold, keepRecent, maxMessages, at, batch,
                                    Plan(top, budget, None, id));
              if spec.Err? then r.Err? && r.error == spec.error && Contents() == old(Contents())
              else r.Ok? && Contents() == spec.value
      ensures r.Ok? && r.value.Some? ==>
                s in sessions && sessions[s].Start().Some? && r.value.value in jobs
                && jobs[r.value.value].session == s && jobs[r.value.value].from == sessions[s].Start().value
      ensures r.Ok? && r.value.None? ==> Contents() == old(Contents())
    {
      ghost var db := Contents();
      hide Held, Session.Within, Session.Start, Session.Floor, Inserted, PlannedRows;
      top := None;
      var start := SummaryStart(s);
      if start.None? { return Ok(None), top; }
      var session := sessions[s];
      top := TerminalRow(s, start.value);
      var blocking := HasBlockingSummaryJob(s);
      if !session.Live() || blocking { return Ok(None), top; }
      var held, again := HasTerminalSummaryStart(s, start.value, at, budget);
      TopIsUnique(db, s, start.value, top, again);
      assert clocks == db.clocks;
      if held { return Ok(None), top; }
      var rows := CommittedRows(s, start.value);
      var n := Min(|rows| - keepRecent, maxMessages);
      if |rows| < threshold || n <= 0 { return Ok(None), top; }
      var end := rows[n - 1];
      NthIsUnique(session, start.value, n, end, Nth(session, start.value, n));
      hide IsNth;
      if maxMessages > 500 || batch(end).None? { return Err(BatchFailed), top; }
      var inserted, last := InsertSummaryJob(s, start.value, batch(end).value, at, budget, id);
      TopIsUnique(db, s, start.value, top, last);
      r := if inserted.Ok? then Ok(Some(inserted.value)) else Err(inserted.error);
    }

    method EnqueueSummaryJob(s: SessionId, from: int, through: int, at: nat, id: JobId)
        returns (r: Result<JobId, Error>)
      requires id !in jobs
      modifies this`jobs
      ensures var spec := Enqueued(old(Contents()), s, from, through, at, id);
              if spec.Err? then r.Err? && r.error == spec.error && Contents() == old(Contents())
              else r.Ok? && Contents() == spec.value && KeyAt(Contents(), r.value, s, from, through)
    {
      ghost var db := Contents();
      hide Session.Start, Session.Floor, Session.RangeAllowed, HasBlocking;
      if from < 1 || through < from { return Err(Rejected); }
      if s !in sessions { return Err(RangeUnavailable); }
      var allowed := RangeAllowed(s, from);
      if !allowed { return Err(RangeForgotten); }
      var left := jobs.Keys;
      while left != {}
        invariant left <= jobs.Keys && jobs == db.jobs
        invariant forall k :: KeyAt(db, k, s, from, through) ==> k in left
        decreases left
      {
        var k :| k in left;
        if jobs[k].session == s && jobs[k].from == from && jobs[k].through == through {
          assert KeyAt(db, k, s, from, through);
          return Ok(k);
        }
        left := left - {k};
      }
      var start := SummaryStart(s);
      if start != Some(from) || through > sessions[s].latest { return Err(RangeUnavailable); }
      var blocking := HasBlockingSummaryJob(s);
      if blocking { return Err(AlreadyActive); }
      jobs := jobs[id := NewJob(s, from, through, 0, at)];
      r := Ok(id);
    }

    method IsStale(j: Job) returns (stale: bool)
      requires j.session in sessions
      ensures stale == Stale(sessions[j.session], j)
    {
      var start := SummaryStart(j.session);
      stale := (j.status.Queued? || j.status.Unknown? || j.Retryable())
               && ((start.Some? && Some(j.from) != start) || j.through > sessions[j.session].latest);
    }

    /** The three set-wide updates that precede a claim, row by row. */
    method Sweep(at: nat)
      requires forall id :: id in jobs ==> jobs[id].session in sessions
      modifies this`jobs
      ensures Contents() == Swept(old(Contents()), at)
    {
      ghost var db := Contents();
      hide Session.Start, Session.Floor, Stale;
      var left := jobs.Keys;
      while left != {}
        invariant left <= db.jobs.Keys == jobs.Keys
        invariant forall id :: id in left ==> jobs[id] == db.jobs[id]
        invariant forall id :: id in jobs && id !in left ==>
                    jobs[id] == SweptJob(db.Home(db.jobs[id].session), db.jobs[id], at)
        decreases left
      {
        var id :| id in left;
        var j := jobs[id];
        var session := sessions[j.session];
        var stale := IsStale(j);
        var a := if stale then j.AsFailed(RangeInvalid, j.Later(at), session.latest) else j;
        if a.status.Unknown? && a.attempts >= MAX_ATTEMPTS { a := a.AsFailed(GaveUp, a.updated, session.latest); }
        if a.updated - at > BUDGET_DELAY && a.attempts < MAX_ATTEMPTS && (a.status.Unknown? || a.Retryable()) {
          a := a.(updated := at);
        }
        assert a == SweptJob(session, j, at);
        hide SweptJob;
        jobs := jobs[id := a];
        left := left - {id};
      }
      assert jobs == Swept(db, at).jobs;
    }

    method IsEligible(id: JobId, at: nat) returns (eligible: bool)
      requires id in jobs && jobs[id].session in sessions
      ensures eligible == Eligible(Contents(), id, at)
    {
      var j := jobs[id];
      var session := sessions[j.session];
      var start := SummaryStart(j.session);
      eligible := (session.marker.None? || session.Live()) && start == Some(j.from)
                  && (|| j.status.Queued?
                      || (j.status.Unknown? && j.attempts < MAX_ATTEMPTS && j.updated + UNKNOWN_DELAY <= at)
                      || (j.Retryable() && j.attempts < MAX_ATTEMPTS && j.updated + RetryDelay(j) <= at));
    }

    /** Nothing while a job runs; otherwise sweep, then start the oldest eligible job. */
    method ClaimNextSummaryJob(at: nat) returns (claimed: Option<JobId>)
      requires forall id :: id in jobs ==> jobs[id].session in sessions
      modifies this`jobs
      ensures claimed.Some? ==> claimed.value in old(jobs)
      ensures AnyRunning(old(Contents())) ==> claimed.None?
      ensures !AnyRunning(old(Contents())) ==> IsNext(Swept(old(Contents()), at), at, claimed)
      ensures claimed.Some? ==>
                forall id :: id in old(jobs) && Eligible(Swept(old(Contents()), at), id, at) ==>
                  old(jobs)[claimed.value].created < old(jobs)[id].created
                  || (old(jobs)[claimed.value].created == old(jobs)[id].created && claimed.value <= id)
      ensures Contents() == Claimed(old(Contents()), at, claimed)
    {
      ghost var db := Contents();
      hide Eligible, SweptJob, Session.Start;
      var left := jobs.Keys;
      while left != {}
        invariant left <= jobs.Keys
        invariant forall id :: id in jobs && id !in left ==> !jobs[id].status.Running?
        decreases left
      {
        var id :| id in left;
        if jobs[id].status.Running? { return None; }
        left := left - {id};
      }
      assert !AnyRunning(db);
      Sweep(at);
      ghost var swept := Contents();
      forall id | id in jobs ensures jobs[id].session in sessions {
        SweptIsQuieter(db.Home(db.jobs[id].session), db.jobs[id], at);
      }
      left := jobs.Keys;
      claimed := None;
      while left != {}
        invariant left <= jobs.Keys && Contents() == swept
        invariant claimed.Some? ==> Eligible(swept, claimed.value, at) && claimed.value in jobs
        invariant forall id :: id in jobs && id !in left && Eligible(swept, id, at) ==>
                    claimed.Some? && Before(jobs[claimed.value], claimed.value, jobs[id], id)
        decreases left
      {
        var id :| id in left;
        var eligible := IsEligible(id, at);
        if eligible && (claimed.None? || !Before(jobs[claimed.value], claimed.value, jobs[id], id)) {
          claimed := Some(id);
        }
        left := left - {id};
      }
      EligibleRowExists(swept, at);
      if claimed.None? { return; }
      forall id ensures id in db.jobs ==> swept.jobs[id].created == db.jobs[id].created {
        SweptKeepsCreated(db, at, id);
      }
      jobs := jobs[claimed.value := Begun(jobs[claimed.value], at)];
    }

    /** One transaction: the summary row, the pointer, the job, and the next closed range. */
    method CompleteSummaryJob(id: JobId, through: int, at: nat, budget: bool, end: Option<int>, newId: JobId)
        returns (r: Result<(), Error>, ghost top: Option<JobId>)
      requires newId !in jobs && forall k :: k in jobs ==> jobs[k].session in sessions
      modifies this
      ensures top.Some? ==> top.value in old(jobs)
      ensures Completable(old(Contents()), id, through) ==>
                var mid := Covered(old(Contents()), id, at);
                IsTop(mid, mid.jobs[id].session, mid.Home(mid.jobs[id].session).through + 1, top)
      ensures var spec := CompletedSummary(old(Contents()), id, through, at, Plan(top, budget, end, newId));
              if spec.Err? then r.Err? && r.error == spec.error && Contents() == old(Contents())
              else r.Ok? && Contents() == spec.value
    {
      ghost var db := Contents();
      hide EnqueuedClosed, Session.Start, Session.Floor, Session.RangeAllowed, Session.Within;
      top := None;
      if id !in jobs { return Err(Unavailable), top; }
      var j := jobs[id];
      var session := sessions[j.session];
      var allowed := RangeAllowed(j.session, j.from);
      if !allowed { return Err(RangeForgotten), top; }
      if !j.status.Running? || through != j.through { return Err(Unavailable), top; }
      var start := SummaryStart(j.session);
      if start != Some(j.from) || j.through > session.latest || j.through !in session.committed
         || |session.Within(j.from, j.through)| > 500 { return Err(RangeUnavailable), top; }
      var saved := (sessions, jobs, clocks, summaries);
      var taken := (j.session, through) in summaries;
      summaries := summaries + {(j.session, through)};
      if session.through < through { sessions := sessions[j.session := session.(through := through)]; }
      jobs := jobs[id := j.(status := Completed, updated := j.Later(at), error := None)];
      assert Contents() == Covered(db, id, at);
      r, top := EnqueueClosedSummary(j.session, at, budget, end, newId);
      if taken { r := Err(Rejected); }
      if r.Err? { sessions, jobs, clocks, summaries := saved.0, saved.1, saved.2, saved.3; }
    }

    /** The trigger on status and code: a terminal failure is anchored once, at the session's
        latest sequence. */
    method AnchorTerminal(id: JobId)
      requires id in jobs && jobs[id].session in sessions
      modifies this`jobs
      ensures var j := old(jobs)[id];
              jobs == old(jobs)[id := if j.Terminal() && j.terminal.None?
                                      then j.(terminal := Some(sessions[j.session].latest)) else j]
    {
      var j := jobs[id];
      if j.status.Failed? && j.error.Some? && TerminalCode(j.error.value) && j.terminal.None? {
        jobs := jobs[id := j.(terminal := Some(sessions[j.session].latest))];
      }
    }

    method FailSummaryJob(id: JobId, code: Code, at: nat) returns (r: Result<(), Error>)
      requires forall k :: k in jobs ==> jobs[k].session in sessions
      modifies this`jobs
      ensures var spec := FailedWith(old(Contents()), id, code, at);
              if spec.Err? then r.Err? && Contents() == old(Contents()) else r.Ok? && Contents() == spec.value
    {
      if id !in jobs || !jobs[id].status.Running? { return Err(Unavailable); }
      var j := jobs[id];
      var code' := code;
      if j.attempts >= MAX_ATTEMPTS && RetryCode(code) { code' := GaveUp; }
      jobs := jobs[id := j.(status := Failed, error := Some(code'), updated := j.Later(at))];
      AnchorTerminal(id);
      assert jobs == old(jobs)[id := j.AsFailed(code', j.Later(at), sessions[j.session].latest)];
      r := Ok(());
    }

    method DeferSummaryJob(id: JobId, budget: bool, consumed: bool, at: nat) returns (r: Result<(), Error>)
      requires forall k :: k in jobs ==> jobs[k].session in sessions
      modifies this`jobs
      ensures var spec := Deferred(old(Contents()), id, budget, consumed, at);
              if spec.Err? then r.Err? && Contents() == old(Contents()) else r.Ok? && Contents() == spec.value
    {
      if id !in jobs || !jobs[id].status.Running? { return Err(Unavailable); }
      var j := jobs[id];
      var code := if budget then BudgetDeferred else ShutdownUnknown;
      if budget && consumed && j.attempts >= MAX_ATTEMPTS {
        code := GaveUp;
      } else if budget && j.deferrals + 1 >= MAX_DEFERRALS {
        code := BudgetGaveUp;
      }
      jobs := jobs[id := j.(status := if budget then Failed else Unknown, error := Some(code),
                            deferrals := j.deferrals + if budget then 1 else 0, updated := j.Later(at),
                            attempts := Max(0, j.attempts - if budget && !consumed then 1 else 0))];
      AnchorTerminal(id);
      assert jobs == old(jobs)[id := DeferredJob(j, budget, consumed, at, sessions[j.session].latest)];
      r := Ok(());
    }

    /** A batch that did not fit fails with its own code and a shorter range takes its place. */
    method RebatchSummaryJob(id: JobId, through: int, at: nat, budget: bool, newId: JobId)
        returns (r: Result<JobId, Error>, ghost top: Option<JobId>)
      requires newId !in jobs && forall k :: k in jobs ==> jobs[k].session in sessions
      modifies this`jobs, this`clocks
      ensures top.Some? ==> top.value in old(jobs)
      ensures Rebatchable(old(Contents()), id, through) ==>
                IsTop(SplitOff(old(Contents()), id, at), old(jobs[id].session), old(jobs[id].from), top)
      ensures var spec := RebatchedTo(old(Contents()), id, through, at, Plan(top, budget, None, newId));
              if spec.Err? then r.Err? && r.error == spec.error && Contents() == old(Contents())
              else r.Ok? && Contents() == spec.value
                   && KeyAt(Contents(), r.value, old(jobs[id].session), old(jobs[id].from), through)
                   && jobs[r.value].generation
                      == NextGeneration(SplitOff(old(Contents()), id, at), sessions[old(jobs[id].session)], at,
                                        Plan(top, budget, None, newId))
    {
      hide Inserted, IsTop, NextGeneration;
      top := None;
      if id !in jobs || !jobs[id].status.Running? || through < jobs[id].from || through >= jobs[id].through {
        return Err(RangeUnavailable), top;
      }
      var j := jobs[id];
      var saved := jobs;
      jobs := jobs[id := j.AsFailed(Rebatched, j.Later(at), sessions[j.session].latest)];
      r, top := InsertSummaryJob(j.session, j.from, through, at, budget, newId);
      if r.Err? { jobs := saved; }
    }

    /** Closing fails suppressed work, then queues the remaining range in the same transaction. */
    method FinishSession(s: SessionId, status: SessionStatus, at: nat, budget: bool, end: Option<int>, id: JobId)
        returns (r: Result<(), Error>, ghost top: Option<JobId>)
      requires id !in jobs
      modifies this
      ensures top.Some? ==> top.value in old(jobs)
      ensures s in old(sessions) && old(sessions[s]).Live() ==>
                IsTop(Closed(old(Contents()), s, status, at), s, old(sessions[s]).through + 1, top)
      ensures var spec := Finished(old(Contents()), s, status, at, Plan(top, budget, end, id));
              if spec.Err? then r.Err? && r.error == spec.error && Contents() == old(Contents())
              else r.Ok? && Contents() == spec.value
    {
      hide EnqueuedClosed, IsTop;
      top := None;
      if s !in sessions || !sessions[s].Live() { return Err(Unavailable), top; }
      var saved := (sessions, jobs, clocks, summaries);
      if sessions[s].marker.Some? { jobs := ForgottenJobs(Db(sessions, jobs, clocks, summaries), s, at); }
      sessions := sessions[s := sessions[s].(status := status)];
      r, top := EnqueueClosedSummary(s, at, budget, end, id);
      if r.Err? { sessions, jobs, clocks, summaries := saved.0, saved.1, saved.2, saved.3; }
    }

    /** The trigger behind a forget marker: summaries of the session go, open work fails. */
    method ForgetSession(s: SessionId, at: nat) returns (r: Result<(), Error>)
      modifies this
      ensures var spec := Forgot(old(Contents()), s, at);
              if spec.Err? then r.Err? && Contents() == old(Contents()) else r.Ok? && Contents() == spec.value
    {
      if s !in sessions { return Err(Unavailable); }
      summaries := set row | row in summaries && row.0 != s;
      jobs := ForgottenJobs(Db(sessions, jobs, clocks, summaries), s, at);
      sessions := sessions[s := sessions[s].(marker := Some(sessions[s].latest))];
      r := Ok(());
    }

    /** Startup: whatever a dead process left running is quarantined as unknown. */
    method RecoverInterrupted(at: nat)
      modifies this`sessions, this`jobs
      ensures Contents() == AfterRestart(old(Contents()), at)
    {
      sessions := map s | s in sessions ::
        if sessions[s].status.Active? then sessions[s].(status := Idle) else sessions[s];
      jobs := map id | id in jobs ::
        if jobs[id].status.Running?
        then jobs[id].(status := Unknown, error := Some(RestartUnknown), updated := jobs[id].Later(at)) else jobs[id];
    }
  }
}
