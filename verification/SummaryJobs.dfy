/** Background summary jobs of the conversation store: planning, claiming, settling, budget
    deferral, restart, recovery generations and the coverage pointer of each session. */
module SummaryJobs {
  import opened Wrappers

  type SessionId = nat
  type JobId = nat

  const MAX_ATTEMPTS: nat := 3
  const MAX_DEFERRALS: nat := 24
  const FIRST_DELAY: nat := 30_000
  const SECOND_DELAY: nat := 120_000
  const BUDGET_DELAY: nat := 900_000
  const UNKNOWN_DELAY: nat := 300_000
  const RECOVERY_DELAY: nat := 3_600_000

  // ----- Sessions -----

  datatype SessionStatus = Active | Idle | Ended | Expired

  /** `committed` holds the sequences of committed messages, `users` those of user messages
      among them, `marker` the highest sequence covered by a forget marker. */
  datatype Session = Session(status: SessionStatus, guest: bool, latest: nat, through: nat,
                             committed: set<int>, users: set<int>, marker: Option<nat>) {
    predicate Live() {
      status.Active? || status.Idle?
    }

    function AfterMarker(): set<int> {
      set u | u in users && marker.Some? && u > marker.value
    }

    ghost predicate IsFloor(f: Option<int>) {
      if marker.None? then f == Some(1)
      else if AfterMarker() == {} then f == None
      else f.Some? && IsLeast(f.value, AfterMarker())
    }

    /** First sequence a summary may cover; None while no user turn follows the marker. */
    ghost function Floor(): (f: Option<int>)
      ensures IsFloor(f)
    {
      if marker.None? then Some(1)
      else if AfterMarker() == {} then None
      else var u :| u in AfterMarker(); Some(Least(AfterMarker(), u))
    }

    ghost function Start(): Option<int> {
      match Floor()
      case None => None
      case Some(f) => Some(Max(f, through + 1))
    }

    /** Below this sequence a hole in the coverage is explained by forgetting. */
    ghost function Low(): int {
      match Floor()
      case Some(f) => f
      case None => marker.Or(0) + 1
    }

    ghost predicate RangeAllowed(from: int) {
      marker.None? || (Floor().Some? && from >= Floor().value && Live())
    }

    function Within(from: int, through: int): set<int> {
      set c | c in committed && from <= c <= through
    }

    predicate Ok() {
      && through <= latest
      && (forall c :: c in committed ==> 1 <= c <= latest)
      && users <= committed
      && marker.Or(0) <= latest
    }
  }

  // ----- Jobs -----

  datatype Status = Queued | Running | Completed | Failed | Unknown

  datatype Code = ModelFailed | SchemaInvalid | BudgetDeferred | GaveUp | BudgetGaveUp | InputLimit
                | RangeInvalid | Rebatched | Forgotten | RestartUnknown | ShutdownUnknown | OtherCode(text: string)

  predicate RetryCode(code: Code) {
    code.ModelFailed? || code.SchemaInvalid? || code.BudgetDeferred?
  }

  predicate TerminalCode(code: Code) {
    code.GaveUp? || code.BudgetGaveUp? || code.InputLimit?
  }

  datatype Job = Job(session: SessionId, from: int, through: int, status: Status, attempts: nat, deferrals: nat,
                     generation: nat, error: Option<Code>, created: nat, updated: nat, terminal: Option<nat>) {
    predicate Retryable() {
      status.Failed? && error.Some? && RetryCode(error.value)
    }

    predicate Terminal() {
      status.Failed? && error.Some? && TerminalCode(error.value)
    }

    predicate Blocking() {
      status.Queued? || status.Running? || status.Unknown? || (Retryable() && attempts < MAX_ATTEMPTS)
    }

    /** How often the job can still be claimed. */
    function Allowance(): int {
      if Blocking() then (MAX_ATTEMPTS - attempts) + (MAX_DEFERRALS - 1 - deferrals) else 0
    }

    predicate Ok() {
      && 1 <= from <= through
      && attempts <= MAX_ATTEMPTS && deferrals <= MAX_DEFERRALS && generation <= 2
      && (status.Queued? ==> attempts == 0 && deferrals == 0)
      && (status.Running? || status.Unknown? ==> attempts >= 1)
      && (Retryable() ==> attempts < MAX_ATTEMPTS)
      && (Blocking() ==> deferrals < MAX_DEFERRALS)
      && (Terminal() ==> terminal.Some?)
    }

    /** Settling as failed; the trigger anchors a terminal failure at the latest sequence. */
    function AsFailed(code: Code, time: nat, latest: nat): Job {
      this.(status := Failed, error := Some(code), updated := time,
            terminal := if TerminalCode(code) && terminal.None? then Some(latest) else terminal)
    }

    function Later(at: nat): nat {
      if updated < at then at else updated
    }
  }

  // ----- Tables -----

  datatype Db = Db(sessions: map<SessionId, Session>, jobs: map<JobId, Job>,
                   clocks: map<JobId, nat>, summaries: set<(SessionId, int)>) {
    /** The session of a row; the foreign key keeps the default out of reach. */
    function Home(s: SessionId): Session {
      if s in sessions then sessions[s] else Session(Expired, false, 0, 0, {}, {}, None)
    }
  }

  datatype Error = RangeForgotten | RangeUnavailable | AlreadyActive | Unavailable | Rejected | BatchFailed

  ghost predicate HasBlocking(db: Db, s: SessionId) {
    exists id :: id in db.jobs && db.jobs[id].session == s && db.jobs[id].Blocking()
  }

  ghost predicate KeyAt(db: Db, id: JobId, s: SessionId, from: int, through: int) {
    id in db.jobs && db.jobs[id].session == s && db.jobs[id].from == from && db.jobs[id].through == through
  }

  // ----- The terminal-start gate -----

  predicate TerminalAt(db: Db, id: JobId, s: SessionId, from: int) {
    id in db.jobs && db.jobs[id].session == s && db.jobs[id].from == from && db.jobs[id].Terminal()
  }

  /** Descending generation, then anchor; a fixed row order settles what is left. */
  predicate RanksBelow(j: Job, i: JobId, k: Job, l: JobId) {
    || j.generation < k.generation
    || (j.generation == k.generation
        && (j.terminal.Or(0) < k.terminal.Or(0) || (j.terminal.Or(0) == k.terminal.Or(0) && i <= l)))
  }

  /** `top` heads the terminal rows of one start. */
  ghost predicate IsTop(db: Db, s: SessionId, from: int, top: Option<JobId>) {
    match top
    case None => forall id :: !TerminalAt(db, id, s, from)
    case Some(t) =>
      && TerminalAt(db, t, s, from)
      && forall id :: TerminalAt(db, id, s, from) ==> RanksBelow(db.jobs[id], id, db.jobs[t], t)
  }

  /** The separate recovery clock of a closed session's given-up job, after looking at it. */
  function ClocksAfter(db: Db, session: Session, top: Option<JobId>, at: nat): map<JobId, nat>
    requires top.Some? ==> top.value in db.jobs
  {
    if top.None? then db.clocks else
      var j := db.jobs[top.value];
      if j.generation >= 2 || session.Live() || j.error != Some(GaveUp) then db.clocks else
        var anchor := if top.value in db.clocks then db.clocks[top.value] else j.updated;
        db.clocks[top.value := if anchor - at > BUDGET_DELAY then at else anchor]
  }

  predicate Held(db: Db, session: Session, top: Option<JobId>, at: nat, budget: bool)
    requires top.Some? ==> top.value in db.jobs
  {
    top.Some? &&
    var j := db.jobs[top.value];
    if j.generation >= 2 then true
    else if !session.Live() then
      if j.error == Some(InputLimit) then true
      else if j.error == Some(BudgetGaveUp) then !budget
      else
        var clocks := ClocksAfter(db, session, top, at);
        top.value in clocks && clocks[top.value] + RECOVERY_DELAY > at
    else if |set c | c in session.committed && c > j.terminal.Or(0)| < 60 then true
    else j.error == Some(BudgetGaveUp) && !budget
  }

  // ----- Operations -----

  /** What an enqueueing transaction reads from outside the job table: the gate's row, the
      budget answer, the last message of the byte-planned batch of a closed range, and a fresh id. */
  datatype Plan = Plan(top: Option<JobId>, budget: bool, end: Option<int>, id: JobId)

  ghost predicate GoodPlan(db: Db, s: SessionId, from: int, plan: Plan) {
    && s in db.sessions
    && IsTop(db, s, from, plan.top)
    && plan.id !in db.jobs
    && (plan.end.Some? ==> from <= plan.end.value && plan.end.value in db.sessions[s].committed)
  }

  function NewJob(s: SessionId, from: int, through: int, generation: nat, at: nat): Job {
    Job(s, from, through, Queued, 0, 0, generation, None, at, at, None)
  }

  function NextGeneration(db: Db, session: Session, at: nat, plan: Plan): nat
    requires plan.top.Some? ==> plan.top.value in db.jobs
  {
    if plan.top.None? || Held(db, session, plan.top, at, plan.budget) then 0
    else db.jobs[plan.top.value].generation + 1
  }

  ghost function Inserted(db: Db, s: SessionId, from: int, through: int, at: nat, plan: Plan): Result<Db, Error>
    requires plan.top.Some? ==> plan.top.value in db.jobs
  {
    var session := db.Home(s);
    if !session.RangeAllowed(from) then Err(RangeForgotten) else
      var generation := NextGeneration(db, session, at, plan);
      var clocked := db.(clocks := ClocksAfter(db, session, plan.top, at));
      if exists id :: KeyAt(db, id, s, from, through) && db.jobs[id].generation == generation then Ok(clocked)
      else Ok(clocked.(jobs := db.jobs[plan.id := NewJob(s, from, through, generation, at)]))
  }

  ghost function EnqueuedClosed(db: Db, s: SessionId, at: nat, plan: Plan): Result<Db, Error>
    requires plan.top.Some? ==> plan.top.value in db.jobs
  {
    if s !in db.sessions then Ok(db) else
      var session := db.sessions[s];
      if session.marker.Some? || session.guest || session.Live() || HasBlocking(db, s) then Ok(db)
      else
        var clocked := db.(clocks := ClocksAfter(db, session, plan.top, at));
        if Held(db, session, plan.top, at, plan.budget) then Ok(clocked)
        else if |session.Within(session.through + 1, session.latest)| < 6 then Ok(clocked)
        else if plan.end.None? then Err(BatchFailed)
        else Inserted(clocked, s, session.through + 1, plan.end.value, at, plan)
  }

  function PlannedRows(session: Session, start: int): (rows: int)
    ensures rows <= |session.Within(start, session.latest)|
  {
    Min(500, |session.Within(start, session.latest)|)
  }

  /** The n-th committed message from `start` on. */
  ghost predicate IsNth(session: Session, start: int, n: nat, e: int) {
    e in session.committed && start <= e <= session.latest && |session.Within(start, e)| == n
  }

  lemma WithinGrows(session: Session, from: int, through: int)
    requires from <= through + 1
    ensures |session.Within(from, through + 1)|
         == |session.Within(from, through)| + if through + 1 in session.committed then 1 else 0
  {
    var added := if through + 1 in session.committed then {through + 1} else {};
    assert session.Within(from, through + 1) == session.Within(from, through) + added;
  }

  lemma {:induction false} NthExists(session: Session, start: int, n: nat, latest: int)
    requires 1 <= n <= |session.Within(start, latest)| && latest <= session.latest
    ensures exists e :: IsNth(session, start, n, e)
    decreases latest - start + 1
  {
    var last :| last in session.Within(start, latest);
    WithinGrows(session, start, latest - 1);
    if n <= |session.Within(start, latest - 1)| {
      NthExists(session, start, n, latest - 1);
    } else {
      assert IsNth(session, start, n, latest);
    }
  }

  lemma {:induction false} SubsetSize<T>(small: set<T>, large: set<T>)
    requires small <= large
    ensures |small| <= |large|
    decreases small
  {
    if x :| x in small { SubsetSize(small - {x}, large - {x}); }
  }

  lemma NthIsStrict(session: Session, start: int, e: int, other: int)
    requires start <= e < other && other in session.committed
    ensures |session.Within(start, e)| < |session.Within(start, other)|
  {
    SubsetSize(session.Within(start, e) + {other}, session.Within(start, other));
  }

  lemma NthIsUnique(session: Session, start: int, n: nat, e: int, other: int)
    requires IsNth(session, start, n, e) && IsNth(session, start, n, other)
    ensures e == other
  {
    if e < other { NthIsStrict(session, start, e, other); }
    if other < e { NthIsStrict(session, start, other, e); }
  }

  ghost function Nth(session: Session, start: int, n: nat): (e: int)
    requires 1 <= n <= |session.Within(start, session.latest)|
    ensures IsNth(session, start, n, e)
  {
    NthExists(session, start, n, session.latest);
    var e :| IsNth(session, start, n, e);
    e
  }

  /** The byte planner's answer for a range: it ends at a committed message of the range. */
  ghost predicate GoodBatch(session: Session, start: int, batch: int -> Option<int>) {
    forall end :: batch(end).Some? ==> start <= batch(end).value <= end && batch(end).value in session.committed
  }

  ghost function Scheduled(db: Db, s: SessionId, threshold: nat, keepRecent: nat, maxMessages: nat,
                           at: nat, batch: int -> Option<int>, plan: Plan): Result<Db, Error>
    requires plan.top.Some? ==> plan.top.value in db.jobs
  {
    if s !in db.sessions || db.sessions[s].Start().None? then Ok(db) else
      var session := db.sessions[s];
      var start := session.Start().value;
      if !session.Live() || HasBlocking(db, s) || Held(db, session, plan.top, at, plan.budget) then Ok(db)
      else
        var rows := PlannedRows(session, start);
        var n := Min(rows - keepRecent, maxMessages);
        if rows < threshold || n <= 0 then Ok(db)
        else
          var end := Nth(session, start, n);
          if maxMessages > 500 || batch(end).None? then Err(BatchFailed)
          else Inserted(db, s, start, batch(end).value, at, plan)
  }

  ghost function Enqueued(db: Db, s: SessionId, from: int, through: int, at: nat, id: JobId): Result<Db, Error> {
    if from < 1 || through < from then Err(Rejected)
    else if s !in db.sessions then Err(RangeUnavailable)
    else
      var session := db.sessions[s];
      if !session.RangeAllowed(from) then Err(RangeForgotten)
      else if exists k :: KeyAt(db, k, s, from, through) then Ok(db)
      else if session.Start() != Some(from) || through > session.latest then Err(RangeUnavailable)
      else if HasBlocking(db, s) then Err(AlreadyActive)
      else Ok(db.(jobs := db.jobs[id := NewJob(s, from, through, 0, at)]))
  }

  // Claiming: three set-wide updates, then the oldest eligible job.

  ghost predicate Stale(session: Session, j: Job) {
    && (j.status.Queued? || j.status.Unknown? || j.Retryable())
    && ((session.Start().Some? && Some(j.from) != session.Start()) || j.through > session.latest)
  }

  ghost function SweptJob(session: Session, j: Job, at: nat): Job {
    var a := if Stale(session, j) then j.AsFailed(RangeInvalid, j.Later(at), session.latest) else j;
    var b := if a.status.Unknown? && a.attempts >= MAX_ATTEMPTS
             then a.AsFailed(GaveUp, a.updated, session.latest) else a;
    if b.updated - at > BUDGET_DELAY && b.attempts < MAX_ATTEMPTS && (b.status.Unknown? || b.Retryable())
    then b.(updated := at) else b
  }

  ghost function Swept(db: Db, at: nat): Db {
    db.(jobs := map id | id in db.jobs :: SweptJob(db.Home(db.jobs[id].session), db.jobs[id], at))
  }

  function RetryDelay(j: Job): nat {
    if j.error == Some(BudgetDeferred) then BUDGET_DELAY
    else if j.attempts <= 1 then FIRST_DELAY else SECOND_DELAY
  }

  ghost predicate Eligible(db: Db, id: JobId, at: nat) {
    id in db.jobs &&
    var j := db.jobs[id];
    var session := db.Home(j.session);
    && (session.marker.None? || session.Live())
    && session.Start() == Some(j.from)
    && (|| j.status.Queued?
        || (j.status.Unknown? && j.attempts < MAX_ATTEMPTS && j.updated + UNKNOWN_DELAY <= at)
        || (j.Retryable() && j.attempts < MAX_ATTEMPTS && j.updated + RetryDelay(j) <= at))
  }

  predicate Before(j: Job, i: JobId, k: Job, l: JobId) {
    j.created < k.created || (j.created == k.created && i <= l)
  }

  ghost predicate IsNext(db: Db, at: nat, choice: Option<JobId>) {
    match choice
    case None => forall id :: !Eligible(db, id, at)
    case Some(c) =>
      && Eligible(db, c, at)
      && forall id :: Eligible(db, id, at) ==> Before(db.jobs[c], c, db.jobs[id], id)
  }

  ghost predicate AnyRunning(db: Db) {
    exists id :: id in db.jobs && db.jobs[id].status.Running?
  }

  function Begun(j: Job, at: nat): Job {
    j.(status := Running, attempts := j.attempts + 1, updated := j.Later(at), error := None)
  }

  ghost function Claimed(db: Db, at: nat, choice: Option<JobId>): Db
    requires choice.Some? ==> choice.value in db.jobs
  {
    if AnyRunning(db) then db else
      var swept := Swept(db, at);
      if choice.None? then swept
      else swept.(jobs := swept.jobs[choice.value := Begun(swept.jobs[choice.value], at)])
  }

  // Settling a running job.

  ghost predicate Completable(db: Db, id: JobId, through: int) {
    id in db.jobs &&
    var j := db.jobs[id];
    var session := db.Home(j.session);
    && session.RangeAllowed(j.from) && j.status.Running? && through == j.through
    && session.Start() == Some(j.from) && j.through <= session.latest && j.through in session.committed
    && |session.Within(j.from, j.through)| <= 500
  }

  ghost function CompletionError(db: Db, id: JobId, through: int): Error {
    if id !in db.jobs then Unavailable
    else if !db.Home(db.jobs[id].session).RangeAllowed(db.jobs[id].from) then RangeForgotten
    else if !db.jobs[id].status.Running? || through != db.jobs[id].through then Unavailable
    else RangeUnavailable
  }

  /** The summary row, the coverage pointer and the job, before more work is queued. */
  function Covered(db: Db, id: JobId, at: nat): Db
    requires id in db.jobs
  {
    var j := db.jobs[id];
    var session := db.Home(j.session);
    Db(db.sessions[j.session := if session.through < j.through
                                    then session.(through := j.through) else session],
           db.jobs[id := j.(status := Completed, updated := j.Later(at), error := None)],
           db.clocks, db.summaries + {(j.session, j.through)})
  }

  ghost function CompletedSummary(db: Db, id: JobId, through: int, at: nat, plan: Plan): Result<Db, Error>
    requires plan.top.Some? ==> plan.top.value in db.jobs
  {
    if !Completable(db, id, through) then Err(CompletionError(db, id, through))
    else if (db.jobs[id].session, through) in db.summaries then Err(Rejected)
    else EnqueuedClosed(Covered(db, id, at), db.jobs[id].session, at, plan)
  }

  function FailedWith(db: Db, id: JobId, code: Code, at: nat): Result<Db, Error> {
    if id !in db.jobs || !db.jobs[id].status.Running? then Err(Unavailable) else
      var j := db.jobs[id];
      var settled := if j.attempts >= MAX_ATTEMPTS && RetryCode(code) then GaveUp else code;
      Ok(db.(jobs := db.jobs[id := j.AsFailed(settled, j.Later(at), db.Home(j.session).latest)]))
  }

  /** A deferral hands the attempt back only when the budget refused it before any call. */
  function DeferredJob(j: Job, budget: bool, consumed: bool, at: nat, latest: nat): Job {
    if !budget then j.(status := Unknown, error := Some(ShutdownUnknown), updated := j.Later(at)) else
      var code := if consumed && j.attempts >= MAX_ATTEMPTS then GaveUp
                  else if j.deferrals + 1 >= MAX_DEFERRALS then BudgetGaveUp else BudgetDeferred;
      j.AsFailed(code, j.Later(at), latest)
      .(deferrals := j.deferrals + 1, attempts := Max(0, if consumed then j.attempts else j.attempts - 1))
  }

  function Deferred(db: Db, id: JobId, budget: bool, consumed: bool, at: nat): Result<Db, Error> {
    if id !in db.jobs || !db.jobs[id].status.Running? then Err(Unavailable) else
      var j := db.jobs[id];
      Ok(db.(jobs := db.jobs[id := DeferredJob(j, budget, consumed, at, db.Home(j.session).latest)]))
  }

  predicate Rebatchable(db: Db, id: JobId, through: int) {
    id in db.jobs && db.jobs[id].status.Running? && db.jobs[id].from <= through < db.jobs[id].through
  }

  function SplitOff(db: Db, id: JobId, at: nat): Db
    requires id in db.jobs
  {
    var j := db.jobs[id];
    db.(jobs := db.jobs[id := j.AsFailed(Rebatched, j.Later(at), db.Home(j.session).latest)])
  }

  ghost function RebatchedTo(db: Db, id: JobId, through: int, at: nat, plan: Plan): Result<Db, Error>
    requires plan.top.Some? ==> plan.top.value in db.jobs
  {
    if !Rebatchable(db, id, through) then Err(RangeUnavailable)
    else Inserted(SplitOff(db, id, at), db.jobs[id].session, db.jobs[id].from, through, at, plan)
  }

  // Sessions, forgetting and restart.

  function ForgottenJobs(db: Db, s: SessionId, at: nat): (jobs: map<JobId, Job>)
    ensures jobs.Keys == db.jobs.Keys && forall id :: id in jobs ==> jobs[id].session == db.jobs[id].session
  {
    map id | id in db.jobs ::
      var j := db.jobs[id];
      if j.session == s && !j.status.Completed? then j.AsFailed(Forgotten, j.Later(at), 0) else j
  }

  function WithSession(db: Db, s: SessionId, session: Session): Db {
    db.(sessions := db.sessions[s := session])
  }

  function Forgot(db: Db, s: SessionId, at: nat): Result<Db, Error> {
    if s !in db.sessions then Err(Unavailable) else
      var session := db.sessions[s];
      var failed := db.(jobs := ForgottenJobs(db, s, at));
      var marked := WithSession(failed, s, session.(marker := Some(session.latest)));
      Ok(marked.(summaries := set row | row in db.summaries && row.0 != s))
  }

  function Closed(db: Db, s: SessionId, status: SessionStatus, at: nat): Db
    requires s in db.sessions
  {
    db.(sessions := db.sessions[s := db.sessions[s].(status := status)],
        jobs := if db.sessions[s].marker.Some? then ForgottenJobs(db, s, at) else db.jobs)
  }

  ghost function Finished(db: Db, s: SessionId, status: SessionStatus, at: nat, plan: Plan): Result<Db, Error>
    requires plan.top.Some? ==> plan.top.value in db.jobs
  {
    if s !in db.sessions || !db.sessions[s].Live() then Err(Unavailable)
    else EnqueuedClosed(Closed(db, s, status, at), s, at, plan)
  }

  function AfterRestart(db: Db, at: nat): Db {
    db.(sessions := map s | s in db.sessions ::
                      if db.sessions[s].status.Active? then db.sessions[s].(status := Idle) else db.sessions[s],
        jobs := map id | id in db.jobs ::
                  var j := db.jobs[id];
                  if j.status.Running?
                  then j.(status := Unknown, error := Some(RestartUnknown), updated := j.Later(at)) else j)
  }

  // ----- Runs -----

  datatype Event =
    | CreateSession(s: SessionId, guest: bool)
    | CommitUserMessage(s: SessionId)
    | StartAnswer(s: SessionId)
    | CommitAnswer(s: SessionId, sequence: int)
    | SetLive(s: SessionId, status: SessionStatus)
    | Finish(s: SessionId, status: SessionStatus, at: nat, plan: Plan)
    | ScheduleActive(s: SessionId, threshold: nat, keepRecent: nat, maxMessages: nat, at: nat,
                     batch: int -> Option<int>, plan: Plan)
    | EnqueueRange(s: SessionId, from: int, through: int, at: nat, id: JobId)
    | EnqueueClosed(s: SessionId, at: nat, plan: Plan)
    | Claim(at: nat, choice: Option<JobId>)
    | Complete(id: JobId, through: int, at: nat, plan: Plan)
    | Fail(id: JobId, code: Code, at: nat)
    | Defer(id: JobId, budget: bool, consumed: bool, at: nat)
    | Rebatch(id: JobId, through: int, at: nat, plan: Plan)
    | Forget(s: SessionId, at: nat)
    | Restart(at: nat)

  /** What the environment guarantees: rows read are the rows stored, ids are fresh, and a
      batch ends inside its range. */
  ghost predicate Possible(db: Db, e: Event) {
    match e
    case CreateSession(s, _) => s !in db.sessions
    case CommitAnswer(s, k) =>
      s in db.sessions ==> 1 <= k <= db.sessions[s].latest && k !in db.sessions[s].committed
    case SetLive(_, status) => status.Active? || status.Idle?
    case Finish(s, status, at, plan) =>
      && (status.Ended? || status.Expired?) && (plan.top.Some? ==> plan.top.value in db.jobs)
      && (s in db.sessions ==> GoodPlan(Closed(db, s, status, at), s, db.sessions[s].through + 1, plan))
    case ScheduleActive(s, threshold, keepRecent, maxMessages, at, batch, plan) =>
      && (plan.top.Some? ==> plan.top.value in db.jobs)
      && (s in db.sessions && db.sessions[s].Start().Some? ==>
            var start := db.sessions[s].Start().value;
            GoodPlan(db, s, start, plan) && GoodBatch(db.sessions[s], start, batch))
    case EnqueueRange(_, _, _, _, id) => id !in db.jobs
    case EnqueueClosed(s, at, plan) =>
      && (plan.top.Some? ==> plan.top.value in db.jobs)
      && (s in db.sessions ==> GoodPlan(db, s, db.sessions[s].through + 1, plan))
    case Claim(at, choice) =>
      && (choice.Some? ==> choice.value in db.jobs)
      && (if AnyRunning(db) then choice.None? else IsNext(Swept(db, at), at, choice))
    case Complete(id, through, at, plan) =>
      && (plan.top.Some? ==> plan.top.value in db.jobs)
      && (Completable(db, id, through) ==>
            var mid := Covered(db, id, at);
            GoodPlan(mid, mid.jobs[id].session, mid.Home(mid.jobs[id].session).through + 1, plan))
    case Rebatch(id, through, at, plan) =>
      && (plan.top.Some? ==> plan.top.value in db.jobs)
      && (Rebatchable(db, id, through) ==>
            GoodPlan(SplitOff(db, id, at), db.jobs[id].session, db.jobs[id].from, plan))
    case _ => true
  }

  ghost function Outcome(db: Db, e: Event): Result<Db, Error>
    requires Possible(db, e)
  {
    match e
    case CreateSession(s, guest) => Ok(WithSession(db, s, Session(Active, guest, 0, 0, {}, {}, None)))
    case CommitUserMessage(s) =>
      if s !in db.sessions || !db.sessions[s].Live() then Err(Unavailable) else
        var session := db.sessions[s];
        Ok(WithSession(db, s, session.(status := Active, latest := session.latest + 1,
                                       committed := session.committed + {session.latest + 1},
                                       users := session.users + {session.latest + 1})))
    case StartAnswer(s) =>
      if s !in db.sessions || !db.sessions[s].Live() then Err(Unavailable)
      else Ok(WithSession(db, s, db.sessions[s].(status := Active, latest := db.sessions[s].latest + 1)))
    case CommitAnswer(s, k) =>
      if s !in db.sessions then Err(Unavailable)
      else Ok(WithSession(db, s, db.sessions[s].(committed := db.sessions[s].committed + {k})))
    case SetLive(s, status) =>
      if s !in db.sessions || !db.sessions[s].Live() then Err(Unavailable)
      else Ok(WithSession(db, s, db.sessions[s].(status := status)))
    case Finish(s, status, at, plan) => Finished(db, s, status, at, plan)
    case ScheduleActive(s, threshold, keepRecent, maxMessages, at, batch, plan) =>
      Scheduled(db, s, threshold, keepRecent, maxMessages, at, batch, plan)
    case EnqueueRange(s, from, through, at, id) => Enqueued(db, s, from, through, at, id)
    case EnqueueClosed(s, at, plan) => EnqueuedClosed(db, s, at, plan)
    case Claim(at, choice) => Ok(Claimed(db, at, choice))
    case Complete(id, through, at, plan) => CompletedSummary(db, id, through, at, plan)
    case Fail(id, code, at) => FailedWith(db, id, code, at)
    case Defer(id, budget, consumed, at) => Deferred(db, id, budget, consumed, at)
    case Rebatch(id, through, at, plan) => RebatchedTo(db, id, through, at, plan)
    case Forget(s, at) => Forgot(db, s, at)
    case Restart(at) => Ok(AfterRestart(db, at))
  }

  /** A failing transaction rolls back. */
  ghost function Step(db: Db, e: Event): Db
    requires Possible(db, e)
  {
    match Outcome(db, e)
    case Ok(next) => next
    case Err(_) => db
  }

  ghost predicate ValidRun(db: Db, events: seq<Event>)
    decreases |events|
  {
    events == [] || (Possible(db, events[0]) && ValidRun(Step(db, events[0]), events[1..]))
  }

  ghost function Run(db: Db, events: seq<Event>): Db
    requires ValidRun(db, events)
    decreases |events|
  {
    if events == [] then db else Run(Step(db, events[0]), events[1..])
  }

  ghost function Claims(db: Db, events: seq<Event>, id: JobId): nat
    requires ValidRun(db, events)
    decreases |events|
  {
    if events == [] then 0
    else (if events[0].Claim? && events[0].choice == Some(id) then 1 else 0)
         + Claims(Step(db, events[0]), events[1..], id)
  }

  // ----- What every reachable table satisfies -----

  ghost predicate RowsOk(db: Db) {
    && (forall s :: s in db.sessions ==> db.sessions[s].Ok())
    && (forall id :: id in db.jobs ==> db.jobs[id].Ok() && db.jobs[id].session in db.sessions)
  }

  /** The worker owns at most one running job in the whole store. */
  ghost predicate OneRunning(db: Db) {
    forall a, b :: a in db.jobs && b in db.jobs && db.jobs[a].status.Running? && db.jobs[b].status.Running? ==> a == b
  }

  predicate BlockTogether(j: Job, k: Job) {
    j.session == k.session && j.Blocking() && k.Blocking()
  }

  ghost predicate OneBlocking(db: Db) {
    forall a, b :: a in db.jobs && b in db.jobs && BlockTogether(db.jobs[a], db.jobs[b]) ==> a == b
  }

  predicate SameKey(j: Job, k: Job) {
    j.session == k.session && j.from == k.from && j.through == k.through && j.generation == k.generation
  }

  ghost predicate KeysUnique(db: Db) {
    forall a, b :: a in db.jobs && b in db.jobs && SameKey(db.jobs[a], db.jobs[b]) ==> a == b
  }

  ghost predicate CompletedFor(db: Db, id: JobId, s: SessionId) {
    id in db.jobs && db.jobs[id].status.Completed? && db.jobs[id].session == s
  }

  ghost predicate CoversAt(db: Db, id: JobId, s: SessionId, k: int) {
    CompletedFor(db, id, s) && db.jobs[id].from <= k <= db.jobs[id].through
  }

  ghost predicate IsCovered(db: Db, s: SessionId, k: int) {
    exists id :: CoversAt(db, id, s, k)
  }

  ghost predicate NoHoles(db: Db, s: SessionId)
    requires s in db.sessions
  {
    forall k :: 1 <= k && db.sessions[s].Low() <= k <= db.sessions[s].through ==> IsCovered(db, s, k)
  }

  /** Completed ranges stay below the pointer and never overlap; a hole lies below the floor. */
  ghost predicate Coverage(db: Db) {
    && (forall id, s :: CompletedFor(db, id, s) ==> db.jobs[id].through <= db.Home(s).through)
    && (forall a, b, s :: CompletedFor(db, a, s) && CompletedFor(db, b, s) && a != b ==>
          db.jobs[a].through < db.jobs[b].from || db.jobs[b].through < db.jobs[a].from)
    && (forall s :: s in db.sessions ==> NoHoles(db, s))
  }

  ghost predicate SummaryRows(db: Db) {
    forall row :: row in db.summaries ==> row.0 in db.sessions && row.1 <= db.sessions[row.0].through
  }

  ghost predicate Inv(db: Db) {
    RowsOk(db) && OneRunning(db) && OneBlocking(db) && KeysUnique(db) && Coverage(db) && SummaryRows(db)
  }

  /** What no step ever takes back. */
  ghost predicate Advances(db: Db, next: Db) {
    && (forall s :: s in db.sessions ==>
          && s in next.sessions
          && db.sessions[s].latest <= next.sessions[s].latest
          && db.sessions[s].through <= next.sessions[s].through
          && db.sessions[s].Low() <= next.sessions[s].Low())
    && (forall id :: id in db.jobs ==>
          && id in next.jobs
          && SameKey(db.jobs[id], next.jobs[id])
          && next.jobs[id].Allowance() <= db.jobs[id].Allowance()
          && (db.jobs[id].status.Completed? ==> next.jobs[id] == db.jobs[id]))
  }

  lemma AdvancesThrough(a: Db, b: Db, c: Db)
    requires Advances(a, b) && Advances(b, c)
    ensures Advances(a, c)
  {
  }

  // ----- Updates that only make jobs quieter -----

  ghost predicate Quieter(j: Job, k: Job) {
    && SameKey(j, k)
    && (j.Ok() ==> k.Ok() && k.Allowance() <= j.Allowance())
    && (k.status.Running? ==> j.status.Running?)
    && (k.Blocking() ==> j.Blocking())
    && (j.status.Completed? ==> k == j)
    && (k.status.Completed? ==> j.status.Completed?)
  }

  ghost predicate AllQuieter(db: Db, next: Db) {
    && next.sessions == db.sessions && next.summaries == db.summaries && next.jobs.Keys == db.jobs.Keys
    && forall id :: id in db.jobs ==> Quieter(db.jobs[id], next.jobs[id])
  }

  /** Coverage depends only on completed rows, pointers and floors. */
  lemma CoverageTransfers(db: Db, next: Db)
    requires Coverage(db)
    requires forall id, s :: CompletedFor(next, id, s) <==> CompletedFor(db, id, s)
    requires forall id, s :: CompletedFor(db, id, s) ==> id in next.jobs && next.jobs[id] == db.jobs[id]
    requires forall s :: s in db.sessions ==> s in next.sessions
    requires forall s :: s in next.sessions ==>
               if s in db.sessions then next.sessions[s].through == db.sessions[s].through
                                        && db.sessions[s].Low() <= next.sessions[s].Low()
               else next.sessions[s].through == 0
    ensures Coverage(next)
  {
    hide Session.Low;
    forall s | s in next.sessions && s in db.sessions ensures NoHoles(next, s) {
      assert NoHoles(db, s);
      forall k | 1 <= k && next.sessions[s].Low() <= k <= next.sessions[s].through ensures IsCovered(next, s, k) {
        assert IsCovered(db, s, k);
        var id :| CoversAt(db, id, s, k);
        assert CoversAt(next, id, s, k);
      }
    }
  }

  lemma CompletedAreTheSame(db: Db, next: Db)
    requires Coverage(db) && AllQuieter(db, next)
    ensures Coverage(next)
  {
    hide Session.Low, Coverage, Job.Ok, Job.Blocking;
    forall id, s | CompletedFor(next, id, s) || CompletedFor(db, id, s)
      ensures id in db.jobs && next.jobs[id] == db.jobs[id]
    {
      assert Quieter(db.jobs[id], next.jobs[id]);
    }
    CoverageTransfers(db, next);
  }

  lemma QuieterKeepsInv(db: Db, next: Db)
    requires Inv(db) && AllQuieter(db, next)
    ensures Inv(next) && Advances(db, next)
  {
    assert RowsOk(next) && OneRunning(next) && OneBlocking(next) && KeysUnique(next);
    CompletedAreTheSame(db, next);
  }

  /** One row quieter, the rest untouched. */
  lemma OneQuieter(db: Db, id: JobId, k: Job)
    requires Inv(db) && id in db.jobs && Quieter(db.jobs[id], k)
    ensures Inv(db.(jobs := db.jobs[id := k])) && Advances(db, db.(jobs := db.jobs[id := k]))
  {
    var next := db.(jobs := db.jobs[id := k]);
    assert AllQuieter(db, next) by {
      hide Inv, Advances;
      forall i | i in db.jobs ensures Quieter(db.jobs[i], next.jobs[i]) {
        if i != id { assert next.jobs[i] == db.jobs[i]; }
      }
    }
    hide Inv, Advances, AllQuieter;
    QuieterKeepsInv(db, next);
  }

  lemma SweptIsQuieter(session: Session, j: Job, at: nat)
    ensures Quieter(j, SweptJob(session, j, at))
  {
  }

  lemma SweptKeepsInv(db: Db, at: nat)
    requires Inv(db)
    ensures Inv(Swept(db, at)) && Advances(db, Swept(db, at))
  {
    hide SweptJob, Inv, Advances;
    forall id | id in db.jobs ensures Quieter(db.jobs[id], Swept(db, at).jobs[id]) {
      SweptIsQuieter(db.Home(db.jobs[id].session), db.jobs[id], at);
    }
    QuieterKeepsInv(db, Swept(db, at));
  }

  lemma FailedKeepsInv(db: Db, id: JobId, code: Code, at: nat)
    requires Inv(db) && FailedWith(db, id, code, at).Ok?
    ensures Inv(FailedWith(db, id, code, at).value) && Advances(db, FailedWith(db, id, code, at).value)
  {
    hide Inv, Advances;
    OneQuieter(db, id, FailedWith(db, id, code, at).value.jobs[id]);
  }

  lemma DeferredIsQuieter(j: Job, budget: bool, consumed: bool, at: nat, latest: nat)
    requires j.status.Running?
    ensures Quieter(j, DeferredJob(j, budget, consumed, at, latest))
  {
  }

  lemma DeferredKeepsInv(db: Db, id: JobId, budget: bool, consumed: bool, at: nat)
    requires Inv(db) && Deferred(db, id, budget, consumed, at).Ok?
    ensures Inv(Deferred(db, id, budget, consumed, at).value)
    ensures Advances(db, Deferred(db, id, budget, consumed, at).value)
  {
    hide Inv, Advances, DeferredJob;
    var j := db.jobs[id];
    DeferredIsQuieter(j, budget, consumed, at, db.Home(j.session).latest);
    OneQuieter(db, id, Deferred(db, id, budget, consumed, at).value.jobs[id]);
  }

  /** A running job has at least one attempt, so handing it back never reaches the clamp. */
  lemma HandingBackNeverClamps(db: Db, id: JobId, at: nat)
    requires Inv(db) && id in db.jobs && db.jobs[id].status.Running?
    ensures Deferred(db, id, true, false, at).value.jobs[id].attempts == db.jobs[id].attempts - 1
    ensures Deferred(db, id, true, true, at).value.jobs[id].attempts == db.jobs[id].attempts
  {
  }

  lemma OnlyBlocker(db: Db, id: JobId, k: JobId)
    requires Inv(db) && id in db.jobs && k in db.jobs && k != id
    requires db.jobs[id].Blocking() && db.jobs[k].session == db.jobs[id].session
    ensures !db.jobs[k].Blocking()
  {
  }

  lemma SplitOffKeepsInv(db: Db, id: JobId, at: nat)
    requires Inv(db) && id in db.jobs && db.jobs[id].status.Running?
    ensures Inv(SplitOff(db, id, at)) && Advances(db, SplitOff(db, id, at))
    ensures !HasBlocking(SplitOff(db, id, at), db.jobs[id].session)
  {
    hide Inv, Advances;
    var next := SplitOff(db, id, at);
    OneQuieter(db, id, next.jobs[id]);
    hide Quieter, Job.Ok, Job.Allowance;
    forall k | k in next.jobs && next.jobs[k].session == db.jobs[id].session ensures !next.jobs[k].Blocking() {
      if k != id { OnlyBlocker(db, id, k); }
    }
  }

  // ----- Sessions: new turns, closing, restart and forget markers -----

  lemma FloorIsUnique(session: Session, f: Option<int>)
    requires session.IsFloor(f)
    ensures f == session.Floor()
  {
  }

  /** A new user turn fixes the floor once; later turns never move it. */
  lemma UserTurnKeepsLow(session: Session, next: Session)
    requires session.Ok() && next.marker == session.marker && next.users == session.users + {session.latest + 1}
    ensures session.Low() <= next.Low()
  {
    if session.marker.Some? {
      assert next.AfterMarker() == session.AfterMarker() + {session.latest + 1};
      match session.Floor()
      case None =>
      case Some(f) => FloorIsUnique(next, Some(f));
    }
  }

  lemma SameFloor(session: Session, next: Session)
    requires next.marker == session.marker && next.users == session.users
    ensures next.Floor() == session.Floor() && next.Low() == session.Low()
  {
  }

  ghost predicate SessionGrows(old_: Session, new_: Session) {
    && (old_.Ok() ==> new_.Ok())
    && new_.through == old_.through && old_.latest <= new_.latest && old_.Low() <= new_.Low()
  }

  lemma SessionsKeepInv(db: Db, next: Db)
    requires Inv(db) && next.jobs == db.jobs && next.summaries == db.summaries
    requires next.sessions.Keys == db.sessions.Keys
    requires forall s :: s in db.sessions ==> SessionGrows(db.sessions[s], next.sessions[s])
    ensures Inv(next) && Advances(db, next)
  {
    hide Session.Low, Session.Ok, Job.Ok, Job.Blocking;
    assert Coverage(next) by {
      hide OneRunning, OneBlocking, KeysUnique, SummaryRows;
      CoverageTransfers(db, next);
    }
    hide Coverage;
  }

  lemma SessionKeepsInv(db: Db, s: SessionId, session: Session)
    requires Inv(db) && s in db.sessions && SessionGrows(db.sessions[s], session)
    ensures Inv(WithSession(db, s, session)) && Advances(db, WithSession(db, s, session))
  {
    hide Inv, Advances, Session.Low, Session.Ok;
    SessionsKeepInv(db, WithSession(db, s, session));
  }

  lemma NewSessionKeepsCoverage(db: Db, s: SessionId, session: Session)
    requires RowsOk(db) && Coverage(db) && s !in db.sessions && session.through == 0
    ensures Coverage(WithSession(db, s, session))
  {
    hide Session.Low, Coverage, Session.Ok, Job.Ok;
    CoverageTransfers(db, WithSession(db, s, session));
  }

  lemma NewSessionKeepsInv(db: Db, s: SessionId, session: Session)
    requires Inv(db) && s !in db.sessions && session.Ok() && session.through == 0
    ensures Inv(WithSession(db, s, session)) && Advances(db, WithSession(db, s, session))
  {
    hide Session.Low, Session.Ok, Job.Ok, Job.Blocking, Coverage;
    NewSessionKeepsCoverage(db, s, session);
  }

  lemma ForgottenJobsKeepInv(db: Db, s: SessionId, at: nat)
    requires Inv(db)
    ensures Inv(db.(jobs := ForgottenJobs(db, s, at))) && Advances(db, db.(jobs := ForgottenJobs(db, s, at)))
  {
    var next := db.(jobs := ForgottenJobs(db, s, at));
    assert AllQuieter(db, next) by {
      hide Inv, Advances;
      forall id | id in db.jobs ensures Quieter(db.jobs[id], next.jobs[id]) {}
    }
    hide Inv, Advances, AllQuieter;
    QuieterKeepsInv(db, next);
  }

  lemma FewerSummaries(db: Db, rows: set<(SessionId, int)>)
    requires Inv(db) && rows <= db.summaries
    ensures Inv(db.(summaries := rows)) && Advances(db, db.(summaries := rows))
  {
    var next := db.(summaries := rows);
    hide Session.Low;
    CoverageTransfers(db, next);
  }

  lemma MarkerRaisesLow(session: Session)
    requires session.Ok()
    ensures SessionGrows(session, session.(marker := Some(session.latest)))
    ensures session.(marker := Some(session.latest)).Floor() == None
  {
  }

  lemma RowsAreOk(db: Db)
    requires Inv(db)
    ensures forall s :: s in db.sessions ==> db.sessions[s].Ok()
    ensures forall id :: id in db.jobs ==> db.jobs[id].Ok() && db.jobs[id].session in db.sessions
  {
  }

  lemma ForgotKeepsInv(db: Db, s: SessionId, at: nat)
    requires Inv(db) && s in db.sessions
    ensures Inv(Forgot(db, s, at).value) && Advances(db, Forgot(db, s, at).value)
  {
    hide Inv, Advances, SessionGrows, ForgottenJobs, Session.Low, Session.Ok, Session.Floor;
    var session := db.sessions[s].(marker := Some(db.sessions[s].latest));
    RowsAreOk(db);
    MarkerRaisesLow(db.sessions[s]);
    var rows := set row | row in db.summaries && row.0 != s;
    var a := db.(jobs := ForgottenJobs(db, s, at));
    ForgottenJobsKeepInv(db, s, at);
    var b := WithSession(a, s, session);
    SessionKeepsInv(a, s, session);
    AdvancesThrough(db, a, b);
    FewerSummaries(b, rows);
    AdvancesThrough(db, b, b.(summaries := rows));
  }

  lemma StatusKeepsInv(db: Db, s: SessionId, status: SessionStatus)
    requires Inv(db) && s in db.sessions
    ensures Inv(WithSession(db, s, db.sessions[s].(status := status)))
    ensures Advances(db, WithSession(db, s, db.sessions[s].(status := status)))
  {
    SameFloor(db.sessions[s], db.sessions[s].(status := status));
    hide Inv, Advances;
    SessionKeepsInv(db, s, db.sessions[s].(status := status));
  }

  lemma AdvancesSelf(db: Db)
    ensures Advances(db, db)
  {
  }

  lemma ClosedKeepsInv(db: Db, s: SessionId, status: SessionStatus, at: nat)
    requires Inv(db) && s in db.sessions
    ensures Inv(Closed(db, s, status, at)) && Advances(db, Closed(db, s, status, at))
  {
    hide Inv, Advances;
    var a := if db.sessions[s].marker.Some? then db.(jobs := ForgottenJobs(db, s, at)) else db;
    if db.sessions[s].marker.Some? { ForgottenJobsKeepInv(db, s, at); } else { AdvancesSelf(db); }
    StatusKeepsInv(a, s, status);
    AdvancesThrough(db, a, WithSession(a, s, a.sessions[s].(status := status)));
    assert Closed(db, s, status, at) == WithSession(a, s, a.sessions[s].(status := status));
  }

  /** What a restart leaves alone: every session but for its status, every job that was not
      running, the clocks, the summaries and with them the coverage of every message. */
  ghost predicate SameCoverage(db: Db, next: Db) {
    && next.sessions.Keys == db.sessions.Keys && next.jobs.Keys == db.jobs.Keys
    && (forall s :: s in db.sessions ==> next.sessions[s].(status := db.sessions[s].status) == db.sessions[s])
    && (forall id :: id in db.jobs && !db.jobs[id].status.Running? ==> next.jobs[id] == db.jobs[id])
    && next.clocks == db.clocks && next.summaries == db.summaries
    && (forall id, s, k :: CoversAt(next, id, s, k) <==> CoversAt(db, id, s, k))
  }

  lemma RestartKeepsCoverage(db: Db, at: nat)
    ensures SameCoverage(db, AfterRestart(db, at))
  {
  }

  lemma RestartKeepsInv(db: Db, at: nat)
    requires Inv(db)
    ensures Inv(AfterRestart(db, at)) && Advances(db, AfterRestart(db, at))
    ensures !AnyRunning(AfterRestart(db, at)) && SameCoverage(db, AfterRestart(db, at))
  {
    RestartKeepsCoverage(db, at);
    hide SameCoverage;
    var next := AfterRestart(db, at);
    var a := db.(jobs := next.jobs);
    assert AllQuieter(db, a) by {
      hide Inv, Advances;
      forall id | id in db.jobs ensures Quieter(db.jobs[id], a.jobs[id]) {}
    }
    hide Inv, Advances, AllQuieter, Quieter, Session.Low;
    forall s | s in db.sessions ensures SessionGrows(a.sessions[s], next.sessions[s]) {
      SameFloor(a.sessions[s], next.sessions[s]);
    }
    hide SessionGrows, Session.Ok;
    QuieterKeepsInv(db, a);
    SessionsKeepInv(a, next);
    AdvancesThrough(db, a, next);
  }

  // ----- Inserting work -----

  lemma ClocksKeepInv(db: Db, clocks: map<JobId, nat>)
    requires Inv(db)
    ensures Inv(db.(clocks := clocks)) && Advances(db, db.(clocks := clocks))
  {
    var next := db.(clocks := clocks);
    assert AllQuieter(db, next) by {
      hide Inv, Advances;
      forall id | id in db.jobs ensures Quieter(db.jobs[id], next.jobs[id]) {}
    }
    hide Inv, Advances, AllQuieter;
    QuieterKeepsInv(db, next);
  }

  lemma NewRowKeepsOneBlocking(db: Db, id: JobId, j: Job)
    requires OneBlocking(db) && id !in db.jobs && j.session in db.sessions && !HasBlocking(db, j.session)
    ensures OneBlocking(db.(jobs := db.jobs[id := j]))
  {
  }

  lemma NewRowKeepsCoverage(db: Db, id: JobId, j: Job)
    requires Coverage(db) && id !in db.jobs && j.session in db.sessions && j.status.Queued?
    ensures Coverage(db.(jobs := db.jobs[id := j]))
  {
    hide Session.Low, Coverage;
    CoverageTransfers(db, db.(jobs := db.jobs[id := j]));
  }

  /** A fresh queued row whose key is free, in a session without blocking work. */
  lemma NewRowKeepsInv(db: Db, id: JobId, j: Job)
    requires Inv(db) && id !in db.jobs && j.session in db.sessions && j.Ok() && j.status.Queued?
    requires !HasBlocking(db, j.session)
    requires forall k :: k in db.jobs ==> !SameKey(db.jobs[k], j)
    ensures Inv(db.(jobs := db.jobs[id := j])) && Advances(db, db.(jobs := db.jobs[id := j]))
  {
    hide Session.Low, Session.Ok, Job.Ok, Job.Blocking, Job.Allowance, Coverage, OneBlocking, HasBlocking;
    NewRowKeepsOneBlocking(db, id, j);
    NewRowKeepsCoverage(db, id, j);
  }

  /** The generation counts up to two because a third terminal generation closes the gate. */
  lemma GenerationAtMostTwo(db: Db, session: Session, at: nat, plan: Plan)
    requires plan.top.Some? ==> plan.top.value in db.jobs
    ensures NextGeneration(db, session, at, plan) <= 2
  {
  }

  lemma NewJobIsOk(s: SessionId, from: int, through: int, generation: nat, at: nat)
    requires 1 <= from <= through && generation <= 2
    ensures NewJob(s, from, through, generation, at).Ok()
  {
  }

  lemma SameBlocking(db: Db, next: Db, s: SessionId)
    requires next.jobs == db.jobs
    ensures HasBlocking(next, s) <==> HasBlocking(db, s)
  {
  }

  lemma InsertedKeepsInv(db: Db, s: SessionId, from: int, through: int, at: nat, plan: Plan)
    requires Inv(db) && s in db.sessions && GoodPlan(db, s, from, plan) && 1 <= from <= through
    requires plan.top.Some? ==> plan.top.value in db.jobs
    requires !HasBlocking(db, s)
    ensures var r := Inserted(db, s, from, through, at, plan);
            r.Ok? ==> Inv(r.value) && Advances(db, r.value)
  {
    hide Inv, Advances, NextGeneration, ClocksAfter, Held, Session.RangeAllowed, IsTop, Job.Ok, HasBlocking;
    var session := db.sessions[s];
    var clocks := ClocksAfter(db, session, plan.top, at);
    var generation := NextGeneration(db, session, at, plan);
    GenerationAtMostTwo(db, session, at, plan);
    var j := NewJob(s, from, through, generation, at);
    NewJobIsOk(s, from, through, generation, at);
    var clocked := db.(clocks := clocks);
    ClocksKeepInv(db, clocks);
    if !exists id :: KeyAt(db, id, s, from, through) && db.jobs[id].generation == generation {
      forall k | k in db.jobs ensures !SameKey(db.jobs[k], j) {
        assert !(KeyAt(db, k, s, from, through) && db.jobs[k].generation == generation);
      }
      SameBlocking(db, clocked, s);
      NewRowKeepsInv(clocked, plan.id, j);
      AdvancesThrough(db, clocked, clocked.(jobs := db.jobs[plan.id := j]));
    }
  }

  lemma EnqueuedKeepsInv(db: Db, s: SessionId, from: int, through: int, at: nat, id: JobId)
    requires Inv(db) && Possible(db, EnqueueRange(s, from, through, at, id))
    ensures var r := Enqueued(db, s, from, through, at, id);
            r.Ok? ==> Inv(r.value) && Advances(db, r.value)
  {
    hide Inv, Advances, Session.RangeAllowed, Session.Start;
    AdvancesSelf(db);
    var r := Enqueued(db, s, from, through, at, id);
    if r.Ok? && r.value != db {
      var j := NewJob(s, from, through, 0, at);
      forall k | k in db.jobs ensures !SameKey(db.jobs[k], j) {
        assert !KeyAt(db, k, s, from, through);
      }
      NewRowKeepsInv(db, id, j);
    }
  }

  lemma GoodPlanEnds(db: Db, s: SessionId, from: int, plan: Plan)
    requires GoodPlan(db, s, from, plan) && plan.end.Some?
    ensures from <= plan.end.value
    ensures plan.top.Some? ==> plan.top.value in db.jobs
  {
  }

  lemma GoodPlanIgnoresClocks(db: Db, clocks: map<JobId, nat>, s: SessionId, from: int, plan: Plan)
    requires GoodPlan(db, s, from, plan)
    ensures GoodPlan(db.(clocks := clocks), s, from, plan)
  {
    match plan.top
    case None =>
      forall id ensures !TerminalAt(db.(clocks := clocks), id, s, from) { assert !TerminalAt(db, id, s, from); }
    case Some(t) =>
      forall id | TerminalAt(db.(clocks := clocks), id, s, from) ensures RanksBelow(db.jobs[id], id, db.jobs[t], t) {
        assert TerminalAt(db, id, s, from);
      }
  }

  lemma EnqueuedClosedKeepsInv(db: Db, s: SessionId, at: nat, plan: Plan)
    requires Inv(db) && s in db.sessions && GoodPlan(db, s, db.sessions[s].through + 1, plan)
    requires plan.top.Some? ==> plan.top.value in db.jobs
    ensures var r := EnqueuedClosed(db, s, at, plan);
            r.Ok? ==> Inv(r.value) && Advances(db, r.value)
  {
    hide Inv, Advances, ClocksAfter, Held, Inserted, Session.Within, IsTop, HasBlocking, GoodPlan;
    var session := db.sessions[s];
    var clocks := ClocksAfter(db, session, plan.top, at);
    var clocked := db.(clocks := clocks);
    AdvancesSelf(db);
    ClocksKeepInv(db, clocks);
    if plan.end.Some? && !HasBlocking(db, s) {
      SameBlocking(db, clocked, s);
      GoodPlanIgnoresClocks(db, clocks, s, session.through + 1, plan);
      GoodPlanEnds(clocked, s, session.through + 1, plan);
      InsertedKeepsInv(clocked, s, session.through + 1, plan.end.value, at, plan);
      var r := Inserted(clocked, s, session.through + 1, plan.end.value, at, plan);
      if r.Ok? { AdvancesThrough(db, clocked, r.value); }
    }
  }

  lemma ScheduledKeepsInv(db: Db, s: SessionId, threshold: nat, keepRecent: nat, maxMessages: nat, at: nat,
                          batch: int -> Option<int>, plan: Plan)
    requires Inv(db) && Possible(db, ScheduleActive(s, threshold, keepRecent, maxMessages, at, batch, plan))
    requires plan.top.Some? ==> plan.top.value in db.jobs
    ensures var r := Scheduled(db, s, threshold, keepRecent, maxMessages, at, batch, plan);
            r.Ok? ==> Inv(r.value) && Advances(db, r.value)
  {
    hide Inv, Advances, Held, Inserted, PlannedRows, IsNth, GoodPlan;
    AdvancesSelf(db);
    var r := Scheduled(db, s, threshold, keepRecent, maxMessages, at, batch, plan);
    if r.Ok? && r.value != db {
      var start := db.sessions[s].Start().value;
      var end := Nth(db.sessions[s], start, Min(PlannedRows(db.sessions[s], start) - keepRecent, maxMessages));
      RowsAreOk(db);
      assert 1 <= start;
      InsertedKeepsInv(db, s, start, batch(end).value, at, plan);
    }
  }

  // ----- Claiming -----

  /** Only a job that still has an allowance is claimed; the claim spends one unit of it. */
  lemma BegunSpendsAllowance(db: Db, id: JobId, at: nat, time: nat)
    requires Inv(db) && Eligible(db, id, at)
    ensures var j, k := db.jobs[id], Begun(db.jobs[id], time);
            j.Blocking() && !j.status.Completed? && k.Ok() && SameKey(j, k) && k.Allowance() + 1 == j.Allowance()
  {
  }

  lemma BegunKeepsOneBlocking(db: Db, id: JobId, k: Job)
    requires OneBlocking(db) && id in db.jobs && SameKey(db.jobs[id], k) && db.jobs[id].Blocking()
    ensures OneBlocking(db.(jobs := db.jobs[id := k]))
  {
  }

  lemma BegunKeepsCoverage(db: Db, id: JobId, k: Job)
    requires Coverage(db) && id in db.jobs && SameKey(db.jobs[id], k)
    requires !db.jobs[id].status.Completed? && !k.status.Completed?
    ensures Coverage(db.(jobs := db.jobs[id := k]))
  {
    hide Session.Low, Coverage;
    CoverageTransfers(db, db.(jobs := db.jobs[id := k]));
  }

  lemma BegunKeepsInv(db: Db, id: JobId, at: nat)
    requires Inv(db) && id in db.jobs && Eligible(db, id, at) && !AnyRunning(db)
    ensures var next := db.(jobs := db.jobs[id := Begun(db.jobs[id], at)]);
            Inv(next) && Advances(db, next) && next.jobs[id].Allowance() + 1 == db.jobs[id].Allowance()
  {
    hide Session.Low, Session.Ok, Job.Ok, Job.Allowance, Job.Blocking, Eligible, Coverage, OneBlocking;
    var j, k := db.jobs[id], Begun(db.jobs[id], at);
    var next := db.(jobs := db.jobs[id := k]);
    BegunSpendsAllowance(db, id, at, at);
    BegunKeepsOneBlocking(db, id, k);
    assert !j.status.Completed? && !k.status.Completed?;
    BegunKeepsCoverage(db, id, k);
    forall i | i in db.jobs ensures !db.jobs[i].status.Running? {}
  }

  lemma AllowanceFalls(db: Db, next: Db, id: JobId)
    requires Advances(db, next) && id in db.jobs
    ensures id in next.jobs && next.jobs[id].Allowance() <= db.jobs[id].Allowance()
  {
  }

  lemma ClaimedKeepsInv(db: Db, at: nat, choice: Option<JobId>)
    requires Inv(db) && Possible(db, Claim(at, choice))
    ensures Inv(Claimed(db, at, choice)) && Advances(db, Claimed(db, at, choice))
    ensures choice.Some? ==>
              Claimed(db, at, choice).jobs[choice.value].Allowance() + 1 <= db.jobs[choice.value].Allowance()
  {
    hide Inv, Advances, SweptJob, Eligible, Begun;
    AdvancesSelf(db);
    if !AnyRunning(db) {
      var swept := Swept(db, at);
      SweptKeepsInv(db, at);
      if choice.Some? {
        assert !AnyRunning(swept) by {
          forall id | id in swept.jobs ensures !swept.jobs[id].status.Running? {
            SweptIsQuieter(db.Home(db.jobs[id].session), db.jobs[id], at);
          }
        }
        BegunKeepsInv(swept, choice.value, at);
        AdvancesThrough(db, swept, Claimed(db, at, choice));
        AllowanceFalls(db, swept, choice.value);
      }
    }
  }

  // ----- Completing -----

  lemma LowBelowFrom(session: Session, j: Job, k: int)
    requires session.Start() == Some(j.from) && session.Low() <= k && session.through < k
    ensures j.from <= k
  {
  }

  /** A completed range starts right after the pointer, or at the floor when forgetting moved it. */
  lemma CoveredKeepsCoverage(db: Db, id: JobId, at: nat)
    requires Inv(db) && id in db.jobs && Completable(db, id, db.jobs[id].through)
    ensures Coverage(Covered(db, id, at))
  {
    hide OneRunning, OneBlocking, KeysUnique, SummaryRows, Session.Within, Session.Ok, Job.Blocking, Job.Allowance;
    var j, next := db.jobs[id], Covered(db, id, at);
    var session, after := db.sessions[j.session], next.sessions[j.session];
    SameFloor(session, after);
    assert session.Low() <= j.from && session.through < j.from && after.through == j.through;
    hide Session.Floor, Session.Low, Session.Start, Session.RangeAllowed;
    forall i, s | CompletedFor(next, i, s) && i != id ensures CompletedFor(db, i, s) && next.jobs[i] == db.jobs[i] {}
    assert CompletedFor(next, id, j.session);
    forall s | s in next.sessions ensures NoHoles(next, s) {
      assert NoHoles(db, s);
      forall k | 1 <= k && next.sessions[s].Low() <= k <= next.sessions[s].through ensures IsCovered(next, s, k) {
        if s == j.session && k > session.through {
          LowBelowFrom(session, j, k);
          assert CoversAt(next, id, s, k);
        } else {
          assert IsCovered(db, s, k);
          var i :| CoversAt(db, i, s, k);
          assert CoversAt(next, i, s, k);
        }
      }
    }
  }

  /** The unique key (session, through) of the summary table is always free at completion. */
  lemma SummaryKeyIsFree(db: Db, id: JobId, through: int)
    requires Inv(db) && Completable(db, id, through)
    ensures (db.jobs[id].session, through) !in db.summaries
  {
  }

  lemma StartsPastPointer(db: Db, id: JobId)
    requires Inv(db) && id in db.jobs && Completable(db, id, db.jobs[id].through)
    ensures db.jobs[id].session in db.sessions
    ensures db.sessions[db.jobs[id].session].through < db.jobs[id].from <= db.jobs[id].through
  {
  }

  lemma CoveredKeepsRows(db: Db, id: JobId, at: nat)
    requires Inv(db) && id in db.jobs && Completable(db, id, db.jobs[id].through)
    ensures RowsOk(Covered(db, id, at)) && OneRunning(Covered(db, id, at)) && KeysUnique(Covered(db, id, at))
  {
    hide Coverage, OneBlocking, SummaryRows, Session.Within, Session.Start, Session.Low, Session.RangeAllowed;
    StartsPastPointer(db, id);
    assert Covered(db, id, at).jobs[id].Ok();
  }

  lemma CoveredAdvances(db: Db, id: JobId, at: nat)
    requires Inv(db) && id in db.jobs && Completable(db, id, db.jobs[id].through)
    ensures Advances(db, Covered(db, id, at))
  {
    hide Inv, Session.Within, Session.Start, Session.Low, Session.Floor, Session.RangeAllowed, Session.Ok;
    StartsPastPointer(db, id);
    var j, next := db.jobs[id], Covered(db, id, at);
    RowsAreOk(db);
    SameFloor(db.sessions[j.session], next.sessions[j.session]);
    assert SameKey(j, next.jobs[id]) && next.jobs[id].Allowance() <= j.Allowance();
    hide Job.Allowance, Job.Ok;
  }

  lemma CoveredKeepsOneBlocking(db: Db, id: JobId, at: nat)
    requires OneBlocking(db) && id in db.jobs && db.jobs[id].status.Running?
    ensures OneBlocking(Covered(db, id, at))
  {
  }

  lemma CoveredKeepsInv(db: Db, id: JobId, at: nat)
    requires Inv(db) && id in db.jobs && Completable(db, id, db.jobs[id].through)
    ensures Inv(Covered(db, id, at)) && Advances(db, Covered(db, id, at))
    ensures db.jobs[id].session in Covered(db, id, at).sessions
    ensures Covered(db, id, at).sessions[db.jobs[id].session].through == db.jobs[id].through
  {
    hide Coverage, OneBlocking, OneRunning, KeysUnique, Advances, Session.Within, Session.Low, Session.Floor,
      Session.RangeAllowed, Session.Ok, Job.Blocking;
    CoveredKeepsCoverage(db, id, at);
    CoveredKeepsRows(db, id, at);
    CoveredAdvances(db, id, at);
    CoveredKeepsOneBlocking(db, id, at);
    StartsPastPointer(db, id);
  }

  lemma CompletedSummaryKeepsInv(db: Db, id: JobId, through: int, at: nat, plan: Plan)
    requires Inv(db) && Possible(db, Complete(id, through, at, plan))
    requires plan.top.Some? ==> plan.top.value in db.jobs
    ensures var r := CompletedSummary(db, id, through, at, plan);
            r.Ok? ==> Inv(r.value) && Advances(db, r.value)
  {
    hide Inv, Advances, EnqueuedClosed, GoodPlan, Session.Start, Session.RangeAllowed, Session.Within, IsNext,
      AnyRunning;
    if Completable(db, id, through) {
      var mid, s := Covered(db, id, at), db.jobs[id].session;
      CoveredKeepsInv(db, id, at);
      EnqueuedClosedKeepsInv(mid, s, at, plan);
      var r := EnqueuedClosed(mid, s, at, plan);
      if r.Ok? { AdvancesThrough(db, mid, r.value); }
    }
  }

  lemma FinishedKeepsInv(db: Db, s: SessionId, status: SessionStatus, at: nat, plan: Plan)
    requires Inv(db) && Possible(db, Finish(s, status, at, plan))
    requires plan.top.Some? ==> plan.top.value in db.jobs
    ensures var r := Finished(db, s, status, at, plan);
            r.Ok? ==> Inv(r.value) && Advances(db, r.value)
  {
    hide Inv, Advances, EnqueuedClosed, GoodPlan, ForgottenJobs;
    if s in db.sessions {
      var mid := Closed(db, s, status, at);
      ClosedKeepsInv(db, s, status, at);
      EnqueuedClosedKeepsInv(mid, s, at, plan);
      var r := EnqueuedClosed(mid, s, at, plan);
      if r.Ok? { AdvancesThrough(db, mid, r.value); }
    }
  }

  lemma RowBounds(j: Job)
    requires j.Ok()
    ensures 1 <= j.from <= j.through
  {
  }

  lemma RebatchedKeepsInv(db: Db, id: JobId, through: int, at: nat, plan: Plan)
    requires Inv(db) && Possible(db, Rebatch(id, through, at, plan))
    requires plan.top.Some? ==> plan.top.value in db.jobs
    ensures var r := RebatchedTo(db, id, through, at, plan);
            r.Ok? ==> Inv(r.value) && Advances(db, r.value)
  {
    hide Inv, Advances, Inserted, GoodPlan, HasBlocking, Job.Ok, Job.Blocking;
    RowsAreOk(db);
    if Rebatchable(db, id, through) {
      RowBounds(db.jobs[id]);
      var mid, s, from := SplitOff(db, id, at), db.jobs[id].session, db.jobs[id].from;
      SplitOffKeepsInv(db, id, at);
      InsertedKeepsInv(mid, s, from, through, at, plan);
      var r := Inserted(mid, s, from, through, at, plan);
      if r.Ok? { AdvancesThrough(db, mid, r.value); }
    }
  }

  // ----- Every step, every run -----

  lemma UserMessageKeepsInv(db: Db, s: SessionId)
    requires Inv(db) && s in db.sessions
    ensures var session := db.sessions[s];
            var next := WithSession(db, s, session.(status := Active, latest := session.latest + 1,
                                                    committed := session.committed + {session.latest + 1},
                                                    users := session.users + {session.latest + 1}));
            Inv(next) && Advances(db, next)
  {
    RowsAreOk(db);
    hide Inv, Advances;
    var session := db.sessions[s];
    var next := session.(status := Active, latest := session.latest + 1,
                         committed := session.committed + {session.latest + 1},
                         users := session.users + {session.latest + 1});
    UserTurnKeepsLow(session, next);
    SessionKeepsInv(db, s, next);
  }

  lemma AnswerKeepsInv(db: Db, s: SessionId, status: SessionStatus, latest: nat, committed: set<int>)
    requires Inv(db) && s in db.sessions && db.sessions[s].latest <= latest
    requires committed >= db.sessions[s].committed && forall c :: c in committed ==> 1 <= c <= latest
    ensures var next := WithSession(db, s, db.sessions[s].(status := status, latest := latest, committed := committed));
            Inv(next) && Advances(db, next)
  {
    RowsAreOk(db);
    hide Inv, Advances;
    var next := db.sessions[s].(status := status, latest := latest, committed := committed);
    SameFloor(db.sessions[s], next);
    SessionKeepsInv(db, s, next);
  }

  lemma SessionStepKeepsInv(db: Db, e: Event)
    requires Inv(db) && Possible(db, e)
    requires e.CreateSession? || e.CommitUserMessage? || e.SetLive?
    ensures Inv(Step(db, e)) && Advances(db, Step(db, e))
  {
    hide Inv, Advances, Session.Low, Session.Start, Session.Floor;
    AdvancesSelf(db);
    match e
    case CreateSession(s, guest) => NewSessionKeepsInv(db, s, Session(Active, guest, 0, 0, {}, {}, None));
    case CommitUserMessage(s) => if s in db.sessions { UserMessageKeepsInv(db, s); }
    case SetLive(s, status) => if s in db.sessions { StatusKeepsInv(db, s, status); }
  }

  lemma AnswerStepKeepsInv(db: Db, e: Event)
    requires Inv(db) && Possible(db, e) && (e.StartAnswer? || e.CommitAnswer?)
    ensures Inv(Step(db, e)) && Advances(db, Step(db, e))
  {
    hide Inv, Advances, Session.Low, Session.Start, Session.Floor;
    AdvancesSelf(db);
    RowsAreOk(db);
    if e.s in db.sessions {
      var session := db.sessions[e.s];
      if e.StartAnswer? {
        AnswerKeepsInv(db, e.s, Active, session.latest + 1, session.committed);
      } else {
        AnswerKeepsInv(db, e.s, session.status, session.latest, session.committed + {e.sequence});
      }
    }
  }

  lemma ForgetKeepsInv(db: Db, s: SessionId, at: nat)
    requires Inv(db)
    ensures var r := Forgot(db, s, at);
            r.Ok? ==> Inv(r.value) && Advances(db, r.value)
  {
    if s in db.sessions { ForgotKeepsInv(db, s, at); }
  }

  lemma SettleStepKeepsInv(db: Db, e: Event)
    requires Inv(db) && Possible(db, e) && (e.Claim? || e.Fail? || e.Defer? || e.Forget? || e.Restart?)
    ensures Inv(Step(db, e)) && Advances(db, Step(db, e))
  {
    hide Inv, Advances, Possible, Claimed, FailedWith, Deferred, Forgot, AfterRestart;
    AdvancesSelf(db);
    match e
    case Claim(at, choice) => ClaimedKeepsInv(db, at, choice);
    case Fail(id, code, at) => if FailedWith(db, id, code, at).Ok? { FailedKeepsInv(db, id, code, at); }
    case Defer(id, budget, consumed, at) =>
      if Deferred(db, id, budget, consumed, at).Ok? { DeferredKeepsInv(db, id, budget, consumed, at); }
    case Forget(s, at) => ForgetKeepsInv(db, s, at);
    case Restart(at) => RestartKeepsInv(db, at);
  }

  lemma PlanRowExists(db: Db, e: Event)
    requires Possible(db, e)
    ensures e.Finish? || e.ScheduleActive? || e.EnqueueClosed? || e.Complete? || e.Rebatch? ==>
              (e.plan.top.Some? ==> e.plan.top.value in db.jobs)
  {
  }

  lemma ClosedSweepKeepsInv(db: Db, s: SessionId, at: nat, plan: Plan)
    requires Inv(db) && Possible(db, EnqueueClosed(s, at, plan))
    requires plan.top.Some? ==> plan.top.value in db.jobs
    ensures var r := EnqueuedClosed(db, s, at, plan);
            r.Ok? ==> Inv(r.value) && Advances(db, r.value)
  {
    hide Inv, Advances;
    AdvancesSelf(db);
    if s in db.sessions { EnqueuedClosedKeepsInv(db, s, at, plan); }
  }

  lemma EnqueueStepKeepsInv(db: Db, e: Event)
    requires Inv(db) && Possible(db, e)
    requires e.Finish? || e.ScheduleActive? || e.EnqueueRange? || e.EnqueueClosed? || e.Complete? || e.Rebatch?
    ensures Inv(Step(db, e)) && Advances(db, Step(db, e))
  {
    hide Inv, Advances, Possible, Scheduled, Enqueued, EnqueuedClosed, CompletedSummary, RebatchedTo, Finished;
    PlanRowExists(db, e);
    AdvancesSelf(db);
    match e
    case Finish(s, status, at, plan) => FinishedKeepsInv(db, s, status, at, plan);
    case ScheduleActive(s, threshold, keepRecent, maxMessages, at, batch, plan) =>
      ScheduledKeepsInv(db, s, threshold, keepRecent, maxMessages, at, batch, plan);
    case EnqueueRange(s, from, through, at, id) => EnqueuedKeepsInv(db, s, from, through, at, id);
    case EnqueueClosed(s, at, plan) => ClosedSweepKeepsInv(db, s, at, plan);
    case Complete(id, through, at, plan) => CompletedSummaryKeepsInv(db, id, through, at, plan);
    case Rebatch(id, through, at, plan) => RebatchedKeepsInv(db, id, through, at, plan);
  }

  lemma StepKeepsInv(db: Db, e: Event)
    requires Inv(db) && Possible(db, e)
    ensures Inv(Step(db, e)) && Advances(db, Step(db, e))
  {
    hide Inv, Advances, Possible, Step;
    match e
    case CreateSession(_, _) => SessionStepKeepsInv(db, e);
    case CommitUserMessage(_) => SessionStepKeepsInv(db, e);
    case StartAnswer(_) => AnswerStepKeepsInv(db, e);
    case CommitAnswer(_, _) => AnswerStepKeepsInv(db, e);
    case SetLive(_, _) => SessionStepKeepsInv(db, e);
    case Claim(_, _) => SettleStepKeepsInv(db, e);
    case Fail(_, _, _) => SettleStepKeepsInv(db, e);
    case Defer(_, _, _, _) => SettleStepKeepsInv(db, e);
    case Forget(_, _) => SettleStepKeepsInv(db, e);
    case Restart(_) => SettleStepKeepsInv(db, e);
    case _ => EnqueueStepKeepsInv(db, e);
  }

  /** In every run: at most one running job, at most one blocking job per session, unique keys,
      generations at most two, pointers that only grow and never pass the latest message, and
      completed ranges that are disjoint and leave no hole above the floor. */
  lemma {:induction false} RunKeepsInv(db: Db, events: seq<Event>)
    requires Inv(db) && ValidRun(db, events)
    ensures Inv(Run(db, events)) && Advances(db, Run(db, events))
    decreases |events|
  {
    hide Inv, Advances, Step, Possible;
    if events == [] {
      AdvancesSelf(db);
    } else {
      StepKeepsInv(db, events[0]);
      RunKeepsInv(Step(db, events[0]), events[1..]);
      AdvancesThrough(db, Step(db, events[0]), Run(db, events));
    }
  }

  lemma EmptyStoreIsSound()
    ensures Inv(Db(map[], map[], map[], {}))
  {
  }

  function AllowanceOf(db: Db, id: JobId): int {
    if id in db.jobs then db.jobs[id].Allowance() else MAX_ATTEMPTS + MAX_DEFERRALS - 1
  }

  lemma ClaimIsTheStep(db: Db, e: Event)
    requires Possible(db, e) && e.Claim?
    ensures e.choice.Some? ==> e.choice.value in db.jobs
    ensures Step(db, e) == Claimed(db, e.at, e.choice)
  {
  }

  lemma StepSpendsAllowance(db: Db, e: Event, id: JobId)
    requires Inv(db) && Possible(db, e)
    ensures AllowanceOf(Step(db, e), id) <= AllowanceOf(db, id)
    ensures e.Claim? && e.choice == Some(id) ==> AllowanceOf(Step(db, e), id) + 1 <= AllowanceOf(db, id)
    ensures 0 <= AllowanceOf(Step(db, e), id)
  {
    hide Inv, Advances, Step, Possible, Claimed;
    StepKeepsInv(db, e);
    RowsAreOk(Step(db, e));
    if id in db.jobs { AllowanceFalls(db, Step(db, e), id); }
    if e.Claim? {
      ClaimIsTheStep(db, e);
      ClaimedKeepsInv(db, e.at, e.choice);
    }
  }

  /** A job is claimed at most 26 times in any run: failures, deferrals, shutdowns and
      restarts never restore an allowance that a claim has spent. */
  lemma {:induction false} ClaimsAreBounded(db: Db, events: seq<Event>, id: JobId)
    requires Inv(db) && ValidRun(db, events)
    ensures Claims(db, events, id) <= AllowanceOf(db, id) <= 26
    decreases |events|
  {
    hide Inv, Step, Possible, Advances;
    if events != [] {
      StepKeepsInv(db, events[0]);
      StepSpendsAllowance(db, events[0], id);
      ClaimsAreBounded(Step(db, events[0]), events[1..], id);
    } else {
      RowsAreOk(db);
    }
  }

  lemma SweptKeepsCreated(db: Db, at: nat, id: JobId)
    ensures id in Swept(db, at).jobs <==> id in db.jobs
    ensures id in db.jobs ==> Swept(db, at).jobs[id].created == db.jobs[id].created
  {
    hide Stale;
  }

  /** The completed ranges of a session that never met a forget marker partition the
      messages up to its pointer. */
  lemma CompletedRangesPartition(db: Db, s: SessionId, k: int)
    requires Inv(db) && s in db.sessions && db.sessions[s].marker.None? && 1 <= k <= db.sessions[s].through
    ensures exists id :: CoversAt(db, id, s, k) && forall other :: CoversAt(db, other, s, k) ==> other == id
  {
    hide RowsOk, OneRunning, OneBlocking, KeysUnique, SummaryRows;
    assert NoHoles(db, s) && IsCovered(db, s, k);
    var id :| CoversAt(db, id, s, k);
    forall other | CoversAt(db, other, s, k) ensures other == id {
      assert CompletedFor(db, id, s) && CompletedFor(db, other, s);
    }
  }

  lemma WithinSplits(session: Session, from: int, middle: int, latest: int)
    requires from <= middle <= latest
    ensures |session.Within(from, latest)| == |session.Within(from, middle)| + |session.Within(middle + 1, latest)|
  {
    var first, rest := session.Within(from, middle), session.Within(middle + 1, latest);
    assert session.Within(from, latest) == first + rest && first !! rest;
  }

  lemma SmallerRange(session: Session, from: int, through: int, end: int)
    requires through <= end
    ensures |session.Within(from, through)| <= |session.Within(from, end)|
  {
    SubsetSize(session.Within(from, through), session.Within(from, end));
  }

  /** An actively scheduled range leaves the newest `keepRecent` committed messages alone,
      wherever the byte planner cuts it. */
  lemma SchedulingKeepsRecent(db: Db, s: SessionId, threshold: nat, keepRecent: nat, maxMessages: nat, at: nat,
                              batch: int -> Option<int>, plan: Plan)
    requires Inv(db) && Possible(db, ScheduleActive(s, threshold, keepRecent, maxMessages, at, batch, plan))
    requires s in db.sessions && plan.id !in db.jobs && (plan.top.Some? ==> plan.top.value in db.jobs)
    requires var r := Scheduled(db, s, threshold, keepRecent, maxMessages, at, batch, plan);
             r.Ok? && plan.id in r.value.jobs
    ensures var j := Scheduled(db, s, threshold, keepRecent, maxMessages, at, batch, plan).value.jobs[plan.id];
            && db.sessions[s].Start() == Some(j.from)
            && |db.sessions[s].Within(j.through + 1, db.sessions[s].latest)| >= keepRecent
            && |db.sessions[s].Within(j.from, j.through)| <= maxMessages
  {
    hide Inv, Held, ClocksAfter, NextGeneration, Session.RangeAllowed, Session.Start, Session.Floor, Session.Within,
      IsTop, HasBlocking, Job.Ok;
    var session := db.sessions[s];
    var j := Scheduled(db, s, threshold, keepRecent, maxMessages, at, batch, plan).value.jobs[plan.id];
    var end := Nth(session, j.from, Min(PlannedRows(session, j.from) - keepRecent, maxMessages));
    SmallerRange(session, j.from, j.through, end);
    WithinSplits(session, j.from, j.through, session.latest);
  }
}
