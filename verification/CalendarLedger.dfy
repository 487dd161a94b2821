/** The calendar write ledger: previewed operations, one-use confirmations, a single write in
    flight, restart recovery and read-only reconciliation. */
module CalendarLedger {
  import opened CalendarPhrases
  import opened Texts
  import opened Wrappers

  type OpId = nat
  type TaskId = nat

  datatype State = Pending | Sending | Succeeded | Failed | Conflict | Unknown | Dismissed | Expired

  datatype Operation = Operation(kind: Kind, phrase: Text, expires: int, state: State)

  /** The worker behind `work`; `sent` once its request has left. */
  datatype Flight = Flight(op: OpId, sent: bool)

  /** A reconciliation waiting for the remote event, with the copy it read before. `flying`
      records whether its operation was in flight at that moment. */
  datatype Reconciliation = Reconciliation(op: OpId, copy: Operation, flying: bool)

  /** What happened, in order: an accepted confirmation, a request leaving, its answer being
      recorded, and the death of a process. */
  datatype Entry = Confirmed(op: OpId) | Began(op: OpId) | Ended(op: OpId) | Crashed

  datatype Service = Service(ops: map<OpId, Operation>, work: Option<Flight>,
                             reconciling: map<TaskId, Reconciliation>, log: seq<Entry>)

  /** How the transport answered; status 0 stands for an error without an HTTP status. */
  datatype Reply = Good | Problem(status: nat)

  function StateOf(reply: Reply): State {
    match reply
    case Good => Succeeded
    case Problem(status) =>
      if status == 412 then Conflict
      else if 400 <= status < 500 && status != 409 then Failed
      else Unknown
  }

  // ----- Steps -----

  function Previewed(s: Service, id: OpId, kind: Kind, now: int): Service {
    s.(ops := s.ops[id := Operation(kind, ShortConfirmation(kind), now + 300_000, Pending)])
  }

  function DismissedOp(s: Service, id: OpId): Service {
    if id in s.ops && s.ops[id].state.Pending?
    then s.(ops := s.ops[id := s.ops[id].(state := Dismissed)]) else s
  }

  predicate Confirmable(s: Service, id: OpId, phrase: Text, now: int) {
    s.work.None? && id in s.ops && s.ops[id].state.Pending? && s.ops[id].expires > now
    && Confirms(phrase, s.ops[id].phrase)
  }

  /** The state is persisted as sending before anything can leave. */
  function ConfirmedOp(s: Service, id: OpId, phrase: Text, now: int): Service {
    if Confirmable(s, id, phrase, now) then
      s.(ops := s.ops[id := s.ops[id].(state := Sending)], work := Some(Flight(id, false)),
         log := s.log + [Confirmed(id)])
    else s
  }

  function Sent(s: Service): Service
    requires s.work.Some? && !s.work.value.sent
  {
    s.(work := Some(Flight(s.work.value.op, true)), log := s.log + [Began(s.work.value.op)])
  }

  /** The worker saves its own copy of the row, whatever happened to the row meanwhile. */
  function Finished(s: Service, reply: Reply): Service
    requires s.work.Some? && s.work.value.op in s.ops
  {
    var id := s.work.value.op;
    s.(ops := s.ops[id := s.ops[id].(state := StateOf(reply))], work := None,
       log := if s.work.value.sent then s.log + [Ended(id)] else s.log)
  }

  predicate Reconcilable(state: State) {
    state.Succeeded? || state.Unknown? || state.Sending?
  }

  function ReconcileStarted(s: Service, t: TaskId, id: OpId): Service {
    if id !in s.ops || !Reconcilable(s.ops[id].state) then s
    else
      var op := if s.ops[id].state.Sending? then s.ops[id].(state := Unknown) else s.ops[id];
      s.(ops := s.ops[id := op],
         reconciling := s.reconciling[t := Reconciliation(id, op, s.work.Some? && s.work.value.op == id)])
  }

  /** What the remote event shows: the intended event, its absence, something else, or nothing. */
  datatype Remote = Matches | Gone | Differs | NoAnswer

  predicate Proves(kind: Kind, remote: Remote) {
    if kind.Cancel? then remote.Gone? else remote.Matches?
  }

  function ReconcileFinished(s: Service, t: TaskId, remote: Remote): Service
    requires t in s.reconciling
  {
    var r := s.reconciling[t];
    var rest := s.(reconciling := s.reconciling - {t});
    if Proves(r.copy.kind, remote) then rest.(ops := s.ops[r.op := r.copy.(state := Succeeded)]) else rest
  }

  function RecoveredState(state: State): State {
    match state
    case Sending => Unknown
    case Pending => Expired
    case _ => state
  }

  function Restarted(s: Service): Service {
    Service(map id | id in s.ops :: s.ops[id].(state := RecoveredState(s.ops[id].state)),
            None, map[], s.log + [Crashed])
  }

  // ----- Runs -----

  datatype Event =
    | Preview(id: OpId, kind: Kind, now: int)
    | Dismiss(id: OpId)
    | Confirm(id: OpId, phrase: Text, now: int)
    | Send
    | Finish(reply: Reply)
    | ReconcileStart(task: TaskId, id: OpId)
    | ReconcileFinish(task: TaskId, remote: Remote)
    | Restart

  /** Ids are fresh; a worker that never sent cannot have been answered well. */
  predicate Possible(s: Service, e: Event) {
    match e
    case Preview(id, _, _) => id !in s.ops
    case Send => s.work.Some? && !s.work.value.sent
    case Finish(reply) => s.work.Some? && s.work.value.op in s.ops && (reply.Good? ==> s.work.value.sent)
    case ReconcileStart(t, _) => t !in s.reconciling
    case ReconcileFinish(t, _) => t in s.reconciling
    case _ => true
  }

  function Step(s: Service, e: Event): Service
    requires Possible(s, e)
  {
    match e
    case Preview(id, kind, now) => Previewed(s, id, kind, now)
    case Dismiss(id) => DismissedOp(s, id)
    case Confirm(id, phrase, now) => ConfirmedOp(s, id, phrase, now)
    case Send => Sent(s)
    case Finish(reply) => Finished(s, reply)
    case ReconcileStart(t, id) => ReconcileStarted(s, t, id)
    case ReconcileFinish(t, remote) => ReconcileFinished(s, t, remote)
    case Restart => Restarted(s)
  }

  predicate ValidRun(s: Service, events: seq<Event>)
    decreases |events|
  {
    events == [] || (Possible(s, events[0]) && ValidRun(Step(s, events[0]), events[1..]))
  }

  function Run(s: Service, events: seq<Event>): Service
    requires ValidRun(s, events)
    decreases |events|
  {
    if events == [] then s else Run(Step(s, events[0]), events[1..])
  }

  // ----- What every log looks like -----

  /** No operation is confirmed twice or written twice, in the whole life of the ledger. */
  ghost predicate OneWriteEach(log: seq<Entry>) {
    && (forall i, j :: 0 <= i < |log| && 0 <= j < |log| && log[i].Began? && log[i] == log[j] ==> i == j)
    && (forall i, j :: 0 <= i < |log| && 0 <= j < |log| && log[i].Confirmed? && log[i] == log[j] ==> i == j)
  }

  /** Nothing but reads happens between two positions: no crash. */
  ghost predicate Alive(log: seq<Entry>, i: nat, j: nat)
    requires i <= j <= |log|
  {
    forall k :: i <= k < j ==> !log[k].Crashed?
  }

  ghost predicate ConfirmedBefore(log: seq<Entry>, j: nat)
    requires j < |log| && log[j].Began?
  {
    exists i :: 0 <= i < j && log[i] == Confirmed(log[j].op) && Alive(log, i, j)
  }

  /** Every write follows its own confirmation, in the same process. */
  ghost predicate WritesAreConfirmed(log: seq<Entry>) {
    forall j :: 0 <= j < |log| && log[j].Began? ==> ConfirmedBefore(log, j)
  }

  ghost predicate SettledBetween(log: seq<Entry>, i: nat, j: nat)
    requires i < j <= |log| && log[i].Began?
  {
    exists k :: i < k < j && (log[k] == Ended(log[i].op) || log[k].Crashed?)
  }

  /** Between two writes the first one was answered, or its process died. */
  ghost predicate WritesNeverOverlap(log: seq<Entry>) {
    forall i, j :: 0 <= i < j < |log| && log[i].Began? && log[j].Began? ==> SettledBetween(log, i, j)
  }

  // ----- The invariant -----

  predicate Consumed(state: State) {
    !state.Pending? && !state.Dismissed? && !state.Expired?
  }

  ghost predicate LogMatchesRows(s: Service) {
    forall i :: 0 <= i < |s.log| && !s.log[i].Crashed? ==>
      s.log[i].op in s.ops && Consumed(s.ops[s.log[i].op].state)
  }

  /** The worker's operation was confirmed in this process; unsent means unwritten. */
  ghost predicate WorkOk(s: Service) {
    && (s.work.Some? ==>
          var f := s.work.value;
          && f.op in s.ops && (s.ops[f.op].state.Sending? || s.ops[f.op].state.Unknown? || s.ops[f.op].state.Succeeded?)
          && (exists i :: 0 <= i < |s.log| && s.log[i] == Confirmed(f.op) && Alive(s.log, i, |s.log|))
          && (!f.sent ==> forall i :: 0 <= i < |s.log| ==> s.log[i] != Began(f.op)))
    && (forall i :: 0 <= i < |s.log| && s.log[i].Began? ==>
          (s.work.Some? && s.work.value == Flight(s.log[i].op, true)) || SettledBetween(s.log, i, |s.log|))
    && (forall id :: id in s.ops && s.ops[id].state.Sending? ==> s.work.Some? && s.work.value.op == id)
  }

  /** A reconciliation that did not start in mid-flight still looks at an unresolved or proven row. */
  ghost predicate CopiesOk(s: Service) {
    forall t :: t in s.reconciling ==>
      var r := s.reconciling[t];
      && r.op in s.ops && Consumed(s.ops[r.op].state) && !s.ops[r.op].state.Sending?
      && (r.copy.state.Unknown? || r.copy.state.Succeeded?)
      && r.copy.kind == s.ops[r.op].kind
      && (!r.flying ==> (s.ops[r.op].state.Unknown? || s.ops[r.op].state.Succeeded?)
                        && !(s.work.Some? && s.work.value.op == r.op))
  }

  ghost predicate Inv(s: Service) {
    && OneWriteEach(s.log) && WritesAreConfirmed(s.log) && WritesNeverOverlap(s.log)
    && LogMatchesRows(s) && WorkOk(s) && CopiesOk(s)
  }

  const NOTHING := Service(map[], None, map[], [])

  lemma EmptyLedgerIsSound()
    ensures Inv(NOTHING)
  {
  }

  // ----- Logs grow at the end -----

  lemma SettledGrows(log: seq<Entry>, e: Entry, i: nat, j: nat)
    requires i < j <= |log| && log[i].Began? && SettledBetween(log, i, j)
    ensures SettledBetween(log + [e], i, j) && SettledBetween(log + [e], i, |log| + 1)
  {
    var k :| i < k < j && (log[k] == Ended(log[i].op) || log[k].Crashed?);
    var next := log + [e];
    assert next[k] == log[k] && next[i] == log[i];
  }

  lemma OldWritesStayConfirmed(log: seq<Entry>, e: Entry)
    requires WritesAreConfirmed(log)
    ensures forall j :: 0 <= j < |log| && (log + [e])[j].Began? ==> ConfirmedBefore(log + [e], j)
  {
    var next := log + [e];
    forall j | 0 <= j < |log| && next[j].Began? ensures ConfirmedBefore(next, j) {
      assert log[j] == next[j] && ConfirmedBefore(log, j);
      var i :| 0 <= i < j && log[i] == Confirmed(log[j].op) && Alive(log, i, j);
      assert next[i] == log[i] && Alive(next, i, j);
    }
  }

  lemma OldWritesStayApart(log: seq<Entry>, e: Entry)
    requires WritesNeverOverlap(log)
    ensures forall i, j :: 0 <= i < j < |log| && (log + [e])[i].Began? && (log + [e])[j].Began? ==>
              SettledBetween(log + [e], i, j)
  {
    var next := log + [e];
    forall i, j | 0 <= i < j < |log| && next[i].Began? && next[j].Began? ensures SettledBetween(next, i, j) {
      assert log[i] == next[i] && log[j] == next[j];
      SettledGrows(log, e, i, j);
    }
  }

  /** Appending anything but a write or a confirmation. */
  lemma QuietEntry(log: seq<Entry>, e: Entry)
    requires OneWriteEach(log) && WritesAreConfirmed(log) && WritesNeverOverlap(log)
    requires e.Ended? || e.Crashed?
    ensures OneWriteEach(log + [e]) && WritesAreConfirmed(log + [e]) && WritesNeverOverlap(log + [e])
  {
    var next := log + [e];
    OldWritesStayConfirmed(log, e);
    OldWritesStayApart(log, e);
  }

  lemma ConfirmedEntry(log: seq<Entry>, id: OpId)
    requires OneWriteEach(log) && WritesAreConfirmed(log) && WritesNeverOverlap(log)
    requires forall i :: 0 <= i < |log| ==> log[i] != Confirmed(id)
    ensures OneWriteEach(log + [Confirmed(id)]) && WritesAreConfirmed(log + [Confirmed(id)])
    ensures WritesNeverOverlap(log + [Confirmed(id)])
  {
    OldWritesStayConfirmed(log, Confirmed(id));
    OldWritesStayApart(log, Confirmed(id));
  }

  /** A write is appended: confirmed in this process, never written, and nothing outstanding. */
  lemma BeganEntry(log: seq<Entry>, id: OpId)
    requires OneWriteEach(log) && WritesAreConfirmed(log) && WritesNeverOverlap(log)
    requires forall i :: 0 <= i < |log| ==> log[i] != Began(id)
    requires exists i :: 0 <= i < |log| && log[i] == Confirmed(id) && Alive(log, i, |log|)
    requires forall i :: 0 <= i < |log| && log[i].Began? ==> SettledBetween(log, i, |log|)
    ensures OneWriteEach(log + [Began(id)]) && WritesAreConfirmed(log + [Began(id)])
    ensures WritesNeverOverlap(log + [Began(id)])
  {
    var next, n := log + [Began(id)], |log|;
    OldWritesStayConfirmed(log, Began(id));
    OldWritesStayApart(log, Began(id));
    assert ConfirmedBefore(next, n) by {
      var i :| 0 <= i < |log| && log[i] == Confirmed(id) && Alive(log, i, |log|);
      assert next[i] == log[i] && Alive(next, i, n);
    }
    forall i | 0 <= i < n && next[i].Began? ensures SettledBetween(next, i, n) {
      assert log[i] == next[i];
      SettledGrows(log, Began(id), i, n);
    }
  }

  // ----- Steps keep the invariant -----

  lemma PreviewKeepsInv(s: Service, e: Event)
    requires Inv(s) && e.Preview? && Possible(s, e)
    ensures Inv(Step(s, e))
  {
  }

  lemma DismissKeepsInv(s: Service, id: OpId)
    requires Inv(s)
    ensures Inv(DismissedOp(s, id))
  {
  }

  lemma ConfirmKeepsInv(s: Service, id: OpId, phrase: Text, now: int)
    requires Inv(s)
    ensures Inv(ConfirmedOp(s, id, phrase, now))
  {
    if Confirmable(s, id, phrase, now) {
      var next := ConfirmedOp(s, id, phrase, now);
      forall i | 0 <= i < |s.log| && !s.log[i].Crashed? ensures s.log[i].op != id {
        assert Consumed(s.ops[s.log[i].op].state);
      }
      ConfirmedEntry(s.log, id);
      assert next.log[|s.log|] == Confirmed(id) && Alive(next.log, |s.log|, |next.log|);
      forall i | 0 <= i < |next.log| && next.log[i].Began? ensures SettledBetween(next.log, i, |next.log|) {
        assert next.log[i] == s.log[i];
        SettledGrows(s.log, Confirmed(id), i, |s.log|);
      }
      hide OneWriteEach, WritesAreConfirmed, WritesNeverOverlap, SettledBetween;
    }
  }

  lemma SendKeepsInv(s: Service)
    requires Inv(s) && Possible(s, Send)
    ensures Inv(Sent(s))
  {
    var next, id := Sent(s), s.work.value.op;
    BeganEntry(s.log, id);
    hide OneWriteEach, WritesAreConfirmed, WritesNeverOverlap;
    assert exists i :: 0 <= i < |next.log| && next.log[i] == Confirmed(id) && Alive(next.log, i, |next.log|) by {
      var i :| 0 <= i < |s.log| && s.log[i] == Confirmed(id) && Alive(s.log, i, |s.log|);
      assert next.log[i] == s.log[i] && Alive(next.log, i, |next.log|);
    }
    forall i | 0 <= i < |s.log| && next.log[i].Began? ensures SettledBetween(next.log, i, |next.log|) {
      assert next.log[i] == s.log[i];
      SettledGrows(s.log, Began(id), i, |s.log|);
    }
    hide SettledBetween;
    assert next.log[|s.log|] == Began(id);
  }

  lemma FinishKeepsInv(s: Service, reply: Reply)
    requires Inv(s) && Possible(s, Finish(reply))
    ensures Inv(Finished(s, reply))
  {
    var next, id := Finished(s, reply), s.work.value.op;
    if s.work.value.sent { QuietEntry(s.log, Ended(id)); }
    forall i | 0 <= i < |s.log| && s.log[i].Began? ensures SettledBetween(next.log, i, |next.log|) {
      assert next.log[i] == s.log[i];
      if SettledBetween(s.log, i, |s.log|) {
        if s.work.value.sent { SettledGrows(s.log, Ended(id), i, |s.log|); }
      } else {
        assert next.log[|s.log|] == Ended(s.log[i].op);
      }
    }
    hide OneWriteEach, WritesAreConfirmed, WritesNeverOverlap, SettledBetween;
    assert forall i :: 0 <= i < |next.log| ==> next.log[i] == if i < |s.log| then s.log[i] else Ended(id);
  }

  lemma ReconcileStartKeepsInv(s: Service, t: TaskId, id: OpId)
    requires Inv(s) && Possible(s, ReconcileStart(t, id))
    ensures Inv(ReconcileStarted(s, t, id))
  {
  }

  lemma ReconcileFinishKeepsInv(s: Service, t: TaskId, remote: Remote)
    requires Inv(s) && Possible(s, ReconcileFinish(t, remote))
    ensures Inv(ReconcileFinished(s, t, remote))
  {
    hide OneWriteEach, WritesAreConfirmed, WritesNeverOverlap, SettledBetween;
  }

  lemma RestartKeepsInv(s: Service)
    requires Inv(s)
    ensures Inv(Restarted(s))
  {
    var next := Restarted(s);
    QuietEntry(s.log, Crashed);
    forall i | 0 <= i < |s.log| && s.log[i].Began? ensures SettledBetween(next.log, i, |next.log|) {
      assert next.log[i] == s.log[i] && next.log[|s.log|].Crashed?;
    }
    hide OneWriteEach, WritesAreConfirmed, WritesNeverOverlap, SettledBetween;
    assert forall i :: 0 <= i < |next.log| ==> next.log[i] == if i < |s.log| then s.log[i] else Crashed;
  }

  lemma StepKeepsInv(s: Service, e: Event)
    requires Inv(s) && Possible(s, e)
    ensures Inv(Step(s, e))
  {
    match e
    case Preview(_, _, _) => PreviewKeepsInv(s, e);
    case Dismiss(id) => DismissKeepsInv(s, id);
    case Confirm(id, phrase, now) => ConfirmKeepsInv(s, id, phrase, now);
    case Send => SendKeepsInv(s);
    case Finish(reply) => FinishKeepsInv(s, reply);
    case ReconcileStart(t, id) => ReconcileStartKeepsInv(s, t, id);
    case ReconcileFinish(t, remote) => ReconcileFinishKeepsInv(s, t, remote);
    case Restart => RestartKeepsInv(s);
  }

  /** In every run with crashes and restarts anywhere: each operation is written at most once,
      only after its own accepted confirmation in the same process, and never while another
      write is outstanding. */
  lemma {:induction false} RunKeepsInv(s: Service, events: seq<Event>)
    requires Inv(s) && ValidRun(s, events)
    ensures Inv(Run(s, events))
    decreases |events|
  {
    hide Inv, Step, Possible;
    if events != [] {
      StepKeepsInv(s, events[0]);
      RunKeepsInv(Step(s, events[0]), events[1..]);
    }
  }

  /** The same, spelled out for the log of any run of a ledger that starts empty. */
  lemma WritesAreSafe(events: seq<Event>)
    requires ValidRun(NOTHING, events)
    ensures OneWriteEach(Run(NOTHING, events).log)
    ensures WritesAreConfirmed(Run(NOTHING, events).log) && WritesNeverOverlap(Run(NOTHING, events).log)
  {
    hide OneWriteEach, WritesAreConfirmed, WritesNeverOverlap, Run, ValidRun, LogMatchesRows, WorkOk, CopiesOk;
    EmptyLedgerIsSound();
    RunKeepsInv(NOTHING, events);
  }

  // ----- One-use previews -----

  /** Where a row may go: a pending one anywhere, a dismissed or expired one nowhere, a
      confirmed one never back. */
  predicate Follows(a: State, b: State) {
    match a
    case Pending => true
    case Dismissed => b.Dismissed?
    case Expired => b.Expired?
    case _ => Consumed(b)
  }

  ghost predicate RowsFollow(s: Service, next: Service) {
    forall id :: id in s.ops ==> id in next.ops && Follows(s.ops[id].state, next.ops[id].state)
  }

  lemma WorkerFollows(s: Service, reply: Reply)
    requires WorkOk(s) && Possible(s, Finish(reply))
    ensures RowsFollow(s, Finished(s, reply))
  {
    hide Alive, SettledBetween;
  }

  lemma ReaderFollows(s: Service, t: TaskId, remote: Remote)
    requires CopiesOk(s) && t in s.reconciling
    ensures RowsFollow(s, ReconcileFinished(s, t, remote))
  {
    hide Proves;
    assert Consumed(s.ops[s.reconciling[t].op].state);
  }

  lemma StepFollows(s: Service, e: Event)
    requires Inv(s) && Possible(s, e)
    ensures RowsFollow(s, Step(s, e))
  {
    hide OneWriteEach, WritesAreConfirmed, WritesNeverOverlap, LogMatchesRows, WorkOk, CopiesOk;
    match e
    case Finish(reply) =>
      hide RowsFollow;
      WorkerFollows(s, reply);
    case ReconcileFinish(t, remote) =>
      hide RowsFollow;
      ReaderFollows(s, t, remote);
    case _ =>
  }

  lemma {:induction false} RunFollows(s: Service, events: seq<Event>)
    requires Inv(s) && ValidRun(s, events)
    ensures RowsFollow(s, Run(s, events))
    decreases |events|
  {
    hide Inv, Step, Possible;
    if events != [] {
      var next := Step(s, events[0]);
      StepKeepsInv(s, events[0]);
      StepFollows(s, events[0]);
      RunFollows(next, events[1..]);
      forall id | id in s.ops ensures Follows(s.ops[id].state, Run(s, events).ops[id].state) {
        assert Follows(s.ops[id].state, next.ops[id].state);
        assert Follows(next.ops[id].state, Run(next, events[1..]).ops[id].state);
      }
    }
  }

  lemma SpentPreviewStaysSpent(s: Service, id: OpId, events: seq<Event>, phrase: Text, now: int)
    requires Inv(s) && id in s.ops && !s.ops[id].state.Pending? && ValidRun(s, events)
    ensures !Confirmable(Run(s, events), id, phrase, now)
  {
    hide Inv, Run, ValidRun;
    RunFollows(s, events);
    assert Follows(s.ops[id].state, Run(s, events).ops[id].state);
  }

  /** A preview is good for one confirmation: once confirmed, dismissed or caught by a restart,
      no phrase at any later time confirms it again. */
  lemma PreviewsAreOneUse(s: Service, e: Event, id: OpId, events: seq<Event>, phrase: Text, now: int)
    requires Inv(s) && id in s.ops && Possible(s, e) && ValidRun(Step(s, e), events)
    requires e.Restart? || e == Dismiss(id) || (e.Confirm? && e.id == id && Confirmable(s, id, e.phrase, e.now))
    ensures !Confirmable(Run(Step(s, e), events), id, phrase, now)
  {
    StepKeepsInv(s, e);
    hide Inv, Run, ValidRun;
    SpentPreviewStaysSpent(Step(s, e), id, events, phrase, now);
  }

  // ----- What decides a row -----

  /** The state of a stored row after a step, read off the event: who may confirm it, what each answer of the
      remote calendar means for it, and what a crash leaves of it. */
  function Decided(s: Service, e: Event, id: OpId): State
    requires id in s.ops
  {
    var op := s.ops[id];
    match e
    case Dismiss(i) => if i == id && op.state == Pending then Dismissed else op.state
    case Confirm(i, phrase, now) =>
      if i == id && op.state == Pending && s.work.None? && now < op.expires && Confirms(phrase, op.phrase)
      then Sending else op.state
    case Finish(reply) =>
      if s.work.None? || s.work.value.op != id then op.state
      else if reply.Good? then Succeeded
      else if reply.status == 412 then Conflict
      else if reply.status < 400 || reply.status > 499 || reply.status == 409 then Unknown
      else Failed
    case ReconcileStart(_, i) => if i == id && op.state == Sending then Unknown else op.state
    case ReconcileFinish(t, remote) =>
      if t in s.reconciling && s.reconciling[t].op == id
         && remote == (if s.reconciling[t].copy.kind == Cancel then Gone else Matches)
      then Succeeded else op.state
    case Restart => if op.state == Sending then Unknown else if op.state == Pending then Expired else op.state
    case _ => op.state
  }

  lemma StepDecides(s: Service, e: Event, id: OpId)
    requires Possible(s, e) && id in s.ops
    ensures id in Step(s, e).ops && Step(s, e).ops[id].state == Decided(s, e, id)
    ensures !e.ReconcileFinish? ==> Step(s, e).ops[id] == s.ops[id].(state := Decided(s, e, id))
  {
    hide Confirms;
  }

  lemma {:induction false} PendingRowStays(s: Service, events: seq<Event>, id: OpId)
    requires Inv(s) && ValidRun(s, events) && id in s.ops && s.ops[id].state.Pending?
    ensures id in Run(s, events).ops
    ensures Run(s, events).ops[id].state.Pending? ==> Run(s, events).ops[id] == s.ops[id]
    decreases |events|
  {
    hide OneWriteEach, WritesAreConfirmed, WritesNeverOverlap, LogMatchesRows, WorkOk;
    if events != [] {
      var e := events[0];
      var next := Step(s, e);
      StepDecides(s, e, id);
      assert e.ReconcileFinish? ==> s.reconciling[e.task].op != id;
      StepKeepsInv(s, e);
      hide Step, Possible, CopiesOk, Decided;
      if next.ops[id].state.Pending? {
        PendingRowStays(next, events[1..], id);
      } else {
        RunFollows(next, events[1..]);
      }
    }
  }

  /** The whole life of a preview: at any later moment it can be confirmed if and only if it is still pending,
      nothing is being written, less than five minutes have gone by, and the utterance is one of the phrases for
      what was previewed. */
  lemma PreviewConfirmsIff(s: Service, id: OpId, kind: Kind, now: int, events: seq<Event>, text: Text, later: int)
    requires Inv(s) && id !in s.ops && ValidRun(Step(s, Preview(id, kind, now)), events)
    ensures var end := Run(Step(s, Preview(id, kind, now)), events);
            && id in end.ops
            && (Confirmable(end, id, text, later) <==>
                  && end.ops[id].state == Pending && end.work == None && later < now + 300_000
                  && exists p: Parts :: p.Whole() == text && p.Confirming(kind))
            && (Confirmable(end, id, text, later) ==>
                  var u := Step(end, Confirm(id, text, later));
                  && u.work == Some(Flight(id, false)) && u.log == end.log + [Confirmed(id)]
                  && u.ops == end.ops[id := end.ops[id].(state := Sending)])
  {
    var e := Preview(id, kind, now);
    assert Step(s, e).ops[id] == Operation(kind, ShortConfirmation(kind), now + 300_000, Pending);
    StepKeepsInv(s, e);
    PendingRowStays(Step(s, e), events, id);
    ConfirmsIff(text, kind);
    hide Inv, Run, ValidRun, Confirms, ShortConfirmation;
  }

  // ----- Reconciliation -----

  /** Reconciling never writes, whatever it finds. */
  lemma ReconcilingOnlyReads(s: Service, e: Event)
    requires Possible(s, e) && (e.ReconcileStart? || e.ReconcileFinish?)
    ensures Step(s, e).log == s.log && Step(s, e).work == s.work
    ensures e.ReconcileFinish? ==> Step(s, e).reconciling == s.reconciling - {e.task}
    ensures e.ReconcileStart? ==>
              var readable := e.id in s.ops && (s.ops[e.id].state == Succeeded || s.ops[e.id].state == Unknown
                                                || s.ops[e.id].state == Sending);
              && (!readable ==> Step(s, e) == s)
              && (readable ==>
                    && e.id in Step(s, e).ops
                    && Step(s, e).reconciling == s.reconciling[e.task :=
                         Reconciliation(e.id, Step(s, e).ops[e.id], s.work.Some? && s.work.value.op == e.id)])
  {
  }

  /** A reconciliation that did not start in mid-flight, or whose operation still is in flight,
      overwrites only rows that were unknown or already proven. */
  lemma PromotesOnlyUncertainRows(s: Service, t: TaskId, remote: Remote)
    requires Inv(s) && t in s.reconciling
    requires var r := s.reconciling[t];
             !r.flying || (s.work.Some? && s.work.value.op == r.op)
    ensures var id, next := s.reconciling[t].op, ReconcileFinished(s, t, remote);
            && id in s.ops && (s.ops[id].state.Unknown? || s.ops[id].state.Succeeded?)
            && next.ops == (if Proves(s.ops[id].kind, remote)
                            then s.ops[id := next.ops[id]] else s.ops)
            && (Proves(s.ops[id].kind, remote) ==> next.ops[id].state.Succeeded?)
  {
  }

  lemma Prepend(s: Service, e: Event, events: seq<Event>)
    requires Possible(s, e) && ValidRun(Step(s, e), events)
    ensures ValidRun(s, [e] + events) && Run(s, [e] + events) == Run(Step(s, e), events)
  {
  }

  function Asked(): Text {
    ShortConfirmation(Update)
  }

  /** A single update `0` in the given state, with its worker, reader and log. */
  function Lone(state: State, work: Option<Flight>, reading: bool, log: seq<Entry>): Service {
    Service(map[0 := Operation(Update, Asked(), 300_000, state)], work,
            if reading then map[0 := Reconciliation(0, Operation(Update, Asked(), 300_000, Unknown), true)] else map[],
            log)
  }

  lemma LoneSteps()
    ensures Step(NOTHING, Preview(0, Update, 0)) == Lone(Pending, None, false, [])
    ensures Step(Lone(Pending, None, false, []), Confirm(0, Asked(), 0))
            == Lone(Sending, Some(Flight(0, false)), false, [Confirmed(0)])
    ensures var s := Lone(Sending, Some(Flight(0, false)), false, [Confirmed(0)]);
            Possible(s, Send) && Step(s, Send) == Lone(Sending, Some(Flight(0, true)), false, [Confirmed(0), Began(0)])
  {
    ShortPhraseConfirms(Update);
    hide Confirms, ShortConfirmation;
  }

  lemma LoneReading(log: seq<Entry>)
    ensures Step(Lone(Sending, Some(Flight(0, true)), false, log), ReconcileStart(0, 0))
            == Lone(Unknown, Some(Flight(0, true)), true, log)
    ensures var s := Lone(Unknown, Some(Flight(0, true)), true, log);
            Possible(s, Finish(Problem(400)))
            && Step(s, Finish(Problem(400))) == Lone(Failed, None, true, log + [Ended(0)])
    ensures ReconcileFinished(Lone(Failed, None, true, log), 0, Matches).ops[0].state.Succeeded?
  {
  }

  /** The unfinished reconciliation `t` sits on a row that is uncertain or already proven. */
  predicate Harmless(s: Service, t: TaskId, r: Reconciliation) {
    t in s.reconciling && s.reconciling[t] == r ==>
      r.op in s.ops && (s.ops[r.op].state.Unknown? || s.ops[r.op].state.Succeeded?)
  }

  /** Starting a reconciliation is harmless in all runs, so that finishing it promotes only
      unknown rows, if and only if its operation is not in flight at that moment. */
  lemma ReconcileSafeIffIdle(s: Service, t: TaskId, id: OpId)
    requires Inv(s) && t !in s.reconciling && id in s.ops && Reconcilable(s.ops[id].state)
    ensures var u := ReconcileStarted(s, t, id);
            (forall events :: ValidRun(u, events) ==> Harmless(Run(u, events), t, u.reconciling[t]))
            <==> !(s.work.Some? && s.work.value.op == id)
  {
    var u := ReconcileStarted(s, t, id);
    ReconcileStartKeepsInv(s, t, id);
    if s.work.Some? && s.work.value.op == id {
      var refused := Step(u, Finish(Problem(400)));
      assert refused.ops[id].state.Failed? && refused.reconciling == u.reconciling;
      hide Inv, Step, Possible;
      assert ValidRun(refused, []) && Run(refused, []) == refused;
      Prepend(u, Finish(Problem(400)), []);
      assert !Harmless(Run(u, [Finish(Problem(400))] + []), t, u.reconciling[t]);
    } else {
      forall events | ValidRun(u, events) ensures Harmless(Run(u, events), t, u.reconciling[t]) {
        hide Run, ValidRun, OneWriteEach, WritesAreConfirmed, WritesNeverOverlap, LogMatchesRows, WorkOk;
        RunKeepsInv(u, events);
      }
    }
  }

  /** Started in mid-flight it can do more: the write is refused, the row says failed, and the
      stale copy then turns it into succeeded. */
  lemma StaleCopyRevivesAFailure()
    ensures exists events ::
              ValidRun(NOTHING, events)
              && var s := Run(NOTHING, events);
              0 in s.ops && s.ops[0].state.Failed? && 0 in s.reconciling
              && ReconcileFinished(s, 0, Matches).ops[0].state.Succeeded?
  {
    hide Confirms, ShortConfirmation;
    var log := [Confirmed(0), Began(0)];
    var d, e := Lone(Unknown, Some(Flight(0, true)), true, log), Lone(Failed, None, true, log + [Ended(0)]);
    LoneSteps();
    LoneReading(log);
    LoneReading(log + [Ended(0)]);
    assert Possible(Lone(Pending, None, false, []), Confirm(0, Asked(), 0));
    assert e.ops[0].state.Failed? && 0 in e.reconciling;
    hide Step, Lone;
    assert ValidRun(e, []) && Run(e, []) == e;
    Prepend(d, Finish(Problem(400)), []);
    var rest := [Finish(Problem(400))] + [];
    Prepend(Lone(Sending, Some(Flight(0, true)), false, log), ReconcileStart(0, 0), rest);
    Prepend(Lone(Sending, Some(Flight(0, false)), false, [Confirmed(0)]), Send, [ReconcileStart(0, 0)] + rest);
    Prepend(Lone(Pending, None, false, []), Confirm(0, Asked(), 0), [Send] + ([ReconcileStart(0, 0)] + rest));
    Prepend(NOTHING, Preview(0, Update, 0), [Confirm(0, Asked(), 0)] + ([Send] + ([ReconcileStart(0, 0)] + rest)));
  }

  // ----- The service object -----

  class CalendarService {
    var ops: map<OpId, Operation>
    var work: Option<Flight>
    var reconciling: map<TaskId, Reconciliation>
    ghost var log: seq<Entry>

    ghost function Contents(): Service
      reads this
    {
      Service(ops, work, reconciling, log)
    }

    /** Opening the stored operations after whatever happened to the previous process. */
    constructor (stored: map<OpId, Operation>, ghost last: Service)
      requires last.ops == stored
      ensures Contents() == Restarted(last)
    {
      ops, work, reconciling, log := stored, None, map[], last.log + [Crashed];
      new;
      var left := stored.Keys;
      while left != {}
        invariant left <= stored.Keys == ops.Keys
        invariant forall id :: id in left ==> ops[id] == stored[id]
        invariant forall id :: id in stored && id !in left ==>
                    ops[id] == stored[id].(state := RecoveredState(stored[id].state))
        invariant work == None && reconciling == map[] && log == last.log + [Crashed]
        decreases left
      {
        var id :| id in left;
        var op := ops[id];
        if op.state.Sending? || op.state.Pending? {
          ops := ops[id := op.(state := if op.state.Sending? then Unknown else Expired)];
        }
        left := left - {id};
      }
      assert ops == Restarted(last).ops;
    }

    /** The last step of a preview: the pending row. A busy service refuses before any read. */
    method SavePreview(id: OpId, kind: Kind, now: int)
      requires id !in ops
      modifies this`ops
      ensures Contents() == Previewed(old(Contents()), id, kind, now)
    {
      ops := ops[id := Operation(kind, ShortConfirmation(kind), now + 5 * 60_000, Pending)];
    }

    method Dismiss(id: OpId) returns (found: bool)
      modifies this`ops
      ensures Contents() == DismissedOp(old(Contents()), id) && found == (id in old(ops))
    {
      if id !in ops { return false; }
      if ops[id].state.Pending? { ops := ops[id := ops[id].(state := Dismissed)]; }
      return true;
    }

    method Confirm(id: OpId, phrase: Text, now: int) returns (accepted: bool)
      modifies this
      ensures Contents() == ConfirmedOp(old(Contents()), id, phrase, now)
      ensures accepted == Confirmable(old(Contents()), id, phrase, now)
    {
      if work.Some? || id !in ops { return false; }
      var op := ops[id];
      if !op.state.Pending? || op.expires <= now || !Confirms(phrase, op.phrase) { return false; }
      ops := ops[id := op.(state := Sending)];
      work := Some(Flight(id, false));
      log := log + [Confirmed(id)];
      return true;
    }

    method Send()
      requires work.Some? && !work.value.sent
      modifies this`work, this`log
      ensures Contents() == Sent(old(Contents()))
    {
      log := log + [Began(work.value.op)];
      work := Some(Flight(work.value.op, true));
    }

    method Finish(reply: Reply)
      requires work.Some? && work.value.op in ops
      modifies this
      ensures Contents() == Finished(old(Contents()), reply)
    {
      var id := work.value.op;
      var state := Succeeded;
      if reply.Problem? {
        state := if reply.status == 412 then Conflict
                 else if reply.status >= 400 && reply.status < 500 && reply.status != 409 then Failed else Unknown;
      }
      if work.value.sent { log := log + [Ended(id)]; }
      ops := ops[id := ops[id].(state := state)];
      work := None;
    }

    method ReconcileStart(t: TaskId, id: OpId) returns (reading: bool)
      requires t !in reconciling
      modifies this`ops, this`reconciling
      ensures Contents() == ReconcileStarted(old(Contents()), t, id)
      ensures reading == (id in old(ops) && Reconcilable(old(ops)[id].state))
    {
      if id !in ops { return false; }
      var op := ops[id];
      if !op.state.Succeeded? && !op.state.Unknown? && !op.state.Sending? { return false; }
      if op.state.Sending? { op := op.(state := Unknown); }
      ops := ops[id := op];
      reconciling := reconciling[t := Reconciliation(id, op, work.Some? && work.value.op == id)];
      return true;
    }

    method ReconcileFinish(t: TaskId, remote: Remote) returns (state: State)
      requires t in reconciling
      modifies this`ops, this`reconciling
      ensures Contents() == ReconcileFinished(old(Contents()), t, remote)
      ensures var r := old(reconciling)[t];
              state == if Proves(r.copy.kind, remote) then Succeeded
                       else if remote.Matches? || remote.Differs? then Conflict else Unknown
    {
      var r := reconciling[t];
      reconciling := reconciling - {t};
      match remote {
        case Matches => if !r.copy.kind.Cancel? { ops := ops[r.op := r.copy.(state := Succeeded)]; return Succeeded; }
        case Gone => if r.copy.kind.Cancel? { ops := ops[r.op := r.copy.(state := Succeeded)]; return Succeeded; }
        case _ =>
      }
      return if remote.Matches? || remote.Differs? then Conflict else Unknown;
    }
  }
}
