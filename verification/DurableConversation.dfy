/** The conversation over its store. What the store answers, and what it keeps, is computed from
    the tables: no outcome of a durable call is assumed. */
module DurableConversation {
  import opened AnswerLimits
  import opened Texts
  import opened Wrappers
  import C = ConversationTurns
  import D = TurnLifecycle
  import H = ConversationHistory
  import Q = ConversationReplies
  import R = ConversationStreams

  type SessionId = D.SessionId
  type TopicId = D.TopicId
  type TurnId = D.TurnId
  type MessageId = D.MessageId

  /** One conversation object, the tables, and the session the object writes to. */
  datatype System = System(conv: C.Conv, db: D.Db, session: SessionId)

  function Reason(): Text {
    Codes("CONNECTION_INTERRUPTED")
  }

  // ----- The session's answers as the conversation sees them -----

  function AsStatus(status: D.Status): C.StoredStatus {
    match status
    case Streaming => C.Streaming
    case Committed => C.Committed
    case _ => C.Interrupted
  }

  function AsStored(m: D.Message): C.Stored {
    C.Stored(m.turn.Or(0), AsStatus(m.status), m.content)
  }

  predicate Mine(m: D.Message, s: SessionId) {
    m.session == s && m.role.Assistant?
  }

  function Answers(db: D.Db, s: SessionId): map<MessageId, C.Stored> {
    map m | m in db.messages && Mine(db.messages[m], s) :: AsStored(db.messages[m])
  }

  // ----- The durable calls -----

  /** The topic row comes first; a topic of another session or under another label is refused. */
  function TopicEnsured(db: D.Db, s: SessionId, topic: TopicId, labelled: bool): Result<D.Db, D.Error> {
    if topic in db.topics then
      if db.topics[topic] != s || !labelled then Err(D.Conflict) else Ok(db)
    else if s !in db.sessions || !db.sessions[s].Live() then Err(D.Unavailable)
    else Ok(D.Step(db, D.EnsureTopic(s, topic)))
  }

  /** Topic and user turn are two transactions; either may throw. */
  function Committing(db: D.Db, user: D.UserTurn, labelled: bool): (D.Db, C.UserAck) {
    match TopicEnsured(db, user.session, user.topic, labelled)
    case Err(_) => (db, C.UserThrows)
    case Ok(d) =>
      match D.UserTurnCommitted(d, user)
      case Err(_) => (d, C.UserThrows)
      case Ok(r) => (r.db, if r.ack.kind.Duplicate? then C.UserDuplicate else C.UserCommitted)
  }

  function AnswerOf(user: D.UserTurn, message: MessageId): D.Answer {
    D.Answer(user.session, user.topic, user.turn, message)
  }

  /** Checkpoint what was said, then interrupt the turn, in one attempt. */
  function Stopped(db: D.Db, c: C.Conv): D.Db {
    if c.durable.None? || c.committing then db
    else
      var saved := if c.partial == [] then Ok(db) else D.Checkpointed(db, c.durable.value.message, c.partial);
      match saved
      case Err(_) => db
      case Ok(d) =>
        match D.AnswerInterrupted(d, c.durable.value.turn, Reason())
        case Err(_) => d
        case Ok(r) => r.db
  }

  // ----- Events -----

  /** `Local` is an event whose effect on the store is a cancel or a checkpoint; `Elsewhere` is
      what other conversations and administration do to the same tables. */
  datatype Event =
    | Local(event: C.Event)
    | Plan(task: C.TaskId, decision: C.Decision, retry: bool, user: D.UserTurn, labelled: bool, answer: MessageId)
    | Reply(task: C.TaskId, final: Text, citations: Option<Text>)
    | Elsewhere(change: D.Event)

  /** It leaves the answers of session `s` alone, and it is not a restart. */
  predicate Foreign(db: D.Db, s: SessionId, e: D.Event) {
    match e
    case CreateSession(_, _) => true
    case EnsureTopic(_, _) => true
    case SetStatus(_, _) => true
    case CommitUserTurn(_) => true
    case StartAnswer(a) => a.session != s
    case Checkpoint(id, _) => id in db.messages ==> db.messages[id].session != s
    case CommitAnswer(id, _, _) => id in db.messages ==> db.messages[id].session != s
    case Interrupt(t, _) => t in db.turns ==> db.turns[t].session != s
    case Restart(_) => false
  }

  /** The event as the conversation alone sees it, with the outcomes that the tables determine. */
  function Seen(sys: System, e: Event): C.Event
    requires !e.Elsewhere?
  {
    match e
    case Local(event) => event
    case Plan(t, decision, retry, user, labelled, answer) =>
      var (db, ack) := Committing(sys.db, user, labelled);
      C.PlanArrives(t, decision, retry, ack, D.AnswerStarted(db, AnswerOf(user, answer)).Ok?,
                    C.Durable(user.turn, answer))
    case Reply(t, final, citations) => C.ReplyArrives(t, final, citations, true)
  }

  /** Ids made by the program are new; a message id given by a client may be any. */
  ghost predicate Possible(sys: System, e: Event) {
    match e
    case Local(event) => !event.PlanArrives? && !event.ReplyArrives? && C.Possible(sys.conv, event)
    case Plan(t, _, retry, user, _, answer) =>
      && t in sys.conv.tasks && sys.conv.tasks[t].phase.Planning? && user.session == sys.session
      && user.content == C.UserText(sys.conv.tasks[t].phase.text, retry)
      && answer !in sys.db.messages && answer != user.message && user.turn !in sys.db.turns
    case Reply(t, _, _) => t in sys.conv.tasks && sys.conv.tasks[t].phase.Replying?
    case Elsewhere(change) => Foreign(sys.db, sys.session, change)
  }

  ghost function LocalDb(sys: System, e: C.Event): D.Db {
    var c := sys.conv;
    if R.Cancels(c, e) then Stopped(sys.db, c)
    else
      match e
      case CallFails(t) => if c.Current(t) then Stopped(sys.db, c) else sys.db
      case RevokeMemory => Stopped(sys.db, c.(partial := []))
      case Delta(revision, value, checkpoint) =>
        if revision != c.revision || !checkpoint || c.durable.None? then sys.db
        else
          (match D.Checkpointed(sys.db, c.durable.value.message, c.partial + value)
           case Ok(d) => d
           case Err(_) => sys.db)
      case _ => sys.db
  }

  /** The plan is dropped before it touches anything durable. */
  predicate Dropped(c: C.Conv, t: C.TaskId, decision: C.Decision)
    requires t in c.tasks && c.tasks[t].phase.Planning?
  {
    c.tasks[t].revision != c.revision || (decision.Wait? && !c.tasks[t].phase.forced)
  }

  ghost function PlanDb(sys: System, e: Event): D.Db
    requires e.Plan? && e.task in sys.conv.tasks && sys.conv.tasks[e.task].phase.Planning?
  {
    if Dropped(sys.conv, e.task, e.decision) then sys.db
    else
      var (db, ack) := Committing(sys.db, e.user, e.labelled);
      if !ack.UserCommitted? || e.decision.Exit? then db
      else
        match D.AnswerStarted(db, AnswerOf(e.user, e.answer))
        case Ok(r) => r.db
        case Err(_) => db
  }

  ghost function ReplyDb(sys: System, e: Event): D.Db
    requires e.Reply?
  {
    var c := sys.conv;
    if !c.Current(e.task) || c.durable.None? then sys.db
    else
      match D.AnswerCommitted(sys.db, c.durable.value.message, e.final, e.citations)
      case Ok(r) => r.db
      case Err(_) => Stopped(sys.db, c.(partial := e.final, committing := false))
  }

  ghost function DbAfter(sys: System, e: Event): D.Db
    requires Possible(sys, e)
  {
    match e
    case Local(event) => LocalDb(sys, event)
    case Plan(_, _, _, _, _, _) => PlanDb(sys, e)
    case Reply(_, _, _) => ReplyDb(sys, e)
    case Elsewhere(change) => D.Step(sys.db, change)
  }

  // ----- The link between object and tables -----

  /** The open answer's turn is the one its row names. */
  predicate TurnLinked(c: C.Conv) {
    c.durable.Some? ==>
      c.durable.value.message in c.store && c.store[c.durable.value.message].turn == c.durable.value.turn
  }

  ghost predicate Linked(sys: System) {
    && D.Inv(sys.db) && C.Inv(sys.conv) && sys.conv.runtime
    && sys.conv.store == Answers(sys.db, sys.session) && TurnLinked(sys.conv)
  }

  lemma SeenIsPossible(sys: System, e: Event)
    requires Linked(sys) && Possible(sys, e) && !e.Elsewhere?
    ensures C.Possible(sys.conv, Seen(sys, e))
  {
    hide D.Inv, C.Inv, Committing;
  }

  ghost function Step(sys: System, e: Event): System
    requires Linked(sys) && Possible(sys, e)
  {
    if e.Elsewhere? then sys.(db := DbAfter(sys, e))
    else
      SeenIsPossible(sys, e);
      sys.(conv := C.Step(sys.conv, Seen(sys, e)), db := DbAfter(sys, e))
  }

  // ----- Each durable call, seen through the answers of one session -----

  lemma SameAnswers(db: D.Db, next: D.Db, s: SessionId)
    requires forall m :: m in db.messages && Mine(db.messages[m], s) ==>
               m in next.messages && next.messages[m] == db.messages[m]
    requires forall m :: m in next.messages && Mine(next.messages[m], s) ==> m in db.messages && Mine(db.messages[m], s)
    ensures Answers(next, s) == Answers(db, s)
  {
  }

  lemma OneAnswer(db: D.Db, next: D.Db, s: SessionId, m: MessageId, row: D.Message)
    requires next.messages == db.messages[m := row] && Mine(row, s)
    ensures Answers(next, s) == Answers(db, s)[m := AsStored(row)]
  {
  }

  lemma CheckpointSeen(db: D.Db, s: SessionId, m: MessageId, text: Text)
    requires D.Inv(db) && m in Answers(db, s)
    ensures D.Checkpointed(db, m, text).Ok? <==> |text| <= MAX_ANSWER_UNITS && Answers(db, s)[m].status.Streaming?
    ensures D.Checkpointed(db, m, text).Ok? ==>
              && D.Inv(D.Checkpointed(db, m, text).value)
              && Answers(D.Checkpointed(db, m, text).value, s)
                 == Answers(db, s)[m := Answers(db, s)[m].(content := text)]
  {
    if D.Checkpointed(db, m, text).Ok? {
      D.CheckpointKeepsInv(db, m, text);
      hide D.Inv;
      var next := D.Checkpointed(db, m, text).value;
      OneAnswer(db, next, s, m, next.messages[m]);
    }
  }

  lemma RowAndTurn(db: D.Db, s: SessionId, m: MessageId)
    requires D.Inv(db) && m in Answers(db, s)
    ensures var t := Answers(db, s)[m].turn;
            && db.messages[m].turn == Some(t) && t in db.turns && db.turns[t].output == Some(m)
            && D.Matches(db.turns[t].status, db.messages[m].status)
  {
    assert D.MessageOk(db, m);
    assert D.TurnOk(db, db.messages[m].turn.value);
  }

  lemma InterruptSeen(db: D.Db, s: SessionId, m: MessageId)
    requires D.Inv(db) && m in Answers(db, s)
    ensures var r := D.AnswerInterrupted(db, Answers(db, s)[m].turn, Reason());
            var next := if r.Ok? then r.value.db else db;
            && D.Inv(next)
            && Answers(next, s) == if Answers(db, s)[m].status.Streaming?
                                   then Answers(db, s)[m := Answers(db, s)[m].(status := C.Interrupted)]
                                   else Answers(db, s)
  {
    RowAndTurn(db, s, m);
    var r := D.AnswerInterrupted(db, Answers(db, s)[m].turn, Reason());
    if r.Ok? { D.InterruptKeepsInv(db, Answers(db, s)[m].turn, Reason()); }
    hide D.Inv, Reason;
    if db.messages[m].status.Streaming? { OneAnswer(db, r.value.db, s, m, r.value.db.messages[m]); }
  }

  lemma CommitSeen(db: D.Db, s: SessionId, m: MessageId, final: Text, citations: Option<Text>)
    requires D.Inv(db) && m in Answers(db, s) && Answers(db, s)[m].status.Streaming?
    ensures var r := D.AnswerCommitted(db, m, final, citations);
            && (r.Ok? <==> Committable(final, citations))
            && (r.Ok? ==>
                  && D.Inv(r.value.db)
                  && Answers(r.value.db, s)
                     == Answers(db, s)[m := C.Stored(Answers(db, s)[m].turn, C.Committed, Trim(final))])
  {
    hide Trim, Utf8Length;
    RowAndTurn(db, s, m);
    D.StreamingAnswerCommits(db, m, final, citations);
    var r := D.AnswerCommitted(db, m, final, citations);
    if r.Ok? { D.CommitKeepsInv(db, m, final, citations); }
    hide D.Inv;
    if r.Ok? { OneAnswer(db, r.value.db, s, m, r.value.db.messages[m]); }
  }

  /** What a cancel does to the tables is what the conversation believes. */
  lemma StopSeen(db: D.Db, s: SessionId, c: C.Conv)
    requires D.Inv(db) && c.store == Answers(db, s) && TurnLinked(c)
    ensures D.Inv(Stopped(db, c)) && Answers(Stopped(db, c), s) == C.InterruptedStore(c)
  {
    hide D.Inv, Answers, D.Checkpointed, D.AnswerInterrupted;
    if c.durable.Some? && !c.committing {
      var m := c.durable.value.message;
      if c.partial == [] {
        InterruptSeen(db, s, m);
      } else {
        CheckpointSeen(db, s, m, c.partial);
        if D.Checkpointed(db, m, c.partial).Ok? { InterruptSeen(D.Checkpointed(db, m, c.partial).value, s, m); }
      }
    }
  }

  lemma TopicSeen(db: D.Db, s: SessionId, topic: TopicId, labelled: bool)
    requires D.Inv(db) && TopicEnsured(db, s, topic, labelled).Ok?
    ensures var next := TopicEnsured(db, s, topic, labelled).value;
            D.Inv(next) && next.messages == db.messages && next.turns == db.turns
  {
    D.StepKeepsInv(db, D.EnsureTopic(s, topic));
    hide D.Inv;
  }

  lemma UserTurnSeen(db: D.Db, user: D.UserTurn, s: SessionId)
    requires D.Inv(db) && D.UserTurnCommitted(db, user).Ok?
    ensures var next := D.UserTurnCommitted(db, user).value.db;
            D.Inv(next) && Answers(next, s) == Answers(db, s)
  {
    D.UserTurnKeepsInv(db, user);
    hide Trim, D.Inv, AsStored;
    SameAnswers(db, D.UserTurnCommitted(db, user).value.db, s);
  }

  lemma CommittingSeen(db: D.Db, user: D.UserTurn, labelled: bool)
    requires D.Inv(db)
    ensures D.Inv(Committing(db, user, labelled).0)
    ensures Answers(Committing(db, user, labelled).0, user.session) == Answers(db, user.session)
  {
    hide D.Inv, D.UserTurnCommitted, TopicEnsured;
    var r := TopicEnsured(db, user.session, user.topic, labelled);
    if r.Ok? {
      TopicSeen(db, user.session, user.topic, labelled);
      SameAnswers(db, r.value, user.session);
      if D.UserTurnCommitted(r.value, user).Ok? { UserTurnSeen(r.value, user, user.session); }
    }
  }

  /** A new user turn is accepted, in a live session, under the ids that were asked for. */
  lemma NewTurnIsAccepted(db: D.Db, user: D.UserTurn, answer: MessageId)
    requires D.UserTurnCommitted(db, user).Ok? && !D.UserTurnCommitted(db, user).value.ack.kind.Duplicate?
    requires answer !in db.messages && answer != user.message
    ensures var next := D.UserTurnCommitted(db, user).value.db;
            && answer !in next.messages && user.turn in next.turns && next.turns[user.turn].Waiting()
            && next.turns[user.turn].session == user.session && next.turns[user.turn].topic == user.topic
            && user.session in next.sessions && next.sessions[user.session].Live()
  {
    hide Trim;
  }

  lemma StartSeen(db: D.Db, a: D.Answer)
    requires D.Inv(db) && a.message !in db.messages && a.turn in db.turns && db.turns[a.turn].Waiting()
    requires db.turns[a.turn].session == a.session && db.turns[a.turn].topic == a.topic
    requires a.session in db.sessions && db.sessions[a.session].Live()
    ensures var r := D.AnswerStarted(db, a);
            && r.Ok? && r.value.ack.kind.NewStart? && D.Inv(r.value.db)
            && Answers(r.value.db, a.session) == Answers(db, a.session)[a.message := C.Stored(a.turn, C.Streaming, [])]
  {
    var r := D.AnswerStarted(db, a);
    D.StartKeepsInv(db, a);
    hide D.Inv;
    OneAnswer(db, r.value.db, a.session, a.message, r.value.db.messages[a.message]);
  }

  /** Opening the answer of a turn that was just committed never fails. */
  lemma StartSucceeds(db: D.Db, user: D.UserTurn, labelled: bool, answer: MessageId)
    requires D.Inv(db) && answer !in db.messages && answer != user.message
    requires Committing(db, user, labelled).1.UserCommitted?
    ensures var next := Committing(db, user, labelled).0;
            var r := D.AnswerStarted(next, AnswerOf(user, answer));
            && r.Ok? && r.value.ack.kind.NewStart? && D.Inv(r.value.db)
            && Answers(r.value.db, user.session)
               == Answers(next, user.session)[answer := C.Stored(user.turn, C.Streaming, [])]
  {
    hide D.Inv, D.UserTurnCommitted, D.AnswerStarted, TopicEnsured, Answers;
    CommittingSeen(db, user, labelled);
    TopicSeen(db, user.session, user.topic, labelled);
    NewTurnIsAccepted(TopicEnsured(db, user.session, user.topic, labelled).value, user, answer);
    StartSeen(Committing(db, user, labelled).0, AnswerOf(user, answer));
  }

  lemma ForeignAnswer(db: D.Db, s: SessionId, e: D.Event)
    requires D.Inv(db) && Foreign(db, s, e) && (e.StartAnswer? || e.Checkpoint? || e.CommitAnswer?)
    ensures Answers(D.Step(db, e), s) == Answers(db, s)
  {
    hide Trim, Utf8Length, D.Inv, AsStored;
    SameAnswers(db, D.Step(db, e), s);
  }

  lemma ForeignInterrupt(db: D.Db, s: SessionId, e: D.Event)
    requires D.Inv(db) && Foreign(db, s, e) && e.Interrupt?
    ensures Answers(D.Step(db, e), s) == Answers(db, s)
  {
    if D.AnswerInterrupted(db, e.turn, e.reason).Ok? {
      var m := db.turns[e.turn].output.value;
      assert D.TurnOk(db, e.turn) && D.MessageOk(db, m) && db.messages[m].session != s;
    }
    hide D.Inv, AsStored;
    SameAnswers(db, D.Step(db, e), s);
  }

  lemma SameMessages(db: D.Db, next: D.Db, s: SessionId)
    requires next.messages == db.messages
    ensures Answers(next, s) == Answers(db, s)
  {
  }

  lemma ForeignSeen(db: D.Db, s: SessionId, e: D.Event)
    requires D.Inv(db) && Foreign(db, s, e)
    ensures D.Inv(D.Step(db, e)) && Answers(D.Step(db, e), s) == Answers(db, s)
  {
    D.StepKeepsInv(db, e);
    assert !e.Restart?;
    hide Foreign, D.Inv, Answers, D.UserTurnCommitted, D.AnswerStarted, D.Checkpointed, D.AnswerCommitted,
      D.AnswerInterrupted;
    match e
    case CommitUserTurn(user) => if D.UserTurnCommitted(db, user).Ok? { UserTurnSeen(db, user, s); }
    case StartAnswer(_) => ForeignAnswer(db, s, e);
    case Checkpoint(_, _) => ForeignAnswer(db, s, e);
    case CommitAnswer(_, _, _) => ForeignAnswer(db, s, e);
    case Interrupt(_, _) => ForeignInterrupt(db, s, e);
    case _ => SameMessages(db, D.Step(db, e), s);
  }

  // ----- Every step keeps object and tables together -----

  lemma CancelledStore(c: C.Conv)
    requires C.Inv(c)
    ensures C.Cancelled(c).store == C.InterruptedStore(c) && C.Cancelled(c).durable.None?
  {
    if c.responseId.None? { assert c.durable.None?; }
  }

  lemma CancelEventDurable(c: C.Conv, e: C.Event)
    requires C.Inv(c) && C.Possible(c, e)
    requires e.Submit? || e.Interrupt? || e.Pause? || e.RequestExit? || e.Close? || e.RecoverFailedTurn?
    ensures C.Step(c, e).durable == if R.Cancels(c, e) then None else c.durable
  {
    if c.responseId.None? { assert c.durable.None?; }
    hide C.Inv, C.InterruptedStore, C.InterruptedHistory, C.Stranded;
  }

  lemma CancelEventStore(c: C.Conv, e: C.Event)
    requires C.Inv(c) && C.Possible(c, e)
    requires e.Submit? || e.Interrupt? || e.Pause? || e.RequestExit? || e.Close? || e.RecoverFailedTurn?
    ensures var d := C.Step(c, e);
            if R.Cancels(c, e) then d.store == C.InterruptedStore(c) && d.durable.None?
            else d.store == c.store && d.durable == c.durable
  {
    CancelledStore(c);
    R.CancelShows(c, e);
    CancelEventDurable(c, e);
    hide *;
  }

  /** The tables and the object's next state belong together. */
  ghost predicate Agree(db: D.Db, s: SessionId, c: C.Conv) {
    D.Inv(db) && c.store == Answers(db, s) && TurnLinked(c)
  }

  lemma CancelEventSeen(sys: System, e: C.Event)
    requires Linked(sys) && C.Possible(sys.conv, e)
    requires e.Submit? || e.Interrupt? || e.Pause? || e.RequestExit? || e.Close? || e.RecoverFailedTurn?
    ensures Agree(LocalDb(sys, e), sys.session, C.Step(sys.conv, e))
  {
    StopSeen(sys.db, sys.session, sys.conv);
    CancelEventStore(sys.conv, e);
    hide D.Inv, C.Inv, C.Step, C.Possible, R.Cancels, C.InterruptedStore, Answers, Stopped;
  }

  lemma FailedStore(c: C.Conv, t: C.TaskId)
    requires C.Inv(c) && t in c.tasks
    ensures var d := C.ModelFailed(c, t);
            if c.Current(t) then d.store == C.InterruptedStore(c) && d.durable.None?
            else d.store == c.store && d.durable == c.durable
  {
    CancelledStore(c);
    hide C.Cancelled, C.Inv, C.InterruptedStore;
  }

  lemma CallFailsSeen(sys: System, t: C.TaskId)
    requires Linked(sys) && C.Possible(sys.conv, C.CallFails(t))
    ensures Agree(LocalDb(sys, C.CallFails(t)), sys.session, C.Step(sys.conv, C.CallFails(t)))
  {
    assert C.Step(sys.conv, C.CallFails(t)) == C.ModelFailed(sys.conv, t);
    assert LocalDb(sys, C.CallFails(t)) == if sys.conv.Current(t) then Stopped(sys.db, sys.conv) else sys.db;
    assert t in sys.conv.tasks;
    hide C.Step, LocalDb, C.Possible;
    StopSeen(sys.db, sys.session, sys.conv);
    FailedStore(sys.conv, t);
    hide D.Inv, C.Inv, C.ModelFailed, C.InterruptedStore, Answers, Stopped;
  }

  lemma RevokedStore(c: C.Conv)
    requires C.Inv(c)
    ensures C.Revoked(c).store == C.InterruptedStore(c.(partial := [])) && C.Revoked(c).durable.None?
  {
    if c.responseId.None? { assert c.durable.None?; }
    hide C.Inv, C.InterruptedHistory, C.Stranded;
  }

  lemma RevokeSeen(sys: System, e: C.Event)
    requires Linked(sys) && e.RevokeMemory?
    ensures Agree(LocalDb(sys, e), sys.session, C.Step(sys.conv, e))
  {
    StopSeen(sys.db, sys.session, sys.conv.(partial := []));
    RevokedStore(sys.conv);
    hide D.Inv, C.Inv, C.Revoked, C.InterruptedStore, Answers, Stopped;
  }

  lemma DeltaSeen(sys: System, e: C.Event)
    requires Linked(sys) && e.Delta? && C.Possible(sys.conv, e)
    ensures Agree(LocalDb(sys, e), sys.session, C.Step(sys.conv, e))
  {
    var c := sys.conv;
    if c.durable.Some? { CheckpointSeen(sys.db, sys.session, c.durable.value.message, c.partial + e.value); }
    hide D.Inv, C.Inv, Answers, D.Checkpointed;
  }

  lemma QuietSeen(sys: System, e: C.Event)
    requires Linked(sys) && C.Possible(sys.conv, e)
    requires e.FinalText? || e.SaveArrives? || e.Resume? || e.ConfirmExit? || e.RestoreHistory?
    ensures Agree(LocalDb(sys, e), sys.session, C.Step(sys.conv, e))
  {
    hide D.Inv, C.Inv, Answers;
  }

  lemma LocalSeen(sys: System, e: C.Event)
    requires Linked(sys) && Possible(sys, Local(e))
    ensures Agree(LocalDb(sys, e), sys.session, C.Step(sys.conv, e))
  {
    hide Linked, LocalDb, Agree, C.Step, C.Possible;
    match e
    case CallFails(t) => CallFailsSeen(sys, t);
    case RevokeMemory => RevokeSeen(sys, e);
    case Delta(_, _, _) => DeltaSeen(sys, e);
    case FinalText(_, _) => QuietSeen(sys, e);
    case SaveArrives(_, _) => QuietSeen(sys, e);
    case Resume => QuietSeen(sys, e);
    case ConfirmExit(_) => QuietSeen(sys, e);
    case RestoreHistory(_) => QuietSeen(sys, e);
    case _ => CancelEventSeen(sys, e);
  }

  lemma PlannedStore(c: C.Conv, t: C.TaskId, decision: C.Decision, retry: bool, ack: C.UserAck, started: bool,
                     answer: C.Durable)
    requires C.Inv(c) && c.runtime && t in c.tasks && c.tasks[t].phase.Planning?
    ensures var d := C.Planned(c, t, decision, retry, ack, started, answer);
            if Dropped(c, t, decision) then d.store == c.store && d.durable == c.durable
            else if ack.UserCommitted? && !decision.Exit? && started
            then d.durable == Some(answer)
                 && d.store == c.store[answer.message := C.Stored(answer.turn, C.Streaming, [])]
            else d.store == c.store && d.durable.None?
  {
    if c.Current(t) { assert C.PhaseOk(c, c.tasks[t].phase) && c.durable.None? && c.responseId.None?; }
    hide C.Inv, C.InterruptedHistory, C.Stranded;
  }

  lemma PlanTables(sys: System, e: Event)
    requires D.Inv(sys.db) && Possible(sys, e) && e.Plan?
    ensures D.Inv(PlanDb(sys, e))
    ensures var (db, ack) := Committing(sys.db, e.user, e.labelled);
            && (ack.UserCommitted? ==> D.AnswerStarted(db, AnswerOf(e.user, e.answer)).Ok?)
            && Answers(PlanDb(sys, e), sys.session)
               == if !Dropped(sys.conv, e.task, e.decision) && ack.UserCommitted? && !e.decision.Exit?
                  then Answers(sys.db, sys.session)[e.answer := C.Stored(e.user.turn, C.Streaming, [])]
                  else Answers(sys.db, sys.session)
  {
    var (db, ack) := Committing(sys.db, e.user, e.labelled);
    CommittingSeen(sys.db, e.user, e.labelled);
    if ack.UserCommitted? { StartSucceeds(sys.db, e.user, e.labelled, e.answer); }
    hide D.Inv, Committing, D.AnswerStarted, Answers, Dropped;
  }

  lemma PlanSeen(sys: System, e: Event)
    requires Linked(sys) && Possible(sys, e) && e.Plan? && C.Possible(sys.conv, Seen(sys, e))
    ensures Agree(PlanDb(sys, e), sys.session, C.Step(sys.conv, Seen(sys, e)))
  {
    var (db, ack) := Committing(sys.db, e.user, e.labelled);
    var started := D.AnswerStarted(db, AnswerOf(e.user, e.answer)).Ok?;
    var answer := C.Durable(e.user.turn, e.answer);
    assert C.Step(sys.conv, Seen(sys, e))
        == C.Planned(sys.conv, e.task, e.decision, e.retry, ack, started, answer);
    hide C.Step, Seen, PlanDb;
    PlanTables(sys, e);
    hide C.Possible;
    PlannedStore(sys.conv, e.task, e.decision, e.retry, ack, started, answer);
    hide D.Inv, C.Inv, Committing, D.AnswerStarted, Answers, C.Planned, Dropped;
  }

  lemma RepliedStore(c: C.Conv, t: C.TaskId, final: Text, citations: Option<Text>)
    requires C.Inv(c) && c.runtime && c.Current(t) && c.tasks[t].phase.Replying?
    ensures c.durable.Some? && c.Streams(c.durable.value.message)
    ensures var d, m := C.Replied(c, t, final, citations, true), c.durable.value.message;
            if Committable(final, citations)
            then d.store == c.store[m := C.Stored(c.store[m].turn, C.Committed, Trim(final))] && d.durable == c.durable
            else d.store == C.InterruptedStore(c.(partial := final, committing := false)) && d.durable.None?
  {
    assert C.PhaseOk(c, c.tasks[t].phase);
    hide C.Inv, C.InterruptedHistory, C.Stranded, Committable, Trim;
  }

  lemma ReplySeen(sys: System, e: Event)
    requires Linked(sys) && Possible(sys, e) && e.Reply? && C.Possible(sys.conv, Seen(sys, e))
    ensures Agree(ReplyDb(sys, e), sys.session, C.Step(sys.conv, Seen(sys, e)))
  {
    var c := sys.conv;
    assert C.Step(c, Seen(sys, e)) == C.Replied(c, e.task, e.final, e.citations, true);
    hide C.Step, C.Possible, Seen;
    if c.Current(e.task) {
      RepliedStore(c, e.task, e.final, e.citations);
      CommitSeen(sys.db, sys.session, c.durable.value.message, e.final, e.citations);
      StopSeen(sys.db, sys.session, c.(partial := e.final, committing := false));
      hide C.Replied, D.Inv, C.Inv, D.AnswerCommitted, Committable, Answers, Stopped, C.InterruptedStore;
    } else {
      hide D.Inv, C.Inv, Answers;
    }
  }

  lemma RuntimeStays(c: C.Conv, e: C.Event)
    requires C.Possible(c, e)
    ensures C.Step(c, e).runtime == c.runtime
  {
    hide C.Cancelled, C.Submitted, C.Planned, C.Replied;
  }

  /** After every event the object's picture of its answers is what the tables hold. */
  lemma StepKeepsLinked(sys: System, e: Event)
    requires Linked(sys) && Possible(sys, e)
    ensures Linked(Step(sys, e))
  {
    if e.Elsewhere? {
      ForeignSeen(sys.db, sys.session, e.change);
      hide D.Inv, C.Inv, Answers, D.Step;
    } else {
      SeenIsPossible(sys, e);
      C.StepKeepsInv(sys.conv, Seen(sys, e));
      RuntimeStays(sys.conv, Seen(sys, e));
      hide D.Inv, C.Inv, C.Step, C.Possible, LocalDb, PlanDb, ReplyDb;
      match e
      case Local(event) => LocalSeen(sys, event);
      case Plan(_, _, _, _, _, _) => PlanSeen(sys, e);
      case Reply(_, _, _) => ReplySeen(sys, e);
    }
  }

  // ----- Runs -----

  ghost function Next(sys: System, e: Event): (next: System)
    requires Linked(sys) && Possible(sys, e)
    ensures Linked(next)
  {
    StepKeepsLinked(sys, e);
    Step(sys, e)
  }

  ghost predicate ValidRun(sys: System, events: seq<Event>)
    requires Linked(sys)
    decreases |events|
  {
    events == [] || (Possible(sys, events[0]) && ValidRun(Next(sys, events[0]), events[1..]))
  }

  ghost function Run(sys: System, events: seq<Event>): (end: System)
    requires Linked(sys) && ValidRun(sys, events)
    ensures Linked(end) && end.session == sys.session
    decreases |events|
  {
    if events == [] then sys else Run(Next(sys, events[0]), events[1..])
  }

  /** What the conversation sees of a run: a run of its own, in which every outcome is the one
      the tables gave. */
  ghost function Trace(sys: System, events: seq<Event>): (trace: seq<C.Event>)
    requires Linked(sys) && ValidRun(sys, events)
    ensures C.ValidRun(sys.conv, trace) && C.Run(sys.conv, trace) == Run(sys, events).conv
    decreases |events|
  {
    if events == [] then []
    else
      var e := events[0];
      var rest := Trace(Next(sys, e), events[1..]);
      if e.Elsewhere? then rest
      else
        SeenIsPossible(sys, e);
        R.Prepend(sys.conv, Seen(sys, e), rest);
        [Seen(sys, e)] + rest
  }

  /** A process that starts on recovered tables: nothing of the session streams. */
  ghost predicate Quiet(db: D.Db, s: SessionId) {
    D.Inv(db) && forall m :: m in db.messages && Mine(db.messages[m], s) ==> !db.messages[m].status.Streaming?
  }

  ghost function Opening(db: D.Db, s: SessionId): (sys: System)
    requires Quiet(db, s)
    ensures Linked(sys) && sys.session == s && sys.conv.orphans == {}
    ensures C.Inv(sys.conv) && C.Faithful(sys.conv) && H.FlagTrue(sys.conv)
  {
    System(C.FRESH.(store := Answers(db, s)), db, s)
  }

  lemma RecoveredIsQuiet(db: D.Db, s: SessionId, reason: Text)
    requires D.Inv(db)
    ensures Quiet(D.Recovered(db, reason), s)
  {
    D.RecoveryKeepsInv(db, reason);
    D.RecoveryLeavesNothingInFlight(db, reason);
  }

  ghost predicate StreamsInTable(db: D.Db, s: SessionId, m: MessageId) {
    m in db.messages && Mine(db.messages[m], s) && db.messages[m].status.Streaming?
  }

  /** The streaming rows of the session are the open reply's row and nothing else. */
  ghost predicate TablesNameTheirStream(sys: System) {
    forall m :: StreamsInTable(sys.db, sys.session, m) ==> R.Named(sys.conv, m)
  }

  lemma TablesNameIff(sys: System)
    requires Linked(sys)
    ensures TablesNameTheirStream(sys) <==> sys.conv.orphans == {}
  {
    R.AllNamedIff(sys.conv);
    forall m ensures StreamsInTable(sys.db, sys.session, m) <==> sys.conv.Streams(m) {}
    hide D.Inv, C.Inv;
  }

  /** In every run over recovered tables, whatever others do to them meanwhile: the streaming
      rows of the session are the open reply's row and nothing else, exactly when no reply was
      cancelled, failed or refused with more text than a checkpoint may hold. */
  lemma TablesNameTheirStreamIff(db: D.Db, s: SessionId, events: seq<Event>)
    requires Quiet(db, s) && ValidRun(Opening(db, s), events)
    ensures TablesNameTheirStream(Run(Opening(db, s), events))
       <==> R.NeverStrands(Opening(db, s).conv, Trace(Opening(db, s), events))
  {
    hide *;
    R.OrphansStay(Opening(db, s).conv, Trace(Opening(db, s), events));
    TablesNameIff(Run(Opening(db, s), events));
  }

  /** A finished reply is refused by the tables exactly for its text or its citations, never
      because the row or its turn is in the wrong state. */
  lemma ReplyRefusedIff(sys: System, e: Event)
    requires Linked(sys) && Possible(sys, e) && e.Reply? && sys.conv.Current(e.task)
    ensures sys.conv.durable.Some?
    ensures D.AnswerCommitted(sys.db, sys.conv.durable.value.message, e.final, e.citations).Err?
       <==> !Committable(e.final, e.citations)
  {
    RepliedStore(sys.conv, e.task, e.final, e.citations);
    CommitSeen(sys.db, sys.session, sys.conv.durable.value.message, e.final, e.citations);
    hide *;
  }

  /** The history tells of every durable answer the status that its row has. */
  ghost predicate TellsTables(c: C.Conv, db: D.Db) {
    forall i :: 0 <= i < |c.history| && c.history[i].answer.Some? ==>
      var m := c.history[i].answer.value;
      && m in db.messages && db.messages[m].role.Assistant?
      && (c.history[i].status.EntryCommitted? <==> db.messages[m].status.Committed?)
      && (c.history[i].status.EntryInterrupted? <==> db.messages[m].status.Interrupted?)
  }

  lemma FaithfulTellsTables(sys: System)
    requires Linked(sys) && C.Faithful(sys.conv)
    ensures TellsTables(sys.conv, sys.db)
  {
    hide C.Inv;
    forall i | 0 <= i < |sys.conv.history| && sys.conv.history[i].answer.Some?
      ensures var m := sys.conv.history[i].answer.value;
              && m in sys.db.messages && sys.db.messages[m].role.Assistant? && !sys.db.messages[m].status.Failed?
              && C.EntryFaithful(sys.conv.history[i], sys.conv.store)
    {
      assert C.EntryFaithful(sys.conv.history[i], sys.conv.store);
      assert D.MessageOk(sys.db, sys.conv.history[i].answer.value);
    }
    hide D.Inv;
  }

  /** Over recovered tables, an orderly run keeps the history true to the tables. */
  lemma OrderlyRunsTellTables(db: D.Db, s: SessionId, events: seq<Event>)
    requires Quiet(db, s) && ValidRun(Opening(db, s), events)
    requires H.Orderly(Opening(db, s).conv, Trace(Opening(db, s), events))
    ensures TellsTables(Run(Opening(db, s), events).conv, Run(Opening(db, s), events).db)
  {
    hide *;
    var begin := Opening(db, s);
    H.OrderlyRunsStayFaithful(begin.conv, Trace(begin, events));
    FaithfulTellsTables(Run(begin, events));
  }

  lemma RowOf(sys: System, m: MessageId)
    requires Linked(sys) && m in sys.conv.store
    ensures m in sys.db.messages && sys.db.messages[m].content == sys.conv.store[m].content
    ensures sys.conv.store[m].status.Interrupted? ==> sys.db.messages[m].status.Interrupted?
  {
    assert D.MessageOk(sys.db, m);
    hide C.Inv;
  }

  lemma LinkedConv(sys: System)
    requires Linked(sys)
    ensures C.Inv(sys.conv) && sys.conv.runtime
  {
  }

  lemma NextInterrupt(sys: System)
    requires Linked(sys)
    ensures Possible(sys, Local(C.Interrupt))
    ensures Next(sys, Local(C.Interrupt)).conv == C.Step(sys.conv, C.Interrupt)
  {
    hide Linked;
  }

  /** What was said for an open reply, interrupted, is what its row holds, whatever others did to the
      tables meanwhile. */
  lemma SaidIsInTheTables(sys: System, events: seq<Event>)
    requires Linked(sys) && C.ReplyingNow(sys.conv) && sys.conv.partial == [] && ValidRun(sys, events)
    requires Q.Speaking(sys.conv, Trace(sys, events))
    requires 0 < |Flatten(Q.Said(sys.conv.revision, Trace(sys, events)))| <= 120_000
    ensures sys.conv.durable.Some? && Possible(Run(sys, events), Local(C.Interrupt))
    ensures var m, end := sys.conv.durable.value.message, Next(Run(sys, events), Local(C.Interrupt));
            && m in end.db.messages && end.db.messages[m].status.Interrupted?
            && end.db.messages[m].content == Flatten(Q.Said(sys.conv.revision, Trace(sys, events)))
  {
    hide *;
    LinkedConv(sys);
    Q.InterruptKeepsWhatWasSaid(sys.conv, Trace(sys, events));
    NextInterrupt(Run(sys, events));
    RowOf(Next(Run(sys, events), Local(C.Interrupt)), sys.conv.durable.value.message);
  }
}
