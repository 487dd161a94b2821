/** Turns and messages of the conversation store: sequence allocation, streaming answers,
    idempotent resubmission and restart recovery. */
module TurnLifecycle {
  import opened AnswerLimits
  import opened Texts
  import opened Wrappers

  type SessionId = nat
  type TopicId = nat
  type TurnId = nat
  type MessageId = nat

  const MAX_USER_UNITS: nat := 6000

  datatype SessionStatus = Active | Idle | Ended | Expired

  datatype Session = Session(status: SessionStatus, latest: nat) {
    predicate Live() {
      status.Active? || status.Idle?
    }
  }

  datatype Role = User | Assistant | System

  datatype Status = Committed | Streaming | Interrupted | Failed

  datatype Message = Message(session: SessionId, turn: Option<TurnId>, topic: TopicId, sequence: nat, role: Role,
                             status: Status, content: Text, citations: Option<Text>)

  datatype TurnStatus = TurnAccepted | TurnPlanning | TurnAnswering | TurnCommitted | TurnInterrupted | TurnFailed

  datatype Turn = Turn(session: SessionId, topic: TopicId, input: MessageId, output: Option<MessageId>,
                       retryOf: Option<TurnId>, status: TurnStatus, error: Option<Text>) {
    predicate Waiting() {
      status.TurnAccepted? || status.TurnPlanning?
    }
  }

  datatype Db = Db(sessions: map<SessionId, Session>, topics: map<TopicId, SessionId>,
                   turns: map<TurnId, Turn>, messages: map<MessageId, Message>)

  datatype AckKind = NewCommit | NewStart | NewInterrupt | Duplicate

  datatype Ack = Ack(kind: AckKind, session: SessionId, message: MessageId, turn: TurnId, sequence: nat)

  datatype Error = Invalid | Conflict | Unavailable | Constraint | NotStreaming | NotWritable

  datatype Reply = Reply(db: Db, ack: Ack)

  datatype UserTurn = UserTurn(session: SessionId, topic: TopicId, message: MessageId, turn: TurnId,
                               retryOf: Option<TurnId>, content: Text)

  datatype Answer = Answer(session: SessionId, topic: TopicId, turn: TurnId, message: MessageId)

  // ----- The transactions as functions of the tables -----

  /** The stored user message that a resubmission must match field by field. */
  predicate SameUserMessage(m: Message, u: UserTurn) {
    m.session == u.session && m.topic == u.topic && m.role.User? && m.status.Committed?
    && m.content == Trim(u.content) && m.turn.Some?
  }

  function UserTurnCommitted(db: Db, u: UserTurn): Result<Reply, Error> {
    var content := Trim(u.content);
    if content == [] || |content| > MAX_USER_UNITS then Err(Invalid)
    else if u.message in db.messages then
      var m := db.messages[u.message];
      if SameUserMessage(m, u) then Ok(Reply(db, Ack(Duplicate, m.session, u.message, m.turn.value, m.sequence)))
      else Err(Conflict)
    else if u.topic !in db.topics || db.topics[u.topic] != u.session then Err(Unavailable)
    else if u.session !in db.sessions || !db.sessions[u.session].Live() then Err(Unavailable)
    else if u.turn in db.turns || (u.retryOf.Some? && u.retryOf.value !in db.turns) then Err(Constraint)
    else
      var k := db.sessions[u.session].latest + 1;
      var turn := Turn(u.session, u.topic, u.message, None, u.retryOf, TurnAccepted, None);
      var message := Message(u.session, Some(u.turn), u.topic, k, User, Committed, content, None);
      Ok(Reply(Db(db.sessions[u.session := Session(Active, k)], db.topics,
                  db.turns[u.turn := turn], db.messages[u.message := message]),
               Ack(NewCommit, u.session, u.message, u.turn, k)))
  }

  predicate SameAnswer(m: Message, a: Answer) {
    m.session == a.session && m.topic == a.topic && m.turn == Some(a.turn) && m.role.Assistant? && m.status.Streaming?
  }

  function AnswerStarted(db: Db, a: Answer): Result<Reply, Error> {
    if a.message in db.messages then
      var m := db.messages[a.message];
      if SameAnswer(m, a) then Ok(Reply(db, Ack(Duplicate, m.session, a.message, a.turn, m.sequence)))
      else Err(Conflict)
    else if a.turn !in db.turns || db.turns[a.turn].session != a.session || db.turns[a.turn].topic != a.topic
            || !db.turns[a.turn].Waiting() then Err(Unavailable)
    else if a.session !in db.sessions || !db.sessions[a.session].Live() then Err(Unavailable)
    else
      var k := db.sessions[a.session].latest + 1;
      var message := Message(a.session, Some(a.turn), a.topic, k, Assistant, Streaming, [], None);
      Ok(Reply(Db(db.sessions[a.session := Session(Active, k)], db.topics,
                  db.turns[a.turn := db.turns[a.turn].(status := TurnAnswering, output := Some(a.message))],
                  db.messages[a.message := message]),
               Ack(NewStart, a.session, a.message, a.turn, k)))
  }

  function Checkpointed(db: Db, id: MessageId, content: Text): Result<Db, Error> {
    if |content| > MAX_ANSWER_UNITS then Err(Invalid)
    else if id !in db.messages || !db.messages[id].role.Assistant? || !db.messages[id].status.Streaming?
    then Err(NotStreaming)
    else Ok(db.(messages := db.messages[id := db.messages[id].(content := content)]))
  }

  function AnswerCommitted(db: Db, id: MessageId, content: Text, citations: Option<Text>): Result<Reply, Error> {
    var text := Trim(content);
    if !Committable(content, citations) then Err(Invalid)
    else if id !in db.messages || !db.messages[id].role.Assistant? || db.messages[id].turn.None? then Err(Unavailable)
    else
      var m := db.messages[id];
      var t := m.turn.value;
      if m.status.Committed? then
        if m.content == text && m.citations == citations
        then Ok(Reply(db, Ack(Duplicate, m.session, id, t, m.sequence))) else Err(Conflict)
      else if !m.status.Streaming? then Err(NotWritable)
      else if t !in db.turns || db.turns[t].output != Some(id) || !db.turns[t].status.TurnAnswering?
      then Err(Constraint)
      else
        Ok(Reply(db.(turns := db.turns[t := db.turns[t].(status := TurnCommitted, error := None)],
                     messages := db.messages[id := m.(status := Committed, content := text, citations := citations)]),
                 Ack(NewCommit, m.session, id, t, m.sequence)))
  }

  function AnswerInterrupted(db: Db, t: TurnId, reason: Text): Result<Reply, Error> {
    if t !in db.turns || db.turns[t].output.None? || db.turns[t].output.value !in db.messages then Err(Unavailable)
    else
      var turn := db.turns[t];
      var id := turn.output.value;
      var m := db.messages[id];
      if turn.status.TurnInterrupted? && m.status.Interrupted?
      then Ok(Reply(db, Ack(Duplicate, turn.session, id, t, m.sequence)))
      else if !turn.status.TurnAnswering? || !m.status.Streaming? then Err(NotWritable)
      else
        Ok(Reply(db.(turns := db.turns[t := turn.(status := TurnInterrupted, error := Some(reason))],
                     messages := db.messages[id := m.(status := Interrupted)]),
                 Ack(NewInterrupt, turn.session, id, t, m.sequence)))
  }

  function RecoveredTurn(turn: Turn, reason: Text): Turn {
    if turn.Waiting() || turn.status.TurnAnswering?
    then turn.(status := TurnInterrupted, error := Some(turn.error.Or(reason))) else turn
  }

  function RecoveredMessage(m: Message): Message {
    if m.status.Streaming? then m.(status := Interrupted) else m
  }

  /** What the store does to the tables when a new process takes them over. */
  function Recovered(db: Db, reason: Text): Db {
    Db(map s | s in db.sessions ::
         if db.sessions[s].status.Active? then db.sessions[s].(status := Idle) else db.sessions[s],
       db.topics,
       map t | t in db.turns :: RecoveredTurn(db.turns[t], reason),
       map m | m in db.messages :: RecoveredMessage(db.messages[m]))
  }

  // ----- Runs -----

  datatype Event =
    | CreateSession(s: SessionId, topic: Option<TopicId>)
    | EnsureTopic(s: SessionId, wanted: TopicId)
    | SetStatus(s: SessionId, status: SessionStatus)
    | CommitUserTurn(user: UserTurn)
    | StartAnswer(answer: Answer)
    | Checkpoint(id: MessageId, content: Text)
    | CommitAnswer(id: MessageId, content: Text, citations: Option<Text>)
    | Interrupt(turn: TurnId, reason: Text)
    | Restart(reason: Text)

  function WithSession(db: Db, s: SessionId, topic: Option<TopicId>): Result<Db, Error> {
    if s in db.sessions || (topic.Some? && topic.value in db.topics) then Err(Constraint)
    else Ok(db.(sessions := db.sessions[s := Session(Active, 0)],
                topics := if topic.Some? then db.topics[topic.value := s] else db.topics))
  }

  /** A failing call leaves the tables as they were. */
  function Step(db: Db, e: Event): Db {
    match e
    case CreateSession(s, topic) => (match WithSession(db, s, topic) case Ok(next) => next case Err(_) => db)
    case EnsureTopic(s, topic) =>
      if topic !in db.topics && s in db.sessions && db.sessions[s].Live()
      then db.(topics := db.topics[topic := s]) else db
    case SetStatus(s, status) =>
      if s in db.sessions && db.sessions[s].Live()
      then db.(sessions := db.sessions[s := db.sessions[s].(status := status)]) else db
    case CommitUserTurn(u) => (match UserTurnCommitted(db, u) case Ok(r) => r.db case Err(_) => db)
    case StartAnswer(a) => (match AnswerStarted(db, a) case Ok(r) => r.db case Err(_) => db)
    case Checkpoint(id, content) => (match Checkpointed(db, id, content) case Ok(next) => next case Err(_) => db)
    case CommitAnswer(id, content, citations) =>
      (match AnswerCommitted(db, id, content, citations) case Ok(r) => r.db case Err(_) => db)
    case Interrupt(t, reason) => (match AnswerInterrupted(db, t, reason) case Ok(r) => r.db case Err(_) => db)
    case Restart(reason) => Recovered(db, reason)
  }

  function Run(db: Db, events: seq<Event>): Db
    decreases |events|
  {
    if events == [] then db else Run(Step(db, events[0]), events[1..])
  }

  // ----- The invariant -----

  ghost predicate At(db: Db, s: SessionId, k: nat, m: MessageId) {
    m in db.messages && db.messages[m].session == s && db.messages[m].sequence == k
  }

  ghost predicate Filled(db: Db, s: SessionId, k: nat) {
    exists m :: At(db, s, k, m)
  }

  /** The messages of a session carry exactly the sequences 1..latest, each once. */
  ghost predicate Sequenced(db: Db) {
    && (forall m :: m in db.messages ==>
          && db.messages[m].session in db.sessions
          && 1 <= db.messages[m].sequence <= db.sessions[db.messages[m].session].latest)
    && (forall s, k, m, n :: At(db, s, k, m) && At(db, s, k, n) ==> m == n)
    && (forall s, k: nat :: s in db.sessions && 1 <= k <= db.sessions[s].latest ==> Filled(db, s, k))
  }

  /** A row of the message table and its turn agree. */
  ghost predicate MessageOk(db: Db, m: MessageId)
    requires m in db.messages
  {
    var message := db.messages[m];
    && !message.role.System? && !message.status.Failed?
    && message.turn.Some? && message.turn.value in db.turns
    && var turn := db.turns[message.turn.value];
    && turn.session == message.session
    && (message.role.User? ==> message.status.Committed? && turn.input == m)
    && (message.role.Assistant? ==> turn.output == Some(m))
  }

  /** Which message status goes with which turn status. */
  predicate Matches(turn: TurnStatus, message: Status) {
    match turn
    case TurnAnswering => message.Streaming?
    case TurnCommitted => message.Committed?
    case TurnInterrupted => message.Interrupted?
    case _ => false
  }

  ghost predicate TurnOk(db: Db, t: TurnId)
    requires t in db.turns
  {
    var turn := db.turns[t];
    && turn.input in db.messages && db.messages[turn.input].role.User? && db.messages[turn.input].turn == Some(t)
    && (turn.output.None? ==> turn.Waiting() || turn.status.TurnInterrupted?)
    && (turn.output.Some? ==>
          && turn.output.value in db.messages
          && var message := db.messages[turn.output.value];
          && message.role.Assistant? && message.turn == Some(t)
          && Matches(turn.status, message.status)
          && db.messages[turn.input].sequence < message.sequence)
  }

  ghost predicate MessagesOk(db: Db) {
    forall m :: m in db.messages ==> MessageOk(db, m)
  }

  ghost predicate TurnsOk(db: Db) {
    forall t :: t in db.turns ==> TurnOk(db, t)
  }

  ghost predicate Inv(db: Db) {
    Sequenced(db) && MessagesOk(db) && TurnsOk(db)
  }

  /** A turn is answering exactly when its output message is streaming. */
  lemma AnsweringIffStreaming(db: Db, t: TurnId)
    requires Inv(db) && t in db.turns
    ensures db.turns[t].status.TurnAnswering? <==>
              exists m :: m in db.messages && db.messages[m].status.Streaming? && db.messages[m].turn == Some(t)
  {
  }

  /** A turn has one question and at most one answer, and the answer comes later. */
  lemma OneAnswerPerTurn(db: Db, t: TurnId, a: MessageId, b: MessageId)
    requires Inv(db) && a in db.messages && b in db.messages
    requires db.messages[a].turn == Some(t) && db.messages[b].turn == Some(t)
    ensures db.messages[a].role == db.messages[b].role ==> a == b
    ensures db.messages[a].role.User? && db.messages[b].role.Assistant? ==>
              db.messages[a].sequence < db.messages[b].sequence
  {
  }

  // ----- Every step keeps the invariant -----

  /** One new message at the next sequence, with its turn. */
  lemma AppendKeepsSequenced(db: Db, next: Db, s: SessionId, m: MessageId)
    requires Sequenced(db) && s in db.sessions && m !in db.messages
    requires next.sessions.Keys == db.sessions.Keys && next.sessions[s].latest == db.sessions[s].latest + 1
    requires forall z :: z in db.sessions && z != s ==> next.sessions[z].latest == db.sessions[z].latest
    requires next.messages.Keys == db.messages.Keys + {m}
    requires forall n :: n in db.messages ==> next.messages[n] == db.messages[n]
    requires At(next, s, next.sessions[s].latest, m)
    ensures Sequenced(next)
  {
    forall z, k: nat | z in next.sessions && 1 <= k <= next.sessions[z].latest ensures Filled(next, z, k) {
      if z == s && k == next.sessions[s].latest {
      } else {
        assert Filled(db, z, k);
        var n :| At(db, z, k, n);
        assert At(next, z, k, n);
      }
    }
    forall z, k, a, b | At(next, z, k, a) && At(next, z, k, b) ensures a == b {
      if a != m { assert At(db, z, k, a); }
      if b != m { assert At(db, z, k, b); }
    }
  }

  predicate SamePlace(m: Message, n: Message) {
    m.session == n.session && m.sequence == n.sequence && m.role == n.role && m.turn == n.turn && m.topic == n.topic
  }

  predicate SameTurn(t: Turn, u: Turn) {
    t.session == u.session && t.topic == u.topic && t.input == u.input && t.output == u.output && t.retryOf == u.retryOf
  }

  predicate UpdatedMessage(m: Message, n: Message) {
    SamePlace(m, n) && !n.status.Failed? && (m.role.User? ==> n == m)
  }

  ghost predicate UpdatedTurn(t: Turn, u: Turn, next: Db) {
    && SameTurn(t, u)
    && (match u.output
        case None => u.Waiting() || u.status.TurnInterrupted?
        case Some(m) => m in next.messages && Matches(u.status, next.messages[m].status))
  }

  /** Updates of statuses and contents, no row added. */
  ghost predicate Updates(db: Db, next: Db) {
    && next.sessions.Keys == db.sessions.Keys
    && (forall s :: s in db.sessions ==> next.sessions[s].latest == db.sessions[s].latest)
    && next.messages.Keys == db.messages.Keys && next.turns.Keys == db.turns.Keys
    && (forall m :: m in db.messages ==> UpdatedMessage(db.messages[m], next.messages[m]))
    && (forall t :: t in db.turns ==> UpdatedTurn(db.turns[t], next.turns[t], next))
  }

  lemma UpdateKeepsSequenced(db: Db, next: Db)
    requires Sequenced(db) && Updates(db, next)
    ensures Sequenced(next)
  {
    hide UpdatedTurn;
    forall z, k: nat | z in next.sessions && 1 <= k <= next.sessions[z].latest ensures Filled(next, z, k) {
      assert Filled(db, z, k);
      var n :| At(db, z, k, n);
      assert At(next, z, k, n);
    }
    forall z, k, a, b | At(next, z, k, a) && At(next, z, k, b) ensures a == b {
      assert At(db, z, k, a) && At(db, z, k, b);
    }
  }

  lemma UpdateKeepsRows(db: Db, next: Db)
    requires MessagesOk(db) && TurnsOk(db) && Updates(db, next)
    ensures MessagesOk(next) && TurnsOk(next)
  {
  }

  lemma UpdateKeepsInv(db: Db, next: Db)
    requires Inv(db) && Updates(db, next)
    ensures Inv(next)
  {
    hide Updates, Sequenced, MessagesOk, TurnsOk;
    UpdateKeepsSequenced(db, next);
    UpdateKeepsRows(db, next);
  }

  lemma UserTurnKeepsRows(db: Db, u: UserTurn)
    requires Inv(db) && UserTurnCommitted(db, u).Ok? && u.message !in db.messages
    ensures MessagesOk(UserTurnCommitted(db, u).value.db) && TurnsOk(UserTurnCommitted(db, u).value.db)
  {
  }

  lemma UserTurnKeepsInv(db: Db, u: UserTurn)
    requires Inv(db) && UserTurnCommitted(db, u).Ok?
    ensures Inv(UserTurnCommitted(db, u).value.db)
  {
    hide Trim, Sequenced, MessageOk, TurnOk, MessagesOk, TurnsOk;
    if u.message !in db.messages {
      UserTurnKeepsRows(db, u);
      AppendKeepsSequenced(db, UserTurnCommitted(db, u).value.db, u.session, u.message);
    }
  }

  lemma StartKeepsRows(db: Db, a: Answer)
    requires Inv(db) && AnswerStarted(db, a).Ok? && a.message !in db.messages
    ensures MessagesOk(AnswerStarted(db, a).value.db) && TurnsOk(AnswerStarted(db, a).value.db)
  {
  }

  lemma StartKeepsInv(db: Db, a: Answer)
    requires Inv(db) && AnswerStarted(db, a).Ok?
    ensures Inv(AnswerStarted(db, a).value.db)
  {
    hide Sequenced, MessageOk, TurnOk, MessagesOk, TurnsOk;
    if a.message !in db.messages {
      StartKeepsRows(db, a);
      AppendKeepsSequenced(db, AnswerStarted(db, a).value.db, a.session, a.message);
    }
  }

  /** Which turns an update of one answer row has to look at: only its own. */
  lemma OtherTurnsUnaffected(db: Db, next: Db, t: TurnId, id: MessageId)
    requires Inv(db) && t in db.turns && id in db.messages && db.turns[t].output == Some(id)
    requires next.messages.Keys == db.messages.Keys
    requires forall m :: m in db.messages && m != id ==> next.messages[m] == db.messages[m]
    ensures forall o :: o in db.turns && o != t ==> UpdatedTurn(db.turns[o], db.turns[o], next)
  {
  }

  /** An answer and its turn change status together. */
  lemma SettleKeepsInv(db: Db, next: Db, t: TurnId, id: MessageId)
    requires Inv(db) && t in db.turns && id in db.messages && db.turns[t].output == Some(id)
    requires next.sessions == db.sessions && next.messages.Keys == db.messages.Keys && next.turns.Keys == db.turns.Keys
    requires forall m :: m in db.messages && m != id ==> next.messages[m] == db.messages[m]
    requires forall o :: o in db.turns && o != t ==> next.turns[o] == db.turns[o]
    requires SamePlace(db.messages[id], next.messages[id]) && SameTurn(db.turns[t], next.turns[t])
    requires Matches(next.turns[t].status, next.messages[id].status)
    ensures Inv(next)
  {
    OtherTurnsUnaffected(db, next, t, id);
    assert db.messages[id].role.Assistant? && !next.messages[id].status.Failed? by { assert TurnOk(db, t); }
    forall m | m in db.messages ensures UpdatedMessage(db.messages[m], next.messages[m]) {
      assert MessageOk(db, m);
    }
    hide Inv, UpdatedMessage;
    UpdateKeepsInv(db, next);
  }

  lemma CheckpointKeepsInv(db: Db, id: MessageId, content: Text)
    requires Inv(db) && Checkpointed(db, id, content).Ok?
    ensures Inv(Checkpointed(db, id, content).value)
  {
    var t := db.messages[id].turn.value;
    assert MessageOk(db, id) && TurnOk(db, t);
    hide Inv;
    SettleKeepsInv(db, Checkpointed(db, id, content).value, t, id);
  }

  lemma CommitKeepsInv(db: Db, id: MessageId, content: Text, citations: Option<Text>)
    requires Inv(db) && AnswerCommitted(db, id, content, citations).Ok?
    ensures Inv(AnswerCommitted(db, id, content, citations).value.db)
  {
    hide Trim, Inv;
    if !db.messages[id].status.Committed? {
      SettleKeepsInv(db, AnswerCommitted(db, id, content, citations).value.db, db.messages[id].turn.value, id);
    }
  }

  /** A streaming answer always finds its turn: the commit never loses it. */
  lemma StreamingAnswerCommits(db: Db, id: MessageId, content: Text, citations: Option<Text>)
    requires Inv(db) && id in db.messages && db.messages[id].status.Streaming?
    ensures AnswerCommitted(db, id, content, citations).Ok? <==>
              && 0 < |Trim(content)| <= MAX_ANSWER_UNITS
              && (citations.Some? ==> Utf8Length(citations.value) <= MAX_CITATION_BYTES)
  {
    hide Trim, Utf8Length;
  }

  /** Nor can stopping one: the checkpoint is taken unless it is too long, and the interruption
      keeps the text that was stored. */
  lemma StreamingAnswerStops(db: Db, id: MessageId, content: Text, reason: Text)
    requires Inv(db) && id in db.messages && db.messages[id].status.Streaming?
    ensures Checkpointed(db, id, content).Ok? <==> |content| <= MAX_ANSWER_UNITS
    ensures db.messages[id].turn.Some?
    ensures var r := AnswerInterrupted(db, db.messages[id].turn.value, reason);
            && r.Ok? && r.value.ack.message == id && r.value.ack.kind.NewInterrupt?
            && r.value.db.messages == db.messages[id := db.messages[id].(status := Interrupted)]
  {
  }

  lemma InterruptKeepsInv(db: Db, t: TurnId, reason: Text)
    requires Inv(db) && AnswerInterrupted(db, t, reason).Ok?
    ensures Inv(AnswerInterrupted(db, t, reason).value.db)
  {
    hide Inv;
    if AnswerInterrupted(db, t, reason).value.ack.kind.NewInterrupt? {
      SettleKeepsInv(db, AnswerInterrupted(db, t, reason).value.db, t, db.turns[t].output.value);
    }
  }

  lemma RecoveredTurnIsUpdated(db: Db, t: TurnId, reason: Text)
    requires t in db.turns && TurnOk(db, t)
    ensures UpdatedTurn(db.turns[t], RecoveredTurn(db.turns[t], reason), Recovered(db, reason))
  {
  }

  lemma RecoveryKeepsInv(db: Db, reason: Text)
    requires Inv(db)
    ensures Inv(Recovered(db, reason))
  {
    hide Sequenced, TurnOk, RecoveredTurn, UpdatedTurn;
    var next := Recovered(db, reason);
    forall m | m in db.messages ensures UpdatedMessage(db.messages[m], next.messages[m]) {
      assert MessageOk(db, m);
    }
    hide MessageOk, UpdatedMessage;
    forall t | t in db.turns ensures UpdatedTurn(db.turns[t], next.turns[t], next) {
      RecoveredTurnIsUpdated(db, t, reason);
    }
    UpdateKeepsInv(db, next);
  }

  lemma SessionKeepsInv(db: Db, next: Db)
    requires Inv(db) && next.messages == db.messages && next.turns == db.turns
    requires db.sessions.Keys <= next.sessions.Keys
    requires forall s :: s in next.sessions ==>
               next.sessions[s].latest == if s in db.sessions then db.sessions[s].latest else 0
    ensures Inv(next)
  {
    forall z, k: nat | z in next.sessions && 1 <= k <= next.sessions[z].latest ensures Filled(next, z, k) {
      assert Filled(db, z, k);
      var n :| At(db, z, k, n);
      assert At(next, z, k, n);
    }
    forall z, k, a, b | At(next, z, k, a) && At(next, z, k, b) ensures a == b {
      assert At(db, z, k, a) && At(db, z, k, b);
    }
    forall m | m in next.messages ensures MessageOk(next, m) { assert MessageOk(db, m); }
    forall t | t in next.turns ensures TurnOk(next, t) { assert TurnOk(db, t); }
  }

  lemma StepKeepsInv(db: Db, e: Event)
    requires Inv(db)
    ensures Inv(Step(db, e))
  {
    hide Inv, UserTurnCommitted, AnswerStarted, Checkpointed, AnswerCommitted, AnswerInterrupted, Recovered;
    match e
    case CreateSession(s, topic) =>
      if WithSession(db, s, topic).Ok? { SessionKeepsInv(db, WithSession(db, s, topic).value); }
    case EnsureTopic(s, topic) => SessionKeepsInv(db, Step(db, e));
    case SetStatus(s, status) => SessionKeepsInv(db, Step(db, e));
    case CommitUserTurn(u) => if UserTurnCommitted(db, u).Ok? { UserTurnKeepsInv(db, u); }
    case StartAnswer(a) => if AnswerStarted(db, a).Ok? { StartKeepsInv(db, a); }
    case Checkpoint(id, content) => if Checkpointed(db, id, content).Ok? { CheckpointKeepsInv(db, id, content); }
    case CommitAnswer(id, content, citations) =>
      if AnswerCommitted(db, id, content, citations).Ok? { CommitKeepsInv(db, id, content, citations); }
    case Interrupt(t, reason) => if AnswerInterrupted(db, t, reason).Ok? { InterruptKeepsInv(db, t, reason); }
    case Restart(reason) => RecoveryKeepsInv(db, reason);
  }

  lemma {:induction false} RunKeepsInv(db: Db, events: seq<Event>)
    requires Inv(db)
    ensures Inv(Run(db, events))
    decreases |events|
  {
    hide Inv, Step;
    if events != [] {
      StepKeepsInv(db, events[0]);
      RunKeepsInv(Step(db, events[0]), events[1..]);
    }
  }

  // ----- Settled rows are for ever -----

  predicate Settled(m: Message) {
    m.status.Committed? || m.status.Interrupted?
  }

  predicate RowPreserved(m: Message, n: Message) {
    SamePlace(m, n) && (Settled(m) ==> n == m)
  }

  /** Sequence, author and place of a message never change; a settled row does not change at all. */
  ghost predicate Preserved(db: Db, next: Db) {
    && (forall s :: s in db.sessions ==> s in next.sessions && db.sessions[s].latest <= next.sessions[s].latest)
    && (forall m :: m in db.messages ==> m in next.messages && RowPreserved(db.messages[m], next.messages[m]))
  }

  lemma AppendPreserves(db: Db, next: Db, s: SessionId)
    requires s in db.sessions && s in next.sessions && db.sessions[s].latest <= next.sessions[s].latest
    requires forall z :: z in db.sessions && z != s ==> z in next.sessions && next.sessions[z] == db.sessions[z]
    requires forall m :: m in db.messages ==> m in next.messages && next.messages[m] == db.messages[m]
    ensures Preserved(db, next)
  {
  }

  lemma OneRowPreserves(db: Db, next: Db, id: MessageId, m: Message)
    requires id in db.messages && RowPreserved(db.messages[id], m)
    requires next.sessions == db.sessions && next.messages == db.messages[id := m]
    ensures Preserved(db, next)
  {
  }

  lemma SamePreserves(db: Db)
    ensures Preserved(db, db)
  {
  }

  lemma RecoveryFreePreserves(db: Db, next: Db)
    requires next.messages == db.messages
    requires forall s :: s in db.sessions ==> s in next.sessions && db.sessions[s].latest == next.sessions[s].latest
    ensures Preserved(db, next)
  {
  }

  lemma RecoveryPreserves(db: Db, reason: Text)
    ensures Preserved(db, Recovered(db, reason))
  {
  }

  lemma StepPreserves(db: Db, e: Event)
    requires Inv(db)
    ensures Preserved(db, Step(db, e))
  {
    hide Inv, Trim, Preserved;
    var next := Step(db, e);
    SamePreserves(db);
    match e
    case CreateSession(s, topic) => RecoveryFreePreserves(db, next);
    case EnsureTopic(s, topic) => RecoveryFreePreserves(db, next);
    case SetStatus(s, status) => RecoveryFreePreserves(db, next);
    case CommitUserTurn(u) => if next != db { AppendPreserves(db, next, u.session); }
    case StartAnswer(a) => if next != db { AppendPreserves(db, next, a.session); }
    case Checkpoint(id, _) => if next != db { OneRowPreserves(db, next, id, next.messages[id]); }
    case CommitAnswer(id, _, _) => if next != db { OneRowPreserves(db, next, id, next.messages[id]); }
    case Interrupt(t, _) =>
      if next != db {
        var id := db.turns[t].output.value;
        OneRowPreserves(db, next, id, next.messages[id]);
      }
    case Restart(reason) => RecoveryPreserves(db, reason);
  }

  lemma {:induction false} RunPreserves(db: Db, events: seq<Event>)
    requires Inv(db)
    ensures Preserved(db, Run(db, events))
    decreases |events|
  {
    hide Inv, Step;
    if events != [] {
      StepKeepsInv(db, events[0]);
      StepPreserves(db, events[0]);
      RunPreserves(Step(db, events[0]), events[1..]);
    }
  }

  /** A settled row never changes again. */
  lemma {:induction false} SettledRowStays(db: Db, events: seq<Event>, id: MessageId)
    requires Inv(db) && id in db.messages && Settled(db.messages[id])
    ensures id in Run(db, events).messages && Run(db, events).messages[id] == db.messages[id]
  {
    hide Inv, Run, Step;
    RunPreserves(db, events);
  }

  /** Resubmitting an acknowledged user message, at any later time and under any turn id,
      returns the original turn and sequence and changes nothing; other content is refused. */
  lemma ResubmissionIsIdempotent(db: Db, u: UserTurn, events: seq<Event>, again: UserTurn)
    requires Inv(db) && UserTurnCommitted(db, u).Ok? && again.message == u.message
    ensures var ack := UserTurnCommitted(db, u).value.ack;
            var later := Run(UserTurnCommitted(db, u).value.db, events);
            var r := UserTurnCommitted(later, again);
            var same := again.session == u.session && again.topic == u.topic && Trim(again.content) == Trim(u.content);
            && (same ==> r == Ok(Reply(later, ack.(kind := Duplicate))))
            && (!same ==> r == Err(if 0 < |Trim(again.content)| <= MAX_USER_UNITS then Conflict else Invalid))
  {
    var first := UserTurnCommitted(db, u).value;
    hide Inv, Trim, Run, Step;
    UserTurnKeepsInv(db, u);
    assert Settled(first.db.messages[u.message]);
    SettledRowStays(first.db, events, u.message);
  }

  /** The same for a committed answer: the replay is acknowledged with the original sequence,
      and nothing ever rewrites the text. */
  lemma CommittedAnswerIsFinal(db: Db, id: MessageId, content: Text, citations: Option<Text>, events: seq<Event>,
                               content': Text, citations': Option<Text>)
    requires Inv(db) && AnswerCommitted(db, id, content, citations).Ok?
    ensures var ack := AnswerCommitted(db, id, content, citations).value.ack;
            var later := Run(AnswerCommitted(db, id, content, citations).value.db, events);
            var r := AnswerCommitted(later, id, content', citations');
            && id in later.messages && later.messages[id].content == Trim(content)
            && (Trim(content') == Trim(content) && citations' == citations ==>
                  r == Ok(Reply(later, ack.(kind := Duplicate))))
            && (Trim(content') != Trim(content) || citations' != citations ==> r.Err?)
  {
    hide Inv, Trim, Run, Step;
    var first := AnswerCommitted(db, id, content, citations).value;
    CommitKeepsInv(db, id, content, citations);
    var row := first.db.messages[id];
    assert Settled(row) && row.content == Trim(content) && row.citations == citations;
    assert row.turn == Some(first.ack.turn);
    SettledRowStays(first.db, events, id);
  }

  /** An interrupted answer keeps its partial text and can never be committed. */
  lemma {:induction false} InterruptedAnswerIsFinal(db: Db, id: MessageId, events: seq<Event>, content: Text,
                                                    citations: Option<Text>)
    requires Inv(db) && id in db.messages && db.messages[id].status.Interrupted?
    ensures var later := Run(db, events);
            id in later.messages && later.messages[id] == db.messages[id]
            && AnswerCommitted(later, id, content, citations).Err? && Checkpointed(later, id, content).Err?
  {
    hide Inv, Trim, Run, Step;
    SettledRowStays(db, events, id);
  }

  /** After recovery nothing streams, no turn is in flight, no session is active; a second
      recovery finds nothing to do. */
  lemma RecoveryLeavesNothingInFlight(db: Db, reason: Text)
    ensures var next := Recovered(db, reason);
            && (forall m :: m in next.messages ==> !next.messages[m].status.Streaming?)
            && (forall t :: t in next.turns ==> !next.turns[t].Waiting() && !next.turns[t].status.TurnAnswering?)
            && (forall s :: s in next.sessions ==> !next.sessions[s].status.Active?)
            && Recovered(next, reason) == next
  {
  }

  // ----- A row follows its own calls -----

  /** What one call makes of a stored row, read off the row and the call alone. */
  function NextRow(id: MessageId, m: Message, e: Event): Message {
    match e
    case Checkpoint(i, content) =>
      if i == id && m.role.Assistant? && m.status.Streaming? && |content| <= 120_000
      then m.(content := content) else m
    case CommitAnswer(i, content, citations) =>
      if i == id && m.role.Assistant? && m.status.Streaming? && 0 < |Trim(content)| <= 120_000
         && (citations.Some? ==> Utf8Length(citations.value) <= 65_536)
      then m.(status := Committed, content := Trim(content), citations := citations) else m
    case Interrupt(t, _) => if m.turn == Some(t) && m.status.Streaming? then m.(status := Interrupted) else m
    case Restart(_) => if m.status.Streaming? then m.(status := Interrupted) else m
    case _ => m
  }

  function LaterRow(id: MessageId, m: Message, events: seq<Event>): Message
    decreases |events|
  {
    if events == [] then m else LaterRow(id, NextRow(id, m, events[0]), events[1..])
  }

  /** A restart changes one thing in the message table: what streamed is interrupted. The text and the
      citations that were stored are still there. */
  lemma RecoveryKeepsTexts(db: Db, reason: Text, id: MessageId)
    requires id in db.messages
    ensures var next := Recovered(db, reason);
            && next.messages.Keys == db.messages.Keys
            && var m, n := db.messages[id], next.messages[id];
            && n.content == m.content && n.citations == m.citations && SamePlace(m, n)
            && n.status == if m.status.Streaming? then Interrupted else m.status
  {
  }

  lemma CommitFollowsRow(db: Db, i: MessageId, content: Text, citations: Option<Text>, id: MessageId)
    requires Inv(db) && id in db.messages
    ensures var e := CommitAnswer(i, content, citations);
            id in Step(db, e).messages && Step(db, e).messages[id] == NextRow(id, db.messages[id], e)
  {
    hide Inv, Trim, Utf8Length;
    if i == id && db.messages[id].status.Streaming? { StreamingAnswerCommits(db, id, content, citations); }
  }

  lemma InterruptFollowsRow(db: Db, t: TurnId, reason: Text, id: MessageId)
    requires Inv(db) && id in db.messages
    ensures var e := Interrupt(t, reason);
            id in Step(db, e).messages && Step(db, e).messages[id] == NextRow(id, db.messages[id], e)
  {
    if db.messages[id].turn == Some(t) && db.messages[id].status.Streaming? {
      StreamingAnswerStops(db, id, [], reason);
    } else if AnswerInterrupted(db, t, reason).Ok? {
      assert TurnOk(db, t);
    }
  }

  lemma StepFollowsRow(db: Db, e: Event, id: MessageId)
    requires Inv(db) && id in db.messages
    ensures id in Step(db, e).messages && Step(db, e).messages[id] == NextRow(id, db.messages[id], e)
  {
    if e.CommitAnswer? {
      CommitFollowsRow(db, e.id, e.content, e.citations, id);
    } else if e.Interrupt? {
      InterruptFollowsRow(db, e.turn, e.reason, id);
    } else {
      hide Inv, Trim, AnswerCommitted, AnswerInterrupted, RecoveredTurn;
    }
  }

  /** Over every run a row is what the calls that name it or its turn, and the restarts, make of it,
      whatever happens to the other rows, the turns and the sessions. */
  lemma {:induction false} RowFollowsItsCalls(db: Db, events: seq<Event>, id: MessageId)
    requires Inv(db) && id in db.messages
    ensures id in Run(db, events).messages
    ensures Run(db, events).messages[id] == LaterRow(id, db.messages[id], events)
    decreases |events|
  {
    hide Inv, Step, NextRow;
    if events != [] {
      StepKeepsInv(db, events[0]);
      StepFollowsRow(db, events[0], id);
      RowFollowsItsCalls(Step(db, events[0]), events[1..], id);
    }
  }

  predicate Writes(e: Event, id: MessageId) {
    (e.Checkpoint? || e.CommitAnswer?) && e.id == id
  }

  lemma {:induction false} UnwrittenRowKeepsText(id: MessageId, m: Message, events: seq<Event>)
    requires forall e :: e in events ==> !Writes(e, id)
    ensures LaterRow(id, m, events).content == m.content && LaterRow(id, m, events).citations == m.citations
    decreases |events|
  {
    if events != [] {
      assert !Writes(events[0], id);
      UnwrittenRowKeepsText(id, NextRow(id, m, events[0]), events[1..]);
    }
  }

  lemma CheckpointStands(begun: Db, id: MessageId, before: seq<Event>, text: Text, after: seq<Event>)
    requires Inv(begun) && id in begun.messages && begun.messages[id].role.Assistant?
    requires forall e :: e in after ==> !Writes(e, id)
    ensures var there := Run(begun, before);
            var last := Run(Step(there, Checkpoint(id, text)), after);
            && id in there.messages && id in last.messages
            && ((forall e :: e in before ==> !Writes(e, id)) ==>
                  there.messages[id].content == begun.messages[id].content)
            && last.messages[id].content == if there.messages[id].status.Streaming? && |text| <= 120_000
                                            then text else there.messages[id].content
  {
    hide Inv, Step, Run, Writes, LaterRow;
    var there := Run(begun, before);
    RowFollowsItsCalls(begun, before, id);
    if forall e :: e in before ==> !Writes(e, id) { UnwrittenRowKeepsText(id, begun.messages[id], before); }
    RunKeepsInv(begun, before);
    RunPreserves(begun, before);
    var e := Checkpoint(id, text);
    StepKeepsInv(there, e);
    StepFollowsRow(there, e, id);
    RowFollowsItsCalls(Step(there, e), after, id);
    UnwrittenRowKeepsText(id, Step(there, e).messages[id], after);
  }

  /** The text of an answer is empty when it opens and what its last accepted checkpoint wrote after that,
      through restarts, interruptions and everything else that does not write to it. */
  lemma LastCheckpointStands(db: Db, a: Answer, before: seq<Event>, text: Text, after: seq<Event>)
    requires Inv(db) && AnswerStarted(db, a).Ok? && a.message !in db.messages
    requires forall e :: e in after ==> !Writes(e, a.message)
    ensures var id := a.message;
            var begun := Step(db, StartAnswer(a));
            var there := Run(begun, before);
            var last := Run(Step(there, Checkpoint(id, text)), after);
            && id in begun.messages && id in there.messages && id in last.messages
            && ((forall e :: e in before ==> !Writes(e, id)) ==> there.messages[id].content == [])
            && last.messages[id].content == if there.messages[id].status.Streaming? && |text| <= 120_000
                                            then text else there.messages[id].content
  {
    var begun := Step(db, StartAnswer(a));
    assert begun.messages[a.message].role.Assistant? && begun.messages[a.message].content == [];
    StepKeepsInv(db, StartAnswer(a));
    hide Inv, Step, AnswerStarted;
    CheckpointStands(begun, a.message, before, text, after);
  }

  // ----- What the calls write -----

  /** A new user message is taken exactly under these conditions, and is then the next message of its session,
      with a turn of its own that waits. */
  lemma UserTurnLandsIff(db: Db, u: UserTurn)
    requires u.message !in db.messages
    ensures UserTurnCommitted(db, u).Ok? <==>
              && 0 < |Trim(u.content)| <= 6_000
              && u.topic in db.topics && db.topics[u.topic] == u.session
              && u.session in db.sessions
              && (db.sessions[u.session].status == Active || db.sessions[u.session].status == Idle)
              && u.turn !in db.turns && (u.retryOf.Some? ==> u.retryOf.value in db.turns)
    ensures UserTurnCommitted(db, u).Ok? ==>
              var next := UserTurnCommitted(db, u).value.db;
              var k := db.sessions[u.session].latest + 1;
              && next == Step(db, CommitUserTurn(u))
              && UserTurnCommitted(db, u).value.ack == Ack(NewCommit, u.session, u.message, u.turn, k)
              && next.sessions == db.sessions[u.session := Session(Active, k)] && next.topics == db.topics
              && next.turns == db.turns[u.turn :=
                   Turn(u.session, u.topic, u.message, None, u.retryOf, TurnAccepted, None)]
              && next.messages == db.messages[u.message :=
                   Message(u.session, Some(u.turn), u.topic, k, User, Committed, Trim(u.content), None)]
  {
    hide Trim;
  }

  /** An answer opens exactly for a turn that waits in a live session; the turn then has this answer. */
  lemma AnswerOpensIff(db: Db, a: Answer)
    requires a.message !in db.messages
    ensures AnswerStarted(db, a).Ok? <==>
              && a.turn in db.turns && db.turns[a.turn].session == a.session && db.turns[a.turn].topic == a.topic
              && (db.turns[a.turn].status == TurnAccepted || db.turns[a.turn].status == TurnPlanning)
              && a.session in db.sessions
              && (db.sessions[a.session].status == Active || db.sessions[a.session].status == Idle)
    ensures AnswerStarted(db, a).Ok? ==>
              var next := AnswerStarted(db, a).value.db;
              var k := db.sessions[a.session].latest + 1;
              && next == Step(db, StartAnswer(a))
              && AnswerStarted(db, a).value.ack == Ack(NewStart, a.session, a.message, a.turn, k)
              && next.sessions == db.sessions[a.session := Session(Active, k)] && next.topics == db.topics
              && next.turns.Keys == db.turns.Keys
              && next.turns[a.turn] == db.turns[a.turn].(status := TurnAnswering, output := Some(a.message))
              && next.messages == db.messages[a.message :=
                   Message(a.session, Some(a.turn), a.topic, k, Assistant, Streaming, [], None)]
  {
  }

  /** Calls other than these two leave the place of a turn and what it asked alone, and settle it in one way
      only: a committed answer clears the error, a stop records its reason and a restart keeps the older one. */
  function NextTurn(t: TurnId, turn: Turn, e: Event): Turn
    requires !e.StartAnswer?
  {
    match e
    case CommitAnswer(id, content, citations) =>
      if turn.output == Some(id) && turn.status.TurnAnswering? && 0 < |Trim(content)| <= 120_000
         && (citations.Some? ==> Utf8Length(citations.value) <= 65_536)
      then turn.(status := TurnCommitted, error := None) else turn
    case Interrupt(i, reason) =>
      if i == t && turn.status.TurnAnswering? then turn.(status := TurnInterrupted, error := Some(reason)) else turn
    case Restart(reason) =>
      if turn.status == TurnAccepted || turn.status == TurnPlanning || turn.status == TurnAnswering
      then turn.(status := TurnInterrupted, error := if turn.error.Some? then turn.error else Some(reason)) else turn
    case _ => turn
  }

  lemma CommitFollowsTurn(db: Db, id: MessageId, content: Text, citations: Option<Text>, t: TurnId)
    requires Inv(db) && t in db.turns
    ensures var e := CommitAnswer(id, content, citations);
            t in Step(db, e).turns && Step(db, e).turns[t] == NextTurn(t, db.turns[t], e)
  {
    hide Trim, Utf8Length, Sequenced;
    assert TurnOk(db, t);
    if id in db.messages {
      assert MessageOk(db, id);
      hide Inv, MessagesOk, TurnsOk, MessageOk, TurnOk;
    }
  }

  lemma InterruptFollowsTurn(db: Db, i: TurnId, reason: Text, t: TurnId)
    requires Inv(db) && t in db.turns
    ensures var e := Interrupt(i, reason);
            t in Step(db, e).turns && Step(db, e).turns[t] == NextTurn(t, db.turns[t], e)
  {
    assert TurnOk(db, t);
    hide Inv;
  }

  lemma StepFollowsTurn(db: Db, e: Event, t: TurnId)
    requires Inv(db) && t in db.turns && !e.StartAnswer?
    ensures t in Step(db, e).turns && Step(db, e).turns[t] == NextTurn(t, db.turns[t], e)
  {
    if e.CommitAnswer? {
      CommitFollowsTurn(db, e.id, e.content, e.citations, t);
    } else if e.Interrupt? {
      InterruptFollowsTurn(db, e.turn, e.reason, t);
    } else {
      hide Inv, Trim, AnswerCommitted, AnswerInterrupted, RecoveredMessage;
    }
  }

  lemma EmptyStoreIsSound()
    ensures Inv(Db(map[], map[], map[], map[]))
  {
  }

  // ----- The transactions, statement by statement -----

  class TurnStore {
    var sessions: map<SessionId, Session>
    var topics: map<TopicId, SessionId>
    var turns: map<TurnId, Turn>
    var messages: map<MessageId, Message>

    ghost function Contents(): Db
      reads this
    {
      Db(sessions, topics, turns, messages)
    }

    constructor ()
      ensures Contents() == Db(map[], map[], map[], map[]) && Inv(Contents())
    {
      sessions, topics, turns, messages := map[], map[], map[], map[];
      new;
      EmptyStoreIsSound();
    }

    /** UPDATE sessions ... RETURNING latest_sequence; None when no live row matched. */
    method NextSequence(s: SessionId) returns (k: Option<nat>)
      modifies this`sessions
      ensures s in old(sessions) && old(sessions[s]).Live() ==>
                k == Some(old(sessions[s]).latest + 1) && sessions == old(sessions)[s := Session(Active, k.value)]
      ensures !(s in old(sessions) && old(sessions[s]).Live()) ==> k == None && sessions == old(sessions)
    {
      if s !in sessions || !sessions[s].Live() { return None; }
      sessions := sessions[s := Session(Active, sessions[s].latest + 1)];
      k := Some(sessions[s].latest);
    }

    method CommitUserTurn(u: UserTurn) returns (r: Result<Ack, Error>)
      modifies this`sessions, this`turns, this`messages
      ensures match UserTurnCommitted(old(Contents()), u)
              case Ok(reply) => r == Ok(reply.ack) && Contents() == reply.db
              case Err(error) => r == Err(error) && Contents() == old(Contents())
    {
      hide TrimStart, TrimEnd;
      var content := Trim(u.content);
      if content == [] || |content| > MAX_USER_UNITS { return Err(Invalid); }
      if u.message in messages {
        var existing := messages[u.message];
        if existing.session != u.session || existing.topic != u.topic || !existing.role.User?
           || !existing.status.Committed? || existing.content != content || existing.turn.None? {
          return Err(Conflict);
        }
        return Ok(Ack(Duplicate, existing.session, u.message, existing.turn.value, existing.sequence));
      }
      if u.topic !in topics || topics[u.topic] != u.session { return Err(Unavailable); }
      var saved := sessions;
      var k := NextSequence(u.session);
      if k.None? { return Err(Unavailable); }
      if u.turn in turns || (u.retryOf.Some? && u.retryOf.value !in turns) {
        sessions := saved;
        return Err(Constraint);
      }
      turns := turns[u.turn := Turn(u.session, u.topic, u.message, None, u.retryOf, TurnAccepted, None)];
      messages := messages[u.message :=
        Message(u.session, Some(u.turn), u.topic, k.value, User, Committed, content, None)];
      r := Ok(Ack(NewCommit, u.session, u.message, u.turn, k.value));
    }

    method StartAssistantAnswer(a: Answer) returns (r: Result<Ack, Error>)
      modifies this`sessions, this`turns, this`messages
      ensures match AnswerStarted(old(Contents()), a)
              case Ok(reply) => r == Ok(reply.ack) && Contents() == reply.db
              case Err(error) => r == Err(error) && Contents() == old(Contents())
    {
      if a.message in messages {
        var existing := messages[a.message];
        if existing.session != a.session || existing.topic != a.topic || existing.turn != Some(a.turn)
           || !existing.role.Assistant? || !existing.status.Streaming? { return Err(Conflict); }
        return Ok(Ack(Duplicate, existing.session, a.message, a.turn, existing.sequence));
      }
      if a.turn !in turns || turns[a.turn].session != a.session || turns[a.turn].topic != a.topic
         || !turns[a.turn].Waiting() { return Err(Unavailable); }
      var k := NextSequence(a.session);
      if k.None? { return Err(Unavailable); }
      messages := messages[a.message :=
        Message(a.session, Some(a.turn), a.topic, k.value, Assistant, Streaming, [], None)];
      turns := turns[a.turn := turns[a.turn].(status := TurnAnswering, output := Some(a.message))];
      r := Ok(Ack(NewStart, a.session, a.message, a.turn, k.value));
    }

    method CheckpointAssistantAnswer(id: MessageId, content: Text) returns (r: Result<(), Error>)
      modifies this`messages
      ensures match Checkpointed(old(Contents()), id, content)
              case Ok(next) => r == Ok(()) && Contents() == next
              case Err(error) => r == Err(error) && Contents() == old(Contents())
    {
      if |content| > MAX_ANSWER_UNITS { return Err(Invalid); }
      if id !in messages || !messages[id].role.Assistant? || !messages[id].status.Streaming? {
        return Err(NotStreaming);
      }
      messages := messages[id := messages[id].(content := content)];
      r := Ok(());
    }

    method CommitAssistantAnswer(id: MessageId, content: Text, citations: Option<Text>) returns (r: Result<Ack, Error>)
      modifies this`turns, this`messages
      ensures match AnswerCommitted(old(Contents()), id, content, citations)
              case Ok(reply) => r == Ok(reply.ack) && Contents() == reply.db
              case Err(error) => r == Err(error) && Contents() == old(Contents())
    {
      hide TrimStart, TrimEnd, Utf8Length;
      var text := Trim(content);
      if text == [] || |text| > MAX_ANSWER_UNITS { return Err(Invalid); }
      if citations.Some? && Utf8Length(citations.value) > MAX_CITATION_BYTES { return Err(Invalid); }
      if id !in messages || !messages[id].role.Assistant? || messages[id].turn.None? { return Err(Unavailable); }
      var m := messages[id];
      if m.status.Committed? {
        if m.content != text || m.citations != citations { return Err(Conflict); }
        return Ok(Ack(Duplicate, m.session, id, m.turn.value, m.sequence));
      }
      if !m.status.Streaming? { return Err(NotWritable); }
      var saved := messages;
      messages := messages[id := m.(status := Committed, content := text, citations := citations)];
      var t := m.turn.value;
      if t !in turns || turns[t].output != Some(id) || !turns[t].status.TurnAnswering? {
        messages := saved;
        return Err(Constraint);
      }
      turns := turns[t := turns[t].(status := TurnCommitted, error := None)];
      r := Ok(Ack(NewCommit, m.session, id, t, m.sequence));
    }

    method InterruptAssistantAnswer(t: TurnId, reason: Text) returns (r: Result<Ack, Error>)
      modifies this`turns, this`messages
      ensures match AnswerInterrupted(old(Contents()), t, reason)
              case Ok(reply) => r == Ok(reply.ack) && Contents() == reply.db
              case Err(error) => r == Err(error) && Contents() == old(Contents())
    {
      if t !in turns || turns[t].output.None? || turns[t].output.value !in messages { return Err(Unavailable); }
      var id := turns[t].output.value;
      var m := messages[id];
      if turns[t].status.TurnInterrupted? && m.status.Interrupted? {
        return Ok(Ack(Duplicate, turns[t].session, id, t, m.sequence));
      }
      if !turns[t].status.TurnAnswering? || !m.status.Streaming? { return Err(NotWritable); }
      messages := messages[id := m.(status := Interrupted)];
      turns := turns[t := turns[t].(status := TurnInterrupted, error := Some(reason))];
      r := Ok(Ack(NewInterrupt, turns[t].session, id, t, m.sequence));
    }

    method RecoverInterrupted(reason: Text)
      modifies this`sessions, this`turns, this`messages
      ensures Contents() == Recovered(old(Contents()), reason)
    {
      messages := map m | m in messages :: RecoveredMessage(messages[m]);
      turns := map t | t in turns :: RecoveredTurn(turns[t], reason);
      sessions := map s | s in sessions ::
        if sessions[s].status.Active? then sessions[s].(status := Idle) else sessions[s];
    }
  }
}
