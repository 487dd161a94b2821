/** The full-text history index: an external-content table that seven triggers keep equal
    to a filtered view of messages and sessions. */
module HistoryIndex {
  import opened Texts
  import opened Wrappers

  // ----- Who owns a session: the SQL predicate and the access policy -----

  predicate Alphanumeric(c: char) {
    'a' <= c <= 'z' || 'A' <= c <= 'Z' || '0' <= c <= '9'
  }

  predicate ScopeChar(c: char) {
    Alphanumeric(c) || c == ':' || c == '_' || c == '-'
  }

  function Lower(c: char): char {
    if 'A' <= c <= 'Z' then c - 'A' + 'a' else c
  }

  predicate LowerEquals(s: string, t: string) {
    |s| == |t| && forall i :: 0 <= i < |s| ==> Lower(s[i]) == t[i]
  }

  /** SQLite length(text): characters before the first NUL. */
  function SqlLength(s: string): nat {
    if s == [] || s[0] == '\0' then 0 else 1 + SqlLength(s[1..])
  }

  function ByteLength(s: string): nat {
    if s == [] then 0 else CodeOctets(s[0] as int) + ByteLength(s[1..])
  }

  predicate SqlOwner(scope: string) {
    && 1 <= SqlLength(scope) <= 128
    && ByteLength(scope) == SqlLength(scope)
    && scope != [] && Alphanumeric(scope[0])
    && (forall i :: 0 <= i < |scope| ==> ScopeChar(scope[i]))
    && !LowerEquals(scope[..Min(6, |scope|)], "guest:")
  }

  predicate IsSpace(c: char) {
    IsSpaceCode(c as int)
  }

  /** The pattern: spaces, "guest" in any case, spaces, a colon. */
  ghost predicate GuestAt(s: string, i: int, j: int) {
    && 0 <= i && i + 5 <= j < |s|
    && (forall k :: 0 <= k < i ==> IsSpace(s[k])) && LowerEquals(s[i..i + 5], "guest")
    && (forall k :: i + 5 <= k < j ==> IsSpace(s[k])) && s[j] == ':'
  }

  ghost predicate GuestLike(s: string) {
    exists i, j :: GuestAt(s, i, j)
  }

  ghost predicate PolicyOwner(scope: string) {
    && 0 < |scope| <= 128
    && !IsSpace(scope[0]) && !IsSpace(scope[|scope| - 1])
    && !GuestLike(scope)
    && Alphanumeric(scope[0]) && forall i :: 0 <= i < |scope| ==> ScopeChar(scope[i])
  }

  lemma {:induction false} AsciiLengths(s: string)
    requires forall i :: 0 <= i < |s| ==> ScopeChar(s[i])
    ensures SqlLength(s) == |s| == ByteLength(s)
  {
    if s != [] { AsciiLengths(s[1..]); }
  }

  lemma GuestAtStart(s: string, i: int, j: int)
    requires GuestAt(s, i, j)
    requires forall k :: 0 <= k < |s| ==> !IsSpace(s[k])
    ensures i == 0 && j == 5
  {
    hide IsSpace, LowerEquals;
    assert !IsSpace(s[0]) && !IsSpace(s[i + 5]);
  }

  lemma ScopeCharIsNoSpace(c: char)
    requires ScopeChar(c)
    ensures !IsSpace(c)
  {
  }

  /** Without spaces in the text, the pattern is the plain prefix. */
  lemma GuestPrefix(s: string)
    requires forall i :: 0 <= i < |s| ==> ScopeChar(s[i])
    ensures GuestLike(s) <==> |s| >= 6 && LowerEquals(s[..6], "guest:")
  {
    hide IsSpace;
    forall i | 0 <= i < |s| ensures !IsSpace(s[i]) { ScopeCharIsNoSpace(s[i]); }
    if GuestLike(s) {
      var i, j :| GuestAt(s, i, j);
      GuestAtStart(s, i, j);
      assert s[..6][..5] == s[0..5] && s[..6] == s[..6][..5] + [s[5]];
      assert "guest:" == "guest" + [':'] && Lower(':') == ':';
    }
    if |s| >= 6 && LowerEquals(s[..6], "guest:") {
      assert "guest:"[..5] == "guest" && s[..6][..5] == s[0..5];
      assert Lower(s[..6][5]) == ':';
      assert GuestAt(s, 0, 5);
    }
  }

  lemma ShortIsNotGuest(s: string)
    requires |s| < 6
    ensures !LowerEquals(s[..Min(6, |s|)], "guest:")
  {
  }

  /** The SQL text of the view and the access policy admit the same scopes. */
  lemma OwnerPredicatesAgree(scope: string)
    ensures SqlOwner(scope) <==> PolicyOwner(scope)
  {
    if scope != [] && forall i :: 0 <= i < |scope| ==> ScopeChar(scope[i]) {
      AsciiLengths(scope);
      GuestPrefix(scope);
      ScopeCharIsNoSpace(scope[0]);
      ScopeCharIsNoSpace(scope[|scope| - 1]);
      hide LowerEquals, GuestLike, IsSpace;
      assert |"guest:"| == 6;
      if |scope| < 6 { ShortIsNotGuest(scope); }
    }
  }

  /** The letters and digits that may start a scope, by their codes, and what else it may hold. */
  lemma ScopeCharsAre(c: char)
    ensures Alphanumeric(c) <==> 48 <= c as int <= 57 || 65 <= c as int <= 90 || 97 <= c as int <= 122
    ensures ScopeChar(c) <==> Alphanumeric(c) || c in ":_-"
  {
  }

  /** The word that marks a guest, in any mixture of cases. */
  lemma GuestInAnyCase(s: string)
    ensures LowerEquals(s, "guest") <==>
              |s| == 5 && s[0] in "gG" && s[1] in "uU" && s[2] in "eE" && s[3] in "sS" && s[4] in "tT"
  {
  }

  // ----- Tables, the filtered view and the index -----

  type SessionId = nat
  type RowId = nat

  datatype Status = Committed | Streaming | Interrupted | Failed
  datatype Role = User | Assistant | System

  datatype Message = Message(session: SessionId, turn: Option<nat>, status: Status, role: Role, content: string)

  predicate Shown(sessions: map<SessionId, string>, m: Message) {
    && m.session in sessions && SqlOwner(sessions[m.session])
    && m.status == Committed && (m.role == User || m.role == Assistant)
  }

  function View(sessions: map<SessionId, string>, messages: map<RowId, Message>): map<RowId, string> {
    map r | r in messages && Shown(sessions, messages[r]) :: messages[r].content
  }

  function ViewOf(sessions: map<SessionId, string>, messages: map<RowId, Message>, session: SessionId)
    : map<RowId, string>
  {
    map r | r in messages && messages[r].session == session && Shown(sessions, messages[r]) :: messages[r].content
  }

  /** What is indexed: the committed questions and answers of the owner's sessions, and nothing else. */
  lemma IndexedIff(sessions: map<SessionId, string>, messages: map<RowId, Message>, row: RowId)
    ensures row in View(sessions, messages) <==>
              && row in messages && messages[row].session in sessions && PolicyOwner(sessions[messages[row].session])
              && messages[row].status == Committed && messages[row].role != System
    ensures row in View(sessions, messages) ==> View(sessions, messages)[row] == messages[row].content
  {
    if row in messages && messages[row].session in sessions {
      OwnerPredicatesAgree(sessions[messages[row].session]);
    }
    hide SqlOwner, PolicyOwner;
  }

  lemma ViewWithoutSession(sessions: map<SessionId, string>, messages: map<RowId, Message>, session: SessionId)
    requires session in sessions
    ensures View(sessions - {session}, messages) == View(sessions, messages) - ViewOf(sessions, messages, session).Keys
  {
  }

  lemma ViewWithScope(sessions: map<SessionId, string>, messages: map<RowId, Message>, session: SessionId,
                      scope: string)
    requires session in sessions
    ensures var after := sessions[session := scope];
            && View(after, messages) - ViewOf(after, messages, session).Keys
                 == View(sessions, messages) - ViewOf(sessions, messages, session).Keys
            && View(after, messages) == (View(sessions, messages) - ViewOf(sessions, messages, session).Keys)
                 + ViewOf(after, messages, session)
  {
    hide SqlOwner;
  }

  /** One row visited by the cascade of a deleted session. */
  datatype CascadeStep = Clear(row: RowId) | Drop(row: RowId)

  /** Rows are visited while they exist, and exactly the session's rows are dropped, once each. */
  predicate IsCascade(messages: map<RowId, Message>, session: SessionId, steps: seq<CascadeStep>) {
    && (forall k :: 0 <= k < |steps| ==> steps[k].row in messages && Drop(steps[k].row) !in steps[..k])
    && (forall k :: 0 <= k < |steps| && steps[k].Drop? ==> messages[steps[k].row].session == session)
    && (forall r :: r in messages && messages[r].session == session ==> Drop(r) in steps)
  }

  function Visited(messages: map<RowId, Message>, step: CascadeStep): map<RowId, Message>
    requires step.row in messages
  {
    match step
    case Clear(r) => messages[r := messages[r].(turn := None)]
    case Drop(r) => messages - {r}
  }

  function After(m: Message, row: RowId, steps: seq<CascadeStep>): Message {
    if Clear(row) in steps then m.(turn := None) else m
  }

  ghost predicate Reached(before: map<RowId, Message>, messages: map<RowId, Message>, steps: seq<CascadeStep>) {
    && (forall r :: r in messages <==> r in before && Drop(r) !in steps)
    && (forall r :: r in messages ==> messages[r] == After(before[r], r, steps))
  }

  lemma VisitReaches(before: map<RowId, Message>, messages: map<RowId, Message>, steps: seq<CascadeStep>,
                     step: CascadeStep)
    requires Reached(before, messages, steps) && step.row in messages
    ensures Reached(before, Visited(messages, step), steps + [step])
  {
    forall s ensures s in steps + [step] <==> s in steps || s == step {}
  }

  /** `fts` holds the (rowid, content) pairs that are indexed. `corrupt` records a delete
      command that names a pair which is not indexed, or a second insert of one rowid. */
  class Index {
    var sessions: map<SessionId, string>
    var messages: map<RowId, Message>
    var fts: map<RowId, string>
    var corrupt: bool

    ghost predicate Valid()
      reads this
    {
      fts == View(sessions, messages) && !corrupt
    }

    /** Installation over existing tables fills the index from the view. */
    constructor (sessions: map<SessionId, string>, messages: map<RowId, Message>)
      ensures Valid() && this.sessions == sessions && this.messages == messages
    {
      this.sessions, this.messages := sessions, messages;
      fts, corrupt := View(sessions, messages), false;
    }

    method IndexInsert(row: RowId, content: string)
      modifies this`fts, this`corrupt
      ensures fts == old(fts)[row := content]
      ensures corrupt == (old(corrupt) || row in old(fts))
    {
      corrupt := corrupt || row in fts;
      fts := fts[row := content];
    }

    method IndexDelete(row: RowId, content: string)
      modifies this`fts, this`corrupt
      ensures fts == old(fts) - {row}
      ensures corrupt == (old(corrupt) || row !in old(fts) || old(fts)[row] != content)
    {
      corrupt := corrupt || row !in fts || fts[row] != content;
      fts := fts - {row};
    }

    /** INSERT ... SELECT 'delete' over the rows of one session. */
    method DeleteAll(rows: map<RowId, string>)
      requires forall r :: r in rows ==> r in fts && fts[r] == rows[r]
      modifies this`fts, this`corrupt
      ensures fts == old(fts) - rows.Keys && corrupt == old(corrupt)
    {
      var todo := rows.Keys;
      while todo != {}
        invariant todo <= rows.Keys && corrupt == old(corrupt)
        invariant fts == old(fts) - (rows.Keys - todo)
        decreases todo
      {
        var r :| r in todo;
        IndexDelete(r, rows[r]);
        todo := todo - {r};
      }
    }

    method InsertAll(rows: map<RowId, string>)
      requires rows.Keys !! fts.Keys
      modifies this`fts, this`corrupt
      ensures fts == old(fts) + rows && corrupt == old(corrupt)
    {
      var todo := rows.Keys;
      while todo != {}
        invariant todo <= rows.Keys && corrupt == old(corrupt)
        invariant fts.Keys == old(fts).Keys + (rows.Keys - todo)
        invariant forall r :: r in fts ==> fts[r] == if r in rows then rows[r] else old(fts)[r]
        decreases todo
      {
        var r :| r in todo;
        IndexInsert(r, rows[r]);
        todo := todo - {r};
      }
    }

    method InsertMessage(row: RowId, m: Message)
      requires Valid() && row !in messages
      modifies this
      ensures Valid() && messages == old(messages)[row := m] && sessions == old(sessions)
    {
      hide SqlOwner;
      messages := messages[row := m];
      if Shown(sessions, m) { IndexInsert(row, m.content); }
    }

    method DeleteMessage(row: RowId)
      requires Valid() && row in messages
      modifies this
      ensures Valid() && messages == old(messages) - {row} && sessions == old(sessions)
    {
      hide SqlOwner;
      if Shown(sessions, messages[row]) { IndexDelete(row, messages[row].content); }
      messages := messages - {row};
    }

    /** Any update of a message row: new content or status, a cleared turn, a moved session. */
    method UpdateMessage(row: RowId, m: Message)
      requires Valid() && row in messages
      modifies this
      ensures Valid() && messages == old(messages)[row := m] && sessions == old(sessions)
    {
      hide SqlOwner;
      if Shown(sessions, messages[row]) { IndexDelete(row, messages[row].content); }
      messages := messages[row := m];
      if Shown(sessions, m) { IndexInsert(row, m.content); }
    }

    method UpdateScope(session: SessionId, scope: string)
      requires Valid() && session in sessions
      modifies this
      ensures Valid() && sessions == old(sessions)[session := scope] && messages == old(messages)
    {
      hide SqlOwner;
      ViewWithScope(sessions, messages, session, scope);
      DeleteAll(ViewOf(sessions, messages, session));
      sessions := sessions[session := scope];
      InsertAll(ViewOf(sessions, messages, session));
    }

    method Visit(step: CascadeStep)
      requires Valid() && step.row in messages
      modifies this
      ensures Valid() && messages == Visited(old(messages), step) && sessions == old(sessions)
    {
      match step
      case Clear(r) => UpdateMessage(r, messages[r].(turn := None));
      case Drop(r) => DeleteMessage(r);
    }

    /** The parent row goes first. The cascade then clears turn references, of this session's rows
        and of others, and deletes the child rows, in whatever order it visits them; the row
        triggers fire with no parent to join. */
    method DeleteSession(session: SessionId, steps: seq<CascadeStep>)
      requires Valid() && session in sessions && IsCascade(messages, session, steps)
      modifies this
      ensures Valid() && sessions == old(sessions) - {session}
      ensures messages.Keys == set r | r in old(messages) && old(messages)[r].session != session
      ensures forall r :: r in messages ==>
                messages[r] == if Clear(r) in steps then old(messages)[r].(turn := None) else old(messages)[r]
    {
      hide SqlOwner;
      ViewWithoutSession(sessions, messages, session);
      DeleteAll(ViewOf(sessions, messages, session));
      sessions := sessions - {session};
      assert Valid();
      hide Valid;
      ghost var before := messages;
      assert steps[..|steps|] == steps;
      for k := 0 to |steps|
        invariant Valid() && sessions == old(sessions) - {session}
        invariant Reached(before, messages, steps[..k])
      {
        hide After;
        assert steps[..k + 1] == steps[..k] + [steps[k]];
        VisitReaches(before, messages, steps[..k], steps[k]);
        hide Reached, Visited;
        Visit(steps[k]);
      }
      assert forall r :: r in before && before[r].session == session ==> Drop(r) in steps;
      assert forall r :: r in before && before[r].session != session ==> Drop(r) !in steps;
    }
  }
}
