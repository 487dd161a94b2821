/** Rotating device credentials: active and pending generations, a hard overlap
    deadline, and settlement that is performed lazily by every later call. */
module DeviceCredentials {
  import opened Wrappers

  type Id = nat
  type Client = nat

  const MAX_CREDENTIAL_MS := 366 * 24 * 60 * 60000
  const MAX_ROTATION_WINDOW_MS := 10 * 60000

  datatype State = Active | Pending | Revoked

  /** One row. The stored hash is represented by the secret it is the hash of. */
  datatype Credential = Credential(
    client: Client, secret: nat, state: State, predecessor: Option<Id>,
    created: nat, expires: nat, deadline: nat,
    persisted: Option<nat>, revoked: Option<nat>)

  /** `issued` holds every id ever generated, so that a deleted id is not reused. */
  datatype Table = Table(rows: map<Id, Credential>, clients: set<Client>, issued: set<Id>)

  datatype Grant = Grant(id: Id, secret: nat, deadline: nat)

  predicate ValidTimes(at: int, expires: int, deadline: int) {
    && 0 <= at < expires <= at + MAX_CREDENTIAL_MS
    && at < deadline <= at + MAX_ROTATION_WINDOW_MS
    && deadline <= expires
  }

  // ----- Settlement, stated row by row -----

  predicate Due(c: Credential, at: nat) {
    c.state == Pending && c.revoked == None && c.deadline <= at < c.expires
  }

  predicate Later(rows: map<Id, Credential>, i: Id, j: Id)
    requires i in rows && j in rows
  {
    rows[i].created > rows[j].created || (rows[i].created == rows[j].created && i > j)
  }

  ghost predicate HasDue(rows: map<Id, Credential>, at: nat, client: Client) {
    exists i :: i in rows && rows[i].client == client && Due(rows[i], at)
  }

  /** The newest due generation of its client. */
  ghost predicate Wins(rows: map<Id, Credential>, at: nat, i: Id) {
    && i in rows && Due(rows[i], at)
    && forall j :: j in rows && j != i && rows[j].client == rows[i].client && Due(rows[j], at) ==> Later(rows, i, j)
  }

  /** Exactly the rows that are still usable after settlement at `at`. */
  ghost predicate Keeps(rows: map<Id, Credential>, at: nat, i: Id) {
    && i in rows && rows[i].revoked == None && at < rows[i].expires
    && (HasDue(rows, at, rows[i].client) ==> Wins(rows, at, i))
  }

  ghost function SettledRow(rows: map<Id, Credential>, at: nat, i: Id): Credential
    requires i in rows
  {
    var c := rows[i].(predecessor := if rows[i].predecessor.Some? && !Keeps(rows, at, rows[i].predecessor.value)
                                     then None else rows[i].predecessor);
    if Wins(rows, at, i) then c.(state := Active, persisted := Some(c.persisted.Or(at))) else c
  }

  ghost function Settled(rows: map<Id, Credential>, at: nat): map<Id, Credential> {
    map i | i in rows && Keeps(rows, at, i) :: SettledRow(rows, at, i)
  }

  function Promoted(rows: map<Id, Credential>, id: Id, at: nat): map<Id, Credential>
    requires id in rows
  {
    map i | i in rows ::
      if i == id then rows[i].(state := Active, persisted := Some(rows[i].persisted.Or(at)))
      else if rows[i].client == rows[id].client && rows[i].revoked == None
        then rows[i].(state := Revoked, revoked := Some(at))
      else rows[i]
  }

  predicate Successor(c: Credential, client: Client, id: Id) {
    c.client == client && c.predecessor == Some(id) && c.state == Pending && c.revoked == None
  }

  ghost function HardDeadline(rows: map<Id, Credential>, client: Client, id: Id, requested: nat): int {
    var found := set i | i in rows && Successor(rows[i], client, id) :: rows[i].deadline as int;
    Least({requested as int} + found, requested)
  }

  function WithoutSuccessors(rows: map<Id, Credential>, client: Client, id: Id, at: nat): map<Id, Credential> {
    map i | i in rows ::
      if Successor(rows[i], client, id) then rows[i].(state := Revoked, revoked := Some(at)) else rows[i]
  }

  /** Presenting a pending secret proves that the client stored it. */
  function Presented(rows: map<Id, Credential>, id: Id, at: nat): map<Id, Credential>
    requires id in rows
  {
    if rows[id].state == Pending then Promoted(rows, id, at) else rows
  }

  /** The presented generation stays, its earlier successors go, and a new one is added. */
  function Replaced(t: Table, client: Client, id: Id, at: nat, newId: Id, row: Credential): Table
    requires id in t.rows
  {
    Table(WithoutSuccessors(Presented(t.rows, id, at), client, id, at)[newId := row], t.clients, t.issued + {newId})
  }

  predicate Presentable(rows: map<Id, Credential>, client: Client, id: Id, secret: nat, at: nat) {
    && id in rows && rows[id].client == client && rows[id].revoked == None
    && at < rows[id].expires && rows[id].state != Revoked && rows[id].secret == secret
  }

  // ----- The operations on the table; None is a thrown error, which rolls back -----

  predicate NotOlder(a: Credential, b: Credential) {
    a.persisted.Or(0) > b.persisted.Or(0) || (a.persisted.Or(0) == b.persisted.Or(0) && a.created >= b.created)
  }

  lemma {:induction false} NewestActiveExists(rows: map<Id, Credential>, ids: set<Id>)
    requires ids != {} && ids <= rows.Keys
    ensures exists i :: i in ids && forall j :: j in ids ==> NotOlder(rows[i], rows[j])
    decreases ids
  {
    var y :| y in ids;
    var rest := ids - {y};
    assert forall j :: j in ids ==> j == y || j in rest;
    if rest != {} {
      NewestActiveExists(rows, rest);
      var r :| r in rest && forall j :: j in rest ==> NotOlder(rows[r], rows[j]);
      var i := if NotOlder(rows[r], rows[y]) then r else y;
      assert i in ids && forall j :: j in ids ==> NotOlder(rows[i], rows[j]);
    } else {
      assert forall j :: j in ids ==> NotOlder(rows[y], rows[j]);
    }
  }

  ghost function NewestActive(rows: map<Id, Credential>, ids: set<Id>): (i: Id)
    requires ids != {} && ids <= rows.Keys
    ensures i in ids && forall j :: j in ids ==> NotOlder(rows[i], rows[j])
  {
    NewestActiveExists(rows, ids);
    var i :| i in ids && forall j :: j in ids ==> NotOlder(rows[i], rows[j]);
    i
  }

  predicate ActiveRow(c: Credential, client: Client, at: nat) {
    c.client == client && c.state == Active && c.revoked == None && at < c.expires
  }

  ghost function Issued(t: Table, client: Client, id: Id, secret: nat, at: nat, expires: nat, deadline: nat)
    : Option<Table>
  {
    var rows := Settled(t.rows, at);
    if !ValidTimes(at, expires, deadline) || client !in t.clients then None
    else
      var active := set i | i in rows && ActiveRow(rows[i], client, at);
      var predecessor := if active == {} then None else Some(NewestActive(rows, active));
      Some(Table(rows[id := Credential(client, secret, Pending, predecessor, at, expires, deadline, None, None)],
                 t.clients, t.issued + {id}))
  }

  ghost function Rotated(t: Table, client: Client, id: Id, secret: nat, newId: Id, newSecret: nat,
                         at: nat, expires: nat, deadline: nat): Option<(Table, Grant)>
  {
    var settled := Settled(t.rows, at);
    if !ValidTimes(at, expires, deadline) || !Presentable(settled, client, id, secret, at) then None
    else
      var hard := HardDeadline(Presented(settled, id, at), client, id, deadline);
      if hard <= at then None
      else
        var row := Credential(client, newSecret, Pending, Some(id), at, expires, hard, None, None);
        Some((Replaced(t.(rows := settled), client, id, at, newId, row), Grant(newId, newSecret, hard)))
  }

  ghost function Acknowledged(t: Table, client: Client, id: Id, at: nat): Option<Table> {
    var rows := Settled(t.rows, at);
    if id !in rows || rows[id].client != client || rows[id].revoked != None || rows[id].expires <= at then None
    else if rows[id].state == Active && rows[id].persisted != None then Some(t.(rows := rows))
    else if rows[id].state != Pending || rows[id].deadline < at then None
    else Some(t.(rows := Promoted(rows, id, at)))
  }

  function RevokedAll(t: Table, client: Client, at: nat): Table {
    t.(rows := map i | i in t.rows ::
      if t.rows[i].client == client && t.rows[i].revoked == None
      then t.rows[i].(state := Revoked, revoked := Some(at)) else t.rows[i])
  }

  // ----- Structure kept by every operation -----

  ghost predicate Live(rows: map<Id, Credential>, i: Id) {
    i in rows && rows[i].revoked == None
  }

  ghost predicate RowOk(rows: map<Id, Credential>, i: Id)
    requires i in rows
  {
    && (rows[i].state == Revoked <==> rows[i].revoked != None)
    && (rows[i].state == Active ==> rows[i].persisted != None)
    && (rows[i].predecessor.Some? ==> rows[i].predecessor.value in rows)
  }

  /** Any two live rows of one client: at most one is active, and a pending one points at it. */
  ghost predicate PairOk(rows: map<Id, Credential>, i: Id, j: Id)
    requires i in rows && j in rows
  {
    Live(rows, i) && Live(rows, j) && i != j && rows[i].client == rows[j].client && rows[i].state == Active ==>
      rows[j].state == Pending && rows[j].predecessor == Some(i)
  }

  /** A live pending row points at the live active row of its client or at nothing. */
  ghost predicate PendingOk(rows: map<Id, Credential>, i: Id)
    requires i in rows
  {
    Live(rows, i) && rows[i].state == Pending && rows[i].predecessor.Some? ==>
      var p := rows[i].predecessor.value;
      p != i && Live(rows, p) && rows[p].client == rows[i].client && rows[p].state == Active
  }

  ghost predicate Inv(t: Table) {
    && t.rows.Keys <= t.issued
    && (forall i :: i in t.rows ==> RowOk(t.rows, i))
    && (forall i :: i in t.rows ==> PendingOk(t.rows, i))
    && (forall i, j :: i in t.rows && j in t.rows ==> PairOk(t.rows, i, j))
  }

  lemma SettledKeepsInv(t: Table, at: nat)
    requires Inv(t)
    ensures Inv(t.(rows := Settled(t.rows, at)))
  {
    var rows := Settled(t.rows, at);
    forall i | i in rows
      ensures RowOk(rows, i) && PendingOk(rows, i)
    {
      assert RowOk(t.rows, i) && PendingOk(t.rows, i);
      if rows[i].predecessor.Some? {
        var p := t.rows[i].predecessor.value;
        assert RowOk(t.rows, p);
        assert p in rows;
      }
    }
    forall i, j | i in rows && j in rows
      ensures PairOk(rows, i, j)
    {
      assert PairOk(t.rows, i, j) && PairOk(t.rows, j, i);
    }
  }

  lemma PromotedKeepsInv(t: Table, id: Id, at: nat)
    requires Inv(t) && Live(t.rows, id)
    ensures Inv(t.(rows := Promoted(t.rows, id, at)))
  {
    var rows := Promoted(t.rows, id, at);
    forall i | i in rows
      ensures RowOk(rows, i) && PendingOk(rows, i)
    {
      assert RowOk(t.rows, i) && PendingOk(t.rows, i);
    }
    forall i, j | i in rows && j in rows
      ensures PairOk(rows, i, j)
    {
      assert PairOk(t.rows, i, j);
    }
  }

  lemma InsertKeepsInv(t: Table, id: Id, c: Credential)
    requires Inv(t) && id !in t.issued
    requires c.state == Pending && c.revoked == None
    requires forall j :: Live(t.rows, j) && t.rows[j].client == c.client && t.rows[j].state == Active
               ==> c.predecessor == Some(j)
    requires c.predecessor.Some? ==>
               (var p := c.predecessor.value;
                Live(t.rows, p) && t.rows[p].client == c.client && t.rows[p].state == Active)
    ensures Inv(Table(t.rows[id := c], t.clients, t.issued + {id}))
  {
  }

  lemma WithoutSuccessorsKeepsInv(t: Table, client: Client, id: Id, at: nat)
    requires Inv(t)
    ensures Inv(t.(rows := WithoutSuccessors(t.rows, client, id, at)))
  {
    var rows := WithoutSuccessors(t.rows, client, id, at);
    forall i | i in rows
      ensures RowOk(rows, i) && PendingOk(rows, i)
    {
      assert RowOk(t.rows, i) && PendingOk(t.rows, i);
    }
    forall i, j | i in rows && j in rows
      ensures PairOk(rows, i, j)
    {
      assert PairOk(t.rows, i, j);
    }
  }

  // ----- Runs -----

  datatype Event =
    | Register(client: Client)
    | Issue(client: Client, id: Id, secret: nat, deadline: nat)
    | Rotate(client: Client, presented: Id, presentedSecret: nat, id: Id, secret: nat, deadline: nat)
    | Ack(client: Client, id: Id)
    | Revoke(client: Client)

  /** One call at time `at`; new credentials live for `ttl`. A failed call changes nothing. */
  ghost function Step(t: Table, ttl: nat, at: nat, e: Event): Table {
    match e
    case Register(c) => t.(clients := t.clients + {c})
    case Issue(c, id, s, d) =>
      var r := Issued(t, c, id, s, at, at + ttl, d); if r.Some? then r.value else t
    case Rotate(c, p, ps, id, s, d) =>
      var r := Rotated(t, c, p, ps, id, s, at, at + ttl, d); if r.Some? then r.value.0 else t
    case Ack(c, id) =>
      var r := Acknowledged(t, c, id, at); if r.Some? then r.value else t
    case Revoke(c) => RevokedAll(t, c, at)
  }

  predicate FreshFor(e: Event, issued: set<Id>) {
    (e.Issue? ==> e.id !in issued) && (e.Rotate? ==> e.id !in issued)
  }

  /** A call made at `at`; a credential it creates lives for `ttl`, chosen anew by every call. */
  datatype Call = Call(at: nat, ttl: nat, event: Event)

  type Log = seq<Call>

  /** Clock times never go back from `now`, and generated ids are new. */
  ghost predicate ValidLog(t: Table, now: nat, log: Log)
    decreases |log|
  {
    log == [] || (now <= log[0].at && FreshFor(log[0].event, t.issued)
                  && ValidLog(Step(t, log[0].ttl, log[0].at, log[0].event), log[0].at, log[1..]))
  }

  ghost function Run(t: Table, log: Log): Table
    decreases |log|
  {
    if log == [] then t else Run(Step(t, log[0].ttl, log[0].at, log[0].event), log[1..])
  }

  function LastTime(now: nat, log: Log): nat {
    if log == [] then now else log[|log| - 1].at
  }

  lemma IssueKeepsInv(t: Table, client: Client, id: Id, secret: nat, at: nat, expires: nat, deadline: nat)
    requires Inv(t) && id !in t.issued
    requires Issued(t, client, id, secret, at, expires, deadline).Some?
    ensures Inv(Issued(t, client, id, secret, at, expires, deadline).value)
  {
    SettledKeepsInv(t, at);
    var s := t.(rows := Settled(t.rows, at));
    var row := Issued(t, client, id, secret, at, expires, deadline).value.rows[id];
    var active := set i | i in s.rows && ActiveRow(s.rows[i], client, at);
    forall j | Live(s.rows, j) && s.rows[j].client == client && s.rows[j].state == Active
      ensures row.predecessor == Some(j)
    {
      assert j in active;
      assert PairOk(s.rows, j, NewestActive(s.rows, active));
    }
    InsertKeepsInv(s, id, row);
  }

  lemma RotateKeepsInv(t: Table, client: Client, id: Id, secret: nat, newId: Id, newSecret: nat,
                       at: nat, expires: nat, deadline: nat)
    requires Inv(t) && newId !in t.issued
    requires Rotated(t, client, id, secret, newId, newSecret, at, expires, deadline).Some?
    ensures Inv(Rotated(t, client, id, secret, newId, newSecret, at, expires, deadline).value.0)
  {
    SettledKeepsInv(t, at);
    var s := t.(rows := Settled(t.rows, at));
    if s.rows[id].state == Pending { PromotedKeepsInv(s, id, at); }
    var u := s.(rows := if s.rows[id].state == Pending then Promoted(s.rows, id, at) else s.rows);
    WithoutSuccessorsKeepsInv(u, client, id, at);
    var v := u.(rows := WithoutSuccessors(u.rows, client, id, at));
    forall j | Live(v.rows, j) && v.rows[j].client == client && v.rows[j].state == Active
      ensures j == id
    {
      assert PairOk(v.rows, id, j);
    }
    var u' := Rotated(t, client, id, secret, newId, newSecret, at, expires, deadline).value.0;
    InsertKeepsInv(v, newId, u'.rows[newId]);
  }

  lemma RevokeKeepsInv(t: Table, client: Client, at: nat)
    requires Inv(t)
    ensures Inv(RevokedAll(t, client, at))
  {
    var rows := RevokedAll(t, client, at).rows;
    forall i | i in rows ensures RowOk(rows, i) && PendingOk(rows, i) {
      assert RowOk(t.rows, i) && PendingOk(t.rows, i);
    }
    forall i, j | i in rows && j in rows ensures PairOk(rows, i, j) { assert PairOk(t.rows, i, j); }
  }

  lemma RegisterKeepsInv(t: Table, client: Client)
    requires Inv(t)
    ensures Inv(t.(clients := t.clients + {client}))
  {
  }

  lemma AckKeepsInv(t: Table, client: Client, id: Id, at: nat)
    requires Inv(t) && Acknowledged(t, client, id, at).Some?
    ensures Inv(Acknowledged(t, client, id, at).value)
  {
    SettledKeepsInv(t, at);
    hide Inv, Settled, Promoted;
    var s := t.(rows := Settled(t.rows, at));
    if s.rows[id].state == Pending { PromotedKeepsInv(s, id, at); }
  }

  lemma StepKeepsInv(t: Table, ttl: nat, at: nat, e: Event)
    requires Inv(t) && FreshFor(e, t.issued)
    ensures Inv(Step(t, ttl, at, e))
  {
    hide Inv, Issued, Rotated, Acknowledged, RevokedAll;
    match e
    case Register(c) => RegisterKeepsInv(t, c);
    case Issue(c, id, secret, d) =>
      if Issued(t, c, id, secret, at, at + ttl, d).Some? {
        IssueKeepsInv(t, c, id, secret, at, at + ttl, d);
      }
    case Rotate(c, p, ps, id, secret, d) =>
      if Rotated(t, c, p, ps, id, secret, at, at + ttl, d).Some? {
        RotateKeepsInv(t, c, p, ps, id, secret, at, at + ttl, d);
      }
    case Ack(c, id) =>
      if Acknowledged(t, c, id, at).Some? { AckKeepsInv(t, c, id, at); }
    case Revoke(c) => RevokeKeepsInv(t, c, at);
  }

  /** Every reachable state, whatever lifetimes the calls ask for: one live active row per
      client, and live pending rows point at it. */
  lemma {:induction false} RunKeepsInv(t: Table, now: nat, log: Log)
    requires Inv(t) && ValidLog(t, now, log)
    ensures Inv(Run(t, log))
    decreases |log|
  {
    if log != [] {
      StepKeepsInv(t, log[0].ttl, log[0].at, log[0].event);
      RunKeepsInv(Step(t, log[0].ttl, log[0].at, log[0].event), log[0].at, log[1..]);
    }
  }

  // ----- When a presented credential is accepted -----

  ghost predicate Accepts(t: Table, client: Client, id: Id, secret: nat, at: nat) {
    Rotated(t, client, id, secret, 0, 0, at, at + 1, at + 1).Some?
  }

  lemma HardDeadlineAfter(rows: map<Id, Credential>, client: Client, id: Id, requested: nat, at: nat)
    requires at < requested
    ensures at < HardDeadline(rows, client, id, requested)
       <==> forall i :: i in rows && Successor(rows[i], client, id) ==> at < rows[i].deadline
  {
    var found := set i | i in rows && Successor(rows[i], client, id) :: rows[i].deadline as int;
    var h := HardDeadline(rows, client, id, requested);
    forall i | i in rows && Successor(rows[i], client, id) ensures h <= rows[i].deadline {
      assert rows[i].deadline as int in found;
    }
    assert h in {requested as int} + found;
  }

  /** Acceptance does not depend on the generated row or on the times asked for. */
  lemma AcceptsIsRotate(t: Table, client: Client, id: Id, secret: nat, newId: Id, newSecret: nat,
                        at: nat, expires: nat, deadline: nat)
    requires ValidTimes(at, expires, deadline)
    ensures Rotated(t, client, id, secret, newId, newSecret, at, expires, deadline).Some?
       <==> Accepts(t, client, id, secret, at)
  {
  }

  /** An active credential is refused for exactly three reasons: wrong holder, its own
      expiry, or a pending generation of its client that has passed its deadline. */
  lemma ActiveAcceptedIff(t: Table, client: Client, a: Id, secret: nat, at: nat)
    requires Inv(t) && Live(t.rows, a) && t.rows[a].state == Active
    ensures Accepts(t, client, a, secret, at) <==>
              t.rows[a].client == client && t.rows[a].secret == secret
              && at < t.rows[a].expires && !HasDue(t.rows, at, client)
  {
  }

  // ----- Bounded overlap -----

  /** A replayed rotation can only shorten the overlap that is already running. */
  lemma HardDeadlineNeverLater(rows: map<Id, Credential>, client: Client, id: Id, requested: nat)
    ensures 0 <= HardDeadline(rows, client, id, requested) <= requested
    ensures forall i :: i in rows && Successor(rows[i], client, id) ==>
              HardDeadline(rows, client, id, requested) <= rows[i].deadline
  {
    var found := set i | i in rows && Successor(rows[i], client, id) :: rows[i].deadline as int;
    var h := HardDeadline(rows, client, id, requested);
    assert IsLeast(h, {requested as int} + found);
    forall i | i in rows && Successor(rows[i], client, id) ensures h <= rows[i].deadline {
      assert rows[i].deadline as int in found;
    }
  }

  /** With one lifetime and a clock that never goes back, newer rows never expire first. */
  ghost predicate Paced(rows: map<Id, Credential>, horizon: nat) {
    && (forall i :: i in rows ==> rows[i].expires <= horizon)
    && (forall i :: Live(rows, i) && rows[i].state == Pending && rows[i].predecessor.Some?
          && rows[i].predecessor.value in rows
          ==> rows[rows[i].predecessor.value].expires <= rows[i].expires)
  }

  lemma SettledKeepsPaced(t: Table, at: nat, horizon: nat)
    requires Inv(t) && Paced(t.rows, horizon)
    ensures Paced(Settled(t.rows, at), horizon)
  {
  }

  lemma PromotedKeepsPaced(rows: map<Id, Credential>, id: Id, at: nat, horizon: nat)
    requires id in rows && Paced(rows, horizon)
    ensures Paced(Promoted(rows, id, at), horizon)
  {
  }

  lemma InsertKeepsPaced(rows: map<Id, Credential>, id: Id, c: Credential)
    requires Paced(rows, c.expires) && id !in rows && (c.predecessor.Some? ==> c.predecessor.value in rows)
    requires forall i :: i in rows ==> rows[i].predecessor != Some(id)
    ensures Paced(rows[id := c], c.expires)
  {
  }

  lemma ReplacedKeepsPaced(s: Table, client: Client, p: Id, at: nat, newId: Id, row: Credential)
    requires Paced(s.rows, row.expires) && p in s.rows && newId !in s.rows && row.predecessor == Some(p)
    requires forall i :: i in s.rows ==> s.rows[i].predecessor != Some(newId)
    ensures Paced(Replaced(s, client, p, at, newId, row).rows, row.expires)
  {
  }

  lemma NewIdUnreferenced(t: Table, at: nat, id: Id)
    requires Inv(t) && id !in t.issued
    ensures var s := Settled(t.rows, at); id !in s && forall i :: i in s ==> s[i].predecessor != Some(id)
  {
  }

  lemma RotateKeepsPaced(t: Table, ttl: nat, at: nat, e: Event)
    requires e.Rotate? && Inv(t) && Paced(t.rows, at + ttl) && FreshFor(e, t.issued)
    ensures Paced(Step(t, ttl, at, e).rows, at + ttl)
  {
    SettledKeepsPaced(t, at, at + ttl);
    NewIdUnreferenced(t, at, e.id);
    if Rotated(t, e.client, e.presented, e.presentedSecret, e.id, e.secret, at, at + ttl, e.deadline).Some? {
      var s := t.(rows := Settled(t.rows, at));
      ReplacedKeepsPaced(s, e.client, e.presented, at, e.id, Step(t, ttl, at, e).rows[e.id]);
    }
  }

  lemma StepKeepsPaced(t: Table, ttl: nat, now: nat, at: nat, e: Event)
    requires Inv(t) && Paced(t.rows, now + ttl) && now <= at && FreshFor(e, t.issued)
    ensures Paced(Step(t, ttl, at, e).rows, at + ttl)
  {
    var s := Settled(t.rows, at);
    SettledKeepsPaced(t, at, at + ttl);
    SettledKeepsInv(t, at);
    forall i | i in s ensures RowOk(s, i) {}
    match e
    case Register(c) =>
    case Issue(c, id, secret, d) =>
      if Issued(t, c, id, secret, at, at + ttl, d).Some? {
        InsertKeepsPaced(s, id, Step(t, ttl, at, e).rows[id]);
      }
    case Rotate(c, p, ps, id, secret, d) =>
      RotateKeepsPaced(t, ttl, at, e);
    case Ack(c, id) =>
      if id in s { PromotedKeepsPaced(s, id, at, at + ttl); }
    case Revoke(c) =>
  }

  /** `a` is gone for good, or still active and at every instant from `limit` on until it
      expires some generation of its client is due, so that settlement revokes it. */
  ghost predicate Covered(t: Table, a: Id, limit: nat, until: nat) {
    && a in t.issued
    && (Live(t.rows, a) ==>
          && t.rows[a].state == Active && t.rows[a].expires <= until
          && forall at: nat :: limit <= at < t.rows[a].expires ==> HasDue(t.rows, at, t.rows[a].client))
  }

  /** Calls before `limit` create credentials that live until `until` at least. */
  predicate Lasting(log: Log, limit: nat, until: nat) {
    forall k :: 0 <= k < |log| && log[k].at < limit ==> until <= log[k].at + log[k].ttl
  }

  predicate Uniform(log: Log, ttl: nat) {
    forall k :: 0 <= k < |log| ==> log[k].ttl == ttl
  }

  ghost predicate Refused(t: Table, id: Id, at: nat) {
    forall client, secret :: !Accepts(t, client, id, secret, at)
  }

  lemma CoveredIsRefused(t: Table, a: Id, limit: nat, until: nat, at: nat)
    requires Inv(t) && Covered(t, a, limit, until) && limit <= at
    ensures Refused(t, a, at)
  {
    if Live(t.rows, a) {
      forall client, secret ensures !Accepts(t, client, a, secret, at) {
        ActiveAcceptedIff(t, client, a, secret, at);
      }
    }
  }

  lemma SettledKeepsCovered(t: Table, a: Id, limit: nat, until: nat, at: nat)
    requires Covered(t, a, limit, until)
    ensures Covered(t.(rows := Settled(t.rows, at)), a, Max(limit, at), until)
    ensures limit <= at ==> !Live(Settled(t.rows, at), a)
  {
    var s := Settled(t.rows, at);
    if Live(s, a) {
      assert !Due(t.rows[a], at) && !HasDue(t.rows, at, t.rows[a].client);
      forall instant: nat | Max(limit, at) <= instant < s[a].expires ensures HasDue(s, instant, s[a].client) {
        assert HasDue(t.rows, instant, t.rows[a].client);
        var i :| i in t.rows && t.rows[i].client == t.rows[a].client && Due(t.rows[i], instant);
        assert i in s && Due(s[i], instant);
      }
    }
  }

  /** Rows of the client of `a` that are due stay due. */
  lemma SameDueKeepsCovered(t: Table, u: Table, a: Id, limit: nat, until: nat)
    requires Covered(t, a, limit, until) && t.issued <= u.issued
    requires Live(u.rows, a) ==> Live(t.rows, a) && u.rows[a] == t.rows[a]
    requires Live(u.rows, a) ==>
               forall i :: Live(t.rows, i) && t.rows[i].client == t.rows[a].client && t.rows[i].state == Pending
                 ==> i in u.rows && u.rows[i] == t.rows[i]
    ensures Covered(u, a, limit, until)
  {
    if Live(u.rows, a) {
      forall at: nat | limit <= at < u.rows[a].expires ensures HasDue(u.rows, at, u.rows[a].client) {
        assert HasDue(t.rows, at, t.rows[a].client);
        var i :| i in t.rows && t.rows[i].client == t.rows[a].client && Due(t.rows[i], at);
        assert Live(t.rows, i) && u.rows[i] == t.rows[i];
      }
    }
  }

  /** The new successor is due whenever one that it replaces was. */
  lemma SuccessorKeepsCovered(s: Table, a: Id, at: nat, newId: Id, row: Credential, limit: nat, until: nat)
    requires Inv(s) && Covered(s, a, limit, until) && Live(s.rows, a) && newId !in s.issued
    requires Successor(row, s.rows[a].client, a)
    requires s.rows[a].expires <= row.expires || s.rows[a].expires <= limit
    requires forall i :: i in s.rows && Successor(s.rows[i], s.rows[a].client, a) ==> row.deadline <= s.rows[i].deadline
    ensures Covered(Replaced(s, s.rows[a].client, a, at, newId, row), a, limit, until)
  {
    var u := Replaced(s, s.rows[a].client, a, at, newId, row);
    forall instant: nat | limit <= instant < s.rows[a].expires ensures HasDue(u.rows, instant, s.rows[a].client) {
      assert HasDue(s.rows, instant, s.rows[a].client);
      var i :| i in s.rows && s.rows[i].client == s.rows[a].client && Due(s.rows[i], instant);
      assert PairOk(s.rows, a, i) && Successor(s.rows[i], s.rows[a].client, a);
      assert Due(u.rows[newId], instant);
    }
  }

  lemma ReplacedElsewhereKeepsCovered(s: Table, client: Client, p: Id, at: nat, newId: Id, row: Credential,
                                      a: Id, limit: nat, until: nat)
    requires Inv(s) && Covered(s, a, limit, until) && newId !in s.issued && p != a
    requires Live(s.rows, p) && s.rows[p].client == client && Live(s.rows, a)
    ensures Covered(Replaced(s, client, p, at, newId, row), a, limit, until)
  {
    var u := Replaced(s, client, p, at, newId, row);
    assert PairOk(s.rows, a, p);
    if s.rows[a].client == client {
      assert !Live(u.rows, a);
    } else {
      SameDueKeepsCovered(s, u, a, limit, until);
    }
  }

  lemma RotateKeepsCovered(t: Table, ttl: nat, at: nat, e: Event, a: Id, limit: nat, until: nat)
    requires e.Rotate? && FreshFor(e, t.issued) && Inv(t) && Covered(t, a, limit, until)
    requires limit <= at || until <= at + ttl || until <= limit
    ensures Covered(Step(t, ttl, at, e), a, Max(limit, at), until)
  {
    SettledKeepsCovered(t, a, limit, until, at);
    SettledKeepsInv(t, at);
    var u, s := Step(t, ttl, at, e), t.(rows := Settled(t.rows, at));
    if Rotated(t, e.client, e.presented, e.presentedSecret, e.id, e.secret, at, at + ttl, e.deadline).Some?
       && Live(s.rows, a) {
      HardDeadlineNeverLater(Presented(s.rows, e.presented, at), e.client, e.presented, e.deadline);
      if e.presented == a {
        SuccessorKeepsCovered(s, a, at, e.id, u.rows[e.id], Max(limit, at), until);
      } else {
        ReplacedElsewhereKeepsCovered(s, e.client, e.presented, at, e.id, u.rows[e.id], a, Max(limit, at), until);
      }
    }
  }

  lemma AckKeepsCovered(t: Table, ttl: nat, at: nat, e: Event, a: Id, limit: nat, until: nat)
    requires e.Ack? && Inv(t) && Covered(t, a, limit, until)
    ensures Covered(Step(t, ttl, at, e), a, Max(limit, at), until)
  {
    SettledKeepsCovered(t, a, limit, until, at);
    SettledKeepsInv(t, at);
    var u, s := Step(t, ttl, at, e), t.(rows := Settled(t.rows, at));
    if Acknowledged(t, e.client, e.id, at).Some? && Live(u.rows, a) {
      assert RowOk(s.rows, a);
      SameDueKeepsCovered(s, u, a, Max(limit, at), until);
    }
  }

  lemma LaterKeepsCovered(t: Table, a: Id, limit: nat, later: nat, until: nat)
    requires Covered(t, a, limit, until) && limit <= later
    ensures Covered(t, a, later, until)
  {
  }

  lemma StepKeepsCovered(t: Table, ttl: nat, at: nat, e: Event, a: Id, limit: nat, until: nat)
    requires Inv(t) && FreshFor(e, t.issued) && Covered(t, a, limit, until)
    requires limit <= at || until <= at + ttl || until <= limit
    ensures Covered(Step(t, ttl, at, e), a, Max(limit, at), until)
  {
    hide Covered, Rotated, Acknowledged;
    match e
    case Register(c) =>
      LaterKeepsCovered(t, a, limit, Max(limit, at), until);
      SameDueKeepsCovered(t, Step(t, ttl, at, e), a, Max(limit, at), until);
    case Issue(c, id, secret, d) =>
      SettledKeepsCovered(t, a, limit, until, at);
      LaterKeepsCovered(t, a, limit, Max(limit, at), until);
      if Issued(t, c, id, secret, at, at + ttl, d).Some? {
        SameDueKeepsCovered(t.(rows := Settled(t.rows, at)), Step(t, ttl, at, e), a, Max(limit, at), until);
      }
    case Rotate(_, _, _, _, _, _) => RotateKeepsCovered(t, ttl, at, e, a, limit, until);
    case Ack(_, _) => AckKeepsCovered(t, ttl, at, e, a, limit, until);
    case Revoke(c) =>
      LaterKeepsCovered(t, a, limit, Max(limit, at), until);
      SameDueKeepsCovered(t, Step(t, ttl, at, e), a, Max(limit, at), until);
  }

  lemma {:induction false} AllAfter(t: Table, now: nat, log: Log)
    requires ValidLog(t, now, log)
    ensures now <= LastTime(now, log) && forall k :: 0 <= k < |log| ==> now <= log[k].at
    decreases |log|
  {
    if log != [] { AllAfter(Step(t, log[0].ttl, log[0].at, log[0].event), log[0].at, log[1..]); }
  }

  lemma LastingLater(log: Log, t: Table, now: nat, limit: nat, until: nat)
    requires ValidLog(t, now, log)
    ensures Lasting(log, limit, until) ==> Lasting(log, Max(limit, now), until)
    ensures Lasting(log, now, until) && now <= LastTime(now, log)
  {
    AllAfter(t, now, log);
  }

  lemma {:induction false} TimesOrdered(t: Table, now: nat, log: Log)
    requires ValidLog(t, now, log) && log != []
    ensures log[0].at <= LastTime(now, log)
    decreases |log|
  {
    if |log| > 1 { TimesOrdered(Step(t, log[0].ttl, log[0].at, log[0].event), log[0].at, log[1..]); }
  }

  lemma {:induction false} RunKeepsCovered(t: Table, now: nat, log: Log, a: Id, limit: nat, until: nat)
    requires Inv(t) && ValidLog(t, now, log) && Covered(t, a, limit, until)
    requires Lasting(log, limit, until) || until <= limit
    ensures Inv(Run(t, log)) && Covered(Run(t, log), a, Max(limit, LastTime(now, log)), until)
    decreases |log|
  {
    if log == [] {
      LaterKeepsCovered(t, a, limit, Max(limit, now), until);
    } else {
      var u := Step(t, log[0].ttl, log[0].at, log[0].event);
      assert until <= limit || (log[0].at < limit ==> until <= log[0].at + log[0].ttl);
      StepKeepsInv(t, log[0].ttl, log[0].at, log[0].event);
      StepKeepsCovered(t, log[0].ttl, log[0].at, log[0].event, a, limit, until);
      TimesOrdered(t, now, log);
      assert Lasting(log, limit, until) ==> Lasting(log[1..], limit, until);
      LastingLater(log[1..], u, log[0].at, limit, until);
      RunKeepsCovered(u, log[0].at, log[1..], a, Max(limit, log[0].at), until);
    }
  }

  /** `a` is refused from `limit` on after every run whose calls before `limit` ask for
      lifetimes reaching `until`. */
  ghost predicate AlwaysRefused(t: Table, now: nat, a: Id, limit: nat, until: nat) {
    forall log: Log, at: nat ::
      ValidLog(t, now, log) && Lasting(log, limit, until) && limit <= at && LastTime(now, log) <= at
      ==> Refused(Run(t, log), a, at)
  }

  /** Exactly when the overlap of active `a` is bounded by `limit`: over all runs whose calls
      before `limit` create nothing that expires before `a` does, it is refused from `limit` on
      if and only if the present table has a due generation at every instant in between. */
  lemma OverlapBoundedIff(t: Table, now: nat, a: Id, limit: nat)
    requires Inv(t) && Live(t.rows, a) && t.rows[a].state == Active
    ensures AlwaysRefused(t, now, a, limit, t.rows[a].expires)
       <==> Covered(t, a, Max(limit, now), t.rows[a].expires)
  {
    var c := t.rows[a];
    if Covered(t, a, Max(limit, now), c.expires) {
      forall log: Log, at: nat
        | ValidLog(t, now, log) && Lasting(log, limit, c.expires) && limit <= at && LastTime(now, log) <= at
        ensures Refused(Run(t, log), a, at)
      {
        LastingLater(log, t, now, limit, c.expires);
        RunKeepsCovered(t, now, log, a, Max(limit, now), c.expires);
        CoveredIsRefused(Run(t, log), a, Max(Max(limit, now), LastTime(now, log)), c.expires, at);
      }
    } else {
      var at: nat :| Max(limit, now) <= at < c.expires && !HasDue(t.rows, at, c.client);
      ActiveAcceptedIff(t, c.client, a, c.secret, at);
      assert Run(t, []) == t && LastTime(now, []) == now;
      assert !Refused(Run(t, []), a, at);
    }
  }

  ghost predicate OnlySuccessor(rows: map<Id, Credential>, a: Id, b: Id)
    requires a in rows
  {
    && b in rows && Successor(rows[b], rows[a].client, a)
    && forall j :: Live(rows, j) && rows[j].client == rows[a].client && rows[j].state == Pending ==> j == b
  }

  /** With a single pending generation the condition compares three times. */
  lemma OneSuccessorCoversIff(t: Table, a: Id, b: Id, limit: nat)
    requires Inv(t) && Live(t.rows, a) && t.rows[a].state == Active && OnlySuccessor(t.rows, a, b)
    requires t.rows[b].deadline <= limit
    ensures Covered(t, a, limit, t.rows[a].expires) <==> t.rows[a].expires <= Max(limit, t.rows[b].expires)
  {
    var end := Max(limit, t.rows[b].expires);
    if t.rows[a].expires <= end {
      forall at: nat | limit <= at < t.rows[a].expires ensures HasDue(t.rows, at, t.rows[a].client) {
        assert Due(t.rows[b], at);
      }
    } else {
      assert !HasDue(t.rows, end, t.rows[a].client);
    }
  }

  /** The overlap of `a` with its only successor `b` ends by the deadline of `b`, whatever is
      called with lifetimes that reach the expiry of `a`, exactly when `a` expires by that
      deadline, by now, or not after `b`. */
  lemma OverlapEndsAtDeadlineIff(t: Table, now: nat, a: Id, b: Id)
    requires Inv(t) && Live(t.rows, a) && t.rows[a].state == Active && OnlySuccessor(t.rows, a, b)
    ensures AlwaysRefused(t, now, a, t.rows[b].deadline, t.rows[a].expires)
       <==> t.rows[a].expires <= Max(Max(t.rows[b].deadline, now), t.rows[b].expires)
  {
    OverlapBoundedIff(t, now, a, t.rows[b].deadline);
    OneSuccessorCoversIff(t, a, b, Max(t.rows[b].deadline, now));
  }

  predicate Above(issued: set<Id>, id: Id) {
    forall i :: i in issued ==> i < id
  }

  lemma {:induction false} FreshIdExists(issued: set<Id>)
    ensures exists id: Id :: Above(issued, id)
    decreases issued
  {
    if i :| i in issued {
      FreshIdExists(issued - {i});
      var id: Id :| Above(issued - {i}, id);
      var above: Id := Max(id, i + 1);
      forall j | j in issued ensures j < above { assert j == i || j in issued - {i}; }
      assert Above(issued, above);
    } else {
      assert Above(issued, 0);
    }
  }

  /** A rotation that presents `a` and asks for the shortest lifetime replaces every generation
      that could end the overlap. */
  lemma ShortRotationEscapes(t: Table, a: Id, at: nat, id: Id, limit: nat)
    requires Inv(t) && Live(t.rows, a) && t.rows[a].state == Active && id !in t.issued
    requires at < limit < t.rows[a].expires && !HasDue(t.rows, at, t.rows[a].client)
    ensures var e := Rotate(t.rows[a].client, a, t.rows[a].secret, id, 0, at + 1);
            Accepts(Step(t, 1, at, e), t.rows[a].client, a, t.rows[a].secret, limit)
  {
    var c := t.rows[a];
    var e := Rotate(c.client, a, c.secret, id, 0, at + 1);
    ActiveAcceptedIff(t, c.client, a, c.secret, at);
    AcceptsIsRotate(t, c.client, a, c.secret, id, 0, at, at + 1, at + 1);
    SettledKeepsInv(t, at);
    StepKeepsInv(t, 1, at, e);
    var u, s := Step(t, 1, at, e), t.(rows := Settled(t.rows, at));
    assert Live(s.rows, a) && s.rows[a].state == Active;
    assert u == Replaced(s, c.client, a, at, id, u.rows[id]);
    forall i | i in u.rows && u.rows[i].client == c.client ensures !Due(u.rows[i], limit) {
      if i != id { assert PairOk(s.rows, a, i); }
    }
    ActiveAcceptedIff(u, c.client, a, c.secret, limit);
  }

  lemma OneCall(t: Table, now: nat, call: Call)
    requires now <= call.at && FreshFor(call.event, t.issued)
    ensures ValidLog(t, now, [call]) && Run(t, [call]) == Step(t, call.ttl, call.at, call.event)
  {
    assert [call][1..] == [];
  }

  /** A run that breaks the bound, if `a` is accepted at some time before it expires. */
  lemma EscapeExists(t: Table, now: nat, a: Id, limit: nat, at: nat)
    requires Inv(t) && Live(t.rows, a) && t.rows[a].state == Active
    requires now <= at < t.rows[a].expires && limit < t.rows[a].expires && !HasDue(t.rows, at, t.rows[a].client)
    ensures !AlwaysRefused(t, now, a, limit, 0)
  {
    var c := t.rows[a];
    if limit <= at {
      ActiveAcceptedIff(t, c.client, a, c.secret, at);
      hide Accepts;
      assert Run(t, []) == t && LastTime(now, []) == now && ValidLog(t, now, []);
      assert Lasting([], limit, 0) && !Refused(Run(t, []), a, at);
    } else {
      FreshIdExists(t.issued);
      var id: Id :| Above(t.issued, id);
      assert id !in t.issued;
      ShortRotationEscapes(t, a, at, id, limit);
      hide Accepts;
      var call := Call(at, 1, Rotate(c.client, a, c.secret, id, 0, at + 1));
      OneCall(t, now, call);
      assert Lasting([call], limit, 0) && LastTime(now, [call]) == at;
      assert !Refused(Run(t, [call]), a, limit);
    }
  }

  /** Without any condition on the lifetimes of later calls, the overlap is bounded exactly when
      `a` has expired by then or is refused at every instant from now on. */
  lemma AnyLifetimesBoundedIff(t: Table, now: nat, a: Id, limit: nat)
    requires Inv(t) && Live(t.rows, a) && t.rows[a].state == Active
    ensures AlwaysRefused(t, now, a, limit, 0)
       <==> t.rows[a].expires <= limit || Covered(t, a, now, t.rows[a].expires)
  {
    var c := t.rows[a];
    if c.expires <= limit || Covered(t, a, now, c.expires) {
      var from := if c.expires <= limit then limit else now;
      assert Covered(t, a, from, c.expires);
      hide Covered;
      forall log: Log, at: nat | ValidLog(t, now, log) && limit <= at && LastTime(now, log) <= at
        ensures Refused(Run(t, log), a, at)
      {
        LastingLater(log, t, now, limit, c.expires);
        RunKeepsCovered(t, now, log, a, from, c.expires);
        CoveredIsRefused(Run(t, log), a, Max(from, LastTime(now, log)), c.expires, at);
      }
    } else {
      var at: nat :| now <= at < c.expires && !HasDue(t.rows, at, c.client);
      EscapeExists(t, now, a, limit, at);
    }
  }

  lemma FirstCall(t: Table, now: nat, call: Call, rest: Log)
    ensures Run(t, [call] + rest) == Run(Step(t, call.ttl, call.at, call.event), rest)
    ensures ValidLog(t, now, [call] + rest) <==>
              now <= call.at && FreshFor(call.event, t.issued)
              && ValidLog(Step(t, call.ttl, call.at, call.event), call.at, rest)
  {
    assert ([call] + rest)[1..] == rest;
  }

  lemma {:induction false} RunKeepsPaced(t: Table, ttl: nat, now: nat, log: Log)
    requires Inv(t) && Paced(t.rows, now + ttl) && ValidLog(t, now, log) && Uniform(log, ttl)
    ensures Inv(Run(t, log)) && Paced(Run(t, log).rows, LastTime(now, log) + ttl)
    decreases |log|
  {
    if log != [] {
      assert log[0].ttl == ttl;
      StepKeepsInv(t, ttl, log[0].at, log[0].event);
      StepKeepsPaced(t, ttl, now, log[0].at, log[0].event);
      RunKeepsPaced(Step(t, ttl, log[0].at, log[0].event), ttl, log[0].at, log[1..]);
    }
  }

  /** Where all calls ask for one lifetime, the condition always holds: once active `a` has a
      live successor with deadline D, no run lets `a` be accepted at or after D. */
  lemma BoundedOverlap(t: Table, ttl: nat, now: nat, log: Log, a: Id, successor: Id,
                       client: Client, secret: nat, at: nat)
    requires Inv(t) && Paced(t.rows, now + ttl) && ValidLog(t, now, log) && Uniform(log, ttl)
    requires Live(t.rows, a) && t.rows[a].state == Active
    requires successor in t.rows && Successor(t.rows[successor], t.rows[a].client, a)
    requires t.rows[successor].deadline <= at && LastTime(now, log) <= at
    ensures !Accepts(Run(t, log), client, a, secret, at)
  {
    var limit := t.rows[successor].deadline;
    forall instant: nat | limit <= instant < t.rows[a].expires
      ensures HasDue(t.rows, instant, t.rows[a].client)
    {
      assert Due(t.rows[successor], instant);
    }
    AllAfter(t, now, log);
    RunKeepsCovered(t, now, log, a, limit, now + ttl);
    CoveredIsRefused(Run(t, log), a, Max(limit, LastTime(now, log)), now + ttl, at);
  }

  function EmptyTable(): Table {
    Table(map[], {}, {})
  }

  /** A device is registered, stores a long-lived credential and rotates it for a short one. */
  function ShorterSuccessorRun(): Log {
    [Call(0, 1000, Register(0))] + ([Call(0, 1000, Issue(0, 0, 7, 5))] + ([Call(0, 1000, Ack(0, 0))]
      + [Call(1, 9, Rotate(0, 0, 7, 1, 8, 10))]))
  }

  function Stored(): Credential {
    Credential(0, 7, Active, None, 0, 1000, 5, Some(0), None)
  }

  lemma StoringRun(t: Table)
    requires t == Table(map[], {0}, {})
    ensures var u := Step(t, 1000, 0, Issue(0, 0, 7, 5));
            u.issued == {0} && Step(u, 1000, 0, Ack(0, 0)) == Table(map[0 := Stored()], {0}, {0})
  {
    var u := Step(t, 1000, 0, Issue(0, 0, 7, 5));
    assert Settled(t.rows, 0) == map[];
    var row := Stored().(state := Pending, persisted := None);
    assert u == Table(map[0 := row], {0}, {0});
    assert Settled(u.rows, 0) == u.rows;
    assert Promoted(u.rows, 0, 0) == map[0 := Stored()];
  }

  lemma ShortRotation(t: Table)
    requires t == Table(map[0 := Stored()], {0}, {0})
    ensures Step(t, 9, 1, Rotate(0, 0, 7, 1, 8, 10))
         == Table(map[0 := Stored(), 1 := Credential(0, 8, Pending, Some(0), 1, 10, 10, None, None)], {0}, {0, 1})
  {
    assert Settled(t.rows, 1) == t.rows;
    HardDeadlineNeverLater(t.rows, 0, 0, 10);
    HardDeadlineAfter(t.rows, 0, 0, 10, 9);
    assert WithoutSuccessors(t.rows, 0, 0, 1) == t.rows;
  }

  lemma ShorterSuccessor(t: Table)
    requires t == Table(map[0 := Stored(), 1 := Credential(0, 8, Pending, Some(0), 1, 10, 10, None, None)], {0}, {0, 1})
    ensures Inv(t) && Live(t.rows, 0) && t.rows[0].state == Active && OnlySuccessor(t.rows, 0, 1)
    ensures t.rows[1].deadline == 10 && Accepts(t, 0, 0, 7, 20)
  {
    assert Live(t.rows, 0) && !HasDue(t.rows, 20, 0);
    ActiveAcceptedIff(t, 0, 0, 7, 20);
  }

  /** The bound fails for a run from the empty table: the successor of a long-lived credential is
      asked for with a short lifetime, lapses unpresented at its deadline of 10, and the
      predecessor is accepted at 20. */
  lemma OverlapUnboundedForShorterSuccessor()
    ensures ValidLog(EmptyTable(), 0, ShorterSuccessorRun()) && LastTime(0, ShorterSuccessorRun()) == 1
    ensures var t := Run(EmptyTable(), ShorterSuccessorRun());
            && Live(t.rows, 0) && t.rows[0].state == Active && OnlySuccessor(t.rows, 0, 1)
            && t.rows[1].deadline == 10 && Accepts(t, 0, 0, 7, 20)
  {
    var registered := Step(EmptyTable(), 1000, 0, Register(0));
    assert registered == Table(map[], {0}, {});
    StoringRun(registered);
    var issued := Step(registered, 1000, 0, Issue(0, 0, 7, 5));
    var stored := Step(issued, 1000, 0, Ack(0, 0));
    ShortRotation(stored);
    ShorterSuccessor(Step(stored, 9, 1, Rotate(0, 0, 7, 1, 8, 10)));
    hide Step, Stored, Accepts, OnlySuccessor;
    var last := Call(1, 9, Rotate(0, 0, 7, 1, 8, 10));
    OneCall(stored, 0, last);
    FirstCall(issued, 0, Call(0, 1000, Ack(0, 0)), [last]);
    FirstCall(registered, 0, Call(0, 1000, Issue(0, 0, 7, 5)), [Call(0, 1000, Ack(0, 0))] + [last]);
    FirstCall(EmptyTable(), 0, Call(0, 1000, Register(0)),
              [Call(0, 1000, Issue(0, 0, 7, 5))] + ([Call(0, 1000, Ack(0, 0))] + [last]));
    hide Run, ValidLog;
  }

  // ----- No lockout -----

  /** `n` is usable and no other live generation of its client is pending. */
  ghost predicate Sole(t: Table, n: Id) {
    && Live(t.rows, n) && t.rows[n].state != Revoked
    && forall j :: Live(t.rows, j) && j != n && t.rows[j].client == t.rows[n].client ==> t.rows[j].state == Active
  }

  /** No issue, rotation or revocation for the client. */
  predicate Quiet(log: Log, client: Client) {
    forall k :: 0 <= k < |log| ==>
      (log[k].event.Issue? || log[k].event.Rotate? || log[k].event.Revoke?) ==> log[k].event.client != client
  }

  lemma SettledKeepsSole(t: Table, n: Id, at: nat)
    requires Inv(t) && Sole(t, n) && at < t.rows[n].expires
    ensures Sole(t.(rows := Settled(t.rows, at)), n)
    ensures Settled(t.rows, at)[n].(state := Active, persisted := None, predecessor := None)
         == t.rows[n].(state := Active, persisted := None, predecessor := None)
  {
  }

  /** `n` keeps its holder, secret and lifetime. */
  predicate SameCredential(rows: map<Id, Credential>, before: map<Id, Credential>, n: Id) {
    && n in rows && n in before && rows[n].client == before[n].client
    && rows[n].secret == before[n].secret && rows[n].expires == before[n].expires
  }

  lemma OtherClientKeepsSole(t: Table, u: Table, n: Id)
    requires Sole(t, n)
    requires forall j :: j in t.rows && t.rows[j].client == t.rows[n].client ==> j in u.rows && u.rows[j] == t.rows[j]
    requires forall j :: j in u.rows && u.rows[j].client == t.rows[n].client ==> j in t.rows && t.rows[j] == u.rows[j]
    ensures Sole(u, n) && SameCredential(u.rows, t.rows, n)
  {
  }

  lemma ReplacedElsewhereKeepsSole(s: Table, client: Client, p: Id, at: nat, newId: Id, row: Credential, n: Id)
    requires Sole(s, n) && p in s.rows && s.rows[p].client == client == row.client && client != s.rows[n].client
    requires newId !in s.rows
    ensures Sole(Replaced(s, client, p, at, newId, row), n)
    ensures SameCredential(Replaced(s, client, p, at, newId, row).rows, s.rows, n)
  {
  }

  lemma RotateElsewhereKeepsSole(t: Table, ttl: nat, at: nat, e: Event, n: Id)
    requires e.Rotate? && Inv(t) && Sole(t, n) && at < t.rows[n].expires && FreshFor(e, t.issued)
    requires e.client != t.rows[n].client
    ensures Sole(Step(t, ttl, at, e), n) && SameCredential(Step(t, ttl, at, e).rows, t.rows, n)
  {
    SettledKeepsSole(t, n, at);
    var s := t.(rows := Settled(t.rows, at));
    if Rotated(t, e.client, e.presented, e.presentedSecret, e.id, e.secret, at, at + ttl, e.deadline).Some? {
      ReplacedElsewhereKeepsSole(s, e.client, e.presented, at, e.id, Step(t, ttl, at, e).rows[e.id], n);
    }
  }

  lemma AckKeepsSole(t: Table, ttl: nat, at: nat, e: Event, n: Id)
    requires e.Ack? && Inv(t) && Sole(t, n) && at < t.rows[n].expires
    ensures Sole(Step(t, ttl, at, e), n) && SameCredential(Step(t, ttl, at, e).rows, t.rows, n)
  {
    SettledKeepsSole(t, n, at);
    SettledKeepsInv(t, at);
    var s := t.(rows := Settled(t.rows, at));
    if e.id in s.rows {
      assert RowOk(s.rows, e.id);
      if s.rows[e.id].client != s.rows[n].client && Acknowledged(t, e.client, e.id, at).Some? {
        OtherClientKeepsSole(s, s.(rows := Promoted(s.rows, e.id, at)), n);
      }
    }
  }

  lemma StepKeepsSole(t: Table, ttl: nat, at: nat, e: Event, n: Id)
    requires Inv(t) && Sole(t, n) && at < t.rows[n].expires && FreshFor(e, t.issued)
    requires (e.Issue? || e.Rotate? || e.Revoke?) ==> e.client != t.rows[n].client
    ensures Sole(Step(t, ttl, at, e), n) && SameCredential(Step(t, ttl, at, e).rows, t.rows, n)
  {
    SettledKeepsSole(t, n, at);
    var s := t.(rows := Settled(t.rows, at));
    match e
    case Register(c) => OtherClientKeepsSole(t, Step(t, ttl, at, e), n);
    case Issue(c, id, secret, d) =>
      if Issued(t, c, id, secret, at, at + ttl, d).Some? { OtherClientKeepsSole(s, Step(t, ttl, at, e), n); }
    case Rotate(_, _, _, _, _, _) => RotateElsewhereKeepsSole(t, ttl, at, e, n);
    case Ack(_, _) => AckKeepsSole(t, ttl, at, e, n);
    case Revoke(c) => OtherClientKeepsSole(t, Step(t, ttl, at, e), n);
  }

  lemma {:induction false} RunKeepsSole(t: Table, now: nat, log: Log, n: Id)
    requires Inv(t) && Sole(t, n) && ValidLog(t, now, log) && Quiet(log, t.rows[n].client)
    requires LastTime(now, log) < t.rows[n].expires
    ensures var u := Run(t, log); Inv(u) && Sole(u, n) && SameCredential(u.rows, t.rows, n)
    decreases |log|
  {
    if log != [] {
      TimesOrdered(t, now, log);
      assert [log[0]][0] == log[0];
      StepKeepsSole(t, log[0].ttl, log[0].at, log[0].event, n);
      StepKeepsInv(t, log[0].ttl, log[0].at, log[0].event);
      RunKeepsSole(Step(t, log[0].ttl, log[0].at, log[0].event), log[0].at, log[1..], n);
    }
  }

  lemma SoleIsAccepted(t: Table, n: Id, at: nat)
    requires Inv(t) && Sole(t, n) && at < t.rows[n].expires
    ensures Accepts(t, t.rows[n].client, n, t.rows[n].secret, at)
  {
    SettledKeepsSole(t, n, at);
    SettledKeepsInv(t, at);
    var s := Settled(t.rows, at);
    forall j | j in s ensures RowOk(s, j) {}
    var rows := if s[n].state == Pending then Promoted(s, n, at) else s;
    HardDeadlineAfter(rows, t.rows[n].client, n, at + 1, at);
  }

  lemma RotationIsSole(t: Table, ttl: nat, e: Event, at: nat)
    requires Inv(t) && e.Rotate? && FreshFor(e, t.issued)
    requires Rotated(t, e.client, e.presented, e.presentedSecret, e.id, e.secret, at, at + ttl, e.deadline).Some?
    ensures Sole(Step(t, ttl, at, e), e.id)
  {
    SettledKeepsInv(t, at);
    var u := Step(t, ttl, at, e);
    var s := Settled(t.rows, at);
    forall j | Live(u.rows, j) && j != e.id && u.rows[j].client == e.client
      ensures u.rows[j].state == Active
    {
      assert j in s && RowOk(s, j) && PairOk(s, e.presented, j);
    }
  }

  /** A credential handed out by a rotation is accepted at any time before it expires,
      acknowledged or not and past its deadline too, until the next issue, rotation or
      revocation for its client. */
  lemma RotationNeverLocksOut(t: Table, ttl: nat, e: Event, rotatedAt: nat, log: Log, at: nat)
    requires Inv(t) && e.Rotate? && FreshFor(e, t.issued)
    requires Rotated(t, e.client, e.presented, e.presentedSecret, e.id, e.secret, rotatedAt, rotatedAt + ttl,
                     e.deadline).Some?
    requires var u := Step(t, ttl, rotatedAt, e); ValidLog(u, rotatedAt, log)
    requires Quiet(log, e.client) && LastTime(rotatedAt, log) <= at < rotatedAt + ttl
    ensures Accepts(Run(Step(t, ttl, rotatedAt, e), log), e.client, e.id, e.secret, at)
  {
    var u := Step(t, ttl, rotatedAt, e);
    RotationIsSole(t, ttl, e, rotatedAt);
    StepKeepsInv(t, ttl, rotatedAt, e);
    RunKeepsSole(u, rotatedAt, log, e.id);
    SoleIsAccepted(Run(u, log), e.id, at);
  }

  lemma AckElsewhereLocksOut(t: Table, ttl: nat, e: Event, at: nat, other: Id)
    requires Inv(t) && e.Issue? && FreshFor(e, t.issued)
    requires Issued(t, e.client, e.id, e.secret, at, at + ttl, e.deadline).Some?
    requires var s := Settled(t.rows, at); Live(s, other) && s[other].client == e.client && s[other].state == Pending
    ensures var u, log := Step(t, ttl, at, e), [Call(at, ttl, Ack(e.client, other))];
            ValidLog(u, at, log) && Quiet(log, e.client) && LastTime(at, log) == at
            && !Accepts(Run(u, log), e.client, e.id, e.secret, at)
  {
    var u, log := Step(t, ttl, at, e), [Call(at, ttl, Ack(e.client, other))];
    forall i | i in u.rows ensures !Due(u.rows[i], at) {}
    var v := Settled(u.rows, at);
    assert other in v && other != e.id;
    assert Run(u, log) == Run(Step(u, ttl, at, log[0].event), log[1..]);
    assert Run(u, log) == Step(u, ttl, at, log[0].event);
    assert !Live(Run(u, log).rows, e.id);
  }

  /** For a bare issue the same promise holds exactly when the client has no other
      pending generation: otherwise acknowledging that one revokes the new credential. */
  lemma IssueSafeIffAlone(t: Table, ttl: nat, e: Event, issuedAt: nat)
    requires Inv(t) && e.Issue? && FreshFor(e, t.issued)
    requires Issued(t, e.client, e.id, e.secret, issuedAt, issuedAt + ttl, e.deadline).Some?
    ensures (forall log: Log, at ::
               var u := Step(t, ttl, issuedAt, e);
               ValidLog(u, issuedAt, log) && Quiet(log, e.client) && LastTime(issuedAt, log) <= at < issuedAt + ttl
               ==> Accepts(Run(u, log), e.client, e.id, e.secret, at))
       <==> (var s := Settled(t.rows, issuedAt);
             forall j :: Live(s, j) && s[j].client == e.client ==> s[j].state != Pending)
  {
    var u, s := Step(t, ttl, issuedAt, e), Settled(t.rows, issuedAt);
    StepKeepsInv(t, ttl, issuedAt, e);
    SettledKeepsInv(t, issuedAt);
    if j :| Live(s, j) && s[j].client == e.client && s[j].state == Pending {
      AckElsewhereLocksOut(t, ttl, e, issuedAt, j);
    } else {
      forall j | Live(u.rows, j) && j != e.id && u.rows[j].client == e.client ensures u.rows[j].state == Active {
        assert j in s && RowOk(s, j);
      }
      forall log: Log, at
        | ValidLog(u, issuedAt, log) && Quiet(log, e.client) && LastTime(issuedAt, log) <= at < issuedAt + ttl
        ensures Accepts(Run(u, log), e.client, e.id, e.secret, at)
      {
        RunKeepsSole(u, issuedAt, log, e.id);
        SoleIsAccepted(Run(u, log), e.id, at);
      }
    }
  }

  // ----- What is gone stays gone -----

  /** `id` was handed out and no row of it can be presented any more. */
  ghost predicate Gone(t: Table, id: Id) {
    id in t.issued && !Live(t.rows, id)
  }

  lemma GoneIsRefused(t: Table, id: Id, at: nat)
    requires Gone(t, id)
    ensures Refused(t, id, at)
  {
  }

  lemma StepKeepsGone(t: Table, ttl: nat, at: nat, e: Event, id: Id)
    requires Inv(t) && FreshFor(e, t.issued) && Gone(t, id)
    ensures Gone(Step(t, ttl, at, e), id)
  {
    assert id !in Settled(t.rows, at);
    hide Inv, Settled, HardDeadline, ValidTimes;
  }

  lemma {:induction false} RunKeepsGone(t: Table, now: nat, log: Log, id: Id)
    requires Inv(t) && ValidLog(t, now, log) && Gone(t, id)
    ensures Gone(Run(t, log), id)
    decreases |log|
  {
    hide Inv, Gone, Step, FreshFor;
    if log != [] {
      StepKeepsInv(t, log[0].ttl, log[0].at, log[0].event);
      StepKeepsGone(t, log[0].ttl, log[0].at, log[0].event, id);
      RunKeepsGone(Step(t, log[0].ttl, log[0].at, log[0].event), log[0].at, log[1..], id);
    }
  }

  /** A revocation marks every row of the client and no other. */
  lemma RevocationMarksAll(t: Table, ttl: nat, at: nat, client: Client, i: Id)
    requires i in t.rows
    ensures var u := Step(t, ttl, at, Revoke(client));
            && i in u.rows && u.rows.Keys == t.rows.Keys
            && (t.rows[i].client == client ==> u.rows[i].revoked.Some?)
            && (t.rows[i].client == client && t.rows[i].revoked.None? ==>
                  u.rows[i].revoked == Some(at) && u.rows[i].state == Revoked)
            && (t.rows[i].client != client || t.rows[i].revoked.Some? ==> u.rows[i] == t.rows[i])
  {
  }

  /** After a revocation no generation the client had is accepted again, in any run, at any time
      and with any secret. */
  lemma RevocationIsFinal(t: Table, ttl: nat, at: nat, client: Client, log: Log, id: Id, later: nat)
    requires Inv(t) && ValidLog(Step(t, ttl, at, Revoke(client)), at, log)
    requires id in t.rows && t.rows[id].client == client
    ensures Refused(Run(Step(t, ttl, at, Revoke(client)), log), id, later)
  {
    RevocationMarksAll(t, ttl, at, client, id);
    StepKeepsInv(t, ttl, at, Revoke(client));
    hide Step, Inv;
    RunKeepsGone(Step(t, ttl, at, Revoke(client)), at, log, id);
    GoneIsRefused(Run(Step(t, ttl, at, Revoke(client)), log), id, later);
  }

  /** After a rotation only the presented generation and the new one can be accepted again. */
  lemma RotationRetiresTheRest(t: Table, ttl: nat, e: Event, at: nat, log: Log, id: Id, later: nat)
    requires Inv(t) && e.Rotate? && FreshFor(e, t.issued)
    requires Rotated(t, e.client, e.presented, e.presentedSecret, e.id, e.secret, at, at + ttl, e.deadline).Some?
    requires ValidLog(Step(t, ttl, at, e), at, log)
    requires id in t.rows && t.rows[id].client == e.client && id != e.presented
    ensures Refused(Run(Step(t, ttl, at, e), log), id, later)
  {
    SettledKeepsInv(t, at);
    var s := Settled(t.rows, at);
    if id in s { assert PairOk(s, e.presented, id) && RowOk(s, id); }
    assert Gone(Step(t, ttl, at, e), id);
    StepKeepsInv(t, ttl, at, e);
    hide Step, Inv, Rotated;
    RunKeepsGone(Step(t, ttl, at, e), at, log, id);
    GoneIsRefused(Run(Step(t, ttl, at, e), log), id, later);
  }

  /** After a pending generation was acknowledged only it can be accepted again, of those the
      client had. */
  lemma AcknowledgementRetiresTheRest(t: Table, ttl: nat, client: Client, acked: Id, at: nat, log: Log,
                                      id: Id, later: nat)
    requires Inv(t) && acked in t.rows && t.rows[acked].state == Pending
    requires Acknowledged(t, client, acked, at).Some? && ValidLog(Step(t, ttl, at, Ack(client, acked)), at, log)
    requires id in t.rows && t.rows[id].client == client && id != acked
    ensures Refused(Run(Step(t, ttl, at, Ack(client, acked)), log), id, later)
  {
    assert Gone(Step(t, ttl, at, Ack(client, acked)), id);
    StepKeepsInv(t, ttl, at, Ack(client, acked));
    hide Step, Inv, Acknowledged;
    RunKeepsGone(Step(t, ttl, at, Ack(client, acked)), at, log, id);
    GoneIsRefused(Run(Step(t, ttl, at, Ack(client, acked)), log), id, later);
  }

  /** An acknowledgement succeeds exactly for a generation of the client that survives settlement:
      unrevoked, unexpired, and the newest of those that are due if any is. */
  lemma AckSucceedsIff(t: Table, client: Client, id: Id, at: nat)
    requires Inv(t) && id in t.rows
    ensures Acknowledged(t, client, id, at).Some? <==>
              && t.rows[id].client == client && t.rows[id].revoked.None? && at < t.rows[id].expires
              && ((exists i :: i in t.rows && t.rows[i].client == client && Due(t.rows[i], at)) ==>
                    && Due(t.rows[id], at)
                    && forall i :: i in t.rows && i != id && t.rows[i].client == client && Due(t.rows[i], at) ==>
                         t.rows[i].created < t.rows[id].created
                         || (t.rows[i].created == t.rows[id].created && i < id))
  {
    assert RowOk(t.rows, id);
  }

  /** Whoever acknowledged a generation is left with it alone, active. */
  lemma AckedIsActive(t: Table, client: Client, id: Id, at: nat)
    requires Inv(t) && Acknowledged(t, client, id, at).Some?
    ensures var u := Acknowledged(t, client, id, at).value;
            Live(u.rows, id) && u.rows[id].state == Active && u.rows[id].client == client
  {
  }

  /** The times that are asked for, in milliseconds: a lifetime of at most 366 days and a window of
      at most ten minutes, within the lifetime. */
  predicate TimesAllowed(at: int, expires: int, deadline: int) {
    && 0 <= at && at < deadline && deadline <= expires && at < expires
    && expires - at <= 31_622_400_000 && deadline - at <= 600_000
  }

  /** An issue succeeds exactly for a registered client and allowed times. */
  lemma IssueSucceedsIff(t: Table, client: Client, id: Id, secret: nat, at: nat, expires: nat, deadline: nat)
    ensures Issued(t, client, id, secret, at, expires, deadline).Some?
       <==> client in t.clients && TimesAllowed(at, expires, deadline)
  {
  }

  /** A rotation that would be accepted fails exactly when the times are not allowed, and the
      grant is for the new row, its secret and a deadline no later than the one asked for. */
  lemma RotationSucceedsIff(t: Table, client: Client, id: Id, secret: nat, newId: Id, newSecret: nat,
                            at: nat, expires: nat, deadline: nat)
    ensures var r := Rotated(t, client, id, secret, newId, newSecret, at, expires, deadline);
            && (r.Some? <==> TimesAllowed(at, expires, deadline) && Accepts(t, client, id, secret, at))
            && (r.Some? ==>
                  && r.value.1.id == newId && r.value.1.secret == newSecret && newId in r.value.0.rows
                  && at < r.value.1.deadline == r.value.0.rows[newId].deadline <= deadline)
  {
    if ValidTimes(at, expires, deadline) {
      AcceptsIsRotate(t, client, id, secret, newId, newSecret, at, expires, deadline);
    }
    var settled := Settled(t.rows, at);
    if id in settled { HardDeadlineNeverLater(Presented(settled, id, at), client, id, deadline); }
  }

  // ----- Lifetimes end -----

  ghost predicate EndsBy(t: Table, id: Id, limit: nat) {
    id in t.issued && (id in t.rows ==> t.rows[id].expires <= limit)
  }

  lemma StepKeepsEnd(t: Table, ttl: nat, at: nat, e: Event, id: Id, limit: nat)
    requires Inv(t) && FreshFor(e, t.issued) && EndsBy(t, id, limit)
    ensures EndsBy(Step(t, ttl, at, e), id, limit)
  {
    hide Inv, Wins, Keeps, HasDue, ValidTimes;
  }

  lemma {:induction false} RunKeepsEnd(t: Table, now: nat, log: Log, id: Id, limit: nat)
    requires Inv(t) && ValidLog(t, now, log) && EndsBy(t, id, limit)
    ensures EndsBy(Run(t, log), id, limit)
    decreases |log|
  {
    hide Inv, EndsBy, Step, FreshFor;
    if log != [] {
      StepKeepsInv(t, log[0].ttl, log[0].at, log[0].event);
      StepKeepsEnd(t, log[0].ttl, log[0].at, log[0].event, id, limit);
      RunKeepsEnd(Step(t, log[0].ttl, log[0].at, log[0].event), log[0].at, log[1..], id, limit);
    }
  }

  /** A credential created at `at` for `ttl` is refused from `at + ttl` on, after any run. */
  lemma LifetimeEnds(t: Table, ttl: nat, e: Event, at: nat, log: Log, later: nat)
    requires Inv(t) && (e.Issue? || e.Rotate?) && FreshFor(e, t.issued)
    requires e.id in Step(t, ttl, at, e).issued && ValidLog(Step(t, ttl, at, e), at, log)
    requires at + ttl <= later
    ensures Refused(Run(Step(t, ttl, at, e), log), e.id, later)
  {
    StepKeepsInv(t, ttl, at, e);
    assert EndsBy(Step(t, ttl, at, e), e.id, at + ttl) by { hide Settled; }
    hide Step, Inv;
    RunKeepsEnd(Step(t, ttl, at, e), at, log, e.id, at + ttl);
  }

  // ----- Settlement keeps the newest -----

  /** When several generations of a client are due the one created last stays, with the greater id
      where times are equal, and no other credential of the client is accepted from then on. */
  lemma SettlementKeepsNewest(t: Table, client: Client, newest: Id, secret: nat, at: nat)
    requires Inv(t) && newest in t.rows && t.rows[newest].client == client && Due(t.rows[newest], at)
    requires t.rows[newest].secret == secret
    requires forall i :: i in t.rows && i != newest && t.rows[i].client == client && Due(t.rows[i], at) ==>
               t.rows[i].created < t.rows[newest].created
               || (t.rows[i].created == t.rows[newest].created && i < newest)
    ensures Accepts(t, client, newest, secret, at)
    ensures forall i :: i in t.rows && t.rows[i].client == client && i != newest ==> Refused(t, i, at)
  {
    var s := Settled(t.rows, at);
    assert Wins(t.rows, at, newest);
    SettledKeepsInv(t, at);
    forall j | j in s && s[j].client == client ensures j == newest {}
    HardDeadlineAfter(s, client, newest, at + 1, at);
  }

  /** A generation issued after all others of its client wins over them once it is due. */
  lemma NewestIssueWins(t: Table, ttl: nat, e: Event, issuedAt: nat, at: nat, other: Id)
    requires Inv(t) && e.Issue? && FreshFor(e, t.issued)
    requires Issued(t, e.client, e.id, e.secret, issuedAt, issuedAt + ttl, e.deadline).Some?
    requires forall i :: i in t.rows && t.rows[i].client == e.client ==> t.rows[i].created < issuedAt
    requires e.deadline <= at < issuedAt + ttl && other in t.rows && t.rows[other].client == e.client
    ensures var u := Step(t, ttl, issuedAt, e);
            Accepts(u, e.client, e.id, e.secret, at) && Refused(u, other, at)
  {
    var u := Step(t, ttl, issuedAt, e);
    StepKeepsInv(t, ttl, issuedAt, e);
    assert other != e.id && e.id in u.rows && u.rows[e.id].created == issuedAt && Due(u.rows[e.id], at);
    forall i | i in u.rows && i != e.id && u.rows[i].client == e.client ensures u.rows[i].created < issuedAt {
      assert i in t.rows && u.rows[i].created == t.rows[i].created;
    }
    hide Inv, Step, Settled;
    SettlementKeepsNewest(u, e.client, e.id, e.secret, at);
    if other in u.rows { assert Refused(u, other, at); } else { GoneIsRefused(u, other, at); }
  }

  // ----- The predecessor until the deadline -----

  /** No call for the client. */
  predicate Silent(log: Log, client: Client) {
    forall k :: 0 <= k < |log| ==> log[k].event.client != client
  }

  /** Active `a` with nothing of its client due before `limit`. */
  ghost predicate Overlapping(t: Table, a: Id, limit: nat) {
    && Live(t.rows, a) && t.rows[a].state == Active
    && forall i :: Live(t.rows, i) && t.rows[i].client == t.rows[a].client && t.rows[i].state == Pending ==>
         limit <= t.rows[i].deadline
  }

  lemma SettledKeepsOverlapping(t: Table, a: Id, limit: nat, at: nat)
    requires Inv(t) && Overlapping(t, a, limit) && at < limit && at < t.rows[a].expires
    ensures Overlapping(t.(rows := Settled(t.rows, at)), a, limit)
    ensures SameCredential(Settled(t.rows, at), t.rows, a)
  {
  }

  lemma OtherClientKeepsOverlapping(t: Table, u: Table, a: Id, limit: nat)
    requires Overlapping(t, a, limit)
    requires forall j :: j in t.rows && t.rows[j].client == t.rows[a].client ==> j in u.rows && u.rows[j] == t.rows[j]
    requires forall j :: j in u.rows && u.rows[j].client == t.rows[a].client ==> j in t.rows && t.rows[j] == u.rows[j]
    ensures Overlapping(u, a, limit) && SameCredential(u.rows, t.rows, a)
  {
  }

  lemma ReplacedElsewhereIsSame(s: Table, client: Client, p: Id, at: nat, newId: Id, row: Credential, other: Client)
    requires p in s.rows && s.rows[p].client == client == row.client && client != other && newId !in s.rows
    ensures var u := Replaced(s, client, p, at, newId, row);
            && (forall j :: j in s.rows && s.rows[j].client == other ==> j in u.rows && u.rows[j] == s.rows[j])
            && (forall j :: j in u.rows && u.rows[j].client == other ==> j in s.rows && s.rows[j] == u.rows[j])
  {
  }

  lemma RotateElsewhereKeepsOverlapping(t: Table, ttl: nat, at: nat, e: Event, a: Id, limit: nat)
    requires Inv(t) && Overlapping(t, a, limit) && at < limit && at < t.rows[a].expires
    requires e.Rotate? && FreshFor(e, t.issued) && e.client != t.rows[a].client
    ensures Overlapping(Step(t, ttl, at, e), a, limit) && SameCredential(Step(t, ttl, at, e).rows, t.rows, a)
  {
    SettledKeepsOverlapping(t, a, limit, at);
    NewIdUnreferenced(t, at, e.id);
    var s, u := t.(rows := Settled(t.rows, at)), Step(t, ttl, at, e);
    if Rotated(t, e.client, e.presented, e.presentedSecret, e.id, e.secret, at, at + ttl, e.deadline).Some? {
      hide Overlapping, Inv, Settled, HardDeadline, Replaced;
      assert u == Replaced(s, e.client, e.presented, at, e.id, u.rows[e.id]);
      ReplacedElsewhereIsSame(s, e.client, e.presented, at, e.id, u.rows[e.id], s.rows[a].client);
      hide Rotated, Step;
      OtherClientKeepsOverlapping(s, u, a, limit);
    }
  }

  lemma AckElsewhereKeepsOverlapping(t: Table, ttl: nat, at: nat, e: Event, a: Id, limit: nat)
    requires Inv(t) && Overlapping(t, a, limit) && at < limit && at < t.rows[a].expires
    requires e.Ack? && e.client != t.rows[a].client
    ensures Overlapping(Step(t, ttl, at, e), a, limit) && SameCredential(Step(t, ttl, at, e).rows, t.rows, a)
  {
    SettledKeepsOverlapping(t, a, limit, at);
    var s, u := t.(rows := Settled(t.rows, at)), Step(t, ttl, at, e);
    hide Overlapping, Inv, Settled;
    if Acknowledged(t, e.client, e.id, at).Some? { OtherClientKeepsOverlapping(s, u, a, limit); }
  }

  lemma StepKeepsOverlapping(t: Table, ttl: nat, at: nat, e: Event, a: Id, limit: nat)
    requires Inv(t) && Overlapping(t, a, limit) && at < limit && at < t.rows[a].expires
    requires FreshFor(e, t.issued) && e.client != t.rows[a].client
    ensures Overlapping(Step(t, ttl, at, e), a, limit) && SameCredential(Step(t, ttl, at, e).rows, t.rows, a)
  {
    SettledKeepsOverlapping(t, a, limit, at);
    var s, u := t.(rows := Settled(t.rows, at)), Step(t, ttl, at, e);
    hide Overlapping, Settled;
    match e
    case Register(_) => OtherClientKeepsOverlapping(t, u, a, limit);
    case Issue(c, id, secret, d) =>
      if Issued(t, c, id, secret, at, at + ttl, d).Some? {
        NewIdUnreferenced(t, at, id);
        OtherClientKeepsOverlapping(s, u, a, limit);
      } else {
        OtherClientKeepsOverlapping(t, u, a, limit);
      }
    case Rotate(_, _, _, _, _, _) => RotateElsewhereKeepsOverlapping(t, ttl, at, e, a, limit);
    case Ack(_, _) => AckElsewhereKeepsOverlapping(t, ttl, at, e, a, limit);
    case Revoke(_) => OtherClientKeepsOverlapping(t, u, a, limit);
  }

  lemma SilentStep(log: Log, client: Client)
    requires log != [] && Silent(log, client)
    ensures log[0].event.client != client && Silent(log[1..], client)
  {
  }

  lemma {:induction false} RunKeepsOverlapping(t: Table, now: nat, log: Log, a: Id, limit: nat)
    requires Inv(t) && ValidLog(t, now, log) && Overlapping(t, a, limit) && Silent(log, t.rows[a].client)
    requires LastTime(now, log) < limit && LastTime(now, log) < t.rows[a].expires
    ensures var u := Run(t, log); Inv(u) && Overlapping(u, a, limit) && SameCredential(u.rows, t.rows, a)
    decreases |log|
  {
    assert a in t.rows;
    hide Inv, Step, Overlapping, Silent, FreshFor;
    if log != [] {
      TimesOrdered(t, now, log);
      SilentStep(log, t.rows[a].client);
      StepKeepsOverlapping(t, log[0].ttl, log[0].at, log[0].event, a, limit);
      StepKeepsInv(t, log[0].ttl, log[0].at, log[0].event);
      RunKeepsOverlapping(Step(t, log[0].ttl, log[0].at, log[0].event), log[0].at, log[1..], a, limit);
    }
  }

  lemma RotationOverlaps(t: Table, ttl: nat, e: Event, at: nat)
    requires Inv(t) && e.Rotate? && FreshFor(e, t.issued)
    requires Rotated(t, e.client, e.presented, e.presentedSecret, e.id, e.secret, at, at + ttl, e.deadline).Some?
    requires e.presented in t.rows && t.rows[e.presented].state == Active
    ensures var u := Step(t, ttl, at, e);
            && e.id in u.rows && Overlapping(u, e.presented, u.rows[e.id].deadline)
            && SameCredential(u.rows, t.rows, e.presented)
            && u.rows[e.presented].client == e.client && u.rows[e.presented].secret == e.presentedSecret
  {
    SettledKeepsInv(t, at);
    var u, s := Step(t, ttl, at, e), Settled(t.rows, at);
    forall i | Live(u.rows, i) && u.rows[i].client == e.client && i != e.id
      ensures u.rows[i].state != Pending
    {
      assert i in s && PairOk(s, e.presented, i);
    }
  }

  /** A rotation leaves the active credential that was presented usable up to the granted deadline,
      as long as the client calls nothing: a lost answer locks nobody out. */
  lemma PredecessorLastsToDeadline(t: Table, ttl: nat, e: Event, rotatedAt: nat, log: Log, at: nat)
    requires Inv(t) && e.Rotate? && FreshFor(e, t.issued)
    requires var r := Rotated(t, e.client, e.presented, e.presentedSecret, e.id, e.secret, rotatedAt, rotatedAt + ttl,
                              e.deadline);
             r.Some? && at < r.value.1.deadline
    requires e.presented in t.rows && t.rows[e.presented].state == Active && at < t.rows[e.presented].expires
    requires ValidLog(Step(t, ttl, rotatedAt, e), rotatedAt, log) && Silent(log, e.client)
    requires LastTime(rotatedAt, log) <= at
    ensures Accepts(Run(Step(t, ttl, rotatedAt, e), log), e.client, e.presented, e.presentedSecret, at)
  {
    var u := Step(t, ttl, rotatedAt, e);
    var limit := u.rows[e.id].deadline;
    StepKeepsInv(t, ttl, rotatedAt, e);
    RotationOverlaps(t, ttl, e, rotatedAt);
    RunKeepsOverlapping(u, rotatedAt, log, e.presented, limit);
    var end := Run(u, log);
    ActiveAcceptedIff(end, e.client, e.presented, e.presentedSecret, at);
  }

  /** And from the requested deadline on it is refused, after any run whose calls before that
      create nothing that expires before it does. */
  lemma PredecessorEndsAtDeadline(t: Table, ttl: nat, e: Event, rotatedAt: nat, log: Log, at: nat)
    requires Inv(t) && e.Rotate? && FreshFor(e, t.issued)
    requires Rotated(t, e.client, e.presented, e.presentedSecret, e.id, e.secret, rotatedAt, rotatedAt + ttl,
                     e.deadline).Some?
    requires e.presented in t.rows && t.rows[e.presented].state == Active
    requires t.rows[e.presented].expires <= rotatedAt + ttl
    requires ValidLog(Step(t, ttl, rotatedAt, e), rotatedAt, log)
    requires Lasting(log, e.deadline, t.rows[e.presented].expires)
    requires e.deadline <= at && LastTime(rotatedAt, log) <= at
    ensures Refused(Run(Step(t, ttl, rotatedAt, e), log), e.presented, at)
  {
    var u := Step(t, ttl, rotatedAt, e);
    var a, until := e.presented, t.rows[e.presented].expires;
    StepKeepsInv(t, ttl, rotatedAt, e);
    RotationOverlaps(t, ttl, e, rotatedAt);
    RotationSucceedsIff(t, e.client, a, e.presentedSecret, e.id, e.secret, rotatedAt, rotatedAt + ttl, e.deadline);
    assert u.rows[e.id].state == Pending && u.rows[e.id].client == e.client && u.rows[e.id].expires == rotatedAt + ttl;
    forall instant: nat | e.deadline <= instant < until ensures HasDue(u.rows, instant, e.client) {
      assert Due(u.rows[e.id], instant);
    }
    hide Step, Rotated, HasDue;
    RunKeepsCovered(u, rotatedAt, log, a, e.deadline, until);
    CoveredIsRefused(Run(u, log), a, Max(e.deadline, LastTime(rotatedAt, log)), until, at);
  }

  /** A row after the winners have been promoted and before anything is deleted. */
  ghost function ResolvedRow(rows: map<Id, Credential>, at: nat, i: Id): Credential
    requires i in rows
  {
    if Wins(rows, at, i) then rows[i].(state := Active, persisted := Some(rows[i].persisted.Or(at)))
    else if HasDue(rows, at, rows[i].client) && rows[i].revoked == None
      then rows[i].(state := Revoked, revoked := Some(at))
    else rows[i]
  }

  ghost function AllResolvedRows(rows: map<Id, Credential>, at: nat): map<Id, Credential> {
    map i | i in rows :: ResolvedRow(rows, at, i)
  }

  ghost predicate Resolving(before: map<Id, Credential>, rows: map<Id, Credential>, at: nat, done: set<Client>) {
    && rows.Keys == before.Keys
    && forall i :: i in rows ==> rows[i] == if before[i].client in done then ResolvedRow(before, at, i) else before[i]
  }

  lemma PromotingResolves(before: map<Id, Credential>, rows: map<Id, Credential>, at: nat, done: set<Client>,
                          client: Client, winner: Id)
    requires Resolving(before, rows, at, done) && client !in done
    requires winner in rows && rows[winner].client == client && Wins(before, at, winner)
    ensures Resolving(before, Promoted(rows, winner, at), at, done + {client})
  {
  }

  lemma AllResolved(before: map<Id, Credential>, rows: map<Id, Credential>, at: nat, due: set<Client>)
    requires Resolving(before, rows, at, due) && forall c :: c in due <==> HasDue(before, at, c)
    ensures rows == AllResolvedRows(before, at)
  {
  }

  function ExpiredRevoked(rows: map<Id, Credential>, at: nat): map<Id, Credential> {
    map i | i in rows ::
      if rows[i].expires <= at && rows[i].revoked == None
      then rows[i].(state := Revoked, revoked := Some(at)) else rows[i]
  }

  /** Delete what is revoked or expired; ON DELETE SET NULL clears links to deleted rows. */
  function Swept(rows: map<Id, Credential>, at: nat): map<Id, Credential> {
    var kept := set i | i in rows && rows[i].revoked == None && at < rows[i].expires;
    map i | i in kept ::
      if rows[i].predecessor.Some? && rows[i].predecessor.value !in kept
      then rows[i].(predecessor := None) else rows[i]
  }

  lemma ExpiredAreSwept(rows: map<Id, Credential>, at: nat)
    ensures Swept(ExpiredRevoked(rows, at), at) == Swept(rows, at)
  {
  }

  lemma SweptIsSettled(before: map<Id, Credential>, at: nat)
    ensures Swept(AllResolvedRows(before, at), at) == Settled(before, at)
  {
  }

  lemma SameDue(before: map<Id, Credential>, rows: map<Id, Credential>, at: nat, client: Client)
    requires before.Keys == rows.Keys
    requires forall i :: i in rows && (before[i].client == client || rows[i].client == client) ==> rows[i] == before[i]
    ensures HasDue(rows, at, client) <==> HasDue(before, at, client)
    ensures forall i :: i in rows && rows[i].client == client ==> (Wins(rows, at, i) <==> Wins(before, at, i))
  {
  }

  // ----- The store -----

  /** Each method is one transaction: an error restores the rows it started from. */
  class CredentialStore {
    var rows: map<Id, Credential>
    var clients: set<Client>
    var issued: set<Id>

    ghost function Contents(): Table
      reads this
    {
      Table(rows, clients, issued)
    }

    constructor ()
      ensures Contents() == Table(map[], {}, {}) && Inv(Contents()) && forall ttl :: Paced(Contents().rows, ttl)
    {
      rows, clients, issued := map[], {}, {};
    }

    method RegisterClient(client: Client)
      modifies this
      ensures Contents() == old(Contents()).(clients := old(clients) + {client})
    {
      clients := clients + {client};
    }

    /** ORDER BY created_at DESC, id DESC LIMIT 1 over the client's due rows. */
    method NewestDue(client: Client, at: nat) returns (winner: Option<Id>)
      ensures winner == None <==> !HasDue(rows, at, client)
      ensures winner.Some? ==> Wins(rows, at, winner.value) && rows[winner.value].client == client
    {
      winner := None;
      var todo := rows.Keys;
      while todo != {}
        invariant todo <= rows.Keys
        invariant winner == None ==>
                    forall i :: i in rows && i !in todo && rows[i].client == client ==> !Due(rows[i], at)
        invariant winner.Some? ==>
                    winner.value in rows && rows[winner.value].client == client && Due(rows[winner.value], at)
        invariant winner.Some? ==> forall i :: i in rows && i !in todo && i != winner.value ==>
                    rows[i].client == client && Due(rows[i], at) ==> Later(rows, winner.value, i)
        decreases todo
      {
        var i :| i in todo;
        todo := todo - {i};
        if rows[i].client == client && Due(rows[i], at) && (winner == None || Later(rows, i, winner.value)) {
          winner := Some(i);
        }
      }
    }

    method Promote(id: Id, client: Client, at: nat) returns (ok: bool)
      modifies this`rows
      ensures ok <==> old(id in rows && rows[id].client == client && rows[id].state != Revoked
                          && rows[id].revoked == None && at < rows[id].expires)
      ensures rows == if ok then Promoted(old(rows), id, at) else old(rows)
    {
      ok := id in rows && rows[id].client == client && rows[id].state != Revoked
            && rows[id].revoked == None && at < rows[id].expires;
      if ok {
        rows := rows[id := rows[id].(state := Active, persisted := Some(rows[id].persisted.Or(at)))];
        rows := map i | i in rows :: if rows[i].client == client && i != id && rows[i].revoked == None
                                     then rows[i].(state := Revoked, revoked := Some(at)) else rows[i];
      }
    }

    /** Promote the newest due generation of every client that has one. */
    method PromoteWinners(at: nat)
      modifies this`rows
      ensures rows == AllResolvedRows(old(rows), at)
    {
      var todo := set i | i in rows && Due(rows[i], at) :: rows[i].client;
      ghost var before, due := rows, todo;
      while todo != {}
        invariant todo <= due
        invariant forall c :: c in due <==> HasDue(before, at, c)
        invariant Resolving(before, rows, at, due - todo)
        decreases todo
      {
        var client :| client in todo;
        SameDue(before, rows, at, client);
        var winner := NewestDue(client, at);
        PromotingResolves(before, rows, at, due - todo, client, winner.value);
        var ok := Promote(winner.value, client, at);
        assert due - (todo - {client}) == due - todo + {client};
        todo := todo - {client};
      }
      AllResolved(before, rows, at, due);
    }

    method Settle(at: nat)
      modifies this`rows
      ensures rows == Settled(old(rows), at)
    {
      ghost var before := rows;
      PromoteWinners(at);
      SweptIsSettled(before, at);
      ExpiredAreSwept(rows, at);
      rows := ExpiredRevoked(rows, at);
      rows := Swept(rows, at);
    }

    /** The only live active row of the client, if there is one. */
    method ActiveOf(client: Client, at: nat) returns (found: Option<Id>)
      requires Inv(Contents())
      ensures found == None <==> forall i :: i in rows ==> !ActiveRow(rows[i], client, at)
      ensures found.Some? ==> found.value in rows && ActiveRow(rows[found.value], client, at)
      ensures found.Some? ==> forall i :: i in rows && ActiveRow(rows[i], client, at) ==> i == found.value
    {
      var active := set i | i in rows && ActiveRow(rows[i], client, at);
      if i :| i in active {
        found := Some(i);
        forall j | j in rows && ActiveRow(rows[j], client, at) ensures j == i { assert PairOk(rows, i, j); }
      } else {
        found := None;
        forall i | i in rows ensures !ActiveRow(rows[i], client, at) { assert i !in active; }
      }
    }

    method Issue(client: Client, id: Id, secret: nat, at: nat, expires: nat, deadline: nat) returns (ok: bool)
      requires Inv(Contents()) && id !in issued
      modifies this
      ensures Inv(Contents())
      ensures var r := Issued(old(Contents()), client, id, secret, at, expires, deadline);
              ok == r.Some? && Contents() == if ok then r.value else old(Contents())
    {
      if !ValidTimes(at, expires, deadline) { return false; }
      ghost var t := Contents();
      var saved := rows;
      SettledKeepsInv(t, at);
      Settle(at);
      if client !in clients {
        rows := saved;
        return false;
      }
      var predecessor := ActiveOf(client, at);
      rows := rows[id := Credential(client, secret, Pending, predecessor, at, expires, deadline, None, None)];
      issued := issued + {id};
      IssueKeepsInv(t, client, id, secret, at, expires, deadline);
      return true;
    }

    /** SELECT MIN(persist_deadline_at), combined with the deadline asked for. */
    method EarliestDeadline(client: Client, id: Id, requested: nat) returns (hard: nat)
      ensures hard == HardDeadline(rows, client, id, requested)
    {
      hard := requested;
      var todo := set i | i in rows && Successor(rows[i], client, id);
      ghost var all := todo;
      ghost var values :=
        {requested as int} + set i | i in rows && Successor(rows[i], client, id) :: rows[i].deadline as int;
      while todo != {}
        invariant todo <= all
        invariant hard as int in values && hard <= requested
        invariant forall i :: i in all - todo ==> hard <= rows[i].deadline
        decreases todo
      {
        var i :| i in todo;
        todo := todo - {i};
        if rows[i].deadline < hard { hard := rows[i].deadline; }
      }
      assert IsLeast(hard, values);
    }

    method Rotate(client: Client, id: Id, secret: nat, newId: Id, newSecret: nat, at: nat, expires: nat, deadline: nat)
      returns (grant: Option<Grant>)
      requires Inv(Contents()) && newId !in issued
      modifies this
      ensures Inv(Contents())
      ensures var r := Rotated(old(Contents()), client, id, secret, newId, newSecret, at, expires, deadline);
              if r.Some? then grant == Some(r.value.1) && Contents() == r.value.0
              else grant == None && Contents() == old(Contents())
    {
      if !ValidTimes(at, expires, deadline) { return None; }
      ghost var t := Contents();
      var saved := rows;
      Settle(at);
      if !Presentable(rows, client, id, secret, at) {
        rows := saved;
        return None;
      }
      if rows[id].state == Pending {
        var ok := Promote(id, client, at);
      }
      var hard := EarliestDeadline(client, id, deadline);
      if hard <= at {
        rows := saved;
        return None;
      }
      rows := map i | i in rows :: if Successor(rows[i], client, id)
                                   then rows[i].(state := Revoked, revoked := Some(at)) else rows[i];
      rows := rows[newId := Credential(client, newSecret, Pending, Some(id), at, expires, hard, None, None)];
      issued := issued + {newId};
      RotateKeepsInv(t, client, id, secret, newId, newSecret, at, expires, deadline);
      return Some(Grant(newId, newSecret, hard));
    }

    method Acknowledge(client: Client, id: Id, at: nat) returns (ok: bool)
      requires Inv(Contents())
      modifies this`rows
      ensures Inv(Contents())
      ensures var r := Acknowledged(old(Contents()), client, id, at);
              ok == r.Some? && Contents() == if ok then r.value else old(Contents())
    {
      var saved := rows;
      SettledKeepsInv(Contents(), at);
      Settle(at);
      if id !in rows || rows[id].client != client || rows[id].revoked != None || rows[id].expires <= at {
        rows := saved;
        return false;
      }
      if rows[id].state == Active && rows[id].persisted != None { return true; }
      if rows[id].state != Pending || rows[id].deadline < at {
        rows := saved;
        return false;
      }
      PromotedKeepsInv(Contents(), id, at);
      ok := Promote(id, client, at);
    }

    method Revoke(client: Client, at: nat) returns (changed: nat)
      requires Inv(Contents())
      modifies this`rows
      ensures Inv(Contents()) && Contents() == RevokedAll(old(Contents()), client, at)
      ensures forall i :: i in old(rows) ==>
                i in rows && if old(rows)[i].client == client then rows[i].revoked.Some? else rows[i] == old(rows)[i]
      ensures changed == |set i | i in old(rows) && old(rows)[i].client == client && old(rows)[i].revoked == None|
    {
      RevokeKeepsInv(Contents(), client, at);
      changed := |set i | i in rows && rows[i].client == client && rows[i].revoked == None|;
      rows := map i | i in rows :: if rows[i].client == client && rows[i].revoked == None
                                   then rows[i].(state := Revoked, revoked := Some(at)) else rows[i];
    }
  }
}
