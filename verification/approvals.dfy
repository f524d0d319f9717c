/** The approval table of the gateway: one relation per transaction of
    research_technology/mcp/gateway/approvals.py, and the store that implements it.
    The request fingerprint is an injective function of the execution intent. */
module Approvals {
  import opened TaskContracts

  type ApprovalId = string
  type Args = map<string, string>

  /** What the fingerprint covers: everything but the bearer ticket. */
  datatype Intent = Intent(tool: string, args: Args, context: string)

  datatype ApprovalStatus = Requested | Approved | MaskedAndApproved | Denied | Expired | Revoked | Consumed

  datatype Row = Row(
    id: ApprovalId, trace: string, request: string, status: ApprovalStatus, actor: Option<string>,
    idempotencyKey: string, decisionKey: Option<string>, requestedAt: Time, expiresAt: Time,
    decidedAt: Option<Time>, consumedAt: Option<Time>, revokedAt: Option<Time>,
    intent: Intent, ticket: Option<string>, fingerprint: Intent, maskedArgs: Args, comment: string)

  type Table = map<ApprovalId, Row>

  datatype Verdict = AllowIt | DenyIt | MaskAndAllowIt

  datatype Op =
    | Create(id: ApprovalId, trace: string, request: string, intent: Intent, ticket: Option<string>, key: string,
             ttl: int, now: Time)
    | Decide(id: ApprovalId, verdict: Verdict, actor: string, decisionKey: string, comment: string,
             masked: Option<Args>, now: Time)
    | Consume(id: ApprovalId, now: Time)
    | Revoke(id: ApprovalId, actor: string, now: Time)
    | Expire(id: ApprovalId, now: Time)

  datatype Reply = Ok(row: Row) | Invalid | Missing | KeyTaken | WrongState | TooLate | Unavailable | Tampered

  const SECOND: int := 1_000_000

  function Target(v: Verdict): ApprovalStatus {
    match v case AllowIt => Approved case DenyIt => Denied case MaskAndAllowIt => MaskedAndApproved
  }

  /** `ApprovalRecord.execution_args`: empty masked arguments count as none. */
  function ExecutionArgs(r: Row): Args {
    if r.maskedArgs != map[] then r.maskedArgs else r.intent.args
  }

  predicate Releasable(s: ApprovalStatus) {
    s.Approved? || s.MaskedAndApproved?
  }

  /** DENIED, EXPIRED, REVOKED and CONSUMED. */
  predicate Absorbing(s: ApprovalStatus) {
    s.Denied? || s.Expired? || s.Revoked? || s.Consumed?
  }

  predicate Matches(r: Row, key: string, trace: string, request: string) {
    r.idempotencyKey == key || (r.trace == trace && r.request == request)
  }

  predicate KeyFree(t: Table, id: ApprovalId, decisionKey: string) {
    forall x :: x in t && x != id ==> t[x].decisionKey != Some(decisionKey)
  }

  function Inserted(op: Op): Row
    requires op.Create?
  {
    Row(op.id, op.trace, op.request, Requested, None, op.key, None, op.now, op.now + op.ttl * SECOND, None, None, None,
        op.intent, op.ticket, op.intent, map[], "")
  }

  function Decided(r: Row, op: Op): Row
    requires op.Decide?
  {
    r.(status := Target(op.verdict), actor := Some(op.actor), decisionKey := Some(op.decisionKey),
       decidedAt := Some(op.now), maskedArgs := op.masked.GetOr(map[]), comment := op.comment)
  }

  // ----- The transactions -----

  /** `create`.  The lookup may match two rows, by key and by request; which one
      the query returns is open. */
  ghost predicate Creates(t: Table, op: Op, t': Table, reply: Reply)
    requires op.Create?
  {
    if !(1 <= op.ttl <= 86_400) then t' == t && reply == Invalid
    else if exists x :: x in t && Matches(t[x], op.key, op.trace, op.request) then
      t' == t && exists x :: x in t && Matches(t[x], op.key, op.trace, op.request)
                             && reply == if t[x].fingerprint == op.intent then Ok(t[x]) else KeyTaken
    else if op.id in t then t' == t && reply == Unavailable
    else t' == t[op.id := Inserted(op)] && reply == Ok(Inserted(op))
  }

  function DecideStep(t: Table, op: Op): (Table, Reply)
    requires op.Decide?
  {
    if op.verdict.MaskAndAllowIt? && op.masked.GetOr(map[]) == map[] then (t, Invalid)
    else if op.id !in t then (t, Missing)
    else
      var r := t[op.id];
      if r.decisionKey == Some(op.decisionKey) && r.status == Target(op.verdict) then (t, Ok(r))
      else if !r.status.Requested? then (t, WrongState)
      else if op.now >= r.expiresAt then (t[op.id := r.(status := Expired)], TooLate)
      else if !KeyFree(t, op.id, op.decisionKey) then (t, KeyTaken)
      else (t[op.id := Decided(r, op)], Ok(Decided(r, op)))
  }

  function ConsumeStep(t: Table, op: Op): (Table, Reply)
    requires op.Consume?
  {
    if op.id !in t then (t, Missing)
    else
      var r := t[op.id];
      if !Releasable(r.status) then (t, WrongState)
      else if op.now >= r.expiresAt then (t[op.id := r.(status := Expired)], TooLate)
      else if r.intent != r.fingerprint then (t, Tampered)
      else
        var u := r.(status := Consumed, consumedAt := Some(op.now));
        (t[op.id := u], Ok(u))
  }

  function RevokeStep(t: Table, op: Op): (Table, Reply)
    requires op.Revoke?
  {
    if op.id !in t then (t, Missing)
    else
      var r := t[op.id];
      if !r.status.Requested? && !Releasable(r.status) then (t, WrongState)
      else
        var u := r.(status := Revoked, actor := Some(op.actor), revokedAt := Some(op.now));
        (t[op.id := u], Ok(u))
  }

  function ExpireStep(t: Table, op: Op): (Table, Reply)
    requires op.Expire?
  {
    if op.id !in t then (t, Missing)
    else
      var r := t[op.id];
      if r.status.Requested? && op.now >= r.expiresAt then
        var u := r.(status := Expired);
        (t[op.id := u], Ok(u))
      else (t, Ok(r))
  }

  ghost predicate Does(t: Table, op: Op, t': Table, reply: Reply) {
    match op
    case Create(_, _, _, _, _, _, _, _) => Creates(t, op, t', reply)
    case Decide(_, _, _, _, _, _, _) => (t', reply) == DecideStep(t, op)
    case Consume(_, _) => (t', reply) == ConsumeStep(t, op)
    case Revoke(_, _, _) => (t', reply) == RevokeStep(t, op)
    case Expire(_, _) => (t', reply) == ExpireStep(t, op)
  }

  // ----- Invariant of the table -----

  ghost predicate RowOk(r: Row) {
    && r.fingerprint == r.intent
    && r.requestedAt + SECOND <= r.expiresAt <= r.requestedAt + 86_400 * SECOND
    && (r.status.Requested? ==> r.decidedAt.None? && r.decisionKey.None? && r.maskedArgs == map[] && r.actor.None?)
    && (Releasable(r.status) || r.status.Denied? || r.status.Consumed? ==>
          r.decidedAt.Some? && r.decidedAt.value < r.expiresAt && r.decisionKey.Some?)
    && (r.status.MaskedAndApproved? ==> r.maskedArgs != map[])
    && (r.status.Consumed? <==> r.consumedAt.Some?)
    && (r.consumedAt.Some? ==> r.consumedAt.value < r.expiresAt)
    && (r.status.Revoked? <==> r.revokedAt.Some?)
  }

  /** The UNIQUE constraints. */
  ghost predicate Unique(t: Table) {
    forall x, y :: x in t && y in t && x != y ==>
      && t[x].idempotencyKey != t[y].idempotencyKey
      && !(t[x].trace == t[y].trace && t[x].request == t[y].request)
      && (t[x].decisionKey.None? || t[x].decisionKey != t[y].decisionKey)
  }

  ghost predicate Valid(t: Table) {
    (forall x :: x in t ==> t[x].id == x && RowOk(t[x])) && Unique(t)
  }

  /** The part of a row that identifies the request. */
  ghost predicate SameRequest(r: Row, r': Row) {
    r'.id == r.id && r'.trace == r.trace && r'.request == r.request && r'.idempotencyKey == r.idempotencyKey
    && r'.requestedAt == r.requestedAt && r'.expiresAt == r.expiresAt && r'.intent == r.intent
    && r'.ticket == r.ticket && r'.fingerprint == r.fingerprint
  }

  /** Replacing one row by a valid one for the same request, with its old decision
      key or a free one. */
  lemma ReplaceKeepsValid(t: Table, id: ApprovalId, r: Row)
    requires Valid(t) && id in t && SameRequest(t[id], r) && RowOk(r)
    requires r.decisionKey == t[id].decisionKey || (r.decisionKey.Some? && KeyFree(t, id, r.decisionKey.value))
    ensures Valid(t[id := r])
  {
  }

  lemma InsertKeepsValid(t: Table, op: Op)
    requires op.Create? && Valid(t) && op.id !in t && 1 <= op.ttl <= 86_400
    requires !exists x :: x in t && Matches(t[x], op.key, op.trace, op.request)
    ensures Valid(t[op.id := Inserted(op)])
  {
  }

  lemma StepKeepsValid(t: Table, op: Op, t': Table, reply: Reply)
    requires Valid(t) && Does(t, op, t', reply)
    ensures Valid(t')
  {
    if t' != t {
      if op.Create? {
        InsertKeepsValid(t, op);
      } else {
        StepOfRow(t, op, t', reply, op.id);
        RowStepIsOk(op, t[op.id], t'[op.id]);
        StepKeys(t, op, t', reply);
        assert t' == t[op.id := t'[op.id]];
        ReplaceKeepsValid(t, op.id, t'[op.id]);
      }
    }
  }

  lemma StepKeys(t: Table, op: Op, t': Table, reply: Reply)
    requires Does(t, op, t', reply) && !op.Create? && t' != t
    ensures op.id in t && op.id in t' && t' == t[op.id := t'[op.id]]
    ensures t'[op.id].decisionKey == t[op.id].decisionKey
            || (t'[op.id].decisionKey.Some? && KeyFree(t, op.id, t'[op.id].decisionKey.value))
  {
  }

  lemma RowStepIsOk(op: Op, r: Row, r': Row)
    requires RowOk(r) && RowStep(op, r, r')
    ensures RowOk(r') && SameRequest(r, r')
  {
  }

  /** The only ways a row changes. */
  ghost predicate RowStep(op: Op, r: Row, r': Row) {
    || r' == r
    || (op.Decide? && r.status.Requested? && op.now < r.expiresAt && r' == Decided(r, op)
        && (op.verdict.MaskAndAllowIt? ==> op.masked.GetOr(map[]) != map[]))
    || (op.Consume? && Releasable(r.status) && op.now < r.expiresAt
        && r' == r.(status := Consumed, consumedAt := Some(op.now)))
    || (op.Revoke? && !Absorbing(r.status) && r' == r.(status := Revoked, actor := Some(op.actor), revokedAt := Some(op.now)))
    || ((op.Decide? || op.Consume? || op.Expire?) && !Absorbing(r.status) && op.now >= r.expiresAt
        && r' == r.(status := Expired))
  }

  lemma StepOfRow(t: Table, op: Op, t': Table, reply: Reply, id: ApprovalId)
    requires Does(t, op, t', reply) && id in t
    ensures id in t' && RowStep(op, t[id], t'[id])
    ensures id != op.id ==> t'[id] == t[id]
  {
  }

  lemma NewRow(t: Table, op: Op, t': Table, reply: Reply, id: ApprovalId)
    requires Does(t, op, t', reply) && id !in t && id in t'
    ensures op.Create? && id == op.id && t'[id] == Inserted(op)
  {
  }

  // ----- Runs -----

  datatype Call = Call(op: Op, reply: Reply)

  /** Table n is the table before call n. */
  ghost predicate IsRun(tables: seq<Table>, calls: seq<Call>) {
    && |tables| == |calls| + 1 && tables[0] == map[]
    && forall i: nat :: i < |calls| ==> Does(tables[i], calls[i].op, tables[i + 1], calls[i].reply)
  }

  lemma {:induction false} RunIsValid(tables: seq<Table>, calls: seq<Call>, n: nat)
    requires IsRun(tables, calls) && n < |tables|
    ensures Valid(tables[n])
  {
    if n > 0 {
      RunIsValid(tables, calls, n - 1);
      StepKeepsValid(tables[n - 1], calls[n - 1].op, tables[(n - 1) + 1], calls[n - 1].reply);
    }
  }

  /** Rows are never deleted and the request they stand for never changes; once in
      an absorbing state the whole row never changes. */
  lemma {:induction false} RowsPersist(tables: seq<Table>, calls: seq<Call>, i: nat, j: nat, id: ApprovalId)
    requires IsRun(tables, calls) && i <= j < |tables| && id in tables[i]
    ensures id in tables[j] && SameRequest(tables[i][id], tables[j][id])
    ensures Absorbing(tables[i][id].status) ==> tables[j][id] == tables[i][id]
    decreases j
  {
    if i < j {
      RowsPersist(tables, calls, i, j - 1, id);
      StepOfRow(tables[j - 1], calls[j - 1].op, tables[(j - 1) + 1], calls[j - 1].reply, id);
    }
  }

  /** Call i took the decision recorded in row r, in time. */
  ghost predicate DecidedBy(tables: seq<Table>, calls: seq<Call>, i: nat, r: Row)
    requires |tables| == |calls| + 1 && i < |calls|
  {
    && calls[i].op.Decide? && calls[i].op.id == r.id && r.id in tables[i] && tables[i][r.id].status.Requested?
    && calls[i].reply.Ok? && r.decidedAt == Some(calls[i].op.now) && calls[i].op.now < r.expiresAt
    && r.maskedArgs == calls[i].op.masked.GetOr(map[]) && r.decisionKey == Some(calls[i].op.decisionKey)
    && r.actor == Some(calls[i].op.actor) && r.comment == calls[i].op.comment
    && (calls[i].op.verdict.MaskAndAllowIt? ==> r.maskedArgs != map[])
  }

  /** A decided row was decided by an earlier call, with the row's status while it
      has not been consumed. */
  ghost predicate HasDecision(tables: seq<Table>, calls: seq<Call>, n: nat, r: Row)
    requires |tables| == |calls| + 1
  {
    exists i: nat :: i < n && i < |calls| && DecidedBy(tables, calls, i, r)
      && (if r.status.Consumed? then !calls[i].op.verdict.DenyIt? else r.status == Target(calls[i].op.verdict))
  }

  lemma {:induction false} DecisionsAreRecorded(tables: seq<Table>, calls: seq<Call>, n: nat, id: ApprovalId)
    requires IsRun(tables, calls) && n < |tables| && id in tables[n]
    requires Releasable(tables[n][id].status) || tables[n][id].status.Denied? || tables[n][id].status.Consumed?
    ensures HasDecision(tables, calls, n, tables[n][id])
  {
    hide Valid;
    var op, reply, r' := calls[n - 1].op, calls[n - 1].reply, tables[n][id];
    assert Does(tables[n - 1], op, tables[(n - 1) + 1], reply);
    if id in tables[n - 1] {
      StepOfRow(tables[n - 1], op, tables[n], reply, id);
      RunIsValid(tables, calls, n - 1);
      var r := tables[n - 1][id];
      if r.status.Requested? {
        assert DecidedBy(tables, calls, n - 1, r');
      } else {
        DecisionsAreRecorded(tables, calls, n - 1, id);
        var i: nat :| i < n - 1 && DecidedBy(tables, calls, i, r)
                      && (if r.status.Consumed? then !calls[i].op.verdict.DenyIt? else r.status == Target(calls[i].op.verdict));
        assert DecidedBy(tables, calls, i, r');
      }
    } else {
      NewRow(tables[n - 1], op, tables[n], reply, id);
      assert false;
    }
  }

  /** A successful consume. */
  ghost predicate Consumes(calls: seq<Call>, j: nat, id: ApprovalId)
    requires j < |calls|
  {
    calls[j].op.Consume? && calls[j].op.id == id && calls[j].reply.Ok?
  }

  /** A consume only succeeds before expiry, on a row that an earlier allow or mask
      decision, itself before expiry, released; and it hands out the approver's
      arguments when that decision gave any, the original ones otherwise. */
  lemma ConsumeNeedsDecision(tables: seq<Table>, calls: seq<Call>, j: nat, id: ApprovalId) returns (i: nat)
    requires IsRun(tables, calls) && j < |calls| && Consumes(calls, j, id)
    ensures i < j && calls[i].op.Decide? && calls[i].op.id == id && !calls[i].op.verdict.DenyIt? && calls[i].reply.Ok?
    ensures id in tables[i] && tables[i][id].status.Requested?
    ensures calls[i].op.now < tables[i][id].expiresAt && calls[j].op.now < tables[i][id].expiresAt
    ensures ExecutionArgs(calls[j].reply.row)
            == var masked := calls[i].op.masked.GetOr(map[]); if masked != map[] then masked else tables[i][id].intent.args
    ensures calls[i].op.verdict.MaskAndAllowIt? ==>
              calls[i].op.masked.Some? && ExecutionArgs(calls[j].reply.row) == calls[i].op.masked.value
  {
    assert Does(tables[j], calls[j].op, tables[j + 1], calls[j].reply);
    var r := tables[j][id];
    RunIsValid(tables, calls, j);
    DecisionsAreRecorded(tables, calls, j, id);
    i :| i < j && DecidedBy(tables, calls, i, r) && r.status == Target(calls[i].op.verdict);
    RowsPersist(tables, calls, i, j, id);
  }

  /** An approval is consumed at most once in any run. */
  lemma ConsumedAtMostOnce(tables: seq<Table>, calls: seq<Call>, i: nat, j: nat, id: ApprovalId)
    requires IsRun(tables, calls) && i < j < |calls| && Consumes(calls, i, id)
    ensures !Consumes(calls, j, id)
  {
    assert Does(tables[i], calls[i].op, tables[i + 1], calls[i].reply);
    assert Does(tables[j], calls[j].op, tables[j + 1], calls[j].reply);
    RowsPersist(tables, calls, i + 1, j, id);
  }

  // ----- Idempotence -----

  /** Repeating a create that inserted a row, at any time and with any new id,
      changes nothing and answers with that row as it is now, if and only if the
      intent is the same. */
  lemma CreateIsIdempotent(t: Table, op: Op, t': Table, reply: Reply, x: ApprovalId)
    requires op.Create? && Valid(t) && Does(t, op, t', reply) && 1 <= op.ttl <= 86_400
    requires x in t && t[x].idempotencyKey == op.key && t[x].trace == op.trace && t[x].request == op.request
    ensures t' == t && (reply == Ok(t[x]) <==> t[x].intent == op.intent)
    ensures t[x].intent != op.intent ==> reply == KeyTaken
  {
  }

  /** The table and reply after a decision call succeeded. */
  lemma DecisionTaken(t: Table, op: Op)
    requires op.Decide? && DecideStep(t, op).1.Ok?
    ensures var (t', reply) := DecideStep(t, op);
            op.id in t' && !t'[op.id].status.Requested? && t'[op.id].status == Target(op.verdict)
            && t'[op.id].decisionKey == Some(op.decisionKey) && reply == Ok(t'[op.id])
  {
  }

  /** A row that was decided once is never open again, and while it is in a decided
      state it is the row the decision left. */
  lemma {:induction false} DecidedRowStands(tables: seq<Table>, calls: seq<Call>, i: nat, j: nat, id: ApprovalId)
    requires IsRun(tables, calls) && i <= j < |tables| && id in tables[i] && !tables[i][id].status.Requested?
    ensures id in tables[j] && !tables[j][id].status.Requested?
    ensures Releasable(tables[j][id].status) || tables[j][id].status.Denied? ==> tables[j][id] == tables[i][id]
    decreases j
  {
    if i < j {
      DecidedRowStands(tables, calls, i, j - 1, id);
      StepOfRow(tables[j - 1], calls[j - 1].op, tables[(j - 1) + 1], calls[j - 1].reply, id);
    }
  }

  /** Repeating a successful decision with its key, at any later time in any run,
      never changes anything, not the arguments, the comment, the actor or the time;
      it is answered, with the row the decision left, if and only if the row still
      stands as decided, and is refused otherwise. */
  lemma DecideIsIdempotent(tables: seq<Table>, calls: seq<Call>, i: nat, j: nat, again: Op)
    requires IsRun(tables, calls) && i < j < |tables| && calls[i].op.Decide? && calls[i].reply.Ok?
    requires var op := calls[i].op;
             again.Decide? && again.id == op.id && again.verdict == op.verdict && again.decisionKey == op.decisionKey
    requires again.verdict.MaskAndAllowIt? ==> again.masked.GetOr(map[]) != map[]
    ensures again.id in tables[i + 1] && again.id in tables[j]
    ensures DecideStep(tables[j], again)
            == (tables[j], if tables[j][again.id].status == Target(again.verdict) then Ok(tables[i + 1][again.id]) else WrongState)
  {
    var op := calls[i].op;
    assert Does(tables[i], op, tables[i + 1], calls[i].reply);
    DecisionTaken(tables[i], op);
    DecidedRowStands(tables, calls, i + 1, j, op.id);
  }

  /** ... but once consumed, the same key is refused. */
  lemma ConsumedDecisionIsFinal(t: Table, op: Op)
    requires op.Decide? && op.id in t && t[op.id].status.Consumed?
    ensures DecideStep(t, op).0 == t && !DecideStep(t, op).1.Ok?
  {
  }

  // ----- The store -----

  class SQLiteApprovalStore {
    var rows: Table

    constructor ()
      ensures rows == map[] && Valid(rows)
    {
      rows := map[];
    }

    /** The first row the lookup of `create` returns. */
    method Lookup(key: string, trace: string, request: string) returns (found: Option<ApprovalId>)
      ensures found.Some? ==> found.value in rows && Matches(rows[found.value], key, trace, request)
      ensures found.None? ==> forall x :: x in rows ==> !Matches(rows[x], key, trace, request)
    {
      var rest := rows.Keys;
      while rest != {}
        invariant rest <= rows.Keys
        invariant forall x :: x in rows && x !in rest ==> !Matches(rows[x], key, trace, request)
        decreases |rest|
      {
        var x :| x in rest;
        if Matches(rows[x], key, trace, request) { return Some(x); }
        rest := rest - {x};
      }
      return None;
    }

    method CreateApproval(id: ApprovalId, trace: string, request: string, intent: Intent, ticket: Option<string>,
                          key: string, ttl: int, now: Time)
      returns (reply: Reply)
      modifies this
      ensures Does(old(rows), Create(id, trace, request, intent, ticket, key, ttl, now), rows, reply)
      ensures old(Valid(rows)) ==> Valid(rows)
    {
      ghost var was, op := rows, Create(id, trace, request, intent, ticket, key, ttl, now);
      if !(1 <= ttl <= 86_400) { return Invalid; }
      var existing := Lookup(key, trace, request);
      if existing.Some? {
        if rows[existing.value].fingerprint != intent { return KeyTaken; }
        return Ok(rows[existing.value]);
      }
      if id in rows { return Unavailable; }
      var row := Row(id, trace, request, Requested, None, key, None, now, now + ttl * SECOND, None, None, None,
                     intent, ticket, intent, map[], "");
      rows := rows[id := row];
      reply := Ok(row);
      if Valid(was) { StepKeepsValid(was, op, rows, reply); }
    }

    /** `get`: a read, followed by an expiry when the row turns out to be overdue. */
    method Get(id: ApprovalId, now: Time) returns (reply: Reply)
      modifies this
      ensures (rows, reply) == ExpireStep(old(rows), Expire(id, now))
    {
      if id !in rows { return Missing; }
      if rows[id].status.Requested? && now >= rows[id].expiresAt {
        reply := ExpireApproval(id, now);
        return;
      }
      return Ok(rows[id]);
    }

    method DecideApproval(id: ApprovalId, verdict: Verdict, actor: string, decisionKey: string, comment: string,
                          masked: Option<Args>, now: Time)
      returns (reply: Reply)
      modifies this
      ensures (rows, reply) == DecideStep(old(rows), Decide(id, verdict, actor, decisionKey, comment, masked, now))
      ensures old(Valid(rows)) ==> Valid(rows)
    {
      ghost var was, op := rows, Decide(id, verdict, actor, decisionKey, comment, masked, now);
      if Valid(was) { StepKeepsValid(was, op, DecideStep(was, op).0, DecideStep(was, op).1); }
      if verdict.MaskAndAllowIt? && masked.GetOr(map[]) == map[] { return Invalid; }
      if id !in rows { return Missing; }
      var row := rows[id];
      if row.decisionKey == Some(decisionKey) && row.status == Target(verdict) { return Ok(row); }
      if row.status != Requested { return WrongState; }
      if now >= row.expiresAt {
        rows := rows[id := row.(status := Expired)];
        return TooLate;
      }
      var updated := row.(status := Target(verdict), actor := Some(actor), decisionKey := Some(decisionKey),
                          decidedAt := Some(now), maskedArgs := masked.GetOr(map[]), comment := comment);
      var clash := UsedElsewhere(id, decisionKey);
      if clash { return KeyTaken; }
      rows := rows[id := updated];
      return Ok(updated);
    }

    /** The UNIQUE index on decision keys. */
    method UsedElsewhere(id: ApprovalId, decisionKey: string) returns (used: bool)
      ensures used <==> !KeyFree(rows, id, decisionKey)
    {
      var rest := rows.Keys - {id};
      while rest != {}
        invariant rest <= rows.Keys - {id}
        invariant forall x :: x in rows && x != id && x !in rest ==> rows[x].decisionKey != Some(decisionKey)
        decreases |rest|
      {
        var x :| x in rest;
        if rows[x].decisionKey == Some(decisionKey) { return true; }
        rest := rest - {x};
      }
      return false;
    }

    method ConsumeApproval(id: ApprovalId, now: Time) returns (reply: Reply)
      modifies this
      ensures (rows, reply) == ConsumeStep(old(rows), Consume(id, now))
      ensures old(Valid(rows)) ==> Valid(rows) && !reply.Tampered?
    {
      ghost var was, op := rows, Consume(id, now);
      if Valid(was) { StepKeepsValid(was, op, ConsumeStep(was, op).0, ConsumeStep(was, op).1); }
      if id !in rows { return Missing; }
      var row := rows[id];
      if row.status != Approved && row.status != MaskedAndApproved { return WrongState; }
      if now >= row.expiresAt {
        rows := rows[id := row.(status := Expired)];
        return TooLate;
      }
      if row.intent != row.fingerprint { return Tampered; }
      var updated := row.(status := Consumed, consumedAt := Some(now));
      rows := rows[id := updated];
      return Ok(updated);
    }

    method RevokeApproval(id: ApprovalId, actor: string, now: Time) returns (reply: Reply)
      modifies this
      ensures (rows, reply) == RevokeStep(old(rows), Revoke(id, actor, now))
      ensures reply.Ok? <==> id in old(rows) && old(rows)[id].status in {Requested, Approved, MaskedAndApproved}
      ensures reply.Ok? ==>
                rows == old(rows)[id := old(rows)[id].(status := Revoked, actor := Some(actor), revokedAt := Some(now))]
      ensures old(Valid(rows)) ==> Valid(rows)
    {
      ghost var was, op := rows, Revoke(id, actor, now);
      if Valid(was) { StepKeepsValid(was, op, RevokeStep(was, op).0, RevokeStep(was, op).1); }
      if id !in rows { return Missing; }
      var row := rows[id];
      if row.status !in {Requested, Approved, MaskedAndApproved} { return WrongState; }
      var updated := row.(status := Revoked, actor := Some(actor), revokedAt := Some(now));
      rows := rows[id := updated];
      return Ok(updated);
    }

    method ExpireApproval(id: ApprovalId, now: Time) returns (reply: Reply)
      modifies this
      ensures (rows, reply) == ExpireStep(old(rows), Expire(id, now))
      ensures old(Valid(rows)) ==> Valid(rows)
    {
      ghost var was, op := rows, Expire(id, now);
      if Valid(was) { StepKeepsValid(was, op, ExpireStep(was, op).0, ExpireStep(was, op).1); }
      if id !in rows { return Missing; }
      if rows[id].status.Requested? && now >= rows[id].expiresAt {
        rows := rows[id := rows[id].(status := Expired)];
      }
      return Ok(rows[id]);
    }
  }
}
