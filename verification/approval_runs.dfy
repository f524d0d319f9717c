/** What each approval call answers and what it leaves behind, over whole runs and in
    terms of the rows alone. */
module ApprovalRuns {
  import opened TaskContracts
  import opened Approvals

  /** The call as it was made in the run. */
  ghost predicate Calls(tables: seq<Table>, calls: seq<Call>, i: nat, op: Op) {
    IsRun(tables, calls) && i < |calls| && calls[i].op == op
  }

  lemma StepOfCall(tables: seq<Table>, calls: seq<Call>, i: nat, op: Op)
    requires Calls(tables, calls, i, op)
    ensures Does(tables[i], op, tables[i + 1], calls[i].reply) && Valid(tables[i])
  {
    RunIsValid(tables, calls, i);
    assert Does(tables[i], calls[i].op, tables[i + 1], calls[i].reply);
  }

  // ----- Revocation -----

  /** A revocation succeeds exactly on a row that is requested, approved or approved
      with masked arguments, expired or not; else it changes nothing. */
  lemma RevokeAnswers(tables: seq<Table>, calls: seq<Call>, i: nat, id: ApprovalId, actor: string, now: Time)
    requires Calls(tables, calls, i, Revoke(id, actor, now))
    ensures calls[i].reply.Ok?
            <==> id in tables[i] && tables[i][id].status in {Requested, Approved, MaskedAndApproved}
    ensures !calls[i].reply.Ok? ==>
              tables[i + 1] == tables[i] && calls[i].reply == if id in tables[i] then WrongState else Missing
  {
    StepOfCall(tables, calls, i, Revoke(id, actor, now));
  }

  /** A revoked row stays revoked, with the actor and the time of the call and
      everything else as it was. */
  lemma RevokedForGood(tables: seq<Table>, calls: seq<Call>, i: nat, id: ApprovalId, actor: string, now: Time, j: nat)
    requires Calls(tables, calls, i, Revoke(id, actor, now)) && calls[i].reply.Ok? && i < j < |tables|
    ensures id in tables[i] && id in tables[j]
    ensures tables[j][id] == tables[i][id].(status := Revoked, actor := Some(actor), revokedAt := Some(now))
    ensures calls[i].reply.row == tables[j][id]
  {
    StepOfCall(tables, calls, i, Revoke(id, actor, now));
    RowsPersist(tables, calls, i + 1, j, id);
  }

  /** On a row that is denied, expired, revoked or consumed no consume, no revocation
      and no new decision succeeds, and nothing changes. */
  lemma NothingAfterTheEnd(tables: seq<Table>, calls: seq<Call>, i: nat, j: nat, id: ApprovalId)
    requires IsRun(tables, calls) && i <= j < |calls| && id in tables[i]
    requires tables[i][id].status in {Denied, Expired, Revoked, Consumed}
    requires !calls[j].op.Create? && calls[j].op.id == id
    ensures tables[j + 1] == tables[j]
    ensures calls[j].op.Consume? || calls[j].op.Revoke? ==> calls[j].reply == WrongState
    ensures calls[j].op.Decide? && !tables[i][id].status.Denied? ==> !calls[j].reply.Ok?
    ensures calls[j].op.Decide? && calls[j].reply.Ok? ==>
              calls[j].op.verdict.DenyIt? && tables[i][id].decisionKey == Some(calls[j].op.decisionKey)
    ensures calls[j].op.Expire? ==> calls[j].reply == Ok(tables[i][id])
  {
    StepOfCall(tables, calls, j, calls[j].op);
    RowsPersist(tables, calls, i, j, id);
  }

  // ----- Consumption -----

  /** A consume succeeds exactly on a row approved with or without masked arguments
      and before its expiry; on an overdue one it records the expiry. */
  lemma ConsumeAnswers(tables: seq<Table>, calls: seq<Call>, i: nat, id: ApprovalId, now: Time)
    requires Calls(tables, calls, i, Consume(id, now))
    ensures var t, reply := tables[i], calls[i].reply;
            && (reply.Ok? <==> id in t && t[id].status in {Approved, MaskedAndApproved} && now < t[id].expiresAt)
            && (reply.TooLate? <==> id in t && t[id].status in {Approved, MaskedAndApproved} && t[id].expiresAt <= now)
            && (reply.TooLate? ==> tables[i + 1] == t[id := t[id].(status := Expired)])
            && (!reply.Ok? && !reply.TooLate? ==> tables[i + 1] == t && reply == if id in t then WrongState else Missing)
  {
    StepOfCall(tables, calls, i, Consume(id, now));
  }

  /** A consumed row stays consumed at the time of the call. */
  lemma ConsumedForGood(tables: seq<Table>, calls: seq<Call>, i: nat, id: ApprovalId, now: Time, j: nat)
    requires Calls(tables, calls, i, Consume(id, now)) && calls[i].reply.Ok? && i < j < |tables|
    ensures id in tables[i] && id in tables[j]
    ensures tables[j][id] == tables[i][id].(status := Consumed, consumedAt := Some(now))
    ensures calls[i].reply.row == tables[j][id]
  {
    StepOfCall(tables, calls, i, Consume(id, now));
    RowsPersist(tables, calls, i + 1, j, id);
  }

  // ----- Decisions -----

  /** The row was decided like this with this key before. */
  ghost predicate DecidedAlike(r: Row, verdict: Verdict, key: string) {
    r.decisionKey == Some(key)
    && r.status == match verdict case AllowIt => Approved case DenyIt => Denied case MaskAndAllowIt => MaskedAndApproved
  }

  /** A decision succeeds exactly as the repetition of an earlier one, or on an open
      request before its expiry under a key no other row has; a masking one needs
      arguments.  An overdue request becomes expired. */
  lemma DecideAnswers(tables: seq<Table>, calls: seq<Call>, i: nat, op: Op)
    requires Calls(tables, calls, i, op) && op.Decide?
    ensures var t, reply := tables[i], calls[i].reply;
            var complete := op.verdict.MaskAndAllowIt? ==> op.masked.Some? && op.masked.value != map[];
            && (reply.Invalid? <==> !complete) && (reply.Missing? <==> complete && op.id !in t)
            && (complete && op.id in t ==>
                  var r := t[op.id];
                  var repeated := DecidedAlike(r, op.verdict, op.decisionKey);
                  var free := forall x :: x in t && x != op.id ==> t[x].decisionKey != Some(op.decisionKey);
                  && (reply.Ok? <==> repeated || (r.status.Requested? && op.now < r.expiresAt && free))
                  && (reply.TooLate? <==> !repeated && r.status.Requested? && r.expiresAt <= op.now)
                  && (reply.KeyTaken? <==> r.status.Requested? && op.now < r.expiresAt && !free)
                  && (reply.WrongState? <==> !repeated && !r.status.Requested?)
                  && (repeated ==> tables[i + 1] == t && reply == Ok(r))
                  && (reply.TooLate? ==> tables[i + 1] == t[op.id := r.(status := Expired)]))
            && (!reply.Ok? && !reply.TooLate? ==> tables[i + 1] == t)
  {
    StepOfCall(tables, calls, i, op);
  }

  /** A decision that was not a repetition is what the row says until it is consumed,
      revoked or expires: who decided what, when, under which key and with which
      arguments, and nothing else. */
  lemma DecisionStands(tables: seq<Table>, calls: seq<Call>, i: nat, op: Op, j: nat)
    requires Calls(tables, calls, i, op) && op.Decide? && calls[i].reply.Ok? && i < j < |tables|
    requires op.id in tables[i] && tables[i][op.id].status.Requested?
    ensures op.id in tables[j]
    ensures var status := match op.verdict case AllowIt => Approved case DenyIt => Denied case MaskAndAllowIt => MaskedAndApproved;
            var decided := tables[i][op.id].(
                  status := status, actor := Some(op.actor), decisionKey := Some(op.decisionKey), decidedAt := Some(op.now),
                  maskedArgs := (match op.masked case Some(args) => args case None => map[]), comment := op.comment);
            && tables[i + 1][op.id] == decided && calls[i].reply == Ok(decided)
            && (tables[j][op.id].status in {Approved, MaskedAndApproved, Denied} ==> tables[j][op.id] == decided)
            && (op.verdict.DenyIt? ==> tables[j][op.id] == decided)
            && tables[j][op.id].status !in {Requested}
  {
    StepOfCall(tables, calls, i, op);
    DecidedRowStands(tables, calls, i + 1, j, op.id);
    RowsPersist(tables, calls, i + 1, j, op.id);
  }

  // ----- Expiry -----

  /** An open request is expired exactly when it is overdue, and stays expired; every
      other row is answered as it is. */
  lemma ExpireAnswers(tables: seq<Table>, calls: seq<Call>, i: nat, id: ApprovalId, now: Time)
    requires Calls(tables, calls, i, Expire(id, now))
    ensures var t, t', reply := tables[i], tables[i + 1], calls[i].reply;
            if id !in t then t' == t && reply == Missing
            else
              && t' == (if t[id].status.Requested? && t[id].expiresAt <= now then t[id := t[id].(status := Expired)] else t)
              && reply == Ok(t'[id])
  {
    StepOfCall(tables, calls, i, Expire(id, now));
  }

  /** A row that expired in a call stays expired. */
  lemma ExpiredForGood(tables: seq<Table>, calls: seq<Call>, i: nat, id: ApprovalId, j: nat)
    requires IsRun(tables, calls) && i < j < |tables| && id in tables[i + 1] && tables[i + 1][id].status.Expired?
    ensures id in tables[j] && tables[j][id] == tables[i + 1][id]
  {
    RowsPersist(tables, calls, i + 1, j, id);
  }

  // ----- Creation -----

  /** A create inserts exactly when its lifetime is allowed and neither its key nor its
      request nor its id is known; the request then stands in every later table. */
  lemma CreateAnswers(tables: seq<Table>, calls: seq<Call>, i: nat, op: Op, j: nat)
    requires Calls(tables, calls, i, op) && op.Create? && i < j < |tables|
    ensures var t, reply := tables[i], calls[i].reply;
            var lifetime := 1 <= op.ttl <= 86_400;
            var known := exists x :: x in t && (t[x].idempotencyKey == op.key || (t[x].trace == op.trace && t[x].request == op.request));
            if lifetime && !known && op.id !in t then
              var row := Row(op.id, op.trace, op.request, Requested, None, op.key, None, op.now, op.now + op.ttl * 1_000_000,
                             None, None, None, op.intent, op.ticket, op.intent, map[], "");
              && tables[i + 1] == t[op.id := row] && reply == Ok(row)
              && op.id in tables[j] && SameRequest(row, tables[j][op.id])
            else
              && tables[i + 1] == t
              && (!lifetime <==> reply.Invalid?) && (lifetime && !known <==> reply.Unavailable?)
              && (reply.Ok? ==> reply.row.id in t && t[reply.row.id] == reply.row && reply.row.intent == op.intent)
  {
    StepOfCall(tables, calls, i, op);
    if op.id in tables[i + 1] { RowsPersist(tables, calls, i + 1, j, op.id); }
  }
}
