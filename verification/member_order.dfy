/** The order Redis gives members with equal scores: that of their text
    `pool|task_id|generation`.  Pool names differ in their first letter and task ids
    have one length, so only the generation's digits need comparing as text. */
module MemberOrder {
  import opened TaskContracts
  import opened StoreState

  /** "agent", "evaluation", "security". */
  function PoolRank(p: Pool): nat {
    match p case AgentPool => 0 case EvaluationPool => 1 case SecurityPool => 2
  }

  function Decimal(n: nat): (digits: seq<nat>)
    ensures |digits| >= 1
  {
    if n < 10 then [n] else Decimal(n / 10) + [n % 10]
  }

  predicate TextLess(a: seq<nat>, b: seq<nat>) {
    b != [] && (a == [] || a[0] < b[0] || (a[0] == b[0] && TextLess(a[1..], b[1..])))
  }

  predicate MemberLess(m: Member, n: Member) {
    || PoolRank(m.pool) < PoolRank(n.pool)
    || (m.pool == n.pool && (m.id < n.id || (m.id == n.id && TextLess(Decimal(m.generation), Decimal(n.generation)))))
  }

  /** m comes no later than n in the outbox. */
  predicate Sooner(outbox: map<Member, int>, m: Member, n: Member)
    requires m in outbox && n in outbox
  {
    outbox[m] < outbox[n] || (outbox[m] == outbox[n] && (m == n || MemberLess(m, n)))
  }

  lemma {:induction false} TextIsTotal(a: seq<nat>, b: seq<nat>)
    ensures a == b || TextLess(a, b) || TextLess(b, a)
    ensures !(TextLess(a, b) && TextLess(b, a)) && !TextLess(a, a)
  {
    if a != [] {
      TextIsTotal(a[1..], a[1..]);
      if b != [] {
        TextIsTotal(a[1..], b[1..]);
        assert a == [a[0]] + a[1..] && b == [b[0]] + b[1..];
      }
    }
  }

  lemma {:induction false} TextIsTransitive(a: seq<nat>, b: seq<nat>, c: seq<nat>)
    requires TextLess(a, b) && TextLess(b, c)
    ensures TextLess(a, c)
  {
    if a != [] && a[0] == b[0] && b[0] == c[0] { TextIsTransitive(a[1..], b[1..], c[1..]); }
  }

  lemma {:induction false} DecimalIsInjective(m: nat, n: nat)
    requires Decimal(m) == Decimal(n)
    ensures m == n
  {
    var a, b := Decimal(m), Decimal(n);
    if m >= 10 && n >= 10 {
      assert a[..|a| - 1] == Decimal(m / 10) && b[..|b| - 1] == Decimal(n / 10);
      assert a[|a| - 1] == m % 10 && b[|b| - 1] == n % 10;
      DecimalIsInjective(m / 10, n / 10);
    }
  }

  lemma SoonerIsTotal(outbox: map<Member, int>, m: Member, n: Member)
    requires m in outbox && n in outbox
    ensures Sooner(outbox, m, n) || Sooner(outbox, n, m)
    ensures Sooner(outbox, m, n) && Sooner(outbox, n, m) ==> m == n
  {
    TextIsTotal(Decimal(m.generation), Decimal(n.generation));
    if Decimal(m.generation) == Decimal(n.generation) { DecimalIsInjective(m.generation, n.generation); }
  }

  lemma SoonerIsTransitive(outbox: map<Member, int>, a: Member, b: Member, c: Member)
    requires a in outbox && b in outbox && c in outbox && Sooner(outbox, a, b) && Sooner(outbox, b, c)
    ensures Sooner(outbox, a, c)
  {
    if TextLess(Decimal(a.generation), Decimal(b.generation)) && TextLess(Decimal(b.generation), Decimal(c.generation)) {
      TextIsTransitive(Decimal(a.generation), Decimal(b.generation), Decimal(c.generation));
    }
  }

  /** ZRANGEBYSCORE on the outbox from 0: the earliest members due at a time, in order. */
  ghost predicate DueMembers(outbox: map<Member, int>, nowMs: int, limit: nat, due: seq<Member>) {
    && |due| <= limit
    && (forall i :: 0 <= i < |due| ==> due[i] in outbox && 0 <= outbox[due[i]] <= nowMs)
    && (forall i, j :: 0 <= i < j < |due| ==> due[i] != due[j] && Sooner(outbox, due[i], due[j]))
    && (forall m :: m in outbox && 0 <= outbox[m] <= nowMs && m !in due ==>
          |due| == limit && forall i :: 0 <= i < |due| ==> Sooner(outbox, due[i], m))
  }

  /** There is only one such list. */
  lemma DueIsDetermined(outbox: map<Member, int>, nowMs: int, limit: nat, a: seq<Member>, b: seq<Member>)
    requires DueMembers(outbox, nowMs, limit, a) && DueMembers(outbox, nowMs, limit, b)
    ensures a == b
  {
    if |a| < |b| { SameAt(outbox, nowMs, limit, a, b, |a|); }
    if |b| < |a| { SameAt(outbox, nowMs, limit, a, b, |b|); }
    forall k: nat | k < |a| ensures a[k] == b[k] { SameAt(outbox, nowMs, limit, a, b, k); }
  }

  lemma {:induction false} SameAt(outbox: map<Member, int>, nowMs: int, limit: nat, a: seq<Member>, b: seq<Member>, k: nat)
    requires DueMembers(outbox, nowMs, limit, a) && DueMembers(outbox, nowMs, limit, b) && (k < |a| || k < |b|)
    ensures k < |a| && k < |b| && a[k] == b[k]
    decreases k
  {
    if k > 0 { SameAt(outbox, nowMs, limit, a, b, k - 1); }
    forall i: nat | i < k ensures i < |a| && i < |b| && a[i] == b[i] { SameAt(outbox, nowMs, limit, a, b, i); }
    if k < |a| { ThereToo(outbox, nowMs, limit, a, b, k); }
    if k < |b| { ThereToo(outbox, nowMs, limit, b, a, k); }
    SoonerIsTotal(outbox, a[k], b[k]);
  }

  /** The k-th member of one list is in the other, where k members agree, and not
      before position k. */
  lemma ThereToo(outbox: map<Member, int>, nowMs: int, limit: nat, a: seq<Member>, b: seq<Member>, k: nat)
    requires DueMembers(outbox, nowMs, limit, a) && DueMembers(outbox, nowMs, limit, b) && k < |a| && k <= |b|
    requires forall i :: 0 <= i < k ==> a[i] == b[i]
    ensures k < |b| && Sooner(outbox, b[k], a[k])
  {
    if a[k] in b {
      var j :| 0 <= j < |b| && b[j] == a[k];
      assert j >= k;
    }
  }
}
