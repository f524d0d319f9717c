/** What a request may rely on, in terms of the registry, the request and the outcomes
    of the calls: which providers are asked and in what order, why a request is
    refused, and what every attempt does to the breaker and to the request. */
module GatewayOutcomes {
  import opened TaskContracts
  import opened ModelGateway
  import B = CircuitBreakers
  import C = ResponseCache

  // ----- Routing -----

  /** The ids listed for a request: its own choice, then those of the rule for its
      task type, of the general rule, or the default provider. */
  ghost function Listed(reg: Registry, req: Request): seq<string> {
    (match req.requestedProvider case Some(id) => [id] case None => [])
    + if req.taskType in reg.rules then reg.rules[req.taskType].candidates
      else if "general" in reg.rules then reg.rules["general"].candidates
      else [reg.defaultProvider]
  }

  /** Routing visits the listed ids at their first occurrence and in their order; a
      request without fallback keeps the first one only. */
  lemma RoutingOrder(reg: Registry, req: Request) returns (at: seq<nat>)
    ensures InOrder(CandidateIds(reg, req), Listed(reg, req), at)
    ensures req.allowFallback ==> forall x :: x in Listed(reg, req) ==> x in CandidateIds(reg, req)
    ensures !req.allowFallback ==> CandidateIds(reg, req) == if Listed(reg, req) == [] then [] else [Listed(reg, req)[0]]
  {
    var all := Routed(reg, req);
    assert all == Listed(reg, req);
    hide Routed, Listed;
    if req.allowFallback || all == [] {
      at := FirstPlaces(all);
    } else {
      UniqueOfOne(all[0]);
      assert all[..1] == [all[0]];
      at := [0];
    }
  }

  /** `ids` are the values of `all` at the places `at`, each at its first occurrence. */
  ghost predicate InOrder(ids: seq<string>, all: seq<string>, at: seq<nat>) {
    && |at| == |ids|
    && (forall i, j :: 0 <= i < j < |at| ==> at[i] < at[j])
    && (forall i :: 0 <= i < |at| ==> at[i] < |all| && ids[i] == all[at[i]] && ids[i] !in all[..at[i]])
  }

  lemma UniqueOfOne(x: string)
    ensures Unique([x]) == [x]
  {
    assert [x][..0] == [];
  }

  lemma {:induction false} FirstPlaces(ids: seq<string>) returns (at: seq<nat>)
    ensures InOrder(Unique(ids), ids, at)
  {
    if ids == [] {
      at := [];
    } else {
      var n := |ids| - 1;
      var front := ids[..n];
      at := FirstPlaces(front);
      forall i | 0 <= i < |at| ensures ids[..at[i]] == front[..at[i]] { }
      if ids[n] !in front { at := at + [n]; }
    }
  }

  /** The rule whose limits apply requires this of the provider. */
  ghost predicate RuleAllows(rule: Rule, p: Provider) {
    && (rule.privateOnly ==> p.privateDeployment)
    && (forall c :: c in rule.required ==> c in p.capabilities)
    && (rule.maxLatencyMs.Some? ==> p.timeoutSeconds * 1000.0 <= rule.maxLatencyMs.value)
  }

  /** Everything the request, its data and its rule ask of a provider but the price. */
  ghost predicate MeetsLimits(reg: Registry, req: Request, p: Provider) {
    && p.enabled
    && (req.restricted || req.privateOnly ==> p.privateDeployment)
    && (forall c :: c in req.required ==> c in p.capabilities)
    && (req.taskType in p.taskTypes || "general" in p.taskTypes)
    && req.maxOutputTokens <= p.maxOutputTokens
    && PromptTokens(req) + req.maxOutputTokens <= p.maxContextTokens
    && (if req.taskType in reg.rules then RuleAllows(reg.rules[req.taskType], p)
        else "general" in reg.rules ==> RuleAllows(reg.rules["general"], p))
  }

  /** The largest possible bill, in millionths: prices are per million tokens. */
  ghost function Bill(req: Request, p: Provider): real {
    PromptTokens(req) as real * p.promptCost + req.maxOutputTokens as real * p.completionCost
  }

  /** Both the server's and the request's budget cover it. */
  ghost predicate WithinBudgets(reg: Registry, req: Request, p: Provider) {
    && Bill(req, p) <= 1000000.0 * reg.serverMaxCost
    && (req.maxCost.Some? ==> Bill(req, p) <= 1000000.0 * req.maxCost.value)
  }

  lemma AffordableMeans(reg: Registry, req: Request, p: Provider)
    ensures Affordable(reg, req, p) <==> WithinBudgets(reg, req, p)
  {
    var cost := WorstCaseCost(p, PromptTokens(req), req.maxOutputTokens);
    assert cost == Bill(req, p) / 1000000.0;
    hide Bill, WorstCaseCost, PromptTokens;
    assert cost * 1000000.0 == Bill(req, p);
  }

  lemma LimitsMean(reg: Registry, req: Request, p: Provider)
    ensures Suits(reg, req, p) <==> MeetsLimits(reg, req, p)
  {
    hide PromptTokens;
    var rule := RuleFor(reg, req);
    var required := req.required + if rule.Some? then rule.value.required else {};
    assert required <= p.capabilities <==>
      (forall c :: c in req.required ==> c in p.capabilities)
      && (rule.Some? ==> forall c :: c in rule.value.required ==> c in p.capabilities);
  }

  lemma UsableMeans(reg: Registry, req: Request, id: string)
    ensures Usable(reg, req, id)
            <==> id in reg.providers && MeetsLimits(reg, req, reg.providers[id]) && WithinBudgets(reg, req, reg.providers[id])
    ensures TooDear(reg, req, id)
            <==> id in reg.providers && MeetsLimits(reg, req, reg.providers[id]) && !WithinBudgets(reg, req, reg.providers[id])
  {
    hide Suits, Affordable, MeetsLimits, WithinBudgets;
    if id in reg.providers {
      AffordableMeans(reg, req, reg.providers[id]);
      LimitsMean(reg, req, reg.providers[id]);
    }
  }

  /** The length of the prompt adds up over its messages and is at least one token. */
  lemma PromptIsCounted(req: Request, a: seq<string>, b: seq<string>, m: string)
    ensures PromptTokens(req) >= 1 && (Length(req.messages) > 0 ==> PromptTokens(req) == Length(req.messages))
    ensures Length([]) == 0 && Length([m]) == |m| && Length(a + b) == Length(a) + Length(b)
  {
    assert [m][..0] == [];
    LengthAdds(a, b);
  }

  lemma {:induction false} LengthAdds(a: seq<string>, b: seq<string>)
    ensures Length(a + b) == Length(a) + Length(b)
  {
    if b == [] {
      assert a + b == a;
    } else {
      LengthAdds(a, b[..|b| - 1]);
      assert (a + b)[..|a + b| - 1] == a + b[..|b| - 1];
    }
  }

  /** A provider is selected if and only if it is routed to, meets every limit and is
      within both budgets; selected providers keep the routing order. */
  lemma SelectedExactly(reg: Registry, req: Request, p: Provider)
    requires WellFormed(reg)
    ensures p in Candidates(reg, req)
            <==> p.id in CandidateIds(reg, req) && p.id in reg.providers && reg.providers[p.id] == p
                 && MeetsLimits(reg, req, p) && WithinBudgets(reg, req, p)
  {
    hide Suits, Affordable, WithinBudgets, MeetsLimits;
    var ids := CandidateIds(reg, req);
    var at := KeepIsFilter(reg, req, ids);
    UsableMeans(reg, req, p.id);
    if p in Candidates(reg, req) {
      var i :| 0 <= i < |at| && Candidates(reg, req)[i] == p;
      assert Usable(reg, req, ids[at[i]]);
    } else if p.id in ids && Usable(reg, req, p.id) {
      var k :| 0 <= k < |ids| && ids[k] == p.id;
      var i :| 0 <= i < |at| && at[i] == k;
      assert Candidates(reg, req)[i] == reg.providers[p.id];
    }
  }

  /** A request that is restricted, private-only or under a private rule never reaches
      a provider that is not privately deployed, whatever happens on the way. */
  lemma PrivateStaysPrivate(reg: Registry, req: Request, hit: Option<C.Stored>, w: World, trail: seq<Try>, out: Outcome, t: Try)
    requires WellFormed(reg) && Gateway.Replied(reg, req, hit, w, trail, out) && t in trail
    requires req.restricted || req.privateOnly || (req.taskType in reg.rules && reg.rules[req.taskType].privateOnly)
             || (req.taskType !in reg.rules && "general" in reg.rules && reg.rules["general"].privateOnly)
    ensures t.provider in reg.providers && reg.providers[t.provider].privateDeployment
  {
    hide Suits, Affordable, WithinBudgets;
    RepliesAreUsable(reg, req, hit, w, trail, out);
    UsableMeans(reg, req, t.provider);
  }

  /** Every provider asked meets the limits and both budgets. */
  lemma AskedWithinLimits(reg: Registry, req: Request, hit: Option<C.Stored>, w: World, trail: seq<Try>, out: Outcome, t: Try)
    requires WellFormed(reg) && Gateway.Replied(reg, req, hit, w, trail, out) && t in trail
    ensures t.provider in reg.providers && t.provider in Listed(reg, req)
    ensures MeetsLimits(reg, req, reg.providers[t.provider]) && WithinBudgets(reg, req, reg.providers[t.provider])
  {
    hide Suits, Affordable, WithinBudgets, MeetsLimits;
    RepliesAreUsable(reg, req, hit, w, trail, out);
    UsableMeans(reg, req, t.provider);
    hide Usable, Tried, CandidateIds, Listed;
    var i :| 0 <= i < |trail| && trail[i] == t;
    var ps, ids := Candidates(reg, req), CandidateIds(reg, req);
    StepIsBounded(ps, w, trail, i);
    var at := KeepIsFilter(reg, req, ids);
    assert ps[i] == reg.providers[ids[at[i]]];
    var first := RoutingOrder(reg, req);
    assert ids[at[i]] in Listed(reg, req);
  }

  /** A routed provider that meets every limit and is within both budgets, or not. */
  ghost predicate Fits(reg: Registry, req: Request, id: string, affordable: bool) {
    && id in CandidateIds(reg, req) && id in reg.providers
    && MeetsLimits(reg, req, reg.providers[id]) && (WithinBudgets(reg, req, reg.providers[id]) <==> affordable)
  }

  /** Why a request is refused before anything is asked: its own provider is unknown;
      else nothing is left, and the budget is to blame exactly when some routed
      provider met everything else. */
  lemma RefusedExactly(reg: Registry, req: Request)
    requires WellFormed(reg)
    ensures RefusalOf(reg, req)
            == if req.requestedProvider.Some? && req.requestedProvider.value !in reg.providers then Some(UnknownProvider)
               else if exists id :: Fits(reg, req, id, true) then None
               else if exists id :: Fits(reg, req, id, false) then Some(OverBudget) else Some(NoProvider)
  {
    var ids := CandidateIds(reg, req);
    forall id
      ensures Fits(reg, req, id, true) <==> id in ids && Usable(reg, req, id)
      ensures Fits(reg, req, id, false) <==> id in ids && TooDear(reg, req, id)
    {
      UsableMeans(reg, req, id);
    }
    hide Fits, Usable, TooDear, CandidateIds;
    SomeUsable(reg, req, ids);
  }

  lemma SomeUsable(reg: Registry, req: Request, ids: seq<string>)
    requires WellFormed(reg)
    ensures Keep(reg, req, ids) != [] <==> exists id :: id in ids && Usable(reg, req, id)
  {
    hide Usable;
    var at := KeepIsFilter(reg, req, ids);
    if id :| id in ids && Usable(reg, req, id) {
      var k :| 0 <= k < |ids| && ids[k] == id;
      assert k in at;
    }
    if at != [] { assert Usable(reg, req, ids[at[0]]); }
  }

  // ----- Attempts -----

  /** The first thing that went wrong in an attempt: the audit before the call raised
      this, the call did, or the audit after it did. */
  ghost predicate EndsIn(a: AttemptWorld, audit: AuditResult, call: Generated) {
    || a.before == audit
    || (a.before == Recorded && a.generated == call)
    || (a.before == Recorded && a.generated.Text? && a.after == audit)
  }

  /** A timeout or a transport error: the only failures worth another attempt. */
  ghost predicate Passing(a: AttemptWorld) {
    EndsIn(a, AuditTimeout, GenerateTimeout) || EndsIn(a, AuditTransport, TransportError)
  }

  ghost predicate IsUnavailable(a: AttemptWorld) {
    EndsIn(a, AuditUnavailable, UnavailableError)
  }

  ghost predicate IsBadResponse(a: AttemptWorld) {
    EndsIn(a, AuditResponse, ResponseError)
  }

  /** An exception none of the handlers name. */
  ghost predicate Escapes(a: AttemptWorld) {
    EndsIn(a, AuditError, Crash)
  }

  /** Every attempt succeeds, or ends in exactly one of the four ways. */
  lemma AttemptsEnd(a: AttemptWorld)
    ensures AttemptOf(a).Done? <==> a.before == Recorded && a.generated.Text? && a.after == Recorded
    ensures AttemptOf(a).Done? ==> AttemptOf(a).content == a.generated.content
    ensures Retryable(AttemptOf(a)) <==> Passing(a)
    ensures AttemptOf(a).Unavailable? <==> IsUnavailable(a)
    ensures AttemptOf(a).BadResponse? <==> IsBadResponse(a)
    ensures AttemptOf(a).Fatal? <==> Escapes(a)
    ensures Failure(AttemptOf(a)) <==> Passing(a) || IsUnavailable(a) || IsBadResponse(a)
  {
  }

  /** The retry loop of a candidate that was admitted: another attempt follows exactly
      after a timeout or transport error with attempts left, a breaker that readmits
      and a recorded retry audit; the candidate answers exactly with its last text
      when both audits were recorded; an unavailable provider and a bad response are
      not retried. */
  lemma TriedMeans(p: Provider, w: World, k: nat, first: nat, t: Try)
    requires Tried(p, w, k, first, t)
    ensures var final := first + t.attempts - 1;
            var a := w.attempt(final);
            var again := Passing(a) && t.attempts < p.maxAttempts && w.readmits(final);
            && 1 <= t.attempts <= p.maxAttempts
            && (forall n: nat :: first <= n < final ==> Passing(w.attempt(n)) && w.readmits(n) && w.retryAudited(n))
            && !(again && w.retryAudited(final))
            && (t.end.Answered? <==> a == AttemptWorld(Recorded, a.generated, Recorded) && a.generated.Text?)
            && (t.end.Answered? ==> a.generated == Text(t.end.content))
            && (t.end.GaveUp? <==> (Passing(a) || IsUnavailable(a) || IsBadResponse(a)) && !again && w.failureAudited(final))
            && (t.end.Broken? <==> Escapes(a) || (again && !w.retryAudited(final))
                                   || ((Passing(a) || IsUnavailable(a) || IsBadResponse(a)) && !again && !w.failureAudited(final)))
  {
    hide EndsIn, Calls;
    forall n: nat | first <= n < first + t.attempts - 1 ensures Passing(w.attempt(n)) && w.readmits(n) && w.retryAudited(n) {
      assert WentOn(w, n);
      AttemptsEnd(w.attempt(n));
    }
    AttemptsEnd(w.attempt(first + t.attempts - 1));
  }

  ghost function FailuresIn(calls: seq<B.Event>): nat {
    if calls == [] then 0 else FailuresIn(calls[..|calls| - 1]) + if calls[|calls| - 1].Failure? then 1 else 0
  }

  ghost function SuccessesIn(calls: seq<B.Event>): nat {
    if calls == [] then 0 else SuccessesIn(calls[..|calls| - 1]) + if calls[|calls| - 1].Success? then 1 else 0
  }

  ghost function AsksIn(calls: seq<B.Event>): nat {
    if calls == [] then 0 else AsksIn(calls[..|calls| - 1]) + if calls[|calls| - 1].Ask? then 1 else 0
  }

  lemma OneMoreCall(calls: seq<B.Event>, e: B.Event)
    ensures FailuresIn(calls + [e]) == FailuresIn(calls) + if e.Failure? then 1 else 0
    ensures SuccessesIn(calls + [e]) == SuccessesIn(calls) + if e.Success? then 1 else 0
    ensures AsksIn(calls + [e]) == AsksIn(calls) + if e.Ask? then 1 else 0
  {
    assert (calls + [e])[..|calls|] == calls;
  }

  /** The attempts that came back with a text and both audits. */
  ghost predicate Succeeds(a: AttemptWorld) {
    a.before == Recorded && a.generated.Text? && a.after == Recorded
  }

  /** The breaker of an admitted candidate is asked once before the first attempt and
      once after every failed attempt that may be retried; it hears of every timeout,
      transport error and bad response as a failure, of the answer as a success, and
      of unavailability and escaping exceptions nothing at all. */
  lemma BreakerHears(p: Provider, w: World, k: nat, first: nat, t: Try)
    requires Tried(p, w, k, first, t)
    ensures var a := w.attempt(first + t.attempts - 1);
            && FailuresIn(t.calls) == t.attempts - (if Passing(a) || IsBadResponse(a) then 0 else 1)
            && SuccessesIn(t.calls) == (if t.end.Answered? then 1 else 0)
            && AsksIn(t.calls) == t.attempts + (if Passing(a) && t.attempts < p.maxAttempts then 1 else 0)
            && t.calls[0] == B.Ask(w.clock.asked(k))
  {
    hide EndsIn, Calls;
    var n := t.attempts - 1;
    forall m: nat | first <= m < first + n ensures Passing(w.attempt(m)) {
      assert WentOn(w, m);
      AttemptsEnd(w.attempt(m));
    }
    HeardSoFar(p, w, k, first, n);
    AttemptHeard(p, w, k, first, n);
    AttemptsEnd(w.attempt(first + n));
  }

  lemma OnlyOneEnd(a: AttemptWorld)
    ensures Passing(a) ==> !Succeeds(a)
  {
  }

  lemma {:induction false} HeardSoFar(p: Provider, w: World, k: nat, first: nat, n: nat)
    requires n < p.maxAttempts && forall m: nat :: first <= m < first + n ==> Passing(w.attempt(m))
    ensures var calls := Calls(p, w, k, first, n);
            FailuresIn(calls) == n && SuccessesIn(calls) == 0 && AsksIn(calls) == n + 1
            && calls != [] && calls[0] == B.Ask(w.clock.asked(k))
  {
    hide EndsIn, FailuresIn, SuccessesIn, AsksIn, Calls;
    if n == 0 {
      OnlyAsked(p, w, k, first);
    } else {
      HeardSoFar(p, w, k, first, n - 1);
      AttemptHeard(p, w, k, first, n - 1);
      OnlyOneEnd(w.attempt(first + n - 1));
    }
  }

  lemma OnlyAsked(p: Provider, w: World, k: nat, first: nat)
    ensures var calls := Calls(p, w, k, first, 0);
            calls == [B.Ask(w.clock.asked(k))] && FailuresIn(calls) == 0 && SuccessesIn(calls) == 0 && AsksIn(calls) == 1
  {
    OneMoreCall([], B.Ask(w.clock.asked(k)));
    assert [] + [B.Ask(w.clock.asked(k))] == [B.Ask(w.clock.asked(k))];
  }

  /** One more attempt and what the breaker is told and asked after it. */
  lemma AttemptHeard(p: Provider, w: World, k: nat, first: nat, n: nat)
    requires n < p.maxAttempts
    ensures var calls, more, a := Calls(p, w, k, first, n), Calls(p, w, k, first, n + 1), w.attempt(first + n);
            && FailuresIn(more) == FailuresIn(calls) + (if Passing(a) || IsBadResponse(a) then 1 else 0)
            && SuccessesIn(more) == SuccessesIn(calls) + (if Succeeds(a) then 1 else 0)
            && AsksIn(more) == AsksIn(calls) + (if Passing(a) && n + 1 < p.maxAttempts then 1 else 0)
            && (calls != [] ==> more != [] && more[0] == calls[0])
  {
    var calls, a := Calls(p, w, k, first, n), w.attempt(first + n);
    AttemptsEnd(a);
    var heard := HeardEvents(AttemptOf(a), w.clock.heard(first + n));
    var asked := Reask(p, w, first, n);
    hide EndsIn;
    assert heard == [] || heard == [heard[0]];
    if heard == [] { assert calls + heard == calls; } else { OneMoreCall(calls, heard[0]); }
    assert asked == [] || asked == [asked[0]];
    if asked == [] { assert calls + heard + asked == calls + heard; } else { OneMoreCall(calls + heard, asked[0]); }
  }
}
