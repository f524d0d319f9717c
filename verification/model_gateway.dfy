/** Candidate selection, the cache and ordered fallback of the Model Gateway.
    Providers, audits and breaker answers are inputs, so that requests running
    beside this one may have changed the breakers at any await; `Alone` says what
    the breaker answers when none did. */
module ModelGateway {
  import opened TaskContracts
  import B = CircuitBreakers
  import C = ResponseCache

  datatype Provider = Provider(
    id: string, enabled: bool, privateDeployment: bool, capabilities: set<string>, taskTypes: set<string>,
    maxContextTokens: nat, maxOutputTokens: nat, promptCost: real, completionCost: real,
    timeoutSeconds: real, maxAttempts: nat)

  datatype Rule = Rule(candidates: seq<string>, required: set<string>, privateOnly: bool, maxLatencyMs: Option<real>)

  datatype Registry = Registry(providers: map<string, Provider>, rules: map<string, Rule>, defaultProvider: string,
                               serverMaxCost: real)

  datatype Request = Request(
    messages: seq<string>, taskType: string, requestedProvider: Option<string>, allowFallback: bool,
    required: set<string>, privateOnly: bool, restricted: bool, maxOutputTokens: nat, maxCost: Option<real>,
    cacheEnabled: bool)

  datatype GatewayError = UnknownProvider | OverBudget | NoProvider | AllFailed | Aborted | AuditFailed

  datatype Selection = Eligible(providers: seq<Provider>) | Refused(error: GatewayError)

  /** The validated configuration. */
  predicate WellFormed(reg: Registry) {
    && reg.defaultProvider in reg.providers
    && (forall id :: id in reg.providers ==> reg.providers[id].id == id && 1 <= reg.providers[id].maxAttempts <= 3)
    && (forall t :: t in reg.rules ==> forall c :: c in reg.rules[t].candidates ==> c in reg.providers)
  }

  // ----- Routing -----

  function RuleFor(reg: Registry, req: Request): Option<Rule> {
    if req.taskType in reg.rules then Some(reg.rules[req.taskType])
    else if "general" in reg.rules then Some(reg.rules["general"]) else None
  }

  /** `dict.fromkeys`: first occurrences, in order. */
  function Unique(ids: seq<string>): (r: seq<string>)
    ensures forall x :: x in r <==> x in ids
    ensures forall i, j :: 0 <= i < j < |r| ==> r[i] != r[j]
    ensures |r| <= |ids| && (ids != [] ==> r != [] && r[0] == ids[0])
  {
    if ids == [] then []
    else
      var init, last := ids[..|ids| - 1], ids[|ids| - 1];
      assert ids == init + [last];
      if last in init then Unique(init) else Unique(init) + [last]
  }

  function Routed(reg: Registry, req: Request): seq<string> {
    (if req.requestedProvider.Some? then [req.requestedProvider.value] else [])
    + match RuleFor(reg, req) case Some(rule) => rule.candidates case None => [reg.defaultProvider]
  }

  /** `_candidate_ids`. */
  function CandidateIds(reg: Registry, req: Request): seq<string> {
    var all := Routed(reg, req);
    Unique(if req.allowFallback || |all| == 0 then all else all[..1])
  }

  function Length(messages: seq<string>): nat {
    if messages == [] then 0 else Length(messages[..|messages| - 1]) + |messages[|messages| - 1]|
  }

  /** `_prompt_tokens`: one code point is at most one token. */
  function PromptTokens(req: Request): nat {
    if Length(req.messages) == 0 then 1 else Length(req.messages)
  }

  function WorstCaseCost(p: Provider, promptTokens: nat, outputTokens: nat): real {
    (promptTokens as real * p.promptCost + outputTokens as real * p.completionCost) / 1000000.0
  }

  function Budget(reg: Registry, req: Request): real {
    match req.maxCost
    case None => reg.serverMaxCost
    case Some(c) => if c < reg.serverMaxCost then c else reg.serverMaxCost
  }

  /** Every limit but the cost. */
  predicate Suits(reg: Registry, req: Request, p: Provider) {
    var rule := RuleFor(reg, req);
    var required := req.required + if rule.Some? then rule.value.required else {};
    var private := req.privateOnly || req.restricted || (rule.Some? && rule.value.privateOnly);
    && p.enabled
    && (private ==> p.privateDeployment)
    && required <= p.capabilities
    && (req.taskType in p.taskTypes || "general" in p.taskTypes)
    && req.maxOutputTokens <= p.maxOutputTokens
    && PromptTokens(req) + req.maxOutputTokens <= p.maxContextTokens
    && (rule.Some? && rule.value.maxLatencyMs.Some? ==> p.timeoutSeconds * 1000.0 <= rule.value.maxLatencyMs.value)
  }

  predicate Affordable(reg: Registry, req: Request, p: Provider) {
    WorstCaseCost(p, PromptTokens(req), req.maxOutputTokens) <= Budget(reg, req)
  }

  predicate Usable(reg: Registry, req: Request, id: string) {
    id in reg.providers && Suits(reg, req, reg.providers[id]) && Affordable(reg, req, reg.providers[id])
  }

  /** A candidate that only the budget excludes. */
  predicate TooDear(reg: Registry, req: Request, id: string) {
    id in reg.providers && Suits(reg, req, reg.providers[id]) && !Affordable(reg, req, reg.providers[id])
  }

  /** The usable candidates, in routing order. */
  function Keep(reg: Registry, req: Request, ids: seq<string>): (r: seq<Provider>)
    ensures |r| <= |ids|
  {
    if ids == [] then []
    else
      var last := ids[|ids| - 1];
      Keep(reg, req, ids[..|ids| - 1]) + if Usable(reg, req, last) then [reg.providers[last]] else []
  }

  function Candidates(reg: Registry, req: Request): seq<Provider> {
    Keep(reg, req, CandidateIds(reg, req))
  }

  /** The positions of the usable candidates among the first n. */
  function Places(reg: Registry, req: Request, ids: seq<string>, n: nat): (at: seq<nat>)
    requires n <= |ids|
    ensures forall k :: k in at <==> 0 <= k < n && Usable(reg, req, ids[k])
    ensures forall i, j :: 0 <= i < j < |at| ==> at[i] < at[j]
  {
    if n == 0 then []
    else
      var before := Places(reg, req, ids, n - 1);
      assert forall i :: 0 <= i < |before| ==> before[i] in before;
      if Usable(reg, req, ids[n - 1]) then before + [n - 1] else before
  }

  /** Selection is a filter of the routing order: it keeps exactly the usable
      candidates, each once, and in that order. */
  lemma KeepIsFilter(reg: Registry, req: Request, ids: seq<string>) returns (at: seq<nat>)
    requires WellFormed(reg)
    ensures |at| == |Keep(reg, req, ids)|
    ensures forall i :: 0 <= i < |at| ==>
              at[i] < |ids| && Usable(reg, req, ids[at[i]]) && Keep(reg, req, ids)[i] == reg.providers[ids[at[i]]]
    ensures forall i, j :: 0 <= i < j < |at| ==> at[i] < at[j]
    ensures forall k :: 0 <= k < |ids| && Usable(reg, req, ids[k]) ==> k in at
  {
    at := Places(reg, req, ids, |ids|);
    assert ids[..|ids|] == ids;
    assert forall i :: 0 <= i < |at| ==> at[i] in at;
    KeptCount(reg, req, ids, |ids|);
    forall i | 0 <= i < |at| ensures Keep(reg, req, ids)[i] == reg.providers[ids[at[i]]] {
      KeptAt(reg, req, ids, |ids|, i);
    }
  }

  lemma {:induction false} KeptCount(reg: Registry, req: Request, ids: seq<string>, n: nat)
    requires n <= |ids|
    ensures |Places(reg, req, ids, n)| == |Keep(reg, req, ids[..n])|
  {
    hide Suits, Affordable;
    if n > 0 {
      KeptCount(reg, req, ids, n - 1);
      OneMore(reg, req, ids, n - 1);
    }
  }

  lemma {:induction false} KeptAt(reg: Registry, req: Request, ids: seq<string>, n: nat, i: nat)
    requires n <= |ids| && i < |Places(reg, req, ids, n)|
    ensures var at := Places(reg, req, ids, n);
            at[i] < |ids| && Usable(reg, req, ids[at[i]])
            && i < |Keep(reg, req, ids[..n])| && Keep(reg, req, ids[..n])[i] == reg.providers[ids[at[i]]]
  {
    hide Suits, Affordable;
    KeptCount(reg, req, ids, n - 1);
    OneMore(reg, req, ids, n - 1);
    if i < |Places(reg, req, ids, n - 1)| { KeptAt(reg, req, ids, n - 1, i); }
  }

  /** How many of the candidates only the budget excludes. */
  function Dear(reg: Registry, req: Request, ids: seq<string>): nat {
    if ids == [] then 0
    else Dear(reg, req, ids[..|ids| - 1]) + if TooDear(reg, req, ids[|ids| - 1]) then 1 else 0
  }

  lemma {:induction false} DearIsCount(reg: Registry, req: Request, ids: seq<string>)
    ensures Dear(reg, req, ids) > 0 <==> exists id :: id in ids && TooDear(reg, req, id)
  {
    if ids != [] {
      var init, last := ids[..|ids| - 1], ids[|ids| - 1];
      DearIsCount(reg, req, init);
      assert ids == init + [last];
    }
  }

  lemma OneMore(reg: Registry, req: Request, ids: seq<string>, k: nat)
    requires k < |ids|
    ensures Keep(reg, req, ids[..k + 1])
            == Keep(reg, req, ids[..k]) + if Usable(reg, req, ids[k]) then [reg.providers[ids[k]]] else []
    ensures Dear(reg, req, ids[..k + 1]) == Dear(reg, req, ids[..k]) + if TooDear(reg, req, ids[k]) then 1 else 0
  {
    assert ids[..k + 1][..k] == ids[..k];
  }

  /** Why there is no candidate, if there is none. */
  ghost function RefusalOf(reg: Registry, req: Request): Option<GatewayError> {
    var ids := CandidateIds(reg, req);
    if req.requestedProvider.Some? && req.requestedProvider.value !in reg.providers then Some(UnknownProvider)
    else if Candidates(reg, req) != [] then None
    else if exists id :: id in ids && TooDear(reg, req, id) then Some(OverBudget)
    else Some(NoProvider)
  }

  lemma NothingMissing(required: set<string>, capabilities: set<string>)
    ensures required - capabilities == {} <==> required <= capabilities
  {
    forall x | x in required && x !in capabilities ensures x in required - capabilities { }
  }

  /** The loop of `_eligible_candidates`: it raises for a requested provider nobody
      knows and passes over a candidate at the first limit it does not meet. */
  method FilterCandidates(reg: Registry, req: Request, ids: seq<string>)
    returns (unknown: bool, eligible: seq<Provider>, budgetRejections: nat)
    requires WellFormed(reg)
    requires forall id :: id in ids && id !in reg.providers ==> req.requestedProvider == Some(id)
    ensures unknown <==> exists id :: id in ids && id !in reg.providers
    ensures !unknown ==> eligible == Keep(reg, req, ids) && budgetRejections == Dear(reg, req, ids)
  {
    var rule := RuleFor(reg, req);
    var required := req.required + if rule.Some? then rule.value.required else {};
    var privateOnly := req.privateOnly || (rule.Some? && rule.value.privateOnly);
    if req.restricted { privateOnly := true; }
    var latency := if rule.Some? then rule.value.maxLatencyMs else None;
    var promptTokens, budget := PromptTokens(req), Budget(reg, req);
    unknown, eligible, budgetRejections := false, [], 0;
    for k := 0 to |ids|
      invariant eligible == Keep(reg, req, ids[..k]) && budgetRejections == Dear(reg, req, ids[..k]) && !unknown
      invariant forall i :: 0 <= i < k ==> ids[i] in reg.providers
    {
      if ids[k] !in reg.providers {
        assert ids[k] in ids;
        return true, eligible, budgetRejections;
      }
      OneMore(reg, req, ids, k);
      var p := reg.providers[ids[k]];
      var missing := required - p.capabilities;
      NothingMissing(required, p.capabilities);
      if !p.enabled { continue; }
      if privateOnly && !p.privateDeployment { continue; }
      if missing != {} { continue; }
      if req.taskType !in p.taskTypes && "general" !in p.taskTypes { continue; }
      if req.maxOutputTokens > p.maxOutputTokens { continue; }
      if promptTokens + req.maxOutputTokens > p.maxContextTokens { continue; }
      if latency.Some? && p.timeoutSeconds * 1000.0 > latency.value { continue; }
      if WorstCaseCost(p, promptTokens, req.maxOutputTokens) > budget {
        budgetRejections := budgetRejections + 1;
        continue;
      }
      eligible := eligible + [p];
    }
    assert ids[..|ids|] == ids;
  }

  /** `_eligible_candidates`. */
  method EligibleCandidates(reg: Registry, req: Request) returns (r: Selection)
    requires WellFormed(reg)
    ensures match RefusalOf(reg, req)
            case Some(error) => r == Refused(error)
            case None => r == Eligible(Candidates(reg, req)) && Candidates(reg, req) != []
  {
    var ids := CandidateIds(reg, req);
    KnownCandidates(reg, req);
    var unknown, eligible, budgetRejections := FilterCandidates(reg, req, ids);
    DearIsCount(reg, req, ids);
    if unknown {
      r := Refused(UnknownProvider);
    } else if eligible == [] {
      r := Refused(if budgetRejections > 0 then OverBudget else NoProvider);
    } else {
      r := Eligible(eligible);
    }
  }

  /** Only a requested provider can be unknown, and it always comes first. */
  lemma KnownCandidates(reg: Registry, req: Request)
    requires WellFormed(reg)
    ensures forall id :: id in CandidateIds(reg, req) && id !in reg.providers ==> req.requestedProvider == Some(id)
    ensures req.requestedProvider.Some? ==> req.requestedProvider.value in CandidateIds(reg, req)
    ensures !req.allowFallback ==> |CandidateIds(reg, req)| <= 1
  {
    var all := Routed(reg, req);
    assert all == (if req.requestedProvider.Some? then [req.requestedProvider.value] else [])
                  + match RuleFor(reg, req) case Some(rule) => rule.candidates case None => [reg.defaultProvider];
    if req.requestedProvider.Some? { assert all[0] == req.requestedProvider.value; }
  }

  // ----- One attempt -----

  /** How an audit ends; the hook may raise anything, the gateway's own provider
      errors included. */
  datatype AuditResult = Recorded | AuditTimeout | AuditTransport | AuditUnavailable | AuditResponse | AuditError

  datatype Generated = Text(content: string) | GenerateTimeout | TransportError | UnavailableError | ResponseError | Crash

  /** The attempt audit, the provider call and the response audit. */
  datatype AttemptWorld = AttemptWorld(before: AuditResult, generated: Generated, after: AuditResult)

  datatype AttemptResult = Done(content: string) | Late | Transport | Unavailable | BadResponse | Fatal

  /** The handlers of the try block, for an audit that raised. */
  function Caught(audit: AuditResult): AttemptResult
    requires !audit.Recorded?
  {
    match audit
    case AuditTimeout => Late
    case AuditTransport => Transport
    case AuditUnavailable => Unavailable
    case AuditResponse => BadResponse
    case AuditError => Fatal
  }

  /** The try block of an attempt.  The audits run inside it, so its handlers catch
      what they raise. */
  function AttemptOf(a: AttemptWorld): AttemptResult {
    if !a.before.Recorded? then Caught(a.before)
    else
      match a.generated
      case GenerateTimeout => Late
      case TransportError => Transport
      case UnavailableError => Unavailable
      case ResponseError => BadResponse
      case Crash => Fatal
      case Text(content) => if a.after.Recorded? then Done(content) else Caught(a.after)
  }

  predicate AuditFailure(a: AttemptWorld) {
    !a.before.Recorded? || (a.generated.Text? && !a.after.Recorded?)
  }

  /** The audit that failed. */
  function FailedAudit(a: AttemptWorld): (r: AuditResult)
    requires AuditFailure(a)
  {
    if a.before.Recorded? then a.after else a.before
  }

  predicate Retryable(r: AttemptResult) {
    r.Late? || r.Transport?
  }

  /** The failures that reach the provider's counters. */
  predicate Failure(r: AttemptResult) {
    Retryable(r) || r.Unavailable? || r.BadResponse?
  }

  /** The breaker hears of every failure but unavailability. */
  function HeardEvents(r: AttemptResult, now: real): seq<B.Event> {
    match r
    case Done(_) => [B.Success]
    case Unavailable => []
    case Fatal => []
    case _ => [B.Failure(now)]
  }

  // ----- One provider -----

  /** Outcomes by number of attempt in the request, and by number of candidate. */
  datatype World = World(
    hitAudited: bool, routedAudited: bool,
    admits: nat -> bool, skipAudited: nat -> bool,
    attempt: nat -> AttemptWorld, readmits: nat -> bool, retryAudited: nat -> bool, failureAudited: nat -> bool,
    closingAudited: bool, clock: Clock)

  /** The readings of a breaker's clock, before a candidate, when an attempt's
      failure is recorded, and before its retry; and those of the cache. */
  datatype Clock = Clock(asked: nat -> real, heard: nat -> real, reasked: nat -> real, lookup: real, store: real)

  datatype End = Skipped | Answered(content: string) | GaveUp | Broken

  /** What happened at one candidate; `calls` are the calls made on its breaker. */
  datatype Try = Try(provider: string, attempts: nat, calls: seq<B.Event>, end: End)

  /** After attempt i of a candidate its breaker is asked again. */
  predicate AsksAgain(p: Provider, w: World, first: nat, i: nat) {
    Retryable(AttemptOf(w.attempt(first + i))) && i + 1 < p.maxAttempts
  }

  function Reask(p: Provider, w: World, first: nat, i: nat): seq<B.Event> {
    if AsksAgain(p, w, first, i) then [B.Ask(w.clock.reasked(first + i))] else []
  }

  /** The calls on the breaker of candidate k up to the outcome of attempt i. */
  function CallsHeard(p: Provider, w: World, k: nat, first: nat, i: nat): seq<B.Event>
    decreases i, 1
  {
    Calls(p, w, k, first, i) + HeardEvents(AttemptOf(w.attempt(first + i)), w.clock.heard(first + i))
  }

  /** ... and those of n whole attempts. */
  function Calls(p: Provider, w: World, k: nat, first: nat, n: nat): seq<B.Event>
    decreases n, 0
  {
    if n == 0 then [B.Ask(w.clock.asked(k))]
    else CallsHeard(p, w, k, first, n - 1) + Reask(p, w, first, n - 1)
  }

  datatype ProviderCounters = ProviderCounters(calls: nat, successes: nat, failures: nat)

  const NO_CALLS := ProviderCounters(0, 0, 0)

  /** Attempt n failed, its breaker admitted another one and the retry was audited. */
  predicate WentOn(w: World, n: nat) {
    Retryable(AttemptOf(w.attempt(n))) && w.readmits(n) && w.retryAudited(n)
  }

  /** The attempts of an admitted candidate, numbered from `first`. */
  ghost predicate Tried(p: Provider, w: World, k: nat, first: nat, t: Try) {
    && t.provider == p.id && 1 <= t.attempts <= p.maxAttempts && !t.end.Skipped?
    && t.calls == Calls(p, w, k, first, t.attempts)
    && (forall n: nat :: first <= n < first + t.attempts - 1 ==> WentOn(w, n))
    && var final := first + t.attempts - 1;
       var last := AttemptOf(w.attempt(final));
       var again := Retryable(last) && t.attempts < p.maxAttempts && w.readmits(final);
       match t.end
       case Answered(content) => last == Done(content)
       case GaveUp => Failure(last) && !again && w.failureAudited(final)
       case Broken => last.Fatal? || (again && !w.retryAudited(final)) || (Failure(last) && !again && !w.failureAudited(final))
       case Skipped => false
  }

  function Sum(trail: seq<Try>): nat {
    if trail == [] then 0 else Sum(trail[..|trail| - 1]) + trail[|trail| - 1].attempts
  }

  function SumMax(ps: seq<Provider>): nat {
    if ps == [] then 0 else SumMax(ps[..|ps| - 1]) + ps[|ps| - 1].maxAttempts
  }

  datatype Outcome =
    | Response(provider: string, content: string, attempts: nat, fallbackFrom: seq<string>, cached: bool)
    | NoResponse(error: GatewayError)

  function Ids(ps: seq<Provider>): seq<string> {
    seq(|ps|, i requires 0 <= i < |ps| => ps[i].id)
  }

  /** Candidate k, with `first` attempts made before it, was skipped exactly when its
      breaker refused it. */
  ghost predicate StepOk(p: Provider, w: World, k: nat, first: nat, t: Try) {
    if w.admits(k) then Tried(p, w, k, first, t)
    else t == Try(p.id, 0, [B.Ask(w.clock.asked(k))], if w.skipAudited(k) then Skipped else Broken)
  }

  predicate CanTry(ps: seq<Provider>) {
    forall i :: 0 <= i < |ps| ==> 1 <= ps[i].maxAttempts
  }

  predicate Fruitless(t: Try) {
    t.end.Skipped? || t.end.GaveUp?
  }

  ghost predicate StepAt(ps: seq<Provider>, w: World, trail: seq<Try>, k: nat)
    requires k < |trail| <= |ps|
  {
    StepOk(ps[k], w, k, Sum(trail[..k]), trail[k])
  }

  ghost predicate TrailOk(ps: seq<Provider>, w: World, trail: seq<Try>) {
    && |trail| <= |ps|
    && (forall k: nat {:trigger StepAt(ps, w, trail, k)} :: k < |trail| ==> StepAt(ps, w, trail, k))
    && (forall k :: 0 <= k < |trail| - 1 ==> Fruitless(trail[k]))
  }

  lemma TrailStarts(ps: seq<Provider>, w: World)
    ensures TrailOk(ps, w, [])
  {
  }

  lemma TrailGrows(ps: seq<Provider>, w: World, trail: seq<Try>, t: Try)
    requires TrailOk(ps, w, trail) && |trail| < |ps| && (trail == [] || Fruitless(trail[|trail| - 1]))
    requires StepOk(ps[|trail|], w, |trail|, Sum(trail), t)
    ensures TrailOk(ps, w, trail + [t]) && Sum(trail + [t]) == Sum(trail) + t.attempts
  {
    var longer := trail + [t];
    assert longer[..|trail|] == trail;
    forall k: nat | k < |longer| ensures StepAt(ps, w, longer, k) {
      if k < |trail| { StepKept(ps, w, trail, t, k); }
    }
  }

  lemma StepKept(ps: seq<Provider>, w: World, trail: seq<Try>, t: Try, k: nat)
    requires TrailOk(ps, w, trail) && k < |trail| < |ps|
    ensures StepAt(ps, w, trail + [t], k)
  {
    assert StepAt(ps, w, trail, k);
    assert (trail + [t])[..k] == trail[..k];
  }

  lemma StepIsBounded(ps: seq<Provider>, w: World, trail: seq<Try>, k: nat)
    requires TrailOk(ps, w, trail) && k < |trail|
    ensures trail[k].provider == ps[k].id && trail[k].attempts <= ps[k].maxAttempts
    ensures trail[k].end.Answered? ==> w.admits(k)
  {
    assert StepAt(ps, w, trail, k);
  }

  lemma {:induction false} AttemptsAreBounded(ps: seq<Provider>, w: World, trail: seq<Try>)
    requires |trail| <= |ps|
    requires forall k: nat :: k < |trail| ==> trail[k].attempts <= ps[k].maxAttempts
    ensures Sum(trail) <= SumMax(ps[..|trail|])
  {
    if trail != [] {
      AttemptsAreBounded(ps, w, trail[..|trail| - 1]);
      assert ps[..|trail|][..|trail| - 1] == ps[..|trail| - 1];
    }
  }

  lemma TrailIsBounded(ps: seq<Provider>, w: World, trail: seq<Try>)
    requires TrailOk(ps, w, trail)
    ensures |trail| <= |ps| && Sum(trail) <= SumMax(ps[..|trail|])
  {
    forall k: nat | k < |trail| ensures trail[k].attempts <= ps[k].maxAttempts {
      StepIsBounded(ps, w, trail, k);
    }
    AttemptsAreBounded(ps, w, trail);
  }

  class Gateway {
    const reg: Registry
    const cache: C.Cache
    var total: nat
    var successful: nat
    var failed: nat
    var fallbacks: nat
    var cacheHits: nat
    var counters: map<string, ProviderCounters>

    /** At quiescence every request has ended, and every counted call has too. */
    ghost predicate Valid()
      reads this
    {
      WellFormed(reg) && total == successful + failed && fallbacks + cacheHits <= successful && CountersOk()
    }

    ghost predicate CountersOk()
      reads this`counters
    {
      forall id :: CountersOf(id).calls == CountersOf(id).successes + CountersOf(id).failures
    }

    constructor (reg: Registry, cache: C.Cache)
      requires WellFormed(reg)
      ensures Valid() && this.reg == reg && this.cache == cache && total == 0
    {
      this.reg, this.cache := reg, cache;
      total, successful, failed, fallbacks, cacheHits, counters := 0, 0, 0, 0, 0, map[];
    }

    function CountersOf(id: string): ProviderCounters
      reads this`counters
    {
      if id in counters then counters[id] else NO_CALLS
    }

    method CountFailure(id: string)
      modifies `counters
      ensures CountersOf(id) == old(CountersOf(id)).(calls := old(CountersOf(id)).calls + 1, failures := old(CountersOf(id)).failures + 1)
      ensures forall x :: x != id ==> CountersOf(x) == old(CountersOf(x))
    {
      var c := CountersOf(id);
      counters := counters[id := c.(calls := c.calls + 1, failures := c.failures + 1)];
    }

    method CountSuccess(id: string)
      modifies `counters
      ensures CountersOf(id) == old(CountersOf(id)).(calls := old(CountersOf(id)).calls + 1, successes := old(CountersOf(id)).successes + 1)
      ensures forall x :: x != id ==> CountersOf(x) == old(CountersOf(x))
    {
      var c := CountersOf(id);
      counters := counters[id := c.(calls := c.calls + 1, successes := c.successes + 1)];
    }

    /** What an attempt does to the provider's counters. */
    method Count(id: string, result: AttemptResult)
      requires CountersOk()
      modifies `counters
      ensures CountersOk()
      ensures CountersOf(id).successes == old(CountersOf(id)).successes + if result.Done? then 1 else 0
      ensures CountersOf(id).failures == old(CountersOf(id)).failures + if Failure(result) then 1 else 0
      ensures forall x :: x != id ==> CountersOf(x) == old(CountersOf(x))
    {
      if result.Done? {
        CountSuccess(id);
      } else if !result.Fatal? {
        CountFailure(id);
      }
    }

    /** The retry loop on one admitted candidate. */
    method TryProvider(p: Provider, k: nat, first: nat, w: World) returns (t: Try)
      requires CountersOk() && 1 <= p.maxAttempts
      modifies `counters
      ensures CountersOk() && Tried(p, w, k, first, t)
      ensures CountersOf(p.id).successes == old(CountersOf(p.id)).successes + if t.end.Answered? then 1 else 0
      ensures CountersOf(p.id).failures
              == old(CountersOf(p.id)).failures + t.attempts - if Failure(AttemptOf(w.attempt(first + t.attempts - 1))) then 0 else 1
      ensures forall id :: id != p.id ==> CountersOf(id) == old(CountersOf(id))
    {
      var n: nat, calls, end := 0, [B.Ask(w.clock.asked(k))], None;
      while end.None?
        invariant Trying(p, w, k, first, n, calls, end) && CountersOk()
        invariant CountersOf(p.id).successes == old(CountersOf(p.id)).successes + if end.Some? && end.value.Answered? then 1 else 0
        invariant CountersOf(p.id).failures == old(CountersOf(p.id)).failures + n
                  - if end.None? || Failure(AttemptOf(w.attempt(first + n - 1))) then 0 else 1
        invariant forall id :: id != p.id ==> CountersOf(id) == old(CountersOf(id))
        decreases end.None?, p.maxAttempts - n
      {
        Count(p.id, AttemptOf(w.attempt(first + n)));
        calls, end := AttemptOnce(p, k, first, w, n, calls);
        n := n + 1;
      }
      t := Try(p.id, n, calls, end.value);
    }

    /** One turn of the retry loop: the attempt, what its breaker hears, the question
        whether to go on, and the audits. */
    static method AttemptOnce(p: Provider, k: nat, first: nat, w: World, n: nat, before: seq<B.Event>)
      returns (calls: seq<B.Event>, end: Option<End>)
      requires Trying(p, w, k, first, n, before, None)
      ensures Trying(p, w, k, first, n + 1, calls, end)
      ensures end.Some? && end.value.Answered? <==> AttemptOf(w.attempt(first + n)).Done?
      ensures end.None? ==> Failure(AttemptOf(w.attempt(first + n)))
    {
      var now := first + n;
      var result := AttemptOf(w.attempt(now));
      calls, end := before + HeardEvents(result, w.clock.heard(now)), None;
      if result.Done? {
        end := Some(Answered(result.content));
      } else if result.Fatal? {
        end := Some(Broken);
      } else {
        var again := false;
        if Retryable(result) && n + 1 < p.maxAttempts {
          calls := calls + [B.Ask(w.clock.reasked(now))];
          again := w.readmits(now);
        }
        if !again {
          end := Some(if w.failureAudited(now) then GaveUp else Broken);
        } else if !w.retryAudited(now) {
          end := Some(Broken);
        }
      }
    }

    /** n attempts were made; the loop goes on unless `end` is set. */
    static ghost predicate Trying(p: Provider, w: World, k: nat, first: nat, n: nat, calls: seq<B.Event>, end: Option<End>) {
      match end
      case None => n < p.maxAttempts && calls == Calls(p, w, k, first, n) && forall m: nat :: first <= m < first + n ==> WentOn(w, m)
      case Some(e) => Tried(p, w, k, first, Try(p.id, n, calls, e))
    }

    /** The candidate loop of `chat`. */
    method Fallback(ps: seq<Provider>, w: World) returns (trail: seq<Try>)
      requires CountersOk() && ps != [] && CanTry(ps)
      modifies `counters
      ensures CountersOk() && TrailOk(ps, w, trail) && trail != []
      ensures Sum(trail) <= SumMax(ps[..|trail|])
      ensures Fruitless(trail[|trail| - 1]) ==> |trail| == |ps|
    {
      hide TrailOk, Tried, SumMax;
      trail := [];
      var attempts := 0;
      TrailStarts(ps, w);
      while |trail| < |ps|
        invariant |trail| <= |ps| && TrailOk(ps, w, trail) && CountersOk() && attempts == Sum(trail)
        invariant trail == [] || Fruitless(trail[|trail| - 1])
        decreases |ps| - |trail|
      {
        var k := |trail|;
        var t;
        if !w.admits(k) {
          t := Try(ps[k].id, 0, [B.Ask(w.clock.asked(k))], if w.skipAudited(k) then Skipped else Broken);
        } else {
          t := TryProvider(ps[k], k, attempts, w);
        }
        TrailGrows(ps, w, trail, t);
        trail := trail + [t];
        attempts := attempts + t.attempts;
        if t.end.Answered? || t.end.Broken? { break; }
      }
      TrailIsBounded(ps, w, trail);
    }

    /** A response that was not cached comes from the first candidate in routing order
        that its breaker admitted and that succeeded; `fallbackFrom` is exactly the
        candidates before it, and attempts stay within the sum of the limits. */
    static ghost predicate Served(ps: seq<Provider>, w: World, trail: seq<Try>, out: Outcome) {
      && TrailOk(ps, w, trail) && trail != []
      && var n, last := |trail| - 1, trail[|trail| - 1];
         match out
         case Response(provider, content, attempts, fallbackFrom, cached) =>
           !cached && last.end == Answered(content) && w.admits(n) && provider == ps[n].id
           && fallbackFrom == Ids(ps[..n]) && attempts == Sum(trail) <= SumMax(ps[..n + 1])
         case NoResponse(error) =>
           if Fruitless(last) then |trail| == |ps| && error == (if w.closingAudited then AllFailed else AuditFailed)
           else last.end.Broken? && error == (if w.closingAudited then Aborted else AuditFailed)
    }

    /** `chat` from the candidate loop on. */
    method Serve(ps: seq<Provider>, w: World) returns (out: Outcome, trail: seq<Try>)
      requires ps != [] && CanTry(ps) && CountersOk()
      modifies `counters, `successful, `fallbacks, `failed
      ensures CountersOk() && Served(ps, w, trail, out)
      ensures out.Response? ==> !out.cached
      ensures successful == old(successful) + (if out.Response? then 1 else 0)
      ensures fallbacks == old(fallbacks) + (if out.Response? && out.fallbackFrom != [] then 1 else 0)
      ensures failed == old(failed) + (if out.Response? then 0 else 1)
    {
      trail := Fallback(ps, w);
      var n, last := |trail| - 1, trail[|trail| - 1];
      StepIsBounded(ps, w, trail, n);
      if last.end.Answered? {
        var earlier := Ids(ps[..n]);
        successful := successful + 1;
        if earlier != [] { fallbacks := fallbacks + 1; }
        out := Response(last.provider, last.end.content, Sum(trail), earlier, false);
      } else {
        out := Close(if last.end.Broken? then Aborted else AllFailed, w);
      }
    }

    /** `chat` after the lookup: the hit, or the routing audit and the loop. */
    method Answer(ps: seq<Provider>, hit: Option<C.Stored>, w: World) returns (out: Outcome, trail: seq<Try>)
      requires CountersOk() && ps != [] && CanTry(ps)
      modifies `counters, `successful, `fallbacks, `cacheHits, `failed
      ensures CountersOk() && Concluded(ps, hit, w, trail, out)
      ensures successful == old(successful) + (if out.Response? then 1 else 0)
      ensures failed == old(failed) + (if out.Response? then 0 else 1)
      ensures fallbacks == old(fallbacks) + (if out.Response? && !out.cached && out.fallbackFrom != [] then 1 else 0)
      ensures cacheHits == old(cacheHits) + (if out.Response? && out.cached then 1 else 0)
    {
      trail := [];
      if hit.Some? {
        if w.hitAudited {
          successful, cacheHits := successful + 1, cacheHits + 1;
          out := Response(hit.value.provider, hit.value.content, 0, [], true);
        } else {
          out := Close(Aborted, w);
        }
      } else if !w.routedAudited {
        out := Close(Aborted, w);
      } else {
        out, trail := Serve(ps, w);
      }
    }

    /** A cached response was found and its hit audited; anything else came from the
        candidate loop or failed before it. */
    static ghost predicate Concluded(ps: seq<Provider>, hit: Option<C.Stored>, w: World, trail: seq<Try>, out: Outcome) {
      if hit.Some? then
        trail == [] && out == if w.hitAudited then Response(hit.value.provider, hit.value.content, 0, [], true)
                              else NoResponse(if w.closingAudited then Aborted else AuditFailed)
      else if !w.routedAudited then
        trail == [] && out == NoResponse(if w.closingAudited then Aborted else AuditFailed)
      else
        Served(ps, w, trail, out)
    }

    /** `chat`.  Its only calls on the cache are one lookup, made exactly when there are
        candidates and the request allows it, and one put of an answer that was not
        cached; a cached answer is the latest put of its key, before its expiry. */
    method Chat(req: Request, key: string, w: World) returns (out: Outcome, trail: seq<Try>, ghost hit: Option<C.Stored>)
      requires Valid() && cache.Valid() && cache.last <= w.clock.lookup <= w.clock.store
      modifies this, cache
      ensures Valid() && cache.Valid() && total == old(total) + 1
      ensures successful == old(successful) + (if out.Response? then 1 else 0)
      ensures fallbacks == old(fallbacks) + (if out.Response? && !out.cached && out.fallbackFrom != [] then 1 else 0)
      ensures cacheHits == old(cacheHits) + (if out.Response? && out.cached then 1 else 0)
      ensures Replied(reg, req, hit, w, trail, out)
      ensures forall t :: t in trail ==> Usable(reg, req, t.provider)
      ensures req.restricted || req.privateOnly ==>
                forall t :: t in trail ==> t.provider in reg.providers && reg.providers[t.provider].privateDeployment
      ensures out.Response? && !out.cached ==> out.attempts > 0 && FullyAudited(w.attempt(out.attempts - 1), out.content)
      ensures Found(reg, req, key, w, cache.cfg, old(cache.history), hit)
      ensures out.Response? && out.cached ==> hit == Some(C.Stored(out.provider, out.content))
      ensures cache.history == old(cache.history) + Lookup(reg, req, key, hit) + Store(req, key, w, out)
    {
      total := total + 1;
      out, trail, hit := Reply(req, key, w);
      RepliesAreUsable(reg, req, hit, w, trail, out);
      if req.cacheEnabled && out.Response? && !out.cached {
        cache.Put(key, C.Stored(out.provider, out.content), w.clock.store);
      }
    }

    /** The lookup, if the request comes to one. */
    static ghost predicate Found(reg: Registry, req: Request, key: string, w: World, cfg: C.Settings, history: seq<C.Event>,
                                 hit: Option<C.Stored>) {
      if LooksUp(reg, req) then C.LookedUp(cfg, history, key, w.clock.lookup, hit) else hit.None?
    }

    static ghost predicate LooksUp(reg: Registry, req: Request) {
      RefusalOf(reg, req).None? && req.cacheEnabled
    }

    static ghost function Lookup(reg: Registry, req: Request, key: string, hit: Option<C.Stored>): seq<C.Event> {
      if !LooksUp(reg, req) then [] else if hit.Some? then [C.Hit(key)] else [C.Miss(key)]
    }

    static ghost function Store(req: Request, key: string, w: World, out: Outcome): seq<C.Event> {
      if req.cacheEnabled && out.Response? && !out.cached
      then [C.Put(key, C.Stored(out.provider, out.content), w.clock.store)] else []
    }

    /** Without candidates the refusal says why; otherwise the candidates are tried. */
    static ghost predicate Replied(reg: Registry, req: Request, hit: Option<C.Stored>, w: World, trail: seq<Try>, out: Outcome) {
      match RefusalOf(reg, req)
      case Some(error) => trail == [] && out == NoResponse(if w.closingAudited then error else AuditFailed)
      case None => Concluded(Candidates(reg, req), hit, w, trail, out)
    }

    method Reply(req: Request, key: string, w: World) returns (out: Outcome, trail: seq<Try>, hit: Option<C.Stored>)
      requires WellFormed(reg) && CountersOk() && cache.Valid() && cache.last <= w.clock.lookup
      modifies `counters, `successful, `fallbacks, `cacheHits, `failed, cache
      ensures CountersOk() && Replied(reg, req, hit, w, trail, out)
      ensures successful == old(successful) + (if out.Response? then 1 else 0)
      ensures failed == old(failed) + (if out.Response? then 0 else 1)
      ensures fallbacks == old(fallbacks) + (if out.Response? && !out.cached && out.fallbackFrom != [] then 1 else 0)
      ensures cacheHits == old(cacheHits) + (if out.Response? && out.cached then 1 else 0)
      ensures cache.Valid() && cache.last <= w.clock.lookup && Found(reg, req, key, w, cache.cfg, old(cache.history), hit)
      ensures cache.history == old(cache.history) + Lookup(reg, req, key, hit)
    {
      var selection := EligibleCandidates(reg, req);
      hit := None;
      if selection.Refused? {
        trail := [];
        out := Close(selection.error, w);
      } else {
        if req.cacheEnabled { hit := cache.Get(key, w.clock.lookup); }
        KeptCanTry(reg, req, CandidateIds(reg, req));
        out, trail := Answer(selection.providers, hit, w);
      }
    }

    /** The outer handler: the request failed, and so may the audit of that. */
    method Close(error: GatewayError, w: World) returns (out: Outcome)
      modifies `failed
      ensures failed == old(failed) + 1
      ensures out == NoResponse(if w.closingAudited then error else AuditFailed)
    {
      failed := failed + 1;
      out := NoResponse(if w.closingAudited then error else AuditFailed);
    }
  }

  lemma {:induction false} KeptCanTry(reg: Registry, req: Request, ids: seq<string>)
    requires WellFormed(reg)
    ensures CanTry(Keep(reg, req, ids))
  {
    if ids != [] { KeptCanTry(reg, req, ids[..|ids| - 1]); }
  }

  /** Both audits of the attempt were recorded and its content is the answer. */
  predicate FullyAudited(a: AttemptWorld, content: string) {
    a == AttemptWorld(Recorded, Text(content), Recorded)
  }

  /** Only usable providers are asked, and an answer has both its audits. */
  lemma RepliesAreUsable(reg: Registry, req: Request, hit: Option<C.Stored>, w: World, trail: seq<Try>, out: Outcome)
    requires WellFormed(reg) && Gateway.Replied(reg, req, hit, w, trail, out)
    ensures out.Response? && out.cached ==> hit == Some(C.Stored(out.provider, out.content))
    ensures forall t :: t in trail ==> Usable(reg, req, t.provider)
    ensures out.Response? && !out.cached ==> out.attempts > 0 && FullyAudited(w.attempt(out.attempts - 1), out.content)
  {
    if RefusalOf(reg, req).None? {
      var ps := Candidates(reg, req);
      if trail != [] {
        TrailIsUsable(reg, req, w, trail);
        if out.Response? { AnswersAreAudited(ps, w, trail, out); }
      }
    }
  }

  lemma TrailIsUsable(reg: Registry, req: Request, w: World, trail: seq<Try>)
    requires WellFormed(reg) && TrailOk(Candidates(reg, req), w, trail)
    ensures forall t :: t in trail ==> Usable(reg, req, t.provider)
  {
    var ps, ids := Candidates(reg, req), CandidateIds(reg, req);
    var at := KeepIsFilter(reg, req, ids);
    forall i | 0 <= i < |trail| ensures Usable(reg, req, trail[i].provider) {
      StepIsBounded(ps, w, trail, i);
      assert Usable(reg, req, ids[at[i]]) && ps[i] == reg.providers[ids[at[i]]];
    }
  }

  // ----- Audits inside an attempt -----

  lemma AnswersAreAudited(ps: seq<Provider>, w: World, trail: seq<Try>, out: Outcome)
    requires Gateway.Served(ps, w, trail, out) && out.Response?
    ensures out.attempts > 0 && FullyAudited(w.attempt(out.attempts - 1), out.content)
  {
    var n := |trail| - 1;
    assert StepAt(ps, w, trail, n);
  }

  /** The candidate that made attempt m. */
  lemma {:induction false} Locate(trail: seq<Try>, m: nat) returns (k: nat)
    requires m < Sum(trail)
    ensures k < |trail| && Sum(trail[..k]) <= m < Sum(trail[..k]) + trail[k].attempts
    ensures Sum(trail[..k]) + trail[k].attempts <= Sum(trail)
    ensures k == |trail| - 1 ==> Sum(trail[..k]) + trail[k].attempts == Sum(trail)
  {
    k := |trail| - 1;
    if m < Sum(trail[..k]) {
      var init := trail[..k];
      k := Locate(init, m);
      assert init[..k] == trail[..k];
    }
  }

  lemma OnlyLastEnds(p: Provider, w: World, k: nat, first: nat, t: Try, m: nat)
    requires Tried(p, w, k, first, t) && first <= m < first + t.attempts
    ensures AttemptOf(w.attempt(m)).Fatal? ==> m == first + t.attempts - 1 && t.end.Broken?
    ensures AttemptOf(w.attempt(m)).Done? ==> m == first + t.attempts - 1
  {
    if m < first + t.attempts - 1 { assert WentOn(w, m); }
  }

  /** No attempt but the last of a request aborts it. */
  lemma OnlyLastIsFatal(ps: seq<Provider>, w: World, trail: seq<Try>, m: nat)
    requires TrailOk(ps, w, trail) && m < Sum(trail)
    ensures AttemptOf(w.attempt(m)).Fatal? ==> m == Sum(trail) - 1 && trail[|trail| - 1].end.Broken?
  {
    var k := Locate(trail, m);
    StepTried(ps, w, trail, k);
    OnlyLastEnds(ps[k], w, k, Sum(trail[..k]), trail[k], m);
  }

  lemma StepTried(ps: seq<Provider>, w: World, trail: seq<Try>, k: nat)
    requires TrailOk(ps, w, trail) && k < |trail| && trail[k].attempts > 0
    ensures Tried(ps[k], w, k, Sum(trail[..k]), trail[k])
    ensures k < |trail| - 1 ==> Fruitless(trail[k])
  {
    var step := StepAt(ps, w, trail, k);
  }

  /** The source means every audit failure to end the request at once.  It does so
      exactly when the hook raised none of the exceptions the attempt's handlers
      name; any other failure is charged to the provider, and the request still
      may be answered by a later attempt. */
  lemma AuditFailureEndsUnlessCaught(ps: seq<Provider>, w: World, trail: seq<Try>, out: Outcome, m: nat)
    requires Gateway.Served(ps, w, trail, out) && m < Sum(trail) && AuditFailure(w.attempt(m))
    ensures FailedAudit(w.attempt(m)).AuditError? <==> !Failure(AttemptOf(w.attempt(m)))
    ensures FailedAudit(w.attempt(m)).AuditError? ==>
              m == Sum(trail) - 1 && out == NoResponse(if w.closingAudited then Aborted else AuditFailed)
    ensures out.Response? ==> m < out.attempts - 1
  {
    OnlyLastIsFatal(ps, w, trail, m);
    if out.Response? { AnswersAreAudited(ps, w, trail, out); }
  }

  /** A request answered although the audit of its first attempt failed with x. */
  ghost predicate AnsweredDespite(ps: seq<Provider>, w: World, trail: seq<Try>, out: Outcome, x: AuditResult) {
    Gateway.Served(ps, w, trail, out) && out.Response? && Sum(trail) > 0 && w.attempt(0).before == x
  }

  /** That can happen if and only if the failure is caught and something is left to
      try: another candidate, or for a timeout or a transport error another attempt. */
  lemma AnsweredDespiteExactly(ps: seq<Provider>, x: AuditResult)
    requires CanTry(ps) && ps != [] && !x.Recorded?
    ensures (exists w, trail, out :: AnsweredDespite(ps, w, trail, out, x))
            <==> !x.AuditError? && (|ps| >= 2 || ((x.AuditTimeout? || x.AuditTransport?) && ps[0].maxAttempts >= 2))
  {
    forall w, trail, out | AnsweredDespite(ps, w, trail, out, x)
      ensures !x.AuditError? && (|ps| >= 2 || ((x.AuditTimeout? || x.AuditTransport?) && ps[0].maxAttempts >= 2))
    {
      AnswerNeedsAnother(ps, w, trail, out, x);
    }
    if !x.AuditError? {
      if |ps| >= 2 {
        var w, trail, out := AnswerByNext(ps, x);
      } else if (x.AuditTimeout? || x.AuditTransport?) && ps[0].maxAttempts >= 2 {
        var w, trail, out := AnswerByRetry(ps, x);
      }
    }
  }

  lemma AnswerNeedsAnother(ps: seq<Provider>, w: World, trail: seq<Try>, out: Outcome, x: AuditResult)
    requires AnsweredDespite(ps, w, trail, out, x) && !x.Recorded?
    ensures !x.AuditError? && (|ps| >= 2 || ((x.AuditTimeout? || x.AuditTransport?) && ps[0].maxAttempts >= 2))
  {
    AuditFailureEndsUnlessCaught(ps, w, trail, out, 0);
    if |ps| == 1 {
      assert StepAt(ps, w, trail, 0);
      assert trail[..0] == [] && trail == [trail[0]];
      assert WentOn(w, 0);
    }
  }

  /** A world in which everything but the audit of attempt 0 goes well. */
  function Mishap(x: AuditResult, readmits: bool): World {
    World(true, true, _ => true, _ => true,
          n => AttemptWorld(if n == 0 then x else Recorded, Text("answer"), Recorded),
          _ => readmits, _ => true, _ => true, true, Clock(_ => 0.0, _ => 0.0, _ => 0.0, 0.0, 0.0))
  }

  lemma AnswerByNext(ps: seq<Provider>, x: AuditResult) returns (w: World, trail: seq<Try>, out: Outcome)
    requires CanTry(ps) && |ps| >= 2 && !x.Recorded? && !x.AuditError?
    ensures AnsweredDespite(ps, w, trail, out, x)
  {
    w := Mishap(x, false);
    var t0 := Try(ps[0].id, 1, Calls(ps[0], w, 0, 0, 1), GaveUp);
    var t1 := Try(ps[1].id, 1, Calls(ps[1], w, 1, 1, 1), Answered("answer"));
    TrailGrows(ps, w, [], t0);
    TrailGrows(ps, w, [t0], t1);
    trail := [] + [t0] + [t1];
    SumOfTwo(ps);
    out := Response(ps[1].id, "answer", 2, Ids(ps[..1]), false);
    assert trail == [t0, t1] && [] + [t0] == [t0];
  }

  lemma AnswerByRetry(ps: seq<Provider>, x: AuditResult) returns (w: World, trail: seq<Try>, out: Outcome)
    requires CanTry(ps) && |ps| >= 1 && ps[0].maxAttempts >= 2 && (x.AuditTimeout? || x.AuditTransport?)
    ensures AnsweredDespite(ps, w, trail, out, x)
  {
    w := Mishap(x, true);
    var t := Try(ps[0].id, 2, Calls(ps[0], w, 0, 0, 2), Answered("answer"));
    TrailGrows(ps, w, [], t);
    trail := [] + [t];
    out := Response(ps[0].id, "answer", 2, Ids(ps[..0]), false);
    assert trail == [t];
    assert ps[..1][..0] == [];
  }

  lemma SumOfTwo(ps: seq<Provider>)
    requires CanTry(ps) && |ps| >= 2
    ensures SumMax(ps[..2]) >= 2
  {
    assert ps[..2][..1] == ps[..1] && ps[..1][..0] == [];
  }

  // ----- Probes -----

  /** The answer at line 535 is the one the breaker gives after exactly these calls. */
  ghost predicate AnswersTruly(cfg: B.Settings, h: seq<B.Event>, p: Provider, w: World, k: nat, first: nat, i: nat) {
    w.readmits(first + i) <==> B.Admitted(cfg, h + CallsHeard(p, w, k, first, i), w.clock.reasked(first + i))
  }

  /** Nobody else uses the breaker, whose history is h, while candidate k is tried. */
  ghost predicate Alone(cfg: B.Settings, h: seq<B.Event>, p: Provider, w: World, k: nat, first: nat) {
    && (w.admits(k) <==> B.Admitted(cfg, h, w.clock.asked(k)))
    && forall i: nat {:trigger AnswersTruly(cfg, h, p, w, k, first, i)} ::
         AllWentOn(w, first, i) && AsksAgain(p, w, first, i) ==> AnswersTruly(cfg, h, p, w, k, first, i)
  }

  /** The first n attempts from `first` on were all followed by another one. */
  ghost predicate AllWentOn(w: World, first: nat, n: nat) {
    forall m: nat :: first <= m < first + n ==> WentOn(w, m)
  }

  /** The candidate's last admission left the open state and nothing was recorded
      after it: its attempt ended in unavailability or aborted the request, or it
      was the readmission of a retry whose audit raised. */
  ghost predicate Sticks(cfg: B.Settings, h: seq<B.Event>, p: Provider, w: World, first: nat, n: nat)
    requires n >= 1
  {
    var last := AttemptOf(w.attempt(first + n - 1));
    || ((last.Unavailable? || last.Fatal?) && B.Trailing(h) + n - 1 >= cfg.threshold)
    || (AsksAgain(p, w, first, n - 1) && w.readmits(first + n - 1) && !w.retryAudited(first + n - 1)
        && B.Trailing(h) + n >= cfg.threshold)
  }

  /** ... for the number of attempts the outcomes lead to. */
  ghost predicate Strands(cfg: B.Settings, h: seq<B.Event>, p: Provider, w: World, k: nat, first: nat) {
    w.admits(k) && exists n: nat :: 1 <= n <= p.maxAttempts && AllWentOn(w, first, n - 1) && Sticks(cfg, h, p, w, first, n)
  }

  /** The outcomes lead to one number of attempts: no other one can stick. */
  lemma SticksOnlyAtEnd(cfg: B.Settings, h: seq<B.Event>, p: Provider, w: World, k: nat, first: nat, t: Try, n: nat)
    requires Tried(p, w, k, first, t) && 1 <= n <= p.maxAttempts && AllWentOn(w, first, n - 1) && Sticks(cfg, h, p, w, first, n)
    ensures n == t.attempts
  {
    var on := WentOn(w, first + if n < t.attempts then n - 1 else t.attempts - 1);
  }

  /** Before attempt n the breaker has counted n more failures; it is half-open
      exactly when that reaches the threshold. */
  lemma {:induction false} ProbingBefore(cfg: B.Settings, h: seq<B.Event>, p: Provider, w: World, k: nat, first: nat, n: nat)
    requires cfg.threshold >= 1 && w.admits(k) && Alone(cfg, h, p, w, k, first) && n < p.maxAttempts
    requires AllWentOn(w, first, n)
    ensures B.Trailing(h + Calls(p, w, k, first, n)) == B.Trailing(h) + n
    ensures B.ModeAfter(cfg, h + Calls(p, w, k, first, n)).HalfOpen? <==> B.Trailing(h) + n >= cfg.threshold
  {
    if n == 0 {
      B.AskChangesOnlyOpen(cfg, h, w.clock.asked(k));
    } else {
      ProbingBefore(cfg, h, p, w, k, first, n - 1);
      assert WentOn(w, first + n - 1);
      RetryLeaves(cfg, h, p, w, k, first, n - 1);
    }
  }

  /** A failure worth retrying, and the question whether to. */
  lemma RetryLeaves(cfg: B.Settings, h: seq<B.Event>, p: Provider, w: World, k: nat, first: nat, i: nat)
    requires cfg.threshold >= 1 && Retryable(AttemptOf(w.attempt(first + i)))
    requires AsksAgain(p, w, first, i) ==> AnswersTruly(cfg, h, p, w, k, first, i)
    ensures var g := h + Calls(p, w, k, first, i + 1);
            && B.Trailing(g) == B.Trailing(h + Calls(p, w, k, first, i)) + 1
            && (B.ModeAfter(cfg, g).HalfOpen?
                <==> AsksAgain(p, w, first, i) && w.readmits(first + i) && B.Trailing(g) >= cfg.threshold)
  {
    var before, heard := h + Calls(p, w, k, first, i), h + CallsHeard(p, w, k, first, i);
    var failure, ask := B.Failure(w.clock.heard(first + i)), B.Ask(w.clock.reasked(first + i));
    assert heard == before + [failure];
    B.OutcomesAreCounted(cfg, before, failure.now);
    if AsksAgain(p, w, first, i) {
      assert h + Calls(p, w, k, first, i + 1) == heard + [ask];
      B.AskChangesOnlyOpen(cfg, heard, ask.now);
    } else {
      assert h + Calls(p, w, k, first, i + 1) == heard;
    }
  }

  /** Any other attempt asks nothing more: it closes the breaker, opens it, or says
      nothing. */
  lemma LastLeaves(cfg: B.Settings, h: seq<B.Event>, p: Provider, w: World, k: nat, first: nat, i: nat)
    requires cfg.threshold >= 1 && !Retryable(AttemptOf(w.attempt(first + i)))
    ensures var last, g := AttemptOf(w.attempt(first + i)), h + Calls(p, w, k, first, i + 1);
            if last.Unavailable? || last.Fatal? then g == h + Calls(p, w, k, first, i)
            else !B.ModeAfter(cfg, g).HalfOpen?
  {
    var before, last := h + Calls(p, w, k, first, i), AttemptOf(w.attempt(first + i));
    B.OutcomesAreCounted(cfg, before, w.clock.heard(first + i));
    assert h + Calls(p, w, k, first, i + 1) == before + HeardEvents(last, w.clock.heard(first + i));
    assert last.Unavailable? || last.Fatal? ==> HeardEvents(last, w.clock.heard(first + i)) == [];
  }

  /** When nobody interferes, a candidate leaves its breaker half-open if and only if
      it was half-open before or the last admission sticks; the breaker then
      refuses everything, however long the wait, until an outcome is recorded. */
  lemma ProbeSticksExactlyWhenSilent(cfg: B.Settings, h: seq<B.Event>, p: Provider, w: World, k: nat, first: nat, t: Try,
                                     later: seq<B.Event>, now: real)
    requires cfg.threshold >= 1 && StepOk(p, w, k, first, t) && Alone(cfg, h, p, w, k, first)
    requires B.OnlyAsks(later)
    ensures B.ModeOf(B.ProviderAfter(cfg, h + t.calls)).HalfOpen?
            <==> B.ModeOf(B.ProviderAfter(cfg, h)).HalfOpen? || Strands(cfg, h, p, w, k, first)
    ensures B.ModeOf(B.ProviderAfter(cfg, h + t.calls)).HalfOpen? ==>
              !B.ProviderAllow(cfg, B.ProviderAfter(cfg, h + t.calls + later), now).1
  {
    B.AdmissionRule(cfg, h, now);
    B.AdmissionRule(cfg, h + t.calls, now);
    if w.admits(k) {
      StuckAfterTry(cfg, h, p, w, k, first, t);
    } else {
      B.AskChangesOnlyOpen(cfg, h, w.clock.asked(k));
    }
    if B.ModeAfter(cfg, h + t.calls).HalfOpen? {
      B.HalfOpenRefuses(cfg, h + t.calls, later, now);
      B.AdmissionRule(cfg, h + t.calls + later, now);
    }
  }

  lemma StuckAfterTry(cfg: B.Settings, h: seq<B.Event>, p: Provider, w: World, k: nat, first: nat, t: Try)
    requires cfg.threshold >= 1 && w.admits(k) && Tried(p, w, k, first, t) && Alone(cfg, h, p, w, k, first)
    ensures B.ModeAfter(cfg, h + t.calls).HalfOpen? <==> Strands(cfg, h, p, w, k, first)
  {
    StuckAtEnd(cfg, h, p, w, k, first, t);
    assert AllWentOn(w, first, t.attempts - 1);
    forall n: nat | 1 <= n <= p.maxAttempts && AllWentOn(w, first, n - 1) && Sticks(cfg, h, p, w, first, n)
      ensures n == t.attempts
    {
      SticksOnlyAtEnd(cfg, h, p, w, k, first, t, n);
    }
  }

  lemma StuckAtEnd(cfg: B.Settings, h: seq<B.Event>, p: Provider, w: World, k: nat, first: nat, t: Try)
    requires cfg.threshold >= 1 && w.admits(k) && Tried(p, w, k, first, t) && Alone(cfg, h, p, w, k, first)
    ensures B.ModeAfter(cfg, h + t.calls).HalfOpen? <==> Sticks(cfg, h, p, w, first, t.attempts)
  {
    var n := t.attempts - 1;
    assert AllWentOn(w, first, n);
    ProbingBefore(cfg, h, p, w, k, first, n);
    if Retryable(AttemptOf(w.attempt(first + n))) {
      RetryLeaves(cfg, h, p, w, k, first, n);
    } else {
      LastLeaves(cfg, h, p, w, k, first, n);
    }
  }

  // ----- The breakers of a whole request -----

  /** Every provider is a candidate at most once. */
  lemma CandidatesAreDistinct(reg: Registry, req: Request)
    requires WellFormed(reg)
    ensures var ps := Candidates(reg, req); forall i, j :: 0 <= i < j < |ps| ==> ps[i].id != ps[j].id
  {
    var ids, ps := CandidateIds(reg, req), Candidates(reg, req);
    var at := KeepIsFilter(reg, req, ids);
    forall i, j | 0 <= i < j < |ps| ensures ps[i].id != ps[j].id {
      assert ids[at[i]] != ids[at[j]];
    }
  }

  /** The history of a provider's breaker after a request nobody interfered with. */
  ghost function After(h: string -> seq<B.Event>, trail: seq<Try>, id: string): seq<B.Event> {
    if trail == [] then h(id)
    else
      var last := trail[|trail| - 1];
      After(h, trail[..|trail| - 1], id) + if last.provider == id then last.calls else []
  }

  lemma {:induction false} NotTried(h: string -> seq<B.Event>, trail: seq<Try>, id: string)
    requires forall k :: 0 <= k < |trail| ==> trail[k].provider != id
    ensures After(h, trail, id) == h(id)
  {
    if trail != [] { NotTried(h, trail[..|trail| - 1], id); }
  }

  lemma {:induction false} TriedOnce(h: string -> seq<B.Event>, trail: seq<Try>, k: nat)
    requires k < |trail| && forall i, j :: 0 <= i < j < |trail| ==> trail[i].provider != trail[j].provider
    ensures After(h, trail, trail[k].provider) == h(trail[k].provider) + trail[k].calls
  {
    var init := trail[..|trail| - 1];
    if k == |trail| - 1 {
      NotTried(h, init, trail[k].provider);
    } else {
      TriedOnce(h, init, k);
    }
  }

  /** Nobody else uses any of the breakers during the request. */
  ghost predicate AllAlone(cfg: string -> B.Settings, h: string -> seq<B.Event>, ps: seq<Provider>, w: World, trail: seq<Try>) {
    |trail| <= |ps| && forall k: nat {:trigger AloneAt(cfg, h, ps, w, trail, k)} :: k < |trail| ==> AloneAt(cfg, h, ps, w, trail, k)
  }

  ghost predicate AloneAt(cfg: string -> B.Settings, h: string -> seq<B.Event>, ps: seq<Provider>, w: World, trail: seq<Try>, k: nat)
    requires k < |trail| <= |ps|
  {
    Alone(cfg(ps[k].id), h(ps[k].id), ps[k], w, k, Sum(trail[..k]))
  }

  /** Candidate k is the provider, and leaves its breaker half-open. */
  ghost predicate StrandsAt(cfg: string -> B.Settings, h: string -> seq<B.Event>, ps: seq<Provider>, w: World, trail: seq<Try>,
                            id: string, k: nat)
    requires k < |trail| <= |ps|
  {
    ps[k].id == id && Strands(cfg(id), h(id), ps[k], w, k, Sum(trail[..k]))
  }

  /** After a whole request the breaker of any provider is half-open if and only if it
      was so before, or the request strands a probe at that provider. */
  lemma RequestStrandsExactly(reg: Registry, req: Request, w: World, trail: seq<Try>, cfg: string -> B.Settings,
                              h: string -> seq<B.Event>, id: string)
    requires WellFormed(reg) && TrailOk(Candidates(reg, req), w, trail) && AllAlone(cfg, h, Candidates(reg, req), w, trail)
    requires forall x :: cfg(x).threshold >= 1
    ensures B.ModeOf(B.ProviderAfter(cfg(id), After(h, trail, id))).HalfOpen?
            <==> B.ModeOf(B.ProviderAfter(cfg(id), h(id))).HalfOpen?
                 || exists k: nat :: k < |trail| && StrandsAt(cfg, h, Candidates(reg, req), w, trail, id, k)
  {
    var ps := Candidates(reg, req);
    CandidatesAreDistinct(reg, req);
    forall k: nat | k < |trail| ensures trail[k].provider == ps[k].id { StepIsBounded(ps, w, trail, k); }
    if k: nat :| k < |trail| && ps[k].id == id {
      OneStrandsExactly(ps, w, trail, cfg, h, k);
      TriedOnce(h, trail, k);
    } else {
      NotTried(h, trail, id);
    }
  }

  lemma OneStrandsExactly(ps: seq<Provider>, w: World, trail: seq<Try>, cfg: string -> B.Settings, h: string -> seq<B.Event>, k: nat)
    requires TrailOk(ps, w, trail) && AllAlone(cfg, h, ps, w, trail) && k < |trail| && cfg(ps[k].id).threshold >= 1
    ensures var id := ps[k].id;
            B.ModeOf(B.ProviderAfter(cfg(id), h(id) + trail[k].calls)).HalfOpen?
            <==> B.ModeOf(B.ProviderAfter(cfg(id), h(id))).HalfOpen? || StrandsAt(cfg, h, ps, w, trail, id, k)
  {
    var step, alone := StepAt(ps, w, trail, k), AloneAt(cfg, h, ps, w, trail, k);
    ProbeSticksExactlyWhenSilent(cfg(ps[k].id), h(ps[k].id), ps[k], w, k, Sum(trail[..k]), trail[k], [], 0.0);
  }

  /** One attempt after which nothing goes on. */
  function OneAttempt(a: AttemptWorld, retryAudited: bool): World {
    World(true, true, _ => true, _ => true, _ => a, _ => true, _ => retryAudited, _ => true, true,
          Clock(_ => 1.0, _ => 2.0, _ => 3.0, 0.0, 0.0))
  }

  /** Each way of sticking occurs: an unavailable provider, ... */
  lemma AnUnavailableProbeSticks(p: Provider)
    requires p.maxAttempts >= 1
    ensures SticksIn(p, B.Settings(1, 1.0), [B.Failure(0.0)], OneAttempt(AttemptWorld(Recorded, UnavailableError, Recorded), true), GaveUp)
  {
    OneFailure();
    StuckIn(p, B.Settings(1, 1.0), [B.Failure(0.0)], OneAttempt(AttemptWorld(Recorded, UnavailableError, Recorded), true), GaveUp);
  }

  /** ... an aborted attempt, ... */
  lemma AnAbortedProbeSticks(p: Provider)
    requires p.maxAttempts >= 1
    ensures SticksIn(p, B.Settings(1, 1.0), [B.Failure(0.0)], OneAttempt(AttemptWorld(Recorded, Crash, Recorded), true), Broken)
  {
    OneFailure();
    StuckIn(p, B.Settings(1, 1.0), [B.Failure(0.0)], OneAttempt(AttemptWorld(Recorded, Crash, Recorded), true), Broken);
  }

  /** ... and a retry that was readmitted as the probe but whose audit raised. */
  lemma AnUnauditedRetrySticks(p: Provider)
    requires p.maxAttempts >= 2
    ensures SticksIn(p, B.Settings(1, 1.0), [], OneAttempt(AttemptWorld(Recorded, TransportError, Recorded), false), Broken)
  {
    var cfg, w := B.Settings(1, 1.0), OneAttempt(AttemptWorld(Recorded, TransportError, Recorded), false);
    B.AskChangesOnlyOpen(cfg, [], 1.0);
    B.OutcomesAreCounted(cfg, [] + [B.Ask(1.0)], 2.0);
    assert [] + CallsHeard(p, w, 0, 0, 0) == [] + [B.Ask(1.0)] + [B.Failure(2.0)];
    StuckIn(p, cfg, [], w, Broken);
  }

  lemma OneFailure()
    ensures B.Trailing([B.Failure(0.0)]) == 1 && B.LastFailure(B.Settings(1, 1.0), [B.Failure(0.0)]) == Some(0.0)
  {
    B.OutcomesAreCounted(B.Settings(1, 1.0), [], 0.0);
    assert [B.Failure(0.0)] == [] + [B.Failure(0.0)];
  }

  /** A single attempt at candidate 0, alone on its breaker, leaves it half-open. */
  ghost predicate SticksIn(p: Provider, cfg: B.Settings, h: seq<B.Event>, w: World, end: End) {
    var t := Try(p.id, 1, Calls(p, w, 0, 0, 1), end);
    && StepOk(p, w, 0, 0, t) && Alone(cfg, h, p, w, 0, 0)
    && !B.ModeOf(B.ProviderAfter(cfg, h)).HalfOpen? && B.ModeOf(B.ProviderAfter(cfg, h + t.calls)).HalfOpen?
  }

  lemma StuckIn(p: Provider, cfg: B.Settings, h: seq<B.Event>, w: World, end: End)
    requires cfg.threshold >= 1 && w.admits(0) && Tried(p, w, 0, 0, Try(p.id, 1, Calls(p, w, 0, 0, 1), end))
    requires B.Admitted(cfg, h, w.clock.asked(0)) && (AsksAgain(p, w, 0, 0) ==> AnswersTruly(cfg, h, p, w, 0, 0, 0))
    requires Sticks(cfg, h, p, w, 0, 1) && !WentOn(w, 0) && p.maxAttempts >= 1
    ensures SticksIn(p, cfg, h, w, end)
  {
    B.AdmissionRule(cfg, h, 0.0);
    assert AllWentOn(w, 0, 0);
    ProbeSticksExactlyWhenSilent(cfg, h, p, w, 0, 0, Try(p.id, 1, Calls(p, w, 0, 0, 1), end), [], 0.0);
  }
}
