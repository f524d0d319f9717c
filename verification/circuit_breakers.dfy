/** The two circuit breakers of the repository, written independently for the
    Model Gateway and for remote planners, and why they behave alike. */
module CircuitBreakers {
  import opened TaskContracts

  /** `_failures`, `_opened_at` and the probe flag. */
  datatype Breaker = Breaker(failures: nat, openedAt: Option<real>, probe: bool)

  datatype Settings = Settings(threshold: nat, recovery: real)

  datatype Mode = Closed | Open | HalfOpen

  const NEW := Breaker(0, None, false)

  /** `snapshot().state`. */
  function ModeOf(b: Breaker): Mode {
    if b.openedAt.Some? then Open else if b.probe then HalfOpen else Closed
  }

  // ----- safeagent_gov/model_gateway/resilience.py -----

  function ProviderAllow(cfg: Settings, b: Breaker, now: real): (Breaker, bool) {
    if b.openedAt.None? then (b, !b.probe)
    else if now - b.openedAt.value < cfg.recovery then (b, false)
    else if b.probe then (b, false)
    else (b.(openedAt := None, probe := true), true)
  }

  // ----- agent_demo/planners/resilience.py -----

  function PlannerBefore(cfg: Settings, b: Breaker, now: real): (Breaker, bool)
    requires cfg.threshold >= 1
  {
    if b.openedAt.None? then (b, !b.probe)
    else if now - b.openedAt.value >= cfg.recovery then (Breaker(cfg.threshold - 1, None, true), true)
    else (b, false)
  }

  // ----- Both -----

  function AfterFailure(cfg: Settings, b: Breaker, now: real): Breaker {
    Breaker(b.failures + 1, if b.failures + 1 >= cfg.threshold then Some(now) else b.openedAt, false)
  }

  // ----- Sequences of calls -----

  datatype Event = Ask(now: real) | Success | Failure(now: real)

  ghost function ProviderAfter(cfg: Settings, events: seq<Event>): Breaker {
    if events == [] then NEW
    else
      var b := ProviderAfter(cfg, events[..|events| - 1]);
      match events[|events| - 1]
      case Ask(now) => ProviderAllow(cfg, b, now).0
      case Success => NEW
      case Failure(now) => AfterFailure(cfg, b, now)
  }

  ghost function PlannerAfter(cfg: Settings, events: seq<Event>): Breaker
    requires cfg.threshold >= 1
  {
    if events == [] then NEW
    else
      var b := PlannerAfter(cfg, events[..|events| - 1]);
      match events[|events| - 1]
      case Ask(now) => PlannerBefore(cfg, b, now).0
      case Success => NEW
      case Failure(now) => AfterFailure(cfg, b, now)
  }

  /** Same opening time and probe; the failure counts agree while closed and differ
      only where nobody can tell. */
  predicate Similar(cfg: Settings, p: Breaker, q: Breaker)
    requires cfg.threshold >= 1
  {
    && p.openedAt == q.openedAt && p.probe == q.probe && !(p.probe && p.openedAt.Some?)
    && (ModeOf(p).Closed? ==> p.failures == q.failures < cfg.threshold)
    && (ModeOf(p).HalfOpen? ==> p.failures >= cfg.threshold && q.failures == cfg.threshold - 1)
    && (ModeOf(p).Open? ==> p.failures >= cfg.threshold && q.failures >= cfg.threshold)
  }

  lemma {:induction false} BreakersAreSimilar(cfg: Settings, events: seq<Event>)
    requires cfg.threshold >= 1
    ensures Similar(cfg, ProviderAfter(cfg, events), PlannerAfter(cfg, events))
  {
    if events != [] { BreakersAreSimilar(cfg, events[..|events| - 1]); }
  }

  /** After any common history and at any clock reading, the two breakers report
      the same state and admit or refuse the next call alike. */
  lemma BreakersAgree(cfg: Settings, events: seq<Event>, now: real)
    requires cfg.threshold >= 1
    ensures ModeOf(ProviderAfter(cfg, events)) == ModeOf(PlannerAfter(cfg, events))
    ensures ProviderAllow(cfg, ProviderAfter(cfg, events), now).1 == PlannerBefore(cfg, PlannerAfter(cfg, events), now).1
  {
    BreakersAreSimilar(cfg, events);
  }

  /** Failures since the last success. */
  ghost function Trailing(events: seq<Event>): nat {
    if events == [] then 0
    else match events[|events| - 1]
      case Ask(_) => Trailing(events[..|events| - 1])
      case Success => 0
      case Failure(_) => Trailing(events[..|events| - 1]) + 1
  }

  /** The gateway's breaker counts exactly the failures since the last success, and
      is closed exactly while they are below the threshold. */
  lemma {:induction false} FailuresAreCounted(cfg: Settings, events: seq<Event>)
    requires cfg.threshold >= 1
    ensures ProviderAfter(cfg, events).failures == Trailing(events)
    ensures ModeOf(ProviderAfter(cfg, events)).Closed? <==> Trailing(events) < cfg.threshold
  {
    BreakersAreSimilar(cfg, events);
    if events != [] { FailuresAreCounted(cfg, events[..|events| - 1]); }
  }

  /** The time of the last failure, unless a success was recorded or a call asked
      after the recovery time since then. */
  ghost function LastFailure(cfg: Settings, events: seq<Event>): Option<real> {
    if events == [] then None
    else match events[|events| - 1]
      case Ask(now) =>
        var rest := events[..|events| - 1];
        if LastFailure(cfg, rest).Some? && now - LastFailure(cfg, rest).value >= cfg.recovery then None
        else LastFailure(cfg, rest)
      case Success => None
      case Failure(now) => Some(now)
  }

  /** When a call is admitted: below the threshold always; at the threshold only
      when a full recovery time has passed since the last failure and no probe was
      admitted since. */
  ghost predicate Admitted(cfg: Settings, events: seq<Event>, now: real) {
    || Trailing(events) < cfg.threshold
    || (LastFailure(cfg, events).Some? && now - LastFailure(cfg, events).value >= cfg.recovery)
  }

  /** The state a history leaves behind. */
  ghost function ModeAfter(cfg: Settings, events: seq<Event>): Mode {
    if Trailing(events) < cfg.threshold then Closed
    else if LastFailure(cfg, events).Some? then Open else HalfOpen
  }

  lemma {:induction false} OpenSinceLastFailure(cfg: Settings, events: seq<Event>)
    requires cfg.threshold >= 1
    ensures Trailing(events) >= cfg.threshold ==> ProviderAfter(cfg, events).openedAt == LastFailure(cfg, events)
  {
    FailuresAreCounted(cfg, events);
    BreakersAreSimilar(cfg, events);
    if events != [] {
      OpenSinceLastFailure(cfg, events[..|events| - 1]);
      FailuresAreCounted(cfg, events[..|events| - 1]);
      BreakersAreSimilar(cfg, events[..|events| - 1]);
    }
  }

  /** Both breakers admit exactly the calls of `Admitted` and report exactly
      `ModeAfter`, neither of which mentions a breaker. */
  lemma {:induction false} AdmissionRule(cfg: Settings, events: seq<Event>, now: real)
    requires cfg.threshold >= 1
    ensures ProviderAllow(cfg, ProviderAfter(cfg, events), now).1 <==> Admitted(cfg, events, now)
    ensures PlannerBefore(cfg, PlannerAfter(cfg, events), now).1 <==> Admitted(cfg, events, now)
    ensures ModeOf(ProviderAfter(cfg, events)) == ModeOf(PlannerAfter(cfg, events)) == ModeAfter(cfg, events)
    ensures ModeAfter(cfg, events).Open? ==>
              ProviderAfter(cfg, events).openedAt == PlannerAfter(cfg, events).openedAt == LastFailure(cfg, events)
  {
    FailuresAreCounted(cfg, events);
    BreakersAgree(cfg, events, now);
    BreakersAreSimilar(cfg, events);
    OpenSinceLastFailure(cfg, events);
  }

  predicate OnlyAsks(events: seq<Event>) {
    forall e :: e in events ==> e.Ask?
  }

  /** A half-open breaker stays half-open, and admits nobody, until an outcome is
      recorded. */
  lemma {:induction false} HalfOpenRefuses(cfg: Settings, events: seq<Event>, more: seq<Event>, now: real)
    requires cfg.threshold >= 1 && OnlyAsks(more)
    requires ModeAfter(cfg, events).HalfOpen?
    ensures ModeAfter(cfg, events + more).HalfOpen?
    ensures !Admitted(cfg, events + more, now)
    decreases |more|
  {
    if more == [] {
      assert events + more == events;
    } else {
      var rest := more[..|more| - 1];
      assert forall e :: e in rest ==> e in more;
      HalfOpenRefuses(cfg, events, rest, now);
      assert (events + more)[..|events + more| - 1] == events + rest;
      assert more[|more| - 1] in more;
    }
  }

  /** Leaving the open state admits one call and, until an outcome is recorded, no
      other, however long the wait. */
  lemma OneProbe(cfg: Settings, events: seq<Event>, probe: real, more: seq<Event>, now: real)
    requires cfg.threshold >= 1 && OnlyAsks(more)
    requires ModeOf(ProviderAfter(cfg, events)).Open?
    requires ProviderAllow(cfg, ProviderAfter(cfg, events), probe).1
    ensures ModeOf(ProviderAfter(cfg, events + [Ask(probe)] + more)).HalfOpen?
    ensures !ProviderAllow(cfg, ProviderAfter(cfg, events + [Ask(probe)] + more), now).1
    ensures !PlannerBefore(cfg, PlannerAfter(cfg, events + [Ask(probe)] + more), now).1
  {
    AdmissionRule(cfg, events, probe);
    AskChangesOnlyOpen(cfg, events, probe);
    HalfOpenRefuses(cfg, events + [Ask(probe)], more, now);
    AdmissionRule(cfg, events + [Ask(probe)] + more, now);
  }

  /** What asking does to the state: an admission out of the open state makes it
      half-open, any other question leaves it alone. */
  lemma AskChangesOnlyOpen(cfg: Settings, events: seq<Event>, now: real)
    ensures Trailing(events + [Ask(now)]) == Trailing(events)
    ensures ModeAfter(cfg, events + [Ask(now)])
            == if ModeAfter(cfg, events).Open? && Admitted(cfg, events, now) then HalfOpen else ModeAfter(cfg, events)
  {
    assert (events + [Ask(now)])[..|events + [Ask(now)]| - 1] == events;
  }

  lemma OutcomesAreCounted(cfg: Settings, events: seq<Event>, now: real)
    ensures Trailing(events + [Failure(now)]) == Trailing(events) + 1
    ensures LastFailure(cfg, events + [Failure(now)]) == Some(now)
    ensures Trailing(events + [Success]) == 0
  {
    assert (events + [Failure(now)])[..|events + [Failure(now)]| - 1] == events;
  }

  class ProviderCircuitBreaker {
    const cfg: Settings
    var failures: nat
    var openedAt: Option<real>
    var probeActive: bool
    /** Every call made on this breaker. */
    ghost var history: seq<Event>

    function Value(): Breaker
      reads this
    {
      Breaker(failures, openedAt, probeActive)
    }

    ghost predicate Valid()
      reads this
    {
      && cfg.threshold >= 1 && Value() == ProviderAfter(cfg, history)
      && ModeOf(Value()) == ModeAfter(cfg, history) && (openedAt.Some? ==> openedAt == LastFailure(cfg, history))
    }

    constructor (cfg: Settings)
      requires cfg.threshold >= 1
      ensures Valid() && this.cfg == cfg && history == []
    {
      this.cfg := cfg;
      failures, openedAt, probeActive, history := 0, None, false, [];
    }

    ghost method Log(e: Event)
      requires cfg.threshold >= 1
      requires Value() == ProviderAfter(cfg, history + [e])
      modifies `history
      ensures Valid() && history == old(history) + [e]
    {
      history := history + [e];
      AdmissionRule(cfg, history, 0.0);
    }

    method AllowCall(now: real) returns (ok: bool)
      requires Valid()
      modifies this
      ensures Valid() && history == old(history) + [Ask(now)]
      ensures ok <==> Admitted(cfg, old(history), now)
    {
      AdmissionRule(cfg, history, now);
      assert (history + [Ask(now)])[..|history + [Ask(now)]| - 1] == history;
      if openedAt.None? {
        ok := !probeActive;
      } else if now - openedAt.value < cfg.recovery {
        ok := false;
      } else if probeActive {
        ok := false;
      } else {
        openedAt := None;
        probeActive := true;
        ok := true;
      }
      Log(Ask(now));
    }

    method RecordSuccess()
      requires Valid()
      modifies this
      ensures Valid() && history == old(history) + [Success]
    {
      failures := 0;
      openedAt := None;
      probeActive := false;
      Log(Success);
    }

    method RecordFailure(now: real)
      requires Valid()
      modifies this
      ensures Valid() && history == old(history) + [Failure(now)]
    {
      assert (history + [Failure(now)])[..|history + [Failure(now)]| - 1] == history;
      failures := failures + 1;
      probeActive := false;
      if failures >= cfg.threshold { openedAt := Some(now); }
      Log(Failure(now));
    }
  }

  class CircuitBreaker {
    const cfg: Settings
    var failures: nat
    var openedAt: Option<real>
    var halfOpenProbe: bool
    /** Every call made on this breaker. */
    ghost var history: seq<Event>

    function Value(): Breaker
      reads this
    {
      Breaker(failures, openedAt, halfOpenProbe)
    }

    ghost predicate Valid()
      reads this
    {
      && cfg.threshold >= 1 && Value() == PlannerAfter(cfg, history)
      && ModeOf(Value()) == ModeAfter(cfg, history) && (openedAt.Some? ==> openedAt == LastFailure(cfg, history))
    }

    constructor (cfg: Settings)
      requires cfg.threshold >= 1 && cfg.recovery > 0.0
      ensures Valid() && this.cfg == cfg && history == []
    {
      this.cfg := cfg;
      failures, openedAt, halfOpenProbe, history := 0, None, false, [];
    }

    ghost method Log(e: Event)
      requires cfg.threshold >= 1
      requires Value() == PlannerAfter(cfg, history + [e])
      modifies `history
      ensures Valid() && history == old(history) + [e]
    {
      history := history + [e];
      AdmissionRule(cfg, history, 0.0);
    }

    method BeforeCall(now: real) returns (ok: bool)
      requires Valid()
      modifies this
      ensures Valid() && history == old(history) + [Ask(now)]
      ensures ok <==> Admitted(cfg, old(history), now)
    {
      AdmissionRule(cfg, history, now);
      assert (history + [Ask(now)])[..|history + [Ask(now)]| - 1] == history;
      if openedAt.None? {
        ok := !halfOpenProbe;
      } else if now - openedAt.value >= cfg.recovery {
        openedAt := None;
        failures := cfg.threshold - 1;
        halfOpenProbe := true;
        ok := true;
      } else {
        ok := false;
      }
      Log(Ask(now));
    }

    method RecordSuccess()
      requires Valid()
      modifies this
      ensures Valid() && history == old(history) + [Success]
    {
      failures := 0;
      openedAt := None;
      halfOpenProbe := false;
      Log(Success);
    }

    method RecordFailure(now: real)
      requires Valid()
      modifies this
      ensures Valid() && history == old(history) + [Failure(now)]
    {
      assert (history + [Failure(now)])[..|history + [Failure(now)]| - 1] == history;
      failures := failures + 1;
      halfOpenProbe := false;
      if failures >= cfg.threshold { openedAt := Some(now); }
      Log(Failure(now));
    }
  }
}

/** `ResilientPlanner.plan`: bounded retry behind a breaker. */
module ResilientPlanning {
  import opened TaskContracts
  import opened CircuitBreakers

  /** How one call of the wrapped planner ends; `Escaped` is any exception that is no
      PlanningError, which nothing in the loop catches. */
  datatype Attempt = Planned(plan: string) | Transport | Invalid | Escaped

  /** An end that is neither a plan nor a transport failure; the breaker hears nothing. */
  predicate Silent(a: Attempt) {
    a.Invalid? || a.Escaped?
  }

  datatype Outcome =
    | Returned(plan: string)
    | TransportFailure       // the last allowed attempt failed in transport
    | PlanningFailure        // a non-transport PlanningError, never retried
    | Raised                 // any other exception of the planner, never retried
    | Refused                // the breaker did not admit the next attempt

  /** What the planner would answer at each attempt, and the clock at each reading. */
  datatype World = World(answers: nat -> Attempt, asked: nat -> real, failed: nat -> real)

  /** Whether the breaker admits attempt k once all before it failed in transport:
      below the threshold, or a recovery time after the failure just recorded. */
  ghost predicate MayAsk(cfg: Settings, h: seq<Event>, w: World, k: nat) {
    if k == 0 then Admitted(cfg, h, w.asked(0))
    else Trailing(h) + k < cfg.threshold || w.asked(k) - w.failed(k - 1) >= cfg.recovery
  }

  /** Attempt k is made. */
  ghost predicate Reached(cfg: Settings, max: nat, h: seq<Event>, w: World, k: nat) {
    k < max && MayAsk(cfg, h, w, k) && (k > 0 ==> w.answers(k - 1).Transport? && Reached(cfg, max, h, w, k - 1))
  }

  /** The attempts made and the outcome, from the history of the breaker, the
      planner's answers and the clock alone. */
  ghost predicate Ends(cfg: Settings, max: nat, h: seq<Event>, w: World, calls: nat, outcome: Outcome) {
    && (calls > 0 ==> Reached(cfg, max, h, w, calls - 1))
    && match outcome
       case Returned(plan) => calls > 0 && w.answers(calls - 1) == Planned(plan)
       case PlanningFailure => calls > 0 && w.answers(calls - 1).Invalid?
       case Raised => calls > 0 && w.answers(calls - 1).Escaped?
       case TransportFailure => calls > 0 && calls >= max && w.answers(calls - 1).Transport?
       case Refused => (calls > 0 ==> w.answers(calls - 1).Transport?) && calls < max && !MayAsk(cfg, h, w, calls)
  }

  /** There is only one way to end. */
  lemma EndIsDetermined(cfg: Settings, max: nat, h: seq<Event>, w: World, n: nat, a: Outcome, m: nat, b: Outcome)
    requires Ends(cfg, max, h, w, n, a) && Ends(cfg, max, h, w, m, b)
    ensures n == m && a == b
  {
    if n < m {
      ReachedBefore(cfg, max, h, w, n, m - 1);
    } else if m < n {
      ReachedBefore(cfg, max, h, w, m, n - 1);
    }
  }

  lemma {:induction false} ReachedBefore(cfg: Settings, max: nat, h: seq<Event>, w: World, k: nat, n: nat)
    requires Reached(cfg, max, h, w, n) && k <= n
    ensures Reached(cfg, max, h, w, k) && MayAsk(cfg, h, w, k)
    ensures k > 0 ==> w.answers(k - 1).Transport?
    ensures k < n ==> w.answers(k).Transport?
    decreases n
  {
    if k < n { ReachedBefore(cfg, max, h, w, k, n - 1); }
  }

  /** What the breaker was told when k attempts have failed in transport. */
  ghost function Failures(w: World, k: nat): seq<Event>
    decreases k, 0
  {
    if k == 0 then [] else Asked(w, k - 1) + [Failure(w.failed(k - 1))]
  }

  /** ... and attempt k is asked for. */
  ghost function Asked(w: World, k: nat): seq<Event>
    decreases k, 1
  {
    Failures(w, k) + [Ask(w.asked(k))]
  }

  ghost function Told(w: World, calls: nat, outcome: Outcome): seq<Event>
    requires outcome.Returned? || outcome.PlanningFailure? || outcome.Raised? ==> calls > 0
  {
    match outcome
    case Returned(_) => Asked(w, calls - 1) + [Success]
    case PlanningFailure => Asked(w, calls - 1)
    case Raised => Asked(w, calls - 1)
    case TransportFailure => Failures(w, calls)
    case Refused => Asked(w, calls)
  }

  lemma Append(h: seq<Event>, a: seq<Event>, e: Event)
    ensures h + (a + [e]) == (h + a) + [e]
  {
  }

  /** After k transport failures the breaker has counted them and answers as
      `MayAsk` says; admitting attempt k starts a probe exactly when the failures
      have reached the threshold. */
  lemma {:induction false} FailuresAreTold(cfg: Settings, h: seq<Event>, w: World, k: nat)
    requires cfg.threshold >= 1
    ensures Trailing(h + Failures(w, k)) == Trailing(h) + k
    ensures Admitted(cfg, h + Failures(w, k), w.asked(k)) <==> MayAsk(cfg, h, w, k)
    ensures k > 0 ==> !ModeAfter(cfg, h + Failures(w, k)).HalfOpen?
  {
    if k == 0 {
      assert h + Failures(w, 0) == h;
    } else {
      var before := h + Failures(w, k - 1);
      FailuresAreTold(cfg, h, w, k - 1);
      AskChangesOnlyOpen(cfg, before, w.asked(k - 1));
      Append(h, Failures(w, k - 1), Ask(w.asked(k - 1)));
      Append(h, Asked(w, k - 1), Failure(w.failed(k - 1)));
      OutcomesAreCounted(cfg, h + Asked(w, k - 1), w.failed(k - 1));
    }
  }

  /** Admitting attempt k starts a probe exactly when the failures have reached the
      threshold; refusing it never makes the breaker half-open. */
  lemma AskedLeaves(cfg: Settings, h: seq<Event>, w: World, k: nat)
    requires cfg.threshold >= 1
    ensures Trailing(h + Asked(w, k)) == Trailing(h) + k
    ensures MayAsk(cfg, h, w, k) ==> (ModeAfter(cfg, h + Asked(w, k)).HalfOpen? <==> Trailing(h) + k >= cfg.threshold)
    ensures !MayAsk(cfg, h, w, k) ==> ModeAfter(cfg, h + Asked(w, k)) == ModeAfter(cfg, h + Failures(w, k))
  {
    FailuresAreTold(cfg, h, w, k);
    Append(h, Failures(w, k), Ask(w.asked(k)));
    AskChangesOnlyOpen(cfg, h + Failures(w, k), w.asked(k));
  }

  /** What the breaker is left in, outcome by outcome. */
  lemma ToldLeaves(cfg: Settings, h: seq<Event>, w: World, calls: nat, outcome: Outcome)
    requires cfg.threshold >= 1 && (!outcome.Refused? ==> calls > 0)
    ensures outcome.Returned? || outcome.TransportFailure? ==> !ModeAfter(cfg, h + Told(w, calls, outcome)).HalfOpen?
    ensures (outcome.PlanningFailure? || outcome.Raised?) && MayAsk(cfg, h, w, calls - 1) ==>
              (ModeAfter(cfg, h + Told(w, calls, outcome)).HalfOpen? <==> Trailing(h) + calls - 1 >= cfg.threshold)
    ensures outcome.Refused? && !MayAsk(cfg, h, w, calls) ==>
              (ModeAfter(cfg, h + Told(w, calls, outcome)).HalfOpen? <==> calls == 0 && ModeAfter(cfg, h).HalfOpen?)
  {
    match outcome
    case Returned(_) =>
      Append(h, Asked(w, calls - 1), Success);
      OutcomesAreCounted(cfg, h + Asked(w, calls - 1), 0.0);
    case PlanningFailure =>
      AskedLeaves(cfg, h, w, calls - 1);
    case Raised =>
      AskedLeaves(cfg, h, w, calls - 1);
    case TransportFailure =>
      FailuresAreTold(cfg, h, w, calls);
    case Refused =>
      FailuresAreTold(cfg, h, w, calls);
      AskedLeaves(cfg, h, w, calls);
      if calls == 0 { assert h + Failures(w, 0) == h; }
  }

  /** A probe ends without an outcome: some attempt was admitted out of the open
      state and ended in anything but a plan or a transport failure. */
  ghost predicate Strands(cfg: Settings, max: nat, h: seq<Event>, w: World) {
    exists k: nat :: Reached(cfg, max, h, w, k) && Silent(w.answers(k)) && Trailing(h) + k >= cfg.threshold
  }

  /** The breaker is half-open after the call if and only if it was before or the
      call strands a probe. */
  lemma StrandedExactly(cfg: Settings, max: nat, h: seq<Event>, w: World, calls: nat, outcome: Outcome)
    requires cfg.threshold >= 1 && Ends(cfg, max, h, w, calls, outcome)
    ensures ModeAfter(cfg, h + Told(w, calls, outcome)).HalfOpen?
            <==> ModeAfter(cfg, h).HalfOpen? || Strands(cfg, max, h, w)
    ensures ModeAfter(cfg, h).HalfOpen? ==> outcome == Refused && calls == 0
  {
    ToldLeaves(cfg, h, w, calls, outcome);
    if calls > 0 { ReachedBefore(cfg, max, h, w, 0, calls - 1); }
    forall k: nat | Reached(cfg, max, h, w, k) && Silent(w.answers(k))
      ensures k == calls - 1 && (outcome == PlanningFailure || outcome == Raised)
    {
      EndIsDetermined(cfg, max, h, w, k + 1, if w.answers(k).Invalid? then PlanningFailure else Raised, calls, outcome);
    }
  }

  /** Three failures and a recovery time: the first attempt is a probe. */
  lemma ThirdFailureThenProbe(max: nat, w: World)
    requires max >= 1 && w.asked(0) == 30.0
    ensures var cfg, h := Settings(3, 30.0), [Failure(0.0), Failure(0.0), Failure(0.0)];
            Trailing(h) == 3 && Reached(cfg, max, h, w, 0)
  {
    var cfg, h := Settings(3, 30.0), [Failure(0.0), Failure(0.0), Failure(0.0)];
    OutcomesAreCounted(cfg, [], 0.0);
    OutcomesAreCounted(cfg, [Failure(0.0)], 0.0);
    OutcomesAreCounted(cfg, [Failure(0.0), Failure(0.0)], 0.0);
    assert h == [Failure(0.0), Failure(0.0)] + [Failure(0.0)] && [Failure(0.0), Failure(0.0)] == [Failure(0.0)] + [Failure(0.0)];
  }

  /** When its answer is not a plan, the probe strands ... */
  lemma AnInvalidProbeStrands(w: World)
    requires w.asked(0) == 30.0 && w.answers(0).Invalid?
    ensures Strands(Settings(3, 30.0), 2, [Failure(0.0), Failure(0.0), Failure(0.0)], w)
  {
    ThirdFailureThenProbe(2, w);
  }

  /** ... and when an exception escapes that is no PlanningError, say a connection
      closed before the response. */
  lemma AnEscapedProbeStrands(w: World)
    requires w.asked(0) == 30.0 && w.answers(0).Escaped?
    ensures Strands(Settings(3, 30.0), 2, [Failure(0.0), Failure(0.0), Failure(0.0)], w)
  {
    ThirdFailureThenProbe(2, w);
  }

  /** The retry can strand too: its own readmission is the probe. */
  lemma AnInvalidRetryStrands(w: World)
    requires w.answers(0).Transport? && w.answers(1).Invalid? && w.asked(1) - w.failed(0) >= 1.0
    ensures Strands(Settings(1, 1.0), 2, [], w)
  {
    assert Reached(Settings(1, 1.0), 2, [], w, 0) && Reached(Settings(1, 1.0), 2, [], w, 1);
  }

  class ResilientPlanner {
    const breaker: CircuitBreaker
    const maxAttempts: nat

    constructor (breaker: CircuitBreaker, maxAttempts: nat)
      requires 1 <= maxAttempts <= 3
      ensures this.breaker == breaker && this.maxAttempts == maxAttempts
    {
      this.breaker := breaker;
      this.maxAttempts := maxAttempts;
    }

    /** `calls` counts the planner calls made.  The final raise after the loop is
        never reached: every call ends in one of the five outcomes. */
    method Plan(w: World) returns (outcome: Outcome, calls: nat)
      requires 1 <= maxAttempts && breaker.Valid()
      modifies breaker
      ensures breaker.Valid()
      ensures Ends(breaker.cfg, maxAttempts, old(breaker.history), w, calls, outcome)
      ensures breaker.history == old(breaker.history) + Told(w, calls, outcome)
      ensures ModeOf(breaker.Value()).HalfOpen?
              <==> ModeOf(old(breaker.Value())).HalfOpen?
                   || Strands(breaker.cfg, maxAttempts, old(breaker.history), w)
      ensures ModeOf(old(breaker.Value())).HalfOpen? ==> outcome == Refused && calls == 0
    {
      ghost var cfg, h := breaker.cfg, breaker.history;
      outcome, calls := PlanLoop(w);
      StrandedExactly(cfg, maxAttempts, h, w, calls, outcome);
    }

    method PlanLoop(w: World) returns (outcome: Outcome, calls: nat)
      requires 1 <= maxAttempts && breaker.Valid()
      modifies breaker
      ensures breaker.Valid() && Ends(breaker.cfg, maxAttempts, old(breaker.history), w, calls, outcome)
      ensures breaker.history == old(breaker.history) + Told(w, calls, outcome)
    {
      hide Silent;
      ghost var cfg, h := breaker.cfg, breaker.history;
      calls := 0;
      assert h + Failures(w, 0) == h;
      Append(h, Failures(w, 0), Ask(w.asked(0)));
      var ok := breaker.BeforeCall(w.asked(0));
      if !ok { return Refused, 0; }
      while true
        invariant calls < maxAttempts && breaker.Valid() && Reached(cfg, maxAttempts, h, w, calls)
        invariant breaker.history == h + Asked(w, calls)
        decreases maxAttempts - calls
      {
        var answer := w.answers(calls);
        calls := calls + 1;
        match answer
        case Transport =>
          Append(h, Asked(w, calls - 1), Failure(w.failed(calls - 1)));
          breaker.RecordFailure(w.failed(calls - 1));
          if calls >= maxAttempts { return TransportFailure, calls; }
          FailuresAreTold(cfg, h, w, calls);
          Append(h, Failures(w, calls), Ask(w.asked(calls)));
          ok := breaker.BeforeCall(w.asked(calls));
          if !ok { return Refused, calls; }
        case Invalid =>
          return PlanningFailure, calls;
        case Escaped =>
          return Raised, calls;
        case Planned(plan) =>
          Append(h, Asked(w, calls - 1), Success);
          breaker.RecordSuccess();
          return Returned(plan), calls;
      }
    }

    /** Any number of plan calls in a row: each ends as its breaker history calls
        for, and once a probe was stranded every later call is refused without
        reaching the planner. */
    method PlanAll(worlds: seq<World>) returns (outcomes: seq<Outcome>, calls: seq<nat>, ghost histories: seq<seq<Event>>)
      requires 1 <= maxAttempts && breaker.Valid()
      modifies breaker
      ensures breaker.Valid() && |outcomes| == |calls| == |worlds| && |histories| == |worlds| + 1
      ensures histories[0] == old(breaker.history) && histories[|worlds|] == breaker.history
      ensures forall i {:trigger StepOf(worlds, outcomes, calls, histories, i)} :: 0 <= i < |worlds| ==>
                StepOf(worlds, outcomes, calls, histories, i)
      ensures forall i, j :: 0 <= i <= j < |worlds| && ModeAfter(breaker.cfg, histories[i]).HalfOpen? ==>
                outcomes[j] == Refused && calls[j] == 0
    {
      outcomes, calls, histories := [], [], [breaker.history];
      while |outcomes| < |worlds|
        invariant |outcomes| == |calls| <= |worlds| && |histories| == |outcomes| + 1 && breaker.Valid()
        invariant histories[0] == old(breaker.history) && histories[|outcomes|] == breaker.history
        invariant forall i {:trigger StepOf(worlds, outcomes, calls, histories, i)} :: 0 <= i < |outcomes| ==>
                    StepOf(worlds, outcomes, calls, histories, i)
        invariant forall i :: 0 <= i <= |outcomes| && ModeAfter(breaker.cfg, histories[i]).HalfOpen? ==>
                    ModeOf(breaker.Value()).HalfOpen?
        invariant forall i, j :: 0 <= i <= j < |outcomes| && ModeAfter(breaker.cfg, histories[i]).HalfOpen? ==>
                    outcomes[j] == Refused && calls[j] == 0
      {
        var outcome, n := Plan(worlds[|outcomes|]);
        ghost var was, made, told := outcomes, calls, histories;
        outcomes, calls, histories := outcomes + [outcome], calls + [n], histories + [breaker.history];
        forall i | 0 <= i < |outcomes| ensures StepOf(worlds, outcomes, calls, histories, i) {
          if i < |was| { assert StepOf(worlds, was, made, told, i); }
        }
      }
    }

    /** Plan i of a series ended as the history before it calls for. */
    ghost predicate StepOf(worlds: seq<World>, outcomes: seq<Outcome>, calls: seq<nat>, histories: seq<seq<Event>>, i: int)
    {
      && 0 <= i < |worlds| && i < |outcomes| && i < |calls| && i + 1 < |histories|
      && Ends(breaker.cfg, maxAttempts, histories[i], worlds[i], calls[i], outcomes[i])
      && histories[i + 1] == histories[i] + Told(worlds[i], calls[i], outcomes[i])
    }
  }
}
