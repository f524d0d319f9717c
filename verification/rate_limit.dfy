/** The sliding-window limiter of backend/rate_limit.py against the full history
    of its calls.  Calls are serialised and read a non-decreasing clock. */
module RateLimit {
  import opened TaskContracts

  datatype Settings = Settings(limit: nat, window: real, maxKeys: nat)

  datatype Answer = Admitted(remaining: nat) | KeysFull | Exceeded(retryAfter: real)

  /** One past call. */
  datatype Event = Event(key: string, now: real, answer: Answer)

  // ----- The full history -----

  /** The times at which the key was admitted, oldest first. */
  ghost function Admissions(history: seq<Event>, key: string): seq<real> {
    if history == [] then []
    else
      var last := history[|history| - 1];
      var times := Admissions(history[..|history| - 1], key);
      if last.key == key then Granted(times, last.now, last.answer) else times
  }

  function Granted(times: seq<real>, now: real, answer: Answer): seq<real> {
    if answer.Admitted? then times + [now] else times
  }

  lemma AdmissionsAfter(history: seq<Event>, event: Event, key: string)
    ensures Admissions(history + [event], key)
            == if event.key == key then Granted(Admissions(history, key), event.now, event.answer) else Admissions(history, key)
  {
    assert (history + [event])[..|history + [event]| - 1] == history;
  }

  /** How many of the times are later than the cutoff. */
  ghost function Count(times: seq<real>, cutoff: real): nat {
    if times == [] then 0
    else Count(times[..|times| - 1], cutoff) + if times[|times| - 1] > cutoff then 1 else 0
  }

  /** How many of the times lie in the half-open window (low, high]. */
  ghost function Between(times: seq<real>, low: real, high: real): nat {
    if times == [] then 0
    else Between(times[..|times| - 1], low, high)
         + if low < times[|times| - 1] && times[|times| - 1] <= high then 1 else 0
  }

  ghost predicate Sorted(times: seq<real>) {
    |times| <= 1 || (Sorted(times[1..]) && times[0] <= times[1])
  }

  ghost predicate AllAtMost(times: seq<real>, bound: real) {
    forall i :: 0 <= i < |times| ==> times[i] <= bound
  }

  ghost predicate AllAbove(times: seq<real>, bound: real) {
    forall i :: 0 <= i < |times| ==> times[i] > bound
  }

  lemma {:induction false} SortedAbove(times: seq<real>, bound: real)
    requires Sorted(times) && times != [] && times[0] > bound
    ensures AllAbove(times, bound)
  {
    if |times| > 1 {
      SortedAbove(times[1..], bound);
      assert times == [times[0]] + times[1..];
    }
  }

  lemma {:induction false} SortedBelow(times: seq<real>, bound: real)
    requires Sorted(times) && times != [] && times[|times| - 1] <= bound
    ensures AllAtMost(times, bound)
  {
    if |times| > 1 {
      SortedBelow(times[1..], bound);
      assert times == [times[0]] + times[1..];
    }
  }

  lemma {:induction false} SortedSuffix(a: seq<real>, b: seq<real>)
    requires Sorted(a + b)
    ensures Sorted(b)
  {
    if a == [] {
      assert a + b == b;
    } else {
      assert (a + b)[1..] == a[1..] + b;
      SortedSuffix(a[1..], b);
    }
  }

  lemma {:induction false} SortedAppend(times: seq<real>, now: real)
    requires Sorted(times) && AllAtMost(times, now)
    ensures Sorted(times + [now])
  {
    if |times| > 1 {
      SortedAppend(times[1..], now);
      assert (times + [now])[1..] == times[1..] + [now];
    }
  }

  lemma {:induction false} CountConcat(a: seq<real>, b: seq<real>, cutoff: real)
    ensures Count(a + b, cutoff) == Count(a, cutoff) + Count(b, cutoff)
  {
    if b == [] {
      assert a + b == a;
    } else {
      CountConcat(a, b[..|b| - 1], cutoff);
      assert (a + b)[..|a + b| - 1] == a + b[..|b| - 1];
    }
  }

  lemma {:induction false} CountRange(times: seq<real>, cutoff: real)
    ensures Count(times, cutoff) <= |times|
    ensures AllAtMost(times, cutoff) ==> Count(times, cutoff) == 0
    ensures AllAbove(times, cutoff) ==> Count(times, cutoff) == |times|
  {
    if times != [] { CountRange(times[..|times| - 1], cutoff); }
  }

  lemma {:induction false} CountMonotone(times: seq<real>, low: real, high: real)
    requires low <= high
    ensures Count(times, high) <= Count(times, low)
  {
    if times != [] { CountMonotone(times[..|times| - 1], low, high); }
  }

  lemma {:induction false} BetweenAtMostCount(times: seq<real>, low: real, high: real)
    ensures Between(times, low, high) <= Count(times, low)
  {
    if times != [] { BetweenAtMostCount(times[..|times| - 1], low, high); }
  }

  /** With an old part below the cutoff and a recent part above it. */
  lemma CountSplit(past: seq<real>, recent: seq<real>, cutoff: real)
    requires AllAtMost(past, cutoff)
    ensures Count(past + recent, cutoff) == Count(recent, cutoff)
    ensures AllAbove(recent, cutoff) ==> Count(past + recent, cutoff) == |recent|
  {
    CountConcat(past, recent, cutoff);
    CountRange(past, cutoff);
    CountRange(recent, cutoff);
  }

  /** Call n was admitted with fewer than `limit` admissions of its key in its window. */
  ghost predicate FairAt(cfg: Settings, history: seq<Event>, n: nat)
    requires n < |history|
  {
    history[n].answer.Admitted? ==>
      Count(Admissions(history[..n], history[n].key), history[n].now - cfg.window) < cfg.limit
  }

  ghost predicate FairlyAdmitted(cfg: Settings, history: seq<Event>) {
    forall n: nat {:trigger FairAt(cfg, history, n)} :: n < |history| ==> FairAt(cfg, history, n)
  }

  lemma FairPrefix(cfg: Settings, history: seq<Event>, event: Event)
    requires event.answer.Admitted? ==> Count(Admissions(history, event.key), event.now - cfg.window) < cfg.limit
    ensures FairlyAdmitted(cfg, history + [event]) <==> FairlyAdmitted(cfg, history)
  {
    var longer := history + [event];
    forall n: nat | n < |history| ensures FairAt(cfg, longer, n) == FairAt(cfg, history, n) {
      assert longer[..n] == history[..n];
    }
    assert longer[..|history|] == history;
    assert FairAt(cfg, longer, |history|);
  }

  /** No window of the configured length, wherever it ends, holds more than `limit`
      admissions of a key. */
  lemma {:induction false} WindowsAreBounded(cfg: Settings, history: seq<Event>, key: string, end: real)
    requires FairlyAdmitted(cfg, history)
    ensures Between(Admissions(history, key), end - cfg.window, end) <= cfg.limit
  {
    if history != [] {
      var rest, event := history[..|history| - 1], history[|history| - 1];
      assert history == rest + [event];
      assert FairAt(cfg, history, |rest|);
      assert history[..|rest|] == rest;
      FairPrefix(cfg, rest, event);
      WindowsAreBounded(cfg, rest, key, end);
      AdmissionsAfter(rest, event, key);
      var times := Admissions(rest, key);
      if event.key == key && event.answer.Admitted? {
        assert (times + [event.now])[..|times|] == times;
        assert Admissions(history, key) == times + [event.now];
        if event.now <= end {
          CountMonotone(times, event.now - cfg.window, end - cfg.window);
          BetweenAtMostCount(times, end - cfg.window, end);
        }
      }
    }
  }

  /** A call at the given time would find the window full. */
  ghost predicate WindowFull(cfg: Settings, times: seq<real>, at: real) {
    Count(times, at - cfg.window) >= cfg.limit
  }

  /** The wait is exact: a repetition after it would find room, none before would. */
  ghost predicate IsRetry(cfg: Settings, times: seq<real>, now: real, wait: real) {
    && wait > 0.0
    && !WindowFull(cfg, times, now + wait)
    && forall at: real {:trigger WindowFull(cfg, times, at)} :: now <= at < now + wait ==> WindowFull(cfg, times, at)
  }

  // ----- What the stored deques mean -----

  /** The deque of a key is the end of its admissions; what is missing is too old
      to matter now or later. */
  ghost predicate Remembers(times: seq<real>, stored: seq<real>, cutoff: real) {
    if stored == [] then AllAtMost(times, cutoff)
    else times != [] && times[|times| - 1] == stored[|stored| - 1]
         && Remembers(times[..|times| - 1], stored[..|stored| - 1], cutoff)
  }

  /** The admissions a deque no longer holds. */
  lemma {:induction false} Forgotten(times: seq<real>, stored: seq<real>, cutoff: real) returns (past: seq<real>)
    requires Remembers(times, stored, cutoff)
    ensures times == past + stored && AllAtMost(past, cutoff)
  {
    if stored == [] {
      past := times;
    } else {
      past := Forgotten(times[..|times| - 1], stored[..|stored| - 1], cutoff);
    }
  }

  lemma {:induction false} Remembered(past: seq<real>, stored: seq<real>, cutoff: real)
    requires AllAtMost(past, cutoff)
    ensures Remembers(past + stored, stored, cutoff)
  {
    if stored == [] {
      assert past + stored == past;
    } else {
      Remembered(past, stored[..|stored| - 1], cutoff);
      assert (past + stored)[..|past + stored| - 1] == past + stored[..|stored| - 1];
    }
  }

  ghost predicate DequeOk(cfg: Settings, times: seq<real>, stored: seq<real>, last: real) {
    && Sorted(times) && AllAtMost(times, last) && |stored| <= cfg.limit
    && Remembers(times, stored, last - cfg.window)
  }

  ghost function StoredOf(events: map<string, seq<real>>, key: string): seq<real> {
    if key in events then events[key] else []
  }

  ghost predicate KeyOk(cfg: Settings, events: map<string, seq<real>>, history: seq<Event>, last: real, key: string) {
    DequeOk(cfg, Admissions(history, key), StoredOf(events, key), last) && (key in events ==> events[key] != [])
  }

  /** A stored event inside the window. */
  predicate Recent(deque: seq<real>, cutoff: real) {
    deque != [] && deque[|deque| - 1] > cutoff
  }

  /** A key with an admission inside the window. */
  ghost predicate Live(cfg: Settings, history: seq<Event>, now: real, key: string) {
    Count(Admissions(history, key), now - cfg.window) > 0
  }

  lemma RecentIsCounted(cfg: Settings, times: seq<real>, stored: seq<real>, last: real, cutoff: real)
    requires DequeOk(cfg, times, stored, last) && last - cfg.window <= cutoff
    ensures Count(times, cutoff) > 0 <==> Recent(stored, cutoff)
  {
    var past := Forgotten(times, stored, last - cfg.window);
    CountSplit(past, stored, cutoff);
    SortedSuffix(past, stored);
    if stored != [] && stored[|stored| - 1] <= cutoff {
      SortedBelow(stored, cutoff);
      CountRange(stored, cutoff);
    }
  }

  /** Dropping what the window has left behind keeps the rest of the history. */
  lemma StillRemembers(times: seq<real>, stored: seq<real>, n: nat, cutoff: real, later: real)
    requires Remembers(times, stored, cutoff) && cutoff <= later && n <= |stored| && AllAtMost(stored[..n], later)
    ensures Remembers(times, stored[n..], later)
  {
    var past := Forgotten(times, stored, cutoff);
    assert stored == stored[..n] + stored[n..];
    assert times == (past + stored[..n]) + stored[n..];
    Remembered(past + stored[..n], stored[n..], later);
  }

  lemma Appended(cfg: Settings, times: seq<real>, stored: seq<real>, now: real)
    requires DequeOk(cfg, times, stored, now) && |stored| < cfg.limit
    ensures DequeOk(cfg, times + [now], stored + [now], now)
  {
    SortedAppend(times, now);
    assert (times + [now])[..|times|] == times && (stored + [now])[..|stored|] == stored;
  }

  /** The deque after the old events were popped is exactly the window. */
  lemma RecentAreCounted(times: seq<real>, deque: seq<real>, cutoff: real)
    requires Remembers(times, deque, cutoff) && Sorted(times) && (deque == [] || deque[0] > cutoff)
    ensures Count(times, cutoff) == |deque|
  {
    var past := Forgotten(times, deque, cutoff);
    SortedSuffix(past, deque);
    if deque != [] { SortedAbove(deque, cutoff); }
    CountSplit(past, deque, cutoff);
  }

  lemma RetryIsExact(cfg: Settings, times: seq<real>, deque: seq<real>, now: real)
    requires Remembers(times, deque, now - cfg.window) && Sorted(times)
    requires |deque| == cfg.limit >= 1 && deque[0] > now - cfg.window
    ensures IsRetry(cfg, times, now, cfg.window - (now - deque[0]))
  {
    var wait := cfg.window - (now - deque[0]);
    var past := Forgotten(times, deque, now - cfg.window);
    SortedSuffix(past, deque);
    FirstLeaves(past, deque, now + wait - cfg.window);
    forall at: real | now <= at < now + wait ensures WindowFull(cfg, times, at) {
      SortedAbove(deque, at - cfg.window);
      CountSplit(past, deque, at - cfg.window);
    }
  }

  /** When the window starts at the first stored event, that event is out of it. */
  lemma FirstLeaves(past: seq<real>, deque: seq<real>, cutoff: real)
    requires deque != [] && cutoff == deque[0] && AllAtMost(past, cutoff)
    ensures Count(past + deque, cutoff) < |deque|
  {
    assert deque == [deque[0]] + deque[1..];
    CountSplit(past, deque, cutoff);
    CountConcat([deque[0]], deque[1..], cutoff);
    CountRange([deque[0]], cutoff);
    CountRange(deque[1..], cutoff);
  }

  /** Time passing, and eviction of keys that left the window, keep a key's deque
      faithful to its history. */
  lemma LaterIsOk(cfg: Settings, before: map<string, seq<real>>, events: map<string, seq<real>>, history: seq<Event>,
                  last: real, now: real, key: string)
    requires KeyOk(cfg, before, history, last, key) && last <= now
    requires key in events ==> key in before && events[key] == before[key]
    requires key in before && key !in events ==> !Recent(before[key], now - cfg.window)
    ensures KeyOk(cfg, events, history, now, key)
  {
    var times, stored := Admissions(history, key), StoredOf(before, key);
    LaterDeque(cfg, times, stored, last, now, key in events);
  }

  lemma LaterDeque(cfg: Settings, times: seq<real>, stored: seq<real>, last: real, now: real, kept: bool)
    requires DequeOk(cfg, times, stored, last) && last <= now && (kept || !Recent(stored, now - cfg.window))
    ensures DequeOk(cfg, times, if kept then stored else [], now)
  {
    var past := Forgotten(times, stored, last - cfg.window);
    SortedSuffix(past, stored);
    var n := if kept then 0 else |stored|;
    assert stored[..|stored|] == stored;
    if !kept && stored != [] { SortedBelow(stored, now - cfg.window); }
    StillRemembers(times, stored, n, last - cfg.window, now - cfg.window);
    assert stored[n..] == if kept then stored else [];
  }

  /** The call is added to the history of its key and to no other. */
  lemma LoggedIsOk(cfg: Settings, before: map<string, seq<real>>, events: map<string, seq<real>>, history: seq<Event>,
                   event: Event, key: string)
    requires KeyOk(cfg, before, history, event.now, key)
    requires key != event.key ==> StoredOf(events, key) == StoredOf(before, key) && (key in events <==> key in before)
    requires key == event.key ==>
               DequeOk(cfg, Admissions(history + [event], key), StoredOf(events, key), event.now)
               && (key in events ==> events[key] != [])
    ensures KeyOk(cfg, events, history + [event], event.now, key)
  {
    AdmissionsAfter(history, event, key);
  }

  ghost predicate KeysOk(cfg: Settings, events: map<string, seq<real>>, history: seq<Event>, last: real) {
    forall key {:trigger KeyOk(cfg, events, history, last, key)} :: KeyOk(cfg, events, history, last, key)
  }

  lemma AllLaterOk(cfg: Settings, before: map<string, seq<real>>, events: map<string, seq<real>>, history: seq<Event>,
                   last: real, now: real)
    requires KeysOk(cfg, before, history, last) && last <= now
    requires forall key :: key in events ==> key in before && events[key] == before[key]
    requires forall key :: key in before && key !in events ==> !Recent(before[key], now - cfg.window)
    ensures KeysOk(cfg, events, history, now)
  {
    forall key ensures KeyOk(cfg, events, history, now, key) {
      assert KeyOk(cfg, before, history, last, key);
      LaterIsOk(cfg, before, events, history, last, now, key);
    }
  }

  /** After an eviction the stored keys are exactly the live ones. */
  lemma EvictedAreDead(cfg: Settings, before: map<string, seq<real>>, events: map<string, seq<real>>, history: seq<Event>,
                       last: real, now: real)
    requires KeysOk(cfg, before, history, last) && last <= now
    requires forall key :: key in events <==> key in before && Recent(before[key], now - cfg.window)
    ensures forall key :: key in events <==> Live(cfg, history, now, key)
  {
    forall key ensures key in events <==> Live(cfg, history, now, key) {
      assert KeyOk(cfg, before, history, last, key);
      RecentIsCounted(cfg, Admissions(history, key), StoredOf(before, key), last, now - cfg.window);
    }
  }

  lemma AllLoggedOk(cfg: Settings, before: map<string, seq<real>>, events: map<string, seq<real>>, history: seq<Event>, event: Event)
    requires KeysOk(cfg, before, history, event.now)
    requires forall k :: k != event.key ==> (k in events <==> k in before) && (k in events ==> events[k] == before[k])
    requires DequeOk(cfg, Admissions(history + [event], event.key), StoredOf(events, event.key), event.now)
    requires event.key in events ==> events[event.key] != []
    ensures KeysOk(cfg, events, history + [event], event.now)
  {
    forall key ensures KeyOk(cfg, events, history + [event], event.now, key) {
      assert KeyOk(cfg, before, history, event.now, key);
      LoggedIsOk(cfg, before, events, history, event, key);
    }
  }

  /** The state after a call that stored its key's deque. */
  lemma StoredCall(cfg: Settings, events: map<string, seq<real>>, history: seq<Event>, event: Event, deque: seq<real>)
    requires KeysOk(cfg, events, history, event.now) && FairlyAdmitted(cfg, history) && deque != []
    requires event.answer.Admitted? ==> Count(Admissions(history, event.key), event.now - cfg.window) < cfg.limit
    requires DequeOk(cfg, Granted(Admissions(history, event.key), event.now, event.answer), deque, event.now)
    ensures KeysOk(cfg, events[event.key := deque], history + [event], event.now) && FairlyAdmitted(cfg, history + [event])
  {
    AdmissionsAfter(history, event, event.key);
    AllLoggedOk(cfg, events, events[event.key := deque], history, event);
    FairPrefix(cfg, history, event);
  }

  /** The state after a call that was refused for want of room. */
  lemma RefusedCall(cfg: Settings, events: map<string, seq<real>>, history: seq<Event>, event: Event)
    requires KeysOk(cfg, events, history, event.now) && FairlyAdmitted(cfg, history) && !event.answer.Admitted?
    ensures KeysOk(cfg, events, history + [event], event.now) && FairlyAdmitted(cfg, history + [event])
  {
    AdmissionsAfter(history, event, event.key);
    assert KeyOk(cfg, events, history, event.now, event.key);
    AllLoggedOk(cfg, events, events, history, event);
    FairPrefix(cfg, history, event);
  }

  /** Pops the events the window has left behind. */
  method PopOld(stored: seq<real>, cutoff: real) returns (deque: seq<real>, ghost popped: nat)
    ensures popped <= |stored| && deque == stored[popped..] && AllAtMost(stored[..popped], cutoff)
    ensures deque == [] || deque[0] > cutoff
  {
    deque, popped := stored, 0;
    while deque != [] && deque[0] <= cutoff
      invariant popped <= |stored| && deque == stored[popped..] && AllAtMost(stored[..popped], cutoff)
      decreases |deque|
    {
      assert stored[..popped + 1] == stored[..popped] + [deque[0]];
      deque, popped := deque[1..], popped + 1;
    }
  }

  /** A known key is admitted exactly when fewer than `limit` of its past admissions
      lie in the window that ends now; otherwise it is told exactly how long to wait. */
  ghost predicate Judged(cfg: Settings, times: seq<real>, now: real, answer: Answer) {
    var past := Count(times, now - cfg.window);
    match answer
    case Admitted(remaining) => past < cfg.limit && remaining == cfg.limit - past - 1
    case Exceeded(wait) => past >= cfg.limit && IsRetry(cfg, times, now, wait)
    case KeysFull => false
  }

  /** The decision on one deque, against the admissions it stands for. */
  method Judge(cfg: Settings, stored: seq<real>, now: real, ghost times: seq<real>) returns (deque: seq<real>, answer: Answer)
    requires cfg.limit >= 1 && DequeOk(cfg, times, stored, now)
    ensures deque != [] && DequeOk(cfg, Granted(times, now, answer), deque, now)
    ensures Judged(cfg, times, now, answer)
  {
    var cutoff := now - cfg.window;
    ghost var n;
    deque, n := PopOld(stored, cutoff);
    PoppedIsWindow(cfg, times, stored, n, now);
    if |deque| >= cfg.limit {
      answer := Exceeded(cfg.window - (now - deque[0]));
      RetryIsExact(cfg, times, deque, now);
    } else {
      Appended(cfg, times, deque, now);
      deque := deque + [now];
      answer := Admitted(cfg.limit - |deque|);
    }
  }

  lemma PoppedIsWindow(cfg: Settings, times: seq<real>, stored: seq<real>, n: nat, now: real)
    requires DequeOk(cfg, times, stored, now) && n <= |stored| && AllAtMost(stored[..n], now - cfg.window)
    requires stored[n..] == [] || stored[n..][0] > now - cfg.window
    ensures DequeOk(cfg, times, stored[n..], now) && Count(times, now - cfg.window) == |stored[n..]|
  {
    StillRemembers(times, stored, n, now - cfg.window, now - cfg.window);
    RecentAreCounted(times, stored[n..], now - cfg.window);
  }

  /** The part of `check` on the key's own deque. */
  method Touch(cfg: Settings, events: map<string, seq<real>>, key: string, now: real, ghost history: seq<Event>)
    returns (updated: map<string, seq<real>>, answer: Answer)
    requires cfg.limit >= 1 && FairlyAdmitted(cfg, history) && KeysOk(cfg, events, history, now)
    ensures updated.Keys == events.Keys + {key} && |updated| == |events| + (if key in events then 0 else 1)
    ensures KeysOk(cfg, updated, history + [Event(key, now, answer)], now)
    ensures FairlyAdmitted(cfg, history + [Event(key, now, answer)])
    ensures Judged(cfg, Admissions(history, key), now, answer)
  {
    ghost var times := Admissions(history, key);
    var stored := if key in events then events[key] else [];
    KnownKey(cfg, events, history, now, key);
    var deque;
    deque, answer := Judge(cfg, stored, now, times);
    StoredCall(cfg, events, history, Event(key, now, answer), deque);
    updated := events[key := deque];
    PutSize(events, key, deque);
  }

  lemma PutSize(events: map<string, seq<real>>, key: string, deque: seq<real>)
    ensures events[key := deque].Keys == events.Keys + {key}
    ensures |events[key := deque]| == |events| + (if key in events then 0 else 1)
  {
    assert events[key := deque].Keys == events.Keys + {key};
  }

  lemma KnownKey(cfg: Settings, events: map<string, seq<real>>, history: seq<Event>, now: real, key: string)
    requires KeysOk(cfg, events, history, now)
    ensures DequeOk(cfg, Admissions(history, key), StoredOf(events, key), now)
  {
    assert KeyOk(cfg, events, history, now, key);
  }

  class SlidingWindowLimiter {
    const cfg: Settings
    var events: map<string, seq<real>>
    ghost var history: seq<Event>
    ghost var last: real

    ghost predicate Valid()
      reads this
    {
      && cfg.limit >= 1 && cfg.window > 0.0 && cfg.maxKeys >= 1
      && |events| <= cfg.maxKeys && FairlyAdmitted(cfg, history) && KeysOk(cfg, events, history, last)
    }

    constructor (cfg: Settings, start: real)
      requires cfg.limit >= 1 && cfg.window > 0.0 && cfg.maxKeys >= 1
      ensures Valid() && this.cfg == cfg && events == map[] && history == [] && last == start
    {
      this.cfg := cfg;
      events := map[];
      history := [];
      last := start;
    }

    /** Removes the keys whose last event has left the window, one by one. */
    method Evict(cutoff: real)
      modifies `events
      ensures forall key :: key in events <==> key in old(events) && Recent(old(events)[key], cutoff)
      ensures forall key :: key in events ==> events[key] == old(events)[key]
      ensures |events| <= |old(events)|
    {
      var rest := events.Keys;
      ghost var was := events;
      while rest != {}
        invariant rest <= events.Keys <= was.Keys && |events| <= |was|
        invariant forall key :: key in events ==> events[key] == was[key]
        invariant forall key :: key in was && key !in rest ==> (key in events <==> Recent(was[key], cutoff))
        decreases |rest|
      {
        var name :| name in rest;
        rest := rest - {name};
        if !Recent(events[name], cutoff) {
          assert events.Keys == (events - {name}).Keys + {name};
          events := events - {name};
        }
      }
    }

    /** `check`.  Only a key without a deque can be refused for want of room, and only
        when every one of the `maxKeys` stored keys has an admission in the window. */
    method Check(key: string, now: real) returns (answer: Answer)
      requires Valid() && last <= now
      modifies this
      ensures Valid() && last == now && history == old(history) + [Event(key, now, answer)]
      ensures !answer.KeysFull? ==> key in events && Judged(cfg, Admissions(old(history), key), now, answer)
      ensures answer.KeysFull? ==> key !in old(events) && |events| == cfg.maxKeys
                                   && forall k :: k in events <==> Live(cfg, old(history), now, k)
    {
      ghost var was, before := history, events;
      var cutoff := now - cfg.window;
      if key !in events && |events| >= cfg.maxKeys {
        Evict(cutoff);
        EvictedAreDead(cfg, before, events, was, last, now);
        AllLaterOk(cfg, before, events, was, last, now);
        if |events| >= cfg.maxKeys {
          RefusedCall(cfg, events, was, Event(key, now, KeysFull));
          history, last := history + [Event(key, now, KeysFull)], now;
          return KeysFull;
        }
      } else {
        AllLaterOk(cfg, before, events, was, last, now);
      }
      events, answer := Touch(cfg, events, key, now, was);
      history, last := was + [Event(key, now, answer)], now;
    }
  }
}
