/** The LRU+TTL response cache of the Model Gateway against the history of its
    puts and hits.  Cache keys are injective in tenant, actor and request; calls
    are serialised and read a non-decreasing clock. */
module ResponseCache {
  import opened TaskContracts

  datatype Settings = Settings(maxEntries: nat, ttl: real) {
    predicate Enabled() {
      maxEntries != 0 && ttl != 0.0
    }
  }

  /** The part of a response that a hit hands out again. */
  datatype Stored = Stored(provider: string, content: string)

  datatype Entry = Entry(expiresAt: real, response: Stored)

  datatype Event = Put(key: string, response: Stored, now: real) | Hit(key: string) | Miss(key: string) | Clear

  // ----- The history -----

  /** The latest put of the key, unless the cache was cleared since. */
  ghost function LatestPut(history: seq<Event>, key: string): Option<Event> {
    if history == [] then None
    else
      var last := history[|history| - 1];
      if last.Clear? then None
      else if last.Put? && last.key == key then Some(last)
      else LatestPut(history[..|history| - 1], key)
  }

  predicate Touches(e: Event, key: string) {
    (e.Put? || e.Hit?) && e.key == key
  }

  /** The other keys put or hit since the key was last put or hit. */
  ghost function Others(history: seq<Event>, key: string): set<string> {
    if history == [] then {}
    else
      var last := history[|history| - 1];
      if last.Clear? || Touches(last, key) then {}
      else Others(history[..|history| - 1], key) + if last.Put? || last.Hit? then {last.key} else {}
  }

  lemma HistoryStep(history: seq<Event>, e: Event, key: string)
    ensures LatestPut(history + [e], key)
            == if e.Clear? then None else if e.Put? && e.key == key then Some(e) else LatestPut(history, key)
    ensures Others(history + [e], key)
            == if e.Clear? || Touches(e, key) then {}
               else Others(history, key) + if e.Put? || e.Hit? then {e.key} else {}
  {
    assert (history + [e])[..|history + [e]| - 1] == history;
  }

  ghost function Expiry(cfg: Settings, put: Event): real
    requires put.Put?
  {
    put.now + cfg.ttl
  }

  lemma {:induction false} LatestIsPut(history: seq<Event>, key: string)
    ensures LatestPut(history, key).Some? ==> LatestPut(history, key).value.Put? && LatestPut(history, key).value.key == key
  {
    if history != [] { LatestIsPut(history[..|history| - 1], key); }
  }

  lemma {:induction false} DistinctFit(xs: seq<string>, ys: set<string>)
    requires forall i, j :: 0 <= i < j < |xs| ==> xs[i] != xs[j]
    requires forall i :: 0 <= i < |xs| ==> xs[i] in ys
    ensures |xs| <= |ys|
  {
    if xs != [] { DistinctFit(xs[1..], ys - {xs[0]}); }
  }

  // ----- What the stored entries mean -----

  ghost predicate Distinct(order: seq<string>) {
    forall i, j :: 0 <= i < j < |order| ==> order[i] != order[j]
  }

  /** Later in the order means touched since. */
  ghost predicate Recency(history: seq<Event>, order: seq<string>) {
    forall i, j :: 0 <= i < j < |order| ==> order[j] in Others(history, order[i])
  }

  /** A stored key holds its latest put; a key put but not stored has expired, or at
      least maxEntries other keys were touched since. */
  ghost predicate KeyOk(cfg: Settings, history: seq<Event>, entries: map<string, Entry>, last: real, key: string) {
    match LatestPut(history, key)
    case None => key !in entries
    case Some(put) =>
      put.Put?
      && if key in entries then entries[key] == Entry(Expiry(cfg, put), put.response)
         else !cfg.Enabled() || Expiry(cfg, put) <= last || |Others(history, key)| >= cfg.maxEntries
  }

  ghost predicate KeysOk(cfg: Settings, history: seq<Event>, entries: map<string, Entry>, last: real) {
    forall key {:trigger KeyOk(cfg, history, entries, last, key)} :: KeyOk(cfg, history, entries, last, key)
  }

  ghost predicate OrderOk(history: seq<Event>, entries: map<string, Entry>, order: seq<string>) {
    Distinct(order) && (forall key :: key in order <==> key in entries) && Recency(history, order)
  }

  // ----- Steps -----

  /** `move_to_end` of a key that was put or hit just now. */
  ghost predicate MovedToEnd(order: seq<string>, key: string, order': seq<string>) {
    exists p :: 0 <= p <= |order| && order' == order[..p] + (if p < |order| then order[p + 1..] else []) + [key]
                && (if p < |order| then order[p] == key else key !in order)
  }

  lemma TouchKeepsOrder(history: seq<Event>, e: Event, order: seq<string>, key: string, order': seq<string>)
    requires Touches(e, key) && Distinct(order) && Recency(history, order) && MovedToEnd(order, key, order')
    ensures Distinct(order') && Recency(history + [e], order')
    ensures forall x :: x in order' <==> x in order || x == key
  {
    var p :| 0 <= p <= |order| && order' == order[..p] + (if p < |order| then order[p + 1..] else []) + [key]
             && (if p < |order| then order[p] == key else key !in order);
    var rest := order[..p] + (if p < |order| then order[p + 1..] else []);
    assert order' == rest + [key];
    if p < |order| {
      DropOne(order, p);
    } else {
      assert rest == order;
    }
    RestKeeps(history, order, p, rest);
    forall i, j | 0 <= i < j < |order'| ensures order'[i] != order'[j] && order'[j] in Others(history + [e], order'[i]) {
      assert order'[i] == rest[i] && rest[i] in rest;
      HistoryStep(history, e, order'[i]);
    }
  }

  lemma RestKeeps(history: seq<Event>, order: seq<string>, p: nat, rest: seq<string>)
    requires Distinct(order) && Recency(history, order) && p <= |order|
    requires rest == order[..p] + (if p < |order| then order[p + 1..] else [])
    ensures Distinct(rest) && Recency(history, rest)
  {
    assert forall i :: 0 <= i < |rest| ==> rest[i] == order[if i < p then i else i + 1];
  }

  /** A put or hit of one key leaves every other key as it was. */
  lemma OtherKeyKept(cfg: Settings, history: seq<Event>, e: Event, entries: map<string, Entry>, entries': map<string, Entry>,
                     last: real, now: real, key: string)
    requires KeyOk(cfg, history, entries, last, key) && last <= now && !e.Clear? && e.key != key
    requires key in entries <==> key in entries'
    requires key in entries ==> entries'[key] == entries[key]
    ensures KeyOk(cfg, history + [e], entries', now, key)
  {
    HistoryStep(history, e, key);
    GrowingSet(Others(history, key), Others(history + [e], key));
  }

  lemma GrowingSet(a: set<string>, b: set<string>)
    ensures a <= b ==> |a| <= |b|
  {
    if a <= b { assert b == a + (b - a); }
  }

  /** The first key of a full order is the one with enough other keys touched since. */
  lemma FirstIsStale(history: seq<Event>, order: seq<string>)
    requires Distinct(order) && Recency(history, order) && |order| > 0
    ensures |Others(history, order[0])| >= |order| - 1
  {
    DistinctFit(order[1..], Others(history, order[0]));
  }

  /** What a lookup finds after a history: a hit is the latest put of the key, before
      its expiry; a miss means there was none, or it expired, or at least maxEntries
      other keys were put or hit since the key was last touched. */
  ghost predicate LookedUp(cfg: Settings, history: seq<Event>, key: string, now: real, found: Option<Stored>) {
    var put := LatestPut(history, key);
    match found
    case Some(response) => put.Some? && put.value.Put? && put.value.response == response && now < Expiry(cfg, put.value)
    case None => put.None? || (put.value.Put? && Expiry(cfg, put.value) <= now) || !cfg.Enabled()
                 || |Others(history, key)| >= cfg.maxEntries
  }

  /** A response just put is found until it expires. */
  lemma PutIsFound(cfg: Settings, history: seq<Event>, key: string, response: Stored, at: real, now: real, found: Option<Stored>)
    requires cfg.Enabled() && now < at + cfg.ttl
    requires LookedUp(cfg, history + [Put(key, response, at)], key, now, found)
    ensures found == Some(response)
  {
    HistoryStep(history, Put(key, response, at), key);
  }

  class Cache {
    const cfg: Settings
    var entries: map<string, Entry>
    var order: seq<string>            // least recently used first
    ghost var history: seq<Event>
    ghost var last: real

    ghost predicate Valid()
      reads this
    {
      && KeysOk(cfg, history, entries, last) && OrderOk(history, entries, order)
      && |order| <= cfg.maxEntries && (!cfg.Enabled() ==> entries == map[])
    }

    constructor (cfg: Settings, start: real)
      ensures Valid() && this.cfg == cfg && history == [] && last == start
    {
      this.cfg := cfg;
      entries, order := map[], [];
      history, last := [], start;
    }

    method MoveToEnd(key: string)
      requires Distinct(order)
      modifies `order
      ensures MovedToEnd(old(order), key, order)
    {
      var p := 0;
      while p < |order| && order[p] != key
        invariant p <= |order| && key !in order[..p]
      {
        assert order[..p + 1] == order[..p] + [order[p]];
        p := p + 1;
      }
      assert order[..|order|] == order;
      order := order[..p] + (if p < |order| then order[p + 1..] else []) + [key];
    }

    /** `_cache_get`. */
    method Get(key: string, now: real) returns (found: Option<Stored>)
      requires Valid() && last <= now
      modifies this
      ensures Valid() && last == now
      ensures history == old(history) + [if found.Some? then Hit(key) else Miss(key)]
      ensures LookedUp(cfg, old(history), key, now, found)
    {
      assert KeyOk(cfg, history, entries, last, key);
      if key !in entries {
        Missed(cfg, history, entries, order, last, now, key);
        history, last := history + [Miss(key)], now;
        return None;
      }
      var entry := entries[key];
      if entry.expiresAt <= now {
        var p := Position(key);
        Expired(cfg, history, entries, order, last, now, key, p);
        entries, order := entries - {key}, order[..p] + order[p + 1..];
        history, last := history + [Miss(key)], now;
        return None;
      }
      ghost var was := order;
      MoveToEnd(key);
      Touched(cfg, history, Hit(key), entries, entries, was, order, last, now, key);
      assert |order| == |was| by { SameKeysSameSize(was, order); }
      history, last := history + [Hit(key)], now;
      return Some(entry.response);
    }

    method Position(key: string) returns (p: nat)
      requires key in order
      ensures p < |order| && order[p] == key
    {
      p := 0;
      while order[p] != key
        invariant p < |order| && key in order[p..]
        decreases |order| - p
      {
        assert order[p..] == [order[p]] + order[p + 1..];
        p := p + 1;
      }
    }

    /** `_cache_put`. */
    method Put(key: string, response: Stored, now: real)
      requires Valid() && last <= now
      modifies this
      ensures Valid() && last == now && history == old(history) + [Event.Put(key, response, now)]
      ensures |entries| <= cfg.maxEntries && (cfg.Enabled() ==> key in entries)
    {
      ghost var e := Event.Put(key, response, now);
      if !cfg.Enabled() {
        Ignored(cfg, history, e, last, now);
        history, last := history + [e], now;
        return;
      }
      ghost var was, before := order, entries;
      entries := entries[key := Entry(now + cfg.ttl, response)];
      MoveToEnd(key);
      Touched(cfg, history, e, before, entries, was, order, last, now, key);
      assert |order| <= cfg.maxEntries + 1 by { MovedSize(was, key, order); }
      history, last := history + [e], now;
      while |order| > cfg.maxEntries
        invariant KeysOk(cfg, history, entries, last) && OrderOk(history, entries, order)
        invariant last == now && history == old(history) + [e]
        invariant 0 < |order| <= cfg.maxEntries + 1 && order[|order| - 1] == key
        decreases |order|
      {
        FirstIsStale(history, order);
        Evicted(cfg, history, entries, order, last);
        entries, order := entries - {order[0]}, order[1..];
      }
      OneEntryEach(entries, order);
    }

    /** `clear_cache`. */
    method ClearAll()
      requires Valid()
      modifies this
      ensures Valid() && entries == map[] && history == old(history) + [Clear] && last == old(last)
    {
      entries, order := map[], [];
      ghost var was := history;
      history := history + [Clear];
      forall key ensures KeyOk(cfg, history, entries, last, key) { HistoryStep(was, Clear, key); }
    }
  }

  // ----- Lemmas of the methods -----

  lemma MovedSize(order: seq<string>, key: string, order': seq<string>)
    requires MovedToEnd(order, key, order')
    ensures |order'| == |order| + (if key in order then 0 else 1) && order'[|order'| - 1] == key
  {
  }

  lemma SameKeysSameSize(order: seq<string>, order': seq<string>)
    requires Distinct(order) && Distinct(order') && forall x :: x in order <==> x in order'
    ensures |order| == |order'|
  {
    DistinctFit(order, set x | x in order');
    DistinctFit(order', set x | x in order);
    SetOfSeq(order);
    SetOfSeq(order');
  }

  lemma {:induction false} SetOfSeq(order: seq<string>)
    ensures |set x | x in order| <= |order|
  {
    if order != [] {
      SetOfSeq(order[1..]);
      assert order == [order[0]] + order[1..];
      assert (set x | x in order) == (set x | x in order[1..]) + {order[0]};
    }
  }

  lemma OneEntryEach(entries: map<string, Entry>, order: seq<string>)
    requires Distinct(order) && forall key :: key in order <==> key in entries
    ensures |entries| == |order|
  {
    assert entries.Keys == set x | x in order;
    SetOfSeq(order);
    DistinctFit(order, entries.Keys);
    assert |entries| == |entries.Keys|;
  }

  lemma Touched(cfg: Settings, history: seq<Event>, e: Event, entries: map<string, Entry>, entries': map<string, Entry>,
                order: seq<string>, order': seq<string>, last: real, now: real, key: string)
    requires KeysOk(cfg, history, entries, last) && OrderOk(history, entries, order) && last <= now
    requires Touches(e, key) && MovedToEnd(order, key, order')
    requires if e.Put? then entries' == entries[key := Entry(Expiry(cfg, e), e.response)] else entries' == entries && key in entries
    ensures KeysOk(cfg, history + [e], entries', now) && OrderOk(history + [e], entries', order')
  {
    TouchKeepsOrder(history, e, order, key, order');
    forall x ensures KeyOk(cfg, history + [e], entries', now, x) {
      assert KeyOk(cfg, history, entries, last, x);
      if x == key {
        HistoryStep(history, e, key);
      } else {
        OtherKeyKept(cfg, history, e, entries, entries', last, now, x);
      }
    }
  }

  lemma MissKeepsOrder(history: seq<Event>, key: string, order: seq<string>)
    requires Recency(history, order)
    ensures Recency(history + [Miss(key)], order)
  {
    forall i, j | 0 <= i < j < |order| ensures order[j] in Others(history + [Miss(key)], order[i]) {
      HistoryStep(history, Miss(key), order[i]);
    }
  }

  lemma Missed(cfg: Settings, history: seq<Event>, entries: map<string, Entry>, order: seq<string>, last: real, now: real, key: string)
    requires KeysOk(cfg, history, entries, last) && OrderOk(history, entries, order) && last <= now && key !in entries
    ensures KeysOk(cfg, history + [Miss(key)], entries, now) && OrderOk(history + [Miss(key)], entries, order)
  {
    MissKeepsOrder(history, key, order);
    forall x ensures KeyOk(cfg, history + [Miss(key)], entries, now, x) {
      assert KeyOk(cfg, history, entries, last, x);
      HistoryStep(history, Miss(key), x);
    }
  }

  lemma DropOne(order: seq<string>, p: nat)
    requires p < |order| && Distinct(order)
    ensures var order' := order[..p] + order[p + 1..];
            Distinct(order') && (forall x :: x in order' <==> x in order && x != order[p])
  {
    var order' := order[..p] + order[p + 1..];
    assert forall i :: 0 <= i < |order'| ==> order'[i] == order[if i < p then i else i + 1];
    forall x ensures x in order' <==> x in order && x != order[p] {
      if x in order && x != order[p] {
        var i :| 0 <= i < |order| && order[i] == x;
        assert order'[if i < p then i else i - 1] == x;
      }
    }
  }

  lemma Expired(cfg: Settings, history: seq<Event>, entries: map<string, Entry>, order: seq<string>, last: real, now: real,
                key: string, p: nat)
    requires KeysOk(cfg, history, entries, last) && OrderOk(history, entries, order) && last <= now
    requires key in entries && entries[key].expiresAt <= now && p < |order| && order[p] == key
    ensures KeysOk(cfg, history + [Miss(key)], entries - {key}, now)
    ensures OrderOk(history + [Miss(key)], entries - {key}, order[..p] + order[p + 1..])
  {
    MissKeepsOrder(history, key, order);
    DropOne(order, p);
    var order' := order[..p] + order[p + 1..];
    assert forall i :: 0 <= i < |order'| ==> order'[i] == order[if i < p then i else i + 1];
    forall x ensures KeyOk(cfg, history + [Miss(key)], entries - {key}, now, x) {
      assert KeyOk(cfg, history, entries, last, x);
      HistoryStep(history, Miss(key), x);
    }
  }

  lemma Evicted(cfg: Settings, history: seq<Event>, entries: map<string, Entry>, order: seq<string>, last: real)
    requires KeysOk(cfg, history, entries, last) && OrderOk(history, entries, order) && |order| > 0
    requires |Others(history, order[0])| >= cfg.maxEntries
    ensures KeysOk(cfg, history, entries - {order[0]}, last) && OrderOk(history, entries - {order[0]}, order[1..])
  {
    forall x ensures KeyOk(cfg, history, entries - {order[0]}, last, x) {
      assert KeyOk(cfg, history, entries, last, x);
    }
    assert order == [order[0]] + order[1..];
  }

  lemma Ignored(cfg: Settings, history: seq<Event>, e: Event, last: real, now: real)
    requires KeysOk(cfg, history, map[], last) && !cfg.Enabled() && e.Put?
    ensures KeysOk(cfg, history + [e], map[], now)
  {
    forall x ensures KeyOk(cfg, history + [e], map[], now, x) {
      assert KeyOk(cfg, history, map[], last, x);
      HistoryStep(history, e, x);
    }
  }
}
