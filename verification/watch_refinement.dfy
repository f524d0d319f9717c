/** Below the protocol: WATCH, reads and EXEC of concurrent store calls as
    separate steps.  Each key carries a version that grows whenever its value
    changes; EXEC succeeds only if no watched version moved.  Every run of this
    machine is, seen through its protocol state, a run of the protocol in which
    each call takes effect at its EXEC.

    A step watches one key and reads it at once.  The code may watch earlier than
    it reads; that only makes EXEC fail more often. */
module WatchRefinement {
  import opened TaskContracts
  import opened StoreState
  import opened StoreTransactions
  import opened TaskProtocol

  /** A call in flight: what it observed, at which versions, and the number it drew. */
  datatype Flight = Flight(op: Op, view: View, seen: imap<Key, nat>, ticket: Option<nat>)

  datatype World = World(p: State, version: imap<Key, nat>, calls: map<ClientId, Flight>)

  function NewFlight(op: Op): Flight {
    Flight(op, imap[], imap[], None)
  }

  ghost predicate WorldInit(w: World) {
    Init(w.p) && w.calls == map[] && forall k :: k in w.version
  }

  datatype WorldStep =
    | BeginCall(c: ClientId, op: Op)
    | WatchKey(c: ClientId, key: Key)
    | DrawNumber(c: ClientId)
    | ExecCall(c: ClientId)
    | Conflict(c: ClientId)
    | GiveUp(c: ClientId)
    | Outside(step: Step)

  ghost function Now(cfg: Config, f: Flight): Decision {
    Resume(cfg, f.op, f.view, f.ticket)
  }

  ghost predicate Undisturbed(w: World, f: Flight) {
    forall k :: k in f.view ==> k in f.seen && k in w.version && f.seen[k] == w.version[k]
  }

  /** Versions grow wherever a value changed, and never shrink. */
  ghost predicate Bumped(before: imap<Key, nat>, after: imap<Key, nat>, db: Db, db': Db) {
    forall k :: k in before && k in after && before[k] <= after[k]
                && (Read(db', k) != Read(db, k) ==> before[k] < after[k])
  }

  function Observed(w: World, f: Flight, key: Key): Flight
    requires key in w.version
  {
    f.(view := f.view[key := Read(w.p.db, key)], seen := f.seen[key := w.version[key]])
  }

  ghost predicate WorldNextStep(cfg: Config, w: World, w': World, step: WorldStep) {
    match step
    case BeginCall(c, op) =>
      c !in w.calls && InCall(w.p, c, op) && w' == w.(calls := w.calls[c := NewFlight(op)])
    case WatchKey(c, key) =>
      && c in w.calls && c in w.p.clients && key in w.version && Now(cfg, w.calls[c]) == Watch(key)
      && var f := Observed(w, w.calls[c], key);
         if Now(cfg, f).Give? then
           // The decision follows the read at once: UNWATCH and return or raise.
           w' == w.(p := Answered(w.p, c, f.op, Now(cfg, f).answer), calls := w.calls - {c})
         else
           w' == w.(calls := w.calls[c := f])
    case DrawNumber(c) =>
      && c in w.calls && Now(cfg, w.calls[c]).Draw?
      && w' == w.(p := w.p.(db := w.p.db.(sequence := w.p.db.sequence + 1),
                            tickets := w.p.tickets + {w.p.db.sequence + 1}),
                  calls := w.calls[c := w.calls[c].(ticket := Some(w.p.db.sequence + 1))])
    case ExecCall(c) =>
      && c in w.calls && c in w.p.clients && Now(cfg, w.calls[c]).Exec? && Undisturbed(w, w.calls[c])
      && var f, d := w.calls[c], Now(cfg, w.calls[c]);
         && (f.op.CreateOp? ==> f.op.id !in w.p.history)
         && w'.p == Committed(w.p, c, f.op, f.ticket, d.block, d.reply)
         && w'.calls == w.calls - {c}
         && Bumped(w.version, w'.version, w.p.db, w'.p.db)
    case Conflict(c) =>
      // WatchError: the retry loop starts over; a number already drawn is lost.
      && c in w.calls && !Undisturbed(w, w.calls[c])
      && w' == w.(calls := w.calls[c := NewFlight(w.calls[c].op)])
    case GiveUp(c) =>
      // The retries are used up, or the connection failed before EXEC.
      && c in w.calls && c in w.p.clients
      && w' == w.(p := Answered(w.p, c, w.calls[c].op, Refused), calls := w.calls - {c})
    case Outside(s) =>
      && (s.MoveStep? || s.LookStep? || s.StartStep? || s.NotifyStep? || s.SpawnStep?) && s.c !in w.calls
      && NextStep(cfg, w.p, w'.p, s) && w'.version == w.version && w'.calls == w.calls
  }

  ghost predicate WorldNext(cfg: Config, w: World, w': World) {
    exists step :: WorldNextStep(cfg, w, w', step)
  }

  ghost predicate IsWorldRun(cfg: Config, run: seq<World>) {
    |run| > 0 && WorldInit(run[0]) && forall i: nat :: i + 1 < |run| ==> WorldStepAt(cfg, run, i)
  }

  ghost predicate WorldStepAt(cfg: Config, run: seq<World>, i: nat)
    requires i + 1 < |run|
  {
    WorldNext(cfg, run[i], run[i + 1])
  }

  // ----- What a call in flight may rely on -----

  /** An observation whose version has not moved is still what the database holds. */
  ghost predicate ObservationOk(w: World, f: Flight, k: Key)
    requires k in f.view
  {
    && k in f.seen && k in w.version && f.seen[k] <= w.version[k]
    && (f.seen[k] == w.version[k] ==> f.view[k] == Read(w.p.db, k))
  }

  ghost predicate FlightOk(w: World, c: ClientId, f: Flight) {
    && c in w.p.clients && CallOf(w.p.clients[c], c, f.op)
    && (forall k :: k in f.view ==> ObservationOk(w, f, k))
    && (f.ticket.Some? ==> f.ticket.value in w.p.tickets)
    && InOrder(f.op, f.view)
  }

  ghost predicate WorldOk(w: World) {
    && (forall k :: k in w.version)
    && (forall c :: c in w.calls ==> FlightOk(w, c, w.calls[c]))
    && (forall c, d :: c in w.calls && d in w.calls && c != d && w.calls[c].ticket.Some?
          ==> w.calls[c].ticket != w.calls[d].ticket)
    && (forall n :: n in w.p.tickets ==> n <= w.p.db.sequence)
  }

  // ----- Refinement -----

  /** EXEC succeeds only on observations that are still current, so the block is
      the one the call would compute in a single step. */
  lemma ExecIsAtomic(cfg: Config, w: World, c: ClientId)
    requires WorldOk(w) && c in w.calls && Undisturbed(w, w.calls[c]) && Now(cfg, w.calls[c]).Exec?
    ensures Atomic(cfg, w.calls[c].op, w.p.db, w.calls[c].ticket) == Now(cfg, w.calls[c])
  {
    var f := w.calls[c];
    assert FlightOk(w, c, f);
    assert Agrees(f.view, w.p.db) by {
      forall k | k in f.view ensures f.view[k] == Read(w.p.db, k) { assert ObservationOk(w, f, k); }
    }
    ObservedDecisionIsAtomic(cfg, f.op, f.view, w.p.db, f.ticket);
  }

  /** An answer given without writing is the one the call would give in a single step
      on the store as its last read found it; only those of `LateAnswer` also rest on
      an earlier read. */
  lemma AnswerIsCurrent(cfg: Config, w: World, f: Flight, key: Key)
    requires key in w.version && InOrder(f.op, f.view) && Now(cfg, f) == Watch(key)
    requires Now(cfg, Observed(w, f, key)).Give?
    ensures TrueAnswer(cfg, f.op, w.p.db, Now(cfg, Observed(w, f, key)).answer)
  {
    LastReadIsTrue(cfg, f.op, f.view, key, w.p.db, f.ticket);
  }

  lemma ExecStepRefines(cfg: Config, w: World, w': World, c: ClientId)
    requires WorldOk(w) && WorldNextStep(cfg, w, w', ExecCall(c))
    ensures Next(cfg, w.p, w'.p)
  {
    var f, d := w.calls[c], Now(cfg, w.calls[c]);
    ExecIsAtomic(cfg, w, c);
    assert FlightOk(w, c, f);
    assert NextStep(cfg, w.p, w'.p, CommitStep(c, f.op, f.ticket, d.block, d.reply));
  }

  lemma WatchStepRefines(cfg: Config, w: World, w': World, c: ClientId, key: Key)
    requires WorldOk(w) && WorldNextStep(cfg, w, w', WatchKey(c, key))
    ensures Next(cfg, w.p, w'.p) || w'.p == w.p
  {
    hide TrueAnswer, InOrder, Resume;
    var f := Observed(w, w.calls[c], key);
    assert FlightOk(w, c, w.calls[c]);
    if Now(cfg, f).Give? {
      AnswerIsCurrent(cfg, w, w.calls[c], key);
      assert NextStep(cfg, w.p, w'.p, GiveStep(c, f.op, Now(cfg, f).answer));
    }
  }

  lemma GiveUpRefines(cfg: Config, w: World, w': World, c: ClientId)
    requires WorldOk(w) && WorldNextStep(cfg, w, w', GiveUp(c))
    ensures Next(cfg, w.p, w'.p)
  {
    assert FlightOk(w, c, w.calls[c]);
    assert NextStep(cfg, w.p, w'.p, GiveStep(c, w.calls[c].op, Refused));
  }

  lemma StepRefines(cfg: Config, w: World, w': World)
    requires WorldOk(w) && WorldNext(cfg, w, w')
    ensures Next(cfg, w.p, w'.p) || w'.p == w.p
  {
    hide WorldOk, Atomic;
    var step :| WorldNextStep(cfg, w, w', step);
    match step
    case BeginCall(_, _) =>
    case WatchKey(c, key) => WatchStepRefines(cfg, w, w', c, key);
    case DrawNumber(_) => assert NextStep(cfg, w.p, w'.p, DrawStep);
    case ExecCall(c) => ExecStepRefines(cfg, w, w', c);
    case Conflict(_) =>
    case GiveUp(c) => GiveUpRefines(cfg, w, w', c);
    case Outside(s) => assert NextStep(cfg, w.p, w'.p, s);
  }

  // ----- Calls in flight stay sound -----

  /** Another client's step leaves a call in flight sound. */
  lemma FlightKept(w: World, w': World, c: ClientId, f: Flight)
    requires FlightOk(w, c, f) && c in w'.p.clients && w'.p.clients[c] == w.p.clients[c]
    requires Bumped(w.version, w'.version, w.p.db, w'.p.db)
    requires f.ticket.Some? ==> f.ticket.value in w'.p.tickets
    ensures FlightOk(w', c, f)
  {
    hide InOrder, CallOf;
    forall k | k in f.view ensures ObservationOk(w', f, k) {
      assert ObservationOk(w, f, k);
      assert w.version[k] <= w'.version[k];
    }
  }

  lemma SameVersions(w: World, w': World)
    requires (forall k :: k in w.version) && w'.version == w.version
    requires forall k :: Read(w'.p.db, k) == Read(w.p.db, k)
    ensures Bumped(w.version, w'.version, w.p.db, w'.p.db)
  {
  }

  lemma OtherFlightsKept(w: World, w': World, c: ClientId)
    requires WorldOk(w) && Bumped(w.version, w'.version, w.p.db, w'.p.db)
    requires forall d :: d in w'.calls && d != c ==> d in w.calls && w'.calls[d] == w.calls[d]
    requires forall d :: d in w.p.clients && d != c ==> d in w'.p.clients && w'.p.clients[d] == w.p.clients[d]
    requires forall d :: d in w.calls && d != c && w.calls[d].ticket.Some? ==> w.calls[d].ticket.value in w'.p.tickets
    ensures forall d :: d in w'.calls && d != c ==> FlightOk(w', d, w'.calls[d])
  {
    hide InOrder, CallOf, ObservationOk;
    forall d | d in w'.calls && d != c ensures FlightOk(w', d, w'.calls[d]) {
      FlightKept(w, w', d, w.calls[d]);
    }
  }

  lemma BeginKeepsWorld(w: World, w': World, c: ClientId, op: Op)
    requires WorldOk(w) && c !in w.calls && InCall(w.p, c, op) && w' == w.(calls := w.calls[c := NewFlight(op)])
    ensures WorldOk(w')
  {
    hide CallOf, ObservationOk;
    SameVersions(w, w');
    OtherFlightsKept(w, w', c);
    assert FlightOk(w', c, NewFlight(op));
  }

  lemma ObservationAdded(w: World, c: ClientId, f: Flight, key: Key)
    requires FlightOk(w, c, f) && key in w.version && InOrder(f.op, Observed(w, f, key).view)
    ensures FlightOk(w, c, Observed(w, f, key))
  {
    hide InOrder, CallOf;
    var g := Observed(w, f, key);
    forall k | k in g.view ensures ObservationOk(w, g, k) {
      if k != key { assert ObservationOk(w, f, k); }
    }
  }

  lemma WatchKeepsWorld(w: World, w': World, c: ClientId, key: Key)
    requires WorldOk(w) && c in w.calls && key in w.version && InOrder(w.calls[c].op, Observed(w, w.calls[c], key).view)
    requires w' == w.(calls := w.calls[c := Observed(w, w.calls[c], key)])
    ensures WorldOk(w')
  {
    hide InOrder, CallOf, ObservationOk;
    SameVersions(w, w');
    OtherFlightsKept(w, w', c);
    ObservationAdded(w, c, w.calls[c], key);
    FlightKept(w, w', c, Observed(w, w.calls[c], key));
  }

  lemma AnswerKeepsWorld(w: World, w': World, c: ClientId, op: Op, answer: Reply)
    requires WorldOk(w) && c in w.calls && c in w.p.clients
    requires w' == w.(p := Answered(w.p, c, op, answer), calls := w.calls - {c})
    ensures WorldOk(w')
  {
    hide InOrder, CallOf, ObservationOk;
    SameVersions(w, w');
    OtherFlightsKept(w, w', c);
  }

  lemma DrawnFlightOk(w: World, w': World, c: ClientId, f: Flight, n: nat)
    requires FlightOk(w, c, f) && w'.version == w.version && (forall k :: k in w.version)
    requires w'.p.clients == w.p.clients && n in w'.p.tickets
    requires forall k :: Read(w'.p.db, k) == Read(w.p.db, k)
    ensures FlightOk(w', c, f.(ticket := Some(n)))
  {
    hide InOrder, CallOf;
    var g := f.(ticket := Some(n));
    forall k | k in g.view ensures ObservationOk(w', g, k) { assert ObservationOk(w, f, k); }
  }

  lemma DrawKeepsWorld(w: World, w': World, c: ClientId, n: nat)
    requires WorldOk(w) && c in w.calls && n == w.p.db.sequence + 1
    requires w'.version == w.version && w'.calls == w.calls[c := w.calls[c].(ticket := Some(n))]
    requires w'.p == w.p.(db := w.p.db.(sequence := n), tickets := w.p.tickets + {n})
    ensures WorldOk(w')
  {
    hide InOrder, Bumped, CallOf, ObservationOk;
    assert forall k :: Read(w'.p.db, k) == Read(w.p.db, k);
    SameVersions(w, w');
    OtherFlightsKept(w, w', c);
    DrawnFlightOk(w, w', c, w.calls[c], n);
    forall d | d in w.calls && d != c && w.calls[d].ticket.Some? ensures w.calls[d].ticket != Some(n) {
      assert FlightOk(w, d, w.calls[d]);
    }
  }

  lemma ExecKeepsWorld(cfg: Config, w: World, w': World, c: ClientId)
    requires WorldOk(w) && WorldNextStep(cfg, w, w', ExecCall(c))
    ensures WorldOk(w')
  {
    hide FlightOk;
    OtherTicketsKept(cfg, w, w', c);
    OtherFlightsKept(w, w', c);
  }

  lemma OtherTicketsKept(cfg: Config, w: World, w': World, c: ClientId)
    requires WorldOk(w) && WorldNextStep(cfg, w, w', ExecCall(c))
    ensures forall d :: d in w.calls && d != c && w.calls[d].ticket.Some? ==> w.calls[d].ticket.value in w'.p.tickets
  {
    hide InOrder, CallOf, ObservationOk;
    forall d | d in w.calls && d != c && w.calls[d].ticket.Some? ensures w.calls[d].ticket.value in w'.p.tickets {
      assert FlightOk(w, d, w.calls[d]);
      assert w.calls[d].ticket != w.calls[c].ticket;
    }
  }

  lemma ConflictKeepsWorld(w: World, w': World, c: ClientId)
    requires WorldOk(w) && c in w.calls && w' == w.(calls := w.calls[c := NewFlight(w.calls[c].op)])
    ensures WorldOk(w')
  {
    SameVersions(w, w');
    OtherFlightsKept(w, w', c);
    assert FlightOk(w, c, w.calls[c]);
    assert FlightOk(w', c, NewFlight(w.calls[c].op));
  }

  lemma OutsideKeepsWorld(cfg: Config, w: World, w': World, s: Step)
    requires WorldOk(w) && WorldNextStep(cfg, w, w', Outside(s))
    ensures WorldOk(w')
  {
    hide InOrder, CallOf, ObservationOk, Resume, TrueAnswer;
    assert w'.p.db == w.p.db && w'.p.tickets == w.p.tickets;
    SameVersions(w, w');
    OtherFlightsKept(w, w', s.c);
  }

  lemma WatchInOrder(cfg: Config, w: World, c: ClientId, key: Key)
    requires WorldOk(w) && c in w.calls && key in w.version && Now(cfg, w.calls[c]) == Watch(key)
    ensures InOrder(w.calls[c].op, Observed(w, w.calls[c], key).view)
  {
    hide InOrder, Resume, ObservationOk;
    var f := w.calls[c];
    assert FlightOk(w, c, f);
    ReadsInOrder(cfg, f.op, f.view, key, Read(w.p.db, key), f.ticket);
  }

  lemma StepKeepsWorld(cfg: Config, w: World, w': World)
    requires WorldOk(w) && WorldNext(cfg, w, w')
    ensures WorldOk(w')
  {
    hide WorldOk, NextStep, Atomic;
    var step :| WorldNextStep(cfg, w, w', step);
    match step
    case BeginCall(c, op) => BeginKeepsWorld(w, w', c, op);
    case WatchKey(c, key) =>
      var f := Observed(w, w.calls[c], key);
      if Now(cfg, f).Give? {
        AnswerKeepsWorld(w, w', c, f.op, Now(cfg, f).answer);
      } else {
        WatchInOrder(cfg, w, c, key);
        WatchKeepsWorld(w, w', c, key);
      }
    case DrawNumber(c) => DrawKeepsWorld(w, w', c, w.p.db.sequence + 1);
    case ExecCall(c) => ExecKeepsWorld(cfg, w, w', c);
    case Conflict(c) => ConflictKeepsWorld(w, w', c);
    case GiveUp(c) => AnswerKeepsWorld(w, w', c, w.calls[c].op, Refused);
    case Outside(s) => OutsideKeepsWorld(cfg, w, w', s);
  }

  lemma {:induction false} WorldRunOk(cfg: Config, run: seq<World>, n: nat)
    requires IsWorldRun(cfg, run) && n < |run|
    ensures WorldOk(run[n])
  {
    if n > 0 {
      WorldRunOk(cfg, run, n - 1);
      assert WorldStepAt(cfg, run, n - 1);
      StepKeepsWorld(cfg, run[n - 1], run[n]);
    }
  }

  ghost function Projection(run: seq<World>): (states: seq<State>)
    ensures |states| == |run| && forall i :: 0 <= i < |run| ==> states[i] == run[i].p
  {
    seq(|run|, i requires 0 <= i < |run| => run[i].p)
  }

  /** Every interleaving of watches, reads, sequence draws and EXECs is a run of
      the protocol with one atomic step per call. */
  lemma InterleavingsAreAtomic(cfg: Config, run: seq<World>)
    requires IsWorldRun(cfg, run)
    ensures IsRun(cfg, Projection(run))
  {
    var states := Projection(run);
    forall i: nat | i + 1 < |states| ensures StepAt(cfg, states, i) {
      WorldRunOk(cfg, run, i);
      assert WorldStepAt(cfg, run, i);
      StepRefines(cfg, run[i], run[i + 1]);
    }
  }
}
