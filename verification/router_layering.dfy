/** Kahn layering of the dependency graph: generations exist exactly when the
    graph has no cycle, and they are unique. */
module RouterLayering {
  import opened TaskContracts
  import opened RouterContracts

  ghost predicate Edge(tasks: Tasks, p: SubTaskId, id: SubTaskId) {
    id in tasks && p in tasks[id].predecessors
  }

  ghost predicate IsPath(tasks: Tasks, path: seq<SubTaskId>) {
    |path| > 0 && forall i: nat :: i + 1 < |path| ==> Edge(tasks, path[i], path[i + 1])
  }

  ghost predicate IsCycle(tasks: Tasks, path: seq<SubTaskId>) {
    |path| >= 2 && IsPath(tasks, path) && path[0] == path[|path| - 1]
  }

  ghost predicate Acyclic(tasks: Tasks) {
    forall path: seq<SubTaskId> :: !IsCycle(tasks, path)
  }

  ghost predicate In(gens: seq<set<SubTaskId>>, id: SubTaskId) {
    exists g :: 0 <= g < |gens| && id in gens[g]
  }

  ghost predicate Before(gens: seq<set<SubTaskId>>, g: nat, id: SubTaskId) {
    exists h :: 0 <= h < g && h < |gens| && id in gens[h]
  }

  ghost predicate DependsOn(tasks: Tasks, id: SubTaskId, some: set<SubTaskId>)
    requires id in tasks
  {
    exists p :: p in tasks[id].predecessors && p in some
  }

  /** Task id may stand in generation g: after its predecessors, and no later
      than it has to be. */
  ghost predicate Fits(tasks: Tasks, gens: seq<set<SubTaskId>>, g: nat, id: SubTaskId)
    requires g < |gens|
  {
    && id in tasks
    && (forall p :: p in tasks[id].predecessors ==> Before(gens, g, p))
    && (g > 0 ==> DependsOn(tasks, id, gens[g - 1]))
  }

  ghost predicate Disjoint(gens: seq<set<SubTaskId>>) {
    forall g, h :: 0 <= g < h < |gens| ==> gens[g] !! gens[h]
  }

  ghost predicate Ordered(tasks: Tasks, gens: seq<set<SubTaskId>>) {
    forall g: nat, id {:trigger Fits(tasks, gens, g, id)} :: g < |gens| && id in gens[g] ==> Fits(tasks, gens, g, id)
  }

  /** Every task in exactly one generation, where it fits. */
  ghost predicate IsLayering(tasks: Tasks, gens: seq<set<SubTaskId>>) {
    && (forall id {:trigger In(gens, id)} :: id in tasks <==> In(gens, id))
    && Disjoint(gens)
    && (forall g :: 0 <= g < |gens| ==> gens[g] != {})
    && Ordered(tasks, gens)
  }

  function Ready(tasks: Tasks, done: set<SubTaskId>): set<SubTaskId> {
    set id | id in tasks && id !in done && forall p :: p in tasks[id].predecessors ==> p in done
  }

  // ----- A layering excludes cycles -----

  lemma {:induction false} PathClimbs(tasks: Tasks, gens: seq<set<SubTaskId>>, path: seq<SubTaskId>, g: nat) returns (h: nat)
    requires IsLayering(tasks, gens) && IsPath(tasks, path) && g < |gens| && path[0] in gens[g]
    ensures h < |gens| && path[|path| - 1] in gens[h] && (|path| > 1 ==> g < h) && (|path| == 1 ==> g == h)
    decreases |path|
  {
    if |path| == 1 {
      h := g;
    } else {
      assert Edge(tasks, path[0], path[1]);
      assert In(gens, path[1]);
      var k :| 0 <= k < |gens| && path[1] in gens[k];
      assert Fits(tasks, gens, k, path[1]);
      assert Before(gens, k, path[0]);
      var m :| 0 <= m < k && path[0] in gens[m];
      assert m == g;
      forall i: nat | i + 1 < |path[1..]| ensures Edge(tasks, path[1..][i], path[1..][i + 1]) {
        assert Edge(tasks, path[i + 1], path[i + 2]);
      }
      h := PathClimbs(tasks, gens, path[1..], k);
    }
  }

  lemma LayeringExcludesCycles(tasks: Tasks, gens: seq<set<SubTaskId>>)
    requires Closed(tasks) && IsLayering(tasks, gens)
    ensures Acyclic(tasks)
  {
    forall path: seq<SubTaskId> ensures !IsCycle(tasks, path) {
      if IsCycle(tasks, path) {
        assert Edge(tasks, path[0], path[1]);
        assert In(gens, path[0]);
        var g :| 0 <= g < |gens| && path[0] in gens[g];
        var h := PathClimbs(tasks, gens, path, g);
        assert false;
      }
    }
  }

  // ----- A stuck remainder contains a cycle -----

  /** Every task of rest waits for another one of rest. */
  ghost predicate Stuck(tasks: Tasks, rest: set<SubTaskId>) {
    rest <= tasks.Keys && forall x {:trigger DependsOn(tasks, x, rest)} :: x in rest ==> DependsOn(tasks, x, rest)
  }

  /** A walk that ends in id and never leaves rest. */
  lemma {:induction false} WalkBack(tasks: Tasks, rest: set<SubTaskId>, id: SubTaskId, n: nat) returns (path: seq<SubTaskId>)
    requires id in rest && Stuck(tasks, rest)
    ensures |path| == n + 1 && IsPath(tasks, path) && forall i :: 0 <= i < |path| ==> path[i] in rest
  {
    if n == 0 {
      path := [id];
    } else {
      var tail := WalkBack(tasks, rest, id, n - 1);
      assert DependsOn(tasks, tail[0], rest);
      var p :| p in tasks[tail[0]].predecessors && p in rest;
      path := [p] + tail;
      forall i: nat | i + 1 < |path| ensures Edge(tasks, path[i], path[i + 1]) {
        if i > 0 { assert Edge(tasks, tail[i - 1], tail[i]); }
      }
    }
  }

  lemma {:induction false} Repeats(path: seq<SubTaskId>, rest: set<SubTaskId>) returns (i: nat, j: nat)
    requires |path| > |rest| && forall k :: 0 <= k < |path| ==> path[k] in rest
    ensures i < j < |path| && path[i] == path[j]
    decreases |path|
  {
    var last := path[|path| - 1];
    if k :| 0 <= k < |path| - 1 && path[k] == last {
      return k, |path| - 1;
    }
    assert |rest - {last}| == |rest| - 1;
    i, j := Repeats(path[..|path| - 1], rest - {last});
  }

  lemma StuckMeansCycle(tasks: Tasks, rest: set<SubTaskId>)
    requires rest != {} && Stuck(tasks, rest)
    ensures !Acyclic(tasks)
  {
    var id :| id in rest;
    var path := WalkBack(tasks, rest, id, |rest|);
    var i, j := Repeats(path, rest);
    var cycle := path[i..j + 1];
    forall k: nat | k + 1 < |cycle| ensures Edge(tasks, cycle[k], cycle[k + 1]) {
      assert Edge(tasks, path[i + k], path[i + k + 1]);
    }
    assert IsCycle(tasks, cycle);
  }

  // ----- The algorithm -----

  /** The generations found so far. */
  ghost predicate Layered(tasks: Tasks, gens: seq<set<SubTaskId>>, done: set<SubTaskId>) {
    && done <= tasks.Keys
    && (forall id {:trigger In(gens, id)} :: id in done <==> In(gens, id))
    && Disjoint(gens)
    && (forall g :: 0 <= g < |gens| ==> gens[g] != {})
    && Ordered(tasks, gens)
    && (|gens| > 0 ==> Fresh(tasks, gens[|gens| - 1], done))
  }

  /** What is ready now became ready with the last generation. */
  ghost predicate Fresh(tasks: Tasks, last: set<SubTaskId>, done: set<SubTaskId>) {
    forall id {:trigger DependsOn(tasks, id, last)} :: id in Ready(tasks, done) ==> DependsOn(tasks, id, last)
  }

  lemma FitsKept(tasks: Tasks, gens: seq<set<SubTaskId>>, more: set<SubTaskId>, g: nat, id: SubTaskId)
    requires g < |gens| && Fits(tasks, gens, g, id)
    ensures Fits(tasks, gens + [more], g, id)
  {
    var gens' := gens + [more];
    forall p | p in tasks[id].predecessors ensures Before(gens', g, p) {
      assert Before(gens, g, p);
      var h :| 0 <= h < g && h < |gens| && p in gens[h];
      assert p in gens'[h];
    }
    assert g > 0 ==> gens'[g - 1] == gens[g - 1];
  }

  lemma ReadyFits(tasks: Tasks, gens: seq<set<SubTaskId>>, done: set<SubTaskId>, id: SubTaskId)
    requires Layered(tasks, gens, done) && id in Ready(tasks, done)
    ensures Fits(tasks, gens + [Ready(tasks, done)], |gens|, id)
  {
    var gens' := gens + [Ready(tasks, done)];
    forall p | p in tasks[id].predecessors ensures Before(gens', |gens|, p) {
      assert In(gens, p);
      var h :| 0 <= h < |gens| && p in gens[h];
      assert p in gens'[h];
    }
    if |gens| > 0 {
      assert DependsOn(tasks, id, gens[|gens| - 1]);
      assert gens'[|gens| - 1] == gens[|gens| - 1];
    }
  }

  lemma NextIsFresh(tasks: Tasks, done: set<SubTaskId>)
    ensures Fresh(tasks, Ready(tasks, done), done + Ready(tasks, done))
  {
    var ready := Ready(tasks, done);
    forall id | id in Ready(tasks, done + ready) ensures DependsOn(tasks, id, ready) {
      assert id !in ready;
      var p :| p in tasks[id].predecessors && p !in done;
      assert p in done + ready;
    }
  }

  lemma AddGeneration(tasks: Tasks, gens: seq<set<SubTaskId>>, done: set<SubTaskId>)
    requires Layered(tasks, gens, done) && Ready(tasks, done) != {}
    ensures Layered(tasks, gens + [Ready(tasks, done)], done + Ready(tasks, done))
  {
    var ready := Ready(tasks, done);
    var gens', done' := gens + [ready], done + ready;
    forall g: nat, id | g < |gens'| && id in gens'[g] ensures Fits(tasks, gens', g, id) {
      if g < |gens| {
        assert Fits(tasks, gens, g, id);
        FitsKept(tasks, gens, ready, g, id);
      } else {
        ReadyFits(tasks, gens, done, id);
      }
    }
    forall id ensures id in done' <==> In(gens', id) {
      assert In(gens, id) <==> id in done;
      if id in ready { assert id in gens'[|gens|]; }
      if id in done {
        var g :| 0 <= g < |gens| && id in gens[g];
        assert id in gens'[g];
      }
    }
    forall g, h | 0 <= g < h < |gens'| ensures gens'[g] !! gens'[h] {
      if h == |gens| {
        forall id | id in gens[g] ensures id !in ready { assert In(gens, id); }
      }
    }
    NextIsFresh(tasks, done);
  }

  /** `_generations`: the layering, or none when the dependencies are cyclic. */
  method Generations(tasks: Tasks) returns (gens: Option<seq<set<SubTaskId>>>)
    requires Closed(tasks)
    ensures gens.Some? <==> Acyclic(tasks)
    ensures gens.Some? ==> IsLayering(tasks, gens.value)
  {
    var layers: seq<set<SubTaskId>> := [];
    var done: set<SubTaskId> := {};
    var ready := Ready(tasks, done);
    while ready != {}
      invariant Layered(tasks, layers, done) && ready == Ready(tasks, done)
      decreases tasks.Keys - done
    {
      AddGeneration(tasks, layers, done);
      layers := layers + [ready];
      done := done + ready;
      ready := Ready(tasks, done);
    }
    if done == tasks.Keys {
      LayeringExcludesCycles(tasks, layers);
      gens := Some(layers);
    } else {
      NothingReadyIsStuck(tasks, done);
      assert tasks.Keys == done + (tasks.Keys - done);
      StuckMeansCycle(tasks, tasks.Keys - done);
      gens := None;
    }
  }

  lemma NothingReadyIsStuck(tasks: Tasks, done: set<SubTaskId>)
    requires Closed(tasks) && Ready(tasks, done) == {}
    ensures Stuck(tasks, tasks.Keys - done)
  {
    forall x | x in tasks.Keys - done ensures DependsOn(tasks, x, tasks.Keys - done) {
      assert x !in Ready(tasks, done);
    }
  }

  /** A graph has at most one layering: the generation of a task is the length of
      its longest chain of predecessors. */
  lemma {:induction false} LayeringIsUnique(tasks: Tasks, a: seq<set<SubTaskId>>, b: seq<set<SubTaskId>>, g: nat, id: SubTaskId)
    requires IsLayering(tasks, a) && IsLayering(tasks, b) && g < |a| && id in a[g]
    ensures g < |b| && id in b[g]
    decreases g
  {
    assert In(a, id) && In(b, id) && Fits(tasks, a, g, id);
    var h: nat :| h < |b| && id in b[h];
    assert Fits(tasks, b, h, id);
    if h > 0 {
      assert DependsOn(tasks, id, b[h - 1]);
      var p :| p in tasks[id].predecessors && p in b[h - 1];
      assert Before(a, g, p);
      var k: nat :| k < g && p in a[k];
      LayeringIsUnique(tasks, a, b, k, p);
      SamePlace(b, k, h - 1, p);
    }
    if g > 0 {
      assert DependsOn(tasks, id, a[g - 1]);
      var p :| p in tasks[id].predecessors && p in a[g - 1];
      LayeringIsUnique(tasks, a, b, g - 1, p);
      assert Before(b, h, p);
      var k: nat :| k < h && p in b[k];
      SamePlace(b, k, g - 1, p);
    }
  }

  lemma SamePlace(gens: seq<set<SubTaskId>>, g: nat, h: nat, id: SubTaskId)
    requires Disjoint(gens) && g < |gens| && h < |gens| && id in gens[g] && id in gens[h]
    ensures g == h
  {
  }
}
