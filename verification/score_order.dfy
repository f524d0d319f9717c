/** The queue score `rank * STRIDE + sequence` against the in-memory queue's
    tuple order (rank, sequence, id). */
module ScoreOrder {
  import opened TaskContracts
  import opened StoreTransactions

  /** Order of a Redis sorted set: score, then member. */
  predicate RedisBefore(p: Priority, n: nat, x: TaskId, q: Priority, m: nat, y: TaskId) {
    Score(p, n) < Score(q, m) || (Score(p, n) == Score(q, m) && x < y)
  }

  /** Order of asyncio.PriorityQueue on (rank, sequence, task id). */
  predicate TupleBefore(p: Priority, n: nat, x: TaskId, q: Priority, m: nat, y: TaskId) {
    Rank(p) < Rank(q) || (Rank(p) == Rank(q) && (n < m || (n == m && x < y)))
  }

  lemma OrdersAgree(p: Priority, n: nat, x: TaskId, q: Priority, m: nat, y: TaskId)
    requires 1 <= n <= STRIDE && 1 <= m <= STRIDE
    ensures RedisBefore(p, n, x, q, m, y) <==> TupleBefore(p, n, x, q, m, y)
  {
  }

  ghost predicate AgreeUpTo(bound: nat) {
    forall p, q, n: nat, m: nat, x: TaskId, y: TaskId :: 1 <= n <= bound && 1 <= m <= bound ==>
      (RedisBefore(p, n, x, q, m, y) <==> TupleBefore(p, n, x, q, m, y))
  }

  /** The encoding orders like the tuple for exactly the sequence numbers up to the stride. */
  lemma FaithfulExactlyUpToStride(bound: nat)
    ensures AgreeUpTo(bound) <==> bound <= STRIDE
  {
    if bound <= STRIDE {
      forall p, q, n: nat, m: nat, x: TaskId, y: TaskId | 1 <= n <= bound && 1 <= m <= bound
        ensures RedisBefore(p, n, x, q, m, y) <==> TupleBefore(p, n, x, q, m, y)
      {
        OrdersAgree(p, n, x, q, m, y);
      }
    } else {
      // Critical number STRIDE + 1 against high number 1: equal scores, so ids decide.
      assert TupleBefore(Critical, STRIDE + 1, 1, High, 1, 0) && !RedisBefore(Critical, STRIDE + 1, 1, High, 1, 0);
    }
  }
}
