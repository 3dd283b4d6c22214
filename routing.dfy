/** Worker selection: the round-robin router and the node pool it indexes. */
module Routing {
  import opened Base
  import opened Models
  import opened Node

  /** `usize` addition of one with wrap-around, what `fetch_add(1)` stores. */
  function WrappingIncrement(x: usize): (y: usize)
    ensures x < USIZE_MAX ==> y == x + 1
    ensures x == USIZE_MAX ==> y == 0
  {
    (x + 1) % USIZE_MODULUS
  }

  /**
    The round-robin strategy. Its counter is the only state of the pipeline
    that changes after start-up.
   */
  class RoundRobinRouter {
    var next: usize

    /** `RoundRobinRouter::default()`: the counter starts at zero. */
    constructor ()
      ensures next == 0
    {
      next := 0;
    }

    /**
      `pick`: returns the counter's value before the increment (`fetch_add`
      returns the old value). The tier is accepted and ignored.
     */
    method Pick(tier: Tier) returns (idx: usize)
      modifies this
      ensures idx == old(next)
      ensures next == WrappingIncrement(old(next))
    {
      idx := next;
      next := WrappingIncrement(next);
    }
  }

  /** The values returned by `n` successive calls of `Pick` on a router whose counter is `start`. */
  function Picks(start: usize, n: nat): (r: seq<usize>)
    ensures |r| == n
    decreases n
  {
    if n == 0 then [] else [start] + Picks(WrappingIncrement(start), n - 1)
  }

  /**
    The first of `n` picks is what `Pick` returns, and the rest are the picks
    of the router `Pick` leaves behind.
   */
  lemma PicksStep(start: usize, n: nat)
    requires n > 0
    ensures Picks(start, n)[0] == start
    ensures Picks(start, n)[1..] == Picks(WrappingIncrement(start), n - 1)
  {
  }

  /** Without overflow, successive picks return consecutive values. */
  lemma {:induction false} PicksConsecutive(start: usize, n: nat)
    requires start + n <= USIZE_MODULUS
    ensures forall i :: 0 <= i < n ==> Picks(start, n)[i] == start + i
    decreases n
  {
    if n > 1 {
      PicksConsecutive(start + 1, n - 1);
    }
  }

  /** A fresh router's k-th pick (counting from zero) returns k. */
  lemma FreshRouterPicks(n: nat)
    requires n <= USIZE_MODULUS
    ensures forall i :: 0 <= i < n ==> Picks(0, n)[i] == i
  {
    PicksConsecutive(0, n);
  }

  /** Without overflow, successive picks are strictly increasing, so pairwise distinct. */
  lemma PicksIncreasing(start: usize, n: nat)
    requires start + n <= USIZE_MODULUS
    ensures forall i, j :: 0 <= i < j < n ==> Picks(start, n)[i] < Picks(start, n)[j]
  {
    PicksConsecutive(start, n);
  }

  /** On overflow the counter wraps to zero, as `fetch_add` on `usize` does. */
  lemma PicksWrap()
    ensures Picks(USIZE_MAX, 2) == [USIZE_MAX, 0]
  {
  }

  /** The ordered, immutable pool of worker handles. */
  datatype NodePool = NodePool(nodes: seq<NodeClient>) {

    /** `NodePool::len` */
    function Len(): (n: nat)
      ensures n == |nodes|
    {
      |nodes|
    }

    /**
      `NodePool::get`: the handle at `idx` reduced modulo the pool size. An
      empty pool would divide by zero; the agent never builds one.
     */
    function Get(idx: usize): (c: NodeClient)
      requires |nodes| > 0
      ensures c in nodes
      ensures idx < |nodes| ==> c == nodes[idx]
    {
      nodes[idx % |nodes|]
    }
  }

  /** Euclidean remainder is determined by any quotient-remainder decomposition. */
  lemma ModUnique(x: int, k: int, q: int, r: int)
    requires k > 0 && 0 <= r < k && x == q * k + r
    ensures x % k == r
  {
    var q', r' := x / k, x % k;
    assert x == q' * k + r';
    assert (q - q') * k == r' - r;
    if q > q' {
      MulAtLeast(q - q', k);
    } else if q < q' {
      MulAtLeast(q' - q, k);
    }
  }

  lemma {:induction false} MulAtLeast(d: int, k: int)
    requires d >= 1 && k > 0
    ensures d * k >= k
    decreases d
  {
    if d > 1 {
      MulAtLeast(d - 1, k);
      assert d * k == (d - 1) * k + k;
    }
  }

  /** Get is periodic in the pool size. */
  lemma GetWraparound(pool: NodePool, i: usize)
    requires pool.Len() > 0 && i + pool.Len() < USIZE_MODULUS
    ensures pool.Get(i) == pool.Get(i + pool.Len())
  {
    var k := pool.Len();
    ModUnique(i + k, k, i / k + 1, i % k);
  }

  /**
    From a fresh router, K = pool-size picks visit the nodes in order, and
    pick K + 1 comes back to the first node.
   */
  lemma RoundRobinCoverage(pool: NodePool)
    requires 0 < pool.Len() < USIZE_MODULUS
    ensures var k := pool.Len(); var p := Picks(0, k + 1);
      && (forall i :: 0 <= i < k ==> pool.Get(p[i]) == pool.nodes[i])
      && pool.Get(p[k]) == pool.nodes[0]
  {
    var k := pool.Len();
    FreshRouterPicks(k + 1);
    ModUnique(k, k, 1, 0);
  }

  /** The pool slots that the picks `p` select in a pool of `k` nodes. */
  function SlotsOf(p: seq<usize>, k: nat): set<int>
    requires k > 0
  {
    set i | 0 <= i < |p| :: p[i] % k
  }

  /**
    Any K = pool-size consecutive picks without overflow select every slot of
    the pool, each exactly once.
   */
  lemma WindowCoversPool(pool: NodePool, start: usize)
    requires pool.Len() > 0 && start + pool.Len() <= USIZE_MODULUS
    ensures var k := pool.Len(); var p := Picks(start, k);
      && (forall j :: j in SlotsOf(p, k) <==> 0 <= j < k)
      && (forall i, i' :: 0 <= i < i' < k ==> p[i] % k != p[i'] % k)
  {
    var k := pool.Len();
    var p := Picks(start, k);
    PicksConsecutive(start, k);
    forall j | 0 <= j < k
      ensures j in SlotsOf(p, k)
    {
      var i := SlotWitness(start, k, j);
      assert p[i] % k == j;
    }
    forall i, i' | 0 <= i < i' < k
      ensures p[i] % k != p[i'] % k
    {
      SlotsDiffer(start + i, start + i', k);
    }
  }

  /** Among k consecutive values from `start`, one has remainder `j`. */
  lemma SlotWitness(start: int, k: int, j: int) returns (i: int)
    requires k > 0 && 0 <= j < k
    ensures 0 <= i < k && (start + i) % k == j
  {
    var q, s := start / k, start % k;
    assert start == q * k + s;
    if j >= s {
      i := j - s;
      ModUnique(start + i, k, q, j);
    } else {
      i := j - s + k;
      assert start + i == (q + 1) * k + j;
      ModUnique(start + i, k, q + 1, j);
    }
  }

  /** Two values less than k apart have different remainders modulo k. */
  lemma SlotsDiffer(x: int, y: int, k: int)
    requires k > 0 && x < y < x + k
    ensures x % k != y % k
  {
    var q := x / k;
    assert x == q * k + x % k;
    if x % k == y % k {
      if x % k + (y - x) < k {
        ModUnique(y, k, q, x % k + (y - x));
      } else {
        ModUnique(y, k, q + 1, x % k + (y - x) - k);
      }
    }
  }
}
