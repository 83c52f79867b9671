/** The all-pairs shortest path engine (Pathfinding.cs): Floyd-Warshall over
    a successor matrix, producing the next hop and the number of edges of a
    shortest path for every pair of nodes. */
module Pathfinding {

  /** C#'s int.MaxValue, the cost of a pair without a path. */
  const MaxInt: int := 0x7FFF_FFFF
  const MinInt: int := -0x8000_0000

  predicate IsInt32(v: int) {
    MinInt <= v <= MaxInt
  }

  /** Two's-complement wrap-around of C#'s unchecked int arithmetic. */
  function Wrap32(v: int): (r: int)
    ensures IsInt32(r)
    ensures IsInt32(v) ==> r == v
  {
    (v - MinInt) % 0x1_0000_0000 + MinInt
  }

  /** addCosts: the sum of two costs, where MaxInt absorbs everything; the
      sum itself is a 32-bit addition. */
  function AddCosts(a: int, b: int): (r: int)
    requires IsInt32(a) && IsInt32(b)
    ensures IsInt32(r)
    ensures a == MaxInt || b == MaxInt ==> r == MaxInt
    ensures a != MaxInt && b != MaxInt && IsInt32(a + b) ==> r == a + b
  {
    if a == MaxInt || b == MaxInt then MaxInt else Wrap32(a + b)
  }

  /** The two matrices the engine returns. */
  datatype PathfindingResult = PathfindingResult(successors: array2<int>, costs: array2<int>)

  // ---------------------------------------------------------------------
  // Specification: the graph, its paths and the relaxation recurrence
  // ---------------------------------------------------------------------

  /** An n x n input matrix. */
  ghost predicate Square(g: seq<seq<int>>) {
    forall i :: 0 <= i < |g| ==> |g[i]| == |g|
  }

  /** The shape the grid gives its inputs: entry (i, j) is j for a direct
      edge i -> j and -1 otherwise. */
  ghost predicate WellFormed(g: seq<seq<int>>)
    requires Square(g)
  {
    forall i, j :: 0 <= i < |g| && 0 <= j < |g| ==> g[i][j] == -1 || g[i][j] == j
  }

  /** A walk from i to j along entries that are not -1; it has |p| - 1 edges. */
  ghost predicate IsPath(g: seq<seq<int>>, p: seq<nat>, i: nat, j: nat)
    requires Square(g)
  {
    && |p| >= 1 && p[0] == i && p[|p| - 1] == j
    && (forall t :: 0 <= t < |p| ==> p[t] < |g|)
    && (forall t :: 0 <= t < |p| - 1 ==> g[p[t]][p[t + 1]] != -1)
  }

  /** Every node strictly inside the walk is below k. */
  ghost predicate Below(p: seq<nat>, k: nat) {
    forall t :: 0 < t < |p| - 1 ==> p[t] < k
  }

  /** The length of two consecutive walks, or MaxInt if either is missing. */
  ghost function Join(a: int, b: int): int {
    if a == MaxInt || b == MaxInt then MaxInt else a + b
  }

  /** Round k of the relaxation improves pair (i, j) through node k. */
  ghost predicate Improves(g: seq<seq<int>>, k: nat, i: nat, j: nat)
    requires Square(g) && k < |g| && i < |g| && j < |g|
    decreases k + 1, 0
  {
    Join(Dist(g, k, i, k), Dist(g, k, k, j)) < Dist(g, k, i, j)
  }

  /** The cost of pair (i, j) after the first k rounds of relaxation. */
  ghost function Dist(g: seq<seq<int>>, k: nat, i: nat, j: nat): (r: int)
    requires Square(g) && k <= |g| && i < |g| && j < |g|
    ensures 0 <= r <= MaxInt
    ensures i == j ==> r == 0
    decreases k, 1
  {
    if k == 0 then
      if i == j then 0 else if g[i][j] != -1 then 1 else MaxInt
    else if Improves(g, k - 1, i, j) then
      Join(Dist(g, k - 1, i, k - 1), Dist(g, k - 1, k - 1, j))
    else
      Dist(g, k - 1, i, j)
  }

  /** The successor entry of pair (i, j) after the first k rounds. */
  ghost function Succ(g: seq<seq<int>>, k: nat, i: nat, j: nat): int
    requires Square(g) && k <= |g| && i < |g| && j < |g|
    decreases k
  {
    if k == 0 then g[i][j]
    else if Improves(g, k - 1, i, j) then Succ(g, k - 1, i, k - 1)
    else Succ(g, k - 1, i, j)
  }

  /** c is the number of edges of a shortest walk from i to j, or MaxInt
      exactly when there is no walk at all. */
  ghost predicate IsShortestCost(g: seq<seq<int>>, i: nat, j: nat, c: int)
    requires Square(g)
  {
    && (c == MaxInt <==> forall p :: !IsPath(g, p, i, j))
    && (c < MaxInt ==> exists p :: IsPath(g, p, i, j) && |p| == c + 1)
    && (forall p :: IsPath(g, p, i, j) ==> c <= |p| - 1)
  }

  // ---------------------------------------------------------------------
  // Facts about one round of relaxation
  // ---------------------------------------------------------------------

  /** Round k never changes row k or column k: going through k itself costs
      the extra Dist(k, k, k) == 0, which is never a strict improvement. */
  lemma RoundKeepsPivotRowAndColumn(g: seq<seq<int>>, k: nat, x: nat)
    requires Square(g) && k < |g| && x < |g|
    ensures !Improves(g, k, x, k) && !Improves(g, k, k, x)
    ensures Dist(g, k + 1, x, k) == Dist(g, k, x, k) && Succ(g, k + 1, x, k) == Succ(g, k, x, k)
    ensures Dist(g, k + 1, k, x) == Dist(g, k, k, x) && Succ(g, k + 1, k, x) == Succ(g, k, k, x)
  {
  }

  /** Costs never increase, and a successor entry changes only together with
      a strict drop of its cost. */
  lemma RelaxationNeverRaisesCost(g: seq<seq<int>>, k: nat, i: nat, j: nat)
    requires Square(g) && k < |g| && i < |g| && j < |g|
    ensures Dist(g, k + 1, i, j) <= Dist(g, k, i, j)
    ensures Succ(g, k + 1, i, j) != Succ(g, k, i, j) ==> Dist(g, k + 1, i, j) < Dist(g, k, i, j)
  {
  }

  /** The diagonal keeps cost 0 and its input successor through every round. */
  lemma {:induction false} DiagonalUnchanged(g: seq<seq<int>>, k: nat, i: nat)
    requires Square(g) && k <= |g| && i < |g|
    ensures Dist(g, k, i, i) == 0 && Succ(g, k, i, i) == g[i][i]
  {
    if k > 0 {
      DiagonalUnchanged(g, k - 1, i);
    }
  }

  /** A pair that ends up without a path was never improved: its successor
      is still the input entry, and that entry is -1. */
  lemma {:induction false} UnreachableKeepsInput(g: seq<seq<int>>, k: nat, i: nat, j: nat)
    requires Square(g) && k <= |g| && i < |g| && j < |g|
    requires Dist(g, k, i, j) == MaxInt
    ensures Succ(g, k, i, j) == g[i][j] == -1
  {
    if k > 0 {
      UnreachableKeepsInput(g, k - 1, i, j);
    }
  }

  // ---------------------------------------------------------------------
  // Walks
  // ---------------------------------------------------------------------

  /** Two walks that meet at m join into one walk. */
  lemma PathAppend(g: seq<seq<int>>, p1: seq<nat>, p2: seq<nat>, i: nat, m: nat, j: nat)
    requires Square(g) && IsPath(g, p1, i, m) && IsPath(g, p2, m, j)
    ensures IsPath(g, p1 + p2[1..], i, j) && |p1 + p2[1..]| == |p1| + |p2| - 1
  {
    var p := p1 + p2[1..];
    forall t | 0 <= t < |p| - 1
      ensures g[p[t]][p[t + 1]] != -1
    {
      if t < |p1| - 1 {
        assert p[t] == p1[t] && p[t + 1] == p1[t + 1];
      } else {
        assert p[t] == p2[t - |p1| + 1] && p[t + 1] == p2[t - |p1| + 2];
      }
    }
  }

  /** A walk cut at position a gives a walk to p[a] and a walk from p[a]. */
  lemma PathSplit(g: seq<seq<int>>, p: seq<nat>, i: nat, j: nat, a: nat, k: nat)
    requires Square(g) && IsPath(g, p, i, j) && a < |p|
    ensures IsPath(g, p[..a + 1], i, p[a]) && IsPath(g, p[a..], p[a], j)
    ensures Below(p, k) && 0 < a < |p| - 1 ==> Below(p[..a + 1], k) && Below(p[a..], k)
  {
  }

  /** A walk without a node inside it is a single edge or a single node. */
  lemma BelowZeroIsDirect(p: seq<nat>)
    ensures Below(p, 0) ==> |p| <= 2
  {
    if |p| > 2 {
      assert 0 < 1 < |p| - 1 && p[1] >= 0;
    }
  }

  /** The first k rounds leave at most the length of any walk whose inner
      nodes are below k. */
  lemma {:induction false} DistLowerBound(g: seq<seq<int>>, k: nat, i: nat, j: nat, p: seq<nat>)
    requires Square(g) && k <= |g| && i < |g| && j < |g|
    requires IsPath(g, p, i, j) && Below(p, k)
    ensures Dist(g, k, i, j) <= |p| - 1
    decreases k, |p|
  {
    if k == 0 {
      BelowZeroIsDirect(p);
    } else {
      var m := k - 1;
      if a :| 0 < a < |p| - 1 && p[a] == m {
        PathSplit(g, p, i, j, a, k);
        DistLowerBound(g, k, i, m, p[..a + 1]);
        DistLowerBound(g, k, m, j, p[a..]);
        RoundKeepsPivotRowAndColumn(g, m, i);
        RoundKeepsPivotRowAndColumn(g, m, j);
      } else {
        assert Below(p, m);
        DistLowerBound(g, m, i, j, p);
      }
    }
  }

  /** Every finite cost is the length of a walk whose inner nodes are below k. */
  lemma {:induction false} DistWitness(g: seq<seq<int>>, k: nat, i: nat, j: nat) returns (p: seq<nat>)
    requires Square(g) && k <= |g| && i < |g| && j < |g|
    requires Dist(g, k, i, j) < MaxInt
    ensures IsPath(g, p, i, j) && Below(p, k) && |p| == Dist(g, k, i, j) + 1
  {
    if k == 0 {
      p := if i == j then [i] else [i, j];
    } else {
      var m := k - 1;
      if Improves(g, m, i, j) {
        var p1 := DistWitness(g, m, i, m);
        var p2 := DistWitness(g, m, m, j);
        PathAppend(g, p1, p2, i, m, j);
        p := p1 + p2[1..];
        forall t | 0 < t < |p| - 1
          ensures p[t] < k
        {
          if t < |p1| - 1 {
            assert p[t] == p1[t];
          } else if t == |p1| - 1 {
            assert p[t] == m;
          } else {
            assert p[t] == p2[t - |p1| + 1];
          }
        }
      } else {
        p := DistWitness(g, m, i, j);
      }
    }
  }

  /** A sequence of distinct nodes below n has at most n elements. */
  lemma {:induction false} DistinctNodesBounded(q: seq<nat>, n: nat)
    requires forall t :: 0 <= t < |q| ==> q[t] < n
    requires forall s, t :: 0 <= s < t < |q| ==> q[s] != q[t]
    ensures |q| <= n
    decreases n
  {
    if |q| > 0 {
      assert q[0] < n;
      var r := q;
      if t :| 0 <= t < |q| && q[t] == n - 1 {
        r := q[..t] + q[t + 1..];
        assert forall u :: 0 <= u < |r| ==> r[u] == if u < t then q[u] else q[u + 1];
      }
      DistinctNodesBounded(r, n - 1);
    }
  }

  /** Cutting out the loops of a walk leaves a walk between the same ends,
      over inner nodes of the original walk, with at most n nodes. */
  lemma {:induction false} ShortenToSimple(g: seq<seq<int>>, p: seq<nat>, i: nat, j: nat, k: nat)
    returns (q: seq<nat>)
    requires Square(g) && IsPath(g, p, i, j) && Below(p, k)
    ensures IsPath(g, q, i, j) && Below(q, k) && |q| <= |p| && |q| <= |g|
    decreases |p|
  {
    if a, b :| 0 <= a < b < |p| && p[a] == p[b] {
      PathSplit(g, p, i, j, a, k);
      PathSplit(g, p, i, j, b, k);
      PathAppend(g, p[..a + 1], p[b..], i, p[a], j);
      var r := p[..a + 1] + p[b..][1..];
      forall u | 0 < u < |r| - 1
        ensures r[u] < k
      {
        if u <= a {
          assert r[u] == p[u];
        } else {
          assert r[u] == p[u + b - a];
        }
      }
      q := ShortenToSimple(g, r, i, j, k);
    } else {
      DistinctNodesBounded(p, |g|);
      q := p;
    }
  }

  /** Every finite cost is below the number of nodes, so the sum of two
      finite costs never leaves the 32-bit range. */
  lemma DistBounded(g: seq<seq<int>>, k: nat, i: nat, j: nat)
    requires Square(g) && k <= |g| && i < |g| && j < |g|
    requires Dist(g, k, i, j) < MaxInt
    ensures Dist(g, k, i, j) < |g|
  {
    var p := DistWitness(g, k, i, j);
    var q := ShortenToSimple(g, p, i, j, k);
    DistLowerBound(g, k, i, j, q);
  }

  /** After all rounds, every cost is the number of edges of a shortest
      walk, and MaxInt exactly for the pairs without a walk. */
  lemma CostIsShortestPath(g: seq<seq<int>>, i: nat, j: nat)
    requires Square(g) && |g| <= MaxInt && i < |g| && j < |g|
    ensures IsShortestCost(g, i, j, Dist(g, |g|, i, j))
  {
    var n := |g|;
    forall p | IsPath(g, p, i, j)
      ensures Dist(g, n, i, j) <= |p| - 1
    {
      DistLowerBound(g, n, i, j, p);
    }
    if Dist(g, n, i, j) < MaxInt {
      var w := DistWitness(g, n, i, j);
    } else {
      forall p | IsPath(g, p, i, j)
        ensures false
      {
        var q := ShortenToSimple(g, p, i, j, n);
        DistLowerBound(g, n, i, j, q);
      }
    }
  }

  // ---------------------------------------------------------------------
  // Successors
  // ---------------------------------------------------------------------

  /** For grid-shaped input, the successor of a reachable pair (i, j) after
      k rounds is a direct neighbour s of i, with a walk from s to j that is
      one edge shorter than the cost of (i, j). */
  lemma {:induction false} SuccessorStep(g: seq<seq<int>>, k: nat, i: nat, j: nat) returns (p: seq<nat>)
    requires Square(g) && WellFormed(g) && k <= |g| && i < |g| && j < |g| && i != j
    requires Dist(g, k, i, j) < MaxInt
    ensures 0 <= Succ(g, k, i, j) < |g| && g[i][Succ(g, k, i, j)] == Succ(g, k, i, j)
    ensures IsPath(g, p, Succ(g, k, i, j), j) && |p| == Dist(g, k, i, j)
  {
    if k == 0 {
      p := [j];
    } else {
      var m := k - 1;
      if Improves(g, m, i, j) {
        var p1 := SuccessorStep(g, m, i, m);
        var p2 := DistWitness(g, m, m, j);
        PathAppend(g, p1, p2, Succ(g, m, i, m), m, j);
        p := p1 + p2[1..];
      } else {
        p := SuccessorStep(g, m, i, j);
      }
    }
  }

  /** For grid-shaped input, the final successor s of a reachable pair
      (i, j), i != j, is a direct edge i -> s, and s is one edge closer to j. */
  lemma SuccessorOnShortestPath(g: seq<seq<int>>, i: nat, j: nat)
    requires Square(g) && WellFormed(g) && i < |g| && j < |g| && i != j
    requires Dist(g, |g|, i, j) < MaxInt
    ensures 0 <= Succ(g, |g|, i, j) < |g|
    ensures g[i][Succ(g, |g|, i, j)] == Succ(g, |g|, i, j)
    ensures Dist(g, |g|, Succ(g, |g|, i, j), j) == Dist(g, |g|, i, j) - 1
  {
    var n := |g|;
    var p := SuccessorStep(g, n, i, j);
    var s: nat := Succ(g, n, i, j);
    DistLowerBound(g, n, s, j, p);
    var w := DistWitness(g, n, s, j);
    PathAppend(g, [i, s], w, i, s, j);
    DistLowerBound(g, n, i, j, [i, s] + w[1..]);
  }

  /** The walk obtained by repeatedly looking up the successor towards j:
      it reaches j, and it is a shortest walk. */
  ghost function SuccessorWalk(g: seq<seq<int>>, i: nat, j: nat): (p: seq<nat>)
    requires Square(g) && WellFormed(g) && i < |g| && j < |g|
    requires Dist(g, |g|, i, j) < MaxInt
    ensures IsPath(g, p, i, j) && |p| == Dist(g, |g|, i, j) + 1
    ensures forall t :: 0 < t < |p| ==> p[t] == Succ(g, |g|, p[t - 1], j)
    decreases Dist(g, |g|, i, j)
  {
    if i == j then [i]
    else
      SuccessorOnShortestPath(g, i, j);
      var s: nat := Succ(g, |g|, i, j);
      var rest := SuccessorWalk(g, s, j);
      PrependSuccessor(g, i, j, rest);
      [i] + rest
  }

  /** A successor walk from the successor of (i, j) extends to one from i. */
  lemma PrependSuccessor(g: seq<seq<int>>, i: nat, j: nat, rest: seq<nat>)
    requires Square(g) && i < |g| && j < |g|
    requires 0 <= Succ(g, |g|, i, j) < |g| && g[i][Succ(g, |g|, i, j)] != -1
    requires IsPath(g, rest, Succ(g, |g|, i, j), j)
    requires forall t :: 0 < t < |rest| ==> rest[t] == Succ(g, |g|, rest[t - 1], j)
    ensures IsPath(g, [i] + rest, i, j)
    ensures forall t :: 0 < t < |[i] + rest| ==> ([i] + rest)[t] == Succ(g, |g|, ([i] + rest)[t - 1], j)
  {
    var s: nat := Succ(g, |g|, i, j);
    PathAppend(g, [i, s], rest, i, s, j);
    assert [i, s] + rest[1..] == [i] + rest;
  }

  /** One step of round k on pair (i, j), as the engine computes it: entries
      (i, k) and (k, j) are the same before and after the round, addCosts
      does not wrap on them, and the pair takes the sum exactly when it is a
      strict improvement. */
  lemma RelaxStep(g: seq<seq<int>>, k: nat, i: nat, j: nat)
    requires Square(g) && k < |g| < 0x4000_0000 && i < |g| && j < |g|
    ensures Dist(g, k + 1, i, k) == Dist(g, k, i, k) && Succ(g, k + 1, i, k) == Succ(g, k, i, k)
    ensures Dist(g, k + 1, k, j) == Dist(g, k, k, j) && Succ(g, k + 1, k, j) == Succ(g, k, k, j)
    ensures var via := AddCosts(Dist(g, k, i, k), Dist(g, k, k, j));
            && (via < Dist(g, k, i, j) ==> Dist(g, k + 1, i, j) == via && Succ(g, k + 1, i, j) == Succ(g, k, i, k))
            && (via >= Dist(g, k, i, j) ==> Dist(g, k + 1, i, j) == Dist(g, k, i, j) && Succ(g, k + 1, i, j) == Succ(g, k, i, j))
  {
    RoundKeepsPivotRowAndColumn(g, k, i);
    RoundKeepsPivotRowAndColumn(g, k, j);
    if Dist(g, k, i, k) < MaxInt {
      DistBounded(g, k, i, k);
    }
    if Dist(g, k, k, j) < MaxInt {
      DistBounded(g, k, k, j);
    }
  }

  // ---------------------------------------------------------------------
  // The engine
  // ---------------------------------------------------------------------

  /** The n x n input as a matrix value, n being the number of rows. */
  ghost function Matrix(a: array2<int>): (g: seq<seq<int>>)
    reads a
    requires a.Length1 >= a.Length0
    ensures |g| == a.Length0 && Square(g)
    ensures forall i, j :: 0 <= i < a.Length0 && 0 <= j < a.Length0 ==> g[i][j] == a[i, j]
  {
    seq(a.Length0, i requires 0 <= i < a.Length0 reads a =>
      seq(a.Length0, j requires 0 <= j < a.Length0 reads a => a[i, j]))
  }

  /** Floyd-Warshall with successors. The input is read, never written; the
      results are new n x n matrices holding, for every pair, the cost and
      the successor after all n rounds: the number of edges of a shortest
      walk (MaxInt without a walk) and the input entry updated whenever a
      strictly shorter walk through a new node was found. */
  method FloydWarshallSuccessors(initialSuccessors: array2<int>) returns (result: PathfindingResult)
    // the source reads columns 0..n-1 of every row, n being the number of rows
    requires initialSuccessors.Length1 >= initialSuccessors.Length0
    // the sum of two finite costs (each below n) stays within 32 bits; .NET's
    // limits on array sizes keep n far below this bound
    requires initialSuccessors.Length0 < 0x4000_0000
    ensures fresh(result.successors) && fresh(result.costs) && result.successors != result.costs
    ensures result.successors.Length0 == result.successors.Length1 == initialSuccessors.Length0
    ensures result.costs.Length0 == result.costs.Length1 == initialSuccessors.Length0
    ensures forall i, j :: 0 <= i < initialSuccessors.Length0 && 0 <= j < initialSuccessors.Length0 ==>
              && result.costs[i, j] == Dist(Matrix(initialSuccessors), initialSuccessors.Length0, i, j)
              && result.successors[i, j] == Succ(Matrix(initialSuccessors), initialSuccessors.Length0, i, j)
              && IsShortestCost(Matrix(initialSuccessors), i, j, result.costs[i, j])
  {
    var n := initialSuccessors.Length0;
    ghost var g := Matrix(initialSuccessors);
    var successors := new int[n, n];
    var costs := new int[n, n];
    // initialize costs and successors
    InitializeCostsAndSuccessors(g, initialSuccessors, successors, costs);
    for k := 0 to n
      invariant forall i', j' :: 0 <= i' < n && 0 <= j' < n ==>
                  costs[i', j'] == Dist(g, k, i', j') && successors[i', j'] == Succ(g, k, i', j')
    {
      RelaxThroughNode(g, successors, costs, k);
    }
    forall i, j | 0 <= i < n && 0 <= j < n
      ensures IsShortestCost(g, i, j, costs[i, j])
    {
      CostIsShortestPath(g, i, j);
    }
    result := PathfindingResult(successors, costs);
  }

  /** The state before the first round: each successor entry is copied from
      the input; the cost is 0 on the diagonal, 1 for an edge and MaxInt
      otherwise. */
  method InitializeCostsAndSuccessors(ghost g: seq<seq<int>>, initialSuccessors: array2<int>,
                                      successors: array2<int>, costs: array2<int>)
    requires initialSuccessors.Length1 >= initialSuccessors.Length0
    requires g == Matrix(initialSuccessors) && successors != costs
    requires initialSuccessors != successors && initialSuccessors != costs
    requires successors.Length0 == successors.Length1 == costs.Length0 == costs.Length1 == |g|
    modifies successors, costs
    ensures forall i, j :: 0 <= i < |g| && 0 <= j < |g| ==>
              costs[i, j] == Dist(g, 0, i, j) && successors[i, j] == Succ(g, 0, i, j)
  {
    var n := initialSuccessors.Length0;
    for i := 0 to n
      invariant forall i', j' :: 0 <= i' < i && 0 <= j' < n ==>
                  costs[i', j'] == Dist(g, 0, i', j') && successors[i', j'] == Succ(g, 0, i', j')
    {
      for j := 0 to n
        invariant forall i', j' :: 0 <= i' < i && 0 <= j' < n ==>
                    costs[i', j'] == Dist(g, 0, i', j') && successors[i', j'] == Succ(g, 0, i', j')
        invariant forall j' :: 0 <= j' < j ==>
                    costs[i, j'] == Dist(g, 0, i, j') && successors[i, j'] == Succ(g, 0, i, j')
      {
        successors[i, j] := initialSuccessors[i, j];
        if i == j {
          costs[i, j] := 0;
        } else if successors[i, j] != -1 {
          costs[i, j] := 1;
        } else {
          costs[i, j] := MaxInt;
        }
      }
    }
  }

  /** Round k of the relaxation, in place: every pair (i, j) takes the route
      through node k when that is strictly cheaper, with the successor
      towards k. */
  method RelaxThroughNode(ghost g: seq<seq<int>>, successors: array2<int>, costs: array2<int>, k: nat)
    requires Square(g) && k < |g| < 0x4000_0000 && successors != costs
    requires successors.Length0 == successors.Length1 == costs.Length0 == costs.Length1 == |g|
    requires forall i, j :: 0 <= i < |g| && 0 <= j < |g| ==>
               costs[i, j] == Dist(g, k, i, j) && successors[i, j] == Succ(g, k, i, j)
    modifies successors, costs
    ensures forall i, j :: 0 <= i < |g| && 0 <= j < |g| ==>
              costs[i, j] == Dist(g, k + 1, i, j) && successors[i, j] == Succ(g, k + 1, i, j)
  {
    var n := costs.Length0;
    for i := 0 to n
      invariant forall i', j' :: 0 <= i' < i && 0 <= j' < n ==>
                  costs[i', j'] == Dist(g, k + 1, i', j') && successors[i', j'] == Succ(g, k + 1, i', j')
      invariant forall i', j' :: i <= i' < n && 0 <= j' < n ==>
                  costs[i', j'] == Dist(g, k, i', j') && successors[i', j'] == Succ(g, k, i', j')
    {
      forall j | 0 <= j < n
        ensures costs[k, j] == Dist(g, k, k, j)
      {
        RoundKeepsPivotRowAndColumn(g, k, j);
      }
      RelaxRow(g, successors, costs, k, i);
    }
  }

  /** Round k of the relaxation on row i: every entry (i, j) takes the route
      through node k when that is strictly cheaper; the other rows are left
      as they are. */
  method RelaxRow(ghost g: seq<seq<int>>, successors: array2<int>, costs: array2<int>, k: nat, i: nat)
    requires Square(g) && k < |g| < 0x4000_0000 && i < |g| && successors != costs
    requires successors.Length0 == successors.Length1 == costs.Length0 == costs.Length1 == |g|
    requires forall j :: 0 <= j < |g| ==> costs[i, j] == Dist(g, k, i, j) && successors[i, j] == Succ(g, k, i, j)
    requires forall j :: 0 <= j < |g| ==> costs[k, j] == Dist(g, k, k, j)
    modifies successors, costs
    ensures forall j :: 0 <= j < |g| ==> costs[i, j] == Dist(g, k + 1, i, j) && successors[i, j] == Succ(g, k + 1, i, j)
    ensures forall i', j' :: 0 <= i' < |g| && i' != i && 0 <= j' < |g| ==>
              costs[i', j'] == old(costs[i', j']) && successors[i', j'] == old(successors[i', j'])
  {
    var n := costs.Length0;
    for j := 0 to n
      invariant forall j' :: 0 <= j' < j ==>
                  costs[i, j'] == Dist(g, k + 1, i, j') && successors[i, j'] == Succ(g, k + 1, i, j')
      invariant forall j' :: j <= j' < n ==>
                  costs[i, j'] == Dist(g, k, i, j') && successors[i, j'] == Succ(g, k, i, j')
      invariant forall j' :: 0 <= j' < n ==> costs[k, j'] == Dist(g, k, k, j')
      invariant forall i', j' :: 0 <= i' < n && i' != i && 0 <= j' < n ==>
                  costs[i', j'] == old(costs[i', j']) && successors[i', j'] == old(successors[i', j'])
    {
      RelaxStep(g, k, i, j);
      var costViaNodeK := AddCosts(costs[i, k], costs[k, j]);
      if costViaNodeK < costs[i, j] {
        costs[i, j] := costViaNodeK;
        successors[i, j] := successors[i, k];
      }
    }
  }

  /** The chain 0 -> 1 -> 2 with an isolated node 3: the successor of (0, 2)
      is 1 at cost 2, and (0, 3) has no path: cost MaxInt, successor -1. */
  lemma ChainExample()
    ensures var g := [[-1, 1, -1, -1], [-1, -1, 2, -1], [-1, -1, -1, -1], [-1, -1, -1, -1]];
            && Square(g) && WellFormed(g)
            && Dist(g, 4, 0, 2) == 2 && Succ(g, 4, 0, 2) == 1
            && Dist(g, 4, 0, 3) == MaxInt && Succ(g, 4, 0, 3) == -1
  {
    var g := [[-1, 1, -1, -1], [-1, -1, 2, -1], [-1, -1, -1, -1], [-1, -1, -1, -1]];
    assert Square(g) && WellFormed(g);
  }
}
