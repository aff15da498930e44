/** Finite dependency relations: walks, cycles, reachability and orders that respect them. */
module Graph {
  import opened Sequences

  /** Each step with the steps it depends on. */
  type Dependencies = map<string, seq<string>>

  ghost predicate Closed(g: Dependencies) {
    forall u, d :: u in g && d in g[u] ==> d in g
  }

  ghost predicate Edge(g: Dependencies, u: string, d: string) {
    u in g && d in g[u]
  }

  ghost predicate IsWalk(g: Dependencies, p: seq<string>) {
    p != [] && forall i :: 0 <= i < |p| - 1 ==> Edge(g, p[i], p[i + 1])
  }

  ghost predicate IsCycle(g: Dependencies, c: seq<string>) {
    |c| >= 2 && c[0] == c[|c| - 1] && IsWalk(g, c)
  }

  ghost predicate IsSimpleCycle(g: Dependencies, c: seq<string>) {
    IsCycle(g, c) && Distinct(c[..|c| - 1])
  }

  ghost predicate Acyclic(g: Dependencies) {
    forall c :: !IsCycle(g, c)
  }

  /** A run of distinct steps, each after everything it depends on. */
  ghost predicate Respects(g: Dependencies, order: seq<string>) {
    && Distinct(order)
    && (forall i :: 0 <= i < |order| ==> order[i] in g)
    && (forall i, d :: 0 <= i < |order| && d in g[order[i]] ==> d in order[..i])
  }

  ghost predicate IsCompleteOrder(g: Dependencies, order: seq<string>) {
    Respects(g, order) && forall u :: u in g ==> u in order
  }

  ghost predicate WalkBetween(g: Dependencies, p: seq<string>, u: string, v: string) {
    |p| >= 2 && p[0] == u && p[|p| - 1] == v && IsWalk(g, p)
  }

  /** `v` is upstream of `u`: at least one dependency edge leads from `u` to `v`. */
  ghost predicate Reaches(g: Dependencies, u: string, v: string) {
    exists p :: WalkBetween(g, p, u, v)
  }

  ghost function Index(order: seq<string>, u: string): (i: nat)
    requires u in order
    ensures i < |order| && order[i] == u && u !in order[..i]
  {
    if order[0] == u then 0 else 1 + Index(order[1..], u)
  }

  // ------------------------------------------------ an order excludes cycles

  lemma {:induction false} WalkDescends(g: Dependencies, order: seq<string>, p: seq<string>)
    requires Respects(g, order) && IsWalk(g, p) && |p| >= 2 && p[0] in order
    ensures p[|p| - 1] in order && Index(order, p[|p| - 1]) < Index(order, p[0])
    decreases |p|
  {
    var i := Index(order, p[0]);
    assert Edge(g, p[0], p[1]);
    assert p[1] in order[..i];
    var j :| 0 <= j < i && order[j] == p[1];
    assert Index(order, p[1]) == j;
    if |p| > 2 {
      assert IsWalk(g, p[1..]) by {
        forall k | 0 <= k < |p[1..]| - 1 ensures Edge(g, p[1..][k], p[1..][k + 1]) {
          assert Edge(g, p[k + 1], p[k + 2]);
        }
      }
      WalkDescends(g, order, p[1..]);
    }
  }

  lemma OrderedIsAcyclic(g: Dependencies, order: seq<string>)
    requires IsCompleteOrder(g, order)
    ensures Acyclic(g)
  {
    forall c | IsCycle(g, c)
      ensures false
    {
      assert Edge(g, c[0], c[1]);
      WalkDescends(g, order, c);
    }
  }

  lemma OrderedIsClosed(g: Dependencies, order: seq<string>)
    requires IsCompleteOrder(g, order)
    ensures Closed(g)
  {
  }

  // --------------------------------------- no order means a cycle (pigeonhole)

  lemma {:induction false} DistinctFits(s: seq<string>, within: set<string>)
    requires Distinct(s) && forall u :: u in s ==> u in within
    ensures |s| <= |within|
  {
    if s != [] {
      var rest, last := s[..|s| - 1], s[|s| - 1];
      assert forall u :: u in rest ==> u in within && u != last;
      DistinctFits(rest, within - {last});
    }
  }

  ghost predicate WaitsFor(g: Dependencies, u: string, blocked: set<string>) {
    exists d :: d in blocked && Edge(g, u, d)
  }

  ghost predicate Stuck(g: Dependencies, blocked: set<string>) {
    forall u {:trigger WaitsFor(g, u, blocked)} :: u in blocked ==> WaitsFor(g, u, blocked)
  }

  lemma {:induction false} LongWalk(g: Dependencies, blocked: set<string>, n: nat) returns (p: seq<string>)
    requires Stuck(g, blocked) && blocked != {}
    ensures |p| == n + 1 && IsWalk(g, p) && forall u :: u in p ==> u in blocked
  {
    if n == 0 {
      var u :| u in blocked;
      p := [u];
    } else {
      var q := LongWalk(g, blocked, n - 1);
      assert WaitsFor(g, q[n - 1], blocked);
      var d :| d in blocked && Edge(g, q[n - 1], d);
      p := q + [d];
      forall i | 0 <= i < |p| - 1
        ensures Edge(g, p[i], p[i + 1])
      {
        if i < n - 1 { assert Edge(g, q[i], q[i + 1]); }
      }
    }
  }

  lemma SubWalk(g: Dependencies, p: seq<string>, i: nat, j: nat)
    requires IsWalk(g, p) && i < j <= |p|
    ensures IsWalk(g, p[i..j])
  {
  }

  /** A non-empty set of steps that all wait for one another contains a cycle. */
  lemma StuckHasCycle(g: Dependencies, blocked: set<string>)
    requires Stuck(g, blocked) && blocked != {}
    ensures !Acyclic(g)
  {
    var p := LongWalk(g, blocked, |blocked|);
    if Distinct(p) {
      DistinctFits(p, blocked);
    } else {
      var i, j :| 0 <= i < j < |p| && p[i] == p[j];
      SubWalk(g, p, i, j + 1);
      var c := p[i..j + 1];
      assert c[0] == p[i] && c[|c| - 1] == p[j];
      assert IsCycle(g, c);
    }
  }

  lemma ExtendOrder(g: Dependencies, order: seq<string>, u: string)
    requires Respects(g, order) && u in g && u !in order
    requires forall d :: d in g[u] ==> d in order
    ensures Respects(g, order + [u])
  {
    var longer := order + [u];
    forall i, d | 0 <= i < |longer| && d in g[longer[i]]
      ensures d in longer[..i]
    {
      assert longer[..i] == order[..i];
      if i == |order| { assert order[..i] == order; }
    }
  }

  /** Every acyclic relation has a complete order. */
  lemma AcyclicHasOrder(g: Dependencies) returns (order: seq<string>)
    requires Acyclic(g) && Closed(g)
    ensures IsCompleteOrder(g, order)
  {
    order := [];
    var rest := g.Keys;
    while rest != {}
      invariant rest <= g.Keys
      invariant Respects(g, order)
      invariant forall u :: u in g ==> (u in order <==> u !in rest)
      decreases rest
    {
      if Stuck(g, rest) {
        StuckHasCycle(g, rest);
      }
      var u :| u in rest && !WaitsFor(g, u, rest);
      forall d | d in g[u]
        ensures d in order
      {
        assert Edge(g, u, d);
      }
      ExtendOrder(g, order, u);
      order := order + [u];
      rest := rest - {u};
    }
  }

  // ------------------------------------------------------------ reachability

  lemma ReachesByEdge(g: Dependencies, u: string, d: string)
    requires Edge(g, u, d)
    ensures Reaches(g, u, d)
  {
    assert WalkBetween(g, [u, d], u, d);
  }

  lemma ReachesThrough(g: Dependencies, u: string, d: string, v: string)
    requires Edge(g, u, d) && Reaches(g, d, v)
    ensures Reaches(g, u, v)
  {
    var p :| WalkBetween(g, p, d, v);
    var q := [u] + p;
    forall i | 0 <= i < |q| - 1
      ensures Edge(g, q[i], q[i + 1])
    {
      if i > 0 { assert Edge(g, p[i - 1], p[i]); }
    }
    assert WalkBetween(g, q, u, v);
  }

  lemma ReachesSplits(g: Dependencies, u: string, v: string) returns (d: string)
    requires Reaches(g, u, v)
    ensures Edge(g, u, d) && (d == v || Reaches(g, d, v))
  {
    var p :| WalkBetween(g, p, u, v);
    d := p[1];
    assert Edge(g, p[0], p[1]);
    if |p| > 2 {
      SubWalk(g, p, 1, |p|);
      assert WalkBetween(g, p[1..], d, v);
    }
  }

  /** In a respecting run everything upstream of a step comes before it. */
  lemma UpstreamComesFirst(g: Dependencies, order: seq<string>, i: nat, v: string)
    requires Respects(g, order) && i < |order| && Reaches(g, order[i], v)
    ensures v in order[..i]
  {
    var p :| WalkBetween(g, p, order[i], v);
    WalkDescends(g, order, p);
    var j := Index(order, v);
    assert Index(order, order[i]) == i;
    assert order[..i][j] == v;
  }
}
