/** The graph of crystal particles and its connected components: crystal
    particles are vertices, neighbouring crystal particles share an edge, and
    a cluster is a connected component. */
module ConnComponents {
  import opened Base
  import opened PeriodicBox

  /** An undirected adjacency list with vertices 0 .. nv-1 and its edges in
      the order they were added. */
  datatype Graph = Graph(nv: nat, edges: seq<(nat, nat)>)

  predicate ValidGraph(g: Graph)
  {
    forall k :: 0 <= k < |g.edges| ==> g.edges[k].0 < g.nv && g.edges[k].1 < g.nv
  }

  predicate Adjacent(g: Graph, u: nat, v: nat)
  {
    (u, v) in g.edges || (v, u) in g.edges
  }

  /** A walk along edges of g through the vertices of p. */
  predicate IsPath(g: Graph, p: seq<nat>)
  {
    && |p| > 0
    && (forall k :: 0 <= k < |p| ==> p[k] < g.nv)
    && (forall k :: 0 <= k < |p| - 1 ==> Adjacent(g, p[k], p[k + 1]))
  }

  ghost predicate Reachable(g: Graph, u: nat, v: nat)
  {
    exists p :: IsPath(g, p) && p[0] == u && p[|p| - 1] == v
  }

  // ---------------------------------------------------------------------
  // Reachability is an equivalence on the vertices.

  lemma ReachRefl(g: Graph, v: nat)
    requires v < g.nv
    ensures Reachable(g, v, v)
  {
    assert IsPath(g, [v]);
  }

  lemma ReachStep(g: Graph, u: nat, v: nat, w: nat)
    requires u < g.nv && Adjacent(g, u, v) && Reachable(g, v, w)
    ensures Reachable(g, u, w)
  {
    var p :| IsPath(g, p) && p[0] == v && p[|p| - 1] == w;
    var q := [u] + p;
    assert forall k :: 0 < k < |q| ==> q[k] == p[k - 1];
    assert IsPath(g, q);
  }

  function Reverse(p: seq<nat>): (r: seq<nat>)
    ensures |r| == |p|
    ensures forall k :: 0 <= k < |p| ==> r[k] == p[|p| - 1 - k]
  {
    if |p| == 0 then [] else Reverse(p[1..]) + [p[0]]
  }

  lemma ReachSym(g: Graph, u: nat, v: nat)
    requires Reachable(g, u, v)
    ensures Reachable(g, v, u)
  {
    var p :| IsPath(g, p) && p[0] == u && p[|p| - 1] == v;
    var r := Reverse(p);
    forall k | 0 <= k < |r| - 1
      ensures Adjacent(g, r[k], r[k + 1])
    {
      assert Adjacent(g, p[|p| - 2 - k], p[|p| - 1 - k]);
    }
    assert IsPath(g, r);
  }

  lemma ReachTrans(g: Graph, u: nat, v: nat, w: nat)
    requires Reachable(g, u, v) && Reachable(g, v, w)
    ensures Reachable(g, u, w)
  {
    var p :| IsPath(g, p) && p[0] == u && p[|p| - 1] == v;
    var q :| IsPath(g, q) && q[0] == v && q[|q| - 1] == w;
    var r := p + q[1..];
    forall k | 0 <= k < |r| - 1
      ensures Adjacent(g, r[k], r[k + 1])
    {
      if k < |p| - 1 {
        assert r[k] == p[k] && r[k + 1] == p[k + 1];
      } else {
        assert r[k] == q[k - |p| + 1] && r[k + 1] == q[k - |p| + 2];
      }
    }
    assert IsPath(g, r);
  }

  // ---------------------------------------------------------------------
  // Components, numbered as connected_components numbers them: a search
  // started from each not yet visited vertex in increasing order, so the
  // components are numbered in the order of their lowest vertex.

  /** The least vertex u with k <= u reachable from v. */
  ghost function MinReachFrom(g: Graph, v: nat, k: nat): (r: nat)
    requires v < g.nv && k <= v
    ensures k <= r <= v && Reachable(g, v, r)
    ensures forall u: nat :: k <= u < r ==> !Reachable(g, v, u)
    decreases v - k
  {
    if k == v then ReachRefl(g, v); v
    else if Reachable(g, v, k) then k
    else MinReachFrom(g, v, k + 1)
  }

  /** The representative of v's component: its lowest vertex. */
  ghost function Rep(g: Graph, v: nat): (r: nat)
    requires v < g.nv
    ensures r <= v && Reachable(g, v, r)
    ensures forall u: nat :: u < r ==> !Reachable(g, v, u)
  {
    MinReachFrom(g, v, 0)
  }

  /** Two vertices have the same representative exactly when they are
      connected. */
  lemma {:induction false} SameRep(g: Graph, u: nat, v: nat)
    requires u < g.nv && v < g.nv
    ensures Rep(g, u) == Rep(g, v) <==> Reachable(g, u, v)
  {
    var ru, rv := Rep(g, u), Rep(g, v);
    if Reachable(g, u, v) {
      ReachSym(g, u, v);
      ReachTrans(g, v, u, ru);
      ReachTrans(g, u, v, rv);
      assert !(rv < ru) && !(ru < rv);
    }
    if ru == rv {
      ReachSym(g, v, rv);
      ReachTrans(g, u, ru, v);
    }
  }

  lemma RepIdem(g: Graph, v: nat)
    requires v < g.nv
    ensures Rep(g, v) < g.nv && Rep(g, Rep(g, v)) == Rep(g, v)
  {
    SameRep(g, v, Rep(g, v));
  }

  /** The number of representatives below k. */
  ghost function NumReps(g: Graph, k: nat): (n: nat)
    requires k <= g.nv
    ensures n <= k
  {
    if k == 0 then 0
    else NumReps(g, k - 1) + (if Rep(g, k - 1) == k - 1 then 1 else 0)
  }

  lemma {:induction false} NumRepsMonotone(g: Graph, a: nat, b: nat)
    requires a <= b <= g.nv
    ensures NumReps(g, a) <= NumReps(g, b)
    decreases b - a
  {
    if a < b {
      NumRepsMonotone(g, a, b - 1);
    }
  }

  /** The number connected_components gives v's component. */
  ghost function CompId(g: Graph, v: nat): (c: nat)
    requires v < g.nv
  {
    NumReps(g, Rep(g, v))
  }

  /** Component numbers run from 0 to the component count, and two vertices
      share one exactly when they are connected. */
  lemma CompIdBound(g: Graph, v: nat)
    requires v < g.nv
    ensures CompId(g, v) < NumReps(g, g.nv)
  {
    var r := Rep(g, v);
    RepIdem(g, v);
    NumRepsMonotone(g, r + 1, g.nv);
  }

  lemma {:induction false} CompIdSame(g: Graph, u: nat, v: nat)
    requires u < g.nv && v < g.nv
    ensures CompId(g, u) == CompId(g, v) <==> Reachable(g, u, v)
  {
    SameRep(g, u, v);
    var ru, rv := Rep(g, u), Rep(g, v);
    RepIdem(g, u);
    RepIdem(g, v);
    if ru < rv {
      NumRepsMonotone(g, ru + 1, rv);
    } else if rv < ru {
      NumRepsMonotone(g, rv + 1, ru);
    }
  }

  /** Component numbers are given in the order of the components' lowest
      vertices. */
  lemma CompIdOrder(g: Graph, u: nat, v: nat)
    requires u < g.nv && v < g.nv && Rep(g, u) < Rep(g, v)
    ensures CompId(g, u) < CompId(g, v)
  {
    RepIdem(g, u);
    NumRepsMonotone(g, Rep(g, u) + 1, Rep(g, v));
  }

  /** The component number of every vertex, in vertex order. */
  ghost function CompIds(g: Graph): (r: seq<int>)
    ensures |r| == g.nv
  {
    seq(g.nv, v requires 0 <= v < g.nv => CompId(g, v))
  }

  // ---------------------------------------------------------------------
  // Labelling the components.

  function SumSeq(s: seq<nat>): nat
  {
    if |s| == 0 then 0 else SumSeq(s[..|s| - 1]) + s[|s| - 1]
  }

  lemma {:induction false} SumSeqUpdate(s: seq<nat>, i: nat, x: nat)
    requires i < |s|
    ensures SumSeq(s[i := x]) + s[i] == SumSeq(s) + x
    decreases |s|
  {
    var t := s[i := x];
    if i < |s| - 1 {
      assert t[..|t| - 1] == s[..|s| - 1][i := x];
      SumSeqUpdate(s[..|s| - 1], i, x);
    } else {
      assert t[..|t| - 1] == s[..|s| - 1];
    }
  }

  /** Marks that name, for each vertex, a vertex at or below it that it
      reaches. */
  ghost predicate Sound(g: Graph, mark: seq<nat>)
  {
    |mark| == g.nv
    && forall v :: 0 <= v < g.nv ==> mark[v] <= v && Reachable(g, v, mark[v])
  }

  /** Marks that agree across every edge. */
  predicate Stable(g: Graph, mark: seq<nat>)
    requires ValidGraph(g) && |mark| == g.nv
  {
    forall k :: 0 <= k < |g.edges| ==> mark[g.edges[k].0] == mark[g.edges[k].1]
  }

  lemma {:induction false} StableAlongPath(g: Graph, mark: seq<nat>, p: seq<nat>)
    requires ValidGraph(g) && |mark| == g.nv && Stable(g, mark) && IsPath(g, p)
    ensures mark[p[|p| - 1]] == mark[p[0]]
    decreases |p|
  {
    if |p| > 1 {
      var q := p[..|p| - 1];
      assert IsPath(g, q);
      StableAlongPath(g, mark, q);
      assert Adjacent(g, p[|p| - 2], p[|p| - 1]);
      if (p[|p| - 2], p[|p| - 1]) in g.edges {
        var k :| 0 <= k < |g.edges| && g.edges[k] == (p[|p| - 2], p[|p| - 1]);
      } else {
        var k :| 0 <= k < |g.edges| && g.edges[k] == (p[|p| - 1], p[|p| - 2]);
      }
    }
  }

  /** Sound labels that agree across every edge name each vertex's
      representative. */
  lemma {:induction false} StableLabelsAreReps(g: Graph, mark: seq<nat>)
    requires ValidGraph(g) && Sound(g, mark) && Stable(g, mark)
    ensures forall v :: 0 <= v < g.nv ==> mark[v] == Rep(g, v)
  {
    forall v | 0 <= v < g.nv
      ensures mark[v] == Rep(g, v)
    {
      var r := Rep(g, v);
      var p :| IsPath(g, p) && p[0] == v && p[|p| - 1] == r;
      StableAlongPath(g, mark, p);
      assert mark[v] <= r;
      assert !(mark[v] < r);
    }
  }

  /** One pass over the edge list, lowering the larger mark of each edge's
      ends to the smaller. */
  method LabelPass(g: Graph, mark: array<nat>) returns (changed: bool)
    requires ValidGraph(g) && Sound(g, mark[..])
    modifies mark
    ensures Sound(g, mark[..])
    ensures changed ==> SumSeq(mark[..]) < SumSeq(old(mark[..]))
    ensures !changed ==> mark[..] == old(mark[..]) && Stable(g, mark[..])
  {
    changed := false;
    var k := 0;
    while k < |g.edges|
      invariant 0 <= k <= |g.edges|
      invariant Sound(g, mark[..])
      invariant SumSeq(mark[..]) <= SumSeq(old(mark[..]))
      invariant changed ==> SumSeq(mark[..]) < SumSeq(old(mark[..]))
      invariant !changed ==> mark[..] == old(mark[..])
      invariant !changed ==> forall k' :: 0 <= k' < k ==> mark[g.edges[k'].0] == mark[g.edges[k'].1]
    {
      var a, b := g.edges[k].0, g.edges[k].1;
      var la, lb := mark[a], mark[b];
      assert Adjacent(g, a, b) && Adjacent(g, b, a);
      if la < lb {
        ReachStep(g, b, a, la);
        SumSeqUpdate(mark[..], b, la);
        mark[b] := la;
        changed := true;
      } else if lb < la {
        ReachStep(g, a, b, lb);
        SumSeqUpdate(mark[..], a, lb);
        mark[a] := lb;
        changed := true;
      }
      k := k + 1;
    }
  }

  /** Each vertex labelled with the lowest vertex of its component. */
  method ComponentReps(g: Graph) returns (mark: array<nat>)
    requires ValidGraph(g)
    ensures mark.Length == g.nv
    ensures forall v :: 0 <= v < g.nv ==> mark[v] == Rep(g, v)
  {
    mark := new nat[g.nv](v => v);
    forall v | 0 <= v < g.nv
      ensures Reachable(g, v, v)
    {
      ReachRefl(g, v);
    }
    var changed := true;
    while changed
      invariant mark.Length == g.nv
      invariant Sound(g, mark[..])
      invariant !changed ==> Stable(g, mark[..])
      decreases SumSeq(mark[..]), changed
    {
      changed := LabelPass(g, mark);
    }
    StableLabelsAreReps(g, mark[..]);
  }

  /** connected_components: component[v] is the number of v's component, and
      num the number of components. */
  method ConnectedComponents(g: Graph) returns (component: array<int>, num: int)
    requires ValidGraph(g)
    ensures component.Length == g.nv
    ensures forall v :: 0 <= v < g.nv ==> component[v] == CompId(g, v)
    ensures num == NumReps(g, g.nv)
  {
    var mark := ComponentReps(g);
    component := new int[g.nv];
    var count := 0;
    var v := 0;
    while v < g.nv
      invariant 0 <= v <= g.nv
      invariant count == NumReps(g, v)
      invariant forall w :: 0 <= w < g.nv ==> mark[w] == Rep(g, w)
      invariant forall w :: 0 <= w < v ==> component[w] == CompId(g, w)
    {
      if mark[v] == v {
        component[v] := count;
        count := count + 1;
      } else {
        RepIdem(g, v);
        component[v] := component[mark[v]];
      }
      v := v + 1;
    }
    num := count;
  }

  // ---------------------------------------------------------------------
  // Component sizes and the largest component.

  /** The number of entries of s equal to c. */
  function Occurrences(s: seq<int>, c: int): nat
  {
    if |s| == 0 then 0
    else Occurrences(s[..|s| - 1], c) + (if s[|s| - 1] == c then 1 else 0)
  }

  /** The positions below n at which ids holds c, in increasing order. */
  function Members(ids: seq<int>, c: int, n: nat): (r: seq<int>)
    requires n <= |ids|
    ensures StrictlyAscending(r)
    ensures forall x :: x in r <==> 0 <= x < n && ids[x] == c
    ensures |r| == Occurrences(ids[..n], c)
  {
    if n == 0 then []
    else
      var r0 := Members(ids, c, n - 1);
      assert ids[..n][..n - 1] == ids[..n - 1] && ids[..n][n - 1] == ids[n - 1];
      assert forall k :: 0 <= k < |r0| ==> r0[k] in r0 && r0[k] < n - 1;
      r0 + (if ids[n - 1] == c then [n - 1] else [])
  }

  /** The size of every component, by component number. */
  ghost function Sizes(g: Graph): (r: seq<int>)
    ensures |r| == NumReps(g, g.nv)
  {
    seq(NumReps(g, g.nv), c => Occurrences(CompIds(g), c))
  }

  /** The number of vertices in v's component. */
  ghost function CompSize(g: Graph, v: nat): int
    requires v < g.nv
  {
    Occurrences(CompIds(g), CompId(g, v))
  }

  /** std::max_element as a position: the first position of a largest entry,
      and 0 (the end of the range) when s is empty. */
  function FirstArgMax(s: seq<int>): (i: nat)
    ensures |s| == 0 ==> i == 0
    ensures |s| > 0 ==> i < |s|
    ensures |s| > 0 ==> forall j :: 0 <= j < |s| ==> s[j] <= s[i]
    ensures forall j :: 0 <= j < i ==> s[j] < s[i]
  {
    if |s| <= 1 then 0
    else
      var k := FirstArgMax(s[..|s| - 1]);
      if s[|s| - 1] > s[k] then |s| - 1 else k
  }

  /** The number of the largest component (the lowest-numbered one on a tie). */
  ghost function LargestId(g: Graph): nat
  {
    FirstArgMax(Sizes(g))
  }

  /** The vertices of the largest component, in increasing order. */
  ghost function Largest(g: Graph): seq<int>
  {
    Members(CompIds(g), LargestId(g), g.nv)
  }

  /** A graph has components exactly when it has vertices. */
  lemma HasComponents(g: Graph)
    ensures g.nv > 0 <==> NumReps(g, g.nv) > 0
  {
    if g.nv > 0 {
      CompIdBound(g, 0);
    }
  }

  /** Every component number up to the component count names the component
      of some vertex. */
  lemma CompHasVertex(g: Graph, c: nat) returns (v: nat)
    requires c < NumReps(g, g.nv)
    ensures v < g.nv && CompId(g, v) == c
  {
    v := RepNumbered(g, c, g.nv);
    RepIdem(g, v);
  }

  /** The representative numbered c lies below any k with more than c
      representatives below it. */
  lemma {:induction false} RepNumbered(g: Graph, c: nat, k: nat) returns (r: nat)
    requires k <= g.nv && c < NumReps(g, k)
    ensures r < k && Rep(g, r) == r && NumReps(g, r) == c
    decreases k
  {
    if c < NumReps(g, k - 1) {
      r := RepNumbered(g, c, k - 1);
    } else {
      r := k - 1;
    }
  }

  /** The counting loop: ncomp[c] is the number of vertices labelled c. */
  method CountComponents(component: array<int>, num: int) returns (ncomp: array<int>)
    requires 0 <= num
    requires forall v :: 0 <= v < component.Length ==> 0 <= component[v] < num
    ensures ncomp.Length == num
    ensures forall c :: 0 <= c < num ==> ncomp[c] == Occurrences(component[..], c)
  {
    ncomp := new int[num](c => 0);
    var i := 0;
    while i != component.Length
      invariant 0 <= i <= component.Length
      invariant forall c :: 0 <= c < num ==> ncomp[c] == Occurrences(component[..i], c)
    {
      assert component[..i + 1][..i] == component[..i];
      ncomp[component[i]] := ncomp[component[i]] + 1;
      i := i + 1;
    }
    assert component[..i] == component[..];
  }

  /** std::max_element followed by std::distance from the beginning. */
  method MaxElement(a: array<int>) returns (idx: int)
    ensures idx == FirstArgMax(a[..])
  {
    idx := 0;
    if a.Length == 0 {
      return;
    }
    var i := 1;
    while i != a.Length
      invariant 1 <= i <= a.Length
      invariant idx == FirstArgMax(a[..i])
    {
      assert a[..i + 1][..i] == a[..i];
      if a[i] > a[idx] {
        idx := i;
      }
      i := i + 1;
    }
    assert a[..i] == a[..];
  }

  /** The component labels and their sizes, as both bopxbulk and
      largestcomponent compute them. */
  method ComponentSizes(g: Graph) returns (component: array<int>, ncomp: array<int>)
    requires ValidGraph(g)
    ensures component[..] == CompIds(g)
    ensures ncomp[..] == Sizes(g)
  {
    var num;
    component, num := ConnectedComponents(g);
    forall v | 0 <= v < g.nv
      ensures component[v] < num
    {
      CompIdBound(g, v);
    }
    assert component[..] == CompIds(g);
    ncomp := CountComponents(component, num);
  }

  /** bopxbulk: the size of the largest component. An empty graph has no
      component, and the source then dereferences the end of an empty
      range; the model answers None. */
  method BopXBulk(g: Graph) returns (r: Option<int>)
    requires ValidGraph(g)
    ensures r.None? <==> g.nv == 0
    ensures r.Some? ==> forall v: nat :: v < g.nv ==> CompSize(g, v) <= r.value
    ensures r.Some? ==> exists v: nat :: v < g.nv && CompSize(g, v) == r.value
    ensures r.Some? ==> r.value == |Largest(g)|
  {
    var component, ncomp := ComponentSizes(g);
    HasComponents(g);
    if ncomp.Length == 0 {
      return None;
    }
    var maxcomp := MaxElement(ncomp);
    r := Some(ncomp[maxcomp]);
    forall v: nat | v < g.nv
      ensures CompSize(g, v) <= r.value
    {
      CompIdBound(g, v);
      assert CompSize(g, v) == ncomp[CompId(g, v)];
    }
    var w := CompHasVertex(g, maxcomp);
    assert CompSize(g, w) == r.value;
    BopXBulkIsLargestSize(g);
    assert maxcomp == LargestId(g);
  }

  /** largestcomponent: the vertices of the largest component, in increasing
      order; the first such component when several are equally large; empty
      for an empty graph. */
  method LargestComponent(g: Graph) returns (ret: seq<int>)
    requires ValidGraph(g)
    ensures ret == Largest(g)
  {
    var component, ncomp := ComponentSizes(g);
    var maxcomp := MaxElement(ncomp);
    ret := [];
    var i := 0;
    while i != component.Length
      invariant 0 <= i <= component.Length
      invariant ret == Members(component[..], maxcomp, i)
    {
      if component[i] == maxcomp {
        ret := ret + [i];
      }
      i := i + 1;
    }
  }

  /** The largest component is a component: its vertices are pairwise
      connected, and whatever one of them reaches belongs to it. */
  lemma LargestIsComponent(g: Graph)
    requires ValidGraph(g)
    ensures forall u, v :: u in Largest(g) && v in Largest(g) ==> Reachable(g, u, v)
    ensures forall u, w: nat :: u in Largest(g) && w < g.nv && Reachable(g, u, w) ==> w in Largest(g)
  {
    forall u, v | u in Largest(g) && v in Largest(g)
      ensures Reachable(g, u, v)
    {
      CompIdSame(g, u, v);
    }
    forall u, w: nat | u in Largest(g) && w < g.nv && Reachable(g, u, w)
      ensures w in Largest(g)
    {
      CompIdSame(g, u, w);
    }
  }

  /** The largest component is as large as any component, strictly larger
      than every component numbered before it, holds |Largest| vertices, and
      is empty only for an empty graph. */
  lemma LargestIsLargest(g: Graph)
    requires ValidGraph(g)
    ensures g.nv == 0 <==> Largest(g) == []
    ensures forall v: nat :: v < g.nv ==> CompSize(g, v) <= |Largest(g)|
    ensures forall v: nat :: v < g.nv && CompId(g, v) < LargestId(g) ==> CompSize(g, v) < |Largest(g)|
  {
    HasComponents(g);
    var c := LargestId(g);
    var ids := CompIds(g);
    assert ids[..g.nv] == ids;
    if g.nv > 0 {
      var v := CompHasVertex(g, c);
      assert v in Largest(g);
      assert |Largest(g)| == Sizes(g)[c];
      forall u: nat | u < g.nv
        ensures CompSize(g, u) <= |Largest(g)|
        ensures CompId(g, u) < c ==> CompSize(g, u) < |Largest(g)|
      {
        CompIdBound(g, u);
        assert CompSize(g, u) == Sizes(g)[CompId(g, u)];
      }
    }
  }

  /** bopxbulk returns the size of the set largestcomponent returns. */
  lemma BopXBulkIsLargestSize(g: Graph)
    requires ValidGraph(g) && g.nv > 0
    ensures LargestId(g) < |Sizes(g)|
    ensures |Largest(g)| == Sizes(g)[LargestId(g)]
  {
    HasComponents(g);
    assert CompIds(g)[..g.nv] == CompIds(g);
  }

  // ---------------------------------------------------------------------
  // The crystal graph.

  predicate XParsValid(ps: seq<Particle>, xpars: seq<int>)
  {
    forall k :: 0 <= k < |xpars| ==> 0 <= xpars[k] < |ps|
  }

  /** Crystal particles i and j (positions in xpars) are neighbours. */
  predicate XLinked(ps: seq<Particle>, b: Box, xpars: seq<int>, i: nat, j: nat)
    requires XParsValid(ps, xpars) && i < |xpars| && j < |xpars|
  {
    IsNeighbour(b, Sep(b, ps[xpars[i]], ps[xpars[j]]))
  }

  /** The edges the inner loop adds for row i from column j on. */
  function RowEdges(ps: seq<Particle>, b: Box, xpars: seq<int>, i: nat, j: nat): (r: seq<(nat, nat)>)
    requires XParsValid(ps, xpars) && i < j <= |xpars|
    decreases |xpars| - j
  {
    if j == |xpars| then []
    else (if XLinked(ps, b, xpars, i, j) then [(i, j)] else []) + RowEdges(ps, b, xpars, i, j + 1)
  }

  /** The edges the loops add from row i on, in the order they add them. */
  function EdgesFrom(ps: seq<Particle>, b: Box, xpars: seq<int>, i: nat): (r: seq<(nat, nat)>)
    requires XParsValid(ps, xpars) && i <= |xpars|
    decreases |xpars| - i
  {
    if i == |xpars| then [] else RowEdges(ps, b, xpars, i, i + 1) + EdgesFrom(ps, b, xpars, i + 1)
  }

  /** Row i from column j on holds exactly the pairs (i, c), c >= j, of
      linked crystal particles. */
  lemma {:induction false} RowEdgesMembers(ps: seq<Particle>, b: Box, xpars: seq<int>, i: nat, j: nat, a: int, c: int)
    requires XParsValid(ps, xpars) && i < j <= |xpars|
    ensures (a, c) in RowEdges(ps, b, xpars, i, j)
            <==> a == i && j <= c < |xpars| && XLinked(ps, b, xpars, i, c)
    decreases |xpars| - j
  {
    if j < |xpars| {
      RowEdgesMembers(ps, b, xpars, i, j + 1, a, c);
    }
  }

  /** The edges from row i on are exactly the pairs a < c, a >= i, of
      linked crystal particles. */
  lemma {:induction false} EdgesFromMembers(ps: seq<Particle>, b: Box, xpars: seq<int>, i: nat, a: int, c: int)
    requires XParsValid(ps, xpars) && i <= |xpars|
    ensures (a, c) in EdgesFrom(ps, b, xpars, i) <==> i <= a < c < |xpars| && XLinked(ps, b, xpars, a, c)
    decreases |xpars| - i
  {
    if i < |xpars| {
      RowEdgesMembers(ps, b, xpars, i, i + 1, a, c);
      EdgesFromMembers(ps, b, xpars, i + 1, a, c);
    }
  }

  /** The vertex count after adding the edges es in order to an empty graph:
      add_edge enlarges the vertex set to cover both ends. */
  function VertexCount(es: seq<(nat, nat)>): (n: nat)
    ensures forall k :: 0 <= k < |es| ==> es[k].0 < n && es[k].1 < n
    ensures n == 0 <==> es == []
    ensures n > 0 ==> exists k :: 0 <= k < |es| && (es[k].0 == n - 1 || es[k].1 == n - 1)
  {
    if |es| == 0 then 0
    else
      var n0 := VertexCount(es[..|es| - 1]);
      var e := es[|es| - 1];
      var n := if n0 > e.0 + 1 then n0 else e.0 + 1;
      assert forall k :: 0 <= k < |es| - 1 ==> es[k] == es[..|es| - 1][k];
      if n > e.1 + 1 then n else e.1 + 1
  }

  ghost function XGraph(ps: seq<Particle>, b: Box, xpars: seq<int>): Graph
    requires XParsValid(ps, xpars)
  {
    var es := EdgesFrom(ps, b, xpars, 0);
    Graph(VertexCount(es), es)
  }

  /** The crystal graph is a graph on at most as many vertices as there are
      crystal particles. */
  lemma XGraphBound(ps: seq<Particle>, b: Box, xpars: seq<int>)
    requires XParsValid(ps, xpars)
    ensures ValidGraph(XGraph(ps, b, xpars)) && XGraph(ps, b, xpars).nv <= |xpars|
  {
    var es := EdgesFrom(ps, b, xpars, 0);
    forall k | 0 <= k < |es| ensures es[k].0 < es[k].1 < |xpars| {
      assert (es[k].0, es[k].1) == es[k] && es[k] in es;
      EdgesFromMembers(ps, b, xpars, 0, es[k].0, es[k].1);
    }
  }

  /** box.isneigh on crystal particles i and j; rsq is the box's scratch
      value, carried along. */
  method CrystalPairTest(ps: seq<Particle>, xpars: seq<int>, b: Box, i: nat, j: nat, rsq0: real)
    returns (nb: bool, rsq: real)
    requires XParsValid(ps, xpars) && i < |xpars| && j < |xpars|
    ensures nb == XLinked(ps, b, xpars, i, j)
  {
    nb, rsq := IsNeigh(b, ps[xpars[i]], ps[xpars[j]], rsq0);
  }

  /** The inner loop of getxgraph for row i. */
  method AddRow(ps: seq<Particle>, xpars: seq<int>, b: Box, i: nat, edges0: seq<(nat, nat)>, rsq0: real)
    returns (edges: seq<(nat, nat)>, rsq: real)
    requires XParsValid(ps, xpars) && i < |xpars|
    ensures edges == edges0 + RowEdges(ps, b, xpars, i, i + 1)
  {
    edges, rsq := edges0, rsq0;
    var j := i + 1;
    while j != |xpars|
      invariant i + 1 <= j <= |xpars|
      invariant edges + RowEdges(ps, b, xpars, i, j) == edges0 + RowEdges(ps, b, xpars, i, i + 1)
    {
      var nb;
      nb, rsq := CrystalPairTest(ps, xpars, b, i, j, rsq);
      if nb {
        edges := edges + [(i, j)];
      }
      j := j + 1;
    }
  }

  /** getxgraph: an edge (i, j), i < j, for each pair of crystal particles
      (numbered by position in xpars) that are neighbours. Vertices that
      come after the last edge's ends are not in the graph. */
  method GetXGraph(ps: seq<Particle>, xpars: seq<int>, b: Box) returns (g: Graph)
    requires XParsValid(ps, xpars)
    ensures g == XGraph(ps, b, xpars)
    ensures ValidGraph(g)
    ensures forall i, j :: (i, j) in g.edges <==> 0 <= i < j < |xpars| && XLinked(ps, b, xpars, i, j)
  {
    var edges: seq<(nat, nat)> := [];
    var rsq := 0.0;
    var i := 0;
    while i != |xpars|
      invariant 0 <= i <= |xpars|
      invariant edges + EdgesFrom(ps, b, xpars, i) == EdgesFrom(ps, b, xpars, 0)
    {
      edges, rsq := AddRow(ps, xpars, b, i, edges, rsq);
      i := i + 1;
    }
    assert edges == EdgesFrom(ps, b, xpars, 0);
    g := Graph(VertexCount(edges), edges);
    XGraphBound(ps, b, xpars);
    forall a: nat, c: nat
      ensures (a, c) in g.edges <==> 0 <= a < c < |xpars| && XLinked(ps, b, xpars, a, c)
    {
      EdgesFromMembers(ps, b, xpars, 0, a, c);
    }
  }
}
