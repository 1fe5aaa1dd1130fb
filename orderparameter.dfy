/** The cluster order parameters: each evaluation computes the neighbour
    sums of every particle, normalises them, picks the crystal particles,
    joins neighbouring crystal particles into a graph and reports on the
    largest connected cluster — its size, its Q value, or its gyration
    tensor. */
module OrderParameter {
  import opened Base
  import opened PeriodicBox
  import opened Utility
  import opened QlmFunctions
  import opened ConnComponents
  import opened GyrationTensor
  import opened GTensorShape

  // ---------------------------------------------------------------------
  // The parameter objects

  /** The three order parameters and the four numbers each is built from:
      the count of surface particles (never crystal), the least number of
      crystal links, the least link value, and the harmonic order l. */
  datatype OrderParam =
    | NCluster(nsurf: int, nlinks: int, linkval: real, lval: nat)
    | QCluster(nsurf: int, nlinks: int, linkval: real, lval: nat)
    | GTensor(nsurf: int, nlinks: int, linkval: real, lval: nat)

  /** QGlobal(nsur, lv): a QCluster that asks for no links at all. */
  function QGlobal(nsur: int, lv: nat): (op: OrderParam)
    ensures op.QCluster? && op.nsurf == nsur && op.lval == lv
    ensures op.nlinks == 0 && op.linkval == 0.0
  {
    QCluster(nsur, 0, 0.0, lv)
  }

  // ---------------------------------------------------------------------
  // What one evaluation computes

  /** The neighbour count of every particle, as qlms leaves it when started
      from zero. */
  function NeighbourCounts(ps: seq<Particle>, b: Box): (r: seq<int>)
    ensures |r| == |ps|
  {
    seq(|ps|, i requires 0 <= i < |ps| => |Neighbours(ps, b, i)|)
  }

  /** The neighbour list of every particle, as qlms leaves it when started
      from empty lists. */
  function NeighbourLists(ps: seq<Particle>, b: Box): (r: seq<seq<int>>)
    ensures |r| == |ps|
  {
    seq(|ps|, i requires 0 <= i < |ps| => Neighbours(ps, b, i))
  }

  /** The neighbour data qlms builds is what xtalpars needs, whatever the
      surface count and link threshold. */
  lemma NeighbourDataValid(ps: seq<Particle>, b: Box, nsurf: int, nlinks: int)
    ensures LinkData(NeighbourCounts(ps, b), NeighbourLists(ps, b), |ps|, nsurf, nlinks)
    ensures forall i :: 0 <= i < |ps| ==> NeighbourCounts(ps, b)[i] >= 0
  {
    var nb, ln := NeighbourCounts(ps, b), NeighbourLists(ps, b);
    forall i | 0 <= i < |ps|
      ensures nb[i] == |ln[i]|
      ensures forall j :: 0 <= j < nb[i] ==> 0 <= ln[i][j] < |ps|
    {
      assert ln[i] == NeighboursUpTo(ps, b, i, |ps|);
    }
  }

  /** Every row of the normalised matrix keeps its 2l+1 entries. */
  lemma TildeShape(M: seq<seq<Complex>>, nb: seq<int>, an: Analytic, l: nat)
    requires Shape(M, l) && |nb| >= |M|
    ensures Shape(TildeMatrix(M, nb, an), l)
  {
    forall i | 0 <= i < |M| ensures |TildeMatrix(M, nb, an)[i]| == 2 * l + 1 {
      if nb[i] >= 1 && an.sqrt(NormSq(M[i])) != 0.0 {
        assert |Scaled(M[i], an.sqrt(NormSq(M[i])))| == |M[i]|;
      }
    }
  }

  /** The normalised rows qlmtildes produces. */
  function TildeRows(ps: seq<Particle>, b: Box, l: nat, an: Analytic): (M: seq<seq<Complex>>)
    ensures |M| == |ps| && Shape(M, l)
  {
    TildeShape(RawQlm(ps, b, an, l), NeighbourCounts(ps, b), an, l);
    TildeMatrix(RawQlm(ps, b, an, l), NeighbourCounts(ps, b), an)
  }

  /** The rows qlmtildes leaves NaN: particles with neighbours whose raw row
      has zero norm. */
  function TildeNans(ps: seq<Particle>, b: Box, l: nat, an: Analytic): (nan: seq<bool>)
    ensures |nan| == |ps|
  {
    NanRows(RawQlm(ps, b, an, l), NeighbourCounts(ps, b), an)
  }

  /** The crystal particles xtalpars selects from the normalised rows. */
  function CrystalParticles(ps: seq<Particle>, b: Box, nsurf: int, nlinks: int, linkval: real,
                            l: nat, an: Analytic): (xps: seq<int>)
    ensures XParsValid(ps, xps)
  {
    NeighbourDataValid(ps, b, nsurf, nlinks);
    var M := TildeRows(ps, b, l, an);
    var r := Crystals(M, TildeNans(ps, b, l, an), NeighbourCounts(ps, b), NeighbourLists(ps, b), nsurf, nlinks, linkval, l);
    assert forall k :: 0 <= k < |r| ==> 0 <= r[k] < |ps| by {
      if nsurf < 0 {
        forall k | 0 <= k < |r| ensures 0 <= r[k] < |ps| { assert r[k] in r; }
      }
    }
    r
  }

  /** The graph of neighbouring crystal particles; vertex v stands for
      particle xps[v]. */
  ghost function CrystalGraph(ps: seq<Particle>, b: Box, nsurf: int, nlinks: int, linkval: real,
                              l: nat, an: Analytic): Graph
  {
    XGraph(ps, b, CrystalParticles(ps, b, nsurf, nlinks, linkval, l, an))
  }

  /** The largest cluster as absolute particle indices, ascending. */
  ghost function ClusterIndices(ps: seq<Particle>, b: Box, nsurf: int, nlinks: int, linkval: real,
                                l: nat, an: Analytic): (r: seq<int>)
    ensures IndexesParticles(ps, r)
  {
    var xps := CrystalParticles(ps, b, nsurf, nlinks, linkval, l, an);
    var g := XGraph(ps, b, xps);
    LargestIndexesCrystals(ps, b, xps);
    Reindexed(Largest(g), xps)
  }

  /** The vertices of the largest component are positions in xps. */
  lemma LargestIndexesCrystals(ps: seq<Particle>, b: Box, xps: seq<int>)
    requires XParsValid(ps, xps)
    ensures IndexesInto(Largest(XGraph(ps, b, xps)), xps)
    ensures StrictlyAscending(Largest(XGraph(ps, b, xps)))
  {
    var g := XGraph(ps, b, xps);
    XGraphBound(ps, b, xps);
    var cl := Largest(g);
    forall i | 0 <= i < |cl| ensures 0 <= cl[i] < |xps| {
      assert cl[i] in cl;
    }
  }

  /** The largest cluster holds crystal particles only, in ascending order,
      each at least nsurf, and it has as many particles as the largest
      component of the crystal graph has vertices. */
  lemma ClusterIsCrystal(ps: seq<Particle>, b: Box, nsurf: int, nlinks: int, linkval: real,
                         l: nat, an: Analytic)
    ensures StrictlyAscending(ClusterIndices(ps, b, nsurf, nlinks, linkval, l, an))
    ensures forall x :: x in ClusterIndices(ps, b, nsurf, nlinks, linkval, l, an) ==>
              x in CrystalParticles(ps, b, nsurf, nlinks, linkval, l, an) && nsurf <= x < |ps|
    ensures |ClusterIndices(ps, b, nsurf, nlinks, linkval, l, an)|
              == |Largest(CrystalGraph(ps, b, nsurf, nlinks, linkval, l, an))|
  {
    var xps := CrystalParticles(ps, b, nsurf, nlinks, linkval, l, an);
    NeighbourDataValid(ps, b, nsurf, nlinks);
    LargestIndexesCrystals(ps, b, xps);
    ReindexAscending(Largest(XGraph(ps, b, xps)), xps);
    forall x | x in xps ensures nsurf <= x < |ps| {
      var k :| 0 <= k < |xps| && xps[k] == x;
    }
  }

  /** The value NCluster returns: the size of the largest cluster; None for
      an empty crystal graph, where bopxbulk reads an empty range. */
  ghost function NClusterValue(ps: seq<Particle>, b: Box, nsurf: int, nlinks: int, linkval: real,
                               l: nat, an: Analytic): Option<int>
  {
    var g := CrystalGraph(ps, b, nsurf, nlinks, linkval, l, an);
    if g.nv == 0 then None else Some(|Largest(g)|)
  }

  /** NCluster and QCluster agree: the size NCluster reports is the number of
      particles whose Q QCluster averages, and it is missing exactly when that
      set is empty. */
  lemma NClusterIsClusterSize(ps: seq<Particle>, b: Box, nsurf: int, nlinks: int, linkval: real,
                              l: nat, an: Analytic)
    ensures NClusterValue(ps, b, nsurf, nlinks, linkval, l, an)
              == if ClusterIndices(ps, b, nsurf, nlinks, linkval, l, an) == [] then None
                 else Some(|ClusterIndices(ps, b, nsurf, nlinks, linkval, l, an)|)
  {
    var xps := CrystalParticles(ps, b, nsurf, nlinks, linkval, l, an);
    var g := XGraph(ps, b, xps);
    XGraphBound(ps, b, xps);
    LargestIsLargest(g);
    ClusterIsCrystal(ps, b, nsurf, nlinks, linkval, l, an);
  }

  /** The value QCluster returns: Q over the raw rows of the largest
      cluster; None (0/0) when the cluster is empty. */
  ghost function QClusterValue(ps: seq<Particle>, b: Box, nsurf: int, nlinks: int, linkval: real,
                               l: nat, an: Analytic): Option<real>
  {
    var cl := ClusterIndices(ps, b, nsurf, nlinks, linkval, l, an);
    QValue(RawQlm(ps, b, an, l), cl, l, an)
  }

  /** With no links required, every non-surface particle is crystal: the
      QGlobal order parameter is Q of the largest neighbour-connected group
      of non-surface particles, not of all of them. */
  lemma QGlobalSelectsAll(ps: seq<Particle>, b: Box, nsurf: nat, l: nat, an: Analytic)
    requires nsurf <= |ps|
    ensures CrystalParticles(ps, b, QGlobal(nsurf, l).nsurf, QGlobal(nsurf, l).nlinks,
                             QGlobal(nsurf, l).linkval, l, an) == Interval(nsurf, |ps|)
    ensures CrystalGraph(ps, b, nsurf, 0, 0.0, l, an) == XGraph(ps, b, Interval(nsurf, |ps|))
  {
    NeighbourDataValid(ps, b, nsurf, 0);
    NoLinksAllCrystal(TildeRows(ps, b, l, an), TildeNans(ps, b, l, an), NeighbourCounts(ps, b), NeighbourLists(ps, b),
                      nsurf, 0.0, l, |ps|);
  }

  // ---------------------------------------------------------------------
  // The evaluations

  /** A fresh copy of a matrix. */
  method CopyMatrix(m: array2<Complex>) returns (c: array2<Complex>)
    ensures fresh(c)
    ensures c.Length0 == m.Length0 && c.Length1 == m.Length1
    ensures Matrix(c) == Matrix(m)
  {
    c := new Complex[m.Length0, m.Length1];
    var i := 0;
    while i != m.Length0
      invariant 0 <= i <= m.Length0
      invariant forall i', k :: 0 <= i' < i && 0 <= k < m.Length1 ==> c[i', k] == m[i', k]
    {
      var k := 0;
      while k != m.Length1
        invariant 0 <= k <= m.Length1
        invariant forall i', k' :: 0 <= i' < i && 0 <= k' < m.Length1 ==> c[i', k'] == m[i', k']
        invariant forall k' :: 0 <= k' < k ==> c[i, k'] == m[i, k']
      {
        c[i, k] := m[i, k];
        k := k + 1;
      }
      i := i + 1;
    }
    MatrixFromEntries(c, Matrix(m));
  }

  /** The opening every evaluation shares: zero neighbour counts and empty
      lists, qlms, the normalised copy, xtalpars and getxgraph. The raw
      matrix is returned unchanged for the Q value. */
  method CrystalStage(particles: seq<Particle>, simbox: Box, nsurf: int, nlinks: int, linkval: real,
                      lval: nat, an: Analytic)
    returns (qlmb: array2<Complex>, xps: seq<int>, xgraph: Graph)
    requires 0 <= nsurf <= |particles|
    ensures fresh(qlmb) && qlmb.Length0 == |particles| && qlmb.Length1 == 2 * lval + 1
    ensures Matrix(qlmb) == RawQlm(particles, simbox, an, lval)
    ensures xps == CrystalParticles(particles, simbox, nsurf, nlinks, linkval, lval, an)
    ensures xgraph == XGraph(particles, simbox, xps)
    ensures ValidGraph(xgraph)
  {
    var npar := |particles|;
    var numneigh := new int[npar](_ => 0);
    var lneigh := new seq<int>[npar](_ => []);
    qlmb := Qlms(particles, simbox, numneigh, lneigh, lval, an);
    assert numneigh[..] == NeighbourCounts(particles, simbox);
    forall i | 0 <= i < npar ensures lneigh[i] == Neighbours(particles, simbox, i) {
      assert [] + Neighbours(particles, simbox, i) == Neighbours(particles, simbox, i);
    }
    assert lneigh[..] == NeighbourLists(particles, simbox);
    var qlmt := CopyMatrix(qlmb);
    var nan := QlmTildes(qlmt, numneigh, lval, an);
    assert Matrix(qlmt) == TildeRows(particles, simbox, lval, an);
    NeighbourDataValid(particles, simbox, nsurf, nlinks);
    xps := XtalPars(qlmt, nan, numneigh, lneigh, nsurf, nlinks, linkval, lval);
    xgraph := GetXGraph(particles, xps, simbox);
  }

  /** The largest component of the crystal graph, mapped by reindex from
      graph vertices to particle indices. */
  method ReindexedCluster(particles: seq<Particle>, simbox: Box, xps: seq<int>, xgraph: Graph)
    returns (clusternums: seq<int>)
    requires XParsValid(particles, xps) && xgraph == XGraph(particles, simbox, xps)
    ensures IndexesInto(Largest(xgraph), xps)
    ensures clusternums == Reindexed(Largest(xgraph), xps)
  {
    XGraphBound(particles, simbox, xps);
    var cl := LargestComponent(xgraph);
    LargestIndexesCrystals(particles, simbox, xps);
    var carr := new int[|cl|](i requires 0 <= i < |cl| => cl[i]);
    assert carr[..] == cl;
    Reindex(carr, xps);
    clusternums := carr[..];
  }

  /** NCluster::operator(): the size of the largest crystal cluster. */
  method EvalNCluster(op: OrderParam, particles: seq<Particle>, simbox: Box, an: Analytic)
    returns (r: Option<int>)
    requires 0 <= op.nsurf <= |particles|
    ensures r == NClusterValue(particles, simbox, op.nsurf, op.nlinks, op.linkval, op.lval, an)
  {
    var qlmb, xps, xgraph := CrystalStage(particles, simbox, op.nsurf, op.nlinks, op.linkval, op.lval, an);
    r := BopXBulk(xgraph);
  }

  /** QCluster::operator(): Q of the largest crystal cluster, averaged over
      the raw (unnormalised) rows of its particles. */
  method EvalQCluster(op: OrderParam, particles: seq<Particle>, simbox: Box, an: Analytic)
    returns (r: Option<real>)
    requires 0 <= op.nsurf <= |particles|
    ensures r == QClusterValue(particles, simbox, op.nsurf, op.nlinks, op.linkval, op.lval, an)
    ensures r.None? <==> ClusterIndices(particles, simbox, op.nsurf, op.nlinks, op.linkval, op.lval, an) == []
  {
    var qlmb, xps, xgraph := CrystalStage(particles, simbox, op.nsurf, op.nlinks, op.linkval, op.lval, an);
    var clusternums := ReindexedCluster(particles, simbox, xps, xgraph);
    assert clusternums == ClusterIndices(particles, simbox, op.nsurf, op.nlinks, op.linkval, op.lval, an);
    r := Qpars(qlmb, clusternums, op.lval, an);
  }

  /** The copying loop of GTensor::operator(): clusterpars[i] carries the
      position of particles[xps[clusternums[i]]] and the symbol 'S'. */
  method CopyCrystalCluster(particles: seq<Particle>, xps: seq<int>, clusternums: seq<int>)
    returns (clusterpars: seq<Particle>)
    requires XParsValid(particles, xps) && IndexesInto(clusternums, xps)
    ensures IndexesParticles(particles, Reindexed(clusternums, xps))
    ensures clusterpars == ClusterParticles(particles, Reindexed(clusternums, xps))
  {
    ghost var cl := Reindexed(clusternums, xps);
    assert IndexesParticles(particles, cl);
    var ncl := |clusternums|;
    var cp := new Particle[ncl](_ => ZeroParticle);
    var i := 0;
    while i != ncl
      invariant 0 <= i <= ncl
      invariant forall k :: 0 <= k < i ==> cp[k] == ClusterParticles(particles, cl)[k]
      invariant forall k :: i <= k < ncl ==> cp[k] == ZeroParticle
    {
      var src := particles[xps[clusternums[i]]];
      var p := cp[i];
      p := p.(pos := p.pos.(x := src.pos.x));
      p := p.(pos := p.pos.(y := src.pos.y));
      p := p.(pos := p.pos.(z := src.pos.z));
      p := p.(symbol := 'S');
      cp[i] := p;
      i := i + 1;
    }
    clusterpars := cp[..];
  }

  /** The tensor GTensor::operator() forms before diagonalising it. */
  ghost function GTensorValue(ps: seq<Particle>, b: Box, nsurf: int, nlinks: int, linkval: real,
                              l: nat, an: Analytic): Option<seq<seq<real>>>
  {
    var cl := ClusterIndices(ps, b, nsurf, nlinks, linkval, l, an);
    ShapeTensor(ps, b, cl)
  }

  /** GTensor::operator() up to the gyration tensor: copies the positions of
      particles[xps[clusternums[i]]], unwraps them and forms the tensor. */
  method EvalGTensor(op: OrderParam, particles: seq<Particle>, simbox: Box, an: Analytic)
    returns (gyt: Option<seq<seq<real>>>)
    requires 0 <= op.nsurf <= |particles|
    ensures gyt == GTensorValue(particles, simbox, op.nsurf, op.nlinks, op.linkval, op.lval, an)
  {
    var qlmb, xps, xgraph := CrystalStage(particles, simbox, op.nsurf, op.nlinks, op.linkval, op.lval, an);
    var clusternums := LargestComponent(xgraph);
    LargestIndexesCrystals(particles, simbox, xps);
    var clusterpars := CopyCrystalCluster(particles, xps, clusternums);
    assert Reindexed(clusternums, xps) == ClusterIndices(particles, simbox, op.nsurf, op.nlinks, op.linkval, op.lval, an);
    var newclusterpars := PosNoPeriodic(clusterpars, simbox);
    if newclusterpars.None? {
      return None;
    }
    gyt := GyTensor(newclusterpars.value);
  }
}
