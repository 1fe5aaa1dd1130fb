/** The per-system store of Steinhardt bond-order data: the constructor runs
    the neighbour sums once and keeps the per-particle invariants, the
    crystal particles, the largest cluster and two Q values. */
module SteinhardtData {
  import opened Base
  import opened PeriodicBox
  import opened Utility
  import opened QlmFunctions
  import opened ConnComponents
  import opened OrderParameter

  /** The averaged rows qlmbars produces from the raw sums. */
  function BarRows(ps: seq<Particle>, b: Box, l: nat, an: Analytic): (M: seq<seq<Complex>>)
    ensures |M| == |ps|
  {
    BarMatrix(RawQlm(ps, b, an, l), NeighbourCounts(ps, b))
  }

  /** Q over every non-surface particle, crystal or not. */
  function GlobalQ(ps: seq<Particle>, b: Box, nsurf: nat, l: nat, an: Analytic): (q: Option<real>)
    requires nsurf <= |ps|
    ensures q.None? <==> nsurf == |ps|
  {
    var M := RawQlm(ps, b, an, l);
    assert ValidRows(M, Interval(nsurf, |ps|), l);
    QValue(M, Interval(nsurf, |ps|), l, an)
  }

  /** The opening of the QData constructor: qlms from zero counts and empty
      lists, then a normalised copy (qlmtildes) and an averaged copy
      (qlmbars) of the raw sums. */
  method NeighbourSums(allps: seq<Particle>, sbox: Box, lv: nat, an: Analytic)
    returns (qlm: array2<Complex>, qlmt: array2<Complex>, qlmb: array2<Complex>,
             numneigh: array<int>, lneigh: array<seq<int>>, nan: seq<bool>)
    ensures qlm.Length0 == |allps| && qlm.Length1 == 2 * lv + 1
    ensures qlmt.Length0 == |allps| && qlmt.Length1 == 2 * lv + 1
    ensures Matrix(qlm) == RawQlm(allps, sbox, an, lv)
    ensures Matrix(qlmt) == TildeRows(allps, sbox, lv, an)
    ensures nan == TildeNans(allps, sbox, lv, an)
    ensures Matrix(qlmb) == BarRows(allps, sbox, lv, an)
    ensures numneigh[..] == NeighbourCounts(allps, sbox)
    ensures lneigh[..] == NeighbourLists(allps, sbox)
  {
    var npar := |allps|;
    numneigh := new int[npar](_ => 0);
    lneigh := new seq<int>[npar](_ => []);
    qlm := Qlms(allps, sbox, numneigh, lneigh, lv, an);
    assert numneigh[..] == NeighbourCounts(allps, sbox);
    forall i | 0 <= i < npar ensures lneigh[i] == Neighbours(allps, sbox, i) {
      assert [] + Neighbours(allps, sbox, i) == Neighbours(allps, sbox, i);
    }
    assert lneigh[..] == NeighbourLists(allps, sbox);
    qlmt := CopyMatrix(qlm);
    nan := QlmTildes(qlmt, numneigh, lv, an);
    qlmb := CopyMatrix(qlm);
    QlmBars(qlmb, numneigh, lv);
  }

  /** The middle of the QData constructor: xtalpars on the normalised rows,
      getxgraph, largestcomponent and reindex. */
  method CrystalCluster(allps: seq<Particle>, sbox: Box, nsur: int, nlin: int, linval: real, lv: nat,
                        an: Analytic, qlmt: array2<Complex>, nan: seq<bool>, numneigh: array<int>,
                        lneigh: array<seq<int>>)
    returns (xtals: seq<int>, cn: seq<int>)
    requires 0 <= nsur <= |allps|
    requires qlmt.Length0 == |allps| && qlmt.Length1 == 2 * lv + 1
    requires Matrix(qlmt) == TildeRows(allps, sbox, lv, an) && nan == TildeNans(allps, sbox, lv, an)
    requires numneigh[..] == NeighbourCounts(allps, sbox) && lneigh[..] == NeighbourLists(allps, sbox)
    ensures xtals == CrystalParticles(allps, sbox, nsur, nlin, linval, lv, an)
    ensures cn == ClusterIndices(allps, sbox, nsur, nlin, linval, lv, an)
    ensures StrictlyAscending(cn) && forall x :: x in cn ==> x in xtals && nsur <= x < |allps|
  {
    NeighbourDataValid(allps, sbox, nsur, nlin);
    xtals := XtalPars(qlmt, nan, numneigh, lneigh, nsur, nlin, linval, lv);
    var xgraph := GetXGraph(allps, xtals, sbox);
    cn := ReindexedCluster(allps, sbox, xtals, xgraph);
    ClusterIsCrystal(allps, sbox, nsur, nlin, linval, lv, an);
  }

  /** The QData constructor's computation, from the neighbour sums to the
      two Q values. */
  method Analyse(allps: seq<Particle>, sbox: Box, nsur: int, nlin: int, linval: real, lv: nat, an: Analytic)
    returns (ql: seq<real>, wl: seq<real>, qlbar: seq<real>, wlbar: seq<real>,
             xtals: seq<int>, cn: seq<int>, qcluster: Option<real>, qglobal: Option<real>)
    requires 0 <= nsur <= |allps|
    ensures ql == an.qls(RawQlm(allps, sbox, an, lv)) && wl == an.wls(RawQlm(allps, sbox, an, lv))
    ensures qlbar == an.qls(BarRows(allps, sbox, lv, an)) && wlbar == an.wls(BarRows(allps, sbox, lv, an))
    ensures xtals == CrystalParticles(allps, sbox, nsur, nlin, linval, lv, an)
    ensures cn == ClusterIndices(allps, sbox, nsur, nlin, linval, lv, an)
    ensures StrictlyAscending(cn) && forall x :: x in cn ==> x in xtals && nsur <= x < |allps|
    ensures qcluster == QClusterValue(allps, sbox, nsur, nlin, linval, lv, an)
    ensures qglobal == GlobalQ(allps, sbox, nsur, lv, an)
  {
    var npar := |allps|;
    var qlm, qlmt, qlmb, numneigh, lneigh, nan := NeighbourSums(allps, sbox, lv, an);
    ql := an.qls(Matrix(qlm));
    wl := an.wls(Matrix(qlm));
    qlbar := an.qls(Matrix(qlmb));
    wlbar := an.wls(Matrix(qlmb));
    xtals, cn := CrystalCluster(allps, sbox, nsur, nlin, linval, lv, an, qlmt, nan, numneigh, lneigh);
    qcluster := Qpars(qlm, cn, lv, an);
    var pnums := Range(nsur, npar);
    qglobal := Qpars(qlm, pnums, lv, an);
  }

  class QData {
    const allpars: seq<Particle>
    const simbox: Box
    const nsurf: int
    const nlinks: int
    const linkval: real
    const lval: nat

    var ql: seq<real>
    var qlbar: seq<real>
    var wl: seq<real>
    var wlbar: seq<real>

    var xps: seq<int>
    var cnums: seq<int>
    var qcluster: Option<real>
    var qglobal: Option<real>

    /** The surface particles lead the system; the cluster indices are
        absolute particle indices, ascending, each a crystal particle and
        none a surface particle. */
    ghost predicate Valid()
      reads this
    {
      0 <= nsurf <= |allpars|
      && StrictlyAscending(cnums)
      && (forall x :: x in cnums ==> x in xps && nsurf <= x < |allpars|)
    }

    constructor(allps: seq<Particle>, sbox: Box, nsur: int, nlin: int, linval: real, lv: nat, an: Analytic)
      requires 0 <= nsur <= |allps|
      ensures allpars == allps && simbox == sbox && nsurf == nsur
      ensures nlinks == nlin && linkval == linval && lval == lv
      ensures ql == an.qls(RawQlm(allps, sbox, an, lv)) && wl == an.wls(RawQlm(allps, sbox, an, lv))
      ensures qlbar == an.qls(BarRows(allps, sbox, lv, an)) && wlbar == an.wls(BarRows(allps, sbox, lv, an))
      ensures xps == CrystalParticles(allps, sbox, nsur, nlin, linval, lv, an)
      ensures cnums == ClusterIndices(allps, sbox, nsur, nlin, linval, lv, an)
      ensures qcluster == QClusterValue(allps, sbox, nsur, nlin, linval, lv, an)
      ensures qglobal == GlobalQ(allps, sbox, nsur, lv, an)
      ensures Valid()
    {
      allpars := allps;
      simbox := sbox;
      nsurf := nsur;
      nlinks := nlin;
      linkval := linval;
      lval := lv;
      var q, w, qb, wb, xtals, cn, qc, qg := Analyse(allps, sbox, nsur, nlin, linval, lv, an);
      ql, wl, qlbar, wlbar := q, w, qb, wb;
      xps, cnums := xtals, cn;
      qcluster, qglobal := qc, qg;
    }

    /** getNCluster: the number of particles in the largest cluster. */
    method GetNCluster() returns (n: int)
      requires Valid()
      ensures Valid()
      ensures n == |cnums|
      ensures 0 <= n <= |allpars| - nsurf
    {
      n := |cnums|;
      AscendingWithin(cnums, nsurf, |allpars|);
    }

    /** getQCluster: the stored Q of the largest cluster. */
    method GetQCluster() returns (q: Option<real>)
      requires Valid()
      ensures Valid()
      ensures q == qcluster
    {
      q := qcluster;
    }

    /** getQGlobal: the stored Q of the non-surface particles. */
    method GetQGlobal() returns (q: Option<real>)
      requires Valid()
      ensures Valid()
      ensures q == qglobal
    {
      q := qglobal;
    }
  }

  /** The store and the order parameters agree: the cluster size it reports
      is what NCluster computes (when the cluster is not empty) and its
      cluster Q is what QCluster computes, for the same parameters. */
  lemma StoreMatchesOrderParameters(allps: seq<Particle>, sbox: Box, nsur: int, nlin: int, linval: real,
                                    lv: nat, an: Analytic)
    ensures var cl := ClusterIndices(allps, sbox, nsur, nlin, linval, lv, an);
            NClusterValue(allps, sbox, nsur, nlin, linval, lv, an) == if cl == [] then None else Some(|cl|)
    ensures (QClusterValue(allps, sbox, nsur, nlin, linval, lv, an).None?
             <==> ClusterIndices(allps, sbox, nsur, nlin, linval, lv, an) == [])
  {
    NClusterIsClusterSize(allps, sbox, nsur, nlin, linval, lv, an);
  }
}
