/** The gyration tensor of a particle system's largest cluster: the cluster
    particles are copied out of the system, their periodic images are
    stitched together, and the tensor of the unwrapped set is formed. */
module GTensorShape {
  import opened Base
  import opened PeriodicBox
  import opened GyrationTensor

  /** Every entry of cnums is an index into allpars. */
  predicate IndexesParticles(allpars: seq<Particle>, cnums: seq<int>)
  {
    forall i :: 0 <= i < |cnums| ==> 0 <= cnums[i] < |allpars|
  }

  /** The cluster as getgytensor builds it: value-initialised particles that
      carry only the position of the indexed particle and the symbol 'S'. */
  function ClusterParticles(allpars: seq<Particle>, cnums: seq<int>): (r: seq<Particle>)
    requires IndexesParticles(allpars, cnums)
    ensures |r| == |cnums|
  {
    seq(|cnums|, i requires 0 <= i < |cnums| =>
      ZeroParticle.(pos := allpars[cnums[i]].pos, symbol := 'S'))
  }

  /** The copying loop of getgytensor. */
  method CopyCluster(allpars: seq<Particle>, cnums: seq<int>) returns (clusterpars: seq<Particle>)
    requires IndexesParticles(allpars, cnums)
    ensures |clusterpars| == |cnums|
    ensures forall i :: 0 <= i < |cnums| ==>
              clusterpars[i].pos == allpars[cnums[i]].pos && clusterpars[i].symbol == 'S'
              && clusterpars[i].vel == Origin && clusterpars[i].mass == 0.0 && clusterpars[i].ptype == 0
    ensures clusterpars == ClusterParticles(allpars, cnums)
  {
    var ncl := |cnums|;
    var cp := new Particle[ncl](_ => ZeroParticle);
    var i := 0;
    while i != ncl
      invariant 0 <= i <= ncl
      invariant forall k :: 0 <= k < i ==> cp[k] == ClusterParticles(allpars, cnums)[k]
      invariant forall k :: i <= k < ncl ==> cp[k] == ZeroParticle
    {
      var p := cp[i];
      p := p.(pos := p.pos.(x := allpars[cnums[i]].pos.x));
      p := p.(pos := p.pos.(y := allpars[cnums[i]].pos.y));
      p := p.(pos := p.pos.(z := allpars[cnums[i]].pos.z));
      p := p.(symbol := 'S');
      cp[i] := p;
      i := i + 1;
    }
    clusterpars := cp[..];
  }

  /** The value getgytensor computes: None when the unwrapping step would
      read past the largest replicated cluster, or when the cluster is empty
      and the mean is 0/0. */
  ghost function ShapeTensor(allpars: seq<Particle>, simbox: Box, cnums: seq<int>): Option<seq<seq<real>>>
    requires IndexesParticles(allpars, cnums)
  {
    match NoPeriodic(ClusterParticles(allpars, cnums), simbox)
    case None => None
    case Some(cparsnop) => Gyration(cparsnop)
  }

  /** getgytensor: copies the cluster, removes the periodic boundaries and
      forms the gyration tensor. */
  method GetGyTensor(allpars: seq<Particle>, simbox: Box, cnums: seq<int>) returns (gyt: Option<seq<seq<real>>>)
    requires IndexesParticles(allpars, cnums)
    ensures gyt == ShapeTensor(allpars, simbox, cnums)
  {
    var clusterpars := CopyCluster(allpars, cnums);
    var cparsnop := PosNoPeriodic(clusterpars, simbox);
    if cparsnop.None? {
      return None;
    }
    gyt := GyTensor(cparsnop.value);
  }

  /** When it is defined, the cluster tensor is symmetric, has a
      non-negative diagonal, and is formed over exactly |cnums| particles;
      an empty cluster has no tensor. */
  lemma ShapeTensorProperties(allpars: seq<Particle>, simbox: Box, cnums: seq<int>)
    requires IndexesParticles(allpars, cnums)
    ensures |cnums| == 0 ==> ShapeTensor(allpars, simbox, cnums).None?
    ensures ShapeTensor(allpars, simbox, cnums).Some? ==>
              NoPeriodic(ClusterParticles(allpars, cnums), simbox).Some?
              && |NoPeriodic(ClusterParticles(allpars, cnums), simbox).value| == |cnums|
    ensures ShapeTensor(allpars, simbox, cnums).Some? ==>
              var g := ShapeTensor(allpars, simbox, cnums).value;
              |g| == 3 && (forall j :: 0 <= j < 3 ==> |g[j]| == 3)
              && (forall j, k :: 0 <= j < 3 && 0 <= k < 3 ==> g[j][k] == g[k][j])
              && (forall j :: 0 <= j < 3 ==> g[j][j] >= 0.0)
  {
    var cp := ClusterParticles(allpars, cnums);
    var np := NoPeriodic(cp, simbox);
    if np.Some? && Gyration(np.value).Some? {
      GyrationSymmetric(np.value);
      GyrationDiagonal(np.value);
    }
  }

  /** The tensor object: the constructor stores getgytensor of the system's
      particles and the cluster indices. */
  class GTensor {
    var gtensor: Option<seq<seq<real>>>

    constructor(allpars: seq<Particle>, simbox: Box, cnums: seq<int>)
      requires IndexesParticles(allpars, cnums)
      ensures gtensor == ShapeTensor(allpars, simbox, cnums)
    {
      var g := GetGyTensor(allpars, simbox, cnums);
      gtensor := g;
    }
  }
}
