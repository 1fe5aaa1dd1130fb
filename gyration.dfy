/** Shape of a cluster: the nine periodic images of a set of particles, the
    removal of periodic boundaries by taking the largest cluster in an
    enlarged box, the centre of mass and the gyration tensor. */
module GyrationTensor {
  import opened Base
  import opened PeriodicBox
  import opened Utility
  import opened ConnComponents

  // ---------------------------------------------------------------------
  // Block layout of the replicated set: copy j of particle i sits at
  // i + j * n.

  function Slot(n: nat, i: nat, j: nat): nat { i + j * n }

  /** The particle index of position k (k mod n). */
  function Col(n: nat, k: nat): nat
    requires n > 0
    decreases k
  {
    if k < n then k else Col(n, k - n)
  }

  /** The copy number of position k (k div n). */
  function Row(n: nat, k: nat): nat
    requires n > 0
    decreases k
  {
    if k < n then 0 else Row(n, k - n) + 1
  }

  lemma {:induction false} ColRowOfSlot(n: nat, i: nat, j: nat)
    requires i < n
    ensures Col(n, Slot(n, i, j)) == i && Row(n, Slot(n, i, j)) == j
    decreases j
  {
    if j > 0 {
      assert Slot(n, i, j) == Slot(n, i, j - 1) + n;
      ColRowOfSlot(n, i, j - 1);
    }
  }

  lemma {:induction false} SlotOfColRow(n: nat, k: nat, m: nat)
    requires n > 0 && k < m * n
    ensures Col(n, k) < n && Row(n, k) < m && Slot(n, Col(n, k), Row(n, k)) == k
    decreases k
  {
    if k >= n {
      assert k - n < (m - 1) * n;
      SlotOfColRow(n, k - n, m - 1);
    }
  }

  /** The x and y shifts, in box lengths, of the nine copies: in place, top,
      top right, right, bottom right, bottom, bottom left, left, top left. */
  function OffsetX(j: nat): int
    requires j < 9
  {
    [0, 0, 1, 1, 1, 0, -1, -1, -1][j]
  }

  function OffsetY(j: nat): int
    requires j < 9
  {
    [0, 1, 1, 0, -1, -1, -1, 0, 1][j]
  }

  /** Copy j of particle p: moved by the j-th offset in x and y; z and every
      other field kept. */
  function ImageOf(p: Particle, j: nat, b: Box): Particle
    requires j < 9
  {
    p.(pos := Vec3(p.pos.x + OffsetX(j) as real * b.lboxx,
                   p.pos.y + OffsetY(j) as real * b.lboxy,
                   p.pos.z))
  }

  /** The replicated set, position by position. */
  function Replicated(pars: seq<Particle>, b: Box): (r: seq<Particle>)
    ensures |r| == 9 * |pars|
  {
    var n := |pars|;
    seq(9 * n, k requires 0 <= k < 9 * n =>
      SlotOfColRow(n, k, 9);
      ImageOf(pars[Col(n, k)], Row(n, k), b))
  }

  lemma {:induction false} SlotBelow(n: nat, i: nat, j: nat, m: nat)
    requires i < n && j < m
    ensures Slot(n, i, j) < m * n
    decreases m
  {
    if j < m - 1 {
      SlotBelow(n, i, j, m - 1);
    }
    assert m * n == (m - 1) * n + n;
  }

  /** Copy j of particle i of the replicated set is ImageOf(pars[i], j). */
  lemma ReplicatedAt(pars: seq<Particle>, b: Box, i: nat, j: nat)
    requires i < |pars| && j < 9
    ensures Slot(|pars|, i, j) < 9 * |pars|
    ensures Replicated(pars, b)[Slot(|pars|, i, j)] == ImageOf(pars[i], j, b)
  {
    ColRowOfSlot(|pars|, i, j);
    SlotBelow(|pars|, i, j, 9);
  }

  /** The first block of the replicated set is the input itself. */
  lemma ReplicatedCentre(pars: seq<Particle>, b: Box)
    ensures Replicated(pars, b)[..|pars|] == pars
  {
    forall i | 0 <= i < |pars|
      ensures Replicated(pars, b)[i] == pars[i]
    {
      ReplicatedAt(pars, b, i, 0);
    }
  }

  function MoveX(p: Particle, d: real): Particle { p.(pos := p.pos.(x := p.pos.x + d)) }

  function MoveY(p: Particle, d: real): Particle { p.(pos := p.pos.(y := p.pos.y + d)) }

  /** The nine positions the copies of particle i occupy. */
  function Slots(n: nat, i: nat): seq<nat>
  {
    seq(9, j requires 0 <= j < 9 => Slot(n, i, j))
  }

  /** The nine copies of pars[i], each with its offset, written as the loop
      body of replicate writes them. */
  method PlaceCopies(newpars: array<Particle>, pars: seq<Particle>, b: Box, i: nat)
    requires newpars.Length == 9 * |pars| && i < |pars|
    modifies newpars
    ensures forall j :: 0 <= j < 9 ==> newpars[Slot(|pars|, i, j)] == ImageOf(pars[i], j, b)
    ensures forall k :: 0 <= k < newpars.Length && k !in Slots(|pars|, i) ==> newpars[k] == old(newpars[k])
  {
    var n := |pars|;
    var s := Slots(n, i);
    forall j | 0 <= j < 9
      ensures s[j] < newpars.Length && Row(n, s[j]) == j
    {
      ColRowOfSlot(n, i, j);
      SlotBelow(n, i, j, 9);
    }
    var j := 0;
    while j != 9
      invariant 0 <= j <= 9
      invariant forall j' :: 0 <= j' < j ==> newpars[s[j']] == pars[i]
      invariant forall k :: 0 <= k < newpars.Length && k !in s ==> newpars[k] == old(newpars[k])
    {
      newpars[s[j]] := pars[i];
      j := j + 1;
    }
    ShiftCopies(newpars, s, pars[i], b);
  }

  /** The offsets the loop body of replicate adds to the nine copies of p
      that sit at the positions s. */
  method ShiftCopies(newpars: array<Particle>, s: seq<nat>, p: Particle, b: Box)
    requires |s| == 9
    requires forall j :: 0 <= j < 9 ==> s[j] < newpars.Length && newpars[s[j]] == p
    requires forall j, j' :: 0 <= j < j' < 9 ==> s[j] != s[j']
    modifies newpars
    ensures forall j :: 0 <= j < 9 ==> newpars[s[j]] == ImageOf(p, j, b)
    ensures forall k :: 0 <= k < newpars.Length && k !in s ==> newpars[k] == old(newpars[k])
  {
    assert newpars[s[0]] == ImageOf(p, 0, b);
    ShiftRightCopies(newpars, s, p, b);
    ShiftLeftCopies(newpars, s, p, b);
    forall j | 0 <= j < 9
      ensures newpars[s[j]] == ImageOf(p, j, b)
    {
      if j == 0 { assert newpars[s[0]] == ImageOf(p, 0, b); }
    }
  }

  /** Copies 1 to 4: top, top right, right, bottom right. */
  method ShiftRightCopies(newpars: array<Particle>, s: seq<nat>, p: Particle, b: Box)
    requires |s| == 9
    requires forall j :: 0 <= j < 9 ==> s[j] < newpars.Length
    requires forall j :: 1 <= j <= 4 ==> newpars[s[j]] == p
    requires forall j, j' :: 0 <= j < j' < 9 ==> s[j] != s[j']
    modifies newpars
    ensures forall j :: 1 <= j <= 4 ==> newpars[s[j]] == ImageOf(p, j, b)
    ensures forall k :: 0 <= k < newpars.Length && k !in s[1..5] ==> newpars[k] == old(newpars[k])
  {
    // top
    newpars[s[1]] := MoveY(newpars[s[1]], b.lboxy);
    // top right
    newpars[s[2]] := MoveX(newpars[s[2]], b.lboxx);
    newpars[s[2]] := MoveY(newpars[s[2]], b.lboxy);
    // right
    newpars[s[3]] := MoveX(newpars[s[3]], b.lboxx);
    // bottom right
    newpars[s[4]] := MoveX(newpars[s[4]], b.lboxx);
    newpars[s[4]] := MoveY(newpars[s[4]], -b.lboxy);
    assert newpars[s[1]] == ImageOf(p, 1, b);
    assert newpars[s[2]] == ImageOf(p, 2, b);
    assert newpars[s[3]] == ImageOf(p, 3, b);
    assert newpars[s[4]] == ImageOf(p, 4, b);
  }

  /** Copies 5 to 8: bottom, bottom left, left, top left. */
  method ShiftLeftCopies(newpars: array<Particle>, s: seq<nat>, p: Particle, b: Box)
    requires |s| == 9
    requires forall j :: 0 <= j < 9 ==> s[j] < newpars.Length
    requires forall j :: 5 <= j <= 8 ==> newpars[s[j]] == p
    requires forall j, j' :: 0 <= j < j' < 9 ==> s[j] != s[j']
    modifies newpars
    ensures forall j :: 5 <= j <= 8 ==> newpars[s[j]] == ImageOf(p, j, b)
    ensures forall k :: 0 <= k < newpars.Length && k !in s[5..] ==> newpars[k] == old(newpars[k])
  {
    // bottom
    newpars[s[5]] := MoveY(newpars[s[5]], -b.lboxy);
    // bottom left
    newpars[s[6]] := MoveX(newpars[s[6]], -b.lboxx);
    newpars[s[6]] := MoveY(newpars[s[6]], -b.lboxy);
    // left
    newpars[s[7]] := MoveX(newpars[s[7]], -b.lboxx);
    // top left
    newpars[s[8]] := MoveX(newpars[s[8]], -b.lboxx);
    newpars[s[8]] := MoveY(newpars[s[8]], b.lboxy);
    assert newpars[s[5]] == ImageOf(p, 5, b);
    assert newpars[s[6]] == ImageOf(p, 6, b);
    assert newpars[s[7]] == ImageOf(p, 7, b);
    assert newpars[s[8]] == ImageOf(p, 8, b);
  }

  /** replicate: 9 * n particles; copy j of pars[i] at i + j * n. */
  method Replicate(pars: seq<Particle>, b: Box) returns (newpars: seq<Particle>)
    ensures newpars == Replicated(pars, b)
  {
    var n := |pars|;
    var a := new Particle[9 * n](k => ZeroParticle);
    var i := 0;
    while i != n
      invariant 0 <= i <= n
      invariant forall k :: 0 <= k < a.Length && Col(n, k) < i ==> a[k] == Replicated(pars, b)[k]
    {
      PlaceCopies(a, pars, b, i);
      forall k | 0 <= k < a.Length && Col(n, k) <= i
        ensures a[k] == Replicated(pars, b)[k]
      {
        SlotOfColRow(n, k, 9);
        if Col(n, k) == i {
          assert k == Slot(n, i, Row(n, k));
        } else {
          forall j | 0 <= j < 9
            ensures k != Slots(n, i)[j]
          {
            ColRowOfSlot(n, i, j);
          }
        }
      }
      i := i + 1;
    }
    newpars := a[..];
    forall k | 0 <= k < 9 * n
      ensures newpars[k] == Replicated(pars, b)[k]
    {
      SlotOfColRow(n, k, 9);
    }
  }

  // ---------------------------------------------------------------------
  // Removing periodic boundaries.

  /** The box with x and y lengths twenty times larger; the z length, the
      neighbour distance and the z periodicity are kept. */
  function BigBox(b: Box): (r: Box)
  {
    b.(lboxx := b.lboxx * 20.0, lboxy := b.lboxy * 20.0)
  }

  /** The crystal graph of the replicated set in the enlarged box, every
      replicated particle being a crystal particle. */
  ghost function ReplicaGraph(cpars: seq<Particle>, b: Box): Graph
  {
    var rep := Replicated(cpars, b);
    XGraph(rep, BigBox(b), Interval(0, |rep|))
  }

  /** The first |cpars| members of the largest cluster of the replicated set,
      or None when that cluster is smaller than cpars and the source reads
      past its end. */
  ghost function NoPeriodic(cpars: seq<Particle>, b: Box): (r: Option<seq<Particle>>)
    ensures r.Some? ==> |r.value| == |cpars|
  {
    var rep := Replicated(cpars, b);
    var g := ReplicaGraph(cpars, b);
    XGraphBound(rep, BigBox(b), Interval(0, |rep|));
    var cl := Largest(g);
    if |cl| < |cpars| then None else Some(Pick(rep, cl, |cpars|))
  }

  /** The particles the first m entries of cl index. */
  function Pick(rep: seq<Particle>, cl: seq<int>, m: nat): (r: seq<Particle>)
    requires m <= |cl| && forall x :: x in cl ==> 0 <= x < |rep|
    ensures |r| == m
  {
    seq(m, i requires 0 <= i < m => assert cl[i] in cl; rep[cl[i]])
  }

  /** xtalposnoperiodic: replicates the cluster, finds the largest cluster in
      the enlarged box and returns its first |cpars| particles in increasing
      index order. */
  method PosNoPeriodic(cpars: seq<Particle>, b: Box) returns (ret: Option<seq<Particle>>)
    ensures ret == NoPeriodic(cpars, b)
  {
    var ncl := |cpars|;
    var repcpars := Replicate(cpars, b);
    var bigbox := b;
    bigbox := bigbox.(lboxx := bigbox.lboxx * 20.0);
    bigbox := bigbox.(lboxy := bigbox.lboxy * 20.0);
    var xpars := Range(0, |repcpars|);
    var xgraph := GetXGraph(repcpars, xpars, bigbox);
    XGraphBound(repcpars, bigbox, xpars);
    var cluspars := LargestComponent(xgraph);
    assert bigbox == BigBox(b);
    assert xgraph == ReplicaGraph(cpars, b);
    assert cluspars == Largest(ReplicaGraph(cpars, b));
    if |cluspars| < ncl {
      return None;
    }
    var picked := Gather(repcpars, cluspars, ncl);
    ret := Some(picked);
  }

  /** The copying loop of xtalposnoperiodic: ret[i] = repcpars[cluspars[i]]. */
  method Gather(repcpars: seq<Particle>, cluspars: seq<int>, ncl: nat) returns (r: seq<Particle>)
    requires ncl <= |cluspars| && forall x :: x in cluspars ==> 0 <= x < |repcpars|
    ensures r == Pick(repcpars, cluspars, ncl)
  {
    var a := new Particle[ncl](k => ZeroParticle);
    var i := 0;
    while i != ncl
      invariant 0 <= i <= ncl
      invariant forall k :: 0 <= k < i ==> cluspars[k] in cluspars && a[k] == repcpars[cluspars[k]]
    {
      assert cluspars[i] in cluspars;
      a[i] := repcpars[cluspars[i]];
      i := i + 1;
    }
    r := a[..];
  }

  /** Every entry of the replicated set is a copy of an input particle moved
      by one of the nine offsets. */
  lemma ReplicatedIsImage(pars: seq<Particle>, b: Box, k: nat) returns (c: nat, j: nat)
    requires k < 9 * |pars|
    ensures c < |pars| && j < 9 && Replicated(pars, b)[k] == ImageOf(pars[c], j, b)
  {
    SlotOfColRow(|pars|, k, 9);
    c, j := Col(|pars|, k), Row(|pars|, k);
  }

  /** Every particle the unwrapping returns is a copy of an input particle
      moved by one of the nine offsets. */
  lemma NoPeriodicImages(cpars: seq<Particle>, b: Box)
    requires NoPeriodic(cpars, b).Some?
    ensures forall i :: 0 <= i < |cpars| ==>
      exists c: nat, j: nat :: c < |cpars| && j < 9 && NoPeriodic(cpars, b).value[i] == ImageOf(cpars[c], j, b)
  {
    var rep := Replicated(cpars, b);
    var g := ReplicaGraph(cpars, b);
    XGraphBound(rep, BigBox(b), Interval(0, |rep|));
    var cl := Largest(g);
    var r := NoPeriodic(cpars, b).value;
    assert r == Pick(rep, cl, |cpars|);
    forall i | 0 <= i < |cpars|
      ensures exists c: nat, j: nat :: c < |cpars| && j < 9 && r[i] == ImageOf(cpars[c], j, b)
    {
      assert cl[i] in cl;
      var c, j := ReplicatedIsImage(cpars, b, cl[i]);
      assert r[i] == rep[cl[i]];
    }
  }

  // ---------------------------------------------------------------------
  // Centre of mass and gyration tensor.

  function SumPos(ps: seq<Particle>): Vec3
  {
    if |ps| == 0 then Origin else Plus(SumPos(ps[..|ps| - 1]), ps[|ps| - 1].pos)
  }

  function Shrink(v: Vec3, d: real): Vec3
    requires d != 0.0
  {
    Vec3(v.x / d, v.y / d, v.z / d)
  }

  /** The mean position; None for no particles, where the source divides
      zero by zero. */
  function CentreOfMass(ps: seq<Particle>): Option<Vec3>
  {
    if |ps| == 0 then None else Some(Shrink(SumPos(ps), |ps| as real))
  }

  /** cofmass: the component-wise mean of the positions. */
  method CofMass(ps: seq<Particle>) returns (cm: Option<Vec3>)
    ensures cm == CentreOfMass(ps)
  {
    var s := Origin;
    var i := 0;
    while i != |ps|
      invariant 0 <= i <= |ps|
      invariant s == SumPos(ps[..i])
    {
      assert ps[..i + 1][..i] == ps[..i];
      s := Plus(s, ps[i].pos);
      i := i + 1;
    }
    assert ps[..i] == ps;
    if |ps| == 0 {
      return None;
    }
    cm := Some(Shrink(s, |ps| as real));
  }

  /** Every particle moved by d. */
  function Translate(ps: seq<Particle>, d: Vec3): (r: seq<Particle>)
    ensures |r| == |ps|
  {
    seq(|ps|, i requires 0 <= i < |ps| => ps[i].(pos := Plus(ps[i].pos, d)))
  }

  /** d added to itself n times. */
  function Times(n: nat, d: Vec3): Vec3
  {
    if n == 0 then Origin else Plus(Times(n - 1, d), d)
  }

  lemma {:induction false} TimesScales(n: nat, d: Vec3)
    ensures Times(n, d) == Vec3(n as real * d.x, n as real * d.y, n as real * d.z)
  {
    if n > 0 {
      TimesScales(n - 1, d);
      var m := (n - 1) as real;
      var p := Times(n - 1, d);
      assert p == Vec3(m * d.x, m * d.y, m * d.z);
      assert Times(n, d) == Plus(p, d);
      assert n as real == m + 1.0;
      OneMore(m, d.x);
      OneMore(m, d.y);
      OneMore(m, d.z);
    }
  }

  lemma OneMore(m: real, x: real)
    ensures (m + 1.0) * x == m * x + x
  {
  }

  lemma TranslatePrefix(ps: seq<Particle>, d: Vec3, m: nat)
    requires m <= |ps|
    ensures Translate(ps, d)[..m] == Translate(ps[..m], d)
  {
  }

  lemma {:induction false} SumPosTranslate(ps: seq<Particle>, d: Vec3)
    ensures SumPos(Translate(ps, d)) == Plus(SumPos(ps), Times(|ps|, d))
    decreases |ps|
  {
    if |ps| > 0 {
      var n := |ps|;
      var t := Translate(ps, d);
      TranslatePrefix(ps, d, n - 1);
      SumPosTranslate(ps[..n - 1], d);
      var a, ta := SumPos(ps[..n - 1]), SumPos(t[..n - 1]);
      assert ta == Plus(a, Times(n - 1, d));
      assert SumPos(t) == Plus(ta, Plus(ps[n - 1].pos, d));
      assert SumPos(ps) == Plus(a, ps[n - 1].pos);
    }
  }

  lemma ShiftedMean(a: real, b: real, n: real)
    requires n != 0.0
    ensures (a + n * b) / n == a / n + b
  {
  }

  lemma ShrinkShifted(s: Vec3, d: Vec3, n: real)
    requires n != 0.0
    ensures Shrink(Plus(s, Vec3(n * d.x, n * d.y, n * d.z)), n) == Plus(Shrink(s, n), d)
  {
    ShiftedMean(s.x, d.x, n);
    ShiftedMean(s.y, d.y, n);
    ShiftedMean(s.z, d.z, n);
  }

  /** Moving every particle by d moves the centre of mass by d. */
  lemma CentreOfMassTranslate(ps: seq<Particle>, d: Vec3)
    requires |ps| > 0
    ensures CentreOfMass(Translate(ps, d)) == Some(Plus(CentreOfMass(ps).value, d))
  {
    SumPosTranslate(ps, d);
    TimesScales(|ps|, d);
    var n := |ps| as real;
    ShrinkShifted(SumPos(ps), d, n);
    var t := Translate(ps, d);
    assert SumPos(t) == Plus(SumPos(ps), Vec3(n * d.x, n * d.y, n * d.z));
    assert |t| as real == n;
    assert CentreOfMass(t) == Some(Shrink(SumPos(t), n));
  }

  function Outer(v: Vec3, j: nat, k: nat): real
    requires j < 3 && k < 3
  {
    Coord(v, j) * Coord(v, k)
  }

  /** The sum over the particles of rcm_j * rcm_k, rcm the position relative
      to cm. */
  function GySum(ps: seq<Particle>, cm: Vec3, j: nat, k: nat): real
    requires j < 3 && k < 3
  {
    if |ps| == 0 then 0.0
    else GySum(ps[..|ps| - 1], cm, j, k) + Outer(Minus(ps[|ps| - 1].pos, cm), j, k)
  }

  /** The gyration tensor: entry (j, k) is the mean over the particles of
      rcm_j * rcm_k; None for no particles. */
  function Gyration(ps: seq<Particle>): (r: Option<seq<seq<real>>>)
  {
    match CentreOfMass(ps)
    case None => None
    case Some(cm) =>
      var n := |ps| as real;
      Some(seq(3, j requires 0 <= j < 3 =>
        seq(3, k requires 0 <= k < 3 => GySum(ps, cm, j, k) / n)))
  }

  /** Adds the upper triangle of the outer product rcm rcm^T to gyt. */
  method AddUpperOuter(gyt: array2<real>, rcm: Vec3)
    requires gyt.Length0 == 3 && gyt.Length1 == 3
    modifies gyt
    ensures forall j, k :: 0 <= j < 3 && 0 <= k < 3 ==>
      gyt[j, k] == old(gyt[j, k]) + (if j <= k then Outer(rcm, j, k) else 0.0)
  {
    var j := 0;
    while j != 3
      invariant 0 <= j <= 3
      invariant forall j', k :: 0 <= j' < 3 && 0 <= k < 3 ==>
        gyt[j', k] == old(gyt[j', k]) + (if j' < j && j' <= k then Outer(rcm, j', k) else 0.0)
    {
      var k := j;
      while k != 3
        invariant j <= k <= 3
        invariant forall j', k' :: 0 <= j' < 3 && 0 <= k' < 3 ==>
          gyt[j', k'] == old(gyt[j', k']) +
            (if (j' < j && j' <= k') || (j' == j && j <= k' < k) then Outer(rcm, j', k') else 0.0)
      {
        gyt[j, k] := gyt[j, k] + Coord(rcm, j) * Coord(rcm, k);
        k := k + 1;
      }
      j := j + 1;
    }
  }

  /** Divides every entry of gyt by n. */
  method DivideEntries(gyt: array2<real>, n: real)
    requires gyt.Length0 == 3 && gyt.Length1 == 3 && n != 0.0
    modifies gyt
    ensures forall j, k :: 0 <= j < 3 && 0 <= k < 3 ==> gyt[j, k] == old(gyt[j, k]) / n
  {
    var j := 0;
    while j != 3
      invariant 0 <= j <= 3
      invariant forall j', k :: 0 <= j' < 3 && 0 <= k < 3 ==>
        gyt[j', k] == if j' < j then old(gyt[j', k]) / n else old(gyt[j', k])
    {
      var k := 0;
      while k != 3
        invariant 0 <= k <= 3
        invariant forall j', k' :: 0 <= j' < 3 && 0 <= k' < 3 ==>
          gyt[j', k'] == if j' < j || (j' == j && k' < k) then old(gyt[j', k']) / n else old(gyt[j', k'])
      {
        gyt[j, k] := gyt[j, k] / n;
        k := k + 1;
      }
      j := j + 1;
    }
  }

  lemma {:induction false} GySumSymmetric(ps: seq<Particle>, cm: Vec3, j: nat, k: nat)
    requires j < 3 && k < 3
    ensures GySum(ps, cm, j, k) == GySum(ps, cm, k, j)
    decreases |ps|
  {
    if |ps| > 0 {
      GySumSymmetric(ps[..|ps| - 1], cm, j, k);
    }
  }

  /** The accumulation loop of gytensor: the upper triangle of the sum of
      the outer products of the offsets from cm. */
  method UpperSums(ps: seq<Particle>, cm: Vec3) returns (gyt: array2<real>)
    ensures fresh(gyt) && gyt.Length0 == 3 && gyt.Length1 == 3
    ensures forall j, k :: 0 <= j < 3 && 0 <= k < 3 ==>
      gyt[j, k] == if j <= k then GySum(ps, cm, j, k) else 0.0
  {
    gyt := new real[3, 3]((j, k) => 0.0);
    var i := 0;
    while i != |ps|
      invariant 0 <= i <= |ps|
      invariant forall j, k :: 0 <= j < 3 && 0 <= k < 3 ==>
        gyt[j, k] == if j <= k then GySum(ps[..i], cm, j, k) else 0.0
    {
      assert ps[..i + 1][..i] == ps[..i];
      var rcm := Minus(ps[i].pos, cm);
      AddUpperOuter(gyt, rcm);
      i := i + 1;
    }
    assert ps[..i] == ps;
  }

  /** gytensor: accumulates the upper triangle, mirrors it and divides every
      entry by the number of particles. */
  method GyTensor(ps: seq<Particle>) returns (r: Option<seq<seq<real>>>)
    ensures r == Gyration(ps)
  {
    var cmass := CofMass(ps);
    if cmass.None? {
      return None;
    }
    var cm := cmass.value;
    var gyt := UpperSums(ps, cm);
    gyt[1, 0] := gyt[0, 1];
    gyt[2, 0] := gyt[0, 2];
    gyt[2, 1] := gyt[1, 2];
    forall j, k | 0 <= k < j < 3
      ensures GySum(ps, cm, j, k) == GySum(ps, cm, k, j)
    {
      GySumSymmetric(ps, cm, j, k);
    }
    assert forall j, k :: 0 <= j < 3 && 0 <= k < 3 ==> gyt[j, k] == GySum(ps, cm, j, k);
    var n := |ps| as real;
    DivideEntries(gyt, n);
    r := Some([[gyt[0, 0], gyt[0, 1], gyt[0, 2]],
               [gyt[1, 0], gyt[1, 1], gyt[1, 2]],
               [gyt[2, 0], gyt[2, 1], gyt[2, 2]]]);
    var g := Gyration(ps).value;
    forall j | 0 <= j < 3
      ensures r.value[j] == g[j]
    {
      assert forall k :: 0 <= k < 3 ==> r.value[j][k] == g[j][k];
    }
    assert r.value == g;
  }

  /** The gyration tensor is symmetric. */
  lemma GyrationSymmetric(ps: seq<Particle>)
    requires Gyration(ps).Some?
    ensures forall j, k :: 0 <= j < 3 && 0 <= k < 3 ==>
      Gyration(ps).value[j][k] == Gyration(ps).value[k][j]
  {
    var cm := CentreOfMass(ps).value;
    forall j, k | 0 <= j < 3 && 0 <= k < 3
      ensures GySum(ps, cm, j, k) == GySum(ps, cm, k, j)
    {
      GySumSymmetric(ps, cm, j, k);
    }
  }

  lemma {:induction false} GySumDiagonal(ps: seq<Particle>, cm: Vec3, j: nat)
    requires j < 3
    ensures GySum(ps, cm, j, j) >= 0.0
    decreases |ps|
  {
    if |ps| > 0 {
      GySumDiagonal(ps[..|ps| - 1], cm, j);
      var c := Coord(Minus(ps[|ps| - 1].pos, cm), j);
      assert Outer(Minus(ps[|ps| - 1].pos, cm), j, j) == c * c;
    }
  }

  /** The diagonal of the gyration tensor is never negative. */
  lemma GyrationDiagonal(ps: seq<Particle>)
    requires Gyration(ps).Some?
    ensures forall j :: 0 <= j < 3 ==> Gyration(ps).value[j][j] >= 0.0
  {
    var cm := CentreOfMass(ps).value;
    forall j | 0 <= j < 3
      ensures Gyration(ps).value[j][j] >= 0.0
    {
      GySumDiagonal(ps, cm, j);
    }
  }

  lemma {:induction false} GySumTranslate(ps: seq<Particle>, cm: Vec3, d: Vec3, j: nat, k: nat)
    requires j < 3 && k < 3
    ensures GySum(Translate(ps, d), Plus(cm, d), j, k) == GySum(ps, cm, j, k)
    decreases |ps|
  {
    if |ps| > 0 {
      var n := |ps|;
      var t := Translate(ps, d);
      TranslatePrefix(ps, d, n - 1);
      GySumTranslate(ps[..n - 1], cm, d, j, k);
      var a, ta := GySum(ps[..n - 1], cm, j, k), GySum(t[..n - 1], Plus(cm, d), j, k);
      assert ta == a;
      var rel := Minus(t[n - 1].pos, Plus(cm, d));
      assert rel == Minus(ps[n - 1].pos, cm);
      assert GySum(t, Plus(cm, d), j, k) == ta + Outer(rel, j, k);
    }
  }

  /** Moving every particle by the same vector leaves the gyration tensor
      unchanged. */
  lemma GyrationTranslate(ps: seq<Particle>, d: Vec3)
    ensures Gyration(Translate(ps, d)) == Gyration(ps)
  {
    if |ps| > 0 {
      CentreOfMassTranslate(ps, d);
      var cm := CentreOfMass(ps).value;
      var t := Translate(ps, d);
      assert CentreOfMass(t) == Some(Plus(cm, d));
      var g, h := Gyration(t).value, Gyration(ps).value;
      forall j | 0 <= j < 3
        ensures g[j] == h[j]
      {
        forall k | 0 <= k < 3
          ensures g[j][k] == h[j][k]
        {
          GySumTranslate(ps, cm, d, j, k);
        }
      }
      assert g == h;
    }
  }

  /** Two particles at (0,0,0) and (1,0,0): the tensor has 0.25 in its xx
      entry and zero elsewhere. */
  lemma GyrationOfPair()
    ensures Gyration([ZeroParticle, ZeroParticle.(pos := Vec3(1.0, 0.0, 0.0))]) ==
      Some([[0.25, 0.0, 0.0], [0.0, 0.0, 0.0], [0.0, 0.0, 0.0]])
  {
    var p1 := ZeroParticle.(pos := Vec3(1.0, 0.0, 0.0));
    var ps := [ZeroParticle, p1];
    var one := ps[..1];
    assert one == [ZeroParticle];
    assert one[..0] == [];
    assert SumPos(one) == Origin;
    assert SumPos(ps) == Vec3(1.0, 0.0, 0.0);
    var cm := Vec3(0.5, 0.0, 0.0);
    assert CentreOfMass(ps) == Some(cm);
    var g := Gyration(ps).value;
    forall j, k | 0 <= j < 3 && 0 <= k < 3
      ensures g[j][k] == if j == 0 && k == 0 then 0.25 else 0.0
    {
      assert GySum(one, cm, j, k) == Outer(Minus(Origin, cm), j, k);
      assert GySum(ps, cm, j, k) == Outer(Minus(Origin, cm), j, k) + Outer(Minus(p1.pos, cm), j, k);
    }
    var want := [[0.25, 0.0, 0.0], [0.0, 0.0, 0.0], [0.0, 0.0, 0.0]];
    forall j | 0 <= j < 3
      ensures g[j] == want[j]
    {
      assert forall k :: 0 <= k < 3 ==> g[j][k] == want[j][k];
    }
    assert g == want;
  }
}
