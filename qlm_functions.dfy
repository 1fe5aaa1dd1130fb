/** The order-parameter engine: neighbour lists and the per-particle sums of
    spherical harmonics, their two normalisations, the crystal-link test and
    the group invariant Q. A matrix of qlm values is an `array2<Complex>`
    with one row of 2l+1 entries (m = -l..l) per particle. */
module QlmFunctions {
  import opened Base
  import opened PeriodicBox

  // ---------------------------------------------------------------------
  // Matrices as values

  /** Row i of a matrix. */
  function Row(m: array2<Complex>, i: nat): (r: seq<Complex>)
    requires i < m.Length0
    reads m
  {
    seq(m.Length1, k requires 0 <= k < m.Length1 reads m => m[i, k])
  }

  /** The whole matrix as a sequence of rows. */
  function Matrix(m: array2<Complex>): (r: seq<seq<Complex>>)
    reads m
  {
    seq(m.Length0, i requires 0 <= i < m.Length0 reads m => Row(m, i))
  }

  /** Every row has 2l+1 entries. */
  predicate Shape(M: seq<seq<Complex>>, l: nat)
  {
    forall i :: 0 <= i < |M| ==> |M[i]| == 2 * l + 1
  }

  lemma MatrixFromEntries(m: array2<Complex>, M: seq<seq<Complex>>)
    requires |M| == m.Length0
    requires forall i :: 0 <= i < |M| ==> |M[i]| == m.Length1
    requires forall i, k :: 0 <= i < m.Length0 && 0 <= k < m.Length1 ==> m[i, k] == M[i][k]
    ensures Matrix(m) == M
  {
    forall i | 0 <= i < |M| ensures Matrix(m)[i] == M[i] {
      assert Row(m, i) == M[i];
    }
  }

  // ---------------------------------------------------------------------
  // Neighbour lists and raw sums

  /** The neighbours j < n of particle i (j != i), in ascending order. */
  function NeighboursUpTo(ps: seq<Particle>, b: Box, i: nat, n: nat): (r: seq<int>)
    requires i < |ps| && n <= |ps|
    ensures StrictlyAscending(r)
    ensures forall k :: 0 <= k < |r| ==> 0 <= r[k] < n
  {
    if n == 0 then []
    else NeighboursUpTo(ps, b, i, n - 1)
         + (if n - 1 != i && IsNeighbour(b, Sep(b, ps[i], ps[n - 1])) then [n - 1] else [])
  }

  /** The neighbour list of particle i. */
  function Neighbours(ps: seq<Particle>, b: Box, i: nat): seq<int>
    requires i < |ps|
  {
    NeighboursUpTo(ps, b, i, |ps|)
  }

  /** Sum over the neighbours j < n of particle i of Y_{l,m} of the separation. */
  function HarmSumUpTo(ps: seq<Particle>, b: Box, an: Analytic, l: nat, m: int, i: nat, n: nat): Complex
    requires i < |ps| && n <= |ps|
  {
    if n == 0 then CZero
    else if n - 1 != i && IsNeighbour(b, Sep(b, ps[i], ps[n - 1]))
    then CAdd(HarmSumUpTo(ps, b, an, l, m, i, n - 1), an.ylm(l, m, Sep(b, ps[i], ps[n - 1])))
    else HarmSumUpTo(ps, b, an, l, m, i, n - 1)
  }

  lemma NeighboursStep(ps: seq<Particle>, b: Box, i: nat, j: nat)
    requires i < |ps| && j < |ps|
    ensures NeighboursUpTo(ps, b, i, j + 1) == NeighboursUpTo(ps, b, i, j) + (if Linked(ps, b, i, j) then [j] else [])
  {
  }

  lemma HarmSumStep(ps: seq<Particle>, b: Box, an: Analytic, l: nat, m: int, i: nat, j: nat)
    requires i < |ps| && j < |ps|
    ensures HarmSumUpTo(ps, b, an, l, m, i, j + 1)
            == if Linked(ps, b, i, j) then CAdd(HarmSumUpTo(ps, b, an, l, m, i, j), an.ylm(l, m, Sep(b, ps[i], ps[j])))
               else HarmSumUpTo(ps, b, an, l, m, i, j)
  {
  }

  /** Nb(i) * qlmbar(i): the raw matrix of neighbour sums. */
  function RawQlm(ps: seq<Particle>, b: Box, an: Analytic, l: nat): (M: seq<seq<Complex>>)
    ensures |M| == |ps| && Shape(M, l)
  {
    seq(|ps|, i requires 0 <= i < |ps| =>
      seq(2 * l + 1, k requires 0 <= k < 2 * l + 1 => HarmSumUpTo(ps, b, an, l, k - l, i, |ps|)))
  }

  lemma RawQlmEntry(ps: seq<Particle>, b: Box, an: Analytic, l: nat, i: nat, k: nat)
    requires i < |ps| && k < 2 * l + 1
    ensures RawQlm(ps, b, an, l)[i][k] == HarmSumUpTo(ps, b, an, l, k - l, i, |ps|)
  {
  }

  /** Adds Y_{l,m}(s) to every entry m of row i. */
  method AddHarmonics(qlm: array2<Complex>, i: nat, lval: nat, an: Analytic, s: Vec3)
    requires i < qlm.Length0 && qlm.Length1 == 2 * lval + 1
    modifies qlm
    ensures forall i', k :: 0 <= i' < qlm.Length0 && 0 <= k < qlm.Length1 ==>
              qlm[i', k] == if i' == i then CAdd(old(qlm[i', k]), an.ylm(lval, k - lval, s)) else old(qlm[i', k])
  {
    var k := 0;
    while k != 2 * lval + 1
      invariant 0 <= k <= 2 * lval + 1
      invariant forall i', k' :: 0 <= i' < qlm.Length0 && 0 <= k' < qlm.Length1 ==>
                  qlm[i', k'] == if i' == i && k' < k then CAdd(old(qlm[i', k']), an.ylm(lval, k' - lval, s))
                                 else old(qlm[i', k'])
    {
      qlm[i, k] := CAdd(qlm[i, k], an.ylm(lval, k - lval, s));
      k := k + 1;
    }
  }

  /** Whether particle j is a neighbour of particle i in the sense of qlms. */
  predicate Linked(ps: seq<Particle>, b: Box, i: nat, j: nat)
    requires i < |ps| && j < |ps|
  {
    j != i && IsNeighbour(b, Sep(b, ps[i], ps[j]))
  }

  /** One step of the inner loop of qlms: the pair (i, j). */
  method VisitPair(particles: seq<Particle>, simbox: Box, numneigh: array<int>, lneigh: array<seq<int>>,
                   lval: nat, an: Analytic, qlm: array2<Complex>, i: nat, j: nat, sep: array<real>, r2in: real)
    returns (r2: real)
    requires i < |particles| && j < |particles| && qlm.Length0 == |particles| && qlm.Length1 == 2 * lval + 1
    requires numneigh.Length >= |particles| && lneigh.Length >= |particles| && sep.Length == 3
    requires forall k :: 0 <= k < qlm.Length1 ==>
               qlm[i, k] == HarmSumUpTo(particles, simbox, an, lval, k - lval, i, j)
    modifies qlm, numneigh, lneigh, sep
    ensures forall k :: 0 <= k < qlm.Length1 ==>
              qlm[i, k] == HarmSumUpTo(particles, simbox, an, lval, k - lval, i, j + 1)
    ensures forall i', k :: 0 <= i' < qlm.Length0 && i' != i && 0 <= k < qlm.Length1 ==>
              qlm[i', k] == old(qlm[i', k])
    ensures lneigh[i] == old(lneigh[i]) + (if Linked(particles, simbox, i, j) then [j] else [])
    ensures numneigh[i] == old(numneigh[i]) + (if Linked(particles, simbox, i, j) then 1 else 0)
    ensures forall i' :: 0 <= i' < lneigh.Length && i' != i ==> lneigh[i'] == old(lneigh[i'])
    ensures forall i' :: 0 <= i' < numneigh.Length && i' != i ==> numneigh[i'] == old(numneigh[i'])
  {
    r2 := r2in;
    if i != j {
      SepInto(simbox, particles[i], particles[j], sep);
      var nb;
      nb, r2 := IsNeighSep(simbox, sep, r2);
      assert Vec3(sep[0], sep[1], sep[2]) == Sep(simbox, particles[i], particles[j]);
      if nb {
        numneigh[i] := numneigh[i] + 1;
        lneigh[i] := lneigh[i] + [j];
        AddHarmonics(qlm, i, lval, an, Vec3(sep[0], sep[1], sep[2]));
      }
    }
    forall k | 0 <= k < qlm.Length1
      ensures qlm[i, k] == HarmSumUpTo(particles, simbox, an, lval, k - lval, i, j + 1)
    {
      HarmSumStep(particles, simbox, an, lval, k - lval, i, j);
    }
  }

  /** The inner loop of qlms for particle i: every j != i that is a
      neighbour is counted, appended to i's list, and its harmonics added
      to row i, which starts at zero. */
  method NeighbourRow(particles: seq<Particle>, simbox: Box, numneigh: array<int>, lneigh: array<seq<int>>,
                      lval: nat, an: Analytic, qlm: array2<Complex>, i: nat, sep: array<real>, r2in: real)
    returns (r2: real)
    requires i < |particles| && qlm.Length0 == |particles| && qlm.Length1 == 2 * lval + 1
    requires numneigh.Length >= |particles| && lneigh.Length >= |particles| && sep.Length == 3
    requires forall k :: 0 <= k < qlm.Length1 ==> qlm[i, k] == CZero
    modifies qlm, numneigh, lneigh, sep
    ensures forall k :: 0 <= k < qlm.Length1 ==>
              qlm[i, k] == HarmSumUpTo(particles, simbox, an, lval, k - lval, i, |particles|)
    ensures forall i', k :: 0 <= i' < qlm.Length0 && i' != i && 0 <= k < qlm.Length1 ==>
              qlm[i', k] == old(qlm[i', k])
    ensures lneigh[i] == old(lneigh[i]) + Neighbours(particles, simbox, i)
    ensures numneigh[i] == old(numneigh[i]) + |Neighbours(particles, simbox, i)|
    ensures forall i' :: 0 <= i' < lneigh.Length && i' != i ==> lneigh[i'] == old(lneigh[i'])
    ensures forall i' :: 0 <= i' < numneigh.Length && i' != i ==> numneigh[i'] == old(numneigh[i'])
  {
    r2 := r2in;
    var npar := |particles|;
    var j := 0;
    assert old(lneigh[i]) + NeighboursUpTo(particles, simbox, i, 0) == old(lneigh[i]);
    while j != npar
      invariant 0 <= j <= npar
      invariant forall k :: 0 <= k < qlm.Length1 ==>
                  qlm[i, k] == HarmSumUpTo(particles, simbox, an, lval, k - lval, i, j)
      invariant forall i', k :: 0 <= i' < qlm.Length0 && i' != i && 0 <= k < qlm.Length1 ==>
                  qlm[i', k] == old(qlm[i', k])
      invariant lneigh[i] == old(lneigh[i]) + NeighboursUpTo(particles, simbox, i, j)
      invariant numneigh[i] == old(numneigh[i]) + |NeighboursUpTo(particles, simbox, i, j)|
      invariant forall i' :: 0 <= i' < lneigh.Length && i' != i ==> lneigh[i'] == old(lneigh[i'])
      invariant forall i' :: 0 <= i' < numneigh.Length && i' != i ==> numneigh[i'] == old(numneigh[i'])
    {
      NeighboursStep(particles, simbox, i, j);
      r2 := VisitPair(particles, simbox, numneigh, lneigh, lval, an, qlm, i, j, sep, r2);
      j := j + 1;
    }
  }

  /** qlms: for every ordered pair i != j of neighbours, counts j, appends it
      to i's list and adds Y_{l,m} of the separation to row i. The neighbour
      count and list start from whatever the caller passes in. */
  method Qlms(particles: seq<Particle>, simbox: Box, numneigh: array<int>, lneigh: array<seq<int>>,
              lval: nat, an: Analytic) returns (qlm: array2<Complex>)
    requires numneigh.Length >= |particles| && lneigh.Length >= |particles|
    modifies numneigh, lneigh
    ensures fresh(qlm) && qlm.Length0 == |particles| && qlm.Length1 == 2 * lval + 1
    ensures Matrix(qlm) == RawQlm(particles, simbox, an, lval)
    ensures forall i :: 0 <= i < |particles| ==>
              lneigh[i] == old(lneigh[i]) + Neighbours(particles, simbox, i)
              && numneigh[i] == old(numneigh[i]) + |Neighbours(particles, simbox, i)|
    ensures forall i :: |particles| <= i < numneigh.Length ==> numneigh[i] == old(numneigh[i])
    ensures forall i :: |particles| <= i < lneigh.Length ==> lneigh[i] == old(lneigh[i])
  {
    var npar := |particles|;
    var width := 2 * lval + 1;
    qlm := new Complex[npar, width]((i, k) => CZero);
    var sep := new real[3];
    var r2 := 0.0;
    var i := 0;
    while i != npar
      invariant 0 <= i <= npar
      invariant fresh(qlm) && fresh(sep) && sep.Length == 3
      invariant qlm.Length0 == npar && qlm.Length1 == width
      invariant forall i', k :: 0 <= i' < npar && 0 <= k < width ==>
                  qlm[i', k] == if i' < i then HarmSumUpTo(particles, simbox, an, lval, k - lval, i', npar)
                                else CZero
      invariant forall i' :: 0 <= i' < lneigh.Length ==>
                  lneigh[i'] == if i' < i then old(lneigh[i']) + Neighbours(particles, simbox, i')
                                else old(lneigh[i'])
      invariant forall i' :: 0 <= i' < numneigh.Length ==>
                  numneigh[i'] == if i' < i then old(numneigh[i']) + |Neighbours(particles, simbox, i')|
                                  else old(numneigh[i'])
    {
      r2 := NeighbourRow(particles, simbox, numneigh, lneigh, lval, an, qlm, i, sep, r2);
      i := i + 1;
    }
    MatrixFromEntries(qlm, RawQlm(particles, simbox, an, lval));
  }

  /** j is listed among the neighbours of i below n exactly when j < n, j is
      not i and the pair passes the neighbour test. */
  lemma {:induction false} NeighboursUpToMembers(ps: seq<Particle>, b: Box, i: nat, n: nat, j: int)
    requires i < |ps| && n <= |ps|
    ensures j in NeighboursUpTo(ps, b, i, n) <==> 0 <= j < n && j != i && IsNeighbour(b, Sep(b, ps[i], ps[j]))
  {
    if n > 0 {
      NeighboursUpToMembers(ps, b, i, n - 1, j);
    }
  }

  /** The neighbour relation built by qlms is symmetric. */
  lemma {:induction false} NeighboursSymmetric(ps: seq<Particle>, b: Box, i: nat, j: nat)
    requires Valid(b) && i < |ps| && j < |ps|
    ensures j in Neighbours(ps, b, i) <==> i in Neighbours(ps, b, j)
  {
    NeighboursUpToMembers(ps, b, i, |ps|, j);
    NeighboursUpToMembers(ps, b, j, |ps|, i);
    NeighbourSymmetric(b, ps[i], ps[j]);
  }

  /** A particle without neighbours keeps an all-zero row. */
  lemma {:induction false} LonelyRowIsZero(ps: seq<Particle>, b: Box, an: Analytic, l: nat, i: nat)
    requires i < |ps| && Neighbours(ps, b, i) == []
    ensures forall k :: 0 <= k < 2 * l + 1 ==> RawQlm(ps, b, an, l)[i][k] == CZero
  {
    forall j | 0 <= j < |ps| ensures !Linked(ps, b, i, j) {
      NeighboursUpToMembers(ps, b, i, |ps|, j);
    }
    var M := RawQlm(ps, b, an, l);
    forall k | 0 <= k < 2 * l + 1 ensures M[i][k] == CZero {
      LonelySum(ps, b, an, l, k - l, i, |ps|);
      RawQlmEntry(ps, b, an, l, i, k);
    }
  }

  /** The sum over no linked pairs is zero. */
  lemma {:induction false} LonelySum(ps: seq<Particle>, b: Box, an: Analytic, l: nat, m: int, i: nat, n: nat)
    requires i < |ps| && n <= |ps|
    requires forall j :: 0 <= j < n ==> !Linked(ps, b, i, j)
    ensures HarmSumUpTo(ps, b, an, l, m, i, n) == CZero
  {
    if n > 0 {
      HarmSumStep(ps, b, an, l, m, i, n - 1);
      LonelySum(ps, b, an, l, m, i, n - 1);
    }
  }

  // ---------------------------------------------------------------------
  // Normalisations

  /** Sum of the squared moduli of a row, accumulated left to right. */
  function NormSq(v: seq<Complex>): real
  {
    if |v| == 0 then 0.0 else NormSq(v[..|v| - 1]) + CNorm(v[|v| - 1])
  }

  /** Every entry of v divided by the same non-zero real. */
  function Scaled(v: seq<Complex>, d: real): (r: seq<Complex>)
    requires d != 0.0
  {
    seq(|v|, k requires 0 <= k < |v| => CDiv(v[k], d))
  }

  /** qlmbar row: divided by the neighbour count when there is at least one. */
  function BarRow(row: seq<Complex>, nb: int): seq<Complex>
  {
    if nb >= 1 then Scaled(row, nb as real) else row
  }

  /** A row that qlmtildes divides by a zero norm: the particle has
      neighbours, but the square root of its squared norm is 0. With a true
      square root this is an all-zero row, and every entry becomes 0/0, a NaN. */
  predicate NanRow(row: seq<Complex>, nb: int, an: Analytic)
  {
    nb >= 1 && an.sqrt(NormSq(row)) == 0.0
  }

  /** qlmtilde row: divided by its own norm when there is at least one
      neighbour. A NaN row keeps its old entries here; NanRows flags it, and
      the link test treats it as NaN. */
  function TildeRow(row: seq<Complex>, nb: int, an: Analytic): seq<Complex>
  {
    if nb >= 1 && an.sqrt(NormSq(row)) != 0.0 then Scaled(row, an.sqrt(NormSq(row))) else row
  }

  function BarMatrix(M: seq<seq<Complex>>, nb: seq<int>): (r: seq<seq<Complex>>)
    requires |nb| >= |M|
    ensures |r| == |M|
  {
    seq(|M|, i requires 0 <= i < |M| => BarRow(M[i], nb[i]))
  }

  /** Which rows qlmtildes turns into NaN. */
  function NanRows(M: seq<seq<Complex>>, nb: seq<int>, an: Analytic): (r: seq<bool>)
    requires |nb| >= |M|
    ensures |r| == |M|
  {
    seq(|M|, i requires 0 <= i < |M| => NanRow(M[i], nb[i], an))
  }

  function TildeMatrix(M: seq<seq<Complex>>, nb: seq<int>, an: Analytic): (r: seq<seq<Complex>>)
    requires |nb| >= |M|
    ensures |r| == |M|
  {
    seq(|M|, i requires 0 <= i < |M| => TildeRow(M[i], nb[i], an))
  }

  /** Divides every entry of row i by d in place. */
  method ScaleRow(qlm: array2<Complex>, i: nat, d: real)
    requires i < qlm.Length0 && d != 0.0
    modifies qlm
    ensures forall k :: 0 <= k < qlm.Length1 ==> qlm[i, k] == CDiv(old(qlm[i, k]), d)
    ensures forall i', k :: 0 <= i' < qlm.Length0 && i' != i && 0 <= k < qlm.Length1 ==>
              qlm[i', k] == old(qlm[i', k])
  {
    var k := 0;
    while k != qlm.Length1
      invariant 0 <= k <= qlm.Length1
      invariant forall k' :: 0 <= k' < k ==> qlm[i, k'] == CDiv(old(qlm[i, k']), d)
      invariant forall k' :: k <= k' < qlm.Length1 ==> qlm[i, k'] == old(qlm[i, k'])
      invariant forall i', k' :: 0 <= i' < qlm.Length0 && i' != i && 0 <= k' < qlm.Length1 ==>
                  qlm[i', k'] == old(qlm[i', k'])
    {
      qlm[i, k] := CDiv(qlm[i, k], d);
      k := k + 1;
    }
  }

  /** qlmbars: divides row i by numneigh[i] in place when numneigh[i] >= 1;
      other rows and the dimensions are unchanged. */
  method QlmBars(qlm: array2<Complex>, numneigh: array<int>, lval: nat)
    requires qlm.Length1 == 2 * lval + 1 && numneigh.Length >= qlm.Length0
    modifies qlm
    ensures Matrix(qlm) == BarMatrix(old(Matrix(qlm)), numneigh[..])
  {
    ghost var M := Matrix(qlm);
    var npar := qlm.Length0;
    var i := 0;
    while i != npar
      invariant 0 <= i <= npar
      invariant forall i', k :: 0 <= i' < npar && 0 <= k < qlm.Length1 ==>
                  qlm[i', k] == if i' < i then BarRow(M[i'], numneigh[i'])[k] else M[i'][k]
    {
      if numneigh[i] >= 1 {
        ScaleRow(qlm, i, numneigh[i] as real);
      }
      i := i + 1;
    }
    MatrixFromEntries(qlm, BarMatrix(M, numneigh[..]));
  }

  lemma NormSqPrefixStep(v: seq<Complex>, k: nat)
    requires k < |v|
    ensures NormSq(v[..k + 1]) == NormSq(v[..k]) + CNorm(v[k])
  {
    assert v[..k + 1][..k] == v[..k];
  }

  /** The squared norm of row i, summed left to right. */
  method RowNormSq(qlm: array2<Complex>, i: nat) returns (s: real)
    requires i < qlm.Length0
    ensures s == NormSq(Row(qlm, i))
  {
    s := 0.0;
    var k := 0;
    while k != qlm.Length1
      invariant 0 <= k <= qlm.Length1
      invariant s == NormSq(Row(qlm, i)[..k])
    {
      NormSqPrefixStep(Row(qlm, i), k);
      s := s + CNorm(qlm[i, k]);
      k := k + 1;
    }
    assert Row(qlm, i)[..k] == Row(qlm, i);
  }

  /** qlmtildes: divides every row with at least one neighbour by its
      Euclidean norm in place; rows without neighbours are unchanged. A row
      whose norm is 0 becomes NaN: nan reports those rows, whose entries the
      model leaves as they were. */
  method QlmTildes(qlm: array2<Complex>, numneigh: array<int>, lval: nat, an: Analytic)
    returns (nan: seq<bool>)
    requires qlm.Length1 == 2 * lval + 1 && numneigh.Length >= qlm.Length0
    modifies qlm
    ensures Matrix(qlm) == TildeMatrix(old(Matrix(qlm)), numneigh[..], an)
    ensures nan == NanRows(old(Matrix(qlm)), numneigh[..], an)
  {
    ghost var M := Matrix(qlm);
    var npar := qlm.Length0;
    nan := [];
    var i := 0;
    while i != npar
      invariant 0 <= i <= npar
      invariant forall i', k :: 0 <= i' < npar && 0 <= k < qlm.Length1 ==>
                  qlm[i', k] == if i' < i then TildeRow(M[i'], numneigh[i'], an)[k] else M[i'][k]
      invariant nan == NanRows(M, numneigh[..], an)[..i]
    {
      var isnan := false;
      if numneigh[i] >= 1 {
        var qnorm := RowNormSq(qlm, i);
        assert Row(qlm, i) == M[i];
        qnorm := an.sqrt(qnorm);
        if qnorm == 0.0 {
          isnan := true;
        } else {
          ScaleRow(qlm, i, qnorm);
        }
      }
      nan := nan + [isnan];
      i := i + 1;
    }
    MatrixFromEntries(qlm, TildeMatrix(M, numneigh[..], an));
  }

  lemma CNormScaled(c: Complex, d: real)
    requires d != 0.0
    ensures CNorm(CDiv(c, d)) * (d * d) == CNorm(c)
  {
    var x, y := c.re / d, c.im / d;
    assert x * d == c.re && y * d == c.im;
  }

  /** Real multiplication as a named function, so that a product of two
      equal terms is recognised as equal. */
  function Mul(a: real, b: real): real { a * b }

  lemma {:induction false} NormSqScaled(v: seq<Complex>, d: real, dd: real)
    requires d != 0.0 && dd == d * d
    ensures Mul(NormSq(Scaled(v, d)), dd) == NormSq(v)
  {
    if |v| > 0 {
      var n := |v| - 1;
      var w := Scaled(v, d);
      assert w[..n] == Scaled(v[..n], d);
      assert w[n] == CDiv(v[n], d);
      var a, b := NormSq(w[..n]), CNorm(w[n]);
      assert NormSq(w) == a + b;
      NormSqScaled(v[..n], d, dd);
      CNormScaled(v[n], d);
      MulDistributes(a, b, dd);
    }
  }

  lemma MulDistributes(a: real, b: real, t: real)
    ensures Mul(a + b, t) == Mul(a, t) + b * t
  {
  }

  lemma CancelFactor(x: real, t: real)
    requires t > 0.0 && Mul(x, t) == t
    ensures x == 1.0
  {
  }

  /** A row with neighbours and a non-zero sum becomes a unit vector under
      qlmtildes, provided sqrt is the square root of the row's norm. */
  lemma {:induction false} TildeRowUnitNorm(row: seq<Complex>, nb: int, an: Analytic)
    requires nb >= 1 && NormSq(row) > 0.0
    requires an.sqrt(NormSq(row)) * an.sqrt(NormSq(row)) == NormSq(row)
    ensures an.sqrt(NormSq(row)) != 0.0
    ensures NormSq(TildeRow(row, nb, an)) == 1.0
  {
    var s := an.sqrt(NormSq(row));
    NormSqScaled(row, s, NormSq(row));
    CancelFactor(NormSq(Scaled(row, s)), NormSq(row));
  }

  // ---------------------------------------------------------------------
  // Crystal links

  /** sum over m of re*re + im*im of rows i and k, over the first n entries. */
  function LinkValue(M: seq<seq<Complex>>, i: nat, k: nat, n: nat): real
    requires i < |M| && k < |M| && n <= |M[i]| && n <= |M[k]|
  {
    if n == 0 then 0.0
    else LinkValue(M, i, k, n - 1) + (M[i][n - 1].re * M[k][n - 1].re + M[i][n - 1].im * M[k][n - 1].im)
  }

  /** The neighbour data xtalpars reads is in range: for every candidate
      particle with enough neighbours, its first numneigh[i] list entries are
      particle indices. */
  predicate LinkData(nb: seq<int>, ln: seq<seq<int>>, npar: nat, nsurf: int, nlinks: int)
  {
    |nb| >= npar && |ln| >= npar
    && forall i :: 0 <= i < npar && nsurf <= i && nb[i] >= nlinks ==>
         0 <= nb[i] <= |ln[i]| && forall j :: 0 <= j < nb[i] ==> 0 <= ln[i][j] < npar
  }

  /** The link value of rows i and k as the program holds it: None (NaN)
      when either row is a NaN row. */
  function Link(M: seq<seq<Complex>>, nan: seq<bool>, i: nat, k: nat, n: nat): (r: Option<real>)
    requires |nan| == |M| && i < |M| && k < |M| && n <= |M[i]| && n <= |M[k]|
    ensures r.None? <==> nan[i] || nan[k]
  {
    if nan[i] || nan[k] then None else Some(LinkValue(M, i, k, n))
  }

  /** The comparison x >= t on a double: false when x is NaN. */
  predicate AtLeast(x: Option<real>, t: real)
  {
    x.Some? && x.value >= t
  }

  /** How many of the first J neighbours of i are crystal links. */
  function LinkCount(M: seq<seq<Complex>>, nan: seq<bool>, ln: seq<seq<int>>, i: nat, J: nat,
                     linkval: real, l: nat): nat
    requires Shape(M, l) && |nan| == |M| && i < |M| && i < |ln| && J <= |ln[i]|
    requires forall j :: 0 <= j < J ==> 0 <= ln[i][j] < |M|
  {
    if J == 0 then 0
    else LinkCount(M, nan, ln, i, J - 1, linkval, l)
         + (if AtLeast(Link(M, nan, i, ln[i][J - 1], 2 * l + 1), linkval) then 1 else 0)
  }

  /** Particle i has at least nlinks neighbours and at least nlinks links. */
  predicate IsCrystal(M: seq<seq<Complex>>, nan: seq<bool>, nb: seq<int>, ln: seq<seq<int>>, nsurf: int,
                      nlinks: int, linkval: real, l: nat, i: nat)
    requires Shape(M, l) && |nan| == |M| && LinkData(nb, ln, |M|, nsurf, nlinks) && nsurf <= i < |M|
  {
    nb[i] >= nlinks && LinkCount(M, nan, ln, i, nb[i], linkval, l) >= nlinks
  }

  /** A NaN row forms no crystal link, whatever its neighbours hold. */
  lemma {:induction false} NanRowNoLinks(M: seq<seq<Complex>>, nan: seq<bool>, ln: seq<seq<int>>, i: nat,
                                         J: nat, linkval: real, l: nat)
    requires Shape(M, l) && |nan| == |M| && i < |M| && i < |ln| && J <= |ln[i]|
    requires forall j :: 0 <= j < J ==> 0 <= ln[i][j] < |M|
    requires nan[i]
    ensures LinkCount(M, nan, ln, i, J, linkval, l) == 0
  {
    if J > 0 {
      NanRowNoLinks(M, nan, ln, i, J - 1, linkval, l);
    }
  }

  /** A particle whose normalised row is NaN is never a crystal particle
      when at least one link is required. */
  lemma NanRowNotCrystal(M: seq<seq<Complex>>, nan: seq<bool>, nb: seq<int>, ln: seq<seq<int>>, nsurf: int,
                         nlinks: int, linkval: real, l: nat, i: nat)
    requires Shape(M, l) && |nan| == |M| && LinkData(nb, ln, |M|, nsurf, nlinks) && nsurf <= i < |M|
    requires nan[i] && nlinks >= 1
    ensures !IsCrystal(M, nan, nb, ln, nsurf, nlinks, linkval, l, i)
  {
    if nb[i] >= nlinks {
      NanRowNoLinks(M, nan, ln, i, nb[i], linkval, l);
    }
  }

  /** The crystal particles among nsurf..n-1, ascending. */
  function CrystalsUpTo(M: seq<seq<Complex>>, nan: seq<bool>, nb: seq<int>, ln: seq<seq<int>>, nsurf: int,
                        nlinks: int, linkval: real, l: nat, n: nat): (r: seq<int>)
    requires Shape(M, l) && |nan| == |M| && LinkData(nb, ln, |M|, nsurf, nlinks) && n <= |M|
    ensures forall x :: x in r <==> nsurf <= x < n && 0 <= x && IsCrystal(M, nan, nb, ln, nsurf, nlinks, linkval, l, x)
    ensures StrictlyAscending(r)
    ensures forall k :: 0 <= k < |r| ==> nsurf <= r[k] < n
  {
    if n == 0 || n - 1 < nsurf then []
    else
      var prev := CrystalsUpTo(M, nan, nb, ln, nsurf, nlinks, linkval, l, n - 1);
      if IsCrystal(M, nan, nb, ln, nsurf, nlinks, linkval, l, n - 1) then prev + [n - 1] else prev
  }

  function Crystals(M: seq<seq<Complex>>, nan: seq<bool>, nb: seq<int>, ln: seq<seq<int>>, nsurf: int,
                    nlinks: int, linkval: real, l: nat): seq<int>
    requires Shape(M, l) && |nan| == |M| && LinkData(nb, ln, |M|, nsurf, nlinks)
  {
    CrystalsUpTo(M, nan, nb, ln, nsurf, nlinks, linkval, l, |M|)
  }

  /** The dot product of rows i and k, summed over m in order; NaN (None)
      when either row is NaN. */
  method LinkValueOf(qlmt: array2<Complex>, nan: seq<bool>, i: nat, k: nat) returns (linval: Option<real>)
    requires |nan| == qlmt.Length0 && i < qlmt.Length0 && k < qlmt.Length0
    ensures linval == Link(Matrix(qlmt), nan, i, k, qlmt.Length1)
  {
    ghost var M := Matrix(qlmt);
    var sum := 0.0;
    var m := 0;
    while m != qlmt.Length1
      invariant 0 <= m <= qlmt.Length1
      invariant sum == LinkValue(M, i, k, m)
    {
      sum := sum + (qlmt[i, m].re * qlmt[k, m].re + qlmt[i, m].im * qlmt[k, m].im);
      m := m + 1;
    }
    linval := if nan[i] || nan[k] then None else Some(sum);
  }

  /** The number of links among the first numneigh[i] neighbours of i. */
  method CountLinks(qlmt: array2<Complex>, nan: seq<bool>, numneigh: array<int>, lneigh: array<seq<int>>,
                    nsurf: int, nlinks: int, linkval: real, lval: nat, i: nat) returns (nlin: int)
    requires qlmt.Length1 == 2 * lval + 1 && |nan| == qlmt.Length0
    requires LinkData(numneigh[..], lneigh[..], qlmt.Length0, nsurf, nlinks)
    requires nsurf <= i < qlmt.Length0 && numneigh[i] >= nlinks
    ensures Shape(Matrix(qlmt), lval)
    ensures nlin == LinkCount(Matrix(qlmt), nan, lneigh[..], i, numneigh[i], linkval, lval)
  {
    ghost var M := Matrix(qlmt);
    nlin := 0;
    var j := 0;
    while j != numneigh[i]
      invariant 0 <= j <= numneigh[i]
      invariant nlin == LinkCount(M, nan, lneigh[..], i, j, linkval, lval)
    {
      var linval := LinkValueOf(qlmt, nan, i, lneigh[i][j]);
      if AtLeast(linval, linkval) {
        nlin := nlin + 1;
      }
      j := j + 1;
    }
  }

  /** xtalpars: the particles i >= nsurf with at least nlinks neighbours of
      which at least nlinks are linked (dot product >= linkval). */
  method XtalPars(qlmt: array2<Complex>, nan: seq<bool>, numneigh: array<int>, lneigh: array<seq<int>>,
                  nsurf: int, nlinks: int, linkval: real, lval: nat) returns (xtals: seq<int>)
    requires qlmt.Length1 == 2 * lval + 1 && |nan| == qlmt.Length0
    requires 0 <= nsurf <= qlmt.Length0
    requires LinkData(numneigh[..], lneigh[..], qlmt.Length0, nsurf, nlinks)
    ensures Shape(Matrix(qlmt), lval)
    ensures StrictlyAscending(xtals)
    ensures forall k :: 0 <= k < |xtals| ==> nsurf <= xtals[k] < qlmt.Length0
    ensures xtals == Crystals(Matrix(qlmt), nan, numneigh[..], lneigh[..], nsurf, nlinks, linkval, lval)
  {
    ghost var M := Matrix(qlmt);
    assert Shape(M, lval);
    var npar := qlmt.Length0;
    xtals := [];
    var i := nsurf;
    while i != npar
      invariant nsurf <= i <= npar
      invariant xtals == CrystalsUpTo(M, nan, numneigh[..], lneigh[..], nsurf, nlinks, linkval, lval, i)
    {
      if numneigh[i] >= nlinks {
        var nlin := CountLinks(qlmt, nan, numneigh, lneigh, nsurf, nlinks, linkval, lval, i);
        if nlin >= nlinks {
          xtals := xtals + [i];
        }
      }
      i := i + 1;
    }
  }

  /** With nlinks = 0 every non-surface particle is crystal. */
  lemma {:induction false} NoLinksAllCrystal(M: seq<seq<Complex>>, nan: seq<bool>, nb: seq<int>, ln: seq<seq<int>>,
                                             nsurf: nat, linkval: real, l: nat, n: nat)
    requires Shape(M, l) && |nan| == |M| && LinkData(nb, ln, |M|, nsurf, 0) && nsurf <= n <= |M|
    requires forall i :: 0 <= i < |M| ==> nb[i] >= 0
    ensures CrystalsUpTo(M, nan, nb, ln, nsurf, 0, linkval, l, n) == seq(n - nsurf, k => nsurf + k)
  {
    if n > nsurf {
      NoLinksAllCrystal(M, nan, nb, ln, nsurf, linkval, l, n - 1);
      assert IsCrystal(M, nan, nb, ln, nsurf, 0, linkval, l, n - 1);
      var all := seq(n - nsurf, k => nsurf + k);
      assert all == seq(n - 1 - nsurf, k => nsurf + k) + [n - 1];
    }
  }

  // ---------------------------------------------------------------------
  // The group invariant Q

  /** Rows listed in p are rows of M, each with 2l+1 entries. */
  predicate ValidRows(M: seq<seq<Complex>>, p: seq<int>, l: nat)
  {
    Shape(M, l) && forall i :: 0 <= i < |p| ==> 0 <= p[i] < |M|
  }

  /** Sum of column m over the rows listed in p, in list order. */
  function ColSum(M: seq<seq<Complex>>, p: seq<int>, l: nat, m: nat): Complex
    requires ValidRows(M, p, l) && m < 2 * l + 1
  {
    if |p| == 0 then CZero else CAdd(ColSum(M, p[..|p| - 1], l, m), M[p[|p| - 1]][m])
  }

  /** The average of the rows listed in p (p non-empty). */
  function MeanRow(M: seq<seq<Complex>>, p: seq<int>, l: nat): (r: seq<Complex>)
    requires ValidRows(M, p, l) && |p| > 0
  {
    seq(2 * l + 1, m requires 0 <= m < 2 * l + 1 => CDiv(ColSum(M, p, l, m), |p| as real))
  }

  /** Q of the rows in p: sqrt(4 pi/(2l+1) * sum_m |mean_m|^2). An empty p
      gives 0/0, a NaN, here None. */
  function QValue(M: seq<seq<Complex>>, p: seq<int>, l: nat, an: Analytic): Option<real>
    requires ValidRows(M, p, l)
  {
    if |p| == 0 then None else Some(an.sqrt(QSquared(M, p, l, an)))
  }

  /** Q squared: 4 pi/(2l+1) times the squared norm of the mean row. */
  function QSquared(M: seq<seq<Complex>>, p: seq<int>, l: nat, an: Analytic): real
    requires ValidRows(M, p, l) && |p| > 0
  {
    NormSq(MeanRow(M, p, l)) * (4.0 * an.pi / ((2 * l + 1) as real))
  }

  /** Adds row r of the matrix to acc entry by entry. */
  method AddRowTo(acc: array<Complex>, qlmb: array2<Complex>, r: nat)
    requires r < qlmb.Length0 && acc.Length == qlmb.Length1
    modifies acc
    ensures forall m :: 0 <= m < acc.Length ==> acc[m] == CAdd(old(acc[m]), qlmb[r, m])
  {
    var m := 0;
    while m != acc.Length
      invariant 0 <= m <= acc.Length
      invariant forall m' :: 0 <= m' < m ==> acc[m'] == CAdd(old(acc[m']), qlmb[r, m'])
      invariant forall m' :: m <= m' < acc.Length ==> acc[m'] == old(acc[m'])
    {
      acc[m] := CAdd(acc[m], qlmb[r, m]);
      m := m + 1;
    }
  }

  /** Divides every entry of a by d in place. */
  method DivideAll(a: array<Complex>, d: real)
    requires d != 0.0
    modifies a
    ensures forall m :: 0 <= m < a.Length ==> a[m] == CDiv(old(a[m]), d)
  {
    var m := 0;
    while m != a.Length
      invariant 0 <= m <= a.Length
      invariant forall m' :: 0 <= m' < m ==> a[m'] == CDiv(old(a[m']), d)
      invariant forall m' :: m <= m' < a.Length ==> a[m'] == old(a[m'])
    {
      a[m] := CDiv(a[m], d);
      m := m + 1;
    }
  }

  /** The squared norm of a vector, summed left to right. */
  method VectorNormSq(a: array<Complex>) returns (s: real)
    ensures s == NormSq(a[..])
  {
    s := 0.0;
    var m := 0;
    while m != a.Length
      invariant 0 <= m <= a.Length
      invariant s == NormSq(a[..m])
    {
      NormSqPrefixStep(a[..], m);
      assert a[..][..m + 1] == a[..m + 1] && a[..][..m] == a[..m];
      s := s + CNorm(a[m]);
      m := m + 1;
    }
    assert a[..m] == a[..];
  }

  /** The first loop of Qpars: the column sums over the rows pnums. */
  method SumRows(qlmb: array2<Complex>, pnums: seq<int>, lval: nat) returns (qlmaverage: array<Complex>)
    requires qlmb.Length1 == 2 * lval + 1
    requires forall i :: 0 <= i < |pnums| ==> 0 <= pnums[i] < qlmb.Length0
    ensures fresh(qlmaverage) && qlmaverage.Length == 2 * lval + 1
    ensures ValidRows(Matrix(qlmb), pnums, lval)
    ensures forall m :: 0 <= m < 2 * lval + 1 ==> qlmaverage[m] == ColSum(Matrix(qlmb), pnums, lval, m)
  {
    ghost var M := Matrix(qlmb);
    var width := 2 * lval + 1;
    qlmaverage := new Complex[width](_ => CZero);
    var i := 0;
    while i != |pnums|
      invariant 0 <= i <= |pnums|
      invariant fresh(qlmaverage) && qlmaverage.Length == width
      invariant ValidRows(M, pnums[..i], lval)
      invariant forall m :: 0 <= m < width ==> qlmaverage[m] == ColSum(M, pnums[..i], lval, m)
    {
      AddRowTo(qlmaverage, qlmb, pnums[i]);
      assert pnums[..i + 1][..i] == pnums[..i];
      i := i + 1;
    }
    assert pnums[..i] == pnums;
  }

  /** Qpars: averages the rows pnums of the matrix, then forms Q. */
  method Qpars(qlmb: array2<Complex>, pnums: seq<int>, lval: nat, an: Analytic) returns (q: Option<real>)
    requires qlmb.Length1 == 2 * lval + 1
    requires forall i :: 0 <= i < |pnums| ==> 0 <= pnums[i] < qlmb.Length0
    ensures ValidRows(Matrix(qlmb), pnums, lval)
    ensures q == QValue(Matrix(qlmb), pnums, lval, an)
    ensures q.None? <==> |pnums| == 0
  {
    ghost var M := Matrix(qlmb);
    var qlmaverage := SumRows(qlmb, pnums, lval);
    if |pnums| == 0 {
      // every entry of the average is 0/0
      q := None;
    } else {
      DivideAll(qlmaverage, |pnums| as real);
      assert qlmaverage[..] == MeanRow(M, pnums, lval);
      var qvalue := VectorNormSq(qlmaverage);
      qvalue := qvalue * (4.0 * an.pi / ((2 * lval + 1) as real));
      assert qvalue == QSquared(M, pnums, lval, an);
      q := Some(an.sqrt(qvalue));
    }
  }

  lemma {:induction false} ColSumAppend(M: seq<seq<Complex>>, a: seq<int>, b: seq<int>, l: nat, m: nat)
    requires ValidRows(M, a, l) && ValidRows(M, b, l) && m < 2 * l + 1
    ensures ValidRows(M, a + b, l)
    ensures ColSum(M, a + b, l, m) == CAdd(ColSum(M, a, l, m), ColSum(M, b, l, m))
    decreases |b|
  {
    if |b| == 0 {
      assert a + b == a;
    } else {
      var n := |b| - 1;
      var ab := a + b;
      assert ab[..|ab| - 1] == a + b[..n] && ab[|ab| - 1] == b[n];
      ColSumAppend(M, a, b[..n], l, m);
      assert ColSum(M, ab, l, m) == CAdd(ColSum(M, a + b[..n], l, m), M[b[n]][m]);
      assert ColSum(M, b, l, m) == CAdd(ColSum(M, b[..n], l, m), M[b[n]][m]);
    }
  }

  /** Moving row q[j] to the end of the list does not change the column sum. */
  lemma {:induction false} ColSumRemoveAt(M: seq<seq<Complex>>, q: seq<int>, l: nat, m: nat, j: nat)
    requires ValidRows(M, q, l) && m < 2 * l + 1 && j < |q|
    ensures ValidRows(M, q[..j] + q[j + 1..], l)
    ensures ColSum(M, q, l, m) == CAdd(ColSum(M, q[..j] + q[j + 1..], l, m), M[q[j]][m])
  {
    var a, x, c := q[..j], q[j], q[j + 1..];
    assert q == a + ([x] + c);
    ColSumAppend(M, a, [x] + c, l, m);
    ColSumAppend(M, [x], c, l, m);
    ColSumAppend(M, a, c, l, m);
    assert ([x] + c)[..0] == [] && [x][..0] == [];
  }

  /** The column sums do not depend on the order in which the rows are listed. */
  lemma {:induction false} ColSumPermutation(M: seq<seq<Complex>>, p: seq<int>, q: seq<int>, l: nat, m: nat)
    requires ValidRows(M, p, l) && ValidRows(M, q, l) && m < 2 * l + 1
    requires multiset(p) == multiset(q)
    ensures ColSum(M, p, l, m) == ColSum(M, q, l, m)
    decreases |p|
  {
    if |p| == 0 {
      assert |q| == |multiset(q)| == 0;
    } else {
      var n := |p| - 1;
      var x := p[n];
      assert p == p[..n] + [x];
      assert multiset(p[..n]) == multiset(p) - multiset{x};
      assert x in multiset(q);
      var j :| 0 <= j < |q| && q[j] == x;
      MultisetRemoveAt(q, j);
      ColSumRemoveAt(M, q, l, m, j);
      ColSumPermutation(M, p[..n], q[..j] + q[j + 1..], l, m);
    }
  }

  /** Q of a group is independent of the order in which it is listed. */
  lemma {:induction false} QValuePermutation(M: seq<seq<Complex>>, p: seq<int>, q: seq<int>, l: nat, an: Analytic)
    requires ValidRows(M, p, l) && multiset(p) == multiset(q)
    ensures ValidRows(M, q, l)
    ensures QValue(M, p, l, an) == QValue(M, q, l, an)
  {
    forall i | 0 <= i < |q| ensures 0 <= q[i] < |M| {
      assert q[i] in multiset(p);
    }
    assert ValidRows(M, q, l) && ValidRows(M, p, l);
    assert |p| == |multiset(p)| == |multiset(q)| == |q|;
    if |p| > 0 {
      forall m | 0 <= m < 2 * l + 1 ensures ColSum(M, p, l, m) == ColSum(M, q, l, m) {
        ColSumPermutation(M, p, q, l, m);
      }
      assert MeanRow(M, p, l) == MeanRow(M, q, l);
      assert QSquared(M, p, l, an) == QSquared(M, q, l, an);
    } else {
      assert q == [];
    }
  }
}
