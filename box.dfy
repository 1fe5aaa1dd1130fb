/** The simulation box and its periodic boundary conditions: minimum-image
    separations, the neighbour test and the position check. */
module PeriodicBox {
  import opened Base

  /** Box lengths, the neighbour separation nsep with its cached square, and
      whether z is periodic (x and y always are). */
  datatype Box = Box(lboxx: real, lboxy: real, lboxz: real, nsep: real, nsepsq: real, periodicz: bool)

  /** The constructor Box(lx, ly, lz, ns = 1.5, pz = false). */
  function MakeBox(lx: real, ly: real, lz: real, ns: real := 1.5, pz: bool := false): (b: Box)
    ensures b.lboxx == lx && b.lboxy == ly && b.lboxz == lz && b.periodicz == pz
    ensures b.nsep == ns && b.nsepsq == ns * ns
  {
    Box(lx, ly, lz, ns, ns * ns, pz)
  }

  /** Positive box lengths, and a cached square that agrees with nsep (the
      constructor guarantees the latter; the former is a configuration
      requirement). */
  predicate Valid(b: Box)
  {
    b.lboxx > 0.0 && b.lboxy > 0.0 && b.lboxz > 0.0 && b.nsepsq == b.nsep * b.nsep
  }

  function Abs(x: real): real { if x < 0.0 then -x else x }

  /** One minimum-image wrap of a raw difference d on an axis of length L:
      shifted by one box length when it lies strictly beyond half a box. */
  function MinImage(d: real, L: real): (r: real)
    ensures r == d || r == d - L || r == d + L
    ensures -(0.5 * L) <= d <= 0.5 * L ==> r == d
    ensures 0.0 < L && -(1.5 * L) <= d <= 1.5 * L ==> -(0.5 * L) <= r <= 0.5 * L
  {
    if d > 0.5 * L then d - L
    else if d < -(0.5 * L) then d + L
    else d
  }

  /** Separation p1 - p2 modulo the periodic boundaries; z is wrapped only
      when the box is periodic in z. */
  function Sep(b: Box, p1: Particle, p2: Particle): Vec3
  {
    Vec3(MinImage(p1.pos.x - p2.pos.x, b.lboxx),
         MinImage(p1.pos.y - p2.pos.y, b.lboxy),
         if b.periodicz then MinImage(p1.pos.z - p2.pos.z, b.lboxz)
         else p1.pos.z - p2.pos.z)
  }

  function SumSq(s: Vec3): real { s.x * s.x + s.y * s.y + s.z * s.z }

  /** Square of the minimum-image separation. */
  function SepSq(b: Box, p1: Particle, p2: Particle): (r: real)
    ensures r >= 0.0
    ensures r == SumSq(Sep(b, p1, p2))
  {
    var s := Sep(b, p1, p2);
    s.x * s.x + s.y * s.y + s.z * s.z
  }

  /** The cheap pre-filter: every component strictly inside nsep. */
  predicate BoxFilter(b: Box, s: Vec3)
  {
    Abs(s.x) < b.nsep && Abs(s.y) < b.nsep && Abs(s.z) < b.nsep
  }

  /** The two-stage neighbour test on a separation. */
  predicate IsNeighbour(b: Box, s: Vec3)
  {
    BoxFilter(b, s) && SumSq(s) < b.nsepsq
  }

  /** Box::sep: writes the separation into the caller's three-element buffer. */
  method SepInto(b: Box, p1: Particle, p2: Particle, s: array<real>)
    requires s.Length == 3
    modifies s
    ensures s[0] == Sep(b, p1, p2).x && s[1] == Sep(b, p1, p2).y && s[2] == Sep(b, p1, p2).z
  {
    var sepx := p1.pos.x - p2.pos.x;
    var sepy := p1.pos.y - p2.pos.y;
    var sepz := p1.pos.z - p2.pos.z;
    if sepx > 0.5 * b.lboxx {
      sepx := sepx - b.lboxx;
    } else if sepx < -(0.5 * b.lboxx) {
      sepx := sepx + b.lboxx;
    }
    if sepy > 0.5 * b.lboxy {
      sepy := sepy - b.lboxy;
    } else if sepy < -(0.5 * b.lboxy) {
      sepy := sepy + b.lboxy;
    }
    if b.periodicz {
      if sepz > 0.5 * b.lboxz {
        sepz := sepz - b.lboxz;
      } else if sepz < -(0.5 * b.lboxz) {
        sepz := sepz + b.lboxz;
      }
    }
    s[0] := sepx;
    s[1] := sepy;
    s[2] := sepz;
  }

  /** Box::isneigh(double* s, double& rsq): rsq is written only when the
      pre-filter passes; otherwise the caller's value rsq0 is kept. */
  method IsNeighSep(b: Box, s: array<real>, rsq0: real) returns (nb: bool, rsq: real)
    requires s.Length == 3
    ensures nb <==> IsNeighbour(b, Vec3(s[0], s[1], s[2]))
    ensures BoxFilter(b, Vec3(s[0], s[1], s[2])) ==> rsq == SumSq(Vec3(s[0], s[1], s[2]))
    ensures !BoxFilter(b, Vec3(s[0], s[1], s[2])) ==> rsq == rsq0
  {
    rsq := rsq0;
    nb := false;
    if Abs(s[0]) < b.nsep && Abs(s[1]) < b.nsep && Abs(s[2]) < b.nsep {
      rsq := s[0] * s[0] + s[1] * s[1] + s[2] * s[2];
      if rsq < b.nsepsq {
        nb := true;
      }
    }
  }

  /** Box::isneigh(p1, p2, rsq): the same test on the separation of two particles. */
  method IsNeigh(b: Box, p1: Particle, p2: Particle, rsq0: real) returns (nb: bool, rsq: real)
    ensures nb <==> IsNeighbour(b, Sep(b, p1, p2))
    ensures nb ==> rsq == SepSq(b, p1, p2)
    ensures !BoxFilter(b, Sep(b, p1, p2)) ==> rsq == rsq0
  {
    var s := new real[3];
    SepInto(b, p1, p2, s);
    nb, rsq := IsNeighSep(b, s, rsq0);
  }

  /** One wrap of a coordinate into [0, L] as Box::posvalid does it. */
  function Wrap(v: real, L: real): (r: real)
    ensures r == v || r == v + L || r == v - L
    ensures 0.0 <= v <= L ==> r == v
    ensures 0.0 < L && -L <= v <= 2.0 * L ==> 0.0 <= r <= L
  {
    if v < 0.0 then v + L else if v > L then v - L else v
  }

  /** Box::posvalid: rejects (and leaves untouched) a position whose z lies
      outside [0, lz] in a box that is not periodic in z; otherwise wraps
      each periodic coordinate once and accepts. */
  method PosValid(b: Box, pos: array<real>) returns (ok: bool)
    requires pos.Length == 3
    modifies pos
    ensures !b.periodicz && (old(pos[2]) > b.lboxz || old(pos[2]) < 0.0) ==>
              !ok && pos[..] == old(pos[..])
    ensures b.periodicz || 0.0 <= old(pos[2]) <= b.lboxz ==>
              ok && pos[0] == Wrap(old(pos[0]), b.lboxx) && pos[1] == Wrap(old(pos[1]), b.lboxy)
              && pos[2] == (if b.periodicz then Wrap(old(pos[2]), b.lboxz) else old(pos[2]))
  {
    if b.periodicz {
      if pos[2] < 0.0 {
        pos[2] := pos[2] + b.lboxz;
      } else if pos[2] > b.lboxz {
        pos[2] := pos[2] - b.lboxz;
      }
    } else {
      if pos[2] > b.lboxz || pos[2] < 0.0 {
        return false;
      }
    }
    if pos[0] < 0.0 {
      pos[0] := pos[0] + b.lboxx;
    } else if pos[0] > b.lboxx {
      pos[0] := pos[0] - b.lboxx;
    }
    if pos[1] < 0.0 {
      pos[1] := pos[1] + b.lboxy;
    } else if pos[1] > b.lboxy {
      pos[1] := pos[1] - b.lboxy;
    }
    ok := true;
  }

  // ---------------------------------------------------------------------
  // Laws of the periodic geometry

  /** The wrap is odd: it commutes with negation, including at exactly L/2. */
  lemma MinImageOdd(d: real, L: real)
    requires L >= 0.0
    ensures MinImage(-d, L) == -MinImage(d, L)
  {
  }

  /** Re-wrapping an already wrapped difference changes nothing. */
  lemma MinImageIdempotent(d: real, L: real)
    requires 0.0 < L && -(1.5 * L) <= d <= 1.5 * L
    ensures MinImage(MinImage(d, L), L) == MinImage(d, L)
  {
  }

  /** sep(p1, p2) == -sep(p2, p1), component by component. */
  lemma {:induction false} SepAntisymmetric(b: Box, p1: Particle, p2: Particle)
    requires Valid(b)
    ensures Sep(b, p1, p2) == Neg(Sep(b, p2, p1))
  {
    MinImageOdd(p2.pos.x - p1.pos.x, b.lboxx);
    MinImageOdd(p2.pos.y - p1.pos.y, b.lboxy);
    MinImageOdd(p2.pos.z - p1.pos.z, b.lboxz);
    assert p1.pos.x - p2.pos.x == -(p2.pos.x - p1.pos.x);
    assert p1.pos.y - p2.pos.y == -(p2.pos.y - p1.pos.y);
    assert p1.pos.z - p2.pos.z == -(p2.pos.z - p1.pos.z);
  }

  /** Periodic components lie in [-L/2, L/2] when the raw difference is
      within one and a half box lengths; a non-periodic z is the raw difference. */
  lemma SepBounds(b: Box, p1: Particle, p2: Particle)
    requires 0.0 < b.lboxx && 0.0 < b.lboxy
    requires Abs(p1.pos.x - p2.pos.x) <= 1.5 * b.lboxx
    requires Abs(p1.pos.y - p2.pos.y) <= 1.5 * b.lboxy
    ensures Abs(Sep(b, p1, p2).x) <= 0.5 * b.lboxx
    ensures Abs(Sep(b, p1, p2).y) <= 0.5 * b.lboxy
    ensures !b.periodicz ==> Sep(b, p1, p2).z == p1.pos.z - p2.pos.z
  {
  }

  lemma SquareMonotone(a: real, n: real)
    requires 0.0 <= n <= a
    ensures n * n <= a * a
  {
    assert a * a - n * n == (a - n) * (a + n);
    assert (a - n) * (a + n) >= 0.0;
  }

  /** A component whose square is below n * n lies strictly inside n. */
  lemma AbsBelow(a: real, n: real)
    requires n >= 0.0 && a * a < n * n
    ensures Abs(a) < n
  {
    var m := Abs(a);
    assert m * m == a * a;
    if m >= n {
      SquareMonotone(m, n);
    }
  }

  /** Over the reals the pre-filter is implied by the sphere test, so the
      neighbour test is the sphere test alone. */
  lemma {:induction false} NeighbourIsSphereTest(b: Box, s: Vec3)
    requires Valid(b) && b.nsep >= 0.0
    ensures IsNeighbour(b, s) <==> SumSq(s) < b.nsepsq
  {
    if SumSq(s) < b.nsepsq {
      assert s.x * s.x >= 0.0 && s.y * s.y >= 0.0 && s.z * s.z >= 0.0;
      AbsBelow(s.x, b.nsep);
      AbsBelow(s.y, b.nsep);
      AbsBelow(s.z, b.nsep);
    }
  }

  /** The neighbour relation on particles is symmetric. */
  lemma {:induction false} NeighbourSymmetric(b: Box, p1: Particle, p2: Particle)
    requires Valid(b)
    ensures IsNeighbour(b, Sep(b, p1, p2)) <==> IsNeighbour(b, Sep(b, p2, p1))
  {
    SepAntisymmetric(b, p1, p2);
    var s := Sep(b, p2, p1);
    assert SumSq(Neg(s)) == SumSq(s);
  }

  /** Two particles one unit apart along x, with nsep = 1.5, are neighbours at
      squared distance 1. */
  lemma UnitPairAreNeighbours(lx: real, ly: real, lz: real)
    requires lx > 2.0 && ly > 0.0 && lz > 0.0
    ensures var b := MakeBox(lx, ly, lz, 1.5, false);
            var p1 := Particle(Vec3(0.0, 0.0, 0.0), Origin, 1.0, 0, 'S');
            var p2 := Particle(Vec3(1.0, 0.0, 0.0), Origin, 1.0, 0, 'S');
            IsNeighbour(b, Sep(b, p1, p2)) && SepSq(b, p1, p2) == 1.0
  {
  }
}
