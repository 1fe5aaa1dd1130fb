/** Values shared by every stage of the pipeline: positions, particles,
    complex numbers, and the transcendental functions the analysis treats
    as given. */
module Base {

  /** A result that may be missing. In this model `None` stands either for a
      floating-point NaN produced by a 0/0 in the source, or for a value the
      source would read out of bounds; each use says which. */
  datatype Option<T> = None | Some(value: T)

  /** A point or a separation in three dimensions. */
  datatype Vec3 = Vec3(x: real, y: real, z: real)

  function Coord(v: Vec3, j: nat): real
    requires j < 3
  {
    if j == 0 then v.x else if j == 1 then v.y else v.z
  }

  function Plus(a: Vec3, b: Vec3): Vec3 { Vec3(a.x + b.x, a.y + b.y, a.z + b.z) }

  function Minus(a: Vec3, b: Vec3): Vec3 { Vec3(a.x - b.x, a.y - b.y, a.z - b.z) }

  function Neg(a: Vec3): Vec3 { Vec3(-a.x, -a.y, -a.z) }

  const Origin := Vec3(0.0, 0.0, 0.0)

  /** The particle record: position, velocity, mass, an integer type tag
      and a display symbol. The analysis reads only the position. */
  datatype Particle = Particle(pos: Vec3, vel: Vec3, mass: real, ptype: int, symbol: char)

  /** A value-initialised particle (every number zero, symbol NUL). */
  const ZeroParticle := Particle(Origin, Origin, 0.0, 0, 0 as char)

  datatype Complex = Complex(re: real, im: real)

  const CZero := Complex(0.0, 0.0)

  function CAdd(a: Complex, b: Complex): Complex { Complex(a.re + b.re, a.im + b.im) }

  /** Division of a complex number by a non-zero real. */
  function CDiv(a: Complex, d: real): Complex
    requires d != 0.0
  {
    Complex(a.re / d, a.im / d)
  }

  /** std::norm: the squared modulus. */
  function CNorm(a: Complex): real { a.re * a.re + a.im * a.im }

  /** The functions the source takes from floating-point libraries or from
      files that are not part of this model:
      - ylm(l, m, s): the spherical harmonic Y_{l,m} evaluated at the polar
        and azimuthal angles of the separation vector s;
      - sqrt: the square root;
      - pi: the constant PI;
      - qls, wls: the per-particle invariants ql and wl of a matrix of rows. */
  datatype Analytic = Analytic(
    ylm: (int, int, Vec3) -> Complex,
    sqrt: real -> real,
    pi: real,
    qls: seq<seq<Complex>> -> seq<real>,
    wls: seq<seq<Complex>> -> seq<real>)

  /** True of a sequence of indices that is strictly ascending. */
  predicate StrictlyAscending(s: seq<int>)
  {
    forall i, j :: 0 <= i < j < |s| ==> s[i] < s[j]
  }

  /** A strictly ascending list drawn from lo..hi-1 has at most hi - lo
      entries. */
  lemma {:induction false} AscendingWithin(s: seq<int>, lo: int, hi: int)
    requires StrictlyAscending(s) && forall x :: x in s ==> lo <= x < hi
    ensures |s| <= if lo <= hi then hi - lo else 0
  {
    if |s| > 0 {
      var last := s[|s| - 1];
      assert last in s;
      var init := s[..|s| - 1];
      forall x | x in init ensures lo <= x < last {
        var k :| 0 <= k < |init| && init[k] == x;
        assert s[k] == x && s[k] < s[|s| - 1] && x in s;
      }
      AscendingWithin(init, lo, last);
    }
  }

  /** Taking entry j out of a list takes one copy of it out of its multiset. */
  lemma MultisetRemoveAt(q: seq<int>, j: nat)
    requires j < |q|
    ensures multiset(q[..j] + q[j + 1..]) == multiset(q) - multiset{q[j]}
  {
    assert q == q[..j] + [q[j]] + q[j + 1..];
  }
}
