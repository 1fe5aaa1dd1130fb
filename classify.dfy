/** The per-particle structure decision of the analysis driver: a
    non-surface particle is solid when its averaged q6 exceeds 0.3, and a
    solid particle is bcc, hcp or fcc by the signs of its averaged w6 and
    w4; the driver counts each kind. */
module Classification {

  datatype Structure = Bcc | Hcp | Fcc | Liquid

  /** The threshold on the averaged q6 above which a particle is solid. */
  const SolidThreshold: real := 0.3

  /** The decision tree for one particle. */
  function Classify(q6bar: real, w6bar: real, w4bar: real): (s: Structure)
    ensures s != Liquid <==> q6bar > SolidThreshold
    ensures s == Bcc <==> q6bar > SolidThreshold && w6bar > 0.0
    ensures s == Hcp <==> q6bar > SolidThreshold && w6bar <= 0.0 && w4bar > 0.0
    ensures s == Fcc <==> q6bar > SolidThreshold && w6bar <= 0.0 && w4bar <= 0.0
  {
    if q6bar > SolidThreshold then
      if w6bar > 0.0 then Bcc
      else if w4bar > 0.0 then Hcp
      else Fcc
    else Liquid
  }

  /** The four counters nbcc, nhcp, nfcc, nliq. */
  datatype Counts = Counts(nbcc: int, nhcp: int, nfcc: int, nliq: int)

  function Total(c: Counts): int { c.nbcc + c.nhcp + c.nfcc + c.nliq }

  /** The counters with the one for s raised by one. */
  function Bump(c: Counts, s: Structure): (r: Counts)
    ensures Total(r) == Total(c) + 1
  {
    match s
    case Bcc => c.(nbcc := c.nbcc + 1)
    case Hcp => c.(nhcp := c.nhcp + 1)
    case Fcc => c.(nfcc := c.nfcc + 1)
    case Liquid => c.(nliq := c.nliq + 1)
  }

  /** The per-particle data the decision reads: q6bar and w6bar from the
      l = 6 store, w4bar from the l = 4 store. */
  predicate DataCovers(q6bar: seq<real>, w6bar: seq<real>, w4bar: seq<real>, n: nat)
  {
    |q6bar| >= n && |w6bar| >= n && |w4bar| >= n
  }

  /** The counters after particles 0..n-1, surface particles skipped. */
  function Tally(q6bar: seq<real>, w6bar: seq<real>, w4bar: seq<real>, nsurf: int, n: nat): Counts
    requires DataCovers(q6bar, w6bar, w4bar, n)
  {
    if n == 0 then Counts(0, 0, 0, 0)
    else
      var c := Tally(q6bar, w6bar, w4bar, nsurf, n - 1);
      if n - 1 >= nsurf then Bump(c, Classify(q6bar[n - 1], w6bar[n - 1], w4bar[n - 1])) else c
  }

  /** The counting loop: every particle at or after nsurf raises exactly one
      counter, chosen by the decision tree. */
  method CountStructures(q6bar: seq<real>, w6bar: seq<real>, w4bar: seq<real>, nsurf: int, npar: nat)
    returns (nbcc: int, nhcp: int, nfcc: int, nliq: int)
    requires DataCovers(q6bar, w6bar, w4bar, npar)
    ensures Counts(nbcc, nhcp, nfcc, nliq) == Tally(q6bar, w6bar, w4bar, nsurf, npar)
  {
    nbcc, nhcp, nfcc, nliq := 0, 0, 0, 0;
    var i := 0;
    while i != npar
      invariant 0 <= i <= npar
      invariant Counts(nbcc, nhcp, nfcc, nliq) == Tally(q6bar, w6bar, w4bar, nsurf, i)
    {
      if i >= nsurf {
        if q6bar[i] > 0.3 {
          if w6bar[i] > 0.0 {
            nbcc := nbcc + 1;
          } else {
            if w4bar[i] > 0.0 {
              nhcp := nhcp + 1;
            } else {
              nfcc := nfcc + 1;
            }
          }
        } else {
          nliq := nliq + 1;
        }
      }
      i := i + 1;
    }
  }

  /** The counters add up to the number of non-surface particles among the
      first n: n - nsurf when 0 <= nsurf <= n. */
  lemma {:induction false} TallyTotal(q6bar: seq<real>, w6bar: seq<real>, w4bar: seq<real>, nsurf: int, n: nat)
    requires DataCovers(q6bar, w6bar, w4bar, n)
    ensures Total(Tally(q6bar, w6bar, w4bar, nsurf, n))
            == if nsurf <= 0 then n else if nsurf >= n then 0 else n - nsurf
  {
    if n > 0 {
      TallyTotal(q6bar, w6bar, w4bar, nsurf, n - 1);
    }
  }

  /** Surface particles raise no counter: before nsurf all counters are 0. */
  lemma {:induction false} SurfaceUncounted(q6bar: seq<real>, w6bar: seq<real>, w4bar: seq<real>, nsurf: int, n: nat)
    requires DataCovers(q6bar, w6bar, w4bar, n) && n <= nsurf
    ensures Tally(q6bar, w6bar, w4bar, nsurf, n) == Counts(0, 0, 0, 0)
  {
    if n > 0 {
      SurfaceUncounted(q6bar, w6bar, w4bar, nsurf, n - 1);
    }
  }

  /** No counter of a is above the same counter of b. */
  predicate NoneLower(a: Counts, b: Counts)
  {
    a.nbcc <= b.nbcc && a.nhcp <= b.nhcp && a.nfcc <= b.nfcc && a.nliq <= b.nliq
  }

  /** The counters never decrease from one particle to the next, and they
      are never negative. */
  lemma {:induction false} TallyMonotone(q6bar: seq<real>, w6bar: seq<real>, w4bar: seq<real>, nsurf: int, n: nat)
    requires DataCovers(q6bar, w6bar, w4bar, n + 1)
    ensures NoneLower(Counts(0, 0, 0, 0), Tally(q6bar, w6bar, w4bar, nsurf, n))
    ensures NoneLower(Tally(q6bar, w6bar, w4bar, nsurf, n), Tally(q6bar, w6bar, w4bar, nsurf, n + 1))
    decreases n
  {
    var a := Tally(q6bar, w6bar, w4bar, nsurf, n);
    if n > 0 {
      TallyMonotone(q6bar, w6bar, w4bar, nsurf, n - 1);
    }
    if n >= nsurf {
      var s := Classify(q6bar[n], w6bar[n], w4bar[n]);
      assert Tally(q6bar, w6bar, w4bar, nsurf, n + 1) == Bump(a, s);
    }
  }

  /** nliq counts exactly the non-surface particles whose averaged q6 is at
      most 0.3. */
  function LiquidCount(q6bar: seq<real>, nsurf: int, n: nat): nat
    requires |q6bar| >= n
  {
    if n == 0 then 0
    else LiquidCount(q6bar, nsurf, n - 1) + (if n - 1 >= nsurf && q6bar[n - 1] <= SolidThreshold then 1 else 0)
  }

  lemma {:induction false} LiquidCounted(q6bar: seq<real>, w6bar: seq<real>, w4bar: seq<real>, nsurf: int, n: nat)
    requires DataCovers(q6bar, w6bar, w4bar, n)
    ensures Tally(q6bar, w6bar, w4bar, nsurf, n).nliq == LiquidCount(q6bar, nsurf, n)
  {
    if n > 0 {
      LiquidCounted(q6bar, w6bar, w4bar, nsurf, n - 1);
    }
  }
}
