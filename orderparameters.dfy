/** Small measures of a cluster given as a list of particle indices: the
    fraction of its particles carrying a given label, and its size under the
    two cluster definitions. */
module OrderParameters {
  import opened Base

  /** Every entry of cnums is a valid index into pclass. */
  predicate IndexesLabels<T>(pclass: seq<T>, cnums: seq<int>)
  {
    forall i :: 0 <= i < |cnums| ==> 0 <= cnums[i] < |pclass|
  }

  /** How many entries of cnums index a particle labelled plabel; an index
      listed twice is counted twice. */
  function LabelCount<T(==)>(pclass: seq<T>, cnums: seq<int>, plabel: T): (n: nat)
    requires IndexesLabels(pclass, cnums)
    ensures n <= |cnums|
  {
    if |cnums| == 0 then 0
    else LabelCount(pclass, cnums[..|cnums| - 1], plabel)
         + (if pclass[cnums[|cnums| - 1]] == plabel then 1 else 0)
  }

  /** The labelled fraction; an empty cluster gives 0/0, a NaN, here None. */
  function Fraction<T(==)>(pclass: seq<T>, cnums: seq<int>, plabel: T): (r: Option<real>)
    requires IndexesLabels(pclass, cnums)
    ensures r.None? <==> |cnums| == 0
  {
    if |cnums| == 0 then None
    else Some(LabelCount(pclass, cnums, plabel) as real / |cnums| as real)
  }

  /** parfrac: counts the listed particles that carry plabel and divides by
      the length of the list. */
  method Parfrac<T(==)>(pclass: seq<T>, cnums: seq<int>, plabel: T) returns (r: Option<real>)
    requires IndexesLabels(pclass, cnums)
    ensures r == Fraction(pclass, cnums, plabel)
  {
    var num := 0;
    var i := 0;
    while i != |cnums|
      invariant 0 <= i <= |cnums|
      invariant num == LabelCount(pclass, cnums[..i], plabel)
    {
      assert cnums[..i + 1][..i] == cnums[..i];
      if pclass[cnums[i]] == plabel {
        num := num + 1;
      }
      i := i + 1;
    }
    assert cnums[..i] == cnums;
    if |cnums| == 0 {
      r := None;
    } else {
      r := Some(num as real / |cnums| as real);
    }
  }

  /** A non-empty cluster has a labelled fraction between 0 and 1. */
  lemma FractionInUnitInterval<T>(pclass: seq<T>, cnums: seq<int>, plabel: T)
    requires IndexesLabels(pclass, cnums) && |cnums| > 0
    ensures 0.0 <= Fraction(pclass, cnums, plabel).value <= 1.0
  {
    var c, n := LabelCount(pclass, cnums, plabel) as real, |cnums| as real;
    assert c <= n;
    assert c / n <= n / n;
  }

  /** Counting a concatenation counts each part: duplicates are counted as
      often as they are listed. */
  lemma {:induction false} LabelCountAppend<T>(pclass: seq<T>, a: seq<int>, b: seq<int>, plabel: T)
    requires IndexesLabels(pclass, a) && IndexesLabels(pclass, b)
    ensures IndexesLabels(pclass, a + b)
    ensures LabelCount(pclass, a + b, plabel) == LabelCount(pclass, a, plabel) + LabelCount(pclass, b, plabel)
    decreases |b|
  {
    if |b| == 0 {
      assert a + b == a;
    } else {
      var n := |b| - 1;
      assert (a + b)[..|a + b| - 1] == a + b[..n];
      LabelCountAppend(pclass, a, b[..n], plabel);
    }
  }

  /** Taking entry j out of the list takes its contribution out of the count. */
  lemma LabelCountRemoveAt<T>(pclass: seq<T>, q: seq<int>, j: nat, plabel: T)
    requires IndexesLabels(pclass, q) && j < |q|
    ensures IndexesLabels(pclass, q[..j] + q[j + 1..])
    ensures LabelCount(pclass, q, plabel)
            == LabelCount(pclass, q[..j] + q[j + 1..], plabel) + (if pclass[q[j]] == plabel then 1 else 0)
  {
    var a, x, c := q[..j], q[j], q[j + 1..];
    assert q == a + ([x] + c);
    LabelCountAppend(pclass, a, [x] + c, plabel);
    LabelCountAppend(pclass, [x], c, plabel);
    LabelCountAppend(pclass, a, c, plabel);
    assert ([x] + c)[..0] == [] && [x][..0] == [];
  }

  /** The count does not depend on the order of the list. */
  lemma {:induction false} LabelCountPermutation<T>(pclass: seq<T>, p: seq<int>, q: seq<int>, plabel: T)
    requires IndexesLabels(pclass, p) && IndexesLabels(pclass, q)
    requires multiset(p) == multiset(q)
    ensures LabelCount(pclass, p, plabel) == LabelCount(pclass, q, plabel)
    decreases |p|
  {
    if |p| == 0 {
      assert |q| == |multiset(q)| == 0;
    } else {
      var n := |p| - 1;
      var x := p[n];
      MultisetRemoveAt(p, n);
      assert p[..n] + p[n + 1..] == p[..n];
      assert x in multiset(q);
      var j :| 0 <= j < |q| && q[j] == x;
      var rest := q[..j] + q[j + 1..];
      MultisetRemoveAt(q, j);
      LabelCountRemoveAt(pclass, q, j, plabel);
      LabelCountPermutation(pclass, p[..n], rest, plabel);
    }
  }

  /** The labelled fraction does not depend on the order of the list. */
  lemma FractionPermutation<T>(pclass: seq<T>, p: seq<int>, q: seq<int>, plabel: T)
    requires IndexesLabels(pclass, p) && IndexesLabels(pclass, q)
    requires multiset(p) == multiset(q)
    ensures Fraction(pclass, p, plabel) == Fraction(pclass, q, plabel)
  {
    assert |p| == |multiset(p)| == |multiset(q)| == |q|;
    LabelCountPermutation(pclass, p, q, plabel);
  }

  /** csizeld: the size of a cluster found by the Lechner-Dellago method. */
  function CSizeLD(ldcnums: seq<int>): (n: int)
    ensures n >= 0 && n == |ldcnums|
  {
    |ldcnums|
  }

  /** csizetf: the size of a cluster found by the ten Wolde-Frenkel method. */
  function CSizeTF(tfcnums: seq<int>): (n: int)
    ensures n >= 0 && n == |tfcnums|
  {
    |tfcnums|
  }

  /** The two sizes agree, and only the length of the list matters. */
  lemma CSizesAgree(a: seq<int>, b: seq<int>)
    requires |a| == |b|
    ensures CSizeLD(a) == CSizeTF(a) == CSizeLD(b) == CSizeTF(b)
  {
  }
}
