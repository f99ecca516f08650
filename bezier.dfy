/** The exact combinatorial part of the degree-11 swing curve: the
    factorial lookup table, the binomial coefficients drawn from it, the
    Bernstein weights and the weighted sum over the 12 control points. */
module Bezier {

  /** Number of control points, and the curve's degree n = 11. */
  const ControlPointCount: nat := 12
  const Degree: nat := 11

  /** The factorial lookup table, indices 0..12. */
  const FactorialTable: seq<real> :=
    [1.0, 1.0, 2.0, 6.0, 24.0, 120.0, 720.0, 5040.0, 40320.0,
     362880.0, 3628800.0, 39916800.0, 479001600.0]

  function Fact(k: nat): (r: nat)
    ensures r >= 1
  {
    if k == 0 then 1 else k * Fact(k - 1)
  }

  /** Binomial coefficients by Pascal's rule: a definition independent of
      factorials, against which the table's quotient is checked. */
  function Choose(n: nat, k: nat): (c: nat)
    requires k <= n
  {
    if k == 0 || k == n then 1 else Choose(n - 1, k - 1) + Choose(n - 1, k)
  }

  /** t is a factorial table: t[0] = 1 and each entry is the previous one
      times its index. */
  ghost predicate IsFactorialTable(t: seq<real>)
  {
    |t| > 0 && t[0] == 1.0 && forall k :: 1 <= k < |t| ==> FactorialStep(t, k)
  }

  ghost predicate FactorialStep(t: seq<real>, k: nat)
    requires 1 <= k < |t|
  {
    t[k] == t[k - 1] * (k as real)
  }

  /** The literal table is a factorial table. */
  lemma FactorialTableWellFormed()
    ensures IsFactorialTable(FactorialTable)
  {
  }

  /** Every entry of a factorial table is the exact factorial of its index. */
  lemma {:induction false} FactorialTableExact(t: seq<real>, k: nat)
    requires IsFactorialTable(t) && k < |t|
    ensures t[k] == Fact(k) as real
  {
    if k > 0 {
      FactorialTableExact(t, k - 1);
      assert FactorialStep(t, k);
    }
  }

  /** The planner's table holds 0!, 1!, ..., 12!. */
  lemma FactorialTableIsFactorials(k: nat)
    requires k < |FactorialTable|
    ensures FactorialTable[k] == Fact(k) as real
  {
    FactorialTableWellFormed();
    FactorialTableExact(FactorialTable, k);
  }

  lemma {:induction false} TablePositive(t: seq<real>, k: nat)
    requires IsFactorialTable(t) && k < |t|
    ensures t[k] >= 1.0
  {
    if k > 0 {
      TablePositive(t, k - 1);
      assert FactorialStep(t, k);
    }
  }

  /** i! (n-i)! C(n,i) = n! for the entries of a factorial table, proved
      from Pascal's rule by induction on n. */
  lemma {:induction false} TableChoose(t: seq<real>, n: nat, i: nat)
    requires IsFactorialTable(t) && i <= n < |t|
    ensures t[i] * t[n - i] * (Choose(n, i) as real) == t[n]
  {
    if i == 0 || i == n {
      TableChooseEnds(t, n, i);
    } else {
      var a, b, c := Choose(n - 1, i - 1) as real, Choose(n - 1, i) as real, Choose(n, i) as real;
      TableChoose(t, n - 1, i - 1);
      TableChoose(t, n - 1, i);
      ChooseCast(n, i);
      TableChooseStep(t, n, i, a, b, c);
    }
  }

  lemma TableChooseEnds(t: seq<real>, n: nat, i: nat)
    requires IsFactorialTable(t) && i <= n < |t| && (i == 0 || i == n)
    ensures t[i] * t[n - i] * (Choose(n, i) as real) == t[n]
  {
  }

  /** Pascal's rule, carried over to the reals. */
  lemma ChooseCast(n: nat, i: nat)
    requires 0 < i < n
    ensures Choose(n, i) as real == (Choose(n - 1, i - 1) as real) + (Choose(n - 1, i) as real)
  {
  }

  /** One Pascal step read on the table: a = C(n-1, i-1), b = C(n-1, i)
      and c = a + b = C(n, i). */
  lemma TableChooseStep(t: seq<real>, n: nat, i: nat, a: real, b: real, c: real)
    requires IsFactorialTable(t) && 0 < i < n < |t|
    requires t[i - 1] * t[n - 1 - (i - 1)] * a == t[n - 1]
    requires t[i] * t[n - 1 - i] * b == t[n - 1]
    requires c == a + b
    ensures t[i] * t[n - i] * c == t[n]
  {
    assert n - 1 - (i - 1) == n - i;
    assert FactorialStep(t, i) && FactorialStep(t, n - i) && FactorialStep(t, n);
    assert (n as real) == (i as real) + ((n - i) as real);
    PascalStep(i as real, (n - i) as real, t[i], t[n - i], t[n], t[i - 1], t[n - i - 1], t[n - 1], a, b, c);
  }

  /** The arithmetic of one Pascal step: with ti = k! = (k-1)! k,
      tm = m! = (m-1)! m and tn = (k+m)! = (k+m-1)! (k+m), the two induction
      hypotheses add up to k! m! (a + b) = (k + m)!. */
  lemma PascalStep(k: real, m: real, ti: real, tm: real, tn: real, fk1: real, fm1: real, f: real,
                   a: real, b: real, c: real)
    requires ti == fk1 * k && tm == fm1 * m && tn == f * (k + m)
    requires fk1 * tm * a == f
    requires ti * fm1 * b == f
    requires c == a + b
    ensures ti * tm * c == tn
  {
    assert ti * tm * a == k * (fk1 * tm * a);
    assert ti * tm * b == m * (ti * fm1 * b);
  }

  /** Pascal's binomial coefficients are symmetric: C(n,k) = C(n,n-k). */
  lemma {:induction false} ChooseSymmetric(n: nat, k: nat)
    requires k <= n
    ensures Choose(n, k) == Choose(n, n - k)
  {
    if k == 0 || k == n {
    } else {
      ChooseSymmetric(n - 1, k - 1);
      ChooseSymmetric(n - 1, k);
    }
  }

  /** Within a factorial table's range, n! / (i! (n-i)!) read from the
      table is the binomial coefficient C(n, i). */
  lemma TableQuotientIsChoose(t: seq<real>, n: nat, i: nat)
    requires IsFactorialTable(t) && i <= n < |t|
    ensures t[i] >= 1.0 && t[n - i] >= 1.0
    ensures t[n] / (t[i] * t[n - i]) == Choose(n, i) as real
  {
    TableChoose(t, n, i);
    TablePositive(t, i);
    TablePositive(t, n - i);
    RealQuotient(t[n], t[i], t[n - i], Choose(n, i) as real);
  }

  lemma RealQuotient(p: real, q1: real, q2: real, c: real)
    requires q1 >= 1.0 && q2 >= 1.0 && q1 * q2 * c == p
    ensures p / (q1 * q2) == c
  {
  }

  /** The binomial coefficient the curve evaluation reads from the
      factorial table: n! / (i! (n-i)!) with n = 11. It is exactly C(11, i). */
  function Coeff(i: nat): (c: real)
    requires i <= Degree
    ensures c == Choose(Degree, i) as real
  {
    FactorialTableWellFormed();
    TableQuotientIsChoose(FactorialTable, Degree, i);
    FactorialTable[Degree] / (FactorialTable[i] * FactorialTable[Degree - i])
  }

  /** The coefficient table is symmetric under i <-> 11 - i. */
  lemma CoeffSymmetric(i: nat)
    requires i <= Degree
    ensures Coeff(i) == Coeff(Degree - i)
  {
    ChooseSymmetric(Degree, i);
  }

  /** Integer powers, with x^0 = 1 for every x (so 0^0 = 1, as the C
      library's pow returns). */
  function Pow(x: real, n: nat): (r: real)
  {
    if n == 0 then 1.0 else x * Pow(x, n - 1)
  }

  /** Every power of 1 is 1. */
  lemma {:induction false} PowOfOne(n: nat)
    ensures Pow(1.0, n) == 1.0
  {
    if n > 0 {
      PowOfOne(n - 1);
    }
  }

  /** Every positive power of 0 is 0. */
  lemma PowOfZero(n: nat)
    requires n > 0
    ensures Pow(0.0, n) == 0.0
  {
  }

  /** The Bernstein weight of control point i at parameter t. */
  function Weight(i: nat, t: real): (w: real)
    requires i <= Degree
  {
    Coeff(i) * Pow(t, i) * Pow(1.0 - t, Degree - i)
  }

  /** The weight read from the factorial table is the Bernstein basis
      polynomial C(11, i) t^i (1 - t)^(11 - i) with the Pascal-rule
      binomial. */
  lemma WeightIsBernstein(i: nat, t: real)
    requires i <= Degree
    ensures Weight(i, t) == (Choose(Degree, i) as real) * Pow(t, i) * Pow(1.0 - t, Degree - i)
  {
  }

  /** Inside the swing (0 <= t <= 1) no weight is negative. */
  lemma WeightNonNegative(i: nat, t: real)
    requires i <= Degree && 0.0 <= t <= 1.0
    ensures Weight(i, t) >= 0.0
  {
    PowNonNegative(t, i);
    PowNonNegative(1.0 - t, Degree - i);
    NonNegativeTriple(Coeff(i), Pow(t, i), Pow(1.0 - t, Degree - i));
  }

  lemma {:induction false} PowNonNegative(x: real, n: nat)
    requires x >= 0.0
    ensures Pow(x, n) >= 0.0
  {
    if n > 0 {
      PowNonNegative(x, n - 1);
      NonNegativeProduct(x, Pow(x, n - 1));
    }
  }

  lemma NonNegativeProduct(a: real, b: real)
    requires a >= 0.0 && b >= 0.0
    ensures a * b >= 0.0
  {
  }

  lemma NonNegativeTriple(c: real, a: real, b: real)
    requires c >= 0.0 && a >= 0.0 && b >= 0.0
    ensures c * a * b >= 0.0
  {
    NonNegativeProduct(c, a);
    NonNegativeProduct(c * a, b);
  }

  /** The sum of the first k Bernstein-weighted control points. */
  function PartialSum(points: seq<real>, t: real, k: nat): (s: real)
    requires k <= |points| && k <= ControlPointCount
  {
    if k == 0 then 0.0 else PartialSum(points, t, k - 1) + Weight(k - 1, t) * points[k - 1]
  }

  /** One step of the accumulation: adding the weighted point k to the sum
      of the first k terms gives the sum of the first k + 1. */
  lemma PartialSumStep(points: seq<real>, t: real, k: nat, acc: real, w: real, p: real)
    requires k < |points| && k < ControlPointCount
    requires acc == PartialSum(points, t, k)
    requires w == Weight(k, t) && p == points[k]
    ensures acc + w * p == PartialSum(points, t, k + 1)
  {
    var k1 := k + 1;
    assert k1 - 1 == k;
    assert PartialSum(points, t, k1) == PartialSum(points, t, k) + Weight(k, t) * points[k];
  }

  /** The weighted sum is linear in the control points: scaling every
      point by c scales the partial sum by c. */
  lemma {:induction false} PartialSumScales(a: seq<real>, b: seq<real>, c: real, t: real, k: nat)
    requires |a| == |b| && k <= |a| && k <= ControlPointCount
    requires forall i :: 0 <= i < |a| ==> a[i] == c * b[i]
    ensures PartialSum(a, t, k) == c * PartialSum(b, t, k)
  {
    if k > 0 {
      PartialSumScales(a, b, c, t, k - 1);
      ScaleStep(PartialSum(b, t, k - 1), Weight(k - 1, t), b[k - 1], c);
    }
  }

  lemma ScaleStep(s: real, w: real, p: real, c: real)
    ensures c * s + w * (c * p) == c * (s + w * p)
  {
  }

  /** One coordinate of the degree-11 Bezier curve at parameter t. */
  function Curve(points: seq<real>, t: real): (r: real)
    requires |points| == ControlPointCount
  {
    PartialSum(points, t, ControlPointCount)
  }

  lemma {:induction false} PartialSumAtOneVanishes(points: seq<real>, k: nat)
    requires k <= Degree && k <= |points|
    ensures PartialSum(points, 1.0, k) == 0.0
  {
    if k > 0 {
      PartialSumAtOneVanishes(points, k - 1);
      PowOfOne(k - 1);
      PowOfZero(Degree - (k - 1));
      assert Weight(k - 1, 1.0) == 0.0;
    }
  }

  /** Scaling every control point scales the whole curve. */
  lemma CurveScales(a: seq<real>, b: seq<real>, c: real, t: real)
    requires |a| == |b| == ControlPointCount
    requires forall i :: 0 <= i < |a| ==> a[i] == c * b[i]
    ensures Curve(a, t) == c * Curve(b, t)
  {
    PartialSumScales(a, b, c, t, ControlPointCount);
  }

  /** Bernstein endpoint property at t = 1: the curve is at the last
      control point. */
  lemma CurveAtOne(points: seq<real>)
    requires |points| == ControlPointCount
    ensures Curve(points, 1.0) == points[Degree]
  {
    PartialSumAtOneVanishes(points, Degree);
    PowOfOne(Degree);
    assert Coeff(Degree) == 1.0;
    assert Weight(Degree, 1.0) == 1.0;
  }

  lemma {:induction false} PartialSumAtZeroIsFirst(points: seq<real>, k: nat)
    requires 1 <= k <= ControlPointCount && k <= |points|
    ensures PartialSum(points, 0.0, k) == points[0]
  {
    if k == 1 {
      PowOfOne(Degree);
      assert Coeff(0) == 1.0;
      assert Weight(0, 0.0) == 1.0;
    } else {
      PartialSumAtZeroIsFirst(points, k - 1);
      PowOfZero(k - 1);
      assert Weight(k - 1, 0.0) == 0.0;
    }
  }

  /** Bernstein endpoint property at t = 0 (reading 0^0 as 1): the curve is
      at the first control point. */
  lemma CurveAtZero(points: seq<real>)
    requires |points| == ControlPointCount
    ensures Curve(points, 0.0) == points[0]
  {
    PartialSumAtZeroIsFirst(points, ControlPointCount);
  }
}
