/** The basis-function expansion that the evaluators of biff/src/bfe.c sum.

    A term is the contribution of one triple (n, l, m) with its cosine and
    sine coefficients, at one point, to one output field. The reference
    value of a field is a triangular sum over n <= nmax, l <= lmax and
    m <= l that never mentions the inert slots (m > l); it is built level by
    level (SumM, SumL, SumN) so that each loop of an evaluator has a partial
    sum for its invariant.
 */
module Expansion {
  import opened CoeffIndex
  import opened Numerics

  /** Dimensionless spherical coordinates: s = r / r_s, X = cos(theta) = z / r,
      and the azimuth phi = atan2(y, x). */
  datatype Point = Point(s: real, X: real, phi: real)

  /** r = sqrt(x^2 + y^2 + z^2). */
  function Radius(lm: Libm, x: real, y: real, z: real): real {
    Sqrt(lm, x * x + y * y + z * z)
  }

  /** The coordinates of query point k of the flat position array xyz. */
  function PointAt(lm: Libm, xyz: seq<real>, k: nat, r_s: real): Point
    requires 3 * k + 2 < |xyz|
  {
    var j := 3 * k;
    var r := Radius(lm, xyz[j], xyz[j + 1], xyz[j + 2]);
    Point(Div(lm, r, r_s), Div(lm, xyz[j + 2], r), Atan2(lm, xyz[j + 1], xyz[j]))
  }

  /** The scalar an evaluator accumulates into one output slot. */
  datatype Field = Density | Potential | GradX | GradY | GradZ

  /** Everything a term depends on besides the triple and its coefficients. */
  datatype Summand = Summand(lm: Libm, basis: Basis, field: Field, at: Point)

  /** The cosine block Snlm, the sine block Tnlm and the expansion order. */
  datatype Coeffs = Coeffs(S: seq<real>, T: seq<real>, nmax: nat, lmax: nat)

  /** Both blocks hold at least one slot per triple. */
  predicate Fits(c: Coeffs) {
    |c.S| >= NumCoeff(c.nmax, c.lmax) && |c.T| >= NumCoeff(c.nmax, c.lmax)
  }

  /** Snlm cos(m phi) + Tnlm sin(m phi). */
  function CosWeight(lm: Libm, m: nat, phi: real, sc: real, tc: real): real {
    sc * Cos(lm, m as real * phi) + tc * Sin(lm, m as real * phi)
  }

  /** Tnlm cos(m phi) - Snlm sin(m phi), the weight of the azimuthal derivative. */
  function SinWeight(lm: Libm, m: nat, phi: real, sc: real, tc: real): real {
    tc * Cos(lm, m as real * phi) - sc * Sin(lm, m as real * phi)
  }

  /** sin(theta) = sqrt(1 - X^2). */
  function SinTheta(lm: Libm, X: real): real {
    Sqrt(lm, 1.0 - X * X)
  }

  /** The value of x after x *= scale. */
  function Scaled(x: real, scale: real): real {
    x * scale
  }

  /** rho_nlm times the azimuthal weight: one density term. */
  function DensityTerm(lm: Libm, b: Basis, p: Point, n: nat, l: nat, m: nat, sc: real, tc: real): real {
    RhoNlm(b, p.s, p.phi, p.X, n, l, m) * CosWeight(lm, m, p.phi, sc, tc)
  }

  /** phi_nlm times the azimuthal weight: one potential term. */
  function PotentialTerm(lm: Libm, b: Basis, p: Point, n: nat, l: nat, m: nat, sc: real, tc: real): real {
    PhiNlm(b, p.s, p.phi, p.X, n, l, m) * CosWeight(lm, m, p.phi, sc, tc)
  }

  /** tmp * sintheta / s, the factor of the theta component. */
  function PolarFactor(lm: Libm, tmp: real, sintheta: real, s: real): real {
    Div(lm, tmp * sintheta, s)
  }

  /** w / (s * sintheta), the factor of the phi component. */
  function AzimuthalFactor(lm: Libm, w: real, s: real, sintheta: real): real {
    Div(lm, w, s * sintheta)
  }

  /** The three components sph_grad_phi_nlm writes, after c_gradient has
      rescaled them: r by the weight, theta by weight * sin(theta) / s,
      phi by the derivative weight / (s sin(theta)). */
  function ScaledSphGrad(lm: Libm, b: Basis, p: Point, n: nat, l: nat, m: nat, sc: real, tc: real)
    : (real, real, real)
  {
    var tmp := CosWeight(lm, m, p.phi, sc, tc);
    var sintheta := SinTheta(lm, p.X);
    var g := SphGradPhiNlm(b, p.s, p.phi, p.X, n, l, m);
    (Scaled(g.0, tmp),
     Scaled(g.1, PolarFactor(lm, tmp, sintheta, p.s)),
     Scaled(g.2, AzimuthalFactor(lm, SinWeight(lm, m, p.phi, sc, tc), p.s, sintheta)))
  }

  /** The spherical components (r, theta, phi) g turned into Cartesian
      (x, y, z). */
  function ToCartesian(sintheta: real, cosphi: real, sinphi: real, X: real, g: (real, real, real))
    : (real, real, real)
  {
    (sintheta * cosphi * g.0 + X * cosphi * g.1 - sinphi * g.2,
     sintheta * sinphi * g.0 + X * sinphi * g.1 + cosphi * g.2,
     X * g.0 - sintheta * g.1)
  }

  /** One triple's contribution to the Cartesian gradient. */
  function GradTerm(lm: Libm, b: Basis, p: Point, n: nat, l: nat, m: nat, sc: real, tc: real)
    : (real, real, real)
  {
    ToCartesian(SinTheta(lm, p.X), Cos(lm, p.phi), Sin(lm, p.phi), p.X,
                ScaledSphGrad(lm, b, p, n, l, m, sc, tc))
  }

  /** The contribution of triple (n, l, m) with coefficients sc, tc. */
  function Term(e: Summand, n: nat, l: nat, m: nat, sc: real, tc: real): real {
    var lm, b, p := e.lm, e.basis, e.at;
    match e.field
    case Density => DensityTerm(lm, b, p, n, l, m, sc, tc)
    case Potential => PotentialTerm(lm, b, p, n, l, m, sc, tc)
    case GradX => GradTerm(lm, b, p, n, l, m, sc, tc).0
    case GradY => GradTerm(lm, b, p, n, l, m, sc, tc).1
    case GradZ => GradTerm(lm, b, p, n, l, m, sc, tc).2
  }

  /** The term of triple (n, l, m), reading both blocks at its offset. */
  function TermAt(e: Summand, c: Coeffs, n: nat, l: nat, m: nat): real
    requires Fits(c) && n <= c.nmax && l <= c.lmax && m <= c.lmax
  {
    OffsetInRange(n, l, m, c.nmax, c.lmax);
    var i := Offset(n, l, m, c.lmax);
    Term(e, n, l, m, c.S[i], c.T[i])
  }

  /** Sum of the terms (n, l, m') for m' < m (m <= l + 1). */
  function SumM(e: Summand, c: Coeffs, n: nat, l: nat, m: nat): real
    requires Fits(c) && n <= c.nmax && l <= c.lmax && m <= l + 1
  {
    if m == 0 then 0.0 else SumM(e, c, n, l, m - 1) + TermAt(e, c, n, l, m - 1)
  }

  /** Sum of the terms (n, l', m') for l' < l and m' <= l'. */
  function SumL(e: Summand, c: Coeffs, n: nat, l: nat): real
    requires Fits(c) && n <= c.nmax && l <= c.lmax + 1
  {
    if l == 0 then 0.0 else SumL(e, c, n, l - 1) + SumM(e, c, n, l - 1, l)
  }

  /** Sum of the terms (n', l', m') for n' < n, l' <= lmax and m' <= l'. */
  function SumN(e: Summand, c: Coeffs, n: nat): real
    requires Fits(c) && n <= c.nmax + 1
  {
    if n == 0 then 0.0 else SumN(e, c, n - 1) + SumL(e, c, n - 1, c.lmax + 1)
  }

  /** The expansion's value at one point: the sum over every triple with
      n <= nmax, l <= lmax and m <= l. */
  function Sum(e: Summand, c: Coeffs): real
    requires Fits(c)
  {
    SumN(e, c, c.nmax + 1)
  }

  /** c and c' have the same order and agree on every used slot of the
      block; they may differ on inert slots and beyond the block. */
  predicate SameUsedSlots(c: Coeffs, c': Coeffs)
    requires Fits(c) && Fits(c')
  {
    c.nmax == c'.nmax && c.lmax == c'.lmax &&
    forall i :: 0 <= i < NumCoeff(c.nmax, c.lmax) && IsUsed(i, c.lmax) ==>
      c.S[i] == c'.S[i] && c.T[i] == c'.T[i]
  }

  /** A term with m <= l reads a used slot. */
  lemma TermAtSameUsedSlots(e: Summand, c: Coeffs, c': Coeffs, n: nat, l: nat, m: nat)
    requires Fits(c) && Fits(c') && SameUsedSlots(c, c')
    requires n <= c.nmax && l <= c.lmax && m <= l
    ensures TermAt(e, c, n, l, m) == TermAt(e, c', n, l, m)
  {
    OffsetInRange(n, l, m, c.nmax, c.lmax);
    TripleOfOffset(n, l, m, c.lmax);
    assert IsUsed(Offset(n, l, m, c.lmax), c.lmax);
  }

  lemma {:induction false} SumMSameUsedSlots(e: Summand, c: Coeffs, c': Coeffs, n: nat, l: nat, m: nat)
    requires Fits(c) && Fits(c') && SameUsedSlots(c, c')
    requires n <= c.nmax && l <= c.lmax && m <= l + 1
    ensures SumM(e, c, n, l, m) == SumM(e, c', n, l, m)
  {
    if m > 0 {
      SumMSameUsedSlots(e, c, c', n, l, m - 1);
      TermAtSameUsedSlots(e, c, c', n, l, m - 1);
    }
  }

  lemma {:induction false} SumLSameUsedSlots(e: Summand, c: Coeffs, c': Coeffs, n: nat, l: nat)
    requires Fits(c) && Fits(c') && SameUsedSlots(c, c')
    requires n <= c.nmax && l <= c.lmax + 1
    ensures SumL(e, c, n, l) == SumL(e, c', n, l)
  {
    if l > 0 {
      SumLSameUsedSlots(e, c, c', n, l - 1);
      SumMSameUsedSlots(e, c, c', n, l - 1, l);
    }
  }

  lemma {:induction false} SumNSameUsedSlots(e: Summand, c: Coeffs, c': Coeffs, n: nat)
    requires Fits(c) && Fits(c') && SameUsedSlots(c, c')
    requires n <= c.nmax + 1
    ensures SumN(e, c, n) == SumN(e, c', n)
  {
    if n > 0 {
      SumNSameUsedSlots(e, c, c', n - 1);
      SumLSameUsedSlots(e, c, c', n - 1, c.lmax + 1);
    }
  }

  /** The sum reads only the used slots: two blocks that agree there give
      the same value. */
  lemma SumReadsUsedSlots(e: Summand, c: Coeffs, c': Coeffs)
    requires Fits(c) && Fits(c') && SameUsedSlots(c, c')
    ensures Sum(e, c) == Sum(e, c')
  {
    SumNSameUsedSlots(e, c, c', c.nmax + 1);
  }

  /** The inert slots (m > l) are allocated but never read: overwriting
      one leaves every sum unchanged. */
  lemma InertSlotIgnored(e: Summand, c: Coeffs, i: nat, sc: real, tc: real)
    requires Fits(c) && i < NumCoeff(c.nmax, c.lmax) && !IsUsed(i, c.lmax)
    ensures Sum(e, c.(S := c.S[i := sc], T := c.T[i := tc])) == Sum(e, c)
  {
    SumReadsUsedSlots(e, c.(S := c.S[i := sc], T := c.T[i := tc]), c);
  }

  /** Only the first NumCoeff entries of each block are read: whatever
      follows them in memory does not matter. */
  lemma SumReadsBlockOnly(e: Summand, c: Coeffs)
    requires Fits(c)
    ensures var nc := NumCoeff(c.nmax, c.lmax);
      Sum(e, c.(S := c.S[..nc], T := c.T[..nc])) == Sum(e, c)
  {
    var nc := NumCoeff(c.nmax, c.lmax);
    SumReadsUsedSlots(e, c.(S := c.S[..nc], T := c.T[..nc]), c);
  }

  /** With nmax = lmax = 0 the expansion has the single term (0, 0, 0),
      read from slot 0. */
  lemma SingleTerm(e: Summand, c: Coeffs)
    requires Fits(c) && c.nmax == 0 && c.lmax == 0
    ensures Sum(e, c) == Term(e, 0, 0, 0, c.S[0], c.T[0])
  {
    OffsetInRange(0, 0, 0, 0, 0);
    assert SumM(e, c, 0, 0, 1) == TermAt(e, c, 0, 0, 0);
    assert SumL(e, c, 0, 1) == SumM(e, c, 0, 0, 1);
    assert Sum(e, c) == SumN(e, c, 0) + SumL(e, c, 0, 1);
  }
}
