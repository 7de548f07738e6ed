/** The batch evaluators of biff/src/bfe.c: c_density, c_potential and
    c_gradient.

    For every query point k < K each evaluator turns xyz[3k..3k+2] into
    dimensionless spherical coordinates, walks the triples (n, l, m) in
    row-major order, skips those with m > l, adds the term of every other
    triple into point k's output slot(s) and finally multiplies the slot(s)
    by a scale factor. Each evaluator is proved to leave, in every slot of
    every point k < K, (prior value + Sum) * scale, and every other slot of
    the buffer as it was; its helper methods add the partial sums of their
    loops, without scaling.
 */
module Bfe {
  import opened CoeffIndex
  import opened Numerics
  import opened Expansion

  /** An output slot after an evaluator has run: its prior value plus the
      expansion's sum at point k, all multiplied by the scale factor. */
  function Accumulated(lm: Libm, b: Basis, f: Field, xyz: seq<real>, k: nat, r_s: real,
                       c: Coeffs, prior: real, scale: real): real
    requires 3 * k + 2 < |xyz| && Fits(c)
  {
    Scaled(prior + Sum(Summand(lm, b, f, PointAt(lm, xyz, k, r_s)), c), scale)
  }

  /** The evaluators add into the buffer instead of overwriting it, so a
      prior value survives, multiplied by the scale, beside the expansion. */
  lemma PriorIsScaled(lm: Libm, b: Basis, f: Field, xyz: seq<real>, k: nat, r_s: real,
                      c: Coeffs, prior: real, scale: real)
    requires 3 * k + 2 < |xyz| && Fits(c)
    ensures Accumulated(lm, b, f, xyz, k, r_s, c, prior, scale)
         == Accumulated(lm, b, f, xyz, k, r_s, c, 0.0, scale) + prior * scale
  {
  }

  /** The value at point k depends on xyz only through xyz[3k..3k+3). */
  lemma PointIsLocal(lm: Libm, b: Basis, f: Field, xyz: seq<real>, k: nat, r_s: real,
                     c: Coeffs, prior: real, scale: real)
    requires 3 * k + 2 < |xyz| && Fits(c)
    ensures Accumulated(lm, b, f, xyz, k, r_s, c, prior, scale)
         == Accumulated(lm, b, f, xyz[3 * k..3 * k + 3], 0, r_s, c, prior, scale)
  {
    assert PointAt(lm, xyz, k, r_s) == PointAt(lm, xyz[3 * k..3 * k + 3], 0, r_s);
  }

  /** M / r_s^3, the scale of c_density. */
  function DensityScale(lm: Libm, M: real, r_s: real): real {
    Div(lm, M, r_s * r_s * r_s)
  }

  /** G M / r_s, the scale of c_potential. */
  function PotentialScale(lm: Libm, G: real, M: real, r_s: real): real {
    Div(lm, G * M, r_s)
  }

  /** -G M / r_s^2, the scale of c_gradient. */
  function GradientScale(lm: Libm, G: real, M: real, r_s: real): real {
    Div(lm, -G * M, r_s * r_s)
  }

  /** The m-loop of c_density for row (n, l): dens[k] += the density term of
      every m <= l, read at the closed-form offset; the slots m > l are
      skipped. */
  method AddDensityRow(lm: Libm, b: Basis, p: Point, Snlm: seq<real>, Tnlm: seq<real>,
                       nmax: nat, lmax: nat, n: nat, l: nat, dens: array<real>, k: nat)
    requires k < dens.Length
    requires Fits(Coeffs(Snlm, Tnlm, nmax, lmax)) && n <= nmax && l <= lmax
    modifies dens
    ensures dens[k] == old(dens[k]) + SumM(Summand(lm, b, Density, p), Coeffs(Snlm, Tnlm, nmax, lmax), n, l, l + 1)
    ensures forall q :: 0 <= q < dens.Length && q != k ==> dens[q] == old(dens[q])
  {
    ghost var c := Coeffs(Snlm, Tnlm, nmax, lmax);
    ghost var e := Summand(lm, b, Density, p);
    for m := 0 to lmax + 1
      invariant dens[k] == old(dens[k]) + SumM(e, c, n, l, if m <= l then m else l + 1)
      invariant forall q :: 0 <= q < dens.Length && q != k ==> dens[q] == old(dens[q])
    {
      if m > l {
        continue;
      }
      OffsetInRange(n, l, m, nmax, lmax);
      var i := Offset(n, l, m, lmax);
      dens[k] := dens[k] + DensityTerm(lm, b, p, n, l, m, Snlm[i], Tnlm[i]);
    }
  }

  /** The triple loop of c_density for one point p: dens[k] += the density
      term of every triple with m <= l, read at the closed-form offset. */
  method AddDensityTerms(lm: Libm, b: Basis, p: Point, Snlm: seq<real>, Tnlm: seq<real>,
                         nmax: nat, lmax: nat, dens: array<real>, k: nat)
    requires k < dens.Length
    requires Fits(Coeffs(Snlm, Tnlm, nmax, lmax))
    modifies dens
    ensures dens[k] == old(dens[k]) + Sum(Summand(lm, b, Density, p), Coeffs(Snlm, Tnlm, nmax, lmax))
    ensures forall q :: 0 <= q < dens.Length && q != k ==> dens[q] == old(dens[q])
  {
    ghost var c := Coeffs(Snlm, Tnlm, nmax, lmax);
    ghost var e := Summand(lm, b, Density, p);
    for n := 0 to nmax + 1
      invariant dens[k] == old(dens[k]) + SumN(e, c, n)
      invariant forall q :: 0 <= q < dens.Length && q != k ==> dens[q] == old(dens[q])
    {
      for l := 0 to lmax + 1
        invariant dens[k] == old(dens[k]) + SumN(e, c, n) + SumL(e, c, n, l)
        invariant forall q :: 0 <= q < dens.Length && q != k ==> dens[q] == old(dens[q])
      {
        AddDensityRow(lm, b, p, Snlm, Tnlm, nmax, lmax, n, l, dens, k);
      }
    }
  }

  /** c_density: for k < K, dens[k] += every density term at point k, then
      dens[k] *= M / r_s^3. */
  method CDensity(lm: Libm, b: Basis, xyz: seq<real>, K: int, M: real, r_s: real,
                  Snlm: seq<real>, Tnlm: seq<real>, nmax: nat, lmax: nat, dens: array<real>)
    requires 3 * K <= |xyz| && K <= dens.Length
    requires Fits(Coeffs(Snlm, Tnlm, nmax, lmax))
    modifies dens
    ensures forall k :: 0 <= k < K ==>
      dens[k] == Accumulated(lm, b, Density, xyz, k, r_s, Coeffs(Snlm, Tnlm, nmax, lmax),
                             old(dens[k]), DensityScale(lm, M, r_s))
    ensures forall q :: 0 <= q < dens.Length && K <= q ==> dens[q] == old(dens[q])
  {
    var k := 0;
    while k < K
      invariant 0 <= k && (k <= K || k == 0)
      invariant forall k' :: 0 <= k' < k ==>
        dens[k'] == Accumulated(lm, b, Density, xyz, k', r_s, Coeffs(Snlm, Tnlm, nmax, lmax),
                                old(dens[k']), DensityScale(lm, M, r_s))
      invariant forall q :: k <= q < dens.Length ==> dens[q] == old(dens[q])
    {
      var j := 3 * k;
      var r := Radius(lm, xyz[j], xyz[j + 1], xyz[j + 2]);
      var s := Div(lm, r, r_s);
      var X := Div(lm, xyz[j + 2], r);  // cos(theta)
      var phi := Atan2(lm, xyz[j + 1], xyz[j]);
      assert Point(s, X, phi) == PointAt(lm, xyz, k, r_s);
      AddDensityTerms(lm, b, Point(s, X, phi), Snlm, Tnlm, nmax, lmax, dens, k);
      dens[k] := Scaled(dens[k], DensityScale(lm, M, r_s));
      k := k + 1;
    }
  }

  /** The m-loop of c_potential for row (n, l), entered with the counter at
      the row's first slot: val[k] += the potential term of every m <= l,
      read at the counter, which also steps over the slots m > l. Returns
      the counter at the next row's first slot. */
  method AddPotentialRow(lm: Libm, b: Basis, p: Point, Snlm: seq<real>, Tnlm: seq<real>,
                         nmax: nat, lmax: nat, n: nat, l: nat, i0: nat, val: array<real>, k: nat)
    returns (i: nat)
    requires k < val.Length
    requires Fits(Coeffs(Snlm, Tnlm, nmax, lmax)) && n <= nmax && l <= lmax
    requires i0 == Offset(n, l, 0, lmax)
    modifies val
    ensures val[k] == old(val[k]) + SumM(Summand(lm, b, Potential, p), Coeffs(Snlm, Tnlm, nmax, lmax), n, l, l + 1)
    ensures forall q :: 0 <= q < val.Length && q != k ==> val[q] == old(val[q])
    ensures i == Offset(n, l + 1, 0, lmax)
  {
    ghost var c := Coeffs(Snlm, Tnlm, nmax, lmax);
    ghost var e := Summand(lm, b, Potential, p);
    i := i0;
    for m := 0 to lmax + 1
      invariant i == Offset(n, l, m, lmax)
      invariant val[k] == old(val[k]) + SumM(e, c, n, l, if m <= l then m else l + 1)
      invariant forall q :: 0 <= q < val.Length && q != k ==> val[q] == old(val[q])
    {
      if m > l {
        i := i + 1;
        continue;
      }
      OffsetInRange(n, l, m, nmax, lmax);
      val[k] := val[k] + PotentialTerm(lm, b, p, n, l, m, Snlm[i], Tnlm[i]);
      i := i + 1;
    }
    OffsetCarry(n, l, lmax);
  }

  /** Lines 47-61 of c_potential for one point p: val[k] += the potential term
      of every triple with m <= l, read at a counter i that advances once per
      visited triple, inert ones included. Returns the final counter. */
  method AddPotentialTerms(lm: Libm, b: Basis, p: Point, Snlm: seq<real>, Tnlm: seq<real>,
                           nmax: nat, lmax: nat, val: array<real>, k: nat) returns (i: nat)
    requires k < val.Length
    requires Fits(Coeffs(Snlm, Tnlm, nmax, lmax))
    modifies val
    ensures val[k] == old(val[k]) + Sum(Summand(lm, b, Potential, p), Coeffs(Snlm, Tnlm, nmax, lmax))
    ensures forall q :: 0 <= q < val.Length && q != k ==> val[q] == old(val[q])
    ensures i == NumCoeff(nmax, lmax)
  {
    ghost var c := Coeffs(Snlm, Tnlm, nmax, lmax);
    ghost var e := Summand(lm, b, Potential, p);
    i := 0;
    for n := 0 to nmax + 1
      invariant i == Offset(n, 0, 0, lmax)
      invariant val[k] == old(val[k]) + SumN(e, c, n)
      invariant forall q :: 0 <= q < val.Length && q != k ==> val[q] == old(val[q])
    {
      for l := 0 to lmax + 1
        invariant i == Offset(n, l, 0, lmax)
        invariant val[k] == old(val[k]) + SumN(e, c, n) + SumL(e, c, n, l)
        invariant forall q :: 0 <= q < val.Length && q != k ==> val[q] == old(val[q])
      {
        i := AddPotentialRow(lm, b, p, Snlm, Tnlm, nmax, lmax, n, l, i, val, k);
      }
      OffsetCarry(n, 0, lmax);
    }
    CounterTotal(nmax, lmax);
  }

  /** c_potential: for k < K, val[k] += every potential term at point k, then
      val[k] *= G M / r_s. */
  method CPotential(lm: Libm, b: Basis, xyz: seq<real>, K: int, G: real, M: real, r_s: real,
                    Snlm: seq<real>, Tnlm: seq<real>, nmax: nat, lmax: nat, val: array<real>)
    requires 3 * K <= |xyz| && K <= val.Length
    requires Fits(Coeffs(Snlm, Tnlm, nmax, lmax))
    modifies val
    ensures forall k :: 0 <= k < K ==>
      val[k] == Accumulated(lm, b, Potential, xyz, k, r_s, Coeffs(Snlm, Tnlm, nmax, lmax),
                            old(val[k]), PotentialScale(lm, G, M, r_s))
    ensures forall q :: 0 <= q < val.Length && K <= q ==> val[q] == old(val[q])
  {
    var k := 0;
    while k < K
      invariant 0 <= k && (k <= K || k == 0)
      invariant forall k' :: 0 <= k' < k ==>
        val[k'] == Accumulated(lm, b, Potential, xyz, k', r_s, Coeffs(Snlm, Tnlm, nmax, lmax),
                               old(val[k']), PotentialScale(lm, G, M, r_s))
      invariant forall q :: k <= q < val.Length ==> val[q] == old(val[q])
    {
      var j := 3 * k;
      var r := Radius(lm, xyz[j], xyz[j + 1], xyz[j + 2]);
      var s := Div(lm, r, r_s);
      var X := Div(lm, xyz[j + 2], r);  // cos(theta)
      var phi := Atan2(lm, xyz[j + 1], xyz[j]);
      assert Point(s, X, phi) == PointAt(lm, xyz, k, r_s);
      var _ := AddPotentialTerms(lm, b, Point(s, X, phi), Snlm, Tnlm, nmax, lmax, val, k);
      val[k] := Scaled(val[k], PotentialScale(lm, G, M, r_s));
      k := k + 1;
    }
  }

  /** The body of the m-loop of c_gradient for one used triple (n, l, m)
      with coefficients sc = Snlm[i] and tc = Tnlm[i]: sph_grad_phi_nlm
      fills tmp_grad, its three components are rescaled in place, and their
      Cartesian combination is added to grad[j..j+2]. */
  method AddGradientTerm(lm: Libm, b: Basis, p: Point, sintheta: real, cosphi: real, sinphi: real,
                         n: nat, l: nat, m: nat, sc: real, tc: real,
                         grad: array<real>, j: nat, tmpGrad: array<real>)
    requires sintheta == SinTheta(lm, p.X) && cosphi == Cos(lm, p.phi) && sinphi == Sin(lm, p.phi)
    requires j + 2 < grad.Length && tmpGrad.Length == 3 && tmpGrad != grad
    modifies grad, tmpGrad
    ensures var d := GradTerm(lm, b, p, n, l, m, sc, tc);
      && grad[j] == old(grad[j]) + d.0
      && grad[j + 1] == old(grad[j + 1]) + d.1
      && grad[j + 2] == old(grad[j + 2]) + d.2
    ensures forall q :: 0 <= q < grad.Length && !(j <= q <= j + 2) ==> grad[q] == old(grad[q])
  {
    var s, X, phi := p.s, p.X, p.phi;
    var tmp := CosWeight(lm, m, phi, sc, tc);

    var g := SphGradPhiNlm(b, s, phi, X, n, l, m);
    tmpGrad[0], tmpGrad[1], tmpGrad[2] := g.0, g.1, g.2;
    tmpGrad[0] := Scaled(tmpGrad[0], tmp);  // r
    tmpGrad[1] := Scaled(tmpGrad[1], PolarFactor(lm, tmp, sintheta, s));  // theta
    tmpGrad[2] := Scaled(tmpGrad[2], AzimuthalFactor(lm, SinWeight(lm, m, phi, sc, tc), s, sintheta));  // phi

    var d := ToCartesian(sintheta, cosphi, sinphi, X, (tmpGrad[0], tmpGrad[1], tmpGrad[2]));
    assert d == GradTerm(lm, b, p, n, l, m, sc, tc);
    grad[j] := grad[j] + d.0;
    grad[j + 1] := grad[j + 1] + d.1;
    grad[j + 2] := grad[j + 2] + d.2;
  }

  /** The three gradient summands of a triple are the three components of
      its Cartesian gradient term, read at the triple's offset. */
  lemma GradTermAt(lm: Libm, b: Basis, p: Point, c: Coeffs, n: nat, l: nat, m: nat)
    requires Fits(c) && n <= c.nmax && l <= c.lmax && m <= c.lmax
    ensures Offset(n, l, m, c.lmax) < |c.S| && Offset(n, l, m, c.lmax) < |c.T|
    ensures var d := GradTerm(lm, b, p, n, l, m, c.S[Offset(n, l, m, c.lmax)], c.T[Offset(n, l, m, c.lmax)]);
      && TermAt(Summand(lm, b, GradX, p), c, n, l, m) == d.0
      && TermAt(Summand(lm, b, GradY, p), c, n, l, m) == d.1
      && TermAt(Summand(lm, b, GradZ, p), c, n, l, m) == d.2
  {
    OffsetInRange(n, l, m, c.nmax, c.lmax);
  }

  /** The m-loop of c_gradient for row (n, l): grad[j..j+2] += the
      Cartesian gradient term of every triple (n, l, m) with m <= l, read at
      the counter i, which advances once per m from i0. */
  method AddGradientRow(lm: Libm, b: Basis, p: Point, sintheta: real, cosphi: real, sinphi: real,
                        Snlm: seq<real>, Tnlm: seq<real>, nmax: nat, lmax: nat, n: nat, l: nat, i0: nat,
                        grad: array<real>, j: nat, tmpGrad: array<real>)
    returns (i: nat)
    requires sintheta == SinTheta(lm, p.X) && cosphi == Cos(lm, p.phi) && sinphi == Sin(lm, p.phi)
    requires j + 2 < grad.Length && tmpGrad.Length == 3 && tmpGrad != grad
    requires Fits(Coeffs(Snlm, Tnlm, nmax, lmax)) && n <= nmax && l <= lmax
    requires i0 == Offset(n, l, 0, lmax)
    modifies grad, tmpGrad
    ensures var c := Coeffs(Snlm, Tnlm, nmax, lmax);
      && grad[j] == old(grad[j]) + SumM(Summand(lm, b, GradX, p), c, n, l, l + 1)
      && grad[j + 1] == old(grad[j + 1]) + SumM(Summand(lm, b, GradY, p), c, n, l, l + 1)
      && grad[j + 2] == old(grad[j + 2]) + SumM(Summand(lm, b, GradZ, p), c, n, l, l + 1)
    ensures forall q :: 0 <= q < grad.Length && !(j <= q <= j + 2) ==> grad[q] == old(grad[q])
    ensures i == Offset(n, l + 1, 0, lmax)
  {
    ghost var c := Coeffs(Snlm, Tnlm, nmax, lmax);
    ghost var ex, ey, ez := Summand(lm, b, GradX, p), Summand(lm, b, GradY, p), Summand(lm, b, GradZ, p);
    i := i0;
    for m := 0 to lmax + 1
      invariant i == Offset(n, l, m, lmax)
      invariant grad[j] == old(grad[j]) + SumM(ex, c, n, l, if m <= l then m else l + 1)
      invariant grad[j + 1] == old(grad[j + 1]) + SumM(ey, c, n, l, if m <= l then m else l + 1)
      invariant grad[j + 2] == old(grad[j + 2]) + SumM(ez, c, n, l, if m <= l then m else l + 1)
      invariant forall q :: 0 <= q < grad.Length && !(j <= q <= j + 2) ==> grad[q] == old(grad[q])
    {
      if m > l {
        i := i + 1;
        continue;
      }
      OffsetInRange(n, l, m, nmax, lmax);
      GradTermAt(lm, b, p, c, n, l, m);
      AddGradientTerm(lm, b, p, sintheta, cosphi, sinphi, n, l, m, Snlm[i], Tnlm[i], grad, j, tmpGrad);
      i := i + 1;
    }
    OffsetCarry(n, l, lmax);
  }

  /** Lines 83-110 of c_gradient for one point p: grad[j..j+2] += the
      Cartesian gradient term of every triple with m <= l, read at a counter
      i that advances once per visited triple; tmp_grad is the scratch vector
      the basis oracle writes and the loop rescales. Returns the final
      counter. */
  method AddGradientTerms(lm: Libm, b: Basis, p: Point, Snlm: seq<real>, Tnlm: seq<real>,
                          nmax: nat, lmax: nat, grad: array<real>, j: nat, tmpGrad: array<real>)
    returns (i: nat)
    requires j + 2 < grad.Length && tmpGrad.Length == 3 && tmpGrad != grad
    requires Fits(Coeffs(Snlm, Tnlm, nmax, lmax))
    modifies grad, tmpGrad
    ensures var c := Coeffs(Snlm, Tnlm, nmax, lmax);
      && grad[j] == old(grad[j]) + Sum(Summand(lm, b, GradX, p), c)
      && grad[j + 1] == old(grad[j + 1]) + Sum(Summand(lm, b, GradY, p), c)
      && grad[j + 2] == old(grad[j + 2]) + Sum(Summand(lm, b, GradZ, p), c)
    ensures forall q :: 0 <= q < grad.Length && !(j <= q <= j + 2) ==> grad[q] == old(grad[q])
    ensures i == NumCoeff(nmax, lmax)
  {
    ghost var c := Coeffs(Snlm, Tnlm, nmax, lmax);
    ghost var ex, ey, ez := Summand(lm, b, GradX, p), Summand(lm, b, GradY, p), Summand(lm, b, GradZ, p);
    var sintheta := SinTheta(lm, p.X);
    var cosphi := Cos(lm, p.phi);
    var sinphi := Sin(lm, p.phi);

    i := 0;
    for n := 0 to nmax + 1
      invariant i == Offset(n, 0, 0, lmax)
      invariant grad[j] == old(grad[j]) + SumN(ex, c, n)
      invariant grad[j + 1] == old(grad[j + 1]) + SumN(ey, c, n)
      invariant grad[j + 2] == old(grad[j + 2]) + SumN(ez, c, n)
      invariant forall q :: 0 <= q < grad.Length && !(j <= q <= j + 2) ==> grad[q] == old(grad[q])
    {
      for l := 0 to lmax + 1
        invariant i == Offset(n, l, 0, lmax)
        invariant grad[j] == old(grad[j]) + SumN(ex, c, n) + SumL(ex, c, n, l)
        invariant grad[j + 1] == old(grad[j + 1]) + SumN(ey, c, n) + SumL(ey, c, n, l)
        invariant grad[j + 2] == old(grad[j + 2]) + SumN(ez, c, n) + SumL(ez, c, n, l)
        invariant forall q :: 0 <= q < grad.Length && !(j <= q <= j + 2) ==> grad[q] == old(grad[q])
      {
        i := AddGradientRow(lm, b, p, sintheta, cosphi, sinphi, Snlm, Tnlm, nmax, lmax, n, l, i, grad, j, tmpGrad);
      }
      OffsetCarry(n, 0, lmax);
    }
    CounterTotal(nmax, lmax);
  }

  /** Where component d of point k lives in the flat buffers xyz and grad. */
  function Coord(k: nat, d: nat): nat {
    3 * k + d
  }

  /** One pass of the k-loop of c_gradient: the coordinates of point k,
      the triple loop into grad[3k..3k+2], then each of the three
      components *= -G M / r_s^2. */
  method GradientAt(lm: Libm, b: Basis, xyz: seq<real>, k: nat, G: real, M: real, r_s: real,
                    Snlm: seq<real>, Tnlm: seq<real>, nmax: nat, lmax: nat,
                    grad: array<real>, tmpGrad: array<real>)
    requires Coord(k, 2) < |xyz| && Coord(k, 2) < grad.Length
    requires tmpGrad.Length == 3 && tmpGrad != grad
    requires Fits(Coeffs(Snlm, Tnlm, nmax, lmax))
    modifies grad, tmpGrad
    ensures grad[Coord(k, 0)] == Accumulated(lm, b, GradX, xyz, k, r_s, Coeffs(Snlm, Tnlm, nmax, lmax),
                                             old(grad[Coord(k, 0)]), GradientScale(lm, G, M, r_s))
    ensures grad[Coord(k, 1)] == Accumulated(lm, b, GradY, xyz, k, r_s, Coeffs(Snlm, Tnlm, nmax, lmax),
                                             old(grad[Coord(k, 1)]), GradientScale(lm, G, M, r_s))
    ensures grad[Coord(k, 2)] == Accumulated(lm, b, GradZ, xyz, k, r_s, Coeffs(Snlm, Tnlm, nmax, lmax),
                                             old(grad[Coord(k, 2)]), GradientScale(lm, G, M, r_s))
    ensures forall q :: 0 <= q < grad.Length && !(Coord(k, 0) <= q <= Coord(k, 2)) ==> grad[q] == old(grad[q])
  {
    var j := 3 * k;
    var r := Radius(lm, xyz[j], xyz[j + 1], xyz[j + 2]);
    var s := Div(lm, r, r_s);
    var X := Div(lm, xyz[j + 2], r);  // cos(theta)
    var phi := Atan2(lm, xyz[j + 1], xyz[j]);
    assert Point(s, X, phi) == PointAt(lm, xyz, k, r_s);
    var _ := AddGradientTerms(lm, b, Point(s, X, phi), Snlm, Tnlm, nmax, lmax, grad, j, tmpGrad);
    grad[j] := Scaled(grad[j], GradientScale(lm, G, M, r_s));
    grad[j + 1] := Scaled(grad[j + 1], GradientScale(lm, G, M, r_s));
    grad[j + 2] := Scaled(grad[j + 2], GradientScale(lm, G, M, r_s));
  }

  /** c_gradient: for k < K, grad[3k..3k+2] += the Cartesian gradient terms
      at point k, then each component *= -G M / r_s^2. */
  method CGradient(lm: Libm, b: Basis, xyz: seq<real>, K: int, G: real, M: real, r_s: real,
                   Snlm: seq<real>, Tnlm: seq<real>, nmax: nat, lmax: nat, grad: array<real>)
    requires 3 * K <= |xyz| && 3 * K <= grad.Length
    requires Fits(Coeffs(Snlm, Tnlm, nmax, lmax))
    modifies grad
    ensures forall k :: 0 <= k < K ==>
      grad[Coord(k, 0)] == Accumulated(lm, b, GradX, xyz, k, r_s, Coeffs(Snlm, Tnlm, nmax, lmax),
                                       old(grad[Coord(k, 0)]), GradientScale(lm, G, M, r_s))
    ensures forall k :: 0 <= k < K ==>
      grad[Coord(k, 1)] == Accumulated(lm, b, GradY, xyz, k, r_s, Coeffs(Snlm, Tnlm, nmax, lmax),
                                       old(grad[Coord(k, 1)]), GradientScale(lm, G, M, r_s))
    ensures forall k :: 0 <= k < K ==>
      grad[Coord(k, 2)] == Accumulated(lm, b, GradZ, xyz, k, r_s, Coeffs(Snlm, Tnlm, nmax, lmax),
                                       old(grad[Coord(k, 2)]), GradientScale(lm, G, M, r_s))
    ensures forall q :: 0 <= q < grad.Length && 3 * K <= q ==> grad[q] == old(grad[q])
  {
    var tmpGrad := new real[] [0.0, 0.0, 0.0];
    var k := 0;
    while k < K
      invariant 0 <= k && (k <= K || k == 0)
      invariant forall k' :: 0 <= k' < k ==>
        grad[Coord(k', 0)] == Accumulated(lm, b, GradX, xyz, k', r_s, Coeffs(Snlm, Tnlm, nmax, lmax),
                                          old(grad[Coord(k', 0)]), GradientScale(lm, G, M, r_s))
      invariant forall k' :: 0 <= k' < k ==>
        grad[Coord(k', 1)] == Accumulated(lm, b, GradY, xyz, k', r_s, Coeffs(Snlm, Tnlm, nmax, lmax),
                                          old(grad[Coord(k', 1)]), GradientScale(lm, G, M, r_s))
      invariant forall k' :: 0 <= k' < k ==>
        grad[Coord(k', 2)] == Accumulated(lm, b, GradZ, xyz, k', r_s, Coeffs(Snlm, Tnlm, nmax, lmax),
                                          old(grad[Coord(k', 2)]), GradientScale(lm, G, M, r_s))
      invariant forall q :: 3 * k <= q < grad.Length ==> grad[q] == old(grad[q])
    {
      GradientAt(lm, b, xyz, k, G, M, r_s, Snlm, Tnlm, nmax, lmax, grad, tmpGrad);
      k := k + 1;
    }
  }
}
