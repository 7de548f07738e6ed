/** The adapters scf_value and scf_gradient of biff/src/bfe.c.

    Both read their parameters from one flat array pars: G, M, r_s, nmax and
    lmax in pars[0..5), then the cosine block Snlm and the sine block Tnlm,
    each num_coeff long, one after the other. They count num_coeff with a
    triple loop nest and call the batch evaluator on the single point q.
 */
module Adapter {
  import opened CoeffIndex
  import opened Numerics
  import opened Expansion
  import opened Bfe

  /** The number of slots the counting loop nest visits: (nmax+1)(lmax+1)^2,
      or none when either order is negative. */
  function CoeffCount(nmax: int, lmax: int): nat {
    if nmax < 0 || lmax < 0 then 0 else NumCoeff(nmax, lmax)
  }

  /** The loop nest that computes num_coeff. */
  method CountCoefficients(nmax: int, lmax: int) returns (numCoeff: nat)
    ensures numCoeff == CoeffCount(nmax, lmax)
  {
    numCoeff := 0;
    var n := 0;
    while n < nmax + 1
      invariant 0 <= n && (n <= nmax + 1 || n == 0)
      invariant lmax < 0 ==> numCoeff == 0
      invariant lmax >= 0 ==> numCoeff == Offset(n, 0, 0, lmax)
    {
      var l := 0;
      while l < lmax + 1
        invariant 0 <= l && (l <= lmax + 1 || l == 0)
        invariant lmax < 0 ==> numCoeff == 0
        invariant lmax >= 0 ==> numCoeff == Offset(n, l, 0, lmax)
      {
        var m := 0;
        while m < lmax + 1
          invariant 0 <= m <= lmax + 1
          invariant numCoeff == Offset(n, l, m, lmax)
        {
          numCoeff := numCoeff + 1;
          m := m + 1;
        }
        OffsetCarry(n, l, lmax);
        l := l + 1;
      }
      if lmax >= 0 {
        OffsetCarry(n, 0, lmax);
      }
      n := n + 1;
    }
    if nmax >= 0 && lmax >= 0 {
      CounterTotal(nmax, lmax);
    }
  }

  /** pars is long enough for its header and both coefficient blocks. */
  predicate ParsFit(pars: seq<real>) {
    |pars| >= 5 && |pars| >= 5 + 2 * CoeffCount(Trunc(pars[3]), Trunc(pars[4]))
  }

  /** The two blocks of pars, exactly num_coeff slots each, Snlm first. */
  function BlobCoeffs(pars: seq<real>): (c: Coeffs)
    requires ParsFit(pars) && Trunc(pars[3]) >= 0 && Trunc(pars[4]) >= 0
    ensures Fits(c) && c.nmax == Trunc(pars[3]) && c.lmax == Trunc(pars[4])
    ensures var nc := NumCoeff(c.nmax, c.lmax);
      |c.S| == nc && |c.T| == nc &&
      forall i :: 0 <= i < nc ==> c.S[i] == pars[5 + i] && c.T[i] == pars[5 + nc + i]
  {
    var nmax, lmax := Trunc(pars[3]), Trunc(pars[4]);
    var nc := NumCoeff(nmax, lmax);
    Coeffs(pars[5..5 + nc], pars[5 + nc..5 + 2 * nc], nmax, lmax)
  }

  /** The coefficients as c_potential and c_gradient receive them: the
      blocks run from &pars[5] and &pars[5 + num_coeff] to the end of pars. */
  function PassedCoeffs(pars: seq<real>, nmax: nat, lmax: nat): Coeffs
    requires |pars| >= 5 + 2 * NumCoeff(nmax, lmax)
  {
    Coeffs(pars[5..], pars[5 + NumCoeff(nmax, lmax)..], nmax, lmax)
  }

  /** The blocks as passed and the exact blocks give the same sum. */
  lemma PassedCoeffsSum(e: Summand, pars: seq<real>)
    requires ParsFit(pars) && Trunc(pars[3]) >= 0 && Trunc(pars[4]) >= 0
    ensures Fits(PassedCoeffs(pars, Trunc(pars[3]), Trunc(pars[4])))
    ensures Sum(e, PassedCoeffs(pars, Trunc(pars[3]), Trunc(pars[4]))) == Sum(e, BlobCoeffs(pars))
  {
    var c := PassedCoeffs(pars, Trunc(pars[3]), Trunc(pars[4]));
    var nc := NumCoeff(c.nmax, c.lmax);
    SumReadsBlockOnly(e, c);
    assert c.(S := c.S[..nc], T := c.T[..nc]) == BlobCoeffs(pars);
  }

  /** scf_value: the potential at q, from val[0] = 0, with the orders
      truncated from pars[3] and pars[4]; t is ignored. */
  method ScfValue(lm: Libm, b: Basis, t: real, pars: seq<real>, q: seq<real>) returns (v: real)
    requires ParsFit(pars) && |q| >= 3
    ensures Trunc(pars[3]) < 0 || Trunc(pars[4]) < 0 ==> v == 0.0
    ensures Trunc(pars[3]) >= 0 && Trunc(pars[4]) >= 0 ==>
      v == Accumulated(lm, b, Potential, q, 0, pars[2], BlobCoeffs(pars), 0.0,
                       PotentialScale(lm, pars[0], pars[1], pars[2]))
  {
    var G, M, r_s := pars[0], pars[1], pars[2];
    var nmax, lmax := Trunc(pars[3]), Trunc(pars[4]);
    var val := new real[] [0.0];
    var numCoeff := CountCoefficients(nmax, lmax);
    if nmax >= 0 && lmax >= 0 {
      CPotential(lm, b, q, 1, G, M, r_s, pars[5..], pars[5 + numCoeff..], nmax, lmax, val);
      PassedCoeffsSum(Summand(lm, b, Potential, PointAt(lm, q, 0, r_s)), pars);
    } else {
      // c_potential's triple loops run no iteration: only the scaling remains.
      val[0] := Scaled(val[0], PotentialScale(lm, G, M, r_s));
    }
    v := val[0];
  }

  /** scf_gradient: grad[0..3) += the gradient at q, then scaled; grad is
      not cleared first, so whatever it held is scaled into the result. */
  method ScfGradient(lm: Libm, b: Basis, t: real, pars: seq<real>, q: seq<real>, grad: array<real>)
    requires ParsFit(pars) && |q| >= 3 && grad.Length >= 3
    modifies grad
    ensures Trunc(pars[3]) < 0 || Trunc(pars[4]) < 0 ==>
      forall d :: 0 <= d < 3 ==> grad[d] == Scaled(old(grad[d]), GradientScale(lm, pars[0], pars[1], pars[2]))
    ensures Trunc(pars[3]) >= 0 && Trunc(pars[4]) >= 0 ==>
      grad[0] == Accumulated(lm, b, GradX, q, 0, pars[2], BlobCoeffs(pars), old(grad[0]),
                             GradientScale(lm, pars[0], pars[1], pars[2])) &&
      grad[1] == Accumulated(lm, b, GradY, q, 0, pars[2], BlobCoeffs(pars), old(grad[1]),
                             GradientScale(lm, pars[0], pars[1], pars[2])) &&
      grad[2] == Accumulated(lm, b, GradZ, q, 0, pars[2], BlobCoeffs(pars), old(grad[2]),
                             GradientScale(lm, pars[0], pars[1], pars[2]))
    ensures forall i :: 3 <= i < grad.Length ==> grad[i] == old(grad[i])
  {
    var G, M, r_s := pars[0], pars[1], pars[2];
    var nmax, lmax := Trunc(pars[3]), Trunc(pars[4]);
    var numCoeff := CountCoefficients(nmax, lmax);
    if nmax >= 0 && lmax >= 0 {
      ghost var g0, g1, g2 := grad[0], grad[1], grad[2];
      CGradient(lm, b, q, 1, G, M, r_s, pars[5..], pars[5 + numCoeff..], nmax, lmax, grad);
      ghost var c := PassedCoeffs(pars, nmax, lmax);
      ghost var scale := GradientScale(lm, G, M, r_s);
      assert grad[Coord(0, 0)] == Accumulated(lm, b, GradX, q, 0, r_s, c, g0, scale);
      assert grad[Coord(0, 1)] == Accumulated(lm, b, GradY, q, 0, r_s, c, g1, scale);
      assert grad[Coord(0, 2)] == Accumulated(lm, b, GradZ, q, 0, r_s, c, g2, scale);
      ghost var p := PointAt(lm, q, 0, r_s);
      PassedCoeffsSum(Summand(lm, b, GradX, p), pars);
      PassedCoeffsSum(Summand(lm, b, GradY, p), pars);
      PassedCoeffsSum(Summand(lm, b, GradZ, p), pars);
    } else {
      // c_gradient's triple loops run no iteration: only the scaling remains.
      var s := GradientScale(lm, G, M, r_s);
      grad[0], grad[1], grad[2] := Scaled(grad[0], s), Scaled(grad[1], s), Scaled(grad[2], s);
    }
  }
}
