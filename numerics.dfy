/** The numeric collaborators of biff/src/bfe.c, left uninterpreted.

    Doubles are modelled as reals. The C math library functions the
    evaluators call, and the basis-function routines of bfe_helper.h, are
    given as tables: the graph of each function, as an imap from argument
    to value, read through a total accessor. Every property of the model
    holds for every choice of tables, in particular for total ones. A table
    is required to hold some value at zero; that costs no generality, since
    the value there may be any real, and it keeps the verifier from
    considering empty tables.
 */
module Numerics {

  /** The arguments (s, phi, X, n, l, m) of a basis-function call. */
  type Arg6 = (real, real, real, int, int, int)

  type Table1 = f: imap<real, real> | 0.0 in f witness imap[0.0 := 0.0]
  type Table2 = f: imap<(real, real), real> | (0.0, 0.0) in f witness imap[(0.0, 0.0) := 0.0]
  type Table6 = f: imap<Arg6, real> | (0.0, 0.0, 0.0, 0, 0, 0) in f
    witness imap[(0.0, 0.0, 0.0, 0, 0, 0) := 0.0]
  type Table6v = f: imap<Arg6, (real, real, real)> | (0.0, 0.0, 0.0, 0, 0, 0) in f
    witness imap[(0.0, 0.0, 0.0, 0, 0, 0) := (0.0, 0.0, 0.0)]

  /** sqrt, atan2, cos and sin of <math.h>, plus the value IEEE division
      yields for a zero divisor (an infinity or NaN, which no real is). */
  datatype Libm = Libm(sqrt: Table1, atan2: Table2, cos: Table1, sin: Table1, divByZero: Table1)

  function Sqrt(lm: Libm, x: real): real { if x in lm.sqrt then lm.sqrt[x] else 0.0 }
  function Atan2(lm: Libm, y: real, x: real): real { if (y, x) in lm.atan2 then lm.atan2[(y, x)] else 0.0 }
  function Cos(lm: Libm, x: real): real { if x in lm.cos then lm.cos[x] else 0.0 }
  function Sin(lm: Libm, x: real): real { if x in lm.sin then lm.sin[x] else 0.0 }

  /** The basis-function oracle of bfe_helper.h: the density basis rho_nlm,
      the potential basis phi_nlm, and sph_grad_phi_nlm, which writes the
      three components (r, theta, phi) of the spherical gradient of phi_nlm,
      before c_gradient rescales them. */
  datatype Basis = Basis(rho: Table6, phi: Table6, sphGradPhi: Table6v)

  function RhoNlm(b: Basis, s: real, phi: real, X: real, n: int, l: int, m: int): real {
    if (s, phi, X, n, l, m) in b.rho then b.rho[(s, phi, X, n, l, m)] else 0.0
  }

  function PhiNlm(b: Basis, s: real, phi: real, X: real, n: int, l: int, m: int): real {
    if (s, phi, X, n, l, m) in b.phi then b.phi[(s, phi, X, n, l, m)] else 0.0
  }

  function SphGradPhiNlm(b: Basis, s: real, phi: real, X: real, n: int, l: int, m: int): (real, real, real) {
    if (s, phi, X, n, l, m) in b.sphGradPhi then b.sphGradPhi[(s, phi, X, n, l, m)] else (0.0, 0.0, 0.0)
  }

  /** The C division a / b: the real quotient for a non-zero divisor. */
  function Div(lm: Libm, a: real, b: real): (q: real)
    ensures b != 0.0 ==> q * b == a
  {
    if b != 0.0 then a / b else if a in lm.divByZero then lm.divByZero[a] else 0.0
  }

  /** The C conversion (int)x of a double, which truncates toward zero. */
  function Trunc(x: real): (k: int)
    ensures -1.0 < x - k as real < 1.0
    ensures 0.0 <= x ==> 0 <= k && k as real <= x
    ensures x <= 0.0 ==> k <= 0 && x <= k as real
  {
    if x >= 0.0 then x.Floor else -((-x).Floor)
  }
}
