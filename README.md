# biff basis-function-expansion evaluators, modelled in Dafny

This project models the index, loop and buffer logic of `biff/src/bfe.c`:
the self-consistent-field (SCF) expansion evaluators of the biff package.
It covers the three batch evaluators `c_density`, `c_potential` and
`c_gradient`, and the two single-point adapters `scf_value` and
`scf_gradient`.

An expansion is a triple sum over `n <= nmax`, `l <= lmax` and
`m <= l`. Each density and potential term multiplies a basis function by
`Snlm cos(m phi) + Tnlm sin(m phi)`. A gradient term uses that weight for its
r and theta components. Its phi component is weighted by
`Tnlm cos(m phi) - Snlm sin(m phi)` instead.
The coefficient blocks `Snlm` and `Tnlm` are dense row-major arrays of
`(nmax+1)(lmax+1)^2` slots. The slots with `m > l` are allocated but never read.

Modules:

- `CoeffIndex` (`coeff_index.dfy`) covers the layout of a coefficient block:
  - the closed-form offset `m + (lmax+1)(l + (lmax+1)n)` and its inverse `TripleOf`;
  - the slot count;
  - the counter arithmetic of the loop nests.
- `Numerics` (`numerics.dfy`) holds the numeric collaborators:
  - `sqrt`, `atan2`, `cos` and `sin`, and the basis-function routines of
    `bfe_helper.h`, are uninterpreted. Each is a table, an `imap`, read
    through a total accessor, and every proof holds for every choice of
    tables.
  - C division `Div` is real division. Only its value for a zero divisor
    comes from a table.
  - The truncating `(int)` cast `Trunc` is defined exactly, through `Floor`.
- `Expansion` (`expansion.dfy`) defines the reference sum `Sum`, one term per
  triple with `m <= l`. The sum is built level by level (`SumM`, `SumL`,
  `SumN`). The lemmas here show that the sum reads only the used slots of the
  first `NumCoeff` entries of each block.
- `Bfe` (`bfe.dfy`) holds the three evaluators. They are imperative methods
  whose `for` loops mirror the C, including the `continue` on `m > l` and the
  running counter `i` of `c_potential` and `c_gradient`. The output buffers
  `dens`, `val` and `grad` are arrays updated in place, and so is the scratch
  `tmp_grad`. Each evaluator is proved to leave the following:
  - in each slot of every point `k < K`: `(prior value + Sum) * scale`;
  - in every other slot: what it held before.
- `Adapter` (`adapter.dfy`) holds `scf_value` and `scf_gradient`:
  - the `num_coeff` counting loop;
  - the slicing of the parameter blob `pars`.

Reading the code settles two points the parameter comment of the adapters
leaves open:

- The comment lists the blocks as `[- sin_coeff, cos_coeff]`, but `pars[5..)`
  is passed as `Snlm`, which multiplies `cos(m phi)`. `pars[5 + num_coeff..)`
  is passed as `Tnlm`, which multiplies `sin(m phi)`. The model follows the code.
- With a negative `(int)pars[3]` or `(int)pars[4]`, every loop nest runs no
  triple. `num_coeff` is then 0 and the result is only the scaled initial value.
  The adapters model this case too.

## Model

| member | source | states |
|---|---|---|
| `CoeffIndex.Offset` | biff/src/bfe.c:23 | defines the flat offset of (n, l, m) in a block, m + (lmax+1)(l + (lmax+1)n), the index c_density computes |
| `Expansion.Radius` | biff/src/bfe.c:13 | defines r = sqrt(x^2 + y^2 + z^2) of one query point |
| `Expansion.PointAt` | biff/src/bfe.c:12-16 | defines the coordinates of point k, read from xyz[3k..3k+2]: s = r / r_s, X = z / r and phi = atan2(y, x); c_potential (lines 41-45) and c_gradient (lines 77-81) compute the same |
| `Expansion.SinTheta` | biff/src/bfe.c:83 | defines sintheta = sqrt(1 - X^2) |
| `Expansion.PolarFactor` | biff/src/bfe.c:100 | defines the theta rescaling factor tmp * sintheta / s |
| `Expansion.AzimuthalFactor` | biff/src/bfe.c:101 | defines the phi rescaling factor (Tnlm cos(m phi) - Snlm sin(m phi)) / (s sintheta), given the numerator |
| `Expansion.CosWeight` | biff/src/bfe.c:24-25 | defines the azimuthal weight Snlm[i] cos(m phi) + Tnlm[i] sin(m phi) of a term, the same expression as at lines 56-57 and the tmp of line 96 |
| `Expansion.SinWeight` | biff/src/bfe.c:101 | defines the numerator Tnlm[i] cos(m phi) - Snlm[i] sin(m phi) of the phi rescaling factor |
| `Expansion.DensityTerm` | biff/src/bfe.c:24-25 | defines the density summand of a triple: rho_nlm(s, phi, X, n, l, m) times its azimuthal weight |
| `Expansion.PotentialTerm` | biff/src/bfe.c:56-57 | defines the potential summand of a triple: phi_nlm(s, phi, X, n, l, m) times its azimuthal weight |
| `Expansion.GradTerm` | biff/src/bfe.c:96-105 | defines one triple's Cartesian contribution to grad[j..j+2]: the rescaled tmp_grad combined by ToCartesian with sintheta, cos(phi) and sin(phi) |
| `Expansion.TermAt` | biff/src/bfe.c:23-25 | defines the summand of triple (n, l, m) with Snlm and Tnlm read at its closed-form offset |
| `Expansion.Sum` | biff/src/bfe.c:17-28 | defines the reference sum the evaluators are proved to add: the summand of every triple with n <= nmax, l <= lmax and m <= l, each read at its closed-form offset, built from the partial sums SumN, SumL and SumM |
| `Expansion.Scaled` | biff/src/bfe.c:29 | defines the value of x after `x *= scale`, the C update at lines 29, 62, 99-101 and 111-113 |
| `Expansion.Term` | biff/src/bfe.c:24-25 | defines which summand each output field receives: the density term (lines 24-25), the potential term (56-57), or one Cartesian component of the gradient term (103-105) |
| `Expansion.ScaledSphGrad` | biff/src/bfe.c:96-101 | defines tmp_grad after the rescaling: the oracle's r, theta and phi components multiplied by tmp, by the polar factor and by the azimuthal factor |
| `Expansion.ToCartesian` | biff/src/bfe.c:103-105 | defines the Cartesian combination of the rescaled tmp_grad that the m-loop adds to grad[j], grad[j+1] and grad[j+2] |
| `Bfe.Accumulated` | biff/src/bfe.c:24-29 | defines the final value of an output slot: its prior value plus the expansion's sum at point k, all multiplied by the scale factor, as `+=` then `*=` leave it (also lines 56-62 and 103-113) |
| `Bfe.Coord` | biff/src/bfe.c:103-105 | defines the index `j + d` with `j = 3*k` of component d of point k in xyz and grad (also lines 12, 77 and 111-113) |
| `Bfe.DensityScale` | biff/src/bfe.c:29 | defines the factor M / (r_s r_s r_s) each dens[k] is multiplied by |
| `Bfe.PotentialScale` | biff/src/bfe.c:62 | defines the factor G M / r_s each val[k] is multiplied by |
| `Bfe.GradientScale` | biff/src/bfe.c:111-113 | defines the factor -G M / (r_s r_s) each gradient component is multiplied by |
| `Adapter.CoeffCount` | biff/src/bfe.c:136-143 | defines the value num_coeff reaches: (nmax+1)(lmax+1)^2, or 0 when either order is negative, as in the identical loop of lines 171-178 |
| `Adapter.PassedCoeffs` | biff/src/bfe.c:145-148 | defines the blocks as the adapters pass them, &pars[5] and &pars[5 + num_coeff], each running to the end of pars; scf_gradient passes the same (lines 180-183) |
| `CoeffIndex.OffsetInRange` | biff/src/bfe.c:17-23 | every triple with n <= nmax and l, m <= lmax has its closed-form offset below (nmax+1)(lmax+1)^2, so a block of that length is never read out of bounds |
| `CoeffIndex.LastSlotUsed` | biff/src/bfe.c:17-25 | the last triple (nmax, lmax, lmax) is a used one (m <= l) and sits in the last slot, so the bound (nmax+1)(lmax+1)^2 on the block length is tight |
| `CoeffIndex.TripleOfOffset` | biff/src/bfe.c:23 | the offset map is injective on in-range triples: TripleOf recovers (n, l, m) from its offset |
| `CoeffIndex.OffsetOfTripleOf` | biff/src/bfe.c:23 | the other half of the inverse: every flat offset is the offset of the triple TripleOf assigns to it |
| `CoeffIndex.TripleOfInRange` | biff/src/bfe.c:17-23 | every offset inside the block belongs to a triple of the loop nest's range (n <= nmax) |
| `CoeffIndex.OffsetCarry` | biff/src/bfe.c:47-61 | the carries of the one-per-triple counter at the end of an m-loop and of an l-loop: offset (n, l, lmax+1) is (n, l+1, 0), and (n, lmax+1, 0) is (n+1, 0, 0) |
| `CoeffIndex.CounterTotal` | biff/src/bfe.c:47-61 | after the whole loop nest the counter, at offset (nmax+1, 0, 0), equals (nmax+1)(lmax+1)^2 |
| `Numerics.Div` | biff/src/bfe.c:14-15 | C division yields the real quotient whenever the divisor is non-zero |
| `Numerics.Trunc` | biff/src/bfe.c:129-130 | the (int) cast truncates toward zero: the result is within 1 of the argument, non-negative for a non-negative argument and non-positive for a non-positive one |
| `Expansion.TermAtSameUsedSlots` | biff/src/bfe.c:20-25 | a term with m <= l reads a used slot, so blocks that agree on the used slots give the same term |
| `Expansion.SumMSameUsedSlots` | biff/src/bfe.c:19-26 | an m-loop's partial sum depends only on the used slots |
| `Expansion.SumLSameUsedSlots` | biff/src/bfe.c:18-27 | an l-loop's partial sum depends only on the used slots |
| `Expansion.SumNSameUsedSlots` | biff/src/bfe.c:17-28 | an n-loop's partial sum depends only on the used slots |
| `Expansion.SumReadsUsedSlots` | biff/src/bfe.c:17-28 | two coefficient blocks that agree on every used slot give the same expansion sum |
| `Expansion.InertSlotIgnored` | biff/src/bfe.c:20-21 | overwriting Snlm and Tnlm at an inert slot (m > l) leaves the sum, and so every evaluator output, unchanged |
| `Expansion.SumReadsBlockOnly` | biff/src/bfe.c:17-28 | only the first (nmax+1)(lmax+1)^2 entries of each block are read: the sum over the truncated blocks equals the sum over the full ones |
| `Expansion.SingleTerm` | biff/src/bfe.c:47-58 | with nmax = lmax = 0 the expansion is the single term (0, 0, 0) read from slot 0 |
| `Bfe.PriorIsScaled` | biff/src/bfe.c:24-29 | an output slot ends as the scaled expansion plus its prior value times the scale: a non-zero buffer is not overwritten |
| `Bfe.PointIsLocal` | biff/src/bfe.c:12-16 | the value at point k depends on the positions only through xyz[3k..3k+3) |
| `Bfe.AddDensityRow` | biff/src/bfe.c:19-26 | the m-loop of c_density adds the density term of every m <= l of row (n, l), read at the closed-form offset, into dens[k], and changes no other slot |
| `Bfe.AddDensityTerms` | biff/src/bfe.c:17-28 | the triple loop of c_density adds the whole expansion sum into dens[k] and changes no other slot |
| `Bfe.CDensity` | biff/src/bfe.c:4-31 | for every k < K, dens[k] ends as (its prior value + the density sum at point k) * M / r_s^3; slots from K on are unchanged |
| `Bfe.AddPotentialRow` | biff/src/bfe.c:50-59 | the m-loop of c_potential, entered with the counter at the row's first offset, adds every used term of row (n, l), each read at the counter, which equals the closed-form offset at every m; it leaves the counter at the next row's first offset |
| `Bfe.AddPotentialTerms` | biff/src/bfe.c:47-61 | the counter loop of c_potential adds the whole potential sum into val[k], changes no other slot, and ends with the counter at (nmax+1)(lmax+1)^2 |
| `Bfe.CPotential` | biff/src/bfe.c:33-64 | for every k < K, val[k] ends as (its prior value + the potential sum at point k) * G M / r_s; slots from K on are unchanged |
| `Bfe.AddGradientTerm` | biff/src/bfe.c:96-105 | one used triple: tmp_grad is filled by sph_grad_phi_nlm and rescaled, and its Cartesian combination is added to grad[j..j+2]; nothing else in grad changes |
| `Bfe.GradTermAt` | biff/src/bfe.c:96-105 | a proof helper, not a modelling claim: it unfolds TermAt and Term for the three gradient fields, so that the x, y and z summands of a triple are the components of its gradient term with Snlm and Tnlm read at its in-range offset |
| `Bfe.AddGradientRow` | biff/src/bfe.c:90-108 | the m-loop of c_gradient adds the three Cartesian components of every used term of row (n, l) to grad[j..j+2], with the counter at the closed-form offset |
| `Bfe.AddGradientTerms` | biff/src/bfe.c:87-110 | the counter loop of c_gradient adds the three gradient sums into grad[j..j+2], changes nothing else, and ends with the counter at (nmax+1)(lmax+1)^2 |
| `Bfe.GradientAt` | biff/src/bfe.c:77-113 | one pass of the k-loop: each of grad[3k..3k+2] ends as (its prior value + its gradient sum) * -G M / r_s^2, and every other slot is unchanged |
| `Bfe.CGradient` | biff/src/bfe.c:66-115 | for every k < K, each of grad[3k], grad[3k+1], grad[3k+2] ends as (its prior value + its gradient sum at point k) * -G M / r_s^2; slots from 3K on are unchanged |
| `Adapter.CountCoefficients` | biff/src/bfe.c:136-143 | the num_coeff loop counts (nmax+1)(lmax+1)^2 slots, the same number the evaluators' counter ends at, and none when either order is negative |
| `Adapter.BlobCoeffs` | biff/src/bfe.c:145-148 | the Snlm block is pars[5 .. 5+num_coeff) and the Tnlm block is pars[5+num_coeff .. 5+2 num_coeff), both inside pars |
| `Adapter.PassedCoeffsSum` | biff/src/bfe.c:145-148 | the blocks as passed (pointers into pars running to its end) and the exact blocks give the same sum |
| `Adapter.ScfValue` | biff/src/bfe.c:117-152 | scf_value returns exactly the potential sum at q times G M / r_s, since val[0] starts at 0, with G, M, r_s, nmax and lmax read from pars[0..5) and the blocks from BlobCoeffs; with a negative order it returns 0 |
| `Adapter.ScfGradient` | biff/src/bfe.c:154-184 | scf_gradient leaves each of grad[0..3) as (its prior value + its gradient sum at q) * -G M / r_s^2: it does not clear grad; with a negative order only the scaling happens; grad from index 3 on is unchanged |

## Left out

- Floating point: doubles are reals, so rounding, overflow, infinities and NaN are not modelled. A division by zero yields an unconstrained value.
- The transcendental functions and the basis functions `rho_nlm`, `phi_nlm` and `sph_grad_phi_nlm` are uninterpreted. `bfe_helper.h` is not part of this model. The spherical-to-Cartesian algebra is reproduced as written (Expansion.ScaledSphGrad and Expansion.ToCartesian); it is not claimed to be physically correct.
- The oracles are tables that hold a value at zero and read 0 outside their domain. The true functions are total tables, so every proof covers them.
- The loop bodies of the evaluators are split into helper methods: each triple loop and each m-loop is its own method, and so is the per-point body of c_gradient (Bfe.GradientAt) and its per-triple update (Bfe.AddGradientTerm); the per-point bodies of c_density and c_potential stay inline. The loops, counters and updates are those of the C.
- The read-only inputs `xyz`, `Snlm`, `Tnlm`, `pars` and `q` are sequences (values). The model does not cover an output buffer that aliases an input.
- Bfe.CDensity: takes nmax and lmax as non-negative integers. With a negative order the C loop nest runs no triple and only scales; the adapters model that case.
- Bfe.CPotential: takes nmax and lmax as non-negative integers, for the same reason.
- Bfe.CGradient: takes nmax and lmax as non-negative integers, for the same reason.
- Numerics.Trunc: models `(int)` on doubles within range; a cast of a value outside the range of `int` is undefined behaviour in C and is not modelled.
- Adapter.CountCoefficients: does not model overflow of the `int` counter for huge orders.
- Bfe.CDensity: the closed-form offset `i` (bfe.c:23) and the point index `j = 3*k` with its reads up to `j+2` (bfe.c:12-15) are unbounded integers; C `int` overflow, undefined once (nmax+1)(lmax+1)^2 or 3K+2 exceeds INT_MAX, is not modelled.
- Bfe.CPotential: the running counter `i++` (bfe.c:52, 58) and `j = 3*k` (bfe.c:41-44) are unbounded integers; their C `int` overflow is not modelled.
- Bfe.CGradient: the running counter `i++` (bfe.c:92, 107) and `j = 3*k` with the writes to `grad[j+2]` (bfe.c:77-80, 103-113) are unbounded integers; their C `int` overflow is not modelled.
- The time argument `t` of the adapters is accepted and ignored, as in the C.
- The oracle sph_grad_phi_nlm is assumed to overwrite all three entries of tmp_grad on every call (bfe.c:98). The C reuses tmp_grad across triples (bfe.c:74), so an oracle that wrote only some entries would carry the previous triple's values over; the model does not capture that.
- Parallel evaluation of points is not part of the source and is not modelled.
- `biff/core.py`, the Python-side coefficient fitting and numpy plumbing, is not part of this model.
