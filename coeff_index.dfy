/** The layout of the coefficient arrays Snlm and Tnlm (biff/src/bfe.c).

    Each array is a dense block indexed by a triple (n, l, m) with
    n in [0, nmax] and l, m in [0, lmax], stored row-major: n slowest, m
    fastest. The slots with m > l are allocated but never read.
 */
module CoeffIndex {

  /** A (radial order, angular degree, azimuthal order) triple. */
  datatype Triple = Triple(n: nat, l: nat, m: nat)

  /** Number of slots in one coefficient block: (nmax+1)(lmax+1)^2. */
  function NumCoeff(nmax: nat, lmax: nat): nat {
    (nmax + 1) * (lmax + 1) * (lmax + 1)
  }

  /** The closed-form flat offset of (n, l, m) used by c_density. */
  function Offset(n: nat, l: nat, m: nat, lmax: nat): nat {
    m + (lmax + 1) * (l + (lmax + 1) * n)
  }

  /** The triple stored at flat offset i: the inverse of Offset. */
  function TripleOf(i: nat, lmax: nat): (t: Triple)
    ensures t.l <= lmax && t.m <= lmax
  {
    Triple(i / (lmax + 1) / (lmax + 1), (i / (lmax + 1)) % (lmax + 1), i % (lmax + 1))
  }

  /** A slot is used when its triple has m <= l; all other slots are inert. */
  predicate IsUsed(i: nat, lmax: nat) {
    TripleOf(i, lmax).m <= TripleOf(i, lmax).l
  }

  /** Euclidean division is determined by quotient and remainder bounds. */
  lemma DivModUnique(a: nat, q: nat, r: nat, d: nat)
    requires 0 <= r < d
    requires a == q * d + r
    ensures a / d == q && a % d == r
  {
    var q', r' := a / d, a % d;
    assert a == q' * d + r';
    if q' < q {
      MulLeq(q' + 1, q, d);
    } else if q < q' {
      MulLeq(q + 1, q', d);
    }
  }

  lemma MulLeq(a: nat, b: nat, d: nat)
    requires a <= b
    ensures a * d <= b * d
  {
  }

  /** a (k + 1) == a k + a. */
  lemma MulSucc(a: nat, k: nat)
    ensures a * (k + 1) == a * k + a
  {
  }

  /** A bound on a dividend bounds the quotient. */
  lemma DivBound(a: nat, b: nat, d: nat)
    requires 0 < d && a < b * d
    ensures a / d < b
  {
    assert a == (a / d) * d + a % d;
    if a / d >= b {
      MulLeq(b, a / d, d);
    }
  }

  /** Every in-range triple lands inside the block. */
  lemma OffsetInRange(n: nat, l: nat, m: nat, nmax: nat, lmax: nat)
    requires n <= nmax && l <= lmax && m <= lmax
    ensures Offset(n, l, m, lmax) < NumCoeff(nmax, lmax)
  {
    var L1 := lmax + 1;
    var row := l + L1 * n;
    MulSucc(L1, n);
    assert row + 1 <= L1 * (n + 1);
    MulSucc(L1, row);
    MulLeq(row + 1, L1 * (n + 1), L1);
    assert L1 * (row + 1) <= (L1 * (n + 1)) * L1;
    assert (L1 * (n + 1)) * L1 == (n + 1) * L1 * L1;
    MulLeq(n + 1, nmax + 1, L1 * L1);
    assert (n + 1) * L1 * L1 <= (nmax + 1) * L1 * L1;
  }

  /** The last triple, (nmax, lmax, lmax), is used and sits in the last slot,
      so a block shorter than NumCoeff is read out of bounds. */
  lemma LastSlotUsed(nmax: nat, lmax: nat)
    ensures Offset(nmax, lmax, lmax, lmax) + 1 == NumCoeff(nmax, lmax)
    ensures IsUsed(Offset(nmax, lmax, lmax, lmax), lmax)
  {
    TripleOfOffset(nmax, lmax, lmax, lmax);
  }

  /** The offsets of distinct in-range triples are distinct: the flat index
      recovers the triple. */
  lemma {:induction false} TripleOfOffset(n: nat, l: nat, m: nat, lmax: nat)
    requires l <= lmax && m <= lmax
    ensures TripleOf(Offset(n, l, m, lmax), lmax) == Triple(n, l, m)
  {
    var L1 := lmax + 1;
    var i := Offset(n, l, m, lmax);
    DivModUnique(i, l + L1 * n, m, L1);
    DivModUnique(l + L1 * n, n, l, L1);
  }

  /** Every flat offset is the offset of the triple stored there. */
  lemma {:induction false} OffsetOfTripleOf(i: nat, lmax: nat)
    ensures var t := TripleOf(i, lmax); Offset(t.n, t.l, t.m, lmax) == i
  {
    var L1 := lmax + 1;
    var q := i / L1;
    assert i == q * L1 + i % L1;
    assert q == (q / L1) * L1 + q % L1;
  }

  /** A slot inside the block holds a triple of the loop nest's range. */
  lemma {:induction false} TripleOfInRange(i: nat, nmax: nat, lmax: nat)
    requires i < NumCoeff(nmax, lmax)
    ensures TripleOf(i, lmax).n <= nmax
  {
    var L1 := lmax + 1;
    DivBound(i, (nmax + 1) * L1, L1);
    DivBound(i / L1, nmax + 1, L1);
  }

  /** The carries of the running counter of c_potential and c_gradient,
      which advances by one per visited triple: at the end of an m-loop it
      has reached the next row's first offset, and at the end of an l-loop
      the next block's first offset. Within a row each step of m is one
      slot, so the counter agrees with the closed form at every triple. */
  lemma OffsetCarry(n: nat, l: nat, lmax: nat)
    ensures Offset(n, l, lmax + 1, lmax) == Offset(n, l + 1, 0, lmax)
    ensures Offset(n, lmax + 1, 0, lmax) == Offset(n + 1, 0, 0, lmax)
  {
    var L1 := lmax + 1;
    MulSucc(L1, l + L1 * n);
    MulSucc(L1, n);
  }

  /** After the whole loop nest the counter has counted every slot. */
  lemma CounterTotal(nmax: nat, lmax: nat)
    ensures Offset(nmax + 1, 0, 0, lmax) == NumCoeff(nmax, lmax)
  {
  }
}
