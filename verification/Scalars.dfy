/** Scalar multiples of a curve point, the order of a point, and the fixed-length ladder. */
module Scalars {
  import opened Outcomes
  import opened NumberTheory
  import opened Curve

  /** Domain parameters: field prime, group order and generator. */
  datatype Domain = Domain(p: int, n: int, gx: int, gy: int) {
    function G(): Point {
      Affine(gx, gy)
    }

    /** The sizes that can be read off the constants. */
    predicate InRange() {
      && 3 < p < TWO_256 && p % 4 == 3
      && 2 < n < TWO_256
    }

    ghost predicate WellFormed() {
      InRange() && OnCurve(p, G())
    }

    /** What the proofs suppose of a curve; the first line is checked for the constants below, the
        others are hypotheses. */
    ghost predicate Sound() {
      && WellFormed()
      && IsPrime(p) && IsPrime(n)
      && Associative(p)
      && Times(p, n, G()) == Infinity
    }
  }

  const SECP256K1 := Domain(
    0xFFFFFFFFFFFFFFFFFFFFFFFFFFFFFFFFFFFFFFFFFFFFFFFFFFFFFFFEFFFFFC2F,
    0xFFFFFFFFFFFFFFFFFFFFFFFFFFFFFFFEBAAEDCE6AF48A03BBFD25E8CD0364141,
    0x79BE667EF9DCBBAC55A06295CE870B07029BFCDB2DCE28D959F2815B16F81798,
    0x483ADA7726A3C4655DA4FBFC0E1108A8FD17B448A68554199C47D08FFB10D4B8)

  const TWO_256 := 0x1_0000000000000000_0000000000000000_0000000000000000_0000000000000000

  lemma PowTwo256(e: nat)
    requires e == 256
    ensures Pow(2, e) == TWO_256
  {
    assert Pow(2, 4) == 16;
    PowAdd(2, 4, 4);
    PowAdd(2, 8, 8);
    PowAdd(2, 16, 16);
    PowAdd(2, 32, 32);
    PowAdd(2, 64, 64);
    PowAdd(2, 128, 128);
  }

  /** The constants of the source pass every check that needs no hypothesis. */
  lemma Secp256k1WellFormed()
    ensures SECP256K1.WellFormed()
    ensures var t := SECP256K1.p + 1 - SECP256K1.n; t * t <= 4 * SECP256K1.p
  {
  }

  // ----- associativity as a hypothesis -----

  ghost predicate AssociativeAt(p: int, a: Point, b: Point, c: Point)
    requires 2 <= p
  {
    Plus(p, Plus(p, a, b), c) == Plus(p, a, Plus(p, b, c))
  }

  ghost predicate Associative(p: int)
    requires 2 <= p
  {
    forall a, b, c :: OnCurve(p, a) && OnCurve(p, b) && OnCurve(p, c) ==> AssociativeAt(p, a, b, c)
  }

  /** The curve points form a group: prime odd field and associative addition. */
  ghost predicate IsGroup(p: int) {
    IsPrime(p) && p != 2 && Associative(p)
  }

  // ----- multiples -----

  /** Repeated addition. */
  function Times(p: int, k: nat, a: Point): Point
    requires 2 <= p
  {
    if k == 0 then Infinity else Plus(p, Times(p, k - 1, a), a)
  }

  lemma {:induction false} TimesOnCurve(p: int, k: nat, a: Point)
    requires IsPrime(p) && p != 2 && OnCurve(p, a)
    ensures OnCurve(p, Times(p, k, a))
  {
    if k > 0 {
      TimesOnCurve(p, k - 1, a);
      PlusClosed(p, Times(p, k - 1, a), a);
    }
  }

  lemma {:induction false} TimesAdd(p: int, j: nat, k: nat, a: Point)
    requires IsGroup(p) && OnCurve(p, a)
    ensures Times(p, j + k, a) == Plus(p, Times(p, j, a), Times(p, k, a))
  {
    TimesOnCurve(p, j, a);
    if k == 0 {
      PlusInverse(p, Times(p, j, a));
    } else {
      TimesAdd(p, j, k - 1, a);
      TimesOnCurve(p, k - 1, a);
      assert AssociativeAt(p, Times(p, j, a), Times(p, k - 1, a), a);
    }
  }

  lemma {:induction false} TimesInfinity(p: int, k: nat)
    requires 2 <= p
    ensures Times(p, k, Infinity) == Infinity
  {
    if k > 0 { TimesInfinity(p, k - 1); }
  }

  lemma {:induction false} TimesTimes(p: int, j: nat, k: nat, a: Point)
    requires IsGroup(p) && OnCurve(p, a)
    ensures 0 <= j * k && Times(p, j, Times(p, k, a)) == Times(p, j * k, a)
  {
    if j > 0 {
      TimesTimes(p, j - 1, k, a);
      assert j * k == (j - 1) * k + k;
      TimesAdd(p, (j - 1) * k, k, a);
    }
  }

  lemma TimesOne(p: int, a: Point)
    requires 2 <= p
    ensures Times(p, 1, a) == a
  {
    assert Times(p, 0, a) == Infinity;
  }

  lemma TimesKilled(p: int, n: int, q: nat, a: Point)
    requires IsGroup(p) && OnCurve(p, a) && 0 < n && Times(p, n, a) == Infinity
    ensures 0 <= q * n && Times(p, q * n, a) == Infinity
  {
    TimesTimes(p, q, n, a);
    TimesInfinity(p, q);
  }

  lemma TimesDropped(p: int, n: int, q: nat, r: nat, a: Point)
    requires IsGroup(p) && OnCurve(p, a) && 0 < n && Times(p, n, a) == Infinity
    ensures 0 <= q * n && Times(p, q * n + r, a) == Times(p, r, a)
  {
    hide Plus, OnCurve, Associative;
    TimesKilled(p, n, q, a);
    TimesAdd(p, q * n, r, a);
    TimesOnCurve(p, r, a);
    PlusInverse(p, Times(p, r, a));
  }

  /** Multiples of a point killed by n depend on the scalar modulo n only. */
  lemma TimesMod(p: int, n: int, k: nat, a: Point)
    requires IsGroup(p) && OnCurve(p, a) && 0 < n && Times(p, n, a) == Infinity
    ensures Times(p, k, a) == Times(p, k % n, a)
  {
    hide Plus, IsGroup, OnCurve, Times;
    var q, r := k / n, k % n;
    assert k == q * n + r;
    TimesDropped(p, n, q, r, a);
  }

  lemma TimesCong(p: int, n: int, j: nat, k: nat, a: Point)
    requires IsGroup(p) && OnCurve(p, a) && 0 < n && Times(p, n, a) == Infinity && Cong(n, j, k)
    ensures Times(p, j, a) == Times(p, k, a)
  {
    CongIff(n, j, k);
    TimesMod(p, n, j, a);
    TimesMod(p, n, k, a);
  }

  /** If k*a is infinity and k has an inverse w modulo n, then a is infinity. */
  lemma KilledByUnit(p: int, n: int, k: nat, w: nat, a: Point)
    requires IsGroup(p) && OnCurve(p, a) && 0 < n && Times(p, n, a) == Infinity && Times(p, k, a) == Infinity
    requires (k * w) % n == 1 % n
    ensures a == Infinity
  {
    hide Associative, OnCurve, Plus, Times;
    assert w * k == k * w;
    TimesTimes(p, w, k, a);
    TimesInfinity(p, w);
    CongIff(n, w * k, 1);
    TimesCong(p, n, w * k, 1, a);
    TimesOne(p, a);
  }

  /** A point killed by a prime n, other than infinity, has order exactly n. */
  lemma OrderExact(p: int, n: int, k: nat, a: Point)
    requires IsGroup(p) && IsPrime(n) && OnCurve(p, a) && a != Infinity && Times(p, n, a) == Infinity
    ensures Times(p, k, a) == Infinity <==> k % n == 0
  {
    hide Associative, OnCurve, Plus;
    if k % n == 0 {
      TimesMod(p, n, k, a);
    } else if Times(p, k, a) == Infinity {
      hide Times, Cong;
      ModInvCorrect(k, n);
      ModUnique(n, 1, 0, 1);
      KilledByUnit(p, n, k, ModInv(k, n).value, a);
    }
  }

  /** What adds up to infinity is the negation. */
  lemma InverseUnique(p: int, a: Point, b: Point)
    requires IsGroup(p) && OnCurve(p, a) && OnCurve(p, b) && Plus(p, a, b) == Infinity
    ensures b == Neg(p, a)
  {
    PlusInverse(p, a);
    PlusInverse(p, b);
    PlusCommutes(p, a, Neg(p, a));
    assert AssociativeAt(p, Neg(p, a), a, b);
    PlusInverse(p, Neg(p, a));
  }

  /** The complementary scalar gives the opposite point. */
  lemma TimesComplement(p: int, n: int, k: nat, a: Point)
    requires IsGroup(p) && OnCurve(p, a) && k <= n && Times(p, n, a) == Infinity
    ensures Times(p, n - k, a) == Neg(p, Times(p, k, a))
  {
    TimesAdd(p, k, n - k, a);
    TimesOnCurve(p, k, a);
    TimesOnCurve(p, n - k, a);
    InverseUnique(p, Times(p, k, a), Times(p, n - k, a));
  }

  lemma NegPlus(p: int, a: Point, b: Point)
    requires IsGroup(p) && OnCurve(p, a) && OnCurve(p, b)
    ensures Plus(p, Neg(p, a), Neg(p, b)) == Neg(p, Plus(p, a, b))
  {
    var na, nb, c := Neg(p, a), Neg(p, b), Plus(p, a, b);
    PlusInverse(p, a);
    PlusInverse(p, b);
    PlusClosed(p, a, b);
    PlusClosed(p, na, nb);
    PlusCommutes(p, na, nb);
    PlusClosed(p, nb, na);
    assert AssociativeAt(p, a, b, Plus(p, nb, na));
    assert AssociativeAt(p, b, nb, na);
    PlusInverse(p, na);
    InverseUnique(p, c, Plus(p, na, nb));
  }

  // ----- the ladder -----

  /** Bit i of a scalar. */
  function Bit(k: nat, i: nat): int {
    Top(k, i) % 2
  }

  /** `k >> i`. */
  function Top(k: nat, i: nat): nat {
    k / Shift(i)
  }

  function Shift(i: nat): (s: nat)
    ensures s == Pow(2, i) && 0 < s
  {
    if i == 0 then 1 else 2 * Shift(i - 1)
  }

  /** One round of `_point_mul`: one addition and one doubling, in the order the bit selects. */
  function LadderStep(p: int, bit: int, r0: Point, r1: Point): Result<(Point, Point)>
    requires 2 <= p
  {
    var sum :- PointAdd(p, r0, r1);
    var twice :- PointDouble(p, if bit == 0 then r0 else r1);
    Ok(if bit == 0 then (twice, sum) else (sum, twice))
  }

  /** The pair of accumulators once bits `bits - 1` down to `i` have been consumed. */
  function Ladder(p: int, k: nat, a: Point, bits: nat, i: nat): Result<(Point, Point)>
    requires 2 <= p && i <= bits
    decreases bits - i
  {
    if i == bits then Ok((Infinity, a))
    else
      var r :- Ladder(p, k, a, bits, i + 1);
      LadderStep(p, Bit(k, i), r.0, r.1)
  }

  /** The result of `_point_mul`, as an expression. */
  function LadderMul(p: int, k: nat, a: Point, bits: nat): Result<Point>
    requires 2 <= p
  {
    var r :- Ladder(p, k, a, bits, 0);
    Ok(r.0)
  }

  /** `_point_mul`: the fixed schedule does `bits` additions and `bits` doublings whatever the
      scalar is. */
  method PointMul(p: int, k: nat, a: Point, bits: nat)
    returns (r: Result<Point>, ghost adds: nat, ghost doubles: nat)
    requires 2 <= p
    ensures r == LadderMul(p, k, a, bits)
    ensures r.Ok? ==> adds == doubles == bits
  {
    var r0, r1 := Infinity, a;
    adds, doubles := 0, 0;
    for i := bits downto 0
      invariant Ladder(p, k, a, bits, i) == Ok((r0, r1))
      invariant adds == doubles == bits - i
    {
      var bit := Bit(k, i);
      var sum := PointAdd(p, r0, r1);
      var twice := PointDouble(p, if bit == 0 then r0 else r1);
      if sum.Err? || twice.Err? {
        r := Err(if sum.Err? then sum.error else twice.error);
        LadderFails(p, k, a, bits, i, r.error);
        return;
      }
      if bit == 0 {
        r1 := sum.value;
        r0 := twice.value;
      } else {
        r0 := sum.value;
        r1 := twice.value;
      }
      adds, doubles := adds + 1, doubles + 1;
    }
    r := Ok(r0);
  }

  lemma {:induction false} LadderFails(p: int, k: nat, a: Point, bits: nat, i: nat, e: Error)
    requires 2 <= p && i <= bits && Ladder(p, k, a, bits, i) == Err(e)
    ensures LadderMul(p, k, a, bits) == Err(e)
    decreases i
  {
    if i > 0 { LadderFails(p, k, a, bits, i - 1, e); }
  }

  lemma HalfQuotient(k: nat, s: nat, h: nat, b: nat, r: nat)
    requires 0 < s && b < 2 && r < s && k == s * (2 * h + b) + r
    ensures k / (2 * s) == h
  {
    MulAssoc(2, s, h);
    if b == 0 {
      assert s * (2 * h + b) == (2 * s) * h;
      ModUnique(2 * s, k, h, r);
    } else {
      assert s * (2 * h + b) == (2 * s) * h + s;
      ModUnique(2 * s, k, h, s + r);
    }
  }

  lemma ShiftSplit(k: nat, i: nat)
    ensures Top(k, i) == 2 * Top(k, i + 1) + Bit(k, i)
  {
    var s, q := Shift(i), Top(k, i);
    assert k == s * q + k % s;
    assert q == 2 * (q / 2) + q % 2;
    HalfQuotient(k, s, q / 2, q % 2, k % s);
    assert Shift(i + 1) == 2 * s;
  }

  /** The two accumulators of the ladder never coincide unless the point is infinity, so the
      addition that raises is never reached. */
  lemma LadderAddDefined(p: int, m: nat, a: Point)
    requires IsGroup(p) && OnCurve(p, a)
    ensures PointAdd(p, Times(p, m, a), Times(p, m + 1, a))
         == Ok(Plus(p, Times(p, m, a), Times(p, m + 1, a)))
  {
    var u, v := Times(p, m, a), Times(p, m + 1, a);
    TimesOnCurve(p, m, a);
    TimesOnCurve(p, m + 1, a);
    PointAddClosed(p, u, v);
    if u == v && u.Affine? {
      PlusInverse(p, u);
      PlusCommutes(p, u, Neg(p, u));
      assert AssociativeAt(p, Neg(p, u), u, a);
      PlusInverse(p, a);
      TimesInfinity(p, m);
    }
  }

  lemma LadderStepIsTimes(p: int, m: nat, a: Point, bit: int)
    requires IsGroup(p) && OnCurve(p, a) && 0 <= bit <= 1
    ensures LadderStep(p, bit, Times(p, m, a), Times(p, m + 1, a))
         == Ok((Times(p, 2 * m + bit, a), Times(p, 2 * m + bit + 1, a)))
  {
    hide Plus, PointAdd, PointDouble;
    LadderAddDefined(p, m, a);
    TimesAdd(p, m, m + 1, a);
    TimesOnCurve(p, m, a);
    TimesOnCurve(p, m + 1, a);
    if bit == 0 {
      TimesAdd(p, m, m, a);
      PointDoubleIsPlus(p, Times(p, m, a));
    } else {
      TimesAdd(p, m + 1, m + 1, a);
      PointDoubleIsPlus(p, Times(p, m + 1, a));
    }
  }

  /** The ladder refines repeated addition on every curve point, and its two accumulators stay
      one step apart at every round. */
  lemma {:induction false} LadderIsTimes(p: int, k: nat, a: Point, bits: nat, i: nat)
    requires IsGroup(p) && OnCurve(p, a) && i <= bits && k < Shift(bits)
    ensures Ladder(p, k, a, bits, i) == Ok((Times(p, Top(k, i), a), Times(p, Top(k, i) + 1, a)))
    decreases bits - i
  {
    if i == bits {
      ModUnique(Shift(bits), k, 0, k);
      TimesOne(p, a);
    } else {
      hide Top, Bit, LadderStep;
      LadderIsTimes(p, k, a, bits, i + 1);
      ShiftSplit(k, i);
      LadderStepIsTimes(p, Top(k, i + 1), a, Bit(k, i));
    }
  }

  /** `_point_mul` of every 256-bit scalar is the scalar multiple, and never raises. */
  lemma PointMulIsTimes(p: int, k: nat, a: Point)
    requires IsGroup(p) && OnCurve(p, a) && k < TWO_256
    ensures LadderMul(p, k, a, 256) == Ok(Times(p, k, a))
  {
    var bits := 256;
    PowTwo256(bits);
    LadderMulIsTimes(p, k, a, bits);
  }

  lemma LadderMulIsTimes(p: int, k: nat, a: Point, bits: nat)
    requires IsGroup(p) && OnCurve(p, a) && k < Shift(bits)
    ensures LadderMul(p, k, a, bits) == Ok(Times(p, k, a))
  {
    LadderIsTimes(p, k, a, bits, 0);
  }
}
