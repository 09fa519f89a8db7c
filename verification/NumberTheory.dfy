/** Modular arithmetic over a prime modulus: congruences, Euclid's lemma, Fermat's little
    theorem, the inverse by exponentiation and the square root modulo a prime 4k + 3. */
module NumberTheory {
  import opened Outcomes

  ghost predicate Divides(k: int, n: int)
    requires k != 0
  {
    n % k == 0
  }

  ghost predicate IsPrime(p: int) {
    2 <= p && forall k :: 2 <= k < p ==> !Divides(k, p)
  }

  /** Congruence modulo m. */
  ghost predicate Cong(m: int, a: int, b: int)
    requires 0 < m
  {
    (a - b) % m == 0
  }

  // ----- quotients and remainders -----

  lemma MulBetween(m: int, t: int)
    requires 0 < m
    requires -m < m * t < m
    ensures t == 0
  {
  }

  lemma MulSwap(a: int, b: int, x: int, y: int)
    ensures (a * b) * (x * y) == (a * x) * (b * y)
  {
    assert (a * b) * (x * y) == a * (b * (x * y));
    assert b * (x * y) == x * (b * y);
  }

  lemma MulAssoc(a: int, b: int, c: int)
    ensures (a * b) * c == a * (b * c) && b * (a * c) == a * (b * c)
  {
  }

  lemma ModUnique(m: int, a: int, q: int, r: int)
    requires 0 < m && 0 <= r < m
    requires a == m * q + r
    ensures a % m == r && a / m == q
  {
    var t := a / m - q;
    assert a == m * (a / m) + a % m;
    assert m * t == m * (a / m) - m * q;
    MulBetween(m, t);
  }

  lemma MultipleIsZero(m: int, t: int)
    requires 0 < m
    ensures (m * t) % m == 0
  {
    ModUnique(m, m * t, t, 0);
  }

  lemma ZeroScale(m: int, a: int, k: int)
    requires 0 < m && a % m == 0
    ensures (a * k) % m == 0 && (k * a) % m == 0
  {
    var q := a / m;
    assert a == m * q;
    assert a * k == m * (q * k);
    MultipleIsZero(m, q * k);
  }

  lemma ZeroAdd(m: int, a: int, b: int)
    requires 0 < m && a % m == 0 && b % m == 0
    ensures (a + b) % m == 0 && (a - b) % m == 0
  {
    var q, r := a / m, b / m;
    assert a + b == m * (q + r);
    assert a - b == m * (q - r);
    MultipleIsZero(m, q + r);
    MultipleIsZero(m, q - r);
  }

  // ----- congruences -----

  lemma CongMod(m: int, a: int)
    requires 0 < m
    ensures Cong(m, a, a % m) && Cong(m, a % m, a)
  {
    assert a - a % m == m * (a / m);
    assert a % m - a == m * (-(a / m));
    MultipleIsZero(m, a / m);
    MultipleIsZero(m, -(a / m));
  }

  lemma CongIff(m: int, a: int, b: int)
    requires 0 < m
    ensures Cong(m, a, b) <==> a % m == b % m
  {
    if Cong(m, a, b) {
      var t := (a - b) / m;
      assert a == b + m * t;
      assert a == m * (b / m + t) + b % m;
      ModUnique(m, a, b / m + t, b % m);
    }
    if a % m == b % m {
      assert a - b == m * (a / m - b / m);
      MultipleIsZero(m, a / m - b / m);
    }
  }

  lemma CongAdd(m: int, a: int, b: int, c: int, d: int)
    requires 0 < m && Cong(m, a, b) && Cong(m, c, d)
    ensures Cong(m, a + c, b + d) && Cong(m, a - c, b - d)
  {
    ZeroAdd(m, a - b, c - d);
    assert (a - b) + (c - d) == (a + c) - (b + d);
    assert (a - b) - (c - d) == (a - c) - (b - d);
  }

  lemma CongMul(m: int, a: int, b: int, c: int, d: int)
    requires 0 < m && Cong(m, a, b) && Cong(m, c, d)
    ensures Cong(m, a * c, b * d)
  {
    ZeroScale(m, a - b, c);
    ZeroScale(m, c - d, b);
    ZeroAdd(m, (a - b) * c, b * (c - d));
    assert (a - b) * c + b * (c - d) == a * c - b * d;
  }

  lemma CongTrans(m: int, a: int, b: int, c: int)
    requires 0 < m && Cong(m, a, b) && Cong(m, b, c)
    ensures Cong(m, a, c)
  {
    ZeroAdd(m, a - b, b - c);
    assert (a - b) + (b - c) == a - c;
  }

  lemma CongSym(m: int, a: int, b: int)
    requires 0 < m && Cong(m, a, b)
    ensures Cong(m, b, a)
  {
    CongIff(m, a, b);
    CongIff(m, b, a);
  }

  /** Two reduced residues that are congruent are equal. */
  lemma CongReduced(m: int, a: int, b: int)
    requires 0 <= a < m && 0 <= b < m && Cong(m, a, b)
    ensures a == b
  {
    CongIff(m, a, b);
    ModUnique(m, a, 0, a);
    ModUnique(m, b, 0, b);
  }

  // ----- Euclid's lemma -----

  lemma {:induction false} EuclidSmall(p: int, a: int, b: int)
    requires IsPrime(p) && 0 < a < p && (a * b) % p == 0
    ensures b % p == 0
    decreases a
  {
    if a > 1 {
      assert !Divides(a, p);
      var q, r := p / a, p % a;
      ZeroScale(p, a * b, q);
      MultipleIsZero(p, b);
      ZeroAdd(p, p * b, q * (a * b));
      assert r * b == p * b - q * (a * b) by {
        assert r == p - a * q;
      }
      EuclidSmall(p, r, b);
    }
  }

  /** A prime that divides a product divides one of its factors. */
  lemma Euclid(p: int, a: int, b: int)
    requires IsPrime(p) && (a * b) % p == 0
    ensures a % p == 0 || b % p == 0
  {
    if a % p != 0 {
      var q := a / p;
      assert a * b == (a % p) * b + p * (q * b) by { assert a == p * q + a % p; }
      MultipleIsZero(p, q * b);
      ZeroAdd(p, a * b, p * (q * b));
      EuclidSmall(p, a % p, b);
    }
  }

  // ----- powers -----

  function Pow(b: int, e: nat): int {
    if e == 0 then 1 else b * Pow(b, e - 1)
  }

  /** Python's three-argument pow. */
  function PowMod(b: int, e: nat, m: int): int
    requires 0 < m
  {
    Pow(b, e) % m
  }

  lemma {:induction false} PowAdd(b: int, e: nat, f: nat)
    ensures Pow(b, e + f) == Pow(b, e) * Pow(b, f)
  {
    if e > 0 {
      PowAdd(b, e - 1, f);
      assert Pow(b, e + f) == b * Pow(b, e - 1 + f);
      assert b * (Pow(b, e - 1) * Pow(b, f)) == (b * Pow(b, e - 1)) * Pow(b, f);
    }
  }

  lemma {:induction false} PowProduct(a: int, b: int, e: nat)
    ensures Pow(a * b, e) == Pow(a, e) * Pow(b, e)
  {
    if e > 0 {
      PowProduct(a, b, e - 1);
      MulSwap(a, b, Pow(a, e - 1), Pow(b, e - 1));
    }
  }

  lemma {:induction false} PowCong(m: int, a: int, b: int, e: nat)
    requires 0 < m && Cong(m, a, b)
    ensures Cong(m, Pow(a, e), Pow(b, e))
  {
    if e > 0 {
      PowCong(m, a, b, e - 1);
      CongMul(m, a, b, Pow(a, e - 1), Pow(b, e - 1));
    }
  }

  // ----- Fermat's little theorem, by the binomial theorem -----

  function Binomial(n: nat, k: nat): nat {
    if k == 0 then 1
    else if n == 0 then 0
    else Binomial(n - 1, k - 1) + Binomial(n - 1, k)
  }

  lemma {:induction false} BinomialAbove(n: nat, k: nat)
    requires n < k
    ensures Binomial(n, k) == 0
  {
    if n > 0 {
      BinomialAbove(n - 1, k - 1);
      BinomialAbove(n - 1, k);
    }
  }

  lemma {:induction false} BinomialDiagonal(n: nat)
    ensures Binomial(n, n) == 1
  {
    if n > 0 {
      BinomialDiagonal(n - 1);
      BinomialAbove(n - 1, n);
    }
  }

  lemma {:induction false} BinomialAbsorb(n: nat, k: nat)
    requires 1 <= n && 1 <= k
    ensures k * Binomial(n, k) == n * Binomial(n - 1, k - 1)
    decreases n
  {
    if n == 1 {
      if k > 1 {
        BinomialAbove(1, k);
        BinomialAbove(0, k - 1);
      }
    } else if k == 1 {
      BinomialAbsorb(n - 1, 1);
    } else {
      BinomialAbsorb(n - 1, k - 1);
      BinomialAbsorb(n - 1, k);
      var u, v := Binomial(n - 1, k - 1), Binomial(n - 1, k);
      var s, t := Binomial(n - 2, k - 2), Binomial(n - 2, k - 1);
      AbsorbStep(n, k, u, v, s, t);
    }
  }

  lemma AbsorbStep(n: int, k: int, u: int, v: int, s: int, t: int)
    requires u == s + t && (k - 1) * u == (n - 1) * s && k * v == (n - 1) * t
    ensures k * (u + v) == n * u
  {
    assert k * (u + v) == (k - 1) * u + u + k * v;
    assert (n - 1) * s + (n - 1) * t == (n - 1) * (s + t);
    assert (n - 1) * u + u == n * u;
  }

  /** The first terms of the expansion of (a + 1)^n. */
  function Expansion(n: nat, a: int, last: nat): int {
    Binomial(n, last) * Pow(a, last) + if last == 0 then 0 else Expansion(n, a, last - 1)
  }

  lemma {:induction false} ExpansionStep(n: nat, a: int, last: nat)
    requires 1 <= n && 1 <= last
    ensures Expansion(n, a, last) == Expansion(n - 1, a, last) + a * Expansion(n - 1, a, last - 1)
  {
    var u, v, x := Binomial(n - 1, last - 1), Binomial(n - 1, last), Pow(a, last - 1);
    assert Binomial(n, last) == u + v && Pow(a, last) == a * x;
    var e := if last > 1 then Expansion(n - 1, a, last - 2) else 0;
    assert Expansion(n - 1, a, last - 1) == u * x + e;
    TermStep(a, u, v, x, e);
    if last > 1 {
      ExpansionStep(n, a, last - 1);
    } else {
      assert Expansion(n, a, 0) == 1 && Expansion(n - 1, a, 0) == 1;
    }
  }

  lemma TermStep(a: int, u: int, v: int, x: int, e: int)
    ensures (u + v) * (a * x) == a * (u * x) + v * (a * x)
    ensures a * (u * x + e) == a * (u * x) + a * e
  {
    MulAssoc(u, a, x);
  }

  lemma {:induction false} BinomialTheorem(n: nat, a: int)
    ensures Expansion(n, a, n) == Pow(a + 1, n)
  {
    if n > 0 {
      BinomialTheorem(n - 1, a);
      ExpansionStep(n, a, n);
      BinomialAbove(n - 1, n);
      var e := Expansion(n - 1, a, n - 1);
      assert Expansion(n - 1, a, n) == e;
      assert e + a * e == (a + 1) * e;
    }
  }

  lemma {:induction false} MiddleTermsVanish(p: int, a: int, last: nat)
    requires IsPrime(p) && last < p
    ensures Expansion(p, a, last) % p == 1
  {
    if last == 0 {
      ModUnique(p, 1, 0, 1);
    } else {
      MiddleTermsVanish(p, a, last - 1);
      BinomialAbsorb(p, last);
      MultipleIsZero(p, Binomial(p - 1, last - 1));
      EuclidSmall(p, last, Binomial(p, last));
      ZeroScale(p, Binomial(p, last), Pow(a, last));
      var t, e := Binomial(p, last) * Pow(a, last), Expansion(p, a, last - 1);
      assert (t + e) - e == t;
      CongIff(p, t + e, e);
    }
  }

  /** a^p is congruent to a. */
  lemma {:induction false} FermatPower(p: int, a: nat)
    requires IsPrime(p)
    ensures Cong(p, Pow(a, p), a)
    decreases a
  {
    if a == 0 {
      assert Pow(0, p) == 0 * Pow(0, p - 1);
      ModUnique(p, 0, 0, 0);
    } else {
      FermatPower(p, a - 1);
      BinomialTheorem(p, a - 1);
      MiddleTermsVanish(p, a - 1, p - 1);
      BinomialDiagonal(p);
      var e := Expansion(p, a - 1, p - 1);
      assert Pow(a, p) == 1 * Pow(a - 1, p) + e;
      ModUnique(p, 1, 0, 1);
      CongIff(p, e, 1);
      CongAdd(p, Pow(a - 1, p), a - 1, e, 1);
    }
  }

  /** Fermat's little theorem. */
  lemma FermatLittle(p: int, a: int)
    requires IsPrime(p) && a % p != 0
    ensures PowMod(a, p - 1, p) == 1
  {
    var b := a % p;
    FermatPower(p, b);
    assert Pow(b, p) - b == b * (Pow(b, p - 1) - 1) by {
      assert Pow(b, p) == b * Pow(b, p - 1);
    }
    EuclidSmall(p, b, Pow(b, p - 1) - 1);
    CongMod(p, a);
    PowCong(p, a, b, p - 1);
    CongIff(p, Pow(a, p - 1), Pow(b, p - 1));
    CongIff(p, Pow(b, p - 1), 1);
    ModUnique(p, 1, 0, 1);
  }

  // ----- the inverse -----

  /** aether_protocol_c/ephemeral_signer.py `_modinv`. */
  function ModInv(a: int, m: int): Result<int>
    requires 2 <= m
  {
    if a % m == 0 then Err(NoInverse) else Ok(PowMod(a % m, m - 2, m))
  }

  /** The power a^(m-2) is the inverse of every a that a prime m does not divide, and `ModInv`
      raises for the others only. */
  lemma ModInvCorrect(a: int, m: int)
    requires IsPrime(m)
    ensures ModInv(a, m).Ok? <==> a % m != 0
    ensures ModInv(a, m).Ok? ==>
              var w := ModInv(a, m).value;
              0 < w < m && Cong(m, a * w, 1) && (a * w) % m == 1
  {
    if a % m != 0 {
      var b := a % m;
      var x, w := Pow(b, m - 2), ModInv(a, m).value;
      ModUnique(m, b, 0, b);
      FermatLittle(m, b);
      assert Pow(b, m - 1) == b * x;
      CongMod(m, x);
      CongMod(m, a);
      CongMul(m, a, b, w, x);
      CongIff(m, a * w, b * x);
      ModUnique(m, 1, 0, 1);
      CongIff(m, a * w, 1);
      FactorOfOne(m, a, w);
    }
  }

  lemma FactorOfOne(m: int, a: int, w: int)
    requires 2 <= m && (a * w) % m == 1
    ensures w != 0
  {
    ModUnique(m, 0, 0, 0);
  }

  /** A factor that the prime does not divide cancels. */
  lemma CongCancel(p: int, k: int, a: int, b: int)
    requires IsPrime(p) && k % p != 0 && Cong(p, k * a, k * b)
    ensures Cong(p, a, b)
  {
    assert k * a - k * b == k * (a - b);
    Euclid(p, k, a - b);
  }

  // ----- square roots modulo a prime 4k + 3 -----

  /** The root that `verify_static` computes. */
  function SqrtMod(c: int, p: int): int
    requires 2 <= p
  {
    PowMod(c, (p + 1) / 4, p)
  }

  /** The square of the root of y^2 is y^2 again. */
  lemma SqrtSquares(p: int, y: int)
    requires IsPrime(p) && p % 4 == 3
    ensures var t := SqrtMod((y * y) % p, p); Cong(p, t * t, y * y)
  {
    var c := (y * y) % p;
    var e := (p + 1) / 4;
    var t := SqrtMod(c, p);
    var root := Pow(y * y, e);
    CongMod(p, y * y);
    PowCong(p, c, y * y, e);
    CongMod(p, Pow(c, e));
    CongTrans(p, t, Pow(c, e), root);
    CongMul(p, t, root, t, root);
    PowProduct(y, y, e);
    PowAdd(y, e, e);
    PowAdd(y, 2 * e, 2 * e);
    assert root * root == Pow(y, p + 1);
    PowAdd(y, p - 1, 2);
    assert Pow(y, 2) == y * (y * Pow(y, 0));
    if y % p == 0 {
      ZeroScale(p, y, y);
      ZeroScale(p, y * y, Pow(y, p - 1));
      ZeroAdd(p, Pow(y, p - 1) * (y * y), y * y);
    } else {
      FermatLittle(p, y);
      ModUnique(p, 1, 0, 1);
      CongIff(p, Pow(y, p - 1), 1);
      assert Cong(p, y * y, y * y) by { CongIff(p, y * y, y * y); }
      CongMul(p, Pow(y, p - 1), 1, y * y, y * y);
    }
    CongTrans(p, t * t, root * root, y * y);
  }

  /** Two reduced residues with the same square are equal or opposite. */
  lemma SameSquare(p: int, s: int, t: int)
    requires IsPrime(p) && 0 <= s < p && 0 <= t < p && Cong(p, s * s, t * t)
    ensures s == t || s + t == p
  {
    assert s * s - t * t == (s - t) * (s + t);
    Euclid(p, s - t, s + t);
    if (s - t) % p == 0 {
      CongReduced(p, s, t);
    } else {
      assert s + t == p * ((s + t) / p);
      assert 0 <= s + t < 2 * p;
      var q := (s + t) / p;
      assert p * (q - 1) == s + t - p;
      if s + t != 0 { MulBetween(p, q - 1); }
    }
  }
}
