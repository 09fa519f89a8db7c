/** Affine arithmetic on y^2 = x^3 + A*x + B over a prime field, with the coefficients of
    secp256k1 (SEC 2 version 2, section 2.4.1). */
module Curve {
  import opened Outcomes
  import opened NumberTheory

  const A := 0
  const B := 7

  datatype Point = Infinity | Affine(x: int, y: int)

  function Rhs(x: int): int {
    x * x * x + A * x + B
  }

  /** A reduced point of the curve, or infinity. */
  ghost predicate OnCurve(p: int, a: Point)
    requires 2 <= p
  {
    a.Affine? ==> 0 <= a.x < p && 0 <= a.y < p && Cong(p, a.y * a.y, Rhs(a.x))
  }

  /** `num * _modinv(den, P) % P`, the slope of a chord or a tangent. */
  function Slope(p: int, num: int, den: int): Result<int>
    requires 2 <= p
  {
    var w :- ModInv(den, p);
    Ok(num * w % p)
  }

  /** `_point_add`; the inverse of 2y raises when a point with y = 0 is added to itself. */
  function PointAdd(p: int, a: Point, b: Point): Result<Point>
    requires 2 <= p
  {
    if a.Infinity? then Ok(b)
    else if b.Infinity? then Ok(a)
    else if a.x == b.x && a.y != b.y then Ok(Infinity)
    else
      var slope :- if a.x == b.x && a.y == b.y
                   then Slope(p, 3 * a.x * a.x + A, 2 * a.y)
                   else Slope(p, b.y - a.y, b.x - a.x);
      var x3 := (slope * slope - a.x - b.x) % p;
      var y3 := (slope * (a.x - x3) - a.y) % p;
      Ok(Affine(x3, y3))
  }

  /** `_point_double`. */
  function PointDouble(p: int, a: Point): Result<Point>
    requires 2 <= p
  {
    if a.Infinity? then Ok(Infinity)
    else if a.y == 0 then Ok(Infinity)
    else
      var slope :- Slope(p, 3 * a.x * a.x + A, 2 * a.y);
      var x3 := (slope * slope - 2 * a.x) % p;
      var y3 := (slope * (a.x - x3) - a.y) % p;
      Ok(Affine(x3, y3))
  }

  function Neg(p: int, a: Point): Point
    requires 2 <= p
  {
    if a.Infinity? then Infinity else Affine(a.x, (p - a.y) % p)
  }

  /** The group operation: `_point_add`, with infinity where it raises. */
  function Plus(p: int, a: Point, b: Point): Point
    requires 2 <= p
  {
    match PointAdd(p, a, b)
    case Ok(c) => c
    case Err(_) => Infinity
  }

  // ----- slopes -----

  lemma SlopeCorrect(p: int, num: int, den: int)
    requires IsPrime(p)
    ensures Slope(p, num, den).Ok? <==> den % p != 0
    ensures Slope(p, num, den).Ok? ==>
              var l := Slope(p, num, den).value; 0 <= l < p && Cong(p, l * den, num)
  {
    ModInvCorrect(den, p);
    if den % p != 0 {
      var w := ModInv(den, p).value;
      var l := num * w % p;
      CongMod(p, num * w);
      assert Cong(p, den, den) by { CongIff(p, den, den); }
      CongMul(p, l, num * w, den, den);
      assert Cong(p, num, num) by { CongIff(p, num, num); }
      CongMul(p, num, num, den * w, 1);
      assert (num * w) * den == num * (den * w) by { MulAssoc(num, w, den); }
      CongTrans(p, l * den, (num * w) * den, num);
    }
  }

  lemma DistinctResidues(p: int, a: int, b: int)
    requires 0 <= a < p && 0 <= b < p && a != b
    ensures (a - b) % p != 0
  {
    if Cong(p, a, b) { CongReduced(p, a, b); }
  }

  lemma TwiceNonZero(p: int, y: int)
    requires IsPrime(p) && p != 2 && 0 < y < p
    ensures (2 * y) % p != 0
  {
    if (2 * y) % p == 0 {
      Euclid(p, 2, y);
      ModUnique(p, 2, 0, 2);
      ModUnique(p, y, 0, y);
    }
  }

  // ----- the third intersection of a line with the curve -----

  /** The divided difference of the cubic minus the squared line through (x1, y1). */
  function Diff(x1: int, y1: int, l: int, x: int): int {
    x * x + x * x1 + x1 * x1 + A - l * l * (x - x1) - 2 * l * y1
  }

  lemma LineIdentity(x1: int, y1: int, l: int, x: int)
    ensures var m := l * (x - x1) + y1;
            (Rhs(x) - m * m) - (Rhs(x1) - y1 * y1) == (x - x1) * Diff(x1, y1, l, x)
  {
    var u := x - x1;
    assert x * x * x - x1 * x1 * x1 == u * (x * x + x * x1 + x1 * x1);
    assert (l * u + y1) * (l * u + y1) - y1 * y1 == u * (l * l * u + 2 * l * y1) by {
      assert (l * u) * (l * u) == u * (l * l * u);
    }
  }

  lemma DiffIdentity(x1: int, y1: int, l: int, x2: int, x3: int)
    ensures Diff(x1, y1, l, x3) - Diff(x1, y1, l, x2) == (x3 - x2) * (x3 + x2 + x1 - l * l)
  {
    assert x3 * x3 - x2 * x2 == (x3 - x2) * (x3 + x2);
    assert l * l * (x3 - x1) - l * l * (x2 - x1) == (x3 - x2) * (l * l);
  }

  /** A line that meets the curve at (x1, y1) and again at x2 meets it at x3 as well. */
  lemma ThirdPoint(p: int, x1: int, y1: int, x2: int, l: int)
    requires IsPrime(p) && Cong(p, y1 * y1, Rhs(x1)) && Diff(x1, y1, l, x2) % p == 0
    ensures var x3 := (l * l - x1 - x2) % p;
            var y3 := (l * (x1 - x3) - y1) % p;
            OnCurve(p, Affine(x3, y3))
  {
    var x3 := (l * l - x1 - x2) % p;
    var y3 := (l * (x1 - x3) - y1) % p;
    CongMod(p, l * l - x1 - x2);
    assert x3 + x2 + x1 - l * l == x3 - (l * l - x1 - x2);
    ZeroScale(p, x3 + x2 + x1 - l * l, x3 - x2);
    DiffIdentity(x1, y1, l, x2, x3);
    ZeroAdd(p, Diff(x1, y1, l, x3) - Diff(x1, y1, l, x2), Diff(x1, y1, l, x2));
    ZeroScale(p, Diff(x1, y1, l, x3), x3 - x1);
    LineIdentity(x1, y1, l, x3);
    var m := l * (x3 - x1) + y1;
    ZeroAdd(p, (Rhs(x3) - m * m) - (Rhs(x1) - y1 * y1), y1 * y1 - Rhs(x1));
    assert Cong(p, Rhs(x3), m * m);
    var v := l * (x1 - x3) - y1;
    assert v == -m;
    CongMod(p, v);
    CongMul(p, y3, v, y3, v);
    assert v * v == m * m;
    CongSym(p, Rhs(x3), m * m);
    CongTrans(p, y3 * y3, m * m, Rhs(x3));
  }

  // ----- the chord -----

  /** The slope through two points with different abscissae. */
  lemma ChordSlope(p: int, a: Point, b: Point)
    requires IsPrime(p) && OnCurve(p, a) && OnCurve(p, b) && a.Affine? && b.Affine? && a.x != b.x
    ensures var s := Slope(p, b.y - a.y, b.x - a.x);
            s.Ok? && 0 <= s.value < p && Cong(p, s.value * (b.x - a.x), b.y - a.y)
  {
    DistinctResidues(p, b.x, a.x);
    SlopeCorrect(p, b.y - a.y, b.x - a.x);
  }

  lemma ChordDiff(p: int, a: Point, b: Point, l: int)
    requires IsPrime(p) && OnCurve(p, a) && OnCurve(p, b) && a.Affine? && b.Affine? && a.x != b.x
    requires Cong(p, l * (b.x - a.x), b.y - a.y)
    ensures Diff(a.x, a.y, l, b.x) % p == 0
  {
    var m := l * (b.x - a.x) + a.y;
    assert Cong(p, a.y, a.y) by { CongIff(p, a.y, a.y); }
    CongAdd(p, l * (b.x - a.x), b.y - a.y, a.y, a.y);
    CongMul(p, m, b.y, m, b.y);
    CongTrans(p, m * m, b.y * b.y, Rhs(b.x));
    CongSym(p, m * m, Rhs(b.x));
    CongSym(p, a.y * a.y, Rhs(a.x));
    ZeroAdd(p, Rhs(b.x) - m * m, Rhs(a.x) - a.y * a.y);
    LineIdentity(a.x, a.y, l, b.x);
    Euclid(p, b.x - a.x, Diff(a.x, a.y, l, b.x));
    DistinctResidues(p, b.x, a.x);
  }

  // ----- the tangent -----

  lemma TangentSlope(p: int, a: Point)
    requires IsPrime(p) && p != 2 && OnCurve(p, a) && a.Affine? && a.y != 0
    ensures var s := Slope(p, 3 * a.x * a.x + A, 2 * a.y);
            s.Ok? && 0 <= s.value < p && Diff(a.x, a.y, s.value, a.x) % p == 0
  {
    TwiceNonZero(p, a.y);
    SlopeCorrect(p, 3 * a.x * a.x + A, 2 * a.y);
    var l := Slope(p, 3 * a.x * a.x + A, 2 * a.y).value;
    CongSym(p, l * (2 * a.y), 3 * a.x * a.x + A);
    TangentDiff(a.x, a.y, l);
  }

  lemma TangentDiff(x: int, y: int, l: int)
    ensures Diff(x, y, l, x) == (3 * x * x + A) - l * (2 * y)
  {
    assert l * l * (x - x) == 0;
    assert 2 * l * y == l * (2 * y);
  }

  // ----- group laws that hold from the formulas -----

  /** `_point_add` raises in exactly one case, and otherwise returns a point of the curve. */
  lemma PointAddClosed(p: int, a: Point, b: Point)
    requires IsPrime(p) && p != 2 && OnCurve(p, a) && OnCurve(p, b)
    ensures PointAdd(p, a, b).Err? <==> a == b && a.Affine? && a.y == 0
    ensures PointAdd(p, a, b).Ok? ==> OnCurve(p, PointAdd(p, a, b).value)
  {
    if a.Affine? && b.Affine? {
      if a.x != b.x {
        ChordSlope(p, a, b);
        var l := Slope(p, b.y - a.y, b.x - a.x).value;
        ChordDiff(p, a, b, l);
        ThirdPoint(p, a.x, a.y, b.x, l);
      } else if a.y == b.y {
        if a.y == 0 {
          ModUnique(p, 2 * a.y, 0, 0);
        } else {
          TangentSlope(p, a);
          ThirdPoint(p, a.x, a.y, a.x, Slope(p, 3 * a.x * a.x + A, 2 * a.y).value);
        }
      }
    }
  }

  lemma PlusClosed(p: int, a: Point, b: Point)
    requires IsPrime(p) && p != 2 && OnCurve(p, a) && OnCurve(p, b)
    ensures OnCurve(p, Plus(p, a, b))
  {
    PointAddClosed(p, a, b);
  }

  /** `_point_double` never raises on the curve and agrees with adding a point to itself; where
      the addition raises, doubling gives infinity. */
  lemma PointDoubleIsPlus(p: int, a: Point)
    requires IsPrime(p) && p != 2 && OnCurve(p, a)
    ensures PointDouble(p, a) == Ok(Plus(p, a, a))
    ensures a.Affine? && a.y != 0 ==> PointDouble(p, a) == PointAdd(p, a, a)
  {
    PointAddClosed(p, a, a);
    if a.Affine? && a.y != 0 { TangentSlope(p, a); }
  }

  lemma NegatedProduct(m: int, u: int, v: int)
    ensures m * -u - -v == v - m * u
  {
  }

  lemma SlopesAgree(p: int, l: int, m: int, u: int, v: int)
    requires IsPrime(p) && 0 <= l < p && 0 <= m < p && u % p != 0
    requires Cong(p, l * u, v) && Cong(p, m * -u, -v)
    ensures l == m
  {
    NegatedProduct(m, u, v);
    CongTrans(p, l * u, v, m * u);
    assert l * u == u * l && m * u == u * m;
    CongCancel(p, u, l, m);
    CongReduced(p, l, m);
  }

  /** Both orders give the same slope. */
  lemma ChordSlopeCommutes(p: int, a: Point, b: Point)
    requires IsPrime(p) && OnCurve(p, a) && OnCurve(p, b) && a.Affine? && b.Affine? && a.x != b.x
    ensures Slope(p, b.y - a.y, b.x - a.x) == Slope(p, a.y - b.y, a.x - b.x)
  {
    ChordSlope(p, a, b);
    ChordSlope(p, b, a);
    DistinctResidues(p, b.x, a.x);
    var u, v := b.x - a.x, b.y - a.y;
    assert a.x - b.x == -u && a.y - b.y == -v;
    SlopesAgree(p, Slope(p, v, u).value, Slope(p, -v, -u).value, u, v);
  }

  lemma LineThroughEither(l: int, x1: int, y1: int, x2: int, y2: int, x: int)
    ensures (l * (x2 - x) - y2) - (l * (x1 - x) - y1) == l * (x2 - x1) - (y2 - y1)
  {
  }

  lemma PointAddCommutes(p: int, a: Point, b: Point)
    requires IsPrime(p) && p != 2 && OnCurve(p, a) && OnCurve(p, b)
    ensures PointAdd(p, a, b) == PointAdd(p, b, a)
  {
    if a.Affine? && b.Affine? && a.x != b.x {
      ChordSlope(p, a, b);
      ChordSlopeCommutes(p, a, b);
      var l := Slope(p, b.y - a.y, b.x - a.x).value;
      var x3 := (l * l - a.x - b.x) % p;
      LineThroughEither(l, a.x, a.y, b.x, b.y, x3);
      CongIff(p, l * (b.x - x3) - b.y, l * (a.x - x3) - a.y);
    }
  }

  lemma PlusCommutes(p: int, a: Point, b: Point)
    requires IsPrime(p) && p != 2 && OnCurve(p, a) && OnCurve(p, b)
    ensures Plus(p, a, b) == Plus(p, b, a)
  {
    PointAddCommutes(p, a, b);
  }

  lemma NegSquare(p: int, y: int)
    requires IsPrime(p) && 0 <= y < p
    ensures Cong(p, ((p - y) % p) * ((p - y) % p), y * y)
  {
    var v := (p - y) % p;
    CongMod(p, p - y);
    CongMul(p, v, p - y, v, p - y);
    assert (p - y) * (p - y) - y * y == p * (p - 2 * y);
    MultipleIsZero(p, p - 2 * y);
    CongTrans(p, v * v, (p - y) * (p - y), y * y);
  }

  /** Infinity is the identity and `Neg` gives the only inverse. */
  lemma PlusInverse(p: int, a: Point)
    requires IsPrime(p) && p != 2 && OnCurve(p, a)
    ensures OnCurve(p, Neg(p, a))
    ensures Plus(p, a, Infinity) == a && Plus(p, Infinity, a) == a
    ensures Plus(p, a, Neg(p, a)) == Infinity
    ensures Neg(p, Neg(p, a)) == a
  {
    if a.Affine? {
      NegSquare(p, a.y);
      CongTrans(p, Neg(p, a).y * Neg(p, a).y, a.y * a.y, Rhs(a.x));
      if a.y == 0 {
        ModUnique(p, p, 1, 0);
        PointAddClosed(p, a, a);
      } else {
        ModUnique(p, p - a.y, 0, p - a.y);
        ModUnique(p, a.y, 0, a.y);
        if p - a.y == a.y {
          TwiceNonZero(p, a.y);
          ModUnique(p, p, 1, 0);
        }
      }
    }
  }

  /** Two points of the curve with the same abscissa are equal or opposite, so answering infinity
      for equal x and different y is right. */
  lemma SameAbscissa(p: int, a: Point, b: Point)
    requires IsPrime(p) && p != 2 && OnCurve(p, a) && OnCurve(p, b)
    requires a.Affine? && b.Affine? && a.x == b.x
    ensures a == b || b == Neg(p, a)
  {
    CongSym(p, b.y * b.y, Rhs(b.x));
    CongTrans(p, a.y * a.y, Rhs(a.x), b.y * b.y);
    SameSquare(p, a.y, b.y);
    if a.y != b.y { ModUnique(p, p - a.y, 0, p - a.y); }
  }
}
