/** A small curve that meets every hypothesis on a domain, so that the results about signatures are
    about something: y^2 = x^3 + 7 over the field of 31 elements. Its 21 points are the multiples of
    (1, 15), and those of (27, 6) are a subgroup of order 7. */
module SmallCurve {
  import opened NumberTheory
  import opened Curve
  import opened Scalars

  const SMALL := Domain(31, 7, 27, 6)

  // ----- the table of points -----

  datatype Points = Nil | Cons(x: int, y: int, rest: Points)

  function FromTwelfth(): Points {
    Cons(11, 6, Cons(4, 28, Cons(0, 10, Cons(24, 25, Cons(25, 15, Cons(5, 16, Cons(27, 25, Cons(7, 28, Cons(1, 16, Nil)))))))))
  }

  function FromSixth(): Points {
    Cons(24, 6, Cons(0, 21, Cons(4, 3, Cons(11, 25, Cons(20, 28, Cons(20, 3, FromTwelfth()))))))
  }

  /** The multiples of (1, 15) from the first to the twentieth. */
  function FromFirst(): Points {
    Cons(1, 15, Cons(7, 3, Cons(27, 6, Cons(5, 15, Cons(25, 16, FromSixth())))))
  }

  function Count(ps: Points): nat {
    if ps.Nil? then 0 else 1 + Count(ps.rest)
  }

  function At(ps: Points, k: nat): Point {
    if ps.Nil? then Infinity else if k == 0 then Affine(ps.x, ps.y) else At(ps.rest, k - 1)
  }

  function Multiple(k: nat): Point {
    if k == 0 then Infinity else At(FromFirst(), k - 1)
  }

  predicate AllOn(ps: Points) {
    ps.Cons? ==>
      && 0 <= ps.x < 31 && 0 < ps.y < 31 && (ps.y * ps.y - (ps.x * ps.x * ps.x + 7)) % 31 == 0
      && AllOn(ps.rest)
  }

  lemma TableOn()
    ensures AllOn(FromFirst()) && Count(FromFirst()) == 20
  {
    assert AllOn(FromTwelfth()) && Count(FromTwelfth()) == 9;
    assert AllOn(FromSixth()) && Count(FromSixth()) == 15;
  }

  lemma {:induction false} AtOn(ps: Points, k: nat)
    requires AllOn(ps) && k < Count(ps)
    ensures At(ps, k).Affine? && OnCurve(31, At(ps, k)) && At(ps, k).y != 0
  {
    if k > 0 { AtOn(ps.rest, k - 1); }
  }

  lemma MultipleOn(k: nat)
    requires k <= 20
    ensures OnCurve(31, Multiple(k))
    ensures k > 0 ==> Multiple(k).Affine? && Multiple(k).y != 0
  {
    TableOn();
    if k > 0 { AtOn(FromFirst(), k - 1); }
  }

  function Drop(ps: Points, n: nat): Points {
    if n == 0 || ps.Nil? then ps else Drop(ps.rest, n - 1)
  }

  lemma {:induction false} AtDrop(ps: Points, n: nat, k: nat)
    ensures At(Drop(ps, n), k) == At(ps, n + k)
  {
    if n > 0 && ps.Cons? { AtDrop(ps.rest, n - 1, k); }
  }

  /** The multiples k and 21 - k, for those that the two ends of the table hold. */
  predicate Facing(k: nat)
    requires 1 <= k <= 9
  {
    At(FromTwelfth(), 9 - k) == Neg(31, At(FromFirst(), k - 1))
  }

  lemma EndsFace(k: nat)
    requires 1 <= k <= 9
    ensures Facing(k)
  {
    assert Facing(1) && Facing(2) && Facing(3) && Facing(4) && Facing(5);
    assert Facing(6) && Facing(7) && Facing(8) && Facing(9);
  }

  lemma TwelfthIsBehind(k: nat)
    ensures At(FromTwelfth(), k) == At(FromFirst(), 11 + k)
  {
    assert Drop(FromFirst(), 5) == FromSixth() && Drop(FromSixth(), 6) == FromTwelfth();
    AtDrop(FromSixth(), 6, k);
    AtDrop(FromFirst(), 5, 6 + k);
  }

  lemma MiddleFaces()
    ensures Multiple(11) == Neg(31, Multiple(10))
  {
    assert At(FromFirst(), 9) == Affine(20, 28) && At(FromFirst(), 10) == Affine(20, 3);
  }

  /** The multiples from behind are opposite to those from the front. */
  lemma Opposites(k: nat)
    requires 1 <= k <= 20
    ensures Multiple(21 - k) == Neg(31, Multiple(k))
  {
    if k > 10 {
      Opposites(21 - k);
      SmallPrimes();
      MultipleOn(21 - k);
      PlusInverse(31, Multiple(21 - k));
    } else if k == 10 {
      MiddleFaces();
    } else {
      EndsFace(k);
      TwelfthIsBehind(9 - k);
    }
  }

  predicate NoDivisor(p: int, k: nat) {
    k < 2 || (p % k != 0 && NoDivisor(p, k - 1))
  }

  lemma {:induction false} NoDivisorMeans(p: int, n: nat, k: nat)
    requires NoDivisor(p, n) && 2 <= k <= n
    ensures !Divides(k, p)
  {
    if k < n { NoDivisorMeans(p, n - 1, k); }
  }

  lemma SmallPrimes()
    ensures IsPrime(31) && IsPrime(7)
  {
    assert NoDivisor(31, 10);
    assert NoDivisor(31, 20);
    assert NoDivisor(31, 30) && NoDivisor(7, 6);
    forall k | 2 <= k < 31 ensures !Divides(k, 31) { NoDivisorMeans(31, 30, k); }
    forall k | 2 <= k < 7 ensures !Divides(k, 7) { NoDivisorMeans(7, 6, k); }
  }

  // ----- sums -----

  /** The third point is the sum of the others, which do not cancel: the equations of the line through
      them without the division. */
  predicate SumIs(x1: int, y1: int, x2: int, y2: int, x3: int, y3: int) {
    var u := if x1 == x2 then 2 * y1 else x2 - x1;
    var v := if x1 == x2 then 3 * x1 * x1 else y2 - y1;
    && (x1 == x2 ==> y1 == y2)
    && u % 31 != 0
    && (x3 * (u * u) - (v * v - (x1 + x2) * (u * u))) % 31 == 0
    && (y3 * u - (v * (x1 - x3) - y1 * u)) % 31 == 0
  }

  /** Adding the point to each of some points gives the others. */
  predicate Row(x: int, y: int, others: Points, sums: Points) {
    sums.Cons? ==>
      && others.Cons?
      && SumIs(x, y, others.x, others.y, sums.x, sums.y)
      && Row(x, y, others.rest, sums.rest)
  }

  predicate Rows(others: Points, sums: Points) {
    sums.Cons? ==>
      && others.Cons?
      && Row(others.x, others.y, others, sums)
      && (sums.rest.Cons? ==> Rows(others.rest, sums.rest.rest))
  }

  lemma LastRows()
    ensures Rows(FromSixth(), FromTwelfth())
  {
  }

  lemma FirstRow()
    ensures Row(1, 15, FromFirst(), FromFirst().rest)
  {
    assert Row(1, 15, FromSixth(), FromSixth().rest);
  }

  lemma SecondRow()
    ensures Row(7, 3, FromFirst().rest, FromFirst().rest.rest.rest)
  {
    assert Row(7, 3, FromSixth(), FromSixth().rest.rest);
  }

  lemma ThirdRow()
    ensures Row(27, 6, FromFirst().rest.rest, FromFirst().rest.rest.rest.rest.rest)
  {
    assert Row(27, 6, FromSixth(), FromSixth().rest.rest.rest);
  }

  lemma FourthRow()
    ensures Row(5, 15, FromFirst().rest.rest.rest, FromSixth().rest.rest)
  {
    assert Row(5, 15, FromSixth(), FromSixth().rest.rest.rest.rest);
  }

  lemma FifthRow()
    ensures Row(25, 16, FromFirst().rest.rest.rest.rest, FromSixth().rest.rest.rest.rest)
  {
  }

  lemma AllRows()
    ensures Rows(FromFirst(), FromFirst().rest)
  {
    hide SumIs, Row;
    FirstRow();
    SecondRow();
    ThirdRow();
    FourthRow();
    FifthRow();
    LastRows();
  }

  lemma {:induction false} RowGives(x: int, y: int, others: Points, sums: Points, k: nat)
    requires Row(x, y, others, sums) && k < Count(sums)
    ensures var b, c := At(others, k), At(sums, k);
            b.Affine? && c.Affine? && SumIs(x, y, b.x, b.y, c.x, c.y)
  {
    hide SumIs;
    if k > 0 { RowGives(x, y, others.rest, sums.rest, k - 1); }
  }

  lemma {:induction false} RowsGive(others: Points, sums: Points, j: nat, k: nat)
    requires Rows(others, sums) && j <= k && j + k < Count(sums)
    ensures var a, b, c := At(others, j), At(others, k), At(sums, j + k);
            a.Affine? && b.Affine? && c.Affine? && SumIs(a.x, a.y, b.x, b.y, c.x, c.y)
  {
    hide SumIs, Row;
    if j == 0 {
      RowGives(others.x, others.y, others, sums, k);
    } else {
      RowsGive(others.rest, sums.rest.rest, j - 1, k - 1);
    }
  }

  /** The abscissa of a sum by the equation of the line through the points. */
  lemma LineAbscissa(p: int, l: int, u: int, v: int, w: int, x3: int)
    requires IsPrime(p) && u % p != 0 && Cong(p, l * u, v) && 0 <= x3 < p
    requires Cong(p, x3 * (u * u), v * v - w * (u * u))
    ensures (l * l - w) % p == x3
  {
    hide Cong;
    var x, wuu := l * l - w, w * (u * u);
    CongMul(p, l * u, v, l * u, v);
    CongIff(p, wuu, wuu);
    CongAdd(p, (l * u) * (l * u), v * v, wuu, wuu);
    SquareOut(l, u, w);
    CongSym(p, x3 * (u * u), v * v - wuu);
    CongTrans(p, u * (u * x), v * v - wuu, x3 * (u * u));
    assert x3 * (u * u) == u * (u * x3) by { MulAssoc(u, u, x3); }
    CongCancel(p, u, u * x, u * x3);
    CongCancel(p, u, x, x3);
    Reduce(p, x, x3);
  }

  lemma LineOrdinate(p: int, l: int, u: int, v: int, d: int, y1: int, y3: int)
    requires IsPrime(p) && u % p != 0 && Cong(p, l * u, v) && 0 <= y3 < p
    requires Cong(p, y3 * u, v * d - y1 * u)
    ensures (l * d - y1) % p == y3
  {
    hide Cong;
    var y := l * d - y1;
    CongIff(p, d, d);
    CongMul(p, l * u, v, d, d);
    CongIff(p, y1 * u, y1 * u);
    CongAdd(p, (l * u) * d, v * d, y1 * u, y1 * u);
    assert (l * u) * d - y1 * u == u * y by { OneOut(l, u, d, y1); }
    CongSym(p, y3 * u, v * d - y1 * u);
    CongTrans(p, u * y, v * d - y1 * u, y3 * u);
    assert y3 * u == u * y3;
    CongCancel(p, u, y, y3);
    Reduce(p, y, y3);
  }

  lemma OneOut(l: int, u: int, d: int, y: int)
    ensures (l * u) * d - y * u == u * (l * d - y)
  {
    assert (l * u) * d == u * (l * d) by { MulAssoc(l, u, d); }
    assert u * (l * d - y) == u * (l * d) - u * y;
  }

  lemma SquareOut(l: int, u: int, w: int)
    ensures (l * u) * (l * u) - w * (u * u) == u * (u * (l * l - w))
  {
    MulSwap(l, u, l, u);
    assert (l * l) * (u * u) == u * (u * (l * l)) by { MulAssoc(u, u, l * l); }
    assert w * (u * u) == u * (u * w) by { MulAssoc(u, u, w); }
    assert u * (l * l - w) == u * (l * l) - u * w;
    assert u * (u * (l * l) - u * w) == u * (u * (l * l)) - u * (u * w);
  }

  lemma Reduce(p: int, a: int, b: int)
    requires 0 < p && 0 <= b < p && Cong(p, a, b)
    ensures a % p == b
  {
    CongIff(p, a, b);
    ModUnique(p, b, 0, b);
  }

  /** The point that the slope v / u gives. */
  lemma LineGives(u: int, v: int, x1: int, y1: int, x2: int, x3: int, y3: int)
    requires u % 31 != 0 && 0 <= x3 < 31 && 0 <= y3 < 31
    requires (x3 * (u * u) - (v * v - (x1 + x2) * (u * u))) % 31 == 0
    requires (y3 * u - (v * (x1 - x3) - y1 * u)) % 31 == 0
    ensures Slope(31, v, u).Ok?
    ensures var l := Slope(31, v, u).value; (l * l - (x1 + x2)) % 31 == x3 && (l * (x1 - x3) - y1) % 31 == y3
  {
    hide Slope;
    SmallPrimes();
    SlopeCorrect(31, v, u);
    LineAbscissa(31, Slope(31, v, u).value, u, v, x1 + x2, x3);
    LineOrdinate(31, Slope(31, v, u).value, u, v, x1 - x3, y1, y3);
  }

  lemma ChordGives(x1: int, y1: int, x2: int, y2: int, x3: int, y3: int)
    requires SumIs(x1, y1, x2, y2, x3, y3) && x1 != x2 && 0 <= x3 < 31 && 0 <= y3 < 31
    ensures Plus(31, Affine(x1, y1), Affine(x2, y2)) == Affine(x3, y3)
  {
    hide Slope;
    LineGives(x2 - x1, y2 - y1, x1, y1, x2, x3, y3);
    var l := Slope(31, y2 - y1, x2 - x1).value;
    assert l * l - x1 - x2 == l * l - (x1 + x2);
  }

  lemma TangentGives(x: int, y: int, x3: int, y3: int)
    requires SumIs(x, y, x, y, x3, y3) && 0 <= x3 < 31 && 0 <= y3 < 31
    ensures Plus(31, Affine(x, y), Affine(x, y)) == Affine(x3, y3)
  {
    hide Slope;
    LineGives(2 * y, 3 * x * x, x, y, x, x3, y3);
    var l := Slope(31, 3 * x * x + A, 2 * y).value;
    assert l * l - x - x == l * l - (x + x);
  }

  lemma SumIsPlus(a: Point, b: Point, c: Point)
    requires a.Affine? && b.Affine? && c.Affine? && OnCurve(31, c) && SumIs(a.x, a.y, b.x, b.y, c.x, c.y)
    ensures Plus(31, a, b) == c
  {
    hide Plus;
    if a.x == b.x {
      assert a.y == b.y;
      TangentGives(a.x, a.y, c.x, c.y);
    } else {
      ChordGives(a.x, a.y, b.x, b.y, c.x, c.y);
    }
  }

  lemma MultipleMore(e: int, t: int)
    requires e % 31 == 0
    ensures (e + 31 * t) % 31 == 0 && (31 * t - e) % 31 == 0
  {
    MultipleIsZero(31, t);
    ZeroAdd(31, 31 * t, e);
  }

  /** The equations of a line through the opposite points: of a chord and of a tangent. */
  lemma ChordNeg(u: int, v: int, d: int, y1: int, y3: int)
    requires (y3 * u - (v * d - y1 * u)) % 31 == 0
    ensures (-v) * (-v) == v * v && ((31 - y3) * u - ((-v) * d - (31 - y1) * u)) % 31 == 0
  {
    MultipleMore(y3 * u - (v * d - y1 * u), 2 * u);
    assert (31 - y3) * u == 31 * u - y3 * u && (31 - y1) * u == 31 * u - y1 * u && (-v) * d == -(v * d);
  }

  lemma TangentNeg(u: int, v: int, w: int, d: int, y1: int, x3: int, y3: int)
    requires u % 31 != 0
    requires (x3 * (u * u) - (v * v - w * (u * u))) % 31 == 0 && (y3 * u - (v * d - y1 * u)) % 31 == 0
    ensures (62 - u) % 31 != 0
    ensures (x3 * ((62 - u) * (62 - u)) - (v * v - w * ((62 - u) * (62 - u)))) % 31 == 0
    ensures ((31 - y3) * (62 - u) - (v * d - (31 - y1) * (62 - u))) % 31 == 0
  {
    if (62 - u) % 31 == 0 { MultipleMore(62 - u, 2); }
    var s, t := u * u, 2 * (62 - 2 * u);
    assert (62 - u) * (62 - u) == s + 31 * t;
    Spread(x3, w, s, t, v * v);
    MultipleMore(x3 * s - (v * v - w * s), (x3 + w) * t);
    MultipleMore(y3 * u - (v * d - y1 * u), 2 * (62 - u) - 2 * y3 - 2 * y1);
    assert (31 - y3) * (62 - u) == 31 * (62 - u) - 31 * (2 * y3) + y3 * u;
    assert (31 - y1) * (62 - u) == 31 * (62 - u) - 31 * (2 * y1) + y1 * u;
  }

  lemma Spread(x3: int, w: int, s: int, t: int, vv: int)
    ensures x3 * (s + 31 * t) - (vv - w * (s + 31 * t)) == x3 * s - (vv - w * s) + 31 * ((x3 + w) * t)
  {
    assert x3 * (s + 31 * t) == x3 * s + 31 * (x3 * t) && w * (s + 31 * t) == w * s + 31 * (w * t);
    assert (x3 + w) * t == x3 * t + w * t;
  }

  lemma ChordSumIsNeg(x1: int, y1: int, x2: int, y2: int, x3: int, y3: int)
    requires SumIs(x1, y1, x2, y2, x3, y3) && x1 != x2
    ensures SumIs(x1, 31 - y1, x2, 31 - y2, x3, 31 - y3)
  {
    var v := y2 - y1;
    ChordNeg(x2 - x1, v, x1 - x3, y1, y3);
    assert (31 - y2) - (31 - y1) == -v;
  }

  lemma TangentSumIsNeg(x: int, y: int, x3: int, y3: int)
    requires SumIs(x, y, x, y, x3, y3)
    ensures SumIs(x, 31 - y, x, 31 - y, x3, 31 - y3)
  {
    TangentNeg(2 * y, 3 * x * x, x + x, x - x3, y, x3, y3);
    assert 2 * (31 - y) == 62 - 2 * y;
  }

  /** Opposite points have the opposite sum. */
  lemma SumIsNeg(x1: int, y1: int, x2: int, y2: int, x3: int, y3: int)
    requires SumIs(x1, y1, x2, y2, x3, y3)
    ensures SumIs(x1, 31 - y1, x2, 31 - y2, x3, 31 - y3)
  {
    if x1 == x2 {
      assert y1 == y2;
      TangentSumIsNeg(x1, y1, x3, y3);
    } else {
      ChordSumIsNeg(x1, y1, x2, y2, x3, y3);
    }
  }

  // ----- the group -----

  lemma SumInFront(j: nat, k: nat)
    requires 1 <= j <= k && j + k <= 20
    ensures var a, b, c := Multiple(j), Multiple(k), Multiple(j + k);
            a.Affine? && b.Affine? && c.Affine? && SumIs(a.x, a.y, b.x, b.y, c.x, c.y)
  {
    hide SumIs, Rows;
    AllRows();
    TableOn();
    RowsGive(FromFirst(), FromFirst().rest, j - 1, k - 1);
    AtDrop(FromFirst(), 1, j + k - 2);
    assert Drop(FromFirst(), 1) == FromFirst().rest;
  }

  lemma PlusInFront(j: nat, k: nat)
    requires 1 <= j <= k && j + k <= 20
    ensures Plus(31, Multiple(j), Multiple(k)) == Multiple(j + k)
  {
    hide SumIs, Multiple, Plus;
    SumInFront(j, k);
    MultipleOn(j);
    MultipleOn(k);
    MultipleOn(j + k);
    SumIsPlus(Multiple(j), Multiple(k), Multiple(j + k));
  }

  lemma Turned(k: nat)
    requires 1 <= k <= 20
    ensures Multiple(k).Affine? && Multiple(21 - k) == Affine(Multiple(k).x, 31 - Multiple(k).y)
  {
    hide Multiple;
    Opposites(k);
    MultipleOn(k);
  }

  lemma PlusBehind(j: nat, k: nat)
    requires 1 <= j <= k && j + k <= 20
    ensures Plus(31, Multiple(21 - j), Multiple(21 - k)) == Multiple(21 - (j + k))
  {
    hide SumIs, Multiple, Plus;
    var a, b, c := Multiple(j), Multiple(k), Multiple(j + k);
    SumInFront(j, k);
    Turned(j);
    Turned(k);
    Turned(j + k);
    SumIsNeg(a.x, a.y, b.x, b.y, c.x, c.y);
    MultipleOn(21 - j);
    MultipleOn(21 - k);
    MultipleOn(21 - (j + k));
    SumIsPlus(Multiple(21 - j), Multiple(21 - k), Multiple(21 - (j + k)));
  }

  function Wrapped(k: int): int {
    if k < 21 then k else k - 21
  }

  lemma PlusOrdered(j: nat, k: nat)
    requires j <= k <= 20
    ensures Plus(31, Multiple(j), Multiple(k)) == Multiple(Wrapped(j + k))
  {
    hide Multiple, Plus;
    SmallPrimes();
    MultipleOn(j);
    MultipleOn(k);
    assert Multiple(0) == Infinity by { NoMultiple(); }
    if j == 0 {
      PlusInverse(31, Multiple(k));
    } else if j + k == 21 {
      Opposites(j);
      PlusInverse(31, Multiple(j));
    } else if j + k < 21 {
      PlusInFront(j, k);
    } else {
      PlusBehind(21 - k, 21 - j);
      PlusCommutes(31, Multiple(k), Multiple(j));
    }
  }

  lemma NoMultiple()
    ensures Multiple(0) == Infinity
  {
  }

  lemma PlusMultiples(j: nat, k: nat)
    requires j <= 20 && k <= 20
    ensures Plus(31, Multiple(j), Multiple(k)) == Multiple(Wrapped(j + k))
  {
    hide Multiple, Plus;
    if j <= k {
      PlusOrdered(j, k);
    } else {
      PlusOrdered(k, j);
      SmallPrimes();
      MultipleOn(j);
      MultipleOn(k);
      PlusCommutes(31, Multiple(j), Multiple(k));
    }
  }

  // ----- there are no other points -----

  /** Where the table has an abscissa; 0 if it has not. */
  function Place(x: int): nat {
    if x == 0 then 7 else if x == 1 then 1 else if x == 4 then 8 else if x == 5 then 4 else if x == 7 then 2
    else if x == 11 then 9 else if x == 20 then 10 else if x == 24 then 6 else if x == 25 then 5
    else if x == 27 then 3 else 0
  }

  predicate IsSquare(c: int) {
    c == 0 || c == 1 || c == 2 || c == 4 || c == 5 || c == 7 || c == 8 || c == 9 || c == 10 || c == 14
    || c == 16 || c == 18 || c == 19 || c == 20 || c == 25 || c == 28
  }

  lemma AllSquares(y: nat)
    requires y < 31
    ensures IsSquare((y * y) % 31)
  {
    match y {
      case 0 => case 1 => case 2 => case 3 => case 4 => case 5 =>
      case 6 => case 7 => case 8 => case 9 => case 10 => case 11 =>
      case 12 => case 13 => case 14 => case 15 => case 16 => case 17 =>
      case 18 => case 19 => case 20 => case 21 => case 22 => case 23 =>
      case 24 => case 25 => case 26 => case 27 => case 28 => case 29 =>
      case 30 =>
    }
  }

  /** The table has the abscissa where it should. */
  lemma InPlace(x: int)
    requires Place(x) != 0
    ensures Multiple(Place(x)).Affine? && Multiple(Place(x)).x == x
  {
    match Place(x) {
      case 1 => case 2 => case 3 => case 4 => case 5 => case 6 =>
      case 7 => case 8 => case 9 => case 10 =>
    }
  }

  predicate IsRest(c: int) {
    c == 3 || c == 6 || c == 11 || c == 15 || c == 22 || c == 23 || c == 30
  }

  lemma RestOfTable(x: int)
    requires 0 <= x < 31 && Place(x) == 0
    ensures IsRest((x * x * x + 7) % 31)
  {
    match x {
      case 2 => case 3 => case 6 => case 8 => case 9 => case 10 =>
      case 12 => case 13 => case 14 => case 15 => case 16 => case 17 =>
      case 18 => case 19 => case 21 => case 22 => case 23 => case 26 =>
      case 28 => case 29 => case 30 =>
    }
  }

  /** No square belongs to an abscissa that the table does not have. */
  lemma NotASquare(x: int)
    requires 0 <= x < 31 && Place(x) == 0
    ensures !IsSquare((x * x * x + 7) % 31)
  {
    RestOfTable(x);
    NoRestIsSquare((x * x * x + 7) % 31);
  }

  lemma NoRestIsSquare(c: int)
    requires IsRest(c)
    ensures !IsSquare(c)
  {
  }

  lemma OnlyMultiples(a: Point) returns (k: nat)
    requires OnCurve(31, a)
    ensures k <= 20 && a == Multiple(k)
  {
    if a.Infinity? { return 0; }
    SmallPrimes();
    k := Place(a.x);
    if k == 0 {
      NotASquare(a.x);
      AllSquares(a.y);
      CongIff(31, a.y * a.y, Rhs(a.x));
      assert false;
    }
    InPlace(a.x);
    MultipleOn(k);
    SameAbscissa(31, Multiple(k), a);
    if a != Multiple(k) {
      Opposites(k);
      k := 21 - k;
    }
  }

  lemma SumsAssociate(a: Point, b: Point, c: Point)
    requires OnCurve(31, a) && OnCurve(31, b) && OnCurve(31, c)
    ensures AssociativeAt(31, a, b, c)
  {
    hide Plus, Multiple;
    var i := OnlyMultiples(a);
    var j := OnlyMultiples(b);
    var k := OnlyMultiples(c);
    PlusMultiples(i, j);
    PlusMultiples(j, k);
    PlusMultiples(Wrapped(i + j), k);
    PlusMultiples(i, Wrapped(j + k));
  }

  lemma {:induction false} TimesThird(k: nat)
    requires k <= 7
    ensures Times(31, k, Affine(27, 6)) == Multiple(Wrapped(3 * k))
  {
    hide Plus, Multiple;
    assert Multiple(3) == Affine(27, 6) && Multiple(0) == Infinity by { ThirdMultiple(); }
    if k > 0 {
      TimesThird(k - 1);
      PlusMultiples(3 * (k - 1), 3);
    }
  }

  lemma ThirdMultiple()
    ensures Multiple(3) == Affine(27, 6) && Multiple(0) == Infinity
  {
  }

  /** The hypotheses can all be met at once. */
  lemma SmallIsSound()
    ensures SMALL.Sound()
  {
    hide Plus, Multiple, OnCurve, Times;
    SmallPrimes();
    assert OnCurve(31, SMALL.G()) by { ThirdMultiple(); MultipleOn(3); }
    forall a, b, c | OnCurve(31, a) && OnCurve(31, b) && OnCurve(31, c) ensures AssociativeAt(31, a, b, c) {
      SumsAssociate(a, b, c);
    }
    TimesThird(7);
    assert Multiple(0) == Infinity by { ThirdMultiple(); }
  }
}
