/** What Python's operators do with values read from JSON; an error stands for TypeError or
    AttributeError. */
module PyValues {
  import opened Outcomes
  import opened Json

  function Truthy(j: Json): bool {
    match j
    case Null => false
    case Bool(b) => b
    case Num(n) => n != 0
    case Str(s) => s != []
    case Arr(items) => items != []
    case Obj(fields) => fields != map[]
  }

  /** `value.get(key, default)`. */
  function GetOr(d: Json, key: string, default: Json): Json {
    match d.Get(key)
    case Some(v) => v
    case None => default
  }

  /** The number a value counts as in arithmetic and comparisons. */
  function NumOf(j: Json): Option<int> {
    match j
    case Num(n) => Some(n)
    case Bool(b) => Some(if b then 1 else 0)
    case _ => None
  }

  /** A value with its booleans replaced by the numbers they equal. */
  function Numeric(j: Json): Json {
    match j
    case Bool(b) => Num(if b then 1 else 0)
    case Arr(items) => Arr(seq(|items|, i requires 0 <= i < |items| => Numeric(items[i])))
    case Obj(fields) => Obj(map k | k in fields :: Numeric(fields[k]))
    case _ => j
  }

  /** `a == b`. */
  predicate Same(a: Json, b: Json) {
    Numeric(a) == Numeric(b)
  }

  /** `a < b`, for two numbers or two strings. */
  function Less(a: Json, b: Json): Result<bool> {
    if NumOf(a).Some? && NumOf(b).Some? then Ok(NumOf(a).value < NumOf(b).value)
    else if a.Str? && b.Str? then Ok(!AtMost(b.s, a.s))
    else Err(BadType)
  }

  /** `len(value)`. */
  function Length(j: Json): Result<int> {
    match j
    case Str(s) => Ok(|s|)
    case Arr(items) => Ok(|items|)
    case Obj(fields) => Ok(|fields|)
    case _ => Err(BadType)
  }

  // ----- what these operators mean -----

  /** Equality by cases: dictionaries with the same keys and equal values, lists of the same length with
      equal items, numbers and truth values as the numbers they count as, and otherwise the same
      value. */
  lemma SameMeans(a: Json, b: Json)
    ensures Same(a, b)
            <==> match (a, b)
                 case (Obj(f), Obj(g)) => f.Keys == g.Keys && forall k :: k in f ==> Same(f[k], g[k])
                 case (Arr(x), Arr(y)) => |x| == |y| && forall i :: 0 <= i < |x| ==> Same(x[i], y[i])
                 case _ => if NumOf(a).Some? then NumOf(a) == NumOf(b) else a == b
  {
    match (a, b) {
      case (Obj(f), Obj(g)) => SameDicts(f, g);
      case (Arr(x), Arr(y)) => SameLists(x, y);
      case _ =>
    }
  }

  lemma SameDicts(f: map<string, Json>, g: map<string, Json>)
    ensures Same(Obj(f), Obj(g)) <==> f.Keys == g.Keys && forall k :: k in f ==> Same(f[k], g[k])
  {
    var x, y := Numeric(Obj(f)).fields, Numeric(Obj(g)).fields;
    assert x.Keys == f.Keys && y.Keys == g.Keys;
    if x == y {
      forall k | k in f ensures Same(f[k], g[k]) {
        assert x[k] == y[k];
      }
    }
  }

  lemma SameLists(x: seq<Json>, y: seq<Json>)
    ensures Same(Arr(x), Arr(y)) <==> |x| == |y| && forall i :: 0 <= i < |x| ==> Same(x[i], y[i])
  {
    var u, v := Numeric(Arr(x)).items, Numeric(Arr(y)).items;
    assert |u| == |x| && |v| == |y|;
    if u == v {
      forall i | 0 <= i < |x| ensures Same(x[i], y[i]) {
        assert u[i] == v[i];
      }
    }
  }

  lemma SameIsEquivalence(a: Json, b: Json, c: Json)
    ensures Same(a, a)
    ensures Same(a, b) <==> Same(b, a)
    ensures Same(a, b) && Same(b, c) ==> Same(a, c)
  {
  }

  /** A text inside a dictionary is the text inside every equal one. */
  lemma SameText(a: Json, b: Json, key: string)
    requires Same(a, b) && b.Obj? && b.Get(key).Some? && b.Get(key).value.Str?
    ensures a.Get(key) == b.Get(key)
  {
    SameMeans(a, b);
    if a.Obj? { SameMeans(a.fields[key], b.fields[key]); }
  }

  /** The values that count as false. */
  lemma FalsyValues(j: Json)
    ensures !Truthy(j) <==> j in {Null, Bool(false), Num(0), Str(""), Arr([]), Obj(map[])}
  {
  }

  /** Numbers are ordered by their size, and two texts by the first character in which they differ. */
  lemma LessMeans(a: Json, b: Json)
    ensures NumOf(a).Some? && NumOf(b).Some? ==>
              Less(a, b) == Ok(0 < NumOf(b).value - NumOf(a).value)
    ensures a.Str? && b.Str? ==> Less(a, b) == Ok(a.s != b.s && AtMost(a.s, b.s))
    ensures Less(a, b).Err? <==> !(NumOf(a).Some? && NumOf(b).Some?) && !(a.Str? && b.Str?)
  {
    if a.Str? && b.Str? {
      AtMostTotal(a.s, b.s);
      if AtMost(a.s, b.s) && AtMost(b.s, a.s) { AtMostAntisymmetric(a.s, b.s); }
    }
  }
}
