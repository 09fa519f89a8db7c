/** The shape of canonical JSON text: it is printable ASCII on one line, a printed object is never
    a proper prefix of another, and no proper suffix of a printed object is a printed object. */
module JsonText {
  import opened Bytes
  import opened Json

  /** Where a scan of the text stands: between tokens, in a string, or after a backslash in one,
      with the number of open brackets. */
  datatype Scan =
    | Outside(depth: int)
    | Inside(depth: int)
    | Escaped(depth: int)
    | Broken

  function Step(s: Scan, c: char): Scan {
    match s
    case Outside(d) =>
      if c == '"' then Inside(d)
      else if c == '{' || c == '[' then Outside(d + 1)
      else if c == '}' || c == ']' then Outside(d - 1)
      else if c == '\\' then Broken
      else s
    case Inside(d) =>
      if c == '"' then Outside(d) else if c == '\\' then Escaped(d) else s
    case Escaped(d) => Inside(d)
    case Broken => Broken
  }

  function Run(t: string, s: Scan): Scan {
    if t == [] then s else Run(t[1..], Step(s, t[0]))
  }

  ghost predicate AtLeast(s: Scan, d: int) {
    !s.Broken? && d <= s.depth
  }

  /** Every character is printable ASCII and no state reached on the way has fewer than d open
      brackets. */
  ghost predicate Stays(t: string, s: Scan, d: int) {
    AtLeast(s, d) && (t != [] ==> ' ' <= t[0] <= '~' && Stays(t[1..], Step(s, t[0]), d))
  }

  /** t leads from one state to another without dropping below depth d. */
  ghost predicate Path(t: string, from: Scan, to: Scan, d: int) {
    Run(t, from) == to && Stays(t, from, d)
  }

  lemma {:induction false} PathConcat(t: string, u: string, a: Scan, b: Scan, c: Scan, d: int)
    requires Path(t, a, b, d) && Path(u, b, c, d)
    ensures Path(t + u, a, c, d)
  {
    if t == [] {
      assert t + u == u;
    } else {
      PathConcat(t[1..], u, Step(a, t[0]), b, c, d);
      assert (t + u)[1..] == t[1..] + u;
    }
  }

  lemma {:induction false} PathWeaken(t: string, a: Scan, b: Scan, d: int, e: int)
    requires Path(t, a, b, d) && e <= d
    ensures Path(t, a, b, e)
  {
    if t != [] { PathWeaken(t[1..], Step(a, t[0]), b, d, e); }
  }

  lemma PathOne(c: char, a: Scan, d: int)
    requires ' ' <= c <= '~' && AtLeast(a, d) && AtLeast(Step(a, c), d)
    ensures Path([c], a, Step(a, c), d)
  {
    assert [c][1..] == [];
    assert Run([], Step(a, c)) == Step(a, c) && Stays([], Step(a, c), d);
  }

  // ----- what the printer writes -----

  predicate Quiet(c: char) {
    ' ' <= c <= '~' && c !in {'"', '\\', '{', '}', '[', ']'}
  }

  lemma {:induction false} PathQuiet(t: string, d: int)
    requires forall i :: 0 <= i < |t| ==> Quiet(t[i])
    ensures Path(t, Outside(d), Outside(d), d) && Path(t, Inside(d), Inside(d), d)
  {
    if t != [] { PathQuiet(t[1..], d); }
  }

  lemma {:induction false} PrintNatQuiet(n: nat)
    ensures forall i :: 0 <= i < |PrintNat(n)| ==> Quiet(PrintNat(n)[i])
  {
    if n >= 10 { PrintNatQuiet(n / 10); }
  }

  /** A backslash and one more character, then quiet characters. */
  lemma EscapePath(c: char, tail: string, d: int)
    requires ' ' <= c <= '~' && forall i :: 0 <= i < |tail| ==> Quiet(tail[i])
    ensures Path(['\\', c] + tail, Inside(d), Inside(d), d)
  {
    PathOne('\\', Inside(d), d);
    PathOne(c, Escaped(d), d);
    PathQuiet(tail, d);
    PathConcat([c], tail, Escaped(d), Inside(d), Inside(d), d);
    PathConcat(['\\'], [c] + tail, Inside(d), Escaped(d), Inside(d), d);
    assert ['\\', c] + tail == ['\\'] + ([c] + tail);
  }

  lemma UnitDigitsQuiet(u: int)
    requires 0 <= u < 0x1_0000
    ensures forall i :: 0 <= i < |UnitDigits(u)| ==> Quiet(UnitDigits(u)[i])
  {
    forall i | 0 <= i < |UnitDigits(u)| ensures Quiet(UnitDigits(u)[i]) {
      assert PlainHex(UnitDigits(u)[i]);
    }
  }

  lemma EscapeCharPath(c: char, d: int)
    ensures Path(EscapeChar(c), Inside(d), Inside(d), d)
  {
    if Unescaped(c) {
      PathOne(c, Inside(d), d);
    } else if EscapeBody(c)[0] != 'u' {
      EscapePath(EscapeBody(c)[0], [], d);
      assert EscapeChar(c) == ['\\', EscapeBody(c)[0]] + [];
    } else if c as int < 0x1_0000 {
      UnitDigitsQuiet(c as int);
      EscapePath('u', UnitDigits(c as int), d);
      assert EscapeChar(c) == ['\\', 'u'] + UnitDigits(c as int);
    } else {
      EscapePairPath((c as int) - 0x1_0000, d);
    }
  }

  lemma EscapePairPath(v: int, d: int)
    requires 0 <= v < 0x10_0000
    ensures Path(EscapeChar((0x1_0000 + v) as char), Inside(d), Inside(d), d)
  {
    hide UnitDigits, Path;
    var high, low := UnitDigits(0xD800 + v / 1024), UnitDigits(0xDC00 + v % 1024);
    UnitDigitsQuiet(0xD800 + v / 1024);
    UnitDigitsQuiet(0xDC00 + v % 1024);
    EscapePath('u', high, d);
    EscapePath('u', low, d);
    PathConcat(['\\', 'u'] + high, ['\\', 'u'] + low, Inside(d), Inside(d), Inside(d), d);
    assert EscapeChar((0x1_0000 + v) as char) == ['\\', 'u'] + high + (['\\', 'u'] + low);
  }

  lemma {:induction false} EscapeTextPath(s: string, d: int)
    ensures Path(Escape(s), Inside(d), Inside(d), d)
  {
    if s != [] {
      EscapeCharPath(s[0], d);
      EscapeTextPath(s[1..], d);
      PathConcat(EscapeChar(s[0]), Escape(s[1..]), Inside(d), Inside(d), Inside(d), d);
    }
  }

  lemma QuotePath(s: string, d: int)
    ensures Path(Quote(s), Outside(d), Outside(d), d)
  {
    hide Path;
    PathOne('"', Outside(d), d);
    EscapeTextPath(s, d);
    PathOne('"', Inside(d), d);
    PathConcat(Escape(s), ['"'], Inside(d), Inside(d), Outside(d), d);
    PathConcat(['"'], Escape(s) + ['"'], Outside(d), Inside(d), Outside(d), d);
  }

  lemma BracketPath(open: char, body: string, close: char, d: int)
    requires (open == '[' && close == ']') || (open == '{' && close == '}')
    requires Path(body, Outside(d + 1), Outside(d + 1), d + 1)
    ensures Path([open] + (body + [close]), Outside(d), Outside(d), d)
  {
    hide Path;
    PathWeaken(body, Outside(d + 1), Outside(d + 1), d + 1, d);
    PathOne(open, Outside(d), d);
    PathOne(close, Outside(d + 1), d);
    PathConcat(body, [close], Outside(d + 1), Outside(d + 1), Outside(d), d);
    PathConcat([open], body + [close], Outside(d), Outside(d + 1), Outside(d), d);
  }

  /** Two parts with one separating character. */
  lemma JoinPath(t: string, c: char, u: string, d: int)
    requires c == ',' || c == ':'
    requires Path(t, Outside(d), Outside(d), d) && Path(u, Outside(d), Outside(d), d)
    ensures Path(t + ([c] + u), Outside(d), Outside(d), d)
  {
    hide Path;
    PathOne(c, Outside(d), d);
    PathConcat([c], u, Outside(d), Outside(d), Outside(d), d);
    PathConcat(t, [c] + u, Outside(d), Outside(d), Outside(d), d);
  }

  /** A printed value is printable, closes every bracket and string it opens, and never closes one
      it did not open. */
  lemma {:induction false} PrintPath(j: Json, d: int)
    ensures Path(Print(j), Outside(d), Outside(d), d)
    decreases j, 1, 0
  {
    match j
    case Null => PathQuiet(Print(j), d);
    case Bool(_) => PathQuiet(Print(j), d);
    case Num(n) =>
      PrintNatQuiet(if n < 0 then -n else n);
      PathQuiet(Print(j), d);
    case Str(s) => QuotePath(s, d);
    case Arr(items) =>
      PrintItemsPath(j, items, d + 1);
      BracketPath('[', PrintItems(j, items), ']', d);
    case Obj(fields) =>
      PrintFieldsPath(j, fields, SortedKeys(fields.Keys), d + 1);
      BracketPath('{', PrintFields(j, fields, SortedKeys(fields.Keys)), '}', d);
  }

  lemma {:induction false} PrintItemsPath(parent: Json, items: seq<Json>, d: int)
    requires forall i :: 0 <= i < |items| ==> items[i] < parent
    ensures Path(PrintItems(parent, items), Outside(d), Outside(d), d)
    decreases parent, 0, |items|
  {
    if items == [] {
      PathQuiet([], d);
    } else {
      PrintPath(items[0], d);
      if |items| > 1 {
        PrintItemsPath(parent, items[1..], d);
        JoinPath(Print(items[0]), ',', PrintItems(parent, items[1..]), d);
      }
    }
  }

  lemma {:induction false} PrintFieldsPath(parent: Json, m: map<string, Json>, keys: seq<string>, d: int)
    requires forall k :: k in keys ==> k in m && m[k] < parent
    ensures Path(PrintFields(parent, m, keys), Outside(d), Outside(d), d)
    decreases parent, 0, |keys| + 1
  {
    if keys == [] {
      PathQuiet([], d);
    } else {
      QuotePath(keys[0], d);
      PrintPath(m[keys[0]], d);
      JoinPath(Quote(keys[0]), ':', Print(m[keys[0]]), d);
      if |keys| > 1 {
        PrintFieldsPath(parent, m, keys[1..], d);
        JoinPath(PrintField(parent, keys[0], m[keys[0]]), ',', PrintFields(parent, m, keys[1..]), d);
      }
    }
  }

  // ----- one line of ASCII -----

  predicate Printable(t: string) {
    forall i :: 0 <= i < |t| ==> ' ' <= t[i] <= '~'
  }

  lemma {:induction false} StaysPrintable(t: string, s: Scan, d: int)
    requires Stays(t, s, d)
    ensures Printable(t)
  {
    if t != [] {
      StaysPrintable(t[1..], Step(s, t[0]), d);
      assert t == [t[0]] + t[1..];
    }
  }

  /** The canonical text has no line break and one byte for each character in UTF-8. */
  lemma PrintPrintable(j: Json)
    ensures Printable(Print(j))
  {
    PrintPath(j, 0);
    StaysPrintable(Print(j), Outside(0), 0);
  }

  // ----- unique decoding -----

  /** Two objects printed at the front of the same text are the same object. */
  lemma ObjectsPrefixFree(a: Json, b: Json, x: string, y: string)
    requires a.Obj? && b.Obj? && Print(a) + x == Print(b) + y
    ensures a == b && x == y
  {
    ReadValueOfPrint(a, x);
    ReadValueOfPrint(b, y);
  }

  lemma {:induction false} RunConcat(t: string, u: string, s: Scan)
    ensures Run(t + u, s) == Run(u, Run(t, s))
  {
    if t == [] {
      assert t + u == u;
    } else {
      RunConcat(t[1..], u, Step(s, t[0]));
      assert (t + u)[1..] == t[1..] + u;
    }
  }

  lemma {:induction false} RunBroken(t: string)
    ensures Run(t, Broken) == Broken
  {
    if t != [] { RunBroken(t[1..]); }
  }

  /** A text cannot leave both a scan that starts in a string and one that starts outside a string
      outside: quotes toggle both, and a backslash breaks the one that is outside. */
  lemma {:induction false} OppositeScans(t: string, d: int, e: int)
    ensures !(Run(t, Outside(d)).Outside? && Run(t, Inside(e)).Outside?)
  {
    if t != [] {
      if t[0] == '"' {
        OppositeScans(t[1..], e, d);
      } else if t[0] == '\\' {
        RunBroken(t[1..]);
      } else {
        OppositeScans(t[1..], Step(Outside(d), t[0]).depth, e);
      }
    }
  }

  lemma {:induction false} StaysPrefix(t: string, u: string, s: Scan, d: int)
    requires Stays(t + u, s, d)
    ensures AtLeast(Run(t, s), d)
  {
    if t == [] {
      assert t + u == u;
    } else {
      assert (t + u)[1..] == t[1..] + u;
      StaysPrefix(t[1..], u, Step(s, t[0]), d);
    }
  }

  /** Inside a printed object at least one bracket is open. */
  lemma OpenInside(j: Json, x: string, y: string)
    requires j.Obj? && Print(j) == x + y && x != [] && y != []
    ensures AtLeast(Run(x, Outside(0)), 1)
  {
    var body := PrintFields(j, j.fields, SortedKeys(j.fields.Keys));
    PrintFieldsPath(j, j.fields, SortedKeys(j.fields.Keys), 1);
    assert x[0] == Print(j)[0] == '{';
    assert body == x[1..] + y[..|y| - 1] by {
      assert Print(j)[1..|Print(j)| - 1] == body;
      assert (x + y)[1..|x + y| - 1] == x[1..] + y[..|y| - 1];
    }
    StaysPrefix(x[1..], y[..|y| - 1], Outside(1), 1);
  }

  /** No proper suffix of a printed object is a printed object. */
  lemma ObjectsSuffixFree(a: Json, b: Json, x: string)
    requires a.Obj? && b.Obj? && Print(a) == x + Print(b)
    ensures x == [] && a == b
  {
    var t := Print(b);
    PrintPath(a, 0);
    PrintPath(b, 0);
    if x != [] {
      OpenInside(a, x, t);
      RunConcat(x, t, Outside(0));
      var s := Run(x, Outside(0));
      assert Run(t, s) == Outside(0);
      match s {
        case Outside(d) => PrintPath(b, d);
        case Inside(d) => OppositeScans(t, 0, d);
        case Escaped(d) =>
          assert Step(s, t[0]) == Inside(d) && Step(Outside(0), t[0]) == Outside(1);
          OppositeScans(t[1..], 1, d);
      }
      assert false;
    }
    assert Print(a) == t;
    LoadsOfPrint(a);
    LoadsOfPrint(b);
  }
}
