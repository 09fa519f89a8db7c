/** JSON values, the canonical text `json.dumps(value, sort_keys=True, separators=(",", ":"))`
    writes for them, and the reader of that text. Text is plain ASCII because every other
    character is escaped (RFC 8259, section 7). */
module Json {
  import opened Outcomes
  import opened Bytes

  /** A dictionary is a map: Python compares dictionaries without regard to order. */
  datatype Json =
    | Null
    | Bool(b: bool)
    | Num(n: int)
    | Str(s: string)
    | Arr(items: seq<Json>)
    | Obj(fields: map<string, Json>)
  {
    /** `value.get(key)`, None for a missing key. */
    function Get(key: string): Option<Json> {
      if Obj? && key in fields then Some(fields[key]) else None
    }
  }

  /** A value that is known to be a dictionary. */
  type Dict = j: Json | j.Obj? witness Obj(map[])

  // ----- key order -----

  /** Python's order on strings, by code point. */
  predicate AtMost(a: string, b: string) {
    a == [] || (b != [] && (a[0] < b[0] || (a[0] == b[0] && AtMost(a[1..], b[1..]))))
  }

  lemma {:induction false} AtMostTotal(a: string, b: string)
    ensures AtMost(a, b) || AtMost(b, a)
  {
    if a != [] && b != [] && a[0] == b[0] { AtMostTotal(a[1..], b[1..]); }
  }

  lemma {:induction false} AtMostTransitive(a: string, b: string, c: string)
    requires AtMost(a, b) && AtMost(b, c)
    ensures AtMost(a, c)
  {
    if a != [] && b != [] && c != [] && a[0] == b[0] == c[0] {
      AtMostTransitive(a[1..], b[1..], c[1..]);
    }
  }

  lemma {:induction false} AtMostAntisymmetric(a: string, b: string)
    requires AtMost(a, b) && AtMost(b, a)
    ensures a == b
  {
    if a != [] && b != [] {
      AtMostAntisymmetric(a[1..], b[1..]);
      assert a == [a[0]] + a[1..] && b == [b[0]] + b[1..];
    }
  }

  /** One text comes before another exactly when it is a prefix of it or smaller in the first character
      in which they differ. */
  lemma {:induction false} AtMostMeans(a: string, b: string)
    ensures AtMost(a, b) <==> a <= b || exists i :: FirstSmaller(a, b, i)
  {
    if a != [] && b != [] && a[0] == b[0] {
      AtMostMeans(a[1..], b[1..]);
      assert a == [a[0]] + a[1..] && b == [b[0]] + b[1..];
      if i :| FirstSmaller(a[1..], b[1..], i) { assert FirstSmaller(a, b, i + 1); }
      if i :| FirstSmaller(a, b, i) { assert FirstSmaller(a[1..], b[1..], i - 1); }
    } else if a != [] && b != [] {
      if a[0] < b[0] { assert FirstSmaller(a, b, 0); }
      if i :| FirstSmaller(a, b, i) { assert i == 0; }
    }
  }

  ghost predicate FirstSmaller(a: string, b: string, i: int) {
    0 <= i < |a| && i < |b| && a[..i] == b[..i] && a[i] < b[i]
  }

  predicate IsLeast(ks: set<string>, m: string) {
    m in ks && forall k :: k in ks ==> AtMost(m, k)
  }

  lemma {:induction false} LeastExists(ks: set<string>) returns (m: string)
    requires ks != {}
    ensures IsLeast(ks, m)
    decreases |ks|
  {
    var k :| k in ks;
    AtMostTotal(k, k);
    if ks == {k} {
      m := k;
    } else {
      var rest := ks - {k};
      m := LeastExists(rest);
      AtMostTotal(k, m);
      if AtMost(k, m) {
        forall j | j in ks ensures AtMost(k, j) {
          if j in rest { AtMostTransitive(k, m, j); }
        }
        m := k;
      }
    }
  }

  lemma LeastUnique(ks: set<string>)
    ensures forall a, b :: IsLeast(ks, a) && IsLeast(ks, b) ==> a == b
  {
    forall a, b | IsLeast(ks, a) && IsLeast(ks, b) ensures a == b {
      AtMostAntisymmetric(a, b);
    }
  }

  lemma LeastChosen(ks: set<string>)
    requires ks != {}
    ensures exists m :: IsLeast(ks, m)
  {
    var m := LeastExists(ks);
  }

  function Least(ks: set<string>): (m: string)
    requires ks != {}
    ensures IsLeast(ks, m)
  {
    LeastChosen(ks);
    LeastUnique(ks);
    var m :| IsLeast(ks, m);
    m
  }

  /** The keys in increasing order. */
  function SortedKeys(ks: set<string>): (r: seq<string>)
    ensures forall k :: k in r <==> k in ks
    ensures forall i, j :: 0 <= i < j < |r| ==> r[i] != r[j] && AtMost(r[i], r[j])
    decreases |ks|
  {
    if ks == {} then [] else
      var m := Least(ks);
      [m] + SortedKeys(ks - {m})
  }

  // ----- numbers -----

  function Digit(d: int): char
    requires 0 <= d < 10
  {
    '0' + (d as char)
  }

  predicate IsDigit(c: char) {
    '0' <= c <= '9'
  }

  function PrintNat(n: nat): (t: string)
    ensures t != [] && IsDigit(t[0])
  {
    if n < 10 then [Digit(n)] else PrintNat(n / 10) + [Digit(n % 10)]
  }

  function PrintInt(n: int): string {
    if n < 0 then "-" + PrintNat(-n) else PrintNat(n)
  }

  function ReadNat(t: string, acc: nat): (r: (nat, string))
    ensures |r.1| <= |t|
  {
    if t != [] && IsDigit(t[0]) then ReadNat(t[1..], 10 * acc + ((t[0] as int) - ('0' as int)))
    else (acc, t)
  }

  lemma {:induction false} ReadNatOfPrint(n: nat, rest: string)
    ensures ReadNat(PrintNat(n) + rest, 0) == ReadNat(rest, n)
  {
    if n < 10 {
      assert ([Digit(n)] + rest)[1..] == rest;
    } else {
      var tail := [Digit(n % 10)] + rest;
      ReadNatOfPrint(n / 10, tail);
      assert PrintNat(n) + rest == PrintNat(n / 10) + tail;
      assert tail[1..] == rest;
      assert 10 * (n / 10) + n % 10 == n;
    }
  }

  // ----- strings -----

  /** The four digits of a 16-bit code unit. */
  function UnitDigits(u: int): (t: string)
    requires 0 <= u < 0x1_0000
    ensures |t| == 4
  {
    [HexDigit(u / 4096), HexDigit(u / 256 % 16), HexDigit(u / 16 % 16), HexDigit(u % 16)]
  }

  predicate Unescaped(c: char) {
    ' ' <= c <= '~' && c != '"' && c != '\\'
  }

  /** What follows the backslash; characters beyond 16 bits take two code units. */
  function EscapeBody(c: char): (t: string)
    ensures t != []
  {
    if c == '"' || c == '\\' then [c]
    else if c == '\n' then ['n']
    else if c == '\r' then ['r']
    else if c == '\t' then ['t']
    else if c == 8 as char then ['b']
    else if c == 12 as char then ['f']
    else if c as int < 0x1_0000 then ['u'] + UnitDigits(c as int)
    else
      var v := (c as int) - 0x1_0000;
      ['u'] + (UnitDigits(0xD800 + v / 1024) + (['\\', 'u'] + UnitDigits(0xDC00 + v % 1024)))
  }

  function EscapeChar(c: char): (t: string)
    ensures t != []
  {
    if Unescaped(c) then [c] else ['\\'] + EscapeBody(c)
  }

  function Escape(s: string): string {
    if s == [] then [] else EscapeChar(s[0]) + Escape(s[1..])
  }

  /** A string literal. */
  function Quote(s: string): string {
    ['"'] + (Escape(s) + ['"'])
  }

  datatype Parsed<T> = Fail | Done(value: T, rest: string)

  /** Four hexadecimal digits at the front of t. */
  function ReadUnit(t: string): (r: Parsed<int>)
    ensures r.Done? ==> |r.rest| < |t| && 0 <= r.value < 0x1_0000
  {
    if |t| < 4 then Fail
    else
      var a, b, c, d := HexValue(t[0]), HexValue(t[1]), HexValue(t[2]), HexValue(t[3]);
      if a.None? || b.None? || c.None? || d.None? then Fail
      else Done(a.value * 4096 + b.value * 256 + c.value * 16 + d.value, t[4..])
  }

  /** What follows a backslash. */
  function ReadEscape(t: string): (r: Parsed<char>)
    ensures r.Done? ==> |r.rest| < |t|
  {
    if t == [] then Fail
    else if t[0] == '"' || t[0] == '\\' || t[0] == '/' then Done(t[0], t[1..])
    else if t[0] == 'n' then Done('\n', t[1..])
    else if t[0] == 'r' then Done('\r', t[1..])
    else if t[0] == 't' then Done('\t', t[1..])
    else if t[0] == 'b' then Done(8 as char, t[1..])
    else if t[0] == 'f' then Done(12 as char, t[1..])
    else if t[0] != 'u' then Fail
    else
      var u := ReadUnit(t[1..]);
      if u.Fail? then Fail
      else if u.value < 0xD800 || 0xE000 <= u.value then Done(u.value as char, u.rest)
      else if 0xDC00 <= u.value || |u.rest| < 2 || u.rest[..2] != ['\\', 'u'] then Fail
      else
        var v := ReadUnit(u.rest[2..]);
        if v.Fail? || v.value < 0xDC00 || 0xE000 <= v.value then Fail
        else Done((0x1_0000 + (u.value - 0xD800) * 1024 + (v.value - 0xDC00)) as char, v.rest)
  }

  /** The rest of a string after its opening quote, up to the closing one. */
  function ReadString(t: string): (r: Parsed<string>)
    ensures r.Done? ==> |r.rest| < |t|
    decreases |t|
  {
    if t == [] then Fail
    else if t[0] == '"' then Done([], t[1..])
    else if t[0] == '\\' then
      var c := ReadEscape(t[1..]);
      if c.Fail? then Fail
      else
        var s := ReadString(c.rest);
        if s.Fail? then Fail else Done([c.value] + s.value, s.rest)
    else if t[0] < ' ' then Fail
    else
      var s := ReadString(t[1..]);
      if s.Fail? then Fail else Done([t[0]] + s.value, s.rest)
  }

  lemma FourDigits(u: int)
    requires 0 <= u < 0x1_0000
    ensures 0 <= u / 4096 < 16
    ensures u / 4096 * 4096 + u / 256 % 16 * 256 + u / 16 % 16 * 16 + u % 16 == u
  {
    assert u / 256 == u / 4096 * 16 + u / 256 % 16;
    assert u / 16 == u / 256 * 16 + u / 16 % 16;
    assert u == u / 16 * 16 + u % 16;
  }

  lemma ReadUnitOfDigits(u: int, rest: string)
    requires 0 <= u < 0x1_0000
    ensures ReadUnit(UnitDigits(u) + rest) == Done(u, rest)
  {
    FourDigits(u);
    hide HexDigit, HexValue;
    var t := UnitDigits(u) + rest;
    assert t[4..] == rest;
    assert HexValue(t[0]) == Some(u / 4096) && HexValue(t[1]) == Some(u / 256 % 16);
    assert HexValue(t[2]) == Some(u / 16 % 16) && HexValue(t[3]) == Some(u % 16);
  }

  /** Two escaped code units make one character. */
  lemma ReadPair(v: int, rest: string)
    requires 0 <= v < 0x10_0000
    ensures ReadEscape(['u'] + (UnitDigits(0xD800 + v / 1024) + (['\\', 'u'] + (UnitDigits(0xDC00 + v % 1024) + rest))))
         == Done((0x1_0000 + v) as char, rest)
  {
    hide UnitDigits, ReadUnit;
    var low := UnitDigits(0xDC00 + v % 1024) + rest;
    var pair := ['\\', 'u'] + low;
    assert (['u'] + (UnitDigits(0xD800 + v / 1024) + pair))[1..] == UnitDigits(0xD800 + v / 1024) + pair;
    ReadUnitOfDigits(0xD800 + v / 1024, pair);
    assert pair[..2] == ['\\', 'u'] && pair[2..] == low;
    ReadUnitOfDigits(0xDC00 + v % 1024, rest);
  }

  lemma ReadSingle(u: int, rest: string)
    requires 0 <= u < 0xD800 || 0xE000 <= u < 0x1_0000
    ensures ReadEscape(['u'] + UnitDigits(u) + rest) == Done(u as char, rest)
  {
    hide UnitDigits, ReadUnit;
    assert (['u'] + UnitDigits(u) + rest)[1..] == UnitDigits(u) + rest;
    ReadUnitOfDigits(u, rest);
  }

  lemma ReadLetter(c: char, rest: string)
    requires !Unescaped(c) && EscapeBody(c)[0] != 'u'
    ensures ReadEscape(EscapeBody(c) + rest) == Done(c, rest)
  {
    hide ReadUnit;
    var t := EscapeBody(c) + rest;
    assert t[0] == EscapeBody(c)[0] && t[1..] == rest;
  }

  lemma ReadEscapeOfBody(c: char, rest: string)
    requires !Unescaped(c)
    ensures ReadEscape(EscapeBody(c) + rest) == Done(c, rest)
  {
    hide UnitDigits, ReadEscape;
    if EscapeBody(c)[0] != 'u' {
      ReadLetter(c, rest);
    } else if c as int < 0x1_0000 {
      ReadSingle(c as int, rest);
    } else {
      var v := (c as int) - 0x1_0000;
      var high, low := UnitDigits(0xD800 + v / 1024), UnitDigits(0xDC00 + v % 1024);
      Assoc(['u'], high + (['\\', 'u'] + low), rest);
      Assoc(high, ['\\', 'u'] + low, rest);
      Assoc(['\\', 'u'], low, rest);
      ReadPair(v, rest);
    }
  }

  lemma Assoc(a: string, b: string, c: string)
    ensures (a + b) + c == a + (b + c)
  {
  }

  lemma Behind(c: char, t: string)
    ensures ([c] + t)[0] == c && ([c] + t)[1..] == t
  {
  }

  lemma ReadStringStep(c: char, more: string)
    ensures ReadString(EscapeChar(c) + more)
         == var s := ReadString(more); if s.Fail? then Fail else Done([c] + s.value, s.rest)
  {
    hide ReadEscape, EscapeBody;
    if Unescaped(c) {
      Behind(c, more);
    } else {
      Assoc(['\\'], EscapeBody(c), more);
      Behind('\\', EscapeBody(c) + more);
      ReadEscapeOfBody(c, more);
    }
  }

  /** Every string comes back from its escaped text. */
  lemma {:induction false} ReadStringOfEscape(s: string, rest: string)
    ensures ReadString(Escape(s) + (['"'] + rest)) == Done(s, rest)
  {
    var quoted := ['"'] + rest;
    Behind('"', rest);
    if s == [] {
      assert Escape(s) + quoted == quoted;
    } else {
      hide ReadString, EscapeChar;
      ReadStringOfEscape(s[1..], rest);
      Assoc(EscapeChar(s[0]), Escape(s[1..]), quoted);
      ReadStringStep(s[0], Escape(s[1..]) + quoted);
      assert [s[0]] + s[1..] == s;
    }
  }

  // ----- values -----

  function Print(j: Json): (t: string)
    ensures t != []
    decreases j, 1, 0
  {
    match j
    case Null => "null"
    case Bool(b) => if b then "true" else "false"
    case Num(n) => PrintInt(n)
    case Str(s) => Quote(s)
    case Arr(items) => ['['] + (PrintItems(j, items) + [']'])
    case Obj(fields) => ['{'] + (PrintFields(j, fields, SortedKeys(fields.Keys)) + ['}'])
  }

  function PrintItems(ghost parent: Json, items: seq<Json>): string
    requires forall i :: 0 <= i < |items| ==> items[i] < parent
    decreases parent, 0, |items|
  {
    if items == [] then []
    else if |items| == 1 then Print(items[0])
    else Print(items[0]) + ([','] + PrintItems(parent, items[1..]))
  }

  function PrintField(ghost parent: Json, key: string, value: Json): string
    requires value < parent
    decreases parent, 0, 0
  {
    Quote(key) + ([':'] + Print(value))
  }

  function PrintFields(ghost parent: Json, m: map<string, Json>, keys: seq<string>): string
    requires forall k :: k in keys ==> k in m && m[k] < parent
    decreases parent, 0, |keys| + 1
  {
    if keys == [] then []
    else
      var first := PrintField(parent, keys[0], m[keys[0]]);
      if |keys| == 1 then first else first + ([','] + PrintFields(parent, m, keys[1..]))
  }

  /** One of the three words that stand for values. */
  function ReadWord(t: string, word: string, value: Json): (r: Parsed<Json>)
    requires word != []
    ensures r.Done? ==> |r.rest| < |t|
  {
    if word <= t then Done(value, t[|word|..]) else Fail
  }

  /** Reads one value from the front of t. */
  function ReadValue(t: string): (r: Parsed<Json>)
    ensures r.Done? ==> |r.rest| < |t|
    decreases |t|, 0
  {
    if t == [] then Fail
    else if t[0] == 'n' then ReadWord(t, "null", Null)
    else if t[0] == 't' then ReadWord(t, "true", Bool(true))
    else if t[0] == 'f' then ReadWord(t, "false", Bool(false))
    else if t[0] == '"' then
      var s := ReadString(t[1..]);
      if s.Fail? then Fail else Done(Str(s.value), s.rest)
    else if IsDigit(t[0]) then
      var n := ReadNat(t, 0);
      if |n.1| < |t| then Done(Num(n.0), n.1) else Fail
    else if t[0] == '-' then
      if |t| < 2 || !IsDigit(t[1]) then Fail
      else
        var n := ReadNat(t[1..], 0);
        Done(Num(0 - n.0), n.1)
    else if t[0] == '[' then
      if |t| >= 2 && t[1] == ']' then Done(Arr([]), t[2..])
      else
        var items := ReadItems(t[1..]);
        if items.Fail? then Fail else Done(Arr(items.value), items.rest)
    else if t[0] == '{' then
      if |t| >= 2 && t[1] == '}' then Done(Obj(map[]), t[2..])
      else
        var fields := ReadFields(t[1..], map[]);
        if fields.Fail? then Fail else Done(Obj(fields.value), fields.rest)
    else Fail
  }

  /** Values separated by commas, and the closing bracket. */
  function ReadItems(t: string): (r: Parsed<seq<Json>>)
    ensures r.Done? ==> |r.rest| < |t|
    decreases |t|, 1
  {
    var x := ReadValue(t);
    if x.Fail? || x.rest == [] then Fail
    else if x.rest[0] == ']' then Done([x.value], x.rest[1..])
    else if x.rest[0] != ',' then Fail
    else
      var more := ReadItems(x.rest[1..]);
      if more.Fail? then Fail else Done([x.value] + more.value, more.rest)
  }

  /** Members separated by commas, and the closing brace; a repeated key keeps its last value. */
  function ReadFields(t: string, acc: map<string, Json>): (r: Parsed<map<string, Json>>)
    ensures r.Done? ==> |r.rest| < |t|
    decreases |t|, 1
  {
    if t == [] || t[0] != '"' then Fail
    else
      var key := ReadString(t[1..]);
      if key.Fail? || key.rest == [] || key.rest[0] != ':' then Fail
      else
        var x := ReadValue(key.rest[1..]);
        if x.Fail? || x.rest == [] then Fail
        else
          var fields := acc[key.value := x.value];
          if x.rest[0] == '}' then Done(fields, x.rest[1..])
          else if x.rest[0] != ',' then Fail
          else ReadFields(x.rest[1..], fields)
  }

  /** `json.loads` on text that `json.dumps` wrote. */
  function Loads(t: string): Option<Json> {
    var r := ReadValue(t);
    if r.Done? && r.rest == [] then Some(r.value) else None
  }

  // ----- reading back what was printed -----

  /** No digit follows, so a number ends where it was printed. */
  predicate Delimited(rest: string) {
    rest == [] || !IsDigit(rest[0])
  }

  /** Reading the printed text of any value, with anything undecided after it, gives the value and
      leaves exactly what came after. */
  lemma {:induction false} ReadValueOfPrint(j: Json, rest: string)
    requires j.Num? ==> Delimited(rest)
    ensures ReadValue(Print(j) + rest) == Done(j, rest)
    decreases j, 1, 0
  {
    match j
    case Null =>
      assert ("null" + rest)[..4] == "null" && ("null" + rest)[4..] == rest;
    case Bool(b) =>
      ReadBoolOfPrint(b, rest);
    case Num(n) =>
      ReadNumOfPrint(n, rest);
    case Str(s) =>
      ReadStrOfPrint(s, rest);
    case Arr(items) =>
      if items != [] { ReadItemsOfPrint(j, items, rest); }
      ReadArrOfPrint(j, rest);
    case Obj(fields) =>
      var keys := SortedKeys(fields.Keys);
      if keys != [] { ReadFieldsOfPrint(j, fields, keys, map[], rest); }
      ReadObjOfPrint(j, rest);
  }

  lemma ReadBoolOfPrint(b: bool, rest: string)
    ensures ReadValue(Print(Bool(b)) + rest) == Done(Bool(b), rest)
  {
    assert ("true" + rest)[..4] == "true" && ("true" + rest)[4..] == rest;
    assert ("false" + rest)[..5] == "false" && ("false" + rest)[5..] == rest;
  }

  lemma ReadQuoted(s: string, rest: string)
    ensures Quote(s) + rest == ['"'] + (Escape(s) + (['"'] + rest))
    ensures (Quote(s) + rest)[0] == '"' && ReadString((Quote(s) + rest)[1..]) == Done(s, rest)
  {
    hide ReadString, Escape;
    Assoc(['"'], Escape(s) + ['"'], rest);
    Assoc(Escape(s), ['"'], rest);
    Behind('"', Escape(s) + (['"'] + rest));
    ReadStringOfEscape(s, rest);
  }

  /** A quotation mark begins a string. */
  lemma ReadsString(t: string)
    requires t != [] && t[0] == '"'
    ensures ReadValue(t) == var s := ReadString(t[1..]); if s.Fail? then Fail else Done(Str(s.value), s.rest)
  {
    hide ReadString, ReadNat, ReadItems, ReadFields;
  }

  /** An opening bracket that is not closed at once begins the items. */
  lemma ReadsItems(t: string)
    requires |t| >= 2 && t[0] == '[' && t[1] != ']'
    ensures ReadValue(t) == var items := ReadItems(t[1..]); if items.Fail? then Fail else Done(Arr(items.value), items.rest)
  {
    hide ReadString, ReadNat, ReadItems, ReadFields;
    assert t[..2] != "[]" by { assert t[..2][1] == t[1]; }
  }

  lemma ReadStrOfPrint(s: string, rest: string)
    ensures ReadValue(Print(Str(s)) + rest) == Done(Str(s), rest)
  {
    hide Quote, ReadValue, ReadString;
    ReadQuoted(s, rest);
    ReadsString(Quote(s) + rest);
  }

  /** The first character decides how a bracketed value is read. */
  lemma ReadBracketed(open: char, body: string, close: char, rest: string)
    requires (open == '[' && close == ']') || (open == '{' && close == '}')
    ensures var t := [open] + (body + [close]) + rest;
            && t[0] == open && t[1..] == body + ([close] + rest)
            && (body == [] ==> t[..2] == [open, close] && t[2..] == rest)
            && (body != [] ==> t[..2] == [open, body[0]])
  {
    Assoc([open], body + [close], rest);
    Assoc(body, [close], rest);
    Behind(open, body + ([close] + rest));
    if body == [] {
      assert body + ([close] + rest) == [close] + rest;
      assert ([open] + ([close] + rest))[2..] == rest;
    }
  }

  lemma ReadArrOfPrint(j: Json, rest: string)
    requires j.Arr?
    requires j.items != [] ==> ReadItems(PrintItems(j, j.items) + ([']'] + rest)) == Done(j.items, rest)
    ensures ReadValue(Print(j) + rest) == Done(j, rest)
  {
    ReadBracketed('[', PrintItems(j, j.items), ']', rest);
    if j.items == [] {
      ReadsEmptyItems(Print(j) + rest);
    } else {
      hide ReadItems, ReadValue;
      PrintItemsStart(j, j.items);
      var t := Print(j) + rest;
      assert t[1] == t[..2][1];
      ReadsItems(t);
    }
  }

  lemma ReadsEmptyItems(t: string)
    requires |t| >= 2 && t[..2] == "[]"
    ensures ReadValue(t) == Done(Arr([]), t[2..])
  {
    hide ReadString, ReadNat, ReadItems, ReadFields;
    assert t[0] == t[..2][0];
  }

  lemma ReadBraced(body: string, rest: string)
    requires body != [] ==> body[0] == '"'
    ensures ReadValue(['{'] + (body + ['}']) + rest)
         == if body == [] then Done(Obj(map[]), rest)
            else var f := ReadFields(body + (['}'] + rest), map[]);
                 if f.Fail? then Fail else Done(Obj(f.value), f.rest)
  {
    hide ReadFields;
    ReadBracketed('{', body, '}', rest);
  }

  lemma ReadObjOfPrint(j: Json, rest: string)
    requires j.Obj?
    requires var keys := SortedKeys(j.fields.Keys);
             && (forall k :: k in keys ==> k in j.fields && j.fields[k] < j)
             && (keys != [] ==>
                   ReadFields(PrintFields(j, j.fields, keys) + (['}'] + rest), map[])
                     == Done(map[] + (map k | k in j.fields && k in keys :: j.fields[k]), rest))
    ensures ReadValue(Print(j) + rest) == Done(j, rest)
  {
    hide ReadFields, ReadValue;
    var keys := SortedKeys(j.fields.Keys);
    assert forall k :: k in keys <==> k in j.fields;
    Restricted(j.fields, keys);
    if keys == [] {
      assert j.fields == map[] by { assert forall k :: k in j.fields ==> k in keys; }
    } else {
      PrintFieldsStart(j, j.fields, keys);
    }
    ReadBraced(PrintFields(j, j.fields, keys), rest);
  }

  lemma Restricted(m: map<string, Json>, keys: seq<string>)
    requires forall k :: k in keys <==> k in m
    ensures map[] + (map k | k in m && k in keys :: m[k]) == m
  {
  }

  lemma ReadDigits(m: nat, rest: string)
    requires Delimited(rest)
    ensures ReadNat(PrintNat(m) + rest, 0) == (m, rest)
  {
    ReadNatOfPrint(m, rest);
  }

  lemma ReadNumOfPrint(n: int, rest: string)
    requires Delimited(rest)
    ensures ReadValue(PrintInt(n) + rest) == Done(Num(n), rest)
  {
    hide ReadString, ReadItems, ReadFields, ReadNat, PrintNat;
    var m: nat := if n < 0 then -n else n;
    var u := PrintNat(m) + rest;
    ReadDigits(m, rest);
    assert IsDigit(u[0]) && u[0] == PrintNat(m)[0];
    if n < 0 {
      assert PrintInt(n) + rest == ['-'] + u;
    }
  }

  lemma PrintStart(j: Json)
    ensures Print(j)[0] != ']'
  {
    if j.Num? { assert PrintNat(if j.n < 0 then -j.n else j.n)[0] != ']'; }
  }

  lemma PrintItemsStart(parent: Json, items: seq<Json>)
    requires items != [] && forall i :: 0 <= i < |items| ==> items[i] < parent
    ensures PrintItems(parent, items) != [] && PrintItems(parent, items)[0] != ']'
  {
    PrintStart(items[0]);
  }

  lemma PrintFieldsStart(parent: Json, m: map<string, Json>, keys: seq<string>)
    requires keys != [] && forall k :: k in keys ==> k in m && m[k] < parent
    ensures PrintFields(parent, m, keys) != [] && PrintFields(parent, m, keys)[0] == '"'
  {
    hide Print, Escape;
    assert PrintField(parent, keys[0], m[keys[0]])[0] == '"';
  }

  lemma {:induction false} ReadItemsOfPrint(parent: Json, items: seq<Json>, rest: string)
    requires items != [] && forall i :: 0 <= i < |items| ==> items[i] < parent
    ensures ReadItems(PrintItems(parent, items) + ([']'] + rest)) == Done(items, rest)
    decreases parent, 0, |items|
  {
    hide ReadValue, Print;
    var close := [']'] + rest;
    Behind(']', rest);
    if |items| == 1 {
      ReadValueOfPrint(items[0], close);
      assert items == [items[0]];
    } else {
      var more := PrintItems(parent, items[1..]);
      ReadItemsOfPrint(parent, items[1..], rest);
      ReadValueOfPrint(items[0], [','] + (more + close));
      Assoc(Print(items[0]), [','] + more, close);
      Assoc([','], more, close);
      Behind(',', more + close);
      assert items == [items[0]] + items[1..];
    }
  }

  lemma ReadFieldOfPrint(parent: Json, key: string, value: Json, acc: map<string, Json>, after: string)
    requires value < parent && after != []
    requires ReadValue(Print(value) + after) == Done(value, after)
    ensures ReadFields(PrintField(parent, key, value) + after, acc)
         == var next := acc[key := value];
            if after[0] == '}' then Done(next, after[1..])
            else if after[0] != ',' then Fail
            else ReadFields(after[1..], next)
  {
    hide ReadValue, ReadString, Print, Quote;
    var tail := [':'] + (Print(value) + after);
    Assoc(Quote(key), [':'] + Print(value), after);
    Assoc([':'], Print(value), after);
    Behind(':', Print(value) + after);
    ReadQuoted(key, tail);
  }

  lemma {:induction false} ReadFieldsOfPrint(
    parent: Json, m: map<string, Json>, keys: seq<string>, acc: map<string, Json>, rest: string)
    requires keys != [] && forall k :: k in keys ==> k in m && m[k] < parent
    ensures ReadFields(PrintFields(parent, m, keys) + (['}'] + rest), acc)
         == Done(acc + (map k | k in m && k in keys :: m[k]), rest)
    decreases parent, 0, |keys|
  {
    hide ReadValue, ReadFields, PrintField, Print;
    var key, value := keys[0], m[keys[0]];
    var field := PrintField(parent, key, value);
    var next := acc[key := value];
    var close := ['}'] + rest;
    Behind('}', rest);
    if |keys| == 1 {
      ReadValueOfPrint(value, close);
      ReadFieldOfPrint(parent, key, value, acc, close);
      Merged(m, keys, acc);
    } else {
      var more := PrintFields(parent, m, keys[1..]);
      ReadValueOfPrint(value, [','] + (more + close));
      ReadFieldOfPrint(parent, key, value, acc, [','] + (more + close));
      ReadFieldsOfPrint(parent, m, keys[1..], next, rest);
      Assoc(field, [','] + more, close);
      Assoc([','], more, close);
      Behind(',', more + close);
      Merged(m, keys, acc);
    }
  }

  /** Adding the first key and then the others is adding all. */
  lemma Merged(m: map<string, Json>, keys: seq<string>, acc: map<string, Json>)
    requires keys != [] && keys[0] in m
    ensures acc[keys[0] := m[keys[0]]] + (map k | k in m && k in keys[1..] :: m[k])
         == acc + (map k | k in m && k in keys :: m[k])
    ensures |keys| == 1 ==> acc[keys[0] := m[keys[0]]] == acc + (map k | k in m && k in keys :: m[k])
  {
  }

  /** The JSON round trip. */
  lemma LoadsOfPrint(j: Json)
    ensures Loads(Print(j)) == Some(j)
  {
    ReadValueOfPrint(j, []);
    assert Print(j) + [] == Print(j);
  }

  // ----- what the canonical text looks like -----

  /** Printable ASCII without quote and backslash. */
  predicate Plain(s: string) {
    forall i :: 0 <= i < |s| ==> ' ' <= s[i] <= '~' && s[i] != '"' && s[i] != '\\'
  }

  /** A string stands in its literal as it is exactly when it is plain. */
  lemma {:induction false} PlainPrinted(s: string)
    ensures Escape(s) == s <==> Plain(s)
    ensures |s| <= |Escape(s)|
    ensures Plain(s) ==> Print(Str(s)) == "\"" + s + "\""
  {
    if s != [] {
      var t := s[1..];
      PlainPrinted(t);
      assert s == [s[0]] + t;
      assert Plain(s) <==> Plain([s[0]]) && Plain(t) by {
        if Plain(s) { assert forall i :: 0 <= i < |t| ==> t[i] == s[i + 1]; }
      }
      EscapedLonger(s[0]);
      if Escape(s) == s { assert EscapeChar(s[0])[0] == s[0] && |EscapeChar(s[0])| == 1; }
    }
  }

  lemma EscapedLonger(c: char)
    ensures ' ' <= c <= '~' && c != '"' && c != '\\' ==> EscapeChar(c) == [c]
    ensures !(' ' <= c <= '~' && c != '"' && c != '\\') ==> |EscapeChar(c)| >= 2
  {
  }

  /** The escapes that have a letter. */
  lemma EscapeLetters()
    ensures EscapeChar('"') == "\\\"" && EscapeChar('\\') == "\\\\"
    ensures EscapeChar('\n') == "\\n" && EscapeChar('\r') == "\\r" && EscapeChar('\t') == "\\t"
    ensures EscapeChar(8 as char) == "\\b" && EscapeChar(12 as char) == "\\f"
  {
    hide UnitDigits;
  }

  lemma HexExamples()
    ensures HexDigit(0) == '0' && HexDigit(7) == '7' && HexDigit(8) == '8' && HexDigit(9) == '9'
    ensures HexDigit(3) == '3' && HexDigit(13) == 'd' && HexDigit(14) == 'e' && HexDigit(15) == 'f'
  {
  }

  /** The others have hexadecimal digits in lower case. */
  lemma EscapeNumbers()
    ensures EscapeChar(0xE9 as char) == "\\u00e9" && EscapeChar(0x7F as char) == "\\u007f"
  {
    hide HexDigit;
    HexExamples();
  }

  /** Characters beyond 16 bits take a pair. */
  lemma EscapePair()
    ensures EscapeChar(0x1F600 as char) == "\\ud83d\\ude00"
  {
    hide UnitDigits;
    assert UnitDigits(0xD83D) == "d83d" && UnitDigits(0xDE00) == "de00" by { PairDigits(); }
    assert 0xD800 + (0x1F600 - 0x1_0000) / 1024 == 0xD83D && 0xDC00 + (0x1F600 - 0x1_0000) % 1024 == 0xDE00;
  }

  lemma PairDigits()
    ensures UnitDigits(0xD83D) == "d83d" && UnitDigits(0xDE00) == "de00"
  {
    hide HexDigit;
    HexExamples();
  }

  /** Scalars, and the empty list and dictionary. */
  lemma PrintExamples()
    ensures Print(Null) == "null" && Print(Bool(true)) == "true" && Print(Bool(false)) == "false"
    ensures Print(Num(0)) == "0" && Print(Num(-7)) == "-7" && Print(Num(42)) == "42"
    ensures Print(Arr([])) == "[]" && Print(Obj(map[])) == "{}"
  {
    assert PrintNat(4) == "4";
    assert PrintNat(42) == PrintNat(4) + [Digit(2)];
  }

  /** The text of a list or dictionary of two: no spaces, and the smaller key first. */
  lemma TwoItems(x: Json, y: Json)
    ensures Print(Arr([x, y])) == "[" + Print(x) + "," + Print(y) + "]"
  {
    var j := Arr([x, y]);
    assert [x, y][1..] == [y];
    assert PrintItems(j, [y]) == Print(y);
    assert PrintItems(j, [x, y]) == Print(x) + ([','] + PrintItems(j, [y]));
    Enclosed("[", Print(x), Print(y), "]");
  }

  lemma Enclosed(open: string, a: string, b: string, close: string)
    ensures open + ((a + (",") + b) + close) == open + a + "," + b + close
    ensures open + ((a + ("," + b)) + close) == open + a + "," + b + close
  {
  }

  lemma TwoKeys(a: string, b: string, x: Json, y: Json)
    requires AtMost(a, b) && a != b
    ensures Print(Obj(map[a := x, b := y]))
         == "{" + (Quote(a) + ":" + Print(x)) + "," + (Quote(b) + ":" + Print(y)) + "}"
  {
    hide Quote;
    var m := map[a := x, b := y];
    var j := Obj(m);
    KeysOfTwo(a, b);
    assert m.Keys == {a, b};
    var first, second := PrintField(j, a, x), PrintField(j, b, y);
    PrintFieldsOfTwo(j, m, a, b);
    assert first == Quote(a) + ":" + Print(x) && second == Quote(b) + ":" + Print(y);
    Enclosed("{", first, second, "}");
  }

  lemma PrintFieldsOfTwo(parent: Json, m: map<string, Json>, a: string, b: string)
    requires a in m && b in m && m[a] < parent && m[b] < parent
    ensures PrintFields(parent, m, [a, b]) == PrintField(parent, a, m[a]) + ([','] + PrintField(parent, b, m[b]))
  {
    hide PrintField, Print;
    assert [a, b][1..] == [b];
    assert PrintFields(parent, m, [b]) == PrintField(parent, b, m[b]);
  }

  lemma KeysOfTwo(a: string, b: string)
    requires AtMost(a, b) && a != b
    ensures SortedKeys({a, b}) == [a, b]
  {
    AtMostTotal(a, a);
    AtMostTotal(b, b);
    LeastUnique({a, b});
    LeastUnique({b});
    assert IsLeast({a, b}, a) && IsLeast({b}, b);
    assert {a, b} - {a} == {b} && {b} - {b} == {};
    assert SortedKeys({b}) == [b];
  }
}
