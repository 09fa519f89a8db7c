/** Byte strings, big-endian integers and hexadecimal text. */
module Bytes {
  import opened Outcomes
  import opened NumberTheory

  type byte = x: int | 0 <= x < 256

  // ----- big-endian integers -----

  /** `int.from_bytes(b, "big")`. */
  function FromBigEndian(b: seq<byte>): nat {
    if b == [] then 0 else 256 * FromBigEndian(b[..|b| - 1]) + b[|b| - 1]
  }

  /** `n.to_bytes(len, "big")`, for an n that fits. */
  function ToBigEndian(n: nat, len: nat): (b: seq<byte>)
    ensures |b| == len
  {
    if len == 0 then [] else ToBigEndian(n / 256, len - 1) + [n % 256]
  }

  lemma PowPositive(b: nat, e: nat)
    requires 0 < b
    ensures 0 < Pow(b, e)
  {
    if e > 0 {
      PowPositive(b, e - 1);
      assert 0 < b * Pow(b, e - 1);
    }
  }

  lemma {:induction false} BigEndianRoundTrip(n: nat, len: nat)
    requires n < Pow(256, len)
    ensures FromBigEndian(ToBigEndian(n, len)) == n
  {
    if len > 0 {
      assert n / 256 < Pow(256, len - 1);
      BigEndianRoundTrip(n / 256, len - 1);
      var b := ToBigEndian(n, len);
      assert b[..len - 1] == ToBigEndian(n / 256, len - 1);
    }
  }

  lemma {:induction false} BytesRoundTrip(b: seq<byte>)
    ensures FromBigEndian(b) < Pow(256, |b|)
    ensures ToBigEndian(FromBigEndian(b), |b|) == b
  {
    if b != [] {
      var init := b[..|b| - 1];
      BytesRoundTrip(init);
      assert b == init + [b[|b| - 1]];
      assert FromBigEndian(b) / 256 == FromBigEndian(init);
      assert Pow(256, |b|) == 256 * Pow(256, |b| - 1);
    }
  }

  // ----- UTF-8 -----

  /** `text.encode("utf-8")`. */
  function Utf8(t: string): seq<byte> {
    if t == [] then [] else Utf8Char(t[0] as int) + Utf8(t[1..])
  }

  function Utf8Char(c: int): seq<byte>
    requires 0 <= c < 0x11_0000
  {
    if c < 0x80 then [c]
    else if c < 0x800 then [0xC0 + c / 64, 0x80 + c % 64]
    else if c < 0x1_0000 then [0xE0 + c / 4096, 0x80 + c / 64 % 64, 0x80 + c % 64]
    else [0xF0 + c / 262144, 0x80 + c / 4096 % 64, 0x80 + c / 64 % 64, 0x80 + c % 64]
  }

  /** Printable ASCII text is encoded one byte to a character. */
  lemma {:induction false} Utf8Ascii(t: string)
    requires forall i :: 0 <= i < |t| ==> t[i] as int < 0x80
    ensures |Utf8(t)| == |t| && forall i :: 0 <= i < |t| ==> Utf8(t)[i] == t[i] as int
  {
    if t != [] { Utf8Ascii(t[1..]); }
  }

  /** Different characters are encoded differently, and no encoding is a prefix of another. */
  lemma Utf8CharPrefixFree(c: int, d: int, x: seq<byte>, y: seq<byte>)
    requires 0 <= c < 0x11_0000 && 0 <= d < 0x11_0000
    requires Utf8Char(c) + x == Utf8Char(d) + y
    ensures c == d && x == y
  {
    var t := Utf8Char(c) + x;
    assert t == Utf8Char(d) + y;
    assert |Utf8Char(c)| == |Utf8Char(d)| by {
      assert t[0] == Utf8Char(c)[0] == Utf8Char(d)[0];
    }
    assert Utf8Char(c) == t[..|Utf8Char(c)|] == Utf8Char(d);
    assert x == t[|Utf8Char(c)|..] == y;
    Utf8CharInjective(c, d);
  }

  lemma Utf8CharInjective(c: int, d: int)
    requires 0 <= c < 0x11_0000 && 0 <= d < 0x11_0000 && Utf8Char(c) == Utf8Char(d)
    ensures c == d
  {
    var u, v := Utf8Char(c), Utf8Char(d);
    assert u[0] == v[0] && u[|u| - 1] == v[|v| - 1];
    if |u| > 1 {
      assert u[1] == v[1];
      if |u| > 2 {
        assert u[2] == v[2];
        SixBits(c);
        SixBits(d);
      }
    }
  }

  lemma SixBits(c: nat)
    ensures c == 64 * (c / 64) + c % 64
    ensures c / 64 == 64 * (c / 4096) + c / 64 % 64
    ensures c / 4096 == 64 * (c / 262144) + c / 4096 % 64
  {
  }

  lemma {:induction false} Utf8Injective(t: string, u: string)
    requires Utf8(t) == Utf8(u)
    ensures t == u
  {
    if t != [] && u != [] {
      Utf8CharPrefixFree(t[0] as int, u[0] as int, Utf8(t[1..]), Utf8(u[1..]));
      Utf8Injective(t[1..], u[1..]);
      assert t == [t[0]] + t[1..] && u == [u[0]] + u[1..];
    }
  }

  // ----- hexadecimal text -----

  function HexDigit(d: int): (c: char)
    requires 0 <= d < 16
    ensures HexValue(c) == Some(d) && PlainHex(c)
  {
    if d < 10 then '0' + (d as char) else 'a' + ((d - 10) as char)
  }

  function HexValue(c: char): (d: Option<int>)
    ensures d.Some? ==> 0 <= d.value < 16
  {
    if '0' <= c <= '9' then Some((c as int) - ('0' as int))
    else if 'a' <= c <= 'f' then Some((c as int) - ('a' as int) + 10)
    else if 'A' <= c <= 'F' then Some((c as int) - ('A' as int) + 10)
    else None
  }

  /** The lower-case digits that the source prints. */
  predicate PlainHex(c: char) {
    '0' <= c <= '9' || 'a' <= c <= 'f'
  }

  predicate AllHex(t: string) {
    forall i :: 0 <= i < |t| ==> PlainHex(t[i])
  }

  /** `format(n, "0wx")`: at least w digits, more when n needs them. */
  function FormatHex(n: nat, w: nat): (t: string)
    ensures AllHex(t) && t != []
  {
    if n < 16 && w <= 1 then [HexDigit(n)]
    else FormatHex(n / 16, if w == 0 then 0 else w - 1) + [HexDigit(n % 16)]
  }

  /** `bytes.hex()`. */
  function HexOfBytes(b: seq<byte>): (t: string)
    ensures |t| == 2 * |b| && AllHex(t)
  {
    if b == [] then []
    else HexOfBytes(b[..|b| - 1]) + [HexDigit(b[|b| - 1] / 16), HexDigit(b[|b| - 1] % 16)]
  }

  /** The number that hexadecimal digits denote. */
  function HexNumber(t: string): nat
    requires AllHex(t)
  {
    if t == [] then 0 else 16 * HexNumber(t[..|t| - 1]) + HexValue(t[|t| - 1]).value
  }

  lemma {:induction false} FormatHexWidth(n: nat, w: nat)
    requires 1 <= w && n < Pow(16, w)
    ensures |FormatHex(n, w)| == w
  {
    if !(n < 16 && w <= 1) {
      assert Pow(16, w) == 16 * Pow(16, w - 1);
      assert Pow(16, 0) == 1;
      FormatHexWidth(n / 16, w - 1);
    }
  }

  lemma {:induction false} FormatHexNumber(n: nat, w: nat)
    ensures HexNumber(FormatHex(n, w)) == n
  {
    var t := FormatHex(n, w);
    if n < 16 && w <= 1 {
      assert t[..0] == [];
    } else {
      FormatHexNumber(n / 16, if w == 0 then 0 else w - 1);
      assert t[..|t| - 1] == FormatHex(n / 16, if w == 0 then 0 else w - 1);
    }
  }

  lemma {:induction false} HexOfBytesNumber(b: seq<byte>)
    ensures HexNumber(HexOfBytes(b)) == FromBigEndian(b)
  {
    if b != [] {
      HexOfBytesNumber(b[..|b| - 1]);
      var t, init, last := HexOfBytes(b), HexOfBytes(b[..|b| - 1]), b[|b| - 1];
      assert t[..|t| - 1] == init + [HexDigit(last / 16)];
      assert (init + [HexDigit(last / 16)])[..|init|] == init;
      assert HexNumber(init + [HexDigit(last / 16)]) == 16 * HexNumber(init) + last / 16;
    }
  }

  lemma HexOfBytesInjective(a: seq<byte>, b: seq<byte>)
    requires HexOfBytes(a) == HexOfBytes(b)
    ensures a == b
  {
    HexOfBytesNumber(a);
    HexOfBytesNumber(b);
    BytesRoundTrip(a);
    BytesRoundTrip(b);
  }

  lemma {:induction false} HexOfBytesConcat(a: seq<byte>, b: seq<byte>)
    ensures HexOfBytes(a + b) == HexOfBytes(a) + HexOfBytes(b)
  {
    if b == [] {
      assert a + b == a;
    } else {
      var init, last := b[..|b| - 1], b[|b| - 1];
      HexOfBytesConcat(a, init);
      assert (a + b)[..|a + b| - 1] == a + init && (a + b)[|a + b| - 1] == last;
      hide HexDigit;
      var pair := [HexDigit(last / 16), HexDigit(last % 16)];
      assert HexOfBytes(b) == HexOfBytes(init) + pair;
      assert HexOfBytes(a) + HexOfBytes(init) + pair == HexOfBytes(a) + (HexOfBytes(init) + pair);
    }
  }

  // ----- Python's int(text, 16) -----

  predicate IsSpace(c: char) {
    c == ' ' || '\t' <= c <= '\r' || 28 <= c as int <= 31
  }

  function StripLeft(t: string): string {
    if t != [] && IsSpace(t[0]) then StripLeft(t[1..]) else t
  }

  function StripRight(t: string): string {
    if t != [] && IsSpace(t[|t| - 1]) then StripRight(t[..|t| - 1]) else t
  }

  /** Digits with single underscores between them. */
  function UnderscoredDigits(t: string): Option<nat> {
    if t == [] then None
    else
      match HexValue(t[|t| - 1])
      case None => None
      case Some(d) =>
        if |t| == 1 then Some(d)
        else
          var init := if t[|t| - 2] == '_' then t[..|t| - 2] else t[..|t| - 1];
          match UnderscoredDigits(init)
          case None => None
          case Some(n) => Some(16 * n + d)
  }

  function UnsignedBase16(t: string): Option<nat> {
    if |t| >= 2 && t[0] == '0' && (t[1] == 'x' || t[1] == 'X')
    then UnderscoredDigits(if |t| >= 3 && t[2] == '_' then t[3..] else t[2..])
    else UnderscoredDigits(t)
  }

  /** `int(text, 16)` on ASCII text: surrounding white space, a sign, a 0x prefix and single
      underscores are accepted; None stands for ValueError. */
  function IntBase16(text: string): Option<int> {
    var t := StripRight(StripLeft(text));
    if t != [] && t[0] == '-' then
      var u: Option<int> := UnsignedBase16(t[1..]);
      if u.None? then None else Some(-u.value)
    else UnsignedBase16(if t != [] && t[0] == '+' then t[1..] else t)
  }

  lemma {:induction false} PlainDigits(t: string)
    requires AllHex(t) && t != []
    ensures UnderscoredDigits(t) == Some(HexNumber(t))
  {
    if |t| == 1 {
      assert t[..0] == [];
    } else {
      PlainDigits(t[..|t| - 1]);
      assert PlainHex(t[|t| - 2]);
    }
  }

  /** Plain digits are read back as the number they denote. */
  lemma IntBase16OfHex(t: string)
    requires AllHex(t) && t != []
    ensures IntBase16(t) == Some(HexNumber(t))
  {
    assert PlainHex(t[0]) && PlainHex(t[|t| - 1]);
    assert |t| >= 2 ==> PlainHex(t[1]);
    PlainDigits(t);
  }

  /** What `format(n, "0wx")` prints, `int(text, 16)` reads back. */
  lemma HexRoundTrip(n: nat, w: nat)
    ensures IntBase16(FormatHex(n, w)) == Some(n)
  {
    FormatHexNumber(n, w);
    IntBase16OfHex(FormatHex(n, w));
  }
}
