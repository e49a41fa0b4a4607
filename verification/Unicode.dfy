/** Text encodings. A Dafny `char` is a Unicode scalar value, so lone surrogates do not occur. */
module Unicode {
  import opened Prelude

  type byte = x: int | 0 <= x < 256

  function CodePoints(s: string): seq<int> {
    seq(|s|, i requires 0 <= i < |s| => s[i] as int)
  }

  lemma CodePointsInjective(x: string, y: string)
    requires CodePoints(x) == CodePoints(y)
    ensures x == y
  {
    assert |CodePoints(x)| == |x| && |CodePoints(y)| == |y|;
    forall i | 0 <= i < |x| ensures x[i] == y[i] {
      assert CodePoints(x)[i] == x[i] as int;
      assert CodePoints(y)[i] == y[i] as int;
    }
  }

  /** The UTF-16 code units of one scalar value. */
  function Units(c: char): (u: seq<int>)
    ensures 1 <= |u| <= 2
    ensures forall i :: 0 <= i < |u| ==> 0 <= u[i] < 0x1_0000
  {
    var n := c as int;
    if n < 0x1_0000 then [n]
    else [0xD800 + (n - 0x1_0000) / 0x400, 0xDC00 + (n - 0x1_0000) % 0x400]
  }

  /** Up to U+FFFF the unit is the scalar value; beyond, a high and a low surrogate hold its ten upper and ten
      lower bits. */
  lemma UnitsAre(c: char)
    ensures c as int < 0x1_0000 ==> Units(c) == [c as int]
    ensures c as int >= 0x1_0000 ==>
      |Units(c)| == 2 && 0xD800 <= Units(c)[0] < 0xDC00 <= Units(c)[1] < 0xE000 &&
      c as int == 0x1_0000 + (Units(c)[0] - 0xD800) * 0x400 + (Units(c)[1] - 0xDC00)
  {
  }

  function Utf16Units(s: string): (u: seq<int>)
    ensures forall i :: 0 <= i < |u| ==> 0 <= u[i] < 0x1_0000
  {
    if s == "" then [] else Units(s[0]) + Utf16Units(s[1..])
  }

  function BigEndian(u: seq<int>): seq<int> {
    if u == [] then [] else [u[0] / 256, u[0] % 256] + BigEndian(u[1..])
  }

  /** `value.encode("utf-16be")`. */
  function Utf16Bytes(s: string): seq<int> {
    BigEndian(Utf16Units(s))
  }

  lemma {:induction false} BigEndianInjective(u: seq<int>, v: seq<int>)
    requires BigEndian(u) == BigEndian(v)
    ensures u == v
  {
    if u != [] && v != [] {
      var a, b := BigEndian(u), BigEndian(v);
      assert a[0] == u[0] / 256 && a[1] == u[0] % 256 && a[2..] == BigEndian(u[1..]);
      assert b[0] == v[0] / 256 && b[1] == v[0] % 256 && b[2..] == BigEndian(v[1..]);
      BigEndianInjective(u[1..], v[1..]);
      assert u == [u[0]] + u[1..] && v == [v[0]] + v[1..];
    }
  }

  lemma {:induction false} Utf16UnitsInjective(x: string, y: string)
    requires Utf16Units(x) == Utf16Units(y)
    ensures x == y
  {
    if x != "" && y != "" {
      var a, b := Units(x[0]), Units(y[0]);
      assert Utf16Units(x)[..|a|] == a && Utf16Units(x)[|a|..] == Utf16Units(x[1..]);
      assert Utf16Units(y)[..|b|] == b && Utf16Units(y)[|b|..] == Utf16Units(y[1..]);
      assert a[0] == b[0];
      assert |a| == |b|;
      if |a| == 2 {
        assert a[1] == Utf16Units(x)[1] == b[1];
      }
      assert x[0] as int == y[0] as int;
      Utf16UnitsInjective(x[1..], y[1..]);
      assert x == [x[0]] + x[1..] && y == [y[0]] + y[1..];
    }
  }

  lemma Utf16BytesInjective(x: string, y: string)
    requires Utf16Bytes(x) == Utf16Bytes(y)
    ensures x == y
  {
    BigEndianInjective(Utf16Units(x), Utf16Units(y));
    Utf16UnitsInjective(x, y);
  }

  /** UTF-8 of one scalar value. */
  function Utf8Char(c: char): (b: seq<byte>)
    ensures 1 <= |b| <= 4
  {
    var n := c as int;
    if n < 0x80 then [n]
    else if n < 0x800 then [0xC0 + n / 0x40, 0x80 + n % 0x40]
    else if n < 0x1_0000 then [0xE0 + n / 0x1000, 0x80 + n / 0x40 % 0x40, 0x80 + n % 0x40]
    else [0xF0 + n / 0x4_0000, 0x80 + n / 0x1000 % 0x40, 0x80 + n / 0x40 % 0x40, 0x80 + n % 0x40]
  }

  /** `text.encode("utf-8")`. */
  function Utf8(s: string): seq<byte> {
    if s == "" then [] else Utf8Char(s[0]) + Utf8(s[1..])
  }

  function ScalarOf(n: int): Option<char> {
    if 0 <= n < 0xD800 || 0xE000 <= n < 0x11_0000 then Some(n as char) else None
  }

  /** The low six bits of a continuation byte. */
  function Continuation(b: byte): Option<nat> {
    if 0x80 <= b < 0xC0 then Some((b as int) - 0x80) else None
  }

  /** The number of bytes a lead byte announces; 0 for a byte that cannot lead. */
  function Utf8Width(lead: byte): (w: nat)
    ensures w <= 4
  {
    if lead < 0x80 then 1
    else if lead < 0xC0 then 0
    else if lead < 0xE0 then 2
    else if lead < 0xF0 then 3
    else if lead < 0xF8 then 4
    else 0
  }

  /** The number in the lead byte and in the continuation bytes after it. */
  function Utf8Number(b: seq<byte>, width: nat): Option<nat>
    requires 1 <= width <= |b| && width == Utf8Width(b[0])
  {
    if width == 1 then Some(b[0] as int)
    else
      var x := Continuation(b[1]);
      if x.None? then None
      else if width == 2 then Some(((b[0] as int) - 0xC0) * 0x40 + x.value)
      else
        var y := Continuation(b[2]);
        if y.None? then None
        else if width == 3 then Some(((b[0] as int) - 0xE0) * 0x1000 + x.value * 0x40 + y.value)
        else
          var z := Continuation(b[3]);
          if z.None? then None
          else Some(((b[0] as int) - 0xF0) * 0x4_0000 + x.value * 0x1000 + y.value * 0x40 + z.value)
  }

  /** The least number that needs this many bytes: RFC 3629 section 3 forbids longer forms. */
  function LeastOfWidth(width: nat): nat {
    if width <= 1 then 0 else if width == 2 then 0x80 else if width == 3 then 0x800 else 0x1_0000
  }

  /** Reads one scalar value off the front; returns it with the number of bytes read. */
  function Utf8Head(b: seq<byte>): (r: Option<(char, nat)>)
    ensures r.Some? ==> 1 <= r.value.1 <= |b|
  {
    if |b| == 0 then None
    else
      var width := Utf8Width(b[0]);
      if width == 0 || |b| < width then None
      else
        var n := Utf8Number(b, width);
        if n.None? || n.value < LeastOfWidth(width) then None
        else
          var c := ScalarOf(n.value);
          if c.Some? then Some((c.value, width)) else None
  }

  function Utf8Decode(b: seq<byte>): Option<string> {
    if b == [] then Some("")
    else
      var head := Utf8Head(b);
      if head.None? then None
      else
        var tail := Utf8Decode(b[head.value.1..]);
        if tail.None? then None else Some([head.value.0] + tail.value)
  }

  lemma Utf8HeadOfChar(c: char, rest: seq<byte>)
    ensures Utf8Head(Utf8Char(c) + rest) == Some((c, |Utf8Char(c)|))
  {
    var n := c as int;
    var b := Utf8Char(c) + rest;
    assert forall i :: 0 <= i < |Utf8Char(c)| ==> b[i] == Utf8Char(c)[i];
    assert ScalarOf(n) == Some(c);
    if n < 0x80 {
    } else if n < 0x800 {
      assert n == n / 0x40 * 0x40 + n % 0x40;
    } else if n < 0x1_0000 {
      assert n / 0x1000 == n / 0x40 / 0x40;
      assert n == n / 0x40 * 0x40 + n % 0x40;
    } else {
      assert n / 0x1000 == n / 0x40 / 0x40;
      assert n / 0x4_0000 == n / 0x1000 / 0x40;
    }
  }

  lemma TwoDigits(n: nat, a: nat, x: nat)
    requires n == a * 0x40 + x && x < 0x40
    ensures n / 0x40 == a && n % 0x40 == x
  {
  }

  lemma ThreeDigits(n: nat, a: nat, x: nat, y: nat)
    requires n == a * 0x1000 + x * 0x40 + y && x < 0x40 && y < 0x40
    ensures n / 0x1000 == a && n / 0x40 % 0x40 == x && n % 0x40 == y
  {
    TwoDigits(n, a * 0x40 + x, y);
    TwoDigits(n / 0x40, a, x);
    assert n / 0x1000 == n / 0x40 / 0x40;
  }

  lemma FourDigits(n: nat, a: nat, x: nat, y: nat, z: nat)
    requires n == a * 0x4_0000 + x * 0x1000 + y * 0x40 + z && x < 0x40 && y < 0x40 && z < 0x40
    ensures n / 0x4_0000 == a && n / 0x1000 % 0x40 == x && n / 0x40 % 0x40 == y && n % 0x40 == z
  {
    ThreeDigits(n, a * 0x40 + x, y, z);
    TwoDigits(n / 0x1000, a, x);
    assert n / 0x4_0000 == n / 0x1000 / 0x40;
  }

  lemma Utf8CharOfHead(b: seq<byte>)
    requires Utf8Head(b).Some?
    ensures Utf8Char(Utf8Head(b).value.0) == b[..Utf8Head(b).value.1]
  {
    var (c, width) := Utf8Head(b).value;
    var lead := b[0] as int;
    if width == 2 {
      TwoDigits(c as int, lead - 0xC0, Continuation(b[1]).value);
    } else if width == 3 {
      ThreeDigits(c as int, lead - 0xE0, Continuation(b[1]).value, Continuation(b[2]).value);
    } else if width == 4 {
      FourDigits(c as int, lead - 0xF0, Continuation(b[1]).value, Continuation(b[2]).value, Continuation(b[3]).value);
    }
  }

  /** Only the encoding of a text decodes to it: the decoder takes no overlong or stray bytes. */
  lemma {:induction false} Utf8OfDecoded(b: seq<byte>)
    requires Utf8Decode(b).Some?
    ensures Utf8(Utf8Decode(b).value) == b
  {
    hide Utf8Head, Utf8Char;
    if b != [] {
      var (c, width) := Utf8Head(b).value;
      Utf8CharOfHead(b);
      Utf8OfDecoded(b[width..]);
      var s := Utf8Decode(b).value;
      assert s[0] == c && s[1..] == Utf8Decode(b[width..]).value;
      assert b == b[..width] + b[width..];
    }
  }

  /** Decoding inverts encoding, so UTF-8 loses nothing. */
  lemma {:induction false} Utf8RoundTrip(s: string)
    ensures Utf8Decode(Utf8(s)) == Some(s)
  {
    if s != "" {
      var w := Utf8Char(s[0]);
      Utf8HeadOfChar(s[0], Utf8(s[1..]));
      assert Utf8(s)[|w|..] == Utf8(s[1..]);
      Utf8RoundTrip(s[1..]);
      assert s == [s[0]] + s[1..];
    }
  }
}
