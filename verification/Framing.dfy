/** The length-prefixed framing that requests are hashed through. A SHA-256 digest
    is taken to determine its input, so a hash is the framed bytes themselves. */
module Framing {
  import opened Refs

  type Byte = b: int | 0 <= b < 256
  type Bytes = seq<Byte>

  const Radix64 := 0x1_0000_0000_0000_0000

  /** The `n` low-order bytes of `v`, most significant first. */
  function BigEndian(v: nat, n: nat): (r: Bytes)
    ensures |r| == n
  {
    if n == 0 then [] else BigEndian(v / 256, n - 1) + [v % 256]
  }

  function Power(n: nat): nat {
    if n == 0 then 1 else 256 * Power(n - 1)
  }

  lemma {:induction false} BigEndianInjective(v: nat, w: nat, n: nat)
    requires BigEndian(v, n) == BigEndian(w, n) && v < Power(n) && w < Power(n)
    ensures v == w
    decreases n
  {
    if n > 0 {
      var a, b := BigEndian(v, n), BigEndian(w, n);
      assert a[n - 1] == v % 256 && b[n - 1] == w % 256;
      assert a[..n - 1] == BigEndian(v / 256, n - 1) && b[..n - 1] == BigEndian(w / 256, n - 1);
      BigEndianInjective(v / 256, w / 256, n - 1);
    }
  }

  /** binary.BigEndian.PutUint64(length, uint64(len(field))), then the field. */
  function Frame(fields: seq<Bytes>): Bytes {
    if fields == [] then [] else LengthPrefix(|fields[0]|) + fields[0] + Frame(fields[1..])
  }

  function LengthPrefix(n: nat): (r: Bytes)
    ensures |r| == 8
  {
    BigEndian(n, 8)
  }

  lemma LengthPrefixInjective(m: nat, n: nat)
    requires m < Radix64 && n < Radix64 && LengthPrefix(m) == LengthPrefix(n)
    ensures m == n
  {
    PowerEight();
    BigEndianInjective(m, n, 8);
  }

  predicate Addressable(fields: seq<Bytes>) {
    forall i :: 0 <= i < |fields| ==> |fields[i]| < Radix64
  }

  lemma PowerEight()
    ensures Power(8) == Radix64
  {
    assert Power(2) == 256 * Power(1) == 0x1_0000;
    assert Power(4) == 256 * Power(3) && Power(3) == 256 * Power(2);
    assert Power(6) == 256 * Power(5) && Power(5) == 256 * Power(4);
    assert Power(8) == 256 * Power(7) && Power(7) == 256 * Power(6);
  }

  lemma HeadsAgree(x: Bytes, a: Bytes, y: Bytes, b: Bytes)
    requires |x| == |y| && x + a == y + b
    ensures x == y && a == b
  {
    assert x == (x + a)[..|x|] && y == (y + b)[..|y|];
    assert a == (x + a)[|x|..] && b == (y + b)[|y|..];
  }

  /** The framing is injective on field lists. */
  lemma {:induction false} FrameInjective(f: seq<Bytes>, g: seq<Bytes>)
    requires Addressable(f) && Addressable(g) && Frame(f) == Frame(g)
    ensures f == g
    decreases |f|
  {
    if f != [] && g != [] {
      FirstFieldsAgree(f[0], Frame(f[1..]), g[0], Frame(g[1..]));
      FrameInjective(f[1..], g[1..]);
      assert f == [f[0]] + f[1..] && g == [g[0]] + g[1..];
    } else {
      FrameEmpty(f);
      FrameEmpty(g);
    }
  }

  lemma FirstFieldsAgree(x: Bytes, a: Bytes, y: Bytes, b: Bytes)
    requires |x| < Radix64 && |y| < Radix64 && LengthPrefix(|x|) + x + a == LengthPrefix(|y|) + y + b
    ensures x == y && a == b
  {
    assert LengthPrefix(|x|) + x + a == LengthPrefix(|x|) + (x + a);
    assert LengthPrefix(|y|) + y + b == LengthPrefix(|y|) + (y + b);
    HeadsAgree(LengthPrefix(|x|), x + a, LengthPrefix(|y|), y + b);
    LengthPrefixInjective(|x|, |y|);
    HeadsAgree(x, a, y, b);
  }

  lemma FrameEmpty(f: seq<Bytes>)
    ensures Frame(f) == [] <==> f == []
  {
    if f != [] {
      assert |Frame(f)| >= 8;
    }
  }

  lemma {:induction false} FrameSnoc(f: seq<Bytes>, x: Bytes)
    ensures Frame(f + [x]) == Frame(f) + LengthPrefix(|x|) + x
  {
    if f == [] {
      assert f + [x] == [x] && [x][1..] == [];
      assert Frame([x]) == LengthPrefix(|x|) + x + Frame([]);
    } else {
      FrameSnoc(f[1..], x);
      assert (f + [x])[0] == f[0] && (f + [x])[1..] == f[1..] + [x];
    }
  }

  /** hashFields: each field is written to the running hash after its length. */
  method HashFields(fields: seq<Bytes>) returns (written: Bytes)
    ensures written == Frame(fields)
  {
    written := [];
    for i := 0 to |fields|
      invariant written == Frame(fields[..i])
    {
      FrameSnoc(fields[..i], fields[i]);
      assert fields[..i + 1] == fields[..i] + [fields[i]];
      written := written + LengthPrefix(|fields[i]|);
      written := written + fields[i];
    }
    assert fields[..|fields|] == fields;
  }

  /* ---- UTF-8 ---- */

  function EncodeChar(c: char): (r: Bytes)
    ensures |r| == CharBytes(c)
  {
    var u := c as int;
    if u < 0x80 then [u]
    else if u < 0x800 then [0xC0 + u / 64, 0x80 + u % 64]
    else if u < 0x10000 then [0xE0 + u / 4096, 0x80 + u / 64 % 64, 0x80 + u % 64]
    else [0xF0 + u / 262144, 0x80 + u / 4096 % 64, 0x80 + u / 64 % 64, 0x80 + u % 64]
  }

  /** The bytes of a string. */
  function Encode(s: string): (r: Bytes)
    ensures |r| == ByteLength(s)
  {
    if s == "" then [] else EncodeChar(s[0]) + Encode(s[1..])
  }

  /** The first byte tells how many bytes a character takes. */
  function Width(b: Byte): nat {
    if b < 0xC0 then 1 else if b < 0xE0 then 2 else if b < 0xF0 then 3 else 4
  }

  lemma WidthIsLength(c: char)
    ensures EncodeChar(c) != [] && Width(EncodeChar(c)[0]) == |EncodeChar(c)|
  {
  }

  lemma CharInjective(c: char, d: char)
    requires EncodeChar(c) == EncodeChar(d)
    ensures c == d
  {
    var x, y := EncodeChar(c), EncodeChar(d);
    WidthIsLength(c);
    WidthIsLength(d);
    var u, v := c as int, d as int;
    if |x| == 1 {
      assert u == x[0] && v == y[0];
    } else if |x| == 2 {
      assert x[0] == 0xC0 + u / 64 && y[0] == 0xC0 + v / 64 && x[1] == 0x80 + u % 64 && y[1] == 0x80 + v % 64;
    } else if |x| == 3 {
      ThreeBytes(c, d);
    } else {
      FourBytes(c, d);
    }
  }

  lemma ThreeBytes(c: char, d: char)
    requires EncodeChar(c) == EncodeChar(d) && |EncodeChar(c)| == 3
    ensures c == d
  {
    var x, y, u, v := EncodeChar(c), EncodeChar(d), c as int, d as int;
    assert x[0] == 0xE0 + u / 4096 && y[0] == 0xE0 + v / 4096;
    assert x[1] == 0x80 + u / 64 % 64 && y[1] == 0x80 + v / 64 % 64 && x[2] == 0x80 + u % 64 && y[2] == 0x80 + v % 64;
    DigitsAgree(u / 64, v / 64, 64);
    DigitsAgree(u, v, 64);
  }

  lemma FourBytes(c: char, d: char)
    requires EncodeChar(c) == EncodeChar(d) && |EncodeChar(c)| == 4
    ensures c == d
  {
    var x, y, u, v := EncodeChar(c), EncodeChar(d), c as int, d as int;
    assert x[0] == 0xF0 + u / 262144 && y[0] == 0xF0 + v / 262144;
    assert x[1] == 0x80 + u / 4096 % 64 && y[1] == 0x80 + v / 4096 % 64;
    assert x[2] == 0x80 + u / 64 % 64 && y[2] == 0x80 + v / 64 % 64 && x[3] == 0x80 + u % 64 && y[3] == 0x80 + v % 64;
    FourDigitsAgree(u, v);
  }

  lemma FourDigitsAgree(u: nat, v: nat)
    requires u / 262144 == v / 262144 && u / 4096 % 64 == v / 4096 % 64 && u / 64 % 64 == v / 64 % 64 && u % 64 == v % 64
    ensures u == v
  {
    assert u / 4096 / 64 == u / 262144 && v / 4096 / 64 == v / 262144;
    DigitsAgree(u / 4096, v / 4096, 64);
    assert u / 64 / 64 == u / 4096 && v / 64 / 64 == v / 4096;
    DigitsAgree(u / 64, v / 64, 64);
    DigitsAgree(u, v, 64);
  }

  lemma DigitsAgree(u: nat, v: nat, base: nat)
    requires base > 0 && u / base == v / base && u % base == v % base
    ensures u == v
  {
  }

  lemma {:induction false} EncodeInjective(s: string, t: string)
    requires Encode(s) == Encode(t)
    ensures s == t
    decreases |s|
  {
    if s != "" && t != "" {
      WidthIsLength(s[0]);
      WidthIsLength(t[0]);
      assert Encode(s)[0] == EncodeChar(s[0])[0] && Encode(t)[0] == EncodeChar(t[0])[0];
      HeadsAgree(EncodeChar(s[0]), Encode(s[1..]), EncodeChar(t[0]), Encode(t[1..]));
      CharInjective(s[0], t[0]);
      EncodeInjective(s[1..], t[1..]);
      assert s == [s[0]] + s[1..] && t == [t[0]] + t[1..];
    } else {
      EncodeEmpty(s);
      EncodeEmpty(t);
    }
  }

  lemma EncodeEmpty(s: string)
    ensures Encode(s) == [] <==> s == ""
  {
    if s != "" {
      assert |EncodeChar(s[0])| >= 1;
    }
  }

  /* ---- hashing strings ---- */

  function EncodeAll(fields: seq<string>): (r: seq<Bytes>)
    ensures |r| == |fields|
    ensures forall i :: 0 <= i < |fields| ==> r[i] == Encode(fields[i])
  {
    seq(|fields|, i requires 0 <= i < |fields| => Encode(fields[i]))
  }

  function Hash(fields: seq<string>): Bytes {
    Frame(EncodeAll(fields))
  }

  /** Every field fits in memory. */
  predicate Storable(fields: seq<string>) {
    forall i :: 0 <= i < |fields| ==> ByteLength(fields[i]) < Radix64
  }

  /** Two field lists have one hash exactly when they are equal. */
  lemma HashDecides(f: seq<string>, g: seq<string>)
    requires Storable(f) && Storable(g)
    ensures Hash(f) == Hash(g) <==> f == g
  {
    if Hash(f) == Hash(g) {
      FrameInjective(EncodeAll(f), EncodeAll(g));
      forall i | 0 <= i < |f| ensures f[i] == g[i] {
        assert EncodeAll(f)[i] == EncodeAll(g)[i];
        EncodeInjective(f[i], g[i]);
      }
    }
  }
}
