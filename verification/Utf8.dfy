/** The strict UTF-8 encoding form (`String::into_bytes`, `std::str::from_utf8`). */
module Utf8 {
  import opened Bytes
  import opened Text

  /** A code point that is a Unicode scalar value. */
  predicate IsScalar(n: int) {
    0 <= n < 0xD800 || 0xE000 <= n < 0x11_0000
  }

  predicate IsContinuation(b: Byte) {
    0x80 <= b < 0xC0
  }

  function EncodeChar(c: char): (bs: seq<Byte>)
    ensures 1 <= |bs| <= 4
  {
    var n := c as int;
    if n < 0x80 then [n]
    else if n < 0x800 then [0xC0 + n / 64, 0x80 + n % 64]
    else if n < 0x1_0000 then [0xE0 + n / 4096, 0x80 + n / 64 % 64, 0x80 + n % 64]
    else [0xF0 + n / 262144, 0x80 + n / 4096 % 64, 0x80 + n / 64 % 64, 0x80 + n % 64]
  }

  function Encode(s: string): seq<Byte> {
    if s == [] then [] else EncodeChar(s[0]) + Encode(s[1..])
  }

  /** The leading character: its bytes must be its one shortest form. */
  function DecodeOne(bs: seq<Byte>): (r: Option<char>)
    requires bs != []
    ensures r.Some? ==> |EncodeChar(r.value)| <= |bs| && bs[..|EncodeChar(r.value)|] == EncodeChar(r.value)
  {
    if bs[0] < 0x80 then Some(bs[0] as char)
    else if bs[0] < 0xE0 then (if |bs| >= 2 then Decode2(bs[0], bs[1]) else None)
    else if bs[0] < 0xF0 then (if |bs| >= 3 then Decode3(bs[0], bs[1], bs[2]) else None)
    else (if |bs| >= 4 then Decode4(bs[0], bs[1], bs[2], bs[3]) else None)
  }

  function Decode2(a: Byte, b: Byte): (r: Option<char>)
    requires 0x80 <= a < 0xE0
    ensures r.Some? ==> EncodeChar(r.value) == [a, b]
  {
    var n: int := 64 * (a - 0xC0) + (b - 0x80);
    if n >= 0x80 && IsContinuation(b) then Some(n as char) else None
  }

  function Decode3(a: Byte, b: Byte, c: Byte): (r: Option<char>)
    requires 0xE0 <= a < 0xF0
    ensures r.Some? ==> EncodeChar(r.value) == [a, b, c]
  {
    var n: int := 4096 * (a - 0xE0) + 64 * (b - 0x80) + (c - 0x80);
    if n >= 0x800 && IsScalar(n) && IsContinuation(b) && IsContinuation(c) then
      assert EncodeChar(n as char) == [a, b, c] by { Quotients4(n, 0, a - 0xE0, b - 0x80, c - 0x80); }
      Some(n as char)
    else None
  }

  function Decode4(a: Byte, b: Byte, c: Byte, d: Byte): (r: Option<char>)
    requires 0xF0 <= a
    ensures r.Some? ==> EncodeChar(r.value) == [a, b, c, d]
  {
    var n: int := 262144 * (a - 0xF0) + 4096 * (b - 0x80) + 64 * (c - 0x80) + (d - 0x80);
    if n >= 0x1_0000 && IsScalar(n) && IsContinuation(b) && IsContinuation(c) && IsContinuation(d) then
      assert EncodeChar(n as char) == [a, b, c, d] by { Quotients4(n, a - 0xF0, b - 0x80, c - 0x80, d - 0x80); }
      Some(n as char)
    else None
  }

  lemma Quotients4(n: int, a: int, b: int, c: int, d: int)
    requires n == 262144 * a + 4096 * b + 64 * c + d
    requires 0 <= b < 64 && 0 <= c < 64 && 0 <= d < 64
    ensures n / 262144 == a && n / 4096 % 64 == b && n / 64 % 64 == c && n % 64 == d
  {
    DivModUnique(n, 262144, a, 4096 * b + 64 * c + d);
    DivModUnique(n, 4096, 64 * a + b, 64 * c + d);
    DivModUnique(n, 64, 4096 * a + 64 * b + c, d);
    DivModUnique(64 * a + b, 64, a, b);
    DivModUnique(4096 * a + 64 * b + c, 64, 64 * a + b, c);
  }

  function Decode(bs: seq<Byte>): Option<string>
    decreases |bs|
  {
    if bs == [] then Some("")
    else
      var head := DecodeOne(bs);
      if head.None? then None
      else
        var tail := Decode(bs[|EncodeChar(head.value)|..]);
        if tail.None? then None else Some([head.value] + tail.value)
  }

  lemma DecodeOneEncodes(c: char, rest: seq<Byte>)
    ensures DecodeOne(EncodeChar(c) + rest) == Some(c)
  {
    var n := c as int;
    var bs := EncodeChar(c);
    assert (bs + rest)[..|bs|] == bs;
    if 0x80 <= n < 0x800 {
      assert Decode2(bs[0], bs[1]) == Some(c);
    } else if 0x800 <= n < 0x1_0000 {
      Split3(n);
      assert Decode3(bs[0], bs[1], bs[2]) == Some(c);
    } else if 0x1_0000 <= n {
      Split4(n);
      assert Decode4(bs[0], bs[1], bs[2], bs[3]) == Some(c);
    }
  }

  lemma Split3(n: nat)
    ensures n == 4096 * (n / 4096) + 64 * (n / 64 % 64) + n % 64
  {
    var a := n / 64;
    DivModUnique(n, 4096, a / 64, 64 * (a % 64) + n % 64);
  }

  lemma Split4(n: nat)
    ensures n == 262144 * (n / 262144) + 4096 * (n / 4096 % 64) + 64 * (n / 64 % 64) + n % 64
  {
    Split3(n);
    var b := n / 4096;
    DivModUnique(n, 262144, b / 64, 4096 * (b % 64) + 64 * (n / 64 % 64) + n % 64);
  }

  /** The encoding form of RFC 3629, section 3: how many bytes, what marks them, and the number they spell. */
  lemma EncodingForm(c: char)
    ensures var n: int, bs: seq<int> := c as int, EncodeChar(c);
            && |bs| == (if n < 0x80 then 1 else if n < 0x800 then 2 else if n < 0x1_0000 then 3 else 4)
            && (forall i :: 1 <= i < |bs| ==> 0x80 <= bs[i] < 0xC0)
            && (|bs| == 1 ==> bs[0] == n)
            && (|bs| == 2 ==> 0xC0 <= bs[0] < 0xE0 && n == 64 * (bs[0] - 0xC0) + (bs[1] - 0x80))
            && (|bs| == 3 ==>
                  0xE0 <= bs[0] < 0xF0 && n == 4096 * (bs[0] - 0xE0) + 64 * (bs[1] - 0x80) + (bs[2] - 0x80))
            && (|bs| == 4 ==>
                  && 0xF0 <= bs[0] < 0xF8
                  && n == 262144 * (bs[0] - 0xF0) + 4096 * (bs[1] - 0x80) + 64 * (bs[2] - 0x80) + (bs[3] - 0x80))
  {
    Split3(c as int);
    Split4(c as int);
  }

  lemma {:induction false} RoundTrip(s: string)
    ensures Decode(Encode(s)) == Some(s)
  {
    if s != [] {
      DecodeOneEncodes(s[0], Encode(s[1..]));
      assert Encode(s)[|EncodeChar(s[0])|..] == Encode(s[1..]);
      RoundTrip(s[1..]);
      assert s == [s[0]] + s[1..];
    }
  }

  lemma EncodeCons(c: char, s: string)
    ensures Encode([c] + s) == EncodeChar(c) + Encode(s)
  {
    assert ([c] + s)[1..] == s;
  }

  /** One step of decoding, seen from the encoder. */
  lemma DecodeStep(bs: seq<Byte>) returns (c: char, rest: seq<Byte>)
    requires bs != [] && Decode(bs).Some?
    ensures |rest| < |bs| && Decode(rest).Some? && Decode(bs).value == [c] + Decode(rest).value
    ensures Encode(Decode(bs).value) == bs[..|bs| - |rest|] + Encode(Decode(rest).value)
    ensures rest == bs[|bs| - |rest|..]
  {
    c := DecodeOne(bs).value;
    rest := bs[|EncodeChar(c)|..];
    EncodeCons(c, Decode(rest).value);
  }

  lemma {:induction false} Canonical(bs: seq<Byte>)
    requires Decode(bs).Some?
    ensures Encode(Decode(bs).value) == bs
    decreases |bs|
  {
    if bs != [] {
      var c, rest := DecodeStep(bs);
      Canonical(rest);
    }
  }

  /** A byte string decodes to `s` exactly when it is the encoding of `s`. */
  lemma DecodeIff(bs: seq<Byte>, s: string)
    ensures Decode(bs) == Some(s) <==> bs == Encode(s)
  {
    RoundTrip(s);
    if Decode(bs).Some? { Canonical(bs); }
  }
}
