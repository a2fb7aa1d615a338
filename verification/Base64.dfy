/** Standard padded base64 (section 4 of RFC 4648): the module's encoder and the consumers' strict decoder. */
module Base64 {
  import opened Bytes
  import opened Text

  type Sextet = x: int | 0 <= x < 64

  /** The alphabet `A-Z a-z 0-9 + /`. */
  function Letter(x: Sextet): char {
    if x < 26 then ('A' as int + x) as char
    else if x < 52 then ('a' as int + (x - 26)) as char
    else if x < 62 then ('0' as int + (x - 52)) as char
    else if x == 62 then '+'
    else '/'
  }

  function LetterValue(c: char): (r: Option<Sextet>)
    ensures r.Some? ==> Letter(r.value) == c
  {
    if 'A' <= c <= 'Z' then Some(c as int - 'A' as int)
    else if 'a' <= c <= 'z' then Some(c as int - 'a' as int + 26)
    else if '0' <= c <= '9' then Some(c as int - '0' as int + 52)
    else if c == '+' then Some(62)
    else if c == '/' then Some(63)
    else None
  }

  lemma LetterInverse(x: Sextet)
    ensures LetterValue(Letter(x)) == Some(x)
    ensures Letter(x) != '='
  {
  }

  /** `(b0 << 16) | (b1 << 8) | b2`: the three bytes side by side. */
  function Bits(b0: Byte, b1: Byte, b2: Byte): (n: nat) {
    65536 * b0 + 256 * b1 + b2
  }

  /** One group: three bytes, or the last one or two bytes with their padding. */
  function Group(chunk: seq<Byte>): (t: string)
    requires 1 <= |chunk| <= 3
    ensures |t| == 4
  {
    var n := Bits(chunk[0], if |chunk| > 1 then chunk[1] else 0, if |chunk| > 2 then chunk[2] else 0);
    [Letter(n / 262144 % 64), Letter(n / 4096 % 64),
     if |chunk| > 1 then Letter(n / 64 % 64) else '=',
     if |chunk| > 2 then Letter(n % 64) else '=']
  }

  function Encode(bytes: seq<Byte>): string
    decreases |bytes|
  {
    if bytes == [] then ""
    else if |bytes| <= 3 then Group(bytes)
    else Group(bytes[..3]) + Encode(bytes[3..])
  }

  /** How many bytes a group stands for: padding may only close the last group. */
  function Held(t: string, last: bool): (n: nat)
    requires |t| == 4
    ensures 1 <= n <= 3 && (!last ==> n == 3)
  {
    if last && t[2] == '=' && t[3] == '=' then 1 else if last && t[3] == '=' then 2 else 3
  }

  function Pack(a: Sextet, b: Sextet, c: Sextet, d: Sextet): (bytes: seq<Byte>)
    ensures |bytes| == 3
  {
    [a * 4 + b / 16, b % 16 * 16 + c / 4, c % 4 * 64 + d]
  }

  /** The strict inverse of `Group`: the bits a short group does not use must be zero. */
  function Ungroup(t: string, last: bool): (r: Option<seq<Byte>>)
    requires |t| == 4
    ensures r.Some? ==> 1 <= |r.value| <= 3 && (!last ==> |r.value| == 3)
  {
    var n := Held(t, last);
    var a, b := LetterValue(t[0]), LetterValue(t[1]);
    var c := if n > 1 then LetterValue(t[2]) else Some(0);
    var d := if n > 2 then LetterValue(t[3]) else Some(0);
    if a.None? || b.None? || c.None? || d.None? then None
    else if (n == 1 && b.value % 16 != 0) || (n == 2 && c.value % 4 != 0) then None
    else Some(Pack(a.value, b.value, c.value, d.value)[..n])
  }

  function Decode(t: string): Option<seq<Byte>>
    decreases |t|
  {
    if t == "" then Some([])
    else if |t| < 4 then None
    else
      var head, tail := Ungroup(t[..4], |t| == 4), Decode(t[4..]);
      if head.None? || tail.None? then None else Some(head.value + tail.value)
  }

  /** Four sextets side by side can be read back. */
  lemma Resplit(a: Sextet, b: Sextet, c: Sextet, d: Sextet)
    ensures var n: int := 262144 * a + 4096 * b + 64 * c + d;
            && n / 262144 % 64 == a && n / 4096 % 64 == b && n / 64 % 64 == c && n % 64 == d
  {
    var n: int := 262144 * a + 4096 * b + 64 * c + d;
    DivModUnique(n, 262144, a, 4096 * b + 64 * c + d);
    DivModUnique(n, 4096, 64 * a + b, 64 * c + d);
    DivModUnique(n, 64, 4096 * a + 64 * b + c, d);
    DivModUnique(64 * a + b, 64, a, b);
    DivModUnique(4096 * a + 64 * b + c, 64, 64 * a + b, c);
  }

  lemma Sextets(b0: Byte, b1: Byte, b2: Byte)
    ensures var n := Bits(b0, b1, b2);
            && n / 262144 % 64 == b0 / 4
            && n / 4096 % 64 == b0 % 4 * 16 + b1 / 16
            && n / 64 % 64 == b1 % 16 * 4 + b2 / 64
            && n % 64 == b2 % 64
  {
    var n: int := Bits(b0, b1, b2);
    var x: int, y: int := b0 / 4, b0 % 4 * 16 + b1 / 16;
    var z: int, w: int := b1 % 16 * 4 + b2 / 64, b2 % 64;
    assert b0 == 4 * (b0 / 4) + b0 % 4 && b1 == 16 * (b1 / 16) + b1 % 16 && b2 == 64 * (b2 / 64) + b2 % 64;
    assert n == 262144 * x + 4096 * y + 64 * z + w;
    Resplit(x, y, z, w);
  }

  lemma UngroupLetters(x: Sextet, y: Sextet, z: Sextet, w: Sextet, n: nat, last: bool)
    requires 1 <= n <= 3 && (!last ==> n == 3)
    requires n == 1 ==> y % 16 == 0 && z == 0
    requires n == 2 ==> z % 4 == 0
    requires n <= 2 ==> w == 0
    ensures Ungroup([Letter(x), Letter(y), if n > 1 then Letter(z) else '=', if n > 2 then Letter(w) else '='], last)
         == Some(Pack(x, y, z, w)[..n])
  {
    LetterInverse(x);
    LetterInverse(y);
    LetterInverse(z);
    LetterInverse(w);
  }

  lemma PackSextets(b0: Byte, b1: Byte, b2: Byte)
    ensures Pack(b0 / 4, b0 % 4 * 16 + b1 / 16, b1 % 16 * 4 + b2 / 64, b2 % 64) == [b0, b1, b2]
  {
    DivModUnique(b0 % 4 * 16 + b1 / 16, 16, b0 % 4, b1 / 16);
    DivModUnique(b1 % 16 * 4 + b2 / 64, 4, b1 % 16, b2 / 64);
  }

  lemma UngroupGroup(chunk: seq<Byte>, last: bool)
    requires 1 <= |chunk| <= 3 && (!last ==> |chunk| == 3)
    ensures Ungroup(Group(chunk), last) == Some(chunk)
  {
    var b0, b1, b2 := chunk[0], if |chunk| > 1 then chunk[1] else 0, if |chunk| > 2 then chunk[2] else 0;
    Sextets(b0, b1, b2);
    PackSextets(b0, b1, b2);
    UngroupLetters(b0 / 4, b0 % 4 * 16 + b1 / 16, b1 % 16 * 4 + b2 / 64, b2 % 64, |chunk|, last);
    assert chunk == [b0, b1, b2][..|chunk|];
  }

  lemma PackBits(a: Sextet, b: Sextet, c: Sextet, d: Sextet)
    ensures var p := Pack(a, b, c, d); Bits(p[0], p[1], p[2]) == 262144 * a + 4096 * b + 64 * c + d
    ensures c % 4 == 0 && d == 0 ==> Pack(a, b, c, d)[2] == 0
    ensures b % 16 == 0 && c == 0 && d == 0 ==> Pack(a, b, c, d)[1] == 0 && Pack(a, b, c, d)[2] == 0
  {
  }

  lemma GroupUngroup(t: string, last: bool)
    requires |t| == 4 && Ungroup(t, last).Some?
    ensures Group(Ungroup(t, last).value) == t
  {
    var n := Held(t, last);
    var a, b := LetterValue(t[0]).value, LetterValue(t[1]).value;
    var c := if n > 1 then LetterValue(t[2]).value else 0;
    var d := if n > 2 then LetterValue(t[3]).value else 0;
    Resplit(a, b, c, d);
    PackBits(a, b, c, d);
  }

  /** The alphabet of RFC 4648, Table 1: where its four stretches begin and end, and that each is consecutive. */
  lemma Alphabet(x: Sextet)
    ensures Letter(0) == 'A' && Letter(25) == 'Z' && Letter(26) == 'a' && Letter(51) == 'z'
    ensures Letter(52) == '0' && Letter(61) == '9' && Letter(62) == '+' && Letter(63) == '/'
    ensures x < 61 && x != 25 && x != 51 ==> Letter(x + 1) as int == Letter(x) as int + 1
  {
  }

  /** What a letter stands for in a group; padding counts as nothing. */
  function SextetOf(c: char): int {
    var v := LetterValue(c);
    if v.Some? then v.value else 0
  }

  /** The letters of a group spell its bytes, six bits each from the left, with padding for what is missing. */
  lemma GroupSpells(chunk: seq<Byte>)
    requires 1 <= |chunk| <= 3
    ensures var t := Group(chunk);
            var bytes: seq<int> := chunk;
            && t[0] != '=' && t[1] != '=' && (t[2] == '=' <==> |bytes| == 1) && (t[3] == '=' <==> |bytes| <= 2)
            && 262144 * SextetOf(t[0]) + 4096 * SextetOf(t[1]) + 64 * SextetOf(t[2]) + SextetOf(t[3])
               == 65536 * bytes[0] + (if |bytes| > 1 then 256 * bytes[1] else 0) + (if |bytes| > 2 then bytes[2] else 0)
  {
    var b0, b1, b2 := chunk[0], if |chunk| > 1 then chunk[1] else 0, if |chunk| > 2 then chunk[2] else 0;
    Sextets(b0, b1, b2);
    Spells(b0, b1, b2);
    LetterInverse(b0 / 4);
    LetterInverse(b0 % 4 * 16 + b1 / 16);
    LetterInverse(b1 % 16 * 4 + b2 / 64);
    LetterInverse(b2 % 64);
  }

  lemma Spells(b0: Byte, b1: Byte, b2: Byte)
    ensures 262144 * (b0 / 4) + 4096 * (b0 % 4 * 16 + b1 / 16) + 64 * (b1 % 16 * 4 + b2 / 64) + b2 % 64
         == 65536 * b0 + 256 * b1 + b2
  {
  }

  /** Text decodes to `bytes` exactly when it is the encoding of `bytes`: one spelling per byte string. */
  lemma {:induction false} DecodeIff(t: string, bytes: seq<Byte>)
    ensures Decode(t) == Some(bytes) <==> t == Encode(bytes)
    decreases |t|, |bytes|
  {
    if t == Encode(bytes) && bytes != [] {
      if |bytes| <= 3 {
        UngroupGroup(bytes, true);
        assert t[..4] == t && t[4..] == "";
        assert bytes + [] == bytes;
      } else {
        UngroupGroup(bytes[..3], false);
        assert t[..4] == Group(bytes[..3]) && t[4..] == Encode(bytes[3..]);
        DecodeIff(t[4..], bytes[3..]);
        assert bytes == bytes[..3] + bytes[3..];
      }
    }
    if Decode(t) == Some(bytes) && t != "" {
      var head := Ungroup(t[..4], |t| == 4).value;
      GroupUngroup(t[..4], |t| == 4);
      DecodeIff(t[4..], Decode(t[4..]).value);
      assert t == t[..4] + t[4..];
      assert |t| > 4 ==> bytes[..3] == head && bytes[3..] == Decode(t[4..]).value;
      assert |t| == 4 ==> bytes == head;
    }
  }

  lemma RoundTrip(bytes: seq<Byte>)
    ensures Decode(Encode(bytes)) == Some(bytes)
  {
    DecodeIff(Encode(bytes), bytes);
  }

  /** The body of the source's chunk loop: four pushes. */
  method GroupInto(chunk: seq<Byte>, out: string) returns (text: string)
    requires 1 <= |chunk| <= 3
    ensures text == out + Group(chunk)
  {
    var b0 := chunk[0];
    var b1 := if |chunk| > 1 then chunk[1] else 0;
    var b2 := if |chunk| > 2 then chunk[2] else 0;
    var n: nat := Bits(b0, b1, b2);
    text := out + [Letter(n / 262144 % 64)];
    text := text + [Letter(n / 4096 % 64)];
    text := text + [if |chunk| > 1 then Letter(n / 64 % 64) else '='];
    text := text + [if |chunk| > 2 then Letter(n % 64) else '='];
  }

  /** Where the chunk that starts at `i` ends. */
  function ChunkEnd(bytes: seq<Byte>, i: nat): (end: nat)
    requires i < |bytes|
    ensures i < end <= |bytes| && end <= i + 3
  {
    if i + 3 < |bytes| then i + 3 else |bytes|
  }

  lemma EncodeStep(bytes: seq<Byte>, i: nat)
    requires i < |bytes|
    ensures var end := ChunkEnd(bytes, i);
            Encode(bytes[i..]) == Group(bytes[i..end]) + Encode(bytes[end..])
  {
    var rest, end := bytes[i..], ChunkEnd(bytes, i);
    if |rest| <= 3 {
      assert bytes[i..end] == rest && bytes[end..] == [];
      assert Group(rest) + "" == Group(rest);
    } else {
      assert bytes[i..end] == rest[..3] && bytes[end..] == rest[3..];
    }
  }

  /** `base64_into`: append the encoding chunk by chunk. */
  method Base64Into(bytes: seq<Byte>, out: string) returns (text: string)
    ensures text == out + Encode(bytes)
  {
    text := out;
    var i := 0;
    assert bytes[0..] == bytes;
    while i < |bytes|
      invariant 0 <= i <= |bytes|
      invariant text + Encode(bytes[i..]) == out + Encode(bytes)
      decreases |bytes| - i
    {
      var end := ChunkEnd(bytes, i);
      EncodeStep(bytes, i);
      ghost var before := text;
      text := GroupInto(bytes[i..end], text);
      Regroup(before, Group(bytes[i..end]), Encode(bytes[end..]));
      i := end;
    }
    assert bytes[i..] == [];
  }
}
