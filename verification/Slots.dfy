/** Hash slots: CRC16, the Redis 7.2 tag table and the scattered slot walk (src/cluster.rs). */
module Slots {
  import opened Bytes
  import opened Text

  const SLOT_COUNT: nat := 16384
  const STRIDE: nat := 2609

  // ---------------------------------------------------------------------------------------------
  // CRC16-CCITT (XMODEM)
  // ---------------------------------------------------------------------------------------------

  /** The number a bit string denotes, most significant bit first. */
  function Number(bits: seq<bool>): (n: nat)
    decreases |bits|
  {
    if bits == [] then 0 else 2 * Number(bits[..|bits| - 1]) + if bits[|bits| - 1] then 1 else 0
  }

  function Zeros(n: nat): (z: seq<bool>)
    ensures |z| == n && forall i :: 0 <= i < n ==> !z[i]
  {
    seq(n, i => false)
  }

  const WIDTH: nat := 16
  const BYTE_WIDTH: nat := 8

  /** A 16-bit word, most significant bit first. */
  type Word = w: seq<bool> | |w| == 16 witness Zeros(16)

  /** The generator polynomial 0x1021. */
  const POLYNOMIAL: Word :=
    [false, false, false, true, false, false, false, false, false, false, true, false, false, false, false, true]

  function Xor(a: Word, b: Word): (c: Word)
    ensures forall i :: 0 <= i < 16 ==> c[i] == (a[i] != b[i])
  {
    seq(16, i requires 0 <= i < 16 => a[i] != b[i])
  }

  function ShiftLeft(w: Word): Word {
    w[1..] + [false]
  }

  /** One bit of the register's division step. */
  function Shift(crc: Word): Word {
    if crc[0] then Xor(ShiftLeft(crc), POLYNOMIAL) else ShiftLeft(crc)
  }

  function Shifts(crc: Word, n: nat): Word
    decreases n
  {
    if n == 0 then crc else Shifts(Shift(crc), n - 1)
  }

  function Power(n: nat): nat {
    if n == 0 then 1 else 2 * Power(n - 1)
  }

  /** The low `n` bits of a number, most significant first; they spell it when it has no more. */
  function LowBits(v: nat, n: nat): (bits: seq<bool>)
    ensures |bits| == n
    ensures v < Power(n) ==> Number(bits) == v
  {
    if n == 0 then []
    else
      var rest := LowBits(v / 2, n - 1);
      assert (rest + [v % 2 == 1])[..n - 1] == rest;
      rest + [v % 2 == 1]
  }

  /** The bits of a byte. */
  function ByteBits(b: Byte): (bits: seq<bool>)
    ensures |bits| == 8
  {
    LowBits(b, BYTE_WIDTH)
  }

  /** `u16::from(byte) << 8`. */
  function HighByte(b: Byte): Word {
    ByteBits(b) + Zeros(8)
  }

  function Fold(crc: Word, data: seq<Byte>): Word
    decreases |data|
  {
    if data == [] then crc else Fold(Shifts(Xor(crc, HighByte(data[0])), BYTE_WIDTH), data[1..])
  }

  /** The inner loop of `crc16`. */
  method EightShifts(start: Word) returns (crc: Word)
    ensures crc == Shifts(start, BYTE_WIDTH)
  {
    crc := start;
    var k := 0;
    while k < BYTE_WIDTH
      invariant 0 <= k <= BYTE_WIDTH
      invariant Shifts(crc, BYTE_WIDTH - k) == Shifts(start, BYTE_WIDTH)
    {
      crc := if crc[0] then Xor(ShiftLeft(crc), POLYNOMIAL) else ShiftLeft(crc);
      k := k + 1;
    }
  }

  /** `crc16`. */
  method Crc16(data: seq<Byte>) returns (crc: Word)
    ensures crc == Fold(Zeros(16), data)
  {
    crc := Zeros(16);
    var i := 0;
    assert data[0..] == data;
    while i < |data|
      invariant 0 <= i <= |data|
      invariant Fold(crc, data[i..]) == Fold(Zeros(16), data)
    {
      assert data[i..][1..] == data[i + 1..];
      crc := EightShifts(Xor(crc, HighByte(data[i])));
      i := i + 1;
    }
  }

  // The reference: schoolbook division of the message polynomial.

  function Message(data: seq<Byte>): seq<bool> {
    if data == [] then [] else ByteBits(data[0]) + Message(data[1..])
  }

  /** A word with one bit at the low end. */
  function Low(bit: bool): Word {
    Zeros(15) + [bit]
  }

  /** A word with one bit at the high end. */
  function Top(bit: bool): Word {
    [bit] + Zeros(15)
  }

  /** Bring one message bit down into the low end and subtract the divisor if it fits. */
  function Bring(r: Word, bit: bool): Word {
    Xor(Shift(r), Low(bit))
  }

  /** The remainder of a message on division by the generator polynomial. */
  function Divide(r: Word, message: seq<bool>): Word
    decreases |message|
  {
    if message == [] then r else Divide(Bring(r, message[0]), message[1..])
  }

  lemma ShiftLinear(a: Word, b: Word)
    ensures Shift(Xor(a, b)) == Xor(Shift(a), Shift(b))
  {
    assert ShiftLeft(Xor(a, b)) == Xor(ShiftLeft(a), ShiftLeft(b));
  }

  lemma XorLaws(a: Word, b: Word, c: Word)
    ensures Xor(Xor(a, b), c) == Xor(a, Xor(b, c))
    ensures Xor(a, Zeros(16)) == a
  {
  }

  lemma {:induction false} ShiftsLinear(a: Word, b: Word, n: nat)
    ensures Shifts(Xor(a, b), n) == Xor(Shifts(a, n), Shifts(b, n))
    decreases n
  {
    if n > 0 {
      ShiftLinear(a, b);
      ShiftsLinear(Shift(a), Shift(b), n - 1);
    }
  }

  lemma {:induction false} ShiftsAdd(a: Word, m: nat, n: nat)
    ensures Shifts(Shifts(a, m), n) == Shifts(a, m + n)
    decreases m
  {
    if m == 0 {
      assert Shifts(a, m) == a;
    } else {
      ShiftsAdd(Shift(a), m - 1, n);
      assert Shifts(a, m) == Shifts(Shift(a), m - 1);
      assert Shifts(a, m + n) == Shifts(Shift(a), m - 1 + n);
    }
  }

  /** Dividing by feeding zeros is shifting. */
  lemma {:induction false} ZerosShift(r: Word, n: nat)
    ensures Divide(r, Zeros(n)) == Shifts(r, n)
    decreases n
  {
    if n > 0 {
      assert Zeros(n)[1..] == Zeros(n - 1);
      assert Low(false) == Zeros(16);
      XorLaws(Shift(r), Zeros(16), Zeros(16));
      ZerosShift(Shift(r), n - 1);
    }
  }

  lemma {:induction false} DivideAppend(r: Word, a: seq<bool>, b: seq<bool>)
    ensures Divide(r, a + b) == Divide(Divide(r, a), b)
    decreases |a|
  {
    if a == [] {
      assert a + b == b;
    } else {
      assert (a + b)[0] == a[0] && (a + b)[1..] == a[1..] + b;
      DivideAppend(Bring(r, a[0]), a[1..], b);
    }
  }

  /** A lone bit moves up one place per shift until it reaches the top. */
  lemma {:induction false} BitRises(bit: bool, k: nat)
    requires k <= 15
    ensures Shifts(Zeros(k) + [bit] + Zeros(15 - k), k) == Top(bit)
    decreases k
  {
    var w: Word := Zeros(k) + [bit] + Zeros(15 - k);
    if k == 0 {
      assert w == Top(bit);
    } else {
      assert ShiftLeft(w) == Zeros(k - 1) + [bit] + Zeros(15 - (k - 1));
      BitRises(bit, k - 1);
    }
  }

  /** Folding a bit into the top of a register that runs sixteen places ahead is bringing it down at the bottom. */
  lemma FoldBit(r: Word, bit: bool)
    ensures Shift(Xor(Shifts(r, WIDTH), Top(bit))) == Shifts(Bring(r, bit), WIDTH)
  {
    ShiftLinear(Shifts(r, WIDTH), Top(bit));
    ShiftsLinear(Shift(r), Low(bit), WIDTH);
    assert Low(bit) == Zeros(15) + [bit] + Zeros(0);
    BitRises(bit, WIDTH - 1);
    ShiftsAdd(Low(bit), WIDTH - 1, 1);
    ShiftsAdd(r, WIDTH, 1);
    ShiftsAdd(r, 1, WIDTH);
    assert Shifts(r, 1) == Shift(r);
    assert Shifts(Shifts(r, WIDTH), 1) == Shift(Shifts(r, WIDTH));
    assert Shifts(Top(bit), 1) == Shift(Top(bit));
  }

  /** A left-aligned word is its first bit at the top and the rest one place lower. */
  lemma Peel(bits: seq<bool>)
    requires 0 < |bits| <= 16
    ensures var rest: Word := [false] + bits[1..] + Zeros(16 - |bits|);
            && bits + Zeros(16 - |bits|) == Xor(Top(bits[0]), rest)
            && Shift(rest) == bits[1..] + Zeros(16 - |bits[1..]|)
  {
    var rest: Word := [false] + bits[1..] + Zeros(16 - |bits|);
    assert bits + Zeros(16 - |bits|) == Xor(Top(bits[0]), rest);
    assert ShiftLeft(rest) == bits[1..] + Zeros(16 - |bits[1..]|);
  }

  /** The given bits at the high end of a word. */
  function Aligned(bits: seq<bool>): Word
    requires |bits| <= 16
  {
    bits + Zeros(16 - |bits|)
  }

  /** The first of the aligned bits moves from the fold to the division. */
  lemma FoldFirst(r: Word, bits: seq<bool>) returns (r': Word)
    requires 0 < |bits| <= 16
    ensures r' == Bring(r, bits[0])
    ensures Shift(Xor(Shifts(r, WIDTH), Aligned(bits))) == Xor(Shifts(r', WIDTH), Aligned(bits[1..]))
  {
    var c := Shifts(r, WIDTH);
    var rest: Word := [false] + bits[1..] + Zeros(16 - |bits|);
    Peel(bits);
    XorLaws(c, Top(bits[0]), rest);
    ShiftLinear(Xor(c, Top(bits[0])), rest);
    FoldBit(r, bits[0]);
    r' := Bring(r, bits[0]);
  }

  /** Bits folded in at once are the same bits divided one by one. */
  lemma {:induction false} FoldBits(r: Word, bits: seq<bool>, n: nat)
    requires n == |bits| <= 16
    ensures Shifts(Xor(Shifts(r, WIDTH), Aligned(bits)), n) == Shifts(Divide(r, bits), WIDTH)
    decreases n
  {
    if n == 0 {
      assert Aligned(bits) == Zeros(16);
      XorLaws(Shifts(r, WIDTH), Zeros(16), Zeros(16));
    } else {
      var r' := FoldFirst(r, bits);
      FoldBits(r', bits[1..], n - 1);
      assert Divide(r, bits) == Divide(r', bits[1..]);
    }
  }

  lemma {:induction false} FoldDivides(r: Word, data: seq<Byte>)
    ensures Fold(Shifts(r, WIDTH), data) == Shifts(Divide(r, Message(data)), WIDTH)
    decreases |data|
  {
    if data != [] {
      var bits := ByteBits(data[0]);
      FoldBits(r, bits, BYTE_WIDTH);
      assert Aligned(bits) == HighByte(data[0]);
      FoldDivides(Divide(r, bits), data[1..]);
      DivideAppend(r, bits, Message(data[1..]));
    }
  }

  lemma {:induction false} ShiftsOfZero(n: nat)
    ensures Shifts(Zeros(16), n) == Zeros(16)
  {
    if n > 0 {
      assert ShiftLeft(Zeros(16)) == Zeros(16);
      ShiftsOfZero(n - 1);
    }
  }

  /** The register agrees with the division that brings one bit down at a time. */
  lemma FoldIsDivision(data: seq<Byte>)
    ensures Fold(Zeros(16), data) == Divide(Zeros(16), Message(data) + Zeros(16))
  {
    ShiftsOfZero(WIDTH);
    FoldDivides(Zeros(16), data);
    DivideAppend(Zeros(16), Message(data), Zeros(16));
    ZerosShift(Divide(Zeros(16), Message(data)), WIDTH);
  }

  // What division means: polynomials over GF(2) as bit strings, highest power first.

  /** The divisor x^16 + x^12 + x^5 + 1. */
  const GENERATOR: seq<bool> :=
    [true, false, false, false, true, false, false, false, false, false, false, true, false, false, false, false, true]

  /** The sum of two polynomials written with the same number of coefficients. */
  function Sum(a: seq<bool>, b: seq<bool>): (c: seq<bool>)
    requires |a| == |b|
    ensures |c| == |a| && forall i :: 0 <= i < |a| ==> c[i] == (a[i] != b[i])
  {
    seq(|a|, i requires 0 <= i < |a| => a[i] != b[i])
  }

  /** A multiple of the divisor: one shifted copy of it for every set coefficient of `q`. */
  function Multiple(q: seq<bool>): (p: seq<bool>)
    ensures |p| == |q| + 16
    decreases |q|
  {
    if q == [] then Zeros(16)
    else
      var n := |q| - 1;
      Sum(Multiple(q[..n]) + [false], Zeros(n) + if q[n] then GENERATOR else Zeros(17))
  }

  function Bit(b: bool): nat {
    if b then 1 else 0
  }

  lemma NumberPush(bits: seq<bool>, bit: bool)
    ensures Number(bits + [bit]) == 2 * Number(bits) + Bit(bit)
  {
    assert (bits + [bit])[..|bits|] == bits;
  }

  lemma NumberPair(bits: seq<bool>, a: bool, b: bool)
    ensures Number(bits + [a, b]) == 4 * Number(bits) + 2 * Bit(a) + Bit(b)
  {
    var more := bits + [a];
    NumberPush(bits, a);
    NumberPush(more, b);
    assert more + [b] == bits + [a, b];
  }

  lemma NumberNibble(bits: seq<bool>, a: bool, b: bool, c: bool, d: bool)
    ensures Number(bits + [a, b, c, d]) == 16 * Number(bits) + 8 * Bit(a) + 4 * Bit(b) + 2 * Bit(c) + Bit(d)
  {
    var more := bits + [a, b];
    NumberPair(bits, a, b);
    NumberPair(more, c, d);
    assert more + [c, d] == bits + [a, b, c, d];
  }

  /** Its coefficients are the bits of 0x11021. */
  lemma GeneratorValue()
    ensures Number(GENERATOR) == 0x11021
  {
    var g := GENERATOR;
    NumberPush([], g[0]);
    NumberNibble([] + [g[0]], g[1], g[2], g[3], g[4]);
    NumberNibble(g[..5], g[5], g[6], g[7], g[8]);
    NumberNibble(g[..9], g[9], g[10], g[11], g[12]);
    NumberNibble(g[..13], g[13], g[14], g[15], g[16]);
    assert g[..5] == [] + [g[0]] + [g[1], g[2], g[3], g[4]] && g[..9] == g[..5] + [g[5], g[6], g[7], g[8]];
    assert g[..13] == g[..9] + [g[9], g[10], g[11], g[12]] && g == g[..13] + [g[13], g[14], g[15], g[16]];
  }

  lemma GeneratorShape()
    ensures |GENERATOR| == 17 && GENERATOR == [true] + POLYNOMIAL
  {
  }

  /** One bit brought down: the register with the bit behind it, less the divisor when its top bit is set. */
  lemma BringSubtracts(r: Word, bit: bool)
    ensures r + [bit] == Sum(if r[0] then GENERATOR else Zeros(17), [false] + Bring(r, bit))
  {
    GeneratorShape();
    var s, b := Shift(r), Bring(r, bit);
    assert forall i :: 0 <= i < 15 ==> ShiftLeft(r)[i] == r[i + 1];
    assert forall i :: 0 <= i < 16 ==> b[i] == (s[i] != Low(bit)[i]);
    var g := if r[0] then GENERATOR else Zeros(17);
    assert forall i :: 1 <= i < 17 ==> (r + [bit])[i] == (g[i] != ([false] + b)[i]);
  }

  /** The sum, one more coefficient long. */
  lemma SumExtends(p: seq<bool>, t: seq<bool>, g: seq<bool>, x: seq<bool>)
    requires |p| == |t| + 16 && |g| == 17 && |x| == 17 && (forall i :: 0 <= i < |t| ==> !t[i])
    ensures Sum(Sum(p + [false], t + g), t + x) == Sum(p + [false], t + Sum(g, x))
  {
  }

  /**
   Division leaves a remainder: the message is a multiple of the divisor plus the remainder, which has a lower degree.
   */
  lemma {:induction false} DivisionIdentity(message: seq<bool>) returns (q: seq<bool>)
    ensures |q| == |message|
    ensures Zeros(16) + message == Sum(Multiple(q), Zeros(|message|) + Divide(Zeros(16), message))
    decreases |message|
  {
    if message == [] {
      q := [];
      assert Zeros(0) + Zeros(16) == Zeros(16);
    } else {
      var n := |message| - 1;
      var before, bit := message[..n], message[n];
      var q0 := DivisionIdentity(before);
      var r := Divide(Zeros(16), before);
      q := q0 + [r[0]];
      DivideOne(before, bit);
      DivisionStep(before, bit, q0, r);
      assert before + [bit] == message;
    }
  }

  /** A bit behind both sides of a sum. */
  lemma SumAppends(p: seq<bool>, t: seq<bool>, r: seq<bool>, bit: bool)
    requires |p| == |t| + |r|
    ensures Sum(p, t + r) + [bit] == Sum(p + [false], t + (r + [bit]))
  {
  }

  lemma DivideOne(before: seq<bool>, bit: bool)
    ensures Divide(Zeros(16), before + [bit]) == Bring(Divide(Zeros(16), before), bit)
  {
    DivideAppend(Zeros(16), before, [bit]);
    assert [bit][1..] == [];
  }

  lemma DivisionStep(before: seq<bool>, bit: bool, q0: seq<bool>, r: Word)
    requires |q0| == |before| && Zeros(16) + before == Sum(Multiple(q0), Zeros(|before|) + r)
    ensures Zeros(16) + (before + [bit]) == Sum(Multiple(q0 + [r[0]]), Zeros(|before| + 1) + Bring(r, bit))
  {
    var n, b := |before|, Bring(r, bit);
    var g := if r[0] then GENERATOR else Zeros(17);
    SumAppends(Multiple(q0), Zeros(n), r, bit);
    BringSubtracts(r, bit);
    SumExtends(Multiple(q0), Zeros(n), g, [false] + b);
    MultipleGrows(q0, r[0]);
    Pads(Zeros(16), before, [bit]);
    PadMoves(n, b);
  }

  lemma Pads(a: seq<bool>, b: seq<bool>, c: seq<bool>)
    ensures a + (b + c) == (a + b) + c
  {
  }

  lemma PadMoves(n: nat, b: seq<bool>)
    ensures Zeros(n) + ([false] + b) == Zeros(n + 1) + b
  {
  }

  lemma MultipleGrows(q: seq<bool>, bit: bool)
    ensures |GENERATOR| == 17
    ensures Multiple(q + [bit]) == Sum(Multiple(q) + [false], Zeros(|q|) + if bit then GENERATOR else Zeros(17))
  {
    assert (q + [bit])[..|q|] == q;
  }

  /** The bits of a byte spell the byte. */
  lemma ByteBitsValue(b: Byte)
    ensures Number(ByteBits(b)) == b
  {
    assert Power(4) == 16 && Power(8) == 256;
  }

  /**
   The source's register is the textbook checksum: the message polynomial times x^16 is a multiple of
   x^16 + x^12 + x^5 + 1 plus the register.
   */
  lemma CrcIsRemainder(data: seq<Byte>) returns (q: seq<bool>)
    ensures |q| == |Message(data)| + 16
    ensures Zeros(16) + (Message(data) + Zeros(16)) == Sum(Multiple(q), Zeros(|q|) + Fold(Zeros(16), data))
  {
    FoldIsDivision(data);
    q := DivisionIdentity(Message(data) + Zeros(16));
  }

  // ---------------------------------------------------------------------------------------------
  // Slots and the synthetic tags of the Redis 7.2 fallback
  // ---------------------------------------------------------------------------------------------

  /** The bytes of an ASCII tag. */
  function Ascii(tag: string): seq<Byte>
    requires forall i :: 0 <= i < |tag| ==> tag[i] < 128 as char
  {
    seq(|tag|, i requires 0 <= i < |tag| => tag[i] as int)
  }

  /** The candidate tag `es{i}`. */
  function Candidate(i: nat): (tag: string)
    ensures tag != "" && '{' !in tag && '}' !in tag
    ensures forall k :: 0 <= k < |tag| ==> tag[k] < 128 as char
  {
    var digits := Decimal(i);
    assert forall k :: 0 <= k < |digits| ==> IsDigit(digits[k]);
    "es" + digits
  }

  /** `crc16(tag) mod 16384`. */
  function CandidateSlot(i: nat): (slot: nat)
    ensures slot < SLOT_COUNT
  {
    Number(Fold(Zeros(16), Ascii(Candidate(i)))) % SLOT_COUNT
  }

  lemma {:induction false} NumberBound(bits: seq<bool>)
    ensures Number(bits) < Power(|bits|)
    decreases |bits|
  {
    if bits != [] {
      NumberBound(bits[..|bits| - 1]);
    }
  }

  lemma Doubled(p: nat, x: nat, y: nat, bit: nat)
    ensures 2 * (p * x + y) + bit == (2 * p) * x + (2 * y + bit)
  {
  }

  lemma {:induction false} NumberJoin(a: seq<bool>, b: seq<bool>)
    ensures Number(a + b) == Power(|b|) * Number(a) + Number(b)
    decreases |b|
  {
    if b == [] {
      assert a + b == a;
    } else {
      var n := |b| - 1;
      var rest, bit := b[..n], b[n];
      NumberJoin(a, rest);
      NumberPush(a + rest, bit);
      NumberPush(rest, bit);
      assert a + b == (a + rest) + [bit] && b == rest + [bit];
      Doubled(Power(n), Number(a), Number(rest), Bit(bit));
    }
  }

  lemma Power14()
    ensures Power(14) == 16384
  {
    assert Power(4) == 16 && Power(8) == 256 && Power(12) == 4096;
  }

  /** A candidate's slot is the number its checksum spells without the two leading bits. */
  lemma SlotIsLowBits(i: nat)
    ensures CandidateSlot(i) == Number(Fold(Zeros(16), Ascii(Candidate(i)))[2..])
  {
    var crc := Fold(Zeros(16), Ascii(Candidate(i)));
    var high, low := crc[..2], crc[2..];
    assert crc == high + low;
    NumberJoin(high, low);
    NumberBound(low);
    Power14();
    DivModUnique(Number(crc), 16384, Number(high), Number(low));
  }

  /** The candidates are different tags, each `es` followed by its number. */
  lemma CandidatesDiffer(i: nat, j: nat)
    ensures Candidate(i)[..2] == "es" && Candidate(i)[2..] == Decimal(i)
    ensures Candidate(i) == Candidate(j) <==> i == j
  {
    assert Candidate(j)[2..] == Decimal(j);
    ValueOfDecimal(i);
    ValueOfDecimal(j);
  }

  /** Candidate `i` is the first one to land on `slot`. */
  ghost predicate IsLeast(slotOf: nat -> nat, slot: nat, i: nat) {
    slotOf(i) == slot && forall j :: 0 <= j < i ==> slotOf(j) != slot
  }

  ghost predicate Covered(slotOf: nat -> nat, slot: nat, bound: nat) {
    exists i :: 0 <= i < bound && slotOf(i) == slot
  }

  const UNFILLED: nat := 0xFFFF_FFFF

  ghost function Unfilled(table: seq<nat>): set<nat> {
    set s: nat | s < |table| && table[s] == UNFILLED
  }

  lemma AllUnfilled(table: seq<nat>)
    requires forall s :: 0 <= s < |table| ==> table[s] == UNFILLED
    ensures |Unfilled(table)| == |table|
    decreases |table|
  {
    if table == [] {
      assert Unfilled(table) == {};
    } else {
      var n := |table| - 1;
      AllUnfilled(table[..n]);
      assert Unfilled(table) == Unfilled(table[..n]) + {n};
    }
  }

  /** What a table cell says after the first `i` candidates. */
  ghost predicate Cell(slotOf: nat -> nat, slot: nat, held: nat, i: nat) {
    if held == UNFILLED then forall j :: 0 <= j < i ==> slotOf(j) != slot else IsLeast(slotOf, slot, held)
  }

  ghost predicate Filling(slotOf: nat -> nat, table: seq<nat>, i: nat) {
    |table| == SLOT_COUNT && forall s :: 0 <= s < SLOT_COUNT ==> Cell(slotOf, s, table[s], i)
  }

  lemma CellStep(slotOf: nat -> nat, slot: nat, held: nat, i: nat)
    requires Cell(slotOf, slot, held, i) && i < UNFILLED
    ensures Cell(slotOf, slot, if held == UNFILLED && slotOf(i) == slot then i else held, i + 1)
  {
  }

  /** One candidate: it takes its slot if the slot is still empty, and disturbs no other. */
  lemma FillStep(slotOf: nat -> nat, table: seq<nat>, i: nat, table': seq<nat>)
    requires Filling(slotOf, table, i) && i < UNFILLED && slotOf(i) < SLOT_COUNT
    requires var s := slotOf(i); table' == if table[s] == UNFILLED then table[s := i] else table
    ensures Filling(slotOf, table', i + 1)
    ensures |Unfilled(table')| == if table[slotOf(i)] == UNFILLED then |Unfilled(table)| - 1 else |Unfilled(table)|
  {
    var s := slotOf(i);
    forall u | 0 <= u < SLOT_COUNT
      ensures Cell(slotOf, u, table'[u], i + 1)
    {
      CellStep(slotOf, u, table[u], i);
    }
    if table[s] == UNFILLED {
      assert Unfilled(table') == Unfilled(table) - {s};
    }
  }

  /** While a slot is empty, some candidate that covers it is still to come. */
  lemma StillSearching(slotOf: nat -> nat, table: seq<nat>, i: nat, bound: nat)
    requires Filling(slotOf, table, i) && |Unfilled(table)| > 0 && i <= bound
    requires forall s :: 0 <= s < SLOT_COUNT ==> Covered(slotOf, s, bound)
    ensures i < bound
  {
    assert Unfilled(table) != {};
    var s :| s in Unfilled(table);
    assert Covered(slotOf, s, bound) && Cell(slotOf, s, table[s], i);
    var j :| 0 <= j < bound && slotOf(j) == s;
  }

  lemma Filled(slotOf: nat -> nat, table: seq<nat>, i: nat)
    requires Filling(slotOf, table, i) && |Unfilled(table)| == 0
    ensures forall s :: 0 <= s < SLOT_COUNT ==> IsLeast(slotOf, s, table[s])
  {
    forall s | 0 <= s < SLOT_COUNT
      ensures IsLeast(slotOf, s, table[s])
    {
      assert s !in Unfilled(table);
      assert Cell(slotOf, s, table[s], i);
    }
  }

  /**
   The table fill of `fallback_tag_for_slot`. That the candidates reach every slot before the sentinel
   is the environment's part: `bound` is any count of candidates that covers all slots.
   */
  method FillTable(slotOf: nat -> nat, ghost bound: nat) returns (table: seq<nat>)
    requires bound <= UNFILLED && forall i: nat :: slotOf(i) < SLOT_COUNT
    requires forall s :: 0 <= s < SLOT_COUNT ==> Covered(slotOf, s, bound)
    ensures |table| == SLOT_COUNT
    ensures forall s :: 0 <= s < SLOT_COUNT ==> IsLeast(slotOf, s, table[s])
  {
    table := seq(SLOT_COUNT, i => UNFILLED);
    var remaining := SLOT_COUNT;
    var i := 0;
    AllUnfilled(table);
    while remaining > 0
      invariant 0 <= i <= bound && Filling(slotOf, table, i) && remaining == |Unfilled(table)|
      decreases bound - i
    {
      StillSearching(slotOf, table, i, bound);
      ghost var before := table;
      var s := slotOf(i);
      if table[s] == UNFILLED {
        table := table[s := i];
        remaining := remaining - 1;
      }
      FillStep(slotOf, before, i, table);
      i := i + 1;
    }
    Filled(slotOf, table, i);
  }

  // ---------------------------------------------------------------------------------------------
  // The slot walk
  // ---------------------------------------------------------------------------------------------

  /** The slot visited at step `k`. */
  function Visited(k: nat): (slot: nat)
    ensures slot < SLOT_COUNT
  {
    k * STRIDE % SLOT_COUNT
  }

  /** The step at which a slot is visited: the stride's inverse modulo 16384 is 3793. */
  function StepOf(slot: nat): (k: nat)
    ensures k < SLOT_COUNT
  {
    slot * 3793 % SLOT_COUNT
  }

  /** The walk visits every slot exactly once in 16384 steps. */
  lemma WalkIsPermutation(slot: nat, k: nat)
    requires slot < SLOT_COUNT && k < SLOT_COUNT
    ensures Visited(k) == slot <==> k == StepOf(slot)
  {
    if k == StepOf(slot) {
      var q := slot * 3793 / SLOT_COUNT;
      assert slot * 3793 == SLOT_COUNT * q + k;
      assert k * STRIDE == SLOT_COUNT * (604 * slot - 2609 * q) + slot;
      DivModUnique(k * STRIDE, SLOT_COUNT, 604 * slot - 2609 * q, slot);
    }
    if Visited(k) == slot {
      var q := k * STRIDE / SLOT_COUNT;
      assert k * STRIDE == SLOT_COUNT * q + slot;
      assert slot * 3793 == SLOT_COUNT * (604 * k - 3793 * q) + k;
      DivModUnique(slot * 3793, SLOT_COUNT, 604 * k - 3793 * q, k);
    }
  }

  /** The tag the walk offers for each slot, if the slot has a usable one. */
  type Offer = nat -> Option<string>

  /** The walk's answer: the first offered tag, in visiting order, that the probe accepts. */
  ghost predicate IsSelected(offer: Offer, owned: string -> bool, picked: Option<string>) {
    if picked.None? then
      forall slot: nat :: slot < SLOT_COUNT && offer(slot).Some? ==> !owned(offer(slot).value)
    else
      exists k: nat :: k < SLOT_COUNT && FirstHit(offer, owned, k) && offer(Visited(k)) == picked
  }

  ghost predicate FirstHit(offer: Offer, owned: string -> bool, k: nat) {
    && offer(Visited(k)).Some? && owned(offer(Visited(k)).value)
    && forall j: nat :: j < k && offer(Visited(j)).Some? ==> !owned(offer(Visited(j)).value)
  }

  /** `select_owned_tag`. */
  method SelectOwnedTag(offer: Offer, owned: string -> bool) returns (picked: Option<string>)
    ensures IsSelected(offer, owned, picked)
    ensures picked.Some? ==> owned(picked.value)
    ensures picked.None? <==> forall slot: nat :: slot < SLOT_COUNT && offer(slot).Some? ==> !owned(offer(slot).value)
  {
    var slot: nat := 0;
    var k := 0;
    while k < SLOT_COUNT
      invariant 0 <= k <= SLOT_COUNT && slot == Visited(k)
      invariant forall j: nat :: j < k && offer(Visited(j)).Some? ==> !owned(offer(Visited(j)).value)
    {
      var candidate := offer(slot);
      if candidate.Some? && owned(candidate.value) {
        assert FirstHit(offer, owned, k);
        return candidate;
      }
      NextSlot(k);
      slot := (slot + STRIDE) % SLOT_COUNT;
      k := k + 1;
    }
    forall s: nat | s < SLOT_COUNT && offer(s).Some?
      ensures !owned(offer(s).value)
    {
      WalkIsPermutation(s, StepOf(s));
      assert Visited(StepOf(s)) == s;
    }
    picked := None;
  }

  lemma NextSlot(k: nat)
    ensures (Visited(k) + STRIDE) % SLOT_COUNT == Visited(k + 1)
  {
    var q, r := k * STRIDE / SLOT_COUNT, Visited(k);
    var q', r' := (r + STRIDE) / SLOT_COUNT, (r + STRIDE) % SLOT_COUNT;
    assert (k + 1) * STRIDE == SLOT_COUNT * (q + q') + r';
    DivModUnique((k + 1) * STRIDE, SLOT_COUNT, q + q', r');
  }

  /** The offers of the Redis 7.2 path: the table's tag for every slot. */
  function TableOffer(table: seq<nat>): Offer
    requires |table| == SLOT_COUNT
  {
    (slot: nat) => if slot < |table| then Some(Candidate(table[slot])) else None
  }

  /**
   Coverage of the fallback path: every slot is offered a tag that hashes back to it, so the walk
   comes back empty-handed only when the node accepts no slot at all.
   */
  lemma FallbackCovers(table: seq<nat>, owned: string -> bool, picked: Option<string>)
    requires |table| == SLOT_COUNT && forall s :: 0 <= s < SLOT_COUNT ==> IsLeast(CandidateSlot, s, table[s])
    requires IsSelected(TableOffer(table), owned, picked)
    ensures forall s :: 0 <= s < SLOT_COUNT ==> CandidateSlot(table[s]) == s
    ensures picked.None? ==> forall s :: 0 <= s < SLOT_COUNT ==> !owned(Candidate(table[s]))
    ensures picked.Some? ==>
      && owned(picked.value)
      && exists s :: 0 <= s < SLOT_COUNT && picked.value == Candidate(table[s]) && CandidateSlot(table[s]) == s
  {
    var offer := TableOffer(table);
    if picked.None? {
      forall s | 0 <= s < SLOT_COUNT
        ensures !owned(Candidate(table[s]))
      {
        assert offer(s) == Some(Candidate(table[s]));
      }
    } else {
      var k: nat :| k < SLOT_COUNT && FirstHit(offer, owned, k) && offer(Visited(k)) == picked;
      assert IsLeast(CandidateSlot, Visited(k), table[Visited(k)]);
    }
  }
}
