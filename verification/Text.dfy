/** Rust's decimal formatting and parsing of integers. */
module Text {
  datatype Option<+T> = None | Some(value: T)

  const I64_MIN: int := -0x8000_0000_0000_0000
  const I64_MAX: int := 0x7FFF_FFFF_FFFF_FFFF
  const U64_MAX: int := 0xFFFF_FFFF_FFFF_FFFF

  /** Quotient and remainder are determined by the equation they satisfy. */
  lemma DivModUnique(n: int, m: int, q: int, r: int)
    requires 0 <= r < m && n == m * q + r
    ensures n / m == q && n % m == r
  {
    var d := n / m - q;
    assert m * d == r - n % m;
    assert d < 1 && d > -1 by { SmallMultiple(m, d); }
  }

  lemma SmallMultiple(m: int, d: int)
    requires m > 0
    ensures d >= 1 ==> m * d >= m
    ensures d <= -1 ==> m * d <= -m
  {
  }

  predicate IsDigit(c: char) {
    '0' <= c <= '9'
  }

  function DigitValue(c: char): (v: nat)
    requires IsDigit(c)
    ensures v < 10
  {
    c as int - '0' as int
  }

  function DigitChar(d: nat): (c: char)
    requires d < 10
    ensures IsDigit(c) && DigitValue(c) == d
  {
    ('0' as int + d) as char
  }

  predicate AllDigits(s: string) {
    forall i :: 0 <= i < |s| ==> IsDigit(s[i])
  }

  /** `to_string` of an unsigned integer. */
  function Decimal(n: nat): (s: string)
    ensures s != [] && AllDigits(s)
    ensures n > 0 ==> s[0] != '0'
    ensures n == 0 ==> s == "0"
  {
    if n < 10 then [DigitChar(n)] else Decimal(n / 10) + [DigitChar(n % 10)]
  }

  /** `to_string` of a signed integer. */
  function SignedDecimal(i: int): string {
    if i < 0 then "-" + Decimal(-i) else Decimal(i)
  }

  /** The number a digit string denotes. */
  function ValueOf(s: string): nat
    requires AllDigits(s)
    decreases |s|
  {
    if s == [] then 0 else 10 * ValueOf(s[..|s| - 1]) + DigitValue(s[|s| - 1])
  }

  lemma {:induction false} ValueOfDecimal(n: nat)
    ensures ValueOf(Decimal(n)) == n
  {
    if n >= 10 {
      ValueOfDecimal(n / 10);
      assert Decimal(n)[..|Decimal(n)| - 1] == Decimal(n / 10);
    } else {
      assert Decimal(n)[..0] == [];
    }
  }

  /** `str::parse` for an integer type with bounds `lo..=hi`; an unsigned type takes no minus sign. */
  function ParseInt(s: string, lo: int, hi: int): (r: Option<int>)
    ensures r.Some? ==> lo <= r.value <= hi
  {
    var negative := lo < 0 && s != [] && s[0] == '-';
    var digits := if negative || (s != [] && s[0] == '+') then s[1..] else s;
    if digits == [] || !AllDigits(digits) then None
    else
      var v: int := if negative then -(ValueOf(digits) as int) else ValueOf(digits);
      if lo <= v <= hi then Some(v) else None
  }

  lemma ParseDecimal(n: nat, lo: int, hi: int)
    requires lo <= n <= hi
    ensures ParseInt(Decimal(n), lo, hi) == Some(n)
  {
    ValueOfDecimal(n);
    assert IsDigit(Decimal(n)[0]);
  }

  lemma ParseSignedDecimal(i: int, lo: int, hi: int)
    requires lo <= i <= hi
    ensures ParseInt(SignedDecimal(i), lo, hi) == Some(i)
  {
    if i < 0 {
      ValueOfDecimal(-i);
      assert SignedDecimal(i)[1..] == Decimal(-i);
    } else {
      ParseDecimal(i, lo, hi);
    }
  }

  /** The accepted spellings besides `to_string`: leading zeros and a plus sign; a sign alone or no digit is refused. */
  lemma ParseForms(digits: string, lo: int, hi: int)
    requires AllDigits(digits) && digits != []
    ensures lo <= ValueOf(digits) <= hi ==>
              ParseInt(digits, lo, hi) == ParseInt("+" + digits, lo, hi) == Some(ValueOf(digits))
    ensures ParseInt("-" + digits, lo, hi)
         == if lo < 0 && lo <= -(ValueOf(digits) as int) <= hi then Some(-(ValueOf(digits) as int)) else None
    ensures !(lo <= ValueOf(digits) <= hi) ==> ParseInt(digits, lo, hi) == None
    ensures ParseInt("", lo, hi) == ParseInt("+", lo, hi) == ParseInt("-", lo, hi) == None
  {
    assert IsDigit(digits[0]);
    assert ("+" + digits)[1..] == digits && ("-" + digits)[1..] == digits;
    assert ("-" + digits)[0] == '-' && !AllDigits("-" + digits);
    assert !IsDigit("+"[0]) && !IsDigit("-"[0]);
  }

  /** `starts_with`: the first characters of `s` are `prefix`. */
  predicate StartsWith(s: string, prefix: string) {
    |prefix| <= |s| && s[..|prefix|] == prefix
  }

  lemma Regroup(a: string, b: string, c: string)
    ensures (a + b) + c == a + (b + c)
  {
  }
}
