/**
 JSON text (RFC 8259): the module's hand-written string escaping and compact layout, and a parser for
 the values the consumers read back.
 */
module Json {
  import opened Text

  datatype Json =
    | JNull
    | JBool(b: bool)
    | JInt(i: int)
    | JFloat
    | JString(s: string)
    | JArray(items: seq<Json>)
    | JObject(members: seq<Member>)

  datatype Member = Member(name: string, value: Json)

  datatype Parsed<+T> = Bad | Ok(value: T, rest: string)

  // ---------------------------------------------------------------------------------------------
  // Strings (section 7)
  // ---------------------------------------------------------------------------------------------

  function HexChar(d: nat): char
    requires d < 16
  {
    if d < 10 then ('0' as int + d) as char else ('a' as int + (d - 10)) as char
  }

  function HexValue(c: char): (r: Option<nat>)
    ensures r.Some? ==> r.value < 16
  {
    if '0' <= c <= '9' then Some(c as int - '0' as int)
    else if 'a' <= c <= 'f' then Some(c as int - 'a' as int + 10)
    else if 'A' <= c <= 'F' then Some(c as int - 'A' as int + 10)
    else None
  }

  /** What `json_escape_into` pushes for one character. */
  function EscapeChar(c: char): (t: string)
    ensures t != []
  {
    if c == '"' then "\\\""
    else if c == '\\' then "\\\\"
    else if c == '\n' then "\\n"
    else if c == '\r' then "\\r"
    else if c == '\t' then "\\t"
    else if c < ' ' then "\\u00" + [HexChar(c as int / 16), HexChar(c as int % 16)]
    else [c]
  }

  function Escape(s: string): string {
    if s == [] then "" else EscapeChar(s[0]) + Escape(s[1..])
  }

  /** A string literal, quotes included. */
  function Quoted(s: string): string {
    "\"" + Escape(s) + "\""
  }

  /** The four hex digits of a `\u` escape. */
  function Hex4(s: string): (r: Option<nat>)
    ensures r.Some? ==> |s| >= 4 && r.value < 0x1_0000
  {
    if |s| < 4 then None
    else
      var a, b, c, d := HexValue(s[0]), HexValue(s[1]), HexValue(s[2]), HexValue(s[3]);
      if a.None? || b.None? || c.None? || d.None? then None
      else Some(4096 * a.value + 256 * b.value + 16 * c.value + d.value)
  }

  /** The character an escape denotes and how much text it spans, given the text after the backslash. */
  function Unescape(s: string): (r: Option<(char, nat)>)
    ensures r.Some? ==> 1 <= r.value.1 <= |s|
  {
    if s == [] then None
    else if s[0] in "\"\\/" then Some((s[0], 1))
    else if s[0] == 'b' then Some((8 as char, 1))
    else if s[0] == 'f' then Some((12 as char, 1))
    else if s[0] == 'n' then Some(('\n', 1))
    else if s[0] == 'r' then Some(('\r', 1))
    else if s[0] == 't' then Some(('\t', 1))
    else if s[0] != 'u' then None
    else
      var high := Hex4(s[1..]);
      if high.None? then None
      else if !(0xD800 <= high.value < 0xE000) then Some((high.value as char, 5))
      else if high.value >= 0xDC00 || |s| < 11 || s[5] != '\\' || s[6] != 'u' then None
      else
        var low := Hex4(s[7..]);
        if low.None? || !(0xDC00 <= low.value < 0xE000) then None
        else Some(((0x1_0000 + 1024 * (high.value - 0xD800) + (low.value - 0xDC00)) as char, 11))
  }

  /** The characters up to the closing quote. */
  function ParseChars(s: string): (r: Parsed<string>)
    ensures r.Ok? ==> |r.rest| < |s|
    decreases |s|
  {
    if s == [] then Bad
    else if s[0] == '"' then Ok("", s[1..])
    else if s[0] == '\\' then
      var e := Unescape(s[1..]);
      if e.None? then Bad else Prepend(e.value.0, ParseChars(s[1 + e.value.1..]))
    else if s[0] < ' ' then Bad
    else Prepend(s[0], ParseChars(s[1..]))
  }

  function Prepend(c: char, r: Parsed<string>): Parsed<string> {
    if r.Bad? then Bad else Ok([c] + r.value, r.rest)
  }

  lemma HexInverse(d: nat)
    requires d < 16
    ensures HexValue(HexChar(d)) == Some(d)
  {
  }

  /** A control character without a short escape goes through `\u00XX`. */
  lemma ControlEscape(c: char, t: string)
    requires c < ' ' && c != '\n' && c != '\r' && c != '\t'
    ensures ParseChars(EscapeChar(c) + t) == Prepend(c, ParseChars(t))
  {
    var n := c as int;
    var s := EscapeChar(c) + t;
    HexInverse(0);
    HexInverse(n / 16);
    HexInverse(n % 16);
    var h := s[2..];
    assert h[0] == '0' && h[1] == '0' && h[2] == HexChar(n / 16) && h[3] == HexChar(n % 16);
    assert HexValue('0') == Some(0);
    assert Hex4(h) == Some(n);
    assert s[1..][1..] == h;
    assert Unescape(s[1..]) == Some((c, 5));
    assert s[6..] == t;
  }

  lemma EscapeCharParses(c: char, t: string)
    ensures ParseChars(EscapeChar(c) + t) == Prepend(c, ParseChars(t))
  {
    var s := EscapeChar(c) + t;
    if c < ' ' && c != '\n' && c != '\r' && c != '\t' {
      ControlEscape(c, t);
    } else if c in "\"\\\n\r\t" {
      assert s[0] == '\\' && s[2..] == t;
      assert Unescape(s[1..]) == Some((c, 1));
    } else {
      assert s[1..] == t;
    }
  }

  lemma {:induction false} EscapeParses(x: string, rest: string)
    ensures ParseChars(Escape(x) + "\"" + rest) == Ok(x, rest)
  {
    if x == [] {
      assert (Escape(x) + "\"" + rest)[1..] == rest;
    } else {
      var t := Escape(x[1..]) + "\"" + rest;
      assert Escape(x) + "\"" + rest == EscapeChar(x[0]) + t;
      EscapeCharParses(x[0], t);
      EscapeParses(x[1..], rest);
      assert [x[0]] + x[1..] == x;
    }
  }

  /** The short escapes of RFC 8259, section 7, as the module writes them. */
  lemma ShortEscapes()
    ensures EscapeChar('"') == ['\\', '"'] && EscapeChar('\\') == ['\\', '\\']
    ensures EscapeChar('\n') == ['\\', 'n'] && EscapeChar('\r') == ['\\', 'r'] && EscapeChar('\t') == ['\\', 't']
  {
  }

  /** What an escape is, read back: the six one-letter ones, and four hexadecimal digits for a code unit. */
  lemma EscapesMean(rest: string)
    ensures Unescape("b" + rest) == Some((8 as char, 1)) && Unescape("f" + rest) == Some((12 as char, 1))
    ensures Unescape("n" + rest) == Some((10 as char, 1)) && Unescape("r" + rest) == Some((13 as char, 1))
    ensures Unescape("t" + rest) == Some((9 as char, 1)) && Unescape("/" + rest) == Some(('/', 1))
  {
  }

  /** The lower-case hexadecimal digits of a code unit. */
  function Digits4(n: nat): (t: string)
    requires n < 0x1_0000
    ensures |t| == 4
  {
    [HexChar(n / 4096), HexChar(n / 256 % 16), HexChar(n / 16 % 16), HexChar(n % 16)]
  }

  lemma Digits4Reads(n: nat, rest: string)
    requires n < 0x1_0000
    ensures Hex4(Digits4(n) + rest) == Some(n)
  {
    HexInverse(n / 4096);
    HexInverse(n / 256 % 16);
    HexInverse(n / 16 % 16);
    HexInverse(n % 16);
    Nibbles(n);
  }

  lemma Nibbles(n: nat)
    ensures n == 4096 * (n / 4096) + 256 * (n / 256 % 16) + 16 * (n / 16 % 16) + n % 16
  {
    var a, b := n / 16, n / 256;
    DivModUnique(n, 256, a / 16, 16 * (a % 16) + n % 16);
    DivModUnique(n, 4096, b / 16, 256 * (b % 16) + (16 * (a % 16) + n % 16));
  }

  /** A code unit outside the surrogates is the character; two surrogates are one character of a higher plane. */
  lemma UnicodeEscapes(n: nat, rest: string)
    requires n < 0x1_0000 && !(0xD800 <= n < 0xE000)
    ensures Unescape("u" + Digits4(n) + rest) == Some((n as char, 5))
  {
    Digits4Reads(n, rest);
    assert ("u" + Digits4(n) + rest)[1..] == Digits4(n) + rest;
  }

  lemma SurrogatePairs(high: nat, low: nat, rest: string)
    requires 0xD800 <= high < 0xDC00 && 0xDC00 <= low < 0xE000
    ensures Unescape("u" + Digits4(high) + "\\u" + Digits4(low) + rest)
         == Some(((0x1_0000 + 1024 * (high - 0xD800) + (low - 0xDC00)) as char, 11))
  {
    var s := "u" + Digits4(high) + "\\u" + Digits4(low) + rest;
    Digits4Reads(high, "\\u" + Digits4(low) + rest);
    Digits4Reads(low, rest);
    assert s[1..] == Digits4(high) + ("\\u" + Digits4(low) + rest);
    assert s[7..] == Digits4(low) + rest;
  }

  /** The source's match on one character. */
  method EscapeCharInto(c: char, out: string) returns (text: string)
    ensures text == out + EscapeChar(c)
  {
    if c == '"' { text := out + "\\\""; }
    else if c == '\\' { text := out + "\\\\"; }
    else if c == '\n' { text := out + "\\n"; }
    else if c == '\r' { text := out + "\\r"; }
    else if c == '\t' { text := out + "\\t"; }
    else if c < ' ' { text := out + ("\\u00" + [HexChar(c as int / 16), HexChar(c as int % 16)]); }
    else { text := out + [c]; }
  }

  /** `json_escape_into`: append a string literal character by character. */
  method JsonEscapeInto(s: string, out: string) returns (text: string)
    ensures text == out + Quoted(s)
  {
    text := out + "\"";
    ghost var whole := text + Escape(s);
    var i := 0;
    assert s[0..] == s;
    while i < |s|
      invariant 0 <= i <= |s|
      invariant text + Escape(s[i..]) == whole
    {
      ghost var before := text;
      assert s[i..][1..] == s[i + 1..];
      text := EscapeCharInto(s[i], text);
      Regroup(before, EscapeChar(s[i]), Escape(s[i + 1..]));
      i := i + 1;
    }
    assert text + "" == text;
    text := text + "\"";
    assert whole + "\"" == out + Quoted(s);
  }

  // ---------------------------------------------------------------------------------------------
  // Numbers (section 6)
  // ---------------------------------------------------------------------------------------------

  /** How many digits the text starts with. */
  function DigitSpan(s: string): (n: nat)
    ensures n <= |s| && AllDigits(s[..n])
    ensures n < |s| ==> !IsDigit(s[n])
    decreases |s|
  {
    if s == [] || !IsDigit(s[0]) then 0
    else
      var n := DigitSpan(s[1..]);
      assert s[..n + 1] == [s[0]] + s[1..][..n];
      n + 1
  }

  /** The text after an optional fraction and exponent; `None` if one is malformed. */
  function AfterFraction(s: string): (r: Option<string>)
    ensures r.Some? ==> |r.value| <= |s|
  {
    if s != [] && s[0] == '.' then
      var n := DigitSpan(s[1..]);
      if n == 0 then None else AfterExponent(s[1 + n..])
    else AfterExponent(s)
  }

  function AfterExponent(s: string): (r: Option<string>)
    ensures r.Some? ==> |r.value| <= |s|
  {
    if s != [] && s[0] in "eE" then
      var digits := if |s| > 1 && s[1] in "+-" then s[2..] else s[1..];
      var n := DigitSpan(digits);
      if n == 0 then None else Some(digits[n..])
    else Some(s)
  }

  /** An integer literal keeps its value; a negative zero or a literal with a fraction or exponent is a float. */
  function ParseNumber(s: string): (r: Parsed<Json>)
    requires s != []
    ensures r.Ok? ==> |r.rest| < |s|
  {
    var negative := s[0] == '-';
    var t := if negative then s[1..] else s;
    var n := DigitSpan(t);
    if n == 0 || (n > 1 && t[0] == '0') then Bad
    else
      var tail := AfterFraction(t[n..]);
      if tail.None? then Bad
      else if tail.value == t[n..] && !(negative && ValueOf(t[..n]) == 0) then
        Ok(JInt(if negative then -(ValueOf(t[..n]) as int) else ValueOf(t[..n])), t[n..])
      else Ok(JFloat, tail.value)
  }

  /** What may follow a value inside the module's documents. */
  predicate Delimited(rest: string) {
    rest == [] || rest[0] == ',' || rest[0] == ']' || rest[0] == '}'
  }

  lemma {:induction false} DigitSpanOf(digits: string, rest: string)
    requires AllDigits(digits) && Delimited(rest)
    ensures DigitSpan(digits + rest) == |digits|
    decreases |digits|
  {
    if digits == [] {
      assert digits + rest == rest;
    } else {
      assert (digits + rest)[1..] == digits[1..] + rest;
      DigitSpanOf(digits[1..], rest);
    }
  }

  /** An integer literal with no fraction or exponent after it. */
  lemma PlainInteger(n: nat, rest: string)
    requires Delimited(rest)
    ensures var t := Decimal(n) + rest;
            && DigitSpan(t) == |Decimal(n)| && t[..|Decimal(n)|] == Decimal(n) && t[|Decimal(n)|..] == rest
            && (|Decimal(n)| > 1 ==> t[0] != '0')
            && AfterFraction(rest) == Some(rest)
  {
    DigitSpanOf(Decimal(n), rest);
    assert |Decimal(n)| > 1 ==> n > 0;
  }

  lemma NaturalParses(n: nat, rest: string)
    requires Delimited(rest)
    ensures ParseNumber(Decimal(n) + rest) == Ok(JInt(n), rest)
  {
    PlainInteger(n, rest);
    ValueOfDecimal(n);
    assert IsDigit((Decimal(n) + rest)[0]);
  }

  lemma NegativeParses(n: nat, rest: string)
    requires Delimited(rest) && n > 0
    ensures ParseNumber("-" + Decimal(n) + rest) == Ok(JInt(-(n as int)), rest)
  {
    PlainInteger(n, rest);
    ValueOfDecimal(n);
    assert ("-" + Decimal(n) + rest)[1..] == Decimal(n) + rest;
  }

  lemma IntegerParses(i: int, rest: string)
    requires Delimited(rest)
    ensures ParseNumber(SignedDecimal(i) + rest) == Ok(JInt(i), rest)
  {
    if i < 0 { NegativeParses(-i, rest); } else { NaturalParses(i, rest); }
  }

  // ---------------------------------------------------------------------------------------------
  // Values (sections 2 to 5)
  // ---------------------------------------------------------------------------------------------

  predicate IsSpace(c: char) {
    c == ' ' || c == '\n' || c == '\t' || c == '\r'
  }

  function SkipSpace(s: string): (r: string)
    ensures |r| <= |s|
    decreases |s|
  {
    if s != [] && IsSpace(s[0]) then SkipSpace(s[1..]) else s
  }

  function ParseWord(s: string, word: string, v: Json): (r: Parsed<Json>)
    requires word != []
    ensures r.Ok? ==> |r.rest| < |s|
  {
    if StartsWith(s, word) then Ok(v, s[|word|..]) else Bad
  }

  function ParseScalar(s: string): (r: Parsed<Json>)
    requires s != []
    ensures r.Ok? ==> |r.rest| < |s|
  {
    if s[0] == '"' then
      var r := ParseChars(s[1..]);
      if r.Bad? then Bad else Ok(JString(r.value), r.rest)
    else if s[0] == 'n' then ParseWord(s, "null", JNull)
    else if s[0] == 't' then ParseWord(s, "true", JBool(true))
    else if s[0] == 'f' then ParseWord(s, "false", JBool(false))
    else ParseNumber(s)
  }

  /** An array, given the text after its opening bracket. */
  function ParseArray(s: string): (r: Parsed<Json>)
    ensures r.Ok? ==> |r.rest| < |s|
    decreases |s|, 3
  {
    var t := SkipSpace(s);
    if t != [] && t[0] == ']' then Ok(JArray([]), t[1..])
    else
      var r := ParseItems(t);
      if r.Bad? then Bad else Ok(JArray(r.value), r.rest)
  }

  /** An object, given the text after its opening brace. */
  function ParseObject(s: string): (r: Parsed<Json>)
    ensures r.Ok? ==> |r.rest| < |s|
    decreases |s|, 3
  {
    var t := SkipSpace(s);
    if t != [] && t[0] == '}' then Ok(JObject([]), t[1..])
    else
      var r := ParseMembers(t);
      if r.Bad? then Bad else Ok(JObject(r.value), r.rest)
  }

  /** A value, with leading white space. */
  function ParseValue(text: string): (r: Parsed<Json>)
    ensures r.Ok? ==> |r.rest| < |text|
    decreases |text|, 1
  {
    var s := SkipSpace(text);
    if s == [] then Bad
    else if s[0] == '[' then ParseArray(s[1..])
    else if s[0] == '{' then ParseObject(s[1..])
    else ParseScalar(s)
  }

  /** One or more values up to the closing bracket. */
  function ParseItems(s: string): (r: Parsed<seq<Json>>)
    ensures r.Ok? ==> |r.rest| < |s|
    decreases |s|, 2
  {
    var v := ParseValue(s);
    if v.Bad? then Bad
    else
      var t := SkipSpace(v.rest);
      if t == [] then Bad
      else if t[0] == ']' then Ok([v.value], t[1..])
      else if t[0] != ',' then Bad
      else
        var more := ParseItems(t[1..]);
        if more.Bad? then Bad else Ok([v.value] + more.value, more.rest)
  }

  /** A quoted name and its colon. */
  function ParseName(text: string): (r: Parsed<string>)
    ensures r.Ok? ==> |r.rest| < |text|
  {
    var s := SkipSpace(text);
    if s == [] || s[0] != '"' then Bad
    else
      var name := ParseChars(s[1..]);
      if name.Bad? then Bad
      else
        var t := SkipSpace(name.rest);
        if t == [] || t[0] != ':' then Bad else Ok(name.value, t[1..])
  }

  /** One or more members up to the closing brace. */
  function ParseMembers(s: string): (r: Parsed<seq<Member>>)
    ensures r.Ok? ==> |r.rest| < |s|
    decreases |s|, 2
  {
    var name := ParseName(s);
    if name.Bad? then Bad
    else
      var v := ParseValue(name.rest);
      if v.Bad? then Bad
      else
        var t := SkipSpace(v.rest);
        if t == [] then Bad
        else if t[0] == '}' then Ok([Member(name.value, v.value)], t[1..])
        else if t[0] != ',' then Bad
        else
          var more := ParseMembers(t[1..]);
          if more.Bad? then Bad else Ok([Member(name.value, v.value)] + more.value, more.rest)
  }

  /** A whole document: one value and trailing white space. */
  function ParseDocument(text: string): Option<Json> {
    var r := ParseValue(text);
    if r.Bad? || SkipSpace(r.rest) != [] then None else Some(r.value)
  }

  // ---------------------------------------------------------------------------------------------
  // Compact layout
  // ---------------------------------------------------------------------------------------------

  /** Floats never occur in the module's documents. */
  predicate Printable(j: Json) {
    match j
    case JFloat => false
    case JArray(items) => forall i :: 0 <= i < |items| ==> Printable(items[i])
    case JObject(members) => forall i :: 0 <= i < |members| ==> Printable(members[i].value)
    case _ => true
  }

  function Print(j: Json): string
    requires Printable(j)
    decreases j, 1
  {
    match j
    case JNull => "null"
    case JBool(b) => if b then "true" else "false"
    case JInt(i) => SignedDecimal(i)
    case JString(s) => Quoted(s)
    case JArray(items) => if items == [] then "[]" else "[" + PrintItems(items) + "]"
    case JObject(members) => if members == [] then "{}" else "{" + PrintMembers(members) + "}"
  }

  function PrintItems(items: seq<Json>): string
    requires items != [] && forall i :: 0 <= i < |items| ==> Printable(items[i])
    decreases items, 0
  {
    Print(items[0]) + if |items| == 1 then "" else "," + PrintItems(items[1..])
  }

  function PrintMembers(members: seq<Member>): string
    requires members != [] && forall i :: 0 <= i < |members| ==> Printable(members[i].value)
    decreases members, 0
  {
    Quoted(members[0].name) + ":" + Print(members[0].value)
    + if |members| == 1 then "" else "," + PrintMembers(members[1..])
  }

  /** Printing begins with a visible character. */
  lemma PrintStart(j: Json)
    requires Printable(j)
    ensures Print(j) != [] && !IsSpace(Print(j)[0]) && Print(j)[0] != ']' && Print(j)[0] != '}'
  {
    if j.JInt? {
      assert IsDigit(Decimal(if j.i < 0 then -j.i else j.i)[0]);
    }
  }

  lemma WordParses(word: string, v: Json, rest: string)
    requires word != []
    ensures ParseWord(word + rest, word, v) == Ok(v, rest)
  {
    assert (word + rest)[..|word|] == word && (word + rest)[|word|..] == rest;
  }

  lemma StringParses(x: string, rest: string)
    ensures ParseScalar(Quoted(x) + rest) == Ok(JString(x), rest)
  {
    assert (Quoted(x) + rest)[1..] == Escape(x) + "\"" + rest;
    EscapeParses(x, rest);
  }

  lemma IntegerScalarParses(i: int, rest: string)
    requires Delimited(rest)
    ensures ParseScalar(SignedDecimal(i) + rest) == Ok(JInt(i), rest)
    ensures SignedDecimal(i)[0] == '-' || IsDigit(SignedDecimal(i)[0])
  {
    IntegerParses(i, rest);
    assert IsDigit(Decimal(if i < 0 then -i else i)[0]);
    assert (SignedDecimal(i) + rest)[0] == SignedDecimal(i)[0];
  }

  lemma ScalarParses(j: Json, rest: string)
    requires Printable(j) && !j.JArray? && !j.JObject? && Delimited(rest)
    ensures ParseScalar(Print(j) + rest) == Ok(j, rest)
    ensures Print(j)[0] != '[' && Print(j)[0] != '{'
  {
    match j
    case JNull => WordParses("null", JNull, rest);
    case JBool(b) => WordParses(if b then "true" else "false", j, rest);
    case JInt(i) => IntegerScalarParses(i, rest);
    case JString(x) => StringParses(x, rest);
  }

  lemma ArrayParses(items: seq<Json>, rest: string)
    requires items != [] && forall i :: 0 <= i < |items| ==> Printable(items[i])
    requires ParseItems(PrintItems(items) + "]" + rest) == Ok(items, rest)
    ensures ParseArray(PrintItems(items) + "]" + rest) == Ok(JArray(items), rest)
  {
    PrintStart(items[0]);
    var s := PrintItems(items) + "]" + rest;
    assert s[0] == Print(items[0])[0];
    assert SkipSpace(s) == s;
  }

  lemma ObjectParses(members: seq<Member>, rest: string)
    requires members != [] && forall i :: 0 <= i < |members| ==> Printable(members[i].value)
    requires ParseMembers(PrintMembers(members) + "}" + rest) == Ok(members, rest)
    ensures ParseObject(PrintMembers(members) + "}" + rest) == Ok(JObject(members), rest)
  {
    var s := PrintMembers(members) + "}" + rest;
    assert s[0] == '"';
    assert SkipSpace(s) == s;
  }

  lemma Dispatch(s: string)
    requires s != [] && !IsSpace(s[0])
    ensures ParseValue(s) == if s[0] == '[' then ParseArray(s[1..])
                             else if s[0] == '{' then ParseObject(s[1..])
                             else ParseScalar(s)
  {
    assert SkipSpace(s) == s;
  }

  lemma EmptyParses(rest: string)
    ensures ParseValue("[]" + rest) == Ok(JArray([]), rest)
    ensures ParseValue("{}" + rest) == Ok(JObject([]), rest)
  {
    Dispatch("[]" + rest);
    Dispatch("{}" + rest);
    var t, u := ("[]" + rest)[1..], ("{}" + rest)[1..];
    assert SkipSpace(t) == t && t[1..] == rest;
    assert SkipSpace(u) == u && u[1..] == rest;
  }

  lemma BracketsParse(body: string, rest: string)
    ensures ParseValue("[" + body + "]" + rest) == ParseArray(body + "]" + rest)
    ensures ParseValue("{" + body + "}" + rest) == ParseObject(body + "}" + rest)
  {
    Dispatch("[" + body + "]" + rest);
    Dispatch("{" + body + "}" + rest);
    assert ("[" + body + "]" + rest)[1..] == body + "]" + rest;
    assert ("{" + body + "}" + rest)[1..] == body + "}" + rest;
  }

  lemma ScalarValueParses(j: Json, rest: string)
    requires Printable(j) && !j.JArray? && !j.JObject? && Delimited(rest)
    ensures ParseValue(Print(j) + rest) == Ok(j, rest)
  {
    PrintStart(j);
    ScalarParses(j, rest);
    assert (Print(j) + rest)[0] == Print(j)[0];
    Dispatch(Print(j) + rest);
  }

  /** Parsing inverts printing, whatever delimiter follows. */
  lemma {:induction false} PrintParses(j: Json, rest: string)
    requires Printable(j) && Delimited(rest)
    ensures ParseValue(Print(j) + rest) == Ok(j, rest)
    decreases j, 1
  {
    if j.JArray? && j.items != [] {
      ItemsParse(j.items, rest);
      ArrayParses(j.items, rest);
      BracketsParse(PrintItems(j.items), rest);
    } else if j.JObject? && j.members != [] {
      MembersParse(j.members, rest);
      ObjectParses(j.members, rest);
      BracketsParse(PrintMembers(j.members), rest);
    } else if j.JArray? || j.JObject? {
      EmptyParses(rest);
    } else {
      ScalarValueParses(j, rest);
    }
  }

  /** One item, already read, followed by `t`. */
  lemma ItemStep(v: Json, t: string)
    requires Printable(v) && t != [] && (t[0] == ']' || t[0] == ',')
    requires ParseValue(Print(v) + t) == Ok(v, t)
    ensures ParseItems(Print(v) + t)
         == if t[0] == ']' then Ok([v], t[1..])
            else
              var more := ParseItems(t[1..]);
              if more.Bad? then Bad else Ok([v] + more.value, more.rest)
  {
    assert SkipSpace(t) == t;
  }

  lemma {:induction false} ItemsParse(items: seq<Json>, rest: string)
    requires items != [] && forall i :: 0 <= i < |items| ==> Printable(items[i])
    ensures ParseItems(PrintItems(items) + "]" + rest) == Ok(items, rest)
    decreases items, 0
  {
    var tail := if |items| == 1 then "" else "," + PrintItems(items[1..]);
    var t := tail + "]" + rest;
    Relayout("", Print(items[0]), tail, "]", rest);
    if |items| == 1 {
      Separated("", "]", rest);
      assert t[1..] == rest;
      assert items == [items[0]];
    } else {
      Separated(PrintItems(items[1..]), "]", rest);
      ItemsParse(items[1..], rest);
      assert items == [items[0]] + items[1..];
    }
    PrintParses(items[0], t);
    ItemStep(items[0], t);
  }

  lemma NameParses(name: string, t: string)
    ensures ParseName(Quoted(name) + ":" + t) == Ok(name, t)
  {
    var s := Quoted(name) + ":" + t;
    assert s[1..] == Escape(name) + "\"" + (":" + t);
    EscapeParses(name, ":" + t);
    assert (":" + t)[1..] == t;
    assert SkipSpace(":" + t) == ":" + t;
  }

  /** One member, its name and value already read, followed by `t`. */
  lemma MemberStep(name: string, v: Json, t: string)
    requires Printable(v) && t != [] && (t[0] == '}' || t[0] == ',')
    requires ParseValue(Print(v) + t) == Ok(v, t)
    ensures ParseMembers(Quoted(name) + ":" + (Print(v) + t))
         == if t[0] == '}' then Ok([Member(name, v)], t[1..])
            else
              var more := ParseMembers(t[1..]);
              if more.Bad? then Bad else Ok([Member(name, v)] + more.value, more.rest)
  {
    NameParses(name, Print(v) + t);
    assert SkipSpace(t) == t;
  }

  lemma Relayout(head: string, body: string, tail: string, close: string, rest: string)
    ensures head + body + tail + close + rest == head + (body + (tail + close + rest))
    ensures body + tail + close + rest == body + (tail + close + rest)
  {
  }

  lemma Separated(more: string, close: string, rest: string)
    ensures "," + more + close + rest == "," + (more + close + rest)
    ensures ("," + (more + close + rest))[1..] == more + close + rest
    ensures "" + close + rest == close + rest
  {
  }

  lemma {:induction false} MembersParse(members: seq<Member>, rest: string)
    requires members != [] && forall i :: 0 <= i < |members| ==> Printable(members[i].value)
    ensures ParseMembers(PrintMembers(members) + "}" + rest) == Ok(members, rest)
    decreases members, 0
  {
    var name, v := members[0].name, members[0].value;
    var tail := if |members| == 1 then "" else "," + PrintMembers(members[1..]);
    var t := tail + "}" + rest;
    Relayout(Quoted(name) + ":", Print(v), tail, "}", rest);
    if |members| == 1 {
      Separated("", "}", rest);
      assert t[1..] == rest;
      assert members == [Member(name, v)];
    } else {
      Separated(PrintMembers(members[1..]), "}", rest);
      MembersParse(members[1..], rest);
      assert members == [Member(name, v)] + members[1..];
    }
    PrintParses(v, t);
    MemberStep(name, v, t);
  }

  lemma DocumentParses(j: Json)
    requires Printable(j)
    ensures ParseDocument(Print(j)) == Some(j)
  {
    PrintParses(j, "");
    assert Print(j) + "" == Print(j);
  }
}
