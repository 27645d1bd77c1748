/** Text and byte encodings the glue relies on: `Number.prototype.toString()` for
    non-negative integers, UTF-8 encoding of strings, and the `0x`-prefixed lower-case
    hexadecimal produced by `bufferToHex`. */
module Text {
  import opened AppState

  function DigitChar(d: int): (c: char)
    requires 0 <= d < 10
    ensures '0' <= c <= '9'
  {
    ('0' as int + d) as char
  }

  /** Decimal text of a natural number, as JavaScript prints it. */
  function Decimal(n: nat): (s: string)
    ensures 1 <= |s|
    ensures forall i :: 0 <= i < |s| ==> '0' <= s[i] <= '9'
    ensures s[0] == '0' ==> n == 0
    decreases n
  {
    if n < 10 then [DigitChar(n)] else Decimal(n / 10) + [DigitChar(n % 10)]
  }

  /** Value of a string of decimal digits. */
  function ParseDecimal(s: string): int
    decreases |s|
  {
    if s == [] then 0 else ParseDecimal(s[..|s| - 1]) * 10 + (s[|s| - 1] as int - '0' as int)
  }

  lemma {:induction false} ParseDecimalOfDecimal(n: nat)
    ensures ParseDecimal(Decimal(n)) == n
    decreases n
  {
    if n >= 10 {
      var s := Decimal(n);
      assert s[..|s| - 1] == Decimal(n / 10);
      ParseDecimalOfDecimal(n / 10);
    }
  }

  /** A larger number never has fewer digits. */
  lemma {:induction false} DecimalLengthMonotone(a: nat, b: nat)
    requires a <= b
    ensures |Decimal(a)| <= |Decimal(b)|
    decreases a
  {
    if a >= 10 {
      DecimalLengthMonotone(a / 10, b / 10);
    }
  }

  /** Decimal text of an integer, with a leading `-` when negative. */
  function IntText(i: int): (s: string)
    ensures i >= 0 ==> s == Decimal(i)
    ensures i < 0 ==> s == "-" + Decimal(-i)
  {
    if i < 0 then "-" + Decimal(-i) else Decimal(i)
  }

  /** Inverse of IntText. */
  function ParseInt(s: string): int {
    if |s| > 0 && s[0] == '-' then -ParseDecimal(s[1..]) else ParseDecimal(s)
  }

  lemma IntTextRoundTrip(i: int)
    ensures ParseInt(IntText(i)) == i
  {
    if i < 0 {
      assert IntText(i)[1..] == Decimal(-i);
      ParseDecimalOfDecimal(-i);
    } else {
      ParseDecimalOfDecimal(i);
    }
  }

  /** UTF-8 encoding of one Unicode scalar value. */
  function Utf8(c: char): (b: seq<byte>)
    ensures 1 <= |b| <= 4
    ensures (c as int < 0x80) <==> |b| == 1
    ensures c as int < 0x80 ==> b == [c as int]
  {
    var v := c as int;
    if v < 0x80 then [v]
    else if v < 0x800 then [0xC0 + v / 0x40, 0x80 + v % 0x40]
    else if v < 0x1_0000 then [0xE0 + v / 0x1000, 0x80 + (v / 0x40) % 0x40, 0x80 + v % 0x40]
    else [0xF0 + v / 0x4_0000, 0x80 + (v / 0x1000) % 0x40, 0x80 + (v / 0x40) % 0x40, 0x80 + v % 0x40]
  }

  /** UTF-8 encoding of a string (`Buffer.from(s, 'utf8')`). */
  function Utf8String(s: string): seq<byte>
    decreases |s|
  {
    if s == [] then [] else Utf8(s[0]) + Utf8String(s[1..])
  }

  lemma {:induction false} Utf8StringConcat(a: string, b: string)
    ensures Utf8String(a + b) == Utf8String(a) + Utf8String(b)
    decreases |a|
  {
    if a == [] {
      assert a + b == b;
    } else {
      assert (a + b)[0] == a[0];
      assert (a + b)[1..] == a[1..] + b;
      Utf8StringConcat(a[1..], b);
    }
  }

  predicate IsAscii(s: string) {
    forall i :: 0 <= i < |s| ==> s[i] as int < 0x80
  }

  /** An ASCII string encodes byte for byte. */
  lemma {:induction false} Utf8StringAscii(s: string)
    requires IsAscii(s)
    ensures |Utf8String(s)| == |s|
    ensures forall i :: 0 <= i < |s| ==> Utf8String(s)[i] == s[i] as int
    decreases |s|
  {
    if s != [] {
      Utf8StringAscii(s[1..]);
    }
  }

  function HexDigit(d: int): (c: char)
    requires 0 <= d < 16
  {
    if d < 10 then ('0' as int + d) as char else ('a' as int + d - 10) as char
  }

  /** Value of a lower-case hexadecimal digit. */
  function HexValue(c: char): (r: Option<int>)
    ensures r.Some? ==> 0 <= r.value < 16
  {
    if '0' <= c <= '9' then Some(c as int - '0' as int)
    else if 'a' <= c <= 'f' then Some(c as int - 'a' as int + 10)
    else None
  }

  lemma HexValueOfDigit(d: int)
    requires 0 <= d < 16
    ensures HexValue(HexDigit(d)) == Some(d)
  {
  }

  function HexBody(b: seq<byte>): (s: string)
    ensures |s| == 2 * |b|
    decreases |b|
  {
    if b == [] then [] else [HexDigit(b[0] / 16), HexDigit(b[0] % 16)] + HexBody(b[1..])
  }

  /** `bufferToHex`: `0x` followed by two lower-case digits per byte. */
  function ToHex(b: seq<byte>): (s: string)
    ensures |s| == 2 + 2 * |b|
    ensures s[..2] == "0x"
  {
    "0x" + HexBody(b)
  }

  function FromHexBody(s: string): Option<seq<byte>>
    decreases |s|
  {
    if s == [] then Some([])
    else if |s| == 1 then None
    else
      match (HexValue(s[0]), HexValue(s[1]), FromHexBody(s[2..]))
      case (Some(hi), Some(lo), Some(rest)) => Some([hi * 16 + lo] + rest)
      case _ => None
  }

  /** Reads back the output of ToHex. */
  function FromHex(s: string): Option<seq<byte>> {
    if |s| >= 2 && s[..2] == "0x" then FromHexBody(s[2..]) else None
  }

  lemma {:induction false} FromHexBodyOfHexBody(b: seq<byte>)
    ensures FromHexBody(HexBody(b)) == Some(b)
    decreases |b|
  {
    if b != [] {
      var s := HexBody(b);
      assert s[2..] == HexBody(b[1..]);
      HexValueOfDigit(b[0] / 16);
      HexValueOfDigit(b[0] % 16);
      FromHexBodyOfHexBody(b[1..]);
      assert [b[0]] + b[1..] == b;
    }
  }

  lemma HexRoundTrip(b: seq<byte>)
    ensures FromHex(ToHex(b)) == Some(b)
  {
    assert ToHex(b)[2..] == HexBody(b);
    FromHexBodyOfHexBody(b);
  }

  lemma ToHexInjective(a: seq<byte>, b: seq<byte>)
    requires ToHex(a) == ToHex(b)
    ensures a == b
  {
    HexRoundTrip(a);
    HexRoundTrip(b);
  }
}
