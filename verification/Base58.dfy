/** Base58 of byte strings: the loop of the encoder, and what its text says about the bytes. */
module Base58 {
  import opened Prelude

  type Byte = b: int | 0 <= b < 256

  const ALPHABET := ("123456789" + "ABCDEFGH" + "JKLMN") + ("PQRSTUVWXYZ" + "abcdefghijk" + "mnopqrstuvwxyz")

  function Pow(b: nat, n: nat): nat { if n == 0 then 1 else b * Pow(b, n - 1) }

  /** The big-endian value. */
  function Value(bytes: seq<Byte>): nat {
    if bytes == [] then 0 else 256 * Value(bytes[..|bytes| - 1]) + bytes[|bytes| - 1]
  }

  // ---------------------------------------------------------- hexadecimal

  predicate HexChar(c: char) { '0' <= c <= '9' || 'a' <= c <= 'f' }

  function HexLetter(d: nat): (c: char)
    requires d < 16
    ensures HexChar(c) && HexDigit(c) == d
  {
    if d < 10 then ('0' as int + d) as char else ('a' as int + d - 10) as char
  }

  function HexDigit(c: char): (d: nat)
    requires HexChar(c)
    ensures d < 16
  {
    if c <= '9' then c as int - '0' as int else c as int - 'a' as int + 10
  }

  predicate HexText(s: string) { |s| % 2 == 0 && forall c :: c in s ==> HexChar(c) }

  /** toString(16).padStart(2, "0"). */
  function HexPair(b: Byte): string { [HexLetter(b / 16), HexLetter(b % 16)] }

  /** Array.from(bytes, …).join(""). */
  function Hex(bytes: seq<Byte>): string {
    if bytes == [] then "" else Hex(bytes[..|bytes| - 1]) + HexPair(bytes[|bytes| - 1])
  }

  /** BigInt("0x" + s) on lower-case hexadecimal digits. */
  function ParseHex(s: string): nat
    requires forall c :: c in s ==> HexChar(c)
  {
    if s == "" then 0 else 16 * ParseHex(s[..|s| - 1]) + HexDigit(s[|s| - 1])
  }

  lemma {:induction false} HexValue(bytes: seq<Byte>)
    ensures HexText(Hex(bytes)) && ParseHex(Hex(bytes)) == Value(bytes)
  {
    if bytes != [] {
      var n, b := |bytes| - 1, bytes[|bytes| - 1];
      HexValue(bytes[..n]);
      HexPairValue(Hex(bytes[..n]), b);
      hide HexPair;
    }
  }

  lemma HexPairValue(front: string, b: Byte)
    requires HexText(front)
    ensures var s := front + HexPair(b); HexText(s) && ParseHex(s) == 256 * ParseHex(front) + b
  {
    var hi, lo := HexLetter(b / 16), HexLetter(b % 16);
    var s := front + HexPair(b);
    assert s[..|s| - 1] == front + [hi] && (front + [hi])[..|front|] == front;
  }

  // ------------------------------------------------------------- encoding

  /** The alphabet by its ranges: digits and letters without 0, I, O and l. */
  function Letter(d: nat): (c: char)
    requires d < 58
  {
    if d < 9 then ('1' as int + d) as char
    else if d < 17 then ('A' as int + d - 9) as char
    else if d < 22 then ('J' as int + d - 17) as char
    else if d < 33 then ('P' as int + d - 22) as char
    else if d < 44 then ('a' as int + d - 33) as char
    else ('m' as int + d - 44) as char
  }

  predicate Allowed(c: char) {
    '1' <= c <= '9' || 'A' <= c <= 'H' || 'J' <= c <= 'N' || 'P' <= c <= 'Z' || 'a' <= c <= 'k' || 'm' <= c <= 'z'
  }

  function Digit(c: char): (d: nat)
    requires Allowed(c)
    ensures d < 58 && Letter(d) == c
  {
    if c <= '9' then c as int - '1' as int
    else if c <= 'H' then c as int - 'A' as int + 9
    else if c <= 'N' then c as int - 'J' as int + 17
    else if c <= 'Z' then c as int - 'P' as int + 22
    else if c <= 'k' then c as int - 'a' as int + 33
    else c as int - 'm' as int + 44
  }

  lemma LetterDigit(d: nat)
    requires d < 58
    ensures Allowed(Letter(d)) && Digit(Letter(d)) == d
  { }

  lemma AlphabetLetters(d: nat)
    requires d < 58
    ensures ALPHABET[d] == Letter(d)
  {
    match d
    case 0 => case 1 => case 2 => case 3 => case 4 => case 5 => case 6 => case 7 => case 8 => case 9 => case 10 =>
    case 11 => case 12 => case 13 => case 14 => case 15 => case 16 => case 17 => case 18 => case 19 => case 20 =>
    case 21 => case 22 => case 23 => case 24 => case 25 => case 26 => case 27 => case 28 => case 29 => case 30 =>
    case 31 => case 32 => case 33 => case 34 => case 35 => case 36 => case 37 => case 38 => case 39 => case 40 =>
    case 41 => case 42 => case 43 => case 44 => case 45 => case 46 => case 47 => case 48 => case 49 => case 50 =>
    case 51 => case 52 => case 53 => case 54 => case 55 => case 56 => case 57 =>
  }

  function Digits(x: nat): string { if x == 0 then "" else Digits(x / 58) + [Letter(x % 58)] }

  function Zeros(bytes: seq<Byte>): (n: nat)
    ensures n <= |bytes| && (forall k :: 0 <= k < n ==> bytes[k] == 0) && (n < |bytes| ==> bytes[n] != 0)
  {
    if bytes == [] || bytes[0] != 0 then 0 else 1 + Zeros(bytes[1..])
  }

  function Ones(n: nat): (s: string)
    ensures |s| == n && forall c :: c in s ==> c == '1'
  {
    seq(n, _ => '1')
  }

  function Encoded(bytes: seq<Byte>): string { Ones(Zeros(bytes)) + Digits(Value(bytes)) }

  /** base58Encode. The empty string is refused: BigInt cannot read "0x". */
  method Encode(bytes: seq<Byte>) returns (r: Result<string, string>)
    ensures r.Err? <==> bytes == []
    ensures r.Ok? ==> r.value == Encoded(bytes)
  {
    if bytes == [] { return Err("Cannot convert 0x to a BigInt"); }
    HexValue(bytes);
    EncodedNotEmpty(bytes);
    hide Hex, ParseHex, Value;
    var x := ParseHex(Hex(bytes));
    var out := "";
    while x > 0
      invariant Digits(x) + out == Digits(Value(bytes))
    {
      AlphabetLetters(x % 58);
      assert Digits(x) + out == Digits(x / 58) + ([Letter(x % 58)] + out);
      out := [ALPHABET[x % 58]] + out;
      x := x / 58;
    }
    out := PrependOnes(bytes, out);
    r := Ok(if out == "" then "1" else out);
  }

  method PrependOnes(bytes: seq<Byte>, digits: string) returns (out: string)
    ensures out == Ones(Zeros(bytes)) + digits
  {
    out := digits;
    var k := 0;
    while k < |bytes| && bytes[k] == 0
      invariant k <= Zeros(bytes) && out == Ones(k) + digits
    {
      assert "1" + Ones(k) == Ones(k + 1);
      assert "1" + (Ones(k) + digits) == ("1" + Ones(k)) + digits;
      out := "1" + out;
      k := k + 1;
    }
  }

  lemma EncodedNotEmpty(bytes: seq<Byte>)
    requires bytes != []
    ensures Encoded(bytes) != ""
  {
    if Zeros(bytes) == 0 { ValueBounds(bytes); PowPositive(256, |bytes| - 1); }
  }

  lemma {:induction false} PowPositive(b: nat, n: nat)
    requires b > 0
    ensures Pow(b, n) > 0
  {
    if n > 0 { PowPositive(b, n - 1); }
  }

  /** A first byte f puts the value between f and f + 1 times 256^(n - 1). */
  lemma {:induction false} ValueBounds(bytes: seq<Byte>)
    requires bytes != []
    ensures bytes[0] * Pow(256, |bytes| - 1) <= Value(bytes) < (bytes[0] + 1) * Pow(256, |bytes| - 1)
  {
    var n := |bytes| - 1;
    if n > 0 {
      ValueBounds(bytes[..n]);
      assert bytes[..n][0] == bytes[0];
      Carry(256, bytes[0], Pow(256, n - 1), Value(bytes[..n]), bytes[n]);
    } else {
      assert Pow(256, 0) == 1 && Value(bytes[..0]) == 0;
    }
  }

  /** Appending a digit multiplies the bounds by the base. */
  lemma Carry(base: nat, f: nat, p: nat, v: nat, d: nat)
    requires f * p <= v < (f + 1) * p && d < base
    ensures f * (base * p) <= base * v + d < (f + 1) * (base * p)
  {
    Swap(base, f, p);
    Swap(base, f + 1, p);
    Between(base, f * p, v, (f + 1) * p);
  }

  lemma Between(base: nat, low: nat, v: nat, high: nat)
    requires low <= v < high
    ensures base * low <= base * v <= base * high - base
  {
    assert base * (high - 1) == base * high - base;
  }

  lemma Swap(a: nat, b: nat, c: nat)
    ensures b * (a * c) == a * (b * c)
  { }

  /** Dropping the last digit divides them. */
  lemma Uncarry(base: nat, f: nat, p: nat, x: nat)
    requires base > 0 && f * (base * p) <= x < (f + 1) * (base * p)
    ensures f * p <= x / base < (f + 1) * p
  {
    assert f * (base * p) == base * (f * p);
    assert (f + 1) * (base * p) == base * ((f + 1) * p);
    Quotient(base, f * p, x);
    Quotient(base, (f + 1) * p, x);
  }

  lemma Quotient(base: nat, n: nat, x: nat)
    requires base > 0
    ensures base * n <= x <==> n <= x / base
  {
    assert x == base * (x / base) + x % base;
    if n <= x / base { assert base * n <= base * (x / base); }
    else { assert base * (x / base + 1) <= base * n; }
  }

  // -------------------------------------------------------------- decoding

  predicate Text(s: string) { forall c :: c in s ==> Allowed(c) }

  /** The number that a text denotes in base 58. */
  function Denoted(s: string): nat
    requires Text(s)
  {
    if s == "" then 0 else 58 * Denoted(s[..|s| - 1]) + Digit(s[|s| - 1])
  }

  lemma {:induction false} DigitsDenote(n: nat, x: nat)
    ensures var s := Ones(n) + Digits(x); Text(s) && Denoted(s) == x
  {
    var s := Ones(n) + Digits(x);
    if x > 0 {
      DigitsDenote(n, x / 58);
      assert s[..|s| - 1] == Ones(n) + Digits(x / 58);
      LetterDigit(x % 58);
    } else if n > 0 {
      DigitsDenote(n - 1, 0);
      assert s[..n - 1] == Ones(n - 1) + Digits(0);
    }
  }

  function LeadingOnes(s: string): nat { if s == "" || s[0] != '1' then 0 else 1 + LeadingOnes(s[1..]) }

  lemma {:induction false} DigitsLead(x: nat)
    requires x > 0
    ensures Digits(x) != "" && Digits(x)[0] != '1'
  {
    if x >= 58 { DigitsLead(x / 58); } else { assert Digits(x / 58) == ""; }
  }

  lemma {:induction false} OnesLead(n: nat, s: string)
    requires s == "" || s[0] != '1'
    ensures LeadingOnes(Ones(n) + s) == n
  {
    if n > 0 {
      OnesLead(n - 1, s);
      assert (Ones(n) + s)[1..] == Ones(n - 1) + s;
    } else {
      assert Ones(0) + s == s;
    }
  }

  /** The text denotes the value of the bytes, and its leading ones are their leading zeros. */
  lemma EncodedMeans(bytes: seq<Byte>)
    ensures Text(Encoded(bytes)) && Denoted(Encoded(bytes)) == Value(bytes)
    ensures LeadingOnes(Encoded(bytes)) == Zeros(bytes)
  {
    DigitsDenote(Zeros(bytes), Value(bytes));
    if Value(bytes) > 0 { DigitsLead(Value(bytes)); }
    OnesLead(Zeros(bytes), Digits(Value(bytes)));
  }

  function BytesOf(x: nat): seq<Byte> { if x == 0 then [] else BytesOf(x / 256) + [x % 256] }

  function Decoded(s: string): seq<Byte>
    requires Text(s)
  {
    seq(LeadingOnes(s), _ => 0 as Byte) + BytesOf(Denoted(s))
  }

  lemma {:induction false} BytesOfValue(bytes: seq<Byte>)
    requires bytes != [] ==> bytes[0] != 0
    ensures BytesOf(Value(bytes)) == bytes
  {
    if bytes != [] {
      var n := |bytes| - 1;
      if n > 0 { assert bytes[..n][0] == bytes[0]; }
      BytesOfValue(bytes[..n]);
      assert Value(bytes) > 0 by { ValueBounds(bytes); PowPositive(256, n); }
      assert Value(bytes) / 256 == Value(bytes[..n]) && Value(bytes) % 256 == bytes[n];
      assert bytes == bytes[..n] + [bytes[n]];
    }
  }

  lemma {:induction false} ValueSkipsZeros(bytes: seq<Byte>, n: nat)
    requires n <= |bytes| && forall k :: 0 <= k < n ==> bytes[k] == 0
    ensures Value(bytes[n..]) == Value(bytes)
    decreases |bytes|
  {
    var m := |bytes| - 1;
    if n == |bytes| {
      if n > 0 { ValueSkipsZeros(bytes[..m], m); assert bytes[..m][m..] == []; }
    } else {
      ValueSkipsZeros(bytes[..m], n);
      assert bytes[n..][..m - n] == bytes[..m][n..];
    }
  }

  /** Decoding gives the bytes back. */
  lemma DecodeEncoded(bytes: seq<Byte>)
    ensures Text(Encoded(bytes)) && Decoded(Encoded(bytes)) == bytes
  {
    EncodedMeans(bytes);
    var z := Zeros(bytes);
    hide Value, BytesOf, Encoded, Denoted, LeadingOnes, Zeros;
    ValueSkipsZeros(bytes, z);
    BytesOfValue(bytes[z..]);
    assert bytes[..z] == seq(z, _ => 0 as Byte);
    assert bytes == bytes[..z] + bytes[z..];
  }

  /** Two byte strings with the same text are the same. */
  lemma EncodedInjective(a: seq<Byte>, b: seq<Byte>)
    requires Encoded(a) == Encoded(b)
    ensures a == b
  {
    DecodeEncoded(a);
    DecodeEncoded(b);
  }

  // ---------------------------------------------------------------- length

  /** x has n + 1 digits, the first of them d, when d·58^n <= x < (d + 1)·58^n. */
  lemma {:induction false} DigitsOf(x: nat, d: nat, n: nat)
    requires 0 < d < 58 && d * Pow(58, n) <= x < (d + 1) * Pow(58, n)
    ensures |Digits(x)| == n + 1 && Digits(x)[0] == Letter(d)
  {
    if n == 0 {
      assert Pow(58, 0) == 1 && x == d;
      assert Digits(d / 58) == "";
    } else {
      Uncarry(58, d, Pow(58, n - 1), x);
      DigitsOf(x / 58, d, n - 1);
    }
  }

  /** A number below 58^n has at most n digits, and one of at least 58^n has more than n. */
  lemma {:induction false} DigitsLength(x: nat, n: nat)
    ensures |Digits(x)| <= n <==> x < Pow(58, n)
  {
    if n == 0 { }
    else if x > 0 {
      DigitsLength(x / 58, n - 1);
      Quotient(58, Pow(58, n - 1), x);
    } else {
      PowPositive(58, n);
    }
  }
}
