/** P2PKH addresses of compressed public keys: what their text fixes about length, first character,
    network and key hash. The hashes are parameters that return 32 and 20 bytes. */
module P2pkhAddress {
  import opened Prelude
  import opened Base58

  type Hash = seq<Byte> -> seq<Byte>

  datatype AddressError = NoNetwork | BadKey | OddLength

  const MAIN_VERSION: Byte := 0x00
  const TEST_VERSION: Byte := 0x6f

  // ---------------------------------------------------- reading the key text

  /** replace(/^0x/i, ""). */
  function Unprefixed(s: string): string {
    if |s| >= 2 && s[0] == '0' && (s[1] == 'x' || s[1] == 'X') then s[2..] else s
  }

  predicate Blank(c: char) {
    var n := c as int;
    9 <= n <= 13 || n in {0x20, 0xA0, 0x1680, 0x2028, 0x2029, 0x202F, 0x205F, 0x3000, 0xFEFF} || 0x2000 <= n <= 0x200A
  }

  function TrimLeft(s: string): string { if s != "" && Blank(s[0]) then TrimLeft(s[1..]) else s }

  function TrimRight(s: string): string { if s != "" && Blank(s[|s| - 1]) then TrimRight(s[..|s| - 1]) else s }

  /** toLowerCase on ASCII; no other character becomes a hexadecimal digit or x. */
  function Lower(s: string): (r: string)
    ensures |r| == |s|
  {
    seq(|s|, k requires 0 <= k < |s| => if 'A' <= s[k] <= 'Z' then (s[k] as int + 32) as char else s[k])
  }

  function Normalized(key: string): string { Lower(TrimRight(TrimLeft(Unprefixed(key)))) }

  /** /^(02|03)[0-9a-f]{64}$/. */
  predicate Compressed(s: string) {
    |s| == 66 && s[0] == '0' && (s[1] == '2' || s[1] == '3') && forall k :: 2 <= k < 66 ==> HexChar(s[k])
  }

  /** parseInt(ab, 16) as a byte, on lower-case text: a blank or a sign may precede one digit, a digit
      may precede anything, "0x" and the rest are no number and become 0. */
  function ParsePair(a: char, b: char): Byte {
    if HexChar(a) then
      if a == '0' && b == 'x' then 0 else if HexChar(b) then 16 * HexDigit(a) + HexDigit(b) else HexDigit(a)
    else if !HexChar(b) then 0
    else if a == '-' then (256 - HexDigit(b)) % 256
    else if a == '+' || Blank(a) then HexDigit(b)
    else 0
  }

  /** The pair at `n`: parseInt(s.substring(n, n + 2), 16). */
  function PairAt(s: string, n: nat): Byte
    requires n + 2 <= |s|
  {
    ParsePair(s[n], s[n + 1])
  }

  function FromHex(s: string): (r: seq<Byte>)
    requires |s| % 2 == 0
    ensures |r| == |s| / 2
  {
    if s == "" then []
    else
      var n := |s| - 2;
      FromHex(s[..n]) + [PairAt(s, n)]
  }

  /** Key text and key bytes determine each other. */
  lemma {:induction false} HexOfFromHex(s: string)
    requires HexText(s)
    ensures Hex(FromHex(s)) == s
  {
    if s == "" {
      assert FromHex(s) == [];
    } else {
      TwoMore(s);
      HexOfFromHex(s[..|s| - 2]);
      OneMorePair(s);
      hide *;
    }
  }

  lemma OneMorePair(s: string)
    requires HexText(s) && s != "" && |s| >= 2 && Hex(FromHex(s[..|s| - 2])) == s[..|s| - 2]
    ensures Hex(FromHex(s)) == s
  {
    hide *;
    var n := |s| - 2;
    TwoMore(s);
    FromHexNext(s, n);
    HexAppend(FromHex(s[..n]), PairAt(s, n));
    PairLetters(s, n);
    assert s == s[..n] + [s[n], s[n + 1]];
    assert s[..n + 2] == s;
  }

  lemma TwoMore(s: string)
    requires HexText(s) && s != ""
    ensures |s| >= 2 && (|s| - 2) % 2 == 0 && HexText(s[..|s| - 2])
  {
    assert forall c :: c in s[..|s| - 2] ==> c in s;
  }

  lemma PairLetters(s: string, n: nat)
    requires HexText(s) && n + 2 <= |s|
    ensures HexPair(PairAt(s, n)) == [s[n], s[n + 1]]
  {
    assert s[n] in s && s[n + 1] in s;
    var hi, lo := HexDigit(s[n]), HexDigit(s[n + 1]);
    assert (16 * hi + lo) / 16 == hi && (16 * hi + lo) % 16 == lo;
    LetterOf(s[n]);
    LetterOf(s[n + 1]);
  }

  lemma LetterOf(c: char)
    requires HexChar(c)
    ensures HexLetter(HexDigit(c)) == c
  { }

  lemma HexAppend(front: seq<Byte>, b: Byte)
    ensures Hex(front + [b]) == Hex(front) + HexPair(b)
  {
    assert (front + [b])[..|front|] == front;
  }

  lemma CompressedIsHex(s: string)
    requires Compressed(s)
    ensures HexText(s)
  {
    forall c | c in s ensures HexChar(c) {
      var k :| 0 <= k < |s| && s[k] == c;
    }
  }

  /** replace(/^0x/, "").trim().toLowerCase(). */
  function Cleaned(hex: string): string {
    Lower(TrimRight(TrimLeft(if |hex| >= 2 && hex[..2] == "0x" then hex[2..] else hex)))
  }

  /** hexToBytes: text of odd length is refused, any other is read pair by pair. */
  method HexToBytes(hex: string) returns (r: Result<seq<Byte>, AddressError>)
    ensures r == if |Cleaned(hex)| % 2 == 0 then Ok(FromHex(Cleaned(hex))) else Err(OddLength)
  {
    var clean := Cleaned(hex);
    if |clean| % 2 != 0 { return Err(OddLength); }
    var out := [];
    hide FromHex, PairAt;
    assert FromHex("") == [];
    for i := 0 to |clean| / 2
      invariant out == FromHex(clean[..2 * i])
    {
      FromHexNext(clean, 2 * i);
      assert 2 * (i + 1) == 2 * i + 2;
      out := out + [PairAt(clean, 2 * i)];
    }
    assert clean[..|clean|] == clean;
    r := Ok(out);
  }

  lemma FromHexNext(hex: string, n: nat)
    requires n % 2 == 0 && n + 2 <= |hex|
    ensures FromHex(hex[..n + 2]) == FromHex(hex[..n]) + [PairAt(hex, n)]
  {
    var next := hex[..n + 2];
    assert next[..n] == hex[..n];
  }

  /** Text that passed the pattern is cleaned already. */
  lemma CleanStays(s: string)
    requires Compressed(s)
    ensures Cleaned(s) == s
  {
    assert HexChar(s[65]);
    assert TrimLeft(s) == s && TrimRight(s) == s;
    CompressedIsHex(s);
    forall k | 0 <= k < |s| ensures Lower(s)[k] == s[k] { assert HexChar(s[k]); }
  }

  // ------------------------------------------------------------- the address

  function KeyHash(sha: Hash, ripe: Hash, key: string): seq<Byte>
    requires HexText(Normalized(key))
  {
    ripe(sha(FromHex(Normalized(key))))
  }

  function Checked(sha: Hash, payload: seq<Byte>): seq<Byte>
    requires |sha(sha(payload))| >= 4
  {
    payload + sha(sha(payload))[..4]
  }

  ghost predicate HashesOk(sha: Hash, ripe: Hash) {
    (forall b :: |sha(b)| == 32) && (forall b :: |ripe(b)| == 20)
  }

  /** What deriveP2pkhAddress returns or throws. */
  ghost function Address(sha: Hash, ripe: Hash, key: string, network: string): Result<string, AddressError>
    requires HashesOk(sha, ripe)
  {
    if network != "main" && network != "test" then Err(NoNetwork)
    else if !Compressed(Normalized(key)) then Err(BadKey)
    else
      CompressedIsHex(Normalized(key));
      var version := if network == "main" then MAIN_VERSION else TEST_VERSION;
      Ok(Encoded(Checked(sha, [version] + KeyHash(sha, ripe, key))))
  }

  method DeriveP2pkhAddress(sha: Hash, ripe: Hash, key: string, network: string)
    returns (r: Result<string, AddressError>)
    requires HashesOk(sha, ripe)
    ensures r == Address(sha, ripe, key, network)
  {
    if network != "main" && network != "test" { return Err(NoNetwork); }
    var normalized := Normalized(key);
    if !Compressed(normalized) { return Err(BadKey); }
    CompressedIsHex(normalized);
    CleanStays(normalized);
    var read := HexToBytes(normalized);
    if read.Err? { return Err(OddLength); }
    var pub := read.value;
    if |pub| != 33 { return Err(BadKey); }
    var version := if network == "main" then MAIN_VERSION else TEST_VERSION;
    var payload := [version] + ripe(sha(pub));
    var text := Encode(payload + sha(sha(payload))[..4]);
    assert text.Ok?;
    r := Ok(text.value);
  }

  // ------------------------------------------------------- length and prefix

  lemma {:induction false} PowAdd(b: nat, m: nat, n: nat)
    ensures Pow(b, m + n) == Pow(b, m) * Pow(b, n)
  {
    if m > 0 {
      PowAdd(b, m - 1, n);
      Associate(b, Pow(b, m - 1), Pow(b, n));
      assert m + n - 1 == m - 1 + n;
    }
  }

  lemma Associate(x: nat, y: nat, z: nat)
    ensures x * (y * z) == x * y * z
  { }

  lemma Powers()
    ensures Pow(256, 24) == 6277101735386680763835789423207666416102355444464034512896
    ensures Pow(58, 33) == 15599970876632771988160814054146447252125923204784443097088
  {
    assert Pow(58, 3) == 195112 by { assert Pow(58, 1) == 58 && Pow(58, 2) == 3364; }
    PowAdd(58, 3, 3);
    PowAdd(58, 6, 6);
    PowAdd(58, 12, 12);
    PowAdd(58, 24, 6);
    PowAdd(58, 30, 3);
    assert Pow(256, 3) == 16777216 by { assert Pow(256, 1) == 256 && Pow(256, 2) == 65536; }
    PowAdd(256, 3, 3);
    PowAdd(256, 6, 6);
    PowAdd(256, 12, 12);
  }

  lemma {:induction false} PowersDescend(k: nat)
    requires k <= 24
    ensures Pow(256, 24 - k) <= Pow(58, 33 - k)
  {
    if k == 0 {
      Powers();
    } else {
      PowersDescend(k - 1);
      assert 256 * Pow(256, 24 - k) <= 58 * Pow(58, 33 - k);
    }
  }

  /** Twenty-five bytes after a zero byte: the text begins with 1 and has at most 34 characters. */
  lemma ZeroVersion(bytes: seq<Byte>)
    requires |bytes| == 25 && bytes[0] == 0
    ensures Encoded(bytes)[..1] == "1" && |Encoded(bytes)| <= 34
  {
    var z := Zeros(bytes);
    assert z > 0;
    ValueSkipsZeros(bytes, z);
    hide Value, Zeros, Digits, Pow;
    if z < 25 {
      ValueBounds(bytes[z..]);
      Fits(bytes[z], Pow(256, 24 - z), Value(bytes));
      PowStep(24 - z);
      PowersDescend(z - 1);
      DigitsLength(Value(bytes), 34 - z);
    } else {
      assert bytes[z..] == [];
      NoDigits();
    }
  }

  lemma Fits(f: Byte, p: nat, v: nat)
    requires v < (f + 1) * p
    ensures v < 256 * p
  { assert (f + 1) * p <= 256 * p; }

  lemma PowStep(n: nat)
    ensures Pow(256, n + 1) == 256 * Pow(256, n)
  { }

  lemma NoDigits()
    ensures Value([]) == 0 && Digits(0) == ""
  { }

  /** Twenty-five bytes after 0x6f: exactly 34 characters, the first m or n. */
  lemma TestVersion(bytes: seq<Byte>)
    requires |bytes| == 25 && bytes[0] == 0x6f
    ensures |Encoded(bytes)| == 34 && (Encoded(bytes)[0] == 'm' || Encoded(bytes)[0] == 'n')
  {
    ValueBounds(bytes);
    Powers();
    var x := Value(bytes);
    assert 44 * Pow(58, 33) <= x < 46 * Pow(58, 33);
    assert Ones(Zeros(bytes)) == "";
    if x < 45 * Pow(58, 33) { DigitsOf(x, 44, 33); } else { DigitsOf(x, 45, 33); }
  }

  /** Every address has the shape of its network, and names its version and its key hash. */
  lemma AddressShape(sha: Hash, ripe: Hash, key: string, network: string)
    requires HashesOk(sha, ripe) && Address(sha, ripe, key, network).Ok?
    ensures HexText(Normalized(key))
    ensures var a := Address(sha, ripe, key, network).value;
            && Text(a)
            && Decoded(a) == Checked(sha,
              [if network == "main" then MAIN_VERSION else TEST_VERSION] + KeyHash(sha, ripe, key))
            && (network == "main" ==> a[..1] == "1" && |a| <= 34)
            && (network == "test" ==> |a| == 34 && (a[0] == 'm' || a[0] == 'n'))
  {
    CompressedIsHex(Normalized(key));
    var bytes := Checked(sha, [if network == "main" then MAIN_VERSION else TEST_VERSION] + KeyHash(sha, ripe, key));
    DecodeEncoded(bytes);
    if network == "main" { ZeroVersion(bytes); } else { TestVersion(bytes); }
  }

  /** Equal addresses come from the same network and the same key hash. */
  lemma AddressDetermines(sha: Hash, ripe: Hash, key1: string, network1: string, key2: string, network2: string)
    requires HashesOk(sha, ripe)
    requires Address(sha, ripe, key1, network1).Ok?
        && Address(sha, ripe, key1, network1) == Address(sha, ripe, key2, network2)
    ensures network1 == network2
    ensures HexText(Normalized(key1)) && HexText(Normalized(key2))
    ensures KeyHash(sha, ripe, key1) == KeyHash(sha, ripe, key2)
  {
    AddressShape(sha, ripe, key1, network1);
    AddressShape(sha, ripe, key2, network2);
    var a := Decoded(Address(sha, ripe, key1, network1).value);
    var v1 := [if network1 == "main" then MAIN_VERSION else TEST_VERSION];
    var v2 := [if network2 == "main" then MAIN_VERSION else TEST_VERSION];
    assert a[0] == v1[0] == v2[0];
    assert a[1..21] == KeyHash(sha, ripe, key1);
    assert a[1..21] == KeyHash(sha, ripe, key2);
  }
}
