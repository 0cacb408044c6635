/** South African identity numbers: the client-side checksum test applied at
    sign-up, and the hexadecimal rendering of the ID hash. */
module SAIdNumber {
  import opened Text

  /** `/^\d{13}$/`. */
  predicate IsThirteenDigits(s: string)
  {
    |s| == 13 && AllDigits(s)
  }

  /** `idNumber.split("").map(Number)`. */
  function Digits(s: string): (d: seq<nat>)
    requires AllDigits(s)
    ensures |d| == |s|
    ensures forall i :: 0 <= i < |s| ==> d[i] == DigitValue(s[i])
  {
    seq(|s|, i requires 0 <= i < |s| => DigitValue(s[i]))
  }

  predicate AreDigits(d: seq<nat>)
  {
    forall i :: 0 <= i < |d| ==> d[i] < 10
  }

  /** `Number(str)` for a string of decimal digits, given as their values. */
  function NumberOf(ds: seq<nat>): nat
  {
    if ds == [] then 0 else NumberOf(ds[..|ds| - 1]) * 10 + ds[|ds| - 1]
  }

  /** `n.toString()` for a non-negative integer. */
  function DecimalString(n: nat): (s: string)
    ensures s != [] && AllDigits(s)
  {
    if n < 10 then [DigitChar(n)] else DecimalString(n / 10) + [DigitChar(n % 10)]
  }

  /** `s.split("").reduce((a, b) => a + Number(b), 0)`. */
  function SumOfDigitChars(s: string): nat
    requires AllDigits(s)
  {
    if s == [] then 0 else SumOfDigitChars(s[..|s| - 1]) + DigitValue(s[|s| - 1])
  }

  /** The sum of the decimal digits of `n`. */
  function DigitSum(n: nat): nat
  {
    if n < 10 then n else DigitSum(n / 10) + n % 10
  }

  /** Rendering a number and adding its digit characters is its digit sum. */
  lemma {:induction false} DigitCharsSum(n: nat)
    ensures SumOfDigitChars(DecimalString(n)) == DigitSum(n)
  {
    if n >= 10 {
      DigitCharsSum(n / 10);
      var s := DecimalString(n);
      assert s[..|s| - 1] == DecimalString(n / 10);
    }
  }

  /** The digits at even positions below `n` (0, 2, 4, ...), added unweighted. */
  function EvenSumBelow(d: seq<nat>, n: nat): nat
    requires n <= |d|
  {
    if n == 0 then 0 else EvenSumBelow(d, n - 1) + (if (n - 1) % 2 == 0 then d[n - 1] else 0)
  }

  /** `digits.filter((_, i) => i % 2 !== 0)` restricted to positions below `n`. */
  function OddDigitsBelow(d: seq<nat>, n: nat): seq<nat>
    requires n <= |d|
  {
    if n == 0 then [] else OddDigitsBelow(d, n - 1) + (if (n - 1) % 2 == 1 then [d[n - 1]] else [])
  }

  /** The value `sum` holds before the final comparison: the even-position digits
      0..10, plus the digit sum of twice the number formed by the odd-position digits. */
  function Checksum(d: seq<nat>): nat
    requires |d| == 13
  {
    EvenSumBelow(d, 12) + DigitSum(2 * NumberOf(OddDigitsBelow(d, 13)))
  }

  function CheckDigitFor(sum: nat): (c: nat)
    ensures c < 10 && (sum + c) % 10 == 0
  {
    (10 - sum % 10) % 10
  }

  /** What `validateSAIdNumber` accepts. */
  predicate IsValidSAId(s: string)
  {
    IsThirteenDigits(s) && Digits(s)[12] == CheckDigitFor(Checksum(Digits(s)))
  }

  /** `validateSAIdNumber`: the format test, then the checksum accumulated in `sum`. */
  method ValidateSAIdNumber(idNumber: string) returns (ok: bool)
    ensures ok == IsValidSAId(idNumber)
    ensures !IsThirteenDigits(idNumber) ==> !ok
  {
    if !IsThirteenDigits(idNumber) {
      return false;
    }
    var digits := Digits(idNumber);
    var sum := 0;
    var i := 0;
    while i < 12
      invariant 0 <= i <= 12 && i % 2 == 0
      invariant sum == EvenSumBelow(digits, i)
    {
      sum := sum + digits[i];
      i := i + 2;
    }
    var evenSum := NumberOf(OddDigitsBelow(digits, 13));
    var doubled := DecimalString(evenSum * 2);
    DigitCharsSum(evenSum * 2);
    sum := sum + SumOfDigitChars(doubled);
    ok := (10 - sum % 10) % 10 == digits[12];
  }

  // ---------------------------------------------------------------------------
  // The check digit is determined by the first twelve digits.

  lemma {:induction false} EvenSumIgnoresLater(d: seq<nat>, e: seq<nat>, n: nat)
    requires n <= |d| && n <= |e| && d[..n] == e[..n]
    ensures EvenSumBelow(d, n) == EvenSumBelow(e, n)
  {
    if n > 0 {
      assert d[..n - 1] == d[..n][..n - 1] && e[..n - 1] == e[..n][..n - 1];
      assert d[n - 1] == d[..n][n - 1] && e[n - 1] == e[..n][n - 1];
      EvenSumIgnoresLater(d, e, n - 1);
    }
  }

  lemma {:induction false} OddDigitsIgnoreLater(d: seq<nat>, e: seq<nat>, n: nat)
    requires n <= |d| && n <= |e| && d[..n] == e[..n]
    ensures OddDigitsBelow(d, n) == OddDigitsBelow(e, n)
  {
    if n > 0 {
      assert d[..n - 1] == d[..n][..n - 1] && e[..n - 1] == e[..n][..n - 1];
      assert d[n - 1] == d[..n][n - 1] && e[n - 1] == e[..n][n - 1];
      OddDigitsIgnoreLater(d, e, n - 1);
    }
  }

  /** Position 12 (the check digit) never enters the sum. */
  lemma ChecksumIgnoresCheckDigit(d: seq<nat>, e: seq<nat>)
    requires |d| == 13 && |e| == 13 && d[..12] == e[..12]
    ensures Checksum(d) == Checksum(e)
  {
    EvenSumIgnoresLater(d, e, 12);
    OddDigitsIgnoreLater(d, e, 12);
  }

  /** The check digit that completes a twelve-digit prefix. */
  function CheckDigitChar(prefix: string): (c: char)
    requires |prefix| == 12 && AllDigits(prefix)
    ensures IsDigit(c)
  {
    DigitChar(CheckDigitFor(Checksum(Digits(prefix) + [0])))
  }

  /** For every twelve-digit prefix exactly one final digit is accepted. */
  lemma UniqueCheckDigit(prefix: string, c: char)
    requires |prefix| == 12 && AllDigits(prefix) && IsDigit(c)
    ensures IsValidSAId(prefix + [c]) <==> c == CheckDigitChar(prefix)
  {
    var s := prefix + [c];
    assert AllDigits(s) by {
      forall i | 0 <= i < |s| ensures IsDigit(s[i]) {
        if i < 12 { assert s[i] == prefix[i]; }
      }
    }
    var d := Digits(s);
    var e := Digits(prefix) + [0];
    assert d[..12] == e[..12];
    ChecksumIgnoresCheckDigit(d, e);
    var k := CheckDigitFor(Checksum(e));
    assert d[12] == DigitValue(c);
    assert DigitValue(DigitChar(k)) == k;
    if DigitValue(c) == k {
      assert c as int == ('0' as int) + k;
    }
  }

  // ---------------------------------------------------------------------------
  // Agreement with the per-digit Luhn formula (ISO/IEC 7812-1, Annex B).

  /** Sum of the digit sums of each doubled digit. */
  function DoubledDigitSums(ds: seq<nat>): nat
  {
    if ds == [] then 0 else DoubledDigitSums(ds[..|ds| - 1]) + DigitSum(2 * ds[|ds| - 1])
  }

  lemma DigitSumShift(q: nat, r: nat)
    requires r < 10
    ensures DigitSum(10 * q + r) == DigitSum(q) + r
  {
    if q > 0 {
      assert (10 * q + r) / 10 == q && (10 * q + r) % 10 == r;
    }
  }

  /** Adding one to an even number adds one to its digit sum (no carry). */
  lemma DigitSumSucc(m: nat)
    requires m % 2 == 0
    ensures DigitSum(m + 1) == DigitSum(m) + 1
  {
    var q, r := m / 10, m % 10;
    assert r % 2 == 0 && r + 1 < 10;
    DigitSumShift(q, r);
    DigitSumShift(q, r + 1);
    assert m + 1 == 10 * q + (r + 1);
  }

  /** Appending a doubled digit to an even number: its digits add up to the
      number's own digit sum plus the digit sum of the doubled digit. */
  lemma DoubledStep(m: nat, x: nat)
    requires m % 2 == 0 && x < 10
    ensures DigitSum(10 * m + 2 * x) == DigitSum(m) + DigitSum(2 * x)
  {
    if x < 5 {
      DigitSumShift(m, 2 * x);
    } else {
      var r := 2 * x - 10;
      assert 10 * m + 2 * x == 10 * (m + 1) + r;
      DigitSumShift(m + 1, r);
      DigitSumSucc(m);
      DigitSumShift(1, r);
    }
  }

  /** The carry argument: doubling a whole number and adding its digits gives
      the same total as doubling each digit and adding the digits of each product. */
  lemma {:induction false} DoubledNumberDigitSum(ds: seq<nat>)
    requires AreDigits(ds)
    ensures DigitSum(2 * NumberOf(ds)) == DoubledDigitSums(ds)
  {
    if ds != [] {
      var p, x := ds[..|ds| - 1], ds[|ds| - 1];
      assert AreDigits(p) by {
        forall i | 0 <= i < |p| ensures p[i] < 10 { assert p[i] == ds[i]; }
      }
      DoubledNumberDigitSum(p);
      var m := 2 * NumberOf(p);
      assert 2 * NumberOf(ds) == 10 * m + 2 * x;
      DoubledStep(m, x);
    }
  }

  /** One Luhn term: positions 1, 3, ..., 11 (odd distance from the check
      digit) are doubled and reduced to their digit sum. */
  function LuhnTerm(d: seq<nat>, i: nat): nat
    requires i < |d|
  {
    if i % 2 == 1 then DigitSum(2 * d[i]) else d[i]
  }

  function LuhnSumBelow(d: seq<nat>, n: nat): nat
    requires n <= |d|
  {
    if n == 0 then 0 else LuhnSumBelow(d, n - 1) + LuhnTerm(d, n - 1)
  }

  lemma {:induction false} LuhnSplit(d: seq<nat>, n: nat)
    requires n <= |d|
    ensures LuhnSumBelow(d, n) == EvenSumBelow(d, n) + DoubledDigitSums(OddDigitsBelow(d, n))
  {
    if n > 0 {
      LuhnSplit(d, n - 1);
      var o := OddDigitsBelow(d, n - 1);
      if (n - 1) % 2 == 1 {
        assert (o + [d[n - 1]])[..|o|] == o;
      } else {
        assert OddDigitsBelow(d, n) == o;
      }
    }
  }

  lemma {:induction false} OddDigitsAreDigits(d: seq<nat>, n: nat)
    requires n <= |d| && AreDigits(d)
    ensures AreDigits(OddDigitsBelow(d, n))
  {
    if n > 0 {
      OddDigitsAreDigits(d, n - 1);
    }
  }

  /** The check accepts exactly the thirteen-digit strings whose Luhn sum over
      all thirteen digits is a multiple of ten. */
  lemma LuhnEquivalence(s: string)
    ensures IsValidSAId(s) <==> IsThirteenDigits(s) && LuhnSumBelow(Digits(s), 13) % 10 == 0
  {
    if IsThirteenDigits(s) {
      var d := Digits(s);
      assert AreDigits(d);
      OddDigitsAreDigits(d, 13);
      DoubledNumberDigitSum(OddDigitsBelow(d, 13));
      LuhnSplit(d, 13);
      assert OddDigitsBelow(d, 13) == OddDigitsBelow(d, 12);
      assert EvenSumBelow(d, 13) == EvenSumBelow(d, 12) + d[12];
      var sum := Checksum(d);
      assert LuhnSumBelow(d, 13) == sum + d[12];
      CheckDigitIff(sum, d[12]);
    }
  }

  lemma CheckDigitIff(sum: nat, c: nat)
    requires c < 10
    ensures c == CheckDigitFor(sum) <==> (sum + c) % 10 == 0
  {
    var r := sum % 10;
    assert (sum + c) % 10 == (r + c) % 10;
  }

  // ---------------------------------------------------------------------------
  // `hashArray.map((b) => b.toString(16).padStart(2, "0")).join("")`

  type Byte = b: nat | b < 256

  function HexDigit(v: nat): (c: char)
    requires v < 16
    ensures ('0' <= c <= '9') || ('a' <= c <= 'f')
  {
    if v < 10 then (('0' as int) + v) as char else (('a' as int) + v - 10) as char
  }

  /** `b.toString(16)`: lower-case, no leading zero. */
  function ToHex(b: Byte): string
  {
    if b < 16 then [HexDigit(b)] else [HexDigit(b / 16), HexDigit(b % 16)]
  }

  /** `s.padStart(2, "0")`. */
  function PadStart2(s: string): string
  {
    if |s| == 0 then "00" else if |s| == 1 then "0" + s else s
  }

  /** `hashArray.map(...).join("")`. */
  function HexEncode(bytes: seq<Byte>): string
  {
    if bytes == [] then "" else PadStart2(ToHex(bytes[0])) + HexEncode(bytes[1..])
  }

  /** `b.toString(16).padStart(2, "0")` is the two nibbles, high first. */
  lemma PaddedHexIsNibbles(b: Byte)
    ensures PadStart2(ToHex(b)) == [HexDigit(b / 16), HexDigit(b % 16)]
  {
    if b < 16 {
      assert b / 16 == 0 && b % 16 == b;
    }
  }

  /** Every byte becomes exactly two lower-case hex characters, high nibble
      first, zero-padded, in byte order. */
  lemma {:induction false} HexEncodeLayout(bytes: seq<Byte>)
    ensures |HexEncode(bytes)| == 2 * |bytes|
    ensures forall i :: 0 <= i < |bytes| ==>
      HexEncode(bytes)[2 * i] == HexDigit(bytes[i] / 16) && HexEncode(bytes)[2 * i + 1] == HexDigit(bytes[i] % 16)
  {
    if bytes != [] {
      var rest := bytes[1..];
      HexEncodeLayout(rest);
      var b := bytes[0];
      PaddedHexIsNibbles(b);
      var t := PadStart2(ToHex(b));
      var h := HexEncode(rest);
      assert HexEncode(bytes) == t + h;
      forall i | 0 <= i < |bytes|
        ensures HexEncode(bytes)[2 * i] == HexDigit(bytes[i] / 16)
        ensures HexEncode(bytes)[2 * i + 1] == HexDigit(bytes[i] % 16)
      {
        if i > 0 {
          assert bytes[i] == rest[i - 1];
          assert 2 * i == 2 * (i - 1) + 2;
          assert (t + h)[2 * i] == h[2 * (i - 1)] && (t + h)[2 * i + 1] == h[2 * (i - 1) + 1];
        }
      }
    }
  }

  function HexValue(c: char): nat
  {
    if '0' <= c <= '9' then (c as int) - ('0' as int)
    else if 'a' <= c <= 'f' then (c as int) - ('a' as int) + 10
    else 0
  }

  /** Reading a hex string back, two characters per byte. */
  function HexDecode(s: string): seq<nat>
  {
    if |s| < 2 then [] else [16 * HexValue(s[0]) + HexValue(s[1])] + HexDecode(s[2..])
  }

  lemma HexDigitValue(v: nat)
    requires v < 16
    ensures HexValue(HexDigit(v)) == v
  {
  }

  /** The encoding loses nothing: decoding gives back the bytes. */
  lemma {:induction false} HexRoundTrip(bytes: seq<Byte>)
    ensures HexDecode(HexEncode(bytes)) == bytes
  {
    if bytes != [] {
      var b := bytes[0];
      PaddedHexIsNibbles(b);
      HexDigitValue(b / 16);
      HexDigitValue(b % 16);
      HexRoundTrip(bytes[1..]);
      var s := HexEncode(bytes);
      assert s[2..] == HexEncode(bytes[1..]);
      assert 16 * (b / 16) + b % 16 == b;
    }
  }
}
