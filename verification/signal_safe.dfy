/** Decimal rendering without allocation, for use after a fork. */
module SignalSafe {

  newtype u8 = x: int | 0 <= x < 0x100
  newtype i32 = x: int | -0x8000_0000 <= x < 0x8000_0000
  newtype i64 = x: int | -0x8000_0000_0000_0000 <= x < 0x8000_0000_0000_0000

  const BASE_ASCII: u8 := 48
  const MINUS_SIGN: u8 := 45
  const I32_STR_LEN: nat := 11

  // ---------- decimal numerals ----------

  /** The decimal numeral of a natural number, most significant digit first. */
  function Digits(n: nat): (s: seq<u8>)
    ensures s != []
  {
    (if n < 10 then [] else Digits(n / 10)) + [BASE_ASCII + (n % 10) as u8]
  }

  /** The digits of a number of which nothing is left at zero. */
  function Remaining(n: nat): seq<u8> {
    if n == 0 then [] else Digits(n)
  }

  function Decimal(n: int): seq<u8> {
    if n < 0 then [MINUS_SIGN] + Digits(-n) else Digits(n)
  }

  predicate IsDigit(b: u8) { BASE_ASCII <= b <= BASE_ASCII + 9 }

  /** Only digits, and no leading zero except in "0" itself. */
  predicate IsCanonicalNatural(s: seq<u8>) {
    s != [] && (forall i :: 0 <= i < |s| ==> IsDigit(s[i])) && (s[0] == BASE_ASCII ==> |s| == 1)
  }

  /** As above, after an optional minus sign, which "0" does not have. */
  predicate IsCanonical(s: seq<u8>) {
    if s != [] && s[0] == MINUS_SIGN then IsCanonicalNatural(s[1..]) && s[1] != BASE_ASCII
    else IsCanonicalNatural(s)
  }

  /** The number a numeral stands for. */
  function Value(s: seq<u8>): nat
    requires forall i :: 0 <= i < |s| ==> IsDigit(s[i])
  {
    if s == [] then 0
    else
      assert IsDigit(s[|s| - 1]);
      10 * Value(s[..|s| - 1]) + (s[|s| - 1] - BASE_ASCII) as int
  }

  function Parse(s: seq<u8>): int
    requires IsCanonical(s)
  {
    if s[0] == MINUS_SIGN then -(Value(s[1..]) as int) else Value(s)
  }

  lemma {:induction false} DigitsAreCanonical(n: nat)
    ensures IsCanonicalNatural(Digits(n)) && Value(Digits(n)) == n
    ensures Digits(n)[0] == BASE_ASCII <==> n == 0
  {
    var last := BASE_ASCII + (n % 10) as u8;
    if n < 10 {
      assert Digits(n) == [last];
      assert [last][..0] == [];
      assert Value([last]) == 10 * Value([]) + (n % 10);
    } else {
      DigitsAreCanonical(n / 10);
      assert Digits(n) == Digits(n / 10) + [last];
      assert Digits(n)[..|Digits(n)| - 1] == Digits(n / 10);
    }
  }

  lemma LastDigit(n: nat, d: nat)
    requires d < 10
    ensures (10 * n + d) / 10 == n && (10 * n + d) % 10 == d
  {
  }

  lemma DigitsStep(n: nat, d: nat)
    requires d < 10
    ensures Digits(10 * n + d) == Remaining(n) + [BASE_ASCII + d as u8]
  {
    LastDigit(n, d);
  }

  lemma {:induction false} CanonicalIsDigits(s: seq<u8>)
    requires IsCanonicalNatural(s)
    ensures Digits(Value(s)) == s
  {
    var most, d := s[..|s| - 1], (s[|s| - 1] - BASE_ASCII) as int;
    assert s == most + [BASE_ASCII + d as u8];
    if most != [] {
      assert most[0] == s[0];
      CanonicalIsDigits(most);
      LeadingDigitCounts(most);
    }
    assert Remaining(Value(most)) == most;
    hide Digits;
    DigitsStep(Value(most), d);
  }

  /** A numeral without leading zero stands for a positive number. */
  lemma {:induction false} LeadingDigitCounts(s: seq<u8>)
    requires s != [] && (forall i :: 0 <= i < |s| ==> IsDigit(s[i])) && s[0] != BASE_ASCII
    ensures Value(s) > 0
  {
    if |s| > 1 {
      assert s[..|s| - 1][0] == s[0];
      LeadingDigitCounts(s[..|s| - 1]);
    } else {
      assert s[..0] == [];
    }
  }

  /** Numerals are in ASCII, the most significant digit first. */
  lemma NumeralsAreAscii(n: int)
    ensures n < 0 ==> Decimal(n) == [45] + Decimal(-n)
    ensures 0 <= n < 10 ==> Decimal(n) == [48 + n as u8]
    ensures n >= 10 ==> Decimal(n) == Decimal(n / 10) + Decimal(n % 10)
  {
  }

  /** Rendering and parsing are inverse to each other: `Decimal` gives the one canonical numeral. */
  lemma DecimalRoundTrip(n: int)
    ensures IsCanonical(Decimal(n)) && Parse(Decimal(n)) == n
  {
    DigitsAreCanonical(if n < 0 then -n else n);
    if n < 0 {
      assert Decimal(n)[1..] == Digits(-n);
    }
  }

  lemma ParseRoundTrip(s: seq<u8>)
    requires IsCanonical(s)
    ensures Decimal(Parse(s)) == s
  {
    if s[0] == MINUS_SIGN {
      LeadingDigitCounts(s[1..]);
      CanonicalIsDigits(s[1..]);
      assert s == [MINUS_SIGN] + s[1..];
    } else {
      CanonicalIsDigits(s);
    }
  }

  // ---------- the loop ----------

  function Pow10(k: nat): nat {
    if k == 0 then 1 else 10 * Pow10(k - 1)
  }

  lemma TenDigitsAreEnough(n: nat)
    requires n <= 0x8000_0000
    ensures n < Pow10(10)
  {
    assert Pow10(3) == 1000;
    assert Pow10(6) == 1000 * Pow10(3);
    assert Pow10(10) == 10_000 * Pow10(6);
  }

  lemma OneDigitLess(n: nat, k: nat)
    requires 0 < n < Pow10(k)
    ensures k > 0 && n / 10 < Pow10(k - 1)
  {
  }

  /** Splits off the last digit; the subtraction makes the division exact. */
  method SplitDigit(num: i64) returns (n: u8, rest: i64)
    requires num > 0
    ensures 0 <= n < 10 && n as int == num as int % 10
    ensures 0 <= rest < num && rest as int == num as int / 10
  {
    n := (num % 10) as u8;
    rest := (num - n as i64) / 10;
  }

  lemma RemainingStep(n: nat)
    requires n > 0
    ensures Remaining(n) == Remaining(n / 10) + [BASE_ASCII + (n % 10) as u8]
  {
  }

  /** Moving the last digit from what remains to what is written keeps the whole. */
  lemma MoveDigit(target: seq<u8>, n: nat, written: seq<u8>, digit: u8)
    requires n > 0 && target == Remaining(n) + written && digit == BASE_ASCII + (n % 10) as u8
    ensures target == Remaining(n / 10) + ([digit] + written)
  {
    RemainingStep(n);
  }

  /** Writes one more byte in front of the `digits` bytes at the end of the buffer. */
  method Prepend(ret: array<u8>, digits: nat, b: u8)
    requires digits < ret.Length
    modifies ret
    ensures ret[ret.Length - (digits + 1)..] == [b] + old(ret[ret.Length - digits..])
  {
    var index := ret.Length - 1 - digits;
    ret[index] := b;
  }

  /** Writes a number without sign at the end of the buffer, from the last digit to the first. */
  method WriteMagnitude(ret: array<u8>, num: i64) returns (digits: nat)
    requires ret.Length == I32_STR_LEN && 0 <= num <= 0x8000_0000
    modifies ret
    ensures digits <= 10 && ret[I32_STR_LEN - digits..] == Digits(num as int)
  {
    digits := 0;
    if num == 0 {
      Prepend(ret, digits, BASE_ASCII);
      digits := digits + 1;
      return;
    }
    var rest := num;
    ghost var target := Remaining(num as int);
    TenDigitsAreEnough(num as int);
    assert ret[I32_STR_LEN..] == [];
    while rest != 0
      invariant rest >= 0 && digits <= 10
      invariant rest > 0 ==> (rest as int) < Pow10(10 - digits)
      invariant target == Remaining(rest as int) + ret[I32_STR_LEN - digits..]
      decreases rest
    {
      hide Remaining, Digits, Pow10;
      OneDigitLess(rest as int, 10 - digits);
      var n, most := SplitDigit(rest);
      MoveDigit(target, rest as int, ret[I32_STR_LEN - digits..], n + BASE_ASCII);
      Prepend(ret, digits, n + BASE_ASCII);
      rest, digits := most, digits + 1;
    }
  }

  /** Fills an eleven byte buffer from the right, for every 32 bit number: no index leaves the buffer, no
      operation overflows, and the bytes from `start` on are the decimal numeral of the argument. */
  method I32ToStrBytes(num: i32) returns (ret: array<u8>, start: nat)
    ensures fresh(ret) && ret.Length == I32_STR_LEN && start <= I32_STR_LEN
    ensures ret[start..] == Decimal(num as int)
  {
    ret := new u8[I32_STR_LEN](_ => 0);
    var isNegative := num < 0;
    var digits := WriteMagnitude(ret, if isNegative then num as i64 * -1 else num as i64);
    if isNegative {
      Prepend(ret, digits, MINUS_SIGN);
      digits := digits + 1;
    }
    start := I32_STR_LEN - digits;
  }
}
