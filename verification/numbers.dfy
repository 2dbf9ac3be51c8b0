/**
 * Number formatting and parsing from Go's `strconv` and `fmt` as used by the propagators:
 * `FormatUint(x, 10)`, `Itoa`, `Atoi`, `%016x` / `%032x` and `ParseUint(s, 16, 64)`.
 */
module Numbers {
  import opened Base

  predicate IsDigit(c: char) {
    '0' <= c <= '9'
  }

  predicate AllDigits(s: string) {
    forall i :: 0 <= i < |s| ==> IsDigit(s[i])
  }

  function DigitChar(d: nat): (c: char)
    requires d < 10
    ensures IsDigit(c)
  {
    ('0' as int + d) as char
  }

  /** The value of a string of decimal digits, most significant first. */
  function DigitsValue(s: string): nat
    requires AllDigits(s)
  {
    if s == [] then 0 else DigitsValue(s[..|s| - 1]) * 10 + (s[|s| - 1] as int - '0' as int)
  }

  /** `strconv.FormatUint(x, 10)`: the shortest decimal form of `x`. */
  function Decimal(x: nat): (r: string)
    ensures |r| >= 1 && AllDigits(r)
    ensures |r| > 1 ==> r[0] != '0'
  {
    if x < 10 then [DigitChar(x)] else Decimal(x / 10) + [DigitChar(x % 10)]
  }

  /** Decimal formatting is read back exactly. */
  lemma {:induction false} DecimalValue(x: nat)
    ensures DigitsValue(Decimal(x)) == x
  {
    if x >= 10 {
      DecimalValue(x / 10);
      var s := Decimal(x);
      assert s[..|s| - 1] == Decimal(x / 10);
    }
  }

  /** `strconv.Itoa`. */
  function Itoa(i: int): string {
    if i < 0 then "-" + Decimal(-i) else Decimal(i)
  }

  /** `Itoa` writes only decimal digits and a leading `-`. */
  lemma ItoaChars(i: int)
    ensures forall c :: c in Itoa(i) ==> c == '-' || IsDigit(c)
  {
    var d := Decimal(if i < 0 then -i else i);
    forall c | c in d ensures IsDigit(c) {
      var k :| 0 <= k < |d| && d[k] == c;
    }
  }

  /**
   * `strconv.Atoi` on a 64-bit platform: an optional `+` or `-`, at least one decimal digit,
   * and a value that fits in a signed 64-bit integer; anything else is an error (None).
   */
  function Atoi(s: string): (r: Option<Int64>)
    ensures r.Some? ==> |s| > 0
  {
    if |s| == 0 then None
    else
      var signed := s[0] == '-' || s[0] == '+';
      var body := if signed then s[1..] else s;
      if |body| == 0 || !AllDigits(body) then None
      else
        var v: int := DigitsValue(body);
        var n := if s[0] == '-' then -v else v;
        if -0x8000_0000_0000_0000 <= n < 0x8000_0000_0000_0000 then Some(n) else None
  }

  /** Every Go int survives `Itoa` followed by `Atoi`. */
  lemma AtoiItoa(i: Int64)
    ensures Atoi(Itoa(i)) == Some(i)
  {
    var s := Itoa(i);
    if i < 0 {
      var m: nat := -(i as int);
      DecimalValue(m);
      assert s == "-" + Decimal(m);
      assert s[0] == '-' && s[1..] == Decimal(m);
    } else {
      DecimalValue(i);
      assert s == Decimal(i);
      assert IsDigit(s[0]);
    }
  }

  /** Lower-case hexadecimal digit for a value below 16. */
  function HexChar(d: nat): char
    requires d < 16
  {
    if d < 10 then ('0' as int + d) as char else ('a' as int + d - 10) as char
  }

  /** A hexadecimal digit of either case, as `ParseUint(s, 16, 64)` accepts. */
  predicate IsHexDigit(c: char) {
    '0' <= c <= '9' || 'a' <= c <= 'f' || 'A' <= c <= 'F'
  }

  predicate AllHex(s: string) {
    forall i :: 0 <= i < |s| ==> IsHexDigit(s[i])
  }

  function HexDigitValue(c: char): (v: nat)
    requires IsHexDigit(c)
    ensures v < 16
  {
    if '0' <= c <= '9' then c as int - '0' as int
    else if 'a' <= c <= 'f' then c as int - 'a' as int + 10
    else c as int - 'A' as int + 10
  }

  function HexValue(s: string): nat
    requires AllHex(s)
  {
    if s == [] then 0 else HexValue(s[..|s| - 1]) * 16 + HexDigitValue(s[|s| - 1])
  }

  function Pow16(n: nat): (p: nat)
    ensures p >= 1
  {
    if n == 0 then 1 else 16 * Pow16(n - 1)
  }

  lemma Pow16Of16()
    ensures Pow16(16) == 0x1_0000_0000_0000_0000
  {
    assert Pow16(4) == 0x1_0000;
    assert Pow16(8) == 0x1_0000_0000 by { assert Pow16(8) == Pow16(4) * 0x1_0000 by { Pow16Add(4, 4); } }
    Pow16Add(8, 8);
  }

  lemma {:induction false} Pow16Add(a: nat, b: nat)
    ensures Pow16(a + b) == Pow16(a) * Pow16(b)
  {
    if b > 0 {
      Pow16Add(a, b - 1);
      assert Pow16(a + b) == 16 * Pow16(a + b - 1);
    }
  }

  /** `fmt.Sprintf("%0<width>x", x)` for a value that fits in `width` digits. */
  function HexDigits(x: nat, width: nat): (r: string)
    ensures |r| == width && AllHex(r)
    ensures forall i :: 0 <= i < |r| ==> !('A' <= r[i] <= 'Z')
  {
    if width == 0 then "" else HexDigits(x / 16, width - 1) + [HexChar(x % 16)]
  }

  /** Fixed-width hexadecimal formatting is read back exactly. */
  lemma {:induction false} HexDigitsValue(x: nat, width: nat)
    requires x < Pow16(width)
    ensures HexValue(HexDigits(x, width)) == x
  {
    if width > 0 {
      assert x / 16 < Pow16(width - 1);
      HexDigitsValue(x / 16, width - 1);
      var s := HexDigits(x, width);
      assert s[..|s| - 1] == HexDigits(x / 16, width - 1);
    }
  }

  /** The last `width` digits of a wider field are the `width`-digit field of the same value. */
  lemma {:induction false} HexDigitsSuffix(x: nat, width: nat, k: nat)
    ensures HexDigits(x, width + k)[k..] == HexDigits(x, width)
  {
    if width > 0 {
      HexDigitsSuffix(x / 16, width - 1, k);
      var s := HexDigits(x / 16, width - 1 + k);
      assert HexDigits(x, width + k) == s + [HexChar(x % 16)];
      assert (s + [HexChar(x % 16)])[k..] == s[k..] + [HexChar(x % 16)];
    }
  }

  /** A `width`-digit field holds its value modulo `16^width`: the higher digits are cut off. */
  lemma {:induction false} HexDigitsMod(x: nat, width: nat)
    ensures HexValue(HexDigits(x, width)) == x % Pow16(width)
  {
    if width > 0 {
      HexDigitsMod(x / 16, width - 1);
      var s := HexDigits(x, width);
      assert s[..|s| - 1] == HexDigits(x / 16, width - 1);
      LowDigit(x, Pow16(width - 1));
    }
  }

  /** Dropping the last hexadecimal digit and reducing modulo `p` commute with reducing modulo `16 p`. */
  lemma LowDigit(x: nat, p: nat)
    requires p >= 1
    ensures ((x / 16) % p) * 16 + x % 16 == x % (16 * p)
  {
    var q, r := x / 16, x % 16;
    var a, b := q / p, q % p;
    assert x == (16 * p) * a + (16 * b + r);
    ModOf(x, 16 * p, a, 16 * b + r);
  }

  /** The remainder is the unique `c` with `x == m * a + c` and `0 <= c < m`. */
  lemma ModOf(x: int, m: int, a: int, c: int)
    requires m > 0 && x == m * a + c && 0 <= c < m
    ensures x % m == c
  {
    var d := a - x / m;
    assert m * d == x % m - c;
    assert d == 0;
  }

  /** A value that fits in `width` digits gets one more leading zero at `width + 1`. */
  lemma {:induction false} HexDigitsPad(x: nat, width: nat)
    requires x < Pow16(width)
    ensures HexDigits(x, width + 1) == "0" + HexDigits(x, width)
  {
    if width == 0 {
    } else {
      assert x / 16 < Pow16(width - 1);
      HexDigitsPad(x / 16, width - 1);
    }
  }

  /** `fmt.Sprintf("%016x", x)` of a uint64. */
  function Hex16(x: U64): (r: string)
    ensures |r| == 16 && AllHex(r)
  {
    HexDigits(x, 16)
  }

  /** `fmt.Sprintf("%032x", x)` of a uint64. */
  function Hex32(x: U64): (r: string)
    ensures |r| == 32 && AllHex(r)
  {
    HexDigits(x, 32)
  }

  lemma {:induction false} Pow16Grows(a: nat, k: nat)
    ensures Pow16(a) <= Pow16(a + k)
  {
    if k > 0 {
      Pow16Grows(a, k - 1);
    }
  }

  /** `k` zero digits. */
  function Zeros(k: nat): (r: string)
    ensures |r| == k
  {
    seq(k, _ => '0')
  }

  /** Widening the field of a value that already fits only adds leading zeros. */
  lemma {:induction false} HexDigitsWiden(x: nat, width: nat, k: nat)
    requires x < Pow16(width)
    ensures HexDigits(x, width + k) == Zeros(k) + HexDigits(x, width)
  {
    if k > 0 {
      HexDigitsWiden(x, width, k - 1);
      Pow16Grows(width, k - 1);
      HexDigitsPad(x, width + k - 1);
      assert Zeros(k) == "0" + Zeros(k - 1);
    }
  }

  /** The 32-digit form is sixteen zeros followed by the 16-digit form. */
  lemma Hex32IsPaddedHex16(x: U64)
    ensures Hex32(x) == "0000000000000000" + Hex16(x)
  {
    Pow16Of16();
    HexDigitsWiden(x, 16, 16);
    assert Zeros(16) == "0000000000000000";
  }

  /**
   * `strconv.ParseUint(s, 16, 64)`: a non-empty string of hexadecimal digits of either case
   * whose value fits in 64 bits; anything else is an error (None).
   */
  function ParseHex(s: string): (r: Option<U64>)
    ensures r.Some? ==> |s| > 0 && AllHex(s)
  {
    if |s| == 0 || !AllHex(s) then None
    else if HexValue(s) < 0x1_0000_0000_0000_0000 then Some(HexValue(s))
    else None
  }

  /** Every uint64 survives `%016x` followed by `ParseUint(s, 16, 64)`. */
  lemma ParseHex16(x: U64)
    ensures ParseHex(Hex16(x)) == Some(x)
  {
    Pow16Of16();
    HexDigitsValue(x, 16);
  }

  /** `Itoa` of a 64-bit value is at most 19 digits and a sign. */
  lemma ItoaLength(p: int)
    requires -0x8000_0000_0000_0000 <= p < 0x8000_0000_0000_0000
    ensures |Itoa(p)| <= 20
  {
    assert Pow10(19) == 10_000_000_000_000_000_000 by { Pow10Value(); }
    if p < 0 {
      DecimalLength(-p, 19);
    } else {
      DecimalLength(p, 19);
    }
  }

  /** A value below `10^k` has at most `k` digits (one for zero). */
  lemma {:induction false} DecimalLength(x: nat, k: nat)
    requires x < Pow10(k)
    ensures |Decimal(x)| <= if k == 0 then 1 else k
  {
    if x >= 10 {
      DecimalLength(x / 10, k - 1);
    }
  }

  function Pow10(k: nat): (p: nat)
    ensures p >= 1
  {
    if k == 0 then 1 else 10 * Pow10(k - 1)
  }

  lemma Pow10Value()
    ensures Pow10(19) == 10_000_000_000_000_000_000
  {
    assert Pow10(4) == 10_000;
    assert Pow10(8) == 100_000_000 by { assert Pow10(8) == 10_000 * Pow10(4); }
    assert Pow10(12) == 1_000_000_000_000 by { assert Pow10(12) == 10_000 * Pow10(8); }
    assert Pow10(16) == 10_000_000_000_000_000 by { assert Pow10(16) == 10_000 * Pow10(12); }
  }
}
