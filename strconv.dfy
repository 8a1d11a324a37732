/** The parts of Go's `strconv` package (and `fmt`'s `%d`) that the client calls,
    over ASCII decimal text. */
module GoStrconv {
  import opened Wrappers
  import opened GoStrings

  predicate IsDigit(c: char)
  {
    '0' <= c <= '9'
  }

  predicate AllDigits(s: string)
  {
    forall i :: 0 <= i < |s| ==> IsDigit(s[i])
  }

  function DigitValue(c: char): nat
    requires IsDigit(c)
  {
    (c as int) - ('0' as int)
  }

  function Digit(d: nat): (c: char)
    requires d < 10
    ensures IsDigit(c) && DigitValue(c) == d
  {
    ('0' as int + d) as char
  }

  /** The number a string of decimal digits denotes (leading zeros allowed). */
  function DigitsValue(s: string): nat
    requires AllDigits(s)
  {
    if |s| == 0 then 0 else DigitsValue(s[..|s| - 1]) * 10 + DigitValue(s[|s| - 1])
  }

  function Pow10(n: nat): (r: nat)
    ensures r >= 1
  {
    if n == 0 then 1 else 10 * Pow10(n - 1)
  }

  /** A string of k digits denotes a number below 10^k. */
  lemma {:induction false} DigitsValueBound(s: string)
    requires AllDigits(s)
    ensures DigitsValue(s) < Pow10(|s|)
  {
    if |s| > 0 {
      DigitsValueBound(s[..|s| - 1]);
    }
  }

  /** Appending digits shifts the value: value(a + b) == value(a) * 10^|b| + value(b). */
  lemma {:induction false} DigitsValueAppend(a: string, b: string)
    requires AllDigits(a) && AllDigits(b)
    ensures AllDigits(a + b)
    ensures DigitsValue(a + b) == DigitsValue(a) * Pow10(|b|) + DigitsValue(b)
    decreases |b|
  {
    if |b| == 0 {
      assert a + b == a;
    } else {
      var b', last := b[..|b| - 1], b[|b| - 1];
      assert (a + b)[..|a + b| - 1] == a + b';
      assert (a + b)[|a + b| - 1] == last;
      DigitsValueAppend(a, b');
      var x, y := DigitsValue(a), DigitsValue(b');
      assert DigitsValue(a + b) == (x * Pow10(|b'|) + y) * 10 + DigitValue(last);
      assert DigitsValue(b) == y * 10 + DigitValue(last);
      assert Pow10(|b|) == 10 * Pow10(|b'|);
      assert (x * Pow10(|b'|) + y) * 10 == x * (10 * Pow10(|b'|)) + y * 10 by {
        MulShift(x, Pow10(|b'|), y);
      }
    }
  }

  lemma MulShift(x: int, p: int, y: int)
    ensures (x * p + y) * 10 == x * (10 * p) + y * 10
  {
  }

  /** A longer digit prefix never denotes a smaller number. */
  lemma {:induction false} DigitsValuePrefix(s: string, j: nat)
    requires AllDigits(s) && j <= |s|
    ensures DigitsValue(s[..j]) <= DigitsValue(s)
    decreases |s| - j
  {
    if j < |s| {
      DigitsValuePrefix(s, j + 1);
      assert s[..j + 1][..j] == s[..j];
    } else {
      assert s[..j] == s;
    }
  }

  /** The decimal digits of n, most significant first, without leading zeros. */
  function NatToDigits(n: nat): (s: string)
    ensures AllDigits(s) && |s| >= 1
    ensures |s| > 1 ==> s[0] != '0'
  {
    if n < 10 then [Digit(n)] else NatToDigits(n / 10) + [Digit(n % 10)]
  }

  /** Reading the digits of n gives n back. */
  lemma {:induction false} NatToDigitsValue(n: nat)
    ensures DigitsValue(NatToDigits(n)) == n
  {
    if n >= 10 {
      NatToDigitsValue(n / 10);
      var s := NatToDigits(n);
      assert s[..|s| - 1] == NatToDigits(n / 10);
    }
  }

  /** Different numbers are written differently, so the text of a number identifies it. */
  lemma NatToDigitsInjective(m: nat, n: nat)
    requires NatToDigits(m) == NatToDigits(n)
    ensures m == n
  {
    NatToDigitsValue(m);
    NatToDigitsValue(n);
  }

  /** fmt.Sprintf("%d", i) and strconv.Itoa. */
  function Itoa(i: int): (s: string)
    ensures |s| >= 1
    ensures i < 0 <==> s[0] == '-'
  {
    if i < 0 then "-" + NatToDigits(-i) else NatToDigits(i)
  }

  lemma ItoaInjective(i: int, j: int)
    requires Itoa(i) == Itoa(j)
    ensures i == j
  {
    if i < 0 {
      assert Itoa(i)[1..] == NatToDigits(-i);
      assert Itoa(j)[1..] == NatToDigits(-j);
      NatToDigitsInjective(-i, -j);
    } else {
      NatToDigitsInjective(i, j);
    }
  }

  /** The length of the longest prefix made of decimal digits. */
  function DigitRun(s: string): (k: nat)
    ensures k <= |s| && AllDigits(s[..k])
    ensures k < |s| ==> !IsDigit(s[k])
  {
    if |s| == 0 || !IsDigit(s[0]) then 0
    else
      var k := DigitRun(s[1..]);
      assert s[..k + 1] == [s[0]] + s[1..][..k];
      k + 1
  }

  lemma {:induction false} DigitRunAll(s: string)
    ensures AllDigits(s) <==> DigitRun(s) == |s|
  {
    if DigitRun(s) == |s| {
      assert s[..|s|] == s;
    }
    if |s| > 0 {
      DigitRunAll(s[1..]);
    }
  }

  /** The two failures of strconv: strconv.ErrSyntax and strconv.ErrRange. */
  datatype NumError = ErrSyntax | ErrRange

  /** What a strconv parse returns: Go hands back a value together with the error. */
  datatype Parsed = Parsed(value: int, err: Option<NumError>)

  /** 2^32 and 2^64: the values below them fit ParseUint's 32 and 64 bits. */
  const Limit32: nat := 4294967296
  const Limit64: nat := 18446744073709551616

  /** 2^31 and 2^63: ParseInt's 32 and 64 bits hold the values from -cutoff to
      cutoff - 1. */
  const Cutoff32: nat := 2147483648
  const Cutoff64: nat := 9223372036854775808

  /** strconv.ParseUint(s, 10, bitSize) with limit = 2^bitSize. Go reads the digits
      from the left and stops at the first character that is not a digit (a syntax
      error, value 0) or at the first digit that takes the value to the limit or past
      it (a range error, value limit - 1), whichever comes first. */
  function ParseUint(s: string, limit: nat): (r: Parsed)
    requires limit >= 1
    ensures r.err == None <==> |s| > 0 && AllDigits(s) && DigitsValue(s) < limit
    ensures r.err == None ==> r.value == DigitsValue(s)
    ensures r.err == Some(ErrSyntax) ==> r.value == 0
    ensures r.err == Some(ErrRange) ==> r.value == limit - 1
  {
    var k := DigitRun(s);
    var maxVal := limit - 1;
    DigitRunAll(s);
    assert k == |s| ==> s[..k] == s;
    if |s| == 0 then Parsed(0, Some(ErrSyntax))
    else if DigitsValue(s[..k]) > maxVal then Parsed(maxVal, Some(ErrRange))
    else if k < |s| then
      assert !IsDigit(s[k]);
      Parsed(0, Some(ErrSyntax))
    else
      assert s[..k] == s;
      Parsed(DigitsValue(s), None)
  }

  /** strconv.ParseInt(s, 10, bitSize) with cutoff = 2^(bitSize-1): an optional sign,
      then the digits as for ParseUint; out-of-range values are clamped to the
      nearest bound. */
  function ParseInt(s: string, cutoff: nat): (r: Parsed)
    requires cutoff >= 1
    ensures r.err == None ==> -(cutoff as int) <= r.value < cutoff
    ensures r.err == Some(ErrSyntax) ==> r.value == 0
    ensures r.err == Some(ErrRange) ==> r.value == (if |s| > 0 && s[0] == '-' then -(cutoff as int) else cutoff - 1)
  {
    if |s| == 0 then Parsed(0, Some(ErrSyntax))
    else
      var neg := s[0] == '-';
      var body := if s[0] == '+' || s[0] == '-' then s[1..] else s;
      var u := ParseUint(body, 2 * cutoff);
      if u.err == Some(ErrSyntax) then Parsed(0, Some(ErrSyntax))
      else if !neg && u.value >= cutoff then Parsed(cutoff - 1, Some(ErrRange))
      else if neg && u.value > cutoff then Parsed(-(cutoff as int), Some(ErrRange))
      else Parsed(if neg then -u.value else u.value, None)
  }

  /** strconv.ParseInt(s, 10, 32), as the parsers call it. */
  function ParseInt32(s: string): Parsed
  {
    ParseInt(s, Cutoff32)
  }

  /** strconv.ParseInt(s, 10, 64). */
  function ParseInt64(s: string): Parsed
  {
    ParseInt(s, Cutoff64)
  }

  /** Text made only of digits parses as the number it denotes, unless that number
      is out of range. */
  lemma ParseIntDigits(s: string, cutoff: nat)
    requires cutoff >= 1 && |s| > 0 && AllDigits(s)
    ensures DigitsValue(s) < cutoff ==> ParseInt(s, cutoff) == Parsed(DigitsValue(s), None)
    ensures DigitsValue(s) >= cutoff ==> ParseInt(s, cutoff) == Parsed(cutoff - 1, Some(ErrRange))
    ensures ParseInt(s, cutoff).err != Some(ErrSyntax)
  {
    assert IsDigit(s[0]);
    DigitRunAll(s);
    assert s[..|s|] == s;
  }

  /** Formatting with %d and parsing back with ParseInt is the identity on every
      value that fits the bit size. */
  lemma ParseIntItoa(i: int, cutoff: nat)
    requires cutoff >= 1
    requires -(cutoff as int) <= i < cutoff
    ensures ParseInt(Itoa(i), cutoff) == Parsed(i, None)
  {
    var n: nat := if i < 0 then -i else i;
    var d := NatToDigits(n);
    NatToDigitsValue(n);
    DigitRunAll(d);
    assert d[..|d|] == d;
    assert d[0] != '-' && d[0] != '+' by { assert IsDigit(d[0]); }
    if i < 0 {
      assert Itoa(i)[1..] == d;
    }
  }

  /** A finite decimal number: -1^negative * mantissa / 10^scale. Go's ParseFloat
      produces a float64; the model keeps the exact decimal the text spells. */
  datatype Decimal = Decimal(negative: bool, mantissa: nat, scale: nat)

  const DecimalZero := Decimal(false, 0, 0)
  const DecimalMinusOne := Decimal(true, 1, 0)

  /** strconv.ParseFloat(s, 64) on plain decimal notation: an optional sign, digits,
      and at most one '.', with at least one digit in all ("5", "5.", ".5", "-1.25").
      Any other text is an error (None). */
  function ParseDecimal(s: string): (r: Option<Decimal>)
    ensures r.Some? ==> (r.value.negative <==> |s| > 0 && s[0] == '-')
  {
    var neg := |s| > 0 && s[0] == '-';
    var body := if |s| > 0 && (s[0] == '+' || s[0] == '-') then s[1..] else s;
    match UnsignedDecimal(body)
    case None => None
    case Some(d) => Some(d.(negative := neg))
  }

  /** The unsigned part: digits with at most one '.' and at least one digit. */
  function UnsignedDecimal(body: string): Option<Decimal>
  {
    var dot := IndexOf(body, '.');
    if dot == -1 then
      if |body| > 0 && AllDigits(body) then Some(Decimal(false, DigitsValue(body), 0)) else None
    else
      var whole := body[..dot];
      var frac := body[dot + 1..];
      if |whole| + |frac| > 0 && AllDigits(whole) && AllDigits(frac) then
        DigitsValueAppend(whole, frac);
        Some(Decimal(false, DigitsValue(whole + frac), |frac|))
      else None
  }

  /** A number written as digits, a point, and digits is read exactly. */
  lemma ParseDecimalPoint(whole: string, frac: string)
    requires AllDigits(whole) && AllDigits(frac) && |whole| + |frac| > 0
    ensures AllDigits(whole + frac)
    ensures ParseDecimal(whole + "." + frac) == Some(Decimal(false, DigitsValue(whole + frac), |frac|))
  {
    var s := whole + "." + frac;
    assert '.' !in whole by {
      forall i | 0 <= i < |whole| ensures whole[i] != '.' { assert IsDigit(whole[i]); }
    }
    assert s[|whole|] == '.';
    assert s[..|whole|] == whole;
    assert IndexOf(s, '.') == |whole|;
    assert s[|whole| + 1..] == frac;
    if |whole| > 0 {
      assert IsDigit(s[0]);
    } else {
      assert s[0] == '.';
    }
    DigitsValueAppend(whole, frac);
  }

  /** A number written as digits alone is read exactly. */
  lemma ParseDecimalWhole(whole: string)
    requires AllDigits(whole) && |whole| > 0
    ensures ParseDecimal(whole) == Some(Decimal(false, DigitsValue(whole), 0))
  {
    assert IsDigit(whole[0]);
    assert '.' !in whole by {
      forall i | 0 <= i < |whole| ensures whole[i] != '.' { assert IsDigit(whole[i]); }
    }
  }

  /** The quotient of a division by a positive number brackets the dividend. */
  lemma DivBounds(x: nat, p: nat, q: int)
    requires p >= 1 && q == x / p
    ensures q >= 0 && q * p <= x < (q + 1) * p
  {
    var r := x % p;
    assert x == q * p + r;
    assert (q + 1) * p == q * p + p;
  }

  /** uint64(d * factor) for a byte count: truncation toward zero, so the result is
      the whole part of mantissa * factor / 10^scale. Go leaves the conversion of a
      negative float undefined; the model gives 0. */
  function TruncToNat(d: Decimal, factor: nat): (r: nat)
    ensures d.negative ==> r == 0
  {
    if d.negative then 0
    else
      var x: nat := d.mantissa * factor;
      var q := x / Pow10(d.scale);
      DivBounds(x, Pow10(d.scale), q);
      q
  }

  /** For a non-negative decimal the truncation r brackets mantissa * factor / 10^scale:
      r <= d * factor < r + 1. */
  lemma TruncToNatBounds(d: Decimal, factor: nat)
    requires !d.negative
    ensures var r := TruncToNat(d, factor);
      r * Pow10(d.scale) <= d.mantissa * factor < (r + 1) * Pow10(d.scale)
  {
    DivBounds(d.mantissa * factor, Pow10(d.scale), TruncToNat(d, factor));
  }

  /** int(d): truncation toward zero. */
  function TruncToInt(d: Decimal): (r: int)
    ensures d.negative ==> r <= 0
    ensures !d.negative ==> 0 <= r
  {
    var q := TruncToNat(Decimal(false, d.mantissa, d.scale), 1);
    if d.negative then -(q as int) else q
  }

  lemma NegativeFactor(a: int, p: nat)
    requires p >= 1 && a * p < 0
    ensures a < 0
  {
  }

  /** Two numbers that bracket the same value against the same positive step are
      equal. */
  lemma BracketUnique(q: int, n: int, p: nat, x: int)
    requires p >= 1
    requires q * p <= x < (q + 1) * p
    requires n * p <= x < (n + 1) * p
    ensures q == n
  {
    assert (q - n - 1) * p == q * p - (n + 1) * p;
    NegativeFactor(q - n - 1, p);
    assert (n - q - 1) * p == n * p - (q + 1) * p;
    NegativeFactor(n - q - 1, p);
  }

  /** The truncation of a non-negative decimal is n exactly when n <= d < n + 1. */
  lemma TruncToIntIs(d: Decimal, n: int)
    requires !d.negative
    ensures TruncToInt(d) == n <==> n * Pow10(d.scale) <= d.mantissa < (n + 1) * Pow10(d.scale)
  {
    TruncToNatBounds(Decimal(false, d.mantissa, d.scale), 1);
    if n * Pow10(d.scale) <= d.mantissa < (n + 1) * Pow10(d.scale) {
      BracketUnique(TruncToInt(d), n, Pow10(d.scale), d.mantissa);
    }
  }
}
