/**
 * The integer conversions the game applies to the store's string values:
 * Go's `strconv.Atoi` for a 64-bit `int` (tolerant reads of counters and of
 * the defuse field), the decimal formatting the store client uses when an
 * `int` is written, and the two's-complement wrap of `n + 1`.
 */
module GoInts {

  const MaxInt64: int := 0x7FFF_FFFF_FFFF_FFFF
  const MinInt64: int := -0x8000_0000_0000_0000
  const MaxUint64: int := 0xFFFF_FFFF_FFFF_FFFF

  predicate InInt64(n: int)
  {
    MinInt64 <= n <= MaxInt64
  }

  /** What `Atoi` hands back: the value, and whether the error result was nil. */
  datatype Parsed = Parsed(value: int, ok: bool)

  /** The unsigned digit scan: the first non-digit is a syntax error, a value above 2^64-1 a range error. */
  datatype Scan = SyntaxError | RangeError | Digits(n: nat)

  predicate IsDigit(c: char)
  {
    '0' <= c <= '9'
  }

  function DigitValue(c: char): (d: nat)
    requires IsDigit(c)
    ensures d < 10
  {
    (c as int) - ('0' as int)
  }

  function DigitChar(d: nat): (c: char)
    requires d < 10
    ensures IsDigit(c) && DigitValue(c) == d
  {
    (('0' as int) + d) as char
  }

  /**
   * Base-10 unsigned parsing of `s` on top of the accumulated value `acc`,
   * character by character from the left; it stops at the first character
   * that is not a digit or that makes the value exceed 2^64-1.
   */
  function ScanDigits(s: string, acc: nat): (r: Scan)
    requires acc <= MaxUint64
    ensures r.Digits? ==> acc <= r.n <= MaxUint64
    ensures r.Digits? ==> forall k :: 0 <= k < |s| ==> IsDigit(s[k])
  {
    if s == [] then Digits(acc)
    else if !IsDigit(s[0]) then SyntaxError
    else if acc * 10 + DigitValue(s[0]) > MaxUint64 then RangeError
    else ScanDigits(s[1..], acc * 10 + DigitValue(s[0]))
  }

  /** Whether `s` starts with a minus sign. */
  predicate Negative(s: string)
  {
    |s| > 0 && s[0] == '-'
  }

  /** `s` without its leading sign, if it has one. */
  function Unsigned(s: string): (t: string)
    ensures |t| <= |s|
  {
    if |s| > 0 && (s[0] == '-' || s[0] == '+') then s[1..] else s
  }

  /**
   * `strconv.Atoi` with a 64-bit `int`: an optional sign, then at least one
   * digit. A syntax error yields 0; a value out of range yields the bound on
   * the side of the sign (both with a non-nil error). The fast path Go takes
   * for strings shorter than 19 bytes gives the same results, since such a
   * string cannot overflow.
   */
  function Atoi(s: string): (r: Parsed)
    ensures InInt64(r.value)
    ensures !r.ok ==> r.value == 0 || r.value == MaxInt64 || r.value == MinInt64
    ensures s == [] ==> r == Parsed(0, false)
    ensures Unsigned(s) == [] || ScanDigits(Unsigned(s), 0).SyntaxError? ==> r == Parsed(0, false)
    ensures Unsigned(s) != [] && ScanDigits(Unsigned(s), 0).RangeError? ==>
      r == Parsed(if Negative(s) then MinInt64 else MaxInt64, false)
    ensures Unsigned(s) != [] && ScanDigits(Unsigned(s), 0).Digits? ==>
      var n := ScanDigits(Unsigned(s), 0).n;
      if Negative(s) then r == (if n > -MinInt64 then Parsed(MinInt64, false) else Parsed(0 - (n as int), true))
      else r == (if n > MaxInt64 then Parsed(MaxInt64, false) else Parsed(n, true))
  {
    var neg := Negative(s);
    var body := Unsigned(s);
    if body == [] then Parsed(0, false)
    else
      match ScanDigits(body, 0)
      case SyntaxError => Parsed(0, false)
      case RangeError => Parsed(if neg then MinInt64 else MaxInt64, false)
      case Digits(n) =>
        if !neg && n > MaxInt64 then Parsed(MaxInt64, false)
        else if neg && n > -MinInt64 then Parsed(MinInt64, false)
        else Parsed(if neg then 0 - (n as int) else n, true)
  }

  /**
   * A non-digit reached before the value overflows makes the whole parse a
   * syntax error, so the string reads as 0.
   */
  lemma AtoiNonDigit(s: string, k: nat)
    requires k < |Unsigned(s)| && !IsDigit(Unsigned(s)[k])
    requires ScanDigits(Unsigned(s)[..k], 0).Digits?
    ensures Atoi(s) == Parsed(0, false)
  {
    var t := Unsigned(s);
    assert t == t[..k] + t[k..];
    ScanAppend(t[..k], t[k..], 0);
  }

  /**
   * A run of digits whose value exceeds 2^64-1 makes the parse a range error,
   * whatever follows it, so the string reads as the bound on its sign's side.
   */
  lemma AtoiOverflowingPrefix(s: string, k: nat)
    requires k <= |Unsigned(s)|
    requires ScanDigits(Unsigned(s)[..k], 0).RangeError?
    ensures Atoi(s) == Parsed(if Negative(s) then MinInt64 else MaxInt64, false)
  {
    var t := Unsigned(s);
    assert t == t[..k] + t[k..];
    ScanAppend(t[..k], t[k..], 0);
  }

  /** The decimal digits of `n`, most significant first, without leading zeros. */
  function Decimal(n: nat): (s: string)
    ensures |s| >= 1
    ensures forall k :: 0 <= k < |s| ==> IsDigit(s[k])
  {
    if n < 10 then [DigitChar(n)] else Decimal(n / 10) + [DigitChar(n % 10)]
  }

  /** How an `int` is written to the store: base 10, with a leading '-' when negative. */
  function FormatInt(n: int): (s: string)
    ensures |s| >= 1
  {
    if n < 0 then "-" + Decimal(-n) else Decimal(n)
  }

  /** Scanning a concatenation scans the first part and continues from its value. */
  lemma {:induction false} ScanAppend(s: string, t: string, acc: nat)
    requires acc <= MaxUint64
    ensures ScanDigits(s + t, acc) ==
      match ScanDigits(s, acc)
      case Digits(m) => ScanDigits(t, m)
      case e => e
  {
    if s != [] {
      assert (s + t)[0] == s[0];
      assert (s + t)[1..] == s[1..] + t;
      if IsDigit(s[0]) && acc * 10 + DigitValue(s[0]) <= MaxUint64 {
        ScanAppend(s[1..], t, acc * 10 + DigitValue(s[0]));
      }
    } else {
      assert s + t == t;
    }
  }

  /** Scanning the decimal digits of `n` gives `n` back. */
  lemma {:induction false} ScanDecimal(n: nat)
    requires n <= MaxUint64
    ensures ScanDigits(Decimal(n), 0) == Digits(n)
  {
    if n < 10 {
      assert Decimal(n)[1..] == [];
    } else {
      var c := DigitChar(n % 10);
      ScanDecimal(n / 10);
      ScanAppend(Decimal(n / 10), [c], 0);
      assert [c][1..] == [];
      assert (n / 10) * 10 + n % 10 == n;
    }
  }

  /** Reading back a written 64-bit `int` succeeds and yields the same value. */
  lemma AtoiFormatInt(n: int)
    requires InInt64(n)
    ensures Atoi(FormatInt(n)) == Parsed(n, true)
  {
    if n < 0 {
      ScanDecimal(-n);
      assert Unsigned(FormatInt(n)) == Decimal(-n);
    } else {
      ScanDecimal(n);
      assert IsDigit(FormatInt(n)[0]);
      assert Unsigned(FormatInt(n)) == Decimal(n);
    }
  }

  /** 10 to the power `k`. */
  function Pow10(k: nat): (p: nat)
    ensures p >= 1
  {
    if k == 0 then 1 else 10 * Pow10(k - 1)
  }

  lemma {:induction false} Pow10Add(a: nat, b: nat)
    ensures Pow10(a + b) == Pow10(a) * Pow10(b)
  {
    if a > 0 {
      Pow10Add(a - 1, b);
    }
  }

  /**
   * Scanning a run of nines on top of `acc`: the value grows to
   * (acc+1)*10^|s| - 1 when that fits in 64 unsigned bits, and is a range
   * error otherwise.
   */
  lemma {:induction false} ScanNines(s: string, acc: nat)
    requires acc <= MaxUint64
    requires forall k :: 0 <= k < |s| ==> s[k] == '9'
    ensures ScanDigits(s, acc) ==
      if (acc + 1) * Pow10(|s|) - 1 <= MaxUint64 then Digits((acc + 1) * Pow10(|s|) - 1) else RangeError
  {
    if s != [] {
      var next := acc * 10 + 9;
      assert (acc + 1) * Pow10(|s|) == (next + 1) * Pow10(|s| - 1);
      if next <= MaxUint64 {
        ScanNines(s[1..], next);
      } else {
        assert (next + 1) * Pow10(|s| - 1) >= next + 1;
      }
    }
  }

  /** Twenty nines do not fit in 64 unsigned bits. */
  lemma TwentyNinesOverflow(s: string)
    requires |s| == 20 && forall k :: 0 <= k < |s| ==> s[k] == '9'
    ensures ScanDigits(s, 0) == RangeError
  {
    assert Pow10(5) == 100000;
    Pow10Add(5, 5);
    Pow10Add(10, 10);
    ScanNines(s, 0);
  }

  /** `n + 1` on a 64-bit `int`: the largest value wraps around to the smallest. */
  function Inc64(n: int): (r: int)
    requires InInt64(n)
    ensures InInt64(r)
    ensures r == n + 1 || (n == MaxInt64 && r == MinInt64)
  {
    if n == MaxInt64 then MinInt64 else n + 1
  }
}
