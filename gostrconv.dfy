/**
 * The two number parsers of Go's `strconv` package that the watcher calls:
 * `Atoi` on a process id and `ParseFloat` on a `%CPU` column. Values are
 * exact integers and reals.
 */
module GoStrconv {
  import opened Wrappers

  /** The `err` of a failed conversion (`strconv.ErrSyntax`, `strconv.ErrRange`). */
  datatype NumError = ErrSyntax | ErrRange

  const MinInt64: int := -0x8000_0000_0000_0000
  const MaxInt64: int := 0x7FFF_FFFF_FFFF_FFFF

  predicate IsDigit(c: char) {
    '0' <= c <= '9'
  }

  predicate AllDigits(s: string) {
    forall i :: 0 <= i < |s| ==> IsDigit(s[i])
  }

  /** The value of a string of decimal digits, most significant first. */
  function DigitsValue(s: string): nat
    requires AllDigits(s)
  {
    if s == [] then 0 else DigitsValue(s[..|s| - 1]) * 10 + (s[|s| - 1] as int - '0' as int)
  }

  function Pow10(n: nat): (p: nat)
    ensures p >= 1
  {
    if n == 0 then 1 else 10 * Pow10(n - 1)
  }

  /** Splits an optional leading '+' or '-' off `s`; the flag says "negative". */
  function Sign(s: string): (bool, string) {
    if |s| > 0 && (s[0] == '+' || s[0] == '-') then (s[0] == '-', s[1..]) else (false, s)
  }

  const MaxUint64: int := 0xFFFF_FFFF_FFFF_FFFF

  /**
   * The digit loop of `strconv.ParseUint(s, 10, 64)`, left to right: a
   * non-digit is a syntax error and a value past 64 bits a range error,
   * whichever comes first. (Go's fast path for short inputs agrees: fewer
   * than 19 digits never overflow.)
   */
  function ScanDigits(s: string): (r: Result<nat, NumError>)
    ensures r.Ok? ==> AllDigits(s) && r.value == DigitsValue(s) && r.value <= MaxUint64
    ensures AllDigits(s) && DigitsValue(s) <= MaxUint64 ==> r == Ok(DigitsValue(s))
    ensures AllDigits(s) && DigitsValue(s) > MaxUint64 ==> r == Err(ErrRange)
    decreases |s|
  {
    if s == [] then Ok(0)
    else
      var last := s[|s| - 1];
      match ScanDigits(s[..|s| - 1])
      case Err(e) => Err(e)
      case Ok(n) =>
        if !IsDigit(last) then Err(ErrSyntax)
        else if n * 10 + (last as int - '0' as int) > MaxUint64 then Err(ErrRange)
        else Ok(n * 10 + (last as int - '0' as int))
  }

  /**
   * `strconv.Atoi`: an optional sign followed by at least one decimal digit,
   * whose value must fit a 64-bit `int`.
   */
  function Atoi(s: string): (r: Result<int, NumError>)
    ensures r.Ok? ==> MinInt64 <= r.value <= MaxInt64
    ensures r.Ok? ==> AllDigits(Sign(s).1) && DigitsValue(Sign(s).1) == (if Sign(s).0 then -r.value else r.value)
    ensures Sign(s).1 == [] ==> r == Err(ErrSyntax)
  {
    var (neg, body) := Sign(s);
    if body == [] then Err(ErrSyntax)
    else
      match ScanDigits(body)
      case Err(e) => Err(e)
      case Ok(d) =>
        var v: int := if neg then -(d as int) else d;
        if v < MinInt64 || MaxInt64 < v then Err(ErrRange) else Ok(v)
  }

  /** `strconv.Itoa` on a non-negative number: its decimal digits, without leading zeros. */
  function Itoa(n: nat): (s: string)
    ensures |s| > 0 && AllDigits(s)
  {
    if n < 10 then [Digit(n)] else Itoa(n / 10) + [Digit(n % 10)]
  }

  function Digit(d: nat): (c: char)
    requires d < 10
    ensures IsDigit(c) && c as int - '0' as int == d
  {
    ('0' as int + d) as char
  }

  lemma {:induction false} DigitsValueOfItoa(n: nat)
    ensures DigitsValue(Itoa(n)) == n
  {
    if n >= 10 {
      var s := Itoa(n);
      assert s[..|s| - 1] == Itoa(n / 10);
      DigitsValueOfItoa(n / 10);
    }
  }

  /** `Atoi` inverts `Itoa` on every id that fits a 64-bit `int`. */
  lemma AtoiOfItoa(n: nat)
    requires n <= MaxInt64
    ensures Atoi(Itoa(n)) == Ok(n)
  {
    DigitsValueOfItoa(n);
    var s := Itoa(n);
    assert Sign(s) == (false, s) by {
      assert IsDigit(s[0]);
    }
  }

  /** Once the scan has failed on a prefix, nothing after it changes the error. */
  lemma {:induction false} ScanDigitsErrSticks(w: string, rest: string)
    requires ScanDigits(w).Err?
    ensures ScanDigits(w + rest) == ScanDigits(w)
    decreases |rest|
  {
    var s := w + rest;
    if rest == [] {
      assert s == w;
    } else {
      assert s[..|s| - 1] == w + rest[..|rest| - 1];
      ScanDigitsErrSticks(w, rest[..|rest| - 1]);
      assert ScanDigits(s[..|s| - 1]) == ScanDigits(w);
    }
  }

  /**
   * Digits worth more than 64 bits are a range error, whatever follows them:
   * `Atoi("99999999999999999999x")` is `ErrRange`, not `ErrSyntax`.
   */
  lemma AtoiOverflowFirst(w: string, rest: string)
    requires |w| > 0 && AllDigits(w) && DigitsValue(w) > MaxUint64
    ensures Atoi(w + rest) == Err(ErrRange)
  {
    var s := w + rest;
    assert IsDigit(s[0]);
    assert Sign(s) == (false, s);
    ScanDigitsErrSticks(w, rest);
  }

  /**
   * `strconv.ParseFloat(s, 64)` on plain decimal numerals: an optional sign,
   * then digits with at most one '.', and at least one digit in all. The
   * value is exact (no rounding to the nearest float64).
   */
  function ParseFloat(s: string): (r: Result<real, NumError>)
    ensures s == [] ==> r == Err(ErrSyntax)
    ensures |s| > 0 && AllDigits(s) ==> r == Ok(DigitsValue(s) as real)
    ensures r.Ok? ==> forall k :: 0 <= k < |s| ==> IsDigit(s[k]) || s[k] == '.' || (k == 0 && (s[k] == '+' || s[k] == '-'))
  {
    var (neg, body) := Sign(s);
    var dot := DotAt(body);
    var whole := body[..dot];
    var frac := if dot < |body| then body[dot + 1..] else "";
    if !AllDigits(whole) || !AllDigits(frac) || |whole| + |frac| == 0 then Err(ErrSyntax)
    else
      var v := DigitsValue(whole) as real + DigitsValue(frac) as real / Pow10(|frac|) as real;
      assert |s| > 0 && AllDigits(s) ==> IsDigit(s[0]) && body == s && whole == s && frac == "" by {
        if |s| > 0 && AllDigits(s) {
          assert IsDigit(s[0]);
          assert dot == |body|;
        }
      }
      Ok(if neg then -v else v)
  }

  /** Index of the first '.' in `s`, or |s| if there is none. */
  function DotAt(s: string): (i: nat)
    ensures i <= |s|
    ensures forall k :: 0 <= k < i ==> s[k] != '.'
    ensures i < |s| ==> s[i] == '.'
  {
    if s == [] || s[0] == '.' then 0 else 1 + DotAt(s[1..])
  }

  /** How `top` prints a `%CPU` figure: the tenths `n` as "<n / 10>.<n % 10>". */
  function Tenths(n: nat): string {
    Itoa(n / 10) + "." + [Digit(n % 10)]
  }

  lemma {:induction false} DotAtAfterDigits(w: string, rest: string)
    requires AllDigits(w)
    ensures DotAt(w + "." + rest) == |w|
    decreases |w|
  {
    if w != [] {
      assert (w + "." + rest)[1..] == w[1..] + "." + rest;
      DotAtAfterDigits(w[1..], rest);
    }
  }

  /** `ParseFloat` reads back every figure of `top`'s one-decimal `%CPU` column exactly. */
  lemma ParseFloatOfTenths(n: nat)
    ensures ParseFloat(Tenths(n)) == Ok(n as real / 10.0)
  {
    var w := Itoa(n / 10);
    var d := [Digit(n % 10)];
    var s := Tenths(n);
    assert Sign(s) == (false, s) by {
      assert s[0] == w[0];
    }
    DotAtAfterDigits(w, d);
    assert s[..|w|] == w;
    assert s[|w| + 1..] == d;
    DigitsValueOfItoa(n / 10);
    assert d[..0] == [];
    assert DigitsValue(d) == n % 10;
    assert n as real == (n / 10) as real * 10.0 + (n % 10) as real;
  }
}
