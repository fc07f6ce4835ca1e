/** Go's `strconv.Atoi` on a 64-bit platform, which main.go uses to read the
    Hacker News comment count, and the decimal rendering it inverts.

    Atoi has a fast path for inputs shorter than 19 bytes and otherwise
    calls `ParseInt(s, 10, 0)`; on the short inputs no overflow is possible
    and both paths give the same value, so the model follows `ParseInt`.
    main.go discards the error, so only the returned value is modelled: 0 on
    a syntax error, the clamped extreme on a range error. */
module Strconv {
  import opened GoStrings

  const MaxUint64: int := 0xFFFF_FFFF_FFFF_FFFF
  const MaxInt64: int := 0x7FFF_FFFF_FFFF_FFFF
  const MinInt64: int := -0x8000_0000_0000_0000

  const Zero: byte := 48   // '0'
  const Plus: byte := 43   // '+'
  const Minus: byte := 45  // '-'

  predicate IsDigit(b: byte)
  {
    Zero <= b <= Zero + 9
  }

  /** Outcome of `strconv.ParseUint(s, 10, 64)`. */
  datatype UintParse = UintOk(n: nat) | SyntaxError | RangeError

  /** The digit loop of ParseUint, with `acc` the value read so far: a
      non-digit is a syntax error, and a digit that would take the value
      past the uint64 maximum stops the scan with a range error, whatever
      bytes follow. */
  function ScanUint(s: Str, acc: nat): (r: UintParse)
    ensures r.UintOk? ==> acc <= r.n <= MaxUint64 || (s == [] && r.n == acc)
    decreases |s|
  {
    if s == [] then UintOk(acc)
    else if !IsDigit(s[0]) then SyntaxError
    else
      var next := acc * 10 + (s[0] - Zero) as int;
      if next > MaxUint64 then RangeError else ScanUint(s[1..], next)
  }

  function ParseUint(s: Str): UintParse
  {
    if s == [] then SyntaxError else ScanUint(s, 0)
  }

  /** `strconv.Atoi(s)` with its error dropped, as main.go:192 uses it. */
  function Atoi(s: Str): (r: int)
    ensures MinInt64 <= r <= MaxInt64
  {
    if s == [] then 0
    else
      var neg := s[0] == Minus;
      var body := if s[0] == Plus || s[0] == Minus then s[1..] else s;
      match ParseUint(body)
      case SyntaxError => 0
      case RangeError => if neg then MinInt64 else MaxInt64
      case UintOk(n) =>
        if neg then (if n > -MinInt64 then MinInt64 else -(n as int))
        else (if n > MaxInt64 then MaxInt64 else n)
  }

  /** Input that does not start with a digit, after an optional sign, is a
      syntax error and reads as 0. */
  lemma AtoiNonNumeric(s: Str)
    requires var body := if s != [] && (s[0] == Plus || s[0] == Minus) then s[1..] else s;
             body == [] || !IsDigit(body[0])
    ensures Atoi(s) == 0
  {
  }

  /** The decimal digits of `n`, most significant first, as `strconv.Itoa`
      writes a non-negative number. */
  function Decimal(n: nat): (r: Str)
    ensures |r| > 0 && forall i :: 0 <= i < |r| ==> IsDigit(r[i])
    decreases n
  {
    if n < 10 then [Zero + n as byte]
    else Decimal(n / 10) + [Zero + (n % 10) as byte]
  }

  lemma {:induction false} ScanAppend(a: Str, b: Str, acc: nat)
    ensures ScanUint(a + b, acc) ==
            match ScanUint(a, acc)
            case UintOk(m) => ScanUint(b, m)
            case e => e
    decreases |a|
  {
    if a == [] {
      assert a + b == b;
    } else {
      assert (a + b)[0] == a[0] && (a + b)[1..] == a[1..] + b;
      if IsDigit(a[0]) {
        var next := acc * 10 + (a[0] - Zero) as int;
        if next <= MaxUint64 {
          ScanAppend(a[1..], b, next);
        }
      }
    }
  }

  lemma {:induction false} ScanDecimal(n: nat)
    requires n <= MaxUint64
    ensures ScanUint(Decimal(n), 0) == UintOk(n)
    decreases n
  {
    if n >= 10 {
      ScanDecimal(n / 10);
      ScanAppend(Decimal(n / 10), [Zero + (n % 10) as byte], 0);
    }
  }

  /** Atoi reads back every value in int64's non-negative range from its
      decimal form. */
  lemma AtoiDecimal(n: nat)
    requires n <= MaxInt64
    ensures Atoi(Decimal(n)) == n
  {
    ScanDecimal(n);
  }

  /** A count of digits too large for int64 saturates instead of wrapping. */
  lemma AtoiSaturates(n: nat)
    requires MaxInt64 < n <= MaxUint64
    ensures Atoi(Decimal(n)) == MaxInt64
  {
    ScanDecimal(n);
  }
}
