/**
 * The part of Go's `strconv` package the service uses: `Atoi` (with its
 * 64-bit range check and its `*NumError` messages), the decimal formatting
 * of `Itoa` / `%d`, and `Quote` as it appears inside those messages.
 * `int` is 64 bits wide, as on the 64-bit targets the service runs on.
 */
module Strconv {
  import opened Wrappers

  const MaxInt64: int := 0x7FFF_FFFF_FFFF_FFFF
  const MinInt64: int := -0x8000_0000_0000_0000
  const MaxUint64: int := 0xFFFF_FFFF_FFFF_FFFF
  /** ParseUint's cutoff for base 10: an accumulator at or above it overflows when multiplied by 10. */
  const Cutoff: int := MaxUint64 / 10 + 1

  predicate IsInt64(n: int) {
    MinInt64 <= n <= MaxInt64
  }

  /** Two's-complement wrap-around of a 64-bit signed result. */
  function Wrap64(v: int): (r: int)
    ensures IsInt64(r)
    ensures (v - r) % 0x1_0000_0000_0000_0000 == 0
    ensures IsInt64(v) ==> r == v
  {
    (v - MinInt64) % 0x1_0000_0000_0000_0000 + MinInt64
  }

  // ---------------------------------------------------------------------
  // Decimal digits

  predicate IsDigit(c: char) {
    '0' <= c <= '9'
  }

  predicate AllDigits(s: string) {
    forall i | 0 <= i < |s| :: IsDigit(s[i])
  }

  function DigitValue(c: char): nat
    requires IsDigit(c)
  {
    c as int - '0' as int
  }

  function DigitChar(d: nat): (c: char)
    requires d < 10
    ensures IsDigit(c) && DigitValue(c) == d
  {
    "0123456789"[d]
  }

  /** The value of a string of decimal digits, most significant first. */
  function DigitsValue(s: string): nat
    requires AllDigits(s)
  {
    if s == [] then 0 else DigitsValue(s[..|s| - 1]) * 10 + DigitValue(s[|s| - 1])
  }

  /** The reference reading of a decimal integer: an optional sign, then one or more digits. */
  predicate IsDecimal(s: string) {
    |s| > 0 &&
    var digits := if s[0] == '+' || s[0] == '-' then s[1..] else s;
    |digits| > 0 && AllDigits(digits)
  }

  function DecimalValue(s: string): int
    requires IsDecimal(s)
  {
    if s[0] == '-' then -(DigitsValue(s[1..]) as int)
    else if s[0] == '+' then DigitsValue(s[1..])
    else DigitsValue(s)
  }

  /** The strings Atoi accepts without error. */
  predicate Accepts(s: string) {
    IsDecimal(s) && IsInt64(DecimalValue(s))
  }

  // ---------------------------------------------------------------------
  // Atoi

  datatype ErrKind = Syntax | Range

  /** strconv.NumError with Func "Atoi": the input and the reason. */
  datatype NumError = NumError(num: string, kind: ErrKind) {
    function Message(): string {
      "strconv.Atoi: parsing " + Quote(num) + ": "
      + (if kind == Syntax then "invalid syntax" else "value out of range")
    }
  }

  /** Atoi's two results: the value and the error. */
  datatype Converted = Converted(value: int, err: Option<NumError>)

  /** One iteration of ParseUint's loop (base 10, 64 bits): the digit check, then the overflow checks. */
  datatype Scan = Value(n: nat) | BadDigit | Overflow

  function ScanStep(acc: nat, c: char): Scan {
    if !IsDigit(c) then BadDigit
    else if acc >= Cutoff then Overflow
    else
      var n1 := acc * 10 + DigitValue(c);
      if n1 > MaxUint64 then Overflow else Value(n1)
  }

  /** ParseUint's loop, left to right, stopping at the first bad digit or overflow. */
  function ScanDigits(s: string, acc: nat): Scan
    decreases |s|
  {
    if s == [] then Value(acc)
    else match ScanStep(acc, s[0])
      case Value(n) => ScanDigits(s[1..], n)
      case other => other
  }

  /**
   * strconv.Atoi, as ParseInt(s, 10, 0) computes it. A syntax error gives 0;
   * a value out of range gives the nearest 64-bit bound, as Go does. (Atoi's
   * fast path for inputs shorter than 19 bytes gives the same results, since
   * 18 digits cannot overflow.)
   */
  function Atoi(s: string): (r: Converted)
    ensures IsInt64(r.value)
    ensures r.err.Some? ==> r.err.value.num == s
    ensures r.err.Some? && r.err.value.kind == Syntax ==> r.value == 0
  {
    if s == [] then Converted(0, Some(NumError(s, Syntax)))
    else
      var neg := s[0] == '-';
      var digits := if s[0] == '+' || s[0] == '-' then s[1..] else s;
      if digits == [] then Converted(0, Some(NumError(s, Syntax)))
      else match ScanDigits(digits, 0)
        case BadDigit => Converted(0, Some(NumError(s, Syntax)))
        case Overflow =>
          if neg then Converted(MinInt64, Some(NumError(s, Range)))
          else Converted(MaxInt64, Some(NumError(s, Range)))
        case Value(u) =>
          if !neg && u > MaxInt64 then Converted(MaxInt64, Some(NumError(s, Range)))
          else if neg && u > -MinInt64 then Converted(MinInt64, Some(NumError(s, Range)))
          else Converted(if neg then -(u as int) else u, None)
  }

  // ---------------------------------------------------------------------
  // Itoa

  /** The decimal digits of n, without leading zeros. */
  function NatToString(n: nat): (r: string)
    ensures |r| > 0 && AllDigits(r)
  {
    if n < 10 then [DigitChar(n)] else NatToString(n / 10) + [DigitChar(n % 10)]
  }

  /** strconv.Itoa, and fmt's %d verb. */
  function Itoa(n: int): string {
    if n < 0 then "-" + NatToString(-n) else NatToString(n)
  }

  // ---------------------------------------------------------------------
  // Quote

  const LowerHex: string := "0123456789abcdef"

  /**
   * strconv.IsPrint, exactly for U+0000..U+00FF; every code point above
   * U+00FF is taken to be printable.
   */
  predicate IsPrint(c: char) {
    var n := c as int;
    (0x20 <= n <= 0x7E) || (0xA1 <= n <= 0xFF && n != 0xAD) || n > 0xFF
  }

  /** The lowest `width` hexadecimal digits of n, most significant first. */
  function Hex(n: nat, width: nat): (r: string)
    ensures |r| == width
  {
    if width == 0 then "" else Hex(n / 16, width - 1) + [LowerHex[n % 16]]
  }

  /**
   * appendEscapedRune for one code point, with '"' as the quote. Go escapes
   * code points from U+10000 up as \UXXXXXXXX when they are not printable;
   * under IsPrint above they all are, so that form never arises here.
   */
  function EscapeRune(c: char): (r: string)
    ensures |r| > 0
  {
    var n := c as int;
    if c == '"' || c == '\\' then ['\\', c]
    else if IsPrint(c) then [c]
    else if n == 0x07 then "\\a"
    else if n == 0x08 then "\\b"
    else if n == 0x0C then "\\f"
    else if n == 0x0A then "\\n"
    else if n == 0x0D then "\\r"
    else if n == 0x09 then "\\t"
    else if n == 0x0B then "\\v"
    else if n < 0x20 || n == 0x7F then "\\x" + Hex(n, 2)
    else "\\u" + Hex(n, 4)
  }

  function Escape(s: string): string {
    if s == [] then "" else EscapeRune(s[0]) + Escape(s[1..])
  }

  /** strconv.Quote. */
  function Quote(s: string): string {
    "\"" + Escape(s) + "\""
  }

  // ---------------------------------------------------------------------
  // Lemmas

  /** Scanning one more character is one more loop iteration. */
  lemma {:induction false} ScanAppend(s: string, c: char, acc: nat)
    ensures ScanDigits(s + [c], acc) ==
      match ScanDigits(s, acc)
      case Value(v) => ScanStep(v, c)
      case other => other
    decreases |s|
  {
    if s == [] {
      assert [c][1..] == [];
    } else {
      assert (s + [c])[0] == s[0];
      assert (s + [c])[1..] == s[1..] + [c];
      match ScanStep(acc, s[0])
      case Value(n) => ScanAppend(s[1..], c, n);
      case BadDigit =>
      case Overflow =>
    }
  }

  /** On a string of digits the scan yields the digits' value, or overflow when it exceeds 64 bits. */
  lemma {:induction false} ScanDigitsValue(s: string)
    requires AllDigits(s)
    ensures ScanDigits(s, 0) == if DigitsValue(s) <= MaxUint64 then Value(DigitsValue(s)) else Overflow
    decreases |s|
  {
    if s != [] {
      var p, c := s[..|s| - 1], s[|s| - 1];
      assert s == p + [c];
      assert AllDigits(p) by {
        forall i | 0 <= i < |p| ensures IsDigit(p[i]) { assert p[i] == s[i]; }
      }
      ScanDigitsValue(p);
      ScanAppend(p, c, 0);
    }
  }

  /** A scan reaches a value only through digits. */
  lemma {:induction false} ScanValueDigits(s: string, acc: nat)
    requires ScanDigits(s, acc).Value?
    ensures AllDigits(s)
    decreases |s|
  {
    if s != [] {
      var n := ScanStep(acc, s[0]).n;
      ScanValueDigits(s[1..], n);
      forall i | 0 <= i < |s| ensures IsDigit(s[i]) {
        if i > 0 { assert s[i] == s[1..][i - 1]; }
      }
    }
  }

  /** Atoi succeeds exactly on optionally signed decimals in the 64-bit range, and yields their value. */
  lemma AtoiAccepts(s: string)
    ensures Atoi(s).err.None? <==> Accepts(s)
    ensures Atoi(s).err.None? ==> Atoi(s).value == DecimalValue(s)
  {
    if s != [] {
      var digits := if s[0] == '+' || s[0] == '-' then s[1..] else s;
      if digits != [] {
        if ScanDigits(digits, 0).Value? {
          ScanValueDigits(digits, 0);
        }
        if AllDigits(digits) {
          ScanDigitsValue(digits);
        }
      }
    }
  }

  /** The digits NatToString produces read back as n. */
  lemma {:induction false} NatToStringValue(n: nat)
    ensures DigitsValue(NatToString(n)) == n
  {
    var r := NatToString(n);
    if n >= 10 {
      NatToStringValue(n / 10);
      assert r[..|r| - 1] == NatToString(n / 10);
    }
  }

  /** Atoi inverts Itoa on every 64-bit integer. */
  lemma AtoiItoa(n: int)
    requires IsInt64(n)
    ensures Atoi(Itoa(n)) == Converted(n, None)
  {
    ItoaDecimal(n);
    AtoiAccepts(Itoa(n));
  }

  /** The decimal reference reads Itoa's output back as the number printed. */
  lemma ItoaDecimal(n: int)
    requires IsInt64(n)
    ensures Accepts(Itoa(n)) && DecimalValue(Itoa(n)) == n
  {
    var s := Itoa(n);
    if n < 0 {
      var t := NatToString(-n);
      NatToStringValue(-n);
      assert s == "-" + t;
      assert s[0] == '-' && s[1..] == t;
      assert IsDecimal(s);
      assert DecimalValue(s) == -(DigitsValue(t) as int) == n;
    } else {
      NatToStringValue(n);
      assert s[0] != '-' && s[0] != '+';
      assert IsDecimal(s);
      assert DecimalValue(s) == n;
    }
  }

  /** Itoa's output is a non-empty run of digits and at most a leading minus sign. */
  lemma ItoaShape(n: int)
    ensures |Itoa(n)| > 0
    ensures forall i | 0 <= i < |Itoa(n)| :: IsDigit(Itoa(n)[i]) || (i == 0 && Itoa(n)[i] == '-')
  {
  }

  /** A string of printable ASCII without quote or backslash is quoted as itself. */
  lemma {:induction false} QuotePlain(s: string)
    requires forall i | 0 <= i < |s| :: 0x20 <= s[i] as int <= 0x7E && s[i] != '"' && s[i] != '\\'
    ensures Quote(s) == "\"" + s + "\""
  {
    EscapePlain(s);
  }

  lemma {:induction false} EscapePlain(s: string)
    requires forall i | 0 <= i < |s| :: 0x20 <= s[i] as int <= 0x7E && s[i] != '"' && s[i] != '\\'
    ensures Escape(s) == s
  {
    if s != [] {
      assert forall i | 0 <= i < |s| - 1 :: s[1..][i] == s[i + 1];
      EscapePlain(s[1..]);
      assert [s[0]] + s[1..] == s;
    }
  }
}
