/**
 * `strconv.ParseUint(s, 10, 32)` as the loader calls it on app ids, with the
 * decimal value it is specified by and `strconv.FormatUint` as its inverse.
 */
module StrConv {
  import opened Wrappers

  /** Go's `uint32`. */
  newtype uint32 = x: int | 0 <= x < 0x1_0000_0000

  const MaxUint32: nat := 0xFFFF_FFFF

  predicate IsDigit(c: char) {
    '0' <= c <= '9'
  }

  predicate AllDigits(s: string) {
    forall i :: 0 <= i < |s| ==> IsDigit(s[i])
  }

  function DigitValue(c: char): (d: nat)
    requires IsDigit(c)
    ensures d < 10
  {
    c as int - '0' as int
  }

  /** The number a string of decimal digits denotes (most significant digit first). */
  function DecimalValue(s: string): nat
    requires AllDigits(s)
  {
    if s == [] then 0 else DecimalValue(s[..|s| - 1]) * 10 + DigitValue(s[|s| - 1])
  }

  /** Appending digits never makes the value smaller. */
  lemma {:induction false} DecimalValuePrefix(s: string, k: nat)
    requires AllDigits(s) && k <= |s|
    ensures DecimalValue(s[..k]) <= DecimalValue(s)
    decreases |s| - k
  {
    if k < |s| {
      var t := s[..k + 1];
      assert t[..|t| - 1] == s[..k];
      DecimalValuePrefix(s, k + 1);
    } else {
      assert s[..k] == s;
    }
  }

  /**
   * The digit loop of `strconv.ParseUint` for base 10 and bit size 32: `n` is the
   * value of the digits `s[..i]` scanned so far; a non-digit is a syntax error and
   * a value above 2^32-1 a range error, both of which give None.
   */
  function ScanDigits(s: string, i: nat, n: nat): (r: Option<uint32>)
    requires i <= |s| && AllDigits(s[..i]) && n == DecimalValue(s[..i]) && n <= MaxUint32
    ensures r.Some? <==> AllDigits(s) && DecimalValue(s) <= MaxUint32
    ensures r.Some? ==> r.value as int == DecimalValue(s)
    decreases |s| - i
  {
    if i == |s| then
      assert s[..i] == s;
      Some(n as uint32)
    else if !IsDigit(s[i]) then
      None
    else
      var n1 := n * 10 + DigitValue(s[i]);
      var t := s[..i + 1];
      assert t[..i] == s[..i] && AllDigits(t);
      if n1 > MaxUint32 then
        assert AllDigits(s) ==> DecimalValue(s) > MaxUint32 by {
          if AllDigits(s) { DecimalValuePrefix(s, i + 1); }
        }
        None
      else
        ScanDigits(s, i + 1, n1)
  }

  /**
   * `strconv.ParseUint(s, 10, 32)` with its error folded into None: it succeeds
   * exactly on non-empty strings of ASCII decimal digits (no sign, no underscores)
   * whose value fits in 32 bits, and then returns that value.
   */
  function ParseUint32(s: string): (r: Option<uint32>)
    ensures r.Some? <==> s != [] && AllDigits(s) && DecimalValue(s) <= MaxUint32
    ensures r.Some? ==> r.value as int == DecimalValue(s)
  {
    if s == [] then None else ScanDigits(s, 0, 0)
  }

  /** `strconv.FormatUint(n, 10)`: the shortest decimal spelling of `n`. */
  function FormatDecimal(n: nat): (s: string)
    ensures s != [] && AllDigits(s)
  {
    if n < 10 then ['0' + n as char]
    else FormatDecimal(n / 10) + ['0' + (n % 10) as char]
  }

  /** The decimal spelling denotes the number it spells. */
  lemma {:induction false} DecimalValueFormat(n: nat)
    ensures DecimalValue(FormatDecimal(n)) == n
  {
    var s := FormatDecimal(n);
    if n >= 10 {
      assert s[..|s| - 1] == FormatDecimal(n / 10);
      DecimalValueFormat(n / 10);
    }
  }

  /** Round trip: parsing the decimal spelling of a uint32 gives it back. */
  lemma ParseFormat(n: uint32)
    ensures ParseUint32(FormatDecimal(n as nat)) == Some(n)
  {
    DecimalValueFormat(n as nat);
  }
}
