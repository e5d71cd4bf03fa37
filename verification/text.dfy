/** Strings as the program handles them: one `char` per byte, ordered as std::string_view orders
    bytes, and numbers in their shortest decimal spelling. */
module Text {

  datatype Option<+T> = None | Some(value: T)

  // --- lexicographic order -----------------------------------------------------------------

  predicate StrLess(a: string, b: string) {
    if b == "" then false
    else if a == "" then true
    else a[0] < b[0] || (a[0] == b[0] && StrLess(a[1..], b[1..]))
  }

  lemma {:induction false} StrIrreflexive(a: string)
    ensures !StrLess(a, a)
  {
    if a != "" { StrIrreflexive(a[1..]); }
  }

  lemma {:induction false} StrTotal(a: string, b: string)
    ensures StrLess(a, b) || StrLess(b, a) || a == b
  {
    if a != "" && b != "" && a[0] == b[0] {
      StrTotal(a[1..], b[1..]);
      if a[1..] == b[1..] {
        assert a == [a[0]] + a[1..] == [b[0]] + b[1..] == b;
      }
    }
  }

  lemma {:induction false} StrTransitive(a: string, b: string, c: string)
    requires StrLess(a, b) && StrLess(b, c)
    ensures StrLess(a, c)
  {
    if a != "" && a[0] == b[0] == c[0] { StrTransitive(a[1..], b[1..], c[1..]); }
  }

  // --- decimal -----------------------------------------------------------------------------

  predicate IsDigit(c: char) { '0' <= c <= '9' }

  predicate AllDigits(s: string) { forall i :: 0 <= i < |s| ==> IsDigit(s[i]) }

  function DigitChar(d: nat): (c: char)
    requires d < 10
    ensures IsDigit(c) && DigitValue(c) == d
  {
    '0' + d as char
  }

  function DigitValue(c: char): (d: nat)
    requires IsDigit(c)
    ensures d < 10
  {
    (c - '0') as nat
  }

  /** What std::to_chars and Python's str() write for a non-negative integer. */
  function Decimal(n: nat): (s: string)
    ensures s != "" && AllDigits(s)
    ensures |s| > 1 ==> s[0] != '0'
    decreases n
  {
    if n < 10 then [DigitChar(n)] else Decimal(n / 10) + [DigitChar(n % 10)]
  }

  /** The number a run of digits denotes. */
  function DecimalValue(s: string): nat
    requires AllDigits(s)
  {
    if s == "" then 0
    else 10 * DecimalValue(s[..|s| - 1]) + DigitValue(s[|s| - 1])
  }

  lemma {:induction false} DecimalReadsBack(n: nat)
    ensures DecimalValue(Decimal(n)) == n
    decreases n
  {
    var s := Decimal(n);
    if n >= 10 {
      assert s[..|s| - 1] == Decimal(n / 10);
      DecimalReadsBack(n / 10);
    } else {
      assert s[..|s| - 1] == "";
    }
  }

  /** A signed integer as std::to_chars writes it. */
  function SignedDecimal(v: int): string {
    if v < 0 then "-" + Decimal(-v) else Decimal(v)
  }
}
