/** The client's verdict on an integer member, taken on the raw span: token shape, then length, and a
    conversion only at the widest length (python/mmclient/protocol.py:288-321,
    python/mmclient/_rules.py:42-48,88-102,261-289). */
module IntDomains {
  import opened Arith
  import opened Text
  import opened JsonGrammar

  const UINT64_MAX: int := 0xFFFF_FFFF_FFFF_FFFF
  const INT64_MIN: int := -0x8000_0000_0000_0000
  const INT64_MAX: int := 0x7FFF_FFFF_FFFF_FFFF

  /** One integer member's rule: its domain, and the digits of the widest magnitude in it. */
  datatype Rule = Rule(signed: bool, low: int, high: int, digits: nat)

  // The digits are those of the widest magnitude in the domain: WidestDigits below.
  const UINT64: Rule := Rule(false, 0, UINT64_MAX, 20)
  const INT64: Rule := Rule(true, INT64_MIN, INT64_MAX, 19)

  predicate IsUnsignedToken(span: string) { span != "" && AllDigits(span) }

  predicate IsSignedToken(span: string) {
    if span != "" && span[0] == '-' then IsUnsignedToken(span[1..]) else IsUnsignedToken(span)
  }

  function IntOf(span: string): int
    requires IsSignedToken(span)
  {
    if span[0] == '-' then 0 - DecimalValue(span[1..]) else DecimalValue(span)
  }

  /** Whether the span passes. */
  method CheckSpan(rule: Rule, span: string) returns (ok: bool)
    requires rule == UINT64 || rule == INT64
    ensures ok <==> Passes(rule, span)
  {
    if !(if rule.signed then IsSignedToken(span) else IsUnsignedToken(span)) { return false; }
    assert IsSignedToken(span);
    var size := |span| - if span[0] == '-' then 1 else 0;
    if size < rule.digits { return true; }
    if size > rule.digits { return false; }
    return rule.low <= IntOf(span) <= rule.high;
  }

  predicate Passes(rule: Rule, span: string) {
    && (if rule.signed then IsSignedToken(span) else IsUnsignedToken(span))
    && IsSignedToken(span)
    && var size := |span| - if span[0] == '-' then 1 else 0;
       size < rule.digits || (size == rule.digits && rule.low <= IntOf(span) <= rule.high)
  }

  // --- digits bound the value --------------------------------------------------------------

  lemma {:induction false} DigitsBound(s: string)
    requires AllDigits(s)
    ensures DecimalValue(s) < Pow10(|s|)
    decreases |s|
  {
    if s != "" { DigitsBound(s[..|s| - 1]); }
  }

  lemma {:induction false} DigitsReach(s: string)
    requires s != "" && AllDigits(s) && s[0] != '0'
    ensures DecimalValue(s) >= Pow10(|s| - 1)
    decreases |s|
  {
    if |s| > 1 { DigitsReach(s[..|s| - 1]); } else { assert s[..0] == ""; }
  }

  lemma TwentyDigits()
    ensures Pow10(18) == 1_000_000_000_000_000_000 && Pow10(19) == 10_000_000_000_000_000_000
    ensures Pow10(20) == 100_000_000_000_000_000_000
  {
    assert Pow10(4) == 10_000;
    assert Pow10(8) == 10_000 * Pow10(4) by { TenFour(4); }
    assert Pow10(12) == 10_000 * Pow10(8) by { TenFour(8); }
    assert Pow10(16) == 10_000 * Pow10(12) by { TenFour(12); }
    assert Pow10(18) == 100 * Pow10(16) && Pow10(20) == 100 * Pow10(18);
  }

  lemma TenFour(k: nat)
    ensures Pow10(k + 4) == 10_000 * Pow10(k)
  {
    assert Pow10(k + 1) == 10 * Pow10(k) && Pow10(k + 2) == 10 * Pow10(k + 1) && Pow10(k + 3) == 10 * Pow10(k + 2);
  }

  lemma {:induction false} DecimalLength(n: nat, k: nat)
    requires Pow10(k) <= n < Pow10(k + 1)
    ensures |Decimal(n)| == k + 1
    decreases k
  {
    if k > 0 {
      DecimalLength(n / 10, k - 1);
    } else {
      assert Pow10(1) == 10 * Pow10(0);
    }
  }

  lemma WidestDigits()
    ensures |Decimal(UINT64_MAX)| == UINT64.digits && |Decimal(-INT64_MIN)| == INT64.digits
  {
    hide Decimal;
    TwentyDigits();
    DecimalLength(UINT64_MAX, 19);
    DecimalLength(-INT64_MIN, 18);
  }

  // --- the verdict is the domain -----------------------------------------------------------

  /** A number of the grammar that is an integer of the rule's signedness, and its value. */
  predicate IsInteger(rule: Rule, n: Number) { n.frac.None? && n.exp.None? && (n.minus ==> rule.signed) }

  function ValueOf(n: Number): int
    requires ValidNumber(n)
  {
    if n.minus then 0 - DecimalValue(n.whole) else DecimalValue(n.whole)
  }

  lemma NotAllDigits(s: string, i: nat)
    requires i < |s| && !IsDigit(s[i])
    ensures !AllDigits(s)
  {
  }

  /** Digits, then a char that is none: no integer token, signed or not. */
  lemma BrokenToken(minus: bool, whole: string, rest: string)
    requires whole != "" && rest != "" && !IsDigit(rest[0])
    ensures var span := (if minus then "-" else "") + whole + rest; !IsUnsignedToken(span) && !IsSignedToken(span)
  {
    var sign := if minus then "-" else "";
    var span := sign + whole + rest;
    var at := |sign| + |whole|;
    assert span[at] == rest[0];
    NotAllDigits(span, at);
    assert span[1..][at - 1] == rest[0];
    NotAllDigits(span[1..], at - 1);
  }

  lemma WholeToken(minus: bool, whole: string)
    requires whole != "" && AllDigits(whole)
    ensures var span := (if minus then "-" else "") + whole; IsSignedToken(span) && (IsUnsignedToken(span) <==> !minus)
  {
    if minus {
      assert ("-" + whole)[1..] == whole;
      NotAllDigits("-" + whole, 0);
    } else {
      assert "" + whole == whole;
    }
  }

  lemma TokenIsInteger(rule: Rule, n: Number)
    requires ValidNumber(n) && (rule == UINT64 || rule == INT64)
    ensures var span := ShowNumber(n);
            (if rule.signed then IsSignedToken(span) else IsUnsignedToken(span)) <==> IsInteger(rule, n)
    ensures IsInteger(rule, n) ==> ShowNumber(n) == (if n.minus then "-" else "") + n.whole
  {
    hide IsSignedToken, IsUnsignedToken, AllDigits, ShowExp;
    var sign := if n.minus then "-" else "";
    var rest := ShowFrac(n.frac) + ShowExp(n.exp);
    assert ShowNumber(n) == sign + n.whole + rest;
    if n.exp.Some? { ExpMark(n.exp.value); } else { NoExp(); }
    if n.frac.Some? || n.exp.Some? {
      BrokenToken(n.minus, n.whole, rest);
    } else {
      assert sign + n.whole + rest == sign + n.whole;
      ZeroIsZero();
      WholeToken(n.minus, n.whole);
    }
  }

  lemma ExpMark(e: Exponent)
    ensures ShowExp(Some(e)) != "" && ShowExp(Some(e))[0] == e.mark
  {
  }

  lemma NoExp()
    ensures ShowExp(None) == ""
  {
  }

  lemma IntegerSpan(n: Number)
    requires ValidNumber(n) && n.frac.None? && n.exp.None?
    ensures var span := (if n.minus then "-" else "") + n.whole;
            && IsSignedToken(span) && IntOf(span) == ValueOf(n)
            && |span| - (if span[0] == '-' then 1 else 0) == |n.whole|
  {
    WholeToken(n.minus, n.whole);
    if n.minus { assert ("-" + n.whole)[1..] == n.whole; } else { assert "" + n.whole == n.whole; }
  }

  /** For every number of the grammar, of any length: the check passes exactly when the number is an
      integer of the right signedness whose value lies in the domain. */
  lemma DigitCountDecides(rule: Rule, n: Number)
    requires ValidNumber(n) && (rule == UINT64 || rule == INT64)
    ensures Passes(rule, ShowNumber(n)) <==> IsInteger(rule, n) && rule.low <= ValueOf(n) <= rule.high
  {
    hide ShowNumber, IsSignedToken, IsUnsignedToken, IntOf, DecimalValue, Pow10, ShowFrac, ShowExp;
    TokenIsInteger(rule, n);
    if IsInteger(rule, n) {
      IntegerSpan(n);
      DigitsBound(n.whole);
      if n.whole != "0" { DigitsReach(n.whole); } else { ZeroIsZero(); }
      Lengths(rule, |n.whole|, DecimalValue(n.whole), n.whole == "0");
    }
  }

  lemma ZeroIsZero()
    ensures AllDigits("0") && DecimalValue("0") == 0
  {
    assert "0"[..0] == "";
  }

  /** Too few digits to be out of the domain, or too many to be in it. */
  lemma Lengths(rule: Rule, len: nat, value: int, zero: bool)
    requires 0 <= value && (rule == UINT64 || rule == INT64) && len > 0 && value < Pow10(len) &&
            (if zero then value == 0 && len == 1 else value >= Pow10(len - 1))
    ensures len < rule.digits ==> rule.low <= -value || !rule.signed
    ensures len < rule.digits ==> value <= rule.high
    ensures len > rule.digits ==> value > rule.high && -value < rule.low
  {
    hide Pow10;
    TwentyDigits();
    if len < rule.digits { Pow10Grows(len, rule.digits - 1); }
    if len > rule.digits { Pow10Grows(rule.digits, len - 1); }
  }
}
