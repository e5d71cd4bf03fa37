/** Where a token of the grammar ends, read left to right, and that reading it so finds exactly the
    strings, numbers and literals of the grammar (cpp/src/frame_preflight.cpp:109-225). */
module JsonLexer {
  import opened Text
  import opened JsonGrammar

  /** The text t stands at position i of the frame. */
  predicate At(f: string, i: nat, t: string) { i + |t| <= |f| && f[i..i + |t|] == t }

  lemma AtSplit(f: string, i: nat, a: string, b: string)
    ensures At(f, i, a + b) <==> At(f, i, a) && At(f, i + |a|, b)
  {
    if i + |a| + |b| <= |f| {
      assert f[i..i + |a + b|] == f[i..i + |a|] + f[i + |a|..i + |a| + |b|];
      if At(f, i, a + b) {
        assert f[i..i + |a|] == (a + b)[..|a|];
        assert f[i + |a|..i + |a| + |b|] == (a + b)[|a|..];
      }
    }
  }

  /** Four texts one after another, from the left. */
  lemma AtFour(f: string, i: nat, a: string, b: string, c: string, d: string)
    ensures At(f, i, a + b + c + d) <==>
            && At(f, i, a) && At(f, i + |a|, b) && At(f, i + |a| + |b|, c) && At(f, i + |a| + |b| + |c|, d)
  {
    hide At;
    AtSplit(f, i, a, b);
    AtSplit(f, i, a + b, c);
    AtSplit(f, i, a + b + c, d);
  }

  lemma AtOne(f: string, i: nat, c: char)
    ensures At(f, i, [c]) <==> i < |f| && f[i] == c
  {
  }

  // --- whitespace --------------------------------------------------------------------------

  function SkipWs(f: string, i: nat): (j: nat)
    requires i <= |f|
    ensures i <= j <= |f| && AllWs(f[i..j]) && (j < |f| ==> !IsWs(f[j]))
    decreases |f| - i
  {
    if i < |f| && IsWs(f[i]) then
      var j := SkipWs(f, i + 1);
      assert f[i..j] == [f[i]] + f[i + 1..j];
      j
    else i
  }

  lemma {:induction false} SkipWsIs(f: string, i: nat, ws: string)
    requires At(f, i, ws) && AllWs(ws) && (i + |ws| < |f| ==> !IsWs(f[i + |ws|]))
    ensures SkipWs(f, i) == i + |ws|
    decreases |ws|
  {
    if ws != "" {
      AtSplit(f, i, [ws[0]], ws[1..]);
      assert ws == [ws[0]] + ws[1..];
      SkipWsIs(f, i + 1, ws[1..]);
    }
  }

  // --- strings -----------------------------------------------------------------------------

  predicate Hex4At(f: string, i: nat) { i + 4 <= |f| && IsHex4(f[i..i + 4]) }

  function UnitAt(f: string, i: nat): nat
    requires Hex4At(f, i)
  {
    CodeUnit(f[i..i + 4])
  }

  /** Where a string's body, read on from j, has its closing quote behind it; None if it has none, or
      a control byte, an escape that is not one, or half a surrogate pair comes first. */
  function BodyEnd(f: string, j: nat): (e: Option<nat>)
    ensures e.Some? ==> j < e.value <= |f|
    decreases |f| - j
  {
    if j >= |f| then None
    else if f[j] == '"' then Some(j + 1)
    else if f[j] as int < 0x20 then None
    else if f[j] != '\\' then BodyEnd(f, j + 1)
    else if j + 1 >= |f| then None
    else if IsShort(f[j + 1]) then BodyEnd(f, j + 2)
    else if f[j + 1] != 'u' || !Hex4At(f, j + 2) || IsLow(UnitAt(f, j + 2)) then None
    else if !IsHigh(UnitAt(f, j + 2)) then BodyEnd(f, j + 6)
    else if PairAt(f, j + 6) then BodyEnd(f, j + 12)
    else None
  }

  /** The low half a high one must be followed by. */
  predicate PairAt(f: string, i: nat) {
    i + 2 <= |f| && f[i] == '\\' && f[i + 1] == 'u' && Hex4At(f, i + 2) && IsLow(UnitAt(f, i + 2))
  }

  function StringEnd(f: string, i: nat): (e: Option<nat>)
    ensures e.Some? ==> i + 1 < e.value <= |f|
  {
    if i < |f| && f[i] == '"' then BodyEnd(f, i + 1) else None
  }

  /** The piece that stands at j, if the body goes on from there. */
  lemma NextPiece(f: string, j: nat) returns (p: Piece)
    requires BodyEnd(f, j).Some? && f[j] != '"'
    ensures ValidPiece(p) && At(f, j, ShowPiece(p))
  {
    if f[j] != '\\' {
      p := Plain(f[j]);
    } else if IsShort(f[j + 1]) {
      p := Short(f[j + 1]);
    } else if !IsHigh(UnitAt(f, j + 2)) {
      p := Unit(f[j + 2..j + 6]);
      EscapeAt(f, j, f[j + 2..j + 6]);
    } else {
      p := Pair(f[j + 2..j + 6], f[j + 8..j + 12]);
      EscapeAt(f, j, f[j + 2..j + 6]);
      EscapeAt(f, j + 6, f[j + 8..j + 12]);
      AtSplit(f, j, "\\u" + p.high, "\\u" + p.low);
      assert ShowPiece(p) == ("\\u" + p.high) + ("\\u" + p.low);
    }
  }

  lemma EscapeAt(f: string, j: nat, h: string)
    requires |h| == 4
    ensures At(f, j, "\\u" + h) <==> j + 6 <= |f| && f[j] == '\\' && f[j + 1] == 'u' && f[j + 2..j + 6] == h
  {
    AtSplit(f, j, "\\u", h);
    if j + 2 <= |f| { assert f[j..j + 2] == [f[j], f[j + 1]]; }
  }

  /** A piece that stands at j is read whole. */
  lemma PieceStep(f: string, j: nat, p: Piece)
    requires ValidPiece(p) && At(f, j, ShowPiece(p))
    ensures BodyEnd(f, j) == BodyEnd(f, j + |ShowPiece(p)|)
  {
    match p
    case Plain(c) => AtOne(f, j, c);
    case Short(c) => ShortStep(f, j, c);
    case Unit(h) => EscapeAt(f, j, h);
    case Pair(h, l) => PairStep(f, j, h, l);
  }

  lemma ShortStep(f: string, j: nat, c: char)
    requires IsShort(c) && At(f, j, ['\\', c])
    ensures BodyEnd(f, j) == BodyEnd(f, j + 2)
  {
    assert f[j..j + 2] == [f[j], f[j + 1]];
  }

  /** An escaped high half goes on to its low half. */
  lemma HighThenLow(f: string, j: nat)
    requires j + 12 <= |f| && f[j] == '\\' && f[j + 1] == 'u' && Hex4At(f, j + 2) && IsHigh(UnitAt(f, j + 2))
    requires PairAt(f, j + 6)
    ensures BodyEnd(f, j) == BodyEnd(f, j + 12)
  {
    hide Hex4At, UnitAt, PairAt;
  }

  lemma HalfAt(f: string, j: nat, h: string)
    requires IsHex4(h) && At(f, j, "\\u" + h)
    ensures j + 6 <= |f| && f[j] == '\\' && f[j + 1] == 'u' && Hex4At(f, j + 2) && UnitAt(f, j + 2) == CodeUnit(h)
  {
    hide At, CodeUnit;
    EscapeAt(f, j, h);
    assert f[j + 2..j + 6] == h;
  }

  lemma ShowPair(h: string, l: string)
    ensures ShowPiece(Pair(h, l)) == ("\\u" + h) + ("\\u" + l)
    ensures ValidPiece(Pair(h, l)) ==> |h| == |l| == 4
  {
    assert ("\\u" + h + "\\u") + l == ("\\u" + h) + ("\\u" + l);
  }

  lemma PairStep(f: string, j: nat, h: string, l: string)
    requires ValidPiece(Pair(h, l)) && At(f, j, ShowPiece(Pair(h, l)))
    ensures BodyEnd(f, j) == BodyEnd(f, j + 12)
  {
    hide At, CodeUnit, IsHex4, BodyEnd, Hex4At, UnitAt;
    ShowPair(h, l);
    AtSplit(f, j, "\\u" + h, "\\u" + l);
    HalfAt(f, j, h);
    HalfAt(f, j + 6, l);
    HighThenLow(f, j);
  }

  lemma {:induction false} BodySound(f: string, j: nat) returns (ps: seq<Piece>)
    requires BodyEnd(f, j).Some?
    ensures ValidPieces(ps) && At(f, j, ShowPieces(ps) + "\"") && BodyEnd(f, j).value == j + |ShowPieces(ps)| + 1
    decreases |f| - j
  {
    hide At;
    if f[j] == '"' {
      ps := [];
      AtOne(f, j, '"');
      assert ShowPieces(ps) + "\"" == ['"'];
    } else {
      var p := NextPiece(f, j);
      PieceStep(f, j, p);
      var rest := BodySound(f, j + |ShowPiece(p)|);
      ps := [p] + rest;
      assert ps[1..] == rest;
      AtSplit(f, j, ShowPiece(p), ShowPieces(rest) + "\"");
      assert ShowPieces(ps) + "\"" == ShowPiece(p) + (ShowPieces(rest) + "\"");
    }
  }

  lemma {:induction false} BodyComplete(f: string, j: nat, ps: seq<Piece>)
    requires ValidPieces(ps) && At(f, j, ShowPieces(ps) + "\"")
    ensures BodyEnd(f, j) == Some(j + |ShowPieces(ps)| + 1)
    decreases |ps|
  {
    hide At;
    if ps == [] {
      assert ShowPieces(ps) + "\"" == ['"'];
      AtOne(f, j, '"');
    } else {
      assert ShowPieces(ps) + "\"" == ShowPiece(ps[0]) + (ShowPieces(ps[1..]) + "\"");
      AtSplit(f, j, ShowPiece(ps[0]), ShowPieces(ps[1..]) + "\"");
      PieceStep(f, j, ps[0]);
      BodyComplete(f, j + |ShowPiece(ps[0])|, ps[1..]);
    }
  }

  lemma StringSound(f: string, i: nat) returns (ps: seq<Piece>)
    requires StringEnd(f, i).Some?
    ensures ValidPieces(ps) && At(f, i, Quoted(ps)) && StringEnd(f, i).value == i + |Quoted(ps)|
    ensures f[i + 1..StringEnd(f, i).value - 1] == ShowPieces(ps)
  {
    ps := BodySound(f, i + 1);
    AtSplit(f, i, "\"", ShowPieces(ps) + "\"");
    AtSplit(f, i + 1, ShowPieces(ps), "\"");
    AtOne(f, i, '"');
    assert Quoted(ps) == "\"" + (ShowPieces(ps) + "\"");
  }

  lemma StringComplete(f: string, i: nat, ps: seq<Piece>)
    requires ValidPieces(ps) && At(f, i, Quoted(ps))
    ensures StringEnd(f, i) == Some(i + |Quoted(ps)|)
    ensures f[i + 1..StringEnd(f, i).value - 1] == ShowPieces(ps)
  {
    hide At, BodyEnd;
    assert Quoted(ps) == "\"" + (ShowPieces(ps) + "\"");
    AtSplit(f, i, "\"", ShowPieces(ps) + "\"");
    AtSplit(f, i + 1, ShowPieces(ps), "\"");
    AtOne(f, i, '"');
    BodyComplete(f, i + 1, ps);
    AtSlice(f, i + 1, StringEnd(f, i).value - 1, ShowPieces(ps));
  }

  // --- numbers -----------------------------------------------------------------------------

  function DigitsEnd(f: string, i: nat): (e: nat)
    requires i <= |f|
    ensures i <= e <= |f| && AllDigits(f[i..e]) && (e < |f| ==> !IsDigit(f[e]))
    decreases |f| - i
  {
    if i < |f| && IsDigit(f[i]) then
      var e := DigitsEnd(f, i + 1);
      assert f[i..e] == [f[i]] + f[i + 1..e];
      e
    else i
  }

  predicate DigitAt(f: string, i: nat) { i < |f| && IsDigit(f[i]) }

  function WholeEnd(f: string, i: nat): (e: Option<nat>)
    ensures e.Some? ==> i < e.value <= |f|
  {
    if !DigitAt(f, i) then None
    else if f[i] == '0' then Some(i + 1)
    else Some(DigitsEnd(f, i))
  }

  function FracEnd(f: string, i: nat): (e: Option<nat>)
    requires i <= |f|
    ensures e.Some? ==> i <= e.value <= |f|
  {
    if i < |f| && f[i] == '.' then (if DigitAt(f, i + 1) then Some(DigitsEnd(f, i + 1)) else None)
    else Some(i)
  }

  function SignEnd(f: string, i: nat): nat { if i < |f| && (f[i] == '+' || f[i] == '-') then i + 1 else i }

  function ExpEnd(f: string, i: nat): (e: Option<nat>)
    requires i <= |f|
    ensures e.Some? ==> i <= e.value <= |f|
  {
    if i < |f| && (f[i] == 'e' || f[i] == 'E') then
      (if DigitAt(f, SignEnd(f, i + 1)) then Some(DigitsEnd(f, SignEnd(f, i + 1))) else None)
    else Some(i)
  }

  function MinusEnd(f: string, i: nat): nat { if i < |f| && f[i] == '-' then i + 1 else i }

  /** Optional minus, zero or nonzero-led digits, optional fraction, optional exponent. */
  function NumberEnd(f: string, i: nat): (e: Option<nat>)
    ensures e.Some? ==> i < e.value <= |f|
  {
    var w := WholeEnd(f, MinusEnd(f, i));
    if w.None? then None
    else
      var r := FracEnd(f, w.value);
      if r.None? then None else ExpEnd(f, r.value)
  }

  lemma {:induction false} DigitsEndIs(f: string, i: nat, ds: string)
    requires At(f, i, ds) && AllDigits(ds) && (i + |ds| < |f| ==> !IsDigit(f[i + |ds|]))
    ensures DigitsEnd(f, i) == i + |ds|
    decreases |ds|
  {
    if ds != "" {
      AtSplit(f, i, [ds[0]], ds[1..]);
      assert ds == [ds[0]] + ds[1..];
      DigitsEndIs(f, i + 1, ds[1..]);
    }
  }

  /** What may come after a value: whitespace, a comma, a closing bracket, or nothing. */
  predicate Ends(f: string, e: nat) {
    e >= |f| || IsWs(f[e]) || f[e] == ',' || f[e] == ']' || f[e] == '}'
  }

  lemma ExpSound(f: string, r: nat) returns (exp: Option<Exponent>)
    requires r <= |f| && ExpEnd(f, r).Some?
    ensures ValidNumber(Number(false, "0", None, exp)) && f[r..ExpEnd(f, r).value] == ShowExp(exp)
  {
    var e := ExpEnd(f, r).value;
    if e == r {
      exp := None;
    } else {
      var s := SignEnd(f, r + 1);
      exp := Some(Exponent(f[r], f[r + 1..s], f[s..e]));
      assert f[r..e] == [f[r]] + f[r + 1..s] + f[s..e];
    }
  }

  lemma FracSound(f: string, w: nat) returns (frac: Option<string>)
    requires w <= |f| && FracEnd(f, w).Some?
    ensures ValidNumber(Number(false, "0", frac, None)) && f[w..FracEnd(f, w).value] == ShowFrac(frac)
  {
    var r := FracEnd(f, w).value;
    if r == w {
      frac := None;
    } else {
      frac := Some(f[w + 1..r]);
      assert f[w..r] == [f[w]] + f[w + 1..r];
    }
  }

  lemma WholeSound(f: string, a: nat)
    requires WholeEnd(f, a).Some?
    ensures ValidNumber(Number(false, f[a..WholeEnd(f, a).value], None, None))
  {
    assert f[a..WholeEnd(f, a).value][0] == f[a];
  }

  lemma NumberSound(f: string, i: nat) returns (n: Number)
    requires NumberEnd(f, i).Some?
    ensures ValidNumber(n) && At(f, i, ShowNumber(n)) && NumberEnd(f, i).value == i + |ShowNumber(n)|
  {
    hide WholeEnd, FracEnd, ExpEnd, ShowFrac, ShowExp, AllDigits, At;
    var a := MinusEnd(f, i);
    var w := WholeEnd(f, a).value;
    var r := FracEnd(f, w).value;
    var e := ExpEnd(f, r).value;
    WholeSound(f, a);
    var frac := FracSound(f, w);
    var exp := ExpSound(f, r);
    n := Number(a == i + 1, f[a..w], frac, exp);
    var minus := if n.minus then "-" else "";
    AtSlice(f, i, a, minus);
    AtSlice(f, a, w, n.whole);
    AtSlice(f, w, r, ShowFrac(frac));
    AtSlice(f, r, e, ShowExp(exp));
    AtFour(f, i, minus, n.whole, ShowFrac(n.frac), ShowExp(n.exp));
  }

  lemma AtSlice(f: string, i: nat, j: nat, t: string)
    requires i <= j <= |f|
    ensures f[i..j] == t <==> At(f, i, t) && |t| == j - i
  {
  }

  lemma AtStart(f: string, i: nat, t: string)
    requires At(f, i, t) && t != ""
    ensures f[i] == t[0]
  {
    assert f[i..i + |t|][0] == t[0];
  }

  lemma NumberComplete(f: string, i: nat, n: Number)
    requires ValidNumber(n) && At(f, i, ShowNumber(n)) && Ends(f, i + |ShowNumber(n)|)
    ensures NumberEnd(f, i) == Some(i + |ShowNumber(n)|)
  {
    hide At, ShowFrac, ShowExp, FracEnd, ExpEnd, WholeEnd;
    var minus := if n.minus then "-" else "";
    var a := i + |minus|;
    var w := a + |n.whole|;
    var r := w + |ShowFrac(n.frac)|;
    AtFour(f, i, minus, n.whole, ShowFrac(n.frac), ShowExp(n.exp));
    if n.minus { AtStart(f, i, minus); }
    AtStart(f, a, n.whole);
    assert !n.minus ==> n.whole[0] != '-';
    ExpComplete(f, r, n.exp);
    FracComplete(f, w, n.frac, r);
    WholeComplete(f, a, n.whole);
  }

  lemma ExpComplete(f: string, r: nat, exp: Option<Exponent>)
    requires ValidNumber(Number(false, "0", None, exp)) && At(f, r, ShowExp(exp)) && Ends(f, r + |ShowExp(exp)|)
    ensures ExpEnd(f, r) == Some(r + |ShowExp(exp)|)
    ensures r < |f| ==> !IsDigit(f[r]) && f[r] != '.'
  {
    if exp.Some? { MarkComplete(f, r, exp.value); }
  }

  lemma MarkComplete(f: string, r: nat, x: Exponent)
    requires ValidNumber(Number(false, "0", None, Some(x))) && At(f, r, ShowExp(Some(x))) && Ends(f, r + |ShowExp(Some(x))|)
    ensures ExpEnd(f, r) == Some(r + |ShowExp(Some(x))|)
    ensures r < |f| && !IsDigit(f[r]) && f[r] != '.'
  {
    hide At, DigitsEnd, AllDigits;
    AtSplit(f, r, [x.mark] + x.sign, x.digits);
    AtSplit(f, r, [x.mark], x.sign);
    AtOne(f, r, x.mark);
    var s := r + 1 + |x.sign|;
    AtStart(f, s, x.digits);
    FirstDigit(x.digits);
    if x.sign != "" { AtStart(f, r + 1, x.sign); }
    DigitsEndIs(f, s, x.digits);
  }

  lemma FirstDigit(ds: string)
    requires ds != "" && AllDigits(ds)
    ensures IsDigit(ds[0])
  {
  }

  lemma FracComplete(f: string, w: nat, frac: Option<string>, r: nat)
    requires ValidNumber(Number(false, "0", frac, None)) && At(f, w, ShowFrac(frac)) && r == w + |ShowFrac(frac)|
    requires r < |f| ==> !IsDigit(f[r]) && f[r] != '.'
    ensures FracEnd(f, w) == Some(r)
    ensures w < |f| ==> !IsDigit(f[w])
  {
    if frac.Some? {
      AtSplit(f, w, ".", frac.value);
      AtOne(f, w, '.');
      AtStart(f, w + 1, frac.value);
      DigitsEndIs(f, w + 1, frac.value);
    }
  }

  lemma WholeComplete(f: string, a: nat, whole: string)
    requires ValidNumber(Number(false, whole, None, None)) && At(f, a, whole)
    requires a + |whole| < |f| ==> !IsDigit(f[a + |whole|])
    ensures WholeEnd(f, a) == Some(a + |whole|)
  {
    AtStart(f, a, whole);
    if whole != "0" { DigitsEndIs(f, a, whole); }
  }

  // --- literals ----------------------------------------------------------------------------

  function LitEnd(f: string, i: nat): (e: Option<nat>)
    ensures e.Some? ==> i < e.value <= |f|
  {
    if At(f, i, "true") then Some(i + 4)
    else if At(f, i, "false") then Some(i + 5)
    else if At(f, i, "null") then Some(i + 4)
    else None
  }
}
