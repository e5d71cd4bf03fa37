/** UTF-8 as section 4 of RFC 3629 defines it, the byte validator both sides of the protocol agree
    with, and the two renderings of a peer's tag (cpp/src/frame_preflight.cpp:24-67,426-445,
    python/mmclient/_preflight.py:121-144). A string here holds one byte per char. */
module Utf8 {
  import opened Text

  predicate IsScalar(cp: nat) { cp <= 0x10FFFF && !(0xD800 <= cp <= 0xDFFF) }

  predicate AllScalars(cps: seq<nat>) { forall i :: 0 <= i < |cps| ==> IsScalar(cps[i]) }

  function Byte(b: nat): (c: char)
    requires b < 0x100
    ensures c as int == b
  {
    b as char
  }

  function Tail(b: nat): char
    requires b < 64
  {
    Byte(0x80 + b)
  }

  function EncodeOne(cp: nat): (s: string)
    requires IsScalar(cp)
    ensures 1 <= |s| <= 4
  {
    if cp < 0x80 then [Byte(cp)]
    else if cp < 0x800 then [Byte(0xC0 + cp / 64), Tail(cp % 64)]
    else if cp < 0x10000 then [Byte(0xE0 + cp / 4096), Tail(cp / 64 % 64), Tail(cp % 64)]
    else [Byte(0xF0 + cp / 262144), Tail(cp / 4096 % 64), Tail(cp / 64 % 64), Tail(cp % 64)]
  }

  function Encode(cps: seq<nat>): string
    requires AllScalars(cps)
  {
    if cps == [] then "" else EncodeOne(cps[0]) + Encode(cps[1..])
  }

  // --- the validator's table ---------------------------------------------------------------

  /** The length the lead byte announces, and the bounds of the byte after it; 0 when it leads nothing. */
  function Lead(c: int): (r: (nat, int, int))
    ensures r.0 <= 4
  {
    if c < 0x80 then (1, 0x80, 0xBF)
    else if 0xC2 <= c <= 0xDF then (2, 0x80, 0xBF)
    else if c == 0xE0 then (3, 0xA0, 0xBF)
    else if (0xE1 <= c <= 0xEC) || c == 0xEE || c == 0xEF then (3, 0x80, 0xBF)
    else if c == 0xED then (3, 0x80, 0x9F)
    else if c == 0xF0 then (4, 0x90, 0xBF)
    else if 0xF1 <= c <= 0xF3 then (4, 0x80, 0xBF)
    else if c == 0xF4 then (4, 0x80, 0x8F)
    else (0, 0x80, 0xBF)
  }

  predicate IsTail(c: char) { 0x80 <= c as int <= 0xBF }

  /** How many bytes the sequence at p takes; 0 when there is none. */
  function SequenceAt(s: string, p: nat): (n: nat)
    requires p < |s|
    ensures n <= 4 && p + n <= |s|
  {
    var (n, lo, hi) := Lead(s[p] as int);
    if n == 0 then 0
    else if n == 1 then 1
    else if |s| - p < n || (s[p + 1] as int) < lo || (s[p + 1] as int) > hi then 0
    else if n >= 3 && !IsTail(s[p + 2]) then 0
    else if n == 4 && !IsTail(s[p + 3]) then 0
    else n
  }

  predicate ValidFrom(s: string, p: nat)
    requires p <= |s|
    decreases |s| - p
  {
    p == |s| || (var n := SequenceAt(s, p); n > 0 && ValidFrom(s, p + n))
  }

  predicate Valid(s: string) { ValidFrom(s, 0) }

  /** The validator's own loop. */
  method Utf8Valid(s: string) returns (ok: bool)
    ensures ok <==> Valid(s)
  {
    var p := 0;
    while p < |s|
      invariant p <= |s| && ValidFrom(s, p) == Valid(s)
    {
      var c := s[p] as int;
      if c < 0x80 {
        p := p + 1;
        continue;
      }
      var len, lo, hi := 0, 0x80, 0xBF;
      if 0xC2 <= c <= 0xDF {
        len := 2;
      } else if c == 0xE0 {
        len, lo := 3, 0xA0;
      } else if (0xE1 <= c <= 0xEC) || c == 0xEE || c == 0xEF {
        len := 3;
      } else if c == 0xED {
        len, hi := 3, 0x9F;
      } else if c == 0xF0 {
        len, lo := 4, 0x90;
      } else if 0xF1 <= c <= 0xF3 {
        len := 4;
      } else if c == 0xF4 {
        len, hi := 4, 0x8F;
      } else {
        return false;
      }
      if |s| - p < len || (s[p + 1] as int) < lo || (s[p + 1] as int) > hi { return false; }
      var k := 2;
      while k < len
        invariant 2 <= k <= len <= 4
        invariant (k > 2 ==> IsTail(s[p + 2])) && (k > 3 ==> IsTail(s[p + 3]))
      {
        if (s[p + k] as int) < 0x80 || (s[p + k] as int) > 0xBF { return false; }
        k := k + 1;
      }
      assert SequenceAt(s, p) == len;
      p := p + len;
    }
    return true;
  }

  // --- it is the encoding ------------------------------------------------------------------

  lemma Split(hi: nat, lo: nat)
    requires lo < 64
    ensures (hi * 64 + lo) / 64 == hi && (hi * 64 + lo) % 64 == lo
  {
  }

  function DecodeOne(s: string, p: nat): nat
    requires p < |s| && SequenceAt(s, p) > 0
  {
    var n := SequenceAt(s, p);
    if n == 1 then s[p] as int
    else if n == 2 then (s[p] as int - 0xC0) * 64 + (s[p + 1] as int - 0x80)
    else if n == 3 then ((s[p] as int - 0xE0) * 64 + (s[p + 1] as int - 0x80)) * 64 + (s[p + 2] as int - 0x80)
    else (((s[p] as int - 0xF0) * 64 + (s[p + 1] as int - 0x80)) * 64 + (s[p + 2] as int - 0x80)) * 64 + (s[p + 3] as int - 0x80)
  }

  lemma DecodeTwo(a: nat, b: nat)
    requires 0xC2 <= a <= 0xDF && 0x80 <= b <= 0xBF
    ensures var cp := (a - 0xC0) * 64 + (b - 0x80); IsScalar(cp) && EncodeOne(cp) == [Byte(a), Byte(b)]
  {
    Split(a - 0xC0, b - 0x80);
  }

  lemma DecodeThree(a: nat, b: nat, c: nat)
    requires 0xE0 <= a <= 0xEF && 0x80 <= b <= 0xBF && 0x80 <= c <= 0xBF
    requires (a == 0xE0 ==> b >= 0xA0) && (a == 0xED ==> b <= 0x9F)
    ensures var cp := ((a - 0xE0) * 64 + (b - 0x80)) * 64 + (c - 0x80);
            IsScalar(cp) && EncodeOne(cp) == [Byte(a), Byte(b), Byte(c)]
  {
    Split(a - 0xE0, b - 0x80);
    Split((a - 0xE0) * 64 + (b - 0x80), c - 0x80);
  }

  lemma DecodeFour(a: nat, b: nat, c: nat, d: nat)
    requires 0xF0 <= a <= 0xF4 && 0x80 <= b <= 0xBF && 0x80 <= c <= 0xBF && 0x80 <= d <= 0xBF
    requires (a == 0xF0 ==> b >= 0x90) && (a == 0xF4 ==> b <= 0x8F)
    ensures var cp := (((a - 0xF0) * 64 + (b - 0x80)) * 64 + (c - 0x80)) * 64 + (d - 0x80);
            IsScalar(cp) && EncodeOne(cp) == [Byte(a), Byte(b), Byte(c), Byte(d)]
  {
    Split(a - 0xF0, b - 0x80);
    Split((a - 0xF0) * 64 + (b - 0x80), c - 0x80);
    Split(((a - 0xF0) * 64 + (b - 0x80)) * 64 + (c - 0x80), d - 0x80);
  }

  /** A sequence the table admits encodes the scalar it decodes to. */
  lemma SequenceSound(s: string, p: nat)
    requires p < |s| && SequenceAt(s, p) > 0
    ensures var cp := DecodeOne(s, p); IsScalar(cp) && EncodeOne(cp) == s[p..p + SequenceAt(s, p)]
  {
    hide EncodeOne;
    var n := SequenceAt(s, p);
    match n
    case 1 => assert EncodeOne(s[p] as int) == [s[p]] by { OneByte(s[p]); }
    case 2 => DecodeTwo(s[p] as int, s[p + 1] as int);
    case 3 =>
      DecodeThree(s[p] as int, s[p + 1] as int, s[p + 2] as int);
      assert s[p..p + 3] == [s[p], s[p + 1], s[p + 2]];
    case _ =>
      DecodeFour(s[p] as int, s[p + 1] as int, s[p + 2] as int, s[p + 3] as int);
      assert s[p..p + 4] == [s[p], s[p + 1], s[p + 2], s[p + 3]];
  }

  lemma OneByte(c: char)
    requires c as int < 0x80
    ensures EncodeOne(c as int) == [c]
  {
  }

  lemma EncodedTwo(cp: nat)
    requires 0x80 <= cp < 0x800
    ensures var a := 0xC0 + cp / 64; Lead(a) == (2, 0x80, 0xBF) && cp == (a - 0xC0) * 64 + cp % 64
  {
  }

  lemma EncodedThree(cp: nat)
    requires 0x800 <= cp < 0x10000 && IsScalar(cp)
    ensures var a, b := 0xE0 + cp / 4096, 0x80 + cp / 64 % 64;
            && Lead(a).0 == 3 && Lead(a).1 <= b <= Lead(a).2
            && cp == ((a - 0xE0) * 64 + (b - 0x80)) * 64 + cp % 64
  {
    assert cp / 4096 == cp / 64 / 64;
  }

  lemma EncodedFour(cp: nat)
    requires 0x10000 <= cp <= 0x10FFFF
    ensures var a, b, c := 0xF0 + cp / 262144, 0x80 + cp / 4096 % 64, 0x80 + cp / 64 % 64;
            && Lead(a).0 == 4 && Lead(a).1 <= b <= Lead(a).2
            && cp == (((a - 0xF0) * 64 + (b - 0x80)) * 64 + (c - 0x80)) * 64 + cp % 64
  {
    assert cp / 4096 == cp / 64 / 64 && cp / 262144 == cp / 4096 / 64;
  }

  /** The sequence that encodes a scalar is admitted, whole, and decodes to it. */
  lemma SequenceComplete(s: string, p: nat, cp: nat)
    requires IsScalar(cp) && p + |EncodeOne(cp)| <= |s| && s[p..p + |EncodeOne(cp)|] == EncodeOne(cp)
    ensures SequenceAt(s, p) == |EncodeOne(cp)| && DecodeOne(s, p) == cp
  {
    hide Lead;
    var e := EncodeOne(cp);
    var w := s[p..p + |e|];
    assert forall k :: 0 <= k < |e| ==> w[k] == s[p + k];
    if cp < 0x80 {
      assert s[p] == e[0] && Lead(cp).0 == 1 by { LeadAscii(cp); }
    } else if cp < 0x800 {
      assert s[p] == e[0] && s[p + 1] == e[1];
      EncodedTwo(cp);
    } else if cp < 0x10000 {
      assert s[p] == e[0] && s[p + 1] == e[1] && s[p + 2] == e[2];
      EncodedThree(cp);
    } else {
      assert s[p] == e[0] && s[p + 1] == e[1] && s[p + 2] == e[2] && s[p + 3] == e[3];
      EncodedFour(cp);
    }
  }

  lemma LeadAscii(c: nat)
    requires c < 0x80
    ensures Lead(c).0 == 1
  {
  }

  lemma {:induction false} ValidSound(s: string, p: nat) returns (cps: seq<nat>)
    requires p <= |s| && ValidFrom(s, p)
    ensures AllScalars(cps) && Encode(cps) == s[p..]
    decreases |s| - p
  {
    hide SequenceAt, EncodeOne, DecodeOne;
    if p == |s| {
      cps := [];
    } else {
      var n := SequenceAt(s, p);
      SequenceSound(s, p);
      var rest := ValidSound(s, p + n);
      cps := [DecodeOne(s, p)] + rest;
      assert cps[1..] == rest;
      assert s[p..] == s[p..p + n] + s[p + n..];
    }
  }

  lemma {:induction false} ValidComplete(s: string, p: nat, cps: seq<nat>)
    requires p <= |s| && AllScalars(cps) && Encode(cps) == s[p..]
    ensures ValidFrom(s, p)
    decreases |cps|
  {
    hide SequenceAt, EncodeOne, DecodeOne;
    if cps != [] {
      var n := |EncodeOne(cps[0])|;
      assert s[p..][..n] == s[p..p + n] && s[p..][n..] == s[p + n..];
      SequenceComplete(s, p, cps[0]);
      ValidComplete(s, p + n, cps[1..]);
    }
  }

  /** The validator accepts exactly the encodings of sequences of Unicode scalar values. */
  lemma ValidIsEncoding(s: string)
    ensures Valid(s) <==> exists cps :: AllScalars(cps) && Encode(cps) == s
  {
    hide ValidFrom;
    assert s[0..] == s;
    if Valid(s) {
      var cps := ValidSound(s, 0);
    }
    if cps :| AllScalars(cps) && Encode(cps) == s { ValidComplete(s, 0, cps); }
  }

  /** And each decodes in one way. */
  lemma {:induction false} EncodeInjective(a: seq<nat>, b: seq<nat>)
    requires AllScalars(a) && AllScalars(b) && Encode(a) == Encode(b)
    ensures a == b
    decreases |a|
  {
    hide SequenceAt, EncodeOne, DecodeOne;
    if a != [] && b != [] {
      var s := Encode(a);
      var m, n := |EncodeOne(a[0])|, |EncodeOne(b[0])|;
      assert s[0..m] == EncodeOne(a[0]) && s[m..] == Encode(a[1..]);
      assert s[0..n] == EncodeOne(b[0]) && s[n..] == Encode(b[1..]);
      SequenceComplete(s, 0, a[0]);
      SequenceComplete(s, 0, b[0]);
      EncodeInjective(a[1..], b[1..]);
      assert a == [a[0]] + a[1..] && b == [b[0]] + b[1..];
    }
  }

  // --- a peer's tag, rendered --------------------------------------------------------------

  const MAX_TAG_DETAIL: nat := 32

  const ELLIPSIS: string := Encode([0x2026])

  predicate IsControl(b: int) { b < 0x20 || b == 0x7F }

  function CleanByte(c: char): char { if IsControl(c as int) then '?' else c }

  function CleanBytes(s: string): (r: string)
    ensures |r| == |s| && forall i :: 0 <= i < |s| ==> r[i] == CleanByte(s[i])
  {
    seq(|s|, i requires 0 <= i < |s| => CleanByte(s[i]))
  }

  /** Walk back over continuation bytes, so as never to cut a sequence in half. */
  function CutFrom(s: string, take: nat): (t: nat)
    ensures t <= take && (t == 0 || t >= |s| || !IsTail(s[t]))
    ensures forall k :: t < k <= take && k < |s| ==> IsTail(s[k])
    decreases take
  {
    if take > 0 && take < |s| && IsTail(s[take]) then CutFrom(s, take - 1) else take
  }

  function Cut(s: string): nat { CutFrom(s, if |s| <= MAX_TAG_DETAIL then |s| else MAX_TAG_DETAIL) }

  /** Cut on a sequence boundary, control bytes replaced, the cut marked. */
  function Rendered(tag: string): string {
    var take := Cut(tag);
    (if take <= |tag| then CleanBytes(tag[..take]) else "") + if take < |tag| then ELLIPSIS else ""
  }

  /** The engine's rendering: cut, then clean. */
  method SanitizedTag(tag: string) returns (out: string)
    ensures out == Rendered(tag)
  {
    hide Encode, EncodeOne;
    var take: nat := if |tag| <= MAX_TAG_DETAIL then |tag| else MAX_TAG_DETAIL;
    while take > 0 && take < |tag| && IsTail(tag[take])
      invariant take <= |tag| && CutFrom(tag, take) == Cut(tag)
    {
      take := take - 1;
    }
    out := "";
    for k := 0 to take
      invariant out == CleanBytes(tag[..take])[..k]
    {
      out := out + [CleanByte(tag[k])];
    }
    assert CleanBytes(tag[..take])[..take] == CleanBytes(tag[..take]);
    if take < |tag| { out := out + ELLIPSIS; } else { assert out + "" == out; }
  }

  function CleanPoint(cp: nat): nat { if IsControl(cp) then '?' as int else cp }

  function CleanPoints(cps: seq<nat>): (r: seq<nat>)
    ensures |r| == |cps| && forall i :: 0 <= i < |cps| ==> r[i] == CleanPoint(cps[i])
    ensures AllScalars(cps) ==> AllScalars(r)
  {
    seq(|cps|, i requires 0 <= i < |cps| => CleanPoint(cps[i]))
  }

  /** The client's rendering of a decoded tag: clean, then cut. The bytes it encodes to. */
  method SanitizedPoints(cps: seq<nat>) returns (out: string)
    requires AllScalars(cps)
    ensures out == Rendered(Encode(cps))
  {
    hide Encode, EncodeOne, Rendered;
    SameRendering(cps);
    var raw := Encode(CleanPoints(cps));
    if |raw| <= MAX_TAG_DETAIL {
      assert raw[..Cut(raw)] + "" == raw;
      return raw;
    }
    var take: nat := MAX_TAG_DETAIL;
    while take > 0 && IsTail(raw[take])
      invariant take <= MAX_TAG_DETAIL && CutFrom(raw, take) == Cut(raw)
    {
      take := take - 1;
    }
    return raw[..take] + ELLIPSIS;
  }

  lemma CleanOne(cp: nat)
    requires IsScalar(cp)
    ensures EncodeOne(CleanPoint(cp)) == CleanBytes(EncodeOne(cp))
  {
  }

  lemma {:induction false} CleanCommutes(cps: seq<nat>)
    requires AllScalars(cps)
    ensures Encode(CleanPoints(cps)) == CleanBytes(Encode(cps))
  {
    hide EncodeOne;
    if cps != [] {
      CleanOne(cps[0]);
      CleanCommutes(cps[1..]);
      assert CleanPoints(cps)[1..] == CleanPoints(cps[1..]);
      assert CleanBytes(Encode(cps)) == CleanBytes(EncodeOne(cps[0])) + CleanBytes(Encode(cps[1..]));
    }
  }

  lemma {:induction false} CutOfClean(s: string, take: nat)
    ensures CutFrom(CleanBytes(s), take) == CutFrom(s, take)
  {
    if take > 0 && take < |s| && IsTail(s[take]) { CutOfClean(s, take - 1); }
  }

  /** Cleaning before the cut, on code points, gives the bytes that cutting before cleaning gives. */
  lemma SameRendering(cps: seq<nat>)
    requires AllScalars(cps)
    ensures var tag, raw := Encode(cps), Encode(CleanPoints(cps)); var take := Cut(raw);
            take <= |raw| && Rendered(tag) == raw[..take] + if take < |raw| then ELLIPSIS else ""
  {
    hide Encode, EncodeOne;
    var tag := Encode(cps);
    CleanCommutes(cps);
    CutOfClean(tag, if |tag| <= MAX_TAG_DETAIL then |tag| else MAX_TAG_DETAIL);
    assert CleanBytes(tag[..Cut(tag)]) == CleanBytes(tag)[..Cut(tag)];
  }

  lemma TailsWithin(cp: nat, k: nat)
    requires IsScalar(cp) && 0 < k < |EncodeOne(cp)|
    ensures IsTail(EncodeOne(cp)[k])
  {
  }

  lemma HeadLeads(cp: nat)
    requires IsScalar(cp)
    ensures !IsTail(EncodeOne(cp)[0])
  {
  }

  /** A cut that does not fall on a continuation byte falls between two code points. */
  lemma {:induction false} Boundary(cps: seq<nat>, t: nat) returns (n: nat)
    requires AllScalars(cps) && t <= |Encode(cps)| && (t == 0 || t == |Encode(cps)| || !IsTail(Encode(cps)[t]))
    ensures n <= |cps| && AllScalars(cps[..n]) && Encode(cps)[..t] == Encode(cps[..n])
    decreases |cps|
  {
    hide EncodeOne;
    if t == 0 || cps == [] {
      n := 0;
    } else {
      var e := EncodeOne(cps[0]);
      assert Encode(cps) == e + Encode(cps[1..]);
      if t < |e| { TailsWithin(cps[0], t); }
      var m := Boundary(cps[1..], t - |e|);
      n := m + 1;
      assert cps[..n][1..] == cps[1..][..m];
      assert Encode(cps)[..t] == e + Encode(cps[1..])[..t - |e|];
    }
  }

  lemma {:induction false} EncodeJoin(a: seq<nat>, b: seq<nat>)
    requires AllScalars(a) && AllScalars(b)
    ensures AllScalars(a + b) && Encode(a + b) == Encode(a) + Encode(b)
  {
    hide EncodeOne;
    if a == [] {
      assert a + b == b;
    } else {
      EncodeJoin(a[1..], b);
      assert (a + b)[1..] == a[1..] + b;
    }
  }

  /** The run of bytes the cut gives up is shorter than one sequence. */
  lemma CutIsShort(cps: seq<nat>, take: nat)
    requires AllScalars(cps) && take < |Encode(cps)|
    ensures CutFrom(Encode(cps), take) + 3 >= take
  {
    hide Encode, EncodeOne;
    var s := Encode(cps);
    var t := CutFrom(s, take);
    if t + 3 < take {
      assert Valid(s) by { ValidIsEncoding(s); }
      assert t < t + 1 <= take && t < t + 2 <= take && t < t + 3 <= take && t < t + 4 <= take;
      if t == 0 { FirstIsLead(cps); }
      var n := Boundary(cps, t);
      NoFourTails(cps, n, t);
    }
  }

  lemma FirstIsLead(cps: seq<nat>)
    requires AllScalars(cps)
    ensures |Encode(cps)| > 0 ==> !IsTail(Encode(cps)[0])
  {
    if cps != [] { HeadLeads(cps[0]); }
  }

  lemma NoFourTails(cps: seq<nat>, n: nat, t: nat)
    requires AllScalars(cps) && n <= |cps| && t + 4 < |Encode(cps)| && Encode(cps)[..t] == Encode(cps[..n])
    ensures !(IsTail(Encode(cps)[t + 1]) && IsTail(Encode(cps)[t + 2]) && IsTail(Encode(cps)[t + 3]) &&
            IsTail(Encode(cps)[t + 4]))
  {
    hide EncodeOne;
    var rest := cps[n..];
    EncodeJoin(cps[..n], rest);
    assert cps == cps[..n] + rest;
    var e := EncodeOne(rest[0]);
    assert Encode(rest) == e + Encode(rest[1..]);
    FirstIsLead(rest[1..]);
    var k := |e|;
    assert Encode(cps)[t + k] == Encode(rest[1..])[0];
  }

  /** On any tag of valid UTF-8: valid UTF-8 again, at most 35 bytes, no control byte, a whole number of
      the tag's code points cleaned and, if any were left out, the ellipsis; at most three bytes of the
      32 go unused. */
  lemma RenderedWell(cps: seq<nat>) returns (n: nat)
    requires AllScalars(cps)
    ensures n <= |cps| && AllScalars(CleanPoints(cps[..n]))
    ensures var r := Rendered(Encode(cps));
            && r == Encode(CleanPoints(cps[..n])) + (if n < |cps| then ELLIPSIS else "")
            && Valid(r) && |r| <= 35 && forall i :: 0 <= i < |r| ==> !IsControl(r[i] as int)
    ensures n < |cps| ==> |Encode(CleanPoints(cps[..n]))| >= 29
  {
    hide Encode, EncodeOne, ValidFrom;
    var tag := Encode(cps);
    var take := Cut(tag);
    n := Boundary(cps, take);
    CleanCommutes(cps[..n]);
    WholeOrCut(cps, n, take);
    var clean := CleanPoints(cps[..n]);
    assert |ELLIPSIS| == 3 && (forall i :: 0 <= i < 3 ==> !IsControl(ELLIPSIS[i] as int)) by { EllipsisBytes(); }
    if take < |tag| {
      CutIsShort(cps, MAX_TAG_DETAIL);
      EncodeJoin(clean, [0x2026]);
      ValidIsEncoding(Rendered(tag));
    } else {
      ValidIsEncoding(Rendered(tag));
      assert CleanBytes(tag) + "" == CleanBytes(tag) && tag[..take] == tag;
    }
  }

  lemma EllipsisBytes()
    ensures |ELLIPSIS| == 3 && forall i :: 0 <= i < 3 ==> !IsControl(ELLIPSIS[i] as int)
  {
    assert Encode([0x2026]) == EncodeOne(0x2026) + Encode([]) == EncodeOne(0x2026);
  }

  /** The cut takes every code point exactly when it takes every byte. */
  lemma WholeOrCut(cps: seq<nat>, n: nat, take: nat)
    requires AllScalars(cps) && n <= |cps| && take <= |Encode(cps)| && Encode(cps)[..take] == Encode(cps[..n])
    ensures n < |cps| <==> take < |Encode(cps)|
  {
    EncodeJoin(cps[..n], cps[n..]);
    assert cps == cps[..n] + cps[n..];
  }
}
