/** A frame read by recursive descent, and that it accepts exactly the frames of the grammar with
    exactly their root members. Both scanners of the repository, the iterative one and the Python
    twin, are proved against this reading. */
module JsonScan {
  import opened Text
  import opened JsonGrammar
  import opened JsonLexer

  // --- the reading -------------------------------------------------------------------------

  /** Whitespace and then a value, with d containers open around it; where it ends. */
  function Val(f: string, i: nat, d: nat): (e: Option<nat>)
    requires i <= |f|
    ensures e.Some? ==> i < e.value <= |f|
    decreases |f| - i, 1
  {
    var j := SkipWs(f, i);
    if j >= |f| then None
    else if f[j] == '{' then (if d >= MAX_DEPTH then None else ObjOpen(f, j + 1, d + 1))
    else if f[j] == '[' then (if d >= MAX_DEPTH then None else ArrOpen(f, j + 1, d + 1))
    else if f[j] == '"' then StringEnd(f, j)
    else if f[j] == 't' || f[j] == 'f' || f[j] == 'n' then LitEnd(f, j)
    else NumberEnd(f, j)
  }

  function ObjOpen(f: string, i: nat, d: nat): (e: Option<nat>)
    requires i <= |f|
    ensures e.Some? ==> i < e.value <= |f|
    decreases |f| - i, 2
  {
    var j := SkipWs(f, i);
    if j < |f| && f[j] == '}' then Some(j + 1) else Key(f, i, d)
  }

  function Key(f: string, i: nat, d: nat): (e: Option<nat>)
    requires i <= |f|
    ensures e.Some? ==> i < e.value <= |f|
    decreases |f| - i, 1
  {
    var k := StringEnd(f, SkipWs(f, i));
    if k.None? then None else Colon(f, k.value, d)
  }

  function Colon(f: string, i: nat, d: nat): (e: Option<nat>)
    requires i <= |f|
    ensures e.Some? ==> i < e.value <= |f|
    decreases |f| - i, 1
  {
    var j := SkipWs(f, i);
    if j < |f| && f[j] == ':' then
      var e := Val(f, j + 1, d);
      if e.None? then None else AfterMember(f, e.value, d)
    else None
  }

  function AfterMember(f: string, i: nat, d: nat): (e: Option<nat>)
    requires i <= |f|
    ensures e.Some? ==> i < e.value <= |f|
    decreases |f| - i, 1
  {
    var j := SkipWs(f, i);
    if j >= |f| then None
    else if f[j] == ',' then Key(f, j + 1, d)
    else if f[j] == '}' then Some(j + 1)
    else None
  }

  function ArrOpen(f: string, i: nat, d: nat): (e: Option<nat>)
    requires i <= |f|
    ensures e.Some? ==> i < e.value <= |f|
    decreases |f| - i, 3
  {
    var j := SkipWs(f, i);
    if j < |f| && f[j] == ']' then Some(j + 1) else Item(f, i, d)
  }

  function Item(f: string, i: nat, d: nat): (e: Option<nat>)
    requires i <= |f|
    ensures e.Some? ==> i < e.value <= |f|
    decreases |f| - i, 2
  {
    var e := Val(f, i, d);
    if e.None? then None else AfterItem(f, e.value, d)
  }

  function AfterItem(f: string, i: nat, d: nat): (e: Option<nat>)
    requires i <= |f|
    ensures e.Some? ==> i < e.value <= |f|
    decreases |f| - i, 1
  {
    var j := SkipWs(f, i);
    if j >= |f| then None
    else if f[j] == ',' then Item(f, j + 1, d)
    else if f[j] == ']' then Some(j + 1)
    else None
  }

  // The root object, collecting its members.

  function RootKey(f: string, i: nat, fields: seq<Field>): Option<seq<Field>>
    requires i <= |f|
    decreases |f| - i, 1
  {
    var j := SkipWs(f, i);
    var k := StringEnd(f, j);
    if k.None? then None else RootColon(f, k.value, fields, f[j + 1..k.value - 1])
  }

  function RootColon(f: string, i: nat, fields: seq<Field>, key: string): Option<seq<Field>>
    requires i <= |f|
    decreases |f| - i, 1
  {
    var j := SkipWs(f, i);
    if j < |f| && f[j] == ':' then
      var e := Val(f, j + 1, 1);
      if e.None? then None else RootValue(f, SkipWs(f, j + 1), e.value, fields, key)
    else None
  }

  /** The value f[v..i] has been read; it is recorded unless the table is full. */
  function RootValue(f: string, v: nat, i: nat, fields: seq<Field>, key: string): Option<seq<Field>>
    requires i <= |f|
    decreases |f| - i, 2
  {
    if |fields| >= MAX_KEYS || v > i then None else RootAfter(f, i, fields + [Field(key, f[v..i])])
  }

  function RootAfter(f: string, i: nat, fields: seq<Field>): Option<seq<Field>>
    requires i <= |f|
    decreases |f| - i, 1
  {
    var j := SkipWs(f, i);
    if j >= |f| then None
    else if f[j] == ',' then RootKey(f, j + 1, fields)
    else if f[j] == '}' then RootEnd(f, j + 1, fields)
    else None
  }

  function RootEnd(f: string, i: nat, fields: seq<Field>): Option<seq<Field>>
    requires i <= |f|
  {
    if SkipWs(f, i) == |f| then Some(fields) else None
  }

  function RootOpen(f: string, i: nat): Option<seq<Field>>
    requires i <= |f|
  {
    var j := SkipWs(f, i);
    if j < |f| && f[j] == '}' then RootEnd(f, j + 1, []) else RootKey(f, i, [])
  }

  /** The root members of a frame, or None when it is not one. */
  function Scan(f: string): Option<seq<Field>> {
    var i := SkipWs(f, 0);
    if i < |f| && f[i] == '{' then RootOpen(f, i + 1) else None
  }

  // Whitespace skipped twice is skipped once.

  lemma SkipTwice(f: string, i: nat)
    requires i <= |f|
    ensures SkipWs(f, SkipWs(f, i)) == SkipWs(f, i)
  {
  }

  lemma ValSkip(f: string, i: nat, d: nat)
    requires i <= |f|
    ensures Val(f, SkipWs(f, i), d) == Val(f, i, d)
  {
    hide StringEnd, NumberEnd, LitEnd, ObjOpen, ArrOpen;
    SkipTwice(f, i);
  }

  // --- sound: what is read stands in the grammar -------------------------------------------

  lemma AtWs(f: string, i: nat)
    requires i <= |f|
    ensures At(f, i, f[i..SkipWs(f, i)]) && AllWs(f[i..SkipWs(f, i)])
  {
  }

  lemma {:induction false} ValSound(f: string, i: nat, d: nat) returns (before: string, v: Json)
    requires i <= |f| && d <= MAX_DEPTH && Val(f, i, d).Some?
    ensures AllWs(before) && Valid(v) && d + Depth(v) <= MAX_DEPTH
    ensures At(f, i, before + Show(v)) && Val(f, i, d).value == i + |before| + |Show(v)|
    ensures SkipWs(f, i) == i + |before|
    decreases |f| - i, 1
  {
    hide At, StringEnd, NumberEnd, ObjOpen, ArrOpen;
    var j := SkipWs(f, i);
    before := f[i..j];
    AtWs(f, i);
    if f[j] == '{' {
      v := ObjSound(f, j, d);
    } else if f[j] == '[' {
      v := ArrSound(f, j, d);
    } else if f[j] == '"' {
      var ps := StringSound(f, j);
      v := Str(ps);
    } else if f[j] == 't' || f[j] == 'f' || f[j] == 'n' {
      v := LitSound(f, j);
    } else {
      var n := NumberSound(f, j);
      v := Num(n);
    }
    AtSplit(f, i, before, Show(v));
  }

  lemma LitSound(f: string, j: nat) returns (v: Json)
    requires LitEnd(f, j).Some?
    ensures Valid(v) && Depth(v) == 0 && At(f, j, Show(v)) && LitEnd(f, j).value == j + |Show(v)|
  {
    v := if At(f, j, "true") then Lit("true") else if At(f, j, "false") then Lit("false") else Lit("null");
  }

  /** Two brackets with nothing but whitespace between them. */
  lemma PaddedSound(f: string, j: nat, open: string, close: string)
    requires |open| == |close| == 1 && j < |f| && f[j] == open[0]
    requires var k := SkipWs(f, j + 1); k < |f| && f[k] == close[0]
    ensures var pad := f[j + 1..SkipWs(f, j + 1)];
            AllWs(pad) && At(f, j, open + pad + close) && SkipWs(f, j + 1) + 1 == j + |open + pad + close|
  {
    var k := SkipWs(f, j + 1);
    assert f[j..k + 1] == open + f[j + 1..k] + close;
  }

  lemma EmptyIs(pad: string)
    ensures Show(EmptyObj(pad)) == "{" + pad + "}" && Show(EmptyArr(pad)) == "[" + pad + "]"
    ensures (Valid(EmptyObj(pad)) <==> AllWs(pad)) && (Valid(EmptyArr(pad)) <==> AllWs(pad))
    ensures Depth(EmptyObj(pad)) == Depth(EmptyArr(pad)) == 1
  {
  }

  lemma ObjIs(ms: Members)
    ensures Show(Obj(ms)) == "{" + ShowMembers(ms) && (Valid(Obj(ms)) <==> ValidMembers(ms))
    ensures Depth(Obj(ms)) == 1 + DepthMembers(ms)
  {
  }

  lemma ArrIs(xs: Items)
    ensures Show(Arr(xs)) == "[" + ShowItems(xs) && (Valid(Arr(xs)) <==> ValidItems(xs))
    ensures Depth(Arr(xs)) == 1 + DepthItems(xs)
  {
  }

  lemma {:induction false} ObjSound(f: string, j: nat, d: nat) returns (v: Json)
    requires j < |f| && f[j] == '{' && d < MAX_DEPTH && ObjOpen(f, j + 1, d + 1).Some?
    ensures Valid(v) && d + Depth(v) <= MAX_DEPTH
    ensures At(f, j, Show(v)) && ObjOpen(f, j + 1, d + 1).value == j + |Show(v)|
    decreases |f| - j, 0
  {
    hide At, Key, Show, ShowMembers, Valid, ValidMembers, Depth, DepthMembers;
    AtOne(f, j, '{');
    var k := SkipWs(f, j + 1);
    if k < |f| && f[k] == '}' {
      v := EmptyObj(f[j + 1..k]);
      PaddedSound(f, j, "{", "}");
      EmptyIs(f[j + 1..k]);
    } else {
      var ms := MembersSound(f, j + 1, d + 1);
      v := Obj(ms);
      AtSplit(f, j, "{", ShowMembers(ms));
      ObjIs(ms);
    }
  }

  lemma {:induction false} ArrSound(f: string, j: nat, d: nat) returns (v: Json)
    requires j < |f| && f[j] == '[' && d < MAX_DEPTH && ArrOpen(f, j + 1, d + 1).Some?
    ensures Valid(v) && d + Depth(v) <= MAX_DEPTH
    ensures At(f, j, Show(v)) && ArrOpen(f, j + 1, d + 1).value == j + |Show(v)|
    decreases |f| - j, 0
  {
    hide At, Item, Show, ShowItems, Valid, ValidItems, Depth, DepthItems;
    AtOne(f, j, '[');
    var k := SkipWs(f, j + 1);
    if k < |f| && f[k] == ']' {
      v := EmptyArr(f[j + 1..k]);
      PaddedSound(f, j, "[", "]");
      EmptyIs(f[j + 1..k]);
    } else {
      var xs := ItemsSound(f, j + 1, d + 1);
      v := Arr(xs);
      AtSplit(f, j, "[", ShowItems(xs));
      ArrIs(xs);
    }
  }

  lemma {:induction false} ItemsSound(f: string, i: nat, d: nat) returns (xs: Items)
    requires i <= |f| && d <= MAX_DEPTH && Item(f, i, d).Some?
    ensures ValidItems(xs) && d + DepthItems(xs) <= MAX_DEPTH
    ensures At(f, i, ShowItems(xs)) && Item(f, i, d).value == i + |ShowItems(xs)|
    decreases |f| - i, 2
  {
    hide At, Val, Show, Valid, Depth, AllWs;
    var before, v := ValSound(f, i, d);
    var e := Val(f, i, d).value;
    var j := SkipWs(f, e);
    var after := f[e..j];
    AtWs(f, e);
    AtOne(f, j, f[j]);
    var tail: string;
    if f[j] == ',' {
      var rest := ItemsSound(f, j + 1, d);
      xs := MoreItems(before, v, after, rest);
      tail := "," + ShowItems(rest);
      AtSplit(f, j, ",", ShowItems(rest));
    } else {
      xs := LastItem(before, v, after);
      tail := "]";
    }
    ItemJoin(f, i, before, Show(v), after, tail);
    assert ShowItems(xs) == before + (Show(v) + (after + tail));
  }

  lemma ItemJoin(f: string, i: nat, before: string, v: string, after: string, tail: string)
    requires At(f, i, before + v) && At(f, i + |before| + |v|, after) && At(f, i + |before| + |v| + |after|, tail)
    ensures At(f, i, before + (v + (after + tail)))
    ensures |before + (v + (after + tail))| == |before| + |v| + |after| + |tail|
  {
    hide At;
    AtSplit(f, i, before, v);
    AtSplit(f, i + |before| + |v|, after, tail);
    AtSplit(f, i + |before|, v, after + tail);
    AtSplit(f, i, before, v + (after + tail));
  }

  /** A key and its colon; the value starts at the position returned. */
  lemma KeySound(f: string, i: nat, d: nat) returns (before: string, key: seq<Piece>, colon: string, g: nat)
    requires i <= |f| && Key(f, i, d).Some?
    ensures var q := i + |before|; var k := q + |Quoted(key)|; var c := k + |colon|;
            && AllWs(before) && ValidPieces(key) && AllWs(colon)
            && At(f, i, before) && At(f, q, Quoted(key)) && At(f, k, colon) && At(f, c, ":")
            && g == c + 1 <= |f| && Val(f, g, d).Some? && Key(f, i, d) == AfterMember(f, Val(f, g, d).value, d)
  {
    hide At, Val, AfterMember, StringEnd, Quoted;
    var q := SkipWs(f, i);
    before := f[i..q];
    AtWs(f, i);
    key := StringSound(f, q);
    var k := StringEnd(f, q).value;
    var c := SkipWs(f, k);
    colon := f[k..c];
    AtWs(f, k);
    AtOne(f, c, ':');
    g := c + 1;
  }

  lemma {:induction false} MembersSound(f: string, i: nat, d: nat) returns (ms: Members)
    requires i <= |f| && d <= MAX_DEPTH && Key(f, i, d).Some?
    ensures ValidMembers(ms) && d + DepthMembers(ms) <= MAX_DEPTH
    ensures At(f, i, ShowMembers(ms)) && Key(f, i, d).value == i + |ShowMembers(ms)|
    decreases |f| - i, 2
  {
    hide At, Val, Key, AfterMember, Show, ShowMembers, Quoted;
    var before, key, colon, g := KeySound(f, i, d);
    var gap, v := ValSound(f, g, d);
    var e := Val(f, g, d).value;
    var after, tail, rest := TailSound(f, e, d);
    ms := if rest.None? then LastMember(before, key, colon, gap, v, after)
        else MoreMembers(before, key, colon, gap, v, after, rest.value);
    AtSplit(f, g, gap, Show(v));
    MemberJoin(f, i, ms);
  }

  /** The parts of a member, each where the one before ends, are the member. */
  lemma MemberJoin(f: string, i: nat, ms: Members)
    ensures var q := i + |ms.before|; var k := q + |Quoted(ms.key)|; var c := k + |ms.colon|;
            var g := c + 1; var v := g + |ms.gap|; var e := v + |Show(ms.value)|;
            At(f, i, ShowMembers(ms)) <==>
              At(f, i, ms.before) && At(f, q, Quoted(ms.key)) && At(f, k, ms.colon) && At(f, c, ":") && At(f, g, ms.gap)
              && At(f, v, Show(ms.value)) && At(f, e, ms.after + ShowTail(ms))
    ensures |ShowMembers(ms)| == |ms.before| + |Quoted(ms.key)| + |ms.colon| + 1 + |ms.gap| + |Show(ms.value)| + |ms.after + ShowTail(ms)|
  {
    hide At, Quoted, Show, ShowTail;
    var q := i + |ms.before|;
    var k := q + |Quoted(ms.key)|;
    var c := k + |ms.colon|;
    var g := c + 1;
    var end := ms.after + ShowTail(ms);
    var value := Show(ms.value) + end;
    var gap := ms.gap + value;
    var colon := ":" + gap;
    var rest := ms.colon + colon;
    AtSplit(f, g + |ms.gap|, Show(ms.value), end);
    AtSplit(f, g, ms.gap, value);
    AtSplit(f, c, ":", gap);
    AtSplit(f, k, ms.colon, colon);
    AtSplit(f, q, Quoted(ms.key), rest);
    AtSplit(f, i, ms.before, Quoted(ms.key) + rest);
  }

  lemma {:induction false} TailSound(f: string, e: nat, d: nat) returns (after: string, tail: string, rest: Option<Members>)
    requires e <= |f| && d <= MAX_DEPTH && AfterMember(f, e, d).Some?
    ensures AllWs(after) && At(f, e, after + tail) && AfterMember(f, e, d).value == e + |after + tail|
    ensures rest.None? ==> tail == "}"
    ensures rest.Some? ==>
            tail == "," + ShowMembers(rest.value) && ValidMembers(rest.value) &&
            d + DepthMembers(rest.value) <= MAX_DEPTH
    decreases |f| - e, 3
  {
    hide At, Key;
    var j := SkipWs(f, e);
    after := f[e..j];
    AtWs(f, e);
    AtOne(f, j, f[j]);
    if f[j] == ',' {
      var ms := MembersSound(f, j + 1, d);
      rest, tail := Some(ms), "," + ShowMembers(ms);
      AtSplit(f, j, ",", ShowMembers(ms));
    } else {
      rest, tail := None, "}";
    }
    AtSplit(f, e, after, tail);
  }

  // --- complete: what stands in the grammar is read ----------------------------------------

  lemma ShowStart(v: Json)
    requires Valid(v)
    ensures Show(v) != "" && !IsWs(Show(v)[0])
    ensures Show(v)[0] == '{' <==> v.EmptyObj? || v.Obj?
    ensures Show(v)[0] == '[' <==> v.EmptyArr? || v.Arr?
    ensures Show(v)[0] == '"' <==> v.Str?
    ensures Show(v)[0] == 't' || Show(v)[0] == 'f' || Show(v)[0] == 'n' <==> v.Lit?
  {
    if v.Num? { NumberStart(v.number); }
  }

  lemma NumberStart(n: Number)
    requires ValidNumber(n)
    ensures ShowNumber(n) != "" && (ShowNumber(n)[0] == '-' || IsDigit(ShowNumber(n)[0]))
  {
    hide ShowFrac, ShowExp;
    var rest := ShowFrac(n.frac) + ShowExp(n.exp);
    if n.minus {
      assert ShowNumber(n)[0] == "-"[0];
    } else {
      assert ShowNumber(n)[0] == n.whole[0];
    }
  }

  /** Whitespace between a value and the bracket or comma after it. */
  lemma AfterIs(f: string, e: nat, after: string, tail: string)
    requires At(f, e, after + tail) && AllWs(after) && tail != "" && tail[0] in ",]}"
    ensures Ends(f, e) && SkipWs(f, e) == e + |after| < |f| && f[e + |after|] == tail[0] && At(f, e + |after|, tail)
  {
    AtSplit(f, e, after, tail);
    AtStart(f, e + |after|, tail);
    SkipWsIs(f, e, after);
    if after != "" { AtStart(f, e, after); }
  }

  lemma LitComplete(f: string, j: nat, t: string)
    requires IsLit(t) && At(f, j, t)
    ensures LitEnd(f, j) == Some(j + |t|)
  {
    AtStart(f, j, t);
    if At(f, j, "true") { AtStart(f, j, "true"); }
    if At(f, j, "false") { AtStart(f, j, "false"); }
  }

  lemma {:induction false} ValComplete(f: string, i: nat, d: nat, before: string, v: Json)
    requires At(f, i, before) && AllWs(before) && At(f, i + |before|, Show(v)) && Valid(v) && d + Depth(v) <= MAX_DEPTH
    requires Ends(f, i + |before| + |Show(v)|)
    ensures i <= |f| && SkipWs(f, i) == i + |before| && Val(f, i, d) == Some(i + |before| + |Show(v)|)
    decreases v, 2
  {
    hide At, Show, StringEnd, NumberEnd, LitEnd, ObjOpen, ArrOpen, Ends;
    ShowStart(v);
    var j := i + |before|;
    AtStart(f, j, Show(v));
    assert j < |f| by { AtFits(f, j, Show(v)); }
    SkipWsIs(f, i, before);
    if v.EmptyArr? || v.Arr? {
      ArrComplete(f, j, d, v);
    } else if v.EmptyObj? || v.Obj? {
      ObjComplete(f, j, d, v);
    } else {
      ScalarComplete(f, j, v);
    }
  }

  lemma AtFits(f: string, i: nat, t: string)
    requires At(f, i, t)
    ensures i + |t| <= |f|
  {
  }

  lemma ScalarComplete(f: string, j: nat, v: Json)
    requires Valid(v) && Depth(v) == 0 && At(f, j, Show(v)) && Ends(f, j + |Show(v)|)
    ensures v.Str? ==> StringEnd(f, j) == Some(j + |Show(v)|)
    ensures v.Num? ==> NumberEnd(f, j) == Some(j + |Show(v)|)
    ensures v.Lit? ==> LitEnd(f, j) == Some(j + |Show(v)|)
  {
    hide At, StringEnd, NumberEnd, LitEnd, Ends;
    match v
    case Str(ps) => StringComplete(f, j, ps);
    case Num(n) => NumberComplete(f, j, n);
    case Lit(t) => LitComplete(f, j, t);
  }

  lemma {:induction false} ArrComplete(f: string, j: nat, d: nat, v: Json)
    requires (v.EmptyArr? || v.Arr?) && Valid(v) && d + Depth(v) <= MAX_DEPTH && At(f, j, Show(v))
    ensures j < |f| && ArrOpen(f, j + 1, d + 1) == Some(j + |Show(v)|)
    decreases v, 1
  {
    hide At, ArrOpen, Item, ShowItems;
    match v
    case EmptyArr(pad) =>
      PaddedComplete(f, j, "[", pad, "]");
      EmptyArrIs(f, j + 1, d + 1);
    case Arr(xs) =>
      AtSplit(f, j, "[", ShowItems(xs));
      ItemsComplete(f, j + 1, d + 1, xs);
  }

  lemma {:induction false} ObjComplete(f: string, j: nat, d: nat, v: Json)
    requires (v.EmptyObj? || v.Obj?) && Valid(v) && d + Depth(v) <= MAX_DEPTH && At(f, j, Show(v))
    ensures j < |f| && ObjOpen(f, j + 1, d + 1) == Some(j + |Show(v)|)
    decreases v, 1
  {
    hide At, ObjOpen, Key, ShowMembers, RootOpen, RootKey;
    match v
    case EmptyObj(pad) =>
      PaddedComplete(f, j, "{", pad, "}");
      EmptyObjIs(f, j + 1, d + 1);
    case Obj(ms) =>
      AtSplit(f, j, "{", ShowMembers(ms));
      assert j + 1 <= |f| by { AtFits(f, j + 1, ShowMembers(ms)); }
      KeyComplete(f, j + 1, d + 1, ms);
      MembersOpen(f, j + 1, d + 1, ms);
  }

  lemma EmptyArrIs(f: string, i: nat, d: nat)
    requires i <= |f| && SkipWs(f, i) < |f| && f[SkipWs(f, i)] == ']'
    ensures ArrOpen(f, i, d) == Some(SkipWs(f, i) + 1)
  {
  }

  lemma EmptyObjIs(f: string, i: nat, d: nat)
    requires i <= |f| && SkipWs(f, i) < |f| && f[SkipWs(f, i)] == '}'
    ensures ObjOpen(f, i, d) == Some(SkipWs(f, i) + 1)
  {
  }

  lemma PaddedComplete(f: string, j: nat, open: string, pad: string, close: string)
    requires |open| == 1 && close in ["]", "}"] && AllWs(pad) && At(f, j, open + pad + close)
    ensures var k := j + 1 + |pad|; j < |f| && SkipWs(f, j + 1) == k < |f| && f[k] == close[0]
  {
    AtSplit(f, j, open + pad, close);
    AtSplit(f, j, open, pad);
    AtStart(f, j + 1 + |pad|, close);
    SkipWsIs(f, j + 1, pad);
  }

  lemma QuotedStart(key: seq<Piece>)
    ensures |Quoted(key)| >= 2 && Quoted(key)[0] == '"'
  {
  }

  lemma KeyParts(f: string, i: nat, before: string, key: seq<Piece>)
    requires At(f, i, before) && AllWs(before) && At(f, i + |before|, Quoted(key)) && ValidPieces(key)
    ensures var q := i + |before|; var k := q + |Quoted(key)|;
            && i <= q < |f| && SkipWs(f, i) == q && f[q] == '"'
            && StringEnd(f, q) == Some(k) && q + 1 < k <= |f| && f[q + 1..k - 1] == ShowPieces(key)
  {
    hide At, StringEnd, Quoted, ShowPieces, ValidPieces;
    var q := i + |before|;
    QuotedStart(key);
    AtStart(f, q, Quoted(key));
    AtFits(f, q, Quoted(key));
    SkipWsIs(f, i, before);
    StringComplete(f, q, key);
  }

  lemma ColonPart(f: string, k: nat, colon: string)
    requires At(f, k, colon) && AllWs(colon) && At(f, k + |colon|, ":")
    ensures k <= k + |colon| < |f| && SkipWs(f, k) == k + |colon| && f[k + |colon|] == ':'
  {
    hide At;
    AtOne(f, k + |colon|, ':');
    SkipWsIs(f, k, colon);
  }

  /** Where each part of a member is found: key, end of key, colon, value, end of value, what follows. */
  lemma MemberParts(f: string, i: nat, ms: Members) returns (q: nat, k: nat, c: nat, v: nat, e: nat, t: nat)
    requires At(f, i, ShowMembers(ms)) && ValidMembers(ms)
    ensures i <= q < k <= c < v < e <= t < |f|
    ensures q == i + |ms.before| && v == c + 1 + |ms.gap| && e == v + |Show(ms.value)|
    ensures SkipWs(f, i) == q && f[q] == '"'
    ensures StringEnd(f, q) == Some(k) && q + 1 < k && f[q + 1..k - 1] == ShowPieces(ms.key)
    ensures SkipWs(f, k) == c && f[c] == ':'
    ensures At(f, c + 1, ms.gap) && At(f, v, Show(ms.value)) && Ends(f, e)
    ensures SkipWs(f, e) == t && f[t] == ShowTail(ms)[0] && At(f, t, ShowTail(ms))
    ensures i + |ShowMembers(ms)| == t + |ShowTail(ms)| <= |f|
  {
    hide At, Quoted, Show, ShowMembers, ShowTail, ShowPieces, Ends, StringEnd, AllWs;
    MemberJoin(f, i, ms);
    q := i + |ms.before|;
    k := q + |Quoted(ms.key)|;
    c := k + |ms.colon|;
    v := c + 1 + |ms.gap|;
    e := v + |Show(ms.value)|;
    t := e + |ms.after|;
    KeyParts(f, i, ms.before, ms.key);
    ColonPart(f, k, ms.colon);
    TailStart(ms);
    AfterIs(f, e, ms.after, ShowTail(ms));
    AtFits(f, t, ShowTail(ms));
    ShowStart(ms.value);
  }

  lemma TailStart(ms: Members)
    ensures ShowTail(ms) != "" && ShowTail(ms)[0] == if ms.MoreMembers? then ',' else '}'
  {
  }

  lemma MembersOpen(f: string, i: nat, d: nat, ms: Members)
    requires At(f, i, ShowMembers(ms)) && ValidMembers(ms) && i <= |f|
    ensures ObjOpen(f, i, d) == Key(f, i, d) && RootOpen(f, i) == RootKey(f, i, [])
  {
    hide At, Show, ShowMembers, ShowTail, ShowPieces, Ends, StringEnd, Key, RootKey, RootEnd;
    var q, k, c, v, e, t := MemberParts(f, i, ms);
  }

  lemma KeyUnfold(f: string, i: nat, d: nat, k: nat, c: nat)
    requires i <= |f| && StringEnd(f, SkipWs(f, i)) == Some(k) && SkipWs(f, k) == c < |f| && f[c] == ':' &&
            Val(f, c + 1, d).Some?
    ensures Key(f, i, d) == AfterMember(f, Val(f, c + 1, d).value, d)
  {
    hide StringEnd, Val, AfterMember;
    assert Key(f, i, d) == Colon(f, k, d);
  }

  lemma {:induction false} KeyComplete(f: string, i: nat, d: nat, ms: Members)
    requires i <= |f| && At(f, i, ShowMembers(ms)) && ValidMembers(ms) && d + DepthMembers(ms) <= MAX_DEPTH
    ensures Key(f, i, d) == Some(i + |ShowMembers(ms)|)
    decreases ms, 3
  {
    hide At, Show, ShowMembers, ShowTail, ShowPieces, Ends, Val, StringEnd, Key, AfterMember;
    var q, k, c, v, e, t := MemberParts(f, i, ms);
    ValComplete(f, c + 1, d, ms.gap, ms.value);
    KeyUnfold(f, i, d, k, c);
    TailComplete(f, e, d, ms, t);
  }

  lemma {:induction false} TailComplete(f: string, e: nat, d: nat, ms: Members, t: nat)
    requires e <= |f| && ValidMembers(ms) && d + DepthMembers(ms) <= MAX_DEPTH
    requires SkipWs(f, e) == t < |f| && f[t] == ShowTail(ms)[0] && At(f, t, ShowTail(ms))
    ensures AfterMember(f, e, d) == Some(t + |ShowTail(ms)|)
    decreases ms, 2
  {
    hide At, Show, ShowMembers, Key;
    if ms.MoreMembers? {
      AtSplit(f, t, ",", ShowMembers(ms.tail));
      KeyComplete(f, t + 1, d, ms.tail);
    }
  }

  function ItemsTail(xs: Items): string { if xs.MoreItems? then "," + ShowItems(xs.rest) else "]" }

  /** Where each part of an item is found: value, end of value, what follows. */
  lemma ItemParts(f: string, i: nat, xs: Items) returns (v: nat, e: nat, t: nat)
    requires At(f, i, ShowItems(xs)) && ValidItems(xs)
    ensures i <= v < e <= t < |f| && v == i + |xs.before| && e == v + |Show(xs.value)|
    ensures At(f, i, xs.before) && At(f, v, Show(xs.value)) && Ends(f, e) && f[v] != ']'
    ensures SkipWs(f, e) == t && f[t] == ItemsTail(xs)[0] && At(f, t, ItemsTail(xs))
    ensures i + |ShowItems(xs)| == t + |ItemsTail(xs)| <= |f|
  {
    hide At, Show, Ends;
    var tail := ItemsTail(xs);
    v := i + |xs.before|;
    e := v + |Show(xs.value)|;
    t := e + |xs.after|;
    AtSplit(f, i, xs.before, Show(xs.value) + (xs.after + tail));
    AtSplit(f, v, Show(xs.value), xs.after + tail);
    AfterIs(f, e, xs.after, tail);
    NotClosed(f, v, xs.value);
    AtFits(f, t, tail);
    ShowStart(xs.value);
  }

  lemma ItemUnfold(f: string, i: nat, d: nat)
    requires i <= |f| && SkipWs(f, i) < |f| && f[SkipWs(f, i)] != ']' && Val(f, i, d).Some?
    ensures ArrOpen(f, i, d) == Item(f, i, d) == AfterItem(f, Val(f, i, d).value, d)
  {
    hide Val, AfterItem;
  }

  lemma {:induction false} ItemsComplete(f: string, i: nat, d: nat, xs: Items)
    requires At(f, i, ShowItems(xs)) && ValidItems(xs) && d + DepthItems(xs) <= MAX_DEPTH
    ensures i <= |f| && ArrOpen(f, i, d) == Item(f, i, d) == Some(i + |ShowItems(xs)|)
    decreases xs, 3
  {
    hide At, Show, ShowItems, Ends, Val, ArrOpen, Item;
    var v, e, t := ItemParts(f, i, xs);
    ValComplete(f, i, d, xs.before, xs.value);
    ItemUnfold(f, i, d);
    if xs.MoreItems? {
      AtSplit(f, t, ",", ShowItems(xs.rest));
      ItemsComplete(f, t + 1, d, xs.rest);
    }
  }

  lemma NotClosed(f: string, v: nat, x: Json)
    requires Valid(x) && At(f, v, Show(x))
    ensures v < |f| && f[v] != ']'
  {
    hide Show;
    ShowStart(x);
    AtStart(f, v, Show(x));
    if Show(x)[0] == ']' { OpensOtherwise(x); }
  }

  lemma OpensOtherwise(x: Json)
    requires Valid(x)
    ensures Show(x) != "" && Show(x)[0] != ']'
  {
    if x.Num? { NumberStart(x.number); }
  }

  // --- the root ----------------------------------------------------------------------------

  lemma RootUnfold(f: string, i: nat, fields: seq<Field>, q: nat, k: nat, c: nat)
    requires i <= |f| && SkipWs(f, i) == q && StringEnd(f, q) == Some(k) && SkipWs(f, k) == c < |f| && f[c] == ':'
    requires Val(f, c + 1, 1).Some?
    ensures var v, e := SkipWs(f, c + 1), Val(f, c + 1, 1).value;
            RootKey(f, i, fields) == RootValue(f, v, e, fields, f[q + 1..k - 1])
  {
    hide StringEnd, Val, RootValue;
    assert RootKey(f, i, fields) == RootColon(f, k, fields, f[q + 1..k - 1]);
  }

  /** The first of the root members is read whole and remembered, if there is room for it. */
  lemma RootFirst(f: string, i: nat, fields: seq<Field>, ms: Members) returns (e: nat, t: nat)
    requires i <= |f| && At(f, i, ShowMembers(ms)) && ValidMembers(ms) && 1 + DepthMembers(ms) <= MAX_DEPTH
    ensures i + |ShowMembers(ms)| == t + |ShowTail(ms)| <= |f| && e <= |f|
    ensures SkipWs(f, e) == t < |f| && f[t] == ShowTail(ms)[0] && At(f, t, ShowTail(ms))
    ensures RootKey(f, i, fields) ==
            if |fields| >= MAX_KEYS then None
            else RootAfter(f, e, fields + [Field(ShowPieces(ms.key), Show(ms.value))])
  {
    hide At, Show, ShowMembers, ShowTail, Ends, StringEnd, Val, RootKey, RootAfter, ShowPieces, Valid, Depth, AllWs, ValidPieces;
    var q, k, c, v, e', t' := MemberParts(f, i, ms);
    e, t := e', t';
    ValComplete(f, c + 1, 1, ms.gap, ms.value);
    RootUnfold(f, i, fields, q, k, c);
    AtSlice(f, v, e, Show(ms.value));
  }

  /** Reading the root members is reading an object and remembering them. */
  lemma {:induction false} RootKeyIs(f: string, i: nat, fields: seq<Field>, ms: Members)
    requires i <= |f| && At(f, i, ShowMembers(ms)) && ValidMembers(ms) && 1 + DepthMembers(ms) <= MAX_DEPTH &&
            |fields| <= MAX_KEYS
    ensures i + |ShowMembers(ms)| <= |f|
    ensures RootKey(f, i, fields) ==
            if |fields| + |FieldsOf(ms)| <= MAX_KEYS then RootEnd(f, i + |ShowMembers(ms)|, fields + FieldsOf(ms)) else None
    decreases ms
  {
    hide At, Show, ShowMembers, Ends, StringEnd, Val, RootKey, RootAfter, RootEnd, ShowPieces, Valid, Depth, AllWs, ValidPieces,
        SkipWs;
    var e, t := RootFirst(f, i, fields, ms);
    var field := Field(ShowPieces(ms.key), Show(ms.value));
    assert ms.MoreMembers? ==> |FieldsOf(ms.tail)| >= 1;
    if |fields| < MAX_KEYS {
      RootAfterIs(f, e, fields + [field], ms, t);
      if ms.MoreMembers? {
        AtSplit(f, t, ",", ShowMembers(ms.tail));
        RootKeyIs(f, t + 1, fields + [field], ms.tail);
        assert fields + [field] + FieldsOf(ms.tail) == fields + FieldsOf(ms);
      } else {
        assert fields + FieldsOf(ms) == fields + [field];
      }
    }
  }

  lemma RootAfterIs(f: string, e: nat, fields: seq<Field>, ms: Members, t: nat)
    requires e <= |f| && SkipWs(f, e) == t < |f| && f[t] == ShowTail(ms)[0]
    ensures RootAfter(f, e, fields) ==
            if ms.MoreMembers? then RootKey(f, t + 1, fields) else RootEnd(f, t + 1, fields)
  {
    hide RootKey, RootEnd;
  }

  lemma {:induction false} RootNeedsKey(f: string, i: nat, fields: seq<Field>)
    requires i <= |f| && RootKey(f, i, fields).Some?
    ensures Key(f, i, 1).Some?
    decreases |f| - i
  {
    hide Val, StringEnd, RootEnd;
    var q := SkipWs(f, i);
    var k := StringEnd(f, q).value;
    var key := f[q + 1..k - 1];
    assert RootKey(f, i, fields) == RootColon(f, k, fields, key);
    var c := SkipWs(f, k);
    var v := SkipWs(f, c + 1);
    var e := Val(f, c + 1, 1).value;
    assert RootColon(f, k, fields, key) == RootValue(f, v, e, fields, key);
    assert Key(f, i, 1) == Colon(f, k, 1) == AfterMember(f, e, 1);
    var fields' := fields + [Field(key, f[v..e])];
    assert RootValue(f, v, e, fields, key) == RootAfter(f, e, fields');
    if f[SkipWs(f, e)] == ',' {
      RootNeedsKey(f, SkipWs(f, e) + 1, fields');
    }
  }

  lemma RootMembersSound(f: string, i: nat) returns (root: Json)
    requires i < |f| && f[i] == '{' && RootKey(f, i + 1, []).Some?
    ensures root.Obj? && Valid(root) && Depth(root) <= MAX_DEPTH && |RootFields(root)| <= MAX_KEYS
    ensures At(f, i, Show(root)) && i + |Show(root)| <= |f|
    ensures RootKey(f, i + 1, []) == RootEnd(f, i + |Show(root)|, RootFields(root))
  {
    hide Key, RootKey, RootEnd, At, ShowMembers;
    RootNeedsKey(f, i + 1, []);
    var ms := MembersSound(f, i + 1, 1);
    root := Obj(ms);
    RootKeyIs(f, i + 1, [], ms);
    assert [] + FieldsOf(ms) == FieldsOf(ms);
    AtOne(f, i, '{');
    AtSplit(f, i, "{", ShowMembers(ms));
  }

  lemma RootEmptySound(f: string, i: nat, j: nat) returns (root: Json)
    requires i < |f| && f[i] == '{' && j == SkipWs(f, i + 1) < |f| && f[j] == '}'
    ensures root.EmptyObj? && Valid(root) && Depth(root) <= MAX_DEPTH && RootFields(root) == []
    ensures At(f, i, Show(root)) && i + |Show(root)| == j + 1 <= |f|
  {
    hide At;
    root := EmptyObj(f[i + 1..j]);
    PaddedSound(f, i, "{", "}");
    AtFits(f, i, Show(root));
  }

  /** The root object of an accepted frame, and where it ends. */
  lemma RootSound(f: string, i: nat) returns (root: Json)
    requires i < |f| && f[i] == '{' && RootOpen(f, i + 1).Some?
    ensures Valid(root) && (root.Obj? || root.EmptyObj?) && Depth(root) <= MAX_DEPTH && |RootFields(root)| <= MAX_KEYS
    ensures At(f, i, Show(root)) && i + |Show(root)| <= |f|
    ensures RootOpen(f, i + 1) == RootEnd(f, i + |Show(root)|, RootFields(root))
  {
    hide RootKey, RootEnd, At, Show, Valid, Depth, RootFields;
    var j := SkipWs(f, i + 1);
    if j < |f| && f[j] == '}' {
      root := RootEmptySound(f, i, j);
    } else {
      root := RootMembersSound(f, i);
    }
  }

  /** Only a frame is accepted, and its root members are the ones returned. */
  lemma ScanSound(f: string) returns (lead: string, root: Json, trail: string)
    requires Scan(f).Some?
    ensures IsFrame(f, lead, root, trail) && Scan(f).value == RootFields(root)
  {
    hide RootOpen, Show, Valid, Depth, RootFields;
    var i := SkipWs(f, 0);
    root := RootSound(f, i);
    var e := i + |Show(root)|;
    lead, trail := f[..i], f[e..];
    assert f[..i] == f[0..i] && f[e..] == f[e..SkipWs(f, e)];
    assert f == f[..i] + f[i..e] + f[e..];
  }

  lemma RootMembersComplete(f: string, i: nat, ms: Members)
    requires At(f, i, ShowMembers(ms)) && ValidMembers(ms) && 1 + DepthMembers(ms) <= MAX_DEPTH && |FieldsOf(ms)| <= MAX_KEYS
    ensures i + |ShowMembers(ms)| <= |f|
    ensures RootOpen(f, i) == RootEnd(f, i + |ShowMembers(ms)|, FieldsOf(ms))
  {
    hide Key, RootKey, RootOpen, RootEnd, At, ShowMembers;
    AtFits(f, i, ShowMembers(ms));
    MembersOpen(f, i, 1, ms);
    RootKeyIs(f, i, [], ms);
    assert [] + FieldsOf(ms) == FieldsOf(ms);
  }

  lemma RootEmptyComplete(f: string, i: nat, pad: string)
    requires At(f, i, "{" + pad + "}") && AllWs(pad)
    ensures i + |pad| + 2 <= |f| && RootOpen(f, i + 1) == RootEnd(f, i + |pad| + 2, [])
  {
    hide At, RootKey, RootEnd;
    PaddedComplete(f, i, "{", pad, "}");
    AtFits(f, i, "{" + pad + "}");
  }

  lemma RootComplete(f: string, i: nat, root: Json)
    requires At(f, i, Show(root)) && Valid(root) && (root.Obj? || root.EmptyObj?) && Depth(root) <= MAX_DEPTH
    requires |RootFields(root)| <= MAX_KEYS
    ensures i < |f| && f[i] == '{' && i + |Show(root)| <= |f|
    ensures RootOpen(f, i + 1) == RootEnd(f, i + |Show(root)|, RootFields(root))
  {
    hide RootOpen, RootEnd, At, ShowMembers;
    AtFits(f, i, Show(root));
    AtStart(f, i, Show(root));
    if root.EmptyObj? {
      RootEmptyComplete(f, i, root.pad);
    } else {
      AtSplit(f, i, "{", ShowMembers(root.members));
      RootMembersComplete(f, i + 1, root.members);
    }
  }

  /** Every frame is accepted, with its own root members: so it can be read in one way only. */
  lemma ScanComplete(f: string, lead: string, root: Json, trail: string)
    requires IsFrame(f, lead, root, trail)
    ensures Scan(f) == Some(RootFields(root))
  {
    hide RootOpen, At, Show, Valid, Depth, RootFields;
    var i := |lead|;
    assert At(f, 0, f) by { AtSlice(f, 0, |f|, f); }
    AtSplit(f, 0, lead + Show(root), trail);
    AtSplit(f, 0, lead, Show(root));
    RootComplete(f, i, root);
    SkipWsIs(f, 0, lead);
    SkipWsIs(f, i + |Show(root)|, trail);
  }

  /** A frame has one reading. */
  lemma ScanIsGrammar(f: string)
    ensures Scan(f).Some? <==> exists lead, root, trail :: IsFrame(f, lead, root, trail)
    ensures forall lead, root, trail :: IsFrame(f, lead, root, trail) ==> Scan(f) == Some(RootFields(root))
  {
    hide IsFrame, Scan;
    if Scan(f).Some? {
      var lead, root, trail := ScanSound(f);
    }
    forall lead, root, trail | IsFrame(f, lead, root, trail) ensures Scan(f) == Some(RootFields(root)) {
      ScanComplete(f, lead, root, trail);
    }
  }
}
