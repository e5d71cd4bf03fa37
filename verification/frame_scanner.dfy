/** The engine's frame scanner: one loop, no recursion, its stack of open containers a 64-bit mask
    (cpp/src/frame_preflight.cpp:69-388). It is proved to read a frame as JsonScan does. */
module FrameScanners {
  import opened Text
  import opened JsonGrammar
  import opened JsonLexer
  import opened JsonScan

  // --- the mask ----------------------------------------------------------------------------

  /** Bit d set: the container opened at depth d is an object. */
  predicate KindAt(mask: bv64, d: bv64) { d < 64 && (mask >> d) & 1 == 1 }

  function One(x: bv64): bv64
    requires x < 64
  {
    (1 as bv64) << x
  }

  lemma OneBit(x: bv64, y: bv64)
    requires x < 64 && y < 64
    ensures KindAt(One(x), y) <==> x == y
  {
  }

  lemma NotBit(b: bv64, y: bv64)
    requires y < 64
    ensures KindAt(!b, y) <==> !KindAt(b, y)
  {
  }

  lemma SetOther(m: bv64, x: bv64, y: bv64)
    requires x < 64 && y < 64 && x != y
    ensures ((m | ((1 as bv64) << x)) >> y) & 1 == (m >> y) & 1
  {
  }

  lemma SetOwn(m: bv64, x: bv64)
    requires x < 64
    ensures ((m | ((1 as bv64) << x)) >> x) & 1 == 1
  {
  }

  lemma AndBit(m: bv64, b: bv64, y: bv64)
    requires y < 64
    ensures KindAt(m & b, y) <==> KindAt(m, y) && KindAt(b, y)
  {
  }

  function AllBut(x: bv64): bv64
    requires x < 64
  {
    !One(x)
  }

  lemma AllButBit(x: bv64, y: bv64)
    requires x < 64 && y < 64
    ensures KindAt(AllBut(x), y) <==> x != y
  {
    hide KindAt, One;
    OneBit(x, y);
    NotBit(One(x), y);
  }

  function Set(m: bv64, x: bv64): bv64
    requires x < 64
  {
    m | One(x)
  }

  function Cleared(m: bv64, x: bv64): bv64
    requires x < 64
  {
    m & AllBut(x)
  }

  lemma SetBits(m: bv64, x: bv64, y: bv64)
    requires x < 64 && y < 64
    ensures KindAt(Set(m, x), y) <==> x == y || KindAt(m, y)
  {
    if x == y { SetOwn(m, x); } else { SetOther(m, x, y); }
  }

  lemma ClearedBits(m: bv64, x: bv64, y: bv64)
    requires x < 64 && y < 64
    ensures KindAt(Cleared(m, x), y) <==> KindAt(m, y) && KindAt(AllBut(x), y)
  {
    hide KindAt, AllBut;
    AndBit(m, AllBut(x), y);
  }

  /** Writing bit x leaves every other bit as it was. */
  lemma WriteBit(m: bv64, x: bv64, y: bv64)
    requires x < 64 && y < 64
    ensures KindAt(Set(m, x), y) <==> x == y || KindAt(m, y)
    ensures KindAt(Cleared(m, x), y) <==> x != y && KindAt(m, y)
  {
    hide KindAt, One, AllBut, Set, Cleared;
    OneBit(x, y);
    AllButBit(x, y);
    SetBits(m, x, y);
    ClearedBits(m, x, y);
  }

  /** The stack the mask stands for: true for an object. */
  ghost function Kinds(mask: bv64, depth: bv64): seq<bool>
    decreases depth
  {
    if depth == 0 then [] else Kinds(mask, depth - 1) + [KindAt(mask, depth - 1)]
  }

  lemma {:induction false} KindsLength(mask: bv64, depth: bv64)
    requires depth <= 64
    ensures |Kinds(mask, depth)| == depth as nat
    decreases depth
  {
    hide KindAt;
    if depth != 0 {
      KindsLength(mask, depth - 1);
      OneLess(depth);
    }
  }

  lemma DepthCases(d: bv64)
    requires d <= 64
    ensures d == 0 <==> d as nat == 0
    ensures d == 1 <==> d as nat == 1
    ensures d == 32 <==> d as nat == 32
    ensures d <= 32 <==> d as nat <= 32
  {
  }

  lemma OneLess(d: bv64)
    requires 0 < d <= 64
    ensures (d - 1) as nat == d as nat - 1
  {
  }

  lemma KindsFacts(mask: bv64, depth: bv64)
    requires depth <= 32
    ensures |Kinds(mask, depth)| == 0 <==> depth == 0
    ensures |Kinds(mask, depth)| == 1 <==> depth == 1
    ensures |Kinds(mask, depth)| >= MAX_DEPTH <==> depth == 32
  {
    hide Kinds;
    KindsLength(mask, depth);
    DepthCases(depth);
  }

  lemma KindsPop(mask: bv64, depth: bv64)
    requires 0 < depth <= 32
    ensures var kinds := Kinds(mask, depth);
            |kinds| > 0 && kinds[..|kinds| - 1] == Kinds(mask, depth - 1) && kinds[|kinds| - 1] == KindAt(mask, depth - 1)
  {
    hide KindAt;
  }

  lemma {:induction false} WriteKeeps(m: bv64, x: bv64, depth: bv64)
    requires depth <= x < 64
    ensures Kinds(Set(m, x), depth) == Kinds(m, depth) && Kinds(Cleared(m, x), depth) == Kinds(m, depth)
    decreases depth
  {
    hide KindAt, Set, Cleared;
    if depth != 0 {
      WriteKeeps(m, x, depth - 1);
      WriteBit(m, x, depth - 1);
    }
  }

  lemma PushKind(mask: bv64, depth: bv64)
    requires depth < 64
    ensures Kinds(Set(mask, depth), depth + 1) == Kinds(mask, depth) + [true]
    ensures Kinds(Cleared(mask, depth), depth + 1) == Kinds(mask, depth) + [false]
  {
    hide KindAt, Set, Cleared;
    WriteKeeps(mask, depth, depth);
    WriteBit(mask, depth, depth);
    assert depth + 1 - 1 == depth && depth + 1 != 0;
  }

  // --- what is left to read ----------------------------------------------------------------

  datatype St = Value | ArrValueOrClose | ObjKeyOrClose | ObjKey | ObjColon | AfterValue

  /** A container or scalar has just ended at e: finish what is open around it. */
  ghost function Close(f: string, e: nat, kinds: seq<bool>, fields: seq<Field>, key: string, start: nat): Option<seq<Field>>
    requires e <= |f|
    decreases |kinds|, 0
  {
    if |kinds| == 0 then RootEnd(f, e, fields)
    else if |kinds| == 1 then RootValue(f, start, e, fields, key)
    else Up(f, After(f, e, kinds), kinds[..|kinds| - 1], fields, key, start)
  }

  /** The rest of the innermost container, after one of its members. */
  ghost function After(f: string, e: nat, kinds: seq<bool>): (r: Option<nat>)
    requires e <= |f| && |kinds| > 0
    ensures r.Some? ==> r.value <= |f|
  {
    if kinds[|kinds| - 1] then AfterMember(f, e, |kinds|) else AfterItem(f, e, |kinds|)
  }

  ghost function Up(f: string, r: Option<nat>, kinds: seq<bool>, fields: seq<Field>, key: string,
      start: nat): Option<seq<Field>>
    requires r.Some? ==> r.value <= |f|
    decreases |kinds|, 1
  {
    if r.None? then None else Close(f, r.value, kinds, fields, key, start)
  }

  /** What the frame comes to, from the middle of it: a root object is open unless kinds is empty. */
  ghost function Resume(f: string, st: St, i: nat, kinds: seq<bool>, fields: seq<Field>, key: string,
      start: nat): Option<seq<Field>>
    requires i <= |f|
  {
    var n := |kinds|;
    if n == 0 then
      (var j := SkipWs(f, i); if j < |f| then RootOpen(f, j + 1) else None)
    else
      match st
      case Value => Up(f, Val(f, i, n), kinds, fields, key, if n == 1 then SkipWs(f, i) else start)
      case ArrValueOrClose => Up(f, ArrOpen(f, i, n), kinds[..n - 1], fields, key, start)
      case ObjKeyOrClose => if n == 1 then RootOpen(f, i) else Up(f, ObjOpen(f, i, n), kinds[..n - 1], fields, key, start)
      case ObjKey => if n == 1 then RootKey(f, i, fields) else Up(f, Key(f, i, n), kinds[..n - 1], fields, key, start)
      case ObjColon => if n == 1 then RootColon(f, i, fields, key)
          else Up(f, Colon(f, i, n), kinds[..n - 1], fields, key, start)
      case AfterValue => if n == 1 then RootAfter(f, i, fields)
          else Up(f, After(f, i, kinds), kinds[..n - 1], fields, key, start)
  }

  // --- one step of it ----------------------------------------------------------------------

  /** Whitespace between tokens changes nothing. */
  lemma ResumeSkip(f: string, st: St, i: nat, kinds: seq<bool>, fields: seq<Field>, key: string, start: nat)
    requires i <= |f|
    ensures Resume(f, st, SkipWs(f, i), kinds, fields, key, start) == Resume(f, st, i, kinds, fields, key, start)
  {
    hide Val, ObjOpen, ArrOpen, Key, Colon, AfterMember, AfterItem, RootOpen, RootKey, RootColon, RootAfter, Up, SkipWs;
    SkipTwice(f, i);
    ValSkip(f, i, |kinds|);
    ObjectSkip(f, i, |kinds|);
    ArraySkip(f, i, |kinds|);
    RootSkip(f, i, fields, key);
  }

  lemma ObjectSkip(f: string, i: nat, d: nat)
    requires i <= |f|
    ensures ObjOpen(f, SkipWs(f, i), d) == ObjOpen(f, i, d) && Key(f, SkipWs(f, i), d) == Key(f, i, d)
    ensures Colon(f, SkipWs(f, i), d) == Colon(f, i, d) && AfterMember(f, SkipWs(f, i), d) == AfterMember(f, i, d)
  {
    hide StringEnd, Val;
    SkipTwice(f, i);
    var j := SkipWs(f, i);
    assert Key(f, j, d) == Key(f, i, d);
    assert ObjOpen(f, j, d) == ObjOpen(f, i, d);
  }

  lemma ArraySkip(f: string, i: nat, d: nat)
    requires i <= |f|
    ensures ArrOpen(f, SkipWs(f, i), d) == ArrOpen(f, i, d) && AfterItem(f, SkipWs(f, i), d) == AfterItem(f, i, d)
  {
    SkipTwice(f, i);
    ValSkip(f, i, d);
    hide Val;
    var j := SkipWs(f, i);
    assert Item(f, j, d) == Item(f, i, d);
    assert AfterItem(f, j, d) == AfterItem(f, i, d);
  }

  lemma RootSkip(f: string, i: nat, fields: seq<Field>, key: string)
    requires i <= |f|
    ensures RootOpen(f, SkipWs(f, i)) == RootOpen(f, i) && RootKey(f, SkipWs(f, i), fields) == RootKey(f, i, fields)
    ensures RootColon(f, SkipWs(f, i), fields, key) == RootColon(f, i, fields, key)
    ensures RootAfter(f, SkipWs(f, i), fields) == RootAfter(f, i, fields)
  {
    hide StringEnd, Val, RootValue, RootEnd;
    SkipTwice(f, i);
    var j := SkipWs(f, i);
    assert RootKey(f, j, fields) == RootKey(f, i, fields);
    assert RootKey(f, j, []) == RootKey(f, i, []);
  }

  /** After a value, the rest of its container; in one step from the value's end. */
  lemma ThenRest(f: string, r: Option<nat>, kinds: seq<bool>, fields: seq<Field>, key: string, start: nat)
    requires |kinds| > 1 && (r.Some? ==> r.value <= |f|)
    ensures Up(f, r, kinds, fields, key, start) ==
            if r.None? then None else Up(f, After(f, r.value, kinds), kinds[..|kinds| - 1], fields, key, start)
  {
    hide After;
    if r.Some? {
      assert Close(f, r.value, kinds, fields, key, start) ==
             Up(f, After(f, r.value, kinds), kinds[..|kinds| - 1], fields, key, start);
    }
  }

  /** A key of the innermost object. */
  lemma KeyRead(f: string, st: St, i: nat, kinds: seq<bool>, fields: seq<Field>, key: string, start: nat)
    requires i < |f| && SkipWs(f, i) == i && |kinds| > 0
    requires st == ObjKey || (st == ObjKeyOrClose && f[i] != '}' && (|kinds| == 1 ==> fields == []))
    ensures Resume(f, st, i, kinds, fields, key, start) ==
            match StringEnd(f, i)
            case None => None
            case Some(k) => Resume(f, ObjColon, k, kinds, fields, if |kinds| == 1 then f[i + 1..k - 1] else key, start)
  {
    hide StringEnd, Colon, RootColon, Close, RootEnd;
    if |kinds| > 1 { assert ObjOpen(f, i, |kinds|) == Key(f, i, |kinds|) || st == ObjKey; }
  }

  lemma ColonUnfold(f: string, i: nat, d: nat, fields: seq<Field>, key: string)
    requires i < |f| && SkipWs(f, i) == i
    ensures f[i] != ':' ==> Colon(f, i, d).None? && RootColon(f, i, fields, key).None?
    ensures f[i] == ':' ==> Colon(f, i, d) == (var e := Val(f, i + 1, d); if e.None? then None else AfterMember(f, e.value, d))
    ensures var e := Val(f, i + 1, 1);
            f[i] == ':' ==> (RootColon(f, i, fields, key) == if e.None?
                then None else RootValue(f, SkipWs(f, i + 1), e.value, fields, key))
  {
    hide Val, AfterMember, RootValue;
  }

  lemma ColonRead(f: string, i: nat, kinds: seq<bool>, fields: seq<Field>, key: string, start: nat)
    requires i < |f| && SkipWs(f, i) == i && |kinds| > 0 && (|kinds| > 1 ==> kinds[|kinds| - 1])
    ensures Resume(f, ObjColon, i, kinds, fields, key, start) ==
            if f[i] == ':' then Resume(f, Value, i + 1, kinds, fields, key, start) else None
  {
    hide Val, AfterMember, RootValue, Colon, RootColon, SkipWs;
    ColonUnfold(f, i, |kinds|, fields, key);
    var e := Val(f, i + 1, |kinds|);
    if |kinds| > 1 {
      ThenRest(f, e, kinds, fields, key, start);
    } else if e.Some? {
      assert Close(f, e.value, kinds, fields, key, SkipWs(f, i + 1)) == RootValue(f, SkipWs(f, i + 1), e.value, fields, key);
    }
  }

  /** A container closed at once. */
  lemma EmptyRead(f: string, st: St, i: nat, kinds: seq<bool>, fields: seq<Field>, key: string, start: nat)
    requires i < |f| && SkipWs(f, i) == i && |kinds| > 0
    requires (st == ObjKeyOrClose && f[i] == '}' && (|kinds| == 1 ==> fields == [])) || (st == ArrValueOrClose &&
            f[i] == ']' && |kinds| > 1)
    ensures Resume(f, st, i, kinds, fields, key, start) == Close(f, i + 1, kinds[..|kinds| - 1], fields, key, start)
  {
    hide Key, Item, RootKey, RootEnd, RootValue;
    if |kinds| > 1 {
      assert st == ObjKeyOrClose ==> ObjOpen(f, i, |kinds|) == Some(i + 1);
      assert st == ArrValueOrClose ==> ArrOpen(f, i, |kinds|) == Some(i + 1);
    }
  }

  /** The first item of an array is a value like any other. */
  lemma FirstItemRead(f: string, i: nat, kinds: seq<bool>, fields: seq<Field>, key: string, start: nat)
    requires i < |f| && SkipWs(f, i) == i && |kinds| > 1 && !kinds[|kinds| - 1] && f[i] != ']'
    ensures Resume(f, ArrValueOrClose, i, kinds, fields, key, start) == Resume(f, Value, i, kinds, fields, key, start)
  {
    hide Val, AfterItem, RootEnd, RootValue;
    var n := |kinds|;
    ThenRest(f, Val(f, i, n), kinds, fields, key, start);
    assert ArrOpen(f, i, n) == Item(f, i, n) == (var e := Val(f, i, n); if e.None? then None else AfterItem(f, e.value, n));
  }

  /** Where a string, literal or number that starts at i ends. */
  function ScalarEnd(f: string, i: nat): (e: Option<nat>)
    requires i < |f|
    ensures e.Some? ==> i < e.value <= |f|
  {
    if f[i] == '"' then StringEnd(f, i)
    else if f[i] == 't' || f[i] == 'f' || f[i] == 'n' then LitEnd(f, i)
    else NumberEnd(f, i)
  }

  function StartOf(n: nat, i: nat, start: nat): nat { if n == 1 then i else start }

  lemma ScalarRead(f: string, i: nat, kinds: seq<bool>, fields: seq<Field>, key: string, start: nat)
    requires i < |f| && SkipWs(f, i) == i && |kinds| > 0 && f[i] != '{' && f[i] != '['
    ensures Resume(f, Value, i, kinds, fields, key, start) ==
            Up(f, ScalarEnd(f, i), kinds, fields, key, StartOf(|kinds|, i, start))
  {
    hide StringEnd, NumberEnd, LitEnd, Close, RootEnd;
    assert Val(f, i, |kinds|) == ScalarEnd(f, i);
  }

  /** Opening a container, unless 32 are open already. */
  lemma OpenRead(f: string, i: nat, kinds: seq<bool>, fields: seq<Field>, key: string, start: nat)
    requires i < |f| && SkipWs(f, i) == i && |kinds| > 0 && (f[i] == '{' || f[i] == '[')
    ensures Resume(f, Value, i, kinds, fields, key, start) ==
            if |kinds| >= MAX_DEPTH then None
            else Resume(f, if f[i] == '{' then ObjKeyOrClose
                else ArrValueOrClose, i + 1, kinds + [f[i] == '{'], fields, key, StartOf(|kinds|, i, start))
  {
    hide ObjOpen, ArrOpen, Close, RootEnd, RootOpen;
    var n := |kinds|;
    assert (kinds + [f[i] == '{'])[..n] == kinds;
    assert Val(f, i, n) == if n >= MAX_DEPTH then None else if f[i] == '{'
        then ObjOpen(f, i + 1, n + 1) else ArrOpen(f, i + 1, n + 1);
  }

  lemma RootRead(f: string, i: nat, fields: seq<Field>, key: string, start: nat)
    requires i < |f| && SkipWs(f, i) == i
    ensures Resume(f, Value, i, [], fields, key, start) == Resume(f, ObjKeyOrClose, i + 1, [true], fields, key, start)
  {
    hide RootOpen;
  }

  /** What may follow a member. */
  lemma AfterRead(f: string, i: nat, kinds: seq<bool>, fields: seq<Field>, key: string, start: nat)
    requires i < |f| && SkipWs(f, i) == i && |kinds| > 0 && (|kinds| == 1 ==> kinds[0])
    ensures var object_ := kinds[|kinds| - 1];
            Resume(f, AfterValue, i, kinds, fields, key, start) ==
            if f[i] == ',' then Resume(f, if object_ then ObjKey else Value, i + 1, kinds, fields, key, start)
            else if f[i] == (if object_ then '}' else ']') then Close(f, i + 1, kinds[..|kinds| - 1], fields, key, start)
            else None
  {
    hide Key, Val, RootKey, RootEnd, RootValue;
    var n := |kinds|;
    if n > 1 {
      if kinds[n - 1] {
        assert AfterMember(f, i, n) == if f[i] == ',' then Key(f, i + 1, n) else if f[i] == '}' then Some(i + 1) else None;
      } else {
        assert AfterItem(f, i, n) == if f[i] == ',' then Item(f, i + 1, n) else if f[i] == ']' then Some(i + 1) else None;
        ThenRest(f, Val(f, i + 1, n), kinds, fields, key, start);
        assert Item(f, i + 1, n) == (var e := Val(f, i + 1, n); if e.None? then None else AfterItem(f, e.value, n));
      }
    }
  }

  lemma ResumeStart(f: string, i: nat, fields: seq<Field>, key: string, start: nat)
    requires i == SkipWs(f, 0) < |f| && f[i] == '{'
    ensures Resume(f, Value, i, [], fields, key, start) == Scan(f)
  {
    hide RootOpen;
    SkipTwice(f, 0);
  }

  lemma EndFacts(f: string, e: nat, fields: seq<Field>)
    requires e <= |f|
    ensures RootEnd(f, e, fields) == if SkipWs(f, e) == |f| then Some(fields) else None
  {
  }

  /** Nothing left, or a byte no token starts with. */
  lemma ResumeBad(f: string, st: St, i: nat, kinds: seq<bool>, fields: seq<Field>, key: string, start: nat)
    requires i <= |f| && SkipWs(f, i) == i && (i == |f| || f[i] as int < 0x20)
    requires |kinds| > 0
    ensures Resume(f, st, i, kinds, fields, key, start) == None
  {
    hide Val, ObjOpen, Key, Colon, AfterMember, ArrOpen, AfterItem, RootOpen, RootKey, RootColon, RootAfter, SkipWs, Up;
    ValBad(f, i, |kinds|);
    OpenBad(f, i, |kinds|, fields, key);
    NoUp(f, kinds[..|kinds| - 1], fields, key, start);
    NoUp(f, kinds, fields, key, start);
    NoUp(f, kinds, fields, key, SkipWs(f, i));
  }

  lemma NoUp(f: string, kinds: seq<bool>, fields: seq<Field>, key: string, start: nat)
    ensures Up(f, None, kinds, fields, key, start) == None
  {
  }

  lemma ValBad(f: string, i: nat, d: nat)
    requires i <= |f| && SkipWs(f, i) == i && (i == |f| || f[i] as int < 0x20)
    ensures Val(f, i, d) == None
  {
    if i < |f| { NotANumber(f, i); }
    hide NumberEnd;
  }

  lemma OpenBad(f: string, i: nat, d: nat, fields: seq<Field>, key: string)
    requires i <= |f| && SkipWs(f, i) == i && (i == |f| || f[i] as int < 0x20)
    ensures ObjOpen(f, i, d) == None && Key(f, i, d) == None && Colon(f, i, d) == None && AfterMember(f, i, d) == None
    ensures ArrOpen(f, i, d) == None && AfterItem(f, i, d) == None
    ensures RootOpen(f, i) == None && RootKey(f, i, fields) == None && RootColon(f, i, fields, key) == None &&
            RootAfter(f, i, fields) == None
  {
    ValBad(f, i, d);
    hide Val;
    assert Key(f, i, d) == None && Item(f, i, d) == None && RootKey(f, i, []) == None;
  }

  lemma NotANumber(f: string, i: nat)
    requires i < |f| && f[i] != '-' && !IsDigit(f[i])
    ensures NumberEnd(f, i).None?
  {
  }

  // --- the recorded spans ------------------------------------------------------------------

  /** The fixed table the scan fills. */
  class FrameScan {
    const fields: array<Field>
    var count: nat

    ghost predicate Valid()
      reads this
    {
      fields.Length == MAX_KEYS && count <= MAX_KEYS
    }

    ghost function Contents(): seq<Field>
      reads this, fields
      requires Valid()
    {
      fields[..count]
    }

    constructor ()
      ensures Valid() && count == 0 && fresh(fields)
    {
      fields := new Field[MAX_KEYS](_ => Field("", ""));
      count := 0;
    }

    method Append(field: Field)
      requires Valid() && count < MAX_KEYS
      modifies this, fields
      ensures Valid() && Contents() == old(Contents()) + [field]
    {
      fields[count] := field;
      count := count + 1;
    }

    /** The value under a key, the first if it stands there twice; empty when absent. */
    method Find(key: string) returns (value: string)
      requires Valid()
      ensures (forall k :: 0 <= k < count ==> fields[k].key != key) ==> value == ""
      ensures forall k :: 0 <= k < count && fields[k].key == key && (forall j :: 0 <= j < k ==> fields[j].key != key) ==>
                value == fields[k].value
    {
      for k := 0 to count
        invariant forall j :: 0 <= j < k ==> fields[j].key != key
      {
        if fields[k].key == key { return fields[k].value; }
      }
      return "";
    }
  }

  datatype Tok = Ok | Bad | RawControl | UnpairedSurrogate

  class FrameScanner {
    const f: string
    const out: FrameScan
    var i: nat
    var depth: bv64
    var mask: bv64
    var pendingKey: string
    var havePendingKey: bool
    var valueStart: nat
    var rootIsObject: bool
    var done: bool
    var st: St

    constructor (frame: string, scan: FrameScan)
      requires scan.Valid() && scan.count == 0
      ensures f == frame && out == scan && i == 0 && depth == 0 && !done && st == Value && !havePendingKey && valueStart == 0
    {
      f, out, i, depth, mask := frame, scan, 0, 0, 0;
      pendingKey, havePendingKey, valueStart := "", false, 0;
      rootIsObject, done, st := false, false, Value;
    }

    ghost function Stack(): seq<bool>
      reads this
    {
      Kinds(mask, depth)
    }

    ghost function Recorded(): seq<Field>
      reads this, out, out.fields
      requires out.Valid()
    {
      out.Contents()
    }

    /** What the frame will come to, from here. */
    ghost function Rest(): Option<seq<Field>>
      reads this, out, out.fields
      requires i <= |f| && out.Valid()
    {
      if done then RootEnd(f, i, Recorded()) else Resume(f, st, i, Stack(), Recorded(), pendingKey, valueStart)
    }

    /** What it will come to if a value has just ended here. */
    ghost function Closed(): Option<seq<Field>>
      reads this, out, out.fields
      requires i <= |f| && out.Valid()
    {
      Close(f, i, Stack(), Recorded(), pendingKey, valueStart)
    }

    ghost predicate Shape()
      reads this, out
    {
      && i <= |f| && depth <= 32 && out.Valid()
      && (!done && depth == 0 ==> st == Value) && (done ==> depth == 0) && (havePendingKey ==> rootIsObject)
    }

    /** Where the scan of a root object stands between two tokens. */
    ghost predicate RootShape()
      reads this, out
      requires Shape()
    {
      var kinds := Stack();
      && valueStart <= i
      && (!done && depth == 0 ==> out.count == 0 && !havePendingKey && SkipWs(f, i) < |f| && f[SkipWs(f, i)] == '{')
      && (depth == 1 && st == ObjKeyOrClose ==> out.count == 0)
      && (depth == 1 ==> st != ArrValueOrClose)
      && (|kinds| > 0 ==> kinds[0])
      && (|kinds| > 0 && (st == ObjKeyOrClose || st == ObjKey || st == ObjColon) ==> kinds[|kinds| - 1])
      && (|kinds| > 0 && st == ArrValueOrClose ==> !kinds[|kinds| - 1])
      && (depth > 0 ==> (havePendingKey <==> !(depth == 1 && (st == ObjKeyOrClose || st == ObjKey || st == AfterValue))))
    }

    method SkipSpace()
      requires i <= |f|
      modifies this`i
      ensures i == SkipWs(f, old(i))
    {
      while i < |f| && IsWs(f[i])
        invariant i <= |f| && SkipWs(f, i) == SkipWs(f, old(i))
      {
        i := i + 1;
      }
    }

    method SkipDigits()
      requires i <= |f|
      modifies this`i
      ensures i == DigitsEnd(f, old(i))
    {
      while i < |f| && IsDigit(f[i])
        invariant i <= |f| && DigitsEnd(f, i) == DigitsEnd(f, old(i))
      {
        i := i + 1;
      }
    }

    method ScanWhole() returns (ok: bool)
      requires i <= |f|
      modifies this`i
      ensures i <= |f| && WholeEnd(f, old(i)) == if ok then Some(i) else None
    {
      if i >= |f| || !IsDigit(f[i]) { return false; }
      if f[i] == '0' { i := i + 1; } else { SkipDigits(); }
      return true;
    }

    method ScanFrac() returns (ok: bool)
      requires i <= |f|
      modifies this`i
      ensures i <= |f| && FracEnd(f, old(i)) == if ok then Some(i) else None
    {
      if i < |f| && f[i] == '.' {
        i := i + 1;
        if i >= |f| || !IsDigit(f[i]) { return false; }
        SkipDigits();
      }
      return true;
    }

    method ScanExp() returns (ok: bool)
      requires i <= |f|
      modifies this`i
      ensures i <= |f| && ExpEnd(f, old(i)) == if ok then Some(i) else None
    {
      if i < |f| && (f[i] == 'e' || f[i] == 'E') {
        i := i + 1;
        if i < |f| && (f[i] == '+' || f[i] == '-') { i := i + 1; }
        if i >= |f| || !IsDigit(f[i]) { return false; }
        SkipDigits();
      }
      return true;
    }

    method ScanNumber() returns (ok: bool)
      requires i < |f|
      modifies this`i
      ensures i <= |f| && NumberEnd(f, old(i)) == if ok then Some(i) else None
    {
      hide WholeEnd, FracEnd, ExpEnd;
      if f[i] == '-' { i := i + 1; }
      ok := ScanWhole();
      if !ok { return; }
      ok := ScanFrac();
      if !ok { return; }
      ok := ScanExp();
    }

    /** Four hex digits as a code unit; 0x110000 when they are not there. */
    method ScanHex4() returns (cu: nat)
      requires i <= |f|
      modifies this`i
      ensures old(i) <= i <= |f| && (cu <= 0xFFFF <==> Hex4At(f, old(i)))
      ensures cu <= 0xFFFF ==> cu == UnitAt(f, old(i)) && i == old(i) + 4
      ensures cu <= 0xFFFF || cu == 0x110000
    {
      if |f| - i < 4 { return 0x110000; }
      var a := i;
      cu := 0;
      var k := 0;
      while k < 4
        invariant k <= 4 && i == a + k && a + 4 <= |f|
        invariant forall x :: a <= x < i ==> IsHex(f[x])
        invariant k == 0 ==> cu == 0
        invariant k == 1 ==> cu == HexDigit(f[a])
        invariant k == 2 ==> cu == 0x10 * HexDigit(f[a]) + HexDigit(f[a + 1])
        invariant k == 3 ==> cu == 0x100 * HexDigit(f[a]) + 0x10 * HexDigit(f[a + 1]) + HexDigit(f[a + 2])
        invariant k == 4 ==> cu == 0x1000 * HexDigit(f[a]) + 0x100 * HexDigit(f[a + 1]) + 0x10 * HexDigit(f[a + 2]) + HexDigit(f[a + 3])
      {
        if !IsHex(f[i]) {
          assert f[a..a + 4][k] == f[i];
          return 0x110000;
        }
        cu := 0x10 * cu + HexDigit(f[i]);
        k, i := k + 1, i + 1;
      }
      assert f[a..a + 4] == [f[a], f[a + 1], f[a + 2], f[a + 3]];
    }

    /** The rest of a \u escape, the cursor past the u. */
    method ScanUnit() returns (t: Tok)
      requires 2 <= i <= |f| && f[i - 2] == '\\' && f[i - 1] == 'u'
      modifies this`i
      ensures old(i) <= i <= |f| && BodyEnd(f, old(i) - 2) == if t == Ok then BodyEnd(f, i) else None
      ensures t == Ok ==> old(i) < i
    {
      hide UnitAt, Hex4At;
      var cu := ScanHex4();
      if cu > 0xFFFF { return Bad; }
      if IsLow(cu) { return UnpairedSurrogate; }
      if IsHigh(cu) {
        if |f| - i < 2 || f[i] != '\\' || f[i + 1] != 'u' { return UnpairedSurrogate; }
        i := i + 2;
        var lo := ScanHex4();
        if lo > 0xFFFF { return Bad; }
        if !IsLow(lo) { return UnpairedSurrogate; }
      }
      return Ok;
    }

    /** From the opening quote to past the closing one. */
    method ScanString() returns (t: Tok)
      requires i < |f| && f[i] == '"'
      modifies this`i
      ensures i <= |f| && StringEnd(f, old(i)) == if t == Ok then Some(i) else None
    {
      i := i + 1;
      while i < |f|
        invariant i <= |f| && BodyEnd(f, i) == BodyEnd(f, old(i) + 1)
      {
        var c := f[i];
        if c == '"' {
          i := i + 1;
          return Ok;
        }
        if c as int < 0x20 { return RawControl; }
        if c != '\\' {
          i := i + 1;
          continue;
        }
        i := i + 1;
        if i >= |f| { return Bad; }
        if IsShort(f[i]) {
          i := i + 1;
        } else if f[i] == 'u' {
          i := i + 1;
          t := ScanUnit();
          if t != Ok { return; }
        } else {
          return Bad;
        }
      }
      return Bad;
    }

    /** A value has just ended at the cursor: record it if it is a root member's, then go on. */
    method ValueDone() returns (ok: bool)
      requires i <= |f| && depth <= 32 && out.Valid() && !done && (havePendingKey ==> rootIsObject)
      requires rootIsObject ==> valueStart <= i && (depth > 0 ==> havePendingKey) && (|Stack()| > 0 ==> Stack()[0])
      modifies this`havePendingKey, this`done, this`st, out, out.fields
      ensures out.Valid()
      ensures ok ==> Shape() && (rootIsObject ==> RootShape() && Rest() == old(Closed()))
      ensures !ok ==> rootIsObject ==> old(Closed()).None?
    {
      hide Kinds, RootEnd, RootAfter, After, Up;
      KindsFacts(mask, depth);
      if depth == 1 && havePendingKey {
        if out.count == MAX_KEYS { return false; }
        out.Append(Field(pendingKey, f[valueStart..i]));
        havePendingKey := false;
      }
      if depth == 0 { done := true; } else { st := AfterValue; }
      return true;
    }

    /** At a token: the cursor past any whitespace, something left to read. */
    ghost predicate Ready()
      reads this, out
    {
      Shape() && !done && i < |f| && SkipWs(f, i) == i && (rootIsObject ==> RootShape())
    }

    method StepKey() returns (ok: bool)
      requires Ready() && depth > 0 && (st == ObjKey || (st == ObjKeyOrClose && f[i] != '}'))
      modifies this, out, out.fields
      ensures unchanged(out) && unchanged(out.fields) && rootIsObject == old(rootIsObject)
      ensures ok ==> Shape() && old(i) < i && (rootIsObject ==> RootShape() && Rest() == old(Rest()))
      ensures !ok ==> rootIsObject ==> old(Rest()).None?
    {
      hide Kinds, Resume;
      KindsFacts(mask, depth);
      if rootIsObject { KeyRead(f, st, i, Stack(), Recorded(), pendingKey, valueStart); }
      if f[i] != '"' { return false; }
      var keyStart := i + 1;
      var t := ScanString();
      if t != Ok { return false; }
      if depth == 1 && rootIsObject {
        pendingKey := f[keyStart..i - 1];
        havePendingKey := true;
      }
      st := ObjColon;
      assert Stack() == old(Stack()) && Recorded() == old(Recorded());
      return true;
    }

    method StepColon() returns (ok: bool)
      requires Ready() && depth > 0 && st == ObjColon
      modifies this
      ensures unchanged(out) && unchanged(out.fields) && rootIsObject == old(rootIsObject)
      ensures ok ==> Shape() && old(i) < i && (rootIsObject ==> RootShape() && Rest() == old(Rest()))
      ensures !ok ==> rootIsObject ==> old(Rest()).None?
    {
      hide Kinds, Resume;
      KindsFacts(mask, depth);
      if rootIsObject { ColonRead(f, i, Stack(), Recorded(), pendingKey, valueStart); }
      if f[i] != ':' { return false; }
      i := i + 1;
      st := Value;
      return true;
    }

    /** One more container open: an object, or an array. */
    method Push(object_: bool)
      requires depth < 32
      modifies this`mask, this`depth
      ensures depth == old(depth) + 1 && Stack() == old(Stack()) + [object_]
    {
      hide Kinds, KindAt, Set, Cleared;
      PushKind(mask, depth);
      mask := if object_ then Set(mask, depth) else Cleared(mask, depth);
      depth := depth + 1;
    }

    /** Past the bracket that opens a container. */
    method Enter()
      requires Shape() && !done && i < |f| && depth < 32
      modifies this`mask, this`depth, this`i, this`st
      ensures Shape() && i == old(i) + 1 && depth == old(depth) + 1 && depth > 0
      ensures Stack() == old(Stack()) + [old(f[i]) == '{']
      ensures st == if old(f[i]) == '{' then ObjKeyOrClose else ArrValueOrClose
    {
      var c := f[i];
      Push(c == '{');
      i := i + 1;
      st := if c == '{' then ObjKeyOrClose else ArrValueOrClose;
    }

    /** A root member's value starts here. */
    method MarkStart()
      requires depth <= 32
      modifies this`valueStart
      ensures old(valueStart) <= i ==> valueStart <= i
      ensures rootIsObject ==> valueStart == if |Stack()| == 0 then old(valueStart) else StartOf(|Stack()|, i, old(valueStart))
    {
      hide Kinds;
      KindsFacts(mask, depth);
      if depth == 1 && rootIsObject { valueStart := i; }
    }

    method StepOpen() returns (ok: bool)
      requires Ready() && (st == Value || (st == ArrValueOrClose && f[i] != ']')) && (f[i] == '{' || f[i] == '[')
      modifies this`mask, this`depth, this`i, this`st, this`valueStart
      ensures ok ==> Shape() && old(i) < i && (rootIsObject ==> RootShape() && Rest() == old(Rest()))
      ensures !ok ==> rootIsObject ==> old(Rest()).None?
    {
      hide Kinds, Resume, KindAt, StartOf, SkipWs;
      KindsFacts(mask, depth);
      if rootIsObject { OpenFacts(); }
      MarkStart();
      if depth == 32 { return false; }
      Enter();
      return true;
    }

    /** What opening a container leaves to be read. */
    lemma OpenFacts()
      requires Ready() && rootIsObject && (st == Value || (st == ArrValueOrClose && f[i] != ']')) &&
              (f[i] == '{' || f[i] == '[')
      ensures var kinds := Stack();
              Rest() == if |kinds| >= MAX_DEPTH then None
                        else Resume(f, if f[i] == '{' then ObjKeyOrClose else ArrValueOrClose, i + 1, kinds + [f[i] == '{'],
                                    Recorded(), pendingKey, if |kinds| == 0
                                        then valueStart else StartOf(|kinds|, i, valueStart))
      ensures |Stack()| == 0 ==> f[i] == '{'
    {
      hide Kinds, Resume;
      KindsFacts(mask, depth);
      if |Stack()| == 0 {
        RootRead(f, i, Recorded(), pendingKey, valueStart);
        assert Stack() == [] && [] + [true] == [true];
      } else {
        if st == ArrValueOrClose { FirstItemRead(f, i, Stack(), Recorded(), pendingKey, valueStart); }
        OpenRead(f, i, Stack(), Recorded(), pendingKey, valueStart);
      }
    }

    /** A literal at the cursor. */
    method ScanLiteral() returns (ok: bool)
      requires i < |f| && (f[i] == 't' || f[i] == 'f' || f[i] == 'n')
      modifies this`i
      ensures i <= |f| && LitEnd(f, old(i)) == if ok then Some(i) else None
    {
      var lit := if f[i] == 't' then "true" else if f[i] == 'f' then "false" else "null";
      assert At(f, i, "true") ==> f[i..i + 4][0] == 't';
      assert At(f, i, "false") ==> f[i..i + 5][0] == 'f';
      assert At(f, i, "null") ==> f[i..i + 4][0] == 'n';
      if |f| - i < |lit| || f[i..i + |lit|] != lit { return false; }
      i := i + |lit|;
      return true;
    }

    /** A string, literal or number. */
    method ScanScalar() returns (ok: bool)
      requires i < |f|
      modifies this`i
      ensures i <= |f| && ScalarEnd(f, old(i)) == if ok then Some(i) else None
    {
      hide NumberEnd, LitEnd, StringEnd;
      match f[i]
      case '"' =>
        var t := ScanString();
        return t == Ok;
      case 't' | 'f' | 'n' => ok := ScanLiteral();
      case _ =>
        if f[i] != '-' && !IsDigit(f[i]) {
          assert NumberEnd(f, i).None? by { NotANumber(f, i); }
          return false;
        }
        ok := ScanNumber();
    }

    method StepScalar() returns (ok: bool)
      requires Ready() && (st == Value || (st == ArrValueOrClose && f[i] != ']')) && f[i] != '{' && f[i] != '['
      modifies this, out, out.fields
      ensures out.Valid()
      ensures rootIsObject == old(rootIsObject)
      ensures ok ==> Shape() && old(i) < i && (rootIsObject ==> RootShape() && Rest() == old(Rest()))
      ensures !ok ==> rootIsObject ==> old(Rest()).None?
    {
      hide Kinds, Resume, Close, ScalarEnd, SkipWs, StartOf, RootShape;
      if rootIsObject { ScalarFacts(); }
      MarkStart();
      ok := ScanScalar();
      if !ok { return; }
      assert Stack() == old(Stack()) && Recorded() == old(Recorded());
      ok := ValueDone();
    }

    /** What a scalar leaves to be read. */
    lemma ScalarFacts()
      requires Ready() && rootIsObject && (st == Value || (st == ArrValueOrClose && f[i] != ']')) && f[i] != '{' && f[i] != '['
      ensures var kinds := Stack();
              && |kinds| > 0 && kinds[0] && havePendingKey && valueStart <= i
              && Rest() == (match ScalarEnd(f, i)
                            case None => None
                            case Some(e) => Close(f, e, kinds, Recorded(), pendingKey, StartOf(|kinds|, i, valueStart)))
    {
      hide Kinds, Resume, Close, ScalarEnd;
      KindsFacts(mask, depth);
      if st == ArrValueOrClose { FirstItemRead(f, i, Stack(), Recorded(), pendingKey, valueStart); }
      ScalarRead(f, i, Stack(), Recorded(), pendingKey, valueStart);
    }

    /** The cursor at the bracket that closes the innermost container. */
    method CloseContainer() returns (ok: bool)
      requires Ready() && depth > 0
      requires rootIsObject ==> (havePendingKey <==> depth > 1)
      modifies this, out, out.fields
      ensures out.Valid()
      ensures rootIsObject == old(rootIsObject)
      ensures ok ==> Shape() && old(i) < i && (rootIsObject ==> RootShape())
      ensures rootIsObject ==>
                old(Close(f, i + 1, Stack()[..|Stack()| - 1], Recorded(), pendingKey, valueStart)) == if ok
                    then Rest() else None
    {
      hide Resume, Close, Kinds, KindAt;
      KindsFacts(mask, depth);
      KindsPop(mask, depth);
      i := i + 1;
      depth := depth - 1;
      KindsFacts(mask, depth);
      assert Stack() == old(Stack())[..|old(Stack())| - 1] && Recorded() == old(Recorded());
      ok := ValueDone();
    }

    method StepEmpty() returns (ok: bool)
      requires Ready() && depth > 0 && ((st == ObjKeyOrClose && f[i] == '}') || (st == ArrValueOrClose && f[i] == ']'))
      modifies this, out, out.fields
      ensures out.Valid()
      ensures rootIsObject == old(rootIsObject)
      ensures ok ==> Shape() && old(i) < i && (rootIsObject ==> RootShape() && Rest() == old(Rest()))
      ensures !ok ==> rootIsObject ==> old(Rest()).None?
    {
      hide Kinds, Resume, Close;
      KindsFacts(mask, depth);
      if rootIsObject { EmptyRead(f, st, i, Stack(), Recorded(), pendingKey, valueStart); }
      ok := CloseContainer();
    }

    /** Past a comma, to the next key or item. */
    method Comma(inObject: bool)
      requires Ready() && depth > 0 && st == AfterValue && inObject == KindAt(mask, depth - 1)
      modifies this`i, this`st
      ensures Shape() && i == old(i) + 1 && st == (if inObject then ObjKey else Value)
      ensures rootIsObject ==> RootShape()
    {
      hide Kinds, KindAt, SkipWs;
      KindsFacts(mask, depth);
      KindsPop(mask, depth);
      i := i + 1;
      st := if inObject then ObjKey else Value;
    }

    /** What may follow a member, and what it leaves to be read. */
    lemma AfterFacts()
      requires Ready() && rootIsObject && depth > 0 && st == AfterValue
      ensures var kinds := Stack(); var inObject := KindAt(mask, depth - 1);
              && |kinds| > 0 && (havePendingKey <==> depth > 1)
              && Rest() ==
                 if f[i] == ',' then Resume(f, if inObject
                     then ObjKey else Value, i + 1, kinds, Recorded(), pendingKey, valueStart)
                 else if f[i] == (if inObject then '}' else ']')
                     then Close(f, i + 1, kinds[..|kinds| - 1], Recorded(), pendingKey, valueStart)
                 else None
    {
      hide Resume, Close, KindAt, Kinds;
      KindsFacts(mask, depth);
      KindsPop(mask, depth);
      AfterRead(f, i, Stack(), Recorded(), pendingKey, valueStart);
    }

    method StepAfter() returns (ok: bool)
      requires Ready() && depth > 0 && st == AfterValue
      modifies this, out, out.fields
      ensures out.Valid()
      ensures rootIsObject == old(rootIsObject)
      ensures ok ==> Shape() && old(i) < i && (rootIsObject ==> RootShape() && Rest() == old(Rest()))
      ensures !ok ==> rootIsObject ==> old(Rest()).None?
    {
      hide Resume, Close, KindAt, Kinds, SkipWs, RootShape;
      if rootIsObject { AfterFacts(); }
      var inObject := KindAt(mask, depth - 1);
      if f[i] == ',' {
        Comma(inObject);
        return true;
      }
      if f[i] != (if inObject then '}' else ']') { return false; }
      ok := CloseContainer();
    }

    method Step() returns (ok: bool)
      requires Ready()
      modifies this, out, out.fields
      ensures out.Valid()
      ensures rootIsObject == old(rootIsObject)
      ensures ok ==> Shape() && old(i) < i && (rootIsObject ==> RootShape() && Rest() == old(Rest()))
      ensures !ok ==> rootIsObject ==> old(Rest()).None?
    {
      hide Kinds, Resume, RootShape;
      var c := f[i];
      match st
      case ObjColon => ok := StepColon();
      case ObjKey => ok := StepKey();
      case ObjKeyOrClose => if c == '}' { ok := StepEmpty(); } else { ok := StepKey(); }
      case AfterValue => ok := StepAfter();
      case ArrValueOrClose =>
        if c == ']' { ok := StepEmpty(); } else if c == '{' || c == '[' { ok := StepOpen(); } else { ok := StepScalar(); }
      case Value => if c == '{' || c == '[' { ok := StepOpen(); } else { ok := StepScalar(); }
    }

    /** On to the next token; a frame cut short or a raw control byte is refused here. */
    method SkipToToken() returns (more: bool)
      requires Shape() && !done && (rootIsObject ==> RootShape())
      modifies this`i
      ensures old(i) <= i
      ensures more ==> Ready() && (rootIsObject ==> Rest() == old(Rest()))
      ensures !more ==> rootIsObject ==> old(Rest()).None?
    {
      hide Resume, Kinds;
      KindsFacts(mask, depth);
      SkipTwice(f, i);
      ResumeSkip(f, st, i, Stack(), Recorded(), pendingKey, valueStart);
      SkipSpace();
      if i >= |f| || f[i] as int < 0x20 {
        if rootIsObject { ResumeBad(f, st, i, Stack(), Recorded(), pendingKey, valueStart); }
        return false;
      }
      return true;
    }

    /** The whole frame: accepted exactly when it reads as one, with its root members recorded. */
    method Run() returns (ok: bool)
      requires Shape() && i == 0 && depth == 0 && !done && st == Value && !havePendingKey && valueStart == 0 && out.count == 0
      modifies this, out, out.fields
      ensures out.Valid()
      ensures ok <==> Scan(f).Some?
      ensures ok ==> out.Contents() == Scan(f).value
    {
      hide Resume, RootOpen, RootEnd, Close;
      SkipSpace();
      SkipTwice(f, 0);
      if i >= |f| { return false; }
      rootIsObject := f[i] == '{';
      if rootIsObject { ResumeStart(f, i, Recorded(), pendingKey, valueStart); }
      assert Stack() == [];
      while !done
        invariant Shape() && rootIsObject == (SkipWs(f, 0) < |f| && f[SkipWs(f, 0)] == '{')
        invariant rootIsObject ==> RootShape() && Rest() == Scan(f)
        decreases |f| - i
      {
        var more := SkipToToken();
        if !more { return false; }
        more := Step();
        if !more { return false; }
      }
      ghost var e := i;
      SkipSpace();
      assert rootIsObject ==> RootEnd(f, e, Recorded()) == if i == |f| then Some(Recorded()) else None by {
        EndFacts(f, e, Recorded());
      }
      if i < |f| { return false; }
      return rootIsObject;
    }
  }
}
