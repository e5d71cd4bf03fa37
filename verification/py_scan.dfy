/** The client's scan: recursive descent over regex tokens, with a one-regex fast path in front of it
    (python/mmclient/_preflight.py:96-118,166-334). It accepts the frames the engine's scanner accepts,
    with the same root members. */
module PyScan {
  import opened Text
  import opened JsonGrammar
  import opened JsonLexer
  import opened JsonScan
  import Preflight
  import Utf8

  // --- tokens ------------------------------------------------------------------------------

  /** The string production of the token regex: it knows nothing of surrogates. */
  function PyBodyEnd(f: string, j: nat): (e: Option<nat>)
    ensures e.Some? ==> j < e.value <= |f|
    decreases |f| - j
  {
    if j >= |f| then None
    else if f[j] == '"' then Some(j + 1)
    else if f[j] as int < 0x20 then None
    else if f[j] != '\\' then PyBodyEnd(f, j + 1)
    else if j + 1 >= |f| then None
    else if IsShort(f[j + 1]) then PyBodyEnd(f, j + 2)
    else if f[j + 1] == 'u' && Hex4At(f, j + 2) then PyBodyEnd(f, j + 6)
    else None
  }

  /** The number production: a fraction or exponent that does not complete is left unread. */
  function PyNumberEnd(f: string, i: nat): (e: Option<nat>)
    ensures e.Some? ==> i < e.value <= |f|
  {
    var w := WholeEnd(f, MinusEnd(f, i));
    if w.None? then None
    else
      var r := FracEnd(f, w.value);
      var r' := if r.None? then w.value else r.value;
      var x := ExpEnd(f, r');
      Some(if x.None? then r' else x.value)
  }

  /** Nothing that can follow a value starts with one of these. */
  predicate Stuck(f: string, p: nat) { p < |f| && (f[p] == '.' || f[p] == 'e' || f[p] == 'E') }

  lemma NumberTwin(f: string, i: nat)
    ensures NumberEnd(f, i).Some? ==> PyNumberEnd(f, i) == NumberEnd(f, i)
    ensures NumberEnd(f, i).None? && PyNumberEnd(f, i).Some? ==> Stuck(f, PyNumberEnd(f, i).value)
  {
  }

  // --- surrogate pairs, checked after the token matched -------------------------------------

  /** The escapes of the body f[k..e - 1] pair their surrogates, one high half pending or not. */
  predicate Paired(f: string, k: nat, e: nat, pending: bool)
    requires e <= |f|
    decreases |f| - k
  {
    if k + 1 >= e then !pending
    else if f[k] != '\\' then !pending && Paired(f, k + 1, e, false)
    else if f[k + 1] == 'u' && Hex4At(f, k + 2) then
      var u := UnitAt(f, k + 2);
      if pending then IsLow(u) && Paired(f, k + 6, e, false)
      else !IsLow(u) && Paired(f, k + 6, e, IsHigh(u))
    else !pending && Paired(f, k + 2, e, false)
  }

  lemma {:induction false} TokenThenPairs(f: string, j: nat)
    ensures PyBodyEnd(f, j).None? ==> BodyEnd(f, j).None?
    ensures PyBodyEnd(f, j).Some? ==>
              BodyEnd(f, j) == if Paired(f, j, PyBodyEnd(f, j).value, false) then PyBodyEnd(f, j) else None
    decreases |f| - j
  {
    if j < |f| && f[j] != '"' && f[j] as int >= 0x20 {
      if f[j] != '\\' {
        TokenThenPairs(f, j + 1);
      } else if j + 1 < |f| {
        if IsShort(f[j + 1]) {
          TokenThenPairs(f, j + 2);
        } else if f[j + 1] == 'u' && Hex4At(f, j + 2) {
          var u := UnitAt(f, j + 2);
          if IsHigh(u) { HighHalf(f, j); } else { TokenThenPairs(f, j + 6); }
        }
      }
    }
  }

  lemma {:induction false} HighHalf(f: string, j: nat)
    requires j + 1 < |f| && f[j] == '\\' && f[j + 1] == 'u' && Hex4At(f, j + 2) && IsHigh(UnitAt(f, j + 2))
    ensures PyBodyEnd(f, j).None? ==> BodyEnd(f, j).None?
    ensures PyBodyEnd(f, j).Some? ==>
              BodyEnd(f, j) == if Paired(f, j, PyBodyEnd(f, j).value, false) then PyBodyEnd(f, j) else None
    decreases |f| - j, 0
  {
    assert PyBodyEnd(f, j) == PyBodyEnd(f, j + 6);
    if PairAt(f, j + 6) {
      TokenThenPairs(f, j + 12);
      assert PyBodyEnd(f, j + 6) == PyBodyEnd(f, j + 12);
    }
    if PyBodyEnd(f, j).Some? { PendingNeedsLow(f, j + 6, PyBodyEnd(f, j).value); }
  }

  lemma PendingNeedsLow(f: string, k: nat, e: nat)
    requires PyBodyEnd(f, k) == Some(e)
    ensures Paired(f, k, e, true) <==> PairAt(f, k) && Paired(f, k + 6, e, false)
  {
    if k + 1 < e && PairAt(f, k) { }
  }

  // --- what a token is worth ---------------------------------------------------------------

  datatype Kind = StrTok | NumTok | LitTok | PunctTok

  predicate IsPunct(c: char) { c == '{' || c == '}' || c == '[' || c == ']' || c == ':' || c == ',' }

  /** The token f[start..pos] and what the grammar makes of it. */
  ghost predicate IsToken(f: string, kind: Kind, start: nat, pos: nat) {
    && start < pos <= |f| && !IsWs(f[start])
    && match kind
       case StrTok => f[start] == '"' && StringEnd(f, start) == Some(pos)
       case LitTok => (f[start] == 't' || f[start] == 'f' || f[start] == 'n') && LitEnd(f, start) == Some(pos)
       case PunctTok => IsPunct(f[start]) && pos == start + 1
       case NumTok =>
           (f[start] == '-' || IsDigit(f[start])) &&
           (NumberEnd(f, start) == Some(pos) || (NumberEnd(f, start).None? && Stuck(f, pos)))
  }

  /** Nothing of the grammar starts at p once whitespace is skipped. */
  ghost predicate NoToken(f: string, p: nat)
    requires p <= |f|
  {
    var j := SkipWs(f, p);
    j < |f| ==>
      && !IsPunct(f[j]) && (f[j] == '"' ==> StringEnd(f, j).None?)
      && (f[j] == 't' || f[j] == 'f' || f[j] == 'n' ==> LitEnd(f, j).None?)
      && (f[j] != '"' && f[j] != 't' && f[j] != 'f' && f[j] != 'n' ==> NumberEnd(f, j).None?)
  }

  lemma NoTokenNoValue(f: string, p: nat, d: nat)
    requires p <= |f| && NoToken(f, p)
    ensures Val(f, p, d).None? && Key(f, p, d).None? && ObjOpen(f, p, d).None? && ArrOpen(f, p, d).None?
    ensures AfterMember(f, p, d).None? && AfterItem(f, p, d).None? && Colon(f, p, d).None? && Item(f, p, d).None?
  {
    hide NumberEnd, LitEnd, BodyEnd;
    assert Val(f, p, d).None? && StringEnd(f, SkipWs(f, p)).None?;
    assert Key(f, p, d).None? && Item(f, p, d).None?;
  }

  class Scanner {
    const data: string
    var pos: nat

    constructor (data: string)
      ensures this.data == data && pos == 0
    {
      this.data := data;
      pos := 0;
    }

    /** Escaped surrogates must form adjacent pairs: the escapes of the body data[from..to - 1], left to
        right, the end of a high half remembered until its low half is met. */
    method CheckEscapes(from: nat, to: nat) returns (ok: bool)
      requires PyBodyEnd(data, from) == Some(to)
      ensures ok <==> Paired(data, from, to, false)
    {
      var pending: int := -1;
      var k: nat := from;
      while k < to - 1
        invariant k <= to <= |data| && PyBodyEnd(data, k) == Some(to)
        invariant pending == -1 || pending == k
        invariant Paired(data, from, to, false) <==> Paired(data, k, to, pending != -1)
      {
        if data[k] != '\\' {
          if pending != -1 { return false; }
          k := k + 1;
        } else {
          var isUnit := data[k + 1] == 'u';
          var code := if isUnit then CodeUnit(data[k + 2..k + 6]) else -1;
          if pending >= 0 {
            if !(0xDC00 <= code <= 0xDFFF) { return false; }
            pending := -1;
          } else if 0xDC00 <= code <= 0xDFFF {
            return false;
          } else if 0xD800 <= code <= 0xDBFF {
            pending := k + 6;
          }
          k := if isUnit then k + 6 else k + 2;
        }
      }
      return pending < 0;
    }

    /** The next token; anything else is malformed. */
    method Token() returns (ok: bool, kind: Kind, start: nat)
      requires pos <= |data|
      modifies this`pos
      ensures old(pos) <= pos <= |data| && (ok ==> old(pos) < pos)
      ensures ok ==> start == SkipWs(data, old(pos)) && IsToken(data, kind, start, pos)
      ensures !ok ==> NoToken(data, old(pos))
    {
      hide PyNumberEnd, NumberEnd, LitEnd, PyBodyEnd, BodyEnd;
      start := SkipWs(data, pos);
      ok, kind := false, PunctTok;
      if start >= |data| { return; }
      var c := data[start];
      if c == '"' {
        var e := PyBodyEnd(data, start + 1);
        TokenThenPairs(data, start + 1);
        if e.None? { return; }
        ok, kind, pos := true, StrTok, e.value;
        ok := CheckEscapes(start + 1, pos);
      } else if c == '-' || IsDigit(c) {
        NumberTwin(data, start);
        var e := PyNumberEnd(data, start);
        if e.None? { return; }
        ok, kind, pos := true, NumTok, e.value;
      } else if c == 't' || c == 'f' || c == 'n' {
        var e := LitEnd(data, start);
        if e.None? { return; }
        ok, kind, pos := true, LitTok, e.value;
      } else if IsPunct(c) {
        ok, kind, pos := true, PunctTok, start + 1;
      } else {
        assert NumberEnd(data, start).None? by { NotNumber(data, start); }
      }
    }

    /** The rest of a value whose first token has been read; depth is that of a container it opens. */
    method Value(kind: Kind, start: nat, depth: nat) returns (ok: bool)
      requires IsToken(data, kind, start, pos) && 1 <= depth <= MAX_DEPTH + 1
      modifies this`pos
      ensures old(pos) <= pos <= |data|
      ensures ok ==> Val(data, start, depth - 1) == Some(pos) || (Val(data, start, depth - 1).None? && Stuck(data, pos))
      ensures !ok ==> Val(data, start, depth - 1).None?
      decreases |data| - pos, 2
    {
      hide NumberEnd, LitEnd, StringEnd, ObjOpen, ArrOpen;
      TokenVal(data, kind, start, pos, depth - 1);
      if kind != PunctTok { return true; }
      match data[start]
      case '{' => ok := Members(depth);
      case '[' => ok := Elements(depth);
      case _ => return false;
    }

    /** One member, its key already read; closed says whether the object ended with it. */
    method Member(kind: Kind, start: nat, depth: nat, ghost from: nat) returns (ok: bool, closed: bool)
      requires 1 <= depth <= MAX_DEPTH && from <= |data| && start == SkipWs(data, from) && IsToken(data, kind, start, pos)
      modifies this`pos
      ensures old(pos) <= pos <= |data| && (ok ==> old(pos) < pos)
      ensures Key(data, from, depth) == if !ok then None else if closed then Some(pos) else Key(data, pos, depth)
      decreases |data| - pos, 3
    {
      hide Key, Colon, AfterMember, Val, SkipWs, IsToken, NoToken;
      closed := false;
      TokenSpan(data, kind, start, pos);
      if kind != StrTok {
        KeyNeedsString(data, from, depth, kind, start, pos);
        return false, false;
      }
      KeyIsColon(data, from, depth, start, pos);
      ghost var at := pos;
      ok := Expect(':');
      ColonIs(data, at, depth, ok, pos);
      if !ok { return; }
      at := pos;
      var tok, first;
      ok, tok, first := Token();
      if !ok {
        NoTokenNoValue(data, at, depth);
        return;
      }
      ValSkip(data, at, depth);
      TokenSpan(data, tok, first, pos);
      ok := Value(tok, first, depth + 1);
      if !ok { return; }
      at := pos;
      ok, closed := Closed('}');
      AfterMemberIs(data, at, depth, ok, closed, pos);
    }

    /** An object nested in another value, its brace already read. */
    method Members(depth: nat) returns (ok: bool)
      requires pos <= |data| && 1 <= depth <= MAX_DEPTH + 1
      modifies this`pos
      ensures old(pos) <= pos <= |data|
      ensures (if depth > MAX_DEPTH then None else ObjOpen(data, old(pos), depth)) == if ok then Some(pos) else None
      decreases |data| - pos, 1
    {
      hide Key, ObjOpen, SkipWs, IsToken, NoToken;
      if depth > MAX_DEPTH { return false; }
      ghost var from := pos;
      var kind, start;
      ok, kind, start := Token();
      if !ok {
        NoTokenNoValue(data, from, depth);
        return;
      }
      ObjOpenIs(data, from, depth, kind, start, pos);
      TokenSpan(data, kind, start, pos);
      if kind == PunctTok && data[start] == '}' { return true; }
      while true
        invariant old(pos) <= from < pos <= |data| && IsToken(data, kind, start, pos) && start == SkipWs(data, from)
        invariant ObjOpen(data, old(pos), depth) == Key(data, from, depth)
        decreases |data| - pos
      {
        var closed;
        ok, closed := Member(kind, start, depth, from);
        if !ok || closed { return; }
        from := pos;
        ok, kind, start := Token();
        if !ok {
          NoTokenNoValue(data, from, depth);
          return;
        }
        TokenSpan(data, kind, start, pos);
      }
    }

    /** One item, its first token already read; closed says whether the array ended with it. */
    method Element(kind: Kind, start: nat, depth: nat, ghost from: nat) returns (ok: bool, closed: bool)
      requires 1 <= depth <= MAX_DEPTH && from <= |data| && start == SkipWs(data, from) && IsToken(data, kind, start, pos)
      modifies this`pos
      ensures old(pos) <= pos <= |data| && (ok ==> old(pos) < pos)
      ensures Item(data, from, depth) == if !ok then None else if closed then Some(pos) else Item(data, pos, depth)
      decreases |data| - pos, 3
    {
      hide Item, AfterItem, Val, SkipWs, IsToken;
      closed := false;
      ValSkip(data, from, depth);
      ItemIs(data, from, depth);
      ok := Value(kind, start, depth + 1);
      if !ok { return; }
      ghost var at := pos;
      ok, closed := Closed(']');
      AfterItemIs(data, at, depth, ok, closed, pos);
    }

    /** An array, its bracket already read. */
    method Elements(depth: nat) returns (ok: bool)
      requires pos <= |data| && 1 <= depth <= MAX_DEPTH + 1
      modifies this`pos
      ensures old(pos) <= pos <= |data|
      ensures (if depth > MAX_DEPTH then None else ArrOpen(data, old(pos), depth)) == if ok then Some(pos) else None
      decreases |data| - pos, 1
    {
      hide Item, ArrOpen, SkipWs, IsToken, NoToken;
      if depth > MAX_DEPTH { return false; }
      ghost var from := pos;
      var kind, start;
      ok, kind, start := Token();
      if !ok {
        NoTokenNoValue(data, from, depth);
        return;
      }
      ArrOpenIs(data, from, depth, kind, start, pos);
      TokenSpan(data, kind, start, pos);
      if kind == PunctTok && data[start] == ']' { return true; }
      while true
        invariant old(pos) <= from < pos <= |data| && IsToken(data, kind, start, pos) && start == SkipWs(data, from)
        invariant ArrOpen(data, old(pos), depth) == Item(data, from, depth)
        decreases |data| - pos
      {
        var closed;
        ok, closed := Element(kind, start, depth, from);
        if !ok || closed { return; }
        from := pos;
        ok, kind, start := Token();
        if !ok {
          NoTokenNoValue(data, from, depth);
          return;
        }
        TokenSpan(data, kind, start, pos);
      }
    }

    /** A closing bracket, or a comma, or it is malformed. */
    method Closed(closer: char) returns (ok: bool, closed: bool)
      requires pos <= |data| && (closer == '}' || closer == ']')
      modifies this`pos
      ensures old(pos) <= pos <= |data|
      ensures ok ==> old(pos) < pos
      ensures var j := SkipWs(data, old(pos));
              && (ok ==> j < |data| && data[j] == (if closed then closer else ',') && pos == j + 1)
              && (!ok ==> j < |data| ==> data[j] != closer && data[j] != ',')
    {
      hide NumberEnd, LitEnd, StringEnd;
      var kind, start;
      ok, kind, start := Token();
      closed := false;
      if !ok { return; }
      if kind == PunctTok && data[start] == closer { return true, true; }
      if kind == PunctTok && data[start] == ',' { return true, false; }
      return false, false;
    }

    method Expect(punct: char) returns (ok: bool)
      requires pos <= |data| && IsPunct(punct)
      modifies this`pos
      ensures old(pos) <= pos <= |data|
      ensures var j := SkipWs(data, old(pos));
              if ok then j < |data| && data[j] == punct && pos == j + 1 else j < |data| ==> data[j] != punct
    {
      hide NumberEnd, LitEnd, StringEnd;
      var kind, start;
      ok, kind, start := Token();
      if ok { ok := kind == PunctTok && data[start] == punct; }
    }

    /** One root member, recorded under the key policy when its value has been read. */
    method RootMember(kind: Kind, start: nat, ghost from: nat, top: map<string, string>, ghost fields: seq<Field>)
      returns (ok: bool, closed: bool, top': map<string, string>, ghost fields': seq<Field>)
      requires from <= |data| && start == SkipWs(data, from) && IsToken(data, kind, start, pos)
      requires KeyPolicy(fields) && top == MapOf(fields) && |fields| <= MAX_KEYS
      modifies this`pos
      ensures old(pos) <= pos <= |data| && (ok ==> old(pos) < pos)
      ensures ok ==> KeyPolicy(fields') && top' == MapOf(fields') && |fields'| <= MAX_KEYS
      ensures ok ==> RootKey(data, from, fields) == if closed then RootEnd(data, pos, fields') else RootKey(data, pos, fields')
      ensures !ok ==> Refused(RootKey(data, from, fields))
    {
      hide RootKey, RootColon, RootValue, RootAfter, RootEnd, Val, SkipWs, IsToken, NoToken, MapOf, KeyPolicy;
      closed, top', fields' := false, top, fields;
      TokenSpan(data, kind, start, pos);
      if kind != StrTok {
        RootNeedsString(data, from, fields, kind, start, pos);
        return false, false, top, fields;
      }
      RootKeyIsColon(data, from, fields, start, pos);
      var key := data[start + 1..pos - 1];
      ghost var at := pos;
      ok := Expect(':');
      RootColonIs(data, at, fields, key, ok, pos);
      if !ok { return; }
      at := pos;
      var tok, first;
      ok, tok, first := Token();
      if !ok {
        NoTokenNoValue(data, at, 1);
        return;
      }
      ValSkip(data, at, 1);
      TokenSpan(data, tok, first, pos);
      ok := Value(tok, first, 2);
      if !ok { return; }
      ghost var e := pos;
      ok, top' := Record(top, key, data[first..pos], fields);
      fields' := fields + [Field(key, data[first..pos])];
      if ok { ok, closed := Closed('}'); }
      RootMemberIs(data, first, e, fields, key, ok, closed, pos);
    }

    /** The root object, its brace already read. */
    method RootMembers() returns (ok: bool, top: map<string, string>, ghost fields: seq<Field>)
      requires pos <= |data|
      modifies this`pos
      ensures old(pos) <= pos <= |data|
      ensures ok ==> RootOpen(data, old(pos)) == RootEnd(data, pos, fields) && KeyPolicy(fields) && top == MapOf(fields)
      ensures !ok ==> Refused(RootOpen(data, old(pos)))
    {
      hide RootKey, RootEnd, RootOpen, SkipWs, IsToken, NoToken, KeyPolicy;
      top, fields := map[], [];
      assert KeyPolicy([]) by { NoKeys(); }
      ghost var from := pos;
      var kind, start;
      ok, kind, start := Token();
      if !ok {
        NoTokenNoRoot(data, from, fields);
        return;
      }
      RootOpenIs(data, from, kind, start, pos);
      TokenSpan(data, kind, start, pos);
      if kind == PunctTok && data[start] == '}' { return true, map[], []; }
      while true
        invariant old(pos) <= from < pos <= |data| && IsToken(data, kind, start, pos) && start == SkipWs(data, from)
        invariant RootOpen(data, old(pos)) == RootKey(data, from, fields)
        invariant KeyPolicy(fields) && top == MapOf(fields) && |fields| <= MAX_KEYS
        decreases |data| - pos
      {
        var closed;
        ok, closed, top, fields := RootMember(kind, start, from, top, fields);
        if !ok || closed { return; }
        from := pos;
        ok, kind, start := Token();
        if !ok {
          NoTokenNoRoot(data, from, fields);
          return;
        }
        TokenSpan(data, kind, start, pos);
      }
    }

    /** Literal names, none twice, at most 32. */
    method Record(top: map<string, string>, name: string, value: string, ghost fields: seq<Field>)
      returns (ok: bool, top': map<string, string>)
      requires KeyPolicy(fields) && top == MapOf(fields)
      ensures ok <==> KeyPolicy(fields + [Field(name, value)]) && |fields| < MAX_KEYS
      ensures ok ==> top' == MapOf(fields + [Field(name, value)])
    {
      hide MapOf;
      MapIs(fields);
      MapKeys(fields, name);
      PolicySnoc(fields, Field(name, value));
      MapSnoc(fields, Field(name, value));
      top' := top;
      if '\\' in name { return false, top; }
      if name in top { return false, top; }
      if |top| == MAX_KEYS || |top| > MAX_KEYS { return false, top; }
      return true, top[name := value];
    }
  }

  /** A dict keyed by name, as the members are recorded one after another. */
  function MapOf(fields: seq<Field>): map<string, string> {
    if fields == [] then map[]
    else MapOf(fields[..|fields| - 1])[fields[|fields| - 1].key := fields[|fields| - 1].value]
  }

  /** No acceptable frame comes of it: the grammar refuses, or the key policy will. */
  ghost predicate Refused(r: Option<seq<Field>>) { r.Some? ==> !KeyPolicy(r.value) }

  lemma TokenSpan(f: string, kind: Kind, start: nat, pos: nat)
    requires IsToken(f, kind, start, pos)
    ensures start < pos <= |f|
  {
  }

  lemma TokenVal(f: string, kind: Kind, start: nat, pos: nat, d: nat)
    requires IsToken(f, kind, start, pos)
    ensures SkipWs(f, start) == start
    ensures kind != PunctTok ==> Val(f, start, d) == Some(pos) || (Val(f, start, d).None? && Stuck(f, pos))
    ensures kind == PunctTok && (d >= MAX_DEPTH || (f[start] != '{' && f[start] != '[')) ==> Val(f, start, d).None?
    ensures kind == PunctTok && d < MAX_DEPTH && f[start] == '{' ==> Val(f, start, d) == ObjOpen(f, pos, d + 1)
    ensures kind == PunctTok && d < MAX_DEPTH && f[start] == '[' ==> Val(f, start, d) == ArrOpen(f, pos, d + 1)
  {
    hide LitEnd, StringEnd, ObjOpen, ArrOpen;
    if kind == PunctTok && f[start] != '{' && f[start] != '[' { NotNumber(f, start); }
  }

  lemma ObjOpenIs(f: string, from: nat, d: nat, kind: Kind, start: nat, pos: nat)
    requires from <= |f| && start == SkipWs(f, from) && IsToken(f, kind, start, pos)
    ensures ObjOpen(f, from, d) == if kind == PunctTok && f[start] == '}' then Some(pos) else Key(f, from, d)
  {
    hide Key;
  }

  lemma ArrOpenIs(f: string, from: nat, d: nat, kind: Kind, start: nat, pos: nat)
    requires from <= |f| && start == SkipWs(f, from) && IsToken(f, kind, start, pos)
    ensures ArrOpen(f, from, d) == if kind == PunctTok && f[start] == ']' then Some(pos) else Item(f, from, d)
  {
    hide Item;
  }

  lemma KeyNeedsString(f: string, from: nat, d: nat, kind: Kind, start: nat, pos: nat)
    requires from <= |f| && start == SkipWs(f, from) && IsToken(f, kind, start, pos) && kind != StrTok
    ensures Key(f, from, d).None?
  {
  }

  lemma KeyIsColon(f: string, from: nat, d: nat, start: nat, pos: nat)
    requires from <= |f| && start == SkipWs(f, from) && IsToken(f, StrTok, start, pos)
    ensures Key(f, from, d) == Colon(f, pos, d)
  {
    hide Colon;
  }

  lemma ColonIs(f: string, from: nat, d: nat, ok: bool, pos: nat)
    requires from <= |f|
    requires var j := SkipWs(f, from); if ok then j < |f| && f[j] == ':' && pos == j + 1 else j < |f| ==> f[j] != ':'
    ensures Colon(f, from, d) == if !ok then None else var e := Val(f, pos, d); if e.None?
            then None else AfterMember(f, e.value, d)
  {
    hide Val, AfterMember;
  }

  lemma AfterMemberIs(f: string, from: nat, d: nat, ok: bool, closed: bool, pos: nat)
    requires from <= |f|
    requires var j := SkipWs(f, from);
             && (ok ==> j < |f| && f[j] == (if closed then '}' else ',') && pos == j + 1)
             && (!ok ==> j < |f| ==> f[j] != '}' && f[j] != ',')
    ensures AfterMember(f, from, d) == if !ok then None else if closed then Some(pos) else Key(f, pos, d)
    ensures Stuck(f, from) ==> !ok
  {
    hide Key;
  }

  lemma ItemIs(f: string, from: nat, d: nat)
    requires from <= |f|
    ensures Item(f, from, d) == var e := Val(f, from, d); if e.None? then None else AfterItem(f, e.value, d)
  {
    hide Val, AfterItem;
  }

  lemma AfterItemIs(f: string, from: nat, d: nat, ok: bool, closed: bool, pos: nat)
    requires from <= |f|
    requires var j := SkipWs(f, from);
             && (ok ==> j < |f| && f[j] == (if closed then ']' else ',') && pos == j + 1)
             && (!ok ==> j < |f| ==> f[j] != ']' && f[j] != ',')
    ensures AfterItem(f, from, d) == if !ok then None else if closed then Some(pos) else Item(f, pos, d)
    ensures Stuck(f, from) ==> !ok
  {
    hide Item;
  }

  lemma NotNumber(f: string, i: nat)
    requires i < |f| && f[i] != '-' && !IsDigit(f[i])
    ensures NumberEnd(f, i).None?
  {
  }

  // --- the dict and the list of members -----------------------------------------------------

  lemma MapSnoc(fields: seq<Field>, field: Field)
    ensures MapOf(fields + [field]) == MapOf(fields)[field.key := field.value]
  {
    assert (fields + [field])[..|fields|] == fields;
  }

  predicate HasKey(fields: seq<Field>, key: string) { exists i :: 0 <= i < |fields| && fields[i].key == key }

  lemma HasKeySnoc(init: seq<Field>, last: Field, key: string)
    ensures HasKey(init + [last], key) <==> HasKey(init, key) || last.key == key
  {
    var all := init + [last];
    assert all[|init|] == last;
    if i :| 0 <= i < |init| && init[i].key == key { assert all[i].key == key; }
  }

  lemma {:induction false} MapKeys(fields: seq<Field>, key: string)
    ensures key in MapOf(fields) <==> HasKey(fields, key)
  {
    if fields != [] {
      var init, last := fields[..|fields| - 1], fields[|fields| - 1];
      MapKeys(init, key);
      HasKeySnoc(init, last, key);
      assert fields == init + [last];
    }
  }

  /** Distinct names: as many entries as members. */
  lemma {:induction false} MapIs(fields: seq<Field>)
    requires KeyPolicy(fields)
    ensures |MapOf(fields)| == |fields|
  {
    if fields != [] {
      var init, last := fields[..|fields| - 1], fields[|fields| - 1];
      PolicyPrefix(init, fields);
      MapIs(init);
      MapKeys(init, last.key);
      assert !HasKey(init, last.key);
      MapAdds(MapOf(init), last.key, last.value);
    }
  }

  /** And each name has its member's value. */
  lemma {:induction false} MapValue(fields: seq<Field>, i: nat)
    requires KeyPolicy(fields) && i < |fields|
    ensures fields[i].key in MapOf(fields) && MapOf(fields)[fields[i].key] == fields[i].value
  {
    var init := fields[..|fields| - 1];
    if i < |fields| - 1 {
      PolicyPrefix(init, fields);
      MapValue(init, i);
    }
  }

  lemma MapAdds(m: map<string, string>, key: string, value: string)
    requires key !in m
    ensures |m[key := value]| == |m| + 1
  {
    assert m[key := value].Keys == m.Keys + {key};
  }

  lemma PolicySnoc(fields: seq<Field>, field: Field)
    requires KeyPolicy(fields)
    ensures KeyPolicy(fields + [field]) <==> !Escaped(field.key) && !HasKey(fields, field.key)
  {
    var all := fields + [field];
    assert all[|fields|] == field;
    forall i | 0 <= i < |fields| ensures all[i] == fields[i] {}
    assert KeyPolicy(all) ==> forall i :: 0 <= i < |fields| ==> all[i].key != all[|fields|].key;
  }

  lemma PolicyPrefix(a: seq<Field>, b: seq<Field>)
    requires a <= b && KeyPolicy(b)
    ensures KeyPolicy(a)
  {
    forall i | 0 <= i < |a| ensures a[i] == b[i] {}
  }

  lemma {:induction false} RootExtends(f: string, i: nat, fields: seq<Field>)
    requires i <= |f|
    ensures RootAfter(f, i, fields).Some? ==> fields <= RootAfter(f, i, fields).value
    decreases |f| - i
  {
    hide Val, StringEnd;
    var j := SkipWs(f, i);
    if RootAfter(f, i, fields).Some? && f[j] == ',' {
      assert RootAfter(f, i, fields) == RootKey(f, j + 1, fields);
      var q := SkipWs(f, j + 1);
      var k := StringEnd(f, q).value;
      var key := f[q + 1..k - 1];
      assert RootKey(f, j + 1, fields) == RootColon(f, k, fields, key);
      var c := SkipWs(f, k);
      var e := Val(f, c + 1, 1).value;
      var v := SkipWs(f, c + 1);
      assert RootColon(f, k, fields, key) == RootValue(f, v, e, fields, key);
      var fields' := fields + [Field(key, f[v..e])];
      assert RootValue(f, v, e, fields, key) == RootAfter(f, e, fields');
      RootExtends(f, e, fields');
    }
  }

  // --- one step at the root ----------------------------------------------------------------

  lemma RootNeedsString(f: string, from: nat, fields: seq<Field>, kind: Kind, start: nat, pos: nat)
    requires from <= |f| && start == SkipWs(f, from) && IsToken(f, kind, start, pos) && kind != StrTok
    ensures RootKey(f, from, fields).None?
  {
  }

  lemma RootKeyIsColon(f: string, from: nat, fields: seq<Field>, start: nat, pos: nat)
    requires from <= |f| && start == SkipWs(f, from) && IsToken(f, StrTok, start, pos)
    ensures start + 1 < pos <= |f| && RootKey(f, from, fields) == RootColon(f, pos, fields, f[start + 1..pos - 1])
  {
    hide RootColon;
  }

  lemma RootColonIs(f: string, from: nat, fields: seq<Field>, key: string, ok: bool, pos: nat)
    requires from <= |f|
    requires var j := SkipWs(f, from); if ok then j < |f| && f[j] == ':' && pos == j + 1 else j < |f| ==> f[j] != ':'
    ensures RootColon(f, from, fields, key) ==
            if !ok then None else var e := Val(f, pos, 1); if e.None?
                then None else RootValue(f, SkipWs(f, pos), e.value, fields, key)
  {
    hide Val, RootValue;
  }

  /** After a root value that ended at e: recorded and closed, recorded and followed by a comma, or refused. */
  lemma RootMemberIs(f: string, v: nat, e: nat, fields: seq<Field>, key: string, ok: bool, closed: bool, pos: nat)
    requires v <= e <= |f| && KeyPolicy(fields) && |fields| <= MAX_KEYS
    requires Val(f, v, 1) == Some(e) || (Val(f, v, 1).None? && Stuck(f, e))
    requires var fields' := fields + [Field(key, f[v..e])]; var j := SkipWs(f, e);
             && (ok ==>
                 KeyPolicy(fields') && |fields| < MAX_KEYS && j < |f| &&
                 f[j] == (if closed then '}' else ',') && pos == j + 1)
             && (!ok ==> !(KeyPolicy(fields') && |fields| < MAX_KEYS) || (j < |f| ==> f[j] != '}' && f[j] != ','))
    ensures ok ==> Val(f, v, 1) == Some(e)
    ensures var fields' := fields + [Field(key, f[v..e])];
            ok ==> RootValue(f, v, e, fields, key) == if closed then RootEnd(f, pos, fields') else RootKey(f, pos, fields')
    ensures !ok && Val(f, v, 1).Some? ==> Refused(RootValue(f, v, e, fields, key))
  {
    hide Val, RootKey, RootEnd, KeyPolicy;
    var fields' := fields + [Field(key, f[v..e])];
    var r := RootAfter(f, e, fields');
    RootExtends(f, e, fields');
    if r.Some? && KeyPolicy(r.value) { PolicyPrefix(fields', r.value); }
    if Stuck(f, e) { assert SkipWs(f, e) == e; }
  }

  lemma NoKeys()
    ensures KeyPolicy([]) && MapOf([]) == map[]
  {
  }

  lemma NoTokenNoRoot(f: string, p: nat, fields: seq<Field>)
    requires p <= |f| && NoToken(f, p)
    ensures RootOpen(f, p).None? && RootKey(f, p, fields).None?
  {
    hide NumberEnd, LitEnd, BodyEnd;
    assert StringEnd(f, SkipWs(f, p)).None?;
    assert RootKey(f, p, []).None? && RootKey(f, p, fields).None?;
  }

  lemma RootOpenIs(f: string, from: nat, kind: Kind, start: nat, pos: nat)
    requires from <= |f| && start == SkipWs(f, from) && IsToken(f, kind, start, pos)
    ensures RootOpen(f, from) == if kind == PunctTok && f[start] == '}' then RootEnd(f, pos, []) else RootKey(f, from, [])
  {
    hide RootKey, RootEnd;
  }

  // --- the scan of record ------------------------------------------------------------------

  /** What a scan returns: the root members as a dict, for a frame of the grammar that keeps the key policy. */
  function Scanned(f: string): Option<map<string, string>> {
    var fields := JsonScan.Scan(f);
    if fields.Some? && KeyPolicy(fields.value) then Some(MapOf(fields.value)) else None
  }

  method ScanGeneral(frame: string) returns (r: Option<map<string, string>>)
    ensures r == Scanned(frame)
  {
    hide RootOpen, RootEnd, IsToken, NoToken, KeyPolicy, MapOf, Refused;
    var scan := new Scanner(frame);
    var ok, kind, start := scan.Token();
    if !ok {
      assert JsonScan.Scan(frame).None? by { NoTokenNoScan(frame); }
      return None;
    }
    FirstToken(frame, kind, start, scan.pos);
    if kind != PunctTok || frame[start] != '{' {
      // Whatever the value and the rest come to, the root is not an object.
      var _ := scan.Value(kind, start, 1);
      return None;
    }
    ghost var fields;
    var top;
    ghost var from := scan.pos;
    ok, top, fields := scan.RootMembers();
    if !ok {
      assert Refused(RootOpen(frame, from));
      assert Scanned(frame).None? by { RefusedIsNone(frame); }
      return None;
    }
    RootEndIs(frame, scan.pos, fields);
    if SkipWs(frame, scan.pos) < |frame| { return None; }
    return Some(top);
  }

  lemma RefusedIsNone(f: string)
    requires Refused(JsonScan.Scan(f))
    ensures Scanned(f).None?
  {
    hide KeyPolicy, JsonScan.Scan;
  }

  lemma NoTokenNoScan(f: string)
    requires NoToken(f, 0)
    ensures JsonScan.Scan(f).None?
  {
  }

  lemma FirstToken(f: string, kind: Kind, start: nat, pos: nat)
    requires start == SkipWs(f, 0) && IsToken(f, kind, start, pos)
    ensures start < pos <= |f|
    ensures JsonScan.Scan(f) == if kind == PunctTok && f[start] == '{' then RootOpen(f, pos) else None
  {
    hide RootOpen;
  }

  lemma RootEndIs(f: string, e: nat, fields: seq<Field>)
    requires e <= |f|
    ensures RootEnd(f, e, fields) == if SkipWs(f, e) == |f| then Some(fields) else None
  {
  }

  // --- the fast path -----------------------------------------------------------------------

  /** What the member regex captures: name, value and closer, and where the match ends. */
  datatype Match = Match(name: string, value: string, closer: char, end: nat)

  predicate AllPlain(ps: seq<Piece>) { forall i :: 0 <= i < |ps| ==> ps[i].Plain? }

  function MatchText(ms: Members, closer: char): string {
    ms.before + (Quoted(ms.key) + (ms.colon + (":" + (ms.gap + (Show(ms.value) + (ms.after + [closer]))))))
  }

  /** A way of cutting the text at pos as the regex says: one member of a flat, escape-free object, then
      a comma or the closing brace. */
  ghost predicate Matches(f: string, pos: nat, ms: Members, closer: char) {
    && ms.LastMember? && ValidMembers(ms) && AllPlain(ms.key) && (closer == ',' || closer == '}')
    && ((ms.value.Str? && AllPlain(ms.value.pieces)) || ms.value.Num? || ms.value.Lit?)
    && At(f, pos, MatchText(ms, closer))
  }

  /** What a match captures. */
  function Captured(pos: nat, ms: Members, closer: char): Match {
    Match(ShowPieces(ms.key), Show(ms.value), closer, pos + |MatchText(ms, closer)|)
  }

  function FlatEnd(f: string, i: nat): (e: Option<nat>)
    requires i < |f|
    ensures e.Some? ==> i < e.value <= |f|
  {
    if f[i] == '"' then StringEnd(f, i)
    else if f[i] == 't' || f[i] == 'f' || f[i] == 'n' then LitEnd(f, i)
    else NumberEnd(f, i)
  }

  /** The one match there is, in a text without a backslash. */
  function MatchMember(f: string, pos: nat): (m: Option<Match>)
    requires pos <= |f|
    ensures m.Some? ==> pos < m.value.end <= |f| && (m.value.closer == ',' || m.value.closer == '}')
  {
    var q := SkipWs(f, pos);
    var k := StringEnd(f, q);
    if k.None? then None
    else
      var c := SkipWs(f, k.value);
      if c >= |f| || f[c] != ':' then None
      else
        var v := SkipWs(f, c + 1);
        if v >= |f| then None
        else
          var e := FlatEnd(f, v);
          if e.None? then None
          else
            var t := SkipWs(f, e.value);
            if t >= |f| || (f[t] != ',' && f[t] != '}') then None
            else Some(Match(f[q + 1..k.value - 1], f[v..e.value], f[t], t + 1))
  }

  lemma {:induction false} PlainWithin(f: string, i: nat, ps: seq<Piece>)
    requires '\\' !in f && ValidPieces(ps) && At(f, i, ShowPieces(ps))
    ensures AllPlain(ps)
    decreases |ps|
  {
    hide At;
    if ps != [] {
      AtSplit(f, i, ShowPiece(ps[0]), ShowPieces(ps[1..]));
      AtStart(f, i, ShowPiece(ps[0]));
      AtFits(f, i, ShowPiece(ps[0]));
      assert f[i] in f;
      PlainWithin(f, i + |ShowPiece(ps[0])|, ps[1..]);
    }
  }

  lemma PlainString(f: string, i: nat, ps: seq<Piece>)
    requires '\\' !in f && ValidPieces(ps) && At(f, i, Quoted(ps))
    ensures AllPlain(ps)
  {
    hide At;
    AtSplit(f, i, "\"" + ShowPieces(ps), "\"");
    AtSplit(f, i, "\"", ShowPieces(ps));
    PlainWithin(f, i + 1, ps);
  }

  lemma MatchJoin(f: string, i: nat, ms: Members, closer: char)
    ensures var q := i + |ms.before|; var k := q + |Quoted(ms.key)|; var c := k + |ms.colon|;
            var g := c + 1; var v := g + |ms.gap|; var e := v + |Show(ms.value)|;
            && (At(f, i, MatchText(ms, closer)) <==>
                  At(f, i, ms.before) && At(f, q, Quoted(ms.key)) && At(f, k, ms.colon) && At(f, c, ":") && At(f, g, ms.gap)
                  && At(f, v, Show(ms.value)) && At(f, e, ms.after + [closer]))
            && i + |MatchText(ms, closer)| == e + |ms.after| + 1
  {
    hide At, Quoted, Show;
    var q := i + |ms.before|;
    var k := q + |Quoted(ms.key)|;
    var c := k + |ms.colon|;
    var g := c + 1;
    var end := ms.after + [closer];
    var value := Show(ms.value) + end;
    var gap := ms.gap + value;
    var colon := ":" + gap;
    var rest := ms.colon + colon;
    AtSplit(f, g + |ms.gap|, Show(ms.value), end);
    AtSplit(f, g, ms.gap, value);
    AtSplit(f, c, ":", gap);
    AtSplit(f, k, ms.colon, colon);
    AtSplit(f, q, Quoted(ms.key), rest);
    AtSplit(f, i, ms.before, Quoted(ms.key) + rest);
  }

  lemma MatchParts(f: string, pos: nat, ms: Members, closer: char) returns (q: nat, k: nat, c: nat, v: nat, e: nat, t: nat)
    requires Matches(f, pos, ms, closer)
    ensures pos <= q < k <= c < v <= e <= t < |f|
    ensures SkipWs(f, pos) == q && StringEnd(f, q) == Some(k) && q + 1 < k && f[q + 1..k - 1] == ShowPieces(ms.key)
    ensures SkipWs(f, k) == c && f[c] == ':' && At(f, c + 1, ms.gap) && v == c + 1 + |ms.gap|
    ensures At(f, v, Show(ms.value)) && e == v + |Show(ms.value)| && Ends(f, e)
    ensures SkipWs(f, e) == t && f[t] == closer && t + 1 == pos + |MatchText(ms, closer)|
  {
    hide At, Quoted, Show, ShowPieces, StringEnd, MatchText, ValidPieces, AllPlain, Ends, SkipWs;
    MatchJoin(f, pos, ms, closer);
    KeyParts(f, pos, ms.before, ms.key);
    q := pos + |ms.before|;
    k := q + |Quoted(ms.key)|;
    ColonPart(f, k, ms.colon);
    c := k + |ms.colon|;
    v := c + 1 + |ms.gap|;
    e := v + |Show(ms.value)|;
    t := e + |ms.after|;
    AfterIs(f, e, ms.after, [closer]);
  }

  /** Whatever the regex could match is what is matched. */
  lemma MatchComplete(f: string, pos: nat, ms: Members, closer: char)
    requires Matches(f, pos, ms, closer)
    ensures pos <= |f| && MatchMember(f, pos) == Some(Captured(pos, ms, closer))
  {
    hide At, Quoted, Show, ShowPieces, StringEnd, FlatEnd, MatchText, ValidPieces, AllPlain, Ends, SkipWs;
    var q, k, c, v, e, t := MatchParts(f, pos, ms, closer);
    FlatComplete(f, c + 1, ms.gap, ms.value);
    AtSlice(f, v, e, Show(ms.value));
  }

  lemma FlatComplete(f: string, g: nat, gap: string, value: Json)
    requires At(f, g, gap) && AllWs(gap) && At(f, g + |gap|, Show(value)) && JsonGrammar.Valid(value)
    requires (value.Str? || value.Num? || value.Lit?) && Ends(f, g + |gap| + |Show(value)|)
    ensures g <= |f| && SkipWs(f, g) == g + |gap| < |f| && FlatEnd(f, g + |gap|) == Some(g + |gap| + |Show(value)|)
  {
    hide At, Show, StringEnd, NumberEnd, LitEnd, Ends, ValidPieces;
    var v := g + |gap|;
    ShowStart(value);
    AtStart(f, v, Show(value));
    AtFits(f, v, Show(value));
    SkipWsIs(f, g, gap);
    ScalarComplete(f, v, value);
  }

  /** The parts of a match, put together again. */
  lemma MatchBuilt(f: string, pos: nat, q: nat, k: nat, c: nat, v: nat, e: nat, t: nat, key: seq<Piece>,
      value: Json) returns (ms: Members)
    requires pos <= q < k <= c < v < e <= t < |f| && k == q + |Quoted(key)| && e == v + |Show(value)|
    requires At(f, q, Quoted(key)) && f[c] == ':' && At(f, v, Show(value))
    ensures ms == LastMember(f[pos..q], key, f[k..c], f[c + 1..v], value, f[e..t])
    ensures At(f, pos, MatchText(ms, f[t])) && t + 1 == pos + |MatchText(ms, f[t])|
  {
    hide At, Quoted, Show, MatchText;
    ms := LastMember(f[pos..q], key, f[k..c], f[c + 1..v], value, f[e..t]);
    AtSlice(f, pos, q, f[pos..q]);
    AtSlice(f, k, c, f[k..c]);
    AtSlice(f, c + 1, v, f[c + 1..v]);
    AtSlice(f, e, t, f[e..t]);
    AtOne(f, c, ':');
    AtOne(f, t, f[t]);
    AtSplit(f, e, f[e..t], [f[t]]);
    MatchJoin(f, pos, ms, f[t]);
  }

  /** And what is matched is something the regex matches. */
  lemma MatchSound(f: string, pos: nat) returns (ms: Members)
    requires pos <= |f| && '\\' !in f && MatchMember(f, pos).Some?
    ensures var m := MatchMember(f, pos).value; Matches(f, pos, ms, m.closer) && m == Captured(pos, ms, m.closer)
  {
    hide At, Quoted, Show, ShowPieces, StringEnd, FlatEnd, MatchText, ValidPieces, AllPlain;
    var q := SkipWs(f, pos);
    var k := StringEnd(f, q).value;
    var c := SkipWs(f, k);
    var v := SkipWs(f, c + 1);
    var e := FlatEnd(f, v).value;
    var t := SkipWs(f, e);
    var key := StringSound(f, q);
    PlainString(f, q, key);
    SkipTwice(f, c + 1);
    var value := FlatSound(f, v);
    ms := MatchBuilt(f, pos, q, k, c, v, e, t, key, value);
    AtSlice(f, v, e, Show(value));
  }

  lemma FlatSound(f: string, v: nat) returns (value: Json)
    requires v < |f| && '\\' !in f && FlatEnd(f, v).Some? && SkipWs(f, v) == v
    ensures JsonGrammar.Valid(value) && At(f, v, Show(value)) && FlatEnd(f, v).value == v + |Show(value)|
    ensures (value.Str? && AllPlain(value.pieces)) || value.Num? || value.Lit?
  {
    hide At, StringEnd, NumberEnd, LitEnd, AllPlain;
    if f[v] == '"' {
      var ps := StringSound(f, v);
      PlainString(f, v, ps);
      value := Str(ps);
    } else if f[v] == 't' || f[v] == 'f' || f[v] == 'n' {
      value := LitSound(f, v);
      assert value.Lit? by { LitIsLit(f, v, value); }
    } else {
      var n := NumberSound(f, v);
      value := Num(n);
    }
  }

  lemma LitIsLit(f: string, v: nat, value: Json)
    requires LitEnd(f, v).Some? && JsonGrammar.Valid(value) && Depth(value) == 0 && At(f, v, Show(value))
    requires f[v] == 't' || f[v] == 'f' || f[v] == 'n'
    ensures value.Lit?
  {
    hide At, LitEnd;
    ShowStart(value);
    AtStart(f, v, Show(value));
  }

  /** One matched member is one root member read. */
  lemma MatchStep(f: string, pos: nat, fields: seq<Field>)
    requires pos <= |f| && MatchMember(f, pos).Some?
    ensures var m := MatchMember(f, pos).value; var fields' := fields + [Field(m.name, m.value)];
            && RootKey(f, pos, fields) ==
               (if |fields| >= MAX_KEYS then None
                else if m.closer == ',' then RootKey(f, m.end, fields') else RootEnd(f, m.end, fields'))
            && RootOpen(f, pos) == RootKey(f, pos, [])
  {
    hide StringEnd, LitEnd, NumberEnd, RootKey, RootEnd, FlatEnd, Val, SkipWs;
    var q := SkipWs(f, pos);
    var k := StringEnd(f, q).value;
    var c := SkipWs(f, k);
    var v := SkipWs(f, c + 1);
    var e := FlatEnd(f, v).value;
    FlatIsVal(f, c + 1);
    RootUnfold(f, pos, fields, q, k, c);
    QuoteFirst(f, q);
  }

  lemma QuoteFirst(f: string, q: nat)
    requires StringEnd(f, q).Some?
    ensures q < |f| && f[q] == '"'
  {
  }

  lemma FlatIsVal(f: string, i: nat)
    requires i <= |f| && SkipWs(f, i) < |f| && FlatEnd(f, SkipWs(f, i)).Some?
    ensures Val(f, i, 1) == FlatEnd(f, SkipWs(f, i))
  {
    var j := SkipWs(f, i);
    if f[j] == '{' || f[j] == '[' { NotNumber(f, j); }
  }

  method HasBackslash(frame: string) returns (yes: bool)
    ensures yes <==> '\\' in frame
  {
    for k := 0 to |frame|
      invariant '\\' !in frame[..k]
    {
      if frame[k] == '\\' { return true; }
    }
    assert frame[..|frame|] == frame;
    return false;
  }

  /** The member loop: a dict when the whole frame is one flat, escape-free object, nothing otherwise. */
  method FlatMembers(frame: string) returns (r: Option<map<string, string>>)
    requires '\\' !in frame && frame != "" && frame[0] == '{'
    ensures r.Some? ==> r == Scanned(frame)
  {
    hide RootKey, RootEnd, RootOpen, MatchMember, MapOf, KeyPolicy;
    var top: map<string, string> := map[];
    ghost var fields: seq<Field> := [];
    NoKeys();
    var pos := 1;
    assert JsonScan.Scan(frame) == RootOpen(frame, 1) by { OpensAtOnce(frame); }
    while true
      invariant pos <= |frame| && KeyPolicy(fields) && top == MapOf(fields) && |fields| <= MAX_KEYS
      invariant JsonScan.Scan(frame) == if fields == [] then RootOpen(frame, pos) else RootKey(frame, pos, fields)
      decreases |frame| - pos
    {
      var member := MatchMember(frame, pos);
      if member.None? { return None; }
      var m := member.value;
      MatchStep(frame, pos, fields);
      assert '\\' !in m.name by { NameIsPlain(frame, pos); }
      MapIs(fields);
      MapKeys(fields, m.name);
      if m.name in top || |top| >= MAX_KEYS { return None; }
      PolicySnoc(fields, Field(m.name, m.value));
      MapSnoc(fields, Field(m.name, m.value));
      top := top[m.name := m.value];
      fields := fields + [Field(m.name, m.value)];
      pos := m.end;
      if m.closer == '}' {
        RootEndIs(frame, pos, fields);
        if SkipWs(frame, pos) == |frame| { return Some(top); }
        return None;
      }
    }
  }

  /** The scan the client runs: the fast loop when it can finish, the scan of record otherwise. */
  method Scan(frame: string) returns (r: Option<map<string, string>>)
    ensures r == Scanned(frame)
  {
    var escaped := HasBackslash(frame);
    if !escaped && frame != "" && frame[0] == '{' {
      r := FlatMembers(frame);
      if r.Some? { return; }
    }
    r := ScanGeneral(frame);
  }

  lemma OpensAtOnce(f: string)
    requires f != "" && f[0] == '{'
    ensures JsonScan.Scan(f) == RootOpen(f, 1)
  {
    hide RootOpen;
  }

  lemma NameIsPlain(f: string, pos: nat)
    requires pos <= |f| && MatchMember(f, pos).Some? && '\\' !in f
    ensures '\\' !in MatchMember(f, pos).value.name
  {
    hide StringEnd, FlatEnd;
  }

  const MAX_FRAME_BYTES: nat := 65536

  /** The client's byte policy and scan: the engine's verdict and the engine's members, within the
      transport's cap. */
  method CheckAndScan(frame: string) returns (r: Option<map<string, string>>)
    ensures |frame| > MAX_FRAME_BYTES ==> r.None?
    ensures |frame| <= MAX_FRAME_BYTES ==>
              r == match Preflight.Accept(frame) case Some(fields) => Some(MapOf(fields)) case None => None
  {
    hide JsonScan.Scan, Utf8.Encode, Utf8.ValidFrom, KeyPolicy;
    if |frame| > MAX_FRAME_BYTES || Preflight.BOM <= frame { return None; }
    var utf8 := Utf8.Utf8Valid(frame);
    if !utf8 { return None; }
    r := Scan(frame);
  }
}
