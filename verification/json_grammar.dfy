/** The grammar of a frame, stated by itself: sections 2 to 7 of RFC 8259 as trees that keep every
    byte, with the two rules the protocol adds, paired surrogate escapes and a bound on nesting
    (cpp/include/mm/codec.hpp:67-111). A string here holds one byte per char. */
module JsonGrammar {
  import opened Text

  // --- section 2: structural characters and whitespace -------------------------------------

  predicate IsWs(c: char) { c == ' ' || c == '\t' || c == '\n' || c == '\r' }

  predicate AllWs(s: string) { forall i :: 0 <= i < |s| ==> IsWs(s[i]) }

  // --- section 7: strings ------------------------------------------------------------------

  predicate IsHex(c: char) { '0' <= c <= '9' || 'a' <= c <= 'f' || 'A' <= c <= 'F' }

  predicate IsHex4(h: string) { |h| == 4 && forall i :: 0 <= i < 4 ==> IsHex(h[i]) }

  function HexDigit(c: char): (d: nat)
    requires IsHex(c)
    ensures d < 16
  {
    if c <= '9' then (c - '0') as nat else if c <= 'F' then (c - 'A') as nat + 10 else (c - 'a') as nat + 10
  }

  /** The UTF-16 code unit four hex digits name. */
  function CodeUnit(h: string): (u: nat)
    requires IsHex4(h)
    ensures u <= 0xFFFF
  {
    0x1000 * HexDigit(h[0]) + 0x100 * HexDigit(h[1]) + 0x10 * HexDigit(h[2]) + HexDigit(h[3])
  }

  predicate IsHigh(u: nat) { 0xD800 <= u <= 0xDBFF }

  predicate IsLow(u: nat) { 0xDC00 <= u <= 0xDFFF }

  /** One character of a string: itself, a two-byte escape, a \u escape outside the surrogates, or an
      escaped surrogate pair. */
  datatype Piece = Plain(c: char) | Short(c: char) | Unit(hex: string) | Pair(high: string, low: string)

  predicate IsPlain(c: char) { c != '"' && c != '\\' && c as int >= 0x20 }

  predicate IsShort(c: char) {
    c == '"' || c == '\\' || c == '/' || c == 'b' || c == 'f' || c == 'n' || c == 'r' || c == 't'
  }

  predicate ValidPiece(p: Piece) {
    match p
    case Plain(c) => IsPlain(c)
    case Short(c) => IsShort(c)
    case Unit(h) => IsHex4(h) && !IsHigh(CodeUnit(h)) && !IsLow(CodeUnit(h))
    case Pair(h, l) => IsHex4(h) && IsHex4(l) && IsHigh(CodeUnit(h)) && IsLow(CodeUnit(l))
  }

  function ShowPiece(p: Piece): (s: string)
    ensures s != ""
  {
    match p
    case Plain(c) => [c]
    case Short(c) => ['\\', c]
    case Unit(h) => "\\u" + h
    case Pair(h, l) => "\\u" + h + "\\u" + l
  }

  predicate ValidPieces(ps: seq<Piece>) { forall i :: 0 <= i < |ps| ==> ValidPiece(ps[i]) }

  function ShowPieces(ps: seq<Piece>): string {
    if ps == [] then "" else ShowPiece(ps[0]) + ShowPieces(ps[1..])
  }

  function Quoted(ps: seq<Piece>): string { "\"" + ShowPieces(ps) + "\"" }

  // --- section 6: numbers ------------------------------------------------------------------

  datatype Exponent = Exponent(mark: char, sign: string, digits: string)

  datatype Number = Number(minus: bool, whole: string, frac: Option<string>, exp: Option<Exponent>)

  predicate ValidNumber(n: Number) {
    && (n.whole == "0" || (n.whole != "" && AllDigits(n.whole) && n.whole[0] != '0'))
    && (n.frac.Some? ==> n.frac.value != "" && AllDigits(n.frac.value))
    && (n.exp.Some? ==>
         var e := n.exp.value;
         (e.mark == 'e' || e.mark == 'E') && (e.sign == "" || e.sign == "+" || e.sign == "-")
         && e.digits != "" && AllDigits(e.digits))
  }

  function ShowFrac(frac: Option<string>): string { if frac.Some? then "." + frac.value else "" }

  function ShowExp(exp: Option<Exponent>): string {
    if exp.Some? then [exp.value.mark] + exp.value.sign + exp.value.digits else ""
  }

  function ShowNumber(n: Number): string {
    (if n.minus then "-" else "") + n.whole + ShowFrac(n.frac) + ShowExp(n.exp)
  }

  // --- sections 3 to 5: values, objects, arrays --------------------------------------------

  datatype Json =
    | Str(pieces: seq<Piece>)
    | Num(number: Number)
    | Lit(text: string)
    | EmptyArr(pad: string)
    | Arr(items: Items)
    | EmptyObj(pad: string)
    | Obj(members: Members)

  /** The whitespace around each value, and the bracket or comma after it. */
  datatype Items =
    | LastItem(before: string, value: Json, after: string)
    | MoreItems(before: string, value: Json, after: string, rest: Items)

  datatype Members =
    | LastMember(before: string, key: seq<Piece>, colon: string, gap: string, value: Json, after: string)
    | MoreMembers(before: string, key: seq<Piece>, colon: string, gap: string, value: Json, after: string, tail: Members)

  predicate IsLit(s: string) { s == "true" || s == "false" || s == "null" }

  predicate Valid(v: Json) {
    match v
    case Str(ps) => ValidPieces(ps)
    case Num(n) => ValidNumber(n)
    case Lit(t) => IsLit(t)
    case EmptyArr(pad) => AllWs(pad)
    case Arr(items) => ValidItems(items)
    case EmptyObj(pad) => AllWs(pad)
    case Obj(ms) => ValidMembers(ms)
  }

  predicate ValidItems(xs: Items) {
    AllWs(xs.before) && Valid(xs.value) && AllWs(xs.after) && (xs.MoreItems? ==> ValidItems(xs.rest))
  }

  predicate ValidMembers(ms: Members) {
    && AllWs(ms.before) && ValidPieces(ms.key) && AllWs(ms.colon) && AllWs(ms.gap) && Valid(ms.value) && AllWs(ms.after)
    && (ms.MoreMembers? ==> ValidMembers(ms.tail))
  }

  function Show(v: Json): (s: string) {
    match v
    case Str(ps) => Quoted(ps)
    case Num(n) => ShowNumber(n)
    case Lit(t) => t
    case EmptyArr(pad) => "[" + pad + "]"
    case Arr(items) => "[" + ShowItems(items)
    case EmptyObj(pad) => "{" + pad + "}"
    case Obj(ms) => "{" + ShowMembers(ms)
  }

  function ShowItems(xs: Items): string {
    xs.before + (Show(xs.value) + (xs.after + if xs.MoreItems? then "," + ShowItems(xs.rest) else "]"))
  }

  function ShowMembers(ms: Members): string {
    ms.before + (Quoted(ms.key) + (ms.colon + (":" + (ms.gap + (Show(ms.value) + (ms.after + ShowTail(ms)))))))
  }

  function ShowTail(ms: Members): string
    decreases ms, 0
  {
    if ms.MoreMembers? then "," + ShowMembers(ms.tail) else "}"
  }

  /** How many containers are open at the deepest point. */
  function Depth(v: Json): nat {
    match v
    case EmptyArr(_) => 1
    case EmptyObj(_) => 1
    case Arr(items) => 1 + DepthItems(items)
    case Obj(ms) => 1 + DepthMembers(ms)
    case _ => 0
  }

  function Max(a: nat, b: nat): nat { if a < b then b else a }

  function DepthItems(xs: Items): nat {
    Max(Depth(xs.value), if xs.MoreItems? then DepthItems(xs.rest) else 0)
  }

  function DepthMembers(ms: Members): nat {
    Max(Depth(ms.value), if ms.MoreMembers? then DepthMembers(ms.tail) else 0)
  }

  // --- a frame -----------------------------------------------------------------------------

  const MAX_DEPTH: nat := 32
  const MAX_KEYS: nat := 32

  /** A root member: its key between the quotes and its value, as they stand in the frame. */
  datatype Field = Field(key: string, value: string)

  function FieldsOf(ms: Members): seq<Field> {
    [Field(ShowPieces(ms.key), Show(ms.value))] + if ms.MoreMembers? then FieldsOf(ms.tail) else []
  }

  function RootFields(v: Json): seq<Field> { if v.Obj? then FieldsOf(v.members) else [] }

  /** What a frame is: one object with only whitespace around it, no deeper than 32 and with at most
      32 members at its root. */
  ghost predicate IsFrame(f: string, lead: string, root: Json, trail: string) {
    && f == lead + Show(root) + trail && AllWs(lead) && AllWs(trail)
    && Valid(root) && (root.Obj? || root.EmptyObj?) && Depth(root) <= MAX_DEPTH && |RootFields(root)| <= MAX_KEYS
  }

  // --- and with the key policy -------------------------------------------------------------

  predicate Escaped(key: string) { '\\' in key }

  /** Literal names only, none twice. */
  predicate KeyPolicy(fields: seq<Field>) {
    && (forall i :: 0 <= i < |fields| ==> !Escaped(fields[i].key))
    && (forall i, j :: 0 <= i < j < |fields| ==> fields[i].key != fields[j].key)
  }
}
