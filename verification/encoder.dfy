/** The engine's canonical printer (cpp/src/codec_nlohmann.cpp:113-251), and that what it prints is read
    back: the preflight accepts it and finds every member with its value. */
module Encoder {
  import opened Text
  import opened Protocol
  import opened JsonGrammar
  import opened JsonLexer
  import opened JsonScan
  import Preflight
  import Utf8

  // --- what a string token means -----------------------------------------------------------

  function ShortMeaning(c: char): char {
    match c
    case 'b' => '\U{0008}'
    case 'f' => '\U{000C}'
    case 'n' => '\n'
    case 'r' => '\r'
    case 't' => '\t'
    case _ => c
  }

  /** Section 7 of RFC 8259: the bytes one character of a string stands for. */
  function PieceMeaning(p: Piece): string
    requires ValidPiece(p)
  {
    match p
    case Plain(c) => [c]
    case Short(c) => [ShortMeaning(c)]
    case Unit(h) => Utf8.EncodeOne(CodeUnit(h))
    case Pair(h, l) => Utf8.EncodeOne(0x10000 + (CodeUnit(h) - 0xD800) * 0x400 + (CodeUnit(l) - 0xDC00))
  }

  function Meaning(ps: seq<Piece>): string
    requires ValidPieces(ps)
  {
    if ps == [] then "" else PieceMeaning(ps[0]) + Meaning(ps[1..])
  }

  /** The same, read off the text of a string token, from j to its closing quote. */
  function Unescape(f: string, j: nat): string
    requires BodyEnd(f, j).Some?
    decreases |f| - j
  {
    if f[j] == '"' then ""
    else if f[j] != '\\' then [f[j]] + Unescape(f, j + 1)
    else if IsShort(f[j + 1]) then [ShortMeaning(f[j + 1])] + Unescape(f, j + 2)
    else if !IsHigh(UnitAt(f, j + 2)) then Utf8.EncodeOne(UnitAt(f, j + 2)) + Unescape(f, j + 6)
    else Utf8.EncodeOne(0x10000 + (UnitAt(f, j + 2) - 0xD800) * 0x400 + (UnitAt(f, j + 8) - 0xDC00)) + Unescape(f, j + 12)
  }

  lemma {:induction false} UnescapeIsMeaning(f: string, j: nat, ps: seq<Piece>)
    requires ValidPieces(ps) && At(f, j, ShowPieces(ps) + "\"")
    ensures BodyEnd(f, j).Some? && Unescape(f, j) == Meaning(ps)
    decreases |ps|
  {
    hide At, Utf8.EncodeOne;
    BodyComplete(f, j, ps);
    if ps == [] {
      assert ShowPieces(ps) + "\"" == ['"'];
      AtOne(f, j, '"');
    } else {
      var p := ps[0];
      assert ShowPieces(ps) + "\"" == ShowPiece(p) + (ShowPieces(ps[1..]) + "\"");
      AtSplit(f, j, ShowPiece(p), ShowPieces(ps[1..]) + "\"");
      PieceStep(f, j, p);
      UnescapeIsMeaning(f, j + |ShowPiece(p)|, ps[1..]);
      UnescapeStep(f, j, p);
    }
  }

  lemma UnescapeStep(f: string, j: nat, p: Piece)
    requires ValidPiece(p) && At(f, j, ShowPiece(p)) && BodyEnd(f, j).Some?
    ensures BodyEnd(f, j + |ShowPiece(p)|).Some? && Unescape(f, j) == PieceMeaning(p) + Unescape(f, j + |ShowPiece(p)|)
  {
    hide Utf8.EncodeOne;
    PieceStep(f, j, p);
    match p
    case Plain(c) => AtOne(f, j, c);
    case Short(c) => assert f[j..j + 2] == [f[j], f[j + 1]];
    case Unit(h) => EscapeAt(f, j, h);
    case Pair(h, l) => PairUnescape(f, j, h, l);
  }

  lemma PairUnescape(f: string, j: nat, h: string, l: string)
    requires ValidPiece(Pair(h, l)) && At(f, j, ShowPiece(Pair(h, l))) && BodyEnd(f, j).Some?
    ensures BodyEnd(f, j + 12).Some? && Unescape(f, j) == PieceMeaning(Pair(h, l)) + Unescape(f, j + 12)
  {
    hide At, Utf8.EncodeOne;
    PieceStep(f, j, Pair(h, l));
    assert ShowPiece(Pair(h, l)) == ("\\u" + h) + ("\\u" + l);
    AtSplit(f, j, "\\u" + h, "\\u" + l);
    EscapeAt(f, j, h);
    EscapeAt(f, j + 6, l);
  }

  // --- the printer's escapes ---------------------------------------------------------------

  function HexDigitOf(d: nat): (c: char)
    requires d < 16
    ensures IsHex(c) && HexDigit(c) == d
  {
    if d < 10 then '0' + d as char else 'A' + (d - 10) as char
  }

  /** How one byte is written. */
  function EscapeOne(c: char): (p: Piece)
    requires (c as int) < 0x100
    ensures ValidPiece(p)
  {
    if c == '"' || c == '\\' then Short(c)
    else if c == '\U{0008}' then Short('b')
    else if c == '\t' then Short('t')
    else if c == '\n' then Short('n')
    else if c == '\U{000C}' then Short('f')
    else if c == '\r' then Short('r')
    else if c as int < 0x20 then Unit(['0', '0', HexDigitOf(c as int / 16), HexDigitOf(c as int % 16)])
    else Plain(c)
  }

  predicate Bytes(s: string) { forall i :: 0 <= i < |s| ==> (s[i] as int) < 0x100 }

  function EscapePieces(s: string): (ps: seq<Piece>)
    requires Bytes(s)
    ensures |ps| == |s| && ValidPieces(ps) && forall i :: 0 <= i < |s| ==> ps[i] == EscapeOne(s[i])
  {
    seq(|s|, i requires 0 <= i < |s| => EscapeOne(s[i]))
  }

  lemma EscapeMeans(c: char)
    requires (c as int) < 0x100
    ensures PieceMeaning(EscapeOne(c)) == [c]
  {
  }

  lemma {:induction false} EscapesMean(s: string)
    requires Bytes(s)
    ensures Meaning(EscapePieces(s)) == s
  {
    hide PieceMeaning, EscapeOne;
    if s != "" {
      EscapeMeans(s[0]);
      EscapesMean(s[1..]);
      assert EscapePieces(s)[1..] == EscapePieces(s[1..]);
      assert s == [s[0]] + s[1..];
    }
  }

  // --- a message as a list of members ------------------------------------------------------

  datatype Cell = U(n: nat) | I(v: int) | S(s: string)

  datatype Entry = Entry(key: string, cell: Cell)

  const VERSION: nat := 1

  function Tag(m: OutMsg): string {
    match m
    case Tob(_, _, _, _, _, _) => "top_of_book"
    case OrderAck(_, _) => "order_ack"
    case CancelAck(_, _) => "cancel_ack"
    case Reject(_, _, _) => "reject"
    case Fill(_, _, _, _, _, _) => "fill"
  }

  /** The members of each message after its tag, in declaration order. */
  function Entries(w: Wire): seq<Entry> {
    [Entry("v", U(VERSION)), Entry("seq", U(w.seqNo)), Entry("epoch", U(w.epoch))] + Own(w)
  }

  function Own(w: Wire): seq<Entry> {
    match w.msg
    case Tob(md, symbol, bp, bq, ap, aq) =>
      [Entry("md_seq", U(md)), Entry("symbol", S(symbol)), Entry("bid_px", I(bp)), Entry("bid_qty", I(bq)),
       Entry("ask_px", I(ap)), Entry("ask_qty", I(aq))]
    case OrderAck(id, eng) =>
      [Entry("cl_id", S(id)), Entry("eng_id", U(eng)), Entry("status", S("live")), Entry("svc_ns", I(w.svc))]
    case CancelAck(id, eng) => [Entry("cl_id", S(id)), Entry("eng_id", U(eng)), Entry("status", S("cancelled"))]
    case Reject(id, code, reason) => [Entry("cl_id", S(id)), Entry("code", S(CodeText(code))), Entry("reason", S(reason))]
    case Fill(id, eng, px, qty, leaves, exec) =>
      [Entry("cl_id", S(id)), Entry("eng_id", U(eng)), Entry("px", I(px)), Entry("qty", I(qty)), Entry("leaves", I(leaves)),
       Entry("exec_id", U(exec))]
  }

  function AllEntries(w: Wire): seq<Entry> { [Entry("t", S(Tag(w.msg)))] + Entries(w) }

  predicate PlainKey(key: string) { forall i :: 0 <= i < |key| ==> IsPlain(key[i]) && (key[i] as int) < 0x80 }

  predicate GoodEntry(e: Entry) { PlainKey(e.key) && (e.cell.S? ==> Bytes(e.cell.s)) }

  predicate GoodEntries(es: seq<Entry>) { forall i :: 0 <= i < |es| ==> GoodEntry(es[i]) }

  /** The message's own strings are bytes, as std::string holds them. */
  predicate ByteStrings(w: Wire) {
    match w.msg
    case Tob(_, symbol, _, _, _, _) => Bytes(symbol)
    case Reject(id, _, reason) => Bytes(id) && Bytes(reason)
    case _ => Bytes(w.msg.clId)
  }

  // --- its text, and the object it is ------------------------------------------------------

  function CellJson(c: Cell): (v: Json)
    requires c.S? ==> Bytes(c.s)
    ensures JsonGrammar.Valid(v) && Depth(v) == 0
  {
    match c
    case U(n) => Num(Number(false, Decimal(n), None, None))
    case I(v) => Num(Number(v < 0, Decimal(if v < 0 then -v else v), None, None))
    case S(s) => Str(EscapePieces(s))
  }

  function CellText(c: Cell): string
    requires c.S? ==> Bytes(c.s)
  {
    match c
    case U(n) => Decimal(n)
    case I(v) => SignedDecimal(v)
    case S(s) => "\"" + ShowPieces(EscapePieces(s)) + "\""
  }

  lemma CellShows(c: Cell)
    requires c.S? ==> Bytes(c.s)
    ensures Show(CellJson(c)) == CellText(c)
  {
  }

  function PlainPieces(key: string): (ps: seq<Piece>)
    requires PlainKey(key)
    ensures ValidPieces(ps)
  {
    seq(|key|, i requires 0 <= i < |key| => Plain(key[i]))
  }

  lemma {:induction false} PlainShows(key: string)
    requires PlainKey(key)
    ensures ShowPieces(PlainPieces(key)) == key
  {
    if key != "" {
      PlainShows(key[1..]);
      assert PlainPieces(key)[1..] == PlainPieces(key[1..]);
      assert key == [key[0]] + key[1..];
    }
  }

  function MembersOf(es: seq<Entry>): (ms: Members)
    requires es != [] && GoodEntries(es)
    ensures ValidMembers(ms) && DepthMembers(ms) == 0
    decreases |es|
  {
    var key, value := PlainPieces(es[0].key), CellJson(es[0].cell);
    if |es| == 1 then LastMember("", key, "", "", value, "")
    else MoreMembers("", key, "", "", value, "", MembersOf(es[1..]))
  }

  function EntryText(e: Entry): string
    requires GoodEntry(e)
  {
    "\"" + e.key + "\":" + CellText(e.cell) + ","
  }

  /** The members one after another, each with its comma. */
  function EntriesText(es: seq<Entry>): string
    requires GoodEntries(es)
  {
    if es == [] then "" else EntryText(es[0]) + EntriesText(es[1..])
  }

  lemma {:induction false} EntriesTextSnoc(es: seq<Entry>, e: Entry)
    requires GoodEntries(es) && GoodEntry(e)
    ensures GoodEntries(es + [e]) && EntriesText(es + [e]) == EntriesText(es) + EntryText(e)
  {
    hide EntryText;
    if es == [] {
      assert [e][1..] == [];
    } else {
      EntriesTextSnoc(es[1..], e);
      assert (es + [e])[1..] == es[1..] + [e];
    }
  }

  lemma ButLast(head: string, rest: string, text: string)
    requires text == head + "," + rest
    ensures rest == "" ==> text[..|text| - 1] + "}" == head + "}"
    ensures rest != "" ==> text[..|text| - 1] + "}" == head + ("," + (rest[..|rest| - 1] + "}"))
  {
    if rest != "" { assert text[..|text| - 1] == head + "," + rest[..|rest| - 1]; } else { assert text[..|text| - 1] == head; }
  }

  /** The last comma become a brace, the text is the object's. */
  lemma {:induction false} EntriesShow(es: seq<Entry>)
    requires es != [] && GoodEntries(es)
    ensures var text := EntriesText(es); text != "" && ShowMembers(MembersOf(es)) == text[..|text| - 1] + "}"
    decreases |es|
  {
    hide CellText, CellJson, Show, ShowMembers, ShowPieces, PlainPieces, EntryText, PlainKey, Bytes, MembersOf;
    var e, ms := es[0], MembersOf(es);
    MembersHead(es);
    HeadShows(e, ms);
    var head := "\"" + e.key + "\":" + CellText(e.cell);
    assert EntryText(e) == head + "," by { EntryIs(e); }
    var rest := EntriesText(es[1..]);
    ButLast(head, rest, EntriesText(es));
    if |es| > 1 { EntriesShow(es[1..]); }
  }

  lemma EntryIs(e: Entry)
    requires GoodEntry(e)
    ensures EntryText(e) == "\"" + e.key + "\":" + CellText(e.cell) + ","
  {
  }

  lemma MembersHead(es: seq<Entry>)
    requires es != [] && GoodEntries(es)
    ensures var ms := MembersOf(es);
            && ms.before == ms.colon == ms.gap == ms.after == ""
            && ShowPieces(ms.key) == es[0].key && Show(ms.value) == CellText(es[0].cell)
            && GoodEntry(es[0]) && GoodEntries(es[1..])
            && (ms.MoreMembers? <==> |es| > 1) && (|es| > 1 ==> ms.tail == MembersOf(es[1..]))
  {
    hide CellText, CellJson, ShowPieces, PlainPieces, Show;
    PlainShows(es[0].key);
    CellShows(es[0].cell);
  }

  lemma NoPadding(q: string, v: string, t: string)
    ensures "" + (q + ("" + (":" + ("" + (v + ("" + t)))))) == q + ":" + v + t
  {
  }

  lemma HeadShows(e: Entry, ms: Members)
    requires GoodEntry(e) && ms.before == ms.colon == ms.gap == ms.after == ""
    requires ShowPieces(ms.key) == e.key && Show(ms.value) == CellText(e.cell)
    ensures ShowMembers(ms) == "\"" + e.key + "\":" + CellText(e.cell) + if ms.MoreMembers?
            then "," + ShowMembers(ms.tail) else "}"
  {
    hide CellText, Show, ShowPieces, PlainKey, Bytes;
    var q := "\"" + e.key + "\"";
    assert Quoted(ms.key) == q;
    hide Quoted;
    NoPadding(q, Show(ms.value), ShowTail(ms));
    assert ShowTail(ms) == if ms.MoreMembers? then "," + ShowMembers(ms.tail) else "}";
    assert q + ":" == "\"" + e.key + "\":";
  }

  function Printed(w: Wire): string
    requires ByteStrings(w)
  {
    EntriesGood(w);
    Show(Obj(MembersOf(AllEntries(w))))
  }

  lemma GoodJoin(a: seq<Entry>, b: seq<Entry>)
    requires GoodEntries(a) && GoodEntries(b)
    ensures GoodEntries(a + b)
  {
  }

  lemma SharedKeys()
    ensures PlainKey("t") && PlainKey("v") && PlainKey("seq") && PlainKey("epoch") && PlainKey("cl_id") && PlainKey("eng_id")
  {
  }

  lemma BookKeys()
    ensures PlainKey("md_seq") && PlainKey("symbol") && PlainKey("bid_px") && PlainKey("bid_qty") &&
            PlainKey("ask_px") && PlainKey("ask_qty")
  {
  }

  lemma ReportKeys()
    ensures PlainKey("status") && PlainKey("svc_ns") && PlainKey("code") && PlainKey("reason")
    ensures PlainKey("px") && PlainKey("qty") && PlainKey("leaves") && PlainKey("exec_id")
  {
  }

  lemma OwnGood(w: Wire)
    requires ByteStrings(w)
    ensures GoodEntries(Own(w))
  {
    hide PlainKey, Bytes;
    SharedKeys();
    BookKeys();
    ReportKeys();
    FixedStrings(w.msg);
  }

  // The engine's constants are ASCII.

  lemma TagBytes()
    ensures Ascii("top_of_book") && Ascii("order_ack") && Ascii("cancel_ack") && Ascii("reject") && Ascii("fill") &&
            Ascii("live") && Ascii("cancelled")
  {
  }

  lemma ShapeCodeBytes()
    ensures Ascii("UNSUPPORTED_VERSION") && Ascii("UNKNOWN_TYPE") && Ascii("MALFORMED") && Ascii("MSG_TOO_LARGE")
  {
  }

  lemma FieldCodeBytes()
    ensures Ascii("UNKNOWN_SYMBOL") && Ascii("BAD_SIDE") && Ascii("TICK_SIZE") && Ascii("LOT_SIZE") &&
            Ascii("QTY_LIMIT") && Ascii("PRICE_RANGE")
  {
  }

  lemma StateCodeBytes()
    ensures Ascii("DUP_CLORDID") && Ascii("POST_ONLY_CROSS") && Ascii("MAX_LIVE_ORDERS") &&
            Ascii("UNKNOWN_CLORDID") && Ascii("ALREADY_TERMINAL") && Ascii("STALE_EPOCH")
  {
  }

  lemma FixedAscii(m: OutMsg)
    ensures Ascii("live") && Ascii("cancelled") && Ascii(Tag(m))
    ensures m.Reject? ==> Ascii(CodeText(m.code))
  {
    hide Ascii;
    TagBytes();
    ShapeCodeBytes();
    FieldCodeBytes();
    StateCodeBytes();
  }

  lemma FixedStrings(m: OutMsg)
    ensures Bytes("live") && Bytes("cancelled") && Bytes(Tag(m))
    ensures m.Reject? ==> Bytes(CodeText(m.code))
  {
    hide Ascii, Bytes, CodeText, Tag;
    FixedAscii(m);
    AsciiBytes("live");
    AsciiBytes("cancelled");
    AsciiBytes(Tag(m));
    if m.Reject? { AsciiBytes(CodeText(m.code)); }
  }

  predicate Ascii(s: string) { forall i :: 0 <= i < |s| ==> (s[i] as int) < 0x80 }

  lemma AsciiBytes(s: string)
    requires Ascii(s)
    ensures Bytes(s)
  {
  }

  lemma EntriesGood(w: Wire)
    requires ByteStrings(w)
    ensures GoodEntries(AllEntries(w)) && 1 <= |AllEntries(w)| <= MAX_KEYS
  {
    hide PlainKey, Bytes;
    SharedKeys();
    FixedStrings(w.msg);
    OwnGood(w);
    GoodJoin([Entry("v", U(VERSION)), Entry("seq", U(w.seqNo)), Entry("epoch", U(w.epoch))], Own(w));
    GoodJoin([Entry("t", S(Tag(w.msg)))], Entries(w));
  }

  // --- the printer -------------------------------------------------------------------------

  class Writer {
    var out: string

    constructor ()
      ensures out == ""
    {
      out := "";
    }

    method AppendOne(c: char)
      requires (c as int) < 0x100
      modifies this
      ensures out == old(out) + ShowPiece(EscapeOne(c))
    {
      hide ShowPiece, EscapeOne;
      EscapeShows(c);
      match c
      case '"' => out := out + "\\\"";
      case '\\' => out := out + "\\\\";
      case '\U{0008}' => out := out + "\\b";
      case '\t' => out := out + "\\t";
      case '\n' => out := out + "\\n";
      case '\U{000C}' => out := out + "\\f";
      case '\r' => out := out + "\\r";
      case _ =>
        if c as int < 0x20 {
          ghost var before := out;
          out := out + "\\u00";
          out := out + [HexDigitOf(c as int / 16)];
          out := out + [HexDigitOf(c as int % 16)];
          assert out == before + ("\\u00" + [HexDigitOf(c as int / 16)] + [HexDigitOf(c as int % 16)]);
        } else {
          out := out + [c];
        }
    }

    method AppendEscaped(s: string)
      requires Bytes(s)
      modifies this
      ensures out == old(out) + ShowPieces(EscapePieces(s))
    {
      hide ShowPiece, EscapeOne;
      assert s[..0] == "" && EscapePieces("") == [];
      for k := 0 to |s|
        invariant out == old(out) + ShowPieces(EscapePieces(s[..k]))
      {
        AppendOne(s[k]);
        EscapesSnoc(s, k);
      }
      assert s[..|s|] == s;
    }

    method AppendKey(key: string)
      modifies this
      ensures out == old(out) + "\"" + key + "\":"
    {
      out := out + "\"";
      out := out + key;
      out := out + "\":";
    }

    method FieldUnsigned(key: string, v: nat)
      modifies this
      ensures out == old(out) + "\"" + key + "\":" + Decimal(v) + ","
    {
      AppendKey(key);
      out := out + Decimal(v);
      out := out + ",";
    }

    method FieldSigned(key: string, v: int)
      modifies this
      ensures out == old(out) + "\"" + key + "\":" + SignedDecimal(v) + ","
    {
      AppendKey(key);
      out := out + SignedDecimal(v);
      out := out + ",";
    }

    method FieldString(key: string, v: string)
      requires Bytes(v)
      modifies this
      ensures out == old(out) + "\"" + key + "\":" + "\"" + ShowPieces(EscapePieces(v)) + "\"" + ","
    {
      AppendKey(key);
      out := out + "\"";
      AppendEscaped(v);
      out := out + "\"";
      out := out + ",";
    }

    /** What has been written so far: the brace and these members. */
    ghost predicate Holds(es: seq<Entry>)
      reads this
    {
      GoodEntries(es) && out == "{" + EntriesText(es)
    }

    /** The overload the member's type picks. */
    method Put(e: Entry)
      requires GoodEntry(e)
      modifies this
      ensures out == old(out) + EntryText(e)
    {
      hide GoodEntry, EscapePieces, ShowPieces, Bytes, PlainKey;
      GoodCell(e);
      match e.cell {
        case U(n) => FieldUnsigned(e.key, n);
        case I(v) => FieldSigned(e.key, v);
        case S(s) => FieldString(e.key, s);
      }
      EntryIs(e);
    }

    method Field(e: Entry, ghost es: seq<Entry>)
      requires Holds(es) && GoodEntry(e)
      modifies this
      ensures Holds(es + [e])
    {
      hide GoodEntry, EntriesText, EntryText;
      Put(e);
      EntriesTextSnoc(es, e);
    }

    method OpenMsg(tag: string)
      requires PlainKey(tag)
      modifies this
      ensures Holds([Entry("t", S(tag))])
    {
      hide PlainKey;
      out := "{\"t\":\"";
      out := out + tag;
      out := out + "\",";
      TagText(tag);
    }

    /** The trailing comma becomes the closing brace: every message has a field. */
    method CloseMsg(ghost es: seq<Entry>)
      requires Holds(es) && es != []
      modifies this
      ensures out == Show(Obj(MembersOf(es)))
    {
      hide EntriesText, ShowMembers, MembersOf;
      EntriesShow(es);
      ghost var text := EntriesText(es);
      assert ("{" + text)[..|text|] == "{" + text[..|text| - 1];
      out := out[..|out| - 1] + "}";
    }

    method Fields(es: seq<Entry>, ghost before: seq<Entry>)
      requires Holds(before) && GoodEntries(es)
      modifies this
      ensures Holds(before + es)
    {
      hide GoodEntry, EntriesText;
      assert before + es[..0] == before;
      for k := 0 to |es|
        invariant Holds(before + es[..k])
      {
        Field(es[k], before + es[..k]);
        assert before + es[..k] + [es[k]] == before + es[..k + 1];
      }
      assert before + es[..|es|] == before + es;
    }

    /** One message, into a buffer whose capacity is kept: no failure mode, never empty. */
    method Encode(w: Wire)
      requires ByteStrings(w)
      modifies this
      ensures out == Printed(w) && |out| >= 2
    {
      hide GoodEntry, EntriesText, MembersOf, Show, PlainKey, Own, ByteStrings;
      out := "";
      EntriesGood(w);
      assert PlainKey(Tag(w.msg)) by { TagIsPlain(w.msg); }
      OpenMsg(Tag(w.msg));
      assert GoodEntries(Entries(w)) by { assert forall i :: 0 <= i < |Entries(w)| ==> Entries(w)[i] == AllEntries(w)[i + 1]; }
      Fields(Entries(w), [Entry("t", S(Tag(w.msg)))]);
      CloseMsg(AllEntries(w));
      assert |out| >= 2 by { BracesShow(MembersOf(AllEntries(w))); }
    }
  }

  lemma GoodCell(e: Entry)
    requires GoodEntry(e)
    ensures e.cell.S? ==> Bytes(e.cell.s)
  {
  }

  lemma BracesShow(ms: Members)
    ensures |Show(Obj(ms))| >= 2
  {
  }

  lemma TagIsPlain(m: OutMsg)
    ensures PlainKey(Tag(m))
  {
  }

  /** A tag is written as a string that needs no escape. */
  lemma TagText(tag: string)
    requires PlainKey(tag)
    ensures GoodEntries([Entry("t", S(tag))])
    ensures "{" + EntriesText([Entry("t", S(tag))]) == "{\"t\":\"" + tag + "\","
  {
    hide EscapeOne;
    SharedKeys();
    PlainShows(tag);
    assert EscapePieces(tag) == PlainPieces(tag) by { PlainEscapes(tag); }
    var e := Entry("t", S(tag));
    assert [e][1..] == [] && EntriesText([e]) == EntryText(e);
  }

  lemma PlainEscapes(tag: string)
    requires PlainKey(tag)
    ensures Bytes(tag) && EscapePieces(tag) == PlainPieces(tag)
  {
  }

  lemma EscapeShows(c: char)
    requires (c as int) < 0x100
    ensures ShowPiece(EscapeOne(c)) ==
            match c
            case '"' => "\\\""
            case '\\' => "\\\\"
            case '\U{0008}' => "\\b"
            case '\t' => "\\t"
            case '\n' => "\\n"
            case '\U{000C}' => "\\f"
            case '\r' => "\\r"
            case _ => if c as int < 0x20 then "\\u00" + [HexDigitOf(c as int / 16)] + [HexDigitOf(c as int % 16)] else [c]
  {
  }

  lemma {:induction false} ShowJoin(a: seq<Piece>, b: seq<Piece>)
    ensures ShowPieces(a + b) == ShowPieces(a) + ShowPieces(b)
  {
    hide ShowPiece;
    if a == [] {
      assert a + b == b;
    } else {
      ShowJoin(a[1..], b);
      assert (a + b)[1..] == a[1..] + b;
    }
  }

  lemma EscapesSnoc(s: string, k: nat)
    requires Bytes(s) && k < |s|
    ensures ShowPieces(EscapePieces(s[..k + 1])) == ShowPieces(EscapePieces(s[..k])) + ShowPiece(EscapeOne(s[k]))
  {
    hide ShowPiece, EscapeOne;
    var one := [EscapeOne(s[k])];
    assert EscapePieces(s[..k + 1]) == EscapePieces(s[..k]) + one;
    ShowJoin(EscapePieces(s[..k]), one);
    assert one[1..] == [];
  }

  // --- the bytes are UTF-8 -----------------------------------------------------------------

  lemma Utf8Join(a: string, b: string)
    requires Utf8.Valid(a) && Utf8.Valid(b)
    ensures Utf8.Valid(a + b)
  {
    hide Utf8.ValidFrom, Utf8.Encode;
    Utf8.ValidIsEncoding(a);
    Utf8.ValidIsEncoding(b);
    Utf8.ValidIsEncoding(a + b);
    var x :| Utf8.AllScalars(x) && Utf8.Encode(x) == a;
    var y :| Utf8.AllScalars(y) && Utf8.Encode(y) == b;
    Utf8.EncodeJoin(x, y);
  }

  lemma {:induction false} AsciiFrom(s: string, p: nat)
    requires Ascii(s) && p <= |s|
    ensures Utf8.ValidFrom(s, p)
    decreases |s| - p
  {
    if p < |s| {
      assert Utf8.SequenceAt(s, p) == 1;
      AsciiFrom(s, p + 1);
    }
  }

  lemma OneEscaped(cp: nat)
    requires Utf8.IsScalar(cp)
    ensures Bytes(Utf8.EncodeOne(cp)) && Utf8.Valid(ShowPieces(EscapePieces(Utf8.EncodeOne(cp))))
  {
    hide Utf8.ValidFrom, EscapeOne;
    if cp < 0x80 {
      LowEscaped(cp as char);
    } else {
      var e := Utf8.EncodeOne(cp);
      HighBytes(cp);
      HighShows(e);
      assert [cp][1..] == [] && Utf8.Encode([cp]) == e;
      Utf8.ValidIsEncoding(e);
    }
  }

  lemma LowEscaped(c: char)
    requires (c as int) < 0x80
    ensures Utf8.Valid(ShowPieces(EscapePieces([c])))
  {
    hide EscapeOne;
    EscapedAscii(c);
    var one := EscapeOne(c);
    assert EscapePieces([c]) == [one] && [one][1..] == [];
    assert ShowPieces([one]) == ShowPiece(one) + "" == ShowPiece(one);
    AsciiFrom(ShowPieces([one]), 0);
  }

  lemma EscapedAscii(c: char)
    requires (c as int) < 0x80
    ensures Ascii(ShowPiece(EscapeOne(c)))
  {
  }

  lemma HighBytes(cp: nat)
    requires Utf8.IsScalar(cp) && cp >= 0x80
    ensures forall i :: 0 <= i < |Utf8.EncodeOne(cp)| ==> 0x80 <= Utf8.EncodeOne(cp)[i] as int < 0x100
  {
  }

  lemma {:induction false} HighShows(s: string)
    requires forall i :: 0 <= i < |s| ==> 0x80 <= s[i] as int < 0x100
    ensures ShowPieces(EscapePieces(s)) == s
  {
    hide EscapeOne;
    if s != "" {
      HighPlain(s[0]);
      HighShows(s[1..]);
      assert EscapePieces(s)[1..] == EscapePieces(s[1..]);
      assert s == [s[0]] + s[1..];
    }
  }

  lemma HighPlain(c: char)
    requires 0x80 <= c as int < 0x100
    ensures EscapeOne(c) == Plain(c)
  {
  }

  lemma {:induction false} EscapedUtf8(cps: seq<nat>)
    requires Utf8.AllScalars(cps)
    ensures Bytes(Utf8.Encode(cps)) && Utf8.Valid(ShowPieces(EscapePieces(Utf8.Encode(cps))))
  {
    hide Utf8.EncodeOne, ShowPiece, EscapeOne, Utf8.ValidFrom;
    if cps == [] {
      assert EscapePieces("") == [];
      AsciiFrom("", 0);
    } else {
      var e, rest := Utf8.EncodeOne(cps[0]), Utf8.Encode(cps[1..]);
      OneEscaped(cps[0]);
      EscapedUtf8(cps[1..]);
      assert EscapePieces(e + rest) == EscapePieces(e) + EscapePieces(rest);
      ShowJoin(EscapePieces(e), EscapePieces(rest));
      Utf8Join(ShowPieces(EscapePieces(e)), ShowPieces(EscapePieces(rest)));
    }
  }

  predicate Utf8Cell(c: Cell) { c.S? ==> Utf8.Valid(c.s) }

  lemma CellUtf8(c: Cell)
    requires Utf8Cell(c)
    ensures (c.S? ==> Bytes(c.s)) && Utf8.Valid(CellText(c))
  {
    hide Utf8.ValidFrom, Utf8.Encode, EscapePieces, ShowPieces;
    match c
    case U(n) => AsciiFrom(Decimal(n), 0);
    case I(v) => AsciiFrom(SignedDecimal(v), 0);
    case S(s) =>
      Utf8.ValidIsEncoding(s);
      var cps :| Utf8.AllScalars(cps) && Utf8.Encode(cps) == s;
      EscapedUtf8(cps);
      AsciiFrom("\"", 0);
      Utf8Join("\"", ShowPieces(EscapePieces(s)));
      Utf8Join("\"" + ShowPieces(EscapePieces(s)), "\"");
  }

  lemma {:induction false} MembersUtf8(es: seq<Entry>)
    requires es != [] && GoodEntries(es) && forall i :: 0 <= i < |es| ==> Utf8Cell(es[i].cell)
    ensures Utf8.Valid(ShowMembers(MembersOf(es)))
    decreases |es|
  {
    hide Utf8.ValidFrom, ShowMembers, CellText, ShowPieces, Show, PlainKey, Bytes;
    var e, ms := es[0], MembersOf(es);
    MembersHead(es);
    HeadShows(e, ms);
    CellUtf8(e.cell);
    assert Utf8.Valid("\"" + e.key + "\":") by { KeyAscii(e.key); AsciiFrom("\"" + e.key + "\":", 0); }
    var head := "\"" + e.key + "\":" + CellText(e.cell);
    Utf8Join("\"" + e.key + "\":", CellText(e.cell));
    AsciiFrom(",", 0);
    AsciiFrom("}", 0);
    if |es| == 1 {
      Utf8Join(head, "}");
    } else {
      MembersUtf8(es[1..]);
      Utf8Join(",", ShowMembers(ms.tail));
      Utf8Join(head, "," + ShowMembers(ms.tail));
      assert head + ("," + ShowMembers(ms.tail)) == ShowMembers(ms);
    }
  }

  lemma KeyAscii(key: string)
    requires PlainKey(key)
    ensures Ascii("\"" + key + "\":")
  {
  }

  // --- print then parse --------------------------------------------------------------------

  predicate Spells(digits: string, n: nat) { digits != "" && AllDigits(digits) && DecimalValue(digits) == n }

  /** What is read back from a member's span: the integer it spells, or the string it stands for. */
  ghost predicate ReadsBack(c: Cell, span: string) {
    && span != ""
    && match c
       case U(n) => Spells(span, n)
       case I(v) => if v < 0 then span[0] == '-' && Spells(span[1..], -v) else Spells(span, v)
       case S(s) => span[0] == '"' && BodyEnd(span, 1) == Some(|span|) && Unescape(span, 1) == s
  }

  lemma CellReadsBack(c: Cell)
    requires c.S? ==> Bytes(c.s)
    ensures ReadsBack(c, CellText(c))
  {
    hide EscapePieces, ShowPieces, Unescape, BodyEnd, Meaning, At;
    match c
    case U(n) => DecimalReadsBack(n);
    case I(v) =>
      DecimalReadsBack(if v < 0 then -v else v);
      if v < 0 { assert SignedDecimal(v)[1..] == Decimal(-v); }
    case S(s) => StringReadsBack(s);
  }

  lemma StringReadsBack(s: string)
    requires Bytes(s)
    ensures var span := "\"" + ShowPieces(EscapePieces(s)) + "\"";
            BodyEnd(span, 1) == Some(|span|) && Unescape(span, 1) == s
  {
    hide EscapePieces, ShowPieces, Unescape, BodyEnd, Meaning, At;
    var ps := EscapePieces(s);
    var span := "\"" + ShowPieces(ps) + "\"";
    assert span == "\"" + (ShowPieces(ps) + "\"");
    assert At(span, 0, span) by { AtSlice(span, 0, |span|, span); }
    AtSplit(span, 0, "\"", ShowPieces(ps) + "\"");
    BodyComplete(span, 1, ps);
    UnescapeIsMeaning(span, 1, ps);
    EscapesMean(s);
  }

  /** The members of the printed object, as the scan records them. */
  lemma {:induction false} FieldsPrinted(es: seq<Entry>)
    requires es != [] && GoodEntries(es)
    ensures |FieldsOf(MembersOf(es))| == |es|
    ensures forall i :: 0 <= i < |es| ==> FieldsOf(MembersOf(es))[i] == Field(es[i].key, CellText(es[i].cell))
    decreases |es|
  {
    hide CellText, ShowPieces, Show, PlainKey, Bytes, MembersOf;
    MembersHead(es);
    if |es| > 1 { FieldsPrinted(es[1..]); }
  }

  lemma KeysDistinct(w: Wire)
    ensures forall i, j :: 0 <= i < j < |AllEntries(w)| ==> AllEntries(w)[i].key != AllEntries(w)[j].key
  {
  }

  /** Every string the message carries is valid UTF-8. */
  ghost predicate Utf8Strings(w: Wire) {
    match w.msg
    case Tob(_, symbol, _, _, _, _) => Utf8.Valid(symbol)
    case Reject(id, _, reason) => Utf8.Valid(id) && Utf8.Valid(reason)
    case _ => Utf8.Valid(w.msg.clId)
  }

  lemma ValidBytes(s: string)
    requires Utf8.Valid(s)
    ensures Bytes(s)
  {
    hide Utf8.ValidFrom, Utf8.Encode;
    Utf8.ValidIsEncoding(s);
    var cps :| Utf8.AllScalars(cps) && Utf8.Encode(cps) == s;
    EscapedUtf8(cps);
  }

  lemma EntriesUtf8(w: Wire)
    requires Utf8Strings(w)
    ensures ByteStrings(w) && forall i :: 0 <= i < |AllEntries(w)| ==> Utf8Cell(AllEntries(w)[i].cell)
  {
    hide Utf8.ValidFrom, Bytes;
    forall s: string | Utf8.Valid(s) ensures Bytes(s) { ValidBytes(s); }
    assert Utf8.Valid("live") && Utf8.Valid("cancelled") && Utf8.Valid(Tag(w.msg)) by { ConstantsAscii(w.msg); }
    assert w.msg.Reject? ==> Utf8.Valid(CodeText(w.msg.code)) by { ConstantsAscii(w.msg); }
  }

  lemma ConstantsAscii(m: OutMsg)
    ensures Utf8.Valid("live") && Utf8.Valid("cancelled") && Utf8.Valid(Tag(m))
    ensures m.Reject? ==> Utf8.Valid(CodeText(m.code))
  {
    hide Utf8.ValidFrom;
    FixedAscii(m);
    AsciiFrom("live", 0);
    AsciiFrom("cancelled", 0);
    AsciiFrom(Tag(m), 0);
    if m.Reject? { AsciiFrom(CodeText(m.code), 0); }
  }

  /** What is printed passes the whole preflight, which records the members of the printed object. */
  lemma PrintedMembers(w: Wire)
    requires Utf8Strings(w)
    ensures ByteStrings(w) && GoodEntries(AllEntries(w))
    ensures Preflight.Accept(Printed(w)) == Some(FieldsOf(MembersOf(AllEntries(w))))
    ensures KeyPolicy(FieldsOf(MembersOf(AllEntries(w))))
  {
    hide Utf8.ValidFrom, ShowMembers, CellText, Scan, KeyPolicy, Printed;
    EntriesUtf8(w);
    EntriesGood(w);
    var es := AllEntries(w);
    var ms := MembersOf(es);
    MembersUtf8(es);
    FieldsPrinted(es);
    PrintedIs(w);
    AsciiFrom("{", 0);
    Utf8Join("{", ShowMembers(ms));
    ScanComplete(Printed(w), "", Obj(ms), "");
    KeysDistinct(w);
    KeysLiteral(es, FieldsOf(ms));
    NoBom(ShowMembers(ms));
  }

  /** Print then parse is the identity: whatever message with valid UTF-8 strings is printed passes the
      whole preflight, which records exactly its tag and its members, in order, each under a span that
      reads back to its value. */
  lemma PrintThenParse(w: Wire)
    requires Utf8Strings(w)
    ensures ByteStrings(w)
    ensures var es := AllEntries(w); var found := Preflight.Accept(Printed(w));
            && found.Some? && |found.value| == |es|
            && forall i :: 0 <= i < |es| ==> found.value[i].key == es[i].key && ReadsBack(es[i].cell, found.value[i].value)
  {
    hide CellText, ReadsBack, Printed, MembersOf, KeyPolicy, AllEntries;
    PrintedMembers(w);
    EntriesUtf8(w);
    EntriesGood(w);
    var es := AllEntries(w);
    FieldsPrinted(es);
    forall i | 0 <= i < |es| ensures ReadsBack(es[i].cell, CellText(es[i].cell)) { CellReadsBack(es[i].cell); }
  }

  lemma PrintedIs(w: Wire)
    requires ByteStrings(w)
    ensures GoodEntries(AllEntries(w)) && Printed(w) == "{" + ShowMembers(MembersOf(AllEntries(w)))
    ensures Printed(w) == Show(Obj(MembersOf(AllEntries(w)))) == "" + Show(Obj(MembersOf(AllEntries(w)))) + ""
  {
    hide MembersOf;
    EntriesGood(w);
  }

  lemma KeysLiteral(es: seq<Entry>, fields: seq<Field>)
    requires GoodEntries(es) && |fields| == |es| && forall i :: 0 <= i < |es| ==> fields[i].key == es[i].key
    requires forall i, j :: 0 <= i < j < |es| ==> es[i].key != es[j].key
    ensures KeyPolicy(fields)
  {
  }

  lemma NoBom(rest: string)
    ensures !Preflight.HasBom("{" + rest)
  {
    assert Preflight.BOM == Utf8.EncodeOne(0xFEFF) + Utf8.Encode([]) == Utf8.EncodeOne(0xFEFF);
    assert Utf8.EncodeOne(0xFEFF)[0] as int == 0xEF;
  }
}
