/** The client's reading of an engine message, member by name, as its message types declare them, and
    that it reads back what the engine printed (python/mmclient/protocol.py:129-409,
    python/mmclient/_rules.py:60-78,310-329). */
module WireReader {
  import opened Text
  import opened Protocol
  import opened JsonGrammar
  import opened JsonLexer
  import opened JsonScan
  import opened IntDomains
  import opened Encoder
  import Preflight
  import Utf8

  // --- members by name ---------------------------------------------------------------------

  /** The span recorded under a name. */
  function Named(fields: seq<Field>, key: string): Option<string> {
    if fields == [] then None
    else if fields[0].key == key then Some(fields[0].value)
    else Named(fields[1..], key)
  }

  function UnsignedAt(fields: seq<Field>, key: string): Option<nat> {
    var span := Named(fields, key);
    if span.Some? && IsUnsignedToken(span.value) then Some(DecimalValue(span.value)) else None
  }

  function SignedAt(fields: seq<Field>, key: string): Option<int> {
    var span := Named(fields, key);
    if span.Some? && IsSignedToken(span.value) then Some(IntOf(span.value)) else None
  }

  function StringAt(fields: seq<Field>, key: string): Option<string> {
    var span := Named(fields, key);
    if span.Some? && span.value != "" && span.value[0] == '"' && BodyEnd(span.value, 1) == Some(|span.value|)
    then Some(Unescape(span.value, 1))
    else None
  }

  // --- the five message types, as declared -------------------------------------------------

  function CodeNamed(text: string): Option<RejectCode> {
    if text == "UNSUPPORTED_VERSION" then Some(UnsupportedVersion)
    else if text == "UNKNOWN_TYPE" then Some(UnknownType)
    else if text == "MALFORMED" then Some(Malformed)
    else if text == "MSG_TOO_LARGE" then Some(MsgTooLarge)
    else if text == "UNKNOWN_SYMBOL" then Some(UnknownSymbol)
    else if text == "BAD_SIDE" then Some(BadSide)
    else if text == "TICK_SIZE" then Some(TickSize)
    else if text == "LOT_SIZE" then Some(LotSize)
    else if text == "QTY_LIMIT" then Some(QtyLimit)
    else if text == "PRICE_RANGE" then Some(PriceRange)
    else if text == "DUP_CLORDID" then Some(DupClOrdId)
    else if text == "POST_ONLY_CROSS" then Some(PostOnlyCross)
    else if text == "MAX_LIVE_ORDERS" then Some(MaxLiveOrders)
    else if text == "UNKNOWN_CLORDID" then Some(UnknownClOrdId)
    else if text == "ALREADY_TERMINAL" then Some(AlreadyTerminal)
    else if text == "STALE_EPOCH" then Some(StaleEpoch)
    else None
  }

  function ReadTob(fields: seq<Field>): Option<OutMsg> {
    var mdSeq, symbol := UnsignedAt(fields, "md_seq"), StringAt(fields, "symbol");
    var bidPx, bidQty := SignedAt(fields, "bid_px"), SignedAt(fields, "bid_qty");
    var askPx, askQty := SignedAt(fields, "ask_px"), SignedAt(fields, "ask_qty");
    if mdSeq.None? || symbol.None? || bidPx.None? || bidQty.None? || askPx.None? || askQty.None? then None
    else Some(Tob(mdSeq.value, symbol.value, bidPx.value, bidQty.value, askPx.value, askQty.value))
  }

  /** The status is a closed literal: an ack says live, a cancel ack cancelled. */
  function ReadOrderAck(fields: seq<Field>): Option<OutMsg> {
    var clId, engId := StringAt(fields, "cl_id"), UnsignedAt(fields, "eng_id");
    if clId.None? || engId.None? || StringAt(fields, "status") != Some("live") then None
    else Some(OrderAck(clId.value, engId.value))
  }

  function ReadCancelAck(fields: seq<Field>): Option<OutMsg> {
    var clId, engId := StringAt(fields, "cl_id"), UnsignedAt(fields, "eng_id");
    if clId.None? || engId.None? || StringAt(fields, "status") != Some("cancelled") then None
    else Some(CancelAck(clId.value, engId.value))
  }

  function ReadReject(fields: seq<Field>): Option<OutMsg> {
    var clId, code, reason := StringAt(fields, "cl_id"), StringAt(fields, "code"), StringAt(fields, "reason");
    if clId.None? || code.None? || reason.None? || CodeNamed(code.value).None? then None
    else Some(Reject(clId.value, CodeNamed(code.value).value, reason.value))
  }

  function ReadFill(fields: seq<Field>): Option<OutMsg> {
    var clId, engId, execId := StringAt(fields, "cl_id"), UnsignedAt(fields, "eng_id"), UnsignedAt(fields, "exec_id");
    var px, qty, leaves := SignedAt(fields, "px"), SignedAt(fields, "qty"), SignedAt(fields, "leaves");
    if clId.None? || engId.None? || execId.None? || px.None? || qty.None? || leaves.None? then None
    else Some(Fill(clId.value, engId.value, px.value, qty.value, leaves.value, execId.value))
  }

  function ReadBody(tag: string, fields: seq<Field>): Option<OutMsg> {
    if tag == "top_of_book" then ReadTob(fields)
    else if tag == "order_ack" then ReadOrderAck(fields)
    else if tag == "cancel_ack" then ReadCancelAck(fields)
    else if tag == "reject" then ReadReject(fields)
    else if tag == "fill" then ReadFill(fields)
    else None
  }

  /** The message an accepted frame holds: its tag, version 1, its envelope, and every member its type
      declares, each of the declared kind. Of the five only an order ack declares a service time. */
  function Read(fields: seq<Field>): Option<Wire> {
    var tag, seqNo, epoch := StringAt(fields, "t"), UnsignedAt(fields, "seq"), UnsignedAt(fields, "epoch");
    if tag.None? || Named(fields, "v") != Some("1") || seqNo.None? || epoch.None? then None
    else
      var body, svc := ReadBody(tag.value, fields), if tag.value == "order_ack" then SignedAt(fields, "svc_ns") else Some(0);
      if body.None? || svc.None? then None else Some(Wire(seqNo.value, epoch.value, svc.value, body.value))
  }

  // --- reading back what was printed -------------------------------------------------------

  lemma {:induction false} NamedAt(fields: seq<Field>, i: nat)
    requires i < |fields| && forall a, b :: 0 <= a < b < |fields| ==> fields[a].key != fields[b].key
    ensures Named(fields, fields[i].key) == Some(fields[i].value)
  {
    if i > 0 { NamedAt(fields[1..], i - 1); }
  }

  /** A member read by its name gives the value it was printed from. */
  lemma CellAt(fields: seq<Field>, i: nat, e: Entry)
    requires i < |fields| && forall a, b :: 0 <= a < b < |fields| ==> fields[a].key != fields[b].key
    requires fields[i].key == e.key && ReadsBack(e.cell, fields[i].value)
    ensures match e.cell
            case U(n) => UnsignedAt(fields, e.key) == Some(n)
            case I(v) => SignedAt(fields, e.key) == Some(v)
            case S(s) => StringAt(fields, e.key) == Some(s)
  {
    NamedAt(fields, i);
  }

  predicate Has(fields: seq<Field>, e: Entry) {
    match e.cell
    case U(n) => UnsignedAt(fields, e.key) == Some(n)
    case I(v) => SignedAt(fields, e.key) == Some(v)
    case S(s) => StringAt(fields, e.key) == Some(s)
  }

  /** Every member of a printed message can be read by its name, and its span is what was printed for it. */
  lemma PrintedHas(w: Wire) returns (fields: seq<Field>)
    requires Utf8Strings(w)
    ensures ByteStrings(w) && Preflight.Accept(Printed(w)) == Some(fields) && GoodEntries(AllEntries(w))
    ensures forall e :: e in AllEntries(w) ==> Has(fields, e) && GoodEntry(e) && Named(fields, e.key) == Some(CellText(e.cell))
  {
    hide CellText, ReadsBack, Printed, MembersOf, AllEntries, UnsignedAt, SignedAt, StringAt;
    PrintedMembers(w);
    var es := AllEntries(w);
    EntriesGood(w);
    FieldsPrinted(es);
    fields := FieldsOf(MembersOf(es));
    forall e | e in es ensures Has(fields, e) && GoodEntry(e) && Named(fields, e.key) == Some(CellText(e.cell)) {
      var i :| 0 <= i < |es| && es[i] == e;
      assert GoodEntry(e);
      CellReadsBack(e.cell);
      CellAt(fields, i, e);
      NamedAt(fields, i);
    }
  }

  lemma CodeReadsBack(code: RejectCode)
    ensures CodeNamed(CodeText(code)) == Some(code)
  {
  }

  /** What of a message is on the wire: only an order ack carries a service time. */
  function AsSent(w: Wire): Wire { w.(svc := if w.msg.OrderAck? then w.svc else 0) }

  /** Every message with valid UTF-8 strings, printed and then read by name, is the message that was
      sent, whatever its kind and, for a refusal, whatever its code. */
  lemma ReadsWhatWasPrinted(w: Wire)
    requires Utf8Strings(w)
    ensures ByteStrings(w)
    ensures var found := Preflight.Accept(Printed(w)); found.Some? && Read(found.value) == Some(AsSent(w))
  {
    hide CellText, Printed, MembersOf, UnsignedAt, SignedAt, StringAt, Utf8Strings, ByteStrings, ReadBody, Own, GoodEntry,
        Named, Preflight.Accept;
    var fields := PrintedHas(w);
    var es := AllEntries(w);
    assert es[0] in es && es[1] in es && es[2] in es && es[3] in es;
    OneIsOne();
    assert Named(fields, "v") == Some("1");
    BodyReads(w, fields);
  }

  lemma OneIsOne()
    ensures CellText(U(1)) == "1"
  {
  }

  /** Each kind's own members. */
  lemma BodyReads(w: Wire, fields: seq<Field>)
    requires forall e :: e in AllEntries(w) ==> Has(fields, e)
    ensures ReadBody(Tag(w.msg), fields) == Some(w.msg)
    ensures w.msg.OrderAck? ==> SignedAt(fields, "svc_ns") == Some(w.svc)
  {
    hide UnsignedAt, SignedAt, StringAt, CodeText, CodeNamed;
    var es := AllEntries(w);
    match w.msg {
      case Tob(_, _, _, _, _, _) =>
        assert es[4] in es && es[5] in es && es[6] in es && es[7] in es && es[8] in es && es[9] in es;
      case OrderAck(_, _) => assert es[4] in es && es[5] in es && es[6] in es && es[7] in es;
      case CancelAck(_, _) => assert es[4] in es && es[5] in es && es[6] in es;
      case Reject(_, code, _) =>
        assert es[4] in es && es[5] in es && es[6] in es;
        CodeReadsBack(code);
      case Fill(_, _, _, _, _, _) =>
        assert es[4] in es && es[5] in es && es[6] in es && es[7] in es && es[8] in es && es[9] in es;
    }
  }

  // --- the client's whole verdict ----------------------------------------------------------

  /** The members of each type declared uint64. */
  function UnsignedMembers(tag: string): seq<string> {
    ["seq", "epoch"] +
    if tag == "top_of_book" then ["md_seq"]
    else if tag == "order_ack" || tag == "cancel_ack" then ["eng_id"]
    else if tag == "fill" then ["eng_id", "exec_id"]
    else []
  }

  /** And int64. */
  function SignedMembers(tag: string): seq<string> {
    if tag == "top_of_book" then ["bid_px", "bid_qty", "ask_px", "ask_qty"]
    else if tag == "order_ack" then ["svc_ns"]
    else if tag == "fill" then ["px", "qty", "leaves"]
    else []
  }

  /** The members that are free strings: those the engine bounds, and its own text. */
  function CappedMember(tag: string): (string, nat) { if tag == "top_of_book" then ("symbol", 32) else ("cl_id", 64) }

  function FreeText(tag: string): seq<string> { if tag == "reject" then ["code", "reason"] else [] }

  predicate InDomain(fields: seq<Field>, rule: Rule, key: string) {
    var span := Named(fields, key);
    span.Some? ==> Passes(rule, span.value)
  }

  predicate NoControl(s: string) { forall i :: 0 <= i < |s| ==> s[i] as int >= 0x20 && s[i] as int != 0x7F }

  predicate Identifier(s: string, cap: nat) { |s| <= cap && NoControl(s) }

  predicate AllIn(fields: seq<Field>, rule: Rule, keys: seq<string>) { forall k :: k in keys ==> InDomain(fields, rule, k) }

  /** The client's checks of the members that are there. */
  predicate Passed(tag: string, fields: seq<Field>) {
    && AllIn(fields, UINT64, UnsignedMembers(tag)) && AllIn(fields, INT64, SignedMembers(tag))
    && (var s := StringAt(fields, CappedMember(tag).0); s.Some? ==> Identifier(s.value, CappedMember(tag).1))
    && forall k :: k in FreeText(tag) ==> StringAt(fields, k).Some? ==> NoControl(StringAt(fields, k).value)
  }

  /** A frame as the client takes it, or None for one it refuses: acceptable to the preflight, every
      declared member there, every integer in its domain, identifiers within their caps and no control
      byte in any string. */
  function Decode(frame: string): Option<Wire> {
    var found := Preflight.Accept(frame);
    if found.None? then None
    else
      var tag := StringAt(found.value, "t");
      if tag.None? || !Passed(tag.value, found.value) then None else Read(found.value)
  }

  predicate Fits64(n: int) { 0 <= n <= UINT64_MAX }

  predicate Fits63(v: int) { INT64_MIN <= v <= INT64_MAX }

  /** What the client can take, in the fields of the message. */
  predicate Fits(w: Wire) {
    && Fits64(w.seqNo) && Fits64(w.epoch)
    && match w.msg
       case Tob(mdSeq, symbol, bidPx, bidQty, askPx, askQty) =>
         Fits64(mdSeq) && Identifier(symbol, 32) && Fits63(bidPx) && Fits63(bidQty) && Fits63(askPx) && Fits63(askQty)
       case OrderAck(clId, engId) => Identifier(clId, 64) && Fits64(engId) && Fits63(w.svc)
       case CancelAck(clId, engId) => Identifier(clId, 64) && Fits64(engId)
       case Reject(clId, _, reason) => Identifier(clId, 64) && NoControl(reason)
       case Fill(clId, engId, px, qty, leaves, execId) =>
         Identifier(clId, 64) && Fits64(engId) && Fits63(px) && Fits63(qty) && Fits63(leaves) && Fits64(execId)
  }

  lemma CellFits(c: Cell)
    requires !c.S?
    ensures c.U? ==> (Passes(UINT64, CellText(c)) <==> Fits64(c.n))
    ensures c.I? ==> (Passes(INT64, CellText(c)) <==> Fits63(c.v))
  {
    hide Passes, Decimal, IsSignedToken, IsUnsignedToken, DecimalValue;
    var n := CellJson(c).number;
    assert ShowNumber(n) == CellText(c);
    DecimalReadsBack(if c.U? then c.n else if c.v < 0 then -c.v else c.v);
    DigitCountDecides(if c.U? then UINT64 else INT64, n);
  }

  /** An integer member of a printed message is in its domain exactly when its value is. */
  lemma MemberFits(fields: seq<Field>, e: Entry)
    requires !e.cell.S? && Named(fields, e.key) == Some(CellText(e.cell))
    ensures e.cell.U? ==> (InDomain(fields, UINT64, e.key) <==> Fits64(e.cell.n))
    ensures e.cell.I? ==> (InDomain(fields, INT64, e.key) <==> Fits63(e.cell.v))
  {
    hide Passes, CellText;
    CellFits(e.cell);
  }

  /** Every member of the message is recorded under its name. */
  predicate Recorded(w: Wire, fields: seq<Field>) {
    forall e :: e in AllEntries(w) ==> Has(fields, e) && GoodEntry(e) && Named(fields, e.key) == Some(CellText(e.cell))
  }

  lemma RecordedFits(w: Wire, fields: seq<Field>, e: Entry)
    requires Recorded(w, fields) && e in AllEntries(w)
    ensures e.cell.U? ==> (InDomain(fields, UINT64, e.key) <==> Fits64(e.cell.n))
    ensures e.cell.I? ==> (InDomain(fields, INT64, e.key) <==> Fits63(e.cell.v))
    ensures e.cell.S? ==> StringAt(fields, e.key) == Some(e.cell.s)
  {
    hide AllEntries, CellText, Named, InDomain, StringAt;
    if !e.cell.S? { MemberFits(fields, e); }
  }

  lemma EnvelopeFits(w: Wire, fields: seq<Field>)
    requires Recorded(w, fields)
    ensures InDomain(fields, UINT64, "seq") <==> Fits64(w.seqNo)
    ensures InDomain(fields, UINT64, "epoch") <==> Fits64(w.epoch)
    ensures StringAt(fields, "t") == Some(Tag(w.msg))
  {
    hide InDomain, StringAt, Recorded, Own;
    var es := AllEntries(w);
    assert es[0] in es && es[2] in es && es[3] in es;
    RecordedFits(w, fields, es[0]);
    RecordedFits(w, fields, es[2]);
    RecordedFits(w, fields, es[3]);
  }

  /** The i-th of a message's own members, as checked and as read. */
  lemma OwnFits(w: Wire, fields: seq<Field>, i: nat)
    requires Recorded(w, fields) && i < |Own(w)|
    ensures var e := Own(w)[i];
            && (e.cell.U? ==> (InDomain(fields, UINT64, e.key) <==> Fits64(e.cell.n)))
            && (e.cell.I? ==> (InDomain(fields, INT64, e.key) <==> Fits63(e.cell.v)))
            && (e.cell.S? ==> StringAt(fields, e.key) == Some(e.cell.s))
  {
    hide InDomain, StringAt, Recorded, Own;
    var es := AllEntries(w);
    assert es[4 + i] in es && es[4 + i] == Own(w)[i];
    RecordedFits(w, fields, es[4 + i]);
  }

  lemma TobPasses(w: Wire, fields: seq<Field>)
    requires Recorded(w, fields) && w.msg.Tob?
    ensures Passed("top_of_book", fields) <==> Fits(w)
  {
    hide InDomain, StringAt, Recorded, NoControl, Fits64, Fits63;
    EnvelopeFits(w, fields);
    OwnFits(w, fields, 0);
    OwnFits(w, fields, 1);
    OwnFits(w, fields, 2);
    OwnFits(w, fields, 3);
    OwnFits(w, fields, 4);
    OwnFits(w, fields, 5);
    assert UnsignedMembers("top_of_book") == ["seq", "epoch", "md_seq"];
    assert AllIn(fields, UINT64, ["seq", "epoch", "md_seq"]) <==> Fits64(w.seqNo) && Fits64(w.epoch) && Fits64(w.msg.mdSeq);
    assert AllIn(fields, INT64, ["bid_px", "bid_qty", "ask_px", "ask_qty"]) <==>
           Fits63(w.msg.bidPx) && Fits63(w.msg.bidQty) && Fits63(w.msg.askPx) && Fits63(w.msg.askQty);
  }

  lemma AckPasses(w: Wire, fields: seq<Field>)
    requires Recorded(w, fields) && (w.msg.OrderAck? || w.msg.CancelAck?)
    ensures Passed(Tag(w.msg), fields) <==> Fits(w)
  {
    hide InDomain, StringAt, Recorded, NoControl, Fits64, Fits63;
    EnvelopeFits(w, fields);
    OwnFits(w, fields, 0);
    OwnFits(w, fields, 1);
    if w.msg.OrderAck? { OwnFits(w, fields, 3); }
    assert UnsignedMembers(Tag(w.msg)) == ["seq", "epoch", "eng_id"];
    assert AllIn(fields, UINT64, ["seq", "epoch", "eng_id"]) <==> Fits64(w.seqNo) && Fits64(w.epoch) && Fits64(w.msg.engId);
    assert w.msg.OrderAck? ==> (AllIn(fields, INT64, ["svc_ns"]) <==> Fits63(w.svc));
  }

  lemma RejectPasses(w: Wire, fields: seq<Field>)
    requires Recorded(w, fields) && w.msg.Reject?
    ensures Passed("reject", fields) <==> Fits(w)
  {
    hide InDomain, StringAt, Recorded, NoControl, Fits64, Fits63, CodeText;
    EnvelopeFits(w, fields);
    OwnFits(w, fields, 0);
    OwnFits(w, fields, 1);
    OwnFits(w, fields, 2);
    CodesTidy(w.msg.code);
    assert UnsignedMembers("reject") == ["seq", "epoch"];
    assert AllIn(fields, UINT64, ["seq", "epoch"]) <==> Fits64(w.seqNo) && Fits64(w.epoch);
  }

  lemma CodesTidy(code: RejectCode)
    ensures NoControl(CodeText(code))
  {
    hide NoControl;
    ShapeCodesTidy();
    FieldCodesTidy();
    StateCodesTidy();
  }

  lemma ShapeCodesTidy()
    ensures NoControl("UNSUPPORTED_VERSION") && NoControl("UNKNOWN_TYPE") && NoControl("MALFORMED") && NoControl("MSG_TOO_LARGE")
  {
  }

  lemma FieldCodesTidy()
    ensures NoControl("UNKNOWN_SYMBOL") && NoControl("BAD_SIDE") && NoControl("TICK_SIZE") && NoControl("LOT_SIZE") &&
            NoControl("QTY_LIMIT") && NoControl("PRICE_RANGE")
  {
  }

  lemma StateCodesTidy()
    ensures NoControl("DUP_CLORDID") && NoControl("POST_ONLY_CROSS") && NoControl("MAX_LIVE_ORDERS") &&
            NoControl("UNKNOWN_CLORDID") && NoControl("ALREADY_TERMINAL") && NoControl("STALE_EPOCH")
  {
  }

  lemma FillPasses(w: Wire, fields: seq<Field>)
    requires Recorded(w, fields) && w.msg.Fill?
    ensures Passed("fill", fields) <==> Fits(w)
  {
    hide InDomain, StringAt, Recorded, NoControl, Fits64, Fits63;
    EnvelopeFits(w, fields);
    OwnFits(w, fields, 0);
    OwnFits(w, fields, 1);
    OwnFits(w, fields, 2);
    OwnFits(w, fields, 3);
    OwnFits(w, fields, 4);
    OwnFits(w, fields, 5);
    assert UnsignedMembers("fill") == ["seq", "epoch", "eng_id", "exec_id"];
    assert AllIn(fields, UINT64, ["seq", "epoch", "eng_id", "exec_id"]) <==>
           Fits64(w.seqNo) && Fits64(w.epoch) && Fits64(w.msg.engId) && Fits64(w.msg.execId);
    assert AllIn(fields, INT64, ["px", "qty", "leaves"]) <==> Fits63(w.msg.px) && Fits63(w.msg.qty) && Fits63(w.msg.leaves);
  }

  /** The client takes a printed message exactly when its integers fit their domains, its identifier is
      within its cap and no string holds a control byte, and then it has the message that was sent. */
  lemma DecodedExactlyWhenFits(w: Wire)
    requires Utf8Strings(w)
    ensures ByteStrings(w)
    ensures Decode(Printed(w)) == if Fits(w) then Some(AsSent(w)) else None
  {
    hide CellText, Printed, AllEntries, UnsignedAt, SignedAt, StringAt, Utf8Strings, ByteStrings, Read, Fits, InDomain,
        NoControl, Named, Has;
    var fields := PrintedHas(w);
    ReadsWhatWasPrinted(w);
    EnvelopeFits(w, fields);
    match w.msg {
      case Tob(_, _, _, _, _, _) => TobPasses(w, fields);
      case Reject(_, _, _) => RejectPasses(w, fields);
      case Fill(_, _, _, _, _, _) => FillPasses(w, fields);
      case _ => AckPasses(w, fields);
    }
  }
}

/** And so from the session to the client. */
module ReadBack {
  import opened Text
  import opened SessionSpec
  import opened SessionRuns
  import Encoder
  import T = SessionTicks
  import W = WireReader

  /** In every run of a session, each message it hands to the transport, its strings being UTF-8, is to
      the client the very message that was sent, service time and all, exactly when it fits. */
  lemma EveryMessageReadBack(cfg: Config, ws: seq<World>, hs: seq<Happening>, i: nat, k: nat)
    requires ValidConfig(cfg) && IsRun(cfg, ws, hs) && i < |ws| && k < |Texts(ws[i].log.sent)|
    requires Encoder.Utf8Strings(Texts(ws[i].log.sent)[k])
    ensures var x := Texts(ws[i].log.sent)[k];
            Encoder.ByteStrings(x) && W.Decode(Encoder.Printed(x)) == if W.Fits(x) then Some(x) else None
  {
    hide IsRun, Texts, Encoder.Utf8Strings, Encoder.ByteStrings, Encoder.Printed, W.Decode, W.Fits;
    T.AlwaysUpToDate(cfg, ws, hs, i);
    var x := Texts(ws[i].log.sent)[k];
    W.DecodedExactlyWhenFits(x);
    assert W.AsSent(x) == x by { T.SvcOnly(ws[i].log.sent, k); }
  }
}
