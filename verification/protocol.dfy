/** The wire vocabulary and the order validation every accepted order passed
    (cpp/include/mm/protocol.hpp, cpp/include/mm/types.hpp). */
module Protocol {
  import opened Text

  datatype Side = Bid | Ask

  datatype RejectCode =
    | UnsupportedVersion | UnknownType | Malformed | MsgTooLarge
    | UnknownSymbol | BadSide | TickSize | LotSize | QtyLimit | PriceRange
    | DupClOrdId | PostOnlyCross | MaxLiveOrders | UnknownClOrdId | AlreadyTerminal | StaleEpoch

  function CodeText(code: RejectCode): string {
    match code
    case UnsupportedVersion => "UNSUPPORTED_VERSION"
    case UnknownType => "UNKNOWN_TYPE"
    case Malformed => "MALFORMED"
    case MsgTooLarge => "MSG_TOO_LARGE"
    case UnknownSymbol => "UNKNOWN_SYMBOL"
    case BadSide => "BAD_SIDE"
    case TickSize => "TICK_SIZE"
    case LotSize => "LOT_SIZE"
    case QtyLimit => "QTY_LIMIT"
    case PriceRange => "PRICE_RANGE"
    case DupClOrdId => "DUP_CLORDID"
    case PostOnlyCross => "POST_ONLY_CROSS"
    case MaxLiveOrders => "MAX_LIVE_ORDERS"
    case UnknownClOrdId => "UNKNOWN_CLORDID"
    case AlreadyTerminal => "ALREADY_TERMINAL"
    case StaleEpoch => "STALE_EPOCH"
  }

  /** Engine to client, before the session stamps the envelope. */
  datatype OutMsg =
    | Tob(mdSeq: nat, symbol: string, bidPx: int, bidQty: int, askPx: int, askQty: int)
    | OrderAck(clId: string, engId: nat)
    | CancelAck(clId: string, engId: nat)
    | Reject(clId: string, code: RejectCode, reason: string)
    | Fill(clId: string, engId: nat, px: int, qty: int, leaves: int, execId: nat)

  /** Engine to client, as written: the session owns seq, epoch and svc. */
  datatype Wire = Wire(seqNo: nat, epoch: nat, svc: int, msg: OutMsg)

  /** Client to engine, before the session driver stamps the envelope. */
  datatype InMsg =
    | NewOrder(mdSeq: nat, clId: string, symbol: string, side: string, px: int, qty: int, postOnly: bool)
    | CancelOrder(clId: string)

  datatype Command = Command(seqNo: nat, epoch: nat, msg: InMsg)

  datatype Instrument = Instrument(
    symbol: string, tickSize: int, lotSize: int, minPrice: int, maxPrice: int,
    maxOrderQty: int, maxLiveOrders: int)

  /** What the OrderEngine constructor insists on. */
  predicate ValidInstrument(inst: Instrument) {
    && inst.tickSize > 0 && inst.lotSize > 0 && inst.maxLiveOrders >= 0
    && inst.maxOrderQty > 0 && inst.minPrice <= inst.maxPrice
  }

  // C++ integer division truncates toward zero.
  function TruncDiv(a: int, b: int): int
    requires b > 0
  {
    if a >= 0 then a / b else -((-a) / b)
  }

  function TruncMod(a: int, b: int): int
    requires b > 0
  {
    a - TruncDiv(a, b) * b
  }

  function ValidateOrder(inst: Instrument, symbol: string, side: string, px: int, qty: int): Option<RejectCode>
    requires ValidInstrument(inst)
  {
    if symbol != inst.symbol then Some(UnknownSymbol)
    else if side != "B" && side != "S" then Some(BadSide)
    else if TruncMod(px, inst.tickSize) != 0 then Some(TickSize)
    else if TruncMod(qty, inst.lotSize) != 0 then Some(LotSize)
    else if qty <= 0 || qty > inst.maxOrderQty then Some(QtyLimit)
    else if px < inst.minPrice || px > inst.maxPrice then Some(PriceRange)
    else None
  }

  function ValidationReason(code: RejectCode, qty: int): string {
    match code
    case UnknownSymbol => "unknown symbol"
    case BadSide => "side must be \"B\" or \"S\""
    case TickSize => "px is not a multiple of tick_size"
    case LotSize => "qty is not a multiple of lot_size"
    case QtyLimit => if qty <= 0 then "qty must be positive" else "qty exceeds max_order_qty"
    case PriceRange => "px outside [min_price, max_price]"
    case _ => CodeText(code)
  }

  function SideFromWire(side: string): Option<Side> {
    if side == "B" then Some(Bid) else if side == "S" then Some(Ask) else None
  }

  function SideText(side: Side): string { if side == Bid then "B" else "S" }

  function ToTicks(inst: Instrument, px: int): int
    requires ValidInstrument(inst)
  {
    TruncDiv(px, inst.tickSize)
  }

  function ToRawPx(inst: Instrument, ticks: int): int { ticks * inst.tickSize }

  /** The tick boundary loses nothing on an order that passed validation, whatever its sign. */
  lemma TickRoundTrip(inst: Instrument, symbol: string, side: string, px: int, qty: int)
    requires ValidInstrument(inst)
    requires ValidateOrder(inst, symbol, side, px, qty) == None
    ensures ToRawPx(inst, ToTicks(inst, px)) == px
  {
  }
}
