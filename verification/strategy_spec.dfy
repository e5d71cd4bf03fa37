/** The market maker's decisions and the session driver around them, as functions from one state to
    the next (python/mmclient/strategy.py, python/mmclient/_session.py). The classes in strategy.dfy
    make the same moves in place. */
module StrategySpec {
  import opened Text
  import opened Protocol

  /** The client's view of an order; a terminal order leaves the map. */
  datatype OState = PendingNew | Live | PendingCancel

  datatype ClientOrder = ClientOrder(px: int, state: OState)

  datatype Config = Config(symbol: string, qty: int, maxQty: int, staleNs: int)

  /** One side's slice of the three dicts keyed by side. */
  datatype SideView = SideView(current: Option<string>, nextCl: nat, rejectedPx: Option<int>)

  /** `arrival` is the insertion order of the dict `orders`. */
  datatype State = State(
    epoch: nat, conflatedSeen: nat,
    orders: map<string, ClientOrder>, arrival: seq<string>, bid: SideView, ask: SideView,
    inSeq: nat, mdSeq: nat, lastTobNs: Option<int>, bidPx: Option<int>, askPx: Option<int>,
    stopped: bool, swept: bool)

  datatype StopReason =
    | StaleFeed(age: int, limit: int)
    | SeqGap(expected: nat, got: nat)
    | MdSeqDecreased(last: nat, got: nat)
    | UnexpectedSymbol(symbol: string, ours: string)
    | Disconnected

  datatype Cmd = SendCmd(msg: InMsg) | StopQuoting(reason: StopReason)

  const NO_SIDE := SideView(None, 0, None)

  const FRESH := State(0, 0, map[], [], NO_SIDE, NO_SIDE, 0, 0, None, None, None, false, false)

  function On(s: State, side: Side): SideView { if side == Bid then s.bid else s.ask }

  function With(s: State, side: Side, v: SideView): State { if side == Bid then s.(bid := v) else s.(ask := v) }

  /** The ids the strategy assigns: the side's letter and the side's own running number. */
  function ClId(side: Side, n: nat): (id: string)
    ensures SideOf(id) == side && IndexOf(id) == n
  {
    DecimalReadsBack(n);
    var id := SideText(side) + "-" + Decimal(n);
    assert id[2..] == Decimal(n);
    id
  }

  /** The prefix the strategy itself assigned. */
  function SideOf(clId: string): Side { if clId != "" && clId[0] == 'B' then Bid else Ask }

  function IndexOf(clId: string): nat {
    if |clId| > 2 && AllDigits(clId[2..]) then DecimalValue(clId[2..]) else 0
  }

  // --- outbound decisions ------------------------------------------------------------------

  function PlaceNew(cfg: Config, s: State, side: Side, px: int, mdSeq: nat): (State, Cmd) {
    var n := On(s, side).nextCl + 1;
    var id := ClId(side, n);
    (With(s, side, On(s, side).(current := Some(id), nextCl := n))
       .(orders := s.orders[id := ClientOrder(px, PendingNew)],
         arrival := if id in s.orders then s.arrival else s.arrival + [id]),
     SendCmd(NewOrder(mdSeq, id, cfg.symbol, SideText(side), px, if cfg.qty <= cfg.maxQty then cfg.qty else cfg.maxQty, true)))
  }

  function CancelOne(s: State, id: string): (State, Cmd)
    requires id in s.orders
  {
    (s.(orders := s.orders[id := s.orders[id].(state := PendingCancel)]), SendCmd(CancelOrder(id)))
  }

  /** The reject barrier first, then the never-cross belt, then whatever the side already has in flight. */
  function Quote(cfg: Config, s: State, side: Side, desired: int, ask: int, bid: int, mdSeq: nat): (State, seq<Cmd>) {
    if On(s, side).rejectedPx == Some(desired) then (s, [])
    else
      var s1 := With(s, side, On(s, side).(rejectedPx := None));
      if (if side == Bid then desired >= ask else desired <= bid) then (s1, [])
      else QuoteUnbarred(cfg, s1, side, desired, mdSeq)
  }

  function QuoteUnbarred(cfg: Config, s: State, side: Side, desired: int, mdSeq: nat): (State, seq<Cmd>) {
    var cl := On(s, side).current;
    if cl.None? || cl.value !in s.orders then
      var (t, new_) := PlaceNew(cfg, s, side, desired, mdSeq);
      (t, [new_])
    else if s.orders[cl.value].state == PendingNew || s.orders[cl.value].px == desired then (s, [])
    else
      var (t, cancel) := CancelOne(s, cl.value);
      var (u, new_) := PlaceNew(cfg, t, side, desired, mdSeq);
      (u, [cancel, new_])
  }

  function Stop(s: State, reason: StopReason): (State, seq<Cmd>) {
    (s.(stopped := true), [StopQuoting(reason)])
  }

  // --- inbound -----------------------------------------------------------------------------

  function OnConnect(s: State, epoch: nat): State { FRESH.(epoch := epoch) }

  function OnDisconnect(s: State): (State, seq<Cmd>) {
    (s.(orders := map[], arrival := [], bid := s.bid.(current := None), ask := s.ask.(current := None), bidPx := None, askPx := None,
        lastTobNs := None, stopped := true),
     [StopQuoting(Disconnected)])
  }

  /** None when the tick or report may be acted on; the seq is consumed on the way. */
  function AdvanceSeq(s: State, seqNo: nat): (State, Option<seq<Cmd>>) {
    if seqNo != s.inSeq + 1 then
      var (t, cmds) := Stop(s, SeqGap(s.inSeq + 1, seqNo));
      (t, Some(cmds))
    else (s.(inSeq := seqNo), None)
  }

  function Admit(cfg: Config, s: State, w: Wire): (State, Option<seq<Cmd>>)
    requires w.msg.Tob?
  {
    if s.stopped then (s, Some([]))
    else if w.epoch != s.epoch then (s, Some([]))
    else
      var (t, gap) := AdvanceSeq(s, w.seqNo);
      if gap.Some? then (t, gap)
      else if w.msg.symbol != cfg.symbol then
        var (u, cmds) := Stop(t, UnexpectedSymbol(w.msg.symbol, cfg.symbol));
        (u, Some(cmds))
      else (t, None)
  }

  function OnTob(cfg: Config, s: State, w: Wire, now: int): (State, seq<Cmd>)
    requires w.msg.Tob?
  {
    var (s1, refused) := Admit(cfg, s, w);
    var tob := w.msg;
    if refused.Some? then (s1, refused.value)
    else if tob.mdSeq < s1.mdSeq then Stop(s1, MdSeqDecreased(s1.mdSeq, tob.mdSeq))
    else
      var s2 := s1.(lastTobNs := Some(now));
      if tob.mdSeq == s2.mdSeq then (s2, [])
      else QuoteBoth(cfg, Install(s2, tob), tob)
  }

  function Install(s: State, tob: OutMsg): State
    requires tob.Tob?
  {
    s.(conflatedSeen := if s.mdSeq != 0 && tob.mdSeq > s.mdSeq + 1 then s.conflatedSeen + 1 else s.conflatedSeen,
       mdSeq := tob.mdSeq, bidPx := Some(tob.bidPx), askPx := Some(tob.askPx))
  }

  function QuoteBoth(cfg: Config, s: State, tob: OutMsg): (State, seq<Cmd>)
    requires tob.Tob?
  {
    var (t, bids) := Quote(cfg, s, Bid, tob.bidPx, tob.askPx, tob.bidPx, tob.mdSeq);
    var (u, asks) := Quote(cfg, t, Ask, tob.askPx, tob.askPx, tob.bidPx, tob.mdSeq);
    (u, bids + asks)
  }

  function Retire(s: State, id: string): State
    requires id in s.orders
  {
    var v := On(s, SideOf(id));
    With(s, SideOf(id), if v.current == Some(id) then v.(current := None) else v)
      .(orders := s.orders - {id}, arrival := Drop(s.arrival, id))
  }

  function Drop(ids: seq<string>, id: string): seq<string> {
    if ids == [] then [] else if ids[0] == id then Drop(ids[1..], id) else [ids[0]] + Drop(ids[1..], id)
  }

  /** Re-run one side's decision against the freshest accepted book. */
  function Reconsider(cfg: Config, s: State, side: Side): (State, seq<Cmd>) {
    if s.bidPx.None? || s.askPx.None? then (s, [])
    else Quote(cfg, s, side, if side == Bid then s.bidPx.value else s.askPx.value, s.askPx.value, s.bidPx.value, s.mdSeq)
  }

  function OnReport(cfg: Config, s: State, w: Wire, now: int): (State, seq<Cmd>) {
    if w.msg.Tob? then OnTob(cfg, s, w, now)
    else if s.stopped || w.epoch != s.epoch then (s, [])
    else
      var (s1, gap) := AdvanceSeq(s, w.seqNo);
      if gap.Some? then (s1, gap.value)
      else if w.msg.clId !in s1.orders then (s1, [])
      else ApplyReport(cfg, s1, w.msg)
  }

  function ApplyReport(cfg: Config, s: State, msg: OutMsg): (State, seq<Cmd>)
    requires !msg.Tob? && msg.clId in s.orders
  {
    var id := msg.clId;
    match msg
    case OrderAck(_, _) =>
      if s.orders[id].state == PendingNew then
        Reconsider(cfg, s.(orders := s.orders[id := s.orders[id].(state := Live)]), SideOf(id))
      else (s, [])
    case CancelAck(_, _) => (Retire(s, id), [])
    case Fill(_, _, _, _, leaves, _) => (if leaves == 0 then Retire(s, id) else s, [])
    case Reject(_, _, _) =>
      var v := On(s, SideOf(id));
      var barred := if v.current == Some(id) then With(s, SideOf(id), v.(rejectedPx := Some(s.orders[id].px))) else s;
      (Retire(barred, id), [])
  }

  function Resting(s: State, ids: seq<string>): seq<string> {
    if ids == [] then []
    else
      Resting(s, ids[..|ids| - 1]) +
      var id := ids[|ids| - 1];
      if id in s.orders && s.orders[id].state != PendingCancel then [id] else []
  }

  function CancelAll(s: State, ids: seq<string>): (r: (State, seq<Cmd>))
    ensures r.0.orders.Keys == s.orders.Keys
  {
    if ids == [] then (s, [])
    else
      var (t, cmds) := CancelAll(s, ids[..|ids| - 1]);
      var id := ids[|ids| - 1];
      if id !in t.orders then (t, cmds)
      else
        var (u, cmd) := CancelOne(t, id);
        (u, cmds + [cmd])
  }

  function OnTimer(cfg: Config, s: State, now: int): (State, seq<Cmd>) {
    if s.swept || s.lastTobNs.None? then (s, [])
    else
      var age := now - s.lastTobNs.value;
      if age <= cfg.staleNs then (s, [])
      else
        var announced := if s.stopped then [] else [StopQuoting(StaleFeed(age, cfg.staleNs))];
        var s1 := s.(stopped := true, swept := true);
        var (s2, cancels) := CancelAll(s1, Resting(s1, s1.arrival));
        (s2, announced + cancels)
  }

  // --- the session driver ------------------------------------------------------------------

  datatype Driver = Driver(strategy: State, outSeq: nat, epoch: Option<nat>, close: Option<nat>)

  const NEW_DRIVER := Driver(FRESH, 0, None, None)

  const CLOSE_PROTOCOL := 1002
  const CLOSE_STALE := 4000

  function ReasonText(r: StopReason): string {
    match r
    case StaleFeed(age, limit) =>
      "stale feed: " + SignedDecimal(age) + " ns since the last book, limit " + SignedDecimal(limit)
    case SeqGap(expected, got) => "inbound seq gap: expected " + Decimal(expected) + ", got " + Decimal(got)
    case MdSeqDecreased(last, got) => "md_seq decreased: " + Decimal(last) + " -> " + Decimal(got)
    case UnexpectedSymbol(symbol, ours) => "unexpected symbol: " + symbol + ", expected " + ours
    case Disconnected => "disconnect"
  }

  predicate StartsWith(s: string, prefix: string) { prefix <= s }

  /** The close code is read off the first words of the reason. */
  function StopCode(r: StopReason): nat {
    if StartsWith(ReasonText(r), "stale feed") then CLOSE_STALE else CLOSE_PROTOCOL
  }

  lemma StaleAloneIs4000(r: StopReason)
    ensures StopCode(r) == CLOSE_STALE <==> r.StaleFeed?
  {
    var text, prefix := ReasonText(r), "stale feed";
    if r.StaleFeed? {
      assert text[..|prefix|] == prefix;
    } else {
      assert text[0] != 's' == prefix[0];
    }
  }

  /** First intent wins. */
  function Latch(d: Driver, code: nat): Driver { if d.close.None? then d.(close := Some(code)) else d }

  function Dispatch(d: Driver, cmds: seq<Cmd>): (r: (Driver, seq<Command>))
    requires d.epoch.Some? || forall c :: c in cmds ==> c.StopQuoting?
    ensures r.0.epoch == d.epoch && r.0.strategy == d.strategy
  {
    if cmds == [] then (d, [])
    else
      var (d1, frames) := Dispatch(d, cmds[..|cmds| - 1]);
      match cmds[|cmds| - 1]
      case SendCmd(msg) =>
        assert cmds[|cmds| - 1] in cmds;
        (d1.(outSeq := d1.outSeq + 1), frames + [Command(d1.outSeq + 1, d1.epoch.value, msg)])
      case StopQuoting(reason) => (Latch(d1, StopCode(reason)), frames)
  }

  /** One inbound frame; None is a frame the codec refuses. */
  function OnBytes(cfg: Config, d: Driver, frame: Option<Wire>, now: int): (Driver, seq<Command>) {
    if d.close.Some? then (d, [])
    else if frame.None? then (Latch(d, CLOSE_PROTOCOL), [])
    else
      var w := frame.value;
      var d1 := if d.epoch.None? then d.(epoch := Some(w.epoch), strategy := OnConnect(d.strategy, w.epoch)) else d;
      var (t, cmds) := OnReport(cfg, d1.strategy, w, now);
      Dispatch(d1.(strategy := t), cmds)
  }

  /** No order exists before the first frame adopted an epoch. */
  ghost predicate DriverInv(d: Driver) {
    d.epoch.None? ==> d.strategy.orders == map[] && d.strategy.lastTobNs.None?
  }

  function DriverTimer(cfg: Config, d: Driver, now: int): (Driver, seq<Command>)
    requires DriverInv(d)
  {
    var (t, cmds) := OnTimer(cfg, d.strategy, now);
    Dispatch(d.(strategy := t), cmds)
  }

  function DriverDisconnect(d: Driver): Driver { d.(strategy := OnDisconnect(d.strategy).0) }

  // --- every run of the strategy -----------------------------------------------------------

  datatype Input =
    | Connect(epoch: nat)
    | Disconnect
    | Timer(now: int)
    | Message(wire: Wire, at: int)

  function React(cfg: Config, s: State, i: Input): State {
    match i
    case Connect(epoch) => OnConnect(s, epoch)
    case Disconnect => OnDisconnect(s).0
    case Timer(now) => OnTimer(cfg, s, now).0
    case Message(w, at) => OnReport(cfg, s, w, at).0
  }

  function RunOn(cfg: Config, s: State, inputs: seq<Input>): State {
    if inputs == [] then s else React(cfg, RunOn(cfg, s, inputs[..|inputs| - 1]), inputs[|inputs| - 1])
  }

  /** Every id in the map was assigned by this strategy, and a side's current order is its newest. */
  ghost predicate Ids(s: State) {
    && (forall id :: id in s.orders ==> id == ClId(SideOf(id), IndexOf(id)) && 1 <= IndexOf(id) <= On(s, SideOf(id)).nextCl)
    && (forall id :: id in s.arrival <==> id in s.orders)
    && HasCurrent(s, Bid) && HasCurrent(s, Ask)
  }

  ghost predicate HasCurrent(s: State, side: Side) {
    var v := On(s, side);
    v.current.Some? ==> v.current.value in s.orders && v.current.value == ClId(side, v.nextCl)
  }

  function Touch(s: State, side: Side): Option<int> { if side == Bid then s.bidPx else s.askPx }

  /** While a side holds an order, no price is barred, the book is known, and every order of the side
      is being cancelled except that one, which never is. */
  ghost predicate SideReady(s: State, side: Side) {
    var v := On(s, side);
    && (forall id :: id in s.orders && SideOf(id) == side && s.orders[id].state != PendingCancel ==> v.current == Some(id))
    && (v.current.Some? ==>
         && v.rejectedPx.None? && s.bidPx.Some? && s.askPx.Some?
         && v.current.value in s.orders && s.orders[v.current.value].state != PendingCancel)
  }

  /** And if it rests, it rests at the freshest accepted book's price, unless that book is locked or crossed. */
  ghost predicate AtTouch(s: State, side: Side) {
    var v := On(s, side);
    v.current.Some? && v.current.value in s.orders && s.orders[v.current.value].state == Live
      && s.bidPx.Some? && s.askPx.Some? && s.bidPx.value < s.askPx.value ==>
      Some(s.orders[v.current.value].px) == Touch(s, side)
  }

  ghost predicate NoStaleQuote(s: State) {
    !s.stopped ==> SideReady(s, Bid) && AtTouch(s, Bid) && SideReady(s, Ask) && AtTouch(s, Ask)
  }

  lemma {:induction false} DropIs(ids: seq<string>, id: string)
    ensures forall x :: x in Drop(ids, id) <==> x in ids && x != id
  {
    if ids != [] { DropIs(ids[1..], id); }
  }

  /** What quoting one side may change. */
  ghost predicate OnlySide(s: State, t: State, side: Side) {
    && t.(orders := s.orders, arrival := s.arrival, bid := s.bid, ask := s.ask) == s
    && (side == Bid ==> t.ask == s.ask) && (side == Ask ==> t.bid == s.bid)
    && forall id :: SideOf(id) != side ==>
        (id in t.orders <==> id in s.orders) &&
        (id in s.orders ==> t.orders[id] == s.orders[id])
  }

  lemma PlaceNewKeeps(cfg: Config, s: State, side: Side, px: int, mdSeq: nat)
    requires Ids(s)
    ensures var t := PlaceNew(cfg, s, side, px, mdSeq).0; Ids(t) && OnlySide(s, t, side)
    ensures ClId(side, On(s, side).nextCl + 1) !in s.orders
  {
    hide ClId, SideOf, IndexOf;
  }

  lemma PlaceNewReady(cfg: Config, s: State, side: Side, px: int, mdSeq: nat)
    requires Ids(s) && s.bidPx.Some? && s.askPx.Some? && On(s, side).rejectedPx.None?
    requires forall id :: id in s.orders && SideOf(id) == side ==> s.orders[id].state == PendingCancel
    ensures var t := PlaceNew(cfg, s, side, px, mdSeq).0; SideReady(t, side) && AtTouch(t, side)
  {
    hide ClId, SideOf, IndexOf;
  }

  lemma CancelOneKeeps(s: State, id: string)
    requires Ids(s) && id in s.orders
    ensures var t := CancelOne(s, id).0; Ids(t) && OnlySide(s, t, SideOf(id))
  {
    hide ClId, SideOf, IndexOf;
  }

  lemma OnlySideTwice(s: State, t: State, u: State, side: Side)
    requires OnlySide(s, t, side) && OnlySide(t, u, side)
    ensures OnlySide(s, u, side)
  {
    hide SideOf;
  }

  lemma ReplaceSettles(cfg: Config, s: State, side: Side, px: int, mdSeq: nat)
    requires Ids(s) && SideReady(s, side) && On(s, side).current.Some?
    ensures On(s, side).current.value in s.orders
    ensures var t := CancelOne(s, On(s, side).current.value).0;
            var u := PlaceNew(cfg, t, side, px, mdSeq).0;
            Ids(u) && OnlySide(s, u, side) && SideReady(u, side) && AtTouch(u, side)
  {
    hide ClId, SideOf, IndexOf, PlaceNew, OnlySide, AtTouch;
    var id := On(s, side).current.value;
    assert SideOf(id) == side by { assert HasCurrent(s, side); }
    var t := CancelOne(s, id).0;
    CancelOneKeeps(s, id);
    PlaceNewKeeps(cfg, t, side, px, mdSeq);
    PlaceNewReady(cfg, t, side, px, mdSeq);
    OnlySideTwice(s, t, PlaceNew(cfg, t, side, px, mdSeq).0, side);
  }

  lemma UnbarredSettles(cfg: Config, s: State, side: Side, desired: int, mdSeq: nat)
    requires Ids(s) && SideReady(s, side) && On(s, side).rejectedPx.None? && s.bidPx.Some? && s.askPx.Some?
    requires Touch(s, side) == Some(desired)
    ensures var t := QuoteUnbarred(cfg, s, side, desired, mdSeq).0;
            Ids(t) && OnlySide(s, t, side) && SideReady(t, side) && AtTouch(t, side)
  {
    hide ClId, SideOf, IndexOf, PlaceNew, CancelOne, Ids, OnlySide;
    if On(s, side).current.None? {
      PlaceNewKeeps(cfg, s, side, desired, mdSeq);
      PlaceNewReady(cfg, s, side, desired, mdSeq);
    } else {
      ReplaceSettles(cfg, s, side, desired, mdSeq);
      assert OnlySide(s, s, side) by { OnlySideRefl(s, side); }
    }
  }

  lemma OnlySideRefl(s: State, side: Side)
    ensures OnlySide(s, s, side)
  {
  }

  lemma QuoteSettles(cfg: Config, s: State, side: Side, ask: int, bid: int, mdSeq: nat)
    requires Ids(s) && SideReady(s, side) && s.bidPx == Some(bid) && s.askPx == Some(ask)
    ensures var t := Quote(cfg, s, side, if side == Bid then bid else ask, ask, bid, mdSeq).0;
            Ids(t) && OnlySide(s, t, side) && SideReady(t, side) && AtTouch(t, side)
  {
    hide ClId, SideOf, IndexOf, QuoteUnbarred;
    var desired := if side == Bid then bid else ask;
    var s1 := With(s, side, On(s, side).(rejectedPx := None));
    assert Ids(s1) && SideReady(s1, side) && OnlySide(s, s1, side);
    if !(if side == Bid then desired >= ask else desired <= bid) {
      UnbarredSettles(cfg, s1, side, desired, mdSeq);
      OnlySideTwice(s, s1, QuoteUnbarred(cfg, s1, side, desired, mdSeq).0, side);
    }
  }

  /** Ids and SideReady look at the orders and the sides alone, once a book is known. */
  lemma SameOrders(s: State, t: State)
    requires t.orders == s.orders && t.arrival == s.arrival && t.bid == s.bid && t.ask == s.ask
    ensures Ids(s) ==> Ids(t)
    ensures t.bidPx.Some? && t.askPx.Some? ==>
            (SideReady(s, Bid) ==> SideReady(t, Bid)) &&
            (SideReady(s, Ask) ==> SideReady(t, Ask))
    ensures t.bidPx == s.bidPx && t.askPx == s.askPx ==>
              (SideReady(s, Bid) ==> SideReady(t, Bid)) && (SideReady(s, Ask) ==> SideReady(t, Ask))
              && (AtTouch(s, Bid) ==> AtTouch(t, Bid)) && (AtTouch(s, Ask) ==> AtTouch(t, Ask))
  {
    hide ClId, SideOf, IndexOf;
  }

  lemma OtherSideKept(s: State, t: State, side: Side, other: Side)
    requires other != side && OnlySide(s, t, side) && Ids(s)
    ensures SideReady(s, other) ==> SideReady(t, other)
    ensures AtTouch(s, other) && SideReady(s, other) ==> AtTouch(t, other)
  {
    hide ClId, SideOf, IndexOf;
    var v := On(s, other);
    if v.current.Some? { assert SideOf(v.current.value) == other by { assert HasCurrent(s, other); } }
  }

  lemma {:induction false} CancelAllKeeps(s: State, ids: seq<string>)
    requires Ids(s)
    ensures Ids(CancelAll(s, ids).0) && CancelAll(s, ids).0.stopped == s.stopped
  {
    hide ClId, SideOf, IndexOf;
    if ids != [] {
      CancelAllKeeps(s, ids[..|ids| - 1]);
      var t := CancelAll(s, ids[..|ids| - 1]).0;
      if ids[|ids| - 1] in t.orders { CancelOneKeeps(t, ids[|ids| - 1]); }
    }
  }

  lemma BookSettles(cfg: Config, s: State, tob: OutMsg)
    requires tob.Tob? && s.bidPx == Some(tob.bidPx) && s.askPx == Some(tob.askPx)
    requires Ids(s) && SideReady(s, Bid) && SideReady(s, Ask)
    ensures var t := QuoteBoth(cfg, s, tob).0; Ids(t) && NoStaleQuote(t)
  {
    hide ClId, SideOf, IndexOf, Quote;
    var t := Quote(cfg, s, Bid, tob.bidPx, tob.askPx, tob.bidPx, tob.mdSeq).0;
    QuoteSettles(cfg, s, Bid, tob.askPx, tob.bidPx, tob.mdSeq);
    OtherSideKept(s, t, Bid, Ask);
    var u := Quote(cfg, t, Ask, tob.askPx, tob.askPx, tob.bidPx, tob.mdSeq).0;
    QuoteSettles(cfg, t, Ask, tob.askPx, tob.bidPx, tob.mdSeq);
    OtherSideKept(t, u, Ask, Bid);
  }

  lemma TobSettles(cfg: Config, s: State, w: Wire, now: int)
    requires w.msg.Tob? && Ids(s) && NoStaleQuote(s)
    ensures Ids(OnTob(cfg, s, w, now).0) && NoStaleQuote(OnTob(cfg, s, w, now).0)
  {
    hide Ids, SideReady, AtTouch, QuoteBoth;
    var (s1, refused) := Admit(cfg, s, w);
    var t := OnTob(cfg, s, w, now).0;
    if refused.Some? || w.msg.mdSeq <= s1.mdSeq {
      SameOrders(s, t);
    } else {
      var installed := Install(s1.(lastTobNs := Some(now)), w.msg);
      SameOrders(s, installed);
      BookSettles(cfg, installed, w.msg);
    }
  }

  function Opposite(side: Side): Side { if side == Bid then Ask else Bid }

  lemma AckSettles(cfg: Config, s: State, id: string)
    requires id in s.orders && s.orders[id].state == PendingNew && !s.stopped && Ids(s) && NoStaleQuote(s)
    ensures var s1 := s.(orders := s.orders[id := s.orders[id].(state := Live)]);
            var t := Reconsider(cfg, s1, SideOf(id)).0;
            Ids(t) && NoStaleQuote(t)
  {
    hide ClId, SideOf, IndexOf, Quote;
    var side := SideOf(id);
    var s1 := s.(orders := s.orders[id := s.orders[id].(state := Live)]);
    assert Ids(s1) && SideReady(s1, side) && OnlySide(s, s1, side);
    OtherSideKept(s, s1, side, Opposite(side));
    QuoteSettles(cfg, s1, side, s.askPx.value, s.bidPx.value, s.mdSeq);
    OtherSideKept(s1, Reconsider(cfg, s1, side).0, side, Opposite(side));
  }

  lemma RetireIds(s: State, id: string)
    requires id in s.orders && Ids(s)
    ensures Ids(Retire(s, id))
  {
    hide ClId, SideOf, IndexOf, Drop;
    DropIs(s.arrival, id);
  }

  lemma RetireSettles(s: State, id: string)
    requires id in s.orders && Ids(s) && !s.stopped && NoStaleQuote(s)
    ensures Ids(Retire(s, id)) && NoStaleQuote(Retire(s, id))
  {
    hide ClId, SideOf, IndexOf, Drop;
    RetireIds(s, id);
    var side := SideOf(id);
    assert SideReady(s, side) && AtTouch(s, side);
    var t := Retire(s, id);
    OtherSideKept(s, t, side, Opposite(side));
    assert SideReady(t, side) && AtTouch(t, side);
  }

  function Barred(s: State, id: string): State
    requires id in s.orders
  {
    With(s, SideOf(id), On(s, SideOf(id)).(rejectedPx := Some(s.orders[id].px)))
  }

  lemma BarredIds(s: State, id: string)
    requires id in s.orders && Ids(s)
    ensures Ids(Barred(s, id))
  {
    hide ClId, SideOf, IndexOf;
  }

  lemma RetireOnlySide(s: State, id: string)
    requires id in s.orders
    ensures OnlySide(s, Retire(Barred(s, id), id), SideOf(id))
  {
    hide ClId, SideOf, IndexOf, Drop;
  }

  /** The price is barred only as its order leaves, so a side holding an order bars nothing. */
  lemma BarredRetire(s: State, id: string)
    requires id in s.orders && Ids(s) && !s.stopped && NoStaleQuote(s) && On(s, SideOf(id)).current == Some(id)
    ensures Ids(Retire(Barred(s, id), id)) && NoStaleQuote(Retire(Barred(s, id), id))
  {
    hide ClId, SideOf, IndexOf, Drop, Touch, Ids, OnlySide;
    var t, side := Retire(Barred(s, id), id), SideOf(id);
    BarredIds(s, id);
    RetireIds(Barred(s, id), id);
    RetireOnlySide(s, id);
    assert SideReady(t, side) && AtTouch(t, side) by { assert SideReady(s, side); }
    OtherSideKept(s, t, side, Opposite(side));
  }

  lemma ReportSettles(cfg: Config, s: State, msg: OutMsg)
    requires !msg.Tob? && msg.clId in s.orders && !s.stopped && Ids(s) && NoStaleQuote(s)
    ensures var t := ApplyReport(cfg, s, msg).0; Ids(t) && NoStaleQuote(t)
  {
    hide SideOf, Ids, NoStaleQuote, Retire, Reconsider;
    var id := msg.clId;
    match msg
    case OrderAck(_, _) => if s.orders[id].state == PendingNew { AckSettles(cfg, s, id); }
    case Reject(_, _, _) => if On(s, SideOf(id)).current == Some(id) { BarredRetire(s, id); } else { RetireSettles(s, id); }
    case _ => RetireSettles(s, id);
  }

  lemma TimerSettles(cfg: Config, s: State, now: int)
    requires Ids(s) && NoStaleQuote(s)
    ensures Ids(OnTimer(cfg, s, now).0) && NoStaleQuote(OnTimer(cfg, s, now).0)
  {
    hide ClId, SideOf, IndexOf, SideReady, AtTouch;
    var s1 := s.(stopped := true, swept := true);
    SameOrders(s, s1);
    CancelAllKeeps(s1, Resting(s1, s1.arrival));
  }

  lemma MessageSettles(cfg: Config, s: State, w: Wire, at: int)
    requires Ids(s) && NoStaleQuote(s)
    ensures Ids(OnReport(cfg, s, w, at).0) && NoStaleQuote(OnReport(cfg, s, w, at).0)
  {
    hide ClId, SideOf, IndexOf, OnTob, ApplyReport, Ids, SideReady, AtTouch;
    if w.msg.Tob? {
      TobSettles(cfg, s, w, at);
    } else if !s.stopped && w.epoch == s.epoch {
      var s1 := s.(inSeq := w.seqNo);
      SameOrders(s, s1);
      if w.seqNo != s.inSeq + 1 {
        SameOrders(s, Stop(s, SeqGap(s.inSeq + 1, w.seqNo)).0);
      } else if w.msg.clId in s1.orders {
        ReportSettles(cfg, s1, w.msg);
      }
    }
  }

  lemma ReactSettles(cfg: Config, s: State, i: Input)
    requires Ids(s) && NoStaleQuote(s)
    ensures Ids(React(cfg, s, i)) && NoStaleQuote(React(cfg, s, i))
  {
    hide ClId, SideOf, IndexOf, OnTimer, OnReport;
    match i
    case Connect(_) =>
    case Disconnect =>
    case Timer(now) => TimerSettles(cfg, s, now);
    case Message(w, at) => MessageSettles(cfg, s, w, at);
  }

  /** For any sequence of books, reports, timers and connections whatever. */
  lemma {:induction false} NoStaleRestingQuote(cfg: Config, inputs: seq<Input>)
    ensures Ids(RunOn(cfg, FRESH, inputs)) && NoStaleQuote(RunOn(cfg, FRESH, inputs))
  {
    if inputs != [] {
      NoStaleRestingQuote(cfg, inputs[..|inputs| - 1]);
      ReactSettles(cfg, RunOn(cfg, FRESH, inputs[..|inputs| - 1]), inputs[|inputs| - 1]);
    }
  }
}
