/** What the client sends, and when, said in the fields of the book, the order and the configuration:
    which messages make it quote, at what price, for how much, and what it pulls first
    (python/mmclient/strategy.py:215-445). */
module Quoting {
  import opened Text
  import opened Protocol
  import opened StrategySpec

  // --- one side's decision -----------------------------------------------------------------

  /** The command puts out the side's new current order: at the touch, under an id never used before. */
  ghost predicate Places(cfg: Config, s: State, t: State, side: Side, touch: int, mdSeq: nat, cmd: Cmd) {
    var placed := On(t, side).current;
    && placed.Some? && placed.value !in s.orders && placed.value in t.orders
    && t.orders[placed.value] == ClientOrder(touch, PendingNew)
    && cmd == SendCmd(NewOrder(mdSeq, placed.value, cfg.symbol, if side == Bid then "B" else "S", touch,
                               if cfg.qty <= cfg.maxQty then cfg.qty else cfg.maxQty, true))
  }

  /** The side's orders and its current one are as they were. */
  ghost predicate Untouched(s: State, t: State, side: Side) {
    && On(t, side).current == On(s, side).current
    && forall id :: SideOf(id) == side ==>
         (id in t.orders <==> id in s.orders) && (id in s.orders ==> t.orders[id] == s.orders[id])
  }

  /** What a side sends for a touch: nothing while that price is barred, or an order is in flight, or one
      rests there already; one order if it has none; and to move a resting one, its cancel and then the
      new order. Nothing else of the side changes, but that a bar at another price is lifted. */
  ghost predicate Decides(cfg: Config, s: State, t: State, side: Side, touch: int, mdSeq: nat, cmds: seq<Cmd>)
    requires On(s, side).current.Some? ==> On(s, side).current.value in s.orders
  {
    var v := On(s, side);
    if v.rejectedPx == Some(touch) then cmds == [] && On(t, side) == v && Untouched(s, t, side)
    else
      && On(t, side).rejectedPx == None
      && if v.current.None? then
           && |cmds| == 1 && Places(cfg, s, t, side, touch, mdSeq, cmds[0])
           && OthersKept(s, t, side, None)
         else
           var held := s.orders[v.current.value];
           if held.state == Live && held.px != touch then
             && |cmds| == 2 && cmds[0] == SendCmd(CancelOrder(v.current.value))
             && Places(cfg, s, t, side, touch, mdSeq, cmds[1])
             && v.current.value in t.orders && t.orders[v.current.value] == ClientOrder(held.px, PendingCancel)
             && OthersKept(s, t, side, v.current)
           else cmds == [] && Untouched(s, t, side)
  }

  /** Beside the one pulled and the one placed, every order of the side is as it was. */
  ghost predicate OthersKept(s: State, t: State, side: Side, pulled: Option<string>) {
    forall id :: SideOf(id) == side && On(t, side).current != Some(id) && pulled != Some(id) ==>
      (id in t.orders <==> id in s.orders) && (id in s.orders ==> t.orders[id] == s.orders[id])
  }

  lemma PlacedIs(cfg: Config, s: State, side: Side, px: int, mdSeq: nat)
    requires Ids(s)
    ensures var (t, cmd) := PlaceNew(cfg, s, side, px, mdSeq);
            && Places(cfg, s, t, side, px, mdSeq, cmd) && OthersKept(s, t, side, None)
            && On(t, side).rejectedPx == On(s, side).rejectedPx
  {
    hide ClId, SideOf, IndexOf;
    PlaceNewKeeps(cfg, s, side, px, mdSeq);
  }

  lemma MovedIs(cfg: Config, s: State, side: Side, px: int, mdSeq: nat)
    requires Ids(s) && On(s, side).current.Some? && On(s, side).current.value in s.orders
    ensures var id := On(s, side).current.value; var t := CancelOne(s, id).0;
            var (u, cmd) := PlaceNew(cfg, t, side, px, mdSeq);
            && Places(cfg, s, u, side, px, mdSeq, cmd) && OthersKept(s, u, side, Some(id))
            && id in u.orders && u.orders[id] == ClientOrder(s.orders[id].px, PendingCancel)
            && On(u, side).rejectedPx == On(s, side).rejectedPx
  {
    hide ClId, SideOf, IndexOf, PlaceNew;
    var id := On(s, side).current.value;
    var t := CancelOne(s, id).0;
    CancelOneKeeps(s, id);
    PlacedIs(cfg, t, side, px, mdSeq);
    var u := PlaceNew(cfg, t, side, px, mdSeq).0;
    assert id in u.orders && u.orders[id] == t.orders[id] by { PlaceNewAdds(cfg, t, side, px, mdSeq); }
  }

  lemma PlaceNewAdds(cfg: Config, s: State, side: Side, px: int, mdSeq: nat)
    requires Ids(s)
    ensures var t := PlaceNew(cfg, s, side, px, mdSeq).0;
            forall id :: id in s.orders ==> id in t.orders && t.orders[id] == s.orders[id]
  {
    hide ClId, SideOf, IndexOf;
    PlaceNewKeeps(cfg, s, side, px, mdSeq);
  }

  /** One side against an uncrossed book. */
  lemma SideDecides(cfg: Config, s: State, side: Side, ask: int, bid: int, mdSeq: nat)
    requires Ids(s) && SideReady(s, side) && bid < ask
    ensures var touch := if side == Bid then bid else ask;
            var (t, cmds) := Quote(cfg, s, side, touch, ask, bid, mdSeq);
            Decides(cfg, s, t, side, touch, mdSeq, cmds)
  {
    hide ClId, SideOf, IndexOf, PlaceNew;
    var touch := if side == Bid then bid else ask;
    if On(s, side).rejectedPx != Some(touch) {
      var s1 := With(s, side, On(s, side).(rejectedPx := None));
      assert Ids(s1);
      if On(s, side).current.None? {
        PlacedIs(cfg, s1, side, touch, mdSeq);
      } else {
        assert On(s, side).rejectedPx.None? && s1 == s;
        MovedIs(cfg, s, side, touch, mdSeq);
      }
    }
  }

  /** A side's decision is about its own orders and its own view alone. */
  lemma SameDecision(cfg: Config, s: State, t: State, s1: State, t1: State, side: Side, touch: int, mdSeq: nat, cmds: seq<Cmd>)
    requires Ids(s) && Ids(t) && On(s1, side) == On(s, side) && On(t1, side) == On(t, side)
    requires forall id :: SideOf(id) == side ==>
               (id in s1.orders <==> id in s.orders) && (id in s.orders ==> s1.orders[id] == s.orders[id]) &&
               (id in t1.orders <==> id in t.orders) && (id in t.orders ==> t1.orders[id] == t.orders[id])
    requires Decides(cfg, s, t, side, touch, mdSeq, cmds)
    ensures On(s1, side).current.Some? ==> On(s1, side).current.value in s1.orders
    ensures Decides(cfg, s1, t1, side, touch, mdSeq, cmds)
  {
    hide ClId, SideOf, IndexOf;
    assert HasCurrent(s, side) && HasCurrent(t, side);
    assert On(s, side).current.Some? ==> SideOf(On(s, side).current.value) == side;
    assert On(t, side).current.Some? ==> SideOf(On(t, side).current.value) == side;
  }

  // --- a book ------------------------------------------------------------------------------

  /** A book the client acts on: of its own session and instrument, next in sequence, and newer than any before. */
  predicate Fresh(cfg: Config, s: State, w: Wire) {
    && !s.stopped && w.msg.Tob? && w.epoch == s.epoch && w.seqNo == s.inSeq + 1
    && w.msg.symbol == cfg.symbol && w.msg.mdSeq > s.mdSeq
  }

  /** Bids first, then asks. */
  ghost predicate BothDecide(cfg: Config, s: State, t: State, tob: OutMsg, cmds: seq<Cmd>)
    requires Ids(s) && tob.Tob?
  {
    exists n: nat :: n <= |cmds|
                     && Decides(cfg, s, t, Bid, tob.bidPx, tob.mdSeq, cmds[..n])
                     && Decides(cfg, s, t, Ask, tob.askPx, tob.mdSeq, cmds[n..])
  }

  lemma QuoteBothDecides(cfg: Config, s: State, tob: OutMsg)
    requires tob.Tob? && s.bidPx == Some(tob.bidPx) && s.askPx == Some(tob.askPx) && tob.bidPx < tob.askPx
    requires Ids(s) && SideReady(s, Bid) && SideReady(s, Ask)
    ensures var (t, cmds) := QuoteBoth(cfg, s, tob);
            && BothDecide(cfg, s, t, tob, cmds) && Ids(t)
            && t.(orders := s.orders, arrival := s.arrival, bid := s.bid, ask := s.ask) == s
  {
    hide ClId, SideOf, IndexOf, Quote, Decides;
    var (t, bids) := Quote(cfg, s, Bid, tob.bidPx, tob.askPx, tob.bidPx, tob.mdSeq);
    SideDecides(cfg, s, Bid, tob.askPx, tob.bidPx, tob.mdSeq);
    QuoteSettles(cfg, s, Bid, tob.askPx, tob.bidPx, tob.mdSeq);
    OtherSideKept(s, t, Bid, Ask);
    var (u, asks) := Quote(cfg, t, Ask, tob.askPx, tob.askPx, tob.bidPx, tob.mdSeq);
    SideDecides(cfg, t, Ask, tob.askPx, tob.bidPx, tob.mdSeq);
    QuoteSettles(cfg, t, Ask, tob.askPx, tob.bidPx, tob.mdSeq);
    SameDecision(cfg, s, t, s, u, Bid, tob.bidPx, tob.mdSeq, bids);
    SameDecision(cfg, t, u, s, u, Ask, tob.askPx, tob.mdSeq, asks);
    assert (bids + asks)[..|bids|] == bids && (bids + asks)[|bids|..] == asks;
  }

  /** On a fresh uncrossed book, in any state a run can reach, each side sends what it should for its
      touch, bids first, and the client carries on from that book. */
  lemma FreshBookQuotes(cfg: Config, s: State, w: Wire, now: int)
    requires Ids(s) && NoStaleQuote(s) && Fresh(cfg, s, w) && w.msg.bidPx < w.msg.askPx
    ensures var (t, cmds) := OnReport(cfg, s, w, now);
            && BothDecide(cfg, s, t, w.msg, cmds)
            && !t.stopped && t.epoch == s.epoch && t.inSeq == s.inSeq + 1 && t.mdSeq == w.msg.mdSeq
            && t.bidPx == Some(w.msg.bidPx) && t.askPx == Some(w.msg.askPx) && t.lastTobNs == Some(now)
            && t.conflatedSeen == s.conflatedSeen + (if 0 < s.mdSeq < w.msg.mdSeq - 1 then 1 else 0)
  {
    hide ClId, SideOf, IndexOf, QuoteBoth, Decides, SideReady, AtTouch;
    var s1 := s.(inSeq := w.seqNo, lastTobNs := Some(now));
    var installed := Install(s1, w.msg);
    SameOrders(s, installed);
    assert OnReport(cfg, s, w, now) == QuoteBoth(cfg, installed, w.msg) by { hide QuoteBoth, Install; }
    QuoteBothDecides(cfg, installed, w.msg);
    var (t, cmds) := QuoteBoth(cfg, installed, w.msg);
    DecidedBefore(cfg, installed, s, t, w.msg, cmds);
  }

  lemma DecidedBefore(cfg: Config, s: State, s1: State, t: State, tob: OutMsg, cmds: seq<Cmd>)
    requires Ids(s) && Ids(s1) && Ids(t) && tob.Tob? && BothDecide(cfg, s, t, tob, cmds)
    requires s1.orders == s.orders && s1.bid == s.bid && s1.ask == s.ask
    ensures BothDecide(cfg, s1, t, tob, cmds)
  {
    hide ClId, SideOf, IndexOf, Places, OthersKept, Untouched;
    var n: nat :| n <= |cmds| && Decides(cfg, s, t, Bid, tob.bidPx, tob.mdSeq, cmds[..n])
                  && Decides(cfg, s, t, Ask, tob.askPx, tob.mdSeq, cmds[n..]);
    SameDecision(cfg, s, t, s1, t, Bid, tob.bidPx, tob.mdSeq, cmds[..n]);
    SameDecision(cfg, s, t, s1, t, Ask, tob.askPx, tob.mdSeq, cmds[n..]);
  }

  /** So after such a book a side holds an order in flight, or resting at its touch, unless that very
      price was refused it: the client quotes both sides. */
  lemma TwoSided(cfg: Config, s: State, w: Wire, now: int, side: Side)
    requires Ids(s) && NoStaleQuote(s) && Fresh(cfg, s, w) && w.msg.bidPx < w.msg.askPx
    ensures var t := OnReport(cfg, s, w, now).0;
            var touch := if side == Bid then w.msg.bidPx else w.msg.askPx;
            var placed := On(t, side).current;
            if On(s, side).rejectedPx == Some(touch) then placed.None? && On(t, side).rejectedPx == Some(touch)
            else
              && placed.Some? && placed.value in t.orders
              && (t.orders[placed.value].state == PendingNew || t.orders[placed.value] == ClientOrder(touch, Live))
  {
    hide ClId, SideOf, IndexOf, OnReport, OthersKept;
    FreshBookQuotes(cfg, s, w, now);
    var (t, cmds) := OnReport(cfg, s, w, now);
    assert SideReady(s, side);
    assert HasCurrent(s, side);
    var n: nat :| n <= |cmds| && Decides(cfg, s, t, Bid, w.msg.bidPx, w.msg.mdSeq, cmds[..n])
                  && Decides(cfg, s, t, Ask, w.msg.askPx, w.msg.mdSeq, cmds[n..]);
  }

  // --- a report ----------------------------------------------------------------------------

  /** A report the client acts on: of its own session, next in sequence, about an order it still holds. */
  predicate Heeded(s: State, w: Wire) {
    !s.stopped && !w.msg.Tob? && w.epoch == s.epoch && w.seqNo == s.inSeq + 1 && w.msg.clId in s.orders
  }

  /** The ack of an order in flight makes it rest, and is when its side decides again, for the touch of
      the freshest book; the other side waits for a book of its own. Against a locked or crossed book
      nothing is sent. */
  lemma AckRequotes(cfg: Config, s: State, w: Wire, now: int)
    requires Ids(s) && NoStaleQuote(s) && Heeded(s, w) && w.msg.OrderAck? && s.orders[w.msg.clId].state == PendingNew
    ensures var id := w.msg.clId; var side := SideOf(id);
            var rests := s.(inSeq := s.inSeq + 1, orders := s.orders[id := ClientOrder(s.orders[id].px, Live)]);
            var (t, cmds) := OnReport(cfg, s, w, now);
            && s.bidPx.Some? && s.askPx.Some?
            && On(s, side).current == Some(id) && On(s, side).rejectedPx.None? && OnlySide(rests, t, side)
            && if s.bidPx.value < s.askPx.value then
                 Decides(cfg, rests, t, side, if side == Bid then s.bidPx.value else s.askPx.value, s.mdSeq, cmds)
               else t == rests && cmds == []
  {
    hide ClId, SideOf, IndexOf, Quote, Decides, OnlySide;
    var id, side := w.msg.clId, SideOf(w.msg.clId);
    assert SideReady(s, side);
    var rests := s.(inSeq := s.inSeq + 1, orders := s.orders[id := ClientOrder(s.orders[id].px, Live)]);
    RestsReady(s, rests, id);
    QuoteSettles(cfg, rests, side, s.askPx.value, s.bidPx.value, s.mdSeq);
    if s.bidPx.value < s.askPx.value {
      SideDecides(cfg, rests, side, s.askPx.value, s.bidPx.value, s.mdSeq);
    } else {
      CrossedSendsNothing(cfg, rests, side, s.askPx.value, s.bidPx.value, s.mdSeq);
    }
  }

  lemma RestsReady(s: State, s1: State, id: string)
    requires Ids(s) && id in s.orders && SideReady(s, SideOf(id)) && s.orders[id].state == PendingNew
    requires s1 == s.(inSeq := s1.inSeq, orders := s.orders[id := s.orders[id].(state := Live)])
    ensures Ids(s1) && SideReady(s1, SideOf(id))
  {
    hide ClId, SideOf, IndexOf;
  }

  /** A locked or crossed book moves no side; it only lifts a bar at another price. */
  lemma CrossedSendsNothing(cfg: Config, s: State, side: Side, ask: int, bid: int, mdSeq: nat)
    requires ask <= bid
    ensures var touch := if side == Bid then bid else ask;
            Quote(cfg, s, side, touch, ask, bid, mdSeq) ==
            (if On(s, side).rejectedPx == Some(touch) then s else With(s, side, On(s, side).(rejectedPx := None)), [])
  {
  }

  predicate EndsOrder(m: OutMsg) { m.CancelAck? || m.Reject? || (m.Fill? && m.leaves == 0) }

  /** No other report makes the client send anything. One that ends an order takes it off the map and
      off its side, and a refusal of the current order bars its price; any other changes nothing. */
  lemma OtherReportsSendNothing(cfg: Config, s: State, w: Wire, now: int)
    requires Heeded(s, w) && !(w.msg.OrderAck? && s.orders[w.msg.clId].state == PendingNew)
    ensures var id := w.msg.clId; var side := SideOf(id); var was := On(s, side);
            var (t, cmds) := OnReport(cfg, s, w, now);
            && cmds == [] && On(t, Opposite(side)) == On(s, Opposite(side))
            && if EndsOrder(w.msg) then
                 && t == s.(inSeq := s.inSeq + 1, orders := s.orders - {id}, arrival := t.arrival, bid := t.bid, ask := t.ask)
                 && On(t, side).nextCl == was.nextCl
                 && On(t, side).current == (if was.current == Some(id) then None else was.current)
                 && On(t, side).rejectedPx ==
                      (if w.msg.Reject? && was.current == Some(id) then Some(s.orders[id].px) else was.rejectedPx)
               else t == s.(inSeq := s.inSeq + 1)
  {
    hide SideOf, Drop, Reconsider;
  }

  // --- and nothing else --------------------------------------------------------------------

  /** What becomes of any message, acted on or not. A client that has stopped takes no notice, nor does
      any of another epoch's; a gap in the numbering, another instrument's book or a book older than the
      last stops it for that very reason, and nothing else does; a book seen before only shows that the
      feed is alive. */
  lemma StopsExactlyWhen(cfg: Config, s: State, w: Wire, now: int)
    requires Ids(s) && NoStaleQuote(s)
    ensures var (t, cmds) := OnReport(cfg, s, w, now);
            if s.stopped || w.epoch != s.epoch then t == s && cmds == []
            else if w.seqNo != s.inSeq + 1 then
              t == s.(stopped := true) && cmds == [StopQuoting(SeqGap(s.inSeq + 1, w.seqNo))]
            else if w.msg.Tob? && w.msg.symbol != cfg.symbol then
              t == s.(inSeq := w.seqNo, stopped := true) && cmds == [StopQuoting(UnexpectedSymbol(w.msg.symbol, cfg.symbol))]
            else if w.msg.Tob? && w.msg.mdSeq < s.mdSeq then
              t == s.(inSeq := w.seqNo, stopped := true) && cmds == [StopQuoting(MdSeqDecreased(s.mdSeq, w.msg.mdSeq))]
            else if w.msg.Tob? && w.msg.mdSeq == s.mdSeq then t == s.(inSeq := w.seqNo, lastTobNs := Some(now)) && cmds == []
            else if !w.msg.Tob? && w.msg.clId !in s.orders then t == s.(inSeq := w.seqNo) && cmds == []
            else !t.stopped && t.inSeq == w.seqNo && t.epoch == s.epoch && forall c :: c in cmds ==> c.SendCmd?
  {
    hide ClId, SideOf, IndexOf, QuoteBoth, ApplyReport, Ids, SideReady, AtTouch, Decides;
    if Heeded(s, w) {
      if w.msg.OrderAck? && s.orders[w.msg.clId].state == PendingNew {
        AckRequotes(cfg, s, w, now);
        AckSends(cfg, s, w, now);
      } else {
        OtherReportsSendNothing(cfg, s, w, now);
      }
    } else if Fresh(cfg, s, w) {
      if w.msg.bidPx < w.msg.askPx {
        FreshBookQuotes(cfg, s, w, now);
        BothSend(cfg, s, OnReport(cfg, s, w, now).0, w.msg, OnReport(cfg, s, w, now).1);
      } else {
        CrossedBookSendsNothing(cfg, s, w, now);
      }
    }
  }

  lemma AckSends(cfg: Config, s: State, w: Wire, now: int)
    requires Ids(s) && NoStaleQuote(s) && Heeded(s, w) && w.msg.OrderAck? && s.orders[w.msg.clId].state == PendingNew
    ensures forall c :: c in OnReport(cfg, s, w, now).1 ==> c.SendCmd?
  {
    hide ClId, SideOf, IndexOf, OnReport, OthersKept, Untouched, OnlySide;
    AckRequotes(cfg, s, w, now);
  }

  lemma BothSend(cfg: Config, s: State, t: State, tob: OutMsg, cmds: seq<Cmd>)
    requires Ids(s) && tob.Tob? && BothDecide(cfg, s, t, tob, cmds)
    ensures forall c :: c in cmds ==> c.SendCmd?
  {
    hide ClId, SideOf, IndexOf, OthersKept, Untouched;
    var n: nat :| n <= |cmds| && Decides(cfg, s, t, Bid, tob.bidPx, tob.mdSeq, cmds[..n])
                  && Decides(cfg, s, t, Ask, tob.askPx, tob.mdSeq, cmds[n..]);
    assert cmds == cmds[..n] + cmds[n..];
  }

  /** What the client sends in answer to one input. */
  function Sent(cfg: Config, s: State, i: Input): seq<Cmd> {
    match i
    case Connect(_) => []
    case Disconnect => OnDisconnect(s).1
    case Timer(now) => OnTimer(cfg, s, now).1
    case Message(w, at) => OnReport(cfg, s, w, at).1
  }

  predicate Orders(c: Cmd) { c.SendCmd? && c.msg.NewOrder? }

  /** When an input makes the client send an order at all. */
  predicate Quotes(cfg: Config, s: State, i: Input) {
    && i.Message?
    && ((Fresh(cfg, s, i.wire) && i.wire.msg.bidPx < i.wire.msg.askPx)
        || (Heeded(s, i.wire) && i.wire.msg.OrderAck? && s.orders[i.wire.msg.clId].state == PendingNew
            && s.bidPx.Some? && s.askPx.Some? && s.bidPx.value < s.askPx.value))
  }

  lemma {:induction false} CancelsOnly(s: State, ids: seq<string>)
    ensures forall c :: c in CancelAll(s, ids).1 ==> c.SendCmd? && c.msg.CancelOrder?
  {
    if ids != [] { CancelsOnly(s, ids[..|ids| - 1]); }
  }

  /** Only a fresh uncrossed book, or the ack of an order in flight, makes the client send an order. */
  lemma NothingElseQuotes(cfg: Config, s: State, i: Input)
    requires Ids(s) && NoStaleQuote(s) && !Quotes(cfg, s, i)
    ensures forall c :: c in Sent(cfg, s, i) ==> !Orders(c)
  {
    hide ClId, SideOf, IndexOf, Quote, Retire, Ids, SideReady, AtTouch;
    match i {
      case Timer(now) =>
        var s1 := s.(stopped := true, swept := true);
        CancelsOnly(s1, Resting(s1, s1.arrival));
      case Message(w, at) =>
        if Heeded(s, w) {
          if w.msg.OrderAck? && s.orders[w.msg.clId].state == PendingNew { AckRequotes(cfg, s, w, at); }
          else { OtherReportsSendNothing(cfg, s, w, at); }
        } else if Fresh(cfg, s, w) {
          CrossedBookSendsNothing(cfg, s, w, at);
        }
      case _ =>
    }
  }

  /** A locked or crossed book is taken in, but no side moves: only bars at other prices are lifted. */
  lemma CrossedBookSendsNothing(cfg: Config, s: State, w: Wire, now: int)
    requires Fresh(cfg, s, w) && w.msg.bidPx >= w.msg.askPx
    ensures var (t, cmds) := OnReport(cfg, s, w, now);
            && cmds == []
            && t == s.(inSeq := s.inSeq + 1, mdSeq := w.msg.mdSeq, conflatedSeen := t.conflatedSeen, lastTobNs := Some(now),
                       bidPx := Some(w.msg.bidPx), askPx := Some(w.msg.askPx), bid := t.bid, ask := t.ask)
            && t.bid == s.bid.(rejectedPx := if s.bid.rejectedPx == Some(w.msg.bidPx) then s.bid.rejectedPx else None)
            && t.ask == s.ask.(rejectedPx := if s.ask.rejectedPx == Some(w.msg.askPx) then s.ask.rejectedPx else None)
  {
    hide QuoteUnbarred;
    var s1 := Install(s.(inSeq := w.seqNo, lastTobNs := Some(now)), w.msg);
    CrossedSendsNothing(cfg, s1, Bid, w.msg.askPx, w.msg.bidPx, w.msg.mdSeq);
    var t := Quote(cfg, s1, Bid, w.msg.bidPx, w.msg.askPx, w.msg.bidPx, w.msg.mdSeq).0;
    CrossedSendsNothing(cfg, t, Ask, w.msg.askPx, w.msg.bidPx, w.msg.mdSeq);
  }

  /** The timer: once the last book is older than the limit, the client stops, saying so unless it had
      stopped before, and every order not already being cancelled gets its cancel; until then, and ever
      after, it does nothing. */
  lemma TimerSweeps(cfg: Config, s: State, now: int)
    requires Ids(s)
    ensures var (t, cmds) := OnTimer(cfg, s, now);
            if !s.swept && s.lastTobNs.Some? && now - s.lastTobNs.value > cfg.staleNs then
              && t == s.(stopped := true, swept := true, orders := t.orders) && t.orders.Keys == s.orders.Keys
              && (StopQuoting(StaleFeed(now - s.lastTobNs.value, cfg.staleNs)) in cmds <==> !s.stopped)
              && (forall id :: SendCmd(CancelOrder(id)) in cmds <==> id in s.orders && s.orders[id].state != PendingCancel)
              && (forall id :: id in t.orders ==> t.orders[id] == ClientOrder(s.orders[id].px, PendingCancel))
            else t == s && cmds == []
  {
    hide ClId, SideOf, IndexOf;
    var s1 := s.(stopped := true, swept := true);
    var ids := Resting(s1, s1.arrival);
    RestingIs(s1, s1.arrival);
    CancelsAre(s1, ids);
  }

  lemma {:induction false} RestingIs(s: State, ids: seq<string>)
    ensures forall id :: id in Resting(s, ids) <==> id in ids && id in s.orders && s.orders[id].state != PendingCancel
  {
    if ids != [] {
      RestingIs(s, ids[..|ids| - 1]);
      assert ids == ids[..|ids| - 1] + [ids[|ids| - 1]];
    }
  }

  lemma {:induction false} CancelsAre(s: State, ids: seq<string>)
    requires forall id :: id in ids ==> id in s.orders
    ensures forall id :: SendCmd(CancelOrder(id)) in CancelAll(s, ids).1 <==> id in ids
    ensures forall c :: c in CancelAll(s, ids).1 ==> c.SendCmd?
    ensures var t := CancelAll(s, ids).0;
            && t == s.(orders := t.orders) && t.orders.Keys == s.orders.Keys
            && (forall id :: id in s.orders ==>
                 t.orders[id] == if id in ids then ClientOrder(s.orders[id].px, PendingCancel) else s.orders[id])
  {
    if ids != [] {
      var before, last := ids[..|ids| - 1], ids[|ids| - 1];
      assert ids == before + [last];
      assert forall id :: id in ids <==> id in before || id == last;
      hide CancelAll;
      CancelsAre(s, before);
      CancelAllSnoc(s, ids);
    }
  }

  lemma CancelAllSnoc(s: State, ids: seq<string>)
    requires ids != [] && forall id :: id in ids ==> id in s.orders
    ensures var id := ids[|ids| - 1]; var (t, cmds) := CancelAll(s, ids[..|ids| - 1]);
            && id in t.orders
            && CancelAll(s, ids) == (t.(orders := t.orders[id := ClientOrder(t.orders[id].px, PendingCancel)]),
                                     cmds + [SendCmd(CancelOrder(id))])
  {
    assert ids[|ids| - 1] in ids;
  }

  // --- a refused price stays refused -------------------------------------------------------

  /** The side holds nothing and this price was refused it. */
  predicate BarredAt(s: State, side: Side, px: int) { On(s, side).current.None? && On(s, side).rejectedPx == Some(px) }

  /** The input leaves the side's touch where it is. */
  predicate TouchStays(i: Input, side: Side, px: int) {
    match i
    case Connect(_) => false
    case Message(w, _) => w.msg.Tob? ==> px == if side == Bid then w.msg.bidPx else w.msg.askPx
    case _ => true
  }

  /** The side sends no order. */
  predicate Silent(cmds: seq<Cmd>, side: Side) {
    forall c :: c in cmds && Orders(c) ==> c.msg.side == if side == Bid then "S" else "B"
  }

  lemma OtherSidesLetter(cfg: Config, s: State, t: State, side: Side, touch: int, mdSeq: nat, cmds: seq<Cmd>)
    requires Ids(s) && Decides(cfg, s, t, side, touch, mdSeq, cmds)
    ensures Silent(cmds, Opposite(side))
  {
    hide ClId, SideOf, IndexOf, OthersKept, Untouched;
  }

  lemma BarStep(cfg: Config, s: State, i: Input, side: Side, px: int)
    requires Ids(s) && NoStaleQuote(s) && TouchStays(i, side, px) && (s.stopped || BarredAt(s, side, px))
    ensures var t := React(cfg, s, i); (t.stopped || BarredAt(t, side, px)) && Silent(Sent(cfg, s, i), side)
  {
    hide ClId, SideOf, IndexOf, Ids, SideReady, AtTouch, OnReport, OnTimer;
    if Quotes(cfg, s, i) {
      BarStepQuotes(cfg, s, i, side, px);
    } else {
      NothingElseQuotes(cfg, s, i);
      BarKept(cfg, s, i, side, px);
    }
  }

  lemma BarStepQuotes(cfg: Config, s: State, i: Input, side: Side, px: int)
    requires Ids(s) && NoStaleQuote(s) && TouchStays(i, side, px) && BarredAt(s, side, px) && Quotes(cfg, s, i)
    ensures var t := React(cfg, s, i); BarredAt(t, side, px) && Silent(Sent(cfg, s, i), side)
  {
    hide ClId, SideOf, IndexOf, Places, OthersKept, OnReport;
    var w := i.wire;
    var (t, cmds) := OnReport(cfg, s, w, i.at);
    if w.msg.Tob? {
      FreshBookQuotes(cfg, s, w, i.at);
      var n: nat :| n <= |cmds| && Decides(cfg, s, t, Bid, w.msg.bidPx, w.msg.mdSeq, cmds[..n])
                    && Decides(cfg, s, t, Ask, w.msg.askPx, w.msg.mdSeq, cmds[n..]);
      OtherSidesLetter(cfg, s, t, Bid, w.msg.bidPx, w.msg.mdSeq, cmds[..n]);
      OtherSidesLetter(cfg, s, t, Ask, w.msg.askPx, w.msg.mdSeq, cmds[n..]);
      assert cmds == cmds[..n] + cmds[n..];
    } else {
      AckRequotes(cfg, s, w, i.at);
      var id := w.msg.clId;
      var rests := s.(inSeq := s.inSeq + 1, orders := s.orders[id := ClientOrder(s.orders[id].px, Live)]);
      RestsReady(s, rests, id);
      OtherSidesLetter(cfg, rests, t, SideOf(id), if SideOf(id) == Bid then s.bidPx.value else s.askPx.value, s.mdSeq, cmds);
    }
  }

  lemma BarKept(cfg: Config, s: State, i: Input, side: Side, px: int)
    requires Ids(s) && NoStaleQuote(s) && TouchStays(i, side, px) && (s.stopped || BarredAt(s, side, px)) && !Quotes(cfg, s, i)
    ensures var t := React(cfg, s, i); t.stopped || BarredAt(t, side, px)
  {
    hide ClId, SideOf, IndexOf, QuoteBoth, Reconsider, Retire;
    match i {
      case Message(w, at) =>
        if Heeded(s, w) {
          if w.msg.OrderAck? && s.orders[w.msg.clId].state == PendingNew { AckRequotes(cfg, s, w, at); }
          else { OtherReportsSendNothing(cfg, s, w, at); }
        } else if Fresh(cfg, s, w) {
          CrossedBookSendsNothing(cfg, s, w, at);
        }
      case Timer(now) => TimerSweeps(cfg, s, now);
      case Disconnect =>
    }
  }

  /** Everything sent over a stretch of inputs. */
  function SentOver(cfg: Config, s: State, inputs: seq<Input>): seq<Cmd> {
    if inputs == [] then []
    else
      var before := inputs[..|inputs| - 1];
      SentOver(cfg, s, before) + Sent(cfg, RunOn(cfg, s, before), inputs[|inputs| - 1])
  }

  /** Once a price has been refused, the side sends nothing more for as long as its touch stays there,
      whatever else arrives on the connection. */
  lemma {:induction false} RefusedPriceHolds(cfg: Config, s: State, inputs: seq<Input>, side: Side, px: int)
    requires Ids(s) && NoStaleQuote(s) && BarredAt(s, side, px)
    requires forall i :: i in inputs ==> TouchStays(i, side, px)
    ensures Silent(SentOver(cfg, s, inputs), side)
    ensures var t := RunOn(cfg, s, inputs); Ids(t) && NoStaleQuote(t) && (t.stopped || BarredAt(t, side, px))
  {
    hide Ids, NoStaleQuote, React, Sent;
    if inputs != [] {
      var before, i := inputs[..|inputs| - 1], inputs[|inputs| - 1];
      RefusedPriceHolds(cfg, s, before, side, px);
      assert i in inputs;
      BarStep(cfg, RunOn(cfg, s, before), i, side, px);
      ReactSettles(cfg, RunOn(cfg, s, before), i);
    }
  }
}
