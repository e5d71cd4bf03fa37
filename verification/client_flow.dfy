/** Every move of the strategy keeps the client's map tied to the engine (python/mmclient/strategy.py). */
module ClientFlow {
  import opened Text
  import opened Protocol
  import opened OrderFlow
  import opened S = StrategySpec

  /** The messages among the commands the strategy returns; stop intents stay with the driver. */
  function Sends(cmds: seq<Cmd>): seq<InMsg> {
    if cmds == [] then []
    else Sends(cmds[..|cmds| - 1]) + if cmds[|cmds| - 1].SendCmd? then [cmds[|cmds| - 1].msg] else []
  }

  lemma {:induction false} SendsAppend(a: seq<Cmd>, b: seq<Cmd>)
    ensures Sends(a + b) == Sends(a) + Sends(b)
  {
    if b == [] {
      assert a + b == a;
    } else {
      SendsAppend(a, b[..|b| - 1]);
      assert (a + b)[..|a + b| - 1] == a + b[..|b| - 1];
    }
  }

  lemma SendsOne(c: Cmd)
    ensures Sends([c]) == if c.SendCmd? then [c.msg] else []
  {
    assert [c][..0] == [];
  }

  /** The flow once the client has moved to state t and sent what these commands say. */
  function Moved(f: Flow, t: State, cmds: seq<Cmd>): Flow {
    f.(sent := f.sent + Sends(cmds), orders := t.orders, bids := t.bid.nextCl, asks := t.ask.nextCl)
  }

  predicate Shows(f: Flow, s: State) { f.orders == s.orders && f.bids == s.bid.nextCl && f.asks == s.ask.nextCl }

  lemma MovedTwice(f: Flow, s: State, a: seq<Cmd>, t: State, b: seq<Cmd>)
    ensures Moved(Moved(f, s, a), t, b) == Moved(f, t, a + b)
  {
    SendsAppend(a, b);
    assert f.sent + (Sends(a) + Sends(b)) == (f.sent + Sends(a)) + Sends(b);
  }

  lemma MovedNowhere(f: Flow, s: State)
    requires Shows(f, s)
    ensures Moved(f, s, []) == f
  {
    assert f.sent + [] == f.sent;
  }

  lemma PlaceFlow(cfg: Config, f: Flow, s: State, side: Side, px: int, mdSeq: nat)
    requires Linked(f) && Shows(f, s) && Vacant(f, side)
    ensures var (t, new_) := PlaceNew(cfg, s, side, px, mdSeq); Linked(Moved(f, t, [new_]))
  {
    hide ClId, SideOf, IndexOf, Linked, Vacant;
    var (t, new_) := PlaceNew(cfg, s, side, px, mdSeq);
    PlaceKeeps(f, side, new_.msg);
    SendsOne(new_);
    assert Moved(f, t, [new_]) == Placed(f, new_.msg.clId, new_.msg);
  }

  lemma CancelFlow(f: Flow, s: State, id: string)
    requires Linked(f) && Shows(f, s) && id in s.orders && s.orders[id].state == Live
    ensures var (t, cancel) := CancelOne(s, id);
            var g := Moved(f, t, [cancel]);
            Linked(g) && Shows(g, t) && Vacant(g, SideOf(id))
  {
    hide ClId, SideOf, IndexOf, EngineSide, ClientSide, Vacant;
    var (t, cancel) := CancelOne(s, id);
    CancelKeepsEngineSide(f, id);
    CancelKeepsClientSide(f, id);
    SendsOne(cancel);
    assert Moved(f, t, [cancel]) == CancelSent(f, id);
    UnfoldEngineSide(CancelSent(f, id));
  }

  lemma ReplaceFlow(cfg: Config, f: Flow, s: State, id: string, px: int, mdSeq: nat)
    requires Linked(f) && Shows(f, s) && id in s.orders && s.orders[id].state == Live
    ensures var (t, cancel) := CancelOne(s, id);
            var (u, new_) := PlaceNew(cfg, t, SideOf(id), px, mdSeq);
            Linked(Moved(f, u, [cancel, new_]))
  {
    hide ClId, SideOf, IndexOf, Linked, Vacant, PlaceNew, CancelOne, Moved;
    var (t, cancel) := CancelOne(s, id);
    CancelFlow(f, s, id);
    var g := Moved(f, t, [cancel]);
    PlaceFlow(cfg, g, t, SideOf(id), px, mdSeq);
    var (u, new_) := PlaceNew(cfg, t, SideOf(id), px, mdSeq);
    MovedTwice(f, t, [cancel], u, [new_]);
    assert [cancel] + [new_] == [cancel, new_];
  }

  lemma QuoteFlow(cfg: Config, f: Flow, s: State, side: Side, desired: int, ask: int, bid: int, mdSeq: nat)
    requires Linked(f) && Shows(f, s) && Ids(s) && SideReady(s, side)
    ensures var (t, cmds) := Quote(cfg, s, side, desired, ask, bid, mdSeq);
            Linked(Moved(f, t, cmds)) && Shows(Moved(f, t, cmds), t)
  {
    hide ClId, SideOf, IndexOf, Linked, PlaceNew, CancelOne;
    var s1 := With(s, side, On(s, side).(rejectedPx := None));
    MovedNowhere(f, s);
    MovedNowhere(f, s1);
    var cl := On(s, side).current;
    if cl.None? {
      assert Vacant(f, side);
      PlaceFlow(cfg, f, s1, side, desired, mdSeq);
    } else {
      assert HasCurrent(s, side);
      if s.orders[cl.value].state == Live { ReplaceFlow(cfg, f, s1, cl.value, desired, mdSeq); }
    }
  }

  lemma BothFlow(cfg: Config, f: Flow, s: State, tob: OutMsg)
    requires tob.Tob? && s.bidPx == Some(tob.bidPx) && s.askPx == Some(tob.askPx)
    requires Linked(f) && Shows(f, s) && Ids(s) && SideReady(s, Bid) && SideReady(s, Ask)
    ensures var (t, cmds) := QuoteBoth(cfg, s, tob); Linked(Moved(f, t, cmds))
  {
    hide ClId, SideOf, IndexOf, Linked, Quote, Moved;
    var (t, bids) := Quote(cfg, s, Bid, tob.bidPx, tob.askPx, tob.bidPx, tob.mdSeq);
    QuoteFlow(cfg, f, s, Bid, tob.bidPx, tob.askPx, tob.bidPx, tob.mdSeq);
    QuoteSettles(cfg, s, Bid, tob.askPx, tob.bidPx, tob.mdSeq);
    OtherSideKept(s, t, Bid, Ask);
    var g := Moved(f, t, bids);
    var (u, asks) := Quote(cfg, t, Ask, tob.askPx, tob.askPx, tob.bidPx, tob.mdSeq);
    QuoteFlow(cfg, g, t, Ask, tob.askPx, tob.askPx, tob.bidPx, tob.mdSeq);
    MovedTwice(f, t, bids, u, asks);
  }

  /** A tick: nothing but Install and two quotes touch the orders. */
  lemma TobFlow(cfg: Config, f: Flow, s: State, w: Wire, now: int)
    requires w.msg.Tob? && Linked(f) && Shows(f, s) && Ids(s) && NoStaleQuote(s) && !s.stopped
    ensures var (t, cmds) := OnTob(cfg, s, w, now); Linked(Moved(f, t, cmds))
  {
    hide Ids, SideReady, AtTouch, QuoteBoth, Linked;
    var (s1, refused) := Admit(cfg, s, w);
    var (t, cmds) := OnTob(cfg, s, w, now);
    if refused.Some? || w.msg.mdSeq <= s1.mdSeq {
      assert |cmds| <= 1 && (forall c :: c in cmds ==> c.StopQuoting?);
      if |cmds| == 1 { SendsOne(cmds[0]); }
      assert f.sent + [] == f.sent;
      assert Moved(f, t, cmds) == f;
    } else {
      var installed := Install(s1.(lastTobNs := Some(now)), w.msg);
      SameOrders(s, installed);
      BothFlow(cfg, f, installed, w.msg);
    }
  }

  lemma AckFlow(cfg: Config, f: Flow, s: State, id: string)
    requires Linked(f) && Shows(f, s) && Ids(s) && NoStaleQuote(s) && !s.stopped
    requires f.seen < |f.reports| && f.reports[f.seen].OrderAck? && f.reports[f.seen].clId == id
    requires id in s.orders && s.orders[id].state == PendingNew
    ensures var (t, cmds) := Reconsider(cfg, s.(orders := s.orders[id := s.orders[id].(state := Live)]), SideOf(id));
            Linked(Moved(Read(f), t, cmds))
  {
    hide ClId, SideOf, IndexOf, Quote, Linked;
    var side := SideOf(id);
    var s1 := s.(orders := s.orders[id := s.orders[id].(state := Live)]);
    assert SideReady(s, side);
    assert Ids(s1) && SideReady(s1, side);
    AckKeeps(f, id);
    var g := Acked(f, id);
    QuoteFlow(cfg, g, s1, side, if side == Bid then s.bidPx.value else s.askPx.value, s.askPx.value, s.bidPx.value, s.mdSeq);
    var (t, cmds) := Reconsider(cfg, s1, side);
    assert Moved(Read(f), t, cmds) == Moved(g, t, cmds);
  }

  /** A report the client has an order for. */
  lemma ReportFlow(cfg: Config, f: Flow, s: State, m: OutMsg)
    requires Linked(f) && Shows(f, s) && Ids(s) && NoStaleQuote(s) && !s.stopped
    requires f.seen < |f.reports| && f.reports[f.seen] == m && !m.Tob? && m.clId in s.orders
    ensures var (t, cmds) := ApplyReport(cfg, s, m); Linked(Moved(Read(f), t, cmds))
  {
    hide ClId, SideOf, IndexOf, Linked, Ids, NoStaleQuote, Reconsider, Drop;
    var (t, cmds) := ApplyReport(cfg, s, m);
    if m.OrderAck? && s.orders[m.clId].state == PendingNew {
      AckFlow(cfg, f, s, m.clId);
    } else {
      assert cmds == [];
      assert f.sent + [] == f.sent;
      if Terminal(m) {
        EndKeeps(f, m.clId);
        assert Moved(Read(f), t, cmds) == Forgotten(Read(f), m.clId);
      } else {
        SkipKeeps(f);
        assert Moved(Read(f), t, cmds) == Read(f);
      }
    }
  }

  lemma SkipFlow(f: Flow, s: State)
    requires Linked(f) && Shows(f, s) && f.seen < |f.reports| && !f.reports[f.seen].Tob? && f.reports[f.seen].clId !in s.orders
    ensures Linked(Moved(Read(f), s, []))
  {
    hide Linked;
    SkipKeeps(f);
    MovedNowhere(Read(f), s);
  }

  /** The stale sweep cancels orders the engine knows or is about to. */
  lemma {:induction false} SweepFlow(f: Flow, s: State, ids: seq<string>)
    requires EngineSide(f) && Shows(f, s)
    ensures var (t, cmds) := CancelAll(s, ids);
            EngineSide(Moved(f, t, cmds)) && Shows(Moved(f, t, cmds), t)
  {
    hide EngineSide;
    if ids == [] {
      MovedNowhere(f, s);
    } else {
      SweepFlow(f, s, ids[..|ids| - 1]);
      var (t, cmds) := CancelAll(s, ids[..|ids| - 1]);
      var id := ids[|ids| - 1];
      if id in t.orders {
        var g := Moved(f, t, cmds);
        CancelKeepsEngineSide(g, id);
        var (u, cmd) := CancelOne(t, id);
        SendsOne(cmd);
        assert Moved(g, u, [cmd]) == CancelSent(g, id) by { UnchangedTops(t, id); }
        MovedTwice(f, t, cmds, u, [cmd]);
      }
    }
  }

  lemma UnchangedTops(s: State, id: string)
    requires id in s.orders
    ensures var t := CancelOne(s, id).0; t.bid == s.bid && t.ask == s.ask
  {
  }

  // --- what a message does besides ---------------------------------------------------------

  predicate StopsIn(cmds: seq<Cmd>) { exists c :: c in cmds && c.StopQuoting? }

  /** Everything but the orders and the two sides. */
  predicate SameRest(s: State, t: State) {
    t.(orders := s.orders, arrival := s.arrival, bid := s.bid, ask := s.ask) == s
  }

  lemma QuoteTouches(cfg: Config, s: State, side: Side, desired: int, ask: int, bid: int, mdSeq: nat)
    ensures var (t, cmds) := Quote(cfg, s, side, desired, ask, bid, mdSeq); SameRest(s, t) && !StopsIn(cmds)
  {
    hide ClId;
  }

  lemma BothTouches(cfg: Config, s: State, tob: OutMsg)
    requires tob.Tob?
    ensures var (t, cmds) := QuoteBoth(cfg, s, tob); SameRest(s, t) && !StopsIn(cmds)
  {
    hide Quote;
    var (t, bids) := Quote(cfg, s, Bid, tob.bidPx, tob.askPx, tob.bidPx, tob.mdSeq);
    QuoteTouches(cfg, s, Bid, tob.bidPx, tob.askPx, tob.bidPx, tob.mdSeq);
    QuoteTouches(cfg, t, Ask, tob.askPx, tob.askPx, tob.bidPx, tob.mdSeq);
  }

  /** The next message in sequence, on the session's epoch and no older than the last tick. */
  predicate InOrder(s: State, w: Wire) {
    !s.stopped && w.epoch == s.epoch && w.seqNo == s.inSeq + 1 && (w.msg.Tob? ==> s.mdSeq <= w.msg.mdSeq)
  }

  /** Such a message stops quoting only when it is a tick for another symbol. */
  lemma TobTouches(cfg: Config, s: State, w: Wire, now: int)
    requires InOrder(s, w) && w.msg.Tob?
    ensures var (t, cmds) := OnTob(cfg, s, w, now);
            && t.epoch == s.epoch
            && (if w.msg.symbol != cfg.symbol then t.stopped &&
                cmds == [StopQuoting(UnexpectedSymbol(w.msg.symbol, cfg.symbol))]
                else !t.stopped && !StopsIn(cmds) && t.inSeq == w.seqNo && t.mdSeq == w.msg.mdSeq
                     && (w.msg.mdSeq > s.mdSeq ==> t.bidPx == Some(w.msg.bidPx) && t.askPx == Some(w.msg.askPx)))
  {
    hide QuoteBoth;
    var (s1, refused) := Admit(cfg, s, w);
    if refused.None? && w.msg.mdSeq > s1.mdSeq {
      BothTouches(cfg, Install(s1.(lastTobNs := Some(now)), w.msg), w.msg);
    }
  }

  lemma ReportTouches(cfg: Config, s: State, m: OutMsg)
    requires !m.Tob? && m.clId in s.orders
    ensures var (t, cmds) := ApplyReport(cfg, s, m); SameRest(s, t) && !StopsIn(cmds)
  {
    hide ClId, Drop, Quote;
    if m.OrderAck? && s.orders[m.clId].state == PendingNew && s.bidPx.Some? && s.askPx.Some? {
      var s1 := s.(orders := s.orders[m.clId := s.orders[m.clId].(state := Live)]);
      var side := SideOf(m.clId);
      QuoteTouches(cfg, s1, side, if side == Bid then s.bidPx.value else s.askPx.value, s.askPx.value, s.bidPx.value, s.mdSeq);
    }
  }

  lemma MessageTouches(cfg: Config, s: State, w: Wire, now: int)
    requires InOrder(s, w) && !w.msg.Tob?
    ensures var (t, cmds) := OnReport(cfg, s, w, now);
            && t.epoch == s.epoch && !t.stopped && !StopsIn(cmds)
            && t.inSeq == w.seqNo && t.mdSeq == s.mdSeq && t.bidPx == s.bidPx && t.askPx == s.askPx
  {
    hide ApplyReport;
    var s1 := s.(inSeq := w.seqNo);
    if w.msg.clId in s.orders { ReportTouches(cfg, s1, w.msg); }
  }

  lemma {:induction false} CancelAllTouches(s: State, ids: seq<string>)
    ensures SameRest(s, CancelAll(s, ids).0) && !StopsIn(CancelAll(s, ids).1)
  {
    if ids != [] { CancelAllTouches(s, ids[..|ids| - 1]); }
  }
}
