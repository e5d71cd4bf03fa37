/** Strategy and SessionDriver as the client keeps them: dicts and scalars updated in place, command
    lists built up in loops (python/mmclient/strategy.py, python/mmclient/_session.py). Every method
    is proved to make exactly the move StrategySpec describes. */
module StrategyClasses {
  import opened Text
  import opened Protocol
  import opened Spec = StrategySpec

  class Strategy {
    const cfg: Config
    var epoch: nat
    var conflatedSeen: nat
    var orders: map<string, ClientOrder>
    var arrival: seq<string>
    var current: map<Side, string>
    var nextCl: map<Side, nat>
    var rejectedPx: map<Side, int>
    var inSeq: nat
    var mdSeq: nat
    var lastTobNs: Option<int>
    var bidPx: Option<int>
    var askPx: Option<int>
    var stopped: bool
    var swept: bool

    /** Between calls: ids are this strategy's own, and no side rests stale. */
    ghost predicate Valid()
      reads this
    {
      Ids(View()) && NoStaleQuote(View())
    }

    constructor (cfg: Config)
      ensures Valid() && this.cfg == cfg && View() == FRESH
    {
      this.cfg := cfg;
      epoch, conflatedSeen, orders, arrival := 0, 0, map[], [];
      current, nextCl, rejectedPx := map[], map[], map[];
      inSeq, mdSeq, lastTobNs, bidPx, askPx := 0, 0, None, None, None;
      stopped, swept := false, false;
    }

    ghost function SideState(side: Side): SideView
      reads this
    {
      SideView(if side in current then Some(current[side]) else None,
               if side in nextCl then nextCl[side] else 0,
               if side in rejectedPx then Some(rejectedPx[side]) else None)
    }

    ghost function View(): State
      reads this
    {
      State(epoch, conflatedSeen, orders, arrival, SideState(Bid), SideState(Ask),
            inSeq, mdSeq, lastTobNs, bidPx, askPx, stopped, swept)
    }

    method OnConnect(epoch: nat)
      requires Valid()
      modifies this
      ensures Valid() && View() == Spec.OnConnect(old(View()), epoch)
    {
      hide Ids, NoStaleQuote;
      ReactSettles(cfg, View(), Connect(epoch));
      this.epoch := epoch;
      Forget();
    }

    method Forget()
      modifies this
      ensures this.epoch == old(this.epoch)
      ensures View() == FRESH.(epoch := this.epoch)
    {
      ForgetOrders();
      ForgetSides();
      ForgetBook();
      ResetCounters();
      Arm();
    }

    method ForgetSides()
      modifies this`nextCl, this`rejectedPx
      ensures nextCl == map[] && rejectedPx == map[]
    {
      nextCl, rejectedPx := map[], map[];
    }

    method Arm()
      modifies this`stopped, this`swept
      ensures !stopped && !swept
    {
      stopped, swept := false, false;
    }

    method ForgetOrders()
      modifies this`orders, this`arrival, this`current
      ensures orders == map[] && arrival == [] && current == map[]
    {
      orders, arrival, current := map[], [], map[];
    }

    method ForgetBook()
      modifies this`bidPx, this`askPx, this`lastTobNs
      ensures bidPx == None && askPx == None && lastTobNs == None
    {
      bidPx, askPx, lastTobNs := None, None, None;
    }

    method ResetCounters()
      modifies this`conflatedSeen, this`inSeq, this`mdSeq
      ensures conflatedSeen == inSeq == mdSeq == 0
    {
      conflatedSeen, inSeq, mdSeq := 0, 0, 0;
    }

    method OnDisconnect() returns (cmds: seq<Cmd>)
      requires Valid()
      modifies this
      ensures Valid() && (View(), cmds) == Spec.OnDisconnect(old(View()))
    {
      hide Ids, NoStaleQuote;
      ReactSettles(cfg, View(), Disconnect);
      ForgetOrders();
      ForgetBook();
      stopped := true;
      cmds := [StopQuoting(Disconnected)];
    }

    method OnTimer(now: int) returns (cmds: seq<Cmd>)
      requires Valid()
      modifies this
      ensures Valid() && (View(), cmds) == Spec.OnTimer(cfg, old(View()), now)
    {
      hide Ids, NoStaleQuote;
      ReactSettles(cfg, View(), Timer(now));
      if swept || lastTobNs.None? { return []; }
      var age := now - lastTobNs.value;
      if age <= cfg.staleNs { return []; }
      var announced := if stopped then [] else [StopQuoting(StaleFeed(age, cfg.staleNs))];
      stopped, swept := true, true;
      var resting := CollectResting();
      var cancels := CancelEach(resting);
      cmds := announced + cancels;
    }

    method CollectResting() returns (resting: seq<string>)
      ensures resting == Resting(View(), arrival)
    {
      resting := [];
      for i := 0 to |arrival|
        invariant resting == Resting(View(), arrival[..i])
      {
        assert arrival[..i + 1][..i] == arrival[..i];
        var id := arrival[i];
        if id in orders && orders[id].state != PendingCancel { resting := resting + [id]; }
      }
      assert arrival[..|arrival|] == arrival;
    }

    method CancelEach(ids: seq<string>) returns (cmds: seq<Cmd>)
      modifies this`orders
      ensures (View(), cmds) == CancelAll(old(View()), ids)
    {
      hide CancelOne;
      cmds := [];
      for i := 0 to |ids|
        invariant (View(), cmds) == CancelAll(old(View()), ids[..i])
      {
        assert ids[..i + 1][..i] == ids[..i];
        if ids[i] in orders {
          var cmd := SendCancel(ids[i]);
          cmds := cmds + [cmd];
        }
      }
      assert ids[..|ids|] == ids;
    }

    method AdvanceSeq(seqNo: nat) returns (gap: Option<seq<Cmd>>)
      modifies this
      ensures (View(), gap) == Spec.AdvanceSeq(old(View()), seqNo)
    {
      var expected := inSeq + 1;
      if seqNo != expected {
        stopped := true;
        return Some([StopQuoting(SeqGap(expected, seqNo))]);
      }
      inSeq := seqNo;
      return None;
    }

    method Admit(w: Wire) returns (refused: Option<seq<Cmd>>)
      requires w.msg.Tob?
      modifies this
      ensures (View(), refused) == Spec.Admit(cfg, old(View()), w)
    {
      if stopped { return Some([]); }
      if w.epoch != epoch { return Some([]); }
      refused := AdvanceSeq(w.seqNo);
      if refused.Some? { return; }
      if w.msg.symbol != cfg.symbol {
        stopped := true;
        return Some([StopQuoting(UnexpectedSymbol(w.msg.symbol, cfg.symbol))]);
      }
      return None;
    }

    method OnTob(w: Wire, now: int) returns (cmds: seq<Cmd>)
      requires Valid() && w.msg.Tob?
      modifies this
      ensures Valid() && (View(), cmds) == Spec.OnTob(cfg, old(View()), w, now)
    {
      hide Spec.QuoteBoth, Install, Ids, NoStaleQuote;
      TobSettles(cfg, View(), w, now);
      var refused := Admit(w);
      if refused.Some? { return refused.value; }
      var tob := w.msg;
      if tob.mdSeq < mdSeq {
        stopped := true;
        return [StopQuoting(MdSeqDecreased(mdSeq, tob.mdSeq))];
      }
      cmds := Follow(tob, now);
    }

    /** A repeated book is a heartbeat; a newer one is installed and quoted. */
    method Follow(tob: OutMsg, now: int) returns (cmds: seq<Cmd>)
      requires tob.Tob?
      modifies this
      ensures var s := old(View()).(lastTobNs := Some(now));
              (View(), cmds) == if tob.mdSeq == s.mdSeq then (s, []) else Spec.QuoteBoth(cfg, Install(s, tob), tob)
    {
      hide Spec.QuoteBoth, Install;
      lastTobNs := Some(now);
      if tob.mdSeq == mdSeq { return []; }
      InstallBook(tob);
      cmds := QuoteBoth(tob);
    }

    method QuoteBoth(tob: OutMsg) returns (cmds: seq<Cmd>)
      requires tob.Tob?
      modifies this
      ensures (View(), cmds) == Spec.QuoteBoth(cfg, old(View()), tob)
    {
      hide Spec.Quote;
      var bids := Quote(Bid, tob.bidPx, tob.askPx, tob.bidPx, tob.mdSeq);
      var asks := Quote(Ask, tob.askPx, tob.askPx, tob.bidPx, tob.mdSeq);
      cmds := bids + asks;
    }

    method InstallBook(tob: OutMsg)
      requires tob.Tob?
      modifies this`conflatedSeen, this`mdSeq, this`bidPx, this`askPx
      ensures View() == Install(old(View()), tob)
    {
      if mdSeq != 0 && tob.mdSeq > mdSeq + 1 { conflatedSeen := conflatedSeen + 1; }
      mdSeq := tob.mdSeq;
      bidPx, askPx := Some(tob.bidPx), Some(tob.askPx);
    }

    method Quote(side: Side, desired: int, ask: int, bid: int, md: nat) returns (cmds: seq<Cmd>)
      modifies this
      ensures (View(), cmds) == Spec.Quote(cfg, old(View()), side, desired, ask, bid, md)
    {
      hide Spec.QuoteUnbarred;
      if side in rejectedPx && rejectedPx[side] == desired { return []; }
      Unbar(side);
      if side == Bid && desired >= ask { return []; }
      if side == Ask && desired <= bid { return []; }
      cmds := QuoteUnbarred(side, desired, md);
    }

    method Unbar(side: Side)
      modifies this`rejectedPx
      ensures View() == With(old(View()), side, On(old(View()), side).(rejectedPx := None))
    {
      if side in rejectedPx { rejectedPx := rejectedPx - {side}; }
    }

    method QuoteUnbarred(side: Side, desired: int, md: nat) returns (cmds: seq<Cmd>)
      modifies this
      ensures (View(), cmds) == Spec.QuoteUnbarred(cfg, old(View()), side, desired, md)
    {
      hide PlaceNew, CancelOne;
      if side in current && current[side] in orders {
        var id := current[side];
        if orders[id].state == PendingNew || orders[id].px == desired { return []; }
        var cancel := SendCancel(id);
        var replacement := SendNew(side, desired, md);
        return [cancel, replacement];
      }
      var new_ := SendNew(side, desired, md);
      return [new_];
    }

    method SendNew(side: Side, px: int, md: nat) returns (cmd: Cmd)
      modifies this
      ensures (View(), cmd) == PlaceNew(cfg, old(View()), side, px, md)
    {
      hide ClId, SideOf, IndexOf, SideText;
      var n := (if side in nextCl then nextCl[side] else 0) + 1;
      var id := ClId(side, n);
      Take(side, n, id);
      if id !in orders { arrival := arrival + [id]; }
      orders := orders[id := ClientOrder(px, PendingNew)];
      var qty := if cfg.qty <= cfg.maxQty then cfg.qty else cfg.maxQty;
      cmd := SendCmd(NewOrder(md, id, cfg.symbol, SideText(side), px, qty, true));
    }

    method Take(side: Side, n: nat, id: string)
      modifies this`nextCl, this`current
      ensures View() == With(old(View()), side, On(old(View()), side).(current := Some(id), nextCl := n))
    {
      nextCl := nextCl[side := n];
      current := current[side := id];
    }

    method SendCancel(id: string) returns (cmd: Cmd)
      requires id in orders
      modifies this`orders
      ensures (View(), cmd) == CancelOne(old(View()), id)
    {
      orders := orders[id := orders[id].(state := PendingCancel)];
      cmd := SendCmd(CancelOrder(id));
    }

    method OnReport(w: Wire, now: int) returns (cmds: seq<Cmd>)
      requires Valid()
      modifies this
      ensures Valid() && (View(), cmds) == Spec.OnReport(cfg, old(View()), w, now)
    {
      hide Ids, NoStaleQuote, ApplyReport, Spec.OnTob;
      MessageSettles(cfg, View(), w, now);
      if w.msg.Tob? {
        cmds := OnTob(w, now);
        return;
      }
      if stopped || w.epoch != epoch { return []; }
      var gap := AdvanceSeq(w.seqNo);
      if gap.Some? { return gap.value; }
      if w.msg.clId !in orders { return []; }
      cmds := Settle(w.msg);
    }

    method Settle(msg: OutMsg) returns (cmds: seq<Cmd>)
      requires !msg.Tob? && msg.clId in orders
      modifies this
      ensures (View(), cmds) == ApplyReport(cfg, old(View()), msg)
    {
      hide Spec.Retire, Spec.Reconsider, SideOf;
      var id := msg.clId;
      var side := SideOf(id);
      cmds := [];
      match msg
      case OrderAck(_, _) =>
        if orders[id].state == PendingNew {
          orders := orders[id := orders[id].(state := Live)];
          cmds := Reconsider(side);
        }
      case CancelAck(_, _) => Retire(id);
      case Fill(_, _, _, _, leaves, _) => if leaves == 0 { Retire(id); }
      case Reject(_, _, _) =>
        if side in current && current[side] == id { rejectedPx := rejectedPx[side := orders[id].px]; }
        Retire(id);
    }

    method Reconsider(side: Side) returns (cmds: seq<Cmd>)
      modifies this
      ensures (View(), cmds) == Spec.Reconsider(cfg, old(View()), side)
    {
      if bidPx.None? || askPx.None? { return []; }
      var desired := if side == Bid then bidPx.value else askPx.value;
      cmds := Quote(side, desired, askPx.value, bidPx.value, mdSeq);
    }

    method Retire(id: string)
      requires id in orders
      modifies this
      ensures View() == Spec.Retire(old(View()), id)
    {
      var side := SideOf(id);
      if side in current && current[side] == id { current := current - {side}; }
      orders := orders - {id};
      arrival := Drop(arrival, id);
    }
  }

  class SessionDriver {
    const strategy: Strategy
    var outSeq: nat
    var epoch: Option<nat>
    var close: Option<nat>

    /** And no order exists before the first frame gave the session's epoch. */
    ghost predicate Valid()
      reads this, strategy
    {
      strategy.Valid() && DriverInv(View())
    }

    constructor (strategy: Strategy)
      requires strategy.Valid() && strategy.View() == FRESH
      ensures Valid() && this.strategy == strategy && View() == NEW_DRIVER
    {
      this.strategy := strategy;
      outSeq, epoch, close := 0, None, None;
    }

    ghost function View(): Driver
      reads this, strategy
    {
      Driver(strategy.View(), outSeq, epoch, close)
    }

    /** One inbound frame in, zero or more outbound frames out; None is a frame the codec refuses. */
    method OnBytes(frame: Option<Wire>, now: int) returns (frames: seq<Command>)
      requires Valid()
      modifies this, strategy
      ensures Valid() && (View(), frames) == Spec.OnBytes(strategy.cfg, old(View()), frame, now)
    {
      hide Ids, NoStaleQuote, Spec.OnReport, Dispatch;
      if close.Some? { return []; }
      if frame.None? {
        LatchClose(CLOSE_PROTOCOL);
        return [];
      }
      var w := frame.value;
      if epoch.None? {
        epoch := Some(w.epoch);
        strategy.OnConnect(w.epoch);
      }
      var cmds := strategy.OnReport(w, now);
      frames := DispatchAll(cmds);
    }

    method OnTimer(now: int) returns (frames: seq<Command>)
      requires Valid()
      modifies this, strategy
      ensures Valid() && (View(), frames) == DriverTimer(strategy.cfg, old(View()), now)
    {
      hide Ids, NoStaleQuote, Dispatch;
      var cmds := strategy.OnTimer(now);
      frames := DispatchAll(cmds);
    }

    method OnDisconnect()
      requires Valid()
      modifies this, strategy
      ensures Valid() && View() == DriverDisconnect(old(View()))
    {
      hide Ids, NoStaleQuote;
      var _ := strategy.OnDisconnect();
    }

    method DispatchAll(cmds: seq<Cmd>) returns (frames: seq<Command>)
      requires epoch.Some? || forall c :: c in cmds ==> c.StopQuoting?
      modifies this
      ensures (View(), frames) == Dispatch(old(View()), cmds)
    {
      frames := [];
      for i := 0 to |cmds|
        invariant epoch == old(epoch)
        invariant (View(), frames) == Dispatch(old(View()), cmds[..i])
      {
        assert cmds[i] in cmds;
        assert cmds[..i + 1][..i] == cmds[..i];
        match cmds[i]
        case SendCmd(msg) =>
          outSeq := outSeq + 1;
          frames := frames + [Command(outSeq, epoch.value, msg)];
        case StopQuoting(reason) =>
          LatchClose(StopCode(reason));
      }
      assert cmds[..|cmds|] == cmds;
    }

    /** The only writer of `close`: first intent wins. */
    method LatchClose(code: nat)
      modifies this`close
      ensures View() == Latch(old(View()), code)
    {
      if close.None? { close := Some(code); }
    }
  }
}
