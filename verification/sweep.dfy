/** The stale sweep works: once it has run and its cancels have been taken, the engine holds nothing
    live for the session (python/mmclient/strategy.py:173-213). */
module StaleSweep {
  import opened Text
  import opened Protocol
  import opened SessionSpec
  import opened SessionRuns
  import opened SessionEffects
  import opened OrderFlow
  import opened ClientFlow
  import opened EngineFlow
  import opened Composed
  import E = EngineSpec
  import S = StrategySpec

  // --- on the flow -------------------------------------------------------------------------

  /** Resting at the engine, or on its way there. */
  ghost predicate Alive(f: Flow, id: string)
    requires f.done <= |f.sent|
  {
    (id in f.eng && f.eng[id].Resting?) || NewComing(f, |f.sent|, id)
  }

  /** Everything alive has a cancel ahead of it. */
  ghost predicate Doomed(f: Flow) {
    f.done <= |f.sent| && forall id :: Alive(f, id) ==> CancelComing(f, |f.sent|, id)
  }

  /** Whatever is alive the client has in its map; and one it is already cancelling has its cancel ahead. */
  lemma AliveIsMapped(f: Flow, id: string)
    requires Linked(f) && Alive(f, id)
    ensures id in f.orders && (f.orders[id].state == S.PendingCancel ==> CancelComing(f, |f.sent|, id))
  {
    hide S.ClId, S.SideOf, S.IndexOf, CancelComing, EndComing, VerdictComing, Assigned;
    if NewComing(f, |f.sent|, id) {
      var j :| f.done <= j < |f.sent| && f.sent[j].NewOrder? && f.sent[j].clId == id;
      assert id !in f.eng;
    }
  }

  predicate Cancels(ms: seq<InMsg>) { forall m :: m in ms ==> m.CancelOrder? }

  lemma {:induction false} CancelsSent(s: S.State, ids: seq<string>)
    ensures var cmds := S.CancelAll(s, ids).1;
            Cancels(Sends(cmds)) && forall id :: id in ids && id in s.orders ==> CancelOrder(id) in Sends(cmds)
  {
    hide S.ClId;
    if ids != [] {
      var init, last := ids[..|ids| - 1], ids[|ids| - 1];
      CancelsSent(s, init);
      var (t, cmds) := S.CancelAll(s, init);
      if last in t.orders {
        SendsAppend(cmds, [S.CancelOne(t, last).1]);
        SendsOne(S.CancelOne(t, last).1);
      }
      forall id | id in ids && id in s.orders ensures CancelOrder(id) in Sends(S.CancelAll(s, ids).1) {
        assert id == last || id in init;
      }
    }
  }

  lemma {:induction false} RestingAre(s: S.State, ids: seq<string>, id: string)
    requires id in ids && id in s.orders && s.orders[id].state != S.PendingCancel
    ensures id in S.Resting(s, ids)
  {
    if ids[|ids| - 1] != id {
      assert id in ids[..|ids| - 1];
      RestingAre(s, ids[..|ids| - 1], id);
    }
  }

  /** Commands appended, none of them a new order. */
  lemma OnlyCancelsAdded(f: Flow, g: Flow, more: seq<InMsg>)
    requires f.done == g.done <= |f.sent| && g.sent == f.sent + more && g.eng == f.eng && Cancels(more)
    ensures forall id :: Alive(g, id) ==> Alive(f, id)
    ensures forall id :: CancelComing(f, |f.sent|, id) || CancelOrder(id) in more ==> CancelComing(g, |g.sent|, id)
  {
    forall j | |f.sent| <= j < |g.sent| ensures g.sent[j].CancelOrder? { assert more[j - |f.sent|] in more; }
    forall id | NewComing(g, |g.sent|, id) ensures NewComing(f, |f.sent|, id) {
      var j :| g.done <= j < |g.sent| && g.sent[j].NewOrder? && g.sent[j].clId == id;
    }
    forall id | CancelComing(f, |f.sent|, id) ensures CancelComing(g, |g.sent|, id) {
      var j :| f.done <= j < |f.sent| && f.sent[j].CancelOrder? && f.sent[j].clId == id;
      assert g.sent[j] == f.sent[j];
    }
    forall id | CancelOrder(id) in more ensures CancelComing(g, |g.sent|, id) {
      var k :| 0 <= k < |more| && more[k] == CancelOrder(id);
      assert g.sent[|f.sent| + k] == more[k];
    }
  }

  /** The client's state and commands after a sweep. */
  function SweepOf(s: S.State): (S.State, seq<S.Cmd>) {
    var s1 := s.(stopped := true, swept := true);
    S.CancelAll(s1, S.Resting(s1, s1.arrival))
  }

  /** The sweep itself: what is not being cancelled is cancelled now. */
  lemma SweepDooms(f: Flow, s: S.State)
    requires Linked(f) && Shows(f, s) && S.Ids(s)
    ensures Doomed(Moved(f, SweepOf(s).0, SweepOf(s).1))
  {
    hide Linked, CancelComing, Alive, S.Resting, S.CancelAll, S.ClId, S.SideOf, S.IndexOf;
    var s1 := s.(stopped := true, swept := true);
    var (t, cmds) := SweepOf(s);
    var g := Moved(f, t, cmds);
    CancelsSent(s1, S.Resting(s1, s1.arrival));
    assert f.done <= |f.sent| by { LinkedCursor(f); }
    OnlyCancelsAdded(f, g, Sends(cmds));
    forall id | Alive(g, id) ensures CancelComing(g, |g.sent|, id) {
      AliveIsMapped(f, id);
      if s1.orders[id].state != S.PendingCancel { RestingAre(s1, s1.arrival, id); }
    }
  }

  lemma LinkedCursor(f: Flow)
    requires Linked(f)
    ensures f.done <= |f.sent|
  {
    UnfoldEngineSide(f);
  }

  /** Nothing new is sent, and the engine rests nothing it did not rest before. */
  lemma DoomedStays(f: Flow, g: Flow)
    requires Doomed(f) && g.sent == f.sent && g.done == f.done
    requires forall id :: id in g.eng && g.eng[id].Resting? ==> id in f.eng && f.eng[id].Resting?
    ensures Doomed(g)
  {
    SameCommands(f, g);
  }

  /** A command taken: a new order's cancel is still behind it, and a cancelled one is over. */
  lemma DoomedTaken(f: Flow, m: OutMsg, fate: Fate)
    requires EngineSide(f) && Doomed(f) && f.done < |f.sent|
    requires f.sent[f.done].CancelOrder? ==> fate == Over
    ensures Doomed(Entered(f, m, fate))
  {
    hide S.ClId, S.SideOf, S.IndexOf, EndComing, VerdictComing, Assigned, NewsLast, OnlyNewestRests, MappedKnown;
    var g := Entered(f, m, fate);
    var head := f.sent[f.done];
    forall id | Alive(g, id) ensures CancelComing(g, |g.sent|, id) {
      AliveBefore(f, g, fate, id);
      var j :| f.done <= j < |f.sent| && f.sent[j].CancelOrder? && f.sent[j].clId == id;
      assert j != f.done;
      assert g.sent[j] == f.sent[j];
    }
  }

  lemma AliveBefore(f: Flow, g: Flow, fate: Fate, id: string)
    requires EngineSide(f) && f.done < |f.sent| && g.sent == f.sent && g.done == f.done + 1
    requires g.eng == f.eng[f.sent[f.done].clId := fate] && (f.sent[f.done].CancelOrder? ==> fate == Over)
    requires Alive(g, id)
    ensures Alive(f, id) && (f.sent[f.done].CancelOrder? ==> id != f.sent[f.done].clId)
  {
    hide S.ClId, S.SideOf, S.IndexOf, EndComing, VerdictComing, Assigned, NewsLast, OnlyNewestRests, MappedKnown;
    var head := f.sent[f.done];
    NothingBefore(f, head.clId);
    if NewComing(g, |g.sent|, id) {
      var j :| g.done <= j < |g.sent| && g.sent[j].NewOrder? && g.sent[j].clId == id;
      assert f.sent[j] == g.sent[j];
    } else if head.NewOrder? && id == head.clId {
      assert f.sent[f.done].NewOrder?;
    }
  }

  lemma NothingRests(f: Flow)
    requires Doomed(f) && f.done == |f.sent|
    ensures forall id :: id in f.eng ==> f.eng[id].Over?
  {
    assert forall id :: id in f.eng && f.eng[id].Resting? ==> Alive(f, id);
  }

  // --- over the composed system ------------------------------------------------------------

  predicate SameSymbol(p: Parties) { p.client.symbol == p.engine.inst.symbol }

  /** A client on another instrument never sends anything. */
  predicate Silent(y: System) {
    y.cmds == [] && y.d.strategy.orders == map[] && y.d.strategy.bid.nextCl == 0 && y.d.strategy.ask.nextCl == 0
  }

  /** Only the sweep stops a client still connected to its own instrument, and after it all is doomed. */
  ghost predicate Watched(p: Parties, y: System) {
    && (!SameSymbol(p) ==> Silent(y))
    && (y.d.strategy.swept ==> y.d.strategy.stopped)
    && (SameSymbol(p) && !y.lost && y.d.strategy.stopped ==> y.d.strategy.swept)
    && (Open(y.w) && !y.lost && y.d.strategy.swept ==>
         y.read <= |Texts(y.w.log.sent)| && Doomed(FlowOf(p, y)))
  }

  lemma BookRestsLess(inst: Instrument, s: E.State, b: E.Book, session: nat)
    ensures var x, y := EngOf(inst, s.orders, session), EngOf(inst, E.OnBook(inst, s, b).0.orders, session);
            forall id :: id in y && y[id].Resting? ==> id in x && x[id].Resting?
  {
    hide EngOf, E.SweepKeys;
    var t := E.OnBook(inst, s, b).0;
    forall id | id in EngOf(inst, t.orders, session) && EngOf(inst, t.orders, session)[id].Resting?
      ensures id in EngOf(inst, s.orders, session) && EngOf(inst, s.orders, session)[id].Resting?
    {
      EngAt(inst, s.orders, session, id);
      EngAt(inst, t.orders, session, id);
    }
  }

  /** What happens at the session dooms no less. */
  lemma AtSessionWatched(p: Parties, y: System, e: Event)
    requires ValidParties(p) && Good(p, y) && Watched(p, y) && Possible(y, AtSession(e))
    ensures Watched(p, Composed.After(p, y, AtSession(e)))
  {
    hide Good, Doomed, Whole, Kept, Stays, OnRead, OnWrite, OnCloseDone, OnDrainDone, BeginClose, OnPublish, UntouchedFor;
    hide Texts, ReportsIn, FlowOf, Symbols, E.OnBook, EngOf;
    var t := Composed.After(p, y, AtSession(e));
    GoodWhole(p, y);
    if e.Others? {
      OthersGood(p, y, e.engine);
    } else if e.Publish? {
      var b := NextBook(y.w, e.bidPx, e.bidQty, e.askPx, e.askQty);
      PublishGood(p, y, b);
      BookRestsLess(p.engine.inst, y.w.engine, b, y.w.s.epoch);
      if Open(t.w) && !y.lost && y.d.strategy.swept {
        assert FlowOf(p, y).eng == EngOf(p.engine.inst, y.w.engine.orders, y.w.s.epoch) by { FlowEng(p, y); }
        DoomedStays(FlowOf(p, y), FlowOf(p, t));
      }
    } else if Ordinary(e) {
      OrdinaryStays(p.engine, y.w, e, p.engine.inst.symbol);
      NextKeeps(p.engine, y.w, e, true);
      StaysGood(p, y, t);
    } else if Open(y.w) {
      TakenGood(p, y, e.svc);
      if Open(t.w) && !y.lost && y.d.strategy.swept { DoomedNext(p, y, t); }
    } else {
      UnheededGood(p, y, e.svc);
      StillShut(p, y, e.svc);
    }
  }

  lemma FlowEng(p: Parties, y: System)
    requires y.read <= |Texts(y.w.log.sent)|
    ensures FlowOf(p, y).eng == EngOf(p.engine.inst, y.w.engine.orders, y.w.s.epoch)
  {
    hide EngOf;
  }

  lemma DoomedNext(p: Parties, y: System, t: System)
    requires Good(p, y) && Open(y.w) && y.read <= |Texts(y.w.log.sent)| && t.read <= |Texts(t.w.log.sent)|
    requires Doomed(FlowOf(p, y)) && exists m, fate :: Took(FlowOf(p, y), m, fate, FlowOf(p, t))
    ensures Doomed(FlowOf(p, t))
  {
    hide Whole, Texts, ReportsIn, Symbols, PolicyOnly, ReaderFine, ClientFine, CommandsFine, Clean, EngineSide;
    hide ClientSide, EngOf, Doomed;
    var m, fate :| Took(FlowOf(p, y), m, fate, FlowOf(p, t));
    DoomedTaken(FlowOf(p, y), m, fate);
  }

  /** A session on its way out stays so. */
  lemma StillShut(p: Parties, y: System, svc: int)
    requires ValidParties(p) && y.done < |y.cmds| && !Open(y.w) && Whole(y.w) && y.w.s.reading
    ensures !Open(OnRead(p.engine, y.w, Message(Decoded(y.cmds[y.done])), svc, true))
  {
    hide Whole, OnRead, Inv;
    ReadKeeps(p.engine, y.w, Message(Decoded(y.cmds[y.done])), svc, true);
  }

  // --- at the client -----------------------------------------------------------------------

  /** Nothing read arms or fires the sweep. */
  lemma ReadKeepsSwept(cfg: S.Config, s: S.State, x: Wire, now: int)
    ensures S.OnReport(cfg, s, x, now).0.swept == s.swept
  {
    hide S.Quote, S.ClId, S.Drop, S.QuoteBoth, S.ApplyReport;
    if x.msg.Tob? {
      var (s1, refused) := S.Admit(cfg, s, x);
      if refused.None? && x.msg.mdSeq > s1.mdSeq { BothTouches(cfg, S.Install(s1.(lastTobNs := Some(now)), x.msg), x.msg); }
    } else if !s.stopped && x.epoch == s.epoch && x.seqNo == s.inSeq + 1 && x.msg.clId in s.orders {
      ReportTouches(cfg, s.(inSeq := x.seqNo), x.msg);
    }
  }

  /** A client on another instrument has nothing to say. */
  lemma SilentReads(p: Parties, y: System, now: int)
    requires ValidParties(p) && Good(p, y) && Possible(y, ClientReads(now)) && !SameSymbol(p) && Silent(y)
    ensures Silent(Composed.After(p, y, ClientReads(now)))
  {
    hide Whole, Texts, ReportsIn, FlowFine, CommandsFine, ClientFine, ReaderFine, PolicyOnly, Clean, S.OnReport, S.Dispatch, Sends;
    var x := Texts(y.w.log.sent)[y.read];
    assert x.msg.Tob? ==> x.msg.symbol == p.engine.inst.symbol;
    if y.d.close.None? {
      var d := if y.d.epoch.None? then y.d.(epoch := Some(x.epoch), strategy := S.OnConnect(y.d.strategy, x.epoch)) else y.d;
      QuietReport(p.client, d.strategy, x, now);
      var (t, cmds) := S.OnReport(p.client, d.strategy, x, now);
      DispatchIs(d.(strategy := t), cmds);
      StopsSendNothing(cmds);
      assert |Msgs(S.Dispatch(d.(strategy := t), cmds).1)| == 0;
    }
  }

  lemma QuietReport(cfg: S.Config, s: S.State, x: Wire, now: int)
    requires s.orders == map[] && (x.msg.Tob? ==> x.msg.symbol != cfg.symbol)
    ensures var (t, cmds) := S.OnReport(cfg, s, x, now);
            && t.orders == map[] && t.bid.nextCl == s.bid.nextCl && t.ask.nextCl == s.ask.nextCl
            && forall c :: c in cmds ==> c.StopQuoting?
  {
    hide S.QuoteBoth, S.ApplyReport;
  }

  lemma {:induction false} StopsSendNothing(cmds: seq<S.Cmd>)
    requires forall c :: c in cmds ==> c.StopQuoting?
    ensures Sends(cmds) == []
  {
    if cmds != [] {
      assert cmds[|cmds| - 1] in cmds;
      StopsSendNothing(cmds[..|cmds| - 1]);
    }
  }

  /** A client that is following has not swept, and reading does not make it; nor, on its own
      instrument, does it make it stop. */
  lemma FollowedRuns(p: Parties, y: System, now: int)
    requires ValidParties(p) && Good(p, y) && y.read < |Texts(y.w.log.sent)| && y.d.close.None? && y.d.epoch.Some? && !y.lost
    requires y.d.strategy.swept ==> y.d.strategy.stopped
    ensures var t := S.OnReport(p.client, y.d.strategy, Texts(y.w.log.sent)[y.read], now).0;
            !t.swept && (SameSymbol(p) ==> !t.stopped)
  {
    hide Good, Texts, ReportsIn, S.OnReport, S.OnTob, InOrder;
    var x := Texts(y.w.log.sent)[y.read];
    FollowingRuns(p, y);
    ReadKeepsSwept(p.client, y.d.strategy, x, now);
    ReadInOrder(p, y);
    if x.msg.Tob? {
      ReportIsTob(p.client, y.d.strategy, x, now);
      TobTouches(p.client, y.d.strategy, x, now);
      SymbolRead(p, y);
    } else {
      MessageTouches(p.client, y.d.strategy, x, now);
    }
  }

  lemma SymbolRead(p: Parties, y: System)
    requires Good(p, y) && y.read < |Texts(y.w.log.sent)| && Texts(y.w.log.sent)[y.read].msg.Tob?
    ensures Texts(y.w.log.sent)[y.read].msg.symbol == p.engine.inst.symbol
  {
    hide Whole, Texts, ReportsIn, FlowFine, CommandsFine, ClientFine, ReaderFine, PolicyOnly, Clean;
  }

  /** Reading past a report changes nothing about the orders. */
  lemma SeenOnly(p: Parties, y: System)
    requires y.read < |Texts(y.w.log.sent)| && Doomed(FlowOf(p, y))
    ensures Doomed(FlowOf(p, y.(read := y.read + 1)))
  {
    hide Texts, ReportsIn, EngOf;
    DoomedStays(FlowOf(p, y), FlowOf(p, y.(read := y.read + 1)));
  }

  lemma ClientReadsWatched(p: Parties, y: System, now: int)
    requires ValidParties(p) && Good(p, y) && Watched(p, y) && Possible(y, ClientReads(now))
    ensures Watched(p, Composed.After(p, y, ClientReads(now)))
  {
    hide Good, Texts, ReportsIn, Doomed, FlowOf, S.OnReport, S.Dispatch, Silent;
    if !SameSymbol(p) { SilentReads(p, y, now); }
    if y.d.close.Some? {
      assert y.cmds + [] == y.cmds;
      if Open(y.w) && y.d.strategy.swept { SeenOnly(p, y); }
    } else if y.d.epoch.None? {
      AdoptGood(p, y);
      FirstEpoch(p, y);
      FollowedRuns(p, y.(d := y.d.(epoch := Some(y.w.s.epoch), strategy := S.OnConnect(y.d.strategy, y.w.s.epoch))), now);
    } else {
      FollowedRuns(p, y, now);
    }
  }

  // --- the timer and the loss of the connection --------------------------------------------

  lemma {:induction false} NothingCancelled(s: S.State, ids: seq<string>)
    requires s.orders == map[]
    ensures S.CancelAll(s, ids) == (s, [])
  {
    if ids != [] { NothingCancelled(s, ids[..|ids| - 1]); }
  }

  /** Of a client that never sent anything the engine holds nothing. */
  lemma SilentIsDoomed(p: Parties, y: System)
    requires Good(p, y) && Open(y.w) && Silent(y)
    ensures y.read <= |Texts(y.w.log.sent)| && Doomed(FlowOf(p, y))
  {
    hide Whole, Symbols, PolicyOnly, Texts, ReportsIn, ReaderFine, ClientFine, CommandsFine, Clean, EngOf;
    hide S.ClId, S.SideOf, S.IndexOf, ClientSide, NewsFresh, CancelsKnown, NewsLast, OnlyNewestRests, MappedKnown;
    var f := FlowOf(p, y);
    assert forall id :: id in f.eng ==> Assigned(f, id);
  }

  ghost predicate Sweeps(p: Parties, y: System, now: int) {
    var s := y.d.strategy;
    S.DriverInv(y.d) && !s.swept && s.lastTobNs.Some? && now - s.lastTobNs.value > p.client.staleNs
  }

  function TimerFired(p: Parties, y: System, now: int): System
    requires S.DriverInv(y.d)
  {
    var (d, frames) := S.DriverTimer(p.client, y.d, now);
    y.(d := d, cmds := y.cmds + frames)
  }

  /** The system after the sweep: the client's orders cancelled, the cancels sent. */
  lemma SweptIs(p: Parties, y: System, now: int)
    requires ValidParties(p) && Good(p, y) && Sweeps(p, y, now)
    ensures var t := TimerFired(p, y, now); var (s2, cancels) := SweepOf(y.d.strategy);
            && t.d.strategy == s2 && s2.swept && s2.stopped && Msgs(t.cmds) == Msgs(y.cmds) + Sends(cancels)
            && t == y.(d := t.d, cmds := t.cmds)
  {
    hide Whole, FlowFine, ServerFine, ClientFine, Clean, CommandsFine, ReaderFine, S.OnTimer, S.Dispatch, S.Resting, S.CancelAll;
    SweptCommands(p.client, y.d.strategy, now);
    EpochKnown(p, y);
    CommandsKnown(p, y);
    DispatchedFine(p, y, S.OnTimer(p.client, y.d.strategy, now).0, S.OnTimer(p.client, y.d.strategy, now).1);
  }

  lemma CommandsKnown(p: Parties, y: System)
    requires Good(p, y)
    ensures CommandsFine(y) && S.Ids(y.d.strategy)
  {
    hide CommandsFine, S.Ids;
  }

  /** Before the sweep a client quoting is linked to the engine; so after it all is doomed. */
  lemma SweptDoomed(p: Parties, y: System, now: int)
    requires ValidParties(p) && Good(p, y) && Sweeps(p, y, now) && Quoting(y)
    ensures var t := TimerFired(p, y, now); t.read <= |Texts(t.w.log.sent)| && Doomed(FlowOf(p, t))
  {
    hide Good, Texts, Doomed, FlowOf, Linked, Moved, Sends, SweepOf;
    var t := TimerFired(p, y, now);
    SweptIs(p, y, now);
    QuotingLinked(p, y);
    CommandsKnown(p, y);
    FlowShows(p, y);
    SweepDooms(FlowOf(p, y), y.d.strategy);
    FlowSwept(p, y, t);
  }

  lemma SweptWatched(p: Parties, y: System, now: int)
    requires ValidParties(p) && Good(p, y) && Watched(p, y) && Sweeps(p, y, now)
    ensures Watched(p, TimerFired(p, y, now))
  {
    hide Good, Composed.After, Texts, Doomed, S.Resting, S.CancelAll, FlowOf, Silent;
    var t := TimerFired(p, y, now);
    SweptIs(p, y, now);
    if !SameSymbol(p) {
      StillSilent(p, y, now);
      SweptGood(p, y, now);
      FiredIs(p, y, now);
      if Open(t.w) { SilentIsDoomed(p, t); }
    } else if Open(y.w) && !y.lost {
      SweptDoomed(p, y, now);
    }
  }

  lemma FlowShows(p: Parties, y: System)
    requires y.read <= |Texts(y.w.log.sent)|
    ensures Shows(FlowOf(p, y), y.d.strategy)
  {
  }

  lemma FlowSwept(p: Parties, y: System, t: System)
    requires y.read <= |Texts(y.w.log.sent)| && t == y.(d := t.d, cmds := t.cmds)
    requires var (s2, cancels) := SweepOf(y.d.strategy);
             t.d.strategy == s2 && Msgs(t.cmds) == Msgs(y.cmds) + Sends(cancels)
    ensures var (s2, cancels) := SweepOf(y.d.strategy); FlowOf(p, t) == Moved(FlowOf(p, y), s2, cancels)
  {
    hide Texts, EngOf, SweepOf, Sends, Msgs;
  }

  lemma StillSilent(p: Parties, y: System, now: int)
    requires ValidParties(p) && Good(p, y) && Sweeps(p, y, now) && Silent(y)
    ensures Silent(TimerFired(p, y, now))
  {
    hide Good, Composed.After, S.Resting, S.CancelAll;
    var s1 := y.d.strategy.(stopped := true, swept := true);
    SweptIs(p, y, now);
    NothingCancelled(s1, S.Resting(s1, s1.arrival));
    assert |Msgs(TimerFired(p, y, now).cmds)| == 0;
  }

  lemma StepWatched(p: Parties, y: System, x: Step)
    requires ValidParties(p) && Good(p, y) && Watched(p, y) && Possible(y, x)
    ensures Watched(p, Composed.After(p, y, x))
  {
    hide Good, Doomed, FlowOf, Enabled, S.OnTimer, S.Dispatch, Texts;
    match x {
      case AtSession(e) => AtSessionWatched(p, y, e);
      case ClientReads(now) => ClientReadsWatched(p, y, now);
      case ClientTimer(now) =>
        FiredIs(p, y, now);
        if Sweeps(p, y, now) { SweptWatched(p, y, now); } else { TimerIdle(p, y, now); }
      case ClientLost =>
    }
  }

  lemma FiredIs(p: Parties, y: System, now: int)
    requires ValidParties(p) && Possible(y, ClientTimer(now))
    ensures Composed.After(p, y, ClientTimer(now)) == TimerFired(p, y, now)
  {
  }

  lemma TimerIdle(p: Parties, y: System, now: int)
    requires ValidParties(p) && S.DriverInv(y.d) && !Sweeps(p, y, now)
    ensures TimerFired(p, y, now) == y
  {
    assert S.OnTimer(p.client, y.d.strategy, now) == (y.d.strategy, []);
    assert y.cmds + [] == y.cmds;
  }

  lemma {:induction false} AlwaysWatched(p: Parties, ys: seq<System>, xs: seq<Step>, i: nat)
    requires ValidParties(p) && IsComposedRun(p, ys, xs) && i < |ys|
    ensures Watched(p, ys[i])
  {
    hide Good, Composed.After, Possible, IsStart, Doomed;
    if i > 0 {
      AlwaysWatched(p, ys, xs, i - 1);
      AlwaysGood(p, ys, xs, i - 1);
      StepWatched(p, ys[i - 1], xs[i - 1]);
    }
  }

  /** In every run: once a connected client has swept and the engine has taken all it sent, the engine
      holds nothing live for the session. A client whose connection is gone sweeps nothing; its orders
      go when the session closes. */
  lemma SweepPullsEverything(p: Parties, ys: seq<System>, xs: seq<Step>, i: nat)
    requires ValidParties(p) && IsComposedRun(p, ys, xs) && i < |ys|
    requires ys[i].d.strategy.swept && Open(ys[i].w) && !ys[i].lost && ys[i].done == |ys[i].cmds|
    ensures E.LiveOf(ys[i].w.engine.orders, ys[i].w.s.epoch) == {}
  {
    hide IsComposedRun, Texts, ReportsIn, EngOf, Good;
    AlwaysWatched(p, ys, xs, i);
    var y := ys[i];
    FlowEng(p, y);
    NothingRests(FlowOf(p, y));
    forall k ensures k !in E.LiveOf(y.w.engine.orders, y.w.s.epoch) {
      EngAt(p.engine.inst, y.w.engine.orders, y.w.s.epoch, k.clId);
      assert k.session == y.w.s.epoch ==> k == E.Key(y.w.s.epoch, k.clId);
    }
  }
}
