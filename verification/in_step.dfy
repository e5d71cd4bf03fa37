/** Client and engine in step: whenever nothing is on its way, the client's picture of the market is the
    engine's own book, and what it has resting there is at the touch of it. */
module InStep {
  import opened Text
  import opened Protocol
  import opened SessionSpec
  import opened SessionRuns
  import opened SessionEffects
  import opened ClientFlow
  import opened Composed
  import T = SessionTicks
  import E = EngineSpec
  import S = StrategySpec

  /** What the client has of the market is the last tick it read. */
  ghost predicate ReadsBook(y: System)
    requires y.read <= |Texts(y.w.log.sent)|
  {
    var s, seen := y.d.strategy, T.LastTick(Texts(y.w.log.sent)[..y.read]);
    !s.stopped ==>
      match seen
      case None => s.mdSeq == 0 && s.bidPx == None && s.askPx == None
      case Some(tick) =>
        tick.Tob? && s.mdSeq == tick.mdSeq > 0 && s.bidPx == Some(tick.bidPx) && s.askPx == Some(tick.askPx)
  }

  ghost predicate Follows(p: Parties, y: System) {
    && Good(p, y) && T.UpToDate(p.engine, y.w) && y.read <= |Texts(y.w.log.sent)| && ReadsBook(y)
    && forall m :: T.Carried(y.w, m) ==> m.mdSeq > 0
  }

  lemma {:induction false} LastTickIs(ws: seq<Wire>)
    ensures match T.LastTick(ws)
            case None => forall i :: 0 <= i < |ws| ==> !ws[i].msg.Tob?
            case Some(m) => m.Tob? && exists i :: 0 <= i < |ws| && ws[i].msg == m
  {
    if ws != [] && !ws[|ws| - 1].msg.Tob? { LastTickIs(ws[..|ws| - 1]); }
  }

  /** The next tick the client reads is newer than any it has read, and numbered from 1. */
  lemma NextIsNewer(p: Parties, y: System)
    requires Follows(p, y) && y.read < |Texts(y.w.log.sent)| && Texts(y.w.log.sent)[y.read].msg.Tob?
    ensures Texts(y.w.log.sent)[y.read].msg.mdSeq > 0
    ensures !y.d.strategy.stopped ==> Texts(y.w.log.sent)[y.read].msg.mdSeq > y.d.strategy.mdSeq
  {
    hide Texts, Good, T.UpToDate, T.LastTick, Increasing;
    var ws := Texts(y.w.log.sent);
    assert T.Written(y.w.log.sent, ws[y.read].msg);
    assert T.Carried(y.w, ws[y.read].msg);
    LastTickIs(ws[..y.read]);
    if !y.d.strategy.stopped && T.LastTick(ws[..y.read]).Some? {
      var i :| 0 <= i < y.read && ws[..y.read][i].msg == T.LastTick(ws[..y.read]).value;
      assert Increasing(TicksIn(ws)) by { GoodTicks(p, y); }
      TicksInOrder(ws, i, y.read);
    }
  }

  lemma GoodTicks(p: Parties, y: System)
    requires Good(p, y)
    ensures Increasing(TicksIn(Texts(y.w.log.sent))) && Whole(y.w)
  {
    hide Texts, TicksIn, Increasing, Closing, Settled, CommandsFine, ReaderFine, ClientFine, FlowFine;
  }

  lemma StartFollows(p: Parties, y: System)
    requires ValidParties(p) && IsStart(y.w) && y == System(y.w, S.NEW_DRIVER, [], 0, 0, false)
    ensures Follows(p, y)
  {
    hide Good;
    StartGood(p, y);
    T.StartUpToDate(p.engine, y.w);
  }

  lemma SessionFollows(p: Parties, y: System, e: Event)
    requires ValidParties(p) && Follows(p, y) && Possible(y, AtSession(e))
    ensures Follows(p, After(p, y, AtSession(e)))
  {
    hide Good, Next, Enabled, T.UpToDate, T.Carried, T.LastTick, Texts;
    var t := After(p, y, AtSession(e));
    AtSessionGood(p, y, e);
    T.NextUpToDate(p.engine, y.w, e, true);
    GoodTicks(p, y);
    NextKeeps(p.engine, y.w, e, true);
    assert y.w.log.sent <= t.w.log.sent by { hide Whole; }
    TextsGrow(y.w.log.sent, t.w.log.sent);
    assert Texts(t.w.log.sent)[..y.read] == Texts(y.w.log.sent)[..y.read];
  }

  lemma LastTickOn(ws: seq<Wire>, n: nat)
    requires n < |ws|
    ensures T.LastTick(ws[..n + 1]) == if ws[n].msg.Tob? then Some(ws[n].msg) else T.LastTick(ws[..n])
  {
    assert ws[..n + 1][..n] == ws[..n];
  }

  /** A following client takes one message: a tick becomes what it has of the market, a report leaves that be. */
  lemma FollowerReads(p: Parties, y: System, now: int)
    requires ValidParties(p) && Follows(p, y) && y.read < |Texts(y.w.log.sent)|
    requires y.d.close.None? && y.d.epoch.Some? && !y.lost
    ensures var t := After(p, y, ClientReads(now)); t.read <= |Texts(t.w.log.sent)| && ReadsBook(t)
  {
    hide Good, T.UpToDate, T.Carried, Texts, S.OnTob, S.Dispatch, T.LastTick, S.ApplyReport;
    var x, s := Texts(y.w.log.sent)[y.read], y.d.strategy;
    ReadInOrder(p, y);
    LastTickOn(Texts(y.w.log.sent), y.read);
    LastTickIs(Texts(y.w.log.sent)[..y.read]);
    var (s1, cmds) := S.OnReport(p.client, s, x, now);
    assert After(p, y, ClientReads(now)).d.strategy == s1 by { hide S.OnReport; }
    if x.msg.Tob? {
      NextIsNewer(p, y);
      TobTouches(p.client, s, x, now);
    } else {
      MessageTouches(p.client, s, x, now);
    }
  }

  lemma AdoptFollows(p: Parties, y: System)
    requires Follows(p, y) && y.d.epoch.None? && !y.lost && y.d.close.None?
    ensures var y1 := y.(d := y.d.(epoch := Some(y.w.s.epoch), strategy := S.OnConnect(y.d.strategy, y.w.s.epoch)));
            Follows(p, y1) && !y.d.strategy.stopped
  {
    hide Good, T.UpToDate, T.Carried, Texts, T.LastTick;
    AdoptGood(p, y);
    assert y.d.strategy == S.FRESH by { NotAdopted(p, y); }
  }

  lemma NotAdopted(p: Parties, y: System)
    requires Good(p, y) && y.d.epoch.None? && !y.lost
    ensures y.d.strategy == S.FRESH
  {
    hide Whole, Texts, Symbols, FlowFine, ClientFine, CommandsFine;
  }

  lemma ReadFollows(p: Parties, y: System, now: int)
    requires ValidParties(p) && Follows(p, y) && Possible(y, ClientReads(now))
    ensures Follows(p, After(p, y, ClientReads(now)))
  {
    hide Good, T.UpToDate, T.Carried, Texts, S.OnReport, S.Dispatch, T.LastTick, S.OnConnect;
    ClientReadsGood(p, y, now);
    if y.d.close.Some? {
      assert y.d.strategy.stopped by { ClosedHasStopped(p, y); }
    } else if y.d.epoch.None? {
      AdoptFollows(p, y);
      assert Texts(y.w.log.sent)[y.read].epoch == y.w.s.epoch by { FirstEpoch(p, y); }
      var y1 := y.(d := y.d.(epoch := Some(y.w.s.epoch), strategy := S.OnConnect(y.d.strategy, y.w.s.epoch)));
      FollowerReads(p, y1, now);
    } else {
      FollowerReads(p, y, now);
    }
  }

  lemma ClosedHasStopped(p: Parties, y: System)
    requires Good(p, y) && y.d.close.Some?
    ensures y.d.strategy.stopped
  {
    hide Whole, Texts, Symbols, FlowFine, ClientFine, CommandsFine;
  }

  lemma StepFollows(p: Parties, y: System, x: Step)
    requires ValidParties(p) && Follows(p, y) && Possible(y, x)
    ensures Follows(p, After(p, y, x))
  {
    hide Good, Next, Enabled, T.UpToDate, T.Carried, T.LastTick, Texts, S.OnBytes, S.CancelAll, S.DriverInv, S.Dispatch;
    StepGood(p, y, x);
    match x
    case AtSession(e) => SessionFollows(p, y, e);
    case ClientReads(now) => ReadFollows(p, y, now);
    case ClientTimer(now) => TimerFollows(p, y, now);
    case ClientLost =>
  }

  /** The timer either stops the client or does nothing. */
  lemma TimerFollows(p: Parties, y: System, now: int)
    requires ValidParties(p) && Follows(p, y) && Possible(y, ClientTimer(now))
    ensures var t := After(p, y, ClientTimer(now));
            t.w == y.w && t.read == y.read && (t.d.strategy.stopped || t.d.strategy == y.d.strategy)
  {
    hide Follows, S.CancelAll, S.Resting;
    var s1 := y.d.strategy.(stopped := true, swept := true);
    CancelAllTouches(s1, S.Resting(s1, s1.arrival));
  }

  lemma {:induction false} AlwaysFollows(p: Parties, ys: seq<System>, xs: seq<Step>, i: nat)
    requires ValidParties(p) && IsComposedRun(p, ys, xs) && i < |ys|
    ensures Follows(p, ys[i])
  {
    hide Follows, After, Possible, IsStart;
    if i == 0 {
      StartFollows(p, ys[0]);
    } else {
      AlwaysFollows(p, ys, xs, i - 1);
      StepFollows(p, ys[i - 1], xs[i - 1]);
    }
  }

  // --- at rest -----------------------------------------------------------------------------

  /** With nothing on its way, what the client has of the market is the engine's own book, if any has
      been published to the session. */
  lemma SameBookAtRest(p: Parties, ys: seq<System>, xs: seq<Step>, i: nat)
    requires ValidParties(p) && IsComposedRun(p, ys, xs) && i < |ys| && Quoting(ys[i]) && Quiescent(ys[i])
    ensures var s, w := ys[i].d.strategy, ys[i].w;
            if w.log.ticks == 0 then s.bidPx == None && s.askPx == None
            else w.engine.bookSeen && s.mdSeq == w.engine.book.mdSeq
                 && s.bidPx == Some(w.engine.book.bidPx) && s.askPx == Some(w.engine.book.askPx)
  {
    hide Good, IsComposedRun, T.Carried, T.LastTick, Texts;
    AlwaysFollows(p, ys, xs, i);
    assert Texts(ys[i].w.log.sent)[..ys[i].read] == Texts(ys[i].w.log.sent);
  }

  /** And unless that book is locked or crossed, every order the session has resting in the engine rests
      at the touch of its side. */
  lemma TouchAtRest(p: Parties, ys: seq<System>, xs: seq<Step>, i: nat, k: E.Key)
    requires ValidParties(p) && IsComposedRun(p, ys, xs) && i < |ys| && Quoting(ys[i]) && Quiescent(ys[i])
    requires var b := ys[i].w.engine.book; b.bidPx < b.askPx
    requires k in E.LiveOf(ys[i].w.engine.orders, ys[i].w.s.epoch)
    ensures var b := ys[i].w.engine.book;
            ys[i].w.engine.orders[k].px * p.engine.inst.tickSize == if S.SideOf(k.clId) == Bid then b.bidPx else b.askPx
  {
    hide Good, IsComposedRun, Texts, S.SideOf;
    SameBookAtRest(p, ys, xs, i);
    AgreeAtRest(p, ys, xs, i);
    AlwaysGood(p, ys, xs, i);
    var s, id := ys[i].d.strategy, k.clId;
    assert k == E.Key(ys[i].w.s.epoch, id);
    assert S.SideReady(s, S.SideOf(id)) && S.AtTouch(s, S.SideOf(id)) by { QuotingSettled(p, ys[i], S.SideOf(id)); }
  }

  lemma QuotingSettled(p: Parties, y: System, side: Side)
    requires Good(p, y) && Quoting(y)
    ensures S.SideReady(y.d.strategy, side) && S.AtTouch(y.d.strategy, side)
  {
    hide Whole, Texts, Symbols, FlowFine, CommandsFine, ReaderFine, S.SideReady, S.AtTouch;
  }
}
