/** What the session driver makes of the strategy's commands: how they are numbered and stamped, and
    when and under which code the client closes (python/mmclient/_session.py). */
module DriverAnswers {
  import opened Text
  import opened Protocol
  import opened StrategySpec
  import opened ClientFlow
  import opened Quoting
  import Composed

  /** The strategy a frame is put to: the first one of a connection starts it afresh on its epoch. */
  function Listener(d: Driver, w: Wire): State { if d.epoch.None? then FRESH.(epoch := w.epoch) else d.strategy }

  /** The message itself makes the client give up: a gap in the numbering, another instrument's book, or
      a book older than the last. */
  predicate Intolerable(cfg: Config, s: State, w: Wire) {
    && !s.stopped && w.epoch == s.epoch
    && (w.seqNo != s.inSeq + 1 || (w.msg.Tob? && (w.msg.symbol != cfg.symbol || w.msg.mdSeq < s.mdSeq)))
  }

  /** Frames under consecutive numbers from n, on this epoch. */
  predicate Stamped(frames: seq<Command>, n: nat, epoch: nat) {
    forall i :: 0 <= i < |frames| ==> frames[i].seqNo == n + i && frames[i].epoch == epoch
  }

  lemma FreshIsFine(epoch: nat)
    ensures Ids(FRESH.(epoch := epoch)) && NoStaleQuote(FRESH.(epoch := epoch))
  {
  }

  /** One frame at the driver, readable or not. A driver that is closing takes no notice; a frame the
      codec refuses closes 1002; any other goes to the strategy, whose orders leave in order under the
      next numbers and the adopted epoch, and an intolerable one closes 1002 too. */
  lemma FrameTaken(cfg: Config, d: Driver, frame: Option<Wire>, now: int)
    requires Ids(d.strategy) && NoStaleQuote(d.strategy)
    ensures var (t, frames) := OnBytes(cfg, d, frame, now);
            if d.close.Some? then t == d && frames == []
            else if frame.None? then t == d.(close := Some(1002)) && frames == []
            else
              var w, s := frame.value, Listener(d, frame.value);
              var (strategy, cmds) := OnReport(cfg, s, w, now);
              && t.strategy == strategy && t.epoch == Some(if d.epoch.None? then w.epoch else d.epoch.value)
              && Composed.Msgs(frames) == Sends(cmds) && Stamped(frames, d.outSeq + 1, t.epoch.value)
              && t.outSeq == d.outSeq + |frames|
              && t.close == if Intolerable(cfg, s, w) then Some(1002) else None
  {
    hide OnReport, Dispatch, StopCode, Ids, NoStaleQuote, OnConnect;
    if d.close.None? && frame.Some? {
      var w, s := frame.value, Listener(d, frame.value);
      FreshIsFine(w.epoch);
      var (strategy, cmds) := OnReport(cfg, s, w, now);
      var d1 := d.(epoch := Some(if d.epoch.None? then w.epoch else d.epoch.value), strategy := strategy);
      assert OnBytes(cfg, d, frame, now) == Dispatch(d1, cmds) by { Connected(d, w); }
      Composed.DispatchIs(d1, cmds);
      StopsExactlyWhen(cfg, s, w, now);
      MessageStops(cfg, s, w, now);
    }
  }

  lemma Connected(d: Driver, w: Wire)
    ensures OnConnect(d.strategy, w.epoch) == FRESH.(epoch := w.epoch)
  {
  }

  /** A message stops the strategy exactly when it is intolerable, and never for a stale feed. */
  lemma MessageStops(cfg: Config, s: State, w: Wire, now: int)
    requires Ids(s) && NoStaleQuote(s)
    ensures var cmds := OnReport(cfg, s, w, now).1;
            && (StopsIn(cmds) <==> Intolerable(cfg, s, w))
            && (forall c :: c in cmds && c.StopQuoting? ==> StopCode(c.reason) == 1002)
  {
    hide OnReport, StopCode, Ids, NoStaleQuote;
    StopsExactlyWhen(cfg, s, w, now);
    var cmds := OnReport(cfg, s, w, now).1;
    forall c | c in cmds && c.StopQuoting? ensures StopCode(c.reason) == 1002 { ProtocolStops(c.reason); }
    if Intolerable(cfg, s, w) { assert cmds[0] in cmds; }
  }

  lemma ProtocolStops(r: StopReason)
    requires !r.StaleFeed?
    ensures StopCode(r) == 1002
  {
    hide ReasonText;
    StaleAloneIs4000(r);
  }

  /** The timer at the driver: a feed gone stale closes 4000, unless a close was asked for before, and
      every order not already being cancelled has its cancel sent, under the next numbers. */
  lemma SweepSent(cfg: Config, d: Driver, now: int)
    requires DriverInv(d) && Ids(d.strategy)
    ensures var s := d.strategy; var (t, frames) := DriverTimer(cfg, d, now);
            if !s.swept && s.lastTobNs.Some? && now - s.lastTobNs.value > cfg.staleNs then
              && t.strategy.stopped && t.epoch == d.epoch && d.epoch.Some?
              && t.close == (if d.close.Some? || s.stopped then d.close else Some(4000))
              && t.outSeq == d.outSeq + |frames| && Stamped(frames, d.outSeq + 1, d.epoch.value)
              && forall id :: CancelOrder(id) in Composed.Msgs(frames) <==> id in s.orders && s.orders[id].state != PendingCancel
            else t == d && frames == []
  {
    hide OnTimer, Dispatch, StopCode, Ids;
    TimerSweeps(cfg, d.strategy, now);
    var (strategy, cmds) := OnTimer(cfg, d.strategy, now);
    if !d.strategy.swept && d.strategy.lastTobNs.Some? && now - d.strategy.lastTobNs.value > cfg.staleNs {
      Composed.DispatchIs(d.(strategy := strategy), cmds);
      Composed.SweptCommands(cfg, d.strategy, now);
      forall c | c in cmds && c.StopQuoting? ensures StopCode(c.reason) == 4000 { StaleAloneIs4000(c.reason); }
      SentIn(cmds);
    } else {
      EmptyDispatch(d);
    }
  }

  lemma EmptyDispatch(d: Driver)
    ensures Dispatch(d, []) == (d, [])
  {
  }

  lemma {:induction false} SentIn(cmds: seq<Cmd>)
    ensures forall m :: m in Sends(cmds) <==> SendCmd(m) in cmds
  {
    if cmds != [] {
      SentIn(cmds[..|cmds| - 1]);
      assert cmds == cmds[..|cmds| - 1] + [cmds[|cmds| - 1]];
    }
  }
}
