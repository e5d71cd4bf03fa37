/** Client and engine together: Strategy and SessionDriver on one side, Session, Outbox and
    OrderEngine on the other, joined by two reliable FIFO channels. Any interleaving of ticks,
    conflation, fills, amends, rejects, other sessions, transport deaths and the stale sweep. */
module Composed {
  import opened Text
  import opened Protocol
  import opened SessionSpec
  import opened SessionRuns
  import opened SessionEffects
  import opened OrderFlow
  import opened ClientFlow
  import opened EngineFlow
  import E = EngineSpec
  import S = StrategySpec

  /** `cmds` is every command the client ever sent, `done` how many reached the session; `read` is how
      many of the session's messages reached the client. */
  datatype System = System(w: World, d: S.Driver, cmds: seq<Command>, done: nat, read: nat, lost: bool)

  datatype Parties = Parties(engine: Config, client: S.Config)

  /** Room for one order a side. */
  predicate ValidParties(p: Parties) { ValidConfig(p.engine) && p.engine.inst.maxLiveOrders >= 2 }

  datatype Step =
    | AtSession(event: Event)
    | ClientReads(now: int)
    | ClientTimer(now: int)
    | ClientLost

  /** What can happen. Frames reach either side whole and in order; a read can also find the connection
      over or dead, and the server closes of its own accord only to go away. */
  ghost predicate Possible(y: System, x: Step) {
    match x
    case AtSession(e) =>
      && Enabled(y.w, e)
      && (Ordinary(e) || e.Publish? || e.Others?
          || (e.ReadDone? && y.done < |y.cmds| && e.result == Message(Decoded(y.cmds[y.done]))))
    case ClientReads(_) => !y.lost && y.read < |Texts(y.w.log.sent)|
    case ClientTimer(_) => S.DriverInv(y.d)
    case ClientLost => true
  }

  predicate Takes(x: Step) { x.AtSession? && x.event.ReadDone? && x.event.result.Message? }

  ghost function After(p: Parties, y: System, x: Step): System
    requires ValidParties(p) && Possible(y, x)
  {
    match x
    case AtSession(e) => y.(w := Next(p.engine, y.w, e, true), done := if Takes(x) then y.done + 1 else y.done)
    case ClientReads(now) =>
      var (d, frames) := S.OnBytes(p.client, y.d, Some(Texts(y.w.log.sent)[y.read]), now);
      y.(d := d, cmds := y.cmds + frames, read := y.read + 1)
    case ClientTimer(now) =>
      var (d, frames) := S.DriverTimer(p.client, y.d, now);
      y.(d := d, cmds := y.cmds + frames)
    case ClientLost => y.(d := S.DriverDisconnect(y.d), lost := true)
  }

  ghost predicate IsComposedRun(p: Parties, ys: seq<System>, xs: seq<Step>)
    requires ValidParties(p)
  {
    && |ys| == |xs| + 1
    && IsStart(ys[0].w) && ys[0] == System(ys[0].w, S.NEW_DRIVER, [], 0, 0, false)
    && forall i :: 0 <= i < |xs| ==> Possible(ys[i], xs[i]) && ys[i + 1] == After(p, ys[i], xs[i])
  }

  // --- the invariant -----------------------------------------------------------------------

  function Msgs(cmds: seq<Command>): seq<InMsg> { seq(|cmds|, i requires 0 <= i < |cmds| => cmds[i].msg) }

  function Seen(y: System): nat
    requires y.read <= |Texts(y.w.log.sent)|
  {
    |ReportsIn(Texts(y.w.log.sent)[..y.read])|
  }

  ghost function FlowOf(p: Parties, y: System): Flow
    requires y.read <= |Texts(y.w.log.sent)|
  {
    Flow(Msgs(y.cmds), y.done, y.w.log.pushed, Seen(y), EngOf(p.engine.inst, y.w.engine.orders, y.w.s.epoch),
         y.d.strategy.orders, y.d.strategy.bid.nextCl, y.d.strategy.ask.nextCl)
  }

  ghost predicate ServerFine(p: Parties, y: System) {
    && Whole(y.w) && !y.w.log.encoderFailed && PolicyOnly(y.w) && Symbols(y.w, p.engine.inst.symbol)
    && y.read <= |Texts(y.w.log.sent)|
  }

  /** The client's envelope: contiguous, and every command on this session's epoch. */
  ghost predicate CommandsFine(y: System) {
    && (forall i :: 0 <= i < |y.cmds| ==> y.cmds[i].seqNo == i + 1 && y.cmds[i].epoch == y.w.s.epoch)
    && y.d.outSeq == |y.cmds| && y.done <= |y.cmds|
    && (Open(y.w) ==> y.w.s.inSeqExpected == y.done + 1)
  }

  ghost predicate TickRead(y: System, n: nat)
    requires y.read <= |Texts(y.w.log.sent)|
  {
    n == 0 || exists i :: 0 <= i < y.read && Texts(y.w.log.sent)[i].msg.Tob? && Texts(y.w.log.sent)[i].msg.mdSeq == n
  }

  /** Where the client stands in the stream it is reading. */
  ghost predicate ReaderFine(p: Parties, y: System)
    requires y.read <= |Texts(y.w.log.sent)|
  {
    var s := y.d.strategy;
    && (y.d.epoch.Some? ==> y.d.epoch.value == y.w.s.epoch == s.epoch)
    && (y.d.epoch.None? ==> s.orders == map[] && s.lastTobNs.None? && (!y.lost ==> y.read == 0 && s == S.FRESH))
    && (!s.stopped ==> !y.lost && y.d.close.None? && s.inSeq == y.read && TickRead(y, s.mdSeq))
    && (s.stopped ==> y.lost || y.d.close.Some?)
    && (y.d.close.Some? ==> y.d.close.value == S.CLOSE_STALE || p.client.symbol != p.engine.inst.symbol)
  }

  ghost predicate FlowFine(p: Parties, y: System)
    requires y.read <= |Texts(y.w.log.sent)|
  {
    Open(y.w) ==> EngineSide(FlowOf(p, y)) && (!y.d.strategy.stopped ==> Linked(FlowOf(p, y)))
  }

  ghost predicate ClientFine(y: System) { S.Ids(y.d.strategy) && S.NoStaleQuote(y.d.strategy) }

  ghost predicate Good(p: Parties, y: System) {
    && ServerFine(p, y) && CommandsFine(y) && ReaderFine(p, y) && ClientFine(y) && FlowFine(p, y)
    && Clean(y.w.log.pushed)
  }

  // --- the stream the client reads ---------------------------------------------------------

  lemma {:induction false} TextsGrow(a: seq<Sent>, b: seq<Sent>)
    requires a <= b
    ensures Texts(a) <= Texts(b)
    decreases |b|
  {
    if a != b {
      TextsGrow(a, b[..|b| - 1]);
    }
  }

  lemma {:induction false} ReportsGrow(ws: seq<Wire>, n: nat)
    requires n <= |ws|
    ensures ReportsIn(ws[..n]) <= ReportsIn(ws)
    decreases |ws|
  {
    if n < |ws| {
      ReportsGrow(ws[..|ws| - 1], n);
      assert ws[..|ws| - 1][..n] == ws[..n];
    } else {
      assert ws[..n] == ws;
    }
  }

  /** The next message is a tick, or the next report of those pushed. */
  lemma NextReport(ws: seq<Wire>, n: nat, pushed: seq<OutMsg>, queued: seq<OutMsg>)
    requires n < |ws| && pushed == ReportsIn(ws) + queued
    ensures ReportsIn(ws[..n + 1]) <= pushed
    ensures |ReportsIn(ws[..n + 1])| == |ReportsIn(ws[..n])| + if ws[n].msg.Tob? then 0 else 1
    ensures !ws[n].msg.Tob? ==> pushed[|ReportsIn(ws[..n])|] == ws[n].msg
  {
    ReportsGrow(ws, n + 1);
    assert ws[..n + 1][..n] == ws[..n];
  }

  lemma {:induction false} TicksInOrder(ws: seq<Wire>, i: nat, j: nat)
    requires Increasing(TicksIn(ws)) && i < j < |ws| && ws[i].msg.Tob? && ws[j].msg.Tob?
    ensures ws[i].msg.mdSeq < ws[j].msg.mdSeq
    decreases |ws|
  {
    var init := ws[..|ws| - 1];
    var ns := TicksIn(init);
    assert forall a :: 0 <= a < |ns| ==> ns[a] == TicksIn(ws)[a];
    if j < |ws| - 1 {
      TicksInOrder(init, i, j);
    } else {
      TickListed(init, i);
      var a :| 0 <= a < |ns| && ns[a] == ws[i].msg.mdSeq;
      assert TicksIn(ws)[|ns|] == ws[j].msg.mdSeq;
    }
  }

  lemma {:induction false} TickListed(ws: seq<Wire>, i: nat)
    requires i < |ws| && ws[i].msg.Tob?
    ensures ws[i].msg.mdSeq in TicksIn(ws)
    decreases |ws|
  {
    if i < |ws| - 1 { TickListed(ws[..|ws| - 1], i); }
  }

  /** md_seq never goes down under the client. */
  lemma NeverDecreases(y: System, n: nat)
    requires Whole(y.w) && y.read < |Texts(y.w.log.sent)| && TickRead(y, n) && Texts(y.w.log.sent)[y.read].msg.Tob?
    ensures n <= Texts(y.w.log.sent)[y.read].msg.mdSeq
  {
    hide Texts, TicksIn, ReportsIn, Increasing, Closing, Settled;
    var ws := Texts(y.w.log.sent);
    if n != 0 {
      var i :| 0 <= i < y.read && ws[i].msg.Tob? && ws[i].msg.mdSeq == n;
      TicksInOrder(ws, i, y.read);
    }
  }

  // --- the driver --------------------------------------------------------------------------

  lemma MsgsAppend(a: seq<Command>, b: seq<Command>)
    ensures Msgs(a + b) == Msgs(a) + Msgs(b)
  {
  }

  /** Dispatch stamps each message with the next number and the session's epoch, and latches only a stop. */
  lemma {:induction false} DispatchIs(d: S.Driver, cmds: seq<S.Cmd>)
    requires d.epoch.Some? || forall c :: c in cmds ==> c.StopQuoting?
    ensures var (d1, frames) := S.Dispatch(d, cmds);
            && d1.(outSeq := d.outSeq, close := d.close) == d && d1.outSeq == d.outSeq + |frames|
            && Msgs(frames) == Sends(cmds)
            && (forall i :: 0 <= i < |frames| ==> frames[i].seqNo == d.outSeq + 1 + i && d.epoch == Some(frames[i].epoch))
            && (!StopsIn(cmds) ==> d1.close == d.close)
            && (d.close.Some? ==> d1.close == d.close)
            && (StopsIn(cmds) ==> d1.close.Some?)
            && (d1.close.Some? && d.close.None? ==>
                exists c ::
                  c in cmds && c.StopQuoting? && d1.close == Some(S.StopCode(c.reason)))
  {
    hide S.StopCode;
    if cmds != [] {
      var init, last := cmds[..|cmds| - 1], cmds[|cmds| - 1];
      DispatchIs(d, init);
      var (d1, frames) := S.Dispatch(d, init);
      assert cmds == init + [last];
      assert last in cmds && forall c :: c in init ==> c in cmds;
      if last.SendCmd? { MsgsAppend(frames, [S.Dispatch(d, cmds).1[|frames|]]); }
    }
  }

  // --- events at the session ---------------------------------------------------------------

  /** Reading goes on from where it was, over a stream that only grew. */
  lemma StreamGrew(p: Parties, y: System, t: System)
    requires y.read <= |Texts(y.w.log.sent)| && y.w.log.sent <= t.w.log.sent && t.w.s.epoch == y.w.s.epoch
    requires t.d == y.d && t.read == y.read && t.lost == y.lost
    ensures t.read <= |Texts(t.w.log.sent)| && Seen(t) == Seen(y)
    ensures ReaderFine(p, y) ==> ReaderFine(p, t)
  {
    hide Texts, ReportsIn;
    TextsGrow(y.w.log.sent, t.w.log.sent);
    var a, b := Texts(y.w.log.sent), Texts(t.w.log.sent);
    assert a[..y.read] == b[..y.read];
    if TickRead(y, y.d.strategy.mdSeq) && y.d.strategy.mdSeq != 0 {
      var i :| 0 <= i < y.read && a[i].msg.Tob? && a[i].msg.mdSeq == y.d.strategy.mdSeq;
      assert b[i] == a[i];
    }
  }

  /** An event that pushes these reports and leaves the engine so keeps everything but the flow. */
  lemma PushedGood(p: Parties, y: System, t: System, ms: seq<OutMsg>, engine: E.State)
    requires Good(p, y) && Whole(t.w) && Kept(y.w, t.w) && Pushes(y.w, t.w, ms, engine, p.engine.inst.symbol) && Clean(ms)
    requires t == y.(w := t.w, done := t.done) && t.done <= |y.cmds| && (Open(t.w) ==> t.w.s.inSeqExpected == t.done + 1)
    ensures t.read <= |Texts(t.w.log.sent)| && Seen(t) == Seen(y)
    ensures FlowFine(p, t) ==> Good(p, t)
  {
    hide Whole, Symbols, PolicyOnly, FlowFine, Texts, ReportsIn, ReaderFine, EngOf, S.Ids, S.NoStaleQuote;
    StreamGrew(p, y, t);
  }

  lemma StaysGood(p: Parties, y: System, t: System)
    requires Good(p, y) && Whole(t.w) && Kept(y.w, t.w) && Stays(y.w, t.w, p.engine.inst.symbol)
    requires t == y.(w := t.w, done := t.done) && t.done <= |y.cmds| && (Open(t.w) ==> t.done == y.done)
    ensures Good(p, t) && t.read <= |Texts(t.w.log.sent)|
    ensures Open(t.w) ==> Open(y.w) && y.read <= |Texts(y.w.log.sent)| && FlowOf(p, t) == FlowOf(p, y)
  {
    hide Whole, Symbols, PolicyOnly, Texts, ReportsIn, ReaderFine, ClientFine, EngOf, EngineSide, ClientSide;
    assert y.w.log.pushed + [] == y.w.log.pushed;
    PushedGood(p, y, t, [], y.w.engine);
    if Open(t.w) { assert FlowOf(p, t) == FlowOf(p, y); }
  }

  lemma OthersGood(p: Parties, y: System, engine: E.State)
    requires ValidParties(p) && Good(p, y) && UntouchedFor(y.w.engine, engine, y.w.s.epoch)
    ensures var t := y.(w := y.w.(engine := engine));
            Good(p, t) && t.read <= |Texts(y.w.log.sent)| && (Open(y.w) ==> FlowOf(p, t) == FlowOf(p, y))
  {
    hide Whole, Symbols, PolicyOnly, Texts, ReportsIn, ReaderFine, ClientFine, EngOf, EngineSide, ClientSide;
    var t := y.(w := y.w.(engine := engine));
    OthersKeep(y.w, engine);
    assert y.w.log.pushed + [] == y.w.log.pushed;
    assert Symbols(y.w, p.engine.inst.symbol) ==> Symbols(t.w, p.engine.inst.symbol) by {
      SymbolsIgnoreEngine(y.w, engine, p.engine.inst.symbol);
    }
    assert PolicyOnly(y.w) ==> PolicyOnly(t.w) by { SymbolsIgnoreEngine(y.w, engine, p.engine.inst.symbol); }
    PushedGood(p, y, t, [], engine);
    EngUntouched(p.engine.inst, y.w.engine.orders, engine.orders, y.w.s.epoch);
    if Open(t.w) { assert FlowOf(p, t) == FlowOf(p, y); }
  }

  lemma SymbolsIgnoreEngine(w: World, engine: E.State, symbol: string)
    ensures Symbols(w, symbol) ==> Symbols(w.(engine := engine), symbol)
    ensures PolicyOnly(w) ==> PolicyOnly(w.(engine := engine))
  {
  }

  lemma PublishGood(p: Parties, y: System, b: E.Book)
    requires ValidParties(p) && Good(p, y) && b.mdSeq == y.w.mdSeq + 1
    ensures var t := y.(w := OnPublish(p.engine, y.w, b, true)); var (engine, routed) := E.OnBook(p.engine.inst, y.w.engine, b);
            && Good(p, t) && y.read <= |Texts(y.w.log.sent)| && t.read <= |Texts(t.w.log.sent)|
            && (Open(t.w) ==> Open(y.w) && FlowOf(p, t) == FlowOf(p, y).(
                  reports := y.w.log.pushed + Mine(routed, y.w.s.epoch), eng := EngOf(p.engine.inst, engine.orders, y.w.s.epoch)))
  {
    hide Whole, Inv, Kept, Symbols, PolicyOnly, Texts, ReportsIn, ReaderFine, ClientFine, EngOf, EngineSide,
        ClientSide, OnPublish, E.OnBook;
    var t := y.(w := OnPublish(p.engine, y.w, b, true));
    var (engine, routed) := E.OnBook(p.engine.inst, y.w.engine, b);
    PublishKeeps(p.engine, y.w, b, true);
    assert Inv(y.w) by { WholeInv(y.w); }
    PublishPushes(p.engine, y.w, b);
    if Open(y.w) {
      var f := FlowOf(p, y);
      BookFlow(p.engine.inst, y.w.engine, b, y.w.s.epoch, f);
      PushedGood(p, y, t, Mine(routed, y.w.s.epoch), engine);
      if Open(t.w) {
        assert FlowOf(p, t) == f.(reports := f.reports + Mine(routed, y.w.s.epoch), eng := EngOf(p.engine.inst, engine.orders, y.w.s.epoch));
      }
    } else {
      PushedGood(p, y, t, [], engine);
    }
  }

  lemma WholeInv(w: World)
    requires Whole(w)
    ensures Inv(w)
  {
    hide Inv;
  }

  /** A command of the client's reaches an open session: it is the one expected, and the engine answers it. */
  lemma TakenGood(p: Parties, y: System, svc: int)
    requires ValidParties(p) && Good(p, y) && y.done < |y.cmds| && Open(y.w) && y.w.s.reading
    ensures y.cmds[y.done].seqNo == y.w.s.inSeqExpected && y.cmds[y.done].epoch == y.w.s.epoch
    ensures var t := y.(w := OnRead(p.engine, y.w, Message(Decoded(y.cmds[y.done])), svc, true), done := y.done + 1);
            && Good(p, t) && y.read <= |Texts(y.w.log.sent)| && t.read <= |Texts(t.w.log.sent)|
            && (Open(t.w) ==> exists m, fate :: Took(FlowOf(p, y), m, fate, FlowOf(p, t)))
  {
    hide Whole, Inv, Kept, Symbols, PolicyOnly, Texts, ReportsIn, ReaderFine, ClientFine, EngOf, EngineSide,
        ClientSide, OnRead, E.OnNew, E.OnCancel;
    var cmd := y.cmds[y.done];
    var t := y.(w := OnRead(p.engine, y.w, Message(Decoded(cmd)), svc, true), done := y.done + 1);
    var (engine, m) := Answer(p.engine, y.w.engine, y.w.s.epoch, cmd.msg);
    var f := FlowOf(p, y);
    assert f.sent[f.done] == cmd.msg;
    ReadKeeps(p.engine, y.w, Message(Decoded(cmd)), svc, true);
    CommandPushes(p.engine, y.w, cmd, svc, p.engine.inst.symbol);
    var fate := AnswerFlow(p, y.w.engine, y.w.s.epoch, f);
    PushedGood(p, y, t, [m], engine);
    if Open(t.w) {
      assert FlowOf(p, t) == Entered(f, m, fate);
      assert Took(f, m, fate, FlowOf(p, t));
    }
  }

  /** The engine has taken the next command, answered it and left its order so. */
  ghost predicate Took(f: Flow, m: OutMsg, fate: Fate, g: Flow) {
    f.done < |f.sent| && g == Entered(f, m, fate) && (f.sent[f.done].CancelOrder? ==> fate == Over)
  }

  /** The engine's answer to the next command, whichever kind it is. */
  lemma AnswerFlow(p: Parties, s: E.State, session: nat, f: Flow) returns (fate: Fate)
    requires ValidParties(p) && EngineSide(f) && f.eng == EngOf(p.engine.inst, s.orders, session) && f.done < |f.sent|
    ensures var (t, m) := Answer(p.engine, s, session, f.sent[f.done]);
            && Clean([m]) && EngOf(p.engine.inst, t.orders, session) == f.eng[f.sent[f.done].clId := fate]
            && EngineSide(Entered(f, m, fate)) && (Linked(f) ==> Linked(Entered(f, m, fate)))
            && (f.sent[f.done].CancelOrder? ==> fate == Over)
  {
    hide EngOf, EngineSide, ClientSide, E.OnNew, E.OnCancel, IsVerdict, IsCancelled;
    UnfoldEngineSide(f);
    if f.sent[f.done].NewOrder? {
      NewAnswered(p.engine.inst, s, session, f);
      var (t, m) := E.OnNew(p.engine.inst, s, session, f.sent[f.done]);
      fate :| IsVerdict(f, m, fate) && EngOf(p.engine.inst, t.orders, session) == f.eng[f.sent[f.done].clId := fate];
      EnterKeepsEngineSide(f, m, fate);
      UnfoldEngineSide(Entered(f, m, fate));
      if ClientSide(f) { EnterKeepsClientSide(f, m, fate); }
    } else {
      CancelAnswered(p.engine.inst, s, session, f);
      var m := E.OnCancel(s, session, f.sent[f.done].clId).1;
      fate := Over;
      TakeCancelKeepsEngineSide(f, m);
      UnfoldEngineSide(Entered(f, m, fate));
      if ClientSide(f) { TakeCancelKeepsClientSide(f, m); }
    }
  }

  /** A session on its way out takes no notice. */
  lemma UnheededGood(p: Parties, y: System, svc: int)
    requires ValidParties(p) && Good(p, y) && y.done < |y.cmds| && !Open(y.w) && y.w.s.reading
    ensures Good(p, y.(w := OnRead(p.engine, y.w, Message(Decoded(y.cmds[y.done])), svc, true), done := y.done + 1))
  {
    hide Whole, Inv, Kept, Stays, Symbols, PolicyOnly, Texts, ReportsIn, ReaderFine, ClientFine, EngOf, EngineSide,
        ClientSide, OnMessage;
    var t := y.(w := OnRead(p.engine, y.w, Message(Decoded(y.cmds[y.done])), svc, true), done := y.done + 1);
    ReadKeeps(p.engine, y.w, Message(Decoded(y.cmds[y.done])), svc, true);
    IdleStays(y.w, t.w, p.engine.inst.symbol);
    StaysGood(p, y, t);
  }

  lemma AtSessionGood(p: Parties, y: System, e: Event)
    requires ValidParties(p) && Good(p, y) && Possible(y, AtSession(e))
    ensures Good(p, After(p, y, AtSession(e)))
  {
    hide Good, Whole, Kept, Stays, OnRead, OnWrite, OnCloseDone, OnDrainDone, BeginClose, OnPublish, UntouchedFor;
    assert Whole(y.w) by { GoodWhole(p, y); }
    if e.Others? {
      OthersGood(p, y, e.engine);
    } else if e.Publish? {
      PublishGood(p, y, NextBook(y.w, e.bidPx, e.bidQty, e.askPx, e.askQty));
    } else if Ordinary(e) {
      OrdinaryStays(p.engine, y.w, e, p.engine.inst.symbol);
      NextKeeps(p.engine, y.w, e, true);
      GoodWhole(p, y);
      StaysGood(p, y, After(p, y, AtSession(e)));
    } else if Open(y.w) {
      TakenGood(p, y, e.svc);
    } else {
      UnheededGood(p, y, e.svc);
    }
  }

  lemma GoodWhole(p: Parties, y: System)
    requires Good(p, y)
    ensures Whole(y.w) && y.done <= |y.cmds|
  {
    hide Whole;
  }

  // --- events at the client ----------------------------------------------------------------

  /** The next message of the stream: numbered and stamped as the client expects. */
  lemma NextMessage(y: System)
    requires Whole(y.w) && !y.w.log.encoderFailed && y.read < |Texts(y.w.log.sent)|
    ensures var ws := Texts(y.w.log.sent); var x := ws[y.read]; var t := y.(read := y.read + 1);
            && x.seqNo == y.read + 1 && x.epoch == y.w.s.epoch
            && Seen(t) == Seen(y) + (if x.msg.Tob? then 0 else 1) && Seen(t) <= |y.w.log.pushed|
            && (!x.msg.Tob? ==> y.w.log.pushed[Seen(y)] == x.msg)
  {
    hide Texts, TicksIn, ReportsIn, AckSvcs, Acks, Increasing, Closing, Settled;
    NextReport(Texts(y.w.log.sent), y.read, y.w.log.pushed, y.w.s.out.reports);
  }

  /** A client that has stopped for good lets the frame go by. */
  lemma IgnoredGood(p: Parties, y: System)
    requires ValidParties(p) && Good(p, y) && y.read < |Texts(y.w.log.sent)| && y.d.close.Some? && !y.lost
    ensures Good(p, y.(read := y.read + 1))
  {
    hide Whole, Symbols, PolicyOnly, Texts, ReportsIn, ClientFine, EngOf, EngineSide, ClientSide;
    var t := y.(read := y.read + 1);
    NextMessage(y);
    assert ClientFine(t) by { SameClient(y, t); }
    if Open(y.w) {
      var f := FlowOf(p, y);
      ReadKeepsEngineSide(f, f.(seen := Seen(t)));
      assert FlowOf(p, t) == f.(seen := Seen(t));
    }
  }

  lemma SameClient(y: System, t: System)
    requires ClientFine(y) && t.d.strategy == y.d.strategy
    ensures ClientFine(t)
  {
  }

  /** The first frame of a connection gives the driver its epoch. */
  lemma AdoptGood(p: Parties, y: System)
    requires Good(p, y) && y.d.epoch.None? && !y.lost && y.d.close.None?
    ensures Good(p, y.(d := y.d.(epoch := Some(y.w.s.epoch), strategy := S.OnConnect(y.d.strategy, y.w.s.epoch))))
  {
    hide Whole, Symbols, PolicyOnly, Texts, ReportsIn, EngOf, EngineSide, ClientSide;
    var t := y.(d := y.d.(epoch := Some(y.w.s.epoch), strategy := S.OnConnect(y.d.strategy, y.w.s.epoch)));
    if Open(y.w) { assert FlowOf(p, t) == FlowOf(p, y); }
  }

  /** What one message does to the flow, before and after the driver stamps the commands. */
  lemma MessageFlow(cfg: S.Config, f: Flow, s: S.State, x: Wire, now: int)
    requires Linked(f) && Shows(f, s) && S.Ids(s) && S.NoStaleQuote(s) && InOrder(s, x)
    requires !x.msg.Tob? ==> f.seen < |f.reports| && f.reports[f.seen] == x.msg
    ensures var (t, cmds) := S.OnReport(cfg, s, x, now); Linked(Moved(if x.msg.Tob? then f else Read(f), t, cmds))
  {
    hide Linked, S.Ids, S.SideReady, S.AtTouch, S.ApplyReport, S.OnTob;
    if x.msg.Tob? {
      TobFlow(cfg, f, s, x, now);
    } else {
      var s1 := s.(inSeq := x.seqNo);
      S.SameOrders(s, s1);
      if x.msg.clId in s.orders { ReportFlow(cfg, f, s1, x.msg); } else { SkipFlow(f, s1); }
    }
  }

  /** The driver's answer to a message it acts on. */
  lemma DispatchedFine(p: Parties, y: System, s1: S.State, cmds: seq<S.Cmd>)
    requires CommandsFine(y) && y.d.epoch == Some(y.w.s.epoch)
    ensures var (d, frames) := S.Dispatch(y.d.(strategy := s1), cmds);
            && CommandsFine(y.(d := d, cmds := y.cmds + frames))
            && Msgs(y.cmds + frames) == Msgs(y.cmds) + Sends(cmds) && d.strategy == s1 && d.epoch == y.d.epoch
  {
    hide S.Dispatch;
    var (d, frames) := S.Dispatch(y.d.(strategy := s1), cmds);
    DispatchIs(y.d.(strategy := s1), cmds);
    MsgsAppend(y.cmds, frames);
  }

  lemma ReadInOrder(p: Parties, y: System)
    requires Good(p, y) && y.read < |Texts(y.w.log.sent)| && y.d.close.None? && y.d.epoch.Some? && !y.lost
    ensures InOrder(y.d.strategy, Texts(y.w.log.sent)[y.read])
  {
    hide Whole, Symbols, PolicyOnly, Texts, ReportsIn, ClientFine, FlowFine, TickRead;
    NextMessage(y);
    if Texts(y.w.log.sent)[y.read].msg.Tob? { NeverDecreases(y, y.d.strategy.mdSeq); }
  }

  lemma ReadReaderFine(p: Parties, y: System, now: int)
    requires ValidParties(p) && Good(p, y) && y.read < |Texts(y.w.log.sent)| && y.d.close.None? && y.d.epoch.Some? && !y.lost
    ensures var t := After(p, y, ClientReads(now)); t.read <= |Texts(t.w.log.sent)| && ReaderFine(p, t)
  {
    hide Whole, PolicyOnly, Texts, ReportsIn, ClientFine, FlowFine, TickRead, S.OnReport, S.Dispatch, S.OnTob;
    var x := Texts(y.w.log.sent)[y.read];
    ReadInOrder(p, y);
    NextMessage(y);
    var (s1, cmds) := S.OnReport(p.client, y.d.strategy, x, now);
    DispatchIs(y.d.(strategy := s1), cmds);
    var t := After(p, y, ClientReads(now));
    assert TickRead(t, y.d.strategy.mdSeq) by { TickReadLater(y, t, y.d.strategy.mdSeq); }
    if x.msg.Tob? {
      assert S.OnReport(p.client, y.d.strategy, x, now) == S.OnTob(p.client, y.d.strategy, x, now) by {
        ReportIsTob(p.client, y.d.strategy, x, now);
      }
      TobTouches(p.client, y.d.strategy, x, now);
      assert TickRead(t, x.msg.mdSeq) by { TickJustRead(y, t); }
      assert x.msg.symbol == p.engine.inst.symbol;
    } else {
      MessageTouches(p.client, y.d.strategy, x, now);
    }
  }

  lemma ReportIsTob(cfg: S.Config, s: S.State, x: Wire, now: int)
    requires x.msg.Tob?
    ensures S.OnReport(cfg, s, x, now) == S.OnTob(cfg, s, x, now)
  {
    hide S.OnTob;
  }

  lemma TickReadLater(y: System, t: System, n: nat)
    requires y.read <= t.read <= |Texts(y.w.log.sent)| && t.w == y.w && TickRead(y, n)
    ensures TickRead(t, n)
  {
    hide Texts;
  }

  lemma TickJustRead(y: System, t: System)
    requires y.read < |Texts(y.w.log.sent)| && t.w == y.w && t.read == y.read + 1 && Texts(y.w.log.sent)[y.read].msg.Tob?
    ensures TickRead(t, Texts(y.w.log.sent)[y.read].msg.mdSeq)
  {
    hide Texts;
  }

  /** A client that is following reads the next message. */
  lemma FollowedGood(p: Parties, y: System, now: int)
    requires ValidParties(p) && Good(p, y) && y.read < |Texts(y.w.log.sent)| && y.d.close.None? && y.d.epoch.Some? && !y.lost
    ensures Good(p, After(p, y, ClientReads(now)))
  {
    hide Whole, Symbols, PolicyOnly, Texts, ReportsIn, S.Ids, S.NoStaleQuote, EngOf, EngineSide, ClientSide,
        CommandsFine, ReaderFine, S.OnReport, S.Dispatch, TickRead, InOrder, Clean;
    var x := Texts(y.w.log.sent)[y.read];
    ReadInOrder(p, y);
    NextMessage(y);
    ReadReaderFine(p, y, now);
    var s := y.d.strategy;
    var (s1, cmds) := S.OnReport(p.client, s, x, now);
    assert CommandsFine(y) && y.d.epoch == Some(y.w.s.epoch) by { EpochKnown(p, y); }
    DispatchedFine(p, y, s1, cmds);
    CommandsRead(p, y, now);
    assert !s.stopped by { FollowingRuns(p, y); }
    S.ReactSettles(p.client, s, S.Message(x, now));
    var t := After(p, y, ClientReads(now));
    if Open(y.w) {
      MessageFlow(p.client, FlowOf(p, y), s, x, now);
      assert FlowOf(p, t) == Moved(if x.msg.Tob? then FlowOf(p, y) else Read(FlowOf(p, y)), s1, cmds);
    }
  }

  lemma EpochKnown(p: Parties, y: System)
    requires Good(p, y) && y.d.epoch.Some?
    ensures y.d.epoch == Some(y.w.s.epoch)
  {
  }

  lemma FollowingRuns(p: Parties, y: System)
    requires Good(p, y) && y.d.close.None? && !y.lost
    ensures !y.d.strategy.stopped
  {
  }

  lemma CommandsRead(p: Parties, y: System, now: int)
    requires ValidParties(p) && y.read < |Texts(y.w.log.sent)| && y.d.close.None? && y.d.epoch.Some? && !y.lost
    ensures var (s1, cmds) := S.OnReport(p.client, y.d.strategy, Texts(y.w.log.sent)[y.read], now);
            var (d, frames) := S.Dispatch(y.d.(strategy := s1), cmds);
            After(p, y, ClientReads(now)) == y.(d := d, cmds := y.cmds + frames, read := y.read + 1)
            && (CommandsFine(y.(d := d, cmds := y.cmds + frames)) ==> CommandsFine(After(p, y, ClientReads(now))))
  {
    hide S.OnReport, S.Dispatch, Texts;
  }

  lemma ClientReadsGood(p: Parties, y: System, now: int)
    requires ValidParties(p) && Good(p, y) && Possible(y, ClientReads(now))
    ensures Good(p, After(p, y, ClientReads(now)))
  {
    hide Good, S.OnReport, S.Dispatch, Texts, S.OnConnect;
    if y.d.close.Some? {
      IgnoredGood(p, y);
      assert y.cmds + [] == y.cmds;
    } else if y.d.epoch.None? {
      AdoptGood(p, y);
      var y1 := y.(d := y.d.(epoch := Some(y.w.s.epoch), strategy := S.OnConnect(y.d.strategy, y.w.s.epoch)));
      FollowedGood(p, y1, now);
      assert Texts(y.w.log.sent)[y.read].epoch == y.w.s.epoch by { FirstEpoch(p, y); }
    } else {
      FollowedGood(p, y, now);
    }
  }

  lemma FirstEpoch(p: Parties, y: System)
    requires Good(p, y) && y.read < |Texts(y.w.log.sent)|
    ensures Texts(y.w.log.sent)[y.read].epoch == y.w.s.epoch
  {
    hide Whole;
    NextMessage(y);
  }

  /** The sweep: everything resting is cancelled, and a client still quoting says why it stops. */
  lemma SweptCommands(cfg: S.Config, s: S.State, now: int)
    requires !s.swept && s.lastTobNs.Some? && now - s.lastTobNs.value > cfg.staleNs
    ensures var (t, cmds) := S.OnTimer(cfg, s, now);
            var s1 := s.(stopped := true, swept := true);
            var (s2, cancels) := S.CancelAll(s1, S.Resting(s1, s1.arrival));
            && t == s2 && SameRest(s1, t) && Sends(cmds) == Sends(cancels)
            && (StopsIn(cmds) <==> !s.stopped)
            && (forall c :: c in cmds && c.StopQuoting? ==> c.reason.StaleFeed?)
  {
    hide S.CancelAll, S.Resting;
    var s1 := s.(stopped := true, swept := true);
    var (s2, cancels) := S.CancelAll(s1, S.Resting(s1, s1.arrival));
    CancelAllTouches(s1, S.Resting(s1, s1.arrival));
    var announced := if s.stopped then [] else [S.StopQuoting(S.StaleFeed(now - s.lastTobNs.value, cfg.staleNs))];
    SendsAppend(announced, cancels);
    if !s.stopped { SendsOne(announced[0]); assert announced[0] in announced + cancels; }
  }

  lemma SweptGood(p: Parties, y: System, now: int)
    requires ValidParties(p) && Good(p, y) && S.DriverInv(y.d)
    requires var s := y.d.strategy; !s.swept && s.lastTobNs.Some? && now - s.lastTobNs.value > p.client.staleNs
    ensures Good(p, After(p, y, ClientTimer(now)))
  {
    hide Whole, Symbols, PolicyOnly, Texts, ReportsIn, S.Ids, S.NoStaleQuote, EngOf, EngineSide, ClientSide,
        CommandsFine, S.OnTimer, S.Dispatch, TickRead, Clean, S.StopCode;
    var s := y.d.strategy;
    var (t, cmds) := S.OnTimer(p.client, s, now);
    SweptCommands(p.client, s, now);
    EpochKnown(p, y);
    DispatchedFine(p, y, t, cmds);
    DispatchIs(y.d.(strategy := t), cmds);
    forall c | c in cmds && c.StopQuoting? ensures S.StopCode(c.reason) == S.CLOSE_STALE { S.StaleAloneIs4000(c.reason); }
    S.ReactSettles(p.client, s, S.Timer(now));
    if Open(y.w) {
      var s1 := s.(stopped := true, swept := true);
      SweepFlow(FlowOf(p, y), s1, S.Resting(s1, s1.arrival));
      assert FlowOf(p, After(p, y, ClientTimer(now))) == Moved(FlowOf(p, y), t, cmds);
    }
  }

  lemma ClientTimerGood(p: Parties, y: System, now: int)
    requires ValidParties(p) && Good(p, y) && S.DriverInv(y.d)
    ensures Good(p, After(p, y, ClientTimer(now)))
  {
    hide Good;
    var s := y.d.strategy;
    if !s.swept && s.lastTobNs.Some? && now - s.lastTobNs.value > p.client.staleNs {
      SweptGood(p, y, now);
    } else {
      assert S.OnTimer(p.client, s, now) == (s, []);
      assert y.cmds + [] == y.cmds;
    }
  }

  lemma ClientLostGood(p: Parties, y: System)
    requires ValidParties(p) && Good(p, y)
    ensures Good(p, After(p, y, ClientLost))
  {
    hide Whole, Symbols, PolicyOnly, Texts, ReportsIn, EngOf, EngineSide, ClientSide, CommandsFine, TickRead, Clean;
    var t := After(p, y, ClientLost);
    assert CommandsFine(t) by { LostCommands(y, t); }
    if Open(y.w) {
      var f := FlowOf(p, y);
      UnfoldEngineSide(f);
      ReadKeepsEngineSide(f, f.(orders := map[]));
      assert FlowOf(p, t) == f.(orders := map[]);
    }
  }

  lemma LostCommands(y: System, t: System)
    requires CommandsFine(y) && t.cmds == y.cmds && t.w == y.w && t.done == y.done && t.d.outSeq == y.d.outSeq
    ensures CommandsFine(t)
  {
  }

  lemma StepGood(p: Parties, y: System, x: Step)
    requires ValidParties(p) && Good(p, y) && Possible(y, x)
    ensures Good(p, After(p, y, x))
  {
    hide Good, After, Enabled, S.DriverInv;
    match x
    case AtSession(e) => AtSessionGood(p, y, e);
    case ClientReads(now) => ClientReadsGood(p, y, now);
    case ClientTimer(now) => ClientTimerGood(p, y, now);
    case ClientLost => ClientLostGood(p, y);
  }

  lemma StartGood(p: Parties, y: System)
    requires ValidParties(p) && IsStart(y.w) && y == System(y.w, S.NEW_DRIVER, [], 0, 0, false)
    ensures Good(p, y)
  {
    hide EngOf;
    StartIsWhole(y.w);
    forall id ensures id !in EngOf(p.engine.inst, y.w.engine.orders, y.w.s.epoch) {
      EngAt(p.engine.inst, y.w.engine.orders, y.w.s.epoch, id);
    }
  }

  lemma {:induction false} AlwaysGood(p: Parties, ys: seq<System>, xs: seq<Step>, i: nat)
    requires ValidParties(p) && IsComposedRun(p, ys, xs) && i < |ys|
    ensures Good(p, ys[i])
  {
    hide Good, After, Possible, IsStart;
    if i == 0 {
      StartGood(p, ys[0]);
    } else {
      AlwaysGood(p, ys, xs, i - 1);
      StepGood(p, ys[i - 1], xs[i - 1]);
    }
  }

  // --- what the two can rely on ------------------------------------------------------------

  /** In every run, the engine never answers this client that it holds too many live orders, reuses an
      id, cancels an unknown order or speaks for another epoch; the session never finds a gap in its
      commands, and closes for policy or shutdown alone. */
  lemma EngineNeverComplains(p: Parties, ys: seq<System>, xs: seq<Step>, i: nat)
    requires ValidParties(p) && IsComposedRun(p, ys, xs) && i < |ys|
    ensures var y := ys[i];
            && (forall m :: m in y.w.log.pushed && m.Reject? ==>
                  m.code !in [MaxLiveOrders, DupClOrdId, UnknownClOrdId, StaleEpoch])
            && (Open(y.w) && y.done < |y.cmds| ==>
                  y.cmds[y.done].seqNo == y.w.s.inSeqExpected && y.cmds[y.done].epoch == y.w.s.epoch)
            && (y.w.s.closing ==> y.w.s.closeCode in [POLICY_ERROR, GOING_AWAY])
  {
    hide Whole, IsComposedRun, EngOf, EngineSide, ClientSide;
    AlwaysGood(p, ys, xs, i);
  }

  /** The client never stops on a sequence gap or a decreasing md_seq: on its own instrument, the only
      close it asks for is that of the stale feed. */
  lemma ClientNeverLosesCount(p: Parties, ys: seq<System>, xs: seq<Step>, i: nat)
    requires ValidParties(p) && IsComposedRun(p, ys, xs) && i < |ys|
    ensures var y := ys[i];
            && (y.d.close.Some? && p.client.symbol == p.engine.inst.symbol ==> y.d.close == Some(S.CLOSE_STALE))
            && (!y.d.strategy.stopped ==> y.d.strategy.inSeq == y.read)
  {
    hide Whole, IsComposedRun, EngOf, EngineSide, ClientSide, TickRead;
    AlwaysGood(p, ys, xs, i);
  }

  predicate Quoting(y: System) { Open(y.w) && !y.d.strategy.stopped }

  lemma QuotingLinked(p: Parties, y: System)
    requires Good(p, y) && Quoting(y)
    ensures y.read <= |Texts(y.w.log.sent)| && Linked(FlowOf(p, y))
  {
    hide Whole, EngOf, Linked, Symbols, Texts, ReportsIn;
  }

  /** Two orders of one side, both being cancelled or neither. */
  predicate SameRole(orders: map<string, S.ClientOrder>, a: string, b: string)
    requires a in orders && b in orders
  {
    S.SideOf(a) == S.SideOf(b) && (orders[a].state == S.PendingCancel <==> orders[b].state == S.PendingCancel)
  }

  /** While the session is open and the client quoting, whatever the engine holds live the client has in
      its map; the map never exceeds four, per side one order in flight or live and one being cancelled. */
  lemma NothingLiveUnknown(p: Parties, ys: seq<System>, xs: seq<Step>, i: nat)
    requires ValidParties(p) && IsComposedRun(p, ys, xs) && i < |ys| && Quoting(ys[i])
    ensures var y := ys[i]; var map_ := y.d.strategy.orders;
            && (forall k :: k in E.LiveOf(y.w.engine.orders, y.w.s.epoch) ==> k.clId in map_)
            && |map_| <= 4
            && (forall a, b :: a in map_ && b in map_ && SameRole(map_, a, b) ==> a == b)
  {
    hide Good, IsComposedRun, Linked, EngOf, Texts, ReportsIn, S.SideOf;
    AlwaysGood(p, ys, xs, i);
    var y := ys[i];
    QuotingLinked(p, y);
    var f := FlowOf(p, y);
    AtMostFour(f);
    forall k | k in E.LiveOf(y.w.engine.orders, y.w.s.epoch) ensures k.clId in f.orders {
      EngAt(p.engine.inst, y.w.engine.orders, y.w.s.epoch, k.clId);
      assert k == E.Key(y.w.s.epoch, k.clId);
      RestingIsMapped(f, k.clId);
    }
    forall a, b | a in f.orders && b in f.orders && SameRole(f.orders, a, b) ensures a == b { OnePerSide(f, a, b); }
  }

  /** Nothing on its way either way: both channels empty, nothing queued, nothing being written. */
  predicate Quiescent(y: System) {
    y.done == |y.cmds| && y.read == |Texts(y.w.log.sent)| && Depth(y.w.s.out) == 0
  }

  lemma AllSeen(p: Parties, y: System)
    requires Good(p, y) && Quiescent(y)
    ensures Seen(y) == |y.w.log.pushed|
  {
    hide Texts, ReportsIn, TicksIn, AckSvcs, Acks, Increasing, Closing, Symbols, ReaderFine, ClientFine, FlowFine;
    assert Texts(y.w.log.sent)[..y.read] == Texts(y.w.log.sent);
  }

  /** Then the client's map is exactly the engine's live set, every order live and at the engine's price. */
  lemma AgreeAtRest(p: Parties, ys: seq<System>, xs: seq<Step>, i: nat)
    requires ValidParties(p) && IsComposedRun(p, ys, xs) && i < |ys| && Quoting(ys[i]) && Quiescent(ys[i])
    ensures var y := ys[i]; var live := E.LiveOf(y.w.engine.orders, y.w.s.epoch); var map_ := y.d.strategy.orders;
            && (forall id :: id in map_ <==> E.Key(y.w.s.epoch, id) in live)
            && (forall id :: id in map_ ==>
                 map_[id] == S.ClientOrder(ToRawPx(p.engine.inst, y.w.engine.orders[E.Key(y.w.s.epoch, id)].px), S.Live))
  {
    hide Good, IsComposedRun, Linked, EngOf, Texts, ReportsIn;
    AlwaysGood(p, ys, xs, i);
    var y := ys[i];
    QuotingLinked(p, y);
    AllSeen(p, y);
    var f := FlowOf(p, y);
    AtRest(f);
    var orders := y.w.engine.orders;
    forall id ensures var key := E.Key(y.w.s.epoch, id);
      && (id in f.orders <==> key in E.LiveOf(orders, y.w.s.epoch))
      && (id in f.orders ==> f.orders[id] == S.ClientOrder(ToRawPx(p.engine.inst, orders[key].px), S.Live))
    {
      EngAt(p.engine.inst, orders, y.w.s.epoch, id);
    }
  }
}
