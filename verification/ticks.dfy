/** What a tick carries: the book it was made from, from the feed to the wire
    (cpp/src/server.cpp:452-496, cpp/src/session.cpp:361-439). */
module SessionTicks {
  import opened Text
  import opened Protocol
  import opened SessionSpec
  import opened SessionRuns
  import opened SessionEffects
  import opened CloseReasons
  import E = EngineSpec

  predicate Written(sent: seq<Sent>, m: OutMsg) { exists i :: 0 <= i < |Texts(sent)| && Texts(sent)[i].msg == m }

  /** A tick the session holds or has written. */
  predicate Carried(w: World, m: OutMsg) { m.Tob? && (w.s.out.tob == Some(m) || Written(w.log.sent, m)) }

  /** Only an order ack goes out with a service time. */
  predicate SvcOnAcks(sent: seq<Sent>) {
    forall i :: 0 <= i < |Texts(sent)| ==> Texts(sent)[i].msg.OrderAck? || Texts(sent)[i].svc == 0
  }

  lemma SvcOnly(sent: seq<Sent>, k: nat)
    requires SvcOnAcks(sent) && k < |Texts(sent)|
    ensures Texts(sent)[k].msg.OrderAck? || Texts(sent)[k].svc == 0
  {
  }

  predicate Sorted(w: World) {
    && (forall m :: m in w.s.out.reports ==> !m.Tob?)
    && (w.s.out.tob.Some? ==> w.s.out.tob.value.Tob?)
  }

  /** The last tick of a stream. */
  function LastTick(ws: seq<Wire>): Option<OutMsg> {
    if ws == [] then None
    else if ws[|ws| - 1].msg.Tob? then Some(ws[|ws| - 1].msg)
    else LastTick(ws[..|ws| - 1])
  }

  /** The newest tick of the session: the pending one, or else the last written. */
  function Newest(w: World): Option<OutMsg> { if w.s.out.tob.Some? then w.s.out.tob else LastTick(Texts(w.log.sent)) }

  /** A move that makes no tick: none appears, and while the session stays open the newest is the same. */
  ghost predicate Hands(w: World, t: World) {
    && (Sorted(w) ==> Sorted(t) && (forall m :: Carried(t, m) ==> Carried(w, m)))
    && (SvcOnAcks(w.log.sent) ==> SvcOnAcks(t.log.sent))
    && t.log.ticks == w.log.ticks && t.mdSeq == w.mdSeq && t.s.epoch == w.s.epoch
    && (Open(t) ==> Open(w) && (Sorted(w) ==> Newest(t) == Newest(w)))
    && t.engine.book == w.engine.book && t.engine.bookSeen == w.engine.bookSeen
  }

  lemma HandsOn(a: World, b: World, c: World)
    requires Hands(a, b) && Hands(b, c)
    ensures Hands(a, c)
  {
    hide Sorted, Carried, Newest, SvcOnAcks;
  }

  /** Moves of flags and counters alone. */
  lemma SameHands(w: World, t: World)
    requires t.s.out == w.s.out && t.log.sent == w.log.sent && t.log.ticks == w.log.ticks && t.mdSeq == w.mdSeq
    requires t.s.epoch == w.s.epoch && (Open(t) ==> Open(w))
    requires t.engine.book == w.engine.book && t.engine.bookSeen == w.engine.bookSeen
    ensures Hands(w, t)
  {
    hide SvcOnAcks, Texts, LastTick;
  }

  lemma WrittenAppend(sent: seq<Sent>, x: Sent)
    ensures forall m :: Written(sent + [x], m) <==> Written(sent, m) || (x.Text? && x.wire.msg == m)
    ensures LastTick(Texts(sent + [x])) == if x.Text? && x.wire.msg.Tob? then Some(x.wire.msg) else LastTick(Texts(sent))
    ensures SvcOnAcks(sent) && (x.Text? ==> x.wire.msg.OrderAck? || x.wire.svc == 0) ==> SvcOnAcks(sent + [x])
  {
    hide Texts;
    TextsAppend(sent, x);
    var a, b := Texts(sent), Texts(sent + [x]);
    if x.Text? {
      assert b[..|a|] == a && b[|a|] == x.wire;
      forall m | Written(sent, m) ensures Written(sent + [x], m) { var i :| 0 <= i < |a| && a[i].msg == m; assert b[i].msg == m; }
    } else {
      assert b == a;
    }
  }

  lemma SendCloseHands(w: World)
    ensures Hands(w, SendCloseFrame(w))
  {
    hide SvcOnAcks, Texts, LastTick, Written;
    WrittenAppend(w.log.sent, CloseFrame(w.s.closeCode));
  }

  lemma LatchHands(w: World, code: nat, drain: bool)
    ensures Hands(w, LatchClose(w, code, drain)) && Hands(w, RetireEpoch(w))
  {
    hide SvcOnAcks, Texts, LastTick;
  }

  lemma WriteHands(w: World, m: OutMsg, rest: Outbox, encodes: bool)
    requires Pop(w.s.out) == (Some(m), rest)
    ensures Hands(w, Write(WithOut(w, rest), m, encodes))
  {
    hide SvcOnAcks, Texts, LastTick, Written, LatchClose, SendCloseFrame;
    if encodes {
      WrittenAppend(w.log.sent, Text(Stamp(w.s.(out := rest), m)));
      assert w.s.out.reports != [] ==> m in w.s.out.reports;
    } else {
      FailedHands(w, m, rest);
    }
  }

  lemma FailedHands(w: World, m: OutMsg, rest: Outbox)
    requires Pop(w.s.out) == (Some(m), rest)
    ensures Hands(w, Write(WithOut(w, rest), m, false))
  {
    hide SvcOnAcks, Texts, LastTick, Written, LatchClose, SendCloseFrame;
    var w1 := WithOut(w, rest).(s := Stamped(w.s.(out := rest), m), log := w.log.(encoderFailed := true));
    var w2 := LatchClose(w1, INTERNAL_ERROR, false);
    LatchHands(w1, INTERNAL_ERROR, false);
    SendCloseHands(w2);
    HandsOn(w1, w2, SendCloseFrame(w2));
    assert !Open(w2) by { hide *; Latched(w1, INTERNAL_ERROR, false); }
    assert Sorted(w) ==> Sorted(w1);
    assert forall x :: Carried(w1, x) ==> Carried(w, x);
  }

  lemma Latched(w: World, code: nat, drain: bool)
    ensures !Open(LatchClose(w, code, drain)) && (!Open(SendCloseFrame(w)) <==> !Open(w))
  {
  }

  lemma {:induction false} PumpHands(w: World, encodes: bool)
    ensures Hands(w, Pump(w, encodes))
    decreases Depth(w.s.out)
  {
    hide Write, SendCloseFrame, Hands, Texts;
    SameHands(w, w);
    SendCloseHands(w);
    var (m, rest) := Pop(w.s.out);
    if m.Some? && !(w.s.writeInflight || w.s.tornDown || w.s.closeFrameSent || (w.s.closing && !w.s.drainThenClose)) {
      if w.s.closing && m.value.Tob? {
        DiscardHands(w, rest);
        PumpHands(Discarded(w, rest), encodes);
        HandsOn(w, Discarded(w, rest), Pump(Discarded(w, rest), encodes));
      } else {
        WriteHands(w, m.value, rest, encodes);
      }
    }
  }

  lemma DiscardHands(w: World, rest: Outbox)
    requires w.s.closing && Pop(w.s.out).1 == rest
    ensures Hands(w, Discarded(w, rest))
  {
    hide SvcOnAcks, Texts, LastTick, Written;
  }

  lemma BeginCloseHands(w: World, code: nat, encodes: bool)
    ensures Hands(w, BeginClose(w, code, encodes))
  {
    hide LatchClose, Pump, Hands, Texts;
    var drain := code == POLICY_ERROR || code == GOING_AWAY;
    SameHands(w, w);
    LatchHands(w, code, drain);
    PumpHands(LatchClose(w, code, drain), encodes);
    HandsOn(w, LatchClose(w, code, drain), Pump(LatchClose(w, code, drain), encodes));
  }

  lemma TeardownHands(w: World, code: nat)
    ensures Hands(w, Teardown(w, code))
  {
    hide RetireEpoch, Texts;
    SameHands(w, w.(s := w.s.(tornDown := true)));
    LatchHands(w.(s := w.s.(tornDown := true)), code, false);
  }

  lemma EnqueueHands(cfg: Config, w: World, m: OutMsg, encodes: bool)
    requires !m.Tob?
    ensures Hands(w, EnqueueReport(cfg, w, m, encodes))
  {
    hide SvcOnAcks, BeginClose, Texts, LastTick, Written;
    var w1 := Enqueued(w, m);
    assert Hands(w, w1);
    hide Hands;
    BeginCloseHands(w1, POLICY_ERROR, encodes);
    HandsOn(w, w1, BeginClose(w1, POLICY_ERROR, encodes));
  }

  lemma PushedHands(cfg: Config, w: World, m: OutMsg, encodes: bool)
    requires !m.Tob?
    ensures Hands(w, Pump(EnqueueReport(cfg, w, m, encodes), encodes)) && Hands(w, DeliverReport(cfg, w, m, encodes))
  {
    hide EnqueueReport, Pump, Hands;
    var w1 := EnqueueReport(cfg, w, m, encodes);
    EnqueueHands(cfg, w, m, encodes);
    PumpHands(w1, encodes);
    HandsOn(w, w1, Pump(w1, encodes));
    SameHands(w, w);
  }

  lemma {:induction false} AllHands(cfg: Config, w: World, routed: seq<E.Routed>, encodes: bool)
    requires forall r :: r in routed ==> !r.msg.Tob?
    ensures Hands(w, DeliverAll(cfg, w, routed, encodes))
  {
    hide DeliverReport, Hands;
    SameHands(w, w);
    if routed != [] {
      var w1, last := DeliverAll(cfg, w, routed[..|routed| - 1], encodes), routed[|routed| - 1];
      assert last in routed;
      AllHands(cfg, w, routed[..|routed| - 1], encodes);
      if last.session == w.s.epoch {
        PushedHands(cfg, w1, last.msg, encodes);
        HandsOn(w, w1, DeliverReport(cfg, w1, last.msg, encodes));
      }
    }
  }

  // --- events that bring no book -----------------------------------------------------------

  lemma MessageHands(cfg: Config, w: World, f: Frame, svc: int, encodes: bool)
    requires ValidConfig(cfg)
    ensures Hands(w, OnMessage(cfg, w, f, svc, encodes))
  {
    hide EnqueueReport, Pump, BeginClose, Hands;
    if Gap(w, f) {
      var w1 := BeginClose(w, PROTOCOL_ERROR, encodes);
      BeginCloseHands(w, PROTOCOL_ERROR, encodes);
      PumpHands(w1, encodes);
      HandsOn(w, w1, Pump(w1, encodes));
    } else {
      hide OnMessage;
      var v, m := Reply(cfg, w, f, svc, encodes);
      PushedHands(cfg, v, m, encodes);
      SameHands(w, v);
      HandsOn(w, v, Pump(EnqueueReport(cfg, v, m, encodes), encodes));
    }
  }

  lemma ReadHands(cfg: Config, w: World, r: ReadResult, svc: int, encodes: bool)
    requires ValidConfig(cfg)
    ensures Hands(w, OnRead(cfg, w, r, svc, encodes))
  {
    hide BeginClose, OnMessage, Teardown, LatchClose, CloseThenDrain, Hands;
    var w1 := w.(s := w.s.(reading := false));
    SameHands(w, w1);
    if !w.s.tornDown {
      match r {
        case Binary =>
          BeginCloseHands(w1, PROTOCOL_ERROR, encodes);
          RearmHands(w, w1, if w1.s.closing then w1 else BeginClose(w1, PROTOCOL_ERROR, encodes));
        case Message(f) =>
          MessageHands(cfg, w1, f, svc, encodes);
          RearmHands(w, w1, if w1.s.closing then w1 else OnMessage(cfg, w1, f, svc, encodes));
        case TooBig =>
          if w.s.closing { EndHands(w, w1, w.s.closeCode); } else { OversizeHands(w, w1); }
        case _ => EndHands(w, w1, if w.s.closing then w.s.closeCode else Verdict(ReadDone(r, svc)).value);
      }
    }
  }

  lemma RearmHands(w: World, w1: World, t: World)
    requires Hands(w, w1) && (t == w1 || Hands(w1, t))
    ensures Hands(w, ReadNext(t))
  {
    hide Hands;
    if t != w1 { HandsOn(w, w1, t); }
    SameHands(t, ReadNext(t));
    HandsOn(w, t, ReadNext(t));
  }

  lemma EndHands(w: World, w1: World, code: nat)
    requires Hands(w, w1)
    ensures Hands(w, Teardown(w1, code))
  {
    hide Hands, Teardown;
    TeardownHands(w1, code);
    HandsOn(w, w1, Teardown(w1, code));
  }

  lemma OversizeHands(w: World, w1: World)
    requires Hands(w, w1)
    ensures Hands(w, CloseThenDrain(LatchClose(w1, TOO_BIG, false)))
  {
    hide Hands, LatchClose;
    var w2 := LatchClose(w1, TOO_BIG, false);
    LatchHands(w1, TOO_BIG, false);
    HandsOn(w, w1, w2);
    FrameHands(w2);
    HandsOn(w, w2, CloseThenDrain(w2));
  }

  lemma FrameHands(w: World)
    ensures Hands(w, CloseThenDrain(w))
  {
    hide SvcOnAcks, Texts, LastTick, Written;
    WrittenAppend(w.log.sent, CloseFrame(TOO_BIG));
  }

  lemma WrittenHands(w: World, ok: bool, timedOut: bool, aborted: bool, encodes: bool)
    ensures Hands(w, OnWrite(w, ok, timedOut, aborted, encodes))
  {
    hide Pump, Teardown, Hands;
    var w1 := w.(s := w.s.(writeInflight := false), log := w.log.(completions := w.log.completions + 1));
    SameHands(w, w1);
    if ok {
      PumpHands(w1, encodes);
      HandsOn(w, w1, Pump(w1, encodes));
    } else {
      EndHands(w, w1, if w.s.closing then w.s.closeCode else Verdict(WriteDone(ok, timedOut, aborted)).value);
    }
  }

  lemma OtherHands(cfg: Config, w: World, e: Event, encodes: bool)
    requires ValidConfig(cfg) && Enabled(w, e) && !e.Publish?
    ensures Hands(w, Next(cfg, w, e, encodes))
  {
    hide OnRead, OnWrite, BeginClose, Teardown, Hands;
    match e
    case ReadDone(r, svc) => ReadHands(cfg, w, r, svc, encodes);
    case WriteDone(ok, timedOut, aborted) => WrittenHands(w, ok, timedOut, aborted, encodes);
    case CloseDone(ok) =>
      var w1 := w.(s := w.s.(closeOp := NoOp));
      SameHands(w, w1);
      SameHands(w, w1.(s := w1.s.(draining := true)));
      EndHands(w, w1, w1.s.closeCode);
    case DrainDone(ok) =>
      var w1 := w.(s := w.s.(draining := false));
      SameHands(w, w);
      SameHands(w, w1);
      EndHands(w, w1, w1.s.closeCode);
    case CloseRequest(code) => BeginCloseHands(w, code, encodes);
    case Others(engine) => SameHands(w, w.(engine := engine));
  }

  // --- a book ------------------------------------------------------------------------------

  /** The tick a book goes out as. */
  function TickFor(symbol: string, e: Event, mdSeq: nat): OutMsg
    requires e.Publish?
  {
    Tob(mdSeq, symbol, e.bidPx, e.bidQty, e.askPx, e.askQty)
  }

  /** A book's tick is the one new tick the session holds, and its newest while it stays open. */
  ghost predicate Brings(w: World, t: World, tick: OutMsg) {
    && (Sorted(w) ==> Sorted(t) && (forall m :: Carried(t, m) ==> Carried(w, m) || m == tick))
    && (SvcOnAcks(w.log.sent) ==> SvcOnAcks(t.log.sent))
    && (Open(t) ==> Open(w) && t.log.ticks > 0 && (Sorted(w) ==> Newest(t) == Some(tick)))
    && t.mdSeq == w.mdSeq && t.s.epoch == w.s.epoch
    && t.engine.book == w.engine.book && t.engine.bookSeen == w.engine.bookSeen
  }

  lemma TickedBrings(w: World, tick: OutMsg, encodes: bool)
    requires tick.Tob?
    ensures Brings(w, DeliverTob(w, tick, encodes), tick)
  {
    hide SvcOnAcks, Pump, Texts, LastTick, Written;
    if Open(w) { PumpHands(Ticked(w, tick), encodes); }
  }

  lemma HandedBrings(a: World, b: World, c: World, tick: OutMsg)
    requires Hands(a, b) && Brings(b, c, tick)
    ensures Brings(a, c, tick)
  {
    hide Sorted, Carried, Newest, SvcOnAcks;
  }

  /** The book as the engine has it by the time its fills go out. */
  function Booked(w: World, engine: E.State): World { w.(engine := engine, mdSeq := w.mdSeq + 1) }

  lemma PublishBrings(cfg: Config, w: World, e: Event, encodes: bool)
    requires e.Publish? && w.engine.book.mdSeq <= w.mdSeq
    ensures var b := NextBook(w, e.bidPx, e.bidQty, e.askPx, e.askQty);
            var w1 := Booked(w, E.OnBook(cfg.inst, w.engine, b).0);
            && Brings(w1, OnPublish(cfg, w, b, encodes), TickFor(cfg.inst.symbol, e, w.mdSeq + 1))
            && w1.engine.book == b && w1.engine.bookSeen
  {
    hide DeliverAll, DeliverTob, Hands, E.OnBook;
    var b := NextBook(w, e.bidPx, e.bidQty, e.askPx, e.askQty);
    FillsAreReports(cfg.inst, w.engine, b);
    var (engine, routed) := E.OnBook(cfg.inst, w.engine, b);
    assert engine.book == b && engine.bookSeen by { BookTaken(cfg.inst, w.engine, b); }
    var w1 := Booked(w, engine);
    if !w.s.tornDown {
      var w2 := DeliverAll(cfg, w1, routed, encodes);
      AllHands(cfg, w1, routed, encodes);
      TickedBrings(w2, TickOf(cfg, b), encodes);
      HandedBrings(w1, w2, DeliverTob(w2, TickOf(cfg, b), encodes), TickOf(cfg, b));
    }
  }

  lemma BookTaken(inst: Instrument, s: E.State, b: E.Book)
    requires b.mdSeq > s.book.mdSeq
    ensures E.OnBook(inst, s, b).0.book == b && E.OnBook(inst, s, b).0.bookSeen
  {
  }

  // --- every run ---------------------------------------------------------------------------

  /** This tick is the book that event made, under the number that event gave it: the symbol of the
      instrument and the event's four values. */
  ghost predicate MadeBy(cfg: Config, w: World, e: Event, m: OutMsg) {
    e.Publish? && m == Tob(w.mdSeq + 1, cfg.inst.symbol, e.bidPx, e.bidQty, e.askPx, e.askQty)
  }

  /** The engine's book is the newest tick of an open session, from the first book on. */
  ghost predicate UpToDate(cfg: Config, w: World) {
    && Sorted(w) && SvcOnAcks(w.log.sent) && w.engine.book.mdSeq <= w.mdSeq
    && (Open(w) ==> (Newest(w).Some? <==> w.log.ticks > 0))
    && (Open(w) && w.log.ticks > 0 ==>
         var b := w.engine.book;
         w.engine.bookSeen && Newest(w) == Some(Tob(b.mdSeq, cfg.inst.symbol, b.bidPx, b.bidQty, b.askPx, b.askQty)))
  }

  lemma NextUpToDate(cfg: Config, w: World, e: Event, encodes: bool)
    requires ValidConfig(cfg) && Enabled(w, e) && UpToDate(cfg, w)
    ensures var t := Next(cfg, w, e, encodes);
            && UpToDate(cfg, t) && t.mdSeq == w.mdSeq + (if e.Publish? then 1 else 0)
            && (forall m :: Carried(t, m) ==> Carried(w, m) || MadeBy(cfg, w, e, m))
            && (e.Publish? && Open(t) ==> Newest(t).Some?)
            && (!e.Publish? && Open(t) ==> Newest(t) == Newest(w))
  {
    hide Next, Enabled, Newest, Sorted, Carried;
    if e.Publish? {
      PublishBrings(cfg, w, e, encodes);
      var b := NextBook(w, e.bidPx, e.bidQty, e.askPx, e.askQty);
      var w1 := Booked(w, E.OnBook(cfg.inst, w.engine, b).0);
      SameTicks(w, w1);
      assert Next(cfg, w, e, encodes) == OnPublish(cfg, w, b, encodes) by { NextIsPublish(cfg, w, e, encodes); }
    } else {
      OtherHands(cfg, w, e, encodes);
    }
  }

  lemma NextIsPublish(cfg: Config, w: World, e: Event, encodes: bool)
    requires ValidConfig(cfg) && e.Publish?
    ensures Next(cfg, w, e, encodes) == OnPublish(cfg, w, NextBook(w, e.bidPx, e.bidQty, e.askPx, e.askQty), encodes)
  {
    hide OnPublish;
  }

  lemma SameTicks(w: World, t: World)
    requires t.s == w.s && t.log == w.log
    ensures Sorted(t) == Sorted(w) && Newest(t) == Newest(w) && forall m :: Carried(t, m) <==> Carried(w, m)
  {
    hide SvcOnAcks, Texts, LastTick, Written;
  }

  lemma {:induction false} AlwaysUpToDate(cfg: Config, ws: seq<World>, hs: seq<Happening>, i: nat)
    requires ValidConfig(cfg) && IsRun(cfg, ws, hs) && i < |ws|
    ensures UpToDate(cfg, ws[i])
    ensures forall m :: Carried(ws[i], m) ==> exists j :: 0 <= j < i && MadeBy(cfg, ws[j], hs[j].event, m)
  {
    hide Next, Enabled, Newest, Sorted, Carried, MadeBy;
    if i == 0 {
      StartUpToDate(cfg, ws[0]);
    } else {
      AlwaysUpToDate(cfg, ws, hs, i - 1);
      NextUpToDate(cfg, ws[i - 1], hs[i - 1].event, hs[i - 1].encodes);
    }
  }

  lemma StartUpToDate(cfg: Config, w: World)
    requires IsStart(w)
    ensures UpToDate(cfg, w) && forall m :: !Carried(w, m)
  {
  }

  /** The event that made book n was this one, and it alone. */
  ghost predicate Numbered(ws: seq<World>, hs: seq<Happening>, j: nat, n: nat)
    requires |ws| == |hs| + 1
  {
    j < |hs| && hs[j].event.Publish? && ws[j].mdSeq + 1 == n == ws[j + 1].mdSeq
  }

  lemma NumberedOnce(cfg: Config, ws: seq<World>, hs: seq<Happening>, j: nat, k: nat, n: nat)
    requires ValidConfig(cfg) && IsRun(cfg, ws, hs) && Numbered(ws, hs, j, n) && Numbered(ws, hs, k, n)
    ensures j == k
  {
    hide Next, Enabled, IsStart;
    if j < k { NeverTakenBack(cfg, ws, hs, j + 1, k); }
    if k < j { NeverTakenBack(cfg, ws, hs, k + 1, j); }
  }

  /** In every run, every tick on the wire under number n carries the symbol and the four values of the
      book published under n, read off that event; no other was published under n. */
  lemma TicksAreBooks(cfg: Config, ws: seq<World>, hs: seq<Happening>, i: nat, k: nat) returns (j: nat)
    requires ValidConfig(cfg) && IsRun(cfg, ws, hs) && i < |ws| && k < |Texts(ws[i].log.sent)|
    requires Texts(ws[i].log.sent)[k].msg.Tob?
    ensures var m := Texts(ws[i].log.sent)[k].msg;
            && j < i && Numbered(ws, hs, j, m.mdSeq)
            && (forall other: nat :: Numbered(ws, hs, other, m.mdSeq) ==> other == j)
            && var e := hs[j].event; m == Tob(m.mdSeq, cfg.inst.symbol, e.bidPx, e.bidQty, e.askPx, e.askQty)
  {
    hide Next, Enabled, Newest, Sorted, IsStart, Texts;
    AlwaysUpToDate(cfg, ws, hs, i);
    var m := Texts(ws[i].log.sent)[k].msg;
    assert Written(ws[i].log.sent, m);
    assert Carried(ws[i], m);
    j :| 0 <= j < i && MadeBy(cfg, ws[j], hs[j].event, m);
    AlwaysUpToDate(cfg, ws, hs, j);
    NextUpToDate(cfg, ws[j], hs[j].event, hs[j].encodes);
    forall other: nat | Numbered(ws, hs, other, m.mdSeq) ensures other == j { NumberedOnce(cfg, ws, hs, j, other, m.mdSeq); }
  }
}

/** The same over the server: what every session is sent under a number is the one book the feed
    published under it. */
module ServerTicks {
  import opened Text
  import opened Protocol
  import opened SessionSpec
  import opened ServerSpec
  import R = SessionRuns
  import T = SessionTicks
  import Runs = ServerRuns
  import E = EngineSpec

  /** This tick is the book that act published. */
  ghost predicate PublishedBy(cfg: Config, h: Hub, a: Act, m: OutMsg) {
    a.Quote? && m == Tob(h.mdSeq + 1, cfg.inst.symbol, a.bidPx, a.bidQty, a.askPx, a.askQty)
  }

  ghost predicate SeatFine(cfg: Config, h: Hub, e: nat)
    requires e in h.seats
  {
    T.UpToDate(cfg, WorldOf(h, e))
  }

  /** A tick held after an act was held before it, or is the book the act published. */
  ghost predicate OnlyNew(cfg: Config, h: Hub, a: Act, t: World, e: nat) {
    forall m :: T.Carried(t, m) ==> (e in h.seats && T.Carried(WorldOf(h, e), m)) || PublishedBy(cfg, h, a, m)
  }

  lemma AlikeTicks(cfg: Config, v: World, w: World)
    requires Alike(v, w)
    ensures T.UpToDate(cfg, v) ==> T.UpToDate(cfg, w)
    ensures forall m :: T.Carried(w, m) <==> T.Carried(v, m)
  {
    hide T.Newest, R.Texts;
    T.SameTicks(v, w);
  }

  lemma QuoteTicks(cfg: Config, h: Hub, a: Act, e: nat)
    requires ValidConfig(cfg) && InPlace(h) && a.Quote? && e in h.seats && SeatFine(cfg, h, e)
    ensures var g := After(cfg, h, a);
            e in g.seats && SeatFine(cfg, g, e) && OnlyNew(cfg, h, a, WorldOf(g, e), e)
  {
    hide InPlace, PublishBook, OnPublish, T.UpToDate, T.Carried, Alike;
    var book := Publish(a.bidPx, a.bidQty, a.askPx, a.askQty);
    var w := WorldOf(h, e);
    PublishedTo(cfg, h, a.bidPx, a.bidQty, a.askPx, a.askQty, a.codec, e);
    T.NextUpToDate(cfg, w, book, e in a.codec);
    T.NextIsPublish(cfg, w, book, e in a.codec);
    AlikeTicks(cfg, Next(cfg, w, book, e in a.codec), WorldOf(After(cfg, h, a), e));
  }

  lemma TurnTicks(cfg: Config, h: Hub, a: Act, e: nat)
    requires ValidConfig(cfg) && InPlace(h) && Possible(h, a) && a.Turn? && e in After(cfg, h, a).seats
    requires e in h.seats ==> SeatFine(cfg, h, e)
    ensures var g := After(cfg, h, a); SeatFine(cfg, g, e) && OnlyNew(cfg, h, a, WorldOf(g, e), e)
  {
    hide Next, Enabled, T.Carried, T.Newest;
    var t := Next(cfg, WorldOf(h, a.epoch), a.event, a.encodes);
    OwnEventLocal(cfg, WorldOf(h, a.epoch), a.event, a.encodes);
    if e == a.epoch {
      T.NextUpToDate(cfg, WorldOf(h, e), a.event, a.encodes);
    } else {
      T.SameTicks(WorldOf(h, e), WorldOf(After(cfg, h, a), e));
    }
  }

  lemma ActTicks(cfg: Config, h: Hub, a: Act, e: nat)
    requires ValidConfig(cfg) && InPlace(h) && Possible(h, a) && e in After(cfg, h, a).seats
    requires e in h.seats ==> SeatFine(cfg, h, e)
    ensures var g := After(cfg, h, a); SeatFine(cfg, g, e) && OnlyNew(cfg, h, a, WorldOf(g, e), e)
  {
    hide InPlace, After, Possible, T.UpToDate, T.Carried;
    if a.Quote? {
      Runs.QuoteInPlace(cfg, h, a);
      QuoteTicks(cfg, h, a, e);
    } else if a.Turn? {
      TurnTicks(cfg, h, a, e);
    } else if e in h.seats {
      Runs.SameWorld(cfg, h, a, e);
    } else {
      Runs.NewSeat(cfg, h, a, e);
      T.StartUpToDate(cfg, WorldOf(After(cfg, h, a), e));
    }
  }

  lemma {:induction false} TicksFromFeed(cfg: Config, hs: seq<Hub>, acts: seq<Act>, i: nat, e: nat)
    requires ValidConfig(cfg) && IsServerRun(cfg, hs, acts) && i < |hs| && e in hs[i].seats
    ensures SeatFine(cfg, hs[i], e)
    ensures forall m :: T.Carried(WorldOf(hs[i], e), m) ==> exists j :: 0 <= j < i && PublishedBy(cfg, hs[j], acts[j], m)
  {
    hide InPlace, After, Possible, SeatFine, T.Carried, PublishedBy;
    if i > 0 {
      Runs.AlwaysInPlace(cfg, hs, acts, i - 1);
      if e in hs[i - 1].seats { TicksFromFeed(cfg, hs, acts, i - 1, e); }
      ActTicks(cfg, hs[i - 1], acts[i - 1], e);
    }
  }

  lemma {:induction false} NumbersOnlyGrow(cfg: Config, hs: seq<Hub>, acts: seq<Act>, i: nat, j: nat)
    requires ValidConfig(cfg) && IsServerRun(cfg, hs, acts) && i <= j < |hs|
    ensures hs[i].mdSeq <= hs[j].mdSeq
    ensures forall k :: i <= k < j && acts[k].Quote? ==> hs[i].mdSeq <= hs[k].mdSeq < hs[j].mdSeq
  {
    hide Possible, After;
    if i < j {
      NumbersOnlyGrow(cfg, hs, acts, i, j - 1);
      ActNumbers(cfg, hs[j - 1], acts[j - 1]);
    }
  }

  lemma ActNumbers(cfg: Config, h: Hub, a: Act)
    requires ValidConfig(cfg) && Possible(h, a)
    ensures After(cfg, h, a).mdSeq == h.mdSeq + if a.Quote? then 1 else 0
  {
    hide Next, RouteAll, FanOut, E.OnBook;
    if a.Quote? {
      var b := E.Book(a.bidPx, a.bidQty, a.askPx, a.askQty, h.mdSeq + 1);
      FillsAreReports(cfg.inst, h.engine, b);
      var (engine, routed) := E.OnBook(cfg.inst, h.engine, b);
      var h1 := RouteAll(cfg, h.(engine := engine, mdSeq := b.mdSeq), routed, a.codec);
      RoutingNumbersNothing(cfg, h.(engine := engine, mdSeq := b.mdSeq), routed, a.codec);
      FanningNumbersNothing(h1, InOrder(h1.seats), TickOf(cfg, b), a.codec);
    }
  }

  lemma {:induction false} RoutingNumbersNothing(cfg: Config, h: Hub, routed: seq<E.Routed>, encodes: set<nat>)
    requires forall r :: r in routed ==> !r.msg.Tob?
    ensures RouteAll(cfg, h, routed, encodes).mdSeq == h.mdSeq
  {
    hide DeliverReport;
    if routed != [] {
      assert routed[|routed| - 1] in routed;
      RoutingNumbersNothing(cfg, h, routed[..|routed| - 1], encodes);
    }
  }

  lemma {:induction false} FanningNumbersNothing(h: Hub, es: seq<nat>, tick: OutMsg, encodes: set<nat>)
    requires tick.Tob?
    ensures FanOut(h, es, tick, encodes).mdSeq == h.mdSeq
  {
    hide DeliverTob;
    if es != [] { FanningNumbersNothing(h, es[..|es| - 1], tick, encodes); }
  }

  /** The act that published book n was this one, and it alone. */
  ghost predicate Numbered(hs: seq<Hub>, acts: seq<Act>, j: nat, n: nat)
    requires |hs| == |acts| + 1
  {
    j < |acts| && acts[j].Quote? && hs[j].mdSeq + 1 == n
  }

  /** In every run of the server, every tick a session still open has been sent under number n carries
      the instrument's symbol and the four values of the one book published under n. */
  lemma EveryTickIsTheFeeds(cfg: Config, hs: seq<Hub>, acts: seq<Act>, i: nat, e: nat, k: nat) returns (j: nat)
    requires ValidConfig(cfg) && IsServerRun(cfg, hs, acts) && i < |hs| && e in hs[i].seats
    requires k < |R.Texts(hs[i].seats[e].log.sent)| && R.Texts(hs[i].seats[e].log.sent)[k].msg.Tob?
    ensures var m := R.Texts(hs[i].seats[e].log.sent)[k].msg;
            && j < i && Numbered(hs, acts, j, m.mdSeq)
            && (forall other: nat :: Numbered(hs, acts, other, m.mdSeq) ==> other == j)
            && var a := acts[j]; m == Tob(m.mdSeq, cfg.inst.symbol, a.bidPx, a.bidQty, a.askPx, a.askQty)
  {
    hide InPlace, After, Possible, SeatFine, R.Texts;
    TicksFromFeed(cfg, hs, acts, i, e);
    var m := R.Texts(hs[i].seats[e].log.sent)[k].msg;
    assert T.Written(hs[i].seats[e].log.sent, m);
    assert T.Carried(WorldOf(hs[i], e), m);
    j :| 0 <= j < i && PublishedBy(cfg, hs[j], acts[j], m);
    forall other: nat | Numbered(hs, acts, other, m.mdSeq) ensures other == j {
      if j < other { NumbersOnlyGrow(cfg, hs, acts, j, other); }
      if other < j { NumbersOnlyGrow(cfg, hs, acts, other, j); }
    }
  }

  /** And no session is left out: once a book has been published, its tick is pending at, or the last
      written to, every session not closing. */
  lemma EveryoneGetsTheBook(cfg: Config, hs: seq<Hub>, acts: seq<Act>, i: nat, e: nat)
    requires ValidConfig(cfg) && IsServerRun(cfg, hs, acts) && i < |acts| && acts[i].Quote?
    requires e in hs[i + 1].seats && !hs[i + 1].seats[e].s.closing
    ensures var a := acts[i];
            T.Newest(WorldOf(hs[i + 1], e)) == Some(Tob(hs[i].mdSeq + 1, cfg.inst.symbol, a.bidPx, a.bidQty, a.askPx, a.askQty))
  {
    hide InPlace, After, Possible, Alike, OnPublish, T.Newest, T.Sorted;
    Runs.AlwaysInPlace(cfg, hs, acts, i);
    Runs.AlwaysInPlace(cfg, hs, acts, i + 1);
    Runs.QuoteInPlace(cfg, hs[i], acts[i]);
    TicksFromFeed(cfg, hs, acts, i, e);
    StillOpen(hs[i + 1], e);
    QuoteNewest(cfg, hs[i], acts[i], e);
  }

  lemma QuoteNewest(cfg: Config, h: Hub, a: Act, e: nat)
    requires ValidConfig(cfg) && InPlace(h) && a.Quote? && e in h.seats && SeatFine(cfg, h, e)
    ensures var g := After(cfg, h, a); e in g.seats
    ensures var t := WorldOf(After(cfg, h, a), e);
            !t.s.closing && !t.s.tornDown ==>
              T.Newest(t) == Some(Tob(h.mdSeq + 1, cfg.inst.symbol, a.bidPx, a.bidQty, a.askPx, a.askQty))
  {
    hide InPlace, PublishBook, OnPublish, SameOwn, T.Newest, T.Sorted, T.Carried;
    var w, book := WorldOf(h, e), Publish(a.bidPx, a.bidQty, a.askPx, a.askQty);
    var b := NextBook(w, a.bidPx, a.bidQty, a.askPx, a.askQty);
    PublishedTo(cfg, h, a.bidPx, a.bidQty, a.askPx, a.askQty, a.codec, e);
    T.PublishBrings(cfg, w, book, e in a.codec);
    T.SameTicks(w, T.Booked(w, E.OnBook(cfg.inst, w.engine, b).0));
    T.SameTicks(OnPublish(cfg, w, b, e in a.codec), WorldOf(After(cfg, h, a), e));
  }
}
