/** What a session answers and what it still sends once it is closing, over every run
    (cpp/src/session.cpp:158-282,361-463, cpp/src/session_close.cpp). */
module SessionAnswers {
  import opened Text
  import opened Protocol
  import opened SessionSpec
  import opened SessionRuns
  import opened SessionEffects
  import opened CloseReasons
  import E = EngineSpec

  // --- a frame of the client's -------------------------------------------------------------

  /** The one report a frame is answered by, on a session whose commands have come in order: a refusal
      that leaves the engine alone for a frame too big, undecodable or of another epoch; and otherwise
      the engine's own answer. */
  ghost function ReplyTo(cfg: Config, w: World, f: Frame): (r: (E.State, OutMsg))
    requires ValidConfig(cfg)
    ensures !r.1.Tob?
  {
    match f
    case Oversized => (w.engine, Reject("", MsgTooLarge, "message exceeds the 65536-byte cap"))
    case Undecodable(code, detail) => (w.engine, Reject("", code, detail))
    case Decoded(cmd) =>
      if cmd.epoch != w.s.epoch then
        (w.engine, Reject(cmd.msg.clId, StaleEpoch, "command epoch does not match this session's epoch"))
      else
        match cmd.msg
        case NewOrder(_, _, _, _, _, _, _) => E.OnNew(cfg.inst, w.engine, w.s.epoch, cmd.msg)
        case CancelOrder(clId) => E.OnCancel(w.engine, w.s.epoch, clId)
  }

  /** What reading one frame comes to: a gap answers nothing; any other frame pushes its one report, is
      counted if it was a command, and leaves the engine as its answer did for as long as the session
      stays open. */
  ghost predicate Answers(cfg: Config, w: World, f: Frame, svc: int, t: World)
    requires ValidConfig(cfg)
  {
    if Gap(w, f) then t.log.pushed == w.log.pushed && t.log.svcs == w.log.svcs && t.s.inSeqExpected == w.s.inSeqExpected
    else
      var (engine, m) := ReplyTo(cfg, w, f);
      && t.log.pushed == w.log.pushed + [m]
      && t.log.svcs == w.log.svcs + (if m.OrderAck? then [svc] else [])
      && t.s.inSeqExpected == w.s.inSeqExpected + (if f.Decoded? then 1 else 0)
      && (Open(t) ==> t.engine == engine)
  }

  /** A move of the write path or the close: nothing pushed, nothing taken from the client. */
  ghost predicate PushesNothing(w: World, t: World) {
    && t.log.pushed == w.log.pushed && t.log.svcs == w.log.svcs && t.s.inSeqExpected == w.s.inSeqExpected
    && (Open(t) ==> Open(w) && t.engine == w.engine)
  }

  lemma {:induction false} PumpPushesNothing(w: World, encodes: bool)
    ensures PushesNothing(w, Pump(w, encodes))
    decreases Depth(w.s.out)
  {
    var (m, rest) := Pop(w.s.out);
    if m.Some? && w.s.closing && m.value.Tob? { PumpPushesNothing(Discarded(w, rest), encodes); }
  }

  lemma BeginClosePushesNothing(w: World, code: nat, encodes: bool)
    ensures PushesNothing(w, BeginClose(w, code, encodes)) && !Open(BeginClose(w, code, encodes))
  {
    hide Pump;
    PumpPushesNothing(LatchClose(w, code, code == POLICY_ERROR || code == GOING_AWAY), encodes);
  }

  /** A report queued, the policies checked and the pump run. */
  lemma QueuedOnce(cfg: Config, v: World, m: OutMsg, encodes: bool)
    requires !m.Tob?
    ensures var t := Pump(EnqueueReport(cfg, v, m, encodes), encodes);
            && t.log.pushed == v.log.pushed + [m] && t.log.svcs == v.log.svcs && t.s.inSeqExpected == v.s.inSeqExpected
            && (Open(t) ==> t.engine == v.engine)
  {
    hide Pump, BeginClose;
    BeginClosePushesNothing(Enqueued(v, m), POLICY_ERROR, encodes);
    PumpPushesNothing(EnqueueReport(cfg, v, m, encodes), encodes);
  }

  lemma CommandAnswers(cfg: Config, w: World, cmd: Command, svc: int, encodes: bool)
    requires ValidConfig(cfg) && cmd.seqNo == w.s.inSeqExpected
    ensures Answers(cfg, w, Decoded(cmd), svc, Pump(OnCommand(cfg, w, cmd, svc, encodes), encodes))
  {
    hide Pump, EnqueueReport, E.OnNew, E.OnCancel;
    var w1 := w.(s := w.s.(inSeqExpected := w.s.inSeqExpected + 1));
    var (engine, m) := ReplyTo(cfg, w, Decoded(cmd));
    QueuedOnce(cfg, if cmd.epoch != w.s.epoch then w1 else Answered(w1, engine, m, svc), m, encodes);
    assert w.log.svcs + [] == w.log.svcs;
  }

  lemma MessageAnswers(cfg: Config, w: World, f: Frame, svc: int, encodes: bool)
    requires ValidConfig(cfg)
    ensures Answers(cfg, w, f, svc, OnMessage(cfg, w, f, svc, encodes))
  {
    hide Pump, EnqueueReport, BeginClose, E.OnNew, E.OnCancel;
    assert w.log.svcs + [] == w.log.svcs;
    match f {
      case Oversized => QueuedOnce(cfg, w, ReplyTo(cfg, w, f).1, encodes);
      case Undecodable(_, _) => QueuedOnce(cfg, w, ReplyTo(cfg, w, f).1, encodes);
      case Decoded(cmd) =>
        if Gap(w, f) {
          BeginClosePushesNothing(w, PROTOCOL_ERROR, encodes);
          PumpPushesNothing(BeginClose(w, PROTOCOL_ERROR, encodes), encodes);
        } else {
          hide OnCommand, Answers;
          CommandAnswers(cfg, w, cmd, svc, encodes);
        }
    }
  }

  /** In every run, one frame read on an open session is answered so, whatever the schedule. */
  lemma FrameAnswered(cfg: Config, ws: seq<World>, hs: seq<Happening>, i: nat)
    requires ValidConfig(cfg) && IsRun(cfg, ws, hs) && i < |hs| && Open(ws[i])
    requires hs[i].event.ReadDone? && hs[i].event.result.Message?
    ensures Answers(cfg, ws[i], hs[i].event.result.frame, hs[i].event.svc, ws[i + 1])
  {
    hide OnMessage, Enabled, IsStart, ReplyTo;
    var w := ws[i].(s := ws[i].s.(reading := false));
    MessageAnswers(cfg, w, hs[i].event.result.frame, hs[i].event.svc, hs[i].encodes);
    assert ReplyTo(cfg, w, hs[i].event.result.frame) == ReplyTo(cfg, ws[i], hs[i].event.result.frame) by {
      SameReply(cfg, w, ws[i], hs[i].event.result.frame);
    }
  }

  lemma SameReply(cfg: Config, w: World, v: World, f: Frame)
    requires ValidConfig(cfg) && w.engine == v.engine && w.s.epoch == v.s.epoch
    ensures ReplyTo(cfg, w, f) == ReplyTo(cfg, v, f)
  {
    hide E.OnNew, E.OnCancel;
  }

  // --- a session on its way out ------------------------------------------------------------

  /** What still happens to a closing session: it is over exactly when a read ends or fails, a write or
      the close handshake fails, or the drain of its socket ends. */
  predicate Finishes(w: World, e: Event) {
    match e
    case ReadDone(r, _) => !r.Binary? && !r.Message?
    case WriteDone(ok, _, _) => !ok
    case CloseDone(ok) => !ok && w.s.closeOp != ThenDrain
    case DrainDone(ok) => !ok
    case _ => false
  }

  /** Nothing more is pushed, no tick goes out, and unless the close drains nor does anything else but
      the close frame. */
  ghost predicate Winds(w: World, t: World) {
    && t.s.closing && t.s.drainThenClose == w.s.drainThenClose && t.log.pushed == w.log.pushed
    && TicksIn(Texts(t.log.sent)) == TicksIn(Texts(w.log.sent))
    && (!w.s.drainThenClose ==> Texts(t.log.sent) == Texts(w.log.sent))
  }

  lemma SendCloseWinds(w: World)
    requires w.s.closing
    ensures Winds(w, SendCloseFrame(w))
  {
    hide Texts, TicksIn;
    TextsAppend(w.log.sent, CloseFrame(w.s.closeCode));
    assert Texts(w.log.sent) + [] == Texts(w.log.sent);
  }

  lemma ReportWinds(w: World, m: OutMsg, rest: Outbox, encodes: bool)
    requires w.s.closing && w.s.drainThenClose && !m.Tob?
    ensures Winds(w, Write(WithOut(w, rest), m, encodes)) && Write(WithOut(w, rest), m, encodes).s.tornDown == w.s.tornDown
  {
    hide Texts, TicksIn;
    var wire := Stamp(w.s.(out := rest), m);
    TextsAppend(w.log.sent, Text(wire));
    WiresAppend(Texts(w.log.sent), wire);
    assert TicksIn(Texts(w.log.sent)) + [] == TicksIn(Texts(w.log.sent));
    var w1 := WithOut(w, rest).(s := Stamped(w.s.(out := rest), m), log := w.log.(encoderFailed := true));
    SendCloseWinds(w1);
  }

  lemma {:induction false} PumpWinds(w: World, encodes: bool)
    requires w.s.closing
    ensures Winds(w, Pump(w, encodes)) && Pump(w, encodes).s.tornDown == w.s.tornDown
    decreases Depth(w.s.out)
  {
    hide Write, Texts, TicksIn;
    SendCloseWinds(w);
    var (m, rest) := Pop(w.s.out);
    if m.Some? && w.s.drainThenClose && !(w.s.writeInflight || w.s.tornDown || w.s.closeFrameSent) {
      if m.value.Tob? { PumpWinds(Discarded(w, rest), encodes); } else { ReportWinds(w, m.value, rest, encodes); }
    }
  }

  /** The engine holds no order of a session that is closing, so a book brings it no fill. */
  lemma PublishWinds(cfg: Config, w: World, b: E.Book, encodes: bool)
    requires Whole(w) && w.s.closing
    ensures Winds(w, OnPublish(cfg, w, b, encodes)) && OnPublish(cfg, w, b, encodes).s.tornDown == w.s.tornDown
  {
    hide Inv, Settled, DeliverAll, E.OnBook, Texts, TicksIn;
    FillsAreReports(cfg.inst, w.engine, b);
    NoFillsWhenGone(cfg, w, b);
    BookKeepsInv(cfg, w, b);
    DeliverAllKeeps(cfg, w.(engine := E.OnBook(cfg.inst, w.engine, b).0, mdSeq := b.mdSeq),
                    E.OnBook(cfg.inst, w.engine, b).1, encodes);
  }

  /** Flags and counters alone, or the end. */
  lemma EndWinds(w: World, w1: World, code: nat)
    requires w.s.closing && w1.s.closing && w1.s.drainThenClose == w.s.drainThenClose
    requires w1.log == w.log.(completions := w1.log.completions)
    ensures Winds(w, w1) && Winds(w, Teardown(w1, code)) && Teardown(w1, code).s.tornDown
  {
    hide Texts, TicksIn, RetireEpoch;
    RetireEffect(w1.(s := w1.s.(tornDown := true)));
  }

  lemma ReadWinds(cfg: Config, w: World, r: ReadResult, svc: int, encodes: bool)
    requires ValidConfig(cfg) && w.s.closing
    ensures var t := OnRead(cfg, w, r, svc, encodes);
            Winds(w, t) && (!w.s.tornDown ==> (t.s.tornDown <==> Finishes(w, ReadDone(r, svc))))
  {
    hide Winds, OnMessage, Teardown;
    EndWinds(w, w.(s := w.s.(reading := false)), w.s.closeCode);
    EndWinds(w, ReadNext(w.(s := w.s.(reading := false))), w.s.closeCode);
  }

  lemma WriteWinds(w: World, ok: bool, timedOut: bool, aborted: bool, encodes: bool)
    requires w.s.closing
    ensures var t := OnWrite(w, ok, timedOut, aborted, encodes);
            Winds(w, t) && (!w.s.tornDown ==> (t.s.tornDown <==> !ok))
  {
    hide Winds, Pump, Teardown;
    var w1 := w.(s := w.s.(writeInflight := false), log := w.log.(completions := w.log.completions + 1));
    PumpWinds(w1, encodes);
    EndWinds(w, w1, w.s.closeCode);
    if ok && !w.s.tornDown { WindsOn(w, w1, Pump(w1, encodes)); }
  }

  lemma ClosedWinds(w: World, ok: bool)
    requires w.s.closing
    ensures Winds(w, OnCloseDone(w, ok)) && Winds(w, OnDrainDone(w, ok))
    ensures !w.s.tornDown ==> (OnCloseDone(w, ok).s.tornDown <==> !ok && w.s.closeOp != ThenDrain)
    ensures !w.s.tornDown ==> (OnDrainDone(w, ok).s.tornDown <==> !ok)
  {
    hide Winds, Teardown;
    var w1 := w.(s := w.s.(closeOp := NoOp));
    EndWinds(w, w, 0);
    EndWinds(w, w1, w.s.closeCode);
    EndWinds(w, w1.(s := w1.s.(draining := true)), w.s.closeCode);
    EndWinds(w, w.(s := w.s.(draining := false)), w.s.closeCode);
  }

  lemma NextWinds(cfg: Config, w: World, e: Event, encodes: bool)
    requires ValidConfig(cfg) && Whole(w) && Enabled(w, e) && w.s.closing
    ensures var t := Next(cfg, w, e, encodes);
            Winds(w, t) && (!w.s.tornDown ==> (t.s.tornDown <==> Finishes(w, e)))
  {
    hide Whole, Winds, Enabled, OnPublish, OnRead, OnWrite, OnCloseDone, OnDrainDone;
    EndWinds(w, w, 0);
    match e {
      case Publish(bp, bq, ap, aq) => PublishWinds(cfg, w, NextBook(w, bp, bq, ap, aq), encodes);
      case WriteDone(ok, timedOut, aborted) => WriteWinds(w, ok, timedOut, aborted, encodes);
      case ReadDone(r, svc) => ReadWinds(cfg, w, r, svc, encodes);
      case CloseDone(ok) => ClosedWinds(w, ok);
      case DrainDone(ok) => ClosedWinds(w, ok);
      case Others(engine) => EndWinds(w, w.(engine := engine), 0);
      case CloseRequest(_) =>
    }
  }

  lemma WindsOn(a: World, b: World, c: World)
    requires Winds(a, b) && Winds(b, c)
    ensures Winds(a, c)
  {
    hide Texts, TicksIn;
  }

  /** From the moment a close is latched, in every run: no report is pushed and no tick goes out any
      more; under any code but 1008 and 1001 nothing does but the close frame. */
  lemma {:induction false} ClosingIsFinal(cfg: Config, ws: seq<World>, hs: seq<Happening>, i: nat, j: nat)
    requires ValidConfig(cfg) && IsRun(cfg, ws, hs) && i <= j < |ws| && ws[i].s.closing
    ensures var w, t := ws[i], ws[j];
            && t.s.closing && t.log.pushed == w.log.pushed && TicksIn(Texts(t.log.sent)) == TicksIn(Texts(w.log.sent))
            && (w.s.closeCode != 1008 && w.s.closeCode != 1001 ==> Texts(t.log.sent) == Texts(w.log.sent))
    decreases j - i
  {
    hide Next, Enabled, IsStart, Texts, TicksIn, Whole;
    if i < j {
      AlwaysWhole(cfg, ws, hs, i);
      NextWinds(cfg, ws[i], hs[i].event, hs[i].encodes);
      NeverTakenBack(cfg, ws, hs, i, i + 1);
      assert ws[i].s.drainThenClose <==> ws[i].s.closeCode == 1008 || ws[i].s.closeCode == 1001 by { DrainCodes(ws[i]); }
      ClosingIsFinal(cfg, ws, hs, i + 1, j);
    }
  }

  lemma DrainCodes(w: World)
    requires Whole(w) && w.s.closing
    ensures w.s.drainThenClose <==> w.s.closeCode == 1008 || w.s.closeCode == 1001
  {
    hide Stream, Settled, Attended, Gone, CloseFrameLast, RetiredOnce;
  }

  /** And a closing session is over exactly at the event that finishes it, under the code it latched. */
  lemma OverWhenFinished(cfg: Config, ws: seq<World>, hs: seq<Happening>, i: nat)
    requires ValidConfig(cfg) && IsRun(cfg, ws, hs) && i < |hs| && ws[i].s.closing && !ws[i].s.tornDown
    ensures ws[i + 1].s.tornDown <==> Finishes(ws[i], hs[i].event)
    ensures ws[i + 1].s.tornDown ==> ws[i + 1].log.closedWith == [ws[i].s.closeCode]
  {
    hide Next, Enabled, IsStart, Whole, Winds;
    AlwaysWhole(cfg, ws, hs, i);
    NextWinds(cfg, ws[i], hs[i].event, hs[i].encodes);
    ClosedOnce(cfg, ws, hs, i, i + 1);
  }
}
