/** Outbox and Session as the engine keeps them: a deque, a slot and flags updated in place, over the
    shared OrderEngine (cpp/include/mm/outbox.hpp, cpp/src/session.cpp, cpp/src/session_close.cpp).
    Every handler is proved to make exactly the move SessionSpec describes. */
module SessionClasses {
  import opened Text
  import opened Protocol
  import S = SessionSpec
  import E = EngineSpec
  import Engine
  import R = SessionRuns

  class Outbox {
    const hwm: nat
    var reports: seq<OutMsg>
    var tob: Option<OutMsg>
    var conflated: nat
    var breached: bool

    ghost function View(): S.Outbox
      reads this
    {
      S.Outbox(hwm, reports, tob, conflated, breached)
    }

    constructor (hwm: nat)
      ensures View() == S.Outbox(hwm, [], None, 0, false)
    {
      this.hwm := hwm;
      reports, tob, conflated, breached := [], None, 0, false;
    }

    /** Always queued; the mark is latched, never enforced here. */
    method PushReport(m: OutMsg)
      requires !m.Tob?
      modifies this
      ensures View() == S.PushReport(old(View()), m)
    {
      reports := reports + [m];
      if |reports| > hwm { breached := true; }
    }

    /** A pending tick is replaced, and the replacement counted. */
    method PushTob(t: OutMsg)
      requires t.Tob?
      modifies this
      ensures View() == S.PushTob(old(View()), t)
    {
      if tob.Some? { conflated := conflated + 1; }
      tob := Some(t);
    }

    method Pop() returns (m: Option<OutMsg>)
      modifies this
      ensures (m, View()) == S.Pop(old(View()))
    {
      if reports != [] {
        m := Some(reports[0]);
        reports := reports[1..];
      } else {
        m := tob;
        tob := None;
      }
    }

    method Depth() returns (n: nat)
      ensures n == S.Depth(View())
    {
      n := |reports| + if tob.Some? then 1 else 0;
    }
  }

  class Session {
    const cfg: S.Config
    const engine: Engine.OrderEngine
    const out: Outbox
    const epoch: nat
    var inSeqExpected: nat
    var outSeq: nat
    var pendingSvc: seq<int>
    var closing: bool
    var closeCode: nat
    var drainThenClose: bool
    var closeFrameSent: bool
    var epochRetired: bool
    var tornDown: bool
    var writeInflight: bool
    // The transport operations outstanding, and what has been observed of the session.
    var reading: bool
    var closeOp: S.CloseOp
    var draining: bool
    ghost var mdSeq: nat
    ghost var log: S.Log

    ghost predicate Valid()
      reads this, engine
    {
      engine.Valid() && engine.inst == cfg.inst && engine.maxSessionEntries == cfg.maxSessionEntries
    }

    ghost function Here(): S.Session
      reads this, out
    {
      S.Session(epoch, out.View(), inSeqExpected, outSeq, pendingSvc, closing, closeCode, drainThenClose, closeFrameSent,
                epochRetired, tornDown, writeInflight, reading, closeOp, draining)
    }

    ghost function View(): S.World
      reads this, out, engine
    {
      S.World(engine.View(), mdSeq, Here(), log)
    }

    /** Between events: the stream so far is whole, the close latched once if at all, nothing stranded. */
    ghost predicate Whole()
      reads this, out, engine
    {
      Valid() && R.Whole(View())
    }

    constructor (cfg: S.Config, engine: Engine.OrderEngine, epoch: nat, hwm: nat, ghost mdSeq: nat)
      requires engine.Valid() && engine.inst == cfg.inst && engine.maxSessionEntries == cfg.maxSessionEntries
      ensures Valid() && this.engine == engine && this.cfg == cfg && this.epoch == epoch && this.mdSeq == mdSeq
      ensures Here() == S.Opened(epoch, hwm) && log == S.NO_LOG && fresh(out)
    {
      this.cfg, this.engine, this.epoch := cfg, engine, epoch;
      out := new Outbox(hwm);
      inSeqExpected, outSeq, pendingSvc := 1, 1, [];
      closing, closeCode, drainThenClose, closeFrameSent, epochRetired, tornDown := false, 0, false, false, false, false;
      writeInflight, reading, closeOp, draining := false, true, S.NoOp, false;
      this.mdSeq, log := mdSeq, S.NO_LOG;
    }

    // --- closing ---------------------------------------------------------------------------

    method RetireEpoch()
      requires Valid()
      modifies this`epochRetired, this`log, engine
      ensures Valid() && View() == S.RetireEpoch(old(View()))
    {
      hide E.EndSession;
      if epochRetired { return; }
      var acks := engine.EndSession(epoch, _ => true);
      epochRetired := true;
      log := log.(retirements := log.retirements + 1);
    }

    /** False when a close is already latched, or the session is over: the first latch keeps its code. */
    method LatchClose(code: nat, drain: bool) returns (latched: bool)
      requires Valid()
      modifies this`closing, this`closeCode, this`drainThenClose, this`epochRetired, this`log, engine
      ensures Valid() && View() == S.LatchClose(old(View()), code, drain)
      ensures latched <==> !old(closing) && !tornDown
    {
      hide S.RetireEpoch;
      if closing || tornDown { return false; }
      closing, closeCode, drainThenClose := true, code, drain;
      RetireEpoch();
      return true;
    }

    method SendCloseFrame()
      modifies this`closeFrameSent, this`closeOp, this`log
      ensures View() == S.SendCloseFrame(old(View()))
    {
      if closeFrameSent || tornDown || writeInflight { return; }
      closeFrameSent, closeOp := true, S.Handshake;
      log := log.(sent := log.sent + [S.CloseFrame(closeCode)]);
    }

    method Teardown(code: nat)
      requires Valid()
      modifies this`tornDown, this`epochRetired, this`log, engine
      ensures Valid() && View() == S.Teardown(old(View()), code)
    {
      hide S.RetireEpoch;
      if tornDown { return; }
      tornDown := true;
      RetireEpoch();
      log := log.(closedWith := log.closedWith + [code]);
    }

    // --- the write path --------------------------------------------------------------------

    /** seq, epoch and svc, written here only; an ack takes the oldest service time waiting. */
    method Stamp(m: OutMsg) returns (wire: Wire)
      modifies this`outSeq, this`pendingSvc
      ensures wire == S.Stamp(old(Here()), m)
      ensures View() == old(View()).(s := S.Stamped(old(Here()), m))
    {
      var svc := 0;
      if m.OrderAck? && pendingSvc != [] {
        svc := pendingSvc[0];
        pendingSvc := pendingSvc[1..];
      }
      wire := Wire(outSeq, epoch, svc, m);
      outSeq := outSeq + 1;
    }

    method HandOver(wire: Wire)
      modifies this`writeInflight, this`log
      ensures View() == old(View()).(s := old(Here()).(writeInflight := true), log := log)
      ensures log == old(log).(sent := old(log).sent + [S.Text(wire)])
    {
      writeInflight := true;
      log := log.(sent := log.sent + [S.Text(wire)]);
    }

    /** Stamp and hand to the transport; a message the codec cannot encode closes 1011 instead. */
    method Write(m: OutMsg, encodes: bool)
      requires Valid()
      modifies this, engine
      ensures Valid() && View() == S.Write(old(View()), m, encodes)
    {
      hide S.LatchClose, S.SendCloseFrame, S.Stamped, S.Stamp;
      var wire := Stamp(m);
      if encodes {
        HandOver(wire);
        return;
      }
      log := log.(encoderFailed := true);
      var _ := LatchClose(S.INTERNAL_ERROR, false);
      SendCloseFrame();
    }

    /** A tick that was pending when the close began has nowhere to go. */
    ghost method CountDiscarded()
      modifies this`log
      ensures View() == old(View()).(log := old(log).(discarded := old(log).discarded + 1))
    {
      log := log.(discarded := log.discarded + 1);
    }

    method Pump(encodes: bool)
      requires Valid()
      modifies this, out, engine
      ensures Valid() && View() == S.Pump(old(View()), encodes)
    {
      hide S.Write, S.SendCloseFrame, Engine.OrderEngine.Valid;
      if writeInflight || tornDown || closeFrameSent { return; }
      if closing && !drainThenClose {
        SendCloseFrame();
        return;
      }
      while true
        invariant Valid() && S.Pump(View(), encodes) == S.Pump(old(View()), encodes)
        invariant !(writeInflight || tornDown || closeFrameSent) && !(closing && !drainThenClose)
        decreases S.Depth(out.View())
      {
        ghost var before := View();
        var popped := out.Pop();
        if popped.None? { break; }
        if closing && popped.value.Tob? {
          CountDiscarded();
          assert View() == S.Discarded(before, S.Pop(before.s.out).1);
          continue;
        }
        Write(popped.value, encodes);
        return;
      }
      if closing { SendCloseFrame(); }
    }

    /** Policy and going-away closes drain queued reports first. */
    method BeginClose(code: nat, encodes: bool)
      requires Valid()
      modifies this, out, engine
      ensures Valid() && View() == S.BeginClose(old(View()), code, encodes)
    {
      hide S.LatchClose, S.Pump;
      var latched := LatchClose(code, code == S.POLICY_ERROR || code == S.GOING_AWAY);
      if !latched {
        assert View() == old(View()) by { LatchRefused(old(View()), code); }
        return;
      }
      Pump(encodes);
    }

    /** A close the server asks for. */
    method OnCloseRequest(code: nat, encodes: bool)
      requires Whole()
      modifies this, out, engine
      ensures Whole() && View() == S.BeginClose(old(View()), code, encodes)
    {
      hide S.BeginClose, R.Whole;
      R.NextKeeps(cfg, View(), S.CloseRequest(code), encodes);
      BeginClose(code, encodes);
    }

    /** The mark and the entry cap, checked in the turn of every push. */
    method CheckPolicyCloses(encodes: bool)
      requires Valid()
      modifies this, out, engine
      ensures Valid() && View() == S.CheckPolicyCloses(cfg, old(View()), encodes)
    {
      hide S.BeginClose;
      if closing { return; }
      if out.breached {
        BeginClose(S.POLICY_ERROR, encodes);
        return;
      }
      var capped := engine.EntryCapBreached(epoch);
      if capped { BeginClose(S.POLICY_ERROR, encodes); }
    }

    method EnqueueReport(m: OutMsg, encodes: bool)
      requires Valid() && !m.Tob?
      modifies this, out, engine
      ensures Valid() && View() == S.EnqueueReport(cfg, old(View()), m, encodes)
    {
      hide S.CheckPolicyCloses;
      out.PushReport(m);
      log := S.Noted(log, m, |out.reports|, |E.EntriesOf(engine.View().orders, epoch)|);
      CheckPolicyCloses(encodes);
    }

    method DeliverReport(m: OutMsg, encodes: bool)
      requires Valid() && !m.Tob?
      modifies this, out, engine
      ensures Valid() && View() == S.DeliverReport(cfg, old(View()), m, encodes)
    {
      hide S.EnqueueReport, S.Pump;
      if tornDown { return; }
      EnqueueReport(m, encodes);
      Pump(encodes);
    }

    method DeliverTob(t: OutMsg, encodes: bool)
      requires Valid() && t.Tob?
      modifies this, out, engine
      ensures Valid() && View() == S.DeliverTob(old(View()), t, encodes)
    {
      hide S.Pump;
      if tornDown || closing { return; }
      out.PushTob(t);
      log := log.(ticks := log.ticks + 1, lastTick := t.mdSeq);
      Pump(encodes);
    }

    // --- the read path ---------------------------------------------------------------------

    /** The engine's answer, with the service time an ack will carry. */
    method AskEngine(msg: InMsg, svc: int, encodes: bool)
      requires Valid()
      modifies this, out, engine
      ensures Valid() && View() == S.AskEngine(cfg, old(View()), msg, svc, encodes)
    {
      hide S.EnqueueReport, E.OnNew, E.OnCancel;
      var batch;
      match msg {
        case NewOrder(_, _, _, _, _, _, _) => batch := engine.OnNew(epoch, msg, _ => true);
        case CancelOrder(id) => batch := engine.OnCancel(epoch, id, _ => true);
      }
      var report := batch.value[0];
      assert report == S.Answer(cfg, old(View()).engine, epoch, msg).1;
      if report.OrderAck? {
        pendingSvc := pendingSvc + [svc];
        log := log.(svcs := log.svcs + [svc]);
      }
      EnqueueReport(report, encodes);
    }

    method OnCommand(cmd: Command, svc: int, encodes: bool)
      requires Valid()
      modifies this, out, engine
      ensures Valid() && View() == S.OnCommand(cfg, old(View()), cmd, svc, encodes)
    {
      hide S.BeginClose, S.EnqueueReport, S.AskEngine;
      if cmd.seqNo != inSeqExpected {
        BeginClose(S.PROTOCOL_ERROR, encodes);
        return;
      }
      inSeqExpected := inSeqExpected + 1;
      if cmd.epoch != epoch {
        EnqueueReport(Reject(cmd.msg.clId, StaleEpoch, "command epoch does not match this session's epoch"), encodes);
      } else {
        AskEngine(cmd.msg, svc, encodes);
      }
    }

    method OnMessage(f: S.Frame, svc: int, encodes: bool)
      requires Valid()
      modifies this, out, engine
      ensures Valid() && View() == S.OnMessage(cfg, old(View()), f, svc, encodes)
    {
      hide S.EnqueueReport, S.OnCommand, S.Pump;
      match f {
        case Oversized => EnqueueReport(Reject("", MsgTooLarge, "message exceeds the 65536-byte cap"), encodes);
        case Undecodable(code, detail) => EnqueueReport(Reject("", code, detail), encodes);
        case Decoded(cmd) => OnCommand(cmd, svc, encodes);
      }
      Pump(encodes);
    }

    method ReadDone()
      requires reading
      modifies this`reading
      ensures View() == Unread(old(View()))
    {
      reading := false;
    }

    method ReadNext()
      modifies this`reading
      ensures View() == S.ReadNext(old(View()))
    {
      reading := true;
    }

    /** A binary frame is a protocol error; while closing it is drained unread, and the read re-armed. */
    method OnBinary(svc: int, encodes: bool)
      requires Whole() && reading && !tornDown
      modifies this, out, engine
      ensures Whole() && View() == S.OnRead(cfg, old(View()), S.Binary, svc, encodes)
    {
      hide S.BeginClose, S.OnRead, S.ReadNext, Unread, R.Whole;
      R.NextKeeps(cfg, View(), S.ReadDone(S.Binary, svc), encodes);
      FrameReads(cfg, View(), S.Binary, svc, encodes);
      ReadDone();
      if !closing { BeginClose(S.PROTOCOL_ERROR, encodes); }
      ReadNext();
    }

    /** A text frame; while closing it is drained unread, and the read re-armed. */
    method OnText(f: S.Frame, svc: int, encodes: bool)
      requires Whole() && reading && !tornDown
      modifies this, out, engine
      ensures Whole() && View() == S.OnRead(cfg, old(View()), S.Message(f), svc, encodes)
    {
      hide S.OnMessage, S.OnRead, S.ReadNext, Unread, R.Whole;
      R.NextKeeps(cfg, View(), S.ReadDone(S.Message(f), svc), encodes);
      FrameReads(cfg, View(), S.Message(f), svc, encodes);
      ReadDone();
      if !closing { OnMessage(f, svc, encodes); }
      ReadNext();
    }

    method CloseThenDrain()
      modifies this`closeFrameSent, this`closeOp, this`log
      ensures View() == S.CloseThenDrain(old(View()))
    {
      closeFrameSent, closeOp := true, S.ThenDrain;
      log := log.(sent := log.sent + [S.CloseFrame(S.TOO_BIG)]);
    }

    /** A read past the transport ceiling: the stream is gone, so close, then drain the raw socket. */
    method OnTooBig()
      requires Whole() && reading && !tornDown
      modifies this, engine
      ensures Whole() && View() == S.OnRead(cfg, old(View()), S.TooBig, 0, true)
    {
      hide S.OnRead, S.Teardown, S.LatchClose, S.CloseThenDrain, Unread, R.Whole;
      R.NextKeeps(cfg, View(), S.ReadDone(S.TooBig, 0), true);
      FrameReads(cfg, View(), S.TooBig, 0, true);
      ReadDone();
      LatchRefused(View(), S.TOO_BIG);
      var latched := LatchClose(S.TOO_BIG, false);
      if !latched {
        Teardown(closeCode);
        return;
      }
      CloseThenDrain();
    }

    /** A read that ended the connection; a close under way keeps its code. */
    method OnReadError(r: S.ReadResult)
      requires Whole() && reading && !tornDown
      requires r.PeerClosed? || r.TimedOut? || r.Aborted? || r.Violation? || r.Died?
      modifies this, engine
      ensures Whole() && View() == S.OnRead(cfg, old(View()), r, 0, true)
    {
      hide S.BeginClose, S.OnMessage, S.Teardown, S.LatchClose, S.CloseThenDrain, R.Whole;
      R.ReadKeeps(cfg, View(), r, 0, true);
      reading := false;
      var code := closeCode;
      if !closing {
        code := match r
          case PeerClosed(peer) => if peer == 0 then S.NORMAL else peer
          case Violation(badPayload) => if badPayload then S.BAD_PAYLOAD else S.PROTOCOL_ERROR
          case Died => S.ABNORMAL
          case _ => S.GOING_AWAY;
      }
      Teardown(code);
    }

    // --- the other completions -------------------------------------------------------------

    method OnWrite(ok: bool, timedOut: bool, aborted: bool, encodes: bool)
      requires Whole() && writeInflight
      modifies this, out, engine
      ensures Whole() && View() == S.OnWrite(old(View()), ok, timedOut, aborted, encodes)
    {
      hide S.Pump, S.Teardown, R.Whole;
      R.NextKeeps(cfg, View(), S.WriteDone(ok, timedOut, aborted), encodes);
      writeInflight := false;
      log := log.(completions := log.completions + 1);
      if tornDown { return; }
      if !ok {
        var idle := timedOut || (aborted && !closing);
        Teardown(if closing then closeCode else if idle then S.GOING_AWAY else S.ABNORMAL);
        return;
      }
      Pump(encodes);
    }

    method OnCloseDone(ok: bool)
      requires Whole() && closeOp != S.NoOp
      modifies this, engine
      ensures Whole() && View() == S.OnCloseDone(old(View()), ok)
    {
      hide S.Teardown, R.Whole;
      R.ClosedKeeps(View(), ok);
      var oversize := closeOp == S.ThenDrain;
      closeOp := S.NoOp;
      if oversize {
        if !tornDown { draining := true; }
      } else if !ok {
        Teardown(closeCode);
      }
    }

    method OnDrainDone(ok: bool)
      requires Whole() && draining
      modifies this, engine
      ensures Whole() && View() == S.OnDrainDone(old(View()), ok)
    {
      hide S.Teardown, R.Whole;
      R.DrainedKeeps(View(), ok);
      if ok { return; }
      draining := false;
      Teardown(closeCode);
    }
  }

  lemma LatchRefused(w: S.World, code: nat)
    ensures w.s.closing || w.s.tornDown ==> forall drain :: S.LatchClose(w, code, drain) == w
  {
  }

  ghost function Unread(w: S.World): (r: S.World)
    ensures r.s.closing == w.s.closing && r.s.closeCode == w.s.closeCode && r.s.tornDown == w.s.tornDown
    ensures r.engine == w.engine && r.log == w.log && r.s.epoch == w.s.epoch
  {
    w.(s := w.s.(reading := false))
  }

  lemma FrameReads(cfg: S.Config, w: S.World, r: S.ReadResult, svc: int, encodes: bool)
    requires S.ValidConfig(cfg) && !w.s.tornDown
    ensures r.Binary? ==> S.OnRead(cfg, w, r, svc, encodes)
                          == S.ReadNext(if w.s.closing then Unread(w) else S.BeginClose(Unread(w), S.PROTOCOL_ERROR, encodes))
    ensures r.Message? ==> S.OnRead(cfg, w, r, svc, encodes)
                           == S.ReadNext(if w.s.closing then Unread(w) else S.OnMessage(cfg, Unread(w), r.frame, svc, encodes))
    ensures r.TooBig? ==> S.OnRead(cfg, w, r, svc, encodes)
                          == if w.s.closing then S.Teardown(Unread(w), w.s.closeCode)
                             else S.CloseThenDrain(S.LatchClose(Unread(w), S.TOO_BIG, false))
  {
    hide S.BeginClose, S.OnMessage, S.Teardown, S.LatchClose, S.CloseThenDrain;
  }
}
