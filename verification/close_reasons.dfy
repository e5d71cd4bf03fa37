/** Why a session closes and what is recorded of its end, over every run: the code latched, event by
    event, and the limits whose breach closes it for policy (cpp/src/session.cpp:78-174,204-221,
    319-344,375-463, cpp/src/session_close.cpp, cpp/include/mm/outbox.hpp:95-115). */
module CloseReasons {
  import opened Text
  import opened Protocol
  import opened SessionSpec
  import opened SessionRuns
  import opened SessionEffects
  import E = EngineSpec
  import V = ServerSpec

  ghost function Entries(w: World): nat { |E.EntriesOf(w.engine.orders, w.s.epoch)| }

  /** At some push the queue had gone past the high-water mark, or the session's entries were at the cap. */
  predicate Exceeded(cfg: Config, w: World) { w.log.longest > w.s.out.hwm || w.log.fullest >= cfg.maxSessionEntries }

  /** While a session is open it is within its limits and always has been. */
  ghost predicate WithinLimits(cfg: Config, w: World) {
    Open(w) ==>
      && |w.s.out.reports| <= w.s.out.hwm && Entries(w) < cfg.maxSessionEntries
      && !Exceeded(cfg, w) && !w.s.out.breached
  }

  /** A close operation, or the draining of one, belongs to a session that is closing. */
  predicate OperationsClose(w: World) { w.s.closeOp != NoOp || w.s.draining ==> w.s.closing }

  /** Pumping and pushing: a close latched on the way is the policy's, past a limit, or the codec's. */
  ghost predicate Proceeds(cfg: Config, w: World, t: World) {
    && t.s.out.hwm == w.s.out.hwm && t.s.epoch == w.s.epoch && t.s.tornDown == w.s.tornDown
    && t.s.reading == w.s.reading && t.s.draining == w.s.draining && (OperationsClose(w) ==> OperationsClose(t))
    && w.log.longest <= t.log.longest && w.log.fullest <= t.log.fullest
    && (w.log.encoderFailed ==> t.log.encoderFailed) && t.log.closedWith == w.log.closedWith
    && (w.s.closing ==> t.s.closing && t.s.closeCode == w.s.closeCode) && (w.s.tornDown ==> t.s.closing == w.s.closing)
    && (!t.s.closing ==> t.engine == w.engine)
    && (Open(w) && t.s.closing ==>
          (t.s.closeCode == POLICY_ERROR && Exceeded(cfg, t)) || (t.s.closeCode == INTERNAL_ERROR && t.log.encoderFailed))
  }

  lemma ProceedsOn(cfg: Config, a: World, b: World, c: World)
    requires Proceeds(cfg, a, b) && Proceeds(cfg, b, c)
    ensures Proceeds(cfg, a, c)
  {
  }

  lemma ProceedsSelf(cfg: Config, w: World)
    ensures Proceeds(cfg, w, w)
  {
  }

  lemma SendCloseProceeds(cfg: Config, w: World)
    requires w.s.closing
    ensures Proceeds(cfg, w, SendCloseFrame(w)) && (WithinLimits(cfg, w) ==> WithinLimits(cfg, SendCloseFrame(w)))
  {
  }

  /** Latching touches nothing else of the session but that its orders go. */
  lemma LatchIs(w: World, code: nat, drain: bool)
    requires Open(w)
    ensures var t := LatchClose(w, code, drain);
            && t.s == w.s.(closing := true, closeCode := code, drainThenClose := drain, epochRetired := true)
            && t.log == w.log.(retirements := t.log.retirements) && t.mdSeq == w.mdSeq
  {
  }

  lemma WriteProceeds(cfg: Config, w: World, m: OutMsg, rest: Outbox, encodes: bool)
    requires Pop(w.s.out) == (Some(m), rest)
    ensures var t := Write(WithOut(w, rest), m, encodes);
            && Proceeds(cfg, w, t) && (WithinLimits(cfg, w) ==> WithinLimits(cfg, t))
            && (t.s.closing && !w.s.closing ==> !encodes)
  {
    hide LatchClose, E.EntriesOf;
    var w1 := WithOut(w, rest).(s := Stamped(w.s.(out := rest), m), log := w.log.(encoderFailed := true));
    if Open(w1) { LatchIs(w1, INTERNAL_ERROR, false); } else { LatchRefused(w1); }
  }

  lemma LatchRefused(w: World)
    requires !Open(w)
    ensures forall code, drain :: LatchClose(w, code, drain) == w
  {
  }

  lemma {:induction false} PumpProceeds(cfg: Config, w: World, encodes: bool)
    ensures var t := Pump(w, encodes); Proceeds(cfg, w, t) && (WithinLimits(cfg, w) ==> WithinLimits(cfg, t))
    decreases Depth(w.s.out)
  {
    hide Write, SendCloseFrame, Proceeds, WithinLimits;
    ProceedsSelf(cfg, w);
    if w.s.closing { SendCloseProceeds(cfg, w); }
    var (m, rest) := Pop(w.s.out);
    if m.Some? && !(w.s.writeInflight || w.s.tornDown || w.s.closeFrameSent || (w.s.closing && !w.s.drainThenClose)) {
      if w.s.closing && m.value.Tob? {
        DiscardProceeds(cfg, w, rest);
        PumpProceeds(cfg, Discarded(w, rest), encodes);
        ProceedsOn(cfg, w, Discarded(w, rest), Pump(Discarded(w, rest), encodes));
      } else {
        WriteProceeds(cfg, w, m.value, rest, encodes);
      }
    }
  }

  lemma DiscardProceeds(cfg: Config, w: World, rest: Outbox)
    requires w.s.closing && Pop(w.s.out).1 == rest
    ensures Proceeds(cfg, w, Discarded(w, rest)) && WithinLimits(cfg, Discarded(w, rest))
  {
  }

  /** A close begun on an open session latches its own code, whatever the pump then meets. */
  lemma BeginCloseLatches(cfg: Config, w: World, code: nat, encodes: bool)
    requires Open(w)
    ensures var t := BeginClose(w, code, encodes);
            && t.s.closing && t.s.closeCode == code && !t.s.tornDown && t.s.out.hwm == w.s.out.hwm
            && t.log.longest >= w.log.longest && t.log.fullest >= w.log.fullest && t.log.closedWith == w.log.closedWith
            && t.s.reading == w.s.reading && t.s.epoch == w.s.epoch && t.s.draining == w.s.draining
            && (w.log.encoderFailed ==> t.log.encoderFailed)
  {
    hide LatchClose, Pump;
    var drain := code == POLICY_ERROR || code == GOING_AWAY;
    LatchIs(w, code, drain);
    PumpProceeds(cfg, LatchClose(w, code, drain), encodes);
  }

  /** A push and the check that follows it in the same turn: past a limit the session closes for policy. */
  lemma PushedWithin(cfg: Config, w: World, m: OutMsg, encodes: bool)
    requires !m.Tob?
    requires Open(w) ==> |w.s.out.reports| <= w.s.out.hwm && !w.s.out.breached && !Exceeded(cfg, w)
    ensures var t := EnqueueReport(cfg, w, m, encodes); Proceeds(cfg, w, t) && WithinLimits(cfg, t)
  {
    hide BeginClose, E.EntriesOf;
    var w1 := Enqueued(w, m);
    if Open(w1) { BeginCloseLatches(cfg, w1, POLICY_ERROR, encodes); } else { BeginRefused(w1, encodes); }
  }

  lemma BeginRefused(w: World, encodes: bool)
    requires !Open(w)
    ensures forall code :: BeginClose(w, code, encodes) == w
  {
  }

  lemma DeliveredWithin(cfg: Config, w: World, m: OutMsg, encodes: bool)
    requires WithinLimits(cfg, w)
    ensures var t := if m.Tob? then DeliverTob(w, m, encodes) else DeliverReport(cfg, w, m, encodes);
            Proceeds(cfg, w, t) && WithinLimits(cfg, t)
  {
    hide EnqueueReport, Pump, E.EntriesOf;
    ProceedsSelf(cfg, w);
    if m.Tob? {
      if Open(w) {
        assert Proceeds(cfg, w, Ticked(w, m));
        PumpProceeds(cfg, Ticked(w, m), encodes);
        ProceedsOn(cfg, w, Ticked(w, m), Pump(Ticked(w, m), encodes));
      }
    } else if !w.s.tornDown {
      var w1 := EnqueueReport(cfg, w, m, encodes);
      PushedWithin(cfg, w, m, encodes);
      PumpProceeds(cfg, w1, encodes);
      ProceedsOn(cfg, w, w1, Pump(w1, encodes));
    }
  }

  lemma {:induction false} AllDeliveredWithin(cfg: Config, w: World, routed: seq<E.Routed>, encodes: bool)
    requires WithinLimits(cfg, w) && forall r :: r in routed ==> !r.msg.Tob?
    ensures var t := DeliverAll(cfg, w, routed, encodes); Proceeds(cfg, w, t) && WithinLimits(cfg, t)
  {
    hide DeliverReport, Proceeds, WithinLimits;
    if routed == [] {
      ProceedsSelf(cfg, w);
    } else {
      var w1, last := DeliverAll(cfg, w, routed[..|routed| - 1], encodes), routed[|routed| - 1];
      assert last in routed;
      AllDeliveredWithin(cfg, w, routed[..|routed| - 1], encodes);
      if last.session == w.s.epoch {
        DeliveredWithin(cfg, w1, last.msg, encodes);
        ProceedsOn(cfg, w, w1, DeliverReport(cfg, w1, last.msg, encodes));
      }
    }
  }

  lemma PublishedWithin(cfg: Config, w: World, b: E.Book, encodes: bool)
    requires WithinLimits(cfg, w)
    ensures var t := OnPublish(cfg, w, b, encodes);
            WithinLimits(cfg, t) && Proceeds(cfg, w.(engine := E.OnBook(cfg.inst, w.engine, b).0, mdSeq := b.mdSeq), t)
  {
    hide DeliverAll, DeliverTob, E.OnBook, Proceeds, WithinLimits;
    FillsAreReports(cfg.inst, w.engine, b);
    var (engine, routed) := E.OnBook(cfg.inst, w.engine, b);
    var w1 := w.(engine := engine, mdSeq := b.mdSeq);
    assert WithinLimits(cfg, w1) by { SameEntries(cfg, w, b); }
    if w.s.tornDown {
      ProceedsSelf(cfg, w1);
    } else {
      var w2 := DeliverAll(cfg, w1, routed, encodes);
      AllDeliveredWithin(cfg, w1, routed, encodes);
      DeliveredWithin(cfg, w2, TickOf(cfg, b), encodes);
      ProceedsOn(cfg, w1, w2, DeliverTob(w2, TickOf(cfg, b), encodes));
    }
  }

  /** A book changes no session's number of entries. */
  lemma SameEntries(cfg: Config, w: World, b: E.Book)
    requires WithinLimits(cfg, w)
    ensures WithinLimits(cfg, w.(engine := E.OnBook(cfg.inst, w.engine, b).0, mdSeq := b.mdSeq))
  {
    hide E.SweepKeys, E.AfterBook;
    assert E.EntriesOf(E.OnBook(cfg.inst, w.engine, b).0.orders, w.s.epoch) == E.EntriesOf(w.engine.orders, w.s.epoch);
  }

  // --- one event ---------------------------------------------------------------------------

  predicate Gap(w: World, f: Frame) { f.Decoded? && f.cmd.seqNo != w.s.inSeqExpected }

  /** The close this event asks of an open session, if any. */
  function Asked(w: World, e: Event): Option<nat> {
    match e
    case CloseRequest(code) => Some(code)
    case ReadDone(r, _) =>
      (match r
       case TooBig => Some(1009)
       case Binary => Some(1002)
       case Message(f) => if Gap(w, f) then Some(1002) else None
       case _ => None)
    case _ => None
  }

  /** The code recorded where this event ends an open session outright. */
  function Verdict(e: Event): Option<nat> {
    match e
    case ReadDone(r, _) =>
      (match r
       case PeerClosed(peer) => Some(if peer == 0 then 1000 else peer)
       case TimedOut => Some(1001)
       case Aborted => Some(1001)
       case Violation(badPayload) => Some(if badPayload then 1007 else 1002)
       case Died => Some(1006)
       case _ => None)
    case WriteDone(ok, timedOut, aborted) => if ok then None else Some(if timedOut || aborted then 1001 else 1006)
    case _ => None
  }

  /** What becomes of an open session in one event. */
  ghost predicate Fate(cfg: Config, w: World, e: Event, t: World) {
    && (t.s.tornDown <==> Verdict(e).Some?)
    && (t.s.tornDown ==> !t.s.closing && t.log.closedWith == [Verdict(e).value])
    && (Asked(w, e).Some? ==> t.s.closing)
    && (t.s.closing ==>
          if Asked(w, e).Some? then t.s.closeCode == Asked(w, e).value
          else (t.s.closeCode == 1008 && Exceeded(cfg, t)) || (t.s.closeCode == 1011 && t.log.encoderFailed))
  }

  /** What each event keeps, beside settling an open session's fate. */
  ghost predicate Tended(cfg: Config, w: World, e: Event, t: World) {
    && WithinLimits(cfg, t) && OperationsClose(t) && t.s.out.hwm == w.s.out.hwm
    && w.log.longest <= t.log.longest && w.log.fullest <= t.log.fullest
    && (w.s.closing ==> t.s.closing && t.s.closeCode == w.s.closeCode) && (w.s.tornDown ==> t.s.closing == w.s.closing)
    && (Open(w) ==> Fate(cfg, w, e, t))
  }

  lemma NothingRecorded(w: World)
    requires Whole(w) && Open(w)
    ensures w.log.closedWith == [] && !w.s.epochRetired && !w.s.closeFrameSent && !w.log.encoderFailed
  {
    hide Stream, Settled, Attended, Gone;
  }

  /** Going on from where the session was, with nothing asked and nothing ended. */
  lemma ProceedsTended(cfg: Config, w: World, w1: World, e: Event, t: World)
    requires Whole(w) && OperationsClose(w) && Asked(w, e).None? && Verdict(e).None?
    requires Open(w1) == Open(w) && w1.s.closing == w.s.closing && w1.s.out.hwm == w.s.out.hwm && OperationsClose(w1)
    requires w1.log.longest == w.log.longest && w1.log.fullest == w.log.fullest && w1.s.closeCode == w.s.closeCode
    requires Proceeds(cfg, w1, t) && WithinLimits(cfg, t)
    ensures Tended(cfg, w, e, t)
  {
    hide WithinLimits, Whole;
  }

  lemma TeardownTended(cfg: Config, w: World, w1: World, e: Event, code: nat)
    requires Whole(w) && OperationsClose(w1) && (Open(w) ==> Asked(w, e).None? && Verdict(e) == Some(code))
    requires w1 == w.(s := w1.s, log := w.log.(completions := w1.log.completions)) && w1.s.out.hwm == w.s.out.hwm
    requires w1.s.tornDown == w.s.tornDown && w1.s.closing == w.s.closing && w1.s.closeCode == w.s.closeCode
    ensures Tended(cfg, w, e, Teardown(w1, code))
  {
    hide Whole;
    if Open(w) { NothingRecorded(w); }
    RetireEffect(w1.(s := w1.s.(tornDown := true)));
  }

  /** The same session and limits, whatever the engine has answered. */
  predicate Alongside(w: World, v: World) {
    && v.s == w.s.(inSeqExpected := v.s.inSeqExpected, pendingSvc := v.s.pendingSvc, reading := v.s.reading)
    && v.log == w.log.(svcs := v.log.svcs) && v.mdSeq == w.mdSeq
    && v.engine.book == w.engine.book && v.engine.bookSeen == w.engine.bookSeen
  }

  /** A frame that opens no gap is answered by one report. */
  lemma Reply(cfg: Config, w: World, f: Frame, svc: int, encodes: bool) returns (v: World, m: OutMsg)
    requires ValidConfig(cfg) && !Gap(w, f)
    ensures Alongside(w, v) && !m.Tob? && OnMessage(cfg, w, f, svc, encodes) == Pump(EnqueueReport(cfg, v, m, encodes), encodes)
  {
    hide EnqueueReport, Pump, OnCommand, Alongside;
    match f {
      case Oversized =>
        v, m := w, Reject("", MsgTooLarge, "message exceeds the 65536-byte cap");
        assert Alongside(w, w) by { AlongsideSelf(w); }
      case Undecodable(code, detail) =>
        v, m := w, Reject("", code, detail);
        assert Alongside(w, w) by { AlongsideSelf(w); }
      case Decoded(cmd) => v, m := CommandReply(cfg, w, cmd, svc, encodes);
    }
  }

  lemma AlongsideSelf(w: World)
    ensures Alongside(w, w)
  {
  }

  lemma CommandReply(cfg: Config, w: World, cmd: Command, svc: int, encodes: bool) returns (v: World, m: OutMsg)
    requires ValidConfig(cfg) && cmd.seqNo == w.s.inSeqExpected
    ensures Alongside(w, v) && !m.Tob? && OnCommand(cfg, w, cmd, svc, encodes) == EnqueueReport(cfg, v, m, encodes)
  {
    hide EnqueueReport, Answer, BeginClose;
    var w1 := w.(s := w.s.(inSeqExpected := w.s.inSeqExpected + 1));
    if cmd.epoch != w.s.epoch {
      v, m := w1, Reject(cmd.msg.clId, StaleEpoch, "command epoch does not match this session's epoch");
    } else {
      var answer := Answer(cfg, w1.engine, w1.s.epoch, cmd.msg);
      V.AnswerLocal(cfg, w1.engine, w1.s.epoch, cmd.msg);
      v, m := Answered(w1, answer.0, answer.1, svc), answer.1;
    }
  }

  lemma WithinAlongside(cfg: Config, w: World, v: World)
    requires WithinLimits(cfg, w) && Alongside(w, v)
    ensures Open(v) == Open(w)
    ensures Open(v) ==> |v.s.out.reports| <= v.s.out.hwm && !v.s.out.breached && !Exceeded(cfg, v)
  {
  }

  lemma MessageTended(cfg: Config, w: World, f: Frame, svc: int, encodes: bool)
    requires ValidConfig(cfg) && Whole(w) && Open(w) && WithinLimits(cfg, w) && OperationsClose(w)
    ensures Tended(cfg, w, ReadDone(Message(f), svc), OnMessage(cfg, w.(s := w.s.(reading := false)), f, svc, encodes))
  {
    hide Whole, BeginClose, EnqueueReport, Pump, WithinLimits, OnMessage;
    var e, w1 := ReadDone(Message(f), svc), w.(s := w.s.(reading := false));
    if Gap(w, f) {
      GapTended(cfg, w, f, svc, encodes);
    } else {
      var v, m := Reply(cfg, w1, f, svc, encodes);
      WithinAlongside(cfg, w, v);
      PushedWithin(cfg, v, m, encodes);
      var t1 := EnqueueReport(cfg, v, m, encodes);
      PumpProceeds(cfg, t1, encodes);
      ProceedsOn(cfg, v, t1, Pump(t1, encodes));
      ProceedsTended(cfg, w, v, e, Pump(t1, encodes));
    }
  }

  lemma GapTended(cfg: Config, w: World, f: Frame, svc: int, encodes: bool)
    requires ValidConfig(cfg) && Whole(w) && Open(w) && OperationsClose(w) && Gap(w, f)
    ensures Tended(cfg, w, ReadDone(Message(f), svc), OnMessage(cfg, w.(s := w.s.(reading := false)), f, svc, encodes))
  {
    hide Whole, BeginClose, EnqueueReport, Pump;
    var w1 := w.(s := w.s.(reading := false));
    BeginCloseLatches(cfg, w1, PROTOCOL_ERROR, encodes);
    PumpProceeds(cfg, BeginClose(w1, PROTOCOL_ERROR, encodes), encodes);
  }

  lemma Rearmed(cfg: Config, w: World, e: Event, t: World)
    requires Tended(cfg, w, e, t)
    ensures Tended(cfg, w, e, ReadNext(t))
  {
  }

  lemma ReadTended(cfg: Config, w: World, r: ReadResult, svc: int, encodes: bool)
    requires ValidConfig(cfg) && Whole(w) && WithinLimits(cfg, w) && OperationsClose(w)
    ensures Tended(cfg, w, ReadDone(r, svc), OnRead(cfg, w, r, svc, encodes))
  {
    hide Whole, BeginClose, OnMessage, WithinLimits, Tended, Teardown, LatchClose, RetireEpoch, ReadNext;
    var e, w1 := ReadDone(r, svc), w.(s := w.s.(reading := false));
    if !Open(w) {
      OverTended(cfg, w, w1, e);
      Rearmed(cfg, w, e, w1);
    }
    if !w.s.tornDown {
      match r {
        case Binary => if Open(w) { BinaryTended(cfg, w, svc, encodes); }
        case Message(f) =>
          if Open(w) {
            MessageTended(cfg, w, f, svc, encodes);
            Rearmed(cfg, w, e, OnMessage(cfg, w1, f, svc, encodes));
          }
        case TooBig => if Open(w) { TooBigTended(cfg, w, svc); } else { TeardownTended(cfg, w, w1, e, w.s.closeCode); }
        case _ => TeardownTended(cfg, w, w1, e, if w.s.closing then w.s.closeCode else Verdict(e).value);
      }
    }
  }

  lemma OverTended(cfg: Config, w: World, t: World, e: Event)
    requires !Open(w) && OperationsClose(w)
    requires t.s == w.s.(reading := t.s.reading, closeOp := t.s.closeOp, draining := t.s.draining,
                         writeInflight := t.s.writeInflight)
    requires OperationsClose(t) && t.log == w.log.(completions := t.log.completions)
    ensures Tended(cfg, w, e, t)
  {
  }

  lemma BinaryTended(cfg: Config, w: World, svc: int, encodes: bool)
    requires ValidConfig(cfg) && Whole(w) && Open(w) && OperationsClose(w)
    ensures Tended(cfg, w, ReadDone(Binary, svc), ReadNext(BeginClose(w.(s := w.s.(reading := false)), PROTOCOL_ERROR, encodes)))
  {
    hide Whole, BeginClose;
    BeginCloseLatches(cfg, w.(s := w.s.(reading := false)), PROTOCOL_ERROR, encodes);
  }

  lemma TooBigTended(cfg: Config, w: World, svc: int)
    requires ValidConfig(cfg) && Whole(w) && Open(w) && OperationsClose(w)
    ensures Tended(cfg, w, ReadDone(TooBig, svc), CloseThenDrain(LatchClose(w.(s := w.s.(reading := false)), TOO_BIG, false)))
  {
    hide Whole, LatchClose;
    LatchIs(w.(s := w.s.(reading := false)), TOO_BIG, false);
  }

  lemma WrittenTended(cfg: Config, w: World, ok: bool, timedOut: bool, aborted: bool, encodes: bool)
    requires Whole(w) && WithinLimits(cfg, w) && OperationsClose(w)
    ensures Tended(cfg, w, WriteDone(ok, timedOut, aborted), OnWrite(w, ok, timedOut, aborted, encodes))
  {
    hide Whole, Pump, Teardown, Tended, E.EntriesOf;
    var e := WriteDone(ok, timedOut, aborted);
    var w1 := w.(s := w.s.(writeInflight := false), log := w.log.(completions := w.log.completions + 1));
    if w.s.tornDown {
      OverTended(cfg, w, w1, e);
    } else if ok {
      PumpProceeds(cfg, w1, encodes);
      ProceedsTended(cfg, w, w1, e, Pump(w1, encodes));
    } else {
      TeardownTended(cfg, w, w1, e, if w.s.closing then w.s.closeCode else Verdict(e).value);
    }
  }

  lemma ClosedTended(cfg: Config, w: World, ok: bool)
    requires Whole(w) && OperationsClose(w) && w.s.closeOp != NoOp
    ensures Tended(cfg, w, CloseDone(ok), OnCloseDone(w, ok))
  {
    hide Whole, Teardown, Tended;
    var e, w1 := CloseDone(ok), w.(s := w.s.(closeOp := NoOp));
    OverTended(cfg, w, w1, e);
    OverTended(cfg, w, w1.(s := w1.s.(draining := true)), e);
    TeardownTended(cfg, w, w1, e, w.s.closeCode);
  }

  lemma DrainedTended(cfg: Config, w: World, ok: bool)
    requires Whole(w) && OperationsClose(w) && w.s.draining
    ensures Tended(cfg, w, DrainDone(ok), OnDrainDone(w, ok))
  {
    hide Whole, Teardown, Tended;
    var e, w1 := DrainDone(ok), w.(s := w.s.(draining := false));
    OverTended(cfg, w, w, e);
    TeardownTended(cfg, w, w1, e, w.s.closeCode);
  }

  lemma OthersTended(cfg: Config, w: World, engine: E.State)
    requires WithinLimits(cfg, w) && OperationsClose(w) && UntouchedFor(w.engine, engine, w.s.epoch)
    ensures Tended(cfg, w, Others(engine), w.(engine := engine))
  {
    assert E.EntriesOf(engine.orders, w.s.epoch) == E.EntriesOf(w.engine.orders, w.s.epoch);
  }

  lemma RequestTended(cfg: Config, w: World, code: nat, encodes: bool)
    requires Whole(w) && OperationsClose(w)
    ensures Tended(cfg, w, CloseRequest(code), BeginClose(w, code, encodes))
  {
    hide Whole, BeginClose;
    if Open(w) { BeginCloseLatches(cfg, w, code, encodes); } else { BeginRefused(w, encodes); }
  }

  lemma NextTended(cfg: Config, w: World, e: Event, encodes: bool)
    requires ValidConfig(cfg) && Whole(w) && Enabled(w, e) && WithinLimits(cfg, w) && OperationsClose(w)
    ensures Tended(cfg, w, e, Next(cfg, w, e, encodes))
  {
    hide Whole, WithinLimits, Tended, OnRead, OnWrite, OnCloseDone, OnDrainDone, OnPublish, BeginClose;
    match e
    case ReadDone(r, svc) => ReadTended(cfg, w, r, svc, encodes);
    case WriteDone(ok, timedOut, aborted) => WrittenTended(cfg, w, ok, timedOut, aborted, encodes);
    case CloseDone(ok) => ClosedTended(cfg, w, ok);
    case DrainDone(ok) => DrainedTended(cfg, w, ok);
    case Publish(bp, bq, ap, aq) =>
      var b := NextBook(w, bp, bq, ap, aq);
      PublishedWithin(cfg, w, b, encodes);
      ProceedsTended(cfg, w, w.(engine := E.OnBook(cfg.inst, w.engine, b).0, mdSeq := b.mdSeq), e, OnPublish(cfg, w, b, encodes));
    case CloseRequest(code) => RequestTended(cfg, w, code, encodes);
    case Others(engine) => OthersTended(cfg, w, engine);
  }

  // --- every run ---------------------------------------------------------------------------

  lemma {:induction false} AlwaysTended(cfg: Config, ws: seq<World>, hs: seq<Happening>, i: nat)
    requires ValidConfig(cfg) && IsRun(cfg, ws, hs) && i < |ws|
    ensures WithinLimits(cfg, ws[i]) && OperationsClose(ws[i]) && ws[i].s.out.hwm == ws[0].s.out.hwm
    ensures i > 0 ==> Tended(cfg, ws[i - 1], hs[i - 1].event, ws[i])
  {
    hide Next, Enabled, Fate, Whole;
    if i == 0 {
      assert E.EntriesOf(ws[0].engine.orders, ws[0].s.epoch) == {};
    } else {
      hide WithinLimits;
      AlwaysTended(cfg, ws, hs, i - 1);
      AlwaysWhole(cfg, ws, hs, i - 1);
      NextTended(cfg, ws[i - 1], hs[i - 1].event, hs[i - 1].encodes);
    }
  }

  /** In every run, a session neither closing nor over holds at most its high-water mark of reports and
      fewer entries than its cap, and did so after every push: the first push past either closes it. */
  lemma OpenWithinLimits(cfg: Config, ws: seq<World>, hs: seq<Happening>, i: nat)
    requires ValidConfig(cfg) && IsRun(cfg, ws, hs) && i < |ws|
    ensures var w := ws[i];
            (!w.s.closing && !w.s.tornDown ==>
               && |w.s.out.reports| <= w.s.out.hwm && w.log.longest <= w.s.out.hwm
               && |set k | k in w.engine.orders && k.session == w.s.epoch| < cfg.maxSessionEntries
               && w.log.fullest < cfg.maxSessionEntries)
  {
    hide IsRun;
    AlwaysTended(cfg, ws, hs, i);
    assert E.EntriesOf(ws[i].engine.orders, ws[i].s.epoch) == set k | k in ws[i].engine.orders && k.session == ws[i].s.epoch;
  }

  /** What one event makes of an open session, in every run. It is over at once exactly when a read ends
      or a write fails, under the code of the way it did. It closes under the code a request asks for,
      1009 for a message too big for the transport, 1002 for a binary frame or a gap in the commands;
      and besides, only 1008, past a limit at some push, or 1011, when the codec came back empty. */
  lemma ClosedFor(cfg: Config, ws: seq<World>, hs: seq<Happening>, i: nat)
    requires ValidConfig(cfg) && IsRun(cfg, ws, hs) && i < |hs| && !ws[i].s.closing && !ws[i].s.tornDown
    ensures Fate(cfg, ws[i], hs[i].event, ws[i + 1])
  {
    hide Next, Enabled, IsStart, Fate, WithinLimits;
    AlwaysTended(cfg, ws, hs, i + 1);
  }

  /** So whenever a session is found closing for policy, either that close was asked for or, at some
      push, the queue had outgrown its mark or the entries were at the cap. */
  lemma {:induction false} PolicyCloseHasCause(cfg: Config, ws: seq<World>, hs: seq<Happening>, i: nat)
    requires ValidConfig(cfg) && IsRun(cfg, ws, hs) && i < |ws| && ws[i].s.closing && ws[i].s.closeCode == 1008
    ensures (exists j :: 0 <= j < i && hs[j].event == CloseRequest(1008))
            || ws[i].log.longest > ws[i].s.out.hwm || ws[i].log.fullest >= cfg.maxSessionEntries
  {
    hide Next, Enabled, Whole, WithinLimits;
    if i > 0 {
      AlwaysTended(cfg, ws, hs, i);
      if ws[i - 1].s.closing { PolicyCloseHasCause(cfg, ws, hs, i - 1); }
      assert hs[i - 1].event == CloseRequest(1008) <==> Asked(ws[i - 1], hs[i - 1].event) == Some(1008);
    }
  }
}
