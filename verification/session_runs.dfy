/** What every run of a session keeps, whatever order its completions, books and requests arrive in:
    the wire stream it produces and the close it goes through. */
module SessionRuns {
  import opened Text
  import opened Protocol
  import opened SessionSpec
  import E = EngineSpec

  // --- reading the stream ------------------------------------------------------------------

  function Texts(sent: seq<Sent>): seq<Wire> {
    if sent == [] then []
    else Texts(sent[..|sent| - 1]) + if sent[|sent| - 1].Text? then [sent[|sent| - 1].wire] else []
  }

  function ReportsIn(ws: seq<Wire>): seq<OutMsg> {
    if ws == [] then []
    else ReportsIn(ws[..|ws| - 1]) + if ws[|ws| - 1].msg.Tob? then [] else [ws[|ws| - 1].msg]
  }

  function TicksIn(ws: seq<Wire>): seq<nat> {
    if ws == [] then []
    else TicksIn(ws[..|ws| - 1]) + if ws[|ws| - 1].msg.Tob? then [ws[|ws| - 1].msg.mdSeq] else []
  }

  function AckSvcs(ws: seq<Wire>): seq<int> {
    if ws == [] then []
    else AckSvcs(ws[..|ws| - 1]) + if ws[|ws| - 1].msg.OrderAck? then [ws[|ws| - 1].svc] else []
  }

  function Acks(ms: seq<OutMsg>): nat {
    if ms == [] then 0 else (if ms[0].OrderAck? then 1 else 0) + Acks(ms[1..])
  }

  lemma {:induction false} AcksAppend(a: seq<OutMsg>, m: OutMsg)
    ensures Acks(a + [m]) == Acks(a) + if m.OrderAck? then 1 else 0
  {
    if a == [] {
      assert (a + [m])[1..] == [];
    } else {
      AcksAppend(a[1..], m);
      assert (a + [m])[1..] == a[1..] + [m];
    }
  }

  lemma TextsAppend(sent: seq<Sent>, x: Sent)
    ensures Texts(sent + [x]) == Texts(sent) + if x.Text? then [x.wire] else []
  {
    assert (sent + [x])[..|sent|] == sent;
  }

  lemma WiresAppend(ws: seq<Wire>, x: Wire)
    ensures ReportsIn(ws + [x]) == ReportsIn(ws) + if x.msg.Tob? then [] else [x.msg]
    ensures TicksIn(ws + [x]) == TicksIn(ws) + if x.msg.Tob? then [x.msg.mdSeq] else []
    ensures AckSvcs(ws + [x]) == AckSvcs(ws) + if x.msg.OrderAck? then [x.svc] else []
  {
    assert (ws + [x])[..|ws|] == ws;
  }

  ghost predicate Increasing(ns: seq<nat>) { forall i, j :: 0 <= i < j < |ns| ==> ns[i] < ns[j] }

  // --- what holds at every moment: the stream ----------------------------------------------

  /** Envelope numbers 1, 2, 3, ... on this epoch, conflation notwithstanding. */
  ghost predicate Contiguous(s: Session, log: Log) {
    var ws := Texts(log.sent);
    && (forall i :: 0 <= i < |ws| ==> ws[i].seqNo == i + 1 && ws[i].epoch == s.epoch)
    && s.outSeq == |ws| + 1 + if log.encoderFailed then 1 else 0
  }

  /** Reports leave in push order and none is lost. */
  ghost predicate NothingLost(s: Session, log: Log) {
    && (!log.encoderFailed ==> log.pushed == ReportsIn(Texts(log.sent)) + s.out.reports)
    && (forall m :: m in s.out.reports ==> !m.Tob?)
  }

  /** md_seq strictly increases over the ticks written; every tick pushed was written, conflated,
      discarded at the close, or is still pending. */
  ghost predicate TicksAccounted(s: Session, log: Log) {
    var ns := TicksIn(Texts(log.sent));
    && Increasing(ns) && (forall n :: n in ns ==> n <= log.lastTick)
    && (s.out.tob.Some? ==> s.out.tob.value.Tob? && s.out.tob.value.mdSeq == log.lastTick && log.lastTick !in ns)
    && (!log.encoderFailed ==>
          log.ticks == |ns| + s.out.conflated + log.discarded + if s.out.tob.Some? then 1 else 0)
  }

  /** The k-th ack carries the service time of the k-th accepted order. */
  ghost predicate SvcsPaired(s: Session, log: Log) {
    !log.encoderFailed ==>
      && log.svcs == AckSvcs(Texts(log.sent)) + s.pendingSvc
      && |s.pendingSvc| == Acks(s.out.reports)
  }

  /** Sends and completions alternate: at most one write is ever outstanding. */
  ghost predicate OneWrite(s: Session, log: Log) {
    |Texts(log.sent)| == log.completions + if s.writeInflight then 1 else 0
  }

  ghost predicate Stream(s: Session, log: Log) {
    Contiguous(s, log) && NothingLost(s, log) && TicksAccounted(s, log) && SvcsPaired(s, log) && OneWrite(s, log)
  }

  // --- what holds at every moment: the close -----------------------------------------------

  /** One close frame at most, carrying the latched code, with nothing after it. */
  ghost predicate CloseFrameLast(s: Session, log: Log) {
    var sent := log.sent;
    && (forall i :: 0 <= i < |sent| - 1 ==> sent[i].Text?)
    && (s.closeFrameSent <==> sent != [] && sent[|sent| - 1].CloseFrame?)
    && (s.closeFrameSent ==> s.closing && sent[|sent| - 1].code == s.closeCode)
  }

  /** The epoch goes at the first close intent, or at teardown, once; session_closed is called once,
      with the latched code if there was one. */
  ghost predicate RetiredOnce(s: Session, log: Log) {
    && (s.epochRetired <==> s.closing || s.tornDown)
    && log.retirements == (if s.epochRetired then 1 else 0)
    && |log.closedWith| == (if s.tornDown then 1 else 0)
    && (s.tornDown && s.closing ==> log.closedWith == [s.closeCode])
  }

  /** A policy or going-away close drains, and no other does: its frame waits for the last report. */
  ghost predicate DrainedFirst(s: Session, log: Log) {
    && (s.closing ==> (s.drainThenClose <==> s.closeCode == POLICY_ERROR || s.closeCode == GOING_AWAY))
    && (s.closeFrameSent && s.drainThenClose && !log.encoderFailed ==> s.out.reports == [])
    && (s.closeOp == ThenDrain ==> s.closeFrameSent)
    && (log.encoderFailed ==> s.closeFrameSent)
  }

  ghost predicate Closing(s: Session, log: Log) {
    CloseFrameLast(s, log) && RetiredOnce(s, log) && DrainedFirst(s, log)
  }

  ghost predicate Inv(w: World) { Stream(w.s, w.log) && Closing(w.s, w.log) && Gone(w.s, w.engine) }

  /** Nothing of a retired epoch stays behind in the engine. */
  ghost predicate Gone(s: Session, engine: E.State) {
    s.epochRetired ==> forall k :: k in engine.orders ==> k.session != s.epoch
  }

  /** Nothing waits that could be moving: unless a write is out, the close frame is, or it is over, the
      outbox is empty and no close is pending. */
  ghost predicate Settled(s: Session) {
    s.tornDown || s.writeInflight || s.closeFrameSent || (Depth(s.out) == 0 && !s.closing)
  }

  /** A session not torn down is being read, or is draining an oversize message. */
  ghost predicate Attended(s: Session) { s.tornDown || s.reading || s.closeOp == ThenDrain || s.draining }

  /** What no move undoes: the latched close, the teardown and its verdict, what has been written. */
  ghost predicate Onward(w: World, t: World) {
    && t.s.epoch == w.s.epoch && t.mdSeq == w.mdSeq && t.log.lastTick == w.log.lastTick
    && t.s.reading == w.s.reading && t.s.draining == w.s.draining
    && (w.s.closeOp == ThenDrain ==> t.s.closeOp == ThenDrain)
    && (w.s.closing ==> t.s.closing && t.s.closeCode == w.s.closeCode && t.s.drainThenClose == w.s.drainThenClose)
    && (w.s.tornDown ==> t.s.tornDown && t.log.closedWith == w.log.closedWith)
    && w.log.sent <= t.log.sent
  }

  // --- the close moves ---------------------------------------------------------------------

  lemma RetireEffect(w: World)
    ensures var t := RetireEpoch(w);
            && t == World(t.engine, w.mdSeq, w.s.(epochRetired := true),
                          w.log.(retirements := w.log.retirements + if w.s.epochRetired then 0 else 1))
            && (w.s.epochRetired ==> t.engine == w.engine)
            && (!w.s.epochRetired ==> Gone(t.s, t.engine))
  {
  }

  lemma LatchKeeps(w: World, code: nat, drain: bool)
    requires Inv(w) && (drain <==> code == POLICY_ERROR || code == GOING_AWAY)
    ensures var t := LatchClose(w, code, drain);
            && Inv(t) && Onward(w, t) && (t.s.closing || t.s.tornDown) && t.s.out == w.s.out
            && t.s.writeInflight == w.s.writeInflight && t.s.tornDown == w.s.tornDown
            && t.log.encoderFailed == w.log.encoderFailed
            && t.s.closeFrameSent == w.s.closeFrameSent
            && (!w.s.closing && !w.s.tornDown ==> t.s.closeCode == code && t.s.drainThenClose == drain)
  {
    hide RetireEpoch, Texts, ReportsIn, TicksIn, AckSvcs, Acks, Increasing;
    RetireEffect(w.(s := w.s.(closing := true, closeCode := code, drainThenClose := drain)));
  }

  lemma TeardownKeeps(w: World, code: nat)
    requires Inv(w) && (w.s.closing ==> code == w.s.closeCode)
    ensures var t := Teardown(w, code); Inv(t) && Onward(w, t) && t.s.tornDown && t.s.writeInflight == w.s.writeInflight
  {
    hide RetireEpoch, Texts, ReportsIn, TicksIn, AckSvcs, Acks, Increasing;
    RetireEffect(w.(s := w.s.(tornDown := true)));
  }

  lemma CloseFrameKeepsStream(s: Session, log: Log, code: nat, t: Session)
    requires Stream(s, log)
    requires t.epoch == s.epoch && t.outSeq == s.outSeq && t.out == s.out && t.pendingSvc == s.pendingSvc
    requires t.writeInflight == s.writeInflight
    ensures Stream(t, log.(sent := log.sent + [CloseFrame(code)]))
  {
    hide Texts, ReportsIn, TicksIn, AckSvcs, Acks, Increasing;
    TextsAppend(log.sent, CloseFrame(code));
    assert Texts(log.sent + [CloseFrame(code)]) == Texts(log.sent);
  }

  lemma SendCloseKeeps(w: World)
    requires Inv(w) && w.s.closing
    requires w.s.drainThenClose && !w.log.encoderFailed ==> w.s.out.reports == []
    ensures var t := SendCloseFrame(w);
            && Inv(t) && Onward(w, t) && t.s.writeInflight == w.s.writeInflight
            && (t.s.closeFrameSent || w.s.tornDown || w.s.writeInflight)
  {
    hide Stream;
    CloseFrameKeepsStream(w.s, w.log, w.s.closeCode, w.s.(closeFrameSent := true, closeOp := Handshake));
  }

  lemma CloseThenDrainKeeps(w: World)
    requires Inv(w) && w.s.closing && !w.s.closeFrameSent && w.s.closeCode == TOO_BIG && !w.s.drainThenClose
    ensures var t := CloseThenDrain(w); Inv(t) && t.log.sent == w.log.sent + [CloseFrame(TOO_BIG)]
  {
    hide Stream;
    CloseFrameKeepsStream(w.s, w.log, TOO_BIG, w.s.(closeFrameSent := true, closeOp := ThenDrain));
  }

  // --- the write moves ---------------------------------------------------------------------

  lemma TickLeaves(s: Session, log: Log, t: OutMsg, tlog: Log, tick: nat)
    requires TicksAccounted(s, log) && s.out.tob.Some? && s.out.tob.value.mdSeq == tick
    requires TicksIn(Texts(tlog.sent)) == TicksIn(Texts(log.sent)) + [tick]
    requires tlog.ticks == log.ticks && tlog.lastTick == log.lastTick && tlog.discarded == log.discarded
    requires tlog.encoderFailed == log.encoderFailed
    ensures TicksAccounted(s.(out := s.out.(tob := None)), tlog)
  {
    hide Texts, TicksIn;
    var ns := TicksIn(Texts(log.sent));
    assert forall i :: 0 <= i < |ns| ==> ns[i] in ns;
  }

  /** Encoding and handing over the message at the front keeps the stream whole. */
  lemma SentKeepsStream(s: Session, log: Log, m: OutMsg, rest: Outbox)
    requires Stream(s, log) && Pop(s.out) == (Some(m), rest) && !s.writeInflight && !log.encoderFailed
    ensures var s1 := s.(out := rest);
            Stream(Stamped(s1, m).(writeInflight := true), log.(sent := log.sent + [Text(Stamp(s1, m))]))
  {
    hide Texts, ReportsIn, TicksIn, AckSvcs, Acks, Increasing;
    var wire := Stamp(s.(out := rest), m);
    TextsAppend(log.sent, Text(wire));
    WiresAppend(Texts(log.sent), wire);
    var log1 := log.(sent := log.sent + [Text(wire)]);
    var s1 := Stamped(s.(out := rest), m).(writeInflight := true);
    if s.out.reports == [] {
      TickLeaves(s, log, m, log1, m.mdSeq);
      assert NothingLost(s1, log1) && SvcsPaired(s1, log1);
    } else {
      assert m in s.out.reports;
      ReportLeaves(s, log, m, rest, s1, log1, wire.svc);
    }
  }

  lemma ReportLeaves(s: Session, log: Log, m: OutMsg, rest: Outbox, t: Session, tlog: Log, svc: int)
    requires Stream(s, log) && s.out.reports == [m] + rest.reports && rest == s.out.(reports := rest.reports)
    requires !log.encoderFailed && t.out == rest && t.pendingSvc == Stamped(s, m).pendingSvc && svc == Stamp(s, m).svc
    requires tlog == log.(sent := tlog.sent)
    requires ReportsIn(Texts(tlog.sent)) == ReportsIn(Texts(log.sent)) + [m]
    requires TicksIn(Texts(tlog.sent)) == TicksIn(Texts(log.sent))
    requires AckSvcs(Texts(tlog.sent)) == AckSvcs(Texts(log.sent)) + if m.OrderAck? then [svc] else []
    ensures NothingLost(t, tlog) && TicksAccounted(t, tlog) && SvcsPaired(t, tlog)
  {
    hide Texts, ReportsIn, TicksIn, AckSvcs, Increasing;
    assert s.out.reports[1..] == rest.reports;
    assert m.OrderAck? ==> s.pendingSvc == [s.pendingSvc[0]] + s.pendingSvc[1..];
  }

  /** A message the codec cannot encode dies with the session; its number is spent. */
  lemma FailedKeepsStream(s: Session, log: Log, m: OutMsg, rest: Outbox)
    requires Stream(s, log) && Pop(s.out) == (Some(m), rest) && !log.encoderFailed
    ensures Stream(Stamped(s.(out := rest), m), log.(encoderFailed := true))
  {
    hide Texts, ReportsIn, TicksIn, AckSvcs, Acks;
    assert forall x :: x in rest.reports ==> x in s.out.reports;
  }

  predicate CanWrite(w: World, m: OutMsg) {
    !w.s.writeInflight && !w.s.tornDown && !w.s.closeFrameSent && (w.s.closing ==> w.s.drainThenClose && !m.Tob?)
  }

  lemma WriteKeeps(w: World, m: OutMsg, rest: Outbox)
    requires Inv(w) && Pop(w.s.out) == (Some(m), rest) && CanWrite(w, m)
    ensures var t := Write(WithOut(w, rest), m, true); Inv(t) && Onward(w, t) && t.s.writeInflight
  {
    hide Stream, Pop;
    SentKeepsStream(w.s, w.log, m, rest);
  }

  lemma FailedWriteKeeps(w: World, m: OutMsg, rest: Outbox)
    requires Inv(w) && Pop(w.s.out) == (Some(m), rest) && CanWrite(w, m)
    ensures var t := Write(WithOut(w, rest), m, false);
            Inv(t) && Onward(w, t) && t.s.closeFrameSent && t.log.encoderFailed
  {
    hide Stream, Pop, RetireEpoch;
    FailedKeepsStream(w.s, w.log, m, rest);
    var s1 := Stamped(w.s.(out := rest), m);
    var w1 := w.(s := s1, log := w.log.(encoderFailed := true));
    var latched := LatchClose(w1, INTERNAL_ERROR, false);
    RetireEffect(w1.(s := s1.(closing := true, closeCode := INTERNAL_ERROR, drainThenClose := false)));
    assert Stream(latched.s, latched.log) by { StreamIgnoresClose(s1, w1.log, latched.s, latched.log); }
    CloseFrameKeepsStream(latched.s, latched.log, latched.s.closeCode, latched.s.(closeFrameSent := true, closeOp := Handshake));
  }

  lemma StreamIgnoresClose(s: Session, log: Log, t: Session, tlog: Log)
    requires Stream(s, log)
    requires t.epoch == s.epoch && t.outSeq == s.outSeq && t.out == s.out && t.pendingSvc == s.pendingSvc
    requires t.writeInflight == s.writeInflight
    requires tlog.(retirements := log.retirements, closedWith := log.closedWith) == log
    ensures Stream(t, tlog)
  {
    hide Texts, ReportsIn, TicksIn, AckSvcs, Acks, Increasing;
  }

  lemma DiscardKeeps(w: World, rest: Outbox)
    requires Inv(w) && w.s.out.reports == [] && w.s.out.tob.Some? && Pop(w.s.out) == (w.s.out.tob, rest)
    ensures Inv(Discarded(w, rest)) && Onward(w, Discarded(w, rest))
  {
    hide Texts, ReportsIn, TicksIn, AckSvcs, Acks, Increasing;
  }

  /** Whether a further report would still be owed to the reader. */
  predicate Pushable(w: World) { w.s.closeFrameSent && w.s.drainThenClose ==> w.log.encoderFailed }

  lemma NotDrained(w: World)
    requires Closing(w.s, w.log) && w.s.out.reports != []
    ensures Pushable(w)
  {
  }

  /** The pump loop: whatever it does, nothing is left waiting when it returns. */
  lemma {:induction false} PumpKeeps(w: World, encodes: bool)
    requires Inv(w)
    ensures var t := Pump(w, encodes);
            Inv(t) && Onward(w, t) && Settled(t.s) && (w.s.out.reports != [] ==> Pushable(t))
    decreases Depth(w.s.out)
  {
    hide Stream, Closing, Write, SendCloseFrame, Gone;
    if w.s.writeInflight || w.s.tornDown || w.s.closeFrameSent {
      if w.s.out.reports != [] { NotDrained(w); }
    } else {
      var (m, rest) := Pop(w.s.out);
      if w.s.closing && !w.s.drainThenClose {
        SendCloseKeeps(w);
      } else if m.None? {
        if w.s.closing { SendCloseKeeps(w); }
      } else if w.s.closing && m.value.Tob? {
        PendingTick(w.s, w.log);
        DiscardKeeps(w, rest);
        PumpKeeps(Discarded(w, rest), encodes);
      } else if encodes {
        WriteKeeps(w, m.value, rest);
        assert Write(WithOut(w, rest), m.value, true).s.closeFrameSent == w.s.closeFrameSent by {
          WriteOpen(WithOut(w, rest), m.value);
        }
      } else {
        FailedWriteKeeps(w, m.value, rest);
      }
    }
  }

  lemma PendingTick(s: Session, log: Log)
    requires Stream(s, log) && Pop(s.out).0.Some? && Pop(s.out).0.value.Tob?
    ensures s.out.reports == [] && s.out.tob.Some?
  {
    assert Pop(s.out).0.value !in s.out.reports;
  }

  lemma WriteOpen(w: World, m: OutMsg)
    ensures Write(w, m, true).s.closeFrameSent == w.s.closeFrameSent
  {
  }

  lemma PumpIdle(w: World, encodes: bool)
    requires Settled(w.s)
    ensures Pump(w, encodes) == w
  {
    hide Write, SendCloseFrame;
  }

  // --- closing, and checking whether to ----------------------------------------------------

  lemma BeginCloseKeeps(w: World, code: nat, encodes: bool)
    requires Inv(w)
    ensures var t := BeginClose(w, code, encodes);
            && Inv(t) && Onward(w, t)
            && (if w.s.closing || w.s.tornDown then t == w else Settled(t.s))
            && (w.s.out.reports != [] ==> Pushable(t))
  {
    hide Stream, Gone, Pump, LatchClose, Settled, RetiredOnce, CloseFrameLast;
    if w.s.closing || w.s.tornDown {
      if w.s.out.reports != [] { NotDrained(w); }
    } else {
      LatchKeeps(w, code, code == POLICY_ERROR || code == GOING_AWAY);
      PumpKeeps(LatchClose(w, code, code == POLICY_ERROR || code == GOING_AWAY), encodes);
    }
  }

  /** After a report has been pushed: the policy check, then the pump. */
  lemma PushedThenPumped(cfg: Config, w: World, encodes: bool)
    requires Inv(w) && w.s.out.reports != []
    ensures var t := Pump(CheckPolicyCloses(cfg, w, encodes), encodes);
            Inv(t) && Onward(w, t) && Settled(t.s) && Pushable(t)
  {
    hide Inv, Onward, Pump, BeginClose, Settled, Pushable;
    var w1 := CheckPolicyCloses(cfg, w, encodes);
    BeginCloseKeeps(w, POLICY_ERROR, encodes);
    if w1 == w {
      PumpKeeps(w, encodes);
    } else {
      assert w1 == BeginClose(w, POLICY_ERROR, encodes);
      PumpIdle(w1, encodes);
    }
  }

  /** A report enters the queue; an ack brings the service time it will carry. */
  lemma PushKeepsStream(s: Session, log: Log, m: OutMsg, svc: seq<int>, queued: nat, entries: nat)
    requires Stream(s, log) && !m.Tob? && |svc| == (if m.OrderAck? then 1 else 0)
    ensures Stream(s.(out := PushReport(s.out, m), pendingSvc := s.pendingSvc + svc),
                   Noted(log.(svcs := log.svcs + svc), m, queued, entries))
  {
    hide Texts, ReportsIn, TicksIn, AckSvcs, Acks, Increasing;
    AcksAppend(s.out.reports, m);
  }

  lemma EnqueuedKeeps(w: World, m: OutMsg)
    requires Inv(w) && !m.Tob? && !m.OrderAck? && Pushable(w)
    ensures Inv(Enqueued(w, m)) && Onward(w, Enqueued(w, m))
  {
    hide Stream;
    PushKeepsStream(w.s, w.log, m, [], |w.s.out.reports| + 1, |E.EntriesOf(w.engine.orders, w.s.epoch)|);
    assert w.s.pendingSvc + [] == w.s.pendingSvc && w.log.svcs + [] == w.log.svcs;
  }

  lemma AnsweredKeeps(w: World, engine: E.State, m: OutMsg, svc: int)
    requires Inv(w) && !m.Tob? && !w.s.closing && !w.s.tornDown
    ensures var t := Enqueued(Answered(w, engine, m, svc), m); Inv(t) && Onward(w, t)
  {
    hide Stream;
    var svcs := if m.OrderAck? then [svc] else [];
    PushKeepsStream(w.s, w.log, m, svcs, |w.s.out.reports| + 1, |E.EntriesOf(engine.orders, w.s.epoch)|);
    assert w.s.pendingSvc + [] == w.s.pendingSvc && w.log.svcs + [] == w.log.svcs;
  }

  lemma OnwardOn(a: World, b: World, c: World)
    requires Onward(a, b) && Onward(b, c)
    ensures Onward(a, c)
  {
  }

  // --- delivering --------------------------------------------------------------------------

  lemma DeliverReportKeeps(cfg: Config, w: World, m: OutMsg, encodes: bool)
    requires Inv(w) && m.Fill? && (Pushable(w) || w.s.tornDown)
    ensures var t := DeliverReport(cfg, w, m, encodes);
            Inv(t) && Onward(w, t) && Settled(t.s) && (Pushable(t) || t.s.tornDown)
  {
    hide Inv, Onward, CheckPolicyCloses, Pump, Pushable;
    if w.s.tornDown {
      assert Onward(w, w) by { OnwardSelf(w); }
    } else {
      EnqueuedKeeps(w, m);
      var w1 := Enqueued(w, m);
      PushedThenPumped(cfg, w1, encodes);
      OnwardOn(w, w1, Pump(CheckPolicyCloses(cfg, w1, encodes), encodes));
    }
  }

  lemma OnwardSelf(w: World)
    ensures Onward(w, w)
  {
  }

  /** The fills of one book, in order; a report that breaches the mark closes the session between two of them. */
  lemma {:induction false} DeliverAllKeeps(cfg: Config, w: World, routed: seq<E.Routed>, encodes: bool)
    requires Inv(w) && Settled(w.s) && (forall r :: r in routed ==> r.msg.Fill?)
    requires w.s.closing ==> forall r :: r in routed ==> r.session != w.s.epoch
    ensures var t := DeliverAll(cfg, w, routed, encodes);
            && Inv(t) && Onward(w, t) && Settled(t.s)
            && (w.s.closing ==> t == w) && (!w.s.closing ==> Pushable(t) || t.s.tornDown)
  {
    hide Stream, RetiredOnce, DrainedFirst, Gone, Onward, DeliverReport, Settled;
    OnwardSelf(w);
    if routed != [] {
      var w1 := DeliverAll(cfg, w, routed[..|routed| - 1], encodes);
      DeliverAllKeeps(cfg, w, routed[..|routed| - 1], encodes);
      var last := routed[|routed| - 1];
      assert last in routed;
      if last.session == w.s.epoch {
        DeliverReportKeeps(cfg, w1, last.msg, encodes);
        OnwardOn(w, w1, DeliverReport(cfg, w1, last.msg, encodes));
      }
    }
  }

  lemma TickedKeeps(w: World, t: OutMsg)
    requires Inv(w) && t.Tob? && t.mdSeq > w.log.lastTick
    ensures Inv(Ticked(w, t))
  {
    hide Texts, ReportsIn, TicksIn, AckSvcs, Acks, Increasing;
    assert w.log.lastTick + 1 !in TicksIn(Texts(w.log.sent));
  }

  /** What a run carries along with the invariant. */
  ghost predicate Whole(w: World) { Inv(w) && Settled(w.s) && Attended(w.s) && w.log.lastTick <= w.mdSeq }

  /** What no event undoes. */
  ghost predicate Kept(w: World, t: World) {
    && t.s.epoch == w.s.epoch && w.mdSeq <= t.mdSeq
    && (w.s.closing ==> t.s.closing && t.s.closeCode == w.s.closeCode && t.s.drainThenClose == w.s.drainThenClose)
    && (w.s.tornDown ==> t.s.tornDown && t.log.closedWith == w.log.closedWith)
    && w.log.sent <= t.log.sent
  }

  lemma DeliverTobKeeps(w: World, t: OutMsg, encodes: bool)
    requires Inv(w) && Settled(w.s) && t.Tob? && t.mdSeq > w.log.lastTick
    ensures var u := DeliverTob(w, t, encodes);
            Inv(u) && Settled(u.s) && Kept(w, u) && (Attended(w.s) ==> Attended(u.s)) && u.log.lastTick <= t.mdSeq
  {
    hide Inv, Pump, Settled;
    if !(w.s.tornDown || w.s.closing) {
      TickedKeeps(w, t);
      PumpKeeps(Ticked(w, t), encodes);
    }
  }

  lemma NoFillsWhenGone(cfg: Config, w: World, b: E.Book)
    requires Inv(w) && w.s.closing
    ensures forall r :: r in E.OnBook(cfg.inst, w.engine, b).1 ==> r.session != w.s.epoch
  {
    hide Stream;
    assert Gone(w.s, w.engine) && w.s.epochRetired;
    if !(w.engine.bookSeen && b.mdSeq <= w.engine.book.mdSeq) {
      var ks := E.SweepKeys(cfg.inst, w.engine.orders, b);
      assert forall k :: k in ks ==> k in w.engine.orders;
    }
  }

  lemma BookKeepsInv(cfg: Config, w: World, b: E.Book)
    requires Inv(w)
    ensures Inv(w.(engine := E.OnBook(cfg.inst, w.engine, b).0, mdSeq := b.mdSeq))
  {
    hide Stream, Closing;
  }

  lemma PublishKeeps(cfg: Config, w: World, b: E.Book, encodes: bool)
    requires Whole(w) && b.mdSeq == w.mdSeq + 1
    ensures var t := OnPublish(cfg, w, b, encodes); Whole(t) && Kept(w, t)
  {
    hide Inv, Settled, DeliverAll, DeliverTob, E.OnBook;
    FillsAreReports(cfg.inst, w.engine, b);
    var (engine, routed) := E.OnBook(cfg.inst, w.engine, b);
    var w1 := w.(engine := engine, mdSeq := b.mdSeq);
    BookKeepsInv(cfg, w, b);
    if !w.s.tornDown {
      if w.s.closing { NoFillsWhenGone(cfg, w, b); }
      DeliverAllKeeps(cfg, w1, routed, encodes);
      DeliverTobKeeps(DeliverAll(cfg, w1, routed, encodes), TickOf(cfg, b), encodes);
    }
  }

  // --- reading -----------------------------------------------------------------------------

  /** The rest of OnMessage once its report is queued. */
  lemma ReportedKeeps(cfg: Config, w: World, w1: World, m: OutMsg, encodes: bool)
    requires Inv(w1) && Onward(w, w1) && w1.s.out.reports != []
    ensures var t := Pump(CheckPolicyCloses(cfg, w1, encodes), encodes); Inv(t) && Onward(w, t) && Settled(t.s)
  {
    hide Inv, Onward, CheckPolicyCloses, Pump, Pushable, Settled;
    PushedThenPumped(cfg, w1, encodes);
    OnwardOn(w, w1, Pump(CheckPolicyCloses(cfg, w1, encodes), encodes));
  }

  lemma RejectedKeeps(cfg: Config, w: World, m: OutMsg, encodes: bool)
    requires Inv(w) && m.Reject? && !w.s.closing
    ensures var t := Pump(EnqueueReport(cfg, w, m, encodes), encodes); Inv(t) && Onward(w, t) && Settled(t.s)
  {
    hide Stream, RetiredOnce, DrainedFirst, Gone, Onward, CheckPolicyCloses, Pump, Settled;
    EnqueuedKeeps(w, m);
    ReportedKeeps(cfg, w, Enqueued(w, m), m, encodes);
  }

  lemma AskKeeps(cfg: Config, w: World, msg: InMsg, svc: int, encodes: bool)
    requires ValidConfig(cfg) && Inv(w) && !w.s.closing && !w.s.tornDown
    ensures var t := Pump(AskEngine(cfg, w, msg, svc, encodes), encodes); Inv(t) && Onward(w, t) && Settled(t.s)
  {
    hide Inv, Onward, CheckPolicyCloses, Pump, Settled, Answer;
    var (engine, report) := Answer(cfg, w.engine, w.s.epoch, msg);
    AnsweredKeeps(w, engine, report, svc);
    ReportedKeeps(cfg, w, Enqueued(Answered(w, engine, report, svc), report), report, encodes);
  }

  lemma CountedKeeps(w: World)
    requires Inv(w)
    ensures var t := w.(s := w.s.(inSeqExpected := w.s.inSeqExpected + 1)); Inv(t) && Onward(w, t)
  {
    hide Texts, ReportsIn, TicksIn, AckSvcs, Acks, Increasing;
  }

  lemma CommandKeeps(cfg: Config, w: World, cmd: Command, svc: int, encodes: bool)
    requires ValidConfig(cfg) && Inv(w) && !w.s.closing && !w.s.tornDown
    ensures var t := Pump(OnCommand(cfg, w, cmd, svc, encodes), encodes); Inv(t) && Onward(w, t) && Settled(t.s)
  {
    hide Inv, Onward, BeginClose, Pump, Settled, EnqueueReport, AskEngine;
    if cmd.seqNo != w.s.inSeqExpected {
      BeginCloseKeeps(w, PROTOCOL_ERROR, encodes);
      PumpIdle(BeginClose(w, PROTOCOL_ERROR, encodes), encodes);
    } else {
      var w1 := w.(s := w.s.(inSeqExpected := w.s.inSeqExpected + 1));
      CountedKeeps(w);
      if cmd.epoch != w.s.epoch {
        var m := Reject(cmd.msg.clId, StaleEpoch, "command epoch does not match this session's epoch");
        RejectedKeeps(cfg, w1, m, encodes);
        OnwardOn(w, w1, Pump(EnqueueReport(cfg, w1, m, encodes), encodes));
      } else {
        AskKeeps(cfg, w1, cmd.msg, svc, encodes);
        OnwardOn(w, w1, Pump(AskEngine(cfg, w1, cmd.msg, svc, encodes), encodes));
      }
    }
  }

  lemma MessageKeeps(cfg: Config, w: World, f: Frame, svc: int, encodes: bool)
    requires ValidConfig(cfg) && Inv(w) && !w.s.closing && !w.s.tornDown
    ensures var t := OnMessage(cfg, w, f, svc, encodes); Inv(t) && Onward(w, t) && Settled(t.s)
  {
    hide Inv, Onward, Pump, Settled, EnqueueReport, OnCommand;
    match f
    case Oversized => RejectedKeeps(cfg, w, Reject("", MsgTooLarge, "message exceeds the 65536-byte cap"), encodes);
    case Undecodable(code, detail) => RejectedKeeps(cfg, w, Reject("", code, detail), encodes);
    case Decoded(cmd) => CommandKeeps(cfg, w, cmd, svc, encodes);
  }

  lemma OperationsKeep(w: World, t: World)
    requires Inv(w) && t == w.(s := w.s.(reading := t.s.reading, draining := t.s.draining, closeOp := t.s.closeOp))
    requires t.s.closeOp != ThenDrain || t.s.closeOp == w.s.closeOp
    ensures Inv(t)
  {
    hide Texts, ReportsIn, TicksIn, AckSvcs, Acks, Increasing;
  }

  lemma OversizeKeeps(w: World)
    requires Inv(w) && !w.s.closing && !w.s.tornDown
    ensures var t := CloseThenDrain(LatchClose(w, TOO_BIG, false));
            && Inv(t) && Kept(w, t) && t.s.closeFrameSent && t.s.closeOp == ThenDrain
            && t.log.lastTick == w.log.lastTick && t.mdSeq == w.mdSeq
  {
    hide Stream, LatchClose, RetiredOnce, DrainedFirst, Gone;
    LatchKeeps(w, TOO_BIG, false);
    CloseThenDrainKeeps(LatchClose(w, TOO_BIG, false));
  }

  lemma ReadKeeps(cfg: Config, w0: World, r: ReadResult, svc: int, encodes: bool)
    requires ValidConfig(cfg) && Whole(w0)
    ensures var t := OnRead(cfg, w0, r, svc, encodes); Whole(t) && Kept(w0, t)
  {
    hide Inv, Teardown, LatchClose, CloseThenDrain, BeginClose, OnMessage;
    var w := w0.(s := w0.s.(reading := false));
    OperationsKeep(w0, w);
    var t := OnRead(cfg, w0, r, svc, encodes);
    if !w.s.tornDown {
      match r
      case PeerClosed(peer) => TeardownKeeps(w, if w.s.closing then w.s.closeCode else if peer == 0 then NORMAL else peer);
      case TimedOut => TeardownKeeps(w, if w.s.closing then w.s.closeCode else GOING_AWAY);
      case Aborted => TeardownKeeps(w, if w.s.closing then w.s.closeCode else GOING_AWAY);
      case TooBig => if w.s.closing { TeardownKeeps(w, w.s.closeCode); } else { OversizeKeeps(w); }
      case Violation(bad) =>
        TeardownKeeps(w, if w.s.closing then w.s.closeCode else if bad then BAD_PAYLOAD else PROTOCOL_ERROR);
      case Died => TeardownKeeps(w, if w.s.closing then w.s.closeCode else ABNORMAL);
      case Binary =>
        BeginCloseKeeps(w, PROTOCOL_ERROR, encodes);
        RearmedKeeps(w0, w, if w.s.closing then w else BeginClose(w, PROTOCOL_ERROR, encodes));
      case Message(f) =>
        if !w.s.closing { MessageKeeps(cfg, w, f, svc, encodes); }
        RearmedKeeps(w0, w, if w.s.closing then w else OnMessage(cfg, w, f, svc, encodes));
    }
  }

  lemma RearmedKeeps(w0: World, w: World, w1: World)
    requires Whole(w0) && w == w0.(s := w0.s.(reading := false)) && Inv(w1) && (Onward(w, w1) || w1 == w) && Settled(w1.s)
    ensures Whole(ReadNext(w1)) && Kept(w0, ReadNext(w1))
  {
    hide Inv;
    OperationsKeep(w1, ReadNext(w1));
  }

  // --- the other completions ---------------------------------------------------------------

  lemma CompletedKeeps(w: World)
    requires Inv(w) && w.s.writeInflight
    ensures Inv(w.(s := w.s.(writeInflight := false), log := w.log.(completions := w.log.completions + 1)))
  {
    hide Texts, ReportsIn, TicksIn, AckSvcs, Acks, Increasing;
  }

  lemma WrittenKeeps(w0: World, ok: bool, timedOut: bool, aborted: bool, encodes: bool)
    requires Whole(w0) && w0.s.writeInflight
    ensures var t := OnWrite(w0, ok, timedOut, aborted, encodes); Whole(t) && Kept(w0, t)
  {
    hide Inv, Teardown, Pump;
    var w := w0.(s := w0.s.(writeInflight := false), log := w0.log.(completions := w0.log.completions + 1));
    CompletedKeeps(w0);
    if w.s.tornDown {
    } else if !ok {
      var idle := timedOut || (aborted && !w.s.closing);
      TeardownKeeps(w, if w.s.closing then w.s.closeCode else if idle then GOING_AWAY else ABNORMAL);
    } else {
      PumpKeeps(w, encodes);
    }
  }

  lemma ClosedKeeps(w0: World, ok: bool)
    requires Whole(w0) && w0.s.closeOp != NoOp
    ensures Whole(OnCloseDone(w0, ok)) && Kept(w0, OnCloseDone(w0, ok))
  {
    hide Inv, Teardown;
    var w := w0.(s := w0.s.(closeOp := NoOp));
    OperationsKeep(w0, w);
    OperationsKeep(w0, w.(s := w.s.(draining := true)));
    TeardownKeeps(w, w.s.closeCode);
  }

  lemma DrainedKeeps(w0: World, ok: bool)
    requires Whole(w0) && w0.s.draining
    ensures Whole(OnDrainDone(w0, ok)) && Kept(w0, OnDrainDone(w0, ok))
  {
    hide Inv, Teardown;
    var w := w0.(s := w0.s.(draining := false));
    OperationsKeep(w0, w);
    TeardownKeeps(w, w.s.closeCode);
  }

  lemma OthersKeep(w: World, engine: E.State)
    requires Whole(w) && UntouchedFor(w.engine, engine, w.s.epoch)
    ensures Whole(w.(engine := engine)) && Kept(w, w.(engine := engine))
  {
    hide Stream, Closing;
  }

  lemma RequestKeeps(w: World, code: nat, encodes: bool)
    requires Whole(w)
    ensures var t := BeginClose(w, code, encodes); Whole(t) && Kept(w, t)
  {
    hide Inv, BeginClose;
    BeginCloseKeeps(w, code, encodes);
  }

  lemma NextKeeps(cfg: Config, w: World, e: Event, encodes: bool)
    requires ValidConfig(cfg) && Whole(w) && Enabled(w, e)
    ensures Whole(Next(cfg, w, e, encodes)) && Kept(w, Next(cfg, w, e, encodes))
  {
    hide Whole, Kept, OnRead, OnWrite, OnCloseDone, OnDrainDone, OnPublish, BeginClose;
    match e
    case ReadDone(r, svc) => ReadKeeps(cfg, w, r, svc, encodes);
    case WriteDone(ok, timedOut, aborted) => WrittenKeeps(w, ok, timedOut, aborted, encodes);
    case CloseDone(ok) => ClosedKeeps(w, ok);
    case DrainDone(ok) => DrainedKeeps(w, ok);
    case Publish(bp, bq, ap, aq) => PublishKeeps(cfg, w, NextBook(w, bp, bq, ap, aq), encodes);
    case CloseRequest(code) => RequestKeeps(w, code, encodes);
    case Others(engine) => OthersKeep(w, engine);
  }

  // --- every run ---------------------------------------------------------------------------

  lemma StartIsWhole(w: World)
    requires IsStart(w)
    ensures Whole(w)
  {
  }

  /** At every moment of every run the session is whole. */
  lemma {:induction false} AlwaysWhole(cfg: Config, ws: seq<World>, hs: seq<Happening>, i: nat)
    requires ValidConfig(cfg) && IsRun(cfg, ws, hs) && i < |ws|
    ensures Whole(ws[i])
  {
    hide Whole, Next, IsStart, Enabled;
    if i == 0 {
      StartIsWhole(ws[0]);
    } else {
      AlwaysWhole(cfg, ws, hs, i - 1);
      NextKeeps(cfg, ws[i - 1], hs[i - 1].event, hs[i - 1].encodes);
    }
  }

  /** And nothing latched, recorded or written is ever taken back. */
  lemma {:induction false} NeverTakenBack(cfg: Config, ws: seq<World>, hs: seq<Happening>, i: nat, j: nat)
    requires ValidConfig(cfg) && IsRun(cfg, ws, hs) && i <= j < |ws|
    ensures Kept(ws[i], ws[j])
  {
    hide Whole, Next, IsStart, Enabled;
    if i < j {
      NeverTakenBack(cfg, ws, hs, i, j - 1);
      AlwaysWhole(cfg, ws, hs, j - 1);
      NextKeeps(cfg, ws[j - 1], hs[j - 1].event, hs[j - 1].encodes);
    }
  }

  // --- what a peer and an operator can rely on ---------------------------------------------

  /** The stream on the wire, whatever the schedule: numbered 1, 2, 3, ...; reports in push order with
      none missing; ticks ever newer and all accounted for; each ack with its own service time. */
  lemma WireStream(cfg: Config, ws: seq<World>, hs: seq<Happening>, i: nat)
    requires ValidConfig(cfg) && IsRun(cfg, ws, hs) && i < |ws|
    ensures var w := ws[i]; var wires := Texts(w.log.sent);
            && (forall k :: 0 <= k < |wires| ==> wires[k].seqNo == k + 1 && wires[k].epoch == w.s.epoch)
            && Increasing(TicksIn(wires))
            && (!w.log.encoderFailed ==>
                 && w.log.pushed == ReportsIn(wires) + w.s.out.reports
                 && AckSvcs(wires) <= w.log.svcs
                 && w.log.ticks == |TicksIn(wires)| + w.s.out.conflated + w.log.discarded
                                   + if w.s.out.tob.Some? then 1 else 0)
  {
    hide Texts, ReportsIn, TicksIn, AckSvcs, Increasing, IsRun, Closing, Settled;
    AlwaysWhole(cfg, ws, hs, i);
  }

  /** A 1008 or 1001 close frame is the last thing sent, and every report ever pushed went out before it. */
  lemma PolicyCloseComesLast(cfg: Config, ws: seq<World>, hs: seq<Happening>, i: nat, k: nat)
    requires ValidConfig(cfg) && IsRun(cfg, ws, hs) && i < |ws|
    requires k < |ws[i].log.sent| && ws[i].log.sent[k].CloseFrame? && !ws[i].log.encoderFailed
    ensures k == |ws[i].log.sent| - 1 && ws[i].log.sent[k].code == ws[i].s.closeCode
    ensures ws[i].log.sent[k].code in [POLICY_ERROR, GOING_AWAY] ==> ws[i].log.pushed == ReportsIn(Texts(ws[i].log.sent))
  {
    hide Texts, ReportsIn, TicksIn, AckSvcs, Increasing, IsRun, Settled;
    AlwaysWhole(cfg, ws, hs, i);
  }

  /** The first latched code is the one kept and recorded; the epoch is retired at the first close
      intent or at teardown, once, and session_closed runs once. */
  lemma ClosedOnce(cfg: Config, ws: seq<World>, hs: seq<Happening>, i: nat, j: nat)
    requires ValidConfig(cfg) && IsRun(cfg, ws, hs) && i <= j < |ws|
    ensures var w, t := ws[i], ws[j];
            && (w.s.closing ==> t.s.closing && t.s.closeCode == w.s.closeCode)
            && (w.s.closing && t.s.tornDown ==> t.log.closedWith == [w.s.closeCode])
            && (w.s.tornDown ==> t.log.closedWith == w.log.closedWith)
            && |t.log.closedWith| == (if t.s.tornDown then 1 else 0)
            && t.log.retirements == (if t.s.closing || t.s.tornDown then 1 else 0)
            && (t.s.closing || t.s.tornDown ==> forall k :: k in t.engine.orders ==> k.session != t.s.epoch)
  {
    hide Stream, IsRun, Settled;
    AlwaysWhole(cfg, ws, hs, j);
    NeverTakenBack(cfg, ws, hs, i, j);
  }

  /** One write outstanding at most; nothing is left waiting behind an idle socket; and a session that
      has not been torn down has a completion to come that will move it. */
  lemma NeverStranded(cfg: Config, ws: seq<World>, hs: seq<Happening>, i: nat)
    requires ValidConfig(cfg) && IsRun(cfg, ws, hs) && i < |ws|
    ensures var w := ws[i];
            && |Texts(w.log.sent)| - w.log.completions == (if w.s.writeInflight then 1 else 0)
            && (!w.s.tornDown ==> w.s.reading || w.s.closeOp == ThenDrain || w.s.draining)
            && (!w.s.tornDown && (w.s.closing || Depth(w.s.out) > 0) ==> w.s.writeInflight || w.s.closeFrameSent)
  {
    hide Texts, ReportsIn, TicksIn, AckSvcs, Increasing, IsRun, Closing;
    AlwaysWhole(cfg, ws, hs, i);
  }

  // --- a close gets out --------------------------------------------------------------------

  /** A close is latched and its frame is still to go. */
  predicate Owing(s: Session) { s.closing && !s.closeFrameSent && !s.tornDown }

  /** While closing, a free write slot takes one queued report or lets the close frame out. */
  lemma {:induction false} PumpDrains(w: World, encodes: bool)
    requires w.s.closing && !w.s.writeInflight && (w.s.out.tob.Some? ==> w.s.out.tob.value.Tob?)
    ensures var t := Pump(w, encodes); Owing(t.s) ==> |t.s.out.reports| < |w.s.out.reports|
    decreases Depth(w.s.out)
  {
    var (m, rest) := Pop(w.s.out);
    if Owing(w.s) && w.s.drainThenClose && m.Some? && m.value.Tob? { PumpDrains(Discarded(w, rest), encodes); }
  }

  lemma TickPending(w: World)
    requires Inv(w)
    ensures w.s.out.tob.Some? ==> w.s.out.tob.value.Tob?
  {
    hide Texts, TicksIn, Contiguous, NothingLost, SvcsPaired, OneWrite, Closing, Gone, Increasing;
  }

  /** What each event does to a session that owes its close frame: another report gone for every
      successful write, none ever added, and always a write on its way. */
  lemma OwingMoves(cfg: Config, w: World, e: Event, encodes: bool)
    requires ValidConfig(cfg) && Whole(w) && Enabled(w, e) && Owing(w.s)
    ensures w.s.writeInflight
    ensures var t := Next(cfg, w, e, encodes);
            Owing(t.s) ==> |t.s.out.reports| + (if e.WriteDone? && e.ok then 1 else 0) <= |w.s.out.reports|
  {
    hide Inv, Pump, DeliverAll, E.OnBook, E.EndSession, Attended;
    match e {
      case WriteDone(ok, timedOut, aborted) =>
        TickPending(w);
        if ok { PumpDrains(w.(s := w.s.(writeInflight := false), log := w.log.(completions := w.log.completions + 1)), encodes); }
      case Publish(bp, bq, ap, aq) =>
        var b := NextBook(w, bp, bq, ap, aq);
        FillsAreReports(cfg.inst, w.engine, b);
        NoFillsWhenGone(cfg, w, b);
        BookKeepsInv(cfg, w, b);
        DeliverAllKeeps(cfg, w.(engine := E.OnBook(cfg.inst, w.engine, b).0, mdSeq := b.mdSeq),
                        E.OnBook(cfg.inst, w.engine, b).1, encodes);
      case _ =>
    }
  }

  function Successes(hs: seq<Happening>): nat {
    if hs == [] then 0
    else Successes(hs[..|hs| - 1]) + if hs[|hs| - 1].event.WriteDone? && hs[|hs| - 1].event.ok then 1 else 0
  }

  /** A latched close gets out: from any moment on, while its frame is still owed, a write is on its
      way, and at most as many writes can succeed as reports were queued. The next one to succeed, if
      the session is not torn down first, lets the frame out. */
  lemma {:induction false} CloseGetsOut(cfg: Config, ws: seq<World>, hs: seq<Happening>, i: nat, j: nat)
    requires ValidConfig(cfg) && IsRun(cfg, ws, hs) && i <= j < |ws|
    requires ws[i].s.closing && Owing(ws[j].s)
    ensures Owing(ws[i].s) && ws[j].s.writeInflight
    ensures Successes(hs[i..j]) + |ws[j].s.out.reports| <= |ws[i].s.out.reports|
  {
    hide Next, Enabled, IsStart, Whole;
    AlwaysWhole(cfg, ws, hs, j);
    NeverTakenBack(cfg, ws, hs, i, j);
    assert ws[j].s.writeInflight by { OwingWrites(ws[j]); }
    if i < j {
      NeverTakenBack(cfg, ws, hs, i, j - 1);
      NeverTakenBack(cfg, ws, hs, j - 1, j);
      AlwaysWhole(cfg, ws, hs, j - 1);
      OwedBefore(cfg, ws[j - 1], hs[j - 1].event, hs[j - 1].encodes);
      CloseGetsOut(cfg, ws, hs, i, j - 1);
      OwingMoves(cfg, ws[j - 1], hs[j - 1].event, hs[j - 1].encodes);
      assert hs[i..j][..j - 1 - i] == hs[i..j - 1];
    }
  }

  lemma OwingWrites(w: World)
    requires Whole(w) && Owing(w.s)
    ensures w.s.writeInflight
  {
    hide Inv;
  }

  /** A close frame once sent is not owed again. */
  lemma OwedBefore(cfg: Config, w: World, e: Event, encodes: bool)
    requires ValidConfig(cfg) && Whole(w) && Enabled(w, e) && w.s.closing && Owing(Next(cfg, w, e, encodes).s)
    ensures Owing(w.s)
  {
    hide Next, Enabled, Stream, Settled, Attended, CloseFrameLast;
    NextKeeps(cfg, w, e, encodes);
    FrameStaysSent(w, Next(cfg, w, e, encodes));
  }

  lemma FrameStaysSent(w: World, t: World)
    requires CloseFrameLast(w.s, w.log) && CloseFrameLast(t.s, t.log) && w.log.sent <= t.log.sent
    ensures w.s.closeFrameSent ==> t.s.closeFrameSent
  {
    var n := |w.log.sent|;
    assert w.s.closeFrameSent ==> n > 0 && t.log.sent[n - 1] == w.log.sent[n - 1];
  }
}
