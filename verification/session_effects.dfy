/** What an event at the session does to the reports pushed and to the engine, as the composed
    protocol needs it: the codec never comes back empty here. */
module SessionEffects {
  import opened Text
  import opened Protocol
  import opened SessionSpec
  import opened SessionRuns
  import E = EngineSpec

  predicate Open(w: World) { !w.s.closing && !w.s.tornDown }

  /** The server never closes a well-behaved client for anything but policy or its own shutdown. */
  predicate PolicyOnly(w: World) { w.s.closing ==> w.s.closeCode == POLICY_ERROR || w.s.closeCode == GOING_AWAY }

  /** Every tick written or pending is for this symbol. */
  ghost predicate Symbols(w: World, symbol: string) {
    && (forall x :: x in Texts(w.log.sent) && x.msg.Tob? ==> x.msg.symbol == symbol)
    && (w.s.out.tob.Some? && w.s.out.tob.value.Tob? ==> w.s.out.tob.value.symbol == symbol)
    && (forall m :: m in w.s.out.reports ==> !m.Tob?)
  }

  /** A move that pushes nothing and asks the engine for nothing but the end of the session. */
  ghost predicate Stays(w: World, t: World, symbol: string) {
    && t.log.pushed == w.log.pushed && t.log.encoderFailed == w.log.encoderFailed && t.s.epoch == w.s.epoch
    && (Open(t) ==> Open(w) && t.engine == w.engine && t.s.inSeqExpected == w.s.inSeqExpected)
    && (PolicyOnly(w) ==> PolicyOnly(t)) && (Symbols(w, symbol) ==> Symbols(t, symbol))
    && (w.s.tornDown ==> t.s.tornDown)
  }

  lemma StaysOn(a: World, b: World, c: World, symbol: string)
    requires Stays(a, b, symbol) && Stays(b, c, symbol)
    ensures Stays(a, c, symbol)
  {
    hide Symbols, PolicyOnly;
  }

  lemma SendCloseStays(w: World, symbol: string)
    ensures var t := SendCloseFrame(w); Stays(w, t, symbol) && t.engine == w.engine && t.s.tornDown == w.s.tornDown
  {
    hide Texts;
    TextsAppend(w.log.sent, CloseFrame(w.s.closeCode));
  }

  lemma WriteStays(w: World, m: OutMsg, rest: Outbox, symbol: string)
    requires Pop(w.s.out) == (Some(m), rest)
    ensures var t := Write(WithOut(w, rest), m, true);
            Stays(w, t, symbol) && t.engine == w.engine && t.s.tornDown == w.s.tornDown
  {
    hide Texts;
    TextsAppend(w.log.sent, Text(Stamp(w.s.(out := rest), m)));
    assert w.s.out.reports != [] ==> m in w.s.out.reports;
  }

  lemma {:induction false} PumpStays(w: World, symbol: string)
    ensures var t := Pump(w, true); Stays(w, t, symbol) && t.engine == w.engine && t.s.tornDown == w.s.tornDown
    decreases Depth(w.s.out)
  {
    hide Write, SendCloseFrame, Symbols;
    SendCloseStays(w, symbol);
    var (m, rest) := Pop(w.s.out);
    if !(w.s.writeInflight || w.s.tornDown || w.s.closeFrameSent || (w.s.closing && !w.s.drainThenClose)) && m.Some? {
      if w.s.closing && m.value.Tob? {
        var w1 := Discarded(w, rest);
        assert Symbols(w, symbol) ==> Symbols(w1, symbol) by { DroppedSymbols(w, rest, symbol); }
        PumpStays(w1, symbol);
      } else {
        WriteStays(w, m.value, rest, symbol);
      }
    }
  }

  lemma DroppedSymbols(w: World, rest: Outbox, symbol: string)
    requires Pop(w.s.out).1 == rest
    ensures Symbols(w, symbol) ==> Symbols(Discarded(w, rest), symbol)
  {
  }

  lemma LatchStays(w: World, code: nat, drain: bool, symbol: string)
    requires code == POLICY_ERROR || code == GOING_AWAY
    ensures var t := LatchClose(w, code, drain); Stays(w, t, symbol) && t.s.tornDown == w.s.tornDown
  {
    hide RetireEpoch, Texts;
    RetireEffect(w.(s := w.s.(closing := true, closeCode := code, drainThenClose := drain)));
  }

  lemma BeginCloseStays(w: World, code: nat, symbol: string)
    requires code == POLICY_ERROR || code == GOING_AWAY
    ensures var t := BeginClose(w, code, true); Stays(w, t, symbol) && t.s.tornDown == w.s.tornDown
  {
    hide LatchClose, Pump, Symbols;
    if !(w.s.closing || w.s.tornDown) {
      LatchStays(w, code, true, symbol);
      PumpStays(LatchClose(w, code, true), symbol);
      StaysOn(w, LatchClose(w, code, true), Pump(LatchClose(w, code, true), true), symbol);
    }
  }

  lemma TeardownStays(w: World, code: nat, symbol: string)
    ensures Stays(w, Teardown(w, code), symbol) && !Open(Teardown(w, code))
  {
    hide RetireEpoch, Texts;
    RetireEffect(w.(s := w.s.(tornDown := true)));
  }

  /** The policy check and the pump after a report has been queued. */
  lemma SettleStays(cfg: Config, w: World, symbol: string)
    ensures var t := Pump(CheckPolicyCloses(cfg, w, true), true); Stays(w, t, symbol) && t.s.tornDown == w.s.tornDown
  {
    hide BeginClose, Pump, Symbols;
    BeginCloseStays(w, POLICY_ERROR, symbol);
    var w1 := CheckPolicyCloses(cfg, w, true);
    PumpStays(w1, symbol);
    StaysOn(w, w1, Pump(w1, true), symbol);
  }

  /** Once t has been reached from w by pushing these reports, with the engine left as given. */
  ghost predicate Pushes(w: World, t: World, ms: seq<OutMsg>, engine: E.State, symbol: string) {
    && t.log.pushed == w.log.pushed + ms && t.log.encoderFailed == w.log.encoderFailed && t.s.epoch == w.s.epoch
    && (Open(t) ==> Open(w) && t.engine == engine)
    && (PolicyOnly(w) ==> PolicyOnly(t)) && (Symbols(w, symbol) ==> Symbols(t, symbol))
  }

  lemma EnqueuedSymbols(w: World, m: OutMsg, symbol: string)
    requires !m.Tob?
    ensures Symbols(w, symbol) ==> Symbols(Enqueued(w, m), symbol)
  {
    hide Texts;
  }

  // --- a command of this session, in sequence ----------------------------------------------

  /** The session once the engine has answered and the answer is queued. */
  ghost function Queued(cfg: Config, w: World, cmd: Command, svc: int): World
    requires ValidConfig(cfg)
  {
    var (engine, m) := Answer(cfg, w.engine, w.s.epoch, cmd.msg);
    Enqueued(Answered(w.(s := w.s.(reading := false, inSeqExpected := w.s.inSeqExpected + 1)), engine, m, svc), m)
  }

  lemma CommandShape(cfg: Config, w: World, cmd: Command, svc: int)
    requires ValidConfig(cfg) && Open(w) && cmd.seqNo == w.s.inSeqExpected && cmd.epoch == w.s.epoch
    ensures OnRead(cfg, w, Message(Decoded(cmd)), svc, true) ==
            ReadNext(Pump(CheckPolicyCloses(cfg, Queued(cfg, w, cmd, svc), true), true))
  {
    hide Answer, CheckPolicyCloses, Pump, Answered, Enqueued, BeginClose, Teardown, LatchClose, CloseThenDrain;
  }

  lemma QueuedPushes(cfg: Config, w: World, cmd: Command, svc: int, symbol: string)
    requires ValidConfig(cfg) && Open(w)
    ensures var (engine, m) := Answer(cfg, w.engine, w.s.epoch, cmd.msg);
            var t := Queued(cfg, w, cmd, svc);
            Pushes(w, t, [m], engine, symbol) && t.s.inSeqExpected == w.s.inSeqExpected + 1 && Open(t) && t.engine == engine
  {
    hide Answer, Texts;
  }

  lemma CommandPushes(cfg: Config, w: World, cmd: Command, svc: int, symbol: string)
    requires ValidConfig(cfg) && Open(w) && cmd.seqNo == w.s.inSeqExpected && cmd.epoch == w.s.epoch
    ensures var (engine, m) := Answer(cfg, w.engine, w.s.epoch, cmd.msg);
            var t := OnRead(cfg, w, Message(Decoded(cmd)), svc, true);
            && Pushes(w, t, [m], engine, symbol)
            && (Open(t) ==> t.s.inSeqExpected == w.s.inSeqExpected + 1)
  {
    hide Answer, CheckPolicyCloses, Pump, Texts, Queued, OnRead, Symbols, PolicyOnly;
    CommandShape(cfg, w, cmd, svc);
    QueuedPushes(cfg, w, cmd, svc, symbol);
    var w1 := Queued(cfg, w, cmd, svc);
    SettleStays(cfg, w1, symbol);
    var w2 := Pump(CheckPolicyCloses(cfg, w1, true), true);
    IdleStays(w2, ReadNext(w2), symbol);
  }

  // --- a book ------------------------------------------------------------------------------

  function Mine(routed: seq<E.Routed>, epoch: nat): seq<OutMsg> {
    if routed == [] then []
    else Mine(routed[..|routed| - 1], epoch) + if routed[|routed| - 1].session == epoch then [routed[|routed| - 1].msg] else []
  }

  lemma {:induction false} NoneMine(routed: seq<E.Routed>, epoch: nat)
    requires forall r :: r in routed ==> r.session != epoch
    ensures Mine(routed, epoch) == []
  {
    if routed != [] { NoneMine(routed[..|routed| - 1], epoch); }
  }

  lemma DeliverReportPushes(cfg: Config, w: World, m: OutMsg, symbol: string)
    requires !m.Tob? && !w.s.tornDown
    ensures var t := DeliverReport(cfg, w, m, true); Pushes(w, t, [m], w.engine, symbol) && !t.s.tornDown
    ensures Open(DeliverReport(cfg, w, m, true)) ==> DeliverReport(cfg, w, m, true).s.inSeqExpected == w.s.inSeqExpected
  {
    hide CheckPolicyCloses, Pump, Symbols;
    EnqueuedSymbols(w, m, symbol);
    SettleStays(cfg, Enqueued(w, m), symbol);
  }

  lemma {:induction false} DeliverAllPushes(cfg: Config, w: World, routed: seq<E.Routed>, symbol: string)
    requires !w.s.tornDown && forall r :: r in routed ==> !r.msg.Tob?
    ensures var t := DeliverAll(cfg, w, routed, true);
            && Pushes(w, t, Mine(routed, w.s.epoch), w.engine, symbol) && !t.s.tornDown
            && (Open(t) ==> t.s.inSeqExpected == w.s.inSeqExpected)
  {
    hide DeliverReport, Symbols, PolicyOnly;
    if routed == [] {
      assert w.log.pushed + [] == w.log.pushed;
    } else {
      DeliverAllPushes(cfg, w, routed[..|routed| - 1], symbol);
      var w1 := DeliverAll(cfg, w, routed[..|routed| - 1], true);
      var last := routed[|routed| - 1];
      assert last in routed;
      if last.session == w.s.epoch { DeliverReportPushes(cfg, w1, last.msg, symbol); }
    }
  }

  lemma DeliverTobStays(w: World, t: OutMsg, symbol: string)
    requires t.Tob? && t.symbol == symbol
    ensures Stays(w, DeliverTob(w, t, true), symbol)
  {
    hide Pump, Texts;
    if Open(w) { PumpStays(Ticked(w, t), symbol); }
  }

  lemma PublishPushes(cfg: Config, w: World, b: E.Book)
    requires Inv(w)
    ensures var (engine, routed) := E.OnBook(cfg.inst, w.engine, b);
            var t := OnPublish(cfg, w, b, true);
            && Pushes(w, t, if Open(w) then Mine(routed, w.s.epoch) else [], engine, cfg.inst.symbol)
            && (Open(t) ==> t.s.inSeqExpected == w.s.inSeqExpected)
  {
    hide DeliverAll, DeliverTob, E.OnBook, Texts, Inv;
    FillsAreReports(cfg.inst, w.engine, b);
    var (engine, routed) := E.OnBook(cfg.inst, w.engine, b);
    var w1 := w.(engine := engine, mdSeq := b.mdSeq);
    if w.s.tornDown {
      assert w.log.pushed + [] == w.log.pushed;
    } else {
      if w.s.closing {
        NoFillsWhenGone(cfg, w, b);
        NoneMine(routed, w.s.epoch);
      }
      DeliverAllPushes(cfg, w1, routed, cfg.inst.symbol);
      DeliverTobStays(DeliverAll(cfg, w1, routed, true), TickOf(cfg, b), cfg.inst.symbol);
    }
  }

  // --- everything else ---------------------------------------------------------------------

  /** What a client of this protocol, or the transport under it, or a shutdown can bring about besides. */
  predicate Ordinary(e: Event) {
    match e
    case ReadDone(r, _) => r.PeerClosed? || r.TimedOut? || r.Aborted? || r.Died?
    case CloseRequest(code) => code == GOING_AWAY
    case Publish(_, _, _, _) => false
    case Others(_) => false
    case _ => true
  }

  lemma IdleStays(w: World, t: World, symbol: string)
    requires t == w.(s := w.s.(reading := t.s.reading, closeOp := t.s.closeOp, draining := t.s.draining, writeInflight := t.s.writeInflight),
                     log := w.log.(completions := t.log.completions))
    ensures Stays(w, t, symbol)
  {
  }

  lemma EndedReadStays(cfg: Config, w: World, r: ReadResult, svc: int, symbol: string)
    requires ValidConfig(cfg) && Ordinary(ReadDone(r, svc))
    ensures Stays(w, OnRead(cfg, w, r, svc, true), symbol)
  {
    hide Stays, Teardown, OnMessage, BeginClose, LatchClose;
    var w1 := w.(s := w.s.(reading := false));
    IdleStays(w, w1, symbol);
    var t := OnRead(cfg, w, r, svc, true);
    if t != w1 { TornStays(w, w1, t, symbol); }
  }

  lemma WriteDoneStays(w: World, ok: bool, timedOut: bool, aborted: bool, symbol: string)
    ensures Stays(w, OnWrite(w, ok, timedOut, aborted, true), symbol)
  {
    hide Stays, Teardown, Pump;
    var w1 := w.(s := w.s.(writeInflight := false), log := w.log.(completions := w.log.completions + 1));
    IdleStays(w, w1, symbol);
    var t := OnWrite(w, ok, timedOut, aborted, true);
    if ok && !w.s.tornDown {
      PumpStays(w1, symbol);
      StaysOn(w, w1, t, symbol);
    } else if t != w1 {
      TornStays(w, w1, t, symbol);
    }
  }

  lemma CloseDoneStays(w: World, ok: bool, symbol: string)
    ensures Stays(w, OnCloseDone(w, ok), symbol)
  {
    hide Stays, Teardown;
    var w1 := w.(s := w.s.(closeOp := NoOp));
    IdleStays(w, w1, symbol);
    IdleStays(w, w1.(s := w1.s.(draining := true)), symbol);
    TornStays(w, w1, Teardown(w1, w1.s.closeCode), symbol);
  }

  lemma DrainDoneStays(w: World, ok: bool, symbol: string)
    ensures Stays(w, OnDrainDone(w, ok), symbol)
  {
    hide Stays, Teardown;
    var w1 := w.(s := w.s.(draining := false));
    IdleStays(w, w, symbol);
    IdleStays(w, w1, symbol);
    TornStays(w, w1, Teardown(w1, w1.s.closeCode), symbol);
  }

  lemma OrdinaryStays(cfg: Config, w: World, e: Event, symbol: string)
    requires ValidConfig(cfg) && Ordinary(e)
    ensures Stays(w, Next(cfg, w, e, true), symbol)
  {
    hide Stays, OnRead, OnWrite, OnCloseDone, OnDrainDone, BeginClose;
    match e
    case ReadDone(r, svc) => EndedReadStays(cfg, w, r, svc, symbol);
    case WriteDone(ok, timedOut, aborted) => WriteDoneStays(w, ok, timedOut, aborted, symbol);
    case CloseDone(ok) => CloseDoneStays(w, ok, symbol);
    case DrainDone(ok) => DrainDoneStays(w, ok, symbol);
    case CloseRequest(code) => BeginCloseStays(w, code, symbol);
  }

  lemma TornStays(w: World, w1: World, t: World, symbol: string)
    requires Stays(w, w1, symbol) && exists code :: t == Teardown(w1, code)
    ensures Stays(w, t, symbol)
  {
    hide Stays, Teardown;
    var code :| t == Teardown(w1, code);
    TeardownStays(w1, code, symbol);
    StaysOn(w, w1, t, symbol);
  }
}
