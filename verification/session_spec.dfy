/** One engine-side session: its outbox, its write path and its close machine, with every transport
    completion an event that may arrive in any order (cpp/include/mm/outbox.hpp, cpp/src/session.cpp,
    cpp/src/session_close.cpp, cpp/src/server.cpp:452-496,587-596). */
module SessionSpec {
  import opened Text
  import opened Protocol
  import E = EngineSpec

  // --- outbox ------------------------------------------------------------------------------

  /** Reports queue and are never dropped; market data is one slot, replaced when newer. */
  datatype Outbox = Outbox(hwm: nat, reports: seq<OutMsg>, tob: Option<OutMsg>, conflated: nat, breached: bool)

  function PushReport(o: Outbox, m: OutMsg): Outbox
    requires !m.Tob?
  {
    o.(reports := o.reports + [m], breached := o.breached || |o.reports| + 1 > o.hwm)
  }

  function PushTob(o: Outbox, t: OutMsg): Outbox
    requires t.Tob?
  {
    o.(tob := Some(t), conflated := if o.tob.Some? then o.conflated + 1 else o.conflated)
  }

  /** Reports first, all of them; then the pending tick. */
  function Pop(o: Outbox): (Option<OutMsg>, Outbox) {
    if o.reports != [] then (Some(o.reports[0]), o.(reports := o.reports[1..]))
    else (o.tob, o.(tob := None))
  }

  function Depth(o: Outbox): nat { |o.reports| + if o.tob.Some? then 1 else 0 }

  // --- the session and what the outside has seen of it -------------------------------------

  /** What has been handed to the transport, in order. */
  datatype Sent = Text(wire: Wire) | CloseFrame(code: nat)

  /** The close operation in flight, if any; an oversize close goes on to drain the raw socket. */
  datatype CloseOp = NoOp | Handshake | ThenDrain

  datatype Session = Session(
    epoch: nat, out: Outbox, inSeqExpected: nat, outSeq: nat, pendingSvc: seq<int>,
    closing: bool, closeCode: nat, drainThenClose: bool, closeFrameSent: bool,
    epochRetired: bool, tornDown: bool,
    writeInflight: bool, reading: bool, closeOp: CloseOp, draining: bool)

  /** Histories, kept to state properties over: every report pushed, the longest the queue and the most
      entries the session's part of the engine ever came to at a push, how many ticks and the last one's
      md_seq, the service time of every accepted order, every completed write, every retirement of the
      epoch and every session_closed call. */
  datatype Log = Log(
    sent: seq<Sent>, pushed: seq<OutMsg>, ticks: nat, lastTick: nat, discarded: nat, svcs: seq<int>,
    completions: nat, retirements: nat, closedWith: seq<nat>, encoderFailed: bool, longest: nat, fullest: nat)

  datatype World = World(engine: E.State, mdSeq: nat, s: Session, log: Log)

  datatype Config = Config(inst: Instrument, maxSessionEntries: nat)

  predicate ValidConfig(cfg: Config) { ValidInstrument(cfg.inst) && cfg.maxSessionEntries > 0 }

  function Opened(epoch: nat, hwm: nat): Session {
    Session(epoch, Outbox(hwm, [], None, 0, false), 1, 1, [], false, 0, false, false, false, false, false, true, NoOp, false)
  }

  const NO_LOG := Log([], [], 0, 0, 0, [], 0, 0, [], false, 0, 0)

  function WithOut(w: World, o: Outbox): World { w.(s := w.s.(out := o)) }

  // --- closing -----------------------------------------------------------------------------

  const POLICY_ERROR := 1008
  const GOING_AWAY := 1001
  const PROTOCOL_ERROR := 1002
  const BAD_PAYLOAD := 1007
  const TOO_BIG := 1009
  const INTERNAL_ERROR := 1011
  const ABNORMAL := 1006
  const NORMAL := 1000

  ghost function RetireEpoch(w: World): World {
    if w.s.epochRetired then w
    else
      w.(engine := E.EndSession(w.engine, w.s.epoch).0, s := w.s.(epochRetired := true),
         log := w.log.(retirements := w.log.retirements + 1))
  }

  /** First latch keeps its code; the epoch is retired at close intent. */
  ghost function LatchClose(w: World, code: nat, drain: bool): World {
    if w.s.closing || w.s.tornDown then w
    else RetireEpoch(w.(s := w.s.(closing := true, closeCode := code, drainThenClose := drain)))
  }

  function SendCloseFrame(w: World): World {
    if w.s.closeFrameSent || w.s.tornDown || w.s.writeInflight then w
    else w.(s := w.s.(closeFrameSent := true, closeOp := Handshake),
            log := w.log.(sent := w.log.sent + [CloseFrame(w.s.closeCode)]))
  }

  ghost function Teardown(w: World, code: nat): World {
    if w.s.tornDown then w
    else
      var w1 := RetireEpoch(w.(s := w.s.(tornDown := true)));
      w1.(log := w1.log.(closedWith := w1.log.closedWith + [code]))
  }

  // --- the write path ----------------------------------------------------------------------

  /** The one place seq, epoch and svc are written. */
  function Stamp(s: Session, m: OutMsg): Wire {
    Wire(s.outSeq, s.epoch, if m.OrderAck? && s.pendingSvc != [] then s.pendingSvc[0] else 0, m)
  }

  function Stamped(s: Session, m: OutMsg): Session {
    s.(outSeq := s.outSeq + 1, pendingSvc := if m.OrderAck? && s.pendingSvc != [] then s.pendingSvc[1..] else s.pendingSvc)
  }

  /** `encodes` says whether the codec produces a frame; an empty one closes 1011. */
  ghost function Write(w: World, m: OutMsg, encodes: bool): World {
    var wire := Stamp(w.s, m);
    var w1 := w.(s := Stamped(w.s, m));
    if encodes then
      w1.(s := w1.s.(writeInflight := true), log := w1.log.(sent := w1.log.sent + [Text(wire)]))
    else
      SendCloseFrame(LatchClose(w1.(log := w1.log.(encoderFailed := true)), INTERNAL_ERROR, false))
  }

  function Discarded(w: World, rest: Outbox): World {
    WithOut(w, rest).(log := w.log.(discarded := w.log.discarded + 1))
  }

  ghost function Pump(w: World, encodes: bool): World
    decreases Depth(w.s.out)
  {
    if w.s.writeInflight || w.s.tornDown || w.s.closeFrameSent then w
    else if w.s.closing && !w.s.drainThenClose then SendCloseFrame(w)
    else
      var (m, rest) := Pop(w.s.out);
      if m.None? then (if w.s.closing then SendCloseFrame(w) else w)
      else if w.s.closing && m.value.Tob? then
        Pump(Discarded(w, rest), encodes)
      else Write(WithOut(w, rest), m.value, encodes)
  }

  /** Policy and going-away closes drain queued reports first. */
  ghost function BeginClose(w: World, code: nat, encodes: bool): World {
    if w.s.closing || w.s.tornDown then w
    else Pump(LatchClose(w, code, code == POLICY_ERROR || code == GOING_AWAY), encodes)
  }

  ghost function CheckPolicyCloses(cfg: Config, w: World, encodes: bool): World {
    if w.s.closing then w
    else if w.s.out.breached then BeginClose(w, POLICY_ERROR, encodes)
    else if |E.EntriesOf(w.engine.orders, w.s.epoch)| >= cfg.maxSessionEntries then BeginClose(w, POLICY_ERROR, encodes)
    else w
  }

  /** A push, and what the queue and the session's entries then came to. */
  function Noted(log: Log, m: OutMsg, queued: nat, entries: nat): Log {
    log.(pushed := log.pushed + [m], longest := if queued > log.longest then queued else log.longest,
         fullest := if entries > log.fullest then entries else log.fullest)
  }

  ghost function Enqueued(w: World, m: OutMsg): World
    requires !m.Tob?
  {
    WithOut(w, PushReport(w.s.out, m))
      .(log := Noted(w.log, m, |w.s.out.reports| + 1, |E.EntriesOf(w.engine.orders, w.s.epoch)|))
  }

  ghost function EnqueueReport(cfg: Config, w: World, m: OutMsg, encodes: bool): World
    requires !m.Tob?
  {
    CheckPolicyCloses(cfg, Enqueued(w, m), encodes)
  }

  ghost function DeliverReport(cfg: Config, w: World, m: OutMsg, encodes: bool): World
    requires !m.Tob?
  {
    if w.s.tornDown then w else Pump(EnqueueReport(cfg, w, m, encodes), encodes)
  }

  ghost function DeliverTob(w: World, t: OutMsg, encodes: bool): World
    requires t.Tob?
  {
    if w.s.tornDown || w.s.closing then w
    else Pump(Ticked(w, t), encodes)
  }

  function Ticked(w: World, t: OutMsg): World
    requires t.Tob?
  {
    WithOut(w, PushTob(w.s.out, t)).(log := w.log.(ticks := w.log.ticks + 1, lastTick := t.mdSeq))
  }

  // --- the read path -----------------------------------------------------------------------

  /** What reading one frame came to before the engine is asked. */
  datatype Frame =
    | Oversized
    | Undecodable(code: RejectCode, detail: string)
    | Decoded(cmd: Command)

  ghost function OnCommand(cfg: Config, w: World, cmd: Command, svc: int, encodes: bool): World
    requires ValidConfig(cfg)
  {
    if cmd.seqNo != w.s.inSeqExpected then BeginClose(w, PROTOCOL_ERROR, encodes)
    else
      var w1 := w.(s := w.s.(inSeqExpected := w.s.inSeqExpected + 1));
      if cmd.epoch != w.s.epoch then
        EnqueueReport(cfg, w1, Reject(cmd.msg.clId, StaleEpoch, "command epoch does not match this session's epoch"), encodes)
      else AskEngine(cfg, w1, cmd.msg, svc, encodes)
  }

  /** The engine's answer to an in-sequence command of this session. */
  ghost function Answer(cfg: Config, engine: E.State, epoch: nat, msg: InMsg): (r: (E.State, OutMsg))
    requires ValidConfig(cfg)
    ensures !r.1.Tob?
  {
    if msg.NewOrder? then E.OnNew(cfg.inst, engine, epoch, msg) else E.OnCancel(engine, epoch, msg.clId)
  }

  ghost function AskEngine(cfg: Config, w: World, msg: InMsg, svc: int, encodes: bool): World
    requires ValidConfig(cfg)
  {
    var (engine, report) := Answer(cfg, w.engine, w.s.epoch, msg);
    EnqueueReport(cfg, Answered(w, engine, report, svc), report, encodes)
  }

  function Answered(w: World, engine: E.State, report: OutMsg, svc: int): World {
    if report.OrderAck? then
      w.(engine := engine, s := w.s.(pendingSvc := w.s.pendingSvc + [svc]), log := w.log.(svcs := w.log.svcs + [svc]))
    else w.(engine := engine)
  }

  ghost function OnMessage(cfg: Config, w: World, f: Frame, svc: int, encodes: bool): World
    requires ValidConfig(cfg)
  {
    var w1 :=
      match f
      case Oversized => EnqueueReport(cfg, w, Reject("", MsgTooLarge, "message exceeds the 65536-byte cap"), encodes)
      case Undecodable(code, detail) => EnqueueReport(cfg, w, Reject("", code, detail), encodes)
      case Decoded(cmd) => OnCommand(cfg, w, cmd, svc, encodes);
    Pump(w1, encodes)
  }

  function ReadNext(w: World): World { w.(s := w.s.(reading := true)) }

  // --- events ------------------------------------------------------------------------------

  /** How an outstanding read may complete. */
  datatype ReadResult =
    | PeerClosed(code: nat)
    | TimedOut
    | Aborted
    | TooBig
    | Violation(badPayload: bool)
    | Died
    | Binary
    | Message(frame: Frame)

  datatype Event =
    | ReadDone(result: ReadResult, svc: int)
    | WriteDone(ok: bool, timedOut: bool, aborted: bool)
    | CloseDone(ok: bool)
    | DrainDone(ok: bool)
    | Publish(bidPx: int, bidQty: int, askPx: int, askQty: int)
    | CloseRequest(code: nat)
    | Others(engine: E.State)

  function CloseThenDrain(w: World): World {
    w.(s := w.s.(closeFrameSent := true, closeOp := ThenDrain), log := w.log.(sent := w.log.sent + [CloseFrame(TOO_BIG)]))
  }

  ghost function OnRead(cfg: Config, w0: World, r: ReadResult, svc: int, encodes: bool): World
    requires ValidConfig(cfg)
  {
    var w := w0.(s := w0.s.(reading := false));
    var own := w.s.closeCode;
    if w.s.tornDown then w
    else
      match r
      case PeerClosed(peer) => Teardown(w, if w.s.closing then own else if peer == 0 then NORMAL else peer)
      case TimedOut => Teardown(w, if w.s.closing then own else GOING_AWAY)
      case Aborted => Teardown(w, if w.s.closing then own else GOING_AWAY)
      case TooBig =>
        if w.s.closing then Teardown(w, own)
        else CloseThenDrain(LatchClose(w, TOO_BIG, false))
      case Violation(badPayload) =>
        Teardown(w, if w.s.closing then own else if badPayload then BAD_PAYLOAD else PROTOCOL_ERROR)
      case Died => Teardown(w, if w.s.closing then own else ABNORMAL)
      case Binary => ReadNext(if w.s.closing then w else BeginClose(w, PROTOCOL_ERROR, encodes))
      case Message(f) => ReadNext(if w.s.closing then w else OnMessage(cfg, w, f, svc, encodes))
  }

  ghost function OnWrite(w0: World, ok: bool, timedOut: bool, aborted: bool, encodes: bool): World {
    var w := w0.(s := w0.s.(writeInflight := false), log := w0.log.(completions := w0.log.completions + 1));
    if w.s.tornDown then w
    else if !ok then
      var idle := timedOut || (aborted && !w.s.closing);
      Teardown(w, if w.s.closing then w.s.closeCode else if idle then GOING_AWAY else ABNORMAL)
    else Pump(w, encodes)
  }

  ghost function OnCloseDone(w0: World, ok: bool): World {
    var w := w0.(s := w0.s.(closeOp := NoOp));
    if w0.s.closeOp == ThenDrain then
      if w.s.tornDown then w else w.(s := w.s.(draining := true))
    else if ok then w
    else Teardown(w, w.s.closeCode)
  }

  ghost function OnDrainDone(w0: World, ok: bool): World {
    if ok then w0 // the drain re-arms
    else
      var w := w0.(s := w0.s.(draining := false));
      Teardown(w, w.s.closeCode)
  }

  ghost function DeliverAll(cfg: Config, w: World, routed: seq<E.Routed>, encodes: bool): World
    requires forall r :: r in routed ==> !r.msg.Tob?
  {
    if routed == [] then w
    else
      var w1 := DeliverAll(cfg, w, routed[..|routed| - 1], encodes);
      var last := routed[|routed| - 1];
      assert last in routed;
      if last.session == w.s.epoch then DeliverReport(cfg, w1, last.msg, encodes) else w1
  }

  function NextBook(w: World, bidPx: int, bidQty: int, askPx: int, askQty: int): E.Book {
    E.Book(bidPx, bidQty, askPx, askQty, w.mdSeq + 1)
  }

  function TickOf(cfg: Config, b: E.Book): OutMsg {
    Tob(b.mdSeq, cfg.inst.symbol, b.bidPx, b.bidQty, b.askPx, b.askQty)
  }

  lemma FillsAreReports(inst: Instrument, s: E.State, b: E.Book)
    ensures forall r :: r in E.OnBook(inst, s, b).1 ==> r.msg.Fill?
  {
  }

  /** One md_seq per book; fills routed before the tick is fanned out. */
  ghost function OnPublish(cfg: Config, w: World, b: E.Book, encodes: bool): World {
    FillsAreReports(cfg.inst, w.engine, b);
    var (engine, routed) := E.OnBook(cfg.inst, w.engine, b);
    var w1 := w.(engine := engine, mdSeq := b.mdSeq);
    if w.s.tornDown then w1
    else DeliverTob(DeliverAll(cfg, w1, routed, encodes), TickOf(cfg, b), encodes)
  }

  /** An event is possible when the operation it completes is outstanding. */
  ghost predicate Enabled(w: World, e: Event) {
    match e
    case ReadDone(_, _) => w.s.reading
    case WriteDone(_, _, _) => w.s.writeInflight
    case CloseDone(_) => w.s.closeOp != NoOp
    case DrainDone(_) => w.s.draining
    case Others(engine) => UntouchedFor(w.engine, engine, w.s.epoch)
    case _ => true
  }

  /** What commands and closes of other sessions can do to the engine. */
  ghost predicate UntouchedFor(a: E.State, b: E.State, epoch: nat) {
    && b.book == a.book && b.bookSeen == a.bookSeen && b.nextEngId >= a.nextEngId
    && (forall k :: k in a.orders && k.session == epoch ==> k in b.orders && b.orders[k] == a.orders[k])
    && (forall k :: k in b.orders && k.session == epoch ==> k in a.orders)
  }

  ghost function Next(cfg: Config, w: World, e: Event, encodes: bool): World
    requires ValidConfig(cfg)
  {
    match e
    case ReadDone(r, svc) => OnRead(cfg, w, r, svc, encodes)
    case WriteDone(ok, timedOut, aborted) => OnWrite(w, ok, timedOut, aborted, encodes)
    case CloseDone(ok) => OnCloseDone(w, ok)
    case DrainDone(ok) => OnDrainDone(w, ok)
    case Publish(bp, bq, ap, aq) => OnPublish(cfg, w, NextBook(w, bp, bq, ap, aq), encodes)
    case CloseRequest(code) => BeginClose(w, code, encodes)
    case Others(engine) => w.(engine := engine)
  }

  datatype Happening = Happening(event: Event, encodes: bool)

  /** Any order of completions, books, requests and other sessions' doings. */
  ghost predicate IsRun(cfg: Config, ws: seq<World>, hs: seq<Happening>)
    requires ValidConfig(cfg)
  {
    && |ws| == |hs| + 1
    && IsStart(ws[0])
    && forall i :: 0 <= i < |hs| ==> Enabled(ws[i], hs[i].event) && ws[i + 1] == Next(cfg, ws[i], hs[i].event, hs[i].encodes)
  }

  /** A session that has just been accepted: its epoch is new to the engine. */
  ghost predicate IsStart(w: World) {
    && w.s == Opened(w.s.epoch, w.s.out.hwm) && w.log == NO_LOG
    && (forall k :: k in w.engine.orders ==> k.session != w.s.epoch)
    && w.engine.book.mdSeq <= w.mdSeq
  }
}
