/** The server over its sessions: one md_seq per book, fills routed to their owners and the tick fanned
    out, a session's conflation count folded in when it leaves (cpp/src/server.cpp:452-496,587-596).
    Every seat of a server run is a run of SessionSpec, so what is proved there holds of each session. */
module ServerSpec {
  import opened Text
  import opened Protocol
  import opened SessionSpec
  import E = EngineSpec
  import Runs = EngineRuns

  datatype Seat = Seat(s: Session, log: Log)

  /** `seats` is the map of open sessions, by epoch. */
  datatype Hub = Hub(engine: E.State, mdSeq: nat, nextEpoch: nat, seats: map<nat, Seat>, conflatedBase: nat)

  const EMPTY := Hub(E.INITIAL, 0, 0, map[], 0)

  function WorldOf(h: Hub, e: nat): World
    requires e in h.seats
  {
    World(h.engine, h.mdSeq, h.seats[e].s, h.seats[e].log)
  }

  /** The hub after one session moved. */
  function Seated(h: Hub, e: nat, w: World): Hub {
    h.(engine := w.engine, seats := h.seats[e := Seat(w.s, w.log)])
  }

  // --- what the server does ----------------------------------------------------------------

  /** A new session takes the next epoch. */
  function Accept(h: Hub, hwm: nat): Hub {
    h.(nextEpoch := h.nextEpoch + 1, seats := h.seats[h.nextEpoch + 1 := Seat(Opened(h.nextEpoch + 1, hwm), NO_LOG)])
  }

  /** session_closed: the count is folded in before the session leaves the map. */
  function SessionClosed(h: Hub, e: nat): Hub
    requires e in h.seats
  {
    h.(seats := h.seats - {e}, conflatedBase := h.conflatedBase + h.seats[e].s.out.conflated)
  }

  /** A report for a session that has gone is dropped. */
  ghost function Route(cfg: Config, h: Hub, r: E.Routed, encodes: set<nat>): Hub
    requires !r.msg.Tob?
  {
    if r.session !in h.seats then h
    else Seated(h, r.session, DeliverReport(cfg, WorldOf(h, r.session), r.msg, r.session in encodes))
  }

  ghost function RouteAll(cfg: Config, h: Hub, routed: seq<E.Routed>, encodes: set<nat>): Hub
    requires forall r :: r in routed ==> !r.msg.Tob?
  {
    if routed == [] then h
    else
      var last := routed[|routed| - 1];
      assert last in routed;
      Route(cfg, RouteAll(cfg, h, routed[..|routed| - 1], encodes), last, encodes)
  }

  ghost function FanOut(h: Hub, es: seq<nat>, tick: OutMsg, encodes: set<nat>): Hub
    requires tick.Tob?
  {
    if es == [] then h
    else
      var h1, e := FanOut(h, es[..|es| - 1], tick, encodes), es[|es| - 1];
      if e !in h1.seats then h1 else Seated(h1, e, DeliverTob(WorldOf(h1, e), tick, e in encodes))
  }

  ghost predicate Walks(es: seq<nat>, seats: map<nat, Seat>) {
    && (forall e :: e in es <==> e in seats)
    && forall i, j :: 0 <= i < j < |es| ==> es[i] < es[j]
  }

  lemma {:induction false} WalkExists(keys: set<nat>) returns (es: seq<nat>)
    ensures (forall e :: e in es <==> e in keys) && forall i, j :: 0 <= i < j < |es| ==> es[i] < es[j]
  {
    es := [];
    var rest := keys;
    while rest != {}
      invariant rest <= keys && (forall e :: e in es <==> e in keys - rest)
      invariant forall i, j :: 0 <= i < j < |es| ==> es[i] < es[j]
      invariant forall e, x :: e in es && x in rest ==> e < x
    {
      var least := Least(rest);
      assert forall i :: 0 <= i < |es| ==> es[i] in es && least in rest;
      es := es + [least];
      rest := rest - {least};
    }
  }

  lemma {:induction false} Least(s: set<nat>) returns (least: nat)
    requires s != {}
    ensures least in s && forall x :: x in s ==> least <= x
  {
    least :| least in s;
    if s != {least} {
      var other := Least(s - {least});
      assert forall x :: x in s ==> x == least || x in s - {least};
      least := if other < least then other else least;
    }
  }

  lemma LeastExists(s: set<nat>)
    requires s != {}
    ensures exists least :: least in s && forall x :: x in s ==> least <= x
  {
    var least := Least(s);
  }

  /** The open sessions in epoch order. */
  ghost function InOrder(seats: map<nat, Seat>): (es: seq<nat>)
    ensures Walks(es, seats)
  {
    assert exists es :: Walks(es, seats) by {
      var es := WalkExists(seats.Keys);
      assert Walks(es, seats);
    }
    var es :| Walks(es, seats);
    es
  }

  /** There is one such order. */
  lemma WalkUnique(es: seq<nat>, seats: map<nat, Seat>)
    requires Walks(es, seats)
    ensures es == InOrder(seats)
  {
    SameWalk(es, InOrder(seats));
  }

  lemma {:induction false} SameWalk(a: seq<nat>, b: seq<nat>)
    requires forall e :: e in a <==> e in b
    requires (forall i, j :: 0 <= i < j < |a| ==> a[i] < a[j]) && (forall i, j :: 0 <= i < j < |b| ==> b[i] < b[j])
    ensures a == b
  {
    var first := if a != [] then a[0] else if b != [] then b[0] else 0;
    assert first in a <==> first in b;
    if a != [] && b != [] {
      assert a[0] in b && b[0] in a;
      var x, y := a[1..], b[1..];
      assert a == [a[0]] + x && b == [b[0]] + y;
      assert a[0] == b[0];
      forall e ensures e in x <==> e in y {
        assert e in x ==> e in a && e > a[0];
        assert e in y ==> e in b && e > b[0];
      }
      SameWalk(x, y);
    }
  }

  lemma {:induction false} NobodyWaits(h: Hub, tick: OutMsg, encodes: set<nat>)
    requires h.seats == map[] && tick.Tob?
    ensures FanOut(h, InOrder(h.seats), tick, encodes) == h
  {
    WalkUnique([], h.seats);
  }

  /** One md_seq per book whatever it holds; fills before ticks. */
  ghost function PublishBook(cfg: Config, h: Hub, bidPx: int, bidQty: int, askPx: int, askQty: int, encodes: set<nat>): Hub {
    var b := E.Book(bidPx, bidQty, askPx, askQty, h.mdSeq + 1);
    FillsAreReports(cfg.inst, h.engine, b);
    var (engine, routed) := E.OnBook(cfg.inst, h.engine, b);
    var h1 := RouteAll(cfg, h.(engine := engine, mdSeq := b.mdSeq), routed, encodes);
    FanOut(h1, InOrder(h1.seats), TickOf(cfg, b), encodes)
  }

  /** What can happen next: a connection, one session's own event, or a book. */
  datatype Act =
    | Connects(hwm: nat)
    | Turn(epoch: nat, event: Event, encodes: bool)
    | Quote(bidPx: int, bidQty: int, askPx: int, askQty: int, codec: set<nat>)

  predicate OwnEvent(e: Event) { !e.Publish? && !e.Others? }

  ghost predicate Possible(h: Hub, a: Act) {
    a.Turn? ==> a.epoch in h.seats && OwnEvent(a.event) && Enabled(WorldOf(h, a.epoch), a.event)
  }

  /** A session that its own event tore down leaves the map. */
  ghost function After(cfg: Config, h: Hub, a: Act): Hub
    requires ValidConfig(cfg) && Possible(h, a)
  {
    match a
    case Connects(hwm) => Accept(h, hwm)
    case Turn(e, event, encodes) =>
      var h1 := Seated(h, e, Next(cfg, WorldOf(h, e), event, encodes));
      if h1.seats[e].s.tornDown then SessionClosed(h1, e) else h1
    case Quote(bidPx, bidQty, askPx, askQty, codec) => PublishBook(cfg, h, bidPx, bidQty, askPx, askQty, codec)
  }

  ghost predicate IsServerRun(cfg: Config, hs: seq<Hub>, acts: seq<Act>)
    requires ValidConfig(cfg)
  {
    && |hs| == |acts| + 1
    && hs[0] == EMPTY
    && forall i :: 0 <= i < |acts| ==> Possible(hs[i], acts[i]) && hs[i + 1] == After(cfg, hs[i], acts[i])
  }

  // --- a session's doings touch its own orders alone ---------------------------------------

  ghost predicate OwnOnly(a: E.State, b: E.State, epoch: nat) {
    && b.book == a.book && b.bookSeen == a.bookSeen && b.nextEngId >= a.nextEngId
    && forall k: E.Key :: k.session != epoch ==>
         (k in b.orders <==> k in a.orders) && (k in a.orders ==> b.orders[k] == a.orders[k])
  }

  /** A move of one session: its own orders, its own epoch, its conflation count only up. */
  ghost predicate Local(w: World, t: World) {
    && t.s.epoch == w.s.epoch && t.mdSeq == w.mdSeq && t.s.out.conflated >= w.s.out.conflated
    && OwnOnly(w.engine, t.engine, w.s.epoch)
  }

  lemma LocalOn(a: World, b: World, c: World)
    requires Local(a, b) && Local(b, c)
    ensures Local(a, c)
  {
  }

  lemma RetireLocal(w: World)
    ensures Local(w, RetireEpoch(w)) && RetireEpoch(w).s.tornDown == w.s.tornDown
  {
  }

  lemma ClosersLocal(w: World, code: nat, drain: bool)
    ensures Local(w, LatchClose(w, code, drain)) && Local(w, Teardown(w, code))
    ensures Local(w, SendCloseFrame(w)) && Local(w, CloseThenDrain(LatchClose(w, code, drain)))
    ensures LatchClose(w, code, drain).s.tornDown == SendCloseFrame(w).s.tornDown == w.s.tornDown
  {
    hide RetireEpoch;
    RetireLocal(w.(s := w.s.(closing := true, closeCode := code, drainThenClose := drain)));
    RetireLocal(w.(s := w.s.(tornDown := true)));
  }

  lemma WriteLocal(w: World, m: OutMsg, encodes: bool)
    ensures Local(w, Write(w, m, encodes)) && Write(w, m, encodes).s.tornDown == w.s.tornDown
  {
    hide LatchClose, SendCloseFrame;
    var w1 := w.(s := Stamped(w.s, m), log := w.log.(encoderFailed := true));
    ClosersLocal(w1, INTERNAL_ERROR, false);
    ClosersLocal(LatchClose(w1, INTERNAL_ERROR, false), 0, false);
    LocalOn(w1, LatchClose(w1, INTERNAL_ERROR, false), SendCloseFrame(LatchClose(w1, INTERNAL_ERROR, false)));
  }

  lemma {:induction false} PumpLocal(w: World, encodes: bool)
    ensures Local(w, Pump(w, encodes)) && Pump(w, encodes).s.tornDown == w.s.tornDown
    decreases Depth(w.s.out)
  {
    hide Write, SendCloseFrame;
    ClosersLocal(w, 0, false);
    var (m, rest) := Pop(w.s.out);
    if m.Some? && !(w.s.writeInflight || w.s.tornDown || w.s.closeFrameSent || (w.s.closing && !w.s.drainThenClose)) {
      if w.s.closing && m.value.Tob? {
        PumpLocal(Discarded(w, rest), encodes);
      } else {
        WriteLocal(WithOut(w, rest), m.value, encodes);
      }
    }
  }

  lemma BeginCloseLocal(w: World, code: nat, encodes: bool)
    ensures Local(w, BeginClose(w, code, encodes)) && BeginClose(w, code, encodes).s.tornDown == w.s.tornDown
  {
    hide LatchClose, Pump;
    var drain := code == POLICY_ERROR || code == GOING_AWAY;
    ClosersLocal(w, code, drain);
    PumpLocal(LatchClose(w, code, drain), encodes);
  }

  lemma EnqueueLocal(cfg: Config, w: World, m: OutMsg, encodes: bool)
    requires !m.Tob?
    ensures Local(w, EnqueueReport(cfg, w, m, encodes)) && EnqueueReport(cfg, w, m, encodes).s.tornDown == w.s.tornDown
  {
    hide BeginClose;
    BeginCloseLocal(Enqueued(w, m), POLICY_ERROR, encodes);
  }

  lemma DeliverLocal(cfg: Config, w: World, m: OutMsg, encodes: bool)
    ensures var t := if m.Tob? then DeliverTob(w, m, encodes) else DeliverReport(cfg, w, m, encodes);
            Local(w, t) && t.s.tornDown == w.s.tornDown
  {
    hide EnqueueReport, Pump;
    if m.Tob? {
      PumpLocal(Ticked(w, m), encodes);
    } else {
      EnqueueLocal(cfg, w, m, encodes);
      PumpLocal(EnqueueReport(cfg, w, m, encodes), encodes);
    }
  }

  lemma AnswerLocal(cfg: Config, engine: E.State, epoch: nat, msg: InMsg)
    requires ValidConfig(cfg)
    ensures OwnOnly(engine, Answer(cfg, engine, epoch, msg).0, epoch)
  {
    hide E.EntryVerdict;
  }

  lemma AskLocal(cfg: Config, w: World, msg: InMsg, svc: int, encodes: bool)
    requires ValidConfig(cfg)
    ensures Local(w, AskEngine(cfg, w, msg, svc, encodes))
  {
    hide EnqueueReport, Answer, OwnOnly;
    var (engine, report) := Answer(cfg, w.engine, w.s.epoch, msg);
    AnswerLocal(cfg, w.engine, w.s.epoch, msg);
    assert Local(w, Answered(w, engine, report, svc));
    EnqueueLocal(cfg, Answered(w, engine, report, svc), report, encodes);
    LocalOn(w, Answered(w, engine, report, svc), EnqueueReport(cfg, Answered(w, engine, report, svc), report, encodes));
  }

  lemma CommandLocal(cfg: Config, w: World, cmd: Command, svc: int, encodes: bool)
    requires ValidConfig(cfg)
    ensures Local(w, OnCommand(cfg, w, cmd, svc, encodes))
  {
    hide BeginClose, EnqueueReport, AskEngine;
    var w1 := w.(s := w.s.(inSeqExpected := w.s.inSeqExpected + 1));
    BeginCloseLocal(w, PROTOCOL_ERROR, encodes);
    EnqueueLocal(cfg, w1, Reject(cmd.msg.clId, StaleEpoch, "command epoch does not match this session's epoch"), encodes);
    AskLocal(cfg, w1, cmd.msg, svc, encodes);
  }

  lemma MessageLocal(cfg: Config, w: World, f: Frame, svc: int, encodes: bool)
    requires ValidConfig(cfg)
    ensures Local(w, OnMessage(cfg, w, f, svc, encodes))
  {
    hide OnCommand, EnqueueReport, Pump;
    var w1 :=
      match f
      case Oversized => EnqueueReport(cfg, w, Reject("", MsgTooLarge, "message exceeds the 65536-byte cap"), encodes)
      case Undecodable(code, detail) => EnqueueReport(cfg, w, Reject("", code, detail), encodes)
      case Decoded(cmd) => OnCommand(cfg, w, cmd, svc, encodes);
    match f {
      case Oversized => EnqueueLocal(cfg, w, Reject("", MsgTooLarge, "message exceeds the 65536-byte cap"), encodes);
      case Undecodable(code, detail) => EnqueueLocal(cfg, w, Reject("", code, detail), encodes);
      case Decoded(cmd) => CommandLocal(cfg, w, cmd, svc, encodes);
    }
    PumpLocal(w1, encodes);
  }

  lemma LocalSelf(w: World)
    ensures Local(w, w)
  {
  }

  lemma EndedLocal(w: World)
    ensures forall code :: Local(w, Teardown(w, code))
  {
    hide Teardown, Local;
    forall code ensures Local(w, Teardown(w, code)) { ClosersLocal(w, code, false); }
  }

  lemma ReadLocal(cfg: Config, w0: World, r: ReadResult, svc: int, encodes: bool)
    requires ValidConfig(cfg)
    ensures Local(w0, OnRead(cfg, w0, r, svc, encodes))
  {
    hide BeginClose, OnMessage, Teardown, LatchClose, CloseThenDrain, OwnOnly;
    var w := w0.(s := w0.s.(reading := false));
    LocalSelf(w);
    match r {
      case Binary => BeginCloseLocal(w, PROTOCOL_ERROR, encodes);
      case Message(f) => MessageLocal(cfg, w, f, svc, encodes);
      case TooBig => ClosersLocal(w, TOO_BIG, false); EndedLocal(w);
      case _ => EndedLocal(w);
    }
  }

  lemma WrittenLocal(w0: World, ok: bool, timedOut: bool, aborted: bool, encodes: bool)
    ensures Local(w0, OnWrite(w0, ok, timedOut, aborted, encodes))
  {
    hide Teardown, Pump;
    var w := w0.(s := w0.s.(writeInflight := false), log := w0.log.(completions := w0.log.completions + 1));
    PumpLocal(w, encodes);
    var idle := timedOut || (aborted && !w.s.closing);
    ClosersLocal(w, if w.s.closing then w.s.closeCode else if idle then GOING_AWAY else ABNORMAL, false);
  }

  lemma ClosedLocal(w0: World, ok: bool)
    ensures Local(w0, OnCloseDone(w0, ok))
  {
    hide Teardown, OwnOnly;
    ClosersLocal(w0.(s := w0.s.(closeOp := NoOp)), w0.s.closeCode, false);
  }

  lemma DrainedLocal(w0: World, ok: bool)
    ensures Local(w0, OnDrainDone(w0, ok))
  {
    hide Teardown;
    ClosersLocal(w0.(s := w0.s.(draining := false)), w0.s.closeCode, false);
  }

  /** Nothing a session does reaches another session's orders. */
  lemma OwnEventLocal(cfg: Config, w: World, e: Event, encodes: bool)
    requires ValidConfig(cfg) && OwnEvent(e)
    ensures Local(w, Next(cfg, w, e, encodes))
  {
    hide OnRead, OnWrite, OnCloseDone, OnDrainDone, BeginClose, Local;
    match e
    case ReadDone(r, svc) => ReadLocal(cfg, w, r, svc, encodes);
    case CloseRequest(code) => BeginCloseLocal(w, code, encodes);
    case WriteDone(ok, timedOut, aborted) => WrittenLocal(w, ok, timedOut, aborted, encodes);
    case CloseDone(ok) => ClosedLocal(w, ok);
    case DrainDone(ok) => DrainedLocal(w, ok);
  }

  /** What other sessions send, and their ends, leave this one's part of the engine alone: so the event
      Others of a session's run is what its neighbours really do, however many of them. */
  lemma {:induction false} NeighboursTouchNothing(inst: Instrument, before: seq<Runs.Cmd>, more: seq<Runs.Cmd>, me: nat)
    requires ValidInstrument(inst) && Runs.WellFormed(before + more)
    requires forall c :: c in more ==> !Runs.Concerns(c, me)
    ensures Runs.WellFormed(before)
    ensures UntouchedFor(Runs.After(inst, before), Runs.After(inst, before + more), me)
    decreases |more|
  {
    if more == [] {
      assert before + more == before;
    } else {
      var init, c := more[..|more| - 1], more[|more| - 1];
      assert before + more == (before + init) + [c];
      assert c in more && c in before + more;
      assert forall x :: x in before + init ==> x in before + more;
      NeighboursTouchNothing(inst, before, init, me);
      Runs.RunSnoc(inst, before + init, c);
      NeighbourTouchesNothing(inst, Runs.After(inst, before + init), c, me);
    }
  }

  lemma NeighbourTouchesNothing(inst: Instrument, s: E.State, c: Runs.Cmd, me: nat)
    requires ValidInstrument(inst) && !Runs.Concerns(c, me) && (c.New? ==> c.order.NewOrder?)
    ensures UntouchedFor(s, Runs.Step(inst, s, c).0, me)
  {
    hide E.EntryVerdict;
  }

  // --- and looks at its own orders alone ---------------------------------------------------

  ghost predicate SameOwn(a: E.State, b: E.State, epoch: nat) {
    && b.book == a.book && b.bookSeen == a.bookSeen && b.nextEngId >= a.nextEngId
    && forall k: E.Key :: k.session == epoch ==>
         (k in b.orders <==> k in a.orders) && (k in a.orders ==> b.orders[k] == a.orders[k])
  }

  /** The same session over two engines that differ in other sessions' orders. */
  ghost predicate Alike(w: World, v: World) {
    w.s == v.s && w.log == v.log && w.mdSeq == v.mdSeq && SameOwn(w.engine, v.engine, w.s.epoch)
  }

  lemma RetireAlike(w: World, v: World)
    requires Alike(w, v)
    ensures Alike(RetireEpoch(w), RetireEpoch(v))
  {
  }

  lemma CloseAlike(w: World, v: World, code: nat, drain: bool)
    requires Alike(w, v)
    ensures Alike(LatchClose(w, code, drain), LatchClose(v, code, drain))
    ensures Alike(SendCloseFrame(w), SendCloseFrame(v))
  {
    hide RetireEpoch, SameOwn;
    RetireAlike(w.(s := w.s.(closing := true, closeCode := code, drainThenClose := drain)),
                v.(s := v.s.(closing := true, closeCode := code, drainThenClose := drain)));
  }

  lemma WriteAlike(w: World, v: World, m: OutMsg, encodes: bool)
    requires Alike(w, v)
    ensures Alike(Write(w, m, encodes), Write(v, m, encodes))
  {
    hide LatchClose, SendCloseFrame, SameOwn;
    var w1, v1 := w.(s := Stamped(w.s, m), log := w.log.(encoderFailed := true)),
                  v.(s := Stamped(v.s, m), log := v.log.(encoderFailed := true));
    CloseAlike(w1, v1, INTERNAL_ERROR, false);
    CloseAlike(LatchClose(w1, INTERNAL_ERROR, false), LatchClose(v1, INTERNAL_ERROR, false), 0, false);
  }

  lemma {:induction false} PumpAlike(w: World, v: World, encodes: bool)
    requires Alike(w, v)
    ensures Alike(Pump(w, encodes), Pump(v, encodes))
    decreases Depth(w.s.out)
  {
    hide Write, SendCloseFrame, SameOwn;
    CloseAlike(w, v, 0, false);
    var (m, rest) := Pop(w.s.out);
    if m.Some? && !(w.s.writeInflight || w.s.tornDown || w.s.closeFrameSent || (w.s.closing && !w.s.drainThenClose)) {
      if w.s.closing && m.value.Tob? {
        PumpAlike(Discarded(w, rest), Discarded(v, rest), encodes);
      } else {
        WriteAlike(WithOut(w, rest), WithOut(v, rest), m.value, encodes);
      }
    }
  }

  lemma BeginCloseAlike(w: World, v: World, code: nat, encodes: bool)
    requires Alike(w, v)
    ensures Alike(BeginClose(w, code, encodes), BeginClose(v, code, encodes))
  {
    hide LatchClose, Pump, SameOwn;
    var drain := code == POLICY_ERROR || code == GOING_AWAY;
    CloseAlike(w, v, code, drain);
    PumpAlike(LatchClose(w, code, drain), LatchClose(v, code, drain), encodes);
  }

  lemma EnqueueAlike(cfg: Config, w: World, v: World, m: OutMsg, encodes: bool)
    requires Alike(w, v) && !m.Tob?
    ensures Alike(EnqueueReport(cfg, w, m, encodes), EnqueueReport(cfg, v, m, encodes))
  {
    hide BeginClose;
    assert E.EntriesOf(w.engine.orders, w.s.epoch) == E.EntriesOf(v.engine.orders, w.s.epoch);
    BeginCloseAlike(Enqueued(w, m), Enqueued(v, m), POLICY_ERROR, encodes);
  }

  lemma DeliverAlike(cfg: Config, w: World, v: World, m: OutMsg, encodes: bool)
    requires Alike(w, v)
    ensures !m.Tob? ==> Alike(DeliverReport(cfg, w, m, encodes), DeliverReport(cfg, v, m, encodes))
    ensures m.Tob? ==> Alike(DeliverTob(w, m, encodes), DeliverTob(v, m, encodes))
  {
    hide EnqueueReport, Pump, SameOwn;
    if m.Tob? {
      PumpAlike(Ticked(w, m), Ticked(v, m), encodes);
    } else {
      EnqueueAlike(cfg, w, v, m, encodes);
      PumpAlike(EnqueueReport(cfg, w, m, encodes), EnqueueReport(cfg, v, m, encodes), encodes);
    }
  }

  // --- a book, seat by seat ----------------------------------------------------------------

  /** Every seat holds the session of its epoch, still open, and no order outlives the epochs given out. */
  ghost predicate InPlace(h: Hub) {
    && (forall e :: e in h.seats ==> h.seats[e].s.epoch == e && e <= h.nextEpoch && !h.seats[e].s.tornDown)
    && (forall k :: k in h.engine.orders ==> k.session <= h.nextEpoch)
    && h.engine.book.mdSeq <= h.mdSeq
  }

  ghost predicate SameSeats(h: Hub, g: Hub) {
    g.seats.Keys == h.seats.Keys && g.nextEpoch == h.nextEpoch && g.conflatedBase == h.conflatedBase
  }

  /** One session's move, as another session sees it. */
  lemma OthersUnmoved(h: Hub, d: nat, t: World, e: nat, v: World)
    requires InPlace(h) && d in h.seats && e in h.seats && e != d
    requires Local(WorldOf(h, d), t) && Alike(v, WorldOf(h, e))
    ensures Alike(v, WorldOf(Seated(h, d, t), e))
  {
  }

  lemma MovedInPlace(h: Hub, d: nat, t: World)
    requires InPlace(h) && d in h.seats && Local(WorldOf(h, d), t)
    ensures !t.s.tornDown ==> InPlace(Seated(h, d, t))
    ensures InPlace(SessionClosed(Seated(h, d, t), d))
  {
    forall k | k in t.engine.orders ensures k.session <= h.nextEpoch {
      if k.session != d { assert k in h.engine.orders; }
    }
  }

  /** One delivery, as the session of seat e sees it. */
  lemma DeliveredTo(cfg: Config, h: Hub, d: nat, m: OutMsg, encodes: bool, e: nat, v: World)
    requires InPlace(h) && d in h.seats && e in h.seats && Alike(v, WorldOf(h, e))
    ensures var w := WorldOf(h, d);
            var g := Seated(h, d, if m.Tob? then DeliverTob(w, m, encodes) else DeliverReport(cfg, w, m, encodes));
            && InPlace(g) && g.mdSeq == h.mdSeq && SameSeats(h, g)
            && Alike(if d != e then v else if m.Tob? then DeliverTob(v, m, encodes) else DeliverReport(cfg, v, m, encodes),
                     WorldOf(g, e))
  {
    hide OwnOnly, SameOwn, DeliverTob, DeliverReport;
    var w := WorldOf(h, d);
    var t := if m.Tob? then DeliverTob(w, m, encodes) else DeliverReport(cfg, w, m, encodes);
    DeliverLocal(cfg, w, m, encodes);
    MovedInPlace(h, d, t);
    if d == e {
      DeliverAlike(cfg, v, w, m, encodes);
      assert WorldOf(Seated(h, d, t), e) == t;
    } else {
      OthersUnmoved(h, d, t, e, v);
    }
  }

  lemma {:induction false} RoutedTo(cfg: Config, h: Hub, routed: seq<E.Routed>, encodes: set<nat>, e: nat)
    requires InPlace(h) && e in h.seats && forall r :: r in routed ==> !r.msg.Tob?
    ensures var g := RouteAll(cfg, h, routed, encodes);
            && InPlace(g) && g.mdSeq == h.mdSeq && SameSeats(h, g)
            && Alike(DeliverAll(cfg, WorldOf(h, e), routed, e in encodes), WorldOf(g, e))
  {
    hide InPlace, Alike, DeliverReport;
    if routed == [] {
      AlikeSelf(WorldOf(h, e));
    } else {
      var before, last := routed[..|routed| - 1], routed[|routed| - 1];
      assert last in routed;
      RoutedTo(cfg, h, before, encodes, e);
      var g, v := RouteAll(cfg, h, before, encodes), DeliverAll(cfg, WorldOf(h, e), before, e in encodes);
      assert h.seats[e].s.epoch == e && v.s.epoch == e by { EpochKept(h, g, v, e); }
      if last.session in g.seats {
        DeliveredTo(cfg, g, last.session, last.msg, last.session in encodes, e, v);
      }
    }
  }

  lemma AlikeSelf(w: World)
    ensures Alike(w, w)
  {
  }

  lemma AlikeOn(u: World, v: World, w: World)
    requires Alike(u, v) && Alike(v, w)
    ensures Alike(u, w)
  {
  }

  lemma EpochKept(h: Hub, g: Hub, v: World, e: nat)
    requires InPlace(h) && InPlace(g) && e in h.seats && e in g.seats && Alike(v, WorldOf(g, e))
    ensures h.seats[e].s.epoch == e && v.s.epoch == e
  {
  }

  lemma {:induction false} FannedTo(cfg: Config, h: Hub, es: seq<nat>, tick: OutMsg, encodes: set<nat>, e: nat)
    requires InPlace(h) && e in h.seats && tick.Tob?
    requires forall i, j :: 0 <= i < j < |es| ==> es[i] < es[j]
    ensures var g := FanOut(h, es, tick, encodes); var w := WorldOf(h, e);
            && InPlace(g) && g.mdSeq == h.mdSeq && SameSeats(h, g)
            && Alike(if e in es then DeliverTob(w, tick, e in encodes) else w, WorldOf(g, e))
  {
    hide InPlace, Alike, DeliverTob;
    if es == [] {
      AlikeSelf(WorldOf(h, e));
    } else {
      var before, last := es[..|es| - 1], es[|es| - 1];
      FannedTo(cfg, h, before, tick, encodes, e);
      assert es == before + [last];
      assert last !in before;
      var g := FanOut(h, before, tick, encodes);
      var v := if e in before then DeliverTob(WorldOf(h, e), tick, e in encodes) else WorldOf(h, e);
      if last in g.seats { DeliveredTo(cfg, g, last, tick, last in encodes, e, v); }
    }
  }

  lemma BookInPlace(cfg: Config, h: Hub, b: E.Book)
    requires InPlace(h) && b.mdSeq > h.mdSeq
    ensures InPlace(h.(engine := E.OnBook(cfg.inst, h.engine, b).0, mdSeq := b.mdSeq))
  {
    hide E.SweepKeys, E.AfterBook;
  }

  /** To each session a book is what it would be alone, whatever the others do with it. */
  lemma PublishedTo(cfg: Config, h: Hub, bidPx: int, bidQty: int, askPx: int, askQty: int, encodes: set<nat>, e: nat)
    requires ValidConfig(cfg) && InPlace(h) && e in h.seats
    ensures var g := PublishBook(cfg, h, bidPx, bidQty, askPx, askQty, encodes);
            && InPlace(g) && SameSeats(h, g)
            && Alike(OnPublish(cfg, WorldOf(h, e), NextBook(WorldOf(h, e), bidPx, bidQty, askPx, askQty), e in encodes),
                     WorldOf(g, e))
  {
    hide E.OnBook, InPlace, Alike, SameOwn, DeliverTob, DeliverAll, RouteAll, FanOut;
    var b := E.Book(bidPx, bidQty, askPx, askQty, h.mdSeq + 1);
    FillsAreReports(cfg.inst, h.engine, b);
    var (engine, routed) := E.OnBook(cfg.inst, h.engine, b);
    var h0 := h.(engine := engine, mdSeq := b.mdSeq);
    BookInPlace(cfg, h, b);
    RoutedTo(cfg, h0, routed, encodes, e);
    var h1 := RouteAll(cfg, h0, routed, encodes);
    FannedTo(cfg, h1, InOrder(h1.seats), TickOf(cfg, b), encodes, e);
    var alone := DeliverAll(cfg, WorldOf(h0, e), routed, e in encodes);
    DeliverAlike(cfg, alone, WorldOf(h1, e), TickOf(cfg, b), e in encodes);
    AlikeOn(DeliverTob(alone, TickOf(cfg, b), e in encodes), DeliverTob(WorldOf(h1, e), TickOf(cfg, b), e in encodes),
            WorldOf(FanOut(h1, InOrder(h1.seats), TickOf(cfg, b), encodes), e));
    assert !WorldOf(h, e).s.tornDown by { StillOpen(h, e); }
  }

  lemma StillOpen(h: Hub, e: nat)
    requires InPlace(h) && e in h.seats
    ensures !h.seats[e].s.tornDown && h.seats[e].s.epoch == e
  {
  }
}
