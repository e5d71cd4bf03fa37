/** ServerImpl's part in the protocol: the map of open sessions over one engine, and the loops that
    publish a book to them and settle their counts (cpp/src/server.cpp:452-532,587-596). */
module ServerClasses {
  import opened Text
  import opened Protocol
  import S = SessionSpec
  import V = ServerSpec
  import R = ServerRuns
  import E = EngineSpec
  import Engine
  import opened SessionClasses

  /** Every session serves its own epoch over the one engine, with an outbox of its own. */
  ghost predicate Placed(cfg: S.Config, engine: Engine.OrderEngine, sessions: map<nat, Session>, nextEpoch: nat) {
    && (forall e :: e in sessions ==> sessions[e].engine == engine && sessions[e].cfg == cfg && sessions[e].epoch == e)
    && (forall e :: e in sessions ==> e <= nextEpoch)
    && (forall d, e :: d in sessions && e in sessions && d != e ==> sessions[d].out != sessions[e].out)
  }

  lemma PlacedMore(cfg: S.Config, engine: Engine.OrderEngine, sessions: map<nat, Session>, session: Session, epoch: nat)
    requires Placed(cfg, engine, sessions, epoch) && session.engine == engine && session.cfg == cfg
    requires session.epoch == epoch + 1 && forall e :: e in sessions ==> sessions[e].out != session.out
    ensures Placed(cfg, engine, sessions[epoch + 1 := session], epoch + 1) && epoch + 1 !in sessions
  {
  }

  ghost function SeatOf(session: Session): V.Seat
    reads session, session.out
  {
    V.Seat(session.Here(), session.log)
  }

  class Server {
    const cfg: S.Config
    const engine: Engine.OrderEngine
    var sessions: map<nat, Session>
    var nextMdSeq: nat
    var nextEpoch: nat
    var conflatedBase: nat

    ghost predicate Valid()
      reads this, engine
    {
      && engine.Valid() && engine.inst == cfg.inst && engine.maxSessionEntries == cfg.maxSessionEntries
      && Placed(cfg, engine, sessions, nextEpoch)
    }

    /** The sessions and their outboxes. */
    ghost function Owned(): set<object>
      reads this`sessions
    {
      (set e | e in sessions :: sessions[e]) + (set e | e in sessions :: sessions[e].out)
    }

    ghost function View(): V.Hub
      reads this, engine, Owned()
    {
      V.Hub(engine.View(), nextMdSeq, nextEpoch, map e | e in sessions :: SeatOf(sessions[e]), conflatedBase)
    }

    /** Between calls: every open session in place and whole. */
    ghost predicate Whole()
      reads this, engine, Owned()
    {
      Valid() && R.AllWhole(View())
    }

    constructor (inst: Instrument, maxSessionEntries: nat)
      requires ValidInstrument(inst) && maxSessionEntries > 0
      ensures Whole() && View() == V.EMPTY
    {
      cfg := S.Config(inst, maxSessionEntries);
      engine := new Engine.OrderEngine(inst, maxSessionEntries);
      sessions, nextMdSeq, nextEpoch, conflatedBase := map[], 0, 0, 0;
    }

    method DeliverReport(e: nat, m: OutMsg, encodes: bool)
      requires Valid() && e in sessions && !m.Tob?
      modifies engine, sessions[e], sessions[e].out
      ensures Valid()
      ensures View() == V.Seated(old(View()), e, S.DeliverReport(cfg, V.WorldOf(old(View()), e), m, encodes))
    {
      hide S.DeliverReport;
      ghost var h := View();
      var session := sessions[e];
      session.mdSeq := nextMdSeq;
      assert session.View() == V.WorldOf(h, e);
      session.DeliverReport(m, encodes);
      ghost var t := S.DeliverReport(cfg, V.WorldOf(h, e), m, encodes);
      assert session.View() == t;
      forall d | d in sessions && d != e ensures SeatOf(sessions[d]) == old(SeatOf(sessions[d])) {
      }
      SeatMoved(h, View(), e, t);
    }

    method DeliverTob(e: nat, m: OutMsg, encodes: bool)
      requires Valid() && e in sessions && m.Tob?
      modifies engine, sessions[e], sessions[e].out
      ensures Valid()
      ensures View() == V.Seated(old(View()), e, S.DeliverTob(V.WorldOf(old(View()), e), m, encodes))
    {
      hide S.DeliverTob;
      ghost var h := View();
      var session := sessions[e];
      session.mdSeq := nextMdSeq;
      assert session.View() == V.WorldOf(h, e);
      session.DeliverTob(m, encodes);
      ghost var t := S.DeliverTob(V.WorldOf(h, e), m, encodes);
      assert session.View() == t;
      forall d | d in sessions && d != e ensures SeatOf(sessions[d]) == old(SeatOf(sessions[d])) {
      }
      SeatMoved(h, View(), e, t);
    }

    /** Reports whose session has gone are dropped. */
    method RouteAll(routed: seq<E.Routed>, encodes: set<nat>)
      requires Valid() && forall r :: r in routed ==> !r.msg.Tob?
      modifies engine, Owned()
      ensures Valid() && View() == V.RouteAll(cfg, old(View()), routed, encodes)
    {
      hide S.DeliverReport, V.Seated;
      for n := 0 to |routed|
        invariant Valid() && View() == V.RouteAll(cfg, old(View()), routed[..n], encodes)
      {
        var r := routed[n];
        assert routed[..n + 1][..n] == routed[..n];
        if r.session in sessions { DeliverReport(r.session, r.msg, r.session in encodes); }
      }
      assert routed[..|routed|] == routed;
    }

    method FanOut(es: seq<nat>, tick: OutMsg, encodes: set<nat>)
      requires Valid() && tick.Tob? && forall e :: e in es ==> e in sessions
      modifies engine, Owned()
      ensures Valid() && View() == V.FanOut(old(View()), es, tick, encodes)
    {
      hide S.DeliverTob, V.Seated;
      for n := 0 to |es|
        invariant Valid() && View() == V.FanOut(old(View()), es[..n], tick, encodes)
      {
        assert es[..n + 1][..n] == es[..n];
        assert es[n] in es;
        DeliverTob(es[n], tick, es[n] in encodes);
      }
      assert es[..|es|] == es;
    }

    /** Every session, in epoch order. */
    method TickAll(tick: OutMsg, encodes: set<nat>)
      requires Valid() && tick.Tob?
      modifies engine, Owned()
      ensures Valid() && View() == V.FanOut(old(View()), V.InOrder(old(View()).seats), tick, encodes)
    {
      hide V.FanOut, SeatOf;
      var es := EpochWalk(sessions.Keys);
      V.WalkUnique(es, View().seats);
      FanOut(es, tick, encodes);
    }

    /** The book reaches the engine under the next md_seq. */
    method ApplyBook(bidPx: int, bidQty: int, askPx: int, askQty: int) returns (b: E.Book, routed: seq<E.Routed>)
      requires Valid()
      modifies this`nextMdSeq, engine
      ensures Valid() && b == E.Book(bidPx, bidQty, askPx, askQty, old(nextMdSeq) + 1)
      ensures (forall r :: r in routed ==> !r.msg.Tob?) && routed == E.OnBook(cfg.inst, old(View()).engine, b).1
      ensures View() == old(View()).(engine := E.OnBook(cfg.inst, old(View()).engine, b).0, mdSeq := b.mdSeq)
    {
      hide E.OnBook, SeatOf;
      nextMdSeq := nextMdSeq + 1;
      b := E.Book(bidPx, bidQty, askPx, askQty, nextMdSeq);
      S.FillsAreReports(cfg.inst, engine.View(), b);
      var done := engine.OnBook(b, _ => true);
      routed := done.value;
    }

    /** One md_seq for the book; its fills to their owners, then the tick to everybody in epoch order. */
    method PublishBook(bidPx: int, bidQty: int, askPx: int, askQty: int, encodes: set<nat>)
      requires Whole()
      modifies this`nextMdSeq, engine, Owned()
      ensures Whole() && View() == V.PublishBook(cfg, old(View()), bidPx, bidQty, askPx, askQty, encodes)
    {
      hide E.OnBook, V.RouteAll, V.FanOut, SeatOf, R.AllWhole;
      R.ActKeepsWhole(cfg, View(), V.Quote(bidPx, bidQty, askPx, askQty, encodes));
      var b, routed := ApplyBook(bidPx, bidQty, askPx, askQty);
      RouteAll(routed, encodes);
      if sessions == map[] {
        V.NobodyWaits(View(), S.TickOf(cfg, b), encodes);
      } else {
        TickAll(S.TickOf(cfg, b), encodes);
      }
    }

    // --- the map of sessions ---------------------------------------------------------------

    /** The next epoch, never given twice. */
    method Connect(hwm: nat) returns (session: Session)
      requires Whole()
      modifies this`sessions, this`nextEpoch
      ensures Whole() && fresh(session) && sessions == old(sessions)[nextEpoch := session]
      ensures View() == V.Accept(old(View()), hwm)
    {
      hide V.Accept, R.AllWhole;
      R.ActKeepsWhole(cfg, View(), V.Connects(hwm));
      ghost var h := View();
      session := new Session(cfg, engine, nextEpoch + 1, hwm, nextMdSeq);
      assert View() == h;
      Admit(session, hwm);
    }

    method Admit(session: Session, ghost hwm: nat)
      requires Valid() && session.engine == engine && session.cfg == cfg && session.epoch == nextEpoch + 1
      requires SeatOf(session) == V.Seat(S.Opened(nextEpoch + 1, hwm), S.NO_LOG)
      requires forall e :: e in sessions ==> sessions[e].out != session.out
      modifies this`sessions, this`nextEpoch
      ensures Valid() && sessions == old(sessions)[nextEpoch := session]
      ensures View() == V.Accept(old(View()), hwm)
    {
      hide S.Opened, Placed, SeatOf;
      PlacedMore(cfg, engine, sessions, session, nextEpoch);
      ghost var h := View();
      var epoch := nextEpoch + 1;
      nextEpoch := epoch;
      sessions := sessions[epoch := session];
      assert forall e :: e in h.seats ==> SeatOf(sessions[e]) == h.seats[e];
      ghost var g := View();
      assert g.seats.Keys == h.seats.Keys + {epoch};
      SeatTaken(h, g, hwm);
    }

    /** Its count is folded in before the session leaves the map. */
    method SessionClosed(e: nat)
      requires Whole() && e in sessions
      modifies this`sessions, this`conflatedBase
      ensures Whole() && View() == V.SessionClosed(old(View()), e)
    {
      hide R.AllWhole;
      R.LeavingKeepsWhole(View(), e);
      ghost var h := View();
      assert SeatOf(sessions[e]) == h.seats[e];
      conflatedBase := conflatedBase + sessions[e].out.conflated;
      sessions := sessions - {e};
      SeatLeft(h, View(), e);
    }

    method CountsOf(e: nat) returns (live: nat, merged: nat)
      requires Valid() && e in sessions
      ensures live == |E.LiveOf(engine.View().orders, e)| && merged == SeatOf(sessions[e]).s.out.conflated
    {
      live := engine.LiveCount(e);
      merged := sessions[e].out.conflated;
    }

    /** The gauges of a snapshot, added up over the open sessions. */
    method SettleCounters() returns (live: nat, conflated: nat, staleBooks: nat)
      requires Valid()
      ensures live == |R.LiveIn(View().engine.orders, View().seats.Keys)|
      ensures conflated == R.Conflated(View()) && staleBooks == View().engine.staleBooks
    {
      hide Placed, StillToCome, SeatOf, R.Conflated, R.LiveIn, Tallied, V.Walks, E.LiveOf;
      ghost var h := View();
      var es := EpochWalk(sessions.Keys);
      live, conflated, staleBooks := 0, conflatedBase, engine.staleBooks;
      ghost var rest := h.seats;
      TallyStarts(h, es);
      for n := 0 to |es|
        invariant Tallied(h, rest, es[n..], live, conflated)
      {
        var e := es[n];
        TallyOne(h, rest, es, n, live, conflated);
        assert SeatOf(sessions[e]) == h.seats[e];
        var own, merged := CountsOf(e);
        live, conflated := live + own, conflated + merged;
        rest := rest - {e};
      }
      assert View() == h;
      TallyEnds(h, rest, es, live, conflated);
    }
  }

  ghost predicate StillToCome(rest: map<nat, V.Seat>, seats: map<nat, V.Seat>, es: seq<nat>) {
    && (forall e :: e in rest <==> e in es)
    && (forall e :: e in rest ==> e in seats && rest[e] == seats[e])
  }

  lemma LaterDiffer(es: seq<nat>, seats: map<nat, V.Seat>, n: nat)
    requires V.Walks(es, seats) && n < |es|
    ensures es[n] !in es[n + 1..] && es[n..][1..] == es[n + 1..]
  {
  }

  lemma TakeOne(rest: map<nat, V.Seat>, seats: map<nat, V.Seat>, es: seq<nat>)
    requires es != [] && StillToCome(rest, seats, es) && es[0] !in es[1..]
    ensures es[0] in rest && es[0] in seats && rest[es[0]] == seats[es[0]]
    ensures StillToCome(rest - {es[0]}, seats, es[1..])
  {
    var tail := es[1..];
    assert es == [es[0]] + tail;
    forall e ensures e in rest - {es[0]} <==> e in tail {
      assert e in es <==> e == es[0] || e in tail;
    }
  }

  /** What has been counted, and what is still to come, make the totals. */
  ghost predicate Tallied(h: V.Hub, rest: map<nat, V.Seat>, es: seq<nat>, live: nat, conflated: nat) {
    && StillToCome(rest, h.seats, es)
    && live + |R.LiveIn(h.engine.orders, rest.Keys)| == |R.LiveIn(h.engine.orders, h.seats.Keys)|
    && conflated + R.Sum(rest) == R.Conflated(h)
  }

  lemma TallyStarts(h: V.Hub, es: seq<nat>)
    requires V.Walks(es, h.seats)
    ensures Tallied(h, h.seats, es[0..], 0, h.conflatedBase)
  {
    assert es[0..] == es;
  }

  lemma TallyOne(h: V.Hub, rest: map<nat, V.Seat>, es: seq<nat>, n: nat, live: nat, conflated: nat)
    requires n < |es| && V.Walks(es, h.seats) && Tallied(h, rest, es[n..], live, conflated)
    ensures es[n] in h.seats
    ensures Tallied(h, rest - {es[n]}, es[n + 1..], live + |E.LiveOf(h.engine.orders, es[n])|,
                    conflated + h.seats[es[n]].s.out.conflated)
  {
    hide R.Sum, R.LiveIn, R.Conflated, StillToCome, V.Walks;
    assert es[n] !in es[n..][1..] by { LaterDiffer(es, h.seats, n); }
    assert es[n..][1..] == es[n + 1..];
    TakeOne(rest, h.seats, es[n..]);
    R.LiveSplits(h.engine.orders, rest.Keys, es[n]);
    R.SumTakes(rest, es[n]);
    assert rest.Keys - {es[n]} == (rest - {es[n]}).Keys;
  }

  lemma TallyEnds(h: V.Hub, rest: map<nat, V.Seat>, es: seq<nat>, live: nat, conflated: nat)
    requires Tallied(h, rest, es[|es|..], live, conflated)
    ensures live == |R.LiveIn(h.engine.orders, h.seats.Keys)| && conflated == R.Conflated(h)
  {
    assert es[|es|..] == [];
    R.NoneLeft(h.engine.orders, rest);
  }

  /** An iteration over the map of sessions, lowest epoch first. */
  method EpochWalk(keys: set<nat>) returns (es: seq<nat>)
    ensures forall seats: map<nat, V.Seat> :: seats.Keys == keys ==> V.Walks(es, seats)
  {
    es := [];
    var rest := keys;
    while rest != {}
      invariant rest <= keys && (forall e :: e in es <==> e in keys - rest)
      invariant forall i, j :: 0 <= i < j < |es| ==> es[i] < es[j]
      invariant forall e, x :: e in es && x in rest ==> e < x
    {
      V.LeastExists(rest);
      var least :| least in rest && forall x :: x in rest ==> least <= x;
      assert forall i :: 0 <= i < |es| ==> es[i] in es && least in rest;
      es := es + [least];
      rest := rest - {least};
    }
  }

  lemma SeatMoved(h: V.Hub, g: V.Hub, e: nat, t: S.World)
    requires g == h.(engine := t.engine, seats := g.seats) && g.seats.Keys == h.seats.Keys && e in h.seats
    requires g.seats[e] == V.Seat(t.s, t.log) && forall d :: d in h.seats && d != e ==> g.seats[d] == h.seats[d]
    ensures g == V.Seated(h, e, t)
  {
  }

  lemma SeatTaken(h: V.Hub, g: V.Hub, hwm: nat)
    requires g == h.(nextEpoch := h.nextEpoch + 1, seats := g.seats) && g.seats.Keys == h.seats.Keys + {h.nextEpoch + 1}
    requires g.seats[h.nextEpoch + 1] == V.Seat(S.Opened(h.nextEpoch + 1, hwm), S.NO_LOG)
    requires h.nextEpoch + 1 !in h.seats && forall d :: d in h.seats ==> g.seats[d] == h.seats[d]
    ensures g == V.Accept(h, hwm)
  {
  }

  lemma SeatLeft(h: V.Hub, g: V.Hub, e: nat)
    requires e in h.seats && g == h.(seats := g.seats, conflatedBase := h.conflatedBase + h.seats[e].s.out.conflated)
    requires g.seats.Keys == h.seats.Keys - {e} && forall d :: d in g.seats ==> g.seats[d] == h.seats[d]
    ensures g == V.SessionClosed(h, e)
  {
  }
}
