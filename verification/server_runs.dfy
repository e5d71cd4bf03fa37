/** Whole runs of the server: every open session's part in one is a run of SessionSpec, and the exported
    conflation count never falls when a session leaves (cpp/src/server.cpp:452-532,587-596). */
module ServerRuns {
  import opened Text
  import opened Protocol
  import opened SessionSpec
  import opened ServerSpec
  import R = SessionRuns
  import E = EngineSpec

  // --- every hub is in place ---------------------------------------------------------------

  lemma TurnInPlace(cfg: Config, h: Hub, e: nat, event: Event, encodes: bool)
    requires ValidConfig(cfg) && InPlace(h) && Possible(h, Turn(e, event, encodes))
    ensures InPlace(After(cfg, h, Turn(e, event, encodes)))
  {
    hide Next, InPlace, Local;
    OwnEventLocal(cfg, WorldOf(h, e), event, encodes);
    assert WorldOf(h, e).s.epoch == e by { StillOpen(h, e); }
    MovedInPlace(h, e, Next(cfg, WorldOf(h, e), event, encodes));
  }

  lemma QuoteInPlace(cfg: Config, h: Hub, a: Act)
    requires ValidConfig(cfg) && InPlace(h) && a.Quote?
    ensures InPlace(After(cfg, h, a)) && After(cfg, h, a).seats.Keys == h.seats.Keys
    ensures After(cfg, h, a).conflatedBase == h.conflatedBase
  {
    hide InPlace, E.OnBook;
    if e :| e in h.seats {
      PublishedTo(cfg, h, a.bidPx, a.bidQty, a.askPx, a.askQty, a.codec, e);
    } else {
      assert h.seats == map[];
      var b := E.Book(a.bidPx, a.bidQty, a.askPx, a.askQty, h.mdSeq + 1);
      BookInPlace(cfg, h, b);
      FillsAreReports(cfg.inst, h.engine, b);
      NobodyToRoute(cfg, h.(engine := E.OnBook(cfg.inst, h.engine, b).0, mdSeq := b.mdSeq), E.OnBook(cfg.inst, h.engine, b).1, a.codec);
      NobodyWaits(h.(engine := E.OnBook(cfg.inst, h.engine, b).0, mdSeq := b.mdSeq), TickOf(cfg, b), a.codec);
    }
  }

  lemma {:induction false} NobodyToRoute(cfg: Config, h: Hub, routed: seq<E.Routed>, encodes: set<nat>)
    requires h.seats == map[] && forall r :: r in routed ==> !r.msg.Tob?
    ensures RouteAll(cfg, h, routed, encodes) == h
  {
    if routed != [] {
      assert routed[|routed| - 1] in routed;
      NobodyToRoute(cfg, h, routed[..|routed| - 1], encodes);
    }
  }

  lemma ActInPlace(cfg: Config, h: Hub, a: Act)
    requires ValidConfig(cfg) && InPlace(h) && Possible(h, a)
    ensures InPlace(After(cfg, h, a))
  {
    hide Next, PublishBook;
    match a
    case Connects(_) =>
    case Turn(e, event, encodes) => TurnInPlace(cfg, h, e, event, encodes);
    case Quote(_, _, _, _, _) => QuoteInPlace(cfg, h, a);
  }

  lemma {:induction false} AlwaysInPlace(cfg: Config, hs: seq<Hub>, acts: seq<Act>, i: nat)
    requires ValidConfig(cfg) && IsServerRun(cfg, hs, acts) && i < |hs|
    ensures InPlace(hs[i])
  {
    hide After, Possible;
    if i > 0 {
      AlwaysInPlace(cfg, hs, acts, i - 1);
      ActInPlace(cfg, hs[i - 1], acts[i - 1]);
    }
  }

  // --- every seat is a run -----------------------------------------------------------------

  lemma RunOn(cfg: Config, ws: seq<World>, happened: seq<Happening>, event: Event, encodes: bool) returns (more: seq<World>)
    requires ValidConfig(cfg) && IsRun(cfg, ws, happened) && Enabled(ws[|ws| - 1], event)
    ensures IsRun(cfg, more, happened + [Happening(event, encodes)])
    ensures more[|more| - 1] == Next(cfg, ws[|ws| - 1], event, encodes)
  {
    hide Next, Enabled, IsStart;
    more := ws + [Next(cfg, ws[|ws| - 1], event, encodes)];
    var all := happened + [Happening(event, encodes)];
    forall i | 0 <= i < |all|
      ensures Enabled(more[i], all[i].event) && more[i + 1] == Next(cfg, more[i], all[i].event, all[i].encodes)
    {
      if i < |happened| { assert all[i] == happened[i] && more[i] == ws[i] && more[i + 1] == ws[i + 1]; }
    }
  }

  /** A book, from a seat: the book alone, then what it made the other sessions do. */
  lemma BookOn(cfg: Config, h: Hub, a: Act, e: nat, ws: seq<World>, happened: seq<Happening>)
    returns (more: seq<World>, all: seq<Happening>)
    requires ValidConfig(cfg) && InPlace(h) && a.Quote? && e in h.seats
    requires IsRun(cfg, ws, happened) && ws[|ws| - 1] == WorldOf(h, e)
    ensures e in After(cfg, h, a).seats && IsRun(cfg, more, all) && more[|more| - 1] == WorldOf(After(cfg, h, a), e)
  {
    hide IsRun, OnPublish, PublishBook, InPlace;
    var book := Event.Publish(a.bidPx, a.bidQty, a.askPx, a.askQty);
    PublishedTo(cfg, h, a.bidPx, a.bidQty, a.askPx, a.askQty, a.codec, e);
    StillOpen(h, e);
    all := happened + [Happening(book, e in a.codec)];
    var mid := RunOn(cfg, ws, happened, book, e in a.codec);
    var others := Others(After(cfg, h, a).engine);
    more := RunOn(cfg, mid, all, others, true);
    all := all + [Happening(others, true)];
  }

  /** How one act of the server looks from a seat that is there before and after it: nothing, its own
      event, other sessions' doings, or a book and then the others' doings. */
  lemma SeatOn(cfg: Config, h: Hub, a: Act, e: nat, ws: seq<World>, happened: seq<Happening>)
    returns (more: seq<World>, all: seq<Happening>)
    requires ValidConfig(cfg) && InPlace(h) && Possible(h, a) && e in h.seats && e in After(cfg, h, a).seats
    requires IsRun(cfg, ws, happened) && ws[|ws| - 1] == WorldOf(h, e)
    ensures IsRun(cfg, more, all) && more[|more| - 1] == WorldOf(After(cfg, h, a), e)
  {
    hide IsRun, OnRead, OnWrite, OnCloseDone, OnDrainDone, OnPublish, BeginClose, PublishBook;
    StillOpen(h, e);
    match a {
      case Connects(_) => more, all := ws, happened;
      case Turn(d, event, encodes) =>
        OwnEventLocal(cfg, WorldOf(h, d), event, encodes);
        StillOpen(h, d);
        var does := if d == e then event else Others(After(cfg, h, a).engine);
        all := happened + [Happening(does, encodes)];
        more := RunOn(cfg, ws, happened, does, encodes);
      case Quote(_, _, _, _, _) => more, all := BookOn(cfg, h, a, e, ws, happened);
    }
  }

  lemma {:induction false} SeatRun(cfg: Config, hs: seq<Hub>, acts: seq<Act>, i: nat, e: nat)
    returns (ws: seq<World>, happened: seq<Happening>)
    requires ValidConfig(cfg) && IsServerRun(cfg, hs, acts) && i < |hs| && e in hs[i].seats
    ensures IsRun(cfg, ws, happened) && ws[|ws| - 1] == WorldOf(hs[i], e)
  {
    hide After, Possible, InPlace, IsRun;
    AlwaysInPlace(cfg, hs, acts, i - 1);
    if e in hs[i - 1].seats {
      ws, happened := SeatRun(cfg, hs, acts, i - 1, e);
      ws, happened := SeatOn(cfg, hs[i - 1], acts[i - 1], e, ws, happened);
    } else {
      NewSeat(cfg, hs[i - 1], acts[i - 1], e);
      ws, happened := [WorldOf(hs[i], e)], [];
      StartAlone(cfg, WorldOf(hs[i], e));
    }
  }

  lemma StartAlone(cfg: Config, w: World)
    requires ValidConfig(cfg) && IsStart(w)
    ensures IsRun(cfg, [w], [])
  {
  }

  /** A seat that was not there before is a session just accepted. */
  lemma NewSeat(cfg: Config, h: Hub, a: Act, e: nat)
    requires ValidConfig(cfg) && InPlace(h) && Possible(h, a) && e !in h.seats && e in After(cfg, h, a).seats
    ensures IsStart(WorldOf(After(cfg, h, a), e))
  {
    hide Next, PublishBook;
    if a.Quote? {
      QuoteInPlace(cfg, h, a);
    }
  }

  /** So whatever the mix of sessions, each one open is whole: its wire stream is gapless and loses no
      report, its close is latched once, and it is never left with nothing outstanding. */
  lemma EverySessionWhole(cfg: Config, hs: seq<Hub>, acts: seq<Act>, i: nat, e: nat)
    requires ValidConfig(cfg) && IsServerRun(cfg, hs, acts) && i < |hs| && e in hs[i].seats
    ensures R.Whole(WorldOf(hs[i], e))
  {
    hide R.Whole, IsRun, IsServerRun;
    var ws, happened := SeatRun(cfg, hs, acts, i, e);
    assert |ws| > 0 by { RunHasStart(cfg, ws, happened); }
    R.AlwaysWhole(cfg, ws, happened, |ws| - 1);
  }

  lemma RunHasStart(cfg: Config, ws: seq<World>, happened: seq<Happening>)
    requires ValidConfig(cfg) && IsRun(cfg, ws, happened)
    ensures |ws| > 0
  {
  }

  // --- one act at a time -------------------------------------------------------------------

  /** Every open session in place and whole. */
  ghost predicate AllWhole(h: Hub) { InPlace(h) && forall e :: e in h.seats ==> R.Whole(WorldOf(h, e)) }

  lemma BookKeepsWhole(cfg: Config, h: Hub, a: Act, e: nat)
    requires ValidConfig(cfg) && AllWhole(h) && a.Quote? && e in h.seats
    ensures e in After(cfg, h, a).seats && R.Whole(WorldOf(After(cfg, h, a), e))
  {
    hide R.Whole, OnPublish, PublishBook;
    var b := NextBook(WorldOf(h, e), a.bidPx, a.bidQty, a.askPx, a.askQty);
    PublishedTo(cfg, h, a.bidPx, a.bidQty, a.askPx, a.askQty, a.codec, e);
    R.PublishKeeps(cfg, WorldOf(h, e), b, e in a.codec);
    R.OthersKeep(OnPublish(cfg, WorldOf(h, e), b, e in a.codec), After(cfg, h, a).engine);
  }

  lemma TurnKeepsWhole(cfg: Config, h: Hub, a: Act, e: nat)
    requires ValidConfig(cfg) && AllWhole(h) && Possible(h, a) && a.Turn? && e in After(cfg, h, a).seats
    ensures R.Whole(WorldOf(After(cfg, h, a), e))
  {
    hide R.Whole, Next, Enabled;
    var t := Next(cfg, WorldOf(h, a.epoch), a.event, a.encodes);
    OwnEventLocal(cfg, WorldOf(h, a.epoch), a.event, a.encodes);
    if e == a.epoch {
      R.NextKeeps(cfg, WorldOf(h, e), a.event, a.encodes);
    } else {
      R.OthersKeep(WorldOf(h, e), t.engine);
    }
  }

  /** Whatever the server does next, every session open after it is whole. */
  lemma ActKeepsWhole(cfg: Config, h: Hub, a: Act)
    requires ValidConfig(cfg) && AllWhole(h) && Possible(h, a)
    ensures AllWhole(After(cfg, h, a))
  {
    hide R.Whole, InPlace, After, Possible;
    ActInPlace(cfg, h, a);
    forall e | e in After(cfg, h, a).seats ensures R.Whole(WorldOf(After(cfg, h, a), e)) {
      if a.Quote? {
        QuoteInPlace(cfg, h, a);
        BookKeepsWhole(cfg, h, a, e);
      } else if a.Turn? {
        TurnKeepsWhole(cfg, h, a, e);
      } else if e !in h.seats {
        NewSeat(cfg, h, a, e);
        R.StartIsWhole(WorldOf(After(cfg, h, a), e));
      } else {
        SameWorld(cfg, h, a, e);
      }
    }
  }

  lemma LeavingKeepsWhole(h: Hub, e: nat)
    requires AllWhole(h) && e in h.seats
    ensures AllWhole(SessionClosed(h, e))
  {
    hide R.Whole;
    forall d | d in SessionClosed(h, e).seats ensures WorldOf(SessionClosed(h, e), d) == WorldOf(h, d) {
    }
  }

  lemma SameWorld(cfg: Config, h: Hub, a: Act, e: nat)
    requires ValidConfig(cfg) && InPlace(h) && a.Connects? && e in h.seats
    ensures WorldOf(After(cfg, h, a), e) == WorldOf(h, e)
  {
    FreshEpoch(h);
  }

  // --- nothing of a session outlives it ----------------------------------------------------

  /** A delivery adds no order. */
  lemma DeliveredLeaves(cfg: Config, h: Hub, d: nat, m: OutMsg, encodes: bool, k: E.Key)
    requires InPlace(h) && d in h.seats && k.session !in h.seats
    ensures var w := WorldOf(h, d);
            var g := Seated(h, d, if m.Tob? then DeliverTob(w, m, encodes) else DeliverReport(cfg, w, m, encodes));
            InPlace(g) && g.seats.Keys == h.seats.Keys && (k in g.engine.orders ==> k in h.engine.orders)
  {
    hide DeliverTob, DeliverReport;
    var w := WorldOf(h, d);
    DeliverLocal(cfg, w, m, encodes);
    MovedInPlace(h, d, if m.Tob? then DeliverTob(w, m, encodes) else DeliverReport(cfg, w, m, encodes));
  }

  lemma {:induction false} RoutedLeaves(cfg: Config, h: Hub, routed: seq<E.Routed>, encodes: set<nat>, k: E.Key)
    requires InPlace(h) && k.session !in h.seats && forall r :: r in routed ==> !r.msg.Tob?
    ensures var g := RouteAll(cfg, h, routed, encodes);
            InPlace(g) && g.seats.Keys == h.seats.Keys && (k in g.engine.orders ==> k in h.engine.orders)
  {
    hide InPlace, DeliverReport, Seated;
    if routed != [] {
      var before, last := routed[..|routed| - 1], routed[|routed| - 1];
      assert last in routed;
      RoutedLeaves(cfg, h, before, encodes, k);
      var g := RouteAll(cfg, h, before, encodes);
      if last.session in g.seats { DeliveredLeaves(cfg, g, last.session, last.msg, last.session in encodes, k); }
    }
  }

  lemma {:induction false} FannedLeaves(cfg: Config, h: Hub, es: seq<nat>, tick: OutMsg, encodes: set<nat>, k: E.Key)
    requires InPlace(h) && k.session !in h.seats && tick.Tob?
    ensures var g := FanOut(h, es, tick, encodes);
            InPlace(g) && g.seats.Keys == h.seats.Keys && (k in g.engine.orders ==> k in h.engine.orders)
  {
    hide InPlace, DeliverTob, Seated;
    if es != [] {
      var before, last := es[..|es| - 1], es[|es| - 1];
      FannedLeaves(cfg, h, before, tick, encodes, k);
      var g := FanOut(h, before, tick, encodes);
      if last in g.seats { DeliveredLeaves(cfg, g, last, tick, last in encodes, k); }
    }
  }

  lemma BookLeaves(cfg: Config, h: Hub, a: Act, k: E.Key)
    requires ValidConfig(cfg) && InPlace(h) && a.Quote? && k.session !in h.seats && k !in h.engine.orders
    ensures k !in After(cfg, h, a).engine.orders
  {
    hide InPlace, E.SweepKeys, E.AfterBook, RouteAll, FanOut;
    var b := E.Book(a.bidPx, a.bidQty, a.askPx, a.askQty, h.mdSeq + 1);
    FillsAreReports(cfg.inst, h.engine, b);
    BookInPlace(cfg, h, b);
    var (engine, routed) := E.OnBook(cfg.inst, h.engine, b);
    var h0 := h.(engine := engine, mdSeq := b.mdSeq);
    RoutedLeaves(cfg, h0, routed, a.codec, k);
    var h1 := RouteAll(cfg, h0, routed, a.codec);
    FannedLeaves(cfg, h1, InOrder(h1.seats), TickOf(cfg, b), a.codec, k);
  }

  lemma TurnLeaves(cfg: Config, h: Hub, a: Act, k: E.Key)
    requires ValidConfig(cfg) && InPlace(h) && Possible(h, a) && a.Turn? && R.Whole(WorldOf(h, a.epoch))
    requires k.session in h.seats || k !in h.engine.orders
    ensures k.session in After(cfg, h, a).seats || k !in After(cfg, h, a).engine.orders
  {
    hide Next, Enabled;
    var w := WorldOf(h, a.epoch);
    OwnEventLocal(cfg, w, a.event, a.encodes);
    R.NextKeeps(cfg, w, a.event, a.encodes);
  }

  /** Every order belongs to a session still open: a session that has gone left nothing in the engine. */
  lemma {:induction false} NoOrphans(cfg: Config, hs: seq<Hub>, acts: seq<Act>, i: nat, k: E.Key)
    requires ValidConfig(cfg) && IsServerRun(cfg, hs, acts) && i < |hs|
    ensures k in hs[i].engine.orders ==> k.session in hs[i].seats
  {
    hide PublishBook, Next, Possible, InPlace, R.Whole;
    if i > 0 {
      var h, a := hs[i - 1], acts[i - 1];
      NoOrphans(cfg, hs, acts, i - 1, k);
      AlwaysInPlace(cfg, hs, acts, i - 1);
      match a {
        case Connects(_) =>
        case Turn(e, _, _) => CanTurn(h, a); EverySessionWhole(cfg, hs, acts, i - 1, e); TurnLeaves(cfg, h, a, k);
        case Quote(_, _, _, _, _) => QuoteInPlace(cfg, h, a); if k.session !in h.seats { BookLeaves(cfg, h, a, k); }
      }
    }
  }

  lemma CanTurn(h: Hub, a: Act)
    requires Possible(h, a) && a.Turn?
    ensures a.epoch in h.seats
  {
  }

  /** The live orders of some sessions, which is what settle_snapshot_counters adds up. */
  ghost function LiveIn(orders: map<E.Key, E.Order>, es: set<nat>): set<E.Key> {
    set k | k in orders && orders[k].st == E.Live && k.session in es
  }

  lemma LiveSplits(orders: map<E.Key, E.Order>, es: set<nat>, e: nat)
    requires e in es
    ensures |LiveIn(orders, es)| == |E.LiveOf(orders, e)| + |LiveIn(orders, es - {e})|
  {
    assert LiveIn(orders, es) == E.LiveOf(orders, e) + LiveIn(orders, es - {e});
  }

  /** So the exported gauge counts every live order there is. */
  lemma GaugeIsWhole(cfg: Config, hs: seq<Hub>, acts: seq<Act>, i: nat)
    requires ValidConfig(cfg) && IsServerRun(cfg, hs, acts) && i < |hs|
    ensures LiveIn(hs[i].engine.orders, hs[i].seats.Keys) == set k | k in hs[i].engine.orders &&
            hs[i].engine.orders[k].st == E.Live
  {
    hide IsServerRun;
    forall k | k in hs[i].engine.orders ensures k.session in hs[i].seats { NoOrphans(cfg, hs, acts, i, k); }
  }

  // --- the exported count of conflated ticks -----------------------------------------------

  ghost function Sum(seats: map<nat, Seat>): nat {
    if seats == map[] then 0
    else
      var e :| e in seats;
      seats[e].s.out.conflated + Sum(seats - {e})
  }

  lemma NoneLeft(orders: map<E.Key, E.Order>, rest: map<nat, Seat>)
    ensures rest.Keys == {} ==> LiveIn(orders, rest.Keys) == {} && Sum(rest) == 0
  {
    if rest.Keys == {} { assert rest == map[]; }
  }

  /** What settle_snapshot_counters exports: the departed sessions' counts and the open ones'. */
  ghost function Conflated(h: Hub): nat { h.conflatedBase + Sum(h.seats) }

  lemma {:induction false} SumTakes(seats: map<nat, Seat>, e: nat)
    requires e in seats
    ensures Sum(seats) == seats[e].s.out.conflated + Sum(seats - {e})
    decreases |seats|
  {
    var d :| d in seats && Sum(seats) == seats[d].s.out.conflated + Sum(seats - {d});
    if d != e {
      SumTakes(seats - {d}, e);
      SumTakes(seats - {e}, d);
      assert seats - {d} - {e} == seats - {e} - {d};
    }
  }

  lemma {:induction false} SumGrows(a: map<nat, Seat>, b: map<nat, Seat>)
    requires a.Keys == b.Keys
    requires forall e :: e in a ==> a[e].s.out.conflated <= b[e].s.out.conflated
    ensures Sum(a) <= Sum(b)
    decreases |a|
  {
    if a != map[] {
      var e :| e in a;
      SumTakes(a, e);
      SumTakes(b, e);
      SumGrows(a - {e}, b - {e});
    } else {
      assert b == map[];
    }
  }

  /** A session leaving the map takes nothing out of the total. */
  lemma LeavingKeepsCount(h: Hub, e: nat)
    requires e in h.seats
    ensures Conflated(SessionClosed(h, e)) == Conflated(h)
  {
    SumTakes(h.seats, e);
  }

  lemma AlikeCount(w: World, v: World)
    requires Alike(w, v)
    ensures w.s.out.conflated == v.s.out.conflated
  {
  }

  lemma {:induction false} DeliverAllLocal(cfg: Config, w: World, routed: seq<E.Routed>, encodes: bool)
    requires forall r :: r in routed ==> !r.msg.Tob?
    ensures Local(w, DeliverAll(cfg, w, routed, encodes))
  {
    hide DeliverReport;
    if routed != [] {
      var before, last := routed[..|routed| - 1], routed[|routed| - 1];
      assert last in routed;
      DeliverAllLocal(cfg, w, before, encodes);
      DeliverLocal(cfg, DeliverAll(cfg, w, before, encodes), last.msg, encodes);
    }
  }

  lemma BookOnlyCountsUp(cfg: Config, w: World, b: E.Book, encodes: bool)
    ensures OnPublish(cfg, w, b, encodes).s.out.conflated >= w.s.out.conflated
  {
    hide E.OnBook, DeliverTob;
    FillsAreReports(cfg.inst, w.engine, b);
    var (engine, routed) := E.OnBook(cfg.inst, w.engine, b);
    var w1 := w.(engine := engine, mdSeq := b.mdSeq);
    DeliverAllLocal(cfg, w1, routed, encodes);
    DeliverLocal(cfg, DeliverAll(cfg, w1, routed, encodes), TickOf(cfg, b), encodes);
  }

  /** The exported total never falls: not when a session leaves, and not otherwise. */
  lemma CountNeverFalls(cfg: Config, h: Hub, a: Act)
    requires ValidConfig(cfg) && InPlace(h) && Possible(h, a)
    ensures Conflated(After(cfg, h, a)) >= Conflated(h)
  {
    hide Next, PublishBook, Sum, InPlace, OnPublish, Alike;
    match a {
      case Connects(hwm) =>
        var e := h.nextEpoch + 1;
        assert e !in h.seats by { FreshEpoch(h); }
        SumTakes(Accept(h, hwm).seats, e);
        assert Accept(h, hwm).seats - {e} == h.seats;
      case Turn(e, event, encodes) =>
        var t := Next(cfg, WorldOf(h, e), event, encodes);
        OwnEventLocal(cfg, WorldOf(h, e), event, encodes);
        SumGrows(h.seats, Seated(h, e, t).seats);
        LeavingKeepsCount(Seated(h, e, t), e);
      case Quote(bp, bq, ap, aq, codec) =>
        QuoteInPlace(cfg, h, a);
        var g := PublishBook(cfg, h, bp, bq, ap, aq, codec);
        forall e | e in h.seats ensures h.seats[e].s.out.conflated <= g.seats[e].s.out.conflated {
          PublishedTo(cfg, h, bp, bq, ap, aq, codec, e);
          var alone := OnPublish(cfg, WorldOf(h, e), NextBook(WorldOf(h, e), bp, bq, ap, aq), e in codec);
          BookOnlyCountsUp(cfg, WorldOf(h, e), NextBook(WorldOf(h, e), bp, bq, ap, aq), e in codec);
          AlikeCount(alone, WorldOf(g, e));
        }
        SumGrows(h.seats, g.seats);
    }
  }

  lemma FreshEpoch(h: Hub)
    requires InPlace(h)
    ensures h.nextEpoch + 1 !in h.seats
  {
  }
}
