/** The engine's answers, read as moves of the order flow (cpp/src/engine.cpp). */
module EngineFlow {
  import opened Text
  import opened Protocol
  import opened OrderFlow
  import opened SessionEffects
  import E = EngineSpec
  import S = StrategySpec

  function FateOf(inst: Instrument, ord: E.Order): Fate {
    if ord.st == E.Live then Resting(ToRawPx(inst, ord.px)) else Over
  }

  ghost function IdsOf(orders: map<E.Key, E.Order>, session: nat): set<string> {
    set k | k in orders && k.session == session :: k.clId
  }

  /** One session's orders, by cl_id. */
  ghost function EngOf(inst: Instrument, orders: map<E.Key, E.Order>, session: nat): map<string, Fate> {
    map id | id in IdsOf(orders, session) && E.Key(session, id) in orders :: FateOf(inst, orders[E.Key(session, id)])
  }

  lemma EngAt(inst: Instrument, orders: map<E.Key, E.Order>, session: nat, id: string)
    ensures id in EngOf(inst, orders, session) <==> E.Key(session, id) in orders
    ensures E.Key(session, id) in orders ==> EngOf(inst, orders, session)[id] == FateOf(inst, orders[E.Key(session, id)])
  {
    if E.Key(session, id) in orders { assert E.Key(session, id).clId in IdsOf(orders, session); }
  }

  lemma EngAfterStore(inst: Instrument, orders: map<E.Key, E.Order>, session: nat, id: string, ord: E.Order)
    ensures EngOf(inst, orders[E.Key(session, id) := ord], session) == EngOf(inst, orders, session)[id := FateOf(inst, ord)]
  {
    hide EngOf, FateOf;
    var a, b := EngOf(inst, orders[E.Key(session, id) := ord], session), EngOf(inst, orders, session)[id := FateOf(inst, ord)];
    forall x ensures (x in a <==> x in b) && (x in a ==> a[x] == b[x]) {
      EngAt(inst, orders, session, x);
      EngAt(inst, orders[E.Key(session, id) := ord], session, x);
    }
  }

  lemma EngUntouched(inst: Instrument, a: map<E.Key, E.Order>, b: map<E.Key, E.Order>, session: nat)
    requires forall k :: k in a && k.session == session ==> k in b && b[k] == a[k]
    requires forall k :: k in b && k.session == session ==> k in a
    ensures EngOf(inst, a, session) == EngOf(inst, b, session)
  {
    hide EngOf, FateOf;
    var x, y := EngOf(inst, a, session), EngOf(inst, b, session);
    forall id ensures (id in x <==> id in y) && (id in x ==> x[id] == y[id]) {
      EngAt(inst, a, session, id);
      EngAt(inst, b, session, id);
    }
  }

  // --- a new order -------------------------------------------------------------------------

  /** With every earlier order of its side over, a new order finds at most the other side's resting. */
  lemma RoomForOne(inst: Instrument, f: Flow, orders: map<E.Key, E.Order>, session: nat)
    requires EngineSide(f) && f.eng == EngOf(inst, orders, session)
    requires f.done < |f.sent| && f.sent[f.done].NewOrder?
    ensures |E.LiveOf(orders, session)| <= 1
  {
    hide S.ClId, S.SideOf, S.IndexOf, EngOf, Assigned, EngineSide;
    var live := E.LiveOf(orders, session);
    forall a, b | a in live && b in live ensures a == b {
      EngAt(inst, orders, session, a.clId);
      EngAt(inst, orders, session, b.clId);
      assert a == E.Key(session, a.clId) && b == E.Key(session, b.clId);
      HeadIsAlone(f, a.clId);
      HeadIsAlone(f, b.clId);
      NewestOnly(f, a.clId, b.clId);
    }
    AtMostOne(live);
  }

  lemma NewestOnly(f: Flow, a: string, b: string)
    requires EngineSide(f) && a in f.eng && b in f.eng && !IsOver(f, a) && !IsOver(f, b) && S.SideOf(a) == S.SideOf(b)
    ensures a == b
  {
    hide S.ClId, S.SideOf, S.IndexOf;
    assert Assigned(f, a) && Assigned(f, b);
  }

  lemma AtMostOne(s: set<E.Key>)
    requires forall a, b :: a in s && b in s ==> a == b
    ensures |s| <= 1
  {
    if s != {} {
      var x :| x in s;
      assert s == {x};
    }
  }

  /** The rejects a client of this protocol never draws. */
  predicate Avoidable(code: RejectCode) {
    code == MaxLiveOrders || code == DupClOrdId || code == UnknownClOrdId || code == StaleEpoch
  }

  predicate Clean(ms: seq<OutMsg>) { forall m :: m in ms ==> m.Reject? ==> !Avoidable(m.code) }

  lemma ValidationCodes(inst: Instrument, symbol: string, side: string, px: int, qty: int)
    requires ValidInstrument(inst)
    ensures var bad := ValidateOrder(inst, symbol, side, px, qty); bad.Some? ==> !Avoidable(bad.value)
  {
  }

  lemma NewAnswered(inst: Instrument, s: E.State, session: nat, f: Flow)
    requires ValidInstrument(inst) && inst.maxLiveOrders >= 2
    requires EngineSide(f) && f.eng == EngOf(inst, s.orders, session)
    requires f.done < |f.sent| && f.sent[f.done].NewOrder?
    ensures var (t, m) := E.OnNew(inst, s, session, f.sent[f.done]);
            exists fate :: IsVerdict(f, m, fate) && EngOf(inst, t.orders, session) == f.eng[f.sent[f.done].clId := fate]
    ensures Clean([E.OnNew(inst, s, session, f.sent[f.done]).1])
  {
    hide EngOf, AllAssigned, CancelsKnown, NewsLast, OnlyNewestRests, MappedKnown;
    var o := f.sent[f.done];
    var (t, m) := E.OnNew(inst, s, session, o);
    EngAt(inst, s.orders, session, o.clId);
    RoomForOne(inst, f, s.orders, session);
    ValidationCodes(inst, o.symbol, o.side, o.px, o.qty);
    var verdict := E.EntryVerdict(inst, s, session, o);
    if verdict.None? { TickRoundTrip(inst, o.symbol, o.side, o.px, o.qty); }
    var ord := if verdict.Some? then E.TOMBSTONE else E.Accepted(inst, o, s.nextEngId);
    EngAfterStore(inst, s.orders, session, o.clId, ord);
    assert IsVerdict(f, m, FateOf(inst, ord));
  }

  lemma CancelAnswered(inst: Instrument, s: E.State, session: nat, f: Flow)
    requires ValidInstrument(inst)
    requires EngineSide(f) && f.eng == EngOf(inst, s.orders, session)
    requires f.done < |f.sent| && f.sent[f.done].CancelOrder?
    ensures var (t, m) := E.OnCancel(s, session, f.sent[f.done].clId);
            IsCancelled(f, m) && EngOf(inst, t.orders, session) == f.eng[f.sent[f.done].clId := Over]
    ensures Clean([E.OnCancel(s, session, f.sent[f.done].clId).1])
  {
    hide EngOf, AllAssigned, NewsLast, OnlyNewestRests, MappedKnown, NewComing, CancelComing;
    var id := f.sent[f.done].clId;
    NothingBefore(f, id);
    EngAt(inst, s.orders, session, id);
    var ord := s.orders[E.Key(session, id)];
    EngAfterStore(inst, s.orders, session, id, ord.(st := E.Cancelled));
    if ord.st != E.Live { assert f.eng[id := Over] == f.eng; }
  }

  // --- the fills of a book -----------------------------------------------------------------

  ghost function AfterFills(f: Flow, routed: seq<E.Routed>, session: nat): Flow
    requires forall r :: r in routed ==> r.msg.Fill?
  {
    if routed == [] then f
    else
      var g := AfterFills(f, routed[..|routed| - 1], session);
      var last := routed[|routed| - 1];
      assert last in routed;
      if last.session == session then Filled(g, last.msg) else g
  }

  /** Whether this order was filled to the end. */
  ghost predicate FilledOut(routed: seq<E.Routed>, session: nat, id: string) {
    exists i :: 0 <= i < |routed| && routed[i].session == session && routed[i].msg.Fill? &&
        routed[i].msg.clId == id && routed[i].msg.leaves == 0
  }

  lemma {:induction false} AfterFillsIs(f: Flow, routed: seq<E.Routed>, session: nat)
    requires forall r :: r in routed ==> r.msg.Fill? && (r.session == session ==> r.msg.clId in f.eng)
    ensures var g := AfterFills(f, routed, session);
            && g == f.(reports := f.reports + Mine(routed, session), eng := g.eng)
            && g.eng.Keys == f.eng.Keys
            && forall id :: id in f.eng ==> g.eng[id] == if FilledOut(routed, session, id) then Over else f.eng[id]
  {
    if routed == [] {
      assert f.reports + [] == f.reports;
    } else {
      var init, last := routed[..|routed| - 1], routed[|routed| - 1];
      assert last in routed;
      AfterFillsIs(f, init, session);
      FilledOutSnoc(init, last, session);
      assert routed == init + [last];
    }
  }

  lemma FilledOutSnoc(init: seq<E.Routed>, last: E.Routed, session: nat)
    requires last.msg.Fill?
    ensures forall id :: FilledOut(init + [last], session, id) <==>
              FilledOut(init, session, id) || (last.session == session && last.msg.clId == id && last.msg.leaves == 0)
  {
    var all := init + [last];
    assert all[|init|] == last;
    forall id | FilledOut(init, session, id) ensures FilledOut(all, session, id) {
      var i :| 0 <= i < |init| && init[i].session == session && init[i].msg.Fill? && init[i].msg.clId == id &&
          init[i].msg.leaves == 0;
      assert all[i] == init[i];
    }
  }

  lemma {:induction false} FillsKeep(f: Flow, routed: seq<E.Routed>, session: nat)
    requires EngineSide(f)
    requires forall r :: r in routed ==> r.msg.Fill? && (r.session == session ==> r.msg.clId in f.eng)
    ensures var g := AfterFills(f, routed, session);
            EngineSide(g) && (UnfoldDone(f) && ClientSide(f) ==> UnfoldDone(g) && ClientSide(g)) && g.eng.Keys == f.eng.Keys
  {
    hide EngineSide, ClientSide;
    assert UnfoldDone(f) by { UnfoldEngineSide(f); }
    if routed != [] {
      var init, last := routed[..|routed| - 1], routed[|routed| - 1];
      assert last in routed;
      FillsKeep(f, init, session);
      var g := AfterFills(f, init, session);
      if last.session == session {
        FillKeepsEngineSide(g, last.msg);
        UnfoldEngineSide(Filled(g, last.msg));
        if ClientSide(f) { FillKeepsClientSide(g, last.msg); }
      }
    }
  }

  predicate UnfoldDone(f: Flow) { f.done <= |f.sent| && f.seen <= |f.reports| }

  /** The fills routed to a session are of its own orders, and end exactly those the book exhausts. */
  lemma FillsMatchBook(inst: Instrument, s: E.State, b: E.Book, session: nat, id: string)
    requires E.Key(session, id) in s.orders
    ensures var (t, routed) := E.OnBook(inst, s, b);
            && (forall r :: r in routed ==> r.msg.Fill? && (r.session == session ==> E.Key(session, r.msg.clId) in s.orders))
            && E.Key(session, id) in t.orders
            && FateOf(inst, t.orders[E.Key(session, id)]) ==
               (if FilledOut(routed, session, id) then Over else FateOf(inst, s.orders[E.Key(session, id)]))
  {
    hide E.KeysInOrder, E.CrossedKeys;
    var (t, routed) := E.OnBook(inst, s, b);
    var key := E.Key(session, id);
    if !(s.bookSeen && b.mdSeq <= s.book.mdSeq) {
      var ks := E.SweepKeys(inst, s.orders, b);
      FillsOwned(inst, s.orders, ks, b, s.nextExecId, session);
      if E.Crossed(inst, s.orders[key], b) {
        var i :| 0 <= i < |ks| && ks[i] == key;
        assert routed[i].msg.leaves == t.orders[key].leaves && routed[i].session == session && routed[i].msg.clId == id;
      }
    }
  }

  lemma FillsOwned(inst: Instrument, orders: map<E.Key, E.Order>, ks: seq<E.Key>, b: E.Book, execId: nat, session: nat)
    requires forall k :: k in ks ==> k in orders && E.Crossed(inst, orders[k], b)
    ensures var routed := E.FillsFor(inst, orders, ks, b, execId);
            && (forall r :: r in routed ==> r.msg.Fill? && (r.session == session ==> E.Key(session, r.msg.clId) in orders))
            && (forall id :: FilledOut(routed, session, id) ==>
                  E.Key(session, id) in ks && E.AfterBook(inst, orders[E.Key(session, id)], b).leaves == 0)
  {
    var routed := E.FillsFor(inst, orders, ks, b, execId);
    assert forall i :: 0 <= i < |routed| ==> routed[i] == E.FillFor(inst, ks[i], orders[ks[i]], b, execId + i);
    assert forall i :: 0 <= i < |ks| ==> ks[i] in ks && ks[i] == E.Key(ks[i].session, ks[i].clId);
  }

  lemma FillsAreOurs(inst: Instrument, s: E.State, b: E.Book, session: nat)
    ensures forall r :: r in E.OnBook(inst, s, b).1 ==>
            r.msg.Fill? &&
            (r.session == session ==> E.Key(session, r.msg.clId) in s.orders)
  {
    hide E.KeysInOrder, E.CrossedKeys;
    if !(s.bookSeen && b.mdSeq <= s.book.mdSeq) {
      FillsOwned(inst, s.orders, E.SweepKeys(inst, s.orders, b), b, s.nextExecId, session);
    }
  }

  lemma BookKeepsKeys(inst: Instrument, s: E.State, b: E.Book)
    ensures E.OnBook(inst, s, b).0.orders.Keys == s.orders.Keys
  {
  }

  /** A book, for the flow: its fills one by one. */
  lemma BookFlow(inst: Instrument, s: E.State, b: E.Book, session: nat, f: Flow)
    requires EngineSide(f) && f.eng == EngOf(inst, s.orders, session)
    ensures var (t, routed) := E.OnBook(inst, s, b);
            var g := f.(reports := f.reports + Mine(routed, session), eng := EngOf(inst, t.orders, session));
            EngineSide(g) && (Linked(f) ==> Linked(g)) && Clean(Mine(routed, session))
  {
    hide EngOf, EngineSide, ClientSide, E.OnBook, FilledOut, FateOf;
    var (t, routed) := E.OnBook(inst, s, b);
    FillsAreOurs(inst, s, b, session);
    forall r | r in routed && r.session == session ensures r.msg.clId in f.eng { EngAt(inst, s.orders, session, r.msg.clId); }
    FillsKeep(f, routed, session);
    AfterFillsIs(f, routed, session);
    var g := AfterFills(f, routed, session);
    var eng := EngOf(inst, t.orders, session);
    BookKeepsKeys(inst, s, b);
    forall id ensures (id in g.eng <==> id in eng) && (id in g.eng ==> g.eng[id] == eng[id]) {
      EngAt(inst, s.orders, session, id);
      EngAt(inst, t.orders, session, id);
      if id in g.eng { FillsMatchBook(inst, s, b, session, id); }
    }
    assert g.eng == eng;
    UnfoldEngineSide(f);
    FillsClean(routed, session);
  }

  lemma {:induction false} FillsClean(routed: seq<E.Routed>, session: nat)
    requires forall r :: r in routed ==> r.msg.Fill?
    ensures forall m :: m in Mine(routed, session) ==> m.Fill?
  {
    if routed != [] {
      FillsClean(routed[..|routed| - 1], session);
      assert routed[|routed| - 1] in routed;
    }
  }
}
