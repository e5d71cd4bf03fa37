/** What links the client's order map, the commands on their way in, the engine's orders and the
    reports on their way out. No single source file states it: it is what strategy.py, the two FIFO
    channels, the outbox and engine.cpp keep between them. Channels are full histories with a cursor. */
module OrderFlow {
  import opened Text
  import opened Protocol
  import S = StrategySpec

  /** The engine's word on one of the session's orders. */
  datatype Fate = Resting(px: int) | Over

  datatype Flow = Flow(
    sent: seq<InMsg>, done: nat,        // commands sent by the client; how many the engine has taken
    reports: seq<OutMsg>, seen: nat,    // reports pushed for the client; how many it has read
    eng: map<string, Fate>,             // the session's orders in the engine
    orders: map<string, S.ClientOrder>, // the client's map
    bids: nat, asks: nat)               // the last id the client has assigned on each side

  function Top(f: Flow, side: Side): nat { if side == Bid then f.bids else f.asks }

  ghost predicate Assigned(f: Flow, id: string) {
    id == S.ClId(S.SideOf(id), S.IndexOf(id)) && 1 <= S.IndexOf(id) <= Top(f, S.SideOf(id))
  }

  /** An earlier order of the same side. */
  predicate Below(a: string, b: string) { S.SideOf(a) == S.SideOf(b) && S.IndexOf(a) < S.IndexOf(b) }

  /** The report after which the client forgets the order. */
  predicate Terminal(m: OutMsg) { m.CancelAck? || m.Reject? || (m.Fill? && m.leaves == 0) }

  // --- what is in flight -------------------------------------------------------------------

  ghost predicate NewComing(f: Flow, upto: nat, id: string)
    requires upto <= |f.sent|
  {
    exists j :: f.done <= j < upto && f.sent[j].NewOrder? && f.sent[j].clId == id
  }

  ghost predicate CancelComing(f: Flow, upto: nat, id: string)
    requires upto <= |f.sent|
  {
    exists j :: f.done <= j < upto && f.sent[j].CancelOrder? && f.sent[j].clId == id
  }

  ghost predicate EndComing(f: Flow, upto: nat, id: string)
    requires upto <= |f.reports|
  {
    exists j :: f.seen <= j < upto && !f.reports[j].Tob? && Terminal(f.reports[j]) && f.reports[j].clId == id
  }

  ghost predicate VerdictComing(f: Flow, id: string) {
    exists j :: f.seen <= j < |f.reports| && (f.reports[j].OrderAck? || f.reports[j].Reject?) && f.reports[j].clId == id
  }

  ghost predicate IsOver(f: Flow, id: string) { id in f.eng && f.eng[id].Over? }

  // --- the engine's half -------------------------------------------------------------------

  ghost predicate AllAssigned(f: Flow) {
    && f.done <= |f.sent| && f.seen <= |f.reports|
    && (forall id :: id in f.eng ==> Assigned(f, id))
    && (forall id :: id in f.orders ==> Assigned(f, id))
    && (forall i :: f.done <= i < |f.sent| ==> Assigned(f, f.sent[i].clId))
  }

  /** Each new order reaches the engine once, under an id it has never seen. */
  ghost predicate NewsFresh(f: Flow) {
    && (forall i :: f.done <= i < |f.sent| && f.sent[i].NewOrder? ==> f.sent[i].clId !in f.eng)
    && (forall i, j :: f.done <= i < j < |f.sent| && f.sent[i].NewOrder? && f.sent[j].NewOrder? ==>
          f.sent[i].clId != f.sent[j].clId)
  }

  /** A cancel never overtakes the order it names. */
  ghost predicate CancelsKnown(f: Flow)
    requires f.done <= |f.sent|
  {
    forall i :: f.done <= i < |f.sent| && f.sent[i].CancelOrder? ==>
      f.sent[i].clId in f.eng || NewComing(f, i, f.sent[i].clId)
  }

  /** Before a new order gets there, every earlier one of its side is over or has its cancel ahead. */
  ghost predicate NewsLast(f: Flow) {
    forall i, id :: f.done <= i < |f.sent| && f.sent[i].NewOrder? && Assigned(f, id) && Below(id, f.sent[i].clId) ==>
      IsOver(f, id) || CancelComing(f, i, id)
  }

  /** So the engine rests at most the newest order of a side. */
  ghost predicate OnlyNewestRests(f: Flow) {
    forall a, b :: b in f.eng && Assigned(f, a) && Below(a, b) ==> IsOver(f, a)
  }

  ghost predicate MappedKnown(f: Flow)
    requires f.done <= |f.sent|
  {
    forall id :: id in f.orders ==> id in f.eng || NewComing(f, |f.sent|, id)
  }

  ghost predicate EngineSide(f: Flow) {
    AllAssigned(f) && NewsFresh(f) && CancelsKnown(f) && NewsLast(f) && OnlyNewestRests(f) && MappedKnown(f)
  }

  // --- the client's half, until it stops quoting -------------------------------------------

  /** Whatever the client has forgotten is over; whatever is over and remembered is about to be forgotten. */
  ghost predicate Remembered(f: Flow)
    requires f.seen <= |f.reports|
  {
    && (forall id :: Assigned(f, id) && id !in f.orders ==> IsOver(f, id))
    && (forall id :: id in f.orders && IsOver(f, id) ==> EndComing(f, |f.reports|, id))
  }

  /** Each state the client shows an order in is owed the thing that will end it. */
  ghost predicate StatesEarned(f: Flow)
    requires f.done <= |f.sent|
  {
    && (forall id :: id in f.orders && f.orders[id].state == S.PendingCancel ==> IsOver(f, id) || CancelComing(f, |f.sent|, id))
    && (forall id :: id in f.orders && f.orders[id].state == S.PendingNew ==>
        NewComing(f, |f.sent|, id) || VerdictComing(f, id))
  }

  /** A side has its newest order and, while that one is new, one being cancelled. */
  ghost predicate TwoPerSide(f: Flow) {
    && (forall id :: id in f.orders && f.orders[id].state != S.PendingCancel ==> S.IndexOf(id) == Top(f, S.SideOf(id)))
    && (forall id :: id in f.orders && f.orders[id].state == S.PendingCancel ==>
          S.IndexOf(id) == Top(f, S.SideOf(id)) || Replaced(f, id))
  }

  ghost predicate Replaced(f: Flow, id: string) {
    var top := S.ClId(S.SideOf(id), Top(f, S.SideOf(id)));
    S.IndexOf(id) == Top(f, S.SideOf(id)) - 1 && top in f.orders && f.orders[top].state == S.PendingNew
  }

  ghost predicate PricesAgree(f: Flow) {
    && (forall id :: id in f.orders && id in f.eng && f.eng[id].Resting? ==> f.eng[id].px == f.orders[id].px)
    && (forall i :: f.done <= i < |f.sent| && f.sent[i].NewOrder? && f.sent[i].clId in f.orders ==>
          f.sent[i].px == f.orders[f.sent[i].clId].px)
  }

  /** Reports speak of orders the engine knows; one that ends an order is true; and an order's reports
      come after the end of every earlier order of its side. */
  ghost predicate ReportsInOrder(f: Flow)
    requires f.seen <= |f.reports|
  {
    && (forall j :: f.seen <= j < |f.reports| ==> !f.reports[j].Tob? && f.reports[j].clId in f.eng)
    && (forall j :: f.seen <= j < |f.reports| && Terminal(f.reports[j]) ==> IsOver(f, f.reports[j].clId))
    && (forall j, id :: f.seen <= j < |f.reports| && id in f.orders && Below(id, f.reports[j].clId) ==> EndComing(f, j, id))
  }

  ghost predicate ClientSide(f: Flow)
    requires f.done <= |f.sent| && f.seen <= |f.reports|
  {
    Remembered(f) && StatesEarned(f) && TwoPerSide(f) && PricesAgree(f) && ReportsInOrder(f)
  }

  ghost predicate Linked(f: Flow) { EngineSide(f) && ClientSide(f) }

  // --- the client places and cancels -------------------------------------------------------

  function Placed(f: Flow, id: string, o: InMsg): Flow
    requires o.NewOrder?
  {
    f.(sent := f.sent + [o], orders := f.orders[id := S.ClientOrder(o.px, S.PendingNew)],
       bids := if S.SideOf(id) == Bid then f.bids + 1 else f.bids,
       asks := if S.SideOf(id) == Ask then f.asks + 1 else f.asks)
  }

  ghost predicate Vacant(f: Flow, side: Side) {
    forall id :: id in f.orders && S.SideOf(id) == side ==> f.orders[id].state == S.PendingCancel
  }

  lemma PlacedAssigned(f: Flow, side: Side, o: InMsg)
    requires o.NewOrder? && o.clId == S.ClId(side, Top(f, side) + 1)
    ensures var g := Placed(f, o.clId, o);
            forall id :: Assigned(g, id) <==> Assigned(f, id) || id == o.clId
  {
    hide S.ClId, S.SideOf, S.IndexOf;
  }

  lemma ComingLater(f: Flow, g: Flow)
    requires f.done == g.done && f.sent <= g.sent
    ensures forall n: nat, id :: n <= |f.sent| && NewComing(f, n, id) ==> NewComing(g, n, id) && NewComing(g, |g.sent|, id)
    ensures forall n: nat, id :: n <= |f.sent| && CancelComing(f, n, id) ==>
            CancelComing(g, n, id) &&
            CancelComing(g, |g.sent|, id)
  {
    forall n: nat, id | n <= |f.sent| && NewComing(f, n, id) ensures NewComing(g, n, id) && NewComing(g, |g.sent|, id) {
      var j :| f.done <= j < n && f.sent[j].NewOrder? && f.sent[j].clId == id;
      assert g.sent[j] == f.sent[j];
    }
    forall n: nat, id | n <= |f.sent| && CancelComing(f, n, id) ensures CancelComing(g, n, id) &&
        CancelComing(g, |g.sent|, id) {
      var j :| f.done <= j < n && f.sent[j].CancelOrder? && f.sent[j].clId == id;
      assert g.sent[j] == f.sent[j];
    }
  }

  lemma PlaceKeepsEngineSide(f: Flow, side: Side, o: InMsg)
    requires Linked(f) && Vacant(f, side) && o.NewOrder? && o.clId == S.ClId(side, Top(f, side) + 1)
    ensures EngineSide(Placed(f, o.clId, o))
  {
    hide S.ClId, S.SideOf, S.IndexOf, NewComing, CancelComing, EndComing, VerdictComing, Assigned;
    hide TwoPerSide, PricesAgree, ReportsInOrder;
    var g := Placed(f, o.clId, o);
    PlacedAssigned(f, side, o);
    assert !Assigned(f, o.clId) by { NotYet(f, side); }
    ComingLater(f, g);
    assert NewComing(g, |g.sent|, o.clId) by { JustSent(g); }
    PlaceIsLast(f, side, o);
  }

  lemma JustSent(g: Flow)
    requires g.done < |g.sent| && g.sent[|g.sent| - 1].NewOrder?
    ensures NewComing(g, |g.sent|, g.sent[|g.sent| - 1].clId)
  {
  }

  lemma NotYet(f: Flow, side: Side)
    ensures !Assigned(f, S.ClId(side, Top(f, side) + 1))
  {
    hide S.ClId, S.SideOf, S.IndexOf;
  }

  lemma PlaceIsLast(f: Flow, side: Side, o: InMsg)
    requires Linked(f) && Vacant(f, side) && o.NewOrder? && o.clId == S.ClId(side, Top(f, side) + 1)
    ensures NewsLast(Placed(f, o.clId, o)) && OnlyNewestRests(Placed(f, o.clId, o))
  {
    hide S.ClId, S.SideOf, S.IndexOf;
    var g := Placed(f, o.clId, o);
    PlacedAssigned(f, side, o);
    ComingLater(f, g);
    forall i, id | g.done <= i < |g.sent| && g.sent[i].NewOrder? && Assigned(g, id) && Below(id, g.sent[i].clId)
      ensures IsOver(g, id) || CancelComing(g, i, id)
    {
      if i < |f.sent| { assert Assigned(f, f.sent[i].clId); }
    }
  }

  lemma SameReports(f: Flow, g: Flow)
    requires f.seen == g.seen && f.reports == g.reports
    ensures forall n: nat, id :: n <= |f.reports| ==> (EndComing(f, n, id) <==> EndComing(g, n, id))
    ensures forall id :: VerdictComing(f, id) <==> VerdictComing(g, id)
  {
  }

  lemma PlaceKeepsClientSide(f: Flow, side: Side, o: InMsg)
    requires Linked(f) && Vacant(f, side) && o.NewOrder? && o.clId == S.ClId(side, Top(f, side) + 1)
    ensures ClientSide(Placed(f, o.clId, o))
  {
    hide S.ClId, S.SideOf, S.IndexOf, NewComing, CancelComing, EndComing, VerdictComing, Assigned;
    hide NewsFresh, CancelsKnown, NewsLast, OnlyNewestRests, TwoPerSide;
    var g := Placed(f, o.clId, o);
    PlacedAssigned(f, side, o);
    assert !Assigned(f, o.clId) by { NotYet(f, side); }
    ComingLater(f, g);
    SameReports(f, g);
    assert NewComing(g, |g.sent|, o.clId) by { JustSent(g); }
    assert TwoPerSide(g) by { PlaceKeepsTwo(f, side, o); }
    forall j, id | g.seen <= j < |g.reports| && id in g.orders && Below(id, g.reports[j].clId) ensures EndComing(g, j, id) {
      assert Assigned(f, g.reports[j].clId);
      if id == o.clId { NothingAbove(f, side, g.reports[j].clId); }
    }
  }

  lemma NothingAbove(f: Flow, side: Side, b: string)
    requires Assigned(f, b)
    ensures !Below(S.ClId(side, Top(f, side) + 1), b)
  {
    hide S.ClId, S.SideOf, S.IndexOf;
  }

  lemma PlaceKeepsTwo(f: Flow, side: Side, o: InMsg)
    requires AllAssigned(f) && TwoPerSide(f) && Vacant(f, side)
    requires o.NewOrder? && o.clId == S.ClId(side, Top(f, side) + 1)
    ensures TwoPerSide(Placed(f, o.clId, o))
  {
    hide S.ClId, S.SideOf, S.IndexOf;
  }

  lemma PlaceKeeps(f: Flow, side: Side, o: InMsg)
    requires Linked(f) && Vacant(f, side) && o.NewOrder? && o.clId == S.ClId(side, Top(f, side) + 1)
    ensures Linked(Placed(f, o.clId, o))
  {
    hide EngineSide, ClientSide;
    assert AllAssigned(Placed(f, o.clId, o)) by {
      PlaceKeepsEngineSide(f, side, o);
      assert EngineSide(Placed(f, o.clId, o));
      UnfoldEngineSide(Placed(f, o.clId, o));
    }
    PlaceKeepsEngineSide(f, side, o);
    PlaceKeepsClientSide(f, side, o);
  }

  lemma UnfoldEngineSide(f: Flow)
    requires EngineSide(f)
    ensures AllAssigned(f)
  {
  }

  function CancelSent(f: Flow, id: string): Flow
    requires id in f.orders
  {
    f.(sent := f.sent + [CancelOrder(id)], orders := f.orders[id := f.orders[id].(state := S.PendingCancel)])
  }

  lemma JustCancelled(g: Flow)
    requires g.done < |g.sent| && g.sent[|g.sent| - 1].CancelOrder?
    ensures CancelComing(g, |g.sent|, g.sent[|g.sent| - 1].clId)
  {
  }

  lemma CancelKeepsEngineSide(f: Flow, id: string)
    requires EngineSide(f) && id in f.orders
    ensures EngineSide(CancelSent(f, id))
  {
    hide S.ClId, S.SideOf, S.IndexOf, NewComing, CancelComing;
    ComingLater(f, CancelSent(f, id));
  }

  lemma CancelKeepsClientSide(f: Flow, id: string)
    requires Linked(f) && id in f.orders && f.orders[id].state == S.Live
    ensures ClientSide(CancelSent(f, id)) && Vacant(CancelSent(f, id), S.SideOf(id))
  {
    hide S.ClId, S.SideOf, S.IndexOf, NewComing, CancelComing, EndComing, VerdictComing, TwoPerSide;
    hide NewsFresh, CancelsKnown, NewsLast, OnlyNewestRests, MappedKnown;
    var g := CancelSent(f, id);
    JustCancelled(g);
    ComingLater(f, g);
    SameReports(f, g);
    CancelKeepsTwo(f, id);
  }

  lemma CancelKeepsTwo(f: Flow, id: string)
    requires AllAssigned(f) && TwoPerSide(f) && id in f.orders && f.orders[id].state == S.Live
    ensures TwoPerSide(CancelSent(f, id)) && Vacant(CancelSent(f, id), S.SideOf(id))
  {
    hide S.ClId, S.SideOf, S.IndexOf;
  }

  // --- the client reads a report -----------------------------------------------------------

  function Forgotten(f: Flow, id: string): Flow { f.(orders := f.orders - {id}) }

  function Read(f: Flow): Flow { f.(seen := f.seen + 1) }

  /** Reading one report uses up only what that report was. */
  lemma ComingAfterRead(f: Flow)
    requires f.seen < |f.reports|
    ensures forall n: nat, id :: f.seen < n <= |f.reports| && EndComing(f, n, id) ==>
              EndComing(Read(f), n, id) || (!f.reports[f.seen].Tob? && Terminal(f.reports[f.seen]) &&
                  f.reports[f.seen].clId == id)
    ensures forall id :: VerdictComing(f, id) ==>
              VerdictComing(Read(f), id) || ((f.reports[f.seen].OrderAck? || f.reports[f.seen].Reject?) &&
                  f.reports[f.seen].clId == id)
  {
  }

  lemma ReadKeepsEngineSide(f: Flow, g: Flow)
    requires EngineSide(f) && f.seen <= g.seen <= |f.reports| && g == f.(seen := g.seen, orders := g.orders)
    requires g.orders.Keys <= f.orders.Keys
    ensures EngineSide(g)
    ensures forall id :: Assigned(f, id) <==> Assigned(g, id)
  {
    hide S.ClId, S.SideOf, S.IndexOf, NewComing, CancelComing;
    SameCommands(f, g);
  }

  /** A report about an order the client no longer has, or that tells it nothing. */
  lemma SkipKeeps(f: Flow)
    requires Linked(f) && f.seen < |f.reports|
    requires !f.reports[f.seen].Tob?
    requires var m := f.reports[f.seen];
             m.clId in f.orders ==> !Terminal(m) && (m.OrderAck? ==> f.orders[m.clId].state != S.PendingNew)
    ensures Linked(Read(f))
  {
    hide S.ClId, S.SideOf, S.IndexOf, NewComing, CancelComing, EndComing, VerdictComing, EngineSide, Assigned;
    ReadKeepsEngineSide(f, Read(f));
    ComingAfterRead(f);
    SameCommands(f, Read(f));
  }

  lemma SameCommands(f: Flow, g: Flow)
    requires f.done == g.done && f.sent == g.sent
    ensures forall n: nat, id :: n <= |f.sent| ==>
            (NewComing(f, n, id) <==> NewComing(g, n, id)) &&
            (CancelComing(f, n, id) <==> CancelComing(g, n, id))
  {
  }

  /** A report about an order says that no earlier order of its side is still in the map. */
  lemma EarlierForgotten(f: Flow, id: string)
    requires Linked(f) && f.seen < |f.reports| && Below(id, f.reports[f.seen].clId)
    ensures id !in f.orders
  {
    hide S.ClId, S.SideOf, S.IndexOf;
    assert !EndComing(f, f.seen, id);
  }

  function Acked(f: Flow, id: string): Flow
    requires id in f.orders
  {
    f.(seen := f.seen + 1, orders := f.orders[id := f.orders[id].(state := S.Live)])
  }

  lemma AckKeeps(f: Flow, id: string)
    requires Linked(f) && f.seen < |f.reports| && f.reports[f.seen].OrderAck? && f.reports[f.seen].clId == id
    requires id in f.orders && f.orders[id].state == S.PendingNew
    ensures Linked(Acked(f, id))
  {
    hide S.ClId, S.SideOf, S.IndexOf, NewComing, CancelComing, EndComing, VerdictComing, EngineSide, TwoPerSide, Assigned;
    var g := Acked(f, id);
    ReadKeepsEngineSide(f, g);
    ComingAfterRead(f);
    SameReports(Read(f), g);
    SameCommands(f, g);
    forall x | Below(x, id) ensures x !in f.orders { EarlierForgotten(f, x); }
    assert TwoPerSide(g) by { UnfoldEngineSide(f); AckKeepsTwo(f, id); }
  }

  lemma AckKeepsTwo(f: Flow, id: string)
    requires AllAssigned(f) && TwoPerSide(f) && id in f.orders && f.orders[id].state == S.PendingNew
    requires forall x :: Below(x, id) ==> x !in f.orders
    ensures TwoPerSide(Acked(f, id))
  {
    hide S.ClId, S.SideOf, S.IndexOf;
  }

  lemma EndKeeps(f: Flow, id: string)
    requires Linked(f) && f.seen < |f.reports| && !f.reports[f.seen].Tob? && Terminal(f.reports[f.seen]) &&
            f.reports[f.seen].clId == id
    requires id in f.orders
    ensures Linked(Forgotten(Read(f), id))
  {
    hide S.ClId, S.SideOf, S.IndexOf, NewComing, CancelComing, EndComing, VerdictComing, EngineSide, TwoPerSide, Assigned;
    var g := Forgotten(Read(f), id);
    ReadKeepsEngineSide(f, g);
    ComingAfterRead(f);
    SameReports(Read(f), g);
    SameCommands(f, g);
    forall x | Below(x, id) ensures x !in f.orders { EarlierForgotten(f, x); }
    assert TwoPerSide(g) by { UnfoldEngineSide(f); EndKeepsTwo(f, id); }
  }

  lemma EndKeepsTwo(f: Flow, id: string)
    requires AllAssigned(f) && TwoPerSide(f) && id in f.orders
    requires forall x :: Below(x, id) ==> x !in f.orders
    ensures TwoPerSide(Forgotten(Read(f), id))
  {
    hide S.ClId, S.SideOf, S.IndexOf;
  }

  // --- the engine takes a command, or fills an order ---------------------------------------

  function Pushed(f: Flow, m: OutMsg): Flow { f.(reports := f.reports + [m]) }

  function Entered(f: Flow, m: OutMsg, fate: Fate): Flow
    requires f.done < |f.sent|
  {
    Pushed(f, m).(done := f.done + 1, eng := f.eng[f.sent[f.done].clId := fate])
  }

  /** The two answers to a new order that is not a duplicate. */
  ghost predicate IsVerdict(f: Flow, m: OutMsg, fate: Fate)
    requires f.done < |f.sent|
  {
    var o := f.sent[f.done];
    && o.NewOrder? && (m.OrderAck? || m.Reject?) && m.clId == o.clId
    && fate == (if m.OrderAck? then Resting(o.px) else Over)
  }

  /** The two answers to the cancel of a known order. */
  ghost predicate IsCancelled(f: Flow, m: OutMsg)
    requires f.done < |f.sent|
  {
    var o := f.sent[f.done];
    o.CancelOrder? && (m.CancelAck? || m.Reject?) && m.clId == o.clId
  }

  function Filled(f: Flow, m: OutMsg): Flow
    requires m.Fill?
  {
    Pushed(f, m).(eng := if m.leaves == 0 then f.eng[m.clId := Over] else f.eng)
  }

  /** Taking one command uses up only what that command was. */
  lemma ComingAfterTaken(f: Flow, g: Flow)
    requires f.done < |f.sent| && g.sent == f.sent && g.done == f.done + 1
    ensures forall n: nat, id :: f.done < n <= |f.sent| && NewComing(f, n, id) ==>
              NewComing(g, n, id) || (f.sent[f.done].NewOrder? && f.sent[f.done].clId == id)
    ensures forall n: nat, id :: f.done < n <= |f.sent| && CancelComing(f, n, id) ==>
              CancelComing(g, n, id) || (f.sent[f.done].CancelOrder? && f.sent[f.done].clId == id)
  {
  }

  lemma ComingAfterPush(f: Flow, g: Flow, m: OutMsg)
    requires g.seen == f.seen <= |f.reports| && g.reports == f.reports + [m]
    ensures forall n: nat, id :: n <= |f.reports| && EndComing(f, n, id) ==>
            EndComing(g, n, id) &&
            EndComing(g, |g.reports|, id)
    ensures !m.Tob? && Terminal(m) ==> EndComing(g, |g.reports|, m.clId)
    ensures forall id :: VerdictComing(f, id) ==> VerdictComing(g, id)
    ensures m.OrderAck? || m.Reject? ==> VerdictComing(g, m.clId)
  {
    assert g.reports[|f.reports|] == m;
    forall n: nat, id | n <= |f.reports| && EndComing(f, n, id) ensures EndComing(g, n, id) && EndComing(g, |g.reports|, id) {
      var j :| f.seen <= j < n && !f.reports[j].Tob? && Terminal(f.reports[j]) && f.reports[j].clId == id;
      assert g.reports[j] == f.reports[j];
    }
    forall id | VerdictComing(f, id) ensures VerdictComing(g, id) {
      var j :| f.seen <= j < |f.reports| && (f.reports[j].OrderAck? || f.reports[j].Reject?) && f.reports[j].clId == id;
      assert g.reports[j] == f.reports[j];
    }
  }

  lemma SameAssigned(f: Flow, g: Flow)
    requires f.bids == g.bids && f.asks == g.asks
    ensures forall id :: Assigned(f, id) <==> Assigned(g, id)
  {
    hide S.ClId, S.SideOf, S.IndexOf;
  }

  /** No earlier order of the side still rests when a new one gets there, and no later one is known. */
  lemma HeadIsAlone(f: Flow, id: string)
    requires EngineSide(f) && f.done < |f.sent| && f.sent[f.done].NewOrder? && id in f.eng
    ensures S.SideOf(id) == S.SideOf(f.sent[f.done].clId) ==> Below(id, f.sent[f.done].clId) && IsOver(f, id)
  {
    hide S.ClId, S.SideOf, S.IndexOf;
    var o := f.sent[f.done];
    assert Assigned(f, o.clId) && Assigned(f, id);
    assert !CancelComing(f, f.done, id);
    assert Below(o.clId, id) ==> IsOver(f, o.clId);
  }

  lemma EnterKeepsEngineSide(f: Flow, m: OutMsg, fate: Fate)
    requires EngineSide(f) && f.done < |f.sent| && IsVerdict(f, m, fate)
    ensures EngineSide(Entered(f, m, fate))
  {
    hide S.ClId, S.SideOf, S.IndexOf, NewComing, CancelComing, Assigned, NewsLast;
    var g, o := Entered(f, m, fate), f.sent[f.done];
    SameAssigned(f, g);
    ComingAfterTaken(f, g);
    assert Assigned(f, o.clId);
    EnterKeepsLast(f, m, fate);
    forall a, b | b in g.eng && Assigned(g, a) && Below(a, b) ensures IsOver(g, a) {
      if b == o.clId { EarlierOver(f, a); } else if a == o.clId { HeadIsAlone(f, b); BelowOnce(a, b); }
    }
  }

  lemma BelowOnce(a: string, b: string)
    requires Below(a, b)
    ensures !Below(b, a)
  {
    hide S.SideOf, S.IndexOf;
  }

  lemma EarlierOver(f: Flow, id: string)
    requires EngineSide(f) && f.done < |f.sent| && f.sent[f.done].NewOrder? && Assigned(f, id) && Below(id, f.sent[f.done].clId)
    ensures IsOver(f, id)
  {
    hide S.ClId, S.SideOf, S.IndexOf, Assigned;
    assert !CancelComing(f, f.done, id);
  }

  lemma EnterKeepsLast(f: Flow, m: OutMsg, fate: Fate)
    requires EngineSide(f) && f.done < |f.sent| && IsVerdict(f, m, fate)
    ensures NewsLast(Entered(f, m, fate))
  {
    hide S.ClId, S.SideOf, S.IndexOf, NewComing, CancelComing, Assigned;
    var g, o := Entered(f, m, fate), f.sent[f.done];
    SameAssigned(f, g);
    ComingAfterTaken(f, g);
    forall i, id | g.done <= i < |g.sent| && g.sent[i].NewOrder? && Assigned(g, id) && Below(id, g.sent[i].clId)
      ensures IsOver(g, id) || CancelComing(g, i, id)
    {
      assert IsOver(f, id) || CancelComing(f, i, id);
      assert f.sent[f.done].clId !in f.eng;
    }
  }

  lemma EnterKeepsClientSide(f: Flow, m: OutMsg, fate: Fate)
    requires Linked(f) && f.done < |f.sent| && IsVerdict(f, m, fate)
    ensures ClientSide(Entered(f, m, fate))
  {
    hide S.ClId, S.SideOf, S.IndexOf, NewComing, CancelComing, EndComing, VerdictComing, Assigned, TwoPerSide;
    hide CancelsKnown, NewsLast, OnlyNewestRests, MappedKnown;
    var g, o := Entered(f, m, fate), f.sent[f.done];
    SameAssigned(f, g);
    ComingAfterTaken(f, g);
    ComingAfterPush(f, g, m);
    assert TwoPerSide(g) by { SameTwo(f, g); }
    forall id | id in f.orders && Below(id, o.clId) ensures EndComing(f, |f.reports|, id) {
      assert Assigned(f, id);
      EarlierOver(f, id);
    }
    assert ReportsInOrder(g) by { PushKeepsOrder(f, g, m); }
  }

  lemma SameTwo(f: Flow, g: Flow)
    requires TwoPerSide(f) && g.orders == f.orders && g.bids == f.bids && g.asks == f.asks
    ensures TwoPerSide(g)
  {
    hide S.ClId, S.SideOf, S.IndexOf;
  }

  lemma PushKeepsOrder(f: Flow, g: Flow, m: OutMsg)
    requires f.seen <= |f.reports| && ReportsInOrder(f) && g.reports == f.reports + [m] && g.seen == f.seen &&
            g.orders == f.orders
    requires f.eng.Keys <= g.eng.Keys && (forall id :: IsOver(f, id) ==> IsOver(g, id))
    requires !m.Tob? && m.clId in g.eng && (Terminal(m) ==> IsOver(g, m.clId))
    requires forall id :: id in f.orders && Below(id, m.clId) ==> EndComing(f, |f.reports|, id)
    ensures ReportsInOrder(g)
  {
    hide S.SideOf, S.IndexOf, EndComing, VerdictComing, IsOver;
    ComingAfterPush(f, g, m);
    forall j | g.seen <= j < |g.reports| ensures g.reports[j] == m || (j < |f.reports| && g.reports[j] == f.reports[j]) {}
  }

  lemma TakeCancelKeepsEngineSide(f: Flow, m: OutMsg)
    requires EngineSide(f) && f.done < |f.sent| && IsCancelled(f, m)
    ensures f.sent[f.done].clId in f.eng && EngineSide(Entered(f, m, Over))
  {
    hide S.ClId, S.SideOf, S.IndexOf, NewComing, CancelComing, Assigned, Below;
    var g, o := Entered(f, m, Over), f.sent[f.done];
    SameAssigned(f, g);
    ComingAfterTaken(f, g);
    assert !NewComing(f, f.done, o.clId) by { NothingBefore(f, o.clId); }
  }

  lemma NothingBefore(f: Flow, id: string)
    requires f.done <= |f.sent|
    ensures !NewComing(f, f.done, id)
  {
  }

  lemma TakeCancelKeepsClientSide(f: Flow, m: OutMsg)
    requires Linked(f) && f.done < |f.sent| && IsCancelled(f, m)
    ensures ClientSide(Entered(f, m, Over))
  {
    hide S.ClId, S.SideOf, S.IndexOf, NewComing, CancelComing, EndComing, VerdictComing, Assigned, TwoPerSide, Below;
    hide CancelsKnown, NewsLast, MappedKnown;
    var g, o := Entered(f, m, Over), f.sent[f.done];
    SameAssigned(f, g);
    ComingAfterTaken(f, g);
    ComingAfterPush(f, g, m);
    TakeCancelKeepsEngineSide(f, m);
    assert TwoPerSide(g) by { SameTwo(f, g); }
    assert forall id :: id in f.orders && Below(id, o.clId) ==> Assigned(f, id) && IsOver(f, id);
    assert ReportsInOrder(g) by { PushKeepsOrder(f, g, m); }
  }

  lemma FillKeepsEngineSide(f: Flow, m: OutMsg)
    requires EngineSide(f) && m.Fill? && m.clId in f.eng
    ensures EngineSide(Filled(f, m))
  {
    hide S.ClId, S.SideOf, S.IndexOf, NewComing, CancelComing, Assigned, Below;
    SameAssigned(f, Filled(f, m));
    SameCommands(f, Filled(f, m));
  }

  lemma FillKeepsClientSide(f: Flow, m: OutMsg)
    requires Linked(f) && m.Fill? && m.clId in f.eng
    ensures ClientSide(Filled(f, m))
  {
    hide S.ClId, S.SideOf, S.IndexOf, NewComing, CancelComing, EndComing, VerdictComing, Assigned, TwoPerSide, Below;
    hide NewsFresh, CancelsKnown, NewsLast, MappedKnown;
    var g := Filled(f, m);
    SameAssigned(f, g);
    SameCommands(f, g);
    ComingAfterPush(f, g, m);
    assert TwoPerSide(g) by { SameTwo(f, g); }
    assert forall id :: id in f.orders && Below(id, m.clId) ==> Assigned(f, id) && IsOver(f, id);
    assert ReportsInOrder(g) by { PushKeepsOrder(f, g, m); }
  }

  // --- what it comes to --------------------------------------------------------------------

  lemma RestingIsMapped(f: Flow, id: string)
    requires Linked(f) && id in f.eng && f.eng[id].Resting?
    ensures id in f.orders
  {
    hide S.ClId, S.SideOf, S.IndexOf, NewComing, CancelComing, EndComing, VerdictComing;
  }

  /** On each side, one order in flight or live at most, and one being cancelled. */
  lemma OnePerSide(f: Flow, a: string, b: string)
    requires Linked(f) && a in f.orders && b in f.orders && S.SideOf(a) == S.SideOf(b)
    requires (f.orders[a].state == S.PendingCancel) == (f.orders[b].state == S.PendingCancel)
    ensures a == b
  {
    hide S.ClId, S.SideOf, S.IndexOf, NewComing, CancelComing, EndComing, VerdictComing;
    assert Assigned(f, a) && Assigned(f, b);
  }

  lemma AtMostFour(f: Flow)
    requires Linked(f)
    ensures |f.orders| <= 4
  {
    hide S.ClId, S.SideOf, S.IndexOf, NewComing, CancelComing, EndComing, VerdictComing;
    hide EngineSide, Linked;
    var b, b', a, a' := S.ClId(Bid, f.bids), S.ClId(Bid, if f.bids > 0 then f.bids - 1 else 0),
                        S.ClId(Ask, f.asks), S.ClId(Ask, if f.asks > 0 then f.asks - 1 else 0);
    forall id | id in f.orders ensures id in {b, b', a, a'} { OnlyNewest(f, id); }
    SubsetSize(f.orders.Keys, {b, b', a, a'});
  }

  lemma OnlyNewest(f: Flow, id: string)
    requires Linked(f) && id in f.orders
    ensures id == S.ClId(Bid, f.bids) || id == S.ClId(Bid, if f.bids > 0 then f.bids - 1 else 0)
         || id == S.ClId(Ask, f.asks) || id == S.ClId(Ask, if f.asks > 0 then f.asks - 1 else 0)
  {
    hide S.ClId, S.SideOf, S.IndexOf, NewComing, CancelComing, EndComing, VerdictComing;
    assert Assigned(f, id);
  }

  lemma SubsetSize(a: set<string>, b: set<string>)
    requires a <= b
    ensures |a| <= |b|
  {
    assert b == a + (b - a);
  }

  /** With nothing in flight the client's map is the engine's live set, every order live and at its price. */
  lemma AtRest(f: Flow)
    requires Linked(f) && f.done == |f.sent| && f.seen == |f.reports|
    ensures forall id :: id in f.orders <==> id in f.eng && f.eng[id].Resting?
    ensures forall id :: id in f.orders ==> f.orders[id] == S.ClientOrder(f.eng[id].px, S.Live)
  {
    hide S.ClId, S.SideOf, S.IndexOf;
  }
}
