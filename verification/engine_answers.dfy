/** What the order engine answers, said in the fields of the order, the instrument and the book alone:
    which orders it accepts and why it refuses the others, which orders a book fills and for how much,
    and what a cancel and the end of a session get (cpp/src/engine.cpp, cpp/include/mm/types.hpp). */
module EngineAnswers {
  import opened Text
  import opened Protocol
  import opened EngineSpec
  import opened EngineRuns
  import Arith

  // --- new orders --------------------------------------------------------------------------

  /** One condition on a new order, and the code it is refused with where it fails. */
  datatype Check = Check(holds: bool, otherwise: RejectCode)

  /** A price that would trade at once against the side of the book it faces. */
  predicate Marketable(buys: bool, px: int, b: Book) {
    if buys then b.askQty > 0 && 0 < b.askPx <= px else b.bidQty > 0 && 0 < b.bidPx && px <= b.bidPx
  }

  /** The conditions of acceptance, in the order they are looked at. */
  ghost function Conditions(inst: Instrument, s: State, session: nat, o: InMsg): seq<Check>
    requires ValidInstrument(inst) && o.NewOrder?
  {
    var live := set k | k in s.orders && k.session == session && s.orders[k].st == Live;
    [ Check(Key(session, o.clId) !in s.orders, DupClOrdId),
      Check(o.symbol == inst.symbol, UnknownSymbol),
      Check(o.side == "B" || o.side == "S", BadSide),
      Check(o.px % inst.tickSize == 0, TickSize),
      Check(o.qty % inst.lotSize == 0, LotSize),
      Check(0 < o.qty <= inst.maxOrderQty, QtyLimit),
      Check(inst.minPrice <= o.px <= inst.maxPrice, PriceRange),
      Check(|live| < inst.maxLiveOrders, MaxLiveOrders),
      Check(!(o.postOnly && Marketable(o.side == "B", o.px, s.book)), PostOnlyCross) ]
  }

  /** Truncating and Euclidean remainders vanish together, whatever the sign. */
  lemma WholeMultiple(a: int, b: int)
    requires b > 0
    ensures TruncMod(a, b) == 0 <==> a % b == 0
  {
    if a < 0 {
      var q, r := (-a) / b, (-a) % b;
      assert -a == q * b + r;
      Mirrored(q, b);
      assert TruncMod(a, b) == -r by { assert TruncDiv(a, b) * b == -(q * b); }
      if r == 0 { Arith.ModUnique(a, b, -q, 0); } else { Arith.ModUnique(a, b, -q - 1, b - r); }
    }
  }

  lemma Mirrored(q: int, b: int)
    ensures (-q) * b == -(q * b) && (-q - 1) * b == -(q * b) - b
  {
  }

  ghost predicate AllHold(cs: seq<Check>) { forall i :: 0 <= i < |cs| ==> cs[i].holds }

  ghost predicate FirstFailure(cs: seq<Check>, i: nat) {
    i < |cs| && !cs[i].holds && forall j :: 0 <= j < i ==> cs[j].holds
  }

  /** Which condition an order fails first, if any. */
  lemma {:induction false} FailsFirst(cs: seq<Check>, n: nat) returns (i: nat)
    requires n <= |cs| && forall j :: 0 <= j < n ==> cs[j].holds
    ensures if AllHold(cs) then i == |cs| else FirstFailure(cs, i)
    decreases |cs| - n
  {
    if n == |cs| || !cs[n].holds { i := n; } else { i := FailsFirst(cs, n + 1); }
  }

  /** The order was refused for the first condition it fails. */
  ghost predicate RefusedFor(cs: seq<Check>, code: RejectCode) {
    exists i: nat :: FirstFailure(cs, i) && code == cs[i].otherwise
  }

  /** The conditions as the engine's own checks put them. */
  lemma ConditionsAre(inst: Instrument, s: State, session: nat, o: InMsg)
    requires ValidInstrument(inst) && o.NewOrder?
    ensures var cs := Conditions(inst, s, session, o); var verdict := EntryVerdict(inst, s, session, o);
            && (AllHold(cs) <==> Key(session, o.clId) !in s.orders && verdict.None?)
            && (AllHold(cs) ==> ValidateOrder(inst, o.symbol, o.side, o.px, o.qty).None?)
            && (Key(session, o.clId) !in s.orders && verdict.Some? ==>
                  verdict.value.Reject? && verdict.value.clId == o.clId && RefusedFor(cs, verdict.value.code))
  {
    hide TruncMod, TruncDiv, ValidationReason;
    var cs := Conditions(inst, s, session, o);
    var live := set k | k in s.orders && k.session == session && s.orders[k].st == Live;
    assert live == LiveOf(s.orders, session);
    WholeMultiple(o.px, inst.tickSize);
    WholeMultiple(o.qty, inst.lotSize);
    var i := FailsFirst(cs, 0);
    assert i < |cs| ==> FirstFailure(cs, i);
    assert forall j :: 0 <= j < i ==> cs[j].holds;
    assert (i > 0 ==> cs[0].holds) && (i > 1 ==> cs[1].holds) && (i > 2 ==> cs[2].holds);
    assert (i > 3 ==> cs[3].holds) && (i > 4 ==> cs[4].holds) && (i > 5 ==> cs[5].holds);
    assert (i > 6 ==> cs[6].holds) && (i > 7 ==> cs[7].holds) && (i > 8 ==> cs[8].holds);
  }

  /** A new order is accepted exactly when it meets every condition, and then rests under the next
      engine id, on its own side, at its own price, for its whole quantity. Otherwise it is refused with
      the code of the first condition it fails; only a reused id leaves no mark. */
  lemma AcceptedExactlyWhen(inst: Instrument, s: State, session: nat, o: InMsg)
    requires ValidInstrument(inst) && o.NewOrder?
    ensures var (t, reply) := OnNew(inst, s, session, o);
            var cs, key := Conditions(inst, s, session, o), Key(session, o.clId);
            && key in t.orders
            && (reply.OrderAck? <==> AllHold(cs))
            && (reply.OrderAck? ==>
                 && reply == OrderAck(o.clId, s.nextEngId)
                 && t.orders[key].px * inst.tickSize == o.px
                 && t == s.(nextEngId := s.nextEngId + 1,
                            orders := s.orders[key := Order(s.nextEngId, if o.side == "B" then Bid else Ask,
                                                            t.orders[key].px, o.qty, Live)]))
            && (!reply.OrderAck? ==>
                 && reply.Reject? && reply.clId == o.clId && RefusedFor(cs, reply.code)
                 && (key in s.orders ==> t == s)
                 && (key !in s.orders ==> t == s.(orders := s.orders[key := t.orders[key]]) && t.orders[key].st == Rejected))
  {
    hide Conditions, EntryVerdict, ValidateOrder, RefusedFor, AllHold, ToTicks;
    ConditionsAre(inst, s, session, o);
    if Key(session, o.clId) in s.orders {
      UsedFirst(inst, s, session, o);
    } else if EntryVerdict(inst, s, session, o).None? {
      TickRoundTrip(inst, o.symbol, o.side, o.px, o.qty);
      SideTaken(inst, o);
    }
  }

  lemma UsedFirst(inst: Instrument, s: State, session: nat, o: InMsg)
    requires ValidInstrument(inst) && o.NewOrder? && Key(session, o.clId) in s.orders
    ensures RefusedFor(Conditions(inst, s, session, o), DupClOrdId)
  {
    assert FirstFailure(Conditions(inst, s, session, o), 0);
  }

  lemma SideTaken(inst: Instrument, o: InMsg)
    requires ValidInstrument(inst) && o.NewOrder? && ValidateOrder(inst, o.symbol, o.side, o.px, o.qty).None?
    ensures SideFromWire(o.side) == Some(if o.side == "B" then Bid else Ask)
  {
    hide TruncMod;
  }

  // --- a book ------------------------------------------------------------------------------

  /** Of what was returned, exactly the one at i is about this order. */
  ghost predicate OnlyAt(out: seq<Routed>, key: Key, i: nat) {
    i < |out| && About(out[i], key) && forall j :: 0 <= j < |out| && j != i ==> !About(out[j], key)
  }

  /** One order under a newer book: a live buy is filled exactly when there is size on offer at a
      positive price no higher than its own, a live sell when there is a bid no lower; it takes the
      smaller of what it has left and the size displayed, at its own price, once. Otherwise it hears
      nothing and stays as it was. */
  ghost predicate FilledBy(inst: Instrument, key: Key, ord: Order, b: Book, after: Order, out: seq<Routed>) {
    var buys, px := ord.side == Bid, ord.px * inst.tickSize;
    if ord.st == Live && Marketable(buys, px, b) then
      var size := if buys then b.askQty else b.bidQty;
      var qty := if ord.leaves <= size then ord.leaves else size;
      var left := ord.leaves - qty;
      && after == ord.(leaves := left, st := if left == 0 then Filled else Live)
      && exists i: nat :: OnlyAt(out, key, i) && out[i].msg.Fill?
           && out[i].msg == Fill(key.clId, ord.engId, px, qty, left, out[i].msg.execId)
    else after == ord && forall r :: r in out ==> !About(r, key)
  }

  function KeyOf(r: Routed): Key { Key(r.session, ClIdOf(r.msg)) }

  /** Buys before sells; on one side, by session and then by client id. */
  predicate Sooner(orders: map<Key, Order>, a: Key, b: Key)
    requires a in orders && b in orders
  {
    if orders[a].side == orders[b].side then KeyLess(a, b) else orders[a].side == Bid
  }

  /** Every order of any engine under any book. A book no newer than the last is counted and ignored;
      with any other, which becomes the engine's, each order meets the fate above, buys before sells,
      each side by session and then by client id, and the fills are numbered on from the last. */
  lemma BookFills(inst: Instrument, s: State, b: Book)
    ensures var (t, out) := OnBook(inst, s, b);
            && t.orders.Keys == s.orders.Keys
            && if s.bookSeen && b.mdSeq <= s.book.mdSeq then t == s.(staleBooks := s.staleBooks + 1) && out == []
               else
                 && t.book == b && t.bookSeen && t.nextEngId == s.nextEngId && t.nextExecId == s.nextExecId + |out|
                 && (forall key :: key in s.orders ==> FilledBy(inst, key, s.orders[key], b, t.orders[key], out))
                 && (forall i :: 0 <= i < |out| ==>
                      out[i].msg.Fill? && out[i].msg.execId == s.nextExecId + i && KeyOf(out[i]) in s.orders)
                 && (forall i, j :: 0 <= i < j < |out| ==> Sooner(s.orders, KeyOf(out[i]), KeyOf(out[j])))
  {
    hide FilledBy, KeysInOrder, Sooner;
    if !s.bookSeen || b.mdSeq > s.book.mdSeq {
      SweepInOrder(inst, s, b);
      forall key | key in s.orders
        ensures FilledBy(inst, key, s.orders[key], b, OnBook(inst, s, b).0.orders[key], OnBook(inst, s, b).1)
      {
        OrderFills(inst, s, b, key);
      }
    }
  }

  lemma SweepInOrder(inst: Instrument, s: State, b: Book)
    requires !s.bookSeen || b.mdSeq > s.book.mdSeq
    ensures var out := OnBook(inst, s, b).1;
            && (forall i :: 0 <= i < |out| ==> KeyOf(out[i]) == SweepKeys(inst, s.orders, b)[i] && KeyOf(out[i]) in s.orders)
            && (forall i, j :: 0 <= i < j < |out| ==> Sooner(s.orders, KeyOf(out[i]), KeyOf(out[j])))
  {
    hide KeysInOrder, CrossedKeys, Sooner, Crossed;
    var ks, out := SweepKeys(inst, s.orders, b), OnBook(inst, s, b).1;
    assert forall i :: 0 <= i < |out| ==> KeyOf(out[i]) == ks[i] && ks[i] in ks;
    KeysSooner(inst, s.orders, b);
  }

  lemma KeysSooner(inst: Instrument, orders: map<Key, Order>, b: Book)
    ensures var ks := SweepKeys(inst, orders, b);
            forall i, j :: 0 <= i < j < |ks| ==> ks[i] in orders && ks[j] in orders && Sooner(orders, ks[i], ks[j])
  {
    hide KeysInOrder, Crossed, KeyLess;
    var bids, asks := CrossedKeys(inst, orders, Bid, b), CrossedKeys(inst, orders, Ask, b);
    assert forall i :: 0 <= i < |bids| ==> bids[i] in SetOf(bids);
    assert forall i :: 0 <= i < |asks| ==> asks[i] in SetOf(asks);
    assert SweepKeys(inst, orders, b) == bids + asks;
  }

  lemma OrderFills(inst: Instrument, s: State, b: Book, key: Key)
    requires (!s.bookSeen || b.mdSeq > s.book.mdSeq) && key in s.orders
    ensures FilledBy(inst, key, s.orders[key], b, OnBook(inst, s, b).0.orders[key], OnBook(inst, s, b).1)
  {
    hide KeysInOrder;
    var ks, out := SweepKeys(inst, s.orders, b), OnBook(inst, s, b).1;
    SweepOnce(inst, s.orders, b);
    if key in ks {
      var at := Position(ks, key);
      assert OnlyAt(out, key, at);
    } else {
      forall r | r in out ensures !About(r, key) {
        var j :| 0 <= j < |out| && out[j] == r;
        assert ks[j] in ks;
      }
    }
  }

  /** Whatever the run: the order a session saw accepted is filled by a newer book exactly when it is
      still resting and marketable at the very price it asked, for the smaller of what the session saw
      left and the size displayed. */
  lemma FillAsSeen(inst: Instrument, cmds: seq<Cmd>, b: Book, key: Key)
    requires ValidInstrument(inst) && WellFormed(cmds)
    requires After(inst, cmds).bookSeen ==> b.mdSeq > After(inst, cmds).book.mdSeq
    ensures var s, seen := After(inst, cmds), Watch(inst, cmds, key);
            var out := OnBook(inst, s, b).1;
            && (seen.Resting? ==> key in s.orders)
            && if seen.Resting? && Marketable(s.orders[key].side == Bid, seen.px, b) then
                 var size := if s.orders[key].side == Bid then b.askQty else b.bidQty;
                 var qty := if seen.leaves <= size then seen.leaves else size;
                 exists i: nat :: OnlyAt(out, key, i) && out[i].msg.Fill?
                   && out[i].msg == Fill(key.clId, seen.engId, seen.px, qty, seen.leaves - qty, out[i].msg.execId)
               else forall r :: r in out ==> !About(r, key)
  {
    hide Watch, After, OnlyAt, KeysInOrder, Marketable, About;
    OneLifePerOrder(inst, cmds, key);
    var s := After(inst, cmds);
    if key in s.orders { OrderFills(inst, s, b, key); } else { NoneUnknown(inst, s, b, key); }
  }

  lemma NoneUnknown(inst: Instrument, s: State, b: Book, key: Key)
    requires key !in s.orders
    ensures forall r :: r in OnBook(inst, s, b).1 ==> !About(r, key)
  {
    hide KeysInOrder;
    var ks, out := SweepKeys(inst, s.orders, b), OnBook(inst, s, b).1;
    forall r | r in out ensures !About(r, key) {
      var j :| 0 <= j < |out| && out[j] == r;
      assert ks[j] in ks;
    }
  }

  // --- cancels and the end of a session ----------------------------------------------------

  /** Whatever the run, the answer to a cancel is settled by what the session has seen of the order: a
      resting one is pulled under the engine id of its ack, one it never sent is unknown, and any other
      is over already. Only a resting one is touched. */
  lemma CancelAsSeen(inst: Instrument, cmds: seq<Cmd>, key: Key)
    requires ValidInstrument(inst) && WellFormed(cmds)
    ensures var s, seen := After(inst, cmds), Watch(inst, cmds, key);
            var (t, reply) := OnCancel(s, key.session, key.clId);
            match seen
            case Resting(engId, _, _, _, _) =>
              && reply == CancelAck(key.clId, engId) && key in s.orders
              && t == s.(orders := s.orders[key := s.orders[key].(st := Cancelled)])
            case Unused => t == s && reply.Reject? && reply.clId == key.clId && reply.code == UnknownClOrdId
            case _ => t == s && reply.Reject? && reply.clId == key.clId && reply.code == AlreadyTerminal
  {
    OneLifePerOrder(inst, cmds, key);
  }

  /** And the end of a session pulls exactly the orders it has resting, one ack each under the engine id
      it knows and in the order of their ids, and leaves none of its entries and all of the others'. */
  lemma EndAsSeen(inst: Instrument, cmds: seq<Cmd>, session: nat)
    requires ValidInstrument(inst) && WellFormed(cmds)
    ensures var s := After(inst, cmds); var (t, acks) := EndSession(s, session);
            && (forall i, j :: 0 <= i < j < |acks| ==> StrLess(ClIdOf(acks[i]), ClIdOf(acks[j])))
            && (forall clId :: Pulled(Watch(inst, cmds, Key(session, clId)), clId, acks))
            && t == s.(orders := t.orders)
            && (forall key :: key in t.orders <==> key in s.orders && key.session != session)
            && (forall key :: key in t.orders ==> t.orders[key] == s.orders[key])
  {
    hide Watch, After, Pulled, KeysInOrder, Agrees, LiveOf, StrLess;
    var s := After(inst, cmds);
    var acks := EndSession(s, session).1;
    AcksInOrder(s, session);
    forall clId ensures Pulled(Watch(inst, cmds, Key(session, clId)), clId, acks) {
      OneLifePerOrder(inst, cmds, Key(session, clId));
      PulledWhenLive(inst, s, session, clId, Watch(inst, cmds, Key(session, clId)));
    }
  }

  /** What the end of its session says of one order: a single ack if it was seen resting, else nothing. */
  ghost predicate Pulled(seen: Phase, clId: string, acks: seq<OutMsg>) {
    if seen.Resting? then CancelAck(clId, seen.engId) in acks
    else forall m :: m in acks ==> ClIdOf(m) != clId
  }

  lemma AcksInOrder(s: State, session: nat)
    ensures var acks := EndSession(s, session).1;
            forall i, j :: 0 <= i < j < |acks| ==> StrLess(ClIdOf(acks[i]), ClIdOf(acks[j]))
  {
    hide StrLess;
    var ks := KeysInOrder(LiveOf(s.orders, session));
    assert forall i :: 0 <= i < |ks| ==> ks[i] in SetOf(ks);
  }

  lemma PulledWhenLive(inst: Instrument, s: State, session: nat, clId: string, seen: Phase)
    requires Agrees(inst, seen, s, Key(session, clId))
    ensures Pulled(seen, clId, EndSession(s, session).1)
  {
    var key, acks := Key(session, clId), EndSession(s, session).1;
    var ks := KeysInOrder(LiveOf(s.orders, session));
    assert forall k :: k in ks <==> k in SetOf(ks);
    if key in ks {
      var i :| 0 <= i < |ks| && ks[i] == key;
      assert acks[i] == CancelAck(clId, s.orders[key].engId);
    } else {
      forall m | m in acks ensures ClIdOf(m) != clId {
        var i :| 0 <= i < |acks| && acks[i] == m;
        assert ks[i] in ks && ks[i] == Key(session, ks[i].clId);
      }
    }
  }
}
