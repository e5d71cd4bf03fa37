/** The order engine without its indexes: what each entry point does to one map of orders, read
    in key order (cpp/include/mm/engine.hpp:9-70). The class in engine.dfy, which keeps two live
    indexes and per-session counters beside the map, is proved to compute exactly this. */
module EngineSpec {
  import opened Text
  import opened Protocol

  datatype OrdState = Live | Filled | Cancelled | Rejected

  datatype Order = Order(engId: nat, side: Side, px: int, leaves: int, st: OrdState)

  datatype Book = Book(bidPx: int, bidQty: int, askPx: int, askQty: int, mdSeq: nat)

  datatype Key = Key(session: nat, clId: string)

  datatype Routed = Routed(session: nat, msg: OutMsg)

  datatype State = State(
    orders: map<Key, Order>, book: Book, bookSeen: bool,
    nextEngId: nat, nextExecId: nat, staleBooks: nat)

  const NO_BOOK := Book(0, 0, 0, 0, 0)

  const INITIAL := State(map[], NO_BOOK, false, 1, 1, 0)

  /** What a rejected NewOrder leaves behind so that its cl_id stays consumed. */
  const TOMBSTONE := Order(0, Bid, 0, 0, Rejected)

  // --- key order ---------------------------------------------------------------------------

  predicate KeyLess(a: Key, b: Key) {
    a.session < b.session || (a.session == b.session && StrLess(a.clId, b.clId))
  }

  ghost predicate Sorted(ks: seq<Key>) {
    forall i, j :: 0 <= i < j < |ks| ==> KeyLess(ks[i], ks[j])
  }

  ghost function SetOf(ks: seq<Key>): set<Key> { set k | k in ks }

  lemma KeyOrder(a: Key, b: Key, c: Key)
    ensures !KeyLess(a, a)
    ensures KeyLess(a, b) || KeyLess(b, a) || a == b
    ensures KeyLess(a, b) && KeyLess(b, c) ==> KeyLess(a, c)
  {
    StrIrreflexive(a.clId);
    StrTotal(a.clId, b.clId);
    if StrLess(a.clId, b.clId) && StrLess(b.clId, c.clId) {
      StrTransitive(a.clId, b.clId, c.clId);
    }
  }

  /** Insertion into an ordered container. */
  function Insert(ks: seq<Key>, k: Key): seq<Key> {
    if ks == [] || KeyLess(k, ks[0]) then [k] + ks else [ks[0]] + Insert(ks[1..], k)
  }

  lemma {:induction false} InsertKeepsOrder(ks: seq<Key>, k: Key)
    requires Sorted(ks) && k !in ks
    ensures Sorted(Insert(ks, k))
    ensures SetOf(Insert(ks, k)) == SetOf(ks) + {k}
  {
    if ks == [] {
    } else if KeyLess(k, ks[0]) {
      forall j | 0 <= j < |ks| ensures KeyLess(k, ks[j]) { KeyOrder(k, ks[0], ks[j]); }
    } else {
      InsertKeepsOrder(ks[1..], k);
      KeyOrder(ks[0], k, k);
      var r := Insert(ks[1..], k);
      forall j | 0 <= j < |r| ensures KeyLess(ks[0], r[j]) {
        assert r[j] in SetOf(r);
        if r[j] != k { assert r[j] in ks[1..]; }
      }
      assert ks == [ks[0]] + ks[1..];
    }
  }

  lemma {:induction false} OrderExists(s: set<Key>) returns (ks: seq<Key>)
    ensures Sorted(ks) && SetOf(ks) == s
  {
    if s == {} {
      ks := [];
    } else {
      var k :| k in s;
      ks := OrderExists(s - {k});
      assert k !in SetOf(ks);
      InsertKeepsOrder(ks, k);
      ks := Insert(ks, k);
    }
  }

  /** The keys of a set, each once, in key order: how a walk over an ordered map meets them. */
  ghost function KeysInOrder(s: set<Key>): (ks: seq<Key>)
    ensures Sorted(ks) && SetOf(ks) == s
  {
    assert exists ks :: Sorted(ks) && SetOf(ks) == s by { var ks := OrderExists(s); }
    var ks :| Sorted(ks) && SetOf(ks) == s;
    ks
  }

  /** There is only one way to put a set of keys in order. */
  lemma {:induction false} SortedUnique(a: seq<Key>, b: seq<Key>)
    requires Sorted(a) && Sorted(b) && SetOf(a) == SetOf(b)
    ensures a == b
  {
    SortedCount(a);
    SortedCount(b);
    if a != [] {
      assert a[0] in SetOf(b) && b[0] in SetOf(a);
      var i :| 0 <= i < |b| && b[i] == a[0];
      var j :| 0 <= j < |a| && a[j] == b[0];
      KeyOrder(a[0], b[0], a[0]);
      SortedTail(a);
      SortedTail(b);
      assert a[0] == b[0];
      SortedUnique(a[1..], b[1..]);
      assert a == [a[0]] + a[1..];
      assert b == [b[0]] + b[1..];
    }
  }

  lemma SortedTail(a: seq<Key>)
    requires Sorted(a) && a != []
    ensures Sorted(a[1..]) && SetOf(a[1..]) == SetOf(a) - {a[0]}
  {
    forall k | k in a[1..] ensures k != a[0] {
      var i :| 1 <= i < |a| && a[i] == k;
      KeyOrder(a[0], a[i], a[0]);
    }
    forall k | k in SetOf(a) - {a[0]} ensures k in a[1..] {
      var i :| 0 <= i < |a| && a[i] == k;
      assert a[1..][i - 1] == k;
    }
  }

  lemma SortedDistinct(ks: seq<Key>)
    requires Sorted(ks)
    ensures forall i, j :: 0 <= i < j < |ks| ==> ks[i] != ks[j]
  {
    forall i, j | 0 <= i < j < |ks| ensures ks[i] != ks[j] { KeyOrder(ks[i], ks[j], ks[i]); }
  }

  /** A sorted walk visits as many keys as the set holds. */
  lemma {:induction false} SortedCount(ks: seq<Key>)
    requires Sorted(ks)
    ensures |SetOf(ks)| == |ks|
  {
    if ks != [] {
      SortedTail(ks);
      SortedCount(ks[1..]);
    }
  }

  // --- live orders -------------------------------------------------------------------------

  ghost function LiveSet(orders: map<Key, Order>, side: Side): set<Key> {
    set k | k in orders && orders[k].st == Live && orders[k].side == side
  }

  ghost function LiveOf(orders: map<Key, Order>, session: nat): set<Key> {
    set k | k in orders && orders[k].st == Live && k.session == session
  }

  ghost function EntriesOf(orders: map<Key, Order>, session: nat): set<Key> {
    set k | k in orders && k.session == session
  }

  // --- the fill rule -----------------------------------------------------------------------

  function OppPx(side: Side, book: Book): int { if side == Bid then book.askPx else book.bidPx }

  function OppQty(side: Side, book: Book): int { if side == Bid then book.askQty else book.bidQty }

  /** An opposite side is absent on a non-positive quantity, and treated so on a non-positive price. */
  predicate Reaches(side: Side, px: int, book: Book) {
    && OppQty(side, book) > 0 && OppPx(side, book) > 0
    && (if side == Bid then OppPx(side, book) <= px else OppPx(side, book) >= px)
  }

  predicate Crossed(inst: Instrument, ord: Order, book: Book) {
    ord.st == Live && Reaches(ord.side, ToRawPx(inst, ord.px), book)
  }

  function Min(a: int, b: int): int { if a < b then a else b }

  /** One order's fate under one book: filled at most once, never rounded, displayed size not consumed. */
  function AfterBook(inst: Instrument, ord: Order, book: Book): Order {
    if !Crossed(inst, ord, book) then ord
    else
      var left := ord.leaves - Min(ord.leaves, OppQty(ord.side, book));
      ord.(leaves := left, st := if left == 0 then Filled else Live)
  }

  function FillFor(inst: Instrument, k: Key, ord: Order, book: Book, execId: nat): Routed {
    var qty := Min(ord.leaves, OppQty(ord.side, book));
    Routed(k.session, Fill(k.clId, ord.engId, ToRawPx(inst, ord.px), qty, ord.leaves - qty, execId))
  }

  /** The orders of one side a book reaches, found by scanning the whole map in key order. */
  ghost function CrossedKeys(inst: Instrument, orders: map<Key, Order>, side: Side, book: Book): seq<Key> {
    KeysInOrder(set k | k in orders && orders[k].side == side && Crossed(inst, orders[k], book))
  }

  /** Bids before asks. */
  ghost function SweepKeys(inst: Instrument, orders: map<Key, Order>, book: Book): (ks: seq<Key>)
    ensures forall k :: k in ks <==> k in orders && Crossed(inst, orders[k], book)
  {
    var bids, asks := CrossedKeys(inst, orders, Bid, book), CrossedKeys(inst, orders, Ask, book);
    assert forall k :: k in bids <==> k in SetOf(bids);
    assert forall k :: k in asks <==> k in SetOf(asks);
    bids + asks
  }

  function FillsFor(inst: Instrument, orders: map<Key, Order>, ks: seq<Key>, book: Book, execId: nat): seq<Routed>
    requires forall k :: k in ks ==> k in orders
  {
    seq(|ks|, i requires 0 <= i < |ks| => FillFor(inst, ks[i], orders[ks[i]], book, execId + i))
  }

  // --- entry points ------------------------------------------------------------------------

  /** Checks 2 to 4 of on_new, in order; None is an accept. */
  ghost function EntryVerdict(inst: Instrument, s: State, session: nat, o: InMsg): Option<OutMsg>
    requires ValidInstrument(inst) && o.NewOrder?
  {
    var bad := ValidateOrder(inst, o.symbol, o.side, o.px, o.qty);
    if bad.Some? then
      Some(Reject(o.clId, bad.value, ValidationReason(bad.value, o.qty)))
    else if |LiveOf(s.orders, session)| >= inst.maxLiveOrders then
      Some(Reject(o.clId, MaxLiveOrders, "session already holds max_live_orders live orders"))
    else if o.postOnly && Reaches(SideFromWire(o.side).value, o.px, s.book) then
      Some(Reject(o.clId, PostOnlyCross, "post-only order would cross the book"))
    else None
  }

  function Accepted(inst: Instrument, o: InMsg, engId: nat): Order
    requires ValidInstrument(inst) && o.NewOrder?
    requires ValidateOrder(inst, o.symbol, o.side, o.px, o.qty) == None
  {
    Order(engId, SideFromWire(o.side).value, ToTicks(inst, o.px), o.qty, Live)
  }

  ghost function OnNew(inst: Instrument, s: State, session: nat, o: InMsg): (r: (State, OutMsg))
    requires ValidInstrument(inst) && o.NewOrder?
  {
    var key := Key(session, o.clId);
    if key in s.orders then
      (s, Reject(o.clId, DupClOrdId, "cl_id already used on this session"))
    else
      match EntryVerdict(inst, s, session, o)
      case Some(rejection) => (s.(orders := s.orders[key := TOMBSTONE]), rejection)
      case None =>
        (s.(orders := s.orders[key := Accepted(inst, o, s.nextEngId)], nextEngId := s.nextEngId + 1),
         OrderAck(o.clId, s.nextEngId))
  }

  function OnCancel(s: State, session: nat, clId: string): (r: (State, OutMsg)) {
    var key := Key(session, clId);
    if key !in s.orders then
      (s, Reject(clId, UnknownClOrdId, "unknown cl_id on this session"))
    else if s.orders[key].st != Live then
      (s, Reject(clId, AlreadyTerminal, "order is already terminal"))
    else
      (s.(orders := s.orders[key := s.orders[key].(st := Cancelled)]), CancelAck(clId, s.orders[key].engId))
  }

  ghost function OnBook(inst: Instrument, s: State, book: Book): (r: (State, seq<Routed>)) {
    if s.bookSeen && book.mdSeq <= s.book.mdSeq then
      (s.(staleBooks := s.staleBooks + 1), [])
    else
      var ks := SweepKeys(inst, s.orders, book);
      (s.(orders := map k | k in s.orders :: AfterBook(inst, s.orders[k], book),
          book := book, bookSeen := true, nextExecId := s.nextExecId + |ks|),
       FillsFor(inst, s.orders, ks, book, s.nextExecId))
  }

  function AcksFor(orders: map<Key, Order>, ks: seq<Key>): seq<OutMsg>
    requires forall k :: k in ks ==> k in orders
  {
    seq(|ks|, i requires 0 <= i < |ks| => CancelAck(ks[i].clId, orders[ks[i]].engId))
  }

  ghost function EndSession(s: State, session: nat): (r: (State, seq<OutMsg>)) {
    var ks := KeysInOrder(LiveOf(s.orders, session));
    assert forall k :: k in ks <==> k in SetOf(ks);
    (s.(orders := map k | k in s.orders && k.session != session :: s.orders[k]), AcksFor(s.orders, ks))
  }

  // --- what every state keeps --------------------------------------------------------------

  ghost predicate Inv(inst: Instrument, s: State) {
    && (forall k :: k in s.orders && s.orders[k].st == Live ==> s.orders[k].leaves > 0)
    && (forall session :: |LiveOf(s.orders, session)| <= inst.maxLiveOrders)
    && (forall k :: k in s.orders ==> s.orders[k].engId < s.nextEngId)
    && s.nextEngId > 0
  }

  lemma InvInitial(inst: Instrument)
    requires ValidInstrument(inst)
    ensures Inv(inst, INITIAL)
  {
    forall session ensures |LiveOf(INITIAL.orders, session)| == 0 { assert LiveOf(INITIAL.orders, session) == {}; }
  }

  lemma LiveShrinks(a: map<Key, Order>, b: map<Key, Order>, session: nat)
    requires LiveOf(b, session) <= LiveOf(a, session)
    ensures |LiveOf(b, session)| <= |LiveOf(a, session)|
  {
    var x, y := LiveOf(a, session), LiveOf(b, session);
    assert x == y + (x - y);
  }

  lemma LiveAfterInsert(orders: map<Key, Order>, key: Key, ord: Order, session: nat)
    requires key !in orders
    ensures LiveOf(orders[key := ord], session) ==
            LiveOf(orders, session) + if ord.st == Live && key.session == session then {key} else {}
  {
  }

  /** A tombstone takes no live slot. */
  lemma InvRefused(inst: Instrument, s: State, key: Key)
    requires Inv(inst, s) && key !in s.orders
    ensures Inv(inst, s.(orders := s.orders[key := TOMBSTONE]))
  {
    hide LiveOf;
    var marked := s.orders[key := TOMBSTONE];
    forall e ensures |LiveOf(marked, e)| <= inst.maxLiveOrders {
      LiveAfterInsert(s.orders, key, TOMBSTONE, e);
    }
  }

  /** An accepted order takes one, of which there was one left. */
  lemma InvAccepted(inst: Instrument, s: State, key: Key, ord: Order)
    requires Inv(inst, s) && key !in s.orders && |LiveOf(s.orders, key.session)| < inst.maxLiveOrders
    requires ord.st == Live && ord.leaves > 0 && ord.engId == s.nextEngId
    ensures Inv(inst, s.(orders := s.orders[key := ord], nextEngId := s.nextEngId + 1))
  {
    var grown := s.orders[key := ord];
    forall e ensures |LiveOf(grown, e)| <= inst.maxLiveOrders {
      LiveAfterInsert(s.orders, key, ord, e);
      assert key !in LiveOf(s.orders, e);
    }
  }

  lemma AcceptedHas(inst: Instrument, s: State, session: nat, o: InMsg)
    requires ValidInstrument(inst) && o.NewOrder? && EntryVerdict(inst, s, session, o).None?
    ensures ValidateOrder(inst, o.symbol, o.side, o.px, o.qty) == None
    ensures o.qty > 0 && |LiveOf(s.orders, session)| < inst.maxLiveOrders
  {
    hide LiveOf;
  }

  lemma InvOnNew(inst: Instrument, s: State, session: nat, o: InMsg)
    requires ValidInstrument(inst) && Inv(inst, s) && o.NewOrder?
    ensures Inv(inst, OnNew(inst, s, session, o).0)
  {
    hide ValidateOrder, EntryVerdict, Inv, LiveOf;
    var key := Key(session, o.clId);
    if key !in s.orders {
      if EntryVerdict(inst, s, session, o).Some? {
        InvRefused(inst, s, key);
      } else {
        AcceptedHas(inst, s, session, o);
        InvAccepted(inst, s, key, Accepted(inst, o, s.nextEngId));
      }
    }
  }

  lemma InvOnCancel(inst: Instrument, s: State, session: nat, clId: string)
    requires ValidInstrument(inst) && Inv(inst, s)
    ensures Inv(inst, OnCancel(s, session, clId).0)
  {
    var t := OnCancel(s, session, clId).0;
    forall e ensures |LiveOf(t.orders, e)| <= inst.maxLiveOrders { LiveShrinks(s.orders, t.orders, e); }
  }

  lemma InvOnBook(inst: Instrument, s: State, book: Book)
    requires ValidInstrument(inst) && Inv(inst, s)
    ensures Inv(inst, OnBook(inst, s, book).0)
  {
    var t := OnBook(inst, s, book).0;
    forall e ensures |LiveOf(t.orders, e)| <= inst.maxLiveOrders { LiveShrinks(s.orders, t.orders, e); }
  }

  lemma InvEndSession(inst: Instrument, s: State, session: nat)
    requires ValidInstrument(inst) && Inv(inst, s)
    ensures Inv(inst, EndSession(s, session).0)
  {
    var t := EndSession(s, session).0;
    forall e ensures |LiveOf(t.orders, e)| <= inst.maxLiveOrders { LiveShrinks(s.orders, t.orders, e); }
  }
}
