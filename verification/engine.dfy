/** OrderEngine as the program keeps it (cpp/src/engine.cpp): the order map, two live indexes in key
    order and a per-session entry counter, changed in place, with every allocation able to fail. */
module Engine {
  import opened Text
  import opened Protocol
  import opened EngineSpec

  /** A call either completes or throws std::bad_alloc. */
  datatype Outcome<+T> = Done(value: T) | BadAlloc

  // --- ordered containers ------------------------------------------------------------------

  function Without(ks: seq<Key>, k: Key): seq<Key> {
    if ks == [] then [] else (if ks[0] == k then [] else [ks[0]]) + Without(ks[1..], k)
  }

  lemma {:induction false} WithoutKeepsOrder(ks: seq<Key>, k: Key)
    requires Sorted(ks)
    ensures Sorted(Without(ks, k)) && SetOf(Without(ks, k)) == SetOf(ks) - {k}
  {
    if ks != [] {
      SortedTail(ks);
      WithoutKeepsOrder(ks[1..], k);
      var r := Without(ks[1..], k);
      forall j | 0 <= j < |r| ensures KeyLess(ks[0], r[j]) {
        assert r[j] in SetOf(r);
        assert r[j] in ks[1..];
      }
      assert SetOf(Without(ks, k)) == SetOf(r) + if ks[0] == k then {} else {ks[0]};
    }
  }

  /** The live index of a side holds exactly that side's live orders, in key order. */
  ghost predicate Indexes(live: seq<Key>, orders: map<Key, Order>, side: Side) {
    Sorted(live) && SetOf(live) == LiveSet(orders, side)
  }

  ghost predicate Counts(entries: map<nat, nat>, orders: map<Key, Order>) {
    forall session: nat ::
      && (session in entries <==> EntriesOf(orders, session) != {})
      && (session in entries ==> entries[session] == |EntriesOf(orders, session)|)
  }

  lemma CountsAfterInsert(entries: map<nat, nat>, orders: map<Key, Order>, k: Key, ord: Order)
    requires Counts(entries, orders) && k !in orders
    ensures Counts(entries[k.session := (if k.session in entries then entries[k.session] else 0) + 1], orders[k := ord])
  {
    var grown := orders[k := ord];
    var entries' := entries[k.session := (if k.session in entries then entries[k.session] else 0) + 1];
    forall session: nat
      ensures session in entries' <==> EntriesOf(grown, session) != {}
      ensures session in entries' ==> entries'[session] == |EntriesOf(grown, session)|
    {
      if session == k.session {
        assert EntriesOf(grown, session) == EntriesOf(orders, session) + {k};
      } else {
        assert EntriesOf(grown, session) == EntriesOf(orders, session);
      }
    }
  }

  lemma CountsAfterUpdate(entries: map<nat, nat>, before: map<Key, Order>, after: map<Key, Order>)
    requires Counts(entries, before) && after.Keys == before.Keys
    ensures Counts(entries, after)
  {
    forall session: nat ensures EntriesOf(after, session) == EntriesOf(before, session) {
    }
  }

  /** The part of an ordered container that one session's keys occupy. */
  ghost predicate IsSessionRange(ks: seq<Key>, session: nat, lo: nat, hi: nat) {
    && lo <= hi <= |ks|
    && forall i :: 0 <= i < |ks| ==> (ks[i].session == session <==> lo <= i < hi)
  }

  /** lower_bound of the session's floor, then a forward walk to the first foreign key. */
  method SessionRange(ks: seq<Key>, session: nat) returns (lo: nat, hi: nat)
    requires Sorted(ks)
    ensures IsSessionRange(ks, session, lo, hi)
  {
    lo := 0;
    while lo < |ks| && ks[lo].session < session
      invariant lo <= |ks|
      invariant forall i :: 0 <= i < lo ==> ks[i].session < session
    {
      lo := lo + 1;
    }
    hi := lo;
    while hi < |ks| && ks[hi].session == session
      invariant lo <= hi <= |ks|
      invariant forall i :: lo <= i < hi ==> ks[i].session == session
    {
      hi := hi + 1;
    }
    forall i | lo <= i < |ks| ensures ks[i].session >= session {
      assert i == lo || KeyLess(ks[lo], ks[i]);
    }
    forall i | hi <= i < |ks| ensures ks[i].session > session {
      assert i == hi || KeyLess(ks[hi], ks[i]);
    }
  }

  lemma RangeIsSession(ks: seq<Key>, session: nat, lo: nat, hi: nat)
    requires Sorted(ks) && IsSessionRange(ks, session, lo, hi)
    ensures Sorted(ks[lo..hi]) && SetOf(ks[lo..hi]) == set k | k in ks && k.session == session
    ensures Sorted(ks[..lo] + ks[hi..]) && SetOf(ks[..lo] + ks[hi..]) == set k | k in ks && k.session != session
  {
    forall k | k in ks && k.session == session ensures k in ks[lo..hi] {
      var i :| 0 <= i < |ks| && ks[i] == k;
      assert ks[lo..hi][i - lo] == k;
    }
    forall k | k in ks && k.session != session ensures k in ks[..lo] + ks[hi..] {
      var i :| 0 <= i < |ks| && ks[i] == k;
      if i < lo { assert ks[..lo][i] == k; } else { assert ks[hi..][i - hi] == k; }
    }
  }

  /** An iteration over an ordered map, first key to last. */
  method MapWalk(keys: set<Key>) returns (ks: seq<Key>)
    ensures Sorted(ks) && SetOf(ks) == keys
  {
    ks := [];
    var rest := keys;
    while rest != {}
      invariant rest <= keys && Sorted(ks) && SetOf(ks) == keys - rest
    {
      var k :| k in rest;
      assert k !in SetOf(ks);
      InsertKeepsOrder(ks, k);
      ks := Insert(ks, k);
      rest := rest - {k};
    }
  }

  method CountRange(ks: seq<Key>, session: nat) returns (count: nat)
    requires Sorted(ks)
    ensures count == |set k | k in ks && k.session == session|
  {
    var lo, hi := SessionRange(ks, session);
    RangeIsSession(ks, session, lo, hi);
    SortedCount(ks[lo..hi]);
    count := hi - lo;
  }

  lemma LiveOfIsBothSides(orders: map<Key, Order>, bids: seq<Key>, asks: seq<Key>, session: nat)
    requires Indexes(bids, orders, Bid) && Indexes(asks, orders, Ask)
    ensures |LiveOf(orders, session)| == |set k | k in bids && k.session == session| + |set k | k in asks &&
            k.session == session|
  {
    assert forall k :: k in bids <==> k in SetOf(bids);
    assert forall k :: k in asks <==> k in SetOf(asks);
    var b, a := set k | k in bids && k.session == session, set k | k in asks && k.session == session;
    assert LiveOf(orders, session) == b + a;
    assert b !! a;
  }

  // --- the sweep ---------------------------------------------------------------------------

  /** Those of the first n indexed orders that the book reaches, in index order. */
  ghost function Reached(inst: Instrument, orders: map<Key, Order>, live: seq<Key>, n: nat, book: Book): seq<Key>
    requires n <= |live| && forall k :: k in live ==> k in orders
  {
    if n == 0 then []
    else
      Reached(inst, orders, live, n - 1, book) +
      if Crossed(inst, orders[live[n - 1]], book) then [live[n - 1]] else []
  }

  lemma {:induction false} ReachedInOrder(inst: Instrument, orders: map<Key, Order>, live: seq<Key>, n: nat, book: Book)
    requires n <= |live| && Sorted(live) && forall k :: k in live ==> k in orders
    ensures Sorted(Reached(inst, orders, live, n, book))
    ensures SetOf(Reached(inst, orders, live, n, book)) ==
            set k | k in live[..n] && Crossed(inst, orders[k], book)
  {
    if n > 0 {
      ReachedInOrder(inst, orders, live, n - 1, book);
      var before := Reached(inst, orders, live, n - 1, book);
      assert live[..n] == live[..n - 1] + [live[n - 1]];
      forall i | 0 <= i < |before| ensures KeyLess(before[i], live[n - 1]) {
        assert before[i] in SetOf(before);
        var j :| 0 <= j < n - 1 && live[..n - 1][j] == before[i];
      }
      var last := if Crossed(inst, orders[live[n - 1]], book) then [live[n - 1]] else [];
      assert SetOf(before + last) == SetOf(before) + SetOf(last);
    }
  }

  /** Walking the index meets the same orders, in the same order, as scanning the whole map. */
  lemma IndexWalkIsMapScan(inst: Instrument, orders: map<Key, Order>, live: seq<Key>, side: Side, book: Book)
    requires Indexes(live, orders, side)
    ensures forall k :: k in live ==> k in orders && orders[k].side == side && orders[k].st == Live
    ensures Reached(inst, orders, live, |live|, book) == CrossedKeys(inst, orders, side, book)
  {
    assert forall k :: k in live <==> k in SetOf(live);
    ReachedInOrder(inst, orders, live, |live|, book);
    var walked := Reached(inst, orders, live, |live|, book);
    assert live[..|live|] == live;
    assert SetOf(walked) == set k | k in orders && orders[k].side == side && Crossed(inst, orders[k], book);
    SortedUnique(walked, CrossedKeys(inst, orders, side, book));
  }

  /** What the commit loop has made of the map once the first n staged fills are applied. */
  ghost predicate CommittedUpTo(inst: Instrument, now: map<Key, Order>, before: map<Key, Order>, ks: seq<Key>,
      n: nat, book: Book)
    requires n <= |ks|
  {
    && now.Keys == before.Keys
    && forall k :: k in before ==> now[k] == if k in ks[..n] then AfterBook(inst, before[k], book) else before[k]
  }

  datatype Staged = Staged(key: Key, side: Side, leavesAfter: int)

  class OrderEngine {
    const inst: Instrument
    const maxSessionEntries: nat
    var orders: map<Key, Order>
    var liveBids: seq<Key>
    var liveAsks: seq<Key>
    var entries: map<nat, nat>
    var book: Book
    var bookSeen: bool
    var nextEngId: nat
    var nextExecId: nat
    var staleBooks: nat

    ghost predicate Structure()
      reads this
    {
      && ValidInstrument(inst) && maxSessionEntries > 0
      && Indexes(liveBids, orders, Bid) && Indexes(liveAsks, orders, Ask)
      && Inv(inst, View())
    }

    ghost predicate Valid()
      reads this
    {
      Structure() && Counts(entries, orders)
    }

    ghost function View(): State
      reads this
    {
      State(orders, book, bookSeen, nextEngId, nextExecId, staleBooks)
    }

    twostate predicate Untouched()
      reads this
    {
      && orders == old(orders) && liveBids == old(liveBids) && liveAsks == old(liveAsks)
      && entries == old(entries) && View() == old(View())
    }

    constructor (inst: Instrument, maxSessionEntries: nat)
      requires ValidInstrument(inst) && maxSessionEntries > 0
      ensures Valid() && View() == INITIAL
      ensures this.inst == inst && this.maxSessionEntries == maxSessionEntries
    {
      this.inst := inst;
      this.maxSessionEntries := maxSessionEntries;
      orders, liveBids, liveAsks, entries := map[], [], [], map[];
      book, bookSeen, nextEngId, nextExecId, staleBooks := NO_BOOK, false, 1, 1, 0;
      new;
      InvInitial(inst);
    }

    /** Counted off the live indexes, never off retained history. */
    method LiveCount(session: nat) returns (count: nat)
      requires Indexes(liveBids, orders, Bid) && Indexes(liveAsks, orders, Ask)
      ensures count == |LiveOf(orders, session)|
    {
      var bids := CountRange(liveBids, session);
      var asks := CountRange(liveAsks, session);
      LiveOfIsBothSides(orders, liveBids, liveAsks, session);
      count := bids + asks;
    }

    method EntryCount(session: nat) returns (count: nat)
      requires Valid()
      ensures count == |EntriesOf(orders, session)|
    {
      count := if session in entries then entries[session] else 0;
    }

    method EntryCapBreached(session: nat) returns (breached: bool)
      requires Valid()
      ensures breached <==> |EntriesOf(orders, session)| >= maxSessionEntries
    {
      var count := EntryCount(session);
      breached := count >= maxSessionEntries;
    }

    /** `ok(k)` says whether the k-th allocation of the call succeeds. */
    method OnNew(session: nat, o: InMsg, ok: nat -> bool) returns (r: Outcome<seq<OutMsg>>)
      requires Valid() && o.NewOrder?
      modifies this
      ensures Valid()
      ensures r.BadAlloc? ==> Untouched()
      ensures r.Done? ==> View() == EngineSpec.OnNew(inst, old(View()), session, o).0
      ensures r.Done? ==> r.value == [EngineSpec.OnNew(inst, old(View()), session, o).1]
      ensures (forall k :: ok(k)) ==> r.Done?
    {
      var key := Key(session, o.clId);
      if key in orders {
        if !ok(0) { return BadAlloc; }
        return Done([Reject(o.clId, DupClOrdId, "cl_id already used on this session")]);
      }
      r := Enter(session, o, ok);
    }

    /** on_new past the duplicate check: an entry is recorded either way. */
    method Enter(session: nat, o: InMsg, ok: nat -> bool) returns (r: Outcome<seq<OutMsg>>)
      requires Valid() && o.NewOrder? && Key(session, o.clId) !in orders
      modifies this
      ensures Valid()
      ensures r.BadAlloc? ==> Untouched()
      ensures r.Done? ==> View() == EngineSpec.OnNew(inst, old(View()), session, o).0
      ensures r.Done? ==> r.value == [EngineSpec.OnNew(inst, old(View()), session, o).1]
      ensures (forall k :: ok(k)) ==> r.Done?
    {
      hide Inv, Indexes, LiveOf;
      var key := Key(session, o.clId);
      var rejection := Verdict(session, o);
      // Reserve the counter node; a node this call created is erased again on a throw.
      var counterIsNew := session !in entries;
      if counterIsNew {
        if !ok(0) { return BadAlloc; }
        entries := entries[session := 0];
        assert entries - {session} == old(entries);
      }
      if rejection.Some? {
        r := StoreTombstone(key, rejection.value, counterIsNew, ok);
      } else {
        r := CommitAccept(key, Accepted(inst, o, nextEngId), counterIsNew, ok);
      }
    }

    /** Validation, then the live cap, then the post-only cross. */
    method Verdict(session: nat, o: InMsg) returns (v: Option<OutMsg>)
      requires Valid() && o.NewOrder?
      ensures v == EntryVerdict(inst, View(), session, o)
      ensures Inv(inst, EngineSpec.OnNew(inst, View(), session, o).0)
    {
      InvOnNew(inst, View(), session, o);
      var bad := ValidateOrder(inst, o.symbol, o.side, o.px, o.qty);
      if bad.Some? {
        return Some(Reject(o.clId, bad.value, ValidationReason(bad.value, o.qty)));
      }
      var live := LiveCount(session);
      if live >= inst.maxLiveOrders {
        return Some(Reject(o.clId, MaxLiveOrders, "session already holds max_live_orders live orders"));
      }
      if o.postOnly && Reaches(SideFromWire(o.side).value, o.px, book) {
        return Some(Reject(o.clId, PostOnlyCross, "post-only order would cross the book"));
      }
      return None;
    }

    /** The counter node of `session` is in place, and holds zero if this call created it. */
    ghost predicate Reserved(session: nat, counterIsNew: bool)
      reads this
    {
      && Structure()
      && session in entries && (counterIsNew ==> entries[session] == 0)
      && Counts(if counterIsNew then entries - {session} else entries, orders)
    }

    method UndoCounter(session: nat, counterIsNew: bool)
      requires Reserved(session, counterIsNew)
      modifies this`entries
      ensures Valid()
      ensures entries == if counterIsNew then old(entries) - {session} else old(entries)
    {
      if counterIsNew { entries := entries - {session}; }
    }

    method CountEntry(key: Key, counterIsNew: bool, ghost before: map<Key, Order>, ghost ord: Order)
      requires Structure() && key !in before && orders == before[key := ord]
      requires key.session in entries && (counterIsNew ==> entries[key.session] == 0)
      requires Counts(if counterIsNew then entries - {key.session} else entries, before)
      modifies this`entries
      ensures Valid()
    {
      ghost var clean := if counterIsNew then entries - {key.session} else entries;
      CountsAfterInsert(clean, before, key, ord);
      entries := entries[key.session := entries[key.session] + 1];
      assert entries == clean[key.session := (if key.session in clean then clean[key.session] else 0) + 1];
    }

    /** The report reaches the result first, then the tombstone's node lands. */
    method StoreTombstone(key: Key, report: OutMsg, counterIsNew: bool, ok: nat -> bool) returns (r: Outcome<seq<OutMsg>>)
      requires Reserved(key.session, counterIsNew) && key !in orders
      requires Inv(inst, View().(orders := orders[key := TOMBSTONE]))
      modifies this`orders, this`entries
      ensures Valid()
      ensures r.BadAlloc? ==> orders == old(orders)
      ensures r.BadAlloc? ==> entries == if counterIsNew then old(entries) - {key.session} else old(entries)
      ensures r.Done? ==> orders == old(orders)[key := TOMBSTONE] && r.value == [report]
      ensures (forall k :: ok(k)) ==> r.Done?
    {
      if !ok(1) || !ok(2) {
        UndoCounter(key.session, counterIsNew);
        return BadAlloc;
      }
      orders := orders[key := TOMBSTONE];
      assert LiveSet(orders, Bid) == LiveSet(old(orders), Bid);
      assert LiveSet(orders, Ask) == LiveSet(old(orders), Ask);
      CountEntry(key, counterIsNew, old(orders), TOMBSTONE);
      r := Done([report]);
    }

    /** The ack first, then the map node, then the index node: the last failure takes the map node back out. */
    method CommitAccept(key: Key, ord: Order, counterIsNew: bool, ok: nat -> bool) returns (r: Outcome<seq<OutMsg>>)
      requires Reserved(key.session, counterIsNew) && key !in orders
      requires ord.st == Live && ord.engId == nextEngId
      requires Inv(inst, View().(orders := orders[key := ord], nextEngId := nextEngId + 1))
      modifies this`orders, this`entries, this`liveBids, this`liveAsks, this`nextEngId
      ensures Valid()
      ensures r.BadAlloc? ==> entries == if counterIsNew then old(entries) - {key.session} else old(entries)
      ensures r.BadAlloc? ==> orders == old(orders) && nextEngId == old(nextEngId)
      ensures r.BadAlloc? ==> liveBids == old(liveBids) && liveAsks == old(liveAsks)
      ensures r.Done? ==> orders == old(orders)[key := ord] && nextEngId == old(nextEngId) + 1
      ensures r.Done? ==> r.value == [OrderAck(key.clId, ord.engId)]
      ensures (forall k :: ok(k)) ==> r.Done?
    {
      hide LiveOf, EntriesOf, Counts;
      if !ok(1) || !ok(2) {
        UndoCounter(key.session, counterIsNew);
        return BadAlloc;
      }
      orders := orders[key := ord];
      assert orders - {key} == old(orders);
      if !ok(3) {
        orders := orders - {key};
        UndoCounter(key.session, counterIsNew);
        return BadAlloc;
      }
      IndexInsert(ord.side, key);
      nextEngId := nextEngId + 1; // burned only on a fully committed accept
      CountEntry(key, counterIsNew, old(orders), ord);
      r := Done([OrderAck(key.clId, ord.engId)]);
    }

    method IndexInsert(side: Side, key: Key)
      requires key in orders && orders[key].st == Live && orders[key].side == side
      requires Indexes(liveBids, orders - {key}, Bid) && Indexes(liveAsks, orders - {key}, Ask)
      modifies this`liveBids, this`liveAsks
      ensures Indexes(liveBids, orders, Bid) && Indexes(liveAsks, orders, Ask)
    {
      var live := if side == Bid then liveBids else liveAsks;
      assert forall k :: k in live <==> k in SetOf(live);
      InsertKeepsOrder(live, key);
      if side == Bid {
        liveBids := Insert(live, key);
      } else {
        liveAsks := Insert(live, key);
      }
      assert LiveSet(orders, side) == LiveSet(orders - {key}, side) + {key};
      assert LiveSet(orders, Bid) == LiveSet(orders - {key}, Bid) || side == Bid;
      assert LiveSet(orders, Ask) == LiveSet(orders - {key}, Ask) || side == Ask;
    }

    method OnCancel(session: nat, clId: string, ok: nat -> bool) returns (r: Outcome<seq<OutMsg>>)
      requires Valid()
      modifies this
      ensures Valid()
      ensures r.BadAlloc? ==> Untouched()
      ensures r.Done? ==> View() == EngineSpec.OnCancel(old(View()), session, clId).0
      ensures r.Done? ==> r.value == [EngineSpec.OnCancel(old(View()), session, clId).1]
      ensures (forall k :: ok(k)) ==> r.Done?
    {
      InvOnCancel(inst, View(), session, clId);
      var key := Key(session, clId);
      if !ok(0) { return BadAlloc; }
      if key !in orders {
        return Done([Reject(clId, UnknownClOrdId, "unknown cl_id on this session")]);
      }
      var ord := orders[key];
      if ord.st != Live {
        return Done([Reject(clId, AlreadyTerminal, "order is already terminal")]);
      }
      // The ack exists before the order leaves Live.
      var ack := CancelAck(clId, ord.engId);
      orders := orders[key := ord.(st := Cancelled)];
      IndexErase(ord.side, key);
      CountsAfterUpdate(entries, old(orders), orders);
      return Done([ack]);
    }

    method IndexErase(side: Side, key: Key)
      requires key in orders && orders[key].st != Live && orders[key].side == side
      requires Indexes(liveBids, orders[key := orders[key].(st := Live)], Bid)
      requires Indexes(liveAsks, orders[key := orders[key].(st := Live)], Ask)
      modifies this`liveBids, this`liveAsks
      ensures Indexes(liveBids, orders, Bid) && Indexes(liveAsks, orders, Ask)
    {
      ghost var before := orders[key := orders[key].(st := Live)];
      if side == Bid {
        WithoutKeepsOrder(liveBids, key);
        liveBids := Without(liveBids, key);
        assert LiveSet(orders, Bid) == LiveSet(before, Bid) - {key};
        assert LiveSet(orders, Ask) == LiveSet(before, Ask);
      } else {
        WithoutKeepsOrder(liveAsks, key);
        liveAsks := Without(liveAsks, key);
        assert LiveSet(orders, Ask) == LiveSet(before, Ask) - {key};
        assert LiveSet(orders, Bid) == LiveSet(before, Bid);
      }
    }

    /** Every result is staged against the candidate book before anything moves. */
    method OnBook(b: Book, ok: nat -> bool) returns (r: Outcome<seq<Routed>>)
      requires Valid()
      modifies this
      ensures Valid()
      ensures r.BadAlloc? ==> Untouched()
      ensures r.Done? ==> View() == EngineSpec.OnBook(inst, old(View()), b).0
      ensures r.Done? ==> r.value == EngineSpec.OnBook(inst, old(View()), b).1
      ensures (forall k :: ok(k)) ==> r.Done?
    {
      InvOnBook(inst, View(), b);
      if bookSeen && b.mdSeq <= book.mdSeq {
        staleBooks := staleBooks + 1;
        return Done([]);
      }
      var bids := StageSide(Bid, b, nextExecId, 0, ok);
      if bids.BadAlloc? { return BadAlloc; }
      var (bidStaged, bidOut) := bids.value;
      var asks := StageSide(Ask, b, nextExecId + |bidStaged|, 3 * |bidStaged|, ok);
      if asks.BadAlloc? { return BadAlloc; }
      var (askStaged, askOut) := asks.value;
      JoinSides(inst, orders, bidStaged, askStaged, bidOut, askOut, b, nextExecId);
      bookSeen := true;
      book := b;
      nextExecId := nextExecId + |bidStaged| + |askStaged|;
      Commit(bidStaged + askStaged, b);
      r := Done(bidOut + askOut);
    }

    /** One side of the sweep: three allocations a fill, none of them touching the engine. */
    method StageSide(side: Side, b: Book, execId: nat, allocs: nat, ok: nat -> bool)
      returns (r: Outcome<(seq<Staged>, seq<Routed>)>)
      requires Valid()
      ensures r.Done? ==> IsStaged(inst, orders, CrossedKeys(inst, orders, side, b), r.value.0, b)
      ensures r.Done? ==> IsReported(inst, orders, CrossedKeys(inst, orders, side, b), r.value.1, b, execId)
      ensures (forall k :: ok(k)) ==> r.Done?
    {
      hide KeysInOrder, Counts, Inv;
      var live := if side == Bid then liveBids else liveAsks;
      var staged: seq<Staged>, out: seq<Routed> := [], [];
      IndexWalkIsMapScan(inst, orders, live, side, b);
      if OppQty(side, b) <= 0 || OppPx(side, b) <= 0 {
        ReachedNone(inst, orders, live, |live|, b);
        return Done(([], []));
      }
      for n := 0 to |live|
        invariant IsStaged(inst, orders, Reached(inst, orders, live, n, b), staged, b)
        invariant IsReported(inst, orders, Reached(inst, orders, live, n, b), out, b, execId)
      {
        var ord := orders[live[n]];
        var px := ToRawPx(inst, ord.px);
        var crossed := if side == Bid then OppPx(side, b) <= px else OppPx(side, b) >= px;
        assert crossed <==> Crossed(inst, ord, b);
        if crossed {
          var at := allocs + 3 * |staged|;
          if !ok(at) || !ok(at + 1) || !ok(at + 2) { return BadAlloc; }
          var fillQty := Min(ord.leaves, OppQty(side, b));
          var fill := Fill(live[n].clId, ord.engId, px, fillQty, ord.leaves - fillQty, execId + |staged|);
          staged := staged + [Staged(live[n], side, fill.leaves)];
          out := out + [Routed(live[n].session, fill)];
        }
      }
      r := Done((staged, out));
    }

    /** Nothing here can throw: assignments, and an index erase for each completed order. */
    method Commit(staged: seq<Staged>, b: Book)
      requires Indexes(liveBids, orders, Bid) && Indexes(liveAsks, orders, Ask)
      requires IsStaged(inst, orders, SweepKeys(inst, orders, b), staged, b)
      requires Distinct(SweepKeys(inst, orders, b))
      requires ValidInstrument(inst) && maxSessionEntries > 0 && Counts(entries, orders)
      requires Inv(inst, View().(orders := map k | k in orders :: AfterBook(inst, orders[k], b)))
      modifies this`orders, this`liveBids, this`liveAsks
      ensures Valid()
      ensures orders == map k | k in old(orders) :: AfterBook(inst, old(orders)[k], b)
    {
      ghost var ks := SweepKeys(inst, orders, b);
      for n := 0 to |staged|
        invariant CommittedUpTo(inst, orders, old(orders), ks, n, b)
        invariant Indexes(liveBids, orders, Bid) && Indexes(liveAsks, orders, Ask)
      {
        CommitOne(inst, orders, old(orders), ks, staged, n, b);
        ApplyFill(staged[n].key, staged[n].side, staged[n].leavesAfter);
      }
      assert ks[..|ks|] == ks;
      assert orders == map k | k in old(orders) :: AfterBook(inst, old(orders)[k], b);
      CountsAfterUpdate(entries, old(orders), orders);
    }

    method ApplyFill(key: Key, side: Side, leavesAfter: int)
      requires Indexes(liveBids, orders, Bid) && Indexes(liveAsks, orders, Ask)
      requires key in orders && orders[key].st == Live && orders[key].side == side
      modifies this`orders, this`liveBids, this`liveAsks
      ensures orders == Applied(old(orders), key, leavesAfter)
      ensures Indexes(liveBids, orders, Bid) && Indexes(liveAsks, orders, Ask)
    {
      orders := orders[key := orders[key].(leaves := leavesAfter)];
      assert LiveSet(orders, Bid) == LiveSet(old(orders), Bid);
      assert LiveSet(orders, Ask) == LiveSet(old(orders), Ask);
      if leavesAfter == 0 {
        orders := orders[key := orders[key].(st := Filled)];
        assert orders[key := orders[key].(st := Live)] == old(orders)[key := old(orders)[key].(leaves := leavesAfter)];
        IndexErase(side, key);
      }
    }

    /** Acks staged first; then the index ranges go before the map nodes they point into. */
    method EndSession(session: nat, ok: nat -> bool) returns (r: Outcome<seq<OutMsg>>)
      requires Valid()
      modifies this
      ensures Valid()
      ensures r.BadAlloc? ==> Untouched()
      ensures r.Done? ==> View() == EngineSpec.EndSession(old(View()), session).0
      ensures r.Done? ==> r.value == EngineSpec.EndSession(old(View()), session).1
      ensures (forall k :: ok(k)) ==> r.Done?
    {
      InvEndSession(inst, View(), session);
      r := StageAcks(session, ok);
      if r.BadAlloc? { return; }
      var lo, hi := SessionRange(liveBids, session);
      RangeIsSession(liveBids, session, lo, hi);
      var lo', hi' := SessionRange(liveAsks, session);
      RangeIsSession(liveAsks, session, lo', hi');
      assert forall k :: k in liveBids <==> k in SetOf(liveBids);
      assert forall k :: k in liveAsks <==> k in SetOf(liveAsks);
      liveBids := liveBids[..lo] + liveBids[hi..];
      liveAsks := liveAsks[..lo'] + liveAsks[hi'..];
      orders := map k | k in orders && k.session != session :: orders[k];
      assert SetOf(liveBids) == LiveSet(orders, Bid);
      assert SetOf(liveAsks) == LiveSet(orders, Ask);
      entries := entries - {session};
      CountsAfterReap(old(entries), old(orders), session);
    }

    /** A walk over the session's whole range of the map, one ack for each order still live. */
    method StageAcks(session: nat, ok: nat -> bool) returns (r: Outcome<seq<OutMsg>>)
      requires Valid()
      ensures r.Done? ==> r.value == EngineSpec.EndSession(View(), session).1
      ensures (forall k :: ok(k)) ==> r.Done?
    {
      var all := MapWalk(orders.Keys);
      var lo, hi := SessionRange(all, session);
      RangeIsSession(all, session, lo, hi);
      var range := all[lo..hi];
      ghost var acked: seq<Key> := [];
      var out: seq<OutMsg> := [];
      for n := 0 to |range|
        invariant LiveAmong(orders, range, n) == acked
        invariant |out| == |acked|
        invariant forall i :: 0 <= i < |out| ==>
                acked[i] in orders &&
                out[i] == CancelAck(acked[i].clId, orders[acked[i]].engId)
      {
        var k := range[n];
        assert k in SetOf(range);
        if orders[k].st == Live {
          if !ok(|out|) { return BadAlloc; }
          out := out + [CancelAck(k.clId, orders[k].engId)];
          acked := acked + [k];
        }
      }
      LiveAmongIsLiveOf(orders, session, all, range, acked);
      r := Done(out);
    }
  }

  /** The constructor's own refusals. */
  method MakeEngine(inst: Instrument, maxSessionEntries: nat) returns (r: OrderEngine?)
    ensures r == null <==> !ValidInstrument(inst) || maxSessionEntries == 0
    ensures r != null ==> fresh(r) && r.Valid() && r.View() == INITIAL && r.inst == inst
  {
    if !ValidInstrument(inst) || maxSessionEntries == 0 { return null; }
    r := new OrderEngine(inst, maxSessionEntries);
  }

  // --- what the sweep and the reap rest on -------------------------------------------------

  ghost predicate Distinct(ks: seq<Key>) { forall i, j :: 0 <= i < j < |ks| ==> ks[i] != ks[j] }

  lemma SweepKeysDistinct(inst: Instrument, orders: map<Key, Order>, b: Book)
    ensures Distinct(SweepKeys(inst, orders, b))
  {
    var bids, asks := CrossedKeys(inst, orders, Bid, b), CrossedKeys(inst, orders, Ask, b);
    SortedDistinct(bids);
    SortedDistinct(asks);
    forall i, j | 0 <= i < |bids| && 0 <= j < |asks| ensures bids[i] != asks[j] {
      assert bids[i] in SetOf(bids) && asks[j] in SetOf(asks);
    }
  }

  ghost predicate IsStaged(inst: Instrument, orders: map<Key, Order>, ks: seq<Key>, staged: seq<Staged>, b: Book) {
    && |staged| == |ks|
    && forall i :: 0 <= i < |ks| ==>
         && ks[i] in orders && Crossed(inst, orders[ks[i]], b)
         && staged[i] == Staged(ks[i], orders[ks[i]].side, AfterBook(inst, orders[ks[i]], b).leaves)
  }

  ghost predicate IsReported(inst: Instrument, orders: map<Key, Order>, ks: seq<Key>, out: seq<Routed>, b: Book, execId: nat) {
    && |out| == |ks|
    && forall i :: 0 <= i < |ks| ==> ks[i] in orders && out[i] == FillFor(inst, ks[i], orders[ks[i]], b, execId + i)
  }

  lemma JoinStaged(inst: Instrument, orders: map<Key, Order>, bids: seq<Key>, asks: seq<Key>,
                   bidStaged: seq<Staged>, askStaged: seq<Staged>, b: Book)
    requires IsStaged(inst, orders, bids, bidStaged, b) && IsStaged(inst, orders, asks, askStaged, b)
    ensures IsStaged(inst, orders, bids + asks, bidStaged + askStaged, b)
  {
    hide Crossed, AfterBook;
  }

  lemma JoinReported(inst: Instrument, orders: map<Key, Order>, bids: seq<Key>, asks: seq<Key>,
                     bidOut: seq<Routed>, askOut: seq<Routed>, b: Book, execId: nat)
    requires forall k :: k in bids + asks ==> k in orders
    requires IsReported(inst, orders, bids, bidOut, b, execId)
    requires IsReported(inst, orders, asks, askOut, b, execId + |bids|)
    ensures bidOut + askOut == FillsFor(inst, orders, bids + asks, b, execId)
  {
    hide FillFor;
  }

  /** Bids then asks, numbered on from one another, are the sweep the reference reports. */
  lemma JoinSides(inst: Instrument, orders: map<Key, Order>, bidStaged: seq<Staged>, askStaged: seq<Staged>,
                  bidOut: seq<Routed>, askOut: seq<Routed>, b: Book, execId: nat)
    requires IsStaged(inst, orders, CrossedKeys(inst, orders, Bid, b), bidStaged, b)
    requires IsStaged(inst, orders, CrossedKeys(inst, orders, Ask, b), askStaged, b)
    requires IsReported(inst, orders, CrossedKeys(inst, orders, Bid, b), bidOut, b, execId)
    requires IsReported(inst, orders, CrossedKeys(inst, orders, Ask, b), askOut, b, execId + |bidStaged|)
    ensures IsStaged(inst, orders, SweepKeys(inst, orders, b), bidStaged + askStaged, b)
    ensures bidOut + askOut == FillsFor(inst, orders, SweepKeys(inst, orders, b), b, execId)
    ensures Distinct(SweepKeys(inst, orders, b))
  {
    hide FillFor, Crossed, AfterBook, IsReported, KeysInOrder, CrossedKeys, FillsFor, Distinct;
    var bids, asks := CrossedKeys(inst, orders, Bid, b), CrossedKeys(inst, orders, Ask, b);
    SweepKeysDistinct(inst, orders, b);
    JoinStaged(inst, orders, bids, asks, bidStaged, askStaged, b);
    JoinReported(inst, orders, bids, asks, bidOut, askOut, b, execId);
  }

  function Applied(orders: map<Key, Order>, key: Key, leavesAfter: int): map<Key, Order>
    requires key in orders
  {
    orders[key := orders[key].(leaves := leavesAfter, st := if leavesAfter == 0 then Filled else Live)]
  }

  lemma CommitOne(inst: Instrument, now: map<Key, Order>, before: map<Key, Order>, ks: seq<Key>, staged: seq<Staged>,
      n: nat, b: Book)
    requires IsStaged(inst, before, ks, staged, b) && Distinct(ks) && n < |ks|
    requires CommittedUpTo(inst, now, before, ks, n, b)
    ensures ks[n] in now && now[ks[n]] == before[ks[n]]
    ensures CommittedUpTo(inst, Applied(now, staged[n].key, staged[n].leavesAfter), before, ks, n + 1, b)
  {
    assert ks[n] !in ks[..n];
    assert ks[..n + 1] == ks[..n] + [ks[n]];
  }

  lemma {:induction false} ReachedNone(inst: Instrument, orders: map<Key, Order>, live: seq<Key>, n: nat, b: Book)
    requires n <= |live| && forall k :: k in live ==> k in orders && !Crossed(inst, orders[k], b)
    ensures Reached(inst, orders, live, n, b) == []
  {
    if n > 0 { ReachedNone(inst, orders, live, n - 1, b); }
  }

  lemma CountsAfterReap(entries: map<nat, nat>, orders: map<Key, Order>, session: nat)
    requires Counts(entries, orders)
    ensures Counts(entries - {session}, map k | k in orders && k.session != session :: orders[k])
  {
    var left := map k | k in orders && k.session != session :: orders[k];
    forall e: nat
      ensures EntriesOf(left, e) == if e == session then {} else EntriesOf(orders, e)
    {
    }
  }

  ghost function LiveAmong(orders: map<Key, Order>, ks: seq<Key>, n: nat): seq<Key>
    requires n <= |ks|
  {
    if n == 0 then []
    else LiveAmong(orders, ks, n - 1) + if ks[n - 1] in orders && orders[ks[n - 1]].st == Live then [ks[n - 1]] else []
  }

  lemma {:induction false} LiveAmongInOrder(orders: map<Key, Order>, ks: seq<Key>, n: nat)
    requires n <= |ks| && Sorted(ks)
    ensures Sorted(LiveAmong(orders, ks, n))
    ensures forall k :: k in LiveAmong(orders, ks, n) <==> k in ks[..n] && k in orders && orders[k].st == Live
  {
    if n > 0 {
      LiveAmongInOrder(orders, ks, n - 1);
      assert ks[..n] == ks[..n - 1] + [ks[n - 1]];
      var before := LiveAmong(orders, ks, n - 1);
      forall i | 0 <= i < |before| ensures KeyLess(before[i], ks[n - 1]) {
        assert before[i] in ks[..n - 1];
      }
    }
  }

  lemma LiveAmongIsLiveOf(orders: map<Key, Order>, session: nat, all: seq<Key>, range: seq<Key>, acked: seq<Key>)
    requires SetOf(all) == orders.Keys && Sorted(range)
    requires SetOf(range) == set k | k in all && k.session == session
    requires acked == LiveAmong(orders, range, |range|)
    ensures acked == KeysInOrder(LiveOf(orders, session))
  {
    LiveAmongInOrder(orders, range, |range|);
    assert range[..|range|] == range;
    assert forall k :: k in range <==> k in SetOf(range);
    assert forall k :: k in all <==> k in SetOf(all);
    assert SetOf(acked) == LiveOf(orders, session);
    SortedUnique(acked, KeysInOrder(LiveOf(orders, session)));
  }
}
