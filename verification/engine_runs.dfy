/** Whole runs of the engine: any interleaving of commands, books and closes, for any number of
    sessions. Every order's reports are watched by a monitor that accepts one life per order, and a
    session's reports are shown to depend on nobody else. */
module EngineRuns {
  import opened Text
  import opened Protocol
  import opened EngineSpec

  datatype Cmd =
    | New(session: nat, order: InMsg)
    | Cancel(session: nat, clId: string)
    | Quote(book: Book)
    | End(session: nat)

  predicate WellFormed(cmds: seq<Cmd>) {
    forall c :: c in cmds ==> c.New? ==> c.order.NewOrder?
  }

  function To(session: nat, msgs: seq<OutMsg>): seq<Routed> {
    seq(|msgs|, i requires 0 <= i < |msgs| => Routed(session, msgs[i]))
  }

  ghost function Step(inst: Instrument, s: State, c: Cmd): (State, seq<Routed>)
    requires ValidInstrument(inst) && (c.New? ==> c.order.NewOrder?)
  {
    match c
    case New(e, o) => var r := OnNew(inst, s, e, o); (r.0, To(e, [r.1]))
    case Cancel(e, id) => var r := OnCancel(s, e, id); (r.0, To(e, [r.1]))
    case Quote(b) => OnBook(inst, s, b)
    case End(e) => var r := EndSession(s, e); (r.0, To(e, r.1))
  }

  ghost function After(inst: Instrument, cmds: seq<Cmd>): State
    requires ValidInstrument(inst) && WellFormed(cmds)
  {
    if cmds == [] then INITIAL
    else Step(inst, After(inst, cmds[..|cmds| - 1]), cmds[|cmds| - 1]).0
  }

  /** Everything the engine returned over a run, in order. */
  ghost function Reports(inst: Instrument, cmds: seq<Cmd>): seq<Routed>
    requires ValidInstrument(inst) && WellFormed(cmds)
  {
    if cmds == [] then []
    else
      var before := cmds[..|cmds| - 1];
      Reports(inst, before) + Step(inst, After(inst, before), cmds[|cmds| - 1]).1
  }

  lemma RunSnoc(inst: Instrument, before: seq<Cmd>, c: Cmd)
    requires ValidInstrument(inst) && WellFormed(before) && (c.New? ==> c.order.NewOrder?)
    ensures WellFormed(before + [c])
    ensures After(inst, before + [c]) == Step(inst, After(inst, before), c).0
    ensures Reports(inst, before + [c]) == Reports(inst, before) + Step(inst, After(inst, before), c).1
  {
    assert (before + [c])[..|before|] == before;
  }

  lemma {:induction false} InvAlways(inst: Instrument, cmds: seq<Cmd>)
    requires ValidInstrument(inst) && WellFormed(cmds)
    ensures Inv(inst, After(inst, cmds))
  {
    if cmds == [] {
      InvInitial(inst);
    } else {
      var before := cmds[..|cmds| - 1];
      InvAlways(inst, before);
      InvStep(inst, After(inst, before), cmds[|cmds| - 1]);
    }
  }

  lemma InvStep(inst: Instrument, s: State, c: Cmd)
    requires ValidInstrument(inst) && (c.New? ==> c.order.NewOrder?) && Inv(inst, s)
    ensures Inv(inst, Step(inst, s, c).0)
  {
    match c
    case New(e, o) => InvOnNew(inst, s, e, o);
    case Cancel(e, id) => InvOnCancel(inst, s, e, id);
    case Quote(b) => InvOnBook(inst, s, b);
    case End(e) => InvEndSession(inst, s, e);
  }

  // --- one life per order ------------------------------------------------------------------

  /** What an observer of one (session, cl_id) has seen since the session began. */
  datatype Phase =
    | Unused
    | Refused
    | Resting(engId: nat, px: int, accepted: int, filled: int, leaves: int)
    | Over(accepted: int, filled: int, leaves: int)
    | Violation

  function ClIdOf(msg: OutMsg): string { if msg.Tob? then "" else msg.clId }

  predicate About(r: Routed, key: Key) { r.session == key.session && !r.msg.Tob? && ClIdOf(r.msg) == key.clId }

  /** One ack, then fills at the price asked for, each taking its quantity off what was left, until
      nothing is left or a cancel; after that, and after a refusal, nothing but rejects. */
  function Observe(p: Phase, c: Cmd, msg: OutMsg): Phase {
    match msg
    case OrderAck(_, engId) =>
      if p.Unused? && c.New? && c.order.NewOrder? then Resting(engId, c.order.px, c.order.qty, 0, c.order.qty) else Violation
    case Fill(_, engId, px, qty, leaves, _) =>
      if p.Resting? && engId == p.engId && px == p.px && qty > 0 && leaves >= 0 && leaves == p.leaves - qty then
        if leaves == 0 then Over(p.accepted, p.filled + qty, 0)
        else Resting(engId, px, p.accepted, p.filled + qty, leaves)
      else Violation
    case CancelAck(_, engId) =>
      if p.Resting? && engId == p.engId then Over(p.accepted, p.filled, p.leaves) else Violation
    case Reject(_, code, _) =>
      if p.Unused? && c.New? then Refused
      else if p.Unused? && code != UnknownClOrdId then Violation
      else if !p.Unused? && code == UnknownClOrdId then Violation
      else p
    case Tob(_, _, _, _, _, _) => p
  }

  function ObserveAll(p: Phase, c: Cmd, out: seq<Routed>, key: Key): Phase {
    if out == [] then p
    else
      var q := ObserveAll(p, c, out[..|out| - 1], key);
      if About(out[|out| - 1], key) then Observe(q, c, out[|out| - 1].msg) else q
  }

  ghost function Watch(inst: Instrument, cmds: seq<Cmd>, key: Key): Phase
    requires ValidInstrument(inst) && WellFormed(cmds)
  {
    if cmds == [] then Unused
    else
      var before, c := cmds[..|cmds| - 1], cmds[|cmds| - 1];
      var p := ObserveAll(Watch(inst, before, key), c, Step(inst, After(inst, before), c).1, key);
      if c == End(key.session) && p != Violation then Unused else p
  }

  /** The observer's picture of an order is the engine's own. */
  ghost predicate Agrees(inst: Instrument, p: Phase, s: State, key: Key) {
    if key !in s.orders then p == Unused
    else
      var ord := s.orders[key];
      match ord.st
      case Live =>
        && p.Resting? && p.engId == ord.engId && p.px == ToRawPx(inst, ord.px)
        && p.leaves == ord.leaves > 0 && p.accepted == p.filled + ord.leaves
      case Rejected => p == Refused
      case _ => p.Over? && p.accepted == p.filled + p.leaves && (ord.st == Filled ==> p.leaves == 0)
  }

  lemma {:induction false} ObserveNone(p: Phase, c: Cmd, out: seq<Routed>, key: Key)
    requires forall r :: r in out ==> !About(r, key)
    ensures ObserveAll(p, c, out, key) == p
  {
    if out != [] { ObserveNone(p, c, out[..|out| - 1], key); }
  }

  lemma {:induction false} ObserveOne(p: Phase, c: Cmd, out: seq<Routed>, key: Key, i: nat)
    requires i < |out| && About(out[i], key)
    requires forall j :: 0 <= j < |out| && j != i ==> !About(out[j], key)
    ensures ObserveAll(p, c, out, key) == Observe(p, c, out[i].msg)
  {
    if i == |out| - 1 {
      ObserveNone(p, c, out[..|out| - 1], key);
    } else {
      ObserveOne(p, c, out[..|out| - 1], key, i);
    }
  }

  /** Where a key stands. */
  function Position(ks: seq<Key>, key: Key): (i: nat)
    requires key in ks
    ensures i < |ks| && ks[i] == key
  {
    if ks[0] == key then 0 else 1 + Position(ks[1..], key)
  }

  /** Each order swept is seen to be filled exactly once, under its number in the sweep; any other sees nothing. */
  lemma FillsSeenBy(inst: Instrument, p: Phase, orders: map<Key, Order>, ks: seq<Key>, b: Book, execId: nat, key: Key)
    requires forall k :: k in ks ==> k in orders
    requires forall i, j :: 0 <= i < j < |ks| ==> ks[i] != ks[j]
    ensures ObserveAll(p, Quote(b), FillsFor(inst, orders, ks, b, execId), key) ==
            if key !in ks then p
            else Observe(p, Quote(b), FillFor(inst, key, orders[key], b, execId + Position(ks, key)).msg)
  {
    var out := FillsFor(inst, orders, ks, b, execId);
    if key in ks {
      var at := Position(ks, key);
      forall j | 0 <= j < |out| && j != at ensures !About(out[j], key) {
        assert ks[j] != key;
      }
      ObserveOne(p, Quote(b), out, key, at);
    } else {
      forall r | r in out ensures !About(r, key) {
        var j :| 0 <= j < |out| && out[j] == r;
        assert ks[j] in ks;
      }
      ObserveNone(p, Quote(b), out, key);
    }
  }

  lemma AgreesAfterFill(inst: Instrument, p: Phase, s: State, b: Book, key: Key, execId: nat)
    requires Agrees(inst, p, s, key) && key in s.orders && Crossed(inst, s.orders[key], b)
    ensures var t := s.(orders := s.orders[key := AfterBook(inst, s.orders[key], b)]);
            Agrees(inst, Observe(p, Quote(b), FillFor(inst, key, s.orders[key], b, execId).msg), t, key)
  {
  }

  lemma AgreesAfterQuote(inst: Instrument, p: Phase, s: State, b: Book, key: Key)
    requires Agrees(inst, p, s, key)
    ensures Agrees(inst, ObserveAll(p, Quote(b), OnBook(inst, s, b).1, key), OnBook(inst, s, b).0, key)
  {
    hide FillFor, FillsFor, Observe, KeysInOrder, Position;
    if !(s.bookSeen && b.mdSeq <= s.book.mdSeq) {
      SweepOnce(inst, s.orders, b);
      var ks := SweepKeys(inst, s.orders, b);
      FillsSeenBy(inst, p, s.orders, ks, b, s.nextExecId, key);
      if key in ks {
        AgreesAfterFill(inst, p, s, b, key, s.nextExecId + Position(ks, key));
      }
    }
  }

  lemma SweepOnce(inst: Instrument, orders: map<Key, Order>, b: Book)
    ensures forall i, j :: 0 <= i < j < |SweepKeys(inst, orders, b)| ==>
            SweepKeys(inst, orders, b)[i] != SweepKeys(inst, orders, b)[j]
  {
    var bids, asks := CrossedKeys(inst, orders, Bid, b), CrossedKeys(inst, orders, Ask, b);
    SortedDistinct(bids);
    SortedDistinct(asks);
    forall i, j | 0 <= i < |bids| && 0 <= j < |asks| ensures bids[i] != asks[j] {
      assert bids[i] in SetOf(bids) && asks[j] in SetOf(asks);
    }
  }

  lemma AgreesAfterEnd(inst: Instrument, p: Phase, s: State, e: nat, key: Key)
    requires Agrees(inst, p, s, key)
    ensures var q := ObserveAll(p, End(e), To(e, EndSession(s, e).1), key);
            q != Violation && (e != key.session ==> q == p)
  {
    var ks := KeysInOrder(LiveOf(s.orders, e));
    assert forall k :: k in ks <==> k in SetOf(ks);
    SortedDistinct(ks);
    var out := To(e, EndSession(s, e).1);
    if key in ks {
      var i :| 0 <= i < |ks| && ks[i] == key;
      forall j | 0 <= j < |out| && j != i ensures !About(out[j], key) {
        assert ks[j] != key && ks[j] in ks;
      }
      ObserveOne(p, End(e), out, key, i);
    } else {
      forall r | r in out ensures !About(r, key) {
        var j :| 0 <= j < |out| && out[j] == r;
        assert ks[j] in ks;
      }
      ObserveNone(p, End(e), out, key);
    }
  }

  lemma AgreesAfterNew(inst: Instrument, p: Phase, s: State, e: nat, o: InMsg, key: Key)
    requires ValidInstrument(inst) && o.NewOrder? && Agrees(inst, p, s, key)
    ensures Agrees(inst, ObserveAll(p, New(e, o), Step(inst, s, New(e, o)).1, key), Step(inst, s, New(e, o)).0, key)
  {
    var (t, out) := Step(inst, s, New(e, o));
    if key == Key(e, o.clId) {
      ObserveOne(p, New(e, o), out, key, 0);
      if out[0].msg.OrderAck? {
        TickRoundTrip(inst, o.symbol, o.side, o.px, o.qty);
      }
    } else {
      ObserveNone(p, New(e, o), out, key);
    }
  }

  lemma AgreesAfterCancel(inst: Instrument, p: Phase, s: State, e: nat, id: string, key: Key)
    requires ValidInstrument(inst) && Agrees(inst, p, s, key)
    ensures Agrees(inst, ObserveAll(p, Cancel(e, id), Step(inst, s, Cancel(e, id)).1, key), Step(inst, s, Cancel(e, id)).0, key)
  {
    var (t, out) := Step(inst, s, Cancel(e, id));
    if key == Key(e, id) {
      ObserveOne(p, Cancel(e, id), out, key, 0);
    } else {
      ObserveNone(p, Cancel(e, id), out, key);
    }
  }

  /** Over every run, no order is acked twice, filled after its end, filled at another price or for
      more than was left; what was accepted is always what was filled plus what is left. */
  lemma {:induction false} OneLifePerOrder(inst: Instrument, cmds: seq<Cmd>, key: Key)
    requires ValidInstrument(inst) && WellFormed(cmds)
    ensures Watch(inst, cmds, key) != Violation
    ensures Agrees(inst, Watch(inst, cmds, key), After(inst, cmds), key)
  {
    if cmds != [] {
      var before, c := cmds[..|cmds| - 1], cmds[|cmds| - 1];
      OneLifePerOrder(inst, before, key);
      var p, s := Watch(inst, before, key), After(inst, before);
      match c
      case New(e, o) => AgreesAfterNew(inst, p, s, e, o, key);
      case Cancel(e, id) => AgreesAfterCancel(inst, p, s, e, id, key);
      case Quote(b) => AgreesAfterQuote(inst, p, s, b, key);
      case End(e) => AgreesAfterEnd(inst, p, s, e, key);
    }
  }

  // --- identifiers -------------------------------------------------------------------------

  function AckIds(out: seq<Routed>): seq<nat> {
    if out == [] then []
    else AckIds(out[..|out| - 1]) + if out[|out| - 1].msg.OrderAck? then [out[|out| - 1].msg.engId] else []
  }

  function ExecIds(out: seq<Routed>): seq<nat> {
    if out == [] then []
    else ExecIds(out[..|out| - 1]) + if out[|out| - 1].msg.Fill? then [out[|out| - 1].msg.execId] else []
  }

  function Upto(n: nat): seq<nat> { seq(n, i => i + 1) }

  lemma {:induction false} IdsAppend(a: seq<Routed>, b: seq<Routed>)
    ensures AckIds(a + b) == AckIds(a) + AckIds(b)
    ensures ExecIds(a + b) == ExecIds(a) + ExecIds(b)
  {
    if b == [] {
      assert a + b == a;
    } else {
      var b' := b[..|b| - 1];
      assert b == b' + [b[|b| - 1]];
      IdsAppend(a, b');
      assert (a + b)[..|a + b| - 1] == a + b';
    }
  }

  lemma {:induction false} NoIds(out: seq<Routed>)
    requires forall r :: r in out ==> !r.msg.OrderAck?
    ensures AckIds(out) == []
    ensures (forall r :: r in out ==> !r.msg.Fill?) ==> ExecIds(out) == []
  {
    if out != [] { NoIds(out[..|out| - 1]); }
  }

  lemma {:induction false} ExecIdsInRow(out: seq<Routed>, first: nat)
    requires forall i :: 0 <= i < |out| ==> out[i].msg.Fill? && out[i].msg.execId == first + i
    ensures ExecIds(out) == seq(|out|, i => first + i)
  {
    if out != [] { ExecIdsInRow(out[..|out| - 1], first); }
  }

  lemma UptoGrows(n: nat, k: nat)
    ensures Upto(n + k) == Upto(n) + seq(k, i => n + 1 + i)
  {
  }

  lemma IdsOfQuote(inst: Instrument, s: State, b: Book)
    requires s.nextExecId > 0
    ensures var (t, out) := OnBook(inst, s, b);
            && t.nextEngId == s.nextEngId && t.nextExecId >= s.nextExecId && AckIds(out) == []
            && Upto(t.nextExecId - 1) == Upto(s.nextExecId - 1) + ExecIds(out)
  {
    hide SweepKeys, AfterBook, Upto, AckIds, ExecIds;
    var (t, out) := OnBook(inst, s, b);
    NoIds(out);
    ExecIdsInRow(out, s.nextExecId);
    UptoGrows(s.nextExecId - 1, |out|);
  }

  lemma IdsOfStep(inst: Instrument, s: State, c: Cmd)
    requires ValidInstrument(inst) && (c.New? ==> c.order.NewOrder?) && s.nextEngId > 0 && s.nextExecId > 0
    ensures var (t, out) := Step(inst, s, c);
            && t.nextEngId > 0 && t.nextExecId > 0
            && Upto(t.nextEngId - 1) == Upto(s.nextEngId - 1) + AckIds(out)
            && Upto(t.nextExecId - 1) == Upto(s.nextExecId - 1) + ExecIds(out)
  {
    hide OnBook, KeysInOrder, Accepted;
    var (t, out) := Step(inst, s, c);
    match c
    case New(_, _) =>
      assert out[..0] == [];
      if !out[0].msg.OrderAck? { NoIds(out); }
    case Quote(b) => IdsOfQuote(inst, s, b);
    case _ => NoIds(out);
  }

  /** Acks carry 1, 2, 3, ... and fills carry 1, 2, 3, ..., whoever they go to. */
  lemma {:induction false} IdsNeverGap(inst: Instrument, cmds: seq<Cmd>)
    requires ValidInstrument(inst) && WellFormed(cmds)
    ensures After(inst, cmds).nextEngId > 0 && After(inst, cmds).nextExecId > 0
    ensures AckIds(Reports(inst, cmds)) == Upto(After(inst, cmds).nextEngId - 1)
    ensures ExecIds(Reports(inst, cmds)) == Upto(After(inst, cmds).nextExecId - 1)
  {
    hide Step;
    if cmds != [] {
      var before, c := cmds[..|cmds| - 1], cmds[|cmds| - 1];
      IdsNeverGap(inst, before);
      RunSnoc(inst, before, c);
      assert cmds == before + [c];
      IdsAppend(Reports(inst, before), Step(inst, After(inst, before), c).1);
      IdsOfStep(inst, After(inst, before), c);
    }
  }

  // --- sessions do not see each other ------------------------------------------------------

  /** A report without the two engine-wide counters. */
  function Erase(msg: OutMsg): OutMsg {
    match msg
    case OrderAck(id, _) => OrderAck(id, 0)
    case CancelAck(id, _) => CancelAck(id, 0)
    case Fill(id, _, px, qty, leaves, _) => Fill(id, 0, px, qty, leaves, 0)
    case _ => msg
  }

  function Received(out: seq<Routed>, me: nat): seq<OutMsg> {
    if out == [] then []
    else Received(out[..|out| - 1], me) + if out[|out| - 1].session == me then [Erase(out[|out| - 1].msg)] else []
  }

  predicate Concerns(c: Cmd, me: nat) {
    c.Quote? || c.session == me
  }

  /** The run with every other session's commands and closes deleted. */
  function Alone(cmds: seq<Cmd>, me: nat): (r: seq<Cmd>)
    ensures WellFormed(cmds) ==> WellFormed(r)
  {
    if cmds == [] then []
    else Alone(cmds[..|cmds| - 1], me) + if Concerns(cmds[|cmds| - 1], me) then [cmds[|cmds| - 1]] else []
  }

  function Anonymous(ord: Order): Order { ord.(engId := 0) }

  /** Two engines that one session cannot tell apart. */
  ghost predicate SameFor(s: State, t: State, me: nat) {
    && s.book == t.book && s.bookSeen == t.bookSeen
    && forall id: string :: var k := Key(me, id);
         && (k in s.orders <==> k in t.orders)
         && (k in s.orders ==> Anonymous(s.orders[k]) == Anonymous(t.orders[k]))
  }

  lemma {:induction false} ReceivedAppend(a: seq<Routed>, b: seq<Routed>, me: nat)
    ensures Received(a + b, me) == Received(a, me) + Received(b, me)
  {
    if b == [] {
      assert a + b == a;
    } else {
      var b' := b[..|b| - 1];
      ReceivedAppend(a, b', me);
      assert (a + b)[..|a + b| - 1] == a + b';
    }
  }

  lemma {:induction false} ReceivedNothing(out: seq<Routed>, me: nat)
    requires forall r :: r in out ==> r.session != me
    ensures Received(out, me) == []
  {
    if out != [] { ReceivedNothing(out[..|out| - 1], me); }
  }

  lemma {:induction false} ReceivedSame(a: seq<Routed>, b: seq<Routed>, me: nat)
    requires |a| == |b| && forall i :: 0 <= i < |a| ==> a[i].session == b[i].session == me && Erase(a[i].msg) == Erase(b[i].msg)
    ensures Received(a, me) == Received(b, me)
  {
    if a != [] { ReceivedSame(a[..|a| - 1], b[..|b| - 1], me); }
  }

  function MyKeys(ks: seq<Key>, me: nat): seq<Key> {
    if ks == [] then [] else MyKeys(ks[..|ks| - 1], me) + if ks[|ks| - 1].session == me then [ks[|ks| - 1]] else []
  }

  lemma {:induction false} MyKeysAre(ks: seq<Key>, me: nat)
    ensures forall k :: k in MyKeys(ks, me) <==> k in ks && k.session == me
    ensures Sorted(ks) ==> Sorted(MyKeys(ks, me))
  {
    if ks != [] {
      var ks' := ks[..|ks| - 1];
      MyKeysAre(ks', me);
      assert ks == ks' + [ks[|ks| - 1]];
      var mine := MyKeys(ks', me);
      if Sorted(ks) {
        forall i | 0 <= i < |mine| ensures KeyLess(mine[i], ks[|ks| - 1]) {
          assert mine[i] in ks';
        }
      }
    }
  }

  lemma {:induction false} MyKeysAppend(a: seq<Key>, b: seq<Key>, me: nat)
    ensures MyKeys(a + b, me) == MyKeys(a, me) + MyKeys(b, me)
  {
    if b == [] {
      assert a + b == a;
    } else {
      MyKeysAppend(a, b[..|b| - 1], me);
      assert (a + b)[..|a + b| - 1] == a + b[..|b| - 1];
    }
  }

  /** A fill as its session sees it, whatever number it was given. */
  function Seen(inst: Instrument, orders: map<Key, Order>, k: Key, b: Book): OutMsg
    requires k in orders
  {
    Erase(FillFor(inst, k, orders[k], b, 0).msg)
  }

  /** A session's fills, read off the orders it owns. */
  lemma {:induction false} ReceivedFills(inst: Instrument, orders: map<Key, Order>, ks: seq<Key>, b: Book, execId: nat, me: nat)
    requires forall k :: k in ks ==> k in orders
    ensures forall k :: k in MyKeys(ks, me) ==> k in ks
    ensures var mine := MyKeys(ks, me);
            Received(FillsFor(inst, orders, ks, b, execId), me) ==
            seq(|mine|, i requires 0 <= i < |mine| => Seen(inst, orders, mine[i], b))
  {
    hide Seen, FillFor, Erase, Sorted;
    MyKeysAre(ks, me);
    if ks != [] {
      var ks', n := ks[..|ks| - 1], |ks| - 1;
      ReceivedFills(inst, orders, ks', b, execId, me);
      var out := FillsFor(inst, orders, ks, b, execId);
      assert out[..n] == FillsFor(inst, orders, ks', b, execId);
      assert out[n].session == ks[n].session && Erase(out[n].msg) == Seen(inst, orders, ks[n], b) by {
        SeenIs(inst, orders, ks[n], b, execId + n);
      }
    }
  }

  lemma SeenIs(inst: Instrument, orders: map<Key, Order>, k: Key, b: Book, execId: nat)
    requires k in orders
    ensures FillFor(inst, k, orders[k], b, execId).session == k.session
    ensures Erase(FillFor(inst, k, orders[k], b, execId).msg) == Seen(inst, orders, k, b)
  {
  }

  lemma SameCrossed(inst: Instrument, s: State, t: State, side: Side, b: Book, me: nat)
    requires SameFor(s, t, me)
    ensures MyKeys(CrossedKeys(inst, s.orders, side, b), me) == MyKeys(CrossedKeys(inst, t.orders, side, b), me)
  {
    var ks, kt := CrossedKeys(inst, s.orders, side, b), CrossedKeys(inst, t.orders, side, b);
    MyKeysAre(ks, me);
    MyKeysAre(kt, me);
    assert forall k :: k in ks <==> k in SetOf(ks);
    assert forall k :: k in kt <==> k in SetOf(kt);
    forall k ensures k in MyKeys(ks, me) <==> k in MyKeys(kt, me) {
      if k.session == me { assert k == Key(me, k.clId); SameOrder(s, t, me, k.clId); }
    }
    assert SetOf(MyKeys(ks, me)) == SetOf(MyKeys(kt, me));
    SortedUnique(MyKeys(ks, me), MyKeys(kt, me));
  }

  lemma SameOrder(s: State, t: State, me: nat, id: string)
    requires SameFor(s, t, me)
    ensures Key(me, id) in s.orders <==> Key(me, id) in t.orders
    ensures Key(me, id) in s.orders ==> Anonymous(s.orders[Key(me, id)]) == Anonymous(t.orders[Key(me, id)])
  {
  }

  lemma SameSwept(inst: Instrument, s: State, t: State, b: Book, me: nat)
    requires SameFor(s, t, me)
    ensures MyKeys(SweepKeys(inst, s.orders, b), me) == MyKeys(SweepKeys(inst, t.orders, b), me)
  {
    SameCrossed(inst, s, t, Bid, b, me);
    SameCrossed(inst, s, t, Ask, b, me);
    MyKeysAppend(CrossedKeys(inst, s.orders, Bid, b), CrossedKeys(inst, s.orders, Ask, b), me);
    MyKeysAppend(CrossedKeys(inst, t.orders, Bid, b), CrossedKeys(inst, t.orders, Ask, b), me);
  }

  lemma SameFills(inst: Instrument, s: State, t: State, ks: seq<Key>, kt: seq<Key>, b: Book, me: nat)
    requires SameFor(s, t, me) && MyKeys(ks, me) == MyKeys(kt, me)
    requires (forall k :: k in ks ==> k in s.orders) && (forall k :: k in kt ==> k in t.orders)
    ensures Received(FillsFor(inst, s.orders, ks, b, s.nextExecId), me) ==
            Received(FillsFor(inst, t.orders, kt, b, t.nextExecId), me)
  {
    ReceivedFills(inst, s.orders, ks, b, s.nextExecId, me);
    ReceivedFills(inst, t.orders, kt, b, t.nextExecId, me);
    MyKeysAre(ks, me);
    var mine := MyKeys(ks, me);
    forall i | 0 <= i < |mine|
      ensures mine[i] in s.orders && mine[i] in t.orders
      ensures Seen(inst, s.orders, mine[i], b) == Seen(inst, t.orders, mine[i], b)
    {
      assert mine[i] in MyKeys(ks, me) && mine[i] in MyKeys(kt, me);
      SameOrder(s, t, me, mine[i].clId);
      assert mine[i] == Key(me, mine[i].clId);
    }
  }

  lemma SameAfterQuote(inst: Instrument, s: State, t: State, b: Book, me: nat)
    requires SameFor(s, t, me)
    ensures SameFor(OnBook(inst, s, b).0, OnBook(inst, t, b).0, me)
    ensures Received(OnBook(inst, s, b).1, me) == Received(OnBook(inst, t, b).1, me)
  {
    if !(s.bookSeen && b.mdSeq <= s.book.mdSeq) {
      SameSwept(inst, s, t, b, me);
      SameFills(inst, s, t, SweepKeys(inst, s.orders, b), SweepKeys(inst, t.orders, b), b, me);
      forall id: string ensures var k := Key(me, id);
        && (k in s.orders <==> k in t.orders)
        && (k in s.orders ==> Anonymous(AfterBook(inst, s.orders[k], b)) == Anonymous(AfterBook(inst, t.orders[k], b)))
      {
        SameOrder(s, t, me, id);
      }
    }
  }

  lemma SameLive(s: State, t: State, me: nat)
    requires SameFor(s, t, me)
    ensures LiveOf(s.orders, me) == LiveOf(t.orders, me)
  {
    forall k ensures k in LiveOf(s.orders, me) <==> k in LiveOf(t.orders, me) {
      if k.session == me { assert k == Key(me, k.clId); SameOrder(s, t, me, k.clId); }
    }
  }

  lemma SameAfterEnd(inst: Instrument, s: State, t: State, me: nat)
    requires ValidInstrument(inst) && SameFor(s, t, me)
    ensures SameFor(Step(inst, s, End(me)).0, Step(inst, t, End(me)).0, me)
    ensures Received(Step(inst, s, End(me)).1, me) == Received(Step(inst, t, End(me)).1, me)
  {
    SameLive(s, t, me);
    var ks := KeysInOrder(LiveOf(s.orders, me));
    assert forall k :: k in ks <==> k in SetOf(ks);
    forall i | 0 <= i < |ks|
      ensures ks[i] in s.orders && ks[i] in t.orders && Anonymous(s.orders[ks[i]]) == Anonymous(t.orders[ks[i]])
    {
      assert ks[i] in ks;
      SameOrder(s, t, me, ks[i].clId);
      assert ks[i] == Key(me, ks[i].clId);
    }
    ReceivedSame(Step(inst, s, End(me)).1, Step(inst, t, End(me)).1, me);
  }

  lemma SameVerdict(inst: Instrument, s: State, t: State, o: InMsg, me: nat)
    requires ValidInstrument(inst) && SameFor(s, t, me) && o.NewOrder?
    ensures EntryVerdict(inst, s, me, o) == EntryVerdict(inst, t, me, o)
  {
    SameLive(s, t, me);
  }

  lemma SameAfterNew(inst: Instrument, s: State, t: State, o: InMsg, me: nat)
    requires ValidInstrument(inst) && SameFor(s, t, me) && o.NewOrder?
    ensures SameFor(Step(inst, s, New(me, o)).0, Step(inst, t, New(me, o)).0, me)
    ensures Received(Step(inst, s, New(me, o)).1, me) == Received(Step(inst, t, New(me, o)).1, me)
  {
    hide OnBook, EndSession, LiveOf, Received, Reaches, ValidationReason;
    SameVerdict(inst, s, t, o, me);
    SameOrder(s, t, me, o.clId);
    ReceivedSame(Step(inst, s, New(me, o)).1, Step(inst, t, New(me, o)).1, me);
  }

  lemma SameAfterMine(inst: Instrument, s: State, t: State, c: Cmd, me: nat)
    requires ValidInstrument(inst) && SameFor(s, t, me) && Concerns(c, me) && (c.New? ==> c.order.NewOrder?)
    ensures SameFor(Step(inst, s, c).0, Step(inst, t, c).0, me)
    ensures Received(Step(inst, s, c).1, me) == Received(Step(inst, t, c).1, me)
  {
    hide OnBook, OnNew, EndSession, LiveOf;
    match c
    case Quote(b) => SameAfterQuote(inst, s, t, b, me);
    case New(_, o) => SameAfterNew(inst, s, t, o, me);
    case Cancel(_, id) =>
      SameOrder(s, t, me, id);
      ReceivedSame(Step(inst, s, c).1, Step(inst, t, c).1, me);
    case End(_) => SameAfterEnd(inst, s, t, me);
  }

  lemma UnseenByMe(inst: Instrument, s: State, c: Cmd, me: nat)
    requires ValidInstrument(inst) && !Concerns(c, me) && (c.New? ==> c.order.NewOrder?)
    ensures SameFor(s, Step(inst, s, c).0, me)
    ensures Received(Step(inst, s, c).1, me) == []
  {
    ReceivedNothing(Step(inst, s, c).1, me);
  }

  lemma SameTransitive(s: State, t: State, u: State, me: nat)
    requires SameFor(s, t, me) && SameFor(s, u, me)
    ensures SameFor(u, t, me)
  {
    forall id: string ensures var k := Key(me, id);
      && (k in u.orders <==> k in t.orders)
      && (k in u.orders ==> Anonymous(u.orders[k]) == Anonymous(t.orders[k]))
    {
      SameOrder(s, t, me, id);
      SameOrder(s, u, me, id);
    }
  }

  ghost predicate Indistinguishable(inst: Instrument, cmds: seq<Cmd>, others: seq<Cmd>, me: nat)
    requires ValidInstrument(inst) && WellFormed(cmds) && WellFormed(others)
  {
    && SameFor(After(inst, cmds), After(inst, others), me)
    && Received(Reports(inst, cmds), me) == Received(Reports(inst, others), me)
  }

  lemma ExtendBoth(inst: Instrument, cmds: seq<Cmd>, alone: seq<Cmd>, c: Cmd, me: nat)
    requires ValidInstrument(inst) && WellFormed(cmds) && WellFormed(alone) && (c.New? ==> c.order.NewOrder?)
    requires Indistinguishable(inst, cmds, alone, me) && Concerns(c, me)
    ensures WellFormed(cmds + [c]) && WellFormed(alone + [c]) && Indistinguishable(inst, cmds + [c], alone + [c], me)
  {
    RunSnoc(inst, cmds, c);
    RunSnoc(inst, alone, c);
    var s, t := After(inst, cmds), After(inst, alone);
    ReceivedAppend(Reports(inst, cmds), Step(inst, s, c).1, me);
    ReceivedAppend(Reports(inst, alone), Step(inst, t, c).1, me);
    SameAfterMine(inst, s, t, c, me);
  }

  lemma ExtendOne(inst: Instrument, cmds: seq<Cmd>, alone: seq<Cmd>, c: Cmd, me: nat)
    requires ValidInstrument(inst) && WellFormed(cmds) && WellFormed(alone) && (c.New? ==> c.order.NewOrder?)
    requires Indistinguishable(inst, cmds, alone, me) && !Concerns(c, me)
    ensures WellFormed(cmds + [c]) && Indistinguishable(inst, cmds + [c], alone, me)
  {
    RunSnoc(inst, cmds, c);
    var s := After(inst, cmds);
    ReceivedAppend(Reports(inst, cmds), Step(inst, s, c).1, me);
    UnseenByMe(inst, s, c, me);
    SameTransitive(s, After(inst, alone), Step(inst, s, c).0, me);
  }

  lemma {:induction false} IndistinguishableAlone(inst: Instrument, cmds: seq<Cmd>, me: nat)
    requires ValidInstrument(inst) && WellFormed(cmds)
    ensures Indistinguishable(inst, cmds, Alone(cmds, me), me)
  {
    if cmds == [] {
      assert Alone(cmds, me) == [];
    } else {
      var before, c := cmds[..|cmds| - 1], cmds[|cmds| - 1];
      IndistinguishableAlone(inst, before, me);
      assert cmds == before + [c];
      var alone := Alone(before, me);
      if Concerns(c, me) {
        ExtendBoth(inst, before, alone, c, me);
        assert Alone(cmds, me) == alone + [c];
      } else {
        ExtendOne(inst, before, alone, c, me);
        assert Alone(cmds, me) == alone;
      }
    }
  }

  /** A session receives, in a run shared with any others, exactly what it would have received alone. */
  lemma SessionsDoNotInterfere(inst: Instrument, cmds: seq<Cmd>, me: nat)
    requires ValidInstrument(inst) && WellFormed(cmds)
    ensures Received(Reports(inst, cmds), me) == Received(Reports(inst, Alone(cmds, me)), me)
  {
    IndistinguishableAlone(inst, cmds, me);
  }
}
