/** The telemetry ring and the drain that empties it, as the owner thread and the writer thread
    interleave: every load, slot copy and store is a step of its own, and a load of the other side's
    index may return any value since the last one seen (cpp/include/mm/telemetry_ring.hpp:136-296,
    cpp/include/mm/telemetry.hpp:242-307). */
module Ring {
  import opened Arith
  import opened Text

  // --- capacity and masking ----------------------------------------------------------------

  function Pow2(k: nat): (p: nat)
    ensures p > 0
  {
    if k == 0 then 1 else 2 * Pow2(k - 1)
  }

  /** Bitwise and, bit by bit. */
  function BitAnd(x: nat, y: nat): nat
    decreases x
  {
    if x == 0 || y == 0 then 0 else 2 * BitAnd(x / 2, y / 2) + if x % 2 == 1 && y % 2 == 1 then 1 else 0
  }

  /** Masking with one less than a power of two is the remainder by it. */
  lemma {:induction false} MaskIsMod(x: nat, k: nat)
    ensures BitAnd(x, Pow2(k) - 1) == x % Pow2(k)
    decreases k
  {
    if k > 0 {
      MaskIsMod(x / 2, k - 1);
      var p := Pow2(k - 1);
      assert (2 * p - 1) / 2 == p - 1 && (2 * p - 1) % 2 == 1;
      HalfMod(x, p);
      if x == 0 { assert 0 % Pow2(k) == 0; }
    }
  }

  lemma HalfMod(x: nat, p: nat)
    requires p > 0
    ensures x % (2 * p) == 2 * (x / 2 % p) + x % 2
  {
    var q, r := x / 2 / p, x / 2 % p;
    assert x / 2 == q * p + r;
    assert x == 2 * (x / 2) + x % 2;
    assert x == q * (2 * p) + (2 * r + x % 2) by { assert 2 * (q * p) == q * (2 * p); }
    ModUnique(x, 2 * p, q, 2 * r + x % 2);
  }

  /** std::bit_ceil. */
  function BitCeil(n: nat): (p: nat)
    requires n > 0
    ensures n <= p < 2 * n && exists k :: p == Pow2(k)
  {
    CeilFrom(n, 0)
  }

  function CeilFrom(n: nat, k: nat): (p: nat)
    requires n > 0 && Pow2(k) < 2 * n
    ensures n <= p < 2 * n && exists k' :: p == Pow2(k')
    decreases 2 * n - Pow2(k)
  {
    if Pow2(k) >= n then Pow2(k) else CeilFrom(n, k + 1)
  }

  const SIZE_MAX: nat := 0xFFFF_FFFF_FFFF_FFFF

  /** Zero, or too large to round up, is refused; anything else is rounded up to a power of two that
      size_t can hold. */
  method CheckedCapacity(minCapacity: nat) returns (capacity: Option<nat>)
    ensures capacity.None? <==> minCapacity == 0 || minCapacity > SIZE_MAX / 2 + 1
    ensures capacity.Some? ==>
              && minCapacity <= capacity.value < 2 * minCapacity && capacity.value <= SIZE_MAX
              && exists k :: capacity.value == Pow2(k)
  {
    if minCapacity == 0 || minCapacity > SIZE_MAX / 2 + 1 { return None; }
    return Some(BitCeil(minCapacity));
  }

  // --- the two threads ---------------------------------------------------------------------

  type Record = nat

  /** try_push: load tail, load head, then refuse, or copy the record in and publish it. */
  datatype Producer =
    | Idle
    | Checking(rec: Record)
    | Deciding(rec: Record, headSeen: nat)
    | Writing(rec: Record)
    | Written(rec: Record)

  /** drain: take a budget, then pop that many; each pop loads head and tail, copies a record out and
      frees the slot; a popped record is emitted, or counted lost. */
  datatype Consumer =
    | Parked
    | Looping(budget: nat)
    | Loaded(budget: nat, tailSeen: nat)
    | Reading(budget: nat)
    | Copied(budget: nat, rec: Record)
    | Popped(budget: nat, rec: Record)

  /** A slot half written holds nothing. `lastHeadSeen` and `lastTailSeen` are what coherence makes each
      side remember of the other's index. The histories below are for stating properties only. */
  datatype State = State(
    slots: seq<Option<Record>>, head: nat, tail: nat, dropped: nat,
    p: Producer, lastHeadSeen: nat, c: Consumer, lastTailSeen: nat, failed: bool, lost: nat,
    offered: nat, accepted: seq<Record>, popped: seq<Record>, emitted: seq<Record>,
    entry: nat, cutoff: nat)

  function Index(s: State, n: nat): nat
    requires |s.slots| > 0
  {
    BitAnd(n, |s.slots| - 1)
  }

  datatype Step =
    | Push(rec: Record)                  // try_push is called
    | LoadHead(seen: nat)
    | Decide
    | EndWrite
    | Publish
    | EnterDrain(seen: nat)
    | LoadTail(seen: nat)
    | TryRead
    | EndRead
    | Free
    | Handle
    | LeaveDrain(streamFails: bool)

  predicate ProducerMoves(x: Step) { x.Push? || x.LoadHead? || x.Decide? || x.EndWrite? || x.Publish? }

  /** When a step can happen. A load sees some value the other side has stored, no older than the last
      one this side saw. */
  predicate Enabled(s: State, x: Step) {
    match x
    case Push(_) => s.p.Idle?
    case LoadHead(seen) => s.p.Checking? && s.lastHeadSeen <= seen <= s.head
    case Decide => s.p.Deciding?
    case EndWrite => s.p.Writing?
    case Publish => s.p.Written?
    case EnterDrain(seen) => s.c.Parked? && s.lastTailSeen <= seen <= s.tail
    case LoadTail(seen) => s.c.Looping? && s.c.budget > 0 && s.lastTailSeen <= seen <= s.tail
    case TryRead => s.c.Loaded?
    case EndRead => s.c.Reading?
    case Free => s.c.Copied?
    case Handle => s.c.Popped?
    case LeaveDrain(_) => s.c.Looping? && s.c.budget == 0
  }

  function Next(s: State, x: Step): State
    requires |s.slots| > 0 && Enabled(s, x)
  {
    match x
    case Push(rec) => s.(p := Checking(rec), offered := s.offered + 1)
    case LoadHead(seen) => s.(p := Deciding(s.p.rec, seen), lastHeadSeen := seen)
    case Decide =>
      if s.tail - s.p.headSeen == |s.slots| then s.(p := Idle, dropped := s.dropped + 1)
      else WithSlot(s, s.tail, None).(p := Writing(s.p.rec))
    case EndWrite => WithSlot(s, s.tail, Some(s.p.rec)).(p := Written(s.p.rec))
    case Publish => s.(p := Idle, tail := s.tail + 1, accepted := s.accepted + [s.p.rec])
    case EnterDrain(seen) =>
      s.(c := Looping(if seen >= s.head then seen - s.head else 0), lastTailSeen := seen, entry := s.head, cutoff := seen)
    case LoadTail(seen) => s.(c := Loaded(s.c.budget, seen), lastTailSeen := seen)
    case TryRead => if s.c.tailSeen == s.head then s.(c := Looping(0)) else s.(c := Reading(s.c.budget))
    case EndRead => s.(c := Copied(s.c.budget, ReadSlot(s, s.head)))
    case Free => s.(head := s.head + 1, popped := s.popped + [s.c.rec], c := Popped(s.c.budget, s.c.rec))
    case Handle =>
      var left := Looping(if s.c.budget > 0 then s.c.budget - 1 else 0);
      if s.failed then s.(lost := s.lost + 1, c := left) else s.(emitted := s.emitted + [s.c.rec], c := left)
    case LeaveDrain(streamFails) => s.(failed := s.failed || streamFails, c := Parked)
  }

  function WithSlot(s: State, n: nat, v: Option<Record>): State
    requires |s.slots| > 0
  {
    var i := Index(s, n);
    if i < |s.slots| then s.(slots := s.slots[i := v]) else s
  }

  /** A torn slot reads as anything; here, zero. */
  function ReadSlot(s: State, n: nat): Record
    requires |s.slots| > 0
  {
    var i := Index(s, n);
    if i < |s.slots| && s.slots[i].Some? then s.slots[i].value else 0
  }

  ghost predicate IsStart(s: State) {
    && (exists k :: |s.slots| == Pow2(k)) && (forall i :: 0 <= i < |s.slots| ==> s.slots[i].None?)
    && s == State(s.slots, 0, 0, 0, Idle, 0, Parked, 0, s.failed, 0, 0, [], [], [], 0, 0)
  }

  ghost predicate IsRun(ss: seq<State>, xs: seq<Step>) {
    && |ss| == |xs| + 1 && IsStart(ss[0])
    && forall i :: 0 <= i < |xs| ==> |ss[i].slots| > 0 && Enabled(ss[i], xs[i]) && ss[i + 1] == Next(ss[i], xs[i])
  }

  // --- what every moment keeps -------------------------------------------------------------

  ghost predicate Indices(s: State) {
    var cap := |s.slots|;
    && (exists k :: cap == Pow2(k))
    && s.lastHeadSeen <= s.head <= s.lastTailSeen <= s.tail
    && s.tail - s.lastHeadSeen <= cap
    && (s.p.Deciding? ==> s.p.headSeen == s.lastHeadSeen)
    && (s.p.Writing? || s.p.Written? ==> s.tail - s.lastHeadSeen < cap)
  }

  /** Every published record not yet freed stands in its slot; the slot being written is nobody's. */
  ghost predicate Slots(s: State) {
    && |s.accepted| == s.tail
    && (forall n :: s.head <= n < s.tail ==> ReadableAt(s, n, s.accepted[n]))
    && (s.p.Written? ==> ReadableAt(s, s.tail, s.p.rec))
  }

  ghost predicate ReadableAt(s: State, n: nat, rec: Record) {
    |s.slots| > 0 && Index(s, n) < |s.slots| && s.slots[Index(s, n)] == Some(rec)
  }

  ghost predicate Histories(s: State) {
    && |s.popped| == s.head && s.popped <= s.accepted
    && s.emitted <= s.popped
    && |s.emitted| + s.lost + (if s.c.Popped? then 1 else 0) == |s.popped|
    && (s.lost > 0 ==> s.failed)
    && s.offered == s.tail + s.dropped + (if s.p.Idle? then 0 else 1)
  }

  /** The drain keeps to the records that were pending when it began. */
  ghost predicate Draining(s: State) {
    && (!s.c.Parked? ==> s.entry <= s.head && s.cutoff <= s.lastTailSeen)
    && match s.c
       case Parked => true
       case Looping(b) => s.cutoff == s.head + b
       case Loaded(b, seen) => b > 0 && s.cutoff == s.head + b && seen == s.lastTailSeen
       case Reading(b) => b > 0 && s.cutoff == s.head + b
       case Copied(b, rec) => b > 0 && s.cutoff == s.head + b && s.head < |s.accepted| && rec == s.accepted[s.head]
       case Popped(b, rec) => b > 0 && s.cutoff + 1 == s.head + b && |s.popped| > 0 && rec == s.popped[|s.popped| - 1]
  }

  ghost predicate Inv(s: State) { Indices(s) && Slots(s) && Histories(s) && Draining(s) }

  /** Different records within a capacity of each other have different slots. */
  lemma Apart(s: State, m: nat, n: nat)
    requires exists k :: |s.slots| == Pow2(k)
    requires m < n < m + |s.slots|
    ensures Index(s, m) != Index(s, n) && Index(s, m) < |s.slots| && Index(s, n) < |s.slots|
  {
    var k :| |s.slots| == Pow2(k);
    MaskIsMod(m, k);
    MaskIsMod(n, k);
    ModApart(m, n, |s.slots|);
  }

  lemma InSlots(s: State, n: nat)
    requires exists k :: |s.slots| == Pow2(k)
    ensures |s.slots| > 0 && Index(s, n) < |s.slots|
  {
    var k :| |s.slots| == Pow2(k);
    MaskIsMod(n, k);
  }

  /** Touching the slot of the next record leaves the unread ones as they are. */
  lemma WriteElsewhere(s: State, v: Option<Record>, n: nat)
    requires Indices(s) && Slots(s) && s.tail - s.head < |s.slots| && s.head <= n < s.tail
    ensures ReadableAt(WithSlot(s, s.tail, v), n, s.accepted[n])
  {
    hide BitAnd;
    Apart(s, n, s.tail);
  }

  lemma DecideKeeps(s: State)
    requires Inv(s) && s.p.Deciding?
    ensures |s.slots| > 0 && Inv(Next(s, Decide))
  {
    hide BitAnd, ReadableAt, Histories;
    InSlots(s, s.tail);
    var t := Next(s, Decide);
    if s.tail - s.p.headSeen != |s.slots| {
      forall n | s.head <= n < s.tail ensures ReadableAt(t, n, s.accepted[n]) {
        WriteElsewhere(s, None, n);
        SameSlots(WithSlot(s, s.tail, None), t, n, s.accepted[n]);
      }
    } else {
      forall n | s.head <= n < s.tail ensures ReadableAt(t, n, s.accepted[n]) { SameSlots(s, t, n, s.accepted[n]); }
    }
    assert Histories(t) by { DecideCounts(s); }
  }

  lemma DecideCounts(s: State)
    requires Histories(s) && s.p.Deciding? && |s.slots| > 0
    ensures Histories(Next(s, Decide))
  {
    hide BitAnd;
  }

  lemma SameSlots(s: State, t: State, n: nat, rec: Record)
    requires t.slots == s.slots && ReadableAt(s, n, rec)
    ensures ReadableAt(t, n, rec)
  {
  }

  lemma EndWriteKeeps(s: State)
    requires Inv(s) && s.p.Writing?
    ensures |s.slots| > 0 && Inv(Next(s, EndWrite))
  {
    hide BitAnd;
    InSlots(s, s.tail);
    var t := Next(s, EndWrite);
    forall n | s.head <= n < s.tail ensures ReadableAt(t, n, s.accepted[n]) { WriteElsewhere(s, Some(s.p.rec), n); }
  }

  lemma PublishKeeps(s: State)
    requires Inv(s) && s.p.Written?
    ensures |s.slots| > 0 && Inv(Next(s, Publish))
  {
    hide BitAnd, ReadableAt;
    InSlots(s, s.tail);
    var t := Next(s, Publish);
    forall n | t.head <= n < t.tail ensures ReadableAt(t, n, t.accepted[n]) {
      if n < s.tail { SameSlots(s, t, n, s.accepted[n]); } else { SameSlots(s, t, n, s.p.rec); }
    }
  }

  lemma ReadKeeps(s: State)
    requires Inv(s) && s.c.Reading?
    ensures |s.slots| > 0 && Inv(Next(s, EndRead)) && ReadSlot(s, s.head) == s.accepted[s.head]
  {
    hide BitAnd;
    InSlots(s, s.head);
    assert ReadableAt(s, s.head, s.accepted[s.head]);
  }

  lemma FreeKeeps(s: State)
    requires Inv(s) && s.c.Copied?
    ensures |s.slots| > 0 && Inv(Next(s, Free))
  {
    hide BitAnd, ReadableAt;
    InSlots(s, s.head);
    var t := Next(s, Free);
    forall n | t.head <= n < t.tail ensures ReadableAt(t, n, t.accepted[n]) { SameSlots(s, t, n, s.accepted[n]); }
    if s.p.Written? { SameSlots(s, t, s.tail, s.p.rec); }
    assert s.popped == s.accepted[..s.head];
    assert t.popped == t.accepted[..s.head + 1];
    assert t.emitted <= t.popped;
  }

  /** Steps that touch neither slots nor indices. */
  lemma OtherKeeps(s: State, x: Step)
    requires Inv(s) && Enabled(s, x)
    requires x.Push? || x.LoadHead? || x.EnterDrain? || x.LoadTail? || x.TryRead? || x.Handle? || x.LeaveDrain?
    ensures |s.slots| > 0 && Inv(Next(s, x))
  {
    hide BitAnd, ReadableAt;
    InSlots(s, s.head);
    var t := Next(s, x);
    forall n | t.head <= n < t.tail ensures ReadableAt(t, n, t.accepted[n]) { SameSlots(s, t, n, s.accepted[n]); }
    if s.p.Written? { SameSlots(s, t, s.tail, s.p.rec); }
  }

  lemma StepKeeps(s: State, x: Step)
    requires Inv(s) && Enabled(s, x)
    ensures |s.slots| > 0 && Inv(Next(s, x))
  {
    hide Inv, Next;
    match x
    case Decide => DecideKeeps(s);
    case EndWrite => EndWriteKeeps(s);
    case Publish => PublishKeeps(s);
    case EndRead => ReadKeeps(s);
    case Free => FreeKeeps(s);
    case _ => OtherKeeps(s, x);
  }

  lemma {:induction false} AlwaysInv(ss: seq<State>, xs: seq<Step>, i: nat)
    requires IsRun(ss, xs) && i < |ss|
    ensures Inv(ss[i])
  {
    hide Inv, Next, Enabled, IsStart;
    if i == 0 {
      StartInv(ss[0]);
    } else {
      AlwaysInv(ss, xs, i - 1);
      StepKeeps(ss[i - 1], xs[i - 1]);
    }
  }

  lemma StartInv(s: State)
    requires IsStart(s)
    ensures Inv(s)
  {
  }

  // --- what each side can rely on ----------------------------------------------------------

  /** Under every interleaving: no slot is written while it is being read; the records popped are a
      prefix of those accepted, in order; every push offered was accepted or counted dropped. */
  lemma NothingTorn(ss: seq<State>, xs: seq<Step>, i: nat)
    requires IsRun(ss, xs) && i < |ss|
    ensures var s := ss[i];
            && |s.slots| > 0 && |s.accepted| == s.tail && s.head <= s.tail && (s.c.Reading? ==> s.head < s.tail)
            && (s.p.Writing? && s.c.Reading? ==> Index(s, s.tail) != Index(s, s.head))
            && (s.c.Reading? ==> ReadableAt(s, s.head, s.accepted[s.head]))
            && s.popped == s.accepted[..s.head] && s.tail - s.head <= |s.slots|
            && (s.p.Idle? ==> s.offered == |s.accepted| + s.dropped)
  {
    hide IsRun, BitAnd;
    AlwaysInv(ss, xs, i);
    var s := ss[i];
    InSlots(s, s.head);
    if s.p.Writing? && s.c.Reading? { Apart(s, s.head, s.tail); }
  }

  /** The producer's own estimate of what is pending: never an underflow, never too small. */
  lemma PendingNeverUnder(ss: seq<State>, xs: seq<Step>, i: nat, headSeen: nat)
    requires IsRun(ss, xs) && i < |ss| && ss[i].lastHeadSeen <= headSeen <= ss[i].head
    ensures headSeen <= ss[i].tail && ss[i].tail - headSeen >= ss[i].tail - ss[i].head
  {
    hide IsRun;
    AlwaysInv(ss, xs, i);
  }

  /** A pop the budget allows never finds the ring empty, and a drain that ends has popped exactly the
      records pending at its entry; every record popped is emitted, in order, or counted lost. */
  lemma DrainIsExact(ss: seq<State>, xs: seq<Step>, i: nat)
    requires IsRun(ss, xs) && i < |ss|
    ensures var s := ss[i];
            && |s.popped| == s.head && |s.accepted| == s.tail
            && (s.c.Loaded? ==> s.c.tailSeen != s.head)
            && (s.c.Looping? && s.c.budget == 0 ==>
                  s.entry <= s.cutoff == s.head <= s.tail && s.popped[s.entry..] == s.accepted[s.entry..s.cutoff])
            && s.emitted <= s.popped
            && (!s.c.Popped? ==> |s.emitted| + s.lost == |s.popped|)
  {
    hide IsRun;
    AlwaysInv(ss, xs, i);
  }

  /** What is left of a drain, in steps of the consumer's own. */
  function Remaining(c: Consumer): int {
    match c
    case Parked => 0
    case Looping(b) => 5 * b + 1
    case Loaded(b, _) => 5 * b
    case Reading(b) => 5 * b - 1
    case Copied(b, _) => 5 * b - 2
    case Popped(b, _) => 5 * b - 3
  }

  /** The drain ends whatever the producer does: its own steps use it up, the producer's do not renew it,
      and one of its own is always possible. */
  lemma DrainEnds(ss: seq<State>, xs: seq<Step>, i: nat)
    requires IsRun(ss, xs) && i < |xs|
    ensures !ss[i].c.Parked? ==> Remaining(ss[i].c) > 0
    ensures ProducerMoves(xs[i]) ==> Remaining(ss[i + 1].c) == Remaining(ss[i].c)
    ensures !ProducerMoves(xs[i]) && !xs[i].EnterDrain? ==> Remaining(ss[i + 1].c) < Remaining(ss[i].c)
    ensures !ss[i].c.Parked? ==> exists x :: !ProducerMoves(x) && !x.EnterDrain? && Enabled(ss[i], x)
  {
    hide BitAnd;
    AlwaysInv(ss, xs, i);
    var s := ss[i];
    if !s.c.Parked? {
      var x := match s.c
        case Looping(b) => if b > 0 then LoadTail(s.tail) else LeaveDrain(false)
        case Loaded(_, _) => TryRead
        case Reading(_) => EndRead
        case Copied(_, _) => Free
        case _ => Handle;
      assert Enabled(s, x);
    }
  }

  // --- the calls themselves ----------------------------------------------------------------

  /** The ring's own calls, each the steps above run without a break; `m` is the machine it is a state of.
      The lines the sink has taken and the one-way failure latch are the writer's. */
  class TelemetryRing {
    const slots: array<Option<Record>>
    var head: nat
    var tail: nat
    var dropped: nat
    var lines: seq<Record>
    var lostLines: nat
    var outputFailed: bool
    ghost var m: State

    ghost predicate Valid()
      reads this, slots
    {
      && Inv(m) && m.slots == slots[..] && m.head == head && m.tail == tail && m.dropped == dropped
      && m.emitted == lines && m.lost == lostLines && m.failed == outputFailed
    }

    constructor (minCapacity: nat)
      requires 0 < minCapacity <= SIZE_MAX / 2 + 1
      ensures Valid() && IsStart(m) && minCapacity <= slots.Length < 2 * minCapacity && fresh(slots)
    {
      var capacity := BitCeil(minCapacity);
      slots := new Option<Record>[capacity](_ => None);
      head, tail, dropped, lines, lostLines, outputFailed := 0, 0, 0, [], 0, false;
      new;
      m := State(slots[..], 0, 0, 0, Idle, 0, Parked, 0, false, 0, 0, [], [], [], 0, 0);
      StartInv(m);
    }

    method TryPush(rec: Record, seen: nat) returns (ok: bool)
      requires Valid() && m.p.Idle? && m.lastHeadSeen <= seen <= head
      modifies this`tail, this`dropped, this`m, slots
      ensures Valid() && m.p.Idle? && m.c == old(m.c) && m.popped == old(m.popped)
      ensures ok <==> old(tail) - seen < slots.Length
      ensures m.accepted == old(m.accepted) + if ok then [rec] else []
      ensures dropped == old(dropped) + if ok then 0 else 1
    {
      hide Inv, BitAnd, Next, Enabled;
      IndexFits(m, tail);
      PushWhole(m, rec, seen);
      if tail - seen == slots.Length {
        dropped := dropped + 1;
        m := AfterRefusal(m, seen);
        return false;
      }
      slots[BitAnd(tail, slots.Length - 1)] := Some(rec);
      tail := tail + 1;
      m := AfterPush(m, rec, seen);
      return true;
    }

    method TryPop(seen: nat) returns (ok: bool, rec: Record)
      requires Valid() && m.c.Looping? && m.c.budget > 0 && m.lastTailSeen <= seen <= tail
      modifies this`head, this`m
      ensures Valid() && m.p == old(m.p) && m.accepted == old(m.accepted) && m.cutoff == old(m.cutoff)
      ensures ok && old(head) < |m.accepted| && rec == m.accepted[old(head)] && head == old(head) + 1
      ensures m.c == Popped(old(m.c.budget), rec)
    {
      hide Inv, BitAnd, Next, Enabled;
      ok, rec := false, 0;
      IndexFits(m, head);
      PopWhole(m, seen);
      if seen == head { return; }
      rec := slots[BitAnd(head, slots.Length - 1)].value;
      head := head + 1;
      m := AfterPop(m, rec, seen);
      return true, rec;
    }

    /** Emit the record, or count it lost to a dead sink. */
    method Emit(rec: Record)
      requires Valid() && m.c.Popped? && m.c.rec == rec && m.c.budget > 0
      modifies this`m, this`lines, this`lostLines
      ensures Valid() && m == Next(old(m), Handle) && |old(m).slots| > 0
    {
      hide Inv, BitAnd;
      StepKeeps(m, Handle);
      m := Next(m, Handle);
      if outputFailed { lostLines := lostLines + 1; } else { lines := lines + [rec]; }
    }

    /** One bounded batch: what was pending when it began, and no more. */
    method Drain(streamFails: bool)
      requires Valid() && m.c.Parked?
      modifies this`head, this`m, this`lines, this`lostLines, this`outputFailed
      ensures Valid() && m.c.Parked? && m.accepted == old(m.accepted) && head == old(tail)
      ensures |m.accepted| == old(tail) && m.popped == m.accepted
      ensures lines <= m.popped && |lines| + lostLines == |m.popped|
      ensures outputFailed == (old(outputFailed) || streamFails)
    {
      hide Inv, BitAnd;
      var budget: nat := Pending();
      EnterKeeps(m, tail);
      m := Next(m, EnterDrain(tail));
      while budget > 0
        invariant Valid() && m.c == Looping(budget) && m.accepted == old(m.accepted) && m.cutoff == tail
        invariant outputFailed == old(outputFailed)
      {
        LastSeen(m);
        var ok, rec := TryPop(tail);
        if !ok { break; }
        Emit(rec);
        budget := budget - 1;
      }
      LeaveKeeps(m, streamFails);
      m := Next(m, LeaveDrain(streamFails));
      outputFailed := outputFailed || streamFails;
    }

    /** Exact for the consumer, which owns head. */
    method Pending() returns (n: nat)
      requires Valid()
      ensures n == tail - head && tail == |m.accepted| && m.lastTailSeen <= tail
    {
      LastSeen(m);
      n := tail - head;
    }
  }

  lemma LastSeen(s: State)
    requires Inv(s)
    ensures s.head <= s.lastTailSeen <= s.tail == |s.accepted|
  {
  }

  lemma EnterKeeps(s: State, seen: nat)
    requires Inv(s) && s.c.Parked? && seen == s.tail
    ensures |s.slots| > 0 && s.head <= seen && s.lastTailSeen <= seen && Inv(Next(s, EnterDrain(seen)))
  {
    hide Inv, BitAnd, Next;
    LastSeen(s);
    StepKeeps(s, EnterDrain(seen));
  }

  /** With nothing pushed meanwhile, a drain leaves the ring empty and every record accounted for. */
  lemma LeaveKeeps(s: State, streamFails: bool)
    requires Inv(s) && s.c == Looping(0)
    ensures |s.slots| > 0 && Inv(Next(s, LeaveDrain(streamFails))) && s.head == s.cutoff
    ensures s.head == s.tail ==> s.popped == s.accepted
    ensures s.emitted <= s.popped && |s.emitted| + s.lost == |s.popped|
  {
    hide BitAnd, Next;
    StepKeeps(s, LeaveDrain(streamFails));
  }

  /** A refused push, start to end. */
  function AfterRefusal(s: State, seen: nat): State {
    s.(lastHeadSeen := seen, offered := s.offered + 1, dropped := s.dropped + 1)
  }

  /** An accepted push, start to end. */
  function AfterPush(s: State, rec: Record, seen: nat): State
    requires |s.slots| > 0
  {
    WithSlot(s, s.tail, Some(rec)).(lastHeadSeen := seen, offered := s.offered + 1, tail := s.tail + 1, accepted := s.accepted + [rec])
  }

  function AfterPop(s: State, rec: Record, seen: nat): State
    requires s.c.Looping?
  {
    s.(lastTailSeen := seen, head := s.head + 1, popped := s.popped + [rec], c := Popped(s.c.budget, rec))
  }

  /** try_push is the producer's steps, run without a break. */
  lemma PushWhole(s: State, rec: Record, seen: nat)
    requires Inv(s) && s.p.Idle? && s.lastHeadSeen <= seen <= s.head
    ensures |s.slots| > 0 && s.tail - seen <= |s.slots|
    ensures s.tail - seen == |s.slots| ==> Inv(AfterRefusal(s, seen))
    ensures s.tail - seen < |s.slots| ==> Inv(AfterPush(s, rec, seen))
  {
    hide Inv, BitAnd;
    LastSeen(s);
    IndexFits(s, s.tail);
    StepKeeps(s, Push(rec));
    var s1 := Next(s, Push(rec));
    StepKeeps(s1, LoadHead(seen));
    var s2 := Next(s1, LoadHead(seen));
    StepKeeps(s2, Decide);
    var s3 := Next(s2, Decide);
    assert s.tail - seen <= |s.slots| by { Within(s2); }
    if s.tail - seen == |s.slots| {
      assert s3 == AfterRefusal(s, seen);
    } else {
      StepKeeps(s3, EndWrite);
      var s4 := Next(s3, EndWrite);
      StepKeeps(s4, Publish);
      assert Next(s4, Publish) == AfterPush(s, rec, seen) by { WriteTwice(s.slots, Index(s, s.tail), rec); }
    }
  }

  lemma Within(s: State)
    requires Inv(s)
    ensures s.tail - s.lastHeadSeen <= |s.slots|
  {
  }

  lemma WriteTwice(slots: seq<Option<Record>>, i: nat, rec: Record)
    requires i < |slots|
    ensures slots[i := None][i := Some(rec)] == slots[i := Some(rec)]
  {
  }

  /** try_pop is the consumer's, and within the budget it never finds the ring empty. */
  lemma PopWhole(s: State, seen: nat)
    requires Inv(s) && s.c.Looping? && s.c.budget > 0 && s.lastTailSeen <= seen <= s.tail
    ensures |s.slots| > 0 && s.head < seen && s.head < |s.accepted| && ReadableAt(s, s.head, s.accepted[s.head])
    ensures Inv(AfterPop(s, s.accepted[s.head], seen))
  {
    hide Inv, BitAnd, ReadableAt;
    assert s.head < seen by { BudgetLeft(s); }
    LastSeen(s);
    StepKeeps(s, LoadTail(seen));
    var s1 := Next(s, LoadTail(seen));
    StepKeeps(s1, TryRead);
    var s2 := Next(s1, TryRead);
    ReadKeeps(s2);
    var s3 := Next(s2, EndRead);
    StepKeeps(s3, Free);
    assert ReadableAt(s, s.head, s.accepted[s.head]) by { NextReadable(s); }
    assert Next(s3, Free) == AfterPop(s, s.accepted[s.head], seen);
  }

  lemma BudgetLeft(s: State)
    requires Inv(s) && s.c.Looping? && s.c.budget > 0
    ensures s.head < s.lastTailSeen
  {
  }

  lemma NextReadable(s: State)
    requires Inv(s) && s.head < s.tail
    ensures ReadableAt(s, s.head, s.accepted[s.head])
  {
    hide ReadableAt;
  }

  lemma IndexFits(s: State, n: nat)
    requires Inv(s)
    ensures |s.slots| > 0 && BitAnd(n, |s.slots| - 1) < |s.slots|
  {
    hide BitAnd;
    InSlots(s, n);
  }
}
