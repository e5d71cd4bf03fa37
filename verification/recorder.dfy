/** The bench recorder's fixed correlation table against an unbounded one (cpp/include/mm/bench_recorder.hpp). */
module Recorder {
  import opened Arith
  import opened Text

  const SLOTS: nat := 65536

  /** A slot: the book's md_seq, its stamps, and whether an order has echoed it. md_seq 0 is empty. */
  datatype Slot = Slot(mdSeq: nat, m0: int, m0p: int, taken: bool)

  const EMPTY := Slot(0, 0, 0, false)

  /** The samples each md_seq has offered to the three derived streams. */
  datatype Samples = Samples(production: map<nat, int>, delivery: map<nat, int>, total: map<nat, int>)

  /** The table remembers a book this long. */
  predicate InWindow(published: nat, mdSeq: nat) { 1 <= mdSeq <= published && published - mdSeq < SLOTS }

  /** The table holds exactly the books of the window, each as an unbounded table would. */
  ghost predicate Tabled(slots: seq<Slot>, published: nat, books: map<nat, Slot>) {
    && |slots| == SLOTS
    && (forall n :: n in books <==> 1 <= n <= published)
    && (forall n :: n in books ==> books[n].mdSeq == n)
    && (forall n :: n in books && InWindow(published, n) ==> slots[n % SLOTS] == books[n])
    && (forall i :: 0 <= i < SLOTS ==> Holds(slots[i], published, i))
  }

  predicate Holds(slot: Slot, published: nat, i: nat) {
    slot == EMPTY || (InWindow(published, slot.mdSeq) && slot.mdSeq % SLOTS == i)
  }

  /** A sample was offered exactly when its stamps say so, and they add up. */
  ghost predicate Sampled(books: map<nat, Slot>, offered: Samples) {
    && (forall n :: n in offered.production <==> n in books && books[n].m0p != 0)
    && (forall n :: n in offered.total <==> n in books && books[n].taken)
    && (forall n :: n in offered.delivery ==> n in offered.total && n in offered.production)
    && (forall n :: n in offered.production ==> offered.production[n] == books[n].m0p - books[n].m0)
    && (forall n :: n in offered.delivery ==> offered.total[n] == offered.production[n] + offered.delivery[n])
  }

  lemma OpenKeeps(slots: seq<Slot>, published: nat, books: map<nat, Slot>, m0: int)
    requires Tabled(slots, published, books)
    ensures var n := published + 1; var book := Slot(n, m0, 0, false);
            n % SLOTS < |slots| && Tabled(slots[n % SLOTS := book], n, books[n := book])
  {
    var n := published + 1;
    var book := Slot(n, m0, 0, false);
    forall k | k in books && InWindow(n, k) && k != n ensures k % SLOTS != n % SLOTS &&
        InWindow(published, k) { ModApart(k, n, SLOTS); }
    forall i | 0 <= i < SLOTS && i != n % SLOTS && slots[i] != EMPTY ensures Holds(slots[i], n, i) {
      assert Holds(slots[i], published, i);
      Evicted(published, slots[i].mdSeq);
    }
  }

  /** The book that leaves the window is the one whose slot the new book takes. */
  lemma Evicted(published: nat, n: nat)
    requires InWindow(published, n) && n % SLOTS != (published + 1) % SLOTS
    ensures InWindow(published + 1, n)
  {
    assert (n + SLOTS) % SLOTS == n % SLOTS;
  }

  lemma SampledOpens(books: map<nat, Slot>, offered: Samples, n: nat, m0: int)
    requires Sampled(books, offered) && n !in books
    ensures Sampled(books[n := Slot(n, m0, 0, false)], offered)
  {
  }

  /** A book still in the window, stamped again in its slot. */
  lemma StampKeeps(slots: seq<Slot>, published: nat, books: map<nat, Slot>, n: nat, book: Slot)
    requires Tabled(slots, published, books) && InWindow(published, n) && book.mdSeq == n
    ensures n % SLOTS < |slots| && Tabled(slots[n % SLOTS := book], published, books[n := book])
  {
    forall k | k in books && InWindow(published, k) && k != n ensures k % SLOTS != n % SLOTS {
      if k < n { ModApart(k, n, SLOTS); } else { ModApart(n, k, SLOTS); }
    }
  }

  lemma WrittenSamples(books: map<nat, Slot>, offered: Samples, n: nat, m0p: int)
    requires Sampled(books, offered) && n in books && books[n].m0p == 0 && m0p != 0
    ensures n !in offered.production
    ensures Sampled(books[n := books[n].(m0p := m0p)], offered.(production := offered.production[n := m0p - books[n].m0]))
  {
  }

  /** What the first order to echo a book offers. */
  function Echoed(book: Slot, offered: Samples, m3: int): Samples {
    offered.(delivery := if book.m0p != 0 then offered.delivery[book.mdSeq := m3 - book.m0p] else offered.delivery,
             total := offered.total[book.mdSeq := m3 - book.m0])
  }

  lemma EchoedSamples(books: map<nat, Slot>, offered: Samples, n: nat, m3: int)
    requires Sampled(books, offered) && n in books && books[n].mdSeq == n && !books[n].taken
    ensures n !in offered.total && n !in offered.delivery
    ensures Sampled(books[n := books[n].(taken := true)], Echoed(books[n], offered, m3))
  {
  }

  lemma Grows(m: map<nat, int>, n: nat, v: int)
    requires n !in m
    ensures |m[n := v]| == |m| + 1
  {
    assert m[n := v].Keys == m.Keys + {n};
  }

  lemma EchoedCount(book: Slot, offered: Samples, m3: int)
    requires book.mdSeq !in offered.total && book.mdSeq !in offered.delivery
    ensures var after := Echoed(book, offered, m3);
            |after.delivery| + |after.total| == |offered.delivery| + |offered.total| + if book.m0p != 0 then 2 else 1
  {
    Grows(offered.total, book.mdSeq, m3 - book.m0);
    Grows(offered.delivery, book.mdSeq, m3 - book.m0p);
  }

  /** What each stream's reservation came to: at least what was asked for. */
  datatype Room = Room(svc: nat, production: nat, delivery: nat, total: nat)

  predicate Reserves(room: Room, capacity: nat) {
    capacity <= room.svc && capacity <= room.production && capacity <= room.delivery && capacity <= room.total
  }

  class BenchRecorder {
    const slots: array<Slot>
    const room: Room
    var svc: seq<int>
    var production: seq<int>
    var delivery: seq<int>
    var total: seq<int>
    var saturated: nat
    // Every book ever published, and every sample ever offered.
    ghost var published: nat
    ghost var books: map<nat, Slot>
    ghost var offered: Samples
    ghost var svcOffered: nat
    // Samples offered under a zero stamp, which leaves the book looking unwritten.
    ghost var unstamped: nat

    ghost function Offered(): nat
      reads this
    {
      svcOffered + unstamped + |offered.production| + |offered.delivery| + |offered.total|
    }

    function Stored(): nat
      reads this
    {
      |svc| + |production| + |delivery| + |total|
    }

    ghost predicate Valid()
      reads this, slots
    {
      && slots.Length == SLOTS && Tabled(slots[..], published, books) && Sampled(books, offered)
      && |svc| <= room.svc && |production| <= room.production && |delivery| <= room.delivery && |total| <= room.total
      && Offered() == Stored() + saturated
    }

    constructor (capacity: nat, room: Room)
      requires capacity > 0 && Reserves(room, capacity)
      ensures Valid() && this.room == room && published == 0 && fresh(slots)
    {
      this.room := room;
      slots := new Slot[SLOTS](_ => EMPTY);
      svc, production, delivery, total, saturated := [], [], [], [], 0;
      published, books, offered, svcOffered := 0, map[], Samples(map[], map[], map[]), 0;
      unstamped := 0;
    }

    /** The slot of md_seq: correlated exactly while the book is in the window. */
    method Find(mdSeq: nat) returns (slot: Option<nat>)
      requires Valid()
      ensures slot.Some? <==> InWindow(published, mdSeq)
      ensures slot.Some? ==> slot.value == mdSeq % SLOTS < slots.Length && mdSeq in books && slots[slot.value] == books[mdSeq]
    {
      if mdSeq == 0 { return None; }
      var i := mdSeq % SLOTS;
      assert slots[..][i] == slots[i] && Holds(slots[i], published, i);
      assert InWindow(published, mdSeq) ==> mdSeq in books;
      if slots[i].mdSeq == mdSeq { return Some(i); }
      return None;
    }

    /** A book has been applied; its slot is its own from here. */
    method MdPublished(mdSeq: nat, m0: int)
      requires Valid() && (mdSeq == 0 || mdSeq == published + 1)
      modifies this`published, this`books, slots
      ensures Valid()
      ensures published == if mdSeq == 0 then old(published) else mdSeq
      ensures books == if mdSeq == 0 then old(books) else old(books)[mdSeq := Slot(mdSeq, m0, 0, false)]
    {
      hide Tabled, Sampled;
      if mdSeq == 0 { return; }
      OpenKeeps(slots[..], published, books, m0);
      assert mdSeq !in books by { TabledBooks(slots[..], published, books); }
      SampledOpens(books, offered, mdSeq, m0);
      ghost var before := slots[..];
      slots[mdSeq % SLOTS] := Slot(mdSeq, m0, 0, false);
      assert slots[..] == before[mdSeq % SLOTS := Slot(mdSeq, m0, 0, false)];
      published := mdSeq;
      books := books[mdSeq := Slot(mdSeq, m0, 0, false)];
    }

    /** A hand-off of a book's tick to a write: sampled while the book has no stamp, so a book is sampled
        once if the stamp is not zero, and evicted books add nothing. */
    method MdWritten(mdSeq: nat, m0p: int)
      requires Valid()
      modifies this`production, this`saturated, this`books, this`offered, this`unstamped, slots
      ensures Valid()
      ensures var bare := InWindow(published, mdSeq) && mdSeq in old(books) && old(books)[mdSeq].m0p == 0;
              && books == (if bare then old(books)[mdSeq := old(books)[mdSeq].(m0p := m0p)] else old(books))
              && offered == (if !bare || m0p == 0 then old(offered) else
                   old(offered).(production := old(offered).production[mdSeq := m0p - old(books)[mdSeq].m0]))
              && unstamped == old(unstamped) + (if bare && m0p == 0 then 1 else 0)
              && production == old(production) +
                   (if bare && old(|production|) < room.production then [m0p - old(books)[mdSeq].m0] else [])
              && saturated == old(saturated) + (if bare && old(|production|) >= room.production then 1 else 0)
    {
      hide Tabled, Sampled;
      var slot := Find(mdSeq);
      if slot.None? || slots[slot.value].m0p != 0 { return; }
      var book := slots[slot.value];
      assert book.mdSeq == mdSeq by { TabledBooks(slots[..], published, books); }
      if m0p == 0 {
        unstamped := unstamped + 1;
        assert books == books[mdSeq := book];
      } else {
        WrittenSamples(books, offered, mdSeq, m0p);
        Grows(offered.production, mdSeq, m0p - book.m0);
        offered := offered.(production := offered.production[mdSeq := m0p - book.m0]);
      }
      Restamp(mdSeq, book.(m0p := m0p));
      if |production| == room.production { saturated := saturated + 1; } else { production := production + [m0p - book.m0]; }
    }

    /** The first order to echo a book; later echoes, and evicted books, add nothing. */
    method OrderFor(mdSeq: nat, m3: int)
      requires Valid()
      modifies this`delivery, this`total, this`saturated, this`books, this`offered, slots
      ensures Valid()
      ensures var first := InWindow(published, mdSeq) && mdSeq in old(books) && !old(books)[mdSeq].taken;
              && books == (if first then old(books)[mdSeq := old(books)[mdSeq].(taken := true)] else old(books))
              && offered == (if first then Echoed(old(books)[mdSeq], old(offered), m3) else old(offered))
              && total == old(total) + (if first && old(|total|) < room.total then [m3 - old(books)[mdSeq].m0] else [])
              && delivery == old(delivery) + (if first && old(books)[mdSeq].m0p != 0 && old(|delivery|) < room.delivery
                                              then [m3 - old(books)[mdSeq].m0p] else [])
    {
      hide Tabled, Sampled;
      var slot := Find(mdSeq);
      if slot.None? || slots[slot.value].taken { return; }
      var book := slots[slot.value];
      assert book.mdSeq == mdSeq by { TabledBooks(slots[..], published, books); }
      EchoedSamples(books, offered, mdSeq, m3);
      EchoedCount(book, offered, m3);
      Restamp(mdSeq, book.(taken := true));
      offered := Echoed(book, offered, m3);
      AppendEcho(book, m3);
    }

    /** A book's slot rewritten. */
    method Restamp(mdSeq: nat, book: Slot)
      requires Tabled(slots[..], published, books) && InWindow(published, mdSeq) && book.mdSeq == mdSeq && slots.Length == SLOTS
      modifies this`books, slots
      ensures Tabled(slots[..], published, books) && books == old(books)[mdSeq := book]
    {
      hide Tabled;
      StampKeeps(slots[..], published, books, mdSeq, book);
      ghost var before := slots[..];
      slots[mdSeq % SLOTS] := book;
      assert slots[..] == before[mdSeq % SLOTS := book];
      books := books[mdSeq := book];
    }

    /** An append below capacity stores; at capacity it is counted refused. */
    method AppendEcho(book: Slot, m3: int)
      requires |delivery| <= room.delivery && |total| <= room.total
      modifies this`delivery, this`total, this`saturated
      ensures |delivery| <= room.delivery && |total| <= room.total
      ensures Stored() + saturated == old(Stored() + saturated) + if book.m0p != 0 then 2 else 1
      ensures total == old(total) + if old(|total|) < room.total then [m3 - book.m0] else []
      ensures delivery == old(delivery) + if book.m0p != 0 && old(|delivery|) < room.delivery then [m3 - book.m0p] else []
    {
      if book.m0p != 0 {
        if |delivery| == room.delivery { saturated := saturated + 1; } else { delivery := delivery + [m3 - book.m0p]; }
      }
      if |total| == room.total { saturated := saturated + 1; } else { total := total + [m3 - book.m0]; }
    }

    method Svc(sample: int)
      requires Valid()
      modifies this`svc, this`saturated, this`svcOffered
      ensures Valid() && svcOffered == old(svcOffered) + 1
      ensures svc == old(svc) + if old(|svc|) < room.svc then [sample] else []
    {
      hide Tabled, Sampled;
      svcOffered := svcOffered + 1;
      if |svc| == room.svc { saturated := saturated + 1; } else { svc := svc + [sample]; }
    }
  }

  /** A recorder that could hold nothing is refused. */
  method MakeRecorder(capacity: nat, room: Room) returns (r: BenchRecorder?)
    requires Reserves(room, capacity)
    ensures r == null <==> capacity == 0
    ensures r != null ==> fresh(r) && r.Valid() && r.room == room && r.published == 0
  {
    if capacity == 0 { return null; }
    r := new BenchRecorder(capacity, room);
  }

  lemma TabledBooks(slots: seq<Slot>, published: nat, books: map<nat, Slot>)
    requires Tabled(slots, published, books)
    ensures published + 1 !in books && 0 !in books
    ensures forall n :: n in books ==> books[n].mdSeq == n
  {
  }
}
