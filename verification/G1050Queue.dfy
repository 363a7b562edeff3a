/** The packet queue of the network simulator: a doubly linked list in order of arrival time, first come first served on ties. */
module G1050 {

  datatype Packet = Packet(seqNo: int, departure: real, arrival: real, pkt: seq<bv8>)

  /** A packet in the queue; `number` says how many were queued before it. */
  datatype Item = Item(packet: Packet, number: nat)

  /** The order of the queue: by arrival, and on ties by when they were put in. */
  predicate Before(a: Item, b: Item) { a.packet.arrival < b.packet.arrival || (a.packet.arrival == b.packet.arrival && a.number < b.number) }

  predicate Sorted(items: seq<Item>) { forall i, j :: 0 <= i < j < |items| ==> Before(items[i], items[j]) }

  /** How far from the front the new packet goes: behind the last that arrives no later. */
  function Place(items: seq<Item>, arrival: real): (k: nat)
    ensures k <= |items| && (k > 0 ==> items[k - 1].packet.arrival <= arrival)
    ensures forall i :: k <= i < |items| ==> items[i].packet.arrival > arrival
  {
    if items == [] || items[|items| - 1].packet.arrival <= arrival then |items| else Place(items[..|items| - 1], arrival)
  }

  function InsertAt<T>(s: seq<T>, k: nat, x: T): (r: seq<T>)
    requires k <= |s|
    ensures |r| == |s| + 1
    ensures forall i :: 0 <= i < k ==> r[i] == s[i]
    ensures r[k] == x
    ensures forall i :: k < i < |r| ==> r[i] == s[i - 1]
  {
    s[..k] + [x] + s[k..]
  }

  function Inserted(items: seq<Item>, x: Item): seq<Item> { InsertAt(items, Place(items, x.packet.arrival), x) }

  lemma PlaceIs(items: seq<Item>, arrival: real, k: nat)
    requires k <= |items| && (k > 0 ==> items[k - 1].packet.arrival <= arrival)
    requires forall i :: k <= i < |items| ==> items[i].packet.arrival > arrival
    ensures k == Place(items, arrival)
  {
    hide Place;
  }

  /** The new packet comes after all that arrive no later, and before the others. */
  lemma {:induction false} PlaceParts(items: seq<Item>, x: Item)
    requires Sorted(items) && forall i :: 0 <= i < |items| ==> items[i].number < x.number
    ensures var k := Place(items, x.packet.arrival);
      (forall i :: 0 <= i < k ==> Before(items[i], x)) && (forall i :: k <= i < |items| ==> Before(x, items[i]))
  {
    hide Place;
    var k := Place(items, x.packet.arrival);
    forall i | 0 <= i < k ensures Before(items[i], x) {
      if i < k - 1 { assert Before(items[i], items[k - 1]); }
    }
  }

  lemma {:induction false} InsertKeepsOrder(items: seq<Item>, x: Item)
    requires Sorted(items) && forall i :: 0 <= i < |items| ==> items[i].number < x.number
    ensures Sorted(Inserted(items, x))
  {
    PlaceParts(items, x);
    hide Before, Place, InsertAt;
    var k, r := Place(items, x.packet.arrival), Inserted(items, x);
    forall i, j | 0 <= i < j < |r| ensures Before(r[i], r[j]) {
      var i1, j1 := if i > k then i - 1 else i, if j > k then j - 1 else j;
      if i != k && j != k { assert Before(items[i1], items[j1]); }
    }
  }

  lemma SortedTail(items: seq<Item>)
    requires Sorted(items)
    ensures items != [] ==> Sorted(items[1..])
  {
    hide Before;
  }

  lemma InsertKeepsAll(items: seq<Item>, x: Item)
    ensures multiset(Inserted(items, x)) == multiset(items) + multiset{x}
  {
    hide Place;
    var k := Place(items, x.packet.arrival);
    assert items == items[..k] + items[k..];
  }

  // ------------------------------------------------------------- the list

  class Element {
    var next: Element?
    var prev: Element?
    const packet: Packet

    constructor (packet: Packet)
      ensures this.packet == packet && next == null && prev == null
    {
      this.packet, next, prev := packet, null, null;
    }
  }

  class Queue {
    var first: Element?
    var last: Element?

    ghost var nodes: seq<Element>
    ghost var items: seq<Item>
    ghost var count: nat

    /** `first` and `last` are the ends of `nodes`, and every link leads to the neighbour. */
    ghost predicate Linked()
      reads this`first, this`last, this`nodes, nodes
    {
      && Distinct(nodes)
      && (forall i :: 0 <= i < |nodes| ==> Neighbours(nodes, i))
      && first == NodeAt(nodes, 0) && last == NodeAt(nodes, |nodes| - 1)
    }

    ghost predicate Valid()
      reads this, nodes
    {
      Linked() && Holds(nodes, items) && Sorted(items) && forall i :: 0 <= i < |items| ==> items[i].number < count
    }

    constructor ()
      ensures Valid() && items == [] && count == 0
    {
      first, last, nodes, items, count := null, null, [], [], 0;
    }

    /** `g1050_put`, with the arrival time that the network model has chosen; a negative one is a loss. */
    method Put(seqNo: int, departure: real, arrival: real, pkt: seq<bv8>) returns (res: nat)
      requires Valid()
      modifies this, nodes
      ensures Valid()
      ensures arrival < 0.0 ==> res == 0 && items == old(items) && count == old(count)
      ensures arrival >= 0.0 ==>
        res == |pkt| && count == old(count) + 1
        && items == Inserted(old(items), Item(Packet(seqNo, departure, arrival, pkt), old(count)))
    {
      hide Linked, Inserted, Sorted, Holds, Place;
      if arrival < 0.0 {
        return 0;
      }
      var packet := Packet(seqNo, departure, arrival, pkt);
      var element := new Element(packet);
      InsertKeepsOrder(items, Item(packet, count));
      InsertNumbers(items, Item(packet, count));
      Insert(element, Item(packet, count));
      count := count + 1;
      res := |pkt|;
    }

    method Insert(element: Element, ghost x: Item)
      requires Linked() && Holds(nodes, items) && x.packet == element.packet
      requires element !in nodes && element.next == null && element.prev == null
      modifies this`first, this`last, this`nodes, this`items, element, nodes
      ensures Linked() && Holds(nodes, items) && items == Inserted(old(items), x)
    {
      hide Linked, Inserted, Holds, InsertAt;
      var e, k := Search(element.packet.arrival);
      HoldsInserted(nodes, items, element, x);
      Link(element, e, k);
      items := Inserted(items, x);
    }

    /** From the end, the first element that arrives no later; `k` is the place behind it. */
    method Search(arrival: real) returns (e: Element?, ghost k: nat)
      requires Linked() && Holds(nodes, items)
      ensures k == Place(items, arrival) && k <= |nodes| && e == NodeAt(nodes, k - 1)
    {
      hide Place;
      e := last;
      k := |nodes|;
      while e != null && e.packet.arrival > arrival
        invariant k <= |nodes| && e == NodeAt(nodes, k - 1)
        invariant forall i :: k <= i < |items| ==> items[i].packet.arrival > arrival
        decreases k
      {
        assert Neighbours(nodes, k - 1);
        e := e.prev;
        k := k - 1;
      }
      PlaceIs(items, arrival, k);
    }

    /** The element gets its links, and its neighbours theirs. */
    method Splice(element: Element, e: Element?, ghost k: nat)
      requires Linked() && element !in nodes && element.next == null && element.prev == null && nodes != []
      requires k <= |nodes| && e == NodeAt(nodes, k - 1)
      modifies this`first, this`last, element, nodes
      ensures Spliced(nodes, element, k)
      ensures first == (if k == 0 then element else old(first)) && last == (if k == |nodes| then element else old(last))
    {
      ghost var was := nodes;
      if k > 0 { assert Neighbours(was, k - 1); }
      if e != null {
        element.next := e.next;
        element.prev := e;
        e.next := element;
      } else {
        element.next := first;
        first := element;
      }
      assert element.next == NodeAt(nodes, k);
      if element.next != null {
        assert element.next == nodes[k];
        element.next.prev := element;
      } else {
        last := element;
      }
      forall i | 0 <= i < |was| ensures Parted(was, element, k, i) { assert old(Neighbours(nodes, i)); }
    }

    /** The element is linked in behind `e`, or at the front. */
    method Link(element: Element, e: Element?, ghost k: nat)
      requires Linked() && element !in nodes && element.next == null && element.prev == null
      requires k <= |nodes| && e == NodeAt(nodes, k - 1)
      modifies this`first, this`last, this`nodes, element, nodes
      ensures Linked() && nodes == InsertAt(old(nodes), k, element)
    {
      hide InsertAt, Spliced;
      ghost var now := InsertAt(nodes, k, element);
      if last == null {
        first := element;
        last := element;
        assert now == [element];
      } else {
        assert Distinct(nodes);
        hide Distinct;
        Splice(element, e, k);
        SplicedLinks(nodes, element, k);
      }
      nodes := now;
    }

    /** `g1050_get`: the packet in front, if its time has come. */
    method Get(now: real) returns (got: bool, x: Packet)
      requires Valid()
      modifies this, nodes
      ensures Valid() && count == old(count)
      ensures got <==> old(items) != [] && old(items)[0].packet.arrival <= now
      ensures got ==> x == old(items)[0].packet && items == old(items)[1..]
      ensures !got ==> items == old(items)
    {
      x := Packet(-1, -1.0, -1.0, []);
      if first == null {
        return false, x;
      }
      x := first.packet;
      if x.arrival > now {
        return false, x;
      }
      hide Before, Linked, Sorted;
      SortedTail(items);
      Unlink();
      items := items[1..];
      return true, x;
    }

    /** The element in front leaves the list. */
    method Unlink()
      requires Linked() && nodes != []
      modifies this`first, this`last, this`nodes, nodes
      ensures Linked() && nodes == old(nodes[1..])
    {
      ghost var was := nodes;
      assert Neighbours(was, 0);
      var element := first;
      if first == last {
        last := null;
      }
      first := element.next;
      assert element.next == NodeAt(was, 1);
      if element.next != null {
        assert element.next == was[1];
        element.next.prev := null;
      }
      nodes := nodes[1..];
      forall i | 0 <= i < |nodes| ensures Neighbours(nodes, i) { assert old(Neighbours(nodes, i + 1)); }
    }
  }

  /** The links of element `i` lead to its neighbours. */
  ghost predicate Neighbours(nodes: seq<Element>, i: nat)
    requires i < |nodes|
    reads nodes
  {
    nodes[i].next == NodeAt(nodes, i + 1) && nodes[i].prev == NodeAt(nodes, i - 1)
  }

  predicate Distinct(nodes: seq<Element>) { forall i, j :: 0 <= i < j < |nodes| ==> nodes[i] != nodes[j] }

  function NodeAt(nodes: seq<Element>, i: int): Element? { if 0 <= i < |nodes| then nodes[i] else null }

  /** The elements carry the packets of `items`, in order. */
  ghost predicate Holds(nodes: seq<Element>, items: seq<Item>) {
    |nodes| == |items| && forall i :: 0 <= i < |nodes| ==> nodes[i].packet == items[i].packet
  }

  lemma HoldsInserted(nodes: seq<Element>, items: seq<Item>, element: Element, x: Item)
    requires Holds(nodes, items) && element.packet == x.packet
    ensures var k := Place(items, x.packet.arrival); Holds(InsertAt(nodes, k, element), Inserted(items, x))
  {
    hide Place, InsertAt;
  }

  lemma InsertNumbers(items: seq<Item>, x: Item)
    requires forall i :: 0 <= i < |items| ==> items[i].number < x.number
    ensures forall i :: 0 <= i < |Inserted(items, x)| ==> Inserted(items, x)[i].number < x.number + 1
  {
    hide Place, InsertAt;
  }

  /** The links of element `i`, when `element` stands before place `k`. */
  ghost predicate Parted(was: seq<Element>, element: Element, k: nat, i: nat)
    requires i < |was|
    reads was
  {
    && was[i].next == (if i == k - 1 then element else NodeAt(was, i + 1))
    && was[i].prev == (if i == k then element else NodeAt(was, i - 1))
  }

  /** All links lead to the neighbours, but that `element` stands before place `k`. */
  ghost predicate Spliced(was: seq<Element>, element: Element, k: nat)
    reads was, element
  {
    && k <= |was|
    && (forall i :: 0 <= i < |was| ==> Parted(was, element, k, i))
    && element.next == NodeAt(was, k) && element.prev == NodeAt(was, k - 1)
  }

  lemma SplicedLinks(was: seq<Element>, element: Element, k: nat)
    requires Spliced(was, element, k) && Distinct(was) && element !in was
    ensures var now := InsertAt(was, k, element);
      Distinct(now)
      && (forall i :: 0 <= i < |now| ==> Neighbours(now, i))
      && NodeAt(now, 0) == (if k == 0 then element else NodeAt(was, 0))
      && NodeAt(now, |now| - 1) == (if k == |was| then element else NodeAt(was, |was| - 1))
  {
    hide InsertAt;
    var now := InsertAt(was, k, element);
    forall i | 0 <= i < |now| ensures Neighbours(now, i) {
      if i != k { assert Parted(was, element, k, if i < k then i else i - 1); }
    }
  }

  // ------------------------------------------------------------- runs

  /** What happens to the queue: a packet comes in, with the arrival time chosen for it, or one is asked for. */
  datatype Event = PutAt(seqNo: int, departure: real, arrival: real, pkt: seq<bv8>) | GetAt(now: real)

  /** The queue, the packets put in and not lost, and those delivered, each with the time it was asked for. */
  datatype Sim = Sim(items: seq<Item>, put: seq<Item>, delivered: seq<Item>, times: seq<real>)

  function Step(s: Sim, e: Event): Sim {
    match e
    case PutAt(seqNo, departure, arrival, pkt) =>
      if arrival < 0.0 then s
      else
        var x := Item(Packet(seqNo, departure, arrival, pkt), |s.put|);
        s.(items := Inserted(s.items, x), put := s.put + [x])
    case GetAt(now) =>
      if s.items == [] || s.items[0].packet.arrival > now then s
      else s.(items := s.items[1..], delivered := s.delivered + [s.items[0]], times := s.times + [now])
  }

  function Run(events: seq<Event>): Sim {
    if events == [] then Sim([], [], [], []) else Step(Run(events[..|events| - 1]), events[|events| - 1])
  }

  ghost predicate Sound(s: Sim) {
    && Sorted(s.items)
    && (forall i :: 0 <= i < |s.put| ==> s.put[i].number == i)
    && (forall i :: 0 <= i < |s.items| ==> s.items[i].number < |s.put|)
    && multiset(s.delivered) + multiset(s.items) == multiset(s.put)
    && |s.times| == |s.delivered| && (forall i :: 0 <= i < |s.times| ==> s.delivered[i].packet.arrival <= s.times[i])
  }

  lemma PutSound(s: Sim, x: Item)
    requires Sound(s) && x.number == |s.put|
    ensures Sound(s.(items := Inserted(s.items, x), put := s.put + [x]))
  {
    InsertKeepsOrder(s.items, x);
    InsertKeepsAll(s.items, x);
    InsertNumbers(s.items, x);
    hide Inserted, Sorted;
    assert multiset(s.put + [x]) == multiset(s.put) + multiset{x};
  }

  lemma GetSound(s: Sim, now: real)
    requires Sound(s) && s.items != [] && s.items[0].packet.arrival <= now
    ensures Sound(s.(items := s.items[1..], delivered := s.delivered + [s.items[0]], times := s.times + [now]))
  {
    hide Before;
    assert s.items == [s.items[0]] + s.items[1..];
    assert multiset(s.items) == multiset{s.items[0]} + multiset(s.items[1..]);
  }

  lemma StepSound(s: Sim, e: Event)
    requires Sound(s)
    ensures Sound(Step(s, e))
  {
    match e
    case PutAt(seqNo, departure, arrival, pkt) =>
      if arrival >= 0.0 { PutSound(s, Item(Packet(seqNo, departure, arrival, pkt), |s.put|)); }
      hide Sound, Inserted;
    case GetAt(now) =>
      if s.items != [] && s.items[0].packet.arrival <= now { GetSound(s, now); }
      hide Sound;
  }

  lemma {:induction false} AlwaysSound(events: seq<Event>)
    ensures Sound(Run(events))
  {
    if events != [] {
      hide Step, Sound;
      AlwaysSound(events[..|events| - 1]);
      StepSound(Run(events[..|events| - 1]), events[|events| - 1]);
    }
  }

  /** The packets of a run that have an arrival time at all, in the order they are put. */
  function Kept(events: seq<Event>): seq<Packet> {
    if events == [] then []
    else
      var before := Kept(events[..|events| - 1]);
      match events[|events| - 1]
      case PutAt(seqNo, departure, arrival, pkt) => if arrival >= 0.0 then before + [Packet(seqNo, departure, arrival, pkt)] else before
      case GetAt(_) => before
  }

  /** Those, and no others, are put to the queue, and each is put as it is. */
  lemma {:induction false} PutIffKept(events: seq<Event>)
    ensures var s, kept := Run(events), Kept(events);
      |s.put| == |kept| && forall i :: 0 <= i < |kept| ==> s.put[i].packet == kept[i]
  {
    if events != [] {
      hide Inserted;
      PutIffKept(events[..|events| - 1]);
    }
  }

  /**
   In every run each packet that is not lost is delivered exactly once or is still queued, none before
   its arrival time.
  */
  lemma {:induction false} DeliveredOnce(events: seq<Event>)
    ensures var s := Run(events);
      && multiset(s.delivered) + multiset(s.items) == multiset(s.put)
      && (forall i, j :: 0 <= i < j < |s.put| ==> s.put[i] != s.put[j])
      && |s.times| == |s.delivered| && (forall i :: 0 <= i < |s.times| ==> s.delivered[i].packet.arrival <= s.times[i])
  {
    AlwaysSound(events);
    var s := Run(events);
    forall i, j | 0 <= i < j < |s.put| ensures s.put[i] != s.put[j] { assert s.put[i].number == i && s.put[j].number == j; }
  }

  /** And the packet delivered is always the earliest one queued, of several the one put in first; none is delivered only if none has come. */
  lemma {:induction false} EarliestFirst(events: seq<Event>, now: real)
    ensures var s, s1 := Run(events), Step(Run(events), GetAt(now));
      if s1 == s then forall x :: x in s.items ==> x.packet.arrival > now
      else exists x :: x in s.items && s1.delivered == s.delivered + [x] && forall y :: y in s.items && y != x ==> Before(x, y)
  {
    AlwaysSound(events);
    var items := Run(events).items;
    hide Run;
    forall x | x in items && x != items[0] ensures Before(items[0], x) {
      var i :| 0 <= i < |items| && items[i] == x;
      assert i > 0;
    }
  }
}
