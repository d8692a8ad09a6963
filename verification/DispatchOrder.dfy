/**
 elv_dispatch_sort of elevator.c: requests a scheduler hands over are sorted into the dispatch queue
 from its tail, in the order of a one-way elevator that starts at end_sector.
 */
module DispatchOrder {
  import opened Lists

  /** A request as the sort sees it: its start sector, its kind, and whether it has one of the flags
      REQ_SOFTBARRIER, REQ_HARDBARRIER and REQ_STARTED. */
  datatype Entry = Entry(id: int, pos: nat, write: bool, discard: bool, stop: bool)

  type Queue = seq<Entry>

  /** Sectors at or above the boundary come first, then those below it, each in rising order. */
  predicate Upto(b: nat, x: nat, y: nat) {
    if x >= b then y < b || x <= y else y < b && x <= y
  }

  lemma {:induction false} UptoIsLinear(b: nat, x: nat, y: nat, z: nat)
    ensures Upto(b, x, y) || Upto(b, y, x)
    ensures Upto(b, x, y) && Upto(b, y, x) ==> x == y
    ensures Upto(b, x, y) && Upto(b, y, z) ==> Upto(b, x, z)
  {
  }

  /** An entry that a request must not be moved in front of. */
  predicate Stops(e: Entry, rq: Entry) {
    e.discard != rq.discard || e.write != rq.write || e.stop
  }

  /** The tests of the loop, in its order, on the entry before the place it is looking at. */
  predicate Breaks(b: nat, e: Entry, rq: Entry) {
    if rq.discard != e.discard then true
    else if rq.write != e.write then true
    else if e.stop then true
    else if rq.pos >= b && e.pos < b then false
    else if rq.pos < b && e.pos >= b then true
    else rq.pos >= e.pos
  }

  lemma {:induction false} BreaksIs(b: nat, e: Entry, rq: Entry)
    ensures Breaks(b, e, rq) <==> Stops(e, rq) || Upto(b, e.pos, rq.pos)
  {
  }

  /** The index at which the request goes in. */
  function Place(b: nat, q: Queue, rq: Entry): (k: nat)
    ensures k <= |q|
  {
    if q == [] || Breaks(b, q[|q| - 1], rq) then |q| else Place(b, q[..|q| - 1], rq)
  }

  function PutAt(q: Queue, k: nat, rq: Entry): Queue
    requires k <= |q|
  {
    q[..k] + [rq] + q[k..]
  }

  function Sorted(b: nat, q: Queue, rq: Entry): Queue {
    PutAt(q, Place(b, q, rq), rq)
  }

  lemma {:induction false} PlaceIs(b: nat, q: Queue, rq: Entry)
    ensures forall i :: Place(b, q, rq) <= i < |q| ==> !Breaks(b, q[i], rq)
    ensures Place(b, q, rq) > 0 ==> Breaks(b, q[Place(b, q, rq) - 1], rq)
  {
    if !(q == [] || Breaks(b, q[|q| - 1], rq)) { PlaceIs(b, q[..|q| - 1], rq); }
  }

  /** The request stays behind every entry that stops it, and in front of no entry it should follow. */
  lemma {:induction false} NothingPassed(b: nat, q: Queue, rq: Entry, i: nat)
    requires i < |q| && (Stops(q[i], rq) || Upto(b, q[i].pos, rq.pos))
    ensures i < Place(b, q, rq)
  {
    PlaceIs(b, q, rq);
    BreaksIs(b, q[i], rq);
  }

  /** A flagged entry is a wall: what is in front of it has no part in the sorting behind it. */
  lemma {:induction false} FlaggedIsWall(b: nat, front: Queue, back: Queue, rq: Entry)
    requires front == [] || front[|front| - 1].stop
    ensures Sorted(b, front + back, rq) == front + Sorted(b, back, rq)
  {
    PlaceBehind(b, front, back, rq);
    PutBehind(front, back, Place(b, back, rq), rq);
    hide Place, PutAt;
  }

  lemma {:induction false} PutBehind(front: Queue, back: Queue, k: nat, rq: Entry)
    requires k <= |back|
    ensures PutAt(front + back, |front| + k, rq) == front + PutAt(back, k, rq)
  {
  }

  lemma {:induction false} PlaceBehind(b: nat, front: Queue, back: Queue, rq: Entry)
    requires front == [] || front[|front| - 1].stop
    ensures Place(b, front + back, rq) == |front| + Place(b, back, rq)
    decreases |back|
  {
    if back == [] {
      assert front + back == front;
    } else if !Breaks(b, back[|back| - 1], rq) {
      assert (front + back)[..|front + back| - 1] == front + back[..|back| - 1];
      PlaceBehind(b, front, back[..|back| - 1], rq);
    }
  }

  function SortedAll(b: nat, q: Queue, rqs: List<Entry>): Queue
    decreases rqs
  {
    match rqs
    case Nil => q
    case Cons(rq, r) => SortedAll(b, Sorted(b, q, rq), r)
  }

  /** So it is for any number of requests. */
  lemma {:induction false} FlaggedStaysWall(b: nat, front: Queue, back: Queue, rqs: List<Entry>)
    requires front == [] || front[|front| - 1].stop
    ensures SortedAll(b, front + back, rqs) == front + SortedAll(b, back, rqs)
    decreases rqs
  {
    hide Sorted;
    if rqs.Cons? {
      FlaggedIsWall(b, front, back, rqs.head);
      FlaggedStaysWall(b, front, Sorted(b, back, rqs.head), rqs.tail);
    }
  }

  // ---------------------------------------------------------------- order

  /** Two neighbours of one kind without flags are in elevator order. */
  predicate InOrder(b: nat, x: Entry, y: Entry) {
    Stops(x, y) || Stops(y, x) || Upto(b, x.pos, y.pos)
  }

  predicate Ordered(b: nat, q: Queue) {
    forall i :: 0 <= i < |q| - 1 ==> InOrder(b, q[i], q[i + 1])
  }

  lemma {:induction false} SortKeepsOrder(b: nat, q: Queue, rq: Entry)
    requires Ordered(b, q)
    ensures Ordered(b, Sorted(b, q, rq))
  {
    var k := Place(b, q, rq);
    var r := Sorted(b, q, rq);
    PlaceIs(b, q, rq);
    forall i | 0 <= i < |r| - 1 ensures InOrder(b, r[i], r[i + 1]) {
      if i + 1 < k {
        assert InOrder(b, q[i], q[i + 1]);
      } else if i + 1 == k {
        BreaksIs(b, q[i], rq);
      } else if i == k {
        BreaksIs(b, q[i], rq);
        UptoIsLinear(b, rq.pos, q[i].pos, 0);
      } else {
        assert InOrder(b, q[i - 1], q[i]);
      }
    }
  }

  /** What happens to a dispatch queue while end_sector stays: requests are sorted in, its first one
      is started, its first one is taken off. */
  datatype Event = Sort(rq: Entry) | StartFirst | TakeFirst

  function Step(b: nat, q: Queue, e: Event): Queue {
    match e
    case Sort(rq) => Sorted(b, q, rq)
    case StartFirst => if q == [] then q else [q[0].(stop := true)] + q[1..]
    case TakeFirst => if q == [] then q else q[1..]
  }

  function Run(b: nat, q: Queue, es: List<Event>): Queue
    decreases es
  {
    match es
    case Nil => q
    case Cons(e, r) => Run(b, Step(b, q, e), r)
  }

  lemma {:induction false} RunKeepsOrder(b: nat, q: Queue, es: List<Event>)
    requires Ordered(b, q)
    ensures Ordered(b, Run(b, q, es))
    decreases es
  {
    if es.Cons? {
      if es.head.Sort? {
        SortKeepsOrder(b, q, es.head.rq);
      } else {
        FirstKeepsOrder(b, q, es.head);
      }
      RunKeepsOrder(b, Step(b, q, es.head), es.tail);
    }
  }

  lemma {:induction false} FirstKeepsOrder(b: nat, q: Queue, e: Event)
    requires Ordered(b, q) && !e.Sort?
    ensures Ordered(b, Step(b, q, e))
  {
  }

  // ---------------------------------------------------------------- the one-way elevator

  predicate Rising(q: Queue) {
    forall i, j :: 0 <= i < j < |q| ==> q[i].pos <= q[j].pos
  }

  /** All of one kind and without flags. */
  predicate Plain(q: Queue, write: bool, discard: bool) {
    forall i :: 0 <= i < |q| ==> q[i].write == write && q[i].discard == discard && !q[i].stop
  }

  predicate AtOrAbove(b: nat, q: Queue) {
    forall i :: 0 <= i < |q| ==> q[i].pos >= b
  }

  predicate Below(b: nat, q: Queue) {
    forall i :: 0 <= i < |q| ==> q[i].pos < b
  }

  lemma {:induction false} FarApartInOrder(b: nat, q: Queue, write: bool, discard: bool, i: nat, j: nat)
    requires Ordered(b, q) && Plain(q, write, discard) && i < j < |q|
    ensures Upto(b, q[i].pos, q[j].pos)
  {
    if i + 1 < j {
      FarApartInOrder(b, q, write, discard, i, j - 1);
    }
    assert InOrder(b, q[j - 1], q[j]);
  }

  /** How many entries come before the first one below the boundary. */
  function Sweep(b: nat, q: Queue): (m: nat)
    ensures m <= |q|
  {
    if q == [] || q[0].pos < b then 0 else 1 + Sweep(b, q[1..])
  }

  lemma {:induction false} SweepIs(b: nat, q: Queue)
    ensures forall i :: 0 <= i < Sweep(b, q) ==> q[i].pos >= b
    ensures Sweep(b, q) < |q| ==> q[Sweep(b, q)].pos < b
  {
    if !(q == [] || q[0].pos < b) {
      SweepIs(b, q[1..]);
      forall i | 0 <= i < Sweep(b, q) ensures q[i].pos >= b {
        if i > 0 { assert q[i] == q[1..][i - 1]; }
      }
    }
  }

  /** A stretch of one kind without flags is one sweep up from the boundary and one up to it. */
  lemma {:induction false} OneWayElevator(b: nat, front: Queue, back: Queue, write: bool, discard: bool)
    requires Ordered(b, front + back) && Plain(back, write, discard)
    ensures var m := Sweep(b, back);
      Rising(back[..m]) && AtOrAbove(b, back[..m]) && Rising(back[m..]) && Below(b, back[m..])
  {
    forall i | 0 <= i < |back| - 1 ensures InOrder(b, back[i], back[i + 1]) {
      var q := front + back;
      assert InOrder(b, q[|front| + i], q[|front| + i + 1]);
    }
    var m := Sweep(b, back);
    SweepIs(b, back);
    forall i, j | 0 <= i < j < |back| ensures Upto(b, back[i].pos, back[j].pos) {
      FarApartInOrder(b, back, write, discard, i, j);
    }
  }

  /** Whatever was sorted in behind a wall, and whatever left the queue meanwhile: a last stretch of one
      kind without flags is in one-way elevator order. */
  lemma {:induction false} SortedStretch(b: nat, q: Queue, es: List<Event>, front: Queue, back: Queue,
      write: bool, discard: bool)
    requires Ordered(b, q) && Run(b, q, es) == front + back && Plain(back, write, discard)
    ensures var m := Sweep(b, back);
      Rising(back[..m]) && AtOrAbove(b, back[..m]) && Rising(back[m..]) && Below(b, back[m..])
  {
    RunKeepsOrder(b, q, es);
    OneWayElevator(b, front, back, write, discard);
  }
}
