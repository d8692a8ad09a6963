/**
 The deadline scheduler's data as the object its callbacks update in place.  Every method is proved to
 take the matching step of DeadlineModel and to keep the invariant of its runs.
 */
module DeadlineCode {
  import opened Lists
  import opened DeadlineModel
  import opened DeadlineProof

  lemma {:induction false} LatterIs(tree: map<nat, Rq>, n: nat, k: nat)
    requires NextKey(tree, n, k)
    ensures Latter(tree, n) == Some(tree[k])
  {
  }

  /** deadline_latter_request: the next request in sector order. */
  method LatterRequest(tree: map<nat, Rq>, n: nat) returns (r: Option<Rq>)
    ensures r == Latter(tree, n)
  {
    r := None;
    var keys, best := tree.Keys, n;
    while keys != {}
      invariant keys <= tree.Keys
      invariant r.None? ==> best == n && forall j :: j in tree && j > n ==> j in keys
      invariant r.Some? ==> best in tree && best > n && r.value == tree[best]
      invariant r.Some? ==> forall j :: j in tree && j > n && j !in keys ==> best <= j
      decreases |keys|
    {
      var k :| k in keys;
      keys := keys - {k};
      if k > n && (r.None? || k < best) {
        best, r := k, Some(tree[k]);
      }
    }
    if r.Some? {
      assert NextKey(tree, n, best);
      LatterIs(tree, n, best);
    }
  }

  class DeadlineData {
    const tunables: Tunables
    var read: Side
    var write: Side
    var info: map<Rq, Info>
    var batching: nat
    var starved: nat
    var lastSector: nat
    var nrSorted: int
    var out: List<Rq>

    ghost function Abs(): State
      reads this
    {
      State(read, write, info, batching, starved, lastSector, nrSorted, out)
    }

    constructor (t: Tunables)
      ensures tunables == t && Abs() == Init() && Good(Abs(), t, 0)
    {
      tunables := t;
      read, write, info := Side(map[], Nil, None), Side(map[], Nil, None), map[];
      batching, starved, lastSector, nrSorted, out := 0, 0, 0, 0, Nil;
      new;
      InitGood(t);
    }

    method StoreSide(w: bool, d: Side)
      modifies this`read, this`write
      ensures Abs() == SetSide(old(Abs()), w, d)
    {
      if w { write := d; } else { read := d; }
    }

    /** deadline_remove_request and deadline_del_rq_rb */
    method RemoveRq(x: Rq)
      requires x in info
      modifies this`read, this`write
      ensures Abs() == RemoveRequest(old(Abs()), x)
    {
      hide Latter;
      var d := if x.write then write else read;
      var n := info[x].sector;
      d := d.(fifo := Remove(d.fifo, x));
      if d.next == Some(x) {
        var later := LatterRequest(d.tree, n);
        d := d.(next := later);
      }
      d := d.(tree := d.tree - {n});
      StoreSide(x.write, d);
    }

    /** deadline_move_request */
    method MoveRq(x: Rq)
      requires x in info
      modifies this`read, this`write, this`lastSector, this`nrSorted, this`out
      ensures Abs() == MoveRequest(old(Abs()), x)
    {
      hide Latter, RemoveRequest;
      ghost var s := Abs();
      var d := if x.write then write else read;
      var later := LatterRequest(d.tree, info[x].sector);
      read := read.(next := None);
      write := write.(next := None);
      StoreSide(x.write, d.(next := later));
      lastSector := info[x].end;
      RemoveFixes(Abs(), x);
      RemoveRq(x);
      nrSorted := nrSorted - 1;
      out := Cons(x, out);
    }

    /** deadline_add_rq_rb */
    method AddRqRb(x: Rq)
      requires x in info && TreeKnown(SideOf(Abs(), x.write), info, x.write)
      modifies this`read, this`write, this`lastSector, this`nrSorted, this`out
      ensures Abs() == AddRb(old(Abs()), x)
    {
      hide MoveRequest;
      ghost var s := Abs();
      var n := info[x].sector;
      var d := if x.write then write else read;
      ghost var first := d;
      while n in d.tree
        invariant d != first ==> n in first.tree && n !in d.tree
        invariant Abs() == (if d == first then s else MoveRequest(s, first.tree[n])) && d == SideOf(Abs(), x.write)
        invariant d == first ==> TreeKnown(d, info, x.write)
        decreases n in d.tree
      {
        var y := d.tree[n];
        MoveFrees(s, y);
        MoveRq(y);
        d := if x.write then write else read;
      }
      StoreSide(x.write, d.(tree := d.tree[n := x]));
    }

    /** The scheduler's invariant, the last request having been added at time `now` at the latest. */
    ghost predicate Valid(now: nat)
      reads this
    {
      Good(Abs(), tunables, now)
    }

    /** deadline_add_request */
    method Add(x: Rq, sector: nat, end: nat, ghost now: nat, jiffies: nat)
      requires Valid(now) && !Held(Abs(), x) && now <= jiffies
      modifies this
      ensures Valid(jiffies) && Abs() == AddRequest(old(Abs()), tunables, x, sector, end, jiffies)
    {
      hide AddRb, GoodBut;
      ghost var s := Abs();
      AddGood(s, tunables, now, x, sector, end, jiffies);
      FreeGood(s, tunables, now, x, Info(sector, end, jiffies + Expiry(tunables, x.write)));
      nrSorted := nrSorted + 1;
      info := info[x := Info(sector, end, jiffies + (if x.write then tunables.writeExpire else tunables.readExpire))];
      TreesKnown(Abs().(nrSorted := s.nrSorted), tunables, now, None, x.write);
      AddRqRb(x);
      var d := if x.write then write else read;
      StoreSide(x.write, d.(fifo := Append(d.fifo, Cons(x, Nil))));
    }

    /** deadline_merged_request, once the bio has changed the request */
    method AfterMerge(x: Rq, sector: nat, end: nat, ghost now: nat)
      requires Valid(now) && Held(Abs(), x)
      modifies this
      ensures Valid(now) && Abs() == MergedRequest(old(Abs()), x, sector, end)
    {
      hide AddRb, GoodBut, Held;
      ghost var s := Abs();
      MergedGood(s, tunables, now, x, sector, end);
      HeldKnown(s, tunables, now, x);
      UnhookGood(s, tunables, now, x, sector, end);
      var i := info[x];
      info := info[x := i.(sector := sector, end := end)];
      if sector != i.sector {
        var d := if x.write then write else read;
        StoreSide(x.write, d.(tree := d.tree - {i.sector}));
        TreesKnown(Abs(), tunables, now, Some(x), x.write);
        AddRqRb(x);
      }
    }

    /** deadline_merged_requests: y has been merged into x */
    method AfterJoin(x: Rq, y: Rq, ghost now: nat)
      requires Valid(now) && Held(Abs(), x) && Held(Abs(), y) && x != y && x.write == y.write
      modifies this
      ensures Valid(now) && Abs() == MergedRequests(old(Abs()), x, y)
    {
      hide GoodBut, Held, RemoveRequest;
      ghost var s := Abs();
      JoinedGood(s, tunables, now, x, y);
      HeldKnown(s, tunables, now, x);
      HeldKnown(s, tunables, now, y);
      var i, j := info[x], info[y];
      info := info[x := i.(end := j.end)];
      if j.expire < i.expire {
        var d := if x.write then write else read;
        StoreSide(x.write, d.(fifo := InsertAfter(Remove(d.fifo, x), y, x)));
        info := info[x := info[x].(expire := j.expire)];
        assert info == s.info[x := i.(end := j.end, expire := j.expire)];
      }
      RemoveFixes(Abs(), y);
      RemoveRq(y);
      nrSorted := nrSorted - 1;
    }

    /** deadline_check_fifo */
    method CheckFifo(w: bool, jiffies: nat) returns (expired: bool)
      requires SideOf(Abs(), w).fifo.Cons?
      ensures expired <==> jiffies > InfoOf(Abs(), SideOf(Abs(), w).fifo.head).expire
    {
      var d := if w then write else read;
      var i := if d.fifo.head in info then info[d.fifo.head] else Info(0, 0, 0);
      expired := jiffies > i.expire;
    }

    /** The request a new batch starts with. */
    method FindRq(w: bool, jiffies: nat) returns (x: Rq)
      requires SideOf(Abs(), w).fifo.Cons?
      ensures FindRequest(Abs(), w, jiffies) == Some(x)
    {
      var d := if w then write else read;
      var expired := CheckFifo(w, jiffies);
      if expired || d.next.None? { x := d.fifo.head; } else { x := d.next.value; }
    }

    /** deadline_dispatch_requests up to the choice of a request */
    method ChooseRq(jiffies: nat) returns (c: Choice)
      modifies this`starved
      ensures c == Choose(old(Abs()), tunables, jiffies)
      ensures starved == if c.Pick? then c.starved else old(starved)
    {
      var anyRead, anyWrite := read.fifo.Cons?, write.fifo.Cons?;
      var next := if write.next.Some? then write.next else read.next;
      if next.Some? && batching < tunables.fifoBatch {
        return Pick(next.value, batching, starved);
      }
      var w := false;
      if anyRead {
        if anyWrite {
          var enough := starved >= tunables.writesStarved;
          starved := starved + 1;
          w := enough;
        }
      } else if anyWrite {
        w := true;
      } else {
        return Idle;
      }
      if w { starved := 0; }
      var x := FindRq(w, jiffies);
      c := Pick(x, 0, starved);
    }

    /** deadline_dispatch_requests; the BUG_ONs on empty trees are unreachable */
    method DispatchRequests(jiffies: nat, ghost now: nat) returns (one: bool)
      requires Valid(now)
      modifies this
      ensures Valid(now) && Abs() == Dispatch(old(Abs()), tunables, jiffies)
      ensures one <==> old(read.fifo.Cons? || write.fifo.Cons?)
      ensures nrSorted == old(nrSorted) - if one then 1 else 0
    {
      hide GoodBut, MoveRequest, Choose, Held;
      ghost var s := Abs();
      ChooseHeld(s, tunables, now, jiffies);
      DispatchGood(s, tunables, now, jiffies);
      var c := ChooseRq(jiffies);
      if c.Idle? { return false; }
      HeldKnown(s, tunables, now, c.rq);
      batching := c.batching + 1;
      MoveRq(c.rq);
      one := true;
    }

    /** elv_drain_elevator: however the clock moves, the scheduler ends up empty and the complaint is never printed. */
    method DrainElevator(clock: nat -> nat, ghost now: nat) returns (turns: nat)
      requires Valid(now)
      modifies this
      ensures Valid(now) && nrSorted == 0 && read.fifo == Nil && write.fifo == Nil
      ensures turns == old(nrSorted)
    {
      turns := 0;
      var more := true;
      while more
        invariant Valid(now) && nrSorted >= 0 && nrSorted + turns == old(nrSorted)
        invariant !more ==> read.fifo == Nil && write.fifo == Nil
        decreases nrSorted, if more then 1 else 0
      {
        more := DispatchRequests(clock(turns), now);
        if more { turns := turns + 1; }
      }
    }
  }

  /** What deadline_add_rq_rb needs to know of a tree. */
  ghost predicate TreeKnown(d: Side, info: map<Rq, Info>, write: bool) {
    forall k :: k in d.tree ==> d.tree[k] in info && info[d.tree[k]].sector == k && d.tree[k].write == write
  }

  lemma {:induction false} TreesKnown(s: State, t: Tunables, now: nat, off: Option<Rq>, write: bool)
    requires GoodBut(s, t, now, off)
    ensures TreeKnown(SideOf(s, write), s.info, write)
  {
  }

  lemma {:induction false} HeldKnown(s: State, t: Tunables, now: nat, x: Rq)
    requires Good(s, t, now) && Held(s, x)
    ensures x in s.info
  {
  }

  lemma {:induction false} RemoveFixes(s: State, x: Rq)
    ensures var r := RemoveRequest(s, x); r == s.(read := r.read, write := r.write)
  {
  }

  /** Once the request in the way is gone its sector is free: the loop of deadline_add_rq_rb runs at most once. */
  lemma {:induction false} MoveFrees(s: State, y: Rq)
    ensures InfoOf(s, y).sector !in SideOf(MoveRequest(s, y), y.write).tree
  {
  }
}
