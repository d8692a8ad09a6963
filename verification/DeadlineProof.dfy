/**
 What every run of the deadline scheduler keeps, and how long reads can hold up a write.
 */
module DeadlineProof {
  import opened Lists
  import opened DeadlineModel

  // ---------------------------------------------------------------- lists

  function Expire(info: map<Rq, Info>, x: Rq): nat {
    if x in info then info[x].expire else 0
  }

  /** Everything in the list expires at or after n. */
  predicate NotBefore(l: List<Rq>, info: map<Rq, Info>, n: nat) {
    l.Cons? ==> n <= Expire(info, l.head) && NotBefore(l.tail, info, n)
  }

  /** The list is in order of expiry. */
  predicate Ordered(l: List<Rq>, info: map<Rq, Info>) {
    l.Cons? ==> NotBefore(l.tail, info, Expire(info, l.head)) && Ordered(l.tail, info)
  }

  /** Everything in the list expires by n. */
  predicate NotAfter(l: List<Rq>, info: map<Rq, Info>, n: nat) {
    l.Cons? ==> Expire(info, l.head) <= n && NotAfter(l.tail, info, n)
  }

  lemma {:induction false} RemoveOrdered(l: List<Rq>, x: Rq, info: map<Rq, Info>, lo: nat, hi: nat)
    ensures NotBefore(l, info, lo) ==> NotBefore(Remove(l, x), info, lo)
    ensures NotAfter(l, info, hi) ==> NotAfter(Remove(l, x), info, hi)
  {
    if l.Cons? && l.head != x { RemoveOrdered(l.tail, x, info, lo, hi); }
  }

  lemma {:induction false} RemoveSorted(l: List<Rq>, x: Rq, info: map<Rq, Info>)
    requires Ordered(l, info)
    ensures Ordered(Remove(l, x), info)
  {
    if l.Cons? && l.head != x {
      RemoveSorted(l.tail, x, info);
      RemoveOrdered(l.tail, x, info, Expire(info, l.head), 0);
    }
  }

  lemma {:induction false} AppendOrdered(l: List<Rq>, x: Rq, info: map<Rq, Info>, lo: nat, hi: nat)
    requires NotAfter(l, info, Expire(info, x)) && Ordered(l, info)
    ensures var r := Append(l, Cons(x, Nil));
            && Ordered(r, info)
            && (NotBefore(l, info, lo) && lo <= Expire(info, x) ==> NotBefore(r, info, lo))
            && (NotAfter(l, info, hi) && Expire(info, x) <= hi ==> NotAfter(r, info, hi))
  {
    if l.Cons? {
      AppendOrdered(l.tail, x, info, lo, hi);
      AppendOrdered(l.tail, x, info, Expire(info, l.head), hi);
    }
  }

  /** Only the expiry of members matters. */
  lemma {:induction false} SameExpiry(l: List<Rq>, info: map<Rq, Info>, new_: map<Rq, Info>, lo: nat, hi: nat)
    requires forall y :: Member(l, y) ==> Expire(new_, y) == Expire(info, y)
    ensures NotBefore(l, new_, lo) <==> NotBefore(l, info, lo)
    ensures NotAfter(l, new_, hi) <==> NotAfter(l, info, hi)
    ensures Ordered(l, new_) <==> Ordered(l, info)
  {
    if l.Cons? {
      SameExpiry(l.tail, info, new_, lo, hi);
      SameExpiry(l.tail, info, new_, Expire(info, l.head), hi);
    }
  }

  lemma {:induction false} LaterBound(l: List<Rq>, info: map<Rq, Info>, m: nat, n: nat)
    requires NotAfter(l, info, m) && m <= n
    ensures NotAfter(l, info, n)
  {
    if l.Cons? { LaterBound(l.tail, info, m, n); }
  }

  lemma {:induction false} InsertOrdered(l: List<Rq>, y: Rq, x: Rq, info: map<Rq, Info>, lo: nat, hi: nat)
    requires Member(l, y) && Expire(info, x) == Expire(info, y) && Ordered(l, info)
    ensures var r := InsertAfter(l, y, x);
            && Ordered(r, info)
            && (NotBefore(l, info, lo) ==> NotBefore(r, info, lo))
            && (NotAfter(l, info, hi) ==> NotAfter(r, info, hi))
  {
    if l.head != y {
      InsertOrdered(l.tail, y, x, info, lo, hi);
      InsertOrdered(l.tail, y, x, info, Expire(info, l.head), hi);
    }
  }

  // ---------------------------------------------------------------- one direction

  /** The tree and the queue hold the same requests, but for one that is being repositioned. */
  ghost predicate Agree(d: Side, info: map<Rq, Info>, write: bool, off: Option<Rq>) {
    && Distinct(d.fifo)
    && (forall x :: Member(d.fifo, x) ==> x.write == write && x in info)
    && (forall x :: Member(d.fifo, x) && Some(x) != off ==> info[x].sector in d.tree && d.tree[info[x].sector] == x)
    && (forall k :: k in d.tree ==>
          && Member(d.fifo, d.tree[k]) && Some(d.tree[k]) != off
          && d.tree[k] in info && info[d.tree[k]].sector == k)
  }

  ghost predicate NextIn(d: Side) {
    d.next.Some? ==> Member(d.fifo, d.next.value)
  }

  ghost predicate InTime(d: Side, info: map<Rq, Info>, latest: nat) {
    Ordered(d.fifo, info) && NotAfter(d.fifo, info, latest)
  }

  ghost predicate SideGood(d: Side, info: map<Rq, Info>, write: bool, off: Option<Rq>, latest: nat) {
    Agree(d, info, write, off) && NextIn(d) && InTime(d, info, latest)
  }

  /** Taking a request off one direction. */
  lemma {:induction false} TakeKeeps(d: Side, info: map<Rq, Info>, write: bool, off: Option<Rq>, latest: nat, x: Rq,
      next: Option<Rq>)
    requires SideGood(d, info, write, off, latest) && Member(d.fifo, x) && Some(x) != off
    requires next.Some? ==> Member(d.fifo, next.value) && next.value != x
    ensures var r := Side(d.tree - {info[x].sector}, Remove(d.fifo, x), next);
            SideGood(r, info, write, off, latest) && Length(r.fifo) == Length(d.fifo) - 1
  {
    RemoveKeeps(d.fifo, x);
    RemoveSorted(d.fifo, x, info);
    RemoveOrdered(d.fifo, x, info, 0, latest);
  }

  /** A request that is in neither list of a direction may change freely. */
  lemma {:induction false} FreeKeeps(d: Side, info: map<Rq, Info>, write: bool, off: Option<Rq>, latest: nat, x: Rq,
      i: Info)
    requires SideGood(d, info, write, off, latest) && !Member(d.fifo, x)
    ensures SideGood(d, info[x := i], write, off, latest)
  {
    SameExpiry(d.fifo, info, info[x := i], 0, latest);
  }

  // ---------------------------------------------------------------- both

  /** The invariant of a run, the last request having been added at time `now` at the latest. */
  ghost predicate GoodBut(s: State, t: Tunables, now: nat, off: Option<Rq>) {
    && SideGood(s.read, s.info, false, off, now + t.readExpire)
    && SideGood(s.write, s.info, true, off, now + t.writeExpire)
    && !(s.read.next.Some? && s.write.next.Some?)
    && s.nrSorted == Length(s.read.fifo) + Length(s.write.fifo)
  }

  ghost predicate Good(s: State, t: Tunables, now: nat) {
    GoodBut(s, t, now, None)
  }

  /** A request the scheduler holds. */
  predicate Held(s: State, x: Rq) {
    Member(SideOf(s, x.write).fifo, x)
  }

  lemma {:induction false} RemoveGood(s: State, t: Tunables, now: nat, off: Option<Rq>, x: Rq)
    requires GoodBut(s, t, now, off) && Held(s, x) && Some(x) != off
    ensures GoodBut(RemoveRequest(s, x).(nrSorted := s.nrSorted - 1), t, now, off)
    ensures forall y :: Held(RemoveRequest(s, x), y) <==> Held(s, y) && y != x
  {
    hide SideGood, Latter;
    var d := SideOf(s, x.write);
    assert x in s.info by { SideFacts(d, s.info, x.write, off, Expiry(t, x.write) + now, x); }
    var n := s.info[x].sector;
    var next := if d.next == Some(x) then Latter(d.tree, n) else d.next;
    assert next.Some? ==> Member(d.fifo, next.value) && next.value != x by {
      NextFacts(d, s.info, x.write, off, Expiry(t, x.write) + now, x);
    }
    TakeKeeps(d, s.info, x.write, off, Expiry(t, x.write) + now, x, next);
    HeldAfter(d, s.info, x.write, off, Expiry(t, x.write) + now, x);
    assert forall y :: Member(s.read.fifo, y) ==> !y.write by { SideDir(s.read, s.info, false, off, now + t.readExpire); }
  }

  lemma {:induction false} SideFacts(d: Side, info: map<Rq, Info>, write: bool, off: Option<Rq>, latest: nat, x: Rq)
    requires SideGood(d, info, write, off, latest) && Member(d.fifo, x)
    ensures x in info && x.write == write
  {
  }

  lemma {:induction false} SideDir(d: Side, info: map<Rq, Info>, write: bool, off: Option<Rq>, latest: nat)
    requires SideGood(d, info, write, off, latest)
    ensures forall y :: Member(d.fifo, y) ==> y.write == write && y in info
  {
  }

  lemma {:induction false} HeldAfter(d: Side, info: map<Rq, Info>, write: bool, off: Option<Rq>, latest: nat, x: Rq)
    requires SideGood(d, info, write, off, latest)
    ensures forall y :: Member(Remove(d.fifo, x), y) <==> Member(d.fifo, y) && y != x
  {
    RemoveKeeps(d.fifo, x);
  }

  lemma {:induction false} NextFacts(d: Side, info: map<Rq, Info>, write: bool, off: Option<Rq>, latest: nat, x: Rq)
    requires SideGood(d, info, write, off, latest) && Member(d.fifo, x)
    ensures x in info
    ensures var l := Latter(d.tree, info[x].sector); l.Some? ==> Member(d.fifo, l.value) && l.value != x
    ensures d.next.Some? ==> Member(d.fifo, d.next.value)
  {
  }

  lemma {:induction false} MoveGood(s: State, t: Tunables, now: nat, off: Option<Rq>, x: Rq)
    requires GoodBut(s, t, now, off) && Held(s, x) && Some(x) != off
    ensures GoodBut(MoveRequest(s, x), t, now, off)
    ensures forall y :: Held(MoveRequest(s, x), y) <==> Held(s, y) && y != x
  {
    hide Agree, InTime, Latter;
    var d := SideOf(s, x.write);
    NextFacts(d, s.info, x.write, off, Expiry(t, x.write) + now, x);
    var s1 := s.(read := s.read.(next := None), write := s.write.(next := None));
    var s2 := SetSide(s1, x.write, SideOf(s1, x.write).(next := Latter(d.tree, s.info[x].sector)));
    NextChanged(s.read, s2.read, s.info, false, off, now + t.readExpire);
    NextChanged(s.write, s2.write, s.info, true, off, now + t.writeExpire);
    var s3 := s2.(lastSector := s.info[x].end);
    RemoveGood(s3, t, now, off, x);
    assert forall y :: Held(s3, y) <==> Held(s, y);
  }

  lemma {:induction false} NextChanged(d: Side, e: Side, info: map<Rq, Info>, write: bool, off: Option<Rq>, latest: nat)
    requires SideGood(d, info, write, off, latest) && e == d.(next := e.next) && NextIn(e)
    ensures SideGood(e, info, write, off, latest)
  {
  }

  // ---------------------------------------------------------------- adding

  lemma {:induction false} LaterGood(s: State, t: Tunables, now: nat, off: Option<Rq>, later: nat)
    requires GoodBut(s, t, now, off) && now <= later
    ensures GoodBut(s, t, later, off)
  {
    LaterBound(s.read.fifo, s.info, now + t.readExpire, later + t.readExpire);
    LaterBound(s.write.fifo, s.info, now + t.writeExpire, later + t.writeExpire);
  }

  lemma {:induction false} FreeGood(s: State, t: Tunables, now: nat, x: Rq, i: Info)
    requires Good(s, t, now) && !Held(s, x)
    ensures Good(s.(info := s.info[x := i]), t, now)
  {
    hide SideGood;
    SideDir(s.read, s.info, false, None, now + t.readExpire);
    SideDir(s.write, s.info, true, None, now + t.writeExpire);
    FreeKeeps(s.read, s.info, false, None, now + t.readExpire, x, i);
    FreeKeeps(s.write, s.info, true, None, now + t.writeExpire, x, i);
  }

  /** Putting a request into the tree and at the end of the queue. */
  ghost function Link(s: State, x: Rq): State {
    var s1 := InsertRb(s, x);
    var d := SideOf(s1, x.write);
    SetSide(s1, x.write, d.(fifo := Append(d.fifo, Cons(x, Nil)))).(nrSorted := s.nrSorted + 1)
  }

  lemma {:induction false} LinkSide(d: Side, info: map<Rq, Info>, write: bool, latest: nat, x: Rq)
    requires SideGood(d, info, write, None, latest) && !Member(d.fifo, x) && x.write == write
    requires x in info && info[x].sector !in d.tree && info[x].expire == latest
    ensures var r := d.(tree := d.tree[info[x].sector := x], fifo := Append(d.fifo, Cons(x, Nil)));
            SideGood(r, info, write, None, latest) && Length(r.fifo) == Length(d.fifo) + 1
  {
    AppendKeeps(d.fifo, x);
    AppendOrdered(d.fifo, x, info, 0, latest);
  }

  lemma {:induction false} LinkGood(s: State, t: Tunables, now: nat, x: Rq)
    requires Good(s, t, now) && !Held(s, x) && x in s.info
    requires s.info[x].sector !in SideOf(s, x.write).tree && s.info[x].expire == now + Expiry(t, x.write)
    ensures Good(Link(s, x), t, now)
  {
    hide SideGood;
    LinkSide(SideOf(s, x.write), s.info, x.write, now + Expiry(t, x.write), x);
  }

  /** The request that stands in the way of a sector. */
  lemma {:induction false} AliasHeld(s: State, t: Tunables, now: nat, off: Option<Rq>, write: bool, n: nat)
    requires GoodBut(s, t, now, off) && n in SideOf(s, write).tree
    ensures var y := SideOf(s, write).tree[n];
            y.write == write && Held(s, y) && Some(y) != off && n !in SideOf(MoveRequest(s, y), write).tree
  {
  }

  /** The state once no request stands in the way of x. */
  ghost function Cleared(s: State, write: bool, n: nat): State {
    var d := SideOf(s, write);
    if n in d.tree then MoveRequest(s, d.tree[n]) else s
  }

  lemma {:induction false} ClearedGood(s: State, t: Tunables, now: nat, off: Option<Rq>, write: bool, n: nat)
    requires GoodBut(s, t, now, off)
    ensures var r := Cleared(s, write, n);
            && GoodBut(r, t, now, off) && n !in SideOf(r, write).tree && r.info == s.info
            && (forall y :: Held(r, y) ==> Held(s, y)) && (off.Some? && Held(s, off.value) ==> Held(r, off.value))
  {
    hide GoodBut, Held;
    if n in SideOf(s, write).tree {
      AliasHeld(s, t, now, off, write, n);
      MoveGood(s, t, now, off, SideOf(s, write).tree[n]);
      MoveFixes(s, SideOf(s, write).tree[n]);
    }
  }

  lemma {:induction false} MoveFixes(s: State, x: Rq)
    ensures var r := MoveRequest(s, x);
            r.info == s.info && r.batching == s.batching && r.starved == s.starved && r.nrSorted == s.nrSorted - 1
    ensures forall k :: MoveRequest(s.(nrSorted := k), x) == MoveRequest(s, x).(nrSorted := k - 1)
  {
  }

  lemma {:induction false} AddIs(s: State, t: Tunables, x: Rq, sector: nat, end: nat, now: nat)
    ensures var s1 := s.(info := s.info[x := Info(sector, end, now + Expiry(t, x.write))]);
            AddRequest(s, t, x, sector, end, now) == Link(Cleared(s1, x.write, sector), x)
  {
    hide MoveRequest;
    var s1 := s.(info := s.info[x := Info(sector, end, now + Expiry(t, x.write))]);
    var d := SideOf(s1, x.write);
    if sector in d.tree { MoveFixes(s1, d.tree[sector]); }
  }

  lemma {:induction false} AddGood(s: State, t: Tunables, now: nat, x: Rq, sector: nat, end: nat, later: nat)
    requires Good(s, t, now) && !Held(s, x) && now <= later
    ensures Good(AddRequest(s, t, x, sector, end, later), t, later)
  {
    hide GoodBut, Held, AddRequest, Link, Cleared;
    LaterGood(s, t, now, None, later);
    var i := Info(sector, end, later + Expiry(t, x.write));
    FreeGood(s, t, later, x, i);
    var s1 := s.(info := s.info[x := i]);
    AddIs(s, t, x, sector, end, later);
    HeldInfo(s, s1, x);
    ClearedGood(s1, t, later, None, x.write, sector);
    LinkGood(Cleared(s1, x.write, sector), t, later, x);
  }

  lemma {:induction false} HeldInfo(s: State, r: State, x: Rq)
    requires r.read == s.read && r.write == s.write
    ensures Held(s, x) <==> Held(r, x)
  {
  }

  // ---------------------------------------------------------------- merging a bio

  /** What the invariant says about a direction depends on first sectors and expiry times only. */
  lemma {:induction false} SameInfo(d: Side, info: map<Rq, Info>, new_: map<Rq, Info>, write: bool, off: Option<Rq>,
      latest: nat)
    requires SideGood(d, info, write, off, latest)
    requires forall y :: Member(d.fifo, y) ==>
               y in new_ && (Some(y) != off ==> new_[y].sector == info[y].sector) && new_[y].expire == info[y].expire
    ensures SideGood(d, new_, write, off, latest)
  {
    SameExpiry(d.fifo, info, new_, 0, latest);
  }

  lemma {:induction false} EndGood(s: State, t: Tunables, now: nat, x: Rq, end: nat)
    requires Good(s, t, now) && Held(s, x)
    ensures Good(s.(info := s.info[x := InfoOf(s, x).(end := end)]), t, now)
  {
    hide SideGood;
    var info := s.info[x := InfoOf(s, x).(end := end)];
    SideDir(s.read, s.info, false, None, now + t.readExpire);
    SideDir(s.write, s.info, true, None, now + t.writeExpire);
    SameInfo(s.read, s.info, info, false, None, now + t.readExpire);
    SameInfo(s.write, s.info, info, true, None, now + t.writeExpire);
  }

  /** A front merge takes the request out of the tree while its first sector changes ... */
  lemma {:induction false} UnhookSide(d: Side, info: map<Rq, Info>, new_: map<Rq, Info>, write: bool, latest: nat,
      x: Rq)
    requires SideGood(d, info, write, None, latest) && Member(d.fifo, x)
    requires x in new_ && new_ == info[x := new_[x]] && new_[x].expire == info[x].expire
    ensures SideGood(d.(tree := d.tree - {info[x].sector}), new_, write, Some(x), latest)
  {
    SameExpiry(d.fifo, info, new_, 0, latest);
  }

  /** ... and puts it back. */
  lemma {:induction false} RehookSide(d: Side, info: map<Rq, Info>, write: bool, latest: nat, x: Rq)
    requires SideGood(d, info, write, Some(x), latest) && Member(d.fifo, x) && info[x].sector !in d.tree
    ensures SideGood(d.(tree := d.tree[info[x].sector := x]), info, write, None, latest)
  {
  }

  lemma {:induction false} OtherSide(d: Side, info: map<Rq, Info>, write: bool, latest: nat, x: Rq, off: Option<Rq>)
    requires SideGood(d, info, write, off, latest) && x.write != write && (off == None || off == Some(x))
    ensures SideGood(d, info, write, None, latest) && SideGood(d, info, write, Some(x), latest)
  {
  }

  lemma {:induction false} UnhookGood(s: State, t: Tunables, now: nat, x: Rq, sector: nat, end: nat)
    requires Good(s, t, now) && Held(s, x)
    ensures var i, d := InfoOf(s, x), SideOf(s, x.write);
            var r := SetSide(s.(info := s.info[x := i.(sector := sector, end := end)]), x.write, d.(tree := d.tree - {i.sector}));
            GoodBut(r, t, now, Some(x)) && Held(r, x)
  {
    hide SideGood;
    var i, d := InfoOf(s, x), SideOf(s, x.write);
    var info := s.info[x := i.(sector := sector, end := end)];
    SideDir(s.read, s.info, false, None, now + t.readExpire);
    SideDir(s.write, s.info, true, None, now + t.writeExpire);
    UnhookSide(d, s.info, info, x.write, now + Expiry(t, x.write), x);
    FreeKeeps(SideOf(s, !x.write), s.info, !x.write, None, now + Expiry(t, !x.write), x, info[x]);
    OtherSide(SideOf(s, !x.write), info, !x.write, now + Expiry(t, !x.write), x, None);
  }

  lemma {:induction false} RehookGood(s: State, t: Tunables, now: nat, x: Rq)
    requires GoodBut(s, t, now, Some(x)) && Held(s, x) && InfoOf(s, x).sector !in SideOf(s, x.write).tree
    ensures Good(InsertRb(s, x), t, now)
  {
    hide SideGood;
    SideDir(s.read, s.info, false, Some(x), now + t.readExpire);
    SideDir(s.write, s.info, true, Some(x), now + t.writeExpire);
    RehookSide(SideOf(s, x.write), s.info, x.write, now + Expiry(t, x.write), x);
    OtherSide(SideOf(s, !x.write), s.info, !x.write, now + Expiry(t, !x.write), x, Some(x));
  }

  lemma {:induction false} MergedGood(s: State, t: Tunables, now: nat, x: Rq, sector: nat, end: nat)
    requires Good(s, t, now) && Held(s, x)
    ensures Good(MergedRequest(s, x, sector, end), t, now)
  {
    hide GoodBut, Held, Cleared;
    var i, d := InfoOf(s, x), SideOf(s, x.write);
    EndGood(s, t, now, x, end);
    if sector != i.sector {
      UnhookGood(s, t, now, x, sector, end);
      var r := SetSide(s.(info := s.info[x := i.(sector := sector, end := end)]), x.write, d.(tree := d.tree - {i.sector}));
      ClearedGood(r, t, now, Some(x), x.write, sector);
      RehookGood(Cleared(r, x.write, sector), t, now, x);
      AddRbIs(r, x);
    }
  }

  lemma {:induction false} AddRbIs(s: State, x: Rq)
    ensures AddRb(s, x) == InsertRb(Cleared(s, x.write, InfoOf(s, x).sector), x)
  {
  }

  // ---------------------------------------------------------------- merging two requests

  /** The request that takes over its neighbour's place and expiry. */
  lemma {:induction false} TakeoverSide(d: Side, info: map<Rq, Info>, new_: map<Rq, Info>, write: bool, latest: nat,
      x: Rq, y: Rq)
    requires SideGood(d, info, write, None, latest) && Member(d.fifo, x) && Member(d.fifo, y) && x != y
    requires x in new_ && new_ == info[x := new_[x]] && new_[x].sector == info[x].sector
    requires new_[x].expire == info[y].expire
    ensures var r := d.(fifo := InsertAfter(Remove(d.fifo, x), y, x));
            SideGood(r, new_, write, None, latest) && Length(r.fifo) == Length(d.fifo)
    ensures forall z :: Member(InsertAfter(Remove(d.fifo, x), y, x), z) <==> Member(d.fifo, z)
  {
    var l := Remove(d.fifo, x);
    RemoveKeeps(d.fifo, x);
    RemoveSorted(d.fifo, x, info);
    RemoveOrdered(d.fifo, x, info, 0, latest);
    SameExpiry(l, info, new_, 0, latest);
    InsertKeeps(l, y, x);
    InsertOrdered(l, y, x, new_, 0, latest);
  }

  lemma {:induction false} TakeoverGood(s: State, t: Tunables, now: nat, x: Rq, y: Rq)
    requires Good(s, t, now) && Held(s, x) && Held(s, y) && x != y && x.write == y.write
    ensures var d, i, j := SideOf(s, x.write), InfoOf(s, x), InfoOf(s, y);
            var r := SetSide(s.(info := s.info[x := i.(end := j.end, expire := j.expire)]), x.write,
                             d.(fifo := InsertAfter(Remove(d.fifo, x), y, x)));
            Good(r, t, now) && Held(r, y)
  {
    hide SideGood;
    var d, i, j := SideOf(s, x.write), InfoOf(s, x), InfoOf(s, y);
    var info := s.info[x := i.(end := j.end, expire := j.expire)];
    SideDir(s.read, s.info, false, None, now + t.readExpire);
    SideDir(s.write, s.info, true, None, now + t.writeExpire);
    TakeoverSide(d, s.info, info, x.write, now + Expiry(t, x.write), x, y);
    FreeKeeps(SideOf(s, !x.write), s.info, !x.write, None, now + Expiry(t, !x.write), x, info[x]);
  }

  lemma {:induction false} JoinedGood(s: State, t: Tunables, now: nat, x: Rq, y: Rq)
    requires Good(s, t, now) && Held(s, x) && Held(s, y) && x != y && x.write == y.write
    ensures Good(MergedRequests(s, x, y), t, now)
  {
    hide GoodBut, Held, RemoveRequest;
    var i, j, d := InfoOf(s, x), InfoOf(s, y), SideOf(s, x.write);
    var s1 := s.(info := s.info[x := i.(end := j.end)]);
    if j.expire < i.expire {
      TakeoverGood(s, t, now, x, y);
      var r := SetSide(s1.(info := s.info[x := i.(end := j.end, expire := j.expire)]), x.write,
                       d.(fifo := InsertAfter(Remove(d.fifo, x), y, x)));
      RemoveGood(r, t, now, None, y);
    } else {
      EndGood(s, t, now, x, j.end);
      HeldInfo(s, s1, y);
      RemoveGood(s1, t, now, None, y);
    }
  }

  // ---------------------------------------------------------------- dispatching

  /** A dispatch finds something exactly when something is held, and what it finds is held; neither
      tree is found empty while its queue is not. */
  lemma {:induction false} ChooseHeld(s: State, t: Tunables, now: nat, time: nat)
    requires Good(s, t, now)
    ensures var c := Choose(s, t, time);
            && (c.Idle? <==> s.read.fifo.Nil? && s.write.fifo.Nil?)
            && (c.Pick? ==> Held(s, c.rq))
    ensures s.read.fifo.Cons? ==> s.read.tree != map[]
    ensures s.write.fifo.Cons? ==> s.write.tree != map[]
  {
  }

  lemma {:induction false} DispatchGood(s: State, t: Tunables, now: nat, time: nat)
    requires Good(s, t, now)
    ensures Good(Dispatch(s, t, time), t, now)
    ensures var r := Dispatch(s, t, time);
            r.nrSorted == s.nrSorted - if Choose(s, t, time).Idle? then 0 else 1
  {
    hide GoodBut, MoveRequest, Choose;
    ChooseHeld(s, t, now, time);
    var c := Choose(s, t, time);
    if c.Pick? {
      var s1 := s.(batching := c.batching + 1, starved := c.starved);
      SameGood(s, s1, t, now);
      HeldInfo(s, s1, c.rq);
      MoveGood(s1, t, now, None, c.rq);
      MoveFixes(s1, c.rq);
    }
  }

  lemma {:induction false} SameGood(s: State, r: State, t: Tunables, now: nat)
    requires Good(s, t, now) && r.read == s.read && r.write == s.write && r.info == s.info && r.nrSorted == s.nrSorted
    ensures Good(r, t, now)
  {
  }

  // ---------------------------------------------------------------- runs

  /** What the block layer does with the scheduler: time does not go back, a request is added once,
      and only requests of the scheduler are merged. */
  ghost predicate Allowed(s: State, now: nat, e: Event) {
    match e
    case Added(x, _, _, time) => !Held(s, x) && now <= time
    case Merged(x, _, _) => Held(s, x)
    case Joined(x, y) => Held(s, x) && Held(s, y) && x != y && x.write == y.write
    case Dispatched(_) => true
  }

  function Clock(now: nat, e: Event): nat {
    if e.Added? && e.now > now then e.now else now
  }

  ghost predicate Run(s: State, t: Tunables, now: nat, es: List<Event>)
    decreases es
  {
    es.Cons? ==> Allowed(s, now, es.head) && Run(Apply(s, t, es.head), t, Clock(now, es.head), es.tail)
  }

  ghost function After(s: State, t: Tunables, es: List<Event>): State
    decreases es
  {
    match es
    case Nil => s
    case Cons(e, r) => After(Apply(s, t, e), t, r)
  }

  /** The time of the last addition. */
  function Time(now: nat, es: List<Event>): nat
    decreases es
  {
    if es.Nil? then now else Time(Clock(now, es.head), es.tail)
  }

  lemma {:induction false} InitGood(t: Tunables)
    ensures Good(Init(), t, 0)
  {
  }

  lemma {:induction false} StepGood(s: State, t: Tunables, now: nat, e: Event)
    requires Good(s, t, now) && Allowed(s, now, e)
    ensures Good(Apply(s, t, e), t, Clock(now, e))
  {
    hide GoodBut, AddRequest, MergedRequest, MergedRequests, Dispatch;
    match e
    case Added(x, sector, end, time) => AddGood(s, t, now, x, sector, end, time);
    case Merged(x, sector, end) => MergedGood(s, t, now, x, sector, end);
    case Joined(x, y) => JoinedGood(s, t, now, x, y);
    case Dispatched(time) => DispatchGood(s, t, now, time);
  }

  lemma {:induction false} RunGood(s: State, t: Tunables, now: nat, es: List<Event>)
    requires Good(s, t, now) && Run(s, t, now, es)
    ensures Good(After(s, t, es), t, Time(now, es))
    decreases es
  {
    hide GoodBut, Apply;
    if es.Cons? {
      StepGood(s, t, now, es.head);
      RunGood(Apply(s, t, es.head), t, Clock(now, es.head), es.tail);
    }
  }

  /** In every run: per direction the tree and the queue hold the same requests, the queue is in order
      of expiry, at most one next_rq is set and it is one of its tree, and nr_sorted counts them all. */
  lemma {:induction false} StructuresAgree(t: Tunables, es: List<Event>)
    requires Run(Init(), t, 0, es)
    ensures var s := After(Init(), t, es);
            && (forall x :: Member(s.read.fifo, x) <==> exists k :: k in s.read.tree && s.read.tree[k] == x)
            && (forall x :: Member(s.write.fifo, x) <==> exists k :: k in s.write.tree && s.write.tree[k] == x)
            && Distinct(s.read.fifo) && Distinct(s.write.fifo)
            && Ordered(s.read.fifo, s.info) && Ordered(s.write.fifo, s.info)
            && !(s.read.next.Some? && s.write.next.Some?)
            && (s.read.next.Some? ==> Member(s.read.fifo, s.read.next.value))
            && (s.write.next.Some? ==> Member(s.write.fifo, s.write.next.value))
            && s.nrSorted == Length(s.read.fifo) + Length(s.write.fifo)
  {
    InitGood(t);
    RunGood(Init(), t, 0, es);
    var s, now := After(Init(), t, es), Time(0, es);
    hide Agree, InTime, After, Run;
    SideAgrees(s.read, s.info, false, now + t.readExpire);
    SideAgrees(s.write, s.info, true, now + t.writeExpire);
  }

  lemma {:induction false} SideAgrees(d: Side, info: map<Rq, Info>, write: bool, latest: nat)
    requires SideGood(d, info, write, None, latest)
    ensures forall x :: Member(d.fifo, x) <==> exists k :: k in d.tree && d.tree[k] == x
    ensures Distinct(d.fifo) && Ordered(d.fifo, info)
  {
  }

  // ---------------------------------------------------------------- starvation

  function Batch(t: Tunables): nat {
    if t.fifoBatch == 0 then 1 else t.fifoBatch
  }

  /** How many more reads can be picked over a pending write. */
  function Patience(s: State, t: Tunables): nat {
    (if s.starved < t.writesStarved then (t.writesStarved - s.starved) * Batch(t) else 0)
    + (if s.batching < Batch(t) then Batch(t) - s.batching else 0)
  }

  /** A dispatch that picks a read although a write is pending. */
  predicate Starves(s: State, t: Tunables, now: nat) {
    s.write.fifo.Cons? && var c := Choose(s, t, now); c.Pick? && !c.rq.write
  }

  /** Every dispatch of the run picks a read over a pending write. */
  ghost predicate AllStarve(s: State, t: Tunables, es: List<Event>)
    decreases es
  {
    es.Cons? ==>
      && (es.head.Dispatched? ==> Starves(s, t, es.head.now))
      && AllStarve(Apply(s, t, es.head), t, es.tail)
  }

  function Dispatches(es: List<Event>): nat {
    match es
    case Nil => 0
    case Cons(e, r) => (if e.Dispatched? then 1 else 0) + Dispatches(r)
  }

  lemma {:induction false} OthersKeepCounts(s: State, t: Tunables, e: Event)
    requires !e.Dispatched?
    ensures Apply(s, t, e).batching == s.batching && Apply(s, t, e).starved == s.starved
  {
  }

  /** The write side holds writes only, so a request of the other direction was taken from the reads. */
  lemma {:induction false} WritesPicked(s: State, t: Tunables, now: nat, time: nat)
    requires Good(s, t, now) && s.write.fifo.Cons?
    ensures s.write.next.Some? ==> s.write.next.value.write
    ensures FindRequest(s, true, time).Some? && FindRequest(s, true, time).value.write
  {
  }

  /** A dispatch that starves a write uses up patience. */
  lemma {:induction false} StarvingCosts(s: State, t: Tunables, now: nat, time: nat)
    requires Good(s, t, now) && Starves(s, t, time)
    ensures Patience(Dispatch(s, t, time), t) < Patience(s, t)
  {
    hide GoodBut, MoveRequest, FindRequest;
    WritesPicked(s, t, now, time);
    var c := Choose(s, t, time);
    MoveFixes(s.(batching := c.batching + 1, starved := c.starved), c.rq);
    if c.batching == 0 && c.starved == s.starved + 1 {
      assert (t.writesStarved - s.starved) * Batch(t) == (t.writesStarved - s.starved - 1) * Batch(t) + Batch(t);
    }
  }

  lemma {:induction false} PatienceRunsOut(s: State, t: Tunables, now: nat, es: List<Event>)
    requires Good(s, t, now) && Run(s, t, now, es) && AllStarve(s, t, es)
    ensures Dispatches(es) <= Patience(s, t)
    decreases es
  {
    hide GoodBut, Apply, Starves;
    if es.Cons? {
      StepGood(s, t, now, es.head);
      PatienceRunsOut(Apply(s, t, es.head), t, Clock(now, es.head), es.tail);
      if es.head.Dispatched? {
        StarvingCosts(s, t, now, es.head.now);
        DispatchedIs(s, t, es.head.now);
      } else {
        OthersKeepCounts(s, t, es.head);
      }
    }
  }

  lemma {:induction false} DispatchedIs(s: State, t: Tunables, now: nat)
    ensures Apply(s, t, Dispatched(now)) == Dispatch(s, t, now)
  {
  }

  /** From any point of any run on, at most (writes_starved + 1) * max(1, fifo_batch) dispatches in a
      row pick a read while a write is pending, whatever else happens between them. */
  lemma {:induction false} StarvationBound(t: Tunables, before: List<Event>, es: List<Event>)
    requires Run(Init(), t, 0, before) && Run(After(Init(), t, before), t, Time(0, before), es)
    requires AllStarve(After(Init(), t, before), t, es)
    ensures Dispatches(es) <= (t.writesStarved + 1) * Batch(t)
  {
    hide GoodBut, After;
    InitGood(t);
    RunGood(Init(), t, 0, before);
    var s := After(Init(), t, before);
    PatienceRunsOut(s, t, Time(0, before), es);
    PatienceBound(s, t);
  }

  lemma {:induction false} PatienceBound(s: State, t: Tunables)
    ensures Patience(s, t) <= (t.writesStarved + 1) * Batch(t)
  {
  }
}
