/**
 The requests of CFQ queues: sort_list, fifo and next_rq of every queue agree with each other in every run.
 */
module CfqRequests {
  import opened Lists
  import opened CfqModel

  predicate Above(l: List<Sec>, n: nat) {
    l.Cons? ==> n < l.head.pos && Above(l.tail, n)
  }

  predicate Ascending(l: List<Sec>) {
    l.Cons? ==> Above(l.tail, l.head.pos) && Ascending(l.tail)
  }

  predicate HasRq(l: List<Sec>, rq: int) {
    l.Cons? && (l.head.rq == rq || HasRq(l.tail, rq))
  }

  predicate DistinctRqs(l: List<Sec>) {
    l.Cons? ==> !HasRq(l.tail, l.head.rq) && DistinctRqs(l.tail)
  }

  // ---------------------------------------------------------------- sorted lists

  lemma {:induction false} HasIsMember(l: List<Sec>, rq: int)
    ensures HasRq(l, rq) <==> exists pos :: Member(l, Sec(pos, rq))
  {
    if l.Cons? {
      HasIsMember(l.tail, rq);
      if l.head.rq == rq {
        assert Member(l, Sec(l.head.pos, rq));
      }
      if HasRq(l.tail, rq) {
        var pos :| Member(l.tail, Sec(pos, rq));
        assert Member(l, Sec(pos, rq));
      }
    }
  }

  lemma {:induction false} MemberHas(l: List<Sec>, x: Sec)
    requires Member(l, x)
    ensures HasRq(l, x.rq)
  {
    if l.head != x { MemberHas(l.tail, x); }
  }

  lemma {:induction false} AboveMember(l: List<Sec>, n: nat, x: Sec)
    requires Above(l, n) && Member(l, x)
    ensures n < x.pos
  {
    if l.head != x { AboveMember(l.tail, n, x); }
  }

  lemma {:induction false} AboveLess(l: List<Sec>, m: nat, n: nat)
    requires Above(l, n) && m <= n
    ensures Above(l, m)
  {
    if l.Cons? { AboveLess(l.tail, m, n); }
  }

  lemma {:induction false} RbDelIs(l: List<Sec>, x: Sec)
    requires Ascending(l) && DistinctRqs(l) && Member(l, x)
    ensures var r := RbDel(l, x.rq);
      && Ascending(r) && DistinctRqs(r)
      && (forall y :: Member(r, y) <==> Member(l, y) && y != x)
      && (forall n :: HasRq(r, n) <==> HasRq(l, n) && n != x.rq)
      && (forall n: nat :: Above(l, n) ==> Above(r, n))
  {
    if l.head.rq == x.rq {
      if l.head != x { MemberHas(l.tail, x); }
      forall y | Member(l.tail, y) ensures y != x { AboveMember(l.tail, l.head.pos, y); }
    } else {
      RbDelIs(l.tail, x);
    }
  }

  lemma {:induction false} RbFindIs(l: List<Sec>, pos: nat)
    ensures RbFind(l, pos).Some? ==> Member(l, Sec(pos, RbFind(l, pos).value))
    ensures RbFind(l, pos).None? ==> forall x :: Member(l, x) ==> x.pos != pos
  {
    if l.Cons? && l.head.pos != pos { RbFindIs(l.tail, pos); }
  }

  lemma {:induction false} RbAddIs(l: List<Sec>, x: Sec)
    requires Ascending(l) && DistinctRqs(l) && !HasRq(l, x.rq) && forall y :: Member(l, y) ==> y.pos != x.pos
    ensures var r := RbAdd(l, x);
      && r.Cons? && Ascending(r) && DistinctRqs(r)
      && (forall y :: Member(r, y) <==> Member(l, y) || y == x)
      && (forall n :: HasRq(r, n) <==> HasRq(l, n) || n == x.rq)
      && (forall n: nat :: Above(l, n) && n < x.pos ==> Above(r, n))
  {
    if l.Cons? {
      assert Member(l, l.head);
      if x.pos < l.head.pos {
        AboveLess(l.tail, x.pos, l.head.pos);
      } else {
        assert forall y :: Member(l.tail, y) ==> Member(l, y);
        RbAddIs(l.tail, x);
      }
    }
  }

  /** cfq_find_next_rq finds another request of the list, and none only if there is no other. */
  lemma {:induction false} FindNextIs(cfg: Cfg, reqs: map<int, Req>, l: List<Sec>, rq: int)
    requires DistinctRqs(l) && HasRq(l, rq)
    ensures var n := FindNext(cfg, reqs, l, rq);
      && (n.Some? ==> HasRq(l, n.value) && n.value != rq)
      && (n.None? ==> RbDel(l, rq).Nil?)
  {
    NeighboursAre(l, rq);
  }

  lemma {:induction false} NeighboursAre(l: List<Sec>, rq: int)
    requires DistinctRqs(l) && HasRq(l, rq)
    ensures RbNext(l, rq).Some? ==> HasRq(l, RbNext(l, rq).value) && RbNext(l, rq).value != rq
    ensures RbPrev(l, rq).Some? ==> HasRq(l, RbPrev(l, rq).value) && RbPrev(l, rq).value != rq
    ensures RbNext(l, rq).None? && l.head.rq == rq ==> RbDel(l, rq).Nil?
    ensures l.head.rq == rq ==> RbPrev(l, rq).None?
  {
    if l.head.rq != rq {
      NeighboursAre(l.tail, rq);
    } else {
      NoPrev(l.tail, rq);
    }
  }

  lemma {:induction false} NoPrev(l: List<Sec>, rq: int)
    requires !HasRq(l, rq)
    ensures RbPrev(l, rq).None?
  {
    if l.Cons? { NoPrev(l.tail, rq); }
  }

  // ---------------------------------------------------------------- queues

  predicate InQueue(reqs: map<int, Req>, q: int, rq: int) {
    rq in reqs && reqs[rq].queue == q
  }

  /** Entry x stands for a request of queue q. */
  predicate Entry(reqs: map<int, Req>, q: int, x: Sec) {
    InQueue(reqs, q, x.rq) && reqs[x.rq].pos == x.pos
  }

  /** The lists of queue q hold its requests; but is a request that is not in its sorted list just now. */
  ghost predicate QueueOk(reqs: map<int, Req>, q: int, io: Io, but: Option<int>) {
    && Ascending(io.sorted) && DistinctRqs(io.sorted)
    && (forall x :: Member(io.sorted, x) <==> Entry(reqs, q, x) && Some(x.rq) != but)
    && Distinct(io.fifo)
    && (forall rq :: Member(io.fifo, rq) <==> InQueue(reqs, q, rq))
    && (io.next.Some? ==> (io.next == but && InQueue(reqs, q, io.next.value)) || HasRq(io.sorted, io.next.value))
    && (io.next.None? ==> io.sorted.Nil?)
  }

  ghost predicate Requests(reqs: map<int, Req>, io: map<int, Io>, but: Option<int>) {
    && (forall q :: q in io ==> QueueOk(reqs, q, io[q], but))
    && (forall rq :: rq in reqs ==> reqs[rq].queue in io)
  }

  /** A queue none of whose requests changed. */
  lemma {:induction false} OtherQueue(reqs: map<int, Req>, new_: map<int, Req>, q: int, io: Io, but: Option<int>,
      now: Option<int>)
    requires QueueOk(reqs, q, io, but)
    requires forall rq :: InQueue(new_, q, rq) <==> InQueue(reqs, q, rq)
    requires forall rq :: InQueue(reqs, q, rq) ==> rq in new_ && new_[rq] == reqs[rq] && Some(rq) != but && Some(rq) != now
    ensures QueueOk(new_, q, io, now)
  {
  }

  /** A request leaves its queue, and next is what the queue goes on with. */
  lemma {:induction false} TakeQueue(reqs: map<int, Req>, q: int, io: Io, but: Option<int>, rq: int, next: Option<int>)
    requires QueueOk(reqs, q, io, but) && InQueue(reqs, q, rq) && Some(rq) != but
    requires next.Some? ==> next.value != rq && ((next == but && InQueue(reqs, q, next.value)) || HasRq(io.sorted, next.value))
    requires next.None? ==> RbDel(io.sorted, rq).Nil?
    ensures QueueOk(reqs - {rq}, q, Io(RbDel(io.sorted, rq), Remove(io.fifo, rq), next), but)
  {
    var x := Sec(reqs[rq].pos, rq);
    assert Entry(reqs, q, x);
    assert Member(io.sorted, x);
    RbDelIs(io.sorted, x);
    RemoveKeeps(io.fifo, rq);
    var new_ := reqs - {rq};
    var r := RbDel(io.sorted, rq);
    forall y ensures Member(r, y) <==> Entry(new_, q, y) && Some(y.rq) != but {
      assert Member(io.sorted, y) <==> Entry(reqs, q, y) && Some(y.rq) != but;
    }
    forall n ensures Member(Remove(io.fifo, rq), n) <==> InQueue(new_, q, n) {
      assert Member(io.fifo, n) <==> InQueue(reqs, q, n);
    }
  }

  lemma {:induction false} HasSec(reqs: map<int, Req>, q: int, io: Io, but: Option<int>, rq: int)
    requires QueueOk(reqs, q, io, but) && InQueue(reqs, q, rq) && Some(rq) != but
    ensures HasRq(io.sorted, rq)
  {
    var x := Sec(reqs[rq].pos, rq);
    assert Entry(reqs, q, x);
    MemberHas(io.sorted, x);
  }

  /** Only queue q lost something. */
  lemma {:induction false} OthersLose(reqs: map<int, Req>, io: map<int, Io>, but: Option<int>, rq: int, new_: Io)
    requires Requests(reqs, io, but) && rq in reqs
    requires QueueOk(reqs - {rq}, reqs[rq].queue, new_, but)
    requires forall b :: but == Some(b) ==> InQueue(reqs, reqs[rq].queue, b)
    ensures Requests(reqs - {rq}, io[reqs[rq].queue := new_], but)
  {
    hide QueueOk;
    var q := reqs[rq].queue;
    forall p | p in io && p != q ensures QueueOk(reqs - {rq}, p, io[p], but) {
      OtherQueue(reqs, reqs - {rq}, p, io[p], but, but);
    }
  }

  /** cfq_remove_request and cfq_dispatch_insert keep the lists right. */
  lemma {:induction false} TakeKeeps(cfg: Cfg, s: State, rq: int, but: Option<int>)
    requires Requests(s.reqs, s.io, but) && rq in s.reqs && Some(rq) != but
    requires forall b :: but == Some(b) ==> InQueue(s.reqs, s.reqs[rq].queue, b)
    ensures s.reqs[rq].queue in s.io
    ensures Requests(Take(cfg, s, rq).reqs, Take(cfg, s, rq).io, but)
    ensures Requests(Dispatch(cfg, s, rq).reqs, Dispatch(cfg, s, rq).io, but)
  {
    var q := s.reqs[rq].queue;
    var io := s.io[q];
    HasSec(s.reqs, q, io, but, rq);
    FindNextIs(cfg, s.reqs, io.sorted, rq);
    var f := FindNext(cfg, s.reqs, io.sorted, rq);
    hide FindNext;
    var n := if io.next == Some(rq) then f else io.next;
    TakeQueue(s.reqs, q, io, but, rq, n);
    TakeQueue(s.reqs, q, io, but, rq, f);
    hide QueueOk;
    OthersLose(s.reqs, s.io, but, rq, Io(RbDel(io.sorted, rq), Remove(io.fifo, rq), n));
    OthersLose(s.reqs, s.io, but, rq, Io(RbDel(io.sorted, rq), Remove(io.fifo, rq), f));
    DispatchIo(cfg, s, rq);
  }

  lemma {:induction false} DispatchIo(cfg: Cfg, s: State, rq: int)
    requires rq in s.reqs && s.reqs[rq].queue in s.io
    requires FindNext(cfg, s.reqs, s.io[s.reqs[rq].queue].sorted, rq) != Some(rq)
    ensures var q := s.reqs[rq].queue;
      Dispatch(cfg, s, rq).io == s.io[q := Io(RbDel(s.io[q].sorted, rq), Remove(s.io[q].fifo, rq),
                                               FindNext(cfg, s.reqs, s.io[q].sorted, rq))]
  {
  }

  lemma {:induction false} OneAtSector(l: List<Sec>, x: Sec, y: Sec)
    requires Ascending(l) && Member(l, x) && Member(l, y) && x.pos == y.pos
    ensures x == y
  {
    if l.head == x {
      if l.head != y { AboveMember(l.tail, x.pos, y); }
    } else if l.head == y {
      AboveMember(l.tail, y.pos, x);
    } else {
      OneAtSector(l.tail, x, y);
    }
  }

  /** The request that is in the way goes, and then the sector is free. */
  lemma {:induction false} DropAliasKeeps(cfg: Cfg, s: State, rq: int)
    requires Requests(s.reqs, s.io, Some(rq)) && rq in s.reqs
    ensures s.reqs[rq].queue in s.io
    ensures var t := DropAlias(cfg, s, rq);
      && Requests(t.reqs, t.io, Some(rq)) && rq in t.reqs && t.reqs[rq] == s.reqs[rq]
      && s.reqs[rq].queue in t.io
      && (forall y :: Member(t.io[s.reqs[rq].queue].sorted, y) ==> y.pos != s.reqs[rq].pos)
  {
    var q, pos := s.reqs[rq].queue, s.reqs[rq].pos;
    var l := s.io[q].sorted;
    RbFindIs(l, pos);
    var alias := RbFind(l, pos);
    if alias.Some? {
      var x := Sec(pos, alias.value);
      assert Entry(s.reqs, q, x) && alias.value != rq;
      TakeKeeps(cfg, s, alias.value, Some(rq));
      var t := Dispatch(cfg, s, alias.value);
      forall y | Member(t.io[q].sorted, y) ensures y.pos != pos {
        assert Entry(t.reqs, q, y) && y.rq != rq;
        assert Entry(s.reqs, q, y);
        if y.pos == pos { OneAtSector(l, x, y); }
      }
    }
  }

  /** What the queue looks like once the request is in its sorted list. */
  lemma {:induction false} PutQueue(reqs: map<int, Req>, q: int, io: Io, rq: int, next: Option<int>)
    requires QueueOk(reqs, q, io, Some(rq)) && InQueue(reqs, q, rq)
    requires forall y :: Member(io.sorted, y) ==> y.pos != reqs[rq].pos
    requires next == Some(rq) || (next.Some? && next == io.next)
    ensures QueueOk(reqs, q, Io(RbAdd(io.sorted, Sec(reqs[rq].pos, rq)), io.fifo, next), None)
  {
    var x := Sec(reqs[rq].pos, rq);
    HasIsMember(io.sorted, rq);
    RbAddIs(io.sorted, x);
    var r := RbAdd(io.sorted, x);
    forall y ensures Member(r, y) <==> Entry(reqs, q, y) && Some(y.rq) != None {
      assert Member(io.sorted, y) <==> Entry(reqs, q, y) && y.rq != rq;
    }
  }

  lemma {:induction false} OthersStay(reqs: map<int, Req>, io: map<int, Io>, rq: int, new_: Io)
    requires Requests(reqs, io, Some(rq)) && rq in reqs && QueueOk(reqs, reqs[rq].queue, new_, None)
    ensures Requests(reqs, io[reqs[rq].queue := new_], None)
  {
  }

  lemma {:induction false} AddSortedKeeps(cfg: Cfg, s: State, rq: int, at: Spot, last: nat, taken: bool)
    requires Requests(s.reqs, s.io, Some(rq)) && rq in s.reqs && s.io.Keys == s.rr.Keys
    ensures s.reqs[rq].queue in s.io
    ensures var t := AddSorted(cfg, s, rq, at, last, taken); Requests(t.reqs, t.io, None)
  {
    hide DropAlias, AddRr, Choose, BetterNext;
    DropAliasKeeps(cfg, s, rq);
    var q := s.reqs[rq].queue;
    var s1 := DropAlias(cfg, s, rq);
    var io := s1.io[q];
    var next := Choose(cfg, s1.reqs, io.next, Some(rq), last);
    PutQueue(s1.reqs, q, io, rq, next);
    hide QueueOk;
    OthersStay(s1.reqs, s1.io, rq, Io(RbAdd(io.sorted, Sec(s.reqs[rq].pos, rq)), io.fifo, next));
  }

  // ---------------------------------------------------------------- what changes the requests

  /** A new request is in the fifo and not yet in the sorted list. */
  lemma {:induction false} InsertMissing(s: State, rq: int, r: Req)
    requires Requests(s.reqs, s.io, None) && rq !in s.reqs && r.queue in s.io
    ensures var io := s.io[r.queue];
      Requests(s.reqs[rq := r], s.io[r.queue := io.(fifo := Append(io.fifo, Cons(rq, Nil)))], Some(rq))
  {
    var q := r.queue;
    var io := s.io[q];
    var reqs := s.reqs[rq := r];
    InsertQueue(s.reqs, q, io, rq, r);
    hide QueueOk;
    forall p | p in s.io && p != q ensures QueueOk(reqs, p, s.io[p], Some(rq)) {
      OtherQueue(s.reqs, reqs, p, s.io[p], None, Some(rq));
    }
  }

  lemma {:induction false} InsertQueue(reqs: map<int, Req>, q: int, io: Io, rq: int, r: Req)
    requires QueueOk(reqs, q, io, None) && rq !in reqs && r.queue == q
    ensures QueueOk(reqs[rq := r], q, io.(fifo := Append(io.fifo, Cons(rq, Nil))), Some(rq))
  {
    var more := reqs[rq := r];
    var fifo := Append(io.fifo, Cons(rq, Nil));
    assert !InQueue(reqs, q, rq);
    AppendKeeps(io.fifo, rq);
    forall y ensures Member(io.sorted, y) <==> Entry(more, q, y) && Some(y.rq) != Some(rq) {
      assert Member(io.sorted, y) <==> Entry(reqs, q, y) && Some(y.rq) != None;
    }
    forall n ensures Member(fifo, n) <==> InQueue(more, q, n) {
      assert Member(io.fifo, n) <==> InQueue(reqs, q, n);
    }
  }

  lemma {:induction false} InsertRequests(cfg: Cfg, s: State, rq: int, r: Req, at: Spot, last: nat, taken: bool)
    requires Requests(s.reqs, s.io, None) && s.io.Keys == s.rr.Keys && rq !in s.reqs && r.queue in s.io
    ensures var t := Insert(cfg, s, rq, r, at, last, taken); Requests(t.reqs, t.io, None)
  {
    hide AddSorted, Requests;
    InsertMissing(s, rq, r);
    var io := s.io[r.queue];
    AddSortedKeeps(cfg, s.(reqs := s.reqs[rq := r], queued := s.queued + 1,
                           io := s.io[r.queue := io.(fifo := Append(io.fifo, Cons(rq, Nil)))]), rq, at, last, taken);
  }

  /** A request whose sector changed is out of the sorted list for the moment. */
  lemma {:induction false} RepositionMissing(s: State, rq: int, pos: nat)
    requires Requests(s.reqs, s.io, None) && rq in s.reqs
    ensures var q := s.reqs[rq].queue;
      && q in s.io
      && Requests(s.reqs[rq := s.reqs[rq].(pos := pos)], s.io[q := s.io[q].(sorted := RbDel(s.io[q].sorted, rq))], Some(rq))
  {
    var q := s.reqs[rq].queue;
    var reqs := s.reqs[rq := s.reqs[rq].(pos := pos)];
    RepositionQueue(s.reqs, q, s.io[q], rq, pos);
    hide QueueOk;
    forall p | p in s.io && p != q ensures QueueOk(reqs, p, s.io[p], Some(rq)) {
      OtherQueue(s.reqs, reqs, p, s.io[p], None, Some(rq));
    }
  }

  lemma {:induction false} RepositionQueue(reqs: map<int, Req>, q: int, io: Io, rq: int, pos: nat)
    requires QueueOk(reqs, q, io, None) && InQueue(reqs, q, rq)
    ensures QueueOk(reqs[rq := reqs[rq].(pos := pos)], q, io.(sorted := RbDel(io.sorted, rq)), Some(rq))
  {
    var new_ := reqs[rq := reqs[rq].(pos := pos)];
    var x := Sec(reqs[rq].pos, rq);
    assert Entry(reqs, q, x);
    RbDelIs(io.sorted, x);
    forall y ensures Member(RbDel(io.sorted, rq), y) <==> Entry(new_, q, y) && Some(y.rq) != Some(rq) {
      assert Member(io.sorted, y) <==> Entry(reqs, q, y) && Some(y.rq) != None;
    }
    forall n ensures Member(io.fifo, n) <==> InQueue(new_, q, n) {
      assert Member(io.fifo, n) <==> InQueue(reqs, q, n);
    }
  }

  lemma {:induction false} RepositionRequests(cfg: Cfg, s: State, rq: int, pos: nat, at: Spot, last: nat, taken: bool)
    requires Requests(s.reqs, s.io, None) && s.io.Keys == s.rr.Keys && rq in s.reqs
    ensures s.reqs[rq].queue in s.io
    ensures var t := Reposition(cfg, s, rq, pos, at, last, taken); Requests(t.reqs, t.io, None)
  {
    hide AddSorted, Requests;
    RepositionMissing(s, rq, pos);
    var q := s.reqs[rq].queue;
    AddSortedKeeps(cfg, s.(reqs := s.reqs[rq := s.reqs[rq].(pos := pos)],
                           io := s.io[q := s.io[q].(sorted := RbDel(s.io[q].sorted, rq))]), rq, at, last, taken);
  }

  lemma {:induction false} JoinedRequests(cfg: Cfg, s: State, rq: int, next: int, older: bool)
    requires Requests(s.reqs, s.io, None) && rq in s.reqs && next in s.reqs && rq != next
    requires s.reqs[rq].queue == s.reqs[next].queue
    ensures s.reqs[rq].queue in s.io
    ensures var t := Joined(cfg, s, rq, next, older); Requests(t.reqs, t.io, None)
  {
    var q := s.reqs[rq].queue;
    var io := s.io[q];
    RemoveKeeps(io.fifo, rq);
    InsertKeeps(Remove(io.fifo, rq), next, rq) by { assert InQueue(s.reqs, q, next); }
    HasSec(s.reqs, q, io, None, rq);
    var new_ := io.(fifo := if older then InsertAfter(Remove(io.fifo, rq), next, rq) else io.fifo,
                    next := if io.next == Some(next) then Some(rq) else io.next);
    assert InQueue(s.reqs, q, rq);
    assert QueueOk(s.reqs, q, new_, None);
    hide QueueOk;
    TakeKeeps(cfg, s.(io := s.io[q := new_]), next, None);
  }
}
