/**
 What every run of CFQ keeps, and that a forced dispatch drains it.
 */
module CfqProof {
  import opened Lists
  import opened CfqModel
  import opened CfqRequests
  import opened CfqTrees
  import GF = GroupFairness

  function OnRr(rr: map<int, Rr>): set<int> {
    set q | q in rr && rr[q].onRr
  }

  /** A queue with requests has its turn; one without has it only as the active queue, and is in no
      priority tree. */
  predicate TurnOk(s: State, q: int) {
    && (q in s.near ==> q in s.io && s.io[q].sorted.Cons?)
    && (q in s.rr && q in s.io ==>
         && (s.rr[q].onRr <==> s.rr[q].node.Some?)
         && (s.io[q].sorted.Cons? ==> s.rr[q].onRr)
         && (s.rr[q].onRr && s.io[q].sorted.Nil? ==> s.active == Some(q)))
  }

  ghost predicate Turns(s: State) {
    && s.io.Keys == s.rr.Keys
    && (forall q :: TurnOk(s, q))
    && (s.active.Some? ==> s.active.value in s.rr && s.rr[s.active.value].onRr)
    && s.busy == |OnRr(s.rr)|
  }

  ghost predicate Good(s: State) {
    && Requests(s.reqs, s.io, None) && s.queued == |s.reqs|
    && Forest(s, 0, 0)
    && Turns(s)
  }

  // ---------------------------------------------------------------- requests leave

  /** Only the requests of a queue that is active, or that has others, are taken. */
  lemma {:induction false} LeaveTurns(s: State, t: State, q: int)
    requires Turns(s) && q in s.io && t.io.Keys == s.io.Keys
    requires t.rr == s.rr && t.active == s.active && t.busy == s.busy
    requires forall x :: x in s.io && x != q ==> t.io[x] == s.io[x]
    requires s.rr[q].onRr && (s.active == Some(q) || t.io[q].sorted.Cons?) && t.near == Left(s, q, t.io)
    ensures Turns(t)
  {
    forall x ensures TurnOk(t, x) { assert TurnOk(s, x); }
  }

  lemma {:induction false} ForestSame(s: State, t: State)
    requires Forest(s, 0, 0) && t.rr == s.rr && t.trees == s.trees && t.nr == s.nr && t.groups == s.groups
    ensures Forest(t, 0, 0)
  {
  }

  /** A queue with a request is on the list of busy queues. */
  lemma {:induction false} HasTurn(s: State, rq: int)
    requires Good(s) && rq in s.reqs
    ensures var q := s.reqs[rq].queue; q in s.io && q in s.rr && s.io[q].sorted.Cons? && s.rr[q].onRr
  {
    var q := s.reqs[rq].queue;
    assert InQueue(s.reqs, q, rq);
    HasSec(s.reqs, q, s.io[q], None, rq);
    assert TurnOk(s, q);
  }

  lemma {:induction false} DispatchGood(cfg: Cfg, s: State, rq: int)
    requires Good(s) && rq in s.reqs && s.active == Some(s.reqs[rq].queue)
    ensures s.reqs[rq].queue in s.io && Good(Dispatch(cfg, s, rq))
  {
    HasTurn(s, rq);
    TakeKeeps(cfg, s, rq, None);
    var t := Dispatch(cfg, s, rq);
    DispatchOnly(cfg, s, rq);
    hide Requests, Forest, Turns, Dispatch;
    ForestSame(s, t);
    LeaveTurns(s, t, s.reqs[rq].queue);
  }

  lemma {:induction false} DispatchOnly(cfg: Cfg, s: State, rq: int)
    requires rq in s.reqs && s.reqs[rq].queue in s.io
    ensures forall x :: x in s.io && x != s.reqs[rq].queue ==> Dispatch(cfg, s, rq).io[x] == s.io[x]
  {
  }

  lemma {:induction false} JoinedGood(cfg: Cfg, s: State, rq: int, next: int, older: bool)
    requires Good(s) && rq in s.reqs && next in s.reqs && rq != next && s.reqs[rq].queue == s.reqs[next].queue
    ensures s.reqs[rq].queue in s.io && Good(Joined(cfg, s, rq, next, older))
  {
    var q := s.reqs[rq].queue;
    HasTurn(s, rq);
    JoinedRequests(cfg, s, rq, next, older);
    var t := Joined(cfg, s, rq, next, older);
    assert t.reqs == s.reqs - {next};
    assert InQueue(t.reqs, q, rq);
    HasSec(t.reqs, q, t.io[q], None, rq);
    hide Requests, Forest, Turns;
    ForestSame(s, t);
    LeaveTurns(s, t, q);
  }

  // ---------------------------------------------------------------- queues get their turn and lose it

  lemma {:induction false} OneMore(rr: map<int, Rr>, new_: map<int, Rr>, q: int)
    requires q in rr && new_.Keys == rr.Keys && !rr[q].onRr && new_[q].onRr
    requires forall x :: x in rr && x != q ==> new_[x].onRr == rr[x].onRr
    ensures |OnRr(new_)| == |OnRr(rr)| + 1
  {
    forall x ensures x in OnRr(new_) <==> x in OnRr(rr) || x == q { assert x in new_.Keys <==> x in rr.Keys; }
    assert OnRr(new_) == OnRr(rr) + {q};
  }

  lemma {:induction false} OneLess(rr: map<int, Rr>, new_: map<int, Rr>, q: int)
    requires q in rr && new_.Keys == rr.Keys && rr[q].onRr && !new_[q].onRr
    requires forall x :: x in rr && x != q ==> new_[x].onRr == rr[x].onRr
    ensures |OnRr(new_)| == |OnRr(rr)| - 1
  {
    forall x ensures x in OnRr(new_) <==> x in OnRr(rr) && x != q { assert x in new_.Keys <==> x in rr.Keys; }
    assert OnRr(new_) == OnRr(rr) - {q};
  }

  lemma {:induction false} SameRr(rr: map<int, Rr>, new_: map<int, Rr>)
    requires new_.Keys == rr.Keys && forall x :: x in rr ==> new_[x].onRr == rr[x].onRr
    ensures OnRr(new_) == OnRr(rr)
  {
    forall x ensures x in OnRr(new_) <==> x in OnRr(rr) { assert x in new_.Keys <==> x in rr.Keys; }
  }

  /** cfq_add_cfqq_rr */
  lemma {:induction false} AddRrForest(cfg: Cfg, s: State, q: int, at: Spot)
    requires Positive(cfg) && Forest(s, 0, 0) && q in s.rr && !s.rr[q].onRr
    ensures var t := AddRr(cfg, s, q, at);
      && Forest(t, 0, 0) && t.rr[q].onRr && t.rr[q].node.Some?
      && (forall x :: x in s.rr && x != q ==> t.rr[x] == s.rr[x])
      && |OnRr(t.rr)| == |OnRr(s.rr)| + 1
  {
    hide ServiceAdd;
    var s1 := s.(rr := s.rr[q := s.rr[q].(onRr := true)], busy := s.busy + 1);
    FlagForest(s, q, true);
    hide Forest;
    ServiceAddForest(cfg, s1, q, at.key);
    ForestSame(ServiceAdd(cfg, s1, q, at.key), AddRr(cfg, s, q, at));
    OneMore(s.rr, AddRr(cfg, s, q, at).rr, q);
  }

  lemma {:induction false} FlagForest(s: State, q: int, on: bool)
    requires Forest(s, 0, 0) && q in s.rr
    ensures Forest(s.(rr := s.rr[q := s.rr[q].(onRr := on)], busy := s.busy + 1), 0, 0)
  {
    var rr := s.rr[q := s.rr[q].(onRr := on)];
    SameNodes(s.rr, rr, s.trees);
    forall x | x in rr ensures Homed(rr[x]) { assert Homed(s.rr[x]); }
  }

  /** What AddSorted does besides the requests. */
  lemma {:induction false} AddSortedRest(cfg: Cfg, s: State, rq: int, at: Spot, last: nat, taken: bool)
    requires Positive(cfg) && Forest(s, 0, 0) && Requests(s.reqs, s.io, Some(rq)) && rq in s.reqs
    requires s.io.Keys == s.rr.Keys
    requires s.queued == |s.reqs|
    ensures var q, t := s.reqs[rq].queue, AddSorted(cfg, s, rq, at, last, taken);
      && q in s.io && Forest(t, 0, 0) && t.rr.Keys == s.rr.Keys && t.io.Keys == s.io.Keys && t.active == s.active
      && t.io[q].sorted.Cons? && t.rr[q].onRr && (t.rr[q].node.Some? || t.rr[q] == s.rr[q])
      && (forall x :: x in s.io && x != q ==> t.io[x] == s.io[x] && t.rr[x] == s.rr[x])
      && |OnRr(t.rr)| - t.busy == |OnRr(s.rr)| - s.busy
      && t.queued == |t.reqs| && t.near - {q} == s.near - {q}
  {
    hide DropAlias, Choose, AddRr, RbAdd, BetterNext;
    var q := s.reqs[rq].queue;
    DropAliasKeeps(cfg, s, rq);
    hide Requests;
    DropAliasRest(cfg, s, rq);
    var s1 := DropAlias(cfg, s, rq);
    RbAddCons(s1.io[q].sorted, Sec(s.reqs[rq].pos, rq));
    var s2 := s1.(io := s1.io[q := s1.io[q].(sorted := RbAdd(s1.io[q].sorted, Sec(s.reqs[rq].pos, rq)))]);
    ForestSame(s, s2);
    hide Forest;
    if !s2.rr[q].onRr {
      AddRrForest(cfg, s2, q, at);
      ForestSame(AddRr(cfg, s2, q, at), AddSorted(cfg, s, rq, at, last, taken));
    } else {
      ForestSame(s2, AddSorted(cfg, s, rq, at, last, taken));
    }
  }

  lemma {:induction false} RbAddCons(l: List<Sec>, x: Sec)
    ensures RbAdd(l, x).Cons?
  {
  }

  lemma {:induction false} DropAliasRest(cfg: Cfg, s: State, rq: int)
    requires Requests(s.reqs, s.io, Some(rq)) && rq in s.reqs && s.queued == |s.reqs|
    ensures var q, t := s.reqs[rq].queue, DropAlias(cfg, s, rq);
      && q in s.io && t == s.(io := t.io, reqs := t.reqs, queued := t.queued, out := t.out, near := t.near)
      && t.queued == |t.reqs| && t.near - {q} == s.near - {q}
      && t.io.Keys == s.io.Keys && (forall x :: x in s.io && x != q ==> t.io[x] == s.io[x])
  {
    var q := s.reqs[rq].queue;
    assert q in s.io;
    var alias := RbFind(s.io[q].sorted, s.reqs[rq].pos);
    RbFindIs(s.io[q].sorted, s.reqs[rq].pos);
    if alias.Some? {
      assert Entry(s.reqs, q, Sec(s.reqs[rq].pos, alias.value));
    }
  }

  /** Queue q got a request. */
  lemma {:induction false} ArriveTurns(s: State, t: State, q: int)
    requires s.io.Keys == s.rr.Keys && (forall x :: x != q ==> TurnOk(s, x)) && s.busy == |OnRr(s.rr)|
    requires s.active.Some? ==> s.active.value in s.rr && s.rr[s.active.value].onRr
    requires q in s.io && (s.rr[q].onRr <==> s.rr[q].node.Some?)
    requires t.io.Keys == s.io.Keys && t.rr.Keys == s.rr.Keys && t.active == s.active
    requires forall x :: x in s.io && x != q ==> t.io[x] == s.io[x] && t.rr[x] == s.rr[x]
    requires t.io[q].sorted.Cons? && t.rr[q].onRr && (t.rr[q].node.Some? || t.rr[q] == s.rr[q])
    requires |OnRr(t.rr)| - t.busy == |OnRr(s.rr)| - s.busy && t.near - {q} == s.near - {q}
    ensures Turns(t)
  {
    if t.active.Some? && t.active.value != q {
      var a := t.active.value;
      assert a in s.rr.Keys && a in s.io.Keys;
      assert t.rr[a] == s.rr[a];
    }
    forall x ensures TurnOk(t, x) {
      assert x in t.io.Keys <==> x in s.io.Keys;
      assert x in t.near - {q} <==> x in s.near - {q};
      if x != q { assert TurnOk(s, x); }
    }
  }

  lemma {:induction false} InsertGood(cfg: Cfg, s: State, rq: int, r: Req, at: Spot, last: nat, taken: bool)
    requires Positive(cfg) && Good(s) && rq !in s.reqs && r.queue in s.io
    ensures r.queue in s.rr && Good(Insert(cfg, s, rq, r, at, last, taken))
  {
    hide AddSorted, Forest;
    InsertRequests(cfg, s, rq, r, at, last, taken);
    var q := r.queue;
    var s1 := s.(reqs := s.reqs[rq := r], queued := s.queued + 1,
                 io := s.io[q := s.io[q].(fifo := Append(s.io[q].fifo, Cons(rq, Nil)))]);
    InsertMissing(s, rq, r);
    assert TurnOk(s, q);
    forall x | x != q ensures TurnOk(s1, x) { assert TurnOk(s, x); }
    hide Requests;
    ForestSame(s, s1);
    AddSortedRest(cfg, s1, rq, at, last, taken);
    ArriveTurns(s1, AddSorted(cfg, s1, rq, at, last, taken), q);
  }

  lemma {:induction false} RepositionGood(cfg: Cfg, s: State, rq: int, pos: nat, at: Spot, last: nat, taken: bool)
    requires Positive(cfg) && Good(s) && rq in s.reqs
    ensures s.reqs[rq].queue in s.io && s.reqs[rq].queue in s.rr && Good(Reposition(cfg, s, rq, pos, at, last, taken))
  {
    hide AddSorted, Forest;
    RepositionRequests(cfg, s, rq, pos, at, last, taken);
    var q := s.reqs[rq].queue;
    var s1 := s.(reqs := s.reqs[rq := s.reqs[rq].(pos := pos)],
                 io := s.io[q := s.io[q].(sorted := RbDel(s.io[q].sorted, rq))]);
    RepositionMissing(s, rq, pos);
    assert TurnOk(s, q);
    forall x | x != q ensures TurnOk(s1, x) { assert TurnOk(s, x); }
    hide Requests;
    assert s1.reqs.Keys == s.reqs.Keys;
    assert |s1.reqs| == |s1.reqs.Keys| == |s.reqs|;
    ForestSame(s, s1);
    AddSortedRest(cfg, s1, rq, at, last, taken);
    ArriveTurns(s1, AddSorted(cfg, s1, rq, at, last, taken), q);
  }

  /** __cfq_slice_expired on the active queue: it keeps its turn exactly if it has requests. */
  lemma {:induction false} ExpireGood(cfg: Cfg, s: State, q: int, slice: nat, at: Spot)
    requires Positive(cfg) && Good(s) && s.active == Some(q)
    ensures q in s.rr && q in s.io
    ensures var t := Expire(cfg, s, q, slice, at);
      && Good(t) && t.active.None? && t.reqs == s.reqs && t.out == s.out && t.io == s.io
      && t.busy == s.busy - if s.io[q].sorted.Nil? then 1 else 0
  {
    hide Served, Requests, Forest, DelRr, ServiceAdd, PrioAdd, Turns;
    ActiveIs(s);
    var s1 := Served(s, s.rr[q].group, slice);
    ServedForest(s, s.rr[q].group, slice);
    if s.io[q].sorted.Nil? {
      DelRrForest(s1, q);
      LostTurn(s, Expire(cfg, s, q, slice, at), q);
      ForestSame(DelRr(s1, q), Expire(cfg, s, q, slice, at));
    } else {
      ServiceAddForest(cfg, s1, q, at.key);
      KeptTurn(s, Expire(cfg, s, q, slice, at), q);
      ForestSame(ServiceAdd(cfg, s1, q, at.key), Expire(cfg, s, q, slice, at));
    }
  }

  lemma {:induction false} ActiveIs(s: State)
    requires Turns(s) && s.active.Some?
    ensures var q := s.active.value; q in s.rr && q in s.io && s.rr[q].onRr && s.rr[q].node.Some?
  {
    assert s.active.value in s.rr.Keys;
    assert TurnOk(s, s.active.value);
  }

  lemma {:induction false} LostTurn(s: State, t: State, q: int)
    requires Turns(s) && s.active == Some(q) && t.active.None? && q in s.io && s.io[q].sorted.Nil?
    requires t.io == s.io && t.rr == s.rr[q := s.rr[q].(onRr := false, node := None)] && t.busy == s.busy - 1
    requires t.near == s.near - {q}
    ensures Turns(t)
  {
    OneLess(s.rr, t.rr, q);
    forall x ensures TurnOk(t, x) { assert TurnOk(s, x); }
  }

  lemma {:induction false} KeptTurn(s: State, t: State, q: int)
    requires Turns(s) && s.active == Some(q) && t.active.None? && q in s.io && s.io[q].sorted.Cons?
    requires t.io == s.io && t.rr.Keys == s.rr.Keys && t.busy == s.busy && t.rr[q].onRr && t.rr[q].node.Some?
    requires (forall x :: x in s.rr && x != q ==> t.rr[x] == s.rr[x]) && t.near - {q} == s.near - {q}
    ensures Turns(t)
  {
    SameRr(s.rr, t.rr);
    forall x ensures TurnOk(t, x) {
      assert TurnOk(s, x);
      assert x in t.near - {q} <==> x in s.near - {q};
    }
  }

  lemma {:induction false} ServedForest(s: State, g: nat, slice: nat)
    requires Forest(s, 0, 0)
    ensures Forest(Served(s, g, slice), 0, 0)
  {
    ServedKeeps(s, g, slice);
  }

  /** A queue is sorted anew, as when it preempts another or its kind changed. */
  lemma {:induction false} ResortGood(cfg: Cfg, s: State, q: int, key: int)
    requires Positive(cfg) && Good(s) && q in s.rr && s.rr[q].onRr
    ensures Good(ServiceAdd(cfg, s, q, key))
  {
    hide Requests, Forest, ServiceAdd;
    ServiceAddForest(cfg, s, q, key);
    var t := ServiceAdd(cfg, s, q, key);
    SameRr(s.rr, t.rr);
    forall x ensures TurnOk(t, x) { assert TurnOk(s, x); }
  }

  function SetKind(s: State, q: int, prio: Prio, kind: Kind): State
    requires q in s.rr
  {
    s.(rr := s.rr[q := s.rr[q].(prio := prio, kind := kind)])
  }

  lemma {:induction false} SetKindGood(s: State, q: int, prio: Prio, kind: Kind)
    requires Good(s) && q in s.rr
    ensures Good(SetKind(s, q, prio, kind))
  {
    hide Requests;
    var t := SetKind(s, q, prio, kind);
    SameNodes(s.rr, t.rr, s.trees);
    forall x | x in t.rr ensures Homed(t.rr[x]) { assert Homed(s.rr[x]); }
    SameRr(s.rr, t.rr);
    forall x ensures TurnOk(t, x) { assert TurnOk(s, x); }
  }

  function NewQueue(s: State, q: int, g: nat, prio: Prio, kind: Kind): State {
    s.(io := s.io[q := Io(Nil, Nil, None)], rr := s.rr[q := Rr(false, None, 0, g, None, prio, kind)])
  }

  lemma {:induction false} NewQueueGood(s: State, q: int, g: nat, prio: Prio, kind: Kind)
    requires Good(s) && q !in s.rr
    ensures Good(NewQueue(s, q, g, prio, kind))
  {
    var t := NewQueue(s, q, g, prio, kind);
    assert q !in s.io.Keys;
    forall rq ensures !InQueue(s.reqs, q, rq) { }
    assert QueueOk(s.reqs, q, t.io[q], None);
    hide QueueOk;
    SameNodes(s.rr, t.rr, s.trees);
    forall x | x in t.rr ensures Homed(t.rr[x]) { assert x in s.rr ==> Homed(s.rr[x]); }
    assert OnRr(t.rr) == OnRr(s.rr);
    forall x ensures TurnOk(t, x) { assert TurnOk(s, x); }
  }

  function FreeQueue(s: State, q: int): State {
    s.(io := s.io - {q}, rr := s.rr - {q})
  }

  /** cfq_put_queue: a queue that has no requests and is not active is in no tree either, so
      BUG_ON(cfq_cfqq_on_rr(cfqq)) does not fire. */
  lemma {:induction false} FreeQueueGood(s: State, q: int)
    requires Good(s) && q in s.rr && EmptyQueue(s, q) && s.active != Some(q)
    ensures !s.rr[q].onRr && Good(FreeQueue(s, q))
  {
    hide QueueOk, Forest;
    var t := FreeQueue(s, q);
    assert TurnOk(s, q);
    assert q in s.io.Keys;
    forall rq | rq in s.reqs ensures s.reqs[rq].queue in t.io {
      if s.reqs[rq].queue == q { HasSec(s.reqs, q, s.io[q], None, rq); }
    }
    FreeForest(s, q);
    assert OnRr(t.rr) == OnRr(s.rr);
    forall x ensures TurnOk(t, x) { assert TurnOk(s, x); }
  }

  lemma {:induction false} FreeForest(s: State, q: int)
    requires Forest(s, 0, 0) && q in s.rr && s.rr[q].node.None?
    ensures Forest(FreeQueue(s, q), 0, 0)
  {
    var rr := s.rr - {q};
    SameNodes(s.rr, rr, s.trees);
    forall x | x in rr ensures Homed(rr[x]) { assert Homed(s.rr[x]); }
  }

  lemma {:induction false} SelectGood(s: State, q: int)
    requires Good(s) && s.active.None? && q in s.rr && s.rr[q].onRr
    ensures Good(s.(active := Some(q)))
  {
    hide Requests;
    var t := s.(active := Some(q));
    ForestSame(s, t);
    forall x ensures TurnOk(t, x) { assert TurnOk(s, x); }
  }
}
