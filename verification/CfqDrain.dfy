/**
 cfq_forced_dispatch: from every state a run can reach it ends, with every request that was queued dispatched
 once and no queue left busy.
 */
module CfqDrain {
  import opened Lists
  import opened CfqModel
  import opened CfqRequests
  import opened CfqTrees
  import opened CfqProof
  import GF = GroupFairness

  // ---------------------------------------------------------------- one queue

  predicate Others(reqs: map<int, Req>, t: map<int, Req>, q: int, x: int) {
    (x in t <==> x in reqs && reqs[x].queue != q) && (x in t ==> t[x] == reqs[x])
  }

  /** d is what came onto the dispatch queue between s and t: the requests of q, each once. */
  ghost predicate Drained(s: State, t: State, q: int, d: List<int>) {
    && t.out == Append(d, s.out) && Distinct(d)
    && (forall x :: Member(d, x) <==> InQueue(s.reqs, q, x))
    && (forall x :: Others(s.reqs, t.reqs, q, x))
  }

  /** The loop of __cfq_forced_dispatch_cfqq empties sort_list and fifo, so its BUG_ON does not fire. */
  lemma {:induction false} DispatchAllIs(cfg: Cfg, s: State, q: int) returns (d: List<int>)
    requires Good(s) && s.active == Some(q)
    ensures var t := DispatchAll(cfg, s, q);
      && Good(t) && t.active == s.active && t.busy == s.busy && q in t.io
      && t.io[q].sorted.Nil? && t.io[q].fifo.Nil? && Drained(s, t, q, d)
    decreases s.reqs.Keys
  {
    assert TurnOk(s, q);
    assert q in s.io.Keys;
    var next := s.io[q].next;
    if next.Some? {
      var rq := next.value;
      NextInQueue(s, q);
      DispatchGood(cfg, s, rq);
      var s1 := Dispatch(cfg, s, rq);
      assert rq in s.reqs.Keys && rq !in s1.reqs.Keys;
      hide Good, Dispatch, Requests;
      var e := DispatchAllIs(cfg, s1, q);
      d := Append(e, Cons(rq, Nil));
      OneMoreDrained(s, s1, DispatchAll(cfg, s1, q), q, rq, e);
    } else {
      d := Nil;
      NoneLeft(s, q);
    }
  }

  lemma {:induction false} NextInQueue(s: State, q: int)
    requires Good(s) && q in s.io && s.io[q].next.Some?
    ensures InQueue(s.reqs, q, s.io[q].next.value) && s.reqs[s.io[q].next.value].queue in s.io
  {
    var rq := s.io[q].next.value;
    assert QueueOk(s.reqs, q, s.io[q], None);
    HasIsMember(s.io[q].sorted, rq);
    var pos :| Member(s.io[q].sorted, Sec(pos, rq));
    assert Entry(s.reqs, q, Sec(pos, rq));
  }

  lemma {:induction false} NoneLeft(s: State, q: int)
    requires Good(s) && q in s.io && s.io[q].next.None?
    ensures s.io[q].sorted.Nil? && s.io[q].fifo.Nil? && (forall x :: !InQueue(s.reqs, q, x))
    ensures Drained(s, s, q, Nil)
  {
    assert QueueOk(s.reqs, q, s.io[q], None);
    forall x ensures !InQueue(s.reqs, q, x) {
      if InQueue(s.reqs, q, x) { HasSec(s.reqs, q, s.io[q], None, x); }
    }
    forall x ensures Others(s.reqs, s.reqs, q, x) { assert !InQueue(s.reqs, q, x); }
    if s.io[q].fifo.Cons? {
      assert Member(s.io[q].fifo, s.io[q].fifo.head);
    }
  }

  lemma {:induction false} OneMoreDrained(s: State, s1: State, t: State, q: int, rq: int, e: List<int>)
    requires InQueue(s.reqs, q, rq) && s1.reqs == s.reqs - {rq} && s1.out == Cons(rq, s.out) && Drained(s1, t, q, e)
    ensures Drained(s, t, q, Append(e, Cons(rq, Nil)))
  {
    AppendAssoc(e, Cons(rq, Nil), s.out);
    assert !InQueue(s1.reqs, q, rq);
    AppendKeeps(e, rq);
    forall x ensures InQueue(s.reqs, q, x) <==> InQueue(s1.reqs, q, x) || x == rq { }
    forall x ensures Others(s.reqs, t.reqs, q, x) { assert Others(s1.reqs, t.reqs, q, x); }
  }

  /** One turn of the loop: the queue is emptied and gives up its turn. */
  lemma {:induction false} ForceQueueIs(cfg: Cfg, s: State, q: int, slice: nat, at: Spot) returns (d: List<int>)
    requires Positive(cfg) && Good(s) && s.active.None? && q in s.rr && s.rr[q].onRr
    ensures var t := ForceQueue(cfg, s, q, slice, at);
      Good(t) && t.active.None? && t.busy == s.busy - 1 && Drained(s, t, q, d)
  {
    hide Good, DispatchAll, Expire;
    SelectGood(s, q);
    var s1 := s.(active := Some(q));
    d := DispatchAllIs(cfg, s1, q);
    var t := DispatchAll(cfg, s1, q);
    ExpireGood(cfg, t, q, slice, at);
    var u := Expire(cfg, t, q, slice, at);
    assert Drained(s, u, q, d) by {
      forall x ensures Others(s.reqs, u.reqs, q, x) { assert Others(s1.reqs, t.reqs, q, x); }
    }
  }

  // ---------------------------------------------------------------- which queue

  /** Looking for the first node fills caches and changes nothing else. */
  lemma {:induction false} FirstQueueIs(rr: map<int, Rr>, trees: map<Place, ServiceTree>, g: nat, i: nat)
    requires TreesOk(rr, trees) && i <= SLOTS
    ensures var (t, q) := FirstQueue(trees, g, i);
      && TreesOk(rr, t) && (forall x: nat :: Sum(t, x, SLOTS) == Sum(trees, x, SLOTS))
      && (q.Some? ==> q.value in rr && rr[q.value].node.Some?)
      && (q.None? ==> forall j :: i <= j < SLOTS ==> TreeOf(trees, Place(g, j)).nodes.Nil?)
    decreases SLOTS - i
  {
    if i < SLOTS {
      var p := Place(g, i);
      assert TreeOk(rr, trees, p);
      TreeFirstIs(TreeOf(trees, p));
      var (u, q) := TreeFirst(TreeOf(trees, p));
      hide TreeFirst, Sum;
      if q.Some? {
        var filled := trees[p := u];
        forall x ensures TreeOk(rr, filled, x) { assert TreeOk(rr, trees, x); }
        forall x: nat ensures Sum(trees[p := u], x, SLOTS) == Sum(trees, x, SLOTS) {
          SumChanges(trees, p, u, x, SLOTS);
        }
      } else {
        FirstQueueIs(rr, trees, g, i + 1);
      }
    }
  }

  /** While anything is queued, the first group of the group service tree has a queue. */
  lemma {:induction false} GroupHasQueue(s: State)
    requires Good(s) && s.queued != 0
    ensures s.groups.groups.Cons? && Sum(s.trees, s.groups.groups.head.id, SLOTS) > 0
  {
    assert |s.reqs.Keys| == |s.reqs|;
    var rq := Pick(s.reqs.Keys);
    HasTurn(s, rq);
    var q := s.reqs[rq].queue;
    assert TurnOk(s, q);
    Counted(s, q, 0);
    assert GF.Has(s.groups.groups, s.rr[q].group);
    var g := s.groups.groups.head.id;
    assert GF.Has(s.groups.groups, g);
    assert Debt(s.trees, s.nr, g) == 0;
  }

  lemma {:induction false} NextForcedIs(s: State)
    requires Good(s)
    ensures var (t, q) := NextForced(s);
      && Good(t) && t.reqs == s.reqs && t.out == s.out && t.active == s.active && t.busy == s.busy && t.rr == s.rr
      && (q.Some? <==> s.queued != 0) && (q.Some? ==> q.value in t.rr && t.rr[q.value].onRr)
  {
    if s.queued != 0 {
      GroupHasQueue(s);
      var g := s.groups.groups.head.id;
      FirstQueueIs(s.rr, s.trees, g, 0);
      SumPositive(s.rr, s.trees, g, SLOTS);
      var (trees, q) := FirstQueue(s.trees, g, 0);
      hide FirstQueue, Sum;
      var t := s.(groups := GF.GetNext(s.groups), trees := trees);
      assert t.groups.groups == s.groups.groups;
      CachesForest(s, t);
      assert q.Some? ==> TurnOk(s, q.value);
      hide Forest, Requests;
      forall x ensures TurnOk(t, x) { assert TurnOk(s, x); }
    }
  }

  lemma {:induction false} CachesForest(s: State, t: State)
    requires Forest(s, 0, 0) && t.rr == s.rr && t.nr == s.nr && t.groups.groups == s.groups.groups
    requires TreesOk(s.rr, t.trees) && forall x: nat :: Sum(t.trees, x, SLOTS) == Sum(s.trees, x, SLOTS)
    ensures Forest(t, 0, 0)
  {
    hide Sum, TreesOk;
    forall x: nat ensures Debt(t.trees, t.nr, x) == 0 {
      assert Debt(s.trees, s.nr, x) == 0;
    }
  }

  // ---------------------------------------------------------------- the drain

  /** What each expiry charges, and where the queue would be sorted after it, is left open. */
  datatype Expiry = Expiry(slice: nat, at: Spot)

  type Clock = nat -> Expiry

  /** The loop of cfq_forced_dispatch; n expiries came before. */
  ghost function ForceLoop(cfg: Cfg, s: State, c: Clock, n: nat): State
    requires Positive(cfg) && Good(s) && s.active.None?
    decreases |OnRr(s.rr)|
  {
    NextForcedIs(s);
    var (t, q) := NextForced(s);
    if q.None? then t
    else
      ForceQueueGood(cfg, t, q.value, c(n));
      ForceLoop(cfg, ForceQueue(cfg, t, q.value, c(n).slice, c(n).at), c, n + 1)
  }

  lemma {:induction false} ForceQueueGood(cfg: Cfg, s: State, q: int, e: Expiry)
    requires Positive(cfg) && Good(s) && s.active.None? && q in s.rr && s.rr[q].onRr
    ensures var t := ForceQueue(cfg, s, q, e.slice, e.at);
      Good(t) && t.active.None? && |OnRr(t.rr)| < |OnRr(s.rr)|
  {
    var d := ForceQueueIs(cfg, s, q, e.slice, e.at);
    BusyIs(s);
    BusyIs(ForceQueue(cfg, s, q, e.slice, e.at));
    hide *;
  }

  lemma {:induction false} BusyIs(s: State)
    requires Good(s)
    ensures s.busy == |OnRr(s.rr)|
  {
  }

  /** cfq_forced_dispatch */
  ghost function Forced(cfg: Cfg, s: State, c: Clock): State
    requires Positive(cfg) && Good(s)
  {
    if s.active.Some? then
      var q := s.active.value;
      ExpireGood(cfg, s, q, c(0).slice, c(0).at);
      ForceLoop(cfg, Expire(cfg, s, q, c(0).slice, c(0).at), c, 1)
    else ForceLoop(cfg, s, c, 0)
  }

  /** d is what came onto the dispatch queue: everything that was queued, each request once. */
  ghost predicate DrainedAll(s: State, t: State, d: List<int>) {
    && t.out == Append(d, s.out) && Distinct(d) && Length(d) == s.queued
    && (forall x :: Member(d, x) <==> x in s.reqs)
    && t.reqs == map[] && t.queued == 0 && t.busy == 0 && t.active.None?
    && (forall q :: q in t.rr ==> !t.rr[q].onRr)
  }

  lemma {:induction false} NothingLeft(s: State)
    requires Good(s) && s.active.None? && s.queued == 0
    ensures DrainedAll(s, s, Nil)
  {
    assert s.reqs == map[];
    forall q | q in s.rr ensures !s.rr[q].onRr {
      assert TurnOk(s, q);
      assert q in s.io.Keys;
      NoEntries(s, q);
    }
    if |OnRr(s.rr)| > 0 { var q := Pick(OnRr(s.rr)); }
  }

  lemma {:induction false} NoEntries(s: State, q: int)
    requires Good(s) && q in s.io && forall rq :: !InQueue(s.reqs, q, rq)
    ensures s.io[q].sorted.Nil?
  {
  }

  lemma {:induction false} JoinDrains(s: State, s1: State, t: State, q: int, d: List<int>, e: List<int>)
    requires Good(s) && Good(s1) && Drained(s, s1, q, d) && DrainedAll(s1, t, e)
    ensures DrainedAll(s, t, Append(e, d))
  {
    AppendAssoc(e, d, s.out);
    forall x ensures Member(e, x) <==> x in s.reqs && s.reqs[x].queue != q { assert Others(s.reqs, s1.reqs, q, x); }
    forall x ensures Member(d, x) <==> x in s.reqs && s.reqs[x].queue == q { assert Member(d, x) <==> InQueue(s.reqs, q, x); }
    DistinctAppend(e, d);
    AppendAll(e, d);
    var f := Append(e, d);
    forall x ensures Member(f, x) <==> x in s.reqs { }
    DistinctLength(f, s.reqs.Keys);
    assert |s.reqs| == |s.reqs.Keys|;
  }

  lemma {:induction false} AppendAll(a: List<int>, b: List<int>)
    ensures forall x :: Member(Append(a, b), x) <==> Member(a, x) || Member(b, x)
  {
    if a.Cons? { AppendAll(a.tail, b); }
  }

  lemma {:induction false} DistinctAppend(a: List<int>, b: List<int>)
    requires Distinct(a) && Distinct(b) && forall x :: !(Member(a, x) && Member(b, x))
    ensures Distinct(Append(a, b))
  {
    if a.Cons? {
      assert Member(a, a.head);
      assert forall x :: Member(a.tail, x) ==> Member(a, x);
      DistinctAppend(a.tail, b);
      AppendAll(a.tail, b);
    }
  }

  lemma {:induction false} DistinctLength(a: List<int>, s: set<int>)
    requires Distinct(a) && forall x :: Member(a, x) <==> x in s
    ensures Length(a) == |s|
  {
    if a.Cons? {
      assert Member(a, a.head);
      forall x ensures Member(a.tail, x) <==> x in s - {a.head} { assert Member(a, x) <==> x in s; }
      DistinctLength(a.tail, s - {a.head});
    } else {
      if |s| > 0 { var x := Pick(s); }
    }
  }

  lemma {:induction false} ForceLoopDrains(cfg: Cfg, s: State, c: Clock, n: nat) returns (d: List<int>)
    requires Positive(cfg) && Good(s) && s.active.None?
    ensures Good(ForceLoop(cfg, s, c, n)) && DrainedAll(s, ForceLoop(cfg, s, c, n), d)
    decreases |OnRr(s.rr)|
  {
    NextForcedIs(s);
    var (t, q) := NextForced(s);
    hide NextForced, Requests, Forest, DrainedAll;
    if q.None? {
      d := Nil;
      NothingLeft(t);
      SameDrain(s, t, t, d);
    } else {
      var e := ForceQueueIs(cfg, t, q.value, c(n).slice, c(n).at);
      var u := ForceQueue(cfg, t, q.value, c(n).slice, c(n).at);
      ForceQueueGood(cfg, t, q.value, c(n));
      hide ForceQueue;
      var f := ForceLoopDrains(cfg, u, c, n + 1);
      d := Append(f, e);
      JoinDrains(t, u, ForceLoop(cfg, u, c, n + 1), q.value, e, f);
      SameDrain(s, t, ForceLoop(cfg, u, c, n + 1), d);
    }
  }

  lemma {:induction false} SameDrain(s: State, s1: State, t: State, d: List<int>)
    requires Good(s) && Good(s1) && s1.reqs == s.reqs && s1.out == s.out && DrainedAll(s1, t, d)
    ensures DrainedAll(s, t, d)
  {
  }

  /** A forced dispatch ends from every good state, puts every request that was queued onto the dispatch
      queue exactly once, and leaves no queue busy: neither BUG_ON of it fires. */
  lemma {:induction false} ForcedDrains(cfg: Cfg, s: State, c: Clock) returns (d: List<int>)
    requires Positive(cfg) && Good(s)
    ensures Good(Forced(cfg, s, c)) && DrainedAll(s, Forced(cfg, s, c), d)
  {
    if s.active.Some? {
      var q := s.active.value;
      ExpireGood(cfg, s, q, c(0).slice, c(0).at);
      var t := Expire(cfg, s, q, c(0).slice, c(0).at);
      hide Good, Expire, DrainedAll;
      d := ForceLoopDrains(cfg, t, c, 1);
      SameDrain(s, t, ForceLoop(cfg, t, c, 1), d);
    } else {
      d := ForceLoopDrains(cfg, s, c, 0);
    }
  }

  // ---------------------------------------------------------------- runs

  datatype Event =
    | Create(q: int, group: nat, prio: Prio, kind: Kind)
    | Free(q: int)
    | Reclass(q: int, prio: Prio, kind: Kind)
    | Add(rq: int, r: Req, at: Spot, last: nat, taken: bool)
    | MergeFront(rq: int, pos: nat, at: Spot, last: nat, taken: bool)
    | Join(rq: int, next: int, older: bool)
    | Sort(q: int, key: int)
    | Select(q: int)
    | Serve(rq: int)
    | SliceOver(slice: nat, at: Spot)
    | Drain(c: Clock)

  /** What the scheduler's callers and its own choices may be: any queue with its turn can be selected
      when none is active, and requests are served from the active queue. */
  predicate Allowed(s: State, e: Event) {
    match e
    case Create(q, _, _, _) => q !in s.rr
    case Free(q) => q in s.rr && EmptyQueue(s, q) && s.active != Some(q)
    case Reclass(q, _, _) => q in s.rr
    case Add(rq, r, _, _, _) => rq !in s.reqs && Known(s, r.queue)
    case MergeFront(rq, _, _, _, _) => rq in s.reqs && Known(s, s.reqs[rq].queue)
    case Join(rq, next, _) =>
      rq in s.reqs && next in s.reqs && rq != next && s.reqs[rq].queue == s.reqs[next].queue && Known(s, s.reqs[rq].queue)
    case Sort(q, _) => q in s.rr && s.rr[q].onRr
    case Select(q) => s.active.None? && q in s.rr && s.rr[q].onRr
    case Serve(rq) => rq in s.reqs && s.active == Some(s.reqs[rq].queue) && Known(s, s.reqs[rq].queue)
    case SliceOver(_, _) => s.active.Some? && Known(s, s.active.value)
    case Drain(_) => true
  }

  predicate Known(s: State, q: int) {
    q in s.io && q in s.rr
  }

  ghost predicate Steps(cfg: Cfg, s: State, e: Event, t: State)
    requires Positive(cfg) && Allowed(s, e)
  {
    match e
    case Create(q, g, prio, kind) => t == NewQueue(s, q, g, prio, kind)
    case Free(q) => t == FreeQueue(s, q)
    case Reclass(q, prio, kind) => t == SetKind(s, q, prio, kind)
    case Add(rq, r, at, last, taken) => t == Insert(cfg, s, rq, r, at, last, taken)
    case MergeFront(rq, pos, at, last, taken) => t == Reposition(cfg, s, rq, pos, at, last, taken)
    case Join(rq, next, older) => t == Joined(cfg, s, rq, next, older)
    case Sort(q, key) => t == ServiceAdd(cfg, s, q, key)
    case Select(q) => t == s.(active := Some(q))
    case Serve(rq) => t == Dispatch(cfg, s, rq)
    case SliceOver(slice, at) => t == Expire(cfg, s, s.active.value, slice, at)
    case Drain(c) => Good(s) ==> t == Forced(cfg, s, c)
  }

  lemma {:induction false} StepGood(cfg: Cfg, s: State, e: Event, t: State)
    requires Positive(cfg) && Good(s) && Allowed(s, e) && Steps(cfg, s, e, t)
    ensures Good(t)
  {
    hide Good;
    match e
    case Create(q, g, prio, kind) => NewQueueGood(s, q, g, prio, kind);
    case Free(q) => FreeQueueGood(s, q);
    case Reclass(q, prio, kind) => SetKindGood(s, q, prio, kind);
    case Add(rq, r, at, last, taken) => InsertGood(cfg, s, rq, r, at, last, taken);
    case MergeFront(rq, pos, at, last, taken) => RepositionGood(cfg, s, rq, pos, at, last, taken);
    case Join(rq, next, older) => JoinedGood(cfg, s, rq, next, older);
    case Sort(q, key) => ResortGood(cfg, s, q, key);
    case Select(q) => SelectGood(s, q);
    case Serve(rq) => DispatchGood(cfg, s, rq);
    case SliceOver(slice, at) => ExpireGood(cfg, s, s.active.value, slice, at);
    case Drain(c) => var d := ForcedDrains(cfg, s, c);
  }

  /** s leads to t by the events, by way of the states in between. */
  ghost predicate Run(cfg: Cfg, s: State, es: List<Event>, via: List<State>, t: State)
    requires Positive(cfg)
    decreases es
  {
    match es
    case Nil => via.Nil? && s == t
    case Cons(e, r) =>
      && via.Cons? && Allowed(s, e) && Steps(cfg, s, e, via.head)
      && Run(cfg, via.head, r, via.tail, t)
  }

  function Start(): State {
    State(map[], map[], map[], map[], map[], GF.Tree(Nil, None, 0), None, 0, 0, {}, Nil)
  }

  lemma {:induction false} StartGood()
    ensures Good(Start())
  {
    var s := Start();
    forall p ensures TreeOk(s.rr, s.trees, p) { }
    forall g: nat ensures Sum(s.trees, g, SLOTS) == 0 { EmptySum(g, SLOTS); }
    assert OnRr(s.rr) == {};
  }

  lemma {:induction false} EmptySum(g: nat, n: nat)
    ensures Sum(map[], g, n) == 0
  {
    if n > 0 { EmptySum(g, n - 1); }
  }

  lemma {:induction false} RunGood(cfg: Cfg, s: State, es: List<Event>, via: List<State>, t: State)
    requires Positive(cfg) && Good(s) && Run(cfg, s, es, via, t)
    ensures Good(t)
    decreases es
  {
    hide Good, Allowed, Steps;
    if es.Cons? {
      StepGood(cfg, s, es.head, via.head);
      RunGood(cfg, via.head, es.tail, via.tail, t);
    }
  }

  /** What holds of a queue: next_rq is null exactly when sort_list is empty; sort_list and fifo hold the
      same requests; with a turn and without requests it is the active one; and in a priority tree it has a
      next request. */
  ghost predicate QueueRight(s: State, q: int) {
    && q in s.io && q in s.rr
    && (s.io[q].next.None? <==> s.io[q].sorted.Nil?)
    && (forall rq :: HasRq(s.io[q].sorted, rq) <==> Member(s.io[q].fifo, rq))
    && (s.rr[q].onRr && s.io[q].sorted.Nil? ==> s.active == Some(q))
    && (q in s.near ==> s.io[q].next.Some?)
  }

  lemma {:induction false} QueueIsRight(s: State, q: int)
    requires Good(s) && q in s.rr
    ensures QueueRight(s, q)
  {
    assert TurnOk(s, q);
    assert q in s.io.Keys;
    assert QueueOk(s.reqs, q, s.io[q], None);
    forall rq ensures HasRq(s.io[q].sorted, rq) <==> Member(s.io[q].fifo, rq) { SameRequests(s, q, rq); }
  }

  /** In every state of every run every queue is right, and a forced dispatch drains them all. */
  lemma {:induction false} EveryRunDrains(cfg: Cfg, es: List<Event>, via: List<State>, s: State, c: Clock)
      returns (d: List<int>)
    requires Positive(cfg) && Run(cfg, Start(), es, via, s)
    ensures Good(s) && DrainedAll(s, Forced(cfg, s, c), d)
    ensures forall q :: q in s.rr ==> QueueRight(s, q)
  {
    hide Good, DrainedAll, QueueRight, Run;
    StartGood();
    RunGood(cfg, Start(), es, via, s);
    d := ForcedDrains(cfg, s, c);
    forall q | q in s.rr ensures QueueRight(s, q) { QueueIsRight(s, q); }
  }

  /** A queue that is looked for among the others in priority trees, when the active queue has run out of
      requests, is not the active queue. */
  lemma {:induction false} CooperatorIsOther(cfg: Cfg, es: List<Event>, via: List<State>, s: State, q: int, other: int)
    requires Positive(cfg) && Run(cfg, Start(), es, via, s) && s.active == Some(q) && EmptyQueue(s, q)
    requires other in s.near
    ensures other != q
  {
    StartGood();
    RunGood(cfg, Start(), es, via, s);
    assert TurnOk(s, other);
  }

  lemma {:induction false} SameRequests(s: State, q: int, rq: int)
    requires Good(s) && q in s.io
    ensures HasRq(s.io[q].sorted, rq) <==> Member(s.io[q].fifo, rq)
  {
    assert QueueOk(s.reqs, q, s.io[q], None);
    HasIsMember(s.io[q].sorted, rq);
    if HasRq(s.io[q].sorted, rq) {
      var pos :| Member(s.io[q].sorted, Sec(pos, rq));
      assert Entry(s.reqs, q, Sec(pos, rq));
    }
    if InQueue(s.reqs, q, rq) { HasSec(s.reqs, q, s.io[q], None, rq); }
  }

  /** In every state of every run a group's nr_cfqq is the sum of its trees' counts, each tree's count and
      cached first node are right, and the group service tree holds the groups with queues. */
  lemma {:induction false} EveryRunCounts(cfg: Cfg, es: List<Event>, via: List<State>, s: State, g: nat, slot: nat)
    requires Positive(cfg) && Run(cfg, Start(), es, via, s)
    ensures NrOf(s.nr, g) == Sum(s.trees, g, SLOTS)
    ensures GF.Has(s.groups.groups, g) <==> NrOf(s.nr, g) > 0
    ensures TreeFine(TreeOf(s.trees, Place(g, slot)))
    ensures forall q :: HasNode(TreeOf(s.trees, Place(g, slot)).nodes, q) <==> q in s.rr && s.rr[q].node == Some(Place(g, slot))
    ensures s.busy == |OnRr(s.rr)| && s.queued == |s.reqs|
  {
    StartGood();
    RunGood(cfg, Start(), es, via, s);
    assert TreeOk(s.rr, s.trees, Place(g, slot));
    assert Debt(s.trees, s.nr, g) == 0;
  }

  /** So when a group is charged, BUG_ON(nr_sync < 0) does not fire. */
  lemma {:induction false} SyncNotNegative(s: State, g: nat)
    requires Good(s)
    ensures NrOf(s.nr, g) - TreeOf(s.trees, Place(g, Slot(Rt, Async))).count - TreeOf(s.trees, Place(g, Slot(Be, Async))).count
          - TreeOf(s.trees, Place(g, Slot(IdleClass, Async))).count >= 0
  {
    assert Debt(s.trees, s.nr, g) == 0;
    SumOfSeven(s.rr, s.trees, g);
  }

  lemma {:induction false} SumOfSeven(rr: map<int, Rr>, trees: map<Place, ServiceTree>, g: nat)
    requires TreesOk(rr, trees)
    ensures Sum(trees, g, 7) >= TreeOf(trees, Place(g, 0)).count + TreeOf(trees, Place(g, 3)).count + TreeOf(trees, Place(g, 6)).count
  {
    assert TreeOk(rr, trees, Place(g, 1)) && TreeOk(rr, trees, Place(g, 2));
    assert TreeOk(rr, trees, Place(g, 4)) && TreeOk(rr, trees, Place(g, 5));
    assert Sum(trees, g, 1) == TreeOf(trees, Place(g, 0)).count;
    assert Sum(trees, g, 3) >= Sum(trees, g, 2) >= Sum(trees, g, 1);
    assert Sum(trees, g, 4) == Sum(trees, g, 3) + TreeOf(trees, Place(g, 3)).count;
    assert Sum(trees, g, 6) >= Sum(trees, g, 5) >= Sum(trees, g, 4);
  }
}
