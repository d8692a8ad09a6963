/**
 The queues of the CFQ I/O scheduler (cfq-iosched.c): each process's queue has a sorted list and a fifo of
 its requests, waits in one of its group's service trees while it is busy, and can be drained by force.
 */
module CfqModel {
  import opened Lists
  import GF = GroupFairness

  // ---------------------------------------------------------------- state

  const ROOT: nat := 0
  const SLOTS: nat := 7

  datatype Prio = Be | Rt | IdleClass
  datatype Kind = Async | SyncNoIdle | Sync

  /** The order of for_each_cfqg_st: best effort, real time, idle. */
  function Slot(p: Prio, k: Kind): (r: nat)
    ensures r < SLOTS
  {
    if p.IdleClass? then 6
    else (if p.Be? then 0 else 3) + (if k.Async? then 0 else if k.SyncNoIdle? then 1 else 2)
  }

  datatype Place = Place(group: nat, slot: nat)

  /** A request in the scheduler. */
  datatype Req = Req(queue: int, pos: nat, sync: bool, meta: bool)

  datatype Sec = Sec(pos: nat, rq: int)

  /** A queue's requests: sort_list, fifo and next_rq. */
  datatype Io = Io(sorted: List<Sec>, fifo: List<int>, next: Option<int>)

  /** A queue's turn: on_rr, the service tree its node is in, its key there, its group, the group it came
      from, and what decides on its tree. */
  datatype Rr = Rr(onRr: bool, node: Option<Place>, key: int, group: nat, orig: Option<nat>, prio: Prio, kind: Kind)

  datatype Node = Node(key: int, q: int)

  datatype ServiceTree = ServiceTree(nodes: List<Node>, left: Option<int>, count: int)

  datatype State = State(
    reqs: map<int, Req>,
    io: map<int, Io>,
    rr: map<int, Rr>,
    trees: map<Place, ServiceTree>,
    nr: map<nat, int>,                   // nr_cfqq
    groups: GF.Tree,                     // grp_service_tree
    active: Option<int>,
    busy: int,                           // busy_queues
    queued: int,                         // rq_queued
    near: set<int>,                      // the queues in a priority tree, where cooperators are looked for
    out: List<int>)                      // what was put on the dispatch queue, latest first

  /** Where a queue comes to when it is sorted anew: its key in the service tree, and whether the priority
      tree has a queue with the same next sector already. */
  datatype Spot = Spot(key: int, taken: bool)

  /** What does not change: the weights of groups, and tunables. */
  datatype Cfg = Cfg(weight: nat -> nat, isolation: bool, idleDelay: nat, backMax: nat, backPenalty: nat)

  // ---------------------------------------------------------------- the sorted list

  function RbAdd(l: List<Sec>, x: Sec): List<Sec> {
    match l
    case Nil => Cons(x, Nil)
    case Cons(y, r) => if x.pos < y.pos then Cons(x, l) else Cons(y, RbAdd(r, x))
  }

  function RbDel(l: List<Sec>, rq: int): List<Sec> {
    match l
    case Nil => Nil
    case Cons(y, r) => if y.rq == rq then r else Cons(y, RbDel(r, rq))
  }

  function RbFind(l: List<Sec>, pos: nat): Option<int> {
    match l
    case Nil => None
    case Cons(y, r) => if y.pos == pos then Some(y.rq) else RbFind(r, pos)
  }

  /** rb_next and rb_prev */
  function RbNext(l: List<Sec>, rq: int): Option<int> {
    match l
    case Nil => None
    case Cons(y, r) => if y.rq == rq then (if r.Nil? then None else Some(r.head.rq)) else RbNext(r, rq)
  }

  function RbPrev(l: List<Sec>, rq: int): Option<int> {
    match l
    case Nil => None
    case Cons(y, r) => if r.Cons? && r.head.rq == rq then Some(y.rq) else RbPrev(r, rq)
  }

  // ---------------------------------------------------------------- which request is next

  function Distance(cfg: Cfg, pos: nat, last: nat): Option<nat> {
    if pos >= last then Some(pos - last)
    else if pos + 2 * cfg.backMax >= last then Some((last - pos) * cfg.backPenalty)
    else None                            // it wraps
  }

  /** cfq_choose_req */
  function Choose(cfg: Cfg, reqs: map<int, Req>, a: Option<int>, b: Option<int>, last: nat): (r: Option<int>)
    ensures r == a || r == b
    ensures r.None? <==> a.None? && b.None?
  {
    if a.None? || a == b then b
    else if b.None? then a
    else if a.value !in reqs || b.value !in reqs then a
    else
      var x, y := reqs[a.value], reqs[b.value];
      if x.sync != y.sync then (if x.sync then a else b)
      else if x.meta != y.meta then (if x.meta then a else b)
      else
        var d, e := Distance(cfg, x.pos, last), Distance(cfg, y.pos, last);
        if d.Some? && e.Some? then
          if d.value < e.value then a else if e.value < d.value then b else if x.pos >= y.pos then a else b
        else if d.Some? then a
        else if e.Some? then b
        else if x.pos <= y.pos then a else b
  }

  /** cfq_find_next_rq */
  function FindNext(cfg: Cfg, reqs: map<int, Req>, l: List<Sec>, rq: int): Option<int> {
    var after := RbNext(l, rq);
    var next := if after.Some? || l.Nil? || l.head.rq == rq then after else Some(l.head.rq);
    Choose(cfg, reqs, next, RbPrev(l, rq), if rq in reqs then reqs[rq].pos else 0)
  }

  // ---------------------------------------------------------------- service trees

  function TreeOf(trees: map<Place, ServiceTree>, p: Place): ServiceTree {
    if p in trees then trees[p] else ServiceTree(Nil, None, 0)
  }

  function NodeAdd(l: List<Node>, n: Node): List<Node> {
    match l
    case Nil => Cons(n, Nil)
    case Cons(m, r) => if n.key < m.key then Cons(n, l) else Cons(m, NodeAdd(r, n))
  }

  function NodeDel(l: List<Node>, q: int): List<Node> {
    match l
    case Nil => Nil
    case Cons(m, r) => if m.q == q then r else Cons(m, NodeDel(r, q))
  }

  /** cfq_rb_erase */
  function TreeDel(t: ServiceTree, q: int): ServiceTree {
    ServiceTree(NodeDel(t.nodes, q), if t.left == Some(q) then None else t.left, t.count - 1)
  }

  function TreeAdd(t: ServiceTree, n: Node): ServiceTree {
    ServiceTree(NodeAdd(t.nodes, n),
                if t.nodes.Nil? || n.key < t.nodes.head.key then Some(n.q) else t.left, t.count + 1)
  }

  /** cfq_rb_first, which fills the cache */
  function TreeFirst(t: ServiceTree): (ServiceTree, Option<int>) {
    if t.count == 0 then (t, None)
    else if t.left.Some? then (t, t.left)
    else if t.nodes.Nil? then (t, None)
    else (t.(left := Some(t.nodes.head.q)), Some(t.nodes.head.q))
  }

  // ---------------------------------------------------------------- groups

  function NrOf(nr: map<nat, int>, g: nat): int {
    if g in nr then nr[g] else 0
  }

  /** cfq_group_service_tree_add */
  function GroupAdd(cfg: Cfg, s: State, g: nat): (r: State)
    ensures r.io == s.io && r.reqs == s.reqs && r.queued == s.queued && r.out == s.out
    ensures r.rr == s.rr && r.trees == s.trees && r.busy == s.busy && r.active == s.active && r.near == s.near
  {
    s.(nr := s.nr[g := NrOf(s.nr, g) + 1], groups := GF.EnterNode(s.groups, g, cfg.weight(g), cfg.idleDelay))
  }

  /** cfq_group_service_tree_del */
  function GroupDel(s: State, g: nat): (r: State)
    ensures r.io == s.io && r.reqs == s.reqs && r.queued == s.queued && r.out == s.out
    ensures r.rr == s.rr && r.trees == s.trees && r.busy == s.busy && r.active == s.active && r.near == s.near
  {
    var t := s.(nr := s.nr[g := NrOf(s.nr, g) - 1]);
    if NrOf(s.nr, g) > 1 then t else t.(groups := GF.EraseNode(s.groups, g))
  }

  /** cfq_group_served: the group is charged for a slice */
  function Served(s: State, g: nat, slice: nat): (r: State)
    ensures r == s.(groups := r.groups)
  {
    if GF.Has(s.groups.groups, g) && GF.Find(s.groups.groups, g).weight > 0 then
      var x := GF.Find(s.groups.groups, g);
      s.(groups := GF.AddNode(GF.EraseNode(s.groups, g), x.(vdisktime := x.vdisktime + GF.Scale(slice, x.weight))))
    else s
  }

  // ---------------------------------------------------------------- queues in service trees

  /** Whether cfq_service_tree_add moves the queue to the root group or back to its own. */
  function NewGroup(cfg: Cfg, r: Rr): Rr {
    if !cfg.isolation && r.kind.SyncNoIdle? && r.group != ROOT then
      r.(group := ROOT, orig := Some(r.group))
    else if !cfg.isolation && r.kind.Sync? && r.orig.Some? then r.(group := r.orig.value, orig := None)
    else r
  }

  function PlaceOf(r: Rr): Place {
    Place(r.group, Slot(r.prio, r.kind))
  }

  /** Queue q's node leaves its tree, and enters another. */
  function Unplace(s: State, q: int): State
    requires q in s.rr
  {
    var r := s.rr[q];
    if r.node.None? then s
    else s.(trees := s.trees[r.node.value := TreeDel(TreeOf(s.trees, r.node.value), q)],
            rr := s.rr[q := r.(node := None)])
  }

  function PutInto(s: State, q: int, r: Rr, key: int): State {
    var p := PlaceOf(r);
    s.(trees := s.trees[p := TreeAdd(TreeOf(s.trees, p), Node(key, q))],
       rr := s.rr[q := r.(node := Some(p), key := key)])
  }

  /** cfq_service_tree_add, when key is the place in time it comes to */
  function ServiceAdd(cfg: Cfg, s: State, q: int, key: int): (r: State)
    requires q in s.rr
    ensures r.io == s.io && r.reqs == s.reqs && r.queued == s.queued && r.out == s.out
    ensures r.busy == s.busy && r.active == s.active && r.near == s.near && r.rr.Keys == s.rr.Keys
  {
    var was := s.rr[q];
    var n := NewGroup(cfg, was);
    var moved := n != was;
    if !moved && was.node == Some(PlaceOf(n)) && key == was.key then s
    else
      var s1 := if moved && was.node.Some? then GroupDel(s, was.group) else s;
      var s2 := Unplace(s1, q);
      var s3 := PutInto(s2, q, n, key);
      if was.node.Some? && !moved then s3 else GroupAdd(cfg, s3, n.group)
  }

  /** cfq_prio_tree_add: a queue is in a priority tree only while it knows its next request. */
  function PrioAdd(s: State, q: int, taken: bool): (r: State)
    ensures r == s.(near := r.near) && r.near - {q} == s.near - {q}
  {
    if q in s.io && q in s.rr && s.io[q].next.Some? && !s.rr[q].prio.IdleClass? && !taken then
      s.(near := s.near + {q})
    else s.(near := s.near - {q})
  }

  /** cfq_resort_rr_list */
  function Resort(cfg: Cfg, s: State, q: int, at: Spot): (r: State)
    requires q in s.rr
    ensures r.io == s.io && r.reqs == s.reqs && r.queued == s.queued && r.out == s.out
    ensures r.busy == s.busy && r.active == s.active && r.rr.Keys == s.rr.Keys && r.near - {q} == s.near - {q}
  {
    if s.rr[q].onRr then PrioAdd(ServiceAdd(cfg, s, q, at.key), q, at.taken) else s
  }

  /** cfq_add_cfqq_rr */
  function AddRr(cfg: Cfg, s: State, q: int, at: Spot): (r: State)
    requires q in s.rr
    ensures r.io == s.io && r.reqs == s.reqs && r.queued == s.queued && r.out == s.out
    ensures r.busy == s.busy + 1 && r.active == s.active && r.rr.Keys == s.rr.Keys && r.near - {q} == s.near - {q}
  {
    Resort(cfg, s.(rr := s.rr[q := s.rr[q].(onRr := true)], busy := s.busy + 1), q, at)
  }

  /** cfq_del_cfqq_rr */
  function DelRr(s: State, q: int): (r: State)
    requires q in s.rr
    ensures r.io == s.io && r.reqs == s.reqs && r.queued == s.queued && r.out == s.out
    ensures r.busy == s.busy - 1 && r.active == s.active && r.rr.Keys == s.rr.Keys && r.near == s.near - {q}
  {
    var t := Unplace(s.(rr := s.rr[q := s.rr[q].(onRr := false)]), q);
    GroupDel(t, s.rr[q].group).(busy := s.busy - 1, near := s.near - {q})
  }

  predicate EmptyQueue(s: State, q: int) {
    q in s.io ==> s.io[q].sorted.Nil?
  }

  /** __cfq_slice_expired */
  function Expire(cfg: Cfg, s: State, q: int, slice: nat, at: Spot): (r: State)
    requires q in s.rr
    ensures r.io == s.io && r.reqs == s.reqs && r.queued == s.queued && r.out == s.out
    ensures r.rr.Keys == s.rr.Keys
  {
    var s1 := Served(s, s.rr[q].group, slice);
    var s2 := if s1.rr[q].onRr && EmptyQueue(s1, q) then DelRr(s1, q) else s1;
    var s3 := Resort(cfg, s2, q, at);
    s3.(active := if s.active == Some(q) then None else s.active)
  }

  // ---------------------------------------------------------------- requests

  /** cfq_remove_request: a request leaves its queue, and the queue its priority tree if that was the last */
  function Take(cfg: Cfg, s: State, rq: int): (r: State)
    requires rq in s.reqs && s.reqs[rq].queue in s.io
    ensures r == s.(io := r.io, reqs := s.reqs - {rq}, queued := s.queued - 1, near := r.near) && r.io.Keys == s.io.Keys
    ensures r.near == Left(s, s.reqs[rq].queue, r.io)
  {
    var q := s.reqs[rq].queue;
    var io := s.io[q];
    var rest := s.io[q := Io(RbDel(io.sorted, rq), Remove(io.fifo, rq),
                             if io.next == Some(rq) then FindNext(cfg, s.reqs, io.sorted, rq) else io.next)];
    s.(io := rest, reqs := s.reqs - {rq}, queued := s.queued - 1, near := Left(s, q, rest))
  }

  /** The queues in priority trees after queue q lost a request. */
  function Left(s: State, q: int, io: map<int, Io>): set<int> {
    if q in s.rr && s.rr[q].onRr && q in io && io[q].sorted.Nil? then s.near - {q} else s.near
  }

  /** cfq_dispatch_insert */
  function Dispatch(cfg: Cfg, s: State, rq: int): (r: State)
    requires rq in s.reqs && s.reqs[rq].queue in s.io
    ensures r == s.(io := r.io, reqs := s.reqs - {rq}, queued := s.queued - 1, out := Cons(rq, s.out), near := r.near)
    ensures r.io.Keys == s.io.Keys && r.near == Left(s, s.reqs[rq].queue, r.io)
  {
    var q := s.reqs[rq].queue;
    var io := s.io[q];
    var t := s.(io := s.io[q := io.(next := FindNext(cfg, s.reqs, io.sorted, rq))]);
    Take(cfg, t, rq).(out := Cons(rq, s.out))
  }

  /** A request that is at a sector another one wants is dispatched. */
  function DropAlias(cfg: Cfg, s: State, rq: int): (r: State)
    requires rq in s.reqs && s.reqs[rq].queue in s.io
    ensures r.rr == s.rr && r.io.Keys == s.io.Keys
  {
    var alias := RbFind(s.io[s.reqs[rq].queue].sorted, s.reqs[rq].pos);
    if alias.Some? && alias.value in s.reqs && s.reqs[alias.value].queue in s.io then Dispatch(cfg, s, alias.value) else s
  }

  /** The new request may be the better one to serve next. */
  function BetterNext(cfg: Cfg, s: State, q: int, rq: int, last: nat, taken: bool): (r: State)
    requires q in s.io
    ensures r == s.(io := r.io, near := r.near) && r.near - {q} == s.near - {q}
    ensures r.io == s.io[q := s.io[q].(next := Choose(cfg, s.reqs, s.io[q].next, Some(rq), last))]
  {
    var next := Choose(cfg, s.reqs, s.io[q].next, Some(rq), last);
    var t := s.(io := s.io[q := s.io[q].(next := next)]);
    if next != s.io[q].next then PrioAdd(t, q, taken) else t
  }

  /** cfq_add_rq_rb, for a request that is in the fifo and not yet in the sorted list: one that is there at
      the same sector is dispatched, the queue gets its turn, and the better next request is found. */
  function AddSorted(cfg: Cfg, s: State, rq: int, at: Spot, last: nat, taken: bool): State
    requires rq in s.reqs && s.reqs[rq].queue in s.io && s.reqs[rq].queue in s.rr
  {
    var q := s.reqs[rq].queue;
    var s1 := DropAlias(cfg, s, rq);
    var s2 := s1.(io := s1.io[q := s1.io[q].(sorted := RbAdd(s1.io[q].sorted, Sec(s.reqs[rq].pos, rq)))]);
    var s3 := if s2.rr[q].onRr then s2 else AddRr(cfg, s2, q, at);
    BetterNext(cfg, s3, q, rq, last, taken)
  }

  /** cfq_insert_request */
  function Insert(cfg: Cfg, s: State, rq: int, r: Req, at: Spot, last: nat, taken: bool): State
    requires r.queue in s.io && r.queue in s.rr
  {
    var q := r.queue;
    AddSorted(cfg, s.(reqs := s.reqs[rq := r], queued := s.queued + 1,
                      io := s.io[q := s.io[q].(fifo := Append(s.io[q].fifo, Cons(rq, Nil)))]), rq, at, last, taken)
  }

  /** cfq_reposition_rq_rb, after a bio was put in front of rq */
  function Reposition(cfg: Cfg, s: State, rq: int, pos: nat, at: Spot, last: nat, taken: bool): State
    requires rq in s.reqs && s.reqs[rq].queue in s.io && s.reqs[rq].queue in s.rr
  {
    var q := s.reqs[rq].queue;
    AddSorted(cfg, s.(reqs := s.reqs[rq := s.reqs[rq].(pos := pos)],
                      io := s.io[q := s.io[q].(sorted := RbDel(s.io[q].sorted, rq))]), rq, at, last, taken)
  }

  /** cfq_merged_requests: next went into rq of the same queue; older says that it was the older one. */
  function Joined(cfg: Cfg, s: State, rq: int, next: int, older: bool): State
    requires rq in s.reqs && next in s.reqs && s.reqs[rq].queue in s.io && s.reqs[next].queue in s.io
  {
    var q := s.reqs[rq].queue;
    var io := s.io[q];
    var t := s.(io := s.io[q := io.(
      fifo := if older then InsertAfter(Remove(io.fifo, rq), next, rq) else io.fifo,
      next := if io.next == Some(next) then Some(rq) else io.next)]);
    Take(cfg, t, next)
  }

  // ---------------------------------------------------------------- draining

  /** The loop of __cfq_forced_dispatch_cfqq */
  function DispatchAll(cfg: Cfg, s: State, q: int): State
    decreases s.reqs.Keys
  {
    if q in s.io && s.io[q].next.Some? && s.io[q].next.value in s.reqs && s.reqs[s.io[q].next.value].queue in s.io then
      var rq := s.io[q].next.value;
      assert rq in s.reqs.Keys && rq !in Dispatch(cfg, s, rq).reqs.Keys;
      DispatchAll(cfg, Dispatch(cfg, s, rq), q)
    else s
  }

  /** The first service tree from slot i on that has a queue. */
  function FirstQueue(trees: map<Place, ServiceTree>, g: nat, i: nat): (map<Place, ServiceTree>, Option<int>)
    decreases SLOTS - i
  {
    if i >= SLOTS then (trees, None)
    else
      var (t, q) := TreeFirst(TreeOf(trees, Place(g, i)));
      if q.Some? then (trees[Place(g, i) := t], q) else FirstQueue(trees, g, i + 1)
  }

  /** cfq_get_next_queue_forced */
  function NextForced(s: State): (State, Option<int>) {
    if s.queued == 0 || s.groups.groups.Nil? then (s, None)
    else
      var (trees, q) := FirstQueue(s.trees, s.groups.groups.head.id, 0);
      (s.(groups := GF.GetNext(s.groups), trees := trees), q)
  }

  /** One turn of cfq_forced_dispatch's loop for the queue it got. */
  function ForceQueue(cfg: Cfg, s: State, q: int, slice: nat, at: Spot): State {
    var t := DispatchAll(cfg, s.(active := Some(q)), q);
    if q in t.rr then Expire(cfg, t, q, slice, at) else t
  }
}
