/**
 CFQ queues in their groups' service trees: which queue is in which tree, the trees' counts and cached first
 nodes, the groups' counts of queues and the group service tree all agree in every run.
 */
module CfqTrees {
  import opened Lists
  import opened CfqModel
  import GF = GroupFairness

  // ---------------------------------------------------------------- one tree

  predicate HasNode(l: List<Node>, q: int) {
    l.Cons? && (l.head.q == q || HasNode(l.tail, q))
  }

  predicate DistinctNodes(l: List<Node>) {
    l.Cons? ==> !HasNode(l.tail, l.head.q) && DistinctNodes(l.tail)
  }

  /** The cache is empty or holds the first node, the count is right, no queue is in the tree twice. */
  predicate TreeFine(t: ServiceTree) {
    && t.count == Length(t.nodes) && DistinctNodes(t.nodes)
    && (t.left.Some? ==> t.nodes.Cons? && t.nodes.head.q == t.left.value)
  }

  lemma {:induction false} NodeDelIs(l: List<Node>, q: int)
    requires DistinctNodes(l)
    ensures DistinctNodes(NodeDel(l, q))
    ensures forall x :: HasNode(NodeDel(l, q), x) <==> HasNode(l, x) && x != q
    ensures Length(NodeDel(l, q)) == Length(l) - if HasNode(l, q) then 1 else 0
  {
    if l.Cons? && l.head.q != q { NodeDelIs(l.tail, q); }
    if l.Cons? && l.head.q == q { NoNode(l.tail, q); }
  }

  lemma {:induction false} NoNode(l: List<Node>, q: int)
    requires !HasNode(l, q)
    ensures forall x :: HasNode(l, x) ==> x != q
  {
  }

  lemma {:induction false} NodeAddIs(l: List<Node>, n: Node)
    requires DistinctNodes(l) && !HasNode(l, n.q)
    ensures DistinctNodes(NodeAdd(l, n))
    ensures forall x :: HasNode(NodeAdd(l, n), x) <==> HasNode(l, x) || x == n.q
    ensures Length(NodeAdd(l, n)) == Length(l) + 1
  {
    if l.Cons? && n.key >= l.head.key { NodeAddIs(l.tail, n); }
  }

  lemma {:induction false} TreeDelIs(t: ServiceTree, q: int)
    requires TreeFine(t) && HasNode(t.nodes, q)
    ensures TreeFine(TreeDel(t, q))
    ensures forall x :: HasNode(TreeDel(t, q).nodes, x) <==> HasNode(t.nodes, x) && x != q
  {
    NodeDelIs(t.nodes, q);
  }

  lemma {:induction false} TreeAddIs(t: ServiceTree, n: Node)
    requires TreeFine(t) && !HasNode(t.nodes, n.q)
    ensures TreeFine(TreeAdd(t, n))
    ensures forall x :: HasNode(TreeAdd(t, n).nodes, x) <==> HasNode(t.nodes, x) || x == n.q
  {
    NodeAddIs(t.nodes, n);
  }

  /** cfq_rb_first finds a queue of the tree exactly when there is one. */
  lemma {:induction false} TreeFirstIs(t: ServiceTree)
    requires TreeFine(t)
    ensures var (u, q) := TreeFirst(t);
      && TreeFine(u) && u.nodes == t.nodes && u.count == t.count
      && (q.Some? <==> t.nodes.Cons?) && (q.Some? ==> HasNode(t.nodes, q.value))
  {
  }

  // ---------------------------------------------------------------- all trees

  /** The tree at p holds the queues whose node is there. */
  ghost predicate TreeOk(rr: map<int, Rr>, trees: map<Place, ServiceTree>, p: Place) {
    && TreeFine(TreeOf(trees, p))
    && forall q :: HasNode(TreeOf(trees, p).nodes, q) <==> q in rr && rr[q].node == Some(p)
  }

  ghost predicate TreesOk(rr: map<int, Rr>, trees: map<Place, ServiceTree>) {
    forall p :: TreeOk(rr, trees, p)
  }

  lemma {:induction false} UnplaceKeeps(s: State, q: int)
    requires TreesOk(s.rr, s.trees) && q in s.rr
    ensures TreesOk(Unplace(s, q).rr, Unplace(s, q).trees)
    ensures Unplace(s, q).rr == s.rr[q := s.rr[q].(node := None)]
  {
    var t := Unplace(s, q);
    if s.rr[q].node.Some? {
      var p := s.rr[q].node.value;
      assert TreeOk(s.rr, s.trees, p);
      TreeDelIs(TreeOf(s.trees, p), q);
      forall x ensures TreeOk(t.rr, t.trees, x) { assert TreeOk(s.rr, s.trees, x); }
    } else {
      assert s.rr[q := s.rr[q].(node := None)] == s.rr;
    }
  }

  lemma {:induction false} PutIntoKeeps(s: State, q: int, r: Rr, key: int)
    requires TreesOk(s.rr, s.trees) && (q in s.rr ==> s.rr[q].node.None?)
    ensures TreesOk(PutInto(s, q, r, key).rr, PutInto(s, q, r, key).trees)
  {
    var t := PutInto(s, q, r, key);
    var p := PlaceOf(r);
    assert TreeOk(s.rr, s.trees, p);
    TreeAddIs(TreeOf(s.trees, p), Node(key, q));
    forall x ensures TreeOk(t.rr, t.trees, x) { assert TreeOk(s.rr, s.trees, x); }
  }

  /** Nothing but nodes matters to the trees. */
  lemma {:induction false} SameNodes(rr: map<int, Rr>, new_: map<int, Rr>, trees: map<Place, ServiceTree>)
    requires TreesOk(rr, trees)
    requires forall q, p :: (q in new_ && new_[q].node == Some(p)) <==> (q in rr && rr[q].node == Some(p))
    ensures TreesOk(new_, trees)
  {
    forall p ensures TreeOk(new_, trees, p) { assert TreeOk(rr, trees, p); }
  }

  // ---------------------------------------------------------------- counts of groups

  /** The sum of the counts of a group's first n trees. */
  function Sum(trees: map<Place, ServiceTree>, g: nat, n: nat): int {
    if n == 0 then 0 else Sum(trees, g, n - 1) + TreeOf(trees, Place(g, n - 1)).count
  }

  lemma {:induction false} SumChanges(trees: map<Place, ServiceTree>, p: Place, t: ServiceTree, g: nat, n: nat)
    ensures Sum(trees[p := t], g, n)
         == Sum(trees, g, n) + if p.group == g && p.slot < n then t.count - TreeOf(trees, p).count else 0
  {
    if n > 0 { SumChanges(trees, p, t, g, n - 1); }
  }

  lemma {:induction false} SumPositive(rr: map<int, Rr>, trees: map<Place, ServiceTree>, g: nat, n: nat)
    requires TreesOk(rr, trees)
    ensures Sum(trees, g, n) >= 0
    ensures forall i :: 0 <= i < n ==> Sum(trees, g, n) >= TreeOf(trees, Place(g, i)).count
    ensures Sum(trees, g, n) > 0 ==> exists i :: 0 <= i < n && TreeOf(trees, Place(g, i)).nodes.Cons?
  {
    if n > 0 {
      SumPositive(rr, trees, g, n - 1);
      assert TreeOk(rr, trees, Place(g, n - 1));
    }
  }

  /** How far a group's nr_cfqq is from the sum of its trees' counts. */
  function Debt(trees: map<Place, ServiceTree>, nr: map<nat, int>, g: nat): int {
    NrOf(nr, g) - Sum(trees, g, SLOTS)
  }

  /** Every group's nr_cfqq is the sum of its trees' counts, but for g, which is d off. */
  ghost predicate Owes(trees: map<Place, ServiceTree>, nr: map<nat, int>, g: nat, d: int) {
    forall x: nat :: Debt(trees, nr, x) == (if x == g then d else 0)
  }

  lemma {:induction false} OwesChanges(trees: map<Place, ServiceTree>, nr: map<nat, int>, g: nat, d: int, p: Place,
      t: ServiceTree)
    requires Owes(trees, nr, g, d) && p.slot < SLOTS && (p.group == g || d == 0)
    ensures Owes(trees[p := t], nr, p.group, d + TreeOf(trees, p).count - t.count)
  {
    var new_ := trees[p := t];
    forall x: nat ensures Debt(new_, nr, x) == (if x == p.group then d + TreeOf(trees, p).count - t.count else 0) {
      SumChanges(trees, p, t, x, SLOTS);
      assert Debt(trees, nr, x) == if x == g then d else 0;
    }
  }

  /** A group is in the group service tree exactly while it has queues there. */
  ghost predicate GroupsOk(nr: map<nat, int>, groups: GF.Tree) {
    && GF.Unique(groups.groups) && GF.Weighty(groups.groups, 1)
    && (forall g: nat :: GF.Has(groups.groups, g) <==> NrOf(nr, g) > 0)
  }

  lemma {:induction false} EraseHas(l: List<GF.Group>, g: nat)
    requires GF.Unique(l)
    ensures GF.Unique(GF.Erase(l, g)) && forall x :: GF.Has(GF.Erase(l, g), x) <==> GF.Has(l, x) && x != g
  {
    if l.Cons? {
      if l.head.id == g {
        forall x | GF.Has(l.tail, x) ensures x != g { }
      } else {
        EraseHas(l.tail, g);
      }
    }
  }

  lemma {:induction false} GroupAddKeeps(cfg: Cfg, s: State, g: nat)
    requires GroupsOk(s.nr, s.groups) && NrOf(s.nr, g) >= 0 && cfg.weight(g) > 0
    ensures GroupsOk(GroupAdd(cfg, s, g).nr, GroupAdd(cfg, s, g).groups)
    ensures forall x: nat :: NrOf(GroupAdd(cfg, s, g).nr, x) == NrOf(s.nr, x) + if x == g then 1 else 0
  {
    if !GF.Has(s.groups.groups, g) {
      var time := GF.EntryTime(s.groups, cfg.idleDelay);
      GF.InsertHas(s.groups.groups, GF.Group(g, cfg.weight(g), time));
      GF.InsertKeeps(s.groups.groups, GF.Group(g, cfg.weight(g), time), 0, 0, 1);
    }
  }

  lemma {:induction false} GroupDelKeeps(s: State, g: nat)
    requires GroupsOk(s.nr, s.groups) && NrOf(s.nr, g) >= 1
    ensures GroupsOk(GroupDel(s, g).nr, GroupDel(s, g).groups)
    ensures forall x: nat :: NrOf(GroupDel(s, g).nr, x) == NrOf(s.nr, x) - if x == g then 1 else 0
  {
    if NrOf(s.nr, g) == 1 {
      EraseHas(s.groups.groups, g);
      GF.EraseKeeps(s.groups.groups, g, 0, 0, 1);
    }
  }

  lemma {:induction false} ServedKeeps(s: State, g: nat, slice: nat)
    requires GroupsOk(s.nr, s.groups)
    ensures GroupsOk(s.nr, Served(s, g, slice).groups)
  {
    var l := s.groups.groups;
    if GF.Has(l, g) && GF.Find(l, g).weight > 0 {
      var x := GF.Find(l, g);
      FindIs(l, g);
      EraseHas(l, g);
      GF.EraseKeeps(l, g, 0, 0, 1);
      var y := x.(vdisktime := x.vdisktime + GF.Scale(slice, x.weight));
      GF.InsertHas(GF.Erase(l, g), y);
      GF.InsertKeeps(GF.Erase(l, g), y, 0, 0, 1);
    }
  }

  lemma {:induction false} FindIs(l: List<GF.Group>, g: nat)
    requires GF.Has(l, g)
    ensures GF.Find(l, g).id == g
  {
    if l.head.id != g { FindIs(l.tail, g); }
  }

  // ---------------------------------------------------------------- queues come and go

  /** A queue's node is in a tree of the group it belongs to. */
  predicate Homed(r: Rr) {
    && (r.node.Some? ==> r.node.value.group == r.group && r.node.value.slot < SLOTS)
    && (r.orig.Some? ==> r.group == ROOT)
  }

  /** All that concerns trees and groups, when every group is right but g, which is d off. */
  ghost predicate Forest(s: State, g: nat, d: int) {
    && TreesOk(s.rr, s.trees) && Owes(s.trees, s.nr, g, d) && GroupsOk(s.nr, s.groups)
    && (forall q :: q in s.rr ==> Homed(s.rr[q]))
  }

  /** A queue that is in a tree is counted, so BUG_ON(cfqg->nr_cfqq < 1) does not fire. */
  lemma {:induction false} Counted(s: State, q: int, g: nat)
    requires Forest(s, g, 0) && q in s.rr && s.rr[q].node.Some?
    ensures NrOf(s.nr, s.rr[q].group) >= 1
  {
    var p := s.rr[q].node.value;
    assert TreeOk(s.rr, s.trees, p);
    SumPositive(s.rr, s.trees, p.group, SLOTS);
    assert p == Place(p.group, p.slot);
    assert Homed(s.rr[q]);
    assert TreeOf(s.trees, Place(p.group, p.slot)).count >= 1;
    assert Debt(s.trees, s.nr, p.group) == 0;
  }

  lemma {:induction false} UnplaceForest(s: State, q: int, d: int)
    requires q in s.rr && Forest(s, s.rr[q].group, d) && s.rr[q].node.Some?
    ensures Forest(Unplace(s, q), s.rr[q].group, d + 1)
  {
    var t := Unplace(s, q);
    var p := s.rr[q].node.value;
    UnplaceKeeps(s, q);
    assert Homed(s.rr[q]);
    OwesChanges(s.trees, s.nr, s.rr[q].group, d, p, TreeDel(TreeOf(s.trees, p), q));
    forall x | x in t.rr ensures Homed(t.rr[x]) { assert Homed(s.rr[x]); }
  }

  lemma {:induction false} PutIntoForest(s: State, q: int, r: Rr, key: int, d: int)
    requires q in s.rr && s.rr[q].node.None? && Forest(s, r.group, d) && (r.orig.Some? ==> r.group == ROOT)
    ensures Forest(PutInto(s, q, r, key), r.group, d - 1)
  {
    var t := PutInto(s, q, r, key);
    var p := PlaceOf(r);
    PutIntoKeeps(s, q, r, key);
    OwesChanges(s.trees, s.nr, r.group, d, p, TreeAdd(TreeOf(s.trees, p), Node(key, q)));
    forall x | x in t.rr ensures Homed(t.rr[x]) { assert Homed(s.rr[x]) || x == q; }
  }

  lemma {:induction false} GroupAddForest(cfg: Cfg, s: State, g: nat, d: int)
    requires Forest(s, g, d) && NrOf(s.nr, g) >= 0 && cfg.weight(g) > 0
    ensures Forest(GroupAdd(cfg, s, g), g, d + 1)
  {
    hide TreesOk, GroupsOk, Homed, Sum;
    GroupAddKeeps(cfg, s, g);
    var t := GroupAdd(cfg, s, g);
    hide GroupAdd;
    forall x: nat ensures Debt(t.trees, t.nr, x) == (if x == g then d + 1 else 0) {
      assert Debt(s.trees, s.nr, x) == if x == g then d else 0;
    }
  }

  lemma {:induction false} GroupDelForest(s: State, g: nat, d: int)
    requires Forest(s, g, d) && NrOf(s.nr, g) >= 1
    ensures Forest(GroupDel(s, g), g, d - 1)
  {
    hide TreesOk, GroupsOk, Homed, Sum;
    GroupDelKeeps(s, g);
    var t := GroupDel(s, g);
    hide GroupDel;
    forall x: nat ensures Debt(t.trees, t.nr, x) == (if x == g then d - 1 else 0) {
      assert Debt(s.trees, s.nr, x) == if x == g then d else 0;
    }
  }

  /** Nobody has fewer queues than none. */
  lemma {:induction false} NotNegative(s: State, g: nat)
    requires Forest(s, g, 0)
    ensures NrOf(s.nr, g) >= 0
  {
    SumPositive(s.rr, s.trees, g, SLOTS);
    assert Debt(s.trees, s.nr, g) == 0;
  }

  ghost predicate Positive(cfg: Cfg) {
    forall g: nat :: cfg.weight(g) > 0
  }

  /** A queue that comes into a tree for the first time, or into the tree of another group. */
  lemma {:induction false} ArriveForest(cfg: Cfg, s: State, q: int, n: Rr, key: int)
    requires Positive(cfg) && q in s.rr && s.rr[q].node.None? && Forest(s, n.group, 0) && (n.orig.Some? ==> n.group == ROOT)
    ensures Forest(GroupAdd(cfg, PutInto(s, q, n, key), n.group), n.group, 0)
  {
    hide Forest, PutInto, GroupAdd;
    NotNegative(s, n.group);
    PutIntoForest(s, q, n, key, 0);
    PutIntoNr(s, q, n, key);
    GroupAddForest(cfg, PutInto(s, q, n, key), n.group, -1);
  }

  lemma {:induction false} PutIntoNr(s: State, q: int, n: Rr, key: int)
    ensures PutInto(s, q, n, key).nr == s.nr
  {
  }

  lemma {:induction false} ForestAt(s: State, g: nat, h: nat)
    requires Forest(s, g, 0)
    ensures Forest(s, h, 0)
  {
  }

  /** cfq_service_tree_add keeps trees and groups right, wherever the queue moves. */
  lemma {:induction false} ServiceAddForest(cfg: Cfg, s: State, q: int, key: int)
    requires Positive(cfg) && q in s.rr && Forest(s, 0, 0)
    ensures Forest(ServiceAdd(cfg, s, q, key), 0, 0)
    ensures ServiceAdd(cfg, s, q, key).rr[q].node.Some? && ServiceAdd(cfg, s, q, key).rr[q].onRr == s.rr[q].onRr
    ensures forall x :: x in s.rr && x != q ==> ServiceAdd(cfg, s, q, key).rr[x] == s.rr[x]
  {
    hide Forest, GroupAdd, GroupDel;
    var r := s.rr[q];
    var n := NewGroup(cfg, r);
    var t := ServiceAdd(cfg, s, q, key);
    HomedIn(s, q);
    assert n.orig.Some? ==> n.group == ROOT;
    if n == r && r.node == Some(PlaceOf(n)) && key == r.key {
    } else if r.node.None? {
      assert Unplace(s, q) == s;
      ForestAt(s, 0, n.group);
      ArriveForest(cfg, s, q, n, key);
      ForestAt(t, n.group, 0);
    } else if n == r {
      StayForest(s, q, key);
      ForestAt(t, r.group, 0);
    } else {
      MoveForest(cfg, s, q, n, key);
    }
  }

  lemma {:induction false} HomedIn(s: State, q: int)
    requires Forest(s, 0, 0) && q in s.rr
    ensures Homed(s.rr[q])
  {
  }

  lemma {:induction false} StayForest(s: State, q: int, key: int)
    requires q in s.rr && s.rr[q].node.Some? && Forest(s, 0, 0)
    ensures Forest(PutInto(Unplace(s, q), q, s.rr[q], key), s.rr[q].group, 0)
  {
    assert Homed(s.rr[q]);
    UnplaceKeeps(s, q);
    hide Forest;
    ForestAt(s, 0, s.rr[q].group);
    UnplaceForest(s, q, 0);
    PutIntoForest(Unplace(s, q), q, s.rr[q], key, 1);
  }

  lemma {:induction false} MoveForest(cfg: Cfg, s: State, q: int, n: Rr, key: int)
    requires Positive(cfg) && q in s.rr && s.rr[q].node.Some? && Forest(s, 0, 0) && (n.orig.Some? ==> n.group == ROOT)
    ensures Forest(GroupAdd(cfg, PutInto(Unplace(GroupDel(s, s.rr[q].group), q), q, n, key), n.group), 0, 0)
  {
    var g := s.rr[q].group;
    var s1 := GroupDel(s, g);
    hide Forest, GroupDel;
    ForestAt(s, 0, g);
    Counted(s, q, g);
    GroupDelForest(s, g, 0);
    UnplaceForest(s1, q, -1);
    var s2 := Unplace(s1, q);
    ForestAt(s2, g, n.group);
    ArriveForest(cfg, s2, q, n, key);
    ForestAt(GroupAdd(cfg, PutInto(s2, q, n, key), n.group), n.group, 0);
  }

  /** cfq_del_cfqq_rr */
  lemma {:induction false} DelRrForest(s: State, q: int)
    requires q in s.rr && s.rr[q].node.Some? && Forest(s, 0, 0)
    ensures Forest(DelRr(s, q), 0, 0)
    ensures DelRr(s, q).rr == s.rr[q := s.rr[q].(onRr := false, node := None)]
  {
    var g := s.rr[q].group;
    var s1 := s.(rr := s.rr[q := s.rr[q].(onRr := false)]);
    SameNodes(s.rr, s1.rr, s.trees);
    forall x | x in s1.rr ensures Homed(s1.rr[x]) { assert Homed(s.rr[x]); }
    assert Forest(s1, 0, 0);
    UnplaceKeeps(s1, q);
    hide Forest;
    ForestAt(s1, 0, g);
    Counted(s1, q, g);
    UnplaceForest(s1, q, 0);
    var s2 := Unplace(s1, q);
    assert s2.nr == s.nr;
    GroupDelForest(s2, g, 1);
    ForestAt(GroupDel(s2, g), g, 0);
    ForestBusy(GroupDel(s2, g), s.busy - 1);
  }

  lemma {:induction false} ForestBusy(s: State, busy: int)
    requires Forest(s, 0, 0)
    ensures Forest(s.(busy := busy), 0, 0)
  {
  }
}
