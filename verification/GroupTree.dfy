/**
 The group service tree as the object CFQ updates in place: a search tree with a cached leftmost node.
 The tree's balance is left to the library; its in-order sequence is the list of GroupFairness.
 */
module GroupTree {
  import opened Lists
  import opened GroupFairness

  datatype Bst = Leaf | Node(l: Bst, g: Group, r: Bst)

  function InOrder(t: Bst): List<Group> {
    match t
    case Leaf => Nil
    case Node(l, g, r) => Append(InOrder(l), Cons(g, InOrder(r)))
  }

  /** rb_link_node at the place the walk of __cfq_group_service_tree_add ends. */
  function Link(t: Bst, g: Group): Bst {
    match t
    case Leaf => Node(Leaf, g, Leaf)
    case Node(l, h, r) => if g.vdisktime < h.vdisktime then Node(Link(l, g), h, r) else Node(l, h, Link(r, g))
  }

  function Join(l: Bst, r: Bst): Bst {
    match l
    case Leaf => r
    case Node(a, g, b) => Node(a, g, Join(b, r))
  }

  /** rb_erase of the node of a group */
  function Unlink(t: Bst, id: nat): Bst {
    match t
    case Leaf => Leaf
    case Node(l, g, r) =>
      if Has(InOrder(l), id) then Node(Unlink(l, id), g, r)
      else if g.id == id then Join(l, r)
      else Node(l, g, Unlink(r, id))
  }

  function First(t: Bst): Option<Group> {
    match t
    case Leaf => None
    case Node(l, g, _) => if l.Leaf? then Some(g) else First(l)
  }

  function LastOf(l: List<Group>): Option<Group> {
    if l.Nil? then None else Some(Last(l))
  }

  // ---------------------------------------------------------------- the tree and its sequence

  lemma {:induction false} SortedParts(a: List<Group>, g: Group, b: List<Group>)
    requires Sorted(Append(a, Cons(g, b)))
    ensures Sorted(a) && Sorted(b) && NotAfter(a, g.vdisktime) && NotBefore(b, g.vdisktime)
  {
    if a.Cons? {
      SortedParts(a.tail, g, b);
      AppendBounds(a.tail, Cons(g, b), a.head.vdisktime);
    }
  }

  lemma {:induction false} AppendBounds(a: List<Group>, b: List<Group>, n: nat)
    ensures NotBefore(Append(a, b), n) <==> NotBefore(a, n) && NotBefore(b, n)
  {
    if a.Cons? { AppendBounds(a.tail, b, n); }
  }

  lemma {:induction false} InsertLeft(a: List<Group>, g: Group, b: List<Group>, x: Group)
    requires x.vdisktime < g.vdisktime
    ensures Insert(Append(a, Cons(g, b)), x) == Append(Insert(a, x), Cons(g, b))
  {
    if a.Cons? { InsertLeft(a.tail, g, b, x); }
  }

  lemma {:induction false} InsertRight(a: List<Group>, g: Group, b: List<Group>, x: Group)
    requires NotAfter(a, g.vdisktime) && g.vdisktime <= x.vdisktime
    ensures Insert(Append(a, Cons(g, b)), x) == Append(a, Cons(g, Insert(b, x)))
  {
    if a.Cons? { InsertRight(a.tail, g, b, x); }
  }

  lemma {:induction false} LinkIsInsert(t: Bst, x: Group)
    requires Sorted(InOrder(t))
    ensures InOrder(Link(t, x)) == Insert(InOrder(t), x)
  {
    if t.Node? {
      SortedParts(InOrder(t.l), t.g, InOrder(t.r));
      if x.vdisktime < t.g.vdisktime {
        LinkIsInsert(t.l, x);
        InsertLeft(InOrder(t.l), t.g, InOrder(t.r), x);
      } else {
        LinkIsInsert(t.r, x);
        InsertRight(InOrder(t.l), t.g, InOrder(t.r), x);
      }
    }
  }

  lemma {:induction false} EraseAppend(a: List<Group>, b: List<Group>, id: nat)
    ensures Has(a, id) ==> Erase(Append(a, b), id) == Append(Erase(a, id), b)
    ensures !Has(a, id) ==> Erase(Append(a, b), id) == Append(a, Erase(b, id))
  {
    if a.Cons? { EraseAppend(a.tail, b, id); }
  }

  lemma {:induction false} JoinIsAppend(l: Bst, r: Bst)
    ensures InOrder(Join(l, r)) == Append(InOrder(l), InOrder(r))
  {
    if l.Node? {
      JoinIsAppend(l.r, r);
      AppendAssoc(InOrder(l.l), Cons(l.g, InOrder(l.r)), InOrder(r));
    }
  }

  lemma {:induction false} UnlinkIsErase(t: Bst, id: nat)
    ensures InOrder(Unlink(t, id)) == Erase(InOrder(t), id)
  {
    if t.Node? {
      EraseAppend(InOrder(t.l), Cons(t.g, InOrder(t.r)), id);
      if Has(InOrder(t.l), id) {
        UnlinkIsErase(t.l, id);
      } else if t.g.id == id {
        JoinIsAppend(t.l, t.r);
      } else {
        UnlinkIsErase(t.r, id);
      }
    }
  }

  lemma {:induction false} FirstIsHead(t: Bst)
    ensures First(t) == if InOrder(t).Nil? then None else Some(InOrder(t).head)
  {
    if t.Node? { FirstIsHead(t.l); }
  }

  class ServiceTree {
    var root: Bst
    var left: Option<nat>
    var minVdisktime: nat

    ghost function Abs(): Tree
      reads this
    {
      Tree(InOrder(root), left, minVdisktime)
    }

    constructor ()
      ensures Abs() == Tree(Nil, None, 0) && GroupFairness.Valid(Abs())
    {
      root, left, minVdisktime := Leaf, None, 0;
    }

    /** cfq_rb_first_group */
    method FirstGroup() returns (g: Option<nat>)
      requires GroupFairness.Valid(Abs())
      modifies this`left
      ensures GroupFairness.Valid(Abs())
      ensures Abs() == old(Abs()).(left := g)
      ensures g == if InOrder(root).Nil? then None else Some(InOrder(root).head.id)
    {
      FirstIsHead(root);
      if left.None? {
        var first := First(root);
        if first.Some? { left := Some(first.value.id); }
      }
      g := left;
    }

    /** The walk of __cfq_group_service_tree_add: whether it only went left. */
    method WalkDown(g: Group) returns (leftmost: bool)
      requires Sorted(InOrder(root))
      ensures leftmost <==> InOrder(root).Nil? || g.vdisktime < InOrder(root).head.vdisktime
    {
      leftmost := true;
      var node := root;
      while node.Node?
        invariant leftmost ==> Sorted(InOrder(node))
        invariant leftmost ==> (Before(g, InOrder(root)) <==> Before(g, InOrder(node)))
        invariant !leftmost ==> !Before(g, InOrder(root))
        decreases node
      {
        if leftmost {
          SortedParts(InOrder(node.l), node.g, InOrder(node.r));
          HeadBefore(InOrder(node.l), node.g, InOrder(node.r), g);
        }
        if g.vdisktime < node.g.vdisktime {
          node := node.l;
        } else {
          node := node.r;
          leftmost := false;
        }
      }
    }

    /** __cfq_group_service_tree_add */
    method AddGroup(g: Group)
      requires Sorted(InOrder(root))
      modifies this`root, this`left
      ensures Abs() == AddNode(old(Abs()), g)
    {
      var leftmost := WalkDown(g);
      if leftmost { left := Some(g.id); }
      LinkIsInsert(root, g);
      root := Link(root, g);
    }

    /** rb_last */
    method LastGroup() returns (g: Option<Group>)
      ensures g == LastOf(InOrder(root))
    {
      g := None;
      var node := root;
      while node.Node?
        invariant LastOf(InOrder(root)) == if node.Leaf? then g else LastOf(InOrder(node))
        decreases node
      {
        AppendLast(InOrder(node.l), Cons(node.g, InOrder(node.r)));
        g := Some(node.g);
        node := node.r;
      }
    }

    /** cfq_group_service_tree_add for a group that may be on the tree already; onSt says so. */
    method EnterGroup(id: nat, weight: nat, delay: nat, onSt: bool)
      requires GroupFairness.Valid(Abs()) && onSt == Has(InOrder(root), id)
      modifies this`root, this`left
      ensures Abs() == EnterNode(old(Abs()), id, weight, delay)
    {
      if onSt { return; }
      var last := LastGroup();
      AddGroup(Group(id, weight, if last.Some? then last.value.vdisktime + delay else minVdisktime));
    }

    /** cfq_rb_erase */
    method EraseGroup(id: nat)
      modifies this`root, this`left
      ensures Abs() == EraseNode(old(Abs()), id)
    {
      if left == Some(id) { left := None; }
      UnlinkIsErase(root, id);
      root := Unlink(root, id);
    }

    /** cfq_get_next_cfqg with update_min_vdisktime */
    method GetNextGroup() returns (g: Option<nat>)
      requires GroupFairness.Valid(Abs())
      modifies this`left, this`minVdisktime
      ensures GroupFairness.Valid(Abs()) && Abs() == GetNext(old(Abs()))
      ensures g == if InOrder(root).Nil? then None else Some(InOrder(root).head.id)
    {
      FirstIsHead(root);
      g := FirstGroup();
      var first := First(root);
      if first.Some? {
        minVdisktime := Larger(minVdisktime, first.value.vdisktime);
      }
    }

    /** cfq_group_served for the group that was picked */
    method GroupServed(slice: nat)
      requires GroupFairness.Valid(Abs()) && Weighty(InOrder(root), 1)
      modifies this`root, this`left
      ensures Abs() == Charge(old(Abs()), slice)
    {
      hide GroupFairness.Valid;
      ghost var t := Abs();
      FirstIsHead(root);
      var first := First(root);
      if first.None? { return; }
      var g := first.value;
      EraseSortedToo(t, g.id);
      EraseGroup(g.id);
      AddGroup(g.(vdisktime := g.vdisktime + Scale(slice, g.weight)));
    }
  }

  lemma {:induction false} EraseSortedToo(t: Tree, id: nat)
    requires GroupFairness.Valid(t)
    ensures Sorted(EraseNode(t, id).groups)
  {
    EraseSorted(t.groups, id);
  }

  /** g comes before everything in a sorted list. */
  predicate Before(g: Group, l: List<Group>) {
    l.Nil? || g.vdisktime < l.head.vdisktime
  }

  lemma {:induction false} HeadBefore(a: List<Group>, h: Group, b: List<Group>, g: Group)
    requires NotAfter(a, h.vdisktime)
    ensures var l := Append(a, Cons(h, b));
            && (g.vdisktime < h.vdisktime ==> (Before(g, l) <==> Before(g, a)))
            && (g.vdisktime >= h.vdisktime ==> !Before(g, l))
  {
  }
}
