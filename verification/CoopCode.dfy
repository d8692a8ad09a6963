/**
 The two walks along new_cfqq and their callers, as cfq-iosched.c runs them.
 */
module CoopCode {
  import opened Lists
  import opened CoopModel
  import opened CoopProof

  class Cooperators {
    var ref: map<int, int>
    var io: map<int, nat>
    var link: map<int, int>
    var hold: map<int, int>
    ghost var lost: set<int>

    ghost function Abs(): State
      reads this
    {
      State(ref, io, link, hold, lost)
    }

    constructor ()
      ensures Good(Abs()) && Abs() == Start()
    {
      ref, io, link, hold, lost := map[], map[], map[], map[], {};
      new;
      StartGood();
    }

    /** BUG_ON(atomic_read(&cfqq->ref) <= 0) is the precondition; the last reference frees the queue. */
    method PutQueue(q: int)
      requires q in ref && ref[q] > 0
      modifies this`ref, this`io, this`link
      ensures Abs() == Put(old(Abs()), q)
    {
      ref := ref[q := ref[q] - 1];
      if ref[q] == 0 {
        ref := ref - {q};
        io := io - {q};
        link := link - {q};
      }
    }

    function ProcessRefsOf(q: int): int
      requires q in ref
      reads this
    {
      ref[q] - if q in io then io[q] else 0
    }

    /** The walk ends at a root, or is given up where it comes to q; every queue it looks at exists. */
    method SetupMerge(q: int, other: int)
      requires Good(Abs()) && Allowed(Abs(), Merge(q, other))
      modifies this`ref, this`link
      ensures Good(Abs()) && Abs() == Step(old(Abs()), Merge(q, other))
    {
      hide Good, Via;
      ghost var s := Abs();
      StepGood(s, Merge(q, other));
      GoodFacts(s, other);
      if ProcessRefsOf(other) == 0 {
        return;
      }
      ghost var l := Chain(link, other);
      OnPathIs(link, other, l, q);
      hide OnPath;
      var root := other;
      ghost var rest := l;
      while root in link
        invariant Abs() == s && Path(link, root, rest) && Last(rest) == Last(l) && root != q
        invariant forall x :: Member(rest, x) ==> Member(l, x)
        invariant Member(l, q) ==> Member(rest, q)
        decreases rest
      {
        var next := link[root];
        if next == q {
          assert Member(rest.tail, q);
          return;
        }
        rest := rest.tail;
        root := next;
        assert Member(l, root);
        ChainAlive(s, other, l, root);
      }
      assert Member(l, root);
      ChainAlive(s, other, l, root);
      var processRefs := ProcessRefsOf(q);
      var newProcessRefs := ProcessRefsOf(root);
      if processRefs == 0 || newProcessRefs == 0 {
        return;
      }
      if newProcessRefs >= processRefs {
        link := link[q := root];
        ref := ref[root := ref[root] + processRefs];
      } else {
        link := link[root := q];
        ref := ref[q := ref[q] + newProcessRefs];
      }
    }

    /** What the walk still has to pass. */
    ghost predicate Walking(q: int, cur: Option<int>, rest: List<int>)
      reads this
    {
      && Owing(Abs(), Append(rest, Cons(q, Nil))) && Distinct(Append(rest, Cons(q, Nil)))
      && (cur.None? <==> rest.Nil?)
      && (cur.Some? ==> Path(link, cur.value, rest))
    }

    /** Each queue behind q loses a reference; that the walk comes back to q, warned, does not happen. */
    method PutCooperator(q: int, ghost l: List<int>) returns (warned: bool)
      requires Path(link, q, l) && Owing(Abs(), l)
      modifies this`ref, this`io, this`link
      ensures !warned && Abs() == PutAll(old(Abs()), l.tail)
      ensures Owing(Abs(), Cons(q, Nil))
    {
      hide Owing;
      PathDistinct(link, q, l);
      AppendKeeps(l.tail, q);
      OwingSame(Abs(), l, Append(l.tail, Cons(q, Nil)));
      var cur := if q in link then Some(link[q]) else None;
      ghost var rest := l.tail;
      warned := false;
      while cur.Some?
        invariant !warned && Walking(q, cur, rest) && PutAll(Abs(), rest) == PutAll(old(Abs()), l.tail)
        invariant hold == old(hold) && lost == old(lost)
        decreases rest
      {
        AppendMember(rest, q, q);
        WalkStep(Abs(), rest, q);
        if cur.value == q {
          warned := true;
          break;
        }
        var next := if cur.value in link then Some(link[cur.value]) else None;
        ghost var was := link;
        PutQueue(cur.value);
        if next.Some? { PathWithout(was, cur.value, next.value, rest.tail); }
        cur := next;
        rest := rest.tail;
      }
    }

    /** cfq_exit_cfqq; split_cfqq ends the same way when others share the queue. */
    method ExitQueue(h: int) returns (warned: bool)
      requires Good(Abs()) && Allowed(Abs(), Exit(h))
      modifies this`ref, this`io, this`link, this`hold
      ensures !warned && Good(Abs()) && Abs() == Step(old(Abs()), Exit(h))
    {
      hide Good, Owing;
      ghost var s := Abs();
      StepGood(s, Exit(h));
      var q := hold[h];
      GoodFacts(s, q);
      ghost var l := Chain(link, q);
      DropOwing(s, h, l);
      hold := hold - {h};
      warned := PutCooperator(q, l);
      PutOwing(Abs(), q, Nil);
      WalkStep(Abs(), Nil, q);
      PutQueue(q);
    }

    /** split_cfqq: the last process keeps the queue. */
    method SplitQueue(h: int) returns (keeps: bool)
      requires Good(Abs()) && Allowed(Abs(), Exit(h))
      modifies this`ref, this`io, this`link, this`hold
      ensures Good(Abs()) && keeps == (ProcessRefs(old(Abs()), old(hold[h])) == 1)
      ensures Abs() == if keeps then old(Abs()) else Step(old(Abs()), Exit(h))
    {
      HeldAlive(Abs(), h);
      hide Good, Step;
      if ProcessRefsOf(hold[h]) == 1 {
        return true;
      }
      var warned := ExitQueue(h);
      return false;
    }

    /** cfq_merge_cfqqs */
    method MergeQueues(h: int)
      requires Good(Abs()) && Allowed(Abs(), Move(h))
      modifies this`ref, this`io, this`link, this`hold
      ensures Good(Abs()) && Abs() == Step(old(Abs()), Move(h))
    {
      HeldAlive(Abs(), h);
      RefPositive(Abs(), hold[h]);
      hide Good;
      StepGood(Abs(), Move(h));
      var q := hold[h];
      hold := hold[h := link[q]];
      PutQueue(q);
    }
  }

  lemma {:induction false} RefPositive(s: State, q: int)
    requires Good(s) && q in s.ref
    ensures s.ref[q] > 0
  {
  }

  /** The next queue of the walk has a reference to give, and is not the one the walk began at. */
  lemma {:induction false} WalkStep(s: State, rest: List<int>, q: int)
    requires Owing(s, Append(rest, Cons(q, Nil))) && Distinct(Append(rest, Cons(q, Nil)))
    ensures rest.Cons? ==> rest.head != q && rest.head in s.ref && s.ref[rest.head] > 0 && !Member(rest.tail, rest.head)
    ensures rest.Cons? ==> Owing(Put(s, rest.head), Append(rest.tail, Cons(q, Nil)))
    ensures rest.Nil? ==> q in s.ref && s.ref[q] > 0
  {
    if rest.Cons? {
      AppendMember(rest.tail, q, rest.head);
      PutOwing(s, rest.head, Append(rest.tail, Cons(q, Nil)));
    } else {
      PutOwing(s, q, Nil);
    }
  }

  /** Behind a queue the walk has left, nothing changes for it. */
  lemma {:induction false} PathWithout(link: map<int, int>, q: int, a: int, l: List<int>)
    requires Path(link, a, l) && !Member(l, q)
    ensures Path(link - {q}, a, l)
  {
    var m := PathCut(link, q, a, l);
  }
}
