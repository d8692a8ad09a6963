/**
 The links between cooperating queues never make a loop, and whoever follows them finds only queues that
 exist.
 */
module CoopProof {
  import opened Lists
  import opened CoopModel

  // ---------------------------------------------------------------- chains

  lemma {:induction false} PathUnique(link: map<int, int>, a: int, l: List<int>, m: List<int>)
    requires Path(link, a, l) && Path(link, a, m)
    ensures l == m
    decreases l
  {
    if a in link { PathUnique(link, link[a], l.tail, m.tail); }
  }

  /** The chain from a queue on a chain is a part of it. */
  lemma {:induction false} SubPath(link: map<int, int>, a: int, l: List<int>, b: int) returns (m: List<int>)
    requires Path(link, a, l) && Member(l, b)
    ensures Path(link, b, m) && Length(m) <= Length(l) && (forall x :: Member(m, x) ==> Member(l, x))
    decreases l
  {
    if a == b {
      m := l;
    } else {
      m := SubPath(link, link[a], l.tail, b);
    }
  }

  /** No chain comes back to a queue it has passed. */
  lemma {:induction false} PathDistinct(link: map<int, int>, a: int, l: List<int>)
    requires Path(link, a, l)
    ensures Distinct(l)
    decreases l
  {
    if a in link {
      PathDistinct(link, link[a], l.tail);
      if Member(l.tail, a) {
        var m := SubPath(link, link[a], l.tail, a);
        PathUnique(link, a, l, m);
      }
    }
  }

  lemma {:induction false} RootIsLast(link: map<int, int>, a: int, l: List<int>)
    requires Path(link, a, l)
    ensures Last(l) !in link && Member(l, Last(l))
    ensures forall r :: Member(l, r) && r !in link ==> Last(l) == r
    decreases l
  {
    if a in link { RootIsLast(link, link[a], l.tail); }
  }

  /** Linking one root to another makes the chains that ended there longer by one. */
  lemma {:induction false} PathLinked(link: map<int, int>, r: int, t: int, a: int, l: List<int>)
    requires r !in link && t !in link && r != t && Path(link, a, l)
    ensures Path(link[r := t], a, if Last(l) == r then Append(l, Cons(t, Nil)) else l)
    decreases l
  {
    if a in link {
      PathLinked(link, r, t, link[a], l.tail);
    } else if a == r {
      assert Path(link[r := t], t, Cons(t, Nil));
    }
  }

  /** A queue that goes away cuts the chains through it short. */
  lemma {:induction false} PathCut(link: map<int, int>, q: int, a: int, l: List<int>) returns (m: List<int>)
    requires Path(link, a, l)
    ensures Path(link - {q}, a, m) && (!Member(l, q) ==> m == l)
    decreases l
  {
    if a in link && a != q {
      var r := PathCut(link, q, link[a], l.tail);
      m := Cons(a, r);
    } else {
      m := Cons(a, Nil);
    }
  }

  lemma {:induction false} OnPathIs(link: map<int, int>, a: int, l: List<int>, q: int)
    requires Path(link, a, l)
    ensures OnPath(link, a, q) <==> Member(l, q)
  {
    if OnPath(link, a, q) {
      var m :| Path(link, a, m) && Member(m, q);
      PathUnique(link, a, l, m);
    }
  }

  // ---------------------------------------------------------------- references

  /** A queue with process references, and everything its chain passes, exists. */
  lemma {:induction false} ChainAlive(s: State, q: int, l: List<int>, x: int)
    requires Good(s) && ProcessRefs(s, q) > 0 && Path(s.link, q, l) && Member(l, x)
    ensures x in s.ref && ProcessRefs(s, x) > 0
  {
    assert Spare(s, q) == 0;
    var h := Pick(Via(s.link, s.hold, q));
    var m :| Path(s.link, s.hold[h], m) && Member(m, q);
    var k := SubPath(s.link, s.hold[h], m, q);
    PathUnique(s.link, q, l, k);
    HolderAlive(s, h, m, x);
  }

  lemma {:induction false} HeldAlive(s: State, h: int)
    requires Good(s) && h in s.hold
    ensures s.hold[h] in s.ref
  {
    assert HasPath(s.link, s.hold[h]);
    HolderAlive(s, h, Chain(s.link, s.hold[h]), s.hold[h]);
  }

  lemma {:induction false} HolderAlive(s: State, h: int, l: List<int>, x: int)
    requires Good(s) && h in s.hold && Path(s.link, s.hold[h], l) && Member(l, x)
    ensures x in s.ref && ProcessRefs(s, x) > 0
  {
    assert OnPath(s.link, s.hold[h], x);
    assert h in Via(s.link, s.hold, x);
    assert Spare(s, x) == 0;
  }

  /** Without a link that no holder's chain uses, the holders are where they were. */
  lemma {:induction false} CutVia(link: map<int, int>, hold: map<int, int>, q: int, x: int)
    requires (forall a :: HasPath(link, a)) && Via(link, hold, q) == {}
    ensures Via(link - {q}, hold, x) == Via(link, hold, x)
  {
    forall h | h in hold ensures OnPath(link - {q}, hold[h], x) <==> OnPath(link, hold[h], x) {
      var l := Chain(link, hold[h]);
      OnPathIs(link, hold[h], l, q);
      assert h !in Via(link, hold, q);
      var m := PathCut(link, q, hold[h], l);
      OnPathIs(link, hold[h], l, x);
      OnPathIs(link - {q}, hold[h], m, x);
    }
  }

  /** cfq_put_queue on a queue that has a reference to spare. */
  lemma {:induction false} PutOwing(s: State, q: int, l: List<int>)
    requires Owing(s, Cons(q, l)) && !Member(l, q)
    ensures q in s.ref && Owing(Put(s, q), l)
  {
    var t := Put(s, q);
    assert Spare(s, q) == 1;
    if RefOf(s, q) > 1 {
      forall x ensures Spare(t, x) == if Member(l, x) then 1 else 0 {
        assert Spare(s, x) == if Member(Cons(q, l), x) then 1 else 0;
      }
    } else {
      assert |Via(s.link, s.hold, q)| == 0;
      forall a ensures HasPath(t.link, a) {
        var m := PathCut(s.link, q, a, Chain(s.link, a));
      }
      forall x ensures Spare(t, x) == if Member(l, x) then 1 else 0 {
        assert Spare(s, x) == if Member(Cons(q, l), x) then 1 else 0;
        CutVia(s.link, s.hold, q, x);
      }
    }
  }

  lemma {:induction false} PutAllOwing(s: State, l: List<int>, m: List<int>)
    requires Owing(s, Append(l, m)) && Distinct(Append(l, m))
    ensures Owing(PutAll(s, l), m)
    decreases l
  {
    if l.Cons? {
      PutOwing(s, l.head, Append(l.tail, m));
      PutAllOwing(Put(s, l.head), l.tail, m);
    }
  }

  lemma {:induction false} OwingSame(s: State, l: List<int>, m: List<int>)
    requires Owing(s, l) && forall x :: Member(l, x) <==> Member(m, x)
    ensures Owing(s, m)
  {
  }

  // ---------------------------------------------------------------- holders come and go

  lemma {:induction false} ViaSet(link: map<int, int>, hold: map<int, int>, h: int, b: int, x: int)
    ensures Via(link, hold[h := b], x) == Via(link, hold, x) - {h} + if OnPath(link, b, x) then {h} else {}
  {
  }

  lemma {:induction false} ViaDrop(link: map<int, int>, hold: map<int, int>, h: int, x: int)
    ensures Via(link, hold - {h}, x) == Via(link, hold, x) - {h}
  {
  }

  /** From a queue with a link the chain goes on without it. */
  lemma {:induction false} OnPathNext(link: map<int, int>, q: int, l: List<int>, x: int)
    requires q in link && Path(link, q, l)
    ensures OnPath(link, link[q], x) <==> OnPath(link, q, x) && x != q
  {
    PathDistinct(link, q, l);
    OnPathIs(link, q, l, x);
    OnPathIs(link, link[q], l.tail, x);
  }

  /** A process that moves on to the next queue leaves one reference to spare on its own. */
  lemma {:induction false} MoveGood(s: State, h: int)
    requires Good(s) && h in s.hold && s.hold[h] in s.link
    ensures Good(MoveOn(s, h))
  {
    hide Via, OnPath;
    var q := s.hold[h];
    var t := s.(hold := s.hold[h := s.link[q]]);
    var l := Chain(s.link, q);
    forall x ensures Spare(t, x) == if Member(Cons(q, Nil), x) then 1 else 0 {
      assert Spare(s, x) == 0;
      ViaSet(s.link, s.hold, h, s.link[q], x);
      OnPathNext(s.link, q, l, x);
      InVia(s, h, x);
      OnPathIs(s.link, q, l, x);
    }
    PutOwing(t, q, Nil);
  }

  lemma {:induction false} InVia(s: State, h: int, x: int)
    requires h in s.hold
    ensures h in Via(s.link, s.hold, x) <==> OnPath(s.link, s.hold[h], x)
  {
  }

  lemma {:induction false} QuitGood(s: State, h: int)
    requires Good(s) && h in s.hold && h !in s.lost
    ensures HasPath(s.link, s.hold[h]) && Good(Quit(s, h))
  {
    hide Via, OnPath;
    var q := s.hold[h];
    assert HasPath(s.link, q);
    var l := Chain(s.link, q);
    var t := s.(hold := s.hold - {h});
    DropOwing(s, h, l);
    hide Owing;
    PathDistinct(s.link, q, l);
    AppendKeeps(l.tail, q);
    OwingSame(t, l, Append(l.tail, Cons(q, Nil)));
    PutAllOwing(t, l.tail, Cons(q, Nil));
    PutOwing(PutAll(t, l.tail), q, Nil);
  }

  /** Without one holder, the queues on its chain have a reference to spare. */
  lemma {:induction false} DropOwing(s: State, h: int, l: List<int>)
    requires Good(s) && h in s.hold && h !in s.lost && Path(s.link, s.hold[h], l)
    ensures Owing(s.(hold := s.hold - {h}), l)
  {
    hide Via, OnPath, Path;
    var t := s.(hold := s.hold - {h});
    forall x ensures Spare(t, x) == if Member(l, x) then 1 else 0 {
      assert Spare(s, x) == 0;
      ViaDrop(s.link, s.hold, h, x);
      InVia(s, h, x);
      OnPathIs(s.link, s.hold[h], l, x);
    }
  }

  lemma {:induction false} RegroupGood(s: State, h: int, lost: int)
    requires Good(s) && h in s.hold && h !in s.lost && lost !in s.hold
    ensures Good(Regroup(s, h, lost))
  {
    hide Via, OnPath;
    var q := s.hold[h];
    assert HasPath(s.link, q);
    var l := Chain(s.link, q);
    if q in s.link {
      var t := s.(hold := (s.hold - {h})[lost := s.link[q]], lost := s.lost + {lost});
      LostOwing(s, h, lost, l);
      hide Owing;
      PutOwing(t, q, Nil);
    } else {
      DropOwing(s, h, l);
      hide Owing;
      PutOwing(s.(hold := s.hold - {h}), q, Nil);
    }
  }

  /** What a process held along the chain stays held, by nobody. */
  lemma {:induction false} LostOwing(s: State, h: int, lost: int, l: List<int>)
    requires Good(s) && h in s.hold && h !in s.lost && lost !in s.hold && s.hold[h] in s.link
    requires Path(s.link, s.hold[h], l)
    ensures Owing(s.(hold := (s.hold - {h})[lost := s.link[s.hold[h]]], lost := s.lost + {lost}), Cons(s.hold[h], Nil))
  {
    hide Via, OnPath, Path, HasPath;
    var q := s.hold[h];
    var t := s.(hold := (s.hold - {h})[lost := s.link[q]], lost := s.lost + {lost});
    forall x ensures Spare(t, x) == if Member(Cons(q, Nil), x) then 1 else 0 {
      assert Spare(s, x) == 0;
      LostVia(s, h, lost, l, x);
    }
  }

  lemma {:induction false} LostVia(s: State, h: int, lost: int, l: List<int>, x: int)
    requires h in s.hold && lost !in s.hold && s.hold[h] in s.link && Path(s.link, s.hold[h], l)
    ensures |Via(s.link, (s.hold - {h})[lost := s.link[s.hold[h]]], x)|
         == |Via(s.link, s.hold, x)| - if x == s.hold[h] then 1 else 0
  {
    hide Via, OnPath;
    var q := s.hold[h];
    ViaDrop(s.link, s.hold, h, x);
    ViaSet(s.link, s.hold - {h}, lost, s.link[q], x);
    InVia(s, h, x);
    NotVia(s, lost, x);
    OnPathNext(s.link, q, l, x);
    OnPathIs(s.link, q, l, x);
    hide Path;
    var v := Via(s.link, s.hold, x);
    assert lost != h;
    if OnPath(s.link, s.link[q], x) { assert |v - {h} + {lost}| == |v|; }
  }

  lemma {:induction false} NotVia(s: State, h: int, x: int)
    requires h !in s.hold
    ensures h !in Via(s.link, s.hold, x)
  {
  }

  /** A new holder of a queue without a link. */
  lemma {:induction false} HoldGood(s: State, h: int, q: int)
    requires Good(s) && h !in s.hold && q !in s.link
    ensures Good(s.(ref := s.ref[q := RefOf(s, q) + 1], hold := s.hold[h := q]))
  {
    hide Via, HasPath;
    var t := s.(ref := s.ref[q := RefOf(s, q) + 1], hold := s.hold[h := q]);
    forall x ensures Spare(t, x) == 0 {
      assert Spare(s, x) == 0;
      HoldVia(s, h, q, x);
    }
  }

  lemma {:induction false} HoldVia(s: State, h: int, q: int, x: int)
    requires h !in s.hold && q !in s.link
    ensures |Via(s.link, s.hold[h := q], x)| == |Via(s.link, s.hold, x)| + if x == q then 1 else 0
  {
    hide Via, OnPath;
    ViaSet(s.link, s.hold, h, q, x);
    NotVia(s, h, x);
    OnPathIs(s.link, q, Cons(q, Nil), x);
  }

  lemma {:induction false} IoGood(s: State, q: int)
    requires Good(s) && q in s.ref
    ensures Good(s.(ref := s.ref[q := RefOf(s, q) + 1], io := s.io[q := IoOf(s, q) + 1]))
  {
  }

  lemma {:induction false} IoEndGood(s: State, q: int)
    requires Good(s) && IoOf(s, q) > 0
    ensures q in s.ref && Good(Put(s.(io := s.io[q := IoOf(s, q) - 1]), q))
  {
    hide Via, OnPath;
    var t := s.(io := s.io[q := IoOf(s, q) - 1]);
    forall x ensures Spare(t, x) == if Member(Cons(q, Nil), x) then 1 else 0 { assert Spare(s, x) == 0; }
    PutOwing(t, q, Nil);
  }

  // ---------------------------------------------------------------- linking

  lemma {:induction false} LinkedVia(link: map<int, int>, hold: map<int, int>, r: int, t: int, x: int)
    requires (forall a :: HasPath(link, a)) && r !in link && t !in link && r != t
    ensures Via(link[r := t], hold, x) == if x == t then Via(link, hold, r) + Via(link, hold, t) else Via(link, hold, x)
    ensures Via(link, hold, r) !! Via(link, hold, t)
  {
    forall h | h in hold
      ensures OnPath(link[r := t], hold[h], x) <==> OnPath(link, hold[h], x) || (x == t && OnPath(link, hold[h], r))
      ensures !(OnPath(link, hold[h], r) && OnPath(link, hold[h], t))
    {
      LinkedOnPath(link, r, t, hold[h], x);
    }
    hide OnPath;
  }

  lemma {:induction false} LinkedOnPath(link: map<int, int>, r: int, t: int, a: int, x: int)
    requires HasPath(link, a) && r !in link && t !in link && r != t
    ensures OnPath(link[r := t], a, x) <==> OnPath(link, a, x) || (x == t && OnPath(link, a, r))
    ensures !(OnPath(link, a, r) && OnPath(link, a, t))
  {
    var l := Chain(link, a);
    RootIsLast(link, a, l);
    PathLinked(link, r, t, a, l);
    var m := if Last(l) == r then Append(l, Cons(t, Nil)) else l;
    OnPathIs(link[r := t], a, m, x);
    OnPathIs(link, a, l, x);
    OnPathIs(link, a, l, r);
    OnPathIs(link, a, l, t);
    AppendMember(l, t, x);
  }

  lemma {:induction false} AppendMember(l: List<int>, t: int, x: int)
    ensures Member(Append(l, Cons(t, Nil)), x) <==> Member(l, x) || x == t
  {
    if l.Cons? { AppendMember(l.tail, t, x); }
  }

  /** One root is linked to another, and all who hold the one come to hold the other too. */
  lemma {:induction false} LinkGood(s: State, r: int, t: int)
    requires Good(s) && r in s.ref && t in s.ref && r !in s.link && t !in s.link && r != t
    ensures Good(s.(link := s.link[r := t], ref := s.ref[t := RefOf(s, t) + ProcessRefs(s, r)]))
  {
    hide Via, OnPath;
    var u := s.(link := s.link[r := t], ref := s.ref[t := RefOf(s, t) + ProcessRefs(s, r)]);
    assert Spare(s, r) == 0;
    forall a ensures HasPath(u.link, a) { PathLinked(s.link, r, t, a, Chain(s.link, a)); }
    forall x ensures Spare(u, x) == 0 {
      assert Spare(s, x) == 0;
      LinkedVia(s.link, s.hold, r, t, x);
    }
  }

  lemma {:induction false} GoodFacts(s: State, q: int)
    requires Good(s)
    ensures HasPath(s.link, q) && ProcessRefs(s, q) >= 0
  {
    assert Spare(s, q) == 0;
  }

  /** cfq_setup_merge: what the walk ends at is another root, whichever way the link goes. */
  lemma {:induction false} SetupGood(s: State, q: int, other: int)
    requires Good(s) && Allowed(s, Merge(q, other))
    ensures HasPath(s.link, other)
    ensures Good(Setup(s, q, other, if OnPath(s.link, other, q) then q else Last(Chain(s.link, other))))
  {
    hide Via, Good, OnPath;
    GoodFacts(s, other);
    var l := Chain(s.link, other);
    RootIsLast(s.link, other, l);
    OnPathIs(s.link, other, l, q);
    var root := Last(l);
    hide Path, Last;
    if !Member(l, q) && ProcessRefs(s, other) != 0 {
      ChainAlive(s, other, l, root);
      LinkGood(s, q, root);
      LinkGood(s, root, q);
    }
  }

  // ---------------------------------------------------------------- runs

  lemma {:induction false} StepGood(s: State, e: Event)
    requires Good(s) && Allowed(s, e)
    ensures Good(Step(s, e))
  {
    hide Setup, MoveOn, Quit, Regroup, Put, Via, OnPath, Path;
    match e
    case Create(h, q) => assert q !in s.link.Keys; HoldGood(s, h, q);
    case Share(h, q) => HoldGood(s, h, q);
    case Merge(q, other) => SetupGood(s, q, other);
    case Move(h) => MoveGood(s, h);
    case Exit(h) => QuitGood(s, h);
    case Leave(h, lost) => RegroupGood(s, h, lost);
    case Begin(h) =>
      HeldAlive(s, h);
      IoGood(s, s.hold[h]);
    case End(q) => IoEndGood(s, q);
  }

  ghost predicate Run(s: State, es: List<Event>, t: State)
    decreases es
  {
    match es
    case Nil => s == t
    case Cons(e, r) => Allowed(s, e) && Run(Step(s, e), r, t)
  }

  function Start(): State {
    State(map[], map[], map[], map[], {})
  }

  lemma {:induction false} StartGood()
    ensures Good(Start())
  {
    var s := Start();
    forall a ensures HasPath(s.link, a) { assert Path(s.link, a, Cons(a, Nil)); }
    forall q ensures Spare(s, q) == 0 { assert Via(s.link, s.hold, q) == {}; }
  }

  lemma {:induction false} RunGood(s: State, es: List<Event>, t: State)
    requires Good(s) && Run(s, es, t)
    ensures Good(t)
    decreases es
  {
    hide Good, Allowed, Step;
    if es.Cons? {
      StepGood(s, es.head);
      RunGood(Step(s, es.head), es.tail, t);
    }
  }

  /** In every run every chain of links has an end, and comes to no queue twice: so the walk of
      cfq_put_cooperator from the queue behind q never meets q again, and its warning is not given. */
  lemma {:induction false} LinksAreForest(es: List<Event>, s: State, q: int) returns (l: List<int>)
    requires Run(Start(), es, s)
    ensures Path(s.link, q, l) && Distinct(l)
    ensures q in s.link ==> !OnPath(s.link, s.link[q], q)
  {
    StartGood();
    RunGood(Start(), es, s);
    assert HasPath(s.link, q);
    l := Chain(s.link, q);
    PathDistinct(s.link, q, l);
    if q in s.link { OnPathNext(s.link, q, l, q); }
  }

  /** In every run the process references of a queue are exactly the holders whose chains pass it, and both
      walks, from a queue with process references and from one a process holds, pass only queues that exist. */
  lemma {:induction false} WalksFindQueues(es: List<Event>, s: State, q: int, h: int, x: int)
    requires Run(Start(), es, s)
    ensures ProcessRefs(s, q) == |Via(s.link, s.hold, q)|
    ensures OnPath(s.link, q, x) && ProcessRefs(s, q) > 0 ==> x in s.ref && ProcessRefs(s, x) > 0
    ensures h in s.hold && OnPath(s.link, s.hold[h], x) ==> x in s.ref && ProcessRefs(s, x) > 0
  {
    StartGood();
    RunGood(Start(), es, s);
    assert Spare(s, q) == 0;
    if OnPath(s.link, q, x) && ProcessRefs(s, q) > 0 {
      var l :| Path(s.link, q, l) && Member(l, x);
      ChainAlive(s, q, l, x);
    }
    if h in s.hold && OnPath(s.link, s.hold[h], x) {
      var l :| Path(s.link, s.hold[h], l) && Member(l, x);
      HolderAlive(s, h, l, x);
    }
  }

  lemma {:induction false} PutAllHold(s: State, l: List<int>)
    ensures PutAll(s, l).hold == s.hold && PutAll(s, l).lost == s.lost
    decreases l
  {
    if l.Cons? { PutAllHold(Put(s, l.head), l.tail); }
  }

  /** A reference that changed_cgroup leaves behind on a chain is never given back: its queue stays. */
  lemma {:induction false} LostStays(s: State, es: List<Event>, t: State, h: int)
    requires Good(s) && Run(s, es, t) && h in s.lost
    ensures h in s.hold && h in t.hold && t.hold[h] == s.hold[h] && s.hold[h] in t.ref
    decreases es
  {
    if es.Nil? {
      HeldAlive(s, h);
    } else {
      StepGood(s, es.head);
      LostStep(s, es.head, h);
      hide Good, Step;
      LostStays(Step(s, es.head), es.tail, t, h);
    }
  }

  lemma {:induction false} LostStep(s: State, e: Event, h: int)
    requires Good(s) && Allowed(s, e) && h in s.lost
    ensures h in s.hold && h in Step(s, e).lost && h in Step(s, e).hold && Step(s, e).hold[h] == s.hold[h]
  {
    hide Via;
    if e.Exit? && HasPath(s.link, s.hold[e.h]) {
      PutAllHold(s.(hold := s.hold - {e.h}), Chain(s.link, s.hold[e.h]).tail);
    }
  }

  /** Every process reference is some process's own. */
  ghost predicate AllOwned(s: State) {
    forall q :: ProcessRefs(s, q) == |Via(s.link, s.hold - s.lost, q)|
  }

  lemma {:induction false} OwnedIffNoneLost(s: State)
    requires Good(s)
    ensures AllOwned(s) <==> s.lost == {}
  {
    var own := s.hold - s.lost;
    if s.lost == {} {
      assert own == s.hold;
      forall q
        ensures ProcessRefs(s, q) == |Via(s.link, own, q)|
      {
        assert Spare(s, q) == 0;
      }
    } else {
      var h := Pick(s.lost);
      var q := s.hold[h];
      assert HasPath(s.link, q);
      assert Member(Chain(s.link, q), q);
      var all, some := Via(s.link, s.hold, q), Via(s.link, own, q);
      assert some < all by { assert h in all && h !in some; }
      FewerIn(some, all);
      assert Spare(s, q) == 0;
    }
  }

  lemma {:induction false} FewerIn(a: set<int>, b: set<int>)
    requires a < b
    ensures |a| < |b|
  {
    assert b == a + (b - a);
  }

  /** A change of control group leaves references behind exactly if the queue has a link. */
  lemma {:induction false} RegroupOwnedIff(s: State, h: int, lost: int)
    requires Good(s) && s.lost == {} && Allowed(s, Leave(h, lost))
    ensures AllOwned(Step(s, Leave(h, lost))) <==> s.hold[h] !in s.link
  {
    hide Good, AllOwned;
    StepGood(s, Leave(h, lost));
    OwnedIffNoneLost(Step(s, Leave(h, lost)));
    RegroupLost(s, h, lost);
  }

  lemma {:induction false} RegroupLost(s: State, h: int, lost: int)
    requires Allowed(s, Leave(h, lost))
    ensures Step(s, Leave(h, lost)).lost == if s.hold[h] in s.link then s.lost + {lost} else s.lost
  {
  }

  /** Queue 1 is linked to queue 2, the process of 2 exits and that of 1 changes its group: no process is
      left, and queue 2 is still held. */
  lemma {:induction false} GroupChangeLeaks() returns (es: List<Event>, s: State)
    ensures Run(Start(), es, s) && s.hold - s.lost == map[] && ProcessRefs(s, 2) == 1 && !AllOwned(s)
  {
    hide Step, AllOwned;
    MakesTwo();
    var s2 := Step(Step(Start(), Create(1, 1)), Create(2, 2));
    LinksTwo(s2);
    var s3 := Step(s2, Merge(1, 2));
    ExitsTwo(s3);
    var s4 := Step(s3, Exit(2));
    LeavesOne(s4);
    s := Step(s4, Leave(1, 3));
    es := Cons(Create(1, 1), Cons(Create(2, 2), Cons(Merge(1, 2), Cons(Exit(2), Cons(Leave(1, 3), Nil)))));
    assert Run(Start(), es, s) by {
      assert Run(s4, Cons(Leave(1, 3), Nil), s);
      assert Run(s3, Cons(Exit(2), Cons(Leave(1, 3), Nil)), s);
      assert Run(s2, Cons(Merge(1, 2), Cons(Exit(2), Cons(Leave(1, 3), Nil))), s);
    }
    StartGood();
    RunGood(Start(), es, s);
    OwnedIffNoneLost(s);
    assert s.hold - s.lost == map[];
  }

  lemma {:induction false} MakesTwo()
    ensures Allowed(Start(), Create(1, 1)) && Allowed(Step(Start(), Create(1, 1)), Create(2, 2))
    ensures Step(Step(Start(), Create(1, 1)), Create(2, 2)) == State(map[1 := 1, 2 := 1], map[], map[], map[1 := 1, 2 := 2], {})
  {
  }

  lemma {:induction false} LeavesOne(s: State)
    requires s == State(map[1 := 1, 2 := 1], map[], map[1 := 2], map[1 := 1], {})
    ensures Step(s, Leave(1, 3)) == State(map[2 := 1], map[], map[], map[3 := 2], {3})
  {
  }

  lemma {:induction false} LinksTwo(s: State)
    requires s == State(map[1 := 1, 2 := 1], map[], map[], map[1 := 1, 2 := 2], {})
    ensures Step(s, Merge(1, 2)) == State(map[1 := 1, 2 := 2], map[], map[1 := 2], map[1 := 1, 2 := 2], {})
  {
    assert Path(s.link, 2, Cons(2, Nil));
    PathUnique(s.link, 2, Chain(s.link, 2), Cons(2, Nil));
    assert !OnPath(s.link, 2, 1);
  }

  lemma {:induction false} ExitsTwo(s: State)
    requires s == State(map[1 := 1, 2 := 2], map[], map[1 := 2], map[1 := 1, 2 := 2], {})
    ensures Step(s, Exit(2)) == State(map[1 := 1, 2 := 1], map[], map[1 := 2], map[1 := 1], {})
  {
    assert Path(s.link, 2, Cons(2, Nil));
    PathUnique(s.link, 2, Chain(s.link, 2), Cons(2, Nil));
    assert PutAll(s.(hold := s.hold - {2}), Nil) == s.(hold := map[1 := 1]);
  }
}
