/**
 Removing an algorithm in favour of a replacement that may itself be built on it (algapi.c).  The
 walk does not go past the replacement, and crypto_more_spawns gives back the algorithm of each
 spawn it leaves by way of a spawn that kept its own.
 */
module SpawnMarks {
  import opened Lists
  import opened Spawns

  /** The flag bits in which the replacement differs from the algorithm that goes. */
  function Differ(flags: Alg -> bv32, a: Alg, nalg: Option<Alg>): bv32 {
    flags(a) ^ flags(if nalg.Some? then nalg.value else a)
  }

  predicate Fits(differ: bv32, mask: Spawn -> bv32, s: Spawn) {
    differ & mask(s) == 0
  }

  function Only(l: seq<Spawn>, differ: bv32, mask: Spawn -> bv32): seq<Spawn> {
    if l == [] then []
    else if Fits(differ, mask, l[0]) then [l[0]] + Only(l[1..], differ, mask)
    else Only(l[1..], differ, mask)
  }

  lemma {:induction false} OnlyIs(l: seq<Spawn>, differ: bv32, mask: Spawn -> bv32)
    ensures forall s :: s in Only(l, differ, mask) <==> s in l && Fits(differ, mask, s)
    ensures Once(l) ==> Once(Only(l, differ, mask))
  {
    if l != [] {
      OnlyIs(l[1..], differ, mask);
      assert l == [l[0]] + l[1..];
    }
  }

  /** A removal: the user lists it finds, the algorithm that goes, its replacement, the flag bits in which the
      two differ and those a spawn cares for. */
  datatype Removal = Removal(users: Users, alg: Alg, nalg: Option<Alg>, differ: bv32, mask: Spawn -> bv32)

  function Without(u: Users, a: Alg, flags: Alg -> bv32, mask: Spawn -> bv32): Removal {
    Removal(u, a, None, Differ(flags, a, None), mask)
  }

  /** What the walk may take: not the users of the replacement, and of the algorithm only those that fit. */
  function Graph(r: Removal): Users {
    Hidden(r.users, r.nalg)[r.alg := Only(UsersOf(r.users, r.alg), r.differ, r.mask)]
  }

  function Hidden(u: Users, nalg: Option<Alg>): Users {
    if nalg.Some? then u[nalg.value := []] else u
  }

  lemma {:induction false} GraphUsers(r: Removal)
    ensures var g := Graph(r);
            && UsersOf(g, r.alg) == Only(UsersOf(r.users, r.alg), r.differ, r.mask)
            && (forall b :: b != r.alg && Some(b) != r.nalg ==> UsersOf(g, b) == UsersOf(r.users, b))
            && (forall b :: b != r.alg && Some(b) == r.nalg ==> UsersOf(g, b) == [])
            && (forall b, s :: On(g, b, s) ==> On(r.users, b, s))
  {
    OnlyIs(UsersOf(r.users, r.alg), r.differ, r.mask);
  }

  /** Without a replacement every user fits, and the walk may take everything. */
  lemma {:induction false} GraphIsAll(u: Users, a: Alg, flags: Alg -> bv32, mask: Spawn -> bv32)
    ensures forall b, s :: On(Graph(Without(u, a, flags, mask)), b, s) <==> On(u, b, s)
  {
    var f := flags(a);
    assert f ^ f == 0;
    OnlyIs(UsersOf(u, a), 0, mask);
    forall s
      ensures Fits(0, mask, s)
    {
      var m := mask(s);
      assert 0 & m == 0;
    }
  }

  /** No instance is built on itself: an instance names its algorithms before it is registered. */
  ghost predicate Acyclic(u: Users, inst: Spawn -> Alg) {
    forall b :: !Dependent(u, inst, b, b)
  }

  /** The replacement is built on the instance b. */
  ghost predicate Leads(g: Users, inst: Spawn -> Alg, nalg: Option<Alg>, b: Alg) {
    nalg.Some? && Dependent(g, inst, b, nalg.value)
  }

  lemma {:induction false} ReachedLess(g: Users, u: Users, inst: Spawn -> Alg, a: Alg, s: Spawn)
    requires (forall b, x :: On(g, b, x) ==> On(u, b, x)) && Reached(g, inst, a, s)
    ensures Reached(u, inst, a, s)
  {
  }

  lemma {:induction false} DependentLess(g: Users, u: Users, inst: Spawn -> Alg, a: Alg, b: Alg)
    requires (forall c, x :: On(g, c, x) ==> On(u, c, x)) && Dependent(g, inst, a, b)
    ensures Dependent(u, inst, a, b)
  {
  }

  lemma {:induction false} AcyclicLess(g: Users, u: Users, inst: Spawn -> Alg)
    requires (forall c, x :: On(g, c, x) ==> On(u, c, x)) && Acyclic(u, inst)
    ensures Acyclic(g, inst)
  {
    hide Dependent, On;
    forall b
      ensures !Dependent(g, inst, b, b)
    {
      if Dependent(g, inst, b, b) { DependentLess(g, u, inst, b, b); }
    }
  }

  /** A spawn reached from a user's instance is reached from the algorithm used. */
  lemma {:induction false} ReachedBefore(g: Users, inst: Spawn -> Alg, b: Alg, c: Spawn, s: Spawn)
    requires On(g, b, c) && Reached(g, inst, inst(c), s)
    ensures Reached(g, inst, b, s)
  {
    hide On;
    var p :| Chain(g, inst, inst(c), p) && p[|p| - 1] == s;
    var q := [c] + p;
    assert Chain(g, inst, b, q) && q[|q| - 1] == s;
  }

  lemma {:induction false} LeadsBefore(g: Users, inst: Spawn -> Alg, nalg: Option<Alg>, b: Alg, c: Spawn)
    requires On(g, b, c) && (Some(inst(c)) == nalg || Leads(g, inst, nalg, inst(c)))
    ensures Leads(g, inst, nalg, b)
  {
    hide On, Reached;
    if Some(inst(c)) == nalg {
      ReachedFirst(g, inst, b, c);
    } else {
      var s :| Reached(g, inst, inst(c), s) && inst(s) == nalg.value;
      ReachedBefore(g, inst, b, c, s);
    }
  }

  // ---------------------------------------------------------------- the path walked down

  /** The algorithm the spawn at i on the path uses: the instance of the spawn it was walked into from. */
  function Under(inst: Spawn -> Alg, a: Alg, stack: seq<Spawn>, i: nat): Alg {
    if i + 1 < |stack| then inst(stack[i + 1]) else a
  }

  ghost predicate Path(g: Users, inst: Spawn -> Alg, a: Alg, stack: seq<Spawn>) {
    forall i :: 0 <= i < |stack| ==> On(g, Under(inst, a, stack, i), stack[i])
  }

  lemma {:induction false} PathReaches(g: Users, inst: Spawn -> Alg, a: Alg, stack: seq<Spawn>, i: nat, j: nat)
    requires Path(g, inst, a, stack) && i < j < |stack|
    ensures Reached(g, inst, inst(stack[j]), stack[i])
    decreases j - i
  {
    hide On, Reached;
    assert On(g, Under(inst, a, stack, i), stack[i]);
    if j == i + 1 {
      ReachedFirst(g, inst, inst(stack[j]), stack[i]);
    } else {
      PathReaches(g, inst, a, stack, i + 1, j);
      ReachedNext(g, inst, inst(stack[j]), stack[i + 1], stack[i]);
    }
  }

  lemma {:induction false} PathDistinct(g: Users, inst: Spawn -> Alg, a: Alg, stack: seq<Spawn>)
    requires Path(g, inst, a, stack) && Acyclic(g, inst)
    ensures forall i, j :: 0 <= i < j < |stack| ==> inst(stack[i]) != inst(stack[j])
  {
    hide On, Reached, Path;
    forall i, j | 0 <= i < j < |stack|
      ensures inst(stack[i]) != inst(stack[j])
    {
      PathReaches(g, inst, a, stack, i, j);
      assert !Dependent(g, inst, inst(stack[j]), inst(stack[j]));
    }
  }

  // ---------------------------------------------------------------- what is finished

  /** A spawn is walked once. */
  ghost predicate Apart(w: Walk) {
    && Once(w.stack) && Once(w.done)
    && (forall s :: s in w.stack ==> s !in w.done)
  }

  /** What is built on a finished spawn's instance was finished before it, so stands after it on the list. */
  ghost predicate Ordered(g: Users, inst: Spawn -> Alg, done: seq<Spawn>) {
    forall k, c :: 0 <= k < |done| && On(g, inst(done[k]), c) ==> c in done[k + 1..]
  }

  /** An instance the walk has gone through has not been finished by way of another spawn. */
  ghost predicate NewBelow(inst: Spawn -> Alg, w: Walk) {
    forall j, s :: 0 < j < |w.stack| && s in w.done ==> inst(w.stack[j]) != inst(s)
  }

  // ---------------------------------------------------------------- what keeps its algorithm

  /** Spawns keep their algorithm only on the way to the replacement, whose own spawns all do ... */
  ghost predicate KeptLead(g: Users, inst: Spawn -> Alg, nalg: Option<Alg>, w: Walk, kept: set<Spawn>) {
    && (forall s :: s in kept ==> Visited(w, s) && (Some(inst(s)) == nalg || Leads(g, inst, nalg, inst(s))))
    && (forall s :: Visited(w, s) && Some(inst(s)) == nalg ==> s in kept)
  }

  /** ... a kept spawn leaves one kept spawn below it ... */
  ghost predicate KeptBelow(g: Users, inst: Spawn -> Alg, a: Alg, w: Walk, kept: set<Spawn>) {
    forall b, c :: b != a && c in w.done && c in kept && On(g, b, c) ==> exists s :: s in kept && inst(s) == b
  }

  /** ... and only one. */
  ghost predicate KeptOne(inst: Spawn -> Alg, nalg: Option<Alg>, kept: set<Spawn>) {
    forall s, t :: s in kept && t in kept && inst(s) == inst(t) && Some(inst(s)) != nalg ==> s == t
  }

  ghost predicate Marks(g: Users, inst: Spawn -> Alg, a: Alg, nalg: Option<Alg>, w: Walk, kept: set<Spawn>) {
    && Apart(w) && Path(g, inst, a, w.stack) && Ordered(g, inst, w.done) && NewBelow(inst, w)
    && KeptLead(g, inst, nalg, w, kept) && KeptBelow(g, inst, a, w, kept) && KeptOne(inst, nalg, kept)
  }

  // ---------------------------------------------------------------- one step down

  function Taken(inst: Spawn -> Alg, nalg: Option<Alg>, kept: set<Spawn>, s: Spawn): set<Spawn> {
    if Some(inst(s)) == nalg then kept + {s} else kept
  }

  lemma {:induction false} DownOn(g: Users, inst: Spawn -> Alg, a: Alg, w: Walk)
    requires Left(g, a, w)
    requires if w.stack == [] then w.top != [] else UsersOf(w.users, inst(w.stack[0])) != []
    ensures var v := Down(inst, w);
            && v.stack == [v.stack[0]] + w.stack && v.done == w.done
            && On(g, Under(inst, a, v.stack, 0), v.stack[0])
  {
  }

  lemma {:induction false} DownPath(g: Users, inst: Spawn -> Alg, a: Alg, stack: seq<Spawn>, s: Spawn)
    requires Path(g, inst, a, stack) && On(g, Under(inst, a, [s] + stack, 0), s)
    ensures Path(g, inst, a, [s] + stack)
  {
  }

  lemma {:induction false} DownApart(uses: map<Spawn, Alg>, w: Walk, s: Spawn, v: Walk)
    requires Apart(w) && Cleared(uses, w) && s in w.uses && v.stack == [s] + w.stack && v.done == w.done
    ensures Apart(v)
  {
  }

  lemma {:induction false} DownNew(inst: Spawn -> Alg, w: Walk, s: Spawn, v: Walk)
    requires NewBelow(inst, w) && Closed(inst, w) && v.stack == [s] + w.stack && v.done == w.done
    requires w.stack != [] ==> UsersOf(w.users, inst(w.stack[0])) != []
    ensures NewBelow(inst, v)
  {
  }

  lemma {:induction false} DownKept(g: Users, inst: Spawn -> Alg, a: Alg, nalg: Option<Alg>, w: Walk,
      kept: set<Spawn>, s: Spawn, v: Walk)
    requires KeptLead(g, inst, nalg, w, kept) && KeptBelow(g, inst, a, w, kept) && KeptOne(inst, nalg, kept)
    requires v.stack == [s] + w.stack && v.done == w.done && s !in w.done
    ensures KeptLead(g, inst, nalg, v, Taken(inst, nalg, kept, s))
    ensures KeptBelow(g, inst, a, v, Taken(inst, nalg, kept, s)) && KeptOne(inst, nalg, Taken(inst, nalg, kept, s))
  {
  }

  lemma {:induction false} DownMarks(g: Users, uses: map<Spawn, Alg>, inst: Spawn -> Alg, a: Alg, nalg: Option<Alg>,
      w: Walk, kept: set<Spawn>)
    requires Walking(g, uses, inst, a, w) && Marks(g, inst, a, nalg, w, kept)
    requires if w.stack == [] then w.top != [] else UsersOf(w.users, inst(w.stack[0])) != []
    ensures var v := Down(inst, w);
            Marks(g, inst, a, nalg, v, Taken(inst, nalg, kept, v.stack[0]))
  {
    hide Left, Sound, Complete, Local, Closed, Cleared, Took, Apart, Path, Ordered, NewBelow, KeptLead, KeptBelow,
        KeptOne, Taken, On, UsersOf;
    DownOn(g, inst, a, w);
    var v := Down(inst, w);
    var s := v.stack[0];
    hide Down;
    TakenIs(g, uses, inst, a, w);
    DownPath(g, inst, a, w.stack, s);
    DownApart(uses, w, s, v);
    DownNew(inst, w, s, v);
    DownKept(g, inst, a, nalg, w, kept, s, v);
  }

  lemma {:induction false} TakenIs(g: Users, uses: map<Spawn, Alg>, inst: Spawn -> Alg, a: Alg, w: Walk)
    requires Walking(g, uses, inst, a, w)
    requires if w.stack == [] then w.top != [] else UsersOf(w.users, inst(w.stack[0])) != []
    ensures var s := Down(inst, w).stack[0]; s in w.uses && s !in w.done
  {
    hide Left, Sound, Complete, Local, Closed;
    var s := DownTakes(g, uses, inst, a, w);
    assert !Visited(w, s);
  }

  // ---------------------------------------------------------------- one step up

  /** crypto_more_spawns: a spawn that kept its algorithm gives the one below it its algorithm back. */
  function Raised(w: Walk, kept: set<Spawn>): set<Spawn>
    requires w.stack != []
  {
    if w.stack[0] in kept && |w.stack| > 1 then kept + {w.stack[1]} else kept
  }

  lemma {:induction false} UpApart(w: Walk)
    requires Apart(w) && w.stack != []
    ensures Apart(Up(w))
  {
    TailOnce(w.stack);
    assert w.stack[0] in w.stack;
  }

  lemma {:induction false} UpPath(g: Users, inst: Spawn -> Alg, a: Alg, w: Walk)
    requires Path(g, inst, a, w.stack) && w.stack != []
    ensures Path(g, inst, a, Up(w).stack)
  {
  }

  /** The users of the instance being finished are finished: none of them is on the path. */
  lemma {:induction false} UsersDone(g: Users, uses: map<Spawn, Alg>, inst: Spawn -> Alg, a: Alg, w: Walk, c: Spawn)
    requires Walking(g, uses, inst, a, w) && Registered(g, uses) && Acyclic(g, inst) && Path(g, inst, a, w.stack)
    requires w.stack != [] && UsersOf(w.users, inst(w.stack[0])) == [] && On(g, inst(w.stack[0]), c)
    ensures c in w.done
  {
    hide Left, Local, Closed, Cleared, Once, Reached, Path;
    var b := inst(w.stack[0]);
    assert b != a by {
      assert Visited(w, w.stack[0]);
      assert !Dependent(g, inst, a, a);
    }
    assert Visited(w, c);
    if c in w.stack {
      var j :| 0 <= j < |w.stack| && w.stack[j] == c;
      PathDistinct(g, inst, a, w.stack);
      OnPath(g, inst, a, w.stack, j);
      assert false;
    }
  }

  lemma {:induction false} OnPath(g: Users, inst: Spawn -> Alg, a: Alg, stack: seq<Spawn>, j: nat)
    requires Path(g, inst, a, stack) && j < |stack|
    ensures On(g, Under(inst, a, stack, j), stack[j])
  {
  }

  lemma {:induction false} UpOrdered(g: Users, uses: map<Spawn, Alg>, inst: Spawn -> Alg, a: Alg, w: Walk)
    requires Walking(g, uses, inst, a, w) && Registered(g, uses) && Acyclic(g, inst) && Path(g, inst, a, w.stack)
    requires w.stack != [] && UsersOf(w.users, inst(w.stack[0])) == [] && Ordered(g, inst, w.done)
    ensures Ordered(g, inst, Up(w).done)
  {
    hide Walking, Registered, Acyclic, Path, On, UsersOf;
    var done := Up(w).done;
    forall k, c | 0 <= k < |done| && On(g, inst(done[k]), c)
      ensures c in done[k + 1..]
    {
      if k == 0 {
        UsersDone(g, uses, inst, a, w, c);
        assert done[1..] == w.done;
      } else {
        assert done[k + 1..] == w.done[k..];
      }
    }
  }

  lemma {:induction false} UpNew(g: Users, inst: Spawn -> Alg, a: Alg, w: Walk)
    requires NewBelow(inst, w) && Path(g, inst, a, w.stack) && Acyclic(g, inst) && w.stack != []
    ensures NewBelow(inst, Up(w))
  {
    hide Path, Acyclic;
    PathDistinct(g, inst, a, w.stack);
    var v := Up(w);
    forall j, s | 0 < j < |v.stack| && s in v.done
      ensures inst(v.stack[j]) != inst(s)
    {
      assert v.stack[j] == w.stack[j + 1];
    }
  }

  lemma {:induction false} UpLead(g: Users, inst: Spawn -> Alg, a: Alg, nalg: Option<Alg>, w: Walk, kept: set<Spawn>)
    requires KeptLead(g, inst, nalg, w, kept) && Path(g, inst, a, w.stack) && w.stack != []
    ensures KeptLead(g, inst, nalg, Up(w), Raised(w, kept))
  {
    hide Path, On, Leads;
    UpVisits(w);
    if w.stack[0] in kept && |w.stack| > 1 {
      OnPath(g, inst, a, w.stack, 0);
      LeadsBefore(g, inst, nalg, inst(w.stack[1]), w.stack[0]);
      assert Visited(w, w.stack[1]);
    }
  }

  lemma {:induction false} UpBelow(g: Users, uses: map<Spawn, Alg>, inst: Spawn -> Alg, a: Alg, nalg: Option<Alg>,
      w: Walk, kept: set<Spawn>)
    requires KeptBelow(g, inst, a, w, kept) && KeptLead(g, inst, nalg, w, kept) && Path(g, inst, a, w.stack)
    requires Registered(g, uses) && Apart(w) && w.stack != []
    ensures KeptBelow(g, inst, a, Up(w), Raised(w, kept))
  {
  }

  lemma {:induction false} UpOne(g: Users, inst: Spawn -> Alg, a: Alg, nalg: Option<Alg>, w: Walk, kept: set<Spawn>)
    requires KeptOne(inst, nalg, kept) && KeptLead(g, inst, nalg, w, kept) && NewBelow(inst, w)
    requires Path(g, inst, a, w.stack) && Acyclic(g, inst) && w.stack != []
    ensures KeptOne(inst, nalg, Raised(w, kept))
  {
    hide Path, Acyclic, Leads;
    PathDistinct(g, inst, a, w.stack);
    if |w.stack| > 1 {
      var n := w.stack[1];
      forall t | t in kept && inst(t) == inst(n)
        ensures t == n
      {
        assert Visited(w, t);
        if t in w.stack {
          var i :| 0 <= i < |w.stack| && w.stack[i] == t;
        }
      }
    }
  }

  lemma {:induction false} UpMarks(g: Users, uses: map<Spawn, Alg>, inst: Spawn -> Alg, a: Alg, nalg: Option<Alg>,
      w: Walk, kept: set<Spawn>)
    requires Walking(g, uses, inst, a, w) && Marks(g, inst, a, nalg, w, kept) && Registered(g, uses) && Acyclic(g, inst)
    requires w.stack != [] && UsersOf(w.users, inst(w.stack[0])) == []
    ensures Marks(g, inst, a, nalg, Up(w), Raised(w, kept))
  {
    hide Walking, Registered, Acyclic, Apart, Path, Ordered, NewBelow, KeptLead, KeptBelow, KeptOne, Up, Raised,
        UsersOf;
    UpApart(w);
    UpPath(g, inst, a, w);
    UpOrdered(g, uses, inst, a, w);
    UpNew(g, inst, a, w);
    UpLead(g, inst, a, nalg, w, kept);
    UpBelow(g, uses, inst, a, nalg, w, kept);
    UpOne(g, inst, a, nalg, w, kept);
  }

  // ---------------------------------------------------------------- when the walk is over

  lemma {:induction false} MarksStart(g: Users, inst: Spawn -> Alg, a: Alg, nalg: Option<Alg>, w: Walk)
    requires w.stack == [] && w.done == []
    ensures Marks(g, inst, a, nalg, w, {})
  {
  }

  /** No instance on the way to the replacement is reached by way of two spawns. */
  ghost predicate Single(g: Users, inst: Spawn -> Alg, a: Alg, nalg: Option<Alg>) {
    forall s, t ::
      Reached(g, inst, a, s) && Reached(g, inst, a, t) && inst(s) == inst(t) && Leads(g, inst, nalg, inst(s))
      ==> s == t
  }

  /** The walk has lost the algorithm of a spawn of the instance b. */
  ghost predicate Lost(g: Users, inst: Spawn -> Alg, a: Alg, uses: map<Spawn, Alg>, b: Alg) {
    exists s :: Reached(g, inst, a, s) && inst(s) == b && s !in uses
  }

  /** The instances the replacement is built on have lost nothing. */
  ghost predicate SuppliersLive(g: Users, inst: Spawn -> Alg, a: Alg, nalg: Option<Alg>, uses: map<Spawn, Alg>) {
    forall b :: Leads(g, inst, nalg, b) ==> !Lost(g, inst, a, uses, b)
  }

  /** What the walk leaves of the uses. */
  ghost predicate Settled(g: Users, inst: Spawn -> Alg, a: Alg, nalg: Option<Alg>, uses0: map<Spawn, Alg>,
      uses: map<Spawn, Alg>) {
    && (forall s :: s in uses ==> s in uses0 && uses[s] == uses0[s])
    && (forall s :: s in uses0 && !Reached(g, inst, a, s) ==> s in uses)
    && (forall s :: Reached(g, inst, a, s) && s in uses ==> Some(inst(s)) == nalg || Leads(g, inst, nalg, inst(s)))
    && (forall s :: Reached(g, inst, a, s) && Some(inst(s)) == nalg ==> s in uses)
    && (SuppliersLive(g, inst, a, nalg, uses) <==> Single(g, inst, a, nalg))
  }

  /** Everything built on the algorithm and not led through dies; the replacement does not. */
  lemma {:induction false} WhoDies(g: Users, inst: Spawn -> Alg, a: Alg, nalg: Option<Alg>, uses0: map<Spawn, Alg>,
      uses: map<Spawn, Alg>, b: Alg)
    requires Settled(g, inst, a, nalg, uses0, uses)
    ensures Dependent(g, inst, a, b) && Some(b) != nalg && !Leads(g, inst, nalg, b) ==> Lost(g, inst, a, uses, b)
    ensures Lost(g, inst, a, uses, b) ==> Dependent(g, inst, a, b) && Some(b) != nalg
    ensures Lost(g, inst, a, uses, b) && Single(g, inst, a, nalg) ==> !Leads(g, inst, nalg, b)
  {
  }

  /** A chain of uses from a spawn's instance to the replacement keeps the spawn, if no instance has two. */
  lemma {:induction false} ChainKept(g: Users, uses: map<Spawn, Alg>, inst: Spawn -> Alg, a: Alg, nalg: Option<Alg>,
      w: Walk, kept: set<Spawn>, s: Spawn, p: seq<Spawn>)
    requires Walked(g, uses, inst, a, w) && w.stack == [] && Marks(g, inst, a, nalg, w, kept)
    requires Single(g, inst, a, nalg)
    requires !Dependent(g, inst, a, a) && Reached(g, inst, a, s)
    requires Chain(g, inst, inst(s), p) && Some(inst(p[|p| - 1])) == nalg
    ensures s in kept
    decreases |p|
  {
    hide Registered, UsersOf, On, Apart, Path, Ordered, NewBelow, KeptOne, Reached;
    var c := p[0];
    ReachedNext(g, inst, a, s, c);
    assert c in kept by {
      if |p| == 1 {
        assert Visited(w, c);
      } else {
        ChainTail(g, inst, inst(s), p);
        ChainKept(g, uses, inst, a, nalg, w, kept, c, p[1..]);
      }
    }
    LeadsByChain(g, inst, nalg, inst(s), p);
    var t :| t in kept && inst(t) == inst(s);
    assert Visited(w, t);
  }

  lemma {:induction false} ChainTail(g: Users, inst: Spawn -> Alg, b: Alg, p: seq<Spawn>)
    requires Chain(g, inst, b, p) && |p| > 1
    ensures Chain(g, inst, inst(p[0]), p[1..]) && p[1..][|p| - 2] == p[|p| - 1]
  {
  }

  lemma {:induction false} LeadsByChain(g: Users, inst: Spawn -> Alg, nalg: Option<Alg>, b: Alg, p: seq<Spawn>)
    requires Chain(g, inst, b, p) && Some(inst(p[|p| - 1])) == nalg
    ensures Leads(g, inst, nalg, b)
  {
  }

  lemma {:induction false} SingleKeeps(g: Users, uses: map<Spawn, Alg>, inst: Spawn -> Alg, a: Alg, nalg: Option<Alg>,
      w: Walk, kept: set<Spawn>, s: Spawn)
    requires Walked(g, uses, inst, a, w) && w.stack == [] && Marks(g, inst, a, nalg, w, kept)
    requires Single(g, inst, a, nalg)
    requires !Dependent(g, inst, a, a) && Reached(g, inst, a, s) && Leads(g, inst, nalg, inst(s))
    ensures s in kept
  {
    hide Walked, Marks, Single, On;
    var t :| Reached(g, inst, inst(s), t) && inst(t) == nalg.value;
    var p :| Chain(g, inst, inst(s), p) && p[|p| - 1] == t;
    ChainKept(g, uses, inst, a, nalg, w, kept, s, p);
  }

  /** What is left of the uses once the walk is over: the spawns not visited and those that kept theirs. */
  ghost predicate Standing(uses0: map<Spawn, Alg>, w: Walk, kept: set<Spawn>, uses: map<Spawn, Alg>) {
    && (forall s :: s in uses <==> s in w.uses || s in kept)
    && (forall s :: s in uses ==> s in uses0 && uses[s] == uses0[s])
  }

  ghost predicate Marking(g: Users, inst: Spawn -> Alg, a: Alg, nalg: Option<Alg>, w: Walk, kept: set<Spawn>) {
    Apart(w) && if nalg.Some? then Acyclic(g, inst) && Marks(g, inst, a, nalg, w, kept) else kept == {}
  }

  lemma {:induction false} LiveIffSingle(g: Users, inst: Spawn -> Alg, a: Alg, nalg: Option<Alg>,
      uses0: map<Spawn, Alg>, w: Walk, kept: set<Spawn>, uses: map<Spawn, Alg>)
    requires Walked(g, uses0, inst, a, w) && w.stack == [] && Marks(g, inst, a, nalg, w, kept) && Acyclic(g, inst)
    requires Standing(uses0, w, kept, uses)
    ensures SuppliersLive(g, inst, a, nalg, uses) <==> Single(g, inst, a, nalg)
  {
    hide Registered, UsersOf, On, Apart, Path, Ordered, NewBelow, KeptBelow, Reached, Dependent;
    if Single(g, inst, a, nalg) {
      forall s | Reached(g, inst, a, s) && Leads(g, inst, nalg, inst(s))
        ensures s in uses
      {
        SingleKeeps(g, uses0, inst, a, nalg, w, kept, s);
      }
    }
    if SuppliersLive(g, inst, a, nalg, uses) {
      forall s, t | Reached(g, inst, a, s) && Reached(g, inst, a, t) && inst(s) == inst(t)
                    && Leads(g, inst, nalg, inst(s))
        ensures s == t
      {
        assert !Lost(g, inst, a, uses, inst(s));
        assert s in uses && t in uses;
        assert s in kept && t in kept;
      }
    }
  }

  lemma {:induction false} WalkSettles(g: Users, inst: Spawn -> Alg, a: Alg, nalg: Option<Alg>,
      uses0: map<Spawn, Alg>, w: Walk, kept: set<Spawn>, uses: map<Spawn, Alg>)
    requires Walked(g, uses0, inst, a, w) && w.stack == [] && Marking(g, inst, a, nalg, w, kept)
    requires Standing(uses0, w, kept, uses)
    ensures Settled(g, inst, a, nalg, uses0, uses)
  {
    hide Registered, UsersOf, On, Apart, Path, Ordered, NewBelow, KeptBelow, KeptOne, Reached, Single, SuppliersLive,
        Dependent;
    if nalg.Some? {
      LiveIffSingle(g, inst, a, nalg, uses0, w, kept, uses);
      forall s | s in kept
        ensures s in w.done
      {
        assert Visited(w, s);
      }
      forall s | Reached(g, inst, a, s) && Some(inst(s)) == nalg
        ensures s in kept
      {
        assert Visited(w, s);
      }
    } else {
      NoneLeads(g, inst, a, uses);
    }
  }

  lemma {:induction false} NoneLeads(g: Users, inst: Spawn -> Alg, a: Alg, uses: map<Spawn, Alg>)
    ensures SuppliersLive(g, inst, a, None, uses) && Single(g, inst, a, None)
  {
  }

  /** A spawn reached is on the list of the algorithm it uses, which is the one removed or built on it. */
  lemma {:induction false} ReachedWhere(g: Users, uses: map<Spawn, Alg>, inst: Spawn -> Alg, a: Alg, c: Spawn)
    requires Registered(g, uses) && Reached(g, inst, a, c)
    ensures c in uses && On(g, uses[c], c) && (uses[c] == a || Dependent(g, inst, a, uses[c]))
  {
    hide On, Once;
    var p :| Chain(g, inst, a, p) && p[|p| - 1] == c;
    if |p| > 1 {
      ChainPrefix(g, inst, a, p);
      assert Reached(g, inst, a, p[|p| - 2]);
    }
  }

  // ---------------------------------------------------------------- the walk with its marks

  ghost predicate Going(g: Users, uses0: map<Spawn, Alg>, inst: Spawn -> Alg, a: Alg, nalg: Option<Alg>, w: Walk,
      kept: set<Spawn>, uses: map<Spawn, Alg>) {
    Walking(g, uses0, inst, a, w) && Marking(g, inst, a, nalg, w, kept) && Standing(uses0, w, kept, uses)
  }

  lemma {:induction false} KeptVisited(g: Users, inst: Spawn -> Alg, a: Alg, nalg: Option<Alg>, w: Walk,
      kept: set<Spawn>, s: Spawn)
    requires Marking(g, inst, a, nalg, w, kept) && s in kept
    ensures Visited(w, s)
  {
  }

  lemma {:induction false} GoingDown(g: Users, uses0: map<Spawn, Alg>, inst: Spawn -> Alg, a: Alg, nalg: Option<Alg>,
      w: Walk, kept: set<Spawn>, uses: map<Spawn, Alg>)
    requires Going(g, uses0, inst, a, nalg, w, kept, uses)
    requires if w.stack == [] then w.top != [] else UsersOf(w.users, inst(w.stack[0])) != []
    ensures var v := Down(inst, w);
            var s := v.stack[0];
            && Going(g, uses0, inst, a, nalg, v, Taken(inst, nalg, kept, s),
                     if Some(inst(s)) == nalg then uses else uses - {s})
            && Reached(g, inst, a, s) && |v.uses| < |w.uses|
  {
    hide Walking, Marks, Reached, UsersOf, Acyclic, Apart;
    var v := Down(inst, w);
    DownUses(inst, w);
    DownOnce(g, uses0, inst, a, w);
    hide Down;
    var s := v.stack[0];
    DownKeeps(g, uses0, inst, a, w);
    TakenIs(g, uses0, inst, a, w);
    NotVisited(g, uses0, inst, a, w, s);
    if s in kept { KeptVisited(g, inst, a, nalg, w, kept, s); }
    if nalg.Some? { DownMarks(g, uses0, inst, a, nalg, w, kept); }
  }

  lemma {:induction false} DownUses(inst: Spawn -> Alg, w: Walk)
    requires if w.stack == [] then w.top != [] else UsersOf(w.users, inst(w.stack[0])) != []
    ensures Down(inst, w).uses == w.uses - {Down(inst, w).stack[0]} && |Down(inst, w).stack| > 0
  {
  }

  lemma {:induction false} DownOnce(g: Users, uses0: map<Spawn, Alg>, inst: Spawn -> Alg, a: Alg, w: Walk)
    requires Walking(g, uses0, inst, a, w) && Apart(w)
    requires if w.stack == [] then w.top != [] else UsersOf(w.users, inst(w.stack[0])) != []
    ensures Apart(Down(inst, w))
  {
    hide Left, Sound, Complete, Local, Closed, Cleared, Apart;
    TakenIs(g, uses0, inst, a, w);
    DownApart(uses0, w, Down(inst, w).stack[0], Down(inst, w));
  }

  lemma {:induction false} NotVisited(g: Users, uses0: map<Spawn, Alg>, inst: Spawn -> Alg, a: Alg, w: Walk, s: Spawn)
    requires Walking(g, uses0, inst, a, w)
    ensures s in w.uses ==> !Visited(w, s)
  {
  }

  lemma {:induction false} GoingUp(g: Users, uses0: map<Spawn, Alg>, inst: Spawn -> Alg, a: Alg, nalg: Option<Alg>,
      w: Walk, kept: set<Spawn>, uses: map<Spawn, Alg>)
    requires Going(g, uses0, inst, a, nalg, w, kept, uses) && Registered(g, uses0)
    requires w.stack != [] && UsersOf(w.users, inst(w.stack[0])) == []
    ensures Going(g, uses0, inst, a, nalg, Up(w), Raised(w, kept),
                  if w.stack[0] in uses && |w.stack| > 1 && w.stack[1] !in uses
                  then uses[w.stack[1] := Under(inst, a, w.stack, 1)] else uses)
  {
    hide Walking, Marks, UsersOf, Acyclic, Registered, Under, Visited, Apart;
    UpApart(w);
    UpKeeps(g, uses0, inst, a, w);
    NotVisited(g, uses0, inst, a, w, w.stack[0]);
    assert Visited(w, w.stack[0]) by { OnStack(w, 0); }
    if nalg.Some? {
      UpMarks(g, uses0, inst, a, nalg, w, kept);
      if |w.stack| > 1 { UnderIs(g, uses0, inst, a, nalg, w, kept, 1); }
    }
  }

  lemma {:induction false} OnStack(w: Walk, i: nat)
    requires i < |w.stack|
    ensures Visited(w, w.stack[i])
  {
  }

  /** The instance of the spawn below on the path is the algorithm a spawn had. */
  lemma {:induction false} UnderIs(g: Users, uses0: map<Spawn, Alg>, inst: Spawn -> Alg, a: Alg, nalg: Option<Alg>,
      w: Walk, kept: set<Spawn>, i: nat)
    requires Marks(g, inst, a, nalg, w, kept) && Registered(g, uses0) && i < |w.stack|
    ensures w.stack[i] in uses0 && uses0[w.stack[i]] == Under(inst, a, w.stack, i)
  {
  }

  lemma {:induction false} GoingStarts(r: Removal, uses: map<Spawn, Alg>, inst: Spawn -> Alg, top: seq<Spawn>)
    requires Registered(r.users, uses) && !Dependent(r.users, inst, r.alg, r.alg)
    requires r.nalg.Some? ==> Acyclic(r.users, inst)
    requires Once(top) && forall s :: s in top <==> s in Only(UsersOf(r.users, r.alg), r.differ, r.mask)
    ensures var g := Graph(r);
            && Going(g, uses, inst, r.alg, r.nalg,
                     Walk(Hidden(r.users, r.nalg)[r.alg := []], uses, top, [], []), {}, uses)
            && Registered(g, uses) && !Dependent(g, inst, r.alg, r.alg)
  {
    hide Dependent, Acyclic, Only, Walking, Marks;
    OnceNone();
    var g := Graph(r);
    assert g[r.alg := []] == Hidden(r.users, r.nalg)[r.alg := []];
    var w := Walk(g[r.alg := []], uses, top, [], []);
    GraphUsers(r);
    GraphRegistered(r, uses);
    hide Graph, Hidden;
    WalkStarts(g, uses, inst, r.alg, top);
    if Dependent(g, inst, r.alg, r.alg) { DependentLess(g, r.users, inst, r.alg, r.alg); }
    if r.nalg.Some? {
      AcyclicLess(g, r.users, inst);
      MarksStart(g, inst, r.alg, r.nalg, w);
    }
  }

  lemma {:induction false} GraphRegistered(r: Removal, uses: map<Spawn, Alg>)
    requires Registered(r.users, uses)
    ensures Registered(Graph(r), uses)
  {
    hide Once, Only, Graph;
    GraphUsers(r);
    OnlyIs(UsersOf(r.users, r.alg), r.differ, r.mask);
    OnceNone();
  }

  lemma {:induction false} GoingAway(g: Users, uses0: map<Spawn, Alg>, inst: Spawn -> Alg, a: Alg, nalg: Option<Alg>,
      w: Walk, kept: set<Spawn>, uses: map<Spawn, Alg>)
    requires Going(g, uses0, inst, a, nalg, w, kept, uses) && !Dependent(g, inst, a, a)
    ensures w.stack != [] ==> inst(w.stack[0]) != a   // BUG_ON(&inst->alg == alg)
  {
  }

  lemma {:induction false} GoingEnds(g: Users, uses0: map<Spawn, Alg>, inst: Spawn -> Alg, a: Alg, nalg: Option<Alg>,
      w: Walk, kept: set<Spawn>, uses: map<Spawn, Alg>)
    requires Going(g, uses0, inst, a, nalg, w, kept, uses) && w.stack == [] && w.top == []
    ensures Walked(g, uses0, inst, a, w) && Marking(g, inst, a, nalg, w, kept) && Standing(uses0, w, kept, uses)
  {
    hide Walking, Walked, Marking, Standing;
    WalkEnds(g, uses0, inst, a, w);
  }

  lemma {:induction false} LostIs(g: Users, uses0: map<Spawn, Alg>, inst: Spawn -> Alg, a: Alg, w: Walk,
      uses: map<Spawn, Alg>, b: Alg)
    requires Walked(g, uses0, inst, a, w)
    ensures (exists s :: s in w.done && s !in uses && inst(s) == b) <==> Lost(g, inst, a, uses, b)
  {
  }

  // ---------------------------------------------------------------- putting back and removing

  /** The user lists when the walk is over: what the walk has left, the users that did not fit, the
      users of the replacement. */
  ghost predicate Remains(r: Removal, w: Walk, now: Users) {
    && w.users == Hidden(now, r.nalg)[r.alg := []]
    && Once(UsersOf(now, r.alg))
    && (forall s :: On(now, r.alg, s) <==> On(r.users, r.alg, s) && !Fits(r.differ, r.mask, s))
    && (forall b :: b != r.alg && Some(b) == r.nalg ==> UsersOf(now, b) == UsersOf(r.users, b))
  }

  lemma {:induction false} RemainsElsewhere(r: Removal, w: Walk, now: Users, b: Alg)
    requires Remains(r, w, now) && b != r.alg && Some(b) != r.nalg
    ensures UsersOf(now, b) == UsersOf(w.users, b)
  {
  }

  lemma {:induction false} RemainsStarts(r: Removal, w: Walk, now: Users)
    requires w.users == Hidden(r.users, r.nalg)[r.alg := []] && now == r.users[r.alg := UsersOf(now, r.alg)]
    requires Once(UsersOf(now, r.alg))
    requires forall s :: On(now, r.alg, s) <==> On(r.users, r.alg, s) && !Fits(r.differ, r.mask, s)
    ensures Remains(r, w, now)
  {
  }

  /** The walk scans the list that is really there. */
  lemma {:induction false} RemainsScanned(r: Removal, inst: Spawn -> Alg, w: Walk, now: Users)
    requires Remains(r, w, now) && (w.stack != [] ==> inst(w.stack[0]) != r.alg)
    ensures w.stack != [] ==>
              var b := inst(w.stack[0]);
              UsersOf(w.users, b) == if Some(b) == r.nalg then [] else UsersOf(now, b)
  {
  }

  lemma {:induction false} RemainsDown(r: Removal, inst: Spawn -> Alg, w: Walk, now: Users)
    requires Remains(r, w, now) && (w.stack != [] ==> inst(w.stack[0]) != r.alg)
    requires if w.stack == [] then w.top != [] else UsersOf(w.users, inst(w.stack[0])) != []
    ensures var v := Down(inst, w);
            && v.done == w.done
            && (if w.stack == [] then v.top == w.top[1..] && v.stack == [w.top[0]] && Remains(r, v, now)
                else var b := inst(w.stack[0]);
                     && v.top == w.top && UsersOf(now, b) != [] && v.stack == [UsersOf(now, b)[0]] + w.stack
                     && Remains(r, v, now[b := UsersOf(now, b)[1..]]))
  {
    hide Once, Fits;
    var v := Down(inst, w);
    if w.stack != [] {
      var b := inst(w.stack[0]);
      RemainsScanned(r, inst, w, now);
      var next := now[b := UsersOf(now, b)[1..]];
      assert v.users == Hidden(next, r.nalg)[r.alg := []];
      assert UsersOf(next, r.alg) == UsersOf(now, r.alg);
    }
  }

  lemma {:induction false} RemainsUp(r: Removal, w: Walk, now: Users)
    requires Remains(r, w, now) && w.stack != []
    ensures Remains(r, Up(w), now)
  {
  }

  /** No spawn walked is on a list. */
  lemma {:induction false} WalkedIsOff(r: Removal, uses0: map<Spawn, Alg>, inst: Spawn -> Alg, w: Walk, now: Users,
      b: Alg, c: Spawn)
    requires Registered(r.users, uses0) && Walked(Graph(r), uses0, inst, r.alg, w)
    requires Remains(r, w, now) && On(now, b, c)
    ensures c !in w.done && On(r.users, b, c)
  {
    hide Once, Reached, Graph, Only, Hidden, Fits;
    var g := Graph(r);
    GraphUsers(r);
    OnlyIs(UsersOf(r.users, r.alg), r.differ, r.mask);
    GraphRegistered(r, uses0);
    if b != r.alg && Some(b) != r.nalg {
      RemainsElsewhere(r, w, now, b);
      assert On(w.users, b, c);
    } else {
      assert On(r.users, b, c);
      if c in w.done {
        ReachedWhere(g, uses0, inst, r.alg, c);
        assert false;
      }
    }
  }

  /** What is on a list and was not walked has stayed there. */
  lemma {:induction false} UnreachedStays(r: Removal, uses0: map<Spawn, Alg>, inst: Spawn -> Alg, w: Walk, now: Users,
      b: Alg, c: Spawn)
    requires Registered(r.users, uses0) && Walked(Graph(r), uses0, inst, r.alg, w)
    requires Remains(r, w, now) && On(r.users, b, c) && c !in w.done
    ensures On(now, b, c)
  {
    hide Once, Reached, Graph, Only, Hidden, Fits, Registered;
    var g := Graph(r);
    GraphUsers(r);
    OnlyIs(UsersOf(r.users, r.alg), r.differ, r.mask);
    if b == r.alg {
      if Fits(r.differ, r.mask, c) { ReachedFirst(g, inst, r.alg, c); }
    } else if Some(b) != r.nalg {
      RemainsElsewhere(r, w, now, b);
      if Dependent(g, inst, r.alg, b) {
        var s :| Reached(g, inst, r.alg, s) && inst(s) == b;
        ReachedNext(g, inst, r.alg, s, c);
      }
    }
  }

  /** The user lists with the first i finished spawns dealt with. */
  ghost predicate Back(now: Users, uses: map<Spawn, Alg>, done: seq<Spawn>, i: nat, users: Users)
    requires i <= |done|
  {
    && (forall b, c :: On(users, b, c) <==> On(now, b, c) || (c in done[..i] && c in uses && uses[c] == b))
    && (forall b :: Once(UsersOf(users, b)))
    && (forall b :: (forall c :: c in done && c in uses ==> uses[c] != b) ==> UsersOf(users, b) == UsersOf(now, b))
  }

  /** What the second loop of crypto_remove_spawns relies on: nothing finished is on a list, and
      the instance of a spawn to be removed has no users, nor gets one back before. */
  ghost predicate Ready(inst: Spawn -> Alg, now: Users, uses: map<Spawn, Alg>, done: seq<Spawn>) {
    && Once(done) && (forall b :: Once(UsersOf(now, b)))
    && (forall b, c :: On(now, b, c) ==> c !in done)
    && (forall i :: 0 <= i < |done| && done[i] !in uses ==> UsersOf(now, inst(done[i])) == [])
    && (forall i, c :: 0 <= i < |done| && done[i] !in uses && c in done[..i] && c in uses ==> uses[c] != inst(done[i]))
  }

  lemma {:induction false} SomeOn(u: Users, b: Alg)
    ensures UsersOf(u, b) == [] || exists c :: On(u, b, c)
  {
    if UsersOf(u, b) != [] { assert On(u, b, UsersOf(u, b)[0]); }
  }

  lemma {:induction false} BackNext(inst: Spawn -> Alg, now: Users, uses: map<Spawn, Alg>, done: seq<Spawn>, i: nat,
      users: Users)
    requires Ready(inst, now, uses, done) && i < |done| && Back(now, uses, done, i, users)
    ensures var s := done[i];
            if s in uses then Back(now, uses, done, i + 1, users[uses[s] := [s] + UsersOf(users, uses[s])])
            else Back(now, uses, done, i + 1, users) && UsersOf(users, inst(s)) == []
  {
    var s := done[i];
    assert done[..i + 1] == done[..i] + [s];
    assert s in done && s !in done[..i];
    if s in uses {
      BackPut(now, uses, done, i, users);
    } else {
      SomeOn(users, inst(s));
    }
  }

  lemma {:induction false} BackPut(now: Users, uses: map<Spawn, Alg>, done: seq<Spawn>, i: nat, users: Users)
    requires Once(done) && (forall b, c :: On(now, b, c) ==> c !in done)
    requires i < |done| && Back(now, uses, done, i, users) && done[i] in uses
    ensures var s := done[i];
            Back(now, uses, done, i + 1, users[uses[s] := [s] + UsersOf(users, uses[s])])
  {
    var s := done[i];
    var t := uses[s];
    assert done[..i + 1] == done[..i] + [s];
    assert s in done && s !in done[..i];
    hide UsersOf, Once, On;
    assert !On(users, t, s);
    PutOn(users, t, s);
  }

  /** A spawn put on a list it was not on. */
  lemma {:induction false} PutOn(users: Users, t: Alg, s: Spawn)
    requires !On(users, t, s) && forall b :: Once(UsersOf(users, b))
    ensures var next := users[t := [s] + UsersOf(users, t)];
            && (forall b, c :: On(next, b, c) <==> On(users, b, c) || (b == t && c == s))
            && (forall b :: b != t ==> UsersOf(next, b) == UsersOf(users, b)) && (forall b :: Once(UsersOf(next, b)))
  {
  }

  lemma {:induction false} ReadyStarts(inst: Spawn -> Alg, now: Users, uses: map<Spawn, Alg>, done: seq<Spawn>)
    requires Ready(inst, now, uses, done)
    ensures Back(now, uses, done, 0, now)
  {
  }

  lemma {:induction false} WalkReady(r: Removal, uses0: map<Spawn, Alg>, inst: Spawn -> Alg, w: Walk, now: Users,
      kept: set<Spawn>, uses: map<Spawn, Alg>)
    requires Registered(r.users, uses0) && !Dependent(r.users, inst, r.alg, r.alg) && w.stack == []
    requires var g := Graph(r);
             && Walked(g, uses0, inst, r.alg, w) && Marking(g, inst, r.alg, r.nalg, w, kept)
             && Settled(g, inst, r.alg, r.nalg, uses0, uses)
    requires Remains(r, w, now) && Standing(uses0, w, kept, uses)
    ensures Ready(inst, now, uses, w.done)
  {
    assert Apart(w);
    hide Walked, Graph, Marking, Settled, Remains, Registered, Standing, Dependent, Once, UsersOf;
    forall b, c | On(now, b, c)
      ensures c !in w.done
    {
      WalkedIsOff(r, uses0, inst, w, now, b, c);
    }
    forall b
      ensures Once(UsersOf(now, b))
    {
      RemainsOnce(r, uses0, inst, w, now, b);
    }
    forall i | 0 <= i < |w.done| && w.done[i] !in uses
      ensures UsersOf(now, inst(w.done[i])) == []
      ensures forall c :: c in w.done[..i] && c in uses ==> uses[c] != inst(w.done[i])
    {
      RemovedHasNone(r, uses0, inst, w, now, uses, w.done[i]);
      forall c | c in w.done[..i] && c in uses
        ensures uses[c] != inst(w.done[i])
      {
        PutBackLater(r, uses0, inst, w, kept, uses, i, c);
      }
    }
  }

  lemma {:induction false} RemainsOnce(r: Removal, uses0: map<Spawn, Alg>, inst: Spawn -> Alg, w: Walk, now: Users,
      b: Alg)
    requires Registered(r.users, uses0) && Walked(Graph(r), uses0, inst, r.alg, w) && Remains(r, w, now)
    ensures Once(UsersOf(now, b))
  {
    hide Once, Graph, Hidden, On;
    if b != r.alg && Some(b) != r.nalg {
      RemainsElsewhere(r, w, now, b);
    }
  }

  lemma {:induction false} RemovedHasNone(r: Removal, uses0: map<Spawn, Alg>, inst: Spawn -> Alg, w: Walk, now: Users,
      uses: map<Spawn, Alg>, s: Spawn)
    requires !Dependent(r.users, inst, r.alg, r.alg)
    requires var g := Graph(r);
             Walked(g, uses0, inst, r.alg, w) && Settled(g, inst, r.alg, r.nalg, uses0, uses)
    requires Remains(r, w, now) && s in w.done && s !in uses
    ensures UsersOf(now, inst(s)) == []
  {
    hide Once, Graph, Reached, UsersOf, On, Single, SuppliersLive, Leads, Remains;
    var g := Graph(r);
    GraphUsers(r);
    var b := inst(s);
    assert Dependent(g, inst, r.alg, b);
    if b == r.alg { DependentLess(g, r.users, inst, r.alg, r.alg); }
    RemainsElsewhere(r, w, now, b);
  }

  lemma {:induction false} PutBackLater(r: Removal, uses0: map<Spawn, Alg>, inst: Spawn -> Alg, w: Walk,
      kept: set<Spawn>, uses: map<Spawn, Alg>, i: nat, c: Spawn)
    requires Registered(r.users, uses0) && i < |w.done| && c in w.done[..i] && c in uses
    requires var g := Graph(r);
             Walked(g, uses0, inst, r.alg, w) && Marking(g, inst, r.alg, r.nalg, w, kept)
    requires Standing(uses0, w, kept, uses)
    ensures uses[c] != inst(w.done[i])
  {
    hide Graph, Reached, UsersOf, On, Acyclic, Path, NewBelow, KeptLead, KeptBelow, KeptOne, Registered;
    var g := Graph(r);
    GraphRegistered(r, uses0);
    assert c in w.done && Reached(g, inst, r.alg, c);
    ReachedWhere(g, uses0, inst, r.alg, c);
    assert c in kept;
  }

  /** The user lists at the end: what was there and has its algorithm still. */
  lemma {:induction false} BackIs(r: Removal, uses0: map<Spawn, Alg>, inst: Spawn -> Alg, w: Walk, now: Users,
      uses: map<Spawn, Alg>, users: Users)
    requires Registered(r.users, uses0) && Remains(r, w, now)
    requires var g := Graph(r);
             Walked(g, uses0, inst, r.alg, w) && Settled(g, inst, r.alg, r.nalg, uses0, uses)
    requires Back(now, uses, w.done, |w.done|, users)
    ensures forall b, s :: On(users, b, s) <==> On(r.users, b, s) && s in uses
    ensures Registered(users, uses)
  {
    hide Walked, Graph, Remains, Settled, Once, UsersOf;
    var g := Graph(r);
    assert w.done[..|w.done|] == w.done;
    forall b, s
      ensures On(users, b, s) <==> On(r.users, b, s) && s in uses
    {
      BackOn(r, uses0, inst, w, now, uses, b, s);
    }
    SettledSame(g, inst, r.alg, r.nalg, uses0, uses);
  }

  lemma {:induction false} SettledSame(g: Users, inst: Spawn -> Alg, a: Alg, nalg: Option<Alg>,
      uses0: map<Spawn, Alg>, uses: map<Spawn, Alg>)
    requires Settled(g, inst, a, nalg, uses0, uses)
    ensures forall s :: s in uses ==> s in uses0 && uses[s] == uses0[s]
  {
  }

  lemma {:induction false} BackOn(r: Removal, uses0: map<Spawn, Alg>, inst: Spawn -> Alg, w: Walk, now: Users,
      uses: map<Spawn, Alg>, b: Alg, s: Spawn)
    requires Registered(r.users, uses0) && Remains(r, w, now)
    requires var g := Graph(r);
             Walked(g, uses0, inst, r.alg, w) && Settled(g, inst, r.alg, r.nalg, uses0, uses)
    ensures (On(now, b, s) || (s in w.done && s in uses && uses[s] == b)) <==> On(r.users, b, s) && s in uses
  {
    hide Graph, Remains, Once, UsersOf, Reached, Leads, Single, SuppliersLive, On;
    var g := Graph(r);
    GraphUsers(r);
    GraphRegistered(r, uses0);
    if On(now, b, s) { WalkedIsOff(r, uses0, inst, w, now, b, s); }
    if s in w.done { ReachedWhere(g, uses0, inst, r.alg, s); }
    if On(r.users, b, s) && s !in w.done { UnreachedStays(r, uses0, inst, w, now, b, s); }
  }

  /** The lists of what is not built on the algorithm, and the replacement's, are as they were. */
  lemma {:induction false} BackElsewhere(r: Removal, uses0: map<Spawn, Alg>, inst: Spawn -> Alg, w: Walk, now: Users,
      uses: map<Spawn, Alg>, users: Users, b: Alg)
    requires Registered(r.users, uses0) && Remains(r, w, now) && Back(now, uses, w.done, |w.done|, users)
    requires var g := Graph(r);
             && Walked(g, uses0, inst, r.alg, w) && Settled(g, inst, r.alg, r.nalg, uses0, uses)
             && b != r.alg && (Some(b) == r.nalg || !Dependent(g, inst, r.alg, b))
    ensures UsersOf(users, b) == UsersOf(r.users, b)
  {
    hide Graph, Once, Reached, Single, SuppliersLive, Leads, Remains;
    var g := Graph(r);
    GraphUsers(r);
    GraphRegistered(r, uses0);
    forall c | c in w.done && c in uses
      ensures uses[c] != b
    {
      ReachedWhere(g, uses0, inst, r.alg, c);
    }
    assert UsersOf(now, b) == UsersOf(r.users, b) by {
      if Some(b) == r.nalg { RemainsReplacement(r, w, now, b); } else { RemainsElsewhere(r, w, now, b); }
    }
  }

  lemma {:induction false} RemainsReplacement(r: Removal, w: Walk, now: Users, b: Alg)
    requires Remains(r, w, now) && b != r.alg && Some(b) == r.nalg
    ensures UsersOf(now, b) == UsersOf(r.users, b)
  {
  }

  /** Without a replacement: exactly the uses built on the algorithm go, and exactly their instances die. */
  lemma {:induction false} WithoutReplacement(u: Users, uses0: map<Spawn, Alg>, inst: Spawn -> Alg, a: Alg,
      flags: Alg -> bv32, mask: Spawn -> bv32, uses: map<Spawn, Alg>)
    requires var g := Graph(Without(u, a, flags, mask));
             Settled(g, inst, a, None, uses0, uses)
    ensures forall s :: s in uses <==> s in uses0 && !Reached(u, inst, a, s)
    ensures var g := Graph(Without(u, a, flags, mask));
            forall b :: Lost(g, inst, a, uses, b) <==> Dependent(u, inst, a, b)
  {
    hide Reached, Graph, Leads, Single, SuppliersLive, On, Differ;
    var g := Graph(Without(u, a, flags, mask));
    GraphIsAll(u, a, flags, mask);
    forall s
      ensures Reached(g, inst, a, s) <==> Reached(u, inst, a, s)
    {
      if Reached(g, inst, a, s) { ReachedLess(g, u, inst, a, s); }
      if Reached(u, inst, a, s) { ReachedLess(u, g, inst, a, s); }
    }
    forall s | Reached(g, inst, a, s)
      ensures s !in uses
    {
      assert !Leads(g, inst, None, inst(s)) by { LeadsSome(g, inst, inst(s)); }
    }
  }

  lemma {:induction false} LeadsSome(g: Users, inst: Spawn -> Alg, b: Alg)
    ensures !Leads(g, inst, None, b)
  {
  }

  // ---------------------------------------------------------------- an instance with two spawns

  /** Instances numbered after what they use. */
  ghost predicate Rising(u: Users, inst: Spawn -> Alg) {
    forall b, s :: On(u, b, s) ==> b < inst(s)
  }

  lemma {:induction false} RisingChain(u: Users, inst: Spawn -> Alg, b: Alg, p: seq<Spawn>)
    requires Rising(u, inst) && Chain(u, inst, b, p)
    ensures b < inst(p[|p| - 1])
    decreases |p|
  {
    hide On;
    if |p| > 1 {
      ChainPrefix(u, inst, b, p);
      RisingChain(u, inst, b, p[..|p| - 1]);
    }
  }

  lemma {:induction false} RisingAcyclic(u: Users, inst: Spawn -> Alg)
    requires Rising(u, inst)
    ensures Acyclic(u, inst)
  {
    hide Rising, On;
    forall b
      ensures !Dependent(u, inst, b, b)
    {
      if Dependent(u, inst, b, b) {
        var s :| Reached(u, inst, b, s) && inst(s) == b;
        var p :| Chain(u, inst, b, p) && p[|p| - 1] == s;
        RisingChain(u, inst, b, p);
      }
    }
  }

  function TwiceUsers(): Users { map[0 := [10, 11], 1 := [12]] }

  function TwiceUses(): map<Spawn, Alg> { map[10 := 0, 11 := 0, 12 := 1] }

  function TwiceInst(s: Spawn): Alg { if s == 12 then 2 else 1 }

  /** Algorithm 0 is used twice by instance 1, on which its replacement, instance 2, is built: whatever
      the walk leaves, instance 1 has lost a spawn. */
  lemma {:induction false} TwiceUsed(mask: Spawn -> bv32)
    ensures Registered(TwiceUsers(), TwiceUses()) && Acyclic(TwiceUsers(), TwiceInst)
    ensures var g := Graph(Removal(TwiceUsers(), 0, Some(2), 0, mask));
            && Leads(g, TwiceInst, Some(2), 1)
            && (forall left :: Settled(g, TwiceInst, 0, Some(2), TwiceUses(), left) ==> Lost(g, TwiceInst, 0, left, 1))
  {
    hide Acyclic, Leads, Settled, Lost, Reached, On, Graph;
    TwiceRegistered();
    RisingAcyclic(TwiceUsers(), TwiceInst);
    var g := Graph(Removal(TwiceUsers(), 0, Some(2), 0, mask));
    TwiceReached(TwiceUsers(), TwiceInst, mask);
    AcyclicLess(g, TwiceUsers(), TwiceInst);
    NotItself(g, TwiceInst, 2);
    forall left | Settled(g, TwiceInst, 0, Some(2), TwiceUses(), left)
      ensures Lost(g, TwiceInst, 0, left, 1)
    {
      TwiceLost(g, TwiceUses(), TwiceInst, left);
    }
  }

  lemma {:induction false} NotItself(g: Users, inst: Spawn -> Alg, b: Alg)
    requires Acyclic(g, inst)
    ensures !Leads(g, inst, Some(b), b)
  {
  }

  lemma {:induction false} TwiceRegistered()
    ensures Registered(TwiceUsers(), TwiceUses()) && Rising(TwiceUsers(), TwiceInst)
  {
    var u := TwiceUsers();
    forall b
      ensures UsersOf(u, b) == if b == 0 then [10, 11] else if b == 1 then [12] else []
    {
    }
  }

  lemma {:induction false} TwiceReached(u: Users, inst: Spawn -> Alg, mask: Spawn -> bv32)
    requires u == map[0 := [10, 11], 1 := [12]] && inst(10) == 1 && inst(11) == 1 && inst(12) == 2
    ensures var g := Graph(Removal(u, 0, Some(2), 0, mask));
            && Reached(g, inst, 0, 10) && Reached(g, inst, 0, 11) && Leads(g, inst, Some(2), 1)
            && (forall b, s :: On(g, b, s) ==> On(u, b, s))
  {
  }

  lemma {:induction false} TwiceLost(g: Users, uses: map<Spawn, Alg>, inst: Spawn -> Alg, left: map<Spawn, Alg>)
    requires Settled(g, inst, 0, Some(2), uses, left)
    requires Reached(g, inst, 0, 10) && Reached(g, inst, 0, 11) && inst(10) == 1 && inst(11) == 1
    requires Leads(g, inst, Some(2), 1)
    requires forall s :: inst(s) == 1 || inst(s) == 2
    requires !Leads(g, inst, Some(2), 2)
    ensures Lost(g, inst, 0, left, 1)
  {
  }
}
