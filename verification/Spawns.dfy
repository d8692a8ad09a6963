/**
 Removing an algorithm from the crypto registry (algapi.c).  A spawn is a use of an algorithm by an
 instance; the instance is itself an algorithm and may have users of its own.  When an algorithm
 goes away, crypto_remove_spawns walks everything built on it depth first, taking the spawns off
 their user lists as it goes.
 */
module Spawns {

  type Alg = int
  type Spawn = int

  /** The registry's user lists (cra_users); an algorithm without an entry has no users. */
  type Users = map<Alg, seq<Spawn>>

  function UsersOf(u: Users, a: Alg): seq<Spawn> {
    if a in u then u[a] else []
  }

  predicate On(u: Users, a: Alg, s: Spawn) {
    s in UsersOf(u, a)
  }

  /** A chain of uses from an algorithm: each spawn is a user of the instance before it. */
  ghost predicate Chain(u: Users, inst: Spawn -> Alg, a: Alg, p: seq<Spawn>) {
    && p != []
    && On(u, a, p[0])
    && forall i :: 0 < i < |p| ==> On(u, inst(p[i - 1]), p[i])
  }

  ghost predicate Reached(u: Users, inst: Spawn -> Alg, a: Alg, s: Spawn) {
    exists p :: Chain(u, inst, a, p) && p[|p| - 1] == s
  }

  /** The instance b is built, directly or not, on the algorithm a. */
  ghost predicate Dependent(u: Users, inst: Spawn -> Alg, a: Alg, b: Alg) {
    exists s :: Reached(u, inst, a, s) && inst(s) == b
  }

  lemma {:induction false} ReachedFirst(u: Users, inst: Spawn -> Alg, a: Alg, s: Spawn)
    requires On(u, a, s)
    ensures Reached(u, inst, a, s)
  {
    assert Chain(u, inst, a, [s]);
  }

  lemma {:induction false} ReachedNext(u: Users, inst: Spawn -> Alg, a: Alg, s: Spawn, t: Spawn)
    requires Reached(u, inst, a, s) && On(u, inst(s), t)
    ensures Reached(u, inst, a, t)
  {
    var p :| Chain(u, inst, a, p) && p[|p| - 1] == s;
    assert Chain(u, inst, a, p + [t]) && (p + [t])[|p|] == t;
  }

  /** The registry as registration leaves it: a spawn is on the list of the algorithm it names, once. */
  ghost predicate Registered(u: Users, uses: map<Spawn, Alg>) {
    && (forall b, s :: On(u, b, s) ==> s in uses && uses[s] == b)
    && (forall b :: Once(UsersOf(u, b)))
  }

  predicate Once(l: seq<Spawn>) {
    forall i, j :: 0 <= i < j < |l| ==> l[i] != l[j]
  }

  // ---------------------------------------------------------------- the walk

  /** The lists the walk moves spawns between: what is left of the user lists, the uses not yet
      cleared, the spawns of the removed algorithm itself, the path walked down, and what is finished. */
  datatype Walk = Walk(users: Users, uses: map<Spawn, Alg>, top: seq<Spawn>, stack: seq<Spawn>, done: seq<Spawn>)

  ghost predicate Visited(w: Walk, s: Spawn) {
    s in w.stack || s in w.done
  }

  /** What is still on a list belongs there and has not been cleared. */
  ghost predicate Left(u: Users, a: Alg, w: Walk) {
    && UsersOf(w.users, a) == []
    && Once(w.top) && (forall s :: s in w.top ==> On(u, a, s) && s in w.uses && w.uses[s] == a)
    && (forall b, s :: On(w.users, b, s) ==> On(u, b, s) && s in w.uses && w.uses[s] == b)
    && (forall b :: Once(UsersOf(w.users, b)))
  }

  /** Only dependents are visited ... */
  ghost predicate Sound(u: Users, inst: Spawn -> Alg, a: Alg, w: Walk) {
    forall s :: Visited(w, s) ==> Reached(u, inst, a, s)
  }

  /** ... no spawn is lost ... */
  ghost predicate Complete(u: Users, a: Alg, w: Walk) {
    && (forall s :: On(u, a, s) ==> s in w.top || Visited(w, s))
    && (forall b, s :: b != a && On(u, b, s) ==> On(w.users, b, s) || Visited(w, s))
  }

  /** ... what is finished has nothing left built on it ... */
  ghost predicate Closed(inst: Spawn -> Alg, w: Walk) {
    forall s :: s in w.done ==> UsersOf(w.users, inst(s)) == []
  }

  /** ... only the lists of visited instances change ... */
  ghost predicate Local(u: Users, inst: Spawn -> Alg, a: Alg, w: Walk) {
    forall b :: b != a && UsersOf(w.users, b) != UsersOf(u, b) ==> exists s :: Visited(w, s) && inst(s) == b
  }

  /** ... and exactly the visited spawns are cleared. */
  ghost predicate Cleared(uses: map<Spawn, Alg>, w: Walk) {
    && w.uses.Keys <= uses.Keys
    && (forall s :: s in w.uses ==> w.uses[s] == uses[s] && !Visited(w, s))
    && (forall s :: s in uses && !Visited(w, s) ==> s in w.uses)
  }

  ghost predicate Walking(u: Users, uses: map<Spawn, Alg>, inst: Spawn -> Alg, a: Alg, w: Walk) {
    && Left(u, a, w) && Sound(u, inst, a, w) && Complete(u, a, w)
    && Closed(inst, w) && Local(u, inst, a, w) && Cleared(uses, w)
  }

  /** Down: the first spawn of `top`, or of the list of the instance last walked into. */
  function Down(inst: Spawn -> Alg, w: Walk): Walk
    requires if w.stack == [] then w.top != [] else UsersOf(w.users, inst(w.stack[0])) != []
  {
    if w.stack == [] then
      w.(top := w.top[1..], stack := [w.top[0]], uses := w.uses - {w.top[0]})
    else
      var b := inst(w.stack[0]);
      var s := w.users[b][0];
      w.(users := w.users[b := w.users[b][1..]], stack := [s] + w.stack, uses := w.uses - {s})
  }

  /** Up: the last spawn walked into is finished. */
  function Up(w: Walk): Walk
    requires w.stack != []
  {
    w.(stack := w.stack[1..], done := [w.stack[0]] + w.done)
  }

  lemma {:induction false} TailOnce(l: seq<Spawn>)
    requires l != [] && Once(l)
    ensures Once(l[1..]) && (forall s :: s in l[1..] <==> s in l && s != l[0])
  {
  }

  lemma {:induction false} UpVisits(w: Walk)
    requires w.stack != []
    ensures forall s :: Visited(Up(w), s) <==> Visited(w, s)
    ensures forall s :: s in Up(w).done <==> s in w.done || s == w.stack[0]
  {
  }

  lemma {:induction false} UpKeeps(u: Users, uses: map<Spawn, Alg>, inst: Spawn -> Alg, a: Alg, w: Walk)
    requires Walking(u, uses, inst, a, w) && w.stack != [] && UsersOf(w.users, inst(w.stack[0])) == []
    ensures Walking(u, uses, inst, a, Up(w))
  {
    hide Visited, Reached, Once, UsersOf;
    UpVisits(w);
    forall b | b != a && UsersOf(w.users, b) != UsersOf(u, b)
      ensures exists s :: Visited(Up(w), s) && inst(s) == b
    {
      var s :| Visited(w, s) && inst(s) == b;
      assert Visited(Up(w), s);
    }
  }

  /** What a step down does to the lists, whichever list it takes the spawn s from. */
  ghost predicate Took(u: Users, inst: Spawn -> Alg, a: Alg, w: Walk, s: Spawn, v: Walk) {
    && v.stack == [s] + w.stack && v.done == w.done && v.uses == w.uses - {s}
    && (forall b, x :: On(v.users, b, x) <==> On(w.users, b, x) && x != s)
    && (forall x :: x in v.top <==> x in w.top && x != s)
    && (forall b :: UsersOf(v.users, b) != UsersOf(w.users, b) ==> w.stack != [] && b == inst(w.stack[0]))
    && Once(v.top) && (forall b :: Once(UsersOf(v.users, b)))
    && s in w.uses && Reached(u, inst, a, s)
  }

  lemma {:induction false} DownTop(u: Users, inst: Spawn -> Alg, a: Alg, w: Walk)
    requires Left(u, a, w) && w.stack == [] && w.top != []
    ensures Took(u, inst, a, w, w.top[0], Down(inst, w))
  {
  }

  lemma {:induction false} DownUsers(u: Users, inst: Spawn -> Alg, a: Alg, w: Walk)
    requires Left(u, a, w) && Sound(u, inst, a, w) && w.stack != [] && UsersOf(w.users, inst(w.stack[0])) != []
    ensures Took(u, inst, a, w, w.users[inst(w.stack[0])][0], Down(inst, w))
  {
    hide Reached, Once;
    var b := inst(w.stack[0]);
    var s := w.users[b][0];
    TailOnce(w.users[b]);
    assert Visited(w, w.stack[0]);
    assert On(w.users, b, s);
    ReachedNext(u, inst, a, w.stack[0], s);
    StillOnTop(u, a, w, s);
    var v := Down(inst, w);
    assert v.users == w.users[b := w.users[b][1..]];
    forall c
      ensures c != b ==> UsersOf(v.users, c) == UsersOf(w.users, c)
    {
    }
    assert UsersOf(v.users, b) == UsersOf(w.users, b)[1..];
  }

  lemma {:induction false} DownTakes(u: Users, uses: map<Spawn, Alg>, inst: Spawn -> Alg, a: Alg,
      w: Walk) returns (s: Spawn)
    requires Walking(u, uses, inst, a, w)
    requires if w.stack == [] then w.top != [] else UsersOf(w.users, inst(w.stack[0])) != []
    ensures Took(u, inst, a, w, s, Down(inst, w))
  {
    hide Took, Down, Left, Sound, Complete, Local, Closed, Cleared;
    if w.stack == [] {
      s := w.top[0];
      DownTop(u, inst, a, w);
    } else {
      s := w.users[inst(w.stack[0])][0];
      DownUsers(u, inst, a, w);
    }
  }

  /** A spawn of another list is not in `top`, and is on one list only. */
  lemma {:induction false} StillOnTop(u: Users, a: Alg, w: Walk, s: Spawn)
    requires Left(u, a, w) && s in w.uses
    ensures s in w.top ==> w.uses[s] == a
    ensures forall b :: On(w.users, b, s) ==> w.uses[s] == b && b != a
  {
  }

  lemma {:induction false} TakenVisits(u: Users, inst: Spawn -> Alg, a: Alg, w: Walk, s: Spawn, v: Walk)
    requires Took(u, inst, a, w, s, v)
    ensures forall x :: Visited(v, x) <==> Visited(w, x) || x == s
    ensures forall b :: UsersOf(w.users, b) == [] ==> UsersOf(v.users, b) == []
  {
    hide Reached, Once;
    forall b
      ensures UsersOf(w.users, b) == [] ==> UsersOf(v.users, b) == []
    {
      if UsersOf(v.users, b) != [] { assert On(v.users, b, UsersOf(v.users, b)[0]); }
    }
  }

  lemma {:induction false} TakenLocal(u: Users, inst: Spawn -> Alg, a: Alg, w: Walk, s: Spawn, v: Walk)
    requires Local(u, inst, a, w) && Took(u, inst, a, w, s, v)
    ensures Local(u, inst, a, v)
  {
    hide Reached, Once, UsersOf;
    TakenVisits(u, inst, a, w, s, v);
    forall b | b != a && UsersOf(v.users, b) != UsersOf(u, b)
      ensures exists x :: Visited(v, x) && inst(x) == b
    {
      if UsersOf(v.users, b) == UsersOf(w.users, b) {
        var x :| Visited(w, x) && inst(x) == b;
        assert Visited(v, x);
      } else {
        assert Visited(v, w.stack[0]);
      }
    }
  }

  lemma {:induction false} TakenKeeps(u: Users, uses: map<Spawn, Alg>, inst: Spawn -> Alg, a: Alg, w: Walk, s: Spawn,
      v: Walk)
    requires Walking(u, uses, inst, a, w) && Took(u, inst, a, w, s, v)
    ensures Walking(u, uses, inst, a, v)
  {
    hide Reached, Once, UsersOf, Visited, Local;
    TakenVisits(u, inst, a, w, s, v);
    TakenLocal(u, inst, a, w, s, v);
  }

  lemma {:induction false} DownKeeps(u: Users, uses: map<Spawn, Alg>, inst: Spawn -> Alg, a: Alg, w: Walk)
    requires Walking(u, uses, inst, a, w)
    requires if w.stack == [] then w.top != [] else UsersOf(w.users, inst(w.stack[0])) != []
    ensures Walking(u, uses, inst, a, Down(inst, w))
    ensures Reached(u, inst, a, Down(inst, w).stack[0]) && |Down(inst, w).uses| < |w.uses|
  {
    hide Walking, Reached, Down;
    var s := DownTakes(u, uses, inst, a, w);
    TakenKeeps(u, uses, inst, a, w, s, Down(inst, w));
    assert (w.uses - {s}).Keys == w.uses.Keys - {s};
  }

  lemma {:induction false} ChainPrefix(u: Users, inst: Spawn -> Alg, a: Alg, p: seq<Spawn>)
    requires Chain(u, inst, a, p) && |p| > 1
    ensures var n := |p| - 1;
            Chain(u, inst, a, p[..n]) && p[..n][n - 1] == p[n - 1] && On(u, inst(p[n - 1]), p[n])
  {
  }

  /** When the path is empty and nothing is left of `top`, every dependent has been visited. */
  lemma {:induction false} AllVisited(u: Users, uses: map<Spawn, Alg>, inst: Spawn -> Alg, a: Alg, w: Walk,
      p: seq<Spawn>)
    requires Walking(u, uses, inst, a, w) && w.stack == [] && w.top == [] && Chain(u, inst, a, p)
    ensures p[|p| - 1] in w.done
    decreases |p|
  {
    assert p != [];
    hide Left, Sound, Local, Cleared, Chain;
    var n := |p| - 1;
    if n == 0 {
      FirstVisited(u, inst, a, w, p);
    } else {
      ChainPrefix(u, inst, a, p);
      AllVisited(u, uses, inst, a, w, p[..n]);
      assert Visited(w, p[n]);
    }
  }

  lemma {:induction false} FirstVisited(u: Users, inst: Spawn -> Alg, a: Alg, w: Walk, p: seq<Spawn>)
    requires Complete(u, a, w) && w.stack == [] && w.top == [] && Chain(u, inst, a, p)
    ensures p[0] in w.done
  {
  }

  lemma {:induction false} WalkStarts(u: Users, uses: map<Spawn, Alg>, inst: Spawn -> Alg, a: Alg, top: seq<Spawn>)
    requires Registered(u, uses) && Once(top) && forall s :: s in top <==> On(u, a, s)
    ensures Walking(u, uses, inst, a, Walk(u[a := []], uses, top, [], []))
  {
    hide Reached, Once;
    var w := Walk(u[a := []], uses, top, [], []);
    assert Once([]) by { OnceNone(); }
    assert forall s :: !Visited(w, s);
    forall b
      ensures UsersOf(w.users, b) == if b == a then [] else UsersOf(u, b)
      ensures forall s :: On(w.users, b, s) <==> b != a && On(u, b, s)
    {
    }
  }

  lemma {:induction false} OnceNone()
    ensures Once([])
  {
  }

  /** The registry once the walk is over. */
  ghost predicate Walked(u: Users, uses: map<Spawn, Alg>, inst: Spawn -> Alg, a: Alg, w: Walk) {
    && (forall s :: s in w.done <==> Reached(u, inst, a, s))
    && UsersOf(w.users, a) == []
    && (forall b :: Dependent(u, inst, a, b) ==> UsersOf(w.users, b) == [])
    && (forall b :: b != a && !Dependent(u, inst, a, b) ==> UsersOf(w.users, b) == UsersOf(u, b))
    && (forall s :: s in w.uses <==> s in uses && !Reached(u, inst, a, s))
    && Registered(w.users, w.uses)
  }

  lemma {:induction false} WalkEnds(u: Users, uses: map<Spawn, Alg>, inst: Spawn -> Alg, a: Alg, w: Walk)
    requires Walking(u, uses, inst, a, w) && w.stack == [] && w.top == []
    ensures Walked(u, uses, inst, a, w)
  {
    WalkEndsDone(u, uses, inst, a, w);
    hide Reached, Complete, Once, UsersOf;
    forall b | b != a && UsersOf(w.users, b) != UsersOf(u, b)
      ensures Dependent(u, inst, a, b)
    {
      var s :| Visited(w, s) && inst(s) == b;
      assert Reached(u, inst, a, s);
    }
  }

  lemma {:induction false} WalkEndsDone(u: Users, uses: map<Spawn, Alg>, inst: Spawn -> Alg, a: Alg, w: Walk)
    requires Walking(u, uses, inst, a, w) && w.stack == [] && w.top == []
    ensures forall s :: s in w.done <==> Reached(u, inst, a, s)
    ensures forall s :: Visited(w, s) <==> s in w.done
  {
    forall s | Reached(u, inst, a, s)
      ensures s in w.done
    {
      var p :| Chain(u, inst, a, p) && p[|p| - 1] == s;
      AllVisited(u, uses, inst, a, w, p);
    }
    forall s | s in w.done
      ensures Reached(u, inst, a, s)
    {
      assert Visited(w, s);
    }
  }
}
