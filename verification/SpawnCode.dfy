/**
 crypto_remove_spawns as it changes the registry (algapi.c), with and without a replacement.
 */
module SpawnCode {
  import opened Lists
  import opened Spawns
  import opened SpawnMarks

  class Registry {
    const inst: Spawn -> Alg        // the instance a spawn belongs to
    const mask: Spawn -> bv32       // the flag bits a spawn cares for
    const pinnable: set<Alg>        // instances whose template's module can still be pinned
    var users: Users
    var uses: map<Spawn, Alg>       // spawn->alg; no entry is NULL
    var dead: set<Alg>              // CRYPTO_ALG_DEAD
    var hashed: set<Alg>            // instances on their template's list

    constructor (inst: Spawn -> Alg, mask: Spawn -> bv32, pinnable: set<Alg>, users: Users, uses: map<Spawn, Alg>,
        dead: set<Alg>, hashed: set<Alg>)
      requires Registered(users, uses)
      ensures this.inst == inst && this.mask == mask && this.pinnable == pinnable && this.users == users
      ensures this.uses == uses
      ensures this.dead == dead && this.hashed == hashed
    {
      this.inst, this.mask, this.pinnable := inst, mask, pinnable;
      this.users, this.uses, this.dead, this.hashed := users, uses, dead, hashed;
    }

    /** The first loop of crypto_remove_spawns: the users that the replacement would do for are taken. */
    method TakeUsers(a: Alg, differ: bv32) returns (top: seq<Spawn>)
      requires Registered(users, uses)
      modifies this`users
      ensures forall b :: b != a ==> UsersOf(users, b) == UsersOf(old(users), b)
      ensures users == old(users)[a := UsersOf(users, a)]
      ensures Once(top) && forall s :: s in top <==> s in Only(UsersOf(old(users), a), differ, mask)
      ensures Once(UsersOf(users, a)) && forall s :: On(users, a, s) <==> On(old(users), a, s) && !Fits(differ, mask, s)
    {
      var l := UsersOf(users, a);
      OnlyIs(l, differ, mask);
      top := [];
      var rest: seq<Spawn> := [];
      for i := 0 to |l|
        invariant Once(top) && Once(rest)
        invariant forall s :: s in top <==> s in l[..i] && Fits(differ, mask, s)
        invariant forall s :: s in rest <==> s in l[..i] && !Fits(differ, mask, s)
      {
        assert l[i] !in l[..i];
        if Fits(differ, mask, l[i]) {
          top := [l[i]] + top;
        } else {
          rest := rest + [l[i]];
        }
      }
      assert l[..|l|] == l;
      users := users[a := rest];
    }

    /** The list being scanned: `top`, or the users of the instance last walked into unless that is
        the replacement, where the scan breaks off. */
    function Scanned(top: seq<Spawn>, stack: seq<Spawn>, nalg: Option<Alg>): seq<Spawn>
      reads this
    {
      if stack == [] then top
      else if Some(inst(stack[0])) == nalg then []
      else UsersOf(users, inst(stack[0]))
    }

    /** One spawn leaves the list being scanned, and its algorithm unless its instance is the replacement. */
    method StepDown(top0: seq<Spawn>, stack: seq<Spawn>, nalg: Option<Alg>) returns (top: seq<Spawn>, s: Spawn)
      requires Scanned(top0, stack, nalg) != []
      modifies this`users, this`uses
      ensures s == old(Scanned(top0, stack, nalg))[0]
      ensures if stack == [] then top == top0[1..] && users == old(users)
              else top == top0 && users == old(users)[inst(stack[0]) := UsersOf(old(users), inst(stack[0]))[1..]]
      ensures uses == if Some(inst(s)) == nalg then old(uses) else old(uses) - {s}
    {
      top := top0;
      if stack == [] {
        s := top[0];
        top := top[1..];
      } else {
        var b := inst(stack[0]);
        s := users[b][0];
        users := users[b := users[b][1..]];
      }
      if Some(inst(s)) != nalg {
        uses := uses - {s};
      }
    }

    /** crypto_more_spawns: the path loses its last spawn, and the one below it gets its algorithm back
        if that spawn has kept its own. */
    method StepUp(a: Alg, stack0: seq<Spawn>, done0: seq<Spawn>) returns (stack: seq<Spawn>, done: seq<Spawn>)
      requires stack0 != []
      modifies this`uses
      ensures stack == stack0[1..] && done == [stack0[0]] + done0
      ensures uses == if stack0[0] in old(uses) && |stack0| > 1 && stack0[1] !in old(uses)
                      then old(uses)[stack0[1] := Under(inst, a, stack0, 1)] else old(uses)
    {
      var s := stack0[0];
      if s in uses && |stack0| > 1 && stack0[1] !in uses {
        uses := uses[stack0[1] := if |stack0| == 2 then a else inst(stack0[2])];
      }
      stack := stack0[1..];
      done := [s] + done0;
    }

    /** How far the walk has come: the lists it works on are those of `w`. */
    ghost predicate At(r: Removal, uses0: map<Spawn, Alg>, w: Walk, kept: set<Spawn>,
        top: seq<Spawn>, stack: seq<Spawn>, done: seq<Spawn>)
      reads this
    {
      && Going(Graph(r), uses0, inst, r.alg, r.nalg, w, kept, uses)
      && Remains(r, w, users)
      && w.top == top && w.stack == stack && w.done == done
    }

    /** The while loop of crypto_remove_spawns: down the user lists until there is nothing to take. */
    method Descend(a: Alg, nalg: Option<Alg>, top0: seq<Spawn>, stack0: seq<Spawn>,
        ghost r: Removal, ghost uses0: map<Spawn, Alg>, ghost w0: Walk, ghost kept0: set<Spawn>, ghost done: seq<Spawn>)
      returns (top: seq<Spawn>, stack: seq<Spawn>, ghost w: Walk, ghost kept: set<Spawn>)
      requires At(r, uses0, w0, kept0, top0, stack0, done)
      requires r.alg == a && r.nalg == nalg && !Dependent(Graph(r), inst, a, a)
      modifies this`users, this`uses
      ensures At(r, uses0, w, kept, top, stack, done)
      ensures if stack == [] then top == [] else UsersOf(w.users, inst(stack[0])) == []
      ensures |w.uses| < |w0.uses| || (|w.uses| == |w0.uses| && stack == stack0)
    {
      hide Going, Reached, Down, Dependent, Graph, Remains;
      ghost var g := Graph(r);
      top, stack, w, kept := top0, stack0, w0, kept0;
      while Scanned(top, stack, nalg) != []
        invariant At(r, uses0, w, kept, top, stack, done)
        invariant |w.uses| < |w0.uses| || (|w.uses| == |w0.uses| && stack == stack0)
        decreases |w.uses|
      {
        GoingAway(g, uses0, inst, a, nalg, w, kept, uses);
        RemainsScanned(r, inst, w, users);
        RemainsDown(r, inst, w, users);
        GoingDown(g, uses0, inst, a, nalg, w, kept, uses);
        ghost var v := Down(inst, w);
        var s;
        top, s := StepDown(top, stack, nalg);
        stack := [s] + stack;
        w, kept := v, Taken(inst, nalg, kept, s);
      }
      GoingAway(g, uses0, inst, a, nalg, w, kept, uses);
      RemainsScanned(r, inst, w, users);
    }

    /** The do-while loop of crypto_remove_spawns with crypto_more_spawns: everything built on the
        algorithm up to the replacement, last finished first. */
    method WalkSpawns(a: Alg, nalg: Option<Alg>, differ: bv32) returns (done: seq<Spawn>, ghost w: Walk,
        ghost kept: set<Spawn>)
      requires Registered(users, uses) && !Dependent(users, inst, a, a) && (nalg.Some? ==> Acyclic(users, inst))
      modifies this`users, this`uses
      ensures var g := Graph(Removal(old(users), a, nalg, differ, mask));
              && Walked(g, old(uses), inst, a, w) && w.stack == [] && w.done == done
              && Marking(g, inst, a, nalg, w, kept) && Standing(old(uses), w, kept, uses)
      ensures Remains(Removal(old(users), a, nalg, differ, mask), w, users)
    {
      hide Going, Walked, Registered, Reached, Dependent, Acyclic, Graph, Only, Fits, Once, Marking, Standing, Remains;
      ghost var u, uses0 := users, uses;
      ghost var r := Removal(u, a, nalg, differ, mask);
      ghost var g := Graph(r);
      var top := TakeUsers(a, differ);
      var stack: seq<Spawn> := [];
      done, kept := [], {};
      GoingStarts(r, uses0, inst, top);
      w := Walk(Hidden(u, nalg)[a := []], uses, top, [], []);
      RemainsStarts(r, w, users);
      var more := true;
      while more
        invariant At(r, uses0, w, kept, top, stack, done)
        invariant !more ==> stack == [] && top == []
        decreases |w.uses|, |stack|, if more then 1 else 0
      {
        top, stack, w, kept := Descend(a, nalg, top, stack, r, uses0, w, kept, done);
        if stack == [] {
          more := false;
        } else {
          GoingUp(g, uses0, inst, a, nalg, w, kept, uses);
          RemainsUp(r, w, users);
          w, kept := Up(w), Raised(w, kept);
          stack, done := StepUp(a, stack, done);
        }
      }
      GoingEnds(g, uses0, inst, a, nalg, w, kept, uses);
    }

    /** An instance that a removal takes off the registry's lists. */
    ghost predicate Goes(dead0: set<Alg>, hashed0: set<Alg>, b: Alg) {
      b !in dead0 && b in hashed0 && b in pinnable
    }

    /** crypto_remove_spawn: the instance dies, and is taken off its lists once. */
    method RemoveSpawn(s: Spawn, list: seq<Alg>) returns (gone: seq<Alg>)
      requires UsersOf(users, inst(s)) == []   // BUG_ON(!list_empty(&inst->alg.cra_users))
      modifies this`dead, this`hashed
      ensures var i := inst(s);
              && dead == old(dead) + {i}
              && (if Goes(old(dead), old(hashed), i) then hashed == old(hashed) - {i} && gone == [i] + list
                  else hashed == old(hashed) && gone == list)
    {
      var i := inst(s);
      gone := list;
      if i in dead { return; }
      dead := dead + {i};
      if i !in hashed { return; }
      if i !in pinnable { return; }
      gone := [i] + gone;
      hashed := hashed - {i};
    }

    /** The second loop of crypto_remove_spawns: a spawn with an algorithm goes back to its list, the
        instance of one without is removed. */
    method SettleSpawns(done: seq<Spawn>, list: seq<Alg>) returns (gone: seq<Alg>)
      requires Ready(inst, users, uses, done)
      modifies this`users, this`dead, this`hashed
      ensures Back(old(users), uses, done, |done|, users)
      ensures forall b :: b in dead <==> b in old(dead) || exists s :: s in done && s !in uses && inst(s) == b
      ensures forall b :: b in gone <==> b in list || (b in dead && Goes(old(dead), old(hashed), b))
      ensures forall b :: b in hashed <==> b in old(hashed) && !(b in dead && Goes(old(dead), old(hashed), b))
    {
      hide Ready, Back, Once;
      ghost var now, dead0, hashed0 := users, dead, hashed;
      ReadyStarts(inst, now, uses, done);
      gone := list;
      for i := 0 to |done|
        invariant Back(now, uses, done, i, users)
        invariant forall b :: b in dead <==> b in dead0 || exists s :: s in done[..i] && s !in uses && inst(s) == b
        invariant forall b :: b in gone <==> b in list || (b in dead && Goes(dead0, hashed0, b))
        invariant forall b :: b in hashed <==> b in hashed0 && !(b in dead && Goes(dead0, hashed0, b))
      {
        BackNext(inst, now, uses, done, i, users);
        assert done[..i + 1] == done[..i] + [done[i]];
        var s := done[i];
        if s in uses {
          users := users[uses[s] := [s] + UsersOf(users, uses[s])];
        } else {
          gone := RemoveSpawn(s, gone);
        }
      }
      assert done[..|done|] == done;
    }

    /** crypto_remove_spawns. */
    method RemoveSpawns(a: Alg, list: seq<Alg>, nalg: Option<Alg>, flags: Alg -> bv32) returns (gone: seq<Alg>)
      requires Registered(users, uses) && !Dependent(users, inst, a, a)
      requires nalg.Some? ==> Acyclic(users, inst)
      modifies this
      ensures Registered(users, uses)
      ensures var g := Graph(Removal(old(users), a, nalg, Differ(flags, a, nalg), mask));
              && Settled(g, inst, a, nalg, old(uses), uses)
              && (forall b :: b in dead <==> b in old(dead) || Lost(g, inst, a, uses, b))
              && (forall b :: b in gone <==>
                    b in list || (Lost(g, inst, a, uses, b) && Goes(old(dead), old(hashed), b)))
              && (forall b :: b in hashed <==>
                    b in old(hashed) && !(Lost(g, inst, a, uses, b) && Goes(old(dead), old(hashed), b)))
              && (forall b :: b != a && (Some(b) == nalg || !Dependent(g, inst, a, b)) ==>
                    UsersOf(users, b) == UsersOf(old(users), b))
      ensures forall b, s :: On(users, b, s) <==> On(old(users), b, s) && s in uses
    {
      hide Registered, Reached, Dependent, Acyclic, Graph, Settled, Walked, Marking, Standing, Remains, Ready, Back,
          Once, UsersOf, On;
      ghost var u, uses0, dead0 := users, uses, dead;
      var differ := Differ(flags, a, nalg);
      ghost var r := Removal(u, a, nalg, differ, mask);
      ghost var g := Graph(r);
      ghost var w, kept;
      var done;
      done, w, kept := WalkSpawns(a, nalg, differ);
      ghost var now := users;
      WalkSettles(g, inst, a, nalg, uses0, w, kept, uses);
      WalkReady(r, uses0, inst, w, now, kept, uses);
      gone := SettleSpawns(done, list);
      BackIs(r, uses0, inst, w, now, uses, users);
      forall b | b != a && (Some(b) == nalg || !Dependent(g, inst, a, b))
        ensures UsersOf(users, b) == UsersOf(u, b)
      {
        BackElsewhere(r, uses0, inst, w, now, uses, users, b);
      }
      forall b
        ensures (exists s :: s in done && s !in uses && inst(s) == b) <==> Lost(g, inst, a, uses, b)
      {
        LostIs(g, uses0, inst, a, w, uses, b);
      }
    }
  }
}
