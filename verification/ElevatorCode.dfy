/**
 The elevator of a request queue as elevator.c, blk-merge.c and blk-core.c run it: the merge hash with its
 lazy removals, the arms of __make_request that merge, and the sorted insertion into the dispatch queue.
 */
module ElevatorCode {
  import opened Lists
  import opened MergeHash
  import opened DispatchOrder

  class Elevator {
    const hashFn: HashFn
    const hash: array<List<int>>
    var rqs: map<int, Rq>                // the requests in the scheduler
    var on: map<int, nat>                // the chain each hashed request is linked into
    var lastMerge: Option<int>
    var nrSorted: nat
    var queueHead: Queue
    var endSector: nat

    ghost function Abs(): State
      reads this, hash
    {
      State(rqs, hash[..], on, lastMerge)
    }

    ghost predicate Valid()
      reads this, hash
    {
      Good(hashFn, Abs()) && nrSorted == |rqs|
    }

    constructor (hashFn: HashFn)
      requires InRange(hashFn)
      ensures Valid() && Abs() == Empty() && queueHead == [] && this.hashFn == hashFn
    {
      this.hashFn := hashFn;
      hash := new List<int>[ENTRIES](_ => Nil);
      rqs, on, lastMerge, nrSorted, queueHead, endSector := map[], map[], None, 0, [], 0;
      new;
      EmptyGood(hashFn);
      assert hash[..] == Empty().hash;
    }

    // -------------------------------------------------------------- the hash

    method RqhashDel(id: int)
      requires id in on ==> on[id] < hash.Length
      modifies this`on, hash
      ensures Abs() == Del(old(Abs()), id)
    {
      if id in on {
        var k := on[id];
        hash[k] := Remove(hash[k], id);
        on := on - {id};
      }
    }

    method RqhashAdd(id: int)
      requires id in rqs && id !in on && hashFn(End(rqs[id])) < hash.Length
      modifies this`on, hash
      ensures Abs() == Add(hashFn, old(Abs()), id)
    {
      var k := hashFn(End(rqs[id]));
      hash[k] := Cons(id, hash[k]);
      on := on[id := k];
    }

    method RqhashReposition(id: int)
      requires id in rqs && hashFn(End(rqs[id])) < hash.Length
      requires id in on ==> on[id] < hash.Length
      modifies this`on, hash
      ensures Abs() == Reposition(hashFn, old(Abs()), id)
    {
      RqhashDel(id);
      RqhashAdd(id);
    }

    /** The chain of the sector is walked; what can not merge any more is unhashed on the way. */
    method RqhashFind(offset: nat) returns (found: Option<int>)
      requires Valid()
      modifies this`on, hash
      ensures Valid() && (Abs(), found) == Find(hashFn, old(Abs()), offset)
      ensures found.Some? ==> Candidate(Abs(), found.value, offset)
      ensures found.None? <==> NoCandidate(Abs(), offset)
    {
      FindIsScan(hashFn, Abs(), offset);
      hide Find;
      ghost var s := Abs();
      var cur := hash[hashFn(offset)];
      FindStarts(hashFn, s, offset);
      while cur.Cons?
        modifies this`on, hash
        invariant FindIn(Abs(), cur, offset) == Find(hashFn, s, offset)
        invariant Walking(hashFn, Abs(), cur) && Abs().rqs == s.rqs
        decreases cur
      {
        var id := cur.head;
        WalkStep(hashFn, Abs(), cur);
        cur := cur.tail;
        if rqs[id].noMerge {
          RqhashDel(id);
        } else if End(rqs[id]) == offset {
          SameRqs(s, Abs(), offset);
          return Some(id);
        }
      }
      SameRqs(s, Abs(), offset);
      return None;
    }

    // -------------------------------------------------------------- merging

    method ElvMerge(bio: Bio, noMerges: bool, noXMerges: bool, front: Option<int>) returns (a: Answer)
      requires Valid() && FrontOk(Abs(), bio, front)
      modifies this`on, hash
      ensures Valid() && (Abs(), a) == Merge(hashFn, old(Abs()), bio, noMerges, noXMerges, front)
      ensures AnswerOk(Abs(), bio, a)
    {
      MergeIs(hashFn, Abs(), bio, noMerges, noXMerges, front);
      hide Find;
      if noMerges {
        return NoMerge;
      }
      if lastMerge.Some? {
        a := Try(lastMerge.value, bio);
        if a != NoMerge {
          return;
        }
      }
      if noXMerges {
        return NoMerge;
      }
      var found := RqhashFind(bio.sector);
      if found.Some? && MergeOk(rqs[found.value], bio) {
        return Back(found.value);
      }
      return if front.Some? then Front(front.value) else NoMerge;
    }

    method Try(id: int, bio: Bio) returns (a: Answer)
      requires id in rqs
      ensures a == TryMerge(Abs(), id, bio)
    {
      a := NoMerge;
      if MergeOk(rqs[id], bio) {
        if rqs[id].pos + rqs[id].sectors == bio.sector {
          a := Back(id);
        } else if rqs[id].pos == bio.sectors + bio.sector {
          a := Front(id);
        }
      }
    }

    method MergedRequest(id: int, back: bool)
      requires id in rqs && hashFn(End(rqs[id])) < hash.Length
      requires id in on ==> on[id] < hash.Length
      modifies this`on, this`lastMerge, hash
      ensures Abs() == Merged(hashFn, old(Abs()), id, back)
    {
      if back {
        RqhashReposition(id);
      }
      lastMerge := Some(id);
    }

    /** elv_merge_requests, when the sectors of next are already counted to id; next is freed after it. */
    method MergeRequests(id: int, next: int)
      requires id in rqs && next in rqs && id != next && nrSorted == |rqs|
      requires hashFn(End(rqs[id])) < hash.Length
      requires id in on ==> on[id] < hash.Length
      requires next in on ==> on[next] < hash.Length
      modifies this`rqs, this`on, this`lastMerge, this`nrSorted, hash
      ensures var u := Del(Reposition(hashFn, old(Abs()), id), next);
        Abs() == u.(rqs := old(rqs) - {next}, lastMerge := Some(id))
      ensures nrSorted == |rqs|
    {
      RqhashReposition(id);
      RqhashDel(next);
      nrSorted := nrSorted - 1;
      lastMerge := Some(id);
      rqs := rqs - {next};
    }

    /** attempt_merge: next goes into id if they are alike and have the room. */
    method AttemptMerge(id: int, next: int, joint: bool) returns (done: bool)
      requires id in rqs && next in rqs && id != next && nrSorted == |rqs|
      requires hashFn(rqs[id].pos + rqs[id].sectors + rqs[next].sectors) < hash.Length
      requires id in on ==> on[id] < hash.Length
      requires next in on ==> on[next] < hash.Length
      modifies this`rqs, this`on, this`lastMerge, this`nrSorted, hash
      ensures done == (MayJoin(old(Abs()), id, next) && joint)
      ensures Abs() == if done then Join(hashFn, old(Abs()), id, next) else old(Abs())
      ensures nrSorted == |rqs|
    {
      hide Reposition, Del, Good;
      if rqs[id].noMerge || rqs[next].noMerge {
        return false;
      }
      if rqs[id].pos + rqs[id].sectors != rqs[next].pos {
        return false;
      }
      if rqs[id].write != rqs[next].write || rqs[id].disk != rqs[next].disk || rqs[next].special {
        return false;
      }
      if rqs[id].integrity != rqs[next].integrity {
        return false;
      }
      if !joint {
        return false;
      }
      rqs := rqs[id := rqs[id].(sectors := rqs[id].sectors + rqs[next].sectors)];
      ghost var t := Abs();
      assert t == Grown(old(Abs()), id, old(rqs)[id].pos, rqs[id].sectors);
      RepositionRqs(hashFn, t, id);
      DelRqs(Reposition(hashFn, t, id), next);
      MergeRequests(id, next);
      return true;
    }

    /** What a too large bio does to the request. */
    method SetNoMerge(id: int)
      requires id in rqs && nrSorted == |rqs|
      modifies this`rqs, this`lastMerge
      ensures Abs() == GiveUp(old(Abs()), id) && nrSorted == |rqs|
    {
      rqs := rqs[id := rqs[id].(noMerge := true)];
      if lastMerge == Some(id) {
        lastMerge := None;
      }
    }

    /** How both arms of __make_request end: the request grew towards its neighbour. */
    method FinishMerge(id: int, back: bool, neighbour: Option<int>, joint: bool)
      requires id in rqs && nrSorted == |rqs| && hash.Length == ENTRIES && InRange(hashFn)
      requires forall x :: x in on ==> on[x] < ENTRIES
      requires neighbour.Some? ==> neighbour.value in rqs && neighbour.value != id
      modifies this`rqs, this`on, this`lastMerge, this`nrSorted, hash
      ensures Abs() == JoinOrMerged(hashFn, old(Abs()), id, back, neighbour, joint) && nrSorted == |rqs|
    {
      hide Join, MayJoin, Merged;
      var done := false;
      if neighbour.Some? {
        if back {
          done := AttemptMerge(id, neighbour.value, joint);
        } else {
          done := AttemptMerge(neighbour.value, id, joint);
        }
      }
      if !done {
        MergedRqs(hashFn, Abs(), id, back);
        MergedRequest(id, back);
      }
    }

    /** The back and the front arm of __make_request, once the request has room for the bio. */
    method MergeBack(id: int, bio: Bio, neighbour: Option<int>, joint: bool)
      requires Valid() && AnswerOk(Abs(), bio, Back(id))
      requires neighbour.Some? ==> neighbour.value in rqs && neighbour.value != id
      modifies this`rqs, this`on, this`lastMerge, this`nrSorted, hash
      ensures Valid() && Abs() == Arm(hashFn, old(Abs()), bio, Back(id), true, neighbour, joint)
    {
      hide Good, JoinOrMerged;
      BackArmGood(hashFn, Abs(), bio, id, neighbour, joint);
      PlacesInRange(hashFn, Abs());
      ghost var s := Abs();
      assert !rqs[id].noMerge;           // BUG_ON(!rq_mergeable(req))
      rqs := rqs[id := rqs[id].(sectors := rqs[id].sectors + bio.sectors)];
      assert Abs() == Grown(s, id, s.rqs[id].pos, s.rqs[id].sectors + bio.sectors);
      FinishMerge(id, true, neighbour, joint);
    }

    method MergeFront(id: int, bio: Bio, neighbour: Option<int>, joint: bool)
      requires Valid() && AnswerOk(Abs(), bio, Front(id))
      requires neighbour.Some? ==> neighbour.value in rqs && neighbour.value != id
      modifies this`rqs, this`on, this`lastMerge, this`nrSorted, hash
      ensures Valid() && Abs() == Arm(hashFn, old(Abs()), bio, Front(id), true, neighbour, joint)
    {
      hide Good, JoinOrMerged;
      FrontArmGood(hashFn, Abs(), bio, id, neighbour, joint);
      PlacesInRange(hashFn, Abs());
      ghost var s := Abs();
      assert !rqs[id].noMerge;           // BUG_ON(!rq_mergeable(req))
      rqs := rqs[id := rqs[id].(pos := bio.sector, sectors := rqs[id].sectors + bio.sectors)];
      assert Abs() == Grown(s, id, bio.sector, s.rqs[id].sectors + bio.sectors);
      FinishMerge(id, false, neighbour, joint);
    }

    /** The merging half of __make_request; neighbour is the scheduler's latter or former request. */
    method MakeRequest(bio: Bio, noMerges: bool, noXMerges: bool, front: Option<int>, room: bool,
        neighbour: int -> Option<int>, joint: bool) returns (merged: bool)
      requires Valid() && FrontOk(Abs(), bio, front)
      requires forall id :: neighbour(id).Some? ==> neighbour(id).value in rqs && neighbour(id).value != id
      modifies this`rqs, this`on, this`lastMerge, this`nrSorted, hash
      ensures Valid()
      ensures var (s, a) := Merge(hashFn, old(Abs()), bio, noMerges, noXMerges, front);
        && merged == (a != NoMerge && room) && s.rqs == old(rqs)
        && (a == NoMerge ==> Abs() == s)
        && (a != NoMerge ==> a.id in s.rqs && Abs() == Arm(hashFn, s, bio, a, room, neighbour(a.id), joint))
    {
      MergeIs(hashFn, Abs(), bio, noMerges, noXMerges, front);
      var a := ElvMerge(bio, noMerges, noXMerges, front);
      hide Good, Merge, Join, Merged;
      if a == NoMerge {
        return false;
      }
      if !room {
        GiveUpGood(hashFn, Abs(), a.id);
        SetNoMerge(a.id);
        return false;
      }
      if a.Back? {
        MergeBack(a.id, bio, neighbour(a.id), joint);
      } else {
        MergeFront(a.id, bio, neighbour(a.id), joint);
      }
      return true;
    }

    // -------------------------------------------------------------- into the scheduler and out of it

    method InsertSort(id: int, r: Rq)
      requires Valid() && id !in rqs
      modifies this`rqs, this`on, this`lastMerge, this`nrSorted, hash
      ensures Valid() && Abs() == Insert(hashFn, old(Abs()), id, r)
    {
      InsertGood(hashFn, Abs(), id, r);
      assert InPlace(hashFn, Abs(), id);
      rqs := rqs[id := r];
      nrSorted := nrSorted + 1;
      if !r.noMerge {
        RqhashAdd(id);
        if lastMerge.None? {
          lastMerge := Some(id);
        }
      }
    }

    /** The request leaves the scheduler for its place in the dispatch queue. */
    method DispatchSort(id: int)
      requires Valid() && id in rqs
      modifies this`rqs, this`on, this`lastMerge, this`nrSorted, this`queueHead, hash
      ensures Valid() && Abs() == Leave(old(Abs()), id)
      ensures queueHead == Sorted(endSector, old(queueHead), EntryOf(id, old(rqs)[id]))
    {
      hide Good, Leave;
      var rq := EntryOf(id, rqs[id]);
      Unhash(id);
      var boundary := endSector;
      var k := |queueHead|;
      assert queueHead[..k] == queueHead;
      while k > 0
        invariant k <= |queueHead|
        invariant Place(boundary, queueHead[..k], rq) == Place(boundary, queueHead, rq)
      {
        var pos := queueHead[k - 1];
        assert queueHead[..k][..k - 1] == queueHead[..k - 1];
        if rq.discard != pos.discard { break; }
        if rq.write != pos.write { break; }
        if pos.stop { break; }
        if rq.pos >= boundary {
          if pos.pos < boundary {
            k := k - 1;
            continue;
          }
        } else {
          if pos.pos >= boundary { break; }
        }
        if rq.pos >= pos.pos { break; }
        k := k - 1;
      }
      queueHead := queueHead[..k] + [rq] + queueHead[k..];
    }

    method DispatchAddTail(id: int)
      requires Valid() && id in rqs
      modifies this`rqs, this`on, this`lastMerge, this`nrSorted, this`queueHead, this`endSector, hash
      ensures Valid() && Abs() == Leave(old(Abs()), id)
      ensures queueHead == old(queueHead) + [EntryOf(id, old(rqs)[id])]
      ensures endSector == End(old(rqs)[id])
    {
      var rq := EntryOf(id, rqs[id]);
      endSector := End(rqs[id]);
      Unhash(id);
      queueHead := queueHead + [rq];
    }

    /** What both ways out of the scheduler begin with. */
    method Unhash(id: int)
      requires Valid() && id in rqs
      modifies this`rqs, this`on, this`lastMerge, this`nrSorted, hash
      ensures Valid() && Abs() == Leave(old(Abs()), id)
    {
      LeaveGood(hashFn, Abs(), id);
      if lastMerge == Some(id) {
        lastMerge := None;
      }
      RqhashDel(id);
      nrSorted := nrSorted - 1;
      rqs := rqs - {id};
    }
  }

  function EntryOf(id: int, r: Rq): Entry {
    Entry(id, r.pos, r.write, r.discard, false)
  }

  lemma {:induction false} RepositionRqs(h: HashFn, s: State, id: int)
    ensures Reposition(h, s, id).rqs == s.rqs && Reposition(h, s, id).lastMerge == s.lastMerge
  {
    DelRqs(s, id);
    AddRqs(h, Del(s, id), id);
    hide Del, Add;
  }

  lemma {:induction false} AddRqs(h: HashFn, s: State, id: int)
    ensures Add(h, s, id).rqs == s.rqs && Add(h, s, id).lastMerge == s.lastMerge
  {
    hide End, RqOf;
  }

  lemma {:induction false} MergedRqs(h: HashFn, s: State, id: int, back: bool)
    ensures Merged(h, s, id, back).rqs == s.rqs
  {
    RepositionRqs(h, s, id);
    hide Reposition;
  }

  lemma {:induction false} PlacesInRange(h: HashFn, s: State)
    requires Good(h, s)
    ensures |s.hash| == ENTRIES && (forall n: nat :: h(n) < ENTRIES)
    ensures forall id :: id in s.on ==> s.on[id] < ENTRIES
  {
  }

  lemma {:induction false} SameRqs(s: State, t: State, offset: nat)
    requires s.rqs == t.rqs
    ensures NoCandidate(s, offset) <==> NoCandidate(t, offset)
  {
    forall id ensures Candidate(s, id, offset) <==> Candidate(t, id, offset) { }
  }

  /** What is left to walk of a chain is hashed, each request once. */
  ghost predicate Walking(h: HashFn, s: State, cur: List<int>) {
    Good(h, s) && Distinct(cur) && forall id :: Member(cur, id) ==> id in s.rqs
  }

  lemma {:induction false} FindStarts(h: HashFn, s: State, offset: nat)
    requires Good(h, s)
    ensures h(offset) < |s.hash| && Walking(h, s, s.hash[h(offset)])
    ensures Find(h, s, offset) == FindIn(s, s.hash[h(offset)], offset)
  {
    var chain := s.hash[h(offset)];
    forall id | Member(chain, id) ensures id in s.rqs {
      assert InPlace(h, s, id);
    }
  }

  lemma {:induction false} WalkStep(h: HashFn, s: State, cur: List<int>)
    requires Walking(h, s, cur) && cur.Cons?
    ensures cur.head in s.rqs && (cur.head in s.on ==> s.on[cur.head] < |s.hash|)
    ensures Walking(h, s, cur.tail)
    ensures s.rqs[cur.head].noMerge ==> Walking(h, Del(s, cur.head), cur.tail)
  {
    assert Member(cur, cur.head);
    assert forall x :: Member(cur.tail, x) ==> Member(cur, x);
    if s.rqs[cur.head].noMerge {
      DelGood(h, s, cur.head);
    }
  }
}
