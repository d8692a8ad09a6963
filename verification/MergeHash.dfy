/**
 The merge hash of elevator.c: requests in the scheduler, hashed by the sector behind their last one, so
 that a bio that starts there finds the request it can be appended to.
 */
module MergeHash {
  import opened Lists

  const ENTRIES := 64                    // ELV_HASH_ENTRIES

  /** A request in the scheduler. noMerge says that rq_mergeable fails; that a bio and a request have the
      same owner stands for the scheduler's own say, elevator_allow_merge_fn. */
  datatype Rq = Rq(pos: nat, sectors: nat, write: bool, discard: bool, noMerge: bool,
    disk: int, special: bool, integrity: bool, owner: int)

  datatype Bio = Bio(sector: nat, sectors: nat, write: bool, discard: bool, disk: int, integrity: bool, owner: int)

  function End(r: Rq): nat {
    r.pos + r.sectors
  }

  /** The requests in the scheduler, the hash chains, the chain each hashed request is linked into, and
      the one-hit cache. */
  datatype State = State(rqs: map<int, Rq>, hash: seq<List<int>>, on: map<int, nat>, lastMerge: Option<int>)

  /** ELV_HASH_FN, of which only its range matters. */
  type HashFn = nat -> nat

  ghost predicate InRange(h: HashFn) {
    forall n: nat :: h(n) < ENTRIES
  }

  // ---------------------------------------------------------------- operations

  function RqOf(s: State, id: int): Rq {
    if id in s.rqs then s.rqs[id] else Rq(0, 0, false, false, true, 0, false, false, 0)
  }

  function Del(s: State, id: int): State {
    if id in s.on && s.on[id] < |s.hash| then
      s.(hash := s.hash[s.on[id] := Remove(s.hash[s.on[id]], id)], on := s.on - {id})
    else s
  }

  function Add(h: HashFn, s: State, id: int): State {
    var k := h(End(RqOf(s, id)));
    if k < |s.hash| then s.(hash := s.hash[k := Cons(id, s.hash[k])], on := s.on[id := k]) else s
  }

  function Reposition(h: HashFn, s: State, id: int): State {
    Add(h, Del(s, id), id)
  }

  /** elv_rqhash_find on what is left of a chain: requests that can not merge any more are unhashed on
      the way. */
  function FindIn(s: State, chain: List<int>, offset: nat): (State, Option<int>)
    decreases chain
  {
    match chain
    case Nil => (s, None)
    case Cons(id, r) =>
      if RqOf(s, id).noMerge then FindIn(Del(s, id), r, offset)
      else if End(RqOf(s, id)) == offset then (s, Some(id))
      else FindIn(s, r, offset)
  }

  function Find(h: HashFn, s: State, offset: nat): (State, Option<int>) {
    var k := h(offset);
    if k < |s.hash| then FindIn(s, s.hash[k], offset) else (s, None)
  }

  predicate MergeOk(r: Rq, bio: Bio) {
    && !r.noMerge && r.discard == bio.discard && r.write == bio.write
    && r.disk == bio.disk && !r.special && r.integrity == bio.integrity && r.owner == bio.owner
  }

  datatype Answer = NoMerge | Back(id: int) | Front(id: int)

  /** elv_try_merge */
  function TryMerge(s: State, id: int, bio: Bio): Answer {
    var r := RqOf(s, id);
    if !MergeOk(r, bio) then NoMerge
    else if End(r) == bio.sector then Back(id)
    else if r.pos == bio.sector + bio.sectors then Front(id)
    else NoMerge
  }

  /** elv_merge; front is what the scheduler answers when it is asked. */
  function Merge(h: HashFn, s: State, bio: Bio, noMerges: bool, noXMerges: bool, front: Option<int>): (State, Answer) {
    if noMerges then (s, NoMerge)
    else if s.lastMerge.Some? && TryMerge(s, s.lastMerge.value, bio) != NoMerge then
      (s, TryMerge(s, s.lastMerge.value, bio))
    else if noXMerges then (s, NoMerge)
    else
      var (t, found) := Find(h, s, bio.sector);
      if found.Some? && MergeOk(RqOf(t, found.value), bio) then (t, Back(found.value))
      else if front.Some? then (t, Front(front.value))
      else (t, NoMerge)
  }

  /** A request that turned out too large for a bio is no candidate from now on. */
  function GiveUp(s: State, id: int): State
    requires id in s.rqs
  {
    s.(rqs := s.rqs[id := s.rqs[id].(noMerge := true)],
       lastMerge := if s.lastMerge == Some(id) then None else s.lastMerge)
  }

  function Grown(s: State, id: int, pos: nat, sectors: nat): State
    requires id in s.rqs
  {
    s.(rqs := s.rqs[id := s.rqs[id].(pos := pos, sectors := sectors)])
  }

  /** elv_merged_request */
  function Merged(h: HashFn, s: State, id: int, back: bool): State {
    (if back then Reposition(h, s, id) else s).(lastMerge := Some(id))
  }

  /** attempt_merge asks that both can merge, that next starts where req ends, and that they are alike. */
  predicate MayJoin(s: State, id: int, next: int) {
    var r, n := RqOf(s, id), RqOf(s, next);
    && !r.noMerge && !n.noMerge && End(r) == n.pos
    && r.write == n.write && r.disk == n.disk && !n.special && r.integrity == n.integrity
  }

  /** Request next goes into request id and out of the scheduler. */
  function Join(h: HashFn, s: State, id: int, next: int): State
    requires id in s.rqs && next in s.rqs
  {
    var t := Grown(s, id, s.rqs[id].pos, s.rqs[id].sectors + s.rqs[next].sectors);
    var u := Del(Reposition(h, t, id), next);
    u.(rqs := u.rqs - {next}, lastMerge := Some(id))
  }

  /** elv_insert of a request that is to be sorted. */
  function Insert(h: HashFn, s: State, id: int, r: Rq): State {
    var t := s.(rqs := s.rqs[id := r]);
    if r.noMerge then t
    else Add(h, t, id).(lastMerge := if s.lastMerge.None? then Some(id) else s.lastMerge)
  }

  /** elv_dispatch_sort and elv_dispatch_add_tail: the request leaves the scheduler. */
  function Leave(s: State, id: int): State {
    var t := Del(s, id);
    t.(rqs := t.rqs - {id}, lastMerge := if s.lastMerge == Some(id) then None else s.lastMerge)
  }

  /** A request that just grew meets the one it grew towards: they become one, or it is a merged request. */
  function JoinOrMerged(h: HashFn, s: State, id: int, back: bool, neighbour: Option<int>, joint: bool): State
    requires id in s.rqs && (neighbour.Some? ==> neighbour.value in s.rqs)
  {
    if neighbour.None? then Merged(h, s, id, back)
    else
      var (first, second) := if back then (id, neighbour.value) else (neighbour.value, id);
      if MayJoin(s, first, second) && joint then Join(h, s, first, second) else Merged(h, s, id, back)
  }

  /** __make_request as far as a merge: what elv_merge answered, whether the request has room for the bio,
      the neighbour the scheduler names, and whether the two have room for each other. */
  function Arm(h: HashFn, s: State, bio: Bio, a: Answer, room: bool, neighbour: Option<int>, joint: bool): State
    requires a != NoMerge ==> a.id in s.rqs
    requires neighbour.Some? ==> neighbour.value in s.rqs
  {
    match a
    case NoMerge => s
    case Back(id) =>
      if !room then GiveUp(s, id)
      else
        JoinOrMerged(h, Grown(s, id, s.rqs[id].pos, s.rqs[id].sectors + bio.sectors), id, true, neighbour, joint)
    case Front(id) =>
      if !room then GiveUp(s, id)
      else
        JoinOrMerged(h, Grown(s, id, bio.sector, s.rqs[id].sectors + bio.sectors), id, false, neighbour, joint)
  }

  // ---------------------------------------------------------------- what every step keeps

  /** Chains and links agree: a request is in the chain it is linked into, once, and in no other. */
  ghost predicate Linked(s: State) {
    && (forall k, id :: 0 <= k < |s.hash| && Member(s.hash[k], id) ==> id in s.on && s.on[id] == k)
    && (forall id :: id in s.on ==> s.on[id] < |s.hash| && Member(s.hash[s.on[id]], id))
    && (forall k :: 0 <= k < |s.hash| ==> Distinct(s.hash[k]))
  }

  /** Request id is hashed where its end sector says. */
  predicate InPlace(h: HashFn, s: State, id: int) {
    id in s.on ==> id in s.rqs && s.on[id] == h(End(s.rqs[id]))
  }

  /** A request that can merge is hashed. */
  predicate Findable(s: State, id: int) {
    id in s.rqs && !s.rqs[id].noMerge ==> id in s.on
  }

  ghost predicate Good(h: HashFn, s: State) {
    && InRange(h) && |s.hash| == ENTRIES
    && Linked(s)
    && (forall id :: InPlace(h, s, id))
    && (forall id :: Findable(s, id))
    && (s.lastMerge.Some? ==> s.lastMerge.value in s.rqs)
  }

  lemma {:induction false} DelLinked(s: State, id: int)
    requires Linked(s)
    ensures Linked(Del(s, id)) && id !in Del(s, id).on
  {
    if id in s.on {
      RemoveKeeps(s.hash[s.on[id]], id);
    }
  }

  lemma {:induction false} AddLinked(h: HashFn, s: State, id: int)
    requires Linked(s) && id !in s.on
    ensures Linked(Add(h, s, id))
  {
    var k := h(End(RqOf(s, id)));
    if k < |s.hash| {
      assert !Member(s.hash[k], id);
    }
  }

  /** Everything that a request's own place does not touch. */
  lemma {:induction false} DelGood(h: HashFn, s: State, id: int)
    requires Good(h, s) && RqOf(s, id).noMerge
    ensures Good(h, Del(s, id)) && Del(s, id).rqs == s.rqs && Del(s, id).lastMerge == s.lastMerge
  {
    hide Linked;
    DelLinked(s, id);
    var t := Del(s, id);
    forall x ensures InPlace(h, t, x) && Findable(t, x) {
      assert InPlace(h, s, x) && Findable(s, x);
    }
  }

  /** All but request id is as it should be, and id is not hashed. */
  ghost predicate GoodBut(h: HashFn, s: State, id: int) {
    && InRange(h) && |s.hash| == ENTRIES
    && Linked(s) && id !in s.on
    && (forall x :: InPlace(h, s, x))
    && (forall x :: x != id ==> Findable(s, x))
    && (s.lastMerge.Some? ==> s.lastMerge.value in s.rqs)
  }

  lemma {:induction false} AddGood(h: HashFn, s: State, id: int)
    requires GoodBut(h, s, id) && id in s.rqs
    ensures Good(h, Add(h, s, id))
  {
    hide Linked;
    AddLinked(h, s, id);
    var t := Add(h, s, id);
    forall x ensures InPlace(h, t, x) && Findable(t, x) {
      assert InPlace(h, s, x);
      assert x != id ==> Findable(s, x);
    }
  }

  /** Whatever became of request id, once it is unhashed all the others are still in place. */
  lemma {:induction false} DelGoodBut(h: HashFn, s: State, id: int, t: State)
    requires Good(h, s) && id in s.rqs && t.rqs.Keys == s.rqs.Keys
    requires forall x :: x in s.rqs && x != id ==> t.rqs[x] == s.rqs[x]
    requires t.hash == s.hash && t.on == s.on && t.lastMerge == s.lastMerge
    ensures GoodBut(h, Del(t, id), id)
  {
    assert Linked(t);
    hide Linked;
    DelLinked(t, id);
    var u := Del(t, id);
    forall x ensures InPlace(h, u, x) && (x != id ==> Findable(u, x)) {
      assert InPlace(h, s, x) && Findable(s, x);
    }
  }

  /** A request whose sectors changed is put where it belongs. */
  lemma {:induction false} GrownGood(h: HashFn, s: State, id: int, pos: nat, sectors: nat)
    requires Good(h, s) && id in s.rqs
    ensures Good(h, Reposition(h, Grown(s, id, pos, sectors), id))
    ensures Reposition(h, Grown(s, id, pos, sectors), id).rqs == Grown(s, id, pos, sectors).rqs
  {
    var t := Grown(s, id, pos, sectors);
    DelGoodBut(h, s, id, t);
    AddGood(h, Del(t, id), id);
  }

  /** In front of a request nothing changes that the hash looks at. */
  lemma {:induction false} FrontGood(h: HashFn, s: State, id: int, pos: nat, sectors: nat)
    requires Good(h, s) && id in s.rqs && pos + sectors == End(s.rqs[id])
    ensures Good(h, Grown(s, id, pos, sectors))
  {
    var t := Grown(s, id, pos, sectors);
    assert Linked(t);
    hide Linked;
    forall x ensures InPlace(h, t, x) && Findable(t, x) {
      assert InPlace(h, s, x) && Findable(s, x);
    }
  }

  lemma {:induction false} GiveUpGood(h: HashFn, s: State, id: int)
    requires Good(h, s) && id in s.rqs
    ensures Good(h, GiveUp(s, id))
  {
    var t := GiveUp(s, id);
    assert Linked(t);
    hide Linked;
    forall x ensures InPlace(h, t, x) && Findable(t, x) {
      assert InPlace(h, s, x) && Findable(s, x);
    }
  }

  lemma {:induction false} CachedGood(h: HashFn, s: State, id: int)
    requires Good(h, s) && id in s.rqs
    ensures Good(h, s.(lastMerge := Some(id)))
  {
    var t := s.(lastMerge := Some(id));
    assert Linked(t);
    hide Linked;
    forall x ensures InPlace(h, t, x) && Findable(t, x) {
      assert InPlace(h, s, x) && Findable(s, x);
    }
  }

  /** A request that goes is unhashed and forgotten, also by the cache. */
  lemma {:induction false} GoneGood(h: HashFn, s: State, id: int, last: Option<int>)
    requires Good(h, s) && id in s.rqs
    requires last.Some? ==> last.value in s.rqs && last.value != id
    ensures Good(h, Del(s, id).(rqs := s.rqs - {id}, lastMerge := last))
  {
    DelGoodBut(h, s, id, s);
    var u := Del(s, id);
    var t := u.(rqs := s.rqs - {id}, lastMerge := last);
    assert Linked(t);
    hide Linked;
    forall x ensures InPlace(h, t, x) && Findable(t, x) {
      assert InPlace(h, u, x);
      assert x != id ==> Findable(u, x);
    }
  }

  lemma {:induction false} LeaveGood(h: HashFn, s: State, id: int)
    requires Good(h, s) && id in s.rqs
    ensures Good(h, Leave(s, id))
  {
    GoneGood(h, s, id, if s.lastMerge == Some(id) then None else s.lastMerge);
    assert Del(s, id).rqs == s.rqs;
  }

  lemma {:induction false} JoinGood(h: HashFn, s: State, id: int, next: int)
    requires Good(h, s) && id in s.rqs && next in s.rqs && id != next
    ensures Good(h, Join(h, s, id, next))
  {
    hide Good, Reposition;
    var sectors := s.rqs[id].sectors + s.rqs[next].sectors;
    GrownGood(h, s, id, s.rqs[id].pos, sectors);
    var u := Reposition(h, Grown(s, id, s.rqs[id].pos, sectors), id);
    GoneGood(h, u, next, Some(id));
    assert Del(u, next).rqs == u.rqs;
  }

  lemma {:induction false} InsertGood(h: HashFn, s: State, id: int, r: Rq)
    requires Good(h, s) && id !in s.rqs
    ensures Good(h, Insert(h, s, id, r))
  {
    var t := s.(rqs := s.rqs[id := r]);
    assert Linked(t);
    assert InPlace(h, s, id);
    hide Linked;
    forall x ensures InPlace(h, t, x) && (x != id ==> Findable(t, x)) {
      assert InPlace(h, s, x) && Findable(s, x);
    }
    if !r.noMerge {
      AddGood(h, t, id);
      var u := Add(h, t, id);
      if s.lastMerge.None? {
        CachedGood(h, u, id);
      }
      assert u.lastMerge == s.lastMerge;
    }
  }

  // ---------------------------------------------------------------- lookup

  /** What a scan of all requests in the scheduler would look for. */
  predicate Candidate(s: State, id: int, offset: nat) {
    id in s.rqs && !s.rqs[id].noMerge && End(s.rqs[id]) == offset
  }

  ghost predicate NoCandidate(s: State, offset: nat) {
    forall id :: !Candidate(s, id, offset)
  }

  lemma {:induction false} FindInIs(h: HashFn, s: State, chain: List<int>, offset: nat)
    requires Good(h, s)
    requires forall id :: Member(chain, id) ==> id in s.rqs
    requires forall id :: Candidate(s, id, offset) ==> Member(chain, id)
    ensures var (t, found) := FindIn(s, chain, offset);
      && Good(h, t) && t.rqs == s.rqs && t.lastMerge == s.lastMerge
      && (if found.Some? then Candidate(s, found.value, offset) else NoCandidate(s, offset))
    decreases chain
  {
    hide Good;
    if chain.Cons? {
      var id := chain.head;
      assert Member(chain, id);
      assert forall x :: Member(chain.tail, x) ==> Member(chain, x);
      if RqOf(s, id).noMerge {
        DelGood(h, s, id);
        assert forall x :: Candidate(s, x, offset) <==> Candidate(Del(s, id), x, offset);
        FindInIs(h, Del(s, id), chain.tail, offset);
      } else if End(RqOf(s, id)) != offset {
        FindInIs(h, s, chain.tail, offset);
      }
    }
  }

  /** The lookup finds a request that can merge and ends at the sector exactly when there is one in the
      scheduler. */
  lemma {:induction false} FindIsScan(h: HashFn, s: State, offset: nat)
    requires Good(h, s)
    ensures var (t, found) := Find(h, s, offset);
      && Good(h, t) && t.rqs == s.rqs && t.lastMerge == s.lastMerge
      && (found.Some? ==> Candidate(s, found.value, offset))
      && (found.None? <==> NoCandidate(s, offset))
  {
    var chain := s.hash[h(offset)];
    forall id | Candidate(s, id, offset) ensures Member(chain, id) {
      assert Findable(s, id) && InPlace(h, s, id);
    }
    forall id | Member(chain, id) ensures id in s.rqs {
      assert InPlace(h, s, id);
    }
    FindInIs(h, s, chain, offset);
    var found := Find(h, s, offset).1;
    assert found.Some? ==> Candidate(s, found.value, offset);
  }

  /** What a scheduler may answer: a request in its tree that the bio can go in front of. */
  predicate FrontOk(s: State, bio: Bio, front: Option<int>) {
    front.Some? ==> AnswerOk(s, bio, Front(front.value))
  }

  predicate AnswerOk(s: State, bio: Bio, a: Answer) {
    match a
    case NoMerge => true
    case Back(id) => id in s.rqs && MergeOk(s.rqs[id], bio) && End(s.rqs[id]) == bio.sector
    case Front(id) => id in s.rqs && MergeOk(s.rqs[id], bio) && s.rqs[id].pos == bio.sector + bio.sectors
  }

  /** elv_merge answers with a request that can merge and that the bio is next to, so neither BUG_ON of
      __make_request fires; and when it looked everywhere and has none, then the scheduler has none that
      ends at the bio or one that is not like it. */
  lemma {:induction false} MergeIs(h: HashFn, s: State, bio: Bio, noMerges: bool, noXMerges: bool, front: Option<int>)
    requires Good(h, s) && FrontOk(s, bio, front)
    ensures var (t, a) := Merge(h, s, bio, noMerges, noXMerges, front);
      && Good(h, t) && t.rqs == s.rqs && t.lastMerge == s.lastMerge && AnswerOk(s, bio, a)
      && (a.NoMerge? && !noMerges && !noXMerges ==>
           front.None? && (NoCandidate(s, bio.sector)
                           || exists id :: Candidate(s, id, bio.sector) && !MergeOk(s.rqs[id], bio)))
  {
    FindIsScan(h, s, bio.sector);
    hide Find, NoCandidate;
    var (t, found) := Find(h, s, bio.sector);
    if found.Some? {
      assert Candidate(s, found.value, bio.sector);
    }
  }

  /** Both arms of __make_request leave every request where its end sector says. */
  lemma {:induction false} ArmGood(h: HashFn, s: State, bio: Bio, a: Answer, room: bool, neighbour: Option<int>,
      joint: bool)
    requires Good(h, s) && AnswerOk(s, bio, a)
    requires neighbour.Some? ==> neighbour.value in s.rqs && (a != NoMerge ==> neighbour.value != a.id)
    ensures Good(h, Arm(h, s, bio, a, room, neighbour, joint))
  {
    if a != NoMerge && !room {
      GiveUpGood(h, s, a.id);
    } else if a.Back? {
      BackArmGood(h, s, bio, a.id, neighbour, joint);
    } else if a.Front? {
      FrontArmGood(h, s, bio, a.id, neighbour, joint);
    }
  }

  lemma {:induction false} BackArmGood(h: HashFn, s: State, bio: Bio, id: int, neighbour: Option<int>, joint: bool)
    requires Good(h, s) && AnswerOk(s, bio, Back(id))
    requires neighbour.Some? ==> neighbour.value in s.rqs && neighbour.value != id
    ensures Good(h, Arm(h, s, bio, Back(id), true, neighbour, joint))
  {
    hide Good, Del, Add;
    var n := s.rqs[id].sectors + bio.sectors;
    var t := Grown(s, id, s.rqs[id].pos, n);
    if neighbour.Some? && MayJoin(t, id, neighbour.value) && joint {
      // growing twice before the hash is put right is growing once by both
      var next := neighbour.value;
      GrownGood(h, s, id, s.rqs[id].pos, n + s.rqs[next].sectors);
      var u := Grown(s, id, s.rqs[id].pos, n + s.rqs[next].sectors);
      assert u == Grown(t, id, t.rqs[id].pos, t.rqs[id].sectors + t.rqs[next].sectors);
      GoneGood(h, Reposition(h, u, id), next, Some(id));
      DelRqs(Reposition(h, u, id), next);
    } else {
      GrownGood(h, s, id, s.rqs[id].pos, n);
      CachedGood(h, Reposition(h, t, id), id);
    }
  }

  lemma {:induction false} FrontArmGood(h: HashFn, s: State, bio: Bio, id: int, neighbour: Option<int>, joint: bool)
    requires Good(h, s) && AnswerOk(s, bio, Front(id))
    requires neighbour.Some? ==> neighbour.value in s.rqs && neighbour.value != id
    ensures Good(h, Arm(h, s, bio, Front(id), true, neighbour, joint))
  {
    hide Good, Join;
    var n := s.rqs[id].sectors + bio.sectors;
    var t := Grown(s, id, bio.sector, n);
    FrontGood(h, s, id, bio.sector, n);
    if neighbour.Some? && MayJoin(t, neighbour.value, id) && joint {
      JoinGood(h, t, neighbour.value, id);
    } else {
      CachedGood(h, t, id);
    }
  }

  lemma {:induction false} DelRqs(s: State, id: int)
    ensures Del(s, id).rqs == s.rqs && Del(s, id).lastMerge == s.lastMerge
  {
  }

  // ---------------------------------------------------------------- runs

  /** What happens under the queue lock: a bio looks for a request to join, a new request comes, the
      scheduler hands one over to the dispatch queue. */
  datatype Event =
    | Submit(bio: Bio, noMerges: bool, noXMerges: bool, front: Option<int>, room: bool, neighbour: Option<int>, joint: bool)
    | Arrive(id: int, rq: Rq)
    | Dispatch(id: int)

  ghost predicate Allowed(h: HashFn, s: State, e: Event) {
    match e
    case Submit(bio, noMerges, noXMerges, front, _, neighbour, _) =>
      FrontOk(s, bio, front) &&
      var a := Merge(h, s, bio, noMerges, noXMerges, front).1;
      neighbour.Some? ==> neighbour.value in s.rqs && (a != NoMerge ==> neighbour.value != a.id)
    case Arrive(id, _) => id !in s.rqs
    case Dispatch(id) => id in s.rqs
  }

  ghost function Step(h: HashFn, s: State, e: Event): State
    requires Good(h, s) && Allowed(h, s, e)
  {
    match e
    case Submit(bio, noMerges, noXMerges, front, room, neighbour, joint) =>
      MergeIs(h, s, bio, noMerges, noXMerges, front);
      var (t, a) := Merge(h, s, bio, noMerges, noXMerges, front);
      Arm(h, t, bio, a, room, neighbour, joint)
    case Arrive(id, r) => Insert(h, s, id, r)
    case Dispatch(id) => Leave(s, id)
  }

  lemma {:induction false} StepGood(h: HashFn, s: State, e: Event)
    requires Good(h, s) && Allowed(h, s, e)
    ensures Good(h, Step(h, s, e))
  {
    hide Good, Merge, Arm, Insert, Leave;
    match e
    case Submit(bio, noMerges, noXMerges, front, room, neighbour, joint) =>
      MergeIs(h, s, bio, noMerges, noXMerges, front);
      var (t, a) := Merge(h, s, bio, noMerges, noXMerges, front);
      ArmGood(h, t, bio, a, room, neighbour, joint);
    case Arrive(id, r) => InsertGood(h, s, id, r);
    case Dispatch(id) => LeaveGood(h, s, id);
  }

  /** s leads to t by some events. */
  ghost predicate Run(h: HashFn, s: State, es: List<Event>, t: State)
    requires Good(h, s)
    decreases es
  {
    match es
    case Nil => s == t
    case Cons(e, r) => Allowed(h, s, e) && (StepGood(h, s, e); Run(h, Step(h, s, e), r, t))
  }

  function Empty(): State {
    State(map[], seq(ENTRIES, i => Nil), map[], None)
  }

  lemma {:induction false} RunGood(h: HashFn, s: State, es: List<Event>, t: State)
    requires Good(h, s) && Run(h, s, es, t)
    ensures Good(h, t)
    decreases es
  {
    hide Good, Allowed, Step;
    if es.Cons? {
      StepGood(h, s, es.head);
      RunGood(h, Step(h, s, es.head), es.tail, t);
    }
  }

  lemma {:induction false} EmptyGood(h: HashFn)
    requires InRange(h)
    ensures Good(h, Empty())
  {
  }

  ghost predicate Reachable(h: HashFn, es: List<Event>, t: State)
    requires InRange(h)
  {
    EmptyGood(h);
    Run(h, Empty(), es, t)
  }

  /** A hashed request is in the scheduler, and in the chain of its current end sector. */
  predicate RightChain(h: HashFn, s: State, id: int) {
    && id in s.on && id in s.rqs
    && s.on[id] == h(End(s.rqs[id])) < |s.hash|
    && Member(s.hash[s.on[id]], id)
  }

  /** In every state that any run reaches, the lookup agrees with a scan, every hashed request is in its
      chain, and the cache holds a request of the scheduler or nothing. */
  lemma {:induction false} HashAgreesWithScan(h: HashFn, es: List<Event>, t: State, offset: nat)
    requires InRange(h) && Reachable(h, es, t)
    ensures Find(h, t, offset).1.Some? ==> Candidate(t, Find(h, t, offset).1.value, offset)
    ensures Find(h, t, offset).1.None? <==> NoCandidate(t, offset)
    ensures forall id :: id in t.on ==> RightChain(h, t, id)
    ensures forall id :: id in t.rqs && !t.rqs[id].noMerge ==> id in t.on
    ensures t.lastMerge.Some? ==> t.lastMerge.value in t.rqs
  {
    EmptyGood(h);
    RunGood(h, Empty(), es, t);
    FindIsScan(h, t, offset);
    hide Find, NoCandidate;
    forall id | id in t.on ensures RightChain(h, t, id) {
      assert InPlace(h, t, id);
    }
    forall id | id in t.rqs && !t.rqs[id].noMerge ensures id in t.on {
      assert Findable(t, id);
    }
  }
}
