/**
 One queue on a tag map, as blk-tag.c runs it: the search for a free tag, giving a tag back, resizing the
 map, and taking back all requests that are out.
 */
module TagCode {
  import opened Lists
  import opened TagModel
  import opened TagProof

  // ---------------------------------------------------------------- the order of starts

  function Reverse<T>(l: List<T>): List<T> {
    match l
    case Nil => Nil
    case Cons(x, r) => Append(Reverse(r), Cons(x, Nil))
  }

  datatype Change = Started(r: int) | Ended(r: int)

  /** The requests that are out, by the order in which they were started. */
  function Outstanding(cs: List<Change>): List<int> {
    match cs                             // the latest change is the first
    case Nil => Nil
    case Cons(Started(r), rest) => Append(Outstanding(rest), Cons(r, Nil))
    case Cons(Ended(r), rest) => Remove(Outstanding(rest), r)
  }

  /** tag_busy_list: a request that is started goes to its head. */
  function Busy(cs: List<Change>): List<int> {
    match cs
    case Nil => Nil
    case Cons(Started(r), rest) => Cons(r, Busy(rest))
    case Cons(Ended(r), rest) => Remove(Busy(rest), r)
  }

  /** Nothing is started that is out. */
  predicate Proper(cs: List<Change>) {
    match cs
    case Nil => true
    case Cons(Started(r), rest) => !Member(Busy(rest), r) && Proper(rest)
    case Cons(Ended(_), rest) => Proper(rest)
  }

  lemma {:induction false} ReverseMembers<T(!new)>(l: List<T>, x: T)
    ensures Member(Reverse(l), x) <==> Member(l, x)
  {
    if l.Cons? {
      ReverseMembers(l.tail, x);
      AppendMembers(Reverse(l.tail), Cons(l.head, Nil), x);
    }
  }

  lemma {:induction false} AppendMembers<T(!new)>(a: List<T>, b: List<T>, x: T)
    ensures Member(Append(a, b), x) <==> Member(a, x) || Member(b, x)
  {
    if a.Cons? { AppendMembers(a.tail, b, x); }
  }

  lemma {:induction false} RemoveAppend<T(!new)>(a: List<T>, b: List<T>, x: T)
    ensures Remove(Append(a, b), x) == if Member(a, x) then Append(Remove(a, x), b) else Append(a, Remove(b, x))
  {
    if a.Cons? && a.head != x { RemoveAppend(a.tail, b, x); }
  }

  lemma {:induction false} ReverseRemove<T(!new)>(l: List<T>, x: T)
    requires Distinct(l)
    ensures Reverse(Remove(l, x)) == Remove(Reverse(l), x)
  {
    if l.Cons? {
      RemoveAppend(Reverse(l.tail), Cons(l.head, Nil), x);
      ReverseMembers(l.tail, x);
      if l.head == x {
        AppendNil(Reverse(l.tail));
      } else {
        ReverseRemove(l.tail, x);
        if !Member(l.tail, x) { RemoveNone(l.tail, x); }
      }
    }
  }

  /** The busy list is the start order backwards, whatever has ended in between. */
  lemma {:induction false} BusyIsBackwards(cs: List<Change>)
    requires Proper(cs)
    ensures Reverse(Busy(cs)) == Outstanding(cs) && Distinct(Busy(cs))
  {
    if cs.Cons? {
      BusyIsBackwards(cs.tail);
      if cs.head.Ended? {
        RemoveKeeps(Busy(cs.tail), cs.head.r);
        ReverseRemove(Busy(cs.tail), cs.head.r);
      }
    }
  }

  // ---------------------------------------------------------------- the order of requests put back

  /** elv_insert(ELEVATOR_INSERT_REQUEUE): in front of the first entry of the same or a later stage. */
  function PutIn(stage: int -> int, x: int, q: List<int>): List<int> {
    if q.Nil? || stage(x) <= stage(q.head) then Cons(x, q) else Cons(q.head, PutIn(stage, x, q.tail))
  }

  /** Without an ordered sequence there are no stages, and the place is the front. */
  function Place(stages: Option<int -> int>, x: int, q: List<int>): List<int> {
    if stages.None? then Cons(x, q) else PutIn(stages.value, x, q)
  }

  /** The requests of l are put back into q, the last of them first. */
  function PutBack(stages: Option<int -> int>, l: List<int>, q: List<int>): List<int> {
    match l
    case Nil => q
    case Cons(x, r) => Place(stages, x, PutBack(stages, r, q))
  }

  lemma {:induction false} PutBackAppend(stages: Option<int -> int>, l: List<int>, m: List<int>, q: List<int>)
    ensures PutBack(stages, Append(l, m), q) == PutBack(stages, l, PutBack(stages, m, q))
  {
    if l.Cons? { PutBackAppend(stages, l.tail, m, q); }
  }

  /** Without stages all go to the front as they are. */
  lemma {:induction false} PutBackInFront(l: List<int>, q: List<int>)
    ensures PutBack(None, l, q) == Append(l, q)
  {
    if l.Cons? { PutBackInFront(l.tail, q); }
  }

  /** The entries of one stage. */
  function Of(stage: int -> int, k: int, l: List<int>): List<int> {
    match l
    case Nil => Nil
    case Cons(x, r) => if stage(x) == k then Cons(x, Of(stage, k, r)) else Of(stage, k, r)
  }

  predicate InStages(stage: int -> int, l: List<int>) {
    l.Cons? && l.tail.Cons? ==> stage(l.head) <= stage(l.tail.head) && InStages(stage, l.tail)
  }

  lemma {:induction false} PutInOf(stage: int -> int, x: int, q: List<int>, k: int)
    ensures Of(stage, k, PutIn(stage, x, q)) == if stage(x) == k then Cons(x, Of(stage, k, q)) else Of(stage, k, q)
  {
    if q.Cons? { PutInOf(stage, x, q.tail, k); }
  }

  lemma {:induction false} PutInStages(stage: int -> int, x: int, q: List<int>)
    requires InStages(stage, q)
    ensures InStages(stage, PutIn(stage, x, q))
    ensures q.Cons? && stage(q.head) < stage(x) ==> PutIn(stage, x, q).head == q.head
  {
    if q.Cons? { PutInStages(stage, x, q.tail); }
  }

  /** In each stage the requests put back come first, in their own order; and a queue in order of stages
      stays so. */
  lemma {:induction false} PutBackInOrder(stage: int -> int, l: List<int>, q: List<int>, k: int)
    ensures Of(stage, k, PutBack(Some(stage), l, q)) == Append(Of(stage, k, l), Of(stage, k, q))
    ensures InStages(stage, q) ==> InStages(stage, PutBack(Some(stage), l, q))
  {
    if l.Cons? {
      var rest := PutBack(Some(stage), l.tail, q);
      PutBackInOrder(stage, l.tail, q, k);
      PutInOf(stage, l.head, rest, k);
      if InStages(stage, q) { PutInStages(stage, l.head, rest); }
    }
  }

  // ---------------------------------------------------------------- a queue by itself

  /** What a start and an end come to when no other queue acts in between. */
  function Taken(s: State, r: int, t: nat): State
    requires r in s.rqs
  {
    To(SetIndex(SetBit(s, t, true), t, Some(r)), r, Tagged(t))
  }

  function Given(s: State, r: int, t: nat): State
    requires r in s.rqs
  {
    To(SetIndex(SetBit(s, t, false), t, None), r, Idle)
  }

  lemma {:induction false} TakenIsRun(s: State, r: int, sync: bool, t: nat)
    requires Good(s) && Allowed(s, Start(r, sync)) && t < Limit(s.maxDepth, sync) && t < |s.bits| && !s.bits[t]
    ensures Run(s, Cons(Start(r, sync), Cons(Scan(r, t), Cons(TestAndSet(r), Cons(Enter(r), Nil)))), Taken(s, r, t))
    ensures Good(Taken(s, r, t))
  {
    var limit := Limit(s.maxDepth, sync);
    var q := s.rqs[r].queue;
    var s1 := Step(s, Start(r, sync));
    var s2 := Step(s1, Scan(r, t));
    var s3 := Step(s2, TestAndSet(r));
    assert s3 == To(SetBit(Locked(s, r), t, true), r, Setting(t));
    assert s.working[q := r] - {q} == s.working;
    assert Step(s3, Enter(r)) == Taken(s, r, t);
    var es := Cons(Start(r, sync), Cons(Scan(r, t), Cons(TestAndSet(r), Cons(Enter(r), Nil))));
    hide Step, Good;
    assert Run(Taken(s, r, t), Nil, Taken(s, r, t));
    assert Run(s3, Cons(Enter(r), Nil), Taken(s, r, t));
    assert Run(s2, es.tail.tail, Taken(s, r, t));
    assert Run(s1, es.tail, Taken(s, r, t));
    RunGood(s, es, Taken(s, r, t));
  }

  lemma {:induction false} GivenIsRun(s: State, r: int)
    requires Good(s) && Allowed(s, End(r))
    ensures Run(s, Cons(End(r), Cons(Leave(r), Cons(ClearBit(r), Nil))), Given(s, r, s.rqs[r].stage.tag))
    ensures Good(Given(s, r, s.rqs[r].stage.tag))
  {
    var t := s.rqs[r].stage.tag;
    var q := s.rqs[r].queue;
    var s1 := Step(s, End(r));
    var s2 := Step(s1, Leave(r));
    assert s2 == To(SetIndex(Locked(s, r), t, None), r, Clearing(t));
    assert s.working[q := r] - {q} == s.working;
    assert Step(s2, ClearBit(r)) == Given(s, r, t);
    var es := Cons(End(r), Cons(Leave(r), Cons(ClearBit(r), Nil)));
    hide Step, Good;
    assert Run(Given(s, r, t), Nil, Given(s, r, t));
    assert Run(s2, es.tail.tail, Given(s, r, t));
    assert Run(s1, es.tail, Given(s, r, t));
    RunGood(s, es, Given(s, r, t));
  }

  /** A cleared array of another length with the first n entries copied into it. */
  method CopyOf<T>(from: array<T>, n: nat, length: nat, zero: T) returns (a: array<T>)
    requires n <= from.Length
    ensures fresh(a) && a[..] == Copied(from[..], n, length, zero)
  {
    a := new T[length](_ => zero);
    forall i | 0 <= i < n && i < length { a[i] := from[i]; }
  }

  class TagQueue {
    const me: int
    const word: WordSize                 // BITS_PER_LONG
    var tagIndex: array<Option<int>>
    var tagMap: array<bool>
    var maxDepth: nat
    var realDepth: nat
    var queues: set<int>                 // the queues on the map; refcnt is their number
    var rqs: map<int, Rq>
    var tagBusyList: List<int>
    var queueHead: List<int>
    var inFlightAsync: nat
    ghost var overrun: bool              // memory behind a map was written
    ghost var working: map<int, int>
    ghost var changes: List<Change>

    ghost function Abs(): State
      reads this, tagIndex, tagMap
    {
      State(tagMap[..], tagIndex[..], maxDepth, realDepth, queues, rqs, working, word, overrun)
    }

    /** The requests of this queue that have a tag. */
    ghost predicate Out(r: int)
      reads this
    {
      r in rqs && rqs[r].queue == me && rqs[r].stage.Tagged?
    }

    ghost predicate Valid()
      reads this, tagIndex, tagMap
    {
      && Good(Abs()) && me in queues && me !in working
      && Proper(changes) && tagBusyList == Busy(changes)
      && (forall r :: Member(tagBusyList, r) <==> Out(r))
    }

    constructor (me: int, word: WordSize, depth: nat)
      ensures Valid() && Abs() == Fresh(word, depth).(queues := {me}) && queueHead == Nil && changes == Nil
    {
      this.me, this.word := me, word;
      tagIndex := new Option<int>[depth](_ => None);
      tagMap := new bool[Words(word, depth)](_ => false);
      maxDepth, realDepth, queues, rqs := depth, depth, {me}, map[];
      tagBusyList, queueHead, inFlightAsync := Nil, Nil, 0;
      overrun, working, changes := false, map[], Nil;
      new;
      assert tagMap[..] == Fresh(word, depth).bits && tagIndex[..] == Fresh(word, depth).index;
      FreshGood(word, depth);
      NewGood(Fresh(word, depth), Join(me));
    }

    /** find_first_zero_bit */
    method FindFirstZero(limit: nat) returns (tag: nat)
      requires limit <= tagMap.Length
      ensures tag <= limit && (forall k :: 0 <= k < tag ==> tagMap[k])
      ensures tag < limit ==> !tagMap[tag]
    {
      tag := 0;
      while tag < limit && tagMap[tag]
        invariant tag <= limit && forall k :: 0 <= k < tag ==> tagMap[k]
      {
        tag := tag + 1;
      }
    }

    /** A free tag for r, the lowest there is, or none. */
    method StartTag(r: int, sync: bool) returns (tag: Option<nat>)
      requires Valid() && r in rqs && rqs[r] == Rq(me, Idle)
      modifies this`rqs, this`tagBusyList, this`changes, tagMap, tagIndex
      ensures Valid()
      ensures tag.None? ==> (
        && Abs() == old(Abs()) && changes == old(changes)
        && ((!sync && maxDepth > 1 && inFlightAsync > Limit(maxDepth, sync))
            || forall k :: 0 <= k < Limit(maxDepth, sync) && k < tagMap.Length ==> old(tagMap[k])))
      ensures tag.Some? ==> (
        && tag.value < Limit(maxDepth, sync) && tag.value < tagMap.Length && !old(tagMap[tag.value])
        && (forall k :: 0 <= k < tag.value ==> old(tagMap[k]))
        && Abs() == Taken(old(Abs()), r, tag.value) && changes == Cons(Started(r), old(changes)))
    {
      hide Good;
      DepthsFit(Abs());
      var limit := maxDepth;
      if !sync && limit > 1 {
        limit := limit - 2;
        if limit == 0 {
          limit := 1;
        }
        if inFlightAsync > limit {
          return None;
        }
      }
      var t := FindFirstZero(limit);
      if t >= limit {
        return None;
      }
      TakenIsRun(Abs(), r, sync, t);
      AssignTag(r, t);
      return Some(t);
    }

    method AssignTag(r: int, t: nat)
      requires Valid() && r in rqs && rqs[r] == Rq(me, Idle) && t < tagMap.Length && t < tagIndex.Length
      requires Good(Taken(Abs(), r, t))
      modifies this`rqs, this`tagBusyList, this`changes, tagMap, tagIndex
      ensures Valid() && Abs() == Taken(old(Abs()), r, t) && changes == Cons(Started(r), old(changes))
    {
      hide Good;
      assert !Out(r);
      assert !Member(tagBusyList, r);
      tagMap[t] := true;
      rqs := rqs[r := Rq(me, Tagged(t))];
      tagIndex[t] := Some(r);
      tagBusyList := Cons(r, tagBusyList);
      changes := Cons(Started(r), changes);
      assert Abs() == Taken(old(Abs()), r, t);
      forall x ensures Member(tagBusyList, x) <==> Out(x) {
        assert Member(old(tagBusyList), x) <==> old(Out(x));
      }
    }

    /** r gives its tag back; the three ways out that would leave the books wrong are not taken. */
    method EndTag(r: int)
      requires Valid() && Out(r)
      modifies this`rqs, this`tagBusyList, this`changes, tagMap, tagIndex
      ensures Valid() && Abs() == Given(old(Abs()), r, old(rqs[r].stage.tag))
      ensures changes == Cons(Ended(r), old(changes)) && tagBusyList == Remove(old(tagBusyList), r)
    {
      hide Good;
      var tag := rqs[r].stage.tag;
      TagFits(Abs(), r);
      GivenIsRun(Abs(), r);
      BusyIsBackwards(changes);
      RemoveKeeps(tagBusyList, r);
      assert !(tag >= realDepth);
      tagBusyList := Remove(tagBusyList, r);
      changes := Cons(Ended(r), changes);
      rqs := rqs[r := Rq(me, Idle)];
      assert tagIndex[tag] == Some(r);
      tagIndex[tag] := None;
      assert tagMap[tag];
      tagMap[tag] := false;
    }

    /** A new map with the old entries in it; copies that go on behind it are not followed. */
    method ReplaceMap(depth: nat)
      requires tagIndex.Length == realDepth && tagMap.Length == Words(word, realDepth)
      modifies this`maxDepth, this`realDepth, this`tagIndex, this`tagMap, this`overrun
      ensures Abs() == Grown(old(Abs()), depth) && fresh(tagIndex) && fresh(tagMap)
    {
      hide Words;
      var index := CopyOf(tagIndex, realDepth, depth, None);
      var bits := CopyOf(tagMap, Words(word, realDepth), Words(word, depth), false);
      overrun := overrun || !CopyFits(Abs(), depth);
      tagIndex, tagMap, realDepth, maxDepth := index, bits, depth, depth;
    }

    /** 0, or -EBUSY when the map is too small and shared; the books are right exactly if the new map, where
        there is one, is not smaller. */
    method ResizeTags(newDepth: nat, nrRequests: nat) returns (err: int)
      requires Valid()
      modifies this`maxDepth, this`realDepth, this`tagIndex, this`tagMap, this`overrun
      ensures Abs() == Resized(old(Abs()), newDepth, nrRequests)
      ensures Valid() <==> Roomy(old(Abs()), Resize(me, newDepth, nrRequests))
      ensures overrun <==> !Roomy(old(Abs()), Resize(me, newDepth, nrRequests))
      ensures err == if newDepth > old(realDepth) && |queues| != 1 then -EBUSY else 0
    {
      hide Good, Grown, Words;
      ResizeGoodIffRoomy(Abs(), Resize(me, newDepth, nrRequests));
      ResizeOverruns(Abs(), Resize(me, newDepth, nrRequests));
      DepthsFit(Abs());
      err := 0;
      if newDepth <= realDepth {
        maxDepth := newDepth;
      } else if |queues| != 1 {
        err := -EBUSY;
      } else {
        var depth := newDepth;
        if depth > nrRequests * 2 {
          depth := nrRequests * 2;
        }
        ReplaceMap(depth);
      }
      assert Abs() == Resized(old(Abs()), newDepth, nrRequests);
      forall x ensures Member(tagBusyList, x) <==> Out(x) {
        assert Member(old(tagBusyList), x) <==> old(Out(x));
      }
    }

    /** All requests that are out are put back on the queue, in the order in which they were started: at its
        front, or each in the stage it belongs to while an ordered sequence is in progress. */
    method InvalidateTags(stages: Option<int -> int>)
      requires Valid()
      modifies this`rqs, this`tagBusyList, this`changes, this`queueHead, tagMap, tagIndex
      ensures Valid() && tagBusyList == Nil && (forall r :: !Out(r))
      ensures queueHead == PutBack(stages, Outstanding(old(changes)), old(queueHead))
      ensures stages.None? ==> queueHead == Append(Outstanding(old(changes)), old(queueHead))
      ensures forall r :: r in rqs && rqs[r].queue != me ==> r in old(rqs) && rqs[r] == old(rqs)[r]
    {
      hide Good;
      BusyIsBackwards(changes);
      PutBackInFront(Outstanding(changes), queueHead);
      ghost var was, queue := tagBusyList, queueHead;
      while tagBusyList.Cons?
        modifies this`rqs, this`tagBusyList, this`changes, this`queueHead, tagMap, tagIndex
        invariant Valid() && tagIndex == old(tagIndex) && tagMap == old(tagMap)
        invariant PutBack(stages, Reverse(tagBusyList), queueHead) == PutBack(stages, Reverse(was), queue)
        invariant forall r :: r in rqs && rqs[r].queue != me ==> r in old(rqs) && rqs[r] == old(rqs)[r]
        decreases tagBusyList
      {
        var r := tagBusyList.head;
        assert Member(tagBusyList, r);
        PutBackAppend(stages, Reverse(tagBusyList.tail), Cons(r, Nil), queueHead);
        EndTag(r);
        queueHead := Place(stages, r, queueHead);
      }
      forall r ensures !Out(r) { assert !Member(tagBusyList, r); }
    }
  }

  const EBUSY := 16

  lemma {:induction false} DepthsFit(s: State)
    requires Good(s)
    ensures s.maxDepth <= s.realDepth <= |s.bits| && |s.bits| == Words(s.word, s.realDepth) && |s.index| == s.realDepth
  {
  }

  lemma {:induction false} ResizeOverruns(s: State, e: Event)
    requires Good(s) && e.Resize?
    ensures Resized(s, e.depth, e.nrRequests).overrun <==> !Roomy(s, e)
  {
    if e.depth > s.realDepth && |s.queues| == 1 { CopyFitsIffRoomy(s, e); }
  }

  lemma {:induction false} TagFits(s: State, r: int)
    requires Good(s) && StageOf(s, r).Tagged?
    ensures var t := StageOf(s, r).tag;
      t < s.realDepth && t < |s.bits| && t < |s.index| && s.bits[t] && s.index[t] == Some(r)
  {
    DepthsFit(s);
    assert StageFits(s, r);
    assert Owns(s, r, StageOf(s, r).tag);
    assert Entered(s, r, StageOf(s, r).tag);
  }
}
