/**
 What every interleaving keeps of a shared tag map.
 */
module TagProof {
  import opened Lists
  import opened TagModel

  lemma {:induction false} WordsEnough(word: WordSize, depth: nat)
    ensures depth <= Words(word, depth)
  {
  }

  lemma {:induction false} WordsGrow(word: WordSize, a: nat, b: nat)
    requires a <= b
    ensures Words(word, a) <= Words(word, b)
  {
    var m, n := a + word - 1, b + word - 1;
    assert m == m / word * word + m % word && n == n / word * word + n % word;
    if m / word > n / word { Times(n / word + 1, m / word, word); }
    Times(m / word, n / word, word);
  }

  lemma {:induction false} Times(a: nat, b: nat, c: nat)
    ensures a <= b ==> a * c <= b * c
  {
  }

  /** Two states in which everybody but r is in the same stage. */
  ghost predicate Others(s: State, t: State, r: int) {
    forall x :: x != r ==> StageOf(t, x) == StageOf(s, x)
  }

  /** r owns and is entered as before, and so is everybody else. */
  lemma {:induction false} SameBooks(s: State, t: State, r: int)
    requires BitsRight(s) && Single(s) && IndexRight(s) && Others(s, t, r)
    requires t.bits == s.bits && t.index == s.index
    requires forall k: nat :: Owns(t, r, k) <==> Owns(s, r, k)
    requires forall k: nat :: Entered(t, r, k) <==> Entered(s, r, k)
    ensures BitsRight(t) && Single(t) && IndexRight(t)
  {
    forall x, k: nat ensures (Owns(t, x, k) <==> Owns(s, x, k)) && (Entered(t, x, k) <==> Entered(s, x, k)) { }
    forall k: nat ensures Owned(t, k) <==> Owned(s, k) {
      if Owned(t, k) {
        var x :| Owns(t, x, k);
        assert Owns(s, x, k);
      }
      if Owned(s, k) {
        var x :| Owns(s, x, k);
        assert Owns(t, x, k);
      }
    }
  }

  /** The bit was free, so the one who sets it is its only owner. */
  lemma {:induction false} TakeBooks(s: State, t: State, r: int, k: nat)
    requires BitsRight(s) && Single(s) && IndexRight(s) && Others(s, t, r)
    requires k < |s.bits| && !s.bits[k] && t.bits == s.bits[k := true] && t.index == s.index
    requires StageOf(s, r).Found? && StageOf(t, r) == Setting(k)
    ensures BitsRight(t) && Single(t) && IndexRight(t)
  {
    assert !Owned(s, k);
    forall x, j: nat
      ensures (Owns(t, x, j) <==> Owns(s, x, j) || (x == r && j == k)) && (Entered(t, x, j) <==> Entered(s, x, j))
    { }
    forall x ensures !Owns(s, x, k) { }
    forall j: nat ensures Owned(t, j) <==> Owned(s, j) || j == k {
      assert Owns(t, r, k);
      if Owned(t, j) {
        var x :| Owns(t, x, j);
        assert Owns(s, x, j) || j == k;
      }
      if Owned(s, j) {
        var x :| Owns(s, x, j);
        assert Owns(t, x, j);
      }
    }
  }

  /** The owner clears the bit, and there was no other owner. */
  lemma {:induction false} ClearBooks(s: State, t: State, r: int, k: nat)
    requires BitsRight(s) && Single(s) && IndexRight(s) && Others(s, t, r)
    requires k < |s.bits| && t.bits == s.bits[k := false] && t.index == s.index
    requires StageOf(s, r) == Clearing(k) && StageOf(t, r) == Idle
    ensures BitsRight(t) && Single(t) && IndexRight(t)
  {
    assert Owns(s, r, k);
    forall x, j: nat
      ensures (Owns(t, x, j) <==> Owns(s, x, j) && x != r) && (Entered(t, x, j) <==> Entered(s, x, j))
    { }
    forall j: nat ensures Owned(t, j) <==> Owned(s, j) && j != k {
      if Owned(t, j) {
        var x :| Owns(t, x, j);
        assert Owns(s, x, j);
      }
      if Owned(s, j) && j != k {
        var x :| Owns(s, x, j);
        assert x != r;
        assert Owns(t, x, j);
      }
    }
  }

  /** While r owns the tag nobody else writes its entry. */
  lemma {:induction false} EntryBooks(s: State, t: State, r: int, k: nat)
    requires BitsRight(s) && Single(s) && IndexRight(s) && Others(s, t, r)
    requires k < |s.index| && t.bits == s.bits && Owns(s, r, k)
    requires (StageOf(t, r) == Tagged(k) && t.index == s.index[k := Some(r)])
          || (StageOf(t, r) == Clearing(k) && t.index == s.index[k := None])
    ensures BitsRight(t) && Single(t) && IndexRight(t)
  {
    forall x, j: nat ensures Owns(t, x, j) <==> Owns(s, x, j) { }
    forall x | Entered(s, x, k) ensures x == r { assert Owns(s, x, k); }
    forall x, j: nat ensures Entered(t, x, j) <==> (if x == r then j == k && StageOf(t, r).Tagged? else Entered(s, x, j)) { }
    forall j: nat ensures Owned(t, j) <==> Owned(s, j) {
      if Owned(t, j) {
        var x :| Owns(t, x, j);
        assert Owns(s, x, j);
      }
      if Owned(s, j) {
        var x :| Owns(s, x, j);
        assert Owns(t, x, j);
      }
    }
    forall x, j: nat | j < |t.index| ensures t.index[j] == Some(x) <==> Entered(t, x, j) {
      assert s.index[j] == Some(x) <==> Entered(s, x, j);
      if x == r && Entered(s, r, j) { assert Owns(s, r, j); }
    }
  }

  /** What a step of r leaves true of everybody's stage and of who holds which lock. */
  lemma {:induction false} StagesKept(s: State, t: State, r: int)
    requires (forall x :: StageFits(s, x)) && (forall x :: WorkFits(s, x)) && Others(s, t, r)
    requires t.realDepth == s.realDepth && t.queues == s.queues && r in s.rqs
    requires t.rqs == s.rqs[r := s.rqs[r].(stage := StageOf(t, r))]
    requires StageFits(t, r)
    requires if StageOf(t, r).Idle? || StageOf(t, r).Tagged? then
        t.working == s.working - {s.rqs[r].queue} && s.rqs[r].queue in s.working && s.working[s.rqs[r].queue] == r
      else
        t.working == s.working[s.rqs[r].queue := r]
        && (s.rqs[r].queue in s.working ==> s.working[s.rqs[r].queue] == r)
    ensures (forall x :: StageFits(t, x)) && (forall x :: WorkFits(t, x))
  {
    forall x ensures StageFits(t, x) { assert StageFits(s, x); }
    forall x ensures WorkFits(t, x) {
      assert WorkFits(s, x);
      assert WorkFits(s, r);
    }
  }

  // ---------------------------------------------------------------- steps

  lemma {:induction false} Works(s: State, r: int)
    requires Good(s) && !StageOf(s, r).Idle? && !StageOf(s, r).Tagged?
    ensures s.rqs[r].queue in s.working && s.working[s.rqs[r].queue] == r
    ensures s.working[s.rqs[r].queue := r] == s.working
  {
    assert WorkFits(s, r);
  }

  /** Steps of a request that write neither the bits nor the index. */
  lemma {:induction false} QuietGood(s: State, e: Event)
    requires Good(s) && Allowed(s, e)
    requires e.Start? || e.Scan? || e.ScanNone? || e.End?
    ensures Good(Step(s, e))
  {
    var t := Step(s, e);
    var r := e.r;
    assert StageFits(s, r);
    if e.Scan? || e.ScanNone? { Works(s, r); }
    SameBooks(s, t, r);
    StagesKept(s, t, r);
  }

  lemma {:induction false} TestAndSetGood(s: State, r: int)
    requires Good(s) && Allowed(s, TestAndSet(r))
    ensures Good(Step(s, TestAndSet(r)))
  {
    var t := Step(s, TestAndSet(r));
    var k := s.rqs[r].stage.tag;
    assert StageFits(s, r);
    WordsEnough(s.word, s.realDepth);
    Works(s, r);
    if s.bits[k] { SameBooks(s, t, r); } else { TakeBooks(s, t, r, k); }
    StagesKept(s, t, r);
  }

  lemma {:induction false} EntryGood(s: State, e: Event)
    requires Good(s) && Allowed(s, e) && (e.Enter? || e.Leave?)
    ensures Good(Step(s, e))
  {
    var t := Step(s, e);
    var r := e.r;
    assert StageFits(s, r);
    Works(s, r);
    EntryBooks(s, t, r, s.rqs[r].stage.tag);
    StagesKept(s, t, r);
  }

  lemma {:induction false} ClearBitGood(s: State, r: int)
    requires Good(s) && Allowed(s, ClearBit(r))
    ensures Good(Step(s, ClearBit(r)))
  {
    var t := Step(s, ClearBit(r));
    assert StageFits(s, r);
    WordsEnough(s.word, s.realDepth);
    Works(s, r);
    ClearBooks(s, t, r, s.rqs[r].stage.tag);
    StagesKept(s, t, r);
  }

  /** A new queue or a new request. */
  lemma {:induction false} NewGood(s: State, e: Event)
    requires Good(s) && Allowed(s, e) && (e.Join? || e.NewRequest?)
    ensures Good(Step(s, e))
  {
    var t := Step(s, e);
    var r := if e.NewRequest? then e.r else 0;
    SameBooks(s, t, r);
    forall x ensures StageFits(t, x) && WorkFits(t, x) {
      assert StageFits(s, x) && WorkFits(s, x);
    }
  }

  // ---------------------------------------------------------------- resizing

  /** A lone queue that holds its lock and works on no request: nobody is between two steps. */
  lemma {:induction false} NobodyBetween(s: State, q: int, r: int)
    requires Good(s) && |s.queues| == 1 && q in s.queues && q !in s.working
    ensures StageOf(s, r).Idle? || StageOf(s, r).Tagged?
  {
    assert WorkFits(s, r);
    assert |s.queues - {q}| == 0;
    assert r in s.rqs ==> s.rqs[r].queue !in s.queues - {q};
  }

  /** A map that is replaced by one that is not shorter keeps the tags in flight. */
  lemma {:induction false} GrowKeepsTags(s: State, q: int, depth: nat)
    requires Good(s) && |s.queues| == 1 && q in s.queues && q !in s.working && s.realDepth <= depth
    ensures Good(Grown(s, depth))
  {
    var t := Grown(s, depth);
    forall r ensures StageOf(t, r) == StageOf(s, r) && (StageOf(s, r).Idle? || StageOf(s, r).Tagged?) {
      NobodyBetween(s, q, r);
    }
    WordsGrow(s.word, s.realDepth, depth);
    GrownBooks(s, q, depth);
    forall r ensures StageFits(t, r) && WorkFits(t, r) {
      assert StageFits(s, r) && WorkFits(s, r);
    }
  }

  lemma {:induction false} GrownBooks(s: State, q: int, depth: nat)
    requires Good(s) && |s.queues| == 1 && q in s.queues && q !in s.working && s.realDepth <= depth
    ensures BitsRight(Grown(s, depth)) && Single(Grown(s, depth)) && IndexRight(Grown(s, depth))
  {
    var t := Grown(s, depth);
    forall r, k: nat
      ensures (Owns(t, r, k) <==> Owns(s, r, k)) && (Entered(t, r, k) <==> Entered(s, r, k))
    { }
    forall r, k: nat | Owns(s, r, k) ensures k < s.realDepth { assert StageFits(s, r); }
    WordsEnough(s.word, s.realDepth);
    WordsEnough(s.word, depth);
    hide Words;
    forall k: nat | k < |t.bits| ensures t.bits[k] <==> Owned(t, k) {
      if Owned(t, k) {
        var x :| Owns(t, x, k);
        assert Owns(s, x, k);
      }
      if k < |s.bits| && s.bits[k] {
        var x :| Owns(s, x, k);
        assert Owns(t, x, k);
      }
    }
    forall k: nat, r | k < |t.index| ensures t.index[k] == Some(r) <==> Entered(t, r, k) {
      if Entered(s, r, k) { assert Owns(s, r, k); }
    }
  }

  /** What a caller can see to: the old depth is not above twice nr_requests. */
  predicate Roomy(s: State, e: Event) {
    e.Resize? && e.depth > s.realDepth && |s.queues| == 1 ==> s.realDepth <= e.nrRequests * 2
  }

  /** When the map is replaced, both copies stay inside the new one exactly under that condition. */
  lemma {:induction false} CopyFitsIffRoomy(s: State, e: Event)
    requires e.Resize? && e.depth > s.realDepth && |s.queues| == 1
    ensures CopyFits(s, Adjusted(e.depth, e.nrRequests)) <==> Roomy(s, e)
  {
    var depth := Adjusted(e.depth, e.nrRequests);
    if s.realDepth <= depth { WordsGrow(s.word, s.realDepth, depth); }
  }

  /** A resize keeps the books exactly under that condition. */
  lemma {:induction false} ResizeGoodIffRoomy(s: State, e: Event)
    requires Good(s) && Allowed(s, e) && e.Resize?
    ensures Good(Step(s, e)) <==> Roomy(s, e)
  {
    var t := Step(s, e);
    if e.depth <= s.realDepth {
      SameBooks(s, t, 0);
      forall r ensures StageFits(t, r) && WorkFits(t, r) { assert StageFits(s, r) && WorkFits(s, r); }
    } else if |s.queues| == 1 {
      CopyFitsIffRoomy(s, e);
      if Roomy(s, e) { GrowKeepsTags(s, e.queue, Adjusted(e.depth, e.nrRequests)); }
    }
  }

  // ---------------------------------------------------------------- runs

  lemma {:induction false} StepGood(s: State, e: Event)
    requires Good(s) && Allowed(s, e) && Roomy(s, e)
    ensures Good(Step(s, e))
  {
    hide *;
    if e.Start? || e.Scan? || e.ScanNone? || e.End? {
      QuietGood(s, e);
    } else if e.TestAndSet? {
      TestAndSetGood(s, e.r);
    } else if e.Enter? || e.Leave? {
      EntryGood(s, e);
    } else if e.ClearBit? {
      ClearBitGood(s, e.r);
    } else if e.Resize? {
      ResizeGoodIffRoomy(s, e);
    } else {
      NewGood(s, e);
    }
  }

  predicate Run(s: State, es: List<Event>, t: State)
    decreases es
  {
    match es
    case Nil => s == t
    case Cons(e, r) => Allowed(s, e) && Roomy(s, e) && Run(Step(s, e), r, t)
  }

  /** A new map, with nobody using it. */
  function Fresh(word: WordSize, depth: nat): State {
    State(seq(Words(word, depth), i => false), seq(depth, i => None), depth, depth, {}, map[], map[], word, false)
  }

  lemma {:induction false} FreshGood(word: WordSize, depth: nat)
    ensures Good(Fresh(word, depth))
  {
  }

  lemma {:induction false} RunGood(s: State, es: List<Event>, t: State)
    requires Good(s) && Run(s, es, t)
    ensures Good(t)
    decreases es
  {
    hide Good, Allowed, Roomy, Step;
    if es.Cons? {
      StepGood(s, es.head);
      RunGood(Step(s, es.head), es.tail, t);
    }
  }

  /** A queue gives its one request the last of sixteen tags and is to grow to seventeen while nr_requests is
      four: the new map has eight tags, and the request's is not one of them. */
  lemma {:induction false} GrowLosesTag() returns (es: List<Event>, s: State, e: Event)
    ensures Run(Fresh(32, 16), es, s) && Good(s) && Allowed(s, e) && e == Resize(1, 17, 4)
    ensures s.realDepth == 16 && StageOf(s, 7) == Tagged(15)
    ensures !Roomy(s, e) && Step(s, e).realDepth == 8 && Step(s, e).overrun && !Good(Step(s, e))
  {
    hide Good, Step, Run, Fresh;
    es, s := LastOfSixteen();
    e := Resize(1, 17, 4);
    FreshGood(32, 16);
    RunGood(Fresh(32, 16), es, s);
    ResizeGoodIffRoomy(s, e);
    ResizeCuts(s, e);
  }

  lemma {:induction false} ResizeCuts(s: State, e: Event)
    requires e.Resize? && Allowed(s, e) && e.depth > s.realDepth > e.nrRequests * 2 && |s.queues| == 1
    ensures Step(s, e).realDepth == e.nrRequests * 2 && Step(s, e).overrun
  {
  }

  lemma {:induction false} LastOfSixteen() returns (es: List<Event>, s: State)
    ensures Run(Fresh(32, 16), es, s) && s.realDepth == 16 && s.queues == {1} && 1 !in s.working
    ensures StageOf(s, 7) == Tagged(15)
  {
    var s0 := Fresh(32, 16).(queues := {1}, rqs := map[7 := Rq(1, Idle)]);
    LastTagTaken(s0);
    s := LastTaken(s0);
    var take := Cons(Start(7, true), Cons(Scan(7, 15), Cons(TestAndSet(7), Cons(Enter(7), Nil))));
    es := Cons(Join(1), Cons(NewRequest(7, 1), take));
    var s1 := Step(Fresh(32, 16), Join(1));
    assert s0 == Step(s1, NewRequest(7, 1));
    hide Step, LastTaken, Fresh;
    assert Run(s1, Cons(NewRequest(7, 1), take), s) by { assert Run(s0, take, s); }
  }

  function LastTaken(s: State): State
    requires 7 in s.rqs && |s.bits| == 32 && |s.index| == 16
  {
    s.(bits := s.bits[15 := true], index := s.index[15 := Some(7)], rqs := s.rqs[7 := s.rqs[7].(stage := Tagged(15))])
  }

  lemma {:induction false} LastTagTaken(s: State)
    requires s.maxDepth == 16 && s.realDepth == 16 && |s.bits| == 32 && |s.index| == 16 && !s.bits[15]
    requires 7 in s.rqs && s.rqs[7] == Rq(1, Idle) && s.working == map[]
    ensures Run(s, Cons(Start(7, true), Cons(Scan(7, 15), Cons(TestAndSet(7), Cons(Enter(7), Nil)))), LastTaken(s))
  {
    var a := Step(s, Start(7, true));
    var b := Step(a, Scan(7, 15));
    var c := Step(b, TestAndSet(7));
    assert Step(c, Enter(7)) == LastTaken(s);
    assert Run(c, Cons(Enter(7), Nil), LastTaken(s));
    assert Run(b, Cons(TestAndSet(7), Cons(Enter(7), Nil)), LastTaken(s));
    assert Run(a, Cons(Scan(7, 15), Cons(TestAndSet(7), Cons(Enter(7), Nil))), LastTaken(s));
  }

  /** In every run a bit is set exactly while one request owns the tag. */
  lemma {:induction false} OneOwner(word: WordSize, depth: nat, es: List<Event>, s: State, t: nat)
    requires Run(Fresh(word, depth), es, s) && t < |s.bits|
    ensures s.bits[t] <==> exists r :: Owns(s, r, t)
    ensures forall r1, r2 :: Owns(s, r1, t) && Owns(s, r2, t) ==> r1 == r2
  {
    FreshGood(word, depth);
    RunGood(Fresh(word, depth), es, s);
  }

  /** A request that gives its tag back finds the tag within the map, its own entry there and the bit set,
      so none of the three complaints of blk_queue_end_tag is ever made; and so at the end finds the bit
      still set. */
  lemma {:induction false} EndFindsItsTag(word: WordSize, depth: nat, es: List<Event>, s: State, r: int)
    requires Run(Fresh(word, depth), es, s)
    ensures StageOf(s, r).Tagged? || StageOf(s, r).Ending? ==>
      var t := StageOf(s, r).tag; t < s.realDepth <= |s.bits| && t < |s.index| && s.index[t] == Some(r) && s.bits[t]
    ensures StageOf(s, r).Clearing? ==>
      var t := StageOf(s, r).tag; t < s.realDepth <= |s.bits| && t < |s.index| && s.index[t].None? && s.bits[t]
  {
    FreshGood(word, depth);
    RunGood(Fresh(word, depth), es, s);
    assert StageFits(s, r);
    WordsEnough(s.word, s.realDepth);
    if StageOf(s, r).Tagged? || StageOf(s, r).Ending? || StageOf(s, r).Clearing? {
      var t := StageOf(s, r).tag;
      assert Owns(s, r, t);
      assert s.bits[t] <==> Owned(s, t);
      if StageOf(s, r).Clearing? && s.index[t].Some? {
        assert Entered(s, s.index[t].value, t);
        assert Owns(s, s.index[t].value, t);
      }
    }
  }
}
