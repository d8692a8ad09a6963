/**
 Invariants of the barrier protocol and the safety theorems over whole runs.
 */
module BarrierProof {
  import opened BarrierModel

  ghost predicate Active(s: State) {
    s.ordseq != {}
  }

  // ---------------------------------------------------------------- invariants, every mode

  /** Every name in use was inserted. */
  ghost predicate Ids(s: State) {
    && (forall x :: x in s.queue && x.Fs? ==> x.id < |s.log|)
    && (forall i :: i in s.sorted ==> i < |s.log|)
    && (forall x :: x in s.driver && x.Fs? ==> x.id < |s.log|)
    && (forall x :: x in s.started && x.Fs? ==> x.id < |s.log|)
    && (forall i :: i in s.done ==> i < |s.log|)
    && (Active(s) ==> IsBarrier(s.log, s.orig))
  }

  /** A request is in one place only ... */
  ghost predicate Apart(s: State) {
    && (forall i, j :: 0 <= i < j < |s.queue| ==> s.queue[i] != s.queue[j])
    && (forall x :: x in s.queue ==> x !in s.driver)
    && (forall x :: x in s.queue && x.Fs? ==> x.id !in s.sorted && x.id !in s.done)
    && (forall x :: x in s.driver && x.Fs? ==> x.id !in s.sorted && x.id !in s.done)
    && s.sorted !! s.done
    && (Active(s) ==> s.orig !in s.done && s.orig !in s.sorted && Fs(s.orig) !in s.queue && Fs(s.orig) !in s.driver)
  }

  /** ... and always somewhere. */
  ghost predicate Placed(s: State, i: nat) {
    i in s.done || i in s.sorted || Fs(i) in s.queue || Fs(i) in s.driver || (Active(s) && i == s.orig)
  }

  ghost predicate Cover(s: State) {
    forall i :: 0 <= i < |s.log| ==> Placed(s, i)
  }

  ghost predicate Pending(s: State, x: Rq) {
    x in s.queue || x in s.driver
  }

  /** A proxy is on its way exactly while its bit is clear. */
  ghost predicate Proxies(s: State) {
    && (!Active(s) ==> !Pending(s, PreFlush) && !Pending(s, Bar) && !Pending(s, PostFlush))
    && (Active(s) ==>
          && STARTED in s.ordseq
          && s.ordseq <= {STARTED, DRAIN, PREFLUSH, BAR, POSTFLUSH}
          && CurSeq(s.ordseq) != DONE
          && s.next.Ordered? && s.ordered == MethodFor(s.next, s.orig < |s.log| && s.log[s.orig].empty)
          && (PREFLUSH in s.ordseq <==> !Pending(s, PreFlush))
          && (BAR in s.ordseq <==> !Pending(s, Bar))
          && (POSTFLUSH in s.ordseq <==> !Pending(s, PostFlush))
          && (DRAIN !in s.ordseq ==> !s.ordered.byTag))
  }

  /** Proxies handed out so far: their turn has come. */
  ghost predicate InTurn(s: State, x: Rq)
    requires !x.Fs? && Active(s)
  {
    && DRAIN in s.ordseq
    && (s.ordered.Ordered? && !s.ordered.byTag ==>
          && (x != PreFlush ==> PREFLUSH in s.ordseq)
          && (x == PostFlush ==> BAR in s.ordseq))
  }

  ghost predicate Issued(s: State, x: Rq) {
    x in s.driver || (x in s.queue && x in s.started)
  }

  ghost predicate Turns(s: State) {
    Active(s) ==>
      && (Issued(s, PreFlush) ==> InTurn(s, PreFlush))
      && (Issued(s, Bar) ==> InTurn(s, Bar))
      && (Issued(s, PostFlush) ==> InTurn(s, PostFlush))
  }

  /** Barriers themselves are never handed to the driver or held by the scheduler. */
  ghost predicate BarriersHeld(s: State) {
    && (forall i :: i in s.sorted ==> !IsBarrier(s.log, i) && Fs(i) !in s.started)
    && (forall x :: x in s.driver && x.Fs? ==> !IsBarrier(s.log, x.id))
    && (forall x :: x in s.started && x.Fs? ==> !IsBarrier(s.log, x.id))
  }

  ghost function InFlightSet(driver: set<Rq>): set<Rq> {
    set x | x in driver && (x.Fs? || x == Bar)
  }

  ghost predicate Counted(s: State) {
    && s.inFlight == |InFlightSet(s.driver)|
    && (forall x :: x in s.driver ==> x in s.started)
  }

  /** Barriers stay in insertion order relative to everything else. */
  ghost predicate QueueOrder(s: State) {
    forall i, j :: 0 <= i < j < |s.queue| && s.queue[i].Fs? && s.queue[j].Fs?
      && (IsBarrier(s.log, s.queue[i].id) || IsBarrier(s.log, s.queue[j].id))
      ==> s.queue[i].id < s.queue[j].id
  }

  ghost predicate Order(s: State) {
    && QueueOrder(s)
    && (forall i, b :: i in s.sorted && 0 <= b < |s.log| && IsBarrier(s.log, b) ==> b < i)
    && (forall x: Rq, y :: x.Fs? && Issued(s, x) && y in s.queue && y.Fs? && IsBarrier(s.log, y.id) ==> x.id < y.id)
    && (forall x, b :: x in s.queue && x.Fs? && IsBarrier(s.log, x.id) && b in s.done && IsBarrier(s.log, b) ==> b < x.id)
    && (Active(s) ==>
          && (forall x :: x in s.queue && x.Fs? && IsBarrier(s.log, x.id) ==> s.orig < x.id)
          && (forall b :: b in s.done && IsBarrier(s.log, b) ==> b < s.orig))
  }

  /** Whether an odd number of barriers was inserted before position i. */
  ghost predicate Odd(log: seq<Info>, i: nat)
    requires i <= |log|
  {
    i > 0 && Odd(log, i - 1) != log[i - 1].barrier
  }

  /** The colour alternates with every barrier. */
  ghost predicate Colors(s: State) {
    && (forall i :: 0 <= i < |s.log| ==> (s.log[i].color <==> Odd(s.log, i)))
    && (s.ordcolor <==> Odd(s.log, |s.log|))
  }

  /** The error the barrier will be ended with is the first one reported. */
  ghost function FirstError(errs: seq<int>): int {
    if errs == [] then 0 else if errs[0] != 0 then errs[0] else FirstError(errs[1..])
  }

  ghost predicate Errors(s: State) {
    Active(s) ==> s.orderr == FirstError(s.errs)
  }

  ghost predicate Common(s: State) {
    && Ids(s) && Apart(s) && Cover(s)
    && Proxies(s) && Turns(s) && BarriersHeld(s) && Counted(s)
    && Order(s) && Colors(s) && Errors(s)
  }

  // ---------------------------------------------------------------- invariants, drain mode

  /** The stage a request belongs to, by insertion order alone. */
  ghost function Rank(orig: nat, x: Rq): int {
    match x
    case Fs(i) => if i < orig then DRAIN else DONE
    case _ => ProxyBit(x)
  }

  ghost predicate Staged(orig: nat, q: seq<Rq>) {
    forall i, j :: 0 <= i < j < |q| ==> Rank(orig, q[i]) <= Rank(orig, q[j])
  }

  /** A barrier that is done has everything inserted before it done. */
  ghost predicate DoneBelow(s: State) {
    forall b, i :: b in s.done && IsBarrier(s.log, b) && 0 <= i < b ==> i in s.done
  }

  ghost predicate Earlier(s: State) {
    && (forall x :: x in s.queue && x.Fs? && x.id < s.orig ==> x in s.soft)
    && (forall x: Rq :: x.Fs? && Issued(s, x) ==> x.id < s.orig)
  }

  ghost predicate Drained(s: State) {
    DRAIN in s.ordseq ==> forall i :: 0 <= i < s.orig ==> i in s.done
  }

  ghost predicate Drain(s: State) {
    && DoneBelow(s)
    && (Active(s) ==> Staged(s.orig, s.queue) && Earlier(s) && Drained(s))
  }

  ghost predicate DrainMode(next: Ordered) {
    next.Ordered? && !next.byTag
  }

  /** A sequence in progress waits for the queue to drain. */
  ghost predicate NowDrains(s: State) {
    Active(s) ==> s.ordered.Ordered? && !s.ordered.byTag
  }

  ghost predicate Inv(s: State) {
    Common(s) && (DrainMode(s.next) ==> Drain(s))
  }

  // ---------------------------------------------------------------- small facts

  lemma {:induction false} OddAppend(log: seq<Info>, e: Info, i: nat)
    requires i <= |log|
    ensures Odd(log + [e], i) == Odd(log, i)
  {
    if i > 0 { OddAppend(log, e, i - 1); }
  }

  /** No barrier in between: the same colour group. */
  lemma {:induction false} SameGroup(log: seq<Info>, i: nat, j: nat)
    requires i <= j <= |log|
    requires forall b :: i <= b < j ==> !log[b].barrier
    ensures Odd(log, i) == Odd(log, j)
    decreases j
  {
    if i < j { SameGroup(log, i, j - 1); }
  }

  lemma {:induction false} FirstErrorAppend(errs: seq<int>, e: int)
    ensures FirstError(errs + [e]) == if FirstError(errs) != 0 then FirstError(errs) else e
  {
    if errs == [] {
      assert (errs + [e])[1..] == [];
    } else {
      assert (errs + [e])[1..] == errs[1..] + [e];
      FirstErrorAppend(errs[1..], e);
    }
  }

  lemma {:induction false} InsertMembers(q: seq<Rq>, k: nat, x: Rq)
    requires k <= |q|
    ensures |InsertAt(q, k, x)| == |q| + 1
    ensures forall i :: 0 <= i < k ==> InsertAt(q, k, x)[i] == q[i]
    ensures InsertAt(q, k, x)[k] == x
    ensures forall i :: k < i <= |q| ==> InsertAt(q, k, x)[i] == q[i - 1]
    ensures forall y :: y in InsertAt(q, k, x) <==> y == x || y in q
  {
  }

  lemma {:induction false} InsertStaged(orig: nat, q: seq<Rq>, k: nat, x: Rq)
    requires k <= |q| && Staged(orig, q)
    requires forall i :: 0 <= i < k ==> Rank(orig, q[i]) <= Rank(orig, x)
    requires forall i :: k <= i < |q| ==> Rank(orig, x) <= Rank(orig, q[i])
    ensures Staged(orig, InsertAt(q, k, x))
  {
  }

  lemma {:induction false} RemoveMembers(q: seq<Rq>, k: nat)
    requires k < |q|
    requires forall i, j :: 0 <= i < j < |q| ==> q[i] != q[j]
    ensures var r := q[..k] + q[k + 1..];
            && |r| == |q| - 1
            && (forall i :: 0 <= i < k ==> r[i] == q[i])
            && (forall i :: k <= i < |r| ==> r[i] == q[i + 1])
            && (forall y :: y in r <==> y != q[k] && y in q)
  {
  }

  // ---------------------------------------------------------------- insertion and dispatch

  lemma {:induction false} InsertPlaces(s: State, barrier: bool, empty: bool, back: bool)
    requires Ids(s) && Apart(s) && Cover(s)
    ensures var t := AddRequest(s, barrier, empty, back); Ids(t) && Apart(t) && Cover(t)
  {
    var t := AddRequest(s, barrier, empty, back);
    var id := |s.log|;
    if back {
      InsertMembers(s.queue, |s.queue|, Fs(id));
      assert t.queue == InsertAt(s.queue, |s.queue|, Fs(id));
    }
    forall i | 0 <= i < |t.log|
      ensures Placed(t, i)
    {
      assert i < id ==> Placed(s, i);
    }
  }

  lemma {:induction false} InsertProxies(s: State, barrier: bool, empty: bool, back: bool)
    requires Ids(s) && Proxies(s) && Turns(s) && BarriersHeld(s) && Counted(s)
    requires barrier ==> back
    ensures var t := AddRequest(s, barrier, empty, back);
            Proxies(t) && Turns(t) && BarriersHeld(t) && Counted(t)
  {
  }

  lemma {:induction false} InsertOrder(s: State, barrier: bool, empty: bool, back: bool)
    requires Ids(s) && Order(s) && Enabled(s, Insert(barrier, empty, back))
    ensures Order(AddRequest(s, barrier, empty, back))
  {
    var t := AddRequest(s, barrier, empty, back);
    assert forall i: nat :: i < |s.log| ==> IsBarrier(t.log, i) == IsBarrier(s.log, i);
    InsertQueueOrder(s, barrier, empty, back);
    assert forall x :: x in t.queue ==> x in s.queue || x == Fs(|s.log|);
  }

  lemma {:induction false} InsertQueueOrder(s: State, barrier: bool, empty: bool, back: bool)
    requires Ids(s) && QueueOrder(s)
    ensures QueueOrder(AddRequest(s, barrier, empty, back))
  {
  }

  lemma {:induction false} InsertColors(s: State, barrier: bool, empty: bool, back: bool)
    requires Colors(s) && Errors(s)
    ensures var t := AddRequest(s, barrier, empty, back); Colors(t) && Errors(t)
  {
    var t := AddRequest(s, barrier, empty, back);
    forall i | 0 <= i <= |s.log|
      ensures Odd(t.log, i) == Odd(s.log, i)
    {
      OddAppend(s.log, t.log[|s.log|], i);
    }
  }

  lemma {:induction false} InsertDrain(s: State, barrier: bool, empty: bool, back: bool)
    requires Ids(s) && Drain(s)
    ensures Drain(AddRequest(s, barrier, empty, back))
  {
  }

  lemma {:induction false} DispatchApart(s: State, id: nat, pos: nat)
    requires Ids(s) && Apart(s) && Enabled(s, Dispatch(id, pos))
    ensures var t := Apply(s, Dispatch(id, pos)); Ids(t) && Apart(t)
  {
    hide Stops, InsertAt;
    InsertMembers(s.queue, pos, Fs(id));
  }

  lemma {:induction false} DispatchPlaces(s: State, id: nat, pos: nat)
    requires Ids(s) && Apart(s) && Cover(s) && Enabled(s, Dispatch(id, pos))
    ensures var t := Apply(s, Dispatch(id, pos)); Ids(t) && Apart(t) && Cover(t)
  {
    hide Stops, InsertAt, Ids, Apart;
    var t := Apply(s, Dispatch(id, pos));
    DispatchApart(s, id, pos);
    InsertMembers(s.queue, pos, Fs(id));
    forall i | 0 <= i < |t.log|
      ensures Placed(t, i)
    {
      assert Placed(s, i);
    }
  }

  lemma {:induction false} DispatchProxies(s: State, id: nat, pos: nat)
    requires Proxies(s) && Turns(s) && BarriersHeld(s) && Counted(s) && Enabled(s, Dispatch(id, pos))
    ensures var t := Apply(s, Dispatch(id, pos)); Proxies(t) && Turns(t) && BarriersHeld(t) && Counted(t)
  {
  }

  lemma {:induction false} DispatchOrder(s: State, id: nat, pos: nat)
    requires Ids(s) && BarriersHeld(s) && Order(s) && Enabled(s, Dispatch(id, pos))
    ensures Order(Apply(s, Dispatch(id, pos)))
  {
    hide InsertAt, QueueOrder;
    InsertMembers(s.queue, pos, Fs(id));
    DispatchQueueOrder(s, id, pos);
  }

  lemma {:induction false} DispatchQueueOrder(s: State, id: nat, pos: nat)
    requires Ids(s) && BarriersHeld(s) && Order(s) && Enabled(s, Dispatch(id, pos))
    ensures QueueOrder(Apply(s, Dispatch(id, pos)))
  {
    hide InsertAt;
    InsertMembers(s.queue, pos, Fs(id));
  }

  lemma {:induction false} DispatchStaged(s: State, id: nat, pos: nat)
    requires BarriersHeld(s) && Order(s) && Drain(s) && Enabled(s, Dispatch(id, pos)) && Active(s) && Ids(s)
    ensures Staged(s.orig, InsertAt(s.queue, pos, Fs(id))) && s.orig < id
  {
    hide InsertAt, QueueOrder;
    forall k | pos <= k < |s.queue|
      ensures Rank(s.orig, s.queue[k]) == DONE
    {
      assert s.queue[k] in s.queue && !Stops(s, s.queue[k]);
    }
    InsertStaged(s.orig, s.queue, pos, Fs(id));
  }

  lemma {:induction false} DispatchDrain(s: State, id: nat, pos: nat)
    requires Ids(s) && BarriersHeld(s) && Order(s) && Drain(s) && Enabled(s, Dispatch(id, pos))
    ensures Drain(Apply(s, Dispatch(id, pos)))
  {
    hide InsertAt, Staged, Order, Stops, Ids;
    InsertMembers(s.queue, pos, Fs(id));
    if Active(s) { DispatchStaged(s, id, pos); }
  }

  // ---------------------------------------------------------------- colours

  /** While a sequence runs, the head of the queue, if inserted after the barrier, has the other colour. */
  lemma {:induction false} LaterHeadColor(s: State)
    requires Ids(s) && Apart(s) && Cover(s) && BarriersHeld(s) && Order(s) && Colors(s)
    requires Active(s) && s.queue != [] && s.queue[0].Fs? && s.orig <= s.queue[0].id
    ensures Color(s.log, s.queue[0].id) != Color(s.log, s.orig)
  {
    var h := s.queue[0].id;
    assert s.queue[0] in s.queue;
    assert s.orig < h < |s.log|;
    forall b | s.orig < b < h
      ensures !s.log[b].barrier
    {
      assert Placed(s, b);
      if s.log[b].barrier {
        assert IsBarrier(s.log, b);
      }
    }
    SameGroup(s.log, s.orig + 1, h);
  }

  /** In drain mode, a request inserted before the barrier and not done yet has the barrier's colour. */
  lemma {:induction false} EarlierColor(s: State, i: nat)
    requires Ids(s) && Apart(s) && Cover(s) && BarriersHeld(s) && Order(s) && Colors(s) && DoneBelow(s)
    requires Active(s) && i < s.orig && i !in s.done
    ensures Color(s.log, i) == Color(s.log, s.orig)
  {
    forall b | i <= b < s.orig
      ensures !s.log[b].barrier
    {
      assert Placed(s, b);
      if s.log[b].barrier {
        assert IsBarrier(s.log, b);
      }
    }
    SameGroup(s.log, i, s.orig);
  }

  /** In drain mode the colour test agrees with insertion order at the head of the queue. */
  lemma {:induction false} HeadSeqIsRank(s: State)
    requires Common(s) && Drain(s) && Active(s) && s.queue != []
    ensures ReqSeq(s, s.queue[0]) == Rank(s.orig, s.queue[0])
  {
    assert s.queue[0] in s.queue;
    if s.queue[0].Fs? {
      if s.queue[0].id < s.orig {
        EarlierColor(s, s.queue[0].id);
      } else {
        LaterHeadColor(s);
      }
    }
  }

  // ---------------------------------------------------------------- handing out the head

  /** The request blk_do_ordered returns without starting a sequence. */
  lemma {:induction false} IssuedHead(s: State)
    requires Common(s) && s.queue != [] && DoOrdered(s) == s && DoVerdict(s).Issue?
    ensures DoVerdict(s).rq == s.queue[0]
    ensures s.queue[0].Fs? ==> !IsBarrier(s.log, s.queue[0].id)
    ensures !s.queue[0].Fs? ==> Active(s) && InTurn(s, s.queue[0])
  {
    var x := s.queue[0];
    assert x in s.queue;
    if s.ordseq == {} {
      if x.Fs? && HeadIsBarrier(s) && s.next.Ordered? {
        StartChanges(s);
        assert false;
      }
    } else if x.Fs? && IsBarrier(s.log, x.id) {
      LaterHeadColor(s);
    }
  }

  /** Starting a sequence takes the barrier off the queue. */
  lemma {:induction false} StartChanges(s: State)
    requires Apart(s) && s.queue != [] && s.queue[0].Fs? && s.next.Ordered?
    ensures s.queue[0] !in StartOrdered(s).queue
    ensures StartOrdered(s) != s
  {
    RemoveMembers(s.queue, 0);
    assert s.queue[0] in s.queue;
  }

  lemma {:induction false} MarkKeepsCommon(s: State)
    requires Common(s) && s.queue != []
    requires s.queue[0].Fs? ==> !IsBarrier(s.log, s.queue[0].id)
    requires !s.queue[0].Fs? ==> Active(s) && InTurn(s, s.queue[0])
    ensures Common(s.(started := s.started + {s.queue[0]}))
  {
    MarkKeepsPlaces(s);
    MarkKeepsProxies(s);
    MarkKeepsOrder(s);
  }

  lemma {:induction false} MarkKeepsPlaces(s: State)
    requires Ids(s) && Apart(s) && Cover(s) && Colors(s) && Errors(s) && Counted(s) && s.queue != []
    ensures var t := s.(started := s.started + {s.queue[0]});
            Ids(t) && Apart(t) && Cover(t) && Colors(t) && Errors(t) && Counted(t)
  {
    var t := s.(started := s.started + {s.queue[0]});
    assert s.queue[0] in s.queue;
    forall i | 0 <= i < |t.log|
      ensures Placed(t, i)
    {
      assert Placed(s, i);
    }
  }

  lemma {:induction false} MarkKeepsProxies(s: State)
    requires Apart(s) && Proxies(s) && Turns(s) && BarriersHeld(s) && s.queue != []
    requires s.queue[0].Fs? ==> !IsBarrier(s.log, s.queue[0].id)
    requires !s.queue[0].Fs? ==> Active(s) && InTurn(s, s.queue[0])
    ensures var t := s.(started := s.started + {s.queue[0]}); Proxies(t) && Turns(t) && BarriersHeld(t)
  {
  }

  lemma {:induction false} MarkKeepsOrder(s: State)
    requires Order(s) && s.queue != []
    requires s.queue[0].Fs? ==> !IsBarrier(s.log, s.queue[0].id)
    ensures Order(s.(started := s.started + {s.queue[0]}))
  {
  }

  lemma {:induction false} MarkKeepsDrain(s: State)
    requires Common(s) && Drain(s) && s.queue != [] && NowDrains(s)
    requires DoOrdered(s) == s && DoVerdict(s).Issue?
    ensures Drain(s.(started := s.started + {s.queue[0]}))
  {
    var t := s.(started := s.started + {s.queue[0]});
    if Active(s) {
      HeadSeqIsRank(s);
    }
  }

  // ---------------------------------------------------------------- starting a sequence

  ghost function ProxyList(o: Ordered): seq<Rq>
    requires o.Ordered?
  {
    (if o.preflush then [PreFlush] else []) + (if o.bar then [Bar] else []) + (if o.postflush then [PostFlush] else [])
  }

  ghost predicate Asked(o: Ordered, x: Rq)
    requires o.Ordered?
  {
    match x
    case Fs(_) => false
    case PreFlush => o.preflush
    case Bar => o.bar
    case PostFlush => o.postflush
  }

  ghost predicate InStageOrder(o: Ordered, ps: seq<Rq>)
    requires o.Ordered?
  {
    && (forall x :: x in ps <==> Asked(o, x))
    && (forall i :: 0 <= i < |ps| ==> !ps[i].Fs?)
    && (forall i, j :: 0 <= i < j < |ps| ==> ProxyBit(ps[i]) < ProxyBit(ps[j]))
  }

  lemma {:induction false} ProxyListInOrder(o: Ordered)
    requires o.Ordered?
    ensures InStageOrder(o, ProxyList(o))
  {
  }

  ghost predicate BarrierAtHead(s: State) {
    !Active(s) && s.queue != [] && s.queue[0].Fs? && IsBarrier(s.log, s.queue[0].id) && s.next.Ordered?
  }

  ghost function HeadMethod(s: State): Ordered
    requires BarrierAtHead(s)
  {
    MethodFor(s.next, s.log[s.queue[0].id].empty)
  }

  ghost predicate NothingToDo(o: Ordered, inFlight: int)
    requires o.Ordered?
  {
    !o.preflush && !o.bar && !o.postflush && (o.byTag || inFlight == 0)
  }

  ghost predicate SkippedBits(o: Ordered, inFlight: int, bits: set<int>)
    requires o.Ordered?
  {
    && STARTED in bits && bits <= {STARTED, DRAIN, PREFLUSH, BAR, POSTFLUSH}
    && (DRAIN in bits <==> o.byTag || inFlight == 0)
    && (PREFLUSH in bits <==> !o.preflush)
    && (BAR in bits <==> !o.bar)
    && (POSTFLUSH in bits <==> !o.postflush)
  }

  /** What start_ordered leaves behind, read off the state before: ps are the proxies it queues. */
  ghost predicate StartsTo(s: State, t: State, ps: seq<Rq>)
    requires BarrierAtHead(s)
  {
    var b := s.queue[0].id;
    var o := HeadMethod(s);
    && InStageOrder(o, ps)
    && t.queue == ps + s.queue[1..]
    && t.orig == b && t.ordered == o && t.inFlight == s.inFlight
    && t.next == s.next && t.ordcolor == s.ordcolor && t.log == s.log
    && t.sorted == s.sorted && t.driver == s.driver
    && (forall x :: x in t.started <==> x in s.started && !Asked(o, x))
    && (forall x :: x in t.soft <==> x in s.soft || Asked(o, x))
    && t.orderr == 0 && t.errs == [0]
    && (!NothingToDo(o, s.inFlight) ==> SkippedBits(o, s.inFlight, t.ordseq) && t.done == s.done && t.ended == s.ended)
    && (NothingToDo(o, s.inFlight) ==> t.ordseq == {} && t.done == s.done + {b} && t.ended == s.ended + [End(b, 0)])
  }

  ghost predicate Pushed(s: State, t: State, x: Rq, yes: bool) {
    && t == s.(queue := (if yes then [x] else []) + s.queue, started := t.started, soft := t.soft)
    && (forall y :: y in t.started <==> y in s.started && !(yes && y == x))
    && (forall y :: y in t.soft <==> y in s.soft || (yes && y == x))
  }

  lemma {:induction false} PushShape(s: State, x: Rq, yes: bool)
    ensures Pushed(s, if yes then QueueProxy(s, x) else s, x, yes)
  {
  }

  lemma {:induction false} StackShape(s: State)
    requires s.ordered.Ordered?
    ensures var t := StackProxies(s);
            && t == s.(queue := ProxyList(s.ordered) + s.queue, started := t.started, soft := t.soft)
            && (forall x :: x in t.started <==> x in s.started && !Asked(s.ordered, x))
            && (forall x :: x in t.soft <==> x in s.soft || Asked(s.ordered, x))
  {
    var o := s.ordered;
    var s1 := if o.postflush then QueueProxy(s, PostFlush) else s;
    var s2 := if o.bar then QueueProxy(s1, Bar) else s1;
    var t := if o.preflush then QueueProxy(s2, PreFlush) else s2;
    assert t == StackProxies(s);
    PushShape(s, PostFlush, o.postflush);
    PushShape(s1, Bar, o.bar);
    PushShape(s2, PreFlush, o.preflush);
    StackedThrice(s, s1, s2, t);
  }

  lemma {:induction false} StackedThrice(s: State, s1: State, s2: State, t: State)
    requires s.ordered.Ordered?
    requires Pushed(s, s1, PostFlush, s.ordered.postflush)
    requires Pushed(s1, s2, Bar, s.ordered.bar)
    requires Pushed(s2, t, PreFlush, s.ordered.preflush)
    ensures t == s.(queue := ProxyList(s.ordered) + s.queue, started := t.started, soft := t.soft)
    ensures forall x :: x in t.started <==> x in s.started && !Asked(s.ordered, x)
    ensures forall x :: x in t.soft <==> x in s.soft || Asked(s.ordered, x)
  {
  }

  lemma {:induction false} SkipShape(o: Ordered, inFlight: int)
    requires o.Ordered?
    ensures var bits := {STARTED} + Skipped(o, inFlight);
            SkippedBits(o, inFlight, bits) && (CurSeq(bits) == DONE <==> NothingToDo(o, inFlight))
  {
  }

  /** start_ordered before the proxies are queued */
  ghost function BarrierTaken(s: State): State
    requires BarrierAtHead(s)
  {
    var s1 := s.(orderr := 0, ordered := HeadMethod(s), ordseq := s.ordseq + {STARTED}, errs := []);
    Dequeue(s1, 0).(orig := s.queue[0].id)
  }

  lemma {:induction false} PreparedFields(s: State)
    requires BarrierAtHead(s)
    ensures var p := PrepareOrdered(s);
            && p == StackProxies(BarrierTaken(s)) && p.ordseq == {STARTED} && p.ordered == HeadMethod(s)
            && StartOrdered(s) == CompleteSeq(p, Skipped(p.ordered, p.inFlight), 0)
  {
  }

  lemma {:induction false} TakenFields(s: State)
    requires BarrierAtHead(s) && BarriersHeld(s)
    ensures BarrierTaken(s) == s.(orderr := 0, ordered := HeadMethod(s), ordseq := {STARTED}, errs := [],
                                  queue := s.queue[1..], orig := s.queue[0].id)
    ensures HeadMethod(s).Ordered?
  {
  }

  lemma {:induction false} StartShape(s: State)
    requires BarrierAtHead(s) && BarriersHeld(s)
    ensures StartsTo(s, StartOrdered(s), ProxyList(HeadMethod(s)))
  {
    hide StackProxies, PrepareOrdered, StartOrdered, BarrierTaken, HeadMethod, Skipped, SkippedBits, NothingToDo,
      CurSeq, InStageOrder, Asked, BarriersHeld, ProxyList;
    var o := HeadMethod(s);
    TakenFields(s);
    PreparedFields(s);
    StackShape(BarrierTaken(s));
    ProxyListInOrder(o);
    SkipShape(o, s.inFlight);
  }

  /** The queue after the start: the proxies asked for, then everything but the barrier. */
  lemma {:induction false} StartQueue(s: State, t: State, ps: seq<Rq>)
    requires BarrierAtHead(s) && StartsTo(s, t, ps) && Apart(s) && Proxies(s)
    ensures forall x :: x in t.queue <==> Asked(HeadMethod(s), x) || (x in s.queue && x != s.queue[0])
    ensures forall i :: 0 <= i < |ps| ==> t.queue[i] == ps[i]
    ensures |t.queue| == |ps| + |s.queue| - 1
    ensures forall i :: |ps| <= i < |t.queue| ==> t.queue[i] == s.queue[i - |ps| + 1]
    ensures forall i, j :: 0 <= i < j < |t.queue| ==> t.queue[i] != t.queue[j]
  {
  }

  lemma {:induction false} StartPlaces(s: State, t: State, ps: seq<Rq>)
    requires BarrierAtHead(s) && StartsTo(s, t, ps) && Ids(s) && Apart(s) && Cover(s) && Proxies(s) && BarriersHeld(s)
    ensures Ids(t) && Apart(t) && Cover(t)
  {
    StartQueue(s, t, ps);
    assert s.queue[0] in s.queue;
    forall i | 0 <= i < |t.log|
      ensures Placed(t, i)
    {
      assert Placed(s, i);
    }
  }

  lemma {:induction false} StartProxies(s: State, t: State, ps: seq<Rq>)
    requires BarrierAtHead(s) && StartsTo(s, t, ps) && Apart(s) && Proxies(s) && BarriersHeld(s) && Counted(s)
    ensures Proxies(t) && Turns(t) && BarriersHeld(t) && Counted(t)
  {
  }

  lemma {:induction false} StartOrder(s: State, t: State, ps: seq<Rq>)
    requires BarrierAtHead(s) && StartsTo(s, t, ps) && Apart(s) && Proxies(s) && Order(s)
    ensures Order(t)
  {
    hide QueueOrder;
    StartQueue(s, t, ps);
    StartQueueOrder(s, t, ps);
    HeadFirst(s);
  }

  lemma {:induction false} HeadFirst(s: State)
    requires BarrierAtHead(s) && QueueOrder(s)
    ensures forall x :: x in s.queue && x.Fs? && x != s.queue[0] ==> s.queue[0].id < x.id
  {
  }

  lemma {:induction false} StartQueueOrder(s: State, t: State, ps: seq<Rq>)
    requires BarrierAtHead(s) && StartsTo(s, t, ps) && Apart(s) && Proxies(s) && QueueOrder(s)
    ensures QueueOrder(t)
  {
  }

  lemma {:induction false} StartDrain(s: State, t: State, ps: seq<Rq>)
    requires BarrierAtHead(s) && StartsTo(s, t, ps) && Common(s) && Drain(s) && !HeadMethod(s).byTag
    ensures Drain(t)
  {
    StartQueue(s, t, ps);
    var b := s.queue[0].id;
    if s.inFlight == 0 {
      forall i | 0 <= i < b
        ensures i in s.done
      {
        assert Placed(s, i);
        assert Fs(i) !in InFlightSet(s.driver);
      }
    }
  }

  lemma {:induction false} StartKeeps(s: State)
    requires Inv(s) && BarrierAtHead(s)
    ensures Inv(StartOrdered(s))
  {
    hide Ids, Apart, Cover, Proxies, Turns, Order, Drain;
    var t := StartOrdered(s);
    var ps := ProxyList(HeadMethod(s));
    StartShape(s);
    StartPlaces(s, t, ps);
    StartProxies(s, t, ps);
    StartOrder(s, t, ps);
    assert FirstError([0]) == 0;
    if DrainMode(s.next) {
      StartDrain(s, t, ps);
    }
  }

  /** The proxy start_ordered returns is at the head of the queue and its turn has come. */
  lemma {:induction false} StartIssues(s: State)
    requires Inv(s) && BarrierAtHead(s) && StartVerdict(s).Issue?
    ensures var t := StartOrdered(s);
            t.queue != [] && t.queue[0] == StartVerdict(s).rq && !t.queue[0].Fs? && Active(t) && InTurn(t, t.queue[0])
  {
    StartShape(s);
    var o := HeadMethod(s);
    assert PrepareOrdered(s).ordered == o;
    assert PrepareOrdered(s).inFlight == s.inFlight;
  }

  ghost predicate RefusedAtHead(s: State) {
    !Active(s) && s.queue != [] && s.queue[0].Fs? && IsBarrier(s.log, s.queue[0].id) && s.next.NoOrder?
  }

  lemma {:induction false} RefusePlaces(s: State)
    requires RefusedAtHead(s) && Ids(s) && Apart(s) && Cover(s)
    ensures var t := DoOrdered(s); Ids(t) && Apart(t) && Cover(t)
  {
    var t := DoOrdered(s);
    RemoveMembers(s.queue, 0);
    assert s.queue[0] in s.queue;
    forall i | 0 <= i < |t.log|
      ensures Placed(t, i)
    {
      assert Placed(s, i);
    }
  }

  lemma {:induction false} RefuseRest(s: State)
    requires RefusedAtHead(s) && Apart(s) && Proxies(s) && BarriersHeld(s) && Counted(s)
    ensures var t := DoOrdered(s); Proxies(t) && BarriersHeld(t) && Counted(t)
  {
  }

  lemma {:induction false} RefuseOrder(s: State)
    requires RefusedAtHead(s) && Apart(s) && Order(s)
    ensures Order(DoOrdered(s))
  {
    var t := DoOrdered(s);
    RemoveMembers(s.queue, 0);
    assert forall x: Rq :: Issued(t, x) ==> Issued(s, x);
  }

  lemma {:induction false} MarkProxyKeeps(s: State)
    requires Inv(s) && s.queue != [] && !s.queue[0].Fs? && Active(s) && InTurn(s, s.queue[0])
    ensures Inv(s.(started := s.started + {s.queue[0]}))
  {
    MarkKeepsCommon(s);
  }

  lemma {:induction false} PollStart(s: State)
    requires BarrierAtHead(s)
    ensures var t := StartOrdered(s);
            PollOnce(s) == if StartVerdict(s).Issue? then t.(started := t.started + {StartVerdict(s).rq}) else t
  {
  }

  lemma {:induction false} PollStartKeeps(s: State)
    requires Inv(s) && BarrierAtHead(s)
    ensures Inv(PollOnce(s))
  {
    PollStart(s);
    StartKeeps(s);
    if StartVerdict(s).Issue? {
      StartIssues(s);
      MarkProxyKeeps(StartOrdered(s));
    }
  }

  lemma {:induction false} PollMarkKeeps(s: State)
    requires Inv(s) && s.queue != [] && DoOrdered(s) == s
    ensures Inv(PollOnce(s))
  {
    if DoVerdict(s).Issue? {
      IssuedHead(s);
      MarkKeepsCommon(s);
      if DrainMode(s.next) { MarkKeepsDrain(s); }
    }
  }

  lemma {:induction false} PollKeeps(s: State)
    requires Inv(s)
    ensures Inv(PollOnce(s))
  {
    if s.queue == [] {
    } else if BarrierAtHead(s) {
      PollStartKeeps(s);
    } else if RefusedAtHead(s) {
      RefusePlaces(s);
      RefuseRest(s);
      RefuseOrder(s);
    } else {
      PollMarkKeeps(s);
    }
  }

  // ---------------------------------------------------------------- handing a request to the driver

  lemma {:induction false} StartRqPlaces(s: State, pos: nat)
    requires Ids(s) && Apart(s) && Cover(s) && Enabled(s, Start(pos))
    ensures var t := Apply(s, Start(pos)); Ids(t) && Apart(t) && Cover(t)
  {
    var t := Apply(s, Start(pos));
    RemoveMembers(s.queue, pos);
    assert s.queue[pos] in s.queue;
    forall i | 0 <= i < |t.log|
      ensures Placed(t, i)
    {
      assert Placed(s, i);
    }
  }

  lemma {:induction false} StartRqProxies(s: State, pos: nat)
    requires Apart(s) && Proxies(s) && Turns(s) && BarriersHeld(s) && Enabled(s, Start(pos))
    ensures var t := Apply(s, Start(pos)); Proxies(t) && Turns(t) && BarriersHeld(t)
  {
    var t := Apply(s, Start(pos));
    RemoveMembers(s.queue, pos);
    forall x
      ensures Pending(t, x) <==> Pending(s, x)
      ensures Issued(t, x) ==> Issued(s, x)
    {
      assert s.queue[pos] in s.queue;
    }
  }

  lemma {:induction false} StartRqCounted(s: State, pos: nat)
    requires Apart(s) && Counted(s) && Enabled(s, Start(pos))
    ensures Counted(Apply(s, Start(pos)))
  {
    var t := Apply(s, Start(pos));
    var x := s.queue[pos];
    assert x in s.queue;
    if x.Fs? || x == Bar {
      assert InFlightSet(t.driver) == InFlightSet(s.driver) + {x};
    } else {
      assert InFlightSet(t.driver) == InFlightSet(s.driver);
    }
  }

  lemma {:induction false} StartRqIssued(s: State, pos: nat, x: Rq)
    requires Apart(s) && Enabled(s, Start(pos)) && Issued(Apply(s, Start(pos)), x)
    ensures Issued(s, x)
  {
  }

  lemma {:induction false} StartRqQueueOrder(s: State, pos: nat)
    requires Apart(s) && QueueOrder(s) && Enabled(s, Start(pos))
    ensures QueueOrder(Apply(s, Start(pos)))
  {
  }

  lemma {:induction false} StartRqOrder(s: State, pos: nat)
    requires Apart(s) && Order(s) && Enabled(s, Start(pos))
    ensures Order(Apply(s, Start(pos)))
  {
    var t := Apply(s, Start(pos));
    RemoveMembers(s.queue, pos);
    forall x: Rq | Issued(t, x)
      ensures Issued(s, x)
    {
      StartRqIssued(s, pos, x);
    }
    StartRqQueueOrder(s, pos);
  }

  lemma {:induction false} StartRqDrain(s: State, pos: nat)
    requires Apart(s) && Drain(s) && Enabled(s, Start(pos))
    ensures Drain(Apply(s, Start(pos)))
  {
  }

  // ---------------------------------------------------------------- requeueing

  /** A request goes back in front of every barrier still queued. */
  lemma {:induction false} RequeueBeforeBarriers(s: State, x: Rq, from: nat, b: nat)
    requires Active(s) && from <= b < |s.queue|
    requires s.queue[b].Fs? && Color(s.log, s.queue[b].id) != Color(s.log, s.orig)
    ensures RequeuePos(s, x, from) <= b
    decreases b - from
  {
    if from < b && !(ReqSeq(s, x) <= ReqSeq(s, s.queue[from])) {
      RequeueBeforeBarriers(s, x, from + 1, b);
    }
  }

  /** The first barrier queued behind the running sequence has the other colour. */
  lemma {:induction false} FirstBarrierColor(s: State, m: nat)
    requires Ids(s) && Apart(s) && Cover(s) && BarriersHeld(s) && Order(s) && Colors(s) && Active(s)
    requires m < |s.queue| && s.queue[m].Fs? && IsBarrier(s.log, s.queue[m].id)
    requires forall i :: 0 <= i < m && s.queue[i].Fs? ==> !IsBarrier(s.log, s.queue[i].id)
    ensures Color(s.log, s.queue[m].id) != Color(s.log, s.orig)
  {
    var h := s.queue[m].id;
    assert s.queue[m] in s.queue;
    forall b | s.orig < b < h
      ensures !s.log[b].barrier
    {
      assert Placed(s, b);
      if s.log[b].barrier {
        assert IsBarrier(s.log, b);
      }
    }
    SameGroup(s.log, s.orig + 1, h);
  }

  ghost predicate NoBarrierBefore(s: State, k: nat)
    requires k <= |s.queue|
  {
    forall i :: 0 <= i < k && s.queue[i].Fs? ==> !IsBarrier(s.log, s.queue[i].id)
  }

  ghost function Returned(s: State, x: Rq): State {
    s.(driver := s.driver - {x},
       inFlight := if Accounted(s, x) then s.inFlight - 1 else s.inFlight,
       started := s.started - {x}, soft := s.soft + {x})
  }

  lemma {:induction false} FirstBarrier(s: State, k: nat) returns (m: nat)
    requires k <= |s.queue| && !NoBarrierBefore(s, k)
    ensures m < k && s.queue[m].Fs? && IsBarrier(s.log, s.queue[m].id) && NoBarrierBefore(s, m)
  {
    if NoBarrierBefore(s, k - 1) { m := k - 1; } else { m := FirstBarrier(s, k - 1); }
  }

  lemma {:induction false} RequeuePosOk(s: State, x: Rq)
    requires Common(s) && Active(s)
    ensures NoBarrierBefore(s, RequeuePos(Returned(s, x), x, 0))
  {
    var k := RequeuePos(Returned(s, x), x, 0);
    if !NoBarrierBefore(s, k) {
      var m := FirstBarrier(s, k);
      FirstBarrierColor(s, m);
      RequeueBeforeBarriers(Returned(s, x), x, 0, m);
    }
  }

  ghost function PutBack(s: State, x: Rq, k: nat): State
    requires k <= |s.queue|
  {
    Returned(s, x).(queue := InsertAt(s.queue, k, x))
  }

  lemma {:induction false} PutBackPlaces(s: State, x: Rq, k: nat)
    requires Ids(s) && Apart(s) && Cover(s) && x in s.driver && k <= |s.queue|
    ensures var t := PutBack(s, x, k); Ids(t) && Apart(t) && Cover(t)
  {
    var t := PutBack(s, x, k);
    InsertMembers(s.queue, k, x);
    forall i | 0 <= i < |t.log|
      ensures Placed(t, i)
    {
      assert Placed(s, i);
    }
  }

  lemma {:induction false} PutBackProxies(s: State, x: Rq, k: nat)
    requires Apart(s) && Proxies(s) && Turns(s) && BarriersHeld(s) && x in s.driver && k <= |s.queue|
    ensures var t := PutBack(s, x, k); Proxies(t) && Turns(t) && BarriersHeld(t)
  {
    var t := PutBack(s, x, k);
    InsertMembers(s.queue, k, x);
    assert forall y :: (Pending(t, y) <==> Pending(s, y)) && (Issued(t, y) ==> Issued(s, y));
  }

  lemma {:induction false} PutBackCounted(s: State, x: Rq, k: nat)
    requires Counted(s) && x in s.driver && k <= |s.queue|
    ensures Counted(PutBack(s, x, k))
  {
    DriverLoses(s.driver, x);
  }

  lemma {:induction false} DriverLoses(driver: set<Rq>, x: Rq)
    requires x in driver
    ensures |InFlightSet(driver - {x})| == |InFlightSet(driver)| - if x.Fs? || x == Bar then 1 else 0
  {
    if x.Fs? || x == Bar {
      assert InFlightSet(driver - {x}) == InFlightSet(driver) - {x};
    } else {
      assert InFlightSet(driver - {x}) == InFlightSet(driver);
    }
  }

  lemma {:induction false} PutBackQueueOrder(s: State, x: Rq, k: nat)
    requires QueueOrder(s) && k <= |s.queue| && NoBarrierBefore(s, k)
    requires x.Fs? ==> !IsBarrier(s.log, x.id)
    requires x.Fs? ==> forall y :: y in s.queue && y.Fs? && IsBarrier(s.log, y.id) ==> x.id < y.id
    ensures QueueOrder(PutBack(s, x, k))
  {
  }

  lemma {:induction false} PutBackOrder(s: State, x: Rq, k: nat)
    requires Order(s) && BarriersHeld(s) && x in s.driver && k <= |s.queue| && NoBarrierBefore(s, k)
    ensures Order(PutBack(s, x, k))
  {
    var t := PutBack(s, x, k);
    InsertMembers(s.queue, k, x);
    assert Issued(s, x);
    PutBackQueueOrder(s, x, k);
    assert forall y :: Issued(t, y) ==> Issued(s, y);
  }

  /** In drain mode a requeued request always goes to the very front. */
  lemma {:induction false} RequeueFront(s: State, x: Rq)
    requires Common(s) && Drain(s) && NowDrains(s) && Active(s) && x in s.driver
    ensures RequeuePos(Returned(s, x), x, 0) == 0
  {
    var r := Returned(s, x);
    assert Issued(s, x);
    if s.queue != [] {
      HeadSeqIsRank(s);
      assert s.queue[0] in s.queue;
      assert Pending(s, s.queue[0]);
      if x.Fs? {
        EarlierColor(s, x.id);
      }
      assert ReqSeq(r, x) <= ReqSeq(r, s.queue[0]);
    }
  }

  lemma {:induction false} PutBackStaged(s: State, x: Rq)
    requires Apart(s) && Turns(s) && Proxies(s) && Drain(s) && NowDrains(s) && x in s.driver && Active(s)
    ensures Staged(s.orig, InsertAt(s.queue, 0, x))
  {
  }

  lemma {:induction false} PutBackDrain(s: State, x: Rq)
    requires Common(s) && Drain(s) && NowDrains(s) && x in s.driver
    ensures Drain(PutBack(s, x, 0))
  {
    hide Staged, InsertAt, Colors, Errors, Cover, Order;
    InsertMembers(s.queue, 0, x);
    assert Issued(s, x);
    if Active(s) {
      PutBackStaged(s, x);
      assert forall y :: Issued(PutBack(s, x, 0), y) ==> Issued(s, y);
    }
  }

  lemma {:induction false} RequeueKeeps(s: State, x: Rq)
    requires Inv(s) && x in s.driver
    ensures Inv(RequeueRq(s, x))
  {
    var k := if s.ordseq == {} then 0 else RequeuePos(Returned(s, x), x, 0);
    if Active(s) { RequeuePosOk(s, x); }
    PutBackPlaces(s, x, k);
    PutBackProxies(s, x, k);
    PutBackCounted(s, x, k);
    PutBackOrder(s, x, k);
    if DrainMode(s.next) {
      if Active(s) { RequeueFront(s, x); }
      PutBackDrain(s, x);
    }
    assert RequeueRq(s, x) == PutBack(s, x, k);
  }

  // ---------------------------------------------------------------- completion

  /** The state after elv_completed_request has counted the request out. */
  ghost function Retired(s: State, x: Rq): State {
    s.(driver := s.driver - {x},
       done := if x.Fs? then s.done + {x.id} else s.done,
       inFlight := if Accounted(s, x) then s.inFlight - 1 else s.inFlight)
  }

  lemma {:induction false} RetireCommon(s: State, x: Rq)
    requires Common(s) && x in s.driver && x.Fs?
    ensures Common(Retired(s, x))
  {
    RetirePlaces(s, x);
    RetireProxies(s, x);
    RetireOrder(s, x);
  }

  lemma {:induction false} RetirePlaces(s: State, x: Rq)
    requires Ids(s) && Apart(s) && Cover(s) && BarriersHeld(s) && Counted(s) && x in s.driver
    ensures var t := Retired(s, x); Ids(t) && Apart(t) && Cover(t) && BarriersHeld(t) && Counted(t)
  {
    var t := Retired(s, x);
    DriverLoses(s.driver, x);
    forall i | 0 <= i < |t.log|
      ensures Placed(t, i)
    {
      assert Placed(s, i);
    }
  }

  lemma {:induction false} RetireProxies(s: State, x: Rq)
    requires Proxies(s) && Turns(s) && x.Fs?
    ensures Proxies(Retired(s, x)) && Turns(Retired(s, x))
  {
  }

  lemma {:induction false} RetireOrder(s: State, x: Rq)
    requires Order(s) && BarriersHeld(s) && x in s.driver
    ensures Order(Retired(s, x))
  {
  }

  lemma {:induction false} RetireDrain(s: State, x: Rq)
    requires Drain(s) && BarriersHeld(s) && x in s.driver
    ensures Drain(Retired(s, x))
  {
  }

  /** Setting a bit moves requests only when it ends the sequence: then the barrier is done. */
  lemma {:induction false} SeqPlaces(s: State, bits: set<int>, error: int)
    requires Ids(s) && Apart(s) && Cover(s) && Active(s)
    ensures var t := CompleteSeq(s, bits, error); Ids(t) && Apart(t) && Cover(t)
  {
    var t := CompleteSeq(s, bits, error);
    forall i | 0 <= i < |t.log|
      ensures Placed(t, i)
    {
      assert Placed(s, i);
    }
  }

  lemma {:induction false} SeqOrder(s: State, bits: set<int>, error: int)
    requires Order(s) && Active(s)
    ensures Order(CompleteSeq(s, bits, error))
  {
  }

  lemma {:induction false} SeqErrors(s: State, bits: set<int>, error: int)
    requires Errors(s) && Colors(s) && BarriersHeld(s) && Counted(s) && Active(s)
    ensures var t := CompleteSeq(s, bits, error); Errors(t) && Colors(t) && BarriersHeld(t) && Counted(t)
  {
    FirstErrorAppend(s.errs, error);
  }

  lemma {:induction false} SeqDrain(s: State, bits: set<int>, error: int)
    requires Drain(s) && Active(s)
    requires DRAIN in s.ordseq + bits ==> forall i :: 0 <= i < s.orig ==> i in s.done
    ensures Drain(CompleteSeq(s, bits, error))
  {
  }

  /** Nothing inserted before the barrier is left when the drain test succeeds. */
  lemma {:induction false} DrainOverDone(s: State)
    requires Common(s) && Drain(s) && DrainOver(s)
    ensures forall i :: 0 <= i < s.orig ==> i in s.done
  {
    forall i | 0 <= i < s.orig
      ensures i in s.done
    {
      assert Placed(s, i);
      assert Fs(i) !in InFlightSet(s.driver);
      if Fs(i) in s.queue {
        HeadSeqIsRank(s);
      }
    }
  }

  lemma {:induction false} DrainBitProxies(s: State)
    requires Proxies(s) && Turns(s) && DrainOver(s)
    ensures var t := CompleteSeq(s, {DRAIN}, 0); Proxies(t) && Turns(t)
  {
  }

  lemma {:induction false} DrainBitKeeps(s: State)
    requires Inv(s) && DrainOver(s)
    ensures Inv(CompleteSeq(s, {DRAIN}, 0))
  {
    SeqPlaces(s, {DRAIN}, 0);
    SeqOrder(s, {DRAIN}, 0);
    SeqErrors(s, {DRAIN}, 0);
    DrainBitProxies(s);
    if DrainMode(s.next) {
      DrainOverDone(s);
      SeqDrain(s, {DRAIN}, 0);
    }
  }

  lemma {:induction false} FsEndKeeps(s: State, x: Rq, error: int)
    requires Inv(s) && x in s.driver && x.Fs?
    ensures Inv(EndIo(s, x, error))
  {
    RetireCommon(s, x);
    if DrainMode(s.next) { RetireDrain(s, x); }
    var r := Retired(s, x);
    FsEndIs(s, x, error);
    if DrainOver(r) { DrainBitKeeps(r); }
  }

  lemma {:induction false} ProxyBitProxies(s: State, x: Rq, error: int)
    requires Apart(s) && Proxies(s) && Turns(s) && x in s.driver && !x.Fs?
    ensures Active(s) && !RepeatedBit(s, {ProxyBit(x)}) && DRAIN in s.ordseq && STARTED in s.ordseq
    ensures var t := CompleteSeq(Retired(s, x), {ProxyBit(x)}, error); Proxies(t) && Turns(t)
  {
  }

  /** The end of a file-system request may complete the drain. */
  lemma {:induction false} FsEndIs(s: State, x: Rq, error: int)
    requires x.Fs?
    ensures var r := Retired(s, x);
            EndIo(s, x, error) == if DrainOver(r) then CompleteSeq(r, {DRAIN}, 0) else r
  {
  }

  /** The end of a proxy completes its bit and nothing else. */
  lemma {:induction false} ProxyEndIs(s: State, x: Rq, error: int)
    requires !x.Fs? && DRAIN in s.ordseq && STARTED in s.ordseq
    ensures EndIo(s, x, error) == CompleteSeq(Retired(s, x), {ProxyBit(x)}, error)
    ensures Completed(s.(driver := s.driver - {x}), x) == Retired(s, x)
  {
    hide CompleteSeq, ReqSeq;
    assert CurSeq(s.ordseq) != DRAIN;
  }

  lemma {:induction false} CompleteSeqFixes(s: State, bits: set<int>, error: int)
    ensures CompleteSeq(s, bits, error).next == s.next
  {
  }

  lemma {:induction false} ProxyEndKeeps(s: State, x: Rq, error: int)
    requires Inv(s) && x in s.driver && !x.Fs?
    ensures Inv(EndIo(s, x, error))
  {
    hide Ids, Apart, Cover, Proxies, Turns, BarriersHeld, Counted, Order, CompleteSeq, EndIo, ProxyBit;
    var r := Retired(s, x);
    var bit := ProxyBit(x);
    ProxyBitProxies(s, x, error);
    ProxyEndIs(s, x, error);
    CompleteSeqFixes(r, {bit}, error);
    RetirePlaces(s, x);
    RetireOrder(s, x);
    SeqPlaces(r, {bit}, error);
    SeqOrder(r, {bit}, error);
    SeqErrors(r, {bit}, error);
    if DrainMode(s.next) {
      RetireDrain(s, x);
      SeqDrain(r, {bit}, error);
    }
  }

  // ---------------------------------------------------------------- whole runs

  lemma {:induction false} InsertKeeps(s: State, barrier: bool, empty: bool, back: bool)
    requires Inv(s) && Enabled(s, Insert(barrier, empty, back))
    ensures Inv(AddRequest(s, barrier, empty, back))
  {
    InsertPlaces(s, barrier, empty, back);
    InsertProxies(s, barrier, empty, back);
    InsertOrder(s, barrier, empty, back);
    InsertColors(s, barrier, empty, back);
    if DrainMode(s.next) { InsertDrain(s, barrier, empty, back); }
  }

  lemma {:induction false} DispatchKeeps(s: State, id: nat, pos: nat)
    requires Inv(s) && Enabled(s, Dispatch(id, pos))
    ensures Inv(Apply(s, Dispatch(id, pos)))
  {
    DispatchPlaces(s, id, pos);
    DispatchProxies(s, id, pos);
    DispatchOrder(s, id, pos);
    if DrainMode(s.next) { DispatchDrain(s, id, pos); }
  }

  lemma {:induction false} StartRqKeeps(s: State, pos: nat)
    requires Inv(s) && Enabled(s, Start(pos))
    ensures Inv(Apply(s, Start(pos)))
  {
    StartRqPlaces(s, pos);
    StartRqProxies(s, pos);
    StartRqCounted(s, pos);
    StartRqOrder(s, pos);
    if DrainMode(s.next) { StartRqDrain(s, pos); }
  }

  /** The ordering method is fixed, and what insertion fixed about a request stays. */
  lemma {:induction false} StepFixes(s: State, step: Step)
    requires Inv(s) && Enabled(s, step)
    ensures Apply(s, step).next == s.next && s.log <= Apply(s, step).log
  {
    hide Ids, Apart, Cover, Proxies, Turns, BarriersHeld, Counted, Order, Colors, Errors, Drain;
    if step.Poll? { PollFixes(s); }
  }

  lemma {:induction false} PollFixes(s: State)
    requires BarriersHeld(s)
    ensures PollOnce(s).next == s.next && PollOnce(s).log == s.log
  {
    if BarrierAtHead(s) {
      PollStart(s);
      StartShape(s);
    }
  }

  lemma {:induction false} StepKeeps(s: State, step: Step)
    requires Inv(s) && Enabled(s, step)
    ensures Inv(Apply(s, step))
  {
    match step
    case Insert(barrier, empty, back) => InsertKeeps(s, barrier, empty, back);
    case Dispatch(id, pos) => DispatchKeeps(s, id, pos);
    case Poll => PollKeeps(s);
    case Start(pos) => StartRqKeeps(s, pos);
    case Complete(x, error) =>
      if x.Fs? { FsEndKeeps(s, x, error); } else { ProxyEndKeeps(s, x, error); }
    case Requeue(x) => RequeueKeeps(s, x);
  }

  lemma {:induction false} InitKeeps(next: Ordered)
    ensures Inv(Init(next))
  {
  }

  lemma {:induction false} RunKeeps(next: Ordered, steps: seq<Step>)
    requires Run(next, steps)
    ensures Inv(After(next, steps)) && After(next, steps).next == next
  {
    hide Inv, Apply, Enabled;
    InitKeeps(next);
    if steps != [] {
      var n := |steps| - 1;
      RunKeeps(next, steps[..n]);
      StepKeeps(After(next, steps[..n]), steps[n]);
      StepFixes(After(next, steps[..n]), steps[n]);
    }
  }
}
