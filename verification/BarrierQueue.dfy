/**
 The request queue as the object the block layer updates in place.  Every method is proved to
 take the matching step of BarrierModel and to keep the protocol's invariant; the BUG_ONs of the
 code are preconditions of the methods that hold them, so calling those methods proves the
 BUG_ONs unreachable.
 */
module BarrierQueue {
  import opened BarrierModel
  import opened BarrierProof

  /** n turns of the polling loop. */
  ghost function Polled(s: State, n: nat): State {
    if n == 0 then s else PollOnce(Polled(s, n - 1))
  }

  /** Each of the first n polls told to look again. */
  ghost predicate LookedAgain(s: State, n: nat) {
    forall i :: 0 <= i < n ==> Polled(s, i).queue != [] && DoVerdict(Polled(s, i)).Again?
  }

  /** What a poll issues is at the head of the queue; looking again means the queue got shorter. */
  lemma {:induction false} PollResult(s: State)
    requires Inv(s) && s.queue != []
    ensures DoVerdict(s).Issue? ==> DoOrdered(s).queue != [] && DoOrdered(s).queue[0] == DoVerdict(s).rq
    ensures DoVerdict(s).Again? ==> |DoOrdered(s).queue| < |s.queue|
  {
    if BarrierAtHead(s) {
      StartResult(s);
    } else if !RefusedAtHead(s) && DoVerdict(s).Issue? {
      IssuedHead(s);
    }
  }

  lemma {:induction false} StartResult(s: State)
    requires Inv(s) && BarrierAtHead(s)
    ensures var t := StartOrdered(s);
            && (StartVerdict(s).Issue? ==> t.queue != [] && t.queue[0] == StartVerdict(s).rq)
            && (StartVerdict(s).Again? ==> |t.queue| < |s.queue|)
  {
    if StartVerdict(s).Issue? {
      StartIssues(s);
    } else {
      StartShape(s);
    }
  }

  lemma {:induction false} ProxyEndFacts(s: State, x: Rq, error: int)
    requires Inv(s) && x in s.driver && !x.Fs?
    ensures s.ordseq != {} && s.ordseq * {ProxyBit(x)} == {}
    ensures EndIo(s, x, error) == CompleteSeq(Retired(s, x), {ProxyBit(x)}, error)
    ensures Completed(s.(driver := s.driver - {x}), x) == Retired(s, x)
  {
    hide CompleteSeq, EndIo, Completed, Proxies, Turns;
    ProxyBitProxies(s, x, error);
    ProxyEndIs(s, x, error);
  }

  lemma {:induction false} HeadMethodIs(s: State)
    requires BarrierAtHead(s)
    ensures HeadMethod(s) == MethodFor(s.next, s.log[s.queue[0].id].empty) && HeadMethod(s).Ordered?
  {
  }

  lemma {:induction false} DequeueFixes(s: State, k: nat)
    requires k < |s.queue|
    ensures var t := Dequeue(s, k); t == s.(queue := t.queue, inFlight := t.inFlight)
  {
  }

  class RequestQueue {
    var nextOrdered: Ordered
    var ordered: Ordered
    var ordseq: set<int>
    var orderr: int
    var origBarRq: nat
    var ordcolor: bool
    var queueHead: seq<Rq>
    var sorted: set<nat>
    var inFlight: int
    var requests: seq<Info>
    var soft: set<Rq>
    var started: set<Rq>
    ghost var driver: set<Rq>
    ghost var done: set<nat>
    ghost var ended: seq<End>
    ghost var errs: seq<int>

    ghost function Abs(): State
      reads this
    {
      State(nextOrdered, ordered, ordseq, orderr, origBarRq, ordcolor, queueHead, sorted, inFlight,
            requests, soft, started, driver, done, ended, errs)
    }

    ghost predicate Valid()
      reads this
    {
      Inv(Abs())
    }

    constructor (next: Ordered)
      ensures Valid() && Abs() == Init(next)
    {
      nextOrdered, ordered, ordseq, orderr, origBarRq := next, NoOrder, {}, 0, 0;
      ordcolor, queueHead, sorted, inFlight := false, [], {}, 0;
      requests, soft, started := [], {}, {};
      driver, done, ended, errs := {}, {}, [], [];
      new;
      RunKeeps(next, []);
    }

    /** blk_ordered_cur_seq: the first zero bit of the mask. */
    method OrderedCurSeq() returns (bit: int)
      ensures bit == CurSeq(ordseq)
    {
      if ordseq == {} { return 0; }
      bit := STARTED;
      while bit < DONE && bit in ordseq
        invariant bit in {STARTED, DRAIN, PREFLUSH, BAR, POSTFLUSH, DONE}
        invariant forall b :: b in {STARTED, DRAIN, PREFLUSH, BAR, POSTFLUSH} && b < bit ==> b in ordseq
        decreases DONE - bit
      {
        bit := 2 * bit;
      }
    }

    /** blk_ordered_req_seq */
    method OrderedReqSeq(x: Rq) returns (bit: int)
      requires ordseq != {}                 // BUG_ON(q->ordseq == 0)
      ensures bit == ReqSeq(Abs(), x)
    {
      if x == PreFlush { return PREFLUSH; }
      if x == Bar { return BAR; }
      if x == PostFlush { return POSTFLUSH; }
      var mine := x.id < |requests| && requests[x.id].color;
      var theirs := origBarRq < |requests| && requests[origBarRq].color;
      if mine == theirs { bit := DRAIN; } else { bit := DONE; }
    }

    /** blk_ordered_complete_seq */
    method OrderedCompleteSeq(bits: set<int>, error: int) returns (finished: bool)
      requires ordseq != {} && ordseq * bits == {}   // BUG_ON(q->ordseq & seq)
      modifies this`orderr, this`errs, this`ordseq, this`done, this`ended
      ensures Abs() == CompleteSeq(old(Abs()), bits, error)
      ensures finished <==> ordseq == {}
    {
      hide CurSeq;
      if error != 0 && orderr == 0 { orderr := error; }
      errs := errs + [error];
      ordseq := ordseq + bits;
      var cur := OrderedCurSeq();
      if cur != DONE { return false; }
      ordseq := {};
      // __blk_end_request_all(orig_bar_rq, orderr)
      done := done + {origBarRq};
      ended := ended + [End(origBarRq, orderr)];
      return true;
    }

    /** elv_insert(ELEVATOR_INSERT_FRONT) of a freshly initialised proxy */
    method QueueProxy(x: Rq)
      modifies this`started, this`soft, this`queueHead
      ensures Abs() == BarrierModel.QueueProxy(old(Abs()), x)
    {
      started := started - {x};
      soft := soft - {x};
      soft := soft + {x};
      queueHead := [x] + queueHead;
    }

    /** blk_dequeue_request */
    method DequeueRequest(k: nat)
      requires k < |queueHead|              // BUG_ON(list_empty(&rq->queuelist))
      modifies this`queueHead, this`inFlight
      ensures Abs() == Dequeue(old(Abs()), k)
    {
      var x := queueHead[k];
      queueHead := queueHead[..k] + queueHead[k + 1..];
      if x in started && (x.Fs? || x == Bar) { inFlight := inFlight + 1; }
    }

    /** start_ordered, first part: the method for this barrier; an empty one needs no BAR and no POSTFLUSH. */
    method BeginSequence(empty: bool)
      requires nextOrdered.Ordered?
      modifies this`ordered, this`orderr, this`errs, this`ordseq
      ensures Abs() == old(Abs()).(orderr := 0, ordered := MethodFor(nextOrdered, empty),
                                   ordseq := old(ordseq) + {STARTED}, errs := [])
    {
      var o := nextOrdered;
      if empty {
        o := o.(bar := false, postflush := false);
        if o.byTag && !o.preflush {
          o := o.(byTag := false);
        }
      }
      orderr, errs, ordered, ordseq := 0, [], o, ordseq + {STARTED};
    }

    /** start_ordered, second part: stack the proxies at the head, the last stage first. */
    method StackProxies() returns (rq: Verdict, skip: set<int>)
      requires ordered.Ordered?
      modifies this`started, this`soft, this`queueHead
      ensures Abs() == BarrierModel.StackProxies(old(Abs()))
      ensures skip + {DRAIN} == Skipped(ordered, 0) && DRAIN !in skip
      ensures rq == if ordered.preflush then Issue(PreFlush) else if ordered.bar then Issue(Bar)
                    else if ordered.postflush then Issue(PostFlush) else Wait
    {
      rq, skip := Wait, {};
      if ordered.postflush {
        QueueProxy(PostFlush);
        rq := Issue(PostFlush);
      } else {
        skip := skip + {POSTFLUSH};
      }
      if ordered.bar {
        QueueProxy(Bar);
        rq := Issue(Bar);
      } else {
        skip := skip + {BAR};
      }
      if ordered.preflush {
        QueueProxy(PreFlush);
        rq := Issue(PreFlush);
      } else {
        skip := skip + {PREFLUSH};
      }
    }

    /** start_ordered, the barrier itself: it leaves the queue and becomes orig_bar_rq. */
    method TakeBarrier()
      requires BarrierAtHead(Abs())
      modifies this`orderr, this`errs, this`ordered, this`ordseq, this`queueHead, this`inFlight, this`origBarRq
      ensures Abs() == BarrierTaken(old(Abs())) && ordered.Ordered?
    {
      hide Dequeue, HeadMethod;
      ghost var s := Abs();
      var b := queueHead[0].id;
      HeadMethodIs(s);
      BeginSequence(requests[b].empty);
      DequeueRequest(0);
      DequeueFixes(s.(orderr := 0, ordered := HeadMethod(s), ordseq := s.ordseq + {STARTED}, errs := []), 0);
      origBarRq := b;
    }

    /** start_ordered up to the completion of the skipped stages */
    method PrepareOrdered() returns (rq: Verdict, skip: set<int>)
      requires BarrierAtHead(Abs())
      modifies this
      ensures Abs() == BarrierModel.PrepareOrdered(old(Abs()))
      ensures ordered.Ordered? && skip + {DRAIN} == Skipped(ordered, 0) && DRAIN !in skip
      ensures rq == if ordered.preflush then Issue(PreFlush) else if ordered.bar then Issue(Bar)
                    else if ordered.postflush then Issue(PostFlush) else Wait
    {
      hide BarrierModel.StackProxies, BarrierModel.PrepareOrdered, BarrierTaken, Skipped;
      PreparedFields(Abs());
      TakeBarrier();
      rq, skip := StackProxies();
    }

    /** start_ordered */
    method StartOrdered() returns (verdict: Verdict)
      requires BarrierAtHead(Abs())
      modifies this
      ensures Abs() == BarrierModel.StartOrdered(old(Abs())) && verdict == StartVerdict(old(Abs()))
    {
      hide BarrierModel.StackProxies, BarrierModel.PrepareOrdered, BarrierModel.StartOrdered, BarrierTaken, CompleteSeq;
      ghost var s := Abs();
      PreparedFields(s);
      var rq, skip := PrepareOrdered();
      var draining := !ordered.byTag && inFlight != 0;
      if draining {
        rq := Wait;
      } else {
        skip := skip + {DRAIN};
      }
      assert skip == Skipped(ordered, inFlight);
      var finished := OrderedCompleteSeq(skip, 0);
      verdict := if finished then Again else rq;
    }

    /** blk_do_ordered on the head of the queue */
    method DoOrdered() returns (verdict: Verdict)
      requires Valid() && queueHead != []
      modifies this
      ensures Abs() == BarrierModel.DoOrdered(old(Abs())) && verdict == DoVerdict(old(Abs()))
    {
      var x := queueHead[0];
      var isBarrier := x == Bar || (x.Fs? && x.id < |requests| && requests[x.id].barrier);
      if ordseq == {} {
        assert !x.Fs? ==> Pending(Abs(), x);
        if !isBarrier { return Issue(x); }
        if nextOrdered != NoOrder {
          verdict := StartOrdered();
          return;
        }
        DequeueRequest(0);
        done := done + {x.id};
        ended := ended + [End(x.id, -EOPNOTSUPP)];
        return Again;
      }
      if ordered.byTag {
        if isBarrier && x != Bar { return Wait; }
      } else {
        var req := OrderedReqSeq(x);
        var cur := OrderedCurSeq();
        if req > cur { return Wait; }
      }
      return Issue(x);
    }

    /** One turn of the loop in __elv_next_request; what it returns is marked as started. */
    method PollQueue() returns (verdict: Verdict)
      requires Valid() && queueHead != []
      modifies this
      ensures Valid() && Abs() == PollOnce(old(Abs())) && verdict == DoVerdict(old(Abs()))
      ensures verdict.Issue? ==> queueHead != [] && queueHead[0] == verdict.rq && verdict.rq in started
      ensures verdict.Again? ==> |queueHead| < old(|queueHead|)
    {
      hide Inv, BarrierModel.DoOrdered, DoVerdict;
      PollKeeps(Abs());
      PollResult(Abs());
      verdict := DoOrdered();
      if verdict.Issue? {
        started := started + {verdict.rq};
      }
    }

    /** blk_peek_request over the dispatch queue: it polls until it is told to issue or to wait, or has
        nothing left to look at. */
    method PeekRequest() returns (verdict: Verdict, ghost n: nat)
      requires Valid()
      modifies this
      ensures Valid() && Abs() == Polled(old(Abs()), n)
      ensures verdict.Issue? ==> queueHead != [] && queueHead[0] == verdict.rq && verdict.rq in started
      ensures n == 0 ==> queueHead == [] && verdict == Wait
      ensures n > 0 ==>
        var last := Polled(old(Abs()), n - 1);
        && LookedAgain(old(Abs()), n - 1) && last.queue != [] && verdict == DoVerdict(last)
        && (verdict.Again? ==> queueHead == [])
    {
      hide PollOnce, DoVerdict, Inv;
      ghost var s := Abs();
      verdict, n := Wait, 0;
      while queueHead != []
        invariant Valid() && Abs() == Polled(s, n) && LookedAgain(s, n)
        invariant if n == 0 then verdict == Wait else verdict == DoVerdict(Polled(s, n - 1)) == Again
        decreases |queueHead|
      {
        verdict := PollQueue();
        n := n + 1;
        if !verdict.Again? { return; }
      }
    }

    /** __elv_add_request; a back insertion finds the scheduler drained */
    method AddRequest(barrier: bool, empty: bool, back: bool) returns (id: nat)
      requires Valid() && (barrier ==> back) && (back ==> sorted == {})
      modifies this
      ensures Valid() && Abs() == BarrierModel.AddRequest(old(Abs()), barrier, empty, back) && id == old(|requests|)
    {
      hide Inv;
      InsertKeeps(Abs(), barrier, empty, back);
      id := |requests|;
      requests := requests + [Info(barrier, empty, ordcolor)];
      if barrier { ordcolor := !ordcolor; }
      if back {
        soft := soft + {Fs(id)};
        queueHead := queueHead + [Fs(id)];
      } else {
        sorted := sorted + {id};
      }
    }

    /** The scheduler hands one request over (elv_dispatch_sort, elv_dispatch_add_tail). */
    method DispatchRequest(id: nat, pos: nat)
      requires Valid() && Enabled(Abs(), Dispatch(id, pos))
      modifies this
      ensures Valid() && Abs() == Apply(old(Abs()), Dispatch(id, pos))
    {
      hide Inv, Stops;
      DispatchKeeps(Abs(), id, pos);
      sorted := sorted - {id};
      queueHead := queueHead[..pos] + [Fs(id)] + queueHead[pos..];
    }

    method TakeRequest(pos: nat)
      requires pos < |queueHead| && queueHead[pos] in started
      modifies this
      ensures Abs() == Apply(old(Abs()), Start(pos))
    {
      driver := driver + {queueHead[pos]};
      DequeueRequest(pos);
    }

    /** blk_start_request on a request PeekRequest returned */
    method StartRequest(pos: nat)
      requires Valid() && pos < |queueHead| && queueHead[pos] in started
      modifies this
      ensures Valid() && Abs() == Apply(old(Abs()), Start(pos))
    {
      hide Inv, Dequeue;
      StartRqKeeps(Abs(), pos);
      TakeRequest(pos);
    }

    /** elv_completed_request */
    method CompletedRequest(x: Rq)
      modifies this
      ensures Abs() == Completed(old(Abs()), x)
    {
      if x in started && (x.Fs? || x == Bar) { inFlight := inFlight - 1; }
      if ordseq != {} {
        var waits := true;
        if queueHead != [] {
          var next := OrderedReqSeq(queueHead[0]);
          waits := next > DRAIN;
        }
        var cur := OrderedCurSeq();
        if inFlight == 0 && cur == DRAIN && waits {
          var _ := OrderedCompleteSeq({DRAIN}, 0);
        }
      }
    }

    /** The end of a file-system request. */
    method EndRequest(id: nat, error: int)
      requires Valid() && Fs(id) in driver
      modifies this
      ensures Valid() && Abs() == EndIo(old(Abs()), Fs(id), error)
    {
      hide Inv, Completed;
      FsEndKeeps(Abs(), Fs(id), error);
      driver := driver - {Fs(id)};
      done := done + {id};
      CompletedRequest(Fs(id));
    }

    /** pre_flush_end_io, bar_end_io and post_flush_end_io */
    method ProxyEndIo(x: Rq, error: int)
      requires Valid() && x in driver && !x.Fs?
      modifies this
      ensures Valid() && Abs() == EndIo(old(Abs()), x, error)
    {
      hide Inv, Completed, CompleteSeq, EndIo, RepeatedBit;
      ghost var s := Abs();
      ProxyEndKeeps(s, x, error);
      ProxyEndFacts(s, x, error);
      driver := driver - {x};
      CompletedRequest(x);
      var bit := if x == PreFlush then PREFLUSH else if x == Bar then BAR else POSTFLUSH;
      var _ := OrderedCompleteSeq({bit}, error);
    }

    /** The list walk of elv_insert(ELEVATOR_INSERT_REQUEUE). */
    method FindRequeuePos(x: Rq) returns (k: nat)
      requires ordseq != {}
      ensures k == RequeuePos(Abs(), x, 0)
    {
      k := 0;
      var mine := OrderedReqSeq(x);
      while k < |queueHead|
        invariant k <= |queueHead|
        invariant RequeuePos(Abs(), x, 0) == RequeuePos(Abs(), x, k)
      {
        var theirs := OrderedReqSeq(queueHead[k]);
        if mine <= theirs { return; }
        k := k + 1;
      }
    }

    /** elv_requeue_request: the front of the queue, or the request's place in the running sequence. */
    method PutBack(x: Rq)
      modifies this`driver, this`inFlight, this`started, this`soft, this`queueHead
      ensures Abs() == RequeueRq(old(Abs()), x)
    {
      hide RequeuePos, ReqSeq;
      ghost var s := Abs();
      if x in started && (x.Fs? || x == Bar) { inFlight := inFlight - 1; }
      driver, started, soft := driver - {x}, started - {x}, soft + {x};
      assert Abs() == Returned(s, x);
      var k := 0;
      if ordseq != {} {
        k := FindRequeuePos(x);
      }
      queueHead := queueHead[..k] + [x] + queueHead[k..];
    }

    method RequeueRequest(x: Rq)
      requires Valid() && x in driver
      modifies this
      ensures Valid() && Abs() == RequeueRq(old(Abs()), x)
    {
      hide Inv, RequeueRq;
      RequeueKeeps(Abs(), x);
      PutBack(x);
    }
  }
}
