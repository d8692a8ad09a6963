/**
 A sequence in progress never waits for nothing. On a queue that orders by tag this rests on the device: it
 must not end a barrier while something inserted before it is still outstanding.
 */
module BarrierProgress {
  import opened BarrierModel
  import opened BarrierProof

  // ---------------------------------------------------------------- what the device keeps

  /** At no point of the run is a barrier done while something inserted before it is not. */
  ghost predicate Honest(next: Ordered, steps: seq<Step>)
    requires Run(next, steps)
  {
    && DoneBelow(After(next, steps))
    && (steps != [] ==> Honest(next, steps[..|steps| - 1]))
  }

  /** A queue that drains keeps to that by itself. */
  lemma {:induction false} DrainModeIsHonest(next: Ordered, steps: seq<Step>)
    requires DrainMode(next) && Run(next, steps)
    ensures Honest(next, steps)
  {
    RunKeeps(next, steps);
    if steps != [] { DrainModeIsHonest(next, steps[..|steps| - 1]); }
  }

  ghost predicate DrainsNow(s: State) {
    Active(s) && s.ordered.Ordered? && !s.ordered.byTag
  }

  /** While a sequence drains, the queue is in the order of its stages, as on a queue that always drains. */
  lemma {:induction false} StepDrains(s: State, step: Step)
    requires Inv(s) && s.next.Ordered? && Enabled(s, step) && DoneBelow(s) && DoneBelow(Apply(s, step))
    requires DrainsNow(s) ==> Drain(s)
    ensures DrainsNow(Apply(s, step)) ==> Drain(Apply(s, step))
  {
    hide Apply, Drain, DoneBelow, Ids, Apart, Cover, Proxies, Turns, BarriersHeld, Counted, Order, Colors, Errors;
    hide DrainsNow, AddRequest, EndIo, RequeueRq, PollOnce;
    if DrainsNow(Apply(s, step)) {
      ApplyIs(s, step);
      if !step.Poll? && !step.Complete? { OtherDrains(s, step); }
      match step
      case Insert(barrier, empty, back) => InsertDrain(s, barrier, empty, back);
      case Dispatch(id, pos) => DispatchDrain(s, id, pos);
      case Start(pos) => StartRqDrain(s, pos);
      case Requeue(x) => RequeueDrains(s, x);
      case Complete(x, error) => EndDrains(s, x, error);
      case Poll => PollDrains(s);
    }
  }

  lemma {:induction false} ApplyIs(s: State, step: Step)
    requires Enabled(s, step)
    ensures step.Insert? ==> Apply(s, step) == AddRequest(s, step.barrier, step.empty, step.back)
    ensures step.Requeue? ==> Apply(s, step) == RequeueRq(s, step.rq)
    ensures step.Complete? ==> Apply(s, step) == EndIo(s, step.rq, step.error)
    ensures step.Poll? ==> Apply(s, step) == PollOnce(s)
  {
  }

  /** Only a poll starts a sequence. */
  lemma {:induction false} OtherDrains(s: State, step: Step)
    requires Enabled(s, step) && !step.Poll? && !step.Complete? && DrainsNow(Apply(s, step))
    ensures DrainsNow(s)
  {
  }

  lemma {:induction false} RequeueDrains(s: State, x: Rq)
    requires Common(s) && Drain(s) && DrainsNow(s) && x in s.driver
    ensures Drain(RequeueRq(s, x))
  {
    RequeueFront(s, x);
    PutBackDrain(s, x);
    assert RequeueRq(s, x) == PutBack(s, x, 0);
  }

  lemma {:induction false} EndDrains(s: State, x: Rq, error: int)
    requires Inv(s) && x in s.driver && (DrainsNow(s) ==> Drain(s)) && DrainsNow(EndIo(s, x, error))
    ensures Drain(EndIo(s, x, error))
  {
    hide EndIo, Drain, Order, Colors, Errors, Cover;
    var r := Retired(s, x);
    if x.Fs? {
      FsEndIs(s, x, error);
      CompleteSeqIs(r, {DRAIN}, 0);
      RetireCommon(s, x);
      RetireDrain(s, x);
      if DrainOver(r) {
        DrainOverDone(r);
        SeqDrain(r, {DRAIN}, 0);
      }
    } else {
      ProxyBitProxies(s, x, error);
      ProxyEndIs(s, x, error);
      CompleteSeqIs(r, {ProxyBit(x)}, error);
      RetireDrain(s, x);
      DrainedNow(r);
      SeqDrain(r, {ProxyBit(x)}, error);
    }
  }

  lemma {:induction false} DrainedNow(s: State)
    requires Drain(s) && Active(s) && DRAIN in s.ordseq
    ensures forall i :: 0 <= i < s.orig ==> i in s.done
  {
  }

  lemma {:induction false} CompleteSeqIs(s: State, bits: set<int>, error: int)
    ensures DrainsNow(CompleteSeq(s, bits, error)) && Active(s) ==> DrainsNow(s)
  {
  }

  lemma {:induction false} PollDrains(s: State)
    requires Inv(s) && s.next.Ordered? && DoneBelow(s) && (DrainsNow(s) ==> Drain(s)) && DrainsNow(PollOnce(s))
    ensures Drain(PollOnce(s))
  {
    if BarrierAtHead(s) {
      PollStart(s);
      StartShape(s);
      StartDrain(s, StartOrdered(s), ProxyList(HeadMethod(s)));
      MarkedDrains(StartOrdered(s), PollOnce(s));
    } else if s.queue != [] {
      PollKept(s);
      if DoVerdict(s).Issue? { MarkKeepsDrain(s); }
    }
  }

  lemma {:induction false} PollKept(s: State)
    requires !BarrierAtHead(s) && s.queue != [] && s.next.Ordered?
    ensures DoOrdered(s) == s
    ensures PollOnce(s) == if DoVerdict(s).Issue? then s.(started := s.started + {DoVerdict(s).rq}) else s
    ensures DoVerdict(s).Issue? ==> DoVerdict(s).rq == s.queue[0]
  {
  }

  /** A proxy that is issued is no file-system request. */
  lemma {:induction false} MarkedDrains(s: State, t: State)
    requires Drain(s) && (t == s || exists x: Rq :: !x.Fs? && t == s.(started := s.started + {x}))
    ensures Drain(t)
  {
  }

  // ---------------------------------------------------------------- no deadlock

  /** While the queue drains, something inserted before the barrier is in flight or next in line. */
  ghost predicate Draining(s: State) {
    Active(s) && DRAIN !in s.ordseq ==>
      s.inFlight != 0 || (s.queue != [] && s.queue[0].Fs? && s.queue[0].id < s.orig)
  }

  lemma {:induction false} DrainingDone(r: State)
    requires Common(r) && Drain(r)
    ensures Draining(if DrainOver(r) then CompleteSeq(r, {DRAIN}, 0) else r)
  {
    hide Order, Colors, Errors, Counted, Cover, Ids, Turns, BarriersHeld, Apart, ReqSeq, Drain;
    if Active(r) && r.queue != [] { HeadSeqIsRank(r); }
  }

  lemma {:induction false} DrainingBit(r: State, bit: int, error: int)
    requires DRAIN in r.ordseq
    ensures Draining(CompleteSeq(r, {bit}, error))
  {
  }

  lemma {:induction false} DrainingEnd(s: State, x: Rq, error: int)
    requires Inv(s) && (DrainsNow(s) ==> Drain(s)) && x in s.driver
    ensures Draining(EndIo(s, x, error))
  {
    hide CompleteSeq, EndIo, Order, Colors, Errors, Counted, Cover;
    var r := Retired(s, x);
    if x.Fs? {
      FsEndIs(s, x, error);
      if DrainsNow(s) {
        RetireCommon(s, x);
        RetireDrain(s, x);
        DrainingDone(r);
      } else {
        TagDrainSet(s);
        if DrainOver(r) { DrainingBit(r, DRAIN, 0); }
      }
    } else {
      ProxyBitProxies(s, x, error);
      ProxyEndIs(s, x, error);
      DrainingBit(r, ProxyBit(x), error);
    }
  }

  lemma {:induction false} DrainingStart(s: State)
    requires Inv(s) && BarrierAtHead(s)
    ensures Draining(PollOnce(s))
  {
    PollStart(s);
    StartShape(s);
  }

  lemma {:induction false} DrainingRequeue(s: State, x: Rq)
    requires Inv(s) && (DrainsNow(s) ==> Drain(s)) && x in s.driver
    ensures Draining(RequeueRq(s, x))
  {
    TagDrainSet(s);
    if DrainsNow(s) {
      assert Issued(s, x);
      RequeueFront(s, x);
      InsertMembers(s.queue, 0, x);
    }
  }

  lemma {:induction false} DrainingIssue(s: State, pos: nat)
    requires Inv(s) && Draining(s) && Enabled(s, Start(pos))
    ensures Draining(Apply(s, Start(pos)))
  {
  }

  lemma {:induction false} DrainingDispatch(s: State, id: nat, pos: nat)
    requires Inv(s) && (DrainsNow(s) ==> Drain(s)) && Draining(s) && Enabled(s, Dispatch(id, pos))
    ensures Draining(Apply(s, Dispatch(id, pos)))
  {
  }

  lemma {:induction false} DrainingStep(s: State, step: Step)
    requires Inv(s) && (DrainsNow(s) ==> Drain(s)) && Draining(s) && Enabled(s, step)
    ensures Draining(Apply(s, step))
  {
    match step
    case Insert(_, _, _) =>
    case Dispatch(id, pos) => DrainingDispatch(s, id, pos);
    case Poll => if BarrierAtHead(s) { DrainingStart(s); }
    case Start(pos) => DrainingIssue(s, pos);
    case Complete(x, error) => DrainingEnd(s, x, error);
    case Requeue(x) => DrainingRequeue(s, x);
  }

  lemma {:induction false} RunDraining(next: Ordered, steps: seq<Step>)
    requires next.Ordered? && Run(next, steps) && Honest(next, steps)
    ensures Draining(After(next, steps)) && (DrainsNow(After(next, steps)) ==> Drain(After(next, steps)))
    ensures ProxiesFirst(After(next, steps))
  {
    hide Draining, Drain, ProxiesFirst, Apply;
    if steps == [] {
      InitDraining(next);
    } else {
      var n := |steps| - 1;
      RunDraining(next, steps[..n]);
      RunKeeps(next, steps[..n]);
      DrainingStep(After(next, steps[..n]), steps[n]);
      StepDrains(After(next, steps[..n]), steps[n]);
      StepProxiesFirst(After(next, steps[..n]), steps[n]);
    }
  }

  lemma {:induction false} InitDraining(next: Ordered)
    ensures var s := Init(next); Draining(s) && !DrainsNow(s) && ProxiesFirst(s)
  {
  }

  lemma {:induction false} IdleIssues(s: State)
    requires Inv(s) && Drain(s) && DrainsNow(s) && Draining(s) && s.driver == {}
    ensures s.queue != [] && DoVerdict(s) == Issue(s.queue[0])
  {
    assert InFlightSet(s.driver) == {};
    assert DRAIN in s.ordseq ==> Pending(s, PreFlush) || Pending(s, Bar) || Pending(s, PostFlush);
    if s.queue != [] {
      HeadSeqIsRank(s);
      assert s.queue[0] in s.queue;
      IdleRank(s);
    }
  }

  /** With the driver idle, the stage the sequence waits for is the stage of the head of the queue. */
  lemma {:induction false} IdleRank(s: State)
    requires Inv(s) && Drain(s) && Draining(s) && Active(s) && s.driver == {} && s.queue != []
    ensures Rank(s.orig, s.queue[0]) <= CurSeq(s.ordseq)
  {
  }

  // ---------------------------------------------------------------- ordering by tag

  /** While a sequence orders by tag there is nothing to drain. */
  lemma {:induction false} TagDrainSet(s: State)
    requires Proxies(s)
    ensures Active(s) && !DrainsNow(s) ==> DRAIN in s.ordseq
  {
  }

  /** No proxy is behind a barrier. */
  ghost predicate ProxiesFirst(s: State) {
    forall i, j :: 0 <= i < j < |s.queue| && s.queue[i].Fs? && IsBarrier(s.log, s.queue[i].id) ==> s.queue[j].Fs?
  }

  lemma {:induction false} StepProxiesFirst(s: State, step: Step)
    requires Inv(s) && ProxiesFirst(s) && Enabled(s, step)
    ensures ProxiesFirst(Apply(s, step))
  {
    hide Ids, Apart, Cover, Proxies, Turns, BarriersHeld, Counted, Order, Colors, Errors, Drain, Apply;
    hide AddRequest, EndIo, RequeueRq, PollOnce, Dequeue;
    ApplyIs(s, step);
    match step
    case Insert(barrier, empty, back) => InsertProxiesFirst(s, barrier, empty, back);
    case Dispatch(id, pos) => DispatchProxiesFirst(s, id, pos);
    case Start(pos) => StartProxiesFirst(s, pos);
    case Requeue(x) => RequeueProxiesFirst(s, x);
    case Complete(x, error) => EndQueue(s, x, error);
    case Poll => PollProxiesFirst(s);
  }

  lemma {:induction false} DispatchProxiesFirst(s: State, id: nat, pos: nat)
    requires BarriersHeld(s) && ProxiesFirst(s) && Enabled(s, Dispatch(id, pos))
    ensures ProxiesFirst(Apply(s, Dispatch(id, pos)))
  {
  }

  lemma {:induction false} StartProxiesFirst(s: State, pos: nat)
    requires Apart(s) && ProxiesFirst(s) && Enabled(s, Start(pos))
    ensures ProxiesFirst(Apply(s, Start(pos)))
  {
  }

  lemma {:induction false} InsertProxiesFirst(s: State, barrier: bool, empty: bool, back: bool)
    requires Ids(s) && ProxiesFirst(s)
    ensures ProxiesFirst(AddRequest(s, barrier, empty, back))
  {
  }

  lemma {:induction false} RequeueProxiesFirst(s: State, x: Rq)
    requires Inv(s) && ProxiesFirst(s) && x in s.driver
    ensures ProxiesFirst(RequeueRq(s, x))
  {
    hide Drain, Order, Colors, Errors, Cover, Counted, Turns;
    var k := if s.ordseq == {} then 0 else RequeuePos(Returned(s, x), x, 0);
    if Active(s) { RequeuePosOk(s, x); }
    InsertMembers(s.queue, k, x);
    assert RequeueRq(s, x) == PutBack(s, x, k);
  }

  lemma {:induction false} EndQueue(s: State, x: Rq, error: int)
    ensures EndIo(s, x, error).queue == s.queue && EndIo(s, x, error).log == s.log
  {
    hide CurSeq, ReqSeq;
  }

  lemma {:induction false} PollProxiesFirst(s: State)
    requires Inv(s) && ProxiesFirst(s)
    ensures ProxiesFirst(PollOnce(s))
  {
    if BarrierAtHead(s) {
      PollStart(s);
      StartShape(s);
      var t, ps := StartOrdered(s), ProxyList(HeadMethod(s));
      StartQueue(s, t, ps);
      forall i, j | 0 <= i < j < |t.queue| && t.queue[i].Fs? && IsBarrier(t.log, t.queue[i].id)
        ensures t.queue[j].Fs?
      {
        assert i >= |ps|;
        assert s.queue[j - |ps| + 1] in s.queue;
        assert Pending(s, s.queue[j - |ps| + 1]);
      }
    }
  }

  lemma {:induction false} TagIssues(s: State)
    requires Proxies(s) && ProxiesFirst(s) && Active(s) && !DrainsNow(s) && s.driver == {}
    ensures s.queue != [] && DoVerdict(s) == Issue(s.queue[0])
  {
  }

  /** A running sequence never waits for nothing: with no request at the driver, the next poll issues one. */
  lemma {:induction false} NoDeadlock(next: Ordered, steps: seq<Step>)
    requires next.Ordered? && Run(next, steps) && Honest(next, steps)
    requires Active(After(next, steps)) && After(next, steps).driver == {}
    ensures var s := After(next, steps); s.queue != [] && DoVerdict(s) == Issue(s.queue[0])
  {
    hide Draining, Drain, ProxiesFirst;
    RunKeeps(next, steps);
    RunDraining(next, steps);
    if DrainsNow(After(next, steps)) {
      IdleIssues(After(next, steps));
    } else {
      TagIssues(After(next, steps));
    }
  }

  // ---------------------------------------------------------------- a device that does not keep to it

  const TAG := Ordered(true, false, true, false)      // QUEUE_ORDERED_TAG

  lemma {:induction false} OneStep(next: Ordered, steps: seq<Step>, step: Step)
    requires Run(next, steps) && Enabled(After(next, steps), step)
    ensures Run(next, steps + [step]) && After(next, steps + [step]) == Apply(After(next, steps), step)
  {
  }

  lemma {:induction false} OneAtDriver() returns (steps: seq<Step>, s: State)
    ensures Run(TAG, steps) && After(TAG, steps) == s
    ensures s == Init(TAG).(log := [Info(false, false, false)], driver := {Fs(0)}, inFlight := 1, started := {Fs(0)}, soft := {Fs(0)})
  {
    steps := [];
    OneStep(TAG, steps, Insert(false, false, true));
    steps := steps + [Insert(false, false, true)];
    OneStep(TAG, steps, Poll);
    steps := steps + [Poll];
    OneStep(TAG, steps, Start(0));
    steps := steps + [Start(0)];
    s := After(TAG, steps);
  }

  /** Request 0 is at the driver, barrier 1 behind it has ended. */
  lemma {:induction false} PassedBarrier() returns (steps: seq<Step>, s: State)
    ensures Run(TAG, steps) && After(TAG, steps) == s && s.next == TAG && s.ordseq == {} && s.queue == []
    ensures s.sorted == {}
    ensures s.log == [Info(false, false, false), Info(true, false, false)] && s.ordcolor
    ensures s.driver == {Fs(0)} && s.inFlight == 1 && Fs(0) in s.started && s.started <= {Fs(0), Bar} && s.done == {1}
  {
    steps, s := OneAtDriver();
    OneStep(TAG, steps, Insert(true, false, true));
    steps := steps + [Insert(true, false, true)];
    s := After(TAG, steps);
    OneStep(TAG, steps, Poll);
    IssuesBar(s);
    steps := steps + [Poll];
    OneStep(TAG, steps, Start(0));
    steps := steps + [Start(0)];
    var u := After(TAG, steps);
    OneStep(TAG, steps, Complete(Bar, 0));
    EndsBar(u);
    steps := steps + [Complete(Bar, 0)];
    s := After(TAG, steps);
  }

  /** By tag, the barrier's proxy is issued at once. */
  lemma {:induction false} IssuesBar(s: State)
    requires s.next == TAG && s.ordseq == {} && s.queue == [Fs(1)] && s.inFlight == 1 && s.driver == {Fs(0)}
    requires s.log == [Info(false, false, false), Info(true, false, false)] && s.started == {Fs(0)}
    ensures var t := PollOnce(s);
      && t.queue == [Bar] && t.started == {Fs(0), Bar} && t.ordseq == {STARTED, DRAIN, PREFLUSH, POSTFLUSH} && t.orig == 1
      && t == s.(queue := t.queue, started := t.started, ordseq := t.ordseq, orig := 1, soft := t.soft,
                 ordered := TAG, orderr := 0, errs := t.errs)
  {
  }

  lemma {:induction false} EndsBar(s: State)
    requires s.ordseq == {STARTED, DRAIN, PREFLUSH, POSTFLUSH} && s.driver == {Fs(0), Bar} && s.queue == []
    requires Bar in s.started && s.orig == 1 && s.done == {} && s.inFlight == 2
    ensures var t := EndIo(s, Bar, 0);
      && t.ordseq == {} && t.driver == {Fs(0)} && t.done == {1} && t.inFlight == 1
      && t == s.(ordseq := {}, driver := t.driver, done := t.done, inFlight := 1, orderr := t.orderr, errs := t.errs, ended := t.ended)
  {
  }

  /** A device that ends a barrier before what was sent ahead of it, and then sends that back: an empty
      barrier that drains the queue waits for a request that is itself held back, and nothing is issued. */
  lemma {:induction false} TagDrainCanHang() returns (steps: seq<Step>)
    ensures Run(TAG, steps) && !Honest(TAG, steps)
    ensures var s := After(TAG, steps); Active(s) && s.driver == {} && s.queue == [Fs(0)] && DoVerdict(s) == Wait
  {
    hide PollOnce, RequeueRq, DoVerdict;
    var s;
    steps, s := PassedBarrier();
    OneStep(TAG, steps, Insert(true, true, true));
    steps := steps + [Insert(true, true, true)];
    s := After(TAG, steps);
    OneStep(TAG, steps, Poll);
    WaitsToDrain(s);
    steps := steps + [Poll];
    s := After(TAG, steps);
    OneStep(TAG, steps, Requeue(Fs(0)));
    HeldBack(s);
    steps := steps + [Requeue(Fs(0))];
  }

  lemma {:induction false} HeldBack(s: State)
    requires s.ordseq == {STARTED, PREFLUSH, BAR, POSTFLUSH} && s.queue == [] && s.orig == 2
    requires s.ordered.Ordered? && !s.ordered.byTag && s.driver == {Fs(0)} && s.done == {1}
    requires s.log == [Info(false, false, false), Info(true, false, false), Info(true, true, true)]
    ensures var t := RequeueRq(s, Fs(0));
      Active(t) && t.driver == {} && t.queue == [Fs(0)] && DoVerdict(t) == Wait && !DoneBelow(t)
  {
    var t := RequeueRq(s, Fs(0));
    assert 1 in t.done && IsBarrier(t.log, 1) && 0 !in t.done;
  }

  lemma {:induction false} WaitsToDrain(s: State)
    requires s.next == TAG && s.ordseq == {} && s.queue == [Fs(2)] && s.inFlight == 1 && s.driver == {Fs(0)}
    requires |s.log| == 3 && s.log[2] == Info(true, true, true)
    requires Fs(2) !in s.started
    ensures var t := PollOnce(s);
      && t.ordseq == {STARTED, PREFLUSH, BAR, POSTFLUSH} && t.queue == [] && t.orig == 2
      && t.ordered == Ordered(false, false, false, false)
      && t == s.(queue := [], ordseq := t.ordseq, orig := 2, ordered := t.ordered, orderr := 0, errs := t.errs)
  {
  }
}
