/**
 When a draining sequence can come to wait for nothing, whatever the device does.  The queue drains what
 has the barrier's colour, and a request of the other colour that goes back on the queue is held back.
 */
module BarrierHang {
  import opened BarrierModel
  import opened BarrierProof
  import opened BarrierProgress

  /** The sequence waits for what was inserted before the barrier. */
  ghost predicate Waiting(s: State) {
    DrainsNow(s) && DRAIN !in s.ordseq
  }

  /** It waits, nothing is at the driver, and nothing will be issued. */
  ghost predicate Stuck(s: State) {
    Waiting(s) && s.driver == {} && (s.queue == [] || DoVerdict(s) == Wait)
  }

  /** A request the device has, or is about to be given, that is not of the barrier's colour. */
  ghost predicate Stranger(s: State, x: Rq) {
    x.Fs? && Issued(s, x) && Color(s.log, x.id) != Color(s.log, s.orig)
  }

  /** These steps, taken from s, keep the sequence waiting and leave it stuck. */
  ghost predicate Hangs(s: State, more: seq<Step>)
    decreases |more|
  {
    && Waiting(s)
    && (if more == [] then Stuck(s) else Enabled(s, more[0]) && Hangs(Apply(s, more[0]), more[1..]))
  }

  // ---------------------------------------------------------------- what is ahead of the barrier

  ghost predicate Ahead(s: State) {
    Waiting(s) ==> Earlier(s)
  }

  lemma {:induction false} HeadIsEarlier(s: State)
    requires Common(s) && Waiting(s) && s.queue != [] && DoVerdict(s).Issue?
    ensures s.queue[0].Fs? && s.queue[0].id < s.orig && Color(s.log, s.queue[0].id) == Color(s.log, s.orig)
  {
    if s.queue[0].Fs? && s.orig <= s.queue[0].id { LaterHeadColor(s); }
  }

  lemma {:induction false} StartAhead(s: State)
    requires Inv(s) && BarrierAtHead(s)
    ensures Ahead(PollOnce(s))
  {
    PollStart(s);
    StartShape(s);
    StartQueue(s, StartOrdered(s), ProxyList(HeadMethod(s)));
  }

  lemma {:induction false} PollAhead(s: State)
    requires Inv(s) && Ahead(s) && s.next.Ordered?
    ensures Ahead(PollOnce(s))
  {
    hide Order, Colors, Errors, Counted, Cover, Ids, Turns, BarriersHeld, Apart, Drain;
    if BarrierAtHead(s) {
      StartAhead(s);
    } else if s.queue != [] {
      PollKept(s);
      if Waiting(s) && DoVerdict(s).Issue? { HeadIsEarlier(s); }
    }
  }

  lemma {:induction false} EndAhead(s: State, x: Rq, error: int)
    requires Proxies(s) && Turns(s) && Ahead(s) && x in s.driver
    ensures Ahead(EndIo(s, x, error))
  {
    hide EndIo, Earlier, DrainOver;
    if x.Fs? {
      FsEndIs(s, x, error);
      if Waiting(s) { RetiredEarlier(s, x); }
    } else {
      assert Issued(s, x);
      ProxyEndIs(s, x, error);
    }
  }

  lemma {:induction false} RetiredEarlier(s: State, x: Rq)
    requires Earlier(s)
    ensures Earlier(Retired(s, x))
  {
  }

  lemma {:induction false} RequeueAhead(s: State, x: Rq)
    requires Ahead(s) && x in s.driver && Apart(s)
    ensures Ahead(RequeueRq(s, x))
  {
  }

  lemma {:induction false} StartRqAhead(s: State, pos: nat)
    requires Ahead(s) && Enabled(s, Start(pos))
    ensures Ahead(Apply(s, Start(pos)))
  {
  }

  lemma {:induction false} DispatchAhead(s: State, id: nat, pos: nat)
    requires Inv(s) && Ahead(s) && Enabled(s, Dispatch(id, pos))
    ensures Ahead(Apply(s, Dispatch(id, pos)))
  {
  }

  lemma {:induction false} InsertAhead(s: State, barrier: bool, empty: bool, back: bool)
    requires Ids(s) && Ahead(s)
    ensures Ahead(AddRequest(s, barrier, empty, back))
  {
  }

  lemma {:induction false} StepAhead(s: State, step: Step)
    requires Inv(s) && Ahead(s) && s.next.Ordered? && Enabled(s, step)
    ensures Ahead(Apply(s, step))
  {
    hide Ids, Apart, Cover, Proxies, Turns, BarriersHeld, Counted, Order, Colors, Errors, Drain, Apply, Ahead;
    hide AddRequest, EndIo, RequeueRq, PollOnce, Dequeue;
    ApplyIs(s, step);
    match step
    case Insert(barrier, empty, back) => InsertAhead(s, barrier, empty, back);
    case Dispatch(id, pos) => DispatchAhead(s, id, pos);
    case Start(pos) => StartRqAhead(s, pos);
    case Requeue(x) => RequeueAhead(s, x);
    case Complete(x, error) => EndAhead(s, x, error);
    case Poll => PollAhead(s);
  }

  // ---------------------------------------------------------------- without strangers it never hangs

  /** Nothing of the other colour is with the device, and something is coming or can be issued. */
  ghost predicate Calm(s: State) {
    (forall x :: !Stranger(s, x)) && !Stuck(s)
  }

  lemma {:induction false} InsertCalm(s: State, barrier: bool, empty: bool, back: bool)
    requires Ids(s) && Waiting(s) && Calm(s)
    ensures Calm(AddRequest(s, barrier, empty, back))
  {
    var t := AddRequest(s, barrier, empty, back);
    forall x
      ensures !Stranger(t, x)
    {
      assert Stranger(t, x) ==> Stranger(s, x);
    }
  }

  lemma {:induction false} DispatchCalm(s: State, id: nat, pos: nat)
    requires Inv(s) && Waiting(s) && Earlier(s) && Calm(s) && Enabled(s, Dispatch(id, pos))
    ensures Calm(Apply(s, Dispatch(id, pos)))
  {
    hide Order, Colors, Errors, Counted, Cover, Turns, Drain, InsertAt;
    var t := Apply(s, Dispatch(id, pos));
    InsertMembers(s.queue, pos, Fs(id));
    forall x
      ensures !Stranger(t, x)
    {
      assert Stranger(t, x) ==> Stranger(s, x);
    }
    if s.driver == {} {
      HeadIsEarlier(s);
      assert s.queue[0] in s.queue;
    }
  }

  lemma {:induction false} StartRqCalm(s: State, pos: nat)
    requires Waiting(s) && Calm(s) && Enabled(s, Start(pos))
    ensures Calm(Apply(s, Start(pos)))
  {
    var t := Apply(s, Start(pos));
    forall x
      ensures !Stranger(t, x)
    {
      assert Stranger(t, x) ==> Stranger(s, x);
    }
  }

  lemma {:induction false} PollCalm(s: State)
    requires Inv(s) && Waiting(s) && Calm(s) && s.next.Ordered?
    ensures Calm(PollOnce(s))
  {
    hide Order, Colors, Errors, Counted, Cover, Ids, Turns, BarriersHeld, Apart, Drain;
    if s.queue != [] {
      PollKept(s);
      var t := PollOnce(s);
      if DoVerdict(s).Issue? { HeadIsEarlier(s); }
      forall x
        ensures !Stranger(t, x)
      {
        assert Stranger(t, x) && x != s.queue[0] ==> Stranger(s, x);
      }
    }
  }

  lemma {:induction false} WaitingSeq(s: State)
    requires Proxies(s) && Waiting(s)
    ensures CurSeq(s.ordseq) == DRAIN
  {
  }

  /** While the queue drains the driver has file-system requests only. */
  lemma {:induction false} WaitingFs(s: State, x: Rq)
    requires Turns(s) && Waiting(s) && x in s.driver
    ensures x.Fs?
  {
    assert Issued(s, x);
  }

  lemma {:induction false} RequeueFirst(s: State, x: Rq)
    requires Waiting(s) && x.Fs? && Color(s.log, x.id) == Color(s.log, s.orig)
    ensures RequeueRq(s, x) == PutBack(s, x, 0)
  {
  }

  lemma {:induction false} RequeueCalm(s: State, x: Rq)
    requires Common(s) && Waiting(s) && Calm(s) && x in s.driver
    ensures Calm(RequeueRq(s, x))
  {
    hide Order, Colors, Errors, Counted, Cover, Ids, Turns, BarriersHeld, Apart, Proxies, RequeueRq;
    WaitingSeq(s);
    WaitingFs(s, x);
    assert Issued(s, x) && !Stranger(s, x);
    RequeueFirst(s, x);
    var t := PutBack(s, x, 0);
    InsertMembers(s.queue, 0, x);
    forall y
      ensures !Stranger(t, y)
    {
      assert Stranger(t, y) ==> Stranger(s, y);
    }
  }

  lemma {:induction false} EndCalm(s: State, x: Rq, error: int)
    requires Common(s) && Waiting(s) && Calm(s) && x in s.driver && Waiting(EndIo(s, x, error))
    ensures Calm(EndIo(s, x, error))
  {
    hide Order, Colors, Errors, Cover, Ids, Turns, BarriersHeld, Apart, Proxies, EndIo;
    WaitingSeq(s);
    WaitingFs(s, x);
    FsEndIs(s, x, error);
    var t := Retired(s, x);
    forall y
      ensures !Stranger(t, y)
    {
      assert Stranger(t, y) ==> Stranger(s, y);
    }
    DriverLoses(s.driver, x);
    assert t.driver == {} ==> InFlightSet(t.driver) == {};
  }

  lemma {:induction false} StepCalm(s: State, step: Step)
    requires Inv(s) && s.next.Ordered? && Waiting(s) && Earlier(s) && Calm(s) && Enabled(s, step)
    requires Waiting(Apply(s, step))
    ensures Calm(Apply(s, step))
  {
    hide Ids, Apart, Cover, Proxies, Turns, BarriersHeld, Counted, Order, Colors, Errors, Drain, Apply, Calm, Waiting,
        Earlier;
    hide AddRequest, EndIo, RequeueRq, PollOnce, Dequeue;
    ApplyIs(s, step);
    match step
    case Insert(barrier, empty, back) => InsertCalm(s, barrier, empty, back);
    case Dispatch(id, pos) => DispatchCalm(s, id, pos);
    case Start(pos) => StartRqCalm(s, pos);
    case Requeue(x) => RequeueCalm(s, x);
    case Complete(x, error) => EndCalm(s, x, error);
    case Poll => PollCalm(s);
  }

  lemma {:induction false} CalmNeverHangs(s: State, more: seq<Step>)
    requires Inv(s) && s.next.Ordered? && Ahead(s) && Calm(s)
    ensures !Hangs(s, more)
    decreases |more|
  {
    hide Inv, Calm, Earlier, Apply;
    if Hangs(s, more) {
      if more == [] {
        CalmIsNot(s);
      } else {
        var t := Apply(s, more[0]);
        assert Hangs(t, more[1..]);
        StepKeeps(s, more[0]);
        StepFixes(s, more[0]);
        StepAhead(s, more[0]);
        StepCalm(s, more[0]);
        CalmNeverHangs(t, more[1..]);
      }
    }
  }

  lemma {:induction false} CalmIsNot(s: State)
    ensures Calm(s) ==> !Stuck(s)
  {
  }

  // ---------------------------------------------------------------- with a stranger it can hang

  /** The device ends another request: the sequence goes on waiting for the stranger. */
  lemma {:induction false} EndsOther(s: State, x: Rq, y: Rq)
    requires Common(s) && Waiting(s) && x in s.driver && Stranger(s, x) && y in s.driver && y != x
    ensures var t := EndIo(s, y, 0);
            && Waiting(t) && x in t.driver && Stranger(t, x) && t.queue == s.queue && t.driver == s.driver - {y}
  {
    WaitingFs(s, y);
    FsEndIs(s, y, 0);
    DriverLoses(s.driver, y);
    assert x in InFlightSet(s.driver - {y});
  }

  /** With only the stranger at the driver, a head of the barrier's colour is issued ... */
  lemma {:induction false} IssuesHead(s: State, x: Rq)
    requires Common(s) && s.next.Ordered? && Waiting(s) && x in s.driver && Stranger(s, x) && s.queue != []
    requires DoVerdict(s).Issue?
    ensures var t := PollOnce(s);
            && Waiting(t) && x in t.driver && Stranger(t, x) && t.queue == s.queue && t.driver == s.driver
            && Enabled(t, Start(0))
  {
    PollKept(s);
  }

  lemma {:induction false} TakesHead(s: State, x: Rq)
    requires Waiting(s) && x in s.driver && Stranger(s, x) && Enabled(s, Start(0))
    ensures var t := Apply(s, Start(0)); Waiting(t) && x in t.driver && Stranger(t, x) && |t.queue| == |s.queue| - 1
  {
  }

  /** ... and with none at the head, the stranger goes back on the queue and is held there. */
  lemma {:induction false} GoesBack(s: State, x: Rq)
    requires Common(s) && Waiting(s) && s.driver == {x} && Stranger(s, x) && (s.queue == [] || !DoVerdict(s).Issue?)
    ensures Stuck(RequeueRq(s, x))
  {
    hide Order, Colors, Errors, Counted, Cover, Ids, Turns, BarriersHeld, Apart, InsertAt;
    WaitingSeq(s);
    var k := RequeuePos(Returned(s, x), x, 0);
    InsertMembers(s.queue, k, x);
    assert RequeueRq(s, x) == PutBack(s, x, k);
  }

  lemma {:induction false} HangsMore(s: State, step: Step, rest: seq<Step>)
    requires Waiting(s) && Enabled(s, step) && Hangs(Apply(s, step), rest)
    ensures Hangs(s, [step] + rest)
  {
    hide Waiting, Enabled, Apply;
    assert ([step] + rest)[1..] == rest;
  }

  /** The device ends everything but the stranger, and then sends the stranger back. */
  lemma {:induction false} HangOut(s: State, x: Rq) returns (more: seq<Step>)
    requires Inv(s) && s.next.Ordered? && Waiting(s) && x in s.driver && Stranger(s, x)
    ensures Hangs(s, more)
    decreases |s.queue|, |s.driver|
  {
    hide Ids, Apart, Cover, Proxies, Turns, BarriersHeld, Counted, Order, Colors, Errors, Drain, DrainsNow, Issued;
    hide Apply, PollOnce, EndIo, RequeueRq, Dequeue, AddRequest;
    if y :| y in s.driver && y != x {
      var step := Complete(y, 0);
      ApplyIs(s, step);
      EndsOther(s, x, y);
      StepKeeps(s, step);
      StepFixes(s, step);
      var rest := HangOut(Apply(s, step), x);
      HangsMore(s, step, rest);
      more := [step] + rest;
    } else if s.queue != [] && DoVerdict(s).Issue? {
      ApplyIs(s, Poll);
      IssuesHead(s, x);
      StepKeeps(s, Poll);
      StepFixes(s, Poll);
      var t := Apply(s, Poll);
      TakesHead(t, x);
      StepKeeps(t, Start(0));
      StepFixes(t, Start(0));
      var rest := HangOut(Apply(t, Start(0)), x);
      HangsMore(t, Start(0), rest);
      HangsMore(s, Poll, [Start(0)] + rest);
      more := [Poll] + ([Start(0)] + rest);
    } else {
      assert s.driver == {x};
      ApplyIs(s, Requeue(x));
      GoesBack(s, x);
      HangsMore(s, Requeue(x), []);
      more := [Requeue(x)] + [];
    }
  }

  lemma {:induction false} Given(s: State, x: Rq, pos: nat)
    requires Waiting(s) && Stranger(s, x) && x !in s.driver && pos < |s.queue| && s.queue[pos] == x
    ensures Enabled(s, Start(pos))
    ensures var t := Apply(s, Start(pos)); Waiting(t) && x in t.driver && Stranger(t, x)
  {
  }

  lemma {:induction false} StrangerHangs(s: State, x: Rq) returns (more: seq<Step>)
    requires Inv(s) && s.next.Ordered? && Waiting(s) && Stranger(s, x)
    ensures Hangs(s, more)
  {
    hide Inv, Waiting, Apply, DrainsNow, Stuck;
    if x in s.driver {
      more := HangOut(s, x);
    } else {
      var pos :| 0 <= pos < |s.queue| && s.queue[pos] == x;
      Given(s, x, pos);
      StepKeeps(s, Start(pos));
      StepFixes(s, Start(pos));
      var rest := HangOut(Apply(s, Start(pos)), x);
      HangsMore(s, Start(pos), rest);
      more := [Start(pos)] + rest;
    }
  }

  // ---------------------------------------------------------------- over whole runs

  lemma {:induction false} RunAhead(next: Ordered, steps: seq<Step>)
    requires next.Ordered? && Run(next, steps)
    ensures Ahead(After(next, steps))
  {
    hide Ahead, Apply, Inv;
    if steps == [] {
      InitAhead(next);
    } else {
      var n := |steps| - 1;
      RunAhead(next, steps[..n]);
      RunKeeps(next, steps[..n]);
      StepAhead(After(next, steps[..n]), steps[n]);
    }
  }

  lemma {:induction false} InitAhead(next: Ordered)
    ensures Ahead(Init(next))
  {
  }

  /** A waiting sequence can be left waiting for nothing exactly when it is so already, or a request of the
      other colour is with the device. */
  lemma {:induction false} HangsIffStranger(next: Ordered, steps: seq<Step>)
    requires next.Ordered? && Run(next, steps) && Waiting(After(next, steps))
    ensures var s := After(next, steps);
            (exists more :: Hangs(s, more)) <==> Stuck(s) || exists x :: Stranger(s, x)
  {
    hide Inv, Waiting, Stranger, Apply, Stuck;
    var s := After(next, steps);
    RunKeeps(next, steps);
    RunAhead(next, steps);
    if x :| Stranger(s, x) {
      var more := StrangerHangs(s, x);
    } else if Stuck(s) {
      assert Hangs(s, []);
    } else {
      forall more
        ensures !Hangs(s, more)
      {
        CalmNeverHangs(s, more);
      }
    }
  }

  /** At the poll that starts to drain, something is in flight: the sequence can come to hang exactly when a
      request of the other colour is issued then. */
  lemma {:induction false} StartHangsIffStranger(next: Ordered, steps: seq<Step>)
    requires next.Ordered? && Run(next, steps) && BarrierAtHead(After(next, steps))
    requires Waiting(PollOnce(After(next, steps)))
    ensures var t := PollOnce(After(next, steps));
            (exists more :: Hangs(t, more)) <==> exists x :: Stranger(t, x)
  {
    hide Hangs, Stranger;
    var s := After(next, steps);
    OneStep(next, steps, Poll);
    RunKeeps(next, steps);
    InFlightAtStart(s);
    HangsIffStranger(next, steps + [Poll]);
  }

  lemma {:induction false} InFlightAtStart(s: State)
    requires Inv(s) && BarrierAtHead(s) && Waiting(PollOnce(s))
    ensures PollOnce(s).driver != {}
  {
    hide Order, Colors, Errors, Cover, Ids, Turns, Apart, Drain;
    PollStart(s);
    StartShape(s);
    assert InFlightSet(s.driver) != {};
  }

  /** Such a continuation is a run. */
  lemma {:induction false} HangIsRun(next: Ordered, steps: seq<Step>, more: seq<Step>)
    requires Run(next, steps) && Hangs(After(next, steps), more)
    ensures Run(next, steps + more) && Stuck(After(next, steps + more))
    decreases |more|
  {
    hide Apply, Stuck, Waiting, Enabled;
    if more == [] {
      assert steps + more == steps;
    } else {
      OneStep(next, steps, more[0]);
      HangIsRun(next, steps + [more[0]], more[1..]);
      assert steps + [more[0]] + more[1..] == steps + more;
    }
  }

  /** A device that keeps to the order it was asked for never has such a request. */
  lemma {:induction false} HonestHasNone(next: Ordered, steps: seq<Step>, x: Rq)
    requires next.Ordered? && Run(next, steps) && DoneBelow(After(next, steps)) && Waiting(After(next, steps))
    ensures !Stranger(After(next, steps), x)
  {
    hide Counted, Errors, Proxies, Turns, Drain;
    var s := After(next, steps);
    RunKeeps(next, steps);
    RunAhead(next, steps);
    if x.Fs? && Issued(s, x) { EarlierColor(s, x.id); }
  }
}
