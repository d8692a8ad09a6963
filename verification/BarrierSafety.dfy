/**
 What the barrier protocol promises, over every run: insertions, dispatches, issues,
 completions and requeues in any interleaving, with any number of barriers pending.
 */
module BarrierSafety {
  import opened BarrierModel
  import opened BarrierProof

  ghost predicate CompletedIn(steps: seq<Step>, i: nat) {
    exists k :: 0 <= k < |steps| && steps[k].Complete? && steps[k].rq == Fs(i)
  }

  ghost predicate EndedIn(s: State, i: nat) {
    exists k :: 0 <= k < |s.ended| && s.ended[k].id == i
  }

  /** A barrier is finished when it has been ended, any other request when its I/O has completed. */
  ghost predicate Finished(next: Ordered, steps: seq<Step>, i: nat)
    requires Run(next, steps)
  {
    var s := After(next, steps);
    if IsBarrier(s.log, i) then EndedIn(s, i) else CompletedIn(steps, i)
  }

  // ---------------------------------------------------------------- the record is right

  /** How one step changes the record of finished requests. */
  ghost predicate Records(s: State, step: Step, t: State) {
    var c := if step.Complete? && step.rq.Fs? then {step.rq.id} else {};
    || (t.ended == s.ended && t.done == s.done + c)
    || (exists e :: t.ended == s.ended + [e] && t.done == s.done + c + {e.id}
                    && IsBarrier(s.log, e.id) && e.id !in s.done)
  }

  lemma {:induction false} CompleteSeqRecords(s: State, bits: set<int>, error: int)
    ensures var t := CompleteSeq(s, bits, error);
            || (t.ended == s.ended && t.done == s.done)
            || (t.ended == s.ended + [End(s.orig, t.orderr)] && t.done == s.done + {s.orig})
  {
  }

  lemma {:induction false} StepRecords(s: State, step: Step)
    requires Ids(s) && Apart(s) && Proxies(s) && Turns(s) && BarriersHeld(s) && Enabled(s, step)
    ensures Records(s, step, Apply(s, step))
  {
    match step
    case Insert(_, _, _) =>
    case Dispatch(_, _) =>
    case Start(_) =>
    case Requeue(_) =>
    case Poll => PollRecords(s);
    case Complete(x, error) => EndRecords(s, x, error);
  }

  lemma {:induction false} PollRecords(s: State)
    requires Ids(s) && Apart(s) && BarriersHeld(s)
    ensures Records(s, Poll, PollOnce(s))
  {
    if BarrierAtHead(s) {
      StartRecords(s);
    } else if RefusedAtHead(s) {
      assert s.queue[0] in s.queue;
      var e := End(s.queue[0].id, -EOPNOTSUPP);
      assert PollOnce(s).ended == s.ended + [e];
    }
  }

  lemma {:induction false} StartRecords(s: State)
    requires Apart(s) && BarriersHeld(s) && BarrierAtHead(s)
    ensures Records(s, Poll, PollOnce(s))
  {
    assert s.queue[0] in s.queue;
    PollStart(s);
    StartShape(s);
    var t := StartOrdered(s);
    if t.ended != s.ended {
      assert t.ended == s.ended + [End(s.queue[0].id, 0)];
    }
  }

  lemma {:induction false} EndRecords(s: State, x: Rq, error: int)
    requires Ids(s) && Apart(s) && Proxies(s) && Turns(s) && BarriersHeld(s) && x in s.driver
    ensures Records(s, Complete(x, error), EndIo(s, x, error))
  {
    hide CompleteSeq, EndIo, Cover, Turns;
    var r := Retired(s, x);
    if x.Fs? {
      FsEndIs(s, x, error);
      CompleteSeqRecords(r, {DRAIN}, 0);
    } else {
      ProxyBitProxies(s, x, error);
      ProxyEndIs(s, x, error);
      CompleteSeqRecords(r, {ProxyBit(x)}, error);
    }
  }

  /** The step part of DoneIsFinished, for ended barriers. */
  lemma {:induction false} EndedStep(s: State, step: Step, t: State, i: nat)
    requires Records(s, step, t)
    ensures EndedIn(t, i) <==> EndedIn(s, i) || (t.ended != s.ended && t.ended[|t.ended| - 1].id == i)
  {
    if EndedIn(s, i) {
      var k :| 0 <= k < |s.ended| && s.ended[k].id == i;
      assert t.ended[k] == s.ended[k];
    }
    if t.ended != s.ended {
      assert |t.ended| == |s.ended| + 1;
    }
  }

  lemma {:induction false} CompletedStep(steps: seq<Step>, step: Step, i: nat)
    ensures CompletedIn(steps + [step], i) <==> CompletedIn(steps, i) || (step.Complete? && step.rq == Fs(i))
  {
    if CompletedIn(steps, i) {
      var k :| 0 <= k < |steps| && steps[k].Complete? && steps[k].rq == Fs(i);
      assert (steps + [step])[k] == steps[k];
    }
    if step.Complete? && step.rq == Fs(i) {
      assert (steps + [step])[|steps|] == step;
    }
  }

  ghost predicate RecordRight(s: State, steps: seq<Step>, i: nat) {
    i in s.done <==> i < |s.log| && if IsBarrier(s.log, i) then EndedIn(s, i) else CompletedIn(steps, i)
  }

  lemma {:induction false} RecordStep(s: State, steps: seq<Step>, step: Step, t: State, i: nat)
    requires forall j: nat :: RecordRight(s, steps, j)
    requires forall j :: j in s.done ==> j < |s.log|
    requires forall k :: 0 <= k < |s.ended| ==> s.ended[k].id in s.done
    requires !(i < |s.log|) ==> !CompletedIn(steps, i)
    requires Records(s, step, t) && s.log <= t.log
    requires step.Complete? && step.rq.Fs? ==> step.rq.id < |s.log| && !IsBarrier(s.log, step.rq.id)
    ensures RecordRight(t, steps + [step], i)
  {
    EndedStep(s, step, t, i);
    CompletedStep(steps, step, i);
    assert RecordRight(s, steps, i);
  }

  lemma {:induction false} RecordAll(next: Ordered, steps: seq<Step>)
    requires Run(next, steps)
    ensures var s := After(next, steps);
            && (forall i: nat :: RecordRight(s, steps, i))
            && (forall k :: 0 <= k < |s.ended| ==> s.ended[k].id in s.done)
            && (forall i: nat :: CompletedIn(steps, i) ==> i < |s.log|)
  {
    if steps != [] {
      var n := |steps| - 1;
      var s := After(next, steps[..n]);
      assert steps == steps[..n] + [steps[n]];
      RecordAll(next, steps[..n]);
      RunKeeps(next, steps[..n]);
      StepRecords(s, steps[n]);
      StepFixes(s, steps[n]);
      assert steps[n].Complete? && steps[n].rq.Fs? ==> steps[n].rq in s.driver;
      forall i: nat
        ensures RecordRight(After(next, steps), steps, i)
        ensures CompletedIn(steps, i) ==> i < |After(next, steps).log|
      {
        CompletedStep(steps[..n], steps[n], i);
        RecordStep(s, steps[..n], steps[n], After(next, steps), i);
      }
    }
  }

  /** `done` holds exactly the finished requests. */
  lemma {:induction false} DoneIsFinished(next: Ordered, steps: seq<Step>, i: nat)
    requires Run(next, steps)
    ensures i in After(next, steps).done <==> i < |After(next, steps).log| && Finished(next, steps, i)
  {
    RecordAll(next, steps);
    assert RecordRight(After(next, steps), steps, i);
  }

  // ---------------------------------------------------------------- ordering (drain mode)

  lemma {:induction false} EarlierBarrierDone(s: State, x: Rq, b: nat)
    requires Inv(s) && DrainMode(s.next) && x.Fs? && x in s.queue && x in s.started && IsBarrier(s.log, b) && b < x.id
    ensures b in s.done
  {
    assert Issued(s, x);
    assert Placed(s, b);
  }

  /** Nothing inserted after a barrier is handed to the driver before that barrier has ended. */
  lemma {:induction false} NothingPassesBarrier(next: Ordered, steps: seq<Step>, pos: nat, b: nat)
    requires DrainMode(next) && Run(next, steps) && Enabled(After(next, steps), Start(pos))
    requires var s := After(next, steps);
             s.queue[pos].Fs? && IsBarrier(s.log, b) && b < s.queue[pos].id
    ensures EndedIn(After(next, steps), b)
  {
    var s := After(next, steps);
    var x := s.queue[pos];
    RunKeeps(next, steps);
    assert x in s.queue;
    assert Issued(s, x);
    EarlierBarrierDone(s, x, b);
    DoneIsFinished(next, steps, b);
  }

  /** A barrier request itself is never handed to the driver: only its proxies are. */
  lemma {:induction false} BarrierNeverIssued(next: Ordered, steps: seq<Step>, pos: nat)
    requires Run(next, steps) && Enabled(After(next, steps), Start(pos)) && After(next, steps).queue[pos].Fs?
    ensures !IsBarrier(After(next, steps).log, After(next, steps).queue[pos].id)
  {
    RunKeeps(next, steps);
  }

  /** A proxy is handed to the driver only after everything inserted before its barrier has finished
      and the stages before it are over. */
  lemma {:induction false} ProxyWaitsItsTurn(next: Ordered, steps: seq<Step>, pos: nat)
    requires DrainMode(next) && Run(next, steps) && Enabled(After(next, steps), Start(pos))
    requires !After(next, steps).queue[pos].Fs?
    ensures var s := After(next, steps); var x := s.queue[pos];
            && Active(s) && IsBarrier(s.log, s.orig)
            && (forall i: nat :: i < s.orig ==> Finished(next, steps, i))
            && (x == Bar || x == PostFlush ==> PREFLUSH in s.ordseq && !Pending(s, PreFlush))
            && (x == PostFlush ==> BAR in s.ordseq && !Pending(s, Bar))
  {
    var s := After(next, steps);
    RunKeeps(next, steps);
    TurnTaken(s, pos);
    forall i: nat | i < s.orig
      ensures Finished(next, steps, i)
    {
      DoneIsFinished(next, steps, i);
    }
  }

  lemma {:induction false} TurnTaken(s: State, pos: nat)
    requires Inv(s) && DrainMode(s.next) && Enabled(s, Start(pos)) && !s.queue[pos].Fs?
    ensures var x := s.queue[pos];
            && Active(s) && IsBarrier(s.log, s.orig) && InTurn(s, x) && !s.ordered.byTag
            && (forall i :: 0 <= i < s.orig ==> i in s.done)
            && (PREFLUSH in s.ordseq ==> !Pending(s, PreFlush)) && (BAR in s.ordseq ==> !Pending(s, Bar))
  {
  }

  /** The bit of a proxy is set by that proxy's completion and by nothing else. */
  lemma {:induction false} BitSetByCompletion(next: Ordered, steps: seq<Step>, step: Step, x: Rq)
    requires Run(next, steps) && Enabled(After(next, steps), step) && !x.Fs?
    requires var s := After(next, steps);
             Active(s) && ProxyBit(x) !in s.ordseq && ProxyBit(x) in Apply(s, step).ordseq
    ensures step.Complete? && step.rq == x
  {
    RunKeeps(next, steps);
    var s := After(next, steps);
    if step.Complete? {
      BitStep(s, step.rq, step.error, x);
    }
  }

  lemma {:induction false} BitStep(s: State, y: Rq, error: int, x: Rq)
    requires Apart(s) && Proxies(s) && Turns(s) && y in s.driver && !x.Fs? && ProxyBit(x) !in s.ordseq
    requires ProxyBit(x) in EndIo(s, y, error).ordseq
    ensures y == x
  {
    hide EndIo, Apart, Turns, ReqSeq;
    var r := Retired(s, y);
    if y.Fs? {
      FsEndIs(s, y, error);
    } else {
      ProxyBitProxies(s, y, error);
      ProxyEndIs(s, y, error);
    }
  }

  // ---------------------------------------------------------------- the warning (every mode)

  /** A part that the method of the sequence does not have is over from the start. */
  ghost predicate Skips(s: State) {
    Active(s) ==>
      && s.ordered.Ordered?
      && (!s.ordered.preflush ==> PREFLUSH in s.ordseq)
      && (!s.ordered.bar ==> BAR in s.ordseq)
      && (!s.ordered.postflush ==> POSTFLUSH in s.ordseq)
  }

  lemma {:induction false} StepSkips(s: State, step: Step)
    requires Inv(s) && Skips(s) && Enabled(s, step)
    ensures Skips(Apply(s, step))
  {
    hide EndIo, PollOnce;
    match step
    case Insert(_, _, _) =>
    case Dispatch(_, _) =>
    case Start(_) =>
    case Requeue(_) =>
    case Poll => PollSkips(s);
    case Complete(x, error) => EndSkips(s, x, error);
  }

  lemma {:induction false} PollSkips(s: State)
    requires BarriersHeld(s) && Skips(s)
    ensures Skips(PollOnce(s))
  {
    if BarrierAtHead(s) {
      PollStart(s);
      StartShape(s);
    }
  }

  lemma {:induction false} SeqSkips(s: State, bits: set<int>, error: int)
    requires Skips(s) && Active(s)
    ensures Skips(CompleteSeq(s, bits, error))
  {
  }

  lemma {:induction false} EndSkips(s: State, x: Rq, error: int)
    requires Apart(s) && Proxies(s) && Turns(s) && Skips(s) && x in s.driver
    ensures Skips(EndIo(s, x, error))
  {
    hide EndIo, CompleteSeq, ReqSeq, Apart;
    var r := Retired(s, x);
    if x.Fs? {
      FsEndIs(s, x, error);
      if DrainOver(r) { SeqSkips(r, {DRAIN}, 0); }
    } else {
      ProxyBitProxies(s, x, error);
      ProxyEndIs(s, x, error);
      SeqSkips(r, {ProxyBit(x)}, error);
    }
  }

  lemma {:induction false} RunSkips(next: Ordered, steps: seq<Step>)
    requires Run(next, steps)
    ensures Skips(After(next, steps))
  {
    if steps != [] {
      var n := |steps| - 1;
      RunSkips(next, steps[..n]);
      RunKeeps(next, steps[..n]);
      StepSkips(After(next, steps[..n]), steps[n]);
    }
  }

  /** The WARN_ON in blk_do_ordered never fires: neither on a queue that drains, nor where an empty barrier
      drains a queue that otherwise orders by tag. */
  lemma {:induction false} NoWarning(next: Ordered, steps: seq<Step>)
    requires Run(next, steps) && After(next, steps).queue != []
    ensures !Warns(After(next, steps))
  {
    var s := After(next, steps);
    RunKeeps(next, steps);
    if DrainMode(next) {
      if Active(s) {
        HeadSeqIsRank(s);
        assert s.queue[0] in s.queue;
        assert Pending(s, s.queue[0]);
      }
    } else {
      RunSkips(next, steps);
      if Active(s) && !s.ordered.byTag { TagDrainIsFirst(s); }
    }
  }

  /** On a queue that orders by tag, a sequence that drains has nothing else to do. */
  lemma {:induction false} TagDrainIsFirst(s: State)
    requires Proxies(s) && Skips(s) && !DrainMode(s.next) && Active(s) && !s.ordered.byTag
    ensures CurSeq(s.ordseq) == DRAIN
  {
  }

  // ---------------------------------------------------------------- sequence accounting (every mode)

  /** A proxy's completion never sets a bit twice: the BUG_ON is unreachable. */
  lemma {:induction false} NoRepeatedBit(next: Ordered, steps: seq<Step>, x: Rq)
    requires Run(next, steps) && x in After(next, steps).driver && !x.Fs?
    ensures var s := After(next, steps);
            !RepeatedBit(Completed(s.(driver := s.driver - {x}), x), {ProxyBit(x)})
  {
    hide Completed, Cover, Order, Colors, Errors, Counted, Drain;
    var s := After(next, steps);
    RunKeeps(next, steps);
    ProxyBitProxies(s, x, 0);
    ProxyEndIs(s, x, 0);
  }

  /** Neither does the start of a sequence. */
  lemma {:induction false} NoRepeatedBitAtStart(next: Ordered, steps: seq<Step>)
    requires Run(next, steps) && BarrierAtHead(After(next, steps))
    ensures var p := PrepareOrdered(After(next, steps)); !RepeatedBit(p, Skipped(p.ordered, p.inFlight))
  {
  }

  /** Every original barrier is ended at most once. */
  lemma {:induction false} EndedOnce(next: Ordered, steps: seq<Step>)
    requires Run(next, steps)
    ensures var e := After(next, steps).ended; forall j, k :: 0 <= j < k < |e| ==> e[j].id != e[k].id
  {
    if steps != [] {
      var n := |steps| - 1;
      EndedOnce(next, steps[..n]);
      RecordAll(next, steps[..n]);
      RunKeeps(next, steps[..n]);
      StepRecords(After(next, steps[..n]), steps[n]);
    }
  }

  /** The step that ends a barrier finds every part over, and reports the first error any part reported. */
  lemma {:induction false} EndsWithFirstError(next: Ordered, steps: seq<Step>, step: Step)
    requires next.Ordered? && Run(next, steps) && Enabled(After(next, steps), step)
    requires Apply(After(next, steps), step).ended != After(next, steps).ended
    ensures var s := After(next, steps); var t := Apply(s, step);
            && t.ended == s.ended + [End(t.orig, FirstError(t.errs))]
            && IsBarrier(t.log, t.orig) && t.ordseq == {}
            && !Pending(t, PreFlush) && !Pending(t, Bar) && !Pending(t, PostFlush)
            && (DrainMode(next) ==> forall i :: 0 <= i < t.orig ==> i in t.done)
  {
    var s := After(next, steps);
    RunKeeps(next, steps);
    StepKeeps(s, step);
    StepFixes(s, step);
    if step.Poll? {
      PollEnds(s);
    } else {
      EndError(s, step.rq, step.error);
    }
    OverWhenEnded(Apply(s, step));
  }

  lemma {:induction false} OverWhenEnded(t: State)
    requires Inv(t) && t.ordseq == {} && IsBarrier(t.log, t.orig) && t.orig in t.done
    ensures !Pending(t, PreFlush) && !Pending(t, Bar) && !Pending(t, PostFlush)
    ensures DrainMode(t.next) ==> forall i :: 0 <= i < t.orig ==> i in t.done
  {
  }

  lemma {:induction false} PollEnds(s: State)
    requires Inv(s) && s.next.Ordered? && PollOnce(s).ended != s.ended
    ensures var t := PollOnce(s);
            && t.ended == s.ended + [End(t.orig, FirstError(t.errs))]
            && t.ordseq == {} && t.orig in t.done && IsBarrier(t.log, t.orig)
  {
    assert s.queue[0] in s.queue;
    assert BarrierAtHead(s);
    PollStart(s);
    StartShape(s);
    assert FirstError([0]) == 0;
  }

  lemma {:induction false} EndError(s: State, x: Rq, error: int)
    requires Ids(s) && Apart(s) && Proxies(s) && Turns(s) && Errors(s) && x in s.driver
    requires EndIo(s, x, error).ended != s.ended
    ensures var t := EndIo(s, x, error);
            && t.ended == s.ended + [End(t.orig, FirstError(t.errs))]
            && t.orig == s.orig && t.log == s.log && t.ordseq == {} && s.orig in t.done && IsBarrier(s.log, s.orig)
  {
    hide EndIo, Turns, FirstError, ReqSeq;
    var r := Retired(s, x);
    if x.Fs? {
      FirstErrorAppend(s.errs, 0);
      FsEndIs(s, x, error);
    } else {
      ProxyBitProxies(s, x, error);
      FirstErrorAppend(s.errs, error);
      ProxyEndIs(s, x, error);
    }
  }
}
