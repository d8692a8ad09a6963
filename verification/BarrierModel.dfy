/**
 The ordered-write (barrier) protocol of the block layer as a step machine.

 A queue hands requests to a driver.  A barrier request splits the stream: what was
 inserted before it must reach the disk before it, what was inserted after it must wait.
 The protocol replaces the barrier by up to three proxy requests (pre-flush, barrier,
 post-flush) and records their progress in the bit mask `ordseq`.
 */
module BarrierModel {

  /** A request: a file-system request, named by its insertion index, or a proxy. */
  datatype Rq = Fs(id: nat) | PreFlush | Bar | PostFlush

  /** What insertion fixes about a file-system request. */
  datatype Info = Info(barrier: bool, empty: bool, color: bool)

  /** The queue's ordering method (QUEUE_ORDERED_*). */
  datatype Ordered = NoOrder | Ordered(byTag: bool, preflush: bool, bar: bool, postflush: bool)

  /** The end of an original barrier request, with the error it is ended with. */
  datatype End = End(id: nat, error: int)

  // The bits of `ordseq` (include/linux/blkdev.h); a mask is the set of its bits.
  const STARTED := 0x01
  const DRAIN := 0x02
  const PREFLUSH := 0x04
  const BAR := 0x08
  const POSTFLUSH := 0x10
  const DONE := 0x20

  const EOPNOTSUPP := 95

  datatype State = State(
    // request_queue fields
    next: Ordered,             // next_ordered
    ordered: Ordered,          // method of the sequence in progress
    ordseq: set<int>,
    orderr: int,
    orig: nat,                 // orig_bar_rq
    ordcolor: bool,
    queue: seq<Rq>,            // queue_head, the dispatch queue
    sorted: set<nat>,          // requests held by the I/O scheduler
    inFlight: int,             // in_flight[0] + in_flight[1]
    // request fields
    log: seq<Info>,            // every file-system request, in insertion order
    soft: set<Rq>,             // REQ_SOFTBARRIER
    started: set<Rq>,          // REQ_STARTED
    // history
    driver: set<Rq>,           // handed to the driver, neither completed nor requeued
    done: set<nat>,            // completed
    ended: seq<End>,           // original barriers ended so far
    errs: seq<int>             // errors reported to the sequence in progress
  )

  predicate IsBarrier(log: seq<Info>, i: nat) {
    i < |log| && log[i].barrier
  }

  predicate Color(log: seq<Info>, i: nat) {
    i < |log| && log[i].color
  }

  /** blk_ordered_cur_seq: the lowest bit not yet set, or 0 when no sequence is in progress. */
  function CurSeq(ordseq: set<int>): int {
    if ordseq == {} then 0
    else if STARTED !in ordseq then STARTED
    else if DRAIN !in ordseq then DRAIN
    else if PREFLUSH !in ordseq then PREFLUSH
    else if BAR !in ordseq then BAR
    else if POSTFLUSH !in ordseq then POSTFLUSH
    else DONE
  }

  /** blk_ordered_req_seq: the stage in which a request may be issued. */
  function ReqSeq(s: State, x: Rq): int
    requires s.ordseq != {}
  {
    match x
    case PreFlush => PREFLUSH
    case Bar => BAR
    case PostFlush => POSTFLUSH
    case Fs(i) => if Color(s.log, i) == Color(s.log, s.orig) then DRAIN else DONE
  }

  /** blk_account_rq: started file-system requests count as in flight; flushes never do. */
  predicate Accounted(s: State, x: Rq) {
    x in s.started && (x.Fs? || x == Bar)
  }

  /** The BUG_ON of blk_ordered_complete_seq. */
  predicate RepeatedBit(s: State, bits: set<int>) {
    s.ordseq * bits != {}
  }

  /** blk_ordered_complete_seq */
  function CompleteSeq(s: State, bits: set<int>, error: int): State {
    var orderr := if error != 0 && s.orderr == 0 then error else s.orderr;
    var ordseq := s.ordseq + bits;
    var s1 := s.(orderr := orderr, ordseq := ordseq, errs := s.errs + [error]);
    if CurSeq(ordseq) != DONE then s1
    else s1.(ordseq := {}, done := s.done + {s.orig}, ended := s.ended + [End(s.orig, orderr)])
  }

  /** elv_insert, ELEVATOR_INSERT_FRONT */
  function InsertFront(s: State, x: Rq): State {
    s.(queue := [x] + s.queue, soft := s.soft + {x})
  }

  /** blk_rq_init followed by a front insertion */
  function QueueProxy(s: State, x: Rq): State {
    InsertFront(s.(started := s.started - {x}, soft := s.soft - {x}), x)
  }

  /** The method used for one barrier: an empty barrier has no BAR and needs no POSTFLUSH. */
  function MethodFor(next: Ordered, empty: bool): Ordered
    requires next.Ordered?
  {
    if !empty then next
    else Ordered(next.byTag && next.preflush, next.preflush, false, false)
  }

  /** The dispatch-queue part of start_ordered: stack the proxies at the head, in reverse. */
  function StackProxies(s: State): State
    requires s.ordered.Ordered?
  {
    var s1 := if s.ordered.postflush then QueueProxy(s, PostFlush) else s;
    var s2 := if s.ordered.bar then QueueProxy(s1, Bar) else s1;
    if s.ordered.preflush then QueueProxy(s2, PreFlush) else s2
  }

  /** blk_dequeue_request */
  function Dequeue(s: State, k: nat): State
    requires k < |s.queue|
  {
    s.(queue := s.queue[..k] + s.queue[k + 1..],
       inFlight := if Accounted(s, s.queue[k]) then s.inFlight + 1 else s.inFlight)
  }

  /** The bits start_ordered completes at once. */
  function Skipped(o: Ordered, inFlight: int): set<int>
    requires o.Ordered?
  {
    (if o.postflush then {} else {POSTFLUSH})
    + (if o.bar then {} else {BAR})
    + (if o.preflush then {} else {PREFLUSH})
    + (if !o.byTag && inFlight != 0 then {} else {DRAIN})
  }

  /** start_ordered up to the completion of the skipped bits. */
  function PrepareOrdered(s: State): State
    requires s.queue != [] && s.queue[0].Fs? && s.next.Ordered?
  {
    var b := s.queue[0].id;
    var s1 := s.(orderr := 0,
                 ordered := MethodFor(s.next, b < |s.log| && s.log[b].empty),
                 ordseq := s.ordseq + {STARTED}, errs := []);
    var s2 := Dequeue(s1, 0);
    StackProxies(s2.(orig := b))
  }

  function StartOrdered(s: State): State
    requires s.queue != [] && s.queue[0].Fs? && s.next.Ordered?
  {
    var s1 := PrepareOrdered(s);
    CompleteSeq(s1, Skipped(s1.ordered, s1.inFlight), 0)
  }

  /** What blk_do_ordered answers: no request now, this request, or look again. */
  datatype Verdict = Wait | Issue(rq: Rq) | Again

  /** start_ordered's result: the first proxy, unless the queue must drain first. */
  function StartVerdict(s: State): Verdict
    requires s.queue != [] && s.queue[0].Fs? && s.next.Ordered?
  {
    var s1 := PrepareOrdered(s);
    if StartOrdered(s).ordseq == {} then Again
    else if !s1.ordered.byTag && s1.inFlight != 0 then Wait
    else if s1.ordered.preflush then Issue(PreFlush)
    else if s1.ordered.bar then Issue(Bar)
    else if s1.ordered.postflush then Issue(PostFlush)
    else Wait
  }

  predicate HeadIsBarrier(s: State)
    requires s.queue != []
  {
    match s.queue[0]
    case Fs(i) => IsBarrier(s.log, i)
    case Bar => true        // the proxy is a file-system request made from the barrier's bio
    case _ => false
  }

  /** blk_do_ordered on the head of the dispatch queue: the new state ... */
  function DoOrdered(s: State): State
    requires s.queue != []
  {
    if s.ordseq != {} || !s.queue[0].Fs? || !HeadIsBarrier(s) then s
    else if s.next.Ordered? then StartOrdered(s)
    else Dequeue(s, 0).(done := s.done + {s.queue[0].id},
                        ended := s.ended + [End(s.queue[0].id, -EOPNOTSUPP)])
  }

  /** ... and the answer. */
  function DoVerdict(s: State): Verdict
    requires s.queue != []
  {
    var x := s.queue[0];
    if s.ordseq == {} then
      if !x.Fs? || !HeadIsBarrier(s) then Issue(x)
      else if s.next.Ordered? then StartVerdict(s)
      else Again
    else if s.ordered.Ordered? && s.ordered.byTag then
      if HeadIsBarrier(s) && x != Bar then Wait else Issue(x)
    else
      if ReqSeq(s, x) > CurSeq(s.ordseq) then Wait else Issue(x)
  }

  /** The WARN_ON of blk_do_ordered: the head belongs to a stage that is already over. */
  predicate Warns(s: State)
    requires s.queue != []
  {
    s.ordseq != {} && !(s.ordered.Ordered? && s.ordered.byTag)
    && ReqSeq(s, s.queue[0]) < CurSeq(s.ordseq)
  }

  /** elv_completed_request */
  function Completed(s: State, x: Rq): State {
    var s1 := if Accounted(s, x) then s.(inFlight := s.inFlight - 1) else s;
    if DrainOver(s1) then CompleteSeq(s1, {DRAIN}, 0) else s1
  }

  predicate DrainOver(s: State) {
    && s.ordseq != {}
    && s.inFlight == 0
    && CurSeq(s.ordseq) == DRAIN
    && (s.queue == [] || ReqSeq(s, s.queue[0]) > DRAIN)
  }

  function ProxyBit(x: Rq): int
    requires !x.Fs?
  {
    match x
    case PreFlush => PREFLUSH
    case Bar => BAR
    case PostFlush => POSTFLUSH
  }

  /** elv_insert, ELEVATOR_INSERT_REQUEUE: where the request goes. */
  function RequeuePos(s: State, x: Rq, from: nat): (k: nat)
    requires s.ordseq != {} && from <= |s.queue|
    ensures from <= k <= |s.queue|
    decreases |s.queue| - from
  {
    if from == |s.queue| || ReqSeq(s, x) <= ReqSeq(s, s.queue[from]) then from
    else RequeuePos(s, x, from + 1)
  }

  function InsertAt(q: seq<Rq>, k: nat, x: Rq): seq<Rq>
    requires k <= |q|
  {
    q[..k] + [x] + q[k..]
  }

  /** Entries no sorted request may be dispatched in front of (stop_flags of elv_dispatch_sort). */
  predicate Stops(s: State, x: Rq) {
    x in s.soft || x in s.started || !x.Fs? || IsBarrier(s.log, x.id)
  }

  // ---------------------------------------------------------------- steps

  datatype Step =
    | Insert(barrier: bool, empty: bool, back: bool)  // __elv_add_request
    | Dispatch(id: nat, pos: nat)                     // the scheduler moves one request over
    | Poll                                            // one turn of the loop in __elv_next_request
    | Start(pos: nat)                                 // blk_start_request on a request it returned
    | Complete(rq: Rq, error: int)
    | Requeue(rq: Rq)

  predicate Enabled(s: State, step: Step) {
    match step
    case Insert(barrier, empty, back) =>
      // a back insertion drains the scheduler first (a sequence of Dispatch steps)
      (barrier ==> back) && (back ==> s.sorted == {})
    case Dispatch(id, pos) =>
      id in s.sorted && pos <= |s.queue| && forall k :: pos <= k < |s.queue| ==> !Stops(s, s.queue[k])
    case Poll => true
    case Start(pos) => pos < |s.queue| && s.queue[pos] in s.started
    case Complete(x, _) => x in s.driver
    case Requeue(x) => x in s.driver
  }

  /** __elv_add_request */
  function AddRequest(s: State, barrier: bool, empty: bool, back: bool): State {
    var id := |s.log|;
    var s1 := s.(log := s.log + [Info(barrier, empty, s.ordcolor)],
                 ordcolor := if barrier then !s.ordcolor else s.ordcolor);
    if back then s1.(queue := s.queue + [Fs(id)], soft := s.soft + {Fs(id)})
    else s1.(sorted := s.sorted + {id})
  }

  /** The request's completion callback. */
  function EndIo(s: State, x: Rq, error: int): State {
    var s1 := s.(driver := s.driver - {x});
    match x
    case Fs(i) => Completed(s1.(done := s.done + {i}), x)
    case _ => CompleteSeq(Completed(s1, x), {ProxyBit(x)}, error)
  }

  /** elv_requeue_request */
  function RequeueRq(s: State, x: Rq): State {
    var s1 := s.(driver := s.driver - {x},
                 inFlight := if Accounted(s, x) then s.inFlight - 1 else s.inFlight,
                 started := s.started - {x}, soft := s.soft + {x});
    var k := if s.ordseq == {} then 0 else RequeuePos(s1, x, 0);
    s1.(queue := InsertAt(s.queue, k, x))
  }

  function PollOnce(s: State): State {
    if s.queue == [] then s
    else
      var s1 := DoOrdered(s);
      match DoVerdict(s)
      case Issue(x) => s1.(started := s1.started + {x})
      case _ => s1
  }

  function Apply(s: State, step: Step): State
    requires Enabled(s, step)
  {
    match step
    case Insert(barrier, empty, back) => AddRequest(s, barrier, empty, back)
    case Dispatch(id, pos) => s.(sorted := s.sorted - {id}, queue := InsertAt(s.queue, pos, Fs(id)))
    case Poll => PollOnce(s)
    case Start(pos) => Dequeue(s, pos).(driver := s.driver + {s.queue[pos]})
    case Complete(x, error) => EndIo(s, x, error)
    case Requeue(x) => RequeueRq(s, x)
  }

  function Init(next: Ordered): State {
    State(next, NoOrder, {}, 0, 0, false, [], {}, 0, [], {}, {}, {}, {}, [], [])
  }

  /** A run: every step is enabled where it happens. */
  ghost predicate Run(next: Ordered, steps: seq<Step>)
    decreases |steps|, 0
  {
    steps == [] ||
    (var before := steps[..|steps| - 1];
     Run(next, before) && Enabled(After(next, before), steps[|steps| - 1]))
  }

  ghost function After(next: Ordered, steps: seq<Step>): State
    requires Run(next, steps)
    decreases |steps|, 1
  {
    if steps == [] then Init(next)
    else Apply(After(next, steps[..|steps| - 1]), steps[|steps| - 1])
  }
}
