/**
 Tagged command queueing (blk-tag.c): queues that may share one map of tags take and give back its bits with
 atomic operations only. The steps below are the points between which other queues can act.
 */
module TagModel {
  import opened Lists

  /** What a request is doing with the map: it has no tag; it looks for one below limit; it has found one
      to try; it has set the bit and not yet entered itself; it has its tag; it is giving the tag back and
      still entered, or entered no more. */
  datatype Stage =
    | Idle
    | Looking(limit: nat)
    | Found(limit: nat, tag: nat)
    | Setting(tag: nat)
    | Tagged(tag: nat)
    | Ending(tag: nat)
    | Clearing(tag: nat)

  datatype Rq = Rq(queue: int, stage: Stage)

  datatype State = State(
    bits: seq<bool>,                     // tag_map
    index: seq<Option<int>>,             // tag_index
    maxDepth: nat,
    realDepth: nat,
    queues: set<int>,                    // who uses the map; refcnt is their number
    rqs: map<int, Rq>,
    working: map<int, int>,              // the request a queue works on while it holds its lock
    word: WordSize,                      // BITS_PER_LONG
    overrun: bool)                       // memory behind the map was written

  type WordSize = n: nat | 0 < n witness 1

  /** The bits of a map of some depth, in whole words. */
  function Words(word: WordSize, depth: nat): nat {
    (depth + word - 1) / word * word
  }

  function StageOf(s: State, r: int): Stage {
    if r in s.rqs then s.rqs[r].stage else Idle
  }

  predicate Holds(g: Stage, t: nat) {
    g == Setting(t) || g == Tagged(t) || g == Ending(t) || g == Clearing(t)
  }

  /** Request r owns tag t. */
  predicate Owns(s: State, r: int, t: nat) {
    Holds(StageOf(s, r), t)
  }

  function To(s: State, r: int, g: Stage): State
    requires r in s.rqs
  {
    s.(rqs := s.rqs[r := s.rqs[r].(stage := g)])
  }

  /** Some tags are kept for synchronous requests. */
  function Limit(maxDepth: nat, sync: bool): nat {
    if !sync && maxDepth > 1 then if maxDepth == 2 then 1 else maxDepth - 2 else maxDepth
  }

  // ---------------------------------------------------------------- resizing

  /** The depth init_tag_map settles for. */
  function Adjusted(depth: nat, nrRequests: nat): nat {
    if depth > nrRequests * 2 then nrRequests * 2 else depth
  }

  function Copied<T>(old_: seq<T>, n: nat, len: nat, zero: T): (r: seq<T>)
    ensures |r| == len
  {
    seq(len, i requires 0 <= i => if i < n && i < |old_| then old_[i] else zero)
  }

  /** Both copies of the old map, all its entries and all its words, end within a new one of that depth. */
  predicate CopyFits(s: State, depth: nat) {
    s.realDepth <= depth && Words(s.word, s.realDepth) <= Words(s.word, depth)
  }

  /** A new map of another depth with the old entries copied into it, into memory behind it too if the new
      map is the shorter one. */
  function Grown(s: State, depth: nat): State {
    s.(bits := Copied(s.bits, Words(s.word, s.realDepth), Words(s.word, depth), false),
       index := Copied(s.index, s.realDepth, depth, None),
       maxDepth := depth, realDepth := depth, overrun := s.overrun || !CopyFits(s, depth))
  }

  /** blk_queue_resize_tags */
  function Resized(s: State, depth: nat, nrRequests: nat): State {
    if depth <= s.realDepth then s.(maxDepth := depth)
    else if |s.queues| != 1 then s
    else Grown(s, Adjusted(depth, nrRequests))
  }

  // ---------------------------------------------------------------- steps

  datatype Event =
    | Join(queue: int)
    | Start(r: int, sync: bool)
    | Scan(r: int, tag: nat)             // find_first_zero_bit sees a free tag
    | ScanNone(r: int)                   // or none
    | TestAndSet(r: int)
    | Enter(r: int)
    | End(r: int)
    | Leave(r: int)
    | ClearBit(r: int)
    | Resize(queue: int, depth: nat, nrRequests: nat)
    | NewRequest(r: int, queue: int)

  predicate Allowed(s: State, e: Event) {
    match e
    case Join(q) => q !in s.queues
    case NewRequest(r, q) => r !in s.rqs && q in s.queues
    case Start(r, _) => r in s.rqs && s.rqs[r].stage.Idle? && s.rqs[r].queue !in s.working
    case Scan(r, t) => StageOf(s, r).Looking? && t < StageOf(s, r).limit && t < |s.bits| && !s.bits[t]
    case ScanNone(r) => StageOf(s, r).Looking?
    case TestAndSet(r) => StageOf(s, r).Found?
    case Enter(r) => StageOf(s, r).Setting?
    case End(r) => r in s.rqs && s.rqs[r].stage.Tagged? && s.rqs[r].queue !in s.working
    case Leave(r) => StageOf(s, r).Ending?
    case ClearBit(r) => StageOf(s, r).Clearing?
    case Resize(q, depth, nr) => q in s.queues && q !in s.working
  }

  function Unlocked(s: State, r: int): State
    requires r in s.rqs
  {
    s.(working := s.working - {s.rqs[r].queue})
  }

  function Locked(s: State, r: int): State
    requires r in s.rqs
  {
    s.(working := s.working[s.rqs[r].queue := r])
  }

  function SetBit(s: State, t: nat, b: bool): State {
    if t < |s.bits| then s.(bits := s.bits[t := b]) else s
  }

  function SetIndex(s: State, t: nat, x: Option<int>): State {
    if t < |s.index| then s.(index := s.index[t := x]) else s
  }

  function Step(s: State, e: Event): State
    requires Allowed(s, e)
  {
    match e
    case Join(q) => s.(queues := s.queues + {q})
    case NewRequest(r, q) => s.(rqs := s.rqs[r := Rq(q, Idle)])
    case Start(r, sync) => To(Locked(s, r), r, Looking(Limit(s.maxDepth, sync)))
    case Scan(r, t) => To(s, r, Found(s.rqs[r].stage.limit, t))
    case ScanNone(r) => To(Unlocked(s, r), r, Idle)
    case TestAndSet(r) =>
      var g := s.rqs[r].stage;
      if g.tag < |s.bits| && s.bits[g.tag] then To(s, r, Looking(g.limit))
      else To(SetBit(s, g.tag, true), r, Setting(g.tag))
    case Enter(r) =>
      var t := s.rqs[r].stage.tag;
      To(SetIndex(Unlocked(s, r), t, Some(r)), r, Tagged(t))
    case End(r) => To(Locked(s, r), r, Ending(s.rqs[r].stage.tag))
    case Leave(r) =>
      var t := s.rqs[r].stage.tag;
      To(SetIndex(s, t, None), r, Clearing(t))
    case ClearBit(r) =>
      var t := s.rqs[r].stage.tag;
      To(SetBit(Unlocked(s, r), t, false), r, Idle)
    case Resize(_, depth, nr) => Resized(s, depth, nr)
  }

  // ---------------------------------------------------------------- what every step keeps

  ghost predicate Owned(s: State, t: nat) {
    exists r :: Owns(s, r, t)
  }

  /** A bit is set exactly while some request owns the tag. */
  ghost predicate BitsRight(s: State) {
    forall t: nat :: t < |s.bits| ==> (s.bits[t] <==> Owned(s, t))
  }

  /** No two requests own a tag. */
  ghost predicate Single(s: State) {
    forall r1, r2, t: nat :: Owns(s, r1, t) && Owns(s, r2, t) ==> r1 == r2
  }

  /** A tag's entry is its owner from the time it enters itself to the time it leaves. */
  predicate Entered(s: State, r: int, t: nat) {
    StageOf(s, r) == Tagged(t) || StageOf(s, r) == Ending(t)
  }

  ghost predicate IndexRight(s: State) {
    forall t: nat, r :: t < |s.index| ==> (s.index[t] == Some(r) <==> Entered(s, r, t))
  }

  predicate StageFits(s: State, r: int) {
    var g := StageOf(s, r);
    match g
    case Idle => true
    case Looking(l) => l <= s.realDepth
    case Found(l, t) => t < l <= s.realDepth
    case _ => g.tag < s.realDepth
  }

  /** A queue works on a request exactly while that request is on the way to its tag or back. */
  predicate WorkFits(s: State, r: int) {
    && (r in s.rqs ==> s.rqs[r].queue in s.queues)
    && (!StageOf(s, r).Idle? && !StageOf(s, r).Tagged? ==>
         s.rqs[r].queue in s.working && s.working[s.rqs[r].queue] == r)
  }

  ghost predicate Good(s: State) {
    && !s.overrun && |s.bits| == Words(s.word, s.realDepth) && |s.index| == s.realDepth && s.maxDepth <= s.realDepth
    && BitsRight(s) && Single(s) && IndexRight(s)
    && (forall r :: StageFits(s, r))
    && (forall r :: WorkFits(s, r))
  }
}
