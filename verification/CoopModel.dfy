/**
 Cooperating CFQ queues (cfq-iosched.c): a queue can be told to merge into another one, new_cfqq, and its
 processes move over one by one; the links are followed in chains, and references are held along them.
 */
module CoopModel {
  import opened Lists

  /** References of the queues that exist, the requests among them, the links, and who holds which queue:
      the contexts of processes, and those that were lost. */
  datatype State = State(
    ref: map<int, int>,
    io: map<int, nat>,                   // allocated[READ] + allocated[WRITE]
    link: map<int, int>,                 // new_cfqq
    hold: map<int, int>,
    lost: set<int>)

  function RefOf(s: State, q: int): int {
    if q in s.ref then s.ref[q] else 0
  }

  function IoOf(s: State, q: int): nat {
    if q in s.io then s.io[q] else 0
  }

  /** cfqq_process_refs */
  function ProcessRefs(s: State, q: int): int {
    RefOf(s, q) - IoOf(s, q)
  }

  // ---------------------------------------------------------------- chains

  /** l is the chain of links from a to a queue without one. */
  predicate Path(link: map<int, int>, a: int, l: List<int>)
    decreases l
  {
    l.Cons? && l.head == a && if a in link then Path(link, link[a], l.tail) else l.tail.Nil?
  }

  ghost predicate HasPath(link: map<int, int>, a: int) {
    exists l :: Path(link, a, l)
  }

  ghost function Chain(link: map<int, int>, a: int): (l: List<int>)
    requires HasPath(link, a)
    ensures Path(link, a, l)
  {
    var l :| Path(link, a, l);
    l
  }

  ghost predicate OnPath(link: map<int, int>, a: int, q: int) {
    exists l :: Path(link, a, l) && Member(l, q)
  }

  /** The holders whose chain passes q. */
  ghost function Via(link: map<int, int>, hold: map<int, int>, q: int): set<int> {
    set h | h in hold && OnPath(link, hold[h], q)
  }

  // ---------------------------------------------------------------- steps

  /** cfq_put_queue */
  function Put(s: State, q: int): State {
    if RefOf(s, q) > 1 then s.(ref := s.ref[q := s.ref[q] - 1])
    else s.(ref := s.ref - {q}, io := s.io - {q}, link := s.link - {q})
  }

  /** What cfq_put_cooperator does to the queues it passes. */
  function PutAll(s: State, l: List<int>): State
    decreases l
  {
    match l
    case Nil => s
    case Cons(q, r) => PutAll(Put(s, q), r)
  }

  /** cfq_setup_merge, when root ends the chain of the queue it is given */
  function Setup(s: State, q: int, other: int, root: int): State {
    if ProcessRefs(s, other) == 0 || root == q || ProcessRefs(s, q) == 0 || ProcessRefs(s, root) == 0 then s
    else if ProcessRefs(s, root) >= ProcessRefs(s, q) then
      s.(link := s.link[q := root], ref := s.ref[root := RefOf(s, root) + ProcessRefs(s, q)])
    else
      s.(link := s.link[root := q], ref := s.ref[q := RefOf(s, q) + ProcessRefs(s, root)])
  }

  /** cfq_merge_cfqqs: a process goes on with the queue its own was linked to. */
  function MoveOn(s: State, h: int): State
    requires h in s.hold && s.hold[h] in s.link
  {
    var q := s.hold[h];
    Put(s.(hold := s.hold[h := s.link[q]]), q)
  }

  /** cfq_exit_cfqq, and split_cfqq when others share the queue: a process gives up its queue and what it
      holds along the chain. */
  ghost function Quit(s: State, h: int): State
    requires h in s.hold && HasPath(s.link, s.hold[h])
  {
    var l := Chain(s.link, s.hold[h]);
    Put(PutAll(s.(hold := s.hold - {h}), l.tail), s.hold[h])
  }

  /** changed_cgroup: a process gives up its queue only; what it holds along the chain stays held. */
  function Regroup(s: State, h: int, lost: int): State
    requires h in s.hold
  {
    var q := s.hold[h];
    var rest := s.hold - {h};
    if q in s.link then Put(s.(hold := rest[lost := s.link[q]], lost := s.lost + {lost}), q)
    else Put(s.(hold := rest), q)
  }

  datatype Event =
    | Create(h: int, q: int)             // cfq_get_queue makes a queue
    | Share(h: int, q: int)              // or returns an async one that is there
    | Merge(q: int, other: int)
    | Move(h: int)
    | Exit(h: int)
    | Leave(h: int, lost: int)
    | Begin(h: int)                      // a request is allocated
    | End(q: int)                        // and put

  /** Merge: the queue has no link yet and the other one has requests while it has none (see
      CfqDrain.CooperatorIsOther). */
  predicate Allowed(s: State, e: Event) {
    match e
    case Create(h, q) => h !in s.hold && q !in s.ref
    case Share(h, q) => h !in s.hold && q in s.ref && q !in s.link
    case Merge(q, other) => q in s.ref && other in s.ref && q !in s.link && q != other
    case Move(h) => h in s.hold && h !in s.lost && s.hold[h] in s.link
    case Exit(h) => h in s.hold && h !in s.lost
    case Leave(h, lost) => h in s.hold && h !in s.lost && lost !in s.hold
    case Begin(h) => h in s.hold && h !in s.lost
    case End(q) => IoOf(s, q) > 0
  }

  /** On a chain without an end nothing would come of a step that follows it. */
  ghost function Step(s: State, e: Event): State
    requires Allowed(s, e)
  {
    match e
    case Create(h, q) => s.(ref := s.ref[q := 1], hold := s.hold[h := q])
    case Share(h, q) => s.(ref := s.ref[q := s.ref[q] + 1], hold := s.hold[h := q])
    case Merge(q, other) =>
      if !HasPath(s.link, other) then s
      else Setup(s, q, other, if OnPath(s.link, other, q) then q else Last(Chain(s.link, other)))
    case Move(h) => MoveOn(s, h)
    case Exit(h) => if HasPath(s.link, s.hold[h]) then Quit(s, h) else s
    case Leave(h, lost) => Regroup(s, h, lost)
    case Begin(h) => s.(ref := s.ref[s.hold[h] := RefOf(s, s.hold[h]) + 1], io := s.io[s.hold[h] := IoOf(s, s.hold[h]) + 1])
    case End(q) => Put(s.(io := s.io[q := IoOf(s, q) - 1]), q)
  }

  // ---------------------------------------------------------------- what every step keeps

  /** The references of q that are neither its requests' nor those of the holders whose chains pass it. */
  ghost function Spare(s: State, q: int): int {
    ProcessRefs(s, q) - |Via(s.link, s.hold, q)|
  }

  /** As it should be, but for one reference more on each queue of l. */
  ghost predicate Owing(s: State, l: List<int>) {
    && (forall a :: HasPath(s.link, a))
    && (forall q :: Spare(s, q) == if Member(l, q) then 1 else 0)
    && (forall q :: q in s.ref ==> s.ref[q] > 0)
    && s.link.Keys <= s.ref.Keys && s.lost <= s.hold.Keys
  }

  ghost predicate Good(s: State) {
    Owing(s, Nil)
  }
}
