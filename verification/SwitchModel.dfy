/**
 Requests and the change of the I/O scheduler (blk-core.c, elevator.c): allocation gives up the queue lock
 half way, and a switch must wait until no request holds private data of the old scheduler.
 */
module SwitchModel {
  import opened Lists

  /** A request from the moment its allocation is counted. priv: it is to have scheduler data; data: the
      scheduler whose data it has; live: its allocation is over; sorted: it is in the scheduler. */
  datatype Req = Req(sync: bool, priv: bool, live: bool, data: Option<int>, sorted: bool)

  /** Where a switch is: none, waiting in elv_quiesce_start, or after elevator_attach. */
  datatype Phase = Idle | Quiescing(new_: int) | Attached(old_: int)

  datatype State = State(
    reqs: map<int, Req>,
    syncCount: int,
    asyncCount: int,
    elvpriv: int,
    bypass: bool,                        // QUEUE_FLAG_ELVSWITCH
    elevator: int,
    phase: Phase)

  function Count(s: State, sync: bool): int {
    if sync then s.syncCount else s.asyncCount
  }

  function Counted(s: State, sync: bool, d: int): State {
    if sync then s.(syncCount := s.syncCount + d) else s.(asyncCount := s.asyncCount + d)
  }

  // ---------------------------------------------------------------- steps

  /** The locked first half of get_request, when it grants the request. */
  function Begin(s: State, id: int, sync: bool): State {
    var priv := !s.bypass;
    Counted(s, sync, 1).(
      reqs := s.reqs[id := Req(sync, priv, false, None, false)],
      elvpriv := s.elvpriv + if priv then 1 else 0)
  }

  /** elv_set_request, without the lock. */
  function SetData(s: State, id: int): State
    requires id in s.reqs
  {
    s.(reqs := s.reqs[id := s.reqs[id].(data := Some(s.elevator))])
  }

  /** get_request returns the request to its caller. */
  function Ready(s: State, id: int): State
    requires id in s.reqs
  {
    s.(reqs := s.reqs[id := s.reqs[id].(live := true)])
  }

  /** freed_request, for a request that is gone or whose allocation failed. */
  function Freed(s: State, id: int): State
    requires id in s.reqs
  {
    var r := s.reqs[id];
    Counted(s, r.sync, -1).(
      reqs := s.reqs - {id},
      elvpriv := s.elvpriv - if r.priv then 1 else 0)
  }

  /** __elv_add_request: only a request with scheduler data is sorted. */
  function Queued(s: State, id: int): State
    requires id in s.reqs
  {
    s.(reqs := s.reqs[id := s.reqs[id].(sorted := s.reqs[id].priv)])
  }

  function Dispatched(s: State, id: int): State
    requires id in s.reqs
  {
    s.(reqs := s.reqs[id := s.reqs[id].(sorted := false)])
  }

  function Quiesce(s: State, new_: int): State {
    s.(bypass := true, phase := Quiescing(new_))
  }

  /** One turn of the wait: when nobody is counted, the new scheduler is attached before the lock is
      given up. */
  function Turn(s: State): State {
    if s.phase.Quiescing? && s.elvpriv == 0 then
      s.(elevator := s.phase.new_, phase := Attached(s.elevator))
    else s
  }

  /** The switch is over; a failed one puts the old scheduler back first. */
  function Finish(s: State, ok: bool): State
    requires s.phase.Attached?
  {
    s.(bypass := false, phase := Idle, elevator := if ok then s.elevator else s.phase.old_)
  }

  datatype Event =
    | GetRequest(id: int, sync: bool)
    | SetRequest(id: int)
    | Return(id: int)
    | FailAllocation(id: int)
    | Add(id: int)
    | Dispatch(id: int)
    | Put(id: int)
    | QuiesceStart(new_: int)
    | QuiesceTurn
    | SwitchEnd(ok: bool)

  predicate Allowed(s: State, e: Event) {
    match e
    case GetRequest(id, _) => id !in s.reqs
    case SetRequest(id) => id in s.reqs && s.reqs[id].priv && !s.reqs[id].live && s.reqs[id].data.None?
    case Return(id) => id in s.reqs && !s.reqs[id].live && (s.reqs[id].priv ==> s.reqs[id].data.Some?)
    case FailAllocation(id) => id in s.reqs && !s.reqs[id].live && s.reqs[id].data.None?
    case Add(id) => id in s.reqs && s.reqs[id].live && !s.reqs[id].sorted
    case Dispatch(id) => id in s.reqs && s.reqs[id].sorted
    case Put(id) => id in s.reqs && s.reqs[id].live && !s.reqs[id].sorted
    case QuiesceStart(_) => s.phase.Idle?
    case QuiesceTurn => s.phase.Quiescing?
    case SwitchEnd(_) => s.phase.Attached?
  }

  function Step(s: State, e: Event): State
    requires Allowed(s, e)
  {
    match e
    case GetRequest(id, sync) => Begin(s, id, sync)
    case SetRequest(id) => SetData(s, id)
    case Return(id) => Ready(s, id)
    case FailAllocation(id) => Freed(s, id)
    case Add(id) => Queued(s, id)
    case Dispatch(id) => Dispatched(s, id)
    case Put(id) => Freed(s, id)
    case QuiesceStart(new_) => Quiesce(s, new_)
    case QuiesceTurn => Turn(s)
    case SwitchEnd(ok) => Finish(s, ok)
  }

  // ---------------------------------------------------------------- what every step keeps

  function Privates(reqs: map<int, Req>): set<int> {
    set id | id in reqs && reqs[id].priv
  }

  function OfKind(reqs: map<int, Req>, sync: bool): set<int> {
    set id | id in reqs && reqs[id].sync == sync
  }

  /** Whoever has scheduler data has that of the current scheduler and is counted; whoever is in the
      scheduler, or is allocated and counted, has it. */
  predicate RightData(s: State, id: int) {
    id in s.reqs ==>
      && (s.reqs[id].data.Some? ==> s.reqs[id].priv && s.reqs[id].data.value == s.elevator)
      && (s.reqs[id].live && s.reqs[id].priv ==> s.reqs[id].data.Some?)
      && (s.reqs[id].sorted ==> s.reqs[id].live && s.reqs[id].priv)
  }

  ghost predicate Good(s: State) {
    && s.elvpriv == |Privates(s.reqs)|
    && s.syncCount == |OfKind(s.reqs, true)| && s.asyncCount == |OfKind(s.reqs, false)|
    && (forall id :: RightData(s, id))
    && (s.bypass <==> !s.phase.Idle?)
    && (s.phase.Attached? ==> s.elvpriv == 0)
  }

  lemma {:induction false} NobodyPrivate(s: State, id: int)
    requires Good(s) && s.elvpriv == 0
    ensures id in s.reqs ==> !s.reqs[id].priv && s.reqs[id].data.None? && !s.reqs[id].sorted
  {
    assert Privates(s.reqs) == {};
    if id in s.reqs {
      assert id !in Privates(s.reqs);
      assert RightData(s, id);
    }
  }

  lemma {:induction false} MinusOne(reqs: map<int, Req>, id: int)
    requires id in reqs
    ensures |Privates(reqs - {id})| == |Privates(reqs)| - if reqs[id].priv then 1 else 0
    ensures |OfKind(reqs - {id}, reqs[id].sync)| == |OfKind(reqs, reqs[id].sync)| - 1
    ensures OfKind(reqs - {id}, !reqs[id].sync) == OfKind(reqs, !reqs[id].sync)
  {
    assert Privates(reqs - {id}) == Privates(reqs) - {id};
    assert OfKind(reqs - {id}, reqs[id].sync) == OfKind(reqs, reqs[id].sync) - {id};
  }

  lemma {:induction false} PlusOne(reqs: map<int, Req>, id: int, r: Req)
    requires id !in reqs
    ensures |Privates(reqs[id := r])| == |Privates(reqs)| + if r.priv then 1 else 0
    ensures |OfKind(reqs[id := r], r.sync)| == |OfKind(reqs, r.sync)| + 1
    ensures OfKind(reqs[id := r], !r.sync) == OfKind(reqs, !r.sync)
  {
    hide Privates, OfKind;
    var more := reqs[id := r];
    assert more - {id} == reqs;
    MinusOne(more, id);
  }

  lemma {:induction false} BeginGood(s: State, id: int, sync: bool)
    requires Good(s) && id !in s.reqs
    ensures Good(Begin(s, id, sync))
  {
    var t := Begin(s, id, sync);
    PlusOne(s.reqs, id, t.reqs[id]);
    hide Privates, OfKind;
    forall x ensures RightData(t, x) { assert RightData(s, x); }
  }

  lemma {:induction false} FreedGood(s: State, id: int)
    requires Good(s) && id in s.reqs
    ensures Good(Freed(s, id))
  {
    var t := Freed(s, id);
    var r := s.reqs[id];
    MinusOne(s.reqs, id);
    hide Privates, OfKind;
    forall x ensures RightData(t, x) { assert RightData(s, x); }
  }

  /** Steps that change neither who is counted nor the scheduler. */
  lemma {:induction false} ChangedGood(s: State, id: int, r: Req)
    requires Good(s) && id in s.reqs && r.sync == s.reqs[id].sync && r.priv == s.reqs[id].priv
    requires RightData(s.(reqs := s.reqs[id := r]), id)
    ensures Good(s.(reqs := s.reqs[id := r]))
  {
    var t := s.(reqs := s.reqs[id := r]);
    assert Privates(t.reqs) == Privates(s.reqs);
    assert OfKind(t.reqs, true) == OfKind(s.reqs, true) && OfKind(t.reqs, false) == OfKind(s.reqs, false);
    forall x ensures RightData(t, x) { assert RightData(s, x); }
  }

  /** Steps of the switch: the scheduler changes only while nobody is counted. */
  lemma {:induction false} SwitchedGood(s: State, bypass: bool, elevator: int, phase: Phase)
    requires Good(s) && (elevator != s.elevator || phase.Attached? ==> s.elvpriv == 0)
    requires bypass <==> !phase.Idle?
    ensures Good(s.(bypass := bypass, elevator := elevator, phase := phase))
  {
    var t := s.(bypass := bypass, elevator := elevator, phase := phase);
    assert Privates(t.reqs) == Privates(s.reqs);
    assert OfKind(t.reqs, true) == OfKind(s.reqs, true) && OfKind(t.reqs, false) == OfKind(s.reqs, false);
    forall x ensures RightData(t, x) {
      assert RightData(s, x);
      if elevator != s.elevator { NobodyPrivate(s, x); }
    }
  }

  lemma {:induction false} StepGood(s: State, e: Event)
    requires Good(s) && Allowed(s, e)
    ensures Good(Step(s, e))
  {
    hide Good;
    match e
    case GetRequest(id, sync) => BeginGood(s, id, sync);
    case FailAllocation(id) => FreedGood(s, id);
    case Put(id) => FreedGood(s, id);
    case SetRequest(id) => DataOf(s, id); ChangedGood(s, id, s.reqs[id].(data := Some(s.elevator)));
    case Return(id) => DataOf(s, id); ChangedGood(s, id, s.reqs[id].(live := true));
    case Add(id) => DataOf(s, id); ChangedGood(s, id, s.reqs[id].(sorted := s.reqs[id].priv));
    case Dispatch(id) => DataOf(s, id); ChangedGood(s, id, s.reqs[id].(sorted := false));
    case QuiesceStart(new_) => SwitchedGood(s, true, s.elevator, Quiescing(new_));
    case QuiesceTurn => PhaseOf(s); if s.elvpriv == 0 { SwitchedGood(s, s.bypass, s.phase.new_, Attached(s.elevator)); }
    case SwitchEnd(ok) => PhaseOf(s); SwitchedGood(s, false, if ok then s.elevator else s.phase.old_, Idle);
  }

  lemma {:induction false} DataOf(s: State, id: int)
    requires Good(s)
    ensures RightData(s, id)
  {
  }

  lemma {:induction false} PhaseOf(s: State)
    requires Good(s)
    ensures (s.bypass <==> !s.phase.Idle?) && (s.phase.Attached? ==> s.elvpriv == 0)
  {
  }

  // ---------------------------------------------------------------- runs

  predicate Run(s: State, es: List<Event>, t: State)
    decreases es
  {
    match es
    case Nil => s == t
    case Cons(e, r) => Allowed(s, e) && Run(Step(s, e), r, t)
  }

  function Start(elevator: int): State {
    State(map[], 0, 0, 0, false, elevator, Idle)
  }

  lemma {:induction false} StartGood(elevator: int)
    ensures Good(Start(elevator))
  {
  }

  lemma {:induction false} RunGood(s: State, es: List<Event>, t: State)
    requires Good(s) && Run(s, es, t)
    ensures Good(t)
    decreases es
  {
    hide Good, Allowed, Step;
    if es.Cons? {
      StepGood(s, es.head);
      RunGood(Step(s, es.head), es.tail, t);
    }
  }

  /** However allocations, failures, frees and switches interleave: elvpriv is the number of requests that
      have or will have scheduler data, and whoever has such data has that of the current scheduler. */
  lemma {:induction false} PrivateDataIsCurrent(elevator: int, es: List<Event>, t: State, id: int)
    requires Run(Start(elevator), es, t)
    ensures t.elvpriv == |Privates(t.reqs)|
    ensures t.syncCount == |OfKind(t.reqs, true)| && t.asyncCount == |OfKind(t.reqs, false)|
    ensures id in t.reqs && t.reqs[id].data.Some? ==> t.reqs[id].data.value == t.elevator
    ensures id in t.reqs && t.reqs[id].live && t.reqs[id].priv ==> t.reqs[id].data.Some?
  {
    StartGood(elevator);
    RunGood(Start(elevator), es, t);
    assert RightData(t, id);
  }

  /** When the new scheduler is attached, no request, not even one half allocated, has or will get data
      of the old one, and the old one holds no request. */
  lemma {:induction false} NobodyAtAttach(elevator: int, es: List<Event>, t: State, id: int)
    requires Run(Start(elevator), es, t) && t.phase.Quiescing? && Step(t, QuiesceTurn).phase.Attached?
    ensures id in t.reqs ==> !t.reqs[id].priv && t.reqs[id].data.None? && !t.reqs[id].sorted
  {
    StartGood(elevator);
    RunGood(Start(elevator), es, t);
    NobodyPrivate(t, id);
  }

  /** So it stays until the switch is over, whether it succeeds or the old one comes back. */
  lemma {:induction false} NobodyWhileAttached(elevator: int, es: List<Event>, t: State, id: int)
    requires Run(Start(elevator), es, t) && t.phase.Attached?
    ensures id in t.reqs ==> !t.reqs[id].priv && t.reqs[id].data.None? && !t.reqs[id].sorted
  {
    StartGood(elevator);
    RunGood(Start(elevator), es, t);
    NobodyPrivate(t, id);
  }

  /** While the switch waits, nobody joins those it waits for. */
  lemma {:induction false} WaitingShrinks(s: State, e: Event)
    requires Good(s) && s.phase.Quiescing? && Allowed(s, e)
    ensures Privates(Step(s, e).reqs) <= Privates(s.reqs) && Step(s, e).elvpriv <= s.elvpriv
    ensures e.Put? && s.reqs[e.id].priv ==> Step(s, e).elvpriv == s.elvpriv - 1
  {
  }
}
