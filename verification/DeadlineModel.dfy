/**
 The deadline I/O scheduler (deadline-iosched.c): per direction a tree of requests by sector and a
 queue of the same requests by age.
 */
module DeadlineModel {
  import opened Lists

  /** A request; its direction never changes. */
  datatype Rq = Rq(id: nat, write: bool)

  datatype Info = Info(sector: nat, end: nat, expire: nat)

  /** One direction: sort_list by first sector, fifo_list, next_rq. */
  datatype Side = Side(tree: map<nat, Rq>, fifo: List<Rq>, next: Option<Rq>)

  datatype Tunables = Tunables(readExpire: nat, writeExpire: nat, fifoBatch: nat, writesStarved: nat)

  datatype State = State(
    read: Side,
    write: Side,
    info: map<Rq, Info>,
    batching: nat,
    starved: nat,
    lastSector: nat,
    nrSorted: int,          // the elevator's count of requests in the scheduler
    out: List<Rq>)          // the dispatch queue, latest first

  function SideOf(s: State, write: bool): Side {
    if write then s.write else s.read
  }

  function SetSide(s: State, write: bool, d: Side): State {
    if write then s.(write := d) else s.(read := d)
  }

  function InfoOf(s: State, x: Rq): Info {
    if x in s.info then s.info[x] else Info(0, 0, 0)
  }

  /** k is the smallest key above n. */
  ghost predicate NextKey(tree: map<nat, Rq>, n: nat, k: nat) {
    k in tree && k > n && forall j :: j in tree && j > n ==> k <= j
  }

  /** deadline_latter_request */
  ghost function Latter(tree: map<nat, Rq>, n: nat): Option<Rq> {
    if k :| NextKey(tree, n, k) then Some(tree[k]) else None
  }

  /** deadline_remove_request */
  ghost function RemoveRequest(s: State, x: Rq): State {
    var d, n := SideOf(s, x.write), InfoOf(s, x).sector;
    var next := if d.next == Some(x) then Latter(d.tree, n) else d.next;
    SetSide(s, x.write, Side(d.tree - {n}, Remove(d.fifo, x), next))
  }

  /** deadline_move_request, with elv_dispatch_add_tail */
  ghost function MoveRequest(s: State, x: Rq): State {
    var s1 := s.(read := s.read.(next := None), write := s.write.(next := None));
    var d := SideOf(s1, x.write);
    var s2 := SetSide(s1, x.write, d.(next := Latter(d.tree, InfoOf(s, x).sector)));
    var s3 := RemoveRequest(s2.(lastSector := InfoOf(s, x).end), x);
    s3.(out := Cons(x, s.out), nrSorted := s.nrSorted - 1)
  }

  function InsertRb(s: State, x: Rq): State {
    var d := SideOf(s, x.write);
    SetSide(s, x.write, d.(tree := d.tree[InfoOf(s, x).sector := x]))
  }

  /** deadline_add_rq_rb: a request that starts at the same sector goes to the dispatch queue. */
  ghost function AddRb(s: State, x: Rq): State {
    var d, n := SideOf(s, x.write), InfoOf(s, x).sector;
    InsertRb(if n in d.tree then MoveRequest(s, d.tree[n]) else s, x)
  }

  function Expiry(t: Tunables, write: bool): nat {
    if write then t.writeExpire else t.readExpire
  }

  /** deadline_add_request */
  ghost function AddRequest(s: State, t: Tunables, x: Rq, sector: nat, end: nat, now: nat): State {
    var s1 := AddRb(s.(info := s.info[x := Info(sector, end, now + Expiry(t, x.write))], nrSorted := s.nrSorted + 1), x);
    var d := SideOf(s1, x.write);
    SetSide(s1, x.write, d.(fifo := Append(d.fifo, Cons(x, Nil))))
  }

  /** deadline_merged_request: a front merge moves the first sector, a back merge only the end. */
  ghost function MergedRequest(s: State, x: Rq, sector: nat, end: nat): State {
    var i, d := InfoOf(s, x), SideOf(s, x.write);
    var s1 := s.(info := s.info[x := i.(sector := sector, end := end)]);
    if sector == i.sector then s1
    else AddRb(SetSide(s1, x.write, d.(tree := d.tree - {i.sector})), x)
  }

  /** deadline_merged_requests: y has been merged into x, which takes over its place if y expires first. */
  ghost function MergedRequests(s: State, x: Rq, y: Rq): State {
    var i, j, d := InfoOf(s, x), InfoOf(s, y), SideOf(s, x.write);
    var s1 := s.(info := s.info[x := i.(end := j.end)]);
    var s2 :=
      if j.expire < i.expire then
        SetSide(s1.(info := s.info[x := i.(end := j.end, expire := j.expire)]), x.write,
                d.(fifo := InsertAfter(Remove(d.fifo, x), y, x)))
      else s1;
    RemoveRequest(s2, y).(nrSorted := s.nrSorted - 1)
  }

  // ---------------------------------------------------------------- deadline_dispatch_requests

  /** What a dispatch decides: nothing, or a request with the batch and starvation counts before it is counted. */
  datatype Choice = Idle | Pick(rq: Rq, batching: nat, starved: nat)

  /** The request a new batch of one direction starts with. */
  function FindRequest(s: State, write: bool, now: nat): Option<Rq> {
    var d := SideOf(s, write);
    if d.fifo.Nil? then None
    else if now > InfoOf(s, d.fifo.head).expire || d.next.None? then Some(d.fifo.head)
    else d.next
  }

  function Start(s: State, write: bool, now: nat, starved: nat): Choice {
    match FindRequest(s, write, now)
    case None => Idle
    case Some(x) => Pick(x, 0, starved)
  }

  function Choose(s: State, t: Tunables, now: nat): Choice {
    var next := if s.write.next.Some? then s.write.next else s.read.next;
    var anyRead, anyWrite := s.read.fifo.Cons?, s.write.fifo.Cons?;
    if next.Some? && s.batching < t.fifoBatch then Pick(next.value, s.batching, s.starved)
    else if anyRead then
      if !anyWrite then Start(s, false, now, s.starved)
      else if s.starved >= t.writesStarved then Start(s, true, now, 0)
      else Start(s, false, now, s.starved + 1)
    else if anyWrite then Start(s, true, now, 0)
    else Idle
  }

  ghost function Dispatch(s: State, t: Tunables, now: nat): State {
    match Choose(s, t, now)
    case Idle => s
    case Pick(x, batching, starved) => MoveRequest(s.(batching := batching + 1, starved := starved), x)
  }

  // ---------------------------------------------------------------- runs

  datatype Event =
    | Added(rq: Rq, sector: nat, end: nat, now: nat)
    | Merged(rq: Rq, sector: nat, end: nat)
    | Joined(rq: Rq, next: Rq)
    | Dispatched(now: nat)

  ghost function Apply(s: State, t: Tunables, e: Event): State {
    match e
    case Added(x, sector, end, now) => AddRequest(s, t, x, sector, end, now)
    case Merged(x, sector, end) => MergedRequest(s, x, sector, end)
    case Joined(x, y) => MergedRequests(s, x, y)
    case Dispatched(now) => Dispatch(s, t, now)
  }

  function Init(): State {
    State(Side(map[], Nil, None), Side(map[], Nil, None), map[], 0, 0, 0, 0, Nil)
  }
}
