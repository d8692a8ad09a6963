/**
 The request list of a queue and the scheduler switch as blk-core.c and elevator.c run them, one method per
 stretch of code under the queue lock.
 */
module SwitchCode {
  import opened Lists
  import opened SwitchModel

  datatype MayQueue = May | Must | No

  /** One direction of a request list: how many are out, and what is signalled about it. */
  datatype Side = Side(count: int, starved: bool, full: bool, congested: bool)

  class RequestQueue {
    var reqs: map<int, Req>
    const sides: array<Side>             // indexed by BLK_RW_ASYNC and BLK_RW_SYNC
    var elvpriv: int
    var bypass: bool
    var elevator: int
    ghost var phase: Phase
    const nrRequests: nat
    const congestionOn: nat
    const congestionOff: nat

    ghost function Abs(): State
      requires sides.Length == 2
      reads this, sides
    {
      State(reqs, sides[1].count, sides[0].count, elvpriv, bypass, elevator, phase)
    }

    /** The books are right, no direction is over its limit, and only one that is used up is full. */
    ghost predicate Valid()
      reads this, sides
    {
      && sides.Length == 2
      && Good(Abs())
      && (forall k :: 0 <= k < 2 ==> Within(sides[k]))
    }

    predicate Within(d: Side) {
      0 <= d.count && (d.count <= 3 * nrRequests / 2) && (d.full ==> d.count >= nrRequests)
    }

    constructor (elevator: int, nrRequests: nat, congestionOn: nat, congestionOff: nat)
      ensures Valid() && Abs() == Start(elevator) && fresh(sides)
    {
      reqs, elvpriv, bypass, this.elevator, phase := map[], 0, false, elevator, Idle;
      this.nrRequests, this.congestionOn, this.congestionOff := nrRequests, congestionOn, congestionOff;
      sides := new Side[2](_ => Side(0, false, false, false));
      new;
      StartGood(elevator);
    }

    function Index(sync: bool): nat {
      if sync then 1 else 0
    }

    /** Who gets a request: a direction may be overdrawn by half by those the scheduler insists on and by
        batching processes, and by nobody beyond that. */
    predicate Grants(d: Side, may: MayQueue, batching: bool) {
      && may != No && d.count < 3 * nrRequests / 2
      && !(d.count + 1 >= congestionOn && d.count + 1 >= nrRequests && d.full && may != Must && !batching)
    }

    /** The tests of get_request, which mark a direction that fills up. */
    method Admit(k: nat, may: MayQueue, batching: bool) returns (ok: bool)
      requires sides.Length == 2 && k < 2
      modifies sides
      ensures ok == Grants(old(sides[k]), may, batching)
      ensures sides[1 - k] == old(sides[1 - k])
      ensures var d := old(sides[k]);
        && sides[k].count == d.count
        && (sides[k].full ==> d.full || (d.count + 1 >= nrRequests && (ok || d.count >= 3 * nrRequests / 2)))
        && sides[k].full == (d.full || (may != No && d.count + 1 >= congestionOn && d.count + 1 >= nrRequests))
        && sides[k].congested == (d.congested || (may != No && d.count + 1 >= congestionOn
                                                  && (d.count + 1 < nrRequests || !d.full || may == Must || batching)))
        && sides[k].starved == (d.starved || (may == No && d.count == 0))
    {
      if may == No {
        MarkStarved(k);
        return false;
      }
      if sides[k].count + 1 >= congestionOn {
        if sides[k].count + 1 >= nrRequests {
          if !sides[k].full {
            sides[k] := sides[k].(full := true);
          } else if may != Must && !batching {
            return false;
          }
        }
        sides[k] := sides[k].(congested := true);
      }
      return sides[k].count < 3 * nrRequests / 2;
    }

    /** get_request up to the point where it gives up the lock. */
    method GetRequest(id: int, sync: bool, may: MayQueue, batching: bool) returns (granted: bool)
      requires Valid() && id !in reqs
      modifies this`reqs, this`elvpriv, sides
      ensures Valid()
      ensures granted == Grants(old(sides[Index(sync)]), may, batching)
      ensures Abs() == if granted then Begin(old(Abs()), id, sync) else old(Abs())
      ensures granted ==> !sides[Index(sync)].starved
      ensures may == No && old(sides[Index(sync)]).count == 0 ==> sides[Index(sync)].starved
      ensures sides[1 - Index(sync)] == old(sides[1 - Index(sync)])
    {
      hide Good;
      BeginGood(Abs(), id, sync);
      var k := Index(sync);
      assert Within(sides[k]) && Within(sides[1 - k]);
      granted := Admit(k, may, batching);
      if granted {
        sides[k] := sides[k].(count := sides[k].count + 1, starved := false);
        var priv := !bypass;
        if priv {
          elvpriv := elvpriv + 1;
        }
        reqs := reqs[id := Req(sync, priv, false, None, false)];
      }
      assert Within(sides[k]) && Within(sides[1 - k]);
    }

    /** Without the lock: the scheduler puts its data into the request, and get_request returns it. */
    method SetRequest(id: int)
      requires Valid() && Allowed(Abs(), Event.SetRequest(id))
      modifies this`reqs
      ensures Valid() && Abs() == SetData(old(Abs()), id)
    {
      StepGood(Abs(), Event.SetRequest(id));
      hide Good;
      reqs := reqs[id := reqs[id].(data := Some(elevator))];
    }

    method ReturnRequest(id: int)
      requires Valid() && Allowed(Abs(), Return(id))
      modifies this`reqs
      ensures Valid() && Abs() == Ready(old(Abs()), id)
    {
      StepGood(Abs(), Return(id));
      hide Good;
      reqs := reqs[id := reqs[id].(live := true)];
    }

    /** The allocation failed: the lock is taken again and the request is uncounted. */
    method UndoRequest(id: int)
      requires Valid() && Allowed(Abs(), FailAllocation(id))
      modifies this`reqs, this`elvpriv, sides
      ensures Valid() && Abs() == Freed(old(Abs()), id)
      ensures var k := Index(old(reqs)[id].sync); sides[k].count == 0 ==> sides[k].starved
    {
      FreedGood(Abs(), id);
      NotNegative(Abs(), id);
      hide Good;
      var k := Index(reqs[id].sync);
      FreedRequest(k, reqs[id].priv);
      reqs := reqs - {id};
      MarkStarved(k);
    }

    /** __blk_put_request, when the last reference goes. */
    method PutRequest(id: int)
      requires Valid() && Allowed(Abs(), Put(id))
      modifies this`reqs, this`elvpriv, sides
      ensures Valid() && Abs() == Freed(old(Abs()), id)
    {
      FreedGood(Abs(), id);
      NotNegative(Abs(), id);
      hide Good;
      FreedRequest(Index(reqs[id].sync), reqs[id].priv);
      reqs := reqs - {id};
    }

    method FreedRequest(k: nat, priv: bool)
      requires sides.Length == 2 && k < 2 && sides[k].count > 0
      requires Within(sides[0]) && Within(sides[1])
      modifies this`elvpriv, sides
      ensures elvpriv == old(elvpriv) - if priv then 1 else 0
      ensures sides[k].count == old(sides[k]).count - 1 && sides[1 - k].count == old(sides[1 - k]).count
      ensures Within(sides[0]) && Within(sides[1])
    {
      sides[k] := sides[k].(count := sides[k].count - 1);
      if priv {
        elvpriv := elvpriv - 1;
      }
      Signal(k);
      if sides[1 - k].starved {
        Signal(1 - k);
      }
    }

    /** __freed_request: a direction that has room again is not full any more. */
    method Signal(k: nat)
      requires sides.Length == 2 && k < 2
      modifies sides
      ensures sides[1 - k] == old(sides[1 - k])
      ensures var d := old(sides[k]);
        sides[k] == d.(congested := d.congested && d.count >= congestionOff, full := d.full && d.count >= nrRequests)
    {
      if sides[k].count < congestionOff {
        sides[k] := sides[k].(congested := false);
      }
      if sides[k].count + 1 <= nrRequests {
        sides[k] := sides[k].(full := false);
      }
    }

    /** __elv_add_request for a request without barrier flags: only one with scheduler data is sorted. */
    method AddRequest(id: int) returns (sorted: bool)
      requires Valid() && Allowed(Abs(), Add(id))
      modifies this`reqs
      ensures Valid() && Abs() == Queued(old(Abs()), id) && sorted == old(reqs)[id].data.Some?
    {
      StepGood(Abs(), Add(id));
      DataOf(Abs(), id);
      hide Good;
      sorted := reqs[id].priv;
      reqs := reqs[id := reqs[id].(sorted := sorted)];
    }

    method DispatchRequest(id: int)
      requires Valid() && Allowed(Abs(), Dispatch(id))
      modifies this`reqs
      ensures Valid() && Abs() == Dispatched(old(Abs()), id)
    {
      StepGood(Abs(), Dispatch(id));
      hide Good;
      reqs := reqs[id := reqs[id].(sorted := false)];
    }

    // -------------------------------------------------------------- elevator_switch

    method QuiesceStart(new_: int)
      requires Valid() && phase.Idle?
      modifies this`bypass, this`phase
      ensures Valid() && Abs() == Quiesce(old(Abs()), new_)
    {
      StepGood(Abs(), Event.QuiesceStart(new_));
      hide Good;
      bypass := true;
      phase := Quiescing(new_);
    }

    /** The test of the waiting loop, and what follows it under the same lock. */
    method QuiesceTurn(new_: int) returns (attached: bool)
      requires Valid() && phase == Quiescing(new_)
      modifies this`elevator, this`phase
      ensures Valid() && Abs() == Turn(old(Abs()))
      ensures attached ==> phase.Attached? && forall id :: id in reqs ==> reqs[id].data.None? && !reqs[id].sorted
      ensures !attached ==> Privates(reqs) != {}
    {
      StepGood(Abs(), Event.QuiesceTurn);
      if elvpriv != 0 {
        return false;
      }
      forall id | id in reqs ensures reqs[id].data.None? && !reqs[id].sorted {
        NobodyPrivate(Abs(), id);
      }
      hide Good;
      phase := Attached(elevator);
      elevator := new_;
      return true;
    }

    method SwitchEnd(ok: bool, old_: int)
      requires Valid() && phase == Attached(old_)
      modifies this`bypass, this`elevator, this`phase
      ensures Valid() && Abs() == Finish(old(Abs()), ok)
    {
      StepGood(Abs(), Event.SwitchEnd(ok));
      hide Good;
      if !ok {
        elevator := old_;
      }
      bypass := false;
      phase := Idle;
    }

    method MarkStarved(k: nat)
      requires sides.Length == 2 && k < 2
      modifies sides
      ensures sides[1 - k] == old(sides[1 - k])
      ensures sides[k] == old(sides[k]).(starved := old(sides[k]).starved || old(sides[k]).count == 0)
    {
      if sides[k].count == 0 {
        sides[k] := sides[k].(starved := true);
      }
    }
  }

  lemma {:induction false} NotNegative(s: State, id: int)
    requires Good(s) && id in s.reqs
    ensures Count(s, s.reqs[id].sync) > 0
  {
    assert id in OfKind(s.reqs, s.reqs[id].sync);
  }
}
