/**
 Partial completion: blk_update_request(n) is "drop the first n bytes".
 */
module Completion {
  import opened Lists
  import opened Segments
  import opened RequestModel

  // ---------------------------------------------------------------- what the data of a request is

  /** A byte of memory: page and offset. */
  datatype Place = Place(page: int, offset: nat)

  function Places(page: int, offset: nat, len: nat): List<Place>
    decreases len
  {
    if len == 0 then Nil else Cons(Place(page, offset), Places(page, offset + 1, len - 1))
  }

  function Data(vs: List<Vec>): List<Place> {
    match vs
    case Nil => Nil
    case Cons(v, r) => Append(Places(v.page, v.offset, v.len), Data(r))
  }

  // ---------------------------------------------------------------- dropping bytes

  function DropVec(v: Vec, n: nat): Vec {
    Vec(v.page, v.offset + n, if n <= v.len then v.len - n else 0)
  }

  /** Vectors wholly covered by n bytes ... */
  function Whole(vs: List<Vec>, n: nat): nat {
    if vs.Nil? || n < vs.head.len then 0 else 1 + Whole(vs.tail, n - vs.head.len)
  }

  /** ... and the bytes beyond them. */
  function Beyond(vs: List<Vec>, n: nat): nat {
    if vs.Nil? || n < vs.head.len then n else Beyond(vs.tail, n - vs.head.len)
  }

  function DropVecs(vs: List<Vec>, n: nat): List<Vec> {
    if vs.Nil? then Nil
    else if n >= vs.head.len then DropVecs(vs.tail, n - vs.head.len)
    else Cons(DropVec(vs.head, n), vs.tail)
  }

  /** The end of blk_update_request for a bio that keeps some bytes. */
  function Advance(b: Bio, n: nat): Bio {
    var i := b.idx + Whole(Live(b), n);
    if i < |b.vecs| && n < b.size then
      b.(idx := i, vecs := b.vecs[i := DropVec(b.vecs[i], Beyond(Live(b), n))],
         size := b.size - n, sector := b.sector + n / SECTOR)
    else b
  }

  /** The chain that is left ... */
  function Rest(bios: Chain, n: nat): Chain {
    if bios.Nil? then Nil
    else if n >= bios.head.size then Rest(bios.tail, n - bios.head.size)
    else Cons(Advance(bios.head, n), bios.tail)
  }

  /** ... and the bios that end, in order. */
  function Ended(bios: Chain, n: nat): List<nat> {
    if bios.Nil? || n < bios.head.size then Nil else Cons(bios.head.id, Ended(bios.tail, n - bios.head.size))
  }

  datatype Updated = Updated(more: bool, rq: Rq, ended: List<nat>)

  /** blk_update_request on a file-system request */
  function Update(q: Limits, r: Rq, n: nat): Updated {
    var rest, ended := Rest(r.bios, n), Ended(r.bios, n);
    if r.bios.Nil? then Updated(false, r, Nil)
    else if rest.Nil? then Updated(false, r.(bios := Nil, dataLen := 0), ended)
    else Updated(true, r.(bios := RecalcBios(q, rest), nrPhysSegments := RecalcCount(q, rest),
                          dataLen := if n <= r.dataLen then r.dataLen - n else 0,
                          sector := r.sector + n / SECTOR), ended)
  }

  // ---------------------------------------------------------------- inside one bio

  lemma {:induction false} FromSame(vecs: seq<Vec>, i: nat, x: Vec, j: nat)
    requires i < j && i < |vecs|
    ensures From(vecs[i := x], j) == From(vecs, j)
    decreases |vecs| - j
  {
    if j < |vecs| { FromSame(vecs, i, x, j + 1); }
  }

  lemma {:induction false} FromDrop(vecs: seq<Vec>, i: nat, n: nat)
    requires n < Size(From(vecs, i))
    ensures var k := i + Whole(From(vecs, i), n); var rem := Beyond(From(vecs, i), n);
            && k < |vecs| && rem < vecs[k].len
            && From(vecs[k := DropVec(vecs[k], rem)], k) == DropVecs(From(vecs, i), n)
    decreases |vecs| - i
  {
    if n >= vecs[i].len {
      FromDrop(vecs, i + 1, n - vecs[i].len);
    } else {
      FromSame(vecs, i, DropVec(vecs[i], n), i + 1);
    }
  }

  lemma {:induction false} DropVecsSize(vs: List<Vec>, n: nat)
    requires Positive(vs)
    ensures Positive(DropVecs(vs, n))
    ensures Size(DropVecs(vs, n)) == if n < Size(vs) then Size(vs) - n else 0
    ensures DropVecs(vs, n).Nil? <==> n >= Size(vs)
  {
    if vs.Cons? && n >= vs.head.len { DropVecsSize(vs.tail, n - vs.head.len); }
  }

  /** A bio advanced by n bytes is well formed and holds exactly the vectors that are left; the index
      it stops at is inside the bio, so the "bio idx >= vcnt" branch is dead. */
  lemma {:induction false} AdvanceDrops(b: Bio, n: nat)
    requires WfBio(b) && n < b.size
    ensures b.idx + Whole(Live(b), n) < |b.vecs|
    ensures var a := Advance(b, n);
            WfBio(a) && Live(a) == DropVecs(Live(b), n) && a.size == b.size - n && a.id == b.id
  {
    FromDrop(b.vecs, b.idx, n);
    DropVecsSize(Live(b), n);
  }

  // ---------------------------------------------------------------- the chain

  lemma {:induction false} RestIsWf(bios: Chain, n: nat)
    requires WfBios(bios)
    ensures WfBios(Rest(bios, n))
    ensures Rest(bios, n).Nil? <==> n >= Bytes(bios)
    ensures Bytes(Rest(bios, n)) == if n < Bytes(bios) then Bytes(bios) - n else 0
  {
    if bios.Cons? {
      if n >= bios.head.size {
        RestIsWf(bios.tail, n - bios.head.size);
      } else {
        AdvanceDrops(bios.head, n);
      }
    }
  }

  lemma {:induction false} DropVecsAppend(a: List<Vec>, b: List<Vec>, n: nat)
    requires Positive(a)
    ensures DropVecs(Append(a, b), n) == if n >= Size(a) then DropVecs(b, n - Size(a)) else Append(DropVecs(a, n), b)
  {
    if a.Cons? && n >= a.head.len { DropVecsAppend(a.tail, b, n - a.head.len); }
  }

  /** The chain that is left holds exactly the vectors that are left. */
  lemma {:induction false} RestVecs(bios: Chain, n: nat)
    requires WfBios(bios)
    ensures AllVecs(Rest(bios, n)) == DropVecs(AllVecs(bios), n)
  {
    if bios.Cons? {
      DropVecsAppend(Live(bios.head), AllVecs(bios.tail), n);
      if n >= bios.head.size {
        RestVecs(bios.tail, n - bios.head.size);
      } else {
        AdvanceDrops(bios.head, n);
      }
    }
  }

  // ---------------------------------------------------------------- the bytes

  lemma {:induction false} PlacesLength(page: int, offset: nat, len: nat)
    ensures Length(Places(page, offset, len)) == len
    decreases len
  {
    if len > 0 { PlacesLength(page, offset + 1, len - 1); }
  }

  lemma {:induction false} PlacesDrop(page: int, offset: nat, len: nat, n: nat)
    requires n <= len
    ensures Drop(Places(page, offset, len), n) == Places(page, offset + n, len - n)
    decreases n
  {
    if n > 0 { PlacesDrop(page, offset + 1, len - 1, n - 1); }
  }

  /** Dropping n bytes from the vectors drops the first n bytes of the data. */
  lemma {:induction false} DropVecsData(vs: List<Vec>, n: nat)
    ensures Data(DropVecs(vs, n)) == Drop(Data(vs), n)
  {
    if vs.Cons? {
      var v := vs.head;
      PlacesLength(v.page, v.offset, v.len);
      DropAppend(Places(v.page, v.offset, v.len), Data(vs.tail), n);
      if n >= v.len {
        DropVecsData(vs.tail, n - v.len);
      } else {
        PlacesDrop(v.page, v.offset, v.len, n);
      }
    }
  }

  // ---------------------------------------------------------------- the whole request

  /** The request u is r without its first n bytes. */
  ghost predicate Without(q: Limits, r: Rq, n: nat, u: Rq) {
    && WfRq(u)
    && AllVecs(u.bios) == DropVecs(AllVecs(r.bios), n)
    && u.dataLen == r.dataLen - n
    && u.sector == r.sector + n / SECTOR
    && u.nrPhysSegments == Number(Recalc(q, u.bios))
  }

  lemma {:induction false} UpdateIs(q: Limits, r: Rq, n: nat)
    requires WfRq(r)
    ensures var u := Update(q, r, n);
            && (n < r.dataLen ==> u.more && Without(q, r, n, u.rq) && Alike(Rest(r.bios, n), u.rq.bios))
            && (n >= r.dataLen ==> !u.more && u.rq.bios.Nil? && u.rq.dataLen == 0)
            && u.ended == Ended(r.bios, n)
  {
    RestIsWf(r.bios, n);
    RestVecs(r.bios, n);
    if n < r.dataLen {
      RecalcKeeps(q, Rest(r.bios, n));
      AlikeVecs(Rest(r.bios, n), RecalcBios(q, Rest(r.bios, n)));
    }
  }

  /** blk_update_request(n) drops the first n bytes: data, length and sector move together, and it
      answers "no more" exactly when n covers the request. */
  lemma {:induction false} UpdateDropsBytes(q: Limits, r: Rq, n: nat)
    requires WfRq(r)
    ensures var u := Update(q, r, n);
            && (u.more <==> n < r.dataLen)
            && (u.more ==> WfRq(u.rq) && u.rq.dataLen == r.dataLen - n && u.rq.sector == r.sector + n / SECTOR)
            && (u.more ==> Data(AllVecs(u.rq.bios)) == Drop(Data(AllVecs(r.bios)), n))
            && (!u.more ==> u.rq.bios.Nil? && u.rq.dataLen == 0)
  {
    UpdateIs(q, r, n);
    DropVecsData(AllVecs(r.bios), n);
  }

  function Take(bios: Chain, k: nat): Chain {
    if bios.Nil? || k == 0 then Nil else Cons(bios.head, Take(bios.tail, k - 1))
  }

  function Ids(bios: Chain): List<nat> {
    if bios.Nil? then Nil else Cons(bios.head.id, Ids(bios.tail))
  }

  /** The bios that end are exactly those whose last byte is among the first n. */
  lemma {:induction false} EndedIsCovered(bios: Chain, n: nat)
    ensures var k := Length(Ended(bios, n));
            && Ended(bios, n) == Ids(Take(bios, k))
            && Bytes(Take(bios, k)) <= n
            && (k < Length(bios) ==> n < Bytes(Take(bios, k + 1)))
  {
    if bios.Cons? && n >= bios.head.size { EndedIsCovered(bios.tail, n - bios.head.size); }
  }

  // ---------------------------------------------------------------- completing in two steps

  lemma {:induction false} DropVecsTwice(vs: List<Vec>, a: nat, b: nat)
    requires Positive(vs)
    ensures DropVecs(DropVecs(vs, a), b) == DropVecs(vs, a + b)
  {
    if vs.Cons? && a >= vs.head.len { DropVecsTwice(vs.tail, a - vs.head.len, b); }
  }

  lemma {:induction false} EndedAlike(a: Chain, b: Chain, n: nat)
    requires Alike(a, b)
    ensures Ended(a, n) == Ended(b, n)
  {
    if a.Cons? && n >= a.head.size { EndedAlike(a.tail, b.tail, n - a.head.size); }
  }

  lemma {:induction false} EndedInTwo(bios: Chain, a: nat, b: nat)
    requires WfBios(bios)
    ensures Append(Ended(bios, a), Ended(Rest(bios, a), b)) == Ended(bios, a + b)
  {
    if bios.Cons? {
      if a >= bios.head.size {
        EndedInTwo(bios.tail, a - bios.head.size, b);
      } else {
        AdvanceDrops(bios.head, a);
      }
    }
  }

  /** Two completions end the same bios, in the same order, as one. */
  lemma {:induction false} EndedTwice(q: Limits, r: Rq, a: nat, b: nat)
    requires WfRq(r) && a < r.dataLen
    ensures Append(Update(q, r, a).ended, Update(q, Update(q, r, a).rq, b).ended) == Update(q, r, a + b).ended
  {
    var u := Update(q, r, a).rq;
    UpdateIs(q, r, a);
    UpdateIs(q, u, b);
    UpdateIs(q, r, a + b);
    EndedAlike(Rest(r.bios, a), u.bios, b);
    EndedInTwo(r.bios, a, b);
  }

  lemma {:induction false} AllPositive(bios: Chain)
    requires WfBios(bios)
    ensures Positive(AllVecs(bios))
  {
    if bios.Cons? {
      AllPositive(bios.tail);
      PositiveAppend(Live(bios.head), AllVecs(bios.tail));
    }
  }

  lemma {:induction false} PositiveAppend(a: List<Vec>, b: List<Vec>)
    requires Positive(a) && Positive(b)
    ensures Positive(Append(a, b))
  {
    if a.Cons? { PositiveAppend(a.tail, b); }
  }

  /** Removing a and then b bytes is removing a + b bytes, except that the sector agrees exactly when
      the two lengths do not complete a sector between them. */
  lemma {:induction false} WithoutTwice(q: Limits, r: Rq, a: nat, b: nat, u: Rq, v: Rq, w: Rq)
    requires WfRq(r) && Without(q, r, a, u) && Without(q, u, b, v) && Without(q, r, a + b, w)
    ensures AllVecs(v.bios) == AllVecs(w.bios) && v.dataLen == w.dataLen && v.nrPhysSegments == w.nrPhysSegments
    ensures v.sector == w.sector <==> a % SECTOR + b % SECTOR < SECTOR
  {
    AllPositive(r.bios);
    DropVecsTwice(AllVecs(r.bios), a, b);
  }

  /** Completing a and then b bytes against completing a + b bytes. */
  lemma {:induction false} UpdateTwice(q: Limits, r: Rq, a: nat, b: nat)
    requires WfRq(r) && a < r.dataLen
    ensures var u := Update(q, r, a).rq; var v := Update(q, u, b); var w := Update(q, r, a + b);
            && v.more == w.more && v.rq.dataLen == w.rq.dataLen && AllVecs(v.rq.bios) == AllVecs(w.rq.bios)
            && (w.more ==> v.rq.nrPhysSegments == w.rq.nrPhysSegments)
            && (w.more ==> (v.rq.sector == w.rq.sector <==> a % SECTOR + b % SECTOR < SECTOR))
  {
    var u := Update(q, r, a).rq;
    UpdateIs(q, r, a);
    UpdateIs(q, u, b);
    UpdateIs(q, r, a + b);
    if a + b < r.dataLen {
      WithoutTwice(q, r, a, b, u, Update(q, u, b).rq, Update(q, r, a + b).rq);
    }
  }

  /** Half a sector and half a sector again, of a request of two sectors at sector 8: the bytes that are left
      are those after one whole sector, and the sector is 8 and not 9. */
  lemma {:induction false} TwoHalfSectors(q: Limits) returns (r: Rq)
    ensures WfRq(r) && r.dataLen == 1024 && r.sector == 8
    ensures Update(q, Update(q, r, 256).rq, 256).rq.sector == 8 && Update(q, r, 512).rq.sector == 9
    ensures AllVecs(Update(q, Update(q, r, 256).rq, 256).rq.bios) == AllVecs(Update(q, r, 512).rq.bios)
  {
    var v := Vec(0, 0, 1024);
    assert From([v], 0) == Cons(v, Nil);
    r := Rq(Cons(Bio(0, [v], 0, 1024, 8, 0, 0, 0, false), Nil), 1, 1024, 8, false, false);
    UpdateIs(q, r, 256);
    UpdateIs(q, Update(q, r, 256).rq, 256);
    UpdateIs(q, r, 512);
    UpdateTwice(q, r, 256, 256);
  }
}
