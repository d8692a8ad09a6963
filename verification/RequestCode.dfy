/**
 The loops of blk-merge.c and blk-core.c over a request's bios, and the request as the object they
 update in place; each method is proved to compute the function the theorems are about.
 */
module RequestCode {
  import opened Lists
  import opened Segments
  import opened RequestModel
  import opened MergeModel
  import opened Completion

  // ---------------------------------------------------------------- counting segments

  /** The variables of the loop of __blk_recalc_rq_segments. */
  datatype Tally = Tally(nr: nat, segSize: nat, prev: Vec, highPrev: bool, segFront: nat)

  /** One vector: the body of the loop. */
  function CountVec(q: Limits, t: Tally, v: Vec): Tally {
    var high := High(q, v);
    if !high && !t.highPrev && q.cluster && t.segSize + v.len <= q.maxSegmentSize && q.joins(t.prev, v) then
      t.(segSize := t.segSize + v.len, prev := v)
    else
      Tally(t.nr + 1, v.len, v, high, if t.nr == 1 && t.segSize > t.segFront then t.segSize else t.segFront)
  }

  function CountVecs(q: Limits, t: Tally, vs: List<Vec>): Tally
    decreases vs
  {
    if vs.Nil? then t else CountVecs(q, CountVec(q, t, vs.head), vs.tail)
  }

  /** The loop's variables against the segmentation it makes. */
  ghost predicate Tallies(t: Tally, o: Open) {
    if o.Fresh? then t.nr == 0 && t.highPrev else t.nr > 0 && t.segSize == o.size && t.prev == o.prev
  }

  lemma {:induction false} CountVecsIs(q: Limits, t: Tally, o: Open, vs: List<Vec>)
    requires Tallies(t, o)
    ensures var r := CountVecs(q, t, vs); var cuts := CountCuts(q, o, t.highPrev, vs);
            && Tallies(r, Ending(o, vs, cuts)) && r.nr == t.nr + Number(cuts)
            && (t.nr == 1 ==> r.segFront == if Number(cuts) == 0 then t.segFront
                                            else Max(t.segFront, t.segSize + Leading(vs, cuts)))
            && (t.nr == 1 && Number(cuts) == 0 ==> r.segSize == t.segSize + Leading(vs, cuts))
            && (t.nr > 1 ==> r.segFront == t.segFront)
    decreases vs
  {
    if vs.Cons? {
      var cut := High(q, vs.head) || t.highPrev || !Joins(q, o, vs.head);
      CountVecsIs(q, CountVec(q, t, vs.head), Grow(o, vs.head, cut), vs.tail);
    }
  }

  lemma {:induction false} CountedIs(q: Limits, t: Tally, vs: List<Vec>)
    requires vs.Cons? && t.nr == 0 && t.highPrev
    ensures var r := CountVecs(q, t, vs); var cuts := CountCuts(q, Fresh, true, vs);
            && r.nr == Number(cuts) > 0 && r.segSize == LastSize(vs, cuts)
            && Max(t.segFront, FirstSize(vs, cuts)) == if r.nr == 1 then Max(r.segFront, r.segSize) else r.segFront
  {
    CountVecsIs(q, t, Fresh, vs);
    CountVecsIs(q, CountVec(q, t, vs.head), Grow(Fresh, vs.head, true), vs.tail);
  }

  lemma {:induction false} FromNext(vecs: seq<Vec>, i: nat, rest: List<Vec>)
    ensures i < |vecs| ==> Append(From(vecs, i), rest) == Cons(vecs[i], Append(From(vecs, i + 1), rest))
    ensures i >= |vecs| ==> Append(From(vecs, i), rest) == rest
  {
  }

  /** The loops of __blk_recalc_rq_segments: over the bios, and over the vectors of each. */
  method CountChain(q: Limits, bios: Chain, init: Tally) returns (t: Tally)
    ensures t == CountVecs(q, init, AllVecs(bios))
  {
    t := init;
    var bio := bios;
    while bio.Cons?
      invariant CountVecs(q, t, AllVecs(bio)) == CountVecs(q, init, AllVecs(bios))
      decreases bio
    {
      var b := bio.head;
      var i := b.idx;
      while i < |b.vecs|
        invariant CountVecs(q, t, Append(From(b.vecs, i), AllVecs(bio.tail))) == CountVecs(q, init, AllVecs(bios))
      {
        FromNext(b.vecs, i, AllVecs(bio.tail));
        var v := b.vecs[i];
        var high := v.page > q.bouncePfn;
        if !high && !t.highPrev && q.cluster && t.segSize + v.len <= q.maxSegmentSize && q.joins(t.prev, v) {
          t := t.(segSize := t.segSize + v.len, prev := v);
        } else {
          if t.nr == 1 && t.segSize > t.segFront { t := t.(segFront := t.segSize); }
          t := t.(nr := t.nr + 1, prev := v, segSize := v.len, highPrev := high);
        }
        i := i + 1;
      }
      FromNext(b.vecs, i, AllVecs(bio.tail));
      bio := bio.tail;
    }
  }

  // ---------------------------------------------------------------- building the scatterlist

  /** A scatterlist entry. */
  datatype Sg = Sg(page: int, offset: nat, length: nat)

  /** One vector: the body of the loop of blk_rq_map_sg; `sgl` is the list built so far. */
  function MapVec(q: Limits, sgl: seq<Sg>, prev: Vec, v: Vec): seq<Sg> {
    var n := |sgl| - 1;
    if sgl != [] && q.cluster && sgl[n].length + v.len <= q.maxSegmentSize && q.joins(prev, v) then
      sgl[n := sgl[n].(length := sgl[n].length + v.len)]
    else sgl + [Sg(v.page, v.offset, v.len)]
  }

  function MapVecs(q: Limits, sgl: seq<Sg>, prev: Vec, vs: List<Vec>): seq<Sg>
    decreases vs
  {
    if vs.Nil? then sgl else MapVecs(q, MapVec(q, sgl, prev, vs.head), vs.head, vs.tail)
  }

  function Total(sgl: seq<Sg>): nat {
    if sgl == [] then 0 else Total(sgl[..|sgl| - 1]) + sgl[|sgl| - 1].length
  }

  lemma {:induction false} MapVecTotal(q: Limits, sgl: seq<Sg>, prev: Vec, v: Vec)
    ensures Total(MapVec(q, sgl, prev, v)) == Total(sgl) + v.len
  {
  }

  /** The scatterlist has as many entries as the greedy segmentation has segments, and covers every byte. */
  lemma {:induction false} MapVecsIs(q: Limits, sgl: seq<Sg>, prev: Vec, o: Open, vs: List<Vec>)
    requires o.Fresh? <==> sgl == []
    requires o.Open? ==> o.size == sgl[|sgl| - 1].length && o.prev == prev
    ensures |MapVecs(q, sgl, prev, vs)| == |sgl| + Number(MapCuts(q, o, vs))
    ensures Total(MapVecs(q, sgl, prev, vs)) == Total(sgl) + Size(vs)
    decreases vs
  {
    if vs.Cons? {
      MapVecTotal(q, sgl, prev, vs.head);
      MapVecsIs(q, MapVec(q, sgl, prev, vs.head), vs.head, Grow(o, vs.head, !Joins(q, o, vs.head)), vs.tail);
    }
  }

  // ---------------------------------------------------------------- the memory it covers

  const PAGE_SIZE := 4096

  /** bvec_to_phys */
  function Phys(page: int, offset: nat): int {
    page * PAGE_SIZE + offset
  }

  /** The addresses of n bytes from a on. */
  function Span(a: int, n: nat): seq<int> {
    seq(n, i => a + i)
  }

  function VecMemory(vs: List<Vec>): seq<int> {
    match vs
    case Nil => []
    case Cons(v, r) => Span(Phys(v.page, v.offset), v.len) + VecMemory(r)
  }

  /** The entries laid end to end. */
  function SgMemory(sgl: seq<Sg>): seq<int> {
    if sgl == [] then []
    else
      var e := sgl[|sgl| - 1];
      SgMemory(sgl[..|sgl| - 1]) + Span(Phys(e.page, e.offset), e.length)
  }

  /** Vectors join only where the one begins at the address at which the other ends (BIOVEC_PHYS_MERGEABLE). */
  ghost predicate Physical(q: Limits) {
    forall a, b :: q.joins(a, b) ==> Phys(a.page, a.offset) + a.len == Phys(b.page, b.offset)
  }

  /** The last entry ends where the vector does. */
  predicate EndsAt(sgl: seq<Sg>, v: Vec) {
    sgl != [] ==>
      var e := sgl[|sgl| - 1];
      Phys(e.page, e.offset) + e.length == Phys(v.page, v.offset) + v.len
  }

  lemma {:induction false} MapVecMemory(q: Limits, sgl: seq<Sg>, prev: Vec, v: Vec)
    requires Physical(q) && EndsAt(sgl, prev)
    ensures SgMemory(MapVec(q, sgl, prev, v)) == SgMemory(sgl) + Span(Phys(v.page, v.offset), v.len)
    ensures EndsAt(MapVec(q, sgl, prev, v), v)
  {
    hide Phys;
    var now, n := MapVec(q, sgl, prev, v), |sgl| - 1;
    if |now| == |sgl| {
      var e := sgl[n];
      assert now[..n] == sgl[..n];
      var a := Phys(e.page, e.offset);
      assert Span(a, e.length + v.len) == Span(a, e.length) + Span(a + e.length, v.len);
    } else {
      assert now[..|sgl|] == sgl;
    }
  }

  /** The scatterlist covers the memory of the vectors, byte after byte. */
  lemma {:induction false} MapVecsMemory(q: Limits, sgl: seq<Sg>, prev: Vec, vs: List<Vec>)
    requires Physical(q) && EndsAt(sgl, prev)
    ensures SgMemory(MapVecs(q, sgl, prev, vs)) == SgMemory(sgl) + VecMemory(vs)
    decreases vs
  {
    hide MapVec, SgMemory, EndsAt, Physical, Phys;
    if vs.Cons? {
      MapVecMemory(q, sgl, prev, vs.head);
      MapVecsMemory(q, MapVec(q, sgl, prev, vs.head), vs.head, vs.tail);
    }
  }

  /** blk_rq_map_sg before padding and drain */
  method MapSg(q: Limits, bios: Chain) returns (sgl: seq<Sg>)
    ensures sgl == MapVecs(q, [], Vec(0, 0, 0), AllVecs(bios))
    ensures |sgl| == Number(MapCuts(q, Fresh, AllVecs(bios)))
    ensures Total(sgl) == Size(AllVecs(bios))
    ensures Physical(q) ==> SgMemory(sgl) == VecMemory(AllVecs(bios))
  {
    sgl := [];
    var prev := Vec(0, 0, 0);
    var bio := bios;
    while bio.Cons?
      invariant MapVecs(q, sgl, prev, AllVecs(bio)) == MapVecs(q, [], Vec(0, 0, 0), AllVecs(bios))
      decreases bio
    {
      var b := bio.head;
      var i := b.idx;
      while i < |b.vecs|
        invariant MapVecs(q, sgl, prev, Append(From(b.vecs, i), AllVecs(bio.tail))) == MapVecs(q, [], Vec(0, 0, 0), AllVecs(bios))
      {
        FromNext(b.vecs, i, AllVecs(bio.tail));
        var v := b.vecs[i];
        var n := |sgl| - 1;
        if sgl != [] && q.cluster && sgl[n].length + v.len <= q.maxSegmentSize && q.joins(prev, v) {
          sgl := sgl[n := sgl[n].(length := sgl[n].length + v.len)];
        } else {
          sgl := sgl + [Sg(v.page, v.offset, v.len)];
        }
        prev := v;
        i := i + 1;
      }
      FromNext(b.vecs, i, AllVecs(bio.tail));
      bio := bio.tail;
    }
    MapVecsIs(q, [], Vec(0, 0, 0), Fresh, AllVecs(bios));
    if Physical(q) { MapVecsMemory(q, [], Vec(0, 0, 0), AllVecs(bios)); }
  }

  // ---------------------------------------------------------------- blk_update_request

  lemma {:induction false} WholeNext(vecs: seq<Vec>, i: nat, m: nat)
    requires i < |vecs|
    ensures m >= vecs[i].len ==>
              && Whole(From(vecs, i), m) == 1 + Whole(From(vecs, i + 1), m - vecs[i].len)
              && Beyond(From(vecs, i), m) == Beyond(From(vecs, i + 1), m - vecs[i].len)
    ensures m < vecs[i].len ==> Whole(From(vecs, i), m) == 0 && Beyond(From(vecs, i), m) == m
  {
  }

  /** The state of the loop: nr bytes are still to be taken, bioBytes of the first bio are done. */
  ghost predicate Taking(orig: Chain, n: nat, bios: Chain, ended: List<nat>, nextIdx: nat, bioBytes: nat, total: nat,
      nr: nat) {
    && WfBios(bios)
    && total + nr == n
    && Rest(orig, n) == Rest(bios, bioBytes + nr)
    && Ended(orig, n) == Append(ended, Ended(bios, bioBytes + nr))
    && (nextIdx == 0 ==> bioBytes == 0)
    && (nextIdx > 0 ==> bios.Cons? && bioBytes + nr < bios.head.size)
    && (bios.Cons? ==>
          var left := From(bios.head.vecs, bios.head.idx + nextIdx);
          && Whole(Live(bios.head), bioBytes + nr) == nextIdx + Whole(left, nr)
          && Beyond(Live(bios.head), bioBytes + nr) == Beyond(left, nr)
          && Positive(left) && Size(left) + bioBytes == bios.head.size)
  }

  lemma {:induction false} TakingBio(orig: Chain, n: nat, bios: Chain, ended: List<nat>, nextIdx: nat, bioBytes: nat,
      total: nat, nr: nat)
    requires Taking(orig, n, bios, ended, nextIdx, bioBytes, total, nr) && bios.Cons? && nr >= bios.head.size
    ensures nextIdx == 0 && bioBytes == 0
    ensures Taking(orig, n, bios.tail, Append(ended, Cons(bios.head.id, Nil)), 0, 0, total + bios.head.size, nr - bios.head.size)
  {
    var m := nr - bios.head.size;
    AppendAssoc(ended, Cons(bios.head.id, Nil), Ended(bios.tail, m));
    assert Append(Cons(bios.head.id, Nil), Ended(bios.tail, m)) == Cons(bios.head.id, Ended(bios.tail, m));
  }

  lemma {:induction false} TakingIndex(orig: Chain, n: nat, bios: Chain, ended: List<nat>, nextIdx: nat,
      bioBytes: nat, total: nat, nr: nat)
    requires Taking(orig, n, bios, ended, nextIdx, bioBytes, total, nr) && bios.Cons? && nr < bios.head.size
    ensures var i := bios.head.idx + nextIdx;
            i < |bios.head.vecs| && bios.head.vecs[i].len > 0 && bioBytes + nr < bios.head.size
  {
  }

  lemma {:induction false} TakingVec(orig: Chain, n: nat, bios: Chain, ended: List<nat>,
                                     nextIdx: nat, bioBytes: nat, total: nat, nr: nat, len: nat)
    requires Taking(orig, n, bios, ended, nextIdx, bioBytes, total, nr) && bios.Cons? && bioBytes + nr < bios.head.size
    requires bios.head.idx + nextIdx < |bios.head.vecs| && len == bios.head.vecs[bios.head.idx + nextIdx].len <= nr
    ensures Taking(orig, n, bios, ended, nextIdx + 1, bioBytes + len, total + len, nr - len)
  {
  }

  /** The loop has ended: the first bio keeps all but bioBytes bytes. */
  ghost predicate Taken(orig: Chain, n: nat, bios: Chain, ended: List<nat>, nextIdx: nat, bioBytes: nat, total: nat,
      nr: nat) {
    && WfBios(bios) && ended == Ended(orig, n)
    && (bios.Nil? ==> Rest(orig, n) == Nil)
    && (bios.Cons? ==>
          && total == n && bioBytes < bios.head.size
          && Rest(orig, n) == Cons(Advance(bios.head, bioBytes), bios.tail)
          && nextIdx == Whole(Live(bios.head), bioBytes) && nr == Beyond(Live(bios.head), bioBytes))
  }

  lemma {:induction false} TakingPart(orig: Chain, n: nat, bios: Chain, ended: List<nat>, nextIdx: nat, bioBytes: nat,
      total: nat, nr: nat)
    requires Taking(orig, n, bios, ended, nextIdx, bioBytes, total, nr) && bios.Cons? && bioBytes + nr < bios.head.size
    requires bios.head.idx + nextIdx < |bios.head.vecs| && bios.head.vecs[bios.head.idx + nextIdx].len > nr
    ensures Taken(orig, n, bios, ended, nextIdx, bioBytes + nr, total + nr, nr)
  {
    WholeNext(bios.head.vecs, bios.head.idx + nextIdx, nr);
    AppendNil(ended);
  }

  lemma {:induction false} TakingEven(orig: Chain, n: nat, bios: Chain, ended: List<nat>, nextIdx: nat, bioBytes: nat,
      total: nat, nr: nat)
    requires Taking(orig, n, bios, ended, nextIdx, bioBytes, total, nr) && bios.Cons? && nr == 0
    ensures Taken(orig, n, bios, ended, nextIdx, bioBytes, total, nr)
  {
    TakingIndex(orig, n, bios, ended, nextIdx, bioBytes, total, nr);
    TakingPart(orig, n, bios, ended, nextIdx, bioBytes, total, nr);
  }

  lemma {:induction false} TakingAll(orig: Chain, n: nat, bios: Chain, ended: List<nat>, nextIdx: nat, bioBytes: nat,
      total: nat, nr: nat)
    requires Taking(orig, n, bios, ended, nextIdx, bioBytes, total, nr) && bios.Nil?
    ensures Taken(orig, n, bios, ended, nextIdx, bioBytes, total, nr)
  {
    AppendNil(ended);
  }

  lemma {:induction false} AdvanceNothing(b: Bio)
    requires WfBio(b)
    ensures Advance(b, 0) == b
  {
  }

  class Request {
    var bios: Chain
    var nrPhysSegments: nat
    var dataLen: nat
    var sector: nat
    var special: bool
    var noMerge: bool

    ghost function Abs(): Rq
      reads this
    {
      Rq(bios, nrPhysSegments, dataLen, sector, special, noMerge)
    }

    /** The first bio ends: one arm of the loop of blk_update_request. */
    method TakeBio(ghost orig: Chain, n: nat, ended0: List<nat>, ghost nextIdx: nat, ghost bioBytes: nat, total0: nat,
        nr0: nat)
      returns (ended: List<nat>, total: nat, nr: nat)
      requires Taking(orig, n, bios, ended0, nextIdx, bioBytes, total0, nr0) && bios.Cons? && nr0 >= bios.head.size
      modifies this`bios
      ensures Taking(orig, n, bios, ended, 0, 0, total, nr) && bios == old(bios).tail
    {
      TakingBio(orig, n, bios, ended0, nextIdx, bioBytes, total0, nr0);
      var bio := bios.head;
      bios := bios.tail;
      ended := Append(ended0, Cons(bio.id, Nil));
      total, nr := total0 + bio.size, nr0 - bio.size;
    }

    /** The first bio does not end: the other arm. */
    method TakeVec(ghost orig: Chain, n: nat, ghost ended: List<nat>, nextIdx0: nat, bioBytes0: nat, total0: nat,
        nr0: nat)
      returns (stop: bool, nextIdx: nat, bioBytes: nat, total: nat, nr: nat)
      requires Taking(orig, n, bios, ended, nextIdx0, bioBytes0, total0, nr0) && bios.Cons? && nr0 < bios.head.size
      ensures stop ==> Taken(orig, n, bios, ended, nextIdx, bioBytes, total, nr)
      ensures !stop ==> Taking(orig, n, bios, ended, nextIdx, bioBytes, total, nr) && nr < nr0
    {
      TakingIndex(orig, n, bios, ended, nextIdx0, bioBytes0, total0, nr0);
      var idx := bios.head.idx + nextIdx0;
      var nbytes := bios.head.vecs[idx].len;
      if nbytes > nr0 {
        TakingPart(orig, n, bios, ended, nextIdx0, bioBytes0, total0, nr0);
        return true, nextIdx0, bioBytes0 + nr0, total0 + nr0, nr0;
      }
      TakingVec(orig, n, bios, ended, nextIdx0, bioBytes0, total0, nr0, nbytes);
      return false, nextIdx0 + 1, bioBytes0 + nbytes, total0 + nbytes, nr0 - nbytes;
    }

    /** The loop of blk_update_request: take off finished bios, then whole vectors of the next one. */
    method TakeBytes(n: nat) returns (ended: List<nat>, nextIdx: nat, bioBytes: nat, total: nat, nr: nat)
      requires WfBios(bios)
      modifies this`bios
      ensures Taken(old(bios), n, bios, ended, nextIdx, bioBytes, total, nr)
    {
      ended, nextIdx, bioBytes, total, nr := Nil, 0, 0, 0, n;
      ghost var orig := bios;
      while bios.Cons?
        invariant Taking(orig, n, bios, ended, nextIdx, bioBytes, total, nr)
        decreases bios, nr
      {
        if nr >= bios.head.size {
          ended, total, nr := TakeBio(orig, n, ended, nextIdx, bioBytes, total, nr);
          nextIdx, bioBytes := 0, 0;
        } else {
          var stop;
          stop, nextIdx, bioBytes, total, nr := TakeVec(orig, n, ended, nextIdx, bioBytes, total, nr);
          if stop { return; }
        }
        if bios.Cons? && nr == 0 {
          TakingEven(orig, n, bios, ended, nextIdx, bioBytes, total, nr);
          return;
        }
      }
      TakingAll(orig, n, bios, ended, nextIdx, bioBytes, total, nr);
    }

    /** The bio that keeps some bytes. */
    method AdvanceBio(nextIdx: nat, bioBytes: nat, nr: nat)
      requires bios.Cons? && WfBio(bios.head) && bioBytes < bios.head.size
      requires nextIdx == Whole(Live(bios.head), bioBytes) && nr == Beyond(Live(bios.head), bioBytes)
      modifies this`bios
      ensures bios == Cons(Advance(old(bios).head, bioBytes), old(bios).tail)
    {
      var bio := bios.head;
      AdvanceDrops(bio, bioBytes);
      FromDrop(bio.vecs, bio.idx, bioBytes);
      if bioBytes != 0 {
        bio := bio.(size := bio.size - bioBytes, sector := bio.sector + bioBytes / SECTOR);
        bio := bio.(idx := bio.idx + nextIdx);
        var v := bio.vecs[bio.idx];
        bio := bio.(vecs := bio.vecs[bio.idx := Vec(v.page, v.offset + nr, v.len - nr)]);
        bios := Cons(bio, bios.tail);
      } else {
        AdvanceNothing(bio);
      }
    }

    /** blk_recalc_rq_segments */
    method RecalcRequest(q: Limits)
      requires bios.Cons? && WfBios(bios)
      modifies this`bios, this`nrPhysSegments
      ensures bios == RecalcBios(q, old(bios)) && nrPhysSegments == RecalcCount(q, old(bios))
    {
      SomeVecs(bios);
      var init := Tally(0, 0, Vec(0, 0, 0), true, bios.head.segFront);
      var t := CountChain(q, bios, init);
      CountedIs(q, init, AllVecs(bios));
      var front := if t.nr == 1 && t.segSize > t.segFront then t.segSize else t.segFront;
      var back := if t.segSize > Last(bios).segBack then t.segSize else Last(bios).segBack;
      nrPhysSegments := t.nr;
      bios := SetFront(bios, front);
      bios := SetBack(bios, back);
    }

    /** blk_update_request */
    method UpdateRequest(q: Limits, n: nat) returns (more: bool, ended: List<nat>)
      requires WfBios(bios) && dataLen == Bytes(bios)
      modifies this
      ensures Updated(more, Abs(), ended) == Update(q, old(Abs()), n)
    {
      if bios.Nil? { return false, Nil; }
      RestIsWf(bios, n);
      var nextIdx, bioBytes, total, nr;
      ended, nextIdx, bioBytes, total, nr := TakeBytes(n);
      if bios.Nil? {
        dataLen := 0;
        return false, ended;
      }
      AdvanceBio(nextIdx, bioBytes, nr);
      dataLen := dataLen - total;
      sector := sector + total / SECTOR;
      // The "request botched" correction never applies.
      assert dataLen >= bios.head.vecs[bios.head.idx].len;
      RecalcRequest(q);
      more := true;
    }

    /** bio_phys_segments: blk_recount_segments on a bio by itself unless its count is valid. */
    static method Recount(q: Limits, b: Bio) returns (r: Bio)
      requires WfBio(b)
      ensures r == Recounted(q, b)
    {
      if b.segValid { return b; }
      var one := Cons(b, Nil);
      OneBio(b);
      var init := Tally(0, 0, Vec(0, 0, 0), true, b.segFront);
      var t := CountChain(q, one, init);
      CountedIs(q, init, AllVecs(one));
      r := b.(segFront := if t.nr == 1 && t.segSize > t.segFront then t.segSize else t.segFront,
              segBack := if t.segSize > b.segBack then t.segSize else b.segBack,
              physSegments := t.nr, segValid := true);
    }

    /** ll_back_merge_fn, ll_new_hw_segment and the back arm of __make_request */
    method MergeBack(q: Limits, b: Bio) returns (ok: bool)
      requires bios.Cons? && WfBio(Last(bios)) && WfBio(b)
      modifies this
      ensures Merged(ok, Abs()) == BackMerge(q, old(Abs()), b)
    {
      if dataLen / SECTOR + b.size / SECTOR > q.maxSectors {
        noMerge := true;
        return false;
      }
      var tail := Recount(q, Last(bios));
      bios := SetLast(bios, tail);
      var b1 := Recount(q, b);
      if nrPhysSegments + b1.physSegments > q.maxSegments {
        noMerge := true;
        return false;
      }
      nrPhysSegments := nrPhysSegments + b1.physSegments;
      bios := Append(bios, Cons(b1, Nil));
      RecountedKeeps(q, b);
      dataLen := dataLen + b1.size;
      ok := true;
    }

    /** ll_front_merge_fn, ll_new_hw_segment and the front arm of __make_request */
    method MergeFront(q: Limits, b: Bio) returns (ok: bool)
      requires bios.Cons? && WfBio(bios.head) && WfBio(b)
      modifies this
      ensures Merged(ok, Abs()) == FrontMerge(q, old(Abs()), b)
    {
      if dataLen / SECTOR + b.size / SECTOR > q.maxSectors {
        noMerge := true;
        return false;
      }
      var b1 := Recount(q, b);
      var first := Recount(q, bios.head);
      bios := Cons(first, bios.tail);
      if nrPhysSegments + b1.physSegments > q.maxSegments {
        noMerge := true;
        return false;
      }
      nrPhysSegments := nrPhysSegments + b1.physSegments;
      bios := Cons(b1, bios);
      sector := b1.sector;
      dataLen := dataLen + b1.size;
      ok := true;
    }

    /** ll_merge_requests_fn */
    method CountMerge(q: Limits, next: Request) returns (ok: bool)
      requires WfRq(Abs()) && WfRq(next.Abs()) && this != next && nrPhysSegments + next.nrPhysSegments > 0
      modifies this`bios, this`nrPhysSegments, next`bios
      ensures var j := CountJoin(q, old(Abs()), old(next.Abs()));
              && ok == j.ok && next.Abs() == j.next
              && (!ok ==> Abs() == j.req)
              && (ok ==> Append(bios, next.bios) == j.req.bios && nrPhysSegments == j.req.nrPhysSegments)
    {
      var segSize := Last(bios).segBack + next.bios.head.segFront;
      if special || next.special { return false; }
      if dataLen / SECTOR + next.dataLen / SECTOR > q.maxSectors { return false; }
      var total := nrPhysSegments + next.nrPhysSegments;
      LastWf(bios);
      if Contiguous(q, Last(bios), next.bios.head) {
        if nrPhysSegments == 1 { bios := SetFront(bios, segSize); }
        if next.nrPhysSegments == 1 { next.bios := SetBack(next.bios, segSize); }
        total := total - 1;
      }
      if total > q.maxSegments { return false; }
      nrPhysSegments := total;
      ok := true;
    }

    /** attempt_merge: `next` is emptied when it has been merged. */
    method AttemptMerge(q: Limits, next: Request, alike: bool) returns (ok: bool)
      requires WfRq(Abs()) && WfRq(next.Abs()) && this != next && nrPhysSegments + next.nrPhysSegments > 0
      modifies this, next
      ensures var j := JoinRqs(q, old(Abs()), old(next.Abs()), alike);
              ok == j.ok && Abs() == j.req && (if ok then next.bios == Nil else next.Abs() == j.next)
    {
      if noMerge || next.noMerge { return false; }
      if sector + dataLen / SECTOR != next.sector { return false; }
      if !alike || next.special { return false; }
      ok := CountMerge(q, next);
      if !ok { return; }
      bios := Append(bios, next.bios);
      dataLen := dataLen + next.dataLen;
      next.bios := Nil;
    }
  }
}
