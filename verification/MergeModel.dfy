/**
 Merging bios into requests and requests into each other (blk-merge.c and the merge arms of
 __make_request), and why the segment count a request carries always bounds its scatterlist.
 */
module MergeModel {
  import opened Lists
  import opened Segments
  import opened RequestModel

  datatype Merged = Merged(ok: bool, rq: Rq)

  /** blk_rq_bio_prep for a bio with data */
  function MakeRq(q: Limits, b: Bio): Rq {
    var b1 := Recounted(q, b);
    Rq(Cons(b1, Nil), b1.physSegments, b1.size, b1.sector, false, false)
  }

  /** ll_back_merge_fn, ll_new_hw_segment and the back arm of __make_request */
  function BackMerge(q: Limits, r: Rq, b: Bio): Merged
    requires r.bios.Cons?
  {
    if r.dataLen / SECTOR + b.size / SECTOR > q.maxSectors then Merged(false, r.(noMerge := true))
    else
      var bios := SetLast(r.bios, Recounted(q, Last(r.bios)));
      var b1 := Recounted(q, b);
      if r.nrPhysSegments + b1.physSegments > q.maxSegments then Merged(false, r.(bios := bios, noMerge := true))
      else Merged(true, r.(bios := Append(bios, Cons(b1, Nil)), nrPhysSegments := r.nrPhysSegments + b1.physSegments,
                           dataLen := r.dataLen + b1.size))
  }

  /** ll_front_merge_fn, ll_new_hw_segment and the front arm of __make_request */
  function FrontMerge(q: Limits, r: Rq, b: Bio): Merged
    requires r.bios.Cons?
  {
    if r.dataLen / SECTOR + b.size / SECTOR > q.maxSectors then Merged(false, r.(noMerge := true))
    else
      var b1 := Recounted(q, b);
      var bios := Cons(Recounted(q, r.bios.head), r.bios.tail);
      if r.nrPhysSegments + b1.physSegments > q.maxSegments then Merged(false, r.(bios := bios, noMerge := true))
      else Merged(true, r.(bios := Cons(b1, bios), nrPhysSegments := r.nrPhysSegments + b1.physSegments,
                           dataLen := r.dataLen + b1.size, sector := b1.sector))
  }

  /** blk_phys_contig_segment for bios with data */
  predicate Contiguous(q: Limits, b: Bio, nxt: Bio)
    requires b.vecs != [] && nxt.idx < |nxt.vecs|
  {
    && q.cluster
    && b.segBack + nxt.segFront <= q.maxSegmentSize
    && q.joins(b.vecs[|b.vecs| - 1], nxt.vecs[nxt.idx])
  }

  datatype Joined = Joined(ok: bool, req: Rq, next: Rq)

  /** The checks attempt_merge makes before it counts; `alike` stands for direction, disk and integrity. */
  predicate MayJoin(r: Rq, s: Rq, alike: bool) {
    && !r.noMerge && !s.noMerge
    && r.sector + r.dataLen / SECTOR == s.sector
    && alike && !s.special
  }

  /** The size fields ll_merge_requests_fn writes when the two requests meet in one segment. */
  function TouchLeft(r: Rq, segSize: nat): Rq
    requires r.bios.Cons?
  {
    if r.nrPhysSegments == 1 then r.(bios := SetFront(r.bios, segSize)) else r
  }

  function TouchRight(s: Rq, segSize: nat): Rq
    requires s.bios.Cons?
  {
    if s.nrPhysSegments == 1 then s.(bios := SetBack(s.bios, segSize)) else s
  }

  /** The counts when the contiguity of the two requests is known; a sum below zero stands for the
      wrapped value, which no pair of counted requests reaches. */
  function JoinWhen(q: Limits, r: Rq, s: Rq, contiguous: bool): Joined
    requires r.bios.Cons? && s.bios.Cons?
  {
    var segSize := Last(r.bios).segBack + s.bios.head.segFront;
    var r1 := if contiguous then TouchLeft(r, segSize) else r;
    var s1 := if contiguous then TouchRight(s, segSize) else s;
    var total := r.nrPhysSegments + s.nrPhysSegments - if contiguous then 1 else 0;
    if total > q.maxSegments || total < 0 then Joined(false, r1, s1)
    else Joined(true, r1.(bios := Append(r1.bios, s1.bios), nrPhysSegments := total, dataLen := r.dataLen + s.dataLen), s1)
  }

  /** ll_merge_requests_fn, and the appending that follows it in attempt_merge */
  function CountJoin(q: Limits, r: Rq, s: Rq): Joined
    requires WfRq(r) && WfRq(s)
  {
    LastWf(r.bios);
    if r.special || s.special || r.dataLen / SECTOR + s.dataLen / SECTOR > q.maxSectors then Joined(false, r, s)
    else JoinWhen(q, r, s, Contiguous(q, Last(r.bios), s.bios.head))
  }

  /** attempt_merge */
  function JoinRqs(q: Limits, r: Rq, s: Rq, alike: bool): Joined
    requires WfRq(r) && WfRq(s)
  {
    if MayJoin(r, s, alike) then CountJoin(q, r, s) else Joined(false, r, s)
  }

  /** The number of entries blk_rq_map_sg fills, before padding and drain. */
  function ScatterlistLength(q: Limits, r: Rq): nat {
    Number(MapCuts(q, Fresh, AllVecs(r.bios)))
  }

  // ---------------------------------------------------------------- counting through merges

  /** Two counted lists side by side. */
  lemma {:induction false} AppendCounts(q: Limits, va: List<Vec>, fa: nat, ba: nat, n: nat,
                                        vb: List<Vec>, fb: nat, bb: nat, m: nat)
    requires va.Cons? && vb.Cons? && Counts(q, va, fa, ba, n) && Counts(q, vb, fb, bb, m)
    ensures Counts(q, Append(va, vb), fa, bb, n + m)
  {
    var ca :| CountedBy(q, va, fa, ba, n, ca);
    var cb :| CountedBy(q, vb, fb, bb, m, cb);
    var cuts := Append(ca, cb);
    FitsAppend(q, Fresh, va, ca, vb, cb);
    NumberAppend(ca, cb);
    LeadingAppend(q, Grow(Fresh, va.head, true), va.tail, ca.tail, vb, cb);
    assert CountedBy(q, Append(va, vb), fa, bb, n + m, cuts);
  }

  /** Two counted lists that meet in one segment, with the end sizes ll_merge_requests_fn writes. */
  lemma {:induction false} MeetCounts(q: Limits, va: List<Vec>, fa: nat, ba: nat, n: nat,
                                      vb: List<Vec>, fb: nat, bb: nat, m: nat)
    requires va.Cons? && vb.Cons? && Counts(q, va, fa, ba, n) && Counts(q, vb, fb, bb, m)
    requires q.cluster && ba + fb <= q.maxSegmentSize && q.joins(Last(va), vb.head)
    ensures n > 0 && m > 0
    ensures Counts(q, Append(va, vb), if n == 1 then ba + fb else fa, if m == 1 then ba + fb else bb, n + m - 1)
  {
    var ca :| CountedBy(q, va, fa, ba, n, ca);
    var cb :| CountedBy(q, vb, fb, bb, m, cb);
    var cm := Cons(false, cb.tail);
    var o := Ending(Fresh, va, ca);
    var front, back := if n == 1 then ba + fb else fa, if m == 1 then ba + fb else bb;
    EndingPrev(q, Fresh, va, ca);
    Widen(q, Grow(Fresh, vb.head, true), Grow(o, vb.head, false), vb.tail, cb.tail);
    FitsAppend(q, Fresh, va, ca, vb, cm);
    NumberAppend(ca, cm);
    LeadingAppend(q, Grow(Fresh, va.head, true), va.tail, ca.tail, vb, cm);
    if n == 1 { OneRun(q, Grow(Fresh, va.head, true), va.tail, ca.tail); }
    assert CountedBy(q, Append(va, vb), front, back, n + m - 1, Append(ca, cm));
  }

  /** Without a cut everything stays in the open segment. */
  lemma {:induction false} OneRun(q: Limits, o: Open, vs: List<Vec>, cuts: Cuts)
    requires Fits(q, o, vs, cuts) && o.Open? && Number(cuts) == 0
    ensures Ending(o, vs, cuts).size == o.size + Leading(vs, cuts)
    decreases vs
  {
    if vs.Cons? { OneRun(q, Grow(o, vs.head, false), vs.tail, cuts.tail); }
  }

  /** With a single segment, the end sizes bound each other. */
  lemma {:induction false} OneSegment(q: Limits, vs: List<Vec>, front: nat, back: nat)
    requires vs.Cons? && Counts(q, vs, front, back, 1)
    ensures Counts(q, vs, back, back, 1) && Counts(q, vs, front, front, 1)
  {
    var cuts :| CountedBy(q, vs, front, back, 1, cuts);
    OneRun(q, Grow(Fresh, vs.head, true), vs.tail, cuts.tail);
    assert CountedBy(q, vs, back, back, 1, cuts);
    assert CountedBy(q, vs, front, front, 1, cuts);
  }

  // ---------------------------------------------------------------- every operation keeps the count right

  lemma {:induction false} MakeKeeps(q: Limits, b: Bio)
    requires GoodBio(q, b)
    ensures GoodRq(q, MakeRq(q, b))
  {
    RecountedKeeps(q, b);
    RecountedIsGood(q, b);
    OneBio(Recounted(q, b));
  }

  /** Raising cached sizes changes nothing that matters. */
  lemma {:induction false} RaiseGood(q: Limits, r: Rq, bios: Chain)
    requires GoodRq(q, r) && Alike(r.bios, bios)
    requires bios.head.segFront >= r.bios.head.segFront && Last(bios).segBack >= Last(r.bios).segBack
    ensures GoodRq(q, r.(bios := bios))
  {
    AlikeVecs(r.bios, bios);
    CountsRaised(q, AllVecs(r.bios), r.bios.head.segFront, Last(r.bios).segBack, r.nrPhysSegments,
                 bios.head.segFront, Last(bios).segBack);
  }

  lemma {:induction false} RecountLast(q: Limits, r: Rq)
    requires GoodRq(q, r)
    ensures GoodRq(q, r.(bios := SetLast(r.bios, Recounted(q, Last(r.bios)))))
  {
    var x := Recounted(q, Last(r.bios));
    RecountedKeeps(q, Last(r.bios));
    AlikeLast(r.bios, x);
    LastSet(r.bios, x);
    RaiseGood(q, r, SetLast(r.bios, x));
  }

  lemma {:induction false} RecountFirst(q: Limits, r: Rq)
    requires GoodRq(q, r)
    ensures GoodRq(q, r.(bios := Cons(Recounted(q, r.bios.head), r.bios.tail)))
  {
    RecountedKeeps(q, r.bios.head);
    AlikeSame(r.bios.tail);
    RaiseGood(q, r, Cons(Recounted(q, r.bios.head), r.bios.tail));
  }

  /** Putting two chains together, with a count for the whole. */
  lemma {:induction false} ChainGood(q: Limits, a: Chain, b: Chain, t: Rq)
    requires a.Cons? && b.Cons? && WfBios(a) && WfBios(b)
    requires t.bios == Append(a, b) && t.dataLen == Bytes(a) + Bytes(b)
    requires Counts(q, Append(AllVecs(a), AllVecs(b)), a.head.segFront, Last(b).segBack, t.nrPhysSegments)
    ensures GoodRq(q, t)
  {
    AllVecsAppend(a, b);
    BytesAppend(a, b);
    AppendLast(a, b);
  }

  lemma {:induction false} AppendGood(q: Limits, r: Rq, s: Rq, t: Rq)
    requires GoodRq(q, r) && GoodRq(q, s)
    requires t.bios == Append(r.bios, s.bios) && t.nrPhysSegments == r.nrPhysSegments + s.nrPhysSegments
    requires t.dataLen == r.dataLen + s.dataLen
    ensures GoodRq(q, t)
  {
    SomeVecs(r.bios);
    SomeVecs(s.bios);
    AppendCounts(q, AllVecs(r.bios), r.bios.head.segFront, Last(r.bios).segBack, r.nrPhysSegments,
                 AllVecs(s.bios), s.bios.head.segFront, Last(s.bios).segBack, s.nrPhysSegments);
    ChainGood(q, r.bios, s.bios, t);
  }

  /** Only the chain, the count and the length matter. */
  lemma {:induction false} SameGood(q: Limits, r: Rq, t: Rq)
    requires GoodRq(q, r) && t.bios == r.bios && t.nrPhysSegments == r.nrPhysSegments && t.dataLen == r.dataLen
    ensures GoodRq(q, t)
  {
  }

  lemma {:induction false} BackKeeps(q: Limits, r: Rq, b: Bio)
    requires GoodRq(q, r) && GoodBio(q, b)
    ensures GoodRq(q, BackMerge(q, r, b).rq)
  {
    var r1 := r.(bios := SetLast(r.bios, Recounted(q, Last(r.bios))));
    var res := BackMerge(q, r, b);
    RecountLast(q, r);
    if res.ok {
      MakeKeeps(q, b);
      AppendGood(q, r1, MakeRq(q, b), res.rq);
    } else if res.rq.bios == r.bios {
      SameGood(q, r, res.rq);
    } else {
      SameGood(q, r1, res.rq);
    }
  }

  lemma {:induction false} FrontKeeps(q: Limits, r: Rq, b: Bio)
    requires GoodRq(q, r) && GoodBio(q, b)
    ensures GoodRq(q, FrontMerge(q, r, b).rq)
  {
    var r1 := r.(bios := Cons(Recounted(q, r.bios.head), r.bios.tail));
    var res := FrontMerge(q, r, b);
    RecountFirst(q, r);
    if res.ok {
      MakeKeeps(q, b);
      AppendGood(q, MakeRq(q, b), r1, res.rq);
    } else if res.rq.bios == r.bios {
      SameGood(q, r, res.rq);
    } else {
      SameGood(q, r1, res.rq);
    }
  }

  /** The sizes written by ll_merge_requests_fn are right even if the merge is then refused. */
  lemma {:induction false} TouchLeftKeeps(q: Limits, r: Rq, segSize: nat)
    requires GoodRq(q, r) && segSize >= Last(r.bios).segBack
    ensures GoodRq(q, TouchLeft(r, segSize)) && Alike(r.bios, TouchLeft(r, segSize).bios)
  {
    AlikeSame(r.bios.tail);
    AlikeSame(r.bios);
    if r.nrPhysSegments == 1 {
      var t := SetFront(r.bios, segSize);
      AlikeVecs(r.bios, t);
      SomeVecs(r.bios);
      OneSegment(q, AllVecs(r.bios), r.bios.head.segFront, Last(r.bios).segBack);
      CountsRaised(q, AllVecs(r.bios), Last(r.bios).segBack, Last(r.bios).segBack, 1, segSize, Last(t).segBack);
    }
  }

  lemma {:induction false} TouchRightKeeps(q: Limits, s: Rq, segSize: nat)
    requires GoodRq(q, s) && segSize >= s.bios.head.segFront
    ensures GoodRq(q, TouchRight(s, segSize)) && Alike(s.bios, TouchRight(s, segSize).bios)
  {
    AlikeSame(s.bios);
    if s.nrPhysSegments == 1 {
      var x := Last(s.bios).(segBack := segSize);
      var t := SetLast(s.bios, x);
      AlikeLast(s.bios, x);
      LastSet(s.bios, x);
      AlikeVecs(s.bios, t);
      SomeVecs(s.bios);
      OneSegment(q, AllVecs(s.bios), s.bios.head.segFront, Last(s.bios).segBack);
      CountsRaised(q, AllVecs(s.bios), s.bios.head.segFront, s.bios.head.segFront, 1, t.head.segFront, segSize);
    }
  }

  /** Two requests that meet in one segment. */
  lemma {:induction false} MeetGood(q: Limits, r: Rq, s: Rq, r1: Rq, s1: Rq, t: Rq)
    requires GoodRq(q, r) && GoodRq(q, s) && Last(r.bios).vecs != []
    requires Contiguous(q, Last(r.bios), s.bios.head)
    requires var segSize := Last(r.bios).segBack + s.bios.head.segFront;
             r1 == TouchLeft(r, segSize) && s1 == TouchRight(s, segSize)
    requires t.bios == Append(r1.bios, s1.bios) && t.dataLen == r.dataLen + s.dataLen
    requires t.nrPhysSegments == r.nrPhysSegments + s.nrPhysSegments - 1
    ensures GoodRq(q, t)
  {
    var segSize := Last(r.bios).segBack + s.bios.head.segFront;
    TouchLeftKeeps(q, r, segSize);
    TouchRightKeeps(q, s, segSize);
    AlikeVecs(r.bios, r1.bios);
    AlikeVecs(s.bios, s1.bios);
    SomeVecs(r.bios);
    SomeVecs(s.bios);
    LastSet(s.bios, Last(s.bios).(segBack := segSize));
    MeetCounts(q, AllVecs(r.bios), r.bios.head.segFront, Last(r.bios).segBack, r.nrPhysSegments,
               AllVecs(s.bios), s.bios.head.segFront, Last(s.bios).segBack, s.nrPhysSegments);
    ChainGood(q, r1.bios, s1.bios, t);
  }

  /** attempt_merge keeps both counts right, whether it merges or not. */
  lemma {:induction false} JoinKeeps(q: Limits, r: Rq, s: Rq, alike: bool)
    requires GoodRq(q, r) && GoodRq(q, s)
    ensures var j := JoinRqs(q, r, s, alike); GoodRq(q, j.req) && GoodRq(q, j.next)
  {
    LastWf(r.bios);
    var contiguous := Contiguous(q, Last(r.bios), s.bios.head);
    var segSize := Last(r.bios).segBack + s.bios.head.segFront;
    var j := JoinRqs(q, r, s, alike);
    if contiguous {
      TouchLeftKeeps(q, r, segSize);
      TouchRightKeeps(q, s, segSize);
      if j.ok { MeetGood(q, r, s, TouchLeft(r, segSize), TouchRight(s, segSize), j.req); }
    } else if j.ok {
      AppendGood(q, r, s, j.req);
    }
  }

  // ---------------------------------------------------------------- merging is concatenation

  lemma {:induction false} BackVecs(q: Limits, r: Rq, b: Bio)
    requires WfRq(r)
    ensures var m := BackMerge(q, r, b);
            AllVecs(m.rq.bios) == if m.ok then Append(AllVecs(r.bios), Live(b)) else AllVecs(r.bios)
  {
    var x := Recounted(q, Last(r.bios));
    RecountedKeeps(q, Last(r.bios));
    RecountedKeeps(q, b);
    AlikeLast(r.bios, x);
    AlikeVecs(r.bios, SetLast(r.bios, x));
    AllVecsAppend(SetLast(r.bios, x), Cons(Recounted(q, b), Nil));
    OneBio(Recounted(q, b));
  }

  lemma {:induction false} FrontVecs(q: Limits, r: Rq, b: Bio)
    requires WfRq(r)
    ensures var m := FrontMerge(q, r, b);
            AllVecs(m.rq.bios) == if m.ok then Append(Live(b), AllVecs(r.bios)) else AllVecs(r.bios)
  {
  }

  lemma {:induction false} JoinVecs(q: Limits, r: Rq, s: Rq, alike: bool)
    requires WfRq(r) && WfRq(s)
    ensures var j := JoinRqs(q, r, s, alike);
            && AllVecs(j.req.bios) == (if j.ok then Append(AllVecs(r.bios), AllVecs(s.bios)) else AllVecs(r.bios))
            && AllVecs(j.next.bios) == AllVecs(s.bios)
  {
    LastWf(r.bios);
    var segSize := Last(r.bios).segBack + s.bios.head.segFront;
    var r1, s1 := TouchLeft(r, segSize), TouchRight(s, segSize);
    AlikeSame(r.bios.tail);
    AlikeSame(r.bios);
    AlikeSame(s.bios);
    AlikeLast(s.bios, Last(s.bios).(segBack := segSize));
    AlikeVecs(r.bios, r1.bios);
    AlikeVecs(s.bios, s1.bios);
    AllVecsAppend(r1.bios, s1.bios);
    AllVecsAppend(r.bios, s.bios);
  }

  /** The scatterlist of a request never has more entries than the request says. */
  lemma {:induction false} ScatterlistFits(q: Limits, r: Rq)
    requires GoodRq(q, r)
    ensures ScatterlistLength(q, r) <= r.nrPhysSegments
  {
    var vs, front, back := AllVecs(r.bios), r.bios.head.segFront, Last(r.bios).segBack;
    var cuts :| CountedBy(q, vs, front, back, r.nrPhysSegments, cuts);
    MapIsMinimal(q, Fresh, Fresh, vs, cuts);
  }
}
