/**
 Physical segments: how the vectors of a request are gathered into scatterlist entries.

 A segmentation marks the vectors at which a new segment begins.  Every other vector must be
 contiguous with the one before it, and its segment within the queue's segment size.  The counting
 code and the scatterlist code both build one greedily; every other operation only promises that
 some segmentation of the counted size exists.
 */
module Segments {
  import opened Lists

  datatype Vec = Vec(page: int, offset: nat, len: nat)

  /** The queue's limits; `joins` is BIOVEC_PHYS_MERGEABLE && BIOVEC_SEG_BOUNDARY. */
  datatype Limits = Limits(
    cluster: bool,
    bouncePfn: int,
    maxSegmentSize: nat,
    maxSegments: nat,
    maxSectors: nat,
    joins: (Vec, Vec) -> bool)

  /** The segment being filled: its size so far and its last vector. */
  datatype Open = Fresh | Open(size: nat, prev: Vec)

  /** For each vector, whether a new segment begins there. */
  type Cuts = List<bool>

  function Size(vs: List<Vec>): nat {
    match vs
    case Nil => 0
    case Cons(v, r) => v.len + Size(r)
  }

  predicate Positive(vs: List<Vec>) {
    vs.Cons? ==> vs.head.len > 0 && Positive(vs.tail)
  }

  /** What lets a vector be part of the open segment. */
  predicate Joins(q: Limits, o: Open, v: Vec) {
    o.Open? && q.cluster && o.size + v.len <= q.maxSegmentSize && q.joins(o.prev, v)
  }

  function Grow(o: Open, v: Vec, cut: bool): Open {
    if cut || o.Fresh? then Open(v.len, v) else Open(o.size + v.len, v)
  }

  /** The cuts are a segmentation of vs that continues the open segment. */
  predicate Fits(q: Limits, o: Open, vs: List<Vec>, cuts: Cuts)
    decreases vs
  {
    match vs
    case Nil => cuts.Nil?
    case Cons(v, r) => cuts.Cons? && (cuts.head || Joins(q, o, v)) && Fits(q, Grow(o, v, cuts.head), r, cuts.tail)
  }

  function Number(cuts: Cuts): nat {
    match cuts
    case Nil => 0
    case Cons(c, r) => (if c then 1 else 0) + Number(r)
  }

  /** The segment left open at the end. */
  function Ending(o: Open, vs: List<Vec>, cuts: Cuts): (r: Open)
    ensures o.Open? ==> r.Open?
    decreases vs
  {
    if vs.Cons? && cuts.Cons? then Ending(Grow(o, vs.head, cuts.head), vs.tail, cuts.tail) else o
  }

  /** The bytes before the next cut. */
  function Leading(vs: List<Vec>, cuts: Cuts): nat {
    if vs.Cons? && cuts.Cons? && !cuts.head then vs.head.len + Leading(vs.tail, cuts.tail) else 0
  }

  function FirstSize(vs: List<Vec>, cuts: Cuts): nat {
    if vs.Cons? && cuts.Cons? then vs.head.len + Leading(vs.tail, cuts.tail) else 0
  }

  function LastSize(vs: List<Vec>, cuts: Cuts): nat {
    match Ending(Fresh, vs, cuts)
    case Fresh => 0
    case Open(size, _) => size
  }

  // ---------------------------------------------------------------- the two greedy loops

  predicate High(q: Limits, v: Vec) {
    v.page > q.bouncePfn
  }

  /** blk_rq_map_sg */
  function MapCuts(q: Limits, o: Open, vs: List<Vec>): Cuts
    decreases vs
  {
    match vs
    case Nil => Nil
    case Cons(v, r) => var cut := !Joins(q, o, v); Cons(cut, MapCuts(q, Grow(o, v, cut), r))
  }

  /** __blk_recalc_rq_segments, which also cuts around pages above the bounce limit. */
  function CountCuts(q: Limits, o: Open, highPrev: bool, vs: List<Vec>): Cuts
    decreases vs
  {
    match vs
    case Nil => Nil
    case Cons(v, r) =>
      var cut := High(q, v) || highPrev || !Joins(q, o, v);
      Cons(cut, CountCuts(q, Grow(o, v, cut), if cut then High(q, v) else highPrev, r))
  }

  lemma {:induction false} CountFits(q: Limits, o: Open, highPrev: bool, vs: List<Vec>)
    ensures Fits(q, o, vs, CountCuts(q, o, highPrev, vs))
    decreases vs
  {
    if vs.Cons? {
      var cut := High(q, vs.head) || highPrev || !Joins(q, o, vs.head);
      CountFits(q, Grow(o, vs.head, cut), if cut then High(q, vs.head) else highPrev, vs.tail);
    }
  }

  /** Whatever the segmentation, the scatterlist loop has opened at most one segment more, and none
      more while its own open segment is no larger. */
  lemma {:induction false} MapIsMinimal(q: Limits, g: Open, o: Open, vs: List<Vec>, cuts: Cuts)
    requires Fits(q, o, vs, cuts)
    requires g.Open? == o.Open? && (g.Open? ==> g.prev == o.prev)
    ensures Number(MapCuts(q, g, vs)) <= Number(cuts) + if g.Open? && g.size > o.size then 1 else 0
    decreases vs
  {
    if vs.Cons? {
      var v := vs.head;
      MapIsMinimal(q, Grow(g, v, !Joins(q, g, v)), Grow(o, v, cuts.head), vs.tail, cuts.tail);
    }
  }

  // ---------------------------------------------------------------- putting segmentations together

  lemma {:induction false} NumberAppend(a: Cuts, b: Cuts)
    ensures Number(Append(a, b)) == Number(a) + Number(b)
  {
    if a.Cons? { NumberAppend(a.tail, b); }
  }

  lemma {:induction false} FitsAppend(q: Limits, o: Open, va: List<Vec>, ca: Cuts, vb: List<Vec>, cb: Cuts)
    requires Fits(q, o, va, ca)
    ensures Fits(q, o, Append(va, vb), Append(ca, cb)) <==> Fits(q, Ending(o, va, ca), vb, cb)
    ensures Ending(o, Append(va, vb), Append(ca, cb)) == Ending(Ending(o, va, ca), vb, cb)
    decreases va
  {
    if va.Cons? { FitsAppend(q, Grow(o, va.head, ca.head), va.tail, ca.tail, vb, cb); }
  }

  lemma {:induction false} LeadingAppend(q: Limits, o: Open, va: List<Vec>, ca: Cuts, vb: List<Vec>, cb: Cuts)
    requires Fits(q, o, va, ca)
    ensures Leading(Append(va, vb), Append(ca, cb)) ==
            Leading(va, ca) + if Number(ca) == 0 then Leading(vb, cb) else 0
    decreases va
  {
    if va.Cons? && !ca.head { LeadingAppend(q, Grow(o, va.head, false), va.tail, ca.tail, vb, cb); }
  }

  /** A segmentation whose open segment starts out larger. */
  lemma {:induction false} Widen(q: Limits, o: Open, w: Open, vs: List<Vec>, cuts: Cuts)
    requires Fits(q, o, vs, cuts) && o.Open? && w.Open? && w.prev == o.prev
    requires w.size + Leading(vs, cuts) <= q.maxSegmentSize
    ensures Fits(q, w, vs, cuts)
    ensures var e := Ending(o, vs, cuts); var f := Ending(w, vs, cuts);
            f.Open? && e.Open? && f.size == if Number(cuts) == 0 then w.size + Leading(vs, cuts) else e.size
    decreases vs
  {
    if vs.Cons? && !cuts.head {
      Widen(q, Grow(o, vs.head, false), Grow(w, vs.head, false), vs.tail, cuts.tail);
    }
  }

  lemma {:induction false} EndingPrev(q: Limits, o: Open, vs: List<Vec>, cuts: Cuts)
    requires Fits(q, o, vs, cuts) && vs.Cons?
    ensures Ending(o, vs, cuts).Open? && Ending(o, vs, cuts).prev == Last(vs)
    decreases vs
  {
    if vs.tail.Cons? { EndingPrev(q, Grow(o, vs.head, cuts.head), vs.tail, cuts.tail); }
  }
}
