/**
 Bios and requests, and the segment counts they carry.
 */
module RequestModel {
  import opened Lists
  import opened Segments

  const SECTOR := 512

  /** A bio: `vecs[idx..]` is what is still to be transferred, `size` its length in bytes. */
  datatype Bio = Bio(
    id: nat,
    vecs: seq<Vec>,
    idx: nat,
    size: nat,
    sector: nat,
    segFront: nat,        // bi_seg_front_size
    segBack: nat,         // bi_seg_back_size
    physSegments: nat,    // bi_phys_segments
    segValid: bool)       // BIO_SEG_VALID

  type Chain = List<Bio>

  datatype Rq = Rq(
    bios: Chain,
    nrPhysSegments: nat,
    dataLen: nat,
    sector: nat,
    special: bool,
    noMerge: bool)

  function From(vecs: seq<Vec>, i: nat): List<Vec>
    decreases |vecs| - i
  {
    if i < |vecs| then Cons(vecs[i], From(vecs, i + 1)) else Nil
  }

  function Live(b: Bio): List<Vec> {
    From(b.vecs, b.idx)
  }

  predicate WfBio(b: Bio) {
    b.idx < |b.vecs| && Positive(Live(b)) && b.size == Size(Live(b))
  }

  predicate WfBios(bios: Chain) {
    bios.Cons? ==> WfBio(bios.head) && WfBios(bios.tail)
  }

  /** The vectors of a chain of bios, in order. */
  function AllVecs(bios: Chain): List<Vec> {
    match bios
    case Nil => Nil
    case Cons(b, r) => Append(Live(b), AllVecs(r))
  }

  function Bytes(bios: Chain): nat {
    match bios
    case Nil => 0
    case Cons(b, r) => b.size + Bytes(r)
  }

  predicate WfRq(r: Rq) {
    r.bios.Cons? && WfBios(r.bios) && r.dataLen == Bytes(r.bios)
  }

  function Max(a: nat, b: nat): nat {
    if a > b then a else b
  }

  // ---------------------------------------------------------------- what a count means

  /** The cuts make n segments, the first and the last no larger than the cached end sizes. */
  ghost predicate CountedBy(q: Limits, vs: List<Vec>, front: nat, back: nat, n: nat, cuts: Cuts) {
    && Fits(q, Fresh, vs, cuts)
    && Number(cuts) == n
    && FirstSize(vs, cuts) <= front
    && LastSize(vs, cuts) <= back
  }

  ghost predicate Counts(q: Limits, vs: List<Vec>, front: nat, back: nat, n: nat) {
    exists cuts :: CountedBy(q, vs, front, back, n, cuts)
  }

  /** A bio as the block layer receives it: its cached count, if marked valid, is right. */
  ghost predicate GoodBio(q: Limits, b: Bio) {
    WfBio(b) && (b.segValid ==> Counts(q, Live(b), b.segFront, b.segBack, b.physSegments))
  }

  ghost predicate GoodRq(q: Limits, r: Rq) {
    WfRq(r) && Counts(q, AllVecs(r.bios), r.bios.head.segFront, Last(r.bios).segBack, r.nrPhysSegments)
  }

  // ---------------------------------------------------------------- counting

  function Recalc(q: Limits, bios: Chain): Cuts {
    CountCuts(q, Fresh, true, AllVecs(bios))
  }

  /** __blk_recalc_rq_segments: the count ... */
  function RecalcCount(q: Limits, bios: Chain): nat {
    Number(Recalc(q, bios))
  }

  function SetFront(bios: Chain, front: nat): (r: Chain)
    requires bios.Cons?
    ensures r.Cons?
  {
    Cons(bios.head.(segFront := front), bios.tail)
  }

  function SetBack(bios: Chain, back: nat): (r: Chain)
    requires bios.Cons?
    ensures r.Cons?
  {
    SetLast(bios, Last(bios).(segBack := back))
  }

  /** ... and the cached sizes it raises. */
  function RecalcBios(q: Limits, bios: Chain): (r: Chain)
    requires bios.Cons?
    ensures r.Cons?
  {
    var vs, cuts := AllVecs(bios), Recalc(q, bios);
    SetBack(SetFront(bios, Max(bios.head.segFront, FirstSize(vs, cuts))), Max(Last(bios).segBack, LastSize(vs, cuts)))
  }

  /** bio_phys_segments / blk_recount_segments */
  function Recounted(q: Limits, b: Bio): Bio {
    var one := Cons(b, Nil);
    if b.segValid then b
    else RecalcBios(q, one).head.(physSegments := RecalcCount(q, one), segValid := true)
  }

  // ---------------------------------------------------------------- chains

  lemma {:induction false} FromLast(vecs: seq<Vec>, i: nat)
    requires i < |vecs|
    ensures Last(From(vecs, i)) == vecs[|vecs| - 1]
    decreases |vecs| - i
  {
    if i + 1 < |vecs| { FromLast(vecs, i + 1); }
  }

  lemma {:induction false} AllVecsAppend(a: Chain, b: Chain)
    ensures AllVecs(Append(a, b)) == Append(AllVecs(a), AllVecs(b))
  {
    if a.Cons? {
      AllVecsAppend(a.tail, b);
      AppendAssoc(Live(a.head), AllVecs(a.tail), AllVecs(b));
    }
  }

  lemma {:induction false} BytesAppend(a: Chain, b: Chain)
    ensures Bytes(Append(a, b)) == Bytes(a) + Bytes(b)
    ensures WfBios(Append(a, b)) <==> WfBios(a) && WfBios(b)
  {
    if a.Cons? { BytesAppend(a.tail, b); }
  }

  lemma {:induction false} LastWf(bios: Chain)
    requires bios.Cons? && WfBios(bios)
    ensures WfBio(Last(bios))
  {
    if bios.tail.Cons? { LastWf(bios.tail); }
  }

  lemma {:induction false} SomeVecs(bios: Chain)
    requires bios.Cons? && WfBios(bios)
    ensures AllVecs(bios).Cons? && AllVecs(bios).head == bios.head.vecs[bios.head.idx]
    ensures Last(bios).vecs != [] && Last(AllVecs(bios)) == Last(bios).vecs[|Last(bios).vecs| - 1]
  {
    if bios.tail.Cons? {
      SomeVecs(bios.tail);
      AppendLast(Live(bios.head), AllVecs(bios.tail));
    } else {
      AppendNil(Live(bios.head));
      FromLast(bios.head.vecs, bios.head.idx);
    }
  }

  /** The same bios but for cached sizes and counts. */
  predicate Alike(a: Chain, b: Chain) {
    if a.Nil? then b.Nil?
    else
      && b.Cons?
      && b.head.vecs == a.head.vecs && b.head.idx == a.head.idx && b.head.size == a.head.size
      && b.head.id == a.head.id && b.head.sector == a.head.sector
      && Alike(a.tail, b.tail)
  }

  lemma {:induction false} AlikeSame(a: Chain)
    ensures Alike(a, a)
  {
    if a.Cons? { AlikeSame(a.tail); }
  }

  lemma {:induction false} AlikeTrans(a: Chain, b: Chain, c: Chain)
    requires Alike(a, b) && Alike(b, c)
    ensures Alike(a, c)
  {
    if a.Cons? { AlikeTrans(a.tail, b.tail, c.tail); }
  }

  lemma {:induction false} AlikeVecs(a: Chain, b: Chain)
    requires Alike(a, b)
    ensures AllVecs(b) == AllVecs(a) && Bytes(b) == Bytes(a) && (WfBios(a) <==> WfBios(b))
  {
    if a.Cons? { AlikeVecs(a.tail, b.tail); }
  }

  lemma {:induction false} AlikeLast(a: Chain, x: Bio)
    requires a.Cons? && Alike(Cons(Last(a), Nil), Cons(x, Nil))
    ensures Alike(a, SetLast(a, x))
  {
    if a.tail.Cons? { AlikeLast(a.tail, x); }
  }

  lemma {:induction false} RecalcKeeps(q: Limits, bios: Chain)
    requires bios.Cons?
    ensures Alike(bios, RecalcBios(q, bios))
    ensures var r := RecalcBios(q, bios); var vs, cuts := AllVecs(bios), Recalc(q, bios);
            && r.head.segFront == Max(bios.head.segFront, FirstSize(vs, cuts))
            && Last(r).segBack == Max(Last(bios).segBack, LastSize(vs, cuts))
  {
    var vs, cuts := AllVecs(bios), Recalc(q, bios);
    var mid := SetFront(bios, Max(bios.head.segFront, FirstSize(vs, cuts)));
    AlikeSame(bios.tail);
    var x := Last(mid).(segBack := Max(Last(bios).segBack, LastSize(vs, cuts)));
    AlikeLast(mid, x);
    LastSet(mid, x);
    AlikeTrans(bios, mid, SetLast(mid, x));
  }

  // ---------------------------------------------------------------- a recount is right

  lemma {:induction false} RecalcIsRight(q: Limits, bios: Chain)
    requires bios.Cons?
    ensures var r := RecalcBios(q, bios);
            Counts(q, AllVecs(bios), r.head.segFront, Last(r).segBack, RecalcCount(q, bios))
  {
    var r := RecalcBios(q, bios);
    CountFits(q, Fresh, true, AllVecs(bios));
    RecalcKeeps(q, bios);
    assert CountedBy(q, AllVecs(bios), r.head.segFront, Last(r).segBack, RecalcCount(q, bios), Recalc(q, bios));
  }

  /** Larger cached end sizes are still right. */
  lemma {:induction false} CountsRaised(q: Limits, vs: List<Vec>, front: nat, back: nat, n: nat, front1: nat,
      back1: nat)
    requires Counts(q, vs, front, back, n) && front1 >= front && back1 >= back
    ensures Counts(q, vs, front1, back1, n)
  {
    var cuts :| CountedBy(q, vs, front, back, n, cuts);
    assert CountedBy(q, vs, front1, back1, n, cuts);
  }

  lemma {:induction false} OneBio(b: Bio)
    ensures AllVecs(Cons(b, Nil)) == Live(b)
  {
    AppendNil(Live(b));
    assert AllVecs(Cons(b, Nil)) == Append(Live(b), AllVecs(Nil));
  }

  lemma {:induction false} RecountedKeeps(q: Limits, b: Bio)
    ensures var r := Recounted(q, b);
            && Alike(Cons(b, Nil), Cons(r, Nil)) && Live(r) == Live(b)
            && r.segFront >= b.segFront && r.segBack >= b.segBack && r.segValid
  {
  }

  lemma {:induction false} RecountedIsGood(q: Limits, b: Bio)
    requires GoodBio(q, b)
    ensures GoodBio(q, Recounted(q, b))
  {
    RecountedKeeps(q, b);
    if !b.segValid {
      var one := Cons(b, Nil);
      OneBio(b);
      RecalcIsRight(q, one);
      assert RecalcBios(q, one).tail.Nil?;

    }
  }
}
