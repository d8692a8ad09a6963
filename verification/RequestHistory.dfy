/**
 Any history of a data request: made from a bio, grown by merges, cut by partial completions.
 */
module RequestHistory {
  import opened Lists
  import opened Segments
  import opened RequestModel
  import opened MergeModel
  import opened Completion

  datatype History =
    | Made(bio: Bio)
    | BackMerged(before: History, bio: Bio)
    | FrontMerged(before: History, bio: Bio)
    | Tried(left: History, right: History, alike: bool, next: bool)  // attempt_merge; `next` picks the survivor
    | Cut(before: History, bytes: nat)                              // partial completion

  /** Incoming bios are well formed and every partial completion leaves something. */
  ghost predicate Possible(q: Limits, h: History)
    decreases h, 0
  {
    match h
    case Made(b) => GoodBio(q, b)
    case BackMerged(h1, b) => Possible(q, h1) && GoodBio(q, b)
    case FrontMerged(h1, b) => Possible(q, h1) && GoodBio(q, b)
    case Tried(h1, h2, _, _) => Possible(q, h1) && Possible(q, h2)
    case Cut(h1, n) => Possible(q, h1) && n < Result(q, h1).dataLen
  }

  lemma {:induction false} UpdateKeeps(q: Limits, r: Rq, n: nat)
    requires WfRq(r) && n < r.dataLen
    ensures GoodRq(q, Update(q, r, n).rq)
  {
    var rest := Rest(r.bios, n);
    RestIsWf(r.bios, n);
    RecalcKeeps(q, rest);
    RecalcIsRight(q, rest);
    AlikeVecs(rest, RecalcBios(q, rest));
  }

  /** The request a history ends with. */
  ghost function Result(q: Limits, h: History): (r: Rq)
    requires Possible(q, h)
    ensures GoodRq(q, r)
    decreases h, 1
  {
    match h
    case Made(b) => MakeKeeps(q, b); MakeRq(q, b)
    case BackMerged(h1, b) => BackKeeps(q, Result(q, h1), b); BackMerge(q, Result(q, h1), b).rq
    case FrontMerged(h1, b) => FrontKeeps(q, Result(q, h1), b); FrontMerge(q, Result(q, h1), b).rq
    case Tried(h1, h2, alike, next) =>
      JoinKeeps(q, Result(q, h1), Result(q, h2), alike);
      var j := JoinRqs(q, Result(q, h1), Result(q, h2), alike);
      if !j.ok && next then j.next else j.req
    case Cut(h1, n) => UpdateKeeps(q, Result(q, h1), n); Update(q, Result(q, h1), n).rq
  }

  /** Whatever its history, a request maps to no more scatterlist entries than nr_phys_segments. */
  lemma {:induction false} ScatterlistAlwaysFits(q: Limits, h: History)
    requires Possible(q, h)
    ensures ScatterlistLength(q, Result(q, h)) <= Result(q, h).nrPhysSegments
  {
    ScatterlistFits(q, Result(q, h));
  }

  /** What a history should have put into its request: every accepted bio at its end of the data, and
      nothing of what was completed. */
  ghost function Payload(q: Limits, h: History): List<Place>
    requires Possible(q, h)
  {
    match h
    case Made(b) => Data(Live(b))
    case BackMerged(h1, b) =>
      if BackMerge(q, Result(q, h1), b).ok then Append(Payload(q, h1), Data(Live(b))) else Payload(q, h1)
    case FrontMerged(h1, b) =>
      if FrontMerge(q, Result(q, h1), b).ok then Append(Data(Live(b)), Payload(q, h1)) else Payload(q, h1)
    case Tried(h1, h2, alike, next) =>
      if JoinRqs(q, Result(q, h1), Result(q, h2), alike).ok then Append(Payload(q, h1), Payload(q, h2))
      else if next then Payload(q, h2) else Payload(q, h1)
    case Cut(h1, n) => Drop(Payload(q, h1), n)
  }

  lemma {:induction false} DataAppend(a: List<Vec>, b: List<Vec>)
    ensures Data(Append(a, b)) == Append(Data(a), Data(b))
  {
    if a.Cons? {
      DataAppend(a.tail, b);
      AppendAssoc(Places(a.head.page, a.head.offset, a.head.len), Data(a.tail), Data(b));
    }
  }

  lemma {:induction false} DataLength(bios: Chain)
    requires WfBios(bios)
    ensures Length(Data(AllVecs(bios))) == Bytes(bios)
  {
    if bios.Cons? {
      DataLength(bios.tail);
      VecsLength(Live(bios.head));
      DataAppend(Live(bios.head), AllVecs(bios.tail));
      AppendLength(Data(Live(bios.head)), Data(AllVecs(bios.tail)));
    }
  }

  lemma {:induction false} VecsLength(vs: List<Vec>)
    ensures Length(Data(vs)) == Size(vs)
  {
    if vs.Cons? {
      VecsLength(vs.tail);
      PlacesLength(vs.head.page, vs.head.offset, vs.head.len);
      AppendLength(Places(vs.head.page, vs.head.offset, vs.head.len), Data(vs.tail));
    }
  }

  /** Whatever its history, a request holds exactly its payload, and its length field says so. */
  lemma {:induction false} HoldsPayload(q: Limits, h: History)
    requires Possible(q, h)
    ensures Data(AllVecs(Result(q, h).bios)) == Payload(q, h)
    ensures Result(q, h).dataLen == Length(Payload(q, h))
  {
    DataLength(Result(q, h).bios);
    match h
    case Made(b) =>
      RecountedKeeps(q, b);
      OneBio(Recounted(q, b));
    case BackMerged(h1, b) =>
      HoldsPayload(q, h1);
      BackVecs(q, Result(q, h1), b);
      DataAppend(AllVecs(Result(q, h1).bios), Live(b));
    case FrontMerged(h1, b) =>
      HoldsPayload(q, h1);
      FrontVecs(q, Result(q, h1), b);
      DataAppend(Live(b), AllVecs(Result(q, h1).bios));
    case Tried(h1, h2, alike, next) =>
      HoldsPayload(q, h1);
      HoldsPayload(q, h2);
      JoinVecs(q, Result(q, h1), Result(q, h2), alike);
      DataAppend(AllVecs(Result(q, h1).bios), AllVecs(Result(q, h2).bios));
    case Cut(h1, n) =>
      HoldsPayload(q, h1);
      UpdateDropsBytes(q, Result(q, h1), n);
  }
}
