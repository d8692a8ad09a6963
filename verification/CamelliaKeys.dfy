/**
 The Camellia key schedule: section 2.2 of RFC 3713, with rotations of the 128-bit quantities KL, KR,
 KA and KB, and the word-by-word rotations of camellia.c.
 */
module CamelliaKeys {
  import opened CamelliaWords
  import opened CamelliaSpec

  // ---------------------------------------------------------------- rotations

  /** A 128-bit quantity as a number ... */
  function Value(p: Pair): bv128 {
    (p.a.l as bv128 << 96) | (p.a.r as bv128 << 64) | (p.b.l as bv128 << 32) | (p.b.r as bv128)
  }

  /** ... and back. */
  function Split(v: bv128): Pair {
    Pair(W((v >> 96) as bv32, ((v >> 64) & 0xFFFF_FFFF) as bv32),
         W(((v >> 32) & 0xFFFF_FFFF) as bv32, (v & 0xFFFF_FFFF) as bv32))
  }

  function Rotl(v: bv128, n: nat): bv128
    requires n < 128
  {
    (v << n) | (v >> (128 - n))
  }

  function Rot(p: Pair, n: nat): Pair
    requires n < 128
  {
    Split(Rotl(Value(p), n))
  }

  lemma {:induction false} ValueSplit(v: bv128)
    ensures Value(Split(v)) == v
  {
  }

  /** How ROLDQ and ROLDQo32 put a word together from two. */
  function Mix2(x: bv32, y: bv32): bv32 { (x << 2) + (y >> 30) }
  function Mix13(x: bv32, y: bv32): bv32 { (x << 13) + (y >> 19) }
  function Mix15(x: bv32, y: bv32): bv32 { (x << 15) + (y >> 17) }
  function Mix17(x: bv32, y: bv32): bv32 { (x << 17) + (y >> 15) }
  function Mix19(x: bv32, y: bv32): bv32 { (x << 19) + (y >> 13) }
  function Mix30(x: bv32, y: bv32): bv32 { (x << 30) + (y >> 2) }

  function Roldq15(p: Pair): Pair {
    Pair(W(Mix15(p.a.l, p.a.r), Mix15(p.a.r, p.b.l)), W(Mix15(p.b.l, p.b.r), Mix15(p.b.r, p.a.l)))
  }

  function Roldq17(p: Pair): Pair {
    Pair(W(Mix17(p.a.l, p.a.r), Mix17(p.a.r, p.b.l)), W(Mix17(p.b.l, p.b.r), Mix17(p.b.r, p.a.l)))
  }

  function Roldq30(p: Pair): Pair {
    Pair(W(Mix30(p.a.l, p.a.r), Mix30(p.a.r, p.b.l)), W(Mix30(p.b.l, p.b.r), Mix30(p.b.r, p.a.l)))
  }

  function Roldq34(p: Pair): Pair {
    Pair(W(Mix2(p.a.r, p.b.l), Mix2(p.b.l, p.b.r)), W(Mix2(p.b.r, p.a.l), Mix2(p.a.l, p.a.r)))
  }

  function Roldq45(p: Pair): Pair {
    Pair(W(Mix13(p.a.r, p.b.l), Mix13(p.b.l, p.b.r)), W(Mix13(p.b.r, p.a.l), Mix13(p.a.l, p.a.r)))
  }

  function Roldq49(p: Pair): Pair {
    Pair(W(Mix17(p.a.r, p.b.l), Mix17(p.b.l, p.b.r)), W(Mix17(p.b.r, p.a.l), Mix17(p.a.l, p.a.r)))
  }

  function Roldq51(p: Pair): Pair {
    Pair(W(Mix19(p.a.r, p.b.l), Mix19(p.b.l, p.b.r)), W(Mix19(p.b.r, p.a.l), Mix19(p.a.l, p.a.r)))
  }

  lemma {:induction false} Roldq15Is(p: Pair)
    ensures Roldq15(p) == Rot(p, 15)
  {
  }

  lemma {:induction false} Roldq17Is(p: Pair)
    ensures Roldq17(p) == Rot(p, 17)
  {
  }

  lemma {:induction false} Roldq30Is(p: Pair)
    ensures Roldq30(p) == Rot(p, 30)
  {
  }

  lemma {:induction false} Roldq34Is(p: Pair)
    ensures Roldq34(p) == Rot(p, 34)
  {
  }

  lemma {:induction false} Roldq45Is(p: Pair)
    ensures Roldq45(p) == Rot(p, 45)
  {
  }

  lemma {:induction false} Roldq49Is(p: Pair)
    ensures Roldq49(p) == Rot(p, 49)
  {
  }

  lemma {:induction false} Roldq51Is(p: Pair)
    ensures Roldq51(p) == Rot(p, 51)
  {
  }

  lemma {:induction false} WordsTurned(p: Pair)
    ensures Pair(W(p.a.r, p.b.l), W(p.b.r, p.a.l)) == Rot(p, 32)
  {
  }

  lemma {:induction false} Rotl15_15(v: bv128)
    ensures Rotl(Rotl(v, 15), 15) == Rotl(v, 30)
  {
  }

  lemma {:induction false} Rot15_15(p: Pair)
    ensures Rot(Rot(p, 15), 15) == Rot(p, 30)
  {
    hide Value, Split, Rotl;
    ValueSplit(Rotl(Value(p), 15));
    Rotl15_15(Value(p));
  }

  lemma {:induction false} Rotl15_30(v: bv128)
    ensures Rotl(Rotl(v, 15), 30) == Rotl(v, 45)
  {
  }

  lemma {:induction false} Rot15_30(p: Pair)
    ensures Rot(Rot(p, 15), 30) == Rot(p, 45)
  {
    hide Value, Split, Rotl;
    ValueSplit(Rotl(Value(p), 15));
    Rotl15_30(Value(p));
  }

  lemma {:induction false} Rotl30_15(v: bv128)
    ensures Rotl(Rotl(v, 30), 15) == Rotl(v, 45)
  {
  }

  lemma {:induction false} Rot30_15(p: Pair)
    ensures Rot(Rot(p, 30), 15) == Rot(p, 45)
  {
    hide Value, Split, Rotl;
    ValueSplit(Rotl(Value(p), 30));
    Rotl30_15(Value(p));
  }

  lemma {:induction false} Rotl30_30(v: bv128)
    ensures Rotl(Rotl(v, 30), 30) == Rotl(v, 60)
  {
  }

  lemma {:induction false} Rot30_30(p: Pair)
    ensures Rot(Rot(p, 30), 30) == Rot(p, 60)
  {
    hide Value, Split, Rotl;
    ValueSplit(Rotl(Value(p), 30));
    Rotl30_30(Value(p));
  }

  lemma {:induction false} Rotl45_15(v: bv128)
    ensures Rotl(Rotl(v, 45), 15) == Rotl(v, 60)
  {
  }

  lemma {:induction false} Rot45_15(p: Pair)
    ensures Rot(Rot(p, 45), 15) == Rot(p, 60)
  {
    hide Value, Split, Rotl;
    ValueSplit(Rotl(Value(p), 45));
    Rotl45_15(Value(p));
  }

  lemma {:induction false} Rotl45_32(v: bv128)
    ensures Rotl(Rotl(v, 45), 32) == Rotl(v, 77)
  {
  }

  lemma {:induction false} Rot45_32(p: Pair)
    ensures Rot(Rot(p, 45), 32) == Rot(p, 77)
  {
    hide Value, Split, Rotl;
    ValueSplit(Rotl(Value(p), 45));
    Rotl45_32(Value(p));
  }

  lemma {:induction false} Rotl45_49(v: bv128)
    ensures Rotl(Rotl(v, 45), 49) == Rotl(v, 94)
  {
  }

  lemma {:induction false} Rot45_49(p: Pair)
    ensures Rot(Rot(p, 45), 49) == Rot(p, 94)
  {
    hide Value, Split, Rotl;
    ValueSplit(Rotl(Value(p), 45));
    Rotl45_49(Value(p));
  }

  lemma {:induction false} Rotl60_17(v: bv128)
    ensures Rotl(Rotl(v, 60), 17) == Rotl(v, 77)
  {
  }

  lemma {:induction false} Rot60_17(p: Pair)
    ensures Rot(Rot(p, 60), 17) == Rot(p, 77)
  {
    hide Value, Split, Rotl;
    ValueSplit(Rotl(Value(p), 60));
    Rotl60_17(Value(p));
  }

  lemma {:induction false} Rotl60_34(v: bv128)
    ensures Rotl(Rotl(v, 60), 34) == Rotl(v, 94)
  {
  }

  lemma {:induction false} Rot60_34(p: Pair)
    ensures Rot(Rot(p, 60), 34) == Rot(p, 94)
  {
    hide Value, Split, Rotl;
    ValueSplit(Rotl(Value(p), 60));
    Rotl60_34(Value(p));
  }

  lemma {:induction false} Rotl60_51(v: bv128)
    ensures Rotl(Rotl(v, 60), 51) == Rotl(v, 111)
  {
  }

  lemma {:induction false} Rot60_51(p: Pair)
    ensures Rot(Rot(p, 60), 51) == Rot(p, 111)
  {
    hide Value, Split, Rotl;
    ValueSplit(Rotl(Value(p), 60));
    Rotl60_51(Value(p));
  }

  lemma {:induction false} Rotl77_17(v: bv128)
    ensures Rotl(Rotl(v, 77), 17) == Rotl(v, 94)
  {
  }

  lemma {:induction false} Rot77_17(p: Pair)
    ensures Rot(Rot(p, 77), 17) == Rot(p, 94)
  {
    hide Value, Split, Rotl;
    ValueSplit(Rotl(Value(p), 77));
    Rotl77_17(Value(p));
  }

  lemma {:induction false} Rotl77_34(v: bv128)
    ensures Rotl(Rotl(v, 77), 34) == Rotl(v, 111)
  {
  }

  lemma {:induction false} Rot77_34(p: Pair)
    ensures Rot(Rot(p, 77), 34) == Rot(p, 111)
  {
    hide Value, Split, Rotl;
    ValueSplit(Rotl(Value(p), 77));
    Rotl77_34(Value(p));
  }

  lemma {:induction false} Rotl94_17(v: bv128)
    ensures Rotl(Rotl(v, 94), 17) == Rotl(v, 111)
  {
  }

  lemma {:induction false} Rot94_17(p: Pair)
    ensures Rot(Rot(p, 94), 17) == Rot(p, 111)
  {
    hide Value, Split, Rotl;
    ValueSplit(Rotl(Value(p), 94));
    Rotl94_17(Value(p));
  }

  lemma {:induction false} FullTurn(v: bv128)
    ensures Rotl(Rotl(v, 94), 34) == v
  {
  }

  lemma {:induction false} SplitValue(p: Pair)
    ensures Split(Value(p)) == p
  {
  }

  /** 94 and 34 make a full turn. */
  lemma {:induction false} RotFull(p: Pair)
    ensures Rot(Rot(p, 94), 34) == p
  {
    hide Value, Split, Rotl;
    ValueSplit(Rotl(Value(p), 94));
    FullTurn(Value(p));
    SplitValue(p);
  }

  // ---------------------------------------------------------------- section 2.2: KA, KB and the subkeys

  const SIGMA1 := W(0xA09E667F, 0x3BCC908B)
  const SIGMA2 := W(0xB67AE858, 0x4CAA73B2)
  const SIGMA3 := W(0xC6EF372F, 0xE94F82BE)
  const SIGMA4 := W(0x54FF53A5, 0xF1D36F1C)
  const SIGMA5 := W(0x10E527FA, 0xDE682D1D)
  const SIGMA6 := W(0xB05688C2, 0xB3E6C1FD)

  function XP(p: Pair, q: Pair): Pair {
    Pair(X(p.a, q.a), X(p.b, q.b))
  }

  function KA(s: Sbox, kl: Pair, kr: Pair): Pair {
    Two(s, XP(Two(s, XP(kl, kr), SIGMA1, SIGMA2), kl), SIGMA3, SIGMA4)
  }

  function KB(s: Sbox, ka: Pair, kr: Pair): Pair {
    Two(s, XP(ka, kr), SIGMA5, SIGMA6)
  }

  /** The subkeys of a 128-bit key. */
  function Subkeys128(kl: Pair, ka: Pair): (r: seq<W>)
    ensures |r| == 26
  {
    [kl.a, kl.b,
     ka.a, ka.b, Rot(kl, 15).a, Rot(kl, 15).b, Rot(ka, 15).a, Rot(ka, 15).b,
     Rot(ka, 30).a, Rot(ka, 30).b,
     Rot(kl, 45).a, Rot(kl, 45).b, Rot(ka, 45).a, Rot(kl, 60).b, Rot(ka, 60).a, Rot(ka, 60).b,
     Rot(kl, 77).a, Rot(kl, 77).b,
     Rot(kl, 94).a, Rot(kl, 94).b, Rot(ka, 94).a, Rot(ka, 94).b, Rot(kl, 111).a, Rot(kl, 111).b,
     Rot(ka, 111).a, Rot(ka, 111).b]
  }

  /** The subkeys of a 192- or 256-bit key. */
  function Subkeys256(kl: Pair, kr: Pair, ka: Pair, kb: Pair): (r: seq<W>)
    ensures |r| == 34
  {
    [kl.a, kl.b,
     kb.a, kb.b, Rot(kr, 15).a, Rot(kr, 15).b, Rot(ka, 15).a, Rot(ka, 15).b,
     Rot(kr, 30).a, Rot(kr, 30).b,
     Rot(kb, 30).a, Rot(kb, 30).b, Rot(kl, 45).a, Rot(kl, 45).b, Rot(ka, 45).a, Rot(ka, 45).b,
     Rot(kl, 60).a, Rot(kl, 60).b,
     Rot(kr, 60).a, Rot(kr, 60).b, Rot(kb, 60).a, Rot(kb, 60).b, Rot(kl, 77).a, Rot(kl, 77).b,
     Rot(ka, 77).a, Rot(ka, 77).b,
     Rot(kr, 94).a, Rot(kr, 94).b, Rot(ka, 94).a, Rot(ka, 94).b, Rot(kl, 111).a, Rot(kl, 111).b,
     Rot(kb, 111).a, Rot(kb, 111).b]
  }
}
