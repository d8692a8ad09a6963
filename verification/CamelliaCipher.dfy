/**
 The whole cipher of camellia.c: the key schedules, the two block routines and the transform context,
 each proved to compute what RFC 3713 says.
 */
module CamelliaCipher {
  import opened CamelliaWords
  import opened CamelliaSpec
  import opened CamelliaKeys
  import opened CamelliaCode
  import opened CamelliaProof
  import opened CamelliaSetup

  const NONE := Pair(ZERO, ZERO)

  // ---------------------------------------------------------------- CAMELLIA_F, KA and KB

  method CamelliaF(s: Sbox, x: W, k: W) returns (y: W)
    ensures y == F(s, x, k)
  {
    hide Xor, Ror8, Byte0, Byte1, Byte2, Byte3, SBox2, SBox3, SBox4, Sp1110, Sp0222, Sp3033, Sp4404, P;
    var il, ir := Xor(x.l, k.l), Xor(x.r, k.r);
    LookupIsP(S(s, W(il, ir)));
    var yl := Xor(Xor(Xor(Sp1110(s(Byte0(ir))), Sp0222(SBox2(s, Byte3(ir)))),
                    Sp3033(SBox3(s, Byte2(ir)))), Sp4404(SBox4(s, Byte1(ir))));
    var yr := Xor(Xor(Xor(Sp1110(s(Byte3(il))), Sp0222(SBox2(s, Byte2(il)))),
                    Sp3033(SBox3(s, Byte1(il)))), Sp4404(SBox4(s, Byte0(il))));
    XorComm(yl, yr);
    yl := Xor(yl, yr);
    yr := Ror8(yr);
    yr := Xor(yr, yl);
    y := W(yl, yr);
  }

  /** For a 128-bit key the first two rounds leave exactly F's values. */
  lemma {:induction false} KAOf128(s: Sbox, kl: Pair)
    ensures var w := F(s, kl.a, SIGMA1); var d1 := F(s, X(kl.b, w), SIGMA2);
            var d2 := X(F(s, d1, SIGMA3), w);
            KA(s, kl, NONE) == Pair(X(d1, F(s, d2, SIGMA4)), d2)
  {
    hide X, F;
    var w := F(s, kl.a, SIGMA1);
    var b := X(kl.b, w);
    var d1 := F(s, b, SIGMA2);
    XZero(kl.a);
    XZero(kl.b);
    XComm(kl.b, w);
    XCancel(w, kl.b);
    XComm(kl.a, d1);
    XCancel(d1, kl.a);
    XComm(w, F(s, d1, SIGMA3));
  }

  lemma {:induction false} KAOf256(s: Sbox, kl: Pair, kr: Pair)
    ensures var w := F(s, X(kl.a, kr.a), SIGMA1); var d1 := X(F(s, X(X(kl.b, kr.b), w), SIGMA2), kr.a);
            var d2 := X(F(s, d1, SIGMA3), X(w, kr.b));
            KA(s, kl, kr) == Pair(X(d1, F(s, d2, SIGMA4)), d2)
  {
    hide X, F;
    var w := F(s, X(kl.a, kr.a), SIGMA1);
    var b := X(X(kl.b, kr.b), w);
    var z := F(s, b, SIGMA2);
    LeaveOut(kl.a, kr.a, z);
    LeaveOut(kl.b, kr.b, w);
    XComm(kr.b, w);
    XComm(kr.a, z);
    var d1 := X(z, kr.a);
    XComm(X(w, kr.b), F(s, d1, SIGMA3));
  }

  lemma {:induction false} LeaveOut(a: W, b: W, z: W)
    ensures X(X(X(a, b), z), a) == X(b, z)
  {
    hide X;
    XAssoc(a, b, z);
    XComm(a, X(b, z));
    XCancel(X(b, z), a);
  }

  // ---------------------------------------------------------------- camellia_setup128

  method TurnKL128(kl: Pair) returns (k15: Pair, k45: Pair, k60: Pair, k77: Pair, k94: Pair, k111: Pair)
    ensures k15 == Rot(kl, 15) && k45 == Rot(kl, 45) && k60 == Rot(kl, 60)
    ensures k77 == Rot(kl, 77) && k94 == Rot(kl, 94) && k111 == Rot(kl, 111)
  {
    hide Rot, Roldq15, Roldq17, Roldq30;
    Roldq15Is(kl);
    k15 := Roldq15(kl);
    Roldq30Is(k15); Rot15_30(kl);
    k45 := Roldq30(k15);
    Roldq15Is(k45); Rot45_15(kl);
    k60 := Roldq15(k45);
    Roldq17Is(k60); Rot60_17(kl);
    k77 := Roldq17(k60);
    Roldq17Is(k77); Rot77_17(kl);
    k94 := Roldq17(k77);
    Roldq17Is(k94); Rot94_17(kl);
    k111 := Roldq17(k94);
  }

  method TurnKA128(ka: Pair) returns (k15: Pair, k30: Pair, k45: Pair, k60: Pair, k94: Pair, k111: Pair)
    ensures k15 == Rot(ka, 15) && k30 == Rot(ka, 30) && k45 == Rot(ka, 45)
    ensures k60 == Rot(ka, 60) && k94 == Rot(ka, 94) && k111 == Rot(ka, 111)
  {
    hide Rot, Roldq15, Roldq17, Roldq34;
    Roldq15Is(ka);
    k15 := Roldq15(ka);
    Roldq15Is(k15); Rot15_15(ka);
    k30 := Roldq15(k15);
    Roldq15Is(k30); Rot30_15(ka);
    k45 := Roldq15(k30);
    Roldq15Is(k45); Rot45_15(ka);
    k60 := Roldq15(k45);
    Roldq34Is(k60); Rot60_34(ka);
    k94 := Roldq34(k60);
    Roldq17Is(k94); Rot94_17(ka);
    k111 := Roldq17(k94);
  }

  /** KA of a 128-bit key. */
  method MakeKA128(s: Sbox, kl: Pair) returns (ka: Pair)
    ensures ka == KA(s, kl, NONE)
  {
    hide X, F, KA;
    KAOf128(s, kl);
    var w := CamelliaF(s, kl.a, SIGMA1);
    var d1 := CamelliaF(s, X(kl.b, w), SIGMA2);
    var d2 := CamelliaF(s, d1, SIGMA3);
    d2 := X(d2, w);
    w := CamelliaF(s, d2, SIGMA4);
    ka := Pair(X(d1, w), d2);
  }

  method Setup128(s: Sbox, kl: Pair, subkey: array<W>)
    requires subkey.Length > 24
    modifies subkey
    ensures IsTable(subkey[..], Subkeys128(kl, KA(s, kl, NONE)), 3)
  {
    hide Rot, IsTable, KA;
    var l15, l45, l60, l77, l94, l111 := TurnKL128(kl);
    var ka := MakeKA128(s, kl);
    var a15, a30, a45, a60, a94, a111 := TurnKA128(ka);
    var keys := [kl.a, kl.b,
                 ka.a, ka.b, l15.a, l15.b, a15.a, a15.b,
                 a30.a, a30.b,
                 l45.a, l45.b, a45.a, l60.b, a60.a, a60.b,
                 l77.a, l77.b,
                 l94.a, l94.b, a94.a, a94.b, l111.a, l111.b,
                 a111.a, a111.b];
    assert keys == Subkeys128(kl, ka);
    var sub := new W[26](i requires 0 <= i < 26 => keys[i]);
    assert sub[..] == keys;
    SetupTail(subkey, sub, 24);
  }

  // ---------------------------------------------------------------- camellia_setup256 and camellia_setup192

  method TurnKL256(kl: Pair) returns (k45: Pair, k60: Pair, k77: Pair, k111: Pair)
    ensures k45 == Rot(kl, 45) && k60 == Rot(kl, 60) && k77 == Rot(kl, 77) && k111 == Rot(kl, 111)
  {
    hide Rot, Roldq15, Roldq17, Roldq34, Roldq45;
    Roldq45Is(kl);
    k45 := Roldq45(kl);
    Roldq15Is(k45); Rot45_15(kl);
    k60 := Roldq15(k45);
    Roldq17Is(k60); Rot60_17(kl);
    k77 := Roldq17(k60);
    Roldq34Is(k77); Rot77_34(kl);
    k111 := Roldq34(k77);
  }

  /** After the last rotation KR is itself again, as the computation of KA needs it. */
  method TurnKR256(kr: Pair) returns (k15: Pair, k30: Pair, k60: Pair, k94: Pair, back: Pair)
    ensures k15 == Rot(kr, 15) && k30 == Rot(kr, 30) && k60 == Rot(kr, 60) && k94 == Rot(kr, 94) && back == kr
  {
    hide Rot, Roldq15, Roldq30, Roldq34;
    Roldq15Is(kr);
    k15 := Roldq15(kr);
    Roldq15Is(k15); Rot15_15(kr);
    k30 := Roldq15(k15);
    Roldq30Is(k30); Rot30_30(kr);
    k60 := Roldq30(k30);
    Roldq34Is(k60); Rot60_34(kr);
    k94 := Roldq34(k60);
    Roldq34Is(k94); RotFull(kr);
    back := Roldq34(k94);
  }

  method TurnKA256(ka: Pair) returns (k15: Pair, k45: Pair, k77: Pair, k94: Pair)
    ensures k15 == Rot(ka, 15) && k45 == Rot(ka, 45) && k77 == Rot(ka, 77) && k94 == Rot(ka, 94)
  {
    hide Rot, Roldq15, Roldq30, Roldq49;
    Roldq15Is(ka);
    k15 := Roldq15(ka);
    Roldq30Is(k15); Rot15_30(ka);
    k45 := Roldq30(k15);
    WordsTurned(k45); Rot45_32(ka);
    k77 := Pair(W(k45.a.r, k45.b.l), W(k45.b.r, k45.a.l));
    Roldq49Is(k45); Rot45_49(ka);
    k94 := Roldq49(k45);
  }

  method TurnKB256(kb: Pair) returns (k30: Pair, k60: Pair, k111: Pair)
    ensures k30 == Rot(kb, 30) && k60 == Rot(kb, 60) && k111 == Rot(kb, 111)
  {
    hide Rot, Roldq30, Roldq51;
    Roldq30Is(kb);
    k30 := Roldq30(kb);
    Roldq30Is(k30); Rot30_30(kb);
    k60 := Roldq30(k30);
    Roldq51Is(k60); Rot60_51(kb);
    k111 := Roldq51(k60);
  }

  method MakeKA256(s: Sbox, kl: Pair, kr: Pair) returns (ka: Pair)
    ensures ka == KA(s, kl, kr)
  {
    hide X, F, KA;
    KAOf256(s, kl, kr);
    var d1, d2 := X(kl.a, kr.a), X(kl.b, kr.b);
    var w := CamelliaF(s, d1, SIGMA1);
    d2 := X(d2, w);
    d1 := CamelliaF(s, d2, SIGMA2);
    d1 := X(d1, kr.a);
    d2 := CamelliaF(s, d1, SIGMA3);
    d2 := X(d2, X(w, kr.b));
    w := CamelliaF(s, d2, SIGMA4);
    ka := Pair(X(d1, w), d2);
  }

  method MakeKB256(s: Sbox, ka: Pair, kr: Pair) returns (kb: Pair)
    ensures kb == KB(s, ka, kr)
  {
    hide X, F;
    var d1, d2 := X(kr.a, ka.a), X(kr.b, ka.b);
    XComm(kr.a, ka.a);
    XComm(kr.b, ka.b);
    var w := CamelliaF(s, d1, SIGMA5);
    d2 := X(d2, w);
    w := CamelliaF(s, d2, SIGMA6);
    kb := Pair(X(d1, w), d2);
  }

  /** What RFC 3713 derives from a 192- or 256-bit key. */
  function LongSubkeys(s: Sbox, kl: Pair, kr: Pair): (r: seq<W>)
    ensures |r| == 34
  {
    Subkeys256(kl, kr, KA(s, kl, kr), KB(s, KA(s, kl, kr), kr))
  }

  method Setup256(s: Sbox, kl: Pair, kr: Pair, subkey: array<W>)
    requires subkey.Length > 32
    modifies subkey
    ensures IsTable(subkey[..], LongSubkeys(s, kl, kr), 4)
  {
    hide Rot, IsTable, KA, KB;
    var l45, l60, l77, l111 := TurnKL256(kl);
    var r15, r30, r60, r94, r := TurnKR256(kr);
    var ka := MakeKA256(s, kl, r);
    var kb := MakeKB256(s, ka, r);
    var a15, a45, a77, a94 := TurnKA256(ka);
    var b30, b60, b111 := TurnKB256(kb);
    var keys := [kl.a, kl.b,
                 kb.a, kb.b, r15.a, r15.b, a15.a, a15.b,
                 r30.a, r30.b,
                 b30.a, b30.b, l45.a, l45.b, a45.a, a45.b,
                 l60.a, l60.b,
                 r60.a, r60.b, b60.a, b60.b, l77.a, l77.b,
                 a77.a, a77.b,
                 r94.a, r94.b, a94.a, a94.b, l111.a, l111.b,
                 b111.a, b111.b];
    assert keys == LongSubkeys(s, kl, kr);
    var sub := new W[34](i requires 0 <= i < 34 => keys[i]);
    assert sub[..] == keys;
    SetupTail(subkey, sub, 32);
  }

  // ---------------------------------------------------------------- the block routines

  /** CAMELLIA_ROUNDSM */
  method Roundsm(s: Sbox, x: W, k: W, y: W) returns (r: W)
    ensures r == RoundSm(s, x, k, y)
  {
    hide Xor, Ror8, Byte0, Byte1, Byte2, Byte3, SBox2, SBox3, SBox4, Sp1110, Sp0222, Sp3033, Sp4404;
    var ir := Xor(Xor(Xor(Sp1110(s(Byte0(x.r))), Sp0222(SBox2(s, Byte3(x.r)))),
                    Sp3033(SBox3(s, Byte2(x.r)))), Sp4404(SBox4(s, Byte1(x.r))));
    var il := Xor(Xor(Xor(Sp1110(s(Byte3(x.l))), Sp0222(SBox2(s, Byte2(x.l)))),
                    Sp3033(SBox3(s, Byte1(x.l)))), Sp4404(SBox4(s, Byte0(x.l))));
    assert W(il, ir) == Lookup(S(s, x));
    il := Xor(il, k.l);
    XorAssoc(ir, il, k.r);
    XorComm(ir, il);
    XorAssoc(il, ir, k.r);
    ir := Xor(ir, Xor(il, k.r));
    r := W(Xor(y.l, ir), Xor(y.r, Xor(Ror8(il), ir)));
  }

  ghost function State(io: array<bv32>): Pair
    requires io.Length == 4
    reads io
  {
    Pair(W(io[0], io[1]), W(io[2], io[3]))
  }

  /** A round from the left half into the right one, and one back. */
  method TwoRounds(s: Sbox, io: array<bv32>, k1: W, k2: W)
    requires io.Length == 4
    modifies io
    ensures State(io) == CodeTwo(s, old(State(io)), k1, k2)
  {
    hide RoundSm;
    var b := Roundsm(s, W(io[0], io[1]), k1, W(io[2], io[3]));
    io[2], io[3] := b.l, b.r;
    var a := Roundsm(s, W(io[2], io[3]), k2, W(io[0], io[1]));
    io[0], io[1] := a.l, a.r;
  }

  /** CAMELLIA_FLS */
  method FlLayer(io: array<bv32>, k1: W, k2: W)
    requires io.Length == 4
    modifies io
    ensures State(io) == Layer(old(State(io)), k1, k2)
  {
    hide Xor, And, Or, Rol1;
    var t0 := And(io[0], k1.l);
    var t2 := Or(io[3], k2.r);
    io[2] := Xor(io[2], t2);
    io[1] := Xor(io[1], Rol1(t0));
    var t3 := And(io[2], k2.l);
    var t1 := Or(io[1], k1.r);
    io[0] := Xor(io[0], t1);
    io[3] := Xor(io[3], Rol1(t3));
  }

  method Rounds(s: Sbox, subkey: array<W>, io: array<bv32>, i: nat)
    requires io.Length == 4 && i + 6 <= subkey.Length
    modifies io
    ensures State(io) == CodeSix(s, subkey[..], i, old(State(io)))
  {
    hide CodeTwo, State;
    TwoRounds(s, io, subkey[i], subkey[i + 1]);
    TwoRounds(s, io, subkey[i + 2], subkey[i + 3]);
    TwoRounds(s, io, subkey[i + 4], subkey[i + 5]);
  }

  method RoundsBack(s: Sbox, subkey: array<W>, io: array<bv32>, i: nat)
    requires io.Length == 4 && i + 6 <= subkey.Length
    modifies io
    ensures State(io) == BackSix(s, subkey[..], i, old(State(io)))
  {
    hide CodeTwo, State;
    TwoRounds(s, io, subkey[i + 5], subkey[i + 4]);
    TwoRounds(s, io, subkey[i + 3], subkey[i + 2]);
    TwoRounds(s, io, subkey[i + 1], subkey[i]);
  }

  lemma {:induction false} ThreeGroups(s: Sbox, tbl: seq<W>, g: nat, d: Pair)
    requires (g == 3 || g == 4) && |tbl| > 8 * g
    ensures var e0 := Layer(CodeSix(s, tbl, 2, d), tbl[8], tbl[9]);
            var e1 := Layer(CodeSix(s, tbl, 10, e0), tbl[16], tbl[17]);
            var e2 := CodeSix(s, tbl, 18, e1);
            CodeGroups(s, tbl, g, 0, d) ==
            if g == 3 then e2 else CodeSix(s, tbl, 26, Layer(e2, tbl[24], tbl[25]))
  {
    hide CodeSix, Layer;
    var e0 := Layer(CodeSix(s, tbl, 2, d), tbl[8], tbl[9]);
    var e1 := Layer(CodeSix(s, tbl, 10, e0), tbl[16], tbl[17]);
    assert CodeGroups(s, tbl, g, 0, d) == CodeGroups(s, tbl, g, 1, e0);
    assert CodeGroups(s, tbl, g, 1, e0) == CodeGroups(s, tbl, g, 2, e1);
  }

  lemma {:induction false} ThreeGroupsBack(s: Sbox, tbl: seq<W>, g: nat, d: Pair)
    requires (g == 3 || g == 4) && |tbl| > 8 * g
    ensures var e := if g == 3 then d else Layer(BackSix(s, tbl, 26, d), tbl[25], tbl[24]);
            var e1 := Layer(BackSix(s, tbl, 18, e), tbl[17], tbl[16]);
            var e0 := Layer(BackSix(s, tbl, 10, e1), tbl[9], tbl[8]);
            BackGroups(s, tbl, g - 1, d) == BackSix(s, tbl, 2, e0)
  {
    hide BackSix, Layer;
    var e := if g == 3 then d else Layer(BackSix(s, tbl, 26, d), tbl[25], tbl[24]);
    var e1 := Layer(BackSix(s, tbl, 18, e), tbl[17], tbl[16]);
    assert BackGroups(s, tbl, g - 1, d) == BackGroups(s, tbl, 2, e);
    assert BackGroups(s, tbl, 2, e) == BackGroups(s, tbl, 1, e1);
  }

  method XorInto(io: array<bv32>, i: nat, k: W)
    requires io.Length == 4 && (i == 0 || i == 2)
    modifies io
    ensures var d := old(State(io)); State(io) == if i == 0 then Pair(X(d.a, k), d.b) else Pair(d.a, X(d.b, k))
  {
    hide Xor;
    io[i] := Xor(io[i], k.l);
    io[i + 1] := Xor(io[i + 1], k.r);
  }

  /** camellia_do_encrypt; the caller exchanges the halves. */
  method DoEncrypt(s: Sbox, subkey: array<W>, io: array<bv32>, max: nat)
    requires io.Length == 4 && (max == 24 || max == 32) && subkey.Length > max
    modifies io
    ensures Swap(State(io)) == CodeEncrypt(s, subkey[..], max / 8, old(State(io)))
  {
    hide X, CodeSix, Layer, CodeGroups, State;
    XorInto(io, 0, subkey[0]);
    ThreeGroups(s, subkey[..], max / 8, State(io));
    Rounds(s, subkey, io, 2);
    FlLayer(io, subkey[8], subkey[9]);
    Rounds(s, subkey, io, 10);
    FlLayer(io, subkey[16], subkey[17]);
    Rounds(s, subkey, io, 18);
    if max == 32 {
      FlLayer(io, subkey[24], subkey[25]);
      Rounds(s, subkey, io, 26);
    }
    XorInto(io, 2, subkey[max]);
  }

  /** camellia_do_decrypt */
  method DoDecrypt(s: Sbox, subkey: array<W>, io: array<bv32>, max: nat)
    requires io.Length == 4 && (max == 24 || max == 32) && subkey.Length > max
    modifies io
    ensures Swap(State(io)) == CodeDecrypt(s, subkey[..], max / 8, old(State(io)))
  {
    hide X, BackSix, Layer, BackGroups, State;
    XorInto(io, 0, subkey[max]);
    ThreeGroupsBack(s, subkey[..], max / 8, State(io));
    if max == 32 {
      RoundsBack(s, subkey, io, 26);
      FlLayer(io, subkey[25], subkey[24]);
    }
    RoundsBack(s, subkey, io, 18);
    FlLayer(io, subkey[17], subkey[16]);
    RoundsBack(s, subkey, io, 10);
    FlLayer(io, subkey[9], subkey[8]);
    RoundsBack(s, subkey, io, 2);
    XorInto(io, 2, subkey[0]);
  }

  // ---------------------------------------------------------------- the transform context

  /** get_unaligned_be32 */
  function Load(key: seq<bv8>, i: nat): bv32
    requires i + 4 <= |key|
  {
    Word(key[i], key[i + 1], key[i + 2], key[i + 3])
  }

  function Load64(key: seq<bv8>, i: nat): W
    requires i + 8 <= |key|
  {
    W(Load(key, i), Load(key, i + 4))
  }

  predicate KeySize(n: nat) {
    n == 16 || n == 24 || n == 32
  }

  function GroupsFor(n: nat): nat {
    if n == 16 then 3 else 4
  }

  /** KL and KR: the right half of a 192-bit key is completed by its complement. */
  function KL(key: seq<bv8>): Pair
    requires KeySize(|key|)
  {
    Pair(Load64(key, 0), Load64(key, 8))
  }

  function KR(key: seq<bv8>): Pair
    requires |key| == 24 || |key| == 32
  {
    var a := Load64(key, 16);
    Pair(a, if |key| == 32 then Load64(key, 24) else W(Not(a.l), Not(a.r)))
  }

  /** The subkeys RFC 3713 derives from a key. */
  function Subkeys(s: Sbox, key: seq<bv8>): (r: seq<W>)
    requires KeySize(|key|)
    ensures |r| == 8 * GroupsFor(|key|) + 2
  {
    if |key| == 16 then Subkeys128(KL(key), KA(s, KL(key), NONE)) else LongSubkeys(s, KL(key), KR(key))
  }

  class Context {
    const s: Sbox
    var keyLength: nat
    var keyTable: array<W>
    ghost var key: seq<bv8>

    constructor (s: Sbox)
      ensures this.s == s && fresh(keyTable) && keyTable.Length == 34
    {
      this.s := s;
      keyLength := 0;
      key := [];
      keyTable := new W[34](i => ZERO);
    }

    /** A key has been set. */
    ghost predicate Valid()
      reads this, keyTable
    {
      && keyTable.Length == 34 && KeySize(|key|) && keyLength == |key|
      && IsTable(keyTable[..], Subkeys(s, key), GroupsFor(|key|))
    }

    /** camellia_set_key */
    method SetKey(k: seq<bv8>) returns (ok: bool)
      requires keyTable.Length == 34
      modifies this`keyLength, this`key, keyTable
      ensures ok <==> KeySize(|k|)
      ensures ok ==> Valid() && key == k
      ensures !ok ==> keyLength == old(keyLength) && key == old(key) && keyTable[..] == old(keyTable[..])
    {
      hide IsTable, KA, Subkeys128, LongSubkeys, Not, Load64;
      if |k| != 16 && |k| != 24 && |k| != 32 { return false; }
      keyLength := |k|;
      key := k;
      if |k| == 16 {
        Setup128(s, KL(k), keyTable);
      } else {
        Setup256(s, KL(k), KR(k), keyTable);
      }
      ok := true;
    }

    /** camellia_encrypt on a block of four words */
    method EncryptBlock(m: Pair) returns (c: Pair)
      requires Valid()
      ensures c == Encrypt(s, Subkeys(s, key), GroupsFor(|key|), m)
    {
      hide IsTable, Subkeys, CodeEncrypt, Encrypt;
      var io := new bv32[] [m.a.l, m.a.r, m.b.l, m.b.r];
      DoEncrypt(s, keyTable, io, if keyLength == 16 then 24 else 32);
      EncryptAgrees(s, keyTable[..], Subkeys(s, key), GroupsFor(|key|), m);
      c := Pair(W(io[2], io[3]), W(io[0], io[1]));
    }

    /** camellia_decrypt: the block whose encryption is c. */
    method DecryptBlock(c: Pair) returns (m: Pair)
      requires Valid()
      ensures Encrypt(s, Subkeys(s, key), GroupsFor(|key|), m) == c
      ensures forall p: Pair :: Encrypt(s, Subkeys(s, key), GroupsFor(|key|), p) == c ==> p == m
    {
      hide IsTable, Subkeys, CodeEncrypt, CodeDecrypt, Encrypt;
      var io := new bv32[] [c.a.l, c.a.r, c.b.l, c.b.r];
      DoDecrypt(s, keyTable, io, if keyLength == 16 then 24 else 32);
      m := Pair(W(io[2], io[3]), W(io[0], io[1]));
      ghost var tbl, g := keyTable[..], GroupsFor(|key|);
      EncryptAgrees(s, tbl, Subkeys(s, key), g, m);
      EncryptInverts(s, tbl, g, c);
      forall p: Pair | Encrypt(s, Subkeys(s, key), g, p) == c
        ensures p == m
      {
        EncryptAgrees(s, tbl, Subkeys(s, key), g, p);
        DecryptInverts(s, tbl, g, p);
      }
    }
  }
}
