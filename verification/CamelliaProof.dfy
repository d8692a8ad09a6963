/**
 Why the cipher of camellia.c, with its absorbed subkeys, is the cipher of RFC 3713.
 */
module CamelliaProof {
  import opened CamelliaWords
  import opened CamelliaSpec
  import opened CamelliaCode

  lemma {:induction false} QInverts(k: W)
    ensures Q(QInverse(k)) == k
  {
    hide Xor, Rol8, Ror8;
    var dw := Rol8(Xor(k.l, k.r));
    XorComm(dw, Xor(k.l, dw));
    XorCancel(k.l, dw);
    Ror8Rol8(Xor(k.l, k.r));
    XorComm(Xor(k.l, k.r), k.l);
    XorAssoc(k.l, k.l, k.r);
    XorZero(k.l);
    XorComm(0, k.r);
    XorZero(k.r);
  }

  lemma {:induction false} QLinear(a: W, b: W)
    ensures Q(X(a, b)) == X(Q(a), Q(b))
  {
    hide Xor, Ror8;
    Ror8Xor(a.l, b.l);
    XorSwap(a.l, b.l, a.r, b.r);
    XorSwap(Ror8(a.l), Ror8(b.l), Xor(a.l, a.r), Xor(b.l, b.r));
  }

  lemma {:induction false} XorSwap(a: bv32, b: bv32, c: bv32, d: bv32)
    ensures Xor(Xor(a, b), Xor(c, d)) == Xor(Xor(a, c), Xor(b, d))
  {
    hide Xor;
    XorAssoc(a, b, Xor(c, d));
    XorAssoc(b, c, d);
    XorComm(b, c);
    XorAssoc(c, b, d);
    XorAssoc(a, c, Xor(b, d));
  }

  /** Xor of four table entries, byte by byte. */
  lemma {:induction false} FourEntries(t1: bv8, t2: bv8, t3: bv8, t4: bv8)
    ensures Xor(Xor(Xor(Sp1110(t1), Sp0222(t2)), Sp3033(t3)), Sp4404(t4)) ==
            Word(X3(t1, t3, t4), X3(t1, t2, t4), X3(t1, t2, t3), X3(t2, t3, t4))
  {
    hide Xor, Word, Xb;
    XbZero(t1);
    XbZero(t2);
    XbZero(Xb(t1, t2));
    XbZero(X3(t1, t2, t3));
    WordXor(t1, t1, t1, 0, 0, t2, t2, t2);
    WordXor(t1, Xb(t1, t2), Xb(t1, t2), t2, t3, 0, t3, t3);
    WordXor(Xb(t1, t3), Xb(t1, t2), X3(t1, t2, t3), Xb(t2, t3), t4, t4, 0, t4);
  }

  lemma {:induction false} Byte5(t1: bv8, t2: bv8, t3: bv8, t4: bv8, t6: bv8, t7: bv8, t8: bv8)
    ensures Xb(X3(t2, t3, t4), Xb(X3(t1, t3, t4), X3(t8, t6, t7))) == X5(t1, t2, t6, t7, t8)
  {
    hide Xb;
    X3Turns(t2, t3, t4);
    X3Turns(t1, t3, t4);
    XbShared(t2, t1, Xb(t3, t4), X3(t8, t6, t7));
    XbComm(t1, t2);
    X3Append(Xb(t1, t2), t8, t6, t7);
  }

  lemma {:induction false} Byte6(t1: bv8, t2: bv8, t3: bv8, t4: bv8, t5: bv8, t7: bv8, t8: bv8)
    ensures Xb(X3(t1, t3, t4), Xb(X3(t1, t2, t4), X3(t8, t5, t7))) == X5(t2, t3, t5, t7, t8)
  {
    hide Xb;
    X3Turns(t1, t3, t4);
    X3Turns(t1, t2, t4);
    XbShared(t3, t2, Xb(t1, t4), X3(t8, t5, t7));
    XbComm(t2, t3);
    X3Append(Xb(t2, t3), t8, t5, t7);
  }

  lemma {:induction false} Byte7(t1: bv8, t2: bv8, t3: bv8, t4: bv8, t5: bv8, t6: bv8, t8: bv8)
    ensures Xb(X3(t1, t2, t4), Xb(X3(t1, t2, t3), X3(t8, t5, t6))) == X5(t3, t4, t5, t6, t8)
  {
    hide Xb;
    X3Turns(t1, t2, t4);
    X3Turns(t1, t2, t3);
    XbShared(t4, t3, Xb(t1, t2), X3(t8, t5, t6));
    XbComm(t3, t4);
    X3Append(Xb(t3, t4), t8, t5, t6);
  }

  lemma {:induction false} Byte8(t1: bv8, t2: bv8, t3: bv8, t4: bv8, t5: bv8, t6: bv8, t7: bv8)
    ensures Xb(X3(t1, t2, t3), Xb(X3(t2, t3, t4), X3(t5, t6, t7))) == X5(t1, t4, t5, t6, t7)
  {
    hide Xb;
    X3Turns(t1, t2, t3);
    X3Turns(t2, t3, t4);
    XbShared(t1, t4, Xb(t2, t3), X3(t5, t6, t7));
    X3Append(Xb(t1, t4), t5, t6, t7);
  }

  /** The tables and the last half of P are S-boxes and P. */
  lemma {:induction false} LookupIsP(t: T)
    ensures Q(Lookup(t)) == P(t)
  {
    hide Xor, Word, Ror8, Xb, X3, Sp1110, Sp0222, Sp3033, Sp4404;
    var l3, l2, l1, l0 := X3(t.t1, t.t3, t.t4), X3(t.t1, t.t2, t.t4), X3(t.t1, t.t2, t.t3), X3(t.t2, t.t3, t.t4);
    var r3, r2, r1, r0 := X3(t.t8, t.t6, t.t7), X3(t.t8, t.t5, t.t7), X3(t.t8, t.t5, t.t6), X3(t.t5, t.t6, t.t7);
    FourEntries(t.t1, t.t2, t.t3, t.t4);
    FourEntries(t.t8, t.t5, t.t6, t.t7);
    WordXor(l3, l2, l1, l0, r3, r2, r1, r0);
    WordRor8(l3, l2, l1, l0);
    WordXor(l0, l3, l2, l1, Xb(l3, r3), Xb(l2, r2), Xb(l1, r1), Xb(l0, r0));
    X3Append(l3, t.t8, t.t6, t.t7);
    X3Append(l2, t.t8, t.t5, t.t7);
    X3Append(l1, t.t8, t.t5, t.t6);
    X3Append(l0, t.t5, t.t6, t.t7);
    Byte5(t.t1, t.t2, t.t3, t.t4, t.t6, t.t7, t.t8);
    Byte6(t.t1, t.t2, t.t3, t.t4, t.t5, t.t7, t.t8);
    Byte7(t.t1, t.t2, t.t3, t.t4, t.t5, t.t6, t.t8);
    Byte8(t.t1, t.t2, t.t3, t.t4, t.t5, t.t6, t.t7);
  }

  /** A round of camellia.c with a stored key is the F-function of RFC 3713, key last. */
  lemma {:induction false} RoundSmIs(s: Sbox, x: W, k: W, y: W)
    ensures RoundSm(s, x, QInverse(k), y) == X(X(y, F0(s, x)), k)
  {
    hide Q, QInverse, Lookup, P, S, X;
    LookupIsP(S(s, x));
    QLinear(Lookup(S(s, x)), QInverse(k));
    QInverts(k);
    XAssoc(y, F0(s, x), k);
  }

  // ---------------------------------------------------------------- differences through FL and FLINV

  lemma {:induction false} FLDifference(x: W, a: W, k: W)
    ensures FL(X(x, G(k, a)), k) == X(FL(x, k), a)
  {
    hide Xor, And, Or, Not, Rol1;
    var m := And(a.r, Not(k.r));
    var gl := Xor(a.l, m);
    var turned := Rol1(And(gl, k.l));
    var gr := Xor(a.r, turned);
    var r := Xor(x.r, Rol1(And(x.l, k.l)));
    AndXor(x.l, gl, k.l);
    Rol1Xor(And(x.l, k.l), And(gl, k.l));
    XorSwap(x.r, gr, Rol1(And(x.l, k.l)), turned);
    XorCancel(a.r, turned);
    OrXor(r, a.r, k.r);
    XorSwap(x.l, gl, Or(r, k.r), m);
    XorCancel(a.l, m);
  }

  lemma {:induction false} FLInvDifference(y: W, a: W, k: W)
    ensures FLInv(X(y, a), k) == X(FLInv(y, k), G(k, a))
  {
    hide Xor, And, Or, Not, Rol1;
    var m := And(a.r, Not(k.r));
    var gl := Xor(a.l, m);
    var l := Xor(y.l, Or(y.r, k.r));
    OrXor(y.r, a.r, k.r);
    XorSwap(y.l, a.l, Or(y.r, k.r), m);
    AndXor(l, gl, k.l);
    Rol1Xor(And(l, k.l), And(gl, k.l));
    XorSwap(y.r, a.r, Rol1(And(l, k.l)), Rol1(And(gl, k.l)));
  }

  lemma {:induction false} GLinear(k: W, a: W, b: W)
    ensures G(k, X(a, b)) == X(G(k, a), G(k, b))
  {
    hide Xor, And, Not, Rol1;
    var ma, mb := And(a.r, Not(k.r)), And(b.r, Not(k.r));
    var la, lb := Xor(a.l, ma), Xor(b.l, mb);
    AndXor(a.r, b.r, Not(k.r));
    XorSwap(a.l, b.l, ma, mb);
    AndXor(la, lb, k.l);
    Rol1Xor(And(la, k.l), And(lb, k.l));
    XorSwap(a.r, b.r, Rol1(And(la, k.l)), Rol1(And(lb, k.l)));
  }

  lemma {:induction false} FLInverts(x: W, k: W)
    ensures FLInv(FL(x, k), k) == x && FL(FLInv(x, k), k) == x
  {
    hide Xor, And, Or, Rol1;
    var r := Xor(x.r, Rol1(And(x.l, k.l)));
    XorCancel(x.l, Or(r, k.r));
    XorCancel(x.r, Rol1(And(x.l, k.l)));
    var l := Xor(x.l, Or(x.r, k.r));
    XorCancel(x.r, Rol1(And(l, k.l)));
    XorCancel(x.l, Or(x.r, k.r));
  }

  // ---------------------------------------------------------------- two rounds

  lemma {:induction false} TwoAgree(s: Sbox, d: Pair, k1: W, k2: W, o: W, ka: W, kb: W)
    requires X(o, ka) == k2
    ensures var e := Two(s, d, k1, k2);
            CodeTwo(s, Pair(X(d.a, k1), X(d.b, o)), QInverse(ka), QInverse(kb)) ==
            Pair(X(e.a, X(k1, kb)), X(e.b, k2))
  {
    hide X, F0, RoundSm, QInverse;
    var f1 := F0(s, X(d.a, k1));
    var b := X(d.b, f1);
    RoundSmIs(s, X(d.a, k1), ka, X(d.b, o));
    XSwap(d.b, o, f1, ka);
    var f2 := F0(s, X(b, k2));
    RoundSmIs(s, X(b, k2), kb, X(d.a, k1));
    XSwap(d.a, k1, f2, kb);
  }

  /** What an absorbed key and its neighbour leave. */
  lemma {:induction false} Absorbed(k1: W, k3: W, c: W)
    ensures X(k1, X(X(k1, c), X(k3, c))) == k3
    ensures X(c, X(k3, c)) == k3 && X(k1, X(k1, c)) == c
  {
    hide X;
    XOffset(k1, k3, c);
    XAbsorb(k1, k3);
    XComm(k3, c);
    XAbsorb(c, k3);
    XAbsorb(k1, c);
  }

  lemma {:induction false} XAbsorb(a: W, b: W)
    ensures X(a, X(a, b)) == b
  {
  }

  // ---------------------------------------------------------------- six rounds

  /** The difference the right half carries into a group. */
  function Carried(sub: seq<W>, j: nat): W
    requires 8 * j + 1 < |sub|
  {
    if j == 0 then sub[1] else G(sub[8 * j + 1], sub[8 * j - 1])
  }

  lemma {:induction false} FirstKeyIs(sub: seq<W>, j: nat)
    requires 8 * j + 8 <= |sub|
    ensures X(Carried(sub, j), FirstKey(sub, j)) == sub[8 * j + 3]
  {
    hide X, G;
    if j == 0 {
      Absorbed(sub[1], sub[3], sub[1]);
    } else {
      var ke, k6, d := sub[8 * j + 1], sub[8 * j - 1], Kw2(sub, j - 1);
      assert Even(sub, j - 1, 7) == X(k6, d);
      GLinear(ke, k6, d);
      Absorbed(G(ke, k6), sub[8 * j + 3], G(ke, d));
    }
  }

  lemma {:induction false} LastKeyIs(sub: seq<W>, g: nat, j: nat)
    requires j < g && |sub| == 8 * g + 2
    ensures X(sub[8 * j + 6], LastKey(sub, g, j)) ==
            if j + 1 == g then sub[8 * g + 1] else G(sub[8 * j + 8], sub[8 * j + 10])
  {
    hide X, G;
    var k5, c := sub[8 * j + 6], Kw4(sub, g, j);
    if j + 1 == g {
      Absorbed(k5, k5, c);
    } else {
      var ke, k7, c1 := sub[8 * j + 8], sub[8 * j + 10], Kw4(sub, g, j + 1);
      assert Odd(sub, g, j + 1, 2) == X(k7, c1);
      GLinear(ke, k7, c1);
      Absorbed(k5, G(ke, k7), c);
    }
  }

  lemma {:induction false} SixAgree(s: Sbox, tbl: seq<W>, sub: seq<W>, g: nat, j: nat, d: Pair)
    requires IsTable(tbl, sub, g) && j < g
    ensures var e := Six(s, sub, 8 * j + 2, d);
            CodeSix(s, tbl, 8 * j + 2, Pair(X(d.a, sub[8 * j + 2]), X(d.b, Carried(sub, j)))) ==
            Pair(X(e.a, X(sub[8 * j + 6], LastKey(sub, g, j))), X(e.b, sub[8 * j + 7]))
  {
    hide X, G, Two, CodeTwo, QInverse, FirstKey, LastKey, Carried, Kw2, Kw4;
    assert GroupKeys(tbl, sub, g, j);
    var i := 8 * j + 2;
    var c2, c4 := Kw2(sub, j), Kw4(sub, g, j);
    var e1 := Two(s, d, sub[i], sub[i + 1]);
    var e2 := Two(s, e1, sub[i + 2], sub[i + 3]);
    FirstKeyIs(sub, j);
    Absorbed(sub[i], sub[i + 2], c4);
    TwoAgree(s, d, sub[i], sub[i + 1], Carried(sub, j), FirstKey(sub, j), X(X(sub[i], c4), X(sub[i + 2], c4)));
    Absorbed(sub[i + 1], sub[i + 3], c2);
    Absorbed(sub[i + 2], sub[i + 4], c4);
    TwoAgree(s, e1, sub[i + 2], sub[i + 3], sub[i + 1], X(X(sub[i + 1], c2), X(sub[i + 3], c2)),
             X(X(sub[i + 2], c4), X(sub[i + 4], c4)));
    Absorbed(sub[i + 3], sub[i + 5], c2);
    TwoAgree(s, e2, sub[i + 4], sub[i + 5], sub[i + 3], X(X(sub[i + 3], c2), X(sub[i + 5], c2)), LastKey(sub, g, j));
  }

  // ---------------------------------------------------------------- the cipher

  lemma {:induction false} LayerAgree(e: Pair, ke: W, kf: W, k7: W, k6: W)
    ensures var n := Layer(e, ke, kf);
            Layer(Pair(X(e.a, G(ke, k7)), X(e.b, k6)), ke, kf) == Pair(X(n.a, k7), X(n.b, G(kf, k6)))
  {
    hide X, G, FL, FLInv;
    FLDifference(e.a, k7, ke);
    FLInvDifference(e.b, k6, kf);
  }

  lemma {:induction false} GroupsAgree(s: Sbox, tbl: seq<W>, sub: seq<W>, g: nat, j: nat, d: Pair)
    requires IsTable(tbl, sub, g) && j < g
    ensures var e := Groups(s, sub, g, j, d);
            CodeGroups(s, tbl, g, j, Pair(X(d.a, sub[8 * j + 2]), X(d.b, Carried(sub, j)))) ==
            Pair(X(e.a, sub[8 * g + 1]), X(e.b, sub[8 * g - 1]))
    decreases g - j
  {
    hide X, G, Six, CodeSix, Layer, FirstKey, LastKey, QInverse, Kw2, Kw4;
    assert GroupKeys(tbl, sub, g, j);
    var e := Six(s, sub, 8 * j + 2, d);
    SixAgree(s, tbl, sub, g, j, d);
    LastKeyIs(sub, g, j);
    if j + 1 < g {
      LayerAgree(e, sub[8 * j + 8], sub[8 * j + 9], sub[8 * j + 10], sub[8 * j + 7]);
      GroupsAgree(s, tbl, sub, g, j + 1, Layer(e, sub[8 * j + 8], sub[8 * j + 9]));
    }
  }

  /** With any subkeys, for 18 and for 24 rounds, camellia.c encrypts as RFC 3713 does. */
  lemma {:induction false} EncryptAgrees(s: Sbox, tbl: seq<W>, sub: seq<W>, g: nat, m: Pair)
    requires IsTable(tbl, sub, g)
    ensures CodeEncrypt(s, tbl, g, m) == Encrypt(s, sub, g, m)
  {
    hide X, G, Groups, CodeGroups, Kw2, Kw4, QInverse, GroupKeys;
    var c, d := Kw4(sub, g, 0), Kw2(sub, g - 1);
    XOffset(sub[0], sub[2], c);
    XAssoc(m.a, sub[0], sub[2]);
    XCancel(m.b, sub[1]);
    GroupsAgree(s, tbl, sub, g, 0, Pair(X(m.a, sub[0]), X(m.b, sub[1])));
    var e := Groups(s, sub, g, 0, Pair(X(m.a, sub[0]), X(m.b, sub[1])));
    var k := sub[8 * g - 1];
    assert Even(sub, g - 1, 7) == X(k, d);
    XOffset(sub[8 * g], k, d);
    XComm(sub[8 * g], k);
    XAssoc(e.b, k, X(k, sub[8 * g]));
    XAbsorb(k, sub[8 * g]);
  }

  // ---------------------------------------------------------------- decryption

  function Swap(d: Pair): Pair {
    Pair(d.b, d.a)
  }

  lemma {:induction false} TwoUndone(s: Sbox, d: Pair, k1: W, k2: W)
    ensures CodeTwo(s, Swap(CodeTwo(s, d, k1, k2)), k2, k1) == Swap(d)
  {
    hide X, Q, Lookup, S;
    var z1 := Q(X(Lookup(S(s, d.a)), k1));
    XCancel(d.b, z1);
    var b := X(d.b, z1);
    XCancel(d.a, Q(X(Lookup(S(s, b)), k2)));
  }

  lemma {:induction false} SixUndone(s: Sbox, tbl: seq<W>, i: nat, d: Pair)
    requires i + 6 <= |tbl|
    ensures BackSix(s, tbl, i, Swap(CodeSix(s, tbl, i, d))) == Swap(d)
  {
    hide CodeTwo;
    var d1 := CodeTwo(s, d, tbl[i], tbl[i + 1]);
    var d2 := CodeTwo(s, d1, tbl[i + 2], tbl[i + 3]);
    TwoUndone(s, d2, tbl[i + 4], tbl[i + 5]);
    TwoUndone(s, d1, tbl[i + 2], tbl[i + 3]);
    TwoUndone(s, d, tbl[i], tbl[i + 1]);
  }

  /** Running back over the groups from j on leaves what the groups before j have to undo. */
  lemma {:induction false} GroupsUndone(s: Sbox, tbl: seq<W>, g: nat, j: nat, d: Pair)
    requires j < g && |tbl| > 8 * g
    ensures BackGroups(s, tbl, g - 1, Swap(CodeGroups(s, tbl, g, j, d))) ==
            if j == 0 then Swap(d) else BackGroups(s, tbl, j - 1, Layer(Swap(d), tbl[8 * j + 1], tbl[8 * j]))
    decreases g - j
  {
    hide CodeSix, BackSix, FL, FLInv;
    var e := CodeSix(s, tbl, 8 * j + 2, d);
    SixUndone(s, tbl, 8 * j + 2, d);
    if j + 1 < g {
      FLInverts(e.a, tbl[8 * j + 8]);
      FLInverts(e.b, tbl[8 * j + 9]);
      GroupsUndone(s, tbl, g, j + 1, Layer(e, tbl[8 * j + 8], tbl[8 * j + 9]));
    }
  }

  /** Whatever is in the key table, camellia_do_decrypt undoes camellia_do_encrypt. */
  lemma {:induction false} DecryptInverts(s: Sbox, tbl: seq<W>, g: nat, m: Pair)
    requires g > 0 && |tbl| > 8 * g
    ensures CodeDecrypt(s, tbl, g, CodeEncrypt(s, tbl, g, m)) == m
  {
    hide X, CodeGroups, BackGroups;
    var d := CodeGroups(s, tbl, g, 0, Pair(X(m.a, tbl[0]), m.b));
    XCancel(d.b, tbl[8 * g]);
    GroupsUndone(s, tbl, g, 0, Pair(X(m.a, tbl[0]), m.b));
    XCancel(m.a, tbl[0]);
  }

  lemma {:induction false} SixRedone(s: Sbox, tbl: seq<W>, i: nat, d: Pair)
    requires i + 6 <= |tbl|
    ensures CodeSix(s, tbl, i, Swap(BackSix(s, tbl, i, d))) == Swap(d)
  {
    hide CodeTwo;
    var d1 := CodeTwo(s, d, tbl[i + 5], tbl[i + 4]);
    var d2 := CodeTwo(s, d1, tbl[i + 3], tbl[i + 2]);
    TwoUndone(s, d2, tbl[i + 1], tbl[i]);
    TwoUndone(s, d1, tbl[i + 3], tbl[i + 2]);
    TwoUndone(s, d, tbl[i + 5], tbl[i + 4]);
  }

  /** Running forward over the groups up to j leaves what the groups behind j have to do. */
  lemma {:induction false} GroupsRedone(s: Sbox, tbl: seq<W>, g: nat, j: nat, d: Pair)
    requires j < g && |tbl| > 8 * g
    ensures CodeGroups(s, tbl, g, 0, Swap(BackGroups(s, tbl, j, d))) ==
            if j + 1 == g then Swap(d) else CodeGroups(s, tbl, g, j + 1, Layer(Swap(d), tbl[8 * j + 8], tbl[8 * j + 9]))
    decreases j
  {
    hide CodeSix, BackSix, FL, FLInv;
    var e := BackSix(s, tbl, 8 * j + 2, d);
    SixRedone(s, tbl, 8 * j + 2, d);
    if j > 0 {
      FLInverts(e.a, tbl[8 * j + 1]);
      FLInverts(e.b, tbl[8 * j]);
      GroupsRedone(s, tbl, g, j - 1, Layer(e, tbl[8 * j + 1], tbl[8 * j]));
    }
  }

  /** And the other way round: every block is the encryption of what it decrypts to. */
  lemma {:induction false} EncryptInverts(s: Sbox, tbl: seq<W>, g: nat, c: Pair)
    requires g > 0 && |tbl| > 8 * g
    ensures CodeEncrypt(s, tbl, g, CodeDecrypt(s, tbl, g, c)) == c
  {
    hide X, CodeGroups, BackGroups;
    var d := BackGroups(s, tbl, g - 1, Pair(X(c.a, tbl[8 * g]), c.b));
    XCancel(d.b, tbl[0]);
    GroupsRedone(s, tbl, g, g - 1, Pair(X(c.a, tbl[8 * g]), c.b));
    XCancel(c.a, tbl[8 * g]);
  }
}
