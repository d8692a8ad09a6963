/**
 What camellia.c computes: rounds by table lookup, subkeys with kw2 and kw4 absorbed into them, and
 the same network run backwards.
 */
module CamelliaCode {
  import opened CamelliaWords
  import opened CamelliaSpec

  // ---------------------------------------------------------------- a round

  function Sp1110(t: bv8): bv32 { Word(t, t, t, 0) }
  function Sp0222(t: bv8): bv32 { Word(0, t, t, t) }
  function Sp3033(t: bv8): bv32 { Word(t, 0, t, t) }
  function Sp4404(t: bv8): bv32 { Word(t, t, 0, t) }

  /** The table lookups on the left and on the right word. */
  function Lookup(t: T): W {
    W(Xor(Xor(Xor(Sp1110(t.t1), Sp0222(t.t2)), Sp3033(t.t3)), Sp4404(t.t4)),
      Xor(Xor(Xor(Sp1110(t.t8), Sp0222(t.t5)), Sp3033(t.t6)), Sp4404(t.t7)))
  }

  /** The last half of the P-function. */
  function Q(u: W): W {
    W(Xor(u.l, u.r), Xor(Ror8(u.l), Xor(u.l, u.r)))
  }

  /** ... and the inverse the key setup applies to the round keys. */
  function QInverse(k: W): W {
    var dw := Rol8(Xor(k.l, k.r));
    W(dw, Xor(k.l, dw))
  }

  /** CAMELLIA_ROUNDSM */
  function RoundSm(s: Sbox, x: W, k: W, y: W): W {
    X(y, Q(X(Lookup(S(s, x)), k)))
  }

  // ---------------------------------------------------------------- camellia_setup_tail

  /** What the setup does to a word that passes through FLINV or comes out of FL. */
  function G(k: W, a: W): W {
    var l := Xor(a.l, And(a.r, Not(k.r)));
    W(l, Xor(a.r, Rol1(And(l, k.l))))
  }

  /** kw2 as it reaches the j-th six rounds ... */
  function Kw2(sub: seq<W>, j: nat): W
    requires 8 * j + 1 < |sub|
  {
    if j == 0 then sub[1] else G(sub[8 * j + 1], Kw2(sub, j - 1))
  }

  /** ... and kw4 as it is traced back to them. */
  function Kw4(sub: seq<W>, g: nat, j: nat): W
    requires j < g && |sub| == 8 * g + 2
    decreases g - j
  {
    if j + 1 == g then sub[8 * g + 1] else G(sub[8 * j + 8], Kw4(sub, g, j + 1))
  }

  /** The keys of rounds 2, 4 and 6 of a group take in kw2, those of rounds 1, 3 and 5 take in kw4. */
  function Even(sub: seq<W>, j: nat, i: nat): W
    requires 8 * j + 8 <= |sub| && i < 8
  {
    X(sub[8 * j + i], Kw2(sub, j))
  }

  function Odd(sub: seq<W>, g: nat, j: nat, i: nat): W
    requires j < g && |sub| == 8 * g + 2 && i < 8
  {
    X(sub[8 * j + i], Kw4(sub, g, j))
  }

  /** The key of the first round of a group ... */
  function FirstKey(sub: seq<W>, j: nat): W
    requires 8 * j + 8 <= |sub|
  {
    if j == 0 then Even(sub, 0, 3) else X(G(sub[8 * j + 1], Even(sub, j - 1, 7)), Even(sub, j, 3))
  }

  /** ... and of the last. */
  function LastKey(sub: seq<W>, g: nat, j: nat): W
    requires j < g && |sub| == 8 * g + 2
  {
    if j + 1 == g then Odd(sub, g, j, 6) else X(Odd(sub, g, j, 6), G(sub[8 * j + 8], Odd(sub, g, j + 1, 2)))
  }

  ghost predicate GroupKeys(tbl: seq<W>, sub: seq<W>, g: nat, j: nat)
    requires j < g && |sub| == 8 * g + 2 && |tbl| > 8 * g
  {
    && tbl[8 * j + 2] == QInverse(FirstKey(sub, j))
    && tbl[8 * j + 3] == QInverse(X(Odd(sub, g, j, 2), Odd(sub, g, j, 4)))
    && tbl[8 * j + 4] == QInverse(X(Even(sub, j, 3), Even(sub, j, 5)))
    && tbl[8 * j + 5] == QInverse(X(Odd(sub, g, j, 4), Odd(sub, g, j, 6)))
    && tbl[8 * j + 6] == QInverse(X(Even(sub, j, 5), Even(sub, j, 7)))
    && tbl[8 * j + 7] == QInverse(LastKey(sub, g, j))
    && (j + 1 < g ==> tbl[8 * j + 8] == sub[8 * j + 8] && tbl[8 * j + 9] == sub[8 * j + 9])
  }

  /** The key table made of the subkeys; its entry 1 is never written nor read. */
  ghost predicate IsTable(tbl: seq<W>, sub: seq<W>, g: nat) {
    && g > 0 && |sub| == 8 * g + 2 && |tbl| > 8 * g
    && tbl[0] == X(Odd(sub, g, 0, 0), Odd(sub, g, 0, 2))
    && tbl[8 * g] == X(X(sub[8 * g], Kw2(sub, g - 1)), Even(sub, g - 1, 7))
    && forall j :: 0 <= j < g ==> GroupKeys(tbl, sub, g, j)
  }

  // ---------------------------------------------------------------- camellia_do_encrypt and camellia_do_decrypt

  function CodeTwo(s: Sbox, d: Pair, k1: W, k2: W): Pair {
    var b := RoundSm(s, d.a, k1, d.b);
    Pair(RoundSm(s, b, k2, d.a), b)
  }

  function CodeSix(s: Sbox, tbl: seq<W>, i: nat, d: Pair): Pair
    requires i + 6 <= |tbl|
  {
    CodeTwo(s, CodeTwo(s, CodeTwo(s, d, tbl[i], tbl[i + 1]), tbl[i + 2], tbl[i + 3]), tbl[i + 4], tbl[i + 5])
  }

  function CodeGroups(s: Sbox, tbl: seq<W>, g: nat, j: nat, d: Pair): Pair
    requires j < g && |tbl| > 8 * g
    decreases g - j
  {
    var e := CodeSix(s, tbl, 8 * j + 2, d);
    if j + 1 == g then e
    else CodeGroups(s, tbl, g, j + 1, Layer(e, tbl[8 * j + 8], tbl[8 * j + 9]))
  }

  /** The caller exchanges the halves. */
  function CodeEncrypt(s: Sbox, tbl: seq<W>, g: nat, m: Pair): Pair
    requires g > 0 && |tbl| > 8 * g
  {
    var d := CodeGroups(s, tbl, g, 0, Pair(X(m.a, tbl[0]), m.b));
    Pair(X(d.b, tbl[8 * g]), d.a)
  }

  function BackSix(s: Sbox, tbl: seq<W>, i: nat, d: Pair): Pair
    requires i + 6 <= |tbl|
  {
    CodeTwo(s, CodeTwo(s, CodeTwo(s, d, tbl[i + 5], tbl[i + 4]), tbl[i + 3], tbl[i + 2]), tbl[i + 1], tbl[i])
  }

  /** From the j-th six rounds back to the first. */
  function BackGroups(s: Sbox, tbl: seq<W>, j: nat, d: Pair): Pair
    requires 8 * j + 8 <= |tbl|
  {
    var e := BackSix(s, tbl, 8 * j + 2, d);
    if j == 0 then e else BackGroups(s, tbl, j - 1, Layer(e, tbl[8 * j + 1], tbl[8 * j]))
  }

  function CodeDecrypt(s: Sbox, tbl: seq<W>, g: nat, c: Pair): Pair
    requires g > 0 && |tbl| > 8 * g
  {
    var d := BackGroups(s, tbl, g - 1, Pair(X(c.a, tbl[8 * g]), c.b));
    Pair(X(d.b, tbl[0]), d.a)
  }
}
