/**
 The Camellia block cipher as RFC 3713 defines it, over an arbitrary first S-box.  Subkeys are kept
 in the order camellia.c numbers them: kw1, kw2, then for each six rounds their keys and the two keys
 of the FL layer that follows, and at the end kw3 and kw4.
 */
module CamelliaSpec {
  import opened CamelliaWords

  type Sbox = bv8 -> bv8

  // ---------------------------------------------------------------- section 2.4.1: F

  function SBox2(s: Sbox, x: bv8): bv8 { (s(x) << 1) | (s(x) >> 7) }
  function SBox3(s: Sbox, x: bv8): bv8 { (s(x) << 7) | (s(x) >> 1) }
  function SBox4(s: Sbox, x: bv8): bv8 { s((x << 1) | (x >> 7)) }

  /** The eight bytes after the S-boxes. */
  datatype T = T(t1: bv8, t2: bv8, t3: bv8, t4: bv8, t5: bv8, t6: bv8, t7: bv8, t8: bv8)

  function S(s: Sbox, x: W): T {
    T(s(Byte3(x.l)), SBox2(s, Byte2(x.l)), SBox3(s, Byte1(x.l)), SBox4(s, Byte0(x.l)),
      SBox2(s, Byte3(x.r)), SBox3(s, Byte2(x.r)), SBox4(s, Byte1(x.r)), s(Byte0(x.r)))
  }

  function P(t: T): W {
    W(Word(X6(t.t1, t.t3, t.t4, t.t6, t.t7, t.t8),
           X6(t.t1, t.t2, t.t4, t.t5, t.t7, t.t8),
           X6(t.t1, t.t2, t.t3, t.t5, t.t6, t.t8),
           X6(t.t2, t.t3, t.t4, t.t5, t.t6, t.t7)),
      Word(X5(t.t1, t.t2, t.t6, t.t7, t.t8),
           X5(t.t2, t.t3, t.t5, t.t7, t.t8),
           X5(t.t3, t.t4, t.t5, t.t6, t.t8),
           X5(t.t1, t.t4, t.t5, t.t6, t.t7)))
  }

  /** F before its key is mixed in. */
  function F0(s: Sbox, x: W): W {
    P(S(s, x))
  }

  function F(s: Sbox, x: W, k: W): W {
    F0(s, X(x, k))
  }

  // ---------------------------------------------------------------- section 2.4.2: FL and FLINV

  function FL(x: W, k: W): W {
    var r := Xor(x.r, Rol1(And(x.l, k.l)));
    W(Xor(x.l, Or(r, k.r)), r)
  }

  function FLInv(y: W, k: W): W {
    var l := Xor(y.l, Or(y.r, k.r));
    W(l, Xor(y.r, Rol1(And(l, k.l))))
  }

  // ---------------------------------------------------------------- section 2.3: encryption

  /** The two halves D1 and D2. */
  datatype Pair = Pair(a: W, b: W)

  function Round(s: Sbox, x: W, k: W, y: W): W {
    X(y, F(s, x, k))
  }

  function Two(s: Sbox, d: Pair, k1: W, k2: W): Pair {
    var b := Round(s, d.a, k1, d.b);
    Pair(Round(s, b, k2, d.a), b)
  }

  /** Six rounds, with the keys from index i. */
  function Six(s: Sbox, sub: seq<W>, i: nat, d: Pair): Pair
    requires i + 6 <= |sub|
  {
    Two(s, Two(s, Two(s, d, sub[i], sub[i + 1]), sub[i + 2], sub[i + 3]), sub[i + 4], sub[i + 5])
  }

  function Layer(d: Pair, k1: W, k2: W): Pair {
    Pair(FL(d.a, k1), FLInv(d.b, k2))
  }

  /** From the j-th six rounds of g to the last. */
  function Groups(s: Sbox, sub: seq<W>, g: nat, j: nat, d: Pair): Pair
    requires j < g && |sub| == 8 * g + 2
    decreases g - j
  {
    var e := Six(s, sub, 8 * j + 2, d);
    if j + 1 == g then e
    else Groups(s, sub, g, j + 1, Layer(e, sub[8 * j + 8], sub[8 * j + 9]))
  }

  /** 18 rounds when g is 3, 24 when it is 4; the halves change places at the end. */
  function Encrypt(s: Sbox, sub: seq<W>, g: nat, m: Pair): Pair
    requires g > 0 && |sub| == 8 * g + 2
  {
    var d := Groups(s, sub, g, 0, Pair(X(m.a, sub[0]), X(m.b, sub[1])));
    Pair(X(d.b, sub[8 * g]), X(d.a, sub[8 * g + 1]))
  }
}
