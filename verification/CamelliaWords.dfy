/**
 32-bit words, and the algebra of exclusive-or, masking and rotation that the Camellia proofs rest on.
 */
module CamelliaWords {

  function Xor(a: bv32, b: bv32): bv32 { a ^ b }
  function And(a: bv32, b: bv32): bv32 { a & b }
  function Or(a: bv32, b: bv32): bv32 { a | b }
  function Not(a: bv32): bv32 { !a }
  function Rol1(x: bv32): bv32 { (x << 1) | (x >> 31) }
  function Rol8(x: bv32): bv32 { (x << 8) | (x >> 24) }
  function Ror8(x: bv32): bv32 { (x >> 8) | (x << 24) }

  function Byte3(x: bv32): bv8 { (x >> 24) as bv8 }
  function Byte2(x: bv32): bv8 { ((x >> 16) & 0xFF) as bv8 }
  function Byte1(x: bv32): bv8 { ((x >> 8) & 0xFF) as bv8 }
  function Byte0(x: bv32): bv8 { (x & 0xFF) as bv8 }

  function Xb(a: bv8, b: bv8): bv8 { a ^ b }
  function X3(a: bv8, b: bv8, c: bv8): bv8 { Xb(Xb(a, b), c) }
  function X5(a: bv8, b: bv8, c: bv8, d: bv8, e: bv8): bv8 { Xb(Xb(X3(a, b, c), d), e) }
  function X6(a: bv8, b: bv8, c: bv8, d: bv8, e: bv8, f: bv8): bv8 { Xb(X5(a, b, c, d, e), f) }

  function Word(b3: bv8, b2: bv8, b1: bv8, b0: bv8): bv32 {
    (b3 as bv32 << 24) | (b2 as bv32 << 16) | (b1 as bv32 << 8) | (b0 as bv32)
  }

  lemma {:induction false} XorAssoc(a: bv32, b: bv32, c: bv32)
    ensures Xor(Xor(a, b), c) == Xor(a, Xor(b, c))
  {
  }

  lemma {:induction false} XorComm(a: bv32, b: bv32)
    ensures Xor(a, b) == Xor(b, a)
  {
  }

  lemma {:induction false} XorCancel(a: bv32, b: bv32)
    ensures Xor(Xor(a, b), b) == a
  {
  }

  lemma {:induction false} XorZero(a: bv32)
    ensures Xor(a, 0) == a && Xor(a, a) == 0
  {
  }

  lemma {:induction false} Rol1Xor(a: bv32, b: bv32)
    ensures Rol1(Xor(a, b)) == Xor(Rol1(a), Rol1(b))
  {
  }

  lemma {:induction false} Ror8Xor(a: bv32, b: bv32)
    ensures Ror8(Xor(a, b)) == Xor(Ror8(a), Ror8(b))
  {
  }

  lemma {:induction false} Ror8Rol8(x: bv32)
    ensures Ror8(Rol8(x)) == x
  {
  }

  lemma {:induction false} AndXor(x: bv32, d: bv32, k: bv32)
    ensures And(Xor(x, d), k) == Xor(And(x, k), And(d, k))
  {
  }

  lemma {:induction false} OrAsXor(x: bv32, k: bv32)
    ensures Or(x, k) == Xor(And(x, Not(k)), k)
  {
  }

  lemma {:induction false} OrXor(x: bv32, d: bv32, k: bv32)
    ensures Or(Xor(x, d), k) == Xor(Or(x, k), And(d, Not(k)))
  {
    hide Xor, And, Or, Not;
    var p, e := And(x, Not(k)), And(d, Not(k));
    OrAsXor(x, k);
    OrAsXor(Xor(x, d), k);
    AndXor(x, d, Not(k));
    XorAssoc(p, e, k);
    XorComm(e, k);
    XorAssoc(p, k, e);
  }

  lemma {:induction false} WordXor(a3: bv8, a2: bv8, a1: bv8, a0: bv8, b3: bv8, b2: bv8, b1: bv8, b0: bv8)
    ensures Xor(Word(a3, a2, a1, a0), Word(b3, b2, b1, b0)) == Word(Xb(a3, b3), Xb(a2, b2), Xb(a1, b1), Xb(a0, b0))
  {
  }

  lemma {:induction false} XbZero(a: bv8)
    ensures Xb(a, 0) == a && Xb(0, a) == a
  {
  }

  lemma {:induction false} XbComm(a: bv8, b: bv8)
    ensures Xb(a, b) == Xb(b, a)
  {
  }

  lemma {:induction false} X3Append(p: bv8, d: bv8, e: bv8, f: bv8)
    ensures Xb(p, X3(d, e, f)) == Xb(Xb(Xb(p, d), e), f)
    ensures Xb(p, X3(d, e, f)) == Xb(Xb(Xb(p, e), f), d)
  {
  }

  /** The same three bytes, whichever is taken first. */
  lemma {:induction false} X3Turns(a: bv8, b: bv8, c: bv8)
    ensures X3(a, b, c) == Xb(a, Xb(b, c)) && X3(a, b, c) == Xb(b, Xb(a, c)) && X3(a, b, c) == Xb(c, Xb(a, b))
  {
  }

  /** What two bytes share drops out. */
  lemma {:induction false} XbShared(a: bv8, b: bv8, m: bv8, r: bv8)
    ensures Xb(Xb(a, m), Xb(Xb(b, m), r)) == Xb(Xb(a, b), r)
  {
  }

  lemma {:induction false} WordRor8(a3: bv8, a2: bv8, a1: bv8, a0: bv8)
    ensures Ror8(Word(a3, a2, a1, a0)) == Word(a0, a3, a2, a1)
  {
  }

  // ---------------------------------------------------------------- 64 bits as two words

  /** `l` is the more significant word. */
  datatype W = W(l: bv32, r: bv32)

  const ZERO := W(0, 0)

  function X(a: W, b: W): W {
    W(Xor(a.l, b.l), Xor(a.r, b.r))
  }

  lemma {:induction false} XAssoc(a: W, b: W, c: W)
    ensures X(X(a, b), c) == X(a, X(b, c))
  {
    hide Xor;
    XorAssoc(a.l, b.l, c.l);
    XorAssoc(a.r, b.r, c.r);
  }

  lemma {:induction false} XComm(a: W, b: W)
    ensures X(a, b) == X(b, a)
  {
  }

  lemma {:induction false} XCancel(a: W, b: W)
    ensures X(X(a, b), b) == a
  {
  }

  lemma {:induction false} XZero(a: W)
    ensures X(a, ZERO) == a && X(a, a) == ZERO
  {
  }

  /** Exchanging the middle two of four. */
  lemma {:induction false} XSwap(a: W, b: W, c: W, d: W)
    ensures X(X(a, b), X(c, d)) == X(X(a, c), X(b, d))
    ensures X(X(X(a, b), c), d) == X(X(a, c), X(b, d))
  {
    hide X;
    XAssoc(a, b, X(c, d));
    XAssoc(b, c, d);
    XComm(b, c);
    XAssoc(c, b, d);
    XAssoc(a, c, X(b, d));
    XAssoc(X(a, b), c, d);
  }

  /** A common offset on two words cancels. */
  lemma {:induction false} XOffset(a: W, b: W, o: W)
    ensures X(X(a, o), X(b, o)) == X(a, b)
  {
    hide X;
    XSwap(a, o, b, o);
    XZero(o);
    XZero(X(a, b));
  }
}
