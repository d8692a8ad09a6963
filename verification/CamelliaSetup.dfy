/**
 The key setup of camellia.c: absorbing kw2 and kw4 in place and storing the key table.  A subL/subR
 pair is one array of 64-bit words here, and so is the interleaved key table.
 */
module CamelliaSetup {
  import opened CamelliaWords
  import opened CamelliaCode

  // ---------------------------------------------------------------- absorbing kw2 and kw4

  /** The subkeys of group j with kw2 absorbed. */
  ghost predicate Half(now: seq<W>, o: seq<W>, g: nat, j: nat)
    requires j < g && |o| == |now| == 8 * g + 2
  {
    && now[8 * j + 2] == o[8 * j + 2] && now[8 * j + 3] == Even(o, j, 3)
    && now[8 * j + 4] == o[8 * j + 4] && now[8 * j + 5] == Even(o, j, 5)
    && now[8 * j + 6] == o[8 * j + 6] && now[8 * j + 7] == Even(o, j, 7)
    && (j + 1 < g ==> now[8 * j + 8] == o[8 * j + 8] && now[8 * j + 9] == o[8 * j + 9])
  }

  /** ... and with both absorbed. */
  ghost predicate Full(now: seq<W>, o: seq<W>, g: nat, j: nat)
    requires j < g && |o| == |now| == 8 * g + 2
  {
    && now[8 * j + 2] == Odd(o, g, j, 2) && now[8 * j + 3] == Even(o, j, 3)
    && now[8 * j + 4] == Odd(o, g, j, 4) && now[8 * j + 5] == Even(o, j, 5)
    && now[8 * j + 6] == Odd(o, g, j, 6) && now[8 * j + 7] == Even(o, j, 7)
    && (j + 1 < g ==> now[8 * j + 8] == o[8 * j + 8] && now[8 * j + 9] == o[8 * j + 9])
  }

  /** Entries that differ from before are outside group j and its FL keys. */
  ghost predicate Apart(now: seq<W>, was: seq<W>, j: nat) {
    |now| == |was| && forall k :: 8 * j + 2 <= k < 8 * j + 10 && k < |was| - 2 ==> now[k] == was[k]
  }

  lemma {:induction false} Kept(now: seq<W>, was: seq<W>, o: seq<W>, g: nat, j: nat)
    requires j < g && |o| == |was| == 8 * g + 2 && Apart(now, was, j)
    ensures Half(was, o, g, j) ==> Half(now, o, g, j)
    ensures Full(was, o, g, j) ==> Full(now, o, g, j)
  {
  }

  /** The groups before j have taken in kw2, what follows is as it was. */
  ghost predicate Kw2UpTo(now: seq<W>, o: seq<W>, g: nat, j: nat) {
    && |o| == |now| == 8 * g + 2 && j <= g
    && now[0] == o[0]
    && (forall k :: 8 * j + 2 <= k < 8 * g + 2 ==> now[k] == o[k])
    && (j == g ==> now[8 * g] == o[8 * g] && now[8 * g + 1] == o[8 * g + 1])
    && forall h :: 0 <= h < j ==> Half(now, o, g, h)
  }

  lemma {:induction false} Kw2Next(now: seq<W>, was: seq<W>, o: seq<W>, g: nat, j: nat)
    requires Kw2UpTo(was, o, g, j) && j < g && was[1] == Kw2(o, j)
    requires now == was[8 * j + 3 := X(was[8 * j + 3], was[1])]
                       [8 * j + 5 := X(was[8 * j + 5], was[1])][8 * j + 7 := X(was[8 * j + 7], was[1])]
    ensures Kw2UpTo(now, o, g, j + 1) && now[1] == was[1]
  {
    hide X, Kw2;
    forall h | 0 <= h < j
      ensures Half(now, o, g, h)
    {
      hide Half;
      Kept(now, was, o, g, h);
    }
    assert Half(now, o, g, j);
  }

  /** Rounds 2, 4 and 6 of a group take in kw2. */
  method AbsorbKw2(sub: array<W>, g: nat, j: nat, ghost o: seq<W>)
    requires Kw2UpTo(sub[..], o, g, j) && j < g && sub[1] == Kw2(o, j)
    modifies sub
    ensures Kw2UpTo(sub[..], o, g, j + 1) && sub[1] == Kw2(o, j)
  {
    hide X, Kw2, Half;
    ghost var was := sub[..];
    sub[8 * j + 3] := X(sub[8 * j + 3], sub[1]);
    sub[8 * j + 5] := X(sub[8 * j + 5], sub[1]);
    sub[8 * j + 7] := X(sub[8 * j + 7], sub[1]);
    Kw2Next(sub[..], was, o, g, j);
  }

  /** The words tl and tr of camellia_setup_tail. */
  method Turned(k: W, a: W) returns (t: W)
    ensures t == G(k, a)
  {
    hide Xor, And, Not, Rol1;
    var tl := Xor(a.l, And(a.r, Not(k.r)));
    var dw := And(tl, k.l);
    var tr := Xor(a.r, Rol1(dw));
    t := W(tl, tr);
  }

  lemma {:induction false} Kw2Passed(now: seq<W>, was: seq<W>, o: seq<W>, g: nat, j: nat)
    requires Kw2UpTo(was, o, g, j) && g > 0 && |now| == |was| && now == was[1 := now[1]]
    ensures Kw2UpTo(now, o, g, j)
  {
    hide Half;
    forall h | 0 <= h < j
      ensures Half(now, o, g, h)
    {
      Kept(now, was, o, g, h);
    }
  }

  /** kw2, modified for FLinv. */
  method PassFLInv(sub: array<W>, g: nat, j: nat, ghost o: seq<W>)
    requires Kw2UpTo(sub[..], o, g, j + 1) && j + 1 < g && sub[1] == Kw2(o, j)
    modifies sub
    ensures Kw2UpTo(sub[..], o, g, j + 1) && sub[1] == Kw2(o, j + 1)
  {
    hide G;
    ghost var was := sub[..];
    assert Half(was, o, g, j);
    sub[1] := Turned(sub[8 * j + 9], sub[1]);
    Kw2Passed(sub[..], was, o, g, j + 1);
  }

  /** All groups have taken in kw2 and those from j on kw4 as well. */
  ghost predicate Kw4From(now: seq<W>, o: seq<W>, g: nat, j: nat) {
    && |o| == |now| == 8 * g + 2 && j <= g && g > 0
    && now[0] == o[0] && now[8 * g] == X(o[8 * g], Kw2(o, g - 1))
    && (forall h :: 0 <= h < j ==> Half(now, o, g, h))
    && (forall h :: j <= h < g ==> Full(now, o, g, h))
  }

  lemma {:induction false} Kw4Next(now: seq<W>, was: seq<W>, o: seq<W>, g: nat, j: nat, kw4: W)
    requires Kw4From(was, o, g, j + 1) && kw4 == Kw4(o, g, j)
    requires now == was[8 * j + 6 := X(was[8 * j + 6], kw4)]
                       [8 * j + 4 := X(was[8 * j + 4], kw4)][8 * j + 2 := X(was[8 * j + 2], kw4)]
    ensures Kw4From(now, o, g, j)
  {
    hide X, Kw2, Kw4, Even;
    assert Half(was, o, g, j);
    assert Full(now, o, g, j);
    forall h | 0 <= h < j
      ensures Half(now, o, g, h)
    {
      hide Half;
      Kept(now, was, o, g, h);
    }
    forall h | j + 1 <= h < g
      ensures Full(now, o, g, h)
    {
      hide Full;
      Kept(now, was, o, g, h);
    }
  }

  /** Rounds 1, 3 and 5 of a group take in kw4. */
  method AbsorbKw4(sub: array<W>, g: nat, j: nat, kw4: W, ghost o: seq<W>)
    requires Kw4From(sub[..], o, g, j + 1) && kw4 == Kw4(o, g, j)
    modifies sub
    ensures Kw4From(sub[..], o, g, j)
  {
    hide X, Kw2, Kw4, Half, Full;
    ghost var was := sub[..];
    sub[8 * j + 6] := X(sub[8 * j + 6], kw4);
    sub[8 * j + 4] := X(sub[8 * j + 4], kw4);
    sub[8 * j + 2] := X(sub[8 * j + 2], kw4);
    Kw4Next(sub[..], was, o, g, j, kw4);
  }

  /** kw4, modified for FL. */
  method PassFL(sub: array<W>, g: nat, j: nat, kw4: W, ghost o: seq<W>) returns (k: W)
    requires Kw4From(sub[..], o, g, j + 1) && j + 1 < g && kw4 == Kw4(o, g, j + 1)
    ensures k == Kw4(o, g, j)
  {
    hide X, G, Kw2, Even, Odd, Full;
    assert Half(sub[..], o, g, j);
    k := Turned(sub[8 * j + 8], kw4);
  }

  /** Both absorbed, everywhere. */
  ghost predicate Absorbed(now: seq<W>, o: seq<W>, g: nat) {
    && |o| == |now| == 8 * g + 2 && g > 0
    && now[0] == Odd(o, g, 0, 0) && now[8 * g] == X(o[8 * g], Kw2(o, g - 1))
    && forall h :: 0 <= h < g ==> Full(now, o, g, h)
  }

  lemma {:induction false} Kw3Taken(now: seq<W>, was: seq<W>, o: seq<W>, g: nat)
    requires Kw2UpTo(was, o, g, g) && g > 0 && was[1] == Kw2(o, g - 1)
    requires now == was[8 * g := X(was[8 * g], was[1])]
    ensures Kw4From(now, o, g, g) && now[8 * g + 1] == Kw4(o, g, g - 1)
  {
    hide X, Half;
    forall h | 0 <= h < g
      ensures Half(now, o, g, h)
    {
      Kept(now, was, o, g, h);
    }
  }

  lemma {:induction false} Kw1Taken(now: seq<W>, was: seq<W>, o: seq<W>, g: nat, kw4: W)
    requires Kw4From(was, o, g, 0) && kw4 == Kw4(o, g, 0)
    requires now == was[0 := X(was[0], kw4)]
    ensures Absorbed(now, o, g)
  {
    hide X, Kw2, Kw4, Full;
    forall h | 0 <= h < g
      ensures Full(now, o, g, h)
    {
      Kept(now, was, o, g, h);
    }
  }

  lemma {:induction false} Kw2Start(o: seq<W>, g: nat)
    requires |o| == 8 * g + 2
    ensures Kw2UpTo(o, o, g, 0) && Kw2(o, 0) == o[1]
  {
  }

  /** The first half of camellia_setup_tail. */
  method Absorb(sub: array<W>, g: nat)
    requires (g == 3 || g == 4) && sub.Length == 8 * g + 2
    modifies sub
    ensures Absorbed(sub[..], old(sub[..]), g)
  {
    hide X, Kw2, Kw4, Kw2UpTo, Kw4From, Absorbed;
    ghost var o := sub[..];
    Kw2Start(o, g);
    AbsorbKw2(sub, g, 0, o);
    PassFLInv(sub, g, 0, o);
    AbsorbKw2(sub, g, 1, o);
    PassFLInv(sub, g, 1, o);
    AbsorbKw2(sub, g, 2, o);
    if g == 4 {
      PassFLInv(sub, g, 2, o);
      AbsorbKw2(sub, g, 3, o);
    }
    ghost var was := sub[..];
    sub[8 * g] := X(sub[8 * g], sub[1]);
    var kw4 := sub[8 * g + 1];
    Kw3Taken(sub[..], was, o, g);
    if g == 4 {
      AbsorbKw4(sub, g, 3, kw4, o);
      kw4 := PassFL(sub, g, 2, kw4, o);
    }
    AbsorbKw4(sub, g, 2, kw4, o);
    kw4 := PassFL(sub, g, 1, kw4, o);
    AbsorbKw4(sub, g, 1, kw4, o);
    kw4 := PassFL(sub, g, 0, kw4, o);
    AbsorbKw4(sub, g, 0, kw4, o);
    was := sub[..];
    sub[0] := X(sub[0], kw4);
    Kw1Taken(sub[..], was, o, g, kw4);
  }

  // ---------------------------------------------------------------- storing the key table

  /** The keys of group j before the inverse of the last half of P is applied to them. */
  ghost predicate Raw(tbl: seq<W>, sub: seq<W>, g: nat, j: nat)
    requires j < g && |sub| == 8 * g + 2 && |tbl| > 8 * g
  {
    && tbl[8 * j + 2] == FirstKey(sub, j)
    && tbl[8 * j + 3] == X(Odd(sub, g, j, 2), Odd(sub, g, j, 4))
    && tbl[8 * j + 4] == X(Even(sub, j, 3), Even(sub, j, 5))
    && tbl[8 * j + 5] == X(Odd(sub, g, j, 4), Odd(sub, g, j, 6))
    && tbl[8 * j + 6] == X(Even(sub, j, 5), Even(sub, j, 7))
    && tbl[8 * j + 7] == LastKey(sub, g, j)
    && (j + 1 < g ==> tbl[8 * j + 8] == sub[8 * j + 8] && tbl[8 * j + 9] == sub[8 * j + 9])
  }

  method FirstKeyOf(sub: array<W>, g: nat, j: nat, ghost o: seq<W>) returns (k: W)
    requires Absorbed(sub[..], o, g) && j < g
    ensures k == FirstKey(o, j)
  {
    hide X, G, Even, Odd, Kw2, Kw4;
    assert Full(sub[..], o, g, j);
    if j == 0 {
      k := sub[3];
    } else {
      assert Full(sub[..], o, g, j - 1);
      var t := Turned(sub[8 * j + 1], sub[8 * j - 1]);
      k := X(t, sub[8 * j + 3]);
    }
  }

  method LastKeyOf(sub: array<W>, g: nat, j: nat, ghost o: seq<W>) returns (k: W)
    requires Absorbed(sub[..], o, g) && j < g
    ensures k == LastKey(o, g, j)
  {
    hide X, G, Even, Odd, Kw2, Kw4;
    assert Full(sub[..], o, g, j);
    if j + 1 == g {
      k := sub[8 * j + 6];
    } else {
      assert Full(sub[..], o, g, j + 1);
      var t := Turned(sub[8 * j + 8], sub[8 * j + 10]);
      k := X(sub[8 * j + 6], t);
    }
  }

  /** The keys of the four rounds in between. */
  method StoreMiddle(subkey: array<W>, sub: array<W>, g: nat, j: nat, ghost o: seq<W>)
    requires Absorbed(sub[..], o, g) && j < g && subkey.Length > 8 * g && subkey != sub
    modifies subkey
    ensures subkey[8 * j + 3] == X(Odd(o, g, j, 2), Odd(o, g, j, 4))
    ensures subkey[8 * j + 4] == X(Even(o, j, 3), Even(o, j, 5))
    ensures subkey[8 * j + 5] == X(Odd(o, g, j, 4), Odd(o, g, j, 6))
    ensures subkey[8 * j + 6] == X(Even(o, j, 5), Even(o, j, 7))
    ensures forall k :: 0 <= k < subkey.Length && !(8 * j + 3 <= k < 8 * j + 7) ==> subkey[k] == old(subkey[k])
  {
    hide X, Even, Odd, Kw2, Kw4;
    assert Full(sub[..], o, g, j);
    subkey[8 * j + 3] := X(sub[8 * j + 2], sub[8 * j + 4]);
    subkey[8 * j + 4] := X(sub[8 * j + 3], sub[8 * j + 5]);
    subkey[8 * j + 5] := X(sub[8 * j + 4], sub[8 * j + 6]);
    subkey[8 * j + 6] := X(sub[8 * j + 5], sub[8 * j + 7]);
  }

  /** A group's six keys and the two of the FL layer after it. */
  method StoreGroup(subkey: array<W>, sub: array<W>, g: nat, j: nat, ghost o: seq<W>)
    requires Absorbed(sub[..], o, g) && j < g && subkey.Length > 8 * g && subkey != sub
    modifies subkey
    ensures Raw(subkey[..], o, g, j)
    ensures forall k :: 0 <= k < subkey.Length && !(8 * j + 2 <= k < if j + 1 < g then 8 * j + 10 else 8 * j + 8) ==>
                        subkey[k] == old(subkey[k])
  {
    hide X, G, Even, Odd, FirstKey, LastKey, Kw2, Kw4;
    subkey[8 * j + 2] := FirstKeyOf(sub, g, j, o);
    StoreMiddle(subkey, sub, g, j, o);
    subkey[8 * j + 7] := LastKeyOf(sub, g, j, o);
    if j + 1 < g {
      assert Full(sub[..], o, g, j);
      subkey[8 * j + 8] := sub[8 * j + 8];
      subkey[8 * j + 9] := sub[8 * j + 9];
    }
  }

  /** The entries of group j are as they were. */
  ghost predicate Aside(now: seq<W>, was: seq<W>, g: nat, j: nat) {
    |now| == |was| && forall k :: 8 * j + 2 <= k < (if j + 1 < g then 8 * j + 10 else 8 * j + 8) && k < |was| ==> now[k] == was[k]
  }

  lemma {:induction false} StillStored(now: seq<W>, was: seq<W>, o: seq<W>, g: nat, j: nat)
    requires j < g && |o| == 8 * g + 2 && |was| > 8 * g && Aside(now, was, g, j)
    ensures Raw(was, o, g, j) ==> Raw(now, o, g, j)
    ensures GroupKeys(was, o, g, j) ==> GroupKeys(now, o, g, j)
  {
  }

  /** The ends are stored, groups before j are stored, and those before d are done. */
  ghost predicate Storing(tbl: seq<W>, o: seq<W>, g: nat, d: nat, j: nat) {
    && |o| == 8 * g + 2 && |tbl| > 8 * g && d <= j <= g && g > 0
    && tbl[0] == X(Odd(o, g, 0, 0), Odd(o, g, 0, 2))
    && (forall h :: 0 <= h < d ==> GroupKeys(tbl, o, g, h))
    && (forall h :: d <= h < j ==> Raw(tbl, o, g, h))
  }

  lemma {:induction false} StoredNext(now: seq<W>, was: seq<W>, o: seq<W>, g: nat, j: nat)
    requires Storing(was, o, g, 0, j) && j < g && |now| == |was| && now[0] == was[0] && Raw(now, o, g, j)
    requires forall h :: 0 <= h < j ==> Aside(now, was, g, h)
    ensures Storing(now, o, g, 0, j + 1)
  {
    hide X, Raw, GroupKeys, Odd, Aside;
    forall h | 0 <= h < j
      ensures Raw(now, o, g, h)
    {
      StillStored(now, was, o, g, h);
    }
  }

  method StoreNext(subkey: array<W>, sub: array<W>, g: nat, j: nat, ghost o: seq<W>)
    requires Absorbed(sub[..], o, g) && Storing(subkey[..], o, g, 0, j) && j < g && subkey != sub
    modifies subkey
    ensures Storing(subkey[..], o, g, 0, j + 1)
  {
    hide X, Raw, GroupKeys, Odd, Absorbed;
    ghost var was := subkey[..];
    StoreGroup(subkey, sub, g, j, o);
    StoredNext(subkey[..], was, o, g, j);
  }

  /** Apply the inverse of the last half of the P-function to the six keys from index i. */
  method InvertSix(subkey: array<W>, i: nat)
    requires i + 6 <= subkey.Length
    modifies subkey
    ensures forall k :: i <= k < i + 6 ==> subkey[k] == QInverse(old(subkey[k]))
    ensures forall k :: 0 <= k < subkey.Length && !(i <= k < i + 6) ==> subkey[k] == old(subkey[k])
  {
    for k := i to i + 6
      invariant forall h :: i <= h < k ==> subkey[h] == QInverse(old(subkey[h]))
      invariant forall h :: 0 <= h < subkey.Length && !(i <= h < k) ==> subkey[h] == old(subkey[h])
    {
      var dw := Rol8(Xor(subkey[k].l, subkey[k].r));
      subkey[k] := W(dw, Xor(subkey[k].l, dw));
    }
  }

  lemma {:induction false} DoneNext(now: seq<W>, was: seq<W>, o: seq<W>, g: nat, d: nat)
    requires Storing(was, o, g, d, g) && d < g && |now| == |was|
    requires forall k :: 8 * d + 2 <= k < 8 * d + 8 ==> now[k] == QInverse(was[k])
    requires forall k :: 0 <= k < |was| && !(8 * d + 2 <= k < 8 * d + 8) ==> now[k] == was[k]
    ensures Storing(now, o, g, d + 1, g)
  {
    hide X, Odd, Even, FirstKey, LastKey, QInverse;
    assert Raw(was, o, g, d);
    assert GroupKeys(now, o, g, d);
    forall h | 0 <= h < d
      ensures GroupKeys(now, o, g, h)
    {
      hide GroupKeys;
      StillStored(now, was, o, g, h);
    }
    forall h | d + 1 <= h < g
      ensures Raw(now, o, g, h)
    {
      hide Raw;
      StillStored(now, was, o, g, h);
    }
  }

  lemma {:induction false} LastStored(now: seq<W>, was: seq<W>, o: seq<W>, g: nat)
    requires Storing(was, o, g, 0, g) && |now| == |was| && now == was[8 * g := now[8 * g]]
    ensures Storing(now, o, g, 0, g)
  {
    hide X, Raw, GroupKeys, Odd;
    forall h | 0 <= h < g
      ensures Raw(now, o, g, h)
    {
      StillStored(now, was, o, g, h);
    }
  }

  /** The final loop of camellia_setup_tail. */
  method InvertKeys(subkey: array<W>, max: nat, ghost o: seq<W>)
    requires max == 24 || max == 32
    requires Storing(subkey[..], o, max / 8, 0, max / 8)
    modifies subkey
    ensures Storing(subkey[..], o, max / 8, max / 8, max / 8) && subkey[max] == old(subkey[max])
  {
    hide X, Raw, GroupKeys, Odd, QInverse;
    ghost var d, g := 0, max / 8;
    var i := 2;
    while i < max
      invariant i == 8 * d + 2 && d <= g
      invariant Storing(subkey[..], o, g, d, g) && subkey[max] == old(subkey[max])
    {
      ghost var was := subkey[..];
      InvertSix(subkey, i);
      DoneNext(subkey[..], was, o, g, d);
      i, d := i + 8, d + 1;
    }
  }

  /** camellia_setup_tail: whatever the subkeys, the table it leaves is the table made of them. */
  method SetupTail(subkey: array<W>, sub: array<W>, max: nat)
    requires (max == 24 || max == 32) && sub.Length == max + 2 && subkey.Length > max && subkey != sub
    modifies subkey, sub
    ensures IsTable(subkey[..], old(sub[..]), max / 8)
  {
    hide X, Raw, Kw2, Kw4;
    var g := max / 8;
    ghost var o := sub[..];
    Absorb(sub, g);
    assert Full(sub[..], o, g, 0);
    subkey[0] := X(sub[0], sub[2]);
    StoreNext(subkey, sub, g, 0, o);
    StoreNext(subkey, sub, g, 1, o);
    StoreNext(subkey, sub, g, 2, o);
    if max == 32 {
      StoreNext(subkey, sub, g, 3, o);
    }
    ghost var was := subkey[..];
    assert Full(sub[..], o, g, g - 1);
    subkey[max] := X(sub[max], sub[max - 1]);
    LastStored(subkey[..], was, o, g);
    InvertKeys(subkey, max, o);
  }
}
