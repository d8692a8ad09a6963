/**
 The ANSI X9.31 generator of ansi_cprng.c: the stream of blocks that key, V and DT fix, and the part
 of it each read returns.
 */
module PrngModel {
  import opened Lists

  const SIZE := 16                       // DEFAULT_BLK_SZ

  type byte = bv8

  function XorByte(a: byte, b: byte): byte {
    a ^ b
  }

  type Block = b: seq<byte> | |b| == SIZE witness [0, 0, 0, 0, 0, 0, 0, 0, 0, 0, 0, 0, 0, 0, 0, 0]

  const ZEROS: Block := [0, 0, 0, 0, 0, 0, 0, 0, 0, 0, 0, 0, 0, 0, 0, 0]

  function Xor(a: Block, b: Block): Block {
    seq(SIZE, i requires 0 <= i < SIZE => XorByte(a[i], b[i]))
  }

  /** The cipher under the generator's key. */
  type Cipher = Block -> Block

  /** The generator between two blocks. */
  datatype Gen = Gen(v: Block, dt: Block)

  /** One more than dt, as the code counts: carry from the last byte upwards, all ones wrap to zero. */
  function Increment(b: seq<byte>): (r: seq<byte>)
    ensures |r| == |b|
  {
    if b == [] then []
    else
      var n := |b| - 1;
      if b[n] != 255 then b[..n] + [b[n] + 1] else Increment(b[..n]) + [0]
  }

  /** DT read as a big-endian number. */
  function Number(b: seq<byte>): nat {
    if b == [] then 0 else 256 * Number(b[..|b| - 1]) + b[|b| - 1] as int
  }

  function Power(n: nat): nat {
    if n == 0 then 1 else 256 * Power(n - 1)
  }

  /** section 2.4 of ANSI X9.31 appendix A: I, the output block, and the next V. */
  function Intermediate(e: Cipher, g: Gen): Block {
    e(g.dt)
  }

  function Output(e: Cipher, g: Gen): Block {
    e(Xor(Intermediate(e, g), g.v))
  }

  function Next(e: Cipher, g: Gen): Gen {
    Gen(e(Xor(Output(e, g), Intermediate(e, g))), Increment(g.dt))
  }

  function After(e: Cipher, g: Gen, k: nat): Gen {
    if k == 0 then g else Next(e, After(e, g, k - 1))
  }

  /** The k-th block of the stream, and its i-th byte. */
  function StreamBlock(e: Cipher, g: Gen, k: nat): Block {
    Output(e, After(e, g, k))
  }

  function StreamByte(e: Cipher, g: Gen, i: nat): byte {
    StreamBlock(e, g, i / SIZE)[i % SIZE]
  }

  /** n bytes of the stream from position p. */
  function Window(e: Cipher, g: Gen, p: nat, n: nat): (r: seq<byte>)
    ensures |r| == n
  {
    if n == 0 then [] else Window(e, g, p, n - 1) + [StreamByte(e, g, p + n - 1)]
  }

  // ---------------------------------------------------------------- DT is a counter

  lemma {:induction false} ByteCounts(x: byte)
    ensures x as int < 256 && (x as int == 255 <==> x == 255)
    ensures x != 255 ==> (x + 1) as int == x as int + 1
  {
  }

  lemma {:induction false} IncrementCounts(b: seq<byte>)
    ensures Number(Increment(b)) == if Number(b) + 1 == Power(|b|) then 0 else Number(b) + 1
    ensures Number(b) < Power(|b|)
  {
    if b != [] {
      var n := |b| - 1;
      IncrementCounts(b[..n]);
      ByteCounts(b[n]);
      var r := Increment(b);
      assert r[..n] == if b[n] == 255 then Increment(b[..n]) else b[..n];
    }
  }

  // ---------------------------------------------------------------- reads

  /** Where a read of n bytes that starts at position p leaves the generator: a read that ends with a
      whole block goes on behind it; any other read leaves its last byte to be read again. */
  function ReadTo(p: nat, n: nat): nat
    requires n > 0
  {
    if n >= SIZE && (p + n) % SIZE == 0 then p + n else p + n - 1
  }

  const WRAP := 0x1_0000_0000            // byte_count has 32 bits

  /** The low 32 bits of a number up to 2^32. */
  function Low(n: nat): nat {
    if n == WRAP then 0 else n
  }

  /** How many bytes the copying ends after: byte_count is counted down until it is zero again. */
  function Written(nbytes: nat): (n: nat)
    ensures 0 < n <= WRAP && Low(n) == nbytes % WRAP
  {
    if nbytes % WRAP == 0 then WRAP else nbytes % WRAP
  }

  /** A read comes to copying unless a reset is due or less than a block of fixed size is asked for. */
  predicate Copies(needReset: bool, fixedSize: bool, nbytes: nat) {
    !needReset && !(fixedSize && nbytes < SIZE)
  }

  function BytesOf(fixedSize: bool, nbytes: nat): (n: nat)
    ensures 0 < n <= WRAP
  {
    if fixedSize then SIZE else Written(nbytes)
  }

  /** A read writes no more than it was asked for exactly when it was asked for something, or the fixed
      size or a due reset stops it: a read of no bytes acts as one of 2^32. */
  lemma {:induction false} StaysInside(needReset: bool, fixedSize: bool, nbytes: nat)
    ensures (Copies(needReset, fixedSize, nbytes) ==> BytesOf(fixedSize, nbytes) <= nbytes)
       <==> nbytes > 0 || fixedSize || needReset
  {
  }

  /** How many blocks of the stream there must be for such a read. */
  function Through(p: nat, n: nat): nat
    requires n > 0
  {
    (p + n - 1) / SIZE + 1
  }

  type Sizes = List<nat>

  predicate Positive(sizes: Sizes) {
    sizes.Cons? ==> sizes.head > 0 && Positive(sizes.tail)
  }

  function Sum(sizes: Sizes): nat {
    match sizes
    case Nil => 0
    case Cons(n, r) => n + Sum(r)
  }

  /** What the reads return, one after the other. */
  function Reads(e: Cipher, g: Gen, p: nat, sizes: Sizes): (r: seq<byte>)
    requires Positive(sizes)
    ensures |r| == Sum(sizes)
    decreases sizes
  {
    match sizes
    case Nil => []
    case Cons(n, r) => Window(e, g, p, n) + Reads(e, g, ReadTo(p, n), r)
  }

  /** Every read but the last asks for whole blocks. */
  predicate WholeButLast(sizes: Sizes) {
    sizes.Cons? && sizes.tail.Cons? ==> sizes.head % SIZE == 0 && WholeButLast(sizes.tail)
  }

  lemma {:induction false} WindowAppend(e: Cipher, g: Gen, p: nat, m: nat, n: nat)
    ensures Window(e, g, p, m) + Window(e, g, p + m, n) == Window(e, g, p, m + n)
  {
    hide StreamByte;
    if n > 0 { WindowAppend(e, g, p, m, n - 1); }
  }

  lemma {:induction false} WindowAt(e: Cipher, g: Gen, p: nat, n: nat, i: nat)
    requires i < n
    ensures Window(e, g, p, n)[i] == StreamByte(e, g, p + i)
  {
    hide StreamByte;
    if i < n - 1 { WindowAt(e, g, p, n - 1, i); }
  }

  lemma {:induction false} ReadToIs(p: nat, n: nat)
    requires p % SIZE == 0 && n > 0
    ensures n % SIZE == 0 ==> ReadTo(p, n) == p + n && (p + n) % SIZE == 0
    ensures n % SIZE != 0 ==> ReadTo(p, n) == p + n - 1
  {
  }

  /** Reads of whole blocks, and one of any size behind them, return the stream without a gap. */
  lemma {:induction false} WholeReadsArePrefix(e: Cipher, g: Gen, p: nat, sizes: Sizes)
    requires Positive(sizes) && WholeButLast(sizes) && p % SIZE == 0
    ensures Reads(e, g, p, sizes) == Window(e, g, p, Sum(sizes))
    decreases sizes
  {
    hide Window, ReadTo;
    if sizes.Cons? {
      var n, r := sizes.head, sizes.tail;
      if r.Nil? {
        assert Window(e, g, p, n) + [] == Window(e, g, p, n);
      } else {
        ReadToIs(p, n);
        WholeReadsArePrefix(e, g, p + n, r);
        WindowAppend(e, g, p, n, Sum(r));
      }
    } else {
      assert Window(e, g, p, 0) == [];
    }
  }

  /** Where the first read that is not of whole blocks ends. */
  function FirstPart(sizes: Sizes): nat {
    match sizes
    case Nil => 0
    case Cons(n, r) => if n % SIZE == 0 then n + FirstPart(r) else n
  }

  /** There the next read starts with the byte just returned. */
  lemma {:induction false} RepeatIs(e: Cipher, g: Gen, p: nat, sizes: Sizes)
    requires Positive(sizes) && !WholeButLast(sizes) && p % SIZE == 0
    ensures 0 < FirstPart(sizes) < Sum(sizes)
    ensures Reads(e, g, p, sizes)[FirstPart(sizes)] == StreamByte(e, g, p + FirstPart(sizes) - 1)
    decreases sizes
  {
    hide Window, ReadTo, StreamByte;
    var n, r := sizes.head, sizes.tail;
    ReadToIs(p, n);
    if n % SIZE == 0 {
      RepeatIs(e, g, p + n, r);
    } else {
      WindowAt(e, g, p + n - 1, r.head, 0);
    }
  }

  // ---------------------------------------------------------------- exactly when reads return the stream

  /** Block k equals the block before it, or is all zero and the first: the repetition check fails. */
  predicate Repeats(e: Cipher, g: Gen, k: nat) {
    StreamBlock(e, g, k) == if k == 0 then ZEROS else StreamBlock(e, g, k - 1)
  }

  /** No block from number a up to number b repeats the one before it. */
  ghost predicate NoRepeats(e: Cipher, g: Gen, a: nat, b: nat) {
    forall k: nat | a <= k < b :: !Repeats(e, g, k)
  }

  ghost predicate NoRepetition(e: Cipher, g: Gen) {
    forall k: nat :: !Repeats(e, g, k)
  }

  /** Byte i differs from the byte before it. */
  predicate Differs(e: Cipher, g: Gen, i: nat)
    requires i > 0
  {
    StreamByte(e, g, i) != StreamByte(e, g, i - 1)
  }

  /** The reads return a prefix of the stream. */
  predicate ArePrefix(e: Cipher, g: Gen, sizes: Sizes)
    requires Positive(sizes)
  {
    Reads(e, g, 0, sizes) == Window(e, g, 0, Sum(sizes))
  }

  /** The cipher is one that can be undone, as every block cipher is. */
  ghost predicate Injective(e: Cipher) {
    forall x: Block, y: Block :: e(x) == e(y) ==> x == y
  }

  // ---------------------------------------------------------------- the identity cipher

  // With it V stays as it is, and block k is DT, k counts on, with V added.

  function Same(b: Block): Block {
    b
  }

  lemma {:induction false} XorFacts(a: byte, b: byte, v: byte)
    ensures XorByte(XorByte(a, v), a) == v && XorByte(a, 0) == a
    ensures XorByte(a, v) == XorByte(b, v) ==> a == b
    ensures XorByte(a, 1) != XorByte(a, 2)
  {
  }

  lemma {:induction false} XorCancels(a: Block, v: Block)
    ensures Xor(Xor(a, v), a) == v
  {
  }

  lemma {:induction false} SameAfter(g: Gen, k: nat)
    ensures After(Same, g, k).v == g.v
    ensures StreamBlock(Same, g, k) == Xor(After(Same, g, k).dt, g.v)
    ensures k > 0 ==> After(Same, g, k).dt == Increment(After(Same, g, k - 1).dt)
  {
    hide Xor, Increment;
    if k > 0 {
      SameAfter(g, k - 1);
      XorCancels(After(Same, g, k - 1).dt, g.v);
    }
  }

  lemma {:induction false} SameCounts(g: Gen, h: Gen, k: nat)
    requires g.dt == h.dt
    ensures After(Same, g, k).dt == After(Same, h, k).dt
  {
    hide Xor, Increment;
    if k > 0 { SameCounts(g, h, k - 1); }
  }

  lemma {:induction false} XorZero(a: Block, v: Block)
    requires Xor(a, v) == ZEROS
    ensures a == v
  {
    forall i | 0 <= i < SIZE ensures a[i] == v[i] {
      assert Xor(a, v)[i] == ZEROS[i];
      XorFacts(a[i], 0, v[i]);
    }
  }

  /** No block repeats the one before it, unless DT and V are the same at the start. */
  lemma {:induction false} SameNeverRepeats(g: Gen, k: nat)
    requires g.v != g.dt
    ensures !Repeats(Same, g, k)
  {
    if k == 0 {
      if Repeats(Same, g, 0) { XorZero(g.dt, g.v); }
    }
  }

  /** V with one byte set. */
  function Mark(j: nat, c: byte): Block
    requires j < SIZE
  {
    ZEROS[j := c]
  }

  lemma {:induction false} MarkedByte(j: nat, c: byte, i: nat)
    requires j < SIZE
    ensures StreamByte(Same, Gen(Mark(j, c), ZEROS), i) ==
      XorByte(StreamByte(Same, Gen(ZEROS, ZEROS), i), if i % SIZE == j then c else 0)
  {
    hide StreamBlock;
    var g, h := Gen(Mark(j, c), ZEROS), Gen(ZEROS, ZEROS);
    var k := i / SIZE;
    SameAfter(g, k);
    SameAfter(h, k);
    SameCounts(g, h, k);
    var b := After(Same, h, k).dt;
    XorFacts(b[i % SIZE], 0, 0);
    hide XorByte;
  }

  /** For every position there is a V that makes the byte there differ from the byte before it. */
  lemma {:induction false} SomeVDiffers(i: nat) returns (g: Gen)
    requires i > 0
    ensures g.v != g.dt && Differs(Same, g, i)
  {
    hide StreamByte;
    var h := Gen(ZEROS, ZEROS);
    var j := i % SIZE;
    var a, b := StreamByte(Same, h, i), StreamByte(Same, h, i - 1);
    XorFacts(a, b, 0);
    XorFacts(b, 0, 0);
    var c: byte := if XorByte(a, 1) != b then 1 else 2;
    MarkedByte(j, c, i);
    MarkedByte(j, c, i - 1);
    g := Gen(Mark(j, c), ZEROS);
    assert g.v[j] == c && ZEROS[j] == 0;
  }

  /** Two bytes and then one: the second read starts with the byte the first one ended with. */
  lemma {:induction false} TwoThenOne() returns (g: Gen)
    ensures NoRepetition(Same, g)
    ensures Reads(Same, g, 0, Cons(2, Cons(1, Nil))) == [0, 1, 1]
    ensures Window(Same, g, 0, 3) == [0, 1, 0]
  {
    g := Gen(Mark(1, 1), ZEROS);
    assert g.v[1] == 1 && g.dt[1] == 0;
    forall k: nat ensures !Repeats(Same, g, k) { SameNeverRepeats(g, k); }
    FirstBytes(g);
    hide StreamByte;
    assert Window(Same, g, 0, 2) == Window(Same, g, 0, 1) + [1];
    assert Window(Same, g, 1, 1) == [1];
    assert Reads(Same, g, 1, Cons(1, Nil)) == [1];
  }

  lemma {:induction false} FirstBytes(g: Gen)
    requires g == Gen(Mark(1, 1), ZEROS)
    ensures StreamByte(Same, g, 0) == 0 && StreamByte(Same, g, 1) == 1 && StreamByte(Same, g, 2) == 0
  {
  }

  // ---------------------------------------------------------------- the exact condition

  /** Reads return a prefix of the stream, whatever the block cipher and the seed, exactly when every read
      but the last asks for whole blocks. */
  lemma {:induction false} PrefixIffWhole(sizes: Sizes)
    requires Positive(sizes)
    ensures (forall e: Cipher, g: Gen | Injective(e) && NoRepetition(e, g) :: ArePrefix(e, g, sizes)) <==> WholeButLast(sizes)
  {
    hide WholeButLast, Sum, Reads, Window, StreamBlock;
    if WholeButLast(sizes) {
      forall e: Cipher, g: Gen ensures ArePrefix(e, g, sizes) {
        WholeReadsArePrefix(e, g, 0, sizes);
      }
    } else {
      var g := PartReadsAreNoPrefix(sizes);
      assert Injective(Same);
    }
  }

  lemma {:induction false} PartReadsAreNoPrefix(sizes: Sizes) returns (g: Gen)
    requires Positive(sizes) && !WholeButLast(sizes)
    ensures NoRepetition(Same, g) && !ArePrefix(Same, g, sizes)
  {
    hide Window, Reads, StreamByte, WholeButLast, Sum;
    var i := FirstPart(sizes);
    RepeatIs(Same, Gen(ZEROS, ZEROS), 0, sizes);
    g := SomeVDiffers(i);
    forall k: nat ensures !Repeats(Same, g, k) { SameNeverRepeats(g, k); }
    RepeatIs(Same, g, 0, sizes);
    WindowAt(Same, g, 0, Sum(sizes), i);
    assert Differs(Same, g, i);
  }
}
