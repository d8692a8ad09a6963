/**
 The generator as ansi_cprng.c runs it: a context whose buffers are refilled in place and a read
 that jumps between copying the rest of a block and copying whole blocks.
 */
module PrngCode {
  import opened Lists
  import opened PrngModel

  /** DT counts up in place, from the last byte. */
  method IncrementBlock(a: array<byte>)
    modifies a
    ensures a[..] == Increment(old(a[..]))
  {
    ghost var was := a[..];
    assert was[..a.Length] == was;
    var i := a.Length - 1;
    while i >= 0
      invariant -1 <= i < a.Length
      invariant a[..i + 1] == was[..i + 1]
      invariant Increment(was) == Increment(was[..i + 1]) + a[i + 1..]
    {
      ghost var head := was[..i + 1];
      ghost var rest := a[i + 1..];
      assert head[..i] == was[..i] == a[..i];
      a[i] := a[i] + 1;
      assert a[i..] == [a[i]] + rest;
      if a[i] != 0 {
        assert Increment(head) == was[..i] + [a[i]];
        assert a[..] == was[..i] + [a[i]] + rest;
        return;
      }
      assert Increment(head) == Increment(was[..i]) + [0];
      i := i - 1;
    }
    assert was[..0] == [];
  }

  method XorVectors(in1: array<byte>, in2: array<byte>, out: array<byte>)
    requires in1.Length == in2.Length == out.Length == SIZE
    requires out != in1 && out != in2
    modifies out
    ensures out[..] == Xor(in1[..], in2[..])
  {
    for i := 0 to SIZE
      invariant forall j :: 0 <= j < i ==> out[j] == XorByte(in1[j], in2[j])
    {
      out[i] := XorByte(in1[i], in2[i]);
    }
  }

  method CopyBlock(b: seq<byte>, out: array<byte>)
    requires |b| == out.Length
    modifies out
    ensures out[..] == b
  {
    for i := 0 to |b|
      invariant out[..i] == b[..i]
    {
      out[i] := b[i];
    }
  }

  lemma {:induction false} RoundIs(e: Cipher, seed: Gen, k: nat)
    ensures StreamBlock(e, seed, k) == Output(e, After(e, seed, k))
    ensures After(e, seed, k + 1) == Next(e, After(e, seed, k))
  {
  }

  lemma {:induction false} ByteIs(e: Cipher, g: Gen, k: nat, j: nat)
    requires j < SIZE
    ensures StreamByte(e, g, SIZE * k + j) == StreamBlock(e, g, k)[j]
  {
  }

  lemma {:induction false} WindowStep(e: Cipher, g: Gen, p: nat, n: nat)
    ensures Window(e, g, p, n + 1) == Window(e, g, p, n) + [StreamByte(e, g, p + n)]
  {
  }

  lemma {:induction false} WindowEmpty(e: Cipher, g: Gen, p: nat)
    ensures Window(e, g, p, 0) == []
  {
  }

  /** Where a read is: at the label remainder, in the byte loop, in the block loop, or done. */
  datatype At = Remainder | EmptyBuffer | WholeBlocks | Done

  /** Where a read that ends with a whole block is, and one that ends in the byte loop. */
  lemma {:induction false} EndsWithBlock(p: nat, n: nat, blocks: nat)
    requires n >= SIZE && p + n == SIZE * blocks
    ensures ReadTo(p, n) == p + n && Through(p, n) == blocks
  {
  }

  lemma {:induction false} EndsInBlock(p: nat, n: nat, blocks: nat, valid: nat)
    requires n > 0 && p + n - 1 == SIZE * (blocks - 1) + valid && valid < SIZE
    requires n >= SIZE ==> valid != SIZE - 1
    ensures ReadTo(p, n) == p + n - 1 && Through(p, n) == blocks
  {
  }

  lemma {:induction false} NotYetThrough(p: nat, n: nat, blocks: nat)
    requires n > 0 && SIZE * blocks < p + n
    ensures blocks < Through(p, n)
  {
  }

  function Rank(at: At, count: nat): nat {
    match at
    case Remainder => if count < SIZE then 2 else 3
    case EmptyBuffer => 1
    case WholeBlocks => if count < SIZE then 3 else 2
    case Done => 0
  }

  const EINVAL := 22

  // "0123456789abcdef" and "zaybxcwdveuftgsh"
  const DEFAULT_KEY: Block := [48, 49, 50, 51, 52, 53, 54, 55, 56, 57, 97, 98, 99, 100, 101, 102]
  const DEFAULT_V: Block := [122, 97, 121, 98, 120, 99, 119, 100, 118, 101, 117, 102, 116, 103, 115, 104]

  method Zero(buf: array<byte>, n: nat)
    requires n <= buf.Length
    modifies buf
    ensures forall j :: 0 <= j < n ==> buf[j] == 0
    ensures buf[n..] == old(buf[n..])
  {
    for j := 0 to n
      invariant forall k :: 0 <= k < j ==> buf[k] == 0
      invariant buf[n..] == old(buf[n..])
    {
      buf[j] := 0;
    }
  }

  class Context {
    const randData: array<byte>
    const lastRandData: array<byte>
    const dt: array<byte>
    const intermediate: array<byte>
    const v: array<byte>
    var randDataValid: nat
    var needReset: bool
    const fixedSize: bool
    var cipher: Cipher                     // the cipher under the key of the last reset
    ghost var seed: Gen                    // what the last reset put into V and DT
    ghost var blocks: nat                  // how many blocks were made since

    ghost predicate Shape()
      reads this
    {
      && randData.Length == lastRandData.Length == dt.Length == intermediate.Length == v.Length == SIZE
      && randData != lastRandData && randData != dt && randData != intermediate && randData != v
      && lastRandData != dt && lastRandData != intermediate && lastRandData != v
      && dt != intermediate && dt != v && intermediate != v
      && randDataValid <= SIZE && (blocks == 0 ==> randDataValid == SIZE)
    }

    /** The context is where the stream of its seed is after blocks blocks. */
    ghost predicate Follows()
      requires Shape()
      reads this, randData, lastRandData, dt, v
    {
      && Gen(v[..], dt[..]) == After(cipher, seed, blocks)
      && lastRandData[..] == (if blocks == 0 then ZEROS else StreamBlock(cipher, seed, blocks - 1))
      && (blocks > 0 ==> randData[..] == lastRandData[..])
    }

    ghost predicate Valid()
      reads this, randData, lastRandData, dt, v
    {
      Shape() && (!needReset ==> Follows())
    }

    /** The stream position of the next byte the context hands out. */
    ghost function Position(): nat
      requires Shape()
      reads this
    {
      SIZE * (blocks - 1) + randDataValid
    }

    /** As cprng_init leaves it: nothing can be read before a reset. */
    constructor (fixedSize: bool, cipher: Cipher)
      ensures Valid() && needReset && this.fixedSize == fixedSize
      ensures fresh(randData) && fresh(lastRandData) && fresh(dt) && fresh(intermediate) && fresh(v)
    {
      randData := new byte[SIZE];
      lastRandData := new byte[SIZE];
      dt := new byte[SIZE];
      intermediate := new byte[SIZE];
      v := new byte[SIZE];
      randDataValid := SIZE;
      needReset := true;
      this.fixedSize := fixedSize;
      this.cipher := cipher;
      blocks := 0;
    }

    /** A new seed, with a default for each part that is not given. Without a key no reads come after. */
    method Reset(setKey: seq<byte> -> Option<Cipher>, key: Option<seq<byte>>, newV: Option<Block>, newDt: Option<Block>)
        returns (ok: bool)
      requires Shape()
      modifies this`randDataValid, this`needReset, this`cipher, this`seed, this`blocks
      modifies randData, lastRandData, dt, v
      ensures Valid() && ok == !needReset
      ensures ok == setKey(if key.Some? then key.value else DEFAULT_KEY).Some?
      ensures ok ==> Some(cipher) == setKey(if key.Some? then key.value else DEFAULT_KEY)
      ensures ok ==> seed.v == if newV.Some? then newV.value else DEFAULT_V
      ensures ok ==> seed.dt == if newDt.Some? then newDt.value else ZEROS
      ensures ok ==> blocks == 0 && Position() == 0
    {
      needReset := true;
      CopyBlock(if newV.Some? then newV.value else DEFAULT_V, v);
      CopyBlock(if newDt.Some? then newDt.value else ZEROS, dt);
      CopyBlock(ZEROS, randData);
      CopyBlock(ZEROS, lastRandData);
      randDataValid := SIZE;
      blocks := 0;
      var e := setKey(if key.Some? then key.value else DEFAULT_KEY);
      if e.None? {
        return false;
      }
      cipher := e.value;
      seed := Gen(v[..], dt[..]);
      needReset := false;
      return true;
    }

    /** The three stages of a round: DT gives I, I and V give the block, the block and I the next V. */
    method RunStages() returns (ok: bool)
      requires Shape()
      modifies this`needReset, randData, lastRandData, intermediate, v
      ensures ok == (Output(cipher, Gen(old(v[..]), dt[..])) != old(lastRandData[..]))
      ensures needReset == (old(needReset) || !ok)
      ensures ok ==> randData[..] == lastRandData[..] == Output(cipher, Gen(old(v[..]), dt[..]))
      ensures ok ==> v[..] == Next(cipher, Gen(old(v[..]), dt[..])).v
    {
      hide Increment, Xor, Position;
      ghost var g := Gen(v[..], dt[..]);
      ghost var last := lastRandData[..];
      var tmp := new byte[SIZE];
      for stage := 0 to 3
        modifies this`needReset, randData, lastRandData, intermediate, v, tmp
        invariant needReset == old(needReset)
        invariant stage > 0 ==> intermediate[..] == Intermediate(cipher, g)
        invariant stage > 1 ==> randData[..] == Output(cipher, g)
        invariant stage <= 2 ==> v[..] == g.v && lastRandData[..] == last
        invariant stage > 2 ==>
          v[..] == Next(cipher, g).v && lastRandData[..] == Output(cipher, g) != last
      {
        var output := intermediate;
        if stage == 0 {
          CopyBlock(dt[..], tmp);
        } else if stage == 1 {
          XorVectors(intermediate, v, tmp);
          output := randData;
        } else {
          if randData[..] == lastRandData[..] {
            needReset := true;
            return false;
          }
          CopyBlock(randData[..], lastRandData);
          XorVectors(randData, intermediate, tmp);
          output := v;
        }
        CopyBlock(cipher(tmp[..]), output);
      }
      return true;
    }

    /** One round of the generator; it fails exactly when the block it makes repeats the one before. */
    method GetMoreBytes() returns (ok: bool)
      requires Valid() && !needReset
      modifies this`randDataValid, this`needReset, this`blocks, randData, lastRandData, dt, intermediate, v
      ensures Valid() && ok == !needReset
      ensures ok == !Repeats(cipher, seed, old(blocks))
      ensures ok ==> blocks == old(blocks) + 1 && randDataValid == 0
      ensures !ok ==> blocks == old(blocks) && randDataValid == old(randDataValid)
    {
      hide After, StreamBlock, Increment, Output;
      RoundIs(cipher, seed, blocks);
      ok := RunStages();
      if ok {
        IncrementBlock(dt);
        randDataValid := 0;
        blocks := blocks + 1;
      }
    }

    /** Byte after byte until the block or the request ends; the byte that ends the request stays current.
        There are left bytes to go, and byteCount counts them in 32 bits. */
    method CopyRest(buf: array<byte>, ptr: nat, byteCount: nat, ghost left: nat, ghost p: nat)
        returns (m: nat, count: nat)
      requires Valid() && !needReset && blocks > 0 && randDataValid < SIZE
      requires 0 < left <= WRAP && byteCount == Low(left) && ptr + left <= buf.Length
      requires buf !in {randData, lastRandData, dt, v}
      requires buf[..ptr] == Window(cipher, seed, p, ptr) && Position() == p + ptr
      modifies this`randDataValid, buf
      ensures Valid()
      ensures m == if left <= SIZE - old(randDataValid) then left else SIZE - old(randDataValid)
      ensures count == left - m
      ensures buf[..ptr + m] == Window(cipher, seed, p, ptr + m)
      ensures buf[ptr + m..] == old(buf[ptr + m..])
      ensures randDataValid == if m == left then old(randDataValid) + m - 1 else SIZE
    {
      hide StreamBlock, After, Window, StreamByte;
      ghost var block := StreamBlock(cipher, seed, blocks - 1);
      assert randData[..] == block;
      m := 0;
      count := byteCount;
      while randDataValid < SIZE
        modifies this`randDataValid, buf
        invariant m < left && randDataValid == old(randDataValid) + m <= SIZE && count == Low(left - m)
        invariant buf[..ptr + m] == Window(cipher, seed, p, ptr + m)
        invariant forall k :: ptr + m <= k < buf.Length ==> buf[k] == old(buf[k])
        decreases SIZE - randDataValid
      {
        ByteIs(cipher, seed, blocks - 1, randDataValid);
        WindowStep(cipher, seed, p, ptr + m);
        buf[ptr + m] := randData[randDataValid];
        m := m + 1;
        count := if count == 0 then WRAP - 1 else count - 1;
        assert buf[..ptr + m] == buf[..ptr + m - 1] + [randData[randDataValid]];
        if count == 0 {
          return;
        }
        randDataValid := randDataValid + 1;
      }
    }

    /** A whole fresh block at once. */
    method CopyWhole(buf: array<byte>, ptr: nat, ghost p: nat)
      requires Valid() && !needReset && blocks > 0 && randDataValid == 0
      requires ptr + SIZE <= buf.Length
      requires buf !in {randData, lastRandData, dt, v}
      requires buf[..ptr] == Window(cipher, seed, p, ptr) && Position() == p + ptr
      modifies this`randDataValid, buf
      ensures Valid() && randDataValid == SIZE
      ensures buf[..ptr + SIZE] == Window(cipher, seed, p, ptr + SIZE)
      ensures buf[ptr + SIZE..] == old(buf[ptr + SIZE..])
    {
      hide StreamBlock, After, Window, StreamByte;
      ghost var block := StreamBlock(cipher, seed, blocks - 1);
      assert randData[..] == block;
      for j := 0 to SIZE
        modifies buf
        invariant buf[..ptr + j] == Window(cipher, seed, p, ptr + j)
        invariant forall k :: ptr + j <= k < buf.Length ==> buf[k] == old(buf[k])
      {
        ByteIs(cipher, seed, blocks - 1, j);
        WindowStep(cipher, seed, p, ptr + j);
        buf[ptr + j] := randData[j];
        assert buf[..ptr + j + 1] == buf[..ptr + j] + [randData[j]];
      }
      randDataValid := SIZE;
    }

    /** How far a read of n bytes from position p may be at each of its labels. */
    ghost predicate Reading(at: At, p: nat, n: nat, left: nat)
      requires Shape() && left <= n && 0 < n
      reads this
    {
      && (at != Done ==> Position() == p + n - left)
      && match at
         case Remainder => 0 < left && (left == n || randDataValid == SIZE)
         case EmptyBuffer =>
           0 < left && 0 < blocks && randDataValid < SIZE && (n >= SIZE ==> left != SIZE - randDataValid)
         case WholeBlocks =>
           left < WRAP && (left >= SIZE || randDataValid == SIZE) && (left == 0 ==> n >= SIZE)
         case Done => left == 0 && Position() == ReadTo(p, n) && blocks == Through(p, n)
    }

    /** A new block where the last one is used up; without one the buffer is cleared. */
    method Refill(buf: array<byte>, nbytes: nat) returns (ok: bool)
      requires Valid() && !needReset && nbytes <= buf.Length
      requires buf !in {randData, lastRandData, dt, intermediate, v}
      modifies this`randDataValid, this`needReset, this`blocks, buf
      modifies randData, lastRandData, dt, intermediate, v
      ensures Valid() && ok == !needReset && Position() == old(Position())
      ensures ok ==> buf[..] == old(buf[..]) && randDataValid < SIZE && 0 < blocks
      ensures blocks == old(blocks) + if ok && old(randDataValid) == SIZE then 1 else 0
      ensures ok && old(randDataValid) < SIZE ==> randDataValid == old(randDataValid)
      ensures old(randDataValid) == SIZE ==> ok == !Repeats(cipher, seed, old(blocks))
      ensures !ok ==> old(randDataValid) == SIZE && forall j :: 0 <= j < nbytes ==> buf[j] == 0
      ensures buf[nbytes..] == old(buf[nbytes..])
    {
      hide StreamBlock, After, Repeats;
      ok := true;
      if randDataValid == SIZE {
        ok := GetMoreBytes();
        if !ok {
          Zero(buf, nbytes);
        }
      }
    }

    /** What holds whenever a read of n bytes from position p comes to a label: ptr bytes are in buf, left
        are to go, and from block b on none that was made repeated the one before. */
    ghost predicate Under(buf: array<byte>, at: At, p: nat, n: nat, ptr: nat, left: nat, b: nat)
      reads this, buf, randData, lastRandData, dt, v
    {
      && Valid() && !needReset && buf !in {randData, lastRandData, dt, intermediate, v}
      && 0 < n <= WRAP && ptr + left == n <= buf.Length && Reading(at, p, n, left)
      && buf[..ptr] == Window(cipher, seed, p, ptr)
      && b <= blocks && NoRepeats(cipher, seed, b, blocks)
    }

    /** A read that can not go on. */
    ghost predicate Stopped(buf: array<byte>, p: nat, n: nat, b: nat, nbytes: nat)
      requires n > 0 && nbytes <= buf.Length
      reads this, buf, randData, lastRandData, dt, v
    {
      && Valid() && needReset && !NoRepeats(cipher, seed, b, Through(p, n))
      && forall j :: 0 <= j < nbytes ==> buf[j] == 0
    }

    /** The label remainder: a block is made if none is left. */
    method AtRemainder(buf: array<byte>, nbytes: nat, count: nat, ghost p: nat, ghost n: nat, ghost ptr: nat,
        ghost left: nat, ghost b: nat) returns (ok: bool, at: At)
      requires Under(buf, Remainder, p, n, ptr, left, b) && count == Low(left) && nbytes <= buf.Length
      modifies this`randDataValid, this`needReset, this`blocks, buf
      modifies randData, lastRandData, dt, intermediate, v
      ensures if ok then Under(buf, at, p, n, ptr, left, b) else Stopped(buf, p, n, b, nbytes)
      ensures ok ==> at == if count < SIZE then EmptyBuffer else WholeBlocks
      ensures buf[Larger(n, nbytes)..] == old(buf[Larger(n, nbytes)..])
    {
      hide StreamBlock, After, Window, Repeats, ReadTo, Through, Follows;
      ghost var was := buf[..];
      ok := Refill(buf, nbytes);
      KeptBehind(was, buf[..], nbytes, Larger(n, nbytes));
      if !ok {
        NotYetThrough(p, n, blocks);
      }
      at := if count < SIZE then EmptyBuffer else WholeBlocks;
    }

    /** The label empty_rbuf: what is left of the block, or of the read. */
    method AtEmptyBuffer(buf: array<byte>, ptr: nat, count: nat, ghost p: nat, ghost n: nat, ghost left: nat,
        ghost b: nat)
        returns (m: nat, rest: nat, at: At)
      requires Under(buf, EmptyBuffer, p, n, ptr, left, b) && count == Low(left)
      modifies this`randDataValid, buf
      ensures 0 < m <= left && rest == left - m && Under(buf, at, p, n, ptr + m, left - m, b)
      ensures at == if rest == 0 then Done else WholeBlocks
      ensures buf[n..] == old(buf[n..])
    {
      hide StreamBlock, After, Window, Repeats, ReadTo, Through, Follows;
      ghost var was := buf[..];
      m, rest := CopyRest(buf, ptr, count, left, p);
      KeptBehind(was, buf[..], ptr + m, n);
      if rest == 0 {
        EndsInBlock(p, n, blocks, randDataValid);
      }
      at := if rest == 0 then Done else WholeBlocks;
    }

    /** Where the loop over whole blocks goes on. */
    function Onward(count: nat): At {
      if count >= SIZE then EmptyBuffer else if count > 0 then Remainder else Done
    }

    /** One turn of the loop over whole blocks. */
    method AtWholeBlocks(buf: array<byte>, nbytes: nat, ptr: nat, count: nat, ghost p: nat, ghost n: nat, ghost b: nat)
        returns (ok: bool, m: nat, at: At)
      requires Under(buf, WholeBlocks, p, n, ptr, count, b) && nbytes <= buf.Length
      modifies this`randDataValid, this`needReset, this`blocks, buf
      modifies randData, lastRandData, dt, intermediate, v
      ensures if ok then m <= count && Under(buf, at, p, n, ptr + m, count - m, b) else Stopped(buf, p, n, b, nbytes)
      ensures ok ==> (m == SIZE && at == WholeBlocks) || (m == 0 && at == Onward(count))
      ensures buf[Larger(n, nbytes)..] == old(buf[Larger(n, nbytes)..])
    {
      hide StreamBlock, After, Window, Repeats, ReadTo, Through, Follows;
      ok, m := true, 0;
      if count >= SIZE {
        ghost var was := buf[..];
        ok := Refill(buf, nbytes);
        KeptBehind(was, buf[..], nbytes, Larger(n, nbytes));
        at := EmptyBuffer;
        if !ok {
          NotYetThrough(p, n, blocks);
        } else if randDataValid == 0 {
          was := buf[..];
          CopyWhole(buf, ptr, p);
          KeptBehind(was, buf[..], ptr + SIZE, Larger(n, nbytes));
          m, at := SIZE, WholeBlocks;
        }
      } else {
        if count == 0 {
          EndsWithBlock(p, n, blocks);
        }
        at := if count > 0 then Remainder else Done;
      }
    }

    /** The jumps of a read; n bytes are written before byteCount has been counted down to zero. */
    method ReadBytes(buf: array<byte>, nbytes: nat, byteCount: nat, ghost n: nat) returns (ok: bool)
      requires Valid() && !needReset && 0 < n <= WRAP && byteCount == Low(n)
      requires n <= buf.Length && nbytes <= buf.Length
      requires buf !in {randData, lastRandData, dt, intermediate, v}
      modifies this`randDataValid, this`needReset, this`blocks, buf
      modifies randData, lastRandData, dt, intermediate, v
      ensures Valid() && ok == !needReset
      ensures buf[Larger(n, nbytes)..] == old(buf[Larger(n, nbytes)..])
      ensures ok == NoRepeats(cipher, seed, old(blocks), Through(old(Position()), n))
      ensures ok ==> buf[..n] == Window(cipher, seed, old(Position()), n)
      ensures ok ==> Position() == ReadTo(old(Position()), n)
      ensures !ok ==> forall j :: 0 <= j < nbytes ==> buf[j] == 0
    {
      hide StreamBlock, After, Window, Repeats, ReadTo, Through, Follows, NoRepeats;
      ghost var p := Position();
      ghost var b := blocks;
      var ptr: nat, count: nat := 0, byteCount;
      ghost var left, hi := n, Larger(n, nbytes);
      var at := Remainder;
      WindowEmpty(cipher, seed, p);
      NoneYet(cipher, seed, b);
      while at != Done
        invariant Under(buf, at, p, n, ptr, left, b) && count == Low(left)
        invariant buf[hi..] == old(buf[hi..])
        decreases left, Rank(at, left)
      {
        match at
        case Remainder =>
          ok, at := AtRemainder(buf, nbytes, count, p, n, ptr, left, b);
          if !ok {
            return;
          }
        case EmptyBuffer =>
          var m;
          ghost var was := buf[..];
          m, count, at := AtEmptyBuffer(buf, ptr, count, p, n, left, b);
          KeptBehind(was, buf[..], n, hi);
          ptr := ptr + m;
          left := left - m;
        case WholeBlocks =>
          var m;
          ok, m, at := AtWholeBlocks(buf, nbytes, ptr, count, p, n, b);
          if !ok {
            return;
          }
          ptr, count := ptr + m, count - m;
          left := left - m;
      }
      return true;
    }

    /** A read of nbytes bytes into buf. It returns the next bytes of the stream and how many, or fails:
        when a reset is due, when blocks of fixed size are asked for less than a block, or when a block
        it needs repeats the one before. buf is the memory from the caller's buffer on, of which the first
        nbytes bytes are the caller's: a read of none writes behind them (StaysInside). */
    method GetBytes(buf: array<byte>, nbytes: nat) returns (err: int)
      requires Valid() && nbytes <= buf.Length
      requires Copies(needReset, fixedSize, nbytes) ==> BytesOf(fixedSize, nbytes) <= buf.Length
      requires buf !in {randData, lastRandData, dt, intermediate, v}
      modifies this`randDataValid, this`needReset, this`blocks, buf
      modifies randData, lastRandData, dt, intermediate, v
      ensures Valid()
      ensures !old(Copies(needReset, fixedSize, nbytes)) ==>
        err == -EINVAL && buf[..] == old(buf[..]) && needReset == old(needReset) &&
        randDataValid == old(randDataValid) && blocks == old(blocks)
      ensures old(Copies(needReset, fixedSize, nbytes)) ==>
        var n := BytesOf(fixedSize, nbytes);
        var p := old(Position());
        && buf[Larger(n, nbytes)..] == old(buf[Larger(n, nbytes)..])
        && if NoRepeats(cipher, seed, old(blocks), Through(p, n)) then
             err == Signed(Low(n)) && !needReset && buf[..n] == Window(cipher, seed, p, n) && Position() == ReadTo(p, n)
           else
             err == -EINVAL && needReset && forall j :: 0 <= j < nbytes ==> buf[j] == 0
    {
      hide StreamBlock, After, Window, NoRepeats, ReadTo, Through;
      if needReset {
        return -EINVAL;
      }
      var byteCount := nbytes % WRAP;
      if fixedSize {
        if nbytes < SIZE {
          return -EINVAL;
        }
        byteCount := SIZE;
      }
      var ok := ReadBytes(buf, nbytes, byteCount, BytesOf(fixedSize, nbytes));
      return if ok then Signed(byteCount) else -EINVAL;
    }
  }

  /** An unsigned number of 32 bits as an int. */
  function Signed(n: nat): int {
    if n < WRAP / 2 then n else n - WRAP
  }

  function Larger(a: nat, b: nat): nat {
    if a < b then b else a
  }

  lemma {:induction false} KeptBehind(was: seq<byte>, now: seq<byte>, n: nat, hi: nat)
    requires |was| == |now| && n <= hi <= |was| && now[n..] == was[n..]
    ensures now[hi..] == was[hi..]
  {
  }

  lemma {:induction false} NoneYet(e: Cipher, g: Gen, b: nat)
    ensures NoRepeats(e, g, b, b)
  {
  }
}
