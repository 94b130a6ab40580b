/** md4.c: one block, written out; and hashing in any number of pieces. */
module Md4 {
  import opened Md4Spec

  // ---------- one block ----------

  lemma NoSteps(n: nat, r: Regs, x: seq<word>)
    requires n <= 48 && |x| == 16
    ensures Steps(n, n, r, x) == r
  {
  }

  lemma OneStep(i: nat, n: nat, r: Regs, x: seq<word>)
    requires i < n <= 48 && |x| == 16
    ensures Steps(i, n, r, x) == Steps(i + 1, n, Step(i, r, x), x)
  {
    hide Step;
  }

  lemma FourSteps(i: nat, n: nat, r: Regs, x: seq<word>)
    requires i + 4 <= n <= 48 && |x| == 16
    ensures Steps(i, n, r, x) == Steps(i + 4, n, Step(i + 3, Step(i + 2, Step(i + 1, Step(i, r, x), x), x), x), x)
  {
    hide Step, Steps;
    OneStep(i, n, r, x);
    var r1 := Step(i, r, x);
    OneStep(i + 1, n, r1, x);
    var r2 := Step(i + 1, r1, x);
    OneStep(i + 2, n, r2, x);
    OneStep(i + 3, n, Step(i + 2, r2, x), x);
  }

  lemma StepIs(i: nat, a: word, b: word, c: word, d: word, x: seq<word>, k: nat, s: nat)
    requires i < 48 && |x| == 16 && k == Index(i) && s == Shift(i)
    ensures i < 16 ==> Step(i, Regs(a, b, c, d), x) == Regs(d, Round1(a, b, c, d, x[k], s), b, c)
    ensures 16 <= i < 32 ==> Step(i, Regs(a, b, c, d), x) == Regs(d, Round2(a, b, c, d, x[k], s), b, c)
    ensures 32 <= i ==> Step(i, Regs(a, b, c, d), x) == Regs(d, Round3(a, b, c, d, x[k], s), b, c)
  {
    hide Round1, Round2, Round3, Index, Shift;
  }

  /** Where the word and the shift of operation j of a quarter of a round are. */
  lemma Place1(q: nat, j: nat, i: nat)
    requires q < 4 && j < 4 && i == 4 * q + j
    ensures Index(i) == i && Shift(i) == [3, 7, 11, 19][j]
  {
    assert i % 4 == j;
  }

  lemma Place2(q: nat, j: nat, i: nat)
    requires q < 4 && j < 4 && i == 16 + 4 * q + j
    ensures Index(i) == q + 4 * j && Shift(i) == [3, 5, 9, 13][j]
  {
    assert i % 4 == j && i / 4 == 4 + q;
  }

  lemma Place3(q: nat, j: nat, i: nat)
    requires q < 4 && j < 4 && i == 32 + 4 * q + j
    ensures Index(i) == Reverse2(q) + 4 * Reverse2(j) && Shift(i) == [3, 9, 11, 15][j]
  {
    assert i % 4 == j && i / 4 == 8 + q;
  }

  /** Four operations of round 1: then the registers are back in their places. */
  lemma Four1(q: nat, n: nat, a: word, b: word, c: word, d: word, x: seq<word>)
    requires q < 4 && n == 16 && |x| == 16
    ensures var a' := Round1(a, b, c, d, x[4 * q], 3);
            var d' := Round1(d, a', b, c, x[4 * q + 1], 7);
            var c' := Round1(c, d', a', b, x[4 * q + 2], 11);
            var b' := Round1(b, c', d', a', x[4 * q + 3], 19);
            Steps(4 * q, n, Regs(a, b, c, d), x) == Steps(4 * q + 4, n, Regs(a', b', c', d'), x)
  {
    hide Round1, Steps, Step, Index, Shift;
    var i := 4 * q;
    var a' := Round1(a, b, c, d, x[4 * q], 3);
    var d' := Round1(d, a', b, c, x[4 * q + 1], 7);
    var c' := Round1(c, d', a', b, x[4 * q + 2], 11);
    FourSteps(i, n, Regs(a, b, c, d), x);
    Place1(q, 0, i);
    StepIs(i, a, b, c, d, x, 4 * q, 3);
    Place1(q, 1, i + 1);
    StepIs(i + 1, d, a', b, c, x, 4 * q + 1, 7);
    Place1(q, 2, i + 2);
    StepIs(i + 2, c, d', a', b, x, 4 * q + 2, 11);
    Place1(q, 3, i + 3);
    StepIs(i + 3, b, c', d', a', x, 4 * q + 3, 19);
  }

  /** Four operations of round 2: then the registers are back in their places. */
  lemma Four2(q: nat, n: nat, a: word, b: word, c: word, d: word, x: seq<word>)
    requires q < 4 && n == 32 && |x| == 16
    ensures var a' := Round2(a, b, c, d, x[q], 3);
            var d' := Round2(d, a', b, c, x[q + 4], 5);
            var c' := Round2(c, d', a', b, x[q + 8], 9);
            var b' := Round2(b, c', d', a', x[q + 12], 13);
            Steps(16 + 4 * q, n, Regs(a, b, c, d), x) == Steps(16 + 4 * q + 4, n, Regs(a', b', c', d'), x)
  {
    hide Round2, Steps, Step, Index, Shift;
    var i := 16 + 4 * q;
    var a' := Round2(a, b, c, d, x[q], 3);
    var d' := Round2(d, a', b, c, x[q + 4], 5);
    var c' := Round2(c, d', a', b, x[q + 8], 9);
    FourSteps(i, n, Regs(a, b, c, d), x);
    Place2(q, 0, i);
    StepIs(i, a, b, c, d, x, q, 3);
    Place2(q, 1, i + 1);
    StepIs(i + 1, d, a', b, c, x, q + 4, 5);
    Place2(q, 2, i + 2);
    StepIs(i + 2, c, d', a', b, x, q + 8, 9);
    Place2(q, 3, i + 3);
    StepIs(i + 3, b, c', d', a', x, q + 12, 13);
  }

  /** Four operations of round 3: then the registers are back in their places. */
  lemma Four3(q: nat, n: nat, a: word, b: word, c: word, d: word, x: seq<word>)
    requires q < 4 && n == 48 && |x| == 16
    ensures var a' := Round3(a, b, c, d, x[Reverse2(q)], 3);
            var d' := Round3(d, a', b, c, x[Reverse2(q) + 8], 9);
            var c' := Round3(c, d', a', b, x[Reverse2(q) + 4], 11);
            var b' := Round3(b, c', d', a', x[Reverse2(q) + 12], 15);
            Steps(32 + 4 * q, n, Regs(a, b, c, d), x) == Steps(32 + 4 * q + 4, n, Regs(a', b', c', d'), x)
  {
    hide Round3, Steps, Step, Index, Shift;
    var i := 32 + 4 * q;
    var a' := Round3(a, b, c, d, x[Reverse2(q)], 3);
    var d' := Round3(d, a', b, c, x[Reverse2(q) + 8], 9);
    var c' := Round3(c, d', a', b, x[Reverse2(q) + 4], 11);
    FourSteps(i, n, Regs(a, b, c, d), x);
    Place3(q, 0, i);
    StepIs(i, a, b, c, d, x, Reverse2(q), 3);
    Place3(q, 1, i + 1);
    StepIs(i + 1, d, a', b, c, x, Reverse2(q) + 8, 9);
    Place3(q, 2, i + 2);
    StepIs(i + 2, c, d', a', b, x, Reverse2(q) + 4, 11);
    Place3(q, 3, i + 3);
    StepIs(i + 3, b, c', d', a', x, Reverse2(q) + 12, 15);
  }

  /** ROUND1, sixteen times. */
  method FirstRound(a0: word, b0: word, c0: word, d0: word, x: seq<word>) returns (a: word, b: word, c: word, d: word)
    requires |x| == 16
    ensures Regs(a, b, c, d) == Steps(0, 16, Regs(a0, b0, c0, d0), x)
  {
    hide Round1, Steps;
    a, b, c, d := a0, b0, c0, d0;
    Four1(0, 16, a, b, c, d, x);
    a := Round1(a, b, c, d, x[0], 3);
    d := Round1(d, a, b, c, x[1], 7);
    c := Round1(c, d, a, b, x[2], 11);
    b := Round1(b, c, d, a, x[3], 19);
    Four1(1, 16, a, b, c, d, x);
    a := Round1(a, b, c, d, x[4], 3);
    d := Round1(d, a, b, c, x[5], 7);
    c := Round1(c, d, a, b, x[6], 11);
    b := Round1(b, c, d, a, x[7], 19);
    Four1(2, 16, a, b, c, d, x);
    a := Round1(a, b, c, d, x[8], 3);
    d := Round1(d, a, b, c, x[9], 7);
    c := Round1(c, d, a, b, x[10], 11);
    b := Round1(b, c, d, a, x[11], 19);
    Four1(3, 16, a, b, c, d, x);
    a := Round1(a, b, c, d, x[12], 3);
    d := Round1(d, a, b, c, x[13], 7);
    c := Round1(c, d, a, b, x[14], 11);
    b := Round1(b, c, d, a, x[15], 19);
    NoSteps(16, Regs(a, b, c, d), x);
  }

  /** ROUND2, sixteen times. */
  method SecondRound(a0: word, b0: word, c0: word, d0: word, x: seq<word>) returns (a: word, b: word, c: word, d: word)
    requires |x| == 16
    ensures Regs(a, b, c, d) == Steps(16, 32, Regs(a0, b0, c0, d0), x)
  {
    hide Round2, Steps;
    a, b, c, d := a0, b0, c0, d0;
    Four2(0, 32, a, b, c, d, x);
    a := Round2(a, b, c, d, x[0], 3);
    d := Round2(d, a, b, c, x[4], 5);
    c := Round2(c, d, a, b, x[8], 9);
    b := Round2(b, c, d, a, x[12], 13);
    Four2(1, 32, a, b, c, d, x);
    a := Round2(a, b, c, d, x[1], 3);
    d := Round2(d, a, b, c, x[5], 5);
    c := Round2(c, d, a, b, x[9], 9);
    b := Round2(b, c, d, a, x[13], 13);
    Four2(2, 32, a, b, c, d, x);
    a := Round2(a, b, c, d, x[2], 3);
    d := Round2(d, a, b, c, x[6], 5);
    c := Round2(c, d, a, b, x[10], 9);
    b := Round2(b, c, d, a, x[14], 13);
    Four2(3, 32, a, b, c, d, x);
    a := Round2(a, b, c, d, x[3], 3);
    d := Round2(d, a, b, c, x[7], 5);
    c := Round2(c, d, a, b, x[11], 9);
    b := Round2(b, c, d, a, x[15], 13);
    NoSteps(32, Regs(a, b, c, d), x);
  }

  /** ROUND3, sixteen times. */
  method ThirdRound(a0: word, b0: word, c0: word, d0: word, x: seq<word>) returns (a: word, b: word, c: word, d: word)
    requires |x| == 16
    ensures Regs(a, b, c, d) == Steps(32, 48, Regs(a0, b0, c0, d0), x)
  {
    hide Round3, Steps;
    a, b, c, d := a0, b0, c0, d0;
    Four3(0, 48, a, b, c, d, x);
    a := Round3(a, b, c, d, x[0], 3);
    d := Round3(d, a, b, c, x[8], 9);
    c := Round3(c, d, a, b, x[4], 11);
    b := Round3(b, c, d, a, x[12], 15);
    Four3(1, 48, a, b, c, d, x);
    a := Round3(a, b, c, d, x[2], 3);
    d := Round3(d, a, b, c, x[10], 9);
    c := Round3(c, d, a, b, x[6], 11);
    b := Round3(b, c, d, a, x[14], 15);
    Four3(2, 48, a, b, c, d, x);
    a := Round3(a, b, c, d, x[1], 3);
    d := Round3(d, a, b, c, x[9], 9);
    c := Round3(c, d, a, b, x[5], 11);
    b := Round3(b, c, d, a, x[13], 15);
    Four3(3, 48, a, b, c, d, x);
    a := Round3(a, b, c, d, x[3], 3);
    d := Round3(d, a, b, c, x[11], 9);
    c := Round3(c, d, a, b, x[7], 11);
    b := Round3(b, c, d, a, x[15], 15);
    NoSteps(48, Regs(a, b, c, d), x);
  }

  method AllRounds(a0: word, b0: word, c0: word, d0: word, x: seq<word>) returns (a: word, b: word, c: word, d: word)
    requires |x| == 16
    ensures Regs(a, b, c, d) == Steps(0, 48, Regs(a0, b0, c0, d0), x)
  {
    hide Steps;
    ThreeRounds(Regs(a0, b0, c0, d0), x);
    a, b, c, d := FirstRound(a0, b0, c0, d0, x);
    a, b, c, d := SecondRound(a, b, c, d, x);
    a, b, c, d := ThirdRound(a, b, c, d, x);
  }

  lemma CompressIs(r: Regs, u: Regs, x: seq<word>)
    requires |x| == 16 && u == Steps(0, 48, r, x)
    ensures Compress(r, x) == Regs(Plus(r.a, u.a), Plus(r.b, u.b), Plus(r.c, u.c), Plus(r.d, u.d))
  {
    hide Steps, Plus;
  }

  lemma ThreeRounds(r: Regs, x: seq<word>)
    requires |x| == 16
    ensures Steps(0, 48, r, x) == Steps(32, 48, Steps(16, 32, Steps(0, 16, r, x), x), x)
  {
    StepsSplit(0, 16, 48, r, x);
    StepsSplit(16, 32, 48, Steps(0, 16, r, x), x);
    hide Steps;
  }

  lemma {:induction false} StepsSplit(i: nat, k: nat, n: nat, r: Regs, x: seq<word>)
    requires i <= k <= n <= 48 && |x| == 16
    ensures Steps(i, n, r, x) == Steps(k, n, Steps(i, k, r, x), x)
    decreases k - i
  {
    hide Step;
    if i < k {
      StepsSplit(i + 1, k, n, Step(i, r, x), x);
    }
  }

  // ---------- pieces ----------

  const WRAP: nat := 0x1_0000_0000_0000_0000

  lemma CountMod(c: nat, blocks: nat, tail: nat)
    requires c == (64 * blocks + tail) % WRAP && tail < 64
    ensures c % 64 == tail
  {
    var k := (64 * blocks + tail) / WRAP;
    assert 64 * blocks + tail == WRAP * k + c;
    assert WRAP * k == 64 * (0x400_0000_0000_0000 * k);
  }

  lemma CountMore(c: nat, n: nat, len: nat)
    requires c == n % WRAP
    ensures (c + len) % WRAP == (n + len) % WRAP
  {
    var k := n / WRAP;
    assert n == WRAP * k + c;
    ModAgain(c + len, k);
  }

  lemma ModAgain(a: nat, k: nat)
    ensures (a + WRAP * k) % WRAP == a % WRAP
  {
  }

  /** struct md4_ctx. */
  class Md4Ctx {
    const hash: array<word>
    const block: array<byte>
    var byteCount: nat
    /** What has been hashed: whole blocks. */
    ghost var whole: seq<byte>
    ghost var blocks: nat

    /** md4_init. */
    constructor ()
      ensures Valid() && Contents() == [] && fresh(hash) && fresh(block)
    {
      hash := new word[4](i requires 0 <= i < 4 => [0x67452301, 0xefcdab89, 0x98badcfe, 0x10325476][i]);
      block := new byte[64](_ => 0);
      byteCount, whole, blocks := 0, [], 0;
    }

    ghost function Registers(): Regs
      requires hash.Length == 4
      reads hash
    {
      Regs(hash[0], hash[1], hash[2], hash[3])
    }

    ghost predicate Sized() {
      hash.Length == 4 && block.Length == 64
    }

    /** The whole blocks have been hashed. */
    ghost predicate Hashed()
      reads this, hash
    {
      Sized() && |whole| == 64 * blocks && Registers() == Blocks(INITIAL, whole, blocks)
    }

    /** What is left of the message is in the block buffer. */
    ghost predicate Valid()
      reads this, hash
    {
      Hashed() && byteCount == (|whole| + byteCount % 64) % WRAP
    }

    /** The message so far. */
    ghost function Contents(): seq<byte>
      requires Sized()
      reads this, block
    {
      whole + block[..byteCount % 64]
    }

    /** md4_transform. */
    method Transform(x: seq<word>)
      requires Sized() && |x| == 16
      modifies hash
      ensures Registers() == Compress(old(Registers()), x)
    {
      var a, b, c, d := AllRounds(hash[0], hash[1], hash[2], hash[3], x);
      CompressIs(Registers(), Regs(a, b, c, d), x);
      hide Steps, Compress, Plus;
      hash[0] := Plus(hash[0], a);
      hash[1] := Plus(hash[1], b);
      hash[2] := Plus(hash[2], c);
      hash[3] := Plus(hash[3], d);
    }

    /** md4_transform_helper. */
    method TransformBlock()
      requires Sized()
      modifies hash
      ensures Registers() == Block(old(Registers()), block[..])
    {
      hide Compress, Words;
      Transform(Words(block[..]));
    }

    /** memcpy into the block buffer. */
    method Copy(at: nat, data: seq<byte>)
      requires Sized() && at + |data| <= 64
      modifies block
      ensures block[..] == old(block[..at]) + data + old(block[at + |data|..])
    {
      forall k | 0 <= k < |data| {
        block[at + k] := data[k];
      }
    }

    /** A block that is full is hashed. */
    method HashFull()
      requires Hashed()
      modifies this`whole, this`blocks, hash
      ensures Hashed() && whole == old(whole) + block[..]
    {
      hide Block, Blocks;
      ghost var full := block[..];
      BlocksAppend(INITIAL, whole, blocks, full, 1);
      OneBlock(Blocks(INITIAL, whole, blocks), full);
      TransformBlock();
      whole, blocks := whole + full, blocks + 1;
    }

    /** md4_update. */
    method Update(data: seq<byte>)
      requires Valid()
      modifies this, hash, block
      ensures Valid() && Contents() == old(Contents()) + data
    {
      hide Blocks;
      ghost var was := Contents();
      var off := byteCount % 64;
      var avail := 64 - off;
      CountMore(byteCount, |whole| + off, |data|);
      byteCount := (byteCount + |data|) % WRAP;
      if avail > |data| {
        Copy(off, data);
        CountMod(byteCount, blocks, off + |data|);
        assert Contents() == was + data;
        return;
      }
      Copy(off, data[..avail]);
      assert block[..] == old(block[..off]) + data[..avail];
      HashFull();
      assert was + data == whole + data[avail..];
      HashWhole(data[avail..], was + data);
    }

    /** The rest of md4_update: whole blocks are hashed, and what is left is kept. */
    method HashWhole(data: seq<byte>, ghost message: seq<byte>)
      requires Hashed() && message == whole + data && byteCount == |message| % WRAP
      modifies this`whole, this`blocks, hash, block
      ensures Valid() && Contents() == message
    {
      hide Blocks;
      var rest := data;
      while |rest| >= 64
        invariant Hashed() && message == whole + rest
      {
        Copy(0, rest[..64]);
        assert block[..] == rest[..64];
        HashFull();
        assert rest == rest[..64] + rest[64..];
        rest := rest[64..];
      }
      Copy(0, rest);
      CountMod(byteCount, blocks, |rest|);
      assert block[..|rest|] == rest;
    }

    /** memset in the block buffer. */
    method Clear(at: nat, n: nat)
      requires Sized() && at + n <= 64
      modifies block
      ensures block[..] == old(block[..at]) + Zeros(n) + old(block[at + n..])
    {
      forall k | at <= k < at + n {
        block[k] := 0;
      }
    }

    /** The padding of md4_final: a block of its own is filled if the length does not fit into this one. */
    method Pad()
      requires Valid()
      modifies this`whole, this`blocks, hash, block
      ensures Hashed() && Padded(old(Contents())) == whole + block[..56] + LengthBytes(|old(Contents())|)
    {
      hide Blocks, BytesOf;
      ghost var w, n, m := whole, blocks, Contents();
      var offset := byteCount % 64;
      ghost var t := block[..offset];
      var padding := 56 - (offset + 1);
      block[offset] := 0x80;
      var p := offset + 1;
      assert block[..p] == t + [0x80];
      if padding < 0 {
        Clear(p, padding + 8);
        assert block[..] == t + [0x80] + Zeros(63 - offset);
        HashFull();
        LongPad(w, n, t);
        p, padding := 0, 56;
        Clear(p, padding);
        assert block[..56] == Zeros(56);
      } else {
        Clear(p, padding);
        assert block[..56] == t + [0x80] + Zeros(55 - offset);
        ShortPad(w, n, t);
      }
    }

    /** md4_final: the digest, and the context is wiped. */
    method Final() returns (out: seq<byte>)
      requires Valid()
      modifies this, hash, block
      ensures out == Digest(old(Contents()))
      ensures byteCount == 0 && block[..] == Zeros(64) && hash[..] == [0, 0, 0, 0]
    {
      hide Blocks, Compress, Words, Output, LowBits, HighBits, AsWord, BytesOf, Padded, Digest, Zeros;
      ghost var m := Contents();
      LastWords(|m|, byteCount);
      Pad();
      FinalBlock(m, whole, blocks, block[..56]);
      Transform(Words(block[..56]) + [AsWord(8 * byteCount % 0x1_0000_0000), AsWord(byteCount / 0x2000_0000 % 0x1_0000_0000)]);
      out := Output(Regs(hash[0], hash[1], hash[2], hash[3]));
      Wipe();
    }

    method Wipe()
      requires Sized()
      modifies this`byteCount, hash, block
      ensures byteCount == 0 && block[..] == Zeros(64) && hash[..] == [0, 0, 0, 0]
    {
      hash[0], hash[1], hash[2], hash[3] := 0, 0, 0, 0;
      Clear(0, 64);
      byteCount := 0;
    }
  }

  /** The last block of the padded message, with its two words of length. */
  lemma FinalBlock(m: seq<byte>, w: seq<byte>, n: nat, head: seq<byte>)
    requires |w| == 64 * n && |head| == 56 && Padded(m) == w + head + LengthBytes(|m|)
    ensures Digest(m) == Output(Compress(Blocks(INITIAL, w, n), Words(head) + [LowWord(|m|), HighWord(|m|)]))
  {
    hide Blocks, Compress, Output, LowWord, HighWord, BytesOf, Padded, Words, BlockCount;
    var last := head + LengthBytes(|m|);
    assert Padded(m) == w + last;
    BlocksAppend(INITIAL, w, n, last, 1);
    OneBlock(Blocks(INITIAL, w, n), last);
    WordsAppend(head, LengthBytes(|m|));
    WordsOfTwo(LowWord(|m|), HighWord(|m|));
  }

  function LengthBytes(n: nat): (r: seq<byte>)
    ensures |r| == 8
  {
    BytesOf(LowWord(n)) + BytesOf(HighWord(n))
  }

  lemma ZerosSum(a: nat, b: nat)
    ensures Zeros(a + b) == Zeros(a) + Zeros(b)
  {
  }

  lemma ShortPad(w: seq<byte>, n: nat, t: seq<byte>)
    requires |w| == 64 * n && |t| < 56
    ensures Padded(w + t) == w + (t + [0x80] + Zeros(55 - |t|)) + LengthBytes(|w + t|)
    ensures BlockCount(|w + t|) == n + 1
  {
    var m := w + t;
    assert |m| % 64 == |t| && |m| / 64 == n;
    assert PadLength(|m|) == 55 - |t|;
    hide BytesOf, LowWord, HighWord, BlockCount;
    assert w + t + [0x80] + Zeros(55 - |t|) == w + (t + [0x80] + Zeros(55 - |t|));
  }

  lemma LongPad(w: seq<byte>, n: nat, t: seq<byte>)
    requires |w| == 64 * n && 56 <= |t| < 64
    ensures Padded(w + t) == w + (t + [0x80] + Zeros(63 - |t|)) + Zeros(56) + LengthBytes(|w + t|)
    ensures BlockCount(|w + t|) == n + 2
  {
    var m := w + t;
    assert |m| % 64 == |t| && |m| / 64 == n;
    assert PadLength(|m|) == 63 - |t| + 56;
    ZerosSum(63 - |t|, 56);
    hide BytesOf, LowWord, HighWord, BlockCount, Zeros;
    var z := Zeros(63 - |t|);
    assert w + t + [0x80] + (z + Zeros(56)) == w + (t + [0x80] + z) + Zeros(56);
  }

  /** The two words of md4_final are the low-order words of the length in bits. */
  lemma LastWords(n: nat, c: nat)
    requires c == n % WRAP
    ensures AsWord(8 * c % 0x1_0000_0000) == LowWord(n)
    ensures AsWord(c / 0x2000_0000 % 0x1_0000_0000) == HighWord(n)
  {
    LengthWraps(n);
    assert 8 * c / 0x1_0000_0000 == c / 0x2000_0000;
    hide AsWord;
  }

  // ---------- any number of pieces ----------

  function Joined(pieces: seq<seq<byte>>): seq<byte> {
    if pieces == [] then [] else Joined(pieces[..|pieces| - 1]) + pieces[|pieces| - 1]
  }

  /** md4_init, md4_update for each piece, md4_final: how the message is cut does not matter. */
  method HashPieces(pieces: seq<seq<byte>>) returns (out: seq<byte>)
    ensures out == Digest(Joined(pieces))
  {
    hide Digest, Blocks;
    var ctx := new Md4Ctx();
    var i := 0;
    while i < |pieces|
      invariant i <= |pieces| && ctx.Valid() && fresh(ctx) && fresh(ctx.hash) && fresh(ctx.block)
      invariant ctx.Contents() == Joined(pieces[..i])
    {
      ctx.Update(pieces[i]);
      assert pieces[..i + 1][..i] == pieces[..i];
      i := i + 1;
    }
    assert pieces[..i] == pieces;
    out := ctx.Final();
  }
}
