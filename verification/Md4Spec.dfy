/** The MD4 message digest of RFC 1320. */
module Md4Spec {
  type byte = bv8
  type word = bv32

  // ---------- section 2: words and bytes, the low-order byte first ----------

  function WordOf(a: byte, b: byte, c: byte, d: byte): word {
    (a as bv32) | ((b as bv32) << 8) | ((c as bv32) << 16) | ((d as bv32) << 24)
  }

  function BytesOf(w: word): (r: seq<byte>)
    ensures |r| == 4
  {
    [(w & 0xff) as byte, ((w >> 8) & 0xff) as byte, ((w >> 16) & 0xff) as byte, ((w >> 24) & 0xff) as byte]
  }

  function Words(m: seq<byte>): (r: seq<word>)
    requires |m| % 4 == 0
    ensures 4 * |r| == |m|
  {
    if m == [] then [] else [WordOf(m[0], m[1], m[2], m[3])] + Words(m[4..])
  }

  // ---------- section 3.1 and 3.2: padding and length ----------

  function Zeros(n: nat): (r: seq<byte>)
    ensures |r| == n
  {
    seq(n, _ => 0)
  }

  /** How many blocks of 64 bytes a message of n bytes fills once it is padded. */
  function BlockCount(n: nat): nat {
    if n % 64 < 56 then n / 64 + 1 else n / 64 + 2
  }

  /** A 1 bit, and the fewest 0 bits that leave 8 bytes of the last block. */
  function PadLength(n: nat): (k: nat)
    ensures n + 1 + k + 8 == 64 * BlockCount(n) && k < 64
  {
    64 * BlockCount(n) - n - 9
  }

  /** The length in bits as two words, the low-order word first; more than 64 bits of it are not used. */
  function LowBits(n: nat): (b: nat)
    ensures b < 0x1_0000_0000
  {
    8 * n % 0x1_0000_0000
  }

  function HighBits(n: nat): (b: nat)
    ensures b < 0x1_0000_0000
  {
    8 * n / 0x1_0000_0000 % 0x1_0000_0000
  }

  function AsWord(n: nat): word
    requires n < 0x1_0000_0000
  {
    n as word
  }

  function LowWord(n: nat): word {
    AsWord(LowBits(n))
  }

  function HighWord(n: nat): word {
    AsWord(HighBits(n))
  }

  function Padded(m: seq<byte>): (r: seq<byte>)
    ensures |r| == 64 * BlockCount(|m|)
  {
    m + [0x80] + Zeros(PadLength(|m|)) + (BytesOf(LowWord(|m|)) + BytesOf(HighWord(|m|)))
  }

  // ---------- section 3.4: one block ----------

  datatype Regs = Regs(a: word, b: word, c: word, d: word)

  function F(x: word, y: word, z: word): word {
    (x & y) | (!x & z)
  }

  function G(x: word, y: word, z: word): word {
    (x & y) | (x & z) | (y & z)
  }

  function H(x: word, y: word, z: word): word {
    x ^ y ^ z
  }

  function Lshift(x: word, s: nat): word
    requires s <= 32
  {
    (x << s) | (x >> (32 - s))
  }

  function Round1(a: word, b: word, c: word, d: word, k: word, s: nat): word
    requires s <= 32
  {
    Lshift(a + F(b, c, d) + k, s)
  }

  function Round2(a: word, b: word, c: word, d: word, k: word, s: nat): word
    requires s <= 32
  {
    Lshift(a + G(b, c, d) + k + 0x5A827999, s)
  }

  function Round3(a: word, b: word, c: word, d: word, k: word, s: nat): word
    requires s <= 32
  {
    Lshift(a + H(b, c, d) + k + 0x6ED9EBA1, s)
  }

  /** The word of the block used in a step: in order; by columns; and by columns with the bits of each index reversed. */
  function Index(i: nat): (k: nat)
    requires i < 48
    ensures k < 16
  {
    if i < 16 then i
    else if i < 32 then (i % 4) * 4 + i / 4 - 4
    else Reverse2(i % 4) * 4 + Reverse2(i / 4 - 8)
  }

  function Reverse2(i: nat): (r: nat)
    requires i < 4
    ensures r < 4
  {
    if i == 1 then 2 else if i == 2 then 1 else i
  }

  function Shift(i: nat): (s: nat)
    requires i < 48
    ensures s <= 32
  {
    if i < 16 then [3, 7, 11, 19][i % 4] else if i < 32 then [3, 5, 9, 13][i % 4] else [3, 9, 11, 15][i % 4]
  }

  /** One of the 48 operations; the registers change their roles in turn. */
  function Step(i: nat, r: Regs, x: seq<word>): Regs
    requires i < 48 && |x| == 16
  {
    var k, s := x[Index(i)], Shift(i);
    var v := if i < 16 then Round1(r.a, r.b, r.c, r.d, k, s)
             else if i < 32 then Round2(r.a, r.b, r.c, r.d, k, s)
             else Round3(r.a, r.b, r.c, r.d, k, s);
    Regs(r.d, v, r.b, r.c)
  }

  /** The operations from i up to n. */
  function Steps(i: nat, n: nat, r: Regs, x: seq<word>): Regs
    requires i <= n <= 48 && |x| == 16
    decreases n - i
  {
    if i == n then r else Steps(i + 1, n, Step(i, r, x), x)
  }

  function Compress(r: Regs, x: seq<word>): Regs
    requires |x| == 16
  {
    var u := Steps(0, 48, r, x);
    Regs(Plus(r.a, u.a), Plus(r.b, u.b), Plus(r.c, u.c), Plus(r.d, u.d))
  }

  function Plus(x: word, y: word): word {
    x + y
  }

  // ---------- sections 3.3 to 3.5: the whole message ----------

  const INITIAL := Regs(0x67452301, 0xefcdab89, 0x98badcfe, 0x10325476)

  function Block(r: Regs, m: seq<byte>): Regs
    requires |m| == 64
  {
    Compress(r, Words(m))
  }

  /** A message of n blocks. */
  function Blocks(r: Regs, m: seq<byte>, n: nat): Regs
    requires |m| == 64 * n
    decreases n
  {
    if n == 0 then r else Blocks(Block(r, m[..64]), m[64..], n - 1)
  }

  function Output(r: Regs): (d: seq<byte>)
    ensures |d| == 16
  {
    BytesOf(r.a) + BytesOf(r.b) + BytesOf(r.c) + BytesOf(r.d)
  }

  function Digest(m: seq<byte>): (d: seq<byte>)
    ensures |d| == 16
  {
    Output(Blocks(INITIAL, Padded(m), BlockCount(|m|)))
  }

  // ---------- lemmas ----------

  lemma {:induction false} BlocksAppend(r: Regs, a: seq<byte>, n: nat, b: seq<byte>, k: nat)
    requires |a| == 64 * n && |b| == 64 * k
    ensures Blocks(r, a + b, n + k) == Blocks(Blocks(r, a, n), b, k)
    decreases n
  {
    hide Block;
    if n == 0 {
      assert a + b == b;
    } else {
      assert (a + b)[..64] == a[..64] && (a + b)[64..] == a[64..] + b;
      BlocksAppend(Block(r, a[..64]), a[64..], n - 1, b, k);
    }
  }

  lemma OneBlock(r: Regs, m: seq<byte>)
    requires |m| == 64
    ensures Blocks(r, m, 1) == Block(r, m)
  {
    assert m[..64] == m && m[64..] == [];
    hide Block;
  }

  lemma {:induction false} WordsAppend(a: seq<byte>, b: seq<byte>)
    requires |a| % 4 == 0 && |b| % 4 == 0
    ensures (|a| + |b|) % 4 == 0 && Words(a + b) == Words(a) + Words(b)
  {
    hide WordOf;
    if a == [] {
      assert a + b == b;
    } else {
      assert (a + b)[4..] == a[4..] + b;
      WordsAppend(a[4..], b);
    }
  }

  /** A word written out and read again. */
  lemma WordBytes(w: word)
    ensures var b := BytesOf(w); WordOf(b[0], b[1], b[2], b[3]) == w
  {
  }

  lemma WordsOfTwo(v: word, w: word)
    ensures Words(BytesOf(v) + BytesOf(w)) == [v, w]
  {
    var b := BytesOf(v) + BytesOf(w);
    WordBytes(v);
    WordBytes(w);
    hide WordOf, BytesOf;
    assert b[4..] == BytesOf(w);
    assert Words(BytesOf(w)) == [w] + Words([]) by { assert BytesOf(w)[4..] == []; }
  }

  /** Only the length modulo 2^64 bytes counts. */
  lemma LengthWraps(n: nat)
    ensures LowWord(n % 0x1_0000_0000_0000_0000) == LowWord(n)
    ensures HighWord(n % 0x1_0000_0000_0000_0000) == HighWord(n)
  {
    BitsWrap(n / 0x1_0000_0000_0000_0000, n % 0x1_0000_0000_0000_0000);
    assert n == 0x1_0000_0000_0000_0000 * (n / 0x1_0000_0000_0000_0000) + n % 0x1_0000_0000_0000_0000;
    hide AsWord, LowBits, HighBits;
  }

  lemma BitsWrap(k: nat, b: nat)
    ensures LowBits(0x1_0000_0000_0000_0000 * k + b) == LowBits(b)
    ensures HighBits(0x1_0000_0000_0000_0000 * k + b) == HighBits(b)
  {
    var n := 0x1_0000_0000_0000_0000 * k + b;
    assert 8 * n == 0x1_0000_0000 * (0x8_0000_0000 * k) + 8 * b;
    var q := 8 * b / 0x1_0000_0000;
    assert 8 * n / 0x1_0000_0000 == 0x8_0000_0000 * k + q;
    assert 0x8_0000_0000 * k == 0x1_0000_0000 * (8 * k);
  }
}
