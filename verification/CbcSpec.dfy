/** Cipher block chaining (section 6.2 of NIST SP 800-38A) on a stretch of bytes. */
module CbcSpec {
  type Bytes = seq<bv8>

  /** A block cipher under some key. */
  datatype Cipher = Cipher(size: nat, enc: Bytes -> Bytes, dec: Bytes -> Bytes)

  /** The two functions are permutations of the blocks, and inverse to each other. */
  ghost predicate Good(c: Cipher) {
    && c.size > 0
    && forall b :: |b| == c.size ==> |c.enc(b)| == c.size && |c.dec(b)| == c.size && c.dec(c.enc(b)) == b
  }

  function XorByte(a: bv8, b: bv8): bv8 { a ^ b }

  function Xor(a: Bytes, b: Bytes): (r: Bytes)
    requires |a| == |b|
    ensures |r| == |a|
  {
    seq(|a|, i requires 0 <= i < |a| => XorByte(a[i], b[i]))
  }

  lemma XorByteLaws(a: bv8, b: bv8)
    ensures XorByte(a, b) == XorByte(b, a) && XorByte(XorByte(a, b), b) == a
  {
  }

  lemma XorLaws(a: Bytes, b: Bytes)
    requires |a| == |b|
    ensures Xor(a, b) == Xor(b, a) && Xor(Xor(a, b), b) == a
  {
    hide XorByte;
    forall i | 0 <= i < |a| ensures Xor(a, b)[i] == Xor(b, a)[i] && Xor(Xor(a, b), b)[i] == a[i] {
      XorByteLaws(a[i], b[i]);
    }
  }

  /** C[j] = CIPH(P[j] xor C[j-1]), for the whole blocks of x. */
  ghost function Encrypt(c: Cipher, iv: Bytes, x: Bytes): (r: Bytes)
    requires Good(c) && |iv| == c.size
    ensures |r| <= |x| < |r| + c.size
    decreases |x|
  {
    if |x| < c.size then []
    else
      var b := c.enc(Xor(x[..c.size], iv));
      b + Encrypt(c, b, x[c.size..])
  }

  /** P[j] = CIPH^-1(C[j]) xor C[j-1]. */
  ghost function Decrypt(c: Cipher, iv: Bytes, x: Bytes): (r: Bytes)
    requires Good(c) && |iv| == c.size
    ensures |r| <= |x| < |r| + c.size
    decreases |x|
  {
    if |x| < c.size then []
    else Xor(c.dec(x[..c.size]), iv) + Decrypt(c, x[..c.size], x[c.size..])
  }

  /** The chaining value behind some blocks of ciphertext. */
  function Next(iv: Bytes, cipher: Bytes): (r: Bytes)
    ensures |r| == |iv|
  {
    if |cipher| < |iv| then iv else cipher[|cipher| - |iv|..]
  }

  lemma EncryptStep(c: Cipher, iv: Bytes, p: Bytes, x: Bytes)
    requires Good(c) && |iv| == |p| == c.size
    ensures var b := c.enc(Xor(p, iv)); |b| == c.size && Encrypt(c, iv, p + x) == b + Encrypt(c, b, x)
  {
    assert (p + x)[..c.size] == p && (p + x)[c.size..] == x;
    hide Xor;
  }

  lemma DecryptStep(c: Cipher, iv: Bytes, p: Bytes, x: Bytes)
    requires Good(c) && |iv| == |p| == c.size
    ensures |c.dec(p)| == c.size && Decrypt(c, iv, p + x) == Xor(c.dec(p), iv) + Decrypt(c, p, x)
  {
    assert (p + x)[..c.size] == p && (p + x)[c.size..] == x;
    hide Xor;
  }

  lemma TooShort(c: Cipher, iv: Bytes, x: Bytes)
    requires Good(c) && |iv| == c.size && |x| < c.size
    ensures Encrypt(c, iv, x) == [] && Decrypt(c, iv, x) == []
  {
  }

  lemma FirstBlock(x: Bytes, n: nat)
    requires n <= |x|
    ensures x == x[..n] + x[n..]
  {
  }

  lemma Assoc(a: Bytes, b: Bytes, c: Bytes)
    ensures (a + b) + c == a + (b + c)
  {
  }

  /** Decryption undoes encryption. */
  lemma {:induction false} DecryptUndoes(c: Cipher, iv: Bytes, x: Bytes)
    requires Good(c) && |iv| == c.size
    ensures Decrypt(c, iv, Encrypt(c, iv, x)) == x[..|Encrypt(c, iv, x)|]
    decreases |x|
  {
    hide Encrypt, Decrypt, Xor;
    if |x| < c.size {
      TooShort(c, iv, x);
      TooShort(c, iv, []);
    } else {
      var p, y := x[..c.size], x[c.size..];
      FirstBlock(x, c.size);
      EncryptStep(c, iv, p, y);
      var b := c.enc(Xor(p, iv));
      var rest := Encrypt(c, b, y);
      DecryptUndoes(c, b, y);
      DecryptStep(c, iv, b, rest);
      XorLaws(p, iv);
      PrefixBehind(p, y, |rest|);
    }
  }

  lemma PrefixBehind(p: Bytes, y: Bytes, n: nat)
    requires n <= |y|
    ensures (p + y)[..|p| + n] == p + y[..n]
  {
  }

  lemma NextBehind(iv: Bytes, b: Bytes, rest: Bytes)
    requires |b| == |iv| && (|rest| >= |iv| || rest == [])
    ensures Next(iv, b + rest) == Next(b, rest)
  {
  }

  /** Whole blocks can be split off at the front. */
  lemma {:induction false} EncryptSplit(c: Cipher, iv: Bytes, x: Bytes, y: Bytes)
    requires Good(c) && |iv| == c.size && |Encrypt(c, iv, x)| == |x|
    ensures Encrypt(c, iv, x + y) == Encrypt(c, iv, x) + Encrypt(c, Next(iv, Encrypt(c, iv, x)), y)
    decreases |x|
  {
    hide Encrypt, Xor, Next;
    if |x| < c.size {
      TooShort(c, iv, x);
      assert x + y == y;
      NextOfNothing(iv);
    } else {
      var p, z := x[..c.size], x[c.size..];
      FirstBlock(x, c.size);
      EncryptStep(c, iv, p, z);
      var b := c.enc(Xor(p, iv));
      var rest := Encrypt(c, b, z);
      EncryptSplit(c, b, z, y);
      Assoc(p, z, y);
      EncryptStep(c, iv, p, z + y);
      assert |z| == |rest|;
      WholeBlocks(c, b, z);
      NextBehind(iv, b, rest);
      Assoc(b, rest, Encrypt(c, Next(b, rest), y));
    }
  }

  lemma NextOfNothing(iv: Bytes)
    ensures Next(iv, []) == iv
  {
  }

  lemma WholeBlocks(c: Cipher, iv: Bytes, x: Bytes)
    requires Good(c) && |iv| == c.size
    ensures Encrypt(c, iv, x) == [] || |Encrypt(c, iv, x)| >= c.size
    ensures Decrypt(c, iv, x) == [] || |Decrypt(c, iv, x)| >= c.size
  {
    hide Xor;
  }

  lemma {:induction false} DecryptSplit(c: Cipher, iv: Bytes, x: Bytes, y: Bytes)
    requires Good(c) && |iv| == c.size && |Decrypt(c, iv, x)| == |x|
    ensures Decrypt(c, iv, x + y) == Decrypt(c, iv, x) + Decrypt(c, Next(iv, x), y)
    decreases |x|
  {
    hide Decrypt, Xor, Next;
    if |x| < c.size {
      TooShort(c, iv, x);
      assert x + y == y;
      NextOfNothing(iv);
    } else {
      var b, z := x[..c.size], x[c.size..];
      FirstBlock(x, c.size);
      DecryptStep(c, iv, b, z);
      DecryptSplit(c, b, z, y);
      Assoc(b, z, y);
      DecryptStep(c, iv, b, z + y);
      WholeBlocks(c, b, z);
      NextBehind(iv, b, z);
      Assoc(Xor(c.dec(b), iv), Decrypt(c, b, z), Decrypt(c, Next(b, z), y));
    }
  }
}
