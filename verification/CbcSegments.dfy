/** The four block loops of CBC, on buffers that are overwritten in place. */
module CbcSegments {
  import opened CbcSpec

  // ---------- stretches of a buffer ----------

  /** n bytes from i on. */
  function Sub(s: Bytes, i: nat, n: nat): (r: Bytes)
    requires i + n <= |s|
    ensures |r| == n
  {
    s[i..i + n]
  }

  /** The buffer with x written from i on. */
  function Splice(s: Bytes, i: nat, x: Bytes): (r: Bytes)
    requires i + |x| <= |s|
    ensures |r| == |s|
  {
    s[..i] + x + s[i + |x|..]
  }

  lemma SpliceAt(s: Bytes, i: nat, x: Bytes)
    requires i + |x| <= |s|
    ensures forall k :: 0 <= k < |s| ==> Splice(s, i, x)[k] == if i <= k < i + |x| then x[k - i] else s[k]
  {
  }

  lemma SpliceAppend(s: Bytes, i: nat, d: nat, x: Bytes, y: Bytes)
    requires i + |x| + |y| <= |s| && d == |x|
    ensures Splice(Splice(s, i, x), i + d, y) == Splice(s, i, x + y)
  {
  }

  lemma SplicePrepend(s: Bytes, i: nat, x: Bytes, y: Bytes)
    requires i + |x| + |y| <= |s|
    ensures Splice(Splice(s, i + |x|, y), i, x) == Splice(s, i, x + y)
  {
  }

  lemma SpliceAgain(s: Bytes, i: nat, x: Bytes, y: Bytes)
    requires i + |x| <= |s| && |y| == |x|
    ensures Splice(Splice(s, i, x), i, y) == Splice(s, i, y)
  {
  }

  lemma SpliceInside(s: Bytes, i: nat, x: Bytes)
    requires i + |x| <= |s|
    ensures Sub(Splice(s, i, x), i, |x|) == x
  {
  }

  lemma SpliceOutside(s: Bytes, i: nat, x: Bytes, k: nat, n: nat)
    requires i + |x| <= |s| && k + n <= |s| && (k + n <= i || i + |x| <= k)
    ensures Sub(Splice(s, i, x), k, n) == Sub(s, k, n)
  {
    SpliceAt(s, i, x);
    var r := Splice(s, i, x);
    hide Splice;
    var u, v := Sub(r, k, n), Sub(s, k, n);
    forall m | 0 <= m < n ensures u[m] == v[m] {
      assert u[m] == r[k + m] && v[m] == s[k + m];
    }
  }

  lemma SpliceNothing(s: Bytes, i: nat)
    requires i <= |s|
    ensures Splice(s, i, []) == s
  {
    var e: Bytes := [];
    SpliceAt(s, i, e);
    hide Splice;
    assert Splice(s, i, e) == s;
  }

  lemma SpliceAll(s: Bytes, x: Bytes)
    requires |s| == |x|
    ensures Splice(s, 0, x) == x && Sub(x, 0, |x|) == x
  {
  }

  lemma SubOfSub(s: Bytes, i: nat, n: nat, d: nat, m: nat, at: nat)
    requires i + n <= |s| && d + m <= n && at == i + d
    ensures Sub(Sub(s, i, n), d, m) == Sub(s, at, m)
  {
    var t := Sub(s, i, n);
    var u, v := Sub(t, d, m), Sub(s, at, m);
    forall k | 0 <= k < m ensures u[k] == v[k] {
      assert u[k] == t[d + k] == s[at + k];
    }
  }

  // ---------- the elementary operations ----------

  /** xor_byte and its word-wise relatives: a stretch of a takes a stretch of b. */
  method XorInto(a: array<bv8>, i: nat, b: array<bv8>, j: nat, bs: nat)
    requires bs > 0 && i + bs <= a.Length && j + bs <= b.Length
    requires a != b || i + bs <= j || j + bs <= i
    modifies a
    ensures a[..] == Splice(old(a[..]), i, Xor(old(Sub(a[..], i, bs)), old(Sub(b[..], j, bs))))
  {
    hide XorByte;
    ghost var was, y := a[..], Sub(b[..], j, bs);
    ghost var x := Xor(Sub(a[..], i, bs), y);
    var k := 0;
    while k < bs
      invariant k <= bs
      invariant forall m :: 0 <= m < a.Length ==> a[m] == if i <= m < i + k then x[m - i] else was[m]
      invariant forall m :: 0 <= m < bs ==> b[j + m] == y[m]
    {
      a[i + k] := XorByte(a[i + k], b[j + k]);
      k := k + 1;
    }
    assert a[..] == Splice(was, i, x);
  }

  /** memcpy. */
  method Copy(a: array<bv8>, i: nat, b: array<bv8>, j: nat, n: nat)
    requires i + n <= a.Length && j + n <= b.Length
    requires a != b || i + n <= j || j + n <= i
    modifies a
    ensures a[..] == Splice(old(a[..]), i, old(Sub(b[..], j, n)))
  {
    ghost var was, x := a[..], Sub(b[..], j, n);
    var k := 0;
    while k < n
      invariant k <= n
      invariant forall m :: 0 <= m < a.Length ==> a[m] == if i <= m < i + k then x[m - i] else was[m]
      invariant forall m :: 0 <= m < n ==> b[j + m] == x[m]
    {
      a[i + k] := b[j + k];
      k := k + 1;
    }
    assert a[..] == Splice(was, i, x);
  }

  /** The block function, from one place to the same or another. */
  method BlockInto(f: Bytes -> Bytes, a: array<bv8>, i: nat, b: array<bv8>, j: nat, bs: nat)
    requires i + bs <= a.Length && j + bs <= b.Length && |f(Sub(b[..], j, bs))| == bs
    modifies a
    ensures a[..] == Splice(old(a[..]), i, old(f(Sub(b[..], j, bs))))
  {
    var x := f(Sub(b[..], j, bs));
    ghost var was := a[..];
    var k := 0;
    while k < bs
      invariant k <= bs
      invariant forall m :: 0 <= m < a.Length ==> a[m] == if i <= m < i + k then x[m - i] else was[m]
    {
      a[i + k] := x[k];
      k := k + 1;
    }
    assert a[..] == Splice(was, i, x);
  }

  // ---------- encryption ----------

  /** d bytes of x are enciphered as out, and iv is the chaining value. */
  ghost predicate Enciphered(c: Cipher, iv0: Bytes, x: Bytes, d: nat, out: Bytes, iv: Bytes)
    requires Good(c) && |iv0| == |iv| == c.size
  {
    d == |out| <= |x| && Encrypt(c, iv0, x) == out + Encrypt(c, iv, x[d..]) && iv == Next(iv0, out)
  }

  lemma EncipherMore(c: Cipher, iv0: Bytes, x: Bytes, d: nat, out: Bytes, iv: Bytes)
    requires Good(c) && |iv0| == |iv| == c.size && Enciphered(c, iv0, x, d, out, iv) && d + c.size <= |x|
    ensures var p := Sub(x, d, c.size);
            var b := c.enc(Xor(iv, p));
            |b| == c.size && Enciphered(c, iv0, x, d + c.size, out + b, b)
  {
    hide Encrypt, Xor;
    var p, rest := Sub(x, d, c.size), x[d + c.size..];
    assert x[d..] == p + rest;
    XorLaws(iv, p);
    EncryptStep(c, iv, p, rest);
    var b := c.enc(Xor(p, iv));
    Assoc(out, b, Encrypt(c, b, rest));
    assert Next(iv0, out + b) == b;
  }

  lemma EncipherEnd(c: Cipher, iv0: Bytes, x: Bytes, d: nat, out: Bytes, iv: Bytes)
    requires Good(c) && |iv0| == |iv| == c.size && Enciphered(c, iv0, x, d, out, iv) && |x| < d + c.size
    ensures Encrypt(c, iv0, x) == out && iv == Next(iv0, out) && |out| == d
  {
    TooShort(c, iv, x[d..]);
    hide Encrypt;
    assert out + [] == out;
  }

  lemma EncipherBegin(c: Cipher, iv0: Bytes, x: Bytes)
    requires Good(c) && |iv0| == c.size
    ensures Enciphered(c, iv0, x, 0, [], iv0)
  {
    hide Encrypt;
    assert x[0..] == x && [] + Encrypt(c, iv0, x) == Encrypt(c, iv0, x);
  }

  /** One round of the loop: xor into the chaining value, encipher to the destination, copy back. */
  method EncryptBlock(c: Cipher, src: array<bv8>, so: nat, dst: array<bv8>, to: nat, iv: array<bv8>)
    requires Good(c) && iv.Length == c.size && so + c.size <= src.Length && to + c.size <= dst.Length
    requires iv != src && iv != dst
    modifies dst, iv
    ensures iv[..] == c.enc(Xor(old(iv[..]), old(Sub(src[..], so, c.size)))) && dst[..] == Splice(old(dst[..]), to, iv[..])
  {
    hide Xor, Splice, Sub;
    var bs := c.size;
    ghost var m := Xor(iv[..], Sub(src[..], so, bs));
    SpliceAll(iv[..], iv[..]);
    SpliceAll(iv[..], m);
    XorInto(iv, 0, src, so, bs);
    ghost var dst0, b := dst[..], c.enc(m);
    SpliceAll(m, m);
    BlockInto(c.enc, dst, to, iv, 0, bs);
    SpliceInside(dst0, to, b);
    SpliceAll(m, b);
    Copy(iv, 0, dst, to, bs);
  }

  /** crypto_cbc_encrypt_segment: from one buffer to another, or to another part of the same. */
  method EncryptSegment(c: Cipher, src: array<bv8>, so: nat, dst: array<bv8>, to: nat, nbytes: nat, iv: array<bv8>)
    returns (left: nat)
    requires Good(c) && iv.Length == c.size <= nbytes && so + nbytes <= src.Length && to + nbytes <= dst.Length
    requires iv != src && iv != dst && (src != dst || so + nbytes <= to || to + nbytes <= so)
    modifies dst, iv
    ensures var y := Encrypt(c, old(iv[..]), old(Sub(src[..], so, nbytes)));
            && dst[..] == Splice(old(dst[..]), to, y) && iv[..] == Next(old(iv[..]), y) && left == nbytes - |y|
  {
    hide Encrypt, Xor, Splice, Next, Sub, Written;
    ghost var x, iv0, dst0 := Sub(src[..], so, nbytes), iv[..], dst[..];
    ghost var out: Bytes := [];
    var d: nat := 0;
    left := nbytes;
    WrittenNothing(c, iv0, x, dst0, to);
    while left >= c.size
      invariant d + left == nbytes
      invariant Sub(src[..], so, nbytes) == x
      invariant Written(c, iv0, x, dst0, to, d, out, iv[..], dst[..])
    {
      WrittenMore(c, iv0, x, dst0, to, d, out, iv[..], dst[..]);
      SubOfSub(src[..], so, nbytes, d, c.size, so + d);
      ghost var t := dst[..];
      EncryptBlock(c, src, so + d, dst, to + d, iv);
      if src == dst {
        SpliceOutside(t, to + d, iv[..], so, nbytes);
      }
      out := out + iv[..];
      d := d + c.size;
      left := left - c.size;
    }
    WrittenAll(c, iv0, x, dst0, to, d, out, iv[..], dst[..]);
  }

  /** d bytes of x are enciphered to a buffer, from to on. */
  ghost predicate Written(c: Cipher, iv0: Bytes, x: Bytes, dst0: Bytes, to: nat, d: nat, out: Bytes, iv: Bytes, dst: Bytes)
    requires Good(c) && |iv0| == c.size
  {
    |iv| == c.size && to + |x| <= |dst0| && Enciphered(c, iv0, x, d, out, iv) && dst == Splice(dst0, to, out)
  }

  lemma WrittenNothing(c: Cipher, iv0: Bytes, x: Bytes, dst0: Bytes, to: nat)
    requires Good(c) && |iv0| == c.size && to + |x| <= |dst0|
    ensures Written(c, iv0, x, dst0, to, 0, [], iv0, dst0)
  {
    EncipherBegin(c, iv0, x);
    SpliceNothing(dst0, to);
  }

  lemma WrittenMore(c: Cipher, iv0: Bytes, x: Bytes, dst0: Bytes, to: nat, d: nat, out: Bytes, iv: Bytes, dst: Bytes)
    requires Good(c) && |iv0| == c.size && Written(c, iv0, x, dst0, to, d, out, iv, dst) && d + c.size <= |x|
    ensures |iv| == c.size && |dst| == |dst0| && to + |x| <= |dst0|
    ensures var b := c.enc(Xor(iv, Sub(x, d, c.size)));
            |b| == c.size && Written(c, iv0, x, dst0, to, d + c.size, out + b, b, Splice(dst, to + d, b))
  {
    EncipherMore(c, iv0, x, d, out, iv);
    hide Splice, Xor, Sub, Encrypt, Next;
    SpliceAppend(dst0, to, d, out, c.enc(Xor(iv, Sub(x, d, c.size))));
  }

  lemma WrittenAll(c: Cipher, iv0: Bytes, x: Bytes, dst0: Bytes, to: nat, d: nat, out: Bytes, iv: Bytes, dst: Bytes)
    requires Good(c) && |iv0| == c.size && Written(c, iv0, x, dst0, to, d, out, iv, dst) && |x| < d + c.size
    ensures var y := Encrypt(c, iv0, x); y == out && |y| == d && to + d <= |dst0| && dst == Splice(dst0, to, y) && iv == Next(iv0, y)
  {
    hide Splice;
    EncipherEnd(c, iv0, x, d, out, iv);
  }

  /** One round of the loop: a block enciphered where it stands; the chaining value is read where it lies. */
  method EncryptBlockInplace(c: Cipher, a: array<bv8>, i: nat, v: array<bv8>, vo: nat) returns (ghost b: Bytes)
    requires Good(c) && i + c.size <= a.Length && vo + c.size <= v.Length
    requires v != a || vo + c.size <= i
    modifies a
    ensures b == c.enc(Xor(old(Sub(v[..], vo, c.size)), old(Sub(a[..], i, c.size))))
    ensures |b| == c.size && a[..] == Splice(old(a[..]), i, b) && Sub(a[..], i, c.size) == b
  {
    hide Xor, Splice, Sub;
    ghost var a0, p, w := a[..], Sub(a[..], i, c.size), Sub(v[..], vo, c.size);
    XorLaws(p, w);
    XorInto(a, i, v, vo, c.size);
    SpliceInside(a0, i, Xor(p, w));
    BlockInto(c.enc, a, i, a, i, c.size);
    b := c.enc(Xor(p, w));
    SpliceAgain(a0, i, Xor(p, w), b);
    SpliceInside(a0, i, b);
  }

  /** crypto_cbc_encrypt_inplace. */
  method EncryptInplace(c: Cipher, src: array<bv8>, so: nat, nbytes: nat, iv: array<bv8>) returns (left: nat)
    requires Good(c) && iv.Length == c.size <= nbytes && so + nbytes <= src.Length && iv != src
    modifies src, iv
    ensures var y := Encrypt(c, old(iv[..]), old(Sub(src[..], so, nbytes)));
            && src[..] == Splice(old(src[..]), so, y) && iv[..] == Next(old(iv[..]), y) && left == nbytes - |y|
  {
    hide Encrypt, Xor, Splice, Next, Sub, Written;
    ghost var x, iv0, src0 := Sub(src[..], so, nbytes), iv[..], src[..];
    ghost var out: Bytes := [];
    ghost var d: nat, w := 0, iv0;
    var i: nat, v: array<bv8>, vo: nat := so, iv, 0;
    left := nbytes;
    WrittenNothing(c, iv0, x, src0, so);
    SpliceAll(iv0, iv0);
    while left >= c.size
      invariant d + left == nbytes && i == so + d
      invariant (d == 0 && v == iv && vo == 0) || (d > 0 && v == src && vo + c.size == i)
      invariant iv[..] == iv0 && w == Sub(v[..], vo, c.size)
      invariant Written(c, iv0, x, src0, so, d, out, w, src[..])
    {
      WrittenMore(c, iv0, x, src0, so, d, out, w, src[..]);
      WrittenBehind(c, iv0, x, src0, so, d, out, w, src[..]);
      w := EncryptBlockInplace(c, src, i, v, vo);
      v, vo, i := src, i, i + c.size;
      d, out := d + c.size, out + w;
      left := left - c.size;
    }
    WrittenAll(c, iv0, x, src0, so, d, out, w, src[..]);
    SpliceAll(iv0, w);
    Copy(iv, 0, v, vo, c.size);
  }

  /** In place, what lies behind the part already written is still the input. */
  lemma WrittenBehind(c: Cipher, iv0: Bytes, x: Bytes, dst0: Bytes, to: nat, d: nat, out: Bytes, iv: Bytes, dst: Bytes)
    requires Good(c) && |iv0| == c.size && Written(c, iv0, x, dst0, to, d, out, iv, dst) && d + c.size <= |x|
    requires to + |x| <= |dst0| && x == Sub(dst0, to, |x|)
    ensures |dst| == |dst0| && to + d + c.size <= |dst| && Sub(dst, to + d, c.size) == Sub(x, d, c.size)
  {
    hide Splice, Sub, Encrypt, Next;
    StillInput(dst0, to, |x|, out, d, c.size);
  }

  /** What lies behind the part already written is still the input. */
  lemma StillInput(s: Bytes, i: nat, n: nat, out: Bytes, d: nat, m: nat)
    requires d == |out| && d + m <= n && i + n <= |s|
    ensures Sub(Splice(s, i, out), i + d, m) == Sub(Sub(s, i, n), d, m)
  {
    SpliceOutside(s, i, out, i + d, m);
    SubOfSub(s, i, n, d, m, i + d);
  }

  // ---------- decryption ----------

  /** d bytes of x are deciphered to a buffer, from to on, and iv is the chaining value. */
  ghost predicate Read(c: Cipher, iv0: Bytes, x: Bytes, dst0: Bytes, to: nat, d: nat, out: Bytes, iv: Bytes, dst: Bytes)
    requires Good(c) && |iv0| == c.size
  {
    && |iv| == c.size && to + |x| <= |dst0| && d == |out| <= |x|
    && Decrypt(c, iv0, x) == out + Decrypt(c, iv, x[d..]) && iv == Next(iv0, x[..d]) && dst == Splice(dst0, to, out)
  }

  lemma ReadNothing(c: Cipher, iv0: Bytes, x: Bytes, dst0: Bytes, to: nat)
    requires Good(c) && |iv0| == c.size && to + |x| <= |dst0|
    ensures Read(c, iv0, x, dst0, to, 0, [], iv0, dst0)
  {
    hide Decrypt;
    assert x[0..] == x && [] + Decrypt(c, iv0, x) == Decrypt(c, iv0, x);
    SpliceNothing(dst0, to);
  }

  lemma NextIsBlock(iv0: Bytes, x: Bytes, d: nat, n: nat)
    requires d + |iv0| == n <= |x|
    ensures Next(iv0, x[..n]) == Sub(x, d, |iv0|)
  {
  }

  lemma ReadMore(c: Cipher, iv0: Bytes, x: Bytes, dst0: Bytes, to: nat, d: nat, out: Bytes, iv: Bytes, dst: Bytes)
    requires Good(c) && |iv0| == c.size && Read(c, iv0, x, dst0, to, d, out, iv, dst) && d + c.size <= |x|
    ensures |iv| == c.size && |dst| == |dst0| && to + |x| <= |dst0|
    ensures var p := Sub(x, d, c.size);
            |c.dec(p)| == c.size &&
            var b := Xor(c.dec(p), iv);
            Read(c, iv0, x, dst0, to, d + c.size, out + b, p, Splice(dst, to + d, b))
  {
    hide Splice, Xor, Decrypt, Next;
    var p, rest := Sub(x, d, c.size), x[d + c.size..];
    assert x[d..] == p + rest;
    DecryptStep(c, iv, p, rest);
    hide Sub;
    var b := Xor(c.dec(p), iv);
    Assoc(out, b, Decrypt(c, p, rest));
    SpliceAppend(dst0, to, d, out, b);
    NextIsBlock(iv0, x, d, d + c.size);
  }

  lemma ReadAll(c: Cipher, iv0: Bytes, x: Bytes, dst0: Bytes, to: nat, d: nat, out: Bytes, iv: Bytes, dst: Bytes)
    requires Good(c) && |iv0| == c.size && Read(c, iv0, x, dst0, to, d, out, iv, dst) && |x| < d + c.size
    ensures var y := Decrypt(c, iv0, x);
            y == out && |y| == d && to + d <= |dst0| && dst == Splice(dst0, to, y) && iv == Next(iv0, x[..|y|])
  {
    hide Splice, Next;
    TooShort(c, iv, x[d..]);
    hide Decrypt;
    assert out + [] == out;
  }

  /** One round of the loop: decipher to the destination, then xor the block before. */
  method DecryptBlock(c: Cipher, src: array<bv8>, i: nat, dst: array<bv8>, j: nat, v: array<bv8>, vo: nat)
    requires Good(c) && i + c.size <= src.Length && j + c.size <= dst.Length && vo + c.size <= v.Length
    requires v != dst || vo + c.size <= j || j + c.size <= vo
    modifies dst
    ensures var p := old(Sub(src[..], i, c.size));
            |c.dec(p)| == c.size && dst[..] == Splice(old(dst[..]), j, Xor(c.dec(p), old(Sub(v[..], vo, c.size))))
  {
    hide Xor, Splice, Sub;
    ghost var dst0, d, w := dst[..], c.dec(Sub(src[..], i, c.size)), Sub(v[..], vo, c.size);
    BlockInto(c.dec, dst, j, src, i, c.size);
    SpliceInside(dst0, j, d);
    if v == dst {
      SpliceOutside(dst0, j, d, vo, c.size);
    }
    XorInto(dst, j, v, vo, c.size);
    SpliceAgain(dst0, j, d, Xor(d, w));
  }

  /** crypto_cbc_decrypt_segment. */
  method DecryptSegment(c: Cipher, src: array<bv8>, so: nat, dst: array<bv8>, to: nat, nbytes: nat, iv: array<bv8>)
    returns (left: nat)
    requires Good(c) && iv.Length == c.size <= nbytes && so + nbytes <= src.Length && to + nbytes <= dst.Length
    requires iv != src && iv != dst && (src != dst || so + nbytes <= to || to + nbytes <= so)
    modifies dst, iv
    ensures var x := old(Sub(src[..], so, nbytes));
            var y := Decrypt(c, old(iv[..]), x);
            && dst[..] == Splice(old(dst[..]), to, y) && iv[..] == Next(old(iv[..]), x[..|y|]) && left == nbytes - |y|
  {
    hide Decrypt, Xor, Splice, Next, Sub, Read;
    ghost var x, iv0, dst0 := Sub(src[..], so, nbytes), iv[..], dst[..];
    ghost var out: Bytes := [];
    ghost var d: nat, w := 0, iv0;
    var i: nat, j: nat, v: array<bv8>, vo: nat := so, to, iv, 0;
    left := nbytes;
    ReadNothing(c, iv0, x, dst0, to);
    SpliceAll(iv0, iv0);
    while left >= c.size
      invariant d + left == nbytes && i == so + d && j == to + d
      invariant (d == 0 && v == iv && vo == 0) || (d > 0 && v == src && so <= vo && vo + c.size == i)
      invariant iv[..] == iv0 && w == Sub(v[..], vo, c.size) && Sub(src[..], so, nbytes) == x
      invariant Read(c, iv0, x, dst0, to, d, out, w, dst[..])
    {
      w, out := DecryptRound(c, src, so, i, dst, to, j, v, vo, iv0, x, dst0, d, out);
      v, vo := src, i;
      i, j, d := i + c.size, j + c.size, d + c.size;
      left := left - c.size;
    }
    ReadAll(c, iv0, x, dst0, to, d, out, w, dst[..]);
    SpliceAll(iv0, w);
    Copy(iv, 0, v, vo, c.size);
  }

  method DecryptRound(c: Cipher, src: array<bv8>, ghost so: nat, i: nat, dst: array<bv8>, ghost to: nat, j: nat, v: array<bv8>, vo: nat,
                      ghost iv0: Bytes, ghost x: Bytes, ghost dst0: Bytes, ghost d: nat, ghost out: Bytes)
    returns (ghost p: Bytes, ghost out': Bytes)
    requires Good(c) && |iv0| == c.size && d + c.size <= |x| && i == so + d && j == to + d
    requires so + |x| <= src.Length && to + |x| <= dst.Length && vo + c.size <= v.Length
    requires src != dst || so + |x| <= to || to + |x| <= so
    requires v != dst || (v == src && so <= vo && vo + c.size == i)
    requires Sub(src[..], so, |x|) == x
    requires Read(c, iv0, x, dst0, to, d, out, Sub(v[..], vo, c.size), dst[..])
    modifies dst
    ensures Sub(src[..], so, |x|) == x && p == Sub(src[..], i, c.size)
    ensures Read(c, iv0, x, dst0, to, d + c.size, out', p, dst[..])
  {
    hide Decrypt, Xor, Splice, Next, Sub, Read;
    ghost var t, w := dst[..], Sub(v[..], vo, c.size);
    p := Sub(src[..], i, c.size);
    SubOfSub(src[..], so, |x|, d, c.size, i);
    ReadMore(c, iv0, x, dst0, to, d, out, w, t);
    ghost var b := Xor(c.dec(p), w);
    out' := out + b;
    DecryptBlock(c, src, i, dst, j, v, vo);
    if src == dst {
      SpliceOutside(t, j, b, so, |x|);
      SubOfSub(src[..], so, |x|, d, c.size, i);
    }
  }

  // ---------- decryption in place, from the last block to the first ----------

  /** What the blocks behind the one at e become. */
  ghost function Tail(c: Cipher, x: Bytes, e: nat): (r: Bytes)
    requires Good(c) && e + c.size <= |x|
    ensures e + c.size + |r| <= |x| < e + 2 * c.size + |r|
  {
    Decrypt(c, Sub(x, e, c.size), x[e + c.size..])
  }

  lemma TailStep(c: Cipher, x: Bytes, e: nat)
    requires Good(c) && c.size <= e && e + c.size <= |x|
    ensures var p := Sub(x, e, c.size);
            |c.dec(p)| == c.size && Tail(c, x, e - c.size) == Xor(c.dec(p), Sub(x, e - c.size, c.size)) + Tail(c, x, e)
  {
    hide Decrypt, Xor;
    var p := Sub(x, e, c.size);
    assert x[e..] == p + x[e + c.size..];
    assert e - c.size + c.size == e;
    DecryptStep(c, Sub(x, e - c.size, c.size), p, x[e + c.size..]);
  }

  lemma TailIsAll(c: Cipher, iv: Bytes, x: Bytes)
    requires Good(c) && |iv| == c.size <= |x|
    ensures var p := Sub(x, 0, c.size);
            |c.dec(p)| == c.size && Decrypt(c, iv, x) == Xor(c.dec(p), iv) + Tail(c, x, 0)
  {
    hide Decrypt, Xor;
    var p := Sub(x, 0, c.size);
    assert x == p + x[c.size..];
    DecryptStep(c, iv, p, x[c.size..]);
  }

  lemma LastTail(c: Cipher, x: Bytes, e: nat)
    requires Good(c) && e + c.size <= |x| < e + 2 * c.size
    ensures Tail(c, x, e) == []
  {
    TooShort(c, Sub(x, e, c.size), x[e + c.size..]);
  }

  /** Multiples of the block size. */
  predicate Whole(e: nat, bs: nat)
    requires bs > 0
  {
    e == 0 || (e >= bs && Whole(e - bs, bs))
  }

  lemma Distribute(q: int, q': int, bs: int)
    ensures (q - q') * bs == q * bs - q' * bs
  {
  }

  lemma {:induction false} AtLeastOnce(k: nat, bs: nat)
    requires k >= 1
    ensures k * bs >= bs
  {
    if k > 1 {
      AtLeastOnce(k - 1, bs);
      Distribute(k, 1, bs);
    }
  }

  lemma SameQuotient(q: int, r: int, q': int, r': int, bs: int)
    requires 0 <= r < bs && 0 <= r' < bs && q * bs + r == q' * bs + r'
    ensures r == r'
  {
    if q > q' {
      Distribute(q, q', bs);
      AtLeastOnce(q - q', bs);
    } else if q < q' {
      Distribute(q', q, bs);
      AtLeastOnce(q' - q, bs);
    }
  }

  lemma ModMinus(n: nat, bs: nat)
    requires 0 < bs <= n
    ensures (n - bs) % bs == n % bs
  {
    var q, q' := n / bs, (n - bs) / bs;
    assert n == q * bs + n % bs && n - bs == q' * bs + (n - bs) % bs;
    Distribute(q, 1, bs);
    SameQuotient(q - 1, n % bs, q', (n - bs) % bs, bs);
  }

  lemma {:induction false} RemainderOff(n: nat, bs: nat)
    requires bs > 0
    ensures n % bs <= n && Whole(n - n % bs, bs)
    ensures n >= bs ==> n - n % bs >= bs
  {
    if n >= bs {
      ModMinus(n, bs);
      RemainderOff(n - bs, bs);
    }
  }

  /** The blocks behind the one at e are deciphered, the others are as they were. */
  ghost predicate TailRead(c: Cipher, x: Bytes, src0: Bytes, so: nat, e: nat, src: Bytes)
    requires Good(c)
  {
    && e + c.size <= |x| && so + |x| <= |src0| && x == Sub(src0, so, |x|)
    && src == Splice(src0, so + e + c.size, Tail(c, x, e))
  }

  lemma TailReadBegins(c: Cipher, x: Bytes, src0: Bytes, so: nat, e: nat)
    requires Good(c) && e + c.size <= |x| < e + 2 * c.size && so + |x| <= |src0| && x == Sub(src0, so, |x|)
    ensures TailRead(c, x, src0, so, e, src0)
  {
    LastTail(c, x, e);
    SpliceNothing(src0, so + e + c.size);
  }

  /** The block at e is the next to be deciphered, and the one in front of it is still ciphertext. */
  lemma TailReadInput(c: Cipher, x: Bytes, src0: Bytes, so: nat, e: nat, src: Bytes, k: nat, at: nat)
    requires Good(c) && TailRead(c, x, src0, so, e, src) && k <= e && at == so + k
    ensures |src| == |src0| && at + c.size <= |src| && k + c.size <= |x| && Sub(src, at, c.size) == Sub(x, k, c.size)
  {
    hide Splice, Sub, Tail;
    SpliceOutside(src0, so + e + c.size, Tail(c, x, e), at, c.size);
    SubOfSub(src0, so, |x|, k, c.size, at);
  }

  lemma TailReadMore(c: Cipher, x: Bytes, src0: Bytes, so: nat, e: nat, src: Bytes, k: nat, at: nat)
    requires Good(c) && TailRead(c, x, src0, so, e, src) && k + c.size == e && at == so + e
    ensures |src| == |src0| && at + c.size <= |src| && e + c.size <= |x|
    ensures var p := Sub(x, e, c.size);
            |c.dec(p)| == c.size && TailRead(c, x, src0, so, k, Splice(src, at, Xor(c.dec(p), Sub(x, k, c.size))))
  {
    hide Splice, Sub, Tail, Xor;
    TailStep(c, x, e);
    var b := Xor(c.dec(Sub(x, e, c.size)), Sub(x, k, c.size));
    SplicePrepend(src0, at, b, Tail(c, x, e));
  }

  lemma TailReadAll(c: Cipher, x: Bytes, src0: Bytes, so: nat, src: Bytes, iv: Bytes)
    requires Good(c) && TailRead(c, x, src0, so, 0, src) && |iv| == c.size
    ensures |src| == |src0| && so + c.size <= |src| && c.size <= |x|
    ensures var p := Sub(x, 0, c.size);
            |c.dec(p)| == c.size && so + |Decrypt(c, iv, x)| <= |src0| &&
            Splice(src, so, Xor(c.dec(p), iv)) == Splice(src0, so, Decrypt(c, iv, x))
  {
    hide Splice, Sub, Tail, Xor, Decrypt;
    TailIsAll(c, iv, x);
    SplicePrepend(src0, so, Xor(c.dec(Sub(x, 0, c.size)), iv), Tail(c, x, 0));
  }

  /** memcpy of a whole block. */
  method Load(a: array<bv8>, b: array<bv8>, j: nat)
    requires j + a.Length <= b.Length && a != b
    modifies a
    ensures a[..] == old(Sub(b[..], j, a.Length))
  {
    hide Sub, Splice;
    ghost var x := Sub(b[..], j, a.Length);
    SpliceAll(a[..], x);
    Copy(a, 0, b, j, a.Length);
  }

  /** What whole blocks hold of n bytes. */
  function Rounded(n: nat, bs: nat): int
    requires bs > 0
  {
    n - n % bs
  }

  lemma RoundedIs(n: nat, bs: nat)
    requires bs > 0
    ensures n < bs ==> Rounded(n, bs) == 0
    ensures bs <= n ==> Rounded(n, bs) == bs + Rounded(n - bs, bs)
  {
    if bs <= n {
      ModMinus(n, bs);
    }
  }

  lemma {:induction false} DecryptRounded(c: Cipher, iv: Bytes, x: Bytes)
    requires Good(c) && |iv| == c.size
    ensures |Decrypt(c, iv, x)| == Rounded(|x|, c.size)
    decreases |x|
  {
    hide Decrypt, Rounded;
    RoundedIs(|x|, c.size);
    OneDecrypted(c, iv, x);
    if |x| >= c.size {
      DecryptRounded(c, x[..c.size], x[c.size..]);
    }
  }

  lemma OneDecrypted(c: Cipher, iv: Bytes, x: Bytes)
    requires Good(c) && |iv| == c.size
    ensures |x| < c.size ==> Decrypt(c, iv, x) == []
    ensures |x| >= c.size ==> |Decrypt(c, iv, x)| == c.size + |Decrypt(c, x[..c.size], x[c.size..])|
  {
    hide Xor;
  }

  lemma DecryptLength(c: Cipher, iv: Bytes, x: Bytes)
    requires Good(c) && |iv| == c.size
    ensures |Decrypt(c, iv, x)| == |x| - |x| % c.size
  {
    hide Decrypt;
    DecryptRounded(c, iv, x);
  }

  /** A deciphered block takes the one before it, or the chaining value. */
  method XorDeciphered(src: array<bv8>, i: nat, v: array<bv8>, vo: nat, bs: nat, ghost s: Bytes, ghost d: Bytes)
    requires bs > 0 && |d| == bs && i + bs <= src.Length == |s| && vo + bs <= v.Length && (v != src || vo + bs <= i)
    requires src[..] == Splice(s, i, d)
    modifies src
    ensures src[..] == Splice(s, i, Xor(d, if v == src then Sub(s, vo, bs) else old(Sub(v[..], vo, bs))))
  {
    hide Xor, Splice, Sub;
    ghost var w := Sub(v[..], vo, bs);
    SpliceInside(s, i, d);
    if v == src {
      SpliceOutside(s, i, d, vo, bs);
    }
    XorInto(src, i, v, vo, bs);
    SpliceAgain(s, i, d, Xor(d, w));
  }

  /** The loop of crypto_cbc_decrypt_inplace, and the block behind it. */
  method DecryptBackwards(c: Cipher, src: array<bv8>, ghost so: nat, start: nat, nbytes: nat, firstIv: array<bv8>, ghost x: Bytes)
    returns (left: nat)
    requires Good(c) && firstIv.Length == c.size <= nbytes == |x| && so + nbytes <= src.Length && firstIv != src
    requires x == Sub(src[..], so, nbytes)
    requires nbytes % c.size + c.size <= nbytes && start == so + nbytes - nbytes % c.size - c.size
    requires Whole(start - so, c.size)
    modifies src
    ensures var y := Decrypt(c, firstIv[..], x);
            so + |y| <= src.Length && src[..] == Splice(old(src[..]), so, y)
    ensures left == nbytes % c.size
  {
    hide Decrypt, Xor, Splice, Sub, TailRead, Tail;
    ghost var src0, r := src[..], nbytes % c.size;
    ghost var e: nat, s := start - so, src[..];
    var i: nat := start;
    left := nbytes;
    TailReadBegins(c, x, src0, so, e);
    while true
      invariant e + c.size <= nbytes && i == so + e && left == e + c.size + r
      invariant Whole(e, c.size) && TailRead(c, x, src0, so, e, src[..])
      decreases e
    {
      s := src[..];
      TailReadInput(c, x, src0, so, e, s, e, i);
      BlockInto(c.dec, src, i, src, i, c.size);
      left := left - c.size;
      if left < c.size {
        break;
      }
      var prev: nat := i - c.size;
      ghost var k: nat := e - c.size;
      TailReadInput(c, x, src0, so, e, s, k, prev);
      TailReadMore(c, x, src0, so, e, s, k, i);
      XorDeciphered(src, i, src, prev, c.size, s, c.dec(Sub(x, e, c.size)));
      i, e := prev, k;
    }
    TailReadAll(c, x, src0, so, s, firstIv[..]);
    SpliceAll(firstIv[..], firstIv[..]);
    XorDeciphered(src, i, firstIv, 0, c.size, s, c.dec(Sub(x, 0, c.size)));
  }

  /** crypto_cbc_decrypt_inplace. */
  method DecryptInplace(c: Cipher, src: array<bv8>, so: nat, nbytes: nat, iv: array<bv8>) returns (left: nat)
    requires Good(c) && iv.Length == c.size <= nbytes && so + nbytes <= src.Length && iv != src
    modifies src, iv
    ensures var x := old(Sub(src[..], so, nbytes));
            var y := Decrypt(c, old(iv[..]), x);
            && src[..] == Splice(old(src[..]), so, y) && iv[..] == Next(old(iv[..]), x[..|y|]) && left == nbytes - |y|
  {
    hide Decrypt, Xor, Splice, Next, Sub, Whole;
    ghost var x, iv0 := Sub(src[..], so, nbytes), iv[..];
    var firstIv := new bv8[c.size];
    SpliceAll(iv0, iv0);
    Load(firstIv, iv, 0);
    RemainderOff(nbytes, c.size);
    WholeBefore(nbytes - nbytes % c.size, c.size);
    var start: nat := so + nbytes - nbytes % c.size - c.size;
    ghost var d: nat := start - so;
    SubOfSub(src[..], so, nbytes, d, c.size, start);
    DecryptLength(c, iv0, x);
    NextIsBlock(iv0, x, d, |Decrypt(c, iv0, x)|);
    Load(iv, src, start);
    left := DecryptBackwards(c, src, so, start, nbytes, firstIv, x);
  }

  lemma WholeBefore(e: nat, bs: nat)
    requires 0 < bs <= e && Whole(e, bs)
    ensures Whole(e - bs, bs)
  {
  }
}
