/** CBC over scattered source and destination: the walk and its fast, copy and slow steps. */
module CbcWalk {
  import opened CbcSpec
  import opened CbcSegments
  import opened ScatterSpec

  datatype Dir = Enc | Dec

  ghost function Crypt(dir: Dir, c: Cipher, iv: Bytes, x: Bytes): (r: Bytes)
    requires Good(c) && |iv| == c.size
    ensures |r| <= |x| < |r| + c.size
  {
    if dir.Enc? then Encrypt(c, iv, x) else Decrypt(c, iv, x)
  }

  /** The chaining value behind x, of which the whole blocks became y: the last block of ciphertext. */
  function Chain(dir: Dir, iv: Bytes, x: Bytes, y: Bytes): (r: Bytes)
    requires |y| <= |x|
    ensures |r| == |iv|
  {
    Next(iv, if dir.Enc? then y else x[..|y|])
  }

  lemma {:induction false} EncryptRounded(c: Cipher, iv: Bytes, x: Bytes)
    requires Good(c) && |iv| == c.size
    ensures |Encrypt(c, iv, x)| == Rounded(|x|, c.size)
    decreases |x|
  {
    hide Encrypt, Rounded;
    RoundedIs(|x|, c.size);
    OneEncrypted(c, iv, x);
    if |x| >= c.size {
      EncryptRounded(c, c.enc(Xor(x[..c.size], iv)), x[c.size..]);
    }
  }

  lemma OneEncrypted(c: Cipher, iv: Bytes, x: Bytes)
    requires Good(c) && |iv| == c.size
    ensures |x| < c.size ==> Encrypt(c, iv, x) == []
    ensures |x| >= c.size ==> |Encrypt(c, iv, x)| == c.size + |Encrypt(c, c.enc(Xor(x[..c.size], iv)), x[c.size..])|
  {
    hide Xor;
  }

  lemma EncryptLength(c: Cipher, iv: Bytes, x: Bytes)
    requires Good(c) && |iv| == c.size
    ensures |Encrypt(c, iv, x)| == |x| - |x| % c.size
  {
    hide Encrypt;
    EncryptRounded(c, iv, x);
  }

  lemma CryptLength(dir: Dir, c: Cipher, iv: Bytes, x: Bytes)
    requires Good(c) && |iv| == c.size
    ensures |Crypt(dir, c, iv, x)| == |x| - |x| % c.size
    ensures |x| >= c.size ==> |Crypt(dir, c, iv, x)| >= c.size
  {
    hide Encrypt, Decrypt;
    EncryptLength(c, iv, x);
    DecryptLength(c, iv, x);
    RemainderOff(|x|, c.size);
  }

  lemma {:induction false} EncryptTruncate(c: Cipher, iv: Bytes, x: Bytes, n: nat)
    requires Good(c) && |iv| == c.size && n == |Encrypt(c, iv, x)|
    ensures Encrypt(c, iv, x[..n]) == Encrypt(c, iv, x)
    decreases |x|
  {
    hide Xor, Encrypt;
    if |x| < c.size {
      TooShort(c, iv, x);
      assert x[..0] == [];
      TooShort(c, iv, []);
    } else {
      var p, y := x[..c.size], x[c.size..];
      FirstBlock(x, c.size);
      EncryptStep(c, iv, p, y);
      var b := c.enc(Xor(p, iv));
      EncryptTruncate(c, b, y, n - c.size);
      PrefixBehind(p, y, n - c.size);
      EncryptStep(c, iv, p, y[..n - c.size]);
    }
  }

  lemma {:induction false} DecryptTruncate(c: Cipher, iv: Bytes, x: Bytes, n: nat)
    requires Good(c) && |iv| == c.size && n == |Decrypt(c, iv, x)|
    ensures Decrypt(c, iv, x[..n]) == Decrypt(c, iv, x)
    decreases |x|
  {
    hide Xor, Decrypt;
    if |x| < c.size {
      TooShort(c, iv, x);
      assert x[..0] == [];
      TooShort(c, iv, []);
    } else {
      var p, y := x[..c.size], x[c.size..];
      FirstBlock(x, c.size);
      DecryptStep(c, iv, p, y);
      DecryptTruncate(c, p, y, n - c.size);
      PrefixBehind(p, y, n - c.size);
      DecryptStep(c, iv, p, y[..n - c.size]);
    }
  }

  /** A chunk from the front of the data, and how its result begins the whole. */
  lemma CryptChunk(dir: Dir, c: Cipher, iv: Bytes, x: Bytes, m: nat)
    requires Good(c) && |iv| == c.size && m <= |x|
    ensures var y := Crypt(dir, c, iv, x[..m]);
            Crypt(dir, c, iv, x) == y + Crypt(dir, c, Chain(dir, iv, x[..m], y), x[|y|..])
  {
    hide Encrypt, Decrypt, Next;
    var y := Crypt(dir, c, iv, x[..m]);
    assert x == x[..|y|] + x[|y|..] && x[..m][..|y|] == x[..|y|];
    if dir.Enc? {
      EncryptTruncate(c, iv, x[..m], |y|);
      EncryptSplit(c, iv, x[..|y|], x[|y|..]);
    } else {
      DecryptTruncate(c, iv, x[..m], |y|);
      DecryptSplit(c, iv, x[..|y|], x[|y|..]);
    }
  }

  lemma ChainOn(iv0: Bytes, a: Bytes, b: Bytes)
    requires |b| >= |iv0|
    ensures Next(Next(iv0, a), b) == Next(iv0, a + b)
  {
  }

  // ---------- copying between a buffer and scattered data ----------

  /** scatterwalk_pagedone with more to come: on to the next piece. */
  lemma NextPiece(ps: seq<Piece>, c: Cursor, p: nat)
    requires At(ps, c, p) && c.off == ps[c.i].len && p < Start(ps, |ps|)
    ensures c.i + 1 < |ps| && At(ps, Cursor(c.i + 1, 0), p)
  {
  }

  /** scatterwalk_done with more to come: where a piece ends with its page, the walk goes on to the next; elsewhere it may
    * be left standing at the end of a piece. */
  method PageDone(ps: seq<Piece>, at: Cursor, ghost p: nat) returns (r: Cursor)
    requires At(ps, at, p) && p < Start(ps, |ps|)
    ensures At(ps, r, p)
  {
    r := at;
    if at.off == ps[at.i].len && ps[at.i].toPageEnd {
      NextPiece(ps, at, p);
      r := Cursor(at.i + 1, 0);
    }
  }

  /** scatterwalk_copychunks, reading. */
  method CopyChunksIn(buf: array<bv8>, mem: array<bv8>, ps: seq<Piece>, at: Cursor, ghost p: nat, n: nat) returns (r: Cursor)
    requires buf != mem && n == buf.Length > 0 && Within(ps, mem.Length) && At(ps, at, p) && p + n <= Start(ps, |ps|)
    modifies buf
    ensures buf[..] == Gather(mem[..], ps, p, n) && At(ps, r, p + n)
  {
    hide Gather, AddrOf, Splice, Sub;
    r := at;
    ghost var buf0 := buf[..];
    var k: nat := 0;
    GatherNothing(mem[..], ps, p);
    SpliceNothing(buf0, 0);
    while true
      invariant k < n && At(ps, r, p + k) && buf[..] == Splice(buf0, 0, Gather(mem[..], ps, p, k))
      decreases |ps| - r.i
    {
      var len := PageLen(ps, r);
      if len > n - k {
        len := n - k;
      }
      GatherHere(mem[..], ps, r, p + k, len);
      GatherAppend(mem[..], ps, p, k, len);
      SpliceAppend(buf0, 0, k, Gather(mem[..], ps, p, k), Gather(mem[..], ps, p + k, len));
      Copy(buf, k, mem, Addr(ps, r), len);
      r := Cursor(r.i, r.off + len);
      if n - k == len {
        break;
      }
      k := k + len;
      NextPiece(ps, r, p + k);
      r := Cursor(r.i + 1, 0);
    }
    SpliceAll(buf0, Gather(mem[..], ps, p, n));
  }

  lemma GatherNothing(mem: Bytes, ps: seq<Piece>, p: nat)
    requires Within(ps, |mem|) && p <= Start(ps, |ps|)
    ensures Gather(mem, ps, p, 0) == []
  {
  }

  lemma GatherAppend(mem: Bytes, ps: seq<Piece>, p: nat, m: nat, n: nat)
    requires Within(ps, |mem|) && p + m + n <= Start(ps, |ps|)
    ensures Gather(mem, ps, p, m + n) == Gather(mem, ps, p, m) + Gather(mem, ps, p + m, n)
  {
    hide AddrOf;
    var u, v := Gather(mem, ps, p, m + n), Gather(mem, ps, p, m) + Gather(mem, ps, p + m, n);
    forall k | 0 <= k < m + n ensures u[k] == v[k] {
      if k >= m {
        assert v[k] == Gather(mem, ps, p + m, n)[k - m] && p + m + (k - m) == p + k;
      }
    }
  }

  /** scatterwalk_copychunks, writing. */
  method CopyChunksOut(buf: array<bv8>, mem: array<bv8>, ps: seq<Piece>, at: Cursor, ghost p: nat, n: nat) returns (r: Cursor)
    requires buf != mem && n == buf.Length > 0 && Within(ps, mem.Length) && At(ps, at, p) && p + n <= Start(ps, |ps|)
    modifies mem
    ensures mem[..] == Scatter(old(mem[..]), ps, p, buf[..]) && At(ps, r, p + n)
  {
    hide Scatter, AddrOf, Splice, Sub;
    r := at;
    ghost var mem0 := mem[..];
    var k: nat := 0;
    ScatterNothing(mem0, ps, p);
    while true
      invariant k < n && At(ps, r, p + k) && mem[..] == Scatter(mem0, ps, p, buf[..][..k])
      decreases |ps| - r.i
    {
      var len := PageLen(ps, r);
      if len > n - k {
        len := n - k;
      }
      ghost var x := Sub(buf[..], k, len);
      ScatterHere(mem[..], ps, r, p + k, x);
      ScatterAppend(mem0, ps, p, buf[..][..k], x, p + k);
      SubBehind(buf[..], k, len);
      Copy(mem, Addr(ps, r), buf, k, len);
      r := Cursor(r.i, r.off + len);
      if n - k == len {
        break;
      }
      k := k + len;
      NextPiece(ps, r, p + k);
      r := Cursor(r.i + 1, 0);
    }
    assert buf[..][..n] == buf[..];
  }

  lemma ScatterNothing(mem: Bytes, ps: seq<Piece>, p: nat)
    requires Within(ps, |mem|) && p <= Start(ps, |ps|)
    ensures forall x: Bytes :: Scatter(mem, ps, p, x[..0]) == mem
  {
  }

  lemma SubBehind(s: Bytes, k: nat, n: nat)
    requires k + n <= |s|
    ensures s[..k] + Sub(s, k, n) == s[..k + n]
  {
  }

  method Segment(dir: Dir, c: Cipher, src: array<bv8>, so: nat, dst: array<bv8>, to: nat, nbytes: nat, iv: array<bv8>)
    returns (left: nat)
    requires Good(c) && iv.Length == c.size <= nbytes && so + nbytes <= src.Length && to + nbytes <= dst.Length
    requires iv != src && iv != dst && (src != dst || so + nbytes <= to || to + nbytes <= so)
    modifies dst, iv
    ensures var x := old(Sub(src[..], so, nbytes));
            var y := Crypt(dir, c, old(iv[..]), x);
            && dst[..] == Splice(old(dst[..]), to, y) && iv[..] == Chain(dir, old(iv[..]), x, y) && left == nbytes - |y|
  {
    hide Encrypt, Decrypt, Sub, Splice, Next;
    if dir.Enc? {
      left := EncryptSegment(c, src, so, dst, to, nbytes, iv);
    } else {
      left := DecryptSegment(c, src, so, dst, to, nbytes, iv);
    }
  }

  method Inplace(dir: Dir, c: Cipher, src: array<bv8>, so: nat, nbytes: nat, iv: array<bv8>) returns (left: nat)
    requires Good(c) && iv.Length == c.size <= nbytes && so + nbytes <= src.Length && iv != src
    modifies src, iv
    ensures var x := old(Sub(src[..], so, nbytes));
            var y := Crypt(dir, c, old(iv[..]), x);
            && src[..] == Splice(old(src[..]), so, y) && iv[..] == Chain(dir, old(iv[..]), x, y) && left == nbytes - |y|
  {
    hide Encrypt, Decrypt, Sub, Splice, Next;
    if dir.Enc? {
      left := EncryptInplace(c, src, so, nbytes, iv);
    } else {
      left := DecryptInplace(c, src, so, nbytes, iv);
    }
  }

  // ---------- the walk ----------

  datatype Status = Ok | BadLength

  /** What is to be done: direction, chaining value and data at the start, and the memory then. */
  datatype Task = Task(dir: Dir, iv0: Bytes, x0: Bytes, mem0: Bytes)

  /** Byte p of the source shares its place with no byte of the destination but byte p. */
  predicate Separate(ins: seq<Piece>, outs: seq<Piece>) {
    forall p, q :: 0 <= p < Start(ins, |ins|) && 0 <= q < Start(outs, |outs|) && AddrOf(ins, p) == AddrOf(outs, q) ==> p == q
  }

  /** Writing the bytes before p leaves the source from p on. */
  lemma SourceStays(mem: Bytes, ins: seq<Piece>, outs: seq<Piece>, q: nat, y: Bytes, p: nat, n: nat)
    requires Within(ins, |mem|) && Within(outs, |mem|) && Separate(ins, outs)
    requires q + |y| <= p && p + n <= Start(ins, |ins|) && p <= Start(outs, |outs|)
    ensures Gather(Scatter(mem, outs, q, y), ins, p, n) == Gather(mem, ins, p, n)
  {
    hide Scatter;
    var u, v := Gather(Scatter(mem, outs, q, y), ins, p, n), Gather(mem, ins, p, n);
    forall k | 0 <= k < n ensures u[k] == v[k] {
      AddrWithin(ins, p + k, |mem|);
      forall j | q <= j < q + |y| ensures AddrOf(outs, j) != AddrOf(ins, p + k) {
      }
      ScatterAway(mem, outs, q, y, AddrOf(ins, p + k));
    }
  }

  /** p bytes are done and out is what they became: the memory, the chaining value and the data still to come say so. */
  ghost predicate Progress(c: Cipher, ins: seq<Piece>, outs: seq<Piece>, t: Task, p: nat, out: Bytes, mem: Bytes, iv: Bytes)
    requires Good(c) && Within(ins, |mem|) && Within(outs, |mem|)
  {
    && |t.iv0| == |iv| == c.size && |t.mem0| == |mem| && |t.x0| <= Start(ins, |ins|) && |t.x0| <= Start(outs, |outs|)
    && p == |out| <= |t.x0|
    && mem == Scatter(t.mem0, outs, 0, out)
    && Crypt(t.dir, c, t.iv0, t.x0) == out + Crypt(t.dir, c, iv, t.x0[p..])
    && iv == Chain(t.dir, t.iv0, t.x0[..p], out)
    && Gather(mem, ins, p, |t.x0| - p) == From(t.x0, p)
  }

  /** What is left of x behind p bytes. */
  function From(x: Bytes, p: nat): Bytes
    requires p <= |x|
  {
    x[p..]
  }

  lemma ChainMore(dir: Dir, iv0: Bytes, x0: Bytes, p: nat, m: nat, out: Bytes, y: Bytes, q: nat)
    requires p == |out| && |iv0| <= |y| <= m && p + m <= |x0| && q == p + |y|
    ensures Chain(dir, Chain(dir, iv0, x0[..p], out), x0[p..p + m], y) == Chain(dir, iv0, x0[..q], out + y)
  {
    hide Next;
    assert x0[..p][..|out|] == x0[..p] && x0[..q][..|out + y|] == x0[..q];
    assert x0[..p] + x0[p..p + m][..|y|] == x0[..q];
    ChainOn(iv0, out, y);
    ChainOn(iv0, x0[..p], x0[p..p + m][..|y|]);
  }

  lemma CryptMore(c: Cipher, t: Task, p: nat, out: Bytes, iv: Bytes, m: nat, q: nat)
    requires Good(c) && |iv| == |t.iv0| == c.size && p == |out| && p + m <= |t.x0|
    requires q == p + |Crypt(t.dir, c, iv, t.x0[p..p + m])|
    requires Crypt(t.dir, c, t.iv0, t.x0) == out + Crypt(t.dir, c, iv, t.x0[p..])
    ensures var x := t.x0[p..p + m];
            var y := Crypt(t.dir, c, iv, x);
            Crypt(t.dir, c, t.iv0, t.x0) == (out + y) + Crypt(t.dir, c, Chain(t.dir, iv, x, y), t.x0[q..])
  {
    hide Crypt, Chain;
    var x := t.x0[p..p + m];
    var y := Crypt(t.dir, c, iv, x);
    CryptChunk(t.dir, c, iv, t.x0[p..], m);
    assert t.x0[p..][..m] == x && t.x0[p..][|y|..] == t.x0[q..];
    Assoc(out, y, Crypt(t.dir, c, Chain(t.dir, iv, x, y), t.x0[q..]));
  }

  /** One more chunk: the blocks of x0[p..p + m] became y, which is written to the destination. */
  lemma MoreProgress(c: Cipher, ins: seq<Piece>, outs: seq<Piece>, t: Task, p: nat, out: Bytes, mem: Bytes, iv: Bytes, m: nat, y: Bytes, q: nat)
    requires Good(c) && Within(ins, |mem|) && Within(outs, |mem|) && Separate(ins, outs) && q == p + |y|
    requires Progress(c, ins, outs, t, p, out, mem, iv) && c.size <= m && p + m <= |t.x0|
    requires y == Crypt(t.dir, c, iv, t.x0[p..p + m]) && |y| >= c.size
    ensures q <= Start(outs, |outs|)
    ensures Progress(c, ins, outs, t, q, out + y, Scatter(mem, outs, p, y), Chain(t.dir, iv, t.x0[p..p + m], y))
  {
    hide Crypt, Chain, Gather, Scatter, Separate, AddrOf, Within, Start, From, Good;
    CryptMore(c, t, p, out, iv, m, q);
    ChainMore(t.dir, t.iv0, t.x0, p, m, out, y, q);
    ScatterAppend(t.mem0, outs, 0, out, y, p);
    SourceBehind(ins, outs, mem, t.x0, p, y, q, |t.x0| - p, |t.x0| - q);
  }

  lemma SourceBehind(ins: seq<Piece>, outs: seq<Piece>, mem: Bytes, x0: Bytes, p: nat, y: Bytes, q: nat, n: nat, m: nat)
    requires Within(ins, |mem|) && Within(outs, |mem|) && Separate(ins, outs)
    requires q == p + |y| && n == |x0| - p && m == |x0| - q && |x0| <= Start(ins, |ins|) && |x0| <= Start(outs, |outs|)
    requires Gather(mem, ins, p, n) == From(x0, p)
    ensures Gather(Scatter(mem, outs, p, y), ins, q, m) == From(x0, q)
  {
    hide Gather, Scatter, Separate, AddrOf, From, Start, Within;
    GatherBehind(mem, ins, x0, p, n, q, m);
    SourceStays(mem, ins, outs, p, y, q, m);
  }

  lemma GatherBehind(mem: Bytes, ps: seq<Piece>, x: Bytes, p: nat, n: nat, q: nat, m: nat)
    requires Within(ps, |mem|) && |x| <= Start(ps, |ps|) && p <= q <= |x| && n == |x| - p && m == |x| - q
    requires Gather(mem, ps, p, n) == From(x, p)
    ensures Gather(mem, ps, q, m) == From(x, q)
  {
    hide AddrOf;
    var g, u, v := Gather(mem, ps, p, n), Gather(mem, ps, q, m), From(x, q);
    forall j | 0 <= j < m ensures u[j] == v[j] {
      assert v[j] == x[q + j] == From(x, p)[q - p + j] == g[q - p + j];
      assert p + (q - p + j) == q + j;
    }
  }

  class Walk {
    const c: Cipher
    const ins: seq<Piece>
    const outs: seq<Piece>
    const mem: array<bv8>
    const iv: array<bv8>
    const page: array<bv8>
    const sbuf: array<bv8>
    const dbuf: array<bv8>
    const aligned: nat -> bool
    var inAt: Cursor
    var outAt: Cursor
    var total: nat
    var nbytes: nat
    var slow: bool
    var copy: bool

    ghost predicate Valid() {
      && Good(c) && iv.Length == sbuf.Length == dbuf.Length == c.size
      && mem != iv && mem != page && mem != sbuf && mem != dbuf && iv != page && iv != sbuf && iv != dbuf
      && page != sbuf && page != dbuf && sbuf != dbuf
      && Within(ins, mem.Length) && Within(outs, mem.Length) && Separate(ins, outs)
      && (forall i :: 0 <= i < |ins| ==> ins[i].len <= page.Length)
    }

    /** The data from p on is still to be done; what was done before is out. */
    ghost predicate Done(t: Task, p: nat, out: Bytes)
      reads this`total, mem, iv
    {
      Valid() && p + total == |t.x0| && Progress(c, ins, outs, t, p, out, mem[..], iv[..])
    }

    /** The next nbytes bytes x stand ready where the step will look for them. */
    ghost predicate Ready(p: nat, x: Bytes)
      reads this, mem, page, sbuf
    {
      && Valid() && c.size <= nbytes == |x| <= total && Placed(p)
      && if slow then nbytes == c.size && sbuf[..] == x
         else
           && nbytes <= page.Length
           && if copy then Sub(page[..], 0, nbytes) == x
              else Addr(ins, inAt) + nbytes <= mem.Length && Sub(mem[..], Addr(ins, inAt), nbytes) == x
    }

    /** The cursors stand at byte p; a slow step has read its block already, the others lie within a piece. */
    ghost predicate Placed(p: nat)
      reads this
    {
      && At(outs, outAt, p)
      && if slow then At(ins, inAt, p + nbytes)
         else At(ins, inAt, p) && nbytes <= PageLen(ins, inAt) && nbytes <= PageLen(outs, outAt)
    }

    /** blkcipher_next_slow: the block is collected in a buffer. */
    method NextSlow(ghost p: nat)
      requires Valid() && c.size <= total && At(ins, inAt, p) && At(outs, outAt, p) && p + total <= Start(ins, |ins|)
      modifies this`nbytes, this`slow, this`inAt, sbuf
      ensures nbytes == c.size && Ready(p, Gather(mem[..], ins, p, c.size))
    {
      hide Gather, Sub, AddrOf, Separate;
      inAt := CopyChunksIn(sbuf, mem, ins, inAt, p, c.size);
      nbytes, slow := c.size, true;
    }

    /** blkcipher_next_copy: the chunk is copied to a page of its own. */
    method NextCopy(ghost p: nat, n: nat)
      requires Valid() && c.size <= n <= total && At(ins, inAt, p) && At(outs, outAt, p)
      requires n <= PageLen(ins, inAt) && n <= PageLen(outs, outAt) && !slow && copy && p + n <= Start(ins, |ins|)
      modifies this`nbytes, page
      ensures nbytes == n && Ready(p, Gather(mem[..], ins, p, n))
    {
      hide Gather, Sub, Splice, AddrOf, Separate;
      GatherHere(mem[..], ins, inAt, p, n);
      ghost var page0, x := page[..], Sub(mem[..], Addr(ins, inAt), n);
      Copy(page, 0, mem, Addr(ins, inAt), n);
      SpliceInside(page0, 0, x);
      nbytes := n;
    }

    /** blkcipher_next_fast: the chunk is used where it lies. */
    method NextFast(ghost p: nat, n: nat)
      requires Valid() && c.size <= n <= total && At(ins, inAt, p) && At(outs, outAt, p)
      requires n <= PageLen(ins, inAt) && n <= PageLen(outs, outAt) && !slow && !copy && p + n <= Start(ins, |ins|)
      modifies this`nbytes
      ensures nbytes == n && Ready(p, Gather(mem[..], ins, p, n))
    {
      hide Gather, Sub, AddrOf, Separate;
      GatherHere(mem[..], ins, inAt, p, n);
      nbytes := n;
    }

    /** blkcipher_walk_next: too little left, or the next chunk made ready. */
    method WalkNext(ghost t: Task, ghost p: nat, ghost out: Bytes) returns (err: Status)
      requires Done(t, p, out) && total > 0 && At(ins, inAt, p) && At(outs, outAt, p)
      modifies this`nbytes, this`total, this`slow, this`copy, this`inAt, sbuf, page
      ensures old(total) < c.size ==> err == BadLength && nbytes == 0 && total == 0
      ensures old(total) >= c.size ==>
                err == Ok && total == old(total) && Done(t, p, out) && p + nbytes <= |t.x0| && Ready(p, t.x0[p..p + nbytes])
    {
      hide Done, Ready, Crypt, Scatter, Gather, Sub, Splice, Chain, AddrOf, Separate;
      if total < c.size {
        total, nbytes := 0, 0;
        return BadLength;
      }
      DoneMeans(t, p, out);
      slow := false;
      copy := !aligned(Addr(ins, inAt)) || !aligned(Addr(outs, outAt));
      var n := Min(total, Min(PageLen(ins, inAt), PageLen(outs, outAt)));
      if n < c.size {
        NextSlow(p);
      } else if copy {
        NextCopy(p, n);
      } else {
        NextFast(p, n);
      }
      GatherFront(mem[..], ins, p, total, nbytes);
      FrontOfRest(t.x0, p, nbytes);
      err := Ok;
    }

    /** A source and a destination chunk at the same bytes are one and the same stretch, or disjoint. */
    lemma SameOrApart(p: nat, n: nat)
      requires Valid() && At(ins, inAt, p) && At(outs, outAt, p) && n <= PageLen(ins, inAt) && n <= PageLen(outs, outAt)
      ensures var a, b := Addr(ins, inAt), Addr(outs, outAt);
              && a + n <= mem.Length && b + n <= mem.Length && (a == b || a + n <= b || b + n <= a)
    {
      var a, b := Addr(ins, inAt), Addr(outs, outAt);
      if a < b < a + n {
        AddrHere(ins, inAt, p, b - a);
        AddrHere(outs, outAt, p, 0);
      } else if b < a < b + n {
        AddrHere(ins, inAt, p, 0);
        AddrHere(outs, outAt, p, a - b);
      }
    }

    /** The result of a step is where blkcipher_walk_done will look for it. */
    ghost predicate Stepped(y: Bytes, mem0: Bytes)
      reads this, mem, page, dbuf
    {
      && outAt.i < |outs|
      && if slow then dbuf[..] == y && mem[..] == mem0
         else if copy then |y| <= page.Length && Sub(page[..], 0, |y|) == y && mem[..] == mem0
         else Addr(outs, outAt) + |y| <= |mem0| && mem[..] == Splice(mem0, Addr(outs, outAt), y)
    }

    /** The bodies of the loops of crypto_cbc_encrypt and crypto_cbc_decrypt: in place when both addresses are the same. */
    method CryptStep(dir: Dir, ghost p: nat, ghost x: Bytes) returns (left: nat)
      requires Ready(p, x)
      modifies iv, mem, page, dbuf
      ensures var y := Crypt(dir, c, old(iv[..]), x);
              && c.size <= |y| && left == nbytes - |y| && (slow ==> left == 0)
              && iv[..] == Chain(dir, old(iv[..]), x, y) && Stepped(y, old(mem[..]))
    {
      hide Crypt, Chain, Sub, Splice, Separate, AddrOf;
      ghost var y := Crypt(dir, c, iv[..], x);
      CryptLength(dir, c, iv[..], x);
      if slow {
        SpliceAll(sbuf[..], sbuf[..]);
        ghost var d0 := dbuf[..];
        left := Segment(dir, c, sbuf, 0, dbuf, 0, nbytes, iv);
        SpliceAll(d0, y);
      } else if copy {
        ghost var p0 := page[..];
        left := Inplace(dir, c, page, 0, nbytes, iv);
        SpliceInside(p0, 0, y);
      } else {
        SameOrApart(p, nbytes);
        var a, b := Addr(ins, inAt), Addr(outs, outAt);
        if a == b {
          left := Inplace(dir, c, mem, a, nbytes, iv);
        } else {
          left := Segment(dir, c, mem, a, mem, b, nbytes, iv);
        }
      }
    }

    /** blkcipher_done_slow and blkcipher_done_fast, and the bookkeeping behind them. */
    method FinishStep(left: nat, ghost p: nat, ghost y: Bytes, ghost mem0: Bytes)
      requires Valid() && Placed(p) && Stepped(y, mem0) && |mem0| == mem.Length && left + |y| == nbytes <= total
      requires p + total <= Start(ins, |ins|) && p + total <= Start(outs, |outs|) && (slow ==> left == 0)
      modifies mem, this`inAt, this`outAt, this`total, this`nbytes
      ensures p + |y| <= Start(outs, |outs|) && mem[..] == Scatter(mem0, outs, p, y)
      ensures total == nbytes == old(total) - |y|
      ensures total > 0 ==> At(ins, inAt, p + |y|) && At(outs, outAt, p + |y|)
    {
      hide Sub, Splice, Scatter, Separate, AddrOf;
      var n := nbytes - left;
      if slow {
        outAt := CopyChunksOut(dbuf, mem, outs, outAt, p, n);
      } else {
        ScatterHere(mem0, outs, outAt, p, y);
        if copy {
          Copy(mem, Addr(outs, outAt), page, 0, n);
        }
        inAt, outAt := Cursor(inAt.i, inAt.off + n), Cursor(outAt.i, outAt.off + n);
      }
      total := total - n;
      nbytes := total;
      if total > 0 {
        inAt := PageDone(ins, inAt, p + |y|);
        outAt := PageDone(outs, outAt, p + |y|);
      }
    }

    /** The state when the walk is over: too little is left for a block. */
    ghost predicate Over(t: Task, p: nat, out: Bytes, err: Status)
      reads mem, iv
    {
      && Valid() && p <= |t.x0| < p + c.size && (err == Ok <==> p == |t.x0|)
      && Progress(c, ins, outs, t, p, out, mem[..], iv[..])
    }

    /** The walk goes on with the next chunk, or is over. */
    ghost predicate Going(t: Task, p: nat, out: Bytes, err: Status)
      reads this, mem, iv, page, sbuf
    {
      if nbytes > 0 then Done(t, p, out) && p + nbytes <= |t.x0| && Ready(p, t.x0[p..p + nbytes]) else Over(t, p, out, err)
    }

    /** The end of blkcipher_walk_first and of blkcipher_walk_done: go on if anything is left. */
    method GoOn(ghost t: Task, ghost p: nat, ghost out: Bytes) returns (err: Status)
      requires Done(t, p, out) && nbytes == total && (total > 0 ==> At(ins, inAt, p) && At(outs, outAt, p))
      modifies this`nbytes, this`total, this`slow, this`copy, this`inAt, sbuf, page
      ensures Going(t, p, out, err) && nbytes <= total <= old(total)
    {
      hide Progress, Separate, Sub;
      err := Ok;
      if total > 0 {
        err := WalkNext(t, p, out);
      }
    }

    /** One round of crypto_cbc_encrypt or crypto_cbc_decrypt: a step, and blkcipher_walk_done. */
    method Round(ghost t: Task, dir: Dir, ghost p: nat, ghost out: Bytes, ghost e: Status)
      returns (err: Status, ghost q: nat, ghost out': Bytes)
      requires Going(t, p, out, e) && nbytes > 0 && dir == t.dir
      modifies this, mem, iv, page, sbuf, dbuf
      ensures Going(t, q, out', err) && nbytes <= total && total < old(total)
    {
      hide Progress, Separate, Sub, Crypt, Chain, Scatter, Stepped, AddrOf;
      ghost var x, mem0, iv0 := t.x0[p..p + nbytes], mem[..], iv[..];
      ghost var y := Crypt(dir, c, iv0, x);
      var left := CryptStep(dir, p, x);
      q, out' := p + |y|, out + y;
      MoreProgress(c, ins, outs, t, p, out, mem0, iv0, nbytes, y, q);
      SizesOf(t, p, out, mem0, iv0);
      FinishStep(left, p, y, mem0);
      err := GoOn(t, q, out');
    }

    /** crypto_cbc_encrypt and crypto_cbc_decrypt: the destination becomes the result of CBC on the gathered source,
      * however both are cut up, and nothing else in memory changes. A ragged tail is left alone and reported. */
    method Process(dir: Dir, n: nat) returns (err: Status)
      requires Valid() && n <= Start(ins, |ins|) && n <= Start(outs, |outs|)
      modifies this, mem, iv, page, sbuf, dbuf
      ensures var x := Gather(old(mem[..]), ins, 0, n);
              var y := Crypt(dir, c, old(iv[..]), x);
              && |y| == n - n % c.size && mem[..] == Scatter(old(mem[..]), outs, 0, y)
              && iv[..] == Chain(dir, old(iv[..]), x, y)
              && (err == BadLength <==> n % c.size != 0)
    {
      hide Progress, Separate, Sub, Crypt, Chain, Scatter, Ready, Gather, AddrOf, Going, Done, Start, Within;
      ghost var t := Task(dir, iv[..], Gather(mem[..], ins, 0, n), mem[..]);
      ghost var p, out: Bytes := 0, [];
      err := WalkFirst(t, n);
      while nbytes > 0
        invariant Going(t, p, out, err) && nbytes <= total
        decreases total
      {
        err, p, out := Round(t, dir, p, out, err);
      }
      Ended(t, p, out, err);
    }

    lemma Ended(t: Task, p: nat, out: Bytes, err: Status)
      requires nbytes == 0 && Valid() && Going(t, p, out, err)
      ensures |t.iv0| == c.size && |t.mem0| == mem.Length && |t.x0| <= Start(outs, |outs|)
      ensures var y := Crypt(t.dir, c, t.iv0, t.x0);
              && |y| == |t.x0| - |t.x0| % c.size && mem[..] == Scatter(t.mem0, outs, 0, y)
              && iv[..] == Chain(t.dir, t.iv0, t.x0, y)
              && (err == BadLength <==> |t.x0| % c.size != 0)
    {
      SizesOf(t, p, out, mem[..], iv[..]);
      hide Crypt, Chain, Scatter, Gather, AddrOf;
      OverIsAll(c, ins, outs, t, p, out, mem[..], iv[..]);
    }

    /** blkcipher_walk_first. */
    method WalkFirst(ghost t: Task, n: nat) returns (err: Status)
      requires Valid() && n <= Start(ins, |ins|) && n <= Start(outs, |outs|)
      requires t.iv0 == iv[..] && t.x0 == Gather(mem[..], ins, 0, n) && t.mem0 == mem[..]
      modifies this, sbuf, page
      ensures Going(t, 0, [], err) && nbytes <= total
    {
      hide Progress, Separate, Sub, Crypt, Chain, Scatter, Ready, Gather, AddrOf;
      total, nbytes := n, n;
      inAt, outAt := Cursor(0, 0), Cursor(0, 0);
      NoProgressYet(c, ins, outs, t);
      err := GoOn(t, 0, []);
    }

    lemma SizesOf(t: Task, p: nat, out: Bytes, m: Bytes, v: Bytes)
      requires Valid() && |m| == mem.Length && Progress(c, ins, outs, t, p, out, m, v)
      ensures |t.x0| <= Start(ins, |ins|) && |t.x0| <= Start(outs, |outs|)
    {
    }

    lemma DoneMeans(t: Task, p: nat, out: Bytes)
      requires Done(t, p, out)
      ensures Valid() && p + total == |t.x0| <= Start(ins, |ins|) && Gather(mem[..], ins, p, total) == t.x0[p..]
    {
    }
  }

  lemma NoProgressYet(c: Cipher, ins: seq<Piece>, outs: seq<Piece>, t: Task)
    requires Good(c) && Within(ins, |t.mem0|) && Within(outs, |t.mem0|) && |t.iv0| == c.size
    requires |t.x0| <= Start(ins, |ins|) && |t.x0| <= Start(outs, |outs|) && t.x0 == Gather(t.mem0, ins, 0, |t.x0|)
    ensures Progress(c, ins, outs, t, 0, [], t.mem0, t.iv0)
  {
    hide Crypt, Gather, AddrOf;
    var none: Bytes := [];
    assert none + Crypt(t.dir, c, t.iv0, t.x0) == Crypt(t.dir, c, t.iv0, t.x0) && t.x0[0..] == t.x0;
    assert Scatter(t.mem0, outs, 0, none) == t.mem0;
  }

  lemma OverIsAll(c: Cipher, ins: seq<Piece>, outs: seq<Piece>, t: Task, p: nat, out: Bytes, mem: Bytes, iv: Bytes)
    requires Good(c) && Within(ins, |mem|) && Within(outs, |mem|)
    requires Progress(c, ins, outs, t, p, out, mem, iv) && |t.x0| < p + c.size
    ensures out == Crypt(t.dir, c, t.iv0, t.x0) && p == |t.x0| - |t.x0| % c.size
    ensures mem == Scatter(t.mem0, outs, 0, out) && iv == Chain(t.dir, t.iv0, t.x0, out)
  {
    hide Gather, Scatter, AddrOf, Next;
    CryptLength(t.dir, c, t.iv0, t.x0);
    TooShort(c, iv, t.x0[p..]);
    hide Encrypt, Decrypt;
    var none: Bytes := [];
    assert out + none == out;
    assert t.x0[..p][..|out|] == t.x0[..|out|];
  }

  /** Decrypting what encryption left in the destination, wherever both lie, gives back the whole blocks of the source. */
  lemma ScatteredRoundTrip(c: Cipher, ins: seq<Piece>, outs: seq<Piece>, iv: Bytes, mem: Bytes, n: nat)
    requires Good(c) && |iv| == c.size && Within(ins, |mem|) && Within(outs, |mem|) && Distinct(outs)
    requires n <= Start(ins, |ins|) && n <= Start(outs, |outs|)
    ensures var x := Gather(mem, ins, 0, n);
            var y := Encrypt(c, iv, x);
            Decrypt(c, iv, Gather(Scatter(mem, outs, 0, y), outs, 0, |y|)) == x[..|y|]
  {
    hide Encrypt, Decrypt, Gather, Scatter, Distinct, AddrOf;
    var x := Gather(mem, ins, 0, n);
    GatherScattered(mem, outs, 0, Encrypt(c, iv, x));
    DecryptUndoes(c, iv, x);
  }

  lemma FrontOfRest(x: Bytes, p: nat, n: nat)
    requires p + n <= |x|
    ensures x[p..][..n] == x[p..p + n]
  {
  }

  function Min(a: nat, b: nat): nat { if a < b then a else b }

  lemma GatherFront(mem: Bytes, ps: seq<Piece>, p: nat, n: nat, m: nat)
    requires Within(ps, |mem|) && p + n <= Start(ps, |ps|) && m <= n
    ensures Gather(mem, ps, p, n)[..m] == Gather(mem, ps, p, m)
  {
  }
}
