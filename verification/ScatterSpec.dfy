/** Data that lies scattered over pieces of memory, and a cursor that walks over it. */
module ScatterSpec {
  import opened CbcSpec
  import opened CbcSegments

  /** A stretch of memory within one page; toPageEnd says that it ends where the page does. */
  datatype Piece = Piece(addr: nat, len: nat, toPageEnd: bool)

  /** Position of a walk: piece i, off bytes into it; off may be the length of the piece. */
  datatype Cursor = Cursor(i: nat, off: nat)

  /** The number of bytes before piece i. */
  function Start(ps: seq<Piece>, i: nat): nat
    requires i <= |ps|
  {
    if i == 0 then 0 else Start(ps, i - 1) + ps[i - 1].len
  }

  predicate Within(ps: seq<Piece>, size: nat) {
    forall i :: 0 <= i < |ps| ==> ps[i].len > 0 && ps[i].addr + ps[i].len <= size
  }

  /** The piece that holds byte p. */
  function PieceOf(ps: seq<Piece>, p: nat, n: nat): (i: nat)
    requires n <= |ps| && p < Start(ps, n)
    ensures i < n && Start(ps, i) <= p < Start(ps, i) + ps[i].len
  {
    if p >= Start(ps, n - 1) then n - 1 else PieceOf(ps, p, n - 1)
  }

  /** Where byte p lies. */
  function AddrOf(ps: seq<Piece>, p: nat): nat
    requires p < Start(ps, |ps|)
  {
    var i := PieceOf(ps, p, |ps|);
    ps[i].addr + (p - Start(ps, i))
  }

  lemma {:induction false} StartGrows(ps: seq<Piece>, i: nat, j: nat)
    requires i < j <= |ps|
    ensures Start(ps, i) + ps[i].len <= Start(ps, j)
    decreases j
  {
    if i < j - 1 {
      StartGrows(ps, i, j - 1);
    }
  }

  lemma PieceIs(ps: seq<Piece>, i: nat, k: nat)
    requires i < |ps| && k < ps[i].len
    ensures Start(ps, i) + k < Start(ps, |ps|) && PieceOf(ps, Start(ps, i) + k, |ps|) == i
    ensures AddrOf(ps, Start(ps, i) + k) == ps[i].addr + k
  {
    StartGrows(ps, i, |ps|);
    var j := PieceOf(ps, Start(ps, i) + k, |ps|);
    if j < i {
      StartGrows(ps, j, i);
    } else if i < j {
      StartGrows(ps, i, j);
    }
  }

  lemma AddrWithin(ps: seq<Piece>, p: nat, size: nat)
    requires Within(ps, size) && p < Start(ps, |ps|)
    ensures AddrOf(ps, p) < size
  {
  }

  /** n bytes from byte p on. */
  function Gather(mem: Bytes, ps: seq<Piece>, p: nat, n: nat): (r: Bytes)
    requires Within(ps, |mem|) && p + n <= Start(ps, |ps|)
    ensures |r| == n
  {
    seq(n, k requires 0 <= k < n => AddrWithin(ps, p + k, |mem|); mem[AddrOf(ps, p + k)])
  }

  /** The memory with x written from byte p on. */
  function Scatter(mem: Bytes, ps: seq<Piece>, p: nat, x: Bytes): (r: Bytes)
    requires Within(ps, |mem|) && p + |x| <= Start(ps, |ps|)
    ensures |r| == |mem|
    decreases |x|
  {
    if x == [] then mem
    else
      var n := |x| - 1;
      AddrWithin(ps, p + n, |mem|);
      Scatter(mem, ps, p, x[..n])[AddrOf(ps, p + n) := x[n]]
  }

  lemma {:induction false} ScatterAppend(mem: Bytes, ps: seq<Piece>, p: nat, x: Bytes, y: Bytes, q: nat)
    requires Within(ps, |mem|) && q == p + |x| && q + |y| <= Start(ps, |ps|)
    ensures Scatter(Scatter(mem, ps, p, x), ps, q, y) == Scatter(mem, ps, p, x + y)
    decreases |y|
  {
    if y == [] {
      assert x + y == x;
    } else {
      var n := |y| - 1;
      ScatterAppend(mem, ps, p, x, y[..n], q);
      assert (x + y)[..|x| + n] == x + y[..n];
    }
  }

  /** Memory at other addresses stays. */
  lemma {:induction false} ScatterAway(mem: Bytes, ps: seq<Piece>, p: nat, x: Bytes, a: nat)
    requires Within(ps, |mem|) && p + |x| <= Start(ps, |ps|) && a < |mem|
    requires forall k :: p <= k < p + |x| ==> AddrOf(ps, k) != a
    ensures Scatter(mem, ps, p, x)[a] == mem[a]
    decreases |x|
  {
    if x != [] {
      ScatterAway(mem, ps, p, x[..|x| - 1], a);
    }
  }

  /** No two bytes lie at the same place. */
  predicate Distinct(ps: seq<Piece>) {
    forall p, q :: 0 <= p < q < Start(ps, |ps|) ==> AddrOf(ps, p) != AddrOf(ps, q)
  }

  /** What was scattered can be gathered again. */
  lemma {:induction false} GatherScattered(mem: Bytes, ps: seq<Piece>, p: nat, x: Bytes)
    requires Within(ps, |mem|) && Distinct(ps) && p + |x| <= Start(ps, |ps|)
    ensures Gather(Scatter(mem, ps, p, x), ps, p, |x|) == x
    decreases |x|
  {
    if x != [] {
      var n := |x| - 1;
      GatherScattered(mem, ps, p, x[..n]);
      var m := Scatter(mem, ps, p, x[..n]);
      var g, u := Gather(m, ps, p, n), Gather(Scatter(mem, ps, p, x), ps, p, |x|);
      forall k | 0 <= k < |x| ensures u[k] == x[k] {
        if k < n {
          assert g[k] == x[..n][k];
        }
      }
    }
  }

  // ---------- the part of a piece at a cursor ----------

  predicate At(ps: seq<Piece>, c: Cursor, p: nat) {
    c.i < |ps| && c.off <= ps[c.i].len && p == Start(ps, c.i) + c.off
  }

  /** scatterwalk_pagelen. */
  function PageLen(ps: seq<Piece>, c: Cursor): nat
    requires c.i < |ps| && c.off <= ps[c.i].len
  {
    ps[c.i].len - c.off
  }

  /** The address at a cursor. */
  function Addr(ps: seq<Piece>, c: Cursor): nat
    requires c.i < |ps|
  {
    ps[c.i].addr + c.off
  }

  lemma AddrHere(ps: seq<Piece>, c: Cursor, p: nat, k: nat)
    requires At(ps, c, p) && k < PageLen(ps, c)
    ensures p + k < Start(ps, |ps|) && AddrOf(ps, p + k) == Addr(ps, c) + k
  {
    PieceIs(ps, c.i, c.off + k);
  }

  lemma FitsHere(ps: seq<Piece>, c: Cursor, p: nat)
    requires At(ps, c, p)
    ensures p + PageLen(ps, c) <= Start(ps, |ps|)
  {
    StartGrows(ps, c.i, |ps|);
  }

  lemma InMemory(ps: seq<Piece>, c: Cursor, p: nat, size: nat)
    requires Within(ps, size) && At(ps, c, p)
    ensures Addr(ps, c) + PageLen(ps, c) <= size
  {
  }

  lemma GatherHere(mem: Bytes, ps: seq<Piece>, c: Cursor, p: nat, n: nat)
    requires Within(ps, |mem|) && At(ps, c, p) && n <= PageLen(ps, c)
    ensures p + n <= Start(ps, |ps|) && Addr(ps, c) + n <= |mem| && Gather(mem, ps, p, n) == Sub(mem, Addr(ps, c), n)
  {
    FitsHere(ps, c, p);
    if n > 0 {
      AddrHere(ps, c, p, n - 1);
    }
    var u, v := Gather(mem, ps, p, n), Sub(mem, Addr(ps, c), n);
    forall k | 0 <= k < n ensures u[k] == v[k] {
      AddrHere(ps, c, p, k);
    }
  }

  lemma {:induction false} ScatterHere(mem: Bytes, ps: seq<Piece>, c: Cursor, p: nat, x: Bytes)
    requires Within(ps, |mem|) && At(ps, c, p) && |x| <= PageLen(ps, c)
    ensures p + |x| <= Start(ps, |ps|) && Addr(ps, c) + |x| <= |mem| && Scatter(mem, ps, p, x) == Splice(mem, Addr(ps, c), x)
    decreases |x|
  {
    hide AddrOf, Addr, Within, Start, Splice;
    FitsHere(ps, c, p);
    InMemory(ps, c, p, |mem|);
    if x == [] {
      SpliceNothing(mem, Addr(ps, c));
    } else {
      var n := |x| - 1;
      ScatterHere(mem, ps, c, p, x[..n]);
      AddrHere(ps, c, p, n);
      SpliceOneMore(mem, Addr(ps, c), x);
    }
  }

  lemma SpliceOneMore(s: Bytes, i: nat, x: Bytes)
    requires i + |x| <= |s| && x != []
    ensures var n := |x| - 1; Splice(s, i, x[..n])[i + n := x[n]] == Splice(s, i, x)
  {
    SpliceAt(s, i, x);
    SpliceAt(s, i, x[..|x| - 1]);
    hide Splice;
    assert Splice(s, i, x[..|x| - 1])[i + |x| - 1 := x[|x| - 1]] == Splice(s, i, x);
  }
}
