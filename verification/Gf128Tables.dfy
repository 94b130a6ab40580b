/** Building the 4k and 64k tables and multiplying with them. */
module Gf128Tables {
  import opened Gf128
  import opened Gf128Product

  /** A table of 256 elements holds the products of all bytes and g. */
  ghost predicate Holds(f: Form, g: El, t: array<El>)
    reads t
  {
    t.Length == 256 && forall b :: 0 <= b < 256 ==> t[b] == Entry(f, g, b)
  }

  /** The entries of the single bits from lo up to hi are there, and that of zero. */
  ghost predicate HoldsBits(f: Form, g: El, t: array<El>, lo: nat, hi: nat)
    requires hi <= 8
    reads t
  {
    && t.Length == 256 && t[0] == ZERO
    && forall n :: lo <= n < hi ==> Pow2(n) < 256 && t[Pow2(n)] == XPow(f, Place(f, n), g)
  }

  lemma {:induction false} Pow2Grows(m: nat, n: nat)
    requires m < n
    ensures 0 < Pow2(m) < Pow2(n)
    decreases n
  {
    if n == m + 1 {
      Pow2Positive(m);
    } else {
      Pow2Grows(m, n - 1);
    }
  }

  lemma {:induction false} Pow2Positive(m: nat)
    ensures Pow2(m) > 0
  {
    if m > 0 {
      Pow2Positive(m - 1);
    }
  }

  lemma Pow2Of8()
    ensures Pow2(8) == 256 && Pow2(7) == 128 && Pow2(1) == 2 && Pow2(0) == 1
  {
    assert Pow2(4) == 2 * Pow2(3) == 4 * Pow2(2) == 8 * Pow2(1);
    assert Pow2(8) == 2 * Pow2(7) == 4 * Pow2(6) == 8 * Pow2(5) == 16 * Pow2(4);
  }

  /** An exponent below that of 256. */
  lemma ExponentBelow(m: nat)
    ensures Pow2(m) < 256 <==> m < 8
  {
    Pow2Of8();
    if m < 8 {
      Pow2Grows(m, 8);
    } else if m > 8 {
      Pow2Grows(8, m);
    }
  }

  /** The entries between the powers of two are sums of entries that are there already. */
  method FillSums(ghost f: Form, ghost g: El, t: array<El>)
    requires HoldsBits(f, g, t, 0, 8)
    modifies t
    ensures Holds(f, g, t)
  {
    hide Entry, XPow, Add;
    ghost var m := 1;
    var j := 2;
    Pow2Of8();
    EntryOfZero(f, g);
    EntryOfBit(f, g, 0);
    while j < 256
      invariant 1 <= m <= 8 && j == Pow2(m)
      invariant t.Length == 256 && forall b :: 0 <= b < j ==> t[b] == Entry(f, g, b)
      invariant forall n :: m <= n < 8 ==> Pow2(n) < 256 && t[Pow2(n)] == XPow(f, Place(f, n), g)
    {
      FillOne(f, g, t, j, m);
      j := j + j;
      m := m + 1;
      ExponentBelow(m);
      ExponentBelow(m - 1);
    }
    ExponentBelow(m);
  }

  method FillOne(ghost f: Form, ghost g: El, t: array<El>, j: nat, ghost m: nat)
    requires m < 8 && j == Pow2(m) && 2 <= j < 256 && t.Length == 256
    requires forall b :: 0 <= b < j ==> t[b] == Entry(f, g, b)
    requires forall n :: m <= n < 8 ==> Pow2(n) < 256 && t[Pow2(n)] == XPow(f, Place(f, n), g)
    modifies t
    ensures j + j <= 256 && forall b :: 0 <= b < j + j ==> t[b] == Entry(f, g, b)
    ensures forall n :: m < n < 8 ==> Pow2(n) < 256 && t[Pow2(n)] == XPow(f, Place(f, n), g)
  {
    hide Entry, XPow, Add;
    Pow2Of8();
    if m < 7 {
      Pow2Grows(m, 7);
    }
    EntryOfBit(f, g, m);
    ghost var t0 := t[..];
    var k := 1;
    while k < j
      invariant 1 <= k <= j
      invariant forall b :: 0 <= b < j + k ==> t[b] == Entry(f, g, b)
      invariant forall b :: j + k <= b < 256 ==> t[b] == t0[b]
    {
      EntryOfSum(f, g, m, k);
      t[j + k] := Add(t[j], t[k]);
      k := k + 1;
    }
    forall n | m < n < 8 ensures Pow2(n) < 256 && t[Pow2(n)] == XPow(f, Place(f, n), g) {
      assert t0[Pow2(n)] == XPow(f, Place(f, n), g);
      if n > m + 1 {
        Pow2Grows(m + 1, n);
      }
    }
  }

  /** One more bit, downwards: "t[j] = x * t[2j]". */
  method StepDown(g: El, t: array<El>, j: nat, ghost m: nat)
    requires m < 7 && j == Pow2(m) && HoldsBits(Lle, g, t, m + 1, 8)
    modifies t
    ensures HoldsBits(Lle, g, t, m, 8)
  {
    hide Entry, Add, X;
    ExponentBelow(m);
    ExponentBelow(m + 1);
    Pow2Positive(m);
    ghost var t0 := t[..];
    t[j] := X(Lle, t[j + j]);
    assert XPow(Lle, Place(Lle, m), g) == X(Lle, XPow(Lle, Place(Lle, m + 1), g));
    forall n | m < n < 8 ensures Pow2(n) < 256 && t[Pow2(n)] == XPow(Lle, Place(Lle, n), g) {
      assert t0[Pow2(n)] == XPow(Lle, Place(Lle, n), g);
      Pow2Grows(m, n);
    }
  }

  /** One more bit, upwards: "t[2j] = x * t[j]". */
  method StepUp(g: El, t: array<El>, j: nat, ghost m: nat)
    requires m < 7 && j == Pow2(m) && HoldsBits(Bbe, g, t, 0, m + 1)
    modifies t
    ensures HoldsBits(Bbe, g, t, 0, m + 2)
  {
    hide Entry, Add, X;
    ExponentBelow(m);
    ExponentBelow(m + 1);
    Pow2Positive(m);
    ghost var t0 := t[..];
    t[j + j] := X(Bbe, t[j]);
    assert XPow(Bbe, Place(Bbe, m + 1), g) == X(Bbe, XPow(Bbe, Place(Bbe, m), g));
    forall n | 0 <= n < m + 1 ensures Pow2(n) < 256 && t[Pow2(n)] == XPow(Bbe, Place(Bbe, n), g) {
      assert t0[Pow2(n)] == XPow(Bbe, Place(Bbe, n), g);
      Pow2Grows(n, m + 1);
    }
  }

  lemma Half(j: nat, m: nat)
    requires m > 0 && j == Pow2(m)
    ensures j / 2 == Pow2(m - 1) && j > 1
  {
    Pow2Positive(m - 1);
  }

  /** gf128mul_init_4k_lle. */
  method Init4kLle(g: El) returns (t: array<El>)
    ensures fresh(t) && Holds(Lle, g, t)
  {
    hide Entry, Add, X, Pow2, Holds;
    t := new El[256](_ => ZERO);
    Pow2Of8();
    t[128] := g;
    OneBit(Lle, g, t, 7);
    hide HoldsBits;
    ghost var m := 7;
    var j := 64;
    Half(128, 7);
    while j > 0
      invariant 0 <= m <= 7 && (if m == 0 then j == 0 else j == Pow2(m - 1))
      invariant HoldsBits(Lle, g, t, m, 8)
    {
      m := m - 1;
      StepDown(g, t, j, m);
      if m > 0 {
        Half(j, m);
      } else {
        Pow2Of8();
      }
      j := j / 2;
    }
    if m > 0 {
      Pow2Positive(m - 1);
    }
    FillSums(Lle, g, t);
  }

  lemma OneBit(f: Form, g: El, t: array<El>, m: nat)
    requires m == (if f.Lle? then 7 else 0) && t.Length == 256 && t[0] == ZERO && Pow2(m) < 256 && t[Pow2(m)] == g
    ensures HoldsBits(f, g, t, m, m + 1)
  {
  }

  /** gf128mul_init_4k_bbe. */
  method Init4kBbe(g: El) returns (t: array<El>)
    ensures fresh(t) && Holds(Bbe, g, t)
  {
    hide Entry, Add, X, Pow2, Holds;
    t := new El[256](_ => ZERO);
    Pow2Of8();
    t[1] := g;
    OneBit(Bbe, g, t, 0);
    hide HoldsBits;
    ghost var m := 0;
    var j := 1;
    while j <= 64
      invariant 0 <= m <= 7 && j == Pow2(m)
      invariant HoldsBits(Bbe, g, t, 0, m + 1)
      decreases 7 - m
    {
      BelowHalf(j, m);
      StepUp(g, t, j, m);
      j := j + j;
      m := m + 1;
      PowDouble(m);
    }
    AboveHalf(j, m);
    FillSums(Bbe, g, t);
  }

  lemma PowDouble(m: nat)
    requires m > 0
    ensures Pow2(m) == Pow2(m - 1) + Pow2(m - 1)
  {
  }

  lemma BelowHalf(j: nat, m: nat)
    requires j == Pow2(m) && j <= 64
    ensures m < 7
  {
    Pow2Of8();
    if m > 7 {
      Pow2Grows(7, m);
    }
  }

  lemma AboveHalf(j: nat, m: nat)
    requires j == Pow2(m) && j > 64 && m <= 7
    ensures m == 7
  {
    Pow2Of8();
    Half(128, 7);
    if m < 6 {
      Pow2Grows(m, 6);
    }
  }

  // ---------- multiplication with the 4k table ----------

  /** The product of the bytes from i on. */
  function Above(f: Form, bytes: seq<Byte>, i: nat, g: El): El
    requires i <= |bytes|
  {
    Product(f, Bits(f, bytes[i..]), g)
  }

  lemma AboveStep(f: Form, bytes: seq<Byte>, i: nat, g: El)
    requires i < |bytes|
    ensures Above(f, bytes, i, g) == Add(X8(f, Above(f, bytes, i + 1, g)), Entry(f, g, bytes[i]))
  {
    hide X8, Add, Entry, Product, Bits;
    assert bytes[i..][1..] == bytes[i + 1..];
    LowByte(f, bytes[i..], g);
    AddComm(X8(f, Above(f, bytes, i + 1, g)), Entry(f, g, bytes[i]));
  }

  lemma AboveLast(f: Form, bytes: seq<Byte>, g: El)
    requires bytes != []
    ensures Above(f, bytes, |bytes| - 1, g) == Entry(f, g, bytes[|bytes| - 1])
  {
    hide X, Add, Entry;
    var i := |bytes| - 1;
    assert bytes[i..] == [bytes[i]];
    assert Bits(f, [bytes[i]]) == ByteBits(f, bytes[i]) + Bits(f, []) == ByteBits(f, bytes[i]);
    EntryDef(f, g, bytes[i]);
  }

  lemma EntryDef(f: Form, g: El, b: nat)
    ensures Entry(f, g, b) == Product(f, ByteBits(f, b), g)
  {
  }

  /** gf128mul_4k_lle: from the last byte to the first. */
  method Mul4kLle(ap: seq<Byte>, t: array<El>, ghost g: El) returns (r: El)
    requires |ap| == 16 && Holds(Lle, g, t)
    ensures r == Multiply(Lle, ap, g)
  {
    hide X8, Add, Entry, Above, Product, Bits;
    ghost var bytes := Ascending(Lle, ap);
    var i := 15;
    r := t[ap[15]];
    AboveLast(Lle, bytes, g);
    while i > 0
      invariant 0 <= i <= 15 && r == Above(Lle, bytes, i, g)
    {
      i := i - 1;
      AboveStep(Lle, bytes, i, g);
      r := X8(Lle, r);
      r := Add(r, t[ap[i]]);
    }
    AboveAll(Lle, bytes, g);
  }

  /** gf128mul_4k_bbe: from the first byte to the last. */
  method Mul4kBbe(ap: seq<Byte>, t: array<El>, ghost g: El) returns (r: El)
    requires |ap| == 16 && Holds(Bbe, g, t)
    ensures r == Multiply(Bbe, ap, g)
  {
    hide X8, Add, Entry, Above, Product, Bits;
    ghost var bytes := Ascending(Bbe, ap);
    var i := 0;
    r := t[ap[0]];
    AboveLast(Bbe, bytes, g);
    while i < 15
      invariant 0 <= i <= 15 && r == Above(Bbe, bytes, 15 - i, g)
    {
      i := i + 1;
      AboveStep(Bbe, bytes, 15 - i, g);
      r := X8(Bbe, r);
      r := Add(r, t[ap[i]]);
    }
    AboveAll(Bbe, bytes, g);
  }

  lemma AboveAll(f: Form, bytes: seq<Byte>, g: El)
    ensures Above(f, bytes, 0, g) == Product(f, Bits(f, bytes), g)
  {
    assert bytes[0..] == bytes;
  }

  // ---------- the 64k table: one row for each byte ----------

  /** g times x^(8i), as the rows step it. */
  function Shifted(f: Form, i: nat, g: El): El {
    if i == 0 then g else X8(f, Shifted(f, i - 1, g))
  }

  lemma X8Inside(f: Form, n: nat, e: El)
    ensures XPow(f, n, X8(f, e)) == X8(f, XPow(f, n, e))
  {
    hide X, X8, XPow;
    X8IsPow(f, e);
    X8IsPow(f, XPow(f, n, e));
    XPowAdds(f, n, 8, e);
    XPowAdds(f, 8, n, e);
  }

  /** The powers of two of the next table are those of this one times x^8, from 128 down. */
  method NextRow(f: Form, ghost h: El, prev: array<El>) returns (row: array<El>)
    requires Holds(f, h, prev)
    ensures fresh(row) && Holds(f, X8(f, h), row)
  {
    hide Entry, Add, X, X8, Pow2, Holds, XPow;
    row := new El[256](_ => ZERO);
    ghost var m := 8;
    var j := 128;
    Pow2Of8();
    NoBits(f, X8(f, h), row);
    hide HoldsBits;
    while j > 0
      invariant 0 <= m <= 8 && (if m == 0 then j == 0 else j == Pow2(m - 1))
      invariant HoldsBits(f, X8(f, h), row, m, 8)
    {
      m := m - 1;
      RowBit(f, h, prev, row, j, m);
      if m > 0 {
        Half(j, m);
      } else {
        Pow2Of8();
      }
      j := j / 2;
    }
    if m > 0 {
      Pow2Positive(m - 1);
    }
    FillSums(f, X8(f, h), row);
  }

  lemma NoBits(f: Form, g: El, t: array<El>)
    requires t.Length == 256 && t[0] == ZERO
    ensures HoldsBits(f, g, t, 8, 8)
  {
  }

  method RowBit(f: Form, ghost h: El, prev: array<El>, row: array<El>, j: nat, ghost m: nat)
    requires m < 8 && j == Pow2(m) && prev != row && Holds(f, h, prev) && HoldsBits(f, X8(f, h), row, m + 1, 8)
    modifies row
    ensures HoldsBits(f, X8(f, h), row, m, 8)
  {
    hide Entry, Add, X, X8, XPow;
    ExponentBelow(m);
    Pow2Positive(m);
    EntryOfBit(f, h, m);
    X8Inside(f, Place(f, m), h);
    ghost var t0 := row[..];
    row[j] := prev[j];
    row[j] := X8(f, row[j]);
    forall n | m < n < 8 ensures Pow2(n) < 256 && row[Pow2(n)] == XPow(f, Place(f, n), X8(f, h)) {
      assert t0[Pow2(n)] == XPow(f, Place(f, n), X8(f, h));
      Pow2Grows(m, n);
    }
  }

  /** A 64k table: row i holds the products of all bytes and g times x^(8i). */
  ghost predicate Rows(f: Form, g: El, t: seq<array<El>>)
    reads t
  {
    forall i :: 0 <= i < |t| ==> Holds(f, Shifted(f, i, g), t[i])
  }

  /** gf128mul_init_64k_lle. */
  method Init64kLle(g: El) returns (t: seq<array<El>>)
    ensures |t| == 16 && Rows(Lle, g, t)
  {
    hide Holds, X8;
    var row := Init4kLle(g);
    t := [row];
    while |t| < 16
      invariant 1 <= |t| <= 16 && Rows(Lle, g, t)
      invariant forall i :: 0 <= i < |t| ==> fresh(t[i])
    {
      row := NextRow(Lle, Shifted(Lle, |t| - 1, g), t[|t| - 1]);
      t := t + [row];
    }
  }

  /** gf128mul_init_64k_bbe. */
  method Init64kBbe(g: El) returns (t: seq<array<El>>)
    ensures |t| == 16 && Rows(Bbe, g, t)
  {
    hide Holds, X8;
    var row := Init4kBbe(g);
    t := [row];
    while |t| < 16
      invariant 1 <= |t| <= 16 && Rows(Bbe, g, t)
      invariant forall i :: 0 <= i < |t| ==> fresh(t[i])
    {
      row := NextRow(Bbe, Shifted(Bbe, |t| - 1, g), t[|t| - 1]);
      t := t + [row];
    }
  }

  /** What the bytes from i on contribute. */
  function Rest(f: Form, bytes: seq<Byte>, i: nat, g: El): El
    requires i <= |bytes|
  {
    Product(f, Bits(f, bytes[i..]), Shifted(f, i, g))
  }

  lemma RestStep(f: Form, bytes: seq<Byte>, i: nat, g: El)
    requires i < |bytes|
    ensures Rest(f, bytes, i, g) == Add(Entry(f, Shifted(f, i, g), bytes[i]), Rest(f, bytes, i + 1, g))
  {
    hide X, X8, Add, Entry, Product, Bits, XPow;
    assert bytes[i..][1..] == bytes[i + 1..];
    LowByte(f, bytes[i..], Shifted(f, i, g));
    X8IsPow(f, Shifted(f, i, g));
  }

  lemma RestEnds(f: Form, bytes: seq<Byte>, g: El)
    ensures Rest(f, bytes, |bytes|, g) == ZERO && Rest(f, bytes, 0, g) == Product(f, Bits(f, bytes), g)
  {
    assert bytes[|bytes|..] == [] && bytes[0..] == bytes;
  }

  /** gf128mul_64k_lle and gf128mul_64k_bbe: one entry of each row. */
  method Mul64k(f: Form, ap: seq<Byte>, t: seq<array<El>>, ghost g: El) returns (r: El)
    requires |ap| == 16 && |t| == 16 && Rows(f, g, t)
    ensures r == Multiply(f, ap, g)
  {
    hide X8, Add, Entry, Rest, Product, Bits, Shifted;
    ghost var bytes := Ascending(f, ap);
    RestEnds(f, bytes, g);
    RestStep(f, bytes, 0, g);
    var i := 1;
    assert Holds(f, Shifted(f, 0, g), t[0]);
    r := t[0][if f.Lle? then ap[0] else ap[15]];
    while i < 16
      invariant 1 <= i <= 16 && Add(r, Rest(f, bytes, i, g)) == Multiply(f, ap, g)
    {
      RestStep(f, bytes, i, g);
      assert Holds(f, Shifted(f, i, g), t[i]);
      var e := t[i][if f.Lle? then ap[i] else ap[15 - i]];
      AddAssoc(r, e, Rest(f, bytes, i + 1, g));
      r := Add(r, e);
      i := i + 1;
    }
    AddComm(r, ZERO);
  }
}
