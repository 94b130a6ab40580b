/** The product of a field element by a polynomial given bit by bit, and the laws that tables rest on. */
module Gf128Product {
  import opened Gf128

  function Times(c: bool, e: El): El { if c then e else ZERO }

  /** Multiplication of blocks, section 6.3 of NIST SP 800-38D: V runs through g, g*x, g*x^2, ... and is added into Z where
    * the bit is set. */
  function Product(f: Form, bits: seq<bool>, g: El): El {
    if bits == [] then ZERO else Add(Times(bits[0], g), Product(f, bits[1..], X(f, g)))
  }

  function XPow(f: Form, n: nat, e: El): El {
    if n == 0 then e else X(f, XPow(f, n - 1, e))
  }

  lemma {:induction false} XPowInside(f: Form, n: nat, e: El)
    ensures XPow(f, n, X(f, e)) == X(f, XPow(f, n, e))
  {
    hide X;
    if n > 0 {
      XPowInside(f, n - 1, e);
    }
  }

  lemma {:induction false} XPowAdds(f: Form, m: nat, n: nat, e: El)
    ensures XPow(f, m + n, e) == XPow(f, m, XPow(f, n, e))
  {
    hide X;
    if m > 0 {
      XPowAdds(f, m - 1, n, e);
    }
  }

  lemma X8IsPow(f: Form, e: El)
    ensures X8(f, e) == XPow(f, 8, e)
  {
    X8IsEightX(f, e);
    hide X, X8;
    XPowAdds(f, 4, 4, e);
    FourPow(f, e);
    FourPow(f, XPow(f, 4, e));
  }

  lemma FourPow(f: Form, e: El)
    ensures XPow(f, 4, e) == X(f, X(f, X(f, X(f, e))))
  {
    hide X;
    assert XPow(f, 3, e) == X(f, XPow(f, 2, e));
    assert XPow(f, 2, e) == X(f, XPow(f, 1, e));
  }

  lemma {:induction false} XPowLinear(f: Form, n: nat, u: El, v: El)
    ensures XPow(f, n, Add(u, v)) == Add(XPow(f, n, u), XPow(f, n, v)) && XPow(f, n, ZERO) == ZERO
  {
    hide X, Add;
    if n > 0 {
      XPowLinear(f, n - 1, u, v);
      XLinear(f, XPow(f, n - 1, u), XPow(f, n - 1, v));
      XOfZero(f);
    }
  }

  /** A power of x may be taken in or out of either factor. */
  lemma {:induction false} ProductOfPow(f: Form, bits: seq<bool>, n: nat, g: El)
    ensures Product(f, bits, XPow(f, n, g)) == XPow(f, n, Product(f, bits, g))
  {
    hide X, Add;
    XPowLinear(f, n, ZERO, ZERO);
    if bits != [] {
      ProductOfPow(f, bits[1..], n, X(f, g));
      XPowInside(f, n, g);
      XPowLinear(f, n, Times(bits[0], g), Product(f, bits[1..], X(f, g)));
    }
  }

  lemma {:induction false} ProductAppend(f: Form, a: seq<bool>, b: seq<bool>, g: El)
    ensures Product(f, a + b, g) == Add(Product(f, a, g), Product(f, b, XPow(f, |a|, g)))
  {
    hide X, Add;
    if a == [] {
      assert a + b == b;
      AddComm(Product(f, b, g), ZERO);
      AddComm(ZERO, Product(f, b, g));
    } else {
      assert (a + b)[1..] == a[1..] + b;
      ProductAppend(f, a[1..], b, X(f, g));
      XPowInside(f, |a| - 1, g);
      AddAssoc(Times(a[0], g), Product(f, a[1..], X(f, g)), Product(f, b, XPow(f, |a|, g)));
    }
  }

  /** Bits that are nowhere set together may be multiplied apart. */
  lemma {:induction false} ProductSplit(f: Form, a: seq<bool>, b: seq<bool>, c: seq<bool>, g: El)
    requires |a| == |b| == |c|
    requires forall i :: 0 <= i < |a| ==> !(a[i] && b[i]) && (c[i] <==> a[i] || b[i])
    ensures Product(f, c, g) == Add(Product(f, a, g), Product(f, b, g))
  {
    hide X, Add;
    if c == [] {
      AddComm(ZERO, ZERO);
    } else {
      ProductSplit(f, a[1..], b[1..], c[1..], X(f, g));
      var p, q, u, v := Times(a[0], g), Times(b[0], g), Product(f, a[1..], X(f, g)), Product(f, b[1..], X(f, g));
      Interchange(p, q, u, v);
      AddComm(g, ZERO);
      AddComm(ZERO, g);
      AddComm(ZERO, ZERO);
      assert Times(c[0], g) == Add(p, q);
    }
  }

  lemma Interchange(p: El, q: El, u: El, v: El)
    ensures Add(Add(p, q), Add(u, v)) == Add(Add(p, u), Add(q, v))
  {
    hide Add;
    AddAssoc(p, q, Add(u, v));
    AddAssoc(q, u, v);
    AddComm(q, u);
    AddAssoc(u, q, v);
    AddAssoc(p, u, Add(q, v));
  }

  // ---------- single bits ----------

  function Unit(n: nat, c: nat): (r: seq<bool>)
    ensures |r| == n
    ensures forall i :: 0 <= i < n ==> (r[i] <==> i == c)
  {
    seq(n, i => i == c)
  }

  lemma {:induction false} ProductOfNothing(f: Form, bits: seq<bool>, g: El)
    requires forall i :: 0 <= i < |bits| ==> !bits[i]
    ensures Product(f, bits, g) == ZERO
  {
    hide X, Add;
    if bits != [] {
      ProductOfNothing(f, bits[1..], X(f, g));
      AddComm(ZERO, ZERO);
    }
  }

  lemma {:induction false} ProductOfUnit(f: Form, n: nat, c: nat, g: El)
    requires c < n
    ensures Product(f, Unit(n, c), g) == XPow(f, c, g)
  {
    hide X, Add;
    var u := Unit(n, c);
    if c == 0 {
      ProductOfNothing(f, u[1..], X(f, g));
      AddComm(g, ZERO);
    } else {
      assert u[1..] == Unit(n - 1, c - 1);
      ProductOfUnit(f, n - 1, c - 1, X(f, g));
      XPowInside(f, c - 1, g);
      AddComm(XPow(f, c, g), ZERO);
      AddComm(ZERO, XPow(f, c, g));
    }
  }

  // ---------- the bits of a byte ----------

  type Byte = b: nat | b < 256

  function Pow2(m: nat): nat { if m == 0 then 1 else 2 * Pow2(m - 1) }

  /** Bit m of a number. */
  function Bit(b: nat, m: nat): bool {
    if m == 0 then b % 2 == 1 else Bit(b / 2, m - 1)
  }

  /** The bits of a byte in the order of the powers of x. */
  function ByteBits(f: Form, b: nat): (r: seq<bool>)
    ensures |r| == 8
    ensures forall i :: 0 <= i < 8 ==> r[i] == Bit(b, if f.Lle? then 7 - i else i)
  {
    seq(8, i requires 0 <= i < 8 => Bit(b, if f.Lle? then 7 - i else i))
  }

  lemma {:induction false} BitOfPow(m: nat, i: nat)
    ensures Bit(Pow2(m), i) <==> i == m
    ensures Bit(0, i) == false
    decreases m + i
  {
    if i > 0 {
      if m > 0 {
        BitOfPow(m - 1, i - 1);
      } else {
        BitOfPow(0, i - 1);
      }
    }
  }

  /** Below its highest bit a number has the bits of the rest. */
  lemma {:induction false} BitOfSum(m: nat, k: nat, i: nat)
    requires k < Pow2(m)
    ensures Bit(Pow2(m) + k, i) <==> i == m || Bit(k, i)
    ensures Bit(k, i) ==> i < m
    decreases m
  {
    if m == 0 {
      BitOfPow(0, i);
    } else if i > 0 {
      assert (Pow2(m) + k) / 2 == Pow2(m - 1) + k / 2;
      BitOfSum(m - 1, k / 2, i - 1);
    }
  }

  // ---------- table entries ----------

  /** The product of a byte and g: what a table holds at b. */
  function Entry(f: Form, g: El, b: nat): El {
    Product(f, ByteBits(f, b), g)
  }

  /** The power of x that bit m of a byte stands for. */
  function Place(f: Form, m: nat): nat
    requires m < 8
  {
    if f.Lle? then 7 - m else m
  }

  lemma EntryOfBit(f: Form, g: El, m: nat)
    requires m < 8
    ensures Entry(f, g, Pow2(m)) == XPow(f, Place(f, m), g)
  {
    hide X, Add, XPow, Product;
    var u, r := Unit(8, Place(f, m)), ByteBits(f, Pow2(m));
    forall i | 0 <= i < 8 ensures r[i] == u[i] {
      BitOfPow(m, if f.Lle? then 7 - i else i);
    }
    assert r == u;
    ProductOfUnit(f, 8, Place(f, m), g);
  }

  lemma EntryOfZero(f: Form, g: El)
    ensures Entry(f, g, 0) == ZERO
  {
    hide Product;
    var r := ByteBits(f, 0);
    forall i | 0 <= i < 8 ensures !r[i] {
      BitOfPow(0, if f.Lle? then 7 - i else i);
    }
    ProductOfNothing(f, r, g);
  }

  /** Entries are linear: the highest bit apart from the rest. */
  lemma EntryOfSum(f: Form, g: El, m: nat, k: nat)
    requires m < 8 && k < Pow2(m)
    ensures Entry(f, g, Pow2(m) + k) == Add(Entry(f, g, Pow2(m)), Entry(f, g, k))
  {
    hide X, Add, Product;
    var a, b, c := ByteBits(f, Pow2(m)), ByteBits(f, k), ByteBits(f, Pow2(m) + k);
    forall i | 0 <= i < 8 ensures !(a[i] && b[i]) && (c[i] <==> a[i] || b[i]) {
      var j := if f.Lle? then 7 - i else i;
      BitOfPow(m, j);
      BitOfSum(m, k, j);
    }
    ProductSplit(f, a, b, c, g);
  }

  // ---------- several bytes ----------

  /** The bits of several bytes, lowest powers first. */
  function Bits(f: Form, bytes: seq<Byte>): seq<bool> {
    if bytes == [] then [] else ByteBits(f, bytes[0]) + Bits(f, bytes[1..])
  }

  /** The bytes of memory by ascending powers of x. */
  function Ascending(f: Form, ap: seq<Byte>): (r: seq<Byte>)
    ensures |r| == |ap|
    ensures forall i :: 0 <= i < |ap| ==> r[i] == if f.Lle? then ap[i] else ap[|ap| - 1 - i]
  {
    seq(|ap|, i requires 0 <= i < |ap| => if f.Lle? then ap[i] else ap[|ap| - 1 - i])
  }

  /** The product of the element in memory and g. */
  function Multiply(f: Form, ap: seq<Byte>, g: El): El {
    Product(f, Bits(f, Ascending(f, ap)), g)
  }

  /** One byte split off at the low end. */
  lemma LowByte(f: Form, bytes: seq<Byte>, g: El)
    requires bytes != []
    ensures Product(f, Bits(f, bytes), g) == Add(Entry(f, g, bytes[0]), Product(f, Bits(f, bytes[1..]), XPow(f, 8, g)))
    ensures Product(f, Bits(f, bytes[1..]), XPow(f, 8, g)) == X8(f, Product(f, Bits(f, bytes[1..]), g))
  {
    hide X, X8, Add, XPow, Product;
    ProductAppend(f, ByteBits(f, bytes[0]), Bits(f, bytes[1..]), g);
    ProductOfPow(f, Bits(f, bytes[1..]), 8, g);
    X8IsPow(f, Product(f, Bits(f, bytes[1..]), g));
  }
}
