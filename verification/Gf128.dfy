/** Elements of GF(2^128) as the source keeps them, and multiplication by x and by x^8. */
module Gf128 {
  /** A be128 in processor order: a holds the first eight bytes of memory, b the others. */
  datatype El = El(a: bv64, b: bv64)

  /** How coefficients are laid out: lle from the most significant bit of the first byte on, bbe from the least
    * significant bit of the last. */
  datatype Form = Lle | Bbe

  const ZERO := El(0, 0)

  function Xor(p: bv64, q: bv64): bv64 { p ^ q }

  /** be128_xor, the sum of the field. */
  function Add(u: El, v: El): El { El(Xor(u.a, v.a), Xor(u.b, v.b)) }

  // ---------- multiplication by x ----------

  /** One entry of gf128mul_table_lle. */
  function TableLle(i: bv64): bv64 {
    (if i & 0x80 != 0 then 0xe100 else 0) ^ (if i & 0x40 != 0 then 0x7080 else 0) ^
    (if i & 0x20 != 0 then 0x3840 else 0) ^ (if i & 0x10 != 0 then 0x1c20 else 0) ^
    (if i & 0x08 != 0 then 0x0e10 else 0) ^ (if i & 0x04 != 0 then 0x0708 else 0) ^
    (if i & 0x02 != 0 then 0x0384 else 0) ^ (if i & 0x01 != 0 then 0x01c2 else 0)
  }

  /** One entry of gf128mul_table_bbe. */
  function TableBbe(i: bv64): bv64 {
    (if i & 0x80 != 0 then 0x4380 else 0) ^ (if i & 0x40 != 0 then 0x21c0 else 0) ^
    (if i & 0x20 != 0 then 0x10e0 else 0) ^ (if i & 0x10 != 0 then 0x0870 else 0) ^
    (if i & 0x08 != 0 then 0x0438 else 0) ^ (if i & 0x04 != 0 then 0x021c else 0) ^
    (if i & 0x02 != 0 then 0x010e else 0) ^ (if i & 0x01 != 0 then 0x0087 else 0)
  }

  // The two words of the results, by the expressions of the source.

  function XLleA(a: bv64, b: bv64): bv64 { (a >> 1) ^ (TableLle((b << 7) & 0xff) << 48) }

  function X8LleA(a: bv64, b: bv64): bv64 { (a >> 8) ^ (TableLle(b & 0xff) << 48) }

  function XBbeB(a: bv64, b: bv64): bv64 { (b << 1) ^ TableBbe(a >> 63) }

  function X8BbeB(a: bv64, b: bv64): bv64 { (b << 8) ^ TableBbe(a >> 56) }

  function XLle(e: El): El { El(XLleA(e.a, e.b), LleLow1(e.a, e.b)) }

  function X8Lle(e: El): El { El(X8LleA(e.a, e.b), LleLow8(e.a, e.b)) }

  function XBbe(e: El): El { El(BbeHigh1(e.a, e.b), XBbeB(e.a, e.b)) }

  function X8Bbe(e: El): El { El(BbeHigh8(e.a, e.b), X8BbeB(e.a, e.b)) }

  /** gf128mul_x_lle and gf128mul_x_bbe. */
  function X(f: Form, e: El): El {
    if f.Lle? then XLle(e) else XBbe(e)
  }

  /** gf128mul_x8_lle and gf128mul_x8_bbe. */
  function X8(f: Form, e: El): El {
    if f.Lle? then X8Lle(e) else X8Bbe(e)
  }

  // ---------- the same without branches: by x, x^2, x^4 and x^8 ----------
  // The bits b that leave the element come back as b times 1 + x + x^2 + x^7.

  function LleHigh1(a: bv64, b: bv64): bv64 { (a >> 1) ^ (b << 63) ^ ((b << 63) >> 1) ^ ((b << 63) >> 2) ^ ((b << 63) >> 7) }

  function LleLow1(a: bv64, b: bv64): bv64 { (b >> 1) | (a << 63) }

  function LleHigh2(a: bv64, b: bv64): bv64 { (a >> 2) ^ (b << 62) ^ ((b << 62) >> 1) ^ ((b << 62) >> 2) ^ ((b << 62) >> 7) }

  function LleLow2(a: bv64, b: bv64): bv64 { (b >> 2) | (a << 62) }

  function LleHigh4(a: bv64, b: bv64): bv64 { (a >> 4) ^ (b << 60) ^ ((b << 60) >> 1) ^ ((b << 60) >> 2) ^ ((b << 60) >> 7) }

  function LleLow4(a: bv64, b: bv64): bv64 { (b >> 4) | (a << 60) }

  function LleHigh8(a: bv64, b: bv64): bv64 { (a >> 8) ^ (b << 56) ^ ((b << 56) >> 1) ^ ((b << 56) >> 2) ^ ((b << 56) >> 7) }

  function LleLow8(a: bv64, b: bv64): bv64 { (b >> 8) | (a << 56) }

  function BbeHigh1(a: bv64, b: bv64): bv64 { (a << 1) | (b >> 63) }

  function BbeLow1(a: bv64, b: bv64): bv64 { (b << 1) ^ (a >> 63) ^ ((a >> 63) << 1) ^ ((a >> 63) << 2) ^ ((a >> 63) << 7) }

  function BbeHigh2(a: bv64, b: bv64): bv64 { (a << 2) | (b >> 62) }

  function BbeLow2(a: bv64, b: bv64): bv64 { (b << 2) ^ (a >> 62) ^ ((a >> 62) << 1) ^ ((a >> 62) << 2) ^ ((a >> 62) << 7) }

  function BbeHigh4(a: bv64, b: bv64): bv64 { (a << 4) | (b >> 60) }

  function BbeLow4(a: bv64, b: bv64): bv64 { (b << 4) ^ (a >> 60) ^ ((a >> 60) << 1) ^ ((a >> 60) << 2) ^ ((a >> 60) << 7) }

  function BbeHigh8(a: bv64, b: bv64): bv64 { (a << 8) | (b >> 56) }

  function BbeLow8(a: bv64, b: bv64): bv64 { (b << 8) ^ (a >> 56) ^ ((a >> 56) << 1) ^ ((a >> 56) << 2) ^ ((a >> 56) << 7) }

  lemma Lle2(a: bv64, b: bv64)
    ensures LleHigh2(a, b) == LleHigh1(LleHigh1(a, b), LleLow1(a, b))
    ensures LleLow2(a, b) == LleLow1(LleHigh1(a, b), LleLow1(a, b))
  {
  }

  lemma Lle4(a: bv64, b: bv64)
    ensures LleHigh4(a, b) == LleHigh2(LleHigh2(a, b), LleLow2(a, b))
    ensures LleLow4(a, b) == LleLow2(LleHigh2(a, b), LleLow2(a, b))
  {
  }

  lemma Lle8(a: bv64, b: bv64)
    ensures LleHigh8(a, b) == LleHigh4(LleHigh4(a, b), LleLow4(a, b))
    ensures LleLow8(a, b) == LleLow4(LleHigh4(a, b), LleLow4(a, b))
  {
  }

  lemma Bbe2(a: bv64, b: bv64)
    ensures BbeHigh2(a, b) == BbeHigh1(BbeHigh1(a, b), BbeLow1(a, b))
    ensures BbeLow2(a, b) == BbeLow1(BbeHigh1(a, b), BbeLow1(a, b))
  {
  }

  lemma Bbe4(a: bv64, b: bv64)
    ensures BbeHigh4(a, b) == BbeHigh2(BbeHigh2(a, b), BbeLow2(a, b))
    ensures BbeLow4(a, b) == BbeLow2(BbeHigh2(a, b), BbeLow2(a, b))
  {
  }

  lemma Bbe8(a: bv64, b: bv64)
    ensures BbeHigh8(a, b) == BbeHigh4(BbeHigh4(a, b), BbeLow4(a, b))
    ensures BbeLow8(a, b) == BbeLow4(BbeHigh4(a, b), BbeLow4(a, b))
  {
  }

  lemma TablesLle(a: bv64, b: bv64)
    ensures X8LleA(a, b) == LleHigh8(a, b) && XLleA(a, b) == LleHigh1(a, b)
  {
  }

  lemma RawTablesBbe(a: bv64, b: bv64)
    ensures (b << 8) ^ TableBbe(a >> 56) == BbeLow8(a, b)
    ensures (b << 1) ^ TableBbe(a >> 63) == BbeLow1(a, b)
  {
  }

  lemma WordsBbe(a: bv64, b: bv64)
    ensures X8BbeB(a, b) == (b << 8) ^ TableBbe(a >> 56) && XBbeB(a, b) == (b << 1) ^ TableBbe(a >> 63)
  {
    hide TableBbe;
  }

  lemma TablesBbe(a: bv64, b: bv64)
    ensures X8BbeB(a, b) == BbeLow8(a, b) && XBbeB(a, b) == BbeLow1(a, b)
  {
    hide X8BbeB, BbeLow8, XBbeB, BbeLow1, TableBbe;
    WordsBbe(a, b);
    RawTablesBbe(a, b);
  }

  lemma LleOneStep(e: El)
    ensures XLle(e) == El(LleHigh1(e.a, e.b), LleLow1(e.a, e.b))
    ensures X8Lle(e) == El(LleHigh8(e.a, e.b), LleLow8(e.a, e.b))
  {
    hide XLleA, X8LleA, LleHigh1, LleHigh8, LleLow1, LleLow8;
    TablesLle(e.a, e.b);
  }

  lemma BbeOneStep(e: El)
    ensures XBbe(e) == El(BbeHigh1(e.a, e.b), BbeLow1(e.a, e.b))
    ensures X8Bbe(e) == El(BbeHigh8(e.a, e.b), BbeLow8(e.a, e.b))
  {
    hide XBbeB, X8BbeB, BbeHigh1, BbeHigh8, BbeLow1, BbeLow8;
    TablesBbe(e.a, e.b);
  }

  function XX(f: Form, e: El): El { X(f, X(f, e)) }

  lemma TwoSteps(f: Form, e: El)
    ensures XX(f, e) == if f.Lle? then El(LleHigh2(e.a, e.b), LleLow2(e.a, e.b)) else El(BbeHigh2(e.a, e.b), BbeLow2(e.a, e.b))
  {
    hide XLle, XBbe, LleHigh1, LleLow1, LleHigh2, LleLow2, BbeHigh1, BbeLow1, BbeHigh2, BbeLow2;
    LleOneStep(e);
    LleOneStep(XLle(e));
    BbeOneStep(e);
    BbeOneStep(XBbe(e));
    Lle2(e.a, e.b);
    Bbe2(e.a, e.b);
  }

  lemma FourSteps(f: Form, e: El)
    ensures XX(f, XX(f, e)) == if f.Lle? then El(LleHigh4(e.a, e.b), LleLow4(e.a, e.b)) else El(BbeHigh4(e.a, e.b), BbeLow4(e.a, e.b))
  {
    hide XX, LleHigh2, LleLow2, LleHigh4, LleLow4, BbeHigh2, BbeLow2, BbeHigh4, BbeLow4;
    TwoSteps(f, e);
    TwoSteps(f, XX(f, e));
    Lle4(e.a, e.b);
    Bbe4(e.a, e.b);
  }

  /** The table step by x^8 is eight steps by x. */
  lemma X8IsEightX(f: Form, e: El)
    ensures X8(f, e) == X(f, X(f, X(f, X(f, X(f, X(f, X(f, X(f, e))))))))
  {
    hide X, X8Lle, X8Bbe, LleHigh4, LleLow4, LleHigh8, LleLow8, BbeHigh4, BbeLow4, BbeHigh8, BbeLow8;
    FourSteps(f, e);
    FourSteps(f, XX(f, XX(f, e)));
    Lle8(e.a, e.b);
    Bbe8(e.a, e.b);
    LleOneStep(e);
    BbeOneStep(e);
  }

  // ---------- both steps are linear ----------

  lemma LleLinearWords(a: bv64, b: bv64, c: bv64, d: bv64)
    ensures LleHigh1(Xor(a, c), Xor(b, d)) == Xor(LleHigh1(a, b), LleHigh1(c, d))
    ensures LleLow1(Xor(a, c), Xor(b, d)) == Xor(LleLow1(a, b), LleLow1(c, d))
  {
  }

  lemma BbeLinearWords(a: bv64, b: bv64, c: bv64, d: bv64)
    ensures BbeHigh1(Xor(a, c), Xor(b, d)) == Xor(BbeHigh1(a, b), BbeHigh1(c, d))
    ensures BbeLow1(Xor(a, c), Xor(b, d)) == Xor(BbeLow1(a, b), BbeLow1(c, d))
  {
  }

  lemma XLinear(f: Form, u: El, v: El)
    ensures X(f, Add(u, v)) == Add(X(f, u), X(f, v))
  {
    hide Xor, XLle, XBbe, LleHigh1, LleLow1, BbeHigh1, BbeLow1;
    if f.Lle? {
      LleOneStep(Add(u, v));
      LleOneStep(u);
      LleOneStep(v);
      LleLinearWords(u.a, u.b, v.a, v.b);
    } else {
      BbeOneStep(Add(u, v));
      BbeOneStep(u);
      BbeOneStep(v);
      BbeLinearWords(u.a, u.b, v.a, v.b);
    }
  }

  lemma XOfZero(f: Form)
    ensures X(f, ZERO) == ZERO
  {
    LleOneStep(ZERO);
    BbeOneStep(ZERO);
  }

  lemma XorDef(p: bv64, q: bv64) ensures Xor(p, q) == p ^ q {}

  lemma BareAssoc(p: bv64, q: bv64, r: bv64, x: bv64, y: bv64)
    requires x == p ^ q && y == q ^ r
    ensures x ^ r == p ^ y
  {
  }

  lemma XorComm(p: bv64, q: bv64)
    ensures Xor(p, q) == Xor(q, p) && Xor(p, 0) == p
  {
  }

  lemma XorAssoc(p: bv64, q: bv64, r: bv64)
    ensures Xor(Xor(p, q), r) == Xor(p, Xor(q, r))
  {
    hide Xor;
    var x, y := Xor(p, q), Xor(q, r);
    assert x ^ r == p ^ y by { XorDef(p, q); XorDef(q, r); BareAssoc(p, q, r, x, y); }
    XorDef(x, r);
    XorDef(p, y);
  }

  lemma AddComm(u: El, v: El)
    ensures Add(u, v) == Add(v, u) && Add(u, ZERO) == u
  {
    hide Xor;
    XorComm(u.a, v.a);
    XorComm(u.b, v.b);
  }

  lemma AddAssoc(u: El, v: El, w: El)
    ensures Add(Add(u, v), w) == Add(u, Add(v, w))
  {
    hide Xor;
    XorAssoc(u.a, v.a, w.a);
    XorAssoc(u.b, v.b, w.b);
  }

  // ---------- what x means: a shift of the 128 bits, and the polynomial when a bit falls off ----------

  /** The sixteen bytes as one number. */
  function Word(a: bv64, b: bv64): bv128 { ((a as bv128) << 64) | (b as bv128) }

  /** One step of the multiplication of blocks in section 6.3 of NIST SP 800-38D, with the constant R. */
  function TimesXLle(v: bv128): bv128 { (v >> 1) ^ (if v & 1 == 1 then 0xe1 << 120 else 0) }

  /** The same where the element is a binary number: the bit that falls off comes back at 1, x, x^2 and x^7. */
  function TimesXBbe(v: bv128): bv128 {
    (v << 1) ^ (v >> 127) ^ ((v >> 127) << 1) ^ ((v >> 127) << 2) ^ ((v >> 127) << 7)
  }

  lemma LleShift(a: bv64, b: bv64)
    ensures Word(LleHigh1(a, b), LleLow1(a, b)) == TimesXLle(Word(a, b))
  {
  }

  lemma BbeShift(a: bv64, b: bv64)
    ensures Word(BbeHigh1(a, b), BbeLow1(a, b)) == TimesXBbe(Word(a, b))
  {
  }

  /** The source's step on two words is the standard's on one. */
  lemma XIsShift(f: Form, e: El)
    ensures Word(X(f, e).a, X(f, e).b) == if f.Lle? then TimesXLle(Word(e.a, e.b)) else TimesXBbe(Word(e.a, e.b))
  {
    hide Word, XLle, XBbe, LleHigh1, LleLow1, BbeHigh1, BbeLow1, TimesXLle, TimesXBbe;
    if f.Lle? {
      LleOneStep(e);
      LleShift(e.a, e.b);
    } else {
      BbeOneStep(e);
      BbeShift(e.a, e.b);
    }
  }
}
