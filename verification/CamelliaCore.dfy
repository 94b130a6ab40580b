/** The Camellia block cipher: the optimised form of the source against sections 2.2 to 2.4 of RFC 3713.
  *
  * The cipher works on 64-bit words, which the source keeps as two 32-bit halves.  The S-boxes are
  * arbitrary functions; only the way the four tables are built from them matters.
  */
module CamelliaCore {

  // ---------- 32-bit words; the operators have names so that proofs can use their laws only ----------

  function X(a: bv32, b: bv32): bv32 { a ^ b }

  function X8(a: bv8, b: bv8): bv8 { a ^ b }

  function And(a: bv32, b: bv32): bv32 { a & b }

  function Or(a: bv32, b: bv32): bv32 { a | b }

  function Not(a: bv32): bv32 { !a }

  function Rr8(x: bv32): bv32 { (x >> 8) + (x << 24) }

  function Rl1(x: bv32): bv32 { (x << 1) + (x >> 31) }

  function Rl8(x: bv32): bv32 { (x << 8) + (x >> 24) }

  function Byte(x: bv32, shift: nat): bv8
    requires shift <= 24
  {
    ((x >> shift) & 0xff) as bv8
  }

  function Join(a: bv8, b: bv8, c: bv8, d: bv8): bv32 {
    ((a as bv32) << 24) | ((b as bv32) << 16) | ((c as bv32) << 8) | (d as bv32)
  }

  // ---------- 64-bit words ----------

  datatype W = W(l: bv32, r: bv32)

  const ZERO := W(0, 0)

  function Xor(a: W, b: W): W { W(X(a.l, b.l), X(a.r, b.r)) }

  datatype Sboxes = Sboxes(s1: bv8 -> bv8, s2: bv8 -> bv8, s3: bv8 -> bv8, s4: bv8 -> bv8)

  // ---------- the tables and macros of the source ----------

  /** The XOR of one entry from each table: SP1110 has its S-box value in the first three bytes, SP0222 in
    * the last three, SP3033 everywhere but the second and SP4404 everywhere but the third. */
  function HalfSum(p: bv8, q: bv8, r: bv8, t: bv8): bv32 {
    (((p as bv32) << 24) | ((p as bv32) << 16) | ((p as bv32) << 8))
    ^ (((q as bv32) << 16) | ((q as bv32) << 8) | (q as bv32))
    ^ (((r as bv32) << 24) | ((r as bv32) << 8) | (r as bv32))
    ^ (((t as bv32) << 24) | ((t as bv32) << 16) | (t as bv32))
  }

  /** CAMELLIA_F: y = F(x, k). */
  function MacroF(s: Sboxes, x: W, k: W): W {
    var il, ir := X(x.l, k.l), X(x.r, k.r);
    var yl := HalfSum(s.s1(Byte(ir, 0)), s.s2(Byte(ir, 24)), s.s3(Byte(ir, 16)), s.s4(Byte(ir, 8)));
    var yr := HalfSum(s.s1(Byte(il, 24)), s.s2(Byte(il, 16)), s.s3(Byte(il, 8)), s.s4(Byte(il, 0)));
    var yl' := X(yl, yr);
    W(yl', X(Rr8(yr), yl'))
  }

  /** CAMELLIA_ROUNDSM: the new y, with the subkey mixed in behind the S-boxes. */
  function MacroRound(s: Sboxes, x: W, k: W, y: W): W {
    var ir := HalfSum(s.s1(Byte(x.r, 0)), s.s2(Byte(x.r, 24)), s.s3(Byte(x.r, 16)), s.s4(Byte(x.r, 8)));
    var il := HalfSum(s.s1(Byte(x.l, 24)), s.s2(Byte(x.l, 16)), s.s3(Byte(x.l, 8)), s.s4(Byte(x.l, 0)));
    var il' := X(il, k.l);
    var ir' := X(ir, X(il', k.r));
    W(X(y.l, ir'), X(y.r, X(Rr8(il'), ir')))
  }

  /** The left half of CAMELLIA_FLS. */
  function MacroFl(x: W, k: W): W {
    var lr := X(x.r, Rl1(And(k.l, x.l)));
    W(X(x.l, Or(k.r, lr)), lr)
  }

  /** The right half of CAMELLIA_FLS. */
  function MacroFlInv(x: W, k: W): W {
    var rl := X(x.l, Or(k.r, x.r));
    W(rl, X(x.r, Rl1(And(k.l, rl))))
  }

  /** What the key setup does to a mask that has to pass an FL or FLINV layer, e.g. to kw2 and kw4. */
  function Carry(a: W, k: W): W {
    var l := X(a.l, And(a.r, Not(k.r)));
    W(l, X(a.r, Rl1(And(l, k.l))))
  }

  /** A subkey as it has to be for being added before, instead of behind, the second half of P. */
  function HalfPInv(k: W): W {
    var dw := Rl8(X(k.l, k.r));
    W(dw, X(k.l, dw))
  }

  // ---------- section 2.4 of RFC 3713 ----------

  /** The eight S-box outputs of the F-function, in order. */
  datatype Octets = Octets(t1: bv8, t2: bv8, t3: bv8, t4: bv8, t5: bv8, t6: bv8, t7: bv8, t8: bv8)

  function S(s: Sboxes, x: W): Octets {
    Octets(s.s1(Byte(x.l, 24)), s.s2(Byte(x.l, 16)), s.s3(Byte(x.l, 8)), s.s4(Byte(x.l, 0)),
           s.s2(Byte(x.r, 24)), s.s3(Byte(x.r, 16)), s.s4(Byte(x.r, 8)), s.s1(Byte(x.r, 0)))
  }

  function Sum3(a: bv8, b: bv8, c: bv8): bv8 { a ^ b ^ c }

  function Sum5(a: bv8, b: bv8, c: bv8, d: bv8, e: bv8): bv8 { a ^ b ^ c ^ d ^ e }

  function Sum6(a: bv8, b: bv8, c: bv8, d: bv8, e: bv8, f: bv8): bv8 { a ^ b ^ c ^ d ^ e ^ f }

  /** The eight rows of the P-function. */
  function P(t: Octets): W {
    W(Join(Sum6(t.t1, t.t3, t.t4, t.t6, t.t7, t.t8),
           Sum6(t.t1, t.t2, t.t4, t.t5, t.t7, t.t8),
           Sum6(t.t1, t.t2, t.t3, t.t5, t.t6, t.t8),
           Sum6(t.t2, t.t3, t.t4, t.t5, t.t6, t.t7)),
      Join(Sum5(t.t1, t.t2, t.t6, t.t7, t.t8),
           Sum5(t.t2, t.t3, t.t5, t.t7, t.t8),
           Sum5(t.t3, t.t4, t.t5, t.t6, t.t8),
           Sum5(t.t1, t.t4, t.t5, t.t6, t.t7)))
  }

  function F(s: Sboxes, x: W, k: W): W { P(S(s, Xor(x, k))) }

  function Fl(x: W, k: W): W {
    var x2 := X(x.r, Rl1(And(x.l, k.l)));
    W(X(x.l, Or(x2, k.r)), x2)
  }

  function FlInv(y: W, k: W): W {
    var y1 := X(y.l, Or(y.r, k.r));
    W(y1, X(y.r, Rl1(And(y1, k.l))))
  }

  // ---------- laws of the 32-bit operations ----------
  // Each law is proved on bare bit-vectors first, and then carried over to the named operators.

  lemma XDef(a: bv32, b: bv32) ensures X(a, b) == a ^ b {}

  lemma AndDef(a: bv32, b: bv32) ensures And(a, b) == a & b {}

  lemma OrDef(a: bv32, b: bv32) ensures Or(a, b) == a | b {}

  lemma NotDef(a: bv32) ensures Not(a) == !a {}

  lemma BareAssoc(a: bv32, b: bv32, c: bv32, x: bv32, y: bv32)
    requires x == a ^ b && y == b ^ c
    ensures x ^ c == a ^ y
  {
  }

  lemma BareAnd(a: bv32, b: bv32, k: bv32, x: bv32, y: bv32, z: bv32)
    requires x == a ^ b && y == a & k && z == b & k
    ensures x & k == y ^ z
  {
  }

  lemma BareOr(a: bv32, b: bv32, k: bv32, n: bv32, x: bv32, y: bv32, z: bv32)
    requires x == a ^ b && y == a | k && n == !k && z == b & n
    ensures x | k == y ^ z
  {
  }

  lemma XComm(a: bv32, b: bv32)
    ensures X(a, b) == X(b, a) && X(a, 0) == a
  {
  }

  lemma XCancel(a: bv32, b: bv32)
    ensures X(a, X(a, b)) == b
  {
    XDef(a, b);
    XDef(a, a ^ b);
  }

  lemma XAssoc(a: bv32, b: bv32, c: bv32)
    ensures X(X(a, b), c) == X(a, X(b, c))
  {
    hide X;
    var x, y := X(a, b), X(b, c);
    assert x ^ c == a ^ y by { XDef(a, b); XDef(b, c); BareAssoc(a, b, c, x, y); }
    XDef(x, c);
    XDef(a, y);
  }

  lemma AndX(a: bv32, b: bv32, k: bv32)
    ensures And(X(a, b), k) == X(And(a, k), And(b, k))
  {
    hide X, And;
    var x, y, z := X(a, b), And(a, k), And(b, k);
    assert x & k == y ^ z by { XDef(a, b); AndDef(a, k); AndDef(b, k); BareAnd(a, b, k, x, y, z); }
    AndDef(x, k);
    XDef(y, z);
  }

  lemma OrX(a: bv32, b: bv32, k: bv32)
    ensures Or(X(a, b), k) == X(Or(a, k), And(b, Not(k)))
  {
    hide X, And, Or, Not;
    var n := Not(k);
    var x, y, z := X(a, b), Or(a, k), And(b, n);
    assert x | k == y ^ z by { XDef(a, b); OrDef(a, k); NotDef(k); AndDef(b, n); BareOr(a, b, k, n, x, y, z); }
    OrDef(x, k);
    XDef(y, z);
  }

  lemma CommuteOps(a: bv32, b: bv32)
    ensures And(a, b) == And(b, a) && Or(a, b) == Or(b, a)
  {
  }

  lemma Rl1X(a: bv32, b: bv32)
    ensures Rl1(X(a, b)) == X(Rl1(a), Rl1(b))
  {
  }

  lemma Rr8X(a: bv32, b: bv32)
    ensures Rr8(X(a, b)) == X(Rr8(a), Rr8(b))
  {
  }

  lemma Rotations(a: bv32)
    ensures Rr8(Rl8(a)) == a
  {
  }

  lemma JoinX(a: bv8, b: bv8, c: bv8, d: bv8, a': bv8, b': bv8, c': bv8, d': bv8)
    ensures X(Join(a, b, c, d), Join(a', b', c', d')) == Join(X8(a, a'), X8(b, b'), X8(c, c'), X8(d, d'))
  {
    hide X, Join, X8;
    BareJoin(a, b, c, d, a', b', c', d');
    X8Def(a, a');
    X8Def(b, b');
    X8Def(c, c');
    X8Def(d, d');
  }

  lemma X8Def(a: bv8, b: bv8) ensures X8(a, b) == a ^ b {}

  lemma BareJoin(a: bv8, b: bv8, c: bv8, d: bv8, a': bv8, b': bv8, c': bv8, d': bv8)
    ensures X(Join(a, b, c, d), Join(a', b', c', d')) == Join(a ^ a', b ^ b', c ^ c', d ^ d')
  {
  }

  lemma JoinRr8(a: bv8, b: bv8, c: bv8, d: bv8)
    ensures Rr8(Join(a, b, c, d)) == Join(d, a, b, c)
  {
  }

  lemma BareHalfSum(p: bv8, q: bv8, r: bv8, t: bv8)
    ensures HalfSum(p, q, r, t) == Join(p ^ r ^ t, p ^ q ^ t, p ^ q ^ r, q ^ r ^ t)
  {
  }

  lemma Sum3Def(a: bv8, b: bv8, c: bv8) ensures Sum3(a, b, c) == a ^ b ^ c {}

  lemma HalfSumIsJoin(p: bv8, q: bv8, r: bv8, t: bv8)
    ensures HalfSum(p, q, r, t) == Join(Sum3(p, r, t), Sum3(p, q, t), Sum3(p, q, r), Sum3(q, r, t))
  {
    hide HalfSum, Join, Sum3;
    BareHalfSum(p, q, r, t);
    Sum3Def(p, r, t);
    Sum3Def(p, q, t);
    Sum3Def(p, q, r);
    Sum3Def(q, r, t);
  }

  // ---------- laws of the 64-bit words ----------

  lemma Assoc(a: W, b: W, c: W)
    ensures Xor(Xor(a, b), c) == Xor(a, Xor(b, c))
  {
    hide X;
    XAssoc(a.l, b.l, c.l);
    XAssoc(a.r, b.r, c.r);
  }

  lemma Comm(a: W, b: W)
    ensures Xor(a, b) == Xor(b, a) && Xor(a, ZERO) == a
  {
    hide X;
    XComm(a.l, b.l);
    XComm(a.r, b.r);
  }

  lemma Cancel(a: W, b: W)
    ensures Xor(a, Xor(a, b)) == b
  {
    hide X;
    XCancel(a.l, b.l);
    XCancel(a.r, b.r);
  }

  /** A shared mask drops out of a sum. */
  lemma DropMask(a: W, b: W, m: W)
    ensures Xor(Xor(a, m), Xor(b, m)) == Xor(a, b)
  {
    hide Xor;
    Comm(b, m);
    Assoc(a, m, Xor(m, b));
    Cancel(m, b);
  }

  lemma Swap(a: W, b: W, c: W)
    ensures Xor(Xor(a, b), c) == Xor(Xor(a, c), b)
  {
    hide Xor;
    Assoc(a, b, c);
    Comm(b, c);
    Assoc(a, c, b);
  }

  lemma Swap32(a: bv32, b: bv32, c: bv32, d: bv32)
    ensures X(X(a, b), X(c, d)) == X(X(a, c), X(b, d))
  {
    hide X;
    XAssoc(a, b, X(c, d));
    XAssoc(b, c, d);
    XComm(b, c);
    XAssoc(c, b, d);
    XAssoc(a, c, X(b, d));
  }

  /** The carried mask is additive. */
  lemma CarryAdds(a: W, b: W, k: W)
    ensures Carry(Xor(a, b), k) == Xor(Carry(a, k), Carry(b, k))
  {
    hide X, And, Not, Rl1;
    var n := Not(k.r);
    AndX(a.r, b.r, n);
    Swap32(a.l, b.l, And(a.r, n), And(b.r, n));
    var la, lb := X(a.l, And(a.r, n)), X(b.l, And(b.r, n));
    AndX(la, lb, k.l);
    Rl1X(And(la, k.l), And(lb, k.l));
    Swap32(a.r, b.r, Rl1(And(la, k.l)), Rl1(And(lb, k.l)));
  }

  /** A mask in front of FLINV comes out carried. */
  lemma FlInvCarries(x: W, a: W, k: W)
    ensures FlInv(Xor(x, a), k) == Xor(FlInv(x, k), Carry(a, k))
  {
    hide X, And, Or, Not, Rl1;
    var n := Not(k.r);
    OrX(x.r, a.r, k.r);
    Swap32(x.l, a.l, Or(x.r, k.r), And(a.r, n));
    var lx, la := X(x.l, Or(x.r, k.r)), X(a.l, And(a.r, n));
    AndX(lx, la, k.l);
    Rl1X(And(lx, k.l), And(la, k.l));
    Swap32(x.r, a.r, Rl1(And(lx, k.l)), Rl1(And(la, k.l)));
  }

  /** FL undoes FLINV and the other way round. */
  lemma FlInverse(x: W, k: W)
    ensures Fl(FlInv(x, k), k) == x && FlInv(Fl(x, k), k) == x
  {
    hide X, And, Or, Rl1;
    var y1 := X(x.l, Or(x.r, k.r));
    XAssoc(x.r, Rl1(And(y1, k.l)), Rl1(And(y1, k.l)));
    Undo(x.r, Rl1(And(y1, k.l)));
    Undo(x.l, Or(x.r, k.r));
    var x2 := X(x.r, Rl1(And(x.l, k.l)));
    Undo(x.l, Or(x2, k.r));
    Undo(x.r, Rl1(And(x.l, k.l)));
  }

  lemma Undo(a: bv32, b: bv32)
    ensures X(X(a, b), b) == a
  {
    hide X;
    XComm(a, b);
    XComm(X(b, a), b);
    XCancel(b, a);
  }

  /** A carried mask in front of FL comes out as the mask itself. */
  lemma FlUncarries(x: W, a: W, k: W)
    ensures Fl(Xor(x, Carry(a, k)), k) == Xor(Fl(x, k), a)
  {
    hide Fl, FlInv, Xor, Carry;
    FlInverse(x, k);
    FlInvCarries(Fl(x, k), a, k);
    FlInverse(Xor(Fl(x, k), a), k);
  }

  // ---------- the macros compute the functions of the RFC ----------

  lemma MacroFlIsFl(x: W, k: W)
    ensures MacroFl(x, k) == Fl(x, k) && MacroFlInv(x, k) == FlInv(x, k)
  {
    hide X, And, Or, Rl1;
    CommuteOps(k.l, x.l);
    CommuteOps(k.r, X(x.r, Rl1(And(x.l, k.l))));
    CommuteOps(k.r, x.r);
    CommuteOps(k.l, X(x.l, Or(x.r, k.r)));
  }

  lemma Top(p: bv8, q: bv8, r: bv8, s: bv8, t: bv8, u: bv8)
    ensures Sum6(s, t, u, q, r, p) == X8(Sum3(p, q, r), Sum3(s, t, u))
  {
  }

  lemma Top4(p: bv8, q: bv8, r: bv8, s: bv8, t: bv8, u: bv8)
    ensures Sum6(s, t, u, p, q, r) == X8(Sum3(p, q, r), Sum3(s, t, u))
  {
  }

  lemma Bottom5(x: bv8, m: bv8, n: bv8, w: bv8, e: bv8, f: bv8, g: bv8)
    ensures Sum5(w, x, e, f, g) == X8(Sum3(x, m, n), Sum6(w, m, n, e, f, g))
  {
  }

  lemma Bottom6(x: bv8, m: bv8, n: bv8, w: bv8, e: bv8, f: bv8, g: bv8)
    ensures Sum5(w, x, e, f, g) == X8(Sum3(m, x, n), Sum6(m, w, n, e, f, g))
  {
  }

  lemma Bottom7(x: bv8, m: bv8, n: bv8, w: bv8, e: bv8, f: bv8, g: bv8)
    ensures Sum5(w, x, e, f, g) == X8(Sum3(m, n, x), Sum6(m, n, w, e, f, g))
  {
  }

  lemma Bottom8(x: bv8, m: bv8, n: bv8, w: bv8, e: bv8, f: bv8, g: bv8)
    ensures Sum5(x, w, e, f, g) == X8(Sum3(x, m, n), Sum6(m, n, w, e, f, g))
  {
  }

  lemma TopRows(t: Octets, u: bv32, d: bv32)
    requires u == HalfSum(t.t8, t.t5, t.t6, t.t7) && d == HalfSum(t.t1, t.t2, t.t3, t.t4)
    ensures X(u, d) == P(t).l
  {
    hide X, X8, Join, HalfSum, Sum3, Sum5, Sum6;
    HalfSumIsJoin(t.t8, t.t5, t.t6, t.t7);
    HalfSumIsJoin(t.t1, t.t2, t.t3, t.t4);
    Top(t.t8, t.t6, t.t7, t.t1, t.t3, t.t4);
    Top(t.t8, t.t5, t.t7, t.t1, t.t2, t.t4);
    Top(t.t8, t.t5, t.t6, t.t1, t.t2, t.t3);
    Top4(t.t5, t.t6, t.t7, t.t2, t.t3, t.t4);
    JoinX(Sum3(t.t8, t.t6, t.t7), Sum3(t.t8, t.t5, t.t7), Sum3(t.t8, t.t5, t.t6), Sum3(t.t5, t.t6, t.t7),
          Sum3(t.t1, t.t3, t.t4), Sum3(t.t1, t.t2, t.t4), Sum3(t.t1, t.t2, t.t3), Sum3(t.t2, t.t3, t.t4));
  }

  lemma BottomRows(t: Octets, d: bv32)
    requires d == HalfSum(t.t1, t.t2, t.t3, t.t4)
    ensures X(Rr8(d), P(t).l) == P(t).r
  {
    hide X, X8, Join, HalfSum, Sum3, Sum5, Sum6, Rr8;
    HalfSumIsJoin(t.t1, t.t2, t.t3, t.t4);
    JoinRr8(Sum3(t.t1, t.t3, t.t4), Sum3(t.t1, t.t2, t.t4), Sum3(t.t1, t.t2, t.t3), Sum3(t.t2, t.t3, t.t4));
    Bottom5(t.t2, t.t3, t.t4, t.t1, t.t6, t.t7, t.t8);
    Bottom6(t.t3, t.t1, t.t4, t.t2, t.t5, t.t7, t.t8);
    Bottom7(t.t4, t.t1, t.t2, t.t3, t.t5, t.t6, t.t8);
    Bottom8(t.t1, t.t2, t.t3, t.t4, t.t5, t.t6, t.t7);
    JoinX(Sum3(t.t2, t.t3, t.t4), Sum3(t.t1, t.t3, t.t4), Sum3(t.t1, t.t2, t.t4), Sum3(t.t1, t.t2, t.t3),
          Sum6(t.t1, t.t3, t.t4, t.t6, t.t7, t.t8), Sum6(t.t1, t.t2, t.t4, t.t5, t.t7, t.t8),
          Sum6(t.t1, t.t2, t.t3, t.t5, t.t6, t.t8), Sum6(t.t2, t.t3, t.t4, t.t5, t.t6, t.t7));
  }

  /** The two half sums, one of them rotated, give the rows of the matrix P. */
  lemma LinearLayer(t: Octets)
    ensures
      var u := HalfSum(t.t8, t.t5, t.t6, t.t7);
      var d := HalfSum(t.t1, t.t2, t.t3, t.t4);
      P(t) == W(X(u, d), X(Rr8(d), X(u, d)))
  {
    hide X, P, HalfSum, Rr8;
    TopRows(t, HalfSum(t.t8, t.t5, t.t6, t.t7), HalfSum(t.t1, t.t2, t.t3, t.t4));
    BottomRows(t, HalfSum(t.t1, t.t2, t.t3, t.t4));
  }

  lemma MacroFIsF(s: Sboxes, x: W, k: W)
    ensures MacroF(s, x, k) == F(s, x, k)
  {
    hide X, Rr8, HalfSum, P, Byte;
    LinearLayer(S(s, Xor(x, k)));
  }

  /** Undoing half of P on a subkey makes the round add exactly that subkey. */
  lemma RoundAddsKey(s: Sboxes, x: W, k: W, y: W)
    ensures MacroRound(s, x, HalfPInv(k), y) == Xor(Xor(y, F(s, x, ZERO)), k)
  {
    hide X, Rr8, Rl8, HalfSum, P, Byte;
    Comm(x, ZERO);
    var t := S(s, x);
    LinearLayer(t);
    var u := HalfSum(t.t8, t.t5, t.t6, t.t7);
    var d := HalfSum(t.t1, t.t2, t.t3, t.t4);
    var dw := Rl8(X(k.l, k.r));
    HalfKey(u, d, k.l, dw);
    Rr8X(d, dw);
    Rotations(X(k.l, k.r));
    var p := X(u, d);
    XAssoc(y.l, p, k.l);
    Swap32(Rr8(d), X(k.l, k.r), p, k.l);
    XComm(X(k.l, k.r), k.l);
    XCancel(k.l, k.r);
    XAssoc(y.r, X(Rr8(d), p), k.r);
  }

  /** The two uses of the left subkey word leave one copy of the original. */
  lemma HalfKey(u: bv32, d: bv32, kl: bv32, dw: bv32)
    ensures X(u, X(X(d, dw), X(kl, dw))) == X(X(u, d), kl)
  {
    hide X;
    Swap32(d, dw, kl, dw);
    XAssoc(X(d, kl), dw, dw);
    Undo(X(d, kl), dw);
    XAssoc(u, d, kl);
  }
}
