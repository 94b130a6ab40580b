/** The key schedule of section 2.2 of RFC 3713 and the word rotations that compute it. */
module CamelliaKeys {
  import opened CamelliaCore
  import opened CamelliaCipher
  import opened CamelliaFold

  // ---------- section 2.2 of RFC 3713 ----------

  function Rot(x: bv128, n: nat): bv128
    requires n < 128
  {
    (x << n) | (x >> (128 - n))
  }

  /** The upper and the lower 64 bits. */
  function Hi(x: bv128): W { W((x >> 96) as bv32, ((x >> 64) & 0xffffffff) as bv32) }

  function Lo(x: bv128): W { W(((x >> 32) & 0xffffffff) as bv32, (x & 0xffffffff) as bv32) }

  function Cat(h: W, l: W): bv128 {
    ((h.l as bv128) << 96) | ((h.r as bv128) << 64) | ((l.l as bv128) << 32) | (l.r as bv128)
  }

  const SIGMA1 := W(0xA09E667F, 0x3BCC908B)
  const SIGMA2 := W(0xB67AE858, 0x4CAA73B2)
  const SIGMA3 := W(0xC6EF372F, 0xE94F82BE)
  const SIGMA4 := W(0x54FF53A5, 0xF1D36F1C)
  const SIGMA5 := W(0x10E527FA, 0xDE682D1D)
  const SIGMA6 := W(0xB05688C2, 0xB3E6C1FD)

  /** A 128-bit quantity as two words. */
  datatype Key = Key(h: W, l: W)

  function KA(s: Sboxes, kl: Key, kr: Key): Key {
    var d1 := Xor(kl.h, kr.h);
    var d2 := Xor(kl.l, kr.l);
    var d2' := Xor(d2, F(s, d1, SIGMA1));
    var d1' := Xor(d1, F(s, d2', SIGMA2));
    var e1 := Xor(d1', kl.h);
    var e2 := Xor(d2', kl.l);
    var e2' := Xor(e2, F(s, e1, SIGMA3));
    Key(Xor(e1, F(s, e2', SIGMA4)), e2')
  }

  function KB(s: Sboxes, ka: Key, kr: Key): Key {
    var d1 := Xor(ka.h, kr.h);
    var d2 := Xor(ka.l, kr.l);
    var d2' := Xor(d2, F(s, d1, SIGMA5));
    Key(Xor(d1, F(s, d2', SIGMA6)), d2')
  }

  function RotHi(k: Key, n: nat): W requires n < 128 { Hi(Rot(Cat(k.h, k.l), n)) }

  function RotLo(k: Key, n: nat): W requires n < 128 { Lo(Rot(Cat(k.h, k.l), n)) }

  /** Both halves of a rotated key. */
  function Rotated(k: Key, n: nat): Key
    requires n < 128
  {
    Key(RotHi(k, n), RotLo(k, n))
  }

  /** Four quantities as eight subkeys: a group of six round keys and the two keys behind it. */
  function Eight(a: Key, b: Key, c: Key, d: Key): seq<W> {
    [a.h, a.l, b.h, b.l, c.h, c.l, d.h, d.l]
  }

  /** Subkeys of a 128-bit key in table order: kw1, kw2, k1..k6, ke1, ke2, k7..k12, ke3, ke4, k13..k18, kw3, kw4. */
  function Schedule128(s: Sboxes, kl: Key): seq<W> {
    var ka := KA(s, kl, Key(ZERO, ZERO));
    [kl.h, kl.l]
    + Eight(ka, Rotated(kl, 15), Rotated(ka, 15), Rotated(ka, 30))
    + Eight(Rotated(kl, 45), Key(RotHi(ka, 45), RotLo(kl, 60)), Rotated(ka, 60), Rotated(kl, 77))
    + Eight(Rotated(kl, 94), Rotated(ka, 94), Rotated(kl, 111), Rotated(ka, 111))
  }

  /** Subkeys of a 192- or 256-bit key in table order, with one group more. */
  function Schedule256(s: Sboxes, kl: Key, kr: Key): seq<W> {
    var ka := KA(s, kl, kr);
    var kb := KB(s, ka, kr);
    [kl.h, kl.l]
    + Eight(kb, Rotated(kr, 15), Rotated(ka, 15), Rotated(kr, 30))
    + Eight(Rotated(kb, 30), Rotated(kl, 45), Rotated(ka, 45), Rotated(kl, 60))
    + Eight(Rotated(kr, 60), Rotated(kb, 60), Rotated(kl, 77), Rotated(ka, 77))
    + Eight(Rotated(kr, 94), Rotated(ka, 94), Rotated(kl, 111), Rotated(kb, 111))
  }

  // ---------- the rotation macros ----------

  /** CAMELLIA_ROLDQ, for fewer than 32 bits. */
  function Roldq(k: Key, bits: nat): Key
    requires 0 < bits < 32
  {
    Key(W((k.h.l << bits) + (k.h.r >> (32 - bits)), (k.h.r << bits) + (k.l.l >> (32 - bits))),
        W((k.l.l << bits) + (k.l.r >> (32 - bits)), (k.l.r << bits) + (k.h.l >> (32 - bits))))
  }

  /** CAMELLIA_ROLDQo32, for more than 32 bits. */
  function RoldqO32(k: Key, bits: nat): Key
    requires 32 < bits < 64
  {
    Key(W((k.h.r << (bits - 32)) + (k.l.l >> (64 - bits)), (k.l.l << (bits - 32)) + (k.l.r >> (64 - bits))),
        W((k.l.r << (bits - 32)) + (k.h.l >> (64 - bits)), (k.h.l << (bits - 32)) + (k.h.r >> (64 - bits))))
  }

  lemma Turn15(k: Key)
    ensures Cat(Roldq(k, 15).h, Roldq(k, 15).l) == Rot(Cat(k.h, k.l), 15)
  {
  }

  lemma Turn17(k: Key)
    ensures Cat(Roldq(k, 17).h, Roldq(k, 17).l) == Rot(Cat(k.h, k.l), 17)
  {
  }

  lemma Turn30(k: Key)
    ensures Cat(Roldq(k, 30).h, Roldq(k, 30).l) == Rot(Cat(k.h, k.l), 30)
  {
  }

  lemma Turn34(k: Key)
    ensures Cat(RoldqO32(k, 34).h, RoldqO32(k, 34).l) == Rot(Cat(k.h, k.l), 34)
  {
  }

  lemma Turn45(k: Key)
    ensures Cat(RoldqO32(k, 45).h, RoldqO32(k, 45).l) == Rot(Cat(k.h, k.l), 45)
  {
  }

  lemma Turn49(k: Key)
    ensures Cat(RoldqO32(k, 49).h, RoldqO32(k, 49).l) == Rot(Cat(k.h, k.l), 49)
  {
  }

  lemma Turn51(k: Key)
    ensures Cat(RoldqO32(k, 51).h, RoldqO32(k, 51).l) == Rot(Cat(k.h, k.l), 51)
  {
  }

  lemma HalvesOfCat(h: W, l: W)
    ensures Hi(Cat(h, l)) == h && Lo(Cat(h, l)) == l
  {
  }

  lemma CatOfHalves(x: bv128)
    ensures Cat(Hi(x), Lo(x)) == x
  {
  }

  // Rotations add up, for the amounts the schedule uses.

  lemma Add0And15(x: bv128) ensures Rot(Rot(x, 0), 15) == Rot(x, 15) {}

  lemma Add0And30(x: bv128) ensures Rot(Rot(x, 0), 30) == Rot(x, 30) {}

  lemma Add0And45(x: bv128) ensures Rot(Rot(x, 0), 45) == Rot(x, 45) {}

  lemma Add15And15(x: bv128) ensures Rot(Rot(x, 15), 15) == Rot(x, 30) {}

  lemma Add15And30(x: bv128) ensures Rot(Rot(x, 15), 30) == Rot(x, 45) {}

  lemma Add30And15(x: bv128) ensures Rot(Rot(x, 30), 15) == Rot(x, 45) {}

  lemma Add30And30(x: bv128) ensures Rot(Rot(x, 30), 30) == Rot(x, 60) {}

  lemma Add45And15(x: bv128) ensures Rot(Rot(x, 45), 15) == Rot(x, 60) {}

  lemma Add45And49(x: bv128) ensures Rot(Rot(x, 45), 49) == Rot(x, 94) {}

  lemma Add60And17(x: bv128) ensures Rot(Rot(x, 60), 17) == Rot(x, 77) {}

  lemma Add60And34(x: bv128) ensures Rot(Rot(x, 60), 34) == Rot(x, 94) {}

  lemma Add60And51(x: bv128) ensures Rot(Rot(x, 60), 51) == Rot(x, 111) {}

  lemma Add77And17(x: bv128) ensures Rot(Rot(x, 77), 17) == Rot(x, 94) {}

  lemma Add77And34(x: bv128) ensures Rot(Rot(x, 77), 34) == Rot(x, 111) {}

  lemma Add94And17(x: bv128) ensures Rot(Rot(x, 94), 17) == Rot(x, 111) {}

  lemma FullTurn(x: bv128) ensures Rot(Rot(x, 94), 34) == x {}

  lemma NoTurn(x: bv128) ensures Rot(x, 0) == x {}

  lemma Turned(k: Key, x: Key, t: Key, m: nat, n: nat)
    requires m + n < 128 && x == Rotated(k, m)
    requires Cat(t.h, t.l) == Rot(Cat(x.h, x.l), n)
    requires Rot(Rot(Cat(k.h, k.l), m), n) == Rot(Cat(k.h, k.l), m + n)
    ensures t == Rotated(k, m + n)
  {
    hide Cat, Rot, Hi, Lo;
    CatOfHalves(Rot(Cat(k.h, k.l), m));
    HalvesOfCat(t.h, t.l);
  }

  lemma Unturned(k: Key)
    ensures Rotated(k, 0) == k
  {
    hide Cat, Rot, Hi, Lo;
    NoTurn(Cat(k.h, k.l));
    HalvesOfCat(k.h, k.l);
  }

  // The macros move from one rotation of the schedule to the next.

  lemma Roll0To15(k: Key)
    ensures Roldq(Rotated(k, 0), 15) == Rotated(k, 15)
  {
    hide Cat, Rot, Hi, Lo, Roldq, Rotated;
    Turn15(Rotated(k, 0));
    Add0And15(Cat(k.h, k.l));
    Turned(k, Rotated(k, 0), Roldq(Rotated(k, 0), 15), 0, 15);
  }

  lemma Roll0To30(k: Key)
    ensures Roldq(Rotated(k, 0), 30) == Rotated(k, 30)
  {
    hide Cat, Rot, Hi, Lo, Roldq, Rotated;
    Turn30(Rotated(k, 0));
    Add0And30(Cat(k.h, k.l));
    Turned(k, Rotated(k, 0), Roldq(Rotated(k, 0), 30), 0, 30);
  }

  lemma Roll0To45(k: Key)
    ensures RoldqO32(Rotated(k, 0), 45) == Rotated(k, 45)
  {
    hide Cat, Rot, Hi, Lo, RoldqO32, Rotated;
    Turn45(Rotated(k, 0));
    Add0And45(Cat(k.h, k.l));
    Turned(k, Rotated(k, 0), RoldqO32(Rotated(k, 0), 45), 0, 45);
  }

  lemma Roll15To30(k: Key)
    ensures Roldq(Rotated(k, 15), 15) == Rotated(k, 30)
  {
    hide Cat, Rot, Hi, Lo, Roldq, Rotated;
    Turn15(Rotated(k, 15));
    Add15And15(Cat(k.h, k.l));
    Turned(k, Rotated(k, 15), Roldq(Rotated(k, 15), 15), 15, 15);
  }

  lemma Roll15To45(k: Key)
    ensures Roldq(Rotated(k, 15), 30) == Rotated(k, 45)
  {
    hide Cat, Rot, Hi, Lo, Roldq, Rotated;
    Turn30(Rotated(k, 15));
    Add15And30(Cat(k.h, k.l));
    Turned(k, Rotated(k, 15), Roldq(Rotated(k, 15), 30), 15, 30);
  }

  lemma Roll30To45(k: Key)
    ensures Roldq(Rotated(k, 30), 15) == Rotated(k, 45)
  {
    hide Cat, Rot, Hi, Lo, Roldq, Rotated;
    Turn15(Rotated(k, 30));
    Add30And15(Cat(k.h, k.l));
    Turned(k, Rotated(k, 30), Roldq(Rotated(k, 30), 15), 30, 15);
  }

  lemma Roll30To60(k: Key)
    ensures Roldq(Rotated(k, 30), 30) == Rotated(k, 60)
  {
    hide Cat, Rot, Hi, Lo, Roldq, Rotated;
    Turn30(Rotated(k, 30));
    Add30And30(Cat(k.h, k.l));
    Turned(k, Rotated(k, 30), Roldq(Rotated(k, 30), 30), 30, 30);
  }

  lemma Roll45To60(k: Key)
    ensures Roldq(Rotated(k, 45), 15) == Rotated(k, 60)
  {
    hide Cat, Rot, Hi, Lo, Roldq, Rotated;
    Turn15(Rotated(k, 45));
    Add45And15(Cat(k.h, k.l));
    Turned(k, Rotated(k, 45), Roldq(Rotated(k, 45), 15), 45, 15);
  }

  lemma Roll45To94(k: Key)
    ensures RoldqO32(Rotated(k, 45), 49) == Rotated(k, 94)
  {
    hide Cat, Rot, Hi, Lo, RoldqO32, Rotated;
    Turn49(Rotated(k, 45));
    Add45And49(Cat(k.h, k.l));
    Turned(k, Rotated(k, 45), RoldqO32(Rotated(k, 45), 49), 45, 49);
  }

  lemma Roll60To77(k: Key)
    ensures Roldq(Rotated(k, 60), 17) == Rotated(k, 77)
  {
    hide Cat, Rot, Hi, Lo, Roldq, Rotated;
    Turn17(Rotated(k, 60));
    Add60And17(Cat(k.h, k.l));
    Turned(k, Rotated(k, 60), Roldq(Rotated(k, 60), 17), 60, 17);
  }

  lemma Roll60To94(k: Key)
    ensures RoldqO32(Rotated(k, 60), 34) == Rotated(k, 94)
  {
    hide Cat, Rot, Hi, Lo, RoldqO32, Rotated;
    Turn34(Rotated(k, 60));
    Add60And34(Cat(k.h, k.l));
    Turned(k, Rotated(k, 60), RoldqO32(Rotated(k, 60), 34), 60, 34);
  }

  lemma Roll60To111(k: Key)
    ensures RoldqO32(Rotated(k, 60), 51) == Rotated(k, 111)
  {
    hide Cat, Rot, Hi, Lo, RoldqO32, Rotated;
    Turn51(Rotated(k, 60));
    Add60And51(Cat(k.h, k.l));
    Turned(k, Rotated(k, 60), RoldqO32(Rotated(k, 60), 51), 60, 51);
  }

  lemma Roll77To94(k: Key)
    ensures Roldq(Rotated(k, 77), 17) == Rotated(k, 94)
  {
    hide Cat, Rot, Hi, Lo, Roldq, Rotated;
    Turn17(Rotated(k, 77));
    Add77And17(Cat(k.h, k.l));
    Turned(k, Rotated(k, 77), Roldq(Rotated(k, 77), 17), 77, 17);
  }

  lemma Roll77To111(k: Key)
    ensures RoldqO32(Rotated(k, 77), 34) == Rotated(k, 111)
  {
    hide Cat, Rot, Hi, Lo, RoldqO32, Rotated;
    Turn34(Rotated(k, 77));
    Add77And34(Cat(k.h, k.l));
    Turned(k, Rotated(k, 77), RoldqO32(Rotated(k, 77), 34), 77, 34);
  }

  lemma Roll94To111(k: Key)
    ensures Roldq(Rotated(k, 94), 17) == Rotated(k, 111)
  {
    hide Cat, Rot, Hi, Lo, Roldq, Rotated;
    Turn17(Rotated(k, 94));
    Add94And17(Cat(k.h, k.l));
    Turned(k, Rotated(k, 94), Roldq(Rotated(k, 94), 17), 94, 17);
  }

  lemma Roll94Home(k: Key)
    ensures RoldqO32(Rotated(k, 94), 34) == k
  {
    var x := Rotated(k, 94);
    hide Cat, Rot, Hi, Lo, RoldqO32;
    Turn34(x);
    CatOfHalves(Rot(Cat(k.h, k.l), 94));
    FullTurn(Cat(k.h, k.l));
    HalvesOfCat(RoldqO32(x, 34).h, RoldqO32(x, 34).l);
    HalvesOfCat(k.h, k.l);
  }

  /** The four words of a key move up by one, and the first becomes the last. */
  function WordsUp(k: Key): Key {
    Key(W(k.h.r, k.l.l), W(k.l.r, k.h.l))
  }

  lemma TurnWords(k: Key)
    ensures Cat(WordsUp(k).h, WordsUp(k).l) == Rot(Cat(k.h, k.l), 32)
  {
  }

  lemma Shift32(k: Key)
    ensures WordsUp(Rotated(k, 45)) == Rotated(k, 77)
  {
    hide Cat, Rot, Hi, Lo, WordsUp, Rotated;
    TurnWords(Rotated(k, 45));
    Add45And32(Cat(k.h, k.l));
    Turned(k, Rotated(k, 45), WordsUp(Rotated(k, 45)), 45, 32);
  }

  lemma Add45And32(x: bv128) ensures Rot(Rot(x, 45), 32) == Rot(x, 77) {}
}
