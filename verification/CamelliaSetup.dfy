/** Key setup, encryption and decryption as the source runs them, on tables that are filled in place. */
module CamelliaSetup {
  import opened CamelliaCore
  import opened CamelliaCipher
  import opened CamelliaFold
  import opened CamelliaKeys

  /** Four rounds over KL, with KL added half-way, where KR is zero. */
  method GenerateKa128(s: Sboxes, kl: Key) returns (ka: Key)
    ensures ka == KA(s, kl, Key(ZERO, ZERO))
  {
    hide Xor, F, MacroF;
    var h, l := kl.h, kl.l;
    var w := MacroF(s, h, SIGMA1);
    MacroFIsF(s, h, SIGMA1);
    l := Xor(l, w);
    h := MacroF(s, l, SIGMA2);
    MacroFIsF(s, l, SIGMA2);
    ghost var d2, e1 := l, h;
    l := MacroF(s, h, SIGMA3);
    MacroFIsF(s, h, SIGMA3);
    l := Xor(l, w);
    Comm(l, w);
    Comm(MacroF(s, h, SIGMA3), w);
    w := MacroF(s, l, SIGMA4);
    MacroFIsF(s, l, SIGMA4);
    h := Xor(h, w);
    ka := Key(h, l);
    Comm(kl.h, kl.h);
    Comm(kl.l, kl.l);
    Return(kl.h, e1);
    Return(kl.l, MacroF(s, kl.h, SIGMA1));
  }

  /** Adding the left operand twice. */
  lemma Return(a: W, b: W)
    ensures Xor(Xor(a, b), a) == b
  {
    hide Xor;
    Comm(Xor(a, b), a);
    Cancel(a, b);
  }

  /** Four rounds over KL and KR, with KL added half-way. */
  method GenerateKa256(s: Sboxes, kl: Key, kr: Key) returns (ka: Key)
    ensures ka == KA(s, kl, kr)
  {
    hide Xor, F, MacroF;
    var h, l := Xor(kl.h, kr.h), Xor(kl.l, kr.l);
    var w := MacroF(s, h, SIGMA1);
    MacroFIsF(s, h, SIGMA1);
    l := Xor(l, w);
    h := MacroF(s, l, SIGMA2);
    MacroFIsF(s, l, SIGMA2);
    ghost var f2 := h;
    h := Xor(h, kr.h);
    Mixed(kl.h, kr.h, f2);
    l := MacroF(s, h, SIGMA3);
    MacroFIsF(s, h, SIGMA3);
    ghost var f3 := l;
    l := Xor(l, Xor(w, kr.l));
    Mixed(kl.l, kr.l, w);
    Comm(f3, Xor(w, kr.l));
    w := MacroF(s, l, SIGMA4);
    MacroFIsF(s, l, SIGMA4);
    h := Xor(h, w);
    ka := Key(h, l);
  }

  /** (a + b + f) + a leaves f + b. */
  lemma Mixed(a: W, b: W, f: W)
    ensures Xor(Xor(Xor(a, b), f), a) == Xor(f, b)
  {
    hide Xor;
    Assoc(a, b, f);
    Return(a, Xor(b, f));
    Comm(b, f);
  }

  /** Two more rounds over KA and KR. */
  method GenerateKb(s: Sboxes, ka: Key, kr: Key) returns (kb: Key)
    ensures kb == KB(s, ka, kr)
  {
    hide Xor, F, MacroF;
    var h, l := Xor(kr.h, ka.h), Xor(kr.l, ka.l);
    Comm(kr.h, ka.h);
    Comm(kr.l, ka.l);
    var w := MacroF(s, h, SIGMA5);
    MacroFIsF(s, h, SIGMA5);
    l := Xor(l, w);
    w := MacroF(s, l, SIGMA6);
    MacroFIsF(s, l, SIGMA6);
    h := Xor(h, w);
    kb := Key(h, l);
  }

  predicate Cell(z: seq<W>, i: nat, w: W) {
    i < |z| && z[i] == w
  }

  /** Subkeys i and i + 1 are the two halves of a key. */
  predicate Holds(z: seq<W>, i: nat, k: Key) {
    Cell(z, i, k.h) && Cell(z, i + 1, k.l)
  }

  method PutOne(sub: array<W>, i: nat, w: W)
    requires i < sub.Length
    modifies sub
    ensures Cell(sub[..], i, w)
    ensures forall j: nat, v: W {:trigger Cell(sub[..], j, v)} :: j != i && Cell(old(sub[..]), j, v) ==> Cell(sub[..], j, v)
  {
    sub[i] := w;
  }

  method Put(sub: array<W>, i: nat, k: Key)
    requires i + 1 < sub.Length
    modifies sub
    ensures Holds(sub[..], i, k)
    ensures forall j: nat, v: W {:trigger Cell(sub[..], j, v)} ::
              j != i && j != i + 1 && Cell(old(sub[..]), j, v) ==> Cell(sub[..], j, v)
  {
    sub[i] := k.h;
    sub[i + 1] := k.l;
  }

  // The subkeys that come from each of the four quantities, by place.

  predicate FromKl(kl: Key, z: seq<W>) {
    Holds(z, 0, kl) && Holds(z, 12, Rotated(kl, 45)) && Holds(z, 16, Rotated(kl, 60)) && Holds(z, 22, Rotated(kl, 77))
    && Holds(z, 30, Rotated(kl, 111))
  }

  predicate FromKr(kr: Key, z: seq<W>) {
    Holds(z, 4, Rotated(kr, 15)) && Holds(z, 8, Rotated(kr, 30)) && Holds(z, 18, Rotated(kr, 60)) && Holds(z, 26, Rotated(kr, 94))
  }

  predicate FromKa(ka: Key, z: seq<W>) {
    Holds(z, 6, Rotated(ka, 15)) && Holds(z, 14, Rotated(ka, 45)) && Holds(z, 24, Rotated(ka, 77)) && Holds(z, 28, Rotated(ka, 94))
  }

  predicate FromKb(kb: Key, z: seq<W>) {
    Holds(z, 2, kb) && Holds(z, 10, Rotated(kb, 30)) && Holds(z, 20, Rotated(kb, 60)) && Holds(z, 32, Rotated(kb, 111))
  }

  /** Four quantities side by side. */
  predicate HoldsFour(z: seq<W>, i: nat, a: Key, b: Key, c: Key, d: Key) {
    Holds(z, i, a) && Holds(z, i + 2, b) && Holds(z, i + 4, c) && Holds(z, i + 6, d)
  }

  lemma FourAreEight(z: seq<W>, i: nat, a: Key, b: Key, c: Key, d: Key)
    requires HoldsFour(z, i, a, b, c, d)
    ensures i + 8 <= |z| && z[i..i + 8] == Eight(a, b, c, d)
  {
    var t := z[i..i + 8];
    assert t[0] == z[i] && t[1] == z[i + 1] && t[2] == z[i + 2] && t[3] == z[i + 3];
    assert t[4] == z[i + 4] && t[5] == z[i + 5] && t[6] == z[i + 6] && t[7] == z[i + 7];
  }

  lemma PartsMakeSchedule256(s: Sboxes, kl: Key, kr: Key, z: seq<W>)
    requires |z| == 34 && FromKl(kl, z) && FromKr(kr, z)
    requires var ka := KA(s, kl, kr); FromKa(ka, z) && FromKb(KB(s, ka, kr), z)
    ensures z == Schedule256(s, kl, kr)
  {
    hide KA, KB, Rotated, Eight;
    var ka := KA(s, kl, kr);
    var kb := KB(s, ka, kr);
    FourAreEight(z, 2, kb, Rotated(kr, 15), Rotated(ka, 15), Rotated(kr, 30));
    FourAreEight(z, 10, Rotated(kb, 30), Rotated(kl, 45), Rotated(ka, 45), Rotated(kl, 60));
    FourAreEight(z, 18, Rotated(kr, 60), Rotated(kb, 60), Rotated(kl, 77), Rotated(ka, 77));
    FourAreEight(z, 26, Rotated(kr, 94), Rotated(ka, 94), Rotated(kl, 111), Rotated(kb, 111));
    assert z == z[..2] + z[2..10] + z[10..18] + z[18..26] + z[26..34];
    assert z[..2] == [kl.h, kl.l];
  }

  /** The subkeys that are rotations of KL. */
  method PlaceKl256(kl: Key, sub: array<W>)
    requires sub.Length == 34
    modifies sub
    ensures FromKl(kl, sub[..])
  {
    hide Roldq, RoldqO32, RotHi, RotLo, Cell;
    var k := kl;
    Unturned(kl);
    Put(sub, 0, k);
    k := RoldqO32(k, 45);
    Roll0To45(kl);
    Put(sub, 12, k);
    k := Roldq(k, 15);
    Roll45To60(kl);
    Put(sub, 16, k);
    k := Roldq(k, 17);
    Roll60To77(kl);
    Put(sub, 22, k);
    k := RoldqO32(k, 34);
    Roll77To111(kl);
    Put(sub, 30, k);
  }

  /** The subkeys that are rotations of KR, which in the end is back where it was. */
  method PlaceKr256(kr: Key, ghost kl: Key, sub: array<W>) returns (r: Key)
    requires sub.Length == 34 && FromKl(kl, sub[..])
    modifies sub
    ensures FromKl(kl, sub[..]) && FromKr(kr, sub[..]) && r == kr
  {
    hide Roldq, RoldqO32, RotHi, RotLo, Cell;
    r := kr;
    Unturned(kr);
    r := Roldq(r, 15);
    Roll0To15(kr);
    Put(sub, 4, r);
    r := Roldq(r, 15);
    Roll15To30(kr);
    Put(sub, 8, r);
    r := Roldq(r, 30);
    Roll30To60(kr);
    Put(sub, 18, r);
    r := RoldqO32(r, 34);
    Roll60To94(kr);
    Put(sub, 26, r);
    r := RoldqO32(r, 34);
    Roll94Home(kr);
  }

  /** The subkeys that are rotations of KA. */
  method PlaceKa256(ka: Key, ghost kl: Key, ghost kr: Key, sub: array<W>)
    requires sub.Length == 34 && FromKl(kl, sub[..]) && FromKr(kr, sub[..])
    modifies sub
    ensures FromKl(kl, sub[..]) && FromKr(kr, sub[..]) && FromKa(ka, sub[..])
  {
    hide Roldq, RoldqO32, RotHi, RotLo, Cell, WordsUp;
    var k := ka;
    Unturned(ka);
    k := Roldq(k, 15);
    Roll0To15(ka);
    Put(sub, 6, k);
    k := Roldq(k, 30);
    Roll15To45(ka);
    Put(sub, 14, k);
    Put(sub, 24, WordsUp(k));
    Shift32(ka);
    k := RoldqO32(k, 49);
    Roll45To94(ka);
    Put(sub, 28, k);
  }

  /** The subkeys that are rotations of KB. */
  method PlaceKb256(kb: Key, ghost kl: Key, ghost kr: Key, ghost ka: Key, sub: array<W>)
    requires sub.Length == 34 && FromKl(kl, sub[..]) && FromKr(kr, sub[..]) && FromKa(ka, sub[..])
    modifies sub
    ensures FromKl(kl, sub[..]) && FromKr(kr, sub[..]) && FromKa(ka, sub[..]) && FromKb(kb, sub[..])
  {
    hide Roldq, RoldqO32, RotHi, RotLo, Cell;
    var r := kb;
    Unturned(kb);
    Put(sub, 2, r);
    r := Roldq(r, 30);
    Roll0To30(kb);
    Put(sub, 10, r);
    r := Roldq(r, 30);
    Roll30To60(kb);
    Put(sub, 20, r);
    r := RoldqO32(r, 51);
    Roll60To111(kb);
    Put(sub, 32, r);
  }

  /** The part of camellia_setup256 before the folding. */
  method ScheduleFor256(s: Sboxes, kl: Key, kr: Key, sub: array<W>)
    requires sub.Length == 34
    modifies sub
    ensures sub[..] == Schedule256(s, kl, kr)
  {
    hide KA, KB, FromKl, FromKr, FromKa, FromKb, Schedule256;
    PlaceKl256(kl, sub);
    var r := PlaceKr256(kr, kl, sub);
    var ka := GenerateKa256(s, kl, r);
    var kb := GenerateKb(s, ka, r);
    PlaceKa256(ka, kl, kr, sub);
    PlaceKb256(kb, kl, kr, ka, sub);
    PartsMakeSchedule256(s, kl, kr, sub[..]);
  }

  // The same for 128 bits, where one pair is made of a half of either quantity.

  predicate FromKl128(kl: Key, z: seq<W>) {
    Holds(z, 0, kl) && Holds(z, 4, Rotated(kl, 15)) && Holds(z, 10, Rotated(kl, 45)) && Cell(z, 13, RotLo(kl, 60))
    && Holds(z, 16, Rotated(kl, 77)) && Holds(z, 18, Rotated(kl, 94)) && Holds(z, 22, Rotated(kl, 111))
  }

  predicate FromKa128(ka: Key, z: seq<W>) {
    Holds(z, 2, ka) && Holds(z, 6, Rotated(ka, 15)) && Holds(z, 8, Rotated(ka, 30)) && Cell(z, 12, RotHi(ka, 45))
    && Holds(z, 14, Rotated(ka, 60)) && Holds(z, 20, Rotated(ka, 94)) && Holds(z, 24, Rotated(ka, 111))
  }

  lemma PartsMakeSchedule128(s: Sboxes, kl: Key, z: seq<W>)
    requires |z| == 26 && FromKl128(kl, z) && FromKa128(KA(s, kl, Key(ZERO, ZERO)), z)
    ensures z == Schedule128(s, kl)
  {
    hide KA, RotHi, RotLo, Eight;
    var ka := KA(s, kl, Key(ZERO, ZERO));
    FourAreEight(z, 2, ka, Rotated(kl, 15), Rotated(ka, 15), Rotated(ka, 30));
    FourAreEight(z, 10, Rotated(kl, 45), Key(RotHi(ka, 45), RotLo(kl, 60)), Rotated(ka, 60), Rotated(kl, 77));
    FourAreEight(z, 18, Rotated(kl, 94), Rotated(ka, 94), Rotated(kl, 111), Rotated(ka, 111));
    assert z == z[..2] + z[2..10] + z[10..18] + z[18..26];
    assert z[..2] == [kl.h, kl.l];
  }

  method PlaceKl128(kl: Key, sub: array<W>)
    requires sub.Length == 26
    modifies sub
    ensures FromKl128(kl, sub[..])
  {
    hide Roldq, RotHi, RotLo, Cell;
    var k := kl;
    Unturned(kl);
    Put(sub, 0, k);
    k := Roldq(k, 15);
    Roll0To15(kl);
    Put(sub, 4, k);
    k := Roldq(k, 30);
    Roll15To45(kl);
    Put(sub, 10, k);
    k := Roldq(k, 15);
    Roll45To60(kl);
    PutOne(sub, 13, k.l);
    k := Roldq(k, 17);
    Roll60To77(kl);
    Put(sub, 16, k);
    k := Roldq(k, 17);
    Roll77To94(kl);
    Put(sub, 18, k);
    k := Roldq(k, 17);
    Roll94To111(kl);
    Put(sub, 22, k);
  }

  method PlaceKa128(ka: Key, ghost kl: Key, sub: array<W>)
    requires sub.Length == 26 && FromKl128(kl, sub[..])
    modifies sub
    ensures FromKl128(kl, sub[..]) && FromKa128(ka, sub[..])
  {
    hide Roldq, RoldqO32, RotHi, RotLo, Cell;
    var k := ka;
    Unturned(ka);
    Put(sub, 2, k);
    k := Roldq(k, 15);
    Roll0To15(ka);
    Put(sub, 6, k);
    k := Roldq(k, 15);
    Roll15To30(ka);
    Put(sub, 8, k);
    k := Roldq(k, 15);
    Roll30To45(ka);
    PutOne(sub, 12, k.h);
    k := Roldq(k, 15);
    Roll45To60(ka);
    Put(sub, 14, k);
    k := RoldqO32(k, 34);
    Roll60To94(ka);
    Put(sub, 20, k);
    k := Roldq(k, 17);
    Roll94To111(ka);
    Put(sub, 24, k);
  }

  /** The part of camellia_setup128 before the folding. */
  method ScheduleFor128(s: Sboxes, kl: Key, sub: array<W>)
    requires sub.Length == 26
    modifies sub
    ensures sub[..] == Schedule128(s, kl)
  {
    hide KA, FromKl128, FromKa128, Schedule128;
    PlaceKl128(kl, sub);
    var ka := GenerateKa128(s, kl);
    PlaceKa128(ka, kl, sub);
    PartsMakeSchedule128(s, kl, sub[..]);
  }

  /** camellia_setup128: the key is given as its four big-endian words. */
  method Setup128(s: Sboxes, kl: Key, subkey: array<W>)
    requires subkey.Length == 26
    modifies subkey
    ensures Folds(Schedule128(s, kl), subkey[..], 3)
  {
    hide Folds, Schedule128;
    var sub := new W[26];
    ScheduleFor128(s, kl, sub);
    FoldFor128(sub, subkey);
  }

  /** camellia_setup256. */
  method Setup256(s: Sboxes, kl: Key, kr: Key, subkey: array<W>)
    requires subkey.Length == 34
    modifies subkey
    ensures Folds(Schedule256(s, kl, kr), subkey[..], 4)
  {
    hide Folds, Schedule256;
    var sub := new W[34];
    ScheduleFor256(s, kl, kr, sub);
    FoldFor256(sub, subkey);
  }

  /** camellia_setup192: the missing quarter of the key is the complement of the third one. */
  method Setup192(s: Sboxes, kl: Key, third: W, subkey: array<W>)
    requires subkey.Length == 34
    modifies subkey
    ensures Folds(Schedule256(s, kl, Key(third, W(Not(third.l), Not(third.r)))), subkey[..], 4)
  {
    hide Folds, Schedule256;
    Setup256(s, kl, Key(third, W(Not(third.l), Not(third.r))), subkey);
  }

  // ---------- encryption and decryption of one block in place ----------

  function Text(io: seq<bv32>): Block
    requires |io| == 4
  {
    Block(W(io[0], io[1]), W(io[2], io[3]))
  }

  method Round(s: Sboxes, io: array<bv32>, left: bool, k: W)
    requires io.Length == 4
    modifies io
    ensures var d := old(Text(io[..]));
            Text(io[..]) == if left then Block(d.a, MacroRound(s, d.a, k, d.b)) else Block(MacroRound(s, d.b, k, d.a), d.b)
  {
    hide MacroRound;
    if left {
      var y := MacroRound(s, W(io[0], io[1]), k, W(io[2], io[3]));
      io[2], io[3] := y.l, y.r;
    } else {
      var y := MacroRound(s, W(io[2], io[3]), k, W(io[0], io[1]));
      io[0], io[1] := y.l, y.r;
    }
  }

  method SixForward(s: Sboxes, io: array<bv32>, z: array<W>, i: nat)
    requires io.Length == 4 && i + 6 <= z.Length
    modifies io
    ensures Text(io[..]) == FoldedSix(s, old(Text(io[..])), z[..], i)
  {
    hide MacroRound, Text;
    Round(s, io, true, z[i]);
    Round(s, io, false, z[i + 1]);
    Round(s, io, true, z[i + 2]);
    Round(s, io, false, z[i + 3]);
    Round(s, io, true, z[i + 4]);
    Round(s, io, false, z[i + 5]);
  }

  method SixBackward(s: Sboxes, io: array<bv32>, z: array<W>, i: nat)
    requires io.Length == 4 && i + 6 <= z.Length
    modifies io
    ensures Text(io[..]) == UnfoldedSix(s, old(Text(io[..])), z[..], i)
  {
    hide MacroRound, Text;
    Round(s, io, true, z[i + 5]);
    Round(s, io, false, z[i + 4]);
    Round(s, io, true, z[i + 3]);
    Round(s, io, false, z[i + 2]);
    Round(s, io, true, z[i + 1]);
    Round(s, io, false, z[i]);
  }

  method Fls(io: array<bv32>, k1: W, k2: W)
    requires io.Length == 4
    modifies io
    ensures Text(io[..]) == FlLayer(old(Text(io[..])), k1, k2)
  {
    hide MacroFl, MacroFlInv;
    var a, b := MacroFl(W(io[0], io[1]), k1), MacroFlInv(W(io[2], io[3]), k2);
    io[0], io[1], io[2], io[3] := a.l, a.r, b.l, b.r;
  }

  method PreWhiten(io: array<bv32>, k: W)
    requires io.Length == 4
    modifies io
    ensures var d := old(Text(io[..])); Text(io[..]) == Block(Xor(d.a, k), d.b)
  {
    hide X;
    io[0], io[1] := X(io[0], k.l), X(io[1], k.r);
  }

  /** Post-whitening, and the exchange of the halves. */
  method PostWhiten(io: array<bv32>, k: W)
    requires io.Length == 4
    modifies io
    ensures var d := old(Text(io[..])); Text(io[..]) == Block(Xor(d.b, k), d.a)
  {
    hide X;
    io[2], io[3] := X(io[2], k.l), X(io[3], k.r);
    var t0, t1 := io[0], io[1];
    io[0], io[1] := io[2], io[3];
    io[2], io[3] := t0, t1;
  }

  /** The three or four groups of a key table one after the other, forward. */
  lemma ThreeForward(s: Sboxes, d: Block, z: seq<W>)
    requires Layout(z, 3)
    ensures FoldedGroups(s, d, z, 3, 0)
            == FoldedSix(s, FoldedGroupAndLayer(s, FoldedGroupAndLayer(s, d, z, 2), z, 10), z, 18)
  {
    hide FoldedGroupAndLayer, FoldedSix;
    assert FoldedGroups(s, d, z, 3, 0) == FoldedGroups(s, FoldedGroupAndLayer(s, d, z, 2), z, 3, 1);
  }

  lemma FourForward(s: Sboxes, d: Block, z: seq<W>)
    requires Layout(z, 4)
    ensures FoldedGroups(s, d, z, 4, 0)
            == FoldedSix(s, FoldedGroupAndLayer(s, FoldedGroupAndLayer(s, FoldedGroupAndLayer(s, d, z, 2), z, 10), z, 18), z, 26)
  {
    hide FoldedGroupAndLayer, FoldedSix;
    var d1 := FoldedGroupAndLayer(s, d, z, 2);
    var d2 := FoldedGroupAndLayer(s, d1, z, 10);
    assert FoldedGroups(s, d, z, 4, 0) == FoldedGroups(s, d1, z, 4, 1) == FoldedGroups(s, d2, z, 4, 2);
  }

  /** And backward. */
  lemma ThreeBackward(s: Sboxes, d: Block, z: seq<W>)
    requires Layout(z, 3)
    ensures var e := LayerBefore(UnfoldedSix(s, d, z, 18), z, 16);
            UnfoldedGroups(s, d, z, 3, 2) == UnfoldedSix(s, LayerBefore(UnfoldedSix(s, e, z, 10), z, 8), z, 2)
  {
    hide UnfoldedSix, LayerBefore;
    var e := LayerBefore(UnfoldedSix(s, d, z, 18), z, 16);
    assert UnfoldedGroups(s, d, z, 3, 2) == UnfoldedGroups(s, e, z, 3, 1);
  }

  lemma FourBackward(s: Sboxes, d: Block, z: seq<W>)
    requires Layout(z, 4)
    ensures var e := LayerBefore(UnfoldedSix(s, LayerBefore(UnfoldedSix(s, d, z, 26), z, 24), z, 18), z, 16);
            UnfoldedGroups(s, d, z, 4, 3) == UnfoldedSix(s, LayerBefore(UnfoldedSix(s, e, z, 10), z, 8), z, 2)
  {
    hide UnfoldedSix, LayerBefore;
    var d1 := LayerBefore(UnfoldedSix(s, d, z, 26), z, 24);
    var e := LayerBefore(UnfoldedSix(s, d1, z, 18), z, 16);
    assert UnfoldedGroups(s, d, z, 4, 3) == UnfoldedGroups(s, d1, z, 4, 2) == UnfoldedGroups(s, e, z, 4, 1);
  }

  method Encrypt128(s: Sboxes, z: array<W>, io: array<bv32>)
    requires z.Length == 26 && io.Length == 4
    modifies io
    ensures Text(io[..]) == FoldedEncrypt(s, z[..], 3, old(Text(io[..])))
  {
    hide Xor, Text, FoldedSix, FlLayer, FoldedGroups;
    PreWhiten(io, z[0]);
    ThreeForward(s, Text(io[..]), z[..]);
    SixForward(s, io, z, 2);
    Fls(io, z[8], z[9]);
    SixForward(s, io, z, 10);
    Fls(io, z[16], z[17]);
    SixForward(s, io, z, 18);
    PostWhiten(io, z[24]);
  }

  method Decrypt128(s: Sboxes, z: array<W>, io: array<bv32>)
    requires z.Length == 26 && io.Length == 4
    modifies io
    ensures Text(io[..]) == FoldedDecrypt(s, z[..], 3, old(Text(io[..])))
  {
    hide Xor, Text, UnfoldedSix, FlLayer, UnfoldedGroups;
    PreWhiten(io, z[24]);
    ThreeBackward(s, Text(io[..]), z[..]);
    SixBackward(s, io, z, 18);
    Fls(io, z[17], z[16]);
    SixBackward(s, io, z, 10);
    Fls(io, z[9], z[8]);
    SixBackward(s, io, z, 2);
    PostWhiten(io, z[0]);
  }

  method Encrypt256(s: Sboxes, z: array<W>, io: array<bv32>)
    requires z.Length == 34 && io.Length == 4
    modifies io
    ensures Text(io[..]) == FoldedEncrypt(s, z[..], 4, old(Text(io[..])))
  {
    hide Xor, Text, FoldedSix, FlLayer, FoldedGroups;
    PreWhiten(io, z[0]);
    FourForward(s, Text(io[..]), z[..]);
    SixForward(s, io, z, 2);
    Fls(io, z[8], z[9]);
    SixForward(s, io, z, 10);
    Fls(io, z[16], z[17]);
    SixForward(s, io, z, 18);
    Fls(io, z[24], z[25]);
    SixForward(s, io, z, 26);
    PostWhiten(io, z[32]);
  }

  method Decrypt256(s: Sboxes, z: array<W>, io: array<bv32>)
    requires z.Length == 34 && io.Length == 4
    modifies io
    ensures Text(io[..]) == FoldedDecrypt(s, z[..], 4, old(Text(io[..])))
  {
    hide Xor, Text, UnfoldedSix, FlLayer, UnfoldedGroups;
    PreWhiten(io, z[32]);
    FourBackward(s, Text(io[..]), z[..]);
    SixBackward(s, io, z, 26);
    Fls(io, z[25], z[24]);
    SixBackward(s, io, z, 18);
    Fls(io, z[17], z[16]);
    SixBackward(s, io, z, 10);
    Fls(io, z[9], z[8]);
    SixBackward(s, io, z, 2);
    PostWhiten(io, z[0]);
  }

  // ---------- the whole cipher ----------

  /** With a table from Setup128, one block is enciphered as sections 2.2 to 2.4 of RFC 3713 say, and deciphered again. */
  lemma Table128IsCamellia(s: Sboxes, kl: Key, z: seq<W>, m: Block)
    requires Folds(Schedule128(s, kl), z, 3)
    ensures FoldedEncrypt(s, z, 3, m) == Encrypt(s, Schedule128(s, kl), 3, m)
    ensures FoldedDecrypt(s, z, 3, Encrypt(s, Schedule128(s, kl), 3, m)) == m
  {
    var q := Schedule128(s, kl);
    assert Layout(q, 3) && Layout(z, 3);
    hide Schedule128, Folds, FoldedEncrypt, FoldedDecrypt, Encrypt;
    FoldedIsEncrypt(s, q, z, 3, m);
    DecryptUndoesEncrypt(s, z, 3, m);
  }

  /** The same for longer keys; for 192 bits kr ends in the complement of its first half. */
  lemma Table256IsCamellia(s: Sboxes, kl: Key, kr: Key, z: seq<W>, m: Block)
    requires Folds(Schedule256(s, kl, kr), z, 4)
    ensures FoldedEncrypt(s, z, 4, m) == Encrypt(s, Schedule256(s, kl, kr), 4, m)
    ensures FoldedDecrypt(s, z, 4, Encrypt(s, Schedule256(s, kl, kr), 4, m)) == m
  {
    var q := Schedule256(s, kl, kr);
    assert Layout(q, 4) && Layout(z, 4);
    hide Schedule256, Folds, FoldedEncrypt, FoldedDecrypt, Encrypt;
    FoldedIsEncrypt(s, q, z, 4, m);
    DecryptUndoesEncrypt(s, z, 4, m);
  }
}
