/** Encryption by section 2.3 of RFC 3713, the folded form the source runs, and why they agree.
  *
  * Subkeys are laid out as in the source: kw1, kw2, then for each group of six rounds its six round
  * keys followed by the two keys of the FL layer behind it; behind the last group stand kw3 and kw4.
  */
module CamelliaCipher {
  import opened CamelliaCore

  /** The two 64-bit halves of a block. */
  datatype Block = Block(a: W, b: W)

  /** Number of six-round groups: three for 128-bit keys, four for longer ones. */
  predicate Layout(q: seq<W>, n: nat) {
    1 <= n && |q| == 8 * n + 2
  }

  // ---------- section 2.3 of RFC 3713 ----------

  function TwoRounds(s: Sboxes, d: Block, k1: W, k2: W): Block {
    var b := Xor(d.b, F(s, d.a, k1));
    Block(Xor(d.a, F(s, b, k2)), b)
  }

  function SixRounds(s: Sboxes, d: Block, q: seq<W>, i: nat): Block
    requires i + 6 <= |q|
  {
    TwoRounds(s, TwoRounds(s, TwoRounds(s, d, q[i], q[i + 1]), q[i + 2], q[i + 3]), q[i + 4], q[i + 5])
  }

  /** A group of rounds and the FL layer behind it. */
  function GroupAndLayer(s: Sboxes, d: Block, q: seq<W>, i: nat): Block
    requires i + 8 <= |q|
  {
    var e := SixRounds(s, d, q, i);
    Block(Fl(e.a, q[i + 6]), FlInv(e.b, q[i + 7]))
  }

  function Groups(s: Sboxes, d: Block, q: seq<W>, n: nat, g: nat): Block
    requires Layout(q, n) && g < n
    decreases n - g
  {
    if g == n - 1 then SixRounds(s, d, q, 8 * g + 2)
    else Groups(s, GroupAndLayer(s, d, q, 8 * g + 2), q, n, g + 1)
  }

  /** The cipher of the RFC: pre-whitening, rounds and FL layers, post-whitening with the halves exchanged. */
  function Encrypt(s: Sboxes, q: seq<W>, n: nat, m: Block): Block
    requires Layout(q, n)
  {
    var d := Groups(s, Block(Xor(m.a, q[0]), Xor(m.b, q[1])), q, n, 0);
    Block(Xor(d.b, q[8 * n]), Xor(d.a, q[8 * n + 1]))
  }

  // ---------- the folded form ----------

  function FoldedTwo(s: Sboxes, d: Block, z1: W, z2: W): Block {
    var b := MacroRound(s, d.a, z1, d.b);
    Block(MacroRound(s, b, z2, d.a), b)
  }

  function FoldedSix(s: Sboxes, d: Block, z: seq<W>, i: nat): Block
    requires i + 6 <= |z|
  {
    FoldedTwo(s, FoldedTwo(s, FoldedTwo(s, d, z[i], z[i + 1]), z[i + 2], z[i + 3]), z[i + 4], z[i + 5])
  }

  function FlLayer(d: Block, k1: W, k2: W): Block {
    Block(MacroFl(d.a, k1), MacroFlInv(d.b, k2))
  }

  function FoldedGroupAndLayer(s: Sboxes, d: Block, z: seq<W>, i: nat): Block
    requires i + 8 <= |z|
  {
    FlLayer(FoldedSix(s, d, z, i), z[i + 6], z[i + 7])
  }

  function FoldedGroups(s: Sboxes, d: Block, z: seq<W>, n: nat, g: nat): Block
    requires Layout(z, n) && g < n
    decreases n - g
  {
    if g == n - 1 then FoldedSix(s, d, z, 8 * g + 2)
    else FoldedGroups(s, FoldedGroupAndLayer(s, d, z, 8 * g + 2), z, n, g + 1)
  }

  function FoldedEncrypt(s: Sboxes, z: seq<W>, n: nat, m: Block): Block
    requires Layout(z, n)
  {
    var d := FoldedGroups(s, Block(Xor(m.a, z[0]), m.b), z, n, 0);
    Block(Xor(d.b, z[8 * n]), d.a)
  }

  /** Decryption runs the same steps on the subkeys from the last to the first. */
  function UnfoldedSix(s: Sboxes, d: Block, z: seq<W>, i: nat): Block
    requires i + 6 <= |z|
  {
    FoldedTwo(s, FoldedTwo(s, FoldedTwo(s, d, z[i + 5], z[i + 4]), z[i + 3], z[i + 2]), z[i + 1], z[i])
  }

  /** The FL layer between two groups, with its keys exchanged. */
  function LayerBefore(d: Block, z: seq<W>, i: nat): Block
    requires i + 2 <= |z|
  {
    FlLayer(d, z[i + 1], z[i])
  }

  function UnfoldedGroups(s: Sboxes, d: Block, z: seq<W>, n: nat, g: nat): Block
    requires Layout(z, n) && g < n
    decreases g
  {
    var e := UnfoldedSix(s, d, z, 8 * g + 2);
    if g == 0 then e else UnfoldedGroups(s, LayerBefore(e, z, 8 * g), z, n, g - 1)
  }

  function FoldedDecrypt(s: Sboxes, z: seq<W>, n: nat, c: Block): Block
    requires Layout(z, n)
  {
    var d := UnfoldedGroups(s, Block(Xor(c.a, z[8 * n]), c.b), z, n, n - 1);
    Block(Xor(d.b, z[0]), d.a)
  }

  // ---------- what folding does to the subkeys ----------

  /** The mask on the second half when group g starts. */
  function MaskIn(q: seq<W>, n: nat, g: nat): W
    requires Layout(q, n) && g < n
  {
    if g == 0 then q[1] else Carry(q[8 * g - 1], q[8 * g + 1])
  }

  /** The mask on the first half when group g ends. */
  function MaskOut(q: seq<W>, n: nat, g: nat): W
    requires Layout(q, n) && g < n
  {
    if g == n - 1 then q[8 * n + 1] else Carry(q[8 * g + 10], q[8 * g + 8])
  }

  /** Each folded round key is the sum of the keys of the round before and the round after. */
  predicate FoldsGroup(q: seq<W>, z: seq<W>, n: nat, g: nat)
    requires Layout(q, n) && Layout(z, n) && g < n
  {
    var i := 8 * g + 2;
    && z[i] == HalfPInv(Xor(MaskIn(q, n, g), q[i + 1]))
    && z[i + 1] == HalfPInv(Xor(q[i], q[i + 2]))
    && z[i + 2] == HalfPInv(Xor(q[i + 1], q[i + 3]))
    && z[i + 3] == HalfPInv(Xor(q[i + 2], q[i + 4]))
    && z[i + 4] == HalfPInv(Xor(q[i + 3], q[i + 5]))
    && z[i + 5] == HalfPInv(Xor(q[i + 4], MaskOut(q, n, g)))
    && (g < n - 1 ==> z[i + 6] == q[i + 6] && z[i + 7] == q[i + 7])
  }

  predicate Folds(q: seq<W>, z: seq<W>, n: nat) {
    && Layout(q, n) && Layout(z, n)
    && z[0] == Xor(q[0], q[2])
    && z[8 * n] == Xor(q[8 * n], q[8 * n - 1])
    && forall g :: 0 <= g < n ==> FoldsGroup(q, z, n, g)
  }

  // ---------- the folded form computes the cipher ----------

  lemma MaskAlgebra(y: W, p: W, f: W, k: W)
    ensures Xor(Xor(Xor(y, p), f), Xor(p, k)) == Xor(Xor(y, f), k)
  {
    hide Xor;
    Swap(y, p, f);
    Assoc(Xor(y, f), p, Xor(p, k));
    Cancel(p, k);
  }

  /** One folded round on masked halves is one round of the RFC, masked with the next round key. */
  lemma RoundOnMasks(s: Sboxes, x: W, k: W, y: W, p: W, next: W)
    ensures MacroRound(s, Xor(x, k), HalfPInv(Xor(p, next)), Xor(y, p)) == Xor(Xor(y, F(s, x, k)), next)
  {
    RoundAddsKey(s, Xor(x, k), Xor(p, next), Xor(y, p));
    Comm(Xor(x, k), ZERO);
    hide Xor, MacroRound, S, P;
    MaskAlgebra(y, p, F(s, x, k), next);
  }

  lemma SixOnMasks(s: Sboxes, d: Block, q: seq<W>, z: seq<W>, n: nat, g: nat)
    requires Folds(q, z, n) && g < n
    ensures
      var i := 8 * g + 2;
      var e := SixRounds(s, d, q, i);
      FoldedSix(s, Block(Xor(d.a, q[i]), Xor(d.b, MaskIn(q, n, g))), z, i)
      == Block(Xor(e.a, MaskOut(q, n, g)), Xor(e.b, q[i + 5]))
  {
    var i := 8 * g + 2;
    assert FoldsGroup(q, z, n, g);
    hide Xor, MacroRound, F, HalfPInv, MaskIn, MaskOut;
    var p, r := MaskIn(q, n, g), MaskOut(q, n, g);
    RoundOnMasks(s, d.a, q[i], d.b, p, q[i + 1]);
    var b1 := Xor(d.b, F(s, d.a, q[i]));
    RoundOnMasks(s, b1, q[i + 1], d.a, q[i], q[i + 2]);
    var a2 := Xor(d.a, F(s, b1, q[i + 1]));
    RoundOnMasks(s, a2, q[i + 2], b1, q[i + 1], q[i + 3]);
    var b3 := Xor(b1, F(s, a2, q[i + 2]));
    RoundOnMasks(s, b3, q[i + 3], a2, q[i + 2], q[i + 4]);
    var a4 := Xor(a2, F(s, b3, q[i + 3]));
    RoundOnMasks(s, a4, q[i + 4], b3, q[i + 3], q[i + 5]);
    var b5 := Xor(b3, F(s, a4, q[i + 4]));
    RoundOnMasks(s, b5, q[i + 5], a4, q[i + 4], r);
  }

  /** The masked halves that enter group g. */
  function Masked(d: Block, q: seq<W>, n: nat, g: nat): Block
    requires Layout(q, n) && g < n
  {
    Block(Xor(d.a, q[8 * g + 2]), Xor(d.b, MaskIn(q, n, g)))
  }

  /** The FL layer turns the masks of one group into those of the next. */
  lemma LayerOnMasks(s: Sboxes, d: Block, q: seq<W>, z: seq<W>, n: nat, g: nat)
    requires Folds(q, z, n) && g < n - 1
    ensures FoldedGroupAndLayer(s, Masked(d, q, n, g), z, 8 * g + 2)
            == Masked(GroupAndLayer(s, d, q, 8 * g + 2), q, n, g + 1)
  {
    SixOnMasks(s, d, q, z, n, g);
    assert FoldsGroup(q, z, n, g);
    hide Xor, MacroFl, MacroFlInv, Fl, FlInv, Carry, HalfPInv, SixRounds, FoldedSix;
    var e := SixRounds(s, d, q, 8 * g + 2);
    MacroFlIsFl(Xor(e.a, MaskOut(q, n, g)), q[8 * g + 8]);
    MacroFlIsFl(Xor(e.b, q[8 * g + 7]), q[8 * g + 9]);
    FlUncarries(e.a, q[8 * g + 10], q[8 * g + 8]);
    FlInvCarries(e.b, q[8 * g + 7], q[8 * g + 9]);
  }

  lemma LastOnMasks(s: Sboxes, d: Block, q: seq<W>, z: seq<W>, n: nat)
    requires Folds(q, z, n)
    ensures
      var e := SixRounds(s, d, q, 8 * n - 6);
      FoldedSix(s, Masked(d, q, n, n - 1), z, 8 * n - 6) == Block(Xor(e.a, q[8 * n + 1]), Xor(e.b, q[8 * n - 1]))
  {
    hide Xor, FoldsGroup, MaskIn, SixRounds, FoldedSix, Carry;
    SixOnMasks(s, d, q, z, n, n - 1);
  }

  lemma {:induction false} GroupsOnMasks(s: Sboxes, d: Block, q: seq<W>, z: seq<W>, n: nat, g: nat)
    requires Folds(q, z, n) && g < n
    ensures
      var e := Groups(s, d, q, n, g);
      FoldedGroups(s, Masked(d, q, n, g), z, n, g) == Block(Xor(e.a, q[8 * n + 1]), Xor(e.b, q[8 * n - 1]))
    decreases n - g
  {
    hide Xor, Masked, GroupAndLayer, FoldedGroupAndLayer, SixRounds, FoldedSix, FoldsGroup;
    if g == n - 1 {
      LastOnMasks(s, d, q, z, n);
    } else {
      LayerOnMasks(s, d, q, z, n, g);
      GroupsOnMasks(s, GroupAndLayer(s, d, q, 8 * g + 2), q, z, n, g + 1);
    }
  }

  /** Main theorem: with folded subkeys the source encrypts every block as the RFC does. */
  lemma FoldedIsEncrypt(s: Sboxes, q: seq<W>, z: seq<W>, n: nat, m: Block)
    requires Folds(q, z, n)
    ensures FoldedEncrypt(s, z, n, m) == Encrypt(s, q, n, m)
  {
    var d := Block(Xor(m.a, q[0]), Xor(m.b, q[1]));
    GroupsOnMasks(s, d, q, z, n, 0);
    var e := Groups(s, d, q, n, 0);
    hide Xor, Groups, FoldedGroups, FoldsGroup;
    Assoc(m.a, q[0], q[2]);
    Comm(m.b, q[1]);
    Comm(q[1], Xor(q[1], m.b));
    Undo64(m.b, q[1]);
    Undo64(q[8 * n], q[8 * n - 1]);
    Assoc(e.b, q[8 * n - 1], z[8 * n]);
    Comm(q[8 * n - 1], z[8 * n]);
  }

  lemma Undo64(a: W, b: W)
    ensures Xor(Xor(a, b), b) == a
  {
    hide Xor;
    Comm(a, b);
    Comm(Xor(b, a), b);
    Cancel(b, a);
  }

  // ---------- decryption undoes encryption, whatever the subkeys ----------

  function Exchange(d: Block): Block { Block(d.b, d.a) }

  lemma RoundUndone(s: Sboxes, x: W, k: W, y: W)
    ensures MacroRound(s, x, k, MacroRound(s, x, k, y)) == y
  {
    hide X, HalfSum, Rr8, Byte;
    var ir := HalfSum(s.s1(Byte(x.r, 0)), s.s2(Byte(x.r, 24)), s.s3(Byte(x.r, 16)), s.s4(Byte(x.r, 8)));
    var il := HalfSum(s.s1(Byte(x.l, 24)), s.s2(Byte(x.l, 16)), s.s3(Byte(x.l, 8)), s.s4(Byte(x.l, 0)));
    var il' := X(il, k.l);
    var ir' := X(ir, X(il', k.r));
    Undo(y.l, ir');
    Undo(y.r, X(Rr8(il'), ir'));
  }

  lemma SixUndone(s: Sboxes, d: Block, z: seq<W>, i: nat)
    requires i + 6 <= |z|
    ensures UnfoldedSix(s, Exchange(FoldedSix(s, d, z, i)), z, i) == Exchange(d)
  {
    hide MacroRound;
    var b1 := MacroRound(s, d.a, z[i], d.b);
    var a2 := MacroRound(s, b1, z[i + 1], d.a);
    var b3 := MacroRound(s, a2, z[i + 2], b1);
    var a4 := MacroRound(s, b3, z[i + 3], a2);
    var b5 := MacroRound(s, a4, z[i + 4], b3);
    RoundUndone(s, d.a, z[i], d.b);
    RoundUndone(s, b1, z[i + 1], d.a);
    RoundUndone(s, a2, z[i + 2], b1);
    RoundUndone(s, b3, z[i + 3], a2);
    RoundUndone(s, a4, z[i + 4], b3);
    RoundUndone(s, b5, z[i + 5], a4);
  }

  lemma LayerUndone(d: Block, k1: W, k2: W)
    ensures FlLayer(Exchange(FlLayer(d, k1, k2)), k2, k1) == Exchange(d)
  {
    hide MacroFl, MacroFlInv, Fl, FlInv;
    MacroFlIsFl(d.a, k1);
    MacroFlIsFl(d.b, k2);
    MacroFlIsFl(FlInv(d.b, k2), k2);
    MacroFlIsFl(Fl(d.a, k1), k1);
    FlInverse(d.a, k1);
    FlInverse(d.b, k2);
  }

  lemma GroupAndLayerUndone(s: Sboxes, d: Block, z: seq<W>, n: nat, g: nat)
    requires Layout(z, n) && g < n - 1
    ensures UnfoldedSix(s, LayerBefore(Exchange(FoldedGroupAndLayer(s, d, z, 8 * g + 2)), z, 8 * g + 8), z, 8 * g + 2) == Exchange(d)
  {
    SixUndone(s, d, z, 8 * g + 2);
    hide FlLayer, FoldedSix, UnfoldedSix;
    LayerUndone(FoldedSix(s, d, z, 8 * g + 2), z[8 * g + 8], z[8 * g + 9]);
  }

  /** What is left to undo when group g has been undone. */
  function BeforeGroup(s: Sboxes, d: Block, z: seq<W>, n: nat, g: nat): Block
    requires Layout(z, n) && g < n
  {
    if g == 0 then d else UnfoldedGroups(s, LayerBefore(d, z, 8 * g), z, n, g - 1)
  }

  lemma {:induction false} GroupsUndone(s: Sboxes, d: Block, z: seq<W>, n: nat, g: nat)
    requires Layout(z, n) && g < n
    ensures UnfoldedGroups(s, Exchange(FoldedGroups(s, d, z, n, g)), z, n, n - 1) == BeforeGroup(s, Exchange(d), z, n, g)
    decreases n - g
  {
    hide FoldedSix, UnfoldedSix, LayerBefore, FoldedGroupAndLayer, Exchange;
    if g == n - 1 {
      SixUndone(s, d, z, 8 * g + 2);
    } else {
      GroupsUndone(s, FoldedGroupAndLayer(s, d, z, 8 * g + 2), z, n, g + 1);
      GroupAndLayerUndone(s, d, z, n, g);
    }
  }

  lemma DecryptUndoesEncrypt(s: Sboxes, z: seq<W>, n: nat, m: Block)
    requires Layout(z, n)
    ensures FoldedDecrypt(s, z, n, FoldedEncrypt(s, z, n, m)) == m
  {
    hide Xor, FoldedGroups, UnfoldedGroups;
    var x := Block(Xor(m.a, z[0]), m.b);
    var e := FoldedGroups(s, x, z, n, 0);
    GroupsUndone(s, x, z, n, 0);
    Undo64(e.b, z[8 * n]);
    Undo64(m.a, z[0]);
  }
}
