/** How the key setup folds kw2 and kw4 into the other subkeys and prepares them for the rounds. */
module CamelliaFold {
  import opened CamelliaCore
  import opened CamelliaCipher

  /** kw2 on its way through the FLINV layers, as it enters group g. */
  function Mask2(q: seq<W>, g: nat): W
    requires 8 * g + 1 < |q|
  {
    if g == 0 then q[1] else Carry(Mask2(q, g - 1), q[8 * g + 1])
  }

  /** kw4 on its way back through the FL layers, as it leaves group g. */
  function Mask4(q: seq<W>, n: nat, g: nat): W
    requires Layout(q, n) && g < n
    decreases n - g
  {
    if g == n - 1 then q[8 * n + 1] else Carry(Mask4(q, n, g + 1), q[8 * g + 8])
  }

  /** kw2 has gone into the even rounds of the groups before g. */
  predicate Kw2Before(q: seq<W>, s: seq<W>, n: nat, g: nat) {
    && Layout(q, n) && |s| == |q|
    && forall i :: 0 <= i < |q| && i != 1 ==>
         s[i] == if i < 8 * g && i % 8 in {3, 5, 7} then Xor(q[i], Mask2(q, i / 8)) else q[i]
  }

  /** What absorbing both masks makes of subkey i. */
  function Soaked(q: seq<W>, n: nat, i: nat): W
    requires Layout(q, n) && i < |q|
  {
    if i == 8 * n then Xor(q[i], Mask2(q, n - 1))
    else if i == 0 then Xor(q[0], Mask4(q, n, 0))
    else if i < 8 * n && i % 8 in {3, 5, 7} then Xor(q[i], Mask2(q, i / 8))
    else if i < 8 * n && i % 8 in {2, 4, 6} then Xor(q[i], Mask4(q, n, i / 8))
    else q[i]
  }

  /** kw2 has gone everywhere, and kw4 into the odd rounds of the groups from g on. */
  predicate Kw4From(q: seq<W>, s: seq<W>, n: nat, g: nat) {
    && Layout(q, n) && |s| == |q|
    && forall i :: 0 <= i < |q| && i != 1 ==>
         s[i] == if i < 8 * g && i % 8 in {0, 2, 4, 6} then q[i] else if i == 0 then q[0] else Soaked(q, n, i)
  }

  predicate Absorbed(q: seq<W>, s: seq<W>, n: nat) {
    && Layout(q, n) && |s| == |q|
    && forall i :: 0 <= i < |q| && i != 1 ==> s[i] == Soaked(q, n, i)
  }

  // ---------- the steps of camellia_setup128 and camellia_setup256 ----------

  /** Three round keys of a group take the mask. */
  method AddMask(sub: array<W>, i: nat, j: nat, k: nat, mask: W)
    requires i < sub.Length && j < sub.Length && k < sub.Length && i != j && j != k && k != i
    modifies sub
    ensures forall x :: 0 <= x < sub.Length ==> sub[x] == if x in {i, j, k} then Xor(old(sub[x]), mask) else old(sub[x])
  {
    hide Xor;
    sub[i] := Xor(sub[i], mask);
    sub[j] := Xor(sub[j], mask);
    sub[k] := Xor(sub[k], mask);
  }

  lemma GroupOf(i: nat, g: nat)
    requires 8 * g <= i < 8 * g + 8
    ensures i / 8 == g && i % 8 == i - 8 * g
  {
  }

  lemma Kw2Step(q: seq<W>, s: seq<W>, t: seq<W>, n: nat, g: nat)
    requires g < n && Kw2Before(q, s, n, g) && |t| == |s|
    requires forall x :: 0 <= x < |s| ==>
               t[x] == if x in {8 * g + 3, 8 * g + 5, 8 * g + 7} then Xor(s[x], Mask2(q, g)) else s[x]
    ensures Kw2Before(q, t, n, g + 1)
  {
    hide Xor, Mask2;
    forall i | 0 <= i < |q| && i != 1
      ensures t[i] == if i < 8 * (g + 1) && i % 8 in {3, 5, 7} then Xor(q[i], Mask2(q, i / 8)) else q[i]
    {
      if 8 * g <= i < 8 * g + 8 {
        GroupOf(i, g);
      }
    }
  }

  lemma Kw4Step(q: seq<W>, s: seq<W>, t: seq<W>, n: nat, g: nat)
    requires g < n && Kw4From(q, s, n, g + 1) && |t| == |s|
    requires forall x :: 0 <= x < |s| ==>
               t[x] == if x in {8 * g + 6, 8 * g + 4, 8 * g + 2} then Xor(s[x], Mask4(q, n, g)) else s[x]
    ensures Kw4From(q, t, n, g)
  {
    hide Xor, Mask2, Mask4;
    forall i | 0 <= i < |q| && i != 1
      ensures t[i] == if i < 8 * g && i % 8 in {0, 2, 4, 6} then q[i] else if i == 0 then q[0] else Soaked(q, n, i)
    {
      if 8 * g <= i < 8 * g + 8 {
        GroupOf(i, g);
      }
    }
  }

  /** Rounds 2, 4 and 6 of a group take kw2. */
  method AbsorbKw2(sub: array<W>, ghost q: seq<W>, ghost n: nat, g: nat)
    requires g < n && Kw2Before(q, sub[..], n, g) && sub[1] == Mask2(q, g)
    modifies sub
    ensures Kw2Before(q, sub[..], n, g + 1) && sub[1] == Mask2(q, g)
  {
    ghost var s := sub[..];
    assert sub.Length == 8 * n + 2;
    hide Xor, Mask2, Kw2Before;
    AddMask(sub, 8 * g + 3, 8 * g + 5, 8 * g + 7, sub[1]);
    Kw2Step(q, s, sub[..], n, g);
  }

  /** kw2 is modified for the FLINV layer in front of group g. */
  method CarryKw2(sub: array<W>, ghost q: seq<W>, ghost n: nat, g: nat)
    requires 0 < g < n && Kw2Before(q, sub[..], n, g) && sub[1] == Mask2(q, g - 1)
    modifies sub
    ensures Kw2Before(q, sub[..], n, g) && sub[1] == Mask2(q, g)
  {
    hide Xor, Carry;
    sub[1] := Carry(sub[1], sub[8 * g + 1]);
  }

  lemma Kw2End(q: seq<W>, s: seq<W>, t: seq<W>, n: nat)
    requires 0 < n && Kw2Before(q, s, n, n) && |t| == |s|
    requires forall x :: 0 <= x < |s| ==> t[x] == if x == 8 * n then Xor(s[x], Mask2(q, n - 1)) else s[x]
    ensures Kw4From(q, t, n, n)
  {
    hide Xor, Mask2, Mask4;
    GroupOf(8 * n, n);
    GroupOf(8 * n + 1, n);
  }

  method FinishKw2(sub: array<W>, ghost q: seq<W>, n: nat)
    requires 0 < n && Kw2Before(q, sub[..], n, n) && sub[1] == Mask2(q, n - 1)
    modifies sub
    ensures Kw4From(q, sub[..], n, n)
  {
    ghost var s := sub[..];
    assert sub.Length == 8 * n + 2;
    hide Xor, Mask2, Kw2Before, Kw4From;
    sub[8 * n] := Xor(sub[8 * n], sub[1]);
    Kw2End(q, s, sub[..], n);
  }

  /** Rounds 5, 3 and 1 of a group take kw4. */
  method AbsorbKw4(sub: array<W>, ghost q: seq<W>, ghost n: nat, g: nat, kw4: W)
    requires g < n && Kw4From(q, sub[..], n, g + 1) && kw4 == Mask4(q, n, g)
    modifies sub
    ensures Kw4From(q, sub[..], n, g)
  {
    ghost var s := sub[..];
    assert sub.Length == 8 * n + 2;
    hide Xor, Mask4, Kw4From;
    AddMask(sub, 8 * g + 6, 8 * g + 4, 8 * g + 2, kw4);
    Kw4Step(q, s, sub[..], n, g);
  }

  /** kw4 is modified for the FL layer behind group g. */
  method CarryKw4(sub: array<W>, ghost q: seq<W>, ghost n: nat, g: nat, kw4: W) returns (r: W)
    requires g < n - 1 && Kw4From(q, sub[..], n, g + 1) && kw4 == Mask4(q, n, g + 1)
    ensures r == Mask4(q, n, g)
  {
    hide Xor, Carry;
    GroupOf(8 * g + 8, g + 1);
    assert sub[8 * g + 8] == q[8 * g + 8];
    r := Carry(kw4, sub[8 * g + 8]);
  }

  method FinishKw4(sub: array<W>, ghost q: seq<W>, ghost n: nat, kw4: W)
    requires 0 < n && Kw4From(q, sub[..], n, 0) && kw4 == Mask4(q, n, 0)
    modifies sub
    ensures Absorbed(q, sub[..], n)
  {
    hide Xor, Carry;
    sub[0] := Xor(sub[0], kw4);
  }

  /** The second whitening keys of either end go into the subkeys they meet on their way: three groups, for 128-bit keys. */
  method AbsorbFor128(sub: array<W>)
    requires sub.Length == 26
    modifies sub
    ensures Absorbed(old(sub[..]), sub[..], 3)
  {
    hide Xor, Carry, Mask2, Kw2Before, Kw4From, Absorbed;
    ghost var q := sub[..];
    assert Kw2Before(q, sub[..], 3, 0) && sub[1] == Mask2(q, 0) && sub[25] == Mask4(q, 3, 2) by { Begin(q, 3); }
    AbsorbKw2(sub, q, 3, 0);
    CarryKw2(sub, q, 3, 1);
    AbsorbKw2(sub, q, 3, 1);
    CarryKw2(sub, q, 3, 2);
    AbsorbKw2(sub, q, 3, 2);
    FinishKw2(sub, q, 3);
    var kw4 := sub[25];
    assert kw4 == Mask4(q, 3, 2) by { Last(q, sub[..], 3); }
    AbsorbKw4(sub, q, 3, 2, kw4);
    kw4 := CarryKw4(sub, q, 3, 1, kw4);
    AbsorbKw4(sub, q, 3, 1, kw4);
    kw4 := CarryKw4(sub, q, 3, 0, kw4);
    AbsorbKw4(sub, q, 3, 0, kw4);
    FinishKw4(sub, q, 3, kw4);
  }

  /** The same for longer keys, with four groups. */
  method AbsorbFor256(sub: array<W>)
    requires sub.Length == 34
    modifies sub
    ensures Absorbed(old(sub[..]), sub[..], 4)
  {
    hide Xor, Carry, Mask2, Kw2Before, Kw4From, Absorbed;
    ghost var q := sub[..];
    assert Kw2Before(q, sub[..], 4, 0) && sub[1] == Mask2(q, 0) by { Begin(q, 4); }
    AbsorbKw2(sub, q, 4, 0);
    CarryKw2(sub, q, 4, 1);
    AbsorbKw2(sub, q, 4, 1);
    CarryKw2(sub, q, 4, 2);
    AbsorbKw2(sub, q, 4, 2);
    CarryKw2(sub, q, 4, 3);
    AbsorbKw2(sub, q, 4, 3);
    FinishKw2(sub, q, 4);
    var kw4 := sub[33];
    assert kw4 == Mask4(q, 4, 3) by { Last(q, sub[..], 4); }
    AbsorbKw4(sub, q, 4, 3, kw4);
    kw4 := CarryKw4(sub, q, 4, 2, kw4);
    AbsorbKw4(sub, q, 4, 2, kw4);
    kw4 := CarryKw4(sub, q, 4, 1, kw4);
    AbsorbKw4(sub, q, 4, 1, kw4);
    kw4 := CarryKw4(sub, q, 4, 0, kw4);
    AbsorbKw4(sub, q, 4, 0, kw4);
    FinishKw4(sub, q, 4, kw4);
  }

  lemma Begin(q: seq<W>, n: nat)
    requires Layout(q, n)
    ensures Kw2Before(q, q, n, 0) && q[1] == Mask2(q, 0) && q[8 * n + 1] == Mask4(q, n, n - 1)
  {
  }

  lemma Last(q: seq<W>, s: seq<W>, n: nat)
    requires Kw4From(q, s, n, n)
    ensures s[8 * n + 1] == Mask4(q, n, n - 1)
  {
  }

  /** Each subkey of a group becomes the sum of its neighbours in the chain, as rounds now add their key at their end. */
  method XorNeighbours(sub: array<W>, subkey: array<W>, n: nat, g: nat)
    requires sub != subkey && g < n && sub.Length == subkey.Length == 8 * n + 2
    modifies subkey
    ensures forall i :: 0 <= i < subkey.Length && !(8 * g + 2 <= i < 8 * g + 10) ==> subkey[i] == old(subkey[i])
    ensures subkey[8 * g + 2..8 * g + 8] == Neighbours(sub[..], n, g)
    ensures g < n - 1 ==> subkey[8 * g + 8] == sub[8 * g + 8] && subkey[8 * g + 9] == sub[8 * g + 9]
  {
    hide Xor, Carry, Entering, Leaving;
    var i := 8 * g + 2;
    subkey[i] := Entering(sub[..], n, g);
    XorInner(sub, subkey, i);
    subkey[i + 5] := Leaving(sub[..], n, g);
    if g < n - 1 {
      subkey[i + 6] := sub[i + 6];
      subkey[i + 7] := sub[i + 7];
    }
  }

  method XorInner(sub: array<W>, subkey: array<W>, i: nat)
    requires sub != subkey && sub.Length == subkey.Length && i + 6 <= sub.Length
    modifies subkey
    ensures subkey[..] == old(subkey[..])[i + 1 := Xor(sub[i], sub[i + 2])][i + 2 := Xor(sub[i + 1], sub[i + 3])]
                          [i + 3 := Xor(sub[i + 2], sub[i + 4])][i + 4 := Xor(sub[i + 3], sub[i + 5])]
  {
    hide Xor;
    subkey[i + 1] := Xor(sub[i], sub[i + 2]);
    subkey[i + 2] := Xor(sub[i + 1], sub[i + 3]);
    subkey[i + 3] := Xor(sub[i + 2], sub[i + 4]);
    subkey[i + 4] := Xor(sub[i + 3], sub[i + 5]);
  }

  /** The key of the first round of a group: across the FL layer in front, if there is one. */
  function Entering(s: seq<W>, n: nat, g: nat): W
    requires |s| == 8 * n + 2 && g < n
  {
    var i := 8 * g + 2;
    if g == 0 then s[i + 1] else Xor(Carry(s[i - 3], s[i - 1]), s[i + 1])
  }

  /** The key of the last round of a group. */
  function Leaving(s: seq<W>, n: nat, g: nat): W
    requires |s| == 8 * n + 2 && g < n
  {
    var i := 8 * g + 2;
    if g < n - 1 then Xor(s[i + 4], Carry(s[i + 8], s[i + 6])) else s[i + 4]
  }

  /** The six round keys of a group before the last step. */
  function Neighbours(s: seq<W>, n: nat, g: nat): (r: seq<W>)
    requires |s| == 8 * n + 2 && g < n
    ensures |r| == 6
  {
    var i := 8 * g + 2;
    [Entering(s, n, g), Xor(s[i], s[i + 2]), Xor(s[i + 1], s[i + 3]), Xor(s[i + 2], s[i + 4]), Xor(s[i + 3], s[i + 5]), Leaving(s, n, g)]
  }

  /** The three subkeys from i on are taken back through the second half of P. */
  method UndoHalfP(subkey: array<W>, i: nat)
    requires i + 3 <= subkey.Length
    modifies subkey
    ensures forall x :: 0 <= x < subkey.Length ==> subkey[x] == if i <= x < i + 3 then HalfPInv(old(subkey[x])) else old(subkey[x])
  {
    hide HalfPInv;
    subkey[i] := HalfPInv(subkey[i]);
    subkey[i + 1] := HalfPInv(subkey[i + 1]);
    subkey[i + 2] := HalfPInv(subkey[i + 2]);
  }

  method PrepareGroup(sub: array<W>, subkey: array<W>, n: nat, g: nat)
    requires sub != subkey && g < n && sub.Length == subkey.Length == 8 * n + 2
    modifies subkey
    requires PreparedBefore(sub[..], subkey[..], n, g)
    ensures PreparedBefore(sub[..], subkey[..], n, g + 1)
  {
    ghost var s, z := sub[..], subkey[..];
    XorNeighbours(sub, subkey, n, g);
    hide HalfPInv, Neighbours, PreparedBefore;
    ghost var nb := Neighbours(sub[..], n, g);
    assert forall j :: 0 <= j < 6 ==> subkey[8 * g + 2 + j] == subkey[8 * g + 2..8 * g + 8][j] == nb[j];
    UndoHalfP(subkey, 8 * g + 2);
    UndoHalfP(subkey, 8 * g + 5);
    assert Prepared(s, subkey[..], n, g);
    OneMorePrepared(s, z, subkey[..], n, g);
  }

  /** The groups before g are prepared. */
  predicate PreparedBefore(s: seq<W>, z: seq<W>, n: nat, g: nat)
    requires |s| == |z| == 8 * n + 2 && g <= n
  {
    forall h :: 0 <= h < g ==> Prepared(s, z, n, h)
  }

  lemma OneMorePrepared(s: seq<W>, z: seq<W>, z': seq<W>, n: nat, g: nat)
    requires |s| == |z| == |z'| == 8 * n + 2 && g < n
    requires PreparedBefore(s, z, n, g) && Prepared(s, z', n, g)
    requires forall i :: 2 <= i < 8 * g + 2 ==> z'[i] == z[i]
    ensures PreparedBefore(s, z', n, g + 1)
  {
    hide Neighbours, HalfPInv;
    forall h | 0 <= h < g ensures Prepared(s, z', n, h) {
      assert Prepared(s, z, n, h);
    }
  }

  /** The prepared subkeys of a group in terms of the soaked ones. */
  predicate Prepared(s: seq<W>, z: seq<W>, n: nat, g: nat)
    requires |s| == |z| == 8 * n + 2 && g < n
  {
    && (forall j :: 0 <= j < 6 ==> z[8 * g + 2 + j] == HalfPInv(Neighbours(s, n, g)[j]))
    && (g < n - 1 ==> z[8 * g + 8] == s[8 * g + 8] && z[8 * g + 9] == s[8 * g + 9])
  }

  lemma SoakedAt(q: seq<W>, s: seq<W>, n: nat, g: nat)
    requires Absorbed(q, s, n) && g < n
    ensures s[8 * g + 2] == Xor(q[8 * g + 2], Mask4(q, n, g)) && s[8 * g + 3] == Xor(q[8 * g + 3], Mask2(q, g))
    ensures s[8 * g + 4] == Xor(q[8 * g + 4], Mask4(q, n, g)) && s[8 * g + 5] == Xor(q[8 * g + 5], Mask2(q, g))
    ensures s[8 * g + 6] == Xor(q[8 * g + 6], Mask4(q, n, g)) && s[8 * g + 7] == Xor(q[8 * g + 7], Mask2(q, g))
    ensures g < n - 1 ==> s[8 * g + 8] == q[8 * g + 8] && s[8 * g + 9] == q[8 * g + 9]
  {
    hide Xor, Mask2, Mask4;
    GroupOf(8 * g + 2, g);
    GroupOf(8 * g + 3, g);
    GroupOf(8 * g + 4, g);
    GroupOf(8 * g + 5, g);
    GroupOf(8 * g + 6, g);
    GroupOf(8 * g + 7, g);
    GroupOf(8 * g + 8, g + 1);
    GroupOf(8 * g + 9, g + 1);
  }

  /** The masks cancel: soaking and preparing a group gives the folded round keys. */
  lemma SoakedGroupFolds(q: seq<W>, s: seq<W>, z: seq<W>, n: nat, g: nat)
    requires Absorbed(q, s, n) && |z| == |s| && g < n && Prepared(s, z, n, g)
    ensures FoldsGroup(q, z, n, g)
  {
    assert Layout(q, n) && |s| == |q|;
    hide Xor, Carry, HalfPInv, Absorbed, Mask2, Mask4, MaskIn, MaskOut;
    var i := 8 * g + 2;
    var m2, m4 := Mask2(q, g), Mask4(q, n, g);
    SoakedAt(q, s, n, g);
    DropMask(q[i], q[i + 2], m4);
    DropMask(q[i + 1], q[i + 3], m2);
    DropMask(q[i + 2], q[i + 4], m4);
    DropMask(q[i + 3], q[i + 5], m2);
    FirstKey(q, s, n, g);
    LastKey(q, s, n, g);
    var nb := Neighbours(s, n, g);
    assert z[i + 0] == HalfPInv(nb[0]) && z[i + 1] == HalfPInv(nb[1]) && z[i + 2] == HalfPInv(nb[2]);
    assert z[i + 3] == HalfPInv(nb[3]) && z[i + 4] == HalfPInv(nb[4]) && z[i + 5] == HalfPInv(nb[5]);
  }

  lemma FirstKey(q: seq<W>, s: seq<W>, n: nat, g: nat)
    requires Absorbed(q, s, n) && g < n
    ensures Entering(s, n, g) == Xor(MaskIn(q, n, g), q[8 * g + 3])
  {
    hide Xor, Carry;
    if g == 0 {
      Comm(q[3], q[1]);
    } else {
      CarryAdds(q[8 * g - 1], Mask2(q, g - 1), q[8 * g + 1]);
      DropMask(MaskIn(q, n, g), q[8 * g + 3], Mask2(q, g));
    }
  }

  lemma LastKey(q: seq<W>, s: seq<W>, n: nat, g: nat)
    requires Absorbed(q, s, n) && g < n
    ensures Leaving(s, n, g) == Xor(q[8 * g + 6], MaskOut(q, n, g))
  {
    hide Xor, Carry;
    if g < n - 1 {
      CarryAdds(q[8 * g + 10], Mask4(q, n, g + 1), q[8 * g + 8]);
      DropMask(q[8 * g + 6], MaskOut(q, n, g), Mask4(q, n, g));
    }
  }

  lemma EndsFold(q: seq<W>, s: seq<W>, n: nat)
    requires Absorbed(q, s, n)
    ensures Xor(s[0], s[2]) == Xor(q[0], q[2])
    ensures Xor(s[8 * n], s[8 * n - 1]) == Xor(q[8 * n], q[8 * n - 1])
  {
    hide Xor, Carry;
    DropMask(q[0], q[2], Mask4(q, n, 0));
    DropMask(q[8 * n], q[8 * n - 1], Mask2(q, n - 1));
  }

  method FinishFold(sub: array<W>, subkey: array<W>, ghost q: seq<W>, n: nat)
    requires sub != subkey && sub.Length == subkey.Length == 8 * n + 2
    requires Absorbed(q, sub[..], n) && PreparedBefore(sub[..], subkey[..], n, n)
    modifies subkey
    ensures Folds(q, subkey[..], n)
  {
    hide Xor, Prepared, Absorbed;
    ghost var s, z := sub[..], subkey[..];
    AbsorbedLayout(q, s, n);
    subkey[0] := Xor(sub[0], sub[2]);
    subkey[8 * n] := Xor(sub[8 * n], sub[8 * n - 1]);
    EndsStayPrepared(s, z, subkey[..], n);
    AllFold(q, s, subkey[..], n);
  }

  lemma AbsorbedLayout(q: seq<W>, s: seq<W>, n: nat)
    requires Absorbed(q, s, n)
    ensures Layout(q, n)
  {
    hide Soaked;
  }

  lemma EndsStayPrepared(s: seq<W>, z: seq<W>, z': seq<W>, n: nat)
    requires |s| == |z| == |z'| == 8 * n + 2 && PreparedBefore(s, z, n, n)
    requires forall i :: 2 <= i < 8 * n ==> z'[i] == z[i]
    ensures PreparedBefore(s, z', n, n)
  {
    hide Neighbours, HalfPInv;
    forall h | 0 <= h < n ensures Prepared(s, z', n, h) {
      assert Prepared(s, z, n, h);
    }
  }

  /** From the unfolded subkeys of a 128-bit key to the key table. */
  method FoldFor128(sub: array<W>, subkey: array<W>)
    requires sub != subkey && sub.Length == subkey.Length == 26
    modifies sub, subkey
    ensures Folds(old(sub[..]), subkey[..], 3)
  {
    ghost var q := sub[..];
    AbsorbFor128(sub);
    assert PreparedBefore(sub[..], subkey[..], 3, 0);
    hide Xor, Prepared, PreparedBefore, Absorbed, Folds;
    PrepareGroup(sub, subkey, 3, 0);
    PrepareGroup(sub, subkey, 3, 1);
    PrepareGroup(sub, subkey, 3, 2);
    FinishFold(sub, subkey, q, 3);
  }

  /** The same for longer keys. */
  method FoldFor256(sub: array<W>, subkey: array<W>)
    requires sub != subkey && sub.Length == subkey.Length == 34
    modifies sub, subkey
    ensures Folds(old(sub[..]), subkey[..], 4)
  {
    ghost var q := sub[..];
    AbsorbFor256(sub);
    assert PreparedBefore(sub[..], subkey[..], 4, 0);
    hide Xor, Prepared, PreparedBefore, Absorbed, Folds;
    PrepareGroup(sub, subkey, 4, 0);
    PrepareGroup(sub, subkey, 4, 1);
    PrepareGroup(sub, subkey, 4, 2);
    PrepareGroup(sub, subkey, 4, 3);
    FinishFold(sub, subkey, q, 4);
  }

  lemma AllFold(q: seq<W>, s: seq<W>, z: seq<W>, n: nat)
    requires Absorbed(q, s, n) && |z| == |s| == 8 * n + 2
    requires z[0] == Xor(s[0], s[2]) && z[8 * n] == Xor(s[8 * n], s[8 * n - 1])
    requires PreparedBefore(s, z, n, n)
    ensures Folds(q, z, n)
  {
    EndsFold(q, s, n);
    assert Layout(q, n) && Layout(z, n);
    hide Xor, Absorbed, Prepared, FoldsGroup;
    forall g | 0 <= g < n ensures FoldsGroup(q, z, n, g) {
      SoakedGroupFolds(q, s, z, n, g);
    }
  }
}
