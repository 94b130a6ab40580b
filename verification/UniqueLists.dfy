/** Lists of identifiers without repetition. */
module UniqueLists {
  predicate Unique(xs: seq<nat>) {
    forall i, j :: 0 <= i < j < |xs| ==> xs[i] != xs[j]
  }

  function Without(xs: seq<nat>, q: nat): (r: seq<nat>)
  {
    if xs == [] then [] else if xs[0] == q then xs[1..] else [xs[0]] + Without(xs[1..], q)
  }

  lemma {:induction false} WithoutIs(xs: seq<nat>, q: nat)
    requires Unique(xs)
    ensures Unique(Without(xs, q)) && q !in Without(xs, q)
    ensures forall x :: x in Without(xs, q) <==> x in xs && x != q
    ensures |Without(xs, q)| == if q in xs then |xs| - 1 else |xs|
    ensures xs != [] && xs[0] != q ==> Without(xs, q) != [] && Without(xs, q)[0] == xs[0]
  {
    if xs != [] && xs[0] != q {
      WithoutIs(xs[1..], q);
      var r := Without(xs[1..], q);
      forall i, j | 0 <= i < j < |r| + 1 ensures ([xs[0]] + r)[i] != ([xs[0]] + r)[j] {
        if i == 0 {
          assert r[j - 1] in xs[1..];
        }
      }
    }
  }

  lemma WithIs(xs: seq<nat>, i: nat, q: nat)
    requires Unique(xs) && i <= |xs| && q !in xs
    ensures var r := xs[..i] + [q] + xs[i..];
            && Unique(r) && |r| == |xs| + 1 && (forall x :: x in r <==> x in xs || x == q)
            && r[0] == (if i == 0 then q else xs[0])
  {
    var r := xs[..i] + [q] + xs[i..];
    assert forall k :: 0 <= k < |r| ==> r[k] == if k < i then xs[k] else if k == i then q else xs[k - 1];
    forall x ensures x in r <==> x in xs || x == q {
      if x in xs {
        var k :| 0 <= k < |xs| && xs[k] == x;
        assert r[if k < i then k else k + 1] == x;
      }
      if x == q {
        assert r[i] == q;
      }
    }
  }

  /** The place from which Without takes q. */
  lemma {:induction false} WithoutCuts(xs: seq<nat>, q: nat) returns (i: nat)
    ensures i <= |xs| && Without(xs, q) == xs[..i] + xs[if i < |xs| then i + 1 else i..]
  {
    if xs == [] || xs[0] == q {
      i := 0;
    } else {
      var k := WithoutCuts(xs[1..], q);
      i := k + 1;
    }
  }
}
