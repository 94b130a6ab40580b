/** Bios that submit bios: the order in which a queue serves them. */
module BioOrder {
  /** A bio with the bios its make_request callback will submit. */
  datatype Tree = Tree(id: nat, kids: seq<Tree>)

  function Size(t: Tree): nat
    decreases t
  {
    1 + Sizes(t.kids)
  }

  function Sizes(ts: seq<Tree>): nat
    decreases ts
  {
    if ts == [] then 0 else Size(ts[0]) + Sizes(ts[1..])
  }

  lemma {:induction false} SizesOfBoth(a: seq<Tree>, b: seq<Tree>)
    ensures Sizes(a + b) == Sizes(a) + Sizes(b)
  {
    if a == [] {
      assert a + b == b;
    } else {
      SizesOfBoth(a[1..], b);
      assert (a + b)[1..] == a[1..] + b;
    }
  }

  lemma SizesOf(ts: seq<Tree>)
    requires ts != []
    ensures Sizes(ts) == 1 + Sizes(ts[0].kids) + Sizes(ts[1..]) == 1 + Sizes(ts[1..] + ts[0].kids)
  {
    SizesOfBoth(ts[1..], ts[0].kids);
    assert Size(ts[0]) == 1 + Sizes(ts[0].kids);
  }

  /** What a first-in first-out list of bios leads to: each is served, and what it submits goes to the end. */
  function Served(ts: seq<Tree>): seq<nat>
    decreases Sizes(ts)
  {
    if ts == [] then []
    else
      SizesOf(ts);
      [ts[0].id] + Served(ts[1..] + ts[0].kids)
  }

  // ---------- level by level ----------

  function Ids(ts: seq<Tree>): (r: seq<nat>)
    ensures |r| == |ts|
  {
    if ts == [] then [] else [ts[0].id] + Ids(ts[1..])
  }

  /** All that a level submits, in order. */
  function Below(ts: seq<Tree>): seq<Tree>
    ensures Sizes(Below(ts)) + |ts| == Sizes(ts)
  {
    if ts == [] then []
    else
      SizesOf(ts);
      SizesOfBoth(ts[0].kids, Below(ts[1..]));
      ts[0].kids + Below(ts[1..])
  }

  /** Breadth first: a whole level before the one below it. */
  function Levels(ts: seq<Tree>): seq<nat>
    decreases Sizes(ts)
  {
    if ts == [] then [] else Ids(ts) + Levels(Below(ts))
  }

  lemma ServedStep(a: seq<Tree>, b: seq<Tree>)
    requires a != []
    ensures Served(a + b) == [a[0].id] + Served(a[1..] + (b + a[0].kids))
  {
    assert (a + b)[1..] + a[0].kids == a[1..] + (b + a[0].kids);
  }

  lemma {:induction false} LevelFirst(a: seq<Tree>, b: seq<Tree>)
    ensures Served(a + b) == Ids(a) + Served(b + Below(a))
  {
    if a == [] {
      assert a + b == b && b + Below(a) == b;
    } else {
      var rest, kids := a[1..], a[0].kids;
      ServedStep(a, b);
      LevelFirst(rest, b + kids);
      assert b + kids + Below(rest) == b + (kids + Below(rest));
      hide Served;
      Associates(a[0].id, Ids(rest), Served(b + Below(a)));
    }
  }

  lemma Associates(x: nat, a: seq<nat>, b: seq<nat>)
    ensures [x] + (a + b) == ([x] + a) + b
  {
  }

  /** First in, first out is breadth first. */
  lemma {:induction false} ServedByLevels(ts: seq<Tree>)
    ensures Served(ts) == Levels(ts)
    decreases Sizes(ts)
  {
    if ts != [] {
      LevelFirst(ts, []);
      assert ts + [] == ts && [] + Below(ts) == Below(ts);
      ServedByLevels(Below(ts));
    }
  }

  // ---------- exactly once ----------

  /** Every bio of the trees, each tree depth first. */
  function Members(ts: seq<Tree>): seq<nat>
    decreases ts
  {
    if ts == [] then [] else [ts[0].id] + Members(ts[0].kids) + Members(ts[1..])
  }

  lemma {:induction false} MembersOfBoth(a: seq<Tree>, b: seq<Tree>)
    ensures Members(a + b) == Members(a) + Members(b)
  {
    if a == [] {
      assert a + b == b;
    } else {
      MembersOfBoth(a[1..], b);
      assert (a + b)[1..] == a[1..] + b;
    }
  }

  /** Every bio is served exactly as often as it occurs. */
  lemma {:induction false} ServedOnce(ts: seq<Tree>)
    ensures multiset(Served(ts)) == multiset(Members(ts)) && |Served(ts)| == Sizes(ts)
    decreases Sizes(ts)
  {
    if ts != [] {
      var rest, kids := ts[1..], ts[0].kids;
      SizesOf(ts);
      ServedOnce(rest + kids);
      MembersOfBoth(rest, kids);
      assert Served(ts) == [ts[0].id] + Served(rest + kids);
      assert Members(ts) == [ts[0].id] + Members(kids) + Members(rest);
    }
  }
}
