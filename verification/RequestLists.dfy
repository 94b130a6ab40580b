/** A list of requests in sector order beside the same requests in FIFO order, as every I/O scheduler keeps them. */
module RequestLists {
  /** A request in the sort list, and the same request in the FIFO. */
  datatype Node = Node(id: nat, sector: nat, nr: nat)
  datatype Wait = Wait(id: nat, expire: int)

  datatype Next = None | Some(id: nat)

  function Rank(q: seq<Node>, id: nat): (i: nat)
    ensures i <= |q|
    ensures i < |q| ==> q[i].id == id
    ensures forall k :: 0 <= k < i ==> q[k].id != id
  {
    if q == [] || q[0].id == id then 0 else Rank(q[1..], id) + 1
  }

  function Turn(f: seq<Wait>, id: nat): (i: nat)
    ensures i <= |f|
    ensures i < |f| ==> f[i].id == id
    ensures forall k :: 0 <= k < i ==> f[k].id != id
  {
    if f == [] || f[0].id == id then 0 else Turn(f[1..], id) + 1
  }

  predicate InSort(q: seq<Node>, id: nat) { exists k :: 0 <= k < |q| && q[k].id == id }

  predicate InFifo(f: seq<Wait>, id: nat) { exists k :: 0 <= k < |f| && f[k].id == id }

  function Cut<T>(q: seq<T>, i: nat): (r: seq<T>)
    requires i < |q|
    ensures |r| == |q| - 1
    ensures forall k :: 0 <= k < |r| ==> r[k] == if k < i then q[k] else q[k + 1]
  {
    q[..i] + q[i + 1..]
  }

  function Put<T>(q: seq<T>, i: nat, x: T): (r: seq<T>)
    requires i <= |q|
    ensures |r| == |q| + 1
    ensures forall k :: 0 <= k < |r| ==> r[k] == if k < i then q[k] else if k == i then x else q[k - 1]
  {
    q[..i] + [x] + q[i..]
  }

  /** The request after id in sector order. */
  function Latter(q: seq<Node>, id: nat): Next {
    var i := Rank(q, id);
    if i + 1 < |q| then Some(q[i + 1].id) else None
  }

  /** Where a sector belongs in a sort list. */
  function Place(q: seq<Node>, sector: nat): (i: nat)
    ensures i <= |q|
    ensures forall k :: 0 <= k < i ==> q[k].sector < sector
    ensures i < |q| ==> q[i].sector >= sector
  {
    if q == [] || q[0].sector >= sector then 0 else Place(q[1..], sector) + 1
  }

  predicate HasAlias(q: seq<Node>, sector: nat) {
    var i := Place(q, sector);
    i < |q| && q[i].sector == sector
  }

  /** The request at the same sector, if there is one, is in the FIFO too. */
  predicate AliasQueued(q: seq<Node>, f: seq<Wait>, sector: nat) {
    HasAlias(q, sector) ==>
      var i := Place(q, sector);
      Rank(q, q[i].id) == i && Turn(f, q[i].id) < |f|
  }

  // ---------- both lists hold the same requests ----------

  predicate Sorted(q: seq<Node>) {
    forall i, j :: 0 <= i < j < |q| ==> q[i].sector < q[j].sector
  }

  predicate UniqueSort(q: seq<Node>) {
    forall i, j :: 0 <= i < j < |q| ==> q[i].id != q[j].id
  }

  predicate UniqueFifo(f: seq<Wait>) {
    forall i, j :: 0 <= i < j < |f| ==> f[i].id != f[j].id
  }

  ghost predicate SameIds(q: seq<Node>, f: seq<Wait>) {
    forall id: nat :: InSort(q, id) <==> InFifo(f, id)
  }

  ghost predicate Agree(q: seq<Node>, f: seq<Wait>) {
    Sorted(q) && UniqueSort(q) && UniqueFifo(f) && SameIds(q, f)
  }

  lemma RankOf(q: seq<Node>, k: nat)
    requires UniqueSort(q) && k < |q|
    ensures Rank(q, q[k].id) == k && InSort(q, q[k].id)
  {
  }

  lemma RankIn(q: seq<Node>, id: nat)
    ensures Rank(q, id) < |q| <==> InSort(q, id)
  {
    var i := Rank(q, id);
    if i < |q| {
      assert q[i].id == id;
    }
  }

  lemma TurnIn(f: seq<Wait>, id: nat)
    ensures Turn(f, id) < |f| <==> InFifo(f, id)
  {
    var i := Turn(f, id);
    if i < |f| {
      assert f[i].id == id;
    }
  }

  lemma CutSort(q: seq<Node>, i: nat, id: nat)
    requires UniqueSort(q) && i < |q|
    ensures UniqueSort(Cut(q, i)) && (Sorted(q) ==> Sorted(Cut(q, i)))
    ensures InSort(Cut(q, i), id) <==> InSort(q, id) && id != q[i].id
  {
    var r := Cut(q, i);
    if InSort(q, id) && id != q[i].id {
      var k :| 0 <= k < |q| && q[k].id == id;
      assert r[if k < i then k else k - 1].id == id;
    }
    if InSort(r, id) {
      var k :| 0 <= k < |r| && r[k].id == id;
      assert q[if k < i then k else k + 1].id == id;
    }
  }

  lemma CutFifo(f: seq<Wait>, i: nat, id: nat)
    requires UniqueFifo(f) && i < |f|
    ensures UniqueFifo(Cut(f, i))
    ensures InFifo(Cut(f, i), id) <==> InFifo(f, id) && id != f[i].id
  {
    var r := Cut(f, i);
    if InFifo(f, id) && id != f[i].id {
      var k :| 0 <= k < |f| && f[k].id == id;
      assert r[if k < i then k else k - 1].id == id;
    }
    if InFifo(r, id) {
      var k :| 0 <= k < |r| && r[k].id == id;
      assert f[if k < i then k else k + 1].id == id;
    }
  }

  lemma PutSort(q: seq<Node>, i: nat, x: Node, id: nat)
    requires UniqueSort(q) && i <= |q| && !InSort(q, x.id)
    ensures UniqueSort(Put(q, i, x))
    ensures InSort(Put(q, i, x), id) <==> InSort(q, id) || id == x.id
  {
    var r := Put(q, i, x);
    assert r[i] == x;
    if InSort(q, id) {
      var k :| 0 <= k < |q| && q[k].id == id;
      assert r[if k < i then k else k + 1].id == id;
    }
    if InSort(r, id) && id != x.id {
      var k :| 0 <= k < |r| && r[k].id == id;
      assert q[if k < i then k else k - 1].id == id;
    }
  }

  lemma PutFifo(f: seq<Wait>, i: nat, x: Wait, id: nat)
    requires UniqueFifo(f) && i <= |f| && !InFifo(f, x.id)
    ensures UniqueFifo(Put(f, i, x))
    ensures InFifo(Put(f, i, x), id) <==> InFifo(f, id) || id == x.id
  {
    var r := Put(f, i, x);
    assert r[i] == x;
    if InFifo(f, id) {
      var k :| 0 <= k < |f| && f[k].id == id;
      assert r[if k < i then k else k + 1].id == id;
    }
    if InFifo(r, id) && id != x.id {
      var k :| 0 <= k < |r| && r[k].id == id;
      assert f[if k < i then k else k - 1].id == id;
    }
  }

  /** Taking a request off both lists. */
  lemma AgreeCut(q: seq<Node>, f: seq<Wait>, id: nat)
    requires Agree(q, f) && Rank(q, id) < |q|
    ensures Turn(f, id) < |f| && Agree(Cut(q, Rank(q, id)), Cut(f, Turn(f, id)))
  {
    RankIn(q, id);
    TurnIn(f, id);
    var i, j := Rank(q, id), Turn(f, id);
    forall x: nat ensures InSort(Cut(q, i), x) <==> InFifo(Cut(f, j), x) {
      CutSort(q, i, x);
      CutFifo(f, j, x);
    }
    CutSort(q, i, 0);
    CutFifo(f, j, 0);
  }

  /** Inserting at the place of a sector that is free keeps the list in order. */
  lemma SortedPut(q: seq<Node>, x: Node)
    requires Sorted(q) && !HasAlias(q, x.sector)
    ensures Sorted(Put(q, Place(q, x.sector), x))
  {
    var i := Place(q, x.sector);
    var r := Put(q, i, x);
    hide Place;
    forall k | 0 <= k < |q| ensures if k < i then q[k].sector < x.sector else x.sector < q[k].sector {
    }
  }

  /** The next request in sector order is another queued one. */
  lemma LatterQueued(q: seq<Node>, id: nat)
    requires UniqueSort(q) && Rank(q, id) < |q| && Latter(q, id).Some?
    ensures InSort(q, Latter(q, id).id) && Latter(q, id).id != id
  {
    var i := Rank(q, id);
    assert q[i + 1].id == Latter(q, id).id;
  }

  /** The FIFO holds what the sort list holds, and perhaps request id besides. */
  ghost predicate SameBut(q: seq<Node>, f: seq<Wait>, id: nat, extra: bool) {
    && Sorted(q) && UniqueSort(q) && UniqueFifo(f) && !InSort(q, id) && (InFifo(f, id) <==> extra)
    && forall x: nat :: x != id ==> (InSort(q, x) <==> InFifo(f, x))
  }

  lemma SameButCut(q: seq<Node>, f: seq<Wait>, id: nat, extra: bool, a: nat)
    requires SameBut(q, f, id, extra) && Rank(q, a) < |q|
    ensures a != id && Turn(f, a) < |f| && SameBut(Cut(q, Rank(q, a)), Cut(f, Turn(f, a)), id, extra)
  {
    RankIn(q, a);
    TurnIn(f, a);
    var i, j := Rank(q, a), Turn(f, a);
    forall x: nat ensures (InSort(Cut(q, i), x) <==> InSort(q, x) && x != a) && (InFifo(Cut(f, j), x) <==> InFifo(f, x) && x != a) {
      CutSort(q, i, x);
      CutFifo(f, j, x);
    }
    CutSort(q, i, 0);
    CutFifo(f, j, 0);
  }

  lemma SameButPut(q: seq<Node>, f: seq<Wait>, x: Node, extra: bool)
    requires SameBut(q, f, x.id, extra) && !HasAlias(q, x.sector)
    ensures var r := Put(q, Place(q, x.sector), x);
            && Sorted(r) && UniqueSort(r)
            && forall id: nat :: InSort(r, id) <==> id == x.id || InFifo(f, id)
  {
    var i := Place(q, x.sector);
    var r := Put(q, i, x);
    SortedPut(q, x);
    PutSort(q, i, x, 0);
    forall id: nat ensures InSort(r, id) <==> InSort(q, id) || id == x.id {
      PutSort(q, i, x, id);
    }
  }

  /** After the request at the same sector has gone the sector is free, and its place is still the right one. */
  lemma ClearedPlace(q: seq<Node>, sector: nat)
    requires Sorted(q) && HasAlias(q, sector)
    ensures var i := Place(q, sector); var r := Cut(q, i); !HasAlias(r, sector) && Place(r, sector) == i
  {
    var i := Place(q, sector);
    var r := Cut(q, i);
    var j := Place(r, sector);
    assert forall k :: 0 <= k < |r| ==> if k < i then r[k].sector < sector else r[k].sector > sector;
    hide Place;
    if j < |r| {
      var atPlace := r[j];
    }
    if i < |r| {
      var behind := r[i];
    }
  }

  /** The lists of direction d after AddRb, in terms of those before. */
  ghost predicate AddedTo(q: seq<Node>, f: seq<Wait>, q': seq<Node>, f': seq<Wait>, id: nat, extra: bool) {
    && Sorted(q') && UniqueSort(q') && UniqueFifo(f') && (InFifo(f', id) <==> extra)
    && (forall x: nat :: InSort(q', x) <==> x == id || InFifo(f', x))
    && (f' == f || exists j :: 0 <= j < |f| && f' == Cut(f, j))
  }

  lemma AgreeIsSameBut(q: seq<Node>, f: seq<Wait>, id: nat)
    requires Agree(q, f) && !InSort(q, id)
    ensures SameBut(q, f, id, false)
  {
  }

  /** A wait at the end of the FIFO completes the request's entry. */
  lemma AppendWait(q: seq<Node>, f: seq<Wait>, q': seq<Node>, f': seq<Wait>, w: Wait)
    requires AddedTo(q, f, q', f', w.id, false)
    ensures Agree(q', f' + [w])
  {
    forall x: nat ensures InFifo(f' + [w], x) <==> InFifo(f', x) || x == w.id {
      var r := f' + [w];
      assert r[|f'|] == w;
      if InFifo(f', x) {
        var k :| 0 <= k < |f'| && f'[k].id == x;
        assert r[k].id == x;
      }
    }
    forall i, j | 0 <= i < j < |f'| + 1 ensures (f' + [w])[i].id != (f' + [w])[j].id {
      if j == |f'| {
        assert InFifo(f', f'[i].id);
      }
    }
  }

  lemma SameSectors(q: seq<Node>, i: nat, rq: Node, id: nat)
    requires i < |q| && rq.id == q[i].id && rq.sector == q[i].sector && Sorted(q) && UniqueSort(q)
    ensures Sorted(q[i := rq]) && UniqueSort(q[i := rq]) && (InSort(q[i := rq], id) <==> InSort(q, id))
    ensures Rank(q[i := rq], id) < |q| <==> Rank(q, id) < |q|
  {
    var r := q[i := rq];
    assert forall k :: 0 <= k < |q| ==> r[k].id == q[k].id && r[k].sector == q[k].sector;
    SameNames(q, r, id);
    RankIn(q, id);
    RankIn(r, id);
    hide InSort, Rank;
  }

  lemma SameNames(q: seq<Node>, r: seq<Node>, id: nat)
    requires |q| == |r| && forall k :: 0 <= k < |q| ==> r[k].id == q[k].id
    ensures InSort(r, id) <==> InSort(q, id)
  {
    if InSort(q, id) {
      var k :| 0 <= k < |q| && q[k].id == id;
      assert r[k].id == id;
    }
  }

  /** The request has grown at its end: the lists agree as before. */
  lemma GrownAgree(q: seq<Node>, f: seq<Wait>, i: nat, rq: Node)
    requires Agree(q, f) && i < |q| && rq.id == q[i].id && rq.sector == q[i].sector
    ensures Agree(q[i := rq], f)
    ensures forall x: nat :: InSort(q[i := rq], x) <==> InSort(q, x)
    ensures forall x: nat :: Rank(q[i := rq], x) < |q| <==> Rank(q, x) < |q|
  {
    var r := q[i := rq];
    SameSectors(q, i, rq, 0);
    hide InSort, InFifo, Rank, Sorted, UniqueSort, UniqueFifo;
    forall x: nat ensures (InSort(r, x) <==> InSort(q, x)) && (Rank(r, x) < |q| <==> Rank(q, x) < |q|) {
      SameSectors(q, i, rq, x);
    }
  }

  lemma TakenOut(q: seq<Node>, f: seq<Wait>, id: nat)
    requires Agree(q, f) && Rank(q, id) < |q|
    ensures UniqueSort(q) && SameBut(Cut(q, Rank(q, id)), f, id, true)
  {
    RankIn(q, id);
    assert InSort(q, id) <==> InFifo(f, id);
    forall x: nat ensures InSort(Cut(q, Rank(q, id)), x) <==> InSort(q, x) && x != id {
      CutSort(q, Rank(q, id), x);
    }
    CutSort(q, Rank(q, id), 0);
  }

  lemma AddedAgree(q: seq<Node>, f: seq<Wait>, q': seq<Node>, f': seq<Wait>, id: nat)
    requires AddedTo(q, f, q', f', id, true)
    ensures Agree(q', f')
  {
  }

  lemma AgreeUnique(q: seq<Node>, f: seq<Wait>)
    requires Agree(q, f)
    ensures UniqueFifo(f) && UniqueSort(q)
  {
  }
}
