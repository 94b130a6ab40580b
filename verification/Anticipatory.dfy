/** The anticipatory scheduler's choice of the next request: two neighbours stand for the whole queue. */
module Anticipatory {
  const MAXBACK := 1048576
  const BACK_PENALTY := 2

  /** What next_rq points to. */
  datatype Option = None | Some(value: nat)

  /** A request of one direction. Its sector, unique in the sort list, also serves as its address. */
  datatype Rq = Rq(sector: nat, nr: nat)

  function End(r: Rq): nat { r.sector + r.nr }

  // ---------- as_choose_req ----------

  /** More than MAXBACK behind the head, computed in sector numbers that wrap at top. */
  predicate Wraps(top: nat, last: nat, s: nat)
    requires s < top && MAXBACK < top
  {
    s < last && Wrapped(s + MAXBACK, top) < last
  }

  /** A sum of two sector numbers. */
  function Wrapped(x: nat, top: nat): nat
    requires x < 2 * top
  {
    if x < top then x else x - top
  }

  function Distance(last: nat, s: nat): nat {
    if s >= last then s - last else (last - s) * BACK_PENALTY
  }

  function Choose(top: nat, last: nat, r1: Option, r2: Option): Option
    requires MAXBACK < top && (r1.Some? ==> r1.value < top) && (r2.Some? ==> r2.value < top)
  {
    if r1 == None || r1 == r2 then r2
    else if r2 == None then r1
    else
      var s1, s2 := r1.value, r2.value;
      var wrap1, wrap2 := Wraps(top, last, s1), Wraps(top, last, s2);
      var d1, d2 := Distance(last, s1), Distance(last, s2);
      if !wrap1 && wrap2 then r1
      else if !wrap2 && wrap1 then r2
      else if wrap1 && wrap2 then (if s1 <= s2 then r1 else r2)
      else if d1 < d2 then r1
      else if d2 < d1 then r2
      else if s1 >= s2 then r1
      else r2
  }

  /** Request a is preferred to request b. */
  predicate Prefers(top: nat, last: nat, a: nat, b: nat)
    requires MAXBACK < top && a < top && b < top
  {
    Choose(top, last, Some(a), Some(b)) == Some(a)
  }

  /** The preference is a total order, whatever the head position and even where sector numbers wrap. */
  lemma PreferenceIsOrder(top: nat, last: nat, a: nat, b: nat, c: nat)
    requires MAXBACK < top && a < top && b < top && c < top
    ensures Prefers(top, last, a, b) || Prefers(top, last, b, a)
    ensures Prefers(top, last, a, b) && Prefers(top, last, b, a) ==> a == b
    ensures Prefers(top, last, a, b) && Prefers(top, last, b, c) ==> Prefers(top, last, a, c)
    ensures Choose(top, last, Some(a), Some(b)) == Choose(top, last, Some(b), Some(a))
  {
  }

  // ---------- the queue of one direction ----------

  /** The sort list in order of sectors, the cached next request, and where the head is. */
  datatype Queue = Queue(sort: seq<Rq>, next: Option, last: nat)

  const EMPTY := Queue([], None, 0)

  predicate Sorted(q: seq<Rq>) {
    forall i, j :: 0 <= i < j < |q| ==> q[i].sector < q[j].sector
  }

  /** Requests of one direction do not overlap. */
  predicate Apart(q: seq<Rq>) {
    && (forall i :: 0 <= i < |q| ==> q[i].nr > 0)
    && forall i, j :: 0 <= i < j < |q| ==> End(q[i]) <= q[j].sector
  }

  predicate Within(q: seq<Rq>, capacity: nat) {
    forall i :: 0 <= i < |q| ==> End(q[i]) <= capacity
  }

  /** Request x is the one as_choose_req prefers to every other. */
  predicate Best(top: nat, last: nat, q: seq<Rq>, x: Option)
    requires MAXBACK < top && forall i :: 0 <= i < |q| ==> q[i].sector < top
  {
    if q == [] then x == None
    else
      && x.Some? && (exists k :: 0 <= k < |q| && q[k].sector == x.value)
      && forall i :: 0 <= i < |q| ==> Prefers(top, last, x.value, q[i].sector)
  }

  predicate Valid(top: nat, capacity: nat, s: Queue) {
    && MAXBACK < top && capacity <= top && Sorted(s.sort) && Apart(s.sort) && Within(s.sort, capacity) && s.last <= capacity
    && forall i :: 0 <= i < |s.sort| ==> s.sort[i].sector < top
  }

  /** The cache agrees with a scan of the whole queue. */
  predicate Optimal(top: nat, s: Queue)
    requires MAXBACK < top && forall i :: 0 <= i < |s.sort| ==> s.sort[i].sector < top
  {
    Best(top, s.last, s.sort, s.next)
  }

  // ---------- as_find_next_rq and the operations ----------

  /** The successor, or else the first, against the predecessor. */
  function FindNext(top: nat, last: nat, q: seq<Rq>, i: nat): Option
    requires MAXBACK < top && i < |q| && forall k :: 0 <= k < |q| ==> q[k].sector < top
  {
    var prev := if i > 0 then Some(q[i - 1].sector) else None;
    var next := if i + 1 < |q| then Some(q[i + 1].sector) else if i > 0 then Some(q[0].sector) else None;
    Choose(top, last, next, prev)
  }

  function Without(q: seq<Rq>, i: nat): seq<Rq>
    requires i < |q|
  {
    q[..i] + q[i + 1..]
  }

  /** as_remove_queued_request. */
  function Remove(top: nat, s: Queue, i: nat): Queue
    requires MAXBACK < top && i < |s.sort| && forall k :: 0 <= k < |s.sort| ==> s.sort[k].sector < top
  {
    Queue(Without(s.sort, i), if s.next == Some(s.sort[i].sector) then FindNext(top, s.last, s.sort, i) else s.next, s.last)
  }

  /** as_move_to_dispatch. */
  function Dispatch(top: nat, s: Queue, i: nat): Queue
    requires MAXBACK < top && i < |s.sort| && forall k :: 0 <= k < |s.sort| ==> s.sort[k].sector < top
    requires End(s.sort[i]) < 2 * top
  {
    var last := Wrapped(End(s.sort[i]), top);
    Remove(top, Queue(s.sort, FindNext(top, last, s.sort, i), last), i)
  }

  /** Place in the sort list: how many requests have smaller sectors. */
  function Place(q: seq<Rq>, sector: nat): (i: nat)
    ensures i <= |q|
    ensures forall k :: 0 <= k < i ==> q[k].sector < sector
    ensures i < |q| ==> q[i].sector >= sector
  {
    if q == [] || q[0].sector >= sector then 0 else Place(q[1..], sector) + 1
  }

  predicate HasAlias(q: seq<Rq>, sector: nat) {
    Place(q, sector) < |q| && q[Place(q, sector)].sector == sector
  }

  /** as_add_request: a queued request at the same sector is dispatched first. */
  function Add(top: nat, s: Queue, r: Rq): Queue
    requires MAXBACK < top && (forall k :: 0 <= k < |s.sort| ==> s.sort[k].sector < top && End(s.sort[k]) < 2 * top)
    requires r.sector < top && (s.next.Some? ==> s.next.value < top)
  {
    var i := Place(s.sort, r.sector);
    var t := if HasAlias(s.sort, r.sector) then Dispatch(top, s, i) else s;
    Queue(t.sort[..i] + [r] + t.sort[i..], Choose(top, t.last, Some(r.sector), t.next), t.last)
  }

  /** A bio of n sectors is merged at the back of request i. */
  function BackMerge(s: Queue, i: nat, n: nat): Queue
    requires i < |s.sort|
  {
    s.(sort := s.sort[i := Rq(s.sort[i].sector, s.sort[i].nr + n)])
  }

  /** Request i takes over the next one, which is then removed. */
  function MergeNext(top: nat, s: Queue, i: nat): Queue
    requires MAXBACK < top && i + 1 < |s.sort| && forall k :: 0 <= k < |s.sort| ==> s.sort[k].sector < top
  {
    Remove(top, BackMerge(s, i, s.sort[i + 1].nr), i + 1)
  }

  // ---------- one neighbour is as good as all ----------

  /** No sector behind the head is so high that adding MAXBACK wraps. */
  predicate NoWrap(top: nat, last: nat, q: seq<Rq>)
    requires MAXBACK < top
  {
    forall i :: 0 <= i < |q| ==> q[i].sector < last ==> q[i].sector + MAXBACK < top
  }

  /** Request i parts those behind the head from those in front of it, or all wrap and it is the first. */
  predicate Parts(top: nat, last: nat, q: seq<Rq>, i: nat)
    requires MAXBACK < top && i < |q| && forall k :: 0 <= k < |q| ==> q[k].sector < top
  {
    || ((forall k :: i < k < |q| ==> q[k].sector >= last) && (forall k :: 0 <= k < i ==> q[k].sector < last))
    || (i == 0 && forall k :: 0 <= k < |q| ==> Wraps(top, last, q[k].sector))
  }

  lemma NeighbourBeats(top: nat, last: nat, q: seq<Rq>, i: nat, k: nat)
    requires MAXBACK < top && i < |q| && Sorted(q) && (forall k :: 0 <= k < |q| ==> q[k].sector < top)
    requires NoWrap(top, last, q) && Parts(top, last, q, i) && k < |q| && k != i
    ensures FindNext(top, last, q, i).Some? && FindNext(top, last, q, i).value < top
    ensures Prefers(top, last, FindNext(top, last, q, i).value, q[k].sector)
  {
    if k > i {
      assert q[i + 1].sector <= q[k].sector;
    } else {
      assert q[k].sector <= q[i - 1].sector && q[0].sector <= q[k].sector;
    }
  }

  lemma WithoutIs(q: seq<Rq>, i: nat)
    requires i < |q|
    ensures |Without(q, i)| == |q| - 1
    ensures forall k :: 0 <= k < |q| - 1 ==> Without(q, i)[k] == if k < i then q[k] else q[k + 1]
  {
  }

  /** The neighbour that as_find_next_rq chooses is preferred to all the other requests. */
  lemma NeighboursSuffice(top: nat, last: nat, q: seq<Rq>, i: nat)
    requires MAXBACK < top && i < |q| && Sorted(q) && forall k :: 0 <= k < |q| ==> q[k].sector < top
    requires NoWrap(top, last, q) && Parts(top, last, q, i)
    ensures (forall k :: 0 <= k < |q| - 1 ==> Without(q, i)[k].sector < top) && Best(top, last, Without(q, i), FindNext(top, last, q, i))
  {
    WithoutIs(q, i);
    var r := Without(q, i);
    var x := FindNext(top, last, q, i);
    if |q| > 1 {
      var k := if i > 0 then 0 else 1;
      NeighbourBeats(top, last, q, i, k);
      hide Prefers, FindNext, Without;
      forall j | 0 <= j < |r| ensures Prefers(top, last, x.value, r[j].sector) {
        NeighbourBeats(top, last, q, i, if j < i then j else j + 1);
      }
      NeighbourQueued(top, last, q, i);
    }
  }

  lemma NeighbourQueued(top: nat, last: nat, q: seq<Rq>, i: nat)
    requires MAXBACK < top && i < |q| && |q| > 1 && forall k :: 0 <= k < |q| ==> q[k].sector < top
    ensures FindNext(top, last, q, i).Some?
    ensures exists j :: 0 <= j < |q| - 1 && Without(q, i)[j].sector == FindNext(top, last, q, i).value
  {
    WithoutIs(q, i);
    var x := FindNext(top, last, q, i);
    var r := Without(q, i);
    if i > 0 && x == Some(q[i - 1].sector) {
      assert r[i - 1].sector == x.value;
    } else if i + 1 < |q| {
      assert r[i].sector == x.value;
    } else {
      assert r[0].sector == x.value;
    }
  }

  // ---------- what each operation keeps ----------

  /** The best request leaves: it parts the others. */
  lemma BestParts(top: nat, last: nat, q: seq<Rq>, i: nat)
    requires MAXBACK < top && i < |q| && Sorted(q) && (forall k :: 0 <= k < |q| ==> q[k].sector < top)
    requires NoWrap(top, last, q) && Best(top, last, q, Some(q[i].sector))
    ensures Parts(top, last, q, i)
  {
    hide Distance;
    if Wraps(top, last, q[i].sector) {
      forall k | 0 <= k < |q| ensures Wraps(top, last, q[k].sector) && (k != i ==> q[k].sector > q[i].sector) {
        assert Prefers(top, last, q[i].sector, q[k].sector);
      }
      assert q[0].sector >= q[i].sector;
    } else {
      forall k | 0 <= k < |q|
        ensures (k > i ==> q[k].sector >= last) && (k < i ==> q[k].sector < last)
      {
        BestBeatsNearer(top, last, q, i, k);
      }
    }
  }

  lemma BestBeatsNearer(top: nat, last: nat, q: seq<Rq>, i: nat, k: nat)
    requires MAXBACK < top && i < |q| && Sorted(q) && (forall k :: 0 <= k < |q| ==> q[k].sector < top) && k < |q|
    requires NoWrap(top, last, q) && Best(top, last, q, Some(q[i].sector)) && !Wraps(top, last, q[i].sector)
    ensures (k > i ==> q[k].sector >= last) && (k < i ==> q[k].sector < last)
  {
    assert Prefers(top, last, q[i].sector, q[k].sector);
  }

  /** Sectors of the requests that stay stay where they were in the order. */
  lemma WithoutValid(q: seq<Rq>, i: nat)
    requires i < |q| && Sorted(q) && Apart(q)
    ensures Sorted(Without(q, i)) && Apart(Without(q, i))
  {
    WithoutIs(q, i);
  }

  lemma BestWithout(top: nat, last: nat, q: seq<Rq>, i: nat, x: nat)
    requires MAXBACK < top && i < |q| && Sorted(q) && (forall k :: 0 <= k < |q| ==> q[k].sector < top)
    requires Best(top, last, q, Some(x)) && x != q[i].sector
    ensures (forall k :: 0 <= k < |q| - 1 ==> Without(q, i)[k].sector < top) && Best(top, last, Without(q, i), Some(x))
  {
    WithoutIs(q, i);
    var r := Without(q, i);
    var k :| 0 <= k < |q| && q[k].sector == x;
    assert r[if k < i then k else k - 1].sector == x;
    hide Prefers, Without;
  }

  lemma NoWrapBelow(top: nat, capacity: nat, s: Queue)
    requires Valid(top, capacity, s) && capacity + MAXBACK <= top
    ensures NoWrap(top, s.last, s.sort)
  {
  }

  lemma RemoveKeeps(top: nat, capacity: nat, s: Queue, i: nat)
    requires Valid(top, capacity, s) && i < |s.sort| && Optimal(top, s) && NoWrap(top, s.last, s.sort)
    ensures Valid(top, capacity, Remove(top, s, i)) && Optimal(top, Remove(top, s, i))
  {
    WithoutValid(s.sort, i);
    WithoutIs(s.sort, i);
    hide Best, FindNext, Without, Parts, NoWrap;
    if s.next == Some(s.sort[i].sector) {
      BestParts(top, s.last, s.sort, i);
      NeighboursSuffice(top, s.last, s.sort, i);
    } else {
      BestIsSome(top, s.last, s.sort, s.next);
      BestWithout(top, s.last, s.sort, i, s.next.value);
    }
  }

  lemma BestIsSome(top: nat, last: nat, q: seq<Rq>, x: Option)
    requires MAXBACK < top && (forall k :: 0 <= k < |q| ==> q[k].sector < top) && q != [] && Best(top, last, q, x)
    ensures x.Some?
  {
  }

  /** Any request may be dispatched; the head moves to its end. */
  lemma DispatchKeeps(top: nat, capacity: nat, s: Queue, i: nat)
    requires Valid(top, capacity, s) && i < |s.sort| && capacity + MAXBACK <= top
    ensures Valid(top, capacity, Dispatch(top, s, i)) && Optimal(top, Dispatch(top, s, i))
    ensures Dispatch(top, s, i).last == End(s.sort[i]) && Dispatch(top, s, i).sort == Without(s.sort, i)
  {
    var last := End(s.sort[i]);
    assert Parts(top, last, s.sort, i);
    NeighbourIsAnother(top, last, s.sort, i);
    WithoutValid(s.sort, i);
    WithoutIs(s.sort, i);
    hide Best, FindNext, Without, Parts;
    NeighboursSuffice(top, last, s.sort, i);
  }

  lemma NeighbourIsAnother(top: nat, last: nat, q: seq<Rq>, i: nat)
    requires MAXBACK < top && i < |q| && Sorted(q) && forall k :: 0 <= k < |q| ==> q[k].sector < top
    ensures FindNext(top, last, q, i) != Some(q[i].sector)
  {
  }

  /** The new request may overlap none but a queued one at its own sector. */
  predicate Fits(capacity: nat, q: seq<Rq>, r: Rq) {
    && r.nr > 0 && End(r) <= capacity
    && forall k :: 0 <= k < |q| ==> q[k].sector == r.sector || End(q[k]) <= r.sector || End(r) <= q[k].sector
  }

  function Insert(q: seq<Rq>, i: nat, r: Rq): seq<Rq>
    requires i <= |q|
  {
    q[..i] + [r] + q[i..]
  }

  lemma InsertIs(q: seq<Rq>, i: nat, r: Rq)
    requires i <= |q|
    ensures |Insert(q, i, r)| == |q| + 1
    ensures forall k :: 0 <= k <= |q| ==> Insert(q, i, r)[k] == if k < i then q[k] else if k == i then r else q[k - 1]
  {
  }

  lemma InsertValid(capacity: nat, q: seq<Rq>, i: nat, r: Rq)
    requires Sorted(q) && Apart(q) && Within(q, capacity) && i <= |q| && Fits(capacity, q, r)
    requires Gap(q, i, r.sector)
    ensures Sorted(Insert(q, i, r)) && Apart(Insert(q, i, r)) && Within(Insert(q, i, r), capacity)
  {
    InsertIs(q, i, r);
    hide Insert;
  }

  /** The better of the cached and the new request is the best of all. */
  lemma InsertBest(top: nat, last: nat, q: seq<Rq>, i: nat, r: Rq, x: Option)
    requires MAXBACK < top && i <= |q| && r.sector < top && (forall k :: 0 <= k < |q| ==> q[k].sector < top)
    requires Best(top, last, q, x) && (x.Some? ==> x.value < top)
    ensures (forall k :: 0 <= k <= |q| ==> |Insert(q, i, r)| == |q| + 1 && Insert(q, i, r)[k].sector < top)
    ensures Best(top, last, Insert(q, i, r), Choose(top, last, Some(r.sector), x))
  {
    InsertIs(q, i, r);
    var p := Insert(q, i, r);
    assert p[i] == r;
    if q != [] {
      BestIsSome(top, last, q, x);
      PreferenceIsOrder(top, last, r.sector, x.value, r.sector);
      var j :| 0 <= j < |q| && q[j].sector == x.value;
      assert p[if j < i then j else j + 1].sector == x.value;
      var y := if Prefers(top, last, r.sector, x.value) then r.sector else x.value;
      forall k | 0 <= k < |p| ensures Prefers(top, last, y, p[k].sector) {
        if k == i {
          PreferenceIsOrder(top, last, y, r.sector, x.value);
        } else {
          var b := p[k].sector;
          assert b == q[if k < i then k else k - 1].sector;
          PreferenceIsOrder(top, last, r.sector, x.value, b);
        }
      }
      assert Choose(top, last, Some(r.sector), x) == Some(y);
    }
  }

  /** Request r has its place at i, and no queued request its sector. */
  predicate Gap(q: seq<Rq>, i: nat, sector: nat) {
    i <= |q| && forall k :: 0 <= k < |q| ==> if k < i then q[k].sector < sector else sector < q[k].sector
  }

  /** The queue without the request at the same sector. */
  function Cleared(top: nat, s: Queue, r: Rq): Queue
    requires MAXBACK < top && (forall k :: 0 <= k < |s.sort| ==> s.sort[k].sector < top && End(s.sort[k]) < 2 * top)
  {
    if HasAlias(s.sort, r.sector) then Dispatch(top, s, Place(s.sort, r.sector)) else s
  }

  lemma GapWithout(capacity: nat, q: seq<Rq>, i: nat, r: Rq)
    requires Sorted(q) && i < |q| && q[i].sector == r.sector && Fits(capacity, q, r)
    ensures Gap(Without(q, i), i, r.sector) && Fits(capacity, Without(q, i), r)
  {
    WithoutIs(q, i);
    hide Without;
  }

  lemma GapThere(q: seq<Rq>, r: Rq)
    requires Sorted(q) && !HasAlias(q, r.sector)
    ensures Gap(q, Place(q, r.sector), r.sector)
  {
    var i := Place(q, r.sector);
    hide Place;
  }

  lemma ClearedLeavesGap(top: nat, capacity: nat, s: Queue, r: Rq)
    requires Valid(top, capacity, s) && Optimal(top, s) && capacity + MAXBACK <= top && Fits(capacity, s.sort, r)
    ensures var t := Cleared(top, s, r);
            && Valid(top, capacity, t) && Optimal(top, t) && Fits(capacity, t.sort, r) && Gap(t.sort, Place(s.sort, r.sector), r.sector)
  {
    var i := Place(s.sort, r.sector);
    hide Best, Without, Dispatch, Choose, Place, Gap, Fits;
    if HasAlias(s.sort, r.sector) {
      DispatchKeeps(top, capacity, s, i);
      GapWithout(capacity, s.sort, i, r);
    } else {
      GapThere(s.sort, r);
    }
  }

  lemma AddKeeps(top: nat, capacity: nat, s: Queue, r: Rq)
    requires Valid(top, capacity, s) && Optimal(top, s) && capacity + MAXBACK <= top && Fits(capacity, s.sort, r)
    requires s.next.Some? ==> s.next.value < top
    ensures Valid(top, capacity, Add(top, s, r)) && Optimal(top, Add(top, s, r))
  {
    var i := Place(s.sort, r.sector);
    var t := Cleared(top, s, r);
    ClearedLeavesGap(top, capacity, s, r);
    NextIsSector(top, t);
    assert Add(top, s, r) == Queue(Insert(t.sort, i, r), Choose(top, t.last, Some(r.sector), t.next), t.last);
    hide Best, Without, Cleared, Choose, Place, Insert;
    InsertValid(capacity, t.sort, i, r);
    InsertBest(top, t.last, t.sort, i, r, t.next);
  }

  lemma NextIsSector(top: nat, s: Queue)
    requires MAXBACK < top && (forall k :: 0 <= k < |s.sort| ==> s.sort[k].sector < top) && Optimal(top, s)
    ensures s.next.Some? ==> s.next.value < top
  {
  }

  /** A request grows into free space. */
  predicate Room(capacity: nat, q: seq<Rq>, i: nat, n: nat) {
    i < |q| && End(q[i]) + n <= (if i + 1 < |q| then q[i + 1].sector else capacity)
  }

  lemma SameSectorsSameBest(top: nat, last: nat, q: seq<Rq>, p: seq<Rq>, x: Option)
    requires MAXBACK < top && |p| == |q| && (forall k :: 0 <= k < |q| ==> q[k].sector < top && p[k].sector == q[k].sector)
    requires Best(top, last, q, x)
    ensures Best(top, last, p, x)
  {
    hide Prefers;
    if q != [] {
      var k :| 0 <= k < |q| && q[k].sector == x.value;
      assert p[k].sector == x.value;
    }
  }

  lemma GrownStaysApart(capacity: nat, q: seq<Rq>, i: nat, n: nat)
    requires Sorted(q) && Apart(q) && Within(q, capacity) && Room(capacity, q, i, n)
    ensures var p := q[i := Rq(q[i].sector, q[i].nr + n)]; Sorted(p) && Apart(p) && Within(p, capacity)
  {
    var p := q[i := Rq(q[i].sector, q[i].nr + n)];
    assert forall k :: 0 <= k < |q| ==> p[k].sector == q[k].sector && (k != i ==> p[k] == q[k]);
    forall k | i < k < |q| ensures End(p[i]) <= p[k].sector {
      assert q[i + 1].sector <= q[k].sector;
    }
  }

  lemma BackMergeKeeps(top: nat, capacity: nat, s: Queue, i: nat, n: nat)
    requires Valid(top, capacity, s) && Optimal(top, s) && Room(capacity, s.sort, i, n)
    ensures Valid(top, capacity, BackMerge(s, i, n)) && Optimal(top, BackMerge(s, i, n))
  {
    var t := BackMerge(s, i, n);
    GrownStaysApart(capacity, s.sort, i, n);
    hide Best, Sorted, Apart, Room;
    SameSectorsSameBest(top, s.last, s.sort, t.sort, s.next);
    assert Within(s.sort, capacity) ==> forall k :: 0 <= k < |t.sort| ==> t.sort[k].sector < top;
  }

  /** Removing the absorbed request and growing the other commute. */
  lemma MergeNextIs(top: nat, capacity: nat, s: Queue, i: nat)
    requires Valid(top, capacity, s) && i + 1 < |s.sort|
    ensures var n := s.sort[i + 1].nr;
            MergeNext(top, s, i) == BackMerge(Remove(top, s, i + 1), i, n)
  {
    var n := s.sort[i + 1].nr;
    WithoutIs(s.sort, i + 1);
    WithoutIs(BackMerge(s, i, n).sort, i + 1);
    assert Without(BackMerge(s, i, n).sort, i + 1) == Without(s.sort, i + 1)[i := Rq(s.sort[i].sector, s.sort[i].nr + n)];
    assert FindNext(top, s.last, BackMerge(s, i, n).sort, i + 1) == FindNext(top, s.last, s.sort, i + 1);
  }

  lemma MergeNextKeeps(top: nat, capacity: nat, s: Queue, i: nat)
    requires Valid(top, capacity, s) && Optimal(top, s) && capacity + MAXBACK <= top
    requires i + 1 < |s.sort| && End(s.sort[i]) == s.sort[i + 1].sector
    ensures Valid(top, capacity, MergeNext(top, s, i)) && Optimal(top, MergeNext(top, s, i))
  {
    hide Best, Remove, MergeNext, Room, NoWrap, BackMerge;
    MergeNextIs(top, capacity, s, i);
    NoWrapBelow(top, capacity, s);
    RemoveKeeps(top, capacity, s, i + 1);
    RemovedRoom(top, capacity, s, i);
    BackMergeKeeps(top, capacity, Remove(top, s, i + 1), i, s.sort[i + 1].nr);
  }

  lemma RemovedRoom(top: nat, capacity: nat, s: Queue, i: nat)
    requires Valid(top, capacity, s) && i + 1 < |s.sort| && End(s.sort[i]) == s.sort[i + 1].sector
    ensures Room(capacity, Remove(top, s, i + 1).sort, i, s.sort[i + 1].nr)
  {
    WithoutIs(s.sort, i + 1);
  }

  // ---------- whole runs ----------

  datatype Op = AddRq(r: Rq) | MoveToDispatch(i: nat) | MergeBio(i: nat, n: nat) | MergeRqs(i: nat)

  /** What may happen on a disk of this capacity when no request may be longer than max_sectors. */
  predicate Allowed(capacity: nat, maxSectors: nat, s: Queue, op: Op) {
    match op
    case AddRq(r) => r.nr <= maxSectors && Fits(capacity, s.sort, r)
    case MoveToDispatch(i) => i < |s.sort|
    case MergeBio(i, n) => Room(capacity, s.sort, i, n) && s.sort[i].nr + n <= maxSectors
    case MergeRqs(i) =>
      && i + 1 < |s.sort| && End(s.sort[i]) == s.sort[i + 1].sector
      && s.sort[i].nr + s.sort[i + 1].nr <= maxSectors
  }

  predicate Sound(top: nat, capacity: nat, s: Queue) {
    Valid(top, capacity, s) && (s.next.Some? ==> s.next.value < top)
  }

  function Step(top: nat, capacity: nat, maxSectors: nat, s: Queue, op: Op): Queue
    requires Sound(top, capacity, s) && Allowed(capacity, maxSectors, s, op)
  {
    match op
    case AddRq(r) => Add(top, s, r)
    case MoveToDispatch(i) => Dispatch(top, s, i)
    case MergeBio(i, n) => BackMerge(s, i, n)
    case MergeRqs(i) => MergeNext(top, s, i)
  }

  lemma StepKeeps(top: nat, capacity: nat, maxSectors: nat, s: Queue, op: Op)
    requires Sound(top, capacity, s) && Optimal(top, s) && Allowed(capacity, maxSectors, s, op) && capacity + MAXBACK <= top
    ensures var t := Step(top, capacity, maxSectors, s, op); Sound(top, capacity, t) && Optimal(top, t)
  {
    hide Best, Add, Dispatch, BackMerge, MergeNext, Sorted, Apart, Within, Fits, Room;
    match op {
      case AddRq(r) => AddKeeps(top, capacity, s, r);
      case MoveToDispatch(i) => DispatchKeeps(top, capacity, s, i);
      case MergeBio(i, n) => BackMergeKeeps(top, capacity, s, i, n);
      case MergeRqs(i) => MergeNextKeeps(top, capacity, s, i);
    }
    NextIsSector(top, Step(top, capacity, maxSectors, s, op));
  }

  /** The states a run goes through, each operation being allowed where it happens. */
  ghost predicate Reaches(top: nat, capacity: nat, maxSectors: nat, ops: seq<Op>, s: Queue)
    decreases |ops|
  {
    if ops == [] then s == EMPTY
    else
      exists r :: Reaches(top, capacity, maxSectors, ops[..|ops| - 1], r) && Sound(top, capacity, r)
                  && Allowed(capacity, maxSectors, r, ops[|ops| - 1]) && s == Step(top, capacity, maxSectors, r, ops[|ops| - 1])
  }

  /** Main theorem: on a disk that ends MAXBACK below the top of the sector numbers, the cached request is in every
    * reachable state the one as_choose_req prefers among all that are queued. */
  lemma {:induction false} CacheIsOptimal(top: nat, capacity: nat, maxSectors: nat, ops: seq<Op>, s: Queue)
    requires Reaches(top, capacity, maxSectors, ops, s) && capacity + MAXBACK <= top && MAXBACK < top
    ensures Sound(top, capacity, s) && Optimal(top, s)
    decreases |ops|
  {
    if ops != [] {
      var r :| Reaches(top, capacity, maxSectors, ops[..|ops| - 1], r) && Sound(top, capacity, r)
               && Allowed(capacity, maxSectors, r, ops[|ops| - 1]) && s == Step(top, capacity, maxSectors, r, ops[|ops| - 1]);
      hide Best, Sound, Step, Allowed;
      CacheIsOptimal(top, capacity, maxSectors, ops[..|ops| - 1], r);
      StepKeeps(top, capacity, maxSectors, r, ops[|ops| - 1]);
    }
  }

  // ---------- near the top of the sector numbers ----------

  lemma {:induction false} PlaceLast(q: seq<Rq>, sector: nat)
    requires forall k :: 0 <= k < |q| ==> q[k].sector < sector
    ensures Place(q, sector) == |q|
  {
    if q != [] {
      PlaceLast(q[1..], sector);
    }
  }

  /** The state when r, above all others, has come. */
  function Appended(top: nat, s: Queue, r: Rq): Queue
    requires MAXBACK < top && r.sector < top && (s.next.Some? ==> s.next.value < top)
  {
    Queue(s.sort + [r], Choose(top, s.last, Some(r.sector), s.next), s.last)
  }

  predicate Above(capacity: nat, q: seq<Rq>, r: Rq) {
    r.nr > 0 && End(r) <= capacity && forall k :: 0 <= k < |q| ==> End(q[k]) <= r.sector
  }

  lemma AddIsAppend(top: nat, capacity: nat, s: Queue, r: Rq)
    requires Sound(top, capacity, s) && Above(capacity, s.sort, r)
    ensures Fits(capacity, s.sort, r) && Add(top, s, r) == Appended(top, s, r)
  {
    forall k | 0 <= k < |s.sort| ensures s.sort[k].sector < r.sector {
      assert s.sort[k].nr > 0;
    }
    PlaceLast(s.sort, r.sector);
    hide Choose, Place;
    assert s.sort[..|s.sort|] + [r] + s.sort[|s.sort|..] == s.sort + [r];
  }

  lemma AppendedSound(top: nat, capacity: nat, s: Queue, r: Rq)
    requires Sound(top, capacity, s) && Above(capacity, s.sort, r)
    ensures Sound(top, capacity, Appended(top, s, r))
  {
    hide Wraps, Distance;
    forall k | 0 <= k < |s.sort| ensures s.sort[k].sector < r.sector {
      assert s.sort[k].nr > 0;
    }
  }

  lemma AddLast(top: nat, capacity: nat, maxSectors: nat, ops: seq<Op>, s: Queue, r: Rq)
    requires Reaches(top, capacity, maxSectors, ops, s) && Sound(top, capacity, s) && Above(capacity, s.sort, r)
    requires r.nr <= maxSectors
    ensures Reaches(top, capacity, maxSectors, ops + [AddRq(r)], Appended(top, s, r)) && Sound(top, capacity, Appended(top, s, r))
  {
    AddIsAppend(top, capacity, s, r);
    AppendedSound(top, capacity, s, r);
    hide Reaches, Appended, Add, Fits, Above, Sound;
    OneStepMore(top, capacity, maxSectors, ops, s, AddRq(r));
  }

  lemma OneStepMore(top: nat, capacity: nat, maxSectors: nat, ops: seq<Op>, s: Queue, op: Op)
    requires Reaches(top, capacity, maxSectors, ops, s) && Sound(top, capacity, s) && Allowed(capacity, maxSectors, s, op)
    ensures Reaches(top, capacity, maxSectors, ops + [op], Step(top, capacity, maxSectors, s, op))
  {
    assert (ops + [op])[..|ops|] == ops;
  }

  /** A disk that reaches further up: behind the head, adding MAXBACK to a high sector wraps. Then as_find_next_rq can pass
    * over the request that as_choose_req would prefer, with requests of no more than two sectors. */
  lemma CacheCanBeWrong(top: nat, capacity: nat, maxSectors: nat)
    requires 4 * MAXBACK <= top && capacity <= top < capacity + MAXBACK && maxSectors >= 2
    ensures exists ops, s :: Reaches(top, capacity, maxSectors, ops, s) && Sound(top, capacity, s) && !Optimal(top, s)
  {
    var high := top - MAXBACK;
    var c := Rq(high, 1);
    AddLast(top, capacity, maxSectors, [], EMPTY, c);
    var s1 := Queue([c], Some(high), 0);
    hide Reaches, Appended, Step, Sound, Allowed, Optimal;
    HighAlone(top, capacity, maxSectors);
    OneStepMore(top, capacity, maxSectors, [] + [AddRq(c)], s1, MoveToDispatch(0));
    AfterHighDispatch(top, capacity, maxSectors, [] + [AddRq(c)] + [MoveToDispatch(0)]);
  }

  lemma HighAlone(top: nat, capacity: nat, maxSectors: nat)
    requires 4 * MAXBACK <= top && capacity <= top < capacity + MAXBACK && maxSectors >= 2
    ensures var c := Rq(top - MAXBACK, 1);
            var s1 := Queue([c], Some(c.sector), 0);
            && Appended(top, EMPTY, c) == s1 && Sound(top, capacity, s1) && Allowed(capacity, maxSectors, s1, MoveToDispatch(0))
            && Step(top, capacity, maxSectors, s1, MoveToDispatch(0)) == Queue([], None, c.sector + 1)
  {
    hide Wraps, Distance, Place, Prefers, Fits, Room;
    var c := Rq(top - MAXBACK, 1);
    assert [] + [c] == [c];
    assert Without([c], 0) == [];
  }

  /** Four requests of one sector: the lowest of all, the last one that is too far behind the head, the first one that is
    * not, and the one that the head has just passed. */
  function Four(top: nat): (r: seq<Rq>)
    requires 4 * MAXBACK <= top
    ensures |r| == 4
  {
    var high := top - MAXBACK;
    [Rq(0, 1), Rq(high - MAXBACK, 1), Rq(high - MAXBACK + 1, 1), Rq(high, 1)]
  }

  /** The queue when the first n of them have come. */
  function Came(top: nat, n: nat): Queue
    requires 4 * MAXBACK <= top && n <= 4
  {
    var f := Four(top);
    Queue(f[..n], if n == 0 then None else if n < 3 then Some(f[0].sector) else Some(f[2].sector), top - MAXBACK + 1)
  }

  lemma AfterHighDispatch(top: nat, capacity: nat, maxSectors: nat, ops: seq<Op>)
    requires 4 * MAXBACK <= top && capacity <= top < capacity + MAXBACK && maxSectors >= 2
    requires Reaches(top, capacity, maxSectors, ops, Queue([], None, top - MAXBACK + 1))
    ensures exists ops, s :: Reaches(top, capacity, maxSectors, ops, s) && Sound(top, capacity, s) && !Optimal(top, s)
  {
    assert Came(top, 0) == Queue([], None, top - MAXBACK + 1);
    assert Sound(top, capacity, Came(top, 0));
    var f := Four(top);
    hide Reaches, Step, Optimal, Sound, Came, Four;
    ComesIn(top, capacity, maxSectors, ops, 0);
    ComesIn(top, capacity, maxSectors, ops + [AddRq(f[0])], 1);
    ComesIn(top, capacity, maxSectors, ops + [AddRq(f[0])] + [AddRq(f[1])], 2);
    ComesIn(top, capacity, maxSectors, ops + [AddRq(f[0])] + [AddRq(f[1])] + [AddRq(f[2])], 3);
    MergeGoesWrong(top, capacity, maxSectors, ops + [AddRq(f[0])] + [AddRq(f[1])] + [AddRq(f[2])] + [AddRq(f[3])]);
  }

  lemma ComesIn(top: nat, capacity: nat, maxSectors: nat, ops: seq<Op>, n: nat)
    requires 4 * MAXBACK <= top && capacity <= top < capacity + MAXBACK && maxSectors >= 2 && n < 4
    requires Reaches(top, capacity, maxSectors, ops, Came(top, n)) && Sound(top, capacity, Came(top, n))
    ensures Reaches(top, capacity, maxSectors, ops + [AddRq(Four(top)[n])], Came(top, n + 1))
    ensures Sound(top, capacity, Came(top, n + 1))
  {
    hide Reaches, Sound;
    NextCame(top, capacity, n);
    AddLast(top, capacity, maxSectors, ops, Came(top, n), Four(top)[n]);
  }

  /** What the cache holds while the four requests come in. */
  lemma NextCame(top: nat, capacity: nat, n: nat)
    requires 4 * MAXBACK <= top && capacity <= top < capacity + MAXBACK && n < 4
    ensures Above(capacity, Came(top, n).sort, Four(top)[n])
    ensures Appended(top, Came(top, n), Four(top)[n]) == Came(top, n + 1)
  {
    assert Four(top)[..n] + [Four(top)[n]] == Four(top)[..n + 1];
  }

  lemma MergeGoesWrong(top: nat, capacity: nat, maxSectors: nat, ops: seq<Op>)
    requires 4 * MAXBACK <= top && capacity <= top < capacity + MAXBACK && maxSectors >= 2
    requires Reaches(top, capacity, maxSectors, ops, Came(top, 4)) && Sound(top, capacity, Came(top, 4))
    ensures exists ops, s :: Reaches(top, capacity, maxSectors, ops, s) && Sound(top, capacity, s) && !Optimal(top, s)
  {
    hide Reaches, Step, Optimal, Sound, Came;
    WrongPick(top, capacity, maxSectors);
    OneStepMore(top, capacity, maxSectors, ops, Came(top, 4), MergeRqs(1));
  }

  /** The second request takes over the third, which was cached; its neighbours are both too far behind the head, and the
    * lowest request is not asked. */
  lemma WrongPick(top: nat, capacity: nat, maxSectors: nat)
    requires 4 * MAXBACK <= top && capacity <= top < capacity + MAXBACK && maxSectors >= 2
    requires Sound(top, capacity, Came(top, 4))
    ensures Allowed(capacity, maxSectors, Came(top, 4), MergeRqs(1))
    ensures var t := Step(top, capacity, maxSectors, Came(top, 4), MergeRqs(1)); Sound(top, capacity, t) && !Optimal(top, t)
  {
    var s, high := Came(top, 4), top - MAXBACK;
    assert s.sort == Four(top);
    var t := MergeNext(top, s, 1);
    assert t.sort == [Rq(0, 1), Rq(high - MAXBACK, 2), Rq(high, 1)];
    assert t.next == Some(high - MAXBACK);
    assert !Prefers(top, t.last, high - MAXBACK, t.sort[0].sector);
  }

  /** Together: exactly when the disk ends MAXBACK below the top, whatever the limit on the length of requests (from two
    * sectors on; blk_queue_max_sectors sets at least a page). */
  lemma OptimalExactlyBelow(top: nat, capacity: nat, maxSectors: nat)
    requires 4 * MAXBACK <= top && capacity <= top && maxSectors >= 2
    ensures capacity + MAXBACK <= top
            <==> forall ops, s :: Reaches(top, capacity, maxSectors, ops, s) && Sound(top, capacity, s) ==> Optimal(top, s)
  {
    if capacity + MAXBACK <= top {
      forall ops, s | Reaches(top, capacity, maxSectors, ops, s) && Sound(top, capacity, s) ensures Optimal(top, s) {
        CacheIsOptimal(top, capacity, maxSectors, ops, s);
      }
    } else {
      CacheCanBeWrong(top, capacity, maxSectors);
    }
  }
}
