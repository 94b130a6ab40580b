/** The per-direction part of as_data, updated in place, and the forced dispatch that empties it. */
module AsQueue {
  import opened Anticipatory

  lemma {:induction false} PlaceOf(q: seq<Rq>, k: nat)
    requires Sorted(q) && k < |q|
    ensures Place(q, q[k].sector) == k
  {
    if k > 0 {
      assert q[1..][k - 1] == q[k];
      PlaceOf(q[1..], k - 1);
    }
  }

  /** The cached request is a queued one, if there is any. */
  lemma NextIsQueued(top: nat, capacity: nat, s: Queue)
    requires Sound(top, capacity, s) && Optimal(top, s)
    ensures s.next.None? <==> s.sort == []
    ensures s.next.Some? ==> var i := Place(s.sort, s.next.value); i < |s.sort| && s.sort[i].sector == s.next.value
  {
    if s.sort != [] {
      var k :| 0 <= k < |s.sort| && s.sort[k].sector == s.next.value;
      PlaceOf(s.sort, k);
    }
  }

  lemma WithoutOne(q: seq<Rq>, i: nat)
    requires i < |q|
    ensures multiset(q) == multiset(Without(q, i)) + multiset{q[i]}
  {
    assert q == q[..i] + [q[i]] + q[i + 1..];
  }

  /** The parts of a sound queue that the operations below rely on. */
  lemma SoundParts(top: nat, capacity: nat, s: Queue)
    requires Sound(top, capacity, s)
    ensures MAXBACK < top && Sorted(s.sort) && capacity <= top
    ensures forall k :: 0 <= k < |s.sort| ==> s.sort[k].sector < top && End(s.sort[k]) <= capacity
  {
  }

  class AsData {
    const top: nat         // number of sectors a sector_t can tell apart
    const capacity: nat    // sectors of the disk
    const maxSectors: nat  // of a request
    var sortList: seq<Rq>
    var nextRq: Option
    var lastSector: nat
    var moved: seq<Rq>     // handed to elv_dispatch_sort, in this order

    constructor (top: nat, capacity: nat, maxSectors: nat)
      requires capacity + MAXBACK <= top && MAXBACK < top
      ensures Valid() && View() == EMPTY && moved == []
      ensures this.top == top && this.capacity == capacity && this.maxSectors == maxSectors
    {
      this.top, this.capacity, this.maxSectors := top, capacity, maxSectors;
      sortList, nextRq, lastSector, moved := [], None, 0, [];
    }

    ghost function View(): Queue
      reads this
    {
      Queue(sortList, nextRq, lastSector)
    }

    ghost predicate Valid()
      reads this
    {
      capacity + MAXBACK <= top && MAXBACK < top && Sound(top, capacity, View()) && Optimal(top, View())
    }

    /** as_find_next_rq for the request at place i of the sort list. */
    method FindNextRq(i: nat) returns (r: Option)
      requires MAXBACK < top && i < |sortList| && forall k :: 0 <= k < |sortList| ==> sortList[k].sector < top
      ensures r == FindNext(top, lastSector, sortList, i)
    {
      hide Choose, Optimal;
      var next, prev := None, None;
      if i > 0 {
        prev := Some(sortList[i - 1].sector);
      }
      if i + 1 < |sortList| {
        next := Some(sortList[i + 1].sector);
      } else if i > 0 {
        next := Some(sortList[0].sector);
      }
      r := Choose(top, lastSector, next, prev);
    }

    /** as_remove_queued_request. */
    method RemoveQueuedRequest(i: nat)
      requires MAXBACK < top && i < |sortList| && forall k :: 0 <= k < |sortList| ==> sortList[k].sector < top
      modifies this`nextRq, this`sortList
      ensures View() == Remove(top, old(View()), i)
    {
      hide FindNext;
      if nextRq == Some(sortList[i].sector) {
        nextRq := FindNextRq(i);
      }
      sortList := sortList[..i] + sortList[i + 1..];
    }

    /** as_move_to_dispatch. */
    method MoveToDispatch(i: nat)
      requires Valid() && i < |sortList|
      modifies this
      ensures Valid() && View() == Dispatch(top, old(View()), i) && sortList == Without(old(sortList), i)
      ensures moved == old(moved) + [old(sortList[i])]
    {
      hide FindNext, Optimal, Sound, Without;
      SoundParts(top, capacity, View());
      StepKeeps(top, capacity, maxSectors, View(), Op.MoveToDispatch(i));
      var rq := sortList[i];
      lastSector := Wrapped(End(rq), top);
      nextRq := FindNextRq(i);
      RemoveQueuedRequest(i);
      moved := moved + [rq];
    }

    /** as_add_request. */
    method AddRequest(r: Rq)
      requires Valid() && r.nr <= maxSectors && Fits(capacity, sortList, r)
      modifies this
      ensures Valid() && View() == Add(top, old(View()), r)
      ensures moved == old(moved) + if HasAlias(old(sortList), r.sector) then [old(sortList)[Place(old(sortList), r.sector)]] else []
    {
      hide FindNext, Optimal, Choose, Place, Sound, Without, Remove;
      SoundParts(top, capacity, View());
      StepKeeps(top, capacity, maxSectors, View(), AddRq(r));
      var i := Place(sortList, r.sector);
      if HasAlias(sortList, r.sector) {
        WithoutIs(sortList, i);
        MoveToDispatch(i);
      }
      NextBelow(top, capacity, View());
      sortList := sortList[..i] + [r] + sortList[i..];
      nextRq := Choose(top, lastSector, Some(r.sector), nextRq);
    }

    /** A bio merged at the back leaves the sort list in order. */
    method MergedBio(i: nat, n: nat)
      requires Valid() && Room(capacity, sortList, i, n) && sortList[i].nr + n <= maxSectors
      modifies this`sortList
      ensures Valid() && View() == BackMerge(old(View()), i, n)
    {
      hide Optimal, Sound;
      StepKeeps(top, capacity, maxSectors, View(), MergeBio(i, n));
      sortList := sortList[i := Rq(sortList[i].sector, sortList[i].nr + n)];
    }

    /** as_merged_requests: request i has taken over the one behind it. */
    method MergedRequests(i: nat)
      requires Valid() && i + 1 < |sortList| && End(sortList[i]) == sortList[i + 1].sector
      requires sortList[i].nr + sortList[i + 1].nr <= maxSectors
      modifies this`sortList, this`nextRq
      ensures Valid() && View() == MergeNext(top, old(View()), i)
    {
      hide Optimal, Sound, Remove;
      SoundParts(top, capacity, View());
      StepKeeps(top, capacity, maxSectors, View(), MergeRqs(i));
      sortList := sortList[i := Rq(sortList[i].sector, sortList[i].nr + sortList[i + 1].nr)];
      RemoveQueuedRequest(i + 1);
    }

    /** The loop of as_dispatch_request with force set: because the cache is never empty while requests are queued, it moves
      * every one of them, once. */
    method ForceDispatch() returns (dispatched: nat)
      requires Valid()
      modifies this
      ensures Valid() && sortList == [] && nextRq == None
      ensures dispatched == |old(sortList)|
      ensures |old(moved)| <= |moved| && moved[..|old(moved)|] == old(moved) && multiset(moved[|old(moved)|..]) == multiset(old(sortList))
    {
      hide Optimal, Sound, Dispatch, Without;
      dispatched := 0;
      ghost var out: seq<Rq> := [];
      NextIsQueued(top, capacity, View());
      while nextRq != None
        invariant Valid() && (nextRq == None <==> sortList == [])
        invariant moved == old(moved) + out && dispatched == |out| && dispatched + |sortList| == |old(sortList)|
        invariant multiset(out) + multiset(sortList) == multiset(old(sortList))
        decreases |sortList|
      {
        NextIsQueued(top, capacity, View());
        var i := Place(sortList, nextRq.value);
        WithoutOne(sortList, i);
        WithoutIs(sortList, i);
        out := out + [sortList[i]];
        MoveToDispatch(i);
        dispatched := dispatched + 1;
        NextIsQueued(top, capacity, View());
      }
      assert moved[|old(moved)|..] == out;
    }
  }

  lemma NextBelow(top: nat, capacity: nat, s: Queue)
    requires Sound(top, capacity, s)
    ensures s.next.Some? ==> s.next.value < top
  {
  }
}
