/** The tag map updated in place, and its runs. */
module Tags {
  import opened UniqueLists
  import opened TagSpec
  import opened TagProofs

  // ---------- runs ----------

  datatype Op =
    | Arrive(id: nat)
    | Start(id: nat)
    | End(id: nat)
    | PutBack(id: nat)
    | SetDepth(depth: nat, limit: nat)
    | InvalidateAll

  ghost predicate Enabled(s: State, op: Op) {
    match op
    case Arrive(id) => id !in s.queue && id !in s.tag
    case Start(id) => id in s.queue
    case End(id) => id in s.tag
    case PutBack(id) => id in s.tag
    case SetDepth(depth, limit) => Shaped(s) && Resize(s, depth, limit).Resized?
    case InvalidateAll => true
  }

  ghost function Step(s: State, op: Op): State
    requires Valid(s) && Enabled(s, op)
  {
    match op
    case Arrive(id) => TagSpec.Arrive(s, id)
    case Start(id) => StartTag(s, id)
    case End(id) => EndTag(s, id)
    case PutBack(id) => Requeue(s, id)
    case SetDepth(depth, limit) => Resize(s, depth, limit).s
    case InvalidateAll => Invalidate(s, s.busyList)
  }

  lemma ArriveKeeps(s: State, id: nat)
    requires Valid(s) && id !in s.queue && id !in s.tag
    ensures Valid(TagSpec.Arrive(s, id))
  {
    WithIs(s.queue, |s.queue|, id);
    assert s.queue[..|s.queue|] + [id] + s.queue[|s.queue|..] == s.queue + [id];
    hide IndexOk, LastFirst, Ones, Aligned, Unique;
  }

  lemma StepKeeps(s: State, op: Op)
    requires Valid(s) && Enabled(s, op)
    ensures Valid(Step(s, op))
  {
    hide Valid, StartTag, EndTag, Requeue, Resize, Invalidate, TagSpec.Arrive;
    match op
    case Arrive(id) => ArriveKeeps(s, id);
    case Start(id) => StartKeeps(s, id);
    case End(id) => EndKeeps(s, id);
    case PutBack(id) => RequeueKeeps(s, id);
    case SetDepth(depth, limit) => ResizeKeeps(s, depth, limit);
    case InvalidateAll => InvalidateRestores(s);
  }

  ghost predicate Possible(depth: nat, ops: seq<Op>)
    decreases |ops|, 0
  {
    ops == [] || (Possible(depth, ops[..|ops| - 1]) && Enabled(Run(depth, ops[..|ops| - 1]), ops[|ops| - 1]))
  }

  ghost function Run(depth: nat, ops: seq<Op>): (s: State)
    requires Possible(depth, ops)
    ensures Valid(s)
    decreases |ops|, 1
  {
    if ops == [] then InitValid(depth); Init(depth)
    else
      var before := Run(depth, ops[..|ops| - 1]);
      StepKeeps(before, ops[|ops| - 1]);
      Step(before, ops[|ops| - 1])
  }

  /** In every reachable state: a bit is set exactly where the index names a request, which then has that tag and is on the
    * busy list; busy counts the bits that are set; and no two requests have the same tag. */
  lemma RunAgrees(depth: nat, ops: seq<Op>)
    requires Possible(depth, ops)
    ensures var s := Run(depth, ops);
            && |s.index| == s.realMax <= |s.bits|
            && (forall t :: 0 <= t < |s.bits| ==> (s.bits[t] <==> t < s.realMax && s.index[t].For?))
            && (forall t :: 0 <= t < s.realMax && s.index[t].For? ==> s.index[t].id in s.tag && s.tag[s.index[t].id] == t)
            && (forall id: nat :: id in s.tag <==> id in s.busyList)
            && (forall id :: id in s.tag ==> s.tag[id] < s.realMax && s.index[s.tag[id]] == For(id))
            && s.busy == |s.busyList| == Ones(s.bits)
    ensures forall a, b :: a in Run(depth, ops).tag && b in Run(depth, ops).tag && a != b ==>
              Run(depth, ops).tag[a] != Run(depth, ops).tag[b]
  {
    var s := Run(depth, ops);
    forall a, b | a in s.tag && b in s.tag && a != b ensures s.tag[a] != s.tag[b] {
      TagsDiffer(s, a, b);
    }
    hide Run, Ones, Unique, Aligned;
  }

  /** nr_requests of a new queue, and the least that can be stored through sysfs. */
  const BLKDEV_MAX_RQ := 128
  const BLKDEV_MIN_RQ := 4

  /** Requests 0 to n - 1 come and are started one after the other. */
  function Started(n: nat): seq<Op> {
    if n == 0 then [] else Started(n - 1) + [Arrive(n - 1)] + [Start(n - 1)]
  }

  /** Request k has tag k, and the other tags are free. */
  ghost predicate Filled(s: State, depth: nat, n: nat) {
    && Shaped(s) && s.maxDepth == s.realMax == depth && s.queue == []
    && (forall k :: 0 <= k < depth ==> (s.bits[k] <==> k < n))
    && (forall id: nat :: id in s.tag <==> id < n)
    && (forall id: nat :: id < n ==> s.tag[id] == id)
  }

  lemma {:induction false} StartedFills(depth: nat, n: nat)
    requires n <= depth
    ensures Possible(depth, Started(n)) && Filled(Run(depth, Started(n)), depth, n)
  {
    hide Filled, Valid, StartTag, TagSpec.Arrive, Run, Possible;
    if n == 0 {
      EmptyFilled(depth);
    } else {
      StartedFills(depth, n - 1);
      var before := Run(depth, Started(n - 1));
      FilledOne(before, depth, n - 1);
      OneMoreOp(depth, Started(n - 1), Arrive(n - 1));
      OneMoreOp(depth, Started(n - 1) + [Arrive(n - 1)], Start(n - 1));
    }
  }

  lemma EmptyFilled(depth: nat)
    ensures Possible(depth, []) && Filled(Run(depth, []), depth, 0)
  {
  }

  lemma FilledOne(s: State, depth: nat, n: nat)
    requires Valid(s) && Filled(s, depth, n) && n < depth
    ensures Enabled(s, Arrive(n)) && Enabled(TagSpec.Arrive(s, n), Start(n))
    ensures Shaped(TagSpec.Arrive(s, n)) && Filled(StartTag(TagSpec.Arrive(s, n), n), depth, n + 1)
  {
    hide IndexOk, ListsOk, LastFirst, Ones, Aligned, FirstZero;
    var there := TagSpec.Arrive(s, n);
    assert there.queue == [n] && there.queue[0] == n;
    WithoutFirst(n);
    LowestFree(s, depth, n);
  }

  lemma WithoutFirst(n: nat)
    ensures Without([n], n) == []
  {
  }

  lemma LowestFree(s: State, depth: nat, n: nat)
    requires Filled(s, depth, n) && n < depth <= |s.bits|
    ensures FirstZero(s.bits, depth) == n
  {
    var t := FirstZero(s.bits, depth);
    assert !s.bits[n];
    if t < depth {
      assert !s.bits[t];
    }
  }

  /** A map of depth 9 with all its tags out, nr_requests lowered to its minimum, and a resize to 10: the new map is clipped
    * to 8 tags, request 8 has tag 8, and the copy does not fit. */
  lemma ResizeGoesBeyond() returns (ops: seq<Op>, s: State)
    ensures Possible(9, ops) && s == Run(9, ops) && Shaped(s) && Clipped(9, 2 * BLKDEV_MAX_RQ) == 9
    ensures Resize(s, 10, 2 * BLKDEV_MIN_RQ).Beyond? && 8 in s.tag && s.tag[8] == 8 >= Clipped(10, 2 * BLKDEV_MIN_RQ)
  {
    hide Resize, Run, Possible;
    ops := Started(9);
    StartedFills(9, 9);
    s := Run(9, ops);
    ResizeInBounds(s, 10, 2 * BLKDEV_MIN_RQ);
  }

  lemma OneMoreOp(depth: nat, ops: seq<Op>, op: Op)
    requires Possible(depth, ops) && Enabled(Run(depth, ops), op)
    ensures Possible(depth, ops + [op]) && Run(depth, ops + [op]) == Step(Run(depth, ops), op)
  {
    hide Enabled, Step;
    assert (ops + [op])[..|ops|] == ops;
  }

  // ---------- in place ----------

  /** What blk_queue_resize_tags comes to. */
  datatype Resizing = Done | Shared | TooShort

  class TagQueue {
    var tagIndex: array<Slot>
    var tagMap: array<bool>
    var busy: int
    var maxDepth: nat
    var realMaxDepth: nat
    var refcnt: nat
    var tag: map<nat, nat>
    var tagBusyList: seq<nat>
    var queueHead: seq<nat>
    ghost var when: map<nat, nat>
    ghost var clock: nat

    constructor (depth: nat)
      ensures Valid() && View() == Init(depth) && refcnt == 1 && fresh(tagIndex) && fresh(tagMap)
    {
      tagIndex := new Slot[depth](_ => Free);
      tagMap := new bool[Aligned(depth)](_ => false);
      busy, maxDepth, realMaxDepth, refcnt := 0, depth, depth, 1;
      tag, tagBusyList, queueHead, when, clock := map[], [], [], map[], 0;
      new;
      InitValid(depth);
      hide Aligned;
      assert View() == Init(depth);
    }

    ghost function View(): State
      reads this, tagIndex, tagMap
    {
      State(tagIndex[..], tagMap[..], busy, maxDepth, realMaxDepth, tag, tagBusyList, queueHead, when, clock)
    }

    ghost predicate Valid()
      reads this, tagIndex, tagMap
    {
      TagProofs.Valid(View())
    }

    /** find_first_zero_bit. */
    method FindFirstZeroBit(size: nat) returns (t: nat)
      requires size <= tagMap.Length
      ensures t == FirstZero(tagMap[..], size)
    {
      t := 0;
      while t < size && tagMap[t]
        invariant t <= size && ZeroFrom(tagMap[..], size, t) == ZeroFrom(tagMap[..], size, 0)
      {
        t := t + 1;
      }
    }

    /** blk_queue_start_tag: true when there was no tag to give. */
    method StartTag(id: nat) returns (none: bool)
      requires Valid() && id in queueHead
      modifies this, tagIndex, tagMap
      ensures Valid() && Shaped(old(View())) && View() == TagSpec.StartTag(old(View()), id) && none == NoTag(old(View()))
      ensures tagIndex == old(tagIndex) && tagMap == old(tagMap)
    {
      ghost var s := View();
      StartKeeps(s, id);
      ValidShaped(s);
      hide TagProofs.Valid, FirstZero, Without, Aligned;
      var t := FindFirstZeroBit(maxDepth);
      none := t >= maxDepth;
      if !none {
        GiveTag(t, id);
      }
      assert View() == TagSpec.StartTag(s, id);
    }

    /** The request has the tag, and goes from the queue to the busy list. */
    method GiveTag(t: nat, id: nat)
      requires t < tagIndex.Length <= tagMap.Length
      modifies this, tagIndex, tagMap
      ensures tagIndex == old(tagIndex) && tagMap == old(tagMap)
      ensures var s := old(View());
              View() == s.(bits := s.bits[t := true], index := s.index[t := For(id)], tag := s.tag[id := t],
                           queue := Without(s.queue, id), busyList := [id] + s.busyList, busy := s.busy + 1,
                           when := s.when[id := s.clock], clock := s.clock + 1)
    {
      tagMap[t] := true;
      tag := tag[id := t];
      tagIndex[t] := For(id);
      queueHead := Without(queueHead, id);
      tagBusyList := [id] + tagBusyList;
      busy := busy + 1;
      when, clock := when[id := clock], clock + 1;
    }

    /** blk_queue_end_tag. */
    method EndTag(id: nat)
      requires Valid() && id in tag
      modifies this, tagIndex, tagMap
      ensures Valid() && Shaped(old(View())) && View() == TagSpec.EndTag(old(View()), id)
      ensures tagIndex == old(tagIndex) && tagMap == old(tagMap)
    {
      EndKeeps(View(), id);
      hide TagProofs.Valid, Without, Aligned;
      assert Shaped(View()) by { ValidShaped(View()); }
      var t := tag[id];
      if t >= realMaxDepth {
        return;
      }
      tagBusyList := Without(tagBusyList, id);
      tag := tag - {id};
      tagIndex[t] := Free;
      if !tagMap[t] {
        return;
      }
      tagMap[t] := false;
      busy := busy - 1;
      assert View() == TagSpec.EndTag(old(View()), id);
    }

    /** blk_requeue_request, with no ordered sequence active. */
    method RequeueRequest(id: nat)
      requires Valid() && id in tag
      modifies this, tagIndex, tagMap
      ensures Valid() && Shaped(old(View())) && View() == Requeue(old(View()), id)
      ensures tagIndex == old(tagIndex) && tagMap == old(tagMap)
    {
      RequeueKeeps(View(), id);
      hide TagProofs.Valid, TagSpec.EndTag;
      EndTag(id);
      queueHead := [id] + queueHead;
      assert View() == Requeue(old(View()), id);
    }

    /** blk_queue_resize_tags. EBUSY when the map is shared; where the source would copy beyond the new arrays, nothing is
      * done and that is reported. */
    method ResizeTags(newDepth: nat, limit: nat) returns (r: Resizing)
      requires Valid()
      modifies this
      ensures Valid() && refcnt == old(refcnt) && Shaped(old(View()))
      ensures r.Shared? <==> newDepth > old(realMaxDepth) && refcnt != 1
      ensures r.TooShort? <==> newDepth > old(realMaxDepth) && refcnt == 1 && Resize(old(View()), newDepth, limit).Beyond?
      ensures if r.Done? then Resize(old(View()), newDepth, limit) == Resized.Resized(View()) else View() == old(View())
    {
      hide TagProofs.Valid, Aligned, Resize, Clipped, Shaped;
      ghost var s := View();
      ValidShaped(s);
      ResizeInBounds(s, newDepth, limit);
      if newDepth > realMaxDepth && refcnt != 1 {
        return Shared;
      }
      if newDepth <= realMaxDepth {
        ResizeKeeps(s, newDepth, limit);
        SameMap(s, newDepth, limit);
        maxDepth := newDepth;
        return Done;
      }
      var d := Clipped(newDepth, limit);
      if d < realMaxDepth {
        return TooShort;
      }
      GrownIs(s, newDepth, limit);
      ResizeKeeps(s, newDepth, limit);
      Grow(d);
      r := Done;
    }

    /** New arrays of the given depth, into which the old ones are copied. */
    method Grow(depth: nat)
      requires Shaped(View()) && depth >= realMaxDepth
      modifies this
      ensures refcnt == old(refcnt) && Aligned(depth) >= |old(View()).bits|
      ensures var s := old(View());
              View() == s.(maxDepth := depth, realMax := depth, index := s.index + seq(depth - s.realMax, _ => Free),
                           bits := s.bits + seq(Aligned(depth) - |s.bits|, _ => false))
    {
      AlignedGrows(realMaxDepth, depth);
      hide Aligned;
      var index := new Slot[depth](_ => Free);
      var bits := new bool[Aligned(depth)](_ => false);
      forall k | 0 <= k < tagIndex.Length {
        index[k] := tagIndex[k];
      }
      forall k | 0 <= k < tagMap.Length {
        bits[k] := tagMap[k];
      }
      assert index[..] == tagIndex[..] + seq(depth - tagIndex.Length, _ => Free);
      assert bits[..] == tagMap[..] + seq(Aligned(depth) - tagMap.Length, _ => false);
      realMaxDepth, maxDepth, tagIndex, tagMap := depth, depth, index, bits;
    }

    /** blk_queue_invalidate_tags. */
    method InvalidateTags()
      requires Valid()
      modifies this, tagIndex, tagMap
      ensures Valid() && View() == Invalidate(old(View()), old(tagBusyList))
      ensures tag == map[] && busy == 0 && tagBusyList == []
    {
      InvalidateRestores(View());
      hide TagProofs.Valid, Requeue, Without;
      ghost var left := tagBusyList;
      while tagBusyList != []
        invariant Valid() && left == tagBusyList && tagIndex == old(tagIndex) && tagMap == old(tagMap)
        invariant Invalidate(View(), left) == Invalidate(old(View()), old(tagBusyList))
        decreases |tagBusyList|
      {
        var id := tagBusyList[0];
        OneInvalidated(View());
        RequeueRequest(id);
        left := left[1..];
      }
    }
  }

  lemma SameMap(s: State, depth: nat, limit: nat)
    requires Shaped(s) && depth <= s.realMax
    ensures Resize(s, depth, limit) == Resized.Resized(s.(maxDepth := depth))
  {
  }

  lemma ValidShaped(s: State)
    requires Valid(s)
    ensures Shaped(s)
  {
  }

  lemma OneInvalidated(s: State)
    requires Valid(s) && s.busyList != []
    ensures Shaped(s) && s.busyList[0] in s.tag
    ensures Requeue(s, s.busyList[0]).busyList == s.busyList[1..]
    ensures Invalidate(Requeue(s, s.busyList[0]), s.busyList[1..]) == Invalidate(s, s.busyList)
  {
    assert s.busyList[0] in s.busyList;
    RequeueKeeps(s, s.busyList[0]);
    hide Requeue;
  }
}
