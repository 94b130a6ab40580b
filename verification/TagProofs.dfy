/** Set bits, index entries, the busy count and the busy list always agree. */
module TagProofs {
  import opened UniqueLists
  import opened TagSpec

  function Ones(bits: seq<bool>): nat {
    if bits == [] then 0 else Ones(bits[..|bits| - 1]) + if bits[|bits| - 1] then 1 else 0
  }

  ghost predicate IndexOk(index: seq<Slot>, bits: seq<bool>, tag: map<nat, nat>) {
    && (forall t :: 0 <= t < |bits| ==> (bits[t] <==> t < |index| && index[t].For?))
    && (forall t :: 0 <= t < |index| && index[t].For? ==> index[t].id in tag && tag[index[t].id] == t)
    && (forall id :: id in tag ==> tag[id] < |index| && index[tag[id]] == For(id))
  }

  ghost predicate ListsOk(tag: map<nat, nat>, busyList: seq<nat>, queue: seq<nat>) {
    && Unique(busyList) && Unique(queue)
    && (forall id: nat :: id in tag <==> id in busyList)
    && (forall id: nat :: id in busyList ==> id !in queue)
  }

  /** On the busy list the one started last comes first. */
  ghost predicate LastFirst(busyList: seq<nat>, when: map<nat, nat>, clock: nat) {
    && (forall id :: id in busyList ==> id in when && when[id] < clock)
    && (forall i, j :: 0 <= i < j < |busyList| ==> when[busyList[i]] > when[busyList[j]])
  }

  ghost predicate Valid(s: State) {
    && Shaped(s) && IndexOk(s.index, s.bits, s.tag) && ListsOk(s.tag, s.busyList, s.queue)
    && LastFirst(s.busyList, s.when, s.clock)
    && s.busy == |s.busyList| == Ones(s.bits)
  }

  // ---------- counting ----------

  lemma {:induction false} OnesSet(bits: seq<bool>, t: nat, b: bool)
    requires t < |bits|
    ensures Ones(bits[t := b]) == Ones(bits) - (if bits[t] then 1 else 0) + if b then 1 else 0
  {
    var n := |bits| - 1;
    var r := bits[t := b];
    if t == n {
      assert r[..n] == bits[..n];
    } else {
      assert r[..n] == bits[..n][t := b];
      OnesSet(bits[..n], t, b);
    }
  }

  lemma {:induction false} OnesPadded(bits: seq<bool>, n: nat)
    ensures Ones(bits + seq(n, _ => false)) == Ones(bits)
    decreases n
  {
    var r := bits + seq(n, _ => false);
    if n == 0 {
      assert r == bits;
    } else {
      assert r[..|r| - 1] == bits + seq(n - 1, _ => false);
      OnesPadded(bits, n - 1);
    }
  }

  lemma {:induction false} OnesNone(n: nat)
    ensures Ones(seq(n, _ => false)) == 0
  {
    OnesPadded([], n);
    assert [] + seq(n, _ => false) == seq(n, _ => false);
  }

  lemma {:induction false} OnesClear(bits: seq<bool>)
    requires Ones(bits) == 0
    ensures forall t :: 0 <= t < |bits| ==> !bits[t]
  {
    if bits != [] {
      OnesClear(bits[..|bits| - 1]);
    }
  }

  lemma InitValid(depth: nat)
    ensures Valid(Init(depth))
  {
    OnesNone(Aligned(depth));
    hide Ones, Aligned;
  }

  // ---------- starting ----------

  /** Live tags are distinct. */
  lemma TagsDiffer(s: State, a: nat, b: nat)
    requires Valid(s) && a in s.tag && b in s.tag && a != b
    ensures s.tag[a] != s.tag[b]
  {
    assert s.index[s.tag[a]] == For(a) && s.index[s.tag[b]] == For(b);
    hide Ones, Unique, Aligned;
  }

  lemma StartIndex(index: seq<Slot>, bits: seq<bool>, tag: map<nat, nat>, t: nat, id: nat)
    requires IndexOk(index, bits, tag) && t < |index| <= |bits| && !bits[t] && id !in tag
    ensures IndexOk(index[t := For(id)], bits[t := true], tag[id := t])
  {
  }

  lemma StartLists(tag: map<nat, nat>, busyList: seq<nat>, queue: seq<nat>, t: nat, id: nat)
    requires ListsOk(tag, busyList, queue) && id !in tag && id in queue
    ensures ListsOk(tag[id := t], [id] + busyList, Without(queue, id))
  {
    WithoutIs(queue, id);
    WithIs(busyList, 0, id);
    assert busyList[..0] + [id] + busyList[0..] == [id] + busyList;
    hide Unique, Without;
  }

  lemma StartOrder(busyList: seq<nat>, when: map<nat, nat>, clock: nat, id: nat)
    requires LastFirst(busyList, when, clock) && id !in busyList
    ensures LastFirst([id] + busyList, when[id := clock], clock + 1)
  {
    var r, w := [id] + busyList, when[id := clock];
    forall i, j | 0 <= i < j < |r| ensures w[r[i]] > w[r[j]] {
      assert r[j] == busyList[j - 1] && r[j] in busyList;
      if i > 0 {
        assert r[i] == busyList[i - 1] && r[i] in busyList;
      }
    }
  }

  /** A request gets the lowest free tag below the depth, unless there is none. */
  lemma StartKeeps(s: State, id: nat)
    requires Valid(s) && id in s.queue
    ensures var u := StartTag(s, id);
            && Valid(u)
            && (NoTag(s) <==> forall t :: 0 <= t < s.maxDepth ==> s.bits[t])
            && (!NoTag(s) ==> id in u.tag && u.tag[id] < s.maxDepth && s.index[u.tag[id]] == Free
                              && (forall t :: 0 <= t < u.tag[id] ==> s.index[t].For?) && id !in u.queue)
  {
    hide IndexOk, ListsOk, LastFirst, Ones, Without, Aligned, Unique, FirstZero;
    var t := FirstZero(s.bits, s.maxDepth);
    Untagged(s.tag, s.busyList, s.queue, id);
    if !NoTag(s) {
      StartIndex(s.index, s.bits, s.tag, t, id);
      StartLists(s.tag, s.busyList, s.queue, t, id);
      StartOrder(s.busyList, s.when, s.clock, id);
      OnesSet(s.bits, t, true);
      WithoutIs(s.queue, id);
      IndexIs(s.index, s.bits, s.tag, t);
    }
  }

  lemma Untagged(tag: map<nat, nat>, busyList: seq<nat>, queue: seq<nat>, id: nat)
    requires ListsOk(tag, busyList, queue) && id in queue
    ensures id !in tag && id !in busyList && Unique(queue)
  {
  }

  lemma IndexIs(index: seq<Slot>, bits: seq<bool>, tag: map<nat, nat>, t: nat)
    requires IndexOk(index, bits, tag) && t < |index| <= |bits| && !bits[t] && forall k :: 0 <= k < t ==> bits[k]
    ensures index[t] == Free && forall k :: 0 <= k < t ==> index[k].For?
  {
  }

  // ---------- ending ----------

  lemma EndIndex(index: seq<Slot>, bits: seq<bool>, tag: map<nat, nat>, id: nat)
    requires IndexOk(index, bits, tag) && |index| <= |bits| && id in tag
    ensures tag[id] < |index| && bits[tag[id]] && index[tag[id]] == For(id) && IndexOk(index[tag[id] := Free], bits[tag[id] := false], tag - {id})
  {
  }

  lemma WithoutOrder(xs: seq<nat>, when: map<nat, nat>, clock: nat, id: nat)
    requires LastFirst(xs, when, clock)
    ensures LastFirst(Without(xs, id), when, clock)
  {
    var c := WithoutCuts(xs, id);
    var r := Without(xs, id);
    forall k | 0 <= k < |r| ensures r[k] == xs[if k < c then k else k + 1] && r[k] in xs {
    }
    hide Without;
  }

  /** Ending a tag takes both odd ways out of blk_queue_end_tag never: the tag is within the map, and its bit is set. */
  lemma EndKeeps(s: State, id: nat)
    requires Valid(s) && id in s.tag
    ensures s.tag[id] < s.realMax && s.bits[s.tag[id]] && s.index[s.tag[id]] == For(id)
    ensures var u := EndTag(s, id);
            && Valid(u) && u.tag == s.tag - {id} && u.busy == s.busy - 1 && u.queue == s.queue
            && u.index == s.index[s.tag[id] := Free] && id !in u.busyList && id !in u.queue
  {
    hide IndexOk, ListsOk, LastFirst, Ones, Without, Aligned, Unique;
    EndIndex(s.index, s.bits, s.tag, id);
    EndLists(s.tag, s.busyList, s.queue, id);
    WithoutOrder(s.busyList, s.when, s.clock, id);
    OnesSet(s.bits, s.tag[id], false);
  }

  lemma EndLists(tag: map<nat, nat>, busyList: seq<nat>, queue: seq<nat>, id: nat)
    requires ListsOk(tag, busyList, queue) && id in tag
    ensures ListsOk(tag - {id}, Without(busyList, id), queue)
    ensures id !in Without(busyList, id) && id !in queue && |Without(busyList, id)| == |busyList| - 1
  {
    hide Without, Unique;
    WithoutIs(busyList, id);
  }

  lemma RequeueKeeps(s: State, id: nat)
    requires Valid(s) && id in s.tag
    ensures var u := Requeue(s, id);
            && Valid(u) && u.tag == s.tag - {id} && u.busyList == Without(s.busyList, id) && u.queue == [id] + s.queue
  {
    EndKeeps(s, id);
    var e := EndTag(s, id);
    FrontLists(e.tag, e.busyList, e.queue, id);
    hide Without, ListsOk, IndexOk, LastFirst, Ones, Aligned, Unique;
  }

  lemma FrontLists(tag: map<nat, nat>, busyList: seq<nat>, queue: seq<nat>, id: nat)
    requires ListsOk(tag, busyList, queue) && id !in busyList && id !in queue
    ensures ListsOk(tag, busyList, [id] + queue)
  {
    WithIs(queue, 0, id);
    assert queue[..0] + [id] + queue[0..] == [id] + queue;
    hide Unique;
  }

  // ---------- resizing ----------

  lemma AlignedGrows(a: nat, b: nat)
    requires a <= b
    ensures Aligned(a) <= Aligned(b)
  {
  }

  /** Resizing copies beyond the new map exactly if it grows the map to a clipped depth that is below the old one. */
  lemma ResizeInBounds(s: State, depth: nat, limit: nat)
    requires Shaped(s)
    ensures Resize(s, depth, limit).Resized? <==> depth <= s.realMax || Clipped(depth, limit) >= s.realMax
  {
    if s.realMax <= Clipped(depth, limit) {
      AlignedGrows(s.realMax, Clipped(depth, limit));
    }
    hide Aligned;
  }

  /** Growing in bounds adds free tags and changes nothing else. */
  lemma GrownIs(s: State, depth: nat, limit: nat)
    requires Shaped(s) && depth > s.realMax && Clipped(depth, limit) >= s.realMax
    ensures var d := Clipped(depth, limit);
            && Aligned(d) >= |s.bits|
            && Resize(s, depth, limit) ==
                 Resized.Resized(s.(maxDepth := d, realMax := d, index := s.index + seq(d - s.realMax, _ => Free),
                                    bits := s.bits + seq(Aligned(d) - |s.bits|, _ => false)))
  {
    var d := Clipped(depth, limit);
    AlignedGrows(s.realMax, d);
    hide Aligned;
    assert s.index[..s.realMax] + Init(d).index[s.realMax..] == s.index + seq(d - s.realMax, _ => Free);
    assert s.bits[..|s.bits|] + Init(d).bits[|s.bits|..] == s.bits + seq(Aligned(d) - |s.bits|, _ => false);
  }

  lemma ResizeKeeps(s: State, depth: nat, limit: nat)
    requires Valid(s) && Resize(s, depth, limit).Resized?
    ensures Valid(Resize(s, depth, limit).s) && Resize(s, depth, limit).s.tag == s.tag
  {
    hide IndexOk, ListsOk, LastFirst, Ones, Aligned, Unique;
    ResizeInBounds(s, depth, limit);
    if depth > s.realMax {
      var d := Clipped(depth, limit);
      GrownIs(s, depth, limit);
      OnesPadded(s.bits, Aligned(d) - |s.bits|);
      GrownIndex(s.index, s.bits, s.tag, d - s.realMax, Aligned(d) - |s.bits|);
    }
    hide Resize;
  }

  lemma GrownIndex(index: seq<Slot>, bits: seq<bool>, tag: map<nat, nat>, n: nat, m: nat)
    requires IndexOk(index, bits, tag) && |index| <= |bits|
    ensures IndexOk(index + seq(n, _ => Free), bits + seq(m, _ => false), tag)
  {
  }

  // ---------- invalidating ----------

  lemma ReversedEnd(xs: seq<nat>, rest: seq<nat>)
    requires xs != []
    ensures Reversed(xs[1..]) + ([xs[0]] + rest) == Reversed(xs) + rest
  {
  }

  lemma {:induction false} InvalidateIs(s: State, left: seq<nat>)
    requires Valid(s) && left == s.busyList
    ensures var u := Invalidate(s, left);
            && Valid(u) && u.tag == map[] && u.busyList == [] && u.busy == 0
            && u.queue == Reversed(left) + s.queue && u.when == s.when
    decreases left
  {
    if left == [] {
      assert forall id :: id in s.tag ==> id in s.busyList;
      assert s.tag == map[];
    } else {
      var id := left[0];
      assert id in s.busyList;
      RequeueKeeps(s, id);
      assert Without(left, id) == left[1..];
      var u := Requeue(s, id);
      InvalidateIs(u, left[1..]);
      ReversedEnd(left, s.queue);
      assert u.when == s.when;
      hide Valid, Requeue, Reversed, Without;
    }
  }

  lemma {:induction false} ReversedAt(xs: seq<nat>, k: nat)
    requires k < |xs|
    ensures Reversed(xs)[k] == xs[|xs| - 1 - k]
  {
    if k < |xs| - 1 {
      ReversedAt(xs[1..], k);
    }
  }

  /** Invalidating frees every tag and puts all that was out in front of the queue, the one started earliest first. */
  lemma InvalidateRestores(s: State)
    requires Valid(s)
    ensures var u := Invalidate(s, s.busyList);
            && Valid(u) && u.tag == map[] && u.busyList == [] && u.busy == 0
            && (forall t :: 0 <= t < |u.bits| ==> !u.bits[t]) && (forall t :: 0 <= t < |u.index| ==> u.index[t] == Free)
            && |u.queue| == s.busy + |s.queue| && u.queue[s.busy..] == s.queue
            && (forall id: nat :: id in u.queue[..s.busy] <==> id in s.tag)
            && (forall i, j :: 0 <= i < j < s.busy ==>
                  u.queue[i] in s.when && u.queue[j] in s.when && s.when[u.queue[i]] < s.when[u.queue[j]])
  {
    InvalidateIs(s, s.busyList);
    var u := Invalidate(s, s.busyList);
    OnesClear(u.bits);
    var b := s.busyList;
    var r := Reversed(b);
    forall k: nat | k < |b| ensures r[k] == b[|b| - 1 - k] {
      ReversedAt(b, k);
    }
    assert u.queue[..|b|] == r;
    hide Invalidate, Reversed, Ones, Unique, Aligned;
    forall id: nat ensures id in r <==> id in s.tag {
      if id in b {
        var k :| 0 <= k < |b| && b[k] == id;
        assert r[|b| - 1 - k] == id;
      }
    }
    forall i, j | 0 <= i < j < s.busy
      ensures u.queue[i] in s.when && u.queue[j] in s.when && s.when[u.queue[i]] < s.when[u.queue[j]]
    {
      assert u.queue[i] == b[|b| - 1 - i] && u.queue[j] == b[|b| - 1 - j];
      assert b[|b| - 1 - i] in b && b[|b| - 1 - j] in b;
    }
  }
}
