/** The tag map of a request queue: which tags are out, for which requests, and what happens to those requests. */
module TagSpec {
  import opened UniqueLists

  datatype Slot = Free | For(id: nat)

  /** tag: rq->tag of the tagged requests. busyList: tag_busy_list, the last one started first. queue: the dispatch list.
    * when and clock are history: when a tagged request was started. */
  datatype State = State(index: seq<Slot>, bits: seq<bool>, busy: int, maxDepth: nat, realMax: nat,
                         tag: map<nat, nat>, busyList: seq<nat>, queue: seq<nat>, when: map<nat, nat>, clock: nat)

  /** A depth rounded up to whole words of the bit map. */
  function Aligned(depth: nat): (n: nat)
    ensures n >= depth
  {
    (depth + 31) / 32 * 32
  }

  function Init(depth: nat): State {
    State(seq(depth, _ => Free), seq(Aligned(depth), _ => false), 0, depth, depth, map[], [], [], map[], 0)
  }

  /** find_first_zero_bit: below size, or size. */
  function FirstZero(bits: seq<bool>, size: nat): (t: nat)
    requires size <= |bits|
    ensures t <= size && (t < size ==> !bits[t]) && forall k :: 0 <= k < t ==> bits[k]
  {
    ZeroFrom(bits, size, 0)
  }

  function ZeroFrom(bits: seq<bool>, size: nat, k: nat): (t: nat)
    requires k <= size <= |bits|
    ensures k <= t <= size && (t < size ==> !bits[t]) && forall i :: k <= i < t ==> bits[i]
    decreases size - k
  {
    if k == size || !bits[k] then k else ZeroFrom(bits, size, k + 1)
  }

  predicate Shaped(s: State) {
    |s.index| == s.realMax && |s.bits| == Aligned(s.realMax) && s.maxDepth <= s.realMax
  }

  /** blk_queue_start_tag found no tag. */
  predicate NoTag(s: State)
    requires Shaped(s)
  {
    FirstZero(s.bits, s.maxDepth) >= s.maxDepth
  }

  /** blk_queue_start_tag. */
  function StartTag(s: State, id: nat): State
    requires Shaped(s)
  {
    if NoTag(s) then s
    else
      var t := FirstZero(s.bits, s.maxDepth);
      s.(bits := s.bits[t := true], index := s.index[t := For(id)], tag := s.tag[id := t], queue := Without(s.queue, id),
         busyList := [id] + s.busyList, busy := s.busy + 1, when := s.when[id := s.clock], clock := s.clock + 1)
  }

  /** blk_queue_end_tag, with its ways out for a tag that is beyond the map or not set. */
  function EndTag(s: State, id: nat): State
    requires Shaped(s) && id in s.tag
  {
    var t := s.tag[id];
    if t >= s.realMax then s
    else
      var u := s.(busyList := Without(s.busyList, id), tag := s.tag - {id}, index := s.index[t := Free]);
      if !s.bits[t] then u else u.(bits := s.bits[t := false], busy := s.busy - 1)
  }

  /** blk_requeue_request of a tagged request, with no ordered sequence active. */
  function Requeue(s: State, id: nat): State
    requires Shaped(s) && id in s.tag
  {
    var u := EndTag(s, id);
    u.(queue := [id] + u.queue)
  }

  /** The depth that init_tag_map settles on; limit is twice nr_requests. */
  function Clipped(depth: nat, limit: nat): nat {
    if depth > limit then limit else depth
  }

  /** memcpy of n elements to the front of an array, which may be too short for them. */
  datatype Copied<T> = Copied(contents: seq<T>) | Overrun

  function MemCopy<T>(to: seq<T>, from: seq<T>, n: nat): Copied<T> {
    if n <= |to| && n <= |from| then Copied(from[..n] + to[n..]) else Overrun
  }

  datatype Resized = Resized(s: State) | Beyond

  /** blk_queue_resize_tags: a growing map is replaced by a new one of the clipped depth, and the old contents are copied. */
  function Resize(s: State, depth: nat, limit: nat): Resized
    requires Shaped(s)
  {
    if depth <= s.realMax then Resized.Resized(s.(maxDepth := depth))
    else
      var d := Clipped(depth, limit);
      var index := MemCopy(Init(d).index, s.index, s.realMax);
      var bits := MemCopy(Init(d).bits, s.bits, Aligned(s.realMax));
      if index.Copied? && bits.Copied? then
        Resized.Resized(s.(maxDepth := d, realMax := d, index := index.contents, bits := bits.contents))
      else Beyond
  }

  function Reversed(xs: seq<nat>): (r: seq<nat>)
    ensures |r| == |xs|
  {
    if xs == [] then [] else Reversed(xs[1..]) + [xs[0]]
  }

  /** blk_queue_invalidate_tags: every tagged request, from the head of the busy list on, goes to the front of the queue. */
  function Invalidate(s: State, left: seq<nat>): State
    decreases left
  {
    if left == [] || !Shaped(s) || left[0] !in s.tag then s else Invalidate(Requeue(s, left[0]), left[1..])
  }

  function Arrive(s: State, id: nat): State {
    s.(queue := s.queue + [id])
  }
}
