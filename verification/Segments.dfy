/** Counting the segments of a request and mapping it to a scatter list. */
module Segments {
  /** A bio_vec: a stretch of memory, by its physical address. */
  datatype Vec = Vec(addr: nat, len: nat)

  /** An entry of a scatter list, with its end-of-list bit. */
  datatype Entry = Entry(addr: nat, length: nat, last: bool)

  /** What the queue and the architecture allow. The last four stand for the bounce limit and the BIOVEC_* macros. */
  datatype Limits = Limits(
    cluster: bool,
    maxSize: nat,
    allowed: (Vec, Vec) -> bool,
    high: Vec -> bool,
    virtMergeable: (Vec, Vec) -> bool,
    oversize: nat -> bool,
    startSize: Vec -> nat)

  /** BIOVEC_PHYS_MERGEABLE and BIOVEC_SEG_BOUNDARY: adjacent in memory, and whatever else is asked. */
  predicate Joinable(q: Limits, v: Vec, w: Vec) {
    v.addr + v.len == w.addr && q.allowed(v, w)
  }

  // ---------- ways to cut a list of vectors into segments ----------

  /** How many segments the first n vectors make, when cuts says where one begins. */
  function Count(cuts: seq<bool>, n: nat): nat
    requires n <= |cuts|
  {
    if n == 0 then 0 else Count(cuts, n - 1) + (if cuts[n - 1] then 1 else 0)
  }

  /** Size of the last of these segments. */
  function Size(vs: seq<Vec>, cuts: seq<bool>, n: nat): nat
    requires n <= |cuts| <= |vs|
  {
    if n == 0 then 0 else if cuts[n - 1] then vs[n - 1].len else Size(vs, cuts, n - 1) + vs[n - 1].len
  }

  /** Vector n may go into the segment before it. */
  predicate MayJoin(q: Limits, vs: seq<Vec>, cuts: seq<bool>, n: nat)
    requires n <= |cuts| <= |vs| && n < |vs|
  {
    n > 0 && q.cluster && Size(vs, cuts, n) + vs[n].len <= q.maxSize && Joinable(q, vs[n - 1], vs[n])
  }

  /** No segment of more than one vector breaks a limit. (The cuts may be those of the first vectors only.) */
  predicate ValidCuts(q: Limits, vs: seq<Vec>, cuts: seq<bool>) {
    |cuts| <= |vs| && forall i :: 0 <= i < |cuts| ==> cuts[i] || MayJoin(q, vs, cuts, i)
  }

  /** Cutting only where it must be. */
  predicate GreedyCuts(q: Limits, vs: seq<Vec>, cuts: seq<bool>) {
    |cuts| <= |vs| && forall i :: 0 <= i < |cuts| ==> (cuts[i] <==> !MayJoin(q, vs, cuts, i))
  }

  /** Greedy stays ahead of every other way to cut: fewer segments, or as many with no more in the last. */
  lemma {:induction false} GreedyStaysAhead(q: Limits, vs: seq<Vec>, g: seq<bool>, cuts: seq<bool>, n: nat)
    requires GreedyCuts(q, vs, g) && ValidCuts(q, vs, cuts) && n <= |g| && n <= |cuts|
    ensures Count(g, n) < Count(cuts, n) || (Count(g, n) == Count(cuts, n) && Size(vs, g, n) <= Size(vs, cuts, n))
  {
    if n > 0 {
      GreedyStaysAhead(q, vs, g, cuts, n - 1);
      assert cuts[n - 1] || MayJoin(q, vs, cuts, n - 1);
      assert g[n - 1] <==> !MayJoin(q, vs, g, n - 1);
    }
  }

  /** One more cut changes nothing about the vectors before it. */
  lemma {:induction false} OneCutMore(vs: seq<Vec>, cuts: seq<bool>, b: bool, n: nat)
    requires n <= |cuts| < |vs| && (n > 0 ==> cuts[0])
    ensures Count(cuts + [b], n) == Count(cuts, n) && Size(vs, cuts + [b], n) == Size(vs, cuts, n)
    ensures Entries(vs, cuts + [b], n) == Entries(vs, cuts, n)
  {
    if n > 0 {
      OneCutMore(vs, cuts, b, n - 1);
    }
  }

  lemma OneGreedyCutMore(q: Limits, vs: seq<Vec>, cuts: seq<bool>, b: bool)
    requires GreedyCuts(q, vs, cuts) && |cuts| < |vs| && (cuts != [] ==> cuts[0])
    requires b <==> !MayJoin(q, vs, cuts, |cuts|)
    ensures GreedyCuts(q, vs, cuts + [b])
  {
    hide Joinable;
    forall i | 0 <= i < |cuts| + 1 ensures (cuts + [b])[i] <==> !MayJoin(q, vs, cuts + [b], i) {
      OneCutMore(vs, cuts, b, i);
    }
  }

  // ---------- scatter lists ----------

  /** The entries for the first n vectors. */
  function Entries(vs: seq<Vec>, cuts: seq<bool>, n: nat): (r: seq<Vec>)
    requires n <= |cuts| <= |vs| && (n > 0 ==> cuts[0])
    ensures |r| == Count(cuts, n)
    ensures n > 0 ==> r != [] && r[|r| - 1].len == Size(vs, cuts, n)
  {
    if n == 0 then []
    else
      var r := Entries(vs, cuts, n - 1);
      var v := vs[n - 1];
      if cuts[n - 1] then r + [v] else r[|r| - 1 := Vec(r[|r| - 1].addr, r[|r| - 1].len + v.len)]
  }

  /** The bytes of memory a list of stretches runs through. */
  function Bytes(vs: seq<Vec>): seq<nat> {
    if vs == [] then [] else Bytes(vs[..|vs| - 1]) + Range(vs[|vs| - 1])
  }

  function Range(v: Vec): seq<nat> {
    seq(v.len, i requires 0 <= i => v.addr + i)
  }

  lemma BytesAppend(vs: seq<Vec>, v: Vec)
    ensures Bytes(vs + [v]) == Bytes(vs) + Range(v)
  {
    assert (vs + [v])[..|vs|] == vs;
  }

  lemma RangeGrows(v: Vec, w: Vec)
    requires v.addr + v.len == w.addr
    ensures Range(Vec(v.addr, v.len + w.len)) == Range(v) + Range(w)
  {
  }

  lemma CoverCut(p: seq<Vec>, before: seq<Vec>, v: Vec)
    requires Bytes(p) == Bytes(before)
    ensures Bytes(p + [v]) == Bytes(before + [v])
  {
    BytesAppend(p, v);
    BytesAppend(before, v);
  }

  lemma CoverJoin(p: seq<Vec>, before: seq<Vec>, v: Vec)
    requires Bytes(p) == Bytes(before) && p != [] && p[|p| - 1].addr + p[|p| - 1].len == v.addr
    ensures var e := p[|p| - 1]; Bytes(p[|p| - 1 := Vec(e.addr, e.len + v.len)]) == Bytes(before + [v])
  {
    var front, e := p[..|p| - 1], p[|p| - 1];
    var e' := Vec(e.addr, e.len + v.len);
    assert p == front + [e] && p[|p| - 1 := e'] == front + [e'];
    BytesAppend(front, e);
    BytesAppend(front, e');
    BytesAppend(before, v);
    RangeGrows(e, v);
    hide Bytes, Range;
    assert Bytes(front) + Range(e) + Range(v) == Bytes(front) + (Range(e) + Range(v));
  }

  /** The entries run through the same bytes in the same order, and the last one ends where the last vector does. */
  lemma {:induction false} EntriesCover(q: Limits, vs: seq<Vec>, cuts: seq<bool>, n: nat)
    requires ValidCuts(q, vs, cuts) && n <= |cuts|
    ensures n > 0 ==> cuts[0]
    ensures var r := Entries(vs, cuts, n);
            && Bytes(r) == Bytes(vs[..n])
            && (n > 0 ==> r[|r| - 1].addr + r[|r| - 1].len == vs[n - 1].addr + vs[n - 1].len)
  {
    if n > 0 {
      var unused := MayJoin(q, vs, cuts, 0);
      EntriesCover(q, vs, cuts, n - 1);
      var p, v := Entries(vs, cuts, n - 1), vs[n - 1];
      assert vs[..n] == vs[..n - 1] + [v];
      var joined := MayJoin(q, vs, cuts, n - 1);
      hide Bytes;
      if cuts[n - 1] {
        CoverCut(p, vs[..n - 1], v);
      } else {
        CoverJoin(p, vs[..n - 1], v);
      }
    }
  }

  /** Whether all of a stretch lies in one window of the address space, where w tells the window of an address. */
  predicate InWindow(w: nat -> nat, v: Vec) {
    v.len > 0 ==> w(v.addr) == w(v.addr + v.len - 1)
  }

  ghost predicate Monotone(w: nat -> nat) {
    forall a, b :: a <= b ==> w(a) <= w(b)
  }

  /** The queue joins only what __BIO_SEG_BOUNDARY lets it: vectors that lie together in one window. */
  ghost predicate KeepsWindows(q: Limits, w: nat -> nat) {
    forall u, v :: Joinable(q, u, v) && v.len > 0 ==> w(u.addr) == w(v.addr + v.len - 1)
  }

  /** Limits that hold of pairs hold of whole entries: each one is a single vector, or is no longer than max_segment_size
    * and crosses no boundary. */
  lemma {:induction false} EntriesKeepLimits(q: Limits, w: nat -> nat, vs: seq<Vec>, cuts: seq<bool>, n: nat)
    requires ValidCuts(q, vs, cuts) && n <= |cuts| && (n > 0 ==> cuts[0])
    requires Monotone(w) && KeepsWindows(q, w) && forall i :: 0 <= i < |vs| ==> vs[i].len > 0
    ensures var r := Entries(vs, cuts, n);
            && (forall i :: 0 <= i < |r| ==> r[i] in vs || (r[i].len <= q.maxSize && InWindow(w, r[i])))
            && (n > 0 ==>
                  var e := r[|r| - 1];
                  && e.addr <= vs[n - 1].addr && e.addr + e.len == vs[n - 1].addr + vs[n - 1].len
                  && w(e.addr) == w(vs[n - 1].addr))
  {
    if n > 0 {
      EntriesKeepLimits(q, w, vs, cuts, n - 1);
      var p, v := Entries(vs, cuts, n - 1), vs[n - 1];
      assert v in vs;
      if !cuts[n - 1] {
        assert MayJoin(q, vs, cuts, n - 1);
        assert Joinable(q, vs[n - 2], v);
        assert w(vs[n - 2].addr) <= w(v.addr) <= w(v.addr + v.len - 1);
      }
    }
  }

  // ---------- counting ----------

  /** The state of the count: physical and hardware segments, the sizes of the last ones, and of the first hardware one. */
  datatype Tally = Tally(phys: nat, hw: nat, segSize: nat, hwSize: nat, first: nat)

  /** A hardware segment begins here whatever its size: at the first vector and around a high page. */
  predicate Forced(q: Limits, vs: seq<Vec>, n: nat)
    requires n < |vs|
  {
    n == 0 || q.high(vs[n]) || q.high(vs[n - 1])
  }

  /** Vector n extends the last physical segment of t. */
  predicate Extends(q: Limits, vs: seq<Vec>, t: Tally, n: nat)
    requires n < |vs|
  {
    && !Forced(q, vs, n) && q.cluster && t.segSize + vs[n].len <= q.maxSize && Joinable(q, vs[n - 1], vs[n])
    && !q.oversize(t.hwSize + vs[n].len)
  }

  /** Vector n begins a physical segment but stays in the last hardware segment. */
  predicate StaysInHw(q: Limits, vs: seq<Vec>, t: Tally, n: nat)
    requires n < |vs|
  {
    && !Forced(q, vs, n) && q.virtMergeable(vs[n - 1], vs[n]) && !q.oversize(t.hwSize + vs[n].len)
    && !(q.cluster && t.segSize + vs[n].len <= q.maxSize && Joinable(q, vs[n - 1], vs[n]))
  }

  /** The count of the first n vectors. */
  function Tallied(q: Limits, vs: seq<Vec>, n: nat): Tally
    requires n <= |vs|
  {
    if n == 0 then Tally(0, 0, 0, 0, 0)
    else
      var t := Tallied(q, vs, n - 1);
      var v := vs[n - 1];
      if Extends(q, vs, t, n - 1) then AddHw(t.(segSize := t.segSize + v.len), v.len)
      else if StaysInHw(q, vs, t, n - 1) then AddHw(t.(phys := t.phys + 1, segSize := v.len), v.len)
      else
        var s := q.startSize(v) + v.len;
        Tally(t.phys + 1, t.hw + 1, v.len, s, if t.hw == 0 then s else t.first)
  }

  function AddHw(t: Tally, len: nat): Tally {
    t.(hwSize := t.hwSize + len, first := if t.hw == 1 then t.hwSize + len else t.first)
  }

  /** The cuts that go with the count. */
  function CountCuts(q: Limits, vs: seq<Vec>, n: nat): (r: seq<bool>)
    requires n <= |vs|
    ensures |r| == n
  {
    if n == 0 then [] else CountCuts(q, vs, n - 1) + [!Extends(q, vs, Tallied(q, vs, n - 1), n - 1)]
  }

  /** The count is that of a way to cut that breaks no limit. */
  lemma {:induction false} CountIsOfCuts(q: Limits, vs: seq<Vec>, n: nat)
    requires n <= |vs|
    ensures var cuts := CountCuts(q, vs, |vs|);
            && (forall i :: 0 <= i < n ==> cuts[i] == CountCuts(q, vs, i + 1)[i])
            && Tallied(q, vs, n).phys == Count(cuts, n) && Tallied(q, vs, n).segSize == Size(vs, cuts, n)
  {
    hide Extends, StaysInHw;
    if n > 0 {
      CountIsOfCuts(q, vs, n - 1);
      CutsPrefix(q, vs, n, |vs|);
    }
  }

  lemma {:induction false} CutsPrefix(q: Limits, vs: seq<Vec>, n: nat, m: nat)
    requires n <= m <= |vs|
    ensures CountCuts(q, vs, n) == CountCuts(q, vs, m)[..n]
    decreases m
  {
    if n < m {
      CutsPrefix(q, vs, n, m - 1);
    }
  }

  lemma CountIsValid(q: Limits, vs: seq<Vec>)
    ensures ValidCuts(q, vs, CountCuts(q, vs, |vs|))
    ensures Tallied(q, vs, |vs|).phys == Count(CountCuts(q, vs, |vs|), |vs|)
  {
    var cuts := CountCuts(q, vs, |vs|);
    CountIsOfCuts(q, vs, |vs|);
    forall i | 0 <= i < |vs| ensures cuts[i] || MayJoin(q, vs, cuts, i) {
      CountIsOfCuts(q, vs, i);
      CutsPrefix(q, vs, i + 1, |vs|);
    }
  }

  /** Main theorem: the scatter list of a request is never longer than its count of physical segments. */
  lemma CountIsSafe(q: Limits, vs: seq<Vec>, g: seq<bool>)
    requires GreedyCuts(q, vs, g)
    ensures Count(g, |g|) <= Tallied(q, vs, |vs|).phys
  {
    CountIsValid(q, vs);
    GreedyStaysAhead(q, vs, g, CountCuts(q, vs, |vs|), |g|);
    CountGrows(CountCuts(q, vs, |vs|), |g|, |vs|);
  }

  /** Room for this many entries is enough for the scatter list. */
  ghost predicate Enough(q: Limits, vs: seq<Vec>, room: nat) {
    forall g: seq<bool> :: |g| == |vs| && GreedyCuts(q, vs, g) ==> Count(g, |g|) <= room
  }

  /** The same theorem as a bound on what MapSg may write. */
  lemma RecountIsEnough(q: Limits, vs: seq<Vec>)
    ensures Enough(q, vs, Tallied(q, vs, |vs|).phys)
  {
    forall g: seq<bool> | |g| == |vs| && GreedyCuts(q, vs, g) ensures Count(g, |g|) <= Tallied(q, vs, |vs|).phys {
      CountIsSafe(q, vs, g);
    }
  }

  /** The greedy cuts of the first vectors go on to greedy cuts of all. */
  lemma {:induction false} GreedyExtends(q: Limits, vs: seq<Vec>, cuts: seq<bool>) returns (g: seq<bool>)
    requires GreedyCuts(q, vs, cuts)
    ensures |g| == |vs| && GreedyCuts(q, vs, g) && g[..|cuts|] == cuts
    decreases |vs| - |cuts|
  {
    hide Joinable;
    if |cuts| == |vs| {
      g := cuts;
    } else {
      var first := MayJoin(q, vs, cuts, 0);
      var b := !MayJoin(q, vs, cuts, |cuts|);
      OneGreedyCutMore(q, vs, cuts, b);
      g := GreedyExtends(q, vs, cuts + [b]);
      assert g[..|cuts|] == g[..|cuts| + 1][..|cuts|];
    }
  }

  lemma {:induction false} CountOfPrefix(cuts: seq<bool>, g: seq<bool>, n: nat)
    requires n <= |cuts| <= |g| && g[..|cuts|] == cuts
    ensures Count(g, n) == Count(cuts, n)
  {
    if n > 0 {
      assert cuts[n - 1] == g[..|cuts|][n - 1];
      CountOfPrefix(cuts, g, n - 1);
    }
  }

  lemma RoomForOne(q: Limits, vs: seq<Vec>, cuts: seq<bool>, room: nat)
    requires GreedyCuts(q, vs, cuts) && |cuts| < |vs| && (cuts != [] ==> cuts[0]) && Enough(q, vs, room)
    ensures var more := if MayJoin(q, vs, cuts, |cuts|) then 0 else 1;
            Count(cuts, |cuts|) + more <= room
  {
    hide Joinable, GreedyCuts, MayJoin;
    var b := !MayJoin(q, vs, cuts, |cuts|);
    OneGreedyCutMore(q, vs, cuts, b);
    OneCutMore(vs, cuts, b, |cuts|);
    var g := GreedyExtends(q, vs, cuts + [b]);
    CountOfPrefix(cuts + [b], g, |cuts| + 1);
    CountGrows(g, |cuts| + 1, |g|);
  }

  lemma {:induction false} CountGrows(cuts: seq<bool>, m: nat, n: nat)
    requires m <= n <= |cuts|
    ensures Count(cuts, m) <= Count(cuts, n)
    decreases n
  {
    if m < n {
      CountGrows(cuts, m, n - 1);
    }
  }

  /** It is exactly as long when there are no high pages and no limit on hardware segments. */
  lemma {:induction false} CountIsExact(q: Limits, vs: seq<Vec>, g: seq<bool>, n: nat)
    requires GreedyCuts(q, vs, g) && n <= |g|
    requires (forall i :: 0 <= i < |vs| ==> !q.high(vs[i])) && (forall s :: !q.oversize(s))
    ensures Tallied(q, vs, n).phys == Count(g, n) && Tallied(q, vs, n).segSize == Size(vs, g, n)
  {
    if n > 0 {
      CountIsExact(q, vs, g, n - 1);
      assert g[n - 1] <==> !MayJoin(q, vs, g, n - 1);
    }
  }

  /** Hardware segments are made of physical ones. */
  lemma {:induction false} HwAtMostPhys(q: Limits, vs: seq<Vec>, n: nat)
    requires n <= |vs|
    ensures var t := Tallied(q, vs, n); t.hw <= t.phys <= n && (n > 0 ==> t.hw > 0)
  {
    if n > 0 {
      HwAtMostPhys(q, vs, n - 1);
    }
  }

  // ---------- the source's two loops ----------

  function Max(a: nat, b: nat): nat { if a < b then b else a }

  class Request {
    var nrPhysSegments: nat
    var nrHwSegments: nat
    var hwFrontSize: nat    // of the first bio
    var hwBackSize: nat     // of the last bio

    /** blk_recalc_rq_segments, for a request with bios. */
    method RecalcSegments(q: Limits, vs: seq<Vec>)
      modifies this
      ensures var t := Tallied(q, vs, |vs|);
              && nrPhysSegments == t.phys && nrHwSegments == t.hw
              && hwFrontSize == (if t.hw > 0 then Max(old(hwFrontSize), t.first) else old(hwFrontSize))
              && hwBackSize == Max(old(hwBackSize), t.hwSize)
    {
      hide Joinable;
      var segSize, hwSegSize, phys, hw := 0, 0, 0, 0;
      var highprv, i := true, 0;
      while i < |vs|
        invariant i <= |vs|
        invariant var t := Tallied(q, vs, i);
                  && phys == t.phys && hw == t.hw && segSize == t.segSize && hwSegSize == t.hwSize
                  && (hw == 1 ==> hwSegSize == t.first)
                  && (hw <= 1 ==> hwFrontSize == old(hwFrontSize))
                  && (hw > 1 ==> hwFrontSize == Max(old(hwFrontSize), t.first))
        invariant (i > 0 <==> hw > 0) && highprv == (i == 0 || q.high(vs[i - 1]))
        invariant hwBackSize == old(hwBackSize)
      {
        var v := vs[i];
        var high := q.high(v);
        var newHw, newSegment := false, true;
        if high || highprv {
          newHw := true;
        } else {
          var joins := q.cluster && segSize + v.len <= q.maxSize && Joinable(q, vs[i - 1], v);
          if joins && !q.oversize(hwSegSize + v.len) {
            newSegment := false;
          } else if joins {
            newHw := true;
          } else {
            newHw := !(q.virtMergeable(vs[i - 1], v) && !q.oversize(hwSegSize + v.len));
          }
        }
        if !newSegment {
          segSize := segSize + v.len;
          hwSegSize := hwSegSize + v.len;
        } else {
          if newHw {
            if hw == 1 && hwSegSize > hwFrontSize {
              hwFrontSize := hwSegSize;
            }
            hwSegSize := q.startSize(v) + v.len;
            hw := hw + 1;
          } else {
            hwSegSize := hwSegSize + v.len;
          }
          phys := phys + 1;
          segSize := v.len;
          highprv := high;
        }
        i := i + 1;
      }
      if hw == 1 && hwSegSize > hwFrontSize {
        hwFrontSize := hwSegSize;
      }
      if hwSegSize > hwBackSize {
        hwBackSize := hwSegSize;
      }
      nrPhysSegments, nrHwSegments := phys, hw;
    }

    /** blk_rq_map_sg, when the count is large enough: after a recount it is (RecountIsEnough). */
    method MapSg(q: Limits, vs: seq<Vec>, sglist: array<Entry>) returns (nsegs: nat, ghost cuts: seq<bool>)
      requires nrPhysSegments <= sglist.Length && Enough(q, vs, nrPhysSegments)
      modifies sglist
      ensures |cuts| == |vs| && GreedyCuts(q, vs, cuts) && (vs != [] ==> cuts[0])
      ensures nsegs == Count(cuts, |vs|) <= nrPhysSegments
      ensures Stretches(sglist[..nsegs]) == Entries(vs, cuts, |vs|)
      ensures forall i :: 0 <= i < nsegs ==> (sglist[i].last <==> i == nsegs - 1)
      ensures sglist[nsegs..] == old(sglist[nsegs..])
    {
      hide Joinable, GreedyCuts, Mapped, Enough;
      nsegs, cuts := 0, [];
      ghost var was := sglist[..];
      NothingMapped(q, was, vs);
      var i := 0;
      while i < |vs|
        invariant i <= |vs| && |cuts| == i && GreedyCuts(q, vs, cuts) && (i > 0 ==> cuts[0])
        invariant Mapped(sglist[..], was, nsegs, vs, cuts)
      {
        RoomForOne(q, vs, cuts, nrPhysSegments);
        nsegs, cuts := MapOne(q, vs, sglist, i, nsegs, cuts, was);
        i := i + 1;
      }
      EnoughFor(q, vs, cuts, nrPhysSegments);
      MarkEnd(sglist, was, nsegs, vs, cuts);
    }
  }

  lemma EnoughFor(q: Limits, vs: seq<Vec>, g: seq<bool>, room: nat)
    requires Enough(q, vs, room) && |g| == |vs| && GreedyCuts(q, vs, g)
    ensures Count(g, |g|) <= room
  {
  }

  lemma NothingMapped(q: Limits, was: seq<Entry>, vs: seq<Vec>)
    ensures Mapped(was, was, 0, vs, []) && GreedyCuts(q, vs, [])
  {
  }

  /** The first r entries stand for the vectors cut so far, and the others are as they were. */
  predicate Mapped(es: seq<Entry>, was: seq<Entry>, r: nat, vs: seq<Vec>, cuts: seq<bool>) {
    && |cuts| <= |vs| && (cuts != [] ==> cuts[0] && r > 0)
    && r == Count(cuts, |cuts|) <= |es| == |was|
    && Stretches(es[..r]) == Entries(vs, cuts, |cuts|)
    && (forall j :: 0 <= j < r - 1 ==> !es[j].last)
    && es[r..] == was[r..]
  }

  method MarkEnd(sglist: array<Entry>, ghost was: seq<Entry>, nsegs: nat, ghost vs: seq<Vec>, ghost cuts: seq<bool>)
    requires Mapped(sglist[..], was, nsegs, vs, cuts)
    modifies sglist
    ensures nsegs == Count(cuts, |cuts|) <= sglist.Length
    ensures Stretches(sglist[..nsegs]) == Entries(vs, cuts, |cuts|)
    ensures forall i :: 0 <= i < nsegs ==> (sglist[i].last <==> i == nsegs - 1)
    ensures sglist[nsegs..] == was[nsegs..]
  {
    if nsegs > 0 {
      sglist[nsegs - 1] := sglist[nsegs - 1].(last := true);
    }
  }

  /** One round of the loop of blk_rq_map_sg. */
  method MapOne(q: Limits, vs: seq<Vec>, sglist: array<Entry>, i: nat, nsegs: nat, ghost cuts: seq<bool>, ghost was: seq<Entry>)
    returns (r: nat, ghost cuts': seq<bool>)
    requires i == |cuts| < |vs| && GreedyCuts(q, vs, cuts) && (i > 0 ==> cuts[0])
    requires Mapped(sglist[..], was, nsegs, vs, cuts)
    requires Count(cuts, i) + (if MayJoin(q, vs, cuts, i) then 0 else 1) <= sglist.Length
    modifies sglist
    ensures |cuts'| == i + 1 && GreedyCuts(q, vs, cuts') && cuts'[0]
    ensures Mapped(sglist[..], was, r, vs, cuts')
  {
    hide Joinable, GreedyCuts, MayJoin;
    ghost var b := !MayJoin(q, vs, cuts, i);
    OneCutMore(vs, cuts, b, i);
    OneGreedyCutMore(q, vs, cuts, b);
    cuts' := cuts + [b];
    LastEntry(q, vs, cuts, i, sglist[..], was, nsegs);
    if i > 0 && q.cluster && sglist[nsegs - 1].length + vs[i].len <= q.maxSize && Joinable(q, vs[i - 1], vs[i]) {
      Lengthen(vs, sglist, i, nsegs, cuts, was);
      r := nsegs;
    } else {
      r := OpenEntry(vs, sglist, i, nsegs, cuts, was);
    }
  }

  /** The test of blk_rq_map_sg for joining a vector to the last entry. */
  lemma LastEntry(q: Limits, vs: seq<Vec>, cuts: seq<bool>, i: nat, es: seq<Entry>, was: seq<Entry>, r: nat)
    requires i == |cuts| < |vs| && GreedyCuts(q, vs, cuts) && (i > 0 ==> cuts[0]) && Mapped(es, was, r, vs, cuts)
    ensures i > 0 ==> r > 0
    ensures MayJoin(q, vs, cuts, i) <==>
            i > 0 && q.cluster && es[r - 1].length + vs[i].len <= q.maxSize && Joinable(q, vs[i - 1], vs[i])
  {
    hide Joinable, GreedyCuts;
  }

  method Lengthen(vs: seq<Vec>, sglist: array<Entry>, i: nat, nsegs: nat, ghost cuts: seq<bool>, ghost was: seq<Entry>)
    requires i == |cuts| < |vs| && i > 0 && Mapped(sglist[..], was, nsegs, vs, cuts) && cuts[0]
    modifies sglist
    ensures Mapped(sglist[..], was, nsegs, vs, cuts + [false])
  {
    OneCutMore(vs, cuts, false, i);
    ghost var p := Entries(vs, cuts, i);
    var v := vs[i];
    sglist[nsegs - 1] := sglist[nsegs - 1].(length := sglist[nsegs - 1].length + v.len);
    assert Stretches(sglist[..nsegs]) == p[nsegs - 1 := Vec(p[nsegs - 1].addr, p[nsegs - 1].len + v.len)];
  }

  method OpenEntry(vs: seq<Vec>, sglist: array<Entry>, i: nat, nsegs: nat, ghost cuts: seq<bool>, ghost was: seq<Entry>)
    returns (r: nat)
    requires i == |cuts| < |vs| && Mapped(sglist[..], was, nsegs, vs, cuts) && (i > 0 ==> cuts[0]) && nsegs < sglist.Length
    modifies sglist
    ensures Mapped(sglist[..], was, r, vs, cuts + [true])
  {
    OneCutMore(vs, cuts, true, i);
    ghost var p := Entries(vs, cuts, i);
    if nsegs > 0 {
      sglist[nsegs - 1] := sglist[nsegs - 1].(last := false);
    }
    sglist[nsegs] := Entry(vs[i].addr, vs[i].len, sglist[nsegs].last);
    r := nsegs + 1;
    assert Stretches(sglist[..r]) == p + [vs[i]];
  }

  /** The memory that entries stand for. */
  function Stretches(es: seq<Entry>): (r: seq<Vec>)
    ensures |r| == |es|
    ensures forall i :: 0 <= i < |es| ==> r[i] == Vec(es[i].addr, es[i].length)
  {
    seq(|es|, i requires 0 <= i < |es| => Vec(es[i].addr, es[i].length))
  }
}
