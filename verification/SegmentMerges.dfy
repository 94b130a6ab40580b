/** The segment counts that merging keeps by addition, against the scatter list of the merged request. */
module SegmentMerges {
  import opened Segments

  /** max_sectors, max_phys_segments and max_hw_segments of the queue. */
  datatype Caps = Caps(maxSectors: nat, maxPhys: nat, maxHw: nat)

  /** A request: the vectors of each of its bios, its sectors and its two counts. */
  datatype Req = Req(bios: seq<seq<Vec>>, sectors: nat, phys: int, hw: int)

  datatype Try = Refused | Merged(req: Req)

  /** Bytes in the first n vectors. */
  function Length(vs: seq<Vec>, n: nat): nat
    requires n <= |vs|
  {
    if n == 0 then 0 else Length(vs, n - 1) + vs[n - 1].len
  }

  function Total(b: seq<Vec>): nat { Length(b, |b|) }

  /** A bio with data: a whole number of sectors. */
  predicate IsBio(b: seq<Vec>) {
    b != [] && Total(b) >= 512 && Total(b) % 512 == 0
  }

  predicate AreBios(bios: seq<seq<Vec>>) {
    bios != [] && forall i :: 0 <= i < |bios| ==> IsBio(bios[i])
  }

  function PhysOf(q: Limits, b: seq<Vec>): nat { Tallied(q, b, |b|).phys }

  function HwOf(q: Limits, b: seq<Vec>): nat { Tallied(q, b, |b|).hw }

  // ---------- the merge functions ----------

  /** The seam between two bios: last vector of one, first of the other. */
  predicate VirtContig(q: Limits, b: seq<Vec>, c: seq<Vec>, fits: bool)
    requires b != [] && c != []
  {
    q.virtMergeable(b[|b| - 1], c[0]) && fits
  }

  /** blk_phys_contig_segment: the sizes compared are those of whole bios. */
  predicate PhysContig(q: Limits, b: seq<Vec>, c: seq<Vec>)
    requires b != [] && c != []
  {
    q.cluster && Joinable(q, b[|b| - 1], c[0]) && Total(b) + Total(c) <= q.maxSize
  }

  /** A request of one bio, by blk_rq_bio_prep. */
  function Alone(q: Limits, b: seq<Vec>): Req { Req([b], Total(b) / 512, PhysOf(q, b), HwOf(q, b)) }

  /** The counts after one more bio: ll_new_mergeable when virt holds, ll_new_hw_segment otherwise. */
  function WithBio(q: Limits, c: Caps, r: Req, b: seq<Vec>, virt: bool, bios: seq<seq<Vec>>): Try {
    var s, p, h := r.sectors + Total(b) / 512, r.phys + PhysOf(q, b), if virt then r.hw else r.hw + HwOf(q, b);
    if s > c.maxSectors || p > c.maxPhys || (!virt && h > c.maxHw) then Refused else Merged(Req(bios, s, p, h))
  }

  /** ll_back_merge_fn, and the bio at the end of the list. */
  function Back(q: Limits, c: Caps, r: Req, b: seq<Vec>, fits: bool): Try
    requires AreBios(r.bios) && IsBio(b)
  {
    WithBio(q, c, r, b, VirtContig(q, r.bios[|r.bios| - 1], b, fits), r.bios + [b])
  }

  /** ll_front_merge_fn, and the bio at the head of the list. */
  function Front(q: Limits, c: Caps, b: seq<Vec>, r: Req, fits: bool): Try
    requires AreBios(r.bios) && IsBio(b)
  {
    WithBio(q, c, r, b, VirtContig(q, b, r.bios[0], fits), [b] + r.bios)
  }

  /** ll_merge_requests_fn, and the second list of bios after the first. */
  function Join(q: Limits, c: Caps, r: Req, n: Req, fits: bool): Try
    requires AreBios(r.bios) && AreBios(n.bios)
  {
    var b, d := r.bios[|r.bios| - 1], n.bios[0];
    var p := r.phys + n.phys - (if PhysContig(q, b, d) then 1 else 0);
    var h := r.hw + n.hw - (if VirtContig(q, b, d, fits) then 1 else 0);
    if r.sectors + n.sectors > c.maxSectors || p > c.maxPhys || h > c.maxHw then Refused
    else Merged(Req(r.bios + n.bios, r.sectors + n.sectors, p, h))
  }

  /** How a request comes to be: from one bio, by a bio at its back or its front, and by the merge with a neighbour that
    * __make_request tries after each of the two. */
  datatype Build =
    | One(b: seq<Vec>)
    | AtBack(r: Build, b: seq<Vec>, fits: bool)
    | AtFront(b: seq<Vec>, r: Build, fits: bool)
    | BackJoin(r: Build, b: seq<Vec>, next: Build, fits: bool, hwFits: bool)
    | FrontJoin(prev: Build, b: seq<Vec>, r: Build, fits: bool, hwFits: bool)

  /** Bios with data only. */
  predicate Proper(t: Build) {
    IsBio(t.b) && (!t.One? ==> Proper(t.r)) && (t.BackJoin? ==> Proper(t.next)) && (t.FrontJoin? ==> Proper(t.prev))
  }

  function Make(q: Limits, c: Caps, t: Build): (m: Try)
    requires Proper(t)
    ensures m.Merged? ==> AreBios(m.req.bios)
  {
    match t
    case One(b) => Merged(Alone(q, b))
    case AtBack(r, b, fits) => TryBack(q, c, Make(q, c, r), b, fits)
    case AtFront(b, r, fits) => TryFront(q, c, b, Make(q, c, r), fits)
    case BackJoin(r, b, next, fits, hwFits) =>
      TryJoin(q, c, TryBack(q, c, Make(q, c, r), b, fits), Make(q, c, next), hwFits)
    case FrontJoin(prev, b, r, fits, hwFits) =>
      TryJoin(q, c, Make(q, c, prev), TryFront(q, c, b, Make(q, c, r), fits), hwFits)
  }

  predicate Formed(m: Try) { m.Merged? ==> AreBios(m.req.bios) }

  function TryBack(q: Limits, c: Caps, m: Try, b: seq<Vec>, fits: bool): (r: Try)
    requires Formed(m) && IsBio(b)
    ensures Formed(r)
  {
    if m.Refused? then Refused else Back(q, c, m.req, b, fits)
  }

  function TryFront(q: Limits, c: Caps, b: seq<Vec>, m: Try, fits: bool): (r: Try)
    requires Formed(m) && IsBio(b)
    ensures Formed(r)
  {
    if m.Refused? then Refused else Front(q, c, b, m.req, fits)
  }

  function TryJoin(q: Limits, c: Caps, m: Try, n: Try, fits: bool): (r: Try)
    requires Formed(m) && Formed(n)
    ensures Formed(r)
  {
    if m.Refused? || n.Refused? then Refused else Join(q, c, m.req, n.req, fits)
  }

  /** The vectors of the first n bios. */
  function Vecs(bios: seq<seq<Vec>>, n: nat): seq<Vec>
    requires n <= |bios|
  {
    if n == 0 then [] else Vecs(bios, n - 1) + bios[n - 1]
  }

  /** The count of a request is enough for its scatter list. */
  ghost predicate Fits(q: Limits, r: Req) {
    r.phys >= 0 && Enough(q, Vecs(r.bios, |r.bios|), r.phys)
  }

  /** Every request that merging can make has a count that is enough. */
  ghost predicate Safe(q: Limits, c: Caps) {
    forall t: Build :: Proper(t) && Make(q, c, t).Merged? ==> Fits(q, Make(q, c, t).req)
  }

  // ---------- cutting the vectors of a request as its counts say ----------

  lemma {:induction false} SizePrefix(vs: seq<Vec>, ws: seq<Vec>, cuts: seq<bool>, ds: seq<bool>, n: nat)
    requires n <= |cuts| <= |vs| && |ds| <= |ws|
    ensures |cuts + ds| <= |vs + ws|
    ensures Size(vs + ws, cuts + ds, n) == Size(vs, cuts, n) && Count(cuts + ds, n) == Count(cuts, n)
  {
    if n > 0 {
      SizePrefix(vs, ws, cuts, ds, n - 1);
    }
  }

  lemma {:induction false} SizeAtMost(vs: seq<Vec>, cuts: seq<bool>, n: nat)
    requires n <= |cuts| <= |vs|
    ensures Size(vs, cuts, n) <= Length(vs, n)
  {
    if n > 0 {
      SizeAtMost(vs, cuts, n - 1);
    }
  }

  lemma {:induction false} LengthGrows(vs: seq<Vec>, m: nat, n: nat)
    requires m <= n <= |vs|
    ensures Length(vs, m) <= Length(vs, n)
    decreases n
  {
    if m < n {
      LengthGrows(vs, m, n - 1);
    }
  }

  /** A list of vectors that begins with a cut, after another. */
  lemma {:induction false} After(vs: seq<Vec>, cuts: seq<bool>, b: seq<Vec>, ds: seq<bool>, n: nat)
    requires |cuts| == |vs| && |ds| == |b| && 0 < n <= |b| && ds[0]
    ensures Size(vs + b, cuts + ds, |vs| + n) == Size(b, ds, n)
    ensures Count(cuts + ds, |vs| + n) == Count(cuts, |vs|) + Count(ds, n)
  {
    if n == 1 {
      SizePrefix(vs, b, cuts, ds, |vs|);
    } else {
      After(vs, cuts, b, ds, n - 1);
    }
  }

  lemma JoinsBefore(q: Limits, vs: seq<Vec>, cuts: seq<bool>, b: seq<Vec>, ds: seq<bool>, i: nat)
    requires |cuts| == |vs| && |ds| == |b| && i < |vs| && MayJoin(q, vs, cuts, i)
    ensures MayJoin(q, vs + b, cuts + ds, i)
  {
    hide Joinable, Size;
    SizePrefix(vs, b, cuts, ds, i);
  }

  lemma JoinsAfter(q: Limits, vs: seq<Vec>, cuts: seq<bool>, b: seq<Vec>, ds: seq<bool>, j: nat)
    requires |cuts| == |vs| && |ds| == |b| && 0 < j < |b| && ds[0] && MayJoin(q, b, ds, j)
    ensures MayJoin(q, vs + b, cuts + ds, |vs| + j)
  {
    hide Joinable, Size;
    After(vs, cuts, b, ds, j);
  }

  lemma ValidAfter(q: Limits, vs: seq<Vec>, cuts: seq<bool>, b: seq<Vec>, ds: seq<bool>)
    requires |cuts| == |vs| && |ds| == |b| && b != [] && ds[0]
    requires ValidCuts(q, vs, cuts) && ValidCuts(q, b, ds)
    ensures ValidCuts(q, vs + b, cuts + ds)
  {
    hide MayJoin;
    forall i | 0 <= i < |vs + b| ensures (cuts + ds)[i] || MayJoin(q, vs + b, cuts + ds, i) {
      if i < |vs| {
        if !cuts[i] {
          JoinsBefore(q, vs, cuts, b, ds, i);
        }
      } else if !ds[i - |vs|] {
        JoinsAfter(q, vs, cuts, b, ds, i - |vs|);
      }
    }
  }

  /** The same when its first segment goes on from the last one before it. */
  lemma {:induction false} Onto(vs: seq<Vec>, cuts: seq<bool>, b: seq<Vec>, ds: seq<bool>, n: nat)
    requires |cuts| == |vs| && |ds| == |b| && b != [] && ds[0] && n <= |b|
    ensures var es := ds[0 := false];
            && Size(vs + b, cuts + es, |vs| + n) <= Size(vs, cuts, |vs|) + Length(b, n)
            && Count(cuts + es, |vs| + n) + (if n > 0 then 1 else 0) == Count(cuts, |vs|) + Count(ds, n)
  {
    if n == 0 {
      SizePrefix(vs, b, cuts, ds[0 := false], |vs|);
    } else {
      Onto(vs, cuts, b, ds, n - 1);
    }
  }

  lemma JoinsOnto(q: Limits, vs: seq<Vec>, cuts: seq<bool>, b: seq<Vec>, ds: seq<bool>, j: nat)
    requires |cuts| == |vs| && |ds| == |b| && j < |b| && ds[0] && vs != [] && (j > 0 ==> MayJoin(q, b, ds, j))
    requires q.cluster && Joinable(q, vs[|vs| - 1], b[0]) && Size(vs, cuts, |vs|) + Total(b) <= q.maxSize
    ensures MayJoin(q, vs + b, cuts + ds[0 := false], |vs| + j)
  {
    hide Joinable, Size;
    Onto(vs, cuts, b, ds, j);
    LengthGrows(b, j + 1, |b|);
  }

  lemma ValidOnto(q: Limits, vs: seq<Vec>, cuts: seq<bool>, b: seq<Vec>, ds: seq<bool>)
    requires |cuts| == |vs| && |ds| == |b| && b != [] && ds[0] && vs != []
    requires ValidCuts(q, vs, cuts) && ValidCuts(q, b, ds)
    requires q.cluster && Joinable(q, vs[|vs| - 1], b[0]) && Size(vs, cuts, |vs|) + Total(b) <= q.maxSize
    ensures ValidCuts(q, vs + b, cuts + ds[0 := false])
  {
    hide MayJoin, Joinable, Size, Total;
    var es := ds[0 := false];
    forall i | 0 <= i < |vs + b| ensures (cuts + es)[i] || MayJoin(q, vs + b, cuts + es, i) {
      if i < |vs| {
        if !cuts[i] {
          JoinsBefore(q, vs, cuts, b, es, i);
        }
      } else if !es[i - |vs|] {
        JoinsOnto(q, vs, cuts, b, ds, i - |vs|);
      }
    }
  }

  // ---------- the seams that were counted as joined ----------

  /** Bytes in the first n bios. */
  function Sum(bios: seq<seq<Vec>>, n: nat): nat
    requires n <= |bios|
  {
    if n == 0 then 0 else Sum(bios, n - 1) + Total(bios[n - 1])
  }

  /** Physical segments of the first n bios, each on its own. */
  function PhysSum(q: Limits, bios: seq<seq<Vec>>, n: nat): nat
    requires n <= |bios|
  {
    if n == 0 then 0 else PhysSum(q, bios, n - 1) + PhysOf(q, bios[n - 1])
  }

  /** Bytes in the last bios of the first n that hang together: seams tells of each bio whether it goes on from the one
    * before it. */
  function Chain(bios: seq<seq<Vec>>, seams: seq<bool>, n: nat): nat
    requires n <= |seams| == |bios|
  {
    if n == 0 then 0 else (if seams[n - 1] then Chain(bios, seams, n - 1) else 0) + Total(bios[n - 1])
  }

  /** The seams counted as joined passed the test of whole bios. */
  predicate Tested(q: Limits, bios: seq<seq<Vec>>, seams: seq<bool>) {
    && AreBios(bios) && |seams| == |bios| && !seams[0]
    && forall i :: 0 < i < |seams| && seams[i] ==> PhysContig(q, bios[i - 1], bios[i])
  }

  /** No chain of bios is longer than a segment may be. */
  predicate Short(q: Limits, bios: seq<seq<Vec>>, seams: seq<bool>) {
    |seams| == |bios| && forall i :: 0 <= i < |seams| && seams[i] ==> Chain(bios, seams, i + 1) <= q.maxSize
  }

  lemma LastOfVecs(bios: seq<seq<Vec>>, n: nat)
    requires AreBios(bios) && 0 < n <= |bios|
    ensures var vs := Vecs(bios, n); vs != [] && vs[|vs| - 1] == bios[n - 1][|bios[n - 1]| - 1]
  {
    assert IsBio(bios[n - 1]);
  }

  /** When chains are short, the counted joins belong to a way to cut the vectors that breaks no limit. */
  lemma {:induction false} CutAtSeams(q: Limits, bios: seq<seq<Vec>>, seams: seq<bool>, n: nat) returns (cuts: seq<bool>)
    requires Tested(q, bios, seams) && Short(q, bios, seams) && n <= |bios|
    ensures var vs := Vecs(bios, n);
            && |cuts| == |vs| && ValidCuts(q, vs, cuts)
            && Size(vs, cuts, |vs|) <= Chain(bios, seams, n)
            && Count(cuts, |vs|) + Count(seams, n) == PhysSum(q, bios, n)
  {
    hide Joinable, ValidCuts, Tallied, CountCuts;
    if n == 0 {
      cuts := [];
      NoCuts(q);
    } else {
      var vs, b := Vecs(bios, n - 1), bios[n - 1];
      var before := CutAtSeams(q, bios, seams, n - 1);
      assert IsBio(b);
      var ds := CountCuts(q, b, |b|);
      OwnCuts(q, b);
      if seams[n - 1] {
        LastOfVecs(bios, n - 1);
        Onto(vs, before, b, ds, |b|);
        ValidOnto(q, vs, before, b, ds);
        cuts := before + ds[0 := false];
      } else {
        After(vs, before, b, ds, |b|);
        SizeAtMost(b, ds, |b|);
        ValidAfter(q, vs, before, b, ds);
        cuts := before + ds;
      }
    }
  }

  lemma NoCuts(q: Limits)
    ensures ValidCuts(q, [], [])
  {
  }

  lemma OwnCuts(q: Limits, b: seq<Vec>)
    requires b != []
    ensures var ds := CountCuts(q, b, |b|); |ds| == |b| && ds[0] && ValidCuts(q, b, ds) && Count(ds, |b|) == PhysOf(q, b)
  {
    CountIsValid(q, b);
    var unused := MayJoin(q, b, CountCuts(q, b, |b|), 0);
  }

  // ---------- what every merge keeps ----------

  /** Two joined seams in a row. */
  predicate Pair(seams: seq<bool>, i: int) {
    0 < i && i + 1 < |seams| && seams[i] && seams[i + 1]
  }

  /** Because a join always has a bio just added on one side of it, no joined seam is the only one of two bios, and no more
    * than two follow each other, with bios on both sides. */
  ghost predicate Sparse(seams: seq<bool>) {
    && (forall i :: 0 < i < |seams| && seams[i] ==> i >= 2 || i + 1 < |seams|)
    && (forall i :: Pair(seams, i) ==> i >= 2 && i + 2 < |seams| && !seams[i + 2])
  }

  function Glue(left: seq<bool>, s: bool, right: seq<bool>): seq<bool>
    requires right != []
  {
    left + right[0 := s]
  }

  lemma GlueSparse(left: seq<bool>, s: bool, right: seq<bool>)
    requires Sparse(left) && Sparse(right) && left != [] && right != [] && !left[0] && !right[0]
    requires s ==> (|left| >= 2 && !left[|left| - 1]) || (|right| >= 2 && !right[1])
    ensures Sparse(Glue(left, s, right))
  {
    var seams, n := Glue(left, s, right), |left|;
    forall i | 0 < i < |seams| && seams[i] ensures i >= 2 || i + 1 < |seams| {
      if i < n {
        assert left[i];
      } else if i > n {
        assert right[i - n];
      }
    }
    forall i | Pair(seams, i) ensures i >= 2 && i + 2 < |seams| && !seams[i + 2] {
      if i + 1 < n {
        assert Pair(left, i);
      } else if i > n {
        assert Pair(right, i - n);
      } else if i == n {
        assert right[1];
        assert !Pair(right, 1);
      } else {
        assert left[i];
      }
    }
  }

  lemma {:induction false} CountGlue(left: seq<bool>, right: seq<bool>, n: nat)
    requires n <= |right|
    ensures Count(left + right, |left| + n) == Count(left, |left|) + Count(right, n)
  {
    if n == 0 {
      CountOfPrefix(left, left + right, |left|);
    } else {
      CountGlue(left, right, n - 1);
    }
  }

  lemma {:induction false} CountButFirst(seams: seq<bool>, s: bool, n: nat)
    requires 0 < n <= |seams| && !seams[0]
    ensures Count(seams[0 := s], n) == Count(seams, n) + (if s then 1 else 0)
  {
    if n > 1 {
      CountButFirst(seams, s, n - 1);
    }
  }

  lemma {:induction false} SumsPrefix(q: Limits, left: seq<seq<Vec>>, right: seq<seq<Vec>>, n: nat)
    requires n <= |left|
    ensures Sum(left + right, n) == Sum(left, n) && PhysSum(q, left + right, n) == PhysSum(q, left, n)
  {
    hide Total, PhysOf;
    if n > 0 {
      SumsPrefix(q, left, right, n - 1);
    }
  }

  lemma {:induction false} SumsGlue(q: Limits, left: seq<seq<Vec>>, right: seq<seq<Vec>>, n: nat)
    requires n <= |right|
    ensures Sum(left + right, |left| + n) == Sum(left, |left|) + Sum(right, n)
    ensures PhysSum(q, left + right, |left| + n) == PhysSum(q, left, |left|) + PhysSum(q, right, n)
  {
    hide Total, PhysOf;
    if n == 0 {
      SumsPrefix(q, left, right, |left|);
    } else {
      SumsGlue(q, left, right, n - 1);
    }
  }

  lemma TestedGlue(q: Limits, left: seq<seq<Vec>>, ls: seq<bool>, right: seq<seq<Vec>>, rs: seq<bool>, s: bool)
    requires Tested(q, left, ls) && Tested(q, right, rs)
    requires s ==> PhysContig(q, left[|left| - 1], right[0])
    ensures Tested(q, left + right, Glue(ls, s, rs))
  {
    hide PhysContig, Total;
    var bios, seams := left + right, Glue(ls, s, rs);
    assert AreBios(bios);
    forall i | 0 < i < |seams| && seams[i] ensures PhysContig(q, bios[i - 1], bios[i]) {
      if i < |left| {
        assert ls[i];
      } else if i > |left| {
        assert rs[i - |left|];
      }
    }
  }

  ghost predicate NeverVirt(q: Limits) {
    forall v, w :: !q.virtMergeable(v, w)
  }

  /** The invariant of a request under merging. */
  ghost predicate Kept(q: Limits, c: Caps, r: Req, seams: seq<bool>) {
    && Tested(q, r.bios, seams) && Sparse(seams)
    && r.phys + Count(seams, |seams|) == PhysSum(q, r.bios, |r.bios|)
    && r.sectors * 512 == Sum(r.bios, |r.bios|)
    && (NeverVirt(q) ==> |r.bios| <= r.hw)
    && (|r.bios| > 1 ==> r.sectors <= c.maxSectors && r.phys <= c.maxPhys && (NeverVirt(q) ==> r.hw <= c.maxHw))
  }

  /** Two requests as one. */
  lemma GlueKeeps(q: Limits, c: Caps, r: Req, rs: seq<bool>, n: Req, ns: seq<bool>, s: bool, m: Req)
    requires Kept(q, c, r, rs) && Kept(q, c, n, ns) && Sparse(Glue(rs, s, ns))
    requires s ==> PhysContig(q, r.bios[|r.bios| - 1], n.bios[0])
    requires m.bios == r.bios + n.bios && m.sectors == r.sectors + n.sectors <= c.maxSectors
    requires m.phys == r.phys + n.phys - (if s then 1 else 0) <= c.maxPhys
    requires NeverVirt(q) ==> m.hw == r.hw + n.hw <= c.maxHw
    ensures Kept(q, c, m, Glue(rs, s, ns))
  {
    hide PhysContig, IsBio, Sparse, Tallied, NeverVirt;
    TestedGlue(q, r.bios, rs, n.bios, ns, s);
    CountGlue(rs, ns[0 := s], |ns|);
    CountButFirst(ns, s, |ns|);
    SumsGlue(q, r.bios, n.bios, |n.bios|);
  }

  lemma AloneKeeps(q: Limits, c: Caps, b: seq<Vec>)
    requires IsBio(b)
    ensures Kept(q, c, Alone(q, b), [false])
  {
    HwAtMostPhys(q, b, |b|);
    assert Count([false], 1) == Count([false], 0);
    assert Sum([b], 1) == Sum([b], 0) + Total(b);
    assert PhysSum(q, [b], 1) == PhysSum(q, [b], 0) + PhysOf(q, b);
  }

  lemma BackKeeps(q: Limits, c: Caps, r: Req, seams: seq<bool>, b: seq<Vec>, fits: bool)
    requires Kept(q, c, r, seams) && IsBio(b) && Back(q, c, r, b, fits).Merged?
    ensures Kept(q, c, Back(q, c, r, b, fits).req, seams + [false])
  {
    hide Tallied, Total, PhysContig;
    AloneKeeps(q, c, b);
    GlueSparse(seams, false, [false]);
    assert Glue(seams, false, [false]) == seams + [false];
    GlueKeeps(q, c, r, seams, Alone(q, b), [false], false, Back(q, c, r, b, fits).req);
  }

  lemma FrontKeeps(q: Limits, c: Caps, b: seq<Vec>, r: Req, seams: seq<bool>, fits: bool)
    requires Kept(q, c, r, seams) && IsBio(b) && Front(q, c, b, r, fits).Merged?
    ensures Kept(q, c, Front(q, c, b, r, fits).req, [false] + seams)
  {
    hide Tallied, Total, PhysContig;
    AloneKeeps(q, c, b);
    GlueSparse([false], false, seams);
    assert Glue([false], false, seams) == [false] + seams;
    GlueKeeps(q, c, Alone(q, b), [false], r, seams, false, Front(q, c, b, r, fits).req);
  }

  lemma JoinKeeps(q: Limits, c: Caps, r: Req, rs: seq<bool>, n: Req, ns: seq<bool>, fits: bool) returns (seams: seq<bool>)
    requires Kept(q, c, r, rs) && Kept(q, c, n, ns) && Join(q, c, r, n, fits).Merged?
    requires (|rs| >= 2 && !rs[|rs| - 1]) || (|ns| >= 2 && !ns[1])
    ensures Kept(q, c, Join(q, c, r, n, fits).req, seams)
  {
    hide Tallied, Total, PhysContig;
    var s := PhysContig(q, r.bios[|r.bios| - 1], n.bios[0]);
    GlueSparse(rs, s, ns);
    seams := Glue(rs, s, ns);
    GlueKeeps(q, c, r, rs, n, ns, s, Join(q, c, r, n, fits).req);
  }

  /** Every way to build a request keeps the invariant. */
  lemma {:induction false} BuildKeeps(q: Limits, c: Caps, t: Build) returns (seams: seq<bool>)
    requires Proper(t) && Make(q, c, t).Merged?
    ensures Kept(q, c, Make(q, c, t).req, seams)
  {
    hide Kept, Back, Front, Join, Alone, IsBio;
    match t
    case One(b) =>
      AloneKeeps(q, c, b);
      seams := [false];
    case AtBack(r, b, fits) =>
      var rs := BuildKeeps(q, c, r);
      BackKeeps(q, c, Make(q, c, r).req, rs, b, fits);
      seams := rs + [false];
    case AtFront(b, r, fits) =>
      var rs := BuildKeeps(q, c, r);
      FrontKeeps(q, c, b, Make(q, c, r).req, rs, fits);
      seams := [false] + rs;
    case BackJoin(r, b, next, fits, hwFits) =>
      var rs := BuildKeeps(q, c, r);
      var ns := BuildKeeps(q, c, next);
      var m := Make(q, c, r).req;
      BackKeeps(q, c, m, rs, b, fits);
      SeamsOf(q, c, m, rs);
      seams := JoinKeeps(q, c, Back(q, c, m, b, fits).req, rs + [false], Make(q, c, next).req, ns, hwFits);
    case FrontJoin(prev, b, r, fits, hwFits) =>
      var ps := BuildKeeps(q, c, prev);
      var rs := BuildKeeps(q, c, r);
      var m := Make(q, c, r).req;
      FrontKeeps(q, c, b, m, rs, fits);
      SeamsOf(q, c, m, rs);
      seams := JoinKeeps(q, c, Make(q, c, prev).req, ps, Front(q, c, b, m, fits).req, [false] + rs, hwFits);
  }

  lemma SeamsOf(q: Limits, c: Caps, r: Req, seams: seq<bool>)
    requires Kept(q, c, r, seams)
    ensures seams != [] && !seams[0]
  {
  }

  // ---------- when the counts are enough ----------

  lemma {:induction false} SumGrows(bios: seq<seq<Vec>>, m: nat, n: nat)
    requires m <= n <= |bios|
    ensures Sum(bios, m) <= Sum(bios, n)
    decreases n
  {
    hide Total;
    if m < n {
      SumGrows(bios, m, n - 1);
    }
  }

  lemma ChainOfThree(bios: seq<seq<Vec>>, seams: seq<bool>, k: nat)
    requires |seams| == |bios| && 0 < k && k + 1 < |bios| && !seams[k - 1] && seams[k] && seams[k + 1]
    ensures Chain(bios, seams, k + 2) == Total(bios[k - 1]) + Total(bios[k]) + Total(bios[k + 1])
  {
    hide Total;
    assert Chain(bios, seams, k + 1) == Chain(bios, seams, k) + Total(bios[k]);
  }

  lemma SumOfFive(bios: seq<seq<Vec>>, k: nat)
    requires 2 <= k && k + 2 < |bios|
    ensures Total(bios[k - 2]) + Total(bios[k - 1]) + Total(bios[k]) + Total(bios[k + 1]) + Total(bios[k + 2])
            <= Sum(bios, |bios|)
  {
    hide Total;
    SumGrows(bios, k + 3, |bios|);
    assert Sum(bios, k + 2) == Sum(bios, k + 1) + Total(bios[k + 1]);
    assert Sum(bios, k) == Sum(bios, k - 1) + Total(bios[k - 1]);
  }

  /** Three bios in a chain leave two more in the request. */
  lemma PairChain(q: Limits, bios: seq<seq<Vec>>, seams: seq<bool>, k: nat)
    requires Tested(q, bios, seams) && Sparse(seams) && Pair(seams, k)
    ensures Chain(bios, seams, k + 2) + 1024 <= Sum(bios, |bios|)
    ensures Chain(bios, seams, k + 2) % 512 == 0
  {
    hide PhysContig, Total, Chain, Sum;
    assert !Pair(seams, k - 1);
    assert IsBio(bios[k - 2]) && IsBio(bios[k - 1]) && IsBio(bios[k]) && IsBio(bios[k + 1]) && IsBio(bios[k + 2]);
    ChainOfThree(bios, seams, k);
    SumOfFive(bios, k);
  }

  /** Three seams that are not joined. */
  lemma {:induction false} ThreeApart(seams: seq<bool>, i: nat, j: nat, k: nat, n: nat)
    requires i < j < k < |seams| && n <= |seams| && !seams[i] && !seams[j] && !seams[k]
    ensures Count(seams, n) + (if i < n then 1 else 0) + (if j < n then 1 else 0) + (if k < n then 1 else 0) <= n
  {
    if n > 0 {
      ThreeApart(seams, i, j, k, n - 1);
    }
  }

  lemma {:induction false} PhysAtLeast(q: Limits, bios: seq<seq<Vec>>, n: nat)
    requires AreBios(bios) && n <= |bios|
    ensures PhysSum(q, bios, n) >= n
  {
    hide Total;
    if n > 0 {
      PhysAtLeast(q, bios, n - 1);
      assert IsBio(bios[n - 1]);
      HwAtMostPhys(q, bios[n - 1], |bios[n - 1]|);
    }
  }

  /** A chain of three takes five bios and three physical segments. */
  lemma PairNeeds(q: Limits, c: Caps, r: Req, seams: seq<bool>, k: nat)
    requires Kept(q, c, r, seams) && Pair(seams, k)
    ensures |r.bios| >= 5 && r.phys >= 3
  {
    hide PhysContig, Total, Tallied;
    assert !Pair(seams, k - 1);
    ThreeApart(seams, 0, k - 1, k + 2, |seams|);
    PhysAtLeast(q, r.bios, |r.bios|);
  }

  /** Limits under which no chain of bios can outgrow a segment. */
  predicate Tame(q: Limits, c: Caps) {
    !q.cluster || q.maxSize < 1024 || c.maxSectors <= q.maxSize / 512 + 2 || c.maxPhys < 3
  }

  lemma TameIsShort(q: Limits, c: Caps, r: Req, seams: seq<bool>)
    requires Kept(q, c, r, seams) && (Tame(q, c) || (NeverVirt(q) && c.maxHw < 5))
    ensures Short(q, r.bios, seams)
  {
    hide Tallied, Total, Sparse, NeverVirt;
    var bios := r.bios;
    forall i | 0 <= i < |seams| && seams[i] ensures Chain(bios, seams, i + 1) <= q.maxSize {
      assert PhysContig(q, bios[i - 1], bios[i]) && IsBio(bios[i - 1]) && IsBio(bios[i]);
      if seams[i - 1] {
        assert Pair(seams, i - 1);
        PairNeeds(q, c, r, seams, i - 1);
        PairChain(q, bios, seams, i - 1);
      }
    }
  }

  /** The count of a request is enough when its chains are short. */
  lemma ShortFits(q: Limits, c: Caps, r: Req, seams: seq<bool>)
    requires Kept(q, c, r, seams) && Short(q, r.bios, seams)
    ensures Fits(q, r)
  {
    hide AreBios, PhysContig, GreedyCuts, Sparse, NeverVirt, ValidCuts, Total;
    var n := |r.bios|;
    var vs := Vecs(r.bios, n);
    var cuts := CutAtSeams(q, r.bios, seams, n);
    forall g: seq<bool> | |g| == |vs| && GreedyCuts(q, vs, g) ensures Count(g, |g|) <= r.phys {
      GreedyStaysAhead(q, vs, g, cuts, |vs|);
    }
    assert r.phys == Count(cuts, |vs|);
  }

  /** Merging is safe under these limits, whatever the queue joins. */
  lemma TameIsSafe(q: Limits, c: Caps)
    requires Tame(q, c) || (NeverVirt(q) && c.maxHw < 5)
    ensures Safe(q, c)
  {
    hide Fits, Kept, Make, Tame, NeverVirt, Short, Proper;
    forall t: Build | Proper(t) && Make(q, c, t).Merged? ensures Fits(q, Make(q, c, t).req) {
      var seams := BuildKeeps(q, c, t);
      TameIsShort(q, c, Make(q, c, t).req, seams);
      ShortFits(q, c, Make(q, c, t).req, seams);
    }
  }

  // ---------- when they are not ----------

  /** A sector of the memory that begins at base and is somewhat larger than a segment. */
  predicate Near(q: Limits, base: nat, v: Vec) {
    v.len == 512 && base <= v.addr && v.addr + 512 <= base + q.maxSize + 2048
  }

  /** Somewhere there is such memory that needs no bounce pages and crosses no boundary of the queue; and the machine has no
    * merging of virtual segments. */
  ghost predicate Plain(q: Limits, base: nat) {
    && NeverVirt(q) && (forall n :: !q.oversize(n))
    && (forall v, w :: Near(q, base, v) && Near(q, base, w) ==> q.allowed(v, w))
    && (forall v :: Near(q, base, v) ==> !q.high(v))
  }

  predicate AllNear(q: Limits, base: nat, vs: seq<Vec>) {
    forall i :: 0 <= i < |vs| ==> Near(q, base, vs[i])
  }

  /** So many sectors of memory in one stretch. */
  function Stretch(addr: nat, n: nat): seq<Vec> {
    seq(n, i requires 0 <= i => Vec(addr + 512 * i, 512))
  }

  lemma {:induction false} StretchLength(addr: nat, n: nat, k: nat)
    requires k <= n
    ensures Length(Stretch(addr, n), k) == 512 * k
  {
    if k > 0 {
      StretchLength(addr, n, k - 1);
    }
  }

  /** Vector n goes on with the last segment of such a queue. */
  lemma Goes(q: Limits, base: nat, vs: seq<Vec>, n: nat)
    requires Plain(q, base) && AllNear(q, base, vs) && q.cluster && 0 < n < |vs| && vs[n - 1].addr + vs[n - 1].len == vs[n].addr
    requires Tallied(q, vs, n).segSize + vs[n].len <= q.maxSize
    ensures var t, u := Tallied(q, vs, n), Tallied(q, vs, n + 1);
            u.phys == t.phys && u.hw == t.hw && u.segSize == t.segSize + vs[n].len
  {
    var t := Tallied(q, vs, n);
    assert Joinable(q, vs[n - 1], vs[n]) && Extends(q, vs, t, n);
  }

  /** Vector n begins a segment. */
  lemma Begins(q: Limits, base: nat, vs: seq<Vec>, n: nat)
    requires Plain(q, base) && n < |vs|
    requires n == 0 || vs[n - 1].addr + vs[n - 1].len != vs[n].addr || Tallied(q, vs, n).segSize + vs[n].len > q.maxSize
    ensures var t, u := Tallied(q, vs, n), Tallied(q, vs, n + 1);
            u.phys == t.phys + 1 && u.hw == t.hw + 1 && u.segSize == vs[n].len
  {
    var t := Tallied(q, vs, n);
    assert !Extends(q, vs, t, n) && !StaysInHw(q, vs, t, n);
  }

  /** The list has this stretch at position m. */
  predicate Holds(vs: seq<Vec>, m: nat, addr: nat, n: nat) {
    m + n <= |vs| && forall i :: m <= i < m + n ==> vs[i] == Vec(addr + 512 * (i - m), 512)
  }

  lemma HoldsAt(vs: seq<Vec>, m: nat, addr: nat, n: nat, k: nat)
    requires Holds(vs, m, addr, n) && k < n
    ensures m + k < |vs| && vs[m + k] == Vec(addr + 512 * k, 512)
  {
  }

  /** A stretch inside a list of vectors is one segment as long as it is no larger than a segment may be. */
  lemma {:induction false} StretchTally(q: Limits, base: nat, vs: seq<Vec>, m: nat, addr: nat, n: nat, k: nat)
    requires Plain(q, base) && AllNear(q, base, vs) && q.cluster && 0 < k <= n && 512 * k <= q.maxSize
    requires Holds(vs, m, addr, n)
    requires m > 0 ==> vs[m - 1].addr + vs[m - 1].len != addr
    ensures var t, u := Tallied(q, vs, m), Tallied(q, vs, m + k);
            u.phys == t.phys + 1 && u.hw == t.hw + 1 && u.segSize == 512 * k
  {
    hide Tallied, Holds, Plain, AllNear;
    HoldsAt(vs, m, addr, n, k - 1);
    if k > 1 {
      StretchTally(q, base, vs, m, addr, n, k - 1);
      HoldsAt(vs, m, addr, n, k - 2);
      Goes(q, base, vs, m + k - 1);
    } else {
      Begins(q, base, vs, m);
    }
  }

  /** A bio of n sectors that is one segment. */
  predicate Single(q: Limits, b: seq<Vec>, n: nat) {
    IsBio(b) && Total(b) == 512 * n && PhysOf(q, b) == 1 && HwOf(q, b) == 1
  }

  lemma StretchAlone(q: Limits, base: nat, addr: nat, n: nat)
    requires Plain(q, base) && q.cluster && 0 < n && 512 * n <= q.maxSize && base <= addr
    requires addr + 512 * n <= base + q.maxSize + 2048
    ensures Single(q, Stretch(addr, n), n)
  {
    var b := Stretch(addr, n);
    StretchLength(addr, n, n);
    assert Holds(b, 0, addr, n);
    StretchTally(q, base, b, 0, addr, n, n);
  }

  /** One vector more than a segment holds begins the next one. */
  lemma SplitTally(q: Limits, base: nat, vs: seq<Vec>, m: nat, addr: nat, n: nat)
    requires Plain(q, base) && AllNear(q, base, vs) && q.cluster && 1 < n && 512 * (n - 1) <= q.maxSize < 512 * n
    requires Holds(vs, m, addr, n)
    requires m > 0 ==> vs[m - 1].addr + vs[m - 1].len != addr
    ensures Tallied(q, vs, m + n).phys == Tallied(q, vs, m).phys + 2
  {
    hide Tallied, Holds, Plain, AllNear;
    StretchTally(q, base, vs, m, addr, n, n - 1);
    HoldsAt(vs, m, addr, n, n - 1);
    Begins(q, base, vs, m + n - 1);
  }

  /** Five bios: the middle three are one stretch of memory, a sector too long for a segment. */
  function Five(base: nat, n: nat): (r: seq<seq<Vec>>)
    ensures |r| == 5
  {
    [Stretch(base, 1), Stretch(base + 1024, 1), Stretch(base + 1536, n), Stretch(base + 1536 + 512 * n, 1), Stretch(base + 512, 1)]
  }

  /** The fourth is merged to the front of the fifth and the third joined before them; then the second is merged to the
    * back of the first and those are joined before the rest. */
  function FiveBuild(base: nat, n: nat): Build {
    var f := Five(base, n);
    BackJoin(One(f[0]), f[1], FrontJoin(One(f[2]), f[3], One(f[4]), false, false), false, false)
  }

  lemma FiveVecs(base: nat, n: nat)
    ensures Vecs(Five(base, n), 5) == Stretch(base, 1) + Stretch(base + 1024, n + 2) + Stretch(base + 512, 1)
  {
    var f := Five(base, n);
    assert Vecs(f, 1) == f[0];
    assert Vecs(f, 2) == f[0] + f[1];
    assert Vecs(f, 3) == f[0] + f[1] + f[2];
    assert Vecs(f, 4) == f[0] + f[1] + f[2] + f[3];
    assert f[1] + f[2] + f[3] == Stretch(base + 1024, n + 2);
    assert f[0] + f[1] + f[2] + f[3] == f[0] + (f[1] + f[2] + f[3]);
  }

  lemma FiveHold(base: nat, n: nat)
    ensures var vs := Vecs(Five(base, n), 5);
            |vs| == n + 4 && Holds(vs, 0, base, 1) && Holds(vs, 1, base + 1024, n + 2) && Holds(vs, n + 3, base + 512, 1)
  {
    hide Five, Vecs;
    FiveVecs(base, n);
  }

  lemma FiveNear(q: Limits, base: nat, n: nat)
    requires 512 * (n + 1) <= q.maxSize
    ensures AllNear(q, base, Vecs(Five(base, n), 5))
  {
    hide Five, Vecs;
    FiveVecs(base, n);
  }

  lemma FiveTally(q: Limits, base: nat, n: nat)
    requires Plain(q, base) && q.cluster && n > 0 && 512 * (n + 1) <= q.maxSize < 512 * (n + 2)
    ensures var vs := Vecs(Five(base, n), 5); Tallied(q, vs, |vs|).phys == 4
  {
    hide Five, Vecs, Plain, Holds, AllNear;
    var vs := Vecs(Five(base, n), 5);
    FiveHold(base, n);
    FiveNear(q, base, n);
    StretchTally(q, base, vs, 0, base, 1, 1);
    HoldsAt(vs, 0, base, 1, 0);
    SplitTally(q, base, vs, 1, base + 1024, n + 2);
    HoldsAt(vs, 1, base + 1024, n + 2, n + 1);
    StretchTally(q, base, vs, n + 3, base + 512, 1, 1);
  }

  predicate Singles(q: Limits, bios: seq<seq<Vec>>, n: nat) {
    && |bios| == 5 && Single(q, bios[0], 1) && Single(q, bios[1], 1) && Single(q, bios[2], n)
    && Single(q, bios[3], 1) && Single(q, bios[4], 1)
  }

  /** The parts of the build, for bios that are one segment each. */
  lemma PartsMade(q: Limits, c: Caps, bios: seq<seq<Vec>>, n: nat)
    requires NeverVirt(q) && n > 0 && c.maxSectors >= n + 4 && c.maxPhys >= 3 && c.maxHw >= 5
    requires Singles(q, bios, n)
    requires PhysContig(q, bios[1], bios[2]) && PhysContig(q, bios[2], bios[3])
    ensures var f := bios;
            && Back(q, c, Alone(q, f[0]), f[1], false) == Merged(Req([f[0], f[1]], 2, 2, 2))
            && Front(q, c, f[3], Alone(q, f[4]), false) == Merged(Req([f[3], f[4]], 2, 2, 2))
            && Join(q, c, Alone(q, f[2]), Req([f[3], f[4]], 2, 2, 2), false)
               == Merged(Req([f[2], f[3], f[4]], n + 2, 2, 3))
            && Join(q, c, Req([f[0], f[1]], 2, 2, 2), Req([f[2], f[3], f[4]], n + 2, 2, 3), false)
               == Merged(Req(f, n + 4, 3, 5))
  {
    hide PhysContig, Total, PhysOf, HwOf;
    assert [bios[0], bios[1]] + [bios[2], bios[3], bios[4]] == bios;
  }

  lemma FiveMade(q: Limits, c: Caps, base: nat, n: nat)
    requires Plain(q, base) && q.cluster && n > 0 && 512 * (n + 1) <= q.maxSize
    requires c.maxSectors >= n + 4 && c.maxPhys >= 3 && c.maxHw >= 5
    ensures Proper(FiveBuild(base, n)) && Make(q, c, FiveBuild(base, n)) == Merged(Req(Five(base, n), n + 4, 3, 5))
  {
    hide Back, Front, Join, Alone, Single, IsBio;
    var f := Five(base, n);
    FiveApart(q, base, n);
    PartsMade(q, c, f, n);
    SinglesAreBios(q, f, n);
    var rest := FrontJoin(One(f[2]), f[3], One(f[4]), false, false);
    assert Make(q, c, rest) == Merged(Req([f[2], f[3], f[4]], n + 2, 2, 3));
  }

  lemma SinglesAreBios(q: Limits, bios: seq<seq<Vec>>, n: nat)
    requires Singles(q, bios, n)
    ensures IsBio(bios[0]) && IsBio(bios[1]) && IsBio(bios[2]) && IsBio(bios[3]) && IsBio(bios[4])
  {
  }

  lemma FiveApart(q: Limits, base: nat, n: nat)
    requires Plain(q, base) && q.cluster && n > 0 && 512 * (n + 1) <= q.maxSize
    ensures var f := Five(base, n);
            && Singles(q, f, n)
            && PhysContig(q, f[1], f[2]) && PhysContig(q, f[2], f[3])
  {
    hide Total, PhysOf, HwOf, Stretch;
    StretchAlone(q, base, base, 1);
    StretchAlone(q, base, base + 1024, 1);
    StretchAlone(q, base, base + 1536, n);
    StretchAlone(q, base, base + 1536 + 512 * n, 1);
    StretchAlone(q, base, base + 512, 1);
    StretchEnds(base + 1024, 1);
    StretchEnds(base + 1536, n);
    StretchEnds(base + 1536 + 512 * n, 1);
  }

  lemma StretchEnds(addr: nat, n: nat)
    requires n > 0
    ensures var b := Stretch(addr, n); |b| == n && b[0] == Vec(addr, 512) && b[n - 1] == Vec(addr + 512 * (n - 1), 512)
  {
  }

  lemma FiveDoesNotFit(q: Limits, base: nat, n: nat)
    requires Plain(q, base) && q.cluster && n > 0 && 512 * (n + 1) <= q.maxSize < 512 * (n + 2)
    ensures !Fits(q, Req(Five(base, n), n + 4, 3, 5))
  {
    hide Stretch, Tallied;
    var vs := Vecs(Five(base, n), 5);
    FiveNear(q, base, n);
    NoGreedyCuts(q, vs);
    var g := GreedyExtends(q, vs, []);
    CountIsExact(q, vs, g, |vs|);
    FiveTally(q, base, n);
  }

  lemma NoGreedyCuts(q: Limits, vs: seq<Vec>)
    ensures GreedyCuts(q, vs, [])
  {
  }

  /** Main theorem: given such memory, the counts that merging keeps are enough for every request if and only if its limits
    * leave no room for five bios with a chain of three too long for a segment. */
  lemma SafeExactly(q: Limits, c: Caps, base: nat)
    requires Plain(q, base)
    ensures Safe(q, c) <==> Tame(q, c) || c.maxHw < 5
  {
    hide Make, Proper, Five, FiveBuild, Fits;
    if Tame(q, c) || c.maxHw < 5 {
      TameIsSafe(q, c);
    } else {
      var n := q.maxSize / 512 - 1;
      FiveMade(q, c, base, n);
      FiveDoesNotFit(q, base, n);
      assert !Fits(q, Make(q, c, FiveBuild(base, n)).req);
    }
  }

  /** __BIO_SEG_BOUNDARY with the mask 0xffffffff: both vectors in one window of 4 GiB. */
  predicate InOneWindow(v: Vec, w: Vec) {
    v.addr / 0x1_0000_0000 == (w.addr + w.len - 1) / 0x1_0000_0000
  }

  /** The limits a queue has from the start: 255 sectors, 128 segments of either kind, 64 KiB a segment, and a boundary at
    * 4 GiB. Some memory that needs no bounce pages and does not cross the boundary is all that the five bios take. */
  lemma DefaultsAreNotSafe(q: Limits, base: nat)
    requires q.cluster && q.maxSize == 65536 && NeverVirt(q) && (forall n :: !q.oversize(n))
    requires forall v: Vec, w: Vec :: w.len > 0 ==> (q.allowed(v, w) <==> InOneWindow(v, w))
    requires base + 65536 + 2048 <= 0x1_0000_0000 && forall v :: Near(q, base, v) ==> !q.high(v)
    ensures !Safe(q, Caps(255, 128, 128))
  {
    hide Safe;
    assert Plain(q, base);
    SafeExactly(q, Caps(255, 128, 128), base);
  }

  // ---------- the source's functions ----------

  class MergingRequest {
    var bios: seq<seq<Vec>>
    var nrSectors: nat
    var nrPhysSegments: int
    var nrHwSegments: int
    var noMerge: bool

    function Value(): Req
      reads this
    {
      Req(bios, nrSectors, nrPhysSegments, nrHwSegments)
    }

    method NewMergeable(q: Limits, c: Caps, b: seq<Vec>) returns (ok: bool)
      modifies `nrPhysSegments, `noMerge
      ensures ok <==> old(nrPhysSegments) + PhysOf(q, b) <= c.maxPhys
      ensures nrPhysSegments == old(nrPhysSegments) + (if ok then PhysOf(q, b) else 0)
      ensures noMerge == (old(noMerge) || !ok)
    {
      var phys := PhysOf(q, b);
      if nrPhysSegments + phys > c.maxPhys {
        noMerge := true;
        return false;
      }
      nrPhysSegments := nrPhysSegments + phys;
      return true;
    }

    method NewHwSegment(q: Limits, c: Caps, b: seq<Vec>) returns (ok: bool)
      modifies `nrPhysSegments, `nrHwSegments, `noMerge
      ensures ok <==> old(nrHwSegments) + HwOf(q, b) <= c.maxHw && old(nrPhysSegments) + PhysOf(q, b) <= c.maxPhys
      ensures nrPhysSegments == old(nrPhysSegments) + (if ok then PhysOf(q, b) else 0)
      ensures nrHwSegments == old(nrHwSegments) + (if ok then HwOf(q, b) else 0)
      ensures noMerge == (old(noMerge) || !ok)
    {
      var hw, phys := HwOf(q, b), PhysOf(q, b);
      if nrHwSegments + hw > c.maxHw || nrPhysSegments + phys > c.maxPhys {
        noMerge := true;
        return false;
      }
      nrHwSegments := nrHwSegments + hw;
      nrPhysSegments := nrPhysSegments + phys;
      return true;
    }

    /** ll_back_merge_fn, and what __make_request does with the bio afterwards. A refused bio leaves the request as it was,
      * but closed to further merging. */
    method BackMerge(q: Limits, c: Caps, b: seq<Vec>, fits: bool) returns (ok: bool)
      requires AreBios(bios) && IsBio(b)
      modifies this
      ensures var t := Back(q, c, old(Value()), b, fits);
              && ok == t.Merged? && Value() == (if ok then t.req else old(Value()))
              && noMerge == (old(noMerge) || !ok)
    {
      if nrSectors + Total(b) / 512 > c.maxSectors {
        noMerge := true;
        return false;
      }
      if VirtContig(q, bios[|bios| - 1], b, fits) {
        ok := NewMergeable(q, c, b);
      } else {
        ok := NewHwSegment(q, c, b);
      }
      if ok {
        bios, nrSectors := bios + [b], nrSectors + Total(b) / 512;
      }
    }

    method FrontMerge(q: Limits, c: Caps, b: seq<Vec>, fits: bool) returns (ok: bool)
      requires AreBios(bios) && IsBio(b)
      modifies this
      ensures var t := Front(q, c, b, old(Value()), fits);
              && ok == t.Merged? && Value() == (if ok then t.req else old(Value()))
              && noMerge == (old(noMerge) || !ok)
    {
      if nrSectors + Total(b) / 512 > c.maxSectors {
        noMerge := true;
        return false;
      }
      if VirtContig(q, b, bios[0], fits) {
        ok := NewMergeable(q, c, b);
      } else {
        ok := NewHwSegment(q, c, b);
      }
      if ok {
        bios, nrSectors := [b] + bios, nrSectors + Total(b) / 512;
      }
    }

    /** ll_merge_requests_fn, and the list of bios that attempt_merge hands over; a refusal changes nothing. */
    method MergeRequests(q: Limits, c: Caps, next: MergingRequest, fits: bool) returns (ok: bool)
      requires AreBios(bios) && AreBios(next.bios)
      modifies this
      ensures var t := Join(q, c, old(Value()), old(next.Value()), fits);
              && ok == t.Merged? && Value() == (if ok then t.req else old(Value()))
              && noMerge == old(noMerge)
    {
      if nrSectors + next.nrSectors > c.maxSectors {
        return false;
      }
      var totalPhys := nrPhysSegments + next.nrPhysSegments;
      if PhysContig(q, bios[|bios| - 1], next.bios[0]) {
        totalPhys := totalPhys - 1;
      }
      if totalPhys > c.maxPhys {
        return false;
      }
      var totalHw := nrHwSegments + next.nrHwSegments;
      if VirtContig(q, bios[|bios| - 1], next.bios[0], fits) {
        totalHw := totalHw - 1;
      }
      if totalHw > c.maxHw {
        return false;
      }
      nrPhysSegments, nrHwSegments := totalPhys, totalHw;
      bios, nrSectors := bios + next.bios, nrSectors + next.nrSectors;
      return true;
    }
  }
}
