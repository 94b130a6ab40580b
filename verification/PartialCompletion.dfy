/** Completing the first bytes of a request, on its list of bios and their vectors, updated in place. */
module PartialCompletion {
  import opened PartialSpec

  /** Whole sectors in so many bytes. */
  function Sectors(bytes: nat): nat { bytes / 512 }

  /** A piece of a page. */
  datatype Vec = Vec(page: int, offset: int, len: nat)

  function VecBytes(v: Vec): (r: seq<Byte>)
    ensures |r| == v.len
  {
    seq(v.len, i requires 0 <= i => Byte(v.page, v.offset + i))
  }

  function Flat(vs: seq<Vec>): seq<Byte> {
    if vs == [] then [] else VecBytes(vs[0]) + Flat(vs[1..])
  }

  lemma {:induction false} FlatAppends(a: seq<Vec>, b: seq<Vec>)
    ensures Flat(a + b) == Flat(a) + Flat(b)
  {
    if a == [] {
      assert a + b == b;
    } else {
      assert (a + b)[1..] == a[1..] + b;
      FlatAppends(a[1..], b);
    }
  }

  /** A vector whose first r bytes are done. */
  function Trim(v: Vec, r: nat): Vec
    requires r <= v.len
  {
    Vec(v.page, v.offset + r, v.len - r)
  }

  lemma TrimDrops(v: Vec, r: nat)
    requires r <= v.len
    ensures VecBytes(Trim(v, r)) == VecBytes(v)[r..]
  {
  }

  /** Going k vectors on and r bytes into the next drops just those bytes. */
  lemma CutDrops(vs: seq<Vec>, k: nat, r: nat)
    requires k < |vs| && r <= vs[k].len
    ensures |Flat(vs[..k])| + r <= |Flat(vs)|
    ensures Flat(vs[k := Trim(vs[k], r)][k..]) == Flat(vs)[|Flat(vs[..k])| + r..]
  {
    var rest := vs[k + 1..];
    assert vs == vs[..k] + ([vs[k]] + rest);
    FlatAppends(vs[..k], [vs[k]] + rest);
    assert vs[k := Trim(vs[k], r)][k..] == [Trim(vs[k], r)] + rest;
    FlatStep(vs[k], rest);
    FlatStep(Trim(vs[k], r), rest);
    TrimDrops(vs[k], r);
    hide Flat, VecBytes;
    DropInside(Flat(vs[..k]), VecBytes(vs[k]), Flat(rest), r);
  }

  lemma FlatStep(v: Vec, rest: seq<Vec>)
    ensures Flat([v] + rest) == VecBytes(v) + Flat(rest)
  {
    assert ([v] + rest)[1..] == rest;
  }

  lemma DropInside(a: seq<Byte>, b: seq<Byte>, c: seq<Byte>, r: nat)
    requires r <= |b|
    ensures (a + (b + c))[|a| + r..] == b[r..] + c
  {
  }

  /** The next vector of a bio reaches no further than its data. */
  lemma OneVecMore(vs: seq<Vec>, k: nat)
    requires k < |vs|
    ensures |Flat(vs[..k + 1])| == |Flat(vs[..k])| + vs[k].len <= |Flat(vs)|
  {
    assert vs[..k + 1] == vs[..k] + [vs[k]];
    FlatAppends(vs[..k], [vs[k]]);
    assert vs == vs[..k + 1] + vs[k + 1..];
    FlatAppends(vs[..k + 1], vs[k + 1..]);
    assert Flat([vs[k]]) == VecBytes(vs[k]);
  }

  lemma CutVector(vec: seq<Vec>, idx: nat, k: nat, r: nat)
    requires idx + k < |vec| && r <= vec[idx + k].len
    ensures var n := |Flat(vec[idx..idx + k])| + r;
            n <= |Flat(vec[idx..])| && Flat(vec[idx + k := Trim(vec[idx + k], r)][idx + k..]) == Flat(vec[idx..])[n..]
  {
    var vs := vec[idx..];
    hide Flat;
    CutDrops(vs, k, r);
    assert vs[..k] == vec[idx..idx + k];
    assert vec[idx + k := Trim(vec[idx + k], r)][idx + k..] == vs[k := Trim(vs[k], r)][k..];
  }

  class Bio {
    const id: nat
    var vec: seq<Vec>
    var idx: nat
    var size: nat
    var sector: int
    var uptodate: bool

    constructor (id: nat, vec: seq<Vec>, sector: int)
      ensures Ok() && AsPending() == Pending(id, Flat(vec), true)
    {
      this.id := id;
      this.vec, idx, size, this.sector, uptodate := vec, 0, |Flat(vec)|, sector, true;
    }

    predicate Ok()
      reads this
    {
      idx <= |vec| && size == |Flat(vec[idx..])|
    }

    /** Length of the current vector. */
    function Current(): nat
      reads this
    {
      if idx < |vec| then vec[idx].len else 0
    }

    function AsPending(): Pending
      requires Ok()
      reads this
    {
      Pending(id, Flat(vec[idx..]), uptodate)
    }
  }

  ghost predicate AllOk(bs: seq<Bio>)
    reads bs
  {
    && (forall i :: 0 <= i < |bs| ==> bs[i].Ok())
    && (forall i, j :: 0 <= i < j < |bs| ==> bs[i] != bs[j])
  }

  ghost function Pendings(bs: seq<Bio>): seq<Pending>
    reads bs
    requires AllOk(bs)
  {
    seq(|bs|, i requires 0 <= i < |bs| && AllOk(bs) reads bs => bs[i].AsPending())
  }

  /** How far the loop has come: the bios before k are ended, and the rest of the call is due from bio k on. */
  predicate Going(was: seq<Pending>, c: Call, k: nat, e: seq<End>, left: nat) {
    k < |was| &&
    Finish(was, c) == After(e, Finish(was[k..], Call(left, c.failed)))
  }

  function After(e: seq<End>, o: Outcome): Outcome { Outcome(o.rest, e + o.ended) }

  lemma AfterPrepend(e: seq<End>, x: End, o: Outcome)
    ensures After(e, Prepend(x, o)) == After(e + [x], o)
  {
    assert e + ([x] + o.ended) == (e + [x]) + o.ended;
  }

  /** The loop is through: nothing, or only the first bytes of bio k, are due. */
  predicate Stopped(was: seq<Pending>, c: Call, k: nat, e: seq<End>, left: nat) {
    && k < |was| && left < |was[k].data| + (if left == 0 then 1 else 0)
    && Finish(was, c) == Outcome(was[k..][0 := Cut(was[k], left, c.failed)], e)
  }

  lemma Begins(was: seq<Pending>, c: Call)
    requires was != []
    ensures Going(was, c, 0, [], c.bytes)
  {
    assert was[0..] == was;
  }

  lemma EndsOne(was: seq<Pending>, c: Call, k: nat, e: seq<End>, left: nat)
    requires Going(was, c, k, e, left) && left >= |was[k].data|
    ensures
      var e' := e + [End(was[k].id, was[k].good && !c.failed)];
      var left' := left - |was[k].data|;
      if k + 1 == |was| then Finish(was, c) == Outcome([], e')
      else if left' == 0 then Stopped(was, c, k + 1, e', 0)
      else Going(was, c, k + 1, e', left')
  {
    var end := End(was[k].id, was[k].good && !c.failed);
    var rest := was[k..];
    var d := |was[k].data|;
    assert rest[0] == was[k] && rest[1..] == was[k + 1..];
    hide Finish, After, Prepend;
    if left > d {
      FinishFirst(rest, Call(left, c.failed));
      AfterPrepend(e, end, Finish(rest[1..], Call(left - d, c.failed)));
      if k + 1 == |was| {
        NothingToFinish(e + [end], left - d, c.failed);
      }
    } else {
      EndsLast(was, c, k, e);
    }
  }

  lemma NothingToFinish(e: seq<End>, n: nat, failed: bool)
    ensures After(e, Finish([], Call(n, failed))) == Outcome([], e)
  {
  }

  lemma EndsLast(was: seq<Pending>, c: Call, k: nat, e: seq<End>)
    requires k < |was| && Going(was, c, k, e, |was[k].data|)
    ensures
      var e' := e + [End(was[k].id, was[k].good && !c.failed)];
      if k + 1 == |was| then Finish(was, c) == Outcome([], e') else Stopped(was, c, k + 1, e', 0)
  {
    hide Finish;
    FinishHead(was[k..], Call(|was[k].data|, c.failed));
    assert was[k..][0] == was[k] && was[k..][1..] == was[k + 1..];
    if k + 1 < |was| {
      assert was[k + 1..][0 := was[k + 1]] == was[k + 1..];
    }
  }

  lemma StopsInside(was: seq<Pending>, c: Call, k: nat, e: seq<End>, left: nat)
    requires Going(was, c, k, e, left) && left < |was[k].data|
    ensures Stopped(was, c, k, e, left)
  {
    FinishHead(was[k..], Call(left, c.failed));
  }

  /** The inner counters: nextIdx vectors of the bio, holding bioNbytes bytes, are passed. */
  predicate AtVector(b: Bio, nextIdx: nat, bioNbytes: nat, nr: nat)
    reads b
  {
    && b.idx + nextIdx <= |b.vec|
    && bioNbytes == |Flat(b.vec[b.idx..b.idx + nextIdx])|
    && (nextIdx > 0 ==> bioNbytes + nr < b.size)
  }

  /** Not at the end of the data means not at the end of the vectors. */
  lemma VectorThere(b: Bio, nextIdx: nat, bioNbytes: nat, nr: nat)
    requires b.Ok() && AtVector(b, nextIdx, bioNbytes, nr) && nr < b.size
    ensures b.idx + nextIdx < |b.vec| && bioNbytes + nr < b.size
    ensures nr < b.vec[b.idx + nextIdx].len ==> Cuttable(b, nextIdx, bioNbytes + nr, nr)
    ensures |Flat(b.vec[b.idx..b.idx + nextIdx + 1])| == bioNbytes + b.vec[b.idx + nextIdx].len <= b.size
  {
    var vs := b.vec[b.idx..];
    assert vs[..nextIdx] == b.vec[b.idx..b.idx + nextIdx];
    assert vs[..|vs|] == vs;
    if nextIdx < |vs| {
      OneVecMore(vs, nextIdx);
      assert vs[..nextIdx + 1] == b.vec[b.idx..b.idx + nextIdx + 1];
    }
  }

  /** The local variables of the loop: bytes to go, bytes done, and how far it is in the current bio. */
  datatype Counters = Counters(nr: nat, total: nat, bioNbytes: nat, nextIdx: nat)

  /** What the loop starts from. */
  datatype Context = Context(bios: seq<Bio>, ended: seq<End>, was: seq<Pending>, call: Call)

  class Request {
    const fs: bool
    const barrier: bool
    var bios: seq<Bio>
    var ended: seq<End>
    var hardSector: int
    var hardNrSectors: int
    var sector: int
    var nrSectors: int
    var curSectors: int

    ghost predicate Valid()
      reads this, bios
    {
      && AllOk(bios)
      && (AllNonEmpty(Pendings(bios)) || |bios| == 1)
    }

    /** req_bio_endio, for a request that is not the barrier request in progress. */
    method EndIo(bio: Bio, nbytes: nat, failed: bool)
      modifies this`ended, bio`uptodate, bio`size, bio`sector
      ensures bio.uptodate == (old(bio.uptodate) && !failed)
      ensures bio.size == if nbytes > old(bio.size) then 0 else old(bio.size) - nbytes
      ensures ended == old(ended) + if bio.size == 0 then [End(bio.id, bio.uptodate)] else []
    {
      var n := nbytes;
      if failed {
        bio.uptodate := false;
      }
      if n > bio.size {
        n := bio.size;
      }
      bio.size := bio.size - n;
      bio.sector := bio.sector + Sectors(n);
      if bio.size == 0 {
        ended := ended + [End(bio.id, bio.uptodate)];
      }
    }

    /** The first bio is done altogether. */
    method EndBio(failed: bool)
      requires bios != [] && AllOk(bios)
      modifies this`bios, this`ended, bios
      ensures bios == old(bios)[1..] && AllOk(bios) && Pendings(bios) == old(Pendings(bios))[1..]
      ensures var b := old(Pendings(bios))[0]; ended == old(ended) + [End(b.id, b.good && !failed)]
    {
      var bio := bios[0];
      bios := bios[1..];
      if barrier && fs && hardNrSectors == 0 {
        bio.sector := sector;
      }
      EndIo(bio, bio.size, failed);
    }

    /** The first bio is done for some whole vectors and the first bytes of the next. */
    method CutBio(nextIdx: nat, bioNbytes: nat, nr: nat, failed: bool)
      requires bios != [] && AllOk(bios)
      requires Cuttable(bios[0], nextIdx, bioNbytes, nr)
      modifies this`ended, bios
      ensures bios == old(bios) && AllOk(bios) && ended == old(ended)
      ensures bioNbytes != 0 ==> bioNbytes < |old(Pendings(bios))[0].data|
      ensures Pendings(bios) == old(Pendings(bios))[0 := Cut(old(Pendings(bios))[0], bioNbytes, failed)]
    {
      hide Flat, Cuttable, Cut;
      if bioNbytes != 0 {
        CutFirst(bios[0], nextIdx, bioNbytes, nr, failed);
      } else {
        CutNothing(Pendings(bios), failed);
      }
    }

    static lemma CutNothing(bs: seq<Pending>, failed: bool)
      requires bs != []
      ensures bs[0 := Cut(bs[0], 0, failed)] == bs
    {
    }

    method CutFirst(bio: Bio, nextIdx: nat, bioNbytes: nat, nr: nat, failed: bool)
      requires bio.Ok() && Cuttable(bio, nextIdx, bioNbytes, nr) && bioNbytes != 0
      modifies this`ended, bio
      ensures bio.Ok() && ended == old(ended) && bioNbytes < |old(bio.AsPending()).data|
      ensures bio.AsPending() == Cut(old(bio.AsPending()), bioNbytes, failed)
    {
      CutVector(bio.vec, bio.idx, nextIdx, nr);
      hide Flat;
      EndIo(bio, bioNbytes, failed);
      bio.idx := bio.idx + nextIdx;
      bio.vec := bio.vec[bio.idx := Trim(bio.vec[bio.idx], nr)];
    }

    /** The driver has not moved its submission pointers on by itself. */
    predicate Submitted()
      reads this
    {
      sector == hardSector && nrSectors == hardNrSectors
    }

    /** The counters of a file system request cover the data that is left. */
    ghost predicate InStep()
      requires AllOk(bios)
      reads this, bios
    {
      fs ==> Submitted() && |Bytes(Pendings(bios))| <= 512 * hardNrSectors
    }

    /** blk_recalc_rq_sectors. */
    method RecalcSectors(nsect: nat)
      requires bios != [] && AllOk(bios)
      modifies this`hardSector, this`hardNrSectors, this`sector, this`nrSectors, this`curSectors
      ensures fs ==> hardSector == old(hardSector) + nsect && hardNrSectors == old(hardNrSectors) - nsect
      ensures fs && old(Submitted()) && Sectors(bios[0].Current()) <= hardNrSectors ==> Submitted()
      ensures !fs ==> unchanged(this)
    {
      hide Sectors;
      if fs {
        hardSector := hardSector + nsect;
        hardNrSectors := hardNrSectors - nsect;
        if nrSectors >= hardNrSectors && sector <= hardSector {
          sector := hardSector;
          nrSectors := hardNrSectors;
          var b := bios[0];
          curSectors := Sectors(b.Current());
        }
        if nrSectors < curSectors {
          nrSectors := curSectors;
        }
      }
    }

    /** The request while the loop runs: bios before k have ended, as e says. */
    ghost predicate Behind(x: Context, k: nat, e: seq<End>)
      reads this, bios
    {
      && k <= |x.was| == |x.bios| && bios == x.bios[k..] && AllOk(bios) && Pendings(bios) == x.was[k..]
      && ended == x.ended + e
    }

    /** At the head of the loop. */
    ghost predicate Running(x: Context, k: nat, e: seq<End>, c: Counters)
      reads this, bios
    {
      && Behind(x, k, e)
      && if bios == [] then Finish(x.was, x.call) == Outcome([], e)
         else Going(x.was, x.call, k, e, c.nr + c.bioNbytes) && AtVector(bios[0], c.nextIdx, c.bioNbytes, c.nr)
    }

    /** Behind the loop. */
    ghost predicate Through(x: Context, k: nat, e: seq<End>, c: Counters)
      reads this, bios
    {
      && Behind(x, k, e)
      && if bios == [] then Finish(x.was, x.call) == Outcome([], e)
         else Stopped(x.was, x.call, k, e, c.bioNbytes) && Cuttable(bios[0], c.nextIdx, c.bioNbytes, c.nr)
    }

    lemma StartsRunning(x: Context)
      requires AllOk(bios) && x.bios == bios && x.was == Pendings(bios) && x.ended == ended
      ensures bios != [] ==> Running(x, 0, [], Counters(x.call.bytes, 0, 0, 0))
      ensures bios == [] ==> Through(x, 0, [], Counters(x.call.bytes, 0, 0, 0))
    {
      if bios != [] {
        Begins(x.was, x.call);
      }
    }

    /** The loop of __end_that_request_first. */
    method EndLoop(n: nat, failed: bool)
      returns (r: Counters, ghost k: nat, ghost e: seq<End>)
      requires AllOk(bios)
      modifies this`bios, this`ended, bios
      ensures Through(Context(old(bios), old(ended), old(Pendings(bios)), Call(n, failed)), k, e, r)
      ensures bios != [] ==> r.total == n
    {
      ghost var x := Context(bios, ended, Pendings(bios), Call(n, failed));
      StartsRunning(x);
      hide Running, Through, AllOk, Pendings, Sectors;
      var c := Counters(n, 0, 0, 0);
      var stop := false;
      k, e := 0, [];
      while bios != [] && !stop
        invariant bios != [] && !stop ==> Running(x, k, e, c)
        invariant bios == [] || stop ==> Through(x, k, e, c)
        invariant bios != [] ==> c.total + (if stop then 0 else c.nr) == n
        invariant forall b :: b in bios ==> b in old(bios)
        decreases !stop, |bios|, if bios == [] then 0 else |bios[0].vec| - bios[0].idx - c.nextIdx
      {
        c, stop, k, e := Advance(x, k, e, c, failed);
      }
      r := c;
    }

    /** One round of the loop. */
    method Advance(ghost x: Context, ghost k: nat, ghost e: seq<End>, c: Counters, failed: bool)
      returns (r: Counters, stop: bool, ghost k': nat, ghost e': seq<End>)
      requires bios != [] && Running(x, k, e, c) && failed == x.call.failed
      modifies this`bios, this`ended, bios
      ensures stop || bios == [] ==> Through(x, k', e', r)
      ensures !stop && bios != [] ==> Running(x, k', e', r)
      ensures bios != [] ==> r.total + (if stop then 0 else r.nr) == c.total + c.nr
      ensures bios == old(bios)[1..]
              || (bios == old(bios) && unchanged(bios) && (stop || c.nextIdx < r.nextIdx <= |bios[0].vec| - bios[0].idx))
    {
      hide Running, Through, AllOk, Pendings, Sectors;
      k', e', stop := k, e, false;
      var nbytes: nat;
      var bio := bios[0];
      if c.nr >= bio.size {
        nbytes := PassBio(x, k, e, c, failed);
        k', e' := k + 1, e + [End(x.was[k].id, x.was[k].good && !failed)];
        r := Counters(c.nr - nbytes, c.total + nbytes, 0, 0);
      } else {
        PassVector(x, k, e, c);
        nbytes := bio.vec[bio.idx + c.nextIdx].len;
        if nbytes > c.nr {
          return Counters(c.nr, c.total + c.nr, c.bioNbytes + c.nr, c.nextIdx), true, k, e;
        }
        r := Counters(c.nr - nbytes, c.total + nbytes, c.bioNbytes + nbytes, c.nextIdx + 1);
      }
      stop := bios != [] && r.nr == 0;
    }

    /** The branch for a bio that is wholly done. */
    method PassBio(ghost x: Context, ghost k: nat, ghost e: seq<End>, c: Counters, failed: bool)
      returns (nbytes: nat)
      requires bios != [] && Running(x, k, e, c) && c.nr >= bios[0].size && failed == x.call.failed
      modifies this`bios, this`ended, bios
      ensures k < |x.was| && nbytes == old(bios[0].size) && bios == old(bios)[1..]
      ensures var e' := e + [End(x.was[k].id, x.was[k].good && !failed)];
              var r := Counters(c.nr - nbytes, c.total + nbytes, 0, 0);
              && (bios != [] && c.nr > nbytes ==> Running(x, k + 1, e', r))
              && (bios == [] || c.nr == nbytes ==> Through(x, k + 1, e', r))
    {
      hide Going, Stopped, Flat, Finish, AtVector, Cuttable, AllOk, Pendings;
      FirstPending(bios);
      AtStart(bios[0], c.nextIdx, c.bioNbytes, c.nr);
      EndsOne(x.was, x.call, k, e, c.nr);
      nbytes := bios[0].size;
      EndBio(failed);
      PendingsLength(bios);
      AtFirstVector(bios, c.nr - nbytes);
      CuttableAtZero(bios);
    }

    /** The branch for the next vector of a bio: it is wholly done, or the call ends inside it. */
    lemma PassVector(x: Context, k: nat, e: seq<End>, c: Counters)
      requires bios != [] && Running(x, k, e, c) && c.nr < bios[0].size
      ensures var b := bios[0];
              && b.idx + c.nextIdx < |b.vec|
              && var l := b.vec[b.idx + c.nextIdx].len;
                 && (l > c.nr ==> Through(x, k, e, Counters(c.nr, c.total + c.nr, c.bioNbytes + c.nr, c.nextIdx)))
                 && (l < c.nr ==> Running(x, k, e, Counters(c.nr - l, c.total + l, c.bioNbytes + l, c.nextIdx + 1)))
                 && (l == c.nr ==> Through(x, k, e, Counters(0, c.total + l, c.bioNbytes + l, c.nextIdx + 1)))
    {
      hide Stopped, Finish, Cuttable, AllOk, Pendings, Going, Flat;
      FirstPending(bios);
      var b := bios[0];
      VectorThere(b, c.nextIdx, c.bioNbytes, c.nr);
      var l := b.vec[b.idx + c.nextIdx].len;
      if l >= c.nr {
        StopsInside(x.was, x.call, k, e, c.bioNbytes + c.nr);
        if l == c.nr {
          AtEndOfVector(b, c.nextIdx + 1, c.bioNbytes + l);
        }
      }
    }

    /** Data is left: the first bio is cut where the call ended, and the counters of the request move on. */
    method EndRest(ghost x: Context, ghost k: nat, ghost e: seq<End>, c: Counters, failed: bool)
      requires bios != [] && Through(x, k, e, c) && failed == x.call.failed
      modifies this`ended, bios, this`hardSector, this`hardNrSectors, this`sector, this`nrSectors, this`curSectors
      ensures Leaves(Finish(x.was, x.call), x.ended)
      ensures bios == old(bios)
      ensures fs ==> hardSector == old(hardSector) + Sectors(c.total) && hardNrSectors == old(hardNrSectors) - Sectors(c.total)
      ensures fs && old(Submitted()) && |Bytes(Pendings(bios))| <= 512 * hardNrSectors ==> Submitted()
    {
      hide Finish, Cuttable, Cut, Flat, AllOk, Pendings, Sectors;
      CutBio(c.nextIdx, c.bioNbytes, c.nr, failed);
      CurrentFits(bios);
      var nsect := Sectors(c.total);
      RecalcSectors(nsect);
    }

    /** The state a call leaves, in terms of PartialSpec. */
    ghost predicate Leaves(o: Outcome, was: seq<End>)
      reads this, bios
    {
      AllOk(bios) && Pendings(bios) == o.rest && ended == was + o.ended
    }

    /** __end_that_request_first: n bytes are done; returns whether something is left. */
    method EndFirst(n: nat, failed: bool) returns (more: bool)
      requires Valid()
      modifies this, bios
      ensures Valid()
      ensures var o := Finish(old(Pendings(bios)), Call(n, failed));
              Pendings(bios) == o.rest && ended == old(ended) + o.ended
      ensures more <==> bios != []
      ensures forall k :: 0 <= k < |bios| ==> bios[k] in old(bios)
      ensures old(InStep()) ==> InStep()
      ensures more && fs ==> hardSector == old(hardSector) + Sectors(n) && hardNrSectors == old(hardNrSectors) - Sectors(n)
    {
      ghost var x := Context(bios, ended, Pendings(bios), Call(n, failed));
      hide Finish, Cuttable, Cut, AllNonEmpty, Flat, AllOk, Pendings, Through, Sectors;
      StillNonEmpty(x.was, x.call);
      FinishShrinks(x.was, x.call);
      WholeSectors(n);
      var c, k, e := EndLoop(n, failed);
      if bios == [] {
        EndedAll(x, k, e, c);
        more := false;
      } else {
        ThroughBios(x, k, e, c);
        EndRest(x, k, e, c, failed);
        more := true;
      }
      PendingsLength(bios);
    }

    /** A run of calls on an fs request. While data is left, hard_sector has moved on by the whole sectors of each call, which
      * is where the data that is left begins exactly if the odd bytes of the calls do not add up to a sector. */
    method EndCalls(calls: seq<Call>) returns (more: bool)
      requires Valid() && fs
      modifies this, bios
      ensures Valid() && more == (bios != [])
      ensures var o := Run(old(Pendings(bios)), calls); Pendings(bios) == o.rest && ended == old(ended) + o.ended
      ensures more ==> hardSector == old(hardSector) + SectorSum(calls) && hardNrSectors == old(hardNrSectors) - SectorSum(calls)
      ensures more ==> (hardSector == old(hardSector) + Total(calls) / 512 <==> OddBytes(calls) < 512)
    {
      hide Finish, AllOk, Pendings, AllNonEmpty, SectorSum, OddBytes, Total, Run;
      SectorsInStep(calls);
      NoCalls(Pendings(bios));
      more := bios != [];
      PendingsLength(bios);
      ghost var was, ends := Pendings(bios), ended;
      var i := 0;
      while i < |calls|
        invariant i <= |calls| && Valid() && more == (bios != [])
        invariant forall k :: 0 <= k < |bios| ==> bios[k] in old(bios)
        invariant Pendings(bios) == Run(was, calls[..i]).rest && ended == ends + Run(was, calls[..i]).ended
        invariant more ==> hardSector == old(hardSector) + SectorSum(calls[..i])
        invariant more ==> hardNrSectors == old(hardNrSectors) - SectorSum(calls[..i])
      {
        OneMoreCall(was, calls, i);
        EmptyStays(Pendings(bios), calls[i]);
        PendingsLength(bios);
        more := EndFirst(calls[i].bytes, calls[i].failed);
        PendingsLength(bios);
        i := i + 1;
      }
      assert calls[..i] == calls;
    }

    static lemma EmptyStays(bs: seq<Pending>, c: Call)
      ensures bs == [] ==> Finish(bs, c).rest == []
    {
    }

    static lemma NoCalls(bs: seq<Pending>)
      ensures Run(bs, []) == Outcome(bs, []) && SectorSum([]) == 0
    {
    }

    static lemma OneMoreCall(bs: seq<Pending>, calls: seq<Call>, i: nat)
      requires i < |calls|
      ensures Run(bs, calls[..i + 1]) == Then(Run(bs, calls[..i]), calls[i])
      ensures SectorSum(calls[..i + 1]) == SectorSum(calls[..i]) + Sectors(calls[i].bytes)
    {
      assert calls[..i + 1][..i] == calls[..i];
      hide Then;
    }

    lemma EndedAll(x: Context, k: nat, e: seq<End>, c: Counters)
      requires bios == [] && Through(x, k, e, c)
      ensures Leaves(Finish(x.was, x.call), x.ended)
    {
    }

    lemma ThroughBios(x: Context, k: nat, e: seq<End>, c: Counters)
      requires Through(x, k, e, c)
      ensures forall b :: b in bios ==> b in x.bios
    {
    }
  }

  lemma WholeSectors(n: nat)
    ensures 512 * Sectors(n) <= n
  {
  }

  lemma CurrentFits(bs: seq<Bio>)
    requires AllOk(bs) && bs != []
    ensures bs[0].Current() <= |Bytes(Pendings(bs))|
    ensures forall n: int :: |Bytes(Pendings(bs))| <= 512 * n ==> Sectors(bs[0].Current()) <= n
  {
    var b := bs[0];
    assert Pendings(bs)[0].data == Flat(b.vec[b.idx..]);
    if b.idx < |b.vec| {
      OneVecMore(b.vec[b.idx..], 0);
    }
  }

  lemma StillNonEmpty(was: seq<Pending>, c: Call)
    requires AllNonEmpty(was) || |was| == 1
    ensures AllNonEmpty(Finish(was, c).rest) || |Finish(was, c).rest| == 1
  {
    if AllNonEmpty(was) {
      FinishKeepsNonEmpty(was, c);
    }
  }

  /** What CutBio needs to know: nr bytes of the vector nextIdx further on make up the rest of bioNbytes. */
  predicate Cuttable(b: Bio, nextIdx: nat, bioNbytes: nat, nr: nat)
    reads b
  {
    bioNbytes != 0 ==>
      && b.idx + nextIdx < |b.vec| && nr <= b.vec[b.idx + nextIdx].len
      && bioNbytes == |Flat(b.vec[b.idx..b.idx + nextIdx])| + nr && bioNbytes < b.size
  }

  lemma AtFirstVector(bs: seq<Bio>, nr: nat)
    requires AllOk(bs)
    ensures bs != [] ==> AtVector(bs[0], 0, 0, nr)
  {
  }

  lemma CuttableAtZero(bs: seq<Bio>)
    ensures bs != [] ==> Cuttable(bs[0], 0, 0, 0)
  {
  }

  lemma PendingsLength(bs: seq<Bio>)
    requires AllOk(bs)
    ensures |Pendings(bs)| == |bs|
  {
  }

  lemma FirstPending(bs: seq<Bio>)
    requires AllOk(bs) && bs != []
    ensures |Pendings(bs)| == |bs| && bs[0].Ok() && Pendings(bs)[0] == bs[0].AsPending()
  {
  }

  lemma AtStart(b: Bio, nextIdx: nat, bioNbytes: nat, nr: nat)
    requires AtVector(b, nextIdx, bioNbytes, nr) && nr >= b.size
    ensures nextIdx == 0 && bioNbytes == 0
  {
  }

  lemma AtEndOfVector(b: Bio, nextIdx: nat, bioNbytes: nat)
    requires b.Ok() && AtVector(b, nextIdx, bioNbytes, 0) && bioNbytes < b.size
    ensures Cuttable(b, nextIdx, bioNbytes, 0)
  {
    VectorThere(b, nextIdx, bioNbytes, 0);
  }
}
