/** What every operation of the deadline scheduler keeps, and how long a write can be passed over. */
module DeadlineProofs {
  import opened RequestLists
  import opened DeadlineSpec

  /** Waits in the order in which they expire, none later than bound. */
  predicate InTime(f: seq<Wait>, bound: int) {
    && (forall i, j :: 0 <= i < j < |f| ==> f[i].expire <= f[j].expire)
    && forall i :: 0 <= i < |f| ==> f[i].expire <= bound
  }

  lemma CutInTime(f: seq<Wait>, i: nat, bound: int)
    requires InTime(f, bound) && i < |f|
    ensures InTime(Cut(f, i), bound)
  {
  }

  // ---------- the whole state ----------

  /** At most one next pointer is set, and it names a queued request. */
  ghost predicate NextOk(sort: seq<seq<Node>>, next: seq<Next>)
    requires |sort| == 2 && |next| == 2
  {
    && (next[READ].None? || next[WRITE].None?)
    && forall d :: 0 <= d < 2 && next[d].Some? ==> InSort(sort[d], next[d].id)
  }

  ghost predicate Indexed(s: State)
    requires Shaped(s)
  {
    Agree(s.sort[READ], s.fifo[READ]) && Agree(s.sort[WRITE], s.fifo[WRITE]) && NextOk(s.sort, s.next)
  }

  predicate Timed(t: Tunables, s: State, now: int)
    requires Proper(t) && Shaped(s)
  {
    InTime(s.fifo[READ], now + t.fifoExpire[READ]) && InTime(s.fifo[WRITE], now + t.fifoExpire[WRITE])
  }

  ghost predicate Valid(t: Tunables, s: State, now: int) {
    && Proper(t) && Shaped(s) && Indexed(s) && Timed(t, s, now)
    && s.starved <= Unsigned(t.writesStarved) && s.batching <= t.fifoBatch + 1
  }

  /** Moving a queued request keeps the indexes; its successor becomes the only next request. */
  lemma MoveIndexed(s: State, d: nat, id: nat)
    requires Shaped(s) && Dir(d) && Agree(s.sort[READ], s.fifo[READ]) && Agree(s.sort[WRITE], s.fifo[WRITE])
    requires Rank(s.sort[d], id) < |s.sort[d]|
    ensures Turn(s.fifo[d], id) < |s.fifo[d]| && Shaped(Move(s, d, id)) && Indexed(Move(s, d, id))
  {
    var q, f := s.sort[d], s.fifo[d];
    AgreeCut(q, f, id);
    var i := Rank(q, id);
    var u := Move(s, d, id);
    var l := Latter(q, id);
    assert UniqueSort(q);
    if l.Some? {
      LatterQueued(q, id);
      CutSort(q, i, l.id);
    }
    hide Agree, InSort, Latter;
    assert u.next == [None, None][d := l];
    assert u.sort[d] == Cut(q, i) && u.fifo[d] == Cut(f, Turn(f, id)) && u.sort[1 - d] == s.sort[1 - d] && u.fifo[1 - d] == s.fifo[1 - d];
  }

  lemma MoveTimed(t: Tunables, s: State, d: nat, id: nat, now: int)
    requires Proper(t) && Shaped(s) && Dir(d) && Timed(t, s, now) && Queued(s, d, id)
    ensures Shaped(Move(s, d, id)) && Timed(t, Move(s, d, id), now)
  {
    CutInTime(s.fifo[d], Turn(s.fifo[d], id), now + t.fifoExpire[d]);
    hide InTime;
  }

  // ---------- putting a request into the sort list, with or without its wait ----------

  /** As NextOk, where the request being moved may be the next one although it is in no sort list. */
  ghost predicate NextBut(sort: seq<seq<Node>>, next: seq<Next>, d: nat, id: nat)
    requires |sort| == 2 && |next| == 2
  {
    && (next[READ].None? || next[WRITE].None?)
    && forall e :: 0 <= e < 2 && next[e].Some? ==> InSort(sort[e], next[e].id) || (e == d && next[e].id == id)
  }

  lemma AddRbPlain(s: State, d: nat, rq: Node, extra: bool)
    requires Shaped(s) && Dir(d) && SameBut(s.sort[d], s.fifo[d], rq.id, extra) && NextBut(s.sort, s.next, d, rq.id)
    requires !HasAlias(s.sort[d], rq.sector)
    ensures AliasQueued(s.sort[d], s.fifo[d], rq.sector)
    ensures var u := AddRb(s, d, rq);
            && Shaped(u) && AddedTo(s.sort[d], s.fifo[d], u.sort[d], u.fifo[d], rq.id, extra) && NextOk(u.sort, u.next)
            && u.sort[1 - d] == s.sort[1 - d] && u.fifo[1 - d] == s.fifo[1 - d]
            && u.starved == s.starved && u.batching == s.batching
  {
    var u := AddRb(s, d, rq);
    var q, f := s.sort[d], s.fifo[d];
    SameButPut(q, f, rq, extra);
    assert u.sort[d] == Put(q, Place(q, rq.sector), rq);
    forall e | 0 <= e < 2 && u.next[e].Some? ensures InSort(u.sort[e], u.next[e].id) {
      var x := s.next[e].id;
      if e == d && x != rq.id {
        assert InSort(q, x) <==> InFifo(f, x);
      }
    }
  }

  lemma AddRbAlias(s: State, d: nat, rq: Node, extra: bool)
    requires Shaped(s) && Dir(d) && SameBut(s.sort[d], s.fifo[d], rq.id, extra)
    requires HasAlias(s.sort[d], rq.sector)
    ensures AliasQueued(s.sort[d], s.fifo[d], rq.sector)
    ensures var u := AddRb(s, d, rq);
            && Shaped(u) && AddedTo(s.sort[d], s.fifo[d], u.sort[d], u.fifo[d], rq.id, extra) && NextOk(u.sort, u.next)
            && u.sort[1 - d] == s.sort[1 - d] && u.fifo[1 - d] == s.fifo[1 - d]
            && u.starved == s.starved && u.batching == s.batching
  {
    var q, f := s.sort[d], s.fifo[d];
    var i := Place(q, rq.sector);
    var a := q[i].id;
    RankOf(q, i);
    SameButCut(q, f, rq.id, extra, a);
    ClearedPlace(q, rq.sector);
    var v := Move(s, d, a);
    var l := Latter(q, a);
    if l.Some? {
      LatterQueued(q, a);
      CutSort(q, i, l.id);
    }
    assert v.sort[d] == Cut(q, i) && v.fifo[d] == Cut(f, Turn(f, a)) && v.next == [None, None][d := l];
    hide Move, SameBut, InSort, InFifo, Latter;
    AliasGone(s, v, d, rq, extra, i);
  }

  lemma AliasGone(s: State, v: State, d: nat, rq: Node, extra: bool, i: nat)
    requires Shaped(s) && Shaped(v) && Dir(d) && i < |s.sort[d]| && HasAlias(s.sort[d], rq.sector) && i == Place(s.sort[d], rq.sector)
    requires Rank(s.sort[d], s.sort[d][i].id) == i && Turn(s.fifo[d], s.sort[d][i].id) < |s.fifo[d]|
    requires v == Move(s, d, s.sort[d][i].id)
    requires SameBut(v.sort[d], v.fifo[d], rq.id, extra) && !HasAlias(v.sort[d], rq.sector) && Place(v.sort[d], rq.sector) == i
    requires v.fifo[d] == Cut(s.fifo[d], Turn(s.fifo[d], s.sort[d][i].id))
    requires NextBut(v.sort, v.next, d, rq.id)
    ensures AliasQueued(s.sort[d], s.fifo[d], rq.sector)
    ensures var u := AddRb(s, d, rq);
            && Shaped(u) && AddedTo(s.sort[d], s.fifo[d], u.sort[d], u.fifo[d], rq.id, extra) && NextOk(u.sort, u.next)
            && u.sort[1 - d] == s.sort[1 - d] && u.fifo[1 - d] == s.fifo[1 - d]
            && u.starved == s.starved && u.batching == s.batching
  {
    AddRbPlain(v, d, rq, extra);
    assert AddRb(s, d, rq) == AddRb(v, d, rq);
  }

  lemma AddRbKeeps(s: State, d: nat, rq: Node, extra: bool)
    requires Shaped(s) && Dir(d) && SameBut(s.sort[d], s.fifo[d], rq.id, extra) && NextBut(s.sort, s.next, d, rq.id)
    ensures AliasQueued(s.sort[d], s.fifo[d], rq.sector)
    ensures var u := AddRb(s, d, rq);
            && Shaped(u) && AddedTo(s.sort[d], s.fifo[d], u.sort[d], u.fifo[d], rq.id, extra) && NextOk(u.sort, u.next)
            && u.sort[1 - d] == s.sort[1 - d] && u.fifo[1 - d] == s.fifo[1 - d]
            && u.starved == s.starved && u.batching == s.batching
  {
    hide AddRb, SameBut, NextBut, AddedTo, NextOk;
    if HasAlias(s.sort[d], rq.sector) {
      AddRbAlias(s, d, rq, extra);
    } else {
      AddRbPlain(s, d, rq, extra);
    }
  }

  /** From one direction and the other to both. */
  lemma BothDirections(t: Tunables, u: State, d: nat, now: int)
    requires Proper(t) && Shaped(u) && Dir(d) && NextOk(u.sort, u.next)
    requires Agree(u.sort[d], u.fifo[d]) && Agree(u.sort[1 - d], u.fifo[1 - d])
    requires InTime(u.fifo[d], now + t.fifoExpire[d]) && InTime(u.fifo[1 - d], now + t.fifoExpire[1 - d])
    ensures Indexed(u) && Timed(t, u, now)
  {
    hide Agree, InTime, NextOk;
  }

  lemma OneDirection(t: Tunables, u: State, d: nat, now: int)
    requires Proper(t) && Shaped(u) && Dir(d) && Indexed(u) && Timed(t, u, now)
    ensures Agree(u.sort[d], u.fifo[d]) && Agree(u.sort[1 - d], u.fifo[1 - d]) && NextOk(u.sort, u.next)
    ensures InTime(u.fifo[d], now + t.fifoExpire[d]) && InTime(u.fifo[1 - d], now + t.fifoExpire[1 - d])
  {
    hide Agree, InTime, NextOk;
  }

  // ---------- each operation ----------

  lemma AddedInTime(q: seq<Node>, f: seq<Wait>, q': seq<Node>, f': seq<Wait>, id: nat, extra: bool, bound: int)
    requires AddedTo(q, f, q', f', id, extra) && InTime(f, bound)
    ensures InTime(f', bound)
  {
    if f' != f {
      var j :| 0 <= j < |f| && f' == Cut(f, j);
      CutInTime(f, j, bound);
    }
  }

  lemma AppendInTime(f: seq<Wait>, w: Wait, bound: int)
    requires InTime(f, bound) && w.expire == bound
    ensures InTime(f + [w], bound)
  {
  }

  lemma LaterInTime(f: seq<Wait>, bound: int, later: int)
    requires InTime(f, bound) && bound <= later
    ensures InTime(f, later)
  {
  }

  lemma AddKeeps(t: Tunables, s: State, d: nat, rq: Node, before: int, now: int)
    requires Valid(t, s, before) && before <= now && Dir(d) && !InSort(s.sort[d], rq.id)
    ensures AliasQueued(s.sort[d], s.fifo[d], rq.sector) && Valid(t, Add(t, s, d, rq, now), now)
  {
    hide AddRb, Agree, InTime, AddedTo, NextOk, InSort, InFifo, SameBut, NextBut, Indexed, Timed;
    var u := AddDone(t, s, d, rq, before, now);
    BothDirections(t, u, d, now);
  }

  lemma NextOkIsBut(sort: seq<seq<Node>>, next: seq<Next>, d: nat, id: nat)
    requires |sort| == 2 && |next| == 2 && NextOk(sort, next)
    ensures NextBut(sort, next, d, id)
  {
  }

  lemma AddDone(t: Tunables, s: State, d: nat, rq: Node, before: int, now: int) returns (v: State)
    requires Valid(t, s, before) && before <= now && Dir(d) && !InSort(s.sort[d], rq.id)
    ensures AliasQueued(s.sort[d], s.fifo[d], rq.sector) && v == Add(t, s, d, rq, now)
    ensures Shaped(v) && NextOk(v.sort, v.next) && Agree(v.sort[d], v.fifo[d]) && Agree(v.sort[1 - d], v.fifo[1 - d])
    ensures InTime(v.fifo[d], now + t.fifoExpire[d]) && InTime(v.fifo[1 - d], now + t.fifoExpire[1 - d])
    ensures v.starved == s.starved && v.batching == s.batching
  {
    hide AddRb, Agree, InTime, AddedTo, NextOk, InSort, InFifo, SameBut, NextBut, Indexed, Timed;
    OneDirection(t, s, d, before);
    AgreeIsSameBut(s.sort[d], s.fifo[d], rq.id);
    NextOkIsBut(s.sort, s.next, d, rq.id);
    AddRbKeeps(s, d, rq, false);
    var u := AddRb(s, d, rq);
    var w := Wait(rq.id, now + t.fifoExpire[d]);
    AppendWait(s.sort[d], s.fifo[d], u.sort[d], u.fifo[d], w);
    LaterInTime(s.fifo[d], before + t.fifoExpire[d], now + t.fifoExpire[d]);
    LaterInTime(s.fifo[1 - d], before + t.fifoExpire[1 - d], now + t.fifoExpire[1 - d]);
    AddedInTime(s.sort[d], s.fifo[d], u.sort[d], u.fifo[d], rq.id, false, now + t.fifoExpire[d]);
    AppendInTime(u.fifo[d], w, now + t.fifoExpire[d]);
    v := Add(t, s, d, rq, now);
  }

  lemma BackMergeKeeps(t: Tunables, s: State, d: nat, id: nat, n: nat, now: int)
    requires Valid(t, s, now) && Dir(d) && Rank(s.sort[d], id) < |s.sort[d]|
    ensures Valid(t, BackMerge(s, d, id, n), now)
    ensures forall x: nat :: InSort(BackMerge(s, d, id, n).sort[d], x) <==> InSort(s.sort[d], x)
  {
    var i := Rank(s.sort[d], id);
    var rq := s.sort[d][i];
    GrownAgree(s.sort[d], s.fifo[d], i, rq.(nr := rq.nr + n));
    hide InSort, InFifo, InTime, Agree, Rank;
  }

  lemma FrontMergeKeeps(t: Tunables, s: State, d: nat, id: nat, n: nat, now: int)
    requires Valid(t, s, now) && Dir(d) && Rank(s.sort[d], id) < |s.sort[d]| && n <= s.sort[d][Rank(s.sort[d], id)].sector
    ensures var i := Rank(s.sort[d], id);
            && AliasQueued(Cut(s.sort[d], i), s.fifo[d], s.sort[d][i].sector - n)
            && Valid(t, FrontMerge(s, d, id, n), now)
  {
    hide AddRb, Agree, InTime, AddedTo, NextOk, InSort, InFifo, SameBut, NextBut, Indexed, Timed;
    var q, f := s.sort[d], s.fifo[d];
    var i := Rank(q, id);
    var rq := Node(id, q[i].sector - n, q[i].nr + n);
    var v := s.(sort := s.sort[d := Cut(q, i)]);
    OneDirection(t, s, d, now);
    TakenOut(q, f, id);
    NextTakenOut(s, v, d, id);
    AddRbKeeps(v, d, rq, true);
    var u := AddRb(v, d, rq);
    AddedAgree(v.sort[d], f, u.sort[d], u.fifo[d], id);
    AddedInTime(v.sort[d], f, u.sort[d], u.fifo[d], id, true, now + t.fifoExpire[d]);
    BothDirections(t, u, d, now);
  }

  lemma NextTakenOut(s: State, v: State, d: nat, id: nat)
    requires Shaped(s) && Dir(d) && UniqueSort(s.sort[d]) && Rank(s.sort[d], id) < |s.sort[d]| && NextOk(s.sort, s.next)
    requires v == s.(sort := s.sort[d := Cut(s.sort[d], Rank(s.sort[d], id))])
    ensures NextBut(v.sort, v.next, d, id)
  {
    forall e | 0 <= e < 2 && s.next[e].Some? ensures InSort(v.sort[e], s.next[e].id) || (e == d && s.next[e].id == id) {
      if e == d {
        CutSort(s.sort[d], Rank(s.sort[d], id), s.next[e].id);
      }
    }
  }

  // ---------- one request merged into another ----------

  lemma FifoMergedInTime(f: seq<Wait>, req: nat, next: nat, bound: int)
    requires Turn(f, req) < |f| && Turn(f, next) < |f| && req != next && InTime(f, bound)
    ensures InTime(FifoMerged(f, req, next), bound)
  {
    var i, j := Turn(f, req), Turn(f, next);
    if f[j].expire < f[i].expire {
      var g := Cut(f, i);
      CutInTime(f, i, bound);
      assert j < i && g[j] == f[j];
      hide Turn;
      PutInTime(g, j, Wait(req, f[j].expire), bound);
    }
  }

  /** A wait with the same time right behind another keeps the order. */
  lemma PutInTime(g: seq<Wait>, k: nat, w: Wait, bound: int)
    requires InTime(g, bound) && k < |g| && w.expire == g[k].expire
    ensures InTime(Put(g, k + 1, w), bound)
  {
    var r := Put(g, k + 1, w);
    assert forall m :: 0 <= m <= k ==> g[m].expire <= w.expire;
    assert forall m :: k < m < |g| ==> w.expire <= g[m].expire;
  }

  lemma FifoMergedIds(f: seq<Wait>, req: nat, next: nat, id: nat)
    requires Turn(f, req) < |f| && Turn(f, next) < |f| && req != next && UniqueFifo(f)
    ensures UniqueFifo(FifoMerged(f, req, next)) && |FifoMerged(f, req, next)| == |f|
    ensures InFifo(FifoMerged(f, req, next), id) <==> InFifo(f, id)
  {
    hide Turn, UniqueFifo, InFifo, Cut, Put;
    var i, j := Turn(f, req), Turn(f, next);
    TurnIn(f, req);
    if f[j].expire < f[i].expire {
      CutFifo(f, i, id);
      CutFifo(f, i, req);
      PutFifo(Cut(f, i), (if j < i then j else j - 1) + 1, Wait(req, f[j].expire), id);
    }
  }

  lemma FifoMergedAgree(q: seq<Node>, f: seq<Wait>, req: nat, next: nat)
    requires Agree(q, f) && Turn(f, req) < |f| && Turn(f, next) < |f| && req != next
    ensures Agree(q, FifoMerged(f, req, next))
  {
    hide FifoMerged, Turn, InSort, InFifo;
    FifoMergedIds(f, req, next, 0);
    forall id: nat ensures InSort(q, id) <==> InFifo(FifoMerged(f, req, next), id) {
      FifoMergedIds(f, req, next, id);
    }
  }

  lemma RemoveKeeps(t: Tunables, s: State, d: nat, id: nat, now: int)
    requires Valid(t, s, now) && Dir(d) && Rank(s.sort[d], id) < |s.sort[d]|
    ensures Turn(s.fifo[d], id) < |s.fifo[d]| && Valid(t, Remove(s, d, id), now)
  {
    hide Agree, InTime, NextOk, InSort, InFifo, Indexed, Timed;
    OneDirection(t, s, d, now);
    AgreeCut(s.sort[d], s.fifo[d], id);
    CutInTime(s.fifo[d], Turn(s.fifo[d], id), now + t.fifoExpire[d]);
    RemoveNext(s, d, id);
    BothDirections(t, Remove(s, d, id), d, now);
  }

  lemma RemoveNext(s: State, d: nat, id: nat)
    requires Shaped(s) && Dir(d) && Agree(s.sort[d], s.fifo[d]) && NextOk(s.sort, s.next) && Queued(s, d, id)
    ensures NextOk(Remove(s, d, id).sort, Remove(s, d, id).next)
  {
    var q := s.sort[d];
    var u := Remove(s, d, id);
    if s.next[d] == Some(id) {
      if Latter(q, id).Some? {
        LatterQueued(q, id);
        CutSort(q, Rank(q, id), Latter(q, id).id);
      }
    } else if s.next[d].Some? {
      CutSort(q, Rank(q, id), s.next[d].id);
    }
  }

  lemma BackMergeFifo(s: State, d: nat, id: nat, n: nat)
    requires Shaped(s) && Dir(d) && Rank(s.sort[d], id) < |s.sort[d]|
    ensures BackMerge(s, d, id, n).fifo == s.fifo
  {
  }

  lemma MergeRequestsKeeps(t: Tunables, s: State, d: nat, req: nat, next: nat, now: int)
    requires Valid(t, s, now) && Dir(d) && req != next && Rank(s.sort[d], req) < |s.sort[d]| && Rank(s.sort[d], next) < |s.sort[d]|
    ensures Mergeable(s, d, req, next) && Valid(t, MergeRequests(s, d, req, next), now)
  {
    var n := s.sort[d][Rank(s.sort[d], next)].nr;
    var u := BackMerge(s, d, req, n);
    OneDirection(t, s, d, now);
    AgreeCut(s.sort[d], s.fifo[d], req);
    AgreeCut(s.sort[d], s.fifo[d], next);
    BackMergeKeeps(t, s, d, req, n, now);
    RankIn(s.sort[d], next);
    RankIn(u.sort[d], next);
    BackMergeFifo(s, d, req, n);
    hide Agree, InTime, NextOk, InSort, InFifo, Indexed, Timed, FifoMerged, BackMerge, Rank, Turn;
    WaitMovedKeeps(t, u, d, req, next, now);
  }

  /** The two last steps of deadline_merged_requests. */
  lemma WaitMovedKeeps(t: Tunables, u: State, d: nat, req: nat, next: nat, now: int)
    requires Valid(t, u, now) && Dir(d) && req != next && Rank(u.sort[d], next) < |u.sort[d]|
    requires Turn(u.fifo[d], req) < |u.fifo[d]| && Turn(u.fifo[d], next) < |u.fifo[d]|
    ensures var v := u.(fifo := u.fifo[d := FifoMerged(u.fifo[d], req, next)]);
            && Turn(v.fifo[d], next) < |v.fifo[d]| == |u.fifo[d]| && Valid(t, Remove(v, d, next), now)
  {
    hide Agree, InTime, NextOk, InSort, InFifo, Indexed, Timed, FifoMerged, Rank, Turn;
    OneDirection(t, u, d, now);
    AgreeUnique(u.sort[d], u.fifo[d]);
    FifoMergedIds(u.fifo[d], req, next, 0);
    FifoMergedAgree(u.sort[d], u.fifo[d], req, next);
    FifoMergedInTime(u.fifo[d], req, next, now + t.fifoExpire[d]);
    var v := u.(fifo := u.fifo[d := FifoMerged(u.fifo[d], req, next)]);
    BothDirections(t, v, d, now);
    RemoveKeeps(t, v, d, next, now);
  }

  // ---------- dispatching ----------

  lemma QueuedIn(s: State, d: nat, id: nat)
    requires Shaped(s) && Dir(d) && Agree(s.sort[d], s.fifo[d])
    ensures InSort(s.sort[d], id) <==> Queued(s, d, id)
    ensures InFifo(s.fifo[d], id) <==> Queued(s, d, id)
  {
    RankIn(s.sort[d], id);
    TurnIn(s.fifo[d], id);
  }

  lemma ValidIsReady(t: Tunables, s: State, now: int)
    requires Valid(t, s, now)
    ensures Ready(s)
  {
    forall d | 0 <= d < 2 && s.next[d].Some? ensures Queued(s, d, s.next[d].id) {
      QueuedIn(s, d, s.next[d].id);
    }
    forall d | 0 <= d < 2 && s.fifo[d] != [] ensures Queued(s, d, s.fifo[d][0].id) {
      assert InFifo(s.fifo[d], s.fifo[d][0].id);
      QueuedIn(s, d, s.fifo[d][0].id);
    }
  }

  lemma MoveKeeps(t: Tunables, s: State, d: nat, id: nat, now: int)
    requires Valid(t, s, now) && Dir(d) && Queued(s, d, id)
    ensures Valid(t, Move(s, d, id), now)
    ensures Move(s, d, id).starved == s.starved && Move(s, d, id).batching == s.batching
    ensures Move(s, d, id).moved == s.moved + [Moved(d, id)]
  {
    MoveIndexed(s, d, id);
    MoveTimed(t, s, d, id, now);
    hide Indexed, Timed;
  }

  /** One dispatch call: it keeps the indexes, and moves exactly one request unless there is none. */
  lemma DispatchKeeps(t: Tunables, s: State, before: int, now: int)
    requires Valid(t, s, before) && before <= now
    ensures Ready(s) && Valid(t, Dispatch(t, s, now), now)
    ensures if s.fifo[READ] == [] && s.fifo[WRITE] == [] then Dispatch(t, s, now).moved == s.moved
            else exists m :: Dispatch(t, s, now).moved == s.moved + [m]
  {
    ValidIsReady(t, s, before);
    LaterValid(t, s, before, now);
    ChoiceMeans(t, s, before);
    hide Indexed, Timed, Move, Queued, Choose, BatchCount, Find;
    var b := BatchCount(t, s);
    match Choose(t, s) {
      case GoOn => MoveKeeps(t, s.(batching := b + 1), AheadDir(s), Ahead(s).id, now);
      case Start(d, starved) => FindKeeps(t, s, b, starved, d, now);
      case Idle =>
    }
  }

  lemma ChoiceMeans(t: Tunables, s: State, now: int)
    requires Valid(t, s, now) && Ready(s)
    ensures
      var c := Choose(t, s);
      && (c.GoOn? ==> Queued(s, AheadDir(s), Ahead(s).id) && s.fifo[AheadDir(s)] != [] && BatchCount(t, s) < t.fifoBatch)
      && (c.Start? ==> c.starved <= Unsigned(t.writesStarved))
      && (c.Idle? <==> s.fifo[READ] == [] && s.fifo[WRITE] == [])
      && (c.Idle? ==> BatchCount(t, s) == s.batching)
  {
    if Ahead(s).Some? {
      AheadQueued(t, s, now);
    }
    hide Indexed, Timed, Queued;
  }

  lemma LaterValid(t: Tunables, s: State, before: int, now: int)
    requires Valid(t, s, before) && before <= now
    ensures Valid(t, s, now)
  {
    LaterInTime(s.fifo[READ], before + t.fifoExpire[READ], now + t.fifoExpire[READ]);
    LaterInTime(s.fifo[WRITE], before + t.fifoExpire[WRITE], now + t.fifoExpire[WRITE]);
    hide InTime, Indexed;
  }

  lemma AheadQueued(t: Tunables, s: State, now: int)
    requires Valid(t, s, now) && Ahead(s).Some?
    ensures Queued(s, AheadDir(s), Ahead(s).id) && s.fifo[AheadDir(s)] != []
  {
    QueuedIn(s, AheadDir(s), Ahead(s).id);
  }

  /** The state in which dispatch_find_request looks. */
  function Looking(s: State, b: nat, starved: nat): State {
    s.(batching := b, starved := starved)
  }

  lemma FindKeeps(t: Tunables, s: State, b: nat, starved: nat, d: nat, now: int)
    requires Valid(t, s, now) && Ready(s) && Dir(d) && s.fifo[d] != [] && starved <= Unsigned(t.writesStarved)
    ensures Ready(Looking(s, b, starved))
    ensures var u := Find(Looking(s, b, starved), d, now);
            && Valid(t, u, now) && u.starved == starved && u.batching == 1
            && exists id :: u.moved == s.moved + [Moved(d, id)]
  {
    assert Ready(Looking(s, b, starved)) by {
      hide Queued;
      SameListsSameQueue(s, Looking(s, b, starved));
    }
    var v := Looking(s, 1, starved);
    var id := if Expired(s, d, now) || s.next[d].None? then s.fifo[d][0].id else s.next[d].id;
    assert Queued(v, d, id) by {
      assert Queued(s, d, id);
    }
    hide Move, Queued;
    assert Valid(t, v, now) by { hide Agree, InTime, NextOk; }
    MoveKeeps(t, v, d, id, now);
  }

  lemma SameListsSameQueue(s: State, u: State)
    requires Shaped(s) && Shaped(u) && u.sort == s.sort && u.fifo == s.fifo
    ensures forall d, id :: 0 <= d < 2 ==> (Queued(u, d, id) <==> Queued(s, d, id))
  {
  }

  // ---------- how long a write can be passed over ----------

  /** Requests in a batch: fifo_batch, but at least one. */
  function BatchSize(t: Tunables): nat {
    if t.fifoBatch == 0 then 1 else t.fifoBatch
  }

  /** How many more calls may pass over a queued write. */
  function Patience(t: Tunables, s: State): nat
    requires Proper(t) && s.starved <= Unsigned(t.writesStarved)
  {
    (if s.batching < t.fifoBatch then t.fifoBatch - s.batching else 0)
    + Product(Unsigned(t.writesStarved) - s.starved, BatchSize(t))
  }

  function Product(m: nat, n: nat): nat { m * n }

  lemma ProductLess(m: nat, n: nat)
    requires m > 0
    ensures Product(m - 1, n) + n == Product(m, n)
  {
  }

  lemma ProductGrows(m: nat, k: nat, n: nat)
    requires m <= k
    ensures Product(m, n) <= Product(k, n)
  {
    if m < k {
      ProductGrows(m, k - 1, n);
      ProductLess(k, n);
    }
  }

  /** The call from s to u served a write. */
  predicate ServedWrite(s: State, u: State) {
    |u.moved| > |s.moved| && u.moved[|s.moved|].dir == WRITE
  }

  /** A call that passes over a queued write uses up patience. */
  lemma CallUsesPatience(t: Tunables, s: State, before: int, now: int)
    requires Valid(t, s, before) && before <= now && s.fifo[WRITE] != [] && Ready(s)
    requires !ServedWrite(s, Dispatch(t, s, now))
    ensures var u := Dispatch(t, s, now);
            u.starved <= Unsigned(t.writesStarved) && Patience(t, u) < Patience(t, s)
  {
    hide Indexed, Timed, Queued, Move, Product, Find, Choose, BatchCount, Patience;
    LaterValid(t, s, before, now);
    ChoiceMeans(t, s, before);
    match Choose(t, s) {
      case GoOn => GoingOnCosts(t, s, before, now);
      case Start(d, starved) => StartingCosts(t, s, d, starved, before, now);
    }
  }

  lemma GoingOnCosts(t: Tunables, s: State, before: int, now: int)
    requires Valid(t, s, before) && before <= now && Ready(s) && Choose(t, s).GoOn?
    ensures var u := Dispatch(t, s, now); u.starved == s.starved && Patience(t, u) < Patience(t, s)
  {
    LaterValid(t, s, before, now);
    ChoiceMeans(t, s, before);
    var b := BatchCount(t, s);
    assert b == s.batching;
    hide Indexed, Timed, Queued, Move, Product, Choose, BatchCount;
    MoveKeeps(t, s.(batching := b + 1), AheadDir(s), Ahead(s).id, now);
  }

  lemma StartingCosts(t: Tunables, s: State, d: nat, starved: nat, before: int, now: int)
    requires Valid(t, s, before) && before <= now && Ready(s) && Choose(t, s) == Start(d, starved) && s.fifo[WRITE] != []
    ensures var u := Dispatch(t, s, now);
            if d == WRITE then ServedWrite(s, u)
            else u.starved <= Unsigned(t.writesStarved) && Patience(t, u) < Patience(t, s)
  {
    LaterValid(t, s, before, now);
    ChoiceMeans(t, s, before);
    assert d == READ ==> starved == s.starved + 1;
    hide Indexed, Timed, Queued, Move, Product, Find, Choose, BatchCount;
    FindKeeps(t, s, BatchCount(t, s), starved, d, now);
    if d == READ {
      ProductLess(Unsigned(t.writesStarved) - s.starved, BatchSize(t));
    }
  }

  datatype Op =
    | AddRq(d: nat, rq: Node)
    | GrowBack(d: nat, id: nat, n: nat)
    | GrowFront(d: nat, id: nat, n: nat)
    | MergeInto(d: nat, req: nat, next: nat)
    | Call

  /** What the block layer sees to: new requests are new, merged ones are queued, and a merge ends where sectors begin. */
  ghost predicate Allowed(s: State, op: Op)
    requires Shaped(s)
  {
    match op
    case AddRq(d, rq) => Dir(d) && !InSort(s.sort[d], rq.id)
    case GrowBack(d, id, n) => Dir(d) && InSort(s.sort[d], id)
    case GrowFront(d, id, n) => Dir(d) && InSort(s.sort[d], id) && forall k :: 0 <= k < |s.sort[d]| && s.sort[d][k].id == id ==> n <= s.sort[d][k].sector
    case MergeInto(d, req, next) => Dir(d) && req != next && InSort(s.sort[d], req) && InSort(s.sort[d], next)
    case Call => true
  }

  ghost function Step(t: Tunables, s: State, op: Op, before: int, now: int): State
    requires Valid(t, s, before) && before <= now && Allowed(s, op)
  {
    match op
    case AddRq(d, rq) => AddKeeps(t, s, d, rq, before, now); Add(t, s, d, rq, now)
    case GrowBack(d, id, n) => RankIn(s.sort[d], id); BackMerge(s, d, id, n)
    case GrowFront(d, id, n) => RankIn(s.sort[d], id); FrontMergeKeeps(t, s, d, id, n, before); FrontMerge(s, d, id, n)
    case MergeInto(d, req, next) =>
      RankIn(s.sort[d], req); RankIn(s.sort[d], next); MergeRequestsKeeps(t, s, d, req, next, before);
      MergeRequests(s, d, req, next)
    case Call => ValidIsReady(t, s, before); Dispatch(t, s, now)
  }

  lemma StepKeeps(t: Tunables, s: State, op: Op, before: int, now: int)
    requires Valid(t, s, before) && before <= now && Allowed(s, op)
    ensures Valid(t, Step(t, s, op, before, now), now)
  {
    hide Indexed, Timed, Add, BackMerge, FrontMerge, MergeRequests, Dispatch, InSort;
    LaterValid(t, s, before, now);
    match op {
      case AddRq(d, rq) => AddKeeps(t, s, d, rq, before, now);
      case GrowBack(d, id, n) =>
        RankIn(s.sort[d], id);
        BackMergeKeeps(t, s, d, id, n, now);
      case GrowFront(d, id, n) =>
        RankIn(s.sort[d], id);
        FrontMergeKeeps(t, s, d, id, n, now);
      case MergeInto(d, req, next) =>
        RankIn(s.sort[d], req);
        RankIn(s.sort[d], next);
        MergeRequestsKeeps(t, s, d, req, next, now);
      case Call => DispatchKeeps(t, s, before, now);
    }
  }

  /** Adding and merging leave the counters alone. */
  lemma OthersCostNothing(t: Tunables, s: State, op: Op, before: int, now: int)
    requires Valid(t, s, before) && before <= now && Allowed(s, op) && !op.Call?
    ensures var u := Step(t, s, op, before, now); u.batching == s.batching && u.starved == s.starved
  {
    match op {
      case AddRq(d, rq) => AddKeeps(t, s, d, rq, before, now);
      case GrowBack(d, id, n) =>
      case GrowFront(d, id, n) =>
        RankIn(s.sort[d], id);
        FrontMergeKeeps(t, s, d, id, n, before);
      case MergeInto(d, req, next) =>
        RankIn(s.sort[d], req);
        RankIn(s.sort[d], next);
        MergeRequestsKeeps(t, s, d, req, next, before);
    }
  }

  datatype Event = Event(op: Op, now: int)

  /** A run through which some write stays queued, and none is served by a dispatch call. */
  ghost predicate PassedOver(t: Tunables, s: State, before: int, run: seq<Event>)
    requires Valid(t, s, before)
    decreases |run|
  {
    run == [] ||
    var e := run[0];
    && before <= e.now && Allowed(s, e.op)
    && var u := Step(t, s, e.op, before, e.now);
       && (e.op.Call? ==> s.fifo[WRITE] != [] && !ServedWrite(s, u))
       && (StepKeeps(t, s, e.op, before, e.now); PassedOver(t, u, e.now, run[1..]))
  }

  function Calls(run: seq<Event>): nat {
    if run == [] then 0 else (if run[0].op.Call? then 1 else 0) + Calls(run[1..])
  }

  lemma StepUsesPatience(t: Tunables, s: State, op: Op, before: int, now: int)
    requires Valid(t, s, before) && before <= now && Allowed(s, op)
    requires op.Call? ==> s.fifo[WRITE] != [] && !ServedWrite(s, Step(t, s, op, before, now))
    ensures var u := Step(t, s, op, before, now);
            u.starved <= Unsigned(t.writesStarved) && Patience(t, u) + (if op.Call? then 1 else 0) <= Patience(t, s)
  {
    if op.Call? {
      ValidIsReady(t, s, before);
      hide Dispatch, Patience, ServedWrite;
      CallUsesPatience(t, s, before, now);
    } else {
      hide Step, Allowed, Indexed, Timed, Product;
      OthersCostNothing(t, s, op, before, now);
    }
  }

  lemma {:induction false} PatienceBounds(t: Tunables, s: State, before: int, run: seq<Event>)
    requires Valid(t, s, before) && PassedOver(t, s, before, run)
    ensures Calls(run) <= Patience(t, s)
    decreases |run|
  {
    hide Step, Allowed, Indexed, Timed, Patience, ServedWrite;
    if run != [] {
      var e := run[0];
      StepKeeps(t, s, e.op, before, e.now);
      StepUsesPatience(t, s, e.op, before, e.now);
      PatienceBounds(t, Step(t, s, e.op, before, e.now), e.now, run[1..]);
    }
  }

  lemma PatienceAtMost(t: Tunables, s: State)
    requires Proper(t) && s.starved <= Unsigned(t.writesStarved)
    ensures Patience(t, s) <= Product(Unsigned(t.writesStarved) + 1, BatchSize(t))
  {
    hide Product;
    ProductLess(Unsigned(t.writesStarved) + 1, BatchSize(t));
    ProductGrows(Unsigned(t.writesStarved) - s.starved, Unsigned(t.writesStarved), BatchSize(t));
  }

  /** Main theorem: while a write is queued, of (writes_starved + 1) * max(1, fifo_batch) + 1 dispatch calls at least one
    * serves a write, whatever is added and merged meanwhile. A negative writes_starved counts as an unsigned number. */
  lemma WriteIsServed(t: Tunables, s: State, before: int, run: seq<Event>)
    requires Valid(t, s, before)
    requires Calls(run) > Product(Unsigned(t.writesStarved) + 1, BatchSize(t))
    ensures !PassedOver(t, s, before, run)
  {
    hide PassedOver, Calls, Indexed, Timed, Patience, Product;
    PatienceAtMost(t, s);
    if PassedOver(t, s, before, run) {
      PatienceBounds(t, s, before, run);
    }
  }

  // ---------- the FIFO head speaks for all ----------

  /** Testing only the head of the FIFO tells whether any queued request has expired. */
  lemma HeadTellsExpiry(t: Tunables, s: State, d: nat, before: int, now: int)
    requires Valid(t, s, before) && Dir(d) && s.fifo[d] != []
    ensures Expired(s, d, now) <==> exists k :: 0 <= k < |s.fifo[d]| && now > s.fifo[d][k].expire
  {
    OneDirection(t, s, d, before);
    hide Indexed, Timed;
    if Expired(s, d, now) {
      assert now > s.fifo[d][0].expire;
    }
  }

  /** The empty scheduler is a proper start. */
  lemma StartsValid(t: Tunables, now: int)
    requires Proper(t)
    ensures Valid(t, EMPTY, now)
  {
  }
}
