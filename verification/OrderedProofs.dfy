/** The barrier protocol keeps its promises in every reachable state, although an epoch is marked by one bit only. */
module OrderedProofs {
  import opened OrderedSpec

  // ---------- the invariant ----------

  predicate Known(added: seq<Rq>, r: Rq) {
    (r.Fs? || r.Special?) && r.id < |added| && added[r.id] == r
  }

  predicate Placed(s: State, r: Rq) {
    r in s.queue || r in s.held || r in s.driver || r in s.done || (s.stages.started && r == s.orig)
  }

  /** Arrivals carry their number, their epoch and the parity of the epoch. */
  ghost predicate Arrivals(s: State) {
    && (forall i :: 0 <= i < |s.added| ==> (s.added[i].Fs? || s.added[i].Special?) && s.added[i].id == i)
    && (forall i :: 0 <= i < |s.added| && s.added[i].Fs? ==>
          var r := s.added[i];
          r.epoch <= s.barriers && r.color == (r.epoch % 2 == 1) && (r.barrier ==> r.epoch < s.barriers))
    && (forall i, j :: 0 <= i < j < |s.added| && s.added[i].Fs? && s.added[j].Fs? ==>
          s.added[i].epoch <= s.added[j].epoch && (s.added[i].barrier ==> s.added[i].epoch < s.added[j].epoch))
    && s.ordcolor == (s.barriers % 2 == 1)
    && s.passed <= s.barriers
  }

  /** The queue, the scheduler and the driver hold arrivals and proxies only. */
  ghost predicate Names(s: State) {
    && (forall i :: 0 <= i < |s.queue| ==> Known(s.added, s.queue[i]) || IsProxy(s.queue[i]))
    && (forall r :: r in s.held ==> Known(s.added, r) && Passable(r) && r.epoch == s.barriers)
    && (forall r :: r in s.driver ==> Known(s.added, r) || IsProxy(r))
    && (forall r :: r in s.done ==> Known(s.added, r))
    && (forall r :: r in s.started ==> Known(s.added, r) || IsProxy(r))
  }

  ghost predicate Distinct(s: State) {
    forall i, j :: 0 <= i < j < |s.queue| ==> s.queue[i] != s.queue[j]
  }

  /** No arrival is in two places ... */
  ghost predicate Apart(s: State) {
    && (forall i :: 0 <= i < |s.queue| ==>
          s.queue[i] !in s.held && s.queue[i] !in s.driver && s.queue[i] !in s.done)
    && s.held !! s.driver !! s.done
    && s.held !! s.started
  }

  /** ... and every arrival is in one. */
  ghost predicate Covered(s: State) {
    forall r :: Known(s.added, r) ==> Placed(s, r)
  }

  ghost predicate OrigOk(s: State) {
    s.stages.started ==>
      Known(s.added, s.orig) && IsBarrierOf(s.orig, s.passed)
      && s.orig !in s.queue && s.orig !in s.held && s.orig !in s.driver && s.orig !in s.done
  }

  predicate IsBarrierOf(r: Rq, e: nat) {
    r.Fs? && r.barrier && r.epoch == e
  }

  /** Rank of a queue entry in the order that barriers promise; past epochs no longer matter. */
  function Key(passed: nat, r: Rq): nat {
    match r
    case Fs(_, barrier, _, _, epoch) => 8 * (if epoch < passed then passed else epoch) + if barrier then 4 else 0
    case PreFlush => 8 * passed + 1
    case Bar => 8 * passed + 2
    case PostFlush => 8 * passed + 3
    case Special(_) => 0
  }

  ghost predicate SortedQueue(passed: nat, q: seq<Rq>) {
    forall i, j :: 0 <= i < j < |q| && !q[i].Special? && !q[j].Special? ==> Key(passed, q[i]) <= Key(passed, q[j])
  }

  ghost predicate Sorted(s: State) {
    SortedQueue(s.passed, s.queue)
  }

  ghost predicate QueuedBarrier(q: seq<Rq>, e: nat) {
    exists i :: 0 <= i < |q| && IsBarrierOf(q[i], e)
  }

  function FirstOpen(s: State): nat {
    if s.stages.started then s.passed + 1 else s.passed
  }

  /** Barriers of past epochs are over. */
  ghost predicate OldDone(s: State) {
    forall r :: Known(s.added, r) && r.Fs? && r.barrier && r.epoch < s.passed ==> r in s.done
  }

  /** Whatever the driver has or may take belongs to the open epoch or a past one; and what a sequence has to wait for is
    * queued in the colour of its barrier. */
  ghost predicate Current(s: State) {
    && (forall r :: r in s.driver && r.Fs? ==> Passable(r) && r.epoch <= s.passed)
    && (forall i :: 0 <= i < |s.queue| && s.queue[i] in s.started && s.queue[i].Fs? ==>
          Passable(s.queue[i]) && s.queue[i].epoch <= s.passed)
    && (forall i :: s.stages.started && 0 <= i < |s.queue| && s.queue[i].Fs? && s.queue[i].epoch <= s.passed ==>
          s.orig.Fs? && s.queue[i].color == s.orig.color)
  }

  /** Every barrier that has neither started nor finished is in the queue. */
  ghost predicate Fenced(s: State) {
    && (forall e: nat :: FirstOpen(s) <= e < s.barriers ==> QueuedBarrier(s.queue, e))
    && FirstOpen(s) <= s.barriers
  }

  /** The bit of a proxy's own stage. */
  predicate Passed(st: Stages, r: Rq) {
    match r
    case PreFlush => st.preflush
    case Bar => st.bar
    case PostFlush => st.postflush
    case _ => true
  }

  /** All stages before a proxy's own one are recorded. */
  predicate Due(st: Stages, r: Rq) {
    match r
    case PreFlush => st.drain
    case Bar => st.drain && st.preflush
    case PostFlush => st.drain && st.preflush && st.bar
    case _ => true
  }

  /** A proxy is queued or with the driver exactly while its stage is open. */
  ghost predicate Proxies(s: State) {
    forall r :: IsProxy(r) ==> (r in s.queue || r in s.driver <==> s.stages.started && !Passed(s.stages, r))
  }

  /** The driver sees a proxy only when its turn has come, and never an empty barrier. */
  ghost predicate InTurn(s: State) {
    && (forall r :: IsProxy(r) && r in s.driver ==> Due(s.stages, r))
    && (forall r :: IsProxy(r) && r in s.started && s.stages.started ==> Due(s.stages, r))
    && (s.stages.started && s.orig.Fs? && s.orig.empty ==> Bar !in s.started && Bar !in s.driver)
  }

  /** Stages that the bits report as run, in protocol order. */
  function RunSoFar(s: State): seq<Rq> {
    (if PreFlush in s.plan && s.stages.preflush then [PreFlush] else [])
    + (if s.stages.bar then [Bar] else [])
    + (if PostFlush in s.plan && s.stages.postflush then [PostFlush] else [])
  }

  predicate PlanFits(s: State) {
    s.plan == (if PreFlush in s.plan then [PreFlush] else []) + [Bar] + (if PostFlush in s.plan then [PostFlush] else [])
  }

  /** The stage bits, the plan and what has completed agree. */
  ghost predicate Bits(s: State) {
    && (!s.stages.started ==> s.stages == IDLE)
    && (s.stages.started ==>
          && CurSeq(s.stages) != SEQ_DONE
          && PlanFits(s) && s.hist == RunSoFar(s)
          && (s.orig.Fs? && s.orig.empty ==> PostFlush !in s.plan)
          && (PreFlush !in s.plan ==> s.stages.preflush)
          && (PostFlush !in s.plan ==> s.stages.postflush)
          && (PreFlush in s.plan && s.stages.preflush ==> s.stages.drain)
          && (s.stages.bar ==> s.stages.drain && s.stages.preflush)
          && (PostFlush in s.plan && s.stages.postflush ==> s.stages.bar))
  }

  /** Once the drain is recorded, everything that arrived before the barrier is completed. */
  ghost predicate Drained(s: State) {
    s.stages.started && s.stages.drain ==>
      forall r :: Known(s.added, r) && r.Fs? && r.epoch <= s.passed && r != s.orig ==> r in s.done
  }

  ghost function Accounted(driver: set<Rq>): set<Rq> {
    set r | r in driver && IsFs(r)
  }

  ghost predicate Counted(s: State) {
    s.inFlight == |Accounted(s.driver)| && s.driver <= s.started
  }

  /** While the drain is awaited the head belongs to the drain, unless the driver still owes a completion. */
  ghost predicate Live(s: State) {
    s.stages.started && !s.stages.drain && s.driver == {} ==> s.queue != [] && ReqSeq(s, s.queue[0]) == SEQ_DRAIN
  }

  ghost predicate Inv(s: State) {
    && Arrivals(s) && Names(s) && Distinct(s) && Apart(s) && Covered(s) && OrigOk(s)
    && Sorted(s) && OldDone(s) && Current(s) && Fenced(s)
    && Proxies(s) && InTurn(s) && Bits(s) && Drained(s) && Counted(s) && Live(s)
  }

  // ---------- queue surgery ----------

  lemma RemoveSplits(q: seq<Rq>, r: Rq) returns (i: nat)
    requires r in q
    ensures i < |q| && q[i] == r && Remove(q, r) == q[..i] + q[i+1..]
  {
    if q[0] == r {
      i := 0;
    } else {
      var k := RemoveSplits(q[1..], r);
      i := k + 1;
      assert [q[0]] + (q[1..][..k] + q[1..][k+1..]) == q[..i] + q[i+1..];
    }
  }

  /** Old and new index of an entry around an insertion. */
  lemma InsertIndex(q: seq<Rq>, p: nat, r: Rq)
    requires p <= |q|
    ensures |Insert(q, p, r)| == |q| + 1 && Insert(q, p, r)[p] == r
    ensures forall k :: 0 <= k < p ==> Insert(q, p, r)[k] == q[k]
    ensures forall k :: p < k <= |q| ==> Insert(q, p, r)[k] == q[k - 1]
    ensures forall x :: x in Insert(q, p, r) <==> x in q || x == r
  {
    var w := Insert(q, p, r);
    forall x | x in q ensures x in w {
      var k :| 0 <= k < |q| && q[k] == x;
      assert w[if k < p then k else k + 1] == x;
    }
  }

  lemma RemoveIndex(q: seq<Rq>, i: nat, w: seq<Rq>)
    requires i < |q| && w == q[..i] + q[i+1..]
    requires forall k, j :: 0 <= k < j < |q| ==> q[k] != q[j]
    ensures |w| == |q| - 1
    ensures forall k :: 0 <= k < i ==> w[k] == q[k]
    ensures forall k :: i <= k < |w| ==> w[k] == q[k + 1]
    ensures forall x :: x in w <==> x in q && x != q[i]
  {
    forall x | x in q && x != q[i] ensures x in w {
      var k :| 0 <= k < |q| && q[k] == x;
      assert w[if k < i then k else k - 1] == x;
    }
  }

  lemma InsertKeepsBarriers(s: State, t: State, p: nat, r: Rq)
    requires p <= |s.queue| && t.queue == Insert(s.queue, p, r)
    ensures forall e :: QueuedBarrier(s.queue, e) ==> QueuedBarrier(t.queue, e)
  {
    forall e | QueuedBarrier(s.queue, e) ensures QueuedBarrier(t.queue, e) {
      var k :| 0 <= k < |s.queue| && IsBarrierOf(s.queue[k], e);
      assert IsBarrierOf(t.queue[if k < p then k else k + 1], e);
    }
  }

  lemma RemoveKeepsBarriers(s: State, t: State, i: nat)
    requires i < |s.queue| && t.queue == s.queue[..i] + s.queue[i+1..]
    requires !(s.queue[i].Fs? && s.queue[i].barrier)
    ensures forall e :: QueuedBarrier(s.queue, e) ==> QueuedBarrier(t.queue, e)
  {
    forall e | QueuedBarrier(s.queue, e) ensures QueuedBarrier(t.queue, e) {
      var k :| 0 <= k < |s.queue| && IsBarrierOf(s.queue[k], e);
      assert IsBarrierOf(t.queue[if k < i then k else k - 1], e);
    }
  }

  lemma SortedInsert(s: State, t: State, p: nat, r: Rq)
    requires p <= |s.queue| && t.queue == Insert(s.queue, p, r) && t.passed == s.passed
    requires Sorted(s)
    requires r.Special? || forall i :: 0 <= i < p && !s.queue[i].Special? ==> Key(s.passed, s.queue[i]) <= Key(s.passed, r)
    requires r.Special? || forall i :: p <= i < |s.queue| && !s.queue[i].Special? ==> Key(s.passed, r) <= Key(s.passed, s.queue[i])
    ensures Sorted(t)
  {
    InsertIndex(s.queue, p, r);
    forall i, j | 0 <= i < j < |t.queue| && !t.queue[i].Special? && !t.queue[j].Special?
      ensures Key(t.passed, t.queue[i]) <= Key(t.passed, t.queue[j])
    {
      var i0, j0 := if i < p then i else i - 1, if j < p then j else j - 1;
      assert i == p || t.queue[i] == s.queue[i0];
      assert j == p || t.queue[j] == s.queue[j0];
    }
  }

  // ---------- arrivals ----------

  /** What every arrival does to the bookkeeping; the new request goes to the scheduler or into the queue. */
  ghost predicate Arrives(s: State, t: State, r: Rq) {
    && t.added == s.added + [r]
    && ((r.Special? && r.id == |s.added|) || (r.Fs? && r == NewFs(s, r.barrier, r.empty)))
    && t.ordcolor == (s.ordcolor != (r.Fs? && r.barrier))
    && t.barriers == (if r.Fs? && r.barrier then s.barriers + 1 else s.barriers)
    && t.passed == s.passed && t.stages == s.stages && t.orig == s.orig && t.plan == s.plan && t.hist == s.hist
    && t.driver == s.driver && t.done == s.done && t.started == s.started && t.inFlight == s.inFlight
  }

  ghost predicate ToQueue(s: State, t: State, r: Rq, p: nat) {
    Arrives(s, t, r) && p <= |s.queue| && t.queue == Insert(s.queue, p, r) && t.held == s.held
    && (r.Fs? ==> p == |s.queue| && s.held == {})
    && (p == 0 || p == |s.queue|)
  }

  ghost predicate ToScheduler(s: State, t: State, r: Rq) {
    Arrives(s, t, r) && t.queue == s.queue && t.held == s.held + {r} && Passable(r)
  }

  lemma Arrived(s: State, t: State, r: Rq)
    requires Arrivals(s) && Arrives(s, t, r)
    ensures Arrivals(t)
    ensures Known(t.added, r) && !Known(s.added, r)
    ensures forall x :: Known(t.added, x) <==> Known(s.added, x) || x == r
  {
    assert t.added[|s.added|] == r;
  }

  lemma ArrivalIsNew(s: State, t: State, r: Rq)
    requires Arrivals(s) && Names(s) && Arrives(s, t, r)
    ensures r !in s.queue && r !in s.held && r !in s.driver && r !in s.done && r !in s.started
  {
    Arrived(s, t, r);
  }

  /** Parts of the invariant that an arrival cannot touch, wherever it goes. */
  lemma ArrivalFrame(s: State, t: State, r: Rq)
    requires Arrivals(s) && Arrives(s, t, r)
    requires OldDone(s) && InTurn(s) && Bits(s) && Drained(s) && Counted(s) && Fenced(s)
    ensures OldDone(t) && InTurn(t) && Bits(t) && Drained(t) && Counted(t)
  {
    Arrived(s, t, r);
  }

  lemma ToSchedulerPlaces(s: State, t: State, r: Rq)
    requires Arrivals(s) && ToScheduler(s, t, r)
    requires Names(s) && Distinct(s) && Apart(s) && Covered(s) && OrigOk(s)
    ensures Names(t) && Distinct(t) && Apart(t) && Covered(t) && OrigOk(t)
  {
    Arrived(s, t, r);
    ArrivalIsNew(s, t, r);
  }

  lemma ToSchedulerRest(s: State, t: State, r: Rq)
    requires ToScheduler(s, t, r)
    requires Sorted(s) && Current(s) && Fenced(s) && Proxies(s) && Live(s)
    ensures Sorted(t) && Current(t) && Fenced(t) && Proxies(t) && Live(t)
  {
  }

  lemma ToSchedulerKeeps(s: State, t: State, r: Rq)
    requires Inv(s) && ToScheduler(s, t, r)
    ensures Inv(t)
  {
    hide Arrivals, Names, Distinct, Apart, Covered, OrigOk, Sorted, OldDone, Current, Fenced;
    hide Proxies, InTurn, Bits, Drained, Counted, Live;
    Arrived(s, t, r);
    ArrivalFrame(s, t, r);
    ToSchedulerPlaces(s, t, r);
    ToSchedulerRest(s, t, r);
  }

  lemma ToQueuePlaces(s: State, t: State, r: Rq, p: nat)
    requires Arrivals(s) && ToQueue(s, t, r, p)
    requires Names(s) && Distinct(s) && Apart(s) && Covered(s) && OrigOk(s)
    ensures Names(t) && Distinct(t) && Apart(t) && Covered(t) && OrigOk(t)
  {
    Arrived(s, t, r);
    ArrivalIsNew(s, t, r);
    InsertIndex(s.queue, p, r);
  }

  /** The barriers in the queue are those of epochs to come. */
  lemma NoOldBarrier(s: State, i: nat)
    requires Names(s) && Apart(s) && OldDone(s) && i < |s.queue|
    ensures s.queue[i].Fs? && s.queue[i].barrier ==> s.queue[i].epoch >= s.passed
  {
    assert s.queue[i] in s.queue;
  }

  lemma ToQueueSorts(s: State, t: State, r: Rq, p: nat)
    requires Arrivals(s) && Names(s) && Apart(s) && OldDone(s) && ToQueue(s, t, r, p)
    requires Sorted(s) && Fenced(s) && Proxies(s)
    ensures Sorted(t)
  {
    if r.Fs? {
      forall i | 0 <= i < |s.queue| && !s.queue[i].Special?
        ensures Key(s.passed, s.queue[i]) <= Key(s.passed, r)
      {
        assert s.queue[i] in s.queue;
        NoOldBarrier(s, i);
      }
    }
    SortedInsert(s, t, p, r);
  }

  lemma ToQueueRest(s: State, t: State, r: Rq, p: nat)
    requires Arrivals(s) && Names(s) && ToQueue(s, t, r, p)
    requires Current(s) && Fenced(s) && Proxies(s) && Live(s)
    ensures Current(t) && Fenced(t) && Proxies(t) && Live(t)
  {
    ArrivalIsNew(s, t, r);
    InsertIndex(s.queue, p, r);
    InsertKeepsBarriers(s, t, p, r);
    if r.Fs? && r.barrier {
      assert IsBarrierOf(t.queue[p], s.barriers);
    }
  }

  lemma ToQueueKeeps(s: State, t: State, r: Rq, p: nat)
    requires Inv(s) && ToQueue(s, t, r, p)
    ensures Inv(t)
  {
    hide Arrivals, Names, Distinct, Apart, Covered, OrigOk, Sorted, OldDone, Current, Fenced;
    hide Proxies, InTurn, Bits, Drained, Counted, Live;
    Arrived(s, t, r);
    ArrivalFrame(s, t, r);
    ToQueuePlaces(s, t, r, p);
    ToQueueSorts(s, t, r, p);
    ToQueueRest(s, t, r, p);
  }

  // ---------- dispatch from the scheduler ----------

  ghost predicate Dispatches(s: State, t: State, r: Rq, p: nat) {
    Enabled(s, Dispatch(r, p)) && t == s.(held := s.held - {r}, queue := Insert(s.queue, p, r))
  }

  /** Behind the last fence everything belongs to the newest epoch, or to a past one if no barrier is open. */
  lemma BehindTheFence(s: State, p: nat, i: nat)
    requires Arrivals(s) && Names(s) && Apart(s) && Covered(s) && Sorted(s) && OldDone(s) && Fenced(s)
    requires Proxies(s) && InTurn(s) && Bits(s) && Drained(s) && OrigOk(s)
    requires p <= i < |s.queue| && forall k :: p <= k < |s.queue| ==> Passable(s.queue[k])
    ensures s.queue[i].Fs? && Key(s.passed, s.queue[i]) == 8 * s.barriers
  {
    var e := if s.queue[i].epoch < FirstOpen(s) then FirstOpen(s) else s.queue[i].epoch;
    var fence := QueuedBarrier(s.queue, e);
    var proxy := Bar in s.queue;
    assert s.queue[i] in s.queue;
  }

  lemma DispatchSorts(s: State, t: State, r: Rq, p: nat)
    requires Dispatches(s, t, r, p)
    requires Arrivals(s) && Names(s) && Apart(s) && OldDone(s) && Sorted(s) && Fenced(s) && Proxies(s)
    requires forall i :: p <= i < |s.queue| ==> s.queue[i].Fs? && Key(s.passed, s.queue[i]) == 8 * s.barriers
    ensures Sorted(t)
  {
    forall i | 0 <= i < |s.queue| && !s.queue[i].Special?
      ensures i < p ==> Key(s.passed, s.queue[i]) <= Key(s.passed, r)
      ensures i >= p ==> Key(s.passed, s.queue[i]) == Key(s.passed, r)
    {
      assert s.queue[i] in s.queue;
      NoOldBarrier(s, i);
    }
    SortedInsert(s, t, p, r);
  }

  lemma DispatchPlaces(s: State, t: State, r: Rq, p: nat)
    requires Dispatches(s, t, r, p)
    requires Names(s) && Distinct(s) && Apart(s) && Covered(s) && OrigOk(s)
    ensures Names(t) && Distinct(t) && Apart(t) && Covered(t) && OrigOk(t)
  {
    InsertIndex(s.queue, p, r);
    assert forall i :: 0 <= i < |s.queue| ==> s.queue[i] != r;
  }

  lemma DispatchOrder(s: State, t: State, r: Rq, p: nat)
    requires Dispatches(s, t, r, p)
    requires Apart(s) && Current(s) && Fenced(s) && Proxies(s)
    requires Names(s)
    ensures Current(t) && Fenced(t) && Proxies(t)
  {
    InsertIndex(s.queue, p, r);
    InsertKeepsBarriers(s, t, p, r);
    assert r !in s.started;
  }

  lemma DispatchRest(s: State, t: State, r: Rq, p: nat)
    requires Dispatches(s, t, r, p)
    requires Arrivals(s) && OldDone(s) && Proxies(s) && InTurn(s) && Bits(s) && Drained(s) && Counted(s) && Live(s)
    ensures Arrivals(t) && OldDone(t) && InTurn(t) && Bits(t) && Drained(t) && Counted(t) && Live(t)
  {
    InsertIndex(s.queue, p, r);
    var proxy := Bar in s.queue;
  }

  lemma DispatchKeeps(s: State, t: State, r: Rq, p: nat)
    requires Inv(s) && Dispatches(s, t, r, p)
    ensures Inv(t)
  {
    hide Arrivals, Names, Distinct, Apart, Covered, OrigOk, Sorted, OldDone, Current, Fenced;
    hide Proxies, InTurn, Bits, Drained, Counted, Live;
    forall i | p <= i < |s.queue| ensures s.queue[i].Fs? && Key(s.passed, s.queue[i]) == 8 * s.barriers {
      BehindTheFence(s, p, i);
    }
    DispatchSorts(s, t, r, p);
    DispatchPlaces(s, t, r, p);
    DispatchOrder(s, t, r, p);
    DispatchRest(s, t, r, p);
  }

  // ---------- handing out requests ----------

  /** What the head of the queue may be when it is handed to the driver. */
  predicate Ripe(s: State, r: Rq) {
    || r.Special?
    || (r.Fs? && Passable(r) && r.epoch <= s.passed)
    || (IsProxy(r) && s.stages.started && Due(s.stages, r) && !(r.Bar? && s.orig.Fs? && s.orig.empty))
  }

  /** Outside a sequence the head is special, an ordinary request of the open epoch, or that epoch's barrier. */
  lemma IdleHead(s: State)
    requires Arrivals(s) && Names(s) && Apart(s) && Sorted(s) && OldDone(s) && Fenced(s) && Proxies(s)
    requires s.queue != [] && !s.stages.started
    ensures s.queue[0].Special? || (s.queue[0].Fs? && s.queue[0].epoch <= s.passed)
    ensures s.queue[0].Fs? && s.queue[0].barrier ==> s.queue[0].epoch == s.passed
  {
    var fence := QueuedBarrier(s.queue, s.passed);
    assert s.queue[0] in s.queue;
  }

  /** Inside a sequence, an entry of the current stage or earlier at the head is ripe: the colour can only
    * be mistaken for the current one behind a barrier of the other colour. */
  lemma BusyHead(s: State)
    requires Arrivals(s) && Names(s) && Apart(s) && OrigOk(s) && Sorted(s) && OldDone(s) && Fenced(s)
    requires Proxies(s) && Bits(s)
    requires s.queue != [] && s.stages.started
    requires ReqSeq(s, s.queue[0]) <= CurSeq(s.stages)
    ensures s.queue[0].Special? || (s.queue[0].Fs? && Passable(s.queue[0]) && s.queue[0].epoch <= s.passed)
            || (IsProxy(s.queue[0]) && Due(s.stages, s.queue[0]))
  {
    var r := s.queue[0];
    var fence := QueuedBarrier(s.queue, s.passed + 1);
    assert r in s.queue;
    if r.Fs? {
      assert r.color == s.orig.color;
      assert s.added[r.id] == r && s.added[s.orig.id] == s.orig;
    }
  }

  ghost predicate Marks(s: State, t: State, r: Rq) {
    r in s.queue && Ripe(s, r) && t == s.(started := s.started + {r})
  }

  lemma MarkPlaces(s: State, t: State, r: Rq)
    requires Marks(s, t, r)
    requires Names(s) && Distinct(s) && Apart(s) && Covered(s) && OrigOk(s)
    ensures Names(t) && Distinct(t) && Apart(t) && Covered(t) && OrigOk(t)
  {
  }

  lemma MarkRest(s: State, t: State, r: Rq)
    requires Marks(s, t, r)
    requires Arrivals(s) && Sorted(s) && OldDone(s) && Current(s) && Fenced(s)
    requires Proxies(s) && InTurn(s) && Bits(s) && Drained(s) && Counted(s) && Live(s)
    ensures Arrivals(t) && Sorted(t) && OldDone(t) && Current(t) && Fenced(t)
    ensures Proxies(t) && InTurn(t) && Bits(t) && Drained(t) && Counted(t) && Live(t)
  {
  }

  lemma MarkKeeps(s: State, t: State, r: Rq)
    requires Inv(s) && Marks(s, t, r)
    ensures Inv(t)
  {
    hide Arrivals, Names, Distinct, Apart, Covered, OrigOk, Sorted, OldDone, Current, Fenced;
    hide Proxies, InTurn, Bits, Drained, Counted, Live, Marks;
    MarkPlaces(s, t, r);
    MarkRest(s, t, r);
  }

  // ---------- the driver takes a request ----------

  ghost predicate Takes(s: State, t: State, r: Rq) {
    Enabled(s, Dequeue(r)) && t == Step(s, Dequeue(r))
  }

  lemma TakePlaces(s: State, t: State, r: Rq)
    requires Takes(s, t, r)
    requires Names(s) && Distinct(s) && Apart(s) && Covered(s) && OrigOk(s)
    ensures Names(t) && Distinct(t) && Apart(t) && Covered(t) && OrigOk(t)
  {
    var i := RemoveSplits(s.queue, r);
    RemoveIndex(s.queue, i, t.queue);
  }

  lemma TakeOrder(s: State, t: State, r: Rq)
    requires Takes(s, t, r)
    requires Distinct(s) && Sorted(s) && Current(s) && Fenced(s) && Proxies(s)
    ensures Sorted(t) && Current(t) && Fenced(t) && Proxies(t)
  {
    var i := RemoveSplits(s.queue, r);
    RemoveIndex(s.queue, i, t.queue);
    RemoveKeepsBarriers(s, t, i);
  }

  lemma TakeRest(s: State, t: State, r: Rq)
    requires Takes(s, t, r)
    requires Arrivals(s) && Apart(s) && OldDone(s) && Proxies(s) && InTurn(s) && Bits(s) && Drained(s)
    ensures Arrivals(t) && OldDone(t) && InTurn(t) && Bits(t) && Drained(t) && Live(t)
  {
    assert r in t.driver;
  }

  lemma TakeCounts(s: State, t: State, r: Rq)
    requires Takes(s, t, r) && Apart(s) && Counted(s)
    ensures Counted(t)
  {
    assert Accounted(t.driver) == if IsFs(r) then Accounted(s.driver) + {r} else Accounted(s.driver);
    assert r !in s.driver;
  }

  lemma TakeKeeps(s: State, t: State, r: Rq)
    requires Inv(s) && Takes(s, t, r)
    ensures Inv(t)
  {
    hide Arrivals, Names, Distinct, Apart, Covered, OrigOk, Sorted, OldDone, Current, Fenced;
    hide Proxies, InTurn, Bits, Drained, Counted, Live, Takes;
    TakePlaces(s, t, r);
    TakeOrder(s, t, r);
    TakeRest(s, t, r);
    TakeCounts(s, t, r);
  }

  // ---------- the start of a sequence ----------

  ghost predicate Starts(s: State, t: State) {
    && !s.stages.started && s.queue != [] && IsBarrierOf(s.queue[0], s.passed)
    && t == StartOrdered(s)
  }

  lemma StartShape(s: State, t: State)
    requires Starts(s, t) && Distinct(s)
    ensures |t.queue| == |t.plan| + |s.queue| - 1 && 1 <= |t.plan| <= 3
    ensures forall i :: 0 <= i < |t.plan| ==> t.queue[i] == t.plan[i] && IsProxy(t.plan[i])
    ensures forall i :: |t.plan| <= i < |t.queue| ==> t.queue[i] == s.queue[i - |t.plan| + 1]
    ensures forall x :: x in t.queue <==> x in t.plan || (x in s.queue && x != t.orig)
    ensures PlanFits(t) && t.orig == s.queue[0] && t.passed == s.passed
    ensures forall i, j :: 0 <= i < j < |t.plan| ==>
              t.plan[i] != t.plan[j] && Key(t.passed, t.plan[i]) <= Key(t.passed, t.plan[j])
  {
    assert t.queue == t.plan + s.queue[1..];
    forall x | x in s.queue && x != t.orig ensures x in t.queue {
      var k :| 0 <= k < |s.queue| && s.queue[k] == x;
      assert t.queue[|t.plan| + k - 1] == x;
    }
  }

  lemma StartPlaces(s: State, t: State)
    requires Starts(s, t)
    requires Names(s) && Distinct(s) && Apart(s) && Covered(s) && Proxies(s)
    ensures Names(t) && Apart(t) && Covered(t) && OrigOk(t)
  {
    StartShape(s, t);
  }

  lemma StartDistinct(s: State, t: State)
    requires Starts(s, t) && Distinct(s) && Proxies(s)
    ensures Distinct(t)
  {
    StartShape(s, t);
    assert forall k :: 0 <= k < |s.queue| ==> s.queue[k] in s.queue;
  }

  /** Proxies of the open epoch stacked in front of what follows that epoch's barrier. */
  lemma StackSorts(passed: nat, plan: seq<Rq>, q: seq<Rq>, w: seq<Rq>)
    requires SortedQueue(passed, q) && q != [] && IsBarrierOf(q[0], passed)
    requires forall k :: 0 <= k < |q| ==> !IsProxy(q[k])
    requires forall k :: 0 <= k < |plan| ==> IsProxy(plan[k])
    requires forall i, j :: 0 <= i < j < |plan| ==> Key(passed, plan[i]) <= Key(passed, plan[j])
    requires w == plan + q[1..]
    ensures SortedQueue(passed, w)
  {
    var n := |plan|;
    forall i, j | 0 <= i < j < |w| && !w[i].Special? && !w[j].Special?
      ensures Key(passed, w[i]) <= Key(passed, w[j])
    {
      if n <= j {
        assert w[j] == q[j - n + 1];
        assert Key(passed, q[0]) <= Key(passed, q[j - n + 1]);
      }
      assert n <= i ==> w[i] == q[i - n + 1];
    }
  }

  lemma StartSorts(s: State, t: State)
    requires Starts(s, t) && Distinct(s) && Sorted(s) && Proxies(s)
    ensures Sorted(t)
  {
    StartShape(s, t);
    assert forall k :: 0 <= k < |s.queue| ==> s.queue[k] in s.queue;
    StackSorts(s.passed, t.plan, s.queue, t.queue);
  }

  /** What is queued behind the barrier that is due came after it. */
  lemma BehindTheHead(s: State, i: nat)
    requires Arrivals(s) && Names(s) && Distinct(s) && Sorted(s)
    requires 1 <= i < |s.queue| && s.queue[i].Fs? && IsBarrierOf(s.queue[0], s.passed)
    requires Apart(s) && OldDone(s)
    ensures s.queue[i].epoch > s.passed
  {
    assert s.queue[0] in s.queue && s.queue[i] in s.queue;
    assert Key(s.passed, s.queue[0]) <= Key(s.passed, s.queue[i]);
    NoOldBarrier(s, i);
    assert s.added[s.queue[0].id] == s.queue[0] && s.added[s.queue[i].id] == s.queue[i];
  }

  lemma StartOrder(s: State, t: State)
    requires Starts(s, t)
    requires Arrivals(s) && Names(s) && Distinct(s) && Apart(s) && Sorted(s)
    requires OldDone(s) && Current(s) && Fenced(s) && Proxies(s)
    ensures OldDone(t) && Current(t) && Fenced(t)
  {
    StartShape(s, t);
    forall i | 1 <= i < |s.queue| && s.queue[i].Fs? ensures s.queue[i].epoch > s.passed {
      BehindTheHead(s, i);
    }
    forall e: nat | s.passed + 1 <= e < s.barriers ensures QueuedBarrier(t.queue, e) {
      assert QueuedBarrier(s.queue, e);
      var k :| 0 <= k < |s.queue| && IsBarrierOf(s.queue[k], e);
      assert IsBarrierOf(t.queue[|t.plan| + k - 1], e);
    }
    assert s.queue[0] in s.queue && Known(s.added, s.queue[0]);
  }

  lemma StartBits(s: State, t: State)
    requires Starts(s, t)
    requires Distinct(s) && Proxies(s) && Bits(s)
    ensures Proxies(t) && Bits(t) && t.plan == (if WantsPreFlush(s.mode) then [PreFlush] else []) + [Bar]
              + (if WantsPostFlush(s.mode) && !t.orig.empty then [PostFlush] else [])
  {
    StartShape(s, t);
  }

  lemma StartCounts(s: State, t: State)
    requires Starts(s, t)
    requires Proxies(s) && InTurn(s) && Counted(s)
    ensures InTurn(t) && Counted(t) && Live(t)
  {
    if s.inFlight != 0 {
      assert Accounted({}) == {};
    }
  }

  lemma NoneInFlight(s: State)
    requires Counted(s) && s.inFlight == 0
    ensures forall r :: r in s.driver ==> !IsFs(r)
  {
    assert Accounted(s.driver) == {};
    forall r | r in s.driver ensures !IsFs(r) {
      var counted := r in Accounted(s.driver);
    }
  }

  /** With nothing in flight, a sequence that starts finds every earlier request completed. */
  lemma StartDrained(s: State, t: State)
    requires Starts(s, t)
    requires Arrivals(s) && Names(s) && Distinct(s) && Covered(s) && Sorted(s) && Fenced(s) && OldDone(s) && Counted(s)
    ensures Drained(t)
  {
    if s.inFlight == 0 {
      NoneInFlight(s);
      assert s.queue[0] in s.queue && Known(s.added, s.queue[0]);
      forall r | Known(s.added, r) && r.Fs? && r.epoch <= s.passed && r != t.orig ensures r in s.done {
        assert Placed(s, r);
      }
    }
  }

  lemma StartKeeps(s: State, t: State)
    requires Inv(s) && Starts(s, t)
    ensures Inv(t)
  {
    assert Arrivals(t);
    hide Arrivals, Names, Distinct, Apart, Covered, OrigOk, Sorted, OldDone, Current, Fenced;
    hide Proxies, InTurn, Bits, Drained, Counted, Live, Starts;
    StartPlaces(s, t);
    StartDistinct(s, t);
    StartSorts(s, t);
    StartOrder(s, t);
    StartBits(s, t);
    StartCounts(s, t);
    StartDrained(s, t);
  }

  // ---------- completion of an ordinary request ----------

  ghost predicate AllButLive(s: State) {
    && Arrivals(s) && Names(s) && Distinct(s) && Apart(s) && Covered(s) && OrigOk(s)
    && Sorted(s) && OldDone(s) && Current(s) && Fenced(s)
    && Proxies(s) && InTurn(s) && Bits(s) && Drained(s) && Counted(s)
  }

  ghost predicate Releases(s: State, u: State, r: Rq) {
    r in s.driver && !IsProxy(r)
    && u == s.(driver := s.driver - {r}, done := s.done + {r}, inFlight := if IsFs(r) then s.inFlight - 1 else s.inFlight)
  }

  lemma ReleasePlaces(s: State, u: State, r: Rq)
    requires Releases(s, u, r)
    requires Names(s) && Distinct(s) && Apart(s) && Covered(s) && OrigOk(s)
    ensures Names(u) && Distinct(u) && Apart(u) && Covered(u) && OrigOk(u)
  {
  }

  lemma ReleaseRest(s: State, u: State, r: Rq)
    requires Releases(s, u, r)
    requires Arrivals(s) && Sorted(s) && OldDone(s) && Current(s) && Fenced(s)
    requires Proxies(s) && InTurn(s) && Bits(s) && Drained(s) && Counted(s)
    ensures Arrivals(u) && Sorted(u) && OldDone(u) && Current(u) && Fenced(u)
    ensures Proxies(u) && InTurn(u) && Bits(u) && Drained(u) && Counted(u)
  {
    assert Accounted(u.driver) == Accounted(s.driver) - {r};
  }

  ghost predicate DrainOver(s: State) {
    s.stages.started && s.inFlight == 0 && CurSeq(s.stages) == SEQ_DRAIN
    && s.queue != [] && ReqSeq(s, s.queue[0]) > SEQ_DRAIN
  }

  /** When the head has left the drain behind and nothing is in flight, everything before the barrier is completed. */
  lemma DrainIsOver(s: State)
    requires DrainOver(s)
    requires Arrivals(s) && Names(s) && Apart(s) && Covered(s) && OrigOk(s) && Sorted(s) && OldDone(s) && Fenced(s)
    requires Counted(s) && Current(s)
    ensures forall r :: Known(s.added, r) && r.Fs? && r.epoch <= s.passed && r != s.orig ==> r in s.done
  {
    NoneInFlight(s);
    assert s.queue[0] in s.queue;
    forall r | Known(s.added, r) && r.Fs? && r.epoch <= s.passed && r != s.orig ensures r in s.done {
      assert Placed(s, r);
      assert s.added[s.orig.id] == s.orig && s.added[r.id] == r;
    }
  }

  lemma DrainFlagKeeps(s: State, t: State)
    requires AllButLive(s) && DrainOver(s) && t == CompleteSeq(s, SEQ_DRAIN)
    ensures Inv(t)
  {
    hide Arrivals, Names, Distinct, Apart, Covered, OrigOk, Sorted, OldDone, Current, Fenced;
    hide Proxies, InTurn, Bits, Drained, Counted, Live, DrainOver;
    DrainIsOver(s);
    DrainShape(s, t);
    DrainFlagFrame(s, t);
    DrainFlagPlaces(s, t);
    DrainFlagDrained(s, t);
  }

  lemma DrainShape(s: State, t: State)
    requires Bits(s) && Proxies(s) && DrainOver(s) && t == CompleteSeq(s, SEQ_DRAIN)
    ensures t == s.(stages := s.stages.(drain := true)) && s.stages.started && Bits(t) && Live(t)
  {
  }

  lemma DrainFlagPlaces(s: State, t: State)
    requires Arrivals(s) && Apart(s) && OrigOk(s) && Proxies(s) && InTurn(s)
    requires t == s.(stages := s.stages.(drain := true)) && s.stages.started
    ensures Arrivals(t) && Apart(t) && OrigOk(t) && Proxies(t) && InTurn(t)
  {
  }

  lemma DrainFlagDrained(s: State, t: State)
    requires t == s.(stages := s.stages.(drain := true))
    requires forall r :: Known(s.added, r) && r.Fs? && r.epoch <= s.passed && r != s.orig ==> r in s.done
    ensures Drained(t)
  {
  }

  lemma DrainFlagFrame(s: State, t: State)
    requires Names(s) && Distinct(s) && Covered(s) && Sorted(s) && OldDone(s) && Current(s) && Fenced(s) && Counted(s)
    requires t == s.(stages := s.stages.(drain := true))
    ensures Names(t) && Distinct(t) && Covered(t) && Sorted(t) && OldDone(t) && Current(t) && Fenced(t) && Counted(t)
  {
  }

  lemma StillDraining(s: State)
    requires Bits(s) && Proxies(s) && InTurn(s) && Counted(s) && !DrainOver(s)
    ensures Live(s)
  {
    assert Accounted({}) == {};
    var proxy := Bar in s.queue;
  }

  lemma FinishKeeps(s: State, t: State, r: Rq)
    requires Inv(s) && r in s.driver && !IsProxy(r) && t == Step(s, Finish(r))
    ensures Inv(t)
  {
    hide Arrivals, Names, Distinct, Apart, Covered, OrigOk, Sorted, OldDone, Current, Fenced;
    hide Proxies, InTurn, Bits, Drained, Counted, Live;
    var u := s.(driver := s.driver - {r}, done := s.done + {r}, inFlight := if IsFs(r) then s.inFlight - 1 else s.inFlight);
    InDriver(s, r);
    ReleasePlaces(s, u, r);
    ReleaseRest(s, u, r);
    if DrainOver(u) {
      DrainFlagKeeps(u, t);
    } else {
      StillDraining(u);
    }
  }

  // ---------- completion of a proxy ----------

  /** A proxy whose turn it is leaves the driver, or is taken off the queue as an empty barrier. */
  ghost predicate Retires(s: State, u: State, r: Rq) {
    && IsProxy(r) && s.stages.started && !Passed(s.stages, r) && Due(s.stages, r)
    && u == s.(queue := u.queue, driver := s.driver - {r}, inFlight := u.inFlight, hist := s.hist + [r])
    && u.inFlight == |Accounted(u.driver)|
    && (if r in s.driver then u.queue == s.queue else r in s.queue && u.queue == Remove(s.queue, r))
  }

  /** The stage bits after the stage of r. */
  function Advance(st: Stages, r: Rq): Stages
    requires IsProxy(r)
  {
    match r
    case PreFlush => st.(preflush := true)
    case Bar => st.(bar := true)
    case PostFlush => st.(postflush := true)
  }

  lemma RetireShape(s: State, u: State, r: Rq)
    requires Retires(s, u, r) && Distinct(s) && Apart(s)
    ensures Distinct(u)
    ensures forall x :: x in u.queue <==> x in s.queue && x != r
    ensures forall i :: 0 <= i < |u.queue| ==> u.queue[i] in s.queue
  {
    if r !in s.driver {
      var i := RemoveSplits(s.queue, r);
      RemoveIndex(s.queue, i, u.queue);
    }
  }

  lemma RetireOrder(s: State, u: State, r: Rq)
    requires Retires(s, u, r) && Distinct(s) && Sorted(s)
    ensures Sorted(u)
    ensures forall e :: QueuedBarrier(s.queue, e) ==> QueuedBarrier(u.queue, e)
  {
    if r !in s.driver {
      var i := RemoveSplits(s.queue, r);
      RemoveIndex(s.queue, i, u.queue);
      RemoveKeepsBarriers(s, u, i);
    }
  }

  /** The sequence goes on. */
  lemma RetireMore(s: State, u: State, t: State, r: Rq)
    requires Retires(s, u, r) && t == u.(stages := Advance(s.stages, r))
    requires Distinct(s) && Apart(s) && Proxies(s) && InTurn(s) && Bits(s) && Drained(s) && Counted(s)
    requires CurSeq(t.stages) != SEQ_DONE
    ensures Proxies(t) && InTurn(t) && Bits(t) && Drained(t) && Counted(t) && Live(t)
  {
    RetireShape(s, u, r);
  }

  lemma RetirePlaces(s: State, u: State, t: State, r: Rq)
    requires Retires(s, u, r)
    requires t == u.(stages := t.stages) && t.stages.started
    requires Names(s) && Distinct(s) && Apart(s) && Covered(s) && OrigOk(s) && OldDone(s) && Current(s) && Fenced(s) && Sorted(s)
    ensures Names(t) && Distinct(t) && Apart(t) && Covered(t) && OrigOk(t) && OldDone(t) && Current(t) && Fenced(t) && Sorted(t)
  {
    RetireShape(s, u, r);
    RetireOrder(s, u, r);
    assert forall i :: 0 <= i < |u.queue| ==> u.queue[i] in s.queue;
  }

  /** The last stage closes the sequence and completes the barrier. */
  ghost predicate Closes(u: State, t: State) {
    t == u.(stages := IDLE, done := u.done + {u.orig}, passed := u.passed + 1)
  }

  lemma CloseProxies(s: State, u: State, t: State, r: Rq)
    requires Retires(s, u, r) && Closes(u, t) && CurSeq(Advance(s.stages, r)) == SEQ_DONE
    requires Distinct(s) && Apart(s) && Proxies(s) && Bits(s) && Counted(s)
    ensures Proxies(t) && InTurn(t) && Bits(t) && Drained(t) && Counted(t) && Live(t)
    ensures u.hist == u.plan
  {
    RetireShape(s, u, r);
  }

  lemma ClosePlaces(s: State, u: State, t: State, r: Rq)
    requires Retires(s, u, r) && Closes(u, t)
    requires Names(s) && Distinct(s) && Apart(s) && Covered(s) && OrigOk(s)
    ensures Names(t) && Distinct(t) && Apart(t) && Covered(t) && OrigOk(t)
  {
    RetireShape(s, u, r);
  }

  /** When an epoch closes, the ranks of what belongs to later ones stay in order. */
  lemma NextEpochSorts(p: nat, q: seq<Rq>)
    requires SortedQueue(p, q) && forall i :: 0 <= i < |q| ==> !IsProxy(q[i]) && (q[i].Fs? ==> q[i].epoch > p)
    ensures SortedQueue(p + 1, q)
  {
    forall i, j | 0 <= i < j < |q| && !q[i].Special? && !q[j].Special? ensures Key(p + 1, q[i]) <= Key(p + 1, q[j]) {
      assert Key(p, q[i]) == Key(p + 1, q[i]) && Key(p, q[j]) == Key(p + 1, q[j]);
    }
  }

  /** At the end of a sequence all that is queued came after its barrier. */
  lemma AllLater(s: State, r: Rq, i: nat)
    requires Names(s) && Apart(s) && OrigOk(s) && Drained(s)
    requires s.stages.started && IsProxy(r) && Due(s.stages, r) && i < |s.queue| && s.queue[i].Fs?
    ensures s.queue[i].epoch > s.passed
  {
    assert s.queue[i] in s.queue;
  }

  lemma CloseOrder(s: State, u: State, t: State, r: Rq)
    requires Retires(s, u, r) && Closes(u, t) && CurSeq(Advance(s.stages, r)) == SEQ_DONE
    requires Arrivals(s) && Names(s) && Distinct(s) && Apart(s) && OrigOk(s) && Proxies(s) && Sorted(s) && OldDone(s)
    requires Current(s) && Fenced(s) && Drained(s)
    ensures Arrivals(t) && Sorted(t) && OldDone(t) && Current(t) && Fenced(t)
  {
    RetireShape(s, u, r);
    RetireOrder(s, u, r);
    LaterLeft(s, u, r);
    hide Names, Distinct, Apart, Proxies, Drained, Key;
    assert forall x :: IsProxy(x) ==> x !in u.queue by { NoProxyLeft(s, u, r); }
    assert forall i :: 0 <= i < |u.queue| ==> u.queue[i] in u.queue;
    NextEpochSorts(s.passed, u.queue);
    hide SortedQueue;
  }

  lemma LaterLeft(s: State, u: State, r: Rq)
    requires Retires(s, u, r) && Names(s) && Distinct(s) && Apart(s) && OrigOk(s) && Drained(s)
    ensures forall i :: 0 <= i < |u.queue| && u.queue[i].Fs? ==> u.queue[i].epoch > s.passed
  {
    RetireShape(s, u, r);
    forall i | 0 <= i < |u.queue| && u.queue[i].Fs? ensures u.queue[i].epoch > s.passed {
      var k :| 0 <= k < |s.queue| && s.queue[k] == u.queue[i];
      AllLater(s, r, k);
    }
  }

  lemma NoProxyLeft(s: State, u: State, r: Rq)
    requires Retires(s, u, r) && CurSeq(Advance(s.stages, r)) == SEQ_DONE && Distinct(s) && Apart(s) && Proxies(s)
    ensures forall x :: IsProxy(x) ==> x !in u.queue
  {
    RetireShape(s, u, r);
  }

  lemma RetireArrivals(s: State, u: State, t: State, r: Rq)
    requires Retires(s, u, r) && t == CompleteSeq(u, ReqSeq(u, r))
    requires Arrivals(s) && Fenced(s)
    ensures Arrivals(t)
  {
  }

  lemma RetireKeeps(s: State, u: State, t: State, r: Rq)
    requires Inv(s) && Retires(s, u, r) && t == CompleteSeq(u, ReqSeq(u, r))
    ensures Inv(t)
    ensures !t.stages.started ==> u.hist == u.plan
  {
    assert IsProxy(r) && u.stages == s.stages && s.stages.started;
    hide Arrivals, Names, Distinct, Apart, Covered, OrigOk, Sorted, OldDone, Current, Fenced;
    hide Proxies, InTurn, Bits, Drained, Counted, Live, Retires;
    RetireArrivals(s, u, t, r);
    assert SetStage(u.stages, ReqSeq(u, r)) == Advance(s.stages, r);
    if CurSeq(Advance(s.stages, r)) == SEQ_DONE {
      CloseProxies(s, u, t, r);
      ClosePlaces(s, u, t, r);
      CloseOrder(s, u, t, r);
    } else {
      RetireMore(s, u, t, r);
      RetirePlaces(s, u, t, r);
    }
  }

  // ---------- the driver gives a request back ----------

  ghost predicate Returns(s: State, t: State, r: Rq, p: nat) {
    && r in s.driver && p <= |s.queue| && !Strays(s, r)
    && t == s.(driver := s.driver - {r}, started := s.started - {r}, queue := Insert(s.queue, p, r),
               inFlight := if IsFs(r) then s.inFlight - 1 else s.inFlight)
    && (if s.stages.started then
          (forall j :: 0 <= j < p ==> ReqSeq(s, s.queue[j]) < ReqSeq(s, r))
          && (p < |s.queue| ==> ReqSeq(s, r) <= ReqSeq(s, s.queue[p]))
        else p == 0)
  }

  /** The scan of a requeued proxy passes special requests and earlier proxies only. */
  lemma ProxyScan(s: State, t: State, r: Rq, p: nat, j: nat)
    requires Returns(s, t, r, p) && IsProxy(r) && s.stages.started
    requires Arrivals(s) && Names(s) && Apart(s) && OrigOk(s) && Sorted(s) && OldDone(s) && Fenced(s) && Drained(s) && InTurn(s)
    requires j < |s.queue| && !s.queue[j].Special?
    ensures j < p ==> Key(s.passed, s.queue[j]) <= Key(s.passed, r)
    ensures p <= j ==> Key(s.passed, r) <= Key(s.passed, s.queue[j])
  {
    var fence := QueuedBarrier(s.queue, s.passed + 1);
    assert s.queue[j] in s.queue && s.added[s.orig.id] == s.orig;
    if p <= j {
      assert s.queue[p] in s.queue;
    }
  }

  lemma ReturnSorts(s: State, t: State, r: Rq, p: nat)
    requires Returns(s, t, r, p)
    requires Arrivals(s) && Names(s) && Apart(s) && OrigOk(s) && Sorted(s) && OldDone(s) && Current(s) && Fenced(s)
    requires Proxies(s) && InTurn(s) && Drained(s)
    ensures Sorted(t)
  {
    forall j | 0 <= j < |s.queue| && !s.queue[j].Special? && !r.Special?
      ensures j < p ==> Key(s.passed, s.queue[j]) <= Key(s.passed, r)
      ensures p <= j ==> Key(s.passed, r) <= Key(s.passed, s.queue[j])
    {
      if IsProxy(r) {
        ProxyScan(s, t, r, p, j);
      }
    }
    SortedInsert(s, t, p, r);
  }

  lemma ReturnPlaces(s: State, t: State, r: Rq, p: nat)
    requires Returns(s, t, r, p)
    requires Names(s) && Distinct(s) && Apart(s) && Covered(s) && OrigOk(s)
    ensures Names(t) && Distinct(t) && Apart(t) && Covered(t) && OrigOk(t)
  {
    InsertIndex(s.queue, p, r);
    assert forall i :: 0 <= i < |s.queue| ==> s.queue[i] != r;
  }

  lemma ReturnOrder(s: State, t: State, r: Rq, p: nat)
    requires Returns(s, t, r, p)
    requires Arrivals(s) && OldDone(s) && Current(s) && Fenced(s) && Proxies(s)
    ensures Arrivals(t) && OldDone(t) && Current(t) && Fenced(t) && Proxies(t)
  {
    InsertIndex(s.queue, p, r);
    InsertKeepsBarriers(s, t, p, r);
  }

  lemma ReturnTurns(s: State, t: State, r: Rq, p: nat)
    requires Returns(s, t, r, p)
    requires InTurn(s) && Bits(s) && Drained(s)
    ensures InTurn(t) && Bits(t) && Drained(t)
  {
  }

  lemma ReturnCounts(s: State, t: State, r: Rq, p: nat)
    requires Returns(s, t, r, p) && Counted(s)
    ensures Counted(t)
  {
    assert Accounted(t.driver) == Accounted(s.driver) - {r};
  }

  lemma ReturnLive(s: State, t: State, r: Rq, p: nat)
    requires Returns(s, t, r, p)
    requires Arrivals(s) && Names(s) && OrigOk(s) && Current(s) && InTurn(s)
    ensures Live(t)
  {
    assert s.stages.started ==> s.added[s.orig.id] == s.orig;
    assert p == 0 ==> t.queue[0] == r;
  }

  lemma ReturnKeeps(s: State, t: State, r: Rq, p: nat)
    requires Inv(s) && Returns(s, t, r, p)
    ensures Inv(t)
  {
    hide Arrivals, Names, Distinct, Apart, Covered, OrigOk, Sorted, OldDone, Current, Fenced;
    hide Proxies, InTurn, Bits, Drained, Counted, Live, Returns;
    ReturnPlaces(s, t, r, p);
    ReturnSorts(s, t, r, p);
    ReturnOrder(s, t, r, p);
    ReturnTurns(s, t, r, p);
    ReturnCounts(s, t, r, p);
    ReturnLive(s, t, r, p);
  }

  // ---------- one turn of elv_next_request ----------

  /** What may come out of a look at the queue: the outcome is handed out only when it is ripe. */
  lemma PeekKeeps(s: State)
    requires Inv(s) && s.queue != [] && Peek(s).1 != Again
    ensures Inv(Peek(s).0)
    ensures Peek(s).1.Hand? ==> Peek(s).1.rq in Peek(s).0.queue && Ripe(Peek(s).0, Peek(s).1.rq)
  {
    var (s1, out) := DoOrdered(s);
    if !s.stages.started {
      IdleHead(s);
      assert s.queue[0] in s.queue;
      if s.queue[0].Fs? && s.queue[0].barrier {
        StartKeeps(s, s1);
        StartShape(s, s1);
        assert s1.queue[0] == s1.plan[0];
      }
    } else if out.Hand? {
      BusyHead(s);
    }
    hide Arrivals, Names, Distinct, Apart, Covered, OrigOk, Sorted, OldDone, Current, Fenced;
    hide Proxies, InTurn, Bits, Drained, Counted, Live;
    if out.Hand? {
      MarkKeeps(s1, Peek(s).0, out.rq);
    }
  }

  /** An empty barrier is completed on the spot, without the driver. */
  lemma KillKeeps(s: State)
    requires Inv(s) && s.stages.started && Bar in s.queue && Due(s.stages, Bar) && s.orig.Fs? && s.orig.empty
    ensures Inv(EndIo(s.(queue := Remove(s.queue, Bar)), Bar))
  {
    var u := s.(queue := Remove(s.queue, Bar), hist := s.hist + [Bar]);
    assert Bar !in s.driver && Bar !in s.started;
    assert s.driver - {Bar} == s.driver;
    assert Retires(s, u, Bar);
    RetireKeeps(s, u, CompleteSeq(u, SEQ_BAR), Bar);
  }

  lemma ProxyRetires(s: State, u: State, r: Rq)
    requires r in s.driver && IsProxy(r) && Proxies(s) && InTurn(s) && Counted(s)
    requires u == s.(driver := s.driver - {r}, hist := s.hist + [r],
                     inFlight := if IsFs(r) then s.inFlight - 1 else s.inFlight)
    ensures Retires(s, u, r) && r in s.started
  {
    assert Accounted(u.driver) == Accounted(s.driver) - {r};
  }

  lemma ProxyFinishKeeps(s: State, t: State, r: Rq)
    requires Inv(s) && r in s.driver && IsProxy(r) && t == Step(s, Finish(r))
    ensures Inv(t)
  {
    hide Arrivals, Names, Distinct, Apart, Covered, OrigOk, Sorted, OldDone, Current, Fenced;
    hide Proxies, InTurn, Bits, Drained, Counted, Live;
    var u := s.(driver := s.driver - {r}, hist := s.hist + [r],
                inFlight := if IsFs(r) then s.inFlight - 1 else s.inFlight);
    ProxyRetires(s, u, r);
    RetireKeeps(s, u, t, r);
  }

  /** The barrier at the head is refused: the mode has been withdrawn. */
  predicate Refuses(s: State) {
    !s.stages.started && s.queue != [] && s.queue[0].Fs? && s.queue[0].barrier && s.mode == NoOrder
  }

  lemma RefusePlaces(s: State, t: State)
    requires Refuses(s) && s.queue[0].epoch == s.passed
    requires t == s.(queue := s.queue[1..], done := s.done + {s.queue[0]}, passed := s.passed + 1)
    requires Names(s) && Distinct(s) && Apart(s) && Covered(s)
    ensures Names(t) && Distinct(t) && Apart(t) && Covered(t) && OrigOk(t)
    ensures forall x :: x in t.queue <==> x in s.queue && x != s.queue[0]
  {
    var q := s.queue;
    assert q == [q[0]] + t.queue;
    assert forall i :: 0 <= i < |t.queue| ==> t.queue[i] == q[i + 1];
    assert q[0] in q;
  }

  lemma RefuseFence(s: State, t: State)
    requires Refuses(s) && IsBarrierOf(s.queue[0], s.passed) && t.barriers == s.barriers && t.stages == s.stages
    requires t.queue == s.queue[1..] && t.passed == s.passed + 1
    requires Arrivals(s) && Names(s) && Fenced(s)
    ensures Fenced(t) && t.passed <= s.barriers
  {
    var q := s.queue;
    forall e: nat | s.passed + 1 <= e < s.barriers ensures QueuedBarrier(t.queue, e) {
      assert QueuedBarrier(q, e);
      var k :| 0 <= k < |q| && IsBarrierOf(q[k], e);
      assert IsBarrierOf(t.queue[k - 1], e);
    }
    assert q[0] in q && s.added[q[0].id] == q[0];
  }

  lemma RefuseSorts(s: State, t: State)
    requires Refuses(s) && IsBarrierOf(s.queue[0], s.passed) && t.queue == s.queue[1..] && t.passed == s.passed + 1
    requires Arrivals(s) && Names(s) && Distinct(s) && Apart(s) && Sorted(s) && OldDone(s) && Proxies(s)
    ensures Sorted(t)
  {
    var q := s.queue;
    assert forall i :: 0 <= i < |t.queue| ==> t.queue[i] == q[i + 1] && t.queue[i] in q;
    forall i | 1 <= i < |q| && q[i].Fs? ensures q[i].epoch > s.passed {
      BehindTheHead(s, i);
    }
    assert SortedQueue(s.passed, t.queue);
    hide Arrivals, Names, Distinct, Apart, Key, Sorted, OldDone;
    assert forall x :: IsProxy(x) ==> x !in q by { hide SortedQueue; }
    hide SortedQueue, Proxies;
    NextEpochSorts(s.passed, t.queue);
    SortedIs(t);
  }

  lemma RefuseOrder(s: State, t: State)
    requires Refuses(s) && IsBarrierOf(s.queue[0], s.passed)
    requires t == s.(queue := s.queue[1..], done := s.done + {s.queue[0]}, passed := s.passed + 1)
    requires Arrivals(s) && Names(s) && Distinct(s) && Apart(s) && Sorted(s) && OldDone(s) && Current(s) && Fenced(s) && Proxies(s)
    ensures Arrivals(t) && Sorted(t) && OldDone(t) && Current(t) && Fenced(t)
  {
    RefuseFence(s, t);
    RefuseSorts(s, t);
    hide Sorted, Fenced, Proxies, Distinct, Apart;
    assert forall i :: 0 <= i < |t.queue| ==> t.queue[i] == s.queue[i + 1];
    OnlyBarrier(s);
  }

  /** The barrier that is due is the only one of its epoch. */
  lemma OnlyBarrier(s: State)
    requires Arrivals(s) && Names(s) && s.queue != [] && IsBarrierOf(s.queue[0], s.passed)
    ensures forall r :: Known(s.added, r) && IsBarrierOf(r, s.passed) ==> r == s.queue[0]
  {
    assert s.queue[0] in s.queue && s.added[s.queue[0].id] == s.queue[0];
  }

  lemma SortedIs(t: State)
    requires SortedQueue(t.passed, t.queue)
    ensures Sorted(t)
  {
  }

  lemma RefuseRest(s: State, t: State)
    requires Refuses(s) && t == s.(queue := s.queue[1..], done := s.done + {s.queue[0]}, passed := s.passed + 1)
    requires Proxies(s) && InTurn(s) && Bits(s) && Counted(s)
    requires forall x :: x in t.queue <==> x in s.queue && x != s.queue[0]
    ensures Proxies(t) && InTurn(t) && Bits(t) && Drained(t) && Counted(t) && Live(t)
  {
  }

  /** A refusal closes the epoch, whatever the driver still has of it. */
  lemma RefuseKeeps(s: State, t: State)
    requires Inv(s) && Refuses(s) && s.queue[0].epoch == s.passed
    requires t == s.(queue := s.queue[1..], done := s.done + {s.queue[0]}, passed := s.passed + 1)
    ensures Inv(t)
  {
    hide Arrivals, Names, Distinct, Apart, Covered, OrigOk, Sorted, OldDone, Current, Fenced;
    hide Proxies, InTurn, Bits, Drained, Counted, Live;
    RefusePlaces(s, t);
    RefuseOrder(s, t);
    RefuseRest(s, t);
  }

  lemma AgainKeeps(s: State)
    requires Inv(s) && s.queue != [] && Peek(s).1 == Again && !Peek(s).0.strayed
    ensures Inv(Peek(s).0)
  {
    var (s1, out) := DoOrdered(s);
    if Refuses(s) {
      IdleHead(s);
      RefuseKeeps(s, s1);
      return;
    }
    if !s.stages.started {
      IdleHead(s);
      assert s.queue[0] in s.queue;
      StartKeeps(s, s1);
      StartShape(s, s1);
      assert s1.queue[0] == s1.plan[0];
    } else {
      BusyHead(s);
    }
    assert Bar in s1.queue && s1.stages.started && Due(s1.stages, Bar);
    hide Arrivals, Names, Distinct, Apart, Covered, OrigOk, Sorted, OldDone, Current, Fenced;
    hide Proxies, InTurn, Bits, Drained, Counted, Live;
    KillKeeps(s1);
  }

  lemma RequeueReturns(s: State, t: State, r: Rq) returns (p: nat)
    requires r in s.driver && r in s.started && t == Requeue(s, r) && !t.strayed
    ensures Returns(s, t, r, p)
  {
    var s1 := s.(driver := s.driver - {r}, started := s.started - {r}, strayed := s.strayed || Strays(s, r),
                 inFlight := if IsFs(r) then s.inFlight - 1 else s.inFlight);
    p := if s1.stages.started then RequeuePos(s1, ReqSeq(s1, r), s1.queue) else 0;
    assert forall x :: ReqSeq(s1, x) == ReqSeq(s, x);
  }

  lemma AddKeeps(s: State, op: Op)
    requires Inv(s) && Enabled(s, op) && (op.AddSorted? || op.AddBack? || op.AddBarrier? || op.AddSpecial?)
    ensures Inv(Step(s, op))
  {
    hide Inv, Arrivals, Names, Distinct, Apart, Covered, OrigOk, Sorted, OldDone, Current, Fenced;
    hide Proxies, InTurn, Bits, Drained, Counted, Live;
    var t := Step(s, op);
    if op.AddSorted? {
      ToSchedulerKeeps(s, t, NewFs(s, false, false));
    } else {
      var r := if op.AddSpecial? then Special(|s.added|) else NewFs(s, op.AddBarrier?, op.AddBarrier? && op.empty);
      var p := if op.AddSpecial? && op.front then 0 else |s.queue|;
      assert t.queue == Insert(s.queue, p, r);
      ToQueueKeeps(s, t, r, p);
    }
  }

  lemma SetModeKeeps(s: State, t: State)
    requires Inv(s) && t == s.(mode := t.mode)
    ensures Inv(t)
  {
  }

  /** Every step keeps the invariant, unless a request strays. */
  lemma StepKeeps(s: State, op: Op)
    requires Inv(s) && Enabled(s, op) && !Step(s, op).strayed
    ensures Inv(Step(s, op))
  {
    var t := Step(s, op);
    assert op.Finish? || op.Retry? ==> op.rq in s.started;
    hide Arrivals, Names, Distinct, Apart, Covered, OrigOk, Sorted, OldDone, Current, Fenced;
    hide Proxies, InTurn, Bits, Drained, Counted, Live, EndIo, Requeue, Peek, NewFs, Remove, Inv;
    match op {
      case AddSorted => AddKeeps(s, op);
      case AddBack => AddKeeps(s, op);
      case AddBarrier(_) => AddKeeps(s, op);
      case AddSpecial(_) => AddKeeps(s, op);
      case Dispatch(r, p) => DispatchKeeps(s, t, r, p);
      case Next => if Peek(s).1 == Again { AgainKeeps(s); } else { PeekKeeps(s); }
      case Dequeue(r) => TakeKeeps(s, t, r);
      case Finish(r) => if IsProxy(r) { ProxyFinishKeeps(s, t, r); } else { FinishKeeps(s, t, r); }
      case Retry(r) =>
        var p := RequeueReturns(s, t, r);
        ReturnKeeps(s, t, r, p);
      case SetMode(_) => SetModeKeeps(s, t);
    }
  }

  lemma InitialInv()
    ensures Inv(INITIAL)
  {
    assert Accounted({}) == {};
  }

  lemma {:induction false} RunKeeps(s: State, ops: seq<Op>)
    requires s.strayed || Inv(s)
    requires Legal(s, ops)
    ensures Run(s, ops).strayed || Inv(Run(s, ops))
    ensures s.strayed ==> Run(s, ops).strayed
    decreases |ops|
  {
    if ops != [] {
      var t := Step(s, ops[0]);
      hide Inv, Step, Enabled;
      if !s.strayed && !t.strayed {
        StepKeeps(s, ops[0]);
      }
      StrayingStays(s, ops[0]);
      RunKeeps(t, ops[1..]);
    }
  }

  lemma StrayingStays(s: State, op: Op)
    requires Enabled(s, op)
    ensures s.strayed ==> Step(s, op).strayed
  {
    hide ReqSeq, RequeuePos, Insert, Remove, CurSeq, NewFs;
  }

  // ---------- what the protocol promises ----------

  /** A state at the end of a run in which no request strayed. */
  ghost predicate Reached(s: State, ops: seq<Op>) {
    Legal(INITIAL, ops) && s == Run(INITIAL, ops) && !s.strayed
  }

  lemma ReachedInv(s: State, ops: seq<Op>)
    requires Reached(s, ops)
    ensures Inv(s)
  {
    InitialInv();
    RunKeeps(INITIAL, ops);
  }

  /** What "in its turn" means for a proxy: every fs request that arrived before the barrier is completed,
    * and of the plan exactly the earlier stages have completed, once each and in order. */
  ghost predicate InItsTurn(t: State, r: Rq) {
    && t.stages.started && Known(t.added, t.orig) && t.orig.Fs? && t.orig.barrier && t.orig !in t.done
    && (forall x :: Known(t.added, x) && x.Fs? && x.id < t.orig.id ==> x in t.done)
    && r in t.plan && t.hist + [r] <= t.plan
  }

  lemma RipeInTurn(t: State, r: Rq)
    requires Arrivals(t) && OrigOk(t) && Bits(t) && Drained(t) && Proxies(t)
    requires IsProxy(r) && Ripe(t, r) && r in t.queue
    ensures InItsTurn(t, r)
  {
    assert t.added[t.orig.id] == t.orig;
  }

  lemma StageHandedInTurn(s: State, ops: seq<Op>, r: Rq)
    requires Reached(s, ops) && s.queue != [] && IsProxy(r) && Peek(s).1 == Hand(r)
    ensures InItsTurn(Peek(s).0, r)
  {
    ReachedInv(s, ops);
    hide Reached, Peek, Arrivals, OrigOk, Bits, Drained, Proxies, Ripe, InItsTurn;
    hide Names, Distinct, Apart, Covered, Sorted, OldDone, Current, Fenced, InTurn, Counted, Live;
    PeekKeeps(s);
    RipeInTurn(Peek(s).0, r);
  }

  lemma EarlierBarriersDone(t: State, r: Rq)
    requires Arrivals(t) && Names(t) && OldDone(t)
    requires r in t.queue && Ripe(t, r) && r.Fs?
    ensures Known(t.added, r) && !r.barrier
    ensures forall b :: Known(t.added, b) && b.Fs? && b.barrier && b.id < r.id ==> b in t.done
  {
    assert t.added[r.id] == r;
  }

  /** No fs request is handed out before every barrier that arrived earlier is completed. */
  lemma LaterRequestsWait(s: State, ops: seq<Op>, r: Rq)
    requires Reached(s, ops) && s.queue != [] && r.Fs? && Peek(s).1 == Hand(r)
    ensures Known(Peek(s).0.added, r) && !r.barrier
    ensures forall b :: Known(Peek(s).0.added, b) && b.Fs? && b.barrier && b.id < r.id ==> b in Peek(s).0.done
  {
    ReachedInv(s, ops);
    hide Reached, Peek, Arrivals, OrigOk, Bits, Drained, Proxies, Ripe;
    hide Names, Distinct, Apart, Covered, Sorted, OldDone, Current, Fenced, InTurn, Counted, Live;
    PeekKeeps(s);
    EarlierBarriersDone(Peek(s).0, r);
  }

  function Weight(b: bool): nat { if b then 1 else 0 }

  /** Conservation: an arrival is in exactly one place, so nothing is lost and nothing completes twice. */
  lemma EveryArrivalOnce(s: State, ops: seq<Op>, r: Rq)
    requires Reached(s, ops) && Known(s.added, r)
    ensures Weight(r in s.held) + Weight(r in s.queue) + Weight(r in s.driver) + Weight(r in s.done)
            + Weight(s.stages.started && r == s.orig) == 1
    ensures forall i, j :: 0 <= i < j < |s.queue| && s.queue[i] == r ==> s.queue[j] != r
  {
    ReachedInv(s, ops);
    hide Reached, Arrivals, Bits, Drained, Proxies, Sorted, OldDone, Current, Fenced, InTurn, Counted, Live;
    assert Placed(s, r);
  }

  /** BUG_ON(q->ordseq & seq): a proxy that the driver completes belongs to a running sequence whose
    * bit for it is still clear, and all earlier stages are recorded. */
  lemma NoStageTwice(s: State, ops: seq<Op>, r: Rq)
    requires Reached(s, ops) && r in s.driver && IsProxy(r)
    ensures s.stages.started && CurSeq(s.stages) == ReqSeq(s, r)
    ensures r !in s.hist && r !in s.queue
  {
    ReachedInv(s, ops);
    hide Reached, Arrivals, Names, Distinct, Covered, OrigOk, Sorted, OldDone, Current, Fenced, Counted, Live;
  }

  /** The drain cannot be missed: with nothing at the driver, a look at a non-empty queue always achieves something. */
  lemma NeverStuck(s: State, ops: seq<Op>)
    requires Reached(s, ops) && s.queue != [] && s.driver == {}
    ensures Peek(s).1 != Nothing
  {
    ReachedInv(s, ops);
    hide Reached;
    if s.stages.started {
      HeadIsReady(s);
    } else {
      assert Counted(s) && Accounted({}) == {};
    }
  }

  lemma HeadIsReady(s: State)
    requires s.stages.started && s.queue != [] && s.driver == {}
    requires Arrivals(s) && Names(s) && Apart(s) && OrigOk(s) && Sorted(s) && OldDone(s) && Fenced(s)
    requires Proxies(s) && Bits(s) && Drained(s) && Live(s)
    ensures ReqSeq(s, s.queue[0]) <= CurSeq(s.stages)
  {
    if s.stages.drain {
      var proxy := if !s.stages.preflush then PreFlush else if !s.stages.bar then Bar else PostFlush;
      assert proxy in s.queue;
      var k :| 0 <= k < |s.queue| && s.queue[k] == proxy;
      assert s.queue[0] in s.queue && s.added[s.orig.id] == s.orig;
    }
  }

  /** The sequence of b has just been closed, with its whole plan run. */
  predicate ClosedFor(t: State, b: Rq) {
    b == t.orig && !t.stages.started && t.hist == t.plan && b.Fs? && b.epoch < t.passed
  }

  /** Everything of the epochs that are closed is completed. */
  ghost predicate AllBefore(t: State) {
    forall x :: Known(t.added, x) && x.Fs? && x.epoch < t.passed ==> x in t.done
  }

  lemma RetireDone(s: State, u: State, t: State, r: Rq, b: Rq)
    requires Retires(s, u, r) && t == CompleteSeq(u, ReqSeq(u, r))
    requires Bits(s) && OrigOk(s) && Drained(s) && b !in s.done && b in t.done
    ensures ClosedFor(t, b) && AllBefore(t)
  {
  }

  lemma FinishDone(s: State, t: State, r: Rq, b: Rq)
    requires Inv(s) && r in s.driver && t == Step(s, Finish(r))
    requires b.Fs? && b.barrier && b !in s.done && b in t.done
    ensures ClosedFor(t, b) && AllBefore(t)
  {
    hide Inv, Proxies, InTurn, Counted, Bits, OrigOk, Drained, Retires, Step, AllBefore;
    InDriver(s, r);
    if IsProxy(r) {
      var u := s.(driver := s.driver - {r}, hist := s.hist + [r],
                  inFlight := if IsFs(r) then s.inFlight - 1 else s.inFlight);
      ProxyRetires(s, u, r);
      ProxyFinished(s, u, t, r);
      RetireDone(s, u, t, r, b);
    } else {
      OtherFinished(s, t, r);
    }
  }

  /** A proxy that comes back records its stage, and nothing else. */
  lemma ProxyFinished(s: State, u: State, t: State, r: Rq)
    requires Retires(s, u, r) && Bits(s) && r in s.driver && r in s.started && t == Step(s, Finish(r))
    requires u == s.(driver := s.driver - {r}, hist := s.hist + [r], inFlight := if IsFs(r) then s.inFlight - 1 else s.inFlight)
    ensures t == CompleteSeq(u, ReqSeq(u, r))
  {
  }

  lemma OtherFinished(s: State, t: State, r: Rq)
    requires !IsProxy(r) && r in s.driver && Bits(s) && t == Step(s, Finish(r))
    ensures t.done == s.done + {r} && t.passed == s.passed && t.added == s.added
  {
    hide ReqSeq, CurSeq, Bits;
    DrainIsNotLast(s);
  }

  lemma DrainIsNotLast(s: State)
    requires Bits(s)
    ensures s.stages.started && CurSeq(s.stages) == SEQ_DRAIN ==> CurSeq(s.stages.(drain := true)) != SEQ_DONE
  {
  }

  lemma InDriver(s: State, r: Rq)
    requires Inv(s) && r in s.driver
    ensures Proxies(s) && InTurn(s) && Bits(s) && Counted(s) && OrigOk(s) && Drained(s)
    ensures r in s.started && (r.Fs? ==> Passable(r))
  {
    hide Arrivals, Names, Distinct, Apart, Covered, OrigOk, Sorted, OldDone, Fenced, Proxies, InTurn, Bits, Drained, Live;
  }

  lemma KillDone(s: State, t: State, b: Rq)
    requires Inv(s) && s.stages.started && Bar in s.queue && Due(s.stages, Bar) && s.orig.Fs? && s.orig.empty
    requires t == EndIo(s.(queue := Remove(s.queue, Bar)), Bar) && b !in s.done && b in t.done
    ensures ClosedFor(t, b) && AllBefore(t)
  {
    var u := s.(queue := Remove(s.queue, Bar), hist := s.hist + [Bar]);
    assert Bar !in s.driver && Bar !in s.started;
    assert s.driver - {Bar} == s.driver;
    RetireDone(s, u, t, Bar, b);
  }

  lemma NextDone(s: State, b: Rq)
    requires Inv(s) && s.queue != [] && !Refuses(s)
    requires b !in s.done && b in Peek(s).0.done
    ensures ClosedFor(Peek(s).0, b) && AllBefore(Peek(s).0)
  {
    var (s1, out) := DoOrdered(s);
    if !s.stages.started {
      IdleHead(s);
      assert s.queue[0] in s.queue;
      StartKeeps(s, s1);
      StartShape(s, s1);
      assert s1.queue[0] == s1.plan[0];
    } else {
      BusyHead(s);
    }
    assert Bar in s1.queue && s1.stages.started && Due(s1.stages, Bar);
    hide Arrivals, Names, Distinct, Apart, Covered, OrigOk, Sorted, OldDone, Current, Fenced;
    hide Proxies, InTurn, Bits, Drained, Counted, Live;
    KillDone(s1, Peek(s).0, b);
  }

  /** A barrier is completed exactly at the end of its own sequence: the whole plan has run, and every fs request that
    * arrived earlier is completed. The only other end is a refusal, at the head of the queue and without a mode. */
  lemma BarrierCompletesLast(s: State, ops: seq<Op>, op: Op, b: Rq)
    requires Reached(s, ops) && Enabled(s, op)
    requires b.Fs? && b.barrier && b !in s.done && b in Step(s, op).done
    ensures (op.Next? && Refuses(s) && b == s.queue[0]) || ClosedFor(Step(s, op), b)
    ensures !(op.Next? && Refuses(s)) ==> forall x :: Known(Step(s, op).added, x) && x.Fs? && x.id < b.id ==> x in Step(s, op).done
  {
    ReachedInv(s, ops);
    var t := Step(s, op);
    hide Reached, Arrivals, Names, Distinct, Apart, Covered, OrigOk, Sorted, OldDone, Current, Fenced;
    hide Proxies, InTurn, Bits, Drained, Counted, Live, EndIo, Requeue, Peek, Remove, AllBefore;
    hide Inv;
    OthersKeepDone(s, op);
    if op.Finish? {
      FinishDone(s, t, op.rq, b);
    } else if op.Next? {
      if Refuses(s) {
        RefuseDone(s);
        return;
      }
      NextDone(s, b);
    }
    NotStraying(s, op);
    NotStrayed(s, ops);
    StepKeeps(s, op);
    DoneKnown(t, b);
    EarlierDone(t, b);
  }

  /** Only arrivals are completed. */
  lemma DoneKnown(t: State, b: Rq)
    requires Inv(t) && b.Fs? && b in t.done
    ensures Arrivals(t) && Known(t.added, b)
  {
  }

  lemma EndIoStrays(s: State, r: Rq)
    ensures EndIo(s, r).strayed == s.strayed
  {
    hide ReqSeq, CurSeq, SetStage;
  }

  lemma LookStrays(s: State)
    requires s.queue != []
    ensures DoOrdered(s).0.strayed == s.strayed
  {
    hide ReqSeq, CurSeq;
  }

  lemma NotStraying(s: State, op: Op)
    requires (op.Finish? || op.Next?) && Enabled(s, op)
    ensures Step(s, op).strayed == s.strayed
  {
    hide EndIo, DoOrdered, Remove;
    if op.Finish? {
      EndIoStrays(s.(driver := s.driver - {op.rq}), op.rq);
    } else {
      var s1 := DoOrdered(s).0;
      LookStrays(s);
      EndIoStrays(s1.(queue := Remove(s1.queue, Bar)), Bar);
    }
  }

  lemma RefuseDone(s: State)
    requires Refuses(s)
    ensures Peek(s).0.done == s.done + {s.queue[0]}
  {
  }

  lemma OthersKeepDone(s: State, op: Op)
    requires Enabled(s, op)
    ensures !op.Finish? && !op.Next? ==> Step(s, op).done == s.done
  {
  }

  lemma EarlierDone(t: State, b: Rq)
    requires Arrivals(t) && Known(t.added, b) && ClosedFor(t, b) && AllBefore(t)
    ensures forall x :: Known(t.added, x) && x.Fs? && x.id < b.id ==> x in t.done
  {
    assert t.added[b.id] == b;
  }

  lemma NotStrayed(s: State, ops: seq<Op>)
    requires Reached(s, ops)
    ensures !s.strayed
  {
  }

  // ---------- how a request comes to stray: the mode is withdrawn while a barrier is queued ----------

  /** s is where the run ops ends. */
  ghost predicate EndsAt(ops: seq<Op>, s: State) {
    Legal(INITIAL, ops) && Run(INITIAL, ops) == s
  }

  lemma {:induction false} OneMore(from: State, ops: seq<Op>, s: State, op: Op)
    requires Legal(from, ops) && Run(from, ops) == s && Enabled(s, op)
    ensures Legal(from, ops + [op]) && Run(from, ops + [op]) == Step(s, op)
    decreases |ops|
  {
    hide Enabled, Step;
    if ops == [] {
      assert ops + [op] == [op];
      assert Legal(Step(s, op), []);
      assert [op][1..] == [];
    } else {
      OneMore(Step(from, ops[0]), ops[1..], s, op);
      assert (ops + [op])[1..] == ops[1..] + [op];
    }
  }

  lemma Then(ops: seq<Op>, s: State, op: Op) returns (more: seq<Op>, t: State)
    requires EndsAt(ops, s) && Enabled(s, op)
    ensures EndsAt(more, t) && t == Step(s, op)
  {
    OneMore(INITIAL, ops, s, op);
    more, t := ops + [op], Step(s, op);
  }

  const R0 := Fs(0, false, false, false, 0)
  const B1 := Fs(1, true, false, false, 0)
  const R2 := Fs(2, false, false, true, 1)
  const B3 := Fs(3, true, false, true, 1)

  lemma FirstRequestTaken() returns (ops: seq<Op>, s: State)
    ensures EndsAt(ops, s)
    ensures s == INITIAL.(mode := DrainFlush, inFlight := 1, started := {R0}, driver := {R0}, added := [R0])
  {
    ops, s := [], INITIAL;
    hide EndsAt;
    assert EndsAt(ops, s) by { EmptyRun(); }
    ops, s := Then(ops, s, SetMode(DrainFlush));
    ops, s := Then(ops, s, AddBack);
    ops, s := Then(ops, s, Next);
    ops, s := Then(ops, s, Dequeue(R0));
  }

  lemma EmptyRun()
    ensures EndsAt([], INITIAL)
  {
  }

  lemma BarrierRefused() returns (ops: seq<Op>, s: State)
    ensures EndsAt(ops, s)
    ensures s == INITIAL.(mode := DrainFlush, inFlight := 1, started := {R0}, driver := {R0}, added := [R0, B1],
                          ordcolor := true, barriers := 1, done := {B1}, passed := 1)
  {
    hide EndsAt;
    ops, s := FirstRequestTaken();
    ops, s := Then(ops, s, AddBarrier(false));
    ops, s := Then(ops, s, SetMode(NoOrder));
    ops, s := Then(ops, s, Next);
    ops, s := Then(ops, s, SetMode(DrainFlush));
  }

  lemma SecondBarrierQueued() returns (ops: seq<Op>, s: State)
    ensures EndsAt(ops, s)
    ensures s == INITIAL.(mode := DrainFlush, inFlight := 2, started := {R0, R2}, driver := {R0, R2}, added := [R0, B1, R2, B3],
                          ordcolor := false, barriers := 2, done := {B1}, passed := 1, queue := [B3])
  {
    hide EndsAt;
    ops, s := BarrierRefused();
    ops, s := Then(ops, s, AddBack);
    ops, s := Then(ops, s, Next);
    ops, s := Then(ops, s, Dequeue(R2));
    ops, s := Then(ops, s, AddBarrier(false));
  }

  lemma WrongColour(s: State)
    requires s.queue == [PreFlush, Bar, PostFlush] && s.stages.started && s.orig == B3
    ensures Requeue(s, R0).queue == [PreFlush, Bar, PostFlush, R0]
  {
    var s1 := s.(driver := s.driver - {R0}, started := s.started - {R0},
                 inFlight := if IsFs(R0) && R0 in s.started then s.inFlight - 1 else s.inFlight);
    assert RequeuePos(s1, SEQ_DONE, [PostFlush]) == 1;
    assert RequeuePos(s1, SEQ_DONE, [Bar, PostFlush]) == 2;
  }

  const MISFILED := INITIAL.(mode := DrainFlush, inFlight := 1, started := {R2}, driver := {R2}, added := [R0, B1, R2, B3],
                             ordcolor := false, barriers := 2, done := {B1}, passed := 1, strayed := true,
                             orig := B3, stages := Stages(true, false, false, false, false),
                             plan := [PreFlush, Bar, PostFlush], queue := [PreFlush, Bar, PostFlush, R0])

  lemma Misfiled() returns (ops: seq<Op>)
    ensures EndsAt(ops, MISFILED)
  {
    hide EndsAt;
    var s: State;
    ops, s := SecondBarrierQueued();
    ops, s := Then(ops, s, Next);
    assert s.plan == [PreFlush, Bar, PostFlush];
    assert s.queue == [PreFlush, Bar, PostFlush];
    assert s.started == {R0, R2};
    WrongColour(s);
    hide RequeuePos, StartOrdered, DoOrdered, Peek;
    ops, s := Then(ops, s, Retry(R0));
    assert s.driver == {R2};
    assert s.started == {R2};
    assert s == MISFILED;
  }

  /** A request of the epoch before a refused barrier carries the wrong colour for the next one: when the
    * driver gives it back during that next sequence it is filed behind the barrier, and the pre-flush is
    * handed out although the request is not completed. */
  lemma WithdrawnModeBreaksOrder() returns (ops: seq<Op>, s: State, x: Rq)
    ensures Legal(INITIAL, ops) && s == Run(INITIAL, ops) && s.strayed
    ensures s.queue != [] && Peek(s).1 == Hand(PreFlush)
    ensures Known(s.added, x) && x.Fs? && s.orig.Fs? && x.id < s.orig.id && x !in s.done
  {
    hide Legal, Run;
    ops := Misfiled();
    ops, s := Then(ops, MISFILED, Finish(R2));
    x := R0;
  }
}
