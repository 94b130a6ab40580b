/** A request that strays in its colour always breaks the order: the condition under which the barrier protocol is safe is
  * exact. */
module OrderedStrays {
  import opened OrderedSpec
  import opened OrderedProofs

  // ---------- what is still to happen before the next stage ----------

  /** The proxy whose stage comes after the drain. */
  predicate NextProxy(st: Stages, p: Rq) {
    (p.PreFlush? && !st.preflush) || (p.Bar? && st.preflush && !st.bar)
  }

  /** The drain is awaited; a entries of it are queued in front of the next proxy; r is not among them nor with the driver. */
  ghost predicate Awaits(s: State, a: nat, r: Rq) {
    && s.stages.started && !s.stages.drain
    && a < |s.queue| && NextProxy(s.stages, s.queue[a])
    && (forall i :: 0 <= i < a ==> !IsProxy(s.queue[i]) && ReqSeq(s, s.queue[i]) == SEQ_DRAIN)
    && Owed(s, r)
  }

  ghost predicate Owed(s: State, r: Rq) {
    && r.Fs? && r !in s.driver && r !in s.done && r != s.orig && ReqSeq(s, r) == SEQ_DONE
    && s.inFlight == |Accounted(s.driver)| && s.driver <= s.started && (forall x :: x in s.driver ==> !IsProxy(x))
    && (s.orig.Fs? && s.orig.empty ==> s.stages.postflush)
  }

  /** A stage is handed out, or the barrier is completed on the spot, although r is not completed. */
  ghost predicate Breaks(t: State, r: Rq) {
    && t.queue != [] && r !in Peek(t).0.done
    && ((Peek(t).1.Hand? && IsProxy(Peek(t).1.rq)) || t.orig in Peek(t).0.done)
  }

  /** The drain is recorded although r is not completed, and the next proxy is at the head. */
  ghost predicate DrainedEarly(s: State, r: Rq) {
    && s.stages.started && s.stages.drain && s.queue != [] && NextProxy(s.stages, s.queue[0])
    && r !in s.done && r != s.orig && (s.orig.Fs? && s.orig.empty ==> s.stages.postflush)
  }

  lemma DrainedBreaks(s: State, r: Rq)
    requires DrainedEarly(s, r)
    ensures Breaks(s, r)
  {
    var (s1, out) := DoOrdered(s);
    assert s1 == s && out == Hand(s.queue[0]);
  }

  // ---------- single steps ----------

  /** A request that is no proxy is finished; with nothing left in flight and nothing of the drain queued, that ends the drain. */
  lemma FinishShape(s: State, x: Rq)
    requires s.stages.started && !s.stages.drain && NextProxy(s.stages, if s.stages.preflush then Bar else PreFlush)
    requires x in s.driver && x in s.started && !IsProxy(x) && s.queue != []
    ensures var u := s.(driver := s.driver - {x}, done := s.done + {x}, inFlight := if IsFs(x) then s.inFlight - 1 else s.inFlight);
            Step(s, Finish(x)) ==
              if u.inFlight == 0 && ReqSeq(s, s.queue[0]) > SEQ_DRAIN then u.(stages := u.stages.(drain := true)) else u
  {
    var u := s.(driver := s.driver - {x}, done := s.done + {x}, inFlight := if IsFs(x) then s.inFlight - 1 else s.inFlight);
    assert forall y :: ReqSeq(u, y) == ReqSeq(s, y);
    hide ReqSeq;
  }

  lemma FinishOne(s: State, a: nat, r: Rq, x: Rq)
    requires Awaits(s, a, r) && x in s.driver
    ensures var t := Step(s, Finish(x));
            && t.orig == s.orig && t.added == s.added && t.driver == s.driver - {x} && t.queue == s.queue
            && (Awaits(t, a, r) || DrainedEarly(t, r)) && (a == 0 && t.inFlight == 0 ==> DrainedEarly(t, r))
  {
    hide Step, ReqSeq;
    FinishShape(s, x);
    var t := Step(s, Finish(x));
    CountOneLess(s.driver, x);
    SameSeq(s, t);
    ProxySeq(s, s.queue[0]);
    hide Accounted;
  }

  lemma CountOneLess(driver: set<Rq>, x: Rq)
    requires x in driver
    ensures |Accounted(driver - {x})| == |Accounted(driver)| - if IsFs(x) then 1 else 0
  {
    assert Accounted(driver - {x}) == Accounted(driver) - {x};
  }

  lemma SameSeq(s: State, t: State)
    requires s.orig == t.orig
    ensures forall y :: ReqSeq(t, y) == ReqSeq(s, y)
  {
  }

  lemma ProxySeq(s: State, y: Rq)
    ensures IsProxy(y) ==> ReqSeq(s, y) > SEQ_DRAIN
  {
  }

  /** The head of what the drain waits for goes through the driver. */
  lemma ServeOne(s: State, a: nat, r: Rq)
    requires Awaits(s, a, r) && a > 0 && s.driver == {}
    ensures var h := s.queue[0];
            var u := s.(started := s.started + {h});
            var v := Step(u, Dequeue(h));
            && Enabled(s, Next) && Step(s, Next) == u && Enabled(u, Dequeue(h))
            && v.orig == s.orig && v.added == s.added && h in v.driver && v.driver == {h} && Awaits(v, a - 1, r)
  {
    var h := s.queue[0];
    var u := s.(started := s.started + {h});
    var v := Step(u, Dequeue(h));
    assert Remove(s.queue, h) == s.queue[1..];
    assert Accounted({h}) == if IsFs(h) then {h} else {};
    assert Accounted({}) == {};
    assert forall y :: ReqSeq(v, y) == ReqSeq(s, y);
    assert h != r;
  }

  lemma AddOne(s: State, r: Rq)
    requires Awaits(s, 0, r) && s.driver == {} && r.id < |s.added|
    ensures var t := Step(s, AddSpecial(true));
            t.orig == s.orig && t.driver == {} && t.added == s.added + [Special(|s.added|)] && Awaits(t, 1, r)
  {
    var t := Step(s, AddSpecial(true));
    assert forall y :: ReqSeq(t, y) == ReqSeq(s, y);
  }

  // ---------- runs ----------

  lemma Prepend(s: State, op: Op, more: seq<Op>)
    requires Enabled(s, op) && Legal(Step(s, op), more)
    ensures Legal(s, [op] + more) && Run(s, [op] + more) == Run(Step(s, op), more)
  {
    hide Enabled, Step;
    assert ([op] + more)[1..] == more;
  }

  ghost predicate Leads(s: State, ops: seq<Op>, t: State) {
    Legal(s, ops) && Run(s, ops) == t
  }

  lemma LeadsMore(s: State, op: Op, more: seq<Op>, t: State)
    requires Enabled(s, op) && Leads(Step(s, op), more, t)
    ensures Leads(s, [op] + more, t)
  {
    hide Enabled, Step;
    Prepend(s, op, more);
  }

  /** Whatever the driver and the queue still owe to the drain, there is a way to its end that leaves r out. */
  lemma {:induction false} DrainGoesOn(s: State, a: nat, r: Rq) returns (ops: seq<Op>, t: State)
    requires Awaits(s, a, r)
    ensures Leads(s, ops, t) && t.orig == s.orig && s.added <= t.added
    ensures DrainedEarly(t, r) || (Awaits(t, 0, r) && t.driver == {})
    decreases a, |s.driver|
  {
    hide Awaits, DrainedEarly, Leads, Step;
    if s.driver != {} {
      var x :| x in s.driver;
      FinishOne(s, a, r, x);
      var u := Step(s, Finish(x));
      if DrainedEarly(u, r) {
        ops, t := [], u;
        Nothing(u);
      } else {
        ops, t := DrainGoesOn(u, a, r);
      }
      CanFinish(s, x);
      LeadsMore(s, Finish(x), ops, t);
      ops := [Finish(x)] + ops;
    } else if a > 0 {
      ServeOne(s, a, r);
      var h := Head(s, a, r);
      var u := s.(started := s.started + {h});
      ops, t := DrainGoesOn(Step(u, Dequeue(h)), a - 1, r);
      LeadsMore(u, Dequeue(h), ops, t);
      LeadsMore(s, Next, [Dequeue(h)] + ops, t);
      ops := [Next] + ([Dequeue(h)] + ops);
    } else {
      ops, t := [], s;
      Nothing(s);
    }
  }

  lemma Head(s: State, a: nat, r: Rq) returns (h: Rq)
    requires Awaits(s, a, r) && a > 0
    ensures s.queue != [] && h == s.queue[0]
  {
    h := s.queue[0];
  }

  lemma CanFinish(s: State, x: Rq)
    requires x in s.driver
    ensures Enabled(s, Finish(x))
  {
  }

  lemma Nothing(s: State)
    ensures Leads(s, [], s)
  {
  }

  /** The drain always ends without r: at the latest when one more special request has passed through. */
  lemma DrainEnds(s: State, a: nat, r: Rq) returns (ops: seq<Op>, t: State)
    requires Awaits(s, a, r) && r.id < |s.added|
    ensures Leads(s, ops, t) && t.orig == s.orig && s.added <= t.added && DrainedEarly(t, r)
  {
    hide Awaits, DrainedEarly, Leads, Step, Enabled;
    ops, t := DrainGoesOn(s, a, r);
    if !DrainedEarly(t, r) {
      var more;
      var u := t;
      more, t := OneMoreSpecial(u, r);
      LeadsOn(s, ops, u, more, t);
      ops := ops + more;
    }
  }

  lemma OneMoreSpecial(s: State, r: Rq) returns (ops: seq<Op>, t: State)
    requires Awaits(s, 0, r) && s.driver == {} && r.id < |s.added|
    ensures Leads(s, ops, t) && t.orig == s.orig && s.added <= t.added && DrainedEarly(t, r)
  {
    AddOne(s, r);
    var s1 := Step(s, AddSpecial(true));
    ServeOne(s1, 1, r);
    var h := Head(s1, 1, r);
    var s2 := Step(s1, Next);
    var s3 := Step(s2, Dequeue(h));
    FinishOne(s3, 0, r, h);
    CanFinish(s3, h);
    t := Step(s3, Finish(h));
    NoneCounted(s3, 0, r, h, t);
    hide Awaits, DrainedEarly, Leads, Step;
    Nothing(t);
    LeadsMore(s3, Finish(h), [], t);
    LeadsMore(s2, Dequeue(h), [Finish(h)] + [], t);
    LeadsMore(s1, Next, [Dequeue(h)] + ([Finish(h)] + []), t);
    CanAdd(s);
    LeadsMore(s, AddSpecial(true), [Next] + ([Dequeue(h)] + ([Finish(h)] + [])), t);
    ops := [AddSpecial(true)] + ([Next] + ([Dequeue(h)] + ([Finish(h)] + [])));
  }

  lemma CanAdd(s: State)
    ensures Enabled(s, AddSpecial(true))
  {
  }

  lemma NoneCounted(s: State, a: nat, r: Rq, x: Rq, t: State)
    requires Awaits(s, a, r) && s.driver == {x} && t == Step(s, Finish(x))
    ensures t.inFlight == 0
  {
    FinishShape(s, x);
    hide Step;
    assert Accounted({x}) == if IsFs(x) then {x} else {};
  }

  lemma {:induction false} LeadsOn(s: State, ops: seq<Op>, t: State, more: seq<Op>, u: State)
    requires Leads(s, ops, t) && Leads(t, more, u)
    ensures Leads(s, ops + more, u)
    decreases |ops|
  {
    hide Enabled, Step;
    if ops == [] {
      assert ops + more == more;
    } else {
      LeadsOn(Step(s, ops[0]), ops[1..], t, more, u);
      assert (ops + more)[1..] == ops[1..] + more;
    }
  }

  // ---------- the stray ----------

  /** While a request that would stray is with the driver, the drain is not recorded, and its proxies are all queued. */
  lemma StrayDrains(s: State, r: Rq)
    requires Inv(s) && r in s.driver && Strays(s, r)
    ensures !s.stages.drain && s.stages.started && s.orig.Fs? && Known(s.added, r) && Passable(r) && r.epoch < s.passed
    ensures NextProxy(s.stages, if s.stages.preflush then Bar else PreFlush)
    ensures (if s.stages.preflush then Bar else PreFlush) in s.queue
    ensures r !in s.done && r != s.orig && r.id < s.orig.id && r in s.started && Counted(s)
    ensures forall x :: x in s.driver ==> !IsProxy(x)
    ensures s.orig.empty ==> s.stages.postflush
  {
    assert Known(s.added, s.orig) && Known(s.added, r);
    assert s.added[r.id] == r && s.added[s.orig.id] == s.orig;
    hide Distinct, Covered, Sorted, OldDone, Fenced, Live;
  }

  /** The first proxy in the queue is the next one, and what stands before it belongs to the drain. */
  lemma {:induction false} FirstProxy(s: State, k: nat, p: Rq) returns (a: nat)
    requires k < |s.queue| && s.queue[k] == p && IsProxy(p)
    ensures a <= k && IsProxy(s.queue[a]) && forall i :: 0 <= i < a ==> !IsProxy(s.queue[i])
  {
    a := 0;
    while !IsProxy(s.queue[a])
      invariant a <= k && forall i :: 0 <= i < a ==> !IsProxy(s.queue[i])
      decreases k - a
    {
      a := a + 1;
    }
  }

  lemma FirstIsNext(s: State, a: nat, k: nat, p: Rq)
    requires Inv(s) && s.stages.started && !s.stages.drain && s.orig.Fs?
    requires a <= k < |s.queue| && s.queue[k] == p && IsProxy(s.queue[a]) && NextProxy(s.stages, p)
    requires forall i :: 0 <= i < a ==> !IsProxy(s.queue[i])
    requires p == if s.stages.preflush then Bar else PreFlush
    ensures s.queue[a] == p
    ensures forall i :: 0 <= i < a ==> ReqSeq(s, s.queue[i]) == SEQ_DRAIN
  {
    assert Key(s.passed, s.queue[a]) <= Key(s.passed, p);
    assert s.queue[a] in s.queue;
    forall i | 0 <= i < a ensures ReqSeq(s, s.queue[i]) == SEQ_DRAIN {
      assert s.queue[i] in s.queue;
      assert s.queue[i].Fs? ==> Key(s.passed, s.queue[i]) <= Key(s.passed, s.queue[a]);
    }
    hide Arrivals, Distinct, Apart, Covered, OldDone, Fenced, InTurn, Drained, Counted, Live;
  }

  lemma StrayAwaits(s: State, r: Rq) returns (a: nat)
    requires Inv(s) && r in s.driver && Strays(s, r)
    ensures Awaits(Step(s, Retry(r)), a, r)
  {
    StrayDrains(s, r);
    var p := if s.stages.preflush then Bar else PreFlush;
    var k :| 0 <= k < |s.queue| && s.queue[k] == p;
    a := FirstProxy(s, k, p);
    FirstIsNext(s, a, k, p);
    hide Inv;
    StrayFiled(s, r, a, p);
  }

  lemma StrayFiled(s: State, r: Rq, a: nat, p: Rq)
    requires a < |s.queue| && s.queue[a] == p && NextProxy(s.stages, p)
    requires forall i :: 0 <= i < a ==> !IsProxy(s.queue[i]) && ReqSeq(s, s.queue[i]) == SEQ_DRAIN
    requires r in s.driver && r in s.started && Strays(s, r) && !s.stages.drain && r !in s.done && r != s.orig && Counted(s)
    requires (forall x :: x in s.driver ==> !IsProxy(x)) && (s.orig.Fs? && s.orig.empty ==> s.stages.postflush)
    ensures Awaits(Step(s, Retry(r)), a, r)
  {
    hide RequeuePos, Insert, ReqSeq, Accounted, Counted;
    var i := Refiled(s, r);
    var t := Step(s, Retry(r));
    SameSeq(s, t);
    assert i > a by { Passes(s, a, i, p); }
    InsertIndex(s.queue, i, r);
    CountOneLess(s.driver, r);
    CountedIs(s);
  }

  lemma CountedIs(s: State)
    requires Counted(s)
    ensures s.inFlight == |Accounted(s.driver)| && s.driver <= s.started
  {
  }

  /** A stray is filed behind everything of an earlier stage. */
  lemma Refiled(s: State, r: Rq) returns (i: nat)
    requires r in s.driver && r in s.started && Strays(s, r)
    ensures i <= |s.queue| && (i < |s.queue| ==> SEQ_DONE <= ReqSeq(s, s.queue[i]))
    ensures Step(s, Retry(r)) == s.(driver := s.driver - {r}, started := s.started - {r}, strayed := true,
                                   inFlight := s.inFlight - 1, queue := Insert(s.queue, i, r))
  {
    hide Insert;
    var s1 := s.(driver := s.driver - {r}, started := s.started - {r}, strayed := true, inFlight := s.inFlight - 1);
    SameSeq(s, s1);
    hide ReqSeq;
    i := RequeuePos(s1, SEQ_DONE, s.queue);
  }

  lemma Passes(s: State, a: nat, i: nat, p: Rq)
    requires a < |s.queue| && s.queue[a] == p && IsProxy(p) && i <= |s.queue|
    requires forall j :: 0 <= j < a ==> ReqSeq(s, s.queue[j]) == SEQ_DRAIN
    requires i < |s.queue| ==> SEQ_DONE <= ReqSeq(s, s.queue[i])
    ensures i > a
  {
  }

  /** The condition is exact: whenever a request strays, some legal continuation of the run hands out a stage of the sequence,
    * or completes its barrier, although the request came before the barrier and is not completed. */
  lemma StrayAlwaysBreaks(s: State, ops: seq<Op>, r: Rq) returns (more: seq<Op>, t: State)
    requires Reached(s, ops) && r in s.driver && Strays(s, r)
    ensures Legal(s, [Retry(r)] + more) && t == Run(s, [Retry(r)] + more) && t.orig == s.orig && Breaks(t, r)
    ensures Known(t.added, r) && r.Fs? && t.orig.Fs? && r.id < t.orig.id
  {
    ReachedInv(s, ops);
    StrayDrains(s, r);
    var a := StrayAwaits(s, r);
    hide Inv, Reached, Awaits, DrainedEarly, Breaks;
    RetryKeepsArrivals(s, r);
    more, t := DrainEnds(Step(s, Retry(r)), a, r);
    DrainedBreaks(t, r);
    LeadsMore(s, Retry(r), more, t);
  }

  lemma RetryKeepsArrivals(s: State, r: Rq)
    requires r in s.driver
    ensures Enabled(s, Retry(r)) && Step(s, Retry(r)).added == s.added && Step(s, Retry(r)).orig == s.orig
  {
    hide RequeuePos, Insert, ReqSeq;
  }

  // ---------- refusals that cannot lead to a stray ----------

  /** A barrier is refused only when nothing is in flight. */
  predicate Quiet(s: State, op: Op) {
    op.Next? && Refuses(s) ==> s.inFlight == 0
  }

  /** A refusal with nothing in flight leaves nothing of the epoch behind. */
  lemma RefusedQuietly(s: State)
    requires Inv(s) && Refuses(s) && s.inFlight == 0 && AllBefore(s)
    ensures AllBefore(Peek(s).0)
  {
    IdleHead(s);
    NoneInFlight(s);
    var t := Peek(s).0;
    assert s.queue[0] in s.queue;
    forall x | Known(t.added, x) && x.Fs? && x.epoch < t.passed ensures x in t.done {
      if x.epoch == s.passed && x != s.queue[0] {
        assert Placed(s, x);
        if x in s.queue {
          var k :| 0 <= k < |s.queue| && s.queue[k] == x;
          BehindTheHead(s, k);
        }
      }
    }
    hide OrigOk, Current, InTurn, Bits, Drained, Live;
  }

  /** Where an epoch may close. */
  lemma EpochStays(s: State, op: Op)
    requires Enabled(s, op) && !op.Finish? && !op.Next?
    ensures Step(s, op).passed == s.passed && Step(s, op).done == s.done && s.added <= Step(s, op).added
    ensures forall k :: |s.added| <= k < |Step(s, op).added| && Step(s, op).added[k].Fs? ==> Step(s, op).added[k].epoch == s.barriers
  {
    hide ReqSeq, RequeuePos, Insert, Remove;
  }

  lemma CloseSeq(s: State, seqno: nat)
    ensures var t := CompleteSeq(s, seqno);
            && t.added == s.added && t.orig == s.orig && t.strayed == s.strayed
            && ((t.passed == s.passed && t.done == s.done) || (t.passed == s.passed + 1 && t.done == s.done + {s.orig}))
            && (t.passed != s.passed ==> s.stages.started)
  {
  }

  lemma FinishQuietly(s: State, r: Rq)
    requires Inv(s) && r in s.driver && AllBefore(s)
    ensures AllBefore(Step(s, Finish(r)))
  {
    hide Inv, Step, Proxies, InTurn, Bits, Counted, OrigOk, Drained, Retires;
    var t := Step(s, Finish(r));
    InDriver(s, r);
    if IsProxy(r) {
      var u := s.(driver := s.driver - {r}, hist := s.hist + [r],
                  inFlight := if IsFs(r) then s.inFlight - 1 else s.inFlight);
      ProxyRetires(s, u, r);
      ProxyFinished(s, u, t, r);
      CloseSeq(u, ReqSeq(u, r));
      if t.passed != s.passed {
        OrigOpen(s, u, r);
        RetireDone(s, u, t, r, s.orig);
      }
    } else {
      OtherFinished(s, t, r);
    }
    hide CompleteSeq;
  }

  lemma OrigOpen(s: State, u: State, r: Rq)
    requires Retires(s, u, r) && OrigOk(s)
    ensures s.orig !in s.done
  {
  }

  lemma NextQuietly(s: State)
    requires Inv(s) && s.queue != [] && AllBefore(s) && (Refuses(s) ==> s.inFlight == 0)
    ensures AllBefore(Peek(s).0)
  {
    if Refuses(s) {
      RefusedQuietly(s);
    } else {
      var t := Peek(s).0;
      PeekCloses(s);
      if t.passed != s.passed {
        OrigWasOpen(s);
        hide Inv, Peek, AllBefore;
        NextDone(s, t.orig);
      }
      hide Inv, Peek;
    }
  }

  lemma KillCloses(s: State)
    requires CurSeq(s.stages) != SEQ_DRAIN
    ensures var t := EndIo(s.(queue := Remove(s.queue, Bar)), Bar);
            && t.added == s.added && t.orig == s.orig && (t.passed != s.passed ==> s.stages.started)
            && ((t.passed == s.passed && t.done == s.done) || (t.passed == s.passed + 1 && t.done == s.done + {s.orig}))
  {
    hide CompleteSeq, ReqSeq, Remove, CurSeq;
    var u := s.(queue := Remove(s.queue, Bar));
    var v := Completed(u, Bar);
    assert v == u.(inFlight := v.inFlight);
    CloseSeq(v.(hist := v.hist + [Bar]), ReqSeq(v, Bar));
  }

  lemma PeekCloses(s: State)
    requires s.queue != [] && !Refuses(s)
    ensures var t := Peek(s).0;
            && t.added == s.added
            && ((t.passed == s.passed && t.done == s.done) || (t.passed == s.passed + 1 && t.done == s.done + {t.orig}))
            && t.orig == (if !s.stages.started && s.queue[0].Fs? && s.queue[0].barrier then s.queue[0] else s.orig)
            && (t.passed != s.passed ==> s.stages.started || t.orig == s.queue[0])
  {
    hide DoOrdered, EndIo, Remove, CurSeq, Refuses;
    var (s1, out) := DoOrdered(s);
    LooksAt(s);
    if out.Hand? && out.rq.Bar? && s1.orig.Fs? && s1.orig.empty {
      KillCloses(s1);
    }
  }

  /** What blk_do_ordered leaves as it was; the barrier's proxy is handed out only behind the drain, if a sequence runs. */
  lemma LooksAt(s: State)
    requires s.queue != [] && !Refuses(s)
    ensures var (s1, out) := DoOrdered(s);
            && s1.added == s.added && s1.passed == s.passed && s1.done == s.done
            && s1.orig == (if !s.stages.started && s.queue[0].Fs? && s.queue[0].barrier then s.queue[0] else s.orig)
            && (out.Hand? && out.rq.Bar? ==> CurSeq(s1.stages) != SEQ_DRAIN)
            && (s1.stages.started ==> s.stages.started || s1.orig == s.queue[0])
            && !out.Again?
  {
  }

  lemma OrigWasOpen(s: State)
    requires Inv(s) && s.queue != [] && !Refuses(s) && Peek(s).0.passed != s.passed
    ensures Peek(s).0.orig !in s.done && Peek(s).0.orig in Peek(s).0.done
  {
    PeekCloses(s);
    assert s.queue[0] in s.queue;
    hide Arrivals, Names, Distinct, Covered, Sorted, OldDone, Current, Fenced, InTurn, Bits, Drained, Counted, Live, Peek;
  }

  /** As long as barriers are refused only with nothing in flight, no request is left behind by its epoch, and none strays. */
  lemma QuietStep(s: State, op: Op)
    requires Inv(s) && !s.strayed && AllBefore(s) && Enabled(s, op) && Quiet(s, op)
    ensures !Step(s, op).strayed && AllBefore(Step(s, op)) && Inv(Step(s, op))
  {
    hide Inv, Step, AllBefore;
    NoStray(s, op);
    StepKeeps(s, op);
    if op.Finish? {
      FinishQuietly(s, op.rq);
    } else if op.Next? {
      NextQuietly(s);
      NextIsPeek(s);
    } else {
      EpochStays(s, op);
      StillAll(s, Step(s, op));
    }
  }

  lemma NextIsPeek(s: State)
    requires s.queue != []
    ensures Step(s, Next) == Peek(s).0
  {
  }

  lemma StillAll(s: State, t: State)
    requires Inv(s) && AllBefore(s) && t.passed == s.passed && t.done == s.done && s.added <= t.added
    requires forall k :: |s.added| <= k < |t.added| && t.added[k].Fs? ==> t.added[k].epoch == s.barriers
    ensures AllBefore(t)
  {
    hide Names, Distinct, Apart, Covered, OrigOk, Sorted, OldDone, Current, Fenced;
    hide Proxies, InTurn, Bits, Drained, Counted, Live;
  }

  lemma NoStray(s: State, op: Op)
    requires Inv(s) && !s.strayed && AllBefore(s) && Enabled(s, op)
    ensures !Step(s, op).strayed
  {
    if op.Retry? {
      if Strays(s, op.rq) {
        StrayDrains(s, op.rq);
      }
      hide Inv;
    } else if op.Finish? || op.Next? {
      NotStraying(s, op);
    }
    hide Inv, ReqSeq, RequeuePos, Insert, Remove;
  }

  ghost predicate AllQuiet(s: State, ops: seq<Op>)
    requires Legal(s, ops)
    decreases |ops|
  {
    ops == [] || (Quiet(s, ops[0]) && AllQuiet(Step(s, ops[0]), ops[1..]))
  }

  lemma {:induction false} QuietRun(s: State, ops: seq<Op>)
    requires Inv(s) && !s.strayed && AllBefore(s) && Legal(s, ops) && AllQuiet(s, ops)
    ensures !Run(s, ops).strayed
    decreases |ops|
  {
    hide Inv, Step, Enabled, Quiet, AllBefore;
    if ops != [] {
      QuietStep(s, ops[0]);
      QuietRun(Step(s, ops[0]), ops[1..]);
    }
  }

  /** Runs in which barriers are refused only with nothing in flight are among those that keep the order. */
  lemma QuietRunsAreSafe(ops: seq<Op>)
    requires Legal(INITIAL, ops) && AllQuiet(INITIAL, ops)
    ensures Reached(Run(INITIAL, ops), ops)
  {
    InitialInv();
    NothingBefore();
    hide Inv, AllBefore;
    QuietRun(INITIAL, ops);
  }

  lemma NothingBefore()
    ensures AllBefore(INITIAL) && !INITIAL.strayed
  {
  }
}
