/** The request queue as the source keeps it: fields that are updated in place, specified by OrderedSpec. */
module RequestQueues {
  import opened OrderedSpec

  lemma StartOrderedShape(s: State)
    requires s.queue != [] && s.queue[0].Fs?
    ensures
      var t := StartOrdered(s);
      var pre, post := WantsPreFlush(s.mode), WantsPostFlush(s.mode) && !s.queue[0].empty;
      && t.plan == (if pre then [PreFlush] else []) + ([Bar] + (if post then [PostFlush] else []))
      && t == s.(orig := s.queue[0], stages := Stages(true, s.inFlight == 0, !pre, false, !post),
                 queue := t.plan + s.queue[1..], started := s.started - {PreFlush, Bar, PostFlush},
                 plan := t.plan, hist := [])
  {
  }

  class RequestQueue {
    var ordcolor: bool
    var ordseq: Stages
    var nextOrdered: Mode
    var origBarRq: Rq
    var inFlight: int
    var queueHead: seq<Rq>
    var started: set<Rq>
    var held: set<Rq>
    ghost var past: State    // history: what the driver and the submitters have seen
    var arrivals: nat        // numbers the requests
    var epoch: nat           // numbers the barriers; written into new requests and read by nothing else

    ghost function View(): State
      reads this
    {
      past.(ordcolor := ordcolor, stages := ordseq, mode := nextOrdered, orig := origBarRq, inFlight := inFlight,
            queue := queueHead, started := started, held := held)
    }

    ghost predicate Valid()
      reads this
    {
      arrivals == |past.added| && epoch == past.barriers
    }

    constructor ()
      ensures Valid() && View() == INITIAL
    {
      ordcolor, ordseq, nextOrdered, origBarRq, inFlight := false, IDLE, NoOrder, Special(0), 0;
      queueHead, started, held := [], {}, {};
      past := INITIAL;
      arrivals, epoch := 0, 0;
    }

    method OrderedCompleteSeq(seqno: nat)
      requires Valid()
      modifies this
      ensures Valid() && View() == CompleteSeq(old(View()), seqno)
    {
      if seqno == SEQ_DRAIN {
        ordseq := ordseq.(drain := true);
      } else if seqno == SEQ_PREFLUSH {
        ordseq := ordseq.(preflush := true);
      } else if seqno == SEQ_BAR {
        ordseq := ordseq.(bar := true);
      } else {
        ordseq := ordseq.(postflush := true);
      }
      if CurSeq(ordseq) != SEQ_DONE {
        return;
      }
      ordseq := IDLE;
      past := past.(done := past.done + {origBarRq}, passed := past.passed + 1);
    }

    method OrderedReqSeq(r: Rq) returns (seqno: nat)
      ensures seqno == ReqSeq(View(), r)
    {
      match r {
        case PreFlush => seqno := SEQ_PREFLUSH;
        case Bar => seqno := SEQ_BAR;
        case PostFlush => seqno := SEQ_POSTFLUSH;
        case Special(_) => seqno := SEQ_DRAIN;
        case Fs(_, _, _, color, _) =>
          seqno := if origBarRq.Fs? && color == origBarRq.color then SEQ_DRAIN else SEQ_DONE;
      }
    }

    method CompletedRequest(r: Rq)
      requires Valid()
      modifies this
      ensures Valid() && View() == Completed(old(View()), r)
    {
      if IsFs(r) && r in started {
        inFlight := inFlight - 1;
      }
      if ordseq.started && inFlight == 0 && CurSeq(ordseq) == SEQ_DRAIN && queueHead != [] {
        var first := OrderedReqSeq(queueHead[0]);
        if first > SEQ_DRAIN {
          OrderedCompleteSeq(SEQ_DRAIN);
        }
      }
    }

    method EndRequest(r: Rq)
      requires Valid()
      modifies this
      ensures Valid() && View() == EndIo(old(View()), r)
    {
      if !IsProxy(r) {
        past := past.(done := past.done + {r});
      }
      CompletedRequest(r);
      if IsProxy(r) {
        past := past.(hist := past.hist + [r]);
        var seqno := OrderedReqSeq(r);
        OrderedCompleteSeq(seqno);
      }
    }

    /** start_ordered: the proxies go to the front one by one, last stage first. */
    method StartSequence() returns (out: Outcome)
      requires Valid() && queueHead != [] && queueHead[0].Fs?
      modifies this
      ensures Valid() && View() == StartOrdered(old(View()))
      ensures out == if ordseq.drain then Hand(queueHead[0]) else Nothing
    {
      hide WantsPostFlush, WantsPreFlush, StartOrdered;
      StartOrderedShape(View());
      var b := queueHead[0];
      var stack, post := StackFlush(WantsPostFlush(nextOrdered) && !b.empty, PostFlush, []);
      stack := [Bar] + stack;
      var pre;
      stack, pre := StackFlush(WantsPreFlush(nextOrdered), PreFlush, stack);
      out := if inFlight == 0 then Hand(stack[0]) else Nothing;
      Stack(stack, Stages(true, inFlight == 0, !pre, false, !post));
    }

    /** The proxies, which are initialised anew, stand where the barrier was. */
    method Stack(stack: seq<Rq>, stages: Stages)
      requires Valid() && queueHead != []
      modifies this
      ensures Valid()
      ensures View() == old(View()).(orig := old(queueHead[0]), stages := stages, queue := stack + old(queueHead[1..]),
                                     started := old(started) - {PreFlush, Bar, PostFlush}, plan := stack, hist := [])
    {
      origBarRq, queueHead := queueHead[0], stack + queueHead[1..];
      ordseq := stages;
      started := started - {PreFlush, Bar, PostFlush};
      past := past.(plan := stack, hist := []);
    }

    /** One optional queue_flush call: the flush request goes in front of what is stacked already. */
    static method StackFlush(wanted: bool, flush: Rq, stack: seq<Rq>) returns (more: seq<Rq>, queued: bool)
      ensures queued == wanted && more == (if wanted then [flush] else []) + stack
    {
      queued := wanted;
      more := if wanted then [flush] + stack else stack;
    }

    method CheckOrder() returns (out: Outcome)
      requires Valid() && queueHead != []
      modifies this
      ensures Valid() && (View(), out) == DoOrdered(old(View()))
    {
      var head := queueHead[0];
      if !ordseq.started {
        if !(head.Fs? && head.barrier) {
          out := Hand(head);
        } else if nextOrdered != NoOrder {
          out := StartSequence();
        } else {
          queueHead := queueHead[1..];
          past := past.(done := past.done + {head}, passed := past.passed + 1);
          out := Again;
        }
        return;
      }
      if head.Special? {
        return Hand(head);
      }
      var seqno := OrderedReqSeq(head);
      out := if seqno > CurSeq(ordseq) then Nothing else Hand(head);
    }

    method Unlink(r: Rq)
      requires Valid()
      modifies this
      ensures Valid() && View() == old(View()).(queue := Remove(old(queueHead), r))
    {
      queueHead := Remove(queueHead, r);
    }

    /** elv_next_request on a non-empty dispatch queue; the loop ends because every idle turn shortens the queue. */
    method Next() returns (out: Outcome)
      requires Valid()
      modifies this
      ensures Valid() && (View(), out) == NextRequest(old(View()))
    {
      while queueHead != []
        invariant Valid() && NextRequest(View()) == NextRequest(old(View()))
        decreases |queueHead|
      {
        ghost var before := View();
        if Peek(before).1 == Again {
          AgainShrinks(before);
        }
        out := CheckOrder();
        if out.Hand? && out.rq.Bar? && origBarRq.Fs? && origBarRq.empty {
          Unlink(Bar);
          EndRequest(Bar);
        } else if out.Hand? {
          started := started + {out.rq};
          return;
        } else if out.Nothing? {
          return;
        }
      }
      out := Nothing;
    }

    method DequeueRequest(r: Rq)
      requires Valid() && Enabled(View(), Dequeue(r))
      modifies this
      ensures Valid() && View() == Step(old(View()), Dequeue(r))
    {
      Unlink(r);
      past := past.(driver := past.driver + {r});
      if IsFs(r) {
        inFlight := inFlight + 1;
      }
    }

    method FinishRequest(r: Rq)
      requires Valid() && Enabled(View(), Finish(r))
      modifies this
      ensures Valid() && View() == Step(old(View()), Finish(r))
    {
      past := past.(driver := past.driver - {r});
      EndRequest(r);
    }

    /** The scan of elv_insert for a requeued request. */
    method FindRequeuePos(ordseqno: nat) returns (pos: nat)
      ensures pos == RequeuePos(View(), ordseqno, queueHead)
    {
      pos := 0;
      while pos < |queueHead|
        invariant pos <= |queueHead|
        invariant RequeuePos(View(), ordseqno, queueHead) == pos + RequeuePos(View(), ordseqno, queueHead[pos..])
      {
        var here := OrderedReqSeq(queueHead[pos]);
        if ordseqno <= here {
          return;
        }
        pos := pos + 1;
      }
    }

    /** elv_requeue_request: to the front, or behind the entries of earlier stages while a sequence runs. */
    method RequeueRequest(r: Rq)
      requires Valid() && Enabled(View(), Retry(r))
      modifies this
      ensures Valid() && View() == Step(old(View()), Retry(r))
    {
      hide RequeuePos, ReqSeq, Insert;
      past := past.(driver := past.driver - {r}, strayed := past.strayed || Strays(View(), r));
      if IsFs(r) && r in started {
        inFlight := inFlight - 1;
      }
      started := started - {r};
      var pos := 0;
      if ordseq.started {
        var ordseqno := OrderedReqSeq(r);
        pos := FindRequeuePos(ordseqno);
      }
      queueHead := Insert(queueHead, pos, r);
    }

    /** __elv_add_request for an fs request: it takes the current colour, and a barrier flips it. */
    method NewRequest(barrier: bool, empty: bool) returns (r: Rq)
      requires Valid()
      modifies this
      ensures Valid() && r == NewFs(old(View()), barrier, empty)
      ensures View() == old(View()).(added := old(past.added) + [r], ordcolor := old(ordcolor) != barrier,
                                     barriers := if barrier then old(past.barriers) + 1 else old(past.barriers))
    {
      r := Fs(arrivals, barrier, empty, ordcolor, epoch);
      past := past.(added := past.added + [r], barriers := if barrier then past.barriers + 1 else past.barriers);
      arrivals := arrivals + 1;
      if barrier {
        ordcolor := !ordcolor;
        epoch := epoch + 1;
      }
    }

    method AddSortedRequest()
      requires Valid()
      modifies this
      ensures Valid() && View() == Step(old(View()), AddSorted)
    {
      var r := NewRequest(false, false);
      held := held + {r};
    }

    /** elv_dispatch_add_tail or elv_dispatch_sort, whose scan stops at the last entry that is not passable. */
    method DispatchRequest(r: Rq, pos: nat)
      requires Valid() && Enabled(View(), Dispatch(r, pos))
      modifies this
      ensures Valid() && View() == Step(old(View()), Dispatch(r, pos))
    {
      held := held - {r};
      queueHead := queueHead[..pos] + [r] + queueHead[pos..];
    }

    /** elv_drain_elevator: forced dispatch until the scheduler is empty. */
    method DrainElevator() returns (ghost moved: seq<Rq>)
      requires Valid()
      modifies this
      ensures Valid() && View() == old(View()).(held := {}, queue := old(queueHead) + moved)
      ensures forall r :: r in moved <==> r in old(held)
      ensures forall i, j :: 0 <= i < j < |moved| ==> moved[i] != moved[j]
    {
      moved := [];
      while held != {}
        invariant Valid() && View() == old(View()).(held := held, queue := old(queueHead) + moved)
        invariant forall r :: r in moved || r in held <==> r in old(held)
        invariant forall r :: r in moved ==> r !in held
        invariant forall i, j :: 0 <= i < j < |moved| ==> moved[i] != moved[j]
        decreases |held|
      {
        var r :| r in held;
        ghost var q := queueHead;
        DispatchRequest(r, |queueHead|);
        assert queueHead == q + [r];
        moved := moved + [r];
      }
    }

    /** ELEVATOR_INSERT_BACK: the scheduler is emptied first, so nothing can be sorted behind the new entry. */
    method AddBackRequest(barrier: bool, empty: bool) returns (ghost moved: seq<Rq>)
      requires Valid() && (barrier ==> nextOrdered != NoOrder) && (!barrier ==> !empty)
      modifies this
      ensures Valid()
      ensures forall r :: r in moved <==> r in old(held)
      ensures forall i, j :: 0 <= i < j < |moved| ==> moved[i] != moved[j]
      ensures View() == Step(old(View()).(held := {}, queue := old(queueHead) + moved),
                             if barrier then AddBarrier(empty) else AddBack)
    {
      var r := NewRequest(barrier, empty);
      moved := DrainElevator();
      queueHead := queueHead + [r];
    }

    /** Special requests go to either end, without regard to a running sequence. */
    method AddSpecialRequest(front: bool) returns (ghost moved: seq<Rq>)
      requires Valid()
      modifies this
      ensures Valid()
      ensures forall r :: r in moved <==> !front && r in old(held)
      ensures View() == Step(old(View()).(held := if front then old(held) else {}, queue := old(queueHead) + moved),
                             AddSpecial(front))
    {
      var r := Special(arrivals);
      past := past.(added := past.added + [r]);
      arrivals := arrivals + 1;
      if front {
        moved := [];
        assert queueHead + moved == queueHead;
        queueHead := [r] + queueHead;
      } else {
        moved := DrainElevator();
        queueHead := queueHead + [r];
      }
    }

    /** blk_queue_ordered. */
    method SetOrdered(mode: Mode)
      requires Valid()
      modifies this
      ensures Valid() && View() == Step(old(View()), SetMode(mode))
    {
      nextOrdered := mode;
    }
  }

  /** The loop of elv_next_request is a run of Next steps. */
  lemma {:induction false} NextRequestIsRun(s: State) returns (ops: seq<Op>)
    ensures Legal(s, ops) && Run(s, ops) == NextRequest(s).0
    ensures forall i :: 0 <= i < |ops| ==> ops[i] == Next
    ensures s.queue == [] ==> ops == []
    decreases |s.queue|
  {
    if s.queue == [] {
      ops := [];
    } else if Peek(s).1 != Again {
      ops := [Next];
      assert Legal(Peek(s).0, ops[1..]) && Run(Peek(s).0, ops[1..]) == Peek(s).0;
    } else {
      AgainShrinks(s);
      var rest := NextRequestIsRun(Peek(s).0);
      ops := [Next] + rest;
      assert ops[1..] == rest;
    }
  }
}
