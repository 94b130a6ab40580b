/** The barrier protocol of the request queue, as a state machine.
  *
  * Every call that runs under the queue lock is one step.  The fields below the line "history" are
  * never consulted by a step that the source takes; they record what the driver and the submitters
  * have seen, so that ordering can be stated.
  */
module OrderedSpec {

  /** Submitted requests, and the three proxies that are embedded in the queue itself.
    * `id` is the arrival number and `epoch` the number of barriers that arrived earlier; both are history.
    * `color` is the REQ_ORDERED_COLOR bit, the only thing the source has to tell epochs apart.
    */
  datatype Rq =
    | Fs(id: nat, barrier: bool, empty: bool, color: bool, epoch: nat)
    | Special(id: nat)
    | PreFlush
    | Bar
    | PostFlush

  predicate IsProxy(r: Rq) {
    r.PreFlush? || r.Bar? || r.PostFlush?
  }

  /** blk_fs_request: the flush requests are set up by the driver as non-fs requests. */
  predicate IsFs(r: Rq) {
    r.Fs? || r.Bar?
  }

  /** The drain modes of QUEUE_ORDERED_*, and the mode that refuses barriers. */
  datatype Mode = NoOrder | Drain | DrainFlush | DrainFua

  predicate WantsPreFlush(m: Mode) { m.DrainFlush? || m.DrainFua? }

  predicate WantsPostFlush(m: Mode) { m.DrainFlush? }

  /** The bits of q->ordseq. */
  datatype Stages = Stages(started: bool, drain: bool, preflush: bool, bar: bool, postflush: bool)

  const IDLE := Stages(false, false, false, false, false)

  const SEQ_DRAIN := 2
  const SEQ_PREFLUSH := 4
  const SEQ_BAR := 8
  const SEQ_POSTFLUSH := 16
  const SEQ_DONE := 32

  datatype State = State(
    ordcolor: bool,
    stages: Stages,
    mode: Mode,              // q->next_ordered
    orig: Rq,                // q->orig_bar_rq, meaningful while a sequence runs
    inFlight: int,
    queue: seq<Rq>,          // the dispatch queue, head first
    started: set<Rq>,        // REQ_STARTED
    held: set<Rq>,           // requests inside the I/O scheduler
    // history
    driver: set<Rq>,         // dequeued and not yet completed or requeued
    done: set<Rq>,           // completed
    added: seq<Rq>,          // arrivals in order
    barriers: nat,           // barriers that have arrived
    passed: nat,             // barriers whose sequence is over
    plan: seq<Rq>,           // stages that the current sequence has to run
    hist: seq<Rq>,           // stages of the current sequence that have completed, oldest first
    strayed: bool)           // some request of the other colour was given back while a sequence ran

  const INITIAL := State(false, IDLE, NoOrder, Special(0), 0, [], {}, {}, {}, {}, [], 0, 0, [], [], false)

  /** blk_ordered_cur_seq: the lowest stage that has not been recorded yet. */
  function CurSeq(st: Stages): nat {
    if !st.started then 0
    else if !st.drain then SEQ_DRAIN
    else if !st.preflush then SEQ_PREFLUSH
    else if !st.bar then SEQ_BAR
    else if !st.postflush then SEQ_POSTFLUSH
    else SEQ_DONE
  }

  /** blk_ordered_req_seq: note that only the colour is compared. */
  function ReqSeq(s: State, r: Rq): nat {
    match r
    case PreFlush => SEQ_PREFLUSH
    case Bar => SEQ_BAR
    case PostFlush => SEQ_POSTFLUSH
    case Special(_) => SEQ_DRAIN
    case Fs(_, _, _, color, _) => if s.orig.Fs? && color == s.orig.color then SEQ_DRAIN else SEQ_DONE
  }

  function SetStage(st: Stages, seqno: nat): Stages {
    if seqno == SEQ_DRAIN then st.(drain := true)
    else if seqno == SEQ_PREFLUSH then st.(preflush := true)
    else if seqno == SEQ_BAR then st.(bar := true)
    else st.(postflush := true)
  }

  function Remove(q: seq<Rq>, r: Rq): seq<Rq> {
    if q == [] then [] else if q[0] == r then q[1..] else [q[0]] + Remove(q[1..], r)
  }

  /** blk_ordered_complete_seq. */
  function CompleteSeq(s: State, seqno: nat): State {
    var st := SetStage(s.stages, seqno);
    if CurSeq(st) != SEQ_DONE then s.(stages := st)
    else s.(stages := IDLE, done := s.done + {s.orig}, passed := s.passed + 1)
  }

  /** elv_completed_request, which may record that the queue has drained. */
  function Completed(s: State, r: Rq): State {
    var s1 := if IsFs(r) && r in s.started then s.(inFlight := s.inFlight - 1) else s;
    if s1.stages.started && s1.inFlight == 0 && CurSeq(s1.stages) == SEQ_DRAIN
       && s1.queue != [] && ReqSeq(s1, s1.queue[0]) > SEQ_DRAIN
    then CompleteSeq(s1, SEQ_DRAIN) else s1
  }

  /** The end_io functions of the proxies, and the release of an ordinary request. */
  function EndIo(s: State, r: Rq): State {
    var s1 := Completed(s.(done := if IsProxy(r) then s.done else s.done + {r}), r);
    if IsProxy(r) then CompleteSeq(s1.(hist := s1.hist + [r]), ReqSeq(s1, r)) else s1
  }

  /** start_ordered on the barrier at the head of the queue; the proxies are stacked in reverse order. */
  function StartOrdered(s: State): State
    requires s.queue != [] && s.queue[0].Fs?
  {
    var b := s.queue[0];
    var pre, post := WantsPreFlush(s.mode), WantsPostFlush(s.mode) && !b.empty;
    var plan := (if pre then [PreFlush] else []) + [Bar] + (if post then [PostFlush] else []);
    s.(orig := b,
       stages := Stages(true, s.inFlight == 0, !pre, false, !post),
       queue := plan + s.queue[1..],
       started := s.started - {PreFlush, Bar, PostFlush},
       plan := plan, hist := [])
  }

  datatype Outcome = Hand(rq: Rq) | Nothing | Again

  /** blk_do_ordered on the head of the queue, and what elv_next_request does with its answer. */
  function DoOrdered(s: State): (State, Outcome)
    requires s.queue != []
  {
    var head := s.queue[0];
    if !s.stages.started then
      if !(head.Fs? && head.barrier) then (s, Hand(head))
      else if s.mode != NoOrder then
        var s1 := StartOrdered(s);
        (s1, if s1.stages.drain then Hand(s1.queue[0]) else Nothing)
      else
        (s.(queue := s.queue[1..], done := s.done + {head}, passed := s.passed + 1), Again)
    else if head.Special? then (s, Hand(head))
    else if ReqSeq(s, head) > CurSeq(s.stages) then (s, Nothing)
    else (s, Hand(head))
  }

  /** One turn of the loop in elv_next_request: an empty barrier is completed at once, anything else is marked. */
  function Peek(s: State): (State, Outcome)
    requires s.queue != []
  {
    var (s1, out) := DoOrdered(s);
    if !out.Hand? then (s1, out)
    else if out.rq.Bar? && s1.orig.Fs? && s1.orig.empty then
      (EndIo(s1.(queue := Remove(s1.queue, Bar)), Bar), Again)
    else (s1.(started := s1.started + {out.rq}), out)
  }

  lemma RemoveShrinks(q: seq<Rq>, r: Rq)
    requires r in q
    ensures |Remove(q, r)| == |q| - 1
  {
    if q[0] != r {
      RemoveShrinks(q[1..], r);
    }
  }

  /** A turn that ends neither with a request nor with nothing takes an entry off the queue. */
  lemma AgainShrinks(s: State)
    requires s.queue != [] && Peek(s).1 == Again
    ensures |Peek(s).0.queue| < |s.queue|
  {
    var (s1, out) := DoOrdered(s);
    if out.Hand? {
      RemoveShrinks(s1.queue, Bar);
    }
  }

  /** elv_next_request as far as the dispatch queue reaches: turns until one of them decides. */
  function NextRequest(s: State): (State, Outcome)
    decreases |s.queue|
  {
    if s.queue == [] then (s, Nothing)
    else if Peek(s).1 != Again then Peek(s)
    else AgainShrinks(s); NextRequest(Peek(s).0)
  }

  /** The place the requeue scan of elv_insert finds: the first entry that is not of an earlier stage. */
  function RequeuePos(s: State, seqno: nat, q: seq<Rq>): (i: nat)
    ensures i <= |q|
    ensures forall j :: 0 <= j < i ==> ReqSeq(s, q[j]) < seqno
    ensures i < |q| ==> seqno <= ReqSeq(s, q[i])
  {
    if q == [] || seqno <= ReqSeq(s, q[0]) then 0
    else 1 + RequeuePos(s, seqno, q[1..])
  }

  function Insert(q: seq<Rq>, i: nat, r: Rq): seq<Rq>
    requires i <= |q|
  {
    q[..i] + [r] + q[i..]
  }

  /** A request that is given back while a sequence runs, and is filed behind the sequence by its colour. */
  predicate Strays(s: State, r: Rq) {
    s.stages.started && r.Fs? && ReqSeq(s, r) == SEQ_DONE
  }

  /** elv_requeue_request. */
  function Requeue(s: State, r: Rq): State {
    var s1 := s.(driver := s.driver - {r}, started := s.started - {r}, strayed := s.strayed || Strays(s, r),
                 inFlight := if IsFs(r) && r in s.started then s.inFlight - 1 else s.inFlight);
    var i := if s1.stages.started then RequeuePos(s1, ReqSeq(s1, r), s1.queue) else 0;
    s1.(queue := Insert(s1.queue, i, r))
  }

  /** Requests that the dispatch sort may pass on its way from the back of the queue. */
  predicate Passable(r: Rq) {
    r.Fs? && !r.barrier
  }

  datatype Op =
    | AddSorted                                // fs request to the scheduler
    | AddBack                                  // fs request without scheduler data, to the back
    | AddBarrier(empty: bool)
    | AddSpecial(front: bool)
    | Dispatch(rq: Rq, pos: nat)               // the scheduler moves a request to the dispatch queue
    | Next                                     // one turn of elv_next_request
    | Dequeue(rq: Rq)                          // the driver takes a request it was handed
    | Finish(rq: Rq)                           // the driver completes a request
    | Retry(rq: Rq)                            // the driver gives a request back
    | SetMode(mode: Mode)                      // blk_queue_ordered

  predicate Enabled(s: State, op: Op) {
    match op
    case AddSorted => true
    case AddBack => s.held == {}
    case AddBarrier(_) => s.held == {} && s.mode != NoOrder
    case AddSpecial(front) => front || s.held == {}
    case Dispatch(r, p) => r in s.held && p <= |s.queue| && forall i :: p <= i < |s.queue| ==> Passable(s.queue[i])
    case Next => s.queue != []
    case Dequeue(r) => r in s.queue && r in s.started
    case Finish(r) => r in s.driver
    case Retry(r) => r in s.driver
    case SetMode(_) => true
  }

  function NewFs(s: State, barrier: bool, empty: bool): Rq {
    Fs(|s.added|, barrier, empty, s.ordcolor, s.barriers)
  }

  function Step(s: State, op: Op): State
    requires Enabled(s, op)
  {
    match op
    case AddSorted =>
      var r := NewFs(s, false, false);
      s.(held := s.held + {r}, added := s.added + [r])
    case AddBack =>
      var r := NewFs(s, false, false);
      s.(queue := s.queue + [r], added := s.added + [r])
    case AddBarrier(empty) =>
      var r := NewFs(s, true, empty);
      s.(queue := s.queue + [r], added := s.added + [r], ordcolor := !s.ordcolor, barriers := s.barriers + 1)
    case AddSpecial(front) =>
      var r := Special(|s.added|);
      s.(queue := if front then [r] + s.queue else s.queue + [r], added := s.added + [r])
    case Dispatch(r, p) =>
      s.(held := s.held - {r}, queue := Insert(s.queue, p, r))
    case Next => Peek(s).0
    case Dequeue(r) =>
      s.(queue := Remove(s.queue, r), driver := s.driver + {r},
         inFlight := if IsFs(r) then s.inFlight + 1 else s.inFlight)
    case Finish(r) => EndIo(s.(driver := s.driver - {r}), r)
    case Retry(r) => Requeue(s, r)
    case SetMode(m) => s.(mode := m)
  }

  /** Every step of the run is allowed in the state where it is taken. */
  predicate Legal(s: State, ops: seq<Op>)
    decreases |ops|
  {
    ops == [] || (Enabled(s, ops[0]) && Legal(Step(s, ops[0]), ops[1..]))
  }

  /** The state at the end of a run. */
  function Run(s: State, ops: seq<Op>): State
    requires Legal(s, ops)
    decreases |ops|
  {
    if ops == [] then s else Run(Step(s, ops[0]), ops[1..])
  }
}
