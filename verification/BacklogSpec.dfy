/** A bounded crypto queue with a backlog, its producers and its one worker, as a protocol. */
module BacklogSpec {
  datatype Slot = NoRequest | Request(id: nat)

  /** What the worker has taken off the queue and not dealt with yet. */
  datatype Worker = Idle | Taken(backlog: Slot, req: nat) | Told(req: nat)

  /** What callers see: the answer to an enqueue, and the two completions. */
  datatype Event =
    | Queued(id: nat)    // -EINPROGRESS
    | Busy(id: nat)      // -EBUSY, but on the backlog
    | Refused(id: nat)   // -EBUSY, and dropped
    | Notice(id: nat)    // complete(-EINPROGRESS)
    | Done(id: nat)      // complete(err)

  datatype State = State(list: seq<nat>, maxQlen: nat, worker: Worker, log: seq<Event>)

  /** Submissions are numbered afresh. The worker's round is in three steps, as producers may come in between. */
  datatype Op = Enqueue(id: nat, mayBacklog: bool) | Take | Tell | Finish

  function Start(maxQlen: nat): State {
    State([], maxQlen, Idle, [])
  }

  /** The answer of crypto_enqueue_request. */
  function Answer(len: nat, maxQlen: nat, id: nat, mayBacklog: bool): Event {
    if len < maxQlen then Queued(id) else if mayBacklog then Busy(id) else Refused(id)
  }

  /** crypto_get_backlog: the request the backlog pointer designates. */
  function Backlog(list: seq<nat>, maxQlen: nat): Slot {
    if maxQlen < |list| then Request(list[maxQlen]) else NoRequest
  }

  predicate Enabled(s: State, op: Op) {
    match op
    case Enqueue(id, _) => forall e :: e in s.log ==> e.id != id
    case Take => s.worker.Idle? && s.list != []
    case Tell => s.worker.Taken?
    case Finish => s.worker.Told?
  }

  function Step(s: State, op: Op): State
    requires Enabled(s, op)
  {
    match op
    case Enqueue(id, may) =>
      var answer := Answer(|s.list|, s.maxQlen, id, may);
      s.(list := if answer.Refused? then s.list else s.list + [id], log := s.log + [answer])
    case Take => s.(list := s.list[1..], worker := Taken(Backlog(s.list, s.maxQlen), s.list[0]))
    case Tell =>
      s.(worker := Told(s.worker.req),
         log := if s.worker.backlog.Request? then s.log + [Notice(s.worker.backlog.id)] else s.log)
    case Finish => s.(worker := Idle, log := s.log + [Done(s.worker.req)])
  }

  // ---------- reading the log ----------

  function Accepted(log: seq<Event>): seq<nat> {
    if log == [] then []
    else
      var e := log[|log| - 1];
      Accepted(log[..|log| - 1]) + if e.Queued? || e.Busy? then [e.id] else []
  }

  /** Those put on the backlog, in the order they came. */
  function Backlogged(log: seq<Event>): seq<nat> {
    if log == [] then []
    else
      var e := log[|log| - 1];
      Backlogged(log[..|log| - 1]) + if e.Busy? then [e.id] else []
  }

  function Noticed(log: seq<Event>): seq<nat> {
    if log == [] then []
    else
      var e := log[|log| - 1];
      Noticed(log[..|log| - 1]) + if e.Notice? then [e.id] else []
  }

  function Finished(log: seq<Event>): seq<nat> {
    if log == [] then []
    else
      var e := log[|log| - 1];
      Finished(log[..|log| - 1]) + if e.Done? then [e.id] else []
  }

  // ---------- the invariant ----------

  /** Beyond the limit. */
  function Beyond(list: seq<nat>, maxQlen: nat): seq<nat> {
    if maxQlen < |list| then list[maxQlen..] else []
  }

  function NoticeDue(w: Worker): seq<nat> {
    if w.Taken? && w.backlog.Request? then [w.backlog.id] else []
  }

  function InHand(w: Worker): seq<nat> {
    if w.Idle? then [] else [w.req]
  }

  /** No request is completed before it is told to be in progress, if it was put on the backlog. */
  ghost predicate ToldFirst(log: seq<Event>) {
    forall k :: 0 <= k < |log| && log[k].Done? && log[k].id in Backlogged(log[..k]) ==> log[k].id in Noticed(log[..k])
  }

  ghost predicate Distinct(xs: seq<nat>) {
    forall i, j :: 0 <= i < j < |xs| ==> xs[i] != xs[j]
  }

  ghost predicate Valid(s: State) {
    && Accepted(s.log) == Finished(s.log) + InHand(s.worker) + s.list
    && Backlogged(s.log) == Noticed(s.log) + NoticeDue(s.worker) + Beyond(s.list, s.maxQlen)
    && Distinct(Accepted(s.log)) && ToldFirst(s.log)
  }

  // ---------- proofs ----------

  lemma OneMore(log: seq<Event>, e: Event)
    ensures Accepted(log + [e]) == Accepted(log) + if e.Queued? || e.Busy? then [e.id] else []
    ensures Backlogged(log + [e]) == Backlogged(log) + if e.Busy? then [e.id] else []
    ensures Noticed(log + [e]) == Noticed(log) + if e.Notice? then [e.id] else []
    ensures Finished(log + [e]) == Finished(log) + if e.Done? then [e.id] else []
  {
    assert (log + [e])[..|log|] == log;
  }

  lemma {:induction false} InLog(log: seq<Event>, id: nat)
    requires id in Accepted(log)
    ensures exists e :: e in log && e.id == id
  {
    if log != [] {
      var rest, e := log[..|log| - 1], log[|log| - 1];
      if id in Accepted(rest) {
        InLog(rest, id);
        var x :| x in rest && x.id == id;
        assert x in log;
      } else {
        assert e in log && e.id == id;
      }
    }
  }

  lemma {:induction false} BackloggedAccepted(log: seq<Event>, id: nat)
    requires id in Backlogged(log)
    ensures id in Accepted(log)
  {
    if log != [] {
      var rest := log[..|log| - 1];
      if id in Backlogged(rest) {
        BackloggedAccepted(rest, id);
      }
    }
  }

  lemma ToldMore(log: seq<Event>, e: Event)
    requires ToldFirst(log) && (e.Done? && e.id in Backlogged(log) ==> e.id in Noticed(log))
    ensures ToldFirst(log + [e])
  {
    var more := log + [e];
    forall k | 0 <= k < |more| && more[k].Done? && more[k].id in Backlogged(more[..k]) ensures more[k].id in Noticed(more[..k]) {
      if k < |log| {
        assert more[..k] == log[..k];
      } else {
        assert more[..k] == log;
      }
    }
  }

  lemma DistinctMore(xs: seq<nat>, id: nat)
    ensures Distinct(xs + [id]) <==> Distinct(xs) && id !in xs
  {
    var more := xs + [id];
    assert more[|xs|] == id;
    if Distinct(more) {
      forall i, j | 0 <= i < j < |xs| ensures xs[i] != xs[j] {
        assert more[i] == xs[i] && more[j] == xs[j];
      }
      forall i | 0 <= i < |xs| ensures xs[i] != id {
        assert more[i] == xs[i];
      }
    }
  }

  lemma DistinctSplit(a: seq<nat>, id: nat, b: seq<nat>)
    requires Distinct(a + [id] + b)
    ensures id !in b
  {
    var all := a + [id] + b;
    assert all[|a|] == id;
    forall k | 0 <= k < |b| ensures b[k] != id {
      assert all[|a| + 1 + k] == b[k];
    }
  }

  lemma BeyondMore(list: seq<nat>, maxQlen: nat, id: nat)
    ensures Beyond(list + [id], maxQlen) == Beyond(list, maxQlen) + if maxQlen <= |list| then [id] else []
  {
  }

  lemma FreshId(s: State, id: nat)
    requires forall e :: e in s.log ==> e.id != id
    ensures id !in Accepted(s.log)
  {
    if id in Accepted(s.log) {
      InLog(s.log, id);
    }
  }

  lemma EnqueueKeeps(s: State, id: nat, may: bool)
    requires Valid(s) && Enabled(s, Enqueue(id, may))
    ensures Valid(Step(s, Enqueue(id, may)))
  {
    var answer := Answer(|s.list|, s.maxQlen, id, may);
    OneMore(s.log, answer);
    ToldMore(s.log, answer);
    FreshId(s, id);
    DistinctMore(Accepted(s.log), id);
    BeyondMore(s.list, s.maxQlen, id);
    hide ToldFirst, Distinct, Beyond, Accepted, Backlogged, Noticed, Finished;
    var more := if answer.Refused? then [] else [id];
    var busy := if answer.Busy? then [id] else [];
    var u := Step(s, Enqueue(id, may));
    assert u.list == s.list + more;
    assert Beyond(u.list, s.maxQlen) == Beyond(s.list, s.maxQlen) + busy;
    Regroup(Finished(s.log), InHand(s.worker), s.list, more);
    Regroup(Noticed(s.log), NoticeDue(s.worker), Beyond(s.list, s.maxQlen), busy);
    Regroup([], [], Accepted(s.log), []);
    hide InHand, NoticeDue;
  }

  lemma Regroup(a: seq<nat>, b: seq<nat>, c: seq<nat>, d: seq<nat>)
    ensures a + b + c + d == a + [] + b + (c + d) && c + [] == c
  {
  }

  lemma TakeKeeps(s: State)
    requires Valid(s) && Enabled(s, Take)
    ensures Valid(Step(s, Take))
  {
    var u := Step(s, Take);
    assert s.list == [s.list[0]] + u.list;
    assert Beyond(s.list, s.maxQlen) == NoticeDue(u.worker) + Beyond(u.list, s.maxQlen);
    hide ToldFirst, Distinct;
  }

  lemma TellKeeps(s: State)
    requires Valid(s) && Enabled(s, Tell)
    ensures Valid(Step(s, Tell))
  {
    if s.worker.backlog.Request? {
      OneMore(s.log, Notice(s.worker.backlog.id));
      ToldMore(s.log, Notice(s.worker.backlog.id));
    }
    hide ToldFirst, Distinct;
  }

  /** A request that is finished is no longer queued; so if it was on the backlog, it has had its notice. */
  lemma FinishKeeps(s: State)
    requires Valid(s) && Enabled(s, Finish)
    ensures Valid(Step(s, Finish))
  {
    var id := s.worker.req;
    var before := Finished(s.log);
    OneMore(s.log, Done(id));
    DistinctSplit(before, id, s.list);
    assert id in Backlogged(s.log) ==> id in Noticed(s.log);
    ToldMore(s.log, Done(id));
    assert before + [id] + s.list == (before + [id]) + [] + s.list;
    hide ToldFirst;
  }

  lemma StepKeeps(s: State, op: Op)
    requires Valid(s) && Enabled(s, op)
    ensures Valid(Step(s, op)) && Step(s, op).maxQlen == s.maxQlen
  {
    match op
    case Enqueue(id, may) => EnqueueKeeps(s, id, may); hide Valid;
    case Take => TakeKeeps(s); hide Valid;
    case Tell => TellKeeps(s); hide Valid;
    case Finish => FinishKeeps(s); hide Valid;
  }

  ghost predicate Possible(maxQlen: nat, ops: seq<Op>)
    decreases |ops|, 0
  {
    ops == [] || (Possible(maxQlen, ops[..|ops| - 1]) && Enabled(Run(maxQlen, ops[..|ops| - 1]), ops[|ops| - 1]))
  }

  ghost function Run(maxQlen: nat, ops: seq<Op>): (s: State)
    requires Possible(maxQlen, ops)
    ensures Valid(s) && s.maxQlen == maxQlen
    decreases |ops|, 1
  {
    if ops == [] then Start(maxQlen)
    else
      var before := Run(maxQlen, ops[..|ops| - 1]);
      StepKeeps(before, ops[|ops| - 1]);
      Step(before, ops[|ops| - 1])
  }

  /** In every run: the notices go to backlogged requests, once each and in the order they came; no backlogged request is
    * completed before its notice; requests are completed once each and in order; and when all is done, all have been told. */
  lemma EveryNoticeOnce(maxQlen: nat, ops: seq<Op>)
    requires Possible(maxQlen, ops)
    ensures var s := Run(maxQlen, ops);
            && Noticed(s.log) <= Backlogged(s.log) && Distinct(Noticed(s.log))
            && Finished(s.log) <= Accepted(s.log) && Distinct(Finished(s.log))
            && ToldFirst(s.log)
            && (s.list == [] && s.worker.Idle? ==> Noticed(s.log) == Backlogged(s.log) && Finished(s.log) == Accepted(s.log))
  {
    var s := Run(maxQlen, ops);
    BackloggedDistinct(s.log);
    var n, b := Noticed(s.log), Backlogged(s.log);
    assert forall i :: 0 <= i < |n| ==> n[i] == b[i];
    var f, a := Finished(s.log), Accepted(s.log);
    assert forall i :: 0 <= i < |f| ==> f[i] == a[i];
    hide ToldFirst;
  }

  lemma {:induction false} BackloggedDistinct(log: seq<Event>)
    requires Distinct(Accepted(log))
    ensures Distinct(Backlogged(log))
  {
    if log != [] {
      var rest, e := log[..|log| - 1], log[|log| - 1];
      if e.Queued? || e.Busy? {
        DistinctMore(Accepted(rest), e.id);
      } else {
        assert Accepted(rest) + [] == Accepted(rest);
      }
      BackloggedDistinct(rest);
      DistinctMore(Backlogged(rest), e.id);
      if e.id in Backlogged(rest) {
        BackloggedAccepted(rest, e.id);
      }
    }
  }
}
