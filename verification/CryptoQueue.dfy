/** crypto_queue as linked requests with a backlog pointer, and the cryptd worker that serves it. */
module CryptoQueues {
  import opened BacklogSpec

  /** A crypto_async_request; next is null where the list ends. */
  class Request {
    const id: nat
    var next: Request?

    constructor (id: nat)
      ensures this.id == id
    {
      this.id := id;
      next := null;
    }
  }

  function Ids(rs: seq<Request>): seq<nat> {
    seq(|rs|, i requires 0 <= i < |rs| => rs[i].id)
  }

  /** The request at a place on the list, or null behind its end. */
  ghost function At(rs: seq<Request>, k: nat): Request? {
    if k < |rs| then rs[k] else null
  }

  class Queue {
    var first: Request?
    var last: Request?
    var backlog: Request?
    var qlen: nat
    var maxQlen: nat
    ghost var spine: seq<Request>

    /** The links follow the spine; the backlog pointer is at its element number maxQlen, if it has one. */
    ghost predicate Valid()
      reads this, spine
    {
      && qlen == |spine|
      && (forall i, j :: 0 <= i < j < |spine| ==> spine[i] != spine[j])
      && (forall i :: 0 <= i < |spine| ==> spine[i].next == At(spine, i + 1))
      && first == At(spine, 0)
      && last == (if |spine| > 0 then spine[|spine| - 1] else null)
      && backlog == At(spine, maxQlen)
    }

    constructor (maxQlen: nat)
      ensures Valid() && spine == [] && this.maxQlen == maxQlen
    {
      first, last, backlog, qlen, spine := null, null, null, 0, [];
      this.maxQlen := maxQlen;
    }

    /** crypto_enqueue_request. */
    method Enqueue(request: Request, mayBacklog: bool) returns (answer: Event)
      requires Valid() && request !in spine
      modifies this, spine, request
      ensures Valid() && maxQlen == old(maxQlen) && answer == Answer(|old(spine)|, maxQlen, request.id, mayBacklog)
      ensures spine == if answer.Refused? then old(spine) else old(spine) + [request]
    {
      ghost var more := spine + [request];
      assert forall k: nat :: At(more, k) == if k == |spine| then request else At(spine, k);
      answer := Event.Queued(request.id);
      if qlen >= maxQlen {
        if !mayBacklog {
          return Refused(request.id);
        }
        answer := Event.Busy(request.id);
        if backlog == null {
          backlog := request;
        }
      }
      qlen := qlen + 1;
      request.next := null;
      if last == null {
        first := request;
      } else {
        last.next := request;
      }
      last := request;
      spine := more;
    }

    /** crypto_get_backlog. */
    method GetBacklog() returns (r: Slot)
      requires Valid()
      ensures r == Backlog(Ids(spine), maxQlen)
    {
      r := if backlog == null then Slot.NoRequest else Slot.Request(backlog.id);
    }

    /** crypto_dequeue_request. */
    method Dequeue() returns (r: Request?)
      requires Valid()
      modifies this
      ensures Valid() && maxQlen == old(maxQlen)
      ensures if old(spine) == [] then r == null && spine == [] else r == old(spine)[0] && spine == old(spine)[1..]
    {
      if qlen == 0 {
        return null;
      }
      ghost var rest := spine[1..];
      assert forall k: nat :: At(rest, k) == At(spine, k + 1);
      assert forall i :: 0 <= i < |rest| ==> rest[i].next == At(spine, i + 2);
      qlen := qlen - 1;
      if backlog != null {
        backlog := backlog.next;
      }
      r := first;
      first := r.next;
      if first == null {
        last := null;
      }
      spine := rest;
    }
  }

  /** The state of cryptd: its queue, where its thread is, and what callers have been told. */
  class Cryptd {
    const queue: Queue
    var worker: Worker
    var log: seq<Event>

    constructor (maxQlen: nat)
      ensures Valid() && View() == Start(maxQlen) && fresh(queue)
    {
      queue := new Queue(maxQlen);
      worker, log := Idle, [];
    }

    ghost predicate Valid()
      reads this, queue, queue.spine
    {
      queue.Valid()
    }

    ghost function View(): State
      reads this, queue
    {
      State(Ids(queue.spine), queue.maxQlen, worker, log)
    }

    /** cryptd_blkcipher_enqueue. */
    method EnqueueCrypt(request: Request, mayBacklog: bool)
      requires Valid() && request !in queue.spine && Enabled(View(), Enqueue(request.id, mayBacklog))
      modifies this, queue, queue.spine, request
      ensures Valid() && View() == Step(old(View()), Enqueue(request.id, mayBacklog))
    {
      var answer := queue.Enqueue(request, mayBacklog);
      log := log + [answer];
      assert Ids(old(queue.spine) + [request]) == Ids(old(queue.spine)) + [request.id];
    }

    /** The part of cryptd_thread under the queue's lock. */
    method TakeOne() returns (taken: bool)
      requires Valid() && worker.Idle?
      modifies this, queue
      ensures Valid() && taken == (old(View()).list != []) && |queue.spine| == |View().list|
      ensures View() == if taken then Step(old(View()), Take) else old(View())
    {
      var backlog := queue.GetBacklog();
      var req := queue.Dequeue();
      taken := req != null;
      if taken {
        worker := Taken(backlog, req.id);
        assert Ids(old(queue.spine)[1..]) == Ids(old(queue.spine))[1..];
      }
    }

    /** The backlogged request is told that it is in progress. */
    method TellBacklog()
      requires Valid() && worker.Taken?
      modifies this
      ensures Valid() && View() == Step(old(View()), Tell)
    {
      if worker.backlog.Request? {
        log := log + [Notice(worker.backlog.id)];
      }
      worker := Told(worker.req);
    }

    /** cryptd_blkcipher_crypt: the request is worked on and completed. */
    method Complete()
      requires Valid() && worker.Told?
      modifies this
      ensures Valid() && View() == Step(old(View()), Finish)
    {
      log := log + [Done(worker.req)];
      worker := Idle;
    }

    /** Rounds of cryptd_thread with nobody enqueuing, until the queue is empty: then every request that was accepted is
      * completed and every one that was on the backlog has had its notice. */
    method Drain()
      requires Valid() && BacklogSpec.Valid(View()) && worker.Idle?
      modifies this, queue
      ensures Valid() && BacklogSpec.Valid(View()) && View().list == [] && worker.Idle?
      ensures Finished(log) == Accepted(log) && Noticed(log) == Backlogged(log)
      ensures Accepted(log) == Accepted(old(log)) && Backlogged(log) == Backlogged(old(log))
    {
      hide BacklogSpec.Valid, Step;
      var more := true;
      while more
        invariant Valid() && BacklogSpec.Valid(View()) && worker.Idle? && (more || View().list == [])
        invariant Accepted(log) == Accepted(old(log)) && Backlogged(log) == Backlogged(old(log))
        decreases |queue.spine|, more
      {
        more := Round();
      }
      AllDone(View());
    }

    /** One round of cryptd_thread. */
    method Round() returns (taken: bool)
      requires Valid() && BacklogSpec.Valid(View()) && worker.Idle?
      modifies this, queue
      ensures Valid() && BacklogSpec.Valid(View()) && worker.Idle? && taken == (|old(queue.spine)| > 0)
      ensures |queue.spine| == if taken then |old(queue.spine)| - 1 else 0
      ensures Accepted(log) == Accepted(old(log)) && Backlogged(log) == Backlogged(old(log))
    {
      ghost var s := View();
      if s.list != [] {
        TakeKeeps(s);
        TellKeeps(Step(s, Take));
        FinishKeeps(Step(Step(s, Take), Tell));
        NothingNew(s);
      }
      hide BacklogSpec.Valid, Step, Accepted, Backlogged;
      taken := TakeOne();
      if taken {
        TellBacklog();
        Complete();
      }
    }
  }

  /** The worker neither accepts nor backlogs. */
  lemma NothingNew(s: State)
    requires Enabled(s, Take)
    ensures var u := Step(Step(Step(s, Take), Tell), Finish);
            Accepted(u.log) == Accepted(s.log) && Backlogged(u.log) == Backlogged(s.log)
  {
    var t := Step(Step(s, Take), Tell);
    var b := Backlog(s.list, s.maxQlen);
    if b.Request? {
      OneMore(s.log, Notice(b.id));
    }
    OneMore(t.log, Done(s.list[0]));
    hide Accepted, Backlogged;
  }

  lemma AllDone(s: State)
    requires BacklogSpec.Valid(s) && s.list == [] && s.worker.Idle?
    ensures Finished(s.log) == Accepted(s.log) && Noticed(s.log) == Backlogged(s.log)
  {
  }
}
