/** The deadline scheduler: a sort list and a FIFO for each direction, batches, and starved writes. */
module DeadlineSpec {
  import opened RequestLists

  const READ := 0
  const WRITE := 1

  /** A request handed to the dispatch queue, with its direction. */
  datatype Moved = Moved(dir: nat, id: nat)

  datatype State = State(
    sort: seq<seq<Node>>,
    fifo: seq<seq<Wait>>,
    next: seq<Next>,
    batching: nat,
    starved: nat,
    last: nat,
    moved: seq<Moved>)

  /** fifo_batch is not negative; writes_starved may be, and is then compared as an unsigned number. */
  datatype Tunables = Tunables(fifoExpire: seq<int>, fifoBatch: nat, writesStarved: int)

  predicate Proper(t: Tunables) {
    |t.fifoExpire| == 2 && t.fifoBatch < 0x8000_0000 && -0x8000_0000 <= t.writesStarved < 0x8000_0000
  }

  function Unsigned(x: int): nat
    requires -0x8000_0000 <= x < 0x8000_0000
  {
    if x < 0 then x + 0x1_0000_0000 else x
  }

  predicate Dir(d: nat) { d < 2 }

  predicate Shaped(s: State) {
    |s.sort| == 2 && |s.fifo| == 2 && |s.next| == 2
  }

  const EMPTY := State([[], []], [[], []], [None, None], 0, 0, 0, [])

  // ---------- the operations ----------

  /** deadline_remove_request. */
  function Remove(s: State, d: nat, id: nat): State
    requires Shaped(s) && Dir(d) && Rank(s.sort[d], id) < |s.sort[d]| && Turn(s.fifo[d], id) < |s.fifo[d]|
  {
    s.(next := if s.next[d] == Some(id) then s.next[d := Latter(s.sort[d], id)] else s.next,
       sort := s.sort[d := Cut(s.sort[d], Rank(s.sort[d], id))],
       fifo := s.fifo[d := Cut(s.fifo[d], Turn(s.fifo[d], id))])
  }

  /** deadline_move_request. */
  function Move(s: State, d: nat, id: nat): State
    requires Shaped(s) && Dir(d) && Rank(s.sort[d], id) < |s.sort[d]| && Turn(s.fifo[d], id) < |s.fifo[d]|
  {
    var rq := s.sort[d][Rank(s.sort[d], id)];
    Remove(s.(next := [None, None][d := Latter(s.sort[d], id)], last := rq.sector + rq.nr, moved := s.moved + [Moved(d, id)]), d, id)
  }

  /** deadline_add_rq_rb: a request at the same sector is moved to the dispatch queue first. */
  function AddRb(s: State, d: nat, rq: Node): State
    requires Shaped(s) && Dir(d) && AliasQueued(s.sort[d], s.fifo[d], rq.sector)
  {
    var i := Place(s.sort[d], rq.sector);
    var t := if HasAlias(s.sort[d], rq.sector) then Move(s, d, s.sort[d][i].id) else s;
    t.(sort := t.sort[d := Put(t.sort[d], i, rq)])
  }

  /** deadline_add_request. */
  function Add(t: Tunables, s: State, d: nat, rq: Node, now: int): State
    requires Proper(t) && Shaped(s) && Dir(d) && AliasQueued(s.sort[d], s.fifo[d], rq.sector)
  {
    var u := AddRb(s, d, rq);
    u.(fifo := u.fifo[d := u.fifo[d] + [Wait(rq.id, now + t.fifoExpire[d])]])
  }

  /** A bio merged at the back of request id. */
  function BackMerge(s: State, d: nat, id: nat, n: nat): State
    requires Shaped(s) && Dir(d) && Rank(s.sort[d], id) < |s.sort[d]|
  {
    var i := Rank(s.sort[d], id);
    var rq := s.sort[d][i];
    s.(sort := s.sort[d := s.sort[d][i := rq.(nr := rq.nr + n)]])
  }

  /** A bio of n sectors merged at the front: the request is taken out of the sort list and put in again, lower. */
  function FrontMerge(s: State, d: nat, id: nat, n: nat): State
    requires Shaped(s) && Dir(d) && Rank(s.sort[d], id) < |s.sort[d]|
    requires var i := Rank(s.sort[d], id);
             n <= s.sort[d][i].sector && AliasQueued(Cut(s.sort[d], i), s.fifo[d], s.sort[d][i].sector - n)
  {
    var i := Rank(s.sort[d], id);
    var rq := s.sort[d][i];
    AddRb(s.(sort := s.sort[d := Cut(s.sort[d], i)]), d, Node(id, rq.sector - n, rq.nr + n))
  }

  /** When next is due earlier than req, req takes over both its deadline and its turn. */
  function FifoMerged(f: seq<Wait>, req: nat, next: nat): seq<Wait>
    requires Turn(f, req) < |f| && Turn(f, next) < |f| && req != next
  {
    var i, j := Turn(f, req), Turn(f, next);
    if f[j].expire < f[i].expire then
      var g := Cut(f, i);
      Put(g, (if j < i then j else j - 1) + 1, Wait(req, f[j].expire))
    else f
  }

  /** Two requests that are queued, and still so when the first has grown and taken its new turn. */
  predicate Mergeable(s: State, d: nat, req: nat, next: nat)
    requires Shaped(s) && Dir(d)
  {
    && req != next && Turn(s.fifo[d], req) < |s.fifo[d]| && Turn(s.fifo[d], next) < |s.fifo[d]|
    && Rank(s.sort[d], req) < |s.sort[d]| && Rank(s.sort[d], next) < |s.sort[d]|
    && Turn(FifoMerged(s.fifo[d], req, next), next) <= |s.fifo[d]| - 1
    && Rank(BackMerge(s, d, req, s.sort[d][Rank(s.sort[d], next)].nr).sort[d], next) < |s.sort[d]|
  }

  /** deadline_merged_requests: req has taken over next, which goes away. */
  function MergeRequests(s: State, d: nat, req: nat, next: nat): State
    requires Shaped(s) && Dir(d) && Mergeable(s, d, req, next)
  {
    var u := BackMerge(s, d, req, s.sort[d][Rank(s.sort[d], next)].nr);
    Remove(u.(fifo := u.fifo[d := FifoMerged(u.fifo[d], req, next)]), d, next)
  }

  // ---------- dispatching ----------

  /** deadline_check_fifo. */
  predicate Expired(s: State, d: nat, now: int)
    requires Shaped(s) && Dir(d) && s.fifo[d] != []
  {
    now > s.fifo[d][0].expire
  }

  predicate Queued(s: State, d: nat, id: nat)
    requires Shaped(s) && Dir(d)
  {
    Rank(s.sort[d], id) < |s.sort[d]| && Turn(s.fifo[d], id) < |s.fifo[d]|
  }

  /** The request the next pointers name, the write one first. */
  function Ahead(s: State): Next
    requires Shaped(s)
  {
    if s.next[WRITE].Some? then s.next[WRITE] else s.next[READ]
  }

  function AheadDir(s: State): nat
    requires Shaped(s)
  {
    if s.next[WRITE].Some? then WRITE else READ
  }

  /** The batch counter after the test for a sequential request. */
  function BatchCount(t: Tunables, s: State): nat
    requires Shaped(s) && (Ahead(s).Some? ==> Queued(s, AheadDir(s), Ahead(s).id))
  {
    if Ahead(s).None? then s.batching
    else
      var q := s.sort[AheadDir(s)];
      if s.last != q[Rank(q, Ahead(s).id)].sector then s.batching + t.fifoBatch else s.batching
  }

  /** Everything a dispatch may name is queued. */
  predicate Ready(s: State) {
    && Shaped(s)
    && (forall d :: 0 <= d < 2 && s.next[d].Some? ==> Queued(s, d, s.next[d].id))
    && (forall d :: 0 <= d < 2 && s.fifo[d] != [] ==> Queued(s, d, s.fifo[d][0].id))
  }

  /** dispatch_find_request: the FIFO head if it has expired or the batch has no next request. */
  function Find(s: State, d: nat, now: int): State
    requires Ready(s) && Dir(d) && s.fifo[d] != []
  {
    var id := if Expired(s, d, now) || s.next[d].None? then s.fifo[d][0].id else s.next[d].id;
    Move(s.(batching := 1), d, id)
  }

  /** What a dispatch call decides: go on with the batch, start one in some direction, or nothing to do. */
  datatype Choice = GoOn | Start(d: nat, starved: nat) | Idle

  function Choose(t: Tunables, s: State): (c: Choice)
    requires Proper(t) && Ready(s)
    ensures c.GoOn? ==> Ahead(s).Some?
    ensures c.Start? ==> Dir(c.d) && s.fifo[c.d] != []
  {
    var anyReads, anyWrites := s.fifo[READ] != [], s.fifo[WRITE] != [];
    if Ahead(s).Some? && BatchCount(t, s) < t.fifoBatch then GoOn
    else if anyReads then
      if anyWrites && s.starved >= Unsigned(t.writesStarved) then Start(WRITE, 0)
      else Start(READ, if anyWrites then s.starved + 1 else s.starved)
    else if anyWrites then Start(WRITE, 0)
    else Idle
  }

  /** deadline_dispatch_requests. */
  function Dispatch(t: Tunables, s: State, now: int): State
    requires Proper(t) && Ready(s)
  {
    var b := BatchCount(t, s);
    match Choose(t, s)
    case GoOn => Move(s.(batching := b + 1), AheadDir(s), Ahead(s).id)
    case Start(d, starved) => Find(s.(batching := b, starved := starved), d, now)
    case Idle => s.(batching := b)
  }
}
