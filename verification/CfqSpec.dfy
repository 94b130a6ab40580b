/** The CFQ scheduler: request queues of their own in a service tree whose leftmost node is cached. */
module CfqSpec {
  import opened RequestLists
  import opened ServiceTree
  import opened UniqueLists

  /** A cfq_queue. */
  datatype Queue = Queue(sort: seq<Node>, fifo: seq<Wait>, next: Next, onRr: bool)

  /** The request handed to the dispatch queue, with the queue it came from. */
  datatype Moved = Moved(q: nat, id: nat)

  /** cfq_data. left is the cached leftmost node of the service tree. */
  datatype State = State(queues: map<nat, Queue>, tree: Tree, left: Next, busy: nat, moved: seq<Moved>)

  const EMPTY := State(map[], Leaf, None, 0, [])

  /** What a call depends on besides: which of two requests cfq_choose_req prefers, whether the new service key is the old
    * one, how it compares with those in the tree, and what shape rebalancing leaves. */
  datatype Env = Env(prefers: (nat, nat) -> bool, same: bool, goes: nat -> bool, shape: seq<nat> -> Tree)

  ghost predicate Balances(env: Env) {
    forall xs :: Inorder(env.shape(xs)) == xs
  }

  // ---------- the service tree ----------

  /** cfq_rb_first: the cache is filled when it is empty. */
  function RbFirst(s: State): State {
    if s.left.None? && s.tree.Branch? then s.(left := Some(First(s.tree))) else s
  }

  /** cfq_rb_erase. */
  function RbErase(env: Env, s: State, q: nat): State {
    s.(left := if s.left == Some(q) then None else s.left, tree := env.shape(Without(Inorder(s.tree), q)))
  }

  /** cfq_service_tree_add. */
  function TreeAdd(env: Env, s: State, q: nat): State {
    if q in Inorder(s.tree) && env.same then s
    else
      var u := if q in Inorder(s.tree) then RbErase(env, s, q) else s;
      u.(left := if AllLeft(u.tree, env.goes) then Some(q) else u.left,
         tree := env.shape(Inorder(Insert(u.tree, q, env.goes))))
  }

  /** cfq_resort_rr_list. */
  function Resort(env: Env, s: State, q: nat): State
    requires q in s.queues
  {
    if s.queues[q].onRr then TreeAdd(env, s, q) else s
  }

  /** cfq_add_cfqq_rr. */
  function AddRr(env: Env, s: State, q: nat): State
    requires q in s.queues
  {
    Resort(env, s.(queues := s.queues[q := s.queues[q].(onRr := true)], busy := s.busy + 1), q)
  }

  /** cfq_del_cfqq_rr. */
  function DelRr(env: Env, s: State, q: nat): State
    requires q in s.queues && s.busy > 0
  {
    var u := s.(queues := s.queues[q := s.queues[q].(onRr := false)]);
    var v := if q in Inorder(u.tree) then RbErase(env, u, q) else u;
    v.(busy := v.busy - 1)
  }

  // ---------- one queue ----------

  /** cfq_choose_req: one of the requests that are there. */
  function Choose(env: Env, a: Next, b: Next): Next {
    if a == None || a == b then b else if b == None then a else if env.prefers(a.id, b.id) then a else b
  }

  /** cfq_find_next_rq: the successor, or else the first, against the predecessor. */
  function FindNext(env: Env, q: seq<Node>, id: nat): Next
    requires Rank(q, id) < |q|
  {
    var i := Rank(q, id);
    var prev := if i > 0 then Some(q[i - 1].id) else None;
    var next := if i + 1 < |q| then Some(q[i + 1].id) else if i > 0 then Some(q[0].id) else None;
    Choose(env, next, prev)
  }

  /** What cfq_remove_request does to the lists of the queue. */
  function Taken(env: Env, q: Queue, id: nat): Queue
    requires Rank(q.sort, id) < |q.sort| && Turn(q.fifo, id) < |q.fifo|
  {
    Queue(Cut(q.sort, Rank(q.sort, id)), Cut(q.fifo, Turn(q.fifo, id)),
          if q.next == Some(id) then FindNext(env, q.sort, id) else q.next, q.onRr)
  }

  predicate Has(s: State, q: nat, id: nat) {
    q in s.queues && Rank(s.queues[q].sort, id) < |s.queues[q].sort| && Turn(s.queues[q].fifo, id) < |s.queues[q].fifo|
  }

  // ---------- the operations ----------

  /** cfq_remove_request: a queue that has become empty leaves the service tree. */
  function Remove(env: Env, s: State, q: nat, id: nat): State
    requires Has(s, q, id) && (s.queues[q].onRr ==> s.busy > 0)
  {
    var u := s.(queues := s.queues[q := Taken(env, s.queues[q], id)]);
    if u.queues[q].onRr && u.queues[q].sort == [] then DelRr(env, u, q) else u
  }

  /** cfq_dispatch_insert. */
  function DispatchInsert(env: Env, s: State, q: nat, id: nat): State
    requires Has(s, q, id) && (s.queues[q].onRr ==> s.busy > 0)
  {
    var u := Remove(env, s, q, id);
    u.(moved := u.moved + [Moved(q, id)])
  }

  predicate CanAdd(s: State, q: nat, sector: nat) {
    q in s.queues && AliasQueued(s.queues[q].sort, s.queues[q].fifo, sector) && (s.queues[q].onRr ==> s.busy > 0)
  }

  /** cfq_add_rq_rb: a request at the same sector is dispatched first; the queue joins the service tree if it is not in it. */
  function AddRb(env: Env, s: State, q: nat, rq: Node): State
    requires CanAdd(s, q, rq.sector)
  {
    var i := Place(s.queues[q].sort, rq.sector);
    var u := if HasAlias(s.queues[q].sort, rq.sector) then DispatchInsert(env, s, q, s.queues[q].sort[i].id) else s;
    var v := u.(queues := u.queues[q := u.queues[q].(sort := Put(u.queues[q].sort, i, rq))]);
    var w := if v.queues[q].onRr then v else AddRr(env, v, q);
    w.(queues := w.queues[q := w.queues[q].(next := Choose(env, w.queues[q].next, Some(rq.id)))])
  }

  /** cfq_insert_request. */
  function Add(env: Env, s: State, q: nat, rq: Node, now: int): State
    requires CanAdd(s, q, rq.sector)
  {
    var u := AddRb(env, s, q, rq);
    u.(queues := u.queues[q := u.queues[q].(fifo := u.queues[q].fifo + [Wait(rq.id, now)])])
  }

  /** cfq_reposition_rq_rb after a front merge of n sectors, up to its taking the request out of the sort list. */
  function TakeOut(s: State, q: nat, id: nat): State
    requires q in s.queues && Rank(s.queues[q].sort, id) < |s.queues[q].sort|
  {
    s.(queues := s.queues[q := s.queues[q].(sort := Cut(s.queues[q].sort, Rank(s.queues[q].sort, id)))])
  }

  /** The fifo of cfq_merged_requests: the request moves to the turn of one that is older. */
  function FifoMoved(f: seq<Wait>, req: nat, next: nat): seq<Wait>
    requires Turn(f, req) < |f| && Turn(f, next) < |f| && req != next
  {
    var i, j := Turn(f, req), Turn(f, next);
    if f[j].expire < f[i].expire then Put(Cut(f, i), (if j < i then j else j - 1) + 1, f[i]) else f
  }

  /** cfq_merged_request after a front merge of n sectors: out of the sort list and in again, lower. */
  function FrontMerge(env: Env, s: State, q: nat, id: nat, n: nat): State
    requires q in s.queues && Rank(s.queues[q].sort, id) < |s.queues[q].sort|
    requires n <= s.queues[q].sort[Rank(s.queues[q].sort, id)].sector
    requires CanAdd(TakeOut(s, q, id), q, s.queues[q].sort[Rank(s.queues[q].sort, id)].sector - n)
  {
    var rq := s.queues[q].sort[Rank(s.queues[q].sort, id)];
    AddRb(env, TakeOut(s, q, id), q, Node(id, rq.sector - n, rq.nr + n))
  }

  /** A bio of n sectors merged at the back of a request. */
  function BackMerge(s: State, q: nat, id: nat, n: nat): State
    requires q in s.queues && Rank(s.queues[q].sort, id) < |s.queues[q].sort|
  {
    var c := s.queues[q];
    var i := Rank(c.sort, id);
    s.(queues := s.queues[q := c.(sort := c.sort[i := c.sort[i].(nr := c.sort[i].nr + n)])])
  }

  /** The fifo of the queue when req takes the turn of next. */
  function TurnGiven(s: State, q: nat, req: nat, next: nat): State
    requires Has(s, q, req) && Has(s, q, next) && req != next
  {
    var c := s.queues[q];
    s.(queues := s.queues[q := c.(fifo := FifoMoved(c.fifo, req, next))])
  }
}
