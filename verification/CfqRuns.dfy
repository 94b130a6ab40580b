/** Runs of CFQ: any sequence of the block layer's calls, from the empty scheduler. */
module CfqRuns {
  import opened RequestLists
  import opened ServiceTree
  import opened UniqueLists
  import opened CfqSpec
  import opened CfqProofs

  datatype Op =
    | NewQueue(q: nat)
    | Insert(q: nat, rq: Node, now: int)
    | Front(q: nat, id: nat, n: nat)
    | Back(q: nat, id: nat, n: nat)
    | Merge(q: nat, req: nat, next: nat)
    | Dispatch(q: nat, id: nat)
    | Leftmost
    | Requeue(q: nat)

  predicate Queued(s: State, q: nat, id: nat) {
    q in s.queues && Rank(s.queues[q].sort, id) < |s.queues[q].sort|
  }

  /** What the block layer keeps to: a new request is not queued already, and the others name queued requests. */
  ghost predicate Enabled(s: State, op: Op) {
    match op
    case NewQueue(q) => q !in s.queues
    case Insert(q, rq, _) => q in s.queues && !InSort(s.queues[q].sort, rq.id)
    case Front(q, id, n) => Queued(s, q, id) && n <= s.queues[q].sort[Rank(s.queues[q].sort, id)].sector
    case Back(q, id, _) => Queued(s, q, id)
    case Merge(q, req, next) => Queued(s, q, req) && Queued(s, q, next) && req != next
    case Dispatch(q, id) => Queued(s, q, id)
    case Leftmost => true
    case Requeue(q) => q in s.queues
  }

  ghost function Inserted(env: Env, s: State, q: nat, rq: Node, now: int): State
    requires Balances(env) && Valid(s) && Enabled(s, Insert(q, rq, now))
  {
    InsertRequestOk(env, s, q, rq, now);
    Add(env, s, q, rq, now)
  }

  ghost function FrontMerged(env: Env, s: State, q: nat, id: nat, n: nat): State
    requires Balances(env) && Valid(s) && Enabled(s, Front(q, id, n))
  {
    FrontMergeOk(env, s, q, id, n);
    FrontMerge(env, s, q, id, n)
  }

  /** Two adjacent requests become one: req grows by next, takes its turn if that was earlier, and next is removed. */
  ghost function Merged(env: Env, s: State, q: nat, req: nat, next: nat): State
    requires Balances(env) && Valid(s) && Enabled(s, Merge(q, req, next))
  {
    MergeRequestsOk(env, s, q, req, next);
    Remove(env, TurnGiven(BackMerge(s, q, req, s.queues[q].sort[Rank(s.queues[q].sort, next)].nr), q, req, next), q, next)
  }

  ghost function Dispatched(env: Env, s: State, q: nat, id: nat): State
    requires Balances(env) && Valid(s) && Enabled(s, Dispatch(q, id))
  {
    HasOk(s, q, id);
    BusyThen(s, q);
    DispatchInsert(env, s, q, id)
  }

  ghost function Step(env: Env, s: State, op: Op): State
    requires Balances(env) && Valid(s) && Enabled(s, op)
  {
    match op
    case NewQueue(q) => s.(queues := s.queues[q := Queue([], [], None, false)])
    case Insert(q, rq, now) => Inserted(env, s, q, rq, now)
    case Front(q, id, n) => FrontMerged(env, s, q, id, n)
    case Back(q, id, n) => BackMerge(s, q, id, n)
    case Merge(q, req, next) => Merged(env, s, q, req, next)
    case Dispatch(q, id) => Dispatched(env, s, q, id)
    case Leftmost => RbFirst(s)
    case Requeue(q) => Resort(env, s, q)
  }

  lemma StepKeeps(env: Env, s: State, op: Op)
    requires Balances(env) && Valid(s) && Enabled(s, op)
    ensures Valid(Step(env, s, op))
  {
    hide Valid, Add, FrontMerge, BackMerge, TurnGiven, Remove, RbFirst, Resort, Has, Rank;
    match op
    case NewQueue(q) => NewQueueOk(s, q);
    case Insert(q, rq, now) => InsertRequestOk(env, s, q, rq, now);
    case Front(q, id, n) => FrontMergeOk(env, s, q, id, n);
    case Back(q, id, n) => BackMergeOk(s, q, id, n);
    case Merge(q, req, next) => MergeRequestsOk(env, s, q, req, next);
    case Dispatch(q, id) =>
      HasOk(s, q, id);
      BusyThen(s, q);
      DispatchOk(env, s, q, id);
    case Leftmost => LeftmostOk(s);
    case Requeue(q) => RequeueOk(env, s, q);
  }

  lemma BusyThen(s: State, q: nat)
    requires Valid(s) && q in s.queues
    ensures s.queues[q].onRr ==> s.busy > 0
  {
    if s.queues[q].onRr {
      OnRrBusy(s, q);
    }
  }

  lemma NewQueueOk(s: State, q: nat)
    requires Valid(s) && q !in s.queues
    ensures Valid(s.(queues := s.queues[q := Queue([], [], None, false)]))
  {
    hide Cached;
    assert QueueOk(Queue([], [], None, false));
  }

  lemma DispatchOk(env: Env, s: State, q: nat, id: nat)
    requires Balances(env) && Valid(s) && Queued(s, q, id) && Has(s, q, id) && (s.queues[q].onRr ==> s.busy > 0)
    ensures Valid(DispatchInsert(env, s, q, id))
  {
    hide Remove, Has, Rank;
    RemoveOk(env, s, q, id);
    var u := Remove(env, s, q, id);
    SameTree(u, u.(moved := u.moved + [Moved(q, id)]));
    hide TreeOk, QueueOk;
  }

  lemma LeftmostOk(s: State)
    requires Valid(s)
    ensures Valid(RbFirst(s))
  {
    RbFirstOk(s);
    hide TreeOk, QueueOk;
  }

  lemma RequeueOk(env: Env, s: State, q: nat)
    requires Balances(env) && Valid(s) && q in s.queues
    ensures Valid(Resort(env, s, q))
  {
    ResortOk(env, s, q);
    hide TreeOk, QueueOk, Resort;
  }

  /** The block layer may make these calls, in this order, from the empty scheduler. */
  ghost predicate Possible(envs: nat -> Env, ops: seq<Op>)
    requires forall k :: Balances(envs(k))
    decreases |ops|, 0
  {
    ops == [] ||
    (Possible(envs, ops[..|ops| - 1]) && Enabled(Run(envs, ops[..|ops| - 1]), ops[|ops| - 1]))
  }

  /** The state they lead to; the k-th call is made in the k-th environment. */
  ghost function Run(envs: nat -> Env, ops: seq<Op>): (s: State)
    requires (forall k :: Balances(envs(k))) && Possible(envs, ops)
    ensures Valid(s)
    decreases |ops|, 1
  {
    if ops == [] then EMPTY
    else
      var before := Run(envs, ops[..|ops| - 1]);
      StepKeeps(envs(|ops| - 1), before, ops[|ops| - 1]);
      Step(envs(|ops| - 1), before, ops[|ops| - 1])
  }

  /** In every reachable state the caches agree with what they abbreviate. */
  lemma RunKeeps(envs: nat -> Env, ops: seq<Op>)
    requires (forall k :: Balances(envs(k))) && Possible(envs, ops)
    ensures var s := Run(envs, ops);
            && (forall q: nat :: q in s.queues ==> (s.queues[q].next.None? <==> s.queues[q].sort == []))
            && (forall q: nat :: q in s.queues ==> (s.queues[q].onRr <==> s.queues[q].sort != []))
            && (forall q: nat :: q in Inorder(s.tree) <==> q in s.queues && s.queues[q].onRr)
            && s.busy == |Inorder(s.tree)| && Unique(Inorder(s.tree))
            && (s.left.Some? ==> s.tree.Branch? && s.left.id == First(s.tree))
  {
    var s := Run(envs, ops);
    forall q: nat | q in s.queues
      ensures (s.queues[q].next.None? <==> s.queues[q].sort == []) && (s.queues[q].onRr <==> s.queues[q].sort != [])
    {
      assert QueueOk(s.queues[q]);
    }
    LeafIsEmpty(s.tree);
    if s.tree.Branch? {
      FirstIsFirst(s.tree);
    }
  }
}
