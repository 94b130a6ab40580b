/** cfq_data, updated in place, and the forced dispatch that drains it. */
module Cfq {
  import opened RequestLists
  import opened ServiceTree
  import opened UniqueLists
  import opened CfqSpec
  import opened CfqProofs

  /** What was queued at first is now either moved, once, or still queued. */
  ghost predicate Accounts(was: map<nat, Queue>, now: map<nat, Queue>, out: seq<Moved>) {
    && now.Keys == was.Keys
    && (forall i, j :: 0 <= i < j < |out| ==> out[i] != out[j])
    && (forall m :: m in out ==> m.q in was && InSort(was[m.q].sort, m.id) && !InSort(now[m.q].sort, m.id))
    && (forall q: nat, id: nat :: q in was && InSort(was[q].sort, id) && !InSort(now[q].sort, id) ==> Moved(q, id) in out)
    && (forall q: nat, id: nat :: q in was && InSort(now[q].sort, id) ==> InSort(was[q].sort, id))
  }

  lemma AccountsAtFirst(was: map<nat, Queue>)
    ensures Accounts(was, was, [])
  {
  }

  lemma AccountsMore(was: map<nat, Queue>, now: map<nat, Queue>, next: map<nat, Queue>, out: seq<Moved>, q: nat, id: nat)
    requires Accounts(was, now, out) && q in was && next.Keys == was.Keys && InSort(now[q].sort, id)
    requires forall x: nat :: x in was && x != q ==> next[x].sort == now[x].sort
    requires forall x: nat :: InSort(next[q].sort, x) <==> InSort(now[q].sort, x) && x != id
    ensures Accounts(was, next, out + [Moved(q, id)])
  {
    var r := out + [Moved(q, id)];
    assert Moved(q, id) !in out;
    hide InSort;
    forall i, j | 0 <= i < j < |r| ensures r[i] != r[j] {
      if j == |out| {
        assert r[i] in out;
      }
    }
    forall m | m in r ensures m.q in was && InSort(was[m.q].sort, m.id) && !InSort(next[m.q].sort, m.id) {
      if m in out {
        assert !InSort(now[m.q].sort, m.id);
      }
    }
    forall x: nat, y: nat | x in was && InSort(was[x].sort, y) && !InSort(next[x].sort, y) ensures Moved(x, y) in r {
      if InSort(now[x].sort, y) {
        assert r[|out|] == Moved(x, y);
      } else {
        assert Moved(x, y) in out;
      }
    }
  }

  class CfqData {
    var queues: map<nat, Queue>
    var serviceTree: Tree
    var left: Next
    var busyQueues: nat
    var moved: seq<Moved>

    constructor ()
      ensures CfqProofs.Valid(View()) && View() == EMPTY
    {
      queues, serviceTree, left, busyQueues, moved := map[], Leaf, None, 0, [];
    }

    ghost function View(): State
      reads this
    {
      State(queues, serviceTree, left, busyQueues, moved)
    }

    ghost predicate Valid()
      reads this
    {
      CfqProofs.Valid(View())
    }

    /** A queue for a new task. */
    method NewQueue(q: nat)
      requires Valid() && q !in queues
      modifies this`queues
      ensures Valid() && queues == old(queues)[q := Queue([], [], None, false)]
    {
      queues := queues[q := Queue([], [], None, false)];
    }

    /** cfq_rb_first. */
    method RbFirst() returns (n: Next)
      requires TreeOk(View())
      modifies this`left
      ensures View() == CfqSpec.RbFirst(old(View())) && TreeOk(View()) && n == left
      ensures if Inorder(serviceTree) == [] then n == None else n == Some(Inorder(serviceTree)[0])
    {
      RbFirstOk(View());
      if left.None? {
        if serviceTree.Branch? {
          left := Some(First(serviceTree));
        }
      }
      n := left;
    }

    /** cfq_rb_erase. */
    method RbErase(env: Env, q: nat)
      modifies this`left, this`serviceTree
      ensures View() == CfqSpec.RbErase(env, old(View()), q)
    {
      if left == Some(q) {
        left := None;
      }
      serviceTree := env.shape(Without(Inorder(serviceTree), q));
    }

    /** cfq_service_tree_add: the descent notes whether it has gone left all the way. */
    method ServiceTreeAdd(env: Env, q: nat)
      modifies this`left, this`serviceTree
      ensures View() == TreeAdd(env, old(View()), q)
    {
      if q in Inorder(serviceTree) {
        if env.same {
          return;
        }
        RbErase(env, q);
      }
      var isLeft, p := true, serviceTree;
      while p.Branch?
        invariant AllLeft(serviceTree, env.goes) <==> isLeft && AllLeft(p, env.goes)
        decreases p
      {
        if env.goes(p.q) {
          p := p.left;
        } else {
          isLeft := false;
          p := p.right;
        }
      }
      if isLeft {
        left := Some(q);
      }
      serviceTree := env.shape(Inorder(Insert(serviceTree, q, env.goes)));
    }

    /** cfq_resort_rr_list. */
    method ResortRrList(env: Env, q: nat)
      requires q in queues
      modifies this`left, this`serviceTree
      ensures View() == Resort(env, old(View()), q)
    {
      hide TreeAdd;
      if queues[q].onRr {
        ServiceTreeAdd(env, q);
      }
    }

    /** cfq_add_cfqq_rr. */
    method AddCfqqRr(env: Env, q: nat)
      requires q in queues && !queues[q].onRr
      modifies this`queues, this`busyQueues, this`left, this`serviceTree
      ensures View() == AddRr(env, old(View()), q) && q in queues
    {
      hide Resort;
      queues := queues[q := queues[q].(onRr := true)];
      busyQueues := busyQueues + 1;
      ResortRrList(env, q);
    }

    /** cfq_del_cfqq_rr. */
    method DelCfqqRr(env: Env, q: nat)
      requires q in queues && queues[q].onRr && busyQueues > 0
      modifies this`queues, this`busyQueues, this`left, this`serviceTree
      ensures View() == DelRr(env, old(View()), q)
    {
      hide CfqSpec.RbErase;
      queues := queues[q := queues[q].(onRr := false)];
      if q in Inorder(serviceTree) {
        RbErase(env, q);
      }
      busyQueues := busyQueues - 1;
    }

    /** cfq_remove_request, cfq_del_rq_rb. */
    method RemoveRequest(env: Env, q: nat, id: nat)
      requires Has(View(), q, id) && (queues[q].onRr ==> busyQueues > 0)
      modifies this`queues, this`busyQueues, this`left, this`serviceTree
      ensures View() == Remove(env, old(View()), q, id)
    {
      hide DelRr, Cut, FindNext, Rank, Turn;
      var c := queues[q];
      if c.next == Some(id) {
        c := c.(next := FindNext(env, c.sort, id));
      }
      c := c.(fifo := Cut(c.fifo, Turn(c.fifo, id)));
      c := c.(sort := Cut(c.sort, Rank(c.sort, id)));
      queues := queues[q := c];
      if c.onRr && c.sort == [] {
        DelCfqqRr(env, q);
      }
    }

    /** cfq_dispatch_insert. */
    method DispatchInsert(env: Env, q: nat, id: nat)
      requires Has(View(), q, id) && (queues[q].onRr ==> busyQueues > 0)
      modifies this
      ensures View() == CfqSpec.DispatchInsert(env, old(View()), q, id)
    {
      hide Remove;
      RemoveRequest(env, q, id);
      moved := moved + [Moved(q, id)];
    }

    /** cfq_add_rq_rb. */
    method AddRqRb(env: Env, q: nat, rq: Node)
      requires CanAdd(View(), q, rq.sector)
      modifies this
      ensures View() == AddRb(env, old(View()), q, rq)
    {
      hide Place, Put, AddRr, CfqSpec.Choose;
      var i := Place(queues[q].sort, rq.sector);
      if HasAlias(queues[q].sort, rq.sector) {
        DispatchInsert(env, q, queues[q].sort[i].id);
      }
      queues := queues[q := queues[q].(sort := Put(queues[q].sort, i, rq))];
      if !queues[q].onRr {
        AddCfqqRr(env, q);
      }
      queues := queues[q := queues[q].(next := CfqSpec.Choose(env, queues[q].next, Some(rq.id)))];
    }

    /** cfq_insert_request. */
    method InsertRequest(env: Env, q: nat, rq: Node, now: int)
      requires Balances(env) && Valid() && q in queues && !InSort(queues[q].sort, rq.id)
      modifies this
      ensures Valid() && queues.Keys == old(queues).Keys
      ensures CanAdd(old(View()), q, rq.sector) && View() == Add(env, old(View()), q, rq, now)
    {
      InsertRequestOk(env, View(), q, rq, now);
      hide AddRb;
      AddRqRb(env, q, rq);
      queues := queues[q := queues[q].(fifo := queues[q].fifo + [Wait(rq.id, now)])];
    }

    /** cfq_merged_request after a front merge of n sectors. */
    method MergedRequest(env: Env, q: nat, id: nat, n: nat)
      requires Balances(env) && Valid() && q in queues && Rank(queues[q].sort, id) < |queues[q].sort|
      requires n <= queues[q].sort[Rank(queues[q].sort, id)].sector
      modifies this
      ensures Valid() && queues.Keys == old(queues).Keys
      ensures CanAdd(TakeOut(old(View()), q, id), q, old(queues[q].sort[Rank(queues[q].sort, id)].sector) - n)
      ensures View() == FrontMerge(env, old(View()), q, id, n)
    {
      hide AddRb, CfqProofs.Valid;
      FrontMergeOk(env, View(), q, id, n);
      ghost var s := View();
      var rq := queues[q].sort[Rank(queues[q].sort, id)];
      queues := queues[q := queues[q].(sort := Cut(queues[q].sort, Rank(queues[q].sort, id)))];
      assert View() == TakeOut(s, q, id);
      AddRqRb(env, q, Node(id, rq.sector - n, rq.nr + n));
      assert View() == FrontMerge(env, s, q, id, n);
    }

    /** __cfq_forced_dispatch_cfqq; the FIFO is empty at the end. */
    method ForcedDispatchCfqq(envs: nat -> Env, q: nat, ghost was: map<nat, Queue>, ghost out: seq<Moved>)
      returns (dispatched: nat, ghost out': seq<Moved>)
      requires (forall k :: Balances(envs(k))) && Valid() && q in queues && Accounts(was, queues, out)
      modifies this
      ensures Valid() && Accounts(was, queues, out') && queues[q].sort == [] && queues[q].fifo == [] && queues[q].next == None
      ensures forall x :: x in queues && x != q ==> x in old(queues) && queues[x] == old(queues[x])
      ensures queues.Keys == old(queues).Keys
      ensures |out'| == |out| + dispatched && out <= out' && moved == old(moved) + out'[|out|..]
      ensures dispatched == |old(queues[q].sort)|
    {
      hide CfqProofs.Valid, Accounts, InSort, Balances;
      dispatched, out' := 0, out;
      NextMeans(View(), q);
      while queues[q].next != None
        invariant Valid() && q in queues && queues.Keys == old(queues).Keys && Accounts(was, queues, out')
        invariant queues[q].next == None <==> queues[q].sort == []
        invariant forall x :: x in queues && x != q ==> x in old(queues) && queues[x] == old(queues[x])
        invariant |out'| == |out| + dispatched && out <= out' && moved == old(moved) + out'[|out|..]
        invariant dispatched + |queues[q].sort| == |old(queues[q].sort)|
        decreases |queues[q].sort|
      {
        out' := DispatchNext(envs(dispatched), q, was, out');
        dispatched := dispatched + 1;
        NextMeans(View(), q);
      }
      EmptyFifo(View(), q);
    }

    /** The leftmost queue by the cache, which stays valid. */
    method NextQueue() returns (n: Next)
      requires Valid()
      modifies this`left
      ensures Valid() && (n.None? <==> Inorder(serviceTree) == []) && (n.Some? ==> n.id in OnRr(queues))
    {
      RbFirstValid(View(), CfqSpec.RbFirst(View()));
      FirstQueue(View());
      hide CfqProofs.Valid, CfqSpec.RbFirst;
      assert TreeOk(View()) by { ValidTree(View()); }
      n := RbFirst();
    }

    /** cfq_forced_dispatch: every queued request is dispatched exactly once, and no queue stays busy. */
    method ForcedDispatch(envs: nat -> Env, active: Next) returns (dispatched: nat, ghost out: seq<Moved>)
      requires (forall k :: Balances(envs(k))) && Valid() && (active.Some? ==> active.id in queues)
      modifies this
      ensures Valid() && busyQueues == 0 && Inorder(serviceTree) == []
      ensures forall q :: q in queues ==> queues[q].sort == []
      ensures moved == old(moved) + out && dispatched == |out| && Accounts(old(queues), queues, out)
    {
      hide CfqProofs.Valid, Accounts, Balances, OnRr;
      dispatched, out := 0, [];
      AccountsAtFirst(queues);
      var n := NextQueue();
      while n != None
        invariant Valid() && (n.None? <==> Inorder(serviceTree) == []) && (n.Some? ==> n.id in OnRr(queues))
        invariant Accounts(old(queues), queues, out) && queues.Keys == old(queues).Keys
        invariant moved == old(moved) + out && dispatched == |out|
        decreases OnRr(queues)
      {
        ghost var before, were := out, queues;
        OnRrQueued(queues, n.id);
        var k;
        k, out := ForcedDispatchCfqq(envs, n.id, old(queues), out);
        OffRr(were, View(), n.id);
        dispatched := dispatched + k;
        assert out == before + out[|before|..];
        n := NextQueue();
      }
      FirstQueue(View());
      if active.Some? {
        NoneOnRr(View(), active.id);
        ResortRrList(envs(0), active.id);
      }
    }

    /** One round of the loop: the next request is dispatched. */
    method DispatchNext(env: Env, q: nat, ghost was: map<nat, Queue>, ghost out: seq<Moved>) returns (ghost out': seq<Moved>)
      requires Balances(env) && Valid() && q in queues && queues[q].next.Some? && Accounts(was, queues, out)
      modifies this
      ensures Valid() && queues.Keys == old(queues).Keys && Accounts(was, queues, out')
      ensures |queues[q].sort| == |old(queues[q].sort)| - 1
      ensures forall x :: x in queues && x != q ==> x in old(queues) && queues[x] == old(queues[x])
      ensures exists m :: out' == out + [m] && moved == old(moved) + [m]
    {
      ghost var s := View();
      var id := queues[q].next.id;
      NextMeans(s, q);
      HasOk(s, q, id);
      RemoveOk(env, s, q, id);
      hide CfqProofs.Valid, Has, Remove, Rank, Accounts, InSort, Cut;
      DispatchInsert(env, q, id);
      MovedOnly(Remove(env, s, q, id), View());
      out' := out + [Moved(q, id)];
      CutFromSort(s, View(), q, id);
      AccountsMore(was, s.queues, queues, out, q, id);
    }
  }

  /** The queues on the round-robin list. */
  function OnRr(queues: map<nat, Queue>): set<nat> {
    set q | q in queues && queues[q].onRr
  }

  lemma FirstQueue(s: State)
    requires CfqProofs.Valid(s)
    ensures Inorder(s.tree) != [] ==> Inorder(s.tree)[0] in OnRr(s.queues)
    ensures Inorder(s.tree) == [] ==> s.busy == 0 && OnRr(s.queues) == {} && forall q :: q in s.queues ==> s.queues[q].sort == []
  {
    if Inorder(s.tree) != [] {
      assert Inorder(s.tree)[0] in Inorder(s.tree);
    } else {
      forall q | q in s.queues ensures !s.queues[q].onRr && s.queues[q].sort == [] {
        assert QueueOk(s.queues[q]);
      }
    }
  }

  lemma OffRr(was: map<nat, Queue>, s: State, q: nat)
    requires CfqProofs.Valid(s) && s.queues.Keys == was.Keys && q in OnRr(was) && s.queues[q].sort == []
    requires forall x :: x in s.queues && x != q ==> s.queues[x] == was[x]
    ensures OnRr(s.queues) < OnRr(was)
  {
    assert QueueOk(s.queues[q]);
    assert q !in OnRr(s.queues);
  }

  lemma ValidTree(s: State)
    requires CfqProofs.Valid(s)
    ensures TreeOk(s)
  {
  }

  lemma OnRrQueued(queues: map<nat, Queue>, q: nat)
    requires q in OnRr(queues)
    ensures q in queues
  {
  }

  lemma NoneOnRr(s: State, q: nat)
    requires CfqProofs.Valid(s) && q in s.queues && OnRr(s.queues) == {}
    ensures !s.queues[q].onRr
  {
    if s.queues[q].onRr {
      var onRr := q in OnRr(s.queues);
    }
  }

  lemma RbFirstValid(s: State, u: State)
    requires CfqProofs.Valid(s) && u == CfqSpec.RbFirst(s)
    ensures CfqProofs.Valid(u) && u.queues == s.queues && u.tree == s.tree && u.moved == s.moved
  {
    RbFirstOk(s);
    hide TreeOk, QueueOk;
  }

  lemma NextMeans(s: State, q: nat)
    requires CfqProofs.Valid(s) && q in s.queues
    ensures s.queues[q].next == None <==> s.queues[q].sort == []
    ensures s.queues[q].next.Some? ==> InSort(s.queues[q].sort, s.queues[q].next.id)
    ensures s.queues[q].next.Some? ==> Rank(s.queues[q].sort, s.queues[q].next.id) < |s.queues[q].sort|
    ensures UniqueSort(s.queues[q].sort)
  {
    assert QueueOk(s.queues[q]);
    if s.queues[q].next.Some? {
      RankIn(s.queues[q].sort, s.queues[q].next.id);
    }
  }

  lemma EmptyFifo(s: State, q: nat)
    requires CfqProofs.Valid(s) && q in s.queues && s.queues[q].sort == []
    ensures s.queues[q].fifo == []
  {
    assert QueueOk(s.queues[q]);
    var f := s.queues[q].fifo;
    if f != [] {
      var head := f[0];
      var queued := InFifo(f, head.id);
    }
  }

  lemma MovedOnly(s: State, u: State)
    requires CfqProofs.Valid(s) && u == s.(moved := u.moved)
    ensures CfqProofs.Valid(u)
  {
    SameTree(s, u);
    hide TreeOk, QueueOk;
  }

  lemma CutFromSort(s: State, u: State, q: nat, id: nat)
    requires q in s.queues && q in u.queues && UniqueSort(s.queues[q].sort) && Rank(s.queues[q].sort, id) < |s.queues[q].sort|
    requires u.queues[q].sort == Cut(s.queues[q].sort, Rank(s.queues[q].sort, id))
    ensures forall x: nat :: InSort(u.queues[q].sort, x) <==> InSort(s.queues[q].sort, x) && x != id
    ensures |u.queues[q].sort| == |s.queues[q].sort| - 1
  {
    var i := Rank(s.queues[q].sort, id);
    forall x: nat ensures InSort(u.queues[q].sort, x) <==> InSort(s.queues[q].sort, x) && x != id {
      CutSort(s.queues[q].sort, i, x);
    }
  }
}
