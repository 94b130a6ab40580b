/** What every operation of CFQ keeps: the caches agree with the lists and trees they abbreviate. */
module CfqProofs {
  import opened RequestLists
  import opened ServiceTree
  import opened UniqueLists
  import opened CfqSpec

  // ---------- the service tree ----------

  /** The cached leftmost node is the leftmost node, or none is cached. */
  predicate Cached(t: Tree, left: Next) {
    Unique(Inorder(t)) && (left.Some? ==> Inorder(t) != [] && left.id == Inorder(t)[0])
  }

  /** The tree holds exactly the queues on the round-robin list, and busy counts them. */
  ghost predicate TreeOk(s: State) {
    && Cached(s.tree, s.left)
    && |Inorder(s.tree)| == s.busy
    && forall q: nat :: q in Inorder(s.tree) <==> q in s.queues && s.queues[q].onRr
  }

  lemma LeafIsEmpty(t: Tree)
    ensures Inorder(t) == [] <==> t.Leaf?
  {
    if t.Branch? {
      FirstIsFirst(t);
    }
  }

  /** The cache answers as rb_first would. */
  lemma RbFirstOk(s: State)
    requires TreeOk(s)
    ensures var u := RbFirst(s);
            && TreeOk(u) && u == s.(left := u.left)
            && (if Inorder(s.tree) == [] then u.left == None else u.left == Some(Inorder(s.tree)[0]))
  {
    LeafIsEmpty(s.tree);
    if s.tree.Branch? {
      FirstIsFirst(s.tree);
    }
  }

  lemma EraseCached(env: Env, s: State, q: nat)
    requires Balances(env) && Cached(s.tree, s.left) && q in Inorder(s.tree)
    ensures var u := RbErase(env, s, q);
            && Cached(u.tree, u.left) && |Inorder(u.tree)| == |Inorder(s.tree)| - 1 && q !in Inorder(u.tree)
            && (forall x :: x in Inorder(u.tree) <==> x in Inorder(s.tree) && x != q)
            && u == s.(left := u.left, tree := u.tree)
  {
    WithoutIs(Inorder(s.tree), q);
    hide Without;
  }

  lemma InsertCached(env: Env, s: State, q: nat)
    requires Balances(env) && Cached(s.tree, s.left) && q !in Inorder(s.tree)
    ensures var u := TreeAdd(env, s, q);
            && Cached(u.tree, u.left) && |Inorder(u.tree)| == |Inorder(s.tree)| + 1
            && (forall x :: x in Inorder(u.tree) <==> x in Inorder(s.tree) || x == q)
            && u == s.(left := u.left, tree := u.tree)
  {
    InsertInorder(s.tree, q, env.goes);
    WithIs(Inorder(s.tree), Before(s.tree, env.goes), q);
    hide Insert, AllLeft, Before, Unique;
  }

  lemma TreeAddCached(env: Env, s: State, q: nat)
    requires Balances(env) && Cached(s.tree, s.left)
    ensures var u := TreeAdd(env, s, q);
            && Cached(u.tree, u.left) && |Inorder(u.tree)| == |Inorder(s.tree)| + (if q in Inorder(s.tree) then 0 else 1)
            && (forall x :: x in Inorder(u.tree) <==> x in Inorder(s.tree) || x == q)
            && u == s.(left := u.left, tree := u.tree)
  {
    if q !in Inorder(s.tree) {
      InsertCached(env, s, q);
    } else if !env.same {
      EraseCached(env, s, q);
      InsertCached(env, RbErase(env, s, q), q);
      hide Cached, Insert, AllLeft, Balances;
      assert TreeAdd(env, s, q) == TreeAdd(env, RbErase(env, s, q), q);
    }
  }

  lemma ResortOk(env: Env, s: State, q: nat)
    requires Balances(env) && TreeOk(s) && q in s.queues
    ensures TreeOk(Resort(env, s, q)) && Resort(env, s, q).queues == s.queues && Resort(env, s, q).moved == s.moved
  {
    TreeAddCached(env, s, q);
    hide Cached, TreeAdd;
  }

  lemma AddRrOk(env: Env, s: State, q: nat)
    requires Balances(env) && TreeOk(s) && q in s.queues && !s.queues[q].onRr
    ensures var u := AddRr(env, s, q);
            && TreeOk(u) && u.queues == s.queues[q := s.queues[q].(onRr := true)] && u.moved == s.moved
  {
    var v := s.(queues := s.queues[q := s.queues[q].(onRr := true)], busy := s.busy + 1);
    TreeAddCached(env, v, q);
    hide Cached, TreeAdd;
  }

  lemma DelRrOk(env: Env, s: State, q: nat)
    requires Balances(env) && TreeOk(s) && q in s.queues && s.queues[q].onRr
    ensures s.busy > 0
    ensures var u := DelRr(env, s, q);
            && TreeOk(u) && u.queues == s.queues[q := s.queues[q].(onRr := false)] && u.moved == s.moved
  {
    assert q in Inorder(s.tree);
    var v := s.(queues := s.queues[q := s.queues[q].(onRr := false)]);
    EraseCached(env, v, q);
    hide Cached, RbErase;
  }

  /** Changing a queue that stays on the list, or off it. */
  lemma QueueChangeOk(s: State, q: nat, c: Queue)
    requires TreeOk(s) && q in s.queues && c.onRr == s.queues[q].onRr
    ensures TreeOk(s.(queues := s.queues[q := c]))
  {
    hide Cached;
  }

  // ---------- one queue ----------

  /** next_rq is NULL exactly when nothing is queued, and otherwise names a queued request. */
  ghost predicate NextOk(c: Queue) {
    (c.next.None? <==> c.sort == []) && (c.next.Some? ==> InSort(c.sort, c.next.id))
  }

  ghost predicate QueueOk(c: Queue) {
    Agree(c.sort, c.fifo) && NextOk(c) && (c.onRr <==> c.sort != [])
  }

  ghost predicate Valid(s: State) {
    TreeOk(s) && forall q: nat :: q in s.queues ==> QueueOk(s.queues[q])
  }

  lemma FindNextOk(env: Env, q: seq<Node>, id: nat)
    requires UniqueSort(q) && Rank(q, id) < |q|
    ensures FindNext(env, q, id).None? <==> |q| == 1
    ensures FindNext(env, q, id).Some? ==> InSort(Cut(q, Rank(q, id)), FindNext(env, q, id).id) && FindNext(env, q, id).id != id
  {
    var i := Rank(q, id);
    var x := FindNext(env, q, id);
    if x.Some? {
      assert exists k :: 0 <= k < |q| && k != i && q[k].id == x.id by {
        if i + 1 < |q| && x.id == q[i + 1].id {
        } else if i > 0 && x.id == q[i - 1].id {
        } else {
          assert q[0].id == x.id;
        }
      }
      var k :| 0 <= k < |q| && k != i && q[k].id == x.id;
      assert InSort(q, x.id);
      CutSort(q, i, x.id);
    }
  }

  /** Taking a request: the lists agree, and the next pointer is as it should be. */
  lemma TakenOk(env: Env, c: Queue, id: nat)
    requires Agree(c.sort, c.fifo) && NextOk(c) && Rank(c.sort, id) < |c.sort|
    ensures Turn(c.fifo, id) < |c.fifo|
    ensures var r := Taken(env, c, id); Agree(r.sort, r.fifo) && NextOk(r) && r.onRr == c.onRr && |r.sort| == |c.sort| - 1
  {
    AgreeCut(c.sort, c.fifo, id);
    FindNextOk(env, c.sort, id);
    var i := Rank(c.sort, id);
    if c.next.Some? && c.next.id != id {
      CutSort(c.sort, i, c.next.id);
      var k :| 0 <= k < |c.sort| && c.sort[k].id == c.next.id;
      assert |c.sort| > 1;
    }
    hide Agree, FindNext, InSort;
  }

  // ---------- removing and dispatching ----------

  lemma HasOk(s: State, q: nat, id: nat)
    requires Valid(s) && q in s.queues && Rank(s.queues[q].sort, id) < |s.queues[q].sort|
    ensures Has(s, q, id) && s.queues[q].onRr && s.busy > 0
  {
    assert QueueOk(s.queues[q]);
    AgreeCut(s.queues[q].sort, s.queues[q].fifo, id);
    assert q in Inorder(s.tree);
  }

  lemma RemoveOk(env: Env, s: State, q: nat, id: nat)
    requires Balances(env) && Valid(s) && q in s.queues && Rank(s.queues[q].sort, id) < |s.queues[q].sort|
    ensures Has(s, q, id) && s.busy > 0 && Valid(Remove(env, s, q, id))
    ensures var u := Remove(env, s, q, id);
            && u.queues.Keys == s.queues.Keys && u.queues[q].sort == Cut(s.queues[q].sort, Rank(s.queues[q].sort, id))
            && u.moved == s.moved && forall x: nat :: x in s.queues && x != q ==> u.queues[x] == s.queues[x]
  {
    HasOk(s, q, id);
    var c := s.queues[q];
    assert QueueOk(c);
    TakenOk(env, c, id);
    var r := Taken(env, c, id);
    var v := s.(queues := s.queues[q := r]);
    QueueChangeOk(s, q, r);
    hide TreeOk, Agree, NextOk, Taken;
    if r.sort == [] {
      DelRrOk(env, v, q);
    }
  }

  // ---------- putting a request into the sort list ----------

  /** A queue while request id is not in its sort list, and perhaps already or still in its FIFO. */
  ghost predicate Partly(c: Queue, id: nat, extra: bool) {
    && SameBut(c.sort, c.fifo, id, extra)
    && (c.next.Some? ==> InSort(c.sort, c.next.id) || (extra && c.next.id == id))
    && (c.next.None? ==> c.sort == [])
    && (c.sort != [] ==> c.onRr) && (!extra && c.onRr ==> c.sort != [])
  }

  ghost predicate PartlyValid(s: State, q: nat, id: nat, extra: bool) {
    && TreeOk(s) && q in s.queues && Partly(s.queues[q], id, extra)
    && forall x: nat :: x in s.queues && x != q ==> QueueOk(s.queues[x])
  }

  lemma TakenPartly(env: Env, c: Queue, id: nat, extra: bool, a: nat)
    requires Partly(c, id, extra) && Rank(c.sort, a) < |c.sort|
    ensures Turn(c.fifo, a) < |c.fifo|
    ensures var r := Taken(env, c, a); r.onRr && Partly(r.(onRr := r.sort != []), id, extra) && |r.sort| == |c.sort| - 1
    ensures Taken(env, c, a).sort == Cut(c.sort, Rank(c.sort, a)) && Taken(env, c, a).fifo == Cut(c.fifo, Turn(c.fifo, a))
  {
    SameButCut(c.sort, c.fifo, id, extra, a);
    FindNextOk(env, c.sort, a);
    var i := Rank(c.sort, a);
    if c.next.Some? && c.next.id != a && InSort(c.sort, c.next.id) {
      CutSort(c.sort, i, c.next.id);
    }
    hide SameBut, FindNext, InSort;
  }

  /** The state after AddRb in terms of the state before. */
  ghost predicate RbAdded(s: State, u: State, q: nat, id: nat, extra: bool)
    requires q in s.queues
  {
    && TreeOk(u) && u.queues.Keys == s.queues.Keys
    && (forall x: nat :: x in s.queues && x != q ==> u.queues[x] == s.queues[x])
    && var c := u.queues[q];
       && AddedTo(s.queues[q].sort, s.queues[q].fifo, c.sort, c.fifo, id, extra)
       && c.onRr && c.next.Some? && InSort(c.sort, c.next.id)
  }

  lemma AddRbPlain(env: Env, s: State, q: nat, rq: Node, extra: bool)
    requires Balances(env) && PartlyValid(s, q, rq.id, extra) && !HasAlias(s.queues[q].sort, rq.sector)
    requires s.queues[q].onRr ==> s.busy > 0
    ensures CanAdd(s, q, rq.sector) && RbAdded(s, AddRb(env, s, q, rq), q, rq.id, extra)
  {
    hide TreeOk, SameBut, InSort, InFifo, AddedTo, Put, Place, Choose, AddRr, Balances, HasAlias, Cut;
    var c := s.queues[q];
    var r := Put(c.sort, Place(c.sort, rq.sector), rq);
    SameButPut(c.sort, c.fifo, rq, extra);
    PlainAdded(c.sort, c.fifo, rq, extra);
    ChosenQueued(env, c, rq, extra, r);
    var v := s.(queues := s.queues[q := c.(sort := r)]);
    QueueChangeOk(s, q, c.(sort := r));
    if !c.onRr {
      AddRrOk(env, v, q);
    }
    var w := if c.onRr then v else AddRr(env, v, q);
    var n := Choose(env, c.next, Some(rq.id));
    QueueChangeOk(w, q, w.queues[q].(next := n));
    NoAliasQueued(c, rq.sector);
  }

  lemma NoAliasQueued(c: Queue, sector: nat)
    requires !HasAlias(c.sort, sector)
    ensures AliasQueued(c.sort, c.fifo, sector)
  {
  }

  lemma PlainAdded(q: seq<Node>, f: seq<Wait>, rq: Node, extra: bool)
    requires SameBut(q, f, rq.id, extra) && !HasAlias(q, rq.sector)
    ensures AddedTo(q, f, Put(q, Place(q, rq.sector), rq), f, rq.id, extra)
  {
    SameButPut(q, f, rq, extra);
  }

  lemma ChosenQueued(env: Env, c: Queue, rq: Node, extra: bool, r: seq<Node>)
    requires Partly(c, rq.id, extra) && forall x: nat :: InSort(r, x) <==> x == rq.id || InFifo(c.fifo, x)
    ensures var n := Choose(env, c.next, Some(rq.id)); n.Some? && InSort(r, n.id)
  {
    if c.next.Some? && c.next.id != rq.id {
      assert InSort(c.sort, c.next.id) <==> InFifo(c.fifo, c.next.id);
    }
  }

  lemma OnRrBusy(s: State, q: nat)
    requires TreeOk(s) && q in s.queues && s.queues[q].onRr
    ensures s.busy > 0
  {
    assert q in Inorder(s.tree);
  }

  lemma AliasDispatched(env: Env, s: State, q: nat, rq: Node, extra: bool)
    requires Balances(env) && PartlyValid(s, q, rq.id, extra) && HasAlias(s.queues[q].sort, rq.sector)
    ensures CanAdd(s, q, rq.sector)
    ensures var sort := s.queues[q].sort;
            var i := Place(sort, rq.sector);
            && Has(s, q, sort[i].id)
            && var u := DispatchInsert(env, s, q, sort[i].id);
               && PartlyValid(u, q, rq.id, extra) && u.queues.Keys == s.queues.Keys
               && (forall x: nat :: x in s.queues && x != q ==> u.queues[x] == s.queues[x])
               && u.queues[q].sort == Cut(sort, i) && u.queues[q].fifo == Cut(s.queues[q].fifo, Turn(s.queues[q].fifo, sort[i].id))
  {
    var c := s.queues[q];
    var i := Place(c.sort, rq.sector);
    var a := c.sort[i].id;
    assert UniqueSort(c.sort);
    RankOf(c.sort, i);
    TakenPartly(env, c, rq.id, extra, a);
    OnRrBusy(s, q);
    var r := Taken(env, c, a);
    var v := s.(queues := s.queues[q := r]);
    QueueChangeOk(s, q, r);
    hide TreeOk, Partly, QueueOk, Taken;
    if r.sort == [] {
      DelRrOk(env, v, q);
    }
    var u := Remove(env, s, q, a);
    SameTree(u, u.(moved := u.moved + [Moved(q, a)]));
  }

  lemma SameTree(s: State, u: State)
    requires TreeOk(s) && u.queues == s.queues && u.tree == s.tree && u.left == s.left && u.busy == s.busy
    ensures TreeOk(u)
  {
  }

  lemma AddRbOk(env: Env, s: State, q: nat, rq: Node, extra: bool)
    requires Balances(env) && PartlyValid(s, q, rq.id, extra)
    ensures CanAdd(s, q, rq.sector) && RbAdded(s, AddRb(env, s, q, rq), q, rq.id, extra)
  {
    if s.queues[q].onRr {
      OnRrBusy(s, q);
    }
    if HasAlias(s.queues[q].sort, rq.sector) {
      AliasDispatched(env, s, q, rq, extra);
      var c := s.queues[q];
      var i := Place(c.sort, rq.sector);
      var u := DispatchInsert(env, s, q, c.sort[i].id);
      assert Sorted(c.sort);
      ClearedPlace(c.sort, rq.sector);
      if u.queues[q].onRr {
        OnRrBusy(u, q);
      }
      AddRbPlain(env, u, q, rq, extra);
      hide DispatchInsert, PartlyValid, TreeOk, SameBut;
      assert AddRb(env, s, q, rq) == AddRb(env, u, q, rq);
      AddedAfterAlias(c.sort, c.fifo, u.queues[q].sort, u.queues[q].fifo, AddRb(env, s, q, rq).queues[q], rq.id, extra, Turn(c.fifo, c.sort[i].id));
    } else {
      AddRbPlain(env, s, q, rq, extra);
    }
  }

  lemma AddedAfterAlias(q: seq<Node>, f: seq<Wait>, q1: seq<Node>, f1: seq<Wait>, c: Queue, id: nat, extra: bool, j: nat)
    requires j < |f| && f1 == Cut(f, j) && AddedTo(q1, f1, c.sort, c.fifo, id, extra) && c.fifo == f1
    ensures AddedTo(q, f, c.sort, c.fifo, id, extra)
  {
  }

  // ---------- the operations on whole states ----------

  lemma ValidIsPartly(s: State, q: nat, id: nat)
    requires Valid(s) && q in s.queues && !InSort(s.queues[q].sort, id)
    ensures PartlyValid(s, q, id, false)
  {
    assert QueueOk(s.queues[q]);
    AgreeIsSameBut(s.queues[q].sort, s.queues[q].fifo, id);
    hide TreeOk;
  }

  lemma InsertRequestOk(env: Env, s: State, q: nat, rq: Node, now: int)
    requires Balances(env) && Valid(s) && q in s.queues && !InSort(s.queues[q].sort, rq.id)
    ensures CanAdd(s, q, rq.sector) && Valid(Add(env, s, q, rq, now)) && Add(env, s, q, rq, now).queues.Keys == s.queues.Keys
  {
    hide Valid, PartlyValid, RbAdded, AddRb;
    ValidIsPartly(s, q, rq.id);
    AddRbOk(env, s, q, rq, false);
    var u := AddRb(env, s, q, rq);
    RbKeys(s, u, q, rq.id);
    InFifoToo(s, u, q, Wait(rq.id, now));
  }

  lemma RbKeys(s: State, u: State, q: nat, id: nat)
    requires q in s.queues && RbAdded(s, u, q, id, false)
    ensures u.queues.Keys == s.queues.Keys
  {
  }

  /** With its wait in the FIFO a new request is complete. */
  lemma InFifoToo(s: State, u: State, q: nat, w: Wait)
    requires PartlyValid(s, q, w.id, false) && RbAdded(s, u, q, w.id, false)
    ensures Valid(u.(queues := u.queues[q := u.queues[q].(fifo := u.queues[q].fifo + [w])]))
  {
    var c := u.queues[q];
    AppendWait(s.queues[q].sort, s.queues[q].fifo, c.sort, c.fifo, w);
    QueueChangeOk(u, q, c.(fifo := c.fifo + [w]));
    SomeSort(c.sort, c.next.id);
    hide TreeOk, Agree, InSort, AddedTo, Partly;
  }

  lemma SomeSort(q: seq<Node>, id: nat)
    requires InSort(q, id)
    ensures q != []
  {
  }

  lemma FrontMergeOk(env: Env, s: State, q: nat, id: nat, n: nat)
    requires Balances(env) && Valid(s) && q in s.queues && Rank(s.queues[q].sort, id) < |s.queues[q].sort|
    requires n <= s.queues[q].sort[Rank(s.queues[q].sort, id)].sector
    ensures CanAdd(TakeOut(s, q, id), q, s.queues[q].sort[Rank(s.queues[q].sort, id)].sector - n)
    ensures Valid(FrontMerge(env, s, q, id, n)) && FrontMerge(env, s, q, id, n).queues.Keys == s.queues.Keys
  {
    hide Valid, PartlyValid, RbAdded, AddRb;
    var rq := s.queues[q].sort[Rank(s.queues[q].sort, id)];
    var v := TakeOut(s, q, id);
    TakeOutOk(s, q, id);
    var x := Node(id, rq.sector - n, rq.nr + n);
    AddRbOk(env, v, q, x, true);
    BackInSort(v, AddRb(env, v, q, x), q, id);
  }

  /** With the request back in the sort list the queue is whole again. */
  lemma BackInSort(v: State, u: State, q: nat, id: nat)
    requires PartlyValid(v, q, id, true) && RbAdded(v, u, q, id, true)
    ensures Valid(u) && u.queues.Keys == v.queues.Keys
  {
    var c := u.queues[q];
    AddedAgree(v.queues[q].sort, v.queues[q].fifo, c.sort, c.fifo, id);
    SomeSort(c.sort, c.next.id);
    hide TreeOk, Agree, InSort, AddedTo, Partly;
  }

  lemma TakeOutOk(s: State, q: nat, id: nat)
    requires Valid(s) && q in s.queues && Rank(s.queues[q].sort, id) < |s.queues[q].sort|
    ensures PartlyValid(TakeOut(s, q, id), q, id, true)
  {
    var c := s.queues[q];
    assert QueueOk(c);
    TakenOut(c.sort, c.fifo, id);
    var i := Rank(c.sort, id);
    if c.next.Some? {
      CutSort(c.sort, i, c.next.id);
    }
    QueueChangeOk(s, q, c.(sort := Cut(c.sort, i)));
    hide TreeOk, SameBut, Agree, InSort;
  }

  lemma BackMergeOk(s: State, q: nat, id: nat, n: nat)
    requires Valid(s) && q in s.queues && Rank(s.queues[q].sort, id) < |s.queues[q].sort|
    ensures Valid(BackMerge(s, q, id, n)) && BackMerge(s, q, id, n).queues.Keys == s.queues.Keys
    ensures forall x: nat :: Rank(BackMerge(s, q, id, n).queues[q].sort, x) < |s.queues[q].sort| <==> Rank(s.queues[q].sort, x) < |s.queues[q].sort|
  {
    hide TreeOk, QueueOk, Agree, InSort, InFifo, Rank;
    var c := s.queues[q];
    var i := Rank(c.sort, id);
    var rq := c.sort[i].(nr := c.sort[i].nr + n);
    GrownQueue(c, i, rq);
    QueueChangeOk(s, q, c.(sort := c.sort[i := rq]));
    assert BackMerge(s, q, id, n) == s.(queues := s.queues[q := c.(sort := c.sort[i := rq])]);
  }

  lemma GrownQueue(c: Queue, i: nat, rq: Node)
    requires QueueOk(c) && i < |c.sort| && rq.id == c.sort[i].id && rq.sector == c.sort[i].sector
    ensures QueueOk(c.(sort := c.sort[i := rq]))
    ensures forall x: nat :: Rank(c.sort[i := rq], x) < |c.sort| <==> Rank(c.sort, x) < |c.sort|
  {
    hide Agree, InSort, Rank;
    GrownAgree(c.sort, c.fifo, i, rq);
  }

  lemma FifoMovedIds(f: seq<Wait>, req: nat, next: nat, id: nat)
    requires Turn(f, req) < |f| && Turn(f, next) < |f| && req != next && UniqueFifo(f)
    ensures UniqueFifo(FifoMoved(f, req, next))
    ensures InFifo(FifoMoved(f, req, next), id) <==> InFifo(f, id)
  {
    hide Turn, UniqueFifo, InFifo, Cut, Put;
    var i, j := Turn(f, req), Turn(f, next);
    TurnIn(f, req);
    if f[j].expire < f[i].expire {
      CutFifo(f, i, id);
      CutFifo(f, i, req);
      PutFifo(Cut(f, i), (if j < i then j else j - 1) + 1, f[i], id);
    }
  }

  lemma TurnGivenOk(s: State, q: nat, req: nat, next: nat)
    requires Valid(s) && Has(s, q, req) && Has(s, q, next) && req != next
    ensures Valid(TurnGiven(s, q, req, next))
  {
    var c := s.queues[q];
    assert QueueOk(c);
    var f := FifoMoved(c.fifo, req, next);
    FifoMovedIds(c.fifo, req, next, 0);
    forall id: nat ensures InSort(c.sort, id) <==> InFifo(f, id) {
      FifoMovedIds(c.fifo, req, next, id);
    }
    QueueChangeOk(s, q, c.(fifo := f));
    hide TreeOk, FifoMoved, InSort, InFifo;
  }

  /** cfq_merged_requests: req has grown by next, takes its turn if that was earlier, and next is removed. */
  lemma MergeRequestsOk(env: Env, s: State, q: nat, req: nat, next: nat)
    requires Balances(env) && Valid(s) && q in s.queues && req != next
    requires Rank(s.queues[q].sort, req) < |s.queues[q].sort| && Rank(s.queues[q].sort, next) < |s.queues[q].sort|
    ensures var u := BackMerge(s, q, req, s.queues[q].sort[Rank(s.queues[q].sort, next)].nr);
            && Has(u, q, req) && Has(u, q, next)
            && var v := TurnGiven(u, q, req, next);
               Has(v, q, next) && v.busy > 0 && Valid(Remove(env, v, q, next)) && Remove(env, v, q, next).queues.Keys == s.queues.Keys
  {
    hide Valid, Has, BackMerge, TurnGiven, Remove, Rank, Turn;
    var n := s.queues[q].sort[Rank(s.queues[q].sort, next)].nr;
    BackMergeOk(s, q, req, n);
    var u := BackMerge(s, q, req, n);
    SameLength(s, q, req, n);
    HasOk(u, q, req);
    HasOk(u, q, next);
    TurnGivenOk(u, q, req, next);
    var v := TurnGiven(u, q, req, next);
    SameSortTurn(u, q, req, next);
    RemoveOk(env, v, q, next);
  }

  lemma SameLength(s: State, q: nat, id: nat, n: nat)
    requires q in s.queues && Rank(s.queues[q].sort, id) < |s.queues[q].sort|
    ensures q in BackMerge(s, q, id, n).queues && |BackMerge(s, q, id, n).queues[q].sort| == |s.queues[q].sort|
  {
  }

  lemma SameSortTurn(s: State, q: nat, req: nat, next: nat)
    requires Has(s, q, req) && Has(s, q, next) && req != next
    ensures var v := TurnGiven(s, q, req, next);
            v.queues.Keys == s.queues.Keys && v.queues[q].sort == s.queues[q].sort && Rank(v.queues[q].sort, next) < |v.queues[q].sort|
  {
  }
}
