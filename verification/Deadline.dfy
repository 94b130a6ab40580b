/** deadline_data, updated in place as the source does it. */
module Deadline {
  import opened RequestLists
  import opened DeadlineSpec
  import opened DeadlineProofs

  class DeadlineData {
    const tunables: Tunables
    var sortList: seq<seq<Node>>
    var fifoList: seq<seq<Wait>>
    var nextRq: seq<Next>
    var batching: nat
    var starved: nat
    var lastSector: nat
    var moved: seq<Moved>     // handed to elv_dispatch_add_tail
    ghost var lastTime: int   // a time not later than the next call's

    constructor (tunables: Tunables, now: int)
      requires Proper(tunables)
      ensures Valid() && View() == EMPTY && lastTime == now && this.tunables == tunables
    {
      this.tunables := tunables;
      sortList, fifoList, nextRq := [[], []], [[], []], [None, None];
      batching, starved, lastSector, moved, lastTime := 0, 0, 0, [], now;
    }

    ghost function View(): State
      reads this
    {
      State(sortList, fifoList, nextRq, batching, starved, lastSector, moved)
    }

    ghost predicate Valid()
      reads this
    {
      DeadlineProofs.Valid(tunables, View(), lastTime)
    }

    /** deadline_remove_request, deadline_del_rq_rb. */
    method RemoveRequest(d: nat, id: nat)
      requires Shaped(View()) && Dir(d) && Queued(View(), d, id)
      modifies this`nextRq, this`sortList, this`fifoList
      ensures View() == Remove(old(View()), d, id)
    {
      fifoList := fifoList[d := Cut(fifoList[d], Turn(fifoList[d], id))];
      if nextRq[d] == Some(id) {
        nextRq := nextRq[d := Latter(sortList[d], id)];
      }
      sortList := sortList[d := Cut(sortList[d], Rank(sortList[d], id))];
    }

    /** deadline_move_request. */
    method MoveRequest(d: nat, id: nat)
      requires Shaped(View()) && Dir(d) && Queued(View(), d, id)
      modifies this`nextRq, this`sortList, this`fifoList, this`lastSector, this`moved
      ensures View() == Move(old(View()), d, id)
    {
      hide Cut, Latter;
      nextRq := [None, None];
      nextRq := nextRq[d := Latter(sortList[d], id)];
      var rq := sortList[d][Rank(sortList[d], id)];
      lastSector := rq.sector + rq.nr;
      moved := moved + [Moved(d, id)];
      RemoveRequest(d, id);
    }

    /** deadline_add_rq_rb. */
    method AddRqRb(d: nat, rq: Node)
      requires Shaped(View()) && Dir(d) && AliasQueued(sortList[d], fifoList[d], rq.sector)
      modifies this`nextRq, this`sortList, this`fifoList, this`lastSector, this`moved
      ensures View() == AddRb(old(View()), d, rq)
    {
      var i := Place(sortList[d], rq.sector);
      if HasAlias(sortList[d], rq.sector) {
        hide Cut, Latter, Place;
        MoveRequest(d, sortList[d][i].id);
      }
      sortList := sortList[d := Put(sortList[d], i, rq)];
    }

    /** deadline_add_request. */
    method AddRequest(d: nat, rq: Node, now: int)
      requires Valid() && Dir(d) && lastTime <= now && !InSort(sortList[d], rq.id)
      modifies this
      ensures Valid() && lastTime == now
      ensures AliasQueued(old(sortList[d]), old(fifoList[d]), rq.sector) && View() == Add(tunables, old(View()), d, rq, now)
    {
      hide Indexed, Timed, InSort, Place, Cut, Latter;
      AddKeeps(tunables, View(), d, rq, lastTime, now);
      AddRqRb(d, rq);
      fifoList := fifoList[d := fifoList[d] + [Wait(rq.id, now + tunables.fifoExpire[d])]];
      lastTime := now;
    }

    /** deadline_merged_request after a front merge of n sectors. */
    method MergedRequest(d: nat, id: nat, n: nat)
      requires Valid() && Dir(d) && Rank(sortList[d], id) < |sortList[d]| && n <= sortList[d][Rank(sortList[d], id)].sector
      modifies this
      ensures Valid() && lastTime == old(lastTime)
      ensures var q := old(sortList[d]);
              && AliasQueued(Cut(q, Rank(q, id)), old(fifoList[d]), q[Rank(q, id)].sector - n)
              && View() == FrontMerge(old(View()), d, id, n)
    {
      hide AddRb, Indexed, Timed, AliasQueued, Cut;
      FrontMergeKeeps(tunables, View(), d, id, n, lastTime);
      var i := Rank(sortList[d], id);
      var rq := sortList[d][i];
      sortList := sortList[d := Cut(sortList[d], i)];
      AddRqRb(d, Node(id, rq.sector - n, rq.nr + n));
    }

    /** deadline_merged_requests: next has been merged into req. */
    method MergedRequests(d: nat, req: nat, next: nat)
      requires Valid() && Dir(d) && req != next
      requires Rank(sortList[d], req) < |sortList[d]| && Rank(sortList[d], next) < |sortList[d]|
      modifies this
      ensures Valid() && lastTime == old(lastTime)
      ensures Mergeable(old(View()), d, req, next) && View() == MergeRequests(old(View()), d, req, next)
    {
      MergeRequestsKeeps(tunables, View(), d, req, next, lastTime);
      hide Indexed, Timed, Cut, Put, Rank, Turn;
      var rq, nr := Rank(sortList[d], req), sortList[d][Rank(sortList[d], next)].nr;
      sortList := sortList[d := sortList[d][rq := sortList[d][rq].(nr := sortList[d][rq].nr + nr)]];
      fifoList := fifoList[d := FifoMerged(fifoList[d], req, next)];
      RemoveRequest(d, next);
    }

    /** deadline_check_fifo: looking at the first request tells whether any has expired. */
    method CheckFifo(d: nat, now: int) returns (r: bool)
      requires Shaped(View()) && Dir(d) && fifoList[d] != []
      ensures r == Expired(View(), d, now)
      ensures Valid() ==> (r <==> exists k :: 0 <= k < |fifoList[d]| && now > fifoList[d][k].expire)
    {
      hide DeadlineProofs.Valid;
      if DeadlineProofs.Valid(tunables, View(), lastTime) {
        HeadTellsExpiry(tunables, View(), d, lastTime, now);
      }
      r := now > fifoList[d][0].expire;
    }

    /** dispatch_find_request and dispatch_request. */
    method FindRequest(d: nat, now: int)
      requires Ready(View()) && Dir(d) && fifoList[d] != []
      modifies this`nextRq, this`sortList, this`fifoList, this`lastSector, this`moved, this`batching
      ensures View() == Find(old(View()), d, now)
    {
      hide Move, Queued;
      var expired := CheckFifo(d, now);
      var id;
      if expired || nextRq[d].None? {
        id := fifoList[d][0].id;
      } else {
        id := nextRq[d].id;
      }
      ghost var s := View();
      SameListsSameQueue(s, s.(batching := 1));
      batching := 0;
      batching := batching + 1;
      MoveRequest(d, id);
    }

    /** The first part of deadline_dispatch_requests: is the batch still running? */
    method RunBatch() returns (running: bool)
      requires Proper(tunables) && Ready(View())
      modifies this`nextRq, this`sortList, this`fifoList, this`lastSector, this`moved, this`batching
      ensures running <==> Choose(tunables, old(View())).GoOn?
      ensures var s := old(View());
              var v := s.(batching := BatchCount(tunables, s));
              if running then Queued(v, AheadDir(s), Ahead(s).id) && View() == Move(v.(batching := v.batching + 1), AheadDir(s), Ahead(s).id)
              else View() == v
    {
      hide Move;
      ghost var s := View();
      var d, rq := READ, nextRq[READ];
      if nextRq[WRITE].Some? {
        d, rq := WRITE, nextRq[WRITE];
      }
      running := false;
      if rq.Some? {
        if lastSector != sortList[d][Rank(sortList[d], rq.id)].sector {
          batching := batching + tunables.fifoBatch;
        }
        if batching < tunables.fifoBatch {
          batching := batching + 1;
          MoveRequest(d, rq.id);
          running := true;
        }
      }
    }

    /** deadline_dispatch_requests: returns the number of requests moved. */
    method DispatchRequests(now: int) returns (n: nat)
      requires Valid() && lastTime <= now
      modifies this
      ensures Valid() && lastTime == now && Ready(old(View())) && View() == Dispatch(tunables, old(View()), now)
      ensures n == 0 <==> old(fifoList[READ] == [] && fifoList[WRITE] == [])
    {
      hide Indexed, Timed, Move, Find, Queued, Choose, BatchCount, Begun, Dispatch;
      ghost var s := View();
      DispatchOk(s, now);
      var anyReads, anyWrites := fifoList[READ] != [], fifoList[WRITE] != [];
      lastTime := now;
      var running := RunBatch();
      if running {
        n := 1;
      } else {
        SameListsReady(s, View());
        ghost var v := View();
        n := NewBatch(anyReads, anyWrites, now);
        BegunIsDispatch(s, v, now, View());
      }
    }

    lemma DispatchOk(s: State, now: int)
      requires DeadlineProofs.Valid(tunables, s, lastTime) && lastTime <= now
      ensures Ready(s) && DeadlineProofs.Valid(tunables, Dispatch(tunables, s, now), now)
      ensures Choose(tunables, s).GoOn? ==> s.fifo[READ] != [] || s.fifo[WRITE] != []
      ensures Choose(tunables, s).GoOn? ==>
                var v := s.(batching := BatchCount(tunables, s) + 1);
                Queued(v, AheadDir(s), Ahead(s).id) && Dispatch(tunables, s, now) == Move(v, AheadDir(s), Ahead(s).id)
    {
      DispatchKeeps(tunables, s, lastTime, now);
      ChoiceMeans(tunables, s, lastTime);
      hide Indexed, Timed, Move, Find, Queued, BatchCount;
      SameListsSameQueue(s, s.(batching := BatchCount(tunables, s) + 1));
    }

    lemma BegunIsDispatch(s: State, v: State, now: int, u: State)
      requires Proper(tunables) && Ready(s) && Ready(v) && !Choose(tunables, s).GoOn?
      requires v == s.(batching := BatchCount(tunables, s)) && Begun(v, now, u)
      ensures u == Dispatch(tunables, s, now)
    {
      hide Find, Queued, BatchCount;
    }

    /** The part of deadline_dispatch_requests that is not running a batch. */
    method NewBatch(anyReads: bool, anyWrites: bool, now: int) returns (n: nat)
      requires Proper(tunables) && Ready(View()) && anyReads == (fifoList[READ] != []) && anyWrites == (fifoList[WRITE] != [])
      modifies this`nextRq, this`sortList, this`fifoList, this`lastSector, this`moved, this`batching, this`starved
      ensures n == 0 <==> !anyReads && !anyWrites
      ensures Begun(old(View()), now, View())
    {
      hide Find, Queued;
      ghost var s := View();
      if anyReads {
        var starve := false;
        if anyWrites {
          starve := starved >= Unsigned(tunables.writesStarved);
          starved := starved + 1;
        }
        if !starve {
          SameListsReady(s, View());
          FindRequest(READ, now);
          return 1;
        }
      }
      if anyWrites {
        starved := 0;
        SameListsReady(s, View());
        FindRequest(WRITE, now);
        return 1;
      }
      return 0;
    }

    /** What becomes of s when no batch is running. */
    ghost predicate Begun(s: State, now: int, u: State)
      requires Proper(tunables) && Ready(s)
    {
      var anyReads, anyWrites := s.fifo[READ] != [], s.fifo[WRITE] != [];
      if anyReads && !(anyWrites && s.starved >= Unsigned(tunables.writesStarved)) then
        var v := s.(starved := if anyWrites then s.starved + 1 else s.starved);
        SameListsReady(s, v);
        u == Find(v, READ, now)
      else if anyWrites then
        SameListsReady(s, s.(starved := 0));
        u == Find(s.(starved := 0), WRITE, now)
      else u == s
    }
  }

  lemma SameListsReady(s: State, u: State)
    requires Ready(s) && Shaped(u) && u.sort == s.sort && u.fifo == s.fifo && u.next == s.next
    ensures Ready(u)
  {
    SameListsSameQueue(s, u);
    hide Queued;
  }
}
