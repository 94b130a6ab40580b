/** generic_make_request: submissions from within a make_request callback are put on a list instead of being nested. */
module BioSubmission {
  import opened BioOrder

  class Bio {
    const tree: Tree
    var next: Bio?

    constructor (tree: Tree)
      ensures this.tree == tree && next == null
    {
      this.tree := tree;
      next := null;
    }
  }

  /** current->bio_tail: NULL, the address of bio_list, or the address of the bi_next of a bio. */
  datatype Tail = Inactive | ListField | NextOf(bio: Bio)

  ghost function At(bios: seq<Bio>, k: nat): Bio? {
    if k < |bios| then bios[k] else null
  }

  ghost function Trees(bios: seq<Bio>): seq<Tree> {
    seq(|bios|, i requires 0 <= i < |bios| => bios[i].tree)
  }

  /** Different bios, each linked to the next one. */
  ghost predicate Linked(bios: seq<Bio>)
    reads bios
  {
    && (forall i, j :: 0 <= i < j < |bios| ==> bios[i] != bios[j])
    && (forall i :: 0 <= i < |bios| ==> bios[i].next == At(bios, i + 1))
  }

  class Task {
    var bioList: Bio?
    var bioTail: Tail
    var served: seq<nat>
    /** A make_request callback is running. */
    var running: bool
    ghost var waiting: seq<Bio>

    constructor ()
      ensures bioTail == Inactive && served == [] && !running && waiting == []
    {
      bioList, bioTail, served, running, waiting := null, Inactive, [], false, [];
    }

    /** The list holds the waiting bios, and the tail pointer addresses its last link. */
    ghost predicate Active()
      reads this`bioList, this`bioTail, this`waiting, waiting
    {
      && Linked(waiting)
      && bioList == At(waiting, 0)
      && bioTail == if waiting == [] then ListField else NextOf(waiting[|waiting| - 1])
    }

    /** generic_make_request. */
    method GenericMakeRequest(bio: Bio)
      requires bio.next == null && bio !in waiting
      requires bioTail == Inactive ==> waiting == [] && !running
      requires bioTail != Inactive ==> Active()
      modifies this, waiting, bio
      ensures old(bioTail) == Inactive ==>
        bioTail == Inactive && waiting == [] && !running && served == old(served) + Served([bio.tree])
      ensures old(bioTail) != Inactive ==>
        Active() && bioTail != Inactive && waiting == old(waiting) + [bio] && served == old(served) && running == old(running)
      decreases if bioTail == Inactive then 2 else 0, 0
    {
      if bioTail != Inactive {
        Append(bio);
        return;
      }
      ServeAll(bio);
      bioTail := Inactive;
    }

    /** The bio is put behind the last link. */
    method Append(bio: Bio)
      requires Active() && bio !in waiting
      modifies this`bioList, this`bioTail, this`waiting, waiting, bio
      ensures Active() && bioTail != Inactive && waiting == old(waiting) + [bio]
    {
      ghost var more := waiting + [bio];
      assert forall k: nat :: At(more, k) == if k == |waiting| then bio else At(waiting, k);
      if bioTail.ListField? {
        bioList := bio;
      } else {
        var last := bioTail.bio;
        last.next := bio;
      }
      bio.next := null;
      bioTail := NextOf(bio);
      waiting := more;
    }

    /** The loop of generic_make_request. */
    method ServeAll(first: Bio)
      requires bioTail == Inactive && waiting == [] && !running && first.next == null
      modifies this, first
      ensures waiting == [] && !running && bioList == null && served == old(served) + Served([first.tree])
      decreases 1, 3
    {
      var bio: Bio? := first;
      ghost var list := [first];
      assert Trees(list) == [first.tree];
      while bio != null
        invariant !running && OnList(bio, list) && (forall k :: 0 <= k < |list| ==> list[k] == first || fresh(list[k]))
        invariant bio == null ==> waiting == [] && bioList == null
        invariant served + Served(Trees(list)) == old(served) + Served([first.tree])
        decreases Sizes(Trees(list))
      {
        list := ServeOne(bio, list);
        bio := bioList;
      }
      assert Trees(list) == [];
    }

    /** What generic_make_request has at the head of its loop: bio, and the rest of the list by its links. */
    ghost predicate OnList(bio: Bio?, list: seq<Bio>)
      reads this`bioTail, list
    {
      && Linked(list)
      && bio == At(list, 0)
      && (|list| > 1 ==> bioTail == NextOf(list[|list| - 1]))
    }

    /** One round: bio is taken off, its callback runs, and what that submits is behind the rest. */
    method ServeOne(bio: Bio, ghost list: seq<Bio>) returns (ghost list': seq<Bio>)
      requires !running && OnList(bio, list) && list != []
      modifies this, list
      ensures !running && OnList(bioList, list') && waiting == list'
      ensures served + Served(Trees(list')) == old(served) + Served(Trees(list))
      ensures Sizes(Trees(list')) < Sizes(Trees(list))
      ensures |list| - 1 <= |list'| && forall k :: 0 <= k < |list| - 1 ==> list'[k] == list[k + 1]
      ensures forall k :: |list| - 1 <= k < |list'| ==> fresh(list'[k])
      decreases 1, 2
    {
      ghost var before := served;
      TakeOff(bio, list);
      MakeRequest(bio);
      list' := waiting;
      RoundServes(list, list', bio.tree, before);
      assert OnList(bioList, list') by { hide Linked, Submitted; }
      hide Active, Linked, Submitted;
    }

    /** bio is unlinked; when it was the last one, the tail pointer starts anew. */
    method TakeOff(bio: Bio, ghost list: seq<Bio>)
      requires OnList(bio, list) && list != []
      modifies this`bioList, this`bioTail, this`waiting, bio
      ensures Active() && waiting == list[1..] && list[0] == bio && bio !in waiting
    {
      ghost var rest := list[1..];
      assert forall k: nat :: At(rest, k) == At(list, k + 1);
      assert forall i :: 0 <= i < |rest| ==> rest[i].next == At(list, i + 2);
      bioList := bio.next;
      waiting := rest;
      if bio.next == null {
        bioTail := ListField;
      } else {
        bio.next := null;
      }
    }

    /** A round serves the head of the list, and leaves to be served what a first-in first-out list would. */
    static lemma RoundServes(list: seq<Bio>, list': seq<Bio>, tree: Tree, before: seq<nat>)
      requires list != [] && list[0].tree == tree && Submitted(list[1..], list', tree.kids, |tree.kids|)
      ensures before + [tree.id] + Served(Trees(list')) == before + Served(Trees(list))
      ensures Sizes(Trees(list')) < Sizes(Trees(list))
    {
      var ts := Trees(list);
      assert Trees(list[1..]) == ts[1..];
      assert tree.kids[..|tree.kids|] == tree.kids;
      SizesOf(ts);
      assert before + [tree.id] + Served(Trees(list')) == before + ([tree.id] + Served(Trees(list')));
    }

    /** __generic_make_request with a callback that submits the kids of the bio, each by generic_make_request. It is never
      * entered while another is running. */
    method MakeRequest(bio: Bio)
      requires Active() && !running && bio !in waiting
      modifies this, waiting
      ensures Active() && !running && served == old(served) + [bio.tree.id]
      ensures Submitted(old(waiting), waiting, bio.tree.kids, |bio.tree.kids|)
      ensures |old(waiting)| <= |waiting| && forall k :: 0 <= k < |old(waiting)| ==> waiting[k] == old(waiting)[k]
      ensures forall k :: |old(waiting)| <= k < |waiting| ==> fresh(waiting[k])
      decreases 1, 1
    {
      NoMore(waiting, bio.tree.kids);
      assert bioTail != Inactive;
      hide Submitted, Trees, Active, Served, At;
      running := true;
      served := served + [bio.tree.id];
      var kids := bio.tree.kids;
      var i := 0;
      ghost var was := waiting;
      while i < |kids|
        invariant i <= |kids| && Active() && running && bioTail != Inactive && served == old(served) + [bio.tree.id]
        invariant Submitted(was, waiting, kids, i) && |was| <= |waiting| && (forall k :: 0 <= k < |was| ==> waiting[k] == was[k])
        invariant forall k :: |was| <= k < |waiting| ==> fresh(waiting[k])
      {
        SubmitKid(kids, i, was);
        i := i + 1;
      }
      running := false;
    }

    /** The list has grown by bios for the first n of these trees. */
    static ghost predicate Submitted(was: seq<Bio>, now: seq<Bio>, kids: seq<Tree>, n: nat) {
      n <= |kids| && |now| == |was| + n && now[..|was|] == was && Trees(now) == Trees(was) + kids[..n]
    }

    static lemma NoMore(was: seq<Bio>, kids: seq<Tree>)
      ensures Submitted(was, was, kids, 0)
    {
    }

    static lemma OneMore(was: seq<Bio>, now: seq<Bio>, kids: seq<Tree>, n: nat, kid: Bio)
      requires Submitted(was, now, kids, n) && n < |kids| && kid.tree == kids[n]
      ensures Submitted(was, now + [kid], kids, n + 1)
    {
      assert Trees(now + [kid]) == Trees(now) + [kid.tree];
    }

    /** A callback submits one more bio: it is only put on the list. */
    method SubmitKid(kids: seq<Tree>, n: nat, ghost was: seq<Bio>)
      requires Active() && bioTail != Inactive && Submitted(was, waiting, kids, n) && n < |kids|
      modifies this, waiting
      ensures Active() && bioTail != Inactive && served == old(served) && running == old(running)
      ensures Submitted(was, waiting, kids, n + 1)
      ensures |old(waiting)| <= |waiting| && forall k :: 0 <= k < |old(waiting)| ==> waiting[k] == old(waiting)[k]
      ensures forall k :: |old(waiting)| <= k < |waiting| ==> fresh(waiting[k])
      decreases 1, 0
    {
      var kid := new Bio(kids[n]);
      OneMore(was, waiting, kids, n, kid);
      hide Submitted;
      GenericMakeRequest(kid);
    }
  }
}
