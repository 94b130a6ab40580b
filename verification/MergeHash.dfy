/** The elevator's part of a request queue, updated in place, and its runs. */
module MergeHash {
  import opened UniqueLists
  import opened MergeHashSpec
  import opened MergeHashProofs
  import opened MergeHashCover

  // ---------- runs ----------

  datatype Op = Make(bio: Bio, id: nat) | Out(id: nat)

  ghost predicate Enabled(env: Env, s: State, op: Op)
  {
    match op
    case Make(bio, id) => id !in s.held && FindsFront(env, s, bio)
    case Out(id) => id in s.held
  }

  ghost function Step(env: Env, s: State, op: Op): State
    requires Valid(s) && Enabled(env, s, op)
  {
    match op
    case Make(bio, id) => ValidIsReady(s); MakeRequest(env, s, bio, id)
    case Out(id) => DispatchKeeps(s, id); Dispatch(s, id)
  }

  ghost predicate Possible(envs: nat -> Env, ops: seq<Op>)
    decreases |ops|, 0
  {
    ops == [] ||
    (Possible(envs, ops[..|ops| - 1]) && Enabled(envs(|ops| - 1), Run(envs, ops[..|ops| - 1]), ops[|ops| - 1]))
  }

  /** The state after some bios and dispatches, each in an environment of its own. */
  ghost function Run(envs: nat -> Env, ops: seq<Op>): (s: State)
    requires Possible(envs, ops)
    ensures Valid(s)
    decreases |ops|, 1
  {
    if ops == [] then StartsValid(); START
    else
      var before := Run(envs, ops[..|ops| - 1]);
      StepKeeps(envs(|ops| - 1), before, ops[|ops| - 1]);
      Step(envs(|ops| - 1), before, ops[|ops| - 1])
  }

  ghost predicate Asked(op: Op, write: bool, disk: nat, x: nat) {
    op.Make? && InBio(op.bio, write, disk, x)
  }

  lemma StepKeeps(env: Env, s: State, op: Op)
    requires Valid(s) && Enabled(env, s, op)
    ensures Valid(Step(env, s, op))
    ensures forall write, disk, x: nat ::
      Times(Step(env, s, op), write, disk, x) == Times(s, write, disk, x) + Once(Asked(op, write, disk, x))
  {
    hide Valid, Times, MakeRequest, Dispatch, InBio, FindsFront;
    match op
    case Make(bio, id) => MakeRequestOk(env, s, bio, id);
    case Out(id) =>
      DispatchKeeps(s, id);
      forall write, disk, x: nat ensures Times(Step(env, s, op), write, disk, x) == Times(s, write, disk, x) {
        DispatchTransfers(s, id, write, disk, x);
      }
  }

  /** How many bios ask for the sector. */
  ghost function AskedTimes(ops: seq<Op>, write: bool, disk: nat, x: nat): nat {
    if ops == [] then 0
    else AskedTimes(ops[..|ops| - 1], write, disk, x) + Once(Asked(ops[|ops| - 1], write, disk, x))
  }

  /** In every reachable state the look-up agrees with a scan, last_merge is held, and nr_sorted counts the requests held. */
  lemma RunFinds(envs: nat -> Env, ops: seq<Op>, offset: nat)
    requires Possible(envs, ops)
    ensures var s := Run(envs, ops);
            && s.sorted == |s.held| && (s.last.At? ==> s.last.id in s.held) && Holds(s)
            && (Find(s, offset).1.At? <==> exists id: nat :: EndsAt(s, id, offset))
            && (Find(s, offset).1.At? ==> EndsAt(s, Find(s, offset).1.id, offset))
  {
    FindAgrees(Run(envs, ops), offset);
    hide HashOk, Find, Holds, Possible, Run, EndsAt;
  }

  /** Conservation: the requests held or dispatched transfer each sector exactly as often as bios asked for it, overlapping
    * bios included. */
  lemma {:induction false} RunTransfers(envs: nat -> Env, ops: seq<Op>, write: bool, disk: nat, x: nat)
    requires Possible(envs, ops)
    ensures Times(Run(envs, ops), write, disk, x) == AskedTimes(ops, write, disk, x)
  {
    hide Valid, Times, Step, Enabled, Asked;
    if ops == [] {
      NoneTransferred(write, disk, x);
    } else {
      var rest, op := ops[..|ops| - 1], ops[|ops| - 1];
      RunTransfers(envs, rest, write, disk, x);
      StepKeeps(envs(|ops| - 1), Run(envs, rest), op);
    }
  }

  lemma NoneTransferred(write: bool, disk: nat, x: nat)
    ensures Times(START, write, disk, x) == 0
  {
    assert HeldHits(map[], write, disk, x) == {};
  }

  // ---------- a request that hides another ----------

  const PLAIN := Env((_, _) => true, _ => true, (_, _) => true, NoRq, NoRq, NoRq, NoRq, false)

  /** Requests for different places, one after the other, are all kept apart. */
  lemma MakeApart(ops: seq<Op>, s: State, bio: Bio, id: nat) returns (t: State)
    requires Possible(_ => PLAIN, ops) && s == Run(_ => PLAIN, ops) && id !in s.held
    requires forall x :: x in s.held ==> End(s.held[x]) != bio.sector && s.held[x].sector != bio.sector + bio.nr
    ensures Possible(_ => PLAIN, ops + [Make(bio, id)]) && t == Run(_ => PLAIN, ops + [Make(bio, id)])
    ensures t.held == s.held[id := FromBio(bio)] && t.last == (if s.last == NoRq then At(id) else s.last) && |t.hash| == 64
    ensures var c := t.hash[Bucket(bio.sector + bio.nr)]; c != [] && c[0] == id
  {
    hide Run, Bucket, Find, Ready;
    ValidIsReady(s);
    FindAgrees(s, bio.sector);
    hide Valid;
    OneMoreOp(ops, Make(bio, id));
    t := Run(_ => PLAIN, ops + [Make(bio, id)]);
    assert (ops + [Make(bio, id)])[..|ops|] == ops;
    KeptApart(s, bio, id);
  }

  lemma OneMoreOp(ops: seq<Op>, op: Op)
    requires Possible(_ => PLAIN, ops) && Enabled(PLAIN, Run(_ => PLAIN, ops), op)
    ensures Possible(_ => PLAIN, ops + [op]) && Run(_ => PLAIN, ops + [op]) == Step(PLAIN, Run(_ => PLAIN, ops), op)
  {
    hide Enabled, Step;
    assert (ops + [op])[..|ops|] == ops;
  }

  lemma KeptApart(s: State, bio: Bio, id: nat)
    requires Ready(s) && id !in s.held && Valid(s)
    requires forall x :: x in s.held ==> End(s.held[x]) != bio.sector && s.held[x].sector != bio.sector + bio.nr
    ensures FindsFront(PLAIN, s, bio)
    ensures var t := MergeHashSpec.MakeRequest(PLAIN, s, bio, id);
            && t.held == s.held[id := FromBio(bio)] && t.last == (if s.last == NoRq then At(id) else s.last) && |t.hash| == 64
            && var c := t.hash[Bucket(bio.sector + bio.nr)]; c != [] && c[0] == id
  {
    FindAgrees(s, bio.sector);
    hide Bucket, Find, Ready, Valid;
  }

  const OLD := Bio(100, 8, false, 0)
  const READS := Bio(0, 8, false, 0)
  const WRITES := Bio(0, 8, true, 0)

  /** A reachable state, and a bio that one of the requests could be merged with, for which nothing is offered: a request of
    * the other direction ends at the same sector, and came later. */
  lemma OneHidesAnother() returns (ops: seq<Op>, s: State, bio: Bio)
    ensures Possible(_ => PLAIN, ops) && s == Run(_ => PLAIN, ops) && Ready(s)
    ensures exists id: nat :: EndsAt(s, id, bio.sector) && MergeOk(PLAIN, id, s.held[id], bio)
    ensures Look(PLAIN, s, bio).1 == NoMerge
  {
    hide Possible, Run, Bucket, Valid;
    assert Possible(_ => PLAIN, []) && Run(_ => PLAIN, []) == START by { NoOps(); }
    var s1 := MakeApart([], START, OLD, 0);
    var s2 := MakeApart([] + [Make(OLD, 0)], s1, READS, 1);
    var s3 := MakeApart([] + [Make(OLD, 0)] + [Make(READS, 1)], s2, WRITES, 2);
    var before := [] + [Make(OLD, 0)] + [Make(READS, 1)] + [Make(WRITES, 2)];
    OneMoreOp(before, Out(0));
    ops := before + [Out(0)];
    s := Run(_ => PLAIN, ops);
    bio := Bio(8, 8, false, 0);
    HeldApart(s3, s);
    ValidIsReady(s);
    FirstIsHit(s, 8, 2);
    assert EndsAt(s, 1, bio.sector) && MergeOk(PLAIN, 1, s.held[1], bio);
    hide Find, Ready;
  }

  lemma NoOps()
    ensures Possible(_ => PLAIN, []) && Run(_ => PLAIN, []) == START
  {
  }

  lemma HeldApart(s: State, t: State)
    requires s.held == map[0 := FromBio(OLD), 1 := FromBio(READS), 2 := FromBio(WRITES)] && s.last == At(0) && |s.hash| == 64
    requires s.hash[Bucket(8)] != [] && s.hash[Bucket(8)][0] == 2 && Valid(s) && t == Step(PLAIN, s, Out(0))
    ensures t.held == map[1 := FromBio(READS), 2 := FromBio(WRITES)] && t.last == NoRq && |t.hash| == 64
    ensures t.hash[Bucket(8)] != [] && t.hash[Bucket(8)][0] == 2
  {
    hide Bucket, Valid;
  }

  // ---------- in place ----------

  class Elevator {
    var held: map<nat, Rq>
    var hash: seq<seq<nat>>
    var lastMerge: Slot
    var nrSorted: nat
    var dispatched: seq<Rq>

    constructor ()
      ensures View() == START && Valid()
    {
      held, hash, lastMerge, nrSorted, dispatched := map[], seq(64, _ => []), NoRq, 0, [];
      new;
      StartsValid();
    }

    ghost function View(): State
      reads this
    {
      State(held, hash, lastMerge, nrSorted, dispatched)
    }

    ghost predicate Valid()
      reads this
    {
      MergeHashProofs.Valid(View())
    }

    /** elv_rqhash_find. */
    method RqhashFind(offset: nat) returns (rq: Slot)
      requires Holds(View())
      modifies this`hash
      ensures View() == Find(old(View()), offset).0 && rq == Find(old(View()), offset).1
    {
      var b := Bucket(offset);
      var kept, rest := [], hash[b];
      rq := NoRq;
      while rest != [] && rq == NoRq
        invariant forall id :: id in rest ==> id in held
        invariant rq == NoRq ==> Walk(hash[b], held, offset).chain == kept + Walk(rest, held, offset).chain
        invariant rq == NoRq ==> Walk(hash[b], held, offset).hit == Walk(rest, held, offset).hit
        invariant rq != NoRq ==> Walk(hash[b], held, offset) == Found(kept + rest, rq)
        decreases |rest|, rq == NoRq
      {
        var id := rest[0];
        if !Mergeable(held[id]) {
          rest := rest[1..];
        } else if End(held[id]) == offset {
          rq := At(id);
        } else {
          kept, rest := kept + [id], rest[1..];
        }
      }
      hash := hash[b := kept + rest];
    }

    /** elv_insert with ELEVATOR_INSERT_SORT, before the scheduler is told. */
    method InsertSort(id: nat, rq: Rq)
      requires Valid() && id !in held
      modifies this
      ensures Valid() && View() == Insert(old(View()), id, rq)
    {
      InsertKeeps(View(), id, rq);
      hide MergeHashProofs.Valid, HashAdd, OnHash;
      held := held[id := rq];
      nrSorted := nrSorted + 1;
      if Mergeable(rq) {
        hash := HashAdd(hash, id, End(rq));
        if lastMerge == NoRq {
          lastMerge := At(id);
        }
      }
    }

    /** elv_dispatch_add_tail, or elv_dispatch_sort. */
    method DispatchRequest(id: nat)
      requires Valid() && id in held
      modifies this
      ensures Valid() && View() == Dispatch(old(View()), id) && !OnHash(hash, id)
    {
      DispatchKeeps(View(), id);
      hide MergeHashProofs.Valid, HashDel, OnHash;
      if lastMerge == At(id) {
        lastMerge := NoRq;
      }
      hash := HashDel(hash, id);
      nrSorted := nrSorted - 1;
      dispatched := dispatched + [held[id]];
      held := held - {id};
    }

    /** elv_merge. */
    method Merge(env: Env, bio: Bio) returns (m: MergeHashSpec.Merge)
      requires Ready(View())
      modifies this`hash
      ensures View() == Look(env, old(View()), bio).0 && m == Look(env, old(View()), bio).1
    {
      hide Find;
      if lastMerge.At? {
        m := TryMerge(env, lastMerge.id, held[lastMerge.id], bio);
        if m != NoMerge {
          return;
        }
      }
      var rq := RqhashFind(bio.sector);
      if rq.At? && rq.id in held && MergeOk(env, rq.id, held[rq.id], bio) {
        return Back(rq.id);
      }
      m := if env.other.At? then Front(env.other.id) else NoMerge;
    }

    /** elv_merged_request: the scheduler is told first. */
    method MergedRequest(env: Env, id: nat, back: bool)
      requires |hash| == 64 && id in held && (held != map[] ==> nrSorted > 0)
      modifies this
      ensures View() == (var u := MakeRoom(env, old(View()), id);
                         if back then u.(hash := Reposition(u.hash, id, End(u.held[id])), last := At(id)) else u.(last := At(id)))
    {
      hide HashAdd, HashDel;
      if env.alias.At? && env.alias.id in held && env.alias.id != id {
        var a := env.alias.id;
        lastMerge := Forget(lastMerge, a);
        hash := HashDel(hash, a);
        nrSorted := nrSorted - 1;
        dispatched := dispatched + [held[a]];
        held := held - {a};
      }
      if back {
        hash := Reposition(hash, id, End(held[id]));
      }
      lastMerge := At(id);
    }

    /** attempt_merge. */
    method AttemptMerge(env: Env, req: nat, next: nat) returns (joined: bool)
      requires |hash| == 64 && nrSorted > 0
      modifies this
      ensures joined == Joins(env, old(View()), req, next)
      ensures View() == if joined then Join(old(View()), req, next) else old(View())
    {
      hide HashDel, Reposition;
      if req !in held || next !in held || req == next || !Mergeable(held[req]) || !Mergeable(held[next]) {
        return false;
      }
      if End(held[req]) != held[next].sector {
        return false;
      }
      if held[req].write != held[next].write || held[req].disk != held[next].disk || held[next].special {
        return false;
      }
      if !env.joins(req, next) {
        return false;
      }
      held := held[req := held[req].(nr := held[req].nr + held[next].nr)];
      hash := Reposition(hash, req, End(held[req]));
      hash := HashDel(hash, next);
      held := held - {next};
      nrSorted := nrSorted - 1;
      lastMerge := At(req);
      joined := true;
    }

    /** The back merge of __make_request. */
    method BackMergeBio(env: Env, id: nat, n: nat)
      requires Valid() && Ready(View()) && id in held
      modifies this
      ensures View() == Appended(env, old(View()), id, n)
    {
      hide HashDel, HashAdd, Reposition, Join, Joins, MakeRoom, MergeHashProofs.Valid;
      held := held[id := held[id].(nr := held[id].nr + n)];
      var joined := false;
      if env.latter.At? {
        joined := AttemptMerge(env, id, env.latter.id);
      }
      if !joined {
        MergedRequest(env, id, true);
        RoomLeaves(env, old(View()).(held := old(held)[id := old(held)[id].(nr := old(held)[id].nr + n)]), id);
      }
    }

    /** The front merge of __make_request. */
    method FrontMergeBio(env: Env, id: nat, n: nat)
      requires Valid() && Ready(View()) && id in held && n <= held[id].sector
      modifies this
      ensures View() == Prepended(env, old(View()), id, n)
    {
      hide HashDel, HashAdd, Reposition, Join, Joins, MakeRoom, MergeHashProofs.Valid;
      held := held[id := held[id].(sector := held[id].sector - n, nr := held[id].nr + n)];
      var joined := false;
      if env.former.At? {
        joined := AttemptMerge(env, env.former.id, id);
      }
      if !joined {
        MergedRequest(env, id, false);
      }
    }

    /** __make_request of a bio that is no barrier. */
    method MakeRequest(env: Env, bio: Bio, id: nat)
      requires Valid() && id !in held && FindsFront(env, View(), bio)
      modifies this
      ensures Valid() && Ready(old(View())) && View() == MergeHashSpec.MakeRequest(env, old(View()), bio, id)
    {
      MakeRequestOk(env, View(), bio, id);
      LookAgrees(env, View(), bio);
      hide MergeHashProofs.Valid, Ready, Look, Insert, Appended, Prepended, Refuse, Times, InBio, AllAllow, EndsAt, MergeOk, FindsFront;
      if env.idle && held == map[] {
        InsertSort(id, FromBio(bio));
        return;
      }
      var m := Merge(env, bio);
      ValidIsReady(View());
      match m
      case NoMerge => InsertSort(id, FromBio(bio));
      case Back(r) =>
        if env.fits(r) {
          BackMergeBio(env, r, bio.nr);
        } else {
          RefuseMerge(r);
          InsertSort(id, FromBio(bio));
        }
      case Front(r) =>
        if env.fits(r) {
          FrontMergeBio(env, r, bio.nr);
        } else {
          RefuseMerge(r);
          InsertSort(id, FromBio(bio));
        }
    }

    /** ll_back_merge_fn and ll_front_merge_fn when a limit is exceeded. */
    method RefuseMerge(id: nat)
      requires Valid() && id in held
      modifies this`held, this`lastMerge
      ensures Valid() && View() == Refuse(old(View()), id) && held.Keys == old(held).Keys
    {
      RefuseKeeps(View(), id);
      hide MergeHashProofs.Valid;
      held := held[id := held[id].(nomerge := true)];
      if lastMerge == At(id) {
        lastMerge := NoRq;
      }
    }
  }

  lemma RoomLeaves(env: Env, s: State, id: nat)
    requires id in s.held && s.sorted > 0
    ensures id in MakeRoom(env, s, id).held && MakeRoom(env, s, id).held[id] == s.held[id]
  {
  }
}
