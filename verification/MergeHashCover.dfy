/** What a bio asks for is transferred once: merging neither loses, widens nor repeats it. */
module MergeHashCover {
  import opened UniqueLists
  import opened MergeHashSpec
  import opened MergeHashProofs

  predicate Hits(r: Rq, write: bool, disk: nat, x: nat) {
    r.write == write && r.disk == disk && r.sector <= x < End(r)
  }

  function Once(b: bool): nat {
    if b then 1 else 0
  }

  function HeldHits(held: map<nat, Rq>, write: bool, disk: nat, x: nat): set<nat> {
    set id | id in held && Hits(held[id], write, disk, x)
  }

  function OutHits(out: seq<Rq>, write: bool, disk: nat, x: nat): nat {
    if out == [] then 0 else OutHits(out[..|out| - 1], write, disk, x) + Once(Hits(out[|out| - 1], write, disk, x))
  }

  /** How many requests, held or dispatched, transfer the sector. */
  function Times(s: State, write: bool, disk: nat, x: nat): nat {
    |HeldHits(s.held, write, disk, x)| + OutHits(s.out, write, disk, x)
  }

  lemma AddedHits(held: map<nat, Rq>, id: nat, r: Rq, write: bool, disk: nat, x: nat)
    requires id !in held
    ensures |HeldHits(held[id := r], write, disk, x)| == |HeldHits(held, write, disk, x)| + Once(Hits(r, write, disk, x))
  {
    hide Hits;
    assert HeldHits(held[id := r], write, disk, x)
        == HeldHits(held, write, disk, x) + if Hits(r, write, disk, x) then {id} else {};
  }

  lemma RemovedHits(held: map<nat, Rq>, id: nat, write: bool, disk: nat, x: nat)
    requires id in held
    ensures |HeldHits(held, write, disk, x)| == |HeldHits(held - {id}, write, disk, x)| + Once(Hits(held[id], write, disk, x))
  {
    assert (held - {id})[id := held[id]] == held;
    AddedHits(held - {id}, id, held[id], write, disk, x);
  }

  lemma ReplacedHits(held: map<nat, Rq>, id: nat, r: Rq, write: bool, disk: nat, x: nat)
    requires id in held
    ensures |HeldHits(held[id := r], write, disk, x)| + Once(Hits(held[id], write, disk, x))
         == |HeldHits(held, write, disk, x)| + Once(Hits(r, write, disk, x))
  {
    RemovedHits(held, id, write, disk, x);
    assert (held - {id})[id := r] == held[id := r];
    AddedHits(held - {id}, id, r, write, disk, x);
  }

  lemma DispatchTransfers(s: State, id: nat, write: bool, disk: nat, x: nat)
    requires id in s.held && s.sorted > 0
    ensures Times(Dispatch(s, id), write, disk, x) == Times(s, write, disk, x)
  {
    RemovedHits(s.held, id, write, disk, x);
    assert (s.out + [s.held[id]])[..|s.out|] == s.out;
    hide HeldHits, HashDel, Hits;
  }

  lemma RoomTransfers(env: Env, s: State, id: nat, write: bool, disk: nat, x: nat)
    requires s.held != map[] ==> s.sorted > 0
    ensures Times(MakeRoom(env, s, id), write, disk, x) == Times(s, write, disk, x)
  {
    if env.alias.At? && env.alias.id in s.held && env.alias.id != id {
      DispatchTransfers(s, env.alias.id, write, disk, x);
    }
    hide Times, Dispatch;
  }

  /** Only held and out matter. */
  lemma SameTransfers(s: State, u: State, write: bool, disk: nat, x: nat)
    requires s.held == u.held && s.out == u.out
    ensures Times(s, write, disk, x) == Times(u, write, disk, x)
  {
  }

  /** Two adjacent requests and the one that replaces them transfer the same sectors, as often. */
  lemma JoinTransfers(s: State, req: nat, next: nat, write: bool, disk: nat, x: nat)
    requires req in s.held && next in s.held && req != next && |s.hash| == 64 && s.sorted > 0
    requires End(s.held[req]) == s.held[next].sector
    requires s.held[req].write == s.held[next].write && s.held[req].disk == s.held[next].disk
    ensures Times(Join(s, req, next), write, disk, x) == Times(s, write, disk, x)
  {
    var r := s.held[req].(nr := s.held[req].nr + s.held[next].nr);
    ReplacedHits(s.held, req, r, write, disk, x);
    RemovedHits(s.held[req := r], next, write, disk, x);
    assert Once(Hits(r, write, disk, x)) == Once(Hits(s.held[req], write, disk, x)) + Once(Hits(s.held[next], write, disk, x));
    hide HeldHits, Hits, HashDel, Reposition;
  }

  // ---------- elv_merge ----------

  /** The bio may be merged into every request that ends where it starts. */
  ghost predicate AllAllow(env: Env, s: State, bio: Bio) {
    forall id: nat :: EndsAt(s, id, bio.sector) ==> MergeOk(env, id, s.held[id], bio)
  }

  /** elv_merge only offers requests that the bio is adjacent to and may be merged into; and it offers one whenever some
    * request ends where the bio starts, provided those that do may all be merged with it. */
  lemma LookAgrees(env: Env, s: State, bio: Bio)
    requires Valid(s) && Ready(s) && FindsFront(env, s, bio)
    ensures var (u, m) := Look(env, s, bio);
            && Valid(u) && u == s.(hash := u.hash)
            && (m.Back? ==> m.id in s.held && MergeOk(env, m.id, s.held[m.id], bio) && End(s.held[m.id]) == bio.sector)
            && (m.Front? ==> m.id in s.held && MergeOk(env, m.id, s.held[m.id], bio) && s.held[m.id].sector == bio.sector + bio.nr)
            && (AllAllow(env, s, bio) && (exists id: nat :: EndsAt(s, id, bio.sector)) ==> m != NoMerge)
  {
    FindAgrees(s, bio.sector);
    hide Valid, Find, Ready, Holds;
  }

  /** Neither the last request merged into nor a front merge is on offer, so the hash decides. */
  predicate HashDecides(env: Env, s: State, bio: Bio)
    requires LastHeld(s)
  {
    env.other == NoRq && (s.last.At? ==> TryMerge(env, s.last.id, s.held[s.last.id], bio) == NoMerge)
  }

  /** The same requests, in whatever order they may be hashed. */
  ghost predicate Rehashed(s: State, u: State) {
    Valid(u) && Ready(u) && u.held == s.held && u.last == s.last
  }

  /** When the hash decides, a merge is offered in every order of its chains exactly if some request ends where the bio starts
    * and all that do may be merged with it: the first one on the chain is the only one asked. */
  lemma OfferedIff(env: Env, s: State, bio: Bio)
    requires Valid(s) && Ready(s) && HashDecides(env, s, bio)
    ensures (forall u: State :: Rehashed(s, u) ==> Look(env, u, bio).1 != NoMerge)
            <==> (exists id: nat :: EndsAt(s, id, bio.sector)) && AllAllow(env, s, bio)
  {
    if (exists id: nat :: EndsAt(s, id, bio.sector)) && AllAllow(env, s, bio) {
      forall u: State | Rehashed(s, u) ensures Look(env, u, bio).1 != NoMerge {
        SameEnding(env, s, u, bio);
        LookAgrees(env, u, bio);
      }
    } else if !exists id: nat :: EndsAt(s, id, bio.sector) {
      FindAgrees(s, bio.sector);
      assert Rehashed(s, s) && Look(env, s, bio).1 == NoMerge;
    } else {
      var id: nat :| EndsAt(s, id, bio.sector) && !MergeOk(env, id, s.held[id], bio);
      var u := s.(hash := Reposition(s.hash, id, bio.sector));
      Refused(env, s, u, bio, id);
      assert Rehashed(s, u) && Look(env, u, bio).1 == NoMerge;
    }
    hide Look, Find, Valid, Ready, HashDecides;
  }

  lemma SameEnding(env: Env, s: State, u: State, bio: Bio)
    requires u.held == s.held
    ensures forall id: nat :: EndsAt(u, id, bio.sector) <==> EndsAt(s, id, bio.sector)
    ensures AllAllow(env, s, bio) <==> AllAllow(env, u, bio)
  {
  }

  /** With a request at the head of its chain that the bio may not be merged into, nothing is offered. */
  lemma Refused(env: Env, s: State, u: State, bio: Bio, id: nat)
    requires Valid(s) && Ready(s) && HashDecides(env, s, bio) && EndsAt(s, id, bio.sector) && !MergeOk(env, id, s.held[id], bio)
    requires u == s.(hash := Reposition(s.hash, id, bio.sector))
    ensures Valid(u) && Ready(u) && Look(env, u, bio).1 == NoMerge
  {
    hide HashOk, Reposition, MergeOk;
    RepositionOk(s.held, s.held, s.hash, id);
    ValidIsReady(u);
    FirstOnChain(s, u, id, bio.sector);
    hide Ready, Valid, HashDel, HashAdd, Unique;
    FirstIsHit(u, bio.sector, id);
    hide Find;
  }

  lemma FirstOnChain(s: State, u: State, id: nat, offset: nat)
    requires |s.hash| == 64 && u.hash == Reposition(s.hash, id, offset)
    ensures |u.hash| == 64 && u.hash[Bucket(offset)] != [] && u.hash[Bucket(offset)][0] == id
  {
    hide Bucket, HashDel;
  }

  /** The first request on the chain is found if it ends there. */
  lemma FirstIsHit(s: State, offset: nat, id: nat)
    requires Holds(s) && EndsAt(s, id, offset)
    requires s.hash[Bucket(offset)] != [] && s.hash[Bucket(offset)][0] == id
    ensures Find(s, offset) == (s, At(id))
  {
    hide Bucket;
    var b := Bucket(offset);
    assert s.hash[b := s.hash[b]] == s.hash;
  }

  // ---------- __make_request ----------

  predicate InBio(bio: Bio, write: bool, disk: nat, x: nat) {
    bio.write == write && bio.disk == disk && bio.sector <= x < bio.sector + bio.nr
  }

  lemma InsertTransfers(s: State, id: nat, rq: Rq, write: bool, disk: nat, x: nat)
    requires |s.hash| == 64 && id !in s.held
    ensures Times(Insert(s, id, rq), write, disk, x) == Times(s, write, disk, x) + Once(Hits(rq, write, disk, x))
  {
    AddedHits(s.held, id, rq, write, disk, x);
    hide HeldHits, Hits, HashAdd;
  }

  lemma RefuseTransfers(s: State, id: nat, write: bool, disk: nat, x: nat)
    requires id in s.held
    ensures Times(Refuse(s, id), write, disk, x) == Times(s, write, disk, x)
  {
    ReplacedHits(s.held, id, s.held[id].(nomerge := true), write, disk, x);
    hide HeldHits, Hits;
  }

  /** A request grown by the bio. */
  lemma GrownTransfers(s: State, id: nat, r: Rq, bio: Bio, write: bool, disk: nat, x: nat)
    requires id in s.held && r.write == s.held[id].write == bio.write && r.disk == s.held[id].disk == bio.disk
    requires r.nr == s.held[id].nr + bio.nr
    requires (r.sector == s.held[id].sector && End(s.held[id]) == bio.sector)
          || (r.sector == bio.sector && s.held[id].sector == bio.sector + bio.nr)
    ensures Times(s.(held := s.held[id := r]), write, disk, x) == Times(s, write, disk, x) + Once(InBio(bio, write, disk, x))
  {
    ReplacedHits(s.held, id, r, write, disk, x);
    assert Once(Hits(r, write, disk, x)) == Once(Hits(s.held[id], write, disk, x)) + Once(InBio(bio, write, disk, x));
    hide HeldHits, Hits, InBio;
  }

  lemma MayGrow(env: Env, s: State, id: nat, bio: Bio)
    requires id in s.held && MergeOk(env, id, s.held[id], bio)
    ensures Mergeable(s.held[id]) && Mergeable(s.held[id].(nr := s.held[id].nr + bio.nr))
    ensures bio.nr <= s.held[id].sector ==>
              Mergeable(s.held[id].(sector := s.held[id].sector - bio.nr, nr := s.held[id].nr + bio.nr))
  {
  }

  lemma AppendedOk(env: Env, s: State, id: nat, bio: Bio)
    requires Valid(s) && Ready(s) && id in s.held && MergeOk(env, id, s.held[id], bio) && End(s.held[id]) == bio.sector
    ensures Valid(Appended(env, s, id, bio.nr))
    ensures forall write, disk, x: nat ::
      Times(Appended(env, s, id, bio.nr), write, disk, x) == Times(s, write, disk, x) + Once(InBio(bio, write, disk, x))
  {
    hide Valid, HashAdd, HashDel, Reposition, Times, InBio, MakeRoom, Join, Mergeable, Holds, LastHeld;
    MayGrow(env, s, id, bio);
    ReadyIs(s);
    var r := s.held[id].(nr := s.held[id].nr + bio.nr);
    var u := s.(held := s.held[id := r]);
    var joins := env.latter.At? && Joins(env, u, id, env.latter.id);
    if joins {
      JoinKeeps(s, u.held, id, id, env.latter.id);
    } else {
      BackKeeps(env, s, id, bio.nr);
    }
    forall write, disk, x: nat
      ensures Times(Appended(env, s, id, bio.nr), write, disk, x) == Times(s, write, disk, x) + Once(InBio(bio, write, disk, x))
    {
      GrownTransfers(s, id, r, bio, write, disk, x);
      if joins {
        JoinTransfers(u, id, env.latter.id, write, disk, x);
      } else {
        RoomTransfers(env, u, id, write, disk, x);
        SameTransfers(MakeRoom(env, u, id), BackMerge(env, s, id, bio.nr), write, disk, x);
      }
    }
  }

  lemma PrependedOk(env: Env, s: State, id: nat, bio: Bio)
    requires Valid(s) && Ready(s) && id in s.held && MergeOk(env, id, s.held[id], bio) && s.held[id].sector == bio.sector + bio.nr
    ensures Valid(Prepended(env, s, id, bio.nr))
    ensures forall write, disk, x: nat ::
      Times(Prepended(env, s, id, bio.nr), write, disk, x) == Times(s, write, disk, x) + Once(InBio(bio, write, disk, x))
  {
    hide Valid, HashAdd, HashDel, Reposition, Times, InBio, MakeRoom, Join, Mergeable, Holds, LastHeld;
    MayGrow(env, s, id, bio);
    ReadyIs(s);
    var r := s.held[id].(sector := s.held[id].sector - bio.nr, nr := s.held[id].nr + bio.nr);
    var u := s.(held := s.held[id := r]);
    var joins := env.former.At? && Joins(env, u, env.former.id, id);
    if joins {
      JoinKeeps(s, u.held, id, env.former.id, id);
    } else {
      FrontKeeps(env, s, id, bio.nr);
    }
    forall write, disk, x: nat
      ensures Times(Prepended(env, s, id, bio.nr), write, disk, x) == Times(s, write, disk, x) + Once(InBio(bio, write, disk, x))
    {
      GrownTransfers(s, id, r, bio, write, disk, x);
      if joins {
        JoinTransfers(u, env.former.id, id, write, disk, x);
      } else {
        RoomTransfers(env, u, id, write, disk, x);
        SameTransfers(MakeRoom(env, u, id), FrontMerge(env, s, id, bio.nr), write, disk, x);
      }
    }
  }

  lemma InsertedOk(s: State, bio: Bio, id: nat)
    requires Valid(s) && Ready(s) && id !in s.held
    ensures Valid(Insert(s, id, FromBio(bio)))
    ensures forall write, disk, x: nat ::
      Times(Insert(s, id, FromBio(bio)), write, disk, x) == Times(s, write, disk, x) + Once(InBio(bio, write, disk, x))
  {
    InsertKeeps(s, id, FromBio(bio));
    hide Valid, Insert, Times;
    forall write, disk, x: nat
      ensures Times(Insert(s, id, FromBio(bio)), write, disk, x) == Times(s, write, disk, x) + Once(InBio(bio, write, disk, x))
    {
      InsertTransfers(s, id, FromBio(bio), write, disk, x);
    }
  }

  lemma RefusedOk(s: State, r: nat)
    requires Valid(s) && Ready(s) && r in s.held
    ensures Valid(Refuse(s, r)) && Ready(Refuse(s, r)) && Refuse(s, r).held.Keys == s.held.Keys
    ensures forall write, disk, x: nat :: Times(Refuse(s, r), write, disk, x) == Times(s, write, disk, x)
  {
    RefuseKeeps(s, r);
    ValidIsReady(Refuse(s, r));
    hide Valid, Refuse, Times, Ready;
    forall write, disk, x: nat ensures Times(Refuse(s, r), write, disk, x) == Times(s, write, disk, x) {
      RefuseTransfers(s, r, write, disk, x);
    }
  }

  /** A request keeps the hash right, and each sector of the bio is transferred once more than before, no other one is. */
  lemma MakeRequestOk(env: Env, s: State, bio: Bio, id: nat)
    requires Valid(s) && id !in s.held && FindsFront(env, s, bio)
    ensures Ready(s) && Valid(MakeRequest(env, s, bio, id))
    ensures forall write, disk, x: nat ::
      Times(MakeRequest(env, s, bio, id), write, disk, x) == Times(s, write, disk, x) + Once(InBio(bio, write, disk, x))
  {
    ValidIsReady(s);
    if env.idle && s.held == map[] {
      InsertedOk(s, bio, id);
      hide Valid, Ready, Insert, Times, InBio, Look, Appended, Prepended, Refuse;
    } else {
      LookAgrees(env, s, bio);
      var (u, m) := Look(env, s, bio);
      ValidIsReady(u);
      hide Valid, Ready, Insert, Times, InBio, Look, Appended, Prepended, Refuse, MergeOk, EndsAt, FindsFront, End;
      LookedTransfers(s, u);
      match m
      case NoMerge => InsertedOk(u, bio, id);
      case Back(r) =>
        if env.fits(r) {
          AppendedOk(env, u, r, bio);
        } else {
          RefusedOk(u, r);
          InsertedOk(Refuse(u, r), bio, id);
        }
      case Front(r) =>
        if env.fits(r) {
          PrependedOk(env, u, r, bio);
        } else {
          RefusedOk(u, r);
          InsertedOk(Refuse(u, r), bio, id);
        }
    }
  }

  lemma LookedTransfers(s: State, u: State)
    requires u == s.(hash := u.hash)
    ensures forall write, disk, x: nat :: Times(u, write, disk, x) == Times(s, write, disk, x)
  {
    forall write, disk, x: nat ensures Times(u, write, disk, x) == Times(s, write, disk, x) {
      SameTransfers(s, u, write, disk, x);
    }
  }
}
