/** The merge hash agrees with a linear scan of the requests held, whatever is inserted, merged and dispatched. */
module MergeHashProofs {
  import opened UniqueLists
  import opened MergeHashSpec

  // ---------- one request and the hash ----------

  /** A hashed request is held and is on the chain for its end; a held one that may be merged into is hashed. */
  ghost predicate Right(held: map<nat, Rq>, hash: seq<seq<nat>>, id: nat)
    requires |hash| == 64
  {
    && (forall b :: 0 <= b < 64 && id in hash[b] ==> id in held && b == Bucket(End(held[id])))
    && (id in held && Mergeable(held[id]) ==> id in hash[Bucket(End(held[id]))])
  }

  ghost predicate Chains(hash: seq<seq<nat>>) {
    |hash| == 64 && forall b :: 0 <= b < 64 ==> Unique(hash[b])
  }

  ghost predicate HashOk(held: map<nat, Rq>, hash: seq<seq<nat>>) {
    Chains(hash) && forall id: nat :: Right(held, hash, id)
  }

  /** The hash is right but for one request, which is not on it. */
  ghost predicate HashBut(held: map<nat, Rq>, hash: seq<seq<nat>>, x: nat) {
    && Chains(hash) && (forall id: nat :: id != x ==> Right(held, hash, id))
    && forall b :: 0 <= b < 64 ==> x !in hash[b]
  }

  lemma DelChain(hash: seq<seq<nat>>, x: nat, b: nat)
    requires Chains(hash) && b < 64
    ensures Unique(HashDel(hash, x)[b]) && forall id :: id in HashDel(hash, x)[b] <==> id in hash[b] && id != x
  {
    WithoutIs(hash[b], x);
  }

  /** Taken off its chain, a request may change; nothing else is disturbed. */
  lemma DelOk(was: map<nat, Rq>, held: map<nat, Rq>, hash: seq<seq<nat>>, x: nat)
    requires Chains(hash) && forall id: nat :: id != x ==> Right(was, hash, id)
    requires forall id: nat :: id != x ==> (id in was <==> id in held) && (id in was ==> was[id] == held[id])
    ensures HashBut(held, HashDel(hash, x), x)
  {
    var r := HashDel(hash, x);
    forall b | 0 <= b < 64 ensures Unique(r[b]) && x !in r[b] && forall id :: id in r[b] <==> id in hash[b] && id != x {
      DelChain(hash, x, b);
    }
    hide HashDel, Unique, Bucket;
    forall id: nat | id != x ensures Right(held, r, id) {
      var kept := Right(was, hash, id);
    }
  }

  lemma AddOk(held: map<nat, Rq>, hash: seq<seq<nat>>, x: nat)
    requires HashBut(held, hash, x) && x in held
    ensures HashOk(held, HashAdd(hash, x, End(held[x])))
  {
    var b := Bucket(End(held[x]));
    var r := HashAdd(hash, x, End(held[x]));
    assert Unique(r[b]);
    hide Unique, Bucket;
    assert r[b] == [x] + hash[b];
    forall id: nat ensures Right(held, r, id) {
      assert id != x ==> Right(held, hash, id);
      assert id in r[b] <==> id == x || id in hash[b];
    }
  }

  /** A request that may not be merged into, or is not held, need not be hashed. */
  lemma ButIsOk(held: map<nat, Rq>, hash: seq<seq<nat>>, x: nat)
    requires HashBut(held, hash, x) && (x in held ==> !Mergeable(held[x]))
    ensures HashOk(held, hash)
  {
    hide Bucket, Unique;
    forall id: nat ensures Right(held, hash, id) {
    }
  }

  lemma NotHashed(held: map<nat, Rq>, hash: seq<seq<nat>>, x: nat)
    requires HashOk(held, hash) && x !in held
    ensures HashBut(held, hash, x) && !OnHash(hash, x)
  {
    var none := Right(held, hash, x);
    hide Bucket, Unique;
  }

  lemma RepositionOk(was: map<nat, Rq>, held: map<nat, Rq>, hash: seq<seq<nat>>, x: nat)
    requires HashOk(was, hash) && x in held
    requires forall id: nat :: id != x ==> (id in was <==> id in held) && (id in was ==> was[id] == held[id])
    ensures HashOk(held, Reposition(hash, x, End(held[x])))
  {
    hide Right, Unique, Bucket, HashDel, HashAdd;
    DelOk(was, held, hash, x);
    AddOk(held, HashDel(hash, x), x);
  }

  // ---------- the invariant ----------

  ghost predicate Valid(s: State) {
    && HashOk(s.held, s.hash)
    && (s.last.At? ==> s.last.id in s.held && Mergeable(s.held[s.last.id]))
    && s.sorted == |s.held|
  }

  lemma StartsValid()
    ensures Valid(START)
  {
    forall id: nat ensures Right(START.held, START.hash, id) {
    }
  }

  lemma ValidIsReady(s: State)
    requires Valid(s)
    ensures Ready(s)
  {
    hide Bucket, Unique;
    forall b, id | 0 <= b < 64 && id in s.hash[b] ensures id in s.held {
      var held := Right(s.held, s.hash, id);
    }
    if s.held != map[] {
      var id :| id in s.held;
    }
  }

  // ---------- the search ----------

  lemma {:induction false} WalkIs(chain: seq<nat>, held: map<nat, Rq>, offset: nat)
    requires Unique(chain) && forall id :: id in chain ==> id in held
    ensures var r := Walk(chain, held, offset);
            && Unique(r.chain) && (forall id :: id in r.chain ==> id in chain)
            && (forall id :: id in chain && Mergeable(held[id]) ==> id in r.chain)
            && (r.hit.At? ==> r.hit.id in chain && Mergeable(held[r.hit.id]) && End(held[r.hit.id]) == offset)
            && (r.hit.NoRq? ==> forall id :: id in chain && Mergeable(held[id]) ==> End(held[id]) != offset)
  {
    if chain != [] {
      var id, rest := chain[0], chain[1..];
      assert chain == [id] + rest;
      assert id !in rest;
      WalkIs(rest, held, offset);
      var r := Walk(rest, held, offset);
      assert Unique([id] + r.chain) by { FrontUnique(id, r.chain); }
      hide Unique;
    }
  }

  lemma FrontUnique(id: nat, xs: seq<nat>)
    requires Unique(xs) && id !in xs
    ensures Unique([id] + xs)
  {
  }

  /** Fewer unmergeable requests on one chain. */
  lemma ChainShrunk(held: map<nat, Rq>, hash: seq<seq<nat>>, b: nat, chain: seq<nat>)
    requires HashOk(held, hash) && b < 64 && Unique(chain) && (forall id :: id in chain ==> id in hash[b])
    requires forall id :: id in hash[b] && id in held && Mergeable(held[id]) ==> id in chain
    ensures HashOk(held, hash[b := chain])
  {
    hide Bucket, Unique;
    var r := hash[b := chain];
    forall id: nat ensures Right(held, r, id) {
      var was := Right(held, hash, id);
    }
  }

  predicate EndsAt(s: State, id: nat, offset: nat) {
    id in s.held && Mergeable(s.held[id]) && End(s.held[id]) == offset
  }

  /** The look-up agrees with a scan of every request held. */
  lemma FindAgrees(s: State, offset: nat)
    requires Valid(s)
    ensures Holds(s)
    ensures var (u, hit) := Find(s, offset);
            && Valid(u) && u == s.(hash := u.hash)
            && (hit.At? <==> exists id: nat :: EndsAt(s, id, offset))
            && (hit.At? ==> EndsAt(s, hit.id, offset))
  {
    ValidIsReady(s);
    var b := Bucket(offset);
    WalkIs(s.hash[b], s.held, offset);
    var r := Walk(s.hash[b], s.held, offset);
    ChainShrunk(s.held, s.hash, b, r.chain);
    hide Walk, Bucket, Unique, HashOk;
    assert r.hit.At? ==> EndsAt(s, r.hit.id, offset);
    if id: nat :| EndsAt(s, id, offset) {
      HashedThere(s, id);
      assert id in s.hash[b];
      assert r.hit.At?;
    }
  }

  lemma HashedThere(s: State, id: nat)
    requires Valid(s) && id in s.held && Mergeable(s.held[id])
    ensures id in s.hash[Bucket(End(s.held[id]))]
  {
    var there := Right(s.held, s.hash, id);
    hide Bucket;
  }

  // ---------- what the operations keep ----------

  lemma InsertKeeps(s: State, id: nat, rq: Rq)
    requires Valid(s) && id !in s.held
    ensures !OnHash(s.hash, id) && Valid(Insert(s, id, rq))
  {
    NotHashed(s.held, s.hash, id);
    var held := s.held[id := rq];
    assert HashBut(held, s.hash, id) by { HeldToo(s.held, held, s.hash, id); }
    assert held.Keys == s.held.Keys + {id};
    assert |held| == |held.Keys| && |s.held| == |s.held.Keys|;
    if Mergeable(rq) {
      AddOk(held, s.hash, id);
    } else {
      ButIsOk(held, s.hash, id);
    }
    hide HashOk, HashBut, HashAdd, Bucket;
  }

  lemma HeldToo(was: map<nat, Rq>, held: map<nat, Rq>, hash: seq<seq<nat>>, x: nat)
    requires HashBut(was, hash, x)
    requires forall id: nat :: id != x ==> (id in was <==> id in held) && (id in was ==> was[id] == held[id])
    ensures HashBut(held, hash, x)
  {
    hide Bucket, Unique;
    forall id: nat | id != x ensures Right(held, hash, id) {
      var was := Right(was, hash, id);
    }
  }

  /** A dispatched request is off the hash, and no longer the last one merged into. */
  lemma DispatchKeeps(s: State, id: nat)
    requires Valid(s) && id in s.held
    ensures s.sorted > 0 && Valid(Dispatch(s, id)) && !OnHash(Dispatch(s, id).hash, id)
    ensures Dispatch(s, id).held == s.held - {id}
  {
    ValidIsReady(s);
    var held := s.held - {id};
    assert held.Keys == s.held.Keys - {id};
    assert |held| == |held.Keys| && |s.held| == |s.held.Keys|;
    DelOk(s.held, held, s.hash, id) by { AllRight(s); }
    ButIsOk(held, HashDel(s.hash, id), id);
    NotHashed(held, HashDel(s.hash, id), id);
    hide HashOk, HashBut, HashDel, Ready, OnHash;
  }

  lemma AllRight(s: State)
    requires Valid(s)
    ensures Chains(s.hash) && forall id: nat :: Right(s.held, s.hash, id)
  {
  }

  lemma RefuseKeeps(s: State, id: nat)
    requires Valid(s) && id in s.held
    ensures Valid(Refuse(s, id)) && Refuse(s, id).held.Keys == s.held.Keys
  {
    var u := Refuse(s, id);
    assert u.held.Keys == s.held.Keys;
    assert |u.held| == |u.held.Keys| && |s.held| == |s.held.Keys|;
    assert HashOk(u.held, u.hash) by {
      hide Bucket, Unique;
      forall x: nat ensures Right(u.held, u.hash, x) {
        var was := Right(s.held, s.hash, x);
      }
    }
    hide HashOk;
  }

  /** MakeRoom, between a merge and the telling of it. */
  lemma RoomOk(env: Env, s: State, held: map<nat, Rq>, id: nat)
    requires Valid(s) && id in s.held && Mergeable(s.held[id])
    requires id in held && held == s.held[id := held[id]] && Mergeable(held[id])
    ensures s.held != map[] ==> s.sorted > 0
    ensures var u := MakeRoom(env, s.(held := held), id);
            var v := MakeRoom(env, s, id);
            && Valid(v) && id in v.held && u.hash == v.hash && u.sorted == v.sorted && u.held == v.held[id := held[id]]
            && (u.last == v.last)
  {
    ValidIsReady(s);
    if env.alias.At? && env.alias.id in s.held && env.alias.id != id {
      DispatchKeeps(s, env.alias.id);
      assert held - {env.alias.id} == (s.held - {env.alias.id})[id := held[id]];
    }
    hide Valid, HashDel, Ready;
  }

  lemma SameSize(was: map<nat, Rq>, held: map<nat, Rq>, id: nat)
    requires id in was && id in held && held == was[id := held[id]]
    ensures |held| == |was|
    ensures forall x: nat :: x != id ==> (x in was <==> x in held) && (x in was ==> was[x] == held[x])
  {
    assert held.Keys == was.Keys;
    assert |held| == |held.Keys| && |was| == |was.Keys|;
  }

  /** A back merge moves the end, and the request moves in the hash. */
  lemma BackKeeps(env: Env, s: State, id: nat, n: nat)
    requires Valid(s) && id in s.held && Mergeable(s.held[id])
    ensures Ready(s) && Valid(BackMerge(env, s, id, n))
  {
    hide HashOk, Reposition, MakeRoom, Ready, Mergeable, End;
    ValidIsReady(s);
    var r := s.held[id].(nr := s.held[id].nr + n);
    StaysMergeable(s.held[id], r);
    var held := s.held[id := r];
    RoomOk(env, s, held, id);
    var u, v := MakeRoom(env, s.(held := held), id), MakeRoom(env, s, id);
    SameSize(v.held, u.held, id);
    RepositionOk(v.held, u.held, v.hash, id);
    ReadyIs(s);
  }

  lemma StaysMergeable(r: Rq, r': Rq)
    requires r'.nomerge == r.nomerge
    ensures Mergeable(r') == Mergeable(r)
  {
  }

  lemma ReadyIs(s: State)
    requires Ready(s)
    ensures |s.hash| == 64 && (s.held != map[] ==> s.sorted > 0)
  {
    hide Bucket;
  }

  /** A front merge leaves the end where it is, and the hash alone. */
  lemma FrontKeeps(env: Env, s: State, id: nat, n: nat)
    requires Valid(s) && id in s.held && Mergeable(s.held[id]) && n <= s.held[id].sector
    ensures Ready(s) && Valid(FrontMerge(env, s, id, n))
  {
    hide HashOk, MakeRoom, Ready, Mergeable;
    ValidIsReady(s);
    var r := s.held[id].(sector := s.held[id].sector - n, nr := s.held[id].nr + n);
    StaysMergeable(s.held[id], r);
    var held := s.held[id := r];
    RoomOk(env, s, held, id);
    var u, v := MakeRoom(env, s.(held := held), id), MakeRoom(env, s, id);
    SameSize(v.held, u.held, id);
    RoomEnds(env, s, held, id);
    SameEnds(v, u.held, id);
    ReadyIs(s);
  }

  lemma RoomEnds(env: Env, s: State, held: map<nat, Rq>, id: nat)
    requires id in s.held && id in held && held == s.held[id := held[id]] && s.sorted > 0
    ensures var v := MakeRoom(env, s, id); id in v.held && v.held[id] == s.held[id]
    ensures var u := MakeRoom(env, s.(held := held), id); id in u.held && u.held[id] == held[id]
  {
    hide HashDel;
  }

  lemma SameEnds(s: State, held: map<nat, Rq>, id: nat)
    requires Valid(s) && id in s.held && id in held && held == s.held[id := held[id]]
    requires End(held[id]) == End(s.held[id]) && Mergeable(held[id]) == Mergeable(s.held[id])
    ensures HashOk(held, s.hash)
  {
    hide Bucket, Unique, End, Mergeable;
    forall x: nat ensures Right(held, s.hash, x) {
      var was := Right(s.held, s.hash, x);
    }
  }

  /** The absorbed request is off the hash; the other is found at the common end. req may have grown just before. */
  lemma JoinKeeps(s: State, held: map<nat, Rq>, grown: nat, req: nat, next: nat)
    requires Valid(s) && req in s.held && next in s.held && req != next && Mergeable(s.held[req])
    requires (grown == req || grown == next) && grown in held && held == s.held[grown := held[grown]]
    requires req in held && Mergeable(held[req])
    ensures s.sorted > 0 && |s.hash| == 64 && next in held && Valid(Join(s.(held := held), req, next))
  {
    ValidIsReady(s);
    SameSize(s.held, held, grown);
    var t := s.(held := held);
    var u := Join(t, req, next);
    var r := held[req].(nr := held[req].nr + held[next].nr);
    var all := held[req := r];
    assert u.held == all - {next};
    assert u.held.Keys == held.Keys - {next};
    assert |u.held| == |u.held.Keys| && |held| == |held.Keys|;
    JoinHash(s, all, req, next);
    hide HashOk, Reposition, HashDel, Ready, End;
  }

  lemma JoinHash(s: State, all: map<nat, Rq>, req: nat, next: nat)
    requires Valid(s) && req in s.held && next in s.held && req in all && req != next && Mergeable(all[req])
    requires forall x: nat :: x != req && x != next ==> (x in s.held <==> x in all) && (x in s.held ==> s.held[x] == all[x])
    ensures |s.hash| == 64 && HashOk(all - {next}, HashDel(Reposition(s.hash, req, End(all[req])), next))
  {
    AllRight(s);
    // next is left as it was while req moves
    var some := s.held[req := all[req]];
    RepositionOk(s.held, some, s.hash, req);
    var hash := Reposition(s.hash, req, End(all[req]));
    var held := all - {next};
    assert Chains(hash) && forall id: nat :: Right(some, hash, id) by { hide Right, Reposition; }
    DelOk(some, held, hash, next) by { hide HashOk, Right, Reposition; }
    ButIsOk(held, HashDel(hash, next), next) by { hide HashBut, HashOk, Right, Reposition, HashDel; }
  }
}
