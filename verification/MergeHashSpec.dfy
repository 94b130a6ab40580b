/** The merge hash of the elevator: requests held by the I/O scheduler, found by the sector at which they end. */
module MergeHashSpec {
  import opened UniqueLists

  /** A request held by the scheduler. NOMERGE is set once a merge into it has been refused. */
  datatype Rq = Rq(sector: nat, nr: nat, write: bool, disk: nat, special: bool, nomerge: bool)

  datatype Bio = Bio(sector: nat, nr: nat, write: bool, disk: nat)

  datatype Slot = NoRq | At(id: nat)

  datatype Merge = NoMerge | Back(id: nat) | Front(id: nat)

  /** held: what the scheduler has; out: what it has dispatched, as it then was. */
  datatype State = State(held: map<nat, Rq>, hash: seq<seq<nat>>, last: Slot, sorted: nat, out: seq<Rq>)

  /** What a call depends on besides: whether the scheduler allows a merge, the size and segment limits, the front merge the
    * scheduler finds, the neighbours it names, the request it dispatches to make room, and whether the dispatch list is empty. */
  datatype Env = Env(allows: (nat, Bio) -> bool, fits: nat -> bool, joins: (nat, nat) -> bool, other: Slot,
                     latter: Slot, former: Slot, alias: Slot, idle: bool)

  const START := State(map[], seq(64, _ => []), NoRq, 0, [])

  /** rq_hash_key: the sector behind the last one. */
  function End(r: Rq): nat {
    r.sector + r.nr
  }

  predicate Mergeable(r: Rq) {
    !r.nomerge
  }

  /** ELV_HASH_FN: hash_long of the block, to six bits, with 32-bit words. */
  function Bucket(sector: nat): (b: nat)
    ensures b < 64
  {
    (((sector / 8) % 0x1_0000_0000) * 0x9e37_0001 % 0x1_0000_0000) / 0x400_0000
  }

  // ---------- the hash ----------

  predicate OnHash(hash: seq<seq<nat>>, id: nat) {
    exists b :: 0 <= b < |hash| && id in hash[b]
  }

  /** hlist_del_init: out of whatever chain the request is on. */
  function HashDel(hash: seq<seq<nat>>, id: nat): (r: seq<seq<nat>>)
    ensures |r| == |hash|
  {
    seq(|hash|, b requires 0 <= b < |hash| => Without(hash[b], id))
  }

  /** elv_rqhash_add: at the head of the chain for where the request ends. */
  function HashAdd(hash: seq<seq<nat>>, id: nat, end: nat): (r: seq<seq<nat>>)
    requires |hash| == 64
    ensures |r| == 64
  {
    hash[Bucket(end) := [id] + hash[Bucket(end)]]
  }

  /** elv_rqhash_reposition. */
  function Reposition(hash: seq<seq<nat>>, id: nat, end: nat): seq<seq<nat>>
    requires |hash| == 64
  {
    HashAdd(HashDel(hash, id), id, end)
  }

  /** The chain after a search, and what was found. */
  datatype Found = Found(chain: seq<nat>, hit: Slot)

  /** The walk of elv_rqhash_find: unmergeable requests are dropped on the way. */
  function Walk(chain: seq<nat>, held: map<nat, Rq>, offset: nat): Found
    requires forall id :: id in chain ==> id in held
  {
    if chain == [] then Found([], NoRq)
    else
      var id := chain[0];
      if !Mergeable(held[id]) then Walk(chain[1..], held, offset)
      else if End(held[id]) == offset then Found(chain, At(id))
      else
        var r := Walk(chain[1..], held, offset);
        Found([id] + r.chain, r.hit)
  }

  // ---------- the operations ----------

  predicate Holds(s: State) {
    |s.hash| == 64 && forall b, id :: 0 <= b < 64 && id in s.hash[b] ==> id in s.held
  }

  function Find(s: State, offset: nat): (State, Slot)
    requires Holds(s)
  {
    var r := Walk(s.hash[Bucket(offset)], s.held, offset);
    (s.(hash := s.hash[Bucket(offset) := r.chain]), r.hit)
  }

  /** elv_insert with ELEVATOR_INSERT_SORT. */
  function Insert(s: State, id: nat, rq: Rq): State
    requires |s.hash| == 64
  {
    var u := s.(held := s.held[id := rq], sorted := s.sorted + 1);
    if Mergeable(rq) then
      u.(hash := HashAdd(u.hash, id, End(rq)), last := if u.last == NoRq then At(id) else u.last)
    else u
  }

  function Forget(last: Slot, id: nat): Slot {
    if last == At(id) then NoRq else last
  }

  /** elv_dispatch_sort and elv_dispatch_add_tail, as far as the hash goes. */
  function Dispatch(s: State, id: nat): State
    requires id in s.held && s.sorted > 0
  {
    State(s.held - {id}, HashDel(s.hash, id), Forget(s.last, id), s.sorted - 1, s.out + [s.held[id]])
  }

  /** A limit keeps something from being merged into the request: no more merges into it. */
  function Refuse(s: State, id: nat): State
    requires id in s.held
  {
    s.(held := s.held[id := s.held[id].(nomerge := true)], last := Forget(s.last, id))
  }

  /** elv_rq_merge_ok. */
  predicate MergeOk(env: Env, id: nat, r: Rq, bio: Bio) {
    Mergeable(r) && bio.write == r.write && bio.disk == r.disk && !r.special && env.allows(id, bio)
  }

  /** elv_try_merge. */
  function TryMerge(env: Env, id: nat, r: Rq, bio: Bio): Merge {
    if !MergeOk(env, id, r, bio) then NoMerge
    else if End(r) == bio.sector then Back(id)
    else if r.sector == bio.sector + bio.nr then Front(id)
    else NoMerge
  }

  predicate LastHeld(s: State) {
    s.last.At? ==> s.last.id in s.held
  }

  /** elv_merge: the last request merged into, then the hash, then what the scheduler finds. */
  function Look(env: Env, s: State, bio: Bio): (State, Merge)
    requires Holds(s) && LastHeld(s)
  {
    var first := if s.last.At? then TryMerge(env, s.last.id, s.held[s.last.id], bio) else NoMerge;
    if first != NoMerge then (s, first)
    else
      var f := Find(s, bio.sector);
      if f.1.At? && f.1.id in s.held && MergeOk(env, f.1.id, s.held[f.1.id], bio) then (f.0, Back(f.1.id))
      else if env.other.At? then (f.0, Front(env.other.id))
      else (f.0, NoMerge)
  }

  /** attempt_merge agrees: mergeable, adjacent, alike, and within the limits. */
  predicate Joins(env: Env, s: State, req: nat, next: nat) {
    && req in s.held && next in s.held && req != next
    && Mergeable(s.held[req]) && Mergeable(s.held[next])
    && End(s.held[req]) == s.held[next].sector
    && s.held[req].write == s.held[next].write && s.held[req].disk == s.held[next].disk && !s.held[next].special
    && env.joins(req, next)
  }

  /** attempt_merge, elv_merge_requests: req takes over the sectors of next, which is gone. */
  function Join(s: State, req: nat, next: nat): State
    requires req in s.held && next in s.held && req != next && |s.hash| == 64 && s.sorted > 0
  {
    var r := s.held[req].(nr := s.held[req].nr + s.held[next].nr);
    State(s.held[req := r] - {next}, HashDel(Reposition(s.hash, req, End(r)), next), At(req), s.sorted - 1, s.out)
  }

  /** What the scheduler dispatches when told of a merge. */
  function MakeRoom(env: Env, s: State, id: nat): State
    requires s.held != map[] ==> s.sorted > 0
  {
    if env.alias.At? && env.alias.id in s.held && env.alias.id != id then Dispatch(s, env.alias.id) else s
  }

  /** A bio appended to a request and elv_merged_request. */
  function BackMerge(env: Env, s: State, id: nat, n: nat): State
    requires id in s.held && |s.hash| == 64 && (s.held != map[] ==> s.sorted > 0)
  {
    var r := s.held[id].(nr := s.held[id].nr + n);
    var u := MakeRoom(env, s.(held := s.held[id := r]), id);
    u.(hash := Reposition(u.hash, id, End(r)), last := At(id))
  }

  /** A bio put in front of a request and elv_merged_request: the end stays, and the place in the hash with it. */
  function FrontMerge(env: Env, s: State, id: nat, n: nat): State
    requires id in s.held && n <= s.held[id].sector && (s.held != map[] ==> s.sorted > 0)
  {
    var r := s.held[id].(sector := s.held[id].sector - n, nr := s.held[id].nr + n);
    var u := MakeRoom(env, s.(held := s.held[id := r]), id);
    u.(last := At(id))
  }

  /** The bio appended to the request: then the request behind it may be adjacent. */
  function Appended(env: Env, s: State, id: nat, n: nat): State
    requires id in s.held && |s.hash| == 64 && (s.held != map[] ==> s.sorted > 0)
  {
    var u := s.(held := s.held[id := s.held[id].(nr := s.held[id].nr + n)]);
    if env.latter.At? && Joins(env, u, id, env.latter.id) then Join(u, id, env.latter.id) else BackMerge(env, s, id, n)
  }

  /** The bio put in front: then the request before it may be adjacent. */
  function Prepended(env: Env, s: State, id: nat, n: nat): State
    requires id in s.held && n <= s.held[id].sector && |s.hash| == 64 && (s.held != map[] ==> s.sorted > 0)
  {
    var u := s.(held := s.held[id := s.held[id].(sector := s.held[id].sector - n, nr := s.held[id].nr + n)]);
    if env.former.At? && Joins(env, u, env.former.id, id) then Join(u, env.former.id, id) else FrontMerge(env, s, id, n)
  }

  /** init_request_from_bio. */
  function FromBio(bio: Bio): Rq {
    Rq(bio.sector, bio.nr, bio.write, bio.disk, false, false)
  }

  /** A front merge the scheduler finds is one elv_rq_merge_ok allows, at the end of the bio. */
  predicate FindsFront(env: Env, s: State, bio: Bio) {
    env.other.At? ==>
      && env.other.id in s.held && MergeOk(env, env.other.id, s.held[env.other.id], bio)
      && s.held[env.other.id].sector == bio.sector + bio.nr
  }

  predicate Ready(s: State) {
    Holds(s) && LastHeld(s) && (s.held != map[] ==> s.sorted > 0)
  }

  /** __make_request without a barrier; a request that is needed gets the name id. */
  function MakeRequest(env: Env, s: State, bio: Bio, id: nat): State
    requires Ready(s) && FindsFront(env, s, bio)
  {
    if env.idle && s.held == map[] then Insert(s, id, FromBio(bio))
    else
      var (u, m) := Look(env, s, bio);
      match m
      case NoMerge => Insert(u, id, FromBio(bio))
      case Back(r) => if env.fits(r) then Appended(env, u, r, bio.nr) else Insert(Refuse(u, r), id, FromBio(bio))
      case Front(r) => if env.fits(r) then Prepended(env, u, r, bio.nr) else Insert(Refuse(u, r), id, FromBio(bio))
  }
}
