/** What completing a request in pieces means, chunk by chunk and over whole runs of calls. */
module PartialSpec {
  /** A byte of memory that takes part in the transfer. */
  datatype Byte = Byte(page: int, offset: int)

  /** A bio as its owner sees it: the bytes not yet transferred, and whether all is well so far. */
  datatype Pending = Pending(id: nat, data: seq<Byte>, good: bool)

  /** The call of bi_end_io. */
  datatype End = End(id: nat, good: bool)

  /** One call: how many bytes are done, and whether they failed. */
  datatype Call = Call(bytes: nat, failed: bool)

  datatype Outcome = Outcome(rest: seq<Pending>, ended: seq<End>)

  /** Bios with data; the one request without, an empty barrier, has a single bio and ends at once. */
  predicate AllNonEmpty(bs: seq<Pending>) {
    forall k :: 0 <= k < |bs| ==> bs[k].data != []
  }

  function Bytes(bs: seq<Pending>): seq<Byte> {
    if bs == [] then [] else bs[0].data + Bytes(bs[1..])
  }

  /** Where bio k begins in the data of the request. */
  function Start(bs: seq<Pending>, k: nat): nat
    requires k <= |bs|
  {
    if k == 0 then 0 else Start(bs, k - 1) + |bs[k - 1].data|
  }

  /** One call of __end_that_request_first. */
  function Finish(bs: seq<Pending>, c: Call): Outcome
    decreases |bs|
  {
    if bs == [] then Outcome([], [])
    else if c.bytes >= |bs[0].data| then
      var e := End(bs[0].id, bs[0].good && !c.failed);
      if c.bytes == |bs[0].data| then Outcome(bs[1..], [e])
      else
        var o := Finish(bs[1..], c.(bytes := c.bytes - |bs[0].data|));
        Outcome(o.rest, [e] + o.ended)
    else if c.bytes == 0 then Outcome(bs, [])
    else Outcome([Pending(bs[0].id, bs[0].data[c.bytes..], bs[0].good && !c.failed)] + bs[1..], [])
  }

  /** A whole run of calls. */
  function Run(bs: seq<Pending>, calls: seq<Call>): Outcome
    decreases |calls|
  {
    if calls == [] then Outcome(bs, [])
    else Then(Run(bs, calls[..|calls| - 1]), calls[|calls| - 1])
  }

  function Then(o: Outcome, c: Call): Outcome {
    var p := Finish(o.rest, c);
    Outcome(p.rest, o.ended + p.ended)
  }

  function Total(calls: seq<Call>): nat {
    if calls == [] then 0 else Total(calls[..|calls| - 1]) + calls[|calls| - 1].bytes
  }

  // ---------- what a run must come to, bio by bio ----------

  /** Bytes [from, to) and bytes [a, b) have one in common. */
  predicate Overlap(from: nat, to: nat, a: nat, b: nat) {
    from < to && a < b && from < b && a < to
  }

  /** One of the failed calls touched bytes [a, b) of the request. */
  predicate Hit(calls: seq<Call>, a: nat, b: nat)
    decreases |calls|
  {
    calls != [] &&
    var front := calls[..|calls| - 1];
    var last := calls[|calls| - 1];
    Hit(front, a, b) || (last.failed && Overlap(Total(front), Total(front) + last.bytes, a, b))
  }

  /** What is left of bytes that begin at a, when p bytes of the request are done. */
  function Left(data: seq<Byte>, a: nat, p: nat): seq<Byte> {
    if p <= a then data else if p >= a + |data| then [] else data[p - a..]
  }

  /** Bio k after a run of calls: its undone bytes, and whether no failed call touched it. */
  function Due(bs: seq<Pending>, k: nat, calls: seq<Call>): Pending
    requires k < |bs|
  {
    var a := Start(bs, k);
    var b := bs[k];
    Pending(b.id, Left(b.data, a, Total(calls)), b.good && !Hit(calls, a, a + |b.data|))
  }

  /** What bio k has come to: ended when nothing of it is left, and still there otherwise. */
  predicate Fate(o: Outcome, k: nat, x: Pending) {
    if k < |o.ended| then x.data == [] && o.ended[k] == End(x.id, x.good)
    else x.data != [] && k - |o.ended| < |o.rest| && o.rest[k - |o.ended|] == x
  }

  /** The outcome splits the bios into those wholly done, all ended in order, and the others, all kept. */
  predicate Splits(bs: seq<Pending>, o: Outcome, calls: seq<Call>) {
    && |o.ended| + |o.rest| == |bs|
    && forall k :: 0 <= k < |bs| ==> Fate(o, k, Due(bs, k, calls))
  }

  // ---------- one call ----------

  /** The same for a single call. */
  function DueOnce(bs: seq<Pending>, k: nat, c: Call): Pending
    requires k < |bs|
  {
    var a := Start(bs, k);
    var b := bs[k];
    Pending(b.id, Left(b.data, a, c.bytes), b.good && !(c.failed && Overlap(0, c.bytes, a, a + |b.data|)))
  }

  predicate SplitsOnce(bs: seq<Pending>, o: Outcome, c: Call) {
    && |o.ended| + |o.rest| == |bs|
    && forall k :: 0 <= k < |bs| ==> Fate(o, k, DueOnce(bs, k, c))
  }

  lemma {:induction false} StartOfRest(bs: seq<Pending>, k: nat)
    requires 0 < k <= |bs|
    ensures Start(bs, k) == |bs[0].data| + Start(bs[1..], k - 1)
  {
    if k > 1 {
      StartOfRest(bs, k - 1);
    }
  }

  /** Behind a bio that is wholly done the call goes on with what is left of it. */
  lemma DueBehind(bs: seq<Pending>, k: nat, c: Call)
    requires 0 < k < |bs| && |bs[0].data| < c.bytes
    ensures DueOnce(bs, k, c) == DueOnce(bs[1..], k - 1, c.(bytes := c.bytes - |bs[0].data|))
  {
    StartOfRest(bs, k);
  }

  lemma DueUntouched(bs: seq<Pending>, k: nat, c: Call)
    requires 0 < k < |bs| && c.bytes <= |bs[0].data|
    ensures DueOnce(bs, k, c) == bs[k]
  {
    StartOfRest(bs, k);
  }

  lemma FirstFate(bs: seq<Pending>, c: Call)
    requires AllNonEmpty(bs) && bs != []
    ensures Fate(Finish(bs, c), 0, DueOnce(bs, 0, c))
  {
  }

  lemma {:induction false} FinishSplits(bs: seq<Pending>, c: Call)
    requires AllNonEmpty(bs)
    ensures SplitsOnce(bs, Finish(bs, c), c)
    decreases |bs|
  {
    if bs == [] {
      return;
    }
    var o := Finish(bs, c);
    FirstFate(bs, c);
    if c.bytes > |bs[0].data| {
      var c' := c.(bytes := c.bytes - |bs[0].data|);
      var o' := Finish(bs[1..], c');
      assert o == Outcome(o'.rest, [End(bs[0].id, bs[0].good && !c.failed)] + o'.ended);
      hide Finish, DueOnce;
      FinishSplits(bs[1..], c');
      forall k | 0 < k < |bs| ensures Fate(o, k, DueOnce(bs, k, c)) {
        DueBehind(bs, k, c);
        assert Fate(o', k - 1, DueOnce(bs[1..], k - 1, c'));
      }
    } else {
      OthersStay(bs, c);
    }
  }

  /** A bio whose first n bytes are done, but not all of them. */
  function Cut(b: Pending, n: nat, failed: bool): Pending
    requires n < |b.data| || n == 0
  {
    if n == 0 then b else Pending(b.id, b.data[n..], b.good && !failed)
  }

  /** The first bio when the call does not reach beyond it. */
  function Head(b: Pending, c: Call): Outcome
    requires c.bytes <= |b.data|
  {
    if c.bytes == |b.data| then Outcome([], [End(b.id, b.good && !c.failed)]) else Outcome([Cut(b, c.bytes, c.failed)], [])
  }

  lemma FinishHead(bs: seq<Pending>, c: Call)
    requires bs != [] && c.bytes <= |bs[0].data|
    ensures Finish(bs, c) == Outcome(Head(bs[0], c).rest + bs[1..], Head(bs[0], c).ended)
    ensures |Head(bs[0], c).rest| + |Head(bs[0], c).ended| == 1
  {
    assert [bs[0]] + bs[1..] == bs;
  }

  lemma OthersStay(bs: seq<Pending>, c: Call)
    requires bs != [] && c.bytes <= |bs[0].data| && Fate(Finish(bs, c), 0, DueOnce(bs, 0, c)) && AllNonEmpty(bs)
    ensures SplitsOnce(bs, Finish(bs, c), c)
  {
    FinishHead(bs, c);
    hide DueOnce, Finish, Head;
    var o := Finish(bs, c);
    forall k | 0 < k < |bs| ensures Fate(o, k, DueOnce(bs, k, c)) {
      DueUntouched(bs, k, c);
      assert bs[1..][k - 1] == bs[k];
    }
  }

  // ---------- runs ----------

  /** Among the bios that are left, bio j begins where it did, less the bytes done. */
  lemma {:induction false} StartInRest(bs: seq<Pending>, o: Outcome, calls: seq<Call>, j: nat)
    requires AllNonEmpty(bs) && Splits(bs, o, calls) && j < |o.rest|
    ensures var a := Start(bs, |o.ended| + j);
            Start(o.rest, j) == if a <= Total(calls) then 0 else a - Total(calls)
  {
    hide Hit, Total;
    var n := |o.ended|;
    if j == 0 {
      if n > 0 {
        assert Fate(o, n - 1, Due(bs, n - 1, calls));
      }
    } else {
      StartInRest(bs, o, calls, j - 1);
      assert Fate(o, n + j - 1, Due(bs, n + j - 1, calls));
    }
  }

  lemma LeftTwice(d: seq<Byte>, a: nat, p: nat, n: nat)
    requires p < a + |d|
    ensures var s := if a <= p then 0 else a - p;
            && Left(Left(d, a, p), s, n) == Left(d, a, p + n)
            && (Overlap(0, n, s, s + |Left(d, a, p)|) <==> Overlap(p, p + n, a, a + |d|))
  {
  }

  /** A bio that ended in an earlier call keeps its verdict. */
  lemma EndedStays(bs: seq<Pending>, k: nat, calls: seq<Call>)
    requires k < |bs| && bs[k].data != [] && calls != [] && Due(bs, k, calls[..|calls| - 1]).data == []
    ensures Due(bs, k, calls) == Due(bs, k, calls[..|calls| - 1])
  {
  }

  lemma HitUnfolds(calls: seq<Call>, a: nat, b: nat)
    requires calls != []
    ensures var front := calls[..|calls| - 1];
            var c := calls[|calls| - 1];
            Hit(calls, a, b) <==> Hit(front, a, b) || (c.failed && Overlap(Total(front), Total(front) + c.bytes, a, b))
  {
  }

  /** A bio that was left takes the next call. */
  lemma LeftGoesOn(bs: seq<Pending>, o: Outcome, calls: seq<Call>, j: nat)
    requires calls != [] && AllNonEmpty(bs) && Splits(bs, o, calls[..|calls| - 1]) && j < |o.rest|
    ensures DueOnce(o.rest, j, calls[|calls| - 1]) == Due(bs, |o.ended| + j, calls)
  {
    var front, c := calls[..|calls| - 1], calls[|calls| - 1];
    var k := |o.ended| + j;
    var a := Start(bs, k);
    StartInRest(bs, o, front, j);
    assert Fate(o, k, Due(bs, k, front));
    HitUnfolds(calls, a, a + |bs[k].data|);
    assert Total(calls) == Total(front) + c.bytes;
    hide Hit, Start, Splits, Left, Overlap, Total;
    assert Left(bs[k].data, a, Total(front)) != [];
    NotYetDone(bs[k].data, a, Total(front));
    LeftTwice(bs[k].data, a, Total(front), c.bytes);
  }

  lemma NotYetDone(d: seq<Byte>, a: nat, p: nat)
    requires Left(d, a, p) != []
    ensures p < a + |d|
  {
  }

  /** Main theorem: after any run of calls each bio has ended exactly once, in order, if all its bytes are done, and is
    * kept with exactly its undone bytes otherwise; it counts as failed if a failed call touched one of its bytes. */
  lemma {:induction false} RunSplits(bs: seq<Pending>, calls: seq<Call>)
    requires AllNonEmpty(bs)
    ensures Splits(bs, Run(bs, calls), calls)
    decreases |calls|
  {
    if calls == [] {
      forall k | 0 <= k < |bs| ensures Fate(Run(bs, calls), k, Due(bs, k, calls)) {
      }
    } else {
      var front := calls[..|calls| - 1];
      RunSplits(bs, front);
      RunKeepsNonEmpty(bs, front);
      FinishSplits(Run(bs, front).rest, calls[|calls| - 1]);
      StepSplits(bs, calls, Run(bs, front), Finish(Run(bs, front).rest, calls[|calls| - 1]));
    }
  }

  lemma StepSplits(bs: seq<Pending>, calls: seq<Call>, o: Outcome, p: Outcome)
    requires calls != [] && AllNonEmpty(bs) && Splits(bs, o, calls[..|calls| - 1])
    requires SplitsOnce(o.rest, p, calls[|calls| - 1])
    ensures Splits(bs, Outcome(p.rest, o.ended + p.ended), calls)
  {
    hide Due, DueOnce;
    var q := Outcome(p.rest, o.ended + p.ended);
    var front := calls[..|calls| - 1];
    forall k | 0 <= k < |bs| ensures Fate(q, k, Due(bs, k, calls)) {
      assert Fate(o, k, Due(bs, k, front));
      if k < |o.ended| {
        EndedStays(bs, k, calls);
      } else {
        var j := k - |o.ended|;
        LeftGoesOn(bs, o, calls, j);
        assert Fate(p, j, DueOnce(o.rest, j, calls[|calls| - 1]));
      }
    }
  }

  // ---------- consequences ----------

  lemma {:induction false} BytesAreAll(bs: seq<Pending>)
    ensures |Bytes(bs)| == Start(bs, |bs|)
  {
    if bs != [] {
      BytesAreAll(bs[1..]);
      StartOfRest(bs, |bs|);
    }
  }

  /** The remaining bytes are the original ones with those of the call dropped from the front. */
  lemma {:induction false} FinishDrops(bs: seq<Pending>, c: Call)
    requires AllNonEmpty(bs)
    ensures c.bytes >= |Bytes(bs)| ==> Finish(bs, c).rest == []
    ensures c.bytes < |Bytes(bs)| ==> Finish(bs, c).rest != [] && Bytes(Finish(bs, c).rest) == Bytes(bs)[c.bytes..]
    decreases |bs|
  {
    if bs != [] {
      var d := bs[0].data;
      if c.bytes > |d| {
        FinishDrops(bs[1..], c.(bytes := c.bytes - |d|));
      } else if c.bytes == |d| {
        if bs[1..] != [] {
          assert bs[1..][0].data != [];
        }
      } else {
        assert Bytes(bs)[c.bytes..] == d[c.bytes..] + Bytes(bs[1..]);
      }
    }
  }

  /** What is left is shorter by the bytes done. */
  lemma FinishShrinks(bs: seq<Pending>, c: Call)
    requires AllNonEmpty(bs) || |bs| == 1
    ensures Finish(bs, c).rest == [] || |Bytes(Finish(bs, c).rest)| + c.bytes == |Bytes(bs)|
  {
    if AllNonEmpty(bs) {
      FinishDrops(bs, c);
    } else {
      assert bs[0].data == [];
    }
  }

  /** The same over a run: 0 is returned, and no bio left, exactly when every byte is done. */
  lemma {:induction false} RunDrops(bs: seq<Pending>, calls: seq<Call>)
    requires AllNonEmpty(bs)
    ensures Run(bs, calls).rest == [] <==> Total(calls) >= |Bytes(bs)|
    ensures Bytes(Run(bs, calls).rest) == if Total(calls) >= |Bytes(bs)| then [] else Bytes(bs)[Total(calls)..]
    decreases |calls|
  {
    if calls == [] {
      return;
    }
    var front := calls[..|calls| - 1];
    RunDrops(bs, front);
    RunKeepsNonEmpty(bs, front);
    FinishDrops(Run(bs, front).rest, calls[|calls| - 1]);
  }

  lemma {:induction false} FinishKeepsNonEmpty(bs: seq<Pending>, c: Call)
    requires AllNonEmpty(bs)
    ensures AllNonEmpty(Finish(bs, c).rest)
    decreases |bs|
  {
    if bs != [] && c.bytes > |bs[0].data| {
      FinishKeepsNonEmpty(bs[1..], c.(bytes := c.bytes - |bs[0].data|));
    }
  }

  lemma {:induction false} RunKeepsNonEmpty(bs: seq<Pending>, calls: seq<Call>)
    requires AllNonEmpty(bs)
    ensures AllNonEmpty(Run(bs, calls).rest)
    decreases |calls|
  {
    if calls != [] {
      RunKeepsNonEmpty(bs, calls[..|calls| - 1]);
      FinishKeepsNonEmpty(Run(bs, calls[..|calls| - 1]).rest, calls[|calls| - 1]);
    }
  }

  /** Completing m and then n bytes is completing m + n. */
  lemma {:induction false} TwoCallsAreOne(bs: seq<Pending>, m: nat, n: nat, failed: bool)
    requires AllNonEmpty(bs)
    ensures Run(bs, [Call(m, failed), Call(n, failed)]) == Finish(bs, Call(m + n, failed))
  {
    var c, d := Call(m, failed), Call(n, failed);
    assert [c, d][..1] == [c] && [c][..0] == [];
    assert Run(bs, [c]) == Finish(bs, c);
    FinishTwice(bs, m, n, failed);
  }

  lemma {:induction false} FinishTwice(bs: seq<Pending>, m: nat, n: nat, failed: bool)
    requires AllNonEmpty(bs)
    ensures Finish(bs, Call(m + n, failed)) == Then(Finish(bs, Call(m, failed)), Call(n, failed))
    decreases |bs|
  {
    hide Then;
    if bs == [] {
      assert Then(Outcome([], []), Call(n, failed)) == Outcome([], []) by {
        NothingLeft(n, failed);
      }
    } else {
      var d := |bs[0].data|;
      hide Finish;
      if m > d {
        FinishTwice(bs[1..], m - d, n, failed);
        BeyondFirst(bs, m, n, failed);
      } else if m == d {
        EndsFirst(bs, n, failed);
      } else {
        WithinFirst(bs, m, n, failed);
      }
    }
  }

  lemma NothingLeft(n: nat, failed: bool)
    ensures Then(Outcome([], []), Call(n, failed)) == Outcome([], [])
  {
  }

  /** The first call goes beyond the first bio, and what holds behind it is known. */
  lemma BeyondFirst(bs: seq<Pending>, m: nat, n: nat, failed: bool)
    requires bs != [] && m > |bs[0].data|
    requires var d := |bs[0].data|;
             Finish(bs[1..], Call(m - d + n, failed)) == Then(Finish(bs[1..], Call(m - d, failed)), Call(n, failed))
    ensures Finish(bs, Call(m + n, failed)) == Then(Finish(bs, Call(m, failed)), Call(n, failed))
  {
    hide Finish, Then, Prepend;
    FinishFirst(bs, Call(m, failed));
    FinishFirst(bs, Call(m + n, failed));
    PrependThen(End(bs[0].id, bs[0].good && !failed), Finish(bs[1..], Call(m - |bs[0].data|, failed)), Call(n, failed));
  }

  function Prepend(e: End, o: Outcome): Outcome { Outcome(o.rest, [e] + o.ended) }

  lemma PrependThen(e: End, o: Outcome, c: Call)
    ensures Then(Prepend(e, o), c) == Prepend(e, Then(o, c))
  {
    hide Finish;
    var p := Finish(o.rest, c);
    assert [e] + (o.ended + p.ended) == ([e] + o.ended) + p.ended;
  }

  /** The first call ends just the first bio. */
  lemma EndsFirst(bs: seq<Pending>, n: nat, failed: bool)
    requires AllNonEmpty(bs) && bs != []
    ensures var d := |bs[0].data|; Finish(bs, Call(d + n, failed)) == Then(Finish(bs, Call(d, failed)), Call(n, failed))
  {
    var d := |bs[0].data|;
    if n > 0 {
      FinishFirst(bs, Call(d + n, failed));
    } else if bs[1..] != [] {
      assert bs[1..][0].data != [];
    }
  }

  /** The first call stays within the first bio. */
  lemma WithinFirst(bs: seq<Pending>, m: nat, n: nat, failed: bool)
    requires AllNonEmpty(bs) && bs != [] && m < |bs[0].data|
    ensures Finish(bs, Call(m + n, failed)) == Then(Finish(bs, Call(m, failed)), Call(n, failed))
  {
    hide Finish;
    if m > 0 {
      var b := bs[0];
      var b' := Pending(b.id, b.data[m..], b.good && !failed);
      var bs' := [b'] + bs[1..];
      FinishHead(bs, Call(m, failed));
      assert Finish(bs, Call(m, failed)) == Outcome(bs', []);
      assert bs'[1..] == bs[1..] && |b'.data| == |b.data| - m;
      if m + n > |b.data| {
        FinishFirst(bs, Call(m + n, failed));
        FinishFirst(bs', Call(n, failed));
      } else {
        FinishHead(bs, Call(m + n, failed));
        FinishHead(bs', Call(n, failed));
        assert b.data[m..][n..] == b.data[m + n..];
      }
    } else {
      FinishNothing(bs, failed);
    }
  }

  lemma FinishNothing(bs: seq<Pending>, failed: bool)
    requires AllNonEmpty(bs)
    ensures Finish(bs, Call(0, failed)) == Outcome(bs, [])
  {
  }

  lemma FinishFirst(bs: seq<Pending>, c: Call)
    requires bs != [] && c.bytes > |bs[0].data|
    ensures Finish(bs, c) == Prepend(End(bs[0].id, bs[0].good && !c.failed), Finish(bs[1..], Call(c.bytes - |bs[0].data|, c.failed)))
  {
  }

  // ---------- the sector counters, which count whole sectors call by call ----------

  /** What hard_sector has moved on by after these calls. */
  function SectorSum(calls: seq<Call>): nat
    decreases |calls|
  {
    if calls == [] then 0 else SectorSum(calls[..|calls| - 1]) + calls[|calls| - 1].bytes / 512
  }

  /** Bytes beyond the last whole sector, summed over the calls. */
  function OddBytes(calls: seq<Call>): nat
    decreases |calls|
  {
    if calls == [] then 0 else OddBytes(calls[..|calls| - 1]) + calls[|calls| - 1].bytes % 512
  }

  lemma {:induction false} BytesBySectors(calls: seq<Call>)
    ensures Total(calls) == 512 * SectorSum(calls) + OddBytes(calls)
    decreases |calls|
  {
    if calls != [] {
      BytesBySectors(calls[..|calls| - 1]);
      var n := calls[|calls| - 1].bytes;
      assert n == 512 * (n / 512) + n % 512;
    }
  }

  /** The sector counter says how many whole sectors are done exactly when the odd bytes do not make up a sector. */
  lemma SectorsInStep(calls: seq<Call>)
    ensures SectorSum(calls) == Total(calls) / 512 <==> OddBytes(calls) < 512
    ensures SectorSum(calls) <= Total(calls) / 512
  {
    BytesBySectors(calls);
    hide SectorSum, OddBytes, Total;
  }

  /** Two half sectors make the counter fall behind. */
  lemma HalfSectorsAreLost()
    ensures var calls := [Call(256, false), Call(256, false)]; SectorSum(calls) == 0 && Total(calls) == 512
  {
    var calls := [Call(256, false), Call(256, false)];
    assert calls[..1] == [Call(256, false)] && calls[..1][..0] == [];
    assert SectorSum(calls[..1]) == 0 && Total(calls[..1]) == 256;
  }
}
