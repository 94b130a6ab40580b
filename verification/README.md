# Proofs about the block and crypto layers of Linux 2.6.24

A model, in Dafny, of the request queue, the elevator and the I/O schedulers, and of the optimised ciphers, modes, digests and
queues of the crypto layer, as they stand in the kernel tree under `fri/keybutton-gpio/linux-2.6.24-el2440-v2.0`, with proofs of
what they promise. `dafny verify dfyconfig.toml` checks it all.

Each part has a specification on values (states, sequences, maps), lemmas about it, and classes whose methods update the fields
that the source updates and are proved equal to the specification. What runs under a queue lock is one step; where the source
drops the lock between steps (the worker of cryptd), the steps are separate and others may come in between.

| part | files |
|---|---|
| ordered requests (barriers) | OrderedSpec, OrderedProofs, OrderedStrays, RequestQueue |
| partial completion | PartialSpec, PartialCompletion |
| segments and scatter lists | Segments, SegmentMerges |
| anticipatory scheduler | Anticipatory, AsQueue |
| deadline scheduler | RequestLists, DeadlineSpec, DeadlineProofs, Deadline |
| CFQ scheduler | ServiceTree, CfqSpec, CfqProofs, CfqRuns, Cfq |
| merge hash and merging | UniqueLists, MergeHashSpec, MergeHashProofs, MergeHashCover, MergeHash |
| tags | TagSpec, TagProofs, Tags |
| submission of bios | BioOrder, BioSubmission |
| Camellia | CamelliaCore, CamelliaCipher, CamelliaKeys, CamelliaFold, CamelliaSetup |
| CBC over scattered memory | CbcSpec, CbcSegments, ScatterSpec, CbcWalk |
| multiplication in GF(2^128) | Gf128, Gf128Product, Gf128Tables |
| crypto queue and its worker | BacklogSpec, CryptoQueue |
| MD4 | Md4Spec, Md4 |
| names of algorithms | NameSpec, NameProofs, NameGrammar, NameParser |

What is not shown by the source is a parameter: the S-boxes of Camellia and the block cipher under CBC are arbitrary functions
(the latter with an inverse), the `BIOVEC_*` macros are arbitrary predicates, an rbtree is the sequence of its keys (for the
service tree of CFQ, a tree that any rebalancing may reshape), jiffies are integers that do not decrease, the driver and the
submitters are the operations of a run, in any order that their interfaces allow.

## Findings

Properties that the code does not have in general, each with an input and the exact condition under which it does:

- Barrier order (`block/ll_rw_blk.c:337-341`, `block/elevator.c:606-629`). A request that is given back by the driver while a
  sequence runs is filed by its colour. If its barrier was refused (mode withdrawn) while it was at the driver, it has the colour
  of requests behind the next barrier. Input: request, barrier, mode withdrawn, request, barrier, the first request given back
  (`OrderedProofs.WithdrawnModeBreaksOrder`). Condition: no request is given back during a sequence whose colour is not that of
  `orig_bar_rq`. With it all results hold in every run; without it the order can always be broken
  (`OrderedStrays.StrayAlwaysBreaks`). It is met by all runs that refuse barriers only with `in_flight` zero
  (`OrderedStrays.QuietRunsAreSafe`).
- Best next request of AS (`block/as-iosched.c:311-320`). `s1 + maxback` wraps on a device that reaches into the last MAXBACK
  sectors of the number space. Input, with T sector numbers and M for MAXBACK: the request at T-M is dispatched, then requests of
  one sector come in at 0, T-2M, T-2M+1 and again T-M, and the second takes over the third; the cache goes to T-2M although 0 is
  preferred (`Anticipatory.CacheCanBeWrong`). Condition: the device ends MAXBACK sectors below T, whatever `max_sectors` is, from
  two sectors on (`Anticipatory.OptimalExactlyBelow`, both directions; `blk_queue_max_sectors` sets at least a page).
- Merge offers (`block/elevator.c:472-478`). The hash look-up returns the first request that ends at the sector; if the bio may
  not join that one, no other is asked. Input: a read and then a write of sectors 0 to 7, and a read of sector 8
  (`MergeHash.OneHidesAnother`). Condition: every request that ends there may be joined (`MergeHashCover.OfferedIff`, both
  directions).
- Tag maps (`block/ll_rw_blk.c:866-870` and `block/ll_rw_blk.c:1003-1012`). A map that is to grow is clipped to twice
  `nr_requests`, and the old contents are copied whole. Input: depth 9, all tags out, `nr_requests` lowered to 4, depth 10 asked
  for (`Tags.ResizeGoesBeyond`). Condition: the depth does not grow, or its clipped value is not below the old one
  (`TagProofs.ResizeInBounds`, both directions).
- Sector counters (`block/ll_rw_blk.c:3530`). `hard_sector` moves by the whole sectors of each call. Input: two calls of 256 bytes
  (`PartialSpec.HalfSectorsAreLost`). Condition: the odd bytes of the calls add up to less than a sector
  (`PartialSpec.SectorsInStep` and `PartialCompletion.Request.EndCalls`, both directions).
- Segment counts (`block/ll_rw_blk.c:1263-1282` and `block/ll_rw_blk.c:1512-1514`). A merge of requests takes one off the count
  when the two bios at the seam fit in a segment together; it does not look at what they are joined to already. Input: five bios
  of which the middle three are adjacent in memory, each seam small enough, all three together a sector too long: counted as 3,
  mapped to 4 entries (`SegmentMerges.FiveMade`, `SegmentMerges.FiveDoesNotFit`). Condition, on machines without virtual merging
  and with some memory that is neither bounced nor cut by a boundary: no clustering, or `max_segment_size` below 1024, or
  `max_sectors` at most two sectors more than a segment holds, or `max_phys_segments` below 3, or `max_hw_segments` below 5
  (`SegmentMerges.SafeExactly`, both directions). The limits and the boundary a queue starts with do not meet it
  (`SegmentMerges.DefaultsAreNotSafe`); a recount is always enough (`Segments.RecountIsEnough`).

Two places where the code promises more than is asked of it: the crypto queue gives every backlogged request its notice even with
`max_qlen` 0, and the parser of names ignores whatever follows the closing parenthesis.

## Model

| member | source | states |
|---|---|---|
| OrderedProofs.StepKeeps | fri/keybutton-gpio/linux-2.6.24-el2440-v2.0/block/ll_rw_blk.c:311-518 | the whole invariant of the barrier protocol is kept by every step: arrivals, dispatch, a look at the queue, dequeue, completion, requeue, a change of mode and the refusal of a queued barrier |
| OrderedProofs.RunKeeps | fri/keybutton-gpio/linux-2.6.24-el2440-v2.0/block/ll_rw_blk.c:311-518 | over any legal run the invariant holds unless some requeued request strayed on the way |
| OrderedProofs.StageHandedInTurn | fri/keybutton-gpio/linux-2.6.24-el2440-v2.0/block/ll_rw_blk.c:471-518 | in every state reached by any run, a proxy is handed to the driver only when every fs request that arrived before the barrier is completed and exactly the earlier stages of the plan have completed, once each and in order |
| OrderedProofs.LaterRequestsWait | fri/keybutton-gpio/linux-2.6.24-el2440-v2.0/block/ll_rw_blk.c:471-518 | no fs request is handed out before every barrier that arrived earlier is completed, although the epoch mark is one bit |
| OrderedProofs.EveryArrivalOnce | fri/keybutton-gpio/linux-2.6.24-el2440-v2.0/block/elevator.c:545-641 | conservation: each arrival is in exactly one of scheduler, dispatch queue, driver, completed set, or is the barrier in progress; none is queued twice |
| OrderedProofs.NoStageTwice | fri/keybutton-gpio/linux-2.6.24-el2440-v2.0/block/ll_rw_blk.c:347-373 | BUG_ON(q->ordseq & seq) cannot fire: a proxy that completes belongs to the stage that is current, and that stage has not completed before |
| OrderedProofs.NeverStuck | fri/keybutton-gpio/linux-2.6.24-el2440-v2.0/block/ll_rw_blk.c:471-518 | with nothing at the driver, a look at a non-empty queue always hands something out or takes something off: the end of the drain cannot be missed |
| OrderedProofs.BarrierCompletesLast | fri/keybutton-gpio/linux-2.6.24-el2440-v2.0/block/ll_rw_blk.c:347-373 | a barrier is completed exactly when its whole plan has run and every fs request that arrived earlier is completed; the only other end is a refusal at the head of the queue |
| OrderedProofs.DrainIsOver | fri/keybutton-gpio/linux-2.6.24-el2440-v2.0/block/elevator.c:856-882 | when the head of the queue belongs behind the drain and nothing is in flight, every request of the barrier's epoch or before is completed |
| OrderedProofs.BehindTheFence | fri/keybutton-gpio/linux-2.6.24-el2440-v2.0/block/elevator.c:396-429 | all that the dispatch sort may pass belongs to the newest epoch, so sorting never carries a request over a barrier |
| OrderedProofs.BusyHead | fri/keybutton-gpio/linux-2.6.24-el2440-v2.0/block/ll_rw_blk.c:318-345 | during a sequence, an entry at the head whose colour puts it at the current stage or earlier really belongs to the drain, or is the proxy whose turn it is |
| OrderedProofs.ProxyScan | fri/keybutton-gpio/linux-2.6.24-el2440-v2.0/block/elevator.c:545-641 | a requeued proxy is filed behind exactly what ranks before it |
| OrderedProofs.RefuseKeeps | fri/keybutton-gpio/linux-2.6.24-el2440-v2.0/block/ll_rw_blk.c:471-518 | refusing a queued barrier keeps the whole invariant, whatever the driver still has of its epoch |
| OrderedProofs.WithdrawnModeBreaksOrder | fri/keybutton-gpio/linux-2.6.24-el2440-v2.0/block/ll_rw_blk.c:318-345 | a run in which a request strays: a barrier is refused while the request is at the driver, and a later pre-flush is handed out before it is completed |
| OrderedStrays.StrayAlwaysBreaks | fri/keybutton-gpio/linux-2.6.24-el2440-v2.0/block/elevator.c:514-529 | the condition is exact: whenever a request is given back during a sequence in the colour the barrier does not have, some continuation hands out a stage or completes the barrier although the request came before it and is not completed |
| OrderedStrays.QuietRunsAreSafe | fri/keybutton-gpio/linux-2.6.24-el2440-v2.0/block/ll_rw_blk.c:471-518 | runs in which barriers are refused only with nothing in flight never let a request stray, so all the results above hold of them |
| OrderedSpec.AgainShrinks | fri/keybutton-gpio/linux-2.6.24-el2440-v2.0/block/elevator.c:693-707 | a turn of the loop that neither hands out nor gives up takes an entry off the queue, so the loop ends |
| RequestQueues.NextRequestIsRun | fri/keybutton-gpio/linux-2.6.24-el2440-v2.0/block/elevator.c:709-772 | what the loop does is a legal run of single turns, so the results over runs apply to it |
| RequestQueues.RequestQueue.OrderedCompleteSeq | fri/keybutton-gpio/linux-2.6.24-el2440-v2.0/block/ll_rw_blk.c:347-373 | in-place update of the stage bits, and the completion of the barrier when all are set, as the specified step |
| RequestQueues.RequestQueue.OrderedReqSeq | fri/keybutton-gpio/linux-2.6.24-el2440-v2.0/block/ll_rw_blk.c:318-345 | the stage of a request, decided by its colour alone |
| RequestQueues.RequestQueue.CompletedRequest | fri/keybutton-gpio/linux-2.6.24-el2440-v2.0/block/elevator.c:856-882 | the in-flight count and the end of the drain, as the specified step |
| RequestQueues.RequestQueue.EndRequest | fri/keybutton-gpio/linux-2.6.24-el2440-v2.0/block/ll_rw_blk.c:375-391 | the end_io functions of the proxies and of ordinary requests, as the specified step |
| RequestQueues.RequestQueue.StartSequence | fri/keybutton-gpio/linux-2.6.24-el2440-v2.0/block/ll_rw_blk.c:417-469 | the proxies are stacked in reverse order in front of what follows the barrier, and stages that are not wanted are recorded at once |
| RequestQueues.RequestQueue.CheckOrder | fri/keybutton-gpio/linux-2.6.24-el2440-v2.0/block/ll_rw_blk.c:471-518 | the decision on the head of the queue, with the new state of all fields |
| RequestQueues.RequestQueue.Next | fri/keybutton-gpio/linux-2.6.24-el2440-v2.0/block/elevator.c:709-772 | the loop in place equals the specified function, on every state |
| RequestQueues.RequestQueue.FindRequeuePos | fri/keybutton-gpio/linux-2.6.24-el2440-v2.0/block/elevator.c:545-641 | the scan finds the first entry that is not of an earlier stage |
| RequestQueues.RequestQueue.RequeueRequest | fri/keybutton-gpio/linux-2.6.24-el2440-v2.0/block/elevator.c:514-529 | requeueing to the front, or in stage order while a sequence runs, as the specified step |
| RequestQueues.RequestQueue.DequeueRequest | fri/keybutton-gpio/linux-2.6.24-el2440-v2.0/block/elevator.c:776-790 | the request goes to the driver and is counted, as the specified step |
| RequestQueues.RequestQueue.FinishRequest | fri/keybutton-gpio/linux-2.6.24-el2440-v2.0/block/elevator.c:856-882 | a completion by the driver, as the specified step |
| RequestQueues.RequestQueue.DispatchRequest | fri/keybutton-gpio/linux-2.6.24-el2440-v2.0/block/elevator.c:396-429 | the request enters the queue at any place behind the last entry that sorting may not pass |
| RequestQueues.RequestQueue.DrainElevator | fri/keybutton-gpio/linux-2.6.24-el2440-v2.0/block/elevator.c:531-543 | everything the scheduler held is appended to the queue, each request once |
| RequestQueues.RequestQueue.AddBackRequest | fri/keybutton-gpio/linux-2.6.24-el2440-v2.0/block/elevator.c:545-641 | back insertion empties the scheduler first, then appends |
| RequestQueues.RequestQueue.NewRequest | fri/keybutton-gpio/linux-2.6.24-el2440-v2.0/block/elevator.c:643-677 | a new request takes the current colour, and a barrier flips it for those to come |
| PartialSpec.RunSplits | fri/keybutton-gpio/linux-2.6.24-el2440-v2.0/block/ll_rw_blk.c:3418-3532 | over any sequence of calls, each bio ends exactly when its last byte is reached, once and in order, failed exactly if a failing call touched it, and what is left is what the calls have not reached |
| PartialSpec.RunDrops | fri/keybutton-gpio/linux-2.6.24-el2440-v2.0/block/ll_rw_blk.c:3418-3532 | what is left after any calls is the data with exactly the completed bytes dropped from the front, and nothing is left exactly when the total reaches the length |
| PartialSpec.FinishDrops | fri/keybutton-gpio/linux-2.6.24-el2440-v2.0/block/ll_rw_blk.c:3418-3532 | one call drops exactly its bytes, and leaves something exactly when it is shorter than the data |
| PartialSpec.TwoCallsAreOne | fri/keybutton-gpio/linux-2.6.24-el2440-v2.0/block/ll_rw_blk.c:3418-3532 | completing m bytes and then n is completing m + n |
| PartialSpec.SectorsInStep | fri/keybutton-gpio/linux-2.6.24-el2440-v2.0/block/ll_rw_blk.c:3389-3416 | the sectors counted call by call equal the sectors of the total exactly if the odd bytes of the calls do not add up to a sector |
| PartialSpec.HalfSectorsAreLost | fri/keybutton-gpio/linux-2.6.24-el2440-v2.0/block/ll_rw_blk.c:3389-3416 | two calls of half a sector each move the counter by nothing |
| PartialCompletion.Request.EndFirst | fri/keybutton-gpio/linux-2.6.24-el2440-v2.0/block/ll_rw_blk.c:3418-3532 | the nested loop over bios and vectors, with its early ways out, leaves exactly the specified bios and endings, keeps the sector counters in step, and returns whether data is left |
| PartialCompletion.Request.EndCalls | fri/keybutton-gpio/linux-2.6.24-el2440-v2.0/block/ll_rw_blk.c:3418-3532 | over any run of calls on an fs request, hard_sector has moved by the whole sectors of each call, which is the start of the data left if and only if the odd bytes add up to less than a sector |
| PartialCompletion.Request.EndLoop | fri/keybutton-gpio/linux-2.6.24-el2440-v2.0/block/ll_rw_blk.c:3453-3511 | the loop: how far it came, in whole vectors and bytes, accounts for all bytes of the call |
| PartialCompletion.Request.EndIo | fri/keybutton-gpio/linux-2.6.24-el2440-v2.0/block/ll_rw_blk.c:520-550 | a bio shrinks by at most its size, and ends when nothing of it is left |
| PartialCompletion.Request.EndBio | fri/keybutton-gpio/linux-2.6.24-el2440-v2.0/block/ll_rw_blk.c:3457-3470 | the first bio is taken off and ended whole |
| PartialCompletion.Request.CutBio | fri/keybutton-gpio/linux-2.6.24-el2440-v2.0/block/ll_rw_blk.c:3522-3527 | the first bio is cut inside a vector: exactly the bytes of the call are gone from it |
| PartialCompletion.Request.RecalcSectors | fri/keybutton-gpio/linux-2.6.24-el2440-v2.0/block/ll_rw_blk.c:3389-3416 | the hard counters move on, and the driver's counters follow them if they had fallen behind |
| Segments.GreedyStaysAhead | fri/keybutton-gpio/linux-2.6.24-el2440-v2.0/block/ll_rw_blk.c:1304-1362 | joining whenever allowed is optimal: against any permitted way to cut, fewer segments, or as many with no more in the last |
| Segments.CountIsSafe | fri/keybutton-gpio/linux-2.6.24-el2440-v2.0/block/ll_rw_blk.c:1191-1261 | the count of blk_recalc_rq_segments, with its forced cuts for high pages and oversize, bounds the entries of blk_rq_map_sg for every list of vectors |
| Segments.CountIsExact | fri/keybutton-gpio/linux-2.6.24-el2440-v2.0/block/ll_rw_blk.c:1191-1261 | without oversize, the two agree exactly on vectors that are not high pages |
| Segments.CountIsValid | fri/keybutton-gpio/linux-2.6.24-el2440-v2.0/block/ll_rw_blk.c:1191-1261 | the count is the number of segments of a permitted way to cut the vectors |
| Segments.HwAtMostPhys | fri/keybutton-gpio/linux-2.6.24-el2440-v2.0/block/ll_rw_blk.c:1191-1261 | there are never more hardware segments than physical ones, and never none for a non-empty list |
| Segments.EntriesCover | fri/keybutton-gpio/linux-2.6.24-el2440-v2.0/block/ll_rw_blk.c:1304-1362 | the entries run through the same bytes of memory as the vectors, in order |
| Segments.EntriesKeepLimits | fri/keybutton-gpio/linux-2.6.24-el2440-v2.0/block/ll_rw_blk.c:1304-1362 | an entry made of several vectors respects the size limit and stays within one boundary window |
| Segments.Request.RecalcSegments | fri/keybutton-gpio/linux-2.6.24-el2440-v2.0/block/ll_rw_blk.c:1191-1261 | the loop with its gotos computes the specified counts and front and back sizes |
| Segments.RecountIsEnough | fri/keybutton-gpio/linux-2.6.24-el2440-v2.0/block/ll_rw_blk.c:1191-1261 | after a recount no greedy cutting of the vectors makes more entries than the count |
| Segments.Request.MapSg | fri/keybutton-gpio/linux-2.6.24-el2440-v2.0/block/ll_rw_blk.c:1304-1362 | whenever the count is enough, the list holds exactly the greedy entries, no more than were counted, the end mark on the last one only and the rest of the array untouched |
| SegmentMerges.SafeExactly | fri/keybutton-gpio/linux-2.6.24-el2440-v2.0/block/ll_rw_blk.c:1263-1282 | given some memory that is not bounced and crosses no boundary, the counts kept by addition are enough for the scatter list of every request that back, front and request merges can make if and only if the limits of the queue are tame or allow fewer than five hardware segments |
| SegmentMerges.TameIsSafe | fri/keybutton-gpio/linux-2.6.24-el2440-v2.0/block/ll_rw_blk.c:1493-1539 | whatever a queue joins, under tame limits the counts are enough over every sequence of merges |
| SegmentMerges.DefaultsAreNotSafe | fri/keybutton-gpio/linux-2.6.24-el2440-v2.0/block/ll_rw_blk.c:1934-1950 | the limits that blk_init_queue_node gives a queue, the boundary mask of 0xffffffff among them, are such that a count can be too small |
| SegmentMerges.BuildKeeps | fri/keybutton-gpio/linux-2.6.24-el2440-v2.0/block/ll_rw_blk.c:2863-2934 | every request that merging makes has counts that are the sums over its bios less its joined seams, and joined seams come at most two in a row with bios on both sides |
| SegmentMerges.ShortFits | fri/keybutton-gpio/linux-2.6.24-el2440-v2.0/block/ll_rw_blk.c:1263-1282 | while no chain of joined bios is longer than a segment may be, the count is at least the number of entries |
| SegmentMerges.FiveMade | fri/keybutton-gpio/linux-2.6.24-el2440-v2.0/block/ll_rw_blk.c:1493-1539 | five bios of which the middle three are one stretch a sector too long merge to a count of 3 |
| SegmentMerges.FiveDoesNotFit | fri/keybutton-gpio/linux-2.6.24-el2440-v2.0/block/ll_rw_blk.c:1304-1362 | the scatter list of those five needs more than 3 entries |
| SegmentMerges.MergingRequest.BackMerge | fri/keybutton-gpio/linux-2.6.24-el2440-v2.0/block/ll_rw_blk.c:1416-1452 | the counts, sectors and list of bios become those of the specification, or the request is unchanged and closed to merging |
| SegmentMerges.MergingRequest.FrontMerge | fri/keybutton-gpio/linux-2.6.24-el2440-v2.0/block/ll_rw_blk.c:1454-1491 | the same at the front |
| SegmentMerges.MergingRequest.MergeRequests | fri/keybutton-gpio/linux-2.6.24-el2440-v2.0/block/ll_rw_blk.c:1493-1539 | the counts become the sums less the joined seams, or nothing changes |
| Anticipatory.PreferenceIsOrder | fri/keybutton-gpio/linux-2.6.24-el2440-v2.0/block/as-iosched.c:280-348 | for a fixed head position the choice is a total order: it is transitive, decides every pair, and does not depend on the order of its arguments |
| Anticipatory.NeighboursSuffice | fri/keybutton-gpio/linux-2.6.24-el2440-v2.0/block/as-iosched.c:355-378 | comparing the successor (or the first) with the predecessor finds the best of all queued requests |
| Anticipatory.StepKeeps | fri/keybutton-gpio/linux-2.6.24-el2440-v2.0/block/as-iosched.c:748-975 | every operation keeps next_rq the best of all queued requests |
| Anticipatory.CacheIsOptimal | fri/keybutton-gpio/linux-2.6.24-el2440-v2.0/block/as-iosched.c:748-975 | in every reachable state next_rq is the best of all queued requests, if the device ends MAXBACK sectors below the largest sector number |
| Anticipatory.CacheCanBeWrong | fri/keybutton-gpio/linux-2.6.24-el2440-v2.0/block/as-iosched.c:280-348 | on a larger device a run with requests of at most two sectors leads to a next_rq that is not the best: the addition of MAXBACK wraps |
| Anticipatory.OptimalExactlyBelow | fri/keybutton-gpio/linux-2.6.24-el2440-v2.0/block/as-iosched.c:280-348 | the condition is exact for every max_sectors: the cache is right in all reachable states if and only if the device ends MAXBACK sectors below the largest sector number |
| AsQueue.AsData.FindNextRq | fri/keybutton-gpio/linux-2.6.24-el2440-v2.0/block/as-iosched.c:355-378 | the method computes the specified choice |
| AsQueue.AsData.RemoveQueuedRequest | fri/keybutton-gpio/linux-2.6.24-el2440-v2.0/block/as-iosched.c:856-880 | a removed request is replaced as next_rq, if it was that |
| AsQueue.AsData.MoveToDispatch | fri/keybutton-gpio/linux-2.6.24-el2440-v2.0/block/as-iosched.c:931-975 | exactly the request named leaves the tree and is dispatched; the cache stays the best |
| AsQueue.AsData.AddRequest | fri/keybutton-gpio/linux-2.6.24-el2440-v2.0/block/as-iosched.c:1144-1170 | a request is added, after one at the same sector has been dispatched; the cache stays the best |
| AsQueue.AsData.MergedBio | fri/keybutton-gpio/linux-2.6.24-el2440-v2.0/block/as-iosched.c:1221-1238 | a back merge keeps the cache the best |
| AsQueue.AsData.MergedRequests | fri/keybutton-gpio/linux-2.6.24-el2440-v2.0/block/as-iosched.c:1240-1269 | the merge of two adjacent requests keeps the cache the best |
| AsQueue.AsData.ForceDispatch | fri/keybutton-gpio/linux-2.6.24-el2440-v2.0/block/as-iosched.c:984-1013 | the forced drain dispatches every queued request exactly once and leaves nothing |
| DeadlineProofs.StepKeeps | fri/keybutton-gpio/linux-2.6.24-el2440-v2.0/block/deadline-iosched.c:72-335 | every operation keeps the FIFOs and sort trees holding the same requests, at most one next_rq, queued, and each FIFO in order of expiry |
| DeadlineProofs.WriteIsServed | fri/keybutton-gpio/linux-2.6.24-el2440-v2.0/block/deadline-iosched.c:245-335 | while a write is queued, more than (writes_starved + 1) * max(1, fifo_batch) dispatch calls cannot all pass over writes, whatever is added and merged between them |
| DeadlineProofs.PatienceBounds | fri/keybutton-gpio/linux-2.6.24-el2440-v2.0/block/deadline-iosched.c:245-335 | the number of calls that pass over writes is bounded by a measure of the counters, from any state |
| DeadlineProofs.CallUsesPatience | fri/keybutton-gpio/linux-2.6.24-el2440-v2.0/block/deadline-iosched.c:245-335 | each call that passes over a queued write uses up some of that measure |
| DeadlineProofs.HeadTellsExpiry | fri/keybutton-gpio/linux-2.6.24-el2440-v2.0/block/deadline-iosched.c:228-239 | testing the head of a FIFO decides whether any request in it has expired |
| DeadlineProofs.DispatchKeeps | fri/keybutton-gpio/linux-2.6.24-el2440-v2.0/block/deadline-iosched.c:245-335 | a call dispatches exactly one request unless nothing is queued, and keeps the indexes |
| DeadlineProofs.AddKeeps | fri/keybutton-gpio/linux-2.6.24-el2440-v2.0/block/deadline-iosched.c:100-113 | adding, with the dispatch of a request at the same sector, keeps the indexes and the order of expiry |
| DeadlineProofs.FrontMergeKeeps | fri/keybutton-gpio/linux-2.6.24-el2440-v2.0/block/deadline-iosched.c:156-168 | repositioning after a front merge keeps the indexes |
| DeadlineProofs.MergeRequestsKeeps | fri/keybutton-gpio/linux-2.6.24-el2440-v2.0/block/deadline-iosched.c:170-189 | a request that takes over an earlier expiry moves to that turn, so the FIFO stays in order |
| DeadlineProofs.RemoveKeeps | fri/keybutton-gpio/linux-2.6.24-el2440-v2.0/block/deadline-iosched.c:118-124 | removal keeps the indexes and the next requests |
| Deadline.DeadlineData.AddRqRb | fri/keybutton-gpio/linux-2.6.24-el2440-v2.0/block/deadline-iosched.c:72-84 | insertion after the dispatch of a request at the same sector, as the specified step |
| Deadline.DeadlineData.AddRequest | fri/keybutton-gpio/linux-2.6.24-el2440-v2.0/block/deadline-iosched.c:100-113 | as the specified step, keeping the invariant |
| Deadline.DeadlineData.RemoveRequest | fri/keybutton-gpio/linux-2.6.24-el2440-v2.0/block/deadline-iosched.c:118-124 | as the specified step |
| Deadline.DeadlineData.MoveRequest | fri/keybutton-gpio/linux-2.6.24-el2440-v2.0/block/deadline-iosched.c:206-222 | one next_rq is set, for the direction moved in, and last_sector follows |
| Deadline.DeadlineData.MergedRequest | fri/keybutton-gpio/linux-2.6.24-el2440-v2.0/block/deadline-iosched.c:156-168 | as the specified step, keeping the invariant |
| Deadline.DeadlineData.MergedRequests | fri/keybutton-gpio/linux-2.6.24-el2440-v2.0/block/deadline-iosched.c:170-189 | as the specified step, keeping the invariant |
| Deadline.DeadlineData.CheckFifo | fri/keybutton-gpio/linux-2.6.24-el2440-v2.0/block/deadline-iosched.c:228-239 | looking at the first request alone tells whether any request of the FIFO has expired |
| Deadline.DeadlineData.FindRequest | fri/keybutton-gpio/linux-2.6.24-el2440-v2.0/block/deadline-iosched.c:306-325 | the choice between the expired head, the next request and the first in the tree, and the move |
| Deadline.DeadlineData.RunBatch | fri/keybutton-gpio/linux-2.6.24-el2440-v2.0/block/deadline-iosched.c:253-271 | whether the batch goes on, and its next request |
| Deadline.DeadlineData.NewBatch | fri/keybutton-gpio/linux-2.6.24-el2440-v2.0/block/deadline-iosched.c:273-325 | the choice of direction, with the count of passed-over writes |
| Deadline.DeadlineData.DispatchRequests | fri/keybutton-gpio/linux-2.6.24-el2440-v2.0/block/deadline-iosched.c:245-335 | the whole function with its gotos is the specified step; 0 exactly when both FIFOs are empty |
| ServiceTree.InsertInorder | fri/keybutton-gpio/linux-2.6.24-el2440-v2.0/block/cfq-iosched.c:446-509 | the descent puts the queue at one place of the in-order sequence, and it went left all the way exactly if that place is the first |
| ServiceTree.FirstIsFirst | fri/keybutton-gpio/linux-2.6.24-el2440-v2.0/block/cfq-iosched.c:387-393 | the leftmost node is the first in order |
| CfqProofs.RbFirstOk | fri/keybutton-gpio/linux-2.6.24-el2440-v2.0/block/cfq-iosched.c:387-393 | the cached leftmost node answers as rb_first would |
| CfqProofs.TreeAddCached | fri/keybutton-gpio/linux-2.6.24-el2440-v2.0/block/cfq-iosched.c:446-509 | adding or moving a queue keeps the cache NULL or leftmost, under every rebalancing |
| CfqProofs.ResortOk | fri/keybutton-gpio/linux-2.6.24-el2440-v2.0/block/cfq-iosched.c:514-521 | resorting keeps the tree, the count and the cache |
| CfqProofs.AddRrOk | fri/keybutton-gpio/linux-2.6.24-el2440-v2.0/block/cfq-iosched.c:527-535 | a queue that becomes busy joins the tree, and busy_queues counts it |
| CfqProofs.DelRrOk | fri/keybutton-gpio/linux-2.6.24-el2440-v2.0/block/cfq-iosched.c:541-552 | a queue that is no longer busy leaves the tree; the count was positive |
| CfqProofs.FindNextOk | fri/keybutton-gpio/linux-2.6.24-el2440-v2.0/block/cfq-iosched.c:407-429 | a next request is found exactly if another one is queued, and is then queued |
| CfqProofs.TakenOk | fri/keybutton-gpio/linux-2.6.24-el2440-v2.0/block/cfq-iosched.c:557-570 | taking a request out keeps the lists alike and next_rq NULL exactly when nothing is left |
| CfqProofs.RemoveOk | fri/keybutton-gpio/linux-2.6.24-el2440-v2.0/block/cfq-iosched.c:652-666 | removal keeps the whole invariant; a queue that becomes empty leaves the round-robin list |
| CfqProofs.AddRbOk | fri/keybutton-gpio/linux-2.6.24-el2440-v2.0/block/cfq-iosched.c:572-595 | insertion, with the dispatch of a request at the same sector, keeps the invariant |
| CfqProofs.InsertRequestOk | fri/keybutton-gpio/linux-2.6.24-el2440-v2.0/block/cfq-iosched.c:1791-1803 | adding a request keeps the invariant |
| CfqProofs.FrontMergeOk | fri/keybutton-gpio/linux-2.6.24-el2440-v2.0/block/cfq-iosched.c:597-603 | a front merge keeps the invariant |
| CfqProofs.BackMergeOk | fri/keybutton-gpio/linux-2.6.24-el2440-v2.0/block/cfq-iosched.c:683-691 | a back merge keeps the invariant |
| CfqProofs.MergeRequestsOk | fri/keybutton-gpio/linux-2.6.24-el2440-v2.0/block/cfq-iosched.c:693-705 | merging two requests, with the exchange of turns, keeps the invariant |
| CfqRuns.RunKeeps | fri/keybutton-gpio/linux-2.6.24-el2440-v2.0/block/cfq-iosched.c:387-705 | in every reachable state next_rq is NULL exactly when sort_list is empty, exactly then the queue is off the rr list, the service tree holds exactly the queues on it, busy_queues is its size, and the cached node is NULL or the true leftmost |
| CfqRuns.StepKeeps | fri/keybutton-gpio/linux-2.6.24-el2440-v2.0/block/cfq-iosched.c:387-705 | every call of the block layer keeps the invariant |
| Cfq.CfqData.RbFirst | fri/keybutton-gpio/linux-2.6.24-el2440-v2.0/block/cfq-iosched.c:387-393 | fills the cache when it is empty and returns the first queue in order |
| Cfq.CfqData.ServiceTreeAdd | fri/keybutton-gpio/linux-2.6.24-el2440-v2.0/block/cfq-iosched.c:446-509 | the descending loop, with its left flag, as the specified step |
| Cfq.CfqData.AddCfqqRr | fri/keybutton-gpio/linux-2.6.24-el2440-v2.0/block/cfq-iosched.c:527-535 | as the specified step |
| Cfq.CfqData.DelCfqqRr | fri/keybutton-gpio/linux-2.6.24-el2440-v2.0/block/cfq-iosched.c:541-552 | as the specified step |
| Cfq.CfqData.RemoveRequest | fri/keybutton-gpio/linux-2.6.24-el2440-v2.0/block/cfq-iosched.c:652-666 | as the specified step |
| Cfq.CfqData.DispatchInsert | fri/keybutton-gpio/linux-2.6.24-el2440-v2.0/block/cfq-iosched.c:926-937 | as the specified step |
| Cfq.CfqData.AddRqRb | fri/keybutton-gpio/linux-2.6.24-el2440-v2.0/block/cfq-iosched.c:572-595 | as the specified step |
| Cfq.CfqData.InsertRequest | fri/keybutton-gpio/linux-2.6.24-el2440-v2.0/block/cfq-iosched.c:1791-1803 | as the specified step, keeping the invariant |
| Cfq.CfqData.MergedRequest | fri/keybutton-gpio/linux-2.6.24-el2440-v2.0/block/cfq-iosched.c:683-691 | as the specified step, keeping the invariant |
| Cfq.CfqData.ForcedDispatchCfqq | fri/keybutton-gpio/linux-2.6.24-el2440-v2.0/block/cfq-iosched.c:1071-1082 | the drain of one queue ends with its FIFO empty (BUG_ON at line 1080), its requests dispatched once each and the other queues as they were |
| Cfq.CfqData.ForcedDispatch | fri/keybutton-gpio/linux-2.6.24-el2440-v2.0/block/cfq-iosched.c:1088-1104 | the drain terminates, dispatches every queued request exactly once and ends with busy_queues zero (BUG_ON at line 1101) |
| MergeHashProofs.FindAgrees | fri/keybutton-gpio/linux-2.6.24-el2440-v2.0/block/elevator.c:310-330 | a look-up by end sector succeeds exactly if some mergeable held request ends there, returns one that does, and keeps the hash right while dropping unmergeable ones |
| MergeHashProofs.InsertKeeps | fri/keybutton-gpio/linux-2.6.24-el2440-v2.0/block/elevator.c:545-641 | BUG_ON(ELV_ON_HASH(rq)) cannot fire for a new request, and the invariant is kept |
| MergeHashProofs.DispatchKeeps | fri/keybutton-gpio/linux-2.6.24-el2440-v2.0/block/elevator.c:438-450 | a dispatched request is off the hash and not last_merge, and nr_sorted was positive |
| MergeHashProofs.BackKeeps | fri/keybutton-gpio/linux-2.6.24-el2440-v2.0/block/elevator.c:486-497 | after a back merge the request is rehashed for its new end |
| MergeHashProofs.FrontKeeps | fri/keybutton-gpio/linux-2.6.24-el2440-v2.0/block/elevator.c:486-497 | after a front merge the end is unchanged and the hash right without rehashing |
| MergeHashProofs.JoinKeeps | fri/keybutton-gpio/linux-2.6.24-el2440-v2.0/block/elevator.c:499-512 | when two requests become one, the absorbed one is off the hash and the other is hashed for the common end |
| MergeHashProofs.RefuseKeeps | fri/keybutton-gpio/linux-2.6.24-el2440-v2.0/block/ll_rw_blk.c:1416-1452 | a request that is marked unmergeable is no longer last_merge, and the hash stays right |
| MergeHashCover.LookAgrees | fri/keybutton-gpio/linux-2.6.24-el2440-v2.0/block/elevator.c:454-484 | a merge is offered only with a request the bio touches and may join; and one is offered whenever some request ends where the bio starts, if all that do may be joined |
| MergeHashCover.OfferedIff | fri/keybutton-gpio/linux-2.6.24-el2440-v2.0/block/elevator.c:454-484 | the condition is exact: when the hash decides, an offer is made in every order of the chains if and only if some request ends there and all that do may be joined |
| MergeHashCover.MakeRequestOk | fri/keybutton-gpio/linux-2.6.24-el2440-v2.0/block/ll_rw_blk.c:2966-3083 | a bio keeps the hash right on every path; each of its sectors is transferred once more than before, every other one as often as before |
| MergeHashCover.JoinTransfers | fri/keybutton-gpio/linux-2.6.24-el2440-v2.0/block/ll_rw_blk.c:2863-2914 | two adjacent requests and the one that replaces them transfer each sector as often |
| MergeHash.OneHidesAnother | fri/keybutton-gpio/linux-2.6.24-el2440-v2.0/block/elevator.c:454-484 | a run after which a read that could be merged is not offered, because a write ends at the same sector and comes first on the chain |
| MergeHash.RunFinds | fri/keybutton-gpio/linux-2.6.24-el2440-v2.0/block/elevator.c:285-512 | in every reachable state the look-up agrees with a scan, last_merge is NULL or held, and nr_sorted is the number held |
| MergeHash.RunTransfers | fri/keybutton-gpio/linux-2.6.24-el2440-v2.0/block/ll_rw_blk.c:2863-3083 | conservation over any run: the requests held or dispatched transfer each sector exactly as often as bios asked for it, overlapping bios included |
| MergeHash.Elevator.RqhashFind | fri/keybutton-gpio/linux-2.6.24-el2440-v2.0/block/elevator.c:310-330 | the walk along the chain, with its deletions, as the specified search |
| MergeHash.Elevator.Merge | fri/keybutton-gpio/linux-2.6.24-el2440-v2.0/block/elevator.c:454-484 | the one-hit cache, the hash and the scheduler asked in this order |
| MergeHash.Elevator.InsertSort | fri/keybutton-gpio/linux-2.6.24-el2440-v2.0/block/elevator.c:545-641 | as the specified step, keeping the invariant |
| MergeHash.Elevator.DispatchRequest | fri/keybutton-gpio/linux-2.6.24-el2440-v2.0/block/elevator.c:438-450 | as the specified step; BUG_ON(ELV_ON_HASH(rq)) in elv_dequeue_request cannot fire |
| MergeHash.Elevator.MergedRequest | fri/keybutton-gpio/linux-2.6.24-el2440-v2.0/block/elevator.c:486-497 | as the specified step |
| MergeHash.Elevator.AttemptMerge | fri/keybutton-gpio/linux-2.6.24-el2440-v2.0/block/ll_rw_blk.c:2863-2914 | succeeds exactly if the two are mergeable, adjacent, alike and within limits, and then joins them |
| MergeHash.Elevator.RefuseMerge | fri/keybutton-gpio/linux-2.6.24-el2440-v2.0/block/ll_rw_blk.c:1416-1452 | as the specified step |
| MergeHash.Elevator.MakeRequest | fri/keybutton-gpio/linux-2.6.24-el2440-v2.0/block/ll_rw_blk.c:2966-3083 | the whole path of a bio without barrier, as the specified step |
| TagProofs.StartKeeps | fri/keybutton-gpio/linux-2.6.24-el2440-v2.0/block/ll_rw_blk.c:1092-1127 | a request gets the lowest free tag below the depth, unless all are set, and all indexes agree afterwards |
| TagProofs.EndKeeps | fri/keybutton-gpio/linux-2.6.24-el2440-v2.0/block/ll_rw_blk.c:1035-1070 | neither odd way out can be taken: the tag is within the map and its bit is set; all indexes agree afterwards |
| TagProofs.RequeueKeeps | fri/keybutton-gpio/linux-2.6.24-el2440-v2.0/block/ll_rw_blk.c:2279-2287 | a requeued request gives up its tag and stands at the front |
| TagProofs.ResizeInBounds | fri/keybutton-gpio/linux-2.6.24-el2440-v2.0/block/ll_rw_blk.c:972-1017 | the copy stays within the new map if and only if the depth does not grow or its clipped value is not below the old one |
| TagProofs.ResizeKeeps | fri/keybutton-gpio/linux-2.6.24-el2440-v2.0/block/ll_rw_blk.c:972-1017 | a resize within bounds keeps every live tag and all indexes |
| TagProofs.InvalidateRestores | fri/keybutton-gpio/linux-2.6.24-el2440-v2.0/block/ll_rw_blk.c:1143-1149 | all tags are freed, and every unfinished request stands at the front of the queue, the one started earliest first |
| TagProofs.TagsDiffer | fri/keybutton-gpio/linux-2.6.24-el2440-v2.0/block/ll_rw_blk.c:1092-1127 | live tags are distinct |
| Tags.RunAgrees | fri/keybutton-gpio/linux-2.6.24-el2440-v2.0/block/ll_rw_blk.c:972-1149 | in every reachable state, across resizes, set bits, index entries, tags, the busy list and the busy count agree, and live tags are distinct |
| Tags.ResizeGoesBeyond | fri/keybutton-gpio/linux-2.6.24-el2440-v2.0/block/ll_rw_blk.c:972-1017 | a map of depth 9 with all tags out, nr_requests lowered to 4 and a resize to 10: the new map is clipped below a live tag and the copy does not fit |
| Tags.StartedFills | fri/keybutton-gpio/linux-2.6.24-el2440-v2.0/block/ll_rw_blk.c:1092-1127 | requests started one after the other get the tags 0, 1, 2 and so on up to the depth |
| Tags.StepKeeps | fri/keybutton-gpio/linux-2.6.24-el2440-v2.0/block/ll_rw_blk.c:972-1149 | every operation keeps the indexes in agreement |
| Tags.TagQueue.FindFirstZeroBit | fri/keybutton-gpio/linux-2.6.24-el2440-v2.0/block/ll_rw_blk.c:1109-1112 | the first clear bit below a size |
| Tags.TagQueue.StartTag | fri/keybutton-gpio/linux-2.6.24-el2440-v2.0/block/ll_rw_blk.c:1092-1127 | as the specified step, keeping the invariant |
| Tags.TagQueue.EndTag | fri/keybutton-gpio/linux-2.6.24-el2440-v2.0/block/ll_rw_blk.c:1035-1070 | as the specified step, with all its branches |
| Tags.TagQueue.RequeueRequest | fri/keybutton-gpio/linux-2.6.24-el2440-v2.0/block/ll_rw_blk.c:2279-2287 | as the specified step |
| Tags.TagQueue.ResizeTags | fri/keybutton-gpio/linux-2.6.24-el2440-v2.0/block/ll_rw_blk.c:972-1017 | as the specified step; EBUSY exactly for a growing shared map, and an overrun reported exactly when the copy would not fit |
| Tags.TagQueue.Grow | fri/keybutton-gpio/linux-2.6.24-el2440-v2.0/block/ll_rw_blk.c:860-891 | new arrays that start with the old contents and are free behind them |
| Tags.TagQueue.InvalidateTags | fri/keybutton-gpio/linux-2.6.24-el2440-v2.0/block/ll_rw_blk.c:1143-1149 | as the specified step, ending with no tag out |
| BioOrder.ServedByLevels | fri/keybutton-gpio/linux-2.6.24-el2440-v2.0/block/ll_rw_blk.c:3300-3338 | first in, first out is breadth first: a whole level of submissions before those it led to |
| BioOrder.ServedOnce | fri/keybutton-gpio/linux-2.6.24-el2440-v2.0/block/ll_rw_blk.c:3300-3338 | every bio of the tree is served exactly as often as it occurs |
| BioSubmission.Task.GenericMakeRequest | fri/keybutton-gpio/linux-2.6.24-el2440-v2.0/block/ll_rw_blk.c:3300-3338 | from the outside, the whole tree is served in that order and the task is inactive again; from within a callback, the bio is only put on the list |
| BioSubmission.Task.Append | fri/keybutton-gpio/linux-2.6.24-el2440-v2.0/block/ll_rw_blk.c:3300-3338 | the tail pointer addresses the last link, so the bio is put behind all that wait |
| BioSubmission.Task.ServeAll | fri/keybutton-gpio/linux-2.6.24-el2440-v2.0/block/ll_rw_blk.c:3329-3337 | the loop terminates with an empty list, having served everything in order |
| BioSubmission.Task.ServeOne | fri/keybutton-gpio/linux-2.6.24-el2440-v2.0/block/ll_rw_blk.c:3329-3336 | a round serves the first bio and leaves those it submitted behind the rest |
| BioSubmission.Task.MakeRequest | fri/keybutton-gpio/linux-2.6.24-el2440-v2.0/block/ll_rw_blk.c:3211-3287 | the callback is never entered while another runs, and its submissions are appended in order |
| CamelliaCore.MacroFIsF | fri/keybutton-gpio/linux-2.6.24-el2440-v2.0/crypto/camellia.c:146-163 | CAMELLIA_F computes F of section 2.4.1 of RFC 3713 |
| CamelliaCore.LinearLayer | fri/keybutton-gpio/linux-2.6.24-el2440-v2.0/crypto/camellia.c:146-163 | the linear layer of RFC 3713, from two half sums |
| CamelliaCore.RoundAddsKey | fri/keybutton-gpio/linux-2.6.24-el2440-v2.0/crypto/camellia.c:186-200 | CAMELLIA_ROUNDSM with a subkey taken back through half of P is a keyless round with the key added at its end |
| CamelliaCore.MacroFlIsFl | fri/keybutton-gpio/linux-2.6.24-el2440-v2.0/crypto/camellia.c:170-184 | CAMELLIA_FLS computes FL and FLINV |
| CamelliaCore.FlUncarries | fri/keybutton-gpio/linux-2.6.24-el2440-v2.0/crypto/camellia.c:613-640 | FL undoes the carrying of a mask: this is why a mask can be moved through it |
| CamelliaCore.FlInvCarries | fri/keybutton-gpio/linux-2.6.24-el2440-v2.0/crypto/camellia.c:585-611 | FLINV carries a mask over the layer |
| CamelliaCore.FlInverse | fri/keybutton-gpio/linux-2.6.24-el2440-v2.0/crypto/camellia.c:170-184 | FL and FLINV undo each other |
| CamelliaCore.CarryAdds | fri/keybutton-gpio/linux-2.6.24-el2440-v2.0/crypto/camellia.c:585-640 | carrying masks is linear |
| CamelliaCipher.FoldedIsEncrypt | fri/keybutton-gpio/linux-2.6.24-el2440-v2.0/crypto/camellia.c:1214-1314 | for every folded table, all keys and blocks, the optimised cipher equals the cipher of sections 2.2 to 2.4 of RFC 3713 |
| CamelliaCipher.GroupsOnMasks | fri/keybutton-gpio/linux-2.6.24-el2440-v2.0/crypto/camellia.c:1214-1314 | through any number of groups and FL layers, the optimised state is the cipher's state with known masks added |
| CamelliaCipher.DecryptUndoesEncrypt | fri/keybutton-gpio/linux-2.6.24-el2440-v2.0/crypto/camellia.c:1316-1416 | decryption undoes encryption, for any table of subkeys |
| CamelliaFold.SoakedGroupFolds | fri/keybutton-gpio/linux-2.6.24-el2440-v2.0/crypto/camellia.c:643-780 | a group whose subkeys have taken up the masks, their neighbours and half of P is folded as the rounds need it |
| CamelliaFold.FirstKey | fri/keybutton-gpio/linux-2.6.24-el2440-v2.0/crypto/camellia.c:643-703 | the key entering a group is the mask entering it added to the key of its second round |
| CamelliaFold.LastKey | fri/keybutton-gpio/linux-2.6.24-el2440-v2.0/crypto/camellia.c:643-703 | the key leaving a group is the key of its fifth round added to the mask leaving it |
| CamelliaFold.FoldFor128 | fri/keybutton-gpio/linux-2.6.24-el2440-v2.0/crypto/camellia.c:585-780 | the in-place passes over subL, subR and subkey fold the schedule of a 128-bit key |
| CamelliaFold.FoldFor256 | fri/keybutton-gpio/linux-2.6.24-el2440-v2.0/crypto/camellia.c:931-1192 | the same for 192- and 256-bit keys |
| CamelliaSetup.GenerateKa128 | fri/keybutton-gpio/linux-2.6.24-el2440-v2.0/crypto/camellia.c:536-555 | KA of section 2.2 of RFC 3713, for 128-bit keys |
| CamelliaSetup.GenerateKa256 | fri/keybutton-gpio/linux-2.6.24-el2440-v2.0/crypto/camellia.c:855-874 | KA of section 2.2 of RFC 3713, from KL and KR |
| CamelliaSetup.GenerateKb | fri/keybutton-gpio/linux-2.6.24-el2440-v2.0/crypto/camellia.c:875-886 | KB of section 2.2 of RFC 3713 |
| CamelliaSetup.ScheduleFor128 | fri/keybutton-gpio/linux-2.6.24-el2440-v2.0/crypto/camellia.c:494-584 | rotating in place by 15, 30, 45, 60, 77, 94 and 111 in turn puts every subkey of the schedule in its place |
| CamelliaSetup.ScheduleFor256 | fri/keybutton-gpio/linux-2.6.24-el2440-v2.0/crypto/camellia.c:806-930 | the same for the schedule of 192- and 256-bit keys |
| CamelliaSetup.Setup128 | fri/keybutton-gpio/linux-2.6.24-el2440-v2.0/crypto/camellia.c:479-780 | the table is folded from the schedule of RFC 3713 |
| CamelliaSetup.Setup256 | fri/keybutton-gpio/linux-2.6.24-el2440-v2.0/crypto/camellia.c:783-1192 | the table is folded from the schedule of RFC 3713 |
| CamelliaSetup.Setup192 | fri/keybutton-gpio/linux-2.6.24-el2440-v2.0/crypto/camellia.c:1194-1208 | a 192-bit key is a 256-bit key whose last quarter is the complement of the third |
| CamelliaSetup.Encrypt128 | fri/keybutton-gpio/linux-2.6.24-el2440-v2.0/crypto/camellia.c:1214-1314 | the unrolled rounds over io[4] are the optimised cipher of three groups |
| CamelliaSetup.Decrypt128 | fri/keybutton-gpio/linux-2.6.24-el2440-v2.0/crypto/camellia.c:1316-1416 | the unrolled rounds in reverse are the optimised decryption |
| CamelliaSetup.Encrypt256 | fri/keybutton-gpio/linux-2.6.24-el2440-v2.0/crypto/camellia.c:1422-1546 | the same with four groups |
| CamelliaSetup.Decrypt256 | fri/keybutton-gpio/linux-2.6.24-el2440-v2.0/crypto/camellia.c:1549-1673 | the same with four groups |
| CamelliaSetup.Table128IsCamellia | fri/keybutton-gpio/linux-2.6.24-el2440-v2.0/crypto/camellia.c:479-1416 | with the table of camellia_setup128, encryption is Camellia of RFC 3713 and decryption undoes it, for every key and block |
| CamelliaSetup.Table256IsCamellia | fri/keybutton-gpio/linux-2.6.24-el2440-v2.0/crypto/camellia.c:783-1673 | with the table of camellia_setup256, encryption is Camellia of RFC 3713 and decryption undoes it, for every key and block |
| CbcSpec.DecryptUndoes | fri/keybutton-gpio/linux-2.6.24-el2440-v2.0/crypto/cbc.c:42-208 | CBC decryption undoes CBC encryption on the whole blocks (section 6.2 of NIST SP 800-38A) |
| CbcSpec.EncryptSplit | fri/keybutton-gpio/linux-2.6.24-el2440-v2.0/crypto/cbc.c:94-119 | encryption of two chunks is encryption of the first and, chained on, of the second |
| CbcSpec.DecryptSplit | fri/keybutton-gpio/linux-2.6.24-el2440-v2.0/crypto/cbc.c:183-208 | the same for decryption |
| CbcSegments.EncryptSegment | fri/keybutton-gpio/linux-2.6.24-el2440-v2.0/crypto/cbc.c:42-66 | the loop writes CBC of the segment and leaves the last ciphertext block as chaining value |
| CbcSegments.EncryptInplace | fri/keybutton-gpio/linux-2.6.24-el2440-v2.0/crypto/cbc.c:68-92 | the same in place, chaining through the buffer itself |
| CbcSegments.DecryptSegment | fri/keybutton-gpio/linux-2.6.24-el2440-v2.0/crypto/cbc.c:121-147 | the loop writes the decryption of the segment |
| CbcSegments.DecryptInplace | fri/keybutton-gpio/linux-2.6.24-el2440-v2.0/crypto/cbc.c:149-181 | the backward loop decrypts in place, although each block needs the ciphertext before it |
| CbcSegments.DecryptBackwards | fri/keybutton-gpio/linux-2.6.24-el2440-v2.0/crypto/cbc.c:159-176 | the backward loop itself: the blocks behind the current one are decrypted, those before it are still ciphertext |
| ScatterSpec.GatherScattered | fri/keybutton-gpio/linux-2.6.24-el2440-v2.0/crypto/scatterwalk.c:76-100 | what was scattered over distinct addresses is gathered again |
| ScatterSpec.GatherHere | fri/keybutton-gpio/linux-2.6.24-el2440-v2.0/crypto/scatterwalk.c:34-49 | within a piece, gathering reads a plain stretch of memory |
| ScatterSpec.ScatterHere | fri/keybutton-gpio/linux-2.6.24-el2440-v2.0/crypto/scatterwalk.c:34-49 | within a piece, scattering writes a plain stretch of memory |
| CbcWalk.CopyChunksIn | fri/keybutton-gpio/linux-2.6.24-el2440-v2.0/crypto/scatterwalk.c:76-100 | copying out of a list of pieces, across their ends |
| CbcWalk.CopyChunksOut | fri/keybutton-gpio/linux-2.6.24-el2440-v2.0/crypto/scatterwalk.c:76-100 | copying into a list of pieces, across their ends |
| CbcWalk.PageDone | fri/keybutton-gpio/linux-2.6.24-el2440-v2.0/crypto/scatterwalk.c:51-67 | the cursor moves to the next piece without moving on in the data |
| CbcWalk.CryptChunk | fri/keybutton-gpio/linux-2.6.24-el2440-v2.0/crypto/cbc.c:94-208 | a step over any number of bytes does its whole blocks, and the rest continues the chain |
| CbcWalk.MoreProgress | fri/keybutton-gpio/linux-2.6.24-el2440-v2.0/crypto/blkcipher.c:103-144 | a step extends what has been written by CBC of what was read, for identical or disjoint pieces |
| CbcWalk.Walk.NextSlow | fri/keybutton-gpio/linux-2.6.24-el2440-v2.0/crypto/blkcipher.c:147-181 | the slow path offers one block that was gathered across pieces |
| CbcWalk.Walk.NextCopy | fri/keybutton-gpio/linux-2.6.24-el2440-v2.0/crypto/blkcipher.c:183-195 | the copying path offers a stretch of the source in a page of its own |
| CbcWalk.Walk.NextFast | fri/keybutton-gpio/linux-2.6.24-el2440-v2.0/crypto/blkcipher.c:197-222 | the fast path offers a stretch in place |
| CbcWalk.Walk.WalkNext | fri/keybutton-gpio/linux-2.6.24-el2440-v2.0/crypto/blkcipher.c:224-276 | offers the next bytes of the source, at least a block, or ends with -EINVAL when less than a block is left |
| CbcWalk.Walk.WalkFirst | fri/keybutton-gpio/linux-2.6.24-el2440-v2.0/crypto/blkcipher.c:321-347 | starts with nothing done |
| CbcWalk.Walk.CryptStep | fri/keybutton-gpio/linux-2.6.24-el2440-v2.0/crypto/cbc.c:94-208 | whatever the path, the step computes CBC of the bytes offered |
| CbcWalk.Walk.FinishStep | fri/keybutton-gpio/linux-2.6.24-el2440-v2.0/crypto/blkcipher.c:103-144 | the result reaches its pieces, the cursors and counts move on by what was done |
| CbcWalk.Walk.Round | fri/keybutton-gpio/linux-2.6.24-el2440-v2.0/crypto/blkcipher.c:103-144 | total falls with every step, so the walk ends |
| CbcWalk.Walk.Process | fri/keybutton-gpio/linux-2.6.24-el2440-v2.0/crypto/cbc.c:94-208 | for any pieces of source and destination, each pair identical or disjoint, and any mix of paths, the memory ends as CBC of the gathered whole blocks scattered to the destination, with the chaining value, and -EINVAL exactly for a ragged tail |
| CbcWalk.ScatteredRoundTrip | fri/keybutton-gpio/linux-2.6.24-el2440-v2.0/crypto/cbc.c:42-208 | what was encrypted into scattered pieces is decrypted from them |
| Gf128.X8IsEightX | fri/keybutton-gpio/linux-2.6.24-el2440-v2.0/crypto/gf128mul.c:156-174 | the x^8 step with its table equals eight x steps, for both bit orders |
| Gf128.XLinear | fri/keybutton-gpio/linux-2.6.24-el2440-v2.0/crypto/gf128mul.c:125-143 | the x step is linear |
| Gf128.XIsShift | fri/keybutton-gpio/linux-2.6.24-el2440-v2.0/crypto/gf128mul.c:125-143 | the x step is the shift of a 128-bit word, reduced by x^128 + x^7 + x^2 + x + 1 |
| Gf128.LleShift | fri/keybutton-gpio/linux-2.6.24-el2440-v2.0/crypto/gf128mul.c:125-133 | the same on raw words, for lle |
| Gf128.BbeShift | fri/keybutton-gpio/linux-2.6.24-el2440-v2.0/crypto/gf128mul.c:135-143 | the same on raw words, for bbe |
| Gf128Product.ProductSplit | fri/keybutton-gpio/linux-2.6.24-el2440-v2.0/crypto/gf128mul.c:402-473 | the product is linear in its bits |
| Gf128Product.ProductAppend | fri/keybutton-gpio/linux-2.6.24-el2440-v2.0/crypto/gf128mul.c:446-473 | the product of a longer operand is that of its front plus x^n times that of its rest |
| Gf128Product.ProductOfPow | fri/keybutton-gpio/linux-2.6.24-el2440-v2.0/crypto/gf128mul.c:446-473 | multiplying by powers of x commutes with the product |
| Gf128Product.EntryOfSum | fri/keybutton-gpio/linux-2.6.24-el2440-v2.0/crypto/gf128mul.c:402-443 | a table entry for a byte is the sum of those for its top bit and its other bits |
| Gf128Product.EntryOfBit | fri/keybutton-gpio/linux-2.6.24-el2440-v2.0/crypto/gf128mul.c:402-443 | the entry for a single bit is g times a power of x |
| Gf128Product.LowByte | fri/keybutton-gpio/linux-2.6.24-el2440-v2.0/crypto/gf128mul.c:446-473 | one step of lookup multiplication |
| Gf128Tables.FillSums | fri/keybutton-gpio/linux-2.6.24-el2440-v2.0/crypto/gf128mul.c:414-418 | the nested loops fill every entry between the powers of two |
| Gf128Tables.Init4kLle | fri/keybutton-gpio/linux-2.6.24-el2440-v2.0/crypto/gf128mul.c:402-421 | every entry of the table is the product of its byte and g |
| Gf128Tables.Init4kBbe | fri/keybutton-gpio/linux-2.6.24-el2440-v2.0/crypto/gf128mul.c:424-443 | the same for bbe |
| Gf128Tables.Mul4kLle | fri/keybutton-gpio/linux-2.6.24-el2440-v2.0/crypto/gf128mul.c:446-458 | lookup multiplication is the product of section 6.3 of NIST SP 800-38D, for all operands |
| Gf128Tables.Mul4kBbe | fri/keybutton-gpio/linux-2.6.24-el2440-v2.0/crypto/gf128mul.c:461-473 | lookup multiplication is the product in the field, for all operands |
| Gf128Tables.NextRow | fri/keybutton-gpio/linux-2.6.24-el2440-v2.0/crypto/gf128mul.c:286-300 | the next of the sixteen tables is the last one times x^8 |
| Gf128Tables.Init64kLle | fri/keybutton-gpio/linux-2.6.24-el2440-v2.0/crypto/gf128mul.c:266-305 | table i holds the products by g times x^(8i) |
| Gf128Tables.Init64kBbe | fri/keybutton-gpio/linux-2.6.24-el2440-v2.0/crypto/gf128mul.c:308-347 | the same for bbe |
| Gf128Tables.Mul64k | fri/keybutton-gpio/linux-2.6.24-el2440-v2.0/crypto/gf128mul.c:360-383 | multiplication by sixteen lookups is the product in the field, for both bit orders and all operands |
| BacklogSpec.EveryNoticeOnce | fri/keybutton-gpio/linux-2.6.24-el2440-v2.0/crypto/cryptd.c:313-349 | over any run, with producers between any two steps of the worker: each request accepted with -EBUSY gets exactly one -EINPROGRESS, in the order of arrival and before its own completion; requests complete once each in order; and when all is done all have been told |
| BacklogSpec.StepKeeps | fri/keybutton-gpio/linux-2.6.24-el2440-v2.0/crypto/cryptd.c:313-349 | every step of producers and worker keeps the correspondence of queue, worker and what callers were told |
| BacklogSpec.FinishKeeps | fri/keybutton-gpio/linux-2.6.24-el2440-v2.0/crypto/cryptd.c:72-101 | a request that was put on the backlog has had its notice when it is completed |
| CryptoQueues.Queue.Enqueue | fri/keybutton-gpio/linux-2.6.24-el2440-v2.0/crypto/algapi.c:555-573 | the linked list grows at its tail, or the request is refused; the backlog pointer designates element number max_qlen afterwards |
| CryptoQueues.Queue.Dequeue | fri/keybutton-gpio/linux-2.6.24-el2440-v2.0/crypto/algapi.c:576-592 | the first request leaves, and the backlog pointer designates element number max_qlen again |
| CryptoQueues.Queue.GetBacklog | fri/keybutton-gpio/linux-2.6.24-el2440-v2.0/crypto/cryptd.c:327-327 | the request the pointer designates, if the list is longer than max_qlen |
| CryptoQueues.Cryptd.EnqueueCrypt | fri/keybutton-gpio/linux-2.6.24-el2440-v2.0/crypto/cryptd.c:121-139 | as the specified step |
| CryptoQueues.Cryptd.TakeOne | fri/keybutton-gpio/linux-2.6.24-el2440-v2.0/crypto/cryptd.c:326-329 | as the specified step |
| CryptoQueues.Cryptd.TellBacklog | fri/keybutton-gpio/linux-2.6.24-el2440-v2.0/crypto/cryptd.c:336-338 | as the specified step |
| CryptoQueues.Cryptd.Complete | fri/keybutton-gpio/linux-2.6.24-el2440-v2.0/crypto/cryptd.c:339-339 | as the specified step |
| CryptoQueues.Cryptd.Drain | fri/keybutton-gpio/linux-2.6.24-el2440-v2.0/crypto/cryptd.c:313-349 | rounds of the worker end with an empty queue, every accepted request completed and every notice given |
| Md4.Md4Ctx.Transform | fri/keybutton-gpio/linux-2.6.24-el2440-v2.0/crypto/md4.c:83-147 | the 48 written-out operations compute section 3.4 of RFC 1320 |
| Md4.FirstRound | fri/keybutton-gpio/linux-2.6.24-el2440-v2.0/crypto/md4.c:92-107 | the sixteen operations of round 1, against the table of words and shifts |
| Md4.SecondRound | fri/keybutton-gpio/linux-2.6.24-el2440-v2.0/crypto/md4.c:109-124 | the sixteen operations of round 2 |
| Md4.ThirdRound | fri/keybutton-gpio/linux-2.6.24-el2440-v2.0/crypto/md4.c:126-141 | the sixteen operations of round 3 |
| Md4.Md4Ctx.Update | fri/keybutton-gpio/linux-2.6.24-el2440-v2.0/crypto/md4.c:166-194 | the message so far grows by the data, whatever was in the block buffer |
| Md4.Md4Ctx.Final | fri/keybutton-gpio/linux-2.6.24-el2440-v2.0/crypto/md4.c:196-220 | the digest of sections 3.1 to 3.5 of RFC 1320 of the whole message, with the context wiped |
| Md4.Md4Ctx.Pad | fri/keybutton-gpio/linux-2.6.24-el2440-v2.0/crypto/md4.c:198-210 | padding in one block or two, as sections 3.1 and 3.2 of RFC 1320 have it |
| Md4.HashPieces | fri/keybutton-gpio/linux-2.6.24-el2440-v2.0/crypto/md4.c:155-220 | for every way of cutting a message into update calls the digest is the same, that of RFC 1320 |
| Md4.FinalBlock | fri/keybutton-gpio/linux-2.6.24-el2440-v2.0/crypto/md4.c:211-215 | the last block with its two words of length closes the padded message |
| Md4Spec.LengthWraps | fri/keybutton-gpio/linux-2.6.24-el2440-v2.0/crypto/md4.c:211-212 | the words of length depend on the length modulo 2^64 bytes only, so the wrapping counter suffices |
| Md4Spec.BlocksAppend | fri/keybutton-gpio/linux-2.6.24-el2440-v2.0/crypto/md4.c:166-194 | hashing is compositional over whole blocks |
| NameProofs.ParserUndoesPrinter | fri/keybutton-gpio/linux-2.6.24-el2440-v2.0/crypto/cryptomgr.c:100-166 | parsing a printed name gives the template and the printed arguments, numbers as numbers, at any nesting depth and whatever follows, exactly if there is at least one argument and fewer than CRYPTO_MAX_ATTRS |
| NameProofs.RebuildUndoesPrint | fri/keybutton-gpio/linux-2.6.24-el2440-v2.0/crypto/cryptomgr.c:100-166 | parsing again for each argument gives back the whole nested term |
| NameGrammar.AcceptsExactly | fri/keybutton-gpio/linux-2.6.24-el2440-v2.0/crypto/cryptomgr.c:100-166 | exactly the strings that consist of a name, some but fewer than 32 arguments in parentheses (words, or balanced text in parentheses behind a possibly empty word) and any rest are accepted, and the parameters are the arguments as they stand, digits as numbers |
| NameGrammar.StrtolIs | fri/keybutton-gpio/linux-2.6.24-el2440-v2.0/crypto/cryptomgr.c:148-149 | a number is what its digits stand for to base 8 after a leading zero and to base 10 otherwise, as far as they are below the base, cut to 32 bits |
| NameGrammar.ClosingFinds | fri/keybutton-gpio/linux-2.6.24-el2440-v2.0/crypto/cryptomgr.c:119-133 | the nesting counter stops at a parenthesis that has balanced text before it |
| NameGrammar.ClosingThrough | fri/keybutton-gpio/linux-2.6.24-el2440-v2.0/crypto/cryptomgr.c:119-133 | and it gets through all balanced text to the parenthesis behind it |
| NameProofs.StrtolDec | fri/keybutton-gpio/linux-2.6.24-el2440-v2.0/crypto/cryptomgr.c:148-149 | a printed decimal is read back as the same 32-bit number, although the base is guessed |
| NameProofs.ClosePrint | fri/keybutton-gpio/linux-2.6.24-el2440-v2.0/crypto/cryptomgr.c:119-133 | printed names are balanced: the search for the closing parenthesis gets through them |
| NameProofs.InstanceName | fri/keybutton-gpio/linux-2.6.24-el2440-v2.0/crypto/algapi.c:523-529 | crypto_alloc_instance prints as the model does |
| NameProofs.AuthencName | fri/keybutton-gpio/linux-2.6.24-el2440-v2.0/crypto/authenc.c:310-319 | authenc prints as the model does |
| NameParser.ScheduleProbe | fri/keybutton-gpio/linux-2.6.24-el2440-v2.0/crypto/cryptomgr.c:84-190 | the scanning loops compute the specified parse, on every string |
| NameParser.ProbeArgs | fri/keybutton-gpio/linux-2.6.24-el2440-v2.0/crypto/cryptomgr.c:109-163 | the loop over the arguments |
| NameParser.SkipParentheses | fri/keybutton-gpio/linux-2.6.24-el2440-v2.0/crypto/cryptomgr.c:119-133 | the nesting counter finds the matching parenthesis, or the end of the string |
| NameParser.SkipName | fri/keybutton-gpio/linux-2.6.24-el2440-v2.0/crypto/cryptomgr.c:116-117 | the end of a name, and whether it is a number |
| NameParser.SimpleStrtol | fri/keybutton-gpio/linux-2.6.24-el2440-v2.0/crypto/cryptomgr.c:148-149 | simple_strtol with base 0, in 32-bit words |

## Left out

- Barriers: the tag-ordered modes, in which the device orders completions; `orderr` codes; `prep_rq_fn`; plugging. The position
  that the dispatch sort finds by sector is any position behind the last entry it may not pass. Flush requests are assumed not to
  be fs requests, as drivers prepare them.
- Partial completion: the barrier request in progress (`bar_rq`), a negative byte count, statistics and messages.
- PartialSpec.RunSplits: speaks of bios with data; the one request whose bio has none, an empty barrier, is covered by the contract
  of PartialCompletion.Request.EndFirst.
- Segment merging: bios that are not whole sectors; the sizes of first and last hardware segments of a bio; whether two of them fit
  together is a free choice of each merge. Requests of SCSI commands; the hint `last_merge`; merging of a request that is
  partly completed.
- Anticipatory scheduler: one direction of the two; front merges, for which the source makes no promise; anticipation, FIFO
  expiry and batches; a request is named by its sector.
- Deadline scheduler: the search for a front merge; wrap-around of sectors and jiffies. A negative `writes_starved` compares as an
  unsigned number, as in the source.
- CFQ: slices, priorities, idling and cooperation, which only decide comparisons that are arbitrary here; `queued` and
  `meta_pending` counters; the freeing of queues.
- Merge hash: bios with barriers, which take the path of the barrier model; the scheduler's own search, whose answer is any
  request it may legally give; priorities and accounting.
- Tags: the least `nr_requests` that sysfs stores is not asked of a resize in a run, which may have any limit; maps shared by
  several queues, for which only the refusal to grow is modelled; the in-flight count.
- Tags.TagQueue.ResizeTags: does not say what memory holds after a copy beyond the map; it stops before copying.
- Submission: remapping loops and errors inside a callback; a callback submits the bios it is going to submit and no others.
- Camellia: the contents of the S-boxes, key lengths other than 16, 24 and 32 bytes, byte order of loads and stores.
- CBC: alignment copies of the chaining value, failed page allocations, key setting, and walks over physical addresses.
- GF(2^128): `gf128mul_lle` and `gf128mul_bbe`, which clear only part of their accumulator; the ble order; the byte order of the
  final store (operands are 16 bytes, results two words).
- MD4: byte order of a big-endian machine; the digest layer that gathers pieces from scatter lists.
- Names: the limit of 64 characters, which the printers report; the probing that follows the parse.
- Crypto queue: the previous links of the list; `crypto_tfm_in_queue`; stopping the thread.
- Locks, interrupts, reference counts, sysfs, tracing and user copies.
