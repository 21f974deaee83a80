# Block layer and AES of Linux 3.2, modelled and proved

This project models the parts of the Linux 3.2 block layer whose correctness is
hard to see, and the generic AES cipher, and proves what they promise. It holds
for every input, every reachable state or every run of each model.

- **Flush sequencing** (`Flush*.dfy`, block/blk-flush.c). Requests with FLUSH or
  FUA pass through a pre-flush, their data and a post-flush, sharing flushes
  through two alternating lists. The model is a queue, a driver and a device
  with a write cache. Its runs interleave submissions, fetches, completions with
  and without error, partial completions and cache write-back in any order.
- **Segments and completion** (`Segments`, `MergeLimits`, `Completion*.dfy`,
  `RequestHistory`; block/blk-merge.c, block/blk-core.c). The cached segment
  count of a request, kept through merges, refused merges and partial
  completions, bounds the scatterlist that is built from it; merges are done
  exactly within the queue's limits; completion leaves exactly the bytes not yet
  done, and completion in parts is completion at once.
- **Merging** (`Elevator*.dfy`, block/elevator.c, block/deadline-iosched.c). The
  bucketed hash, the sorted trees, the merge cache and the bio and request
  merges: what is queued always means the bios that were handed in.
- **Throttling** (`Throttle*.dfy`, block/blk-throttle.c, block/blk-cgroup.c).
  Slices with trimming and extension give a token bucket; service tree, counters
  and references stay right under all interleavings, cgroup removal and queue
  exit included.
- **Deadline** (`Deadline*.dfy`, block/deadline-iosched.c). Two orders of the same
  requests, batches and starvation, with bounds on being passed over and runs
  that reach them.
- **CFQ** (`Cfq*.dfy`, block/cfq-iosched.c). The seek-distance choice as a total
  preorder, the fairness of the group service tree, and the reference counts of
  cooperating queues.
- **AES** (`Aes*.dfy`, crypto/aes_generic.c). The table-driven rounds are the
  rounds of FIPS 197, the key schedules are those of the key, and decryption
  undoes encryption.

`BlockTypes`, `Sums` and `KeyOrder` hold what several of these share.

How the model is written:

- What the source computes is a function on values. What it updates in place is a
  class whose methods are proved to take its `View()` where that function says;
  the properties are then lemmas about the function.
- A region under the queue lock is one step. `jiffies`, device outcomes, whether
  the scheduler lets a bio join a request, the neighbour it offers for a request
  merge and the hash function are inputs, and any value is allowed.
- Linked lists are sequences. Red-black trees are sequences in key order, equal
  keys in insertion order, with the cached leftmost node as separate state; a
  search goes down a tree of any shape with that order.
- Integers are unbounded, except in AES, where bytes and words are bit vectors.
- A BUG_ON or WARN_ON is a condition that is proved to hold at that point.

Where code and comments differ the code is followed. The one place it matters is
`DeadlineRuns.StarvationBound`: with a batch size of zero the code still sends
one request per batch, so the bound counts max(1, fifo_batch).

## Model

| member | source | states |
|---|---|---|
| `FlushRuns.FlushMakesDurable` | linux-3.2.0/block/blk-flush.c:94-347 | in any run from an empty queue, once the submitter of a request is told of success: if it had FLUSH, every write completed before its submission is durable; if it was a write with FUA, its own data is durable; for every setting of the device's FLUSH and FUA capabilities |
| `FlushRuns.FlushBeforeData` | linux-3.2.0/block/blk-flush.c:8-17 | the data of a FLUSH request is not even queued before every write completed at its submission is durable |
| `FlushRuns.RunNotifies` | linux-3.2.0/block/blk-flush.c:55-64 | in any run a bio is ended at most once; when nothing is queued or with the driver every submitted bio has been ended exactly once; and at every event no BUG_ON of the file fires |
| `FlushRuns.IdleMeansEnded` | linux-3.2.0/block/blk-flush.c:244-273 | no pending flush is forgotten: an idle queue has finished every request |
| `FlushRuns.EventQuiet` | linux-3.2.0/block/blk-flush.c:144-229 | the BUG_ONs on repeated steps, on finishing a queued request, on the flush indices, on the step a walked request is at and on single-bio requests hold at every event of a reachable state |
| `FlushRuns.StaysSubmitted` | linux-3.2.0/block/blk-flush.c:298-347 | what a submission fixed (flags, steps needed, the writes completed before it) never changes later in the run |
| `FlushDurability.NextKeeps` | linux-3.2.0/block/blk-flush.c:144-347 | every event (submissions, fetches, flush, data and plain completions, partial completions, unasked write-back) keeps: each finished step has achieved what it stands for, the running flush covers what its list waits for, and every successful notification so far is truthful |
| `FlushDurability.CompleteLogSafe` | linux-3.2.0/block/blk-flush.c:144-192 | completing a step notifies a submitter of success only if the request's guarantee holds on the device |
| `FlushDurability.FreshFlushCovers` | linux-3.2.0/block/blk-flush.c:244-273 | a flush issued now covers every request waiting on the list that becomes the running one |
| `FlushDurability.FlushDoneKeeps` | linux-3.2.0/block/blk-flush.c:194-229 | walking the running list after a flush has ended keeps the durability account, with or without an error |
| `FlushDurability.DataDoneKeeps` | linux-3.2.0/block/blk-flush.c:275-285 | so does the completion of a request's data |
| `FlushDurability.SubmitKeeps` | linux-3.2.0/block/blk-flush.c:298-347 | and so does a submission, whichever of the three ways it takes |
| `FlushProtocol.CompleteKeeps` | linux-3.2.0/block/blk-flush.c:144-192 | blk_flush_complete_seq keeps the protocol invariant: each sequenced request is on exactly one list, the one its current step asks for; at most one flush is in flight; a running list is never empty; a pending flush is only put off while data is in flight; every joined request joined before the running flush was issued; every bio is ended once, when its request is finished |
| `FlushProtocol.WalkKeeps` | linux-3.2.0/block/blk-flush.c:194-229 | the walk keeps the invariant and fires no BUG_ON, for any list and either outcome of the flush |
| `FlushProtocol.WalkedStep` | linux-3.2.0/block/blk-flush.c:194-229 | a walked request goes on to its data or is done: it never rejoins a pending list during the walk |
| `FlushProtocol.FlushEndKeeps` | linux-3.2.0/block/blk-flush.c:194-229 | flush_end_io finds a flush in flight, keeps the invariant and fires no BUG_ON |
| `FlushProtocol.DataEndKeeps` | linux-3.2.0/block/blk-flush.c:275-285 | flush_data_end_io keeps the invariant, fires no BUG_ON and leaves the running list as it was |
| `FlushProtocol.InsertKeeps` | linux-3.2.0/block/blk-flush.c:298-347 | blk_insert_flush keeps the invariant on each of its paths and leaves the running list as it was |
| `FlushProtocol.RestoredEnds` | linux-3.2.0/block/blk-flush.c:115-127 | the bio restored from biotail is ended exactly once by the final completion, with the error or the failure recorded in the bio |
| `FlushProtocol.SequencedDataSilent` | linux-3.2.0/block/blk-core.c:149-175 | the data completion of a sequenced request ends nothing |
| `FlushRule.EmptyFuaSkipsFlush` | linux-3.2.0/block/blk-flush.c:13-17 | why the rule that an empty request is a plain flush matters: three empty requests with FLUSH and FUA, submitted to an empty queue of a device without FUA, lead to a walk that comes to the third one twice and ends it as flushed, though the only flush issued since its pre-flush is still in flight |
| `FlushQueue.RequestQueue.KickFlush` | linux-3.2.0/block/blk-flush.c:244-273 | the new state is that of the step function; the result says whether the dispatch queue grew; when a flush may be put off is `FlushTimely.FlushNotPutOff` |
| `FlushQueue.RequestQueue.CompleteStep` | linux-3.2.0/block/blk-flush.c:144-192 | likewise for the completion of a step |
| `FlushQueue.RequestQueue.PushWaiting` | linux-3.2.0/block/blk-flush.c:207-213 | the in-place walk, one element ahead, visits exactly the requests that were on the running list, in order |
| `FlushQueue.WalkTurn` | linux-3.2.0/block/blk-flush.c:207-213 | one turn of that walk only takes the stepped request off the list |
| `FlushQueue.RequestQueue.FlushEnd` | linux-3.2.0/block/blk-flush.c:194-229 | flush_end_io in place; the queue is run again exactly when the dispatch queue changed or a flush was delayed |
| `FlushQueue.RequestQueue.DataEnd` | linux-3.2.0/block/blk-flush.c:275-285 | flush_data_end_io in place |
| `FlushQueue.RequestQueue.Insert` | linux-3.2.0/block/blk-flush.c:298-347 | blk_insert_flush in place |
| `FlushQueue.RequestQueue.constructor` | linux-3.2.0/block/blk-settings.c:783-791 | a queue that is told FUA without FLUSH stores neither, and starts within the invariant |
| `RequestHistory.MapWithinCount` | linux-3.2.0/block/blk-merge.c:12-199 | after any history of bio merges, request merges, refused merges and partial completions, the scatterlist has at most nr_phys_segments entries |
| `RequestHistory.HistoryKeeps` | linux-3.2.0/block/blk-merge.c:12-315 | any such history leaves a request whose counter is the size of a legal cut of its vectors, with its outer size caches bounding the outer segments |
| `Segments.SegmentBound` | linux-3.2.0/block/blk-merge.c:117-169 | a request in that state maps to at most nr_phys_segments entries |
| `Segments.GreedyIsMinimal` | linux-3.2.0/block/blk-merge.c:117-169 | the greedy pass of blk_rq_map_sg needs no more segments than any legal cut of the same vectors |
| `Segments.GreedySegments` | linux-3.2.0/block/blk-merge.c:12-69 | the greedy passes cut the vectors into legal segments that together are all of them, in order |
| `Segments.RecalcEstablishes` | linux-3.2.0/block/blk-merge.c:12-69 | __blk_recalc_rq_segments establishes the counter and the size caches for any chain of data bios |
| `Segments.CountedOk` | linux-3.2.0/block/blk-merge.c:76-84 | blk_recount_segments sets right counters, changes nothing else of the bio and never lowers a size cache |
| `Segments.CutJoin` | linux-3.2.0/block/blk-merge.c:87-111 | when blk_phys_contig_segment lets two chains meet in one segment, one segment fewer suffices and the outer sizes are as ll_merge_requests_fn records them |
| `Segments.BackMergeKeeps` | linux-3.2.0/block/blk-merge.c:228-250 | ll_back_merge_fn keeps the invariant whether it merges or refuses |
| `Segments.FrontMergeKeeps` | linux-3.2.0/block/blk-merge.c:252-275 | ll_front_merge_fn likewise |
| `Segments.MergedRequestKeeps` | linux-3.2.0/block/blk-merge.c:277-315 | a successful ll_merge_requests_fn keeps it |
| `Segments.RefusedMergeKeeps` | linux-3.2.0/block/blk-merge.c:277-315 | a refused one keeps it for both requests, though it may already have rewritten their outer size caches |
| `Segments.MapSg` | linux-3.2.0/block/blk-merge.c:117-169 | the mapping loop yields one entry per greedy segment, each with the segment's start and length |
| `Segments.RecalcRqSegments` | linux-3.2.0/block/blk-merge.c:12-69 | the counting loop yields the greedy count and raises the outer size caches to the outer segments |
| `Completion.SplitUpdate` | linux-3.2.0/block/blk-core.c:2070-2218 | completing n and then m bytes ends the same bios in the same order with the same errors, and leaves the same bios, vectors, length and segment count as completing n + m at once, with size caches that are never smaller; the start sectors of the request agree if and only if the byte remainders of n and m together stay below a sector; the sector of the first bio left agrees if and only if the second call finishes the bio that the first one trimmed, or what the two take of it leaves remainders that together stay below a sector; all other sectors agree |
| `Completion.SplitConsume` | linux-3.2.0/block/blk-core.c:2113-2179 | the same for the loop over the chain, with the same condition on the first bio's sector |
| `Completion.SplitSectorDiffers` | linux-3.2.0/block/blk-core.c:149-175 | an input on which that sector differs: 300 bytes twice against 600 at once |
| `Completion.UpdateAccounts` | linux-3.2.0/block/blk-core.c:2070-2218 | the result is false exactly when the count reaches the length; otherwise the length falls by the count, so the botched-request repair is never reached; and the segment invariant holds again |
| `Completion.ConsumeBytes` | linux-3.2.0/block/blk-core.c:149-175 | completion removes exactly the bytes completed and uses up the chain exactly when they reach its length |
| `Completion.WalkVecs` | linux-3.2.0/block/blk-core.c:2138-2170 | the loop over the vectors finds the vector and the offset where completion stops |
| `Completion.LiveRequest.EndBios` | linux-3.2.0/block/blk-core.c:2113-2179 | the loop over the bios, in place |
| `Completion.LiveRequest.UpdateRequest` | linux-3.2.0/block/blk-core.c:2070-2218 | blk_update_request in place |
| `ElevatorRuns.MergingPreservesMeaning` | linux-3.2.0/block/elevator.c:115-130 | in any run every request covers one run of sectors from its start, of the length it says, all one way to one disk; the bios handed in are those queued and those dispatched, each as often; each direction's tree holds exactly its requests in order; and the hash answers as a scan of all requests would |
| `ElevatorRuns.TreesAnswer` | linux-3.2.0/block/elevator.c:384-401 | in any run, in whatever shape balancing left it, the tree of a direction answers as a scan of all requests would |
| `ElevatorRuns.SubmitKeeps` | linux-3.2.0/block/blk-core.c:1325-1338 | submitting a bio, merged or not, adds exactly that bio and keeps all of this |
| `ElevatorRuns.LookoutRight` | linux-3.2.0/block/elevator.c:469-511 | a candidate found through the cache, the hash or the sorted tree is queued, may take the bio, and ends or starts where the bio starts or ends |
| `Elevator.RbFindIsScan` | linux-3.2.0/block/elevator.c:384-401 | elv_rb_find on a tree of any shape returns a request of that direction starting at the sector, and none exactly when there is none |
| `ElevatorRuns.SortAddOk` | linux-3.2.0/block/elevator.c:355-373 | elv_rb_add keeps the order, and adds the request to its own direction's tree |
| `ElevatorRuns.SortDelOk` | linux-3.2.0/block/elevator.c:376-381 | elv_rb_del takes exactly the request out |
| `ElevatorRuns.FrontSort` | linux-3.2.0/block/deadline-iosched.c:154-166 | a front merge, which moves the start of a queued request, leaves the trees right: the request is moved in its tree, or leaves it with the request merge that follows |
| `ElevatorRuns.BackSort` | linux-3.2.0/block/elevator.c:547-558 | a back merge, with the request merge it may lead to, leaves the trees right |
| `ElevatorRuns.AttemptSort` | linux-3.2.0/block/deadline-iosched.c:168-187 | an absorbed request leaves its tree, which is right afterwards even if it was out of order about that request |
| `Elevator.FindIsScan` | linux-3.2.0/block/elevator.c:329-349 | elv_rqhash_find returns a mergeable request ending at the sector, and none exactly when there is none; dropping what can no longer merge keeps the hash right; for any bucket function |
| `ElevatorRuns.BackBioKeeps` | linux-3.2.0/block/blk-core.c:1174-1195 | a back merge, with the request merge it may lead to, keeps runs of sectors, bios and hash |
| `ElevatorRuns.FrontBioKeeps` | linux-3.2.0/block/blk-core.c:1197-1226 | a front merge likewise |
| `ElevatorRuns.AttemptKeeps` | linux-3.2.0/block/blk-merge.c:367-447 | attempt_merge loses and duplicates no bio and leaves the hash right, even when the hash was out of date about the absorbing request |
| `ElevatorRuns.RepositionedHash` | linux-3.2.0/block/elevator.c:323-327 | elv_rqhash_reposition puts the hash right wherever it had the request |
| `ElevatorRuns.MergeRun` | linux-3.2.0/block/blk-merge.c:367-447 | joining two requests of which one ends where the other starts gives a run of sectors; a refusal leaves both runs as they were |
| `ElevatorRuns.InsertedKeeps` | linux-3.2.0/block/elevator.c:689-706 | the sort insertion adds the new request's bio and hashes it |
| `ElevatorRuns.PlacedKeeps` | linux-3.2.0/block/elevator.c:689-706 | ... and puts it into its tree |
| `ElevatorRuns.DispatchedKeeps` | linux-3.2.0/block/elevator.c:454-466 | elv_dispatch_add_tail hands on exactly the request's bios and never leaves the cache pointing at it |
| `ElevatorRuns.SentKeeps` | linux-3.2.0/block/deadline-iosched.c:192-199 | deadline_move_to_dispatch also takes it out of its tree |
| `ElevatorQueue.MergeQueue.RqhashFind` | linux-3.2.0/block/elevator.c:329-349 | the lookup with its in-place removals |
| `ElevatorQueue.MergeQueue.Walk` | linux-3.2.0/block/elevator.c:336-346 | the bucket walk keeps exactly what the scan keeps and finds what it finds |
| `ElevatorQueue.MergeQueue.Reposition` | linux-3.2.0/block/elevator.c:323-327 | the repositioning in place |
| `ElevatorQueue.MergeQueue.RbFind` | linux-3.2.0/block/elevator.c:384-401 | the descent in place, with what it finds and what it rules out |
| `ElevatorQueue.MergeQueue.RbAdd` | linux-3.2.0/block/elevator.c:355-373 | the insertion in place, behind all requests that start no later |
| `ElevatorQueue.MergeQueue.MergedRequest` | linux-3.2.0/block/elevator.c:547-558 | elv_merged_request in place: a front merge moves the request in its tree, a back merge in the hash, and both are right afterwards |
| `ElevatorQueue.MergeQueue.AttemptMerge` | linux-3.2.0/block/blk-merge.c:367-447 | attempt_merge with elv_merge_requests in place |
| `ElevatorQueue.MergeQueue.DispatchAddTail` | linux-3.2.0/block/elevator.c:454-466 | deadline_move_to_dispatch and elv_dispatch_add_tail in place |
| `ThrottleRate.RateLimit` | linux-3.2.0/block/blk-throttle.c:487-747 | the token bucket: from any event of any run on, and while the limits stay, whatever a direction has sent since, by a dispatch at time t, is within bps * (t - s0 + slice) bytes and iops * (t - s0 + slice) bios, both over HZ, across any mix of extended, trimmed and new slices; s0 is the start of the slice found there, or any time by which that slice had run out, and so also the start of the slice that a first bio starts, or the time at which the work restarts the slices after a limit change |
| `ThrottleRate.BeginsAccounted` | linux-3.2.0/block/blk-throttle.c:686-747 | the event in which an account begins stays on it, with what it sends itself |
| `ThrottleRate.RestartAllRenews` | linux-3.2.0/block/blk-throttle.c:866-901 | processing limit changes starts the slices of a group whose limits changed afresh, at that time and with nothing charged |
| `ThrottleRate.NextAccounted` | linux-3.2.0/block/blk-throttle.c:686-800 | every event keeps the account that the bound follows from |
| `ThrottleSlice.SendKeeps` | linux-3.2.0/block/blk-throttle.c:686-747 | a bio that passes tg_may_dispatch is charged within the bound, and the slice stays accounted after trimming |
| `ThrottleSlice.AskKeeps` | linux-3.2.0/block/blk-throttle.c:686-735 | asking without sending keeps the account, whether the slice is renewed, extended or left |
| `ThrottleSlice.TrimKeeps` | linux-3.2.0/block/blk-throttle.c:525-582 | throtl_trim_slice takes off no more than whole slices have earned |
| `ThrottleSlice.RefusedWaits` | linux-3.2.0/block/blk-throttle.c:584-674 | a refused bio is told to wait at least one jiffy, an allowed one not at all |
| `ThrottleSlice.MayDispatchStable` | linux-3.2.0/block/blk-throttle.c:686-735 | asking again at the same jiffy gives the same answer and the same wait |
| `ThrottleRate.RunBooks` | linux-3.2.0/block/blk-throttle.c:166-203 | in any run the queue's counters are the sums of the groups', a group is on the service tree exactly when it has bios queued, the tree's count is right, and a group's references are its queued bios plus one until it is destroyed; while bios wait the work is due no later than the head of the tree |
| `ThrottleRate.FreedIsFinal` | linux-3.2.0/block/blk-throttle.c:1275-1318 | once the throttle data is freed every group has lost its creation reference exactly once and all its references, no cgroup removal is still on its way to it, and no work is pending |
| `ThrottleRate.RunKeeps` | linux-3.2.0/block/blk-cgroup.c:509-530 | under every interleaving of bios, timers, limit changes, cgroup removals and queue exit, with its two shutdowns of the work: what a step uses is still there (the throttle data, the group on its list, a reference to it), and the books are right |
| `ThrottleRuns.NextKeeps` | linux-3.2.0/block/blk-cgroup.c:1549-1597 | every step of such a run is sound and keeps this, the removal of a cgroup being two steps that queue exit can come between |
| `ThrottleRuns.WorkMeans` | linux-3.2.0/block/blk-throttle.c:1304-1312 | work that is due is never that of data already shut down or freed, though a limit change may queue it after exit has begun |
| `ThrottleRuns.StopKeeps` | linux-3.2.0/block/blk-throttle.c:1090-1095 | shutting the work down forgets no bio |
| `ThrottleRuns.ReleasedFirst` | linux-3.2.0/block/blk-throttle.c:992-1006 | throtl_release_tgs destroys a group only if it took it off the cgroup's list itself |
| `ThrottleRuns.DestroyedKeeps` | linux-3.2.0/block/blk-throttle.c:976-990 | throtl_destroy_tg finds the group on the list and drops a reference that is there |
| `ThrottleRuns.WorkKeeps` | linux-3.2.0/block/blk-throttle.c:904-945 | a run of the work keeps the books, never adds bios, and schedules the next one for the head of the tree |
| `ThrottleOps.SelectOk` | linux-3.2.0/block/blk-throttle.c:835-864 | a dispatch round sends at most throtl_quantum + throtl_grp_quantum - 1 bios, each direction in order from the head of its queue, and unless it used up the quantum leaves no group due |
| `ThrottleOps.SelectStep` | linux-3.2.0/block/blk-throttle.c:835-864 | the round ends: each pass sends a bio or leaves one group fewer due |
| `ThrottleOps.PassedOk` | linux-3.2.0/block/blk-throttle.c:802-833 | a pass sends at most a group quantum in order, and if it sends nothing pushes the group's dispatch time past now |
| `ThrottleInv.DispatchTgRefused` | linux-3.2.0/block/blk-throttle.c:802-833 | a group that sends nothing still has bios and has to wait at least a jiffy |
| `ThrottleOps.QueuedMeans` | linux-3.2.0/block/blk-throttle.c:467-485 | something is counted as queued exactly when some group is on the tree, so the BUG_ON there never fires |
| `ThrottleOps.SubmitKeeps` | linux-3.2.0/block/blk-throttle.c:1112-1204 | blk_throtl_bio keeps the books whether the bio goes through or is queued |
| `ThrottleRate.SubmitInOrder` | linux-3.2.0/block/blk-throttle.c:1145-1193 | a bio never overtakes another of its group and direction |
| `ThrottleOps.RestartedKeeps` | linux-3.2.0/block/blk-throttle.c:866-901 | processing a limit change keeps the books and the tree in order |
| `ThrottleInv.AddKeeps` | linux-3.2.0/block/blk-throttle.c:412-438 | tg_service_tree_add keeps the tree in key order, its count and its cached leftmost node |
| `ThrottleInv.EraseKeeps` | linux-3.2.0/block/blk-throttle.c:393-399 | throtl_rb_erase likewise |
| `ThrottleRuns.DrainKeeps` | linux-3.2.0/block/blk-throttle.c:1212-1239 | blk_throtl_drain ends with nothing queued |
| `ThrottleData.ThrotlData.SelectDispatch` | linux-3.2.0/block/blk-throttle.c:835-864 | the round in place, with its bound on bios and nothing left due below the quantum |
| `ThrottleData.ThrotlData.PassGroup` | linux-3.2.0/block/blk-throttle.c:843-856 | one pass in place |
| `ThrottleData.ThrotlData.DispatchWay` | linux-3.2.0/block/blk-throttle.c:812-820 | one dispatch loop in place |
| `ThrottleData.ThrotlData.DispatchOneBio` | linux-3.2.0/block/blk-throttle.c:782-800 | one dispatch in place |
| `ThrottleData.ThrotlData.UpdateDisptime` | linux-3.2.0/block/blk-throttle.c:762-780 | tg_update_disptime in place |
| `ThrottleData.ThrotlData.TreeAdd` | linux-3.2.0/block/blk-throttle.c:412-447 | the insertion walk in place |
| `ThrottleData.ThrotlData.RbErase` | linux-3.2.0/block/blk-throttle.c:393-399 | the removal in place |
| `ThrottleData.ThrotlData.RbFirst` | linux-3.2.0/block/blk-throttle.c:372-385 | the first node, caching it |
| `ThrottleData.ThrotlData.ScheduleNext` | linux-3.2.0/block/blk-throttle.c:467-485 | scheduling in place; the tree is not empty when bios are queued |
| `ThrottleData.ThrotlData.ThrotlBio` | linux-3.2.0/block/blk-throttle.c:1112-1204 | blk_throtl_bio in place; it says that the bio waits exactly when one more bio is queued |
| `DeadlineRuns.StarvationBound` | linux-3.2.0/block/deadline-iosched.c:243-325 | in any run, while a write is queued and none is sent, at most (writes_starved + 1) * max(1, fifo_batch) - 1 reads are sent |
| `DeadlineExact.StarvationReached` | linux-3.2.0/block/deadline-iosched.c:243-325 | for every setting of the tunables, a run that sends that many |
| `DeadlineRuns.OvertakeBound` | linux-3.2.0/block/deadline-iosched.c:222-237 | in any run, while an expired request stays the oldest of its direction, at most max(1, fifo_batch) - 1 others of that direction are sent |
| `DeadlineRuns.OvertakeReached` | linux-3.2.0/block/deadline-iosched.c:222-237 | a run that sends that many |
| `DeadlineRuns.RunKeeps` | linux-3.2.0/block/deadline-iosched.c:84-220 | in any run both lists of a direction hold the same requests, one by sector and one by expiry; at most one next request is set and it is queued; the count of sorted requests is right; and no BUG_ON fires |
| `DeadlineRuns.ReadSpends` | linux-3.2.0/block/deadline-iosched.c:243-325 | each read sent past a waiting write uses up the credit that bounds them |
| `DeadlineRuns.DispatchKeeps` | linux-3.2.0/block/deadline-iosched.c:243-325 | a dispatch hands out one queued request and only that one, or nothing when nothing is queued |
| `DeadlineRuns.ChosenIsQueued` | linux-3.2.0/block/deadline-iosched.c:243-325 | the choice is none exactly when both directions are empty, and otherwise a queued request of its direction |
| `DeadlineRuns.MergeKeeps` | linux-3.2.0/block/deadline-iosched.c:168-187 | a request merge keeps the expiry order although the survivor may take the place and the time of the one it absorbs |
| `DeadlineRuns.FrontMergeKeeps` | linux-3.2.0/block/deadline-iosched.c:154-166 | repositioning after a front merge keeps the sector order |
| `DeadlineRuns.AddKeeps` | linux-3.2.0/block/deadline-iosched.c:98-111 | adding a request keeps both orders |
| `DeadlineRuns.DrainEmpties` | linux-3.2.0/block/elevator.c:605-618 | forced draining ends with both lists of both directions empty and no request counted as sorted |
| `DeadlineData.DeadlineQueue.DispatchRequests` | linux-3.2.0/block/deadline-iosched.c:243-325 | the dispatch in place |
| `DeadlineData.DeadlineQueue.SelectRequest` | linux-3.2.0/block/deadline-iosched.c:243-318 | the choice in place, with its batching and starvation counters |
| `DeadlineData.DeadlineQueue.MergedRequests` | linux-3.2.0/block/deadline-iosched.c:168-187 | the request merge in place |
| `DeadlineData.DeadlineQueue.MoveRequest` | linux-3.2.0/block/deadline-iosched.c:204-220 | moving a request to the dispatch queue in place |
| `DeadlineData.DeadlineQueue.AddRequest` | linux-3.2.0/block/deadline-iosched.c:98-111 | adding a request in place |
| `DeadlineData.DeadlineQueue.DrainAll` | linux-3.2.0/block/elevator.c:605-618 | the drain loop in place |
| `CfqChoose.FindNextIsBest` | linux-3.2.0/block/cfq-iosched.c:801-823 | the request found from the tree neighbours or the wrap-around is at least as good as every other request of the queue if and only if a candidate is of the best class there is and, where the other candidate is of a lesser class, it beats the first request of its class on the other one's side |
| `CfqChoose.OneClassIsBest` | linux-3.2.0/block/cfq-iosched.c:801-823 | in a queue of one class it always is |
| `CfqChoose.MixedClassesFind` | linux-3.2.0/block/cfq-iosched.c:801-823 | a queue whose candidates are of different classes, where the best request is found |
| `CfqChoose.ChooseIsBest` | linux-3.2.0/block/cfq-iosched.c:670-753 | cfq_choose_req returns the better of two by a rank of class, wrapping, distance and position, the first of two equals |
| `CfqChoose.ChooseIsPreorder` | linux-3.2.0/block/cfq-iosched.c:670-753 | choosing is total and transitive, and asking in either order finds equally good requests |
| `CfqChoose.MixedClassesMiss` | linux-3.2.0/block/cfq-iosched.c:801-823 | the same queue with one request further away, where it is missed |
| `CfqGroups.ServiceFair` | linux-3.2.0/block/cfq-iosched.c:972-992 | over any number of rounds among the same backlogged groups, the service two groups without a pending weight change were charged, each over its weight, differs by at most twice the larger of the initial spread and the largest charge scaled by the weight of the group charged, plus rounding |
| `CfqGroups.RoundsFair` | linux-3.2.0/block/cfq-iosched.c:972-992 | over such rounds the virtual times stay within the larger of the initial spread and the largest charge scaled by the weight of the group charged |
| `CfqGroups.RoundsLedger` | linux-3.2.0/block/cfq-iosched.c:542-549 | a group's virtual time shows its service up to rounding, whatever is charged |
| `CfqGroups.RoundSpread` | linux-3.2.0/block/cfq-iosched.c:2289-2299 | serving the group that is furthest behind keeps that spread |
| `CfqGroups.RunKeeps` | linux-3.2.0/block/cfq-iosched.c:773-938 | in any run total_weight is the sum of the weights on the tree, nothing on the tree is behind min_vdisktime, the cached leftmost group is right, and min_vdisktime never falls |
| `CfqGroups.ServedOk` | linux-3.2.0/block/cfq-iosched.c:972-992 | cfq_group_served moves the group's virtual time by its scaled charge while it is off the tree, installs a new weight, and keeps the total |
| `CfqGroups.ScaleLedger` | linux-3.2.0/block/cfq-iosched.c:542-549 | the scaled charge is the charge over the weight, in units, rounded down |
| `CfqGroups.ComesLast` | linux-3.2.0/block/cfq-iosched.c:889-912 | a group that comes back is put behind every group on the tree, with a virtual time at least the idle delay beyond theirs, and no other virtual time changes |
| `CfqGroups.NotifyDelKeeps` | linux-3.2.0/block/cfq-iosched.c:922-938 | a group leaves the tree with its last queue |
| `CfqGroups.GetNextOk` | linux-3.2.0/block/cfq-iosched.c:2289-2299 | cfq_get_next_cfqg returns a group of least virtual time and moves min_vdisktime up to exactly that time |
| `CfqGroups.ServiceTree.GroupServed` | linux-3.2.0/block/cfq-iosched.c:972-992 | charging a group in place |
| `CfqGroups.ServiceTree.QueueAdded` | linux-3.2.0/block/cfq-iosched.c:889-912 | a group gains a queue, in place |
| `CfqGroups.ServiceTree.QueueRemoved` | linux-3.2.0/block/cfq-iosched.c:922-938 | a group loses a queue, in place |
| `CfqGroups.ServiceTree.NextGroup` | linux-3.2.0/block/cfq-iosched.c:2289-2299 | the selection in place: a group of least virtual time |
| `CfqCoop.StepKeeps` | linux-3.2.0/block/cfq-iosched.c:2144-2184 | every step (new queues, requests, cfq_setup_merge, cfq_merge_cfqqs, exits) keeps the new_cfqq links a forest and every process reference accounted for by an attached process or by a queue linked below |
| `CfqCoop.AttachedAlive` | linux-3.2.0/block/cfq-iosched.c:2758-2777 | in any run a queue with a process attached has only living queues ahead of it on its chain |
| `CfqCoop.SetupKeeps` | linux-3.2.0/block/cfq-iosched.c:2144-2184 | cfq_setup_merge keeps the forest and the references, linking two queues that end their chains or nothing |
| `CfqCoop.ExitKeeps` | linux-3.2.0/block/cfq-iosched.c:2758-2789 | a process leaving drops exactly the references held for it along the chain |
| `CfqCoop.MovedKeeps` | linux-3.2.0/block/cfq-iosched.c:3749-3757 | cfq_merge_cfqqs moves a process along the link, using the reference already held for it |
| `CfqCoop.NoLoop` | linux-3.2.0/block/cfq-iosched.c:2758-2777 | a queue is not on the chain beyond itself, so the loop warning never fires |
| `CfqCoop.Cooperators.SetupMerge` | linux-3.2.0/block/cfq-iosched.c:2144-2184 | the walk in place: it ends and meets no freed queue |
| `CfqCoop.Cooperators.PutCooperator` | linux-3.2.0/block/cfq-iosched.c:2758-2777 | the walk in place: it ends and does not warn |
| `CfqCoop.Cooperators.ExitQueue` | linux-3.2.0/block/cfq-iosched.c:2779-2789 | a process leaving, in place |
| `AesContext.RoundTrip` | linux-3.2.0/crypto/aes_generic.c:1329-1440 | decryption undoes encryption for every key of 16, 24 or 32 bytes and every block |
| `AesCipher.DecryptsEncrypted` | linux-3.2.0/crypto/aes_generic.c:1329-1440 | under the reversed schedule with inverse-mixed inner slots decryption undoes encryption, for any schedule of two slots or more (section 5.3.5 of FIPS 197) |
| `AesCipher.Rounds` | linux-3.2.0/crypto/aes_generic.c:1300-1399 | the table rounds are SubBytes, ShiftRows, MixColumns and AddRoundKey, and their inverses in the order of the Equivalent Inverse Cipher; the last rounds leave the mix out |
| `AesCipher.FtMixes` | linux-3.2.0/crypto/aes_generic.c:1300-1306 | the four forward tables add up to MixColumns of the substituted column |
| `AesCipher.ItMixes` | linux-3.2.0/crypto/aes_generic.c:1372-1378 | the four inverse tables add up to InvMixColumns |
| `AesCipher.RoundBack` | linux-3.2.0/crypto/aes_generic.c:1372-1399 | one decryption round undoes one encryption round, a substitution apart |
| `AesWords.InvMixOfMix` | linux-3.2.0/crypto/aes_generic.c:1130-1139 | InvMixColumns undoes MixColumns |
| `AesWords.InvMixPlus` | linux-3.2.0/crypto/aes_generic.c:1130-1139 | InvMixColumns is linear |
| `AesWords.ImixIsInvMix` | linux-3.2.0/crypto/aes_generic.c:1128-1139 | the packed arithmetic of imix_col is InvMixColumns of the column |
| `AesField.SboxBack` | linux-3.2.0/crypto/aes_generic.c:329-591 | the inverse S-box undoes the S-box |
| `AesField.InverseInverts` | linux-3.2.0/crypto/aes_generic.c:329-591 | the S-box's inverses are the multiplicative inverses of the field (section 5.1.1 of FIPS 197) |
| `AesKeys.RcoIs` | linux-3.2.0/crypto/aes_generic.c:63 | rco_tab holds the powers of x |
| `AesKeys.LsBoxIs` | linux-3.2.0/crypto/aes_generic.c:1141-1149 | ls_box of a rotated word is SubWord of RotWord |
| `AesKeys.ReversedAt` | linux-3.2.0/crypto/aes_generic.c:1258-1266 | the decryption keys, slot by slot: reversed, the inner ones through the inverse mix |
| `AesContext.AesCtx.ExpandKey` | linux-3.2.0/crypto/aes_generic.c:1216-1268 | both schedules are those of the key (section 5.2 of FIPS 197), or the key length is refused and nothing changes |
| `AesContext.AesCtx.FillEnc` | linux-3.2.0/crypto/aes_generic.c:1233-1255 | the loops fill in the expanded key for each key size |
| `AesContext.AesCtx.FillInner` | linux-3.2.0/crypto/aes_generic.c:1263-1266 | the loop that mirrors and inverse-mixes the inner slots |
| `AesContext.AesCtx.EncryptBlock` | linux-3.2.0/crypto/aes_generic.c:1329-1368 | aes_encrypt in place computes the cipher of the key |
| `AesContext.AesCtx.DecryptBlock` | linux-3.2.0/crypto/aes_generic.c:1401-1440 | aes_decrypt in place computes the inverse cipher of the key |
| `FlushRuns.RunKeeps` | linux-3.2.0/block/blk-flush.c:94-347 | every state of every run satisfies the protocol and durability invariants |
| `FlushDurability.DoneIsSafe` | linux-3.2.0/block/blk-flush.c:94-108 | a request all of whose steps have done what they stand for has what its flags ask, for each policy the device's capabilities lead to |
| `FlushDurability.PartKeeps` | linux-3.2.0/block/blk-core.c:2070-2218 | a partial completion of data in flight keeps the durability account too |
| `RequestHistory.MergeKeeps` | linux-3.2.0/block/blk-merge.c:277-315 | a request merge, done or refused, keeps the invariant for both requests |
| `ThrottleSlice.FreshInRate` | linux-3.2.0/block/blk-throttle.c:487-497 | a slice just started is accounted for from any time before it since which nothing was sent |
| `ThrottleSlice.StartInRate` | linux-3.2.0/block/blk-throttle.c:499-512 | what is sent from any moment on is on the account of the slice found there, from its start |
| `ThrottleOps.PassKeeps` | linux-3.2.0/block/blk-throttle.c:843-856 | a pass of the dispatch round keeps the books, sends at most a group quantum, and touches one group |
| `ThrottleOps.SetRateKeeps` | linux-3.2.0/block/blk-throttle.c:1032-1039 | a limit change from the cgroup side keeps the books and has the work run |
| `ThrottleRuns.ProcessKeeps` | linux-3.2.0/block/blk-throttle.c:866-901 | processing all limit changes queues and sends nothing |
| `ThrottleRuns.CreateKeeps` | linux-3.2.0/block/blk-throttle.c:249-264 | a group enters listed, with one reference and no bios |
| `DeadlineRuns.CreditKept` | linux-3.2.0/block/deadline-iosched.c:243-325 | no event raises the credit of reads while a write waits, and each read sent lowers it |
| `DeadlineRuns.FreshTakesOldest` | linux-3.2.0/block/deadline-iosched.c:226-237 | a new batch for a direction whose oldest request has expired starts with that request |
| `CfqGroups.NotifyAddKeeps` | linux-3.2.0/block/cfq-iosched.c:889-912 | a group gaining a queue keeps the tree, its total and its minimum |
| `CfqGroups.NextKeeps` | linux-3.2.0/block/cfq-iosched.c:841-938 | every event keeps this and never lowers the minimum |
| `CfqCoop.LinkKeepsForest` | linux-3.2.0/block/cfq-iosched.c:2165-2184 | a link between two queues that end their chains closes no loop |
| `CfqCoop.PutFromSettles` | linux-3.2.0/block/cfq-iosched.c:2758-2777 | walking a chain and dropping one reference from each queue balances the counts again |
| `CfqCoop.RunKeeps` | linux-3.2.0/block/cfq-iosched.c:2144-2184 | every state of every run has a forest of links and balanced references |
| `ElevatorRuns.BackRun` | linux-3.2.0/block/blk-merge.c:228-250 | a bio taken at the back extends the run of sectors; a refused one leaves it |
| `ElevatorRuns.FrontRun` | linux-3.2.0/block/blk-merge.c:252-275 | a bio taken at the front likewise |
| `ElevatorRuns.RunKeeps` | linux-3.2.0/block/elevator.c:309-577 | every state of every run satisfies the invariant of requests, hash, cache and counter |
| `AesContext.AesCtx.FourWords` | linux-3.2.0/crypto/aes_generic.c:1147-1158 | one turn of the 128-bit loop yields the next four words of the expanded key |
| `AesContext.AesCtx.SixWords` | linux-3.2.0/crypto/aes_generic.c:1160-1175 | one turn of the 192-bit loop yields the next six |
| `AesContext.AesCtx.EightWords` | linux-3.2.0/crypto/aes_generic.c:1177-1198 | one turn of the 256-bit loop yields the next eight |
| `AesContext.AesCtx.EncryptRounds` | linux-3.2.0/crypto/aes_generic.c:1343-1362 | the rounds alternate two buffers and come to the whole cipher, for ten, twelve and fourteen rounds |
| `AesContext.AesCtx.DecryptRounds` | linux-3.2.0/crypto/aes_generic.c:1415-1434 | so do the inverse rounds |
| `FlushTimely.FlushNotPutOff` | linux-3.2.0/block/blk-flush.c:244-273 | in any run, after every event that completes a step: a flush that requests wait for is in flight, or data is in flight and the oldest of those requests began to wait less than five seconds before the event |
| `FlushTimely.OldFlushIssued` | linux-3.2.0/block/blk-flush.c:254-258 | in any run, a data completion five seconds or more after the oldest pending request began to wait leaves a flush in flight |
| `FlushTimely.NextSince` | linux-3.2.0/block/blk-flush.c:144-168 | every event keeps flush_pending_since the time at which the oldest pending request began to wait |
| `FlushTimely.WalkTimely` | linux-3.2.0/block/blk-flush.c:194-229 | no walk ends with a flush put off while no data is in flight or for five seconds or more |
| `FlushProtocol.StepGoes` | linux-3.2.0/block/blk-flush.c:144-192 | a step puts the request's data at the head of the dispatch queue and a flush at its tail, and ends a finished or failed request at once, with the failure if any |
| `MergeLimits.BackExactly` | linux-3.2.0/block/blk-merge.c:228-250 | ll_back_merge_fn takes the bio exactly when the sectors and the segments of both together are within max_sectors and max_segments; then counts, length and start are those of the two, and within the limits; else the request is only marked as done with merging |
| `MergeLimits.FrontExactly` | linux-3.2.0/block/blk-merge.c:252-275 | ll_front_merge_fn likewise, with the bio's start |
| `MergeLimits.MergeExactly` | linux-3.2.0/block/blk-merge.c:277-315 | ll_merge_requests_fn joins two requests exactly when neither is special and both together, less one segment if their outer ones meet, are within the limits; a refusal changes neither beyond its size caches |
| `ElevatorExact.RunWithinLimits` | linux-3.2.0/block/blk-merge.c:202-315 | in any run in which each bio is within max_sectors and max_segments by itself, so is every request, whatever was merged |
| `ElevatorExact.SubmitIn` | linux-3.2.0/block/blk-core.c:1325-1338 | submitting such a bio keeps every request within the limits |
| `ElevatorExact.AttemptExactly` | linux-3.2.0/block/blk-merge.c:367-447 | attempt_merge joins two requests exactly when both can merge, the second starts where the first ends, they go one way to one disk, neither is special and the result is within the limits |
| `ElevatorExact.LookoutMisses` | linux-3.2.0/block/elevator.c:469-511 | elv_merge finds only requests that take the bio, and the cached one if that does; it passes over one that does only when a request on the same side that does not is found in its place; and it looks for a front merge only after the cache and the back merge |
| `ElevatorExact.LookoutExactly` | linux-3.2.0/block/elevator.c:469-511 | so with no such request in the way it finds none exactly when no queued request takes the bio |
| `ElevatorExact.RunCaches` | linux-3.2.0/block/elevator.c:469-577 | in any run the cached request is queued and can still merge |
| `ElevatorExact.SubmitCache` | linux-3.2.0/block/elevator.c:547-577 | a merged bio is in the request that is cached afterwards |
| `ElevatorExact.PlacedCache` | linux-3.2.0/block/elevator.c:689-706 | a new request is cached only if none was |
| `ThrottleSlice.OkExactly` | linux-3.2.0/block/blk-throttle.c:584-735 | tg_may_dispatch lets a bio go exactly when it and what the slice was charged are within what both limits grant for the time elapsed, in whole slices, the count being capped at UINT_MAX |
| `ThrottleSlice.OkFresh` | linux-3.2.0/block/blk-throttle.c:686-735 | on a slice that ran out, exactly when one fresh slice grants it |
| `ThrottleSlice.SliceStays` | linux-3.2.0/block/blk-throttle.c:686-735 | a slice that did not run out keeps its start and charges and ends no earlier than a slice from now |
| `ThrottleSlice.WaitExactly` | linux-3.2.0/block/blk-throttle.c:584-674 | a refused bio is told to wait for the time at which its limit has granted it: bounds from both sides, to within a jiffy, for bytes and for count |
| `ThrottleSlice.SentExactly` | linux-3.2.0/block/blk-throttle.c:525-582 | what a sent bio leaves charged: all of it, less what the whole slices elapsed have earned when they earned anything; and where the slice then starts and ends |
| `ThrottleExact.DispatchTgStops` | linux-3.2.0/block/blk-throttle.c:802-833 | a dispatch of a group sends up to six reads and two writes, in order, and fewer only when none is left or the next one may not go |
| `ThrottleExact.TimedExactly` | linux-3.2.0/block/blk-throttle.c:762-780 | a group is due when the first of its directions may send, neither earlier nor later |
| `ThrottleExact.ScheduledExactly` | linux-3.2.0/block/blk-throttle.c:467-485 | the work is scheduled for the least dispatch time of all groups, or for now if that has passed |
| `ThrottleExact.SubmitExactly` | linux-3.2.0/block/blk-throttle.c:1112-1204 | a bio without a rule goes uncharged; one with a rule goes at once exactly when none of its direction waits and its limits let it; else it waits behind them |
| `CompletionExact.UpdatePlaces` | linux-3.2.0/block/blk-core.c:2070-2218 | blk_update_request leaves exactly the bytes after the first n, in order, at the addresses they had |
| `CompletionExact.ConsumeEnds` | linux-3.2.0/block/blk-core.c:2113-2179 | the bios ended are those whose bytes are all done, in order, with the error; the first one left is trimmed by what was done of it, and the others are untouched |
| `CompletionExact.UpdateExactly` | linux-3.2.0/block/blk-core.c:2070-2218 | the request left starts n / 512 sectors on, is n bytes shorter, and is otherwise as it was but for its bios and segment count |
| `CompletionExact.UpdateAll` | linux-3.2.0/block/blk-core.c:2113-2179 | when all is done every bio is ended once, in order |
| `CfqChoose.ClassFirst` | linux-3.2.0/block/cfq-iosched.c:670-690 | a sync request goes before an async one, and within these one with REQ_PRIO before one without, wherever they are |
| `CfqChoose.AheadOrBehind` | linux-3.2.0/block/cfq-iosched.c:691-753 | of one request ahead of the head and one behind it within reach, the one ahead is chosen exactly when it is no further away than the other's distance times back_seek_penalty; beyond reach it always is |
| `CfqChoose.OneSide` | linux-3.2.0/block/cfq-iosched.c:691-753 | of two on one side the nearer is chosen; of two out of reach behind, the one further behind; one in reach before one that is not |
| `DeadlineExact.NewBatch` | linux-3.2.0/block/deadline-iosched.c:243-290 | a new batch is of writes exactly when writes wait and either no reads do or reads were preferred writes_starved times; nothing is sent exactly when nothing waits; and how the count goes on |
| `DeadlineExact.BatchGoesOn` | linux-3.2.0/block/deadline-iosched.c:243-262 | a batch goes on with its next request while there is one and fifo_batch is not reached |
| `DeadlineExact.BatchStarts` | linux-3.2.0/block/deadline-iosched.c:291-318 | a new batch starts with the oldest request if that has expired or there is no next one, and with the next one otherwise |
| `DeadlineExact.SendLeaves` | linux-3.2.0/block/deadline-iosched.c:204-220 | sending leaves as next the request after the one sent in sector order, and none in the other direction |
| `DeadlineExact.AddExactly` | linux-3.2.0/block/deadline-iosched.c:98-111 | a new request expires after its direction's time and goes behind the others of it |
| `DeadlineExact.MergeExactly` | linux-3.2.0/block/deadline-iosched.c:168-187 | after a merge the survivor expires when the earlier of the two did; no other request's expiry or place among the others changes |
| `CfqCoop.SetupExactly` | linux-3.2.0/block/cfq-iosched.c:2144-2184 | cfq_setup_merge changes nothing exactly when process references are missing at one of the queues or the first is on the other's chain; else it links the one with fewer to the other |
| `FlushProtocol.InsertGoes` | linux-3.2.0/block/blk-flush.c:94-108 | where a submission goes, for each capability of the device: none without a cache waits for a flush, none with FUA for one after its data; what waits for none is queued at the tail or, without data, ended; else the flush or the data comes first as FLUSH asks |
| `ElevatorExact.BackJoins` | linux-3.2.0/block/blk-core.c:1174-1195 | a bio taken at the end has the following request joined exactly when attempt_merge can do it |
| `ElevatorExact.FrontJoins` | linux-3.2.0/block/blk-core.c:1197-1226 | a bio taken at the start has the preceding request joined likewise |
| `ThrottleExact.RestartedExactly` | linux-3.2.0/block/blk-throttle.c:866-901 | a group whose limits changed is due anew when the first of its directions may send under the new limits from a fresh slice |
| `DeadlineExact.MergeNext` | linux-3.2.0/block/deadline-iosched.c:83-92 | when the absorbed request was the next of its direction, the one after it by sector becomes the next; else the next stays |
| `DeadlineExact.FrontExactly` | linux-3.2.0/block/deadline-iosched.c:154-166 | a front merge changes the request's place by sector and nothing else |
| `CfqGroups.WeightTakesEffect` | linux-3.2.0/block/cfq-iosched.c:972-992 | a new weight is taken up when the group is next served; that charge is still scaled by the old one |
| `ElevatorExact.CleanedDrops` | linux-3.2.0/block/elevator.c:336-346 | a lookup that finds nothing drops from its bucket exactly what can no longer merge |

## Left out

- FlushProtocol.InsertKeeps: excludes an empty request that asks for both FLUSH and FUA on a device with FLUSH and without FUA; the file's header (blk-flush.c:13-17) rules such requests out, and `FlushRule.EmptyFuaSkipsFlush` shows what they would do. `FlushDurability.SubmitKeeps` and `FlushQueue.RequestQueue.Insert` exclude the same requests.
- ThrottleRate.RateLimit: a stretch of the run in which the group's limits stay as they are and nothing is drained; a direction without any rule is not charged and has no bound.
- Completion.SplitUpdate: of the front and back segment size caches only that they are never smaller after two completions than after one, because each recount may only raise them; both results satisfy the segment invariant.
- MergeLimits.MergeExactly: asks that the two requests count at least one segment between them, as requests with data do; `ElevatorExact.AttemptExactly` asks the same.
- ThrottleSlice.OkExactly: a direction with a rule, as `ThrottleSlice.WaitExactly` is; one without is let through before any slice is looked at.
- CfqGroups.ServiceFair: rounds among the same backlogged groups; arrivals, departures and weight changes between rounds are covered by `RunKeeps` only.
- Wrap-around of jiffies, of virtual disk times and of 32- and 64-bit products: arithmetic is unbounded.
- Memory order, RCU and lock acquisition: a locked region is one step.
- Rotations of red-black trees and links inside lists: both are sequences, so aliasing of nodes is not captured.
- Limit changes, draining, group release and queue exit in the throttle, and the bio merges of the elevator, are functions on values without a class method beside them.
- blk_abort_flushes.
- Statistics, tracing, sysfs, ioctl and the debugging output of all files.
- Plug lists and their merging, elv_attempt_insert_merge, and the nomerges switch other than as an arbitrary refusal.
- Failfast mixing, discard and secure erase, integrity payloads, bounce buffers, DMA padding and draining.
- In deadline: the last_sector hint, changing the tunables during a run, and front_merges other than at its default.
- In the elevator: the sorted trees are deadline's, one for each direction; CFQ looks for front merges in trees of its own queues.
- In CFQ: idling, preemption, slice lengths, service tree selection within a group, splitting of cooperating queues, and the count field of the group tree, which nothing reads.
- In AES: the literal tables are replaced by the formulas of their entries, so the numerals themselves are not part of this model; module registration and other ciphers.
- The other directories of the kernel.
