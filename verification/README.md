# A verified model of the block layer

This project models, in Dafny, the parts of the Linux block layer under `borph/block` whose
correctness rests on invariants over long runs, and the AES implementation in
`borph/crypto/aes_generic.c`, and proves what they promise. `dafny verify dfyconfig.toml` checks all
of it.

Each component has a specification on values (datatypes, functions, and lemmas over every run) and,
where the code updates state step by step, the code itself as classes and methods with loops, proved
to leave exactly the state that the specification gives. A critical section under the queue lock is
one step. Times, sectors and sizes are unbounded integers; red-black trees are ordered sequences;
what the code asks of hidden helpers, such as whether two vectors are physically contiguous or how a
sector is hashed, is a parameter, so the results hold for every such helper.

| files | component |
|---|---|
| `Throttle`, `ThrottleWindow`, `ThrottleLanes`, `ThrottleGroup` | the bandwidth throttle of a group: slices, both limits, trims, queues, dispatch |
| `BlockIo`, `Segments`, `Merging`, `Completion`, `Drain`, `RequestOps` | segment counts, merging, scatterlist mapping and partial completion of requests, and the entry for the drain buffer |
| `Flush`, `FlushDurability`, `FlushLedger`, `FlushOps` | the FLUSH/FUA sequencer, against a device with a volatile cache |
| `CfqGroups`, `CfqFairness`, `CfqOps`, `Cooperators` | CFQ's group service tree and its chains of cooperating queues |
| `Deadline`, `DeadlineRuns`, `DeadlineOps` | the deadline scheduler |
| `MergeHash`, `DispatchSort`, `ElevatorSwitch` | the elevator core: merge hash, sorted dispatch list, live switching |
| `Tags`, `TagOps` | the tag allocator, with queues interleaving on a shared map |
| `Aes`, `AesWords`, `AesGeneric` | AES: FIPS-197 on bytes, the table-driven word arithmetic, the context |
| `Options` | a value that may be missing |

## Where the code does less than one might expect

Four promises hold only under a condition. In each case the model follows the code, and lemmas give
the failure and the condition.

- A throttled group can save up credit: the rate bound holds over whole runs of a group
  (`ThrottleLanes.GroupRateBound`), but bios that are dispatched directly never trim the slice, and
  after k intervals with bios of no data only, all of them may be spent in one jiffy
  (`Throttle.DirectDispatchHoardsCredit`). A window that opens in the middle of a run is bounded by
  its length, one interval, and the credit of the slice at that moment
  (`ThrottleWindow.WindowBound`); no bio that may go at once is worth more than one interval iff the
  room left in the slice is not (`ThrottleWindow.BurstBoundedIff`); and a dispatch from the queue
  trims that credit to less than an interval (`ThrottleWindow.WindowAfterDispatch`,
  `ThrottleWindow.TrimBoundsBurst`). A retry that comes after the slice has ended starts from nothing
  (`Throttle.LateRetryVerdict`).
- A partial completion recounts the segments without the one for the drain buffer. The next peek adds
  it again iff the request is not marked REQ_DONTPREP (`Drain.CoveredAgain`); if it is, the entry for
  the buffer exceeds the count unless neighbouring pieces of memory are kept apart for bouncing
  (`Drain.UpdateForgetsDrainSlot`), as for a request of two sectors on every queue
  (`Drain.DrainSlotLost`).
- An empty request that asks for FUA alone, on a device with FUA, is reported at once, and if flushes
  are pending the next one is handed to the driver without its sequence
  (`FlushLedger.HandsOverUnsequenced`, `FlushLedger.EmptyFuaBreaksFlush`). Every run without such a
  request keeps the promises (`FlushDurability.FlushKeepsPromises`), so that all runs do iff the
  device has no FUA (`FlushLedger.PromisesIff`).
- Growing a tag map copies the old arrays in full: the copy stays inside the new ones, and then keeps
  every assignment, iff twice the number of requests of the queue is at least the old depth
  (`TagOps.GrowKeepsTags`).

## Model

| member | source | states |
|---|---|---|
| `Throttle.RateBound` | borph/block/blk-throttle.c:346-604 | Over every run of checks, direct and queued dispatches, trims and restarts, HZ times the bytes charged since the first check is at most bps times the elapsed time plus one throtl_slice, and the same for bios and iops; no rounding term is needed. |
| `Throttle.InvStep` | borph/block/blk-throttle.c:539-604 | Every event keeps the account behind the bound: what was charged outside the current slice fits the time before it, and all of it fits the time up to the last charge plus one slice. |
| `Throttle.BpsRefusedIff` | borph/block/blk-throttle.c:493-533 | The byte limit refuses a bio iff HZ times the bytes dispatched plus its size exceeds bps times the rounded elapsed time. |
| `Throttle.RefusalKeepsSlice` | borph/block/blk-throttle.c:539-588 | A refusal asks for a wait of at least one jiffy, changes no counter, and leaves a slice that lasts until the wait is over. |
| `Throttle.BpsRetryShrinks` | borph/block/blk-throttle.c:493-533 | A retry no earlier than asked finds the deficit smaller by at least bps times throtl_slice. |
| `Throttle.IopsRetrySucceeds` | borph/block/blk-throttle.c:443-491 | When only the iops limit refuses, the first retry that is not early goes through. |
| `Throttle.RefusalsBounded` | borph/block/blk-throttle.c:539-588 | A bio retried on time is refused at most once per interval of missing bytes, once for the remainder and once for iops. |
| `Throttle.LateRetryVerdict` | borph/block/blk-throttle.c:346-381 | A retry after the slice has ended goes through iff the bio fits into one fresh interval under both limits: the time already waited does not count. |
| `Throttle.DirectDispatchHoardsCredit` | borph/block/blk-throttle.c:982-1037 | Directly dispatched bios never trim: for every k there is a run that charges nothing in k intervals and may then charge k intervals worth of bytes in one jiffy. When a window is bounded is stated by the rows of ThrottleWindow. |
| `Throttle.TrimmedCredit` | borph/block/blk-throttle.c:384-441 | A trim leaves a slice that started less than one interval ago iff no whole interval had passed or the give-back rounds to at least a byte or a bio. |
| `ThrottleWindow.OwnsStep` | borph/block/blk-throttle.c:346-604 | Every event keeps the account of the slice taken on its own: what is charged to it, less one byte and one bio for the rounding of trims, fits the time since its start plus one interval. |
| `ThrottleWindow.WindowBound` | borph/block/blk-throttle.c:346-604 | Over any window opened after any run, HZ times the bytes charged is at most bps times the length of the window plus one interval, plus the credit that the slice had when the window opened; the same for bios. |
| `ThrottleWindow.WindowAfterTrim` | borph/block/blk-throttle.c:384-441 | A window that opens less than one interval into a slice is charged at most the limit over its length plus two intervals. |
| `ThrottleWindow.WindowAfterDispatch` | borph/block/blk-throttle.c:639-657 | So is every window opened by a dispatch from the queue, if one of the limits is worth a byte or a bio per interval. |
| `ThrottleWindow.BurstBoundedIff` | borph/block/blk-throttle.c:443-588 | No bio that may go at once is worth more than one interval iff the iops limit refuses all, or the room left under the byte limit is worth at most one interval. |
| `ThrottleWindow.TrimBoundsBurst` | borph/block/blk-throttle.c:384-441 | After a trim every bio that may go at once is worth at most one interval, or is a single byte where the rates are too low for the trim to give anything back. |
| `ThrottleLanes.DrainIsRun` | borph/block/blk-throttle.c:659-690 | Dispatching the queue of a direction is a run of the events above: it takes a prefix of the queue, at most the quota, and charges exactly that prefix. |
| `ThrottleLanes.StepIsRun` | borph/block/blk-throttle.c:619-690 | Every arrival, update and dispatch round is, for each direction, a run of its events at that moment that charges exactly the bios handed to the device; queue and arrival before equal bios handed over and queue after. |
| `ThrottleLanes.FirstInFirstOut` | borph/block/blk-throttle.c:606-690 | In every run the bios of a direction leave in the order in which they came, none lost, doubled or overtaken, and those that have not left are the queue. |
| `ThrottleLanes.RunIsRun` | borph/block/blk-throttle.c:619-690 | A run of the group is, for each direction, one run of events whose charges are the bios handed to the device. |
| `ThrottleLanes.GroupRateBound` | borph/block/blk-throttle.c:606-690 | In every run of a new group, the bytes and bios of a direction handed to the device fit its limits over the time of the run plus one interval, whatever the other direction does. |
| `Throttle.CheckedSliceIsOrdered` | borph/block/blk-throttle.c:384-395 | After a check the slice contains the present, so the BUG_ON of the trim that follows is not reached. |
| `ThrottleGroup.ThrotlGroup.StartNewSlice` | borph/block/blk-throttle.c:346-356 | The counters of the direction are cleared and its slice is the next interval; the other direction is untouched. |
| `ThrottleGroup.ThrotlGroup.ExtendSlice` | borph/block/blk-throttle.c:358-371 | The end of the slice becomes the given time rounded up to whole intervals. |
| `ThrottleGroup.ThrotlGroup.TrimSlice` | borph/block/blk-throttle.c:384-441 | The direction becomes the specification's trimmed slice, under the precondition that its BUG_ON checks. |
| `ThrottleGroup.ThrotlGroup.WithinIopsLimit` | borph/block/blk-throttle.c:443-491 | The verdict and the wait are those of the specification, 32-bit clamp included. |
| `ThrottleGroup.ThrotlGroup.WithinBpsLimit` | borph/block/blk-throttle.c:493-533 | The verdict and the wait are those of the specification. |
| `ThrottleGroup.ThrotlGroup.MayDispatchBio` | borph/block/blk-throttle.c:539-588 | Slice and verdict are those of the specification; the other direction is untouched. |
| `ThrottleGroup.ThrotlGroup.UpdateDisptime` | borph/block/blk-throttle.c:619-637 | Both directions become those of the update step, and the dispatch time is the earliest time at which the head of one of the two queues asked to be checked again. |
| `ThrottleGroup.ThrotlGroup.ThrotlBio` | borph/block/blk-throttle.c:982-1037 | Both directions become those of the arrival step: the bio passes iff its queue is empty and the check agrees, and otherwise joins its queue; the first to join makes both heads be checked. |
| `ThrottleGroup.ThrotlGroup.DispatchOneBio` | borph/block/blk-throttle.c:639-657 | The head leaves its queue, is charged, and the slice is trimmed. |
| `ThrottleGroup.ThrotlGroup.DispatchDirection` | borph/block/blk-throttle.c:659-690 | One dispatch loop leaves the slice and the queue of the specification's drain and appends what it took to the list. |
| `ThrottleGroup.ThrotlGroup.DispatchGroup` | borph/block/blk-throttle.c:659-690 | Both directions become those of the dispatch step, and the list is extended by the reads and then the writes that the step hands over, at most the quantum. |
| `Segments.PackIsPartition` | borph/block/blk-merge.c:117-169 | Greedy packing yields non-empty segments within the size limit whose joints are contiguous and whose concatenation is the vector list. |
| `Segments.PackStaysAhead` | borph/block/blk-merge.c:117-169 | Greedy packing never yields more segments than any valid partition of the same vectors. |
| `Segments.RecalcCounts` | borph/block/blk-merge.c:12-85 | A recount moves no data, and its count is the size of a valid partition whose first and last segments fit the cached front and back sizes. |
| `Segments.CountedJoin` | borph/block/blk-merge.c:87-115 | Where two counted chains meet contiguously, one fewer segment is a sound count, given that the caches are raised when an end has a single segment. |
| `Segments.CountSuffices` | borph/block/blk-merge.c:117-169 | A sound count is never smaller than the number of entries that greedy packing across all bio boundaries emits. |
| `RequestOps.RecalcSegments` | borph/block/blk-merge.c:12-69 | The two nested loops compute the specification's count and caches. |
| `RequestOps.MapBio` | borph/block/blk-merge.c:117-169 | The inner loop extends the scatterlist of the vectors so far to that of the vectors including the bio. |
| `RequestOps.Rq.MapSg` | borph/block/blk-merge.c:116-193 | The scatterlist has one entry for every segment of the greedy packing, with its page, offset and length; the last is padded so that the bytes of a request copied from user space are a multiple of the alignment; the drain buffer follows; extra_len grows by both. |
| `RequestOps.Rq.LlMergeFn` | borph/block/blk-merge.c:202-275 | Acceptance, the new count, the NOMERGE mark and the recounted bio are those of the specification. |
| `RequestOps.Rq.AttemptMerge` | borph/block/blk-merge.c:366-446 | Acceptance and both requests afterwards are those of the specification, also when a refusal comes after the caches were written. |
| `Merging.AddBackSound` | borph/block/blk-merge.c:228-250 | A back merge keeps the segment count sound. |
| `Merging.AddFrontSound` | borph/block/blk-merge.c:252-275 | A front merge keeps the segment count sound. |
| `Merging.AttemptSound` | borph/block/blk-merge.c:277-315 | Merging two requests keeps the count sound, and a refused attempt leaves both sound. |
| `Merging.MapNeverExceedsCount` | borph/block/blk-merge.c:12-315 | For every history of back, front and request merges, recounts and partial completions, mapping emits at most nr_phys_segments entries. |
| `Drain.PeekCoversDrain` | borph/block/blk-core.c:1855-1866 | On every queue, a peek makes the count of every sound request cover the drain entry iff the request is not marked REQ_DONTPREP. |
| `Drain.UpdateForgetsDrainSlot` | borph/block/blk-core.c:2135-2136 | After a partial completion and another peek the drain entry is covered if the request is not marked REQ_DONTPREP; if it is, the entry exceeds the count by one unless two neighbouring vectors could join but for bouncing; where the rest fits one segment that is an iff. |
| `Drain.DrainSlotLost` | borph/block/blk-core.c:2135-2136 | On every queue: a request of two sectors that was covered at first is not covered after one of them, if it is marked. |
| `Drain.CoveredAgain` | borph/block/blk-core.c:1855-1866 | On every queue, all partially completed requests are covered when the driver peeks again iff they are not marked REQ_DONTPREP. |
| `Drain.SplitNeedNotHelp` | borph/block/blk-merge.c:12-85 | Where the rest does not fit one segment, vectors kept apart need not add to the count: a concrete packing. |
| `Completion.UpdateDrops` | borph/block/blk-core.c:2008-2139 | Completing n bytes leaves exactly the data behind the first n, the matching length and a sound segment count, and nothing iff n covers the request. |
| `Completion.CompletionRun` | borph/block/blk-core.c:2008-2139 | For every sequence of completion sizes the uncompleted suffix remains, and the bios ended so far followed by those left are the bios of the request, so each ends exactly once. |
| `Completion.SectorRun` | borph/block/blk-core.c:2113-2118 | For file system requests completed in whole sectors the start sector advances with the data. |
| `RequestOps.Rq.CompleteBios` | borph/block/blk-core.c:2038-2111 | The loop over bios and vectors leaves what the specification says and hands back the finished bios in order. |
| `RequestOps.Rq.UpdateRequest` | borph/block/blk-core.c:2008-2139 | The request afterwards is the specification's, more is reported iff something remains, and neither error exit of the loop is reached. |
| `Merging.PlacedMeaning` | borph/block/blk-core.c:1214-1271 | A request whose bios are placed one behind the other tells the device exactly the transfers of its bios. |
| `Merging.AttemptGood` | borph/block/blk-merge.c:366-446 | A request merge concatenates the two meanings, and a refused one changes neither; placement, length and count stay right. |
| `Merging.MergeNeighbourKeeps` | borph/block/blk-merge.c:448-466 | Merging neighbours never changes the transfers that the queue denotes. |
| `Merging.SubmitAddsExactly` | borph/block/blk-core.c:1214-1271 | Submitting a bio adds exactly its transfers to the queue, whichever merge happens and whatever is merged in turn. |
| `Merging.QueueMeansWhatWasSubmitted` | borph/block/blk-core.c:1185-1271 | Over every run of submissions the queue denotes exactly what was submitted, as a multiset of (direction, sector, data). |
| `RequestOps.Rq.MergeBack` | borph/block/blk-core.c:1216-1237 | The back merge branch leaves the specification's request. |
| `RequestOps.Rq.MergeFront` | borph/block/blk-core.c:1239-1271 | The front merge branch leaves the specification's request. |
| `Flush.BeginBits` | borph/block/blk-flush.c:171-191 | Beginning a sequence sets no bit twice, and the bits then point at the first stage that the request needs. |
| `Flush.AdvanceBits` | borph/block/blk-flush.c:23-41 | Completing the current stage sets a clear bit, and the bits then point at the next needed stage or at the end. |
| `Flush.StageDone` | borph/block/blk-flush.c:30-57 | When the outstanding stage completes, the next needed stage is queued in front with the first error kept, or the sequence ends. |
| `Flush.NoBug` | borph/block/blk-flush.c:38-131 | In a safe state neither the BUG_ON on a repeated stage nor the BUG on an unknown one is reached. |
| `Flush.NextSafe` | borph/block/blk.h:56-74 | The look-up loop keeps the machine safe and only ever returns a stage or a request that needs none. |
| `Flush.StepSafe` | borph/block/blk-flush.c:30-192 | Every submission, look-up and completion keeps a safe state safe. |
| `FlushDurability.FlushIsSafe` | borph/block/blk-flush.c:23-192 | For every run at most one stage is outstanding, flush_seq is non-zero iff a sequence runs, no BUG is reached, and pending requests wait for a running sequence or for one about to begin. |
| `FlushDurability.FlushKeepsPromises` | borph/block/blk-flush.c:30-192 | For every run and every device: a FLUSH reported successful has made all writes completed before its sequence stable, a successful FUA write is stable itself, the stages issued are exactly the needed ones in order, and success means that all of them succeeded. |
| `FlushLedger.ReportedOnce` | borph/block/blk-flush.c:137-192 | A request submitted once is in exactly one place at any time, and is reported at most once. |
| `FlushLedger.AllReported` | borph/block/blk-flush.c:30-57 | When the lists and the device are empty, every submitted request has been reported, as often as it was submitted. |
| `FlushLedger.HandsOverUnsequenced` | borph/block/blk-flush.c:154-192 | blk_do_flush hands the driver a request that still needs its sequence iff it was called, with others pending, for an empty request that needs no flush. |
| `FlushLedger.EmptyFuaBreaksFlush` | borph/block/blk-flush.c:137-192 | A concrete run with one empty FUA-only request in which a FLUSH is reported successful although an earlier completed write is still in the cache. |
| `FlushLedger.PromisesIff` | borph/block/blk-flush.c:137-192 | All runs of requests that carry data or ask for FLUSH or FUA keep the promises iff the device does not offer FUA. |
| `FlushOps.FlushQueue.constructor` | borph/block/blk-settings.c:797-805 | FUA without FLUSH is refused. |
| `FlushOps.FlushQueue.QueueNextFseq` | borph/block/blk-flush.c:100-135 | The stage for the lowest clear bit goes to the front of the dispatch list. |
| `FlushOps.FlushQueue.CompleteSequence` | borph/block/blk-flush.c:30-57 | The queue afterwards is the specification's, under the preconditions that the BUG_ON and the BUG check. |
| `FlushOps.FlushQueue.DoFlushRequest` | borph/block/blk-flush.c:137-192 | The queue afterwards and the result are the specification's for every request and every state. |
| `FlushOps.FlushQueue.NextRequest` | borph/block/blk.h:56-74 | The two nested loops leave the specification's queue, and find a request iff the dispatch list is not empty. |
| `CfqGroups.Scaled` | borph/block/cfq-iosched.c:534-541 | The scaled charge is the charge times 4096 times 500 divided by the weight, rounded down. |
| `CfqGroups.AddOk` | borph/block/cfq-iosched.c:864-890 | A group new to the tree gets a virtual time no smaller than any on it; every other group is found as before and the tree stays ordered. |
| `CfqGroups.DelOk` | borph/block/cfq-iosched.c:892-914 | The group leaves with its last queue, and every other group is found as before. |
| `CfqGroups.ChargeOk` | borph/block/cfq-iosched.c:942-961 | Only the served group moves, by its scaled charge, and the tree stays ordered with a correct leftmost cache. |
| `CfqGroups.PickOk` | borph/block/cfq-iosched.c:2194-2205 | The picked group has the least virtual time on the tree, and the minimum advances to it. |
| `CfqFairness.GapBounded` | borph/block/cfq-iosched.c:2194-2325 | Over every run, two groups that stay on the tree drift apart by no more than their first gap or the largest charge between two picks, whatever other groups join or leave. |
| `CfqFairness.MinTimeMonotone` | borph/block/cfq-iosched.c:561-577 | The minimum never decreases and never exceeds the virtual time of a group on the tree. |
| `CfqFairness.ReceivedMoves` | borph/block/cfq-iosched.c:942-961 | A group that stays on the tree moves by exactly what it was charged. |
| `CfqFairness.ReceivedScales` | borph/block/cfq-iosched.c:534-541 | What a group was charged times its weight is its disk time times the scale, up to one unit of weight for each slice. |
| `CfqFairness.FairShares` | borph/block/cfq-iosched.c:534-577 | Disk time divided by weight differs between groups that stay on the tree by a bounded amount plus the rounding of each slice. |
| `CfqOps.GroupTree.AddToTree` | borph/block/cfq-iosched.c:836-862 | The descent puts the group behind every group that is not later and keeps the leftmost cache. |
| `CfqOps.GroupTree.AddGroup` | borph/block/cfq-iosched.c:864-890 | The tree afterwards is the specification's. |
| `CfqOps.GroupTree.DelGroup` | borph/block/cfq-iosched.c:892-914 | The tree afterwards is the specification's, under the precondition that the BUG_ON checks. |
| `CfqOps.GroupTree.NextGroup` | borph/block/cfq-iosched.c:2194-2205 | Returns a group of least virtual time, or nothing iff the tree is empty. |
| `CfqOps.GroupTree.UpdateMinTime` | borph/block/cfq-iosched.c:561-577 | The minimum afterwards is the specification's. |
| `CfqOps.GroupTree.GroupServed` | borph/block/cfq-iosched.c:942-961 | The tree afterwards is the specification's. |
| `Cooperators.LinkRanked` | borph/block/cfq-iosched.c:2078-2087 | A link between two different queues without successor leaves every chain free of cycles. |
| `Cooperators.NoLoop` | borph/block/cfq-iosched.c:2650-2669 | No queue is its own successor, and none is met twice on a chain. |
| `Cooperators.NeverALoop` | borph/block/cfq-iosched.c:2048-2088 | After any run of merges set up for distinct queues of which the first has no successor, no chain leads back to its start. |
| `Cooperators.Queues.SetupMerge` | borph/block/cfq-iosched.c:2048-2088 | The chain walk ends, links the ends of the two chains towards the one with more process references, and leaves no cycle. |
| `Cooperators.Queues.PutCooperator` | borph/block/cfq-iosched.c:2650-2669 | The walk ends, puts every queue of the chain exactly once, and never warns of a loop. |
| `Deadline.AddToTreeOk` | borph/block/deadline-iosched.c:76-84 | A request with the same sector is dispatched first; afterwards sectors are distinct, and tree, fifo and the batch pointer agree. |
| `Deadline.MoveOk` | borph/block/deadline-iosched.c:206-222 | Dispatching a request keeps the two indexes in agreement and at most one batch pointer. |
| `DeadlineRuns.MergedOk` | borph/block/deadline-iosched.c:170-189 | A request merge keeps the fifo in the order of deadlines, with the survivor in the place and with the deadline of the earlier one. |
| `DeadlineRuns.IndexesAgree` | borph/block/deadline-iosched.c:76-222 | In every reachable state tree and fifo of a direction hold the same requests, no two have the same sector, at most one direction has a batch pointer and it is in its tree, and the head of the fifo expires first. |
| `DeadlineRuns.PassOverSpends` | borph/block/deadline-iosched.c:245-327 | A dispatch call that passes over a waiting write uses up at least one unit of a credit that only dispatch calls change. |
| `DeadlineRuns.WritesDoNotStarve` | borph/block/deadline-iosched.c:245-327 | Consecutive dispatch calls that find a write waiting and dispatch a read number at most (writes_starved + 1) times max(fifo_batch, 1), whatever is added and merged in between. |
| `DeadlineRuns.StarvedBounded` | borph/block/deadline-iosched.c:270-289 | The starvation counter never exceeds writes_starved. |
| `DeadlineRuns.NoRequestLost` | borph/block/deadline-iosched.c:100-327 | Every request added is waiting, dispatched, or merged into another: exactly one of these, once. |
| `DeadlineOps.DeadlineData.AddRqRb` | borph/block/deadline-iosched.c:76-84 | The loop over aliases ends and leaves the specification's tree. |
| `DeadlineOps.DeadlineData.AddRequest` | borph/block/deadline-iosched.c:100-113 | The scheduler afterwards is the specification's. |
| `DeadlineOps.DeadlineData.RemoveRequest` | borph/block/deadline-iosched.c:86-124 | The request leaves fifo and tree, and the batch goes on behind it if it was next. |
| `DeadlineOps.DeadlineData.MoveRequest` | borph/block/deadline-iosched.c:194-222 | The scheduler afterwards is the specification's. |
| `DeadlineOps.DeadlineData.MergedRequest` | borph/block/deadline-iosched.c:156-168 | After a front merge the request is repositioned in the tree and nowhere else. |
| `DeadlineOps.DeadlineData.MergedRequests` | borph/block/deadline-iosched.c:170-189 | The scheduler afterwards is the specification's. |
| `DeadlineOps.DeadlineData.DispatchRequests` | borph/block/deadline-iosched.c:245-327 | Dispatches the specification's choice, and something iff one of the fifos is not empty. |
| `MergeHash.FindIsLinearScan` | borph/block/elevator.c:335-355 | The hash look-up finds a mergeable request ending at the sector iff the scheduler holds one, and drops only requests that cannot merge any more. |
| `MergeHash.BackMergedInv` | borph/block/elevator.c:522-533 | A back merge leaves the request in the bucket of its new end. |
| `MergeHash.FrontMergedInv` | borph/block/elevator.c:522-533 | A front merge moves the start and keeps the end, so the request is still in the bucket of its key without being hashed again. |
| `MergeHash.JoinedInv` | borph/block/elevator.c:535-548 | A request merge leaves the survivor in the bucket of its new end and the other request unhashed. |
| `MergeHash.HashRefinesScan` | borph/block/elevator.c:310-355 | In every reachable state, for every hash function, the look-up agrees with a scan of all requests in the scheduler, each hashed request is in the bucket of its current end, and last_merge is NULL or in the scheduler. |
| `MergeHash.Elevator.RqhashAdd` | borph/block/elevator.c:321-327 | Puts the request in front of the bucket of its key, under the precondition that the BUG_ON checks. |
| `MergeHash.Elevator.RqhashFind` | borph/block/elevator.c:335-355 | The loop returns a match iff there is one and leaves the specification's table. |
| `MergeHash.Elevator.InsertSort` | borph/block/elevator.c:657-674 | A request new to the scheduler is hashed, and becomes last_merge if there is none. |
| `MergeHash.Elevator.LeaveScheduler` | borph/block/elevator.c:424-429 | The request is unhashed and is last_merge no longer. |
| `MergeHash.Elevator.MergedRequest` | borph/block/elevator.c:522-533 | A back merge lengthens the request and hashes it again, a front merge moves its start and does not; it becomes last_merge. |
| `MergeHash.Elevator.MergeRequests` | borph/block/elevator.c:535-548 | The survivor takes over the sectors and is hashed again, the other request is unhashed. |
| `DispatchSort.PlaceIs` | borph/block/elevator.c:433-454 | What the new request passes comes strictly after it and does not stop it; what it stays behind stops it or does not come after it. |
| `DispatchSort.TailStaysSorted` | borph/block/elevator.c:418-455 | After any series of insertions every run of requests that do not stop each other is in the order (below the boundary, position). |
| `DispatchSort.OneSweep` | borph/block/elevator.c:418-455 | Requests of one kind inserted behind a stopping one come out as a permutation of themselves in one sweep, and what was there before is undisturbed. |
| `DispatchSort.SweepIsStable` | borph/block/elevator.c:443-451 | Requests at the same position are served in the order in which they were inserted. |
| `DispatchSort.Scan` | borph/block/elevator.c:433-452 | The loop from the back stops at the specification's place. |
| `DispatchSort.DispatchList.InsertSorted` | borph/block/elevator.c:418-455 | The list afterwards is the specification's, with the place characterised outright; sorted runs stay sorted. |
| `DispatchSort.DispatchList.AddTail` | borph/block/elevator.c:463-475 | The request goes to the end and becomes the boundary. |
| `ElevatorSwitch.AttachInv` | borph/block/elevator.c:971-984 | Attaching when elvpriv is zero keeps the counters exact and leaves no request with private data. |
| `ElevatorSwitch.SwitchIsSafe` | borph/block/elevator.c:576-611 | In every interleaving, when the new scheduler is attached nr_sorted and elvpriv are zero and no request has, or is about to get, private data of the old one. |
| `ElevatorSwitch.PrivateDataIsCurrent` | borph/block/blk-core.c:801-822 | In every reachable state private data belongs to the attached scheduler, every request in the scheduler has some, and a request allocated without was never sorted into it. |
| `ElevatorSwitch.EntersAtBack` | borph/block/elevator.c:691-709 | In every reachable state a request allocated during a switch that is inserted with SORT goes to the back of the dispatch list, behind all that the scheduler held. |
| `ElevatorSwitch.RequestQueue.GetRequest` | borph/block/blk-core.c:801-806 | Private data is promised, and counted, iff no switch is under way. |
| `ElevatorSwitch.RequestQueue.FreedRequest` | borph/block/blk-core.c:734-746 | The count goes down iff the request had private data. |
| `ElevatorSwitch.RequestQueue.DrainElevator` | borph/block/elevator.c:576-588 | The loop dispatches every request of the scheduler and ends with nr_sorted lowered by their number. |
| `ElevatorSwitch.RequestQueue.AddRequest` | borph/block/elevator.c:618-709 | The request ends up where the specification says and is a barrier iff it was inserted at the front or the back, with the scheduler drained first for a back insertion. |
| `ElevatorSwitch.RequestQueue.DrainAndAttach` | borph/block/elevator.c:593-611 | After a drain the new scheduler is attached iff elvpriv is zero. |
| `Tags.StepOwned` | borph/block/blk-tag.c:282-384 | Every step of any queue keeps the bitmap, the index and the ownership of tags consistent. |
| `Tags.TagsHaveOneOwner` | borph/block/blk-tag.c:282-384 | Over all interleavings no two requests hold the same tag, a look-up returns the request in flight, held tags can always be released, and neither warning of the release is reached. |
| `TagOps.GrowKeepsTags` | borph/block/blk-tag.c:220-265 | For all contents of the arrays: the copy into the new ones stays inside them iff twice nr_requests is at least the old depth, and then every bit and every assignment is kept and none appears. |
| `Tags.GrowOwned` | borph/block/blk-tag.c:220-265 | A map that grows so keeps bitmap, index and ownership consistent. |
| `Tags.SyncReserve` | borph/block/blk-tag.c:351-372 | At a fixed depth of at least three no async request holds one of the two highest tags, and when a sync request is refused sync requests hold both. |
| `TagOps.TagMap.StartTag` | borph/block/blk-tag.c:337-384 | Refuses iff too many async requests are in flight or no open tag is free; otherwise takes the lowest free tag, which is a search, a successful test-and-set and an index entry of the interleaved model. |
| `TagOps.TagMap.EndTag` | borph/block/blk-tag.c:282-316 | Clears index and bit of a tag within the arrays and warns iff one of them was clear already; for a request in flight it never warns and is the two release steps of the interleaved model. |
| `TagOps.TagMap.Resize` | borph/block/blk-tag.c:107-265 | Within the arrays only the depth changes; beyond them a shared map is refused and nothing changes, nor does it without memory; the copy overruns the new arrays iff twice nr_requests is less than the old depth; otherwise the map becomes that of the growing step. |
| `Aes.SBoxIsStandard` | borph/crypto/aes_generic.c:329-591 | The substitution behind the last-round table is the affine map of section 5.1.1 of FIPS-197 after the inverse in GF(2^8), and every byte but zero has such an inverse. |
| `Aes.MulsAreTimes` | borph/crypto/aes_generic.c:65-855 | The doublings and sums behind the round tables are the products by 2, 3, 9, 11, 13 and 14 in GF(2^8). |
| `Aes.SBoxInverse` | borph/crypto/aes_generic.c:329-855 | The byte substitutions behind the tables are inverse permutations. |
| `Aes.MixInverse` | borph/crypto/aes_generic.c:65-855 | The matrices behind the round tables are inverse to each other. |
| `Aes.InvMixLinear` | borph/crypto/aes_generic.c:1262-1265 | InvMixColumns distributes over key addition, which is what lets the decryption keys be transformed beforehand. |
| `Aes.Unwinds` | borph/crypto/aes_generic.c:1401-1440 | Round r of decryption holds the state that encryption had before mixing, r rounds from its end. |
| `Aes.CipherInverse` | borph/crypto/aes_generic.c:1202-1215 | Under a schedule and its reversal, with all but its ends through InvMixColumns, decryption inverts encryption and encryption inverts decryption, for every number of rounds. |
| `AesWords.BytesOfStarX` | borph/crypto/aes_generic.c:1128 | The packed doubling multiplies each byte by x in GF(2^8). |
| `AesWords.BytesOfImixCol` | borph/crypto/aes_generic.c:1130-1139 | The packed macro computes InvMixColumns of section 5.3.3 of FIPS-197. |
| `AesWords.BytesOfLsBox` | borph/crypto/aes_generic.c:1141-1145 | Four look-ups compute SubWord of section 5.2 of FIPS-197. |
| `AesWords.FtColumn` | borph/crypto/aes_generic.c:1300-1305 | Four look-ups and a key word compute a column of SubBytes, MixColumns and AddRoundKey. |
| `AesWords.FlColumn` | borph/crypto/aes_generic.c:1315-1320 | Four look-ups and a key word compute a column of SubBytes and AddRoundKey. |
| `AesWords.ItColumn` | borph/crypto/aes_generic.c:1372-1377 | Four look-ups and a key word compute a column of InvSubBytes, InvMixColumns and AddRoundKey. |
| `AesWords.IlColumn` | borph/crypto/aes_generic.c:1387-1392 | Four look-ups and a key word compute a column of InvSubBytes and AddRoundKey. |
| `AesGeneric.RcoTabIsRcon` | borph/crypto/aes_generic.c:63 | The table holds the powers of x that section 5.2 of FIPS-197 asks for. |
| `AesGeneric.FNround` | borph/crypto/aes_generic.c:1307-1313 | A round from one buffer to the other is a round of FIPS-197 with the next four key words. |
| `AesGeneric.FLround` | borph/crypto/aes_generic.c:1322-1327 | The last round is the one of FIPS-197 without MixColumns. |
| `AesGeneric.INround` | borph/crypto/aes_generic.c:1379-1385 | A round of the equivalent inverse cipher. |
| `AesGeneric.ILround` | borph/crypto/aes_generic.c:1394-1399 | The last round of the equivalent inverse cipher. |
| `AesGeneric.Context.Loop4` | borph/crypto/aes_generic.c:1147-1158 | Extends the schedule of a 128-bit key by four words of the expansion of section 5.2 of FIPS-197. |
| `AesGeneric.Context.Loop6` | borph/crypto/aes_generic.c:1160-1175 | Extends the schedule of a 192-bit key by six words. |
| `AesGeneric.Context.Loop8` | borph/crypto/aes_generic.c:1177-1200 | Extends the schedule of a 256-bit key by eight words. |
| `AesGeneric.Context.ExpandEnc` | borph/crypto/aes_generic.c:1233-1255 | For each key size the loops fill the whole encryption schedule. |
| `AesGeneric.Context.ExpandDec` | borph/crypto/aes_generic.c:1257-1265 | The decryption schedule has the two ends swapped and InvMixColumns of every other word in its reversed slot. |
| `AesGeneric.Context.DecReady` | borph/crypto/aes_generic.c:1257-1265 | That schedule is the reversal which decryption needs. |
| `AesGeneric.Context.ExpandKey` | borph/crypto/aes_generic.c:1216-1268 | Fails iff the key length is not 16, 24 or 32 bytes and then changes nothing; otherwise both schedules of the key are in place. |
| `AesGeneric.Context.Encrypt` | borph/crypto/aes_generic.c:1329-1368 | The output is the cipher of section 5.1 of FIPS-197 under the expanded key, for all three key sizes. |
| `AesGeneric.Context.Decrypt` | borph/crypto/aes_generic.c:1401-1440 | The output is the one block that encrypts to the input. |

## Left out

- Throttle: the service tree of groups, unlimited limits, changes of limits, group removal, and overflow of 64-bit products and of jiffies.
- Segments: discard and payload-less bios, integrity segments, requests of type BLOCK_PC with their own limits, and bounce buffering itself.
- Merging: failfast attributes and mixed merges, io priorities, statistics, and the choice that the scheduler makes among merge candidates, which is a parameter.
- Completion: the flush_rq exception of req_bio_endio and error codes handed to bios.
- RequestOps.Rq.MapSg: scatterlist chaining and the end marks, and clearing the drain buffer for a write.
- Drain: the slot taken back when preparing a request is put off (BLKPREP_DEFER).
- Drain.UpdateForgetsDrainSlot: for a marked request with vectors kept apart whose remaining data exceeds one segment nothing is said, because either may happen (Drain.SplitNeedNotHelp).
- Flush: reads, requests of more than one bio, requeueing by the driver, elv_abort_queue, changes of flush_flags during a run, and blkdev_issue_flush.
- Flush: a write that fails leaves nothing on the device in the model; that a power failure keeps exactly the stable writes is the meaning given to stable storage.
- CFQ: service trees of queues inside a group, idling, preemption and think time, forced dispatch, group teardown and changes of weights.
- CFQ: 64-bit wrap-around of virtual time; the comparison of keys is on unbounded integers.
- Cooperators: freeing a queue when its last reference goes, and which queue cfq_close_cooperator proposes.
- Deadline: elv_rb_find and deadline_merge, which only propose a candidate, and the sysfs tunables, which are fixed.
- Deadline: wrap-around of jiffies in the comparison of deadlines.
- MergeHash: the order of candidates in a bucket is modelled but nothing is claimed about which of several matches is found.
- DispatchSort: the boundary is fixed between insertions, as the one-way order needs; add_tail, which moves it, is only given its contract.
- ElevatorSwitch: failure to register the new scheduler and the way back, nested or concurrent switches, and that the drain loop ends, which depends on requests being completed.
- Tags: memory barriers, the reference count of shared maps beyond its test in a resize, and blk_queue_invalidate_tags.
- Tags.SyncReserve: the search for a free bit is one step; a search that reads words at different times may refuse although a tag was freed meanwhile.
- TagOps.TagMap.Resize: nothing is promised of the map after an overrun, and the bitmap is copied by bits rather than by words.
- AES: the four tables are defined from the S-box and multiplication in GF(2^8) instead of being listed, and the crypto API around the cipher is not modelled.
- Memory allocation failure, RCU, module and kobject lifetimes, sysfs, ioctl, cgroup files, tracing and statistics throughout.
- Other files of the two directories, such as noop-iosched.c, genhd.c, blk-timeout.c and the other ciphers, which would only add easy members.
