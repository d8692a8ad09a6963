# Block layer, schedulers and crypto of a Linux 2.6 tree

A model of the parts of the kernel's block layer and crypto code that keep order, count or
transform, and proofs about every run or every input of them.

- Ordered writes (blk-barrier.c): a barrier becomes up to three proxy requests whose progress is a bit
  mask. `BarrierModel` is the protocol as a step machine, `BarrierQueue` the code, `BarrierProof` what
  every step keeps, `BarrierSafety`, `BarrierProgress` and `BarrierHang` what follows for whole runs.
- Requests (blk-merge.c, blk-core.c): segments are counted incrementally while bios are merged, requests
  joined and bytes completed, and the scatterlist is built later by another loop. `Segments`,
  `RequestModel`, `MergeModel`, `Completion`, `RequestHistory`, `RequestCode`.
- The elevator (elevator.c): the merge hash (`MergeHash`), the order of the dispatch queue
  (`DispatchOrder`) and the code of both (`ElevatorCode`); switching schedulers while requests are
  allocated (`SwitchModel`, `SwitchCode`).
- The deadline scheduler: `DeadlineModel`, `DeadlineProof`, `DeadlineCode`.
- The CFQ scheduler: requests, queues, groups and forced dispatch (`CfqModel`, `CfqRequests`, `CfqTrees`,
  `CfqProof`, `CfqDrain`), merged queues and their references (`CoopModel`, `CoopProof`, `CoopCode`),
  fairness of groups by virtual time (`GroupFairness`, `GroupTree`).
- Tagged queueing (blk-tag.c), in steps as fine as its races: `TagModel`, `TagProof`, `TagCode`.
- Camellia against RFC 3713: `CamelliaSpec` is the standard, `CamelliaCode` the optimised network,
  `CamelliaWords`, `CamelliaKeys` and `CamelliaProof` connect them, `CamelliaSetup` and `CamelliaCipher`
  are the code.
- The ANSI X9.31 generator (ansi_cprng.c): `PrngModel`, `PrngCode`.
- Removing algorithms and what is built on them (algapi.c): `Spawns`, `SpawnMarks`, `SpawnCode`.

Some things one would expect of the code do not hold. Each has an input that shows it and the exact
condition under which it does hold:

- Reads from the generator are not a prefix of its stream once a read ends inside a block
  (`PrngModel.TwoThenOne`, `PrngModel.PrefixIffWhole`), and a read of no bytes writes 2^32
  (`PrngModel.StaysInside`).
- Enlarging a tag map can make it smaller, when nr_requests is small, and copy past its end
  (`TagProof.GrowLosesTag`, `TagProof.CopyFitsIffRoomy`, `TagProof.ResizeGoodIffRoomy`).
- Completing a request in parts can leave another sector than completing it at once
  (`Completion.TwoHalfSectors`, `Completion.UpdateTwice`).
- On a queue ordered by tag an empty barrier can wait for nothing
  (`BarrierProgress.TagDrainCanHang`, `BarrierHang.HangsIffStranger`).
- Replacing an algorithm can kill an instance the replacement is built on
  (`SpawnMarks.TwiceUsed`, `SpawnMarks.LiveIffSingle`).
- A change of control group can leave references on merged CFQ queues behind, for good
  (`CoopProof.GroupChangeLeaks`, `CoopProof.RegroupOwnedIff`, `CoopProof.LostStays`).

`dafny verify dfyconfig.toml` checks the project.

## Model

| member | source | states |
|---|---|---|
| `BarrierSafety.NothingPassesBarrier` | kernel_imx/block/blk-barrier.c:236-280 | in every run of a queue that drains, a request inserted after a barrier is handed to the driver only once that barrier has been ended |
| `BarrierSafety.ProxyWaitsItsTurn` | kernel_imx/block/blk-barrier.c:154-280 | in every run of a draining queue a flush or barrier write is handed out only when everything inserted before the barrier has finished and the stages before it are over |
| `BarrierSafety.BarrierNeverIssued` | kernel_imx/block/blk-barrier.c:154-234 | in every run and mode the barrier request itself never goes to the driver, only its proxies |
| `BarrierSafety.NoWarning` | kernel_imx/block/blk-barrier.c:260-277 | in every run, whatever the ordering mode, the head of the queue never belongs to a stage that is over: the warning of blk_do_ordered is not given |
| `BarrierSafety.NoRepeatedBit` | kernel_imx/block/blk-barrier.c:92-130 | in every run the completion of a proxy sets a bit of ordseq that is not set: the BUG_ON of blk_ordered_complete_seq does not fire |
| `BarrierSafety.NoRepeatedBitAtStart` | kernel_imx/block/blk-barrier.c:154-234 | nor does it fire for the stages start_ordered completes at once |
| `BarrierSafety.BitSetByCompletion` | kernel_imx/block/blk-barrier.c:92-130 | in every run the bit of a proxy goes from clear to set by the completion of that proxy and by no other step |
| `BarrierSafety.EndedOnce` | kernel_imx/block/blk-barrier.c:92-112 | in every run each original barrier is ended at most once |
| `BarrierSafety.EndsWithFirstError` | kernel_imx/block/blk-barrier.c:92-112 | the step that ends a barrier leaves no proxy pending, ends it with the first error any of its parts reported, and on a draining queue finds everything inserted before it done |
| `BarrierSafety.DoneIsFinished` | kernel_imx/block/blk-barrier.c:92-130 | the record of done requests holds exactly the barriers ended and the requests completed in the run |
| `BarrierProgress.NoDeadlock` | kernel_imx/block/blk-barrier.c:236-280 | in every run of an ordered queue whose device ends no barrier before what was inserted ahead of it, a sequence in progress with nothing at the driver has a request that the next poll issues |
| `BarrierProgress.DrainModeIsHonest` | kernel_imx/block/blk-barrier.c:154-280 | a queue that drains has such a device by construction: every one of its runs keeps to that |
| `BarrierProgress.TagDrainCanHang` | kernel_imx/block/elevator.c:664-692 | a run on a QUEUE_ORDERED_TAG queue whose device ends a barrier early and then sends back what was ahead of it: the empty barrier that drains waits, nothing is at the driver and nothing is issued |
| `BarrierHang.HangsIffStranger` | kernel_imx/block/blk-barrier.c:63-280 | in every run of an ordered queue a draining sequence has a continuation that leaves it waiting for nothing if and only if it is so already or a request of the other colour is issued |
| `BarrierHang.StartHangsIffStranger` | kernel_imx/block/blk-barrier.c:154-280 | at the poll that starts to drain the first alternative is out: the sequence can come to hang if and only if a request of the other colour is issued then |
| `BarrierHang.CalmNeverHangs` | kernel_imx/block/elevator.c:837-867 | without such a request no continuation of any length hangs, whatever is inserted, dispatched, issued, completed or requeued |
| `BarrierHang.StrangerHangs` | kernel_imx/block/elevator.c:664-692 | with one, the continuation in which the device ends the rest and sends that request back does hang |
| `BarrierHang.HangIsRun` | kernel_imx/block/blk-barrier.c:236-280 | such a continuation is a run of the queue |
| `BarrierHang.HonestHasNone` | kernel_imx/block/blk-barrier.c:63-90 | no request of the other colour is issued where barriers are done only after what was inserted before them |
| `BarrierProof.StepKeeps` | kernel_imx/block/blk-barrier.c:56-280 | each of the six kinds of step keeps the protocol invariant: every request in one place, proxies pending exactly while their bits are clear, barriers in insertion order, colours alternating, in_flight right |
| `BarrierProof.RunKeeps` | kernel_imx/block/blk-barrier.c:56-280 | the invariant holds after every run |
| `BarrierProof.StartKeeps` | kernel_imx/block/blk-barrier.c:154-234 | starting a sequence keeps the invariant |
| `BarrierProof.RequeueKeeps` | kernel_imx/block/elevator.c:553-568 | a requeue in any state, during a sequence or not, keeps the invariant |
| `BarrierProof.ProxyEndKeeps` | kernel_imx/block/blk-barrier.c:114-130 | the end of a proxy keeps the invariant |
| `BarrierProof.FsEndKeeps` | kernel_imx/block/elevator.c:837-867 | the end of a file-system request, with the drain it may complete, keeps the invariant |
| `BarrierProof.RequeuePosOk` | kernel_imx/block/elevator.c:664-692 | a request put back during a sequence goes in front of every barrier of the queue |
| `BarrierProof.EarlierColor` | kernel_imx/block/blk-barrier.c:63-90 | what is not done ahead of the running barrier has its colour, if barriers are done in order |
| `BarrierProof.LaterHeadColor` | kernel_imx/block/blk-barrier.c:63-90 | a head of the queue inserted after the running barrier has the other colour |
| `BarrierQueue.RequestQueue.constructor` | kernel_imx/block/blk-core.c:494-531 | an empty queue, with no sequence in progress |
| `BarrierQueue.RequestQueue.OrderedCurSeq` | kernel_imx/block/blk-barrier.c:56-61 | the lowest clear bit of ordseq, or zero with no sequence |
| `BarrierQueue.RequestQueue.OrderedReqSeq` | kernel_imx/block/blk-barrier.c:63-90 | the stage a request may be issued in, by proxy or by colour |
| `BarrierQueue.RequestQueue.OrderedCompleteSeq` | kernel_imx/block/blk-barrier.c:92-112 | bits set, first error kept, and the barrier ended when the last stage is over |
| `BarrierQueue.RequestQueue.QueueProxy` | kernel_imx/block/blk-barrier.c:132-152 | a fresh proxy at the front of the queue |
| `BarrierQueue.RequestQueue.DequeueRequest` | kernel_imx/block/blk-core.c:1871-1889 | a request leaves the queue and counts as in flight if it is accounted |
| `BarrierQueue.RequestQueue.BeginSequence` | kernel_imx/block/blk-barrier.c:159-181 | the ordering method of one barrier: an empty one has no write and no post-flush, and keeps its tag only with a pre-flush |
| `BarrierQueue.RequestQueue.TakeBarrier` | kernel_imx/block/blk-barrier.c:183-186 | the barrier leaves the queue and becomes the original request of the sequence |
| `BarrierQueue.RequestQueue.StackProxies` | kernel_imx/block/blk-barrier.c:188-220 | the proxies the method asks for stand at the head of the queue in stage order; the other stages are reported as skipped |
| `BarrierQueue.RequestQueue.PrepareOrdered` | kernel_imx/block/blk-barrier.c:154-220 | start_ordered up to the completion of the skipped stages |
| `BarrierQueue.RequestQueue.StartOrdered` | kernel_imx/block/blk-barrier.c:154-234 | the state and the answer of start_ordered as the protocol gives them |
| `BarrierQueue.RequestQueue.DoOrdered` | kernel_imx/block/blk-barrier.c:236-280 | the state and the answer of blk_do_ordered as the protocol gives them |
| `BarrierQueue.RequestQueue.PollQueue` | kernel_imx/block/blk.h:54-68 | one turn of the loop keeps the invariant; an issued request is the head and marked started, and a turn that must look again shortens the queue |
| `BarrierQueue.RequestQueue.PeekRequest` | kernel_imx/block/blk-core.c:1787-1868 | the loop ends, each turn a poll of the protocol that said to look again but the last, whose answer is returned |
| `BarrierQueue.RequestQueue.AddRequest` | kernel_imx/block/elevator.c:709-744 | the new request gets the queue's colour, which a barrier then flips |
| `BarrierQueue.RequestQueue.DispatchRequest` | kernel_imx/block/elevator.c:413-449 | the scheduler's request goes behind every entry that stops it |
| `BarrierQueue.RequestQueue.StartRequest` | kernel_imx/block/blk-core.c:1905-1918 | an issued request goes to the driver, the invariant kept |
| `BarrierQueue.RequestQueue.CompletedRequest` | kernel_imx/block/elevator.c:837-867 | in_flight goes down, and the drain stage is completed when nothing of it is left |
| `BarrierQueue.RequestQueue.EndRequest` | kernel_imx/block/elevator.c:837-867 | a completion keeps the invariant and is the step of the protocol |
| `BarrierQueue.RequestQueue.ProxyEndIo` | kernel_imx/block/blk-barrier.c:114-130 | the end of a proxy keeps the invariant and is the step of the protocol |
| `BarrierQueue.RequestQueue.FindRequeuePos` | kernel_imx/block/elevator.c:683-691 | the walk finds the first entry of the same or a later stage |
| `BarrierQueue.RequestQueue.PutBack` | kernel_imx/block/elevator.c:664-692 | the request stands at that place, unstarted and soft, or at the front with no sequence |
| `BarrierQueue.RequestQueue.RequeueRequest` | kernel_imx/block/elevator.c:553-568 | a requeue keeps the invariant and is the step of the protocol |
| `RequestHistory.ScatterlistAlwaysFits` | kernel_imx/block/blk-merge.c:12-430 | whatever bios were merged in front and behind, requests joined and bytes completed, (blk-core.c lines 1206 to 1263 and 1969 to 2099), blk_rq_map_sg makes no more scatterlist entries than nr_phys_segments |
| `RequestHistory.HoldsPayload` | kernel_imx/block/blk-core.c:1178-2099 | whatever its history of merges, joins (blk-merge.c lines 359 to 430) and partial completions, a request holds exactly the accepted bytes not yet completed, in order, and its length field counts them |
| `RequestHistory.UpdateKeeps` | kernel_imx/block/blk-core.c:1969-2099 | a partial completion leaves a request whose segment counts and edge sizes are right |
| `MergeModel.BackKeeps` | kernel_imx/block/blk-merge.c:203-246 | a back merge, accepted or refused, leaves counts for which a segmentation within the limits exists |
| `MergeModel.FrontKeeps` | kernel_imx/block/blk-merge.c:203-271 | so does a front merge |
| `MergeModel.JoinKeeps` | kernel_imx/block/blk-merge.c:273-430 | so does attempt_merge, for both requests, merged or not |
| `MergeModel.BackVecs` | kernel_imx/block/blk-core.c:1206-1229 | an accepted back merge appends the bio's data, a refused one leaves the request's |
| `MergeModel.FrontVecs` | kernel_imx/block/blk-core.c:1231-1263 | an accepted front merge puts the bio's data first |
| `MergeModel.JoinVecs` | kernel_imx/block/blk-merge.c:359-430 | joining appends the next request's data |
| `MergeModel.ScatterlistFits` | kernel_imx/block/blk-merge.c:118-200 | a request with right counts maps to at most nr_phys_segments entries |
| `Segments.CountFits` | kernel_imx/block/blk-merge.c:12-70 | the counting loop finds a segmentation that respects segment size, boundary and the bounce limit |
| `Segments.MapIsMinimal` | kernel_imx/block/blk-merge.c:118-200 | against any segmentation within the limits the mapping loop opens at most one segment more, and none more while its own open segment is no larger |
| `RequestModel.RecalcIsRight` | kernel_imx/block/blk-merge.c:12-70 | after a recount the count and both edge sizes belong to one segmentation of the data |
| `RequestModel.RecountedIsGood` | kernel_imx/block/blk-merge.c:72-85 | recounting a bio leaves it with a right count |
| `Completion.UpdateDropsBytes` | kernel_imx/block/blk-core.c:1969-2099 | completing n bytes drops exactly the first n bytes of data; length and sector move with them; "no more" is answered exactly when n covers the request |
| `Completion.EndedIsCovered` | kernel_imx/block/blk-core.c:1998-2048 | the bios ended are exactly those whose last byte is among the first n |
| `Completion.EndedTwice` | kernel_imx/block/blk-core.c:1969-2099 | two completions end the same bios in the same order as one of their sum |
| `Completion.UpdateTwice` | kernel_imx/block/blk-core.c:1969-2099 | completing a and then b bytes leaves what completing a + b leaves, and the same sector if and only if the two lengths complete no sector between them |
| `Completion.TwoHalfSectors` | kernel_imx/block/blk-core.c:2073-2078 | a request on which they differ: two halves of a sector leave the sector number where it was, one whole sector moves it |
| `RequestCode.CountChain` | kernel_imx/block/blk-merge.c:12-70 | the two loops count what the segmentation of the data counts |
| `RequestCode.MapSg` | kernel_imx/block/blk-merge.c:118-200 | the entries laid end to end cover the memory of the vectors byte after byte, with one entry per segment |
| `RequestCode.MapVecsMemory` | kernel_imx/block/blk-merge.c:118-200 | where vectors join only if physically contiguous, the list built covers the same addresses in the same order |
| `RequestCode.Request.TakeBytes` | kernel_imx/block/blk-core.c:1998-2048 | the loop stops at the bio and vector that hold byte n, all before them ended |
| `RequestCode.Request.TakeBio` | kernel_imx/block/blk-core.c:2002-2007 | one finished bio comes off |
| `RequestCode.Request.TakeVec` | kernel_imx/block/blk-core.c:2008-2047 | one finished vector is counted, or the loop stops inside one |
| `RequestCode.Request.AdvanceBio` | kernel_imx/block/blk-core.c:2066-2071 | the bio that is left starts at the first byte not completed |
| `RequestCode.Request.RecalcRequest` | kernel_imx/block/blk-merge.c:72-75 | the count and the edge sizes of a recount |
| `RequestCode.Request.UpdateRequest` | kernel_imx/block/blk-core.c:1969-2099 | blk_update_request as the completion of n bytes |
| `RequestCode.Request.Recount` | kernel_imx/block/blk-merge.c:77-85 | a bio's count, recomputed unless valid |
| `RequestCode.Request.MergeBack` | kernel_imx/block/blk-merge.c:203-246 | a back merge as specified, both outcomes |
| `RequestCode.Request.MergeFront` | kernel_imx/block/blk-merge.c:203-271 | a front merge as specified, both outcomes |
| `RequestCode.Request.CountMerge` | kernel_imx/block/blk-merge.c:273-308 | the counts of a joined request, or a refusal that leaves them |
| `RequestCode.Request.AttemptMerge` | kernel_imx/block/blk-merge.c:359-430 | two requests become one, and the other is left empty, or neither changes |
| `DispatchOrder.NothingPassed` | kernel_imx/block/elevator.c:413-449 | the request stays behind every entry that stops it and every entry it should follow |
| `DispatchOrder.FlaggedIsWall` | kernel_imx/block/elevator.c:413-449 | what stands in front of a flagged entry has no part in the sorting behind it |
| `DispatchOrder.FlaggedStaysWall` | kernel_imx/block/elevator.c:413-449 | so it is for any number of requests sorted in |
| `DispatchOrder.SortKeepsOrder` | kernel_imx/block/elevator.c:413-449 | sorting a request in keeps the queue ordered around the boundary |
| `DispatchOrder.RunKeepsOrder` | kernel_imx/block/elevator.c:413-449 | so does every sequence of sorting in and taking off |
| `DispatchOrder.OneWayElevator` | kernel_imx/block/elevator.c:413-449 | an unflagged stretch of one kind is one sweep up from the boundary and one up to it |
| `DispatchOrder.SortedStretch` | kernel_imx/block/elevator.c:413-449 | whatever was sorted in and taken off, the last such stretch is in one-way elevator order |
| `DispatchOrder.PlaceIs` | kernel_imx/block/elevator.c:413-449 | the place found is behind the last entry that stops the request or should precede it |
| `MergeHash.HashAgreesWithScan` | kernel_imx/block/elevator.c:305-350 | in every state any run reaches, the hash finds a request that can merge and ends at the sector exactly when there is one among all requests; every hashed request is in its chain; the cache holds a request of the scheduler or nothing |
| `MergeHash.FindIsScan` | kernel_imx/block/elevator.c:330-350 | one lookup finds a mergeable request that ends at the sector exactly when there is one, and keeps the hash right while it unhashes others |
| `MergeHash.MergeIs` | kernel_imx/block/elevator.c:472-514 | elv_merge answers with a request the bio is adjacent to and may join; with merging enabled it answers none only if no request that ends at the bio is found or the one found is unlike it |
| `MergeHash.ArmGood` | kernel_imx/block/blk-core.c:1206-1263 | both arms of __make_request, with the join they may lead to, leave every request hashed at its end sector |
| `MergeHash.StepGood` | kernel_imx/block/elevator.c:305-544 | every step keeps the hash and the cache right |
| `MergeHash.RunGood` | kernel_imx/block/elevator.c:305-544 | so does every run |
| `ElevatorCode.Elevator.constructor` | kernel_imx/block/elevator.c:201-229 | an empty hash |
| `ElevatorCode.Elevator.RqhashDel` | kernel_imx/block/elevator.c:305-314 | the request leaves its chain |
| `ElevatorCode.Elevator.RqhashAdd` | kernel_imx/block/elevator.c:316-322 | the request is in the chain of its end sector |
| `ElevatorCode.Elevator.RqhashReposition` | kernel_imx/block/elevator.c:324-328 | the request is in the chain of its end sector now |
| `ElevatorCode.Elevator.RqhashFind` | kernel_imx/block/elevator.c:330-350 | a candidate exactly when one exists, the invariant kept |
| `ElevatorCode.Elevator.ElvMerge` | kernel_imx/block/elevator.c:472-514 | elv_merge as specified, its answer a request the bio may join |
| `ElevatorCode.Elevator.MergedRequest` | kernel_imx/block/elevator.c:516-527 | a request grown behind is rehashed, and the cache holds it |
| `ElevatorCode.Elevator.MergeRequests` | kernel_imx/block/elevator.c:529-542 | the kept request is rehashed, the other unhashed, nr_sorted right |
| `ElevatorCode.Elevator.AttemptMerge` | kernel_imx/block/blk-merge.c:359-430 | two requests join exactly when they are alike and the limits allow |
| `ElevatorCode.Elevator.MergeBack` | kernel_imx/block/blk-core.c:1208-1229 | the back arm keeps the invariant |
| `ElevatorCode.Elevator.MergeFront` | kernel_imx/block/blk-core.c:1231-1263 | the front arm keeps the invariant |
| `ElevatorCode.Elevator.MakeRequest` | kernel_imx/block/blk-core.c:1206-1268 | the merging half of __make_request: what it merges, into which request, and what joins after |
| `ElevatorCode.Elevator.InsertSort` | kernel_imx/block/elevator.c:646-662 | a new request is hashed and counted if it may merge |
| `ElevatorCode.Elevator.DispatchSort` | kernel_imx/block/elevator.c:413-449 | the request leaves hash, cache and count for its sorted place in the dispatch queue |
| `ElevatorCode.Elevator.DispatchAddTail` | kernel_imx/block/elevator.c:457-469 | the request goes to the tail, and the boundary moves to its end |
| `DeadlineProof.StructuresAgree` | kernel_imx/block/deadline-iosched.c:56-327 | in every run, per direction: tree and queue hold the same requests, the queue is in order of expiry, at most one next_rq is set and it is held, and nr_sorted counts them all |
| `DeadlineProof.StarvationBound` | kernel_imx/block/deadline-iosched.c:245-327 | from any point of any run at most (writes_starved + 1) * max(1, fifo_batch) dispatches in a row pick a read while a write waits |
| `DeadlineProof.StepGood` | kernel_imx/block/deadline-iosched.c:56-327 | every event keeps trees, queues, next_rq and counts consistent |
| `DeadlineProof.RunGood` | kernel_imx/block/deadline-iosched.c:56-327 | so does every run |
| `DeadlineProof.AddGood` | kernel_imx/block/deadline-iosched.c:100-113 | adding a request, with the alias it may push out, keeps them consistent |
| `DeadlineProof.MergedGood` | kernel_imx/block/deadline-iosched.c:156-168 | so does a front merge that moves a request in its tree |
| `DeadlineProof.JoinedGood` | kernel_imx/block/deadline-iosched.c:170-189 | so does a join, in which the queue entry takes over the earlier expiry |
| `DeadlineProof.DispatchGood` | kernel_imx/block/deadline-iosched.c:245-327 | so does a dispatch |
| `DeadlineProof.StarvingCosts` | kernel_imx/block/deadline-iosched.c:245-327 | each dispatch that passes over a write uses up patience |
| `DeadlineCode.LatterRequest` | kernel_imx/block/deadline-iosched.c:65-74 | the request with the next higher sector |
| `DeadlineCode.DeadlineData.constructor` | kernel_imx/block/deadline-iosched.c:350-368 | empty structures are consistent |
| `DeadlineCode.DeadlineData.RemoveRq` | kernel_imx/block/deadline-iosched.c:86-124 | the request leaves queue and tree, and next_rq moves on |
| `DeadlineCode.DeadlineData.MoveRq` | kernel_imx/block/deadline-iosched.c:194-222 | the request is dispatched, next_rq is its successor, the batch remembers its end |
| `DeadlineCode.DeadlineData.AddRqRb` | kernel_imx/block/deadline-iosched.c:76-84 | a request on the same sector is dispatched first |
| `DeadlineCode.DeadlineData.Add` | kernel_imx/block/deadline-iosched.c:100-113 | the request expires after its direction's limit, the invariant kept |
| `DeadlineCode.DeadlineData.AfterMerge` | kernel_imx/block/deadline-iosched.c:156-168 | a request whose start moved is in its new place |
| `DeadlineCode.DeadlineData.AfterJoin` | kernel_imx/block/deadline-iosched.c:170-189 | the earlier expiry is kept, with its place in the queue |
| `DeadlineCode.DeadlineData.CheckFifo` | kernel_imx/block/deadline-iosched.c:228-239 | whether the oldest request is past its expiry |
| `DeadlineCode.DeadlineData.FindRq` | kernel_imx/block/deadline-iosched.c:298-315 | the oldest if it expired or nothing follows the batch, else the next in sector order |
| `DeadlineCode.DeadlineData.ChooseRq` | kernel_imx/block/deadline-iosched.c:245-317 | batch, direction and starvation decide as specified |
| `DeadlineCode.DeadlineData.DispatchRequests` | kernel_imx/block/deadline-iosched.c:245-327 | a request is dispatched exactly if there is one, and the BUG_ONs on empty trees are not reached |
| `DeadlineCode.DeadlineData.DrainElevator` | kernel_imx/block/elevator.c:570-582 | however the clock moves, the scheduler ends up empty after as many turns as it had requests, and the complaint is not printed |
| `CfqDrain.EveryRunDrains` | kernel_imx/block/cfq-iosched.c:2249-2285 | in every state of every run a forced dispatch ends, puts each queued request on the dispatch queue exactly once and leaves nothing busy, whatever slices and keys its expiries use |
| `CfqDrain.ForcedDrains` | kernel_imx/block/cfq-iosched.c:2249-2285 | so it is from every consistent state |
| `CfqDrain.EveryRunCounts` | kernel_imx/block/cfq-iosched.c:805-1359 | in every state of every run: nr_cfqq is the sum of the trees' counts, each count and cached first node is right, the group tree holds the groups with queues, busy_queues and rq_queued are right |
| `CfqDrain.SyncNotNegative` | kernel_imx/block/cfq-iosched.c:912-944 | the BUG_ON of cfq_group_served does not fire |
| `CfqDrain.CooperatorIsOther` | kernel_imx/block/cfq-iosched.c:1781-1827 | when the active queue has run out of requests, any queue found in the priority trees is another one |
| `CfqDrain.StepGood` | kernel_imx/block/cfq-iosched.c:805-2285 | every event keeps trees, counts, sort lists and next requests consistent |
| `CfqDrain.RunGood` | kernel_imx/block/cfq-iosched.c:805-2285 | so does every run |
| `CfqDrain.QueueIsRight` | kernel_imx/block/cfq-iosched.c:1341-1385 | a queue of a consistent state has a next request exactly while its sort list is not empty, the same requests in both lists, and without requests a turn only while it is active |
| `CfqProof.InsertGood` | kernel_imx/block/cfq-iosched.c:1387-1418 | an insertion, with the aliases it dispatches, keeps the state consistent |
| `CfqProof.RepositionGood` | kernel_imx/block/cfq-iosched.c:1420-1430 | so does moving a request |
| `CfqProof.JoinedGood` | kernel_imx/block/cfq-iosched.c:1525-1544 | so does a join |
| `CfqProof.DispatchGood` | kernel_imx/block/cfq-iosched.c:1921-1936 | so does a dispatch |
| `CfqProof.ExpireGood` | kernel_imx/block/cfq-iosched.c:1605-1651 | an expiry takes the turn away exactly if the queue has no requests |
| `CfqProof.ResortGood` | kernel_imx/block/cfq-iosched.c:1137-1246 | sorting a queue anew keeps the state consistent |
| `CfqProof.FreeQueueGood` | kernel_imx/block/cfq-iosched.c:2458-2484 | a queue without requests that is not active is in no tree: the BUG_ON of cfq_put_queue does not fire |
| `CfqRequests.FindNextIs` | kernel_imx/block/cfq-iosched.c:765-787 | the next request is another one of the list, and none only if there is no other |
| `CoopProof.LinksAreForest` | kernel_imx/block/cfq-iosched.c:1984-2024 | in every run every chain of merged queues ends and passes no queue twice |
| `CoopProof.WalksFindQueues` | kernel_imx/block/cfq-iosched.c:1974-2024 | in every run process references are exactly the processes whose chains pass the queue, and both chain walks see only queues that exist |
| `CoopProof.LostStays` | kernel_imx/block/cfq-iosched.c:2782-2807 | a reference that a change of control group leaves behind on a chain is never given back: its queue stays |
| `CoopProof.OwnedIffNoneLost` | kernel_imx/block/cfq-iosched.c:1974-1982 | every process reference belongs to a process if and only if none was left behind |
| `CoopProof.RegroupOwnedIff` | kernel_imx/block/cfq-iosched.c:2782-2807 | a change of control group leaves every process reference with a process if and only if the queue given up has no link |
| `CoopProof.GroupChangeLeaks` | kernel_imx/block/cfq-iosched.c:2782-2807 | a run after which no process is left and a queue is still held |
| `CoopProof.StepGood` | kernel_imx/block/cfq-iosched.c:1974-2807 | every event keeps links and references consistent |
| `CoopProof.RunGood` | kernel_imx/block/cfq-iosched.c:1974-2807 | so does every run |
| `CoopProof.SetupGood` | kernel_imx/block/cfq-iosched.c:1984-2024 | setting up a merge links one end of a chain to a different one, whichever way |
| `CoopCode.Cooperators.constructor` | kernel_imx/block/cfq-iosched.c:3774-3859 | no queues, no links |
| `CoopCode.Cooperators.PutQueue` | kernel_imx/block/cfq-iosched.c:2458-2484 | a reference goes, and the queue with the last one |
| `CoopCode.Cooperators.SetupMerge` | kernel_imx/block/cfq-iosched.c:1984-2024 | the walk ends, over queues that exist, and the merge keeps the state consistent |
| `CoopCode.Cooperators.PutCooperator` | kernel_imx/block/cfq-iosched.c:2572-2591 | each queue behind gives up one reference, and "loop detected" is not reached |
| `CoopCode.Cooperators.ExitQueue` | kernel_imx/block/cfq-iosched.c:2593-2603 | a process that exits gives back its chain, without a warning |
| `CoopCode.Cooperators.SplitQueue` | kernel_imx/block/cfq-iosched.c:3542-3558 | the last process keeps the queue, any other leaves it |
| `CoopCode.Cooperators.MergeQueues` | kernel_imx/block/cfq-iosched.c:3527-3536 | a process moves on to the next queue of the chain |
| `GroupFairness.SpreadBound` | kernel_imx/block/cfq-iosched.c:805-944 | however groups are served, leave and come, their virtual times stay within one full slice of the lightest group and the idle delays of those that came; min_vdisktime only grows and passes no group |
| `GroupFairness.ServiceIsVdisktime` | kernel_imx/block/cfq-iosched.c:912-944 | a group that stays is charged exactly its scaled service |
| `GroupFairness.ServiceIsFair` | kernel_imx/block/cfq-iosched.c:805-944 | the scaled service of two groups that stay differs by at most twice that bound and the delays of those that came |
| `GroupFairness.StaysUnlessComes` | kernel_imx/block/cfq-iosched.c:833-883 | a group on the tree at the end that never came has stayed on it |
| `GroupFairness.ServiceIsTime` | kernel_imx/block/cfq-iosched.c:504-511 | scaled service is time over weight, rounded down once per turn |
| `GroupFairness.TimeIsProportional` | kernel_imx/block/cfq-iosched.c:504-944 | two groups that stay get disk time in proportion to their weights, up to twice the bound, those delays and one unit of rounding per turn |
| `GroupTree.LinkIsInsert` | kernel_imx/block/cfq-iosched.c:805-831 | linking into the search tree is ordered insertion |
| `GroupTree.UnlinkIsErase` | kernel_imx/block/cfq-iosched.c:748-760 | unlinking is erasure, the order kept |
| `GroupTree.ServiceTree.FirstGroup` | kernel_imx/block/cfq-iosched.c:737-746 | the group with the least virtual time, cached |
| `GroupTree.ServiceTree.WalkDown` | kernel_imx/block/cfq-iosched.c:805-831 | the walk only went left exactly if the new group comes first |
| `GroupTree.ServiceTree.AddGroup` | kernel_imx/block/cfq-iosched.c:805-831 | the group is in its place, behind those of the same virtual time |
| `GroupTree.ServiceTree.LastGroup` | kernel_imx/block/cfq-iosched.c:848-852 | the group with the greatest virtual time, the last of equals |
| `GroupTree.ServiceTree.EnterGroup` | kernel_imx/block/cfq-iosched.c:833-859 | a group not on the tree starts behind the last one by the idle delay, or at min_vdisktime on an empty tree |
| `GroupTree.ServiceTree.EraseGroup` | kernel_imx/block/cfq-iosched.c:748-760 | the group is gone, and from the cache |
| `GroupTree.ServiceTree.GetNextGroup` | kernel_imx/block/cfq-iosched.c:2131-2142 | the first group, min_vdisktime moved up to it |
| `GroupTree.ServiceTree.GroupServed` | kernel_imx/block/cfq-iosched.c:912-944 | the group is charged and sorted anew |
| `SwitchModel.PrivateDataIsCurrent` | kernel_imx/block/elevator.c:999-1066 | however allocations, failures, frees and scheduler switches interleave, elvpriv counts the requests with scheduler data, and that data is the current scheduler's |
| `SwitchModel.NobodyAtAttach` | kernel_imx/block/elevator.c:1017-1033 | when the new scheduler is attached no request, not even one half allocated, has or will get data of the old one |
| `SwitchModel.NobodyWhileAttached` | kernel_imx/block/elevator.c:999-1066 | so it stays until the switch is over, whether it succeeds or is undone |
| `SwitchModel.WaitingShrinks` | kernel_imx/block/elevator.c:587-605 | while the switch waits, nobody joins those it waits for |
| `SwitchModel.StepGood` | kernel_imx/block/blk-core.c:708-843 | every event keeps the counts and the data right |
| `SwitchModel.RunGood` | kernel_imx/block/blk-core.c:708-843 | so does every run |
| `SwitchCode.RequestQueue.constructor` | kernel_imx/block/blk-core.c:466-486 | no requests |
| `SwitchCode.RequestQueue.Admit` | kernel_imx/block/blk-core.c:755-792 | who gets a request, and when a direction becomes full, congested or starved |
| `SwitchCode.RequestQueue.GetRequest` | kernel_imx/block/blk-core.c:746-843 | a granted request is counted, and in elvpriv unless a switch is on |
| `SwitchCode.RequestQueue.SetRequest` | kernel_imx/block/blk-core.c:651-672 | the data put into the request is that of the scheduler at that time, without the lock |
| `SwitchCode.RequestQueue.ReturnRequest` | kernel_imx/block/blk-core.c:805-842 | a request that get_request returns has its data, unless a switch denied it |
| `SwitchCode.RequestQueue.UndoRequest` | kernel_imx/block/blk-core.c:814-828 | a failed allocation is uncounted, and marked starved when nothing is left |
| `SwitchCode.RequestQueue.PutRequest` | kernel_imx/block/blk-core.c:1098-1124 | the last reference gives request and counts back |
| `SwitchCode.RequestQueue.FreedRequest` | kernel_imx/block/blk-core.c:727-739 | both counts go down, the other direction's does not |
| `SwitchCode.RequestQueue.Signal` | kernel_imx/block/blk-core.c:708-721 | a direction with room again is neither congested nor full |
| `SwitchCode.RequestQueue.AddRequest` | kernel_imx/block/elevator.c:709-744 | only a request with scheduler data is sorted |
| `SwitchCode.RequestQueue.DispatchRequest` | kernel_imx/block/elevator.c:413-469 | a request the scheduler gives up is no longer sorted |
| `SwitchCode.RequestQueue.QuiesceStart` | kernel_imx/block/elevator.c:587-605 | from here no request gets scheduler data |
| `SwitchCode.RequestQueue.QuiesceTurn` | kernel_imx/block/elevator.c:587-605 | the new scheduler is attached only when no request has data |
| `SwitchCode.RequestQueue.SwitchEnd` | kernel_imx/block/elevator.c:1035-1066 | the old scheduler is back if the new one could not be registered |
| `TagProof.OneOwner` | kernel_imx/block/blk-tag.c:282-384 | in every run, at every step between the two races, a bit of the tag map is set exactly while one request owns the tag |
| `TagProof.EndFindsItsTag` | kernel_imx/block/blk-tag.c:282-316 | in every run a request that ends finds its tag in range, its entry in the index and its bit set |
| `TagProof.CopyFitsIffRoomy` | kernel_imx/block/blk-tag.c:220-265 | when the map is replaced, both copies stay inside the new arrays if and only if the new map, as nr_requests cuts it, is no smaller than the old one |
| `TagProof.ResizeGoodIffRoomy` | kernel_imx/block/blk-tag.c:220-265 | a resize keeps the tags in flight consistent if and only if that holds |
| `TagProof.GrowLosesTag` | kernel_imx/block/blk-tag.c:107-138 | a run to sixteen tags with a request on the last; with nr_requests four a resize to seventeen makes a map of eight and the books are wrong |
| `TagProof.GrowKeepsTags` | kernel_imx/block/blk-tag.c:220-265 | a map replaced by one no shorter keeps every tag in flight |
| `TagProof.StepGood` | kernel_imx/block/blk-tag.c:220-384 | every step keeps bits, index and requests consistent |
| `TagProof.RunGood` | kernel_imx/block/blk-tag.c:220-384 | so does every run |
| `TagCode.BusyIsBackwards` | kernel_imx/block/blk-tag.c:337-384 | the busy list is the start order backwards, whatever ended in between |
| `TagCode.PutBackInOrder` | kernel_imx/block/elevator.c:664-692 | during an ordered sequence the requests put back come first in each stage, in the order they were started, and a queue in stage order stays so |
| `TagCode.TakenIsRun` | kernel_imx/block/blk-tag.c:337-384 | taking a tag is a run of the fine-grained steps |
| `TagCode.GivenIsRun` | kernel_imx/block/blk-tag.c:282-316 | so is giving one back |
| `TagCode.TagQueue.constructor` | kernel_imx/block/blk-tag.c:107-157 | a free map of whole words |
| `TagCode.TagQueue.FindFirstZero` | kernel_imx/block/blk-tag.c:337-384 | the lowest free bit below the limit, or the limit |
| `TagCode.TagQueue.StartTag` | kernel_imx/block/blk-tag.c:337-384 | the lowest free tag below the limit for its direction, or none because async is over its share or all are taken |
| `TagCode.TagQueue.EndTag` | kernel_imx/block/blk-tag.c:282-316 | the request gives its tag back and leaves the busy list |
| `TagCode.TagQueue.ReplaceMap` | kernel_imx/block/blk-tag.c:220-265 | new arrays with the old entries, and whether the copies went on behind them |
| `TagCode.TagQueue.ResizeTags` | kernel_imx/block/blk-tag.c:220-265 | the depth changes in place, by replacement, or not at all with -EBUSY on a shared map; the books are right if and only if the new map is no smaller |
| `TagCode.TagQueue.InvalidateTags` | kernel_imx/block/blk-tag.c:399-405 | every request that is out is back on the queue, at the front in the order they were started or each in its stage |
| `CamelliaProof.EncryptAgrees` | kernel_imx/crypto/camellia.c:381-940 | with any subkeys and S-boxes the rounds with absorbed whitening keys and table lookups encrypt as section 2 of RFC 3713 defines, for 18 and 24 rounds |
| `CamelliaProof.DecryptInverts` | kernel_imx/crypto/camellia.c:887-995 | decryption undoes encryption, whatever is in the key table |
| `CamelliaProof.EncryptInverts` | kernel_imx/crypto/camellia.c:887-995 | encryption undoes decryption |
| `CamelliaProof.LookupIsP` | kernel_imx/crypto/camellia.c:870-885 | the four tables and the last half of P are the S-boxes and P |
| `CamelliaProof.RoundSmIs` | kernel_imx/crypto/camellia.c:870-885 | a round with a stored key is the F-function with the key moved behind it |
| `CamelliaProof.FLInverts` | kernel_imx/crypto/camellia.c:854-868 | FL and FLINV undo each other |
| `CamelliaKeys.Roldq15Is` | kernel_imx/crypto/camellia.c:340-357 | the rotation macro by 15 is rotation of 128 bits by 15 |
| `CamelliaKeys.Roldq45Is` | kernel_imx/crypto/camellia.c:340-357 | the macro for more than 32 bits is rotation by 45 |
| `CamelliaSetup.Absorb` | kernel_imx/crypto/camellia.c:387-468 | kw2 and kw4 are absorbed into the round keys, through the FL layers |
| `CamelliaSetup.StoreGroup` | kernel_imx/crypto/camellia.c:470-559 | the six keys of a group and the two of its FL layer, nothing else changed |
| `CamelliaSetup.InvertSix` | kernel_imx/crypto/camellia.c:561-577 | the six keys have the inverse of the last half of P applied |
| `CamelliaSetup.SetupTail` | kernel_imx/crypto/camellia.c:381-578 | whatever the subkeys, the table left is the one they make |
| `CamelliaCipher.CamelliaF` | kernel_imx/crypto/camellia.c:359-376 | the F-function of RFC 3713 |
| `CamelliaCipher.MakeKA128` | kernel_imx/crypto/camellia.c:580-684 | KA of a 128-bit key as RFC 3713 derives it |
| `CamelliaCipher.MakeKA256` | kernel_imx/crypto/camellia.c:686-833 | KA of a longer key |
| `CamelliaCipher.MakeKB256` | kernel_imx/crypto/camellia.c:686-833 | KB of a longer key |
| `CamelliaCipher.Setup128` | kernel_imx/crypto/camellia.c:580-684 | the table of the 26 subkeys of RFC 3713 |
| `CamelliaCipher.Setup256` | kernel_imx/crypto/camellia.c:686-833 | the table of the 34 subkeys of RFC 3713 |
| `CamelliaCipher.DoEncrypt` | kernel_imx/crypto/camellia.c:887-940 | in place, the rounds of CodeEncrypt |
| `CamelliaCipher.DoDecrypt` | kernel_imx/crypto/camellia.c:942-995 | in place, the same rounds backwards |
| `CamelliaCipher.Context.constructor` | kernel_imx/crypto/camellia.c:998-1001 | a context with no key yet |
| `CamelliaCipher.Context.SetKey` | kernel_imx/crypto/camellia.c:1003-1031 | keys of 16, 24 and 32 bytes are taken, any other refused with nothing changed |
| `CamelliaCipher.Context.EncryptBlock` | kernel_imx/crypto/camellia.c:1033-1055 | the RFC 3713 encryption of the block under the subkeys of the key |
| `CamelliaCipher.Context.DecryptBlock` | kernel_imx/crypto/camellia.c:1057-1079 | the one block whose encryption is the given one |
| `PrngModel.PrefixIffWhole` | kernel_imx/crypto/ansi_cprng.c:188-272 | reads return a prefix of the stream, whatever the block cipher and seed, if and only if every read but the last asks for whole blocks |
| `PrngModel.TwoThenOne` | kernel_imx/crypto/ansi_cprng.c:228-241 | two bytes and then one: the second read starts with the byte the first ended with |
| `PrngModel.WholeReadsArePrefix` | kernel_imx/crypto/ansi_cprng.c:188-272 | whole-block reads, and one of any size behind them, return the stream without a gap |
| `PrngModel.RepeatIs` | kernel_imx/crypto/ansi_cprng.c:228-241 | after the first read that ends inside a block the next starts with a byte already returned |
| `PrngModel.StaysInside` | kernel_imx/crypto/ansi_cprng.c:188-272 | a read writes no more than asked if and only if it asks for something, or the fixed size or a due reset stops it; a read of nothing acts as one of 2^32 bytes |
| `PrngModel.IncrementCounts` | kernel_imx/crypto/ansi_cprng.c:167-174 | the counter goes up by one as a big-endian number and wraps at all ones |
| `PrngCode.IncrementBlock` | kernel_imx/crypto/ansi_cprng.c:167-174 | the counter in place |
| `PrngCode.XorVectors` | kernel_imx/crypto/ansi_cprng.c:75-83 | bytewise exclusive or |
| `PrngCode.Context.constructor` | kernel_imx/crypto/ansi_cprng.c:323-345 | nothing can be read before a reset |
| `PrngCode.Context.Reset` | kernel_imx/crypto/ansi_cprng.c:279-321 | the stream starts at its seed, with defaults for what is not given; without a key reads stay refused |
| `PrngCode.Context.RunStages` | kernel_imx/crypto/ansi_cprng.c:102-165 | a round makes the block and the next V of the X9.31 generator, and fails if the block repeats |
| `PrngCode.Context.GetMoreBytes` | kernel_imx/crypto/ansi_cprng.c:88-185 | a round fails exactly when the block repeats the one before, and is needed again only after a reset |
| `PrngCode.Context.Refill` | kernel_imx/crypto/ansi_cprng.c:219-226 | a new block when the last is used up; without one the buffer is cleared |
| `PrngCode.Context.CopyRest` | kernel_imx/crypto/ansi_cprng.c:228-241 | byte after byte to the end of block or read; the byte that ends the read stays current |
| `PrngCode.Context.CopyWhole` | kernel_imx/crypto/ansi_cprng.c:246-259 | one whole block of the stream |
| `PrngCode.Context.ReadBytes` | kernel_imx/crypto/ansi_cprng.c:219-265 | the buffer holds the next n bytes of the stream, or is cleared and a reset is due exactly when a block on the way repeats |
| `PrngCode.Context.GetBytes` | kernel_imx/crypto/ansi_cprng.c:188-272 | the same with the refusals, the fixed size and the 32-bit count of the call |
| `SpawnCode.Registry.RemoveSpawns` | kernel_imx/crypto/algapi.c:132-179 | with a replacement or without: which uses are left and on which lists, that an instance dies exactly if it lost a use, what is taken off the registry, and that all other lists are as they were |
| `SpawnMarks.WhoDies` | kernel_imx/crypto/algapi.c:132-179 | everything built on the algorithm dies unless the replacement is built on it; the replacement does not die; with no instance reached twice no instance under the replacement dies |
| `SpawnMarks.LiveIffSingle` | kernel_imx/crypto/algapi.c:85-106 | all instances the replacement is built on survive if and only if none of them is reached by two uses |
| `SpawnMarks.TwiceUsed` | kernel_imx/crypto/algapi.c:85-179 | an instance that uses the algorithm twice and carries the replacement: it loses a use, whatever order the walk takes |
| `SpawnMarks.WithoutReplacement` | kernel_imx/crypto/algapi.c:132-179 | without a replacement exactly the uses built on the algorithm go and exactly their instances die |
| `SpawnMarks.GoingAway` | kernel_imx/crypto/algapi.c:151-171 | the walk never comes to the algorithm itself: the BUG_ON does not fire |
| `SpawnMarks.UnderIs` | kernel_imx/crypto/algapi.c:85-106 | the algorithm crypto_more_spawns gives back is the one the spawn had |
| `SpawnMarks.WalkReady` | kernel_imx/crypto/algapi.c:108-130 | when an instance is removed no user has been put back on it: the BUG_ON of crypto_remove_spawn does not fire |
| `SpawnCode.Registry.constructor` | kernel_imx/crypto/algapi.c:521-538 | a registry as registration leaves it |
| `SpawnCode.Registry.TakeUsers` | kernel_imx/crypto/algapi.c:143-149 | the users that the replacement would do for are taken, the others left |
| `SpawnCode.Registry.StepDown` | kernel_imx/crypto/algapi.c:156-168 | one spawn comes off the list scanned, and loses its algorithm unless it is the replacement's |
| `SpawnCode.Registry.StepUp` | kernel_imx/crypto/algapi.c:85-106 | the path loses its last spawn, and the one below gets its algorithm back if that kept its own |
| `SpawnCode.Registry.Descend` | kernel_imx/crypto/algapi.c:153-169 | the descent ends where there is nothing to take |
| `SpawnCode.Registry.WalkSpawns` | kernel_imx/crypto/algapi.c:151-171 | the walk ends, having visited exactly what is built on the algorithm up to the replacement |
| `SpawnCode.Registry.RemoveSpawn` | kernel_imx/crypto/algapi.c:108-130 | the instance is dead, and off its lists once |
| `SpawnCode.Registry.SettleSpawns` | kernel_imx/crypto/algapi.c:173-178 | spawns with an algorithm are on its list again, instances of the others are dead |
| `Spawns.WalkEnds` | kernel_imx/crypto/algapi.c:132-179 | when the walk is over exactly the uses reached are finished, dependents have no users left and other lists are unchanged |

## Left out

- Locks, RCU, atomics and memory ordering: the code of one critical section is one step; only the tag map
  is modelled at the grain of its bit operations.
- The entries of the Camellia S-boxes: the theorems hold for any S-boxes, the tables are not checked.
- Byte order of Camellia blocks in memory: a block is four words.
- Red-black balancing: trees are search trees or ordered lists.
- Wraparound of jiffies and of virtual disk time: clocks are unbounded.
- Time slices, idling, preemption and the sort keys of CFQ queues: expiries may carry any slice and any
  key; which queue is chosen is left open.
- The order inside the priority trees of CFQ: a queue is in one or not, at any place.
- References on CFQ groups, the fallback queue for failed allocations and async queue sharing by priority.
- Discard, bidirectional, padding and drain buffers of requests, and integrity data beyond its size.
- Allocation failures in the replacement of a tag map, which leave the old map in place.
- PrngCode.Context.GetBytes: asks that the memory the code writes is there, 2^32 bytes for a read of none,
  because what lies behind the caller's buffer is not modelled.
- The continuous self-test panic of the generator in FIPS mode.
- Requests other than file-system requests in the barrier protocol, apart from its own flushes.
- SpawnCode.Registry.RemoveSpawns: with a replacement it asks that no instance is built on itself, because
  an instance names its algorithms before it is registered.
- blk-settings.c, blk-map.c, blk-timeout.c, noop, the control-group controller, ioctls and the rest of the
  kernel: they would add easy members or need devices.
