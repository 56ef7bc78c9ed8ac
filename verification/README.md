# Verified models of block-layer and crypto code in a Linux 2.6.29 kernel

This project models the parts of the kernel tree whose correctness is a matter of protocols and
algorithms rather than of interfaces: how the block layer orders, merges, schedules, tags and
completes requests, and how the crypto layer prepares keys, enciphers blocks and keeps its registry
of algorithms. Every model is written in Dafny and every result below is a proved contract.

Code that updates things in place is a class or works on an array, with methods proved against
functions of the old state; the results about whole runs are lemmas about those functions.

| files | what they model |
|---|---|
| `Barrier.dfy`, `BarrierSequence.dfy`, `BarrierEnds.dfy`, `BarrierOrder.dfy`, `BarrierSafety.dfy`, `BarrierProgress.dfy`, `RequestQueue.dfy` | the ordered-flush protocol of `blk-barrier.c` with the dispatch list of `elevator.c`, as a step system and as a queue object |
| `Segments.dfy`, `SegmentedRequest.dfy` | counting and mapping the segments of a request (`blk-merge.c`) |
| `MergeHash.dfy` | merging bios and requests: `__make_request`, `attempt_merge`, the merge hash and the one-hit cache |
| `Completion.dfy` | partial completion (`blk-core.c`) |
| `Anticipatory.dfy`, `Deadline.dfy`, `DeadlineQueue.dfy`, `Cfq.dfy`, `CfqQueue.dfy` | three I/O schedulers |
| `Tags.dfy` | tagged queueing on a shared map (`blk-tag.c`) |
| `Camellia.dfy`, `CamelliaCipher.dfy`, `CamelliaSetup.dfy`, `Feistel.dfy` | Camellia, CAST-256 and Blowfish |
| `SpawnRemoval.dfy`, `TemplateName.dfy`, `Counter.dfy` | removal from the algorithm registry, the template-name parser, `crypto_inc` |
| `ListOps.dfy` | options and list operations shared by the others |

## Main results

- **Barriers.** In drain mode every run, with any completion order, requeues and merges, keeps the
  promise of `Documentation/block/barrier.txt`: no command of a barrier's sequence is shown to the
  driver before everything submitted earlier has ended, nothing submitted later is shown before the
  barrier has ended, and no BUG_ON or WARN_ON fires, although one colour bit is reused by all
  barriers. This holds exactly when no non-file-system request carries REQ_HARDBARRIER;
  `drivers/block/pktcdvd.c` queues such requests, and a run that breaks the order is given. In every
  mode, drain or tag, under the same exact condition, a barrier is never shown to the driver itself
  and is ended once, by its own sequence with the first error reported in it, or refused. And the
  protocol does not stick: whatever has been requeued, reordered or merged, with nothing at the driver
  there is something to show it, and a diligent driver brings the queue to rest with every bio ended.
  Exactly one mode, ordering by tag without flushes, fails that; in drain mode it fails exactly when
  hard special requests are queued.
- **Segments.** Through any merges, refused merges and recounts, `nr_phys_segments` bounds what
  `blk_rq_map_sg` emits, because greedy segmentation is minimal.
- **Camellia.** The key setup, which folds whitening keys into round keys, moves each key addition
  behind F and cancels half of the permutation, yields keys with which the fast rounds compute the
  cipher of sections 2.3 and 2.4 of RFC 3713, for any tables and any subkeys.
- **Schedulers.** CFQ: a reachable-state invariant that makes its dispatch loops terminate, its
  forced dispatch complete and its BUG_ONs unreachable. Deadline: the starvation bound, and a bound
  on the dispatches before an expired write. Anticipatory: the cached request is the best of the
  whole list.
- **Merging and completion.** Every bio is in exactly one request, whose bios cover exactly its
  sectors; the hash lookup agrees with a search; completing n bytes drops exactly the first n bytes
  of the request, however they are split, and every bio ends once with the error that concerns it.
- **Tags, registry, names, counters, ciphers.** Exclusive tags under every interleaving; removal reaches
  exactly the transitive users; printed names parse back; `crypto_inc` adds one; decryption inverts
  encryption.

Where the code does not meet the obvious property, the exact condition is proved together with a
failing case or its complement: `BarrierSafety.OrderingHoldsIff`, `BarrierEnds.ProperEndIff`,
`BarrierProgress.ProgressIff`, `BarrierProgress.DrainProgressIff`,
`Anticipatory.FindNextIff`, `Cfq.MergeKeepsAgeOrderIff`, `Completion.AdvancedTwice`,
`Completion.CompletedTwice` and `TemplateName.ParsePrinted`.

## Conventions

An rb-tree is the sequence of its nodes in order. Locks are atomic steps. The clock, timers, what a
driver or a device limit answers, S-boxes and hash functions are parameters, so results hold for
all of them. Sectors, times and counters are unbounded integers. Constants come from
`include/linux/blkdev.h`, `include/linux/crypto.h` and the modelled files.

## Model

| member | source | states |
|---|---|---|
| `BarrierSafety.BarrierSafety` | kernel/block/blk-barrier.c:187-315 | every run of a drain-mode queue without hard special requests is safe at every step: no BUG_ON or WARN_ON, sequence commands only after all earlier bios ended, ordinary requests only after all earlier barriers ended, barriers ended only after all earlier bios |
| `BarrierSafety.OrderingHoldsIff` | kernel/block/elevator.c:719-754 | all drain-mode runs are safe if and only if no non-fs request with the hard-barrier flag is queued, since that toggles the colour without a sequence |
| `BarrierSafety.HardSpecialBreaksOrdering` | kernel/drivers/block/pktcdvd.c:812-814 | a concrete run, with one such request, in which a barrier's command is issued before an earlier write has ended |
| `BarrierSafety.StepIsSafe` | kernel/block/elevator.c:621-782 | one step from any ordered, intact state is safe, whatever the step |
| `BarrierSafety.BeforeBarrierEnded` | kernel/block/blk-barrier.c:269-315 | once the drain stage is over, every bio submitted before the barrier has ended |
| `BarrierSafety.EndedBarriersSafe` | kernel/block/blk-barrier.c:122-145 | a barrier that has ended had everything submitted before it ended |
| `BarrierSafety.Located` | kernel/block/elevator.c:621-717 | a submitted bio that has not ended is carried by a request of the elevator, the dispatch list, the driver or the current sequence |
| `BarrierSequence.CompleteSeqIntegrity` | kernel/block/blk-barrier.c:122-145 | completing stages that are still open keeps the accounting of stages and proxies, and ends the sequence exactly when all stages are in |
| `BarrierSequence.StepIntegrity` | kernel/block/blk-barrier.c:86-163 | in every mode, no step completes a stage twice and the current stage never moves back within a sequence |
| `BarrierSequence.StepConserved` | kernel/block/blk-barrier.c:187-267 | every step keeps each submitted bio in exactly one place |
| `BarrierSequence.RunIntegrity` | kernel/block/blk-barrier.c:122-163 | both hold after every run, in drain and tag modes, with any completion order and with hard special requests |
| `BarrierSequence.SequenceEnd` | kernel/block/blk-barrier.c:122-145 | in every mode, the step that ends a sequence is a completion; it ends that sequence's barrier, not ended before, exactly once, with the first error of the sequence and no stage outstanding |
| `BarrierSequence.RunSequenceEnd` | kernel/block/blk-barrier.c:122-163 | the same after every run of a fresh queue, in every mode and with hard special requests |
| `BarrierSequence.StepSingle` | kernel/block/blk-barrier.c:187-315 | every step, in every mode, keeps barriers out of the scheduler and at one bio each, so a sequence is always about one bio |
| `BarrierSequence.SequenceBegins` | kernel/block/blk-barrier.c:187-267 | a sequence is ordered by draining or by tag but not both, by tag only if there is a command to carry the tag, which is issued at once; it waits iff it drains and something is in flight, is over at once iff there is nothing to drain or issue, and what it issues is the current stage at the head of the list |
| `BarrierEnds.ProperEndIff` | kernel/block/elevator.c:719-754 | over all runs of all supported modes barriers end properly (see the next row) if and only if no non-fs request with the hard-barrier flag is queued |
| `BarrierEnds.BarriersEndProperly` | kernel/block/blk-barrier.c:187-315 | in every run of every supported mode a barrier is never shown to the driver itself and is ended once, only by its own sequence with its first error, at the start of that sequence with no error, or with EOPNOTSUPP on a device without ordering; its outcome then stands |
| `BarrierEnds.HardSpecialExposesBarrier` | kernel/drivers/block/pktcdvd.c:812-814 | a concrete tag-mode run in which such a request makes a later barrier reach the driver without a sequence |
| `BarrierEnds.StepIsProper` | kernel/block/blk-barrier.c:122-315 | one step from any state in which barriers are lined up is proper, whatever the step |
| `BarrierEnds.StepLined` | kernel/block/elevator.c:621-782 | every step keeps the queued barriers on the dispatch list, each once and in order, with the colour telling the parity of their number |
| `BarrierEnds.NeverShown` | kernel/block/blk-barrier.c:269-315 | blk_do_ordered lets no barrier through as it is |
| `BarrierEnds.BarrierPlace` | kernel/block/blk-barrier.c:187-219 | a queued barrier has ended, waits on the dispatch list, or is the one in progress |
| `BarrierProgress.ProgressIff` | kernel/block/blk-barrier.c:187-315 | for each supported mode: in all runs without hard special requests, with nothing at the driver either the dispatch list is empty and no sequence is in progress or blk_do_ordered shows or removes something, if and only if the mode is not plain ordering by tag |
| `BarrierProgress.DrainProgressIff` | kernel/block/elevator.c:719-754 | all drain-mode runs make that progress if and only if no non-fs request with the hard-barrier flag is queued |
| `BarrierProgress.AlwaysLive` | kernel/block/blk-barrier.c:269-315 | the progress half, after every run of every mode but plain ordering by tag |
| `BarrierProgress.EveryRunFinishes` | kernel/block/elevator.c:768-877 | after every such run a driver that completes what it has, takes what it is shown and asks for more brings the queue to rest, with no sequence in progress and every submitted bio, barriers included, ended exactly once |
| `BarrierProgress.ComesToRest` | kernel/block/elevator.c:768-877 | the same from any state with the invariants, as each such step leaves less work |
| `BarrierProgress.TurnShrinks` | kernel/block/elevator.c:768-877 | the next step of that driver is possible and leaves less work, a barrier costing more than the commands of its sequence |
| `BarrierProgress.TagOnlyCanStick` | kernel/block/elevator.c:953-983 | a concrete run, ordered by tag without flushes, in which a requeued write and a draining empty barrier wait for each other, since only a completion looks whether the drain is over |
| `BarrierProgress.HardSpecialCanStick` | kernel/drivers/block/pktcdvd.c:812-814 | a concrete drain-mode run, with such a request, in which a barrier that was shown to the driver drains waiting for itself |
| `BarrierProgress.StepAwaited` | kernel/block/elevator.c:953-983 | every step keeps the drain stage awaited: something is at the driver, or a request the drain waits for is at the head |
| `BarrierProgress.StepByTag` | kernel/block/elevator.c:674-702 | every step, ordered by tag, keeps the commands of a sequence in front of all waiting barriers, also when they are requeued |
| `BarrierProgress.DrainLive` | kernel/block/blk-barrier.c:307-312 | in drain mode the invariants give progress at every stage of a sequence and between sequences |
| `BarrierProgress.TagLive` | kernel/block/blk-barrier.c:302-306 | in tag mode too |
| `BarrierSequence.StartIntegrity` | kernel/block/blk-barrier.c:187-267 | starting a sequence leaves every stage either queued as a proxy, completed as skipped, or drained later |
| `BarrierSequence.CompletedPending` | kernel/block/elevator.c:953-983 | the drain completion in elv_completed_request cannot overlap the stage of the command that has just completed |
| `BarrierOrder.ColourTells` | kernel/block/blk-barrier.c:93-120 | while a sequence runs, the one-bit colour of the first request past the barrier gives its true rank, although later barriers reuse the bit |
| `BarrierOrder.RequeueSorted` | kernel/block/elevator.c:674-702 | inserting a requeued request by stage keeps the dispatch list in order |
| `BarrierOrder.DispatchSorted` | kernel/block/elevator.c:468-504 | sorting a request into the dispatch list never crosses a boundary of an earlier epoch |
| `BarrierOrder.WalkedPast` | kernel/block/elevator.c:484-501 | every request that elv_dispatch_sort walks past belongs to the newest epoch |
| `BarrierOrder.DrainIsOver` | kernel/block/elevator.c:970-982 | nothing in flight and a head past the drain stage mean that everything before the barrier has left |
| `BarrierOrder.StagesKeepOrder` | kernel/block/blk-barrier.c:122-145 | completing stages keeps the order invariant, also when the last one ends the sequence |
| `BarrierOrder.DoOrderedSafe` | kernel/block/blk-barrier.c:269-315 | what blk_do_ordered shows may be issued at that moment, and the order invariant is kept |
| `BarrierOrder.StepOrdered` | kernel/block/elevator.c:621-782 | every step keeps the order invariant |
| `RequestQueue.Queue.CompleteSeq` | kernel/block/blk-barrier.c:122-145 | the object's fields become those of the specified completion, with the in-flight count of the ended barrier given back; true iff the sequence is over |
| `RequestQueue.Queue.StackSequence` | kernel/block/blk-barrier.c:221-253 | stacking flushes and barrier in reverse gives the sequence's commands in front of the list and the stages to skip |
| `RequestQueue.Queue.QueueSequence` | kernel/block/blk-barrier.c:187-253 | start_ordered up to the skipped stages yields the specified start state |
| `RequestQueue.Queue.Stash` | kernel/block/blk-barrier.c:187-219 | the barrier at the head becomes the original of a sequence in the given mode |
| `RequestQueue.Queue.StartOrdered` | kernel/block/blk-barrier.c:187-267 | state and outcome (issue, hold or gone) are those of the specified step |
| `RequestQueue.Queue.DoOrdered` | kernel/block/blk-barrier.c:269-315 | state and outcome are those of the specified step, in every branch |
| `RequestQueue.Queue.Terminate` | kernel/block/blk-barrier.c:277-292 | a barrier on a device without ordering is ended with EOPNOTSUPP and leaves the queue |
| `RequestQueue.Queue.Completed` | kernel/block/elevator.c:953-983 | in-flight accounting and the drain completion are those of the specified step |
| `RequestQueue.Queue.DispatchSort` | kernel/block/elevator.c:468-504 | the backward walk inserts at the position the specification names |
| `RequestQueue.Queue.DispatchAddTail` | kernel/block/elevator.c:512-525 | tail insertion is the unsorted dispatch step |
| `RequestQueue.Queue.ElevatorDispatch` | kernel/block/elevator.c:607-619 | whatever a scheduler releases, by sorting or at the tail, is a run of dispatch steps; it reports whether anything was released, and when forced releases something unless it holds nothing |
| `RequestQueue.Queue.RequeuePosition` | kernel/block/elevator.c:693-700 | the forward walk stops at the first request whose stage is not earlier |
| `RequestQueue.Queue.Requeue` | kernel/block/elevator.c:590-605 | a request goes back from the driver to its place in the dispatch list |
| `RequestQueue.Queue.Dequeue` | kernel/block/elevator.c:863-877 | a request moves from the dispatch list to the driver and counts as in flight iff it is a started fs request |
| `RequestQueue.Queue.Complete` | kernel/block/blk-core.c:1860-1883 | ending a request, ordinary or sequence command, is the specified step |
| `RequestQueue.Queue.DrainElevator` | kernel/block/elevator.c:607-619 | forced dispatching stops with an empty elevator and is a run of dispatch steps, sorted or at the tail, several per call |
| `RequestQueue.Queue.AddRequest` | kernel/block/elevator.c:719-754 | for fs and other requests and for every place of insertion: barriers toggle the colour and go to the back, as do requests without elevator data, back insertion drains first, and the whole is a run ending in the matching add step |
| `RequestQueue.Queue.AddBack` | kernel/block/elevator.c:639-642 | back insertion after a drain is the specified add step |
| `RequestQueue.Queue.AddFront` | kernel/block/elevator.c:632-634 | front insertion of a request that is not an fs request is the specified add step |
| `RequestQueue.Queue.AddSorted` | kernel/block/elevator.c:653-672 | handing a request to the scheduler is the specified add step |
| `RequestQueue.Queue.NextRequest` | kernel/block/elevator.c:768-782 | the loop terminates whatever the scheduler releases per call and how, is a run of the step system, and what it returns is the started head of the dispatch list; it returns nothing only if that list is empty or the last turn of blk_do_ordered held |
| `Segments.GreedyDivides` | kernel/block/blk-merge.c:72-129 | greedy grouping splits the vectors into segments that respect size, boundary and mergeability, and the count is their number |
| `Segments.GreedyMinimal` | kernel/block/blk-merge.c:177-230 | no division into valid segments has fewer pieces than the greedy one |
| `Segments.MoreMonotone` | kernel/block/blk-merge.c:92-121 | starting a segment fuller costs at most one segment more |
| `SegmentedRequest.RecalcSegments` | kernel/block/blk-merge.c:72-129 | the nested loops return the greedy count of the whole chain and record the sizes of its end segments |
| `SegmentedRequest.CountVec` | kernel/block/blk-merge.c:92-121 | one turn of the inner loop extends the current segment or starts a new one as the greedy grouping does |
| `SegmentedRequest.RecountBio` | kernel/block/blk-merge.c:136-144 | recounting one bio makes its cached count and end sizes valid and never lowers the end sizes |
| `SegmentedRequest.AccountedBounds` | kernel/block/blk-merge.c:177-230 | a count that some division with bounded end segments justifies is at least what mapping emits |
| `SegmentedRequest.RecountAccounts` | kernel/block/blk-merge.c:72-129 | a recount justifies its own result |
| `SegmentedRequest.AccountedConcat` | kernel/block/blk-merge.c:261-330 | adding the counts of two chains is justified |
| `SegmentedRequest.AccountedJoin` | kernel/block/blk-merge.c:332-370 | one less is justified when the end segments touch and fit together, with the updated end sizes |
| `SegmentedRequest.Request.Recalc` | kernel/block/blk-merge.c:131-134 | the request's count is the greedy count and is justified |
| `SegmentedRequest.Request.MapSg` | kernel/block/blk-merge.c:177-230 | the scatterlist has one entry per greedy segment, in order and with its extent, and at most nr_phys_segments of them |
| `SegmentedRequest.Request.NewHwSegment` | kernel/block/blk-merge.c:261-281 | the count grows iff both limits allow it, else the request is marked unmergeable |
| `SegmentedRequest.Request.BackMerge` | kernel/block/blk-merge.c:283-305 | an accepted bio is appended within all limits; a refused one changes nothing but the mark; the count stays justified |
| `SegmentedRequest.Request.FrontMerge` | kernel/block/blk-merge.c:307-330 | the same at the front |
| `SegmentedRequest.Request.MergeRequests` | kernel/block/blk-merge.c:332-370 | an accepted merge concatenates, with one segment less if the ends touch; a refused one leaves both requests justified |
| `Camellia.RoundSmIsF` | kernel/crypto/camellia.c:901-915 | a fast round with a key put through the inverse half permutation is F with the key added after it |
| `Camellia.FOfMasked` | kernel/crypto/camellia.c:390-407 | F with a key is F without it on the masked input |
| `Camellia.FLInvOfFL` | kernel/crypto/camellia.c:885-899 | the two halves of the key-dependent layer undo each other |
| `Camellia.FLInvAffine` | kernel/crypto/camellia.c:885-899 | the layer is affine, so a key can be moved through it |
| `CamelliaCipher.FastIsPlain` | kernel/crypto/camellia.c:918-971 | with fast keys the fast rounds compute the plain cipher, for any number of six-round groups and any tables |
| `CamelliaCipher.DecryptInverts` | kernel/crypto/camellia.c:973-1026 | decryption undoes encryption for every key table |
| `CamelliaSetup.Absorb` | kernel/crypto/camellia.c:418-499 | the in-place passes absorb kw2 and kw4 into all later and earlier subkeys |
| `CamelliaSetup.StoreEndKeys` | kernel/crypto/camellia.c:501-590 | each stored key is the sum of the subkeys around it, moved through the layers |
| `CamelliaSetup.UndoAll` | kernel/crypto/camellia.c:592-608 | the loop cancels half of the permutation in every round key and leaves the layer keys alone |
| `CamelliaSetup.SetupGivesFastKeys` | kernel/crypto/camellia.c:412-609 | absorbed, combined and undone keys are fast keys for the raw ones |
| `CamelliaSetup.SetupTail` | kernel/crypto/camellia.c:412-609 | for 18 and 24 rounds and any raw subkeys the whole setup produces fast keys |
| `CamelliaSetup.DoEncrypt` | kernel/crypto/camellia.c:918-971 | the unrolled code computes the fast cipher, halves exchanged |
| `CamelliaSetup.DoDecrypt` | kernel/crypto/camellia.c:973-1026 | the same for decryption |
| `CamelliaSetup.SetupAndEncrypt` | kernel/crypto/camellia.c:1064-1086 | setting up and encrypting gives the plain cipher of RFC 3713 |
| `Cfq.RemovedOk` | kernel/block/cfq-iosched.c:718-733 | removing a request keeps tree, fifo, next request and counters in step and removes nothing else |
| `Cfq.InsertedOk` | kernel/block/cfq-iosched.c:1949-1962 | inserting keeps them in step; only a request at the same sector leaves |
| `Cfq.PlacedOk` | kernel/block/cfq-iosched.c:644-667 | cfq_add_rq_rb links the request, throws out the alias and leaves a next request that is in the tree, even when the old one was not |
| `Cfq.RepositionedOk` | kernel/block/cfq-iosched.c:669-674 | a front merge moves the request to its new sector and keeps everything in step |
| `Cfq.MergedRequestsOk` | kernel/block/cfq-iosched.c:760-772 | a request merge replaces two requests by one |
| `Cfq.EmptyTogether` | kernel/block/cfq-iosched.c:1147-1158 | the fifo is empty exactly when the tree is, so the BUG_ON after forced dispatch cannot fire |
| `Cfq.MergeKeepsAgeOrderIff` | kernel/block/cfq-iosched.c:760-772 | the fifo stays oldest first after a merge iff nothing younger than the swallowed request stands between it and the swallowing one: attempt_merge (blk-merge.c:410-411) has already lowered the start time, so the reordering test never succeeds |
| `Cfq.MergeCanSpoilAgeOrder` | kernel/block/blk-merge.c:404-411 | a fifo of three in which it does not |
| `CfqQueue.CfqData.RbFirst` | kernel/block/cfq-iosched.c:443-452 | the cached leftmost queue is the first in order |
| `CfqQueue.CfqData.RbErase` | kernel/block/cfq-iosched.c:454-461 | erasing keeps the cache empty or right |
| `CfqQueue.CfqData.Descend` | kernel/block/cfq-iosched.c:534-566 | for any tree shape the walk turned only left iff it ended at the first place, and in an ordered tree it ends between smaller and larger keys |
| `CfqQueue.CfqData.ServiceTreeAdd` | kernel/block/cfq-iosched.c:505-577 | the queue is in the tree once, the cache is right, a tree that was in order still is; an idle queue becomes the last unless it was, a queue put to the front becomes the first iff no other one has a better class or, in the same class, a key of zero or less, and any other gets its slice offset plus the time plus the residual slice as key, which is then spent |
| `CfqQueue.CfqData.Link` | kernel/block/cfq-iosched.c:534-576 | linking a queue that is not in the tree keeps cache and order, and puts it first or last when nothing goes before or after it |
| `CfqQueue.CfqData.Relink` | kernel/block/cfq-iosched.c:527-577 | with its old key a queue stays where it is, with another it gets the place of that key |
| `CfqQueue.IdleGoesLast` | kernel/block/cfq-iosched.c:513-522 | in an ordered tree an idle queue keyed behind the last one goes after every other queue, of any class, and does not keep its place |
| `CfqQueue.CfqData.AddCfqqRr` | kernel/block/cfq-iosched.c:595-605 | exactly this queue joins the tree and the count follows |
| `CfqQueue.CfqData.DelCfqqRr` | kernel/block/cfq-iosched.c:611-624 | exactly this queue leaves; busy_queues is not zero before |
| `CfqQueue.CfqData.RemoveRequest` | kernel/block/cfq-iosched.c:718-733 | the request leaves its lists and an emptied queue leaves the tree |
| `CfqQueue.CfqData.DispatchInsert` | kernel/block/cfq-iosched.c:977-990 | the request also joins the dispatch list |
| `CfqQueue.CfqData.DispatchAlias` | kernel/block/cfq-iosched.c:656-657 | at most one request, the one at the same sector, is dispatched |
| `CfqQueue.CfqData.AddRqRb` | kernel/block/cfq-iosched.c:644-667 | the alias loop ends after at most one dispatch and the queue is in the tree |
| `CfqQueue.CfqData.SliceExpired` | kernel/block/cfq-iosched.c:820-857 | the active queue is active no more; a timed-out one banks the rest of its slice, which goes into its new key if it is on the tree |
| `CfqQueue.CfqData.PreemptQueue` | kernel/block/cfq-iosched.c:1888-1903 | the preempting queue gets a fresh slice and key zero and the active one expires; its BUG_ON is the precondition, met by every caller |
| `CfqQueue.CfqData.SetActiveQueue` | kernel/block/cfq-iosched.c:863-881 | the first queue of the tree becomes active, none iff the tree is empty |
| `CfqQueue.CfqData.SelectQueue` | kernel/block/cfq-iosched.c:1033-1085 | a selected queue has requests, so the BUG_ON at line 1097 cannot fire; it is the active queue kept or the first of the tree, and none is selected only if the tree is empty or an empty active queue is waited for |
| `CfqQueue.CfqData.CheckFifo` | kernel/block/cfq-iosched.c:995-1017 | a request is returned iff it is the head of the fifo, has expired, and is the first look in this slice |
| `CfqQueue.CfqData.PickRequest` | kernel/block/cfq-iosched.c:1102-1107 | the request to dispatch, expired or cached, is in the tree |
| `CfqQueue.CfqData.DispatchFrom` | kernel/block/cfq-iosched.c:1091-1145 | the loop terminates, hands over between one and the allowed number of requests, all of this queue, and loses none |
| `CfqQueue.CfqData.ForcedDispatchQueue` | kernel/block/cfq-iosched.c:1147-1158 | every request of the queue is handed over once and its fifo is empty |
| `CfqQueue.CfqData.ForcedDispatch` | kernel/block/cfq-iosched.c:1164-1178 | the loop terminates with every queue drained, busy_queues zero and every request handed over once |
| `CfqQueue.CfqData.DispatchRequests` | kernel/block/cfq-iosched.c:1180-1215 | the outer loop terminates for any clock and timer, keeps the invariant and loses no request |
| `CfqQueue.CfqData.AddQueue` | kernel/block/cfq-iosched.c:1496-1559 | a new queue is empty and off the tree |
| `CfqQueue.CfqData.CompletedRequest` | kernel/block/cfq-iosched.c:1989-2032 | a completion touches only its own queue; the active one gets its slice with the first completion and expires iff it is idle or the slice is used up |
| `CfqQueue.CfqData.CheckSlice` | kernel/block/cfq-iosched.c:2019-2028 | the part about the active queue |
| `CfqQueue.CfqData.StartSlice` | kernel/block/cfq-iosched.c:2020-2023 | the end of a new slice is fixed once, by priority and time |
| `CfqQueue.CfqData.Record` | kernel/block/cfq-iosched.c:1419-1460 | priority changes may rewrite the rest of a queue's data, even while it is in the tree, without breaking the invariant |
| `CfqQueue.CfqData.InsertRequest` | kernel/block/cfq-iosched.c:1909-1962 | the invariant is kept, with or without preemption |
| `CfqQueue.CfqData.FrontMerged` | kernel/block/cfq-iosched.c:750-758 | the invariant is kept through a front merge that may dispatch an alias |
| `CfqQueue.CfqData.MergedRequests` | kernel/block/cfq-iosched.c:760-772 | the invariant is kept through a request merge |
| `CfqQueue.InsertConserves` | kernel/block/cfq-iosched.c:1949-1962 | inserting adds one request and loses none, not even an alias |
| `CfqQueue.FrontMergeConserves` | kernel/block/cfq-iosched.c:669-674 | a front merge exchanges the request for its extended self and loses none |
| `CfqQueue.MergeConserves` | kernel/block/cfq-iosched.c:760-772 | a request merge exchanges two requests for one |
| `Deadline.AlwaysValid` | kernel/block/deadline-iosched.c:107-253 | after every run tree and fifo of each direction hold the same requests once, at most one batch is open and its next request is queued, and each fifo is in order of expiry |
| `Deadline.StarvationBound` | kernel/block/deadline-iosched.c:276-358 | while writes wait, at most (writes_starved + 1) * max(fifo_batch, 1) dispatches in a row are reads |
| `Deadline.ExpiredWriteFirst` | kernel/block/deadline-iosched.c:329-346 | a write batch started while the oldest write has expired begins with it, and no queued write expires earlier |
| `Deadline.ExpiredWriteInTime` | kernel/block/deadline-iosched.c:276-358 | in every run, once the oldest write has expired, at most (writes_starved + 1) * max(fifo_batch, 1) dispatches of either direction leave it queued |
| `Deadline.HeadStays` | kernel/block/deadline-iosched.c:107-253 | the oldest write stays at the head of its fifo, with its expiry, through every addition, merge and dispatch that leaves it queued |
| `Deadline.OtherCosts` | kernel/block/deadline-iosched.c:276-358 | every dispatch that passes over an expired oldest write brings its turn nearer |
| `Deadline.MergedExpiry` | kernel/block/deadline-iosched.c:201-220 | a merged request keeps the earlier of the two expiry times |
| `Deadline.AddOk` | kernel/block/deadline-iosched.c:131-144 | adding keeps the invariant and the batch counters |
| `Deadline.FrontMergeOk` | kernel/block/deadline-iosched.c:187-199 | a front merge keeps the invariant |
| `Deadline.MergedRequestsOk` | kernel/block/deadline-iosched.c:201-220 | a request merge removes only the swallowed request and keeps the lists in step and in order |
| `Deadline.SwallowedOk` | kernel/block/blk-merge.c:375-439 | attempt_merge with the scheduler's part: one request with the sectors of both takes the place of the two and the invariant is kept |
| `Deadline.DispatchOk` | kernel/block/deadline-iosched.c:276-358 | a dispatch moves exactly the chosen request and keeps the invariant |
| `Deadline.PickOk` | kernel/block/deadline-iosched.c:276-346 | a request is chosen iff one is queued, and it is on both lists |
| `DeadlineQueue.DeadlineData.AddRqRb` | kernel/block/deadline-iosched.c:107-115 | the alias loop ends after at most one move and the request is in its place |
| `DeadlineQueue.DeadlineData.AddRequest` | kernel/block/deadline-iosched.c:131-144 | the object takes the specified add step |
| `DeadlineQueue.DeadlineData.FrontMerged` | kernel/block/deadline-iosched.c:187-199 | the object takes the specified front-merge step |
| `DeadlineQueue.DeadlineData.MergedRequests` | kernel/block/deadline-iosched.c:201-220 | the object takes the specified request-merge step |
| `DeadlineQueue.DeadlineData.BackMerged` | kernel/block/blk-core.c:1199-1206 | the object takes the specified back-merge step |
| `DeadlineQueue.DeadlineData.AttemptMerge` | kernel/block/blk-merge.c:375-439 | growing the one request and telling the scheduler about the other is the specified step |
| `DeadlineQueue.DeadlineData.MoveRequest` | kernel/block/deadline-iosched.c:225-253 | the object takes the specified move |
| `DeadlineQueue.DeadlineData.StartBatch` | kernel/block/deadline-iosched.c:299-346 | direction and first request of a new batch are the specified choice, with the starvation count updated |
| `DeadlineQueue.DeadlineData.Select` | kernel/block/deadline-iosched.c:276-346 | continuing or starting a batch is the specified choice |
| `DeadlineQueue.DeadlineData.DispatchRequests` | kernel/block/deadline-iosched.c:276-358 | the object takes the specified dispatch, and finds nothing iff both trees are empty |
| `DeadlineQueue.DeadlineData.Drain` | kernel/block/elevator.c:607-619 | repeated dispatch stops with all lists empty and every request dispatched once |
| `DeadlineQueue.DispatchConserves` | kernel/block/deadline-iosched.c:276-358 | a dispatch moves one request from the lists to the dispatch queue |
| `Anticipatory.ScanIsBest` | kernel/block/as-iosched.c:327-395 | choosing pairwise over the whole list finds the request every other one loses to |
| `Anticipatory.BestIsScan` | kernel/block/as-iosched.c:327-395 | there is only one such request |
| `Anticipatory.FindNextIff` | kernel/block/as-iosched.c:402-425 | looking at the two neighbours finds what a scan of the rest finds iff the successor does not start inside the dispatched request, or the request after it is farther ahead than twice that overlap |
| `Anticipatory.FindNextCanMiss` | kernel/block/as-iosched.c:402-425 | a sorted list of three in which it does not |
| `Anticipatory.DisjointIsClear` | kernel/block/as-iosched.c:402-425 | disjoint requests meet that condition |
| `Anticipatory.InsertKeepsBest` | kernel/block/as-iosched.c:821-826 | comparing a new request with the cached one gives the best of the longer list |
| `Anticipatory.AsData.RemoveQueued` | kernel/block/as-iosched.c:930-954 | if the cache is the best of the list, or of what will be left, it is the best of what is left, for any lengths and however requests overlap |
| `Anticipatory.RemoveBest` | kernel/block/as-iosched.c:402-425 | next to the best request of a sorted list stands the best of the others, so the neighbour rule finds it |
| `Anticipatory.RemoveOther` | kernel/block/as-iosched.c:945-950 | any other request that leaves does not change the best |
| `Anticipatory.GrownBest` | kernel/block/as-iosched.c:1295-1312 | growing at the end does not change which request is the best |
| `Anticipatory.AsData.BackMerged` | kernel/block/as-iosched.c:1295-1312 | a back merge keeps the cache the best of the list |
| `Anticipatory.AsData.MergedRequests` | kernel/block/as-iosched.c:1314-1335 | when a request swallows its successor the cache is again the best of the list |
| `Anticipatory.AsData.MoveToDispatch` | kernel/block/as-iosched.c:1005-1049 | after a dispatch the cache is again the best of what is left |
| `Anticipatory.AsData.DispatchAliases` | kernel/block/as-iosched.c:297-305 | requests at the same sector leave first and the place for the new one is found |
| `Anticipatory.AsData.AddRequest` | kernel/block/as-iosched.c:1218-1244 | adding keeps the cache the best of the list and loses no request |
| `Anticipatory.AsData.ForcedDispatch` | kernel/block/as-iosched.c:1056-1090 | following the cache empties the list, each request leaving once |
| `MergeHash.GrownOk` | kernel/block/blk-core.c:1199-1206 | a back merge keeps the bios contiguous over exactly the request's sectors |
| `MergeHash.GrownFrontOk` | kernel/block/blk-core.c:1221-1235 | a front merge does too and leaves the end alone |
| `MergeHash.JoinedOk` | kernel/block/blk-merge.c:413-416 | a request merge does too |
| `MergeHash.RepositionedValid` | kernel/block/elevator.c:379-383 | repositioning repairs the hash for a request whose end changed |
| `MergeHash.DrainedForgets` | kernel/block/elevator.c:607-619 | with an empty elevator the hash and the one-hit cache are empty |
| `MergeHash.JoinedOwned` | kernel/block/blk-merge.c:413-416 | after a request merge every bio is still in exactly one request, once |
| `Elevator.Queue.HashFind` | kernel/block/elevator.c:385-405 | a lookup finds the first mergeable request of its chain ending at the sector, one iff the elevator holds one, and drops unmergeable ones it meets |
| `Elevator.Queue.Merge` | kernel/block/elevator.c:527-560 | what it returns is in the elevator, mergeable, adjacent to the bio and queued after the last barrier; it returns nothing iff the cached request, the back-merge candidate and the front-merge candidate are each absent or refused, or only the cached one if merging is switched off |
| `Elevator.Queue.Insert` | kernel/block/elevator.c:653-672 | a new request is in the elevator, hashed iff mergeable, and cached if the cache was empty |
| `Elevator.Queue.AttemptMerge` | kernel/block/blk-merge.c:375-439 | two touching requests become one, the other is gone from elevator and hash, and the one-hit cache names the survivor |
| `Elevator.Queue.BackMerge` | kernel/block/blk-core.c:1194-1214 | an accepted bio joins the end of that request, which may then swallow its successor; accepted or not, every bio stays in exactly one request and the hash is right |
| `Elevator.Queue.FrontMerge` | kernel/block/blk-core.c:1216-1242 | an accepted bio joins the front, and the request may be swallowed by its predecessor; the rest as for a back merge |
| `Elevator.Queue.Submit` | kernel/block/blk-core.c:1171-1285 | whatever the merge functions and the scheduler answer, afterwards this bio and every earlier one is in exactly one request, once, and every request covers its sectors |
| `Elevator.Queue.Dispatch` | kernel/block/elevator.c:468-481 | a dispatched request is in neither hash nor cache |
| `Elevator.Queue.QueueBarrier` | kernel/block/elevator.c:636-651 | after a barrier nothing queued earlier can be merged with |
| `Completion.AdvancedTwice` | kernel/block/blk-core.c:1786-1847 | within a bio two completions leave what their sum leaves; the vectors already passed are equal too iff the first stopped at a vector's end or the second stayed in the same vector |
| `Completion.PassedVectorsCanDiffer` | kernel/block/blk-core.c:1786-1847 | a bio of two vectors in which they are not |
| `Completion.LeftOk` | kernel/block/blk-core.c:1786-1828 | the remaining bytes drop by exactly n, and nothing remains iff n covers the rest |
| `Completion.LeftTwice` | kernel/block/blk-core.c:1786-1847 | completing a then c bytes leaves the same work and ends the same bios with the same errors as a + c |
| `Completion.LeftStream` | kernel/block/blk-core.c:1786-1847 | completing n bytes drops exactly the first n bytes of memory the request stands for |
| `Completion.RecalculatedTwice` | kernel/block/blk-merge.c:43-70 | moving the sector counts twice is moving them once by the sum, also when the submission pointers are ahead |
| `Completion.CompletedTwice` | kernel/block/blk-core.c:1761-1855 | completing a then c bytes leaves the same bios and endings as a + c; the sector counts are equal too iff the second does not finish the request, or the first does, or the first is empty and the submission pointers need no update |
| `Completion.CompletedOk` | kernel/block/blk-merge.c:43-70 | the sector count stays equal to the remaining bytes |
| `Completion.EachBioEndsOnce` | kernel/block/blk-core.c:171-208 | however completions are split and whatever errors they report, by the time they cover the request every bio has ended once, in order, with the error of the completion that finished it, or EIO if only an earlier one that touched it failed |
| `CompletionLoop.Rq.Walk` | kernel/block/blk-core.c:1786-1834 | the loop over bios and vectors stops where the specification does; the break for an exhausted vector list is never taken |
| `CompletionLoop.Rq.EndThatRequestFirst` | kernel/block/blk-core.c:1761-1855 | the object becomes the specified request, and 0 is returned iff nothing remains |
| `Tags.StepValid` | kernel/block/blk-tag.c:312-411 | every access of any queue to the shared map, also one that relies on a depth read before a resize, keeps tags, index and busy lists consistent |
| `Tags.TagsExclusive` | kernel/block/blk-tag.c:312-411 | after every interleaving, resizes between reading the depth and claiming a tag included, an indexed tag is taken, no two requests share one, and a taken tag is indexed or held by an operation in progress |
| `Tags.AsyncStaysOut` | kernel/block/blk-tag.c:388-399 | while the depth is constant asynchronous requests hold no tag below a quarter of it |
| `TagQueue.StartThenFinish` | kernel/block/blk-tag.c:312-411 | taking a tag and giving it back, undisturbed, restores everything |
| `TagQueue.Queue.FindNextZeroBit` | kernel/block/blk-tag.c:394-397 | the first free bit from the offset on, or the size |
| `TagQueue.MeanwhileValid` | kernel/block/blk-tag.c:312-411 | whatever other queues do in between, the tags stay consistent and this queue's own operation and busy list are untouched |
| `TagQueue.Queue.Search` | kernel/block/blk-tag.c:394-399 | the retry loop, with other queues at work between each search and its test-and-set, terminates once they are through, with a tag that is free in the range of the depth read or with none free |
| `TagQueue.Queue.StartTag` | kernel/block/blk-tag.c:367-411 | with other queues at work, the request gets a free tag of its range, or none is free when the last search looks; undisturbed it is refused iff none is free and else gets the lowest |
| `TagQueue.Queue.EndTag` | kernel/block/blk-tag.c:312-346 | the tag is given back by the two steps of the protocol |
| `TagQueue.Queue.InvalidateTags` | kernel/block/blk-tag.c:426-432 | all requests of the queue are back at the front of the dispatch list in issue order, and no other queue's tags change |
| `SpawnRemoval.LeastIsReached` | kernel/crypto/algapi.c:115-160 | the spawns removed are exactly those a chain of uses leads to |
| `SpawnRemoval.DependentsDie` | kernel/crypto/algapi.c:355-367 | if every other instance is dead and without users, or alive, on its template's list and with a template that can be referenced, then every instance that depends on the algorithm, however indirectly, is dead and its spawns are cleared |
| `SpawnRemoval.RemovedInv` | kernel/crypto/algapi.c:115-141 | removing one reached spawn forgets nothing it passes on and touches nothing else |
| `SpawnRemoval.Registry.RemoveSpawn` | kernel/crypto/algapi.c:115-141 | the specified step; more spawns wait only if a live instance died |
| `SpawnRemoval.Registry.Pass` | kernel/crypto/algapi.c:155-158 | a pass over the worklist, with splicing before the cursor, either kills an instance or leaves the list empty |
| `SpawnRemoval.Registry.RemoveSpawns` | kernel/crypto/algapi.c:143-160 | the loops terminate having removed the least closed set of spawns and nothing else |
| `SpawnRemoval.Registry.RemoveAlg` | kernel/crypto/algapi.c:355-367 | an unregistered algorithm is refused without effect; a registered one dies with everything reached from it |
| `TemplateName.ParsePrinted` | kernel/crypto/algboss.c:139-207 | a printed name, whatever follows it, is read back as its template and its arguments, the k-th classified as the k-th was, iff it has 1 to 31 arguments, else refused |
| `TemplateName.ArgsPrinted` | kernel/crypto/algboss.c:147-204 | a printed argument list is read back in order until the limit |
| `TemplateName.FirstArgPrinted` | kernel/crypto/algboss.c:153-184 | a printed argument of any depth is read as one piece, a number iff all its characters are digits |
| `TemplateName.NeutralName` | kernel/crypto/algboss.c:156-171 | scanning for the closing parenthesis passes over any printed name |
| `TemplateName.SkipWord` | kernel/crypto/algboss.c:153-154 | the loop skips the longest run of identifier characters and notes whether one is not a digit |
| `TemplateName.SkipParens` | kernel/crypto/algboss.c:156-168 | the loop finds the matching parenthesis or fails at the end of the text |
| `TemplateName.ReadArg` | kernel/crypto/algboss.c:147-191 | the inner loops read exactly one argument of the specification |
| `TemplateName.Probing` | kernel/crypto/algboss.c:139-207 | the parser loop computes the specified parse |
| `Counter.NextIsPlusOne` | kernel/crypto/algapi.c:758-769 | the byte carry is big-endian addition of one modulo 256^n |
| `Counter.WordIsNext` | kernel/crypto/algapi.c:771-784 | incrementing a 32-bit word is the byte carry inside it, and it is zero iff the carry goes on |
| `Counter.NextConcat` | kernel/crypto/algapi.c:771-784 | the carry out of a tail decides whether the bytes before it change |
| `Counter.ValueInjective` | kernel/crypto/algapi.c:758-784 | a counter of given length is determined by its value |
| `Counter.IncByte` | kernel/crypto/algapi.c:758-769 | the byte loop adds one to the first bytes and leaves the rest |
| `Counter.Inc` | kernel/crypto/algapi.c:771-784 | for every length the buffer becomes its value plus one modulo 256^n, the same as the byte loop alone |
| `Cast6.QuadsInvert` | kernel/crypto/cast6.c:461-477 | Q and QBAR with the same keys undo each other |
| `Cast6.RunsInvert` | kernel/crypto/cast6.c:479-542 | a run of quad rounds is undone by the reverse rounds with reversed keys |
| `Cast6.DecryptInverts` | kernel/crypto/cast6.c:479-542 | decryption and encryption invert each other for any keys and S-boxes |
| `Cast6.ApplyQuad` | kernel/crypto/cast6.c:462-468 | Q in place |
| `Cast6.ApplyQuadBar` | kernel/crypto/cast6.c:471-477 | QBAR in place |
| `Cast6.EncryptBlock` | kernel/crypto/cast6.c:479-509 | the block becomes its encryption, which decrypts to the old block |
| `Cast6.DecryptBlock` | kernel/crypto/cast6.c:511-542 | the block becomes its decryption |
| `Blowfish.DownMeetsUp` | kernel/crypto/blowfish.c:351-427 | after 2n rounds down the state is that of 16 - 2n rounds up, swapped, with two keys pending |
| `Blowfish.DecryptInverts` | kernel/crypto/blowfish.c:351-427 | decryption inverts encryption for every key table and S-box |
| `Blowfish.DecryptIsReversed` | kernel/crypto/blowfish.c:395-427 | decryption is encryption with the key table reversed |

## Left out

- Barriers: discard and bidirectional requests, partial completion of the barrier's own proxy, changing the ordering mode during a sequence, aborting a queue, plugging and unplug timers. The branch of blk_do_ordered for a proxy at the head without a sequence cannot be reached and is not modelled.
- Barriers in tag mode: integrity, conservation and how barriers end are proved, but not the ordering of commands, which the device provides there.
- Segments: padding and drain entries of the scatterlist, dataless bios, integrity segments; mergeability and boundary tests are one arbitrary relation on neighbouring vectors.
- Camellia: the derivation of the raw subkeys in camellia_setup128 and camellia_setup256; left and right subkey words are kept as pairs.
- Unrolled round calls of the three ciphers are written as short loops or recursion over the round groups; key schedules and byte order of CAST-256 and Blowfish are not modelled.
- CfqQueue: the order of service is claimed only for trees that were in order, because a queue's class can change while it is in the tree; reference counts, idle-window statistics, think times, arming the idle timer and the decision of cfq_should_preempt are parameters.
- Anticipatory: anticipation, batches, fifo expiry and front merges, after which the source says the cached request may not be the best.
- Deadline.StarvationBound: counts the requests that deadline_dispatch_requests dispatches; a request moved out because a new one starts at its sector is not counted.
- Elevator: the scheduler's own lookup, neighbours and allow-merge answers are parameters, so the anticipatory scheduler's alias handling in merges is not covered.
- Completion: bar_rq, integrity data, zero-length bios and counts that are not whole sectors; recounting segments after a completion is modelled with the segments.
- Tags: enlarging a map beyond its real depth; requeueing while a barrier sequence is in progress, which the barrier model covers, is not combined with tags.
- SpawnRemoval: crypto_alg_tested, the other caller of crypto_remove_spawns, whose type mask can skip spawns; for crypto_remove_alg the mask test always passes. Notifier calls and the final destruction are not modelled.
- TemplateName: the value of a numeric argument, the 64-character limit of names and starting the probe thread.
- Requests, bios and queues are numbered values held by their container rather than linked structures, so pointer aliasing between lists is not modelled; it appears as lists that must hold the same requests.
- sysfs, tracing, statistics, memory allocation, module references and elevator switching.
