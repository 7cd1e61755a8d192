# A verified model of the parallel hash joins

The repository computes equi-joins of two relations in main memory with many threads. Every variant reports
two numbers, the number of matching pairs and the sum of their row ids, and each should report what two
nested loops over the relations would. This project models the algorithms in Dafny and proves that they do:
`Relations.NestedLoop` is the specification, and everything else is a faster form that must agree with it.

How the pieces fit together:

- `Bits` and `Blocks` hold the hash macro and the slot arithmetic; `Relations` the nested-loop join and the
  laws that let a join be cut into clusters; `Runs` what a run of a transition system is.
- `Offsets`, `Partitioning`, `Swwcb`, `SwwcbProofs`, `PlainScatter` and `ConcurrentScatter` are the partitioning
  passes, with and without software write-combining buffers, as state machines that interleave the threads
  store by store. `RegulatedPass`, `RegulatedScatter` and `SharedBuffers` are their bandwidth-regulated forms;
  `Passes` says what all of them do.
- `Tasks`, `TaskCreation`, `TaskQueues`, `SecondPassQueues` and `SecondPassStores` are the tasks that tie the
  passes together, and the second pass that makes join tasks of them; `JoinQueues` and `QueueFilling` say which
  join tasks there are, `IntermediateBuffers` and `JoinMemory` what memory they need.
- `BucketChaining`, `LinearProbing` (on `Probing` and `FirstMatches`), `SeparateChaining` (on `Chains`), `HistogramJoin` and
  `VectorProbe` are the join kernels; `Accumulators` are the two `size_t` counters of each, modulo 2^64.
  `ReplicatedJoin` runs the histogram kernel on the pieces of one task at once, `JoinPhase` runs the kernels on
  all tasks of a thread.
- `ConcurrentProbing`, `LatchedProbing`, `LatchedChains` and `PrefetchRing` are the joins with one shared table;
  `InsertionOrder` says which sequential build a shared one amounts to.
- Every machine has a lemma that some thread can go on until all are done (`NeverStuck`) and one that bounds its
  runs by a number computed from the input alone (`RunsEnd`), so that all of them come to the end that the other
  results are about.
- `EndToEnd` and `RegulatedJoin` put everything together. Their main results are `TwoPassJoinIsRight` (both
  relations partitioned twice), `AsymmetricJoinIsRight` (the probe side partitioned once) and
  `RegulatedJoinIsRight` (only some threads write), each with and without skew handling, under every schedule.
- `Witnesses` has an input for each place where the code does less than a nested-loop join.

Conventions:

- Slots of partitioned relations are counted from the start of the whole array, so the global offset of a
  task is the base of its output and `tuples[slot - global_offset]` is slot `slot`.
- The two neighbouring counters `2p` and `2p + 1` of a histogram are one `Bin`. The histogram of the histogram
  joins is the prefix half of it.
- `slot & (t - 1)` is written `Off(slot, t)`, the remainder; `Bits.MaskIsOff` shows that they agree when `t` is
  a power of two. `Times` is multiplication.
- A non-temporal block copy is modelled tuple by tuple, so that other threads may run between two tuples.
- Barriers, atomic exchanges, compare-and-swap, fetch-and-add and operations under a queue mutex are single steps.
- Queues are last in, first out, as in the repository: adding puts a task in front.
- A second-pass task keeps its histogram slice and its buffers, whichever thread goes on with it, so the buffers
  are those of the task; `SecondPassQueues.SlicesArePrivate` justifies it.
- `next_pow_2` is the least power of two that is large enough, in exact arithmetic.
- Limits of skew handling are arbitrary numbers. The threshold macros in `src/algo/params.h` are not
  parenthesised, so what a comparison with them means depends on how their parts are defined; the results hold
  for every limit.
- Hash tables of the kernels may have any positive number of buckets; no kernel result depends on it. What the
  code chooses is `JoinPhase.Table`.

Where the code does less than a nested-loop join, the model keeps the code as it is and states exactly when it
meets the specification:

- `hro_join` clears four tuples behind the build side, and windows over the run of key 0 may reach them. With
  a probe tuple of key 0 it then counts padding: `VectorProbe.HroIsTheJoin`, `Witnesses.HroCountsPadding`.
- `lp_join` and the shared linear-probing table return one match per probe tuple:
  `Probing.LookupTotalsAreTheJoin`, `Witnesses.LookupMissesDuplicate`.
- The plain lookups of `lp_join` all stop exactly when the table has a slot more than the build side has tuples,
  or every probe key occurs there: `LinearProbing.PlainProbeRuns`, `Witnesses.PlainLookupNeverStops`.
- The probe of the shared linear-probing table reads the tuple that it found even when it found none, so every
  probe key must occur on the build side: `ConcurrentProbing.ReadsAreSafe`, `Witnesses.LookupReadsNothing`.
- With a scaling factor of 2 the memory per probing thread is too small for the vectorised kernel exactly when
  the largest build side has at most 8 tuples: `IntermediateBuffers.HroTableFits`, `Witnesses.HroBufferTooSmall`.
- The bandwidth-regulated second pass needs at least one writing thread: `SecondPassQueues.NoWriterNoWork`,
  `Witnesses.TaskIsLeft`.

## Model

| member | source | states |
|---|---|---|
| Bits.HashInRange | src/algo/params.h:9-11 | the hash with the mask `(fanout - 1) << skip` is below the fanout for every key and every fanout, a power of two or not |
| Bits.IdHashReadsRadixBits | src/algo/params.h:9-11 | for a power-of-two fanout the hash is exactly the field of radix bits above the skipped ones |
| Bits.HashInMachineWords | src/algo/params.h:9-11 | computing the mask in machine words, where the shift may lose high bits, does not change the hash of a machine word |
| Bits.MaskIsOff | src/algo/phj.c:328 | masking with a power of two less one is the remainder |
| Relations.ProbeSel | src/algo/phj.c:448-491 | probing the cluster of a tuple finds what probing the relation finds, and probing any other cluster finds nothing |
| Relations.JoinByClusters | src/algo/phj.c:448-491 | joining the clusters of both sides pairwise counts every matching pair exactly once |
| Relations.JoinByBuildClusters | src/algo/phj_asymm_radix.c:450-488 | joining every cluster of the build side with the whole probe side counts every matching pair exactly once |
| Offsets.LocalHistogram | src/algo/phj.c:162-175 | the loops leave the size of every cluster and the number of tuples up to and including it |
| Offsets.OutputOffset | src/algo/phj.c:187-200 | the loops leave the start of every range of a thread, from inclusive prefix sums of earlier threads and shifted ones of the others |
| Offsets.FirstStart | src/algo/phj.c:187-200 | the ranges of thread 0 start where all tuples of lower clusters, of all threads, end |
| Partitioning.SeatsInOrder | src/algo/phj.c:187-200 | the write ranges of all threads and clusters follow each other by cluster and then by thread, so that no two meet |
| Partitioning.SeatsInside | src/algo/phj.c:187-200 | no range leaves the tuples plus the padding |
| Partitioning.ParallelPassValid | src/algo/phj.c:298-317 | the slots that all threads set up satisfy what the buffered machine needs |
| Partitioning.ParallelPassPartitions | src/algo/phj.c:258-359 | under every interleaving, every cluster ends as the in-order selection of the concatenated chunks, contiguous at its place |
| Partitioning.ParallelPassStaysInside | src/algo/phj.c:258-359 | the slots that a pass may store to are not more than a block below its base, not in its last padding, nor behind it |
| Partitioning.SerialPassesValid | src/algo/phj.c:393-444 | one block of padding per cluster is enough to do without a barrier, whichever tasks run at the same time |
| Partitioning.SerialPassesPartition | src/algo/phj.c:393-444 | under every interleaving of the tasks, each is partitioned as if it ran alone |
| Partitioning.FirstPassLeavesRoom | src/algo/phj.c:1257-1311 | first-pass clusters, padded by one block per second-pass cluster, can be partitioned again in place |
| Partitioning.SizesAreExact | src/algo/phj.c:1258-1267 | the differences of the offsets of thread 0, with the case of the last cluster, are the exact cluster sizes over all threads, and its offsets are their places |
| Passes.PassIsRight | src/algo/phj.c:258-359 | whatever the form of the pass, buffered or not, regulated or not, and under every schedule, every range ends with its tuples and nothing outside the blocks of the ranges changes |
| SwwcbProofs.EveryTupleInItsSlot | src/algo/phj.c:258-359 | when all writers are done, under every interleaving, every range holds exactly its tuples, although first blocks store stale buffer content below their range |
| SwwcbProofs.StoreSpares | src/algo/phj.c:324-358 | no store hits a slot that another writer, or another cluster, has already made final |
| SwwcbProofs.BlockOwned | src/algo/phj.c:331-334 | the slots of a flushed block from the start of the writer's range on all carry that writer's tuples |
| SwwcbProofs.NoStoreOutside | src/algo/phj.c:258-359 | no step of any run stores outside the array |
| SwwcbProofs.OthersUntouched | src/algo/phj.c:258-359 | slots below the first block of every range and outside all ranges keep what they held |
| SwwcbProofs.NeverStuck | src/algo/phj.c:339-347 | until all writers are done some writer can take a step: the barrier blocks nobody for ever |
| SwwcbProofs.RunsEnd | src/algo/phj.c:258-359 | no run is longer than a number computed from the configuration: for every tuple the stores of a block and two steps, and a block for every cluster of every writer |
| PlainScatter.RadixCluster | src/algo/phj.c:366-389 | the loops partition the relation stably, leave every counter at the end of its cluster, and touch nothing else |
| PlainScatter.CountSlice | src/algo/phj_asymm_radix_bw_reg.c:489-501 | the part that threads without write permission do leaves counts and first slots |
| PlainScatter.StoreSlice | src/algo/phj_asymm_radix_bw_reg.c:510-516 | a writer that continues with the histogram of another thread partitions the relation as that thread would have |
| ConcurrentScatter.ScatterIsExact | src/algo/phj.c:203-214 | under every interleaving, every range holds its tuples, and offsets that are moved back are its first slots |
| ConcurrentScatter.ScatterPartitions | src/algo/phj.c:147-215 | the unbuffered parallel pass partitions the concatenation of the chunks |
| ConcurrentScatter.SerialScatterPartitions | src/algo/phj.c:366-389 | under every interleaving of the tasks, the unbuffered second pass partitions each as if it ran alone |
| ConcurrentScatter.OthersUntouched | src/algo/phj.c:203-214 | slots outside all ranges keep what they held |
| ConcurrentScatter.RunsEnd | src/algo/phj.c:203-214 | no run is longer than the tuples, and the offsets that are moved back |
| ConcurrentScatter.BuffersRefinePlainScatter | src/algo/phj.c:258-359 | whatever the two schedules, a buffered pass leaves in every range what the unbuffered one leaves, for parallel and for serial passes |
| BucketChaining.MembersExact | src/algo/phj.c:527-533 | a position is in the chain of a bucket if and only if its tuple hashes there |
| BucketChaining.MembersFall | src/algo/phj.c:527-533 | chains strictly decrease, so that they end and have no position twice |
| BucketChaining.Build | src/algo/phj.c:527-533 | the loop leaves in every bucket the head of the chain of exactly the positions that hash to it |
| BucketChaining.BcJoin | src/algo/phj.c:496-559 | the kernel returns the totals of the nested-loop join, with any duplicates |
| HistogramJoin.RunHolds | src/algo/phj.c:848-849 | the start and end that a probe reads, without a branch for hash value 0, bound exactly the tuples of that hash value |
| HistogramJoin.HrJoin | src/algo/phj.c:784-865 | the kernel returns the totals of the nested-loop join and writes only its own part of the output |
| HistogramJoin.SameSlotSameTuple | src/algo/phj.c:1595-1614 | a store of one of several builds into the same output never changes what another one has stored |
| HistogramJoin.OwnBuildIsEnough | src/algo/phj.c:821-865 | from the end of its own build on, a thread sees the right reordered build side and a clear padding, however far the other builds are |
| HistogramJoin.RunsEnd | src/algo/phj.c:821-846 | no run of the builds alone is longer than what all threads have to clear and to store |
| ReplicatedJoin.EveryPieceIsRight | src/algo/phj.c:821-865 | under every interleaving of several builds into one array and of their probes, every thread that has finished has the totals of the build side with its own piece |
| ReplicatedJoin.NeverStuck | src/algo/phj.c:821-865 | no thread waits for another: until its build and its piece are done it can take a step |
| ReplicatedJoin.RunsEnd | src/algo/phj.c:821-865 | no run is longer than what the threads have to clear, to store and to compare |
| VectorProbe.PairLanes | src/algo/phj.c:972-980 | comparing row ids with the key as well, and shifting the mask by one lane, a tuple changes its own two lanes by exactly its match and its sum |
| VectorProbe.WindowAdds | src/algo/phj.c:966-982 | the extracted lanes grow by exactly the matches of the four tuples of a window |
| VectorProbe.WindowsAreEnough | src/algo/phj.c:964-982 | windows that run past their run and past the relation find the matches of the relation and of the padding they reach |
| VectorProbe.ProbeWindows | src/algo/phj.c:966-982 | the inner loop adds exactly the tuples between the start of the run and the end of its last window |
| VectorProbe.HroJoin | src/algo/phj.c:881-1037 | for all inputs the kernel returns the totals of the nested-loop join with the build side widened by the reachable padding |
| VectorProbe.HroIsTheJoin | src/algo/phj.c:881-1037 | it is the join of the relations if and only if no probe key is 0 or the windows over the run of key 0 end inside the relation |
| Probing.FillKeepsValid | src/algo/phj.c:610-618 | filling the first empty slot on the way from its home keeps every tuple reachable over slots in use |
| Probing.EmptyMeansAbsent | src/algo/phj.c:639-646 | where a lookup meets an empty slot, its key is nowhere in the table |
| Probing.AroundMeansAbsent | src/algo/phj.c:639-646 | nor is it where a lookup has come around |
| Probing.LookupIsRight | src/algo/phj.c:635-668 | a lookup finds a tuple with its key if the relation has one, and nothing otherwise |
| Probing.LookupsUndercount | src/algo/phj.c:650-668 | lookups never count a match too many, and count all if and only if no probe key occurs twice on the build side |
| Probing.LookupTotalsAreTheJoin | src/algo/phj.c:650-668 | the totals are those of the nested-loop join if and only if no probe key occurs twice on the build side, as long as the matches fit a counter |
| FirstMatches.FillKeepsOrder | src/algo/phj.c:610-618 | filling an empty slot keeps what lookups come to: the first tuple with their key, in the order of the insertions |
| FirstMatches.LookupsCountHits | src/algo/phj.c:650-668 | in every table of the tuples, lookups count the probe tuples whose key occurs |
| FirstMatches.LookupsAddFirst | src/algo/phj.c:650-668 | in one that was filled in order, they add up the row ids of the probe tuples and of the first tuples with their keys |
| LinearProbing.FindEmpty | src/algo/phj.c:613-615 | the insertion loop ends at the first empty slot from the home slot whenever the table has room |
| LinearProbing.Insert | src/algo/phj.c:610-618 | an insertion adds its tuple to what the table holds, keeps everything reachable, and comes after all earlier tuples with its key |
| LinearProbing.LookupSelective | src/algo/phj.c:632-652 | the lookup with a round counter ends for every key, even in a full table, at the right slot |
| LinearProbing.LookupPlain | src/algo/phj.c:655-666 | so does the lookup without one, if some slot is empty or holds the key |
| LinearProbing.PlainProbeStops | src/algo/phj.c:655-658 | every plain lookup meets a slot that stops it if and only if the build side does not fill the table or every probe key occurs on it |
| LinearProbing.PlainProbeRuns | src/algo/phj.c:655-658 | otherwise some lookup passes every slot that it ever comes to: all lookups end if and only if the build side does not fill the table or every probe key occurs on it |
| LinearProbing.LpJoin | src/algo/phj.c:574-668 | with nonzero build keys and a table of at least as many slots, the kernel ends; for every build side it counts the probe tuples whose key occurs and adds up their row ids and those of the first build tuple with the key, modulo 2^64; these are the nested-loop totals if and only if no probe key occurs twice on the build side |
| Chains.InsertContent | src/algo/phj.c:719-739 | an insertion adds its tuple to the chain, and all buckets behind the first overflow bucket stay full |
| Chains.ContentSize | src/algo/phj.c:724-739 | a chain with k overflow buckets holds more than k bucketfuls |
| Chains.InsertKeepsTable | src/algo/phj.c:719-739 | an insertion keeps all chains in order, apart from each other and inside the buckets handed out |
| SeparateChaining.PoolIsEnough | src/algo/phj.c:715-739 | for every distribution of keys fewer overflow buckets are used than there are home buckets, so the pool of the same size is never exceeded |
| SeparateChaining.ChosenSizesFit | src/algo/phj.c:687 | the chosen number of buckets is positive and has room for all tuples, if the capacity is a power of two that is not larger than the rounded size |
| SeparateChaining.InsertTuple | src/algo/phj.c:719-743 | the branches of the code are the insertion that the chains are proved about |
| SeparateChaining.Build | src/algo/phj.c:719-743 | after the loop every chain holds exactly the multiset of tuples with its hash value, and the index of the next free bucket is inside the pool |
| SeparateChaining.ProbeChain | src/algo/phj.c:757-776 | walking a chain ends and adds exactly its content |
| SeparateChaining.ProbeAll | src/algo/nphj.c:420-439 | on chains that hold their hash values, probing returns the totals of the nested-loop join |
| SeparateChaining.ScJoin | src/algo/phj.c:683-776 | the kernel returns the totals of the nested-loop join, duplicates included |
| ConcurrentProbing.RunHasInv | src/algo/nphj.c:1056-1070 | along every run, claims are distinct, every claimed slot is reached over claimed slots, and what is claimed is what the threads have inserted |
| ConcurrentProbing.ProbesAreFew | src/algo/nphj.c:1056-1070 | an insertion never probes more slots than the table has, as long as the table has a slot for every tuple |
| ConcurrentProbing.ClaimsAlone | src/algo/nphj.c:1065-1068 | a claimed slot is claimed by nobody else |
| ConcurrentProbing.ClaimsStay | src/algo/nphj.c:1065-1068 | claims are never taken back |
| ConcurrentProbing.NeverStuck | src/algo/nphj.c:1056-1070 | a thread with tuples left can always take a step, whatever the others do |
| ConcurrentProbing.BuildIsRight | src/algo/nphj.c:1078-1143 | under every interleaving the finished table holds exactly the tuples of all threads, each reachable from its home slot |
| ConcurrentProbing.RunsEnd | src/algo/nphj.c:1056-1070 | no run of the build is longer than two steps for every slot of the table, and two more, for every tuple: every insertion comes to its end, whatever the others do |
| ConcurrentProbing.LookupSelective | src/algo/nphj.c:1147-1159 | the lookup with a round counter ends at the right slot for every key |
| ConcurrentProbing.LookupPlain | src/algo/nphj.c:1161-1165 | the plain lookup ends at the right slot if some slot is free or holds the key |
| ConcurrentProbing.ReadsAreSafe | src/algo/nphj.c:1258-1266 | no lookup comes back empty if and only if every probe key occurs on the build side |
| ConcurrentProbing.ProbeHashtable | src/algo/nphj.c:1258-1266 | then every probe tuple is counted once, with the row id of the first tuple that has its key in a table that was filled in order; the totals are those of the nested-loop join if and only if no probe key occurs twice on the build side |
| LatchedProbing.StepRefines | src/algo/nphj.c:1041-1053 | every step of the build with latches is a step of the lock-free build or no step at all: what happens under a latch is one compare-and-swap |
| LatchedProbing.RunHasBoth | src/algo/nphj.c:1041-1053 | along every run no two threads hold one latch, whoever is about to write a slot holds its latch and the slot is free, and the lock-free invariant holds |
| LatchedProbing.BuildIsRight | src/algo/nphj.c:1056-1063 | the finished table is as right as that of the lock-free build |
| LatchedProbing.HolderMoves | src/inc/lock.h:13-24 | a thread that holds a latch can always go on |
| LatchedProbing.NeverStuck | src/algo/nphj.c:1041-1053 | along every run a latch that is taken has a holder, so that until all threads are done one of them can take a step |
| LatchedProbing.RunsEnd | src/algo/nphj.c:1041-1053 | no run is longer than a number computed from the threads' tuples and the size of the table |
| InsertionOrder.BuildIsSequential | src/algo/nphj.c:1056-1070 | whatever the schedule, lookups in the finished table come to what they would come to if the tuples had been inserted one after another, in an order that keeps the order of every thread; every slot in use carries the hash value of its tuple and 1 |
| InsertionOrder.LatchedBuildIsSequential | src/algo/nphj.c:1041-1053 | so they do with a latch in every slot |
| LatchedChains.ReserveKeepsSame | src/algo/nphj.c:276-293 | reserving with the pointer read before is the insertion that the chains are proved about, but for the tuple that is still to be stored |
| LatchedChains.ClaimIsNew | src/algo/nphj.c:276-297 | a position just reserved is reserved by nobody else, although stores happen after the latch is released |
| LatchedChains.RunHasInv | src/algo/nphj.c:272-298 | along every run, latches exclude, no position is reserved twice, and full buckets precede growth in every chain |
| LatchedChains.BuildIsRight | src/algo/nphj.c:272-298 | under every interleaving the finished chain of every hash value holds exactly the multiset of the tuples that have it |
| LatchedChains.HolderMoves | src/inc/lock.h:13-24 | a thread that holds a latch can always go on |
| LatchedChains.NeverStuck | src/algo/nphj.c:272-298 | the same, as long as there is memory for one more overflow bucket |
| LatchedChains.RunsEnd | src/algo/nphj.c:272-298 | no run is longer than a number computed from the threads' tuples |
| PrefetchRing.WithRing | src/algo/nphj.c:1100-1122 | the ring hands every tuple its own hash key, if the relation is at least as long as the ring |
| TaskQueues.TaskQueue.Get | src/inc/task_pthread.h:110-121 | takes the first task of the list, or nothing exactly when the list is empty; the count stays the length of an acyclic list, and the history of the queue is the one that conservation is proved about |
| TaskQueues.TaskQueue.Add | src/inc/task_pthread.h:124-133 | puts a task in front of the list, which stays acyclic and counted |
| TaskQueues.FetchedOnce | src/inc/task_pthread.h:110-133 | over any interleaving of adds and gets, a task is fetched at most as often as it was added, and exactly as often if the queue ends empty |
| TaskQueues.TasksAreConserved | src/inc/task_pthread.h:110-133 | what was added is what was fetched and what is left |
| TaskQueues.SlotAllocator.GetSlot | src/inc/task_pthread.h:149-165 | a slot is never handed out twice: it is the next one of the newest block while that has room, and the first one of a new block once it is full, so that all older blocks are full |
| Tasks.TasksKeepTheJoin | src/algo/phj.c:470-490 | the tasks created from a partitioned pair, or from a partitioned build side and a whole probe side, stand for the join: dropped tasks lose nothing |
| Tasks.FirstLevelKeepsTheJoin | src/algo/phj.c:1257-1311 | the tasks for one thread and those for all threads together stand for the join |
| Tasks.PiecesKeepTheJoin | src/algo/phj.c:1595-1614 | the pieces of a split task tile its probe side and stand for its join, for any number of threads |
| Tasks.CreatedSizes | src/algo/phj.c:1269-1305 | a cluster becomes a task of the queue for small ones or of the one for big ones exactly as its sizes and the limit say, and empty clusters of neither |
| Tasks.SkewKeepsTheJoin | src/algo/phj_asymm_radix.c:1410-1460 | small tasks and the pieces of big ones stand for the join, in the symmetric and in the asymmetric form |
| TaskCreation.CreateJoinTasks | src/algo/phj.c:466-491 | the loop adds one task per cluster with tuples on both sides, and keeps the maximum of their build sides |
| TaskCreation.CreateAsymmetricTasks | src/algo/phj_asymm_radix.c:462-487 | the loop adds one task per nonempty cluster of the build side, each with the whole probe side |
| TaskCreation.CreateSecondPassTasks | src/algo/phj.c:1257-1311 | every pair with tuples on both sides gets one task; with skew handling those in one queue have both sides within the limit, those in the other have one above it |
| TaskCreation.SplitTask | src/algo/phj.c:1602-1611 | a task is split into one piece per thread, each with the whole build side, adjacent on the probe side; all but the last have the size of the probe side divided by the threads, rounded down, and the last exceeds it by less than the number of threads |
| TaskCreation.CreateSkewTasks | src/algo/phj.c:1581-1635 | every pair with tuples on both sides gets one task or its pieces, within the limit the one, above it the other, and the maximum covers all clusters |
| TaskCreation.CreateAsymmetricSkewTasks | src/algo/phj_asymm_radix.c:1410-1460 | the same, deciding by the build side alone |
| TaskCreation.MoveTasks | src/algo/phj.c:1638-1642 | moving the split tasks to the join queue loses none and keeps the value of the queue |
| TaskCreation.CountsGiveClusters | src/algo/phj.c:466-491 | the accumulated counts are the places of the clusters |
| TaskCreation.CountsGiveBuildClusters | src/algo/phj_asymm_radix.c:462-487 | the same for the build side alone |
| TaskCreation.OffsetsGiveClusters | src/algo/phj.c:1258-1267 | the offsets of thread 0 and their differences are the places and sizes of the clusters |
| TaskCreation.OffsetsGiveBuildClusters | src/algo/phj_asymm_radix.c:1410-1460 | the same for the build side alone |
| TaskCreation.MostBoundsTasks | src/algo/phj.c:1592 | the maximum of skew handling bounds every task that it creates |
| TaskCreation.LargestBounds | src/algo/phj.c:484 | the maximum of task creation bounds the build side of every task created |
| TaskCreation.ShareMaximum | src/algo/phj.c:1672-1681 | all threads end with exactly the maximum of what each of them found |
| QueueFilling.AddPlain | src/algo/phj.c:466-491 | run on the histogram of a task, the creation loops of both forms add exactly the join tasks of the task |
| QueueFilling.AddSkewed | src/algo/phj.c:1581-1635 | run on the offsets of thread 0, the skew loops of both forms add exactly the small tasks and the pieces of the big ones |
| IntermediateBuffers.NextPow2IsLeast | src/inc/utils.c:351-353 | the rounded size is the least power of two that is large enough |
| IntermediateBuffers.TablesFit | src/algo/phj.c:2121-2139 | with a scaling factor of at least 2, the memory of a thread holds the bucket-chaining, linear-probing and histogram tables of every task within the maximum |
| IntermediateBuffers.FactorIsNeeded | src/algo/phj.c:2121-2139 | for all tasks within the maximum they fit if and only if the factor is at least 2, for bucket chaining and for linear probing, and at least 1 for the histogram kernel |
| IntermediateBuffers.ScTableFits | src/algo/phj.c:2121-2139 | and both halves of the separate-chaining table |
| IntermediateBuffers.ScTableFills | src/algo/phj.c:687-701 | which fill what the factor 2 gives exactly, where the bucket capacity divides the rounded size |
| IntermediateBuffers.HroTableFits | src/algo/phj.c:911-916 | with the factor 2 it holds the tables of the vectorised kernel, for all tasks within the maximum, if and only if the maximum is above 8 |
| JoinMemory.EveryTaskFits | src/algo/phj.c:1344-1352 | the shared maximum bounds the build side of every join task, whichever phase has added it, so that the tables of all kernels fit what a thread is given |
| JoinMemory.RegionsApart | src/algo/phj.c:471-473 | two join tasks have the same build side, or the parts of the array that their kernels write to, with a block behind each, do not meet; none leaves the array |
| RegulatedPass.ServeRefines | src/algo/phj_asymm_radix_bw_reg.c:402-475 | a writer that serves a chunk takes a step of the unregulated machine; in particular all chunks are scattered when the first one is drained |
| RegulatedPass.RegulatedRefines | src/algo/phj_asymm_radix_bw_reg.c:328-475 | every regulated run is, up to steps that store nothing, a run of the unregulated machine |
| RegulatedPass.RegulatedPassPartitions | src/algo/phj_asymm_radix_bw_reg.c:328-475 | for any positive number of writers every chunk is served exactly once and the relation ends partitioned |
| RegulatedPass.OnlyItsWriterServes | src/algo/phj_asymm_radix_bw_reg.c:402-475 | a chunk is served by one writer, the one whose number is the remainder of the chunk's |
| RegulatedPass.NeverStuck | src/algo/phj_asymm_radix_bw_reg.c:328-475 | until all writers have finished, one of them can take a step |
| RegulatedPass.RunsEnd | src/algo/phj_asymm_radix_bw_reg.c:328-475 | no run is longer than a number computed from the chunks, the clusters and the writers |
| RegulatedScatter.RegulatedScatterPartitions | src/algo/phj_asymm_radix_bw_reg.c:255-284 | the same without buffers, and the offsets of every chunk end where the unregulated pass leaves them |
| RegulatedScatter.OnlyItsWriterServes | src/algo/phj_asymm_radix_bw_reg.c:255-284 | a chunk is scattered by the writer whose number is the remainder of the chunk's |
| RegulatedScatter.NeverStuck | src/algo/phj_asymm_radix_bw_reg.c:255-284 | until every writer is past the last chunk, some writer can take a step |
| RegulatedScatter.RunsEnd | src/algo/phj_asymm_radix_bw_reg.c:255-284 | no run is longer than the tuples, the offsets moved back, and the chunks and writers allow: a writer leaves every chunk that it has finished |
| SharedBuffers.WorkersAreTogether | src/algo/phj_asymm_radix_bw_reg.c:354-431 | threads that work at the same time, counting, setting slots, scattering or draining, have passed the same barriers |
| SharedBuffers.ResetIsSafe | src/algo/phj_asymm_radix_bw_reg.c:386-390 | whenever a thread sets a slot counter of its buffers, every chunk of an earlier pass is drained, no chunk of this pass has begun, and nobody scatters or drains |
| SharedBuffers.PassIsRegulated | src/algo/phj_asymm_radix_bw_reg.c:1313-1344 | each of several passes over the same buffers is, in every interleaving, a run of the regulated pass alone, although buffers carry over what the pass before left in them |
| SharedBuffers.BothSidesPartitioned | src/algo/phj_asymm_radix_bw_reg.c:1313-1344 | build side and probe side, one after the other over the same buffers, both end partitioned, for every number of writers |
| SharedBuffers.NeverStuck | src/algo/phj_asymm_radix_bw_reg.c:328-475 | until all threads have finished all passes, somebody can take a step |
| SharedBuffers.OnlyWritersStore | src/algo/phj_asymm_radix_bw_reg.c:402-475 | only threads with permission to write store to the arrays, and each chunk of each pass is served by one of them alone |
| SharedBuffers.RunsEnd | src/algo/phj_asymm_radix_bw_reg.c:328-475 | no run over any number of passes is longer than a number computed from the chunks, the clusters and the threads |
| SecondPassQueues.EveryTaskOnce | src/algo/phj_asymm_radix_bw_reg.c:1432-1456 | with at least one writer, under every schedule, every task is partitioned exactly once, directly or through the second queue, and the join queue holds exactly one join task for every cluster that is to have one; the maxima of the threads give its largest build side |
| SecondPassQueues.SlicesArePrivate | src/algo/phj_asymm_radix_bw_reg.c:626-637 | at any time every histogram slice handed out belongs to exactly one task, and there are no more slices than tasks |
| SecondPassQueues.NeverStuck | src/algo/phj_asymm_radix_bw_reg.c:1432-1456 | until all threads are done, one of them can take a step |
| SecondPassQueues.OnlyWritersPartition | src/algo/phj_asymm_radix_bw_reg.c:650-693 | a thread without permission to write never fetches from the second queue, never partitions and never adds a join task |
| SecondPassQueues.OnlyWritersAdd | src/algo/phj_asymm_radix_bw_reg.c:650-693 | join tasks are added and tasks finished by writers alone; the second queue takes tasks from the other threads only and gives them to writers only |
| SecondPassQueues.RunsEnd | src/algo/phj_asymm_radix_bw_reg.c:617-694 | no run is longer than the tasks, their clusters and the threads allow |
| SecondPassStores.SecondPassIsRight | src/algo/phj_asymm_radix_bw_reg.c:617-694 | with the stores of every task, made by whichever writer has it: the second pass is a finished pass over all tasks, and its join queue holds the join tasks of all of them |
| SecondPassStores.NeverStuck | src/algo/phj_asymm_radix_bw_reg.c:617-694 | until all threads are done, one of them can store or go on |
| SecondPassStores.OnlyWritersStore | src/algo/phj_asymm_radix_bw_reg.c:650-693 | every step that changes the array, the buffers or the offsets is one of a thread with permission to write |
| SecondPassStores.RunsEnd | src/algo/phj_asymm_radix_bw_reg.c:617-694 | no run is longer than the stores of all tasks and the steps of the queues allow |
| SecondPassQueues.NoWriterNoWork | src/algo/phj_asymm_radix_bw_reg.c:1448-1456 | without a writer nothing is ever partitioned |
| EndToEnd.ChunksAreTheRelation | src/algo/phj.c:1480-1490 | equal shares, with the rest for the last thread, give every tuple to exactly one thread |
| EndToEnd.ChunksAreEven | src/algo/phj.c:1480-1490 | every share but the last has the size of the relation divided by the threads, rounded down, and the last exceeds it by less than the number of threads |
| EndToEnd.ArraysAreLargeEnough | src/algo/phj.c:2495-2507 | a block for every cluster of both passes behind the tuples is exactly the room that the first pass needs |
| EndToEnd.FirstPassPlaces | src/algo/phj.c:258-359 | the first pass over the chunks of all threads, in any form, partitions the relation |
| EndToEnd.SecondPassPlaces | src/algo/phj.c:1344-1349 | the second pass, in any form, puts every first-pass cluster that became a task in place, whoever runs it and when |
| EndToEnd.SkewPassPlaces | src/algo/phj.c:1478-1560 | so does a pass of all threads over one big cluster |
| EndToEnd.SkewPassKeeps | src/algo/phj.c:1478-1560 | and it leaves every other sub-partition as it is |
| EndToEnd.SkewPassesPlace | src/algo/phj.c:1421-1560 | after the passes of all threads over the big clusters, in whatever order they are fetched, these clusters are in place |
| EndToEnd.StaysPlaced | src/algo/phj.c:1421-1560 | and so is what was in place before |
| JoinQueues.QueueIsTheJoin | src/algo/phj_asymm_radix.c:450-488 | the join queue, in the symmetric and in the asymmetric form, with and without skew handling, stands for the join of the two relations, summed over all first-pass clusters |
| JoinQueues.TheJoinIsRight | src/algo/phj.c:1821-1827 | whichever thread fetches which task in which order, what all threads add up are the totals of the nested-loop join |
| JoinPhase.RunKernel | src/algo/phj.c:1821-1827 | each kernel, on a table of the size that the code chooses, returns the join of its task where its exact condition holds |
| JoinPhase.TableIsTight | src/algo/phj.c:500 | the table of a kernel has room for all tuples of the task, and less than twice as much, above the radix bits of both passes |
| JoinPhase.RunTasks | src/algo/phj.c:1821-1827 | a thread that runs a kernel on the tasks that it fetches adds up what the results of the whole join are made of |
| EndToEnd.TwoPassJoinIsRight | src/algo/phj.c:1257-1642 | both passes over both relations and skew handling, in any form and under any schedules, and the join phase return the totals of the nested-loop join |
| EndToEnd.AsymmetricJoinIsRight | src/algo/phj_asymm_radix.c:1410-1460 | so does the join that partitions the build side twice and the probe side once |
| RegulatedJoin.SecondIsPass | src/algo/phj_asymm_radix_bw_reg.c:1432-1456 | the second pass through the two queues puts all its tasks in place and adds their join tasks |
| RegulatedJoin.RegulatedJoinIsRight | src/algo/phj_asymm_radix_bw_reg.c:1313-1456 | the bandwidth-regulated join, both first passes over shared buffers, the second pass through two queues and skew handling, returns the totals of the nested-loop join for every number of writers and every schedule |
| RegulatedJoin.RegulatedTasksFit | src/algo/phj_asymm_radix_bw_reg.c:1458-1459 | the tables of all its join tasks fit the memory of a thread |
| Witnesses.HroCountsPadding | src/algo/phj.c:964-982 | one build tuple with key 4 and one probe tuple with key 0: the vectorised kernel counts three matches, the join has none |
| Witnesses.LookupMissesDuplicate | src/algo/phj.c:650-668 | two build tuples and a probe tuple with key 1: the totals are not those of the join |
| Witnesses.PlainLookupNeverStops | src/algo/phj.c:655-658 | a table of one slot with key 1: the lookup of key 2 passes it for ever |
| Witnesses.LookupReadsNothing | src/algo/nphj.c:1258-1266 | a shared table with key 1: the lookup of key 2 comes back with nothing, which is then read |
| Witnesses.HroBufferTooSmall | src/algo/phj.c:905 | for 8 tuples the vectorised kernel clears 224 bytes of 128 |
| Witnesses.TaskIsLeft | src/algo/phj_asymm_radix_bw_reg.c:1448-1456 | one thread that may not write and one task: a run that ends with the task in the second queue and no join task |

## Left out

- Weak memory ordering, flushes, fences, non-temporal stores and persistence: a store is visible at once.
- The mutexes of the task queue: each operation is one step. `task_queue_copy_atomic`, which takes a slot under
  the queue mutex while other callers take slots under the allocation mutex, is not part of this model.
- Timing, performance counters, thread placement, memory allocation, file input, configuration and the drivers,
  except for the split into chunks, the hand-over of queues and the summation of results.
- `src/algo/eth.c` and the algorithms over index, shared or pointer relations: the same passes and kernels again.
- Skew handling with a single pass, and single-pass joins: the queues are swapped between phases there.
- TheJoinIsRight: adds up the totals of the nested-loop join of every task, which is what `JoinPhase.RunTasks`
  returns for the kernels under their conditions; that threads run kernels at the same time is covered by
  `JoinMemory.RegionsApart` and, for the pieces of one task and the histogram kernel, by `ReplicatedJoin`.
- ScJoin: needs room for all tuples in home buckets; when the rounded size is below the bucket capacity the
  code computes zero buckets.
- WithRing: needs a relation at least as long as the ring; the code does not check it.
- NextPow2IsLeast: is about exact numbers; the code rounds `log(x)/log(2)` up in floating point, which can give
  the next power of two where `x` is one already.
- The buffers of one thread are used for several second-pass tasks in the unregulated join; a task begins with
  buffers of any content, so what is left in them does not matter.
- LatchedChains.NeverStuck: assumes that memory for a new overflow bucket can be had; the numbers of new buckets
  come from one counter, where the code has one block allocator per thread (`SlotAllocator.GetSlot`).
- Prefetch instructions do nothing. Tuples have 16 bytes in `IntermediateBuffers` and `VectorProbe`.
- Random data generation, the toy benchmark queries, micro-benchmarks and plotting.
