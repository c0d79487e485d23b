# Verified model of the HSE storage engine's core protocols

HSE is a key-value storage engine built as a log-structured merge tree. Writes go to
kvmultisets in memory (c0), are ingested into the root of a tree per key-value store (cN),
and are spilled from the root to the leaves. This project models the parts that keep state
under concurrency and proves what they promise. `dafny verify dfyconfig.toml` checks it.

## What is modelled

**The cN tree.** `SpillProtocol` is the step system of root spills, without the stored data.
Each job walks the leaves from left to right; checking a leaf's generation, queueing,
popping, applying and bumping are separate steps, so jobs interleave between any two of them,
and splits, joins, compactions and trimming run beside them. `SpillInvariant` states what
every state keeps and `SpillTheorems` draws the conclusions over whole runs. `TreeContents`
adds the data: a kvset is a map from keys to values or tombstones, a node is a newest-first
list of kvsets, and the ingest history is kept as a reference. `TreeInvariant` states what
the data of every state of every run looks like, and `TreeTheorems` says, for every state of
every run and every key, exactly when a read of the tree agrees with a read of the history.

The source waits for its turn to delete the spilled kvsets from the root, but not for another
job that has popped one of its subspills and has not yet added it to the leaf. With steps
that fine two things can go wrong. A reader can miss a key, as the run in
`TreeEarlyRetirement` shows; `TreeRetirement` says exactly which keys a retirement keeps
readable. And a zspill can retire while its kvset is still in the root, so that the next spill
to retire finds that kvset where it expects its own, as the run in `TreeStrayRetirement` shows;
`TreeTheorems.RetiresOldest` says exactly when a spill finds its own. In both runs the claims
are those of the root selector. `TreeGuarded` shows that every read agrees with the history in
all runs in which a spill retires only once every leaf has it. That holds for all runs in
which no spill retires in the middle of a job's visit to a leaf. `TreeDrain` says what is left
in the root in these runs. `KvsetLaws` says what compaction, cutting and moving do to a list of
kvsets, and `TreeOrder` that in every run the lists are in order of age.

**c0 ingest.** `C0Ingest` is the step system of transactions, freezes and ingest workers:
workers merge their kvmultisets in parallel, value by value, then scan and extend LC in turn.
`C0IngestProof` says which ingest holds which value, `C0IngestLog` that a state records what the
clients did. `C0MergeLoop` is the merge loop itself,
`C0ValueSort` the sort of a key's values and the callback that emits them, `C0Switch` the
replacement of the active kvmultiset by one of many callers, and `C0Release` the order in
which kvmultisets reach cN and are released, with the waiting of a sync.

**c0 contents.** `C0ValueLists` and `C0Kvset` model the version lists and statistics of a
kvset, `C0Lookup` the read over all kvmultisets, `C0SeqnoOrder` the minting of sequence
numbers across a switch of kvmultisets, and `C0snrSet` and `C0snrClients` the reference-counted
transaction references.

**Scheduling.** `RunSelectors` and `LengthSelector` model the selection of kvsets to work on,
`TreeSamp` the space-amplification statistics, and `SampWatermarks` the watermark arithmetic.

## Model

| member | source | states |
|---|---|---|
| TreeTheorems.ReadIsExact | lib/cn/cn_tree.c:1034-1110 | in every state of every run of ingests, spills, zspills, retirements, compactions, splits, joins and trims, a key reads as in the list of all ingests, newest first, up to tombstone versus absent, if and only if the root has it, or no ingest that has left the root and is not in the key's leaf has it, or the newest of these reads as the leaf does |
| TreeGuarded.LookupMatchesIngests | lib/cn/cn_tree.c:1034-1110 | in every state of every run whose retirements wait until every leaf has the spill, each key reads as in the list of all ingests |
| TreeGuarded.LookupWithAtomicVisits | lib/cn/cn_tree.c:2370-2618 | the same for all runs in which no spill retires while a job is between its check of a leaf and the end of its drain loop |
| TreeGuarded.StepKeepsAll | lib/cn/cn_tree.c:1548-1624 | a guarded step keeps that no ingest that has left the root is missing from the leaf of one of its keys |
| TreeDrain.RootHoldsPending | lib/cn/cn_tree.c:1548-1624 | in every state of such a run, the kvsets of a spill are all in the root, at their place by age, until it retires or moves, and none of them is from then on |
| TreeOrder.ListsAreOrdered | lib/cn/move.c:82-116 | in every state of every run, with compactions, splits, joins and moves, each leaf and the root list their kvsets youngest first |
| TreeOrder.ApplyAdds | lib/cn/cn_tree.c:1738-1767 | adding a subspill changes one leaf, which gets nothing, or at its head one kvset with the generations of the spill's ingests, or the spill's own kvsets |
| TreeTheorems.LeafLogs | lib/cn/cn_tree.c:2501-2535 | in every state of every run, the subspills added to a leaf are 1, 2, 3, ..., each once, up to its generation, or one more just before the generation moves, and the leaf reads its keys as the ingests of these spills |
| TreeTheorems.ClaimedIsSuffix | lib/cn/csched_sp3_work.c:1085-1101 | in every state of every run, the claimed root kvsets are the oldest ones, and spill generations rise from oldest to newest |
| TreeTheorems.EarlierThanZspill | lib/cn/csched_sp3_work.c:173-182 | in every state of every run, the only spills before a zspill that are still to retire are zspills that have moved their kvsets |
| TreeTheorems.RetiresOldest | lib/cn/cn_tree.c:1548-1602 | in every state of every run, a retiring spill that is no zspill finds exactly its own kvsets at the old end of the root if and only if no root kvset is claimed by an earlier spill |
| TreeTheorems.DataIsThere | lib/cn/cn_tree.c:2209-2236 | in every state of every run, the data that an enabled protocol step needs is there, so the data never blocks a run |
| TreeRetirement.RetirementIsExact | lib/cn/cn_tree.c:1548-1624 | from any state of any run, a key reads correctly after a retirement if and only if the root keeps an entry, or no ingest that is then neither in the root nor in the leaf has one, or the newest of these entries reads as what the leaf has |
| TreeEarlyRetirement.RetirementLosesKey | lib/cn/cn_tree.c:2508-2535 | a run over two leaves, with claims as the selector makes them, after which the next retirement makes a stored value unreadable |
| TreeStrayRetirement.RetirementFindsStray | lib/cn/cn_tree.c:1548-1597 | a run over two leaves, with claims as the selector makes them, after which a retiring spill finds the kvset of an earlier zspill at the old end of the root and deletes it, so that a stored value becomes unreadable |
| TreeLookup.ReadsIffNotMissed | lib/cn/cn_tree.c:1034-1110 | the invariant makes root-then-leaf lookup agree with the whole history exactly for the keys that are not missed |
| TreeNodes.LookupKey | lib/cn/cn_tree.c:1034-1110 | the lookup loops compute the lookup that the theorems speak about |
| TreeNodes.SearchNode | lib/cn/cn_tree.c:1068-1089 | the loop over a node returns the entry of the newest kvset with the key, and none exactly if no kvset has it |
| TreeNodes.Node.Enqueue | lib/cn/cn_tree.c:137-154 | the walk inserts a subspill before the first later generation |
| TreeNodes.Node.Pop | lib/cn/cn_tree.c:156-174 | the head is taken exactly if it is the next generation, and nothing else changes |
| TreeNodes.Node.MoveFrom | lib/cn/move.c:82-148 | the in-place move leaves the merge by youth in the target, with adjusted compaction counts and the moved kvsets released, and takes exactly the moved kvsets from the source |
| TreeNodes.MovedKvsets | lib/cn/move.c:82-116 | the kvsets of that list are those of the move that the theorems speak about |
| TreeNodes.MovedCounts | lib/cn/move.c:89-109 | compaction counts that do not fall from newer to older kvsets still do not after a move, whatever the counts of the moved kvsets |
| TreeNodes.MovedItems | lib/cn/move.c:82-148 | the kvsets of the target stay as they are, in their order; the moved ones keep theirs, are free, and keep their counts unless the neighbours do not allow it |
| Kvsets.FindMoved | lib/cn/move.c:154-189 | joining nodes with disjoint keys keeps what each key reads |
| Kvsets.YoungerMovesToHead | lib/cn/move.c:82-116 | kvsets younger than the whole target end up at its head, in order |
| Kvsets.MovedMembers | lib/cn/move.c:82-116 | a move neither loses nor invents kvsets |
| Kvsets.CompactionPreservesLookup | lib/cn/cn_tree.c:1435-1439 | a contiguous run is replaced by one kvset with the newest entry of each key and the run's generations, without tombstones if nothing older is left, or by nothing if no entry remains; no read changes |
| Kvsets.CompactedExactly | lib/cn/cn_tree.c:1486-1499 | that kvset has a key exactly if the run has it, and not as a tombstone to be dropped, and then with the run's newest entry; there is none exactly if no key remains |
| Kvsets.FindExactly | lib/cn/cn_tree.c:1068-1089 | a search finds the entry of the newest kvset with the key, and nothing exactly if none has it |
| KvsetLaws.MovedPositions | lib/cn/move.c:82-116 | a move interleaves two lists: each keeps its order and together they fill the result |
| KvsetLaws.MoveOrder | lib/cn/move.c:82-116 | two lists in order of age are moved into one in order of age |
| KvsetLaws.CompactedOrder | lib/cn/cn_tree.c:1486-1499 | a list in order of age stays so when a run is compacted |
| KvsetLaws.StandsForNewest | lib/cn/cn_tree.c:1486-1499 | the compacted kvset has the largest dgen and the smallest oldest generation of its run |
| KvsetLaws.CutExactly | lib/cn/cn_tree.c:1646-1689 | a split half has, in order, one kvset for each kvset with a key in the range, with exactly its entries there and its generations |
| KvsetLaws.NewerExactly | lib/cn/spill.c:189-502 | a subspill is built from exactly the inputs younger than the leaf's newest kvset, in order |
| Kvsets.FindCut | lib/cn/cn_tree.c:1646-1689 | the halves of a split read, each on its range, as the node did |
| TreeRootSteps.IngestKeepsData | lib/cn/cn_tree.c:2756-2792 | an ingest keeps the data invariant |
| TreeRootSteps.ClaimKeepsData | lib/cn/csched_sp3_work.c:1040-1144 | claiming a run keeps the data invariant, and its kvsets are the next ingests |
| TreeRootSteps.MarkFollowsRuns | lib/cn/csched_sp3_work.c:160-184 | the oldest unclaimed kvset is the one after the last claimed run, and a zspill starts only when nothing is claimed |
| TreeRootSteps.RetireKeepsData | lib/cn/cn_tree.c:1548-1624 | any retirement keeps the data invariant |
| TreeLeafSteps.BeginKeepsData | lib/cn/cn_tree.c:2333-2368 | starting a job, with the pin of a zspill, keeps the data invariant |
| TreeLeafSteps.EnterKeepsData | lib/cn/cn_tree.c:2399-2470 | moving on to a leaf keeps the data invariant |
| TreeLeafSteps.BuiltData | lib/cn/spill.c:189-502 | the subspill built for a leaf is the newest-wins merge of the job's inputs restricted to the leaf's range; the skip of kvsets not newer than the leaf drops nothing |
| TreeLeafSteps.CheckKeepsData | lib/cn/cn_tree.c:2470-2508 | building a subspill keeps the data invariant |
| TreeApplySteps.AddedReads | lib/cn/cn_tree.c:1738-1767 | a leaf with its next subspill added reads as the ingests of one spill more |
| TreeApplySteps.ApplyKeepsData | lib/cn/cn_tree.c:2209-2236 | adding a subspill, or moving a zspill's kvsets, keeps the data invariant |
| TreeFrames.BumpKeepsData | lib/cn/cn_tree.c:2508-2529 | moving a leaf's generation keeps the data invariant |
| TreeShapeSteps.CompactEndKeepsData | lib/cn/cn_tree.c:1472-1517 | installing a compaction keeps the data invariant, with subspills added while it ran, and puts in place of the claimed run the one kvset that stands for it, or nothing |
| TreeShapeSteps.CompactEndReplacesRun | lib/cn/cn_tree.c:1472-1517 | the kvsets before and after the run, every other leaf and the root stay as they were |
| TreeShapeSteps.SplitKeepsData | lib/cn/cn_tree.c:1629-1736 | installing a split, two-sided or one-sided, keeps the data invariant while jobs are elsewhere |
| TreeShapeSteps.JoinKeepsData | lib/cn/move.c:154-189 | installing a join keeps the data invariant |
| TreeShapeSteps.TrimKeepsData | lib/cn/csched_sp3.c:1967-2001 | removing an empty rightmost leaf keeps the data invariant |
| SpillTheorems.StepKeepsInv | lib/cn/cn_tree.c:2370-2618 | every step of spills, splits, joins, compactions, reaping and trimming keeps the protocol invariant |
| SpillTheorems.AdjacentQuietLeavesAgree | lib/cn/csched_sp3_work.c:629-632 | adjacent leaves without spill references have the same generation |
| SpillTheorems.RunningSplitIsAlone | lib/cn/csched_sp3_work.c:473-515 | while a split runs, no job visits or pins the leaf and no subspill is queued there |
| SpillTheorems.RunningJoinIsAlone | lib/cn/csched_sp3_work.c:591-651 | the same for both leaves of a running join, which have the same generation |
| SpillTheorems.AppliedInOrder | lib/cn/cn_tree.c:2501-2535 | a subspill is applied only when it is next, by one job at a time, and every earlier spill has passed the leaf |
| SpillTheorems.GenerationMovesByOne | lib/cn/cn_tree.c:2508-2529 | in every step of every run, a leaf's generation moves only by the bump of the subspill just added to it, by one, and splits, joins and trims keep it |
| SpillTheorems.NoSubspillStranded | lib/cn/cn_tree.c:156-174 | whenever the head of a list is next, some job at the leaf is about to pop |
| SpillTheorems.WaitsExactly | lib/cn/cn_tree.c:2408-2442 | in every run, a job about to move on is let into the next leaf exactly if no split and no join to the right is pending there, or it is the zspill that pins the leaf, or a subspill of a later spill is queued there |
| SpillTheorems.LackingSpillEnters | lib/cn/cn_tree.c:2408-2414 | so the spill that a leaf with queued subspills lacks is never held up before that leaf |
| SpillTheorems.SpillsBounded | lib/cn/csched_sp3_work.c:1037-1041 | at most three spills are claimed and not retired, and another can be claimed exactly if there are fewer |
| SpillTheorems.RetireAfterVisits | lib/cn/cn_tree.c:1519-1546 | when a spill's turn to retire comes and no job is in the middle of a visit, every leaf has it |
| SpillTheorems.FanoutBounded | lib/cn/cn_tree.c:1691-1705 | the fanout never exceeds its limit and the split counter counts pending and running splits and joins |
| SpillTheorems.DropsAreHeld | lib/cn/cn_tree.c:2442-2458 | a job at a leaf, a popped subspill and a pin each hold a reference, so a counter never goes below zero |
| SpillOrderProof.EnqueueKeepsOrder | lib/cn/cn_tree.c:2514-2518 | queueing keeps the order invariant although the generation may have moved since the check |
| SpillOrderProof.PopKeepsOrder | lib/cn/cn_tree.c:2521-2535 | popping keeps the order invariant |
| RootClaims.SelectedRunIsClaimable | lib/cn/csched_sp3_work.c:141-276 | a run chosen by the root selector is one that the spill protocol lets a job claim; a zspill's kvsets lie in one leaf, an ordinary spill's kvsets each in none |
| RunSelectors.SelectRoot | lib/cn/csched_sp3_work.c:141-276 | a root run starts at the oldest kvset not busy, is contiguous, in bounds and unclaimed; if that kvset can be moved, a zspill of the longest run bound for its leaf, up to the minimal length, is chosen exactly if nothing older is left and the leaf is not busy; otherwise a spill is chosen exactly if one is due, of exactly as many kvsets as the limits give |
| RunSelectors.SpillsWhenDue | lib/cn/csched_sp3_work.c:251-275 | with thresholds in order, a run is spilled if and only if it clears the way for a movable kvset, or has the minimal length and either a vblock of data or the maximal length; what a long run leaves behind can be spilled, too |
| RunSelectors.SelectIdleRoot | lib/cn/csched_sp3_work.c:296-302 | the same exact choice for an idle root, where one kvset is enough |
| RunSelectors.SelectIdle | lib/cn/csched_sp3_work.c:278-409 | which kvsets of an idle leaf are compacted, exactly: all without keys; else those down from the newest one with tombstones if most keys are tombstones; else the newest below the key limit if there are fewer vblocks than kvsets; else all if they fit a vblock; else those down from the newest one with prefix tombstones |
| RunSelectors.SelectGarbage | lib/cn/csched_sp3_work.c:656-690 | the idle choice if there is one, else the oldest kvsets up to the limit, so that there is a run for every non-empty node |
| RunSelectors.SelectScatter | lib/cn/csched_sp3_work.c:692-744 | the run from the oldest scattered kvset to the newest, within the limit, with the next older kvset if that is small; there is none exactly if nothing is scattered |
| LengthSelector.WalkLength | lib/cn/csched_sp3_work.c:806-834 | the walk ends with the oldest run without a break that has the minimal length, extended up to the limit, or with the newest run if there is none; it knows its lengths and whether the run before it is one short |
| LengthSelector.WalkFinds | lib/cn/csched_sp3_work.c:806-834 | the walk finds a run of the minimal length if and only if there is one, and then the oldest |
| LengthSelector.SelectLength | lib/cn/csched_sp3_work.c:746-910 | a long leaf is made shorter by the oldest run of the minimal length, together with the run before it if that is one short, if and only if there is such a run; otherwise by all of it if that fits a vblock, or by its newest small kvsets if it is too long |
| TreeSamp.Tree.constructor | lib/cn/cn_tree.c:518-532 | statistics of a loaded tree are current |
| TreeSamp.Tree.UpdateIngest | lib/cn/cn_tree.c:492-508 | counting only the new head agrees with a recount if its generation is above all counted, and otherwise leaves the node as it was; the totals are the sum over nodes |
| TreeSamp.Tree.UpdateCompact | lib/cn/cn_tree.c:468-486 | a recount makes the node current, whatever its statistics were, and the totals the sum over nodes |
| TreeSamp.Tree.InstallSplit | lib/cn/cn_tree.c:1629-1714 | the totals stay the sum over nodes; statistics are current if both halves have kvsets; with an empty left half the node keeps its old statistics, with an empty right half it does too and the totals count the moved data twice |
| TreeSamp.Tree.InstallJoin | lib/cn/move.c:112-127 | after a join the statistics are current and the totals are the sum over the remaining nodes |
| TreeSamp.Tree.RemoveEmpty | lib/cn/csched_sp3.c:1967-2001 | a node without kvsets leaves the tree without a change of the totals |
| TreeSamp.Recount | lib/cn/cn_tree.c:362-467 | clearing and counting every kvset gives each sum, the union of the sketches and the newest generation; a leaf's good space is its header space and the estimates for keys and values scaled by the share of distinct keys, but at most what is allocated |
| TreeSamp.AllGood | lib/cn/cn_tree.c:430-458 | without repeated keys, and with estimates not below what is allocated, all leaf data is good |
| TreeSamp.FewerKeysLessGood | lib/cn/cn_tree.c:401-458 | with monotone estimates, fewer distinct keys never make more of the same data good |
| TreeSamp.Tree.ValidCounts | lib/cn/cn_tree.c:468-508 | valid statistics are, node by node and field by field, what counting the kvsets gives, and each total is the sum over the nodes |
| TreeSamp.Tree.GarbageIsDefined | lib/cn/cn_metrics.h:394-403 | good data never exceeds allocated data, so the garbage percentage is defined, is the garbage share rounded down, and is at most 100 percent |
| SampWatermarks.RangeExact | lib/cn/csched_sp3.c:541-543 | the range does not go below zero if and only if the maximum and the leaf percentage reach 200 together |
| SampWatermarks.WatermarksInOrder | lib/cn/csched_sp3.c:512-549 | then, with the low mark not above the high one, load, low mark, high mark and maximum are in this order despite truncation |
| SampWatermarks.MarksAreExact | lib/cn/csched_sp3.c:512-549 | each mark is the rounded quotient for its own percentage |
| SampWatermarks.MarksFollowPercentages | lib/cn/csched_sp3.c:512-549 | a mark rises with its own percentage, does not depend on the other one, and is the load at zero percent |
| SampWatermarks.NoWrapAround | lib/cn/csched_sp3.c:512-549 | every product stays below 2^32 and no subtraction goes below zero, the range exactly if the two inputs reach 200 |
| SampWatermarks.ClampsAreNotEnough | lib/cn/csched_sp3.c:159-166 | clamped inputs for which the range goes below zero |
| SampWatermarks.Scheduler.Refresh | lib/cn/csched_sp3.c:449-555 | a parameter that changed is taken over or moved to the nearest bound, others are left alone; the stored marks are sound exactly if the maximum is not 0 and the two inputs reach 200 |
| C0IngestProof.StepKeepsInv | lib/c0/c0sk_internal.c:570-700 | every step of clients, freezes, workers and LC garbage collection keeps the ingest invariant |
| C0IngestProof.IngestHoldsWhatLands | lib/c0/c0sk_internal.c:408-546 | a finished ingest holds exactly the values whose number is in its window and was not when their own kvmultiset was merged |
| C0IngestProof.IngestedExactly | lib/c0/c0_kvmultiset.c:634-639 | a value is in its target ingest, and in another if and only if its commit number is a freeze number, that window begins there, and the value came through LC |
| C0IngestProof.IngestedOnceTogether | lib/c0/c0sk_internal.c:489-500 | if no commit has a freeze number, all values of a committed transaction are in the same one ingest |
| C0IngestProof.OnlyDefinedIsPicked | lib/c0/c0sk_internal.c:475-500 | no ingest ever picks a value of an aborted or open transaction |
| C0IngestProof.MergeVerdict | lib/c0/c0sk_internal.c:468-514 | no value of a kvmultiset is before its window, and what is not ready is parked |
| C0IngestLog.RunIsRecorded | lib/kvdb/kvdb_ctxn.c:420-615 | in every state of every run, each transaction is open, minted, committed with its minted number or aborted as the steps of the run made it, each value has the kvmultiset and reference it was put with, and the freezes are those of the run |
| C0MergeLoop.SplitVals | lib/c0/c0sk_internal.c:467-515 | each destination gets exactly the versions bound there, each as often as the list has it, at rising indices |
| C0MergeLoop.MergeLoop | lib/c0/c0sk_internal.c:408-546 | each key with a version bound for a destination gets one group there, in key order, holding exactly those versions in heap order; all groups and the dropped versions together are the versions on the heap |
| C0ValueSort.Pass | lib/c0/c0sk_internal.c:253-287 | one pass permutes the list, keeps equal numbers in order, and either finds it sorted or makes it smaller in a well-founded order |
| C0ValueSort.SortVals | lib/c0/c0sk_internal.c:235-289 | the passes end, with a permutation in which each class falls, and a sorted list is left alone |
| C0ValueSort.SpliceIsLess | lib/c0/c0sk_internal.c:267-276 | a splice removes an inversion of its class or a crossing of the classes, which is why the passes end |
| C0ValueSort.EmitVals | lib/c0/c0sk_internal.c:336-367 | the callback emits each class strictly falling, one value per number, the first in the list |
| C0ValueSort.IngestKey | lib/c0/c0sk_internal.c:299-374 | sorting and emitting together: the same about the unsorted list |
| C0Switch.StepKeepsInv | lib/c0/c0sk_internal.c:1062-1120 | every step of callers that find, lead, create, install, announce and resign keeps the invariant |
| C0Switch.InstallFindsActive | lib/c0/c0sk_internal.c:178-198 | in every run the leader finds active the kvmultiset it set out to replace, so an installation never loses a race |
| C0Switch.ReturnsAfterSwitch | lib/c0/c0sk_internal.c:1062-1120 | no caller is ever told to try again, and one that returns without error has had its kvmultiset replaced |
| C0Release.IngestedInOrder | lib/c0/c0sk_internal.c:725-765 | kvmultisets reach cN in strictly increasing generation |
| C0Release.NothingAfterFailure | lib/c0/c0sk_internal.c:735-753 | a kvmultiset whose ingest failed and every newer one stays out of cN |
| C0Release.HealthIsExact | lib/c0/c0sk_internal.c:725-765 | the engine is in good health exactly as long as no ingest has failed, and then everything released is in cN |
| C0Release.ReleasedHaveLeft | lib/c0/c0sk_internal.c:942-974 | the list holds exactly the generations above the release generation |
| C0Release.SyncReturnsAfterIngest | lib/c0/c0sk.c:692-751 | when a sync may return, nothing up to its generation is in the list, and in good health all of it is in cN |
| C0SeqnoOrder.NewerIsAbove | lib/c0/c0_kvset.c:168-217 | every number minted for a newer kvmultiset is above every number minted for an older one, with any puts and at most one prefix delete across each switch |
| C0SeqnoOrder.OrderedIffOneStraggler | lib/c0/c0sk_internal.c:130-199 | from any state so reached, the next switch keeps the numbers in order, whatever the operations do after it, if and only if at most one prefix delete is under way |
| C0SeqnoOrder.TwoStragglersCollide | lib/c0/c0sk_internal.c:130-199 | with two prefix deletes under way at the switch, loaded or not, a run follows in which old and new kvmultiset mint the same number |
| C0SeqnoOrder.StragglersFromStart | lib/c0/c0sk_internal.c:130-199 | such a run from the start |
| C0ValueLists.InsertKeepsOrder | lib/c0/c0_kvset.c:311-362 | any version put by a permitted writer keeps resolved numbers falling, references distinct and an active transaction first |
| C0ValueLists.InsertPuts | lib/c0/c0_kvset.c:311-362 | a put takes the place of the version with its reference, exactly if there is one, and is added otherwise; all other versions stay, in their order |
| C0ValueLists.ReadAfterPut | lib/c0/c0_kvset.c:397-432 | after a put with number n, a reader at n finds exactly what was put, if and only if no transaction's version with that number is ahead of its place |
| C0ValueLists.ShadowedPut | lib/c0/c0_kvset.c:322-341 | a list in which one is |
| C0ValueLists.ReadsOwnPut | lib/c0/c0_kvset.c:397-432 | a transaction reads exactly what it put |
| C0ValueLists.CommittedIsRead | lib/c0/c0_kvset.c:397-432 | once a transaction has committed with a number not below the others, readers from that number on find its version |
| C0ValueLists.UncommittedIsHidden | lib/c0/c0_kvset.c:397-432 | a version of another transaction that has not committed is never found |
| C0ValueLists.CommitKeepsOrder | lib/c0/c0_kvset.c:311-321 | a commit keeps the order if its number is not below one already in the list |
| C0ValueLists.OrdinalsFallStrictly | lib/c0/c0_kvset.c:322-351 | ordinal versions are strictly ordered |
| C0ValueLists.FindVal | lib/c0/c0_kvset.c:397-432 | the search returns the reader's own write, or else the first of the closest visible versions, or none if none is visible |
| C0ValueLists.ClosestIsLargest | lib/c0/c0_kvset.c:397-432 | unless the reader's transaction has resolved, closest means the largest visible number |
| C0Kvset.Locate | lib/c0/c0_kvset.c:322-341 | the walk stops at the version with the same reference or the first smaller one |
| C0Kvset.Kvset.Insert | lib/c0/c0_kvset.c:257-287 | the first version of a key keeps the lists in order and the statistics equal to a recount |
| C0Kvset.Kvset.ReplaceOrAdd | lib/c0/c0_kvset.c:289-388 | a further version takes the place of the one with its reference, which is returned, exactly if there is one, and is added to the ordered list otherwise; all other versions stay, in their order, and the statistics are what a recount gives |
| C0Kvset.TombsCounted | lib/c0/c0_kvset.c:257-388 | the tombstone count is the number of versions that are tombstones |
| C0Kvset.TxnEndKeepsLists | lib/c0/c0_kvset.c:311-321 | ends of transactions keep every list in order |
| C0Lookup.SearchList | lib/c0/c0_kvset.c:691-720 | the search of one list finds the newest visible version |
| C0Lookup.Get | lib/c0/c0sk.c:288-360 | the loop over kvmultisets answers with the newest visible version of all, unless a newer visible prefix tombstone exists, which answers then; without a visible version, a visible prefix tombstone or nothing |
| C0Lookup.FlatGetIsAnswer | lib/c0/c0sk.c:288-360 | so does one flat multi-version map |
| C0Lookup.HitsNewest | lib/c0/c0sk.c:317-346 | the newest kvmultiset with a visible version has the newest one |
| C0Lookup.PtombsSeen | lib/c0/c0sk.c:324-334 | prefix tombstones of older kvmultisets cannot hide it |
| C0snrSet.Pool.Alloc | lib/c0/c0snr_set.c:226-268 | an entry handed out had no references, and none is handed out only when every bucket is exhausted |
| C0snrSet.Pool.AllocFrom | lib/c0/c0snr_set.c:103-123 | the entry is the head of the bucket's free list, or if that is empty the first one never used; there is none exactly if both are exhausted |
| C0snrSet.Pool.GetRef | lib/c0/c0snr_set.c:298-319 | a reference is counted, within a generation only the first |
| C0snrSet.Pool.DropRef | lib/c0/c0snr_set.c:321-338 | the last reference puts the entry on its free list |
| C0snrSet.Pool.DropRefv | lib/c0/c0snr_set.c:340-388 | a bulk drop gives up exactly the references named and frees each entry once |
| C0snrSet.HeldDeterminesFree | lib/c0/c0snr_set.c:340-388 | the references held determine the free entries, so a bulk drop frees what single drops would |
| C0snrClients.C0.Install | lib/c0/c0sk_internal.c:178-193 | a new kvmultiset has the next generation and no slots in use |
| C0snrClients.C0.Begin | lib/kvdb/kvdb_ctxn.c:339-345 | the entry a transaction gets belongs to no other transaction, slot or value, and there is none only if the pool is exhausted |
| C0snrClients.C0.Put | lib/c0/c0sk_internal.c:1236-1285 | after a successful write the kvmultiset has a slot with the entry, so the entry stays as long as the kvmultiset; only the first one there takes a reference, and a failed one leaves an empty slot |
| C0snrClients.C0.End | lib/c0/c0snr_set.c:270-286 | the end of a transaction gives up its reference and no other |
| C0snrClients.C0.LcAdd | lib/lc/lc.c:284-286 | a value added to LC takes a reference of its own |
| C0snrClients.C0.LcCollect | lib/lc/lc.c:1249-1290 | garbage collection gives up the references of the values it removes |
| C0snrClients.C0.Destroy | lib/c0/c0_kvmultiset.c:854-873 | destroying a kvmultiset gives up the references of its slots |
| C0snrClients.C0.CountsHolders | lib/c0/c0snr_set.c:103-130 | an entry's counter is the number of transactions, slots and LC values that hold it; an entry is on its bucket's free list, once, exactly if it was used and has no holder |

## Left out

- Command line tools, bindings, JSON and REST handlers, logging and performance counters: no protocol state.
- Block, journal and mblock I/O, kvset builders and readers, bloom filters: a kvset is a map, and building one is newest-wins merging.
- Several versions of a key and sequence-number horizons inside cN: a cN kvset holds one entry per key, the newest of its ingest.
- Prefix tombstones inside cN: their propagation is in code this model does not cover.
- Failure paths of spills, splits and joins, cancellation and shutdown: runs of the tree model are free of failures.
- Progress: no claim that a waiting job, worker or sync ever continues.
- Waiting is a disabled step, and an update under the tree lock or a read-copy-update section is one step.
- TreeGuarded.LookupMatchesIngests: requires the guard on retirement, because without it the statement is false (TreeEarlyRetirement.RetirementLosesKey); for all runs TreeTheorems.ReadIsExact gives the condition.
- TreeTheorems.ReadIsExact: after a retirement has deleted the kvset of another spill, which the source's assertions are there to rule out, the model goes on as if a later move still had that kvset's data.
- The removal of the spilled kvsets from the root and the increment of the root's generation, which the source does one after the other, are one step.
- Trimming of the rightmost leaf is modelled only for a leaf that is neither being split nor joined.
- Timers, idle detection, throttling, split cool-down and the choice among work types: which step comes next is arbitrary.
- TreeNodes.Node.MoveFrom: does not model the rule and the node number that cn_move records in a moved kvset, nor a failed commit to the metadata log.
- TreeSamp.Tree.UpdateIngest: does not model 64-bit wrap-around of the sums.
- RunSelectors.SpillsWhenDue: requires a minimal run length of at least one and not above the maximal one, which the scheduler's clamps ensure (lib/cn/csched_sp3.c:587-591).
- LengthSelector.SelectLength: states the exact choice for a minimal length not above the maximal one, which the scheduler's clamps ensure (lib/cn/csched_sp3.c:631-635).
- RunSelectors.SelectIdle: computes with integers; the source's unsigned differences wrap around if a node's counts are below those of its kvsets.
- C0ValueLists.CommittedIsRead: requires, as C0ValueLists.CommitKeepsOrder does, that the commit number is not below one already in the list.
- Routing by edge key is a function, not the route map's red-black tree; keys are real numbers in place of byte strings.
- The bonsai tree that finds a key's version list: the lists are kept in a sequence.
- C0Release.SyncReturnsAfterIngest: is about syncs that wait; an asynchronous sync, one on a store that allows no ingest and one whose flush fails return at once. The flush is never told to try again (C0Switch.ReturnsAfterSwitch).
- C0SeqnoOrder.NewerIsAbove: requires at most one prefix delete under way at each switch, which is exact (C0SeqnoOrder.OrderedIffOneStraggler).
- C0ValueLists.InsertKeepsOrder: relies on write-collision detection for at most one active writer per key, as the source's comment does.
- C0IngestProof.IngestedOnceTogether: assumes that a commit that is on its way at or below a freeze is published before the worker of that freeze starts to merge, which the source waits for.
- Memory size, tree height and longest-list statistics of a c0 kvset.
- Cursors of c0 and cN, capped trees, and replay of the write-ahead log.
