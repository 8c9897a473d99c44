# Verified models of the training and data tools

A Dafny model of the parts of this repository whose correctness is least visible from the code, with proofs of what they
are for. `dafny verify dfyconfig.toml` checks everything.

* **Activation offloading.** `Offload.dfy` states each step of the handler as a function of its state,
  `OffloadHandler.dfy` is the handler as a class whose methods refine those steps, `OffloadRuns.dfy` takes every run that
  autograd can produce, over any number of passes, and `OffloadSafety.dfy` adds residency and the order of device
  actions. Streams are logs of work and waits (`StreamOrder.dfy`), tensors are a storage key, flat contents and a shape.
  Over runs, tensors of one group with the same key are assumed to have the same contents; `OffloadSharing.dfy` says what
  happens otherwise. `OffloadOnce.dfy` counts the copies of each group, `OffloadTimeline.dfy` compares what is enqueued
  with what happens to the tensors, `OffloadLedger.dfy` keeps the books of a run from its operations alone, and
  `OffloadPass.dfy` shows that every configuration has a whole pass.
* **Indexed dataset.** Builder, writer thread and reader, with every interleaving of producer and worker. Pickling is any
  pair of functions that are inverse on the items added; pickles are not empty.
* **Packing.** Worker processes and collector with every order of arrival, and the streaming packer with its pool.
  `split_list` may cut anywhere, the bin packer may be any that partitions its rows.
* **Geocode cache.** The normalisation of addresses, for any lower-casing that is idempotent, spells every character as
  one or more and leaves white space and commas alone, as Unicode's does; and processes that acquire, read, replace,
  adopt, release or crash in any order, with readers that take no lock. Reads of the file succeed.
* **GeoGRPO scheduler.** Buckets, order within a domain, interleaving of domains. The random generator is unconstrained:
  a shuffle is any permutation, a weighted choice any bucket of positive weight.
* **Tool calls.** Printers and parsers of three templates. A non-greedy group is the text up to the first closing tag.
  Values are the rendered texts, dictionaries are lists of pairs in insertion order.
* **Statistics and distribution.** The rank statistic by bisection, ranks by sorting twice, sharded sampling, the
  dispatcher, the check of saved generations, and the benchmark's GPU scheduler.

## Model

| member | source | states |
|---|---|---|
| OffloadWindows.BuildWindowMap | swift/callbacks/activation_cpu_offload.py:280-289 | the constructor's loop, with its running correction, fills the map with the balanced closed form `q*(i+1) + min(i+1, r) - 1`, on exactly the keys below the number of offloaded groups |
| OffloadWindows.WindowGaps | swift/callbacks/activation_cpu_offload.py:280-289 | the windows are balanced: `q` commits apart, or `q + 1` for the first `r` of them |
| OffloadWindows.WindowSlackGrows | swift/callbacks/activation_cpu_offload.py:280-289 | windows are strictly increasing: from `i` to `j` they move at least `j - i` layers |
| OffloadWindows.WindowLast | swift/callbacks/activation_cpu_offload.py:280-289 | the last window is the last layer |
| OffloadWindows.WindowAfterGroup | swift/callbacks/activation_cpu_offload.py:280-289 | every group's window comes no earlier than the group; it comes strictly after all its pushes exactly when some group is never offloaded |
| OffloadWindows.WindowsBeforeIsPrefix | swift/callbacks/activation_cpu_offload.py:362-377 | the windows already passed at a commit are a prefix, so one counter describes them |
| OffloadWindows.WindowsBeforeEnds | swift/callbacks/activation_cpu_offload.py:362-427 | a pass starts with no window passed and ends with all of them passed |
| StreamOrder.KnownIsHappensBefore | swift/callbacks/activation_cpu_offload.py:357-365 | what a stream is ordered after, through issue order and transitive `wait_stream` calls, is exactly what its vector of known positions says; both directions |
| OffloadRuns.PushKeeps | swift/callbacks/activation_cpu_offload.py:295-315 | a legal push succeeds and keeps the handler's invariant |
| OffloadLedger.PushTakesOver | swift/callbacks/activation_cpu_offload.py:303-315 | in every state of the invariant a push that is to be offloaded returns the next tag of the group, one not in use, and leaves the tensor under it on the device, buffered exactly if the group is one of those to be offloaded; nothing else changes |
| OffloadLedger.PushHandsBack | swift/callbacks/activation_cpu_offload.py:303-315 | a push that is not to be offloaded returns the tensor and changes nothing |
| OffloadRuns.CommitForwardKeeps | swift/callbacks/activation_cpu_offload.py:351-384 | a forward commit looks up no missing window, fails no assertion, and keeps the invariant |
| OffloadRuns.CommitBackwardKeeps | swift/callbacks/activation_cpu_offload.py:386-427 | a backward commit looks up no missing window, reloads only groups that were offloaded, and keeps the invariant |
| OffloadRuns.PopKeeps | swift/callbacks/activation_cpu_offload.py:317-328 | a pop autograd can make finds its tag on the device, hands back what was pushed under it, and keeps the invariant |
| OffloadRuns.RunKeeps | swift/callbacks/activation_cpu_offload.py:295-427 | no step of any run fails, over any number of passes |
| OffloadRuns.OffloadIsTransparent | swift/callbacks/activation_cpu_offload.py:295-427 | in every run, over any number of passes, no assertion or lookup fails and every pop returns the elements and the shape pushed under its tag |
| OffloadLedger.RunFollowsLedger | swift/callbacks/activation_cpu_offload.py:295-427 | in every run current group, tensor count and the tags in use are those of a ledger kept from the list of operations alone |
| OffloadLedger.PushedComesBack | swift/callbacks/activation_cpu_offload.py:295-427 | every tensor that the operations pushed to be offloaded and did not pop comes back with its elements and shape once the backward pass reaches its group |
| OffloadLedger.PushIsTagged | swift/callbacks/activation_cpu_offload.py:303-315 | a push in any reachable state is taken over under the ledger's next tag |
| OffloadPass.WholePassIsLegal | swift/callbacks/activation_cpu_offload.py:295-427 | for every configuration there is a legal run of a whole pass in which every layer saves a tensor, all live at the turn |
| OffloadTimeline.StepIsTold | swift/callbacks/activation_cpu_offload.py:295-427 | every step enqueues, tensor by tensor, one production for a new tag, one use for a closed one, one copy for a change of sides, and a release for a buffer given up |
| OffloadTimeline.ForwardWaitsAtWindows | swift/callbacks/activation_cpu_offload.py:351-377 | a forward commit makes the compute stream wait once if it is at a window, and not otherwise |
| OffloadTimeline.BackwardWaitsAtWindows | swift/callbacks/activation_cpu_offload.py:405-427 | a backward commit makes it wait once where a window is passed, and once more in front of group 0 |
| OffloadTimeline.NoWaitsBetween | swift/callbacks/activation_cpu_offload.py:295-328 | pushes and pops make no stream wait |
| OffloadRuns.PassEndsClean | swift/callbacks/activation_cpu_offload.py:405-427 | after a pass with all tags popped every map and counter is back at its initial value, so tags can be reused |
| OffloadRuns.CountersFollowWindows | swift/callbacks/activation_cpu_offload.py:362-427 | the group counter equals the number of windows passed, forward and backward, and the groups with a host copy are exactly those below it going backward |
| OffloadOnce.StepAccounts | swift/callbacks/activation_cpu_offload.py:330-427 | every step enqueues exactly one copy out per group it adds to the host and one copy in per group it drops |
| OffloadOnce.NoGroupTwice | swift/callbacks/activation_cpu_offload.py:351-427 | at every moment of every run no group was copied out, or in, more than once since its pass began, and the groups out and not back are those with a host copy |
| OffloadOnce.EachGroupOnce | swift/callbacks/activation_cpu_offload.py:351-427 | over every whole pass of every run each offloaded group is copied out exactly once and back in exactly once, and no other group at all |
| OffloadSharing.OffloadedIsOnHost | swift/callbacks/activation_cpu_offload.py:330-349 | a bulk offload leaves under every tag of the group its key and shape, and one copy per key |
| OffloadSharing.OthersLeaveOnHost | swift/callbacks/activation_cpu_offload.py:295-328 | pushes for other groups and pops leave that as it is |
| OffloadSharing.OtherCopiesLeaveOnHost | swift/callbacks/activation_cpu_offload.py:330-403 | and so do the copies of other groups, in either direction |
| OffloadSharing.ReloadSucceedsIff | swift/callbacks/activation_cpu_offload.py:387-403 | whatever tensors share a key: the reload of a group succeeds exactly when every kept copy fits the shapes it is viewed with |
| OffloadSharing.PopIsFaithfulIff | swift/callbacks/activation_cpu_offload.py:330-403 | after it a pop returns the pushed value exactly when the pushed elements are those kept under its key |
| OffloadSharing.GroupIsFaithfulIff | swift/callbacks/activation_cpu_offload.py:330-403 | a group of well-formed tensors comes back as it was pushed exactly when its tensors that share a key hold the same elements |
| OffloadSharing.SharedKeyRun | swift/callbacks/activation_cpu_offload.py:330-403 | a whole run with two tensors of one key and size: both come back with the elements of one of them, so both are right only if they agree |
| OffloadSharing.TransposeIsConfused | swift/callbacks/activation_cpu_offload.py:30-32 | a tensor and its transpose, saved in one group, share a key: one comes back with its elements in the wrong order |
| OffloadSafety.ResidencyBound | swift/callbacks/activation_cpu_offload.py:531-537 | with fewer offloaded groups than layers, at most `layers - groups + 1` groups hold device tensors, if every group is popped before the next backward commit |
| OffloadSafety.AtMostTwoGroupsResident | swift/callbacks/activation_cpu_offload.py:531-574 | the documented bound of two groups, for the configuration the code builds |
| OffloadSafety.RunsAreStreamSafe | swift/callbacks/activation_cpu_offload.py:351-427 | in every run the device may reorder no conflicting actions: copy out after production, release and reload after the copy out, use after the reload |
| OffloadSafety.CopiedGroupsAreComplete | swift/callbacks/activation_cpu_offload.py:330-377 | no tensor can join a group after its copy, unless the number of groups equals the number of layers; then only group 0 ever reaches the host |
| OffloadHandler.AsyncDoubleBufferGroupOffloadHandler.constructor | swift/callbacks/activation_cpu_offload.py:260-293 | a new handler is in the initial state, with the closed-form window map |
| OffloadHandler.AsyncDoubleBufferGroupOffloadHandler.TensorPush | swift/callbacks/activation_cpu_offload.py:295-315 | the fields change as the specified push says, which `OffloadLedger.PushTakesOver` pins down |
| OffloadHandler.AsyncDoubleBufferGroupOffloadHandler.TensorPop | swift/callbacks/activation_cpu_offload.py:317-328 | the fields change as the specified pop says, which returns the tensor |
| OffloadHandler.AsyncDoubleBufferGroupOffloadHandler.BulkOffloadGroup | swift/callbacks/activation_cpu_offload.py:330-349 | the loops over the tags and over the mapping leave the group on the host, one copy per key |
| OffloadHandler.AsyncDoubleBufferGroupOffloadHandler.SynchronizeOnGroupCommitForward | swift/callbacks/activation_cpu_offload.py:351-377 | copy, waits, release and the next copy happen as specified at the windows |
| OffloadHandler.AsyncDoubleBufferGroupOffloadHandler.OnGroupCommitForward | swift/callbacks/activation_cpu_offload.py:351-384 | the fields change as the specified forward commit says |
| OffloadHandler.AsyncDoubleBufferGroupOffloadHandler.BulkReloadGroup | swift/callbacks/activation_cpu_offload.py:386-403 | the loops restore every tag of the group from the mapping, which is dropped |
| OffloadHandler.AsyncDoubleBufferGroupOffloadHandler.OnGroupCommitBackward | swift/callbacks/activation_cpu_offload.py:405-427 | the fields change as the specified backward commit says |
| OffloadHandler.RestoreTags | swift/callbacks/activation_cpu_offload.py:397-403 | the restoring loop rebuilds exactly the tags of the group that are on the host |
| OffloadHandler.HostCopiesUnique | swift/callbacks/activation_cpu_offload.py:332-349 | keeping the first tensor of a key or any other gives the same host copies when tensors with one key agree |
| OffloadHandler.ReachableTensorsAgree | swift/callbacks/activation_cpu_offload.py:332-349 | in every reachable forward state they do agree |
| Bisect.BisectRightSplits | swift/dataset/indexed_dataset.py:126 | on a sorted list the insertion point separates the keys not above from the keys above |
| Bisect.BisectLeftSplits | data_clean/view_sampling_results.py:381 | on a sorted list the insertion point separates the keys below from the keys not below |
| IndexedDataset.WriteAllKeeps | swift/dataset/indexed_dataset.py:30-50 | after any batches the index holds the running ends of the items, shard offsets are strictly increasing item boundaries, and the shards hold the bytes of all items in order |
| IndexedDataset.FilesRoll | swift/dataset/indexed_dataset.py:42-50 | after any batches every file but the open one has reached the chunk size, and the open one has not |
| IndexedDataset.ItemShard | swift/dataset/indexed_dataset.py:125-128 | the shard found by bisection holds the whole item: it starts before the item and ends no earlier than the item |
| IndexedDataset.ReadBack | swift/dataset/indexed_dataset.py:122-132 | index `i` reads exactly the bytes of the `i`-th item; negative indices wrap modulo the length; anything else is an error |
| IndexedDatasetBuilder.InterleavingIsSequential | swift/dataset/indexed_dataset.py:30-62 | whatever the interleaving of producer and worker, the finished files are those of writing the batches one after the other |
| IndexedDatasetBuilder.QueueIsBounded | swift/dataset/indexed_dataset.py:28-61 | the queue never holds more than a thousand batches, and producer or writer can always go on |
| IndexedDatasetBuilder.AddedItemsReadBack | swift/dataset/indexed_dataset.py:30-132 | the round trip: after any interleaving and any chunk size the reader's item `i` decodes to the `i`-th item added |
| IndexedDatasetBuilder.Builder.AddItems | swift/dataset/indexed_dataset.py:52-56 | a batch is queued at the end |
| IndexedDatasetBuilder.Builder.Finalize | swift/dataset/indexed_dataset.py:58-70 | the writer is told to stop and waited for, everything queued is written first, and the index file records the lists as they then are |
| IndexedDatasetBuilder.DrainWritesQueued | swift/dataset/indexed_dataset.py:30-50 | draining the queue is writing its batches one after the other |
| IndexedDatasetBuilder.Builder.WriteWorkerIteration | swift/dataset/indexed_dataset.py:30-50 | one round of the worker takes the front of the queue and appends it to index and shards, rolling the shard when it is full |
| Packing.SinglesPack | swift/dataset/packing.py:21 | the assumption made of the bin packer can be met |
| Packing.MatchedGroupHolds | swift/dataset/packing.py:22-26 | what is held back is nothing in the last call and otherwise exactly the last bin |
| Packing.MatchedGroupConserves | swift/dataset/packing.py:16-26 | finished bins and carried bin together hold the rows given; nothing is carried exactly when this is the last call or there are no rows |
| Packing.MatchedGroupWithinVolume | swift/dataset/packing.py:16-26 | bins and carried rows stay within the volume when every row does |
| PackingDataset.CreatePackedIdx | swift/dataset/packing.py:89-102 | the worker's loop ends, although it carries its last bin over, and sends the specified messages |
| PackingDataset.WorkerConserves | swift/dataset/packing.py:89-102 | the bins of one worker hold each of its rows exactly once |
| PackingDataset.WorkerEndsOnce | swift/dataset/packing.py:89-102 | a worker sends its end marker once, and last |
| PackingDataset.WorkerProgress | swift/dataset/packing.py:89-102 | the messages of a worker count all its rows, none more than the portion |
| PackingDataset.WorkerPortions | swift/dataset/packing.py:89-102 | as long as a full portion is to come it is taken in full |
| PackingDataset.WorkerRounds | swift/dataset/packing.py:89-102 | one message for every portion and one end marker |
| PackingDataset.WorkerHoldsBack | swift/dataset/packing.py:89-102 | as long as rows are to come exactly one bin is held back after every portion |
| PackingDataset.SumAdds | swift/dataset/packing.py:90 | a list counts with the sum of its parts |
| PackingDataset.WorkerWithinVolume | swift/dataset/packing.py:89-102 | no bin of a worker exceeds the volume when every row fits |
| PackingCollector.AllMarkersAllMessages | swift/dataset/packing.py:71-76 | whatever the order of arrival, all end markers have come exactly when all messages have |
| PackingCollector.CollectPacked | swift/dataset/packing.py:67-81 | the collecting loop reads every message and its result does not depend on the order of arrival |
| PackingCollector.OutputsConserve | swift/dataset/packing.py:56-66 | over all workers the bins hold the rows of the whole dataset exactly once |
| PackingCollector.PackingIsExact | swift/dataset/packing.py:54-102 | every dataset index is in exactly one pack, recorded lengths are the sums of the members, and within the packing length when every item fits |
| PackingCollector.PackDataset | swift/dataset/packing.py:54-81 | the same of what the constructor computes from any arrival order |
| StreamingPacking.RunPool | swift/dataset/packing.py:145-174 | the pool answers every sample exactly once, in any order |
| StreamingPacking.FetchData | swift/dataset/packing.py:165-174 | whatever that order, the round's encodable samples follow the carried ones in input order |
| StreamingPacking.Iterate | swift/dataset/packing.py:182-203 | the generator loop ends on every finite stream and yields pack by pack and place by place the encoded samples of the bins: every sample that can be encoded as often as the dataset has it, and nothing else |
| StreamingPacking.YieldedExactly | swift/dataset/packing.py:182-203 | what is yielded as a sample is yielded as often as there are places in the dataset whose sample is encoded so |
| StreamingPacking.RoundsKeepUp | swift/dataset/packing.py:188-203 | after any number of full rounds only the rows of one bin, within the volume when all fit, are held back |
| StreamingPacking.StreamIsPackedExactly | swift/dataset/packing.py:182-203 | over a finite stream of any length, multiples of the interval included, every encodable sample is in exactly one pack, within the volume when all fit |
| AddressKeys.KeyIsNormal | GeoVerse-Val/eval_geoverse_val_geoscore.py:749-754 | a key has only plain commas without white space around them, single blanks, lower case, and no white space at the ends; for every lower-casing that is idempotent and spells white space and commas as themselves |
| AddressKeys.NormalIsFixed | GeoVerse-Val/eval_geoverse_val_geoscore.py:749-754 | an address already in that form is its own key |
| AddressKeys.CacheKeyIdempotent | GeoVerse-Val/eval_geoverse_val_geoscore.py:749-754 | normalising is idempotent, and its fixed points are exactly the normal addresses |
| AddressGist.KeyIsWritten | GeoVerse-Val/eval_geoverse_val_geoscore.py:749-754 | the key in closed form: the characters with every comma variant as a comma, one blank where white space stands between two of which neither is a comma, all in lower case |
| AddressGist.SameKeyIff | GeoVerse-Val/eval_geoverse_val_geoscore.py:749-754 | two addresses have one key exactly if they have that gist in common, as far as lower-casing tells gists apart |
| AddressKeys.AsciiIsLowering | GeoVerse-Val/eval_geoverse_val_geoscore.py:754 | what is assumed of the lower-casing can be met |
| GeocodeCache.StepKeeps | GeoVerse-Val/eval_geoverse_val_geoscore.py:767-801 | every step of every process, a crash included, keeps mutual exclusion and the inclusion of memory in the file, and only adds to the file |
| GeocodeCache.MemoryGrows | GeoVerse-Val/eval_geoverse_val_geoscore.py:767-801 | no step takes an entry from a living process's memory or changes one, although the memory is replaced on release |
| GeocodeCache.CacheIsWriteOnce | GeoVerse-Val/eval_geoverse_val_geoscore.py:767-801 | over any interleaving of any number of processes the file only grows, no value changes, and every memory stays a part of the file |
| GeocodeCache.LookUpAnswers | GeoVerse-Val/eval_geoverse_val_geoscore.py:767-775 | a look-up answers what memory or else the file has, and what the file had is in memory afterwards; nothing else changes |
| GeocodeCache.WriteArrives | GeoVerse-Val/eval_geoverse_val_geoscore.py:777-801 | whatever other processes do, when a write is over and its process has not crashed the key is in the file and in its memory |
| GeocodeCache.WriteTakesEffect | GeoVerse-Val/eval_geoverse_val_geoscore.py:777-801 | a new entry is entered, a present one keeps its value, and no other changes |
| GeocodeCache.HitsAgree | GeoVerse-Val/eval_geoverse_val_geoscore.py:767-775 | any two hits, in any processes and at any times, for addresses with equal keys return the same result |
| GeocodeCache.UndisturbedWrite | GeoVerse-Val/eval_geoverse_val_geoscore.py:777-801 | acquire, read, replace, adopt and release without interference amount to the sequential method |
| GeocodeCache.LocalGeoScoreAccuracy.GetCachedGeocoding | GeoVerse-Val/eval_geoverse_val_geoscore.py:767-775 | memory first, then the file, and what the file had is remembered |
| GeocodeCache.LocalGeoScoreAccuracy.WriteCacheOnce | GeoVerse-Val/eval_geoverse_val_geoscore.py:777-801 | a present entry is never replaced, and the memory becomes the file's content |
| SortedReals.SortAscends | tools/train_geogrpo.py:198-199 | the sort behind the median ascends |
| GrpoBuckets.MedianSplits | tools/train_geogrpo.py:198-199 | at least half of the values reach the median and at most half reach anything above it |
| GrpoBuckets.MedianIsMiddle | tools/train_geogrpo.py:198-199 | it is the middle of the two values, or twice the one, with half of the others on either side |
| GrpoBuckets.MarkedByMedians | tools/train_geogrpo.py:200-205 | a row is marked high in a respect exactly if it reaches the median of its domain in that respect |
| GrpoBuckets.AtLeastHalfAreHigh | tools/train_geogrpo.py:202-204 | in every domain at least half of the rows are marked high, on either axis |
| GrpoBuckets.MarkedDomains | tools/train_geogrpo.py:191-205 | marking domain by domain is marking every row in place by the medians of its own domain |
| GrpoBuckets.AssignBuckets | tools/train_geogrpo.py:191-205 | each domain that occurs, once, with its rows in input order and marked by its medians |
| GrpoOrder.Shuffle | tools/train_geogrpo.py:213 | a permutation, whatever is drawn |
| GrpoOrder.MixPhase | tools/train_geogrpo.py:237-248 | for every random generator a phase emits exactly its target, first in first out within each bucket, and turns to a bucket of weight zero only when one with weight has run dry |
| GrpoOrder.PhaseWeights | tools/train_geogrpo.py:232-236 | only the rows of low mean and high deviation in the first phase have weight zero, and the weights of a phase add up to a whole |
| GrpoOrder.CurriculumMixOrder | tools/train_geogrpo.py:229-251 | three such phases and a drain in bucket order: a permutation that keeps the order within every bucket |
| GrpoOrder.PhaseTargets | tools/train_geogrpo.py:238-240 | the phases leave `total mod 3` rows to the drain, none when there are fewer than three rows |
| GrpoOrder.FourStageOrder | tools/train_geogrpo.py:220-224 | buckets one after the other, each in its own order |
| GrpoOrder.OrderDomainRows | tools/train_geogrpo.py:208-226 | a permutation of the domain's rows for every schedule and generator; staged under `four_stage`; under `curriculum_mix` no row of low mean and high deviation in the first third unless another bucket has run out, and the remainder behind the phases in bucket order |
| GrpoInterleave.RoundsOfDomain | tools/train_geogrpo.py:288-294 | after `k` full cycles a domain has emitted exactly its first `min(rows, k * ratio)` rows, in its own order |
| GrpoInterleave.RowsByRatio | tools/train_geogrpo.py:275-294 | that is `ratio` rows a cycle for a domain with a ratio, one for one without, as far as they reach |
| GrpoInterleave.RoundByNames | tools/train_geogrpo.py:275-294 | within a cycle the domains come in the order of the names |
| GrpoInterleave.PassIsRound | tools/train_geogrpo.py:288-294 | popping along the cycle list emits the closed form of that cycle and leaves every queue `ratio` rows shorter |
| GrpoInterleave.BuildCycle | tools/train_geogrpo.py:275-277 | the cycle list names every domain as often as its ratio says |
| GrpoInterleave.RunCycle | tools/train_geogrpo.py:289-294 | one pass of the loop, and that it reports progress exactly when it emits something |
| GrpoInterleave.RoundMakesProgress | tools/train_geogrpo.py:288-298 | while a queue has rows a cycle emits some, so the branch for a cycle without progress is dead |
| GrpoInterleave.InterleaveByRatio | tools/train_geogrpo.py:287-299 | the loop ends after the least number of cycles that exhausts every domain, the maximum of `ceil(rows / ratio)`, with the closed form |
| GrpoInterleave.RoundsInterleave | tools/train_geogrpo.py:287-299 | that output has every row once and keeps every domain's order |
| GrpoInterleave.InterleaveSequentially | tools/train_geogrpo.py:268-272 | the queues one after the other in the order of the names, which is an interleaving |
| GrpoInterleave.InterleaveRandomly | tools/train_geogrpo.py:281-286 | the same of the random balance, for every choice |
| GrpoSchedule.OrderedDomainNames | tools/train_geogrpo.py:254-263 | every domain with rows, once: the requested ones by first occurrence, then the others by name |
| GrpoSchedule.InterleaveDomains | tools/train_geogrpo.py:266-299 | refused exactly when no domain has rows and the balance is not sequential; otherwise an interleaving of the domains, the requested ones first, one after the other or in the least number of cycles |
| GrpoSchedule.ScheduleRows | tools/train_geogrpo.py:468-475 | end to end, for every schedule, balance and generator: every row exactly once with its bucket filled in, each domain in the order of its schedule, and the domains in the order that balance and request ask for |
| TagText.FreeJoin | swift/agent_template/seed_oss.py:30-40 | delimiters have no borders: a tag in a concatenation lies in one of the parts, if the parts meet at a bracket or a line break |
| TagText.FindAfter | swift/agent_template/seed_oss.py:30-40 | the first occurrence of a tag after text free of it |
| TagText.BlocksFound | swift/agent_template/seed_oss.py:30 | printed blocks are found again in order by the non-greedy pattern, whatever harmless text surrounds them |
| TagText.FoundIsFree | swift/agent_template/seed_oss.py:30 | what a non-greedy group captures never contains its closing tag |
| TagText.FirstIsLeftmost | swift/agent_template/seed_oss.py:30 | the match found is the leftmost one and there the shortest; when none is found there is none anywhere |
| ToolCalls.DistinctIsDict | swift/agent_template/seed_oss.py:41 | pairs with distinct keys are the dictionary built from them |
| ToolCalls.DictHasLast | swift/agent_template/seed_oss.py:41 | a key has the value of the last pair with it |
| ToolCalls.DictKeepsOrder | swift/agent_template/seed_oss.py:41 | every key once, in the order of first occurrence |
| ToolCalls.FirstNameIsLeftmost | swift/agent_template/seed_oss.py:35 | the name found is that of the leftmost tag with a name, or there is none anywhere |
| ToolCalls.FirstParamIsLeftmost | swift/agent_template/seed_oss.py:40 | the parameter found is the leftmost one, up to its first closing tag, or there is none anywhere |
| ToolCalls.EachInOrder | swift/agent_template/seed_oss.py:34-43 | every group that is a call is read, at the place given by the number of calls before it, and nothing else |
| ToolCalls.EachSkips | swift/agent_template/seed_oss.py:36-37 | a group that is no call changes nothing, wherever it stands |
| ToolCalls.ParamsAreFree | swift/agent_template/seed_oss.py:40 | parameter values that are read contain no closing tag, keys no bracket |
| ToolCalls.CollectCalls | swift/agent_template/qwen3_coder.py:65-69 | the collecting loop keeps the calls of the groups that are calls, each at the place given by the number of calls before it |
| XmlToolCalls.BodyFree | swift/agent_template/seed_oss.py:142-152 | a printed call contains no tag that would end it early, when its values do not |
| XmlToolCalls.BodyParsed | swift/agent_template/seed_oss.py:35-41 | name and arguments are found in the printed body |
| SeedToolCalls.FormatToolCalls | swift/agent_template/seed_oss.py:136-153 | the nested loops and joins print the specified text |
| SeedToolCalls.GetToolcall | swift/agent_template/seed_oss.py:29-45 | the parsing loop reads every block that names a function, in order, and falls back exactly without any block |
| SeedToolCalls.NoiseIgnored | swift/agent_template/seed_oss.py:29-45 | a block that is no call, before, between or after the printed calls, does not change what is read |
| SeedToolCalls.ParseIs | swift/agent_template/seed_oss.py:29-45 | the fallback is taken exactly without any block; otherwise every block that is a call is read |
| SeedToolCalls.PrintedText | swift/agent_template/seed_oss.py:136-153 | a call with two arguments, letter by letter |
| SeedToolCalls.PrintedCalls | swift/agent_template/seed_oss.py:136-153 | two calls with what stands between them, and none |
| SeedToolCalls.ParsedIsFree | swift/agent_template/seed_oss.py:29-45 | no call read from any response has a closing tag in a value, or the tag that ends the call in a name with its bracket |
| SeedToolCalls.RoundTrip | swift/agent_template/seed_oss.py:29-45 | printed calls, within any text that opens none, are read back with names, arguments and order exactly when no value contains `</parameter>` or `</seed:tool_call>`, no name with its bracket ends the call, and the function's name opens no parameter |
| SeedToolCalls.SurvivesByAccident | swift/agent_template/seed_oss.py:29-45 | a call whose header is read as its argument and by accident gives the printed one |
| XmlToolCalls.FirstSwallowed | swift/agent_template/seed_oss.py:40 | a function's name that opens a parameter takes the first argument for its value |
| QwenToolCalls.FormatToolCalls | swift/agent_template/qwen3_coder.py:134-156 | the loops print the specified text |
| QwenToolCalls.FormatCall | swift/agent_template/qwen3_coder.py:138-151 | the body of one call, every value on its own lines |
| QwenToolCalls.GetToolcall | swift/agent_template/qwen3_coder.py:62-73 | the parsing loop reads every block that is a call, in order, and falls back exactly when none is |
| QwenToolCalls.NoiseIgnored | swift/agent_template/qwen3_coder.py:62-73 | a block that is no call, before, between or after the printed calls, does not change what is read |
| QwenToolCalls.ParseIs | swift/agent_template/qwen3_coder.py:62-73 | the fallback is taken exactly when no block is a call; otherwise every block that is a call is read |
| QwenToolCalls.CallIs | swift/agent_template/qwen3_coder.py:36-45 | a block is a call exactly if, stripped, it starts with the tag of a function, ends with the closing one, and names a function |
| QwenToolCalls.PrintedText | swift/agent_template/qwen3_coder.py:134-156 | a call with two arguments, letter by letter |
| QwenToolCalls.PrintedCalls | swift/agent_template/qwen3_coder.py:134-156 | two calls with what stands between them, and none |
| QwenToolCalls.ParsedIsClean | swift/agent_template/qwen3_coder.py:36-60 | every call read from any response is stripped and free of closing tags |
| QwenToolCalls.RoundTrip | swift/agent_template/qwen3_coder.py:36-73 | printed calls are read back exactly when names and values have no white space around them, no value closes a tag, and the function's name opens no parameter |
| GlmToolCalls.FormatToolCalls | swift/agent_template/glm4.py:155-168 | the flat list of parts, joined by the model's separator, is the specified text |
| GlmToolCalls.GetToolcall | swift/agent_template/glm4.py:94-104 | the parsing loop reads every block that is a call, in order, and falls back exactly when none is |
| GlmToolCalls.NoiseIgnored | swift/agent_template/glm4.py:94-104 | a block that is no call, before, between or after the printed calls, does not change what is read |
| GlmToolCalls.ParseIs | swift/agent_template/glm4.py:94-104 | the fallback is taken exactly when no block is a call; otherwise every block that is a call is read |
| GlmToolCalls.CallIs | swift/agent_template/glm4.py:82-92 | a block is a call exactly if, stripped, it starts with a name and has as many keys as values; name and dictionary are those |
| GlmToolCalls.PrintedText | swift/agent_template/glm4.py:155-168 | a call with two arguments, letter by letter |
| GlmToolCalls.PrintedCalls | swift/agent_template/glm4.py:155-168 | two calls with what stands between them, and none |
| GlmToolCalls.KeysFound | swift/agent_template/glm4.py:88 | the keys are found in order, past the values between them |
| GlmToolCalls.ValuesFound | swift/agent_template/glm4.py:89 | the values are found in order, past the keys between them |
| GlmToolCalls.RoundTrip | swift/agent_template/glm4.py:81-104 | with both separators, printed calls are read back with names, arguments and order when nothing needs stripping, no key or value holds its own closing tag, no value but the last opens a key, and the last opens none that it closes |
| GlmToolCalls.RoundTripIff | swift/agent_template/glm4.py:81-104 | for keys without angle brackets this is exact: no other calls are read back as themselves |
| GlmToolCalls.KeysCounted | swift/agent_template/glm4.py:88 | when all keys found are without brackets there is one for every argument and one more for each that a value opens |
| GlmToolCalls.ParsedIsReadable | swift/agent_template/glm4.py:81-104 | whatever the response, the names read are non-empty, stripped and on one line, and keys and values are stripped and hold no closing tag of their own kind or of the call |
| ProbabilityRelation.BisectionsScore | data_clean/view_sampling_results.py:380-383 | two bisections on the sorted list give the sum of wins and half-ties against it |
| ProbabilityRelation.CountWins | data_clean/view_sampling_results.py:378-383 | the accumulation over the sorted lists is the sum over all pairs |
| ProbabilityRelation.PairwiseAucLike | data_clean/view_sampling_results.py:365-384 | over the rows themselves: the mean, over all pairs of a selected row and another, of one for a greater and a half for an equal probability; one half when one side is missing, 0 without rows; within the unit interval |
| ProbabilityRelation.BinSize | data_clean/view_sampling_results.py:399-401 | the integer cuts are balanced: bins differ by at most one row |
| ProbabilityRelation.CutIsFloor | data_clean/view_sampling_results.py:399-400 | the cuts are the rounded-down shares |
| ProbabilityRelation.SortRowsStable | data_clean/view_sampling_results.py:396 | rows of equal probability stay in order |
| ProbabilityRelation.DecileBins | data_clean/view_sampling_results.py:396-414 | the bins tile the sorted rows without gap or overlap, empty ones dropped, none is empty when there are at least as many rows as bins, and each records the extremes, mean and rate of its rows |
| ProbabilityRelation.BinIsDescribed | data_clean/view_sampling_results.py:401-414 | mean and rate, times the size, are the sum and the number selected, and the rate lies in the unit interval |
| ProbabilityRelation.RangesAscend | data_clean/view_sampling_results.py:396-414 | the recorded ranges ascend from bin to bin |
| ProbabilityRelation.BinsConserve | data_clean/view_sampling_results.py:396-414 | weighted by their sizes the recorded means and rates give the sum of all probabilities and the number of all selected rows |
| PercentileRanks.PlaceIsCount | data_clean/postprocess_grpo_run.py:126 | the index at place `k` of the stable order has exactly `k` indices before it |
| PercentileRanks.SecondSortInverts | data_clean/postprocess_grpo_run.py:126 | the second sort is the inverse permutation of the first |
| PercentileRanks.RankIsCount | data_clean/postprocess_grpo_run.py:126 | the double sort gives each position the number of smaller values and of equal earlier ones |
| PercentileRanks.RanksPermuteAndAscend | data_clean/postprocess_grpo_run.py:126 | ranks are a permutation and follow the values |
| PercentileRanks.PercentilesAscend | data_clean/postprocess_grpo_run.py:122-127 | percentiles lie in the unit interval, start at 0, end at 1 when there are two values, and follow the values |
| PercentileRanks.PercentileIsShare | data_clean/postprocess_grpo_run.py:122-127 | times the number of other values, a percentile is the number of values that come before |
| Sharding.RanksFit | swift/dataloader/shard.py:38-43 | every process gets a rank below the world size exactly when the tensor-parallel size divides the number of processes |
| Sharding.ShardsPartition | swift/dataloader/shard.py:45-56 | the ranks' streams have equal length and no index occurs twice, within a stream or across two |
| Sharding.ShardsCover | swift/dataloader/shard.py:45-56 | every position of the common order is in the stream it is due to, so the streams form exactly `world * floor(n / world)` positions |
| Sharding.GroupedPartition | swift/dataloader/shard.py:45-56 | with grouping by length, too, no index occurs twice |
| Sharding.GroupedCover | swift/dataloader/shard.py:45-56 | and every position of that order, which need not divide, is in the stream of its rank |
| Sharding.StreamSize | swift/dataloader/shard.py:45-56 | the first `n mod W` ranks get one element more than the others |
| Sharding.OneMore | swift/dataloader/shard.py:73-77 | when one more sample makes one more batch, for both values of `drop_last` |
| Sharding.CollectBatches | swift/dataloader/shard.py:58-68 | the batching loop cuts the stream into full batches, the rest kept or dropped, as many as `__len__` says |
| Sharding.CountOf | swift/dataloader/shard.py:73-77 | both formulas of `__len__` count those batches |
| Sharding.BatchSamplerShard.constructor | swift/dataloader/shard.py:12-35 | the share per rank and the initial seed |
| Sharding.BatchSamplerShard.Create | swift/dataloader/shard.py:29-31 | refused exactly for grouping by length without shuffling |
| Sharding.BatchSamplerShard.SetEpoch | swift/dataloader/shard.py:70-71 | the seed of an epoch |
| Sharding.BatchSamplerShard.Iter | swift/dataloader/shard.py:45-77 | a pass yields the rank's stream of the order of the current seed, or of the natural one without shuffling, in `__len__` batches for both values of `drop_last`; with grouping by length in one more exactly when the rank has an extra sample that makes one |
| Sharding.Rounds | swift/dataloader/dispatcher.py:43-56 | rank `r` gets batches `r, r + W, ..` of what remains, all ranks in the same number of rounds, with fewer than `W` batches left over |
| Sharding.Dispatch | swift/dataloader/dispatcher.py:35-56 | the same after the skip, which fails exactly when there are not enough batches to skip |
| ResumeCheck.TotalBound | data_clean/geo_data_selector.py:1473-1474 | sets that hold at most `k` each and `n * k` together hold `k` each |
| ResumeCheck.Pigeonhole | data_clean/geo_data_selector.py:1473-1475 | after the loop no item can lack a sample, so the last test never rejects |
| ResumeCheck.LoadCompleteModelSamples | data_clean/geo_data_selector.py:1445-1475 | accepted exactly when model and mode match throughout and the (item, index) pairs are a bijection with items and indices; the last test is never the one to reject |
| GpuScheduler.LaunchKeeps | scripts/benchmark/exp_utils.py:105-146 | launching the front of the queue on free GPUs keeps the invariant |
| GpuScheduler.PollKeeps | scripts/benchmark/exp_utils.py:315-348 | so does a poll, whatever has ended and however, the re-queue for evaluation included |
| GpuScheduler.ToRunIs | scripts/benchmark/exp_utils.py:106-117 | nothing is left to run exactly if there is a record and no evaluation is asked for or its result is there; what a record changes |
| GpuScheduler.RequeuedIs | scripts/benchmark/exp_utils.py:326-334 | what ended with a metric and still needs its evaluation goes in front of the queue, which keeps its order |
| GpuScheduler.RemainingIs | scripts/benchmark/exp_utils.py:346-347 | what stays is what still runs |
| GpuScheduler.OverlapCheckPasses | scripts/benchmark/exp_utils.py:97-103 | in every reachable state the overlap check raises exactly when a running command was given no GPU |
| GpuScheduler.ExpManager.FindFreeGpu | scripts/benchmark/exp_utils.py:226-234 | as many free devices as asked for, or none exactly when there are fewer |
| GpuScheduler.ExpManager.AssertGpuNotOverlap | scripts/benchmark/exp_utils.py:97-103 | the loop with its running union accepts exactly when all running commands have GPUs and no two share one |
| GpuScheduler.ExpManager.Run | scripts/benchmark/exp_utils.py:105-146 | started exactly if, the record considered, the name is free, no other export runs, the command is known, enough devices are free and nothing raises; otherwise why not; and what is launched on which GPUs |
| GpuScheduler.ExpManager.VerdictIs | scripts/benchmark/exp_utils.py:119-146 | why a command is not started, and which reasons are assertions, after which the experiment stays in the queue |
| GpuScheduler.ExpManager.Attempt | scripts/benchmark/exp_utils.py:357-373 | the front leaves the queue unless an assertion was raised, and is then launched, done, or dropped for good |
| GpuScheduler.ExpManager.StartFromQueue | scripts/benchmark/exp_utils.py:357-373 | experiments are started until the queue is empty, GPUs run out, or the attempts do |
| GpuScheduler.ExpManager.Poll | scripts/benchmark/exp_utils.py:315-348 | who stays, and who goes back to the front of the queue |
| GpuScheduler.ExpManager.Begin | scripts/benchmark/exp_utils.py:350-376 | in every run no main command and no evaluation is launched twice, running experiments hold disjoint existing GPUs, no experiment is lost, and no overlap check raises when every experiment requests GPUs |

## What the code does that one might not expect

* With as many offloaded groups as layers (`swift/callbacks/activation_cpu_offload.py:262` admits it) a group's copy is
  issued at the commit before its own pushes, so only group 0 is ever offloaded; transparency and stream safety still
  hold (`OffloadSafety.CopiedGroupsAreComplete`).
* A negative index into the indexed dataset wraps modulo the length (`swift/dataset/indexed_dataset.py:123-124`), so
  indices below minus the length are accepted, unlike for a list (`IndexedDataset.ReadBack`).
* The key of a saved tensor is its address and type (`swift/callbacks/activation_cpu_offload.py:31`), not its shape or
  strides, so a tensor and its transpose in one group are kept as one and one of them comes back wrong
  (`OffloadSharing.TransposeIsConfused`, and `OffloadSharing.GroupIsFaithfulIff` for when a group does come back).
* Grouped by length the sampler does not cut the order to a multiple of the ranks (`swift/dataloader/shard.py:50-53`), so
  some ranks can yield one batch more than `__len__` says and than others do (`Sharding.BatchSamplerShard.Iter`).
* A function's name that holds `<parameter=` and more takes the first argument for its value
  (`swift/agent_template/seed_oss.py:40`, `XmlToolCalls.FirstSwallowed`).
* When the tensor-parallel size does not divide the number of processes, the last processes get a rank equal to the world
  size (`swift/dataloader/shard.py:38-43`, `Sharding.RanksFit`).
* The overlap check of the GPU scheduler raises for a command that asked for no GPU, after having launched it
  (`scripts/benchmark/exp_utils.py:97-103`, `GpuScheduler.OverlapCheckPasses`).

## Left out

- Activation offloading: the synchronous base handler and its commit hooks, checkpointing (`enable_ckpt`), FSDP wrapping,
  pinned memory, and the parameter filter, which is a flag of each push.
- Activation offloading: devices and events are not modelled; two actions are ordered when issue order and waits order
  them.
- Activation offloading: that autograd pops a group only after the backward commit that reaches it is an assumption on
  runs (`OffloadRuns.Legal`), as is that a group is popped before the next backward commit for the residency bound.
- Indexed dataset: cache directories, and `mmap` on an empty trailing shard, which is never read.
- Packing: `strict` mode, in which a worker raises without answering, and cyclic streams, which do not end.
- Packing: `__getitem__`, progress bars and the broadcast to other ranks.
- Geocode cache: a failed read of the file, which returns an empty dictionary and would let the next writer replace the
  file's entries; write-once does not survive it.
- Geocode cache: HTTP lookups and result formats.
- Geocode cache: the memory-only cache is covered by the class, not by the processes, which all share a file.
- GeoGRPO scheduler: sampling by ratio, the limit on the number of samples, parsing of arguments (ratios are positive because parsing refuses others), output.
- GeoGRPO scheduler: means and deviations are real numbers, without rounding.
- GeoGRPO scheduler: domains are numbered in alphabetical order instead of carrying their names.
- GlmToolCalls.RoundTripIff: keys hold no opening angle bracket; with one, a key that swallows the next can be overwritten
  and the call survive by accident. GlmToolCalls.RoundTrip covers such keys in one direction.
- QwenToolCalls.RoundTrip: names that, with their bracket, contain `</tool_call>` are excluded; stripping can hide such an
  end from the reader.
- SeedToolCalls.RoundTrip: names are what the pattern accepts, not empty and without `>`, here and for QwenToolCalls; and
  keys hold no opening angle bracket if the function's name holds `<parameter=`, as with both a call can survive by
  accident (SeedToolCalls.SurvivesByAccident).
- Tool calls: rendering of values that are not strings, JSON of the result, the ReAct fallback parser, tool descriptions
  and tool responses, and the templates that rest on JSON.
- Rank statistic: correlation, floating-point rounding of the sums and of `idx * n / bins`.
- Sharded sampling: how grouping by length orders the indices (any seeded permutation of them is allowed), lengths given
  in parts, the collective operations, devices, and what other ranks do when rank 0 fails in the skip.
- Saved generations: reading and writing the files, and scoring.
- GPU scheduler: experiments are values, each in at most one of queue and running list, instead of shared objects;
  arguments and environment are not modelled, so a loaded record changes name, command and requirements only.
- GPU scheduler: liveness (polling with nothing running does not return, a second export spins), the order by priority,
  command lines, metrics; a process that ends between loop and filter is dropped as in the code.
- GPU scheduler: `GpuScheduler.ExpManager.Begin` covers every finite prefix of a run, bounded by its two parameters.
