# Size task traversal, modelled in Dafny

This project models the traversal engine `SizeTask` of
`total_storage/total_size.py`. The engine adds up the object count and byte
size of cloud storage buckets by listing their "directories" one delimiter
level at a time.

The engine keeps a work list `_jobs` that maps each bucket to a stack of
pending prefixes. It is seeded with the root sentinel (`None`) per bucket.
It then runs rounds. A round drains up to `max_thread` prefixes and counts
them as `running`. Each drained prefix is listed on a client of its own. The
merge step `_after_fetch` adds every listing's sizes and count to the
totals, decrements `running`, and pushes the discovered sub-prefixes back
onto the bucket's stack. Rounds stop when nothing is pending or the error
flag is set.

The threads and the condition variable are replaced by rounds whose merges
run one after the other. A round drains a batch, adds its size to
`running`, and merges every reply in the order the workers finish in. That
order is an argument of `Dispatcher.Round`: any permutation of the batch's
replies. `Dispatcher.Start` takes a scheduler that picks the order of every
round. The order matters beyond one round: it decides the order in which
`_after_fetch` extends a stack, and so which prefix the next round pops.
`SizeTask.MergeOrderIndependent` shows that one round's totals, running
count, error flag and stack contents (as multisets) do not depend on it.
Everything proved about `start` holds for every scheduler.

The storage provider is abstract (`Storage.Provider`):
- the bucket enumeration;
- an existence test for a named bucket;
- the entries of one delimiter listing per (bucket, prefix);
- which listings fail;
- a bound on key length;
- whether `_before_start` raises (a connection, the enumeration or the
  lookup of the named bucket fails).

`Storage.WellFormed` asks that every listed common prefix is strictly longer
than the prefix it was listed under, and no longer than that bound. This
makes the namespace finite. Against it, the project proves that `start`,
for every merge order of every round:
- fails and leaves the task started but without work when `_before_start`
  raises, so that a later `start` is refused;
- otherwise terminates;
- keeps `running` at 0 between rounds;
- never sets the error flag;
- ends with the totals equal to the bytes and objects of every listing
  reachable from the seeded roots;
- runs between listings/max_thread and listings rounds.

With no failed listings, those totals are the sum and the count of every
object stored below the roots.

Modules, one per file:
- `Base` (base.dfy): options, results, duplicate-free sequences, and sums
  over sequences with their concatenation and permutation lemmas.
- `Storage` (storage.dfy): the provider, the shaping of one listing into
  `_after_fetch` arguments, and the measures of the listing tree.
- `Frontier` (frontier.dfy): the job stacks, the drain of one round, and
  the seeding.
- `SizeTask` (size_task.dfy): the task record, the `max_thread` clamp, and
  the merge step.
- `Dispatcher` (dispatcher.dfy): client slots, the round, and `start`.

## Model

| member | source | states |
|---|---|---|
| SizeTask.ClampThreads | total_storage/total_size.py:86-89 | a request of at most 0 gives 100, above 1000 gives 1000, anything in [1, 1000] is kept |
| SizeTask.NewTask | total_storage/total_size.py:84-99 | a new task has no jobs, zero totals, zero running, no error, is not started, and its thread count lies in [1, 1000] |
| Frontier.Seed | total_storage/total_size.py:277-288 | without a bucket name every enumerated bucket, and nothing else, gets the stack [root]; an existing named bucket gives exactly {name: [root]}; a missing one leaves the stacks empty; the key order has no duplicates and matches the keys |
| Frontier.Dedup | total_storage/total_size.py:278-279 | the keys of the dictionary built from the bucket list are duplicate-free and are exactly the listed names |
| Frontier.PopUpTo | total_storage/total_size.py:159-165 | popping from one stack takes min(budget, height) prefixes |
| Frontier.PopUpToSplit | total_storage/total_size.py:159-161 | the stack before popping is what is left followed by the popped prefixes in reverse pop order |
| Frontier.PopUpToLifo | total_storage/total_size.py:159-161 | the i-th popped prefix is the i-th from the top of the stack |
| Frontier.PopUpToConserves | total_storage/total_size.py:159-161 | popped plus left is the original stack as a multiset |
| Frontier.Drain | total_storage/total_size.py:154-168 | a drain keeps every bucket key of the work list |
| Frontier.DrainLeaves | total_storage/total_size.py:156-161 | a drain leaves each stack a prefix of what it was, and leaves the stack of a bucket outside the iteration order as it was |
| Frontier.DrainBuckets | total_storage/total_size.py:156-161 | every drained job belongs to a bucket of the iteration order |
| Frontier.DrainSize | total_storage/total_size.py:154-168 | a drain takes exactly min(max_thread, total pending) prefixes |
| Frontier.DrainInOrder | total_storage/total_size.py:156-168 | when a bucket is left non-empty, every bucket after it in iteration order is untouched |
| Frontier.DrainLifo | total_storage/total_size.py:156-161 | each bucket's stack before the drain is what the drain left of it followed by that bucket's share of the batch in reverse: the drain took exactly those prefixes off the top, top first |
| Frontier.DrainConserves | total_storage/total_size.py:154-168 | batch plus the pending jobs left is the pending jobs before, as a multiset |
| Frontier.PendingAppend | total_storage/total_size.py:108 | extending one bucket's stack adds exactly those jobs to the pending work |
| Storage.Split | total_storage/total_size.py:300-306 | a listing splits into sizes and prefixes whose counts add up to the entry count |
| Storage.SplitMembers | total_storage/total_size.py:302-306 | a size is reported iff a key of that size was listed, and a prefix iff it was listed as a common prefix |
| Storage.SplitConcat | total_storage/total_size.py:300-306 | splitting keeps listing order: splitting two consecutive runs of entries gives the two splits concatenated |
| Storage.SplitSizeCounts | total_storage/total_size.py:302-303 | each size occurs among the reported sizes exactly as often as a key of that size occurs in the listing |
| Storage.SplitPrefixCounts | total_storage/total_size.py:305-306 | each prefix occurs among the reported prefixes exactly as often as it occurs as a common prefix in the listing, and the root never does |
| Storage.SplitBytes | total_storage/total_size.py:302-303 | the reported sizes add up to the bytes of the listing's keys |
| Storage.Shape | total_storage/total_size.py:290-311 | the S3 fetch reports its own bucket; a failed listing reports no sizes and no prefixes; a successful one reports the listed key sizes and common prefixes, each exactly as often as it was listed |
| Storage.ExploreUnfold | total_storage/total_size.py:101-108 | the bytes, objects and listings below a job are its own listing's plus those below every prefix it discovers |
| Storage.ExploreCountsObjects | total_storage/total_size.py:302-306 | with no failed listing, the bytes and objects below a prefix are the sum and count of the sizes of all keys stored below it |
| Storage.ExploreCountsStoredUnder | total_storage/total_size.py:302-306 | the same, summed over a list of jobs |
| SizeTask.Merge | total_storage/total_size.py:101-114 | a merge adds sum(sizes) and len(sizes) to the totals and takes one off running; it appends the prefixes to its bucket's stack only; a reply for a bucket without a stack sets the error flag, after the counters moved, and changes no stack; a set flag stays set |
| SizeTask.MergeAll | total_storage/total_size.py:170-182 | merging a round's replies adds all their sizes and counts, takes their number off running, keeps the bucket keys, and sets the error flag iff some reply names a bucket without a stack |
| SizeTask.MergeAllStacks | total_storage/total_size.py:108 | each stack ends as it was followed by the prefixes its bucket's replies discovered, in merge order |
| SizeTask.MergeOrderIndependent | total_storage/total_size.py:171-182 | any two merge orders of the same replies give equal totals, running count, error flag, keys, and stack contents as multisets |
| SizeTask.MergeAllPending | total_storage/total_size.py:108 | merging a round's replies adds exactly the discovered jobs to the pending work |
| Dispatcher.Replies | total_storage/total_size.py:171-173 | a round has one reply per drained job, the i-th being the listing of the i-th job |
| Dispatcher.Assign | total_storage/total_size.py:160-164 | each drained job is paired with its own client slot, slots are distinct and below the number of clients |
| Dispatcher.RoundFitsClients | total_storage/total_size.py:160-168 | a round's batch has min(max_thread, pending) jobs, so every job gets a client slot |
| Dispatcher.RepliesLocal | total_storage/total_size.py:103-106 | what a batch's replies add to the totals is what the batch's own listings hold, and a batch of n jobs is n listings |
| Dispatcher.Dispatched | total_storage/total_size.py:170 | once a batch is drained, running grows by the batch size, the key order, totals and flags stay, and every drained job's bucket still has a stack |
| Dispatcher.Round | total_storage/total_size.py:154-188 | a round, merged in any order the workers can finish in, keeps the stacks consistent with the key order, leaves running where it was and does not set the error flag |
| Dispatcher.DiscoveredPermutation | total_storage/total_size.py:108 | the prefixes a round's replies discover weigh the same in every merge order |
| Dispatcher.RoundMeasure | total_storage/total_size.py:154-194 | in any merge order, what a round merges is exactly what leaves the pending listing trees |
| Dispatcher.RoundProgress | total_storage/total_size.py:170-194 | in any merge order, a round keeps totals plus pending bytes and objects constant, and takes min(max_thread, pending) listings off the pending work |
| Dispatcher.RunRounds | total_storage/total_size.py:151-194 | the round loop, under any scheduler, ends with nothing pending, no error and running 0, having added every byte and object below the pending prefixes to the totals, in between listings/max_thread and listings rounds |
| Dispatcher.Start | total_storage/total_size.py:138-209 | a second start fails with nothing changed; a start whose `_before_start` raises fails and leaves the task started with no work; otherwise, under any scheduler, it terminates with nothing pending, no error, running 0, totals equal to everything reachable from the seeded roots (the sum and count of all stored objects when no listing fails), between listings/max_thread and listings rounds, and zero rounds and zero totals for a missing named bucket |

## Left out

- Threads, the lock and the condition variable (lines 28-30, 97, 171-188): replaced by merges one after the other, in an order a scheduler picks per round. A worker's listing does not read the task, so each interleaving is such an order.
- Dispatcher.Round: merges every reply of the batch. In the source, the wait loop stops as soon as the error flag is set, while other workers may still be running. The model never sets the flag on a well-formed run, so the two agree there.
- The gcloud and boto clients, credentials and listing calls (lines 48-69, 256-263): replaced by the abstract `Storage.Provider`. An exception while connecting, enumerating or looking up a bucket in `_before_start` is the provider's `setupFails`; what was raised is not modelled. Pagination and the `fields` masks are not modelled; a listing is one sequence of entries.
- Python dictionary iteration order: the key order of `_jobs` is an explicit sequence, not derived from the hash layout.
- The GCS fetch (lines 237-254): on a failed listing it still passes `blobs.prefixes`, while the S3 fetch passes nothing; and its prefixes come back as a set, so their order is not fixed. Only the S3 shaping, which keeps listing order, is modelled.
- The GCS seeding (lines 224-235): the not-found branch formats `self.project`, which does not exist, so it raises instead of returning. Only the S3 not-found behaviour is modelled.
- `size_readable` (lines 128-136): floating-point formatting; it also indexes past 'PB' for totals of 1024^6 bytes or more.
- All printing, the `quiet` and `readable` flags, and the argparse entry point (lines 313-399).
- The lock released after a failed acquire in the `except` path of `_after_fetch` and `start`.
- total_storage/settings/Config.py and total_storage/settings/main_settings.py: file and configuration I/O, not part of this model.
- db-bigquery-api-session.py and test.py: one-shot API calls, not part of this model.
