# driftwatch: a verified model

driftwatch folds a stream of events into an "oracle", what a target store should contain, and
compares the two. Its promise is that it reports drift only when its own evidence supports it. That
promise rests on a handful of stateful mechanisms, each of which has to agree with a much simpler
description of itself. This project models those mechanisms in Dafny, writes down the simple
descriptions, and proves the agreement for every input and every run.

`dafny verify dfyconfig.toml` checks the whole project.

## What is where

- **Event.dfy, Counting.dfy**: events, values, trust, and cardinality helpers.
- **Shard.dfy, Oracle.dfy, OracleRuns.dfy, OracleVersions.dfy, OracleHistory.dfy**: the oracle.
  The time-bucket settlement index, the generation floor that makes every key suspect in constant
  time, the patched trust counters, the key budget with eviction. The specification is a map of
  one naive record per key, and every operation is specified on that map alone.
  `OracleRuns.Replay` is the refinement theorem over whole runs; OracleVersions says what an equal
  version number means along a run, and OracleHistory when a key is listed as settled and what its
  flag says, in terms of the writes behind it.
- **Differ.dfy, Sweeper.dfy, Detection.dfy**: comparing, sweeping and confirming. Detection proves
  that persistent drift is found.
- **SweepRuns.dfy, SweepRows.dfy, SweepTiming.dfy, SweepLoss.dfy, SweepPaths.dfy, SweepOverlap.dfy,
  SweepDetection.dfy**: the same critical sections interleaved step by step, with one sweep and any number
  of confirm cycles under way at once. SweepRuns proves the books and the two-read rule, and SweepRows that
  the steps taken in a row are the sequential sweeper's. SweepTiming says exactly when episodes waited and
  were read twice, SweepLoss exactly when a cycle cut short loses a candidate. SweepPaths builds runs whose
  clock never goes back; SweepOverlap uses them for the runs that fail and for what a caller can check, and
  SweepDetection lifts detection to interleavings.
- **Lag.dfy, LagRace.dfy, LagExact.dfy, LagRefresh.dfy, LagWithdraw.dfy**: the interleaved sweeper beside an
  oracle, a clock and a target that lags. Lag proves that nothing is confirmed falsely unless a capture
  raced, LagRace confirms what raced, LagExact says exactly which captures can be confirmed, LagRefresh why a
  refresh shows a finding read once, and LagWithdraw that a finding does not outlive its expectation.
- **GapSet.dfy, Tracker.dfy**: the capped interval set and the sequence tracker over it. Each
  publisher carries a ghost ledger of what was really accepted, and trust is compared with it.
- **Reorder.dfy, ReorderMark.dfy, Projection.dfy, OrderIndependence.dfy, Pipeline.dfy, PipelineDoubt.dfy**:
  the reorder buffer, the projections against the reference fold, the applier from delivery to oracle, and
  what loss does to trust.
- **Registry.dfy**: the runner registry as a transition system over threads.
- **FakeClock.dfy**: the manually advanced clock.
- **JsonScan.dfy, JsonGrammar.dfy, JsonCompleteness.dfy, JsonStrings.dfy, JsonCapture.dfy,
  JsonSoundness.dfy, JsonParser.dfy, JsonCodec.dfy**: the JSON scanner against a grammar of JSON texts, which
  it accepts exactly.

State that the source updates in place is a class whose methods are tied, by their postconditions, to
a function on the old state; the theorems are about those functions. Concurrency is modelled as a
state machine whose steps are the source's critical sections. Clocks, target reads, hashing, glob
patterns and cancellation are parameters. Where the source walks a map, any order is allowed.

## Findings about the code

Some properties one would expect turn out to hold only under a condition. Each has a concrete run that
breaks it and a statement of when it does hold.

- **A settled key is listed in one critical section and its version captured in another**
  (pkg/sweeper/sweeper.go:457-488). An event that changes the key's value between the two lets a finding
  be confirmed against a target that is never more than one window behind (`LagRace.RaceConfirmsFalsely`,
  for every window). Only a capture made while another value had been expected less than a window before the
  sweep began is ever confirmed (`Lag.ConfirmedOnlyIfRaced`). A trusted capture of a key that is neither
  queued nor in an episode, with room in the queue, can still be confirmed exactly when another value will be
  showable once its candidate is due and expiry does not excuse it (`LagExact.CaptureConfirmsIff`, for every
  lag up to two windows).
- **A cycle cut short can lose a candidate uncounted.** The comment at pkg/sweeper/confirm.go:107-108
  promises that a cancelled cycle loses nothing. requeueAll skips a key that a sweep has queued again since
  the cycle took it (pkg/sweeper/confirm.go:145-147) and counts nothing, and the key is then due later
  (`SweepLoss.PutBackDisplaces`, for every drifting key and positive window). A put-back loses nothing
  exactly when none of its keys is queued again and there is room for all
  (`SweepLoss.PutBackLosesNothingIff`), and over runs every candidate is queued, in flight or decided
  exactly when every put-back meets that (`SweepLoss.NothingIsLostIff`).
- **Confirm cycles can overlap, and then an episode need not have waited out its window.** ConfirmDue has
  no guard: `driftwatch diff` runs the check in the background (internal/cli/root.go:323-325) and calls
  ConfirmDue beside it (internal/cli/diff.go:127, pkg/check/check.go:1312-1314). A cycle that holds an old
  candidate can renew an episode a newer one has opened since, which keeps the newer start
  (pkg/sweeper/confirm.go:239-252). `SweepOverlap.OverlappingCyclesMistime` is a run from the start for every
  positive window, with clock readings that never go back. While the window does not change, episodes are
  timed exactly when no cycle confirms a candidate into an episode opened by one that was not due when the
  cycle began (`SweepTiming.OneWindowTimedIff`). When it shrinks, that is not enough
  (`SweepOverlap.ShrunkWindowMistimes`): the guard for any windows is that the cycle began at least the
  confirming candidate's window after the sweep that opened the episode (`SweepTiming.EpisodesAreTimedIff`).
  What a caller can check beforehand is whether a cycle still holds a candidate: from every such state the
  next cycle may mistime it (`SweepOverlap.HeldCandidateCanMistime`), and with cycles one at a time so far
  starting another early is a risk exactly then (`SweepOverlap.EarlyCycleMistimesIff`).
- **A refresh shows a finding that was read once** (pkg/sweeper/sweeper.go:607-621): a sweep puts a finding
  about a newer version into an episode confirmed at an older one, marked confirmed, and withdrawing stale
  episodes then keeps it (`SweepOverlap.RefreshShowsOnceRead`). `SweepTiming.FindingsAreTwiceReadIff` is
  the exact condition, and the cause is a write after the confirmed version and before the sweep's capture
  (`LagRefresh.MixesIffWritten`).
- **A version number repeats across an eviction** (pkg/oracle/oracle.go:180-197). The comment there says a
  version is never reused; that holds across deletes, but an evicted key starts again at one
  (`OracleVersions.RecreatedKeyRepeatsVersion`). `OracleVersions.EqualVersionsMeanIff`: equal versions
  mean no write in between exactly when no eviction of the key fell between.
- **The reorder buffer follows a straggler back into an old epoch** (pkg/check/reorder.go:112-119): a
  number already released in the newer epoch is then released again as if it were new
  (`Reordering.StragglerRepeatsRelease`). Releases that are not late ascend within every epoch exactly
  when every event that finds the buffer in another epoch carries a number beyond all of its own epoch
  released in order before (`Reordering.ReleasesAscendIff`); epochs that never go back are one such case.
- **The mark of a line outlives its event** (pkg/check/reorder.go:52-53, 155-165): `oldestAt` is documented
  as the arrival of the first currently held event. In every state of every run it is the earliest arrival
  among what waits exactly when no event let through in order, since the line last began to hold, took every
  event that had arrived at the mark and left a later one (`ReorderMarks.MarkIsEarliestIff`). Otherwise a
  flush lets events go that have not waited out the window (`ReorderMarks.FlushedEarlyIff`,
  `ReorderMarks.MarkOutlivesItsEvent`).
- **A repeated member can raise the truncated flag** (pkg/projection/keyset.go:186-190): "a,b,a" with a cap of
  two loses nothing and is flagged (`References.RepeatRaisesFlag`); `References.SpuriousFlagIff` says exactly
  when that happens.
- **The successor of the top sequence number wraps** (pkg/seqtrack/seqtrack.go:234):
  `Trackers.WrapsOnlyAtTheTop` says exactly when the classification is the unbounded one,
  `Trackers.TopNumberAcceptedTwice` what happens otherwise. The reorder buffer's expectation is the wrapped
  successor of every release (`Reordering.ExpectationFollows`, `Reordering.TopNumberIsHeldAgain`). Both
  objects accept the top number; their books and the theorems about runs are for numbers below it.
- **Shutdown alone is not final** (internal/controller/runner.go:337-344): an Ensure already past its
  first check can start a runner after Shutdown has returned (`Registries.ShutdownAloneIsNotFinal`);
  only its own re-check takes it back, and it always does (`Registries.LiveIffTakenBack`).
- The comment on `expire` (pkg/check/reorder.go:193-196) says it is called on each incoming message; the
  code calls it from the flush ticker only (pkg/check/check.go:599). The model follows the code.

## Model

| member | source | states |
|---|---|---|
| OracleShard.TruncDivIsDivision | pkg/oracle/settle.go:25-28 | the bucket number is the quotient truncated toward zero, as the source's integer division rounds |
| OracleShard.PromoteIndex | pkg/oracle/settle.go:71-104 | coalescing keeps every key filed exactly once, and afterwards no live bucket lies wholly before the horizon |
| OracleShard.ListSettled | pkg/oracle/settle.go:117-134 | walking the coalesced set and the live buckets yields exactly the keys whose last event is more than the window ago or whose last change of value is more than the threshold ago, each once |
| OracleShard.CountSettled | pkg/oracle/settle.go:142-170 | the two counts are the cardinalities of the settled keys and of the keys in flight beyond the threshold |
| OracleShard.BucketsBounded | pkg/oracle/settle.go:71-104 | live buckets number at most ceil(MaxW/width)+1 when event times do not exceed now |
| OracleShard.OldestIndexed | pkg/oracle/settle.go:175-191 | a victim exists exactly when the shard holds anything; it is a coalesced key while there is one, and otherwise from the smallest live bucket |
| OracleShard.ForgetAgrees | pkg/oracle/shard.go:54-66 | taking an entry out of the cached counts leaves the true cardinalities of the rest |
| OracleShard.RememberAgrees | pkg/oracle/shard.go:68-80 | adding an entry to the cached counts gives the true cardinalities |
| OracleShard.SweepAgrees | pkg/oracle/oracle.go:503-534 | when the floor passes every generation, zeroing one counter makes the counts right again |
| OracleShard.SuspectCountAgrees | pkg/oracle/shard.go:84-87 | the suspect count obtained by subtraction is the number of effectively suspect keys |
| OracleShard.Recount | pkg/oracle/shard.go:91-96 | recounting gives the true cardinalities |
| OracleShard.MarkEntries | pkg/oracle/oracle.go:503-534 | marking by pattern rewrites exactly the matching entries and keeps the counts true |
| OracleShard.ClearEntries | pkg/oracle/oracle.go:539-570 | clearing lifts exactly the matching entries past the floor |
| OracleShard.CachedTotals | pkg/oracle/oracle.go:395-419 | the report from counters and index equals the totals of a full scan |
| OracleShard.Shard.EvictOne | pkg/oracle/evict.go:29-50 | eviction removes one stalest key from entries, index and counters together, whenever there is one |
| OracleShard.Shard.MakeRoom | pkg/oracle/oracle.go:180-189 | a key goes exactly when the shard is at its share, and then there is room |
| OracleShard.Shard.Store | pkg/oracle/settle.go:30-46 | storing an entry keeps index and counters in step |
| OracleShard.Shard.Apply | pkg/oracle/oracle.go:165-250 | on the naive view: one key written with the next version, at most one evicted, nothing else changed |
| OracleShard.Shard.Adopt | pkg/oracle/oracle.go:443-473 | on the naive view: one key adopted, at most one evicted |
| OracleShard.Shard.MarkAll | pkg/oracle/oracle.go:503-534 | constant-time suspicion equals rewriting every record's flag |
| OracleShard.Shard.MarkMatching | pkg/oracle/oracle.go:503-534 | suspicion by pattern equals rewriting the matching records' flags |
| OracleShard.Shard.ClearMatching | pkg/oracle/oracle.go:539-570 | clearing equals rewriting the matching records' flags, also when it lowers the floor |
| OracleShard.Shard.Promote | pkg/oracle/settle.go:71-104 | promotion moves the horizon, changes no entry and bounds the live buckets |
| OracleShard.Shard.Find | pkg/oracle/oracle.go:277-299 | what is found under a key is the naive record, with the trust the floor leaves it |
| OracleShard.Shard.SettledKeys | pkg/oracle/settle.go:117-134 | exactly the keys of the naive view whose last event is more than the window ago or whose last change of value is more than the threshold ago, each once |
| OracleShard.Shard.Report | pkg/oracle/oracle.go:395-419 | the report is the scan of the naive view |
| Oracles.SharesPartitionBudget | pkg/oracle/oracle.go:128-147 | shard shares sum to exactly the budget, each is at least one, and they differ by at most one, the larger first |
| Oracles.ThresholdAtLeastWindow | pkg/oracle/oracle.go:347-356 | the never-settled threshold is so many windows, or the maximum if that is less, and never below the window |
| Oracles.WithinBudget | pkg/oracle/oracle.go:63-147 | in every valid state the tracked keys fit the budget |
| Oracles.ScanBelow | pkg/oracle/oracle.go:395-419 | totals add up shard by shard |
| Oracles.Oracle.Apply | pkg/oracle/oracle.go:165-250 | the naive oracle gains one record and loses at most one; a key is evicted exactly when a new key meets a full shard, and from that shard's stalest |
| Oracles.Oracle.Adopt | pkg/oracle/oracle.go:443-473 | the naive oracle adopts one value under the same eviction rule |
| Oracles.Oracle.MarkAllSuspect | pkg/oracle/oracle.go:503-534 | one counter and one floor flag every record of the naive oracle |
| Oracles.Oracle.MarkSuspect | pkg/oracle/oracle.go:503-534 | flags exactly the matching records |
| Oracles.Oracle.ClearSuspect | pkg/oracle/oracle.go:539-570 | unflags exactly the matching records |
| Oracles.Oracle.SetSettlementWindow | pkg/oracle/oracle.go:476-484 | the window is clamped into its range at runtime |
| Oracles.Oracle.Get | pkg/oracle/oracle.go:277-344 | value, version and effective trust of a key are those of the naive oracle |
| Oracles.Oracle.SettledKeys | pkg/oracle/oracle.go:364-392 | exactly the keys whose last event is more than the window ago or whose last change of value is more than the threshold ago, each once, for non-decreasing query times and any window; afterwards every shard has at most ceil(MaxW/width)+1 live buckets if no event is stamped later |
| Oracles.Oracle.Report | pkg/oracle/oracle.go:395-419 | counts equal a scan of the naive oracle |
| OracleRuns.Do | pkg/oracle/oracle.go:165-570 | one operation on the real structure is one operation of the naive oracle, with a right answer |
| OracleRuns.Replay | pkg/oracle/oracle.go:165-570 | for every sequence of writes, marks, window changes, lookups and queries every answer is the naive oracle's, each key's value, version and trust included, and every state on the way is within the key budget |
| OracleVersions.RunVersion | pkg/oracle/oracle.go:165-250 | along every run a key that is not evicted keeps its version and value until it is written, and its version only grows |
| OracleVersions.EqualVersionsMeanIff | pkg/oracle/oracle.go:180-197 | a key known before and after a run at one version was not written in between, and has the same value, if and only if it was not evicted in between |
| OracleVersions.RecreatedKeyRepeatsVersion | pkg/oracle/oracle.go:180-197 | a run from the empty oracle in which a key is back at version one with another value |
| OracleHistory.ListedIff | pkg/oracle/settle.go:105-114 | over every run, a key whose value changed at t0 and that was since then only written with that value, last at t1, is listed as settled at now if and only if t1 is more than a window ago or t0 more than the threshold, however often it was written |
| OracleHistory.LastWordOnTrust | pkg/oracle/oracle.go:503-570 | over every run between writes, an adopted key stays adopted and any other is suspect or trusted by the last operation that raised or took back doubt about it; nothing else of its record changes |
| OracleHistory.WriteTells | pkg/oracle/oracle.go:180-250 | a write leaves its value, trust, truncation and time, one more version, the age of the key's first write, and a time of change only if the value changed |
| OracleHistory.AdoptionTells | pkg/oracle/oracle.go:443-473 | an adoption leaves what was read, marked as adopted, as one more version, and no time of change |
| OracleHistory.ScanTells | pkg/oracle/oracle.go:395-419 | each total counts the keys it is named after |
| Differ.CompareMeaning | pkg/differ/differ.go:30-97 | a finding is raised exactly for an unequal pair that is neither adopted as absent nor excused by expiry under the ignore policy past the assumed TTL; an empty set is an absent key; the category says in which way the pair differs |
| Sweepers.SplitDue | pkg/sweeper/confirm.go:120-137 | one pass separates what is due, both halves in order, and the key set follows |
| Sweepers.PruneEpisodes | pkg/sweeper/sweeper.go:672-691 | keeps exactly the episodes of keys the oracle knows at the version of their finding, and counts those forgotten and those superseded |
| Sweepers.SweepKeyTells | pkg/sweeper/sweeper.go:457-553 | a key gone or adopted is passed over, one whose version moved is deferred and counted, one that could not be read is only counted |
| Sweepers.HandleTells | pkg/sweeper/sweeper.go:579-621 | agreement closes the episode and measures it from when it was first seen, a suspect disagreement is only counted, any other is shown in the open episode with its start or queued with the sweep's time |
| Sweepers.ConfirmOneTells | pkg/sweeper/confirm.go:158-252 | exactly when a candidate is forgotten, moved on, unread, suspect, caught up or confirmed, and that only what moved on or was unread is deferred |
| Sweepers.Sweeper.EnqueueFinding | pkg/sweeper/confirm.go:36-60 | a repeat is ignored, a full queue counts a drop, otherwise the candidate joins with its key |
| Sweepers.Sweeper.Handle | pkg/sweeper/sweeper.go:579-621 | agreement resolves, suspicion is counted, a known episode is refreshed, the rest become candidates |
| Sweepers.Sweeper.Sweep | pkg/sweeper/sweeper.go:457-553 | a sweep is the fold of the keys in the batches that were read, up to a key whose own read failed; it withdraws stale episodes only when it finished |
| Sweepers.Sweeper.LiveEpisodes | pkg/sweeper/sweeper.go:672-691 | withdraws exactly the episodes of keys the oracle has forgotten or holds at another version than the finding's, and counts each kind |
| Sweepers.Sweeper.Decide | pkg/sweeper/confirm.go:158-252 | decides one candidate in exactly one of six ways |
| Sweepers.Sweeper.ConfirmDue | pkg/sweeper/confirm.go:81-116 | decides the due candidates in order and puts back the rest with their timing when the target is unreachable or the cycle is cancelled |
| Sweepers.Sweeper.PutBack | pkg/sweeper/confirm.go:140-155 | re-queues with original timing, subject to key and bound |
| Detection.SweepReaches | pkg/sweeper/sweeper.go:457-553 | a sweep treats each key as if it were the only one, and only keys it raises take room in the queue |
| Detection.SweepRaises | pkg/sweeper/sweeper.go:579-621 | a trusted disagreement becomes a candidate stamped with the sweep and its version, if the queue has room for the keys that disagree |
| Detection.ConfirmReaches | pkg/sweeper/confirm.go:81-116 | a cycle decides each candidate as if it were the only one |
| Detection.PersistentDriftIsConfirmed | pkg/sweeper/confirm.go:81-252 | a trusted key that disagrees at a sweep and, at the same version, a window later is confirmed after that cycle, with an episode that starts at the sweep |
| Detection.SettledDriftIsDetected | pkg/sweeper/sweeper.go:457-621 | a trusted key quiet past its window and untouched since, that disagrees at a sweep over the oracle's settled keys and a window later, is confirmed |
| Detection.DriftStaysOpen | pkg/sweeper/sweeper.go:601-621 | sweeps that keep disagreeing leave the episode open and its start unchanged |
| Detection.RepairIsCountedOnce | pkg/sweeper/sweeper.go:839-852 | a sweep closes exactly the episodes of the keys it sees agree, leaves every other open and counts each once |
| SweepRuns.CandidatesAreConserved | pkg/sweeper/confirm.go:36-155 | with any number of cycles at once: queue and key set agree, keys are unique, the bound holds, and every candidate enqueued is queued, in flight, decided in one of six ways, or lost by a put-back |
| SweepRuns.TwoReadsBeforeConfirm | pkg/sweeper/confirm.go:158-236 | with any number of cycles at once: whatever reaches confirm disagreed twice, a window apart, against one oracle version, and was suspect neither time |
| SweepRuns.EpisodesAreEarned | pkg/sweeper/confirm.go:239-252 | every episode rests on a non-suspect disagreement, starts when the candidate that opened it was seen and was confirmed when the cycle that renewed it began, each of the two having waited out its own window |
| SweepRuns.DueTimeNeverMoves | pkg/sweeper/confirm.go:36-60 | in one step, a key that stays queued keeps its candidate; over runs see SweepLoss.TimingLastsUntilDecided |
| SweepRuns.PutBackLosesNothing | pkg/sweeper/confirm.go:140-155 | with nothing in between, taking what is due and putting it back leaves the same candidates |
| SweepLoss.PutBackLosesNothingIff | pkg/sweeper/confirm.go:140-155 | a put-back loses nothing if and only if none of its keys has been queued again and there is room for all of them |
| SweepLoss.WaitsAgainIff | pkg/sweeper/confirm.go:140-155 | each candidate put back waits again, with its timing, if and only if its key was not queued meanwhile and the ones before it left room |
| SweepLoss.NothingIsLostIff | pkg/sweeper/confirm.go:81-155 | over every run with any number of cycles, each candidate enqueued is queued, in flight or decided in every state if and only if every put-back found none of its keys queued and room for all |
| SweepLoss.TimingLastsUntilDecided | pkg/sweeper/confirm.go:36-155 | over every run whose put-backs fit, a candidate waits or is held with the timing it was raised with until a cycle decides it |
| SweepLoss.PutBackDisplaces | pkg/sweeper/confirm.go:140-155 | for every drifting key and positive window, a run from the start in which a cycle cut short loses a candidate, no counter of the source moves, and the key is due a window later |
| SweepRuns.QueueGrows | pkg/sweeper/confirm.go:120-137 | only taking what is due removes from the queue |
| SweepRows.SweepRow | pkg/sweeper/sweeper.go:457-621 | the interleaved critical sections, taken in a row for one key, do what the sequential sweep does to it |
| SweepRows.CycleRow | pkg/sweeper/confirm.go:158-252 | taken in a row for one candidate, they decide it as the sequential cycle does |
| SweepRows.SweepInARow | pkg/sweeper/sweeper.go:457-621 | a whole sweep taken in a row is the sequential sweep, and is over early exactly when the read of a key it compares failed |
| SweepRows.CycleInARow | pkg/sweeper/confirm.go:104-252 | a whole cycle taken in a row decides its candidates in order as the sequential cycle does |
| SweepTiming.StepTimedIff | pkg/sweeper/confirm.go:239-252 | a step from a state whose episodes all waited leads to another exactly when it does not confirm, into an open episode, a candidate whose cycle began less than its window after the sweep that opened the episode |
| SweepTiming.EpisodesAreTimedIff | pkg/sweeper/confirm.go:81-252 | over every run with any number of cycles and any windows, every episode in every state waited out its window if and only if no such step was taken |
| SweepTiming.OneWindowTimedIff | pkg/sweeper/confirm.go:81-252 | while the window does not change: if and only if no cycle confirmed a candidate into an episode opened by one that was not yet due when the cycle began |
| SweepTiming.OvertakenByNewer | pkg/sweeper/confirm.go:239-252 | such a step confirms an older candidate after a newer one of its key, and under one window its cycle began before the other took its own |
| SweepTiming.OneAtATimeKeepsTiming | pkg/sweeper/confirm.go:81-252 | while cycles do not overlap every episode in every state waited out its window, however sweeps interleave |
| SweepTiming.FindingsAreTwiceReadIff | pkg/sweeper/sweeper.go:601-621 | over every run, what every episode shows is about the version confirmed last if and only if no refresh brought a finding about another version |
| SweepOverlap.OverlappingCyclesMistime | pkg/sweeper/confirm.go:239-252 | for every drifting key and positive window, a run from the start whose clock reads 0, win, win, 2*win and in which two cycles leave an episode confirmed less than a window after it was first seen |
| SweepOverlap.ShrunkWindowMistimes | pkg/sweeper/confirm.go:239-252 | for every window and smaller later one, a run from the start with a clock that never goes back that mistimes an episode although the candidate that opened it was due when the confirming cycle began |
| SweepOverlap.HeldCandidateCanMistime | pkg/sweeper/confirm.go:81-252 | from every reachable state in which a cycle holds a candidate, and for every window, some continuation with a clock that never goes back mistimes the candidate's episode |
| SweepOverlap.EarlyCycleMistimesIff | pkg/sweeper/confirm.go:81-252 | in every state reached with cycles one at a time, starting cycles before those under way are over can lead to a mistimed episode if and only if one of them still holds a candidate |
| SweepOverlap.RefreshShowsOnceRead | pkg/sweeper/sweeper.go:607-621 | for every window, a run from the start in which an episode shows, as confirmed, a finding about a version never confirmed, and withdrawing keeps it |
| SweepDetection.CandidateWaits | pkg/sweeper/confirm.go:36-155 | a waiting candidate survives sweeps, cycles not yet due, put-backs and withdrawals in any order |
| SweepDetection.RaisedDriftIsConfirmed | pkg/sweeper/confirm.go:81-252 | over every interleaving the first cycle due for a candidate takes it and, once done with it having seen it differ whenever it looked, has confirmed it, leaving an episode of its version and window, confirmed when the cycle began and first seen when the candidate was unless it was open before |
| SweepDetection.RaisedDriftCanBeConfirmed | pkg/sweeper/confirm.go:81-252 | from every reachable state in which the candidate waits, while its key keeps drifting, a cycle that starts once it is due can run until it has confirmed it |
| Lag.SettledIsHeld | pkg/oracle/settle.go:109-114 | either clause of the settlement test means the value has been held past the window |
| Lag.SettledIff | pkg/oracle/settle.go:105-114 | on every history, a key is settled if and only if its last event is more than the window ago or its value has been held for more than the threshold |
| Lag.HeldIsNotShowable | pkg/oracle/settle.go:109-114 | a value held since before a time leaves no other value to be shown at it |
| Lag.LaggedReadAgrees | pkg/sweeper/confirm.go:158-236 | a lagging read shows the current value when no other value was expected within the lag |
| Lag.ConfirmedOnlyIfRaced | pkg/sweeper/sweeper.go:457-621 | on a target at most two windows behind, over every interleaving of events, marks, sweeps and any number of cycles, a candidate that reaches confirm was captured while another value had been expected less than a window before its sweep began |
| Lag.EpisodesOnlyIfRaced | pkg/sweeper/confirm.go:239-252 | every open episode was opened and last confirmed from such a capture; where there was none, nothing was ever confirmed |
| Lag.RaceIsAChange | pkg/sweeper/sweeper.go:474-488 | such a capture needs an event that changed the value after the key was listed and before it was captured; a repeat of the value is none |
| LagRace.RacedCaptureCanConfirm | pkg/sweeper/sweeper.go:457-621 | from every state with a trusted, unqueued capture at the current version, room in the queue and another value still showable and not excused when the candidate comes due, some continuation within that lag confirms it |
| LagExact.CaptureConfirmsIff | pkg/sweeper/sweeper.go:457-621 | in every state that arises and for every lag up to two windows, a trusted capture, not yet acted on, of a key neither queued nor in an episode can be confirmed if and only if another value will be showable when its candidate comes due, or now if later, and expiry does not excuse it |
| LagRefresh.MixesIffWritten | pkg/sweeper/sweeper.go:601-621 | in every state that arises, a refresh brings a finding about another version than the one confirmed if and only if the key was written after the confirmed version and before the sweep captured it |
| LagWithdraw.EventWithdraws | pkg/sweeper/sweeper.go:655-691 | over every run, once an event for a key has been applied, unless something shows a finding of the key since, the next withdrawal against the oracle's own versions leaves the key in no episode |
| LagWithdraw.WithdrawnIff | pkg/sweeper/sweeper.go:672-691 | a withdrawal against the oracle's own versions leaves exactly the episodes about the version the oracle holds |
| LagRace.RaceConfirmsFalsely | pkg/sweeper/sweeper.go:457-488 | for every window a run from the start in which every read, the sweep's and the cycle's, is at most one window behind and a finding is confirmed |
| GapSets.AddRangeMeaning | pkg/seqtrack/gapset.go:55-105 | adding covers exactly the range besides what was covered and keeps the list sorted, disjoint and non-adjacent |
| GapSets.FillOneMeaning | pkg/seqtrack/gapset.go:111-134 | filling uncovers exactly one number and keeps the form |
| GapSets.MergeMeaning | pkg/seqtrack/gapset.go:190-204 | a merge keeps everything covered and adds exactly hole - 1 numbers |
| GapSets.CapMergesSmallestHole | pkg/seqtrack/gapset.go:190-204 | each merge the cap forces uses the smallest hole there is |
| GapSets.CappedMeaning | pkg/seqtrack/gapset.go:190-204 | the cap bounds the list, loses no number, and sets the truncated flag exactly when it had to merge |
| GapSets.CountIsCardinality | pkg/seqtrack/gapset.go:148-154 | the count is the number of numbers covered |
| GapSets.CanonicalIsUnique | pkg/seqtrack/gapset.go:55-134 | the list is determined by what it covers |
| GapSets.RunStands | pkg/seqtrack/gapset.go:55-176 | over every run the list is within the cap, covers everything missing, and covers nothing else while untruncated |
| GapSets.SearchEnding | pkg/seqtrack/gapset.go:178-187 | binary search finds the first interval ending at or after a number |
| GapSets.FindSmallest | pkg/seqtrack/gapset.go:190-204 | one pass finds the first smallest hole |
| GapSets.EnforceCap | pkg/seqtrack/gapset.go:190-204 | repeated merging until the list fits |
| GapSets.AbsorbRange | pkg/seqtrack/gapset.go:55-105 | the splice absorbs every interval that overlaps or abuts |
| GapSets.RemoveNumber | pkg/seqtrack/gapset.go:111-134 | removal shrinks, drops or splits the one interval that holds the number |
| GapSets.IsMissing | pkg/seqtrack/gapset.go:141-187 | membership is coverage |
| GapSets.GapSet.AddGap | pkg/seqtrack/gapset.go:55-105 | the object's state moves by Add and stays canonical within its cap |
| GapSets.GapSet.FillGap | pkg/seqtrack/gapset.go:111-134 | the object's state moves by Fill and stays canonical within its cap |
| GapSets.GapSet.Contains | pkg/seqtrack/gapset.go:141-141 | reports coverage |
| GapSets.GapSet.Total | pkg/seqtrack/gapset.go:148-154 | sums the intervals |
| GapSets.GapSet.Clear | pkg/seqtrack/gapset.go:172-176 | forgets everything, the truncated flag included |
| Trackers.ObserveHonest | pkg/seqtrack/seqtrack.go:189-263 | every event keeps the books honest: all numbers from baseline to high-water mark accepted, forgiven or recorded missing, and gaps strictly between |
| Trackers.NeverAcceptedTwice | pkg/seqtrack/seqtrack.go:189-263 | while untruncated a number accepted in this incarnation is not accepted into it again |
| Trackers.ClearHonest | pkg/seqtrack/seqtrack.go:362-369 | a snapshot forgives exactly what was recorded missing |
| Trackers.TrustIsHonest | pkg/seqtrack/seqtrack.go:345-357 | trust implies every number from the baseline was accepted or forgiven; the count behind it cannot wrap |
| Trackers.TrustIsHonestOnEveryRun | pkg/seqtrack/seqtrack.go:189-369 | the same in every state reachable by events, snapshots, resets and evictions, and no number accepted twice |
| Trackers.WrapsOnlyAtTheTop | pkg/seqtrack/seqtrack.go:230-238 | the classification is the unbounded one exactly when the high-water mark is below the top or the number is zero |
| Trackers.VerdictIff | pkg/seqtrack/seqtrack.go:189-303 | below the top each verdict is given exactly when its condition on epochs and numbers holds, the silent restart included |
| Trackers.ObservedTells | pkg/seqtrack/seqtrack.go:205-262 | what each verdict leaves of epoch, high-water mark, missing numbers and counters |
| Trackers.RenumberedIsHeard | pkg/seqtrack/seqtrack.go:287-303 | after a silent restart every consecutive event is accepted, trusted, and nothing missed before counts against the publisher |
| Trackers.TopNumberAcceptedTwice | pkg/seqtrack/seqtrack.go:230-238 | a repeat of the top number is accepted as a jump from zero |
| Trackers.ObservePub | pkg/seqtrack/seqtrack.go:200-263 | computes the verdict, the new state and the newly lost range for every number, the top one included; a restart is recognised exactly for a later epoch, or a number far below the high-water mark and near zero |
| Trackers.ObserveSameEpoch | pkg/seqtrack/seqtrack.go:222-263 | within an epoch the number alone decides; a restart is recognised exactly far below the high-water mark and near zero |
| Trackers.FindOldest | pkg/seqtrack/seqtrack.go:306-319 | finds the least recently seen publisher, the first by name among equals |
| Trackers.NameBeforeIff | pkg/seqtrack/seqtrack.go:306-319 | names are ordered by the first character that differs, a prefix first |
| Trackers.ObserveIn | pkg/seqtrack/seqtrack.go:189-294 | one event moves one publisher and keeps the map within its bound, evicting the oldest for a newcomer |
| Trackers.Tracker.Observe | pkg/seqtrack/seqtrack.go:189-294 | the tracked publishers move by one event, with each verdict given exactly when its condition on epochs and numbers holds; until the top number is seen every publisher's books stay honest |
| Trackers.Tracker.Trust | pkg/seqtrack/seqtrack.go:345-357 | complete only on honest evidence, unknown publishers included as the source has it |
| Trackers.Tracker.ClearGaps | pkg/seqtrack/seqtrack.go:362-369 | forgives one publisher's gaps, leaving none, and touches no other |
| Trackers.Tracker.Reset | pkg/seqtrack/seqtrack.go:374-379 | forgets every publisher |
| Reordering.AscendingMeaning | pkg/check/reorder.go:169-191 | draining releases exactly what was held, in ascending order |
| Reordering.ConsecutiveMeaning | pkg/check/reorder.go:155-165 | what is let through is ascending from the expectation, and what stays is beyond it |
| Reordering.EveryLineIsSound | pkg/check/reorder.go:91-214 | on every run each offered event is released once, still held, or repeats a held number; held numbers exceed the expectation; fewer than the cap are held; releases that are not late ascend within a stay |
| Reordering.NothingOverstays | pkg/check/reorder.go:198-214 | after a flush nothing that arrived at or before now - window is held |
| ReorderMarks.StepMark | pkg/check/reorder.go:91-214 | after a step the mark is the earliest arrival among what waits if nothing waits, or nothing waited before, or it was and the step did not let everything of that arrival through and leave something |
| ReorderMarks.MarkIsEarliestIff | pkg/check/reorder.go:52-53 | in every state of every run the mark is the earliest arrival among what waits if and only if no event let through in order, since the line last began to hold, took the mark with it |
| ReorderMarks.FlushedEarlyIff | pkg/check/reorder.go:198-214 | in every state of every run in which nothing has waited out the window, some later flush lets everything go too early if and only if the mark was taken |
| ReorderMarks.MarkOutlivesItsEvent | pkg/check/reorder.go:155-165 | a run in which the event that set the mark is let through and the flush releases the next after no wait |
| Reordering.ReleasesAscendIff | pkg/check/reorder.go:91-134 | over every run releases that are not late strictly ascend within each epoch if and only if every event that opens a stay carries a number beyond everything of its epoch released in order before |
| Reordering.ReleasesAscendWithinEpoch | pkg/check/reorder.go:91-134 | when epochs never go back, releases that are not late strictly ascend within each epoch |
| Reordering.StragglerRepeatsRelease | pkg/check/reorder.go:112-119 | a straggler from an older epoch makes a released number be released again as new |
| Reordering.ExpectationFollows | pkg/check/reorder.go:106-191 | after everything an offer or a flush releases in order the expectation is the successor of the last number, past it exactly when it is below the top |
| Reordering.TopNumberIsHeldAgain | pkg/check/reorder.go:106-131 | past the top the expectation wraps: a repeat of the top number is held back, waiting for zero |
| Reordering.SortedNumbers | pkg/check/reorder.go:174-178 | the held numbers in strictly ascending order |
| Reordering.DrainLine | pkg/check/reorder.go:169-191 | releases everything in order and moves the expectation past the highest |
| Reordering.ReleaseConsecutive | pkg/check/reorder.go:155-165 | the loop computes the consecutive run |
| Reordering.HoldInLine | pkg/check/reorder.go:137-152 | parks the event, or drains everything at the cap |
| Reordering.OfferLine | pkg/check/reorder.go:91-134 | routes an event by whether it opens, repeats, continues or runs ahead |
| Reordering.ExpireLines | pkg/check/reorder.go:198-214 | every overdue line is drained once, in whatever order publishers are visited |
| Reordering.ReorderBuffer.Present | pkg/check/reorder.go:91-134 | one publisher's line and history move by one offer, every line stays sound until the top number is seen; a disabled buffer passes the event on |
| Reordering.ReorderBuffer.ExpireAll | pkg/check/reorder.go:198-214 | every line moves by one flush and stays sound |
| Projections.SplitJoins | pkg/projection/keyset.go:180-208 | splitting a delimited value loses nothing: joining the pieces gives it back |
| Projections.SplitIff | pkg/projection/keyset.go:184-184 | the pieces are exactly those that give the text back and each run up to the first delimiter after them |
| Projections.NamedIff | pkg/projection/keyset.go:184-196 | a delimited value names its pieces that are not empty |
| Projections.ParseInt64Iff | pkg/projection/counter.go:91-94 | a text is a number exactly if it is an optional sign and digits within 64 bits, and is worth what it says |
| Projections.OutcomeTells | pkg/projection/keyset.go:86-208 | exactly when an event is refused, when members are said to be turned away, when a sum is said to be clamped, and which key is written |
| Projections.AddSaturatingClamps | pkg/projection/counter.go:120-130 | the wrapped sum betrays every overflow: the result is the clamped true sum and the flag says exactly when |
| Projections.CollectMembers | pkg/projection/keyset.go:180-196 | the loop takes members up to the cap and says whether a field met the full set |
| References.RunFold | pkg/projection/reference.go:50-70 | the loops compute the reference fold without absent keys |
| References.TakenWithin | pkg/projection/keyset.go:180-208 | a capped replacement is a subset within the cap, and everything when no field met the full set |
| References.SpuriousFlagIff | pkg/projection/keyset.go:180-208 | nothing is lost exactly when the members fit the cap; the flag is raised all the same exactly when they fill it and a field follows once all are taken |
| References.RepeatRaisesFlag | pkg/projection/keyset.go:186-190 | two members, a cap of two and the first named again: nothing lost, flag raised |
| References.FoldRefinesReference | pkg/projection/keyset.go:86-208 | for every event list the projection gives every key exactly the reference value when the cap never bound |
| References.CappedFoldIsSubset | pkg/projection/keyset.go:132-208 | whatever the cap does, a key's members are a subset of the uncapped fold within the cap |
| OrderIndependence.LastWordDecides | pkg/projection/reference.go:83-118 | membership is decided by the last add or remove of that member |
| OrderIndependence.InterleavingsAgree | pkg/check/check.go:815-822 | adds and removes whose publishers own their members give the same sets under every interleaving that keeps each publisher's order |
| OrderIndependence.SharedMemberDependsOnOrder | pkg/check/check.go:815-822 | without ownership two interleavings differ |
| OrderIndependence.TotalIsDifference | pkg/projection/counter.go:120-130 | while gains and losses each fit in 64 bits nothing saturates and the total is their difference |
| OrderIndependence.PermutationsAgree | pkg/projection/counter.go:120-130 | increments reach the same total under every permutation when gains and losses each fit |
| OrderIndependence.SaturationDependsOnOrder | pkg/projection/counter.go:120-130 | beyond 64 bits two orders of the same increments differ |
| Pipelines.OrderIsRecovered | pkg/check/check.go:622-760 | any delivery that permutes and repeats a contiguous stream, starts with its first number and meets neither cap, expiry nor restart test leaves exactly the reference fold of the stream, all trusted, nothing waiting |
| Pipelines.EveryOrderIsRecovered | pkg/check/check.go:622-760 | for streams short enough the conditions hold by themselves: every order is recovered |
| PipelineDoubt.LossMeansDoubt | pkg/check/check.go:655-673 | over every run, when something delivered or flushed shows in sequence numbers that events were missed or that the publisher started again, every key it may own is suspect and stays so until it is written again or a snapshot completes |
| PipelineDoubt.LossCastsDoubt | pkg/check/check.go:884-917 | a gap or a restart leaves no owned key trusted but the one the event writes, and changes nothing else of their records |
| PipelineDoubt.GapDoubtsTheWrite | pkg/check/check.go:724-760 | while a number is missing, what the event writes is not trusted either |
| PipelineDoubt.SnapshotRestores | pkg/check/check.go:685-708 | a completed snapshot takes the doubt back from exactly the owned suspect keys and forgives what was missing |
| PipelineDoubt.NextIsTrustedIff | pkg/check/check.go:724-760 | the next event in sequence is written trusted if nothing is missing and suspect otherwise |
| PipelineDoubt.FoldedUnlessRepeated | pkg/check/check.go:655-760 | a repeat or a leftover of an older epoch changes no record, and any other event is folded once, whatever it does to trust |
| PipelineDoubt.WriteIsStamped | pkg/oracle/oracle.go:165-264 | what is written carries the time the event was received, its trust, one more version and whether members were turned away |
| Pipelines.ApplyEvent | pkg/check/check.go:655-760 | one released event through tracker, doubt, snapshot and projection, its record stamped with the event's own receipt time |
| Pipelines.ApplyEach | pkg/check/check.go:641-650 | released events are applied in order |
| Pipelines.Applier.Ingest | pkg/check/check.go:622-650 | a delivered event moves buffer and oracle as specified |
| Pipelines.Applier.FlushReorder | pkg/check/check.go:1276-1281 | a flush applies what has waited too long |
| Pipelines.IngestAll | pkg/check/check.go:622-760 | the running applier, fed a short stream in any order, leaves the reference fold of the stream |
| Registries.MutualExclusion | internal/controller/runner.go:624-648 | two calls holding one key's mutex are one call, though the mutex is made and dropped on demand |
| Registries.LeaveCounted | internal/controller/runner.go:636-647 | the last one out drops the mutex, and nobody else was in line for it |
| Registries.KeysAreExclusive | internal/controller/runner.go:624-648 | over every interleaving no two calls work on one key at once |
| Registries.SomeCallCanMove | internal/controller/runner.go:604-648 | no deadlock: in every reachable state in which a call has not returned some call can take its next step |
| Registries.OneRunnerPerKey | internal/controller/runner.go:260-410 | over every interleaving a key has at most one uncancelled runner and it is the one in the map |
| Registries.StopStops | internal/controller/runner.go:447-480 | over every interleaving a Stop that is done with its key has left no runner of it, in the map or uncancelled |
| Registries.StartsOnNothing | internal/controller/runner.go:314-324 | over every interleaving an Ensure that starts a runner has first left none of its key, so what it chose to replace is gone |
| Registries.EnsureLeaves | internal/controller/runner.go:260-357 | over every interleaving an Ensure that kept, started or replaced a runner leaves one in the map and uncancelled, and one that took its own back, could not build or gave up leaves none |
| Registries.StopAlone | internal/controller/runner.go:447-480 | a Stop cancels the runner there is and takes it out of the map; without one it changes nothing |
| Registries.EnsureStarts | internal/controller/runner.go:260-324 | an Ensure that finds no runner starts one |
| Registries.EnsureKeeps | internal/controller/runner.go:274-293 | an Ensure that finds a runner it need not replace keeps it |
| Registries.EnsureReplaces | internal/controller/runner.go:293-324 | one that has to replace it cancels it, takes it out of the map and starts another |
| Registries.StartFails | internal/controller/runner.go:375-386 | a build that fails leaves the runners as they are |
| Registries.ReplaceGivesUp | internal/controller/runner.go:314-320 | an Ensure that gives up waiting for the old runner has cancelled it and starts nothing |
| Registries.EnsureTurnedAway | internal/controller/runner.go:266-268 | after the latch an Ensure is turned away at once and changes nothing |
| Registries.MutexesAreDropped | internal/controller/runner.go:619-648 | a mutex exists only while a call holds or wants it |
| Registries.ShutdownLeavesOnlyTakebacks | internal/controller/runner.go:326-367 | after Shutdown returned, a live runner's own Ensure is about to take it back |
| Registries.LiveIffTakenBack | internal/controller/runner.go:326-367 | after Shutdown returned, a key has a live runner if and only if an Ensure on it is about to take that runner back |
| Registries.ShutdownIsFinal | internal/controller/runner.go:326-367 | once Shutdown and every Ensure have returned no uncancelled runner remains |
| Registries.ShutdownAloneIsNotFinal | internal/controller/runner.go:326-367 | a run in which Shutdown has returned and a runner is live |
| FakeClocks.FireProgress | pkg/clock/clock.go:219-243 | each firing moves time forward or leaves fewer waiters due at it, and keeps deadlines from falling behind |
| FakeClocks.RunToSettles | pkg/clock/clock.go:205-246 | afterwards it is the target time and nothing is due |
| FakeClocks.AdvanceComposes | pkg/clock/clock.go:205-246 | two advances reach the same time, deadlines, channel contents and firings as one |
| FakeClocks.TickerFires | pkg/clock/clock.go:236-240 | a ticker fires once per period and lands within one period past the target |
| FakeClocks.TimerFires | pkg/clock/clock.go:236-240 | a due timer fires exactly once and is gone |
| FakeClocks.FiresInOrder | pkg/clock/clock.go:284-296 | firings are in time order |
| FakeClocks.PendingTickStays | pkg/clock/clock.go:228-234 | a channel that holds a tick keeps it |
| FakeClocks.FirstTickIsDelivered | pkg/clock/clock.go:219-243 | after an advance a channel holds the tick that was waiting, or else the scheduled time of the waiter's first firing, or nothing if it had none |
| FakeClocks.FiresOnSchedule | pkg/clock/clock.go:219-243 | each new firing is at one of its waiter's scheduled times, not where the advance got to |
| FakeClocks.FindEarliest | pkg/clock/clock.go:284-296 | the earliest due waiter, ties to the earlier registration, in whatever order the map is walked |
| FakeClocks.AdvanceTo | pkg/clock/clock.go:217-243 | the loop ends and computes the specified clock |
| FakeClocks.FakeClock.Register | pkg/clock/clock.go:263-278 | a new waiter with its own channel, due after a non-negative delay |
| FakeClocks.FakeClock.Stop | pkg/clock/clock.go:312-321 | removes the waiter and says whether it was pending |
| FakeClocks.FakeClock.Reset | pkg/clock/clock.go:325-337 | re-arms the waiter from now |
| FakeClocks.FakeClock.Receive | pkg/clock/clock.go:229-234 | takes the tick the channel of one holds and leaves room for the next |
| FakeClocks.FakeClock.Advance | pkg/clock/clock.go:205-246 | runs to now + d; no pending deadline is left at or before it |
| FakeClocks.AdvanceTwice | pkg/clock/clock.go:205-246 | a clock advanced twice equals one advanced once |
| JsonCompleteness.PiecesScan | pkg/codec/json.go:943-967 | a string's contents are scanned to just past the closing quote, and escapes are noticed |
| JsonCompleteness.FigureScans | pkg/codec/json.go:971-1017 | a number is scanned to the byte that ends it |
| JsonCompleteness.ValueScans | pkg/codec/json.go:837-931 | every value's text is scanned to its end exactly when nested within the limit, with its kind; deeper ones are refused as too deep |
| JsonStrings.UnescapeMeaning | pkg/codec/json.go:1020-1094 | decoding gives exactly what a written string means, surrogate pairs and lone surrogates included |
| JsonStrings.ShortTells | pkg/codec/json.go:1020-1063 | what each two-character escape stands for, and that no other is one |
| JsonStrings.CodeTells | pkg/codec/json.go:1065-1094 | four hexadecimal digits in either case are worth what they say |
| JsonStrings.JoinedTells | pkg/codec/json.go:1065-1094 | a surrogate pair stands for the code point it splits |
| JsonStrings.Utf8Decodes | pkg/codec/json.go:1020-1063 | what is written for a code point decodes to it and takes no more bytes than it needs |
| JsonStrings.StringRoundTrip | pkg/codec/json.go:943-1063 | any byte string survives being escaped, scanned and decoded |
| JsonCapture.LastOneWins | pkg/codec/json.go:242-250 | a repeated field keeps its last occurrence |
| JsonCapture.LookupMeans | pkg/codec/json.go:317-331 | a name feeds the fields of what it means, escaped or not; one that cannot be decoded feeds none |
| JsonCapture.TopScans | pkg/codec/json.go:254-312 | every object with blanks around it is scanned to the end exactly when nested within the limit |
| JsonCapture.LastOccurrenceIsCaptured | pkg/codec/json.go:254-312 | each mapped field is captured from its last occurrence, byte for byte, and from nowhere else |
| JsonSoundness.AcceptedIff | pkg/codec/json.go:254-312 | a payload is accepted exactly if it is one object of the grammar nested within the limit with nothing around it but blanks; every other text is refused |
| JsonSoundness.ValueSound | pkg/codec/json.go:837-931 | whatever is scanned as a value is the text of one, nested within the limit, of the kind reported |
| JsonParser.FindClosingQuote | pkg/codec/json.go:943-967 | the loop finds the closing quote or fails, and never reads past the end |
| JsonParser.Parser.ScanQuoted | pkg/codec/json.go:943-967 | the cursor moves past the string |
| JsonParser.Parser.ScanFigure | pkg/codec/json.go:971-1017 | the cursor moves past the number |
| JsonParser.Parser.ScanAny | pkg/codec/json.go:837-866 | the cursor does what the scan of a value says |
| JsonParser.Parser.ScanObject | pkg/codec/json.go:868-903 | the cursor does what the scan of an object says |
| JsonParser.Parser.ScanArray | pkg/codec/json.go:905-931 | the cursor does what the scan of an array says |
| JsonCodec.DecodeEscapes | pkg/codec/json.go:1020-1063 | the buffer loop computes the decoding |
| JsonCodec.ScanPayload | pkg/codec/json.go:254-312 | the parser run over a payload computes the scan |
| JsonCodec.ScanObjectText | pkg/codec/json.go:254-331 | the parser run on any object within the limit captures each mapped field from its last occurrence |

## Left out

- pkg/source, internal/cli, cmd, hack, pkg/logging, pkg/metrics: transports, flags, exporters and I/O.
- api/v1alpha1 and pkg/check/config.go: defaulting, conversion and validation, each settled by reading it.
- pkg/explain and pkg/differ/report.go: rendering and diagnosis.
- pkg/lag: the window is an input bounded by the maximum.
- pkg/sweeper/extras.go and pkg/oracle/ring.go: easier versions of two-phase confirmation and bounded history.
- The target store: an abstract read that returns a value, a wrong type or a failure.
- Timestamps, durations, the event a decoded payload becomes, and the msgpack and template codecs.
- Lifetimes: TTL expiry in the oracle, `CompareTTL`, and the TTL fields of mutations.
- Glob syntax (a predicate on keys) and the hash that routes a key to a shard (a routing function).
- Subscribers, published findings, sweep reports, and the member lists `diffMembers` prints.
- Check's phases, status, skew measurement and the multi-writer warning.
- Generation counters are unbounded; the source's 64-bit counters would take centuries to wrap.
- AdoptSnapshot is modelled key by key, not concurrently with ingest; Apply, mark and clear are atomic steps.
- Oracles.Oracle.SettledKeys: lists all shards in one step. The source yields lazily; that laziness is modelled in SweepRuns and Lag, where keys are listed one at a time.
- Sweepers.Sweeper.ConfirmDue: one call from start to end; calls that overlap are in SweepRuns. `displaced` is a counter of the model, for the loss SweepLoss describes; the source has none.
- Lag: versions are those of keys that are not evicted; OracleVersions says what an eviction does to them.
- Trackers.Tracker.Observe: FirstSeen and Bootstrap are not recorded; publishers have names, as validation demands.
- Pipelines.OrderIsRecovered: one publisher; other publishers' events and the key budget are not in the run.
- Registries: what a runner does, the wait for it and the restart throttle are free choices; the wait's grace period only decides whether an error is returned.
- FakeClocks: BlockUntil and Sleep.
- JsonGrammar: the grammar is the scanner's own, a little wider than RFC 8259: numbers may have leading zeros, and a backslash in a string hides any byte. `Strict` pieces are RFC 8259's escapes, and what names and strings mean is stated for those.
- JsonCodec: the payload size limit, and the conversion of captured bytes into event fields.
