# Muna server: verified model

A Dafny model of the concurrent core of the Muna inference server, with proofs of what that core promises.

| part | files | what it is |
|---|---|---|
| Device lease | `RealSums`, `LeaseSplit`, `LeaseSolver`, `LeasePlan`, `LeaseDemand`, `LeaseLoop`, `LeaseGuarantees` | Splits each accelerator's time among co-resident engines: floors, value-ordered water-fill, leftovers, a second pass at the bottleneck, stride weights and demand smoothing. `LeaseSplit` says what a split is and proves what follows; `LeaseSolver` shows that the loops compute one; `LeaseGuarantees` says what a policy gets out of it. |
| Batching | `Values`, `Merge`, `BatchTransparency`, `BatchQueue`, `BatchWorker`, `BatchService`, `BatchAnswers`, `BatchPlan`, `BatchKeys` | Merges compatible requests, invokes once, splits the results. `BatchQueue` is the accumulator as runs of filing and flushing over one list; `BatchWorker` is the same accumulator over its per-key queues; `BatchService` bounds how many passes serve a request. |
| Event relay | `KvRelay`, `KvReplication`, `KvSessions` | Relays engine cache events to the control plane over a lossy link. `KvReplication` puts engine, wire, relay and plane together; `KvSessions` follows the posts of one connection. |
| Model lifecycle | `Registry`, `CacheTier`, `DownloadGate`, `Reconcile`, `Passes`, `Convergence`, `ServingNode` | Single-flight loads, deferred unloads, disk-tier downloads behind a priority gate, and the heartbeat's declarative goals. `ServingNode` has the objects; the other files have the transitions they perform and their properties. |
| Invocation guard | `Invocation`, `CallerService`, `CallerProgress`, `EntryRemoval` | Exclusive native calls with callers that may vanish at any await, accumulators that exit, and entries that are removed; nobody is stuck, and everybody finishes. |
| Download locks | `DownloadLocks` | Reference-counted per-path mutexes with racing cleanup. |

Concurrent parts are state machines with one step for each lock scope, channel operation or await; a run is any
sequence of enabled steps, and the classes perform the same steps in place. `f64` is `real`. The solver's tolerance
is a parameter: every bound is stated for any tolerance and is exact at 0. Clocks, network replies, load outcomes,
predictor results and scheduling are parameters or choices of steps. Where the code walks a `HashMap` or `DashMap`,
every order is allowed.

Findings, each a property the code does not have on all inputs, with the input and the condition:

- `Registry.RemoveSafeIff`, `Registry.RunSoundIff`: `unload` looks at a slot under one lock and removes it under
  another. If a load starts in between, the removal loses the engine (`Registry.StaleUnloadLosesEngine` is such a run);
  a run stays sound exactly when no slot is loading at the moment it is removed.
- `EntryRemoval.RemovalIsSafeIff`: the dispatcher's exclusion is per entry. Removing an entry keeps the predictor
  exclusive exactly when no call, waiter, guard holder or request refers to its lock; otherwise a later caller builds a
  second lock and invokes beside it. `EntryRemoval.UnsafeRemovalIsReached` is such a run.
- `Invocation.LookupPanicsIff`: a caller looks at its entry twice, and panics at the second look exactly when the last
  step that changed the entry in between was a removal; a later publication makes up for it.
  `Invocation.PanicIsReached` is a run that panics.
- `BatchTransparency.BatchingIsTransparentIff`: a result that is not per row is cut up exactly when its leading size
  happens to equal the batch's row count; `BatchTransparency.CutBatchExists` is such a batch.
- `BatchAnswers.FlushIsTransparentIff`: the acceleration is not part of the key, so a merged request runs under the
  first one's (`BatchAnswers.AccelerationIsTheFirsts`), and one failing request fails its whole batch
  (`BatchAnswers.FailureSpreads`). Under the first one's acceleration a flush gives everybody its own answer exactly
  when the batch is a single request, or all fail with one error, or none fails and no result is cut up; such a batch
  also answers everybody as under its own acceleration exactly when the accelerations make no difference to anybody.
- `BatchKeys.KeyDecidesIff`: the batch key joins names and values without escaping. A text takes in whatever is spelled
  after it, and the name of a comparable value that is spelled last takes in whatever is spelled before it, so a request
  with two or more broadcast values and such a one among them shares its key with another
  (`BatchKeys.ManyValuesCollide`; `BatchKeys.SeparatorsCollide` is such a pair), even when it holds no separator itself.
  The key decides a separator-free request exactly when it has at most one value, or no text and an opaque value spelled
  last. When both requests of a pair are free of separators, equal keys do mean values that are alike
  (`BatchKeys.KeysEqualIff`).
- `BatchQueue.ChoiceIsSoleIff`: the comment at `src/serving/dispatch/worker.rs:113` says arrival order breaks deadline
  ties. The code takes a minimum over a hash map, so any of the tied keys may come first
  (`BatchQueue.ArrivalOrderBreaksNoTie` is such a queue); the choice is settled exactly when no other eligible key's
  front carries the same stamp.
- `DownloadLocks.TableEmptyIff`: cleanup is best effort. Cancelled downloads, and two that clean up beside one another
  (`DownloadLocks.OverlappingCleanUpsLeave`, reached by `DownloadLocks.OverlapIsReached`), leave entries behind; the
  table ends empty exactly when every mutex was cleaned up by its last owner.

## Model

| member | source | states |
|---|---|---|
| `LeaseSolver.SolveShares` | src/serving/lease_weights.rs:64-89 | the loop nest ends and answers a split that is within floor and demand, conserves the device, leaves time over only when demands are met, serves higher values first and is max-min fair inside a value tier, plus leftovers by value; for every tolerance, exact at 0 |
| `LeaseSolver.OrderByValue` | src/serving/lease_weights.rs:68-69 | every entry once, by falling value |
| `LeaseSolver.GrantOne` | src/serving/lease_weights.rs:76-81 | one member of the water-fill gets at most an even part, stays wanting exactly when it got all of it, and nothing else moves |
| `LeaseSolver.RetainRound` | src/serving/lease_weights.rs:73-82 | a round either empties `free` or drops somebody from `wanting`: why the inner loop ends |
| `LeaseSolver.FillTier` | src/serving/lease_weights.rs:70-83 | a tier is filled to one common level above the floors, capped by demand, out of what was free |
| `LeaseSolver.NextTier` | src/serving/lease_weights.rs:70-83 | filling the next tier keeps the order of values and the fairness already established |
| `LeaseSolver.TierEnd` | src/serving/lease_weights.rs:70-70 | a tier is the whole run of equal values |
| `LeaseSplit.SplitMonotone` | src/serving/lease_weights.rs:64-83 | with demands lowered anywhere, an entry keeps the smaller of its old allocation and its new demand (tolerance n times eps); so lowering only others never costs it |
| `LeaseSplit.SplitMonotoneOther` | src/serving/lease_weights.rs:70-83 | when demands are lowered and yet an unmet entry gets less, nobody else gets more than eps more |
| `LeaseSplit.SplitUnique` | src/serving/lease_weights.rs:64-83 | the split is determined by the inputs up to the tolerance, and exactly at 0: the specification leaves the solver no choice |
| `LeaseSplit.SplitIsOptimal` | src/serving/lease_weights.rs:66-83 | fractional knapsack: no allocation between floors and demands within the device is worth more |
| `LeaseSplit.LeftoverGrows` | src/serving/lease_weights.rs:66-87 | lower demands leave no less time over |
| `LeaseSplit.SharesMonotone` | src/serving/lease_weights.rs:64-89 | monotonicity survives the leftover step |
| `LeaseSplit.SharesConserve` | src/serving/lease_weights.rs:66-89 | every share covers its floor; shares sum to the whole device when floors fit and values do not all but vanish, and are exactly the floors when those oversubscribe it |
| `LeaseSplit.LeftoversSpread` | src/serving/lease_weights.rs:84-87 | the leftover step hands out at most the unclaimed time, and all of it unless the values sum below the machine epsilon |
| `LeasePlan.GroupByDevice` | src/serving/lease_weights.rs:98-101 | each device once, with exactly its registrants in input order |
| `LeasePlan.SolveDevices` | src/serving/lease_weights.rs:102-117 | each device's shares are the solver's answer for its registrants under the given caps |
| `LeasePlan.BottleneckCaps` | src/serving/lease_weights.rs:119-128 | a label on several devices is capped at its smallest first-pass share, a label on one is not capped |
| `LeasePlan.PlanShares` | src/serving/lease_weights.rs:97-129 | two solved passes, the second under the bottleneck caps of the first, with no regret |
| `LeasePlan.SecondPassKeepsShare` | src/serving/lease_weights.rs:118-128 | every registrant keeps what its whole label had |
| `LeasePlan.SecondPassHasNoRegret` | src/serving/lease_weights.rs:93-128 | capping at the bottleneck only helps: every label's smallest share is kept by the second pass |
| `LeasePlan.ShareSlackVanishes` | src/serving/lease_weights.rs:65-65 | at tolerance 0 the no-regret and monotonicity bounds have no slack |
| `LeaseDemand.WeightIsClose` | src/serving/lease_weights.rs:132-134 | a weight is never 0 and the nearest integer to the scaled share, except that small shares get 1 |
| `LeaseDemand.WeightIsMonotone` | src/serving/lease_weights.rs:132-134 | a larger share never weighs less |
| `LeaseDemand.WeightsTrack` | src/serving/lease_weights.rs:132-134 | weights of any shares sum to the scaled sum within one unit each |
| `LeaseDemand.ShareAtMostOne` | src/serving/lease_weights.rs:64-89 | no share exceeds the device, oversubscribed or not |
| `LeaseDemand.WeightsOnDevice` | src/serving/lease_weights.rs:35-37 | the weights of one device, none of them 0, add up to the scale give or take one unit per entry |
| `LeaseDemand.DemandApproaches` | src/serving/lease_weights.rs:168-177 | smoothing moves demand strictly towards the busy fraction, closing the gap by the smoothing factor |
| `LeaseDemand.FoldStaysUnit` | src/serving/lease_weights.rs:163-192 | a fraction stays a fraction through any counter snapshot |
| `LeaseDemand.ObservedIsUnit` | src/serving/lease_weights.rs:155-199 | every demand handed out, and every one kept, is a fraction |
| `LeaseDemand.DemandTracker.Observe` | src/serving/lease_weights.rs:155-199 | each registrant's demand in order; exactly the registrants seen stay tracked; restart on counters that go backwards |
| `LeaseDemand.ObservationIsKept` | src/serving/lease_weights.rs:158-192 | an observation keeps the counters and the time it saw; a new registrant, or one whose counters went backwards, has demand 1 |
| `LeaseDemand.ObservationsMeasureTheirDifference` | src/serving/lease_weights.rs:158-192 | two successive observations move the demand towards the fraction of the time between them spent holding or waiting |
| `LeaseDemand.AbsentIsForgotten` | src/serving/lease_weights.rs:193-199 | a registrant that is not in a snapshot is not tracked any more |
| `LeaseLoop.PolicyFor` | src/serving/lease_weights.rs:205-228 | whatever was sent, the policy is one the solver accepts: the nearest usable one, or the default for what is missing or no number |
| `LeaseLoop.DeviceWeightsAddUp` | src/serving/lease_weights.rs:35-37 | after the whole plan, the weights of each device add up to the scale within one unit per registrant |
| `LeaseLoop.SharesAreFractions` | src/serving/lease_weights.rs:97-129 | every planned share is between nothing and the whole device |
| `LeaseLoop.ToldEach` | src/serving/lease_weights.rs:260-262 | every registrant told runs at a weight that is never 0 and comes from its own share; nobody else's changes |
| `LeaseLoop.LeaseSolverLoop.TellWeights` | src/serving/lease_weights.rs:260-262 | exactly the planned weights are stored |
| `LeaseLoop.LeaseSolverLoop.Tick` | src/serving/lease_weights.rs:241-262 | a tick plans from observed demands and sanitized policies and stores the result; without registrants it touches nothing |
| `LeaseGuarantees.MinimumIsKept` | src/serving/lease_weights.rs:66-66 | on the inputs: a share is at least the guaranteed minimum, or at least what was asked for |
| `LeaseGuarantees.BelowUnmetGetsMinimum` | src/serving/lease_weights.rs:70-83 | before leftovers, an entry below an unmet one of higher value gets at most its guaranteed minimum |
| `LeaseGuarantees.HigherValueFirst` | src/serving/lease_weights.rs:64-89 | final shares: more than the minimum only once everybody of higher value is met, more than asked for only once everybody is |
| `LeaseGuarantees.EqualValuesEqualSurplus` | src/serving/lease_weights.rs:71-82 | among equal values, an unmet entry has as much above its minimum as anybody |
| `LeaseGuarantees.DeviceIsUsedUp` | src/serving/lease_weights.rs:84-87 | shares sum to the device, or to more and then nobody has more than its minimum, unless values sum below the machine epsilon |
| `LeaseGuarantees.VanishingValuesLeaveTime` | src/serving/lease_weights.rs:84-87 | below the machine epsilon, unclaimed time is handed out in proportion to the values over it |
| `LeaseGuarantees.LabelMinimumIsKept` | src/serving/lease_weights.rs:93-129 | through both passes, a label that may have and asks for `g` on every device gets it on every device, without slack |
| `LeaseGuarantees.PlanServesValueFirst` | src/serving/lease_weights.rs:93-129 | in the whole plan, more than the minimum only once single-device labels of higher value on the device are met |
| `LeaseGuarantees.PlanGivesNoMoreThanAsked` | src/serving/lease_weights.rs:93-129 | in the whole plan, more than asked for only once the single-device labels on the device are met |
| `LeaseGuarantees.BottleneckFreesTime` | src/serving/lease_weights.rs:118-128 | while a single-device label on a device is unmet, a label of several devices takes there no more than it got on each of them in the first pass |
| `LeaseGuarantees.GuaranteeReachesWeights` | src/serving/lease_weights.rs:205-262 | from policy to stride weight: a label that needs its minimum `g` runs at 1000 times `g` or more on every device, up to rounding |
| `LeaseGuarantees.SentValueDecides` | src/serving/lease_weights.rs:205-262 | the value sent for a label is what its registrants are ranked by |
| `LeaseGuarantees.ObservedDemandDecides` | src/serving/lease_weights.rs:241-262 | the demand observed for a registrant is what it is served up to |
| `BatchQueue.StepKeepsInv` | src/serving/dispatch/worker.rs:79-134 | filing and flushing keep conservation, order and good batches |
| `BatchQueue.RunKeepsInv` | src/serving/dispatch/worker.rs:67-134 | over every run, per key, flushed batches followed by the queue are what was filed, in order; every batch has one key and fits or is one oversized item |
| `BatchQueue.ChoiceIsSoleIff` | src/serving/dispatch/worker.rs:121-127 | the key to flush is settled exactly when no other eligible key's front has the same stamp |
| `BatchQueue.TiedKeysEitherFirst` | src/serving/dispatch/worker.rs:112-127 | two overdue requests of different keys with one stamp: either may be flushed first, whichever was filed first |
| `BatchQueue.ArrivalOrderBreaksNoTie` | src/serving/dispatch/worker.rs:113-113 | a reachable queue in which the later arrival may overtake the earlier |
| `BatchQueue.InOrderNothingLaterAhead` | src/serving/dispatch/worker.rs:57-59 | if stamps are filed in order, nothing stamped later is ever ahead of a request |
| `BatchQueue.FlushServesOldest` | src/serving/dispatch/worker.rs:112-126 | once everything up to a request is overdue, what is flushed starts with a stamp no later than the latest ahead of it |
| `BatchQueue.FlushLowersRank` | src/serving/dispatch/worker.rs:117-134 | each such flush strictly lowers the number of pending requests stamped no later than that |
| `BatchQueue.WaitIsBounded` | src/serving/dispatch/worker.rs:153-199 | a request waits for fewer flushes than there were requests stamped no later than the latest stamp ahead of it, whatever other keys arrive and in whatever order stamps are filed |
| `BatchService.PassServesOrAdvances` | src/serving/dispatch/worker.rs:159-176 | a pass past the deadline flushes, and serves the request or brings it closer |
| `BatchService.ServedInTime` | src/serving/dispatch/worker.rs:153-199 | within that many passes past the deadline the request has been flushed |
| `BatchService.PassFlushesIff` | src/serving/dispatch/worker.rs:112-134 | a pass flushes one batch exactly when some key's waiting rows reach the capacity, whatever the clock, or its first request has waited 100 ms |
| `BatchService.FlushFillsUp` | src/serving/dispatch/worker.rs:79-97 | the batch is the front of a due key's requests and the request left behind it would not have fitted; other keys keep theirs |
| `BatchService.ReceivedIsFlushedOrWaits` | src/serving/dispatch/worker.rs:159-197 | whatever the passes received is, per key and in order, in the batches flushed and then in the queue |
| `BatchWorker.KeyQueue.PushBack` | src/serving/dispatch/worker.rs:108-109 | the queue grows at its end and its total stays exact |
| `BatchWorker.KeyQueue.TakeBatch` | src/serving/dispatch/worker.rs:81-97 | the batch is the largest prefix that fits, or one oversized item; batch and rest are the old queue |
| `BatchWorker.PrefixIsLargest` | src/serving/dispatch/worker.rs:84-95 | stopping when full or at the first item that overflows gives the largest prefix |
| `BatchWorker.BufferedWorker.FileItem` | src/serving/dispatch/worker.rs:101-110 | a request joins exactly its key's queue |
| `BatchWorker.BufferedWorker.EarliestKey` | src/serving/dispatch/worker.rs:121-127 | it finds a key exactly when one is at capacity or overdue, and no eligible key has an earlier deadline |
| `BatchWorker.BufferedWorker.TakeFlushable` | src/serving/dispatch/worker.rs:117-134 | the batch flushed is an enabled flush of the queues, and no empty queue stays |
| `BatchWorker.BufferedWorker.FlushBatch` | src/serving/dispatch/worker.rs:201-225 | every request of the batch is answered once, in order, and the flush is logged |
| `BatchWorker.BufferedWorker.RunPass` | src/serving/dispatch/worker.rs:159-197 | a pass files everything sent, flushes the earliest eligible key if there is one, and otherwise files at most the arrival that woke it |
| `BatchWorker.BufferedWorker.Run` | src/serving/dispatch/worker.rs:153-199 | every pass has its effect until the channel closes; the execution conserves requests and order, and answers each flushed request exactly once |
| `BatchWorker.BufferedWorker.FileAll` | src/serving/dispatch/worker.rs:162-165 | everything waiting in the channel is filed, in order |
| `BatchAnswers.ProcessBatch` | src/serving/dispatch/worker.rs:227-252 | one merged invocation: each caller gets its own piece, or everybody the error |
| `BatchAnswers.Flush` | src/serving/dispatch/worker.rs:209-215 | a lone request gets the predictor's own answer |
| `BatchAnswers.BatchFailsAsFirst` | src/serving/dispatch/worker.rs:227-252 | for a predictor that stops at the first failing row, a merged batch fails exactly when some request of it would fail alone, with the first such request's error |
| `BatchAnswers.FlushIsTransparentIff` | src/serving/dispatch/worker.rs:201-252 | for a row-wise predictor, failing rows and acceleration-dependent outputs included, and equal broadcast values: under the first request's acceleration each caller gets exactly what it would get alone, if and only if it is alone, or all requests fail with one error, or none fails and no whole output is as long as the batch; such a batch answers everybody as under its own acceleration exactly when the accelerations make no difference |
| `BatchAnswers.FailureSpreads` | src/serving/dispatch/worker.rs:246-250 | a concrete batch in which a request that would have been served gets its companion's error |
| `BatchAnswers.AccelerationIsTheFirsts` | src/serving/dispatch/worker.rs:231-234 | a concrete batch in which a request is answered under an acceleration it did not ask for |
| `BatchAnswers.MergedReady` | src/serving/dispatch/merge.rs:16-39 | a merged batch is itself a well-formed request of the summed row count |
| `Merge.CombineLists` | src/serving/dispatch/merge.rs:30-36 | a batch parameter's lists, concatenated in request order |
| `Merge.CopyBroadcast` | src/serving/dispatch/merge.rs:24-28 | exactly the first request's broadcast parameters |
| `Merge.MergeInputs` | src/serving/dispatch/merge.rs:16-39 | one request unchanged; several merged per parameter |
| `Merge.RowBounds` | src/serving/dispatch/merge.rs:57-61 | a request's slice of a tensor lies within its data |
| `Merge.SplitOne` | src/serving/dispatch/merge.rs:51-86 | each request receives its own piece of one result |
| `Merge.SplitResults` | src/serving/dispatch/merge.rs:43-89 | each request receives its piece of every result, in result order |
| `BatchTransparency.CombinedRows` | src/serving/dispatch/merge.rs:29-37 | a request's rows sit in the merged list at its offset |
| `BatchTransparency.MergedRow` | src/serving/dispatch/merge.rs:16-39 | a row of the merged batch is the request's own row |
| `BatchTransparency.MergedBroadcast` | src/serving/dispatch/merge.rs:24-28 | the merged batch has the broadcast values every request of it has |
| `BatchTransparency.MergedKeepsOthers` | src/serving/dispatch/merge.rs:24-28 | the merged request has every unbatched parameter exactly as each request of the batch has it |
| `BatchTransparency.TensorPiece` | src/serving/dispatch/merge.rs:52-73 | the piece of a row-block tensor is the tensor the request would get alone |
| `BatchTransparency.ListPiece` | src/serving/dispatch/merge.rs:74-80 | the piece of a per-row list is the list the request would get alone |
| `BatchTransparency.BatchingIsTransparentIff` | src/serving/dispatch/merge.rs:16-89 | merge, invoke once and split gives every caller its own outputs if and only if no whole output of this batch is as long as the batch |
| `BatchTransparency.CutBatchExists` | src/serving/dispatch/merge.rs:74-80 | two requests of one row and an output that is a list of two values whatever the rows: it is cut |
| `BatchTransparency.WholeSurvivesIff` | src/serving/dispatch/merge.rs:52-74 | a result reaches every caller whole exactly when its leading size differs from the row count |
| `BatchTransparency.ListPiecesRejoin` | src/serving/dispatch/merge.rs:74-80 | split list pieces concatenate to the list |
| `BatchTransparency.TensorPiecesRejoin` | src/serving/dispatch/merge.rs:58-72 | split tensor pieces concatenate to the data, prefix by prefix |
| `BatchTransparency.TensorSplitConserves` | src/serving/dispatch/merge.rs:52-73 | all tensor pieces together are the data, each with its own count and the same inner shape |
| `BatchPlan.LeastIsLeast` | src/serving/batch.rs:53-56 | the capacity chosen is given by some parameter and no given one is smaller |
| `BatchPlan.ContinuousIff` | src/serving/batch.rs:47-51 | continuous exactly when some parameter is |
| `BatchPlan.PlanIs` | src/serving/batch.rs:38-58 | which plan a signature gets, with exactly the batched parameters at the tightest capacity given |
| `BatchPlan.ItemCount` | src/serving/batch.rs:80-93 | at least one, at least the length of every list among the batch parameters, and attained |
| `BatchPlan.ReadyCount` | src/serving/batch.rs:78-93 | a well-formed request counts as its common list length, whatever order parameters are visited in |
| `BatchKeys.NumberInjective` | src/serving/batch.rs:109-110 | different numbers are spelled differently |
| `BatchKeys.FingerprintsEqualIff` | src/serving/batch.rs:103-119 | fingerprints are equal exactly when the values are equal, or are lists or objects with the same JSON, or are one and the same draw of an opaque value; nothing is assumed of the JSON library |
| `BatchKeys.PartInjective` | src/serving/batch.rs:72-72 | a name without `=` and its fingerprint can be read back from the part |
| `BatchKeys.JoinInjective` | src/serving/batch.rs:75-75 | parts without `&` can be read back from the joined key |
| `BatchKeys.SortSorts` | src/serving/batch.rs:74-74 | distinct parts are strictly sorted |
| `BatchKeys.SortedUnique` | src/serving/batch.rs:74-74 | sorting forgets the order the map was visited in |
| `BatchKeys.KeysEqualIff` | src/serving/batch.rs:66-76 | when both requests are free of separators, keys are equal exactly when the broadcast values are alike up to JSON and comparable |
| `BatchKeys.SameKeySameParameters` | src/serving/batch.rs:61-76 | separator-free requests filed under one key agree on every unbatched parameter |
| `BatchKeys.ManyValuesCollide` | src/serving/batch.rs:66-76 | a request of two or more broadcast values, one of them a text or the one spelled last comparable, shares its key with a request that has one value, whatever separators or opaque values it holds |
| `BatchKeys.KeyDecidesIff` | src/serving/batch.rs:61-65 | the key tells a request without separators apart from every other request if and only if it has at most one broadcast value, or none of its values is a text and the one spelled last is opaque |
| `BatchKeys.SeparatorsCollide` | src/serving/batch.rs:66-76 | one such pair |
| `BatchKeys.KeyedFlushIsTransparentIff` | src/serving/dispatch/worker.rs:53-56 | transparency of a same-key batch of separator-free requests, without assuming equal broadcast values |
| `KvRelay.RelaySession.AdmitOne` | src/control/kv_relay.rs:183-199 | the continuity decision and its effect, for any events |
| `KvRelay.RelaySession.Receive` | src/control/kv_relay.rs:308-333 | a snapshot supersedes the buffer, a delta extends it, a gap asks for a reconnect |
| `KvRelay.RelaySession.FlushPending` | src/control/kv_relay.rs:402-470 | what is posted, what the reply does to the demand and the backoff, and when to reconnect |
| `KvRelay.RelaySession.Reconnect` | src/control/kv_relay.rs:257-258 | continuity and buffer start over, the snapshot demand does not |
| `KvReplication.MessageKeepsPending` | src/control/kv_relay.rs:308-333 | the buffer always covers exactly its range of one epoch, from a snapshot if marked so |
| `KvReplication.IngestKeepsSync` | src/control/protocol.rs:262-287 | a plane that follows its documented contract keeps holding the engine's state at its last applied number |
| `KvReplication.StepKeepsInv` | src/control/kv_relay.rs:257-335 | every connect, loss, delivery, flush, late or repeated arrival and plane restart keeps index, buffer and posts genuine |
| `KvReplication.NeverDiverges` | src/control/kv_relay.rs:182-200 | over every run the index is the engine's state at the last applied number |
| `KvReplication.NeverDivergesFromStart` | src/control/kv_relay.rs:233-335 | the same from start-up, with every posted batch covering exactly its range and beginning with a snapshot whenever one is owed |
| `KvReplication.DemandEndsWithSnapshot` | src/control/kv_relay.rs:430-450 | a snapshot demand ends only by posting a snapshot, and unless something other than the plane answered with a success, it was applied |
| `KvReplication.UnplaceableBatchRaisesDemand` | src/control/kv_relay.rs:433-446 | after a false acknowledgement, the first delta the plane receives and cannot place makes the relay owe a snapshot again and reconnect |
| `KvReplication.SnapshotRecovers` | src/control/kv_relay.rs:275-317 | from any reachable state, connected or not, one reconnect, snapshot and flush bring the plane up to date |
| `KvReplication.HealthyStepTracks` | src/control/kv_relay.rs:318-323 | each contiguous delta and delivered flush keeps plane and relay in step |
| `KvReplication.HealthyRunTracks` | src/control/kv_relay.rs:318-335 | once up to date, the plane follows for as long as nothing is lost |
| `KvSessions.SessionPostsChain` | src/control/kv_relay.rs:308-333 | while one connection lasts nothing is posted twice or skipped: a batch begins with a snapshot or where the batch before it ended |
| `KvSessions.EverySessionChains` | src/control/kv_relay.rs:257-335 | the same for every session of every run from start-up |
| `KvSessions.OwedSnapshotIsFetched` | src/control/kv_relay.rs:423-432 | a tick that owes a snapshot posts one or drops the connection to get one |
| `KvSessions.BackoffIsQuiet` | src/control/kv_relay.rs:412-422 | inside a backoff window nothing is posted, over any run and any reconnects, and a snapshot stays owed |
| `KvSessions.NoRouteIsQuiet` | src/control/kv_relay.rs:452-460 | a 404 or 410 opens a silence of exactly the backoff length |
| `KvSessions.WindowDropsBuffer` | src/control/kv_relay.rs:412-421 | what was buffered inside a backoff window is dropped: the first tick after it posts nothing and reconnects for a snapshot |
| `KvSessions.DeliverDisconnectsIff` | src/control/kv_relay.rs:318-333 | a message drops the connection exactly when it is a delta of another epoch or not the next one |
| `KvSessions.ConnectedFollowsLast` | src/control/kv_relay.rs:257-333 | on every run, while connected the relay is at the last message delivered |
| `KvSessions.NewSessionTakesAnything` | src/control/kv_relay.rs:257-333 | a new connection takes its first message whatever came before it, and waits for it |
| `KvSessions.FailedPostDropsWindow` | src/control/kv_relay.rs:461-469 | a post that is lost or refused costs its window and nothing else; the next delta is posted alone |
| `KvSessions.FirstPostIsSnapshot` | src/control/kv_relay.rs:233-235 | on every run the first batch posted begins with a snapshot |
| `Registry.InsertKeepsInv` | src/serving/registry.rs:251-262 | starting a load keeps single flight and tracked handles |
| `Registry.RequestUnloadKeepsInv` | src/serving/registry.rs:364-370 | a deferred unload keeps them |
| `Registry.RemoveSlotKeepsInv` | src/serving/registry.rs:371-378 | removing a slot that is not loading keeps them |
| `Registry.CompleteKeepsSingleFlight` | src/serving/registry.rs:489-496 | a finished load leaves no task behind a slot, and no loading slot without its task |
| `Registry.CompleteKeepsHandles` | src/serving/registry.rs:455-505 | a loaded handle goes to its slot or to the pending delete |
| `Registry.FinishDoomedKeepsInv` | src/serving/registry.rs:497-505 | a deferred unload deletes through the load task, once |
| `Registry.StepKeepsInv` | src/serving/registry.rs:223-378 | every lock scope but a stale remove keeps single flight and tracked handles |
| `Registry.RemoveSafeIff` | src/serving/registry.rs:363-378 | the second lock scope of an unload is safe exactly when the slot is not loading at that moment |
| `Registry.RunKeepsInv` | src/serving/registry.rs:429-509 | over every run without a stale remove a tag loads once exactly while its slot says so, and every handle is in one slot or one delete |
| `Registry.RunSoundIff` | src/serving/registry.rs:363-378 | of all runs, those stay sound throughout that have no stale remove, and no others |
| `Registry.NeverDeletedTwice` | src/serving/registry.rs:371-377 | on every run, stale removes included, no engine is deleted twice and none that is deleted is served |
| `Registry.NothingStaysWarm` | src/serving/registry.rs:354-378 | on such a run, once no slot is left, every engine ever loaded was deleted exactly once |
| `Registry.StaleUnloadLosesEngine` | src/serving/registry.rs:363-378 | a concrete interleaving of the two lock scopes that loses an engine |
| `ServingNode.ModelRegistry.SpawnLoad` | src/serving/registry.rs:429-435 | slot, task and gate guard appear together |
| `ServingNode.ModelRegistry.EnsureReadyOnce` | src/serving/registry.rs:233-281 | what a request sees of a slot and what it changes: a ready model is answered with its handle, a failure with its error and taken away, a vacant tag starts the one load, a load is waited for until the deadline, and then the caller is told to come back when a load as long as the last would be over, in no less than 5 seconds |
| `ServingNode.ModelRegistry.WarmTag` | src/serving/registry.rs:298-322 | warming starts a load exactly from a vacant or failed slot of a served tag |
| `ServingNode.ModelRegistry.WarmForGoal` | src/serving/registry.rs:343-352 | a failure still cooling down is left alone |
| `ServingNode.ModelRegistry.InspectForUnload` | src/serving/registry.rs:364-370 | a loading slot is asked to end in a delete, any other is left alone |
| `ServingNode.ModelRegistry.RemoveForUnload` | src/serving/registry.rs:371-378 | the second lock scope alone: the registry stays sound exactly when the slot is not loading |
| `ServingNode.ModelRegistry.UnloadTag` | src/serving/registry.rs:363-378 | both scopes with nothing in between: deferred while loading, removed with its handle deleted otherwise |
| `ServingNode.ModelRegistry.DropPriority` | src/serving/download_gate.rs:26-31 | the load lets go of the gate and of nothing else |
| `ServingNode.ModelRegistry.FinishLoadTask` | src/serving/registry.rs:446-507 | outcome installed, or slot removed and handle deleted when an unload came first |
| `ServingNode.ModelRegistry.DevicesOf` | src/serving/registry.rs:327-333 | the devices of the engine loading or loaded, if there is one |
| `ServingNode.CacheTracker.Ensure` | src/serving/cache.rs:114-133 | at most one download per tag |
| `ServingNode.CacheTracker.Forget` | src/serving/cache.rs:139-145 | only failed records are dropped |
| `ServingNode.CacheTracker.FinishOne` | src/serving/cache.rs:172-188 | a finished download ends the caching state |
| `CacheTier.EnsureKeepsSingle` | src/serving/cache.rs:114-133 | a request never starts a second download |
| `CacheTier.TierStepKeepsSafe` | src/serving/cache.rs:155-190 | loads, downloads and guards interleave without breaking single download or prefetch order, stale removes included |
| `CacheTier.TierStepKeepsInv` | src/serving/cache.rs:155-190 | all but stale removes keep single flight and tracked handles beside them |
| `CacheTier.TierRunKeepsSafe` | src/serving/cache.rs:114-190 | over every run one download per tag exactly while it is caching, and no prefetch begun beside a guard it was queued behind |
| `CacheTier.EnsureSpawnsIff` | src/serving/cache.rs:114-133 | a request spawns a download exactly when nothing is known of the tag or it failed a minute ago or more |
| `CacheTier.SuccessIsForGood` | src/serving/cache.rs:172-188 | after a success no request spawns another download and nothing forgets it |
| `CacheTier.FailureCoolsDown` | src/serving/cache.rs:118-125 | after a failure the error and time are kept, and a minute passes before a request tries again, unless the failure is forgotten |
| `CacheTier.ImmediateNeedsNoGate` | src/serving/cache.rs:155-170 | an immediate download waits for nobody; a prefetch begins exactly when the gate is free |
| `CacheTier.LastGuardFreesPrefetch` | src/serving/download_gate.rs:26-54 | when the last load lets go of the gate, still loading or ended, every waiting prefetch may begin |
| `DownloadGate.Gate.EnterPriority` | src/serving/download_gate.rs:42-45 | the count rises with the guard |
| `DownloadGate.Gate.DropGuard` | src/serving/download_gate.rs:63-67 | the count falls by exactly one: the saturating subtraction never saturates |
| `DownloadGate.Gate.Idle` | src/serving/download_gate.rs:48-54 | idle exactly when no guard lives |
| `Reconcile.PartitionKeepsAll` | src/control/heartbeat.rs:187-192 | ordering goals loses and repeats none |
| `Reconcile.ProcessFirstOrders` | src/control/heartbeat.rs:187-192 | `process` goals first, the same goals |
| `Reconcile.ApplyOneSettles` | src/control/heartbeat.rs:115-173 | after a goal is applied there is nothing left to do for it but wait |
| `Reconcile.SettledIsFixed` | src/control/heartbeat.rs:115-173 | applying a settled goal changes nothing |
| `Reconcile.ApplyOneIsLocal` | src/control/heartbeat.rs:115-173 | a goal leaves every other tag alone |
| `Reconcile.ApplyIsIdempotent` | src/control/heartbeat.rs:92-179 | applying a goal twice is applying it once, for unique tags at frozen time |
| `Reconcile.NoOpinionIsNoOp` | src/control/heartbeat.rs:94-179 | an empty goal changes nothing but the drain flag |
| `Reconcile.FailedSlotCoolsDown` | src/serving/registry.rs:343-352 | a failed slot is untouched for a minute and then loading on the goal's devices |
| `Reconcile.LoadFailureIsRemembered` | src/serving/registry.rs:476-496 | a failed load leaves its error and time, and is retried a minute later and no sooner |
| `Reconcile.GoalLetsFailureCool` | src/control/heartbeat.rs:129-154 | a `process` goal leaves a failed load alone for a minute, whatever devices it asks for, and then loads on the stored ones |
| `Reconcile.UnservedIsLeftAlone` | src/control/heartbeat.rs:117-128 | a tag outside the pinned set is neither loaded nor cached nor taken out |
| `Reconcile.KeysPersist` | src/control/heartbeat.rs:99-105 | after a pass each tag has the last key it was sent, however long ago |
| `Reconcile.EntryGoesWithEngine` | src/control/heartbeat.rs:129-172 | a goal removes a dispatcher entry exactly when it takes the ready engine out, which is then deleted |
| `Reconcile.PassKeepsEntriesWithEngines` | src/control/heartbeat.rs:94-174 | the same over a whole pass with any goals |
| `ServingNode.Server.StoreGoal` | src/control/heartbeat.rs:99-114 | credentials stick, devices and policy mirror the goal |
| `ServingNode.Server.ApplyGoal` | src/control/heartbeat.rs:119-173 | one goal's effect on registry, cache and dispatcher entries |
| `ServingNode.Server.ApplyProcess` | src/control/heartbeat.rs:129-154 | a misplaced engine is unloaded before it is warmed, and the cache is asked last |
| `ServingNode.Server.ApplyGoals` | src/control/heartbeat.rs:94-179 | the whole pass |
| `Passes.ApplyKeepsTiers` | src/control/heartbeat.rs:94-179 | reconciliation keeps single flight, tracked engines, single downloads and prefetch order |
| `Passes.PassQueuesPrefetches` | src/control/heartbeat.rs:181-192 | every prefetch of a pass is queued behind every load the pass starts, whatever order the plane lists them in |
| `Passes.PrefetchWaitsForPass` | src/serving/download_gate.rs:12-17 | however loads and downloads then interleave, a begun prefetch finds every load of its pass past its download |
| `Convergence.BeatSteers` | src/control/heartbeat.rs:115-154 | among any other goals, a live `process` goal puts its tag on its way as if it were alone |
| `Convergence.FinishAllOutcome` | src/serving/registry.rs:488-505 | in whatever order loads end, each ends as its slot says and nothing else changes |
| `Convergence.OneRoundIff` | src/control/heartbeat.rs:129-154 | one beat with any list of goals, and the end of their loads, reach a live `process` goal exactly when no load of its tag is being thrown away |
| `Convergence.OneRoundTakesOut` | src/control/heartbeat.rs:155-172 | one round takes the engine of every served `disk` and `none` goal out |
| `Convergence.TwoRoundsConverge` | src/control/heartbeat.rs:94-179 | two rounds bring every live `process` goal of a list to its devices, from any reachable state, whatever else the list holds |
| `Convergence.RoundIsFixedIff` | src/control/heartbeat.rs:92-93 | after a round, another beat changes nothing at all exactly when every served `process` goal has its slot |
| `Convergence.TwoRoundsAreFixed` | src/control/heartbeat.rs:92-93 | with every served `process` goal live, two rounds end where no beat changes anything |
| `Invocation.StepKeepsGuards` | src/serving/predict.rs:42-104 | a lock is held exactly by one caller's guard or one native call, through every step and cancellation |
| `Invocation.StepKeepsOneLock` | src/serving/dispatch/mod.rs:178-232 | whoever races to build an entry, everybody uses the published lock; a removal keeps this when nothing refers to it |
| `Invocation.OneCallPerLock` | src/serving/predict.rs:52-60 | on every run a lock has at most one native call and is held by it until it ends |
| `Invocation.NeverConcurrent` | src/serving/dispatch/mod.rs:18-22 | on every run without unquiet removals at most one native call lives |
| `Invocation.LookupPanicsIff` | src/serving/dispatch/mod.rs:93-101 | a caller sure of its entry panics at the lookup exactly while it has not looked and the last step that changed the entry was its removal |
| `Invocation.PanicIsReached` | src/serving/dispatch/mod.rs:93-101 | a concrete run from start-up to such a panic |
| `Invocation.NoRemovalNoLoss` | src/serving/dispatch/mod.rs:93-101 | without removals no lookup fails |
| `Invocation.Dispatcher.CheckAndBuild` | src/serving/dispatch/mod.rs:178-230 | an entry seen is used; none seen builds one, accumulator included |
| `Invocation.Dispatcher.Publish` | src/serving/dispatch/mod.rs:231-231 | the first entry published stays |
| `Invocation.Dispatcher.Run` | src/serving/predict.rs:42-60 | the guard moves with the call onto the blocking pool |
| `Invocation.Dispatcher.Remove` | src/serving/dispatch/mod.rs:174-176 | only the entry goes |
| `EntryRemoval.UnquietReachesCall` | src/serving/dispatch/mod.rs:174-176 | whoever still refers to the old lock can invoke the predictor under it after the removal |
| `EntryRemoval.NewcomerCalls` | src/serving/dispatch/mod.rs:178-232 | after the removal a new caller builds a second lock and invokes beside whatever runs |
| `EntryRemoval.RemovalIsSafeIff` | src/serving/dispatch/mod.rs:174-176 | removal keeps the predictor exclusive from then on exactly when no call lives and nobody waits for, holds or heads for the old lock |
| `EntryRemoval.UnsafeRemovalIsReached` | src/serving/dispatch/mod.rs:174-176 | a run from start-up whose removal is followed by two calls at once |
| `CallerService.StepKeepsAttended` | src/serving/dispatch/mod.rs:129-150 | every waiting caller's request is with a live accumulator |
| `CallerService.ExitOrphansNobody` | src/serving/dispatch/worker.rs:179-197 | when an accumulator exits, whatever it still holds belongs to callers that have gone away |
| `CallerService.CallersAreServed` | src/serving/dispatch/mod.rs:143-149 | a waiting caller is carried by a live accumulator, and sending never finds the queue closed |
| `CallerProgress.NoDeadlock` | src/serving/dispatch/mod.rs:88-150 | on every run, cancellations and removals at any await included, some request can go on as long as a caller is not done |
| `CallerProgress.ProgressLowersRank` | src/serving/dispatch/mod.rs:88-150 | every step of a request on its way leaves less work |
| `CallerProgress.EverybodyFinishes` | src/serving/dispatch/mod.rs:88-150 | while nobody arrives or goes away the number of steps is bounded, and when none is left every caller is done |
| `CallerProgress.DoneMeansServed` | src/serving/predict.rs:42-60 | a caller is done only once its call has ended or its batch is answered, unless it went away or its entry or queue is gone |
| `CallerProgress.EntryIsReused` | src/serving/dispatch/mod.rs:178-190 | as long as an entry is there, nobody who arrives builds another |
| `CallerProgress.IdleWorkerExits` | src/serving/dispatch/worker.rs:179-197 | an idle accumulator that nobody can send to any more can exit |
| `DownloadLocks.CleanUpSparesOthers` | src/client.rs:134-136 | cleanup never removes a lock another task refers to |
| `DownloadLocks.CleanUpRemovesIff` | src/client.rs:134-136 | cleanup removes the entry exactly when nobody else refers to the lock |
| `DownloadLocks.StepKeepsInv` | src/client.rs:103-138 | every step, cancellation included, keeps every active task's lock in the map |
| `DownloadLocks.SingleFlight` | src/client.rs:72-78 | on every run tasks of one path share the mapped lock, and at most one is inside |
| `DownloadLocks.DownloadsGoOn` | src/client.rs:103-138 | no deadlock: a download can take its next step or waits for the mutex of one that can, and each such step brings one nearer its end |
| `DownloadLocks.SuccessMeansPresent` | src/client.rs:113-133 | a download that neither fails nor is cancelled leaves its critical section with the file in place and the mutex free |
| `DownloadLocks.TransfersBalance` | src/client.rs:113-133 | every successful transfer puts the file in place, makes up for a deletion, or replaces it |
| `DownloadLocks.TransfersAreNeeded` | src/client.rs:113-133 | on every run, transfers of a file number one if it came to be there, one more per deletion, and at most one more per failed probe |
| `DownloadLocks.OneTransferPerFile` | src/client.rs:113-133 | in particular one transfer puts an untouched file in place, none if it was there |
| `DownloadLocks.TableEmptyIff` | src/client.rs:134-136 | the table ends empty exactly when every mutex used was cleaned up by its last owner |
| `DownloadLocks.OverlappingCleanUpsLeave` | src/client.rs:134-136 | two downloads that clean up beside one another leave the entry with no owner |
| `DownloadLocks.OverlapIsReached` | src/client.rs:109-134 | a run from start-up that gets two downloads there |
| `DownloadLocks.Downloads.Intern` | src/client.rs:109-112 | everybody interns the same lock for a path |
| `DownloadLocks.Downloads.Finish` | src/client.rs:113-133 | a file is published under the guard, which is then dropped |
| `DownloadLocks.Downloads.CleanUpAfter` | src/client.rs:134-137 | the entry goes exactly when this was the last reference |

## Left out

- BatchKeys.KeysEqualIff: assumes both requests free of separators; `BatchKeys.ManyValuesCollide` and `BatchKeys.KeyDecidesIff` say what holds of the others.
- BatchKeys.KeyDecidesIff: for requests whose names and values hold no separator; it assumes that JSON shows where it ends (no list's text goes on with `&` after another's).
- BatchKeys.KeyedFlushIsTransparentIff: for separator-free requests, and assuming that different lists and objects have different JSON.
- BatchAnswers.FlushIsTransparentIff: an error is the text it carries; re-wrapping a shared one as a native error is not modelled.
- BatchTransparency.BatchingIsTransparentIff: assumes well-formed requests (every batch parameter a list of one common, positive length), positive tensor dims and a row total within 32 bits; outside these merge and split do not agree on row counts.
- Registry.StepKeepsInv: excludes the stale remove; `Registry.RemoveSafeIff` and `Registry.RunSoundIff` say exactly what it breaks and when.
- Invocation.NeverConcurrent: covers runs whose removals find nothing referring to the lock; `EntryRemoval.RemovalIsSafeIff` shows that no weaker condition would do.
- Convergence.TwoRoundsConverge: in a round the loads of the goals' tags succeed and end before the next beat; a goal whose failure is still cooling down is not live. Goal lists have unique tags.
- Rounding, NaN and the exponential of the smoothing factor: `real` arithmetic, with the factor any number strictly between 0 and 1. Policies sent as infinities or NaN are modelled.
- Wrap-around of 64-bit counters and sequence numbers: natural numbers instead.
- Concurrency below a step: shard locks, watch channels and atomics are taken to do what they promise; in-place updates of shared maps are single steps.
- `Continuous` plans take no lock and have nothing to prove here; `predict::stream` is the same blocking task as `predict::run`, its item loop is not modelled.
- The 1024-slot bound of the dispatch channel, `queue_depth`, telemetry samples, latency and VRAM statistics, status snapshots and notifications.
- The wait of `ensure_ready` between two looks at the slot.
- Socket setup, retry delays, endpoint discovery and message framing of the relay; HTTP and authentication.
- Prediction metadata other than the list of results; float, image and binary payloads are opaque.
- `muna` loading and deleting, resource transfer and its progress display: steps that succeed or fail.
- HTTP handlers, value encoding, command line, platform probing and the shared-memory lease itself.
