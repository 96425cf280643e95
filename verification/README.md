# Verified model of an iCloud Hide My Email service

This project models the stateful and arithmetic cores of a service that manages iCloud Hide My Email
aliases, and proves what they promise. Apple, the repository, the network, timers and goroutine
scheduling are not modelled as such: every answer, clock reading and interleaving is an arbitrary input,
and the theorems hold for all of them.

`dafny verify dfyconfig.toml` checks everything.

| file | what it models |
|---|---|
| `AppleErrors.dfy` | error trees, retry hints, throttle classification, `Retry-After` seconds |
| `AliasDirectory.dfy` | the duplicate check of a listing, the directory map, the effect of mutations |
| `AppleHistory.dfy` | the log of Apple requests and answers, and what a well-behaved run's log looks like |
| `AliasDeletion.dfy` | one account group of a batch deletion: session, cached directory, permanent stop, recovery budget |
| `OperationLock.dfy` | the reference-counted keyed lock under any number of callers |
| `DeletionFlows.dfy` | operation lock, execution slot and account lock of the flows of a batch |
| `BatchLog.dfy` | the log of a whole batch, which outcomes it calls for, and what that means for its caller |
| `BatchOutcomes.dfy` | scheduling into groups, interleaved workers, one outcome and one report per input |
| `PickupRate.dfy` | pickup admission: shared token bucket, legacy cooldown, permit counters, clean-up |
| `Wrappers.dfy`, `Text.dfy`, `FiniteSets.dfy`, `Sorting.dfy` | options and results, trimming and letter case, counting, sorting |
| `CreationPlan.dfy` | drawing, consuming and shifting an hourly creation plan |
| `CreationSlots.dfy` | the floor-difference rule that shares 23 slots between two channels |
| `CreationSchedule.dfy` | competing workers on one stored schedule with compare-and-swap |
| `BitPacking.dfy`, `FdTable.dfy`, `Crc16.dfy`, `FdCodec.dfy` | the FD fingerprint: token substitution, prefix code, six-bit letters, CRC-16 |
| `Srp.dfy` | the SRP-6a client against the server side of RFC 5054 |
| `LogRing.dfy`, `LogPaging.dfy`, `LogEntry.dfy`, `LogKeys.dfy` | the bounded log, its paging, entry sizes and field keys |
| `UidScan.dfy` | the windowed UID search and its cursor |

Conventions. An object that the source updates in place is a class whose methods are proved against a
function or a log; what lies outside (`World`) answers from an arbitrary script. Code that runs concurrently
is a state machine whose steps interleave in any order, and `Run` is the predicate of its executions. Times
are nanoseconds as unbounded integers; 32-bit and 16-bit arithmetic is explicit. A string is a sequence of
characters, and the FD codec reads characters below 256 as bytes.

Some properties deserve a word.

- *Apple first.* A local alias is removed only when, within the same `Delete` call, the last answer was an
  accepted delete of that address or a complete listing without it (`Confirmed`). If Apple's answers are
  honest and nobody else changes the directory, the address is then gone at Apple
  (`ConfirmedMeansGoneAtApple`). A listing with duplicate addresses would silently lose an alias in the
  directory map; `DuplicateAddressWouldLoseAnAlias` shows such a listing, and `FilterAliases` accepts
  exactly the listings without one.
- *The permanent stop* is read off Apple's answers and the checkpoints (`WellRunHeedsStops`,
  `FourthThrottleStops`, `Rooted`): after an expired session, a session of another Apple ID or unknown region,
  or a failed checkpoint nothing is sent; after refused credentials, a required action of the owner or a
  throttle that no recovery is left for, nothing but the one listing that settles a mutation under way. Every
  request carries a session that was stored before it was sent, nothing but validations comes before the
  first accepted one, and nothing but a listing after the job was cancelled.
- *Nothing fails, and nothing is skipped, without a cause.* An item of a group fails only if something went
  wrong in its own call, if Apple's listing was not all the mailbox's, or in a group that has ended after some
  trouble (`Accounted`); the surroundings count their own failures and unwelcome answers. Without any of these
  every item is removed (`UntroubledSucceeds`). A batch gives each input the outcome that the log before its
  report calls for, and an input is left undeleted only for a cause of its own group or a cancellation or
  failure of the batch (`NothingIsSkipped`).
- *Throttles are waited out.* After the k-th throttled answer a group with recovery sends nothing for
  2^(k-1) minutes, and it goes on after at most three of them; only the one listing that settles a mutation
  of a stopped group may come sooner.
- *Forgetting is unobservable* if and only if no pickup meets a map that is full after its clean-up, the
  comparison being with a limiter that never forgets and has no cap. It takes clock readings that reach the
  mutex in order. The server reads its clock before it takes the mutex, so readings may enter in the other
  order: `LateReadingsAdmitMore` is a run with four admissions in 3.9 s whose last one a limiter without
  forgetting refuses. The conservation of permits needs no order, and `AdmissionRateInAnyOrder` and
  `LegacyCooldown` give the bounds that hold without one, in terms of how late the readings are.
- *What a pickup is told.* With readings in order every verdict follows from earlier admissions and
  completions (`SharedVerdict`, `LegacyVerdict`). The times quoted for want of credit and for a cooldown are
  exact. The 2 s quoted for a busy alias are exact if its pickup completes at once; those quoted for a busy
  account are only advice, since a completion admits the next pickup at once (`ConcurrencyRetry`).
- *The FD round trip* holds exactly for the texts without bytes 0 to 31: the control bytes are the code
  words of the dictionary. The source's texts are query-escaped and contain none. A text with a compressed
  byte that is not in the table is returned as it is.
- *Every slot has its turn.* A due deadline is claimed exactly when nothing stands against it
  (`ProcessDue`), and 23 of them passed in a row are claimed 23, 5 or 0 times as the channels allow
  (`TwentyThreePasses`).
- *Two starts of an account* are never closer than two minutes although a claim may wait for any time before
  it starts, a plan may be moved back by a short cooldown, and swaps whose answers were lost may have taken
  effect.

## Model

| member | source | states |
|---|---|---|
| AppleErrors.RetryDelayIsLargestHint | internal/apple/errors.go:109-123 | the delay is at least every hint in a tree of wrapped and joined errors and is zero or one of them |
| AppleErrors.RetryDelaysBoundEveryChild | internal/apple/errors.go:114-118 | the delay of a joined error bounds the delay of each part |
| AppleErrors.RateLimitedExactlyWhenSomeNodeIs | internal/apple/errors.go:169-204 | an error counts as rate-limited exactly when some node of its tree does |
| AppleErrors.IsExactlyWhenSomeNodeIs | internal/hmesync/errors.go:212-232 | an error is of a kind exactly when some node of its tree is |
| AppleErrors.CodeIsInTree | internal/hmesync/errors.go:204-210 | a code is found exactly when some coded error is in the tree, and is the code of one |
| AppleErrors.FirstCodeComesFirst | internal/hmesync/errors.go:204-210 | of the parts of a joined error the first one with a code gives it |
| AppleErrors.ClassifyMeans | internal/hmesync/alias_delete_batch.go:496-535 | read off the answer's own tree: when the classified error is an expired session, refused credentials, an action of the owner or a throttle, with and without recovery |
| AppleErrors.ClassifyCodes | internal/hmesync/errors.go:212-238 | which answer gets which code, and that every other is an upstream error |
| AppleErrors.ParseUint | internal/apple/errors.go:128-150 | a 64-bit unsigned number is read exactly, or refused because it is no number or too large |
| AppleErrors.ParseDelaySeconds | internal/apple/errors.go:128-150 | numeric hints become that many seconds and saturate at the largest duration instead of wrapping |
| AliasDirectory.FilterAliases | internal/hmesync/service.go:1852-1895 | a listing is accepted if and only if it is complete and has no duplicate address or remote ID and belongs to the mailbox |
| AliasDirectory.BelongsMeans | internal/hmesync/service.go:1854-1884 | a listing is the mailbox's if its default, a possible or an alias's forwarding address is |
| AliasDirectory.WellFormedMeans | internal/hmesync/service.go:1863-1868 | every alias of an accepted listing has an address that is more than blanks and reads back as itself |
| AliasDirectory.OwnedMeans | internal/hmesync/service.go:1882-1889 | the filtered aliases are all those that forward to the mailbox, in their order, with normalized addresses |
| AliasDirectory.BuildDirectory | internal/hmesync/alias_delete_batch.go:599-602 | the map filled entry by entry is the index of the listing |
| AliasDirectory.IndexLosesNothing | internal/hmesync/alias_delete_batch.go:596-602 | for an accepted listing the map has exactly the listed aliases, none lost |
| AliasDirectory.DuplicateAddressWouldLoseAnAlias | internal/hmesync/service.go:1852-1895 | without the duplicate check the map would lose an alias: a concrete listing |
| AliasDirectory.DeactivationKeepsMirror | internal/hmesync/alias_delete_batch.go:427-430 | an accepted deactivation changes the map and Apple's directory alike |
| AliasDirectory.DeletionKeepsMirror | internal/hmesync/alias_delete_batch.go:458-460 | an accepted deletion changes the map and Apple's directory alike |
| Text.TrimMeans | internal/domain/normalize.go:5-7 | trimming takes away the blanks at both ends and nothing else |
| Text.SameEmailMeans | internal/hmesync/service.go:1963-1967 | two addresses are the same mailbox if and only if, without the blanks around them, they are not empty and have the same letters |
| AppleHistory.RegionMeans | internal/hmesync/service.go:1932-1941 | which spellings name which region |
| AppleHistory.PreparedMeans | internal/hmesync/service.go:503-521 | the session carried on is the answer's or else the last one, and is refused exactly for another Apple ID or an unknown region |
| AppleHistory.ObservedMirrorsApple | internal/hmesync/alias_delete_batch.go:392-460 | if nobody else changes Apple's directory, the observed directory equals it through every answer, failed mutations making it doubtful until the next listing |
| AppleHistory.ConfirmedMeansGoneAtApple | internal/hmesync/alias_delete_batch.go:364-461 | a confirmation for an address means that Apple's directory has no alias of it |
| AppleHistory.RemovedOnlyAfterApple | internal/hmesync/alias_delete_batch.go:364-461 | at the moment of every local removal the address was gone at Apple |
| AppleHistory.RequestsSpread | internal/hmesync/alias_delete_throttle.go:113-155 | with recovery, requests i and j of a group are at least j - i seconds apart |
| AppleHistory.HintsAreWaitedOut | internal/hmesync/alias_delete_throttle.go:184-192 | with recovery nothing is sent before every hint of the answer before it has passed |
| AppleHistory.ThrottlesAreWaitedOut | internal/hmesync/alias_delete_throttle.go:157-179 | counted over the answers, the k-th throttled one is followed by at least 1, 2 or 4 quiet minutes, k at most 3, unless the group is stopped |
| AppleHistory.RecoveredAtMostThree | internal/hmesync/alias_delete_throttle.go:163-173 | a group goes on after at most three throttled answers |
| AppleHistory.WellRunHeedsStops | internal/hmesync/alias_delete_batch.go:496-551 | after an answer whose own error tree ends the session, or whose session cannot be carried on, nothing is sent; after refused credentials, an action of the owner or an unrecovered throttle nothing but one listing |
| AppleHistory.FourthThrottleStops | internal/hmesync/alias_delete_throttle.go:157-173 | after a throttled answer beyond the third nothing is sent but one listing |
| AppleHistory.ValidationsComeFirst | internal/hmesync/alias_delete_batch.go:464-491 | all validations come first, all but the last of them throttled, and nothing else is sent before one was accepted |
| AppleHistory.LogOneMore | internal/hmesync/alias_delete_batch.go:464-538 | one more request keeps the whole log: validation first, justified target, an alias read in the same call, pacing, server hints, the wait after a throttled answer, rolling session, the stop after a fatal or blocking answer, nothing but a listing after a cancellation |
| AliasDeletion.ValidCacheIsApplesDirectory | internal/hmesync/alias_delete_batch.go:557-605 | whenever the cache is called valid it is Apple's directory |
| AliasDeletion.IdentityMeans | internal/hmesync/service.go:1969-1981 | two identities agree if both are iCloud mailboxes with the same letters in the address and the same user name, blanks around them aside |
| AliasDeletion.PendingMeans | internal/hmesync/alias_delete_batch.go:332-334 | an alias is pending if it is disabled and carries the mark, blanks around it aside |
| AliasDeletion.Batch.RecoverThrottle | internal/hmesync/alias_delete_throttle.go:163-179 | a throttle records one cooldown and succeeds only when every throttled answer so far has been waited out; the fourth throttle defers the rest of the group, unless the job has ended |
| AliasDeletion.Batch.BeginCooldown | internal/hmesync/alias_delete_throttle.go:174-178 | the k-th cooldown lasts 2^(k-1) minutes or the server's remaining delay, whichever is longer, and invalidates the cache |
| AliasDeletion.Batch.WaitServerDelay | internal/hmesync/alias_delete_throttle.go:184-192 | a pending server delay is waited for in full before anything is sent |
| AliasDeletion.Batch.ReportWait | internal/hmesync/alias_delete_throttle.go:194-221 | success means the delay has passed; an abandoned wait stops the group or the job has ended |
| AliasDeletion.Batch.RecheckIdentity | internal/hmesync/alias_delete_throttle.go:129-148 | success means that the account and the alias were read once more and are those the item was admitted with, the alias not pending; another identity, account or address stops the group |
| AliasDeletion.Batch.BeforeRequest | internal/hmesync/alias_delete_throttle.go:113-155 | a request is admitted only a second after the last one, after all waits, after account and alias were read again and found unchanged and not pending, and before a cancellation; it is refused only on a failure or change met in this very step |
| AliasDeletion.Batch.AcceptResponse | internal/hmesync/alias_delete_batch.go:496-538 | fatal exactly if the answer's own error tree ends the session, the session cannot be carried on, or its checkpoint failed; otherwise the session rolls on, stored, and the group is stopped exactly by refused credentials, an action of the owner or an unrecovered throttle |
| AliasDeletion.Batch.Expire | internal/hmesync/alias_delete_batch.go:540-551 | an expired session is cleaned up once, invalidates the cache and stops the group for good, later items failing as without a session or with the cleanup's error |
| AliasDeletion.Batch.Exchange | internal/hmesync/alias_delete_batch.go:392-442 | one request and its answer keep the log; a mutation is sent only from a valid cache, for an own alias, deletion only of an inactive one |
| AliasDeletion.Batch.Initialize | internal/hmesync/alias_delete_batch.go:464-491 | only throttled validations are repeated, each on a recovery of the budget |
| AliasDeletion.Batch.RefreshDirectory | internal/hmesync/alias_delete_batch.go:557-605 | the cache becomes valid only by a complete listing, with at most one listing more than recoveries spent |
| AliasDeletion.Batch.SettleFailure | internal/hmesync/alias_delete_batch.go:398-418 | after a failed mutation: a throttle starts the item over after its cooldown with a listing, never with the mutation; otherwise the directory is listed again, unless the listing itself could not be sent |
| AliasDeletion.Batch.Reconcile | internal/hmesync/alias_delete_batch.go:412-425 | the listing after a failed mutation decides: a missing alias is removed locally, only one still listed stays open |
| AliasDeletion.Batch.StartOver | internal/hmesync/alias_delete_batch.go:403-410 | whatever is sent after a throttled mutation comes after a cooldown recorded for it and begins with a listing |
| AliasDeletion.Batch.Mutate | internal/hmesync/alias_delete_batch.go:392-430 | one mutation of the cached entry; acceptance updates the cache coherently, failure makes it invalid |
| AliasDeletion.Batch.DeactivateRemote | internal/hmesync/alias_delete_batch.go:392-431 | deactivation ends the item on evidence or leaves the alias inactive in a coherent cache |
| AliasDeletion.Batch.DeleteRemote | internal/hmesync/alias_delete_batch.go:432-461 | deletion at Apple first, local removal only on Apple's confirmation in this call |
| AliasDeletion.Batch.ReadAlias | internal/hmesync/alias_delete_batch.go:322-334 | an item goes on only with an alias read in its own call, of this account and not pending |
| AliasDeletion.Batch.AdmitItem | internal/hmesync/alias_delete_batch.go:338-345 | an item is refused exactly if its address changed between two tries, which stops the group |
| AliasDeletion.Batch.AdmitIdentity | internal/hmesync/alias_delete_batch.go:346-353 | an account identity other than the group's stops it |
| AliasDeletion.Batch.Delete | internal/hmesync/alias_delete_batch.go:321-462 | a call terminates with at most five requests and four for each recovery; success means the local removal was started, failure has a cause in this call or in Apple's listing; a stopped group sends nothing |
| AliasDeletion.UntroubledSucceeds | internal/hmesync/alias_delete_batch.go:321-462 | if nothing went wrong outside and every listing was all the mailbox's, every item succeeds and has its removal |
| AliasDeletion.DeleteGroup | internal/hmesync/alias_delete_batch.go:166-171 | n items cost at most 5n + 13 requests whatever Apple answers; the whole log is kept, with every throttle waited out and every stop heeded, in sessions stored before they are sent; each removal is for one item, within that item's own call and under an address read in it; a success has its removal and a failure its cause |
| OperationLock.OperationTable.Register | internal/hmesync/service.go:2108-2115 | one lock object an account, its count raised |
| OperationLock.OperationTable.Deregister | internal/hmesync/service.go:2122-2137 | the count lowered; the entry goes with the last reference, and only if it is still this object |
| OperationLock.RunKeepsInv | internal/hmesync/service.go:2107-2139 | in every reachable state counts and tokens agree with the callers registered and holding |
| OperationLock.MutualExclusion | internal/hmesync/service.go:2107-2139 | at most one call holds an account's operation although lock objects are dropped and recreated |
| OperationLock.MapHoldsExactlyTheUsedAccounts | internal/hmesync/service.go:2107-2139 | the map has an account exactly while calls are registered for it, and `refs` is their number |
| OperationLock.ReleaseNeverBlocks | internal/hmesync/service.go:2118-2121 | a release always finds its token |
| OperationLock.FreeAccountAdmitsAWaiter | internal/hmesync/service.go:2115-2117 | if nobody holds the account, a waiter can proceed |
| DeletionFlows.RunKeepsInv | internal/hmesync/alias_delete_batch.go:244-299 | every reachable state of any number of flows has owners and slot counts that agree with the flows |
| DeletionFlows.LimitsHold | internal/hmesync/alias_delete_batch.go:214-299 | at most two flows of one batch hold a slot; operation and account locks have one owner |
| DeletionFlows.CoolingFlowsYield | internal/hmesync/alias_delete_batch.go:259-296 | a cooling flow holds its operation lock and neither slot nor account lock |
| DeletionFlows.ReleasedExactlyOnce | internal/hmesync/alias_delete_batch.go:244-299 | a flow that has ended released each lock and slot as often as it took it |
| DeletionFlows.WayToWork | internal/hmesync/alias_delete_batch.go:244-299 | operation lock, slot and account lock, and then the work |
| DeletionFlows.CooldownReturns | internal/hmesync/alias_delete_batch.go:259-296 | a cooldown gives back slot and account lock, keeps the operation lock, and leads back to the work with both |
| DeletionFlows.WayOut | internal/hmesync/alias_delete_batch.go:244-299 | from the work, a cooldown or a failed one, finishing gives back all that is held |
| DeletionFlows.WorkIsFinished | internal/hmesync/alias_delete_batch.go:165-187 | a flow that has worked leaves only after its remaining items are answered, one that never had its account lock answers none |
| DeletionFlows.NoCyclicWait | internal/hmesync/alias_delete_batch.go:244-299 | flows never wait for each other in a cycle |
| DeletionFlows.SomeFlowCanProceed | internal/hmesync/alias_delete_batch.go:244-299 | while a flow is unfinished, some flow can take a step |
| BatchLog.ReportsDiffer | internal/hmesync/alias_delete_batch.go:81-94 | no input is reported twice |
| BatchLog.ResultsAreDeletions | internal/hmesync/alias_delete_batch.go:166-171 | a deletion that ended well is shown as a success and one that failed as a failure with its own code, and each such outcome has its deletion |
| BatchLog.ErrorsHaveCauses | internal/hmesync/alias_delete_batch.go:107-199 | invalid and repeated inputs, and no others, are reported as such; every other error has its own cause: a cancellation or failure of the batch, the input's lookup, or the refusal, panic or lost worker of the input's own group |
| BatchLog.BatchErrorMeans | internal/hmesync/alias_delete_batch.go:67-76 | the batch's error is that of the first panic or abandoned input, and none without one |
| BatchLog.CancelledBeforeItsGroup | internal/hmesync/alias_delete_batch.go:117-187 | an input is shown as cancelled only before its group has deleted anything and before the group's end |
| BatchLog.RefusedAsAWhole | internal/hmesync/alias_delete_batch.go:165-187 | a group whose locks are refused has deleted nothing and had no other end |
| BatchLog.NoLookupAfterAFailure | internal/hmesync/alias_delete_batch.go:118-135 | once the caller's context has ended or anything has panicked, no further alias is looked up |
| BatchLog.NothingIsSkipped | internal/hmesync/alias_delete_batch.go:107-187 | a new valid ID is looked up unless the batch was cancelled or had failed, and is deleted unless that or the end of its own group came first |
| BatchLog.DeletionsDiffer | internal/hmesync/alias_delete_batch.go:166-171 | no input is deleted twice, and those of an account in input order |
| BatchLog.NothingAfterTheEnd | internal/hmesync/alias_delete_batch.go:163-187 | after a group was refused, has panicked or lost its worker nothing of it is deleted |
| BatchOutcomes.Progress.Complete | internal/hmesync/alias_delete_batch.go:81-94 | an outcome is recorded and reported once, at its own index, and never replaced; a panic of the report fails the batch |
| BatchOutcomes.Progress.Fail | internal/hmesync/alias_delete_batch.go:71-80 | the first batch error is kept and new work is cancelled |
| BatchOutcomes.Progress.ContextErr | internal/hmesync/alias_delete_batch.go:118-121 | the batch's context has ended exactly if the caller's has or the batch has failed |
| BatchOutcomes.Triage | internal/hmesync/alias_delete_batch.go:107-144 | an input is scheduled only if positive, new, and its lookup gave an account; otherwise its error is the one the log calls for, as cancelled only after a cancellation or failure |
| BatchOutcomes.Schedule | internal/hmesync/alias_delete_batch.go:104-152 | every input left open is in the one group of its account, in input order |
| BatchOutcomes.ItemJoins | internal/hmesync/alias_delete_batch.go:145-151 | adding an item to its account's group keeps the partition |
| BatchOutcomes.RunWorkers | internal/hmesync/alias_delete_batch.go:159-188 | in any interleaving the workers end, and every scheduled input has then been deleted or given its group's error, each with its cause, except those of lost workers |
| BatchOutcomes.WorkersStayReady | internal/hmesync/alias_delete_batch.go:166-181 | a worker's step leaves the items and the state of every other group as they were |
| BatchOutcomes.Finalize | internal/hmesync/alias_delete_batch.go:189-199 | the inputs of lost workers get the error of the batch, which is their own if there was none before |
| BatchOutcomes.DeleteAliases | internal/hmesync/alias_delete_batch.go:58-200 | for every interleaving and all surroundings: one report an input with the outcome returned at its index, each outcome called for by the log before it, and the first failure is returned |
| PickupRate.RunKeepsConserved | internal/httpserver/pickup_rate.go:161-272 | in every run all counters equal the outstanding permits, and the server's map has at most 8192 entries |
| PickupRate.CleanUpKeepsConserved | internal/httpserver/pickup_rate.go:168-175 | no entry with an outstanding permit is dropped |
| PickupRate.BeginKeepsConserved | internal/httpserver/pickup_rate.go:176-253 | admission and refusal keep the counters exact |
| PickupRate.ReleaseKeepsConserved | internal/httpserver/pickup_rate.go:203-271 | a release, once or again, keeps the counters exact |
| PickupRate.LegacyLimits | internal/httpserver/pickup_rate.go:180-202 | legacy mode: at most one permit an alias and two an account |
| PickupRate.LegacyCooldown | internal/httpserver/pickup_rate.go:183-214 | legacy mode: by the latest clock reading, a pickup starts only two seconds after every earlier one of the alias completed; by its own reading if readings are in order |
| PickupRate.AdmissionRateInAnyOrder | internal/httpserver/pickup_rate.go:161-253 | shared mode, readings in any order: any run of admissions of an alias has the credit for it, counting how late the readings were |
| PickupRate.AdmissionRateIsBounded | internal/httpserver/pickup_rate.go:168-253 | shared mode, readings in order: an interval of length W admits at most 2 + W / 2 s pickups of an alias, clean-up included |
| PickupRate.LateReadingsAdmitMore | internal/httpserver/pickup_rate.go:161-175 | readings out of order can pass that bound: a run with four admissions in 3.9 s, the last of which a limiter without forgetting refuses |
| PickupRate.SharedVerdict | internal/httpserver/pickup_rate.go:219-253 | with readings in order a shared pickup, waiting or not, is admitted if and only if the map has room and every earlier admission leaves credit for it; a refusal for credit quotes the shortest time after which all do |
| PickupRate.SharedRetryIsExact | internal/httpserver/pickup_rate.go:228-241 | if nothing happens in between, the refused pickup is admitted from the quoted time on and not before, and the quoted time is positive |
| PickupRate.LegacyVerdict | internal/httpserver/pickup_rate.go:180-202 | with readings in order a legacy verdict follows from the pickups under way and those completed: busy alias, cooldown, busy account, full map, or admission |
| PickupRate.CooldownRetryIsExact | internal/httpserver/pickup_rate.go:187-190 | the time quoted for a cooldown is the earliest at which the alias is not refused for it |
| PickupRate.InflightRetry | internal/httpserver/pickup_rate.go:185-186 | a busy alias stays refused until its pickup completes and is then admitted exactly 2 s later: the quoted 2 s are exact for an immediate completion |
| PickupRate.ConcurrencyRetry | internal/httpserver/pickup_rate.go:190-191 | a busy account stays refused until one of its pickups completes and is then admitted at once, whatever the quoted 2 s |
| PickupRate.CleanUpKeepsTheBusy | internal/httpserver/pickup_rate.go:168-175 | with readings in order a clean-up keeps an alias if and only if a pickup of it is under way, its bucket is not full, or its cooldown is not over |
| PickupRate.CleanUpIsRegular | internal/httpserver/pickup_rate.go:168-175 | the next clean-up is due no later than a second after the latest reading |
| PickupRate.MissingIsForgettable | internal/httpserver/pickup_rate.go:219-243 | an idle bucket behaves like a missing entry |
| PickupRate.ForgettingIsUnobservable | internal/httpserver/pickup_rate.go:168-272 | with readings in order the server gives every verdict and retry of a limiter that never forgets and has no cap, if and only if no pickup meets a map that is full after its clean-up |
| PickupRate.PickupLimiter.ForgetIdle | internal/httpserver/pickup_rate.go:168-173 | the walk deletes exactly the idle entries |
| PickupRate.PickupLimiter.BeginPickup | internal/httpserver/pickup_rate.go:161-202 | the server's code is the step of the specification, whose verdicts and retries are read off earlier admissions and completions below |
| PickupRate.PickupLimiter.BeginShared | internal/httpserver/pickup_rate.go:219-253 | the same for the shared bucket, waiting or not |
| PickupRate.PickupLimiter.ReleasePickup | internal/httpserver/pickup_rate.go:203-271 | the same for the release functions |
| Sorting.SortSorts | internal/autocreate/manager.go:831-831 | sorting orders and keeps every element as often as it was there |
| Sorting.SortOfDistinct | internal/mail/archive_fetcher_v2.go:508-508 | distinct numbers are sorted strictly |
| CreationPlan.GeneratePlan | internal/autocreate/manager.go:878-904 | the array of gaps gives the fresh plan of the draws, or an error exactly for a draw out of range |
| CreationPlan.FreshPlanFillsTheHour | internal/autocreate/manager.go:876-904 | for every random source 23 gaps of at least two minutes sum to exactly one hour |
| CreationPlan.FuturePlan | internal/autocreate/manager.go:823-845 | filter and sort give the deadlines ahead |
| CreationPlan.FutureIsWhatLiesAhead | internal/autocreate/manager.go:823-845 | every deadline ahead is kept as often as it occurs, in order, and none is invented |
| CreationPlan.ValidPlan | internal/autocreate/manager.go:847-857 | adjacent gaps decide whether all deadlines are two minutes apart |
| CreationPlan.MoveTo | internal/autocreate/manager.go:814-819 | a plan that starts too early is moved as a whole, just to the time asked for; any other is left alone |
| CreationPlan.PlanAfterClaim | internal/autocreate/manager.go:783-803 | the code computes the plan after a claim |
| CreationPlan.ClaimLeavesGoodPlan | internal/autocreate/manager.go:783-803 | from any stored plan: 1 to 23 spaced deadlines, the first two minutes after the attempt |
| CreationPlan.ClaimKeepsWhatLiesAhead | internal/autocreate/manager.go:783-803 | a claim keeps the later deadlines, moved by the least common shift that is needed, or draws 23 new ones that end an hour later if they are none, too many or too close |
| CreationPlan.ShiftCurrentPlan | internal/autocreate/manager.go:805-821 | the code computes the postponed plan |
| CreationPlan.ShiftLeavesGoodPlan | internal/autocreate/manager.go:805-821 | from any stored plan: 1 to 23 spaced deadlines, the first no earlier than asked |
| CreationPlan.ShiftKeepsWhatLiesAhead | internal/autocreate/manager.go:805-821 | postponing keeps the deadlines from the due one on in the same way |
| CreationPlan.StartingAtIsGood | internal/autocreate/manager.go:865-874 | a cooldown's plan begins exactly at its end and fills the hour after it |
| CreationPlan.ClaimConsumes | internal/autocreate/manager.go:783-803 | a claim drops the due deadline and draws a new plan only after the last one |
| CreationPlan.ClaimAdvancesSlot | internal/autocreate/manager.go:443-444 | each claim or skip advances the slot by one, 22 being followed by 0 |
| CreationPlan.ShiftKeepsSlot | internal/autocreate/manager.go:805-821 | postponing keeps the slot |
| CreationSlots.PickedIsFloor | internal/domain/apple_creation_policy.go:32-56 | the rule picks exactly the floor of k * c / n of the first k slots |
| CreationSlots.PickedIsPeriodic | internal/domain/apple_creation_policy.go:32-56 | the rule repeats after n slots |
| CreationSlots.SlotsAreRoundRobin | internal/autocreate/manager.go:443-456 | slots are given in order, round after round, however often the plan is postponed |
| CreationSlots.FreshPlanSlots | internal/autocreate/manager.go:443-443 | a fresh plan yields the slots 0 to 22 in order |
| CreationSlots.AnyWindowIsFair | internal/domain/apple_creation_policy.go:32-56 | of any k consecutive slots the rule picks within one of k * c / n, and exactly c of any n, for every n and c up to n |
| CreationSlots.ConsumptionIsFair | internal/domain/apple_creation_policy.go:32-56 | any consecutive slots, across plans too, are within one of their share |
| CreationSlots.TwentyThreeSlots | internal/domain/apple_creation_policy.go:32-56 | of any 23 slots in a row 4 go to Web and 19 to Account; 5 run when Account is down, none when Web is down |
| CreationSchedule.ReplacementIsLater | internal/autocreate/manager.go:390-456 | whatever the snapshot, a replacement is well spaced and later than the deadline it replaces |
| CreationSchedule.CooldownDelay | internal/autocreate/manager.go:624-632 | the larger of two minutes and the local delay for a wait of the local budget, otherwise the larger of an hour and the server's delay |
| CreationSchedule.Store.CompareAndSwap | internal/autocreate/manager.go:61-77 | the plan is replaced exactly when the next run is the expected one |
| CreationSchedule.Store.ProcessDue | internal/autocreate/manager.go:390-472 | a pass claims, with a ticket for the due deadline, if and only if the schedule is enabled with a valid account, is due and not overdue, was last attempted two minutes ago or never, has known channels whose slot is to run, a plan was drawn, and the swap took effect and was answered |
| CreationSchedule.DueStepMeans | internal/autocreate/manager.go:390-472 | the same of the specification's step, and what is stored: a redrawn, postponed or consumed plan, or nothing new |
| CreationSchedule.TwentyThreePasses | internal/autocreate/manager.go:443-472 | of 23 deadlines passed in a row all are claimed with both channels, exactly five with Account down and none without Web, with corrections, postponements and lost swaps in between |
| CreationSchedule.StepKeepsHeld | internal/autocreate/manager.go:758-781 | while a claim's token is the stored next run, the stored plan is the claim's own |
| CreationSchedule.Store.CorrectPlanAfterClaim | internal/autocreate/manager.go:758-781 | a start is refused exactly if its plan starts too early and the swap failed or was not answered; a swapped plan is the claim's, moved just to two minutes after the start |
| CreationSchedule.Store.CoolDown | internal/autocreate/manager.go:623-649 | the plan is replaced exactly if the claim's token is stored and random numbers were drawn, by 23 deadlines from the end of the cooldown to an hour later |
| CreationSchedule.StepKeepsInv | internal/autocreate/manager.go:390-649 | every step of every worker keeps the order of claims, tokens and starts |
| CreationSchedule.StoredPlanIsGood | internal/autocreate/manager.go:390-649 | the stored plan always has 1 to 23 deadlines two minutes apart |
| CreationSchedule.StartsAreSpread | internal/autocreate/manager.go:486-571 | two remote starts are never closer than two minutes, for any number of workers and any latency |
| CreationSchedule.NextRunFollowsStarts | internal/autocreate/manager.go:486-571 | the next run is at least two minutes after every start |
| CreationSchedule.DeadlinesAreClaimedOnce | internal/autocreate/manager.go:451-467 | competing workers never claim the same deadline |
| BitPacking.BitWriter.Push | internal/apple/account_fingerprint.go:44-52 | the stream of bits grows by exactly the bits of the value |
| BitPacking.BitWriter.Pad | internal/apple/account_fingerprint.go:63-65 | the last letter is filled with fewer than six zero bits |
| BitPacking.PeekPrefix | internal/apple/account_fingerprint.go:55-61 | a string that begins with a code lies in that code's interval |
| FdTable.CodesAdjoin | internal/apple/account_fingerprint.go:80-82 | the listed codes tile the 16-bit space from its top to 0 |
| FdTable.WindowsAreShared | internal/apple/account_fingerprint.go:80-82 | every 16-bit window belongs to exactly one code, which the lookup finds |
| FdTable.CodeIsRecognised | internal/apple/account_fingerprint.go:55-62 | whatever follows, a symbol's code is recognised |
| FdTable.DecodedInverts | internal/apple/account_fingerprint.go:55-62 | prefix decoding gives back the text up to its first zero byte |
| FdCodec.Compress | internal/apple/account_fingerprint.go:36-39 | the loop substitutes the 31 tokens in order: none is left, the text is shorter exactly if it had one, and expansion gives it back exactly if it has no bytes 1 to 31 |
| FdCodec.NoneLeft | internal/apple/account_fingerprint.go:37-39 | no occurrence of a token is left by its substitution |
| FdCodec.MarksStandForTokens | internal/apple/account_fingerprint.go:37-39 | writing the token back for each mark gives the text, and each mark saves the rest of its token |
| FdCodec.LeftmostFirst | internal/apple/account_fingerprint.go:37-39 | occurrences are replaced from the left without overlap |
| FdCodec.NoTokenIsLeft | internal/apple/account_fingerprint.go:36-39 | the compressed text contains none of the 31 tokens, later steps making none |
| FdCodec.ShorterWithAToken | internal/apple/account_fingerprint.go:36-39 | compression shortens a text exactly when a token occurs in it, and changes no other |
| FdCodec.ExpansionUndoesCompression | internal/apple/account_fingerprint.go:36-39 | expansion undoes substitution exactly for the texts without bytes 1 to 31 |
| FdCodec.Pack | internal/apple/account_fingerprint.go:53-62 | header, codes and closing code are written; an unknown byte is reported |
| FdCodec.AccountFingerprint | internal/apple/account_fingerprint.go:35-78 | the output is the payload in letters with its checksum, or the raw text exactly when a byte is not in the table |
| FdCodec.FingerprintRoundTrip | internal/apple/account_fingerprint.go:35-78 | reading back gives the raw text exactly when it has no bytes 0 to 31 |
| FdCodec.HeaderGivesLength | internal/apple/account_fingerprint.go:53-54 | the two header letters give the compressed length modulo 64, their other bits being fixed |
| FdCodec.SuffixGivesChecksum | internal/apple/account_fingerprint.go:74-76 | the last three letters give all 16 bits of the checksum |
| Crc16.Compute | internal/apple/account_fingerprint.go:66-73 | the loop folds the shift form over the bytes |
| Crc16.DivisionMovesWindow | internal/apple/account_fingerprint.go:67-73 | one shift step is one byte of polynomial long division |
| Crc16.ChecksumIsRemainder | internal/apple/account_fingerprint.go:66-73 | the checksum is the remainder of the text and 16 zero bits, started at 0xffff, by x^16 + x^12 + x^5 + 1 |
| Srp.PowSum | internal/apple/srp.go:66-70 | exponents add up and the first power is the base |
| Srp.UnmaskedBase | internal/apple/srp.go:66-68 | removing the masked verifier leaves g^b, also where the difference is negative |
| Srp.SharedSecretsAgree | internal/apple/srp.go:55-70 | client and server compute the same secret for all secrets and all x, u and k |
| Srp.ProofsAgree | internal/apple/srp.go:55-76 | a server that hashes what RFC 5054 and RFC 2945 lay down, written out on its own, computes the same two proofs |
| Srp.PaddingRoundTrip | internal/apple/srp.go:150-158 | below the modulus padded forms have one length and give the value back |
| Srp.PaddingIsInjective | internal/apple/srp.go:150-158 | different values below the modulus are hashed differently padded |
| Srp.SrpClient.ProcessChallenge | internal/apple/srp.go:55-77 | fails exactly for a public value outside (0, N) or u = 0, changing nothing; otherwise sets both proofs |
| Srp.NewSrpClient | internal/apple/srp.go:38-49 | an all-zero secret or missing randomness is refused |
| LogRing.Ring.EvictOldest | internal/applog/handler.go:395-401 | the oldest entry goes and its size is given back |
| LogRing.Ring.MakeRoom | internal/applog/handler.go:386-388 | the loop drops exactly the prefix of the specification |
| LogRing.Ring.Append | internal/applog/handler.go:380-393 | the buffer is the old contents without the dropped prefix and the entry with the next ID |
| LogRing.DroppedIsLeast | internal/applog/handler.go:386-388 | the dropped prefix is the shortest that makes room for the entry and byte limits |
| LogPaging.List | internal/applog/handler.go:235-300 | the scan of the circular buffer gives the page of the sequence it refines |
| LogPaging.PageMeans | internal/applog/handler.go:270-298 | the total is the number of retained matches; a page with more to come is full and points to its last item |
| LogPaging.OffsetsListEachMatchOnce | internal/applog/handler.go:246-295 | pages at consecutive offsets list each retained match before the cursor once, newest first, and nothing else |
| LogPaging.FullPage | internal/applog/handler.go:285-298 | a page with more to come ends at its cursor, strictly before where it began |
| LogPaging.CursorListsEachMatchOnce | internal/applog/handler.go:235-300 | following the cursor lists each retained match once, newest first, with appends between the pages |
| LogEntry.NormalizedLimits | internal/applog/handler.go:147-171 | every limit is positive and an entry of full size fits into the whole budget; valid limits are kept |
| LogEntry.TruncateUTF8 | internal/applog/handler.go:598-618 | the cut keeps the limit and falls on the last character boundary that does |
| LogEntry.TruncationMeans | internal/applog/handler.go:598-618 | a text of whole characters that is too long is cut to the most of them that fit, the dots counted |
| LogEntry.FitText | internal/applog/handler.go:589-596 | the text fits both limits and the remaining budget is exact |
| LogEntry.BuildEntry | internal/applog/handler.go:557-587 | the size is exact and within the budget; message, source, keys and values are the given ones cut to their limits and to what is left, and a field is left out only for the limit on fields or for want of room |
| LogEntry.Handle | internal/applog/handler.go:180-197 | recording appends the entry built from the record and never takes the log over its byte budget |
| LogKeys.SplitFlattenedKey | internal/applog/handler.go:469-495 | the scan computes the segments |
| LogKeys.SplitUndoesFlatten | internal/applog/handler.go:469-513 | splitting undoes flattening for any dots and backslashes |
| LogKeys.OtherKeys | internal/applog/handler.go:469-495 | in any other key a backslash takes away the meaning of what follows it, and one at the end stands for itself |
| LogKeys.SuffixIsLastName | internal/applog/handler.go:461-467 | a key matches a name exactly when it is the last of its path; distinct paths have distinct keys |
| UidScan.Validate | internal/mail/archive_fetcher_v2.go:494-510 | an answer is accepted exactly when its UIDs are distinct and in range, and then sorted; otherwise the error names the first UID that is not |
| UidScan.Discover | internal/mail/alias_demand_search.go:49-76 | found UIDs ascend up to the new cursor, which is the last one within the limit or the end of the window; more is reported exactly below the upper end |
| UidScan.Scan | internal/mail/alias_demand_search.go:49-76 | feeding the cursor back finds every match once, in order, and ends at the upper end unless a search fails, without leaving 32 bits |

## Left out

- Apple's endpoints, HTTP handlers, IMAP, cookies, HTML and JSON: each remote call is an arbitrary answer.
- The PostgreSQL store: only the compare-and-swap contract and nondeterministic reads and writes are used; that the stored next run is the first deadline of the stored plan is read off the repository interface.
- AliasDeletion.Batch: a session is reduced to a token, an Apple ID, a region and whether it has other state; the encryption of checkpoints is not modelled; a panic inside a wait report is not modelled within a group's run, only its effect on the batch.
- AliasDeletion.DeleteGroup: the overall time limit of a recovery job is a cancellation at an arbitrary moment.
- DeletionFlows.SomeFlowCanProceed: the callback-only account lock, which cannot be released during a cooldown, and holders of the account lock outside the batch are not modelled.
- OperationLock.OperationTable: one mutex-protected section is one step; the memory model below it is not modelled.
- BatchOutcomes.RunWorkers: a worker's whole deletion of one item is one step, its inside being the subject of `AliasDeletion`; a locker that returns without running the group, a panic while locks are released, and a callback that ends the caller's own goroutine are not modelled.
- AppleErrors.ParseDelaySeconds: the date form of `Retry-After` is not modelled.
- Text: trimming and case folding cover ASCII only; Unicode folding is not modelled.
- PickupRate.PickupLimiter: response headers and the rounding of the retry are not modelled.
- CreationSchedule.StartsAreSpread: enabling, disabling and cadence upgrades during a run are not modelled, nor is a clock that runs backwards; the inventory gate and cancelled contexts are workers that never take their next step.
- CreationSchedule.Store.ProcessDue: log lines and the recording of successes and failures are not modelled.
- FdCodec.AccountFingerprint: building and query-escaping the fields from the clock is not modelled; shifts and masks of the bit buffer are arithmetic on at most 21 bits.
- Srp: PBKDF2, the hash and the 2048-bit prime are parameters; the modulus is any number above 1 that fits the padded size.
- LogRing.Ring.Append: identifiers are unbounded; the wrap-around of a 64-bit counter is not modelled.
- LogPaging.List: filters are an arbitrary predicate of an entry; parsing of levels and text search is not modelled.
- LogEntry.BuildEntry: fields are a list in order, as collected under distinct keys; repair of invalid UTF-8 is a parameter; redaction of sensitive keys is not modelled.
- UidScan.Scan: a search that returns is assumed to name exactly the matching UIDs of its range, in any order.
- Login and two-factor flows, alias creation itself, pool retirement, semaphores and request sampling: they rest on store behaviour that is not visible or repeat easier forms of the properties above.
