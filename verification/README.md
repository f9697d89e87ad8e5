# pgrouter in Dafny

pgrouter is a PostgreSQL connection pooler that works in transaction mode: many clients share few
backends, and a client may be given a different backend for every transaction. This project models
the parts that make the sharing safe and proves what they promise, over every interleaving, every
input stream or every run:

- **The pool** (`PoolSizing`, `PoolProtocol`, `PoolLedger`, `PoolTheorems`, `PoolBounds`, `PoolRaces`,
  `PoolClosing`, `PoolDrain`, `PoolShortage`, `PoolFinish`, `PoolEnds`). A transition system with one step per critical
  section, channel operation or atomic operation of Acquire, Release, Discard, cancellation and the reserve timer, and with Resize,
  the eviction sweep and the phases of Close. A hand-off that loses to a cancel or to a reserve timer is
  a step of its own and feeds a counter of stranded slots. Resize and the sweep are also methods of a
  class.
- **The caps across pools** (`GlobalCaps`, `PoolPermits`, `PermitsDrain`, `PoolStalls`). The per-database
  and per-user semaphores, first on their own and then around the calls of any number of pools.
- **The session loop** (`ServeLoop`; `SessionActs` tells on its acts alone what it does about each event),
  **prepared statements** (`PreparedLru`, `PreparedWire`, `PreparedBalance`, `PreparedSim`,
  `PreparedTheorems`, `PreparedRecency`, `PreparedLeaks`) and **settings** (`SetText`, `GucCache`,
  `VirtualSession`, `VirtualLimits`). The last two are simulations: many clients over many backends,
  compared with one dedicated backend for each client; `PreparedLeaks` and `VirtualLimits` say when they diverge.
- **Byte forwarding** (`ByteStream`, `Splice`, `WireFrames`, `RawForward`, `RawFrames`). Sockets deliver any
  amount at a time and may fail at any point; the buffered forwarders are compared with the plain stream,
  and the plain stream with the messages a backend writes, their lengths printed in base 256.
- **SCRAM-SHA-256** (`ScramText`, `Scram`, `ScramConv`). HMAC, the hash, PBKDF2 and Base64 are
  arbitrary functions with four laws: encoding is undone by decoding, an encoding holds no comma,
  dollar or colon, an HMAC is 32 bytes long, and the GS2 header
  encodes to `biws`. `LawsHoldSomewhere` exhibits such functions.
- **The classifier** (`SqlNoise`, `SqlKeyword`, `SqlClassifier`; `SqlExplain`, `SqlWith` and
  `SqlVerdicts` describe by grammars what it passes over), **replica routing** (`Replicas`) and **the
  rate cap** (`TokenBucket`).

Where the source changes state the model is a class or a method with loops, proved against a
function; the theorems are about those functions. `Options` and `Counting` hold what is shared.

## What turned out false, and when it is true

- A raced hand-off strands a slot for good. `StrandedExactly` says which steps do it; `CancelStrands`
  and `TimerStrands` are runs of each kind.
- The bound of size plus reserve fails when two calls interleave inside the poll, load and
  compare-and-swap window (`InterleavedWindowsExceedSize`), or when two reserve timers fire before either
  dial is counted (`TwoTimersExceedReserve`). `ExceedsIff` says exactly which runs keep it.
- A parked call need not ever end. A Discard tells nobody (`DiscardLeavesParked`), a release that has
  looked at the queue does not look again (`ParksAfterTheLook`), stranded slots keep everybody parked
  (`StrandedSlotsStall`), and nobody wakes a call that parks after Close has taken the queue
  (`ParksAfterClose`). Such a call keeps its database and user tokens (`StallsUnderCaps`). `CanEndIff` and
  `DrainsIff` say exactly when all calls can end by themselves, `StalledIff` when nothing moves.
- A call whose channel Close closes before its cancel is complete dereferences nil, and the process
  ends. `CrashesIff` says when, and `CancelRacingCloseCrashes` is a run.
- Close need not leave the idle channel empty: a release or cancel that looked at the closed flag in time
  puts its backend there afterwards, and nobody closes it (`LateReleaseStaysOpen`). `CloseIsCompleteIff` says
  exactly when that cannot happen.
- RawForwardAll corrupts or panics when a frame overflows a non-empty buffer, and panics when a frame
  fills the buffer to its length, whatever its capacity (`FullBufferPanics`). `FastIsSlow` gives the
  exact condition, which reads frame headers only.
- Two queries with one server-side name make a client run the wrong one. `SoundIffDistinct` shows
  that distinct names are exactly what is needed.
- A client that leaves in the middle of a batch, with the reset on release switched off, leaks its
  replies into the next client's batch when the splice is off (`AbandonedBatchLeaks`,
  `AbandonedParseLeaks`), unless that client has settings to replay (`ReplayAbsorbs`). When the splice is
  on, the buffered messages are lost and the statement cache may no longer match the backend
  (`DroppedBatchIff`, `BindFailsIff`, `DroppedParseIsLost`).
- A tracked setting whose text holds a semicolon outside quotes, or an open quote, is not restored by the
  replay text (`SplitValueIsLost`). `ReplayExecutes` says exactly when the settings are.
- A rolled-back SET, a SET that was refused after it was observed, and a release without a reset are
  each harmless exactly under the condition that the lemmas of `VirtualLimits` state, with a run from
  the initial state for each failure.
- A login with a username that holds a comma succeeds exactly when each of its
  comma-separated pieces is itself an attribute (`NameOk` in `Completeness`).
- A final SCRAM message that opens with its proof panics the server. `PanicsIff` says exactly which
  messages do, `ProofFirstPanics` gives one for every conversation.
- A transaction block that fails within the message that opens it is never counted as started;
  `ClientState.ObserveTxStatus` keeps the count that balances the ledger.
- The round-robin counter is converted to a signed integer. `WindowFairIff` says from which counters
  a round of picks is fair and free of panics.
- A leading identifier longer than 32 bytes overruns the keyword buffer. `CrashHasChain` and
  `ChainCrashes` say exactly which texts crash the classifier; `LongNameCrashes` is one.

## Where code and documentation disagree

- `Classify` in splice.go documents unknown tags as a class of their own; the table's zero value makes
  them boring, and the model follows the table.
- Resize says it wakes waiters; it does not.
- The classifier's header comment prefers treating a read as a write to the opposite; a WITH whose
  body deletes is still classified by the statement after it (`BodyIgnored`).
- The eviction floor is described as a minimum pool size; entries past their lifetime go regardless.
- DrainSplice returns on a negative length without flushing what it had coalesced.

## Model

| member | source | states |
|---|---|---|
| PoolTheorems.SlotLedger | internal/pool/pool.go:279-327 | in every state of every interleaving the active count is held backends, dials, claimable hand-offs, releases between push and decrement, and stranded slots |
| PoolTheorems.StrandedExactly | internal/pool/pool.go:562-588 | stranded slots grow by one exactly on a hand-off that lost to a cancel or a reserve timer, and by none on any other step |
| PoolTheorems.OnePlace | internal/pool/pool.go:467-538 | every opened backend is in exactly one place (idle, one call's hands or channel, closed), every other backend nowhere |
| PoolTheorems.HeldOnce | internal/pool/pool.go:279-327 | a backend a client holds is held, handed or idle nowhere else |
| PoolTheorems.HandOffNeverBlocks | internal/pool/pool.go:507-521 | a Release that took a waiter finds its channel open and empty |
| PoolTheorems.TakenInParkOrder | internal/pool/pool.go:330-341 | the waiters that Release took, then those queued, are the park order without those that left the queue by cancelling, by dialing from the reserve or by Close |
| PoolTheorems.TimerFiresOnce | internal/pool/pool.go:349-398 | in every run the reserve timer of a call fires at most once |
| PoolTheorems.RunKeepsInv | internal/pool/pool.go:349-398 | every run keeps the queue, slot, place and order invariants |
| PoolLedger.StepKeepsQueue | internal/pool/pool.go:330-341 | each step keeps the waiter queue duplicate-free and in agreement with the waiters' phases and channels |
| PoolLedger.StepKeepsSlots | internal/pool/pool.go:414-451 | each step keeps the active count equal to the calls' slots and the drained ones |
| PoolLedger.StepKeepsPlaces | internal/pool/pool.go:546-558 | each step moves a backend from one place to another and duplicates none |
| PoolBounds.SizeBound | internal/pool/pool.go:282-325 | at a fixed size without a reserve, with no other call moving between an acquire's poll, load and swap, live backends never exceed the pool size, whatever is released, cancelled, evicted or closed meanwhile |
| PoolBounds.ReserveBound | internal/pool/pool.go:414-451 | at a fixed size with a reserve, with those windows and those of a push and a dequeue uninterrupted and hand-offs taken, live backends stay within size plus reserve and a parked waiter means nothing idle, Close included; until Close nothing is stranded |
| PoolBounds.StepExceedsIff | internal/pool/pool.go:282-325 | a step first exceeds size plus reserve if and only if it is a winning swap or a counted reserve dial for which idle and popped, uncounted backends, less those pushed or drained and still counted, fill the room above the active count |
| PoolBounds.ExceedsIff | internal/pool/pool.go:414-451 | under every interleaving at a fixed size, with any reserve, live backends stay within size plus reserve throughout a run if and only if it holds no such step |
| PoolBounds.InterleavedWindowsExceedSize | internal/pool/pool.go:282-325 | a run in which a pool of size one has two live backends |
| PoolRaces.CancelStrands | internal/pool/pool.go:562-588 | a run in which a cancel meets a hand-off: every call is over, one slot stays counted for good |
| PoolRaces.TimerStrands | internal/pool/pool.go:414-451 | a run in which a reserve timer meets a hand-off: every call is over, one backend stays open in a channel nobody reads |
| PoolRaces.TwoTimersExceedReserve | internal/pool/pool.go:414-451 | a run in which a pool of size one with a reserve of one has three live backends |
| PoolRaces.CrashesIff | internal/pool/pool.go:562-588 | in any run a step ends the process if and only if it ends a call's cancellation and Close has closed that call's channel by then |
| PoolRaces.CancelRacingCloseCrashes | internal/pool/pool.go:562-588 | a run in which that happens |
| PoolRaces.CancelBeforeWakeEnds | internal/pool/pool.go:644-654 | the same call, cancelled after Close took the queue and before it closed the channel, ends, and so does Close |
| PoolClosing.CloseLeavesAtMost | internal/pool/pool.go:637-655 | in every run Close closes whatever is in the idle channel, and from then on the channel never holds more backends than there were calls past their look at the closed flag |
| PoolClosing.CloseIsCompleteIff | internal/pool/pool.go:467-544 | nothing comes into the channel after Close has drained it, in any continuation, if and only if at that moment no release or cancel is past its look at the flag with a backend it can still put there |
| PoolClosing.LateReleaseStaysOpen | internal/pool/pool.go:467-544 | a run from the start after which the pool is closed, every call is over, and a backend is open in the idle channel |
| PoolClosing.GivenUpForGood | internal/pool/pool.go:467-560 | in every run a backend that is discarded, whose reset fails, or that is released to a pool already closed, is closed, and is never idle, handed on or held again |
| PoolDrain.StuckStays | internal/pool/pool.go:349-398 | in an open pool where somebody needs a backend and nobody has, hands on or can come by one, no step of the calls there, their clients and timers changes that |
| PoolShortage.ShortStays | internal/pool/pool.go:349-588 | once Close has taken the queue, if the hand-offs still to come are fewer than the calls that nothing else can serve, no such step changes that |
| PoolShortage.HopelessForGood | internal/pool/pool.go:349-588 | so a pool that is stuck, short of hand-offs or bound to crash is never rid of all its calls by their own steps |
| PoolEnds.CanEndIff | internal/pool/pool.go:279-588 | in every reachable state the calls inside can all end without a newcomer, a cancel, a Close, a Resize or a sweep if and only if the pool is not jammed: stuck while open, or, once Close has taken the queue, short of hand-offs or with a cancel whose channel is already closed |
| PermitsDrain.DrainsIff | internal/pool/manager.go:105-165 | over all pools and semaphores, in every reachable state, the calls that have entered a pool can all end and give their tokens back under the same terms if and only if no pool is jammed |
| PermitsDrain.StalledIff | internal/pool/manager.go:105-165 | nothing moves but newcomers, cancels and whoever opens, closes, resizes or sweeps if and only if no Close is under way and every call is over, before a full semaphore, without a pool, or parked with its timer spent |
| PermitsDrain.BlockedBehindParked | internal/pool/manager.go:105-165 | where nothing moves and a call waits for a token, another call that rests inside a pool or has none to enter holds one: the semaphores alone never deadlock |
| PermitsDrain.Embeds | internal/pool/pool.go:257-270 | every run of a single pool is a run under the semaphores |
| PoolStalls.DiscardLeavesParked | internal/pool/pool.go:546-558 | a run in which a Discard frees the only slot and the parked call is not told |
| PoolStalls.ParksAfterTheLook | internal/pool/pool.go:501-537 | a run in which a call is parked for good beside an idle backend |
| PoolStalls.StrandedSlotsStall | internal/pool/pool.go:562-588 | a run after which every call parks for good, because every slot is stranded |
| PoolStalls.ParksAfterClose | internal/pool/pool.go:635-655 | a run in which a call parks after Close has taken the queue and is never woken |
| PoolStalls.StallsUnderCaps | internal/pool/manager.go:105-165 | each such run, under the semaphores, ends where nothing moves and the parked call keeps its tokens |
| PoolSizing.SweepDecides | internal/pool/pool.go:691-740 | a connection is kept if and only if it has not reached the lifetime, if there is one, and, if it has been idle for the idle limit, if there is one, fewer than the floor were kept before it; in terms of the clock and the times of the connection |
| PoolSizing.SweepFloor | internal/pool/pool.go:691-740 | at least the floor survives, or everything not past its lifetime |
| PoolSizing.SweepPartitions | internal/pool/pool.go:691-740 | evicted and kept together are the idle queue |
| PoolSizing.SweepOff | internal/pool/pool.go:691-740 | with both thresholds off nothing is evicted, so the early return is right |
| PoolSizing.RunSweep | internal/pool/pool.go:691-740 | the sweep loop keeps and evicts what the decision says, in queue order |
| PoolSizing.Trim | internal/pool/pool.go:212-239 | the trimming loop drops the oldest excess and keeps the rest in order |
| PoolSizing.Pool.constructor | internal/pool/pool.go:159-186 | every configured value out of range is brought into it: pool size, minimum, reserve size and reserve timeout |
| PoolSizing.Pool.Resize | internal/pool/pool.go:212-239 | exactly as many idle connections as fit beside the active ones are kept, the newest, so the refill never blocks; the others are closed |
| PoolSizing.Pool.EvictIdleOnce | internal/pool/pool.go:691-740 | idle and closed partition the old queue, with the floor kept |
| GlobalCaps.CapsHold | internal/pool/manager.go:105-165 | no interleaving takes a database or a user over its cap |
| GlobalCaps.ReceivesNeverBlock | internal/pool/manager.go:105-165 | every receive of PostRelease and of the back-out finds a token |
| PoolPermits.EndsWhatFires | internal/pool/pool.go:257-270 | over every way out of Acquire, Release and Discard, a pool step runs into PostRelease exactly for the call it ends |
| PoolPermits.PairedExactlyOnce | internal/pool/pool.go:257-270 | in every interleaving of pools and semaphores an admitted call has begun its one PostRelease exactly when its pool call is over, and has completed it exactly when it is done with the caps |
| PoolPermits.CheckoutsWithinCaps | internal/pool/manager.go:105-165 | over all pools, the checkouts of a database and of a user never exceed the configured caps, and no pool has a checkout that was not admitted |
| GlobalCaps.NoDeadlock | internal/pool/manager.go:105-165 | of the semaphores alone, the pool call of an admitted call taken to end: whenever an acquire is blocked some other holder can take its next step |
| GlobalCaps.AlwaysDrains | internal/pool/manager.go:105-165 | of the semaphores alone, every pool call taken to end: all calls can finish without a cancel, leaving every semaphore empty |
| ServeLoop.ClientState.ObserveTxStatus | internal/client/state.go:105-122 | starts and uncounted failures balance commits, rollbacks and the open block after every status |
| ServeLoop.SessionReturnsAll | internal/client/pooled.go:475-509 | over every sequence of events, on every way out, nothing stays checked out and no act is out of turn |
| ServeLoop.EachReturnedOnce | internal/client/pooled.go:1280-1299 | each acquired backend is returned once, by Release or Discard, to the pool it came from, before the next acquire |
| ServeLoop.SessionKeepsTransactions | internal/client/pooled.go:788-813 | in transaction mode without query timeouts a backend in a transaction is never released; it is only discarded, as the session's last act |
| ServeLoop.SameBackend | internal/client/pooled.go:659-710 | all reports of one transaction come from one checkout |
| ServeLoop.Session.constructor | internal/client/pooled.go:441-473 | a session starts idle, detached and unpinned |
| ServeLoop.Session.Give | internal/client/pooled.go:1280-1299 | the backend goes to the pool recorded with it |
| ServeLoop.Session.Attach | internal/client/pooled.go:659-710 | the pool chosen, the checkout made or refused, and the discard after a failed replay |
| ServeLoop.Session.Forward | internal/client/pooled.go:711-813 | what each outcome of forwarding and draining does to the checkout, the release decision of finalizeRFQ included |
| ServeLoop.Session.HandleMsg | internal/client/pooled.go:580-813 | the whole effect of one message |
| ServeLoop.Session.HandleTimeout | internal/client/pooled.go:544-576 | the whole effect of a read deadline |
| ServeLoop.Session.Serve | internal/client/pooled.go:407-813 | the session's acts are those of the decisions, cleanup included, and so have the properties above |
| SessionActs.AnswersAreTheTrace | internal/client/pooled.go:514-813 | the acts told event by event are the trace of the session |
| SessionActs.ReleasedIff | internal/client/pooled.go:931-941 | in every session a ReadyForQuery that answers a client message is followed at once by the release of the held backend, to its own pool with the configured reset, if the client has sent nothing that pins and statement mode is on or the status is idle; otherwise nothing follows it before the next event |
| SessionActs.TakenAndAnswered | internal/client/pooled.go:659-813 | in every session, exactly which messages take a backend, from which pool, which are answered, and when the backend is thrown away |
| SessionActs.OnlyReadsLeaveThePrimary | internal/client/pooled.go:834-849 | in every session a backend from another pool than the primary was taken for a read, unpinned, outside the sticky window, from the replica picked |
| SessionActs.EndsIff | internal/client/pooled.go:580-813 | exactly which messages end the session |
| SessionActs.PolledIff | internal/client/pooled.go:544-576 | a client whose read deadline passes is kept and polled if and only if it is pinned, holds a backend, was last told idle and is not past its own limit |
| SessionActs.LeftBehind | internal/client/pooled.go:475-509 | on the way out a held backend goes back to its pool if the client was last told idle, and is discarded otherwise |
| PreparedLru.AddedKeeps | internal/backend/prepared_cache.go:103-150 | an Add puts the name in and takes out only the evicted one, which is never the name just added; only a full cache evicts |
| PreparedLru.OrderIsRecency | internal/backend/prepared_cache.go:85-150 | after any operations the list is duplicate-free, within capacity, and ordered by last use |
| PreparedLru.EvictsLeastRecent | internal/backend/prepared_cache.go:103-124 | what is evicted is the cached name with the oldest last use |
| PreparedLru.PreparedCache.constructor | internal/backend/prepared_cache.go:42-51 | a capacity below one becomes the default |
| PreparedLru.PreparedCache.Has | internal/backend/prepared_cache.go:74-82 | membership in the list |
| PreparedLru.PreparedCache.Touch | internal/backend/prepared_cache.go:85-94 | the map and the list stay in step and the list is as specified |
| PreparedLru.PreparedCache.Add | internal/backend/prepared_cache.go:103-124 | the same, with the evicted name |
| PreparedLru.PreparedCache.Remove | internal/backend/prepared_cache.go:127-137 | the same, and exactly this name goes |
| PreparedLru.PreparedCache.Clear | internal/backend/prepared_cache.go:142-150 | the same, empty |
| PreparedWire.PrepareCache.Observe | internal/client/prepare.go:78-92 | the name now stands for the query; the one it stood for is returned |
| PreparedWire.PrepareCache.Close | internal/client/prepare.go:110-121 | the name is gone; the result says whether it was there |
| PreparedWire.Session.EnsureBackendPrepared | internal/client/pooled.go:1706-1738 | sends, cache and counters are those of the specified turn |
| PreparedWire.Session.PrepareInterceptForward | internal/client/pooled.go:1597-1698 | rewriting, injection, eviction and synthesised replies are those of the specified turn |
| PreparedWire.Session.Handle | internal/client/pooled.go:1101-1136 | the same for a message that is first observed |
| PreparedWire.Session.DrainBackendUntilRFQ | internal/client/pooled.go:1062-1094 | the raw path and the decode loop both deliver the filtered replies |
| PreparedBalance.DrainBalances | internal/client/pooled.go:1062-1078 | draining a balanced batch leaves both counters at zero and delivers a dedicated server's replies |
| PreparedBalance.TurnServes | internal/client/pooled.go:1597-1738 | one message keeps the cache equal to the server's statements and the replies balanced |
| PreparedSim.RunKeepsInv | internal/client/pooled.go:711-790 | every run of clients, attaches, batches, releases, resets and discards keeps both |
| PreparedTheorems.CacheIsServer | internal/backend/reset.go:64-73 | in every run a backend's cache lists exactly the statements it holds, each under its own SQL's name |
| PreparedTheorems.StatementIsThere | internal/client/pooled.go:1655-1686 | a rewritten Bind or Describe names a statement the backend has, with the client's SQL |
| PreparedTheorems.NothingFails | internal/client/pooled.go:1622-1653 | no forwarded message fails where a dedicated server would not: no Parse collides, no statement is missing |
| PreparedTheorems.BatchesConserved | internal/client/pooled.go:1062-1094 | every batch delivers, as a multiset with the SQL each reply stands for, what a dedicated server sends, and nothing stays pending |
| PreparedTheorems.BatchPerSync | internal/client/pooled.go:1553-1561 | a batch is delivered at each Sync and simple query and only then, with everything the dedicated server has sent since the last one |
| PreparedRecency.EvictsLeastAsked | internal/client/pooled.go:1706-1738 | in every run, whoever the clients are, the statement closed to make room is one a full cache lists, and every other one it lists has been parsed, bound or described by a client on that backend more recently |
| PreparedTheorems.SoundIffDistinct | internal/client/prepare.go:57-61 | that holds of all runs over a set of queries if and only if their server-side names are distinct |
| PreparedTheorems.CollisionBreaks | internal/client/prepare.go:57-61 | for any two queries with one name, a run that binds the wrong one |
| PreparedLeaks.AbandonedBatchLeaks | internal/client/pooled.go:1290-1299 | after an unreset release with the splice off, any proper batch of a next client without settings to replay brings it its own replies if and only if the buffered messages draw no reply |
| PreparedLeaks.ReplayAbsorbs | internal/client/pooled.go:694-709 | for a next client with settings to replay, the replay reads the leftovers away and everything is in step again |
| PreparedLeaks.DroppedBatchIff | internal/client/pooled.go:356-391 | with the splice on, settings replayed or not, the next attach leaves the cache equal to the backend's statements if and only if the dropped messages would have changed no name |
| PreparedLeaks.BindFailsIff | internal/client/pooled.go:1706-1738 | on such a backend a Bind fails if and only if cache and backend disagree about its statement |
| PreparedLeaks.AbandonedParseLeaks | internal/client/pooled.go:1290-1299 | a run from the start in which a client gets a ParseComplete it never asked for |
| PreparedLeaks.DroppedParseIsLost | internal/client/pooled.go:356-391 | a run from the start in which a client's Bind fails because the cache lists a lost statement |
| GucCache.ReplayRestores | internal/client/guc.go:218-229 | in whatever order the map is walked, the replay leaves a default backend with exactly the tracked values |
| GucCache.ReplayExecutes | internal/client/guc.go:218-229 | a server that splits the replay text at semicolons outside quotes and each statement at its first equals sign ends with exactly the tracked values if and only if no name holds an equals sign and no setting holds such a semicolon or an open quote |
| GucCache.SplitValueIsLost | internal/client/guc.go:226-226 | a value with a semicolon is not restored |
| SetText.ReadIsPlain | internal/client/guc.go:226-226 | whatever such a server reads off any text are assignments without those characters |
| GucCache.GucCache.ApplyGuc | internal/client/guc.go:148-191 | the tracked values and the flag after each command, and whether it changed anything |
| GucCache.TrackedIff | internal/client/guc.go:148-191 | over every session a setting is tracked with a value if and only if it is on the list and the client's last word on it was to set that value |
| GucCache.FlaggedIff | internal/client/guc.go:113-191 | over every session the pin is asked for if and only if something not on the list was set since everything was last reset or discarded |
| GucCache.GucCache.ReplayQuery | internal/client/guc.go:218-229 | the SQL text is one SET for each tracked variable with its value, a space between two, and empty exactly when nothing is tracked; executing it on a default server gives exactly the tracked values if and only if each reads as itself |
| VirtualSession.AlreadyObserved | internal/client/pooled.go:694-709 | replaying a value before the command that sets it ends where the command alone would |
| VirtualSession.ServedAgrees | internal/client/pooled.go:602-607 | one command on a replayed or kept backend ends in the dedicated backend's settings |
| VirtualSession.SameSettings | internal/client/pooled.go:931-941 | over every run of every set of clients each statement leaves its client the dedicated settings |
| VirtualSession.LeavingFrees | internal/client/pooled.go:475-509 | a client that goes leaves its backend to others, as good as new, unless it is in a transaction |
| VirtualSession.PinIsSticky | internal/client/pooled.go:919-927 | a pinned client stays pinned and keeps its backend, whatever it resets |
| VirtualSession.ObserveAndPin | internal/client/pooled.go:602-607 | what a client remembers after a message, and whether it is pinned |
| VirtualLimits.RollbackHarmlessIff | internal/client/guc.go:148-191 | after a rollback the next transaction is right if and only if no tracked value changed in it |
| VirtualLimits.RefusedDetachedHarmlessIff | internal/client/pooled.go:625-634 | detached client: after a refused command the next statement is right if and only if the command tracks nothing new |
| VirtualLimits.RefusedAttachedHarmlessIff | internal/client/pooled.go:625-634 | attached client: the first statement of its next checkout is right if and only if what it tracks by then, refused command included, is what its dedicated session holds |
| VirtualLimits.RefusedAttachedOverwritten | internal/client/pooled.go:625-634 | attached client, no rollback: if and only if the rest of the checkout overwrites what the refused command would have tracked |
| VirtualLimits.RefusedAttachedRolledBack | internal/client/pooled.go:625-634 | attached client whose transaction is rolled back: if and only if the refused command and the rest of the transaction track what was set when it began |
| VirtualLimits.UnresetHarmlessIff | internal/client/pooled.go:116-120 | on a backend that was not reset a client is right if and only if it set everything left behind |
| VirtualLimits.RolledBackSetStays | internal/client/guc.go:148-191 | a run from the start in which a rolled-back value is seen |
| VirtualLimits.RefusedSetTakesEffect | internal/client/pooled.go:625-634 | a run from the start in which a refused value is seen |
| VirtualLimits.RefusedSetTakesEffectLater | internal/client/pooled.go:625-634 | the same for a command refused inside a transaction that then commits |
| VirtualLimits.UnresetValueIsSeen | internal/client/pooled.go:116-120 | a run from the start in which a client sees another's value |
| ByteStream.ChunkReader.constructor | internal/wire/splice/splice.go:302-323 | the reader taken over keeps its buffer; the stream is what it already holds, then its source |
| ByteStream.ChunkReader.Next | internal/wire/splice/splice.go:238-281 | through growth, compaction and failing reads, the next n bytes of the stream or no change |
| ByteStream.ChunkReader.Read | internal/wire/splice/splice.go:343-366 | fills the destination from the stream or changes nothing |
| ByteStream.ChunkReader.Rewind | internal/wire/splice/splice.go:376-378 | puts the bytes just read back in front of the stream |
| Splice.AppendFrame | internal/wire/splice/splice.go:554-638 | the coalesced bytes grow by exactly one frame |
| Splice.ForwardGiant | internal/wire/splice/splice.go:554-638 | a frame too large for the buffer goes out whole, header first |
| Splice.ForwardBoring | internal/wire/splice/splice.go:554-638 | written, pending and unread bytes stay consecutive pieces of the stream |
| Splice.SpliceStep | internal/wire/splice/splice.go:554-638 | one turn advances by one boring frame or ends as specified |
| Splice.DrainSplice | internal/wire/splice/splice.go:554-638 | on a stop, written plus readable is the original stream, cut at the first header that is not boring; a prefix is written in any case, and it fails only when a socket failed or the stream ends inside the frame at the cut |
| WireFrames.SpelledIsRead | internal/wire/splice/splice.go:582-583 | the tag, length and body found in front of a stream are those of the message the backend printed there, length in four base-256 digits |
| WireFrames.ReadIsSpelled | internal/wire/splice/splice.go:582-583 | and every frame is some message so printed |
| WireFrames.WatchedIff | internal/wire/splice/splice.go:80-136 | the messages that are not boring are those of ten named tags |
| WireFrames.CutIsTotalLength | internal/wire/splice/splice.go:554-638 | of any messages without such a tag before one with it, the splice forwards exactly those |
| WireFrames.CutNeverPasses | internal/wire/splice/splice.go:554-638 | whatever surrounds it, a message with such a tag is never passed |
| RawForward.FastIsSlow | internal/wire/splice/splice.go:406-491 | the fast path delivers the decode loop's bytes, stop point and status if and only if every frame starts inside the buffer and finds its room |
| RawForward.RoomIsEnough | internal/wire/splice/splice.go:406-491 | a response no longer than the buffer always fits |
| RawForward.FastRefinesSlow | internal/client/pooled.go:1015-1095 | then the release decision is the same too |
| RawForward.OversizeCorrupts | internal/wire/splice/splice.go:440-475 | three frames of which the second goes out under the first one's header |
| RawForward.OversizeRfqPanics | internal/wire/splice/splice.go:440-475 | a ReadyForQuery that finds too little room panics |
| RawForward.FullBufferPanics | internal/wire/splice/splice.go:406-440 | a frame that fills the buffer to its length makes the next header panic, whatever the capacity |
| RawForward.RawStep | internal/wire/splice/splice.go:406-491 | one turn on the buffer is one turn of the specification |
| RawForward.RawForwardAll | internal/wire/splice/splice.go:406-491 | result, written bytes and unread rest are the fast path's, and it fails only when a socket failed or the fast path finds no whole frame |
| RawFrames.DeliversMessages | internal/client/pooled.go:1062-1095 | of any messages before ReadyForQuery or CopyInResponse the decode loop delivers exactly the bytes, reports that status, and leaves the rest unread |
| RawFrames.DeliveredAreMessages | internal/client/pooled.go:1062-1095 | and it delivers nothing but such messages |
| RawFrames.FastDeliversMessages | internal/wire/splice/splice.go:406-491 | the raw loop does the same while the response fits its buffer |
| RawFrames.SpliceLeavesTheEnd | internal/client/pooled.go:1015-1061 | a splice that runs ahead of the decode loop never passes the message at which that loop ends, and the two together deliver the same |
| ScramText.SplitScramAttrs | internal/auth/scram_server.go:179-190 | the attribute map, later keys winning, or none when a part has no key |
| ScramText.AtoiItoa | internal/auth/scram_client.go:76-79 | a printed count parses back |
| Scram.XorTwice | internal/auth/scram_server.go:140-143 | combining with a key twice gives the first operand back |
| Scram.XorLoop | internal/auth/scram_client.go:105-108 | the byte loop computes the combination |
| Scram.VerifierRoundTrip | internal/auth/scram.go:40-97 | a verifier prints as SCRAM-SHA-256$iterations:salt$stored:server and parses back to itself |
| Scram.Completeness | internal/auth/scram_server.go:46-190 | the two state machines succeed exactly when the username parses, as every comma-free one does; AuthMessage is RFC 5802's, byte for byte on both sides, and the server recovers ClientKey |
| Scram.ParsedShape | internal/auth/scram.go:40-81 | only a text of the verifier's form parses, and its parts decode to what was read |
| Scram.AcceptsIff | internal/auth/scram_server.go:93-151 | the server accepts with a key if and only if the message proves possession of that key for this conversation |
| ScramText.LastProof | internal/auth/scram_server.go:125-125 | the last occurrence of the proof's opening, or -1 when there is none |
| Scram.PanicsIff | internal/auth/scram_server.go:93-151 | the server panics if and only if the message opens with its proof, has none after a comma, and otherwise fits the conversation |
| Scram.ProofFirstPanics | internal/auth/scram_server.go:93-151 | for every conversation and proof, the attributes with the proof first are such a message |
| Scram.ClientAcceptsIff | internal/auth/scram_client.go:121-143 | the client accepts a signature if and only if it is that of its own conversation |
| Scram.AnswersIff | internal/auth/scram_client.go:58-117 | the client answers if and only if the server's nonce extends its own |
| ScramConv.ScramClientConv.Initial | internal/auth/scram_client.go:45-54 | the first message and the fields kept for later |
| ScramConv.ScramClientConv.Step1 | internal/auth/scram_client.go:58-117 | the answer and the kept fields, on every error path too |
| ScramConv.ScramClientConv.Step2 | internal/auth/scram_client.go:121-143 | accepts exactly the specified server signature |
| ScramConv.ScramServerConv.Step1 | internal/auth/scram_server.go:46-89 | the server's first message and the kept fields |
| ScramConv.ScramServerConv.Step2 | internal/auth/scram_server.go:93-151 | accepts, rejects or panics as specified |
| ScramConv.Login | internal/auth/scram_client.go:45-143 | a whole login between the two objects succeeds exactly when the username parses |
| ScramConv.LawsHoldSomewhere | internal/auth/scram.go:126-135 | functions that obey the assumed laws exist |
| SqlNoise.StripLeadingNoise | internal/client/statement_mode.go:50-84 | the nested loops compute the specified remainder |
| SqlNoise.NoiseDropped | internal/client/statement_mode.go:50-84 | any white space, line comments and well-nested block comments in front are dropped |
| SqlNoise.OnlyNoiseDropped | internal/client/statement_mode.go:50-84 | what is dropped before a statement is such noise, and what is left starts with none |
| SqlKeyword.FirstKeyword | internal/client/sql_classifier.go:172-326 | the table of words and the buffer give the leading identifier in upper case, with two named exceptions and a panic past the buffer |
| SqlKeyword.FirstWordIff | internal/client/sql_classifier.go:172-326 | for every word, exactly which texts it is read off: those that lead with it, up to 32 characters, and for INSERT and DEALLOCATE two more kinds |
| SqlKeyword.ContainsKeyword | internal/client/sql_classifier.go:421-437 | true if and only if the word occurs whole, although the search skips |
| SqlClassifier.ClassifyExplain | internal/client/sql_classifier.go:330-365 | terminates with the verdict on what is under the options |
| SqlClassifier.ClassifyCTE | internal/client/sql_classifier.go:369-417 | terminates with the verdict on what follows the list |
| SqlClassifier.ClassifySQL | internal/client/sql_classifier.go:126-151 | terminates with the specified verdict |
| SqlClassifier.AnalyzeSQL | internal/client/sql_classifier.go:66-122 | the one-pass analysis reaches the same verdict |
| SqlExplain.OptionsSkipped | internal/client/sql_classifier.go:330-365 | any balanced option groups without the word ANALYZE are passed over |
| SqlExplain.OnlyOptionsSkipped | internal/client/sql_classifier.go:330-365 | and nothing else is |
| SqlExplain.AnalyzeWrites | internal/client/sql_classifier.go:330-365 | the word ANALYZE, alone or in an option group, closed or not, makes an EXPLAIN a write |
| SqlExplain.OnlyAnalyzeWrites | internal/client/sql_classifier.go:330-365 | and nothing else in front of its statement does |
| SqlExplain.OnlyOptionsCrash | internal/client/sql_classifier.go:330-365 | the option loop crashes only behind such groups, on an identifier longer than the buffer |
| SqlKeyword.OverrunsIff | internal/client/sql_classifier.go:172-326 | the first keyword overruns the buffer if and only if the text leads with more identifier characters than it holds |
| SqlWith.ListPassed | internal/client/sql_classifier.go:369-417 | any list of entries (a name, AS, perhaps NOT MATERIALIZED or MATERIALIZED, a balanced body, commas between, noise anywhere) is passed over |
| SqlWith.OnlyListPassed | internal/client/sql_classifier.go:369-417 | and nothing else is |
| SqlWith.WithPassed | internal/client/sql_classifier.go:369-377 | the same with RECURSIVE in front, which a first name that starts with that word is taken for |
| SqlWith.OnlyWithPassed | internal/client/sql_classifier.go:369-377 | and nothing else is |
| SqlVerdicts.NoiseInvariant | internal/client/sql_classifier.go:126-129 | leading noise never changes the verdict |
| SqlVerdicts.BlankInvariant | internal/client/statement_mode.go:50-84 | so neither does a blank, a tab, a line feed or a carriage return |
| SqlKeyword.LeadsIff | internal/client/sql_classifier.go:172-326 | the first keyword is a known word if and only if the text leads with it in any case and it ends there |
| SqlVerdicts.LayerVerdict | internal/client/sql_classifier.go:330-417 | a text that the grammar reads as an EXPLAIN or WITH layer over a statement has that statement's verdict |
| SqlVerdicts.ReadHasChain | internal/client/sql_classifier.go:126-151 | a read verdict is given only to noise, then layers that the grammars describe, then SELECT, VALUES, TABLE or SHOW |
| SqlVerdicts.ChainIsRead | internal/client/sql_classifier.go:126-151 | and to every such text |
| SqlVerdicts.WriteHasChain | internal/client/sql_classifier.go:126-151 | a write verdict is given only to noise, then layers, then another word that fits the buffer or an EXPLAIN with ANALYZE |
| SqlVerdicts.ChainIsWrite | internal/client/sql_classifier.go:126-151 | and to every such text |
| SqlVerdicts.UnknownHasChain | internal/client/sql_classifier.go:126-151 | no verdict is given only to noise, or to noise, then layers, then no word, an EXPLAIN of nothing or a WITH that is no list over a statement |
| SqlVerdicts.ChainIsUnknown | internal/client/sql_classifier.go:126-151 | and to every such text |
| SqlVerdicts.VerdictHasChain | internal/client/sql_classifier.go:126-151 | every text that gets past its noise is such a chain, ended as its verdict says |
| SqlVerdicts.ChainHasVerdict | internal/client/sql_classifier.go:126-151 | and every chain has the verdict its end says, so the text fixes all four |
| SqlVerdicts.CrashHasChain | internal/client/sql_classifier.go:126-151 | the classifier crashes only on noise, then layers that the grammars describe, then an identifier longer than its buffer |
| SqlVerdicts.ChainCrashes | internal/client/sql_classifier.go:126-151 | and on every such text |
| SqlVerdicts.LongNameCrashes | internal/client/sql_classifier.go:172-326 | thirty-three letters are one; thirty-two are a write |
| SqlVerdicts.BodyIgnored | internal/client/sql_classifier.go:369-417 | in any WITH, over any statement, any entry's body may be replaced by any other without changing the verdict |
| SqlVerdicts.WritingBodyReads | internal/client/sql_classifier.go:369-417 | so a statement whose WITH deletes is routed as the SELECT after it |
| Replicas.CandsExact | internal/replica/manager.go:256-281 | the candidates are exactly the eligible replicas, ascending |
| Replicas.RingCounts | internal/replica/manager.go:256-281 | the ring holds each candidate as often as its normalised weight |
| Replicas.SameEligible | internal/replica/lag.go:89-98 | an event that changes nobody's eligibility changes no candidate |
| Replicas.Manager.constructor | internal/replica/manager.go:92-114 | the first snapshot is fresh |
| Replicas.Manager.RebuildSnapshot | internal/replica/manager.go:256-281 | the two loops build the fresh snapshot |
| Replicas.Manager.Start | internal/replica/manager.go:126-137 | all healthy, snapshot fresh |
| Replicas.Manager.Probe | internal/replica/manager.go:161-193 | after any probe the cached snapshot is the fresh one |
| Replicas.Manager.LagProbe | internal/replica/lag.go:71-98 | the same, although only a threshold crossing rebuilds |
| Replicas.Manager.SetMaxLag | internal/replica/manager.go:84-87 | the same |
| Replicas.Manager.Pick | internal/replica/manager.go:225-232 | the choice at the counter, and the counter one on |
| Replicas.WindowIsFair | internal/replica/manager.go:225-232 | any window as long as the ring picks each replica that is healthy and within the lag limit, if there is one, as often as its weight and at least once, and any other never |
| Replicas.NoneToPickIff | internal/replica/manager.go:225-232 | there is no replica to pick if and only if none is healthy and within the limit |
| Replicas.WindowFairIff | internal/replica/manager.go:225-232 | a window of the code's own picks as long as the ring panics nowhere and picks each replica as often as the ring holds it if and only if the counter stays below the sign bit, or meets it with the last pick at a multiple of the ring, or the ring has one slot |
| Replicas.HalfwayPanics | internal/replica/manager.go:225-232 | with two slots or more, two successive picks above the sign bit cannot both succeed |
| TokenBucket.TokenBucket.TakeN | internal/util/ratelimit.go:44-59 | the new balance and the verdict are the specified ones; a refusal leaves what would be granted at that moment as it was |
| TokenBucket.TokenBucket.Available | internal/util/ratelimit.go:62-72 | a TakeN at this moment grants exactly the amounts up to the reported balance |
| TokenBucket.Conserved | internal/util/ratelimit.go:44-59 | over any run the balance stays within bounds and nothing is granted that was not there or accrued |
| TokenBucket.WindowBound | internal/util/ratelimit.go:44-59 | in every window of every run at most capacity plus rate times length is granted |
| TokenBucket.RateAccrues | internal/util/ratelimit.go:44-59 | a constant rate is a credit of the kind the bounds speak about |
| TokenBucket.ServedIff | internal/util/ratelimit.go:44-59 | from a full bucket, refusals included, a request is served if and only if no window that ends with it leaves less: capacity plus what accrues, less what was served in the window |

## Left out

- Sockets, TLS, pgproto3 internals, reflection on the chunk reader's layout, deadlines and timers: streams, oracle answers and nondeterministic steps stand in for them.
- PostgreSQL itself, beyond named and unnamed statements, settings and replies to each message; portals are not followed, and named statements are compared by SQL text, not by parameter types.
- Mid-batch errors and their recovery, extended-protocol COPY, query-timeout recovery in the two simulations, and the order (as opposed to the multiset) of synthesised replies.
- SQL-level DEALLOCATE and DISCARD of statements, and a custom reset query that keeps statements: the source says the latter desynchronises the cache.
- Text matching of SET, RESET and DISCARD: commands arrive parsed, with names in lower case.
- Settings that end with the transaction although they are on the replay list (transaction_isolation and its kin), and SETs that fail.
- PreparedTheorems.BatchesConserved: an unnamed statement is covered within the checkout that parsed it only, because the source forwards unnamed statements unchanged to whichever backend is attached.
- PreparedTheorems.CacheIsServer: covers runs in which a checkout given back in the middle of a batch is reset or discarded; PreparedLeaks covers the other runs.
- PoolBounds.SizeBound: assumes that an acquire's poll, load and swap are not interleaved with other calls, which the source does not ensure; ExceedsIff covers every interleaving. No bound is stated across a Resize.
- PermitsDrain.DrainsIff: does not ask calls to end that are at a semaphore or have no pool to enter; StalledIff and BlockedBehindParked speak of those.
- PoolBounds.ReserveBound: assumes in addition that a push or a dequeue is not interleaved with the look before it and that a taken waiter takes its hand-off; the source ensures neither.
- Splice.DrainSplice: on a negative length, a failed read or a failed write it states that a prefix was written, not how long it is.
- VirtualSession.SameSettings: takes a replay as the list of its assignments; GucCache.ReplayExecutes says exactly when the text has that effect.
- ServeLoop.Session.Serve: pools are non-nil; what pools, classifier and server answer, and whether a timeout struck, is given with each event.
- Cryptographic strength, and the timing of the comparisons.
- Non-ASCII text in the classifier: upper-casing and trimming are per ASCII character.
- The data race on the idle channel between Resize, eviction or Close and concurrent calls: each takes the idle channel's contents in one step of the pool's transition system.
- The moment between closing a backend and giving its slot back, whichever the source does first: both are one step, and a backend is live until then.
- EnsureWarm, waking waiters on Discard, dial failure or growth (the source does not), SplitName, mergeConfig and ApplyDefaultSize.
- PutbackReader, which only tests use; serveRaw and the raw connection's slow path; RedactSQL.
- Concurrent rebuilds of the replica snapshot: each event is one step.
- Floating-point rounding in the token bucket: the model uses real numbers.
- Configuration, HBA rules, user lists, PROXY parsing, metrics, tracing, audit, the admin console, cancel forwarding and process handling, which would only add easy members.
