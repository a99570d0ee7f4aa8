# Cage: verified models of the sandbox server

Cage gives out short-lived sandboxes, as Docker containers or Firecracker machines, and keeps
their rows in Postgres and its locks, rate limits and caches in Redis. This project models the
state machines and algorithms Cage writes itself and proves what they guarantee.

| file | what it models |
|---|---|
| `RateLimit.dfy` | the token bucket script, with real numbers |
| `Network.dfy` | the guest address allocator and tap names, byte arithmetic included |
| `Ownership.dfy` | the Firecracker manager as interleaved lock-protected steps: who owns which address |
| `Firecracker.dfy` | the same manager one call at a time: files, table, pause and resume |
| `Fleet.dfy` | whole runs of these calls on many machines: whose files a call can reach |
| `Pool.dfy` | the warm pool: one maintainer, any number of takers, two bounded channels |
| `Lock.dfy` | the Redis lease, any number of replicas, lost replies |
| `Lifecycle.dfy` | rows, backend and time: handlers, reaper and reconciler, interleaved at every call |
| `Adapter.dfy` | the Docker adapter's renaming of sandbox IDs to container IDs |
| `AuthCache.dfy` | the API-key check behind a cache, any number of lookups under way |
| `Frames.dfy` | the shell's frame codec, the handshake and the loops around it, the Docker demultiplexer |
| `Bytes.dfy`, `Options.dfy` | bytes and big-endian numbers; the optional value |

## How to read it

Every concurrent part is a transition system. A step is one lock-protected section, one channel
operation or one call to an outside service; whether an outside call works is part of the event.
So `Apply` is a function of the state and the event, a run is a sequence of events, and a theorem
over runs covers every interleaving and every pattern of failures. Each such module ends with the
classes of the source, one method per call. Their contracts are stated with the functions the
theorems are about, and in `Pool`, `Lifecycle` and `AuthCache` they also say that a call on its own
is a run of the steps (`Reaches`, `Path`). `Ownership` has no class of its own: it follows the
addresses through the calls whose files and table entries are in `Firecracker`.

External calls, clocks, UUIDs and the outcome of shell commands are parameters. A parameter such
as `cleaned`, `stuck` or `storeOk` says which outside call works.

## What turned out not to hold

The code is modelled as written. Where a plain statement is false, there is a lemma with a run
that shows it, or the exact condition under which it holds.

- The wall-clock window bound of the rate limiter fails for every configuration that accepts and
  refills when the clock goes back: `last_refill` follows `now` backward, so each swing forward
  refills the bucket again (`RateLimit.SwingOverruns`, `RateLimit.WindowBoundIff`). It holds of every
  stretch without a step back (`RateLimit.StretchBound`), and the bound over the sum of upward steps
  always holds (`RateLimit.TotalBound`).
- Guest addresses are distinct exactly while at most 256 are outstanding, and at 254, 255 and 256
  the broadcast, the base and the gateway address are handed out (`Network.AddressesDistinctIff`,
  `Network.ReservedAddresses`): offsets are cut to a byte and nothing checks the counter.
- An address is lost for good when a process or socket failure ends a creation, when a machine
  crashes, and at every pause; a resumed machine no longer knows its address. The model keeps
  these in `abandoned` (`Ownership.LosesAddressIff`), and while at most 256 addresses are outstanding exactly these can never be
  given out again (`Ownership.GivenAgainIff`). So a paused guest's address can be given to somebody else exactly
  when the pause, about to drop the entry, no longer finds the machine it paused, which it does not
  check (`Ownership.PauseSetsAsideIff`); `Ownership.PauseKillRace` is such a run.
- The death of a machine removes its entry only while it is watched under the ID it has. An adopted
  or resumed machine is not, and stays in the table when it dies (`Ownership.DeathUntracksIff`,
  `Ownership.AdoptedOrResumedIsUnwatched`).
- A pause whose snapshot fails reports success exactly when removing the directory fails too
  (`Firecracker.PauseSucceedsIff`).
- After a successful resume the API removes the pause, and with it the rootfs file the machine
  runs on; its next pause can never be resumed, in any later run (`Firecracker.SecondResumeFails`,
  `Fleet.RemovedPauseIsFinal`). As the reference is the same at every pause, that clean-up may also
  delete the next pause: exactly if it is still to come when the next pause returns
  (`Lifecycle.PauseIsSafeIff`, `Lifecycle.ReusedReferenceLosesImage`).
- Killing an adopted Firecracker machine leaves its rootfs file, which is filed under the
  placeholder (`Firecracker.KillRemovesRootfsIff`). A Docker sandbox made from the pool does not
  run at all, because the placeholder is registered as a container ID
  (`Adapter.PoolAdoptionNeverRuns`).
- A Docker kill that fails cannot be repeated: the name is gone before the container
  (`Adapter.FailedKillLeaksContainer`). The reaper's comment promises a retry.
  A container whose start fails stays as well (`Adapter.FailedStartLeaksContainer`).
- A lost reply to `TryAcquire` locks everybody out for one lease (`Lock.LostReplyLocksOut`).
- Dead entries in the pool are dropped without a signal, so the maintainer can sleep over a short
  channel until its ticker fires: exactly when entries were lost, and short by their number
  (`Pool.NoLostWakeUp`, `Pool.DeadEntriesSleep`).
- `Renew` hands microseconds to a command that takes milliseconds, so one renewal blocks the other
  replicas for a thousand leases (`Lock.LockoutLength`). The token is unique per lock object, not
  per acquisition as its comment says; the theorems hold nevertheless.
- A resume that slips in after the reaper has listed the expired rows is undone, and its sandbox
  runs on without a row (`Lifecycle.ResumeDuringReap`). Reading each row again would be enough
  (`Lifecycle.GuardedLaws`); a reap step is early exactly when the row, read again, is not expired,
  and orphans a sandbox exactly when a row listed as paused runs (`Lifecycle.ReapIsEarlyIff`,
  `Lifecycle.ReapOrphansIff`).
- The reconciler also works on a stale list: it deletes the row of a sandbox that was paused after
  the listing (`Lifecycle.ReconcileForgetsIff`, `Lifecycle.PauseDuringReconcile`).
- A shell stream cut right behind a frame header reads like one that ended cleanly
  (`Frames.ReadPrefix`).

## Model

| member | source | states |
|---|---|---|
| RateLimit.WindowLaw | internal/ratelimit/ratelimit.go:25-41 | on any trace of times the level before a call is the least, over all windows ending at it, of capacity + rate * (the clock's upward movement in the window) - accepted in the window; the call is accepted exactly when every window has room for it |
| RateLimit.EmptyBucketRefills | internal/ratelimit/ratelimit.go:34-41 | an empty bucket holds min(capacity, rate * t) tokens t seconds later, so with n at most the capacity it holds n exactly from n / rate seconds on |
| RateLimit.BucketEqualsLog | internal/ratelimit/ratelimit.go:25-43 | on monotone times the two stored numbers decide every call as the limiter that remembers the time of every accepted call and checks every real window |
| RateLimit.BucketIsGreedy | internal/ratelimit/ratelimit.go:37-41 | accepted calls keep every window within its envelope, and a denied call would have overflowed one |
| RateLimit.BucketIsOptimal | internal/ratelimit/ratelimit.go:34-41 | no other way of deciding the same calls that respects the envelope has accepted more at any prefix |
| RateLimit.TotalBound | internal/ratelimit/ratelimit.go:34-43 | also when times go back, the calls accepted in a stretch stay within capacity + rate * (sum of its upward time steps) |
| RateLimit.StretchBound | internal/ratelimit/ratelimit.go:34-43 | for every configuration the wall-clock bound holds of every stretch of calls in which the clock does not go back, whatever came before |
| RateLimit.WindowBoundIff | internal/ratelimit/ratelimit.go:34-43 | a configuration keeps the wall-clock bound in every window, from a call to one no earlier by the clock, on every trace exactly if its rate is 0 (or its capacity below 1) |
| RateLimit.SwingOverruns | internal/ratelimit/ratelimit.go:34-43 | every configuration that accepts and refills, 20 and 5 included, is overrun by a clock that swings back and forth: more than its capacity is accepted in a window of no width |
| RateLimit.DeniedCallsAreFree | internal/ratelimit/ratelimit.go:37-43 | deleting any set of denied calls from a monotone trace changes the level of no other call |
| RateLimit.ExpiryInvisible | internal/ratelimit/ratelimit.go:29-44 | a key that lapses only after gaps long enough to refill the bucket gives the same level at every call, with separate clocks for caller and Redis |
| RateLimit.ExpiryUnobservableIff | internal/ratelimit/ratelimit.go:29-44 | the 3600-second expiry can never be observed on monotone traces exactly when capacity <= 3600 * rate (or capacity < 1); otherwise there is a trace that shows it |
| RateLimit.Limiter.Allow | internal/ratelimit/ratelimit.go:60-84 | per key, the answer is the level of the expiring bucket over all calls made with the key so far; other keys and failed calls change nothing |
| Network.OffsetRoundTrip | internal/firecracker/network.go:188-199 | ipOffset undoes offsetIP exactly for offsets below 256; in general only the low byte comes back |
| Network.AllocateThenRelease | internal/firecracker/network.go:157-176 | releasing what was just allocated makes its low byte the next offset to be used |
| Network.HighWaterMark | internal/firecracker/network.go:157-176 | over any run of legal calls nextIP - 2, up to the wrap at 32 bits, is the largest number ever outstanding at once; outstanding plus released are that many and cover every low byte handed out, without overlap up to 256 |
| Network.AddressesHandedOut | internal/firecracker/network.go:157-193 | exactly which addresses a run hands out, as a function of that largest number |
| Network.ReservedAddresses | internal/firecracker/network.go:51 | the base, the address after it and the broadcast address are handed out exactly from 255, 256 and 254 outstanding on |
| Network.AddressesInNetwork | internal/firecracker/network.go:51 | over every run the addresses handed out share the leading octets of the bridge address that its class keeps, the others up to the last being 0 |
| Network.AddressesDistinctIff | internal/firecracker/network.go:157-193 | outstanding addresses stay pairwise distinct throughout a run exactly when at most 256 are ever outstanding |
| Network.TapNamesCollide | internal/firecracker/network.go:178-186 | a tap name is cg- and the first ten characters of the ID, so two sandboxes share one exactly when these agree |
| Network.NetworkManager.AllocateIP | internal/firecracker/network.go:157-169 | the object takes the last released offset, else the counter, and nothing else changes |
| Network.NetworkManager.ReleaseIP | internal/firecracker/network.go:171-176 | the object appends the offset of the address |
| Network.NetworkManager.AllocateTap | internal/firecracker/network.go:118-139 | an address is taken only when all three commands work; a device made by a failed call is deleted again |
| Network.NetworkManager.ReleaseTap | internal/firecracker/network.go:142-155 | device and address go back |
| Ownership.OwnedKept | internal/firecracker/manager.go:156-319 | every step of create, rollback, kill, pause, resume, adopt and process exit keeps: each allocation is with exactly one of a table entry, an operation under way, the free list, the abandoned ones |
| Ownership.AddressesNeverShared | internal/firecracker/manager.go:156-319 | over all interleavings no allocation is released twice, and while at most 256 are outstanding no two machines or operations share an address and none of their addresses is on the free list |
| Ownership.OrderedKept | internal/firecracker/manager.go:393-588 | with the operations on one ID serialised, each operation finds its ID as it left it: a creation its file and no entry, a pause the machine it looked up, or its lease abandoned |
| Ownership.GivenAgainIff | internal/firecracker/network.go:157-176 | the exact law behind it: from any reachable state with at most 256 outstanding, some run within that bound gives an address out again exactly when its allocation has not been abandoned - not lost by a boot failure, crash, pause, or overwritten entry |
| Ownership.PauseSetsAsideIff | internal/firecracker/manager.go:440-454 | in every reachable state with at most 256 addresses outstanding: once a pause has dropped its entry, the address of the guest it suspended can be given to somebody else exactly when the pause did not find the machine it had paused |
| Ownership.SuspendedAddressNeverReissued | internal/firecracker/manager.go:440-524 | over any run in which this guest's own pauses find its machine, whatever else interleaves, also pauses of others that miss theirs: the address of the paused or resumed guest is out of reach and never given to anyone again |
| Ownership.SerialSuspendedNeverReissued | internal/firecracker/manager.go:393-588 | the same over runs with the operations on one ID serialised, in which every pause finds its machine |
| Ownership.PauseKillRace | internal/firecracker/manager.go:291-319 | without serialisation a run gives the address of a paused guest to a new sandbox |
| Ownership.DeathUntracksIff | internal/firecracker/manager.go:269-289 | in every reachable state the death of a machine removes its entry exactly when it is watched under the ID it has; if not, this never changes in any later run |
| Ownership.AdoptedOrResumedIsUnwatched | internal/firecracker/manager.go:512-588 | a resumed machine, and one adopted under a new ID, is not: when it dies it stays in the table |
| Ownership.CreatedIsWatched | internal/firecracker/manager.go:247-259 | a machine is tracked with its own process and address and watched from its creation on |
| Ownership.WatchingEndsWithProcess | internal/firecracker/manager.go:259-289 | watching begins with the end of a creation and ends with that process, and no other step begins or ends it |
| Ownership.LosesAddressIff | internal/firecracker/manager.go:180-194 | from every reachable state with at most 256 outstanding, exactly the steps after which an address in use can never be given out again: a process or socket failure of the creation that took it, the crash or pause of its machine, and overwriting its entry |
| Ownership.FileGoesOnlyByCleanup | internal/firecracker/manager.go:291-319 | a rootfs copy comes only with a creation and goes only with the clean-up of a failed creation or a kill under the same ID |
| Ownership.CreateThenKill | internal/firecracker/manager.go:156-319 | left alone, a creation with or without networking is a run of the steps that adds one machine with the address it took, and its kill puts table, files, operations and outstanding allocations back |
| Ownership.FailedCreateLeavesNothing | internal/firecracker/manager.go:196-261 | a creation that fails from the API stage on leaves neither entry nor file, and gives back exactly the allocation it took itself, whatever runs on other IDs in between |
| Ownership.FailedCreateRestores | internal/firecracker/manager.go:196-261 | left alone, it puts back table, files, operations and the set of outstanding allocations as they were before the call |
| Ownership.OwnStepsTouchNothingElse | internal/firecracker/manager.go:156-244 | no step of a creation before its entry touches the table, another ID's file, another operation or an earlier allocation, save the one its rollback gives back |
| Firecracker.FailedPauseKeepsMachine | internal/firecracker/manager.go:393-438 | a failed pause leaves the machine tracked with its rootfs, and no pause directory if removing it works - else one that still has the manifest it had; when the guest was already stopped it stays stopped |
| Firecracker.PauseSucceedsIff | internal/firecracker/manager.go:393-455 | exactly when a pause reports success and what is then on disk - also that the error of a failed snapshot is lost exactly when the clean-up fails too, and that then there is no new snapshot |
| Firecracker.PauseResumeRoundTrip | internal/firecracker/manager.go:393-524 | whatever happens to everything else in between, resume works exactly when its outside calls do and restores rootfs path, disk content and memory, from any table, also an empty one |
| Firecracker.PauseIsResumableIff | internal/firecracker/manager.go:470-472 | a pause taken now can be resumed exactly when the rootfs file exists now |
| Firecracker.SecondResumeFails | internal/firecracker/manager.go:530-545 | pause, resume, removal of the pause, pause: succeeds, and can never be resumed |
| Firecracker.KillRemovesRootfsIff | internal/firecracker/manager.go:291-319 | a successful kill has removed the rootfs file exactly when the machine has the ID it was created under; after an adoption it stays, and the placeholder is gone |
| Firecracker.AdoptionKeepsMachine | internal/firecracker/manager.go:575-588 | the adopted machine has the memory, rootfs path, address and halted state of the placeholder, field by field, and nothing else in table, files and pauses changes |
| Firecracker.WarmAdoptKill | internal/firecracker/manager.go:291-319 | over the methods: creating a placeholder, adopting it and killing it gives back exactly the address the creation took |
| Firecracker.FirecrackerManager.CreateSandbox | internal/firecracker/manager.go:156-262 | for each stage at which creation can stop: table, files and addresses afterwards, address kept on process or socket failure, all undone from the API stage on |
| Firecracker.FirecrackerManager.Rollback | internal/firecracker/manager.go:198-207 | file and address go back |
| Firecracker.FirecrackerManager.KillSandbox | internal/firecracker/manager.go:291-319 | the method is the function the kill theorems are about, and releases the entry's address |
| Firecracker.FirecrackerManager.PauseSandbox | internal/firecracker/manager.go:393-455 | the method is the function the pause theorems are about, directory by directory |
| Firecracker.FirecrackerManager.ResumeSandbox | internal/firecracker/manager.go:460-524 | the method is the function the resume theorems are about |
| Firecracker.FirecrackerManager.RemovePause | internal/firecracker/manager.go:530-545 | the method is the function the removal theorems are about |
| Firecracker.FirecrackerManager.AdoptWarmResource | internal/firecracker/manager.go:575-588 | the method is the function the adoption theorems are about |
| Fleet.SeparateKept | internal/firecracker/manager.go:156-588 | every call, at whatever stage it fails, keeps every rootfs file with one owner: the machine that has it open and the pause that names it belong to the same sandbox |
| Fleet.OthersUntouched | internal/firecracker/manager.go:291-588 | no call changes another sandbox's machine, pause directory or rootfs file |
| Fleet.GuestsAreIsolated | internal/firecracker/manager.go:291-588 | so a guest's path, disk and memory survive any run of other sandboxes' calls |
| Fleet.EndsLeaveFiles | internal/firecracker/manager.go:269-289 | a process exit ends its own machine, a restart all; pauses and files stay |
| Fleet.FailedCreationIsFinal | internal/firecracker/manager.go:156-244 | a failed creation touches no other machine, pause or file; what its rollback could not remove stays for good, and its ID never gets a machine or a pause, whatever is called later |
| Fleet.PauseSurvives | internal/firecracker/manager.go:393-524 | from any reachable state: after a pause anything may happen - other sandboxes' calls, kills of this one, crashes, restarts - short of resuming or removing it, and resume works exactly when its outside calls do and restores path, disk and memory |
| Fleet.CyclesAreTransparent | internal/firecracker/manager.go:393-524 | over any run of legal calls - pauses and resumes of this sandbox failing at any stage and repeated, restarts while it is paused, other sandboxes' calls - the guest is where its own work alone has brought it, running or on disk |
| Fleet.CyclesFromAnywhere | internal/firecracker/manager.go:393-524 | the same from any reachable state: the machine, or what a resume makes of its pause, has exactly that state |
| Fleet.RemovedPauseIsFinal | internal/firecracker/manager.go:530-545 | once the pause of a resumed machine has been removed, no pause naming its rootfs file can be resumed in any later run |
| Pool.PlaceholdersConserved | internal/pool/pool.go:41-138 | in every reachable state each placeholder is in exactly one place, none is handed out twice, and the kill-excess branch is never taken |
| Pool.NoLostWakeUp | internal/pool/pool.go:57-146 | whenever the maintainer waits with no signal pending and no Take about to send one, the channel is short by exactly the entries lost: those received since the last completed top-up that were dead, and initial creations that failed before it; so it sleeps over a short channel exactly when there is one |
| Pool.DeadEntrySleeps | internal/pool/pool.go:125-135 | such a state is reachable: an empty channel, an idle maintainer and no signal |
| Pool.DeadEntriesSleep | internal/pool/pool.go:125-135 | from every idle state without a pending signal, a Take that finds only dead entries leads to it |
| Pool.TopUpWork | internal/pool/pool.go:82-108 | a top-up that starts at length L and overlaps k receives has made exactly Size - L + k successful creations when its final test ends it |
| Pool.TopUpTerminates | internal/pool/pool.go:82-88 | while creations succeed, a top-up takes at most three steps for each missing entry and each receive, and one more |
| Pool.TakenMeans | internal/pool/pool.go:125-138 | a Take returns the first entry that runs, drops exactly the dead ones before it, and signals only with a hit |
| Pool.TakeSteps | internal/pool/pool.go:115-138 | an undisturbed Take is a run of the interleaved steps |
| Pool.TopUpSteps | internal/pool/pool.go:82-88 | an undisturbed top-up with new placeholders, from any state, is a run of the interleaved steps that ends with the missing ones appended |
| Pool.StopIsFinal | internal/pool/pool.go:70-79 | the maintainer stops where it waits, whatever is signalled; nothing is created after that, and the channel only loses entries from its head |
| Pool.WarmPool.Take | internal/pool/pool.go:115-138 | an unknown template is a miss; else the Take of that template alone |
| Pool.Template.Take | internal/pool/pool.go:122-138 | the loop computes the Take of the rows above, keeps every law, and is a run of the steps |
| Pool.Template.Fill | internal/pool/pool.go:58-63 | the initial fill appends the placeholders whose creation worked, keeps every law, and is a run of the steps |
| Pool.Template.Wake | internal/pool/pool.go:70-78 | a signal is taken, or the ticker fires, and a top-up begins |
| Pool.Template.TriggerRefill | internal/pool/pool.go:140-146 | a signal is added unless the channel is full |
| Pool.Template.SpawnOne | internal/pool/pool.go:91-108 | a created placeholder is appended, or killed exactly when the channel is full |
| Pool.Template.TopUp | internal/pool/pool.go:82-88 | an undisturbed top-up appends exactly the missing number of new placeholders, in order, keeps every law above, and is a run of the steps |
| Lock.MutualExclusion | internal/lock/lock.go:51-78 | two replicas inside at once: one has outlived its lease, also when replies are lost |
| Lock.OthersCannotDisturb | internal/lock/lock.go:15-30 | no acquire, stale renew or stale release of another replica changes the key or ends the lead of its holder |
| Lock.RenewNeverShortens | internal/lock/lock.go:61-68 | renewing never brings the expiry forward |
| Lock.SilentHolderBlocks | internal/lock/lock.go:51-57 | the key of a silent holder stays as it is until its expiry, whatever the others call |
| Lock.LockoutLength | internal/lock/lock.go:61-68 | after an acquire a silent holder blocks everybody for one lease, after a renewal for a thousand, and not longer |
| Lock.ReleaseHandsOver | internal/lock/lock.go:15-21 | in every reachable state the release of a running lease by its token frees the key at once, and any other replica outside acquires it at that instant for a whole lease; a release by anybody else, or a lost one, leaves the key |
| Lock.LostReplyLocksOut | internal/lock/lock.go:51-68 | an acquisition whose reply is lost leaves nobody inside and refuses everybody, its caller included, for one lease |
| Lock.DistributedLock.TryAcquire | internal/lock/lock.go:51-57 | sets the key, for one lease, exactly when no lease is running |
| Lock.DistributedLock.Renew | internal/lock/lock.go:61-68 | extends exactly its own running lease, by a thousand of them |
| Lock.DistributedLock.Release | internal/lock/lock.go:72-78 | deletes exactly its own running lease |
| Lifecycle.PausedIffReference | internal/api/handlers.go:361-419 | under every interleaving, any call failing, a row is paused exactly when it has a pause reference, so both branches for a missing one are unreachable |
| Lifecycle.GuardedLaws | internal/reaper/reaper.go:53-113 | with requests and the work of reaps and reconciles on single rows serialised per sandbox, store calls succeeding, and each row reaped still as listed or gone: everything the backend runs has a row, or the handler that made it run is about to save it, and no row is reaped before its TTL from the last create, pause or resume has passed; work on different sandboxes interleaves freely, also between the rows of any number of reaps and reconciles |
| Lifecycle.ReapIsEarlyIff | internal/reaper/reaper.go:60-67 | exactly when a reap step comes early, with or without that guard: when the row, read again, is not expired |
| Lifecycle.ReapOrphansIff | internal/reaper/reaper.go:88-113 | exactly when it leaves a running sandbox without a row or pending save: when the row was listed as paused and the sandbox runs, so that the row has changed |
| Lifecycle.ReconcileForgetsIff | internal/reconcile/reconcile.go:33-48 | a reconcile step, which works on a stale list, deletes the row of a paused sandbox exactly when the row was listed as running and has been paused since; the image stays |
| Lifecycle.PauseDuringReconcile | internal/reconcile/reconcile.go:28-48 | a run in which that happens |
| Lifecycle.RunsAfterIff | internal/api/handlers.go:163-187 | exactly when the backend runs a sandbox after a step: created or resumed by it, or running before and not crashed, killed, paused, reaped, or lost in a call that fails |
| Lifecycle.UnrecordedEndIsReconciled | internal/reconcile/reconcile.go:28-48 | a crash, or a failing kill, pause or reap that takes the sandbox all the same, changes no row; a reconcile that checks the sandbox then deletes just its row |
| Lifecycle.EveryLiveSandboxHasRow | internal/api/handlers.go:110-121 | with whole reaps and reconciles atomic no guard is needed: everything the backend runs has a row, or the handler that made it run is about to save it |
| Lifecycle.NoEarlyReap | internal/reaper/reaper.go:53-113 | under the same assumptions the row reaped is current and its TTL, from the last create, pause or resume, has passed |
| Lifecycle.ResumeDuringReap | internal/reaper/reaper.go:60-67 | without atomic reaps a resume that slips in is undone: a running sandbox, far from its TTL, loses its row |
| Lifecycle.SafeIff | internal/api/handlers.go:421-429 | an image survives whatever the background does exactly when no clean-up is still to remove it |
| Lifecycle.PauseIsSafeIff | internal/api/handlers.go:355-368 | a pause saves a row whose image is safe in that sense exactly when no clean-up of the reference it gets is left over |
| Lifecycle.PausedRowsKeepTheirImage | internal/api/handlers.go:361-368 | over such runs, if no pause gets a reference, old or new, that a left-over clean-up is still to remove or another row or pending save has, and no reap of a row that is gone removes an image they refer to: every paused row's image exists, is its own, and survives whatever the background does |
| Lifecycle.ReusedReferenceLosesImage | internal/api/handlers.go:421-429 | if the backend returns a reference again, a clean-up left from the last resume deletes the new pause, with every request atomic |
| Lifecycle.PauseSteps | internal/api/handlers.go:355-368 | an undisturbed pause, whichever call fails, is a run of the interleaved steps with the rows, sandboxes and images its handler leaves |
| Lifecycle.ResumeSteps | internal/api/handlers.go:405-419 | the same of a resume |
| Lifecycle.CreateSteps | internal/api/handlers.go:103-121 | the same of a creation |
| Lifecycle.DeleteSteps | internal/api/handlers.go:163-187 | the same of a deletion |
| Lifecycle.RoundsSteps | internal/reaper/reaper.go:60-67 | the same of the reaper's loop over the rows it has listed |
| Lifecycle.ReapEffect | internal/reaper/reaper.go:53-113 | what a reap leaves, for any set of failing removals: exactly the expired rows whose resources are gone and whose deletion works disappear, each with its sandbox or image |
| Lifecycle.ReconcileEffect | internal/reconcile/reconcile.go:28-48 | exactly the running rows found not running are deleted, and it is a run of the steps |
| Lifecycle.Server.CreateSandbox | internal/api/handlers.go:103-121 | status code, row and backend after each outcome |
| Lifecycle.Server.DeleteSandbox | internal/api/handlers.go:163-187 | status code and state for each outcome: the row goes only after a kill that worked |
| Lifecycle.Server.PauseSandbox | internal/api/handlers.go:330-374 | status code for every branch; row, backend and images after each |
| Lifecycle.Server.ResumeSandbox | internal/api/handlers.go:376-435 | status code for every branch; row and backend after each; a clean-up is started only with success |
| Lifecycle.Server.ListExpired | internal/store/util.go:8-28 | exactly the expired rows, once each, as they are in the table |
| Lifecycle.Server.Reap | internal/reaper/reaper.go:53-68 | the loop leaves what ReapEffect says, and is a run of the steps |
| Lifecycle.Server.ReapRunning | internal/reaper/reaper.go:70-81 | a row goes only after a kill that worked |
| Lifecycle.Server.ReapPaused | internal/reaper/reaper.go:88-113 | a row goes only after its image, or when it has none |
| Lifecycle.Server.Reconcile | internal/reconcile/reconcile.go:33-48 | the loop leaves what ReconcileEffect says, and is a run of the steps |
| Adapter.RenamingInvisible | internal/sandbox/adapter.go:54-136 | each call, at each stage at which Docker can fail, does to the sandboxes and answers what a backend that keys them by their own IDs would; all others stay as they are |
| Adapter.RenamingInvisibleAlways | internal/sandbox/adapter.go:54-136 | the same over every run without adoptions |
| Adapter.AdoptKeepsSoundIff | internal/sandbox/adapter.go:150-155 | adoption keeps the names one-to-one onto containers exactly when the adopted ID is a container nobody else has |
| Adapter.PauseResumeRoundTrip | internal/sandbox/sandbox.go:196-230 | whatever runs between a pause and the resume of its image, short of removing it, the disk comes back |
| Adapter.OrphanStays | internal/sandbox/adapter.go:63-70 | no call ever reaches a container that has lost its name |
| Adapter.FailedKillLeaksContainer | internal/sandbox/adapter.go:63-70 | however a kill fails, at the stop or at the removal, the container stays for ever and runs on if it was not stopped, the sandbox counts as not running, and every further kill fails |
| Adapter.SuccessEndsContainer | internal/sandbox/sandbox.go:79-91 | a kill or pause that reports success has removed the container that had the name, with the name; every other container is as it was, and the removed one is in no later state that does not start it again |
| Adapter.FailedStartLeaksContainer | internal/sandbox/sandbox.go:43-77 | a container that is created but cannot be started stays, stopped and without a name |
| Adapter.ContainersElsewhere | internal/sandbox/adapter.go:54-136 | a call leaves every container alone that it neither starts nor reaches by its name |
| Adapter.AdoptedRunsIff | internal/sandbox/adapter.go:104-111 | an adopted sandbox runs exactly when the adopted string is itself the ID of a running container |
| Adapter.PoolAdoptionNeverRuns | internal/pool/pool.go:94-101 | a placeholder made by the pool never is: from any reachable state the adopted sandbox does not run and cannot be killed, paused or written to, right away and after every later run that does not create, resume or adopt its ID again, while its container runs on unless called by its placeholder or adopted itself |
| Adapter.BackendAdapter.CreateSandbox | internal/sandbox/adapter.go:54-61 | the method is the step the theorems are about |
| Adapter.BackendAdapter.KillSandbox | internal/sandbox/adapter.go:63-70 | the method is the step the theorems are about: the name goes first |
| Adapter.BackendAdapter.PauseSandbox | internal/sandbox/adapter.go:115-127 | the method is the step the theorems are about: the name goes last |
| Adapter.BackendAdapter.ResumeSandbox | internal/sandbox/adapter.go:129-136 | the method is the step the theorems are about |
| Adapter.BackendAdapter.Write | internal/sandbox/adapter.go:84-90 | the method is the step the theorems are about |
| Adapter.BackendAdapter.Running | internal/sandbox/adapter.go:104-111 | true exactly for a name that stands for a running container |
| Adapter.BackendAdapter.AdoptWarmResource | internal/sandbox/adapter.go:150-155 | the method is the step the theorems are about |
| AuthCache.BoundedStaleness | internal/api/middleware.go:13-37 | over every run each answer was the database's answer at an instant less than 5 minutes plus the read-to-write delay of its lookup ago |
| AuthCache.AgreesWithUncached | internal/api/middleware.go:13-37 | without a change of the key in that span the answer is the uncached one |
| AuthCache.ChangesTakeHold | internal/store/store.go:127-139 | once that span has passed since the last change of a key, every answer reflects it |
| AuthCache.StaleUpToTheBound | internal/api/middleware.go:11-37 | for every age below the bound a run answers valid that long after the revocation |
| AuthCache.AnswersRepeat | internal/api/middleware.go:13-37 | creating or revoking a key does not reach the cache: until its entry is evicted or written again, a key is answered as it was when written, up to the 5 minutes exactly |
| AuthCache.Gateway.ValidateWithCache | internal/api/middleware.go:13-37 | one call is a run of the steps above; its answer, and its failure exactly when cache and database are both of no help; other entries stay |
| Frames.FramesRoundTripIff | internal/firecracker/shell.go:57-86 | reading the concatenation of written frames returns them and then a clean end exactly when every payload fits 32 bits |
| Frames.ReadPrefix | internal/firecracker/shell.go:72-86 | of any prefix, exactly the frames wholly contained are read, then an end: clean at a frame boundary or right behind a header, else an error |
| Frames.ReadIsPrefix | guest-agent/main.go:245-259 | the frames read from arbitrary bytes re-encode to a prefix of them, up to an unfinished frame |
| Frames.LosslessIff | internal/firecracker/shell.go:20-30 | the copy into the reader's buffer loses nothing exactly when every data frame fits it |
| Frames.OutputTransparent | guest-agent/main.go:187-202 | however the terminal's output is split into reads, the session delivers exactly that output, and a prefix of it when cut |
| Frames.InputTransparent | guest-agent/main.go:206-223 | the guest's terminal gets what the host wrote, in order, and its size is the last resize; of a cut stream, the same for the inputs wholly contained |
| Frames.OtherFramesIgnored | guest-agent/main.go:206-220 | the guest acts on data frames and on resizes of exactly four bytes; leaving all others out changes nothing |
| Frames.WholePacketsIff | internal/sandbox/stream.go:13-36 | demultiplexing works exactly on whole numbers of packets |
| Frames.PacketsRoundTrip | internal/sandbox/stream.go:13-36 | packets are recovered from their encoding |
| Frames.DemuxOutput | internal/sandbox/stream.go:9-39 | each output is the concatenation of its stream's payloads whatever the interleaving, other types are skipped, and a broken stream gives an error and no output |
| Frames.BufferedConn.ReadLine | internal/firecracker/vsock.go:132-139 | the first line, however the connection delivers it, and no byte after it lost |
| Frames.BufferedConn.ReadFull | internal/firecracker/vsock.go:153-160 | all bytes asked for, else all there are and how the stream ended |
| Frames.BufferedConn.NextFrame | internal/firecracker/shell.go:72-86 | the imperative reader is the parser the theorems are about |
| Frames.FirecrackerShell.Dial | internal/firecracker/vsock.go:119-148 | a shell exactly behind a greeting that starts with OK, every byte behind it still to be read |
| Frames.GreetingsAreOK | internal/firecracker/vsock.go:132-148 | OK, any tail and a newline is a greeting, whatever follows it, and every greeting has that form |
| Frames.FirecrackerShell.Read | internal/firecracker/shell.go:20-30 | the next data payload cut to the buffer; what it returns and what is left is what was there |
| Frames.FirecrackerShell.Write | internal/firecracker/shell.go:32-37 | appends one encoded data frame |
| Frames.FirecrackerShell.Resize | internal/firecracker/shell.go:39-44 | appends one encoded resize frame |
| Frames.PumpSession | internal/api/shell.go:90-110 | the session's output is everything the shell delivers up to the end of its stream |
| Frames.OpenSession | internal/firecracker/vsock.go:119-148 | opening a shell and reading it to its end: everything delivered behind an accepted greeting, else nothing |
| Frames.SessionDelivers | internal/api/shell.go:90-110 | behind an accepted greeting a session delivers exactly the terminal's output, however it was split into reads |
| Frames.PumpInput | internal/api/shell.go:115-139 | messages and window sizes are sent as their frames, in order |
| Frames.HandleInput | guest-agent/main.go:206-223 | the guest's loop is the fold over the frames that InputTransparent is about |
| Frames.PumpOutput | guest-agent/main.go:189-202 | the guest's loop writes the frames OutputTransparent is about |
| Bytes.U32RoundTrip | internal/firecracker/shell.go:57-60 | writing and reading a length keeps its low 32 bits |
| Bytes.FromU32Injective | internal/firecracker/shell.go:72-85 | no two byte strings read as the same length |
| Bytes.FromU32Order | internal/firecracker/shell.go:57-60 | lengths are big-endian: the order of the bytes, first byte first, is the order of the numbers |
| Bytes.FromU16Order | internal/firecracker/shell.go:39-44 | the same of window sizes |

## Left out

- HTTP routing, JSON, the WebSocket upgrade, logging, metrics, the CLI, the terminal interface and the SDK: plumbing; status codes and state changes are kept.
- Template lookup, unknown templates, listing and fetching of sandboxes, exec and file access through the API: reads of one row, or calls passed on.
- Rounding of floating-point numbers and their conversion to text in the token bucket script: real numbers are used.
- RateLimit.Limiter.Allow: the reply is taken as well-formed, so the branches for malformed script replies are missing.
- Bridge, NAT and tap commands: they succeed or fail, and only the device names are kept. Bridge addresses that are not of class A, B or C, for which the base address would be nil, are not modelled.
- Ownership.FailedCreateLeavesNothing: assumes that removing the rootfs file during the rollback works; without it the file stays.
- RemoveImage is not among the interleaved steps of `Ownership`; it neither takes nor releases addresses. Sockets and the DNS file written into the guest are left out.
- Fleet.CyclesAreTransparent: leaves out calls that end, rename or overwrite the running machine or remove its pause, and a pause that reports success without a snapshot; Fleet.RemovedPauseIsFinal and Firecracker.PauseSucceedsIff say what those do.
- Fleet: a resume is given the reference of the sandbox's own pause, as the API does, and a warm placeholder is never paused, because it has no row; a guest works only while its machine runs. Addresses and sockets are not part of it.
- Files are written whole or not at all; a manifest or snapshot cut short by a full disk is not modelled. Nor is a partly removed pause directory.
- Pool: the periodic tick is an event without a period, so nothing is said about how long the maintainer sleeps. `WarmPool` is given its templates; the class runs one call at a time.
- The interleaved pool is for one template and one call of `Start`; templates share nothing. Failed creations in a top-up repeat for ever when they always fail, which the termination bound excludes.
- Lock: expiry and the callers' clocks are one clock, and a command sent by a replica takes effect before its next step; a command delivered late by the network is not modelled. The reaper and the reconciler hold two different keys and never renew, so what the lock gives them is Lock.MutualExclusion for reaps shorter than a lease.
- Lifecycle: the application's and the database's clock are one clock. The backend without the optional capabilities appears only in the status codes. The reaper's two branches on missing capabilities only delete the row.
- Lifecycle.GuardedLaws, Lifecycle.PausedRowsKeepTheirImage: two requests on the same sandbox never overlap, and neither overlaps the work of a reap or a reconcile on its row, which the server does not enforce; store calls succeed.
- Lifecycle.Server.Reap: a kill that fails leaves its sandbox running; that it may be gone all the same is part of the steps (`Lifecycle.RunsAfterIff`) only.
- Lifecycle.EveryLiveSandboxHasRow, Lifecycle.NoEarlyReap: whole requests, reaps and reconciles never overlap.
- Replicas have their own Firecracker table and Docker names; a request that reaches a replica which does not know the sandbox is not modelled.
- Adapter: containers end only by the calls of the adapter or on their own; another user of the same Docker daemon is not modelled. ContainerCreate and ContainerStart stand for pull, create and start.
- AuthCache: the cache's and the server's clock are one clock, and a write to the cache takes effect at once or never. Hashing is left out: a key is its hash.
- Frames: what the terminal does with a failed write or resize, and the order in which the two directions of a session end, are not modelled.
- Liveness under fair scheduling: only the pool's top-up has a bound on its steps.
