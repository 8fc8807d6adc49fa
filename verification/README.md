# A verified model of the Supervisor

The Supervisor keeps a registry of language-model child processes ("Instances"), launches them
on demand with memory flags found by a search, and reads the headers of GGUF model files. This
project models the three parts of it that are hardest to get right, and proves what they promise.

`dafny verify dfyconfig.toml` checks everything.

## The three parts

**The Instance lifecycle** (`Residents`, `Lifecycle*`). Requests, idle timers, least-recently-used
eviction, explicit eviction, tuning, tuning resets and shutdown race over the registry.
`Residents.dfy` has the fields of one `residentInstance` and every critical section of its mutex,
once as a method that updates the fields and once as the function it is proved to compute.
`Lifecycle.dfy` is a step system built from those functions: any number of tasks, each with a
program counter, and one action per critical section. Its conventions:

- A section of the registry mutex that nests several sections of Instance mutexes (scanning for the
  least recently used, settling a load, sweeping the registry) is several actions with `mu` held in
  between.
- The condition variable is a set of tasks asleep that no broadcast has reached.
- The environment may end any process, finish any context, fire any armed timer and delay any timer
  callback, in any state.
- `grants`, `joined`, `left`, `owner`, `stopIssued`, `drained` and the `Ledger` are bookkeeping that
  the program does not have; no guard of a decision reads the `Ledger`.
- Some guards repeat that an Instance or a load is known. These conjuncts follow from the invariant;
  `NeverStuck` shows that they never hold a task up.

`LifecycleInvariant.dfy` states the invariant. `LifecycleSteps`, `LifecycleActions`,
`LifecycleRequests`, `LifecycleLoads`, `LifecycleSweeps` and `LifecycleInduction` show that every
action keeps it, `LifecycleMonotone` that no action takes back what it must not. The results over
whole runs are in `LifecycleTheorems` (processes, slots, drains, wake-ups), `LifecycleRegistry`
(generations, timers, shutdown, cancellation), `LifecycleProgress` (evictions), `LifecycleEviction`
and `LifecycleFields` (least recent use, times to live), `LifecycleOutcomes` (how requests end),
`LifecycleEndings` (what sweeps, `Close`, drains, callbacks and evictions have done when they end) and
`LifecycleLiveness`. `LifecycleFrames` shows that an action moves one task and leaves what another has
locked; `LifecycleFollowers` has one run in full.

**Tuning** (`TuningSearch`, `Tuning`, `TuningSessions`). `TuningSearch.dfy` has the ladder and the
bisection, the latter in 64-bit arithmetic, as functions of a yes-or-no oracle, with optimality,
overflow and the size of the search. `Tuning.dfy` has `tune` and `launchInstance` as methods against
a host whose answers are arbitrary at every launch. Its budget lasts for a given number of looks at
the clock and may run out before; that is also why a bisection that overflows comes to an end.
`unstopped` are the processes launched and not yet stopped; any of them may have exited, so the
results about it bound what is alive and say nothing about survival. `TuningSessions.dfy` puts
launches, resets and restarts into histories of any length.

**The GGUF header** (`Gguf*`). `GgufReader.dfy` has the parser as functions and as the reader that
advances through the input; `GgufLaws.dfy` what holds of every input; `GgufGrammar.dfy` the accepted
headers as a grammar, and that the parser accepts these and no others; `GgufWriter.dfy` the writer
and the round trip; `GgufMetadata.dfy` the fixture writer and what is read off a header.

## What the proofs found

- The search is optimal for every oracle that is downward closed in the offload if and only if
  `maxOffload` fits in an `int`, that is, lies below 2^63 (`OptimalExactlyWhen`). Above 2^63,
  `int(maxOffload) - 1` is negative, the bisection makes no turn, and a Model that fits without any
  offload is called unservable (`SearchMissesHuge`). At exactly 2^63 the bisection starts at the
  largest `int`; if every offload below the top fits and the top does not, `low = mid + 1` overflows
  and the loop goes round for ever (`SearchOverflows`, and `EndlessExactlyWhen` for the exact
  condition). Then only the budget ends it.
- A conservative configuration launched after the budget ran out is recorded under the key of the
  search and answers later launches (`FallbackIsKept`). It agrees with a fresh search if and only if
  the block count is at most 2^63, nothing fits on the rungs above it, and nothing more fits on its
  own (`FallbackAgreesExactlyWhen`). The agreement of cache and search over histories is therefore
  stated for budgets that are large enough, and how large is proved: more than twice the launches of
  the search, never more than 521 (`ProbesAtMost`). Conservation holds whatever the clock does, and
  so do the certificates, except that a fallback has none for the offload above it.
- The block count bounds the search and is not part of the cache key, and the digest covers only
  identifier, path and size. A file rewritten in place at the same size hits the old entry, and that
  agrees with a fresh search for every oracle if and only if the top of the search is the same
  (`KeyOmitsBlockCount`).
- A follower of a load is handed an Instance without a slot exactly when the load succeeded and its
  entry is already gone; that Instance is always one that is draining, stopped or dead
  (`SlotlessFollower`), and it does happen to a live process (`FollowerWithoutSlot`). Slots and
  drains are therefore stated about the grants of `acquire`.
- Setting `draining`, and a drain's own setting of `stopped`, broadcast to nobody. That loses no
  wake-up because sleepers exist only while slots are held (`NoLostWakeup`).

## Model

| member | source | states |
|---|---|---|
| `Residents.ResidentInstance.constructor` | internal/supervisor/supervisor.go:91-104 | A new Instance has the Model, time to live and slots it was given, at least one slot and none taken, so the `acquire` of its loader under the registry lock is granted or refused and never sleeps |
| `Residents.ResidentInstance.AcquirePass` | internal/supervisor/supervisor.go:133-203 | One pass through `acquire` refuses without effect, joins the sleepers, or takes a slot, sets the time of last use and stops the idle timer, by the same tests on entry and after a wake-up, and keeps the Instance invariant |
| `Residents.ResidentInstance.ReleaseSlot` | internal/supervisor/supervisor.go:205-228 | A release gives the slot back, sets the time of last use, wakes every sleeper, arms the timer when the last slot of an Instance with a time to live comes back and nobody drains it, and keeps the invariant |
| `Residents.ResidentInstance.StopTimerAndMarkStopped` | internal/supervisor/supervisor.go:230-240 | The timer is off, the Instance is stopped, every sleeper is woken |
| `Residents.ResidentInstance.DrainUnderLock` | internal/supervisor/supervisor.go:247-270 | A drain ends at a stopped Instance, waits while slots are held, and otherwise claims the stop |
| `Residents.ResidentInstance.OnIdleTimeout` | internal/supervisor/supervisor.go:290-297 | A callback acts only while the timer counts as active, and consumes it |
| `Residents.ResidentInstance.ChangeTtl` | internal/supervisor/supervisor.go:1246-1260 | The time to live is set; the timer of an idle Instance runs from then on exactly if it is positive, that of a busy one is left alone, and nothing else changes |
| `Residents.ResidentInstance.MarkForEviction` | internal/supervisor/supervisor.go:1440-1448 | The victim drains and its timer is off |
| `Residents.LeastRecentlyUsed` | internal/supervisor/supervisor.go:1426-1439 | The victim has a minimal sampled `lastUsed`, and there is one exactly when the registry is not empty |
| `Residents.GrantOk` | internal/supervisor/supervisor.go:184-202 | A grant keeps the Instance invariant, and is made by an Instance that neither drains nor is stopped |
| `Residents.AdmissionOk` | internal/supervisor/supervisor.go:133-203 | Whatever one pass through `acquire` decides, the invariant is kept and nothing but this task is added |
| `Residents.UsesSet` | internal/supervisor/supervisor.go:196-209 | Taking a slot and giving one back set the time of last use and leave model, slots and time to live alone |
| `Residents.OthersSet` | internal/supervisor/supervisor.go:230-240 | No other section sets the time of last use, and none but a change of it the time to live |
| `Residents.TtlSet` | internal/supervisor/supervisor.go:1246-1260 | What a change of the time to live sets, for every state of an Instance |
| `Residents.ReleaseOk` | internal/supervisor/supervisor.go:205-228 | A release keeps the invariant, lowers the count by exactly one and leaves no sleeper un-notified |
| `Residents.DrainPassOk` | internal/supervisor/supervisor.go:247-270 | A pass of a drain keeps the invariant, leaves the Instance draining or stopped, and claims the stop only when no slot is held |
| `Residents.QuietSectionsOk` | internal/supervisor/supervisor.go:230-300 | Marking, idle callbacks, TTL changes and evictions keep the invariant and grant nothing |
| `LifecycleInduction.InitOk` | internal/supervisor/supervisor.go:1277-1305 | The invariant holds of the empty registry |
| `LifecycleInduction.ActionKeeps` | internal/supervisor/supervisor.go:1277-1468 | Every action of every task and of the environment keeps the invariant |
| `LifecycleFrames.OnlyActorMoves` | internal/supervisor/supervisor.go:1277-1468 | An action moves one task, and leaves the registry alone while another task has it locked |
| `LifecycleEndings.WorldStep` | internal/supervisor/supervisor.go:908-912 | Contexts finish, processes start and exit, and the Supervisor closes, by the actions of that name alone |
| `LifecycleMonotone.ActionOnward` | internal/supervisor/supervisor.go:133-300 | No action reverts `draining`, `stopped`, `closed`, a closed `ready`, or grants a slot of a blocked Instance |
| `LifecycleTheorems.Reachable` | internal/supervisor/supervisor.go:868-961 | The invariant holds in every state of every run |
| `LifecycleTheorems.Later` | internal/supervisor/supervisor.go:133-300 | The one-step guarantees hold over any stretch of a run |
| `LifecycleTheorems.NoGhostProcess` | docs/adr/0001-discovery-and-lifecycle-policies.md:23-25 | In every reachable state every live process was told to stop, or is registered, or its loader still holds it, or some task is about to stop it, or it is not stopped and some task is inside a drain of it |
| `LifecycleTheorems.RegistryExit` | internal/supervisor/supervisor.go:272-276 | An entry leaves the registry only draining with a drainer, stopped with a stopper pending or done, or with its process gone |
| `LifecycleTheorems.SlotsAreHolders` | internal/supervisor/supervisor.go:133-228 | `activeCount` is the number of tasks that hold a slot, exactly those, and stays in `0..maxSlots` |
| `LifecycleTheorems.NoGrantAfterBlocked` | internal/supervisor/supervisor.go:137-147 | `draining` and `stopped` never revert, and an Instance that drains, is stopped or has exited never grants a slot again |
| `LifecycleTheorems.DrainStopsIdle` | internal/supervisor/supervisor.go:258-280 | When a drain calls `Stop`, no slot is held, the entry is gone, and no slot is granted at any later point of the run |
| `LifecycleTheorems.DrainStopsOnce` | internal/supervisor/supervisor.go:264-280 | Two stops by drains, anywhere in a run, are of different Instances |
| `LifecycleTheorems.NoLostWakeup` | internal/supervisor/supervisor.go:149-182 | An un-notified sleeper in `acquire` means all slots are taken, one in a drain means some are, both that the Instance is not stopped, and then a holder exists whose release is possible and wakes everybody |
| `LifecycleRegistry.SingleFlight` | internal/supervisor/supervisor.go:1285-1361 | No Model is both resident and loading, every entry of `loading` is a load of its own Model, and at most one load of a Model is in flight |
| `LifecycleRegistry.NeverOverwritten` | internal/supervisor/supervisor.go:1382-1414 | No step replaces one entry by another |
| `LifecycleRegistry.NeverReregistered` | internal/supervisor/supervisor.go:1398-1410 | An Instance that has left the registry never comes back |
| `LifecycleRegistry.SuccessorSpared` | internal/supervisor/supervisor.go:272-276 | In every run a late drain or a failed `acquire` of an Instance removes the entry of that Instance or none, and none at all if the Instance had left the registry at any earlier point |
| `LifecycleRegistry.CapHolds` | internal/supervisor/supervisor.go:1395-1397 | With a positive cap, no reachable registry exceeds it |
| `LifecycleFields.FieldsStep` | internal/supervisor/supervisor.go:196-209 | A step sets the time of last use of an Instance exactly if it publishes it, or a slot of it is taken or given back, and its time to live exactly if it changes it; Model and slots are for good |
| `LifecycleFields.PublishSets` | internal/supervisor/supervisor.go:1398-1414 | What publication sets: the entry, the settled load, the one slot taken, and the settings given |
| `LifecycleFields.LastUsedIsLastUse` | internal/supervisor/supervisor.go:196-209 | In every reachable state `lastUsed` is the time of the last step that published the Instance or took or gave back a slot of it |
| `LifecycleEviction.ScanHistory` | internal/supervisor/supervisor.go:1426-1438 | While a loader scans it has held the registry lock since its scan began, the registry has not changed, and every age it carries was read off a registered Instance in between |
| `LifecycleEviction.CapEvictsOldest` | internal/supervisor/supervisor.go:1426-1453 | The entry evicted by the cap has the least of the `lastUsed` values read, one per entry, under one hold of the lock; it alone leaves, admits nobody any more, and has a drain of its own |
| `LifecycleFields.CapEvictsLeastUsed` | internal/supervisor/supervisor.go:1426-1453 | In every run, of the entries that the cap chooses from, each with the time of its last use when it was read, the victim has the least |
| `LifecycleRegistry.TimerSound` | internal/supervisor/supervisor.go:196-228 | An active timer means no slot held, not draining, not stopped, a positive time to live, and an armed runtime timer or a callback on its way |
| `LifecycleRegistry.TimerCovers` | internal/supervisor/supervisor.go:205-300 | An idle Instance with a positive time to live that nobody drains has an active timer or a drain about to start |
| `LifecycleFields.TtlTakesEffect` | internal/supervisor/supervisor.go:1246-1260 | In every run a change of the time to live sets it in its step, starts or stops the timer of an idle Instance, and leaves that of a busy one |
| `LifecycleFields.TtlStays` | internal/supervisor/supervisor.go:1246-1260 | Between two such changes the time to live stays |
| `LifecycleEndings.IdleCallbackDecides` | internal/supervisor/supervisor.go:290-300 | A callback drains exactly if the timer counts as active and the Instance is not stopped, and otherwise does nothing |
| `LifecycleRegistry.SlotlessFollower` | internal/supervisor/supervisor.go:1329-1349 | A follower gets the Instance without a slot exactly when the load succeeded and the entry is gone, and then the Instance admits nobody |
| `LifecycleFollowers.FollowerWithoutSlot` | internal/supervisor/supervisor.go:1346-1347 | A run in which a follower gets a live Instance without a slot |
| `LifecycleRegistry.ShutdownIsFinal` | internal/supervisor/supervisor.go:908-961 | Once closed, the registry is empty outside the section of `Close`, no load starts and nothing is registered; loads in flight end without an Instance, and their processes are with the loader or told to stop |
| `LifecycleRegistry.CancellationIsFair` | internal/supervisor/supervisor.go:1366-1378 | A load is cancelled in a step if and only if its last caller departs, and then every caller that ever joined has a finished context, or an eviction samples it |
| `LifecycleRegistry.CallersCounted` | internal/supervisor/supervisor.go:1307-1327 | The caller count is callers joined less callers left, and never negative |
| `LifecycleOutcomes.RequestAnswered` | internal/supervisor/supervisor.go:1277-1424 | In every run a request that has returned was on the way given an Instance of its Model, came upon a closed Supervisor, had a finished context, or had joined a load of its Model that settled without an Instance |
| `LifecycleOutcomes.StepGoes` | internal/supervisor/supervisor.go:1277-1424 | In one step a request goes on asking for its Model or is answered in one of those ways |
| `LifecycleOutcomes.AttemptDecides` | internal/supervisor/supervisor.go:133-203 | In every run an attempt is refused if and only if the context is finished or the Instance drains, is stopped or has exited; else it takes a slot if and only if one is free, and otherwise sleeps un-notified |
| `LifecycleOutcomes.TurnedAwayRetries` | internal/supervisor/supervisor.go:1295-1303 | A request that was refused and has not finished tries again, and unless it is a follower the Instance that refused it is no longer registered |
| `LifecycleOutcomes.DeadIsDropped` | internal/supervisor/supervisor.go:1286-1289 | A dead entry is marked, its sleepers are woken, it is dropped, and the request that found it starts a load |
| `LifecycleOutcomes.CancelledSleeperLeaves` | internal/supervisor/supervisor.go:153-162 | A sleeper whose context finishes is woken and turned away in two steps |
| `LifecycleOutcomes.WarmStart` | internal/supervisor/supervisor.go:1285-1294 | From every reachable state a request for a registered, live Instance with a free slot is served in two steps |
| `LifecycleProgress.EvictionReaches` | internal/supervisor/supervisor.go:873-905 | When `evictByID` has returned without giving up, the sampled Instance is stopped, the sampled load has settled, and whatever it left admits nobody |
| `LifecycleEndings.EvictionEnds` | internal/supervisor/supervisor.go:873-905 | In every run an eviction that has ended sampled the registry for its Model, and gave up only with a finished context; otherwise it reached what it sampled |
| `LifecycleEndings.DrainServes` | internal/supervisor/supervisor.go:247-280 | In every run a drain that somebody or the cap asked for is over only when the Instance is stopped and its process gone, told to stop or in the hands of a task about to do so |
| `LifecycleEndings.DrainEnds` | internal/supervisor/supervisor.go:258-270 | A drain that has begun is over only when its Instance is stopped |
| `LifecycleEndings.SweepReaches` | internal/supervisor/supervisor.go:1455-1468 | When a sweep has ended, everything that was registered when it began is stopped and was told to stop |
| `LifecycleEndings.CloseReaches` | internal/supervisor/supervisor.go:908-961 | When `Close` has ended without a timeout on a load, everything registered was told to stop and every load that was in flight has settled without an Instance |
| `LifecycleEndings.StopIsRight` | internal/supervisor/supervisor.go:278-279 | In every run `Stop` is called only on a process that was never published or on a stopped Instance |
| `LifecycleProgress.DrainCanFinish` | internal/supervisor/supervisor.go:258-270 | A drain waits for the holders of its Instance alone: after one release by each it comes to its decision |
| `LifecycleProgress.SleeperCanFinish` | internal/supervisor/supervisor.go:167-182 | One release is enough for a sleeper in `acquire` to be served or refused |
| `LifecycleLiveness.NeverStuck` | internal/supervisor/supervisor.go:1277-1424 | Every task can take its next step or waits for a broadcast, a load or the registry lock; the holder of the lock never waits, and a load that is waited for has a loader under way |
| `LifecycleLiveness.NoDeadlock` | internal/supervisor/supervisor.go:133-300 | In every reachable state in which some task is not done, some task that is not done can take its next step |
| `TuningSearch.LadderShape` | internal/supervisor/supervisor.go:1521-1532 | The ladder starts at the request, strictly descends, has one to eight rungs, and consists of the request and the standard lengths below it |
| `TuningSearch.HighRange` | internal/supervisor/supervisor.go:1636-1636 | The upper end of the bisection is `maxOffload - 1` up to 2^63 and negative above |
| `TuningSearch.BisectIsLoop` | internal/supervisor/supervisor.go:1635-1676 | The bisection function is what the loop in 64-bit arithmetic comes to, overflow included: its result after at most one turn per binary digit, or no end after any number of turns |
| `TuningSearch.NeverEnds` | internal/supervisor/supervisor.go:1640-1676 | Once `low` has overflowed the loop condition holds after any number of turns, whatever the answers |
| `TuningSearch.BisectBrackets` | internal/supervisor/supervisor.go:1635-1676 | Whatever the answers, the offload found fits and one more does not, finding nothing means that zero does not fit, and only a range up to the largest `int`, which then fits, has no end |
| `TuningSearch.RungBest` | internal/supervisor/supervisor.go:1596-1676 | If the search of one rung ends, it returns the largest fitting offload in `0..maxOffload`, or nothing if none fits |
| `TuningSearch.EndlessExactlyWhen` | internal/supervisor/supervisor.go:1635-1676 | For a downward closed oracle a rung is searched without end if and only if the top is 2^63, does not fit, and 2^63 - 1 does |
| `TuningSearch.SearchOptimal` | internal/supervisor/supervisor.go:1588-1714 | Below 2^63 the search ends; up to 2^63, if it ends, it returns the lexicographically greatest pair that fits, and nothing exactly when nothing fits |
| `TuningSearch.BestIsUnique` | internal/supervisor/supervisor.go:1588-1714 | There is one best answer, so optimality determines the result |
| `TuningSearch.SearchMissesHuge` | internal/supervisor/supervisor.go:1636-1640 | Above 2^63 blocks, a Model that fits only without offload is not found on any ladder |
| `TuningSearch.SearchOverflows` | internal/supervisor/supervisor.go:1636-1662 | At exactly 2^63 blocks, if all smaller offloads fit, the search has no end, on any ladder |
| `TuningSearch.OptimalExactlyWhen` | internal/supervisor/supervisor.go:1635-1640 | The search ends and is optimal for every downward closed oracle if and only if `maxOffload` is below 2^63 |
| `TuningSearch.DigitsIsLog` | internal/supervisor/supervisor.go:1640-1648 | The per-rung bound is the floor of the logarithm plus one |
| `TuningSearch.HalvingDigits` | internal/supervisor/supervisor.go:1648-1648 | A probe in the middle costs one binary digit of the range on either side |
| `TuningSearch.ProbesAtMost` | internal/supervisor/supervisor.go:1588-1683 | No search that ends needs more than 521 launches |
| `Tuning.Host.LaunchConfig` | internal/supervisor/supervisor.go:1470-1494 | One launch, one log entry; a process that does not get ready is stopped, so a failure leaves none unstopped |
| `Tuning.Supervisor.BisectProbe` | internal/supervisor/supervisor.go:1641-1675 | A probe leaves no process unstopped, ends as the host answered, and takes at least one look at the budget and at most two per launch |
| `Tuning.Supervisor.BudgetGone` | internal/supervisor/supervisor.go:1589-1594 | A look finds the budget spent exactly if its time is over, and the next look tells a cancelled load from a spent budget |
| `Tuning.Supervisor.BisectTurn` | internal/supervisor/supervisor.go:1640-1675 | One turn keeps the bracket and does not change what the loop comes to |
| `Tuning.Supervisor.BisectRung` | internal/supervisor/supervisor.go:1635-1676 | For any answers: the offload found came up and one more ran out of memory, nothing found means zero ran out of memory; at most one probe per binary digit unless the bisection overflows; for an oracle and in time: the result of the bisection, which then has an end |
| `Tuning.Supervisor.TryRung` | internal/supervisor/supervisor.go:1588-1711 | One rung begins at the top offload and leaves exactly the returned process unstopped or none, with the same certificates and the result of the rung search |
| `Tuning.Supervisor.SearchBelow` | internal/supervisor/supervisor.go:1635-1711 | Below the top, what is returned came up and one more ran out of memory, and it is the result of the bisection |
| `Tuning.Supervisor.LaunchBest` | internal/supervisor/supervisor.go:1678-1694 | The winner is launched once more and not stopped; a failure leaves none unstopped |
| `Tuning.Supervisor.WalkLadder` | internal/supervisor/supervisor.go:1586-1714 | The outer loop starts at the top, makes at most the bounded number of launches if the search ends, and comes to the result of the search |
| `Tuning.Supervisor.Conclude` | internal/supervisor/supervisor.go:1604-1629 | A process that came up is recorded and returned, an error changes nothing, a spent budget leads to the fallback |
| `Tuning.Supervisor.BuildLadder` | internal/supervisor/supervisor.go:1525-1532 | The loop builds the ladder |
| `Tuning.Supervisor.LaunchFallback` | internal/supervisor/supervisor.go:1542-1584 | The conservative configuration is launched and recorded, or nothing changes |
| `Tuning.FallbackInSpace` | internal/supervisor/supervisor.go:1549-1553 | The fallback is the largest rung up to 2048, with no offload |
| `Tuning.Supervisor.Tune` | internal/supervisor/supervisor.go:1496-1715 | At every launch all earlier ones of the run were stopped; success leaves only the returned process unstopped and records its flags; errors leave none and an unchanged cache. For any answers: the first launch is the top, the result came up and lies in the search space, one more layer ran out of memory unless it is the fallback, unservable means zero ran out of memory on every rung. For any clock: a spent budget leads to the fallback and to nothing else; at a load that stays cancelled once it is, the run ends with that error if and only if a look found it so, and launches nothing after. If the search ends: the bound on launches, and a budget that is enough. For an oracle and in time: the result of the search |
| `Tuning.SearchFits` | internal/supervisor/supervisor.go:1588-1714 | Whatever a search returns fits |
| `Tuning.FoundFits` | internal/supervisor/supervisor.go:1656-1685 | The winner of a bisection fits, for every `maxOffload` |
| `Tuning.Supervisor.LaunchInstance` | internal/supervisor/supervisor.go:1717-1748 | A pin is launched verbatim and leaves the cache alone; so is an entry if fingerprint, digest, requested context and KV type agree; otherwise there is a search from the top with all its certificates, and its result replaces the entry; a launch that succeeded is hit by the next one; a sound cache stays sound and is invisible: the launch ends as a fresh search would |
| `Tuning.Supervisor.LaunchVerbatim` | internal/supervisor/supervisor.go:1717-1740 | Exactly one launch, with exactly the given flags; a failure leaves none unstopped |
| `Tuning.HitIsSearch` | internal/supervisor/supervisor.go:1722-1740 | The entry that a lookup hits holds what a fresh search returns, and it fits |
| `Tuning.KeyOmitsBlockCount` | internal/supervisor/discovery.go:342-346 | Models that differ in block count only share entries, and their searches agree for every oracle if and only if their tops agree |
| `Tuning.FallbackIsKept` | internal/supervisor/supervisor.go:1567-1581 | A recorded fallback is hit by later launches although a fresh search where everything fits ends elsewhere |
| `Tuning.FallbackAgreesExactlyWhen` | internal/supervisor/supervisor.go:1549-1581 | A recorded fallback is what a fresh search returns if and only if the block count is at most 2^63, it fits, nothing fits on the rungs above it, and offload 1 does not fit on its own |
| `Tuning.Supervisor.Save` | internal/supervisor/supervisor.go:614-644 | The file becomes the fingerprint and all entries, or stays without a path |
| `Tuning.Supervisor.LoadCache` | internal/supervisor/supervisor.go:584-612 | Exactly the entries of this fingerprint in a file of this fingerprint are loaded, any other file is removed, and a sound cache is loaded soundly |
| `Tuning.Supervisor.Reset` | internal/supervisor/supervisor.go:1827-1830 | One entry goes, in memory and in the file, and soundness stays |
| `Tuning.Supervisor.ResetAll` | internal/supervisor/supervisor.go:1841-1846 | All entries and the file go, soundness stays |
| `TuningSessions.Perform` | internal/supervisor/supervisor.go:1717-1748 | One operation of a history keeps the daemon sound, leaves exactly the entries it should, and an unpinned launch ends as a fresh search |
| `TuningSessions.Restart` | internal/supervisor/supervisor.go:584-612 | On the same hardware and with a cache file every entry survives a restart, and otherwise none |
| `TuningSessions.AmpleIsEnough` | internal/supervisor/supervisor.go:1539-1540 | 1042 looks are twice the launches of the largest search |
| `TuningSessions.Replay` | internal/supervisor/supervisor.go:584-644 | Over every history of launches, resets and restarts on changing hardware, every unpinned launch ends exactly as a fresh search on the hardware of that moment, and every successful pinned one uses its pin |
| `GgufBytes.NumberRoundTrip` | internal/gguf/fixture.go:64-67 | Reading the little-endian bytes of a number gives the number |
| `GgufBytes.NumberRange` | internal/gguf/gguf.go:202-226 | A number of `w` bytes is below 256 to the `w` |
| `GgufBytes.BytesRoundTrip` | internal/gguf/gguf.go:202-226 | Every byte sequence is the encoding of the number it stands for |
| `GgufBytes.FourBytes` | internal/gguf/gguf.go:202-226 | The first byte is the lowest |
| `GgufReader.Reader.String` | internal/gguf/gguf.go:202-226 | The reader returns the string and stands behind it, or fails as the parser function says |
| `GgufReader.Reader.ReadAny` | internal/gguf/gguf.go:228-316 | The recursive reader computes the value function, errors included |
| `GgufReader.Reader.Elements` | internal/gguf/gguf.go:290-300 | The loop over an array computes the element function |
| `GgufReader.Reader.Pairs` | internal/gguf/gguf.go:159-189 | The loop over the pairs computes the pair function, later keys overriding earlier ones |
| `GgufReader.Reader.Run` | internal/gguf/gguf.go:119-200 | The whole reader computes the header function: same header and position, or same error |
| `GgufLaws.ValueAdvances` | internal/gguf/gguf.go:228-316 | Every accepted value consumes at least one byte and stays within the input |
| `GgufLaws.ValueExtends` | internal/gguf/gguf.go:228-316 | Inputs that agree on the consumed bytes give the same value, at any depth of arrays |
| `GgufLaws.HeaderAdvances` | internal/gguf/gguf.go:119-200 | An accepted header ends within the input |
| `GgufLaws.HeaderExtends` | internal/gguf/gguf.go:119-200 | Whatever follows the consumed bytes, the same header is returned |
| `GgufLaws.PrefixRejected` | internal/gguf/gguf.go:119-200 | Every strict prefix of the consumed bytes is rejected, in all three versions |
| `GgufLaws.ValueBounded` | internal/gguf/gguf.go:266-300 | An accepted value nests no deeper than the limit, keeps the limits on arrays and strings, and holds no more values than bytes were consumed |
| `GgufLaws.PairsBounded` | internal/gguf/gguf.go:159-189 | The same for any number of pairs, overwritten ones counted too |
| `GgufLaws.HeaderBounded` | internal/gguf/gguf.go:46-51 | Every accepted header keeps all limits and decoded no more keys and values than it consumed bytes |
| `GgufLaws.HeaderErrors` | internal/gguf/gguf.go:119-157 | The magic bytes and the version alone decide those two errors, and no plain read error gets out |
| `GgufGrammar.TreeReads` | internal/gguf/gguf.go:228-316 | Every value that is spelled out, arrays nested up to the limit included, in either length width, is read as exactly that value, elements in order, and consumed exactly |
| `GgufGrammar.TreeWas` | internal/gguf/gguf.go:228-316 | Every accepted value was spelled by a well-formed tree, byte for byte, and means that tree |
| `GgufGrammar.HeadReads` | internal/gguf/gguf.go:119-200 | Every header of the grammar, of version 1, 2 or 3, is read back in full, whatever follows it |
| `GgufGrammar.HeadWas` | internal/gguf/gguf.go:119-200 | Every accepted input begins with a header of the grammar |
| `GgufGrammar.AcceptsGrammar` | internal/gguf/gguf.go:119-200 | The parser accepts an input if and only if it begins with a header of the grammar, and then consumes that header and returns its version, counts and pairs, the last of equal keys winning |
| `GgufWriter.ValueParses` | internal/gguf/fixture.go:69-120 | A printed value parses to itself up to the width of machine integers, or is too large |
| `GgufWriter.PairParses` | internal/gguf/fixture.go:56-59 | A printed pair parses to itself and is consumed exactly, or is too large |
| `GgufWriter.PairsParse` | internal/gguf/fixture.go:56-59 | Printed pairs in any order parse to their map and are consumed exactly |
| `GgufWriter.RoundTrip` | internal/gguf/fixture.go:46-61 | For every map of encodable values, every order and every tail, the parser accepts the printed header exactly when it keeps the limits, and then returns the written map after exactly the printed bytes |
| `GgufMetadata.FileTypeNameToType` | internal/gguf/gguf.go:91-99 | The lookup finds a file type of that name up to case, the two letters outside ASCII with ASCII capitals included, and fails only if there is none |
| `GgufMetadata.NamesDistinct` | internal/gguf/gguf.go:53-99 | No two file types share a name up to case, so the lookup has one answer in whatever order the table is iterated |
| `GgufMetadata.FindNumber` | internal/gguf/gguf.go:335-342 | The loop returns the first key that holds a number |
| `GgufMetadata.UpperNames` | internal/gguf/gguf.go:53-88 | Every name of the table is its own upper case, and the codes are below 37 |
| `GgufMetadata.KnownName` | internal/gguf/gguf.go:91-99 | The table gives back the upper case of the name that was looked up |
| `GgufMetadata.Buffer.WriteNumber` | internal/gguf/fixture.go:50-54 | The little-endian bytes are appended |
| `GgufMetadata.Buffer.WriteString` | internal/gguf/fixture.go:64-67 | Length and bytes are appended |
| `GgufMetadata.Buffer.WriteValue` | internal/gguf/fixture.go:69-120 | Type code and payload are appended, and the writer panics exactly on arrays |
| `GgufMetadata.Buffer.WritePairs` | internal/gguf/fixture.go:56-59 | Every pair is appended once, in some order of the keys |
| `GgufMetadata.Buffer.WriteAll` | internal/gguf/fixture.go:46-61 | The buffer is a printed header |
| `GgufMetadata.FixturePairs` | internal/gguf/fixture.go:19-44 | Defaults, the known or verbatim quantization, and the extra pairs on top |
| `GgufMetadata.CreateTestGGUF` | internal/gguf/fixture.go:18-62 | The result is the fixture's map printed in some order, and there is none exactly where the map holds an array |
| `GgufMetadata.Extract` | internal/gguf/gguf.go:318-379 | The method with its loops over the key lists computes the extraction |
| `GgufMetadata.MetadataReads` | internal/gguf/gguf.go:321-355 | For every map: the architecture or "unknown"; the context length from the key of the architecture, else the general one, else that of llm, else 0; the block count from the key of the architecture, else that of llm, else 0 |
| `GgufMetadata.QuantizationReads` | internal/gguf/gguf.go:357-376 | For every map: the name of the file type, or its number after "TYPE_", or its text, or else the text of the quantization key, or "unknown" |
| `GgufMetadata.NumbersAre` | internal/gguf/gguf.go:381-417 | Integers that are not negative convert as they are, negative ones and other types do not |
| `GgufMetadata.FixtureReadsBack` | internal/gguf/fixture.go:18-62 | A fixture with any tail is accepted, consumed exactly, returns its pairs and the extra ones, and yields the architecture, context length and canonical quantization it was made with or their defaults, and the block count of the extra pairs, whatever extra pairs leave those as they are |

## Left out

- HTTP handlers, JSON, the reverse proxy and Ollama response shaping; of them only "acquire, use, release once, perhaps start a drain" is in the step system.
- Subprocesses, signals, hardware probing and the fake host: a launch succeeds, runs out of memory or fails otherwise, and a process may exit at any time.
- Discovery, directory walks and configuration parsing, including TTL key lookup; a rescan appears as the evictions it asks for.
- Logging and wall-clock durations; time is an arbitrary timestamp, a budget may be found spent at any look, `Close` may give up on a load at any time, and a timeout of `Stop` is not modelled.
- `getOrLaunchInstance`, `evictByID`, `Close` and `evictAllResidentInstances` are steps on values and not methods of a class, since their content is the interleaving; `Close` and the sweep delete entries one by one with the lock held.
- Drains asked for by `keep_alive: 0` and calls of `SetModelTTL` may happen in the step system at any time to any Instance ever registered, which allows more runs than the program has.
- The deletion of a load from `loading` is placed at the end of the scan for a victim; the registry lock is held throughout, so nobody can tell.
- `tuningMu` is not modelled in the step system, so loaders may interleave more than in the program; in `Tuning` one run is followed alone, and the sweep of the registry that opens it is in the step system.
- Whether `Stop` ends a process, and whether a returned process lives on; both parts say only what is told to stop and what is not.
- The cache file is an abstract value written by this code; unreadable files and failed writes are not modelled.
- Extra arguments, slots, the observed allocation and the time of measurement are not in the cache entries of the model; the configuration is fixed.
- Real-time and fairness claims; progress is stated as steps that are possible and what they lead to.
- TuningSearch.RungBest: stated up to 2^63 blocks for searches that end, because above it fails (`SearchMissesHuge`) and some searches have no end (`EndlessExactlyWhen`).
- TuningSearch.SearchOptimal: likewise.
- Tuning.FallbackAgreesExactlyWhen: stated for downward closed oracles, as optimality is.
- Tuning.Supervisor.LaunchInstance: agreement with a fresh search is stated for hosts that answer by fingerprint and digest, with a budget of more than twice the launches, and for searches that end; `FallbackAgreesExactlyWhen`, `KeyOmitsBlockCount` and `EndlessExactlyWhen` say what happens otherwise.
- TuningSessions.Replay: restricted to such hosts for the same reason.
- GgufMetadata.FixtureReadsBack: where the extra pairs carry one of the fixture's own keys, the value must mean the same, because it overrides; that a different value can never happen to read back the same is not claimed.
- GgufMetadata.FindNumber: the conversion of floating-point values is an arbitrary parameter; everywhere else floats are bit patterns.
- GgufMetadata.FileTypeNameToType: what `strings.ToUpper` makes of letters that have no ASCII capital is not modelled; no name of the table can match it.
- GgufReader.Reader.Run: where the reader stands after an error is not stated.
- GgufMetadata.CreateTestGGUF: the parameters are values that Go variables of their types can hold, with a 64-bit `int`.
