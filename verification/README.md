# Verified model of the trading bot's durable state

This project models, in Dafny 4.11, the parts of the bot that must not lose, invent or
mix up state, and proves what their documentation promises over every input and every run.
`dafny verify dfyconfig.toml` checks all of it.

- **Backup sets** (`BackupSet`, `BackupDirectory`, `BackupCleanup`, `BackupStaging`,
  `BackupRetention`, `BackupPrune`, `BackupCreate`, `BackupSession`, `BackupNames`): a directory
  of staged, published and collected sets, changed one file operation at a time, with every
  state between two operations on record, up to chains of processes that stop anywhere.
  Content, checksums and SQLite are one abstract test, "verifies".
- **Database backups** (`DatabaseRetention`, `DatabaseBackup`, `DatabasePublish`,
  `DatabaseRestore`): publishing, pruning and restoring single databases, observed the same way.
- **Account reconciliation** (`Account`, `Positions`, `Reconciliation`, `Readiness`,
  `ReadyEvidence`): exact arithmetic, loops proved against a loop-free definition of readiness,
  and what that says about the account behind the payloads.
- **Configuration** (`Config`, `ConfigManager`, `ConfigProtocol`): validation, one manager, and
  all interleavings of any number of processes and threads on one file.
- **Cooldowns** (`Cooldown`): the manager and its table against the whole history of activations.
- **Cost calibration** (`Quantile`, `Calibration`, `Calibrator`): exact arithmetic; square root
  and normal quantile are parameters of known sign.
- **Rate limiter**, **walk-forward kernels**, **account truth**, **release manifests**
  (`RateLimiter`, `WalkForward`, `AccountTruth`, `VenueTruth`, `FuturesTruth`, `TruthEvidence`,
  `ReleaseManifest`). `Numbers`, `Tally`, `Text` and `Wrappers` hold what they share.

Clocks, file contents, parsers, the network and foreign libraries are parameters. Times are
integers where they are compared and reals where they are multiplied; decimals and floats are
exact reals. Clocks are assumed not to run backwards where a theorem is about a run.

## Where the code falls short of its documentation

The code is modelled as it is. Each of these is proved, by the members named, with its exact
condition where there is one.

- Pruning backup sets with a retention of one and a protected file that is no verified set's
  manifest removes every verified set (`SparesOneIff`, `UnsoundPruneLosesAll`).
- A verified set with a member outside the allow-list is renamed for collection, then refused
  for ever, and later creates refuse because of it (`RemoveVerifiedSet`,
  `UnownedSetBlocksForever`); a stray empty directory is enough (`StrayDirectoryVerifies`).
- Staging cleanup unlinks its marker first, so only the crash points before its first and after
  its last operation can be finished by a later run (`StagingCrashPoints`); a crash during an
  atomic JSON write leaves a name that blocks cleanup (`AtomicJsonCrashBlocks`); of a create
  call the clearable crash points are those of `CreateCrashPoints`.
- Undoing a publication deletes the published directory in place: a crash after its first file
  leaves a broken directory that no later call touches (`UndoCrashPoints`, `BrokenIsForEver`).
- A create that draws an id already in use deletes the set that has it, even the only verified
  one (`StageAndPublish`, `ReusedIdLosesLastSet`). Ids carry a random part that makes this rare.
- A futures account payload that is present but no mapping skips the comparison of the two
  futures endpoints (`ReadyEndpointsAgreeIff`, `UnusableAccountMayBeReady`). Margin, spot and
  order payloads that cannot be read count as empty, so readiness then says nothing about what
  they hid (`ReadyExplainsDebtsIff`, `ReadyExplainsBalancesIff`, `ReadyOwnsOrdersIff`,
  `BlindAccountIsReady`).
- NaN passes validation in keys without a finiteness check, among them the time-to-full
  thresholds, whose order then means nothing; hashing fails after the values were installed, so
  the version hash stays behind (`HoursOrderedIff`, `HoursOrderCanBreak`, `TryLoad`).
- A writer that looks at the file time after another writer replaced the file records a time
  newer than what it holds and does not see the other's version (`FreshAfterIff`,
  `RacedWriterIsStuck`).
- Two verified manifests naming one payload break each other on deletion (`RemovalKeepsIff`),
  and a prune stops at the second of them (`CompletesIff`); the rollback of a failed publication
  deletes payload before manifest (`RollbackIff`).
- Creating a manifest does not check backslashes in names, a blank Rust toolchain, or the
  Windows signature scheme and fingerprint, which verifying then rejects
  (`CreateThenVerifyIff`).
- A live-mode manager meets the reviewed live policy exactly when it holds an accepted file in
  which no bounded key is NaN: NaN passes every floor and ceiling (`WithinBoundsIff`,
  `NaNPassesFloors`), and the compiled defaults, which it holds otherwise, have another decision
  stage (`LivePolicyIff`).
- An infinite number for an integer key or for a component budget, met before anything refused
  in the ordinary way, or a file that is a list of keys, raises an error that a reload does not
  catch (`TryLoad`, `Overflowing`, `InfiniteBudgetOverflows`); at the start there is then no
  manager (`Open`).
- An acquisition that is refused its first pass fails on a division by zero when the rate is
  zero, and never returns where the capacity is below one token or the rate is negative
  (`AcquireReturnsIff`, `Acquire`).

## Model

| member | source | states |
|---|---|---|
| `BackupSet.RustTimestampIsOverlap` | bongus/engine/backup_set.py:196-218 | The millisecond comparison of a Rust generation time with the set window accepts exactly the times some instant of which lies inside the window; no skew is admitted |
| `BackupSet.ApplyKeepsWellFormed` | bongus/engine/backup_set.py:596-775 | Every rename, write, unlink and rmdir keeps each directory tree closed under parents |
| `BackupSet.OwnedShrinks` | bongus/engine/backup_set.py:280-360 | The ownership test of a collected tree stays true under removal of members in any order |
| `BackupSet.UntouchedStays` | bongus/engine/backup_set.py:596-606 | A published set is changed only by an operation that names it |
| `BackupSet.GuardKeepsSafe` | bongus/engine/backup_set.py:666-987 | No guarded operation leaves an acknowledged directory without a published set that verifies |
| `BackupSet.TraceStaysSafe` | bongus/engine/backup_set.py:666-987 | Safety at one state of a run holds at every later one, if the steps in between are guarded |
| `BackupSet.EveryCrashKeepsAVerifiedSet` | bongus/engine/backup_set.py:596-987 | If every step of every process is guarded, no crash of any of them leads to a state that is not safe; `BackupSession.RunProcesses` establishes the guard for actual calls |
| `BackupSet.AcknowledgementPersists` | bongus/engine/backup_set.py:974 | An acknowledged create is never taken back by a later operation |
| `BackupDirectory.BackupRoot.DropRustTree` | bongus/engine/backup_set.py:338-360 | Removes the Rust tree deepest first, one operation per entry, every intermediate tree being a remainder of the original |
| `BackupDirectory.BackupRoot.RemoveMember` | bongus/engine/backup_set.py:633-641 | Removes one member, or the whole Rust tree, of a collected directory and nothing else |
| `BackupDirectory.BackupRoot.RemoveOwnedGc` | bongus/engine/backup_set.py:609-648 | Finishes a collection exactly when it is recognisable, keeps the marker until last, and takes one operation per entry plus one |
| `BackupCleanup.CleanupInterruptedGc` | bongus/engine/backup_set.py:651-663 | Removes exactly the recognisable interrupted collections and changes nothing else |
| `BackupCleanup.RemovalsCount` | bongus/engine/backup_set.py:609-648 | Along any stretch of removals the operations done and the entries left add up to the same number |
| `BackupCleanup.EveryCrashPointResumes` | bongus/engine/backup_set.py:609-663 | From every crash point of a collection a later run recognises the remainder, reaches the same directory, and has exactly the outstanding operations left |
| `BackupStaging.MarkerSortsFirst` | bongus/engine/backup_set.py:715-772 | Among the members a staging cleanup accepts none sorts before the ownership marker |
| `BackupStaging.ReclaimStaging` | bongus/engine/backup_set.py:715-775 | Removes a staging directory member by member in sorted order, one operation per entry plus one |
| `BackupStaging.CleanupAbandonedStaging` | bongus/engine/backup_set.py:704-775 | Reclaims exactly the marked, old enough, fully listed staging directories |
| `BackupStaging.ReclaimingCounts` | bongus/engine/backup_set.py:715-775 | The operations done and the entries left of a staging cleanup always add up to the same number |
| `BackupStaging.StagingCrashPoints` | bongus/engine/backup_set.py:715-775 | The crash points of a staging cleanup that a later run can finish are exactly the one before its first and the one after its last operation |
| `BackupStaging.EventuallyReclaimableIff` | bongus/engine/backup_set.py:704-775 | A leftover staging directory is reclaimable at some later time exactly when it has its marker and only allow-listed members |
| `BackupNames.ListedIffAllowed` | bongus/engine/backup_set.py:50-55 | The parsed names the model accepts are exactly those whose text matches the allow-list pattern |
| `BackupNames.TemporaryNameIsNotAllowed` | bongus/engine/backup_set.py:374-390 | No temporary name of an atomic JSON write matches the pattern, whatever its target |
| `BackupNames.AtomicJsonCrashBlocks` | bongus/engine/backup_set.py:374-390 | A crash during an atomic JSON write leaves a name that keeps its staging directory from ever being reclaimed |
| `BackupRetention.CollectVerified` | bongus/engine/backup_set.py:681-687 | Lists every set that verifies, once, newest first |
| `BackupRetention.ChooseKept` | bongus/engine/backup_set.py:688-695 | Keeps newest manifests until the retention count is reached, the protected one counting |
| `BackupRetention.ChosenAreRetained` | bongus/engine/backup_set.py:688-695 | What the list walk keeps is what a definition without any list keeps |
| `BackupRetention.SparesOneIff` | bongus/engine/backup_set.py:666-701 | A prune spares a verified set exactly when the protected file is a verified manifest, or none is given, or more than one set is kept |
| `BackupRetention.RetainedIsNewest` | bongus/engine/backup_set.py:687-701 | An unprotected set is kept only if every newer unprotected one is |
| `BackupPrune.RemoveVerifiedSet` | bongus/engine/backup_set.py:596-606 | Refuses untouched a set that does not verify or whose collection name is taken; otherwise unpublishes by one rename before deleting anything, and fails after the rename exactly when a member is outside the allow-list |
| `BackupPrune.PruneBackupSets` | bongus/engine/backup_set.py:666-701 | Whether a prune completes and what it leaves, as a function of the directory found; at every point only superseded sets have been unpublished |
| `BackupPrune.SoundPruneIsGuarded` | bongus/engine/backup_set.py:666-701 | With sound protection every operation of a prune is guarded, wherever it stops |
| `BackupPrune.UnsoundPruneLosesAll` | bongus/engine/backup_set.py:688-701 | Without it a completed prune leaves no verified set |
| `BackupPrune.StrayDirectoryVerifies` | bongus/engine/backup_set.py:596-606 | An empty stray directory leaves a set verified and makes it unowned, so sets that a prune unpublishes and then refuses exist |
| `BackupCreate.Prepare` | bongus/engine/backup_set.py:793-807 | Clears leftovers and prunes before staging, refusing when something unfinishable is left |
| `BackupCreate.StageAndPublish` | bongus/engine/backup_set.py:847-987 | Stages, completes and publishes by one rename; a failure is undone on the same entry; where the drawn id is taken the exception path scraps the set that has it, and otherwise, from a safe directory, every step is guarded |
| `BackupCreate.ProtectedSurvives` | bongus/engine/backup_set.py:964-974 | The protected set outlives the prune it is protected from |
| `BackupCreate.CreateVerifiedBackupSet` | bongus/engine/backup_set.py:778-987 | The trace only grows; from a safe directory and with an id not in use every step is guarded whatever fails; a created set verifies and outlives its own prune; a failing call costs at most sets already superseded and the one whose id it drew; broken directories stay; unfinishable leftovers make it refuse |
| `BackupCreate.PublishSet` | bongus/engine/backup_set.py:956-974 | Publishes by one rename, undone in place on a later exception; no other set changes, and from a safe directory every step is guarded |
| `BackupCreate.UnownedSetBlocksForever` | bongus/engine/backup_set.py:596-663 | Retiring an unowned verified set leaves a directory that makes every later create refuse, at every time |
| `BackupCreate.CreateCrashPoints` | bongus/engine/backup_set.py:778-987 | The crash points of a staging create call that a later one can clear are exactly those with nothing staged, or with the marker and only allow-listed members |
| `BackupCreate.ReusedIdLosesLastSet` | bongus/engine/backup_set.py:952-985 | A call that draws the id of the only verified set and comes to publish leaves no verified set |
| `BackupCreate.PartVerifiesIff` | bongus/engine/backup_set.py:975-985 | What is left of a verified set verifies exactly when no file and not the Rust directory is missing |
| `BackupCreate.UndoCrashPoints` | bongus/engine/backup_set.py:975-985 | The crash points of an undone publication that leave a broken published directory are exactly those after its first file or its Rust directory is gone and before it is gone itself |
| `BackupSession.Perform` | bongus/engine/backup_set.py:651-987 | What any one call has done when it returns, as a relation of the stores before and after it and its reply; the trace only grows, and a call that is sound in a safe directory takes guarded steps only |
| `BackupSession.RunProcess` | bongus/engine/backup_set.py:651-987 | The log of one process: where each of its calls begins and ends on the trace, each related to its reply as promised; it takes guarded steps only if every prune protects soundly and every create draws an id not in use |
| `BackupSession.RunProcesses` | bongus/engine/backup_set.py:596-987 | Any number of processes make any calls, each stopped between any two file operations and the next starting from what is left: their logs, and if every call is sound in the directory it finds, every state ever reached is safe |
| `BackupSession.ReturnedCreateSurvives` | bongus/engine/backup_set.py:596-987 | Once a create call has returned before its process stopped, every later state of that process and every state of every later process holds a published set that verifies |
| `BackupSession.BrokenIsForEver` | bongus/engine/backup_set.py:596-987 | A published directory that does not verify is left as it is by every later call, unless a create draws its id |
| `Positions.PositionMapMeaning` | bongus/engine/account_reconciliation.py:286-302 | The position table holds a symbol exactly when some open row names it, and then the first such row |
| `Positions.PositionMap` | bongus/engine/account_reconciliation.py:286-302 | Builds that table and names exactly the symbols met more than once |
| `Positions.PositionMapPermutes` | bongus/engine/account_reconciliation.py:286-302 | Reordering rows repeats the same symbols and, when none repeats, gives the same table |
| `Positions.SpotBalances` | bongus/engine/account_reconciliation.py:314-328 | Balances are the sums of free and locked amounts per asset above the tolerance |
| `Positions.InventoryPermutes` | bongus/engine/account_reconciliation.py:314-328 | Those sums do not depend on the order of the rows |
| `Reconciliation.IdentityIssues` | bongus/engine/account_reconciliation.py:483-507 | No identity issue is raised exactly when environment and account match |
| `Reconciliation.EndpointIssues` | bongus/engine/account_reconciliation.py:537-567 | No completeness issue is raised exactly when every endpoint answered without error |
| `Reconciliation.FieldIssues` | bongus/engine/account_reconciliation.py:509-535 | No field issue is raised exactly when every needed payload is there and a usable futures account came with its positions key, null or not |
| `Reconciliation.ClassifyExchange` | bongus/engine/account_reconciliation.py:624-685 | Every exchange position is classified once against its managed counterpart, and the hedge each base asset needs is added up |
| `Reconciliation.AccumulatedExposure` | bongus/engine/account_reconciliation.py:624-685 | The accumulated amounts are the summed quantities of all legs of a base asset |
| `Reconciliation.ClassifyLiabilities` | bongus/engine/account_reconciliation.py:754-796 | Every debt above tolerance is listed once, split into what the short legs cover and the rest, and labelled matched, short or unassigned |
| `Reconciliation.ClassifyOrders` | bongus/engine/account_reconciliation.py:358-445 | Every order is classified once; the cancellable ones are exactly those with a namespaced client id, whatever their symbol or intent |
| `Readiness.Reconcile` | bongus/engine/account_reconciliation.py:448-847 | Ready exactly when the loop-free conditions hold; every symbol of either side is reported once with its class, direction, quantities and hedge, every order once with its ownership, and every debt worth listing once, split against the short legs, with its label |
| `Readiness.ReadyBoundsExposure` | bongus/engine/account_reconciliation.py:712-752 | In a ready account spot inventory falls short of the summed long legs by at most the tolerances and, outside the treasury, exceeds them by at most the cap |
| `Readiness.ReadyBoundsLiability` | bongus/engine/account_reconciliation.py:754-796 | Margin debt and short legs bound each other in the same way |
| `Readiness.ReadyMatchesPositions` | bongus/engine/account_reconciliation.py:624-710 | In a ready account exchange and managed positions are the same symbols, in direction and within quantity tolerance |
| `Readiness.ReadyEndpointsAgreeIff` | bongus/engine/account_reconciliation.py:569-613 | In a ready account the two futures endpoints agree exactly when the account payload was an object or position risk is empty |
| `Readiness.UnusableAccountMayBeReady` | bongus/engine/account_reconciliation.py:569-613 | A ready account with an unusable payload whose endpoints disagree |
| `ReadyEvidence.ReadyExplainsDebtsIff` | bongus/engine/account_reconciliation.py:331-342 | Readiness explains every debt there may be exactly when the margin payload can be read or margin is disabled |
| `ReadyEvidence.ReadyExplainsBalancesIff` | bongus/engine/account_reconciliation.py:314-328 | Readiness hedges and explains all the spot inventory there may be exactly when the spot account and its balances can be read |
| `ReadyEvidence.ReadyOwnsOrdersIff` | bongus/engine/account_reconciliation.py:358-445 | Readiness owns every open order there may be exactly when the order lists can be read, the margin one only if not disabled |
| `ReadyEvidence.IdentityNeedsSpot` | bongus/engine/account_reconciliation.py:483-507 | With a configured identity readiness takes a spot account that can be read |
| `ReadyEvidence.BlindAccountIsReady` | bongus/engine/account_reconciliation.py:448-847 | An account of which no payload could be read is ready when nothing is managed and no identity is demanded |
| `Readiness.ReadyIgnoresRowOrder` | bongus/engine/account_reconciliation.py:286-445 | Readiness does not depend on the order of position, balance or order rows |
| `Config.CoerceTwice` | bongus/core/config_manager.py:482-494 | Coercing a coerced value changes nothing |
| `Config.NormalizeAll` | bongus/core/config_manager.py:692-706 | Coerces a payload key by key, or refuses it at the first key that cannot be coerced, and tells whether that key overflowed |
| `Config.CheckBudgets` | bongus/core/config_manager.py:634-638 | Passes exactly when every component budget converts to a positive integer; overflows exactly when the first that does not is infinite |
| `Config.CheckRules` | bongus/core/config_manager.py:501-676 | Passes exactly when the rules before the budgets, the budgets and the rules after them hold, and overflows exactly when the first of the rules hold and the first bad budget is infinite |
| `Config.ValidateLiveConfig` | bongus/core/config_manager.py:677-714 | Accepts exactly payloads of known, non-internal, coercible keys whose effective configuration passes the check; the error is an overflow exactly when an infinite integer is the first key refused, or all keys coerce and the check overflows |
| `Config.ValidationIdempotent` | bongus/core/config_manager.py:677-714 | Validating a validated payload accepts it unchanged |
| `Config.HoursOrderedIff` | bongus/core/config_manager.py:621-633 | The time-to-full thresholds of an accepted configuration descend exactly when none is NaN |
| `Config.HoursOrderCanBreak` | bongus/core/config_manager.py:621-633 | With NaN degraded hours any positive warning and emergency hours are accepted, in either order, and the result cannot be hashed |
| `Config.WithinBoundsIff` | bongus/core/config_manager.py:286-291 | Values that pass the live floors are within every reviewed bound exactly when no bounded key is NaN |
| `Config.NaNPassesFloors` | bongus/core/config_manager.py:286-291 | Any accepted live file stays accepted with NaN in a bounded fractional key that has no rule of its own; the result is outside the bounds and cannot be hashed |
| `Config.InfiniteBudgetOverflows` | bongus/core/config_manager.py:634-638 | An infinite component budget, of any name and sign and in any order, overflows and is never accepted |
| `Config.InternalAtDefaults` | bongus/core/config_manager.py:685-690 | A payload without internal keys leaves the storage-control fields at their defaults |
| `Config.CompiledDefaultsPass` | bongus/core/config.py:87-442 | A dictionary holding the compiled constants obeys every rule |
| `Config.ProductionIsSound` | bongus/core/config.py:87-442 | The production check over the compiled defaults is sound: it accepts them, live mode only adds to it, and each default is its own coercion; so the theorems about sound schemas apply to it |
| `Config.CompiledDefaultsMissFloors` | bongus/core/config_manager.py:294-297 | The compiled decision stage does not meet the live floors |
| `ConfigManager.MergedIsNormal` | bongus/core/config_manager.py:963-981 | What a write puts in the file is in normal form |
| `ConfigManager.NormalReadsBack` | bongus/core/config_manager.py:966-973 | A file in normal form is merged as it is |
| `ConfigManager.PrepareWrite` | bongus/core/config_manager.py:963-984 | A write is accepted exactly when file and overrides can be read, the order of the file deciding between an overflow and a refusal, and their merge passes the check |
| `ConfigManager.HeldIsSafe` | bongus/core/config_manager.py:879-905 | Every manager state passes the check, keeps the compiled keys and leaves internal fields at defaults |
| `ConfigManager.HeldIsOrdered` | bongus/core/config_manager.py:501-670 | With the production check every manager state keeps all orders, the hours exactly when none is NaN |
| `ConfigManager.LivePolicyIff` | bongus/core/config_manager.py:255-308 | With the compiled defaults a live manager meets the whole reviewed policy, bounds included, exactly when it holds an accepted file in which no bounded key is NaN |
| `ConfigManager.Manager.TryLoad` | bongus/core/config_manager.py:879-924 | Skips a file that is not newer; leaves everything on a refused one; the error escapes exactly for a list of keys or an overflow; otherwise holds the defaults overlaid with the whole payload; the hash follows exactly when the values can be hashed |
| `ConfigManager.Open` | bongus/core/config_manager.py:838-863 | A manager exists exactly when the error of its first load does not escape, and holds the file if it was accepted, else the defaults |
| `ConfigManager.Manager.WriteOverrides` | bongus/core/config_manager.py:963-994 | Refuses without a trace, or writes the merge and holds exactly what was written |
| `ConfigManager.Manager.CanonicalSnapshot` | bongus/core/config_manager.py:945-961 | Values and hash captured together always belong together |
| `ConfigManager.WriteLoadsBack` | bongus/core/config_manager.py:879-994 | Loading what a write left in the file gives the values the writer holds |
| `ConfigProtocol.PresentIsFold` | bongus/core/config_manager.py:963-973 | What a writer reads under the lock is every accepted override so far |
| `ConfigProtocol.StepKeeps` | bongus/core/config_manager.py:879-992 | Every step of every thread, and every crash, keeps the invariant of file, locks and caches |
| `ConfigProtocol.RunKeeps` | bongus/core/config_manager.py:879-992 | The invariant holds throughout every interleaving |
| `ConfigProtocol.NoOverrideIsLost` | bongus/core/config_manager.py:963-984 | In every interleaving an accepted override stays in the file until a later accepted write overrides the same key, and nothing else changes a key |
| `ConfigProtocol.FileStaysValid` | bongus/core/config_manager.py:963-984 | From the first accepted write on the file always passes the check |
| `ConfigProtocol.EveryCacheHolds` | bongus/core/config_manager.py:879-994 | Every cached view is the defaults, or the defaults overlaid with one version the file has had, validated for that manager |
| `ConfigProtocol.FreshAfterIff` | bongus/core/config_manager.py:879-992 | A step records a time newer than the content it holds exactly when it is a write overtaken between unlocking and its look at the clock |
| `ConfigProtocol.RacedMeansOvertaken` | bongus/core/config_manager.py:984-989 | With an advancing clock that is exactly another replacement after ours |
| `ConfigProtocol.FreshRun` | bongus/core/config_manager.py:879-992 | A run without such a race never records a time newer than the content held |
| `ConfigProtocol.FreshSeesUpdates` | bongus/core/config_manager.py:883-886 | A manager whose recorded time is not too new is always let in to reload a later version |
| `ConfigProtocol.RacedWriterIsStuck` | bongus/core/config_manager.py:984-989 | After the race a manager holds an overtaken version and cannot reload before another replacement |
| `ConfigProtocol.RaceIsReachable` | bongus/core/config_manager.py:963-992 | Two writers reach that race |
| `Cooldown.PruneKeeps` | bongus/engine/cooldown_manager.py:141-150 | Pruning keeps every row the leading activation of its scope |
| `Cooldown.RaiseKeeps` | bongus/engine/cooldown_manager.py:152-182 | So does taking an activation |
| `Cooldown.RowMeansBlocked` | bongus/engine/cooldown_manager.py:141-205 | A row is there exactly when some activation of its scope still runs, with the reason of the leading one |
| `Cooldown.RunIsConsistent` | bongus/engine/cooldown_manager.py:80-182 | In every run of commits with a clock that never goes back the rows agree with the history |
| `Cooldown.RunAnswers` | bongus/engine/cooldown_manager.py:196-205 | After every such run, restarted anywhere, the rows refuse exactly the symbols the whole history blocks, for the right reason |
| `Cooldown.MirrorsUnique` | bongus/engine/cooldown_manager.py:80-127 | Table and memory determine each other |
| `Cooldown.Manager.constructor` | bongus/engine/cooldown_manager.py:48-91 | A restart holds what the table held, pruned |
| `Cooldown.Manager.Prune` | bongus/engine/cooldown_manager.py:141-150 | Drops exactly what has expired from memory and table |
| `Cooldown.Manager.ActivateGlobal` | bongus/engine/cooldown_manager.py:152-161 | Takes an enabled, lasting activation into history and raises the row only when it reaches further; table and memory stay equal |
| `Cooldown.Manager.ActivateSymbol` | bongus/engine/cooldown_manager.py:163-182 | The same for one symbol in upper case; an empty symbol changes nothing |
| `Cooldown.Manager.IsGlobalActive` | bongus/engine/cooldown_manager.py:184-188 | True exactly when a global activation of the history still runs |
| `Cooldown.Manager.IsSymbolActive` | bongus/engine/cooldown_manager.py:190-194 | True exactly when an activation of the symbol still runs |
| `Cooldown.Manager.AllowSymbol` | bongus/engine/cooldown_manager.py:196-205 | Refuses exactly when some accepted global or same-symbol activation expires later than now, for the reason of the earliest one to reach the latest expiry, global first |
| `Cooldown.Manager.BlockedSymbols` | bongus/engine/cooldown_manager.py:207-216 | Exactly the asked symbols the gate refuses, each with its reason |
| `DatabaseRetention.SettledPromises` | bongus/engine/database_backup.py:452-533 | The newest and the protected generation survive, at most the count plus the protected one, and a positive budget is met or only newest and protected are left |
| `DatabaseRetention.SettledRemovesLeast` | bongus/engine/database_backup.py:520-533 | No cut that meets count and budget removes less |
| `DatabaseRetention.SettledUnique` | bongus/engine/database_backup.py:511-533 | Count, budget and protection settle on one cut only |
| `DatabaseRetention.SplitByCount` | bongus/engine/database_backup.py:511-518 | Splits a newest-first list into what the count or the protection keeps and the rest |
| `DatabaseRetention.PlanRemoval` | bongus/engine/database_backup.py:511-533 | The loops settle on that cut and remove exactly what does not survive it |
| `DatabaseBackup.RemovalKeepsIff` | bongus/engine/database_backup.py:569-575 | Deleting a manifest breaks no other; deleting its payload next breaks none exactly when no other verified manifest names that payload |
| `DatabaseBackup.PayloadFirstBreaks` | bongus/engine/database_backup.py:388-391 | Deleting the payload first breaks its own manifest |
| `DatabaseBackup.Folder.RemoveGeneration` | bongus/engine/database_backup.py:551-575 | Removes nothing unless manifest and payload are both there, then manifest before payload |
| `DatabaseBackup.Folder.RemoveInOrder` | bongus/engine/database_backup.py:535-579 | Removes the listed generations in order up to the first whose payload an earlier one took, with every state in between; the guard before the last generation never fires |
| `DatabaseBackup.LeftAfter` | bongus/engine/database_backup.py:535-579 | After any number of removals exactly the manifests not listed and the payloads no listed generation names are left |
| `DatabaseBackup.CompletesIff` | bongus/engine/database_backup.py:535-579 | A removal completes exactly when no two listed generations share a payload |
| `DatabaseBackup.OtherKeptIff` | bongus/engine/database_backup.py:535-579 | A verified generation outside the list stays verified exactly when no removed one named its payload |
| `DatabaseBackup.StepsKeep` | bongus/engine/database_backup.py:535-579 | Without shared payloads every state between two unlinks keeps every remaining verified manifest backed |
| `DatabasePublish.Collect` | bongus/engine/database_backup.py:480-507 | Every generation of the source that verifies, newest first |
| `DatabasePublish.OldestFirstMeans` | bongus/engine/database_backup.py:537-546 | The removal list is ordered oldest first and holds exactly the planned generations |
| `DatabasePublish.PruneVerifiedBackups` | bongus/engine/database_backup.py:452-579 | A missing protected manifest is an error; otherwise removes oldest first exactly the generations that do not survive, completing exactly when no two of them share a payload, with every state in between |
| `DatabasePublish.UnsharedPruneKeeps` | bongus/engine/database_backup.py:452-579 | Without shared payloads a prune completes and at every moment keeps every remaining manifest backed |
| `DatabasePublish.RollbackIff` | bongus/engine/database_backup.py:388-391 | The state between the two unlinks of a rollback advertises a missing payload exactly when the manifest was already published |
| `DatabasePublish.CreateVerifiedBackup` | bongus/engine/database_backup.py:350-393 | The states between all file operations, for every fault and all names; ends with its manifest in place, or with nothing under its two names; with new names a failure restores the directory and only the middle of a rollback of a published manifest advertises what is not there |
| `DatabasePublish.PublicationBreaksIff` | bongus/engine/database_backup.py:350-393 | With new names and a sound directory a state of a publication is broken exactly between the two unlinks of a rollback that found the manifest published |
| `DatabasePublish.OverwriteKeepsIff` | bongus/engine/database_backup.py:350-352 | Writing a payload name in use breaks no manifest exactly when every manifest that names it has the same content |
| `DatabaseRestore.Volume.ReplaceDatabaseFile` | bongus/engine/database_backup.py:612-672 | Until the new content is in place the old one is under its own or the rollback name |
| `DatabaseRestore.Volume.Quarantine` | bongus/engine/database_backup.py:744-783 | A corrupt target and its log, as found or already checkpointed, are moved or copied aside before they are touched |
| `DatabaseRestore.Volume.RestoreVerifiedBackup` | bongus/engine/database_backup.py:675-831 | At every moment of a restore the previous content is in the target, the rollback name, a pre-restore backup or the quarantine, also when a target was checkpointed and then found corrupt; success holds the backup |
| `Quantile.SortDominates` | bongus/engine/cost_calibration.py:176-188 | Sorting keeps pointwise domination |
| `Quantile.InterpolateBounds` | bongus/engine/cost_calibration.py:176-188 | An interpolated quantile lies between the bounds of its values |
| `Quantile.QuantileGrows` | bongus/engine/cost_calibration.py:176-188 | Raising values never lowers a quantile |
| `Quantile.QuantilePermutes` | bongus/engine/cost_calibration.py:176-188 | A quantile does not depend on the order of values |
| `Calibration.MixIsConvex` | bongus/engine/cost_calibration.py:361-373 | The mixture of symbol and regime parents is convex with a weight of counts only |
| `Calibration.AttributionIsExact` | bongus/engine/cost_calibration.py:288-310 | The five component means sum exactly to the total mean after all shrinkage and mixing |
| `Calibration.EstimatesAreObserved` | bongus/engine/cost_calibration.py:347-406 | Mean and quantile estimates lie between the least and greatest observed value |
| `Calibration.EstimatesRise` | bongus/engine/cost_calibration.py:347-406 | Raising observed costs never lowers a mean or quantile estimate |
| `Calibration.EstimatesIgnoreOrder` | bongus/engine/cost_calibration.py:347-406 | Estimates do not depend on the order of samples |
| `Calibrator.CostMarkoutCalibrator.AddObservation` | bongus/engine/cost_calibration.py:218-227 | Adds a new sample, ignores an exact duplicate, refuses a collision unchanged |
| `Calibrator.CostMarkoutCalibrator.AddObservations` | bongus/engine/cost_calibration.py:229-233 | Gathers samples until one collides, exactly when they are incompatible |
| `Calibrator.CostMarkoutCalibrator.Predict` | bongus/engine/cost_calibration.py:253-345 | Nothing without samples, an error for an empty dimension, otherwise the promised prediction with the count of every bucket and the weight of the exact one |
| `Calibrator.ComponentsSum` | bongus/engine/cost_calibration.py:288-310 | The component means of a prediction sum to its mean |
| `Calibrator.ConservativeIsSafe` | bongus/engine/cost_calibration.py:312-322 | The conservative cost is at least zero, the mean and the quantile estimate |
| `Calibrator.GatheringIgnoresOrder` | bongus/engine/cost_calibration.py:218-233 | The same samples in any order and with repeats gather to the same dictionary |
| `Calibrator.SamplesDecide` | bongus/engine/cost_calibration.py:218-345 | Two calibrators fed the same samples predict the same |
| `RateLimiter.TokensStayInRange` | utils/rate_limiter.py:12-18 | Tokens stay between zero and the capacity in every run |
| `RateLimiter.GrantsAreBounded` | utils/rate_limiter.py:12-30 | Any stretch of passes is granted at most the capacity plus rate times its time |
| `RateLimiter.BelowOneNeverGrants` | utils/rate_limiter.py:12-26 | With capacity below one no pass is ever granted |
| `RateLimiter.WaitIsExact` | utils/rate_limiter.py:20-30 | After a refused pass the next one is granted exactly when the computed wait is over |
| `RateLimiter.NoIncome` | utils/rate_limiter.py:12-18 | With a rate that is not positive nothing comes back |
| `RateLimiter.AcquireReturnsIff` | utils/rate_limiter.py:20-30 | For every rate, an acquisition is granted exactly when there is room for a token and either income or a token to begin with, by its second pass, and at its first where there is no income |
| `RateLimiter.TokenBucketRateLimiter.Acquire` | utils/rate_limiter.py:20-30 | For every rate and capacity: granted at once, or by one sleep of the computed wait where it can return, a division by zero at the first refused pass with a zero rate, and waiting for ever otherwise |
| `WalkForward.MaxDrawdown` | scripts/walk_forward.py:183-191 | One pass computes the greatest fall over all pairs of earlier and later prefix sums |
| `WalkForward.WindowsBound` | scripts/walk_forward.py:360-373 | The drawdown of the concatenated path is at least that of every window and at most their sum |
| `WalkForward.WindowSlices` | scripts/walk_forward.py:162-180 | Exactly the windows that fit, one every step |
| `WalkForward.WindowsAreSound` | scripts/walk_forward.py:162-180 | Each window is in bounds with contiguous train, embargo and test rows |
| `WalkForward.TestsApartIff` | scripts/walk_forward.py:162-180 | With two windows tests are disjoint exactly when the step is no shorter than the test |
| `WalkForward.SelectOnTrain` | scripts/walk_forward.py:246-276 | Chooses the first candidate no other beats |
| `WalkForward.EarlyRowsAgree` | scripts/walk_forward.py:335-356 | Two frames with the same rows before a cutoff, no two of one time, sort to the same leading rows wherever the later rows are listed |
| `WalkForward.SelectionSeesOnlyEarlier` | scripts/walk_forward.py:246-356 | Rows dated after a training window, wherever the frame lists them, change neither its rows nor the choice |
| `WalkForward.CheckFolds` | scripts/walk_forward.py:98-126 | Accepts exactly purged folds that follow each other |
| `WalkForward.FoldsAreOrdered` | scripts/walk_forward.py:98-126 | The tests of accepted folds are ordered pairwise, and the training data of each lies before its test and every later one |
| `AccountTruth.ReadRow` | bongus/engine/account_truth.py:119-290 | Reads every field of a row; the shared list grows exactly when one is absent |
| `AccountTruth.ReadRows` | bongus/engine/account_truth.py:79-89 | The list grows exactly when the value is no list or a member is no mapping |
| `AccountTruth.ReadTable` | bongus/engine/account_truth.py:119-290 | Both together for a list of rows |
| `AccountTruth.TableIsGapless` | bongus/engine/account_truth.py:119-290 | A complete table has no gap in any row and a row for every member |
| `VenueTruth.NormalizeSpot` | bongus/engine/account_truth.py:119-290 | The spot list of missing fields stays empty exactly when the spot evidence is complete |
| `VenueTruth.SpotHasNoGaps` | bongus/engine/account_truth.py:119-290 | Complete spot evidence leaves no gap at any depth |
| `FuturesTruth.HeldMeans` | bongus/engine/account_truth.py:92-116 | A key is held exactly when some row with a non-zero amount has it, by the first such row |
| `FuturesTruth.NonzeroPositionRows` | bongus/engine/account_truth.py:92-116 | The list grows exactly when a row is unreadable or a key is held twice |
| `FuturesTruth.JoinPositions` | bongus/engine/account_truth.py:356-409 | Joins both projections; the list grows exactly when a key is in one only or a field is absent |
| `FuturesTruth.NormalizeFutures` | bongus/engine/account_truth.py:293-460 | The futures list of missing fields stays empty exactly when the futures evidence is complete |
| `FuturesTruth.FuturesHasNoGaps` | bongus/engine/account_truth.py:293-460 | Complete futures evidence leaves no gap at any depth |
| `FuturesTruth.ProjectionsAgree` | bongus/engine/account_truth.py:345-366 | Every position is held by exactly one row of each projection |
| `FuturesTruth.NormalizeBinanceAccountTruth` | bongus/engine/account_truth.py:507-556 | The statuses of account and venues from completeness and age |
| `FuturesTruth.CompleteMeansWhole` | bongus/engine/account_truth.py:526-556 | A complete account has complete, fresh venues without any gap |
| `TruthEvidence.SpotIsGrounded` | bongus/engine/account_truth.py:39-290 | Whatever the snapshot, every decimal of the spot truth, at any depth, was parsed from a value that stands in it |
| `TruthEvidence.FuturesIsGrounded` | bongus/engine/account_truth.py:39-460 | The same for the futures truth, the margin ratio being a quotient of two such numbers |
| `TruthEvidence.ZeroIsNeverInvented` | bongus/engine/account_truth.py:39-460 | A snapshot in which nothing parses to zero shows no zero, however much of it is missing |
| `ReleaseManifest.TakeInventory` | scripts/release_manifest.py:818-838 | One record for every file but the two control files, with byte totals |
| `ReleaseManifest.CreateManifest` | scripts/release_manifest.py:733-896 | Writes the manifest of an acceptable package within the size limit |
| `ReleaseManifest.GatherRecords` | scripts/release_manifest.py:928-944 | Accepts exactly inventories of safe, distinct paths |
| `ReleaseManifest.VerifyManifest` | scripts/release_manifest.py:899-1068 | Accepts exactly trees that match the manifest in files, counts and fields |
| `ReleaseManifest.CreateThenVerifyIff` | scripts/release_manifest.py:733-1068 | A tree is accepted with its own manifest exactly when no name holds a backslash, the Rust toolchain is not blank, and a Windows signature scheme and fingerprint agree with the thumbprint |
| `ReleaseManifest.AcceptedTreeIsTheSame` | scripts/release_manifest.py:928-956 | Any tree accepted with a manifest has the same path-to-content map outside the control files |

## Left out

- SQLite, the online backup, fsync, permissions, links and reparse points, subprocesses: foreign
  behaviour, reduced to atomic renames, unlinks and "content verifies".
- Hashes and signatures: a hash is the content itself; nothing cryptographic is claimed.
  Production release signatures and the wheelhouse lock writer are not modelled.
- Floating-point rounding, decimal precision, JSON text, and integers too large for a float.
- Rust generation internals beyond ownership and the timestamp window.
- Strategy, decision engine, event replay, dashboards, collectors and command lines: not part of
  this model, or easy members only.
- The watcher thread beyond its load step, and the reload callback.
- Cooldowns without a table: the same object with nothing to persist.
- Release paths are sequences of names, so the textual form of a path is not parsed.
- Text is ASCII for upper and lower case.
- EstimatesRise: raising a cost is stated as two measurements of the same samples, the second
  nowhere smaller; symbol, market, route and regime stay.
- SelectionSeesOnlyEarlier: asks that no two early rows have one time, since the order of such
  rows after the sort is not promised.
- Reconcile: the messages of issues and the sorted order of the report's lists are not modelled.
- The order of a file's entries is reduced to what it decides: whether an overflowing entry comes
  before every refused one.
