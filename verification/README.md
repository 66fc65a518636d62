# Verification of the Tinyhat local state machinery

Dafny models of the parts of the repository that keep durable state right through crashes, concurrent workers
and partial failure, with proofs over every input, every run or every reachable state. `dafny verify
dfyconfig.toml` checks the whole project.

## What is modelled

- `Lifecycle`, and `LifecycleInvariant`, `LifecycleFrames`, `LifecycleSafety`, `LifecycleProgress`,
  `LifecycleSuperseded`, `LifecycleDurability`, `LifecycleReceipts`, `LifecycleRecovery` and `LifecycleTwoWorkers`
  about it: the Google account lifecycle as a transition system. A state is the lifecycle lock, the
  processes, and the world that they share: the account store, the two active markers, install receipts,
  disconnect directories with their receipts, and what the platform knows. There is one step for each lock
  acquisition, file write and platform call, a crash step for every process at every point, and steps that start
  or resume any number of workers. A process holds the lock exactly at the points where the code does. The state
  also records history (which handoff made a credential, under which assignment a deletion matched, what was
  acknowledged, deleted, cancelled and noticed) that no step reads, except to give each grant a connection time of
  its own.
- `AccountStore`: the account list with its guards, uniqueness checks and fingerprints.
- `Disk`, `Transaction`, `Releases`, `AppManager`, `AppRecovery`, `AppRetirement`, `AppUninstall` and `AppUpgrade`:
  the managed-binary installer over a file system of paths, with renames and unlinks that happen, raise or die at
  every point, and are counted when they do; its recovery; the uninstaller; and the operations of an upgrade one
  by one.
- `SupersessionGraph`, `ScopeManifest`, `ScopeLoader` and `ScopeExample`: the cycle check, the worklist closure,
  scope normalisation and resolution for any manifest that the validator accepts, the validator's checks, and a
  manifest that it accepts.
- `AuthResults` and `OwnerMail`: splitting Authentication-Results (section 2.2 of RFC 8601, with the quoted strings
  and comments of sections 3.2.4 and 3.2.2 of RFC 5322), and the verdict on a message.
- `Ledger`, `OwnerInbox` and `OwnerHandoff`: the mail ledger with its budgets, the paged and incremental mailbox sync
  (sections 5.5 and 5.6 of RFC 8620), and pollers that hand stored mail over to the runtime.
- `ContextPacking`: cutting the onboarding context to its cap.
- `SkillInstaller` and `HatSecrets`: the all-or-nothing skill install, and the encrypted store with its rename.
- `Text`: trimming, ASCII and the string order that the others share.

## Assumptions

- An atomic replace or unlink happens, or raises without effect. The renames and unlinks of an undo path raise where
  a fault says so (`Transaction`, `SkillInstaller`, `HatSecrets`).
- An accept that raises has not taken the message; a write to the ledger that raises has no effect.
- A process can be killed between any two steps; the file lock goes with it. Removing a disconnect directory can
  end with either of its two files gone.
- Handoff ids and intent ids are fresh. The platform never issues a connection id twice. An intent is confirmed
  only after it is activated, and a deletion claim may be repeated until the intent is terminal.
- Two grants decrypted on one Computer have different connection times.
- A credential entry that is normalised is normalised as it is.
- The targets of one transaction are distinct, as those of its only caller are. With one target listed twice the
  undo could not restore the original (`Transaction.DuplicateTargetsLoseOriginal`).
- Fingerprints and SHA-256 are injective; a sealed chunk opens under the private key of its own pair only. The
  text of a manifest that was cut short does not parse.
- The name of a quarantine entry is new, and so is that of a stage file.
- A JMAP server answers a page with exactly the asked number of entries unless its list ends, lists everything
  that is new in a change answer, and during a listing only inserts, or removes entries as `DestroyKeepsIff`
  allows.

## What turned out not to hold

Each of these keeps the code as it is, with a concrete run or input and the exact condition beside it.

- Durable completion with two workers of one intent. Resuming starts a worker for every directory with a receipt,
  whether or not one is alive, and a launch by systemd-run that times out is followed by a second launch. The
  second worker finds the marker gone, takes itself for superseded and removes the directory
  (`TwoWorkersLoseCompletion`; condition for a step `DurableIff`, for a run `DurableCompletion`).
- Install receipts with two workers of one handoff: the second install overwrites the receipt of the first
  (`TwoWorkersLoseInstallReceipt`; condition for a step `CoveredIff`, for a run `InstallReceiptsKept`).
- Crash recovery with two trusted releases of different binaries: a kill between the two renames of an upgrade
  leaves the old manifest over the new binary, and recovery does not repair it (`UpgradeWindowStuck`,
  `OlderReleaseSettled`; condition `CrashRecoveryIff`). The shipped table has one release, for which
  `OutcomesWithOneBinary` applies.
- Handing a message over at most once: the row is written after accept has returned, so a kill or a put that raises
  in between makes the next round hand it over again, under the same key (`KillsHandOverAgain`,
  `FailedPutHandsOverAgain`; conditions `AcceptsBounded`, `HandedOverAgainIff`). Likewise only committed failures
  count towards the five (`FailuresUncounted`; condition `FailuresBounded`).
- Restoring the prior files on any exception: when removing one backup raises after others were removed, the
  except clause deletes the new files whose originals are gone already (`RestoredIff` has the condition;
  `LostBinary` for the two files of an install).
- Union absorption and idempotence: the ASCII check looks at the requested text and not at what its alias names,
  so an alias of a non-ASCII scope passes once and is refused the second time (`AbsorptionCanFail`; condition
  `UnionAbsorption`). The aliases of the shipped manifest name ASCII urls, for which `AsciiAliasesAbsorb` applies.
- Skill install under an interrupt such as KeyboardInterrupt, which the handler does not catch while the clean-up
  still deletes the backups (`InterruptLosesOriginal`; conditions `WithoutBackups`, and `InterruptedUndo` for one
  that comes during the undo). A failure to write the state file comes after the swap and is not undone;
  `InstallHatSkills` has it as an outcome of its own.
- Store rename when another process re-creates the old directory before the rollback, or with key files of two
  pairs (`StrandedLosesValues`, `MismatchedKeysLoseValues`; conditions `RenameFails`, `RenameSucceeds`).
- No missed mail when an entry already passed leaves the list during the first listing
  (`RemovalBehindLosesMail`; condition `DestroyKeepsIff`).
- MAX_AUTH_HEADER_BYTES (capabilities/mail/channel_state.py:11) limits characters, not bytes; the model counts
  characters.

## Model

| member | source | states |
|---|---|---|
| LifecycleSafety.NoFalseCompletion | capabilities/google_workspace/connection.py:3023-3264 | once any run has an intent as disconnected on the platform, the deletion was claimed, the intent stays disconnected, and over every continuation the store never holds the credential generation the intent was prepared for |
| LifecycleSafety.NoResurrection | capabilities/google_workspace/connection.py:3168-3233 | after a confirmed disconnect has removed a credential, no continuation of the run (installs, refreshes, renewal marks, crashes, any number of workers) has its connection in the store again |
| LifecycleSafety.OnlyLaterHandoffsInstall | capabilities/google_workspace/connection.py:3584-3592 | after such a removal, a handoff that can begin an install or save a credential was not yet known when the credential was removed |
| LifecycleSafety.DeletionIsDisciplined | capabilities/google_workspace/connection.py:3168-3233 | in every reachable state, a worker about to delete holds the lock, its marker is in place, the store holds exactly the targeted generation under the assignment that the section matched, delete_pending was recorded, the deletion is claimed and the active handoff is cancelled; the deletion takes that credential and no other |
| LifecycleSafety.MatchedMeans | capabilities/google_workspace/connection.py:3141-3199 | the delete section goes on towards a deletion if and only if the marker, the generation and the assignment all match, and towards a completion without deletion if and only if the marker matches and the credential is absent |
| LifecycleSafety.SectionsAreIsolated | capabilities/google_workspace/connection.py:3501-3520 | while one process holds the lifecycle lock, a step of any other process leaves that process, the store, both markers, the receipts, the claims and all generations as they were |
| LifecycleSafety.StoreChangesAreGuarded | capabilities/google_workspace/connection.py:4250-4321 | every step of the whole system changes the account store by one of its own operations with that operation's guard satisfied, or not at all |
| LifecycleSafety.StoresStayUnique | capabilities/google_workspace/connection.py:4461-4475 | connection ids and Google subjects are unique in every store that a run can reach |
| LifecycleSafety.RefreshIsCurrent | capabilities/google_workspace/connection.py:5401-5440 | a token refresh or renewal mark changes only the very account that was read, and tokens are saved only under the current assignment |
| LifecycleSafety.InstallIsDisciplined | capabilities/google_workspace/connection.py:4239-4321 | in every reachable state a handoff begins only as the active one with a grant of the current assignment, and saves only under the lock, with its receipt for exactly that credential on disk, what its add or replace guard allows in the store as it is then |
| LifecycleInvariant.StepKeeps | capabilities/google_workspace/connection.py:2218-3410 | every platform, crash, worker, install, refresh and recovery step keeps the system invariant, and what was claimed, settled, acknowledged, deleted or cancelled is never undone |
| LifecycleInvariant.RunKeeps | capabilities/google_workspace/connection.py:2218-3410 | the same over whole runs |
| LifecycleDurability.DurableCompletion | capabilities/google_workspace/connection.py:2685-2770 | for every run, with crashes at any point and any number of workers: throughout the run every removed credential whose intent the platform has not settled has its intent file and a receipt with outcome disconnected on disk, if and only if no step of the run is one of the three that `DurableIff` names |
| LifecycleDurability.OneWorkerIsEnough | capabilities/google_workspace/disconnect_worker.py:61-135 | if no worker of an intent is started while another one is alive, no such step is ever possible, wherever the workers die, and no expiry is written over another receipt |
| LifecycleDurability.DurableIff | capabilities/google_workspace/disconnect_worker.py:61-135 | for any number of workers, a step makes a completion unrecoverable if and only if it is a worker's exit that removes an owed directory, an expiry recorded for an owed intent, or a removal whose own receipt is not on disk |
| LifecycleDurability.ReceiptsForwardIff | capabilities/google_workspace/connection.py:2685-2738 | for any number of workers, a receipt that is there before and after a step keeps its outcome and only moves from delete_pending to completion_pending, unless and only unless the step writes an expiry over the receipt of a removal |
| LifecycleTwoWorkers.TwoWorkersLoseCompletion | capabilities/google_workspace/connection.py:3345-3410 | for any credential there is a run from the empty system in which two workers of one intent lead to its removal, an intent that the platform still has as confirmed, and no directory left |
| LifecycleTwoWorkers.SecondWorkerLosesReceipt | capabilities/google_workspace/connection.py:3030-3037 | in any state whatever, a polling worker whose marker is gone can remove a directory that is still owed a completion |
| LifecycleReceipts.CoveredIff | capabilities/google_workspace/connection.py:4303-4321 | for any number of workers, a step leaves a stored credential with neither acknowledgement nor receipt if and only if it begins a second install of a handoff whose receipt stands for a credential in the store |
| LifecycleReceipts.InstallReceiptsKept | capabilities/google_workspace/connection.py:4239-4321 | for every run, with crashes at any point and any number of workers: throughout the run every stored credential is acknowledged or has an install receipt for exactly its lineage, if and only if no step of the run is the one that `CoveredIff` names |
| LifecycleReceipts.OneInstallerIsEnough | capabilities/google_workspace/connection.py:4239-4321 | if no second worker that could install is started for a handoff, that step never happens, wherever the workers die |
| LifecycleReceipts.NoConnectionMeanwhile | capabilities/google_workspace/connection.py:1533-1546 | after a run in which no second install begins over an unacknowledged first (the condition of `InstallReceiptsKept`), a new connection may start only when every credential in the store is acknowledged |
| LifecycleReceipts.AcknowledgedWhileHeld | capabilities/google_workspace/connection.py:4161-4223 | in every reachable state, installed=true is sent only under the lock and only while the store holds the lineage that the receipt records |
| LifecycleReceipts.ReadyNoticeAtMostOnce | capabilities/google_workspace/connection.py:4161-4223 | the ready notice of a handoff is sent at most once in any run, with any number of workers, acknowledging processes and crashes |
| LifecycleTwoWorkers.TwoWorkersLoseInstallReceipt | capabilities/google_workspace/connection.py:4303-4321 | for any three grants of one Google account there is a run in which two workers of one handoff leave a stored credential without acknowledgement and without receipt |
| LifecycleRecovery.CompletionCanBeResumed | capabilities/google_workspace/connection.py:3345-3410 | after any run with any number of workers, a completion that is owed and has its receipt can be finished, once the lock is free, by one new worker of the resume path, which settles the intent and leaves the store alone |
| LifecycleRecovery.FromResuming | capabilities/google_workspace/connection.py:2741-2770 | a delete_pending receipt whose credential is gone is re-claimed, promoted and completed |
| LifecycleRecovery.InstallCanBeAcknowledged | capabilities/google_workspace/connection.py:4128-4223 | after any run with any number of workers, a credential of the current assignment that has its receipt can be acknowledged, once the lock is free, by one new process, which leaves the store alone |
| LifecycleSuperseded.SupersededHandoffNeverInstalls | capabilities/google_workspace/connection.py:3527-3568 | a handoff that has lost its marker, with no process of it starting or saving, never begins an install or saves a credential in any continuation |
| LifecycleSuperseded.SupersededDisconnectNeverDeletes | capabilities/google_workspace/connection.py:2299-2316 | an intent that has lost its marker never deletes a credential in any continuation |
| LifecycleSuperseded.NewConnectionSupersedes | capabilities/google_workspace/connection.py:1631-1646 | when a new connection becomes active, its marker is the one in place, no other handoff can install, and no disconnect can delete |
| LifecycleFrames.HandoffMarkerMoves | capabilities/google_workspace/connection.py:3527-3568 | any step of the whole system ends handoff g as the active one if and only if it is g's own exit or acknowledgement, the activation of another handoff, the cancellation in a claimed deletion, a wipe, or the clean-up after an assignment change; and a handoff becomes the active one by its own activation only |
| LifecycleFrames.ActiveHandoffStays | capabilities/google_workspace/connection.py:3527-3568 | over any run without such a step, whoever else gives up, fails or dies, the active handoff stays the active one |
| LifecycleFrames.DisconnectMarkerMoves | capabilities/google_workspace/connection.py:2299-2316 | any step ends an intent as the active disconnect if and only if it is one of its own worker's withdrawals, the mark of another intent, the start of a new connection, giving up or sweeping its start, a wipe, or the clean-up after an assignment change; and it becomes active by the mark of its own start only |
| LifecycleFrames.ActiveDisconnectStays | capabilities/google_workspace/connection.py:2299-2316 | over any run without such a step the active disconnect stays the active one |
| LifecycleFrames.InstallReceiptMoves | capabilities/google_workspace/connection.py:4128-4250 | an install receipt appears or changes only when a worker of its handoff begins, and holds that credential's lineage; it goes if and only if its own save failed, its own acknowledgement or check retired it, it was wiped, or an old assignment was cleaned up |
| LifecycleFrames.DirectoryMoves | capabilities/google_workspace/connection.py:2685-2738 | what every step makes of an intent's directory: made by its start, its receipt written by its own worker only and only where it may be, removed by its worker's exit, its start given up or the sweep, and otherwise untouched |
| LifecycleFrames.IntentMoves | capabilities/google_workspace/connection.py:3023-3264 | every step keeps an intent's credential and generation; its status changes by the platform's steps and its own worker's reports only; it is claimed if and only if a claim of its own worker arrived while it was confirmed |
| LifecycleFrames.SentMoves | capabilities/google_workspace/connection.py:4161-4223 | installed=true reaches the platform by a claim, or one that failed after it was sent, and a ready notice is sent by the one step after the receipt is retired |
| LifecycleFrames.RemovalMoves | capabilities/google_workspace/connection.py:3168-3233 | a credential counts as deleted, with all handoffs known by then cancelled, by the removal step and no other |
| LifecycleFrames.StoreMoves | capabilities/google_workspace/connection.py:4250-4321 | every step of the whole system leaves exactly this store: the saved credential set, the new tokens or the renewal mark of the one account that was read, the targeted account gone, everything cleared away, or no change |
| LifecycleFrames.HistoryMoves | capabilities/google_workspace/connection.py:3141-3199 | the history that the other results speak of is kept as they say: which handoff a connection time belongs to, under which assignment a section matched, and for which intents delete_pending was on disk |
| LifecycleFrames.HandoffGoes | capabilities/google_workspace/connection.py:4128-4321 | a process of a handoff acknowledges exactly after a promoted install, claims exactly a receipt whose credential is stored under the current assignment, gives up in exactly the stated cases, and is gone by its exit or activation only |
| LifecycleFrames.WorkerEnds | capabilities/google_workspace/connection.py:3023-3264 | which way a disconnect worker goes out: for good if it was superseded, mismatched, refused, settled or done; for now if a claim or report did not come through; undecided on an exception or a receipt that it may not write over; and in no other case |
| LifecycleFrames.ExitMeans | capabilities/google_workspace/disconnect_worker.py:61-135 | the exit removes the directory if and only if the worker ended for good, or undecided with no receipt there |
| LifecycleProgress.HandoffCanFinish | capabilities/google_workspace/connection.py:4239-4321 | after any run, once the lock is free, one new worker of the active handoff can install any grant that it may install, acknowledge it and send the notice; afterwards its receipt and marker are gone and everything else is as it was |
| LifecycleProgress.ConnectionCanStart | capabilities/google_workspace/connection.py:1533-1646 | with no receipt outstanding and the lock free a new connection can be started, and is then the active one, with no disconnect active |
| LifecycleProgress.DisconnectCanStart | capabilities/google_workspace/connection.py:2218-2316 | with the lock free a disconnect of any stored account of the current assignment can be started, and is then the active one, for exactly that credential |
| LifecycleProgress.DisconnectCanFinish | capabilities/google_workspace/connection.py:3023-3264 | after any run, once the lock is free, one new worker of a confirmed active disconnect can carry it out: the targeted credential, if it is there, is gone and no other is, the intent is settled, and neither its directory nor its marker is left |
| LifecycleProgress.SettledIsCleared | capabilities/google_workspace/connection.py:3023-3110 | one new worker of an intent that is settled already leaves neither its directory nor its marker, and changes nothing else |
| LifecycleProgress.ExpiryCanFinish | capabilities/google_workspace/connection.py:3023-3410 | one new worker whose time has run out can record that, end the intent and leave nothing; so can the next one if it died after recording it |
| LifecycleProgress.RefreshCanPersist | capabilities/google_workspace/connection.py:5186-5440 | one new process can save new tokens for any stored account of the current assignment that is not marked for renewal: the new access token, expiry, Bearer type and rotated refresh token are in, and nothing else of the account or the system changes |
| LifecycleProgress.NobodyIsStuck | capabilities/google_workspace/connection.py:3023-3410 | in every reachable state every process of a handoff or a disconnect has a step of its own, unless another process has the lock |
| AccountStore.GuardsSuffice | capabilities/google_workspace/connection.py:4264-4302 | on a valid store the add, replace, refresh, renewal and delete guards are sufficient for the save never to fail its uniqueness checks, the store stays valid, and no other account changes |
| AccountStore.ReachableStoresValid | capabilities/google_workspace/connection.py:4461-4500 | every store reachable by guarded operations is valid and no save on the way was refused |
| AccountStore.RefreshKeepsLineage | capabilities/google_workspace/connection.py:5433-5508 | a token refresh sets the access token, the expiry, the Bearer type and a rotated refresh token and no other field; it keeps the install fingerprint; it keeps the disconnect fingerprint if and only if the refresh token is not rotated to another one, and the refresh fingerprint if and only if, besides, the token type was Bearer already |
| AccountStore.FingerprintsMean | capabilities/google_workspace/connection.py:5443-5498 | which credentials have the same install, refresh and disconnect fingerprint |
| AccountStore.SubjectsOfList | capabilities/google_workspace/connection.py:4461-4475 | the uniqueness check on the stored list is uniqueness in the map of accounts that the list stands for |
| AccountStore.AccountFile.SaveAccounts | capabilities/google_workspace/connection.py:4461-4484 | a list is normalised, refused if an entry is not in order or an id or subject is repeated, and otherwise written in the order of the ids; a refused list leaves the file alone |
| AccountStore.DocumentReadsBack | capabilities/google_workspace/connection.py:4586-4598 | round trip: what was written is read back as it is |
| AccountStore.DocumentIgnoresOrder | capabilities/google_workspace/connection.py:4461-4476 | lists with the same entries are written as the same document |
| AccountStore.AccountFile.Upserted | capabilities/google_workspace/connection.py:4487-4499 | the upsert loop gives the list of the updated map |
| AccountStore.AccountFile.SaveCredential | capabilities/google_workspace/connection.py:4487-4500 | the accounts become the old ones with the normalised entry set; they stay the same if it is not in order or would repeat a subject |
| AccountStore.AccountFile.DeleteConnection | capabilities/google_workspace/connection.py:4929-4952 | exactly the named account goes, and an absent one is an error |
| AccountStore.AccountFile.MayAdd | capabilities/google_workspace/connection.py:4285-4300 | the loop over the accounts decides the add guard |
| Transaction.TransactionalInstall | capabilities/google_workspace/app_manager.py:874-929 | for any number of distinct targets, with given faults of the clean-up and of the undo: success leaves every new file in place; an exception leaves every target with its prior bytes or prior absence and no stage file, if no backup was gone yet and no operation of the undo raises, and otherwise what is left to restore; a kill leaves a torn state of that; it finishes if and only if no operation fails |
| Transaction.CommitAll | capabilities/google_workspace/app_manager.py:893-906 | the swap loop, failing or dying at any rename, with the targets before the failure in place and the later ones untouched; if putting a target back raises its original stays in the backup |
| Transaction.UndoCommitted | capabilities/google_workspace/app_manager.py:910-916 | undoing the committed targets, last first, restores each, or, where its rename or unlink raises, leaves exactly that undone and goes on; a kill in between leaves a torn state |
| Transaction.Rollback | capabilities/google_workspace/app_manager.py:910-922 | the whole except clause restores what is left to restore, and removes every stage file that can be removed |
| Transaction.CleanBackups | capabilities/google_workspace/app_manager.py:907-909 | removing the backups after the commit: if that raises at an item, exactly the earlier items' backups are gone; a kill in between is a torn state |
| Transaction.RestoredIff | capabilities/google_workspace/app_manager.py:907-922 | after an exception that comes when the backups of the first k items are gone, everything is restored if and only if none of those k had an original; those that had one are lost with their new files, and all others are as before |
| Transaction.OriginalsConserved | capabilities/google_workspace/app_manager.py:893-922 | whatever raises in the undo, an original whose backup was still there is at its target, or, if the rename back raised, in its backup |
| AppRecovery.RecoverInterruptedInstall | capabilities/google_workspace/app_manager.py:721-757 | recovery finishes if and only if no operation fails and the manifest in place, if there is one, is accepted; what it has then made of any file system whatever; and what it keeps of a governing manifest or a pending install if it is stopped anywhere |
| AppRecovery.RestoreManifestBackup | capabilities/google_workspace/app_manager.py:759-767 | a missing manifest is back from an accepted backup if there is one, and nothing else changes; it finishes if and only if no operation fails |
| AppRecovery.AdoptStagedManifest | capabilities/google_workspace/app_manager.py:769-782 | a staged manifest becomes the manifest if and only if there is an accepted one of which everything it lists is in place as recorded |
| AppRecovery.RecoverRecord | capabilities/google_workspace/app_manager.py:743-752 | a missing target is back if and only if a backup matches its record, a present one is untouched, and matching backups and stage files go if and only if the target matches |
| AppRecovery.RemoveOrphans | capabilities/google_workspace/app_manager.py:730-740 | what a first install left without a manifest: the pinned binary, its own leftovers and accepted staged manifests are removed, all of them, and nothing else |
| AppRecovery.AbsentMeans | capabilities/google_workspace/app_manager.py:726-740 | a first install that did not commit its manifest is after recovery the complete installation, if a staged manifest can be adopted, and otherwise gone without a trace |
| AppRecovery.PresentMeans | capabilities/google_workspace/app_manager.py:742-757 | recovery over an accepted manifest keeps it, removes every other accepted copy, and has the binary in place if and only if it or a backup of it was sound |
| AppManager.TornFromInstalled | capabilities/google_workspace/app_manager.py:721-929 | killed over an installation: the new manifest governs and is sound, or the old one governs, and is sound exactly unless a different pinned binary already sits at the target |
| AppManager.TornFromAbsent | capabilities/google_workspace/app_manager.py:721-929 | killed over nothing: a sound new installation, or a pending one with no manifest |
| AppManager.TornSurvivable | capabilities/google_workspace/app_manager.py:874-929 | whatever an install killed at any step leaves over a settled state can be survived |
| AppManager.RecoveryKeeps | capabilities/google_workspace/app_manager.py:721-757 | a recovery, finished or killed, keeps such a state survivable, and a finished one settles it |
| AppManager.InstallLocked | capabilities/google_workspace/app_manager.py:384-416 | it finishes if and only if no operation fails, the preflight passes and every legacy skill can be removed or moved; it refuses a manifest that is not accepted, a modified managed binary or an unmanaged file without touching anything; done is the new installation; from a settled state, an exception ends in the state from before and a kill in a survivable state, unless an operation of the undo raises, or the manifest's backup, and no other, cannot be removed; the originals are in place or in their backups, apart from a binary lost in that way; and every listed skill is still in place, or matched its record, or has its bytes in quarantine |
| AppManager.SettledPasses | capabilities/google_workspace/app_manager.py:848-871 | over a settled state the preflight never refuses |
| AppManager.DeclinedMeans | capabilities/google_workspace/app_manager.py:848-871 | an install is declined if and only if a manifest in place is not accepted, or a file is where the binary goes that is not the listed one |
| AppManager.LostBinary | capabilities/google_workspace/app_manager.py:907-922 | after the exception in that one case the manifest is as before, there is no binary, neither in place nor in its backup, and the next install's preflight passes |
| AppManager.InstallDiesThenRecover | capabilities/google_workspace/app_manager.py:377-416 | with an undo whose operations do not raise: an install that ends or is killed anywhere, recovery killed any number of times, then one finished recovery end in the new installation, in what was there before, or, with another pinned binary, in the stuck state; only if the manifest's backup could not be removed can the binary be lost, and then a manifest still governs |
| AppManager.RecoverSurvivable | capabilities/google_workspace/app_manager.py:721-757 | over whatever an install can leave, a recovery finishes if and only if no operation fails, and one that does not leaves a state that the next can take up |
| AppManager.OutcomesWithOneBinary | capabilities/google_workspace/app_manager.py:721-802 | if the installed record pins the binary being installed, the result is installed or absent, and an installation that was present is present again |
| AppUpgrade.UpgradeWindowStuck | capabilities/google_workspace/app_manager.py:874-909 | for every installation whose record pins another binary than the one being installed, the fifth operation of the upgrade leaves a state that no recovery changes: the old manifest governs a binary that it does not pin |
| AppUpgrade.CrashRecoveryIff | capabilities/google_workspace/app_manager.py:721-929 | wherever an upgrade dies, after any number of its operations or in any torn state, it leaves what the recovery repairs, if and only if the installed record pins the binary being installed |
| AppUpgrade.KillsAreTorn | capabilities/google_workspace/app_manager.py:874-909 | the files after any number of the upgrade's ten operations are in one of the torn states |
| AppUpgrade.OlderReleaseSettled | capabilities/google_workspace/app_manager.py:1022-1082 | a table of two trusted releases and an installation of the older one to which the above applies |
| AppUpgrade.StuckIsRefused | capabilities/google_workspace/app_manager.py:848-871 | such a state is refused by the next install's preflight and is not an installation |
| AppUninstall.UninstallLocked | capabilities/google_workspace/app_manager.py:472-522 | with an accepted manifest and no failing operation it finishes: unchanged files are unlinked, modified ones are in quarantine with their bytes, and the manifest is gone, or lists exactly what could be neither removed nor moved; if an operation fails every managed file is still in place, was the pinned file, or is in quarantine; a manifest that is not accepted is refused without touching anything |
| AppUninstall.UninstalledMeans | capabilities/google_workspace/app_manager.py:496-507 | when no operation failed, the manifest stays if and only if some listed file is still in place, and then lists exactly those files; a file stays if and only if it is modified and not this user's alone |
| AppUninstall.WriteManifest | capabilities/google_workspace/app_manager.py:980-989 | the manifest is replaced whole or not at all, and an exception leaves no stage file |
| AppRetirement.QuarantineModified | capabilities/google_workspace/app_manager.py:524-544 | the bytes of a modified file stay at its path or are in a new quarantine entry; with no failing operation they move if and only if the file is this user's alone |
| AppRetirement.RetireComponent | capabilities/google_workspace/app_manager.py:472-545 | a component is unlinked if and only if it matches its pinned record, quarantined if and only if it does not and is this user's alone, and otherwise left where it is |
| AppRetirement.RetireAll | capabilities/google_workspace/app_manager.py:435-462 | over any set of components, no bytes that are not pinned are lost; what is reported as kept is, with no failing operation, exactly what has to stay; and an install stops exactly if something has to stay or fails |
| Releases.NewDocTrusted | capabilities/google_workspace/app_manager.py:399-415 | the manifest that an install writes is accepted by the manifest validator |
| Releases.PartialTrusted | capabilities/google_workspace/app_manager.py:1022-1082 | so is what any partial uninstall leaves of an accepted manifest |
| Releases.TrustedIff | capabilities/google_workspace/app_manager.py:1022-1082 | a manifest is accepted if and only if it is of a trusted release for this host with nothing but pinned records, and lists the binary alone or every component unless it is marked as partly uninstalled |
| Releases.TrustedRecords | capabilities/google_workspace/app_manager.py:1022-1138 | every record of an accepted manifest is the expected one at its own managed path |
| Releases.OneFileMatches | capabilities/google_workspace/app_manager.py:1141-1160 | a record pins its file whole: no two files match one record |
| SupersessionGraph.Visit | capabilities/google_workspace/scope_manifest.py:532-548 | the nested depth-first visit fails only on a cycle, and otherwise marks everything reachable |
| SupersessionGraph.ValidateSupersessionCycles | capabilities/google_workspace/scope_manifest.py:532-548 | the cycle check accepts a graph if and only if no scope reaches itself in one or more steps |
| SupersessionGraph.TransitivelySuperseded | capabilities/google_workspace/scope_manifest.py:699-717 | the worklist ends with exactly the scopes reachable in one or more steps, on any graph |
| ScopeManifest.CanonicalizeTwice | capabilities/google_workspace/scope_manifest.py:674-692 | canonicalising a canonical value gives it back if it is ASCII and is refused if it is not |
| ScopeManifest.KeptDominates | capabilities/google_workspace/scope_manifest.py:699-728 | whatever a selected scope supersedes, some scope that is kept supersedes too |
| ScopeManifest.MaximalAbsorbs | capabilities/google_workspace/scope_manifest.py:699-728 | keeping the maximal part of one selection first changes nothing for the union with another |
| ScopeManifest.NormalizeScopeUrls | capabilities/google_workspace/scope_manifest.py:720-728 | the loop gives the normal form: the maximal canonical scopes in manifest order, then the unlisted ones sorted |
| ScopeManifest.NormalizedIsMaximal | capabilities/google_workspace/scope_manifest.py:720-728 | exactly the selected scopes that no selected scope supersedes are kept, and each dropped one is transitively superseded by one that is kept |
| ScopeManifest.NormalizedInOrder | capabilities/google_workspace/scope_manifest.py:724-728 | the normal form has no scope twice, lists those of the manifest in its order and before all others, and the others sorted |
| ScopeManifest.CanonicalizeMeans | capabilities/google_workspace/scope_manifest.py:674-692 | a text is accepted as a scope if and only if it is trimmed non-empty ASCII that is, or is an alias of, an identity scope, a disclosure-only scope, or the Google prefix with a rest free of spaces and control characters |
| ScopeManifest.NormalizedIgnoresSpelling | capabilities/google_workspace/scope_manifest.py:674-728 | order, duplicates and aliases of the request do not matter |
| ScopeManifest.KeptCanonicalizable | capabilities/google_workspace/scope_manifest.py:674-692 | the output of a normalisation can be normalised again if and only if it is all ASCII |
| ScopeManifest.KeptAsciiIff | capabilities/google_workspace/scope_manifest.py:674-728 | the output of a normalisation is all ASCII if and only if no requested alias names a non-ASCII scope, except one that another selected scope supersedes: a condition on the request and the manifest |
| ScopeManifest.UnionAbsorption | capabilities/google_workspace/scope_manifest.py:674-728 | normalising a part first gives the answer for the union if and only if no requested alias of that part names a non-ASCII scope, except one that another selected scope supersedes |
| ScopeManifest.NormalizedIdempotent | capabilities/google_workspace/scope_manifest.py:720-728 | normalisation is idempotent under exactly the condition of `UnionAbsorption` |
| ScopeManifest.AsciiAliasesAbsorb | capabilities/google_workspace/connection.py:1382-1394 | with a manifest whose aliases all name ASCII urls, as the shipped one's do, normalisation absorbs and is idempotent for every request: a grant added to the current scopes resolves as the whole would |
| ScopeManifest.AliasBreaksAbsorption | capabilities/google_workspace/scope_manifest.py:674-692 | for any valid manifest with an alias of a non-ASCII scope that no identity scope supersedes, normalising the normalised request is refused |
| ScopeExample.AbsorptionCanFail | capabilities/google_workspace/scope_manifest.py:674-692 | such a manifest, with its policies, presets and disclosures, that the loader accepts |
| ScopeLoader.LoadedIsValid | capabilities/google_workspace/scope_manifest.py:210-529 | every manifest that the loader accepts gives lookup tables on which the scope results hold |
| ScopeManifest.BlockedScopeDetails | capabilities/google_workspace/scope_manifest.py:749-793 | the blocked list of the normalised request, or the error of the first failing check |
| ScopeManifest.BlockedEntriesMeaning | capabilities/google_workspace/scope_manifest.py:749-793 | the list names exactly the members that are unlisted or disallowed, and is empty if and only if all are allowed |
| ScopeManifest.CombineRequest | capabilities/google_workspace/scope_manifest.py:811-818 | a scope is in the combined request if and only if it is asked for explicitly or is the url of a scope that a requested preset of the manifest lists |
| ScopeManifest.ResolveScopeRequest | capabilities/google_workspace/scope_manifest.py:796-868 | a resolution fails with the error of its first failing check: an unknown preset, something asked for that is not canonical, an unknown policy, or an alias that leaves a non-ASCII scope to be normalised again; otherwise the canonical value of everything asked for, and every identity scope, is in it or superseded by a member, every member is one of those, and they come once each, in manifest order and then sorted; and it is named after its one preset, or as identity only, or as custom |
| ScopeManifest.ResolutionBlocked | capabilities/google_workspace/scope_manifest.py:796-868 | the blocked list of a resolution has one entry, in order, for exactly the unknown or disallowed members of its own scope urls, each with that scope's own explanation and states |
| ScopeManifest.ResolutionDescribes | capabilities/google_workspace/scope_manifest.py:796-868 | services, capabilities and labels of a resolution are exactly those of its own scope urls, each once |
| ScopeManifest.CollectedInOrder | capabilities/google_workspace/scope_manifest.py:828-846 | services, capabilities and labels come in the order in which the scopes have them first |
| AuthResults.AuthClauses | capabilities/mail/channel_state.py:30-61 | the scanner with its depth, quote and escape flags computes the clauses of the specification |
| AuthResults.ClauseIffBalanced | capabilities/mail/channel_state.py:30-61 | a text is read through without a top-level semicolon if and only if a grammar of plain characters, quoted strings with escapes and nested comments derives it |
| AuthResults.SegmentsOfJoin | capabilities/mail/channel_state.py:30-61 | reading a join of balanced clauses gives back exactly those clauses |
| AuthResults.SegmentsRebuild | capabilities/mail/channel_state.py:30-61 | the segments that a reading finds rejoin to the text and pass no top-level semicolon |
| AuthResults.JoinThenSplit | capabilities/mail/channel_state.py:30-61 | joining trimmed clauses and splitting is the identity, for every non-empty list within the size limit |
| AuthResults.SplitIsTheCut | capabilities/mail/channel_state.py:30-61 | a non-empty result is the trimmed segments of the one way to cut the header at its top-level semicolons, and every header within the limit that can be cut so is accepted |
| AuthResults.AcceptedMeans | capabilities/mail/channel_state.py:92-120 | for any three patterns, a list of results passes if and only if it is one header that cuts into clauses of which the first matches the server, the last claims DMARC and passes, and no other claims DMARC |
| AuthResults.RefusedMeans | capabilities/mail/channel_state.py:92-120 | and otherwise the reason is the first of server, final claim and pass that fails |
| AuthResults.LaterClauseRefused | capabilities/mail/channel_state.py:92-120 | adding any clause after an accepted header makes it refused |
| OwnerMail.OwnerMailMeans | capabilities/mail/channel_state.py:64-120 | with any address of the owner, a message is taken for the owner's if and only if the server is configured, there is one sender, who is the owner, one From header and one result, which cuts into clauses of which the first names the server, the last is a pass for what follows the last at sign of the address in the one accepted form, and no other claims DMARC |
| OwnerMail.PassClaims | capabilities/mail/channel_state.py:100-118 | every clause in that form claims DMARC, so that it is the one that is counted |
| OwnerMail.FormPasses | capabilities/mail/channel_state.py:100-118 | a pass is accepted for its domain, plain or quoted, with each of the three policies or none |
| OwnerMail.PassIsForItsDomain | capabilities/mail/channel_state.py:100-118 | a pass that names one domain is a pass for that domain and, but for the case of letters, for no other |
| OwnerMail.FailIsNoPass | capabilities/mail/channel_state.py:100-118 | a clause that says fail never passes, whatever follows |
| OwnerMail.ServerForms | capabilities/mail/channel_state.py:98-99 | the configured server is recognised alone and with its version |
| Ledger.InboxState.constructor | capabilities/mail/channel_state.py:128-147 | a new ledger is empty, with no cursor |
| Ledger.InboxState.Put | capabilities/mail/channel_state.py:154-159 | one row is inserted or updated, keeping both counters; every other row is as before |
| Ledger.InboxState.StartTurn | capabilities/mail/channel_state.py:167-196 | a turn starts only for a row that can, within the limit, and costs one attempt; a spent budget fails the row and adds the notice in the same transaction; nothing else changes |
| Ledger.InboxState.NativeHandoffFailed | capabilities/mail/channel_state.py:198-210 | a failure costs one turn attempt, and the row waits or, with the budget spent, fails; a missing row is an error and changes nothing |
| Ledger.InboxState.DeferNativeHandoff | capabilities/mail/channel_state.py:212-218 | the row waits again, no budget is touched, and no other row changes |
| Ledger.InboxState.DeferLookup | capabilities/mail/channel_state.py:230-232 | only the time of the next look-up changes, and only of that row |
| Ledger.InboxState.Ingest | capabilities/mail/channel_state.py:234-241 | the messages and the cursor are stored together: known rows are kept as they are, and every new row is queued with the text of the first message of its id |
| Ledger.InboxState.DeliveryAttempt | capabilities/mail/channel_state.py:249-266 | a failed delivery costs one delivery attempt, waits at least the given delay, and gives up when the budget is spent or the error is final; the turn budget and the other rows are untouched |
| Ledger.BackoffDoubles | capabilities/mail/channel_state.py:198-266 | the delay starts at half a minute and doubles up to the hour |
| Ledger.ApplyKeeps | capabilities/mail/channel_state.py:154-266 | no event loses a row or lowers a counter, and each event touches one of the two budgets only |
| Ledger.RetryBudget | capabilities/mail/channel_state.py:167-196 | over any interleaving of operations and restarts, start_turn succeeds at most limit times for a message |
| Ledger.BudgetsIndependent | capabilities/mail/channel_state.py:198-266 | over whole runs, delivery events never change the model budget and the other events never change the delivery budget |
| Ledger.QuarantineWithNotice | capabilities/mail/channel_state.py:167-196 | a quarantine fails the row and puts the notice in the outbox in the same event |
| Ledger.AtMostOneNotice | capabilities/mail/channel_state.py:167-196 | the notice of a message appears at most once in any run and then stays |
| Ledger.NoticeIffQuarantined | capabilities/mail/channel_state.py:167-196 | a notice that nothing else addresses is there if and only if the message was quarantined |
| OwnerInbox.Commit | capabilities/mail/ingress.py:55-111 | given the cursor that was read before the question, a poll stores the fetched messages, in one transaction, with the new state for changes, no cursor if the server cannot calculate them, and for a page the first page's state with the position moved on, complete if the page was short |
| OwnerInbox.AnswerOk | capabilities/mail/ingress.py:55-111 | the cursor computed from an honest answer leaves nothing behind, once the listed messages are known |
| OwnerInbox.DestroyKeepsIff | capabilities/mail/ingress.py:39-76 | a removal during a listing keeps the cursor in order if and only if the entry that slips under it is already known |
| OwnerInbox.StepKeeps | capabilities/mail/ingress.py:32-111 | every arrival, removal, cursor read, query, fetch, commit, crash and ledger event keeps all cursors in use in order, those included that a poller has read and not yet used |
| OwnerInbox.NoMissedMail | capabilities/mail/ingress.py:32-111 | with any number of pollers on current or stale cursors, crashes, resets and arrivals between pages: whenever the stored cursor is complete, every message that matched at its server state and still exists is in the ledger |
| OwnerInbox.MailCatchesUp | capabilities/mail/ingress.py:32-111 | after any run, while nothing arrives, polls one after the other bring the cursor to the server's current state, also with a server that cannot calculate changes, and then every message that matches and still exists is in the ledger |
| OwnerInbox.RemovalBehindLosesMail | capabilities/mail/ingress.py:62-76 | a concrete run with a removal behind the position during a listing, in which a complete cursor misses a message |
| OwnerHandoff.HandOff | capabilities/mail/ingress.py:112-151 | the loop over the arrivals, in which the process may die anywhere and every write may raise: the rows end as the outcomes say, what accept returned for is reported, and the round is a run of the pollers' machine |
| OwnerHandoff.EachSettledAlone | capabilities/mail/ingress.py:112-151 | every row that a round got to ends as if it had been the only arrival, so no failure starves another |
| OwnerHandoff.SettleMeans | capabilities/mail/ingress.py:112-151 | what one arrival does to its row, field by field, and to no other: an interrupted turn fails it, back-pressure costs no attempt, and a failed handoff, or one whose put raised, costs one of five |
| OwnerHandoff.AcceptsAccounted | capabilities/mail/ingress.py:112-151 | with any number of pollers, kills and raising writes: accept returns for a message at most once, and once more for each kill or failing put between an accept and its put, and for each time that two pollers got in each other's way |
| OwnerHandoff.AcceptsBounded | capabilities/mail/ingress.py:112-151 | with one poller at a time, accept returns at most once more than there are such kills and failing puts, and at most five failures are committed |
| OwnerHandoff.HandedOverAgainIff | capabilities/mail/ingress.py:112-151 | after any such run a message can be handed over (again) if and only if its row is queued or not there yet; and then every hand-over so far was followed by such a kill or failing put |
| OwnerHandoff.LostMeans | capabilities/mail/ingress.py:131-151 | after a kill between accept and put the row is still queued; after a put that raised it is if and only if the failure that is noted is not the fifth |
| OwnerHandoff.KillsHandOverAgain | capabilities/mail/ingress.py:131-143 | for every n there is a run of one poller at a time with n such kills in which accept returns n + 1 times for one message |
| OwnerHandoff.FailedPutHandsOverAgain | capabilities/mail/ingress.py:143-151 | a put that raises after accept has returned makes accept return again, without any kill |
| OwnerHandoff.FailuresBounded | capabilities/mail/ingress.py:147-151 | with any number of pollers at most five failures of a message are committed, apart from those noted on a row that is not queued any more |
| OwnerHandoff.FailuresUncounted | capabilities/mail/ingress.py:147-151 | for every n there is a run in which handing over raises n times and no failure is committed |
| OwnerHandoff.TwoPollersHandOver | capabilities/mail/ingress.py:112-143 | two pollers with the same message listed hand it over twice without any kill |
| OwnerHandoff.InterruptedIsStopped | capabilities/mail/ingress.py:112-118 | once a round has committed the end of an interrupted turn, accept never returns for its message in any later round |
| ContextPacking.BulletsRebuild | context.py:197-206 | the heading and all bullets make up the context again |
| ContextPacking.StartsMean | context.py:197-206 | a bullet starts exactly where a line begins with a dash and a space |
| ContextPacking.Pass | context.py:247-250 | one pass decides exactly the bullets of its class, in source order |
| ContextPacking.PackBullets | context.py:232-252 | the four passes keep a bullet if and only if it fits next to the kept ones ahead of it, explicit intent before owners before matching terms before the rest, and in source order within a class; and stay within the room |
| ContextPacking.PackedUnique | context.py:232-252 | only one set of bullets is a packing |
| ContextPacking.PackedMeans | context.py:232-252 | no dropped bullet would still fit, and if all bullets of a class and of the better ones fit together they are all kept |
| ContextPacking.PackedWithinRoom | context.py:232-252 | a packing never exceeds its room |
| ContextPacking.Trim | context.py:197-254 | the retained part never exceeds the budget, with the heading cut first |
| ContextPacking.ComposeOnboardingContext | context.py:186-254 | the composed text never exceeds 9500 characters for any directive and context, and is everything when everything fits |
| SkillInstaller.BackupsConserve | capabilities/hats/skill_installer.py:136-145 | at every point of the swap each original tree is at its target or in the backups |
| SkillInstaller.WithoutBackups | capabilities/hats/skill_installer.py:136-168 | if the backups are deleted at a point, the originals survive if and only if every moved target already holds the same tree again |
| SkillInstaller.SkillsRoot.Swap | capabilities/hats/skill_installer.py:136-145 | how far the swap got, with its two lists, for every stopping point |
| SkillInstaller.SkillsRoot.RemoveInstalled | capabilities/hats/skill_installer.py:148-153 | the first half of the undo loses no original, also when it fails |
| SkillInstaller.SkillsRoot.RestoreBackups | capabilities/hats/skill_installer.py:154-158 | the second half restores the root exactly, or fails with every original still somewhere |
| SkillInstaller.SkillsRoot.Undo | capabilities/hats/skill_installer.py:147-164 | the rollback restores the root, or leaves every original at its target or in the backups |
| SkillInstaller.SkillsRoot.InstallHatSkills | capabilities/hats/skill_installer.py:96-200 | it ends installed, or with only the state file unwritten, if and only if it is not made to stop and no target is a link; which outcome comes of each way to stop: an exception with a successful undo leaves the root as it was, a failed undo keeps the backups, an interrupt of the swap or of the undo deletes them; and however it ends no link has changed |
| SkillInstaller.SkillsRoot.RemoveStale | capabilities/hats/skill_installer.py:170-174 | the loop over recorded names, where a link stays, and a removal can fail with the tree whole or damaged |
| SkillInstaller.InstalledMeans | capabilities/hats/skill_installer.py:129-180 | on success exactly the desired trees are under their names; a removable recorded name that is not desired is there if and only if it is a link or its removal failed; every other name is as before |
| SkillInstaller.OthersKept | capabilities/hats/skill_installer.py:106-175 | whatever state the installer leaves, no name outside the Hat's prefix has changed |
| SkillInstaller.InterruptLosesOriginal | capabilities/hats/skill_installer.py:146-168 | an interrupt that is not an Exception, with one target moved away, deletes the only copy of the original |
| SkillInstaller.InterruptedUndo | capabilities/hats/skill_installer.py:146-168 | after an interrupt during the undo the originals survive if and only if each one still in the backups is at its target as well |
| HatSecrets.SplitIntoChunks | capabilities/hats/secrets.py:634-671 | the chunks of a plaintext of any length |
| HatSecrets.EncryptBytes | capabilities/hats/secrets.py:634-671 | one sealed chunk for each piece, at least one, each at most 160 bytes and within what the cipher takes |
| HatSecrets.DecryptBytes | capabilities/hats/secrets.py:673-713 | the chunks are opened in order and one that does not open is an error |
| HatSecrets.EncryptThenDecrypt | capabilities/hats/secrets.py:634-713 | for plaintexts of every length, decrypting an encryption gives the plaintext back if and only if the keys are one pair |
| HatSecrets.WrittenReadsBack | capabilities/hats/secrets.py:119-196 | a written store reads back as the same name-to-value map if and only if the directory's private key matches the key it was written under |
| HatSecrets.ReadableMeans | capabilities/hats/secrets.py:143-178 | what can be read of an encrypted store has exactly the names recorded in clear, under the handle it was written for |
| HatSecrets.RewriteReads | capabilities/hats/secrets.py:181-217 | a successful rewrite reads back the same map under its handle if and only if the key files were one pair, and it never replaces a private key |
| HatSecrets.RewriteMeans | capabilities/hats/secrets.py:181-217 | a rewrite works if and only if nothing goes wrong and the key files are both there or both missing; a missing pair is drawn, an existing key file is never replaced, and the new store is there as soon as it is written |
| HatSecrets.HatStores.RewriteStore | capabilities/hats/secrets.py:181-217 | the directory after a rewrite with any of its faults |
| HatSecrets.HatStores.RenameStore | capabilities/hats/secrets.py:778-859 | the rename with its rollback ends as the specification says, for every combination of faults |
| HatSecrets.RenameOutcome | capabilities/hats/secrets.py:778-859 | which outcome comes of every combination of faults, and renamed if and only if the old handle could be read, the new one was free, the store was moved and the rewrite worked |
| HatSecrets.RenameLeaves | capabilities/hats/secrets.py:818-859 | where the directory is after a rename with any faults: never under both handles, except for what another process put under the old one, and never without its private key |
| HatSecrets.RenameSucceeds | capabilities/hats/secrets.py:818-859 | after a successful rename the new handle reads exactly the old map if and only if the key files are one pair, and under the old handle there is exactly what another process put there meanwhile, if anything |
| HatSecrets.RenameFails | capabilities/hats/secrets.py:826-851 | for every store that could be read: after any failure other than in the rollback itself, the old handle reads the same map if and only if the store was never moved, or was moved back over key files that are one pair, or another process put the same map in its place |
| HatSecrets.StrandedLosesValues | capabilities/hats/secrets.py:835-842 | a failed rename whose old directory another process re-created leaves nothing readable under the old handle |
| HatSecrets.MismatchedKeysLoseValues | capabilities/hats/secrets.py:826-851 | a failed rename over key files of two pairs, reported as an ordinary failure, whose rollback leaves the store unreadable |
| HatSecrets.RenameElsewhere | capabilities/hats/secrets.py:778-859 | no other handle's store changes |

## Left out

- LifecycleInvariant.StepKeeps: the workers are steps of a machine on values and not methods on shared objects, because what is proved is about every interleaving of them; the loops' deadlines and retry delays are steps that may happen at any time.
- Transaction.TransactionalInstall: creating and removing directories.
- Transaction.UndoCommitted: an item for which both the unlink and the rename of its undo raise.
- ContextPacking.ComposeOnboardingContext: the intent, owner and term matchers are predicates on a bullet.
- OwnerHandoff.HandOff: reading a message, `OwnerMail`'s check and the one for automatic messages, and accept are outcomes of one arrival; that the runtime's inbox drops a repeated key is outside the repository.
- SkillInstaller.SkillsRoot.InstallHatSkills: an interrupt after the swap has succeeded, while stale trees are removed or the state is written.
- HatSecrets.WrittenReadsBack: the JSON text and the normalisation of names are any format and normaliser with the stated laws.
- Migration of the legacy single-account credential file: runs start without one.
- HTTP, Telegram, Slack, JMAP transport, process launch and archive extraction: environment steps.
- RSA, AES-GCM, HMAC and signatures: injective or mutually inverse functions.
- File ownership, links and modes beyond one predicate for a safe owned file.
- JSON validation tables, URL allow-lists, tool facades and agent instruction text: checks branch by branch.
- Local app sharing and the channel runtime.
