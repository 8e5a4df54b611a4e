# Desktop wallet: a verified model of what must not go wrong

This project models five parts of the HandCash desktop wallet in Dafny and proves what each is for,
over every run and every interruption.

- **The spend bridge.** An HTTP spend can outlive its caller. `SpendLedger.dfy` holds the ledger, as
  value functions and as a class proved against them; `Bridge.dfy` the server as a step relation with one step
  a callback; `BridgeServer.dfy` the callbacks as a class, each proved to be its step; `BridgeSafety.dfy` what holds
  over every interleaving. `WalletFailure.dfy` and `FailureBody.dfy` hold the
  retry classes, the table of codes and the deadline messages.
- **The crash-safe store.** `JsonText.dfy`, `CanonicalJson.dfy` and `StoreText.dfy` hold JSON text;
  `AtomicFile.dfy` the folder and every state a save passes through; `StoreRecovery.dfy`, `StoreStarts.dfy`,
  `StoreLead.dfy`, `StoreKnown.dfy` and `StoreRuns.dfy` what a start loads after a crash anywhere, whatever it cannot read; `Vault.dfy` the vault's guard, sealing and history;
  `DurableModel.dfy`, `DurableStore.dfy`, `DurableSound.dfy` and `DurableRuns.dfy` the store in memory, its timer, its calls and their runs.
- **Chart apps.** `ChartTypes.dfy` is the language; `ChartShape.dfy`, `ChartRules.dfy`, `ChartBlocks.dfy` and
  `ChartValidator.dfy` the static checker; `ChartEffects.dfy`, `ChartFormat.dfy` and `ChartRunner.dfy` the step
  semantics; `ChartSoundness.dfy`, `ChartTermination.dfy` and `ChartRestless.dfy` what the checker guarantees and
  what it does not; `ChartShare.dfy` and
  `ChartPacket.dfy` verifying, naming and sharing.
- **The snapshot archive.** `Brc39Archive.dfy`.
- **The native shell's store.** `NativeStore.dfy`, and `NativeGuard.dfy` for whose vault it keeps.

Check everything with `dafny verify dfyconfig.toml`, or with all `.dfy` files on one command line.

## What the proofs found in the code

Each of these is a lemma with the exact condition or a concrete witness.

- A second run of a spend that is still in the wallet is possible, exactly once the first is orphaned, has no waiter
  and has idled past the limit (`SecondRunExactlyWhen`, `SecondRunPossible`).
- In a folder the store made itself no crash and no failed save ever costs it (`FreshRunLoadsKnown`, `LastSavedComesBack`).
  In one damaged from outside, a failed rename while the fallback is the copy a start would pick does
  (`RollbackLosesExactlyWhen`, `LoneFallbackIsLost`), so does a crash at that point if a leftover temp file ties with the write
  to the clock tick (`CrashSafeExactlyWhen`, `LoneFallbackTies`).
- A load comes up with known stores whichever copies it cannot read if and only if every copy that matters holds one
  (`LoadsKnownExactlyWhen`), which every run of the store keeps; it misses the newest copy exactly when no newest one can be
  read, and finds nothing exactly when none can (`NewestPickedExactlyWhen`, `NothingPickedExactlyWhen`). Found nothing, with no
  store file, it deletes complete temp files it could not read (`EmptyLoadDeletesExactlyWhen`, `UnreadableTempIsLost`), though
  the comment at `electron/durableStore.ts:105-110` says none of them can be the only good copy; and a lone fallback goes with
  the next save (`UnreadableFallbackIsLost`). Neither copy can be the last accepted save in a folder the store made itself.
- A vault that names no owner passes the guard both ways, so two ordinary writes change the owner (`NamelessVaultChangesOwner`).
- A `durableSet` of the vault that is refused may still have saved a seal status, and earlier debounced writes with it
  (`RefusedSetSavesExactlyWhen`, `RefusedSetSavesServed`).
- The checker lets effect states send each other round for ever (`CheckerAllowsLoops`, `LoopsExactlyWhen`).
- A request split by one list of friends and sent to another can ask for more than the amount (`SplitFairExactlyWhen`,
  `SplitCanOverask`).
- A chart id with two dashes together or one at its end is valid and can be shared and bound, but its name is never found
  (`BoundChartFoundExactlyWhen`, `UnfindableIds`).
- A snapshot older than forty others is written, pruned and reported as an error (`OldEnoughGoes`, `WrittenAndPruned`).
- A complete temp file is lost in a sweep exactly when its snapshot's name holds other bytes with the same twelve digits
  (`TempLostExactlyWhen`).
- The native store loses sight of a key whose own name is reserved (`ListedExactlyWhen`), and stops being a map exactly when a
  write it could not verify leaves an old value cached or a needed side file is not written (`StaysMapExactlyWhen`), or a
  removal it reports done left the file (`RemovalStaysMapExactlyWhen`).
- The native store lets an ordinary write replace a vault that does not open, which the Electron store refuses
  (`VaultReplacedExactlyWhen`, `NativeGuardIsWeakerExactlyWhen`).
- A sweep reports temp files it could not remove as removed (`Sweep`).

## What is assumed

- Hashes are functions (`HashingExists` gives one of the native store's shape); where a lemma needs two keys or contents not to share one, it asks it of those on hand; sealing is a pair of functions, and the store itself checks
  that they are inverse before it uses them; signatures are a predicate; whether an address is one fixed https address is a predicate.
- Clocks are parameters. File times do not go back, and no temp file bears the running process's id.
- A hard link is a copy, since no file is ever written in place. A torn write is a prefix of its bytes, read as text.
- The state machine library runs an entered state's assignment, then its eventless transition, then starts what it
  invokes; an answer belongs to the invocation it was started by.
- Key order in a stored object is any fixed order of its keys (`OrdersExist` gives one); the order in which a chart declares its fields is a parameter.

## Model

| member | source | states |
|---|---|---|
| `BridgeSafety.AtMostOnce` | electron/spendLedger.ts:45-137 | over every interleaving, two identical spends are in the wallet together only if the ledger had given the earlier run up, idle without any caller for longer than the limit |
| `BridgeSafety.SecondRunExactlyWhen` | electron/spendLedger.ts:130-137 | a repeat of a spend still in the wallet starts a second run if and only if the held run is orphaned, has no waiter and has idled past the limit |
| `BridgeSafety.SecondRunPossible` | electron/spendLedger.ts:45-59 | a concrete run in which that happens, so the limit is a real exception and not an over-cautious one |
| `BridgeSafety.HonestFailures` | electron/httpServer.ts:394-475 | over every interleaving, the bridge answers every spend that was handed to the renderer or joined to another run with check-first; an answer that calls a retry safe went to a read or to a spend that was neither |
| `BridgeSafety.AnsweredForGood` | electron/httpServer.ts:311-326 | no later step changes an answer that was given, or takes a request back to an earlier stage |
| `BridgeSafety.JoinersAreHeld` | electron/httpServer.ts:178-199 | a request that joined a run is among its waiters for as long as it waits, unless the run was forgotten before it reached the wallet |
| `BridgeSafety.ReplayedOnce` | electron/spendLedger.ts:60-63 | the wallet's answer to a run is handed out again to at most one later request |
| `BridgeSafety.ReachableOk` | electron/httpServer.ts:348-476 | every reachable state keeps the invariant that ties stages, runs, waiters and answers together |
| `BridgeSafety.NextKeeps` | electron/httpServer.ts:348-476 | each step, enabled, keeps that invariant |
| `BridgeSafety.ArriveKeeps` | electron/httpServer.ts:364-376 | so does the arrival of a request, whether it starts a run, joins one or gets a stored answer |
| `BridgeSafety.DeliverKeeps` | electron/httpServer.ts:311-326 | so does the renderer's reply, with every joiner it wakes |
| `BridgeSafety.AcquireFailsKeeps` | electron/httpServer.ts:378-381 | so does a refused window, which drops the run and its waiters |
| `BridgeSafety.DeadlineKeeps` | electron/httpServer.ts:394-420 | so does a deadline that is not held by a prompt |
| `BridgeSafety.JoinDeadlineKeeps` | electron/httpServer.ts:184-187 | so does a joiner's own deadline, which no prompt holds |
| `BridgeSafety.HangUpKeeps` | electron/httpServer.ts:426-445 | so does a caller that hangs up, whatever it was waiting for |
| `BridgeSafety.FailAllKeeps` | electron/httpServer.ts:78-95 | so does the loss of the renderer, which answers everyone at once |
| `WalletFailure.SpendDeadlineChecksFirst` | electron/bridgeDeadline.ts:94-99 | a deadline answer to a spend always tells the caller to check first |
| `WalletFailure.SafeExactlyWhen` | electron/httpServer.ts:101-122 | an error the bridge words itself is classed as safe to retry exactly when it is not tagged pending and is tagged timed out or unavailable, or its path is a read |
| `FailureBodies.RewrittenOnce` | electron/walletFailure.ts:147-160 | an error body given the failure fields says how it failed, keeps all else it said, and passes as it is the next time |
| `FailureBodies.SpendSafeExactlyWhen` | electron/walletFailure.ts:136-141 | an unclassed error answer to a spend is told a retry is safe exactly where the table of codes says so |
| `FailureBodies.BridgeCodesInTable` | electron/walletFailure.ts:63-90 | the classes of the bridge's own answers are the table's |
| `BridgeModel.KeyNamesSpend` | electron/spendLedger.ts:32-34 | two spends have the same key exactly when origin, path and body agree |
| `BridgeServers.BridgeServer.OnRequest` | electron/httpServer.ts:364-376 | the callback leaves the server in exactly the state the step relation gives: arrival of a request |
| `BridgeServers.BridgeServer.OnAcquired` | electron/httpServer.ts:378-450 | the callback leaves the server in exactly the state the step relation gives: a window is ready and the request is handed to it |
| `BridgeServers.BridgeServer.OnAcquireFailed` | electron/httpServer.ts:378-381 | the callback leaves the server in exactly the state the step relation gives: no window can be had |
| `BridgeServers.BridgeServer.DeliverHttpResponse` | electron/httpServer.ts:311-326 | the callback leaves the server in exactly the state the step relation gives: a renderer reply, waking the joiners of its run |
| `BridgeServers.BridgeServer.OnReply` | electron/httpServer.ts:451-467 | the callback leaves the server in exactly the state the step relation gives: the handler resuming with a reply |
| `BridgeServers.BridgeServer.OnRunReply` | electron/httpServer.ts:371-375 | the callback leaves the server in exactly the state the step relation gives: a joiner resuming with its run's reply |
| `BridgeServers.BridgeServer.OnDeadline` | electron/httpServer.ts:394-420 | the callback leaves the server in exactly the state the step relation gives: the deadline, held while a prompt is open |
| `BridgeServers.BridgeServer.OnJoinDeadline` | electron/httpServer.ts:184-187 | the callback leaves the server in exactly the state the step relation gives: a joiner's deadline |
| `BridgeServers.BridgeServer.OnClientGone` | electron/httpServer.ts:426-445 | the callback leaves the server in exactly the state the step relation gives: the caller hanging up |
| `BridgeServers.BridgeServer.OnRejected` | electron/httpServer.ts:468-475 | the callback leaves the server in exactly the state the step relation gives: the handler's catch block |
| `BridgeServers.BridgeServer.FailAllPendingRequests` | electron/httpServer.ts:78-95 | the callback leaves the server in exactly the state the step relation gives: the renderer lost |
| `BridgeServers.BridgeServer.SetPromptOpen` | electron/httpServer.ts:327-329 | the callback leaves the server in exactly the state the step relation gives: a prompt opening or closing |
| `SpendLedgers.SpendLedger.Begin` | electron/spendLedger.ts:45-71 | the two maps and the answer are those of the ledger's specification: start, join or replay |
| `SpendLedgers.SpendLedger.Settle` | electron/spendLedger.ts:74-87 | settles the run and calls each of its waiters, each once |
| `SpendLedgers.SpendLedger.Orphan` | electron/spendLedger.ts:90-95 | marks the run as having lost its caller, once |
| `SpendLedgers.SpendLedger.Done` | electron/spendLedger.ts:98-101 | forgets the run |
| `SpendLedgers.SpendLedger.Leave` | electron/spendLedger.ts:70 | takes one waiter off its run |
| `SpendLedgers.SpendLedger.LoseAll` | electron/spendLedger.ts:107-116 | every run without a result ends lost, its waiters called and cleared, settled runs untouched |
| `SpendLedgers.SpendLedger.PruneRuns` | electron/spendLedger.ts:130-137 | forgets exactly the orphaned runs without waiters that idled past the limit |
| `LedgerModel.DispatchExactlyWhen` | electron/spendLedger.ts:45-59 | a request starts a run exactly when none is held for its key or the held one has expired |
| `LedgerModel.SettledReplayedOnce` | electron/spendLedger.ts:60-63 | a settled result is replayed once; the next identical request starts a run of its own |
| `LedgerModel.ForgottenIdTouchesNothing` | electron/spendLedger.ts:73-101 | calls with an id the ledger forgot change nothing, so they never touch a later run of the key |
| `LedgerModel.BeginKeepsWF` | electron/spendLedger.ts:45-71 | `runs` and `keyById` stay inverse, and settled or lost runs have no waiters |
| `LedgerModel.SettleKeepsWF` | electron/spendLedger.ts:74-87 | `runs` and `keyById` stay inverse, and settled or lost runs have no waiters |
| `LedgerModel.OrphanKeepsWF` | electron/spendLedger.ts:90-95 | `runs` and `keyById` stay inverse, and settled or lost runs have no waiters |
| `LedgerModel.DoneKeepsWF` | electron/spendLedger.ts:98-101 | `runs` and `keyById` stay inverse, and settled or lost runs have no waiters |
| `LedgerModel.LoseAllKeepsWF` | electron/spendLedger.ts:107-116 | `runs` and `keyById` stay inverse, and settled or lost runs have no waiters |
| `LedgerModel.LeaveKeepsWF` | electron/spendLedger.ts:70 | `runs` and `keyById` stay inverse, and settled or lost runs have no waiters |
| `LedgerModel.PruneKeepsWF` | electron/spendLedger.ts:130-137 | `runs` and `keyById` stay inverse, and settled or lost runs have no waiters |
| `CanonicalJson.ParseCanonical` | src/apps/chartSignature.ts:8-23 | every canonical text parses, to exactly the value it was printed from |
| `CanonicalJson.MeaningDeterminesText` | src/apps/chartSignature.ts:16-21 | values that mean the same, whatever order their keys were inserted in, print the same |
| `CanonicalJson.CanonicalFaithful` | src/apps/chartSignature.ts:8-23 | two canonical texts are equal if and only if the values are |
| `CanonicalJson.LessTotal` | src/apps/chartSignature.ts:19 | the key order is total |
| `CanonicalJson.LessTransitive` | src/apps/chartSignature.ts:19 | the key order is transitive |
| `StoreText.SavedStoreReadBack` | electron/durableStore.ts:59-67 | a saved store read back is the store that was saved, in whatever key order it was printed |
| `StoreText.TornStoreIsNoStore` | electron/durableStore.ts:59-85 | no torn copy of a saved store, not even one cut inside a character, is taken for a store |
| `JsonText.ParseValueExtends` | electron/durableStore.ts:60 | more text after a value that parsed changes nothing of it, which is why a shorter text cannot also be an object |
| `AtomicFile.FileSystem.WriteFileAtomic` | electron/atomicFile.ts:55-71 | replaces the file, or on a write error leaves the folder as it was, or on a failed rename leaves what `RolledBack` says; every state on the way is one that `Passes` names |
| `AtomicFile.FileSystem.WriteSyncedTemp` | electron/atomicFile.ts:37-46 | while it runs the temp file holds any part of the text |
| `AtomicFile.FileSystem.KeepPrevious` | electron/atomicFile.ts:89-96 | unlinks the old fallback, then links the current file to its name, each where the volume lets it |
| `AtomicFile.FileSystem.ListTempFiles` | electron/atomicFile.ts:117-137 | lists exactly the temp files |
| `AtomicFile.FileSystem.RemoveTempFiles` | electron/atomicFile.ts:139-148 | removes exactly those listed, one after another |
| `StoreRecovery.CrashDuringSave` | electron/atomicFile.ts:55-71 | cut short between any two operations, or in the middle of a write, a save leaves a folder from which a start loads what it would have loaded before, or the store being saved |
| `StoreRecovery.CrashSafeExactlyWhen` | electron/atomicFile.ts:89-96 | and, where the old fallback can be unlinked, that holds if and only if there is no tie between the fallback a start rests on and a leftover temp file as new as the write |
| `StoreRecovery.AfterSave` | electron/durableStore.ts:161 | after an accepted save the store file is the newest copy and nothing else can be loaded |
| `StoreRecovery.PartIsNoCopy` | electron/durableStore.ts:59-85 | an unfinished temp file adds no copy to choose from |
| `StoreKnown.MayLoadExactlyWhen` | electron/durableStore.ts:111-126 | some set of unreadable fallbacks makes a load come up with a store if and only if it is in the store file, where complete, or a strictly newer copy; where the store file is not complete, in any copy, or it is empty |
| `StoreKnown.LoadsKnownExactlyWhen` | electron/durableStore.ts:111-126 | so loads come up with known stores only, whichever fallbacks cannot be read, if and only if all of those copies hold known ones |
| `StoreKnown.NothingPickedExactlyWhen` | electron/durableStore.ts:111-126 | a load finds nothing if and only if every complete copy is among the files it cannot read |
| `StoreKnown.NewestPickedExactlyWhen` | electron/durableStore.ts:111-126 | where there is a complete copy, a load picks a newest one if and only if one of those can be read |
| `StoreKnown.PassesAreKnown` | electron/atomicFile.ts:55-71 | cut short anywhere, a save leaves only known stores and the one being saved to load, whichever fallbacks cannot be read |
| `StoreStarts.CrashDuringStart` | electron/durableStore.ts:111-138 | recovery is crash-idempotent: cut short anywhere and started again it loads nothing it could not have loaded the first time |
| `StoreStarts.CopyKept` | electron/durableStore.ts:105-138 | at every step of a recovery some complete copy is at least as new as the chosen one |
| `DurableStores.CorruptBytesSurvive` | electron/durableStore.ts:94-126 | a corrupt store file's bytes are in every state of a load under its own name or the quarantine name, whatever it loads |
| `StoreStarts.AsideKeepsEarlierExactlyWhen` | electron/durableStore.ts:94-103 | moving a corrupt store file aside costs an earlier one if and only if that bears the same name and is not the same file |
| `StoreStarts.StartedIsSettled` | electron/durableStore.ts:127-138 | a finished start leaves the store file as the newest copy, loads only it, and has removed the leftovers |
| `StoreStarts.NothingToLose` | electron/durableStore.ts:124-126 | where there is no complete copy, removing temp files changes nothing a start could load |
| `StoreStarts.RollbackKeeps` | electron/atomicFile.ts:63-69 | a failed rename changes nothing a start would load, unless the fallback the choice rests on was unlinked |
| `StoreStarts.RollbackLosesExactlyWhen` | electron/atomicFile.ts:63-69 | a failed rename costs the store if and only if the fallback was unlinked, was the copy a start would pick, and the other files give something else |
| `StoreRuns.HappensKeeps` | electron/durableStore.ts:111-169 | each event of a whole life of the store, accepted, refused by the disk, cut short or kept off the store file, whichever fallbacks a start cannot read, keeps every copy that matters within the known stores and the store file ahead of its fallback |
| `DurableRuns.PersistHappens` | electron/durableStore.ts:153-169 | every save the store makes, accepted, refused or not tried, is one of the events whose runs were proved safe |
| `DurableRuns.LoadHappens` | electron/durableStore.ts:111-138 | so is every load, whichever files cannot be read: finished, refused by the disk, empty-handed, or kept off the store file |
| `DurableRuns.CutLoadIsSafe` | electron/durableStore.ts:111-138 | cut short in any state it passes through, with any fault on the way and whichever files cannot be read, a load leaves a folder in which every copy that matters holds a known store |
| `StoreRuns.RunOnlyLoadsKnown` | electron/durableStore.ts:111-169 | so does every run from any folder whose store file leads its fallback: whichever fallbacks cannot be read, a start loads the store of the last accepted save or the one in flight, never a mix or anything older |
| `StoreRuns.FreshRunLoadsKnown` | electron/durableStore.ts:111-169 | in particular every run from an empty folder, with no exception |
| `StoreLead.LeadExcludesFaults` | electron/atomicFile.ts:89-96 | where the store file leads its fallback, neither the fatal tie nor the fatal rename failure can arise |
| `StoreLead.PassesKeepLead` | electron/atomicFile.ts:55-71 | every state a save passes through keeps that lead |
| `StoreLead.StartKeepsLead` | electron/durableStore.ts:111-138 | every state a start passes through keeps it |
| `StoreLead.LoneFallbackIsLost` | electron/atomicFile.ts:63-69 | a folder damaged to hold the fallback alone, in which a failed rename loses the store |
| `StoreLead.LoneFallbackTies` | electron/atomicFile.ts:89-96 | the same with a leftover temp file of the same clock tick, in which a crash between unlinking and renaming loads the leftover |
| `StoreRuns.LastSavedComesBack` | electron/durableStore.ts:153-169 | after an accepted save, on whatever folder, every later start loads exactly it until another save is tried, through any refusals, stops, interrupted starts and fallbacks that cannot be read |
| `DurableStores.DurableStore.LoadFromDisk` | electron/durableStore.ts:111-138 | loads the newest complete copy that can be read, leaves the folder as specified for each case and fault, never touches an unreadable store file, and passes only through states that `LoadPasses` names |
| `DurableStores.DurableStore.Settle` | electron/durableStore.ts:129-137 | makes the chosen copy the store file before it deletes any leftover |
| `DurableStores.DurableStore.Pick` | electron/durableStore.ts:112-123 | chooses the newest copy; the store file wins a tie, then the previous version |
| `DurableStores.DurableStore.Newest` | electron/durableStore.ts:87-91 | the most recently written candidate, the first of them on a tie |
| `DurableStores.DurableStore.Quarantine` | electron/durableStore.ts:94-103 | moves a corrupt store file aside, or turns saving off |
| `DurableStores.DurableStore.Persist` | electron/durableStore.ts:153-169 | saves the store or refuses, and does nothing at all once saving is off |
| `DurableStores.DurableStore.ReadStore` | electron/durableStore.ts:140-143 | loads on first use and serves from memory afterwards |
| `DurableStores.DurableStore.FlushDurableStore` | electron/durableStore.ts:187-196 | saves what is served, and on a refusal arms the retry |
| `DurableStores.DurableStore.ScheduleRetry` | electron/durableStore.ts:178-185 | arms the timer with the next delay unless one is armed or saving is off |
| `DurableStores.DurableStore.WriteStore` | electron/durableStore.ts:213-224 | a committed write is served only once saved; any other is served at once and flushed soon |
| `DurableStores.DurableStore.SealIfNeeded` | electron/durableStore.ts:288-305 | the stored form of a value, with the seal status recorded for the vault |
| `DurableStores.DurableStore.PruneVaultHistory` | electron/durableStore.ts:323-331 | leaves exactly the ten newest history entries |
| `DurableStores.DurableStore.ArchiveVaultSnapshot` | electron/durableStore.ts:333-337 | keeps the replaced vault as backup and in the history |
| `DurableStores.DurableStore.Guarded` | electron/durableStore.ts:361-394 | refuses a write the vault guard does not allow, and archives before any it does |
| `DurableStores.DurableStore.DurableGet` | electron/durableStore.ts:339-349 | what is served for a key, unsealed, or nothing |
| `DurableStores.DurableStore.DurableSet` | electron/durableStore.ts:351-409 | a write is exactly the specified change of served values, file, timer and retry delay |
| `DurableStores.DurableStore.VaultOnDisk` | electron/durableStore.ts:412-417 | a saved vault reads back exactly when the store file can be read |
| `DurableStores.DurableStore.DurableRemove` | electron/durableStore.ts:419-435 | a removal likewise, with a backup of a removed vault |
| `DurableStores.DurableStore.DurableWipeWallet` | electron/durableStore.ts:487-505 | a reset removes exactly the wallet keys and says how many, or throws with nothing changed |
| `DurableStores.LoadedIsStarted` | electron/durableStore.ts:111-138 | a load that goes through, whatever it cannot read, ends as the start with the copy it picked and stands in exactly the same states on the way |
| `DurableRuns.ReachedIsOk` | electron/durableStore.ts:178-224 | in every state a process reaches, whichever files its loads could not read, served values no start may load have a timer armed unless saving is off, every delay is 150 ms or between 2 and 60 s, and the store file leads its fallback; where the fallbacks could be read the same holds of what a start would load |
| `DurableRuns.StepOk` | electron/durableStore.ts:178-224 | every load, write, removal, reset and flush keeps both, whatever the disk does to its saves |
| `DurableSound.LoadOk` | electron/durableStore.ts:111-143 | a load leaves memory serving what some start may load again, what every start would load where the fallbacks could be read, or saving off |
| `DurableRuns.UnreadableFallbackIsLost` | electron/durableStore.ts:111-126 | where a folder holds the fallback alone and it cannot be read, a load comes up empty with saving on, and the next save leaves its store nowhere |
| `DurableRuns.UnreadableTempIsLost` | electron/durableStore.ts:105-126 | where a folder holds one complete temp file alone and it cannot be read, the load deletes it |
| `DurableRuns.EmptyLoadDeletesExactlyWhen` | electron/durableStore.ts:124-126 | a load that finds nothing where there is no store file deletes a complete copy if and only if some temp file is one and could not be read |
| `DurableSound.FlushOk` | electron/durableStore.ts:187-196 | a flush keeps what is served and keeps memory and disk agreed; accepted, it leaves all of it on disk |
| `DurableSound.SetOk` | electron/durableStore.ts:351-409 | so does a write, accepted or refused, with the seal status it may save first |
| `DurableModel.DelaysBackOff` | electron/durableStore.ts:178-185 | retry delays never shrink, stay within range, and stop growing only at a minute |
| `DurableModel.RefusedSetLeaves` | electron/durableStore.ts:351-409 | a refused write leaves served values as they were and, the seal status aside, the file too, unless the status was saved, which takes all that was served to disk; the one other case is a vault saved and then not readable |
| `DurableModel.RefusedSetSavesExactlyWhen` | electron/durableStore.ts:279-305 | a refused write changes the file's other values if and only if its seal status was saved and memory held values the file did not |
| `DurableModel.RefusedSetSavesServed` | electron/durableStore.ts:279-305 | such a call: a vault that is no JSON is refused, and all that waited for its flush is on disk |
| `DurableModel.RefusedCommitServesOn` | electron/durableStore.ts:213-219 | a refused removal or reset changes neither served values nor the store file |
| `DurableModel.AcceptedSetIsOnDisk` | electron/durableStore.ts:351-409 | an accepted committed write is on disk as the whole served store, every earlier debounced write included, and is all a start can load |
| `DurableModel.AcceptedRemovalIsOnDisk` | electron/durableStore.ts:419-435 | so is an accepted committed removal, with the backup of a removed vault |
| `DurableModel.AcceptedWipeIsOnDisk` | electron/durableStore.ts:487-505 | so is an accepted reset, which keeps exactly the surviving keys |
| `DurableModel.PersistedLoads` | electron/durableStore.ts:153-169 | what was saved is the newest copy and the only store a start can load |
| `DurableModel.SetKeepsIdentity` | electron/durableStore.ts:361-394 | without the override no `durableSet`, accepted or refused, changes whose vault is served |
| `Vault.IdentityNeverChanges` | electron/durableStore.ts:351-409 | over any sequence of writes without override, removal or reset, each naming its owner, the stored identity never changes, sealed or not |
| `Vault.GuardRefusesExactlyWhen` | electron/durableStore.ts:361-389 | between two vaults that name their owners the guard refuses exactly an unasked change of owner |
| `Vault.PassedWriteIsStored` | electron/durableStore.ts:361-394 | a write the guard lets through stores its own identity, and changes the owner only if asked to or if one side names none |
| `Vault.NamelessVaultChangesOwner` | electron/durableStore.ts:372-389 | the gap the guard leaves, as a run: two ordinary writes, neither asking for it, after which the stored vault is another's |
| `Vault.SealedOpens` | electron/durableStore.ts:288-321 | what is stored, sealed or not, opens to what was written |
| `Vault.PutAside` | electron/durableStore.ts:333-337 | an overwrite or removal keeps the vault, word for word, as the backup and as the newest history entry under its own stamp |
| `Vault.LastTenStay` | electron/durableStore.ts:323-337 | over any run with increasing equal-length stamps, each of the last ten vaults put aside is in the history under its own stamp, word for word |
| `Vault.StampOrder` | electron/durableStore.ts:323-326 | stamps of equal length sort as text the way they do as numbers |
| `Vault.PrunedKeepsNewestTen` | electron/durableStore.ts:323-331 | pruning keeps exactly the last ten of the history in key order, and nothing else changes |
| `Vault.ReplacedVaultStays` | electron/durableStore.ts:323-337 | a history entry stays until ten newer vaults were put aside, through any number of other operations |
| `ChartValidators.Validator.ValidateChart` | src/apps/chartValidator.ts:91-404 | the checker finds no error if and only if the JSON reads as a chart of the format, within its size, whose references all hold |
| `ChartValidators.Validator.ExactKeys` | src/apps/chartValidator.ts:96-101 | no error exactly when every required key is there and no unnamed one |
| `ChartValidators.Validator.FieldOf` | src/apps/chartValidator.ts:161-168 | no error exactly when the name is a declared field of an allowed type |
| `ChartValidators.Validator.Reference` | src/apps/chartValidator.ts:169-176 | likewise for a `{ field }` reference |
| `ChartValidators.Validator.CheckFields` | src/apps/chartValidator.ts:133-159 | no error exactly when the fields decode, and then the declared types are theirs |
| `ChartValidators.Validator.CheckEffects` | src/apps/chartValidator.ts:179-265 | no error exactly when every effect decodes and refers to fields it can use |
| `ChartValidators.Validator.CheckEffect` | src/apps/chartValidator.ts:181-262 | the same for one effect |
| `ChartValidators.Validator.CheckPayment` | src/apps/chartValidator.ts:188-220 | the same for a payment or a request, its split and its coin |
| `ChartValidators.Validator.CheckStates` | src/apps/chartValidator.ts:267-402 | no error exactly when every state decodes and fits |
| `ChartValidators.Validator.CheckEffectState` | src/apps/chartValidator.ts:300-309 | an effect state: its effect declared, its targets declared, a decline target exactly when approval is needed |
| `ChartValidators.Validator.CheckViewState` | src/apps/chartValidator.ts:310-402 | a view state: its blocks, and transitions for exactly the events they send |
| `ChartValidators.Validator.CheckView` | src/apps/chartValidator.ts:319-358 | every block fits, and the events found are those the blocks send |
| `ChartValidators.Validator.CheckBlock` | src/apps/chartValidator.ts:320-357 | no error exactly when the block decodes, its texts' placeholders fit and its fields do |
| `ChartValidators.Validator.CheckPlaceholders` | src/apps/chartValidator.ts:274-286 | no error exactly when every placeholder reads something a declared field has |
| `ChartValidators.Validator.CheckTransition` | src/apps/chartValidator.ts:370-400 | no error exactly when a transition decodes and fits |
| `ChartValidators.AcceptedChartIsSound` | src/apps/chartValidator.ts:91-404 | checker soundness end to end: a chart the checker takes only ever reaches configurations where everything is in place, and never gets stuck |
| `ChartSoundness.ReachedIsSound` | src/apps/chartRunner.ts:127-265 | in every reachable configuration the state is declared, every value has its field's type (amounts positive safe integers, texts at most 500 long), the pending effect is the state's own with its own copy, and no selection dangles |
| `ChartSoundness.NeverStuck` | src/apps/chartRunner.ts:127-265 | no event, in whatever order, makes the runner look up something that is not there |
| `ChartSoundness.ViewsRender` | src/apps/chartFormat.ts:41-89 | every text of every block in view renders |
| `ChartSoundness.HandleGood` | src/apps/chartRunner.ts:192-246 | one event keeps all of that |
| `ChartSoundness.EnterGood` | src/apps/chartRunner.ts:135-149 | so does entering a state, through any chain of effects that cannot be resolved |
| `ChartSoundness.ResultKeeps` | src/apps/chartRunner.ts:93-116 | so does applying an effect's answer |
| `ChartSoundness.ResolveNotWrong` | src/apps/chartEffects.ts:115-181 | a fitting effect never reads a value of the wrong shape |
| `ChartSoundness.CoercedHasType` | src/apps/chartRunner.ts:57-83 | an accepted input has its field's type |
| `ChartSoundness.OnlyApprovedRuns` | src/apps/chartRunner.ts:134-176 | over every run, a payment, item, signature, deletion or block reaches the wallet only on approval in its own effect state, and is to the letter the effect its copy was made from |
| `ChartSoundness.OnceAnEntry` | src/apps/chartRunner.ts:151-176 | between two effects handed to the wallet the first has been answered: no entry runs its effect twice |
| `ChartSoundness.HandledMessagesLeave` | src/apps/chartRunner.ts:106-115 | messages acknowledged or deleted leave every list, no other message does, and nothing else but the ticks changes |
| `ChartSoundness.TakenWithItsNeeds` | src/apps/chartRunner.ts:221-246 | a transition is taken only with every field it needs, and opens exactly the listed row that was named |
| `ChartSoundness.ToggleKeeps` | src/apps/chartRunner.ts:205-219 | ticking and unticking keeps a selection free of repeats and of ids that name no row |
| `ChartSoundness.SelectionResolvesExactly` | src/apps/chartEffects.ts:89-101 | a delete or acknowledge over ticked messages resolves to exactly them, in the order they were ticked |
| `ChartEffects.FindAllInOrder` | src/apps/chartEffects.ts:89-96 | ids that are all listed resolve one for one, in order |
| `ChartEffects.GuardedIffApproved` | src/apps/chartEffects.ts:17-28 | an effect resolves to an action that waits for approval exactly when it was declared as one |
| `ChartEffects.SplitIsFair` | src/apps/chartEffects.ts:130-150 | while no more friends are asked than the ways the amount is split, together they are asked for no more than it and lose less than a unit a way |
| `ChartEffects.SplitFairExactlyWhen` | src/apps/chartEffects.ts:130-150 | asking so many friends for a share each is safe for every amount if and only if they are no more than the ways it is split |
| `ChartEffects.SplitCanOverask` | src/apps/chartEffects.ts:130-150 | a request that asks three friends for the whole amount each, being split by another list |
| `ChartEffects.CopyTellsPaymentsApart` | src/apps/chartEffects.ts:193-206 | one approval copy stands for one amount, coin, network, note and recipient name |
| `ChartEffects.AmountsReadApart` | src/apps/chartEffects.ts:31-33 | two amounts never read the same |
| `ChartEffects.GatherSenders` | src/apps/chartEffects.ts:269-273 | the names at the places of each sender's first message |
| `ChartEffects.FirstPlacesAre` | src/apps/chartEffects.ts:269-273 | those places come in order and are exactly the first messages: each sender once, in the order they first wrote |
| `ChartFormat.FilledRenders` | src/apps/chartFormat.ts:41-89 | placeholders the checker passed render whatever well-shaped values are held |
| `ChartFormat.PiecesSpellText` | src/apps/chartFormat.ts:84-88 | cutting a text into placeholders and the rest loses nothing |
| `ChartTermination.MacrostepsTerminate` | src/apps/chartRunner.ts:140-149 | with acyclic `onError` edges among effect states, every entry comes to rest within as many passes as there are effect states |
| `ChartTermination.LoopsExactlyWhen` | src/apps/chartRunner.ts:140-149 | entering goes round for ever if and only if the state is in a set of the chart's states that, with the values held, pass on only among themselves |
| `ChartTermination.ComesToRest` | src/apps/chartRunner.ts:140-149 | what does not go round comes to rest within as many passes as there are effect states |
| `ChartRestless.CheckerAllowsLoops` | src/apps/chartValidator.ts:300-308 | a chart the checker takes, its size included, that goes round for ever as it starts: acyclic edges are not asked for |
| `ChartPackets.ShareRoundTrip` | src/apps/chartShare.ts:77-126 | a verified chart's share fits its size limit, and opened where no other key holds the author's name gives the same chart, hash and name |
| `ChartPackets.ShareFits` | src/apps/chartShare.ts:13-14 | the packet adds less than its 1024 bytes to the chart |
| `ChartPackets.PacketPrints` | src/apps/chartShare.ts:81-83 | the packet's canonical text, key by key |
| `ChartSharing.CanonicalTextIs` | src/apps/chartSignature.ts:31-33 | what is hashed does not depend on key order |
| `ChartSharing.UnsignedPrints` | src/apps/chartSignature.ts:25-28 | a chart that prints still prints without its signature |
| `ChartSharing.UnsupportedNeeds` | src/apps/chartValidator.ts:407-419 | nothing is missing exactly when the wallet offers every coin, network and box the chart needs |
| `ChartSharing.SlugIsReadable` | src/apps/chartShare.ts:34-43 | whatever the author is called, the slug is half a readable name and at most 32 long |
| `ChartSharing.NameResolvesExactlyWhen` | src/apps/chartShare.ts:46-54 | a chart's name has the stored form of a typed one if and only if its id is itself a slug |
| `ChartSharing.BoundChartFoundExactlyWhen` | src/apps/chartShare.ts:129-142 | a chart just bound is found under its own name if and only if its id is a slug; else nothing is found, whatever the book holds |
| `ChartSharing.UnfindableIds` | src/apps/chartValidator.ts:119 | `a--b` and `ab-` are ids a chart may have and no slugs |
| `ChartSharing.BindKeepsOwners` | src/apps/chartShare.ts:129-136 | binding never gives an author name a second key nor takes a name from its key |
| `ChartSharing.TakenNameIsRefused` | src/apps/chartShare.ts:86-89 | an author name one key holds is refused to every other |
| `ChartSharing.NameBookFromCharts` | src/apps/chartShare.ts:144-151 | the shipped book has one key an author, and every shipped name is spoken for |
| `ArchiveModel.CutCreateIsSafe` | electron/atomicFile.ts:103-112 | cut short anywhere, creating a snapshot leaves it complete or absent, no other changed, every hash true |
| `ArchiveModel.CutSweepIsSafe` | electron/brc39Archive.ts:217-247 | cut short anywhere and whatever cannot be read, linked in or removed, a sweep has changed no snapshot and made no copy that was not there, and, unless two complete copies of one snapshot differ, lost no complete one |
| `ArchiveModel.TempLostExactlyWhen` | electron/brc39Archive.ts:231-243 | a complete temp file is lost in its own sweeping if and only if its snapshot's name already holds other bytes, which then share its digits |
| `ArchiveModel.SweepKeepsAllExactlyWhen` | electron/brc39Archive.ts:217-247 | a sweep with nothing going wrong keeps every complete copy if and only if no two complete copies of one snapshot differ |
| `ArchiveModel.SweepFinishes` | electron/brc39Archive.ts:217-247 | such a sweep leaves no temp file and every complete copy under its snapshot's own name |
| `ArchiveModel.CutWriteThenSweep` | electron/brc39Archive.ts:104-166 | after a cut write and a sweep, whatever goes wrong in it, every hash is true, every earlier snapshot as it was, and, unless other bytes on hand share its digits, the interrupted snapshot holds its bytes or is absent, and a complete copy of it stays one, in its place if nothing goes wrong |
| `ArchiveModel.CutWriteExample` | electron/brc39Archive.ts:217-247 | a folder beside an earlier snapshot in which all that is asked and met |
| `ArchiveModel.CutWriteIsSafe` | electron/brc39Archive.ts:104-166 | cut short at any step, its pruning included, a write leaves every hash true, the new snapshot complete or absent, none rewritten, and none gone but what pruning was removing, each no newer than all that stay |
| `ArchiveModel.NewEnoughStays` | electron/brc39Archive.ts:85-97 | with fewer than forty others as new a snapshot survives pruning |
| `ArchiveModel.OldEnoughGoes` | electron/brc39Archive.ts:85-97 | with forty strictly newer it does not |
| `ArchiveModel.WrittenAndPruned` | electron/brc39Archive.ts:150-166 | a folder in which the snapshot just written is the one pruned |
| `Archives.Archive.WriteFileExclusive` | electron/atomicFile.ts:103-112 | creates a snapshot whole or not at all and never over another, through the states named |
| `Archives.Archive.WriteSnapshot` | electron/brc39Archive.ts:104-166 | archives new bytes under a new name and then removes only the oldest, or reports the name they already have, passing over snapshots it cannot read; undisturbed it succeeds with fewer than forty others as new and, unless the new one cannot be unlinked, fails with forty newer; it passes only through the states `WritePasses` names |
| `Archives.Archive.PruneOldest` | electron/brc39Archive.ts:85-97 | leaves the forty newest and those it cannot unlink, and rewrites none, through states that lack only what it removes |
| `Archives.Archive.ListArchive` | electron/brc39Archive.ts:168-184 | the snapshots, each once, newest first |
| `Archives.Archive.FindSame` | electron/brc39Archive.ts:120-131 | finds the bytes under whatever name they are archived and can be read |
| `Archives.Archive.Sweep` | electron/brc39Archive.ts:217-247 | sweeps every temp file, through the states named, whatever cannot be read, linked in or removed, and counts what it linked in and what it reports removed, which includes files it could not remove |
| `NativeStores.NativeStore.Get` | native-desktop/src/durable.rs:53-87 | answers what the map holds, cached or not: the value, or nothing where it is not there or does not open |
| `NativeStores.NativeStore.Set` | native-desktop/src/durable.rs:89-118 | does what the map's rules say under every fault: an empty value removes, the vault is guarded, and saving it records its seal; folder and cache still stand for the map where each of its writes is harmless |
| `NativeStores.NativeStore.Remove` | native-desktop/src/durable.rs:120-132 | takes the key's files away where they can be unlinked and the key out of the cache, and where that is harmless folder and cache still stand for one map |
| `NativeStores.NativeStore.Keys` | native-desktop/src/durable.rs:134-154 | the map's keys, each once |
| `NativeStores.NativeStore.WipeAll` | native-desktop/src/durable.rs:156-165 | leaves exactly the keys whose files could not be unlinked, and reports all of them removed |
| `NativeStores.NativeStore.Put` | native-desktop/src/durable.rs:192-217 | stores the value and reports it as the code does under each fault, and where the fault is harmless the folder and cache still stand for one map |
| `NativeFiles.StaysMapExactlyWhen` | native-desktop/src/durable.rs:192-217 | the store stays a map if and only if the fault is harmless: the side file is right, and a file that did not read back was not cached otherwise |
| `NativeFiles.RemovalStaysMapExactlyWhen` | native-desktop/src/durable.rs:120-132 | after a removal the store stays a map if and only if the file is gone, or the key is still listed and its value does not open anyway |
| `NativeGuard.OwnerNeverChanges` | native-desktop/src/durable.rs:89-118 | over any run of writes without the override, under every fault, each naming its owner, a vault that opens and names its owner stays that owner's |
| `NativeGuard.VaultReplacedExactlyWhen` | native-desktop/src/durable.rs:96-103 | such a write takes the stored vault's place, the disk willing, if and only if that has the same owner or an empty one, or does not open |
| `NativeGuard.NativeGuardIsWeakerExactlyWhen` | native-desktop/src/durable.rs:250-277 | this guard stops nothing the Electron one passes, and passes what that stops exactly when the stored vault does not open, is written again and is no JSON or null, or one of the two is null or has an empty name as listed |
| `NativeGuard.ElectronStopsIs` | electron/durableStore.ts:361-394 | the Electron guard it is compared with is the one that store applies |
| `NativeStores.NativeStore.DropCache` | native-desktop/src/durable.rs:36-43 | losing the cache changes no later answer |
| `NativeFiles.NamesApart` | native-desktop/src/durable.rs:223-236 | different keys that do not share a hash have different files and different side files |
| `NativeFiles.BothListedExactlyWhen` | native-desktop/src/durable.rs:223-236 | two keys put in an empty folder are both listed if and only if they do not share a hash; else the first is gone |
| `NativeFiles.DataNames` | native-desktop/src/durable.rs:223-236 | no key's file is mistaken for a temp or a side file |
| `NativeFiles.FileIffKey` | native-desktop/src/durable.rs:219-232 | a key is in the map exactly when its file is in the folder |
| `NativeFiles.ListedAreKeys` | native-desktop/src/durable.rs:134-154 | the folder lists exactly the map's keys |
| `NativeFiles.PutStands` | native-desktop/src/durable.rs:192-217 | a write of one key keeps the folder standing for the map, all other keys as they were |
| `NativeFiles.FailedPutStands` | native-desktop/src/durable.rs:192-202 | a write whose temp file or rename failed keeps the folder standing for the same map |
| `NativeFiles.RemoveStands` | native-desktop/src/durable.rs:120-132 | so does a harmless removal |
| `NativeFiles.ListedExactlyWhen` | native-desktop/src/durable.rs:134-154 | put alone in an empty folder a key is listed again if and only if its own file name is not a reserved one |
| `NativeFiles.StoredOpens` | native-desktop/src/durable.rs:167-190 | what is stored opens to what was given |

## Left out

- Express, CORS, TLS, listeners, the stdio transport, windows, prompts on screen and all user interface: their callbacks are the steps.
- The window's own acquiring loop (`electron/bridgeWindow.ts` is not part of this model): it ends in ready or refused at any later time.
- Deadlines as durations: a deadline step may come at any time it is armed, which allows more runs than a clock would.
- Printing a rewritten error body: the object it becomes is modelled, and the wallet's own choice of codes is not.
- Lower-casing and trimming of paths cover ASCII, which is all a request path can hold.
- BridgeSafety.JoinersAreHeld: a joiner leaves by its owner's request id rather than through the run object it closed over; the two agree, as an id is never used for a second run.
- Directory syncs: that a renamed file survives a power cut only once its folder is synced is not modelled; a crash keeps every completed operation.
- File permissions and the mode of a new file.
- DurableRuns.ReachedIsOk: with a fallback that cannot be read, a save refused and a newer temp file left, memory may serve another copy than the newest, so what it serves is then one a start may load and not the one it would load with every file readable.
- Lone surrogates: a character here is a Unicode scalar value, so a text cut inside a surrogate pair loses the half. Lengths and key order do count UTF-16 units.
- Numbers in a chart written otherwise than as plain integers (`1.0`, `1e2`) are not read as integers, and negative zero is not told from zero.
- Members whose value is undefined, and property names inherited from an object's prototype, in a chart given as a JavaScript value rather than as JSON.
- ChartShape: whether an address is fixed https, and Unicode normalization inside `nameSlug`, are parameters.
- `describeEffect`, `chartCoinUses`, `describeCoinUse`, `formatMessageTime` beyond its unknown time, and locale formats other than digits in groups of three.
- Error messages of the checker are shortened; which errors there are beyond none is not specified.
- The wallet's ports (`desktopEffectPorts.ts` is not part of this model): an answer is any well-typed result or an error.
- `readBrc39ArchiveSnapshot`, several identities' folders side by side, and a snapshot that cannot be listed.
- NativeStores.NativeStore.Set: a value that already bears the sealed prefix is excluded; stored unsealed, it would be served as written until a restart and opened after it.
- Native keys that differ only by case on a file system that ignores it, the key `.`, and files there that are not text.
