/**
 * The store held in memory (electron/durableStore.ts): what every call makes
 * of the served values, the file, the flush timer and the saving block, and
 * what is on disk once a write was accepted or refused.
 */
module DurableModel {
  import opened Prelude
  import opened StoreText
  import opened AtomicFile
  import opened StoreRecovery
  import opened JsonText
  import opened Vault

  const FLUSH_DEBOUNCE_MS := 150
  const RETRY_MIN_MS := 2000
  const RETRY_MAX_MS := 60000

  /** The flush timer holds the delay it was armed with. */
  datatype Machine = Machine(dir: Dir, cache: Option<Store>, timer: Option<nat>, retry: nat, blocked: bool)

  /** What does not change while the process runs: its id, and the order its objects keep their keys in. */
  datatype Env = Env(pid: nat, order: Store -> StoreEntries)

  /** What the file system does to one save. */
  datatype Io = Io(now: int, volume: Volume, fault: Fault)

  ghost predicate Orders(env: Env) {
    forall store :: DistinctKeys(env.order(store)) && StoreOf(env.order(store)) == store
  }

  /** One such order. */
  ghost function SomeOrder(store: Store): (entries: StoreEntries)
    ensures forall i :: 0 <= i < |entries| ==> entries[i].0 in store
    decreases |store|
  {
    if store == map[] then []
    else
      var key :| key in store;
      assert |store - {key}| < |store| by { Smaller(store, key); }
      [(key, store[key])] + SomeOrder(store - {key})
  }

  lemma {:induction false} Smaller(store: Store, key: string)
    requires key in store
    ensures |store - {key}| < |store|
  {
    assert (store - {key}).Keys == store.Keys - {key};
    assert |store.Keys - {key}| < |store.Keys|;
  }

  lemma {:induction false} OneMoreEntry(key: string, value: string, rest: StoreEntries)
    requires DistinctKeys(rest) && forall i :: 0 <= i < |rest| ==> rest[i].0 != key
    ensures DistinctKeys([(key, value)] + rest) && StoreOf([(key, value)] + rest) == StoreOf(rest)[key := value]
  {
    var all := [(key, value)] + rest;
    assert all[1..] == rest;
    forall i, j | 0 <= i < j < |all| ensures all[i].0 != all[j].0 {
      assert all[j] == rest[j - 1];
      if i > 0 { assert all[i] == rest[i - 1]; }
    }
  }

  lemma {:induction false} SomeOrderOrders(store: Store)
    ensures DistinctKeys(SomeOrder(store)) && StoreOf(SomeOrder(store)) == store
    decreases |store|
  {
    if store != map[] {
      var entries := SomeOrder(store);
      var key, rest := entries[0].0, entries[1..];
      assert entries == [(key, store[key])] + rest && rest == SomeOrder(store - {key});
      Smaller(store, key);
      SomeOrderOrders(store - {key});
      OneMoreEntry(key, store[key], rest);
      PutBack(store, key);
    }
  }

  lemma {:induction false} PutBack(store: Store, key: string)
    requires key in store
    ensures (store - {key})[key := store[key]] == store
  {
  }

  /** Every process has such an order to keep. */
  lemma {:induction false} OrdersExist(pid: nat)
    ensures exists env :: Orders(env) && env.pid == pid
  {
    var env := Env(pid, store => SomeOrder(store));
    forall store ensures DistinctKeys(env.order(store)) && StoreOf(env.order(store)) == store { SomeOrderOrders(store); }
    assert Orders(env);
  }

  function SaveOf(env: Env, store: Store, io: Io): Save {
    Save(env.pid, Serialize(env.order(store)), io.now, io.volume)
  }

  // ----- saving -----

  function Persist(m: Machine, store: Store, io: Io, env: Env): (Machine, bool) {
    if m.blocked then (m, false)
    else match io.fault
      case NoFault => (m.(dir := Renamed(m.dir, SaveOf(env, store, io))), true)
      case WriteFails(_) => (m, false)
      case RenameFails => (m.(dir := RolledBack(m.dir, SaveOf(env, store, io))), false)
  }

  function NextDelay(retry: nat): nat {
    var doubled := if retry > 0 then retry * 2 else RETRY_MIN_MS;
    if doubled < RETRY_MAX_MS then doubled else RETRY_MAX_MS
  }

  function ScheduleRetry(m: Machine): Machine {
    if m.blocked || m.timer.Some? then m
    else m.(retry := NextDelay(m.retry), timer := Some(NextDelay(m.retry)))
  }

  function Flush(m: Machine, io: Io, env: Env): (Machine, bool) {
    var cleared := m.(timer := None);
    match m.cache
    case None => (cleared, true)
    case Some(store) =>
      var (saved, ok) := Persist(cleared, store, io, env);
      if ok then (saved.(retry := 0), true) else (ScheduleRetry(saved), false)
  }

  function ScheduleFlush(m: Machine): Machine {
    if m.timer.Some? then m else m.(timer := Some(FLUSH_DEBOUNCE_MS))
  }

  function WriteStore(m: Machine, store: Store, committed: bool, io: Io, env: Env): (Machine, bool) {
    if committed then
      var (saved, ok) := Persist(m, store, io, env);
      if ok then (saved.(cache := Some(store), timer := None, retry := 0), true) else (saved, false)
    else (ScheduleFlush(m.(cache := Some(store))), true)
  }

  // ----- keys -----

  const COMMITTED_PREFIXES := [
    "handcash.wallet.signedChequeArchive", "handcash.wallet.pendingMinerOutbox", "handcash.wallet.utxoLocks",
    "handcash.brc29.pendingOutbox", "handcash.item.pendingOutbox", "handcash.brc100.deviceDek",
    "handcash.createdBeef", "handcash.autoPayReservations", "handcash.toolboxDatabasePointer",
    "handcash.publicIdentities", "handcash.issuerIdentities", "handcash.custodyJournal"]

  predicate RequiresCommittedWrite(key: string) {
    IsVaultKey(key) || exists i | 0 <= i < |COMMITTED_PREFIXES| :: StartsWith(key, COMMITTED_PREFIXES[i])
  }

  const WIPE_SURVIVE_KEYS := ["handcash.appearance", "handcash.sfx.enabled", "handcash.logs.uploadUrl", "handcash.update.mode"]

  const WIPE_SURVIVE_PREFIX := "handcash.brc100.derivedChangeEcho.v1"

  predicate ShouldWipe(key: string) {
    StartsWith(key, "handcash.") && key !in WIPE_SURVIVE_KEYS && !StartsWith(key, WIPE_SURVIVE_PREFIX)
  }

  // ----- the calls, once the store is loaded -----

  /** The two saves a write may make: the seal status first, then the write itself. */
  datatype WriteIo = WriteIo(status: Io, write: Io, readable: bool)

  function SetVaultSealStatus(m: Machine, store: Store, sealed: bool, io: Io, env: Env): Machine {
    WriteStore(m, store[VAULT_SEAL_STATUS_KEY := if sealed then "sealed" else "unsealed"], true, io, env).0
  }

  /** The machine once the value is sealed, which may have saved a new seal status. */
  function Sealing(m: Machine, key: string, value: string, ks: Keystore, io: Io, env: Env): Machine
    requires m.cache.Some?
  {
    if RecordsStatus(key, value) then SetVaultSealStatus(m, m.cache.value, Sealed(ks, key, value).1, io, env) else m
  }

  lemma {:induction false} SealingKeepsCache(m: Machine, key: string, value: string, ks: Keystore, io: Io, env: Env)
    requires m.cache.Some?
    ensures Sealing(m, key, value, ks, io, env).cache.Some?
  {
  }

  function DurableSet(m: Machine, key: string, value: string, allow: bool, ks: Keystore, stamp: nat, ios: WriteIo, env: Env): (Machine, bool)
    requires m.cache.Some?
  {
    if key == "" then (m, false) else
    var sealing := Sealing(m, key, value, ks, ios.status, env);
    SealingKeepsCache(m, key, value, ks, ios.status, env);
    match Replaced(sealing.cache.value, key, value, Sealed(ks, key, value).0, ks, allow, stamp)
    case None => (sealing, false)
    case Some(store) =>
      var (written, ok) := WriteStore(sealing, store, RequiresCommittedWrite(key), ios.write, env);
      // a vault that does not read back from disk is not reported saved
      if ok && IsVaultKey(key) && !ios.readable then (written.(cache := None), false) else (written, ok)
  }

  function DurableRemove(m: Machine, key: string, stamp: nat, io: Io, env: Env): (Machine, bool)
    requires m.cache.Some?
  {
    if key == "" then (m, false)
    else if key !in m.cache.value then (m, true)
    else WriteStore(m, Removed(m.cache.value, key, stamp), RequiresCommittedWrite(key), io, env)
  }

  function Wiped(store: Store): Store {
    map k | k in store && !ShouldWipe(k) :: store[k]
  }

  /** Whether the reset reached the disk; the call throws where it did not. */
  function DurableWipeWallet(m: Machine, io: Io, env: Env): (Machine, bool)
    requires m.cache.Some?
  {
    WriteStore(m, Wiped(m.cache.value), true, io, env)
  }

  // ----- memory and disk agree -----

  /** The store file is exactly what memory serves. */
  predicate OnDisk(m: Machine) {
    m.cache.Some? && Main in m.dir && ParseStore(m.dir[Main].text) == m.cache
  }

  /** The clock has not gone back, no stray temp file, and not the one fault that costs the store. */
  ghost predicate Benign(m: Machine, io: Io, env: Env) {
    && Temp(env.pid) !in m.dir && (forall n :: n in m.dir ==> m.dir[n].mtime <= io.now)
    && (io.fault.RenameFails? && io.volume.unlinks ==> !Chosen(m.dir, Previous))
  }

  lemma {:induction false} SaveIsTimely(m: Machine, store: Store, io: Io, env: Env)
    requires Benign(m, io, env)
    ensures Timely(m.dir, SaveOf(env, store, io))
  {
  }

  /** A save that was accepted is on disk and is what a start comes up with. */
  lemma {:induction false} PersistedLoads(m: Machine, store: Store, io: Io, env: Env)
    requires Orders(env) && Benign(m, io, env) && Persist(m, store, io, env).1
    ensures var saved := Persist(m, store, io, env).0;
            && Main in saved.dir && ParseStore(saved.dir[Main].text) == Some(store)
            && Chosen(saved.dir, Main) && Loads(saved.dir, store)
            && OnlyLoads(saved.dir, iset{store})
            && Temp(env.pid) !in saved.dir
  {
    var w, entries := SaveOf(env, store, io), env.order(store);
    SaveIsTimely(m, store, io, env);
    AfterSave(m.dir, w, entries);
    SavedStoreReadBack(entries);
    LoadsChosen(Renamed(m.dir, w), Main);
  }

  /** A save that was refused leaves the store file, and what a start comes up with, as they were. */
  lemma {:induction false} RefusedSaveKeeps(m: Machine, store: Store, io: Io, env: Env, served: Store)
    requires Benign(m, io, env) && !Persist(m, store, io, env).1
    ensures var kept := Persist(m, store, io, env).0;
            && kept == m.(dir := kept.dir)
            && (Main in kept.dir <==> Main in m.dir) && (Main in m.dir ==> kept.dir[Main] == m.dir[Main])
            && (Loads(m.dir, served) ==> Loads(kept.dir, served))
  {
    var w := SaveOf(env, store, io);
    if !m.blocked && io.fault.RenameFails? && Loads(m.dir, served) {
      RollbackStillLoads(m.dir, w, served);
    }
  }

  lemma {:induction false} RollbackStillLoads(d: Dir, w: Save, served: Store)
    requires Temp(w.pid) !in d && Loads(d, served) && !(w.volume.unlinks && Chosen(d, Previous))
    ensures Loads(RolledBack(d, w), served)
  {
    var x := RolledBack(d, w);
    if n :| Chosen(d, n) && ParseStore(d[n].text) == Some(served) {
      if n == Previous {
        assert x == d;
      } else {
        ChoiceSurvives(d, w, n);
        LoadsChosen(x, n);
      }
    } else {
      forall o ensures !Candidate(x, o) { assert !Candidate(d, o) && !Candidate(d, Main); }
    }
  }

  lemma {:induction false} ChoiceSurvives(d: Dir, w: Save, n: Name)
    requires Temp(w.pid) !in d && Chosen(d, n) && n != Previous
    ensures n in RolledBack(d, w) && RolledBack(d, w)[n] == d[n] && Chosen(RolledBack(d, w), n)
  {
    var x := RolledBack(d, w);
    assert Candidate(x, n);
    forall o | Candidate(x, o)
      ensures x[o].mtime < x[n].mtime || (x[o].mtime == x[n].mtime && Rank(n) <= Rank(o))
    {
      if o == Previous && !(Previous in d && x[Previous] == d[Previous]) {
        assert x[Previous] == d[Main] && Candidate(d, Main);
      } else {
        assert Candidate(d, o);
      }
    }
  }

  /** Refused in a row, the delays double from two seconds up to a minute, and the next success starts them over. */
  lemma {:induction false} DelaysBackOff(retry: nat)
    requires retry == 0 || RETRY_MIN_MS <= retry <= RETRY_MAX_MS
    ensures RETRY_MIN_MS <= NextDelay(retry) <= RETRY_MAX_MS
    ensures retry == NextDelay(retry) <==> retry == RETRY_MAX_MS
    ensures retry <= NextDelay(retry)
  {
  }

  /** Everything served but the seal status. */
  function Rest(store: Store): Store {
    store - {VAULT_SEAL_STATUS_KEY}
  }

  /** The store file's values, but for the seal status; none where there is no such file. */
  function RestOnDisk(d: Dir): Option<Store> {
    if Main !in d then None
    else match ParseStore(d[Main].text)
      case None => None
      case Some(store) => Some(Rest(store))
  }

  lemma {:induction false} StatusSavedOrNot(m: Machine, store: Store, io: Io, env: Env)
    requires m.cache.Some? && Orders(env) && Benign(m, io, env)
    ensures var after := WriteStore(m, store, true, io, env).0;
            || (after.cache == m.cache && RestOnDisk(after.dir) == RestOnDisk(m.dir))
            || (after.cache == Some(store) && OnDisk(after) && after.timer.None?)
  {
    if Persist(m, store, io, env).1 {
      PersistedLoads(m, store, io, env);
    } else {
      RefusedSaveKeeps(m, store, io, env, store);
    }
  }

  lemma {:induction false} SealingKeepsRest(m: Machine, key: string, value: string, ks: Keystore, io: Io, env: Env)
    requires m.cache.Some? && Orders(env) && Benign(m, io, env)
    ensures var after := Sealing(m, key, value, ks, io, env);
            && after.cache.Some? && Rest(after.cache.value) == Rest(m.cache.value)
            && (RestOnDisk(after.dir) == RestOnDisk(m.dir) || (OnDisk(after) && after.timer.None?))
  {
    if RecordsStatus(key, value) {
      var status := if Sealed(ks, key, value).1 then "sealed" else "unsealed";
      var store := m.cache.value[VAULT_SEAL_STATUS_KEY := status];
      StatusSavedOrNot(m, store, io, env);
      assert Rest(store) == Rest(m.cache.value) by { StatusAside(m.cache.value, status); }
    }
  }

  lemma {:induction false} StatusAside(store: Store, status: string)
    ensures Rest(store[VAULT_SEAL_STATUS_KEY := status]) == Rest(store)
  {
  }

  /** Whether the seal status is saved on the way, with everything served. */
  predicate SavesStatus(m: Machine, key: string, value: string, io: Io) {
    RecordsStatus(key, value) && !m.blocked && io.fault.NoFault?
  }

  lemma {:induction false} SealingOnDisk(m: Machine, key: string, value: string, ks: Keystore, io: Io, env: Env)
    requires m.cache.Some? && Orders(env) && Benign(m, io, env)
    ensures RestOnDisk(Sealing(m, key, value, ks, io, env).dir)
            == if SavesStatus(m, key, value, io) then Some(Rest(m.cache.value)) else RestOnDisk(m.dir)
  {
    if RecordsStatus(key, value) {
      var status := if Sealed(ks, key, value).1 then "sealed" else "unsealed";
      var store := m.cache.value[VAULT_SEAL_STATUS_KEY := status];
      StatusAside(m.cache.value, status);
      if SavesStatus(m, key, value, io) { PersistedLoads(m, store, io, env); } else { RefusedSaveKeeps(m, store, io, env, store); }
    }
  }

  /**
   * A refused write, the seal status aside: what is served is as it was, and so is the file, unless the status was saved,
   * which takes all that was served to disk with it. Or else the write was saved and, a vault, could not be read back.
   */
  lemma {:induction false} RefusedSetLeaves(m: Machine, key: string, value: string, allow: bool, ks: Keystore, stamp: nat, ios: WriteIo, env: Env)
    requires m.cache.Some? && Orders(env) && Benign(m, ios.status, env)
    requires Benign(Sealing(m, key, value, ks, ios.status, env), ios.write, env)
    requires !DurableSet(m, key, value, allow, ks, stamp, ios, env).1
    ensures var after := DurableSet(m, key, value, allow, ks, stamp, ios, env).0;
            if after.cache.Some? then
              && Rest(after.cache.value) == Rest(m.cache.value)
              && RestOnDisk(after.dir) == if SavesStatus(m, key, value, ios.status) then Some(Rest(m.cache.value)) else RestOnDisk(m.dir)
            else IsVaultKey(key) && !ios.readable && !m.blocked && ios.write.fault.NoFault?
  {
    SealingKeepsRest(m, key, value, ks, ios.status, env);
    SealingOnDisk(m, key, value, ks, ios.status, env);
    var sealing := Sealing(m, key, value, ks, ios.status, env);
    assert sealing.blocked == m.blocked;
    var next := Replaced(sealing.cache.value, key, value, Sealed(ks, key, value).0, ks, allow, stamp);
    if key != "" && next.Some? && RequiresCommittedWrite(key) && !Persist(sealing, next.value, ios.write, env).1 {
      RefusedSaveKeeps(sealing, next.value, ios.write, env, next.value);
    }
  }

  /** So the file's other values change if and only if the status was saved and memory held values the file did not. */
  lemma {:induction false} RefusedSetSavesExactlyWhen(m: Machine, key: string, value: string, allow: bool, ks: Keystore, stamp: nat, ios: WriteIo, env: Env)
    requires m.cache.Some? && Orders(env) && Benign(m, ios.status, env)
    requires Benign(Sealing(m, key, value, ks, ios.status, env), ios.write, env)
    requires !DurableSet(m, key, value, allow, ks, stamp, ios, env).1 && DurableSet(m, key, value, allow, ks, stamp, ios, env).0.cache.Some?
    ensures RestOnDisk(DurableSet(m, key, value, allow, ks, stamp, ios, env).0.dir) != RestOnDisk(m.dir)
            <==> SavesStatus(m, key, value, ios.status) && RestOnDisk(m.dir) != Some(Rest(m.cache.value))
  {
    RefusedSetLeaves(m, key, value, allow, ks, stamp, ios, env);
  }

  lemma {:induction false} EmptyVaultRefused(store: Store, raw: string, ks: Keystore, allow: bool, stamp: nat)
    requires VAULT_KEY in store
    ensures Replaced(store, VAULT_KEY, "", raw, ks, allow, stamp) == None
  {
    assert ParseDocument("") == None;
  }

  lemma {:induction false} NoStatusNoRest(store: Store)
    requires VAULT_SEAL_STATUS_KEY !in store
    ensures Rest(store) == store
  {
  }

  /** Such a call, whatever is served: a vault that is no JSON is refused, and all that was served is on disk with a status. */
  lemma {:induction false} RefusedSetSavesServed(served: Store, ks: Keystore, now: int, volume: Volume, env: Env)
    requires Orders(env) && VAULT_KEY in served && VAULT_SEAL_STATUS_KEY !in served
    ensures var m := Machine(map[], Some(served), Some(FLUSH_DEBOUNCE_MS), 0, false);
            var io := Io(now, volume, NoFault);
            var (after, ok) := DurableSet(m, VAULT_KEY, "", false, ks, 1, WriteIo(io, io, true), env);
            !ok && RestOnDisk(m.dir) == None && RestOnDisk(after.dir) == Some(served)
  {
    var m := Machine(map[], Some(served), Some(FLUSH_DEBOUNCE_MS), 0, false);
    var io := Io(now, volume, NoFault);
    KeyFacts();
    assert Benign(m, io, env);
    SealingOnDisk(m, VAULT_KEY, "", ks, io, env);
    SealingKeepsRest(m, VAULT_KEY, "", ks, io, env);
    NoStatusNoRest(served);
    var sealing := Sealing(m, VAULT_KEY, "", ks, io, env);
    assert VAULT_KEY in Rest(sealing.cache.value);
    EmptyVaultRefused(sealing.cache.value, Sealed(ks, VAULT_KEY, "").0, ks, false, 1);
  }

  /** An accepted committed write is on disk as the whole served store, every earlier debounced write included. */
  lemma {:induction false} AcceptedSetIsOnDisk(m: Machine, key: string, value: string, allow: bool, ks: Keystore, stamp: nat, ios: WriteIo, env: Env)
    requires m.cache.Some? && Orders(env) && Benign(m, ios.status, env) && RequiresCommittedWrite(key)
    requires Benign(Sealing(m, key, value, ks, ios.status, env), ios.write, env)
    requires DurableSet(m, key, value, allow, ks, stamp, ios, env).1
    ensures var after := DurableSet(m, key, value, allow, ks, stamp, ios, env).0;
            && OnDisk(after) && after.timer.None? && after.retry == 0
            && OnlyLoads(after.dir, iset{after.cache.value})
            && key in after.cache.value && after.cache.value[key] == Sealed(ks, key, value).0
            && (forall k :: k in m.cache.value && k != key && !IsVaultKey(k) ==>
                  k in after.cache.value && after.cache.value[k] == m.cache.value[k])
  {
    var sealing := Sealing(m, key, value, ks, ios.status, env);
    SealingKeepsRest(m, key, value, ks, ios.status, env);
    var next := Replaced(sealing.cache.value, key, value, Sealed(ks, key, value).0, ks, allow, stamp).value;
    PersistedLoads(sealing, next, ios.write, env);
    KeyFacts();
    forall k | k in m.cache.value && k != key && !IsVaultKey(k) ensures k in next && next[k] == m.cache.value[k] {
      assert k in Rest(m.cache.value);
      assert k in Rest(sealing.cache.value) && Rest(sealing.cache.value)[k] == m.cache.value[k];
      ArchiveKeepsOthers(sealing.cache.value, sealing.cache.value[if key in sealing.cache.value then key else k], stamp, k);
    }
  }

  /** A committed removal or reset that is reported done is on disk. */
  lemma {:induction false} AcceptedRemovalIsOnDisk(m: Machine, key: string, stamp: nat, io: Io, env: Env)
    requires m.cache.Some? && Orders(env) && Benign(m, io, env)
    requires key in m.cache.value && RequiresCommittedWrite(key) && DurableRemove(m, key, stamp, io, env).1
    ensures var after := DurableRemove(m, key, stamp, io, env).0;
            && OnDisk(after) && key !in after.cache.value
            && (key == VAULT_KEY ==> VAULT_BACKUP_KEY in after.cache.value && after.cache.value[VAULT_BACKUP_KEY] == m.cache.value[key])
  {
    KeyFacts();
    PersistedLoads(m, Removed(m.cache.value, key, stamp), io, env);
  }

  lemma {:induction false} AcceptedWipeIsOnDisk(m: Machine, io: Io, env: Env)
    requires m.cache.Some? && Orders(env) && Benign(m, io, env) && DurableWipeWallet(m, io, env).1
    ensures var after := DurableWipeWallet(m, io, env).0;
            && OnDisk(after) && OnlyLoads(after.dir, iset{after.cache.value})
            && (forall k :: k in after.cache.value <==> k in m.cache.value && !ShouldWipe(k))
            && (forall k :: k in after.cache.value ==> after.cache.value[k] == m.cache.value[k])
  {
    PersistedLoads(m, Wiped(m.cache.value), io, env);
  }

  /** A refused reset or removal that had to be committed serves what it served before. */
  lemma {:induction false} RefusedCommitServesOn(m: Machine, store: Store, io: Io, env: Env)
    requires Benign(m, io, env) && !WriteStore(m, store, true, io, env).1
    ensures var after := WriteStore(m, store, true, io, env).0;
            && after == m.(dir := after.dir)
            && RestOnDisk(after.dir) == RestOnDisk(m.dir)
  {
    RefusedSaveKeeps(m, store, io, env, store);
  }

  lemma {:induction false} SealingKeepsIdentity(m: Machine, key: string, value: string, ks: Keystore, io: Io, env: Env)
    requires m.cache.Some?
    ensures var after := Sealing(m, key, value, ks, io, env);
            after.cache.Some? && StoredIdentity(after.cache.value, ks.decrypt) == StoredIdentity(m.cache.value, ks.decrypt)
  {
    KeyFacts();
  }

  /** What a write leaves served: what was served once the value was sealed, or the store the guard passed. */
  lemma {:induction false} SetServes(m: Machine, key: string, value: string, allow: bool, ks: Keystore, stamp: nat, ios: WriteIo, env: Env)
    requires m.cache.Some?
    ensures var after := DurableSet(m, key, value, allow, ks, stamp, ios, env).0;
            var sealing := Sealing(m, key, value, ks, ios.status, env);
            && sealing.cache.Some?
            && (after.cache.None? || after.cache == m.cache || after.cache == sealing.cache
                || after.cache == Some(After(sealing.cache.value, Set(key, value, ks, allow, stamp))))
  {
  }

  /** The guard as served and saved: a write without the override leaves whose vault it is, accepted or refused. */
  lemma {:induction false} SetKeepsIdentity(m: Machine, key: string, value: string, ks: Keystore, stamp: nat, ios: WriteIo, env: Env)
    requires m.cache.Some? && Ordinary(Set(key, value, ks, false, stamp), ks.decrypt)
    requires StoredIdentity(m.cache.value, ks.decrypt).Some?
    ensures var after := DurableSet(m, key, value, false, ks, stamp, ios, env).0;
            after.cache.Some? ==> StoredIdentity(after.cache.value, ks.decrypt) == StoredIdentity(m.cache.value, ks.decrypt)
  {
    SealingKeepsIdentity(m, key, value, ks, ios.status, env);
    SetServes(m, key, value, false, ks, stamp, ios, env);
    StepKeepsIdentity(Sealing(m, key, value, ks, ios.status, env).cache.value, Set(key, value, ks, false, stamp), ks.decrypt);
  }
}
