/**
 * Why memory and disk agree (electron/durableStore.ts): what is served is what a
 * start would come up with, or a timer is armed to save it, or saving is off.
 */
module DurableSound {
  import opened Prelude
  import opened StoreText
  import opened AtomicFile
  import opened StoreRecovery
  import opened StoreStarts
  import opened StoreLead
  import opened StoreKnown
  import opened Vault
  import opened DurableModel
  import opened DurableStores

  /** A start comes up with this store, where every file can be read; or may, whichever fallbacks cannot. */
  ghost predicate Serves(d: Dir, store: Store, readable: bool) {
    if readable then Loads(d, store) else MayLoad(d, store)
  }

  /** What memory serves has not reached the disk in any form a start would come up with. */
  ghost predicate Unsaved(m: Machine, readable: bool) {
    m.cache.Some? && !Serves(m.dir, m.cache.value, readable)
  }

  /** Unsaved values always have a timer coming for them, unless saving is off; every delay is in range. */
  ghost predicate Sound(m: Machine, readable: bool) {
    && (Unsaved(m, readable) ==> m.timer.Some? || m.blocked)
    && (m.retry == 0 || RETRY_MIN_MS <= m.retry <= RETRY_MAX_MS)
    && (m.timer.Some? ==> m.timer.value == FLUSH_DEBOUNCE_MS || RETRY_MIN_MS <= m.timer.value <= RETRY_MAX_MS)
  }

  /** The store file leads its fallback, and no temp file bears this process's id. */
  ghost predicate FolderOk(d: Dir, env: Env) {
    MainLeads(d) && Temp(env.pid) !in d
  }

  /** What every reachable state keeps. */
  ghost predicate MachineOk(m: Machine, env: Env, readable: bool) {
    Sound(m, readable) && FolderOk(m.dir, env)
  }

  /** The clock has not gone back. */
  ghost predicate Clock(d: Dir, io: Io) {
    forall n :: n in d ==> d[n].mtime <= io.now
  }

  lemma {:induction false} OkIsBenign(m: Machine, io: Io, env: Env)
    requires FolderOk(m.dir, env) && Clock(m.dir, io)
    ensures Benign(m, io, env)
  {
    assert !Chosen(m.dir, Previous) by { LeadExcludesFaults(m.dir, Save(env.pid, "", io.now, io.volume), iset{}); }
  }

  // ----- saving -----

  lemma {:induction false} PersistKeepsFolder(m: Machine, store: Store, io: Io, env: Env)
    requires Orders(env) && FolderOk(m.dir, env) && Clock(m.dir, io)
    ensures FolderOk(Persist(m, store, io, env).0.dir, env)
  {
    OkIsBenign(m, io, env);
    SaveIsTimely(m, store, io, env);
    var w := SaveOf(env, store, io);
    RenamedLeads(m.dir, w, env.order(store));
    RollbackKeepsLead(m.dir, w);
  }

  lemma {:induction false} SavedServes(m: Machine, store: Store, io: Io, env: Env, readable: bool)
    requires Orders(env) && FolderOk(m.dir, env) && Clock(m.dir, io) && Persist(m, store, io, env).1
    ensures Serves(Persist(m, store, io, env).0.dir, store, readable)
  {
    OkIsBenign(m, io, env);
    PersistedLoads(m, store, io, env);
    LoadsMayLoad(Persist(m, store, io, env).0.dir, store);
  }

  lemma {:induction false} RefusedServes(m: Machine, store: Store, io: Io, env: Env, served: Store, readable: bool)
    requires FolderOk(m.dir, env) && Clock(m.dir, io) && !Persist(m, store, io, env).1
    ensures var kept := Persist(m, store, io, env).0;
            kept == m.(dir := kept.dir) && (Serves(m.dir, served, readable) ==> Serves(kept.dir, served, readable))
  {
    OkIsBenign(m, io, env);
    RefusedSaveKeeps(m, store, io, env, served);
    RollbackMayLoad(m.dir, SaveOf(env, store, io), served);
  }

  lemma {:induction false} WriteOk(m: Machine, store: Store, committed: bool, io: Io, env: Env, readable: bool)
    requires Orders(env) && MachineOk(m, env, readable) && (committed ==> Clock(m.dir, io))
    ensures MachineOk(WriteStore(m, store, committed, io, env).0, env, readable)
  {
    if committed {
      PersistKeepsFolder(m, store, io, env);
      if Persist(m, store, io, env).1 {
        SavedServes(m, store, io, env, readable);
      } else {
        RefusedServes(m, store, io, env, if m.cache.Some? then m.cache.value else store, readable);
      }
    }
  }

  /** A flush keeps what is served; accepted, it leaves all of it on disk. */
  lemma {:induction false} FlushOk(m: Machine, io: Io, env: Env, readable: bool)
    requires Orders(env) && MachineOk(m, env, readable) && Clock(m.dir, io)
    ensures MachineOk(Flush(m, io, env).0, env, readable)
    ensures Flush(m, io, env).1 && m.cache.Some? ==> OnDisk(Flush(m, io, env).0)
    ensures Flush(m, io, env).0.cache == m.cache
  {
    if m.cache.Some? {
      var cleared, store := m.(timer := None), m.cache.value;
      PersistKeepsFolder(cleared, store, io, env);
      OkIsBenign(cleared, io, env);
      if Persist(cleared, store, io, env).1 {
        SavedServes(cleared, store, io, env, readable);
        PersistedLoads(cleared, store, io, env);
      } else {
        RefusedServes(cleared, store, io, env, store, readable);
      }
    }
  }

  lemma {:induction false} SealingOk(m: Machine, key: string, value: string, ks: Keystore, io: Io, env: Env, readable: bool)
    requires m.cache.Some? && Orders(env) && MachineOk(m, env, readable) && Clock(m.dir, io)
    ensures var sealing := Sealing(m, key, value, ks, io, env); sealing.cache.Some? && MachineOk(sealing, env, readable)
  {
    SealingKeepsCache(m, key, value, ks, io, env);
    if RecordsStatus(key, value) {
      WriteOk(m, m.cache.value[VAULT_SEAL_STATUS_KEY := if Sealed(ks, key, value).1 then "sealed" else "unsealed"], true, io, env, readable);
    }
  }

  lemma {:induction false} SetOk(m: Machine, key: string, value: string, allow: bool, ks: Keystore, stamp: nat, ios: WriteIo, env: Env, readable: bool)
    requires Orders(env) && MachineOk(m, env, readable) && m.cache.Some? && Clock(m.dir, ios.status)
    requires Clock(Sealing(m, key, value, ks, ios.status, env).dir, ios.write)
    ensures MachineOk(DurableSet(m, key, value, allow, ks, stamp, ios, env).0, env, readable)
  {
    SealingOk(m, key, value, ks, ios.status, env, readable);
    var sealing := Sealing(m, key, value, ks, ios.status, env);
    var next := Replaced(sealing.cache.value, key, value, Sealed(ks, key, value).0, ks, allow, stamp);
    if next.Some? { WriteOk(sealing, next.value, RequiresCommittedWrite(key), ios.write, env, readable); }
  }

  lemma {:induction false} RemoveOk(m: Machine, key: string, stamp: nat, io: Io, env: Env, readable: bool)
    requires Orders(env) && MachineOk(m, env, readable) && m.cache.Some? && Clock(m.dir, io)
    ensures MachineOk(DurableRemove(m, key, stamp, io, env).0, env, readable)
  {
    WriteOk(m, Removed(m.cache.value, key, stamp), RequiresCommittedWrite(key), io, env, readable);
  }

  // ----- loading -----

  /** Unless it may not touch the store file, a load with every fallback readable sees the folder as it is. */
  lemma {:induction false} SeesAll(d: Dir, c: Conditions)
    requires c.hidden <= {Main} && !MustNotTouch(d, c)
    ensures Visible(d, c.hidden) == d
  {
  }

  /** With the fallbacks readable, a load leaves memory serving what a start would load again. */
  lemma {:induction false} LoadServesDisk(d: Dir, c: Conditions, chosen: Option<Name>, store: Store, io: Io, env: Env)
    requires Orders(env) && FolderOk(d, env) && Clock(d, io)
    requires c.hidden <= {Main} && !MustNotTouch(d, c) && Picks(d, c.hidden, chosen, store)
    ensures Loads(LoadedDir(d, c, chosen, false, SaveOf(env, store, io), io.fault), store)
  {
    SeesAll(d, c);
    var w, a := SaveOf(env, store, io), SetAside(d, c.stamp);
    AsideChangesNoCopy(d, c.stamp);
    match chosen
    case None =>
      var x := LoadedDir(d, c, chosen, false, w, io.fault);
      forall n ensures !Candidate(x, n) { assert !Candidate(d, n); }
    case Some(n) =>
      SameCopiesSameLoads(d, a, iset{});
      if n == Main {
        assert a == d && OnlyTemps(TempsOf(a));
        MainOutlivesTemps(d, TempsOf(a));
        LoadsChosen(d - TempsOf(a), Main);
      } else {
        SettledLoads(d, c, n, store, io, env);
      }
  }

  lemma {:induction false} SettledLoads(d: Dir, c: Conditions, n: Name, store: Store, io: Io, env: Env)
    requires Orders(env) && FolderOk(d, env) && Clock(d, io)
    requires n != Main && Chosen(d, n) && ParseStore(d[n].text) == Some(store)
    ensures Loads(Settled(SetAside(d, c.stamp), n, false, SaveOf(env, store, io), io.fault), store)
  {
    var w, a := SaveOf(env, store, io), SetAside(d, c.stamp);
    AsideChangesNoCopy(d, c.stamp);
    SameCopiesSameLoads(d, a, iset{});
    LoadsChosen(a, n);
    match io.fault
    case NoFault =>
      var x := Renamed(a, w) - TempsOf(a);
      AfterSave(a, w, env.order(store));
      SavedStoreReadBack(env.order(store));
      assert OnlyTemps(TempsOf(a));
      MainOutlivesTemps(Renamed(a, w), TempsOf(a));
      LoadsChosen(x, Main);
    case WriteFails(_) =>
    case RenameFails =>
      AsideKeepsLead(d, c.stamp);
      LeadExcludesFaults(a, w, iset{});
      RollbackStillLoads(a, w, store);
  }

  /** Whichever fallbacks cannot be read, a load leaves memory serving what some start may load again. */
  lemma {:induction false} LoadServes(d: Dir, c: Conditions, chosen: Option<Name>, store: Store, io: Io, env: Env)
    requires Orders(env) && FolderOk(d, env) && Clock(d, io) && !MustNotTouch(d, c) && Picks(d, c.hidden, chosen, store)
    ensures MayLoad(LoadedDir(d, c, chosen, false, SaveOf(env, store, io), io.fault), store)
  {
    AsideChangesNoCopy(d, c.stamp);
    PickMatters(d, c.hidden, chosen, store);
    match chosen
    case None => assert Candidate(d, Main) <==> Candidate(Visible(d, c.hidden), Main);
    case Some(n) =>
      if n == Main {
        assert SetAside(d, c.stamp) == d;
        assert Matters(d - TempsOf(d), Main);
      } else {
        SettledMayLoad(d, c, n, store, io, env);
      }
  }

  lemma {:induction false} SettledMayLoad(d: Dir, c: Conditions, n: Name, store: Store, io: Io, env: Env)
    requires Orders(env) && FolderOk(d, env) && Clock(d, io) && n != Main && MayLoad(d, store)
    ensures MayLoad(Settled(SetAside(d, c.stamp), n, false, SaveOf(env, store, io), io.fault), store)
  {
    var w, a := SaveOf(env, store, io), SetAside(d, c.stamp);
    AsideMayLoad(d, c.stamp, store);
    match io.fault
    case NoFault =>
      AfterSave(a, w, env.order(store));
      SavedStoreReadBack(env.order(store));
      assert Matters(Renamed(a, w) - TempsOf(a), Main);
    case WriteFails(_) =>
    case RenameFails =>
      AsideKeepsLead(d, c.stamp);
      RollbackMayLoad(a, w, store);
  }

  lemma {:induction false} LoadKeepsFolder(d: Dir, c: Conditions, chosen: Option<Name>, store: Store, blocked: bool, io: Io, env: Env)
    requires Orders(env) && FolderOk(d, env) && Clock(d, io)
    ensures FolderOk(LoadedDir(d, c, chosen, blocked, SaveOf(env, store, io), io.fault), env)
  {
    var w, a := SaveOf(env, store, io), SetAside(d, c.stamp);
    NoOwnTemp(d, c, chosen, blocked, w, io.fault);
    AsideKeepsLead(d, c.stamp);
    assert OnlyTemps(TempsOf(d)) && OnlyTemps(TempsOf(a));
    SweptTempsKeepLead(d, TempsOf(d));
    SweptTempsKeepLead(a, TempsOf(a));
    RollbackKeepsLead(a, w);
    RenamedLeads(a, w, env.order(store));
    SweptTempsKeepLead(Renamed(a, w), TempsOf(a));
  }

  lemma {:induction false} LoadOk(m: Machine, c: Conditions, io: Io, env: Env, next: Machine, readable: bool)
    requires Orders(env) && MachineOk(m, env, readable) && Clock(m.dir, io) && LoadsTo(m, c, io, env, next)
    requires readable ==> c.hidden <= {Main}
    ensures MachineOk(next, env, readable) && next.cache.Some?
  {
    if m.cache.None? {
      var store, chosen :|
        && Picks(m.dir, c.hidden, chosen, store)
        && next == m.(cache := Some(store),
                      dir := LoadedDir(m.dir, c, chosen, m.blocked, SaveOf(env, store, io), io.fault),
                      blocked := m.blocked || MustNotTouch(m.dir, c));
      LoadKeepsFolder(m.dir, c, chosen, store, m.blocked, io, env);
      if !next.blocked {
        if readable { LoadServesDisk(m.dir, c, chosen, store, io, env); } else { LoadServes(m.dir, c, chosen, store, io, env); }
      }
    }
  }
}
