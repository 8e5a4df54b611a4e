/**
 * Whole runs of the store in memory (electron/durableStore.ts): loads, writes,
 * removals, resets and flushes in any order, from any folder whose store file
 * leads its fallback, as every folder the store made itself does.
 */
module DurableRuns {
  import opened Prelude
  import opened StoreText
  import opened AtomicFile
  import opened StoreRecovery
  import opened StoreStarts
  import opened StoreLead
  import opened StoreKnown
  import opened StoreRuns
  import opened Vault
  import opened DurableModel
  import opened DurableStores
  import opened DurableSound

  datatype Step =
    | Loading(c: Conditions, io: Io)
    | Setting(key: string, value: string, allow: bool, ks: Keystore, stamp: nat, ios: WriteIo)
    | Removing(key: string, stamp: nat, io: Io)
    | Wiping(io: Io)
    | Flushing(io: Io)

  /** One call, or the timer. Of the files a load looks at, any may be unreadable; or, in a `readable` run, the store file alone. */
  ghost predicate Takes(m: Machine, step: Step, next: Machine, env: Env, readable: bool) {
    match step
    case Loading(c, io) => (readable ==> c.hidden <= {Main}) && Clock(m.dir, io) && LoadsTo(m, c, io, env, next)
    case Setting(key, value, allow, ks, stamp, ios) =>
      && m.cache.Some? && Clock(m.dir, ios.status) && Clock(Sealing(m, key, value, ks, ios.status, env).dir, ios.write)
      && next == DurableSet(m, key, value, allow, ks, stamp, ios, env).0
    case Removing(key, stamp, io) => m.cache.Some? && Clock(m.dir, io) && next == DurableRemove(m, key, stamp, io, env).0
    case Wiping(io) => m.cache.Some? && Clock(m.dir, io) && next == DurableWipeWallet(m, io, env).0
    case Flushing(io) => Clock(m.dir, io) && next == Flush(m, io, env).0
  }

  lemma {:induction false} StepOk(m: Machine, step: Step, next: Machine, env: Env, readable: bool)
    requires Orders(env) && MachineOk(m, env, readable) && Takes(m, step, next, env, readable)
    ensures MachineOk(next, env, readable)
  {
    match step
    case Loading(c, io) => LoadOk(m, c, io, env, next, readable);
    case Setting(key, value, allow, ks, stamp, ios) => SetOk(m, key, value, allow, ks, stamp, ios, env, readable);
    case Removing(key, stamp, io) => RemoveOk(m, key, stamp, io, env, readable);
    case Wiping(io) => WriteOk(m, Wiped(m.cache.value), true, io, env, readable);
    case Flushing(io) => FlushOk(m, io, env, readable);
  }

  ghost predicate Runs(machines: seq<Machine>, steps: seq<Step>, env: Env, readable: bool) {
    && |machines| == |steps| + 1
    && forall i :: 0 <= i < |steps| ==> Takes(machines[i], steps[i], machines[i + 1], env, readable)
  }

  /** A process as it starts: nothing loaded, no timer, saving on. */
  function Fresh(d: Dir): Machine {
    Machine(d, None, None, 0, false)
  }

  /**
   * In every state a process reaches, what it serves and no start would load has a timer armed unless saving is off, every
   * delay is in range, and the store file leads its fallback, so the next process starts as this one did. Where fallbacks
   * could always be read, what a start would load is the newest copy; else it is one of those that matter.
   */
  lemma {:induction false} ReachedIsOk(d: Dir, machines: seq<Machine>, steps: seq<Step>, env: Env, readable: bool, k: nat)
    requires Orders(env) && FolderOk(d, env)
    requires Runs(machines, steps, env, readable) && machines[0] == Fresh(d) && k < |machines|
    ensures MachineOk(machines[k], env, readable)
  {
    if k > 0 {
      ReachedIsOk(d, machines, steps, env, readable, k - 1);
      assert Takes(machines[k - 1], steps[k - 1], machines[k], env, readable);
      StepOk(machines[k - 1], steps[k - 1], machines[k], env, readable);
    }
  }

  // ----- every save and every load is an event of the store's life -----

  /** A save, accepted, refused or not even tried, is one of the events whose runs were proved safe. */
  lemma {:induction false} PersistHappens(m: Machine, store: Store, io: Io, env: Env, known: iset<Store>)
    requires Orders(env) && Temp(env.pid) !in m.dir && Clock(m.dir, io)
    ensures var (saved, ok) := Persist(m, store, io, env);
            var (w, entries) := (SaveOf(env, store, io), env.order(store));
            Happens(Host(m.dir, known, true),
                    if ok then Saved(w, entries) else SaveRefused(w, entries, io.fault.RenameFails? && !m.blocked),
                    Host(saved.dir, if ok then iset{store} else known, true))
  {
    assert StoreOf(env.order(store)) == store;
  }

  /** What a load amounts to. */
  function LoadEvent(d: Dir, c: Conditions, chosen: Option<Name>, store: Store, io: Io, env: Env): Event {
    var w, entries := SaveOf(env, store, io), env.order(store);
    if MustNotTouch(d, c) then LeftAlone
    else match chosen
      case None => FoundNothing(c.hidden, c.stamp)
      case Some(n) =>
        if n == Main || io.fault.NoFault? then Recovered(c.hidden, n, c.stamp, w, entries)
        else RecoveryRefused(c.hidden, n, c.stamp, w, entries, io.fault.RenameFails?)
  }

  /** What may be loaded after it: the store it came up with, or, where no copy could be made the store file, what might be before. */
  function KnownAfter(d: Dir, e: Event, store: Store, known: iset<Store>): iset<Store> {
    if e.Recovered? || (e.FoundNothing? && Main !in d) then iset{store} else known
  }

  /** So is every load, whatever it cannot read: finished, refused by the disk, empty-handed, or kept off the store file. */
  lemma {:induction false} LoadHappens(d: Dir, c: Conditions, chosen: Option<Name>, store: Store, io: Io, env: Env, known: iset<Store>)
    requires Orders(env) && Temp(env.pid) !in d && Clock(d, io) && Picks(d, c.hidden, chosen, store)
    ensures var e := LoadEvent(d, c, chosen, store, io, env);
            var after := LoadedDir(d, c, chosen, false, SaveOf(env, store, io), io.fault);
            Happens(Host(d, known, false), e, Host(after, KnownAfter(d, e, store, known), !e.LeftAlone?))
  {
    assert StoreOf(env.order(store)) == store;
    if !MustNotTouch(d, c) && chosen.Some? {
      assert Candidate(d, chosen.value);
      assert TempsOf(SetAside(d, c.stamp)) == TempsOf(d);
      assert chosen.value == Main ==> SetAside(d, c.stamp) == d;
    }
  }

  /** Cut short in any state it passes through, however it would have ended and whatever it cannot read, a load leaves nothing new to load. */
  lemma {:induction false} CutLoadIsSafe(d: Dir, c: Conditions, chosen: Option<Name>, store: Store, io: Io, env: Env, known: iset<Store>, x: Dir)
    requires Orders(env) && FolderOk(d, env) && Clock(d, io) && AllKnown(d, known) && Picks(d, c.hidden, chosen, store)
    requires var w := SaveOf(env, store, io); LoadPasses(d, c, chosen, w, LoadedDir(d, c, chosen, false, w, io.fault), x)
    ensures AllKnown(x, known) && MainLeads(x)
  {
    if !MustNotTouch(d, c) && x != d {
      var h, a := Host(d, known, false), SetAside(d, c.stamp);
      match chosen
      case None => FindingCutIsOk(h, FindingCut(c.hidden, c.stamp, x), Host(x, known, false));
      case Some(n) =>
        assert Candidate(d, n);
        assert n == Main ==> a == d;
        CutSettleIsSafe(d, c, n, store, io, env, known, x);
    }
  }

  lemma {:induction false} CutSettleIsSafe(d: Dir, c: Conditions, n: Name, store: Store, io: Io, env: Env, known: iset<Store>, x: Dir)
    requires Orders(env) && FolderOk(d, env) && Clock(d, io) && AllKnown(d, known)
    requires Picks(d, c.hidden, Some(n), store) && (Main in d ==> Main !in c.hidden) && (n == Main ==> SetAside(d, c.stamp) == d)
    requires var w, a := SaveOf(env, store, io), SetAside(d, c.stamp); x == a || SettlePasses(a, n, w, Settled(a, n, false, w, io.fault), x)
    ensures AllKnown(x, known) && MainLeads(x)
  {
    var w, a := SaveOf(env, store, io), SetAside(d, c.stamp);
    assert StoreOf(env.order(store)) == store;
    if x == RolledBack(a, w) {
      AsideIsKnown(d, c.stamp, known);
      AsideKeepsLead(d, c.stamp);
      RefusedIsOk(a, w, true, known);
    } else {
      assert OnlyTemps(TempsOf(a));
      assert StartPasses(d, n, c.stamp, w, x);
      StartIsOk(d, c.hidden, n, c.stamp, w, env.order(store), x, known);
    }
  }

  // ----- copies that cannot be read, in folders with no other -----

  /** A load that finds nothing where there is no store file deletes a complete copy if and only if a temp file is one. */
  lemma {:induction false} EmptyLoadDeletesExactlyWhen(d: Dir, c: Conditions, w: Save, fault: Fault)
    requires Main !in d && Picks(d, c.hidden, None, map[])
    ensures var x := LoadedDir(d, c, None, false, w, fault);
            (exists n :: Candidate(d, n) && !Candidate(x, n)) <==> exists n :: Candidate(d, n) && n.Temp? && n in c.hidden
  {
    var x := LoadedDir(d, c, None, false, w, fault);
    assert x == d - TempsOf(d);
    forall n | Candidate(d, n) ensures n in c.hidden && (Candidate(x, n) <==> !n.Temp?) {
      assert !Candidate(Visible(d, c.hidden), n);
    }
  }

  /** A lone complete temp file that cannot be read: the load itself deletes it. */
  lemma {:induction false} UnreadableTempIsLost(d: Dir, p: nat, stamp: int, w: Save, fault: Fault)
    requires d.Keys == {Temp(p)} && ParseStore(d[Temp(p)].text).Some?
    ensures var c := Conditions({Temp(p)}, stamp, true);
            && Picks(d, c.hidden, None, map[]) && !MustNotTouch(d, c)
            && LoadedDir(d, c, None, false, w, fault) == map[]
            && MayLoad(d, ParseStore(d[Temp(p)].text).value)
  {
    assert Visible(d, {Temp(p)}) == map[];
    assert TempsOf(d) == d.Keys;
    assert d - TempsOf(d) == map[];
    assert Matters(d, Temp(p));
  }

  /**
   * Where the fallback is the only copy and cannot be read, as a folder damaged from outside may have it, a load comes up
   * empty with saving still on, and the next save, once the fallback can be unlinked, leaves its store nowhere.
   */
  lemma {:induction false} UnreadableFallbackIsLost(d: Dir, stamp: int, store: Store, io: Io, env: Env, lost: Store)
    requires Orders(env) && d.Keys == {Previous} && ParseStore(d[Previous].text) == Some(lost)
    requires io.fault.NoFault? && io.volume.unlinks && store != lost
    ensures var c := Conditions({Previous}, stamp, true);
            && Picks(d, c.hidden, None, map[]) && !MustNotTouch(d, c)
            && LoadedDir(d, c, None, false, SaveOf(env, map[], io), io.fault) == d
            && var saved := Persist(Machine(d, Some(map[]), None, 0, false), store, io, env);
               saved.1 && forall n :: n in saved.0.dir ==> ParseStore(saved.0.dir[n].text) != Some(lost)
  {
    SavedStoreReadBack(env.order(store));
    assert StoreOf(env.order(store)) == store;
    assert d - TempsOf(d) == d;
    assert Visible(d, {Previous}) == map[];
  }
}
