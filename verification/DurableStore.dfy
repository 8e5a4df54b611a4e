/** The process's one store (electron/durableStore.ts), over the files beside it. */
module DurableStores {
  import opened Prelude
  import opened StoreText
  import opened AtomicFile
  import opened StoreRecovery
  import opened StoreStarts
  import opened CanonicalJson
  import opened JsonText
  import opened Vault
  import opened DurableModel

  datatype ReadResult = Read(store: Store, mtime: int) | Missing | CorruptText | Unreadable

  /** What a load is up against: files that cannot be read, and whether a corrupt one can be moved aside. */
  datatype Conditions = Conditions(hidden: set<Name>, stamp: int, moves: bool)

  /** A load that may not touch the store file: it cannot be read, or is corrupt and cannot be moved aside. */
  predicate MustNotTouch(d: Dir, c: Conditions) {
    Main in d && (Main in c.hidden || (Corrupt(d) && !c.moves))
  }

  /** The directory once the copy `n` was made the store file and the temp files dropped, or could not be. */
  function Settled(a: Dir, n: Name, blocked: bool, w: Save, fault: Fault): Dir {
    if n == Main then a - TempsOf(a)
    else if blocked then a
    else match fault
      case NoFault => Renamed(a, w) - TempsOf(a)
      case WriteFails(_) => a
      case RenameFails => RolledBack(a, w)
  }

  /** The directory once a load is done. */
  function LoadedDir(d: Dir, c: Conditions, chosen: Option<Name>, blocked: bool, w: Save, fault: Fault): Dir {
    if MustNotTouch(d, c) then d
    else match chosen
      case None => if Main in d then SetAside(d, c.stamp) else d - TempsOf(d)
      case Some(n) => Settled(SetAside(d, c.stamp), n, blocked, w, fault)
  }

  /** Every state on the way there. */
  ghost predicate SettlePasses(a: Dir, n: Name, w: Save, after: Dir, x: Dir) {
    || (n != Main && Passes(a, w, x))
    || x == after
    || (exists gone :: OnlyTemps(gone) && x == (if n == Main then a else Renamed(a, w)) - gone)
  }

  /** Every state a load passes through, however it ends. */
  ghost predicate LoadPasses(d: Dir, c: Conditions, chosen: Option<Name>, w: Save, after: Dir, x: Dir) {
    if MustNotTouch(d, c) then x == d
    else
      || x == d
      || x == SetAside(d, c.stamp)
      || (chosen.None? && Main !in d && exists gone :: OnlyTemps(gone) && x == d - gone)
      || (chosen.Some? && SettlePasses(SetAside(d, c.stamp), chosen.value, w, after, x))
  }

  /** A load that goes through, whatever it cannot read, is a start with the copy it picked, and stands in the same states on the way. */
  lemma {:induction false} LoadedIsStarted(d: Dir, c: Conditions, n: Name, store: Store, w: Save)
    requires Picks(d, c.hidden, Some(n), store) && !MustNotTouch(d, c)
    ensures LoadedDir(d, c, Some(n), false, w, NoFault) == Started(d, n, c.stamp, w)
    ensures forall x :: LoadPasses(d, c, Some(n), w, Started(d, n, c.stamp, w), x) <==> StartPasses(d, n, c.stamp, w, x)
  {
    assert Candidate(d, n);
    assert n == Main ==> SetAside(d, c.stamp) == d;
    assert TempsOf(SetAside(d, c.stamp)) == TempsOf(d) && OnlyTemps(TempsOf(d));
  }

  /** A corrupt store file's bytes are there in every state of a load, under one name or the other, whatever it loads. */
  lemma {:induction false} CorruptBytesSurvive(d: Dir, c: Conditions, chosen: Option<Name>, store: Store, w: Save, fault: Fault, x: Dir)
    requires Corrupt(d) && Picks(d, c.hidden, chosen, store)
    requires LoadPasses(d, c, chosen, w, LoadedDir(d, c, chosen, false, w, fault), x)
    ensures (Main in x && x[Main] == d[Main]) || (Aside(c.stamp) in x && x[Aside(c.stamp)] == d[Main])
  {
    assert Aside(c.stamp) in SetAside(d, c.stamp) && SetAside(d, c.stamp)[Aside(c.stamp)] == d[Main];
    assert chosen.Some? ==> Candidate(d, chosen.value);
    if !MustNotTouch(d, c) && x != d && x != SetAside(d, c.stamp) { AsideOutlivesSettling(SetAside(d, c.stamp), chosen.value, w, fault, c.stamp, x); }
  }

  lemma {:induction false} AsideOutlivesSettling(a: Dir, n: Name, w: Save, fault: Fault, stamp: int, x: Dir)
    requires Aside(stamp) in a && n != Main && SettlePasses(a, n, w, Settled(a, n, false, w, fault), x)
    ensures Aside(stamp) in x && x[Aside(stamp)] == a[Aside(stamp)]
  {
  }

  class DurableStore {
    const fs: FileSystem
    const env: Env
    var cache: Option<Store>
    var flushTimer: Option<nat>
    var retryDelayMs: nat
    var savingBlocked: bool

    constructor (fs: FileSystem, env: Env)
      ensures this.fs == fs && this.env == env
      ensures View() == Machine(fs.dir, None, None, 0, false)
    {
      this.fs := fs;
      this.env := env;
      cache, flushTimer, retryDelayMs, savingBlocked := None, None, 0, false;
    }

    function View(): Machine
      reads this, fs
    {
      Machine(fs.dir, cache, flushTimer, retryDelayMs, savingBlocked)
    }

    method ReadCandidate(name: Name, hidden: set<Name>) returns (r: ReadResult)
      ensures r == if name !in fs.dir then Missing
                   else if name in hidden then Unreadable
                   else match ParseStore(fs.dir[name].text)
                     case Some(store) => Read(store, fs.dir[name].mtime)
                     case None => CorruptText
    {
      if name !in fs.dir { return Missing; }
      if name in hidden { return Unreadable; }
      var parsed := ParseStore(fs.dir[name].text);
      r := if parsed.Some? then Read(parsed.value, fs.dir[name].mtime) else CorruptText;
    }

    /** The complete copies among the temp files. */
    method TempCopies(pids: seq<nat>, hidden: set<Name>) returns (names: seq<Name>)
      ensures forall n :: n in names <==> Candidate(Visible(fs.dir, hidden), n) && n.Temp? && n.pid in pids
    {
      names := [];
      for i := 0 to |pids|
        invariant forall n :: n in names <==> Candidate(Visible(fs.dir, hidden), n) && n.Temp? && n.pid in pids[..i]
      {
        var temp := ReadCandidate(Temp(pids[i]), hidden);
        assert pids[..i + 1] == pids[..i] + [pids[i]];
        if temp.Read? { names := names + [Temp(pids[i])]; }
      }
      assert pids[..|pids|] == pids;
    }

    /** The complete copies beside the store file that can be read: the previous version, then the temp files. */
    method Fallbacks(pids: seq<nat>, hidden: set<Name>) returns (names: seq<Name>)
      requires forall p :: p in pids <==> Temp(p) in fs.dir
      ensures forall n :: n in names <==> n != Main && Candidate(Visible(fs.dir, hidden), n)
      ensures forall i, j :: 0 <= i < j < |names| ==> Rank(names[i]) <= Rank(names[j])
    {
      var temps := TempCopies(pids, hidden);
      var previous := ReadCandidate(Previous, hidden);
      assert forall n :: n in temps ==> Rank(n) == 2;
      forall n | n != Main && Candidate(Visible(fs.dir, hidden), n) ensures n == Previous || n in temps {
        if n.Temp? { assert n.pid in pids; }
      }
      assert previous.Read? <==> Candidate(Visible(fs.dir, hidden), Previous);
      names := (if previous.Read? then [Previous] else []) + temps;
    }

    /** The most recently written of the copies, the first of them on a tie. */
    method Newest(names: seq<Name>) returns (best: Option<Name>)
      requires forall n :: n in names ==> n in fs.dir
      requires forall i, j :: 0 <= i < j < |names| ==> Rank(names[i]) <= Rank(names[j])
      ensures best.None? <==> names == []
      ensures best.Some? ==> best.value in names
      ensures best.Some? ==> forall o :: o in names ==>
                fs.dir[o].mtime < fs.dir[best.value].mtime
                || (fs.dir[o].mtime == fs.dir[best.value].mtime && Rank(best.value) <= Rank(o))
    {
      best := None;
      for i := 0 to |names|
        invariant best.None? <==> i == 0
        invariant best.Some? ==> best.value in names[..i]
        invariant best.Some? ==> forall k :: 0 <= k < i ==>
                    fs.dir[names[k]].mtime < fs.dir[best.value].mtime
                    || (fs.dir[names[k]].mtime == fs.dir[best.value].mtime && Rank(best.value) <= Rank(names[k]))
      {
        if best.None? || fs.dir[names[i]].mtime > fs.dir[best.value].mtime { best := Some(names[i]); }
      }
    }

    method Persist(store: Store, io: Io) returns (ok: bool)
      requires Temp(env.pid) !in fs.dir
      modifies fs
      ensures (View(), ok) == DurableModel.Persist(old(View()), store, io, env)
      ensures old(fs.seen) <= fs.seen
      ensures forall x: Dir :: x in fs.seen ==>
                (x in old(fs.seen) || Passes(old(fs.dir), SaveOf(env, store, io), x) || x == fs.dir)
    {
      if savingBlocked { return false; }
      ok := fs.WriteFileAtomic(SaveOf(env, store, io), io.fault);
    }

    /** Moves a corrupt store file aside; where that fails, saving stays off so nothing replaces it. */
    method Quarantine(stamp: int, moves: bool)
      requires Corrupt(fs.dir)
      modifies this, fs
      ensures View() == if moves then old(View()).(dir := SetAside(old(fs.dir), stamp)) else old(View()).(blocked := true)
      ensures fs.seen == old(fs.seen) + iset{fs.dir} || (fs.seen == old(fs.seen) && !moves)
    {
      if moves {
        fs.Rename(Main, Aside(stamp));
      } else {
        savingBlocked := true;
      }
    }

    /** The copy to load, of those that can be read. */
    method Pick(hidden: set<Name>) returns (chosen: Option<Name>, pids: seq<nat>)
      ensures forall p :: p in pids <==> Temp(p) in fs.dir
      ensures chosen.None? ==> forall n :: !Candidate(Visible(fs.dir, hidden), n)
      ensures chosen.Some? ==> Chosen(Visible(fs.dir, hidden), chosen.value)
    {
      pids := fs.ListTempFiles();
      var names := Fallbacks(pids, hidden);
      var main := ReadCandidate(Main, hidden);
      if main.Read? { names := [Main] + names; }
      assert forall n :: n in names <==> Candidate(Visible(fs.dir, hidden), n);
      chosen := Newest(names);
      if chosen.None? { forall n ensures !Candidate(Visible(fs.dir, hidden), n) { assert n !in names; } }
    }

    /** Picks the newest complete copy and makes it the store file before any leftover is deleted. */
    method LoadFromDisk(c: Conditions, io: Io) returns (store: Store, ghost chosen: Option<Name>)
      requires Temp(env.pid) !in fs.dir
      modifies this, fs
      ensures Picks(old(fs.dir), c.hidden, chosen, store)
      ensures View() == old(View()).(
                dir := LoadedDir(old(fs.dir), c, chosen, old(savingBlocked), SaveOf(env, store, io), io.fault),
                blocked := old(savingBlocked) || MustNotTouch(old(fs.dir), c))
      ensures forall x: Dir :: x in fs.seen ==>
                (x in old(fs.seen) || LoadPasses(old(fs.dir), c, chosen, SaveOf(env, store, io), fs.dir, x))
    {
      var best, pids := Pick(c.hidden);
      chosen := best;
      store := map[];
      if best.Some? { store := ParseStore(fs.dir[best.value].text).value; }
      var main := ReadCandidate(Main, c.hidden);
      if main.Unreadable? {
        savingBlocked := true;
        return;
      }
      if main.CorruptText? {
        Quarantine(c.stamp, c.moves);
        if !c.moves { return; }
      }
      if best.None? {
        if main.Missing? { DropTemps(pids); }
        return;
      }
      Settle(best.value, store, pids, io);
    }

    /** Makes the chosen copy the store file, and only then deletes the temp files. */
    method Settle(n: Name, store: Store, pids: seq<nat>, io: Io)
      requires Temp(env.pid) !in fs.dir && forall p :: p in pids <==> Temp(p) in fs.dir
      modifies fs
      ensures View() == old(View()).(dir := Settled(old(fs.dir), n, savingBlocked, SaveOf(env, store, io), io.fault))
      ensures forall x: Dir :: x in fs.seen ==> x in old(fs.seen) || SettlePasses(old(fs.dir), n, SaveOf(env, store, io), fs.dir, x)
    {
      if n != Main {
        var ok := Persist(store, io);
        if !ok { return; }
      }
      DropTemps(pids);
      assert TempsOf(old(fs.dir)) == set p | p in pids :: Temp(p);
    }

    method DropTemps(pids: seq<nat>)
      modifies fs
      ensures fs.dir == old(fs.dir) - (set p | p in pids :: Temp(p))
      ensures old(fs.seen) <= fs.seen
      ensures forall x: Dir :: x in fs.seen ==> (x in old(fs.seen) || exists gone :: OnlyTemps(gone) && x == old(fs.dir) - gone)
    {
      fs.RemoveTempFiles(pids);
    }

    /** The store, loaded on first use. */
    method ReadStore(c: Conditions, io: Io) returns (store: Store)
      requires Temp(env.pid) !in fs.dir
      modifies this, fs
      ensures LoadsTo(old(View()), c, io, env, View()) && cache == Some(store)
      ensures Temp(env.pid) !in fs.dir
    {
      if cache.Some? { return cache.value; }
      ghost var chosen;
      store, chosen := LoadFromDisk(c, io);
      NoOwnTemp(old(fs.dir), c, chosen, savingBlocked, SaveOf(env, store, io), io.fault);
      NoOwnTemp(old(fs.dir), c, chosen, old(savingBlocked), SaveOf(env, store, io), io.fault);
      cache := Some(store);
    }

    method ScheduleRetry()
      modifies this
      ensures View() == DurableModel.ScheduleRetry(old(View()))
    {
      if savingBlocked || flushTimer.Some? { return; }
      retryDelayMs := NextDelay(retryDelayMs);
      flushTimer := Some(retryDelayMs);
    }

    /** What the timer runs, and what a quitting app runs. */
    method FlushDurableStore(io: Io) returns (ok: bool)
      requires Temp(env.pid) !in fs.dir
      modifies this, fs
      ensures (View(), ok) == Flush(old(View()), io, env)
    {
      flushTimer := None;
      if cache.None? { return true; }
      ok := Persist(cache.value, io);
      if ok {
        retryDelayMs := 0;
      } else {
        ScheduleRetry();
      }
    }

    /** A committed write is only served once it is on disk; any other is served at once and flushed soon. */
    method WriteStore(store: Store, committed: bool, io: Io) returns (ok: bool)
      requires Temp(env.pid) !in fs.dir
      modifies this, fs
      ensures (View(), ok) == DurableModel.WriteStore(old(View()), store, committed, io, env)
      ensures Temp(env.pid) !in fs.dir
    {
      if committed {
        ok := Persist(store, io);
        if !ok { return; }
        cache := Some(store);
        flushTimer := None;
        retryDelayMs := 0;
      } else {
        cache := Some(store);
        if flushTimer.None? { flushTimer := Some(FLUSH_DEBOUNCE_MS); }
        ok := true;
      }
    }

    /** The stored form of a value; sealing the vault itself records how it went. */
    method SealIfNeeded(key: string, value: string, ks: Keystore, io: Io) returns (raw: string)
      requires Temp(env.pid) !in fs.dir && cache.Some?
      modifies this, fs
      ensures raw == Sealed(ks, key, value).0
      ensures View() == Sealing(old(View()), key, value, ks, io, env)
      ensures Temp(env.pid) !in fs.dir && cache.Some?
    {
      if !IsVaultKey(key) || StartsWith(value, SEALED_PREFIX) {
        KeyFacts();
        return value;
      }
      var buf := if CanSeal(ks) then ks.encrypt(value) else None;
      var sealed := buf.Some? && ks.decrypt(buf.value) == Some(value);
      if key == VAULT_KEY {
        var _ := WriteStore(cache.value[VAULT_SEAL_STATUS_KEY := if sealed then "sealed" else "unsealed"], true, io);
      }
      raw := if sealed then SEALED_PREFIX + buf.value else value;
    }

    method LeastKey(keys: set<string>) returns (least: string)
      requires keys != {}
      ensures least in keys && forall k :: k in keys && k != least ==> Less(least, k)
    {
      least :| least in keys;
      var todo := keys - {least};
      while todo != {}
        invariant todo <= keys && least in keys && least !in todo
        invariant forall k :: k in keys && k !in todo && k != least ==> Less(least, k)
        decreases todo
      {
        var key :| key in todo;
        LessTotal(key, least);
        if Less(key, least) {
          forall k | k in keys && k !in todo && k != least ensures Less(key, k) { LessTransitive(key, least, k); }
          least := key;
        }
        todo := todo - {key};
      }
    }

    method SortedHistory(store: Store) returns (keys: seq<string>)
      ensures HistoryOf(store, keys)
    {
      keys := [];
      var todo := set k | k in store && IsHistoryKey(k);
      while todo != {}
        invariant forall k :: k in todo ==> k in store && IsHistoryKey(k)
        invariant forall k :: k in keys || k in todo <==> k in store && IsHistoryKey(k)
        invariant forall i, j :: 0 <= i < j < |keys| ==> Less(keys[i], keys[j])
        invariant forall i, k :: 0 <= i < |keys| && k in todo ==> Less(keys[i], k)
        decreases todo
      {
        var least := LeastKey(todo);
        keys := keys + [least];
        todo := todo - {least};
      }
    }

    method PruneVaultHistory(store: Store) returns (pruned: Store)
      ensures pruned == Pruned(store)
    {
      var keys := SortedHistory(store);
      ghost var all := keys;
      ghost var i := 0;
      pruned := store;
      while |keys| > MAX_VAULT_HISTORY
        invariant 0 <= i <= |all| && keys == all[i..] && (i > 0 ==> |keys| >= MAX_VAULT_HISTORY)
        invariant pruned == store - set k | k in all[..i]
      {
        pruned := pruned - {keys[0]};
        keys := keys[1..];
        i := i + 1;
        assert all[..i] == all[..i - 1] + [all[i - 1]];
      }
      DroppedIsPruned(store, all, i);
    }

    method ArchiveVaultSnapshot(store: Store, raw: string, stamp: nat) returns (archived: Store)
      ensures archived == Archived(store, raw, stamp)
    {
      archived := PruneVaultHistory(store[VAULT_BACKUP_KEY := raw][HistoryKey(stamp) := raw]);
    }

    /** The guard on overwriting one wallet's vault with another's: the store to save, or none. */
    method Guarded(store: Store, key: string, value: string, raw: string, ks: Keystore, allow: bool, stamp: nat) returns (next: Option<Store>)
      ensures next == Replaced(store, key, value, raw, ks, allow, stamp)
    {
      if key != VAULT_KEY || key !in store { return Some(store[key := raw]); }
      var previous := Unseal(ks, key, store[key]);
      if previous.None? { return None; }
      var prev := ParseDocument(previous.value);
      var parsed := ParseDocument(value);
      if prev.None? || parsed.None? || prev.value.Null? { return None; }
      if Identity(prev.value).Some? {
        if parsed.value.Null? { return None; }
        if Identity(parsed.value).Some? && Identity(prev.value) != Identity(parsed.value) && !allow { return None; }
      }
      var archived := ArchiveVaultSnapshot(store, store[key], stamp);
      next := Some(archived[key := raw]);
    }

    /** What is served for a key, unsealed; none where it is absent or cannot be opened. */
    method DurableGet(key: string, ks: Keystore, c: Conditions, io: Io) returns (value: Option<string>)
      requires Temp(env.pid) !in fs.dir
      modifies this, fs
      ensures key == "" ==> value == None && View() == old(View())
      ensures key != "" ==> LoadsTo(old(View()), c, io, env, View()) && cache.Some?
      ensures key != "" ==> value == if key in cache.value then Unseal(ks, key, cache.value[key]) else None
    {
      if key == "" { return None; }
      var store := ReadStore(c, io);
      value := if key in store then Unseal(ks, key, store[key]) else None;
    }

    method DurableSet(key: string, value: string, allow: bool, ks: Keystore, stamp: nat, c: Conditions, io: Io, ios: WriteIo)
      returns (ok: bool, ghost loaded: Machine)
      requires Temp(env.pid) !in fs.dir && Orders(env)
      modifies this, fs
      ensures key == "" ==> !ok && View() == old(View())
      ensures key != "" ==> LoadsTo(old(View()), c, io, env, loaded) && loaded.cache.Some?
      ensures key != "" ==> (View(), ok) == DurableModel.DurableSet(loaded, key, value, allow, ks, stamp, ios, env)
    {
      loaded := View();
      if key == "" { return false, loaded; }
      var _ := ReadStore(c, io);
      loaded := View();
      ok := SetLoaded(key, value, allow, ks, stamp, ios);
    }

    method SetLoaded(key: string, value: string, allow: bool, ks: Keystore, stamp: nat, ios: WriteIo) returns (ok: bool)
      requires Temp(env.pid) !in fs.dir && Orders(env) && cache.Some? && key != ""
      modifies this, fs
      ensures (View(), ok) == DurableModel.DurableSet(old(View()), key, value, allow, ks, stamp, ios, env)
    {
      var raw := SealIfNeeded(key, value, ks, ios.status);
      var next := Guarded(cache.value, key, value, raw, ks, allow, stamp);
      if next.None? { return false; }
      assert key in next.value && next.value[key] == raw;
      ok := WriteAndCheck(next.value, key, raw, ios);
    }

    /** Writes the store; where it holds a vault that does not read back, what the disk holds is served instead. */
    method WriteAndCheck(next: Store, key: string, raw: string, ios: WriteIo) returns (ok: bool)
      requires Temp(env.pid) !in fs.dir && Orders(env) && key in next && next[key] == raw
      modifies this, fs
      ensures var (written, saved) := DurableModel.WriteStore(old(View()), next, RequiresCommittedWrite(key), ios.write, env);
              (View(), ok) == if saved && IsVaultKey(key) && !ios.readable then (written.(cache := None), false) else (written, saved)
    {
      ok := WriteStore(next, RequiresCommittedWrite(key), ios.write);
      if ok && IsVaultKey(key) {
        var onDisk := VaultOnDisk(key, raw, next, ios.readable);
        if !onDisk {
          cache := None;
          ok := false;
        }
      }
    }

    /** The vault counts as saved only once the store file reads back with it. */
    method VaultOnDisk(key: string, raw: string, ghost store: Store, readable: bool) returns (onDisk: bool)
      requires Orders(env) && key in store && store[key] == raw
      requires Main in fs.dir && fs.dir[Main].text == Serialize(env.order(store))
      ensures onDisk == readable
    {
      SavedStoreReadBack(env.order(store));
      var read := ReadCandidate(Main, if readable then {} else {Main});
      onDisk := read.Read? && key in read.store && read.store[key] == raw;
    }

    method DurableRemove(key: string, stamp: nat, c: Conditions, load: Io, io: Io) returns (ok: bool, ghost loaded: Machine)
      requires Temp(env.pid) !in fs.dir
      modifies this, fs
      ensures key == "" ==> !ok && View() == old(View())
      ensures key != "" ==> LoadsTo(old(View()), c, load, env, loaded) && loaded.cache.Some?
      ensures key != "" ==> (View(), ok) == DurableModel.DurableRemove(loaded, key, stamp, io, env)
    {
      loaded := View();
      if key == "" { return false, loaded; }
      var store := ReadStore(c, load);
      loaded := View();
      if key !in store { return true, loaded; }
      var next := store;
      if key == VAULT_KEY { next := ArchiveVaultSnapshot(store, store[key], stamp); }
      ok := WriteStore(next - {key}, RequiresCommittedWrite(key), io);
    }

    /** Clears every wallet key; `saved` is false where the call throws because the reset could not be saved. */
    method DurableWipeWallet(c: Conditions, load: Io, io: Io) returns (saved: bool, removed: nat, ghost loaded: Machine)
      requires Temp(env.pid) !in fs.dir
      modifies this, fs
      ensures LoadsTo(old(View()), c, load, env, loaded) && loaded.cache.Some?
      ensures (View(), saved) == DurableModel.DurableWipeWallet(loaded, io, env)
      ensures removed == |set k | k in loaded.cache.value && ShouldWipe(k)|
    {
      var store := ReadStore(c, load);
      loaded := View();
      ghost var all := store;
      var todo := store.Keys;
      removed := 0;
      ghost var gone := {};
      while todo != {}
        invariant todo <= all.Keys && removed == |gone|
        invariant gone == set k | k in all && k !in todo && ShouldWipe(k)
        invariant store == all - gone
        decreases todo
      {
        var key :| key in todo;
        if ShouldWipe(key) {
          store := store - {key};
          gone := gone + {key};
          removed := removed + 1;
        }
        todo := todo - {key};
      }
      assert gone == set k | k in all && ShouldWipe(k);
      assert store == Wiped(all);
      saved := WriteStore(store, true, io);
    }
  }

  /** First use loads the store; later uses find it served already. */
  ghost predicate LoadsTo(m: Machine, c: Conditions, io: Io, env: Env, loaded: Machine) {
    if m.cache.Some? then loaded == m
    else exists store, chosen ::
      && Picks(m.dir, c.hidden, chosen, store)
      && loaded == m.(cache := Some(store),
                      dir := LoadedDir(m.dir, c, chosen, m.blocked, SaveOf(env, store, io), io.fault),
                      blocked := m.blocked || MustNotTouch(m.dir, c))
  }

  lemma {:induction false} NoOwnTemp(d: Dir, c: Conditions, chosen: Option<Name>, blocked: bool, w: Save, fault: Fault)
    requires Temp(w.pid) !in d
    ensures Temp(w.pid) !in LoadedDir(d, c, chosen, blocked, w, fault)
  {
  }

  lemma {:induction false} NotEarlier(keys: seq<string>, i: nat, n: nat)
    requires forall a, b :: 0 <= a < b < |keys| ==> Less(keys[a], keys[b])
    requires n <= i < |keys|
    ensures keys[i] !in keys[..n]
  {
    LessTotal(keys[i], keys[i]);
  }

  lemma {:induction false} DroppedIsPruned(store: Store, keys: seq<string>, n: nat)
    requires HistoryOf(store, keys) && n <= |keys|
    requires |keys| - n <= MAX_VAULT_HISTORY && (n > 0 ==> |keys| - n >= MAX_VAULT_HISTORY)
    ensures store - (set k | k in keys[..n]) == Pruned(store)
  {
    PrunedKeepsNewestTen(store, keys);
    var left := store - (set k | k in keys[..n]);
    forall k | k in store ensures k in left <==> k in Pruned(store) {
      if k in keys {
        var i :| 0 <= i < |keys| && keys[i] == k;
        if i >= n { NotEarlier(keys, i, n); }
      }
    }
  }
}
