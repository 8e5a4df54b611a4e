/**
 * The store file leads its fallback (electron/durableStore.ts): in every folder the
 * store itself made, the fallback is never the copy a start rests on. Folders that
 * break this, damaged from outside, are where a crash or a failed rename can cost the store.
 */
module StoreLead {
  import opened Prelude
  import opened StoreText
  import opened AtomicFile
  import opened StoreRecovery
  import opened StoreStarts

  /** Where the fallback is a complete copy, so is the store file, and it is no older. */
  ghost predicate MainLeads(d: Dir) {
    Candidate(d, Previous) ==> Candidate(d, Main) && d[Main].mtime >= d[Previous].mtime
  }

  /** Under that lead neither the fatal tie nor the fatal rename failure can arise. */
  lemma {:induction false} LeadExcludesFaults(d: Dir, w: Save, known: iset<Store>)
    requires MainLeads(d)
    ensures !Chosen(d, Previous) && !BadTie(d, w, known) && !RestsOnFallback(d)
  {
    assert Candidate(d, Previous) ==> Candidate(d, Main);
  }

  lemma {:induction false} RenamedLeads(d: Dir, w: Save, entries: StoreEntries)
    requires DistinctKeys(entries) && w.text == Serialize(entries) && Timely(d, w)
    ensures MainLeads(Renamed(d, w))
  {
    AfterSave(d, w, entries);
    assert Candidate(Renamed(d, w), Main);
  }

  /** Every state a save passes through keeps the lead. */
  lemma {:induction false} PassesKeepLead(d: Dir, w: Save, entries: StoreEntries, x: Dir)
    requires DistinctKeys(entries) && w.text == Serialize(entries) && Timely(d, w) && MainLeads(d) && Passes(d, w, x)
    ensures MainLeads(x)
  {
    if x == Renamed(d, w) {
      RenamedLeads(d, w, entries);
    } else {
      assert Candidate(x, Main) <==> Candidate(d, Main);
    }
  }

  lemma {:induction false} RollbackKeepsLead(d: Dir, w: Save)
    requires Temp(w.pid) !in d && MainLeads(d)
    ensures MainLeads(RolledBack(d, w))
  {
    assert Candidate(RolledBack(d, w), Main) <==> Candidate(d, Main);
  }

  lemma {:induction false} AsideKeepsLead(d: Dir, stamp: int)
    requires MainLeads(d)
    ensures MainLeads(SetAside(d, stamp))
  {
    AsideChangesNoCopy(d, stamp);
  }

  lemma {:induction false} SweptTempsKeepLead(d: Dir, gone: set<Name>)
    requires MainLeads(d) && OnlyTemps(gone)
    ensures MainLeads(d - gone)
  {
    assert Candidate(d - gone, Main) <==> Candidate(d, Main);
  }

  /** Every state a start passes through keeps the lead. */
  lemma {:induction false} StartKeepsLead(d: Dir, n: Name, stamp: int, w: Save, entries: StoreEntries, x: Dir)
    requires SavesChoice(d, n, w, entries) && Timely(d, w) && MainLeads(d) && StartPasses(d, n, stamp, w, x)
    ensures MainLeads(x)
  {
    var a := SetAside(d, stamp);
    AsideKeepsLead(d, stamp);
    if x == d {
    } else if n != Main && Passes(a, w, x) {
      PassesKeepLead(a, w, entries, x);
    } else {
      var gone :| OnlyTemps(gone) && x == Restored(d, n, stamp, w) - gone;
      if n != Main { RenamedLeads(a, w, entries); }
      SweptTempsKeepLead(Restored(d, n, stamp, w), gone);
    }
  }

  // ----- damaged folders, in which what was excluded does happen -----

  /** A folder someone left with the fallback alone: a failed rename loses the store it held. */
  lemma {:induction false} LoneFallbackIsLost(key: string, value: string, w: Save)
    requires w.volume.unlinks
    ensures var entries: StoreEntries := [(key, value)];
            var d: Dir := map[Previous := File(Serialize(entries), 5)];
            && RestsOnFallback(d) && Loads(d, StoreOf(entries)) && !OnlyLoads(RolledBack(d, w), iset{StoreOf(entries)})
  {
    var entries: StoreEntries := [(key, value)];
    var d: Dir := map[Previous := File(Serialize(entries), 5)];
    SavedStoreReadBack(entries);
    assert key in StoreOf(entries);
    assert Chosen(d, Previous);
    LoadsChosen(d, Previous);
    assert forall n :: !Candidate(d - {Previous}, n);
    assert Loads(d - {Previous}, map[]);
    assert forall n :: !Candidate(RolledBack(d, w), n);
    assert Loads(RolledBack(d, w), map[]);
  }

  lemma {:induction false} OneEntryStore(key: string, value: string)
    ensures ParseStore(Serialize([(key, value)])).Some? && ParseStore(Serialize([])) == Some(map[])
    ensures ParseStore(Serialize([(key, value)])).value == StoreOf([(key, value)]) && StoreOf([(key, value)]) != map[]
  {
    SavedStoreReadBack([(key, value)]);
    SavedStoreReadBack([]);
    assert key in StoreOf([(key, value)]);
  }

  /** And beside it a leftover temp file of the same clock tick: a crash between unlinking and renaming loads the leftover. */
  lemma {:induction false} TiedFallbackIsLost(fallback: string, leftover: string, w: Save)
    requires w.volume.unlinks && w.pid != 7 && w.now == 5
    requires ParseStore(fallback).Some? && ParseStore(leftover).Some? && ParseStore(fallback) != ParseStore(leftover)
    ensures var d: Dir := map[Previous := File(fallback, 5), Temp(7) := File(leftover, 5)];
            var known := iset{ParseStore(fallback).value};
            BadTie(d, w, known) && Timely(d, w) && Passes(d, w, Unlinked(d, w)) && !OnlyLoads(Unlinked(d, w), known)
  {
    var d: Dir := map[Previous := File(fallback, 5), Temp(7) := File(leftover, 5)];
    assert Candidate(d, Temp(7)) && Candidate(d, Previous);
    assert Chosen(d, Previous);
    TieLoses(d, w, iset{ParseStore(fallback).value});
  }

  lemma {:induction false} LoneFallbackTies(key: string, value: string, w: Save)
    requires w.volume.unlinks && w.pid != 7 && w.now == 5
    ensures var d: Dir := map[Previous := File(Serialize([(key, value)]), 5), Temp(7) := File(Serialize([]), 5)];
            BadTie(d, w, iset{StoreOf([(key, value)])}) && !OnlyLoads(Unlinked(d, w), iset{StoreOf([(key, value)])})
  {
    OneEntryStore(key, value);
    TiedFallbackIsLost(Serialize([(key, value)]), Serialize([]), w);
  }
}
