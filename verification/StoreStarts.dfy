/**
 * Starting up on whatever an interrupted run left (electron/durableStore.ts):
 * a corrupt store file is moved aside, the newest complete copy becomes the
 * store file again, and only then are leftover temp files deleted.
 */
module StoreStarts {
  import opened Prelude
  import opened StoreText
  import opened AtomicFile
  import opened StoreRecovery

  predicate Corrupt(d: Dir) {
    Main in d && ParseStore(d[Main].text).None?
  }

  function SetAside(d: Dir, stamp: int): Dir {
    if Corrupt(d) then d[Aside(stamp) := d[Main]] - {Main} else d
  }

  predicate OnlyTemps(gone: set<Name>) {
    forall n :: n in gone ==> n.Temp?
  }

  /** The directory once the chosen copy is the store file. */
  function Restored(d: Dir, n: Name, stamp: int, w: Save): Dir {
    if n == Main then d else Renamed(SetAside(d, stamp), w)
  }

  function TempsOf(d: Dir): set<Name> {
    set n | n in d && n.Temp?
  }

  /** The directory after a start that ran to its end with the copy `n`. */
  function Started(d: Dir, n: Name, stamp: int, w: Save): Dir {
    Restored(d, n, stamp, w) - TempsOf(d)
  }

  /** Every state such a start passes through. */
  ghost predicate StartPasses(d: Dir, n: Name, stamp: int, w: Save, x: Dir) {
    || x == d
    || (n != Main && Passes(SetAside(d, stamp), w, x))
    || (exists gone :: OnlyTemps(gone) && x == Restored(d, n, stamp, w) - gone)
  }

  /** The save a start makes: the chosen copy's own store, printed in some key order. */
  ghost predicate SavesChoice(d: Dir, n: Name, w: Save, entries: StoreEntries) {
    && Chosen(d, n)
    && DistinctKeys(entries) && w.text == Serialize(entries)
    && ParseStore(d[n].text) == Some(StoreOf(entries))
  }

  lemma {:induction false} AsideChangesNoCopy(d: Dir, stamp: int)
    ensures forall n :: Candidate(SetAside(d, stamp), n) <==> Candidate(d, n)
    ensures forall n :: Candidate(d, n) ==> SetAside(d, stamp)[n] == d[n]
  {
  }

  lemma {:induction false} SameCopiesSameLoads(d: Dir, x: Dir, known: iset<Store>)
    requires forall n :: Candidate(x, n) <==> Candidate(d, n)
    requires forall n :: Candidate(x, n) && Candidate(d, n) ==> x[n] == d[n]
    ensures OnlyLoads(d, known) ==> OnlyLoads(x, known)
    ensures forall n :: Chosen(d, n) <==> Chosen(x, n)
  {
    if OnlyLoads(d, known) {
      forall store | Loads(x, store) ensures Loads(d, store) {
        if n :| Chosen(x, n) && ParseStore(x[n].text) == Some(store) { LoadsChosen(d, n); }
      }
    }
  }

  /** While the store file is the newest copy, temp files come and go unseen. */
  lemma {:induction false} MainOutlivesTemps(d: Dir, gone: set<Name>)
    requires Chosen(d, Main) && OnlyTemps(gone)
    ensures Chosen(d - gone, Main)
    ensures OnlyLoads(d - gone, iset{ParseStore(d[Main].text).value})
  {
    var x := d - gone;
    forall o | Candidate(x, o) ensures Candidate(d, o) && x[o] == d[o] {}
    assert Candidate(x, Main);
    OneMain(x);
  }

  lemma {:induction false} OneMain(d: Dir)
    requires Chosen(d, Main)
    ensures OnlyLoads(d, iset{ParseStore(d[Main].text).value})
  {
    forall store | Loads(d, store) ensures ParseStore(d[Main].text) == Some(store) {
      var n :| Chosen(d, n) && ParseStore(d[n].text) == Some(store);
      assert n == Main;
    }
  }

  /** With no complete copy at all, a start that finds no store file deletes the temp files and holds nothing. */
  lemma {:induction false} NothingToLose(d: Dir, gone: set<Name>)
    requires OnlyTemps(gone) && forall n :: !Candidate(d, n)
    ensures OnlyLoads(d - gone, iset{map[]}) && OnlyLoads(d, iset{map[]})
  {
    forall n ensures !Candidate(d - gone, n) { assert !Candidate(d, n); }
  }

  /**
   * Recovery is crash-idempotent: cut short anywhere and started again, it
   * comes up with nothing it could not have come up with the first time.
   */
  lemma {:induction false} CrashDuringStart(d: Dir, n: Name, stamp: int, w: Save, entries: StoreEntries, x: Dir, known: iset<Store>)
    requires SavesChoice(d, n, w, entries) && Timely(d, w) && OnlyLoads(d, known) && !BadTie(d, w, known)
    requires StartPasses(d, n, stamp, w, x)
    ensures OnlyLoads(x, known)
  {
    var a := SetAside(d, stamp);
    LoadsChosen(d, n);
    AsideChangesNoCopy(d, stamp);
    SameCopiesSameLoads(d, a, known);
    assert known + iset{StoreOf(entries)} == known;
    if x == d {
    } else if n != Main && Passes(a, w, x) {
      AsideKeepsTies(d, stamp, w, known);
      CrashDuringSave(a, w, entries, x, known);
    } else {
      var gone :| OnlyTemps(gone) && x == Restored(d, n, stamp, w) - gone;
      if n != Main {
        AfterSave(a, w, entries);
        SavedStoreReadBack(entries);
      }
      MainOutlivesTemps(Restored(d, n, stamp, w), gone);
    }
  }

  lemma {:induction false} AsideKeepsTies(d: Dir, stamp: int, w: Save, known: iset<Store>)
    requires !BadTie(d, w, known)
    ensures !BadTie(SetAside(d, stamp), w, known)
  {
    var a := SetAside(d, stamp);
    AsideChangesNoCopy(d, stamp);
    SameCopiesSameLoads(d, a, known);
  }

  /** At every step some complete copy is at least as new as the chosen one. */
  lemma {:induction false} CopyKept(d: Dir, n: Name, stamp: int, w: Save, entries: StoreEntries, x: Dir)
    requires SavesChoice(d, n, w, entries) && Timely(d, w) && StartPasses(d, n, stamp, w, x)
    ensures exists o :: Candidate(x, o) && x[o].mtime >= d[n].mtime
  {
    SavedStoreReadBack(entries);
    if x == d {
      assert Candidate(x, n);
    } else if n != Main && Passes(SetAside(d, stamp), w, x) {
      if x == Renamed(SetAside(d, stamp), w) {
        assert Candidate(x, Main);
      } else if x == Unlinked(SetAside(d, stamp), w) || x == Linked(SetAside(d, stamp), w) {
        assert Candidate(x, Temp(w.pid));
      } else {
        assert Candidate(x, n);
      }
    } else {
      assert Candidate(x, Main);
    }
  }

  /** Moving a corrupt store file aside costs an earlier one if and only if that has the same name, and other bytes or time. */
  lemma {:induction false} AsideKeepsEarlierExactlyWhen(d: Dir, stamp: int)
    requires Corrupt(d)
    ensures (forall s :: Aside(s) in d ==> Aside(s) in SetAside(d, stamp) && SetAside(d, stamp)[Aside(s)] == d[Aside(s)])
            <==> (Aside(stamp) in d ==> d[Aside(stamp)] == d[Main])
  {
    assert SetAside(d, stamp)[Aside(stamp)] == d[Main];
  }

  /** A start that ran to its end leaves one complete newest copy, the store file, and none of the temp files it found. */
  lemma {:induction false} StartedIsSettled(d: Dir, n: Name, stamp: int, w: Save, entries: StoreEntries)
    requires SavesChoice(d, n, w, entries) && Timely(d, w)
    ensures var x := Started(d, n, stamp, w);
            && Chosen(x, Main) && OnlyLoads(x, iset{StoreOf(entries)})
            && (forall p :: Temp(p) !in x)
  {
    if n != Main {
      AfterSave(SetAside(d, stamp), w, entries);
      SavedStoreReadBack(entries);
    }
    assert OnlyTemps(TempsOf(d));
    MainOutlivesTemps(Restored(d, n, stamp, w), TempsOf(d));
  }

  // ----- the fault that can lose the store: a rename that fails after the fallback is gone -----

  /** The fallback is the copy a start would pick, and the other files would give something else. */
  ghost predicate RestsOnFallback(d: Dir) {
    Chosen(d, Previous) && !OnlyLoads(d - {Previous}, iset{ParseStore(d[Previous].text).value})
  }

  lemma {:induction false} RollbackKeeps(d: Dir, w: Save, known: iset<Store>)
    requires Temp(w.pid) !in d && OnlyLoads(d, known) && !(w.volume.unlinks && RestsOnFallback(d))
    ensures OnlyLoads(RolledBack(d, w), known)
  {
    var x := RolledBack(d, w);
    if !w.volume.unlinks && !(w.volume.links && Main in d && Previous !in d) {
      assert x == d;
    } else if Chosen(d, Previous) {
      LoadsChosen(d, Previous);
      FallbackGone(d, w);
      LinkAddsNothing(d - {Previous}, x, iset{ParseStore(d[Previous].text).value});
    } else {
      FallbackGone(d, w);
      WithoutFallback(d, known);
      LinkAddsNothing(d - {Previous}, x, known);
    }
  }

  lemma {:induction false} FallbackGone(d: Dir, w: Save)
    requires Temp(w.pid) !in d
    requires w.volume.unlinks || (w.volume.links && Main in d && Previous !in d)
    ensures var e, x := d - {Previous}, RolledBack(d, w);
            x == e || (Main in e && x == e[Previous := e[Main]])
  {
    var e, x := d - {Previous}, RolledBack(d, w);
    if w.volume.links && Main in e {
      assert x == e[Previous := e[Main]];
    } else {
      assert x == e;
    }
  }

  /** Linking the store file to the fallback name gives a start nothing new to pick. */
  lemma {:induction false} LinkAddsNothing(e: Dir, x: Dir, known: iset<Store>)
    requires Previous !in e && OnlyLoads(e, known)
    requires x == e || (Main in e && x == e[Previous := e[Main]])
    ensures OnlyLoads(x, known)
  {
    forall store | Loads(x, store) ensures store in known {
      if n :| Chosen(x, n) && ParseStore(x[n].text) == Some(store) {
        assert forall o :: Candidate(e, o) ==> Candidate(x, o);
        assert n == Previous ==> Candidate(x, Main);
        assert Chosen(e, n);
        LoadsChosen(e, n);
      } else {
        forall o ensures !Candidate(e, o) { assert !Candidate(x, o); }
      }
    }
  }

  lemma {:induction false} WithoutFallback(d: Dir, known: iset<Store>)
    requires OnlyLoads(d, known) && !Chosen(d, Previous)
    ensures OnlyLoads(d - {Previous}, known)
  {
    var e := d - {Previous};
    forall store | Loads(e, store) ensures Loads(d, store) {
      if n :| Chosen(e, n) && ParseStore(e[n].text) == Some(store) {
        forall o | Candidate(d, o) && o != Previous ensures Candidate(e, o) {}
        StillChosen(d, n);
        LoadsChosen(d, n);
      } else {
        forall o | o != Previous ensures !Candidate(d, o) { assert !Candidate(e, o); }
      }
    }
  }

  lemma {:induction false} StillChosen(d: Dir, n: Name)
    requires !Chosen(d, Previous) && Candidate(d, n) && n != Previous
    requires forall o {:trigger Candidate(d, o)} :: Candidate(d, o) && o != Previous ==>
               d[o].mtime < d[n].mtime || (d[o].mtime == d[n].mtime && Rank(n) <= Rank(o))
    ensures Chosen(d, n)
  {
    assert Candidate(d, Previous) && !(d[Previous].mtime < d[n].mtime || (d[Previous].mtime == d[n].mtime && Rank(n) <= 1)) ==> Chosen(d, Previous);
  }

  /** Exactly when a failed rename costs the store: the fallback was unlinked and the choice rested on it. */
  lemma {:induction false} RollbackLosesExactlyWhen(d: Dir, w: Save)
    requires Temp(w.pid) !in d
    ensures (forall known :: OnlyLoads(d, known) ==> OnlyLoads(RolledBack(d, w), known))
            <==> !(w.volume.unlinks && RestsOnFallback(d))
  {
    if w.volume.unlinks && RestsOnFallback(d) {
      var e, x := d - {Previous}, RolledBack(d, w);
      var known := iset{ParseStore(d[Previous].text).value};
      FallbackIsAll(d);
      FallbackGone(d, w);
      var store :| Loads(e, store) && store !in known;
      LinkTakesNothing(e, x, store);
      assert !OnlyLoads(x, known);
    } else {
      forall known | OnlyLoads(d, known) ensures OnlyLoads(RolledBack(d, w), known) {
        RollbackKeeps(d, w, known);
      }
    }
  }

  lemma {:induction false} FallbackIsAll(d: Dir)
    requires Chosen(d, Previous)
    ensures OnlyLoads(d, iset{ParseStore(d[Previous].text).value})
  {
    forall store | Loads(d, store) ensures ParseStore(d[Previous].text) == Some(store) {
      var n :| Chosen(d, n) && ParseStore(d[n].text) == Some(store);
      assert n == Previous;
    }
  }

  lemma {:induction false} LinkTakesNothing(e: Dir, x: Dir, store: Store)
    requires Previous !in e && Loads(e, store)
    requires x == e || (Main in e && x == e[Previous := e[Main]])
    ensures Loads(x, store)
  {
    if n :| Chosen(e, n) && ParseStore(e[n].text) == Some(store) {
      assert Candidate(e, n) && Candidate(x, n);
      forall o | Candidate(x, o)
        ensures x[o].mtime < x[n].mtime || (x[o].mtime == x[n].mtime && Rank(n) <= Rank(o))
      {
        if o == Previous { assert Candidate(e, Main); } else { assert Candidate(e, o); }
      }
      LoadsChosen(x, n);
    } else {
      forall o ensures !Candidate(x, o) { assert !Candidate(e, if o == Previous then Main else o); assert !Candidate(e, o); }
    }
  }
}
