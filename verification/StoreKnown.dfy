/**
 * What a start may come up with when any of the fallback copies cannot be read
 * (electron/durableStore.ts): the copies that matter, and why they stay known.
 */
module StoreKnown {
  import opened Prelude
  import opened StoreText
  import opened AtomicFile
  import opened StoreRecovery
  import opened StoreStarts
  import opened StoreLead

  /** A copy some start may load: the store file, or one strictly newer; where the store file is no copy, any. */
  ghost predicate Matters(d: Dir, n: Name) {
    Candidate(d, n) && (Candidate(d, Main) ==> n == Main || d[n].mtime > d[Main].mtime)
  }

  /** A start that can read the store file, if there is one, may come up with this store. */
  ghost predicate MayLoad(d: Dir, store: Store) {
    || (exists n :: Matters(d, n) && ParseStore(d[n].text) == Some(store))
    || (store == map[] && !Candidate(d, Main))
  }

  /** Whatever such a start comes up with is one of `known`. */
  ghost predicate AllKnown(d: Dir, known: iset<Store>) {
    forall store :: MayLoad(d, store) ==> store in known
  }

  // ----- what a load picks -----

  lemma {:induction false} PickMatters(d: Dir, hidden: set<Name>, chosen: Option<Name>, store: Store)
    requires Picks(d, hidden, chosen, store) && (Main in d ==> Main !in hidden)
    ensures MayLoad(d, store) && (chosen.Some? ==> Matters(d, chosen.value))
  {
    var v := Visible(d, hidden);
    assert Candidate(v, Main) <==> Candidate(d, Main);
    if chosen.Some? {
      assert Candidate(d, chosen.value) && v[chosen.value] == d[chosen.value];
    }
  }

  lemma {:induction false} MatteringIsPicked(d: Dir, n: Name)
    requires Matters(d, n)
    ensures Picks(d, d.Keys - {n, Main}, Some(n), ParseStore(d[n].text).value)
  {
    var v := Visible(d, d.Keys - {n, Main});
    assert Candidate(v, n) && v[n] == d[n];
    forall o | Candidate(v, o)
      ensures v[o].mtime < v[n].mtime || (v[o].mtime == v[n].mtime && Rank(n) <= Rank(o))
    {
      assert o == n || o == Main;
      assert Candidate(d, o);
    }
  }

  lemma {:induction false} NothingIsPicked(d: Dir)
    requires !Candidate(d, Main)
    ensures Picks(d, d.Keys - {Main}, None, map[])
  {
    var v := Visible(d, d.Keys - {Main});
    forall n ensures !Candidate(v, n) {}
  }

  /** A store may be loaded if and only if some set of unreadable fallbacks makes a load pick it. */
  lemma {:induction false} MayLoadExactlyWhen(d: Dir, store: Store)
    ensures MayLoad(d, store) <==> exists hidden, chosen :: Main !in hidden && Picks(d, hidden, chosen, store)
  {
    if MayLoad(d, store) {
      if n :| Matters(d, n) && ParseStore(d[n].text) == Some(store) {
        MatteringIsPicked(d, n);
        assert Main !in d.Keys - {n, Main};
      } else {
        NothingIsPicked(d);
        assert Main !in d.Keys - {Main};
      }
    }
    forall hidden, chosen | Main !in hidden && Picks(d, hidden, chosen, store) ensures MayLoad(d, store) {
      PickMatters(d, hidden, chosen, store);
    }
  }

  /**
   * Loads with unreadable fallbacks come up with known stores only, whichever those are, if and only if the store file,
   * where complete, and every strictly newer copy hold known stores; where it is not complete, every copy does and nothing is known too.
   */
  lemma {:induction false} LoadsKnownExactlyWhen(d: Dir, known: iset<Store>)
    ensures (forall hidden, chosen, store :: Main !in hidden && Picks(d, hidden, chosen, store) ==> store in known)
            <==> (forall n :: Matters(d, n) ==> ParseStore(d[n].text).value in known) && (!Candidate(d, Main) ==> map[] in known)
    ensures AllKnown(d, known)
            <==> (forall n :: Matters(d, n) ==> ParseStore(d[n].text).value in known) && (!Candidate(d, Main) ==> map[] in known)
  {
    KnownByCopies(d, known);
    if forall hidden, chosen, store :: Main !in hidden && Picks(d, hidden, chosen, store) ==> store in known {
      forall store | MayLoad(d, store) ensures store in known { MayLoadExactlyWhen(d, store); }
      assert AllKnown(d, known);
    }
    if AllKnown(d, known) {
      forall hidden, chosen, store | Main !in hidden && Picks(d, hidden, chosen, store) ensures store in known {
        PickMatters(d, hidden, chosen, store);
      }
    }
  }

  lemma {:induction false} KnownByCopies(d: Dir, known: iset<Store>)
    ensures AllKnown(d, known)
            <==> (forall n :: Matters(d, n) ==> ParseStore(d[n].text).value in known) && (!Candidate(d, Main) ==> map[] in known)
  {
    if AllKnown(d, known) {
      forall n | Matters(d, n) ensures ParseStore(d[n].text).value in known { assert MayLoad(d, ParseStore(d[n].text).value); }
      assert !Candidate(d, Main) ==> MayLoad(d, map[]);
    }
  }

  /** A load comes up empty-handed if and only if every complete copy is among the unreadable files. */
  lemma {:induction false} NothingPickedExactlyWhen(d: Dir, hidden: set<Name>, chosen: Option<Name>, store: Store)
    requires Picks(d, hidden, chosen, store)
    ensures chosen.None? <==> forall n :: Candidate(d, n) ==> n in hidden
  {
    var v := Visible(d, hidden);
    assert forall n :: Candidate(v, n) <==> Candidate(d, n) && n !in hidden;
  }

  /** Where there is a complete copy, a load picks a newest one if and only if one of those can be read. */
  lemma {:induction false} NewestPickedExactlyWhen(d: Dir, hidden: set<Name>, chosen: Option<Name>, store: Store)
    requires Picks(d, hidden, chosen, store) && exists n :: Candidate(d, n)
    ensures chosen.Some? && Chosen(d, chosen.value) <==> exists n :: Chosen(d, n) && n !in hidden
  {
    var v := Visible(d, hidden);
    assert forall n :: Candidate(v, n) <==> Candidate(d, n) && n !in hidden;
    if n :| Chosen(d, n) && n !in hidden {
      assert Candidate(v, n);
      forall o | Candidate(d, o)
        ensures d[o].mtime < d[chosen.value].mtime || (d[o].mtime == d[chosen.value].mtime && Rank(chosen.value) <= Rank(o))
      {
      }
    }
  }

  /** With every file readable a start loads what it may. */
  lemma {:induction false} LoadsMayLoad(d: Dir, store: Store)
    requires Loads(d, store)
    ensures MayLoad(d, store)
  {
    if n :| Chosen(d, n) && ParseStore(d[n].text) == Some(store) { assert Matters(d, n); }
  }

  lemma {:induction false} KnownIsLoaded(d: Dir, known: iset<Store>)
    requires AllKnown(d, known)
    ensures OnlyLoads(d, known)
  {
    forall store | Loads(d, store) ensures store in known { LoadsMayLoad(d, store); }
  }

  // ----- what keeps them known -----

  /** The same store file, and no other copy but old ones and those of a known store. */
  lemma {:induction false} KnownStay(d: Dir, x: Dir, known: iset<Store>)
    requires AllKnown(d, known) && (Candidate(x, Main) <==> Candidate(d, Main)) && (Candidate(d, Main) ==> x[Main] == d[Main])
    requires forall n :: Matters(x, n) ==> (Matters(d, n) && x[n] == d[n]) || ParseStore(x[n].text).value in known
    ensures AllKnown(x, known)
  {
    KnownByCopies(d, known);
    KnownByCopies(x, known);
  }

  /** A store file no older than anything else is all that matters. */
  lemma {:induction false} MainIsAll(d: Dir)
    requires Candidate(d, Main) && forall n :: Candidate(d, n) ==> d[n].mtime <= d[Main].mtime
    ensures AllKnown(d, iset{ParseStore(d[Main].text).value}) && MayLoad(d, ParseStore(d[Main].text).value)
  {
    KnownByCopies(d, iset{ParseStore(d[Main].text).value});
    assert Matters(d, Main);
  }

  lemma {:induction false} RenamedIsKnown(d: Dir, w: Save, entries: StoreEntries)
    requires DistinctKeys(entries) && w.text == Serialize(entries) && Timely(d, w)
    ensures AllKnown(Renamed(d, w), iset{StoreOf(entries)}) && MayLoad(Renamed(d, w), StoreOf(entries))
  {
    AfterSave(d, w, entries);
    SavedStoreReadBack(entries);
    MainIsAll(Renamed(d, w));
  }

  lemma {:induction false} WritingIsKnown(d: Dir, w: Save, entries: StoreEntries, x: Dir, known: iset<Store>)
    requires DistinctKeys(entries) && w.text == Serialize(entries) && Timely(d, w) && AllKnown(d, known) && Writing(d, w, x)
    ensures AllKnown(x, known + iset{StoreOf(entries)})
  {
    SavedStoreReadBack(entries);
    var part := x[Temp(w.pid)].text;
    if part != w.text { PartIsNoCopy(d, w, entries, part); }
    assert AllKnown(d, known + iset{StoreOf(entries)});
    KnownStay(d, x, known + iset{StoreOf(entries)});
  }

  lemma {:induction false} UnlinkedIsKnown(d: Dir, w: Save, entries: StoreEntries, x: Dir, known: iset<Store>)
    requires DistinctKeys(entries) && w.text == Serialize(entries) && Timely(d, w) && AllKnown(d, known)
    requires x == Unlinked(d, w) || x == Linked(d, w)
    ensures AllKnown(x, known + iset{StoreOf(entries)})
  {
    SavedStoreReadBack(entries);
    assert AllKnown(d, known + iset{StoreOf(entries)});
    KnownStay(d, x, known + iset{StoreOf(entries)});
  }

  /** In every state a save passes through, what may be loaded is known, or the store being saved. */
  lemma {:induction false} PassesAreKnown(d: Dir, w: Save, entries: StoreEntries, x: Dir, known: iset<Store>)
    requires DistinctKeys(entries) && w.text == Serialize(entries) && Timely(d, w) && AllKnown(d, known) && Passes(d, w, x)
    ensures AllKnown(x, known + iset{StoreOf(entries)})
  {
    if x == d {
    } else if x == Renamed(d, w) {
      RenamedIsKnown(d, w, entries);
    } else if x == Unlinked(d, w) || x == Linked(d, w) {
      UnlinkedIsKnown(d, w, entries, x, known);
    } else {
      WritingIsKnown(d, w, entries, x, known);
    }
  }

  /** A failed rename loses none of what mattered where the store file leads. */
  lemma {:induction false} RollbackKeepsMattering(d: Dir, w: Save)
    requires Temp(w.pid) !in d && MainLeads(d)
    ensures var x := RolledBack(d, w);
            && (Candidate(x, Main) <==> Candidate(d, Main)) && (Main in d <==> Main in x) && (Main in d ==> x[Main] == d[Main])
            && forall n :: Matters(x, n) <==> Matters(d, n)
    ensures forall n :: Matters(d, n) ==> n in RolledBack(d, w) && RolledBack(d, w)[n] == d[n]
  {
    var x := RolledBack(d, w);
    forall n ensures (Matters(x, n) <==> Matters(d, n)) && (Matters(d, n) ==> n in x && x[n] == d[n]) {
      if n == Previous {
        assert !Matters(d, Previous);
        assert Candidate(x, Previous) ==> Candidate(x, Main) && x[Previous].mtime <= x[Main].mtime by { RollbackKeepsLead(d, w); }
      }
    }
  }

  lemma {:induction false} RollbackMayLoad(d: Dir, w: Save, store: Store)
    requires Temp(w.pid) !in d && MainLeads(d)
    ensures MayLoad(RolledBack(d, w), store) <==> MayLoad(d, store)
  {
    RollbackKeepsMattering(d, w);
  }

  lemma {:induction false} RollbackIsKnown(d: Dir, w: Save, known: iset<Store>)
    requires Temp(w.pid) !in d && MainLeads(d) && AllKnown(d, known)
    ensures AllKnown(RolledBack(d, w), known)
  {
    forall store | MayLoad(RolledBack(d, w), store) ensures store in known { RollbackMayLoad(d, w, store); }
  }

  lemma {:induction false} AsideMayLoad(d: Dir, stamp: int, store: Store)
    ensures MayLoad(SetAside(d, stamp), store) <==> MayLoad(d, store)
  {
    AsideChangesNoCopy(d, stamp);
    var a := SetAside(d, stamp);
    forall n ensures (Matters(a, n) <==> Matters(d, n)) && (Matters(d, n) ==> n in a && a[n] == d[n]) {
      assert Candidate(d, n) ==> a[n] == d[n];
    }
  }

  lemma {:induction false} AsideIsKnown(d: Dir, stamp: int, known: iset<Store>)
    requires AllKnown(d, known)
    ensures AllKnown(SetAside(d, stamp), known)
  {
    forall store | MayLoad(SetAside(d, stamp), store) ensures store in known { AsideMayLoad(d, stamp, store); }
  }

  lemma {:induction false} SweptIsKnown(d: Dir, gone: set<Name>, known: iset<Store>)
    requires AllKnown(d, known) && OnlyTemps(gone)
    ensures AllKnown(d - gone, known)
  {
    KnownStay(d, d - gone, known);
  }

  /** Temp files gone, a leading store file is all that matters; where it is no copy, nothing is left. */
  lemma {:induction false} TemplessIsKnown(d: Dir)
    requires MainLeads(d)
    ensures var x := d - TempsOf(d);
            && (Candidate(d, Main) ==> AllKnown(x, iset{ParseStore(d[Main].text).value}) && MayLoad(x, ParseStore(d[Main].text).value))
            && (!Candidate(d, Main) ==> AllKnown(x, iset{map[]}) && MayLoad(x, map[]))
  {
    var x := d - TempsOf(d);
    assert Candidate(x, Main) <==> Candidate(d, Main);
    forall n | Candidate(x, n) ensures Candidate(x, Main) && x[n].mtime <= x[Main].mtime {
      assert n == Main || n == Previous;
      assert Candidate(d, n);
    }
    if Candidate(d, Main) { MainIsAll(x); } else { KnownByCopies(x, iset{map[]}); }
  }
}
