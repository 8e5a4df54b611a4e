/**
 * Which copy of the store a start picks (electron/durableStore.ts), and why a
 * crash at any point of saving or recovering never loses the store.
 */
module StoreRecovery {
  import opened Prelude
  import opened StoreText
  import opened AtomicFile

  /** A complete copy: the store file, the version before it, or a temp file. */
  predicate Candidate(d: Dir, n: Name) {
    n in d && !n.Aside? && ParseStore(d[n].text).Some?
  }

  /** The order candidates are looked at, which decides between equally old ones. */
  function Rank(n: Name): nat {
    match n
    case Main => 0
    case Previous => 1
    case Temp(_) => 2
    case Aside(_) => 3
  }

  /** The newest complete copy; the store file wins a tie, then the previous version. */
  ghost predicate Chosen(d: Dir, n: Name) {
    && Candidate(d, n)
    && forall o {:trigger Candidate(d, o)} :: Candidate(d, o) ==>
         d[o].mtime < d[n].mtime || (d[o].mtime == d[n].mtime && Rank(n) <= Rank(o))
  }

  /** A start may come up with `store`. */
  ghost predicate Loads(d: Dir, store: Store) {
    || (exists n :: Chosen(d, n) && ParseStore(d[n].text) == Some(store))
    || (store == map[] && forall n :: !Candidate(d, n))
  }

  /** Whatever a start comes up with is one of `known`. */
  ghost predicate OnlyLoads(d: Dir, known: iset<Store>) {
    forall store :: Loads(d, store) ==> store in known
  }

  /** The folder but for the files that cannot be read. */
  function Visible(d: Dir, hidden: set<Name>): Dir {
    d - hidden
  }

  /** The copies of the store that can be read, and which of them a load comes up with. */
  ghost predicate Picks(d: Dir, hidden: set<Name>, chosen: Option<Name>, store: Store) {
    var v := Visible(d, hidden);
    match chosen
    case Some(n) => Chosen(v, n) && ParseStore(v[n].text) == Some(store)
    case None => store == map[] && forall n :: !Candidate(v, n)
  }

  /** The clock has not gone back, and no temp file bears this process's id. */
  ghost predicate Timely(d: Dir, w: Save) {
    Temp(w.pid) !in d && forall n :: n in d ==> d[n].mtime <= w.now
  }

  /**
   * The one tie that matters: the only newest copy is the fallback about to be
   * unlinked, and a leftover temp file as new as the write holds something else.
   */
  ghost predicate BadTie(d: Dir, w: Save, known: iset<Store>) {
    Chosen(d, Previous) &&
    exists p {:trigger Candidate(d, Temp(p))} :: Candidate(d, Temp(p)) && d[Temp(p)].mtime == w.now && ParseStore(d[Temp(p)].text).value !in known
  }

  lemma {:induction false} LoadsChosen(d: Dir, n: Name)
    requires Chosen(d, n)
    ensures Loads(d, ParseStore(d[n].text).value)
  {
  }

  /** A write that is not finished is not a copy. */
  lemma {:induction false} PartIsNoCopy(d: Dir, w: Save, entries: StoreEntries, part: string)
    requires DistinctKeys(entries) && w.text == Serialize(entries) && PartWritten(part, w.text) && part != w.text
    requires Temp(w.pid) !in d
    ensures forall n :: Candidate(Written(d, w, part), n) <==> Candidate(d, n)
  {
    if part == "" { EmptyIsNoStore(); } else { TornStoreIsNoStore(part, entries); }
  }

  lemma {:induction false} EmptyIsNoStore()
    ensures ParseStore("") == None
  {
  }

  lemma {:induction false} CutWriting(d: Dir, w: Save, entries: StoreEntries, part: string, known: iset<Store>)
    requires DistinctKeys(entries) && w.text == Serialize(entries) && PartWritten(part, w.text)
    requires Timely(d, w) && OnlyLoads(d, known)
    ensures OnlyLoads(Written(d, w, part), known + iset{StoreOf(entries)})
  {
    var x := Written(d, w, part);
    SavedStoreReadBack(entries);
    if part != w.text { PartIsNoCopy(d, w, entries, part); }
    forall store | Loads(x, store) ensures store in known + iset{StoreOf(entries)} {
      if n :| Chosen(x, n) && ParseStore(x[n].text) == Some(store) {
        if n != Temp(w.pid) {
          forall o | Candidate(d, o) ensures Candidate(x, o) {}
          assert Chosen(d, n);
          LoadsChosen(d, n);
        }
      } else {
        forall o ensures !Candidate(d, o) { assert Candidate(d, o) ==> Candidate(x, o); }
        assert Loads(d, store);
      }
    }
  }

  lemma {:induction false} CutUnlinked(d: Dir, w: Save, entries: StoreEntries, x: Dir, known: iset<Store>)
    requires DistinctKeys(entries) && w.text == Serialize(entries)
    requires Timely(d, w) && OnlyLoads(d, known) && !BadTie(d, w, known + iset{StoreOf(entries)})
    requires x == Unlinked(d, w) || x == Linked(d, w)
    ensures OnlyLoads(x, known + iset{StoreOf(entries)})
  {
    SavedStoreReadBack(entries);
    assert Candidate(x, Temp(w.pid));
    forall store | Loads(x, store) ensures store in known + iset{StoreOf(entries)} {
      var n :| Chosen(x, n) && ParseStore(x[n].text) == Some(store);
      if n != Temp(w.pid) {
        CutChoice(d, w, x, n, known + iset{StoreOf(entries)});
      }
    }
  }

  /** The copy chosen after the fallback is gone was as good before, unless a tie says otherwise. */
  lemma {:induction false} CutChoice(d: Dir, w: Save, x: Dir, n: Name, known: iset<Store>)
    requires Timely(d, w) && OnlyLoads(d, known) && !BadTie(d, w, known)
    requires x == Unlinked(d, w) || x == Linked(d, w)
    requires Candidate(x, Temp(w.pid)) && Chosen(x, n) && n != Temp(w.pid)
    ensures ParseStore(x[n].text).value in known
  {
    CutKeeps(d, w, x, n);
    if Chosen(d, n) {
      LoadsChosen(d, n);
    } else {
      OthersStay(d, w, x);
      PreviousWasChosen(d, w, n);
    }
  }

  lemma {:induction false} OthersStay(d: Dir, w: Save, x: Dir)
    requires Temp(w.pid) !in d && (x == Unlinked(d, w) || x == Linked(d, w))
    ensures forall o :: Candidate(d, o) && o != Previous ==> Candidate(x, o) && x[o] == d[o]
  {
  }

  /** A copy chosen only once the fallback is gone is a temp file, and the fallback was chosen before. */
  lemma {:induction false} PreviousWasChosen(d: Dir, w: Save, n: Name)
    requires Timely(d, w) && Candidate(d, n) && d[n].mtime == w.now && !Chosen(d, n)
    requires forall o {:trigger Candidate(d, o)} :: Candidate(d, o) && o != Previous && d[o].mtime == w.now ==> Rank(n) <= Rank(o)
    ensures n.Temp? && Chosen(d, Previous)
  {
  }

  /** Chosen beside the finished temp file, a copy is as new as the write, and no mere link to an older one. */
  lemma {:induction false} CutKeeps(d: Dir, w: Save, x: Dir, n: Name)
    requires Timely(d, w)
    requires x == Unlinked(d, w) || x == Linked(d, w)
    requires Candidate(x, Temp(w.pid)) && Chosen(x, n) && n != Temp(w.pid)
    ensures Candidate(d, n) && d[n] == x[n] && d[n].mtime == w.now
  {
    assert Candidate(x, Main) ==> Rank(Main) < Rank(Previous);
  }

  lemma {:induction false} AfterSave(d: Dir, w: Save, entries: StoreEntries)
    requires DistinctKeys(entries) && w.text == Serialize(entries) && Timely(d, w)
    ensures Chosen(Renamed(d, w), Main) && OnlyLoads(Renamed(d, w), iset{StoreOf(entries)})
  {
    SavedStoreReadBack(entries);
    var x := Renamed(d, w);
    assert Candidate(x, Main);
  }

  /**
   * Crash refinement: wherever a save is cut short, the next start comes up
   * with what it would have come up with before, or with the store being saved.
   */
  lemma {:induction false} CrashDuringSave(d: Dir, w: Save, entries: StoreEntries, x: Dir, known: iset<Store>)
    requires DistinctKeys(entries) && w.text == Serialize(entries)
    requires Timely(d, w) && OnlyLoads(d, known) && !BadTie(d, w, known + iset{StoreOf(entries)})
    requires Passes(d, w, x)
    ensures OnlyLoads(x, known + iset{StoreOf(entries)})
  {
    if x == d {
    } else if x == Renamed(d, w) {
      AfterSave(d, w, entries);
    } else if x == Unlinked(d, w) || x == Linked(d, w) {
      CutUnlinked(d, w, entries, x, known);
    } else {
      CutWriting(d, w, entries, x[Temp(w.pid)].text, known);
    }
  }

  /** The tie is the one thing that can make a crash lose the store, given that the old fallback can be unlinked. */
  lemma {:induction false} CrashSafeExactlyWhen(d: Dir, w: Save, entries: StoreEntries, known: iset<Store>)
    requires DistinctKeys(entries) && w.text == Serialize(entries) && w.volume.unlinks
    requires Timely(d, w) && OnlyLoads(d, known) && StoreOf(entries) in known
    ensures (forall x :: Passes(d, w, x) ==> OnlyLoads(x, known)) <==> !BadTie(d, w, known)
  {
    if BadTie(d, w, known) {
      TieLoses(d, w, known);
    } else {
      assert known + iset{StoreOf(entries)} == known;
      forall x | Passes(d, w, x) ensures OnlyLoads(x, known) {
        CrashDuringSave(d, w, entries, x, known);
      }
    }
  }

  lemma {:induction false} TieLoses(d: Dir, w: Save, known: iset<Store>)
    requires Timely(d, w) && w.volume.unlinks && BadTie(d, w, known)
    ensures Passes(d, w, Unlinked(d, w)) && !OnlyLoads(Unlinked(d, w), known)
  {
    var x := Unlinked(d, w);
    var p :| Candidate(d, Temp(p)) && d[Temp(p)].mtime == w.now && ParseStore(d[Temp(p)].text).value !in known;
    assert Candidate(x, Temp(p));
    forall o | Candidate(x, o) && o != Temp(w.pid) ensures Candidate(d, o) && x[o] == d[o] {}
    assert !(Candidate(x, Main) && x[Main].mtime == w.now);
    assert Chosen(x, Temp(p));
    LoadsChosen(x, Temp(p));
  }
}
