/**
 * Whole runs of the store: saves accepted, refused and cut short, stops,
 * starts that finish, start refused or are cut short, in any order.
 */
module StoreRuns {
  import opened Prelude
  import opened StoreText
  import opened AtomicFile
  import opened StoreRecovery
  import opened StoreStarts
  import opened StoreLead
  import opened StoreKnown

  /** The disk, whether a process runs that may save, and the stores the next start may come up with. */
  datatype Host = Host(dir: Dir, known: iset<Store>, up: bool)

  datatype Event =
    | Saved(w: Save, entries: StoreEntries)
    | SaveCut(w: Save, entries: StoreEntries, left: Dir)
    | SaveRefused(w: Save, entries: StoreEntries, renameFailed: bool)
    | Stopped
    // starts, each with the fallback copies it could not read
    | Recovered(hidden: set<Name>, n: Name, stamp: int, w: Save, entries: StoreEntries)
    | RecoveryRefused(hidden: set<Name>, n: Name, stamp: int, w: Save, entries: StoreEntries, renameFailed: bool)
    | RecoveryCut(hidden: set<Name>, n: Name, stamp: int, w: Save, entries: StoreEntries, left: Dir)
    | FoundNothing(hidden: set<Name>, stamp: int)
    | FindingCut(hidden: set<Name>, stamp: int, left: Dir)
    | LeftAlone             // the store file cannot be read, or is corrupt and cannot be moved: nothing is saved

  /** The copy a start picks of those it can read, and the save it makes of it. */
  ghost predicate SavesPick(d: Dir, hidden: set<Name>, n: Name, w: Save, entries: StoreEntries) {
    && (Main in d ==> Main !in hidden)
    && DistinctKeys(entries) && w.text == Serialize(entries) && Timely(d, w)
    && Picks(d, hidden, Some(n), StoreOf(entries))
  }

  ghost predicate FindsNone(d: Dir, hidden: set<Name>) {
    (Main in d ==> Main !in hidden) && Picks(d, hidden, None, map[])
  }

  /** The folder after a start found nothing to load: a corrupt store file aside, or, where there is none, the temp files gone. */
  function Emptied(d: Dir, stamp: int): Dir {
    if Main in d then SetAside(d, stamp) else d - TempsOf(d)
  }

  /** What every save is given: the store in some key order, and a clock that has not gone back. */
  ghost predicate Fits(d: Dir, w: Save, entries: StoreEntries) {
    DistinctKeys(entries) && w.text == Serialize(entries) && Timely(d, w)
  }

  function Refused(d: Dir, w: Save, renameFailed: bool): Dir {
    if renameFailed then RolledBack(d, w) else d
  }

  /** One event: `known` moves to exactly the store accepted or in flight, never back. */
  ghost predicate Happens(h: Host, e: Event, next: Host) {
    match e
    case Saved(w, entries) =>
      && h.up && Fits(h.dir, w, entries)
      && next == Host(Renamed(h.dir, w), iset{StoreOf(entries)}, true)
    case SaveCut(w, entries, left) =>
      && h.up && Fits(h.dir, w, entries) && Passes(h.dir, w, left)
      && next == Host(left, h.known + iset{StoreOf(entries)}, false)
    case SaveRefused(w, entries, renameFailed) =>
      && h.up && Fits(h.dir, w, entries)
      && next == h.(dir := Refused(h.dir, w, renameFailed))
    case Stopped => next == h.(up := false)
    case Recovered(hidden, n, stamp, w, entries) =>
      && !h.up && SavesPick(h.dir, hidden, n, w, entries)
      && next == Host(Started(h.dir, n, stamp, w), iset{StoreOf(entries)}, true)
    case RecoveryRefused(hidden, n, stamp, w, entries, renameFailed) =>
      && !h.up && n != Main && SavesPick(h.dir, hidden, n, w, entries)
      && next == Host(Refused(SetAside(h.dir, stamp), w, renameFailed), h.known, true)
    case RecoveryCut(hidden, n, stamp, w, entries, left) =>
      && !h.up && SavesPick(h.dir, hidden, n, w, entries) && StartPasses(h.dir, n, stamp, w, left)
      && next == h.(dir := left)
    case FoundNothing(hidden, stamp) =>
      && !h.up && FindsNone(h.dir, hidden)
      && next == Host(Emptied(h.dir, stamp), if Main in h.dir then h.known else iset{map[]}, true)
    case FindingCut(hidden, stamp, left) =>
      && !h.up && FindsNone(h.dir, hidden)
      && (left == SetAside(h.dir, stamp) || (Main !in h.dir && exists gone :: OnlyTemps(gone) && left == h.dir - gone))
      && next == h.(dir := left)
    case LeftAlone => !h.up && next == h
  }

  /** What a run keeps: whatever cannot be read, a start comes up with a known store, and the store file leads its fallback. */
  ghost predicate HostOk(h: Host) {
    AllKnown(h.dir, h.known) && MainLeads(h.dir)
  }

  /** Every state of a start keeps the lead and what is known. */
  lemma {:induction false} StartIsOk(d: Dir, hidden: set<Name>, n: Name, stamp: int, w: Save, entries: StoreEntries, x: Dir, known: iset<Store>)
    requires AllKnown(d, known) && MainLeads(d) && SavesPick(d, hidden, n, w, entries) && StartPasses(d, n, stamp, w, x)
    ensures AllKnown(x, known) && MainLeads(x)
  {
    var a := SetAside(d, stamp);
    PickMatters(d, hidden, Some(n), StoreOf(entries));
    assert known + iset{StoreOf(entries)} == known;
    AsideIsKnown(d, stamp, known);
    AsideKeepsLead(d, stamp);
    if x == d {
    } else if n != Main && Passes(a, w, x) {
      PassesAreKnown(a, w, entries, x, known);
      PassesKeepLead(a, w, entries, x);
    } else {
      var gone :| OnlyTemps(gone) && x == Restored(d, n, stamp, w) - gone;
      if n != Main {
        PassesAreKnown(a, w, entries, Renamed(a, w), known);
        RenamedLeads(a, w, entries);
      }
      SweptIsKnown(Restored(d, n, stamp, w), gone, known);
      SweptTempsKeepLead(Restored(d, n, stamp, w), gone);
    }
  }

  /** A start that ran to its end leaves one store to load, the one it came up with. */
  lemma {:induction false} FinishedStartIsOk(d: Dir, hidden: set<Name>, n: Name, stamp: int, w: Save, entries: StoreEntries)
    requires MainLeads(d) && SavesPick(d, hidden, n, w, entries)
    ensures AllKnown(Started(d, n, stamp, w), iset{StoreOf(entries)}) && MainLeads(Started(d, n, stamp, w))
  {
    assert OnlyTemps(TempsOf(d));
    if n == Main {
      TemplessIsKnown(d);
      SweptTempsKeepLead(d, TempsOf(d));
    } else {
      var a := SetAside(d, stamp);
      RenamedIsKnown(a, w, entries);
      RenamedLeads(a, w, entries);
      SweptIsKnown(Renamed(a, w), TempsOf(d), iset{StoreOf(entries)});
      SweptTempsKeepLead(Renamed(a, w), TempsOf(d));
    }
  }

  lemma {:induction false} EmptiedIsOk(h: Host, hidden: set<Name>, stamp: int)
    requires HostOk(h) && FindsNone(h.dir, hidden)
    ensures HostOk(Host(Emptied(h.dir, stamp), if Main in h.dir then h.known else iset{map[]}, true))
  {
    AsideIsKnown(h.dir, stamp, h.known);
    AsideKeepsLead(h.dir, stamp);
    assert OnlyTemps(TempsOf(h.dir));
    SweptTempsKeepLead(h.dir, TempsOf(h.dir));
    TemplessIsKnown(h.dir);
  }

  lemma {:induction false} FindingCutIsOk(h: Host, e: Event, next: Host)
    requires HostOk(h) && e.FindingCut? && Happens(h, e, next)
    ensures HostOk(next)
  {
    AsideIsKnown(h.dir, e.stamp, h.known);
    AsideKeepsLead(h.dir, e.stamp);
    if next.dir != SetAside(h.dir, e.stamp) {
      var gone :| OnlyTemps(gone) && next.dir == h.dir - gone;
      SweptIsKnown(h.dir, gone, h.known);
      SweptTempsKeepLead(h.dir, gone);
    }
  }

  lemma {:induction false} RefusedIsOk(d: Dir, w: Save, renameFailed: bool, known: iset<Store>)
    requires AllKnown(d, known) && MainLeads(d) && Temp(w.pid) !in d
    ensures AllKnown(Refused(d, w, renameFailed), known) && MainLeads(Refused(d, w, renameFailed))
  {
    RollbackIsKnown(d, w, known);
    RollbackKeepsLead(d, w);
  }

  /** Whatever happens, the next start comes up with one of the known stores. */
  lemma {:induction false} HappensKeeps(h: Host, e: Event, next: Host)
    requires HostOk(h) && Happens(h, e, next)
    ensures HostOk(next)
  {
    match e
    case Saved(_, _) => SavedIsOk(h, e, next);
    case SaveCut(w, entries, left) =>
      PassesAreKnown(h.dir, w, entries, left, h.known);
      PassesKeepLead(h.dir, w, entries, left);
    case SaveRefused(w, _, renameFailed) => RefusedIsOk(h.dir, w, renameFailed, h.known);
    case Stopped =>
    case Recovered(hidden, n, stamp, w, entries) => FinishedStartIsOk(h.dir, hidden, n, stamp, w, entries);
    case RecoveryRefused(_, _, stamp, w, _, renameFailed) =>
      AsideIsKnown(h.dir, stamp, h.known);
      AsideKeepsLead(h.dir, stamp);
      RefusedIsOk(SetAside(h.dir, stamp), w, renameFailed, h.known);
    case RecoveryCut(hidden, n, stamp, w, entries, left) => StartIsOk(h.dir, hidden, n, stamp, w, entries, left, h.known);
    case FoundNothing(hidden, stamp) => EmptiedIsOk(h, hidden, stamp);
    case FindingCut(_, _, _) => FindingCutIsOk(h, e, next);
    case LeftAlone =>
  }

  ghost predicate Run(hosts: seq<Host>, events: seq<Event>) {
    && |hosts| == |events| + 1
    && forall i :: 0 <= i < |events| ==> Happens(hosts[i], events[i], hosts[i + 1])
  }

  /** Nothing older and no mix, over every run: a start always comes up with a known store. */
  lemma {:induction false} RunOnlyLoadsKnown(hosts: seq<Host>, events: seq<Event>, i: nat, k: nat)
    requires Run(hosts, events) && i <= k < |hosts| && HostOk(hosts[i])
    ensures HostOk(hosts[k])
  {
    if i < k {
      RunOnlyLoadsKnown(hosts, events, i, k - 1);
      assert Happens(hosts[k - 1], events[k - 1], hosts[k]);
      HappensKeeps(hosts[k - 1], events[k - 1], hosts[k]);
    }
  }

  /**
   * From an empty folder on, with no exception, whatever fallbacks cannot be read: a start comes up with the
   * store of the last accepted save or the one in flight.
   */
  lemma {:induction false} FreshRunLoadsKnown(hosts: seq<Host>, events: seq<Event>, k: nat)
    requires Run(hosts, events) && k < |hosts| && hosts[0] == Host(map[], iset{map[]}, false)
    ensures AllKnown(hosts[k].dir, hosts[k].known)
  {
    forall n ensures !Candidate(hosts[0].dir, n) {}
    RunOnlyLoadsKnown(hosts, events, 0, k);
  }

  lemma {:induction false} SavedIsOk(h: Host, e: Event, next: Host)
    requires e.Saved? && Happens(h, e, next)
    ensures HostOk(next) && next.known == iset{StoreOf(e.entries)}
  {
    RenamedIsKnown(h.dir, e.w, e.entries);
    RenamedLeads(h.dir, e.w, e.entries);
  }

  /** A finished start changes what is known to what it came up with, which was known. */
  lemma {:induction false} OneKnownStays(h: Host, e: Event, next: Host, store: Store)
    requires HostOk(h) && h.known == iset{store} && Happens(h, e, next) && !e.Saved? && !e.SaveCut?
    ensures next.known == iset{store}
  {
    match e
    case Recovered(hidden, n, _, _, entries) => PickMatters(h.dir, hidden, Some(n), StoreOf(entries));
    case FoundNothing(hidden, _) => PickMatters(h.dir, hidden, None, map[]);
    case _ =>
  }

  /**
   * Once a save was accepted, on whatever folder, that store is what every later start comes up with until another save
   * is tried, through any number of refusals, stops, interrupted starts and fallbacks that cannot be read.
   */
  lemma {:induction false} LastSavedComesBack(hosts: seq<Host>, events: seq<Event>, i: nat, j: nat)
    requires Run(hosts, events) && i < j < |hosts| && events[i].Saved?
    requires forall k :: i < k < j ==> !events[k].Saved? && !events[k].SaveCut?
    ensures HostOk(hosts[j]) && hosts[j].known == iset{StoreOf(events[i].entries)}
    ensures AllKnown(hosts[j].dir, iset{StoreOf(events[i].entries)})
  {
    assert Happens(hosts[j - 1], events[j - 1], hosts[j]);
    if j == i + 1 {
      SavedIsOk(hosts[i], events[i], hosts[j]);
    } else {
      LastSavedComesBack(hosts, events, i, j - 1);
      HappensKeeps(hosts[j - 1], events[j - 1], hosts[j]);
      OneKnownStays(hosts[j - 1], events[j - 1], hosts[j], StoreOf(events[i].entries));
    }
  }
}
