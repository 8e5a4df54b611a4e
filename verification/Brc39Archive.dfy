/**
 * The write-once archive of wallet snapshots (electron/brc39Archive.ts, and
 * writeFileExclusive in electron/atomicFile.ts): one identity's folder, every
 * state it passes through, and what a crash may leave for the sweep.
 */
module ArchiveModel {
  type Bytes = seq<bv8>

  datatype Name =
    | Snapshot(at: nat, digest: string)               // <at>-<digest>.brc39
    | Temp(at: nat, digest: string, pid: nat)         // the same, .<pid>.tmp
    | StrayTemp(target: string, pid: nat)             // a temp file of nothing the archive names
    | Foreign(name: string)

  type Dir = map<Name, Bytes>

  /** SHA-256 in hex. */
  type Hash = Bytes -> string

  const MAX_SNAPSHOTS := 40
  const MIN_BYTES := 64

  function Digest(sha: Hash, bytes: Bytes): string {
    var hex := sha(bytes);
    if |hex| > 12 then hex[..12] else hex
  }

  predicate IsTemp(n: Name) {
    n.Temp? || n.StrayTemp?
  }

  /** When a snapshot was exported. */
  function TimeOf(n: Name): nat {
    if n.Snapshot? then n.at else 0
  }

  function SnapshotsIn(d: Dir): set<Name> {
    set n | n in d && n.Snapshot?
  }

  /** Every snapshot holds bytes that match the hash in its name. */
  ghost predicate Sane(d: Dir, sha: Hash) {
    forall n :: n in d && n.Snapshot? ==> Digest(sha, d[n]) == n.digest
  }

  /** No snapshot of `d` has changed or gone. */
  ghost predicate Keeps(d: Dir, x: Dir) {
    forall n :: n in d && n.Snapshot? ==> n in x && x[n] == d[n]
  }

  /** A complete copy of the bytes stands under the snapshot's name or under one of its temp names. */
  ghost predicate Holds(d: Dir, target: Name, bytes: Bytes) {
    target.Snapshot? && (
      (target in d && d[target] == bytes)
      || exists pid {:trigger Temp(target.at, target.digest, pid)} ::
           Temp(target.at, target.digest, pid) in d && d[Temp(target.at, target.digest, pid)] == bytes)
  }

  /** Such a copy, whose bytes match the hash in the name. */
  ghost predicate Complete(d: Dir, target: Name, bytes: Bytes, sha: Hash) {
    Holds(d, target, bytes) && Digest(sha, bytes) == target.digest
  }

  /** No two complete copies of one snapshot differ: nothing on hand shares its twelve digits with other bytes under the same name. */
  ghost predicate OneCopy(d: Dir, sha: Hash) {
    forall target, b, c {:trigger Complete(d, target, b, sha), Complete(d, target, c, sha)} ::
      Complete(d, target, b, sha) && Complete(d, target, c, sha) ==> b == c
  }

  // ----- exclusive creation -----

  function TempOf(target: Name, pid: nat): Name
    requires target.Snapshot?
  {
    Temp(target.at, target.digest, pid)
  }

  /** The temp file holds a first part of the bytes, or all of them. */
  ghost predicate Writing(d: Dir, temp: Name, bytes: Bytes, x: Dir) {
    temp in x && x[temp] <= bytes && x == d[temp := x[temp]]
  }

  /** Every state creating `target` passes through. */
  ghost predicate CreatePasses(d: Dir, target: Name, pid: nat, bytes: Bytes, x: Dir)
    requires target.Snapshot?
  {
    || x == d
    || Writing(d, TempOf(target, pid), bytes, x)
    || (target !in d && x == d[TempOf(target, pid) := bytes][target := bytes])
    || (target !in d && x == d[target := bytes])
  }

  /** Wherever creating is cut short, the snapshot is complete or absent, and no other has changed. */
  lemma {:induction false} CutCreateIsSafe(d: Dir, target: Name, pid: nat, bytes: Bytes, x: Dir, sha: Hash)
    requires target.Snapshot? && Digest(sha, bytes) == target.digest && TempOf(target, pid) !in d
    requires Sane(d, sha) && CreatePasses(d, target, pid, bytes, x)
    ensures Sane(x, sha) && Keeps(d, x)
    ensures target in x && target !in d ==> x[target] == bytes
    ensures forall n, b :: Holds(d, n, b) ==> Holds(x, n, b)
  {
    forall n, b | Holds(d, n, b) ensures Holds(x, n, b) {
      if !(n in d && d[n] == b) {
        var p :| Temp(n.at, n.digest, p) in d && d[Temp(n.at, n.digest, p)] == b;
        assert Temp(n.at, n.digest, p) in x && x[Temp(n.at, n.digest, p)] == b;
      }
    }
  }

  // ----- the sweep -----

  /** Whether a temp file is a snapshot that was complete and never linked in. */
  predicate Adoptable(d: Dir, temp: Name, sha: Hash)
    requires temp in d
  {
    temp.Temp? && Snapshot(temp.at, temp.digest) !in d && Digest(sha, d[temp]) == temp.digest
  }

  function Adopted(d: Dir, temp: Name, sha: Hash): Dir {
    if temp in d && Adoptable(d, temp, sha) then d[Snapshot(temp.at, temp.digest) := d[temp]] else d
  }

  /** One temp file swept: linked in if it should be, then removed. */
  function SweptOne(d: Dir, temp: Name, sha: Hash): Dir {
    Adopted(d, temp, sha) - {temp}
  }

  /** What may go wrong with one temp file: it cannot be read, linked in, or removed. */
  datatype Mishap = Fine | Unread | NoLink | Stuck

  type Mishaps = Name -> Mishap

  ghost predicate AllFine(temps: seq<Name>, bad: Mishaps) {
    forall t :: t in temps ==> bad(t).Fine?
  }

  /** A temp file left for another sweep: its snapshot is missing, and it could not be read or linked in. */
  predicate Skipped(d: Dir, temp: Name, mishap: Mishap, sha: Hash) {
    temp in d && temp.Temp? && Snapshot(temp.at, temp.digest) !in d && (mishap.Unread? || (mishap.NoLink? && Adoptable(d, temp, sha)))
  }

  /** The same, whatever goes wrong. */
  function SweptBut(d: Dir, temp: Name, mishap: Mishap, sha: Hash): Dir {
    if Skipped(d, temp, mishap, sha) then d
    else if mishap.Stuck? then Adopted(d, temp, sha)
    else SweptOne(d, temp, sha)
  }

  function Swept(d: Dir, temps: seq<Name>, bad: Mishaps, sha: Hash): Dir {
    if temps == [] then d else
      var front, temp := temps[..|temps| - 1], temps[|temps| - 1];
      SweptBut(Swept(d, front, bad, sha), temp, bad(temp), sha)
  }

  /** How many temp files a sweep reports removed: those it could not remove count too. */
  function ReportedRemoved(d: Dir, temps: seq<Name>, bad: Mishaps, sha: Hash): nat {
    if temps == [] then 0 else
      var front, temp := temps[..|temps| - 1], temps[|temps| - 1];
      ReportedRemoved(d, front, bad, sha) + if Skipped(Swept(d, front, bad, sha), temp, bad(temp), sha) then 0 else 1
  }

  /** Every state a sweep passes through. */
  ghost predicate SweepPasses(d: Dir, temps: seq<Name>, bad: Mishaps, x: Dir, sha: Hash) {
    exists n {:trigger temps[..n]} :: 0 <= n <= |temps| &&
      (x == Swept(d, temps[..n], bad, sha) || (n < |temps| && x == Adopted(Swept(d, temps[..n], bad, sha), temps[n], sha)))
  }

  /** What every sweep keeps, finished or cut short: the hashes true, the snapshots as they were, and no copy that was not there. */
  ghost predicate Faithful(d: Dir, x: Dir, sha: Hash) {
    && Sane(x, sha) && Keeps(d, x)
    && forall target, bytes {:trigger Complete(x, target, bytes, sha)} :: Complete(x, target, bytes, sha) ==> Complete(d, target, bytes, sha)
  }

  /** And every complete copy still there. */
  ghost predicate Safe(d: Dir, x: Dir, sha: Hash) {
    && Faithful(d, x, sha)
    && forall target, bytes {:trigger Complete(d, target, bytes, sha)} :: Complete(d, target, bytes, sha) ==> Complete(x, target, bytes, sha)
  }

  lemma {:induction false} FaithfulChain(a: Dir, b: Dir, c: Dir, sha: Hash)
    requires Faithful(a, b, sha) && Faithful(b, c, sha)
    ensures Faithful(a, c, sha)
  {
  }

  lemma {:induction false} StillOneCopy(d: Dir, x: Dir, sha: Hash)
    requires OneCopy(d, sha) && Faithful(d, x, sha)
    ensures OneCopy(x, sha)
  {
  }

  lemma {:induction false} AdoptKeepsCopies(d: Dir, temp: Name, sha: Hash, target: Name, bytes: Bytes)
    requires Holds(d, target, bytes)
    ensures Holds(Adopted(d, temp, sha), target, bytes)
  {
    if !(target in d && d[target] == bytes) {
      var p :| Temp(target.at, target.digest, p) in d && d[Temp(target.at, target.digest, p)] == bytes;
      assert Temp(target.at, target.digest, p) in Adopted(d, temp, sha);
    }
  }

  lemma {:induction false} AdoptIsSafe(d: Dir, temp: Name, sha: Hash)
    requires Sane(d, sha)
    ensures Safe(d, Adopted(d, temp, sha), sha)
  {
    var x := Adopted(d, temp, sha);
    forall target, bytes | Complete(d, target, bytes, sha) ensures Complete(x, target, bytes, sha) {
      AdoptKeepsCopies(d, temp, sha, target, bytes);
    }
    forall target, bytes | Complete(x, target, bytes, sha) ensures Complete(d, target, bytes, sha) {
      AdoptAddsNoCopy(d, temp, sha, target, bytes);
    }
  }

  lemma {:induction false} AdoptAddsNoCopy(d: Dir, temp: Name, sha: Hash, target: Name, bytes: Bytes)
    requires Holds(Adopted(d, temp, sha), target, bytes)
    ensures Holds(d, target, bytes)
  {
    var x := Adopted(d, temp, sha);
    if target in x && x[target] == bytes {
      if target !in d || d[target] != bytes { assert temp == Temp(target.at, target.digest, temp.pid); }
    } else {
      var p :| Temp(target.at, target.digest, p) in x && x[Temp(target.at, target.digest, p)] == bytes;
      assert Temp(target.at, target.digest, p) in d;
    }
  }

  /** One temp file swept leaves the hashes true and every snapshot as it was, whatever the hash function. */
  lemma {:induction false} SweepOneIsFaithful(d: Dir, temp: Name, sha: Hash)
    requires Sane(d, sha) && IsTemp(temp)
    ensures Faithful(d, SweptOne(d, temp, sha), sha)
  {
    var a, x := Adopted(d, temp, sha), SweptOne(d, temp, sha);
    AdoptIsSafe(d, temp, sha);
    forall target, bytes | Complete(x, target, bytes, sha) ensures Complete(d, target, bytes, sha) {
      FewerHoldLess(a, temp, target, bytes);
      assert Complete(a, target, bytes, sha);
    }
  }

  lemma {:induction false} FewerHoldLess(a: Dir, temp: Name, target: Name, bytes: Bytes)
    requires Holds(a - {temp}, target, bytes)
    ensures Holds(a, target, bytes)
  {
    var x := a - {temp};
    if !(target in x && x[target] == bytes) {
      var p :| Temp(target.at, target.digest, p) in x && x[Temp(target.at, target.digest, p)] == bytes;
      assert Temp(target.at, target.digest, p) in a;
    }
  }

  /**
   * A complete temp file is lost in its own sweeping if and only if its snapshot's name
   * already holds other bytes, which then share the digits of its hash.
   */
  lemma {:induction false} TempLostExactlyWhen(d: Dir, temp: Name, sha: Hash)
    requires Sane(d, sha) && temp.Temp? && temp in d && Digest(sha, d[temp]) == temp.digest
    ensures var target, x := Snapshot(temp.at, temp.digest), SweptOne(d, temp, sha);
            && (!(target in x && x[target] == d[temp]) <==> target in d && d[target] != d[temp])
            && (target in d ==> Digest(sha, d[target]) == Digest(sha, d[temp]))
  {
  }

  lemma {:induction false} SweepOneIsSafe(d: Dir, temp: Name, sha: Hash)
    requires Sane(d, sha) && OneCopy(d, sha) && IsTemp(temp)
    ensures Safe(d, SweptOne(d, temp, sha), sha)
  {
    SweepOneIsFaithful(d, temp, sha);
    forall target, bytes | Complete(d, target, bytes, sha) ensures Complete(SweptOne(d, temp, sha), target, bytes, sha) {
      SweptCopyStays(d, temp, sha, target, bytes);
    }
  }

  lemma {:induction false} SweptCopyStays(d: Dir, temp: Name, sha: Hash, target: Name, bytes: Bytes)
    requires Sane(d, sha) && OneCopy(d, sha) && IsTemp(temp) && Complete(d, target, bytes, sha)
    ensures Complete(SweptOne(d, temp, sha), target, bytes, sha)
  {
    var x := SweptOne(d, temp, sha);
    if target in d {
      assert Complete(d, target, d[target], sha);
      assert x[target] == bytes;
    } else {
      var p :| Temp(target.at, target.digest, p) in d && d[Temp(target.at, target.digest, p)] == bytes;
      if Temp(target.at, target.digest, p) == temp {
        assert target in x && x[target] == bytes;
      } else {
        assert Temp(target.at, target.digest, p) in x;
      }
    }
  }

  lemma {:induction false} SweepButIsFaithful(d: Dir, temp: Name, mishap: Mishap, sha: Hash)
    requires Sane(d, sha) && IsTemp(temp)
    ensures Faithful(d, SweptBut(d, temp, mishap, sha), sha)
  {
    SweepOneIsFaithful(d, temp, sha);
    AdoptIsSafe(d, temp, sha);
  }

  lemma {:induction false} SweepButIsSafe(d: Dir, temp: Name, mishap: Mishap, sha: Hash)
    requires Sane(d, sha) && OneCopy(d, sha) && IsTemp(temp)
    ensures Safe(d, SweptBut(d, temp, mishap, sha), sha)
  {
    SweepOneIsSafe(d, temp, sha);
    AdoptIsSafe(d, temp, sha);
  }

  lemma {:induction false} SweptIsFaithful(d: Dir, temps: seq<Name>, bad: Mishaps, sha: Hash)
    requires Sane(d, sha) && forall t :: t in temps ==> IsTemp(t)
    ensures Faithful(d, Swept(d, temps, bad, sha), sha)
  {
    if temps != [] {
      var front := temps[..|temps| - 1];
      SweptIsFaithful(d, front, bad, sha);
      SweepButIsFaithful(Swept(d, front, bad, sha), temps[|temps| - 1], bad(temps[|temps| - 1]), sha);
      FaithfulChain(d, Swept(d, front, bad, sha), Swept(d, temps, bad, sha), sha);
    }
  }

  lemma {:induction false} SweptIsSafe(d: Dir, temps: seq<Name>, bad: Mishaps, sha: Hash)
    requires Sane(d, sha) && OneCopy(d, sha) && forall t :: t in temps ==> IsTemp(t)
    ensures Safe(d, Swept(d, temps, bad, sha), sha)
  {
    if temps != [] {
      var front := temps[..|temps| - 1];
      SweptIsSafe(d, front, bad, sha);
      StillOneCopy(d, Swept(d, front, bad, sha), sha);
      SweepButIsSafe(Swept(d, front, bad, sha), temps[|temps| - 1], bad(temps[|temps| - 1]), sha);
    }
  }

  /** Write-once under crashes and faults: cut short anywhere, with whatever going wrong, a sweep has touched no snapshot, and, no two copies differing, lost no complete one. */
  lemma {:induction false} CutSweepIsSafe(d: Dir, temps: seq<Name>, bad: Mishaps, x: Dir, sha: Hash)
    requires Sane(d, sha) && (forall t :: t in temps ==> IsTemp(t)) && SweepPasses(d, temps, bad, x, sha)
    ensures Faithful(d, x, sha)
    ensures OneCopy(d, sha) ==> Safe(d, x, sha)
  {
    var n :| 0 <= n <= |temps| &&
      (x == Swept(d, temps[..n], bad, sha) || (n < |temps| && x == Adopted(Swept(d, temps[..n], bad, sha), temps[n], sha)));
    var y := Swept(d, temps[..n], bad, sha);
    SweptIsFaithful(d, temps[..n], bad, sha);
    if OneCopy(d, sha) { SweptIsSafe(d, temps[..n], bad, sha); }
    if x != y {
      AdoptIsSafe(y, temps[n], sha);
      FaithfulChain(d, y, x, sha);
    }
  }

  lemma {:induction false} SweptHasNone(d: Dir, temps: seq<Name>, bad: Mishaps, sha: Hash, t: Name)
    requires AllFine(temps, bad) && forall t :: t in temps ==> IsTemp(t)
    ensures t in Swept(d, temps, bad, sha) && IsTemp(t) ==> t in d && t !in temps
  {
    if temps != [] { SweptHasNone(d, temps[..|temps| - 1], bad, sha, t); }
  }

  lemma {:induction false} SweptOfTemps(d: Dir, temps: seq<Name>, bad: Mishaps, sha: Hash)
    requires AllFine(temps, bad) && (forall t :: t in temps ==> IsTemp(t)) && forall t :: t in d && IsTemp(t) ==> t in temps
    ensures forall t :: t in Swept(d, temps, bad, sha) ==> !IsTemp(t)
  {
    forall t | t in Swept(d, temps, bad, sha) ensures !IsTemp(t) { SweptHasNone(d, temps, bad, sha, t); }
  }

  /** A sweep that ran to its end with nothing going wrong leaves no temp file, and every complete copy under its snapshot's own name. */
  lemma {:induction false} SweepFinishes(d: Dir, temps: seq<Name>, bad: Mishaps, sha: Hash, target: Name, bytes: Bytes)
    requires AllFine(temps, bad) && Sane(d, sha) && OneCopy(d, sha) && (forall t :: t in temps ==> IsTemp(t))
    requires forall t :: t in d && IsTemp(t) ==> t in temps
    requires Complete(d, target, bytes, sha)
    ensures var x := Swept(d, temps, bad, sha); target in x && x[target] == bytes && forall t :: t in x ==> !IsTemp(t)
  {
    SweptOfTemps(d, temps, bad, sha);
    SweptIsSafe(d, temps, bad, sha);
    assert Complete(Swept(d, temps, bad, sha), target, bytes, sha);
  }

  /** Such a sweep keeps every complete copy if and only if no two complete copies of one snapshot differ. */
  lemma {:induction false} SweepKeepsAllExactlyWhen(d: Dir, temps: seq<Name>, bad: Mishaps, sha: Hash)
    requires AllFine(temps, bad) && Sane(d, sha) && (forall t :: t in temps ==> IsTemp(t)) && forall t :: t in d && IsTemp(t) ==> t in temps
    ensures (forall target, bytes :: Complete(d, target, bytes, sha) ==> Complete(Swept(d, temps, bad, sha), target, bytes, sha)) <==> OneCopy(d, sha)
  {
    var x := Swept(d, temps, bad, sha);
    SweptOfTemps(d, temps, bad, sha);
    if OneCopy(d, sha) {
      SweptIsSafe(d, temps, bad, sha);
    } else {
      var target, b, c :| Complete(d, target, b, sha) && Complete(d, target, c, sha) && b != c;
      assert !(Complete(x, target, b, sha) && Complete(x, target, c, sha));
    }
  }

  /**
   * The interrupted snapshot is complete or absent: what a cut write and a sweep leave under its name is its bytes, and a
   * complete copy stays one, in its place if nothing goes wrong, unless what the cut left, or another copy on hand, shares
   * the digits of its hash.
   */
  lemma {:induction false} CutWriteThenSweep(d: Dir, target: Name, pid: nat, bytes: Bytes, x: Dir, temps: seq<Name>, bad: Mishaps, sha: Hash)
    requires target.Snapshot? && target !in d && Digest(sha, bytes) == target.digest && TempOf(target, pid) !in d
    requires Sane(d, sha) && CreatePasses(d, target, pid, bytes, x)
    requires (forall t :: t in temps ==> IsTemp(t)) && forall t :: t in x && IsTemp(t) ==> t in temps
    ensures var y := Swept(x, temps, bad, sha);
            && Sane(y, sha) && Keeps(d, y)
            && ((forall b :: Complete(x, target, b, sha) ==> b == bytes) ==>
                  (target in y ==> y[target] == bytes)
                  && (Holds(x, target, bytes) ==> Holds(y, target, bytes) && (AllFine(temps, bad) ==> target in y)))
            && (OneCopy(x, sha) ==> Safe(x, y, sha))
  {
    CutCreateIsSafe(d, target, pid, bytes, x, sha);
    SweptIsFaithful(x, temps, bad, sha);
    var y := Swept(x, temps, bad, sha);
    if OneCopy(x, sha) { SweptIsSafe(x, temps, bad, sha); }
    if target in y { assert Complete(y, target, y[target], sha); }
    if (forall b :: Complete(x, target, b, sha) ==> b == bytes) && Holds(x, target, bytes) {
      OwnCopyStays(x, temps, bad, sha, target, bytes);
      if AllFine(temps, bad) { SweptOfTemps(x, temps, bad, sha); }
    }
  }

  /** One snapshot's complete copy survives a sweep if no other copy of that snapshot differs, whatever the others do. */
  lemma {:induction false} OwnCopyStays(d: Dir, temps: seq<Name>, bad: Mishaps, sha: Hash, target: Name, bytes: Bytes)
    requires Sane(d, sha) && (forall t :: t in temps ==> IsTemp(t)) && Complete(d, target, bytes, sha)
    requires forall b :: Complete(d, target, b, sha) ==> b == bytes
    ensures Complete(Swept(d, temps, bad, sha), target, bytes, sha)
  {
    if temps != [] {
      var front, temp := temps[..|temps| - 1], temps[|temps| - 1];
      OwnCopyStays(d, front, bad, sha, target, bytes);
      SweptIsFaithful(d, front, bad, sha);
      OwnCopyStaysBut(Swept(d, front, bad, sha), temp, bad(temp), sha, target, bytes);
    }
  }

  lemma {:induction false} OwnCopyStaysBut(d: Dir, temp: Name, mishap: Mishap, sha: Hash, target: Name, bytes: Bytes)
    requires Sane(d, sha) && IsTemp(temp) && Complete(d, target, bytes, sha)
    requires forall b :: Complete(d, target, b, sha) ==> b == bytes
    ensures Complete(SweptBut(d, temp, mishap, sha), target, bytes, sha)
  {
    OwnCopyStaysOne(d, temp, sha, target, bytes);
    AdoptKeepsCopies(d, temp, sha, target, bytes);
  }

  lemma {:induction false} OwnCopyStaysOne(d: Dir, temp: Name, sha: Hash, target: Name, bytes: Bytes)
    requires Sane(d, sha) && IsTemp(temp) && Complete(d, target, bytes, sha)
    requires forall b :: Complete(d, target, b, sha) ==> b == bytes
    ensures Complete(SweptOne(d, temp, sha), target, bytes, sha)
  {
    var x := SweptOne(d, temp, sha);
    if target in d {
      assert Complete(d, target, d[target], sha);
      assert x[target] == bytes;
    } else {
      var p :| Temp(target.at, target.digest, p) in d && d[Temp(target.at, target.digest, p)] == bytes;
      if Temp(target.at, target.digest, p) != temp { assert Temp(target.at, target.digest, p) in x; }
    }
  }

  /** A folder a cut write may leave, beside a snapshot written before, in which all of this is asked and met. */
  lemma {:induction false} CutWriteExample(sha: Hash, earlier: Bytes, bytes: Bytes)
    requires Digest(sha, earlier) != Digest(sha, bytes)
    ensures var d: Dir := map[Snapshot(1, Digest(sha, earlier)) := earlier];
            var target := Snapshot(2, Digest(sha, bytes));
            var x := d[TempOf(target, 7) := bytes];
            && Sane(d, sha) && CreatePasses(d, target, 7, bytes, x) && OneCopy(x, sha) && Complete(x, target, bytes, sha)
            && Swept(x, [TempOf(target, 7)], _ => Fine, sha) == d[target := bytes]
  {
    var d: Dir := map[Snapshot(1, Digest(sha, earlier)) := earlier];
    var target := Snapshot(2, Digest(sha, bytes));
    var temp := TempOf(target, 7);
    var x := d[temp := bytes];
    assert Writing(d, temp, bytes, x);
    assert [temp][..0] == [];
    assert Swept(x, [temp], _ => Fine, sha) == SweptOne(Swept(x, [], _ => Fine, sha), temp, sha);
    assert SweptOne(x, temp, sha) == d[target := bytes];
    assert forall t, b :: Complete(x, t, b, sha) ==> t == target || t == Snapshot(1, Digest(sha, earlier));
  }

  // ----- pruning -----

  /** Only the oldest snapshots beyond the forty newest are gone; the rest is as it was. */
  ghost predicate PrunedTo(d: Dir, x: Dir) {
    && x.Keys <= d.Keys && (forall n :: n in x ==> x[n] == d[n])
    && (forall n :: n in d && !n.Snapshot? ==> n in x)
    && |SnapshotsIn(x)| == (if |SnapshotsIn(d)| < MAX_SNAPSHOTS then |SnapshotsIn(d)| else MAX_SNAPSHOTS)
    && (forall gone, kept :: gone in d && gone !in x && kept in x && kept.Snapshot? ==> TimeOf(gone) <= TimeOf(kept))
  }

  /** What pruning leaves where some snapshots cannot be unlinked. */
  function WithStuck(d: Dir, pruned: Dir, stuck: set<Name>): Dir {
    map n | n in d && (n in pruned || n in stuck) :: d[n]
  }

  /** The other snapshots at least as new. */
  function AsNew(d: Dir, n: Name): set<Name> {
    set o | o in d && o.Snapshot? && o != n && TimeOf(o) >= TimeOf(n)
  }

  function Newer(d: Dir, n: Name): set<Name> {
    set o | o in d && o.Snapshot? && TimeOf(o) > TimeOf(n)
  }

  lemma {:induction false} NoMore(a: set<Name>, b: set<Name>)
    requires a <= b
    ensures |a| <= |b|
  {
    assert b == a + (b - a);
  }

  /** With fewer than forty others as new, a snapshot survives pruning. */
  lemma {:induction false} NewEnoughStays(d: Dir, x: Dir, n: Name)
    requires PrunedTo(d, x) && n in d && n.Snapshot? && |AsNew(d, n)| < MAX_SNAPSHOTS
    ensures n in x
  {
    assert SnapshotsIn(x) <= SnapshotsIn(d) && n in SnapshotsIn(d);
    if n !in x {
      NoMore(SnapshotsIn(x), AsNew(d, n));
      NoMore(SnapshotsIn(x), SnapshotsIn(d) - {n});
    }
  }

  /** With forty strictly newer, it does not. */
  lemma {:induction false} OldEnoughGoes(d: Dir, x: Dir, n: Name)
    requires PrunedTo(d, x) && n in d && n.Snapshot? && |Newer(d, n)| >= MAX_SNAPSHOTS
    ensures n !in x
  {
    assert n !in Newer(d, n);
    if n in x { NoMore(Newer(d, n) + {n}, SnapshotsIn(x)); }
  }

  /** The first `k` of a row of snapshots exported at 2, 3, 4 and so on. */
  function Row(k: nat): Dir {
    if k == 0 then map[] else Row(k - 1)[Snapshot(k + 1, "") := []]
  }

  lemma {:induction false} RowIs(k: nat)
    ensures |SnapshotsIn(Row(k))| == k
    ensures forall n :: n in Row(k) <==> exists i {:trigger Snapshot(i, "")} :: 2 <= i <= k + 1 && n == Snapshot(i, "")
  {
    if k > 0 {
      RowIs(k - 1);
      assert SnapshotsIn(Row(k)) == SnapshotsIn(Row(k - 1)) + {Snapshot(k + 1, "")};
    }
  }

  /** A folder in which a snapshot just written is the one pruned, and the folder is what it was. */
  lemma {:induction false} WrittenAndPruned(digest: string, bytes: Bytes)
    ensures var d, n := Row(MAX_SNAPSHOTS), Snapshot(1, digest);
            n !in d && PrunedTo(d[n := bytes], d) && |Newer(d[n := bytes], n)| >= MAX_SNAPSHOTS
  {
    var d, n := Row(MAX_SNAPSHOTS), Snapshot(1, digest);
    RowIs(MAX_SNAPSHOTS);
    assert SnapshotsIn(d[n := bytes]) == SnapshotsIn(d) + {n};
    assert Newer(d[n := bytes], n) == SnapshotsIn(d);
  }

  // ----- the states between a snapshot's creation and the end of its pruning -----

  /** Some of what pruning removes is gone already. */
  ghost predicate Between(d: Dir, x: Dir, pruned: Dir) {
    pruned.Keys <= x.Keys <= d.Keys && (forall n :: n in x ==> x[n] == d[n])
  }

  /** Every state writing a snapshot and pruning passes through. */
  ghost predicate WritePasses(d: Dir, target: Name, pid: nat, bytes: Bytes, pruned: Dir, x: Dir)
    requires target.Snapshot?
  {
    CreatePasses(d, target, pid, bytes, x) || (target !in d && PrunedTo(d[target := bytes], pruned) && Between(d[target := bytes], x, pruned))
  }

  /**
   * Cut short at any step, a snapshot write leaves every hash true, the new snapshot complete or absent, no snapshot
   * rewritten, and none gone but what pruning was removing, each no newer than all that stay.
   */
  lemma {:induction false} CutWriteIsSafe(d: Dir, target: Name, pid: nat, bytes: Bytes, pruned: Dir, x: Dir, sha: Hash)
    requires target.Snapshot? && Digest(sha, bytes) == target.digest && TempOf(target, pid) !in d
    requires Sane(d, sha) && WritePasses(d, target, pid, bytes, pruned, x)
    ensures Sane(x, sha) && (target in x && target !in d ==> x[target] == bytes)
    ensures forall n :: n in d && n.Snapshot? ==>
              (n in x && x[n] == d[n])
              || (n !in pruned && forall kept :: kept in pruned && kept.Snapshot? ==> TimeOf(n) <= TimeOf(kept))
  {
    if CreatePasses(d, target, pid, bytes, x) { CutCreateIsSafe(d, target, pid, bytes, x, sha); }
  }
}

module Archives {
  import opened Prelude
  import opened ArchiveModel

  datatype Fault = NoFault | WriteFails(cut: nat) | LinkFails

  datatype Created = Created | Exists | Failed

  /** What a write is up against: faults creating the snapshot, and files that cannot be read or unlinked. */
  datatype Conditions = Conditions(first: Fault, second: Fault, unread: set<Name>, stuck: set<Name>)

  datatype Outcome = Recorded(name: Name, created: bool) | Error

  class Archive {
    const sha: Hash
    const pid: nat
    var dir: Dir
    /** Every state the folder has been in. */
    ghost var seen: iset<Dir>

    constructor (dir: Dir, sha: Hash, pid: nat)
      ensures this.dir == dir && this.sha == sha && this.pid == pid && seen == iset{dir}
    {
      this.dir, this.sha, this.pid := dir, sha, pid;
      seen := iset{dir};
    }

    method Put(name: Name, bytes: Bytes)
      modifies this
      ensures dir == old(dir)[name := bytes] && seen == old(seen) + iset{dir}
    {
      dir := dir[name := bytes];
      seen := seen + iset{dir};
    }

    method Unlink(name: Name)
      modifies this
      ensures dir == old(dir) - {name} && seen == old(seen) + iset{dir}
    {
      dir := dir - {name};
      seen := seen + iset{dir};
    }

    /** Creates a snapshot whole or not at all, and never over another. */
    method WriteFileExclusive(target: Name, bytes: Bytes, fault: Fault) returns (result: Created)
      requires target.Snapshot? && TempOf(target, pid) !in dir
      modifies this
      ensures result == if fault.WriteFails? then Failed else if target in old(dir) then Exists else if fault.LinkFails? then Failed else Created
      ensures dir == if result.Created? then old(dir)[target := bytes] else old(dir)
      ensures forall x: Dir :: x in seen ==> x in old(seen) || CreatePasses(old(dir), target, pid, bytes, x)
    {
      var temp := TempOf(target, pid);
      ghost var before := dir;
      seen := seen + iset x: Dir | Writing(before, temp, bytes, x);
      if fault.WriteFails? {
        var part := if fault.cut < |bytes| then bytes[..fault.cut] else bytes;
        Put(temp, part);
        Unlink(temp);
        assert dir == before;
        return Failed;
      }
      Put(temp, bytes);
      if target in dir {
        result := Exists;
      } else if fault.LinkFails? {
        result := Failed;
      } else {
        Put(target, dir[temp]);
        result := Created;
      }
      Unlink(temp);
      assert result.Created? ==> dir == before[target := bytes];
      assert !result.Created? ==> dir == before;
    }

    /** The snapshots, newest first. */
    method ListArchive() returns (entries: seq<Name>)
      ensures NoDup(entries) && forall n :: n in entries <==> n in SnapshotsIn(dir)
      ensures forall i, j :: 0 <= i < j < |entries| ==> TimeOf(entries[i]) >= TimeOf(entries[j])
    {
      entries := [];
      var todo := SnapshotsIn(dir);
      while todo != {}
        invariant todo <= SnapshotsIn(dir) && NoDup(entries)
        invariant forall n :: n in entries <==> n in SnapshotsIn(dir) && n !in todo
        invariant forall i, j :: 0 <= i < j < |entries| ==> TimeOf(entries[i]) >= TimeOf(entries[j])
        invariant forall i, n :: 0 <= i < |entries| && n in todo ==> TimeOf(entries[i]) >= TimeOf(n)
        decreases todo
      {
        var newest := NewestOf(todo);
        entries := entries + [newest];
        todo := todo - {newest};
      }
    }

    method NewestOf(names: set<Name>) returns (newest: Name)
      requires names != {} && forall n :: n in names ==> n.Snapshot?
      ensures newest in names && forall n :: n in names ==> TimeOf(n) <= TimeOf(newest)
    {
      newest :| newest in names;
      var todo := names - {newest};
      while todo != {}
        invariant todo <= names && newest in names
        invariant forall n :: n in names && n !in todo ==> TimeOf(n) <= TimeOf(newest)
        decreases todo
      {
        var n :| n in todo;
        if TimeOf(n) > TimeOf(newest) { newest := n; }
        todo := todo - {n};
      }
    }

    /** Removes the oldest snapshots only, those that can be unlinked, and never rewrites one that stays. */
    method PruneOldest(stuck: set<Name>) returns (ghost pruned: Dir)
      modifies this
      ensures PrunedTo(old(dir), pruned) && dir == WithStuck(old(dir), pruned, stuck)
      ensures forall x: Dir :: x in seen ==> x in old(seen) || Between(old(dir), x, dir)
    {
      var entries := ListArchive();
      ghost var before := dir;
      if |entries| <= MAX_SNAPSHOTS {
        PrunedByList(before, entries, |entries|);
        pruned := before - (set n | n in entries[|entries|..]);
        assert pruned == before && WithStuck(before, pruned, stuck) == before;
        return;
      }
      var drop := entries[MAX_SNAPSHOTS..];
      for i := 0 to |drop|
        invariant dir == before - (set n | n in drop[..i] && n !in stuck)
        invariant forall x: Dir :: x in seen ==> x in old(seen) || Between(before, x, dir)
      {
        assert drop[..i + 1] == drop[..i] + [drop[i]];
        if drop[i] !in stuck { Unlink(drop[i]); }
      }
      assert drop[..|drop|] == drop;
      PrunedByList(before, entries, MAX_SNAPSHOTS);
      pruned := before - (set n | n in drop);
    }

    /** Whether these bytes are archived already, under whatever name; snapshots that cannot be read are passed over. */
    method FindSame(bytes: Bytes, unread: set<Name>) returns (same: Option<Name>)
      ensures same.Some? ==> same.value in SnapshotsIn(dir) && sha(dir[same.value]) == sha(bytes)
      ensures same.None? <==> !Archived(dir - unread, sha, bytes)
    {
      var entries := ListArchive();
      same := None;
      for i := 0 to |entries|
        invariant forall k :: 0 <= k < i ==> entries[k] in dir && (entries[k] in unread || sha(dir[entries[k]]) != sha(bytes))
      {
        assert entries[i] in SnapshotsIn(dir);
        if entries[i] !in unread && sha(dir[entries[i]]) == sha(bytes) {
          assert entries[i] in SnapshotsIn(dir - unread);
          return Some(entries[i]);
        }
      }
      forall n | n in SnapshotsIn(dir - unread) ensures sha((dir - unread)[n]) != sha(bytes) { assert n in entries; }
    }

    /**
     * Archives the bytes unless they are archived already: a new name is taken, no old one rewritten, and then only the
     * oldest may go. A name taken by other bytes in the same millisecond moves on to the next. `pruned` is the folder as
     * pruning would have it, where every snapshot it removes can be unlinked.
     */
    method WriteSnapshot(bytes: Bytes, at: nat, c: Conditions) returns (o: Outcome, ghost pruned: Dir)
      requires at > 0 && forall n :: n in dir && n.Temp? ==> n.pid != pid
      modifies this
      ensures |bytes| < MIN_BYTES ==> o == Error && dir == old(dir)
      ensures o.Recorded? && !o.created ==>
                dir == old(dir) && o.name in SnapshotsIn(dir) && sha(dir[o.name]) == sha(bytes)
      ensures o.Recorded? && o.created ==>
                && o.name !in old(dir) && (o.name == Snapshot(at, Digest(sha, bytes)) || o.name == Snapshot(at + 1, Digest(sha, bytes)))
                && o.name in dir && PrunedTo(old(dir)[o.name := bytes], pruned) && dir == WithStuck(old(dir)[o.name := bytes], pruned, c.stuck)
      ensures |bytes| >= MIN_BYTES && Archived(old(dir) - c.unread, sha, bytes) ==> o.Recorded? && !o.created
      // undisturbed, it succeeds with fewer than forty others as new, and fails with forty newer unless it cannot be unlinked
      ensures var name, full := NameFor(old(dir), at, Digest(sha, bytes)), old(dir)[NameFor(old(dir), at, Digest(sha, bytes)) := bytes];
              Undisturbed(old(dir), sha, bytes, at, c) ==>
                && name !in old(dir) && PrunedTo(full, pruned) && dir == WithStuck(full, pruned, c.stuck)
                && o == (if name in dir then Recorded(name, true) else Error)
                && (|AsNew(full, name)| < MAX_SNAPSHOTS ==> name in dir)
                && (|Newer(full, name)| >= MAX_SNAPSHOTS ==> (name in dir <==> name in c.stuck))
      ensures o.Error? ==> dir == old(dir) || exists name: Name :: name !in old(dir) && PrunedTo(old(dir)[name := bytes], pruned) && name !in dir
      ensures forall x: Dir :: x in seen ==>
                (x in old(seen) || WritePasses(old(dir), Snapshot(at, Digest(sha, bytes)), pid, bytes, pruned, x)
                 || WritePasses(old(dir), Snapshot(at + 1, Digest(sha, bytes)), pid, bytes, pruned, x))
    {
      pruned := dir;
      if |bytes| < MIN_BYTES { return Error, pruned; }
      var same := FindSame(bytes, c.unread);
      if same.Some? { return Recorded(same.value, false), pruned; }
      var name := Snapshot(at, Digest(sha, bytes));
      var result := WriteFileExclusive(name, bytes, c.first);
      if result.Exists? {
        if name in c.unread { return Error, pruned; }
        assert name in SnapshotsIn(dir - c.unread);
        if sha(dir[name]) == sha(bytes) { return Recorded(name, false), pruned; }
        name := Snapshot(at + 1, Digest(sha, bytes));
        result := WriteFileExclusive(name, bytes, c.second);
      }
      if !result.Created? { return Error, pruned; }
      ghost var full := dir;
      pruned := PruneOldest(c.stuck);
      if |AsNew(full, name)| < MAX_SNAPSHOTS { NewEnoughStays(full, pruned, name); }
      if |Newer(full, name)| >= MAX_SNAPSHOTS { OldEnoughGoes(full, pruned, name); }
      o := if name in dir then Recorded(name, true) else Error;
    }

    method ListTemps() returns (temps: seq<Name>)
      ensures NoDup(temps) && forall t :: t in temps <==> t in dir && IsTemp(t)
    {
      temps := [];
      var todo := dir.Keys;
      while todo != {}
        invariant todo <= dir.Keys && NoDup(temps) && forall t :: t in temps <==> t in dir && IsTemp(t) && t !in todo
        decreases todo
      {
        var n :| n in todo;
        if IsTemp(n) { temps := temps + [n]; }
        todo := todo - {n};
      }
    }

    /** One temp file: linked in if it was complete and its snapshot is missing, then removed; left where the first fails. */
    method SweepOne(temp: Name, mishap: Mishap) returns (adopted: bool, removed: bool)
      requires IsTemp(temp) && temp in dir
      modifies this
      ensures dir == SweptBut(old(dir), temp, mishap, sha) && removed == !Skipped(old(dir), temp, mishap, sha)
      ensures |SnapshotsIn(dir)| == |SnapshotsIn(old(dir))| + if adopted then 1 else 0
      ensures forall x: Dir :: x in seen ==> x in old(seen) || x == Adopted(old(dir), temp, sha) || x == dir
    {
      adopted := false;
      if temp.Temp? && Snapshot(temp.at, temp.digest) !in dir {
        if mishap.Unread? { return false, false; }
        if Digest(sha, dir[temp]) == temp.digest {
          if mishap.NoLink? { return false, false; }
          ghost var held := SnapshotsIn(dir);
          Put(Snapshot(temp.at, temp.digest), dir[temp]);
          assert SnapshotsIn(dir) == held + {Snapshot(temp.at, temp.digest)};
          adopted := true;
        }
      }
      removed := true;
      if mishap.Stuck? { return; }
      ghost var now := SnapshotsIn(dir);
      Unlink(temp);
      assert SnapshotsIn(dir) == now;
    }

    /** Clears what interrupted writes left, linking in what had been written completely. */
    method Sweep(bad: Mishaps) returns (adopted: nat, removed: nat, ghost temps: seq<Name>)
      modifies this
      ensures NoDup(temps) && forall t :: t in temps <==> t in old(dir) && IsTemp(t)
      ensures dir == Swept(old(dir), temps, bad, sha) && removed == ReportedRemoved(old(dir), temps, bad, sha)
      ensures |SnapshotsIn(dir)| == |SnapshotsIn(old(dir))| + adopted
      ensures forall x: Dir :: x in seen ==> x in old(seen) || SweepPasses(old(dir), temps, bad, x, sha)
    {
      adopted, removed := 0, 0;
      var listed := ListTemps();
      temps := listed;
      ghost var before := dir;
      assert temps[..0] == [];
      for i := 0 to |listed|
        invariant dir == Swept(before, temps[..i], bad, sha) && removed == ReportedRemoved(before, temps[..i], bad, sha)
        invariant forall k :: i <= k < |temps| ==> temps[k] in dir
        invariant |SnapshotsIn(dir)| == |SnapshotsIn(before)| + adopted
        invariant forall x: Dir :: x in seen ==> x in old(seen) || SweepPasses(before, temps, bad, x, sha)
      {
        assert temps[..i + 1][..i] == temps[..i];
        var linked, gone := SweepOne(listed[i], bad(listed[i]));
        if linked { adopted := adopted + 1; }
        if gone { removed := removed + 1; }
      }
      assert temps[..|temps|] == temps;
    }
  }

  /** The name new bytes take: the next millisecond's where other bytes have this one's. */
  function NameFor(d: Dir, at: nat, digest: string): Name {
    Snapshot(if Snapshot(at, digest) in d then at + 1 else at, digest)
  }

  /** A write of new bytes that nothing goes wrong with. */
  ghost predicate Undisturbed(d: Dir, sha: Hash, bytes: Bytes, at: nat, c: Conditions) {
    && |bytes| >= MIN_BYTES && !Archived(d - c.unread, sha, bytes) && c.first.NoFault? && c.second.NoFault?
    && Snapshot(at + 1, Digest(sha, bytes)) !in d && (Snapshot(at, Digest(sha, bytes)) in d ==> Snapshot(at, Digest(sha, bytes)) !in c.unread)
  }

  /** These bytes are in some snapshot already. */
  ghost predicate Archived(d: Dir, sha: Hash, bytes: Bytes) {
    exists n :: n in SnapshotsIn(d) && sha(d[n]) == sha(bytes)
  }

  lemma {:induction false} PrunedByList(d: Dir, entries: seq<Name>, keep: nat)
    requires NoDup(entries) && keep <= |entries| && (forall n :: n in entries <==> n in SnapshotsIn(d))
    requires forall i, j :: 0 <= i < j < |entries| ==> TimeOf(entries[i]) >= TimeOf(entries[j])
    requires keep == if |entries| < MAX_SNAPSHOTS then |entries| else MAX_SNAPSHOTS
    ensures PrunedTo(d, d - (set n | n in entries[keep..]))
  {
    var x := d - (set n | n in entries[keep..]);
    SetSize(entries, SnapshotsIn(d));
    forall n | n in entries[keep..] ensures n in SnapshotsIn(d) { assert n in entries; }
    forall n ensures n in entries[..keep] <==> n in SnapshotsIn(x) {
      if n in entries {
        var i :| 0 <= i < |entries| && entries[i] == n;
        assert i >= keep ==> n == entries[keep..][i - keep];
        assert i < keep ==> n == entries[..keep][i];
        if n in entries[..keep] { KeptNotDropped(entries, keep, n); }
      }
    }
    assert forall n :: n in d && !n.Snapshot? ==> n in x;
    SetSize(entries[..keep], SnapshotsIn(x));
    forall gone, kept | gone in d && gone !in x && kept in x && kept.Snapshot? ensures TimeOf(gone) <= TimeOf(kept) {
      var j :| 0 <= j < |entries[keep..]| && entries[keep..][j] == gone;
      assert kept in entries[..keep];
      var i :| 0 <= i < keep && entries[i] == kept;
      assert entries[keep + j] == gone;
    }
  }

  lemma {:induction false} KeptNotDropped(s: seq<Name>, keep: nat, n: Name)
    requires NoDup(s) && keep <= |s| && n in s[..keep]
    ensures n !in s[keep..]
  {
    var i :| 0 <= i < keep && s[i] == n;
  }

  lemma {:induction false} SetSize(s: seq<Name>, all: set<Name>)
    requires NoDup(s) && forall n :: n in s <==> n in all
    ensures |all| == |s|
  {
    if s == [] {
      assert all == {};
    } else {
      var last := s[|s| - 1];
      SetSize(s[..|s| - 1], all - {last});
    }
  }
}
