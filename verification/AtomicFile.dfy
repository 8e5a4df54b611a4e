/**
 * Replacing the store file (electron/atomicFile.ts): the directory as a map
 * from names to files, and every state it passes through, any of which a crash may leave.
 *
 * A hard link shares bytes that are never written in place, so it is modelled as a copy.
 */
module AtomicFile {
  import opened StoreText

  datatype Name =
    | Main                  // durable-prefs.json
    | Previous              // durable-prefs.json.previous
    | Temp(pid: nat)        // durable-prefs.json.<pid>.tmp
    | Aside(stamp: int)     // durable-prefs.json.corrupt-<stamp>

  datatype File = File(text: string, mtime: int)

  type Dir = map<Name, File>

  /** Which of the calls that may fail quietly work: unlinking the old fallback, making a hard link. */
  datatype Volume = Volume(unlinks: bool, links: bool)

  /** One save: who writes what, when, and on what kind of volume. */
  datatype Save = Save(pid: nat, text: string, now: int, volume: Volume)

  // ----- the directory after each step of writeFileAtomic -----

  function Written(d: Dir, w: Save, text: string): Dir {
    d[Temp(w.pid) := File(text, w.now)]
  }

  function Unlinked(d: Dir, w: Save): Dir {
    if w.volume.unlinks then Written(d, w, w.text) - {Previous} else Written(d, w, w.text)
  }

  function Linked(d: Dir, w: Save): Dir {
    var u := Unlinked(d, w);
    if w.volume.links && Main in u && Previous !in u then u[Previous := u[Main]] else u
  }

  function Renamed(d: Dir, w: Save): Dir {
    Linked(d, w)[Main := File(w.text, w.now)] - {Temp(w.pid)}
  }

  /** A failed rename: the temp file is removed again. */
  function RolledBack(d: Dir, w: Save): Dir {
    Linked(d, w) - {Temp(w.pid)}
  }

  /** How much of a file a cut-short write may have left. */
  ghost predicate PartWritten(part: string, text: string) {
    part == "" || Torn(part, text) || part == text
  }

  /** The temp file holds part of the text, or all of it. */
  ghost predicate Writing(d: Dir, w: Save, x: Dir) {
    Temp(w.pid) in x && PartWritten(x[Temp(w.pid)].text, w.text) && x == Written(d, w, x[Temp(w.pid)].text)
  }

  /** Every state a save passes through, and so may leave behind when it is cut short. */
  ghost predicate Passes(d: Dir, w: Save, x: Dir) {
    || x == d
    || Writing(d, w, x)
    || x == Unlinked(d, w)
    || x == Linked(d, w)
    || x == Renamed(d, w)
  }

  /** What stops a save with an error. */
  datatype Fault = NoFault | WriteFails(cut: nat) | RenameFails

  /** What a write that failed after `cut` characters got to. */
  function PartOf(text: string, cut: nat): (part: string)
    ensures PartWritten(part, text)
  {
    if cut < |text| then text[..cut] else text
  }

  class FileSystem {
    var dir: Dir
    /** Every state the directory has been in. */
    ghost var seen: iset<Dir>

    constructor (dir: Dir)
      ensures this.dir == dir && seen == iset{dir}
    {
      this.dir := dir;
      seen := iset{dir};
    }

    method Put(name: Name, file: File)
      modifies this
      ensures dir == old(dir)[name := file] && seen == old(seen) + iset{dir}
    {
      dir := dir[name := file];
      seen := seen + iset{dir};
    }

    method RemoveQuietly(name: Name, works: bool)
      modifies this
      ensures dir == (if works then old(dir) - {name} else old(dir)) && seen == old(seen) + iset{dir}
    {
      if works { dir := dir - {name}; }
      seen := seen + iset{dir};
    }

    method LinkQuietly(from: Name, to: Name, works: bool)
      modifies this
      ensures dir == if works && from in old(dir) && to !in old(dir) then old(dir)[to := old(dir)[from]] else old(dir)
      ensures seen == old(seen) + iset{dir}
    {
      if works && from in dir && to !in dir { dir := dir[to := dir[from]]; }
      seen := seen + iset{dir};
    }

    method Rename(from: Name, to: Name)
      requires from in dir && from != to
      modifies this
      ensures dir == old(dir)[to := old(dir)[from]] - {from} && seen == old(seen) + iset{dir}
    {
      dir := dir[to := dir[from]] - {from};
      seen := seen + iset{dir};
    }

    /** Opens, fills and syncs the temp file; while it runs the file holds any part of the text. */
    method WriteSyncedTemp(w: Save, fault: Fault) returns (ok: bool)
      modifies this
      ensures ok == !fault.WriteFails?
      ensures dir == Written(old(dir), w, if ok then w.text else PartOf(w.text, fault.cut))
      ensures forall x: Dir :: x in seen ==> (x in old(seen) || Writing(old(dir), w, x))
      ensures old(seen) <= seen
    {
      ghost var before := dir;
      seen := seen + iset x: Dir | Writing(before, w, x);
      ok := !fault.WriteFails?;
      Put(Temp(w.pid), File(if ok then w.text else PartOf(w.text, fault.cut), w.now));
    }

    method KeepPrevious(volume: Volume)
      modifies this
      ensures var u := if volume.unlinks then old(dir) - {Previous} else old(dir);
              && dir == (if volume.links && Main in u && Previous !in u then u[Previous := u[Main]] else u)
              && seen == old(seen) + iset{u, dir}
    {
      RemoveQuietly(Previous, volume.unlinks);
      LinkQuietly(Main, Previous, volume.links);
    }

    /** Replaces the store file, or leaves it as it was; every state on the way is one `Passes` names. */
    method WriteFileAtomic(w: Save, fault: Fault) returns (ok: bool)
      requires Temp(w.pid) !in dir
      modifies this
      ensures ok == fault.NoFault?
      ensures dir == match fault
                     case NoFault => Renamed(old(dir), w)
                     case WriteFails(_) => old(dir)
                     case RenameFails => RolledBack(old(dir), w)
      ensures forall x: Dir :: x in seen ==>
                (x in old(seen) || Passes(old(dir), w, x) || (fault.RenameFails? && x == RolledBack(old(dir), w)))
      ensures old(seen) <= seen
    {
      ghost var before := dir;
      ok := WriteSyncedTemp(w, fault);
      if !ok {
        RemoveQuietly(Temp(w.pid), true);
        assert dir == before;
        return;
      }
      KeepPrevious(w.volume);
      if fault.RenameFails? {
        RemoveQuietly(Temp(w.pid), true);
        return false;
      }
      Rename(Temp(w.pid), Main);
    }

    /** Unlinks the given temp files. */
    method RemoveTempFiles(pids: seq<nat>)
      modifies this
      ensures dir == old(dir) - TempNames(pids, |pids|)
      ensures forall x :: x in seen ==> (x in old(seen) || exists n :: 0 <= n <= |pids| && x == old(dir) - TempNames(pids, n))
      ensures old(seen) <= seen
    {
      ghost var before := dir;
      assert dir == before - TempNames(pids, 0);
      for i := 0 to |pids|
        invariant dir == before - TempNames(pids, i)
        invariant forall x :: x in seen ==> (x in old(seen) || exists n :: 0 <= n <= i && x == before - TempNames(pids, n))
        invariant old(seen) <= seen
      {
        RemoveQuietly(Temp(pids[i]), true);
        assert dir == before - TempNames(pids, i + 1);
      }
    }

    /** The temp files beside the store, in whatever order the directory lists them. */
    method ListTempFiles() returns (pids: seq<nat>)
      ensures forall p :: p in pids <==> Temp(p) in dir
    {
      pids := [];
      var todo := dir.Keys;
      while todo != {}
        invariant todo <= dir.Keys && forall p :: p in pids <==> Temp(p) in dir && Temp(p) !in todo
        decreases todo
      {
        var name :| name in todo;
        todo := todo - {name};
        if name.Temp? { pids := pids + [name.pid]; }
      }
    }
  }

  function TempNames(pids: seq<nat>, n: nat): set<Name>
    requires n <= |pids|
  {
    set i | 0 <= i < n :: Temp(pids[i])
  }
}
