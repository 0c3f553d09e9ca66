// The directory swap of xtask/src/main.rs. Every filesystem call may fail, removals and copies may
// fail half-way, and `trace` records every state the disk passes through, so a crash at any point
// leaves one of the recorded states behind. `calls` logs the renames and removals with their verdicts,
// and `faulted` says whether a call failed for a reason outside the tree.
module ReplaceDir {
  import opened Options

  datatype Node = File(data: int) | Dir(entries: map<string, Node>)

  // The three sibling places the swap touches.
  datatype Place = Destination | Staging | Backup

  datatype Disk = Disk(destination: Option<Node>, staging: Option<Node>, backup: Option<Node>) {
    function At(p: Place): Option<Node> {
      match p case Destination => destination case Staging => staging case Backup => backup
    }

    function With(p: Place, node: Option<Node>): Disk {
      match p
      case Destination => this.(destination := node)
      case Staging => this.(staging := node)
      case Backup => this.(backup := node)
    }
  }

  datatype IoResult = Ok | NotFound | Failed

  datatype Call = Renamed(from: Place, to: Place, ok: bool) | Removed(place: Place, result: IoResult)

  predicate IsFile(node: Option<Node>) {
    node.Some? && node.value.File?
  }

  function Entry(entries: map<string, Node>, name: string): Option<Node> {
    if name in entries then Some(entries[name]) else None
  }

  function Lookup(root: Option<Node>, path: seq<string>): Option<Node>
    decreases |path|
  {
    if path == [] then root
    else if root.Some? && root.value.Dir? then Lookup(Entry(root.value.entries, path[0]), path[1..])
    else None
  }

  // Every proper ancestor of `path` is a directory.
  predicate ParentExists(root: Option<Node>, path: seq<string>)
    decreases |path|
  {
    path == [] ||
    (root.Some? && root.value.Dir? && ParentExists(Entry(root.value.entries, path[0]), path[1..]))
  }

  function Store(root: Option<Node>, path: seq<string>, node: Node): Node
    requires ParentExists(root, path)
    decreases |path|
  {
    if path == [] then node
    else Dir(root.value.entries[path[0] := Store(Entry(root.value.entries, path[0]), path[1..], node)])
  }

  function Below(existing: Option<Node>): map<string, Node> {
    if existing.Some? && existing.value.Dir? then existing.value.entries else map[]
  }

  // What copying the directory `source` over `existing` leaves: a directory is merged into one that
  // is already there, everything else is replaced.
  function Overlay(existing: Option<Node>, source: Node): Node
    decreases source
  {
    if source.File? then source
    else
      var below := Below(existing);
      Dir(below + map name | name in source.entries :: Overlay(Entry(below, name), source.entries[name]))
  }

  lemma {:induction false} OverlayOnNothing(source: Node)
    ensures Overlay(None, source) == source
    decreases source
  {
    if source.Dir? {
      forall name | name in source.entries
        ensures Overlay(Entry(map[], name), source.entries[name]) == source.entries[name]
      {
        OverlayOnNothing(source.entries[name]);
      }
      assert map[] + (map name | name in source.entries :: Overlay(Entry(map[], name), source.entries[name]))
          == source.entries;
    }
  }

  lemma {:induction false} StoreSpec(root: Option<Node>, path: seq<string>, node: Node, again: Node)
    requires ParentExists(root, path)
    ensures Lookup(Some(Store(root, path, node)), path) == Some(node)
    ensures ParentExists(Some(Store(root, path, node)), path)
    ensures Store(Some(Store(root, path, node)), path, again) == Store(root, path, again)
    decreases |path|
  {
    if path != [] {
      var below := Entry(root.value.entries, path[0]);
      StoreSpec(below, path[1..], node, again);
      var stored := Store(root, path, node);
      assert Entry(stored.entries, path[0]) == Some(Store(below, path[1..], node));
      assert stored.entries[path[0] := Store(below, path[1..], again)]
          == root.value.entries[path[0] := Store(below, path[1..], again)];
    }
  }

  lemma {:induction false} StoreInside(root: Option<Node>, path: seq<string>, name: string, node: Node)
    requires ParentExists(root, path) && Lookup(root, path).Some? && Lookup(root, path).value.Dir?
    ensures ParentExists(root, path + [name])
    ensures Lookup(root, path + [name]) == Entry(Lookup(root, path).value.entries, name)
    ensures Store(root, path + [name], node) == Store(root, path, Dir(Lookup(root, path).value.entries[name := node]))
    decreases |path|
  {
    var longer := path + [name];
    if path == [] {
      assert longer[1..] == [];
    } else {
      assert longer[0] == path[0] && longer[1..] == path[1..] + [name];
      StoreInside(Entry(root.value.entries, path[0]), path[1..], name, node);
    }
  }

  // The target's entries when all of the source's but `left` have been copied.
  function Overlaid(below: map<string, Node>, source: Node, left: set<string>): map<string, Node>
    requires source.Dir?
  {
    below + map name | name in source.entries && name !in left :: Overlay(Entry(below, name), source.entries[name])
  }

  // The staging tree when, below `path`, all of the source's entries but `left` have been copied.
  function Half(root: Option<Node>, path: seq<string>, source: Node, left: set<string>): Node
    requires ParentExists(root, path) && source.Dir?
  {
    Store(root, path, Dir(Overlaid(Below(Lookup(root, path)), source, left)))
  }

  lemma HalfEnds(root: Option<Node>, path: seq<string>, source: Node)
    requires ParentExists(root, path) && source.Dir?
    ensures Half(root, path, source, source.entries.Keys) == Store(root, path, Overlay(Lookup(root, path), Dir(map[])))
    ensures Half(root, path, source, {}) == Store(root, path, Overlay(Lookup(root, path), source))
  {
    var below := Below(Lookup(root, path));
    assert Overlaid(below, source, source.entries.Keys) == below == Overlay(Lookup(root, path), Dir(map[])).entries;
    assert Overlaid(below, source, {}) == Overlay(Lookup(root, path), source).entries;
  }

  // Copying one more entry into the half-copied target.
  lemma CopyStep(root: Option<Node>, path: seq<string>, source: Node, left: set<string>, name: string)
    requires ParentExists(root, path) && source.Dir? && left <= source.entries.Keys && name in left
    ensures var now := Some(Half(root, path, source, left));
      && ParentExists(now, path + [name])
      && (Lookup(root, path).None? ==> Lookup(now, path + [name]).None?)
      && Store(now, path + [name], Overlay(Lookup(now, path + [name]), source.entries[name])) ==
           Half(root, path, source, left - {name})
  {
    var below := Below(Lookup(root, path));
    var half := Overlaid(below, source, left);
    var copied := Overlay(Entry(below, name), source.entries[name]);
    var now := Some(Store(root, path, Dir(half)));
    StoreSpec(root, path, Dir(half), Dir(half[name := copied]));
    StoreInside(now, path, name, copied);
    assert Entry(half, name) == Entry(below, name);
    assert half[name := copied] == Overlaid(below, source, left - {name});
  }

  class FileSystem {
    var disk: Disk
    ghost var trace: seq<Disk>
    ghost var calls: seq<Call>
    ghost var faulted: bool

    constructor (disk: Disk)
      ensures this.disk == disk && trace == [disk] && calls == [] && !faulted
    {
      this.disk := disk;
      trace := [disk];
      calls, faulted := [], false;
    }

    ghost predicate Recorded()
      reads this
    {
      trace != [] && trace[|trace| - 1] == disk
    }

    // Since `before`, when the disk was `start`, only `place` has changed.
    ghost predicate OnlyAt(place: Place, start: Disk, before: seq<Disk>)
      reads this
    {
      && Recorded()
      && before <= trace
      && (forall i :: |before| <= i < |trace| ==> trace[i] == start.With(place, trace[i].At(place)))
      && disk == start.With(place, disk.At(place))
    }

    method Put(place: Place, node: Option<Node>)
      modifies this`disk, this`trace
      ensures disk == old(disk).With(place, node) && trace == old(trace) + [disk]
    {
      disk := disk.With(place, node);
      trace := trace + [disk];
    }

    // Anything may be left of the tree when a removal fails or is cut short.
    method RemoveDirAll(place: Place) returns (r: IoResult)
      requires Recorded()
      modifies this
      ensures OnlyAt(place, old(disk), old(trace))
      ensures r.Ok? ==> disk.At(place).None? && |trace| > |old(trace)|
      ensures r.NotFound? ==> disk == old(disk) && disk.At(place).None?
      ensures calls == old(calls) + [Removed(place, r)] && (old(faulted) ==> faulted)
      ensures !faulted ==> (r.Failed? <==> IsFile(old(disk.At(place)))) && (r.Failed? ==> disk == old(disk))
    {
      if disk.At(place).None? {
        calls := calls + [Removed(place, NotFound)];
        return NotFound;
      }
      if disk.At(place).value.File? {
        calls := calls + [Removed(place, Failed)];
        return Failed;
      }
      var steps :| steps >= 0;
      for i := 0 to steps
        invariant OnlyAt(place, old(disk), old(trace)) && calls == old(calls) && faulted == old(faulted)
      {
        var left: Option<Node> := *;
        Put(place, left);
      }
      if * {
        calls, faulted := calls + [Removed(place, Failed)], true;
        return Failed;
      }
      Put(place, None);
      calls := calls + [Removed(place, Ok)];
      r := Ok;
    }

    method RemoveDirIfExists(place: Place) returns (ok: bool)
      requires Recorded()
      modifies this
      ensures OnlyAt(place, old(disk), old(trace))
      ensures ok ==> disk.At(place).None?
      ensures old(calls) < calls && |calls| == |old(calls)| + 1
      ensures !ok ==> calls[|old(calls)|] == Removed(place, Failed)
      ensures old(faulted) ==> faulted
      ensures !faulted ==> (ok <==> !IsFile(old(disk.At(place))))
    {
      var r := RemoveDirAll(place);
      ok := r != Failed;
    }

    // Atomic. A directory can only replace nothing or an empty directory, a file only nothing or a
    // file.
    method Rename(from: Place, to: Place) returns (ok: bool)
      requires from != to && Recorded()
      modifies this
      ensures Recorded()
      ensures !ok ==> disk == old(disk) && trace == old(trace)
      ensures ok ==> old(disk.At(from)).Some?
      ensures ok ==> disk == old(disk).With(to, old(disk.At(from))).With(from, None) && trace == old(trace) + [disk]
      ensures calls == old(calls) + [Renamed(from, to, ok)] && (old(faulted) ==> faulted)
      ensures !faulted && old(disk.At(from)).Some? && old(disk.At(to)).None? ==> ok
    {
      var source, target := disk.At(from), disk.At(to);
      ok := source.Some? && (target.None? || (source.value.File? == target.value.File?
                                              && (target.value.Dir? ==> target.value.entries == map[])));
      if ok {
        if * { ok, faulted := false, true; }
      }
      calls := calls + [Renamed(from, to, ok)];
      if ok {
        disk := disk.With(to, source).With(from, None);
        trace := trace + [disk];
      }
    }

    // `Path::exists` reads an error as absence.
    method Exists(place: Place) returns (b: bool)
      modifies this`faulted
      ensures b ==> disk.At(place).Some?
      ensures !faulted ==> (b <==> disk.At(place).Some?)
      ensures old(faulted) ==> faulted
    {
      if * {
        faulted := true;
        return false;
      }
      b := disk.At(place).Some?;
    }

    method CreateDir(path: seq<string>) returns (ok: bool)
      requires ParentExists(disk.staging, path)
      requires Recorded()
      modifies this`disk, this`trace, this`faulted
      ensures OnlyAt(Staging, old(disk), old(trace)) && (old(faulted) ==> faulted)
      ensures ok ==>
                disk.staging == Some(
                  Store(old(disk.staging), path, Overlay(Lookup(old(disk.staging), path), Dir(map[]))))
      ensures !faulted && Lookup(old(disk.staging), path).None? ==> ok
    {
      var existing := Lookup(disk.staging, path);
      if IsFile(existing) { return false; }
      if * {
        faulted := true;
        return false;
      }
      var below: map<string, Node> := if existing.Some? then existing.value.entries else map[];
      assert below + map[] == below;
      Put(Staging, Some(Store(disk.staging, path, Dir(below))));
      ok := true;
    }

    method CopyFile(source: Node, path: seq<string>) returns (ok: bool)
      requires source.File? && ParentExists(disk.staging, path)
      requires Recorded()
      modifies this`disk, this`trace, this`faulted
      ensures OnlyAt(Staging, old(disk), old(trace)) && (old(faulted) ==> faulted)
      ensures ok ==> disk.staging == Some(Store(old(disk.staging), path, source))
      ensures !faulted && Lookup(old(disk.staging), path).None? ==> ok
    {
      var existing := Lookup(disk.staging, path);
      if existing.Some? && existing.value.Dir? { return false; }
      var root := disk.staging;
      var partial: int := *;
      if * { Put(Staging, Some(Store(root, path, File(partial)))); }
      if * {
        faulted := true;
        return false;
      }
      Put(Staging, Some(Store(root, path, source)));
      ok := true;
    }

    method CopyEntry(source: Node, path: seq<string>) returns (ok: bool)
      requires ParentExists(disk.staging, path)
      requires Recorded()
      modifies this`disk, this`trace, this`faulted
      ensures OnlyAt(Staging, old(disk), old(trace)) && (old(faulted) ==> faulted)
      ensures ok ==>
                disk.staging == Some(Store(old(disk.staging), path, Overlay(Lookup(old(disk.staging), path), source)))
      ensures !faulted && Lookup(old(disk.staging), path).None? ==> ok
      decreases source, 2
    {
      if source.Dir? {
        ok := CopyDirRecursive(source, path);
      } else {
        ok := CopyFile(source, path);
      }
    }

    method CopyNext(ghost root: Option<Node>, path: seq<string>, source: Node, ghost left: set<string>, name: string)
      returns (ok: bool)
      requires ParentExists(root, path) && source.Dir? && left <= source.entries.Keys && name in left
      requires disk.staging == Some(Half(root, path, source, left))
      requires Recorded()
      modifies this`disk, this`trace, this`faulted
      ensures OnlyAt(Staging, old(disk), old(trace)) && (old(faulted) ==> faulted)
      ensures ok ==> disk.staging == Some(Half(root, path, source, left - {name}))
      ensures !faulted && Lookup(root, path).None? ==> ok
      decreases source, 0
    {
      if * {  // listing the next entry
        faulted := true;
        return false;
      }
      CopyStep(root, path, source, left, name);
      ok := CopyEntry(source.entries[name], path + [name]);
    }

    // `copy_dir_recursive` with staging as its outermost target; entries come in any order.
    method CopyDirRecursive(source: Node, path: seq<string>) returns (ok: bool)
      requires source.Dir? && ParentExists(disk.staging, path)
      requires Recorded()
      modifies this`disk, this`trace, this`faulted
      ensures OnlyAt(Staging, old(disk), old(trace)) && (old(faulted) ==> faulted)
      ensures ok ==>
                disk.staging == Some(Store(old(disk.staging), path, Overlay(Lookup(old(disk.staging), path), source)))
      ensures !faulted && Lookup(old(disk.staging), path).None? ==> ok
      decreases source, 1
    {
      ghost var root := disk.staging;
      HalfEnds(root, path, source);
      ok := CreateDir(path);
      if !ok { return; }
      var left := source.entries.Keys;
      while left != {}
        invariant left <= source.entries.Keys
        invariant OnlyAt(Staging, old(disk), old(trace)) && (old(faulted) ==> faulted)
        invariant disk.staging == Some(Half(root, path, source, left))
      {
        var name :| name in left;
        ok := CopyNext(root, path, source, left, name);
        if !ok { return; }
        left := left - {name};
      }
    }

    // Clears what an interrupted run left and stages the copy; the destination is not touched.
    // `backup` says how far it has come with the old backup.
    method Stage(source: Node) returns (ok: bool, ghost backup: Clearing)
      requires source.Dir? && Recorded()
      modifies this
      ensures Recorded() && old(trace) <= trace
      ensures forall i :: |old(trace)| <= i < |trace| ==> trace[i].destination == old(disk.destination)
      ensures disk.destination == old(disk.destination)
      ensures backup.Kept? ==> disk.backup == old(disk.backup)
      ensures backup.Kept? ==> forall i :: |old(trace)| <= i < |trace| ==> trace[i].backup == old(disk.backup)
      ensures backup.Cleared? ==> disk.backup.None?
      ensures ok ==> disk.staging == Some(source) && backup.Cleared?
      ensures old(calls) <= calls && (old(faulted) ==> faulted)
      ensures !ok ==> disk.staging.None? || Tried(Removed(Staging, Failed), calls, |old(calls)|)
      ensures !faulted ==> (ok <==> !IsFile(old(disk.staging)) && !IsFile(old(disk.backup)))
    {
      backup := Kept;
      ok := RemoveDirIfExists(Staging);
      if !ok { return; }
      backup := Clearing;
      ok := RemoveDirIfExists(Backup);
      if !ok { return; }
      backup := Cleared;
      ok := CopyDirRecursive(source, []);
      if !ok {
        var _ := RemoveDirAll(Staging);
        assert calls[|calls| - 1].Removed?;
        return false, Cleared;
      }
      OverlayOnNothing(source);
    }

    // The two renames, with rollback.
    method Swap(source: Node) returns (ok: bool)
      requires Recorded() && disk.staging == Some(source) && disk.backup.None?
      modifies this
      ensures Recorded() && old(trace) <= trace
      ensures forall i :: |old(trace)| <= i < |trace| ==> MidSwap(trace[i], old(disk.destination), source)
      ensures ok ==> disk.destination == Some(source)
      ensures !ok ==> PutBack(disk, old(disk.destination))
      ensures !ok && old(disk.destination).None? ==> disk.destination.None? && disk.backup.None?
      ensures old(calls) <= calls && (old(faulted) ==> faulted)
      ensures !ok && old(disk.destination).Some? ==>
        || disk.destination == old(disk.destination)
        || Tried(Renamed(Backup, Destination, false), calls, |old(calls)|)
      ensures ok ==> disk.staging.None? && (disk.backup.None? || Tried(Removed(Backup, Failed), calls, |old(calls)|))
      ensures !ok ==> disk.staging.None? || Tried(Removed(Staging, Failed), calls, |old(calls)|)
      ensures !faulted ==> ok && disk.backup == if IsFile(old(disk.destination)) then old(disk.destination) else None
    {
      var hadExisting := Exists(Destination);
      if hadExisting {
        ok := Rename(Destination, Backup);
        if !ok {
          var _ := RemoveDirAll(Staging);
          assert calls[|calls| - 1].Removed?;
          return false;
        }
      }
      ok := Rename(Staging, Destination);
      if !ok {
        if hadExisting {
          var _ := Rename(Backup, Destination);
        }
        var _ := RemoveDirAll(Staging);
        assert calls[|calls| - 1].Removed? && (hadExisting ==> calls[|calls| - 2].Renamed?);
        return false;
      }
      var _ := RemoveDirAll(Backup);
      assert calls[|calls| - 1].Removed?;
    }

    // The swap itself. With an install at the destination when it starts, every state on the way
    // has the destination absent, wholly old or wholly new, and a whole old or new tree at the
    // destination or the backup. Success installs exactly the source; failure leaves the old install
    // in place or, when putting it back failed too, whole in the backup.
    //
    // A swap that starts with the destination absent and the old install in the backup, as after a
    // crash between the two renames, clears the backup before anything replaces it: of the swaps
    // that succeed, exactly those that start with an install in place never pass through a state
    // with no whole tree. One that fails has lost the old install once it has cleared the backup,
    // that is when copying or the last rename fails, and has kept it if it stopped before.
    //
    // A run that fails over an install leaves it in place unless renaming it back was tried and failed,
    // and leaves nothing staged or set aside unless removing that was tried and failed. A run in which no
    // call fails for a reason outside the tree succeeds exactly when no file is in the way at staging or
    // backup, and then leaves the new tree alone, beside an old install that was a file.
    method Replace(source: Node) returns (ok: bool, ghost backup: Clearing)
      requires source.Dir? && trace == [disk] && calls == [] && !faulted
      modifies this
      ensures forall i :: 0 <= i < |trace| ==> NeverPartial(trace[i], old(disk.destination), source)
      ensures old(disk.destination).Some? ==>
                forall i :: 0 <= i < |trace| ==> Recoverable(trace[i], Saved(old(disk)), source)
      ensures ok ==> disk.destination == Some(source)
      ensures ok && Saved(old(disk)).Some? ==>
        ((forall i :: 0 <= i < |trace| ==> Recoverable(trace[i], Saved(old(disk)), source))
           <==> old(disk.destination).Some?)
      ensures !ok ==> PutBack(disk, old(disk.destination))
      ensures !ok && old(disk.destination).None? && old(disk.backup).Some? && !backup.Clearing? ==>
        (Recoverable(disk, old(disk.backup), source) <==> backup.Kept?)
      ensures backup.Kept? ==> !ok && forall i :: 0 <= i < |trace| ==> trace[i].backup == old(disk.backup)
      ensures !ok && old(disk.destination).Some? ==>
        disk.destination == old(disk.destination) || Renamed(Backup, Destination, false) in calls
      ensures ok ==> disk.staging.None? && (disk.backup.None? || Removed(Backup, Failed) in calls)
      ensures !ok && calls != [] ==> disk.staging.None? || Removed(Staging, Failed) in calls
      ensures !faulted ==> (ok <==> !IsFile(old(disk.staging)) && !IsFile(old(disk.backup)))
      ensures !faulted && ok ==>
        disk == Disk(Some(source), None, if IsFile(old(disk.destination)) then old(disk.destination) else None)
    {
      if * {  // create_dir_all of the parent
        faulted := true;
        return false, Kept;
      }
      ok, backup := Stage(source);
      if !ok { return; }
      ghost var staged := |trace| - 1;
      assert old(disk.destination).None? && Saved(old(disk)).Some? ==>
               !Recoverable(trace[staged], Saved(old(disk)), source);
      ok := Swap(source);
    }
  }

  // The call was made after the first `from` calls.
  ghost predicate Tried(call: Call, calls: seq<Call>, from: nat) {
    exists i :: from <= i < |calls| && calls[i] == call
  }

  // How far a run has come with what an earlier one left at the backup.
  datatype Clearing = Kept | Clearing | Cleared

  // A failed swap leaves the old install in place, or whole in the backup.
  ghost predicate PutBack(d: Disk, before: Option<Node>) {
    d.destination == before || (d.destination.None? && d.backup == before)
  }

  ghost predicate MidSwap(d: Disk, before: Option<Node>, source: Node) {
    d.destination == before || (d.destination.None? && d.backup == before) || d.destination == Some(source)
  }

  ghost predicate NeverPartial(d: Disk, before: Option<Node>, source: Node) {
    d.destination.None? || d.destination == before || d.destination == Some(source)
  }

  // The install a user would want back: in place, or set aside by an interrupted swap.
  ghost function Saved(d: Disk): Option<Node> {
    if d.destination.Some? then d.destination else d.backup
  }

  // The saved install or the new one is whole, at the destination or the backup.
  ghost predicate Recoverable(d: Disk, saved: Option<Node>, source: Node) {
    || (d.destination.Some? && (d.destination == saved || d.destination == Some(source)))
    || (d.backup.Some? && d.backup == saved)
  }
}
