/** Crash-safe file writes: a temporary file is renamed over the target, and numbered backups are
    rotated afterwards. Every call to the file system may fail, and the program may stop between
    any two of them, or in the middle of writing a file. */
module AtomicWrite {
  import opened Common

  type Contents = seq<int>

  /** `Backup(p, i)` is `<p>.bak.<i>`; `Temp` is a hidden name that nothing else uses. */
  datatype Name = Plain(name: string) | Backup(of: Name, index: nat) | Temp(n: nat)

  type Files = map<Name, Contents>

  function Find(files: Files, name: Name): Option<Contents> {
    if name in files then Some(files[name]) else None
  }

  // ---- The file system ----------------------------------------------------------------------

  class Disk {
    var files: Files
    /** Every state that a stop of the program could leave behind, so far. */
    ghost var seen: seq<Files>
    /** How many calls failed that could have worked. */
    ghost var faults: nat

    /** A call that may fail. */
    method Try() returns (works: bool)
      modifies this`faults
      ensures faults == old(faults) + if works then 0 else 1
    {
      works := *;
      if !works {
        faults := faults + 1;
      }
    }

    /** Reads a file: none when it isn't there or can't be read. */
    method Read(name: Name) returns (r: Option<Contents>)
      modifies this`faults
      ensures r == None || r == Find(files, name)
      ensures old(faults) <= faults && (faults == old(faults) ==> r == Find(files, name))
    {
      var works := Try();
      r := if works then Find(files, name) else None;
    }

    /** Writes a file whose name is free; it may stop after some of the contents. */
    method Write(name: Name, contents: Contents) returns (ok: bool)
      modifies this
      ensures ok ==> files == old(files)[name := contents]
      ensures Only(old(files), files, name)
      ensures Grew(old(seen), seen) && forall j :: |old(seen)| <= j < |seen| ==> Only(old(files), seen[j], name)
      ensures old(faults) <= faults && (faults == old(faults) ==> ok == (name !in old(files)))
    {
      var opens := Try();
      if name in files || !opens {
        return false;
      }
      ok := Try();
      var part: Contents := *;
      files := files[name := if ok then contents else part];
      seen := seen + [old(files)[name := part], files];
    }

    method Rename(from: Name, to: Name) returns (ok: bool)
      modifies this
      ensures if ok then from in old(files) && files == Renamed(old(files), from, to) else files == old(files)
      ensures seen == old(seen) + [files]
      ensures old(faults) <= faults && (faults == old(faults) ==> ok == (from in old(files)))
    {
      ok := Try();
      if from !in files {
        ok := false;
      }
      if ok {
        files := Renamed(files, from, to);
      }
      seen := seen + [files];
    }

    /** Removes a file; it is no error that it isn't there. */
    method RemoveIfPresent(name: Name) returns (ok: bool)
      modifies this
      ensures files == if ok then old(files) - {name} else old(files)
      ensures seen == old(seen) + [files]
      ensures old(faults) <= faults && (faults == old(faults) ==> ok)
    {
      ok := Try();
      if name !in files {
        ok := true;
      }
      if ok {
        files := files - {name};
      }
      seen := seen + [files];
    }

    /** Copies a file to a name of its own; it may stop after some of the contents. */
    method Copy(from: Name, to: Name) returns (ok: bool)
      requires from in files && from != to
      modifies this
      ensures ok ==> files == old(files)[to := old(files)[from]]
      ensures Only(old(files), files, to)
      ensures Grew(old(seen), seen) && forall j :: |old(seen)| <= j < |seen| ==> Only(old(files), seen[j], to)
      ensures old(faults) <= faults && (faults == old(faults) ==> ok)
    {
      ok := Try();
      var part: Contents := *;
      files := files[to := if ok then files[from] else part];
      seen := seen + [old(files)[to := part], files];
    }
  }

  function Renamed(files: Files, from: Name, to: Name): Files
    requires from in files
  {
    (files - {from})[to := files[from]]
  }

  ghost predicate Grew(a: seq<Files>, b: seq<Files>) {
    a <= b
  }

  /** Nothing but `name` may differ. */
  ghost predicate Only(a: Files, b: Files, name: Name) {
    forall n :: n != name ==> Find(b, n) == Find(a, n)
  }

  // ---- Rotating the backups -----------------------------------------------------------------

  predicate Numbered(n: Name, path: Name, backups: nat) {
    n.Backup? && n.of == path && 1 <= n.index <= backups
  }

  /** Nothing but the numbered backups, and the copy to become the first, differs. */
  ghost predicate OnlyBackups(a: Files, b: Files, path: Name, backups: nat, copy: Name) {
    forall n: Name :: n != copy && !Numbered(n, path, backups) ==> Find(b, n) == Find(a, n)
  }

  /** The rotation got past index `k`: the backups above it moved up by one, those up to it
      didn't yet, the name in between is free, and the copy still waits. */
  ghost predicate PartlyRotated(a: Files, b: Files, path: Name, backups: nat, copy: Name, k: nat) {
    && k < backups && Find(b, copy) == Find(a, copy)
    && (forall i: nat :: k + 2 <= i <= backups ==> Find(b, Backup(path, i)) == Find(a, Backup(path, i - 1)))
    && Find(b, Backup(path, k + 1)) == None
    && (forall i: nat :: 1 <= i <= k ==> Find(b, Backup(path, i)) == Find(a, Backup(path, i)))
  }

  /** The rotation is done: an exact shift, gaps included, with the copy in front. */
  ghost predicate Rotated(a: Files, b: Files, path: Name, backups: nat, copy: Name) {
    && (forall i: nat :: 2 <= i <= backups ==> Find(b, Backup(path, i)) == Find(a, Backup(path, i - 1)))
    && Find(b, Backup(path, 1)) == Find(a, copy)
  }

  /** What a rotation that started at `a` may leave: only the oldest backup is ever lost. */
  ghost predicate Rotating(a: Files, b: Files, path: Name, backups: nat, copy: Name) {
    && OnlyBackups(a, b, path, backups, copy)
    && (|| b == a
        || (exists k :: PartlyRotated(a, b, path, backups, copy, k))
        || Rotated(a, b, path, backups, copy))
  }

  /** One backup moves up, to a name that is free. */
  lemma MovedUp(a: Files, b: Files, path: Name, backups: nat, copy: Name, k: nat)
    requires copy.Temp? && 1 <= k && PartlyRotated(a, b, path, backups, copy, k)
    requires OnlyBackups(a, b, path, backups, copy)
    ensures Backup(path, k + 1) !in b
    ensures var c := if Backup(path, k) in b then Renamed(b, Backup(path, k), Backup(path, k + 1)) else b;
            PartlyRotated(a, c, path, backups, copy, k - 1) && OnlyBackups(a, c, path, backups, copy)
  {
  }

  /** Drops the oldest backup, moves the others up and the copy in front of them. */
  method RotateBackups(disk: Disk, path: Name, copy: Name, backups: nat) returns (ok: bool)
    requires backups > 0 && copy.Temp? && copy in disk.files
    modifies disk
    ensures ok ==> Rotated(old(disk.files), disk.files, path, backups, copy) && copy !in disk.files
    ensures Rotating(old(disk.files), disk.files, path, backups, copy)
    ensures !ok ==> Find(disk.files, copy) == Find(old(disk.files), copy)
    ensures Grew(old(disk.seen), disk.seen)
    ensures forall j :: |old(disk.seen)| <= j < |disk.seen| ==>
              Rotating(old(disk.files), disk.seen[j], path, backups, copy)
    ensures ok ==> forall i: nat :: 1 <= i <= backups && Backup(path, i) in old(disk.files) ==>
              GoneIn(Backup(path, i), disk.seen, |old(disk.seen)|)
    ensures old(disk.faults) <= disk.faults && (disk.faults == old(disk.faults) ==> ok)
  {
    ghost var a, from := disk.files, |disk.seen|;
    ok := disk.RemoveIfPresent(Backup(path, backups));
    if !ok {
      return;
    }
    assert Backup(path, backups) !in disk.seen[from];
    for index := backups downto 1
      invariant 1 <= index && Grew(old(disk.seen), disk.seen) && old(disk.faults) <= disk.faults
      invariant Past(a, disk.files, disk.seen, from, path, backups, copy, index)
    {
      ok := MoveUp(disk, a, from, path, copy, backups, index);
      if !ok {
        return;
      }
    }
    ok := PutInFront(disk, a, from, path, copy, backups);
  }

  /** The copy becomes the first backup. */
  method PutInFront(disk: Disk, ghost a: Files, ghost from: nat, path: Name, copy: Name, backups: nat)
      returns (ok: bool)
    requires backups > 0 && copy.Temp? && copy in a && from <= |disk.seen|
    requires Past(a, disk.files, disk.seen, from, path, backups, copy, 1)
    modifies disk
    ensures Grew(old(disk.seen), disk.seen)
    ensures ok ==> Rotated(a, disk.files, path, backups, copy) && copy !in disk.files
    ensures Rotating(a, disk.files, path, backups, copy) && (!ok ==> Find(disk.files, copy) == Find(a, copy))
    ensures forall j :: from <= j < |disk.seen| ==> Rotating(a, disk.seen[j], path, backups, copy)
    ensures forall i: nat :: 1 <= i <= backups && Backup(path, i) in a ==> GoneIn(Backup(path, i), disk.seen, from)
    ensures old(disk.faults) <= disk.faults && (disk.faults == old(disk.faults) ==> ok)
  {
    ghost var before := disk.seen;
    ok := disk.Rename(copy, Backup(path, 1));
    StillGone(path, before, disk.seen, from);
  }

  /** The rotation got past index `k` from above, and each of the backups it moved or removed was
      gone at some moment. */
  ghost predicate Past(a: Files, files: Files, seen: seq<Files>, from: nat, path: Name, backups: nat, copy: Name,
                       k: nat) {
    && 1 <= k && PartlyRotated(a, files, path, backups, copy, k - 1) && OnlyBackups(a, files, path, backups, copy)
    && (forall j :: from <= j < |seen| ==> Rotating(a, seen[j], path, backups, copy))
    && (forall i: nat :: k <= i <= backups && Backup(path, i) in a ==> GoneIn(Backup(path, i), seen, from))
  }

  /** Moves one backup up. */
  method MoveUp(disk: Disk, ghost a: Files, ghost from: nat, path: Name, copy: Name, backups: nat, index: nat)
      returns (ok: bool)
    requires copy.Temp? && 1 <= index < backups && from <= |disk.seen|
    requires Past(a, disk.files, disk.seen, from, path, backups, copy, index + 1)
    modifies disk
    ensures Grew(old(disk.seen), disk.seen)
    ensures ok ==> Past(a, disk.files, disk.seen, from, path, backups, copy, index)
    ensures !ok ==> disk.files == old(disk.files) &&
                    forall j :: from <= j < |disk.seen| ==> Rotating(a, disk.seen[j], path, backups, copy)
    ensures old(disk.faults) <= disk.faults && (disk.faults == old(disk.faults) ==> ok)
  {
    ok := true;
    MovedUp(a, disk.files, path, backups, copy, index);
    if Backup(path, index) in disk.files {
      ghost var before := disk.seen;
      ok := disk.Rename(Backup(path, index), Backup(path, index + 1));
      StillGone(path, before, disk.seen, from);
      if ok {
        assert Backup(path, index) !in disk.seen[|before|];
      }
    }
  }

  /** A stop of the program could leave no file of this name. */
  ghost predicate GoneIn(name: Name, seen: seq<Files>, from: nat) {
    exists j :: from <= j < |seen| && name !in seen[j]
  }

  lemma StillGone(path: Name, before: seq<Files>, after: seq<Files>, from: nat)
    requires Grew(before, after)
    ensures forall i: nat :: GoneIn(Backup(path, i), before, from) ==> GoneIn(Backup(path, i), after, from)
  {
    forall i: nat | GoneIn(Backup(path, i), before, from)
      ensures GoneIn(Backup(path, i), after, from)
    {
      var j :| from <= j < |before| && Backup(path, i) !in before[j];
      assert after[j] == before[j];
    }
  }

  // ---- Saving -------------------------------------------------------------------------------

  datatype Outcome = Written | Unchanged | Failed

  /** Everything but temporary files is as it was. */
  ghost predicate Untouched(a: Files, b: Files) {
    forall n: Name :: !n.Temp? ==> Find(b, n) == Find(a, n)
  }

  /** The target is none of the backups that a save may rotate. */
  predicate Separate(path: Name, target: Name, backups: nat) {
    !Numbered(target, path, backups)
  }

  /** The new contents are in place, and the backups on their way: only the oldest is ever lost. */
  ghost predicate Replaced(a: Files, b: Files, path: Name, target: Name, contents: Contents, backups: nat) {
    && Find(b, target) == Some(contents)
    && (forall n: Name :: !n.Temp? && n != target && !Numbered(n, path, backups) ==> Find(b, n) == Find(a, n))
    && (|| (forall i: nat :: 1 <= i <= backups ==> Find(b, Backup(path, i)) == Find(a, Backup(path, i)))
        || (exists k :: MovedPast(a, b, path, backups, k))
        || Shifted(a, b, path, target, backups))
  }

  /** The backups above `k` moved up by one, those up to it didn't, and the name between is free. */
  ghost predicate MovedPast(a: Files, b: Files, path: Name, backups: nat, k: nat) {
    && k < backups
    && (forall i: nat :: k + 2 <= i <= backups ==> Find(b, Backup(path, i)) == Find(a, Backup(path, i - 1)))
    && Find(b, Backup(path, k + 1)) == None
    && (forall i: nat :: 1 <= i <= k ==> Find(b, Backup(path, i)) == Find(a, Backup(path, i)))
  }

  /** The backups moved up by one, gaps included, and the replaced version is the first. */
  ghost predicate Shifted(a: Files, b: Files, path: Name, target: Name, backups: nat) {
    && Find(b, Backup(path, 1)) == Find(a, target)
    && forall i: nat :: 2 <= i <= backups ==> Find(b, Backup(path, i)) == Find(a, Backup(path, i - 1))
  }

  /** Whatever stops the program, the old or the new version is there; with the old one, nothing
      else changed either. */
  ghost predicate Safe(a: Files, b: Files, path: Name, target: Name, contents: Contents, backups: nat) {
    Untouched(a, b) || Replaced(a, b, path, target, contents, backups)
  }

  /** The version that is replaced is still somewhere. */
  ghost predicate Held(a: Files, b: Files, path: Name, target: Name, copy: Name) {
    Find(a, target) in {Find(b, target), Find(b, copy), Find(b, Backup(path, 1))}
  }

  /** Copies the current file aside for the backups; none when there is nothing to copy or it fails. */
  method CopyAside(disk: Disk, target: Name, copy: Name) returns (previous: Option<Name>)
    requires copy.Temp? && !target.Temp?
    modifies disk
    ensures previous == None || (previous == Some(copy) && target in disk.files)
    ensures previous == Some(copy) ==> Find(disk.files, copy) == Find(old(disk.files), target)
    ensures Only(old(disk.files), disk.files, copy)
    ensures Grew(old(disk.seen), disk.seen)
    ensures forall j :: |old(disk.seen)| <= j < |disk.seen| ==> Only(old(disk.files), disk.seen[j], copy)
    ensures old(disk.faults) <= disk.faults &&
            (disk.faults == old(disk.faults) ==> previous.Some? == (target in old(disk.files)))
  {
    if target !in disk.files {
      return None;
    }
    var ok := disk.Copy(target, copy);
    previous := if ok then Some(copy) else None;
  }

  /** What is done before the rename: nothing but temporary files is touched. */
  method Prepare(disk: Disk, target: Name, contents: Contents, backups: nat, tmp: Name, copy: Name)
    returns (ready: bool, previous: Option<Name>)
    requires tmp.Temp? && copy.Temp? && tmp != copy && !target.Temp?
    modifies disk
    ensures OnlyTemps(old(disk.files), disk.files, tmp, copy)
    ensures Grew(old(disk.seen), disk.seen)
    ensures forall j :: |old(disk.seen)| <= j < |disk.seen| ==> OnlyTemps(old(disk.files), disk.seen[j], tmp, copy)
    ensures ready ==> Find(disk.files, tmp) == Some(contents)
    ensures previous == None || (previous == Some(copy) && backups > 0 && target in old(disk.files))
    ensures previous == Some(copy) ==> Find(disk.files, copy) == Find(old(disk.files), target)
    ensures old(disk.faults) <= disk.faults
    ensures disk.faults == old(disk.faults) && tmp !in old(disk.files) ==>
              ready && previous.Some? == (backups > 0 && target in old(disk.files))
  {
    previous := None;
    var directory := disk.Try();
    if !directory {
      return false, None;
    }
    ready := disk.Write(tmp, contents);
    if !ready {
      var _ := disk.RemoveIfPresent(tmp);
    } else if backups > 0 {
      previous := CopyAside(disk, target, copy);
    }
  }

  /** The rename was done, nothing else yet. */
  ghost predicate JustRenamed(a: Files, b: Files, target: Name, contents: Contents) {
    && Find(b, target) == Some(contents)
    && forall n: Name :: !n.Temp? && n != target ==> Find(b, n) == Find(a, n)
  }

  lemma RotatedIsShifted(a: Files, b: Files, c: Files, path: Name, target: Name, contents: Contents,
                         backups: nat, copy: Name)
    requires Separate(path, target, backups) && JustRenamed(a, b, target, contents)
    requires Find(b, copy) == Find(a, target) && Rotated(b, c, path, backups, copy)
    ensures Shifted(a, c, path, target, backups)
  {
  }

  lemma PartlyRotatedMoved(a: Files, b: Files, c: Files, path: Name, target: Name, contents: Contents,
                           backups: nat, copy: Name, k: nat)
    requires Separate(path, target, backups) && JustRenamed(a, b, target, contents)
    requires PartlyRotated(b, c, path, backups, copy, k)
    ensures MovedPast(a, c, path, backups, k)
  {
  }

  /** After the rename, a rotation leads from safe states to safe states. */
  lemma RotatingIsSafe(a: Files, b: Files, c: Files, path: Name, target: Name, contents: Contents,
                       backups: nat, copy: Name)
    requires copy.Temp? && !target.Temp? && target in a && Separate(path, target, backups)
    requires JustRenamed(a, b, target, contents) && Find(b, copy) == Find(a, target)
    requires Rotating(b, c, path, backups, copy)
    ensures Replaced(a, c, path, target, contents, backups) && Held(a, c, path, target, copy)
  {
    if Rotated(b, c, path, backups, copy) {
      RotatedIsShifted(a, b, c, path, target, contents, backups, copy);
    } else if c != b {
      var k :| PartlyRotated(b, c, path, backups, copy, k);
      PartlyRotatedMoved(a, b, c, path, target, contents, backups, copy, k);
    }
  }

  /** What the target is after a save and a full rotation: a target that is one of its own backups
      is moved away, and the version that was there, or the backup before it, takes its place. */
  function EndsAs(a: Files, path: Name, target: Name, contents: Contents, backups: nat): Option<Contents> {
    if Separate(path, target, backups) || target !in a then Some(contents)
    else if target.index == 1 then Find(a, target)
    else Find(a, Backup(path, target.index - 1))
  }

  /** A file that is neither the target, nor a backup of it, nor one of the two temporary ones is as it
      was. */
  ghost predicate OthersKept(a: Files, b: Files, path: Name, target: Name, backups: nat, tmp: Name, copy: Name) {
    forall n: Name :: n != target && n != tmp && n != copy && !Numbered(n, path, backups) ==> Find(b, n) == Find(a, n)
  }

  /** Everything but the two temporary files is as it was. */
  ghost predicate OnlyTemps(a: Files, b: Files, tmp: Name, copy: Name) {
    forall n: Name :: n != tmp && n != copy ==> Find(b, n) == Find(a, n)
  }

  /** What a save promises: see `Save`. */
  ghost predicate Kept(a: Files, b: Files, before: seq<Files>, after: seq<Files>, path: Name, target: Name,
                       contents: Contents, backups: nat, tmp: Name, copy: Name, renamed: bool, trouble: bool) {
    && Grew(before, after) && OthersKept(a, b, path, target, backups, tmp, copy)
    && (forall j :: |before| <= j < |after| ==> OthersKept(a, after[j], path, target, backups, tmp, copy))
    && (!renamed ==> Untouched(a, b))
    && (renamed && !trouble ==> Find(b, target) == EndsAs(a, path, target, contents, backups))
    && (renamed && !trouble && target in a && !Separate(path, target, backups) ==> GoneIn(target, after, |before|))
    && (Separate(path, target, backups) ==>
          && (renamed ==> Replaced(a, b, path, target, contents, backups))
          && (renamed && !trouble ==> Saved(a, b, path, target, contents, backups))
          && (forall j :: |before| <= j < |after| ==> Safe(a, after[j], path, target, contents, backups))
          && (!trouble && backups > 0 && target in a ==>
                forall j :: |before| <= j < |after| ==> Held(a, after[j], path, target, copy)))
  }

  /** Replaces the target. `renamed` says whether the rename was done, and `trouble` whether the
      current file could not be read, or the backups not be made or rotated. */
  method Save(disk: Disk, path: Name, target: Name, contents: Contents, backups: nat, n: nat)
    returns (r: Outcome, ghost renamed: bool, ghost trouble: bool)
    requires !target.Temp?
    modifies disk
    ensures r == Unchanged ==> !renamed && Find(old(disk.files), target) == Some(contents)
    ensures r == Written ==> renamed
    ensures renamed && !trouble ==> Find(old(disk.files), target) != Some(contents)
    ensures renamed && !trouble ==>
              (Find(disk.files, target) == Some(contents) <==> Lands(old(disk.files), path, target, contents, backups))
    ensures renamed && !trouble && target in old(disk.files) ==>
              (Separate(path, target, backups) <==>
               forall j :: |old(disk.seen)| <= j < |disk.seen| ==>
                 Safe(old(disk.files), disk.seen[j], path, target, contents, backups))
    ensures Kept(old(disk.files), disk.files, old(disk.seen), disk.seen, path, target, contents, backups,
                 Temp(n), Temp(n + 1), renamed, trouble)
    ensures old(disk.faults) <= disk.faults
    ensures disk.faults == old(disk.faults) && Temp(n) !in old(disk.files) ==>
              !trouble && r == if Find(old(disk.files), target) == Some(contents) then Unchanged else Written
  {
    renamed, trouble := false, false;
    var current := disk.Read(target);
    if current == Some(contents) {
      return Unchanged, false, false;
    }
    ghost var a, s, unread := disk.files, disk.seen, current != Find(disk.files, target);
    var tmp, copy := Temp(n), Temp(n + 1);
    var ready, previous := Prepare(disk, target, contents, backups, tmp, copy);
    if !ready {
      return Failed, false, unread;
    }
    r, renamed, trouble := Commit(disk, a, s, path, target, contents, backups, tmp, copy, previous);
    trouble := trouble || unread;
    if renamed && !trouble && target in a && !Separate(path, target, backups) {
      GoneIsUnsafe(a, disk.seen, |s|, path, target, contents, backups);
    }
  }

  /** The target isn't one of its own backups, or wasn't there, or is a later backup and the one
      before it has the new contents. */
  predicate Lands(a: Files, path: Name, target: Name, contents: Contents, backups: nat) {
    || Separate(path, target, backups)
    || target !in a
    || (target.index >= 2 && Find(a, Backup(path, target.index - 1)) == Some(contents))
  }

  lemma GoneIsUnsafe(a: Files, seen: seq<Files>, from: nat, path: Name, target: Name, contents: Contents, backups: nat)
    requires target in a && !target.Temp? && GoneIn(target, seen, from)
    ensures exists j :: from <= j < |seen| && !Safe(a, seen[j], path, target, contents, backups)
  {
    var j :| from <= j < |seen| && target !in seen[j];
    assert Find(seen[j], target) != Find(a, target);
  }

  /** The rename, and what follows it. */
  method Commit(disk: Disk, ghost a: Files, ghost s: seq<Files>, path: Name, target: Name, contents: Contents,
                backups: nat, tmp: Name, copy: Name, previous: Option<Name>)
    returns (r: Outcome, ghost renamed: bool, ghost trouble: bool)
    requires tmp.Temp? && copy.Temp? && tmp != copy && !target.Temp?
    requires OnlyTemps(a, disk.files, tmp, copy) && Find(disk.files, tmp) == Some(contents)
    requires previous == None || (previous == Some(copy) && backups > 0 && target in a)
    requires previous == Some(copy) ==> Find(disk.files, copy) == Find(a, target)
    requires Grew(s, disk.seen) && forall j :: |s| <= j < |disk.seen| ==> OnlyTemps(a, disk.seen[j], tmp, copy)
    modifies disk
    ensures r != Unchanged && (r == Written ==> renamed)
    ensures Kept(a, disk.files, s, disk.seen, path, target, contents, backups, tmp, copy, renamed, trouble)
    ensures old(disk.faults) <= disk.faults
    ensures disk.faults == old(disk.faults) && previous.Some? == (backups > 0 && target in a) ==> r == Written && !trouble
  {
    trouble := false;
    var done := disk.Rename(tmp, target);
    renamed := done;
    if !done {
      GiveUp(disk, a, s, tmp, copy, previous);
      GivenUpIsKept(a, disk.files, s, disk.seen, path, target, contents, backups, tmp, copy);
      return Failed, false, false;
    }
    trouble := Finish(disk, a, s, path, target, contents, backups, tmp, copy, previous);
    var synced := disk.Try();
    r := if synced then Written else Failed;
  }

  lemma GivenUpIsKept(a: Files, b: Files, s: seq<Files>, u: seq<Files>, path: Name, target: Name, contents: Contents,
                      backups: nat, tmp: Name, copy: Name)
    requires tmp.Temp? && copy.Temp? && !target.Temp? && OnlyTemps(a, b, tmp, copy) && Grew(s, u)
    requires forall j :: |s| <= j < |u| ==> OnlyTemps(a, u[j], tmp, copy)
    ensures Kept(a, b, s, u, path, target, contents, backups, tmp, copy, false, false)
  {
    forall j | |s| <= j < |u|
      ensures Untouched(a, u[j]) && OthersKept(a, u[j], path, target, backups, tmp, copy)
    {
    }
  }

  /** What follows the rename: the backups, if there is a copy of the version before. */
  method Finish(disk: Disk, ghost a: Files, ghost s: seq<Files>, path: Name, target: Name, contents: Contents,
                backups: nat, ghost tmp: Name, copy: Name, previous: Option<Name>) returns (ghost trouble: bool)
    requires tmp.Temp? && copy.Temp? && tmp != copy && !target.Temp?
    requires JustRenamed(a, disk.files, target, contents) && OthersKept(a, disk.files, path, target, backups, tmp, copy)
    requires previous == None || (previous == Some(copy) && backups > 0 && target in a)
    requires previous == Some(copy) ==> Find(disk.files, copy) == Find(a, target)
    requires |s| < |disk.seen| && Grew(s, disk.seen) && disk.seen[|disk.seen| - 1] == disk.files
    requires forall j :: |s| <= j < |disk.seen| - 1 ==> OnlyTemps(a, disk.seen[j], tmp, copy)
    modifies disk
    ensures Kept(a, disk.files, s, disk.seen, path, target, contents, backups, tmp, copy, true, trouble)
    ensures old(disk.faults) <= disk.faults
    ensures disk.faults == old(disk.faults) && previous.Some? == (backups > 0 && target in a) ==> !trouble
  {
    ghost var b, t := disk.files, disk.seen;
    RenamedIsSafe(a, b, path, target, contents, backups, copy);
    forall j | |s| <= j < |t|
      ensures OthersKept(a, t[j], path, target, backups, tmp, copy)
      ensures Separate(path, target, backups) ==> Safe(a, t[j], path, target, contents, backups)
      ensures target in a && Find(b, copy) == Find(a, target) ==> Held(a, t[j], path, target, copy)
    {
      assert t[j] == b || OnlyTemps(a, t[j], tmp, copy);
    }
    if previous.Some? {
      trouble := FinishBackups(disk, a, path, target, contents, tmp, copy, backups);
      FinishedIsKept(a, disk.files, s, t, disk.seen, path, target, contents, backups, tmp, copy, trouble);
    } else {
      trouble := backups > 0 && target in a;
    }
  }

  method GiveUp(disk: Disk, ghost a: Files, ghost s: seq<Files>, tmp: Name, copy: Name, previous: Option<Name>)
    requires tmp.Temp? && copy.Temp? && OnlyTemps(a, disk.files, tmp, copy)
    requires Grew(s, disk.seen) && forall j :: |s| <= j < |disk.seen| ==> OnlyTemps(a, disk.seen[j], tmp, copy)
    modifies disk
    ensures OnlyTemps(a, disk.files, tmp, copy)
    ensures Grew(s, disk.seen) && forall j :: |s| <= j < |disk.seen| ==> OnlyTemps(a, disk.seen[j], tmp, copy)
    ensures old(disk.faults) <= disk.faults
  {
    var _ := disk.RemoveIfPresent(tmp);
    if previous.Some? {
      var _ := disk.RemoveIfPresent(copy);
    }
  }

  lemma RenamedIsSafe(a: Files, b: Files, path: Name, target: Name, contents: Contents, backups: nat,
                      copy: Name)
    requires JustRenamed(a, b, target, contents)
    ensures Separate(path, target, backups) ==> Replaced(a, b, path, target, contents, backups)
  {
  }

  lemma FinishedIsKept(a: Files, b: Files, s: seq<Files>, t: seq<Files>, u: seq<Files>, path: Name,
                       target: Name, contents: Contents, backups: nat, tmp: Name, copy: Name, trouble: bool)
    requires backups > 0 && target in a && Grew(s, t) && Grew(t, u) && OthersKept(a, b, path, target, backups, tmp, copy)
    requires forall j :: |s| <= j < |t| ==> OthersKept(a, t[j], path, target, backups, tmp, copy)
    requires forall j :: |t| <= j < |u| ==> OthersKept(a, u[j], path, target, backups, tmp, copy)
    requires !trouble ==> Find(b, target) == EndsAs(a, path, target, contents, backups)
    requires !trouble && !Separate(path, target, backups) ==> GoneIn(target, u, |t|)
    requires Separate(path, target, backups) ==>
               && Replaced(a, b, path, target, contents, backups)
               && (!trouble ==> Shifted(a, b, path, target, backups))
               && (forall j :: |t| <= j < |u| ==> Replaced(a, u[j], path, target, contents, backups))
               && (!trouble ==> forall j :: |t| <= j < |u| ==> Held(a, u[j], path, target, copy))
               && (forall j :: |s| <= j < |t| ==> Safe(a, t[j], path, target, contents, backups))
               && (forall j :: |s| <= j < |t| ==> Held(a, t[j], path, target, copy))
    ensures Kept(a, b, s, u, path, target, contents, backups, tmp, copy, true, trouble)
  {
    forall j | |s| <= j < |t|
      ensures u[j] == t[j]
    {
    }
    if GoneIn(target, u, |t|) {
      var j :| |t| <= j < |u| && target !in u[j];
    }
  }

  /** Rotates the backups; when that fails the copy is thrown away. */
  method FinishBackups(disk: Disk, ghost a: Files, path: Name, target: Name, contents: Contents, ghost tmp: Name,
                       copy: Name, backups: nat) returns (ghost trouble: bool)
    requires backups > 0 && copy.Temp? && !target.Temp? && target in a
    requires OthersKept(a, disk.files, path, target, backups, tmp, copy)
    requires JustRenamed(a, disk.files, target, contents) && Find(disk.files, copy) == Find(a, target)
    modifies disk
    ensures Separate(path, target, backups) ==> Replaced(a, disk.files, path, target, contents, backups)
    ensures Separate(path, target, backups) && !trouble ==> Shifted(a, disk.files, path, target, backups)
    ensures !trouble ==> Find(disk.files, target) == EndsAs(a, path, target, contents, backups)
    ensures !trouble && !Separate(path, target, backups) ==> GoneIn(target, disk.seen, |old(disk.seen)|)
    ensures OthersKept(a, disk.files, path, target, backups, tmp, copy)
    ensures forall j :: |old(disk.seen)| <= j < |disk.seen| ==> OthersKept(a, disk.seen[j], path, target, backups, tmp, copy)
    ensures old(disk.faults) <= disk.faults && (disk.faults == old(disk.faults) ==> !trouble)
    ensures Grew(old(disk.seen), disk.seen)
    ensures Separate(path, target, backups) ==>
              forall j :: |old(disk.seen)| <= j < |disk.seen| ==>
                Replaced(a, disk.seen[j], path, target, contents, backups)
    ensures Separate(path, target, backups) && !trouble ==>
              forall j :: |old(disk.seen)| <= j < |disk.seen| ==> Held(a, disk.seen[j], path, target, copy)
  {
    ghost var b := disk.files;
    var rotated := RotateBackups(disk, path, copy, backups);
    trouble := !rotated;
    if Separate(path, target, backups) {
      RotatingIsSafe(a, b, disk.files, path, target, contents, backups, copy);
      forall j | |old(disk.seen)| <= j < |disk.seen|
        ensures Replaced(a, disk.seen[j], path, target, contents, backups)
        ensures Held(a, disk.seen[j], path, target, copy)
      {
        RotatingIsSafe(a, b, disk.seen[j], path, target, contents, backups, copy);
      }
      if rotated {
        RotatedIsShifted(a, b, disk.files, path, target, contents, backups, copy);
      }
    }
    if rotated {
      RotatedEndsAs(a, b, disk.files, path, target, contents, backups, copy);
    }
    if !rotated {
      ghost var c := disk.files;
      var _ := disk.RemoveIfPresent(copy);
      if Separate(path, target, backups) {
        WithoutTheCopy(a, c, disk.files, path, target, contents, backups, copy);
      }
    }
  }

  lemma WithoutTheCopy(a: Files, b: Files, c: Files, path: Name, target: Name, contents: Contents,
                       backups: nat, copy: Name)
    requires copy.Temp? && !target.Temp? && Only(b, c, copy)
    requires Replaced(a, b, path, target, contents, backups)
    ensures Replaced(a, c, path, target, contents, backups)
  {
    if exists k :: MovedPast(a, b, path, backups, k) {
      var k :| MovedPast(a, b, path, backups, k);
      assert MovedPast(a, c, path, backups, k);
    }
  }

  /** A save that went well. */
  ghost predicate Saved(a: Files, b: Files, path: Name, target: Name, contents: Contents, backups: nat) {
    && Find(b, target) == Some(contents)
    && if backups == 0 || target !in a
       then forall i: nat :: 1 <= i <= backups ==> Find(b, Backup(path, i)) == Find(a, Backup(path, i))
       else Shifted(a, b, path, target, backups)
  }

  // ---- A target that is one of its own backups ----------------------------------------------

  /** When `path` is a link to one of its own numbered backups, the rotation moves the new version
      away. */
  lemma RotatedEndsAs(a: Files, b: Files, c: Files, path: Name, target: Name, contents: Contents,
                      backups: nat, copy: Name)
    requires !target.Temp? && copy.Temp? && target in a
    requires JustRenamed(a, b, target, contents) && Find(b, copy) == Find(a, target)
    requires Rotated(b, c, path, backups, copy) && OnlyBackups(b, c, path, backups, copy)
    ensures Find(c, target) == EndsAs(a, path, target, contents, backups)
  {
    if !Separate(path, target, backups) && target.index >= 2 {
      assert Find(c, Backup(path, target.index)) == Find(b, Backup(path, target.index - 1));
    }
  }

  /** For example: a link to its first backup. If the save goes well the old version is back, and a
      stop on the way could have left no file at all. */
  method OwnBackupComesBack(disk: Disk, path: Name) returns (r: Outcome, ghost renamed: bool, ghost trouble: bool)
    requires disk.files == map[Backup(path, 1) := [1]]
    modifies disk
    ensures renamed && !trouble ==> Find(disk.files, Backup(path, 1)) == Some([1])
    ensures renamed && !trouble ==> GoneIn(Backup(path, 1), disk.seen, |old(disk.seen)|)
  {
    r, renamed, trouble := Save(disk, path, Backup(path, 1), [2], 5, 0);
  }

  // ---- A run of saves -----------------------------------------------------------------------

  /** A save without trouble: nothing for the same contents, else a new version. */
  ghost predicate SaveStep(a: Files, b: Files, path: Name, target: Name, contents: Contents, backups: nat) {
    if Find(a, target) == Some(contents) then Untouched(a, b)
    else
      && Saved(a, b, path, target, contents, backups)
      && forall n: Name :: !n.Temp? && n != target && !Numbered(n, path, backups) ==> Find(b, n) == Find(a, n)
  }

  lemma GoodSaveIsAStep(a: Files, b: Files, s: seq<Files>, t: seq<Files>, path: Name, target: Name,
                        contents: Contents, backups: nat, tmp: Name, copy: Name, r: Outcome, renamed: bool)
    requires Separate(path, target, backups)
    requires Kept(a, b, s, t, path, target, contents, backups, tmp, copy, renamed, false)
    requires r == Unchanged ==> !renamed && Find(a, target) == Some(contents)
    requires renamed ==> Find(a, target) != Some(contents)
    requires r == Unchanged || renamed
    ensures SaveStep(a, b, path, target, contents, backups)
  {
  }

  /** The versions that a run of saves leaves, oldest first: saving the same again adds none. */
  function Versions(saves: seq<Contents>): seq<Contents> {
    if saves == [] then []
    else
      var before := Versions(saves[..|saves| - 1]);
      if before != [] && before[|before| - 1] == saves[|saves| - 1] then before
      else before + [saves[|saves| - 1]]
  }

  /** The target is the last version, and backup i the i-th before it; there are no others. */
  ghost predicate Remembers(files: Files, versions: seq<Contents>, path: Name, target: Name, backups: nat) {
    && Find(files, target) == (if versions == [] then None else Some(versions[|versions| - 1]))
    && forall i: nat :: 1 <= i && Backup(path, i) != target ==>
         Find(files, Backup(path, i)) ==
         if i <= backups && i < |versions| then Some(versions[|versions| - 1 - i]) else None
  }

  lemma SaveIsRemembered(a: Files, b: Files, versions: seq<Contents>, path: Name, target: Name,
                         contents: Contents, backups: nat)
    requires !target.Temp? && Separate(path, target, backups)
    requires Remembers(a, versions, path, target, backups)
    requires SaveStep(a, b, path, target, contents, backups)
    ensures Remembers(b, if versions != [] && versions[|versions| - 1] == contents then versions
                         else versions + [contents], path, target, backups)
  {
    if !(versions != [] && versions[|versions| - 1] == contents) {
      var more := versions + [contents];
      forall i: nat | 1 <= i && Backup(path, i) != target
        ensures Find(b, Backup(path, i)) ==
                if i <= backups && i < |more| then Some(more[|more| - 1 - i]) else None
      {
        if 2 <= i <= backups && versions != [] {
          assert Find(b, Backup(path, i)) == Find(a, Backup(path, i - 1));
        }
      }
    }
  }

  /** Over any run of saves that starts from no file, backup i is the i-th previous distinct
      version, and there is none beyond the number kept. */
  lemma {:induction false} RunIsRemembered(states: seq<Files>, saves: seq<Contents>, path: Name,
                                           target: Name, backups: nat)
    requires !target.Temp? && Separate(path, target, backups) && |states| == |saves| + 1
    requires Remembers(states[0], [], path, target, backups)
    requires forall i :: 0 <= i < |saves| ==>
               SaveStep(states[i], states[i + 1], path, target, saves[i], backups)
    ensures Remembers(states[|saves|], Versions(saves), path, target, backups)
  {
    if saves != [] {
      var n := |saves| - 1;
      RunIsRemembered(states[..n + 1], saves[..n], path, target, backups);
      SaveIsRemembered(states[n], states[n + 1], Versions(saves[..n]), path, target, saves[n], backups);
    }
  }

  /** Saves one version after the other. If no call fails, from no file on, the target is the last
      version and backup i the i-th distinct one before it. */
  method SaveAll(disk: Disk, path: Name, target: Name, saves: seq<Contents>, backups: nat, n: nat)
      returns (ghost good: bool)
    requires !target.Temp? && Separate(path, target, backups) && Remembers(disk.files, [], path, target, backups)
    modifies disk
    ensures good ==> Remembers(disk.files, Versions(saves), path, target, backups)
    ensures old(disk.faults) <= disk.faults
    ensures disk.faults == old(disk.faults) && (forall m :: m >= n ==> Temp(m) !in old(disk.files)) ==> good
  {
    ghost var a := disk.files;
    ghost var states := [a];
    good := true;
    for i := 0 to |saves|
      invariant |states| == i + 1 && states[0] == a && states[i] == disk.files && old(disk.faults) <= disk.faults
      invariant good ==> forall j :: 0 <= j < i ==> SaveStep(states[j], states[j + 1], path, target, saves[j], backups)
      invariant disk.faults == old(disk.faults) && (forall m :: m >= n ==> Temp(m) !in a) ==>
                  good && forall m :: m >= n + 2 * i ==> Temp(m) !in disk.files
    {
      ghost var step := SaveNext(disk, path, target, saves[i], backups, n + 2 * i);
      good := good && step;
      states := states + [disk.files];
    }
    if good {
      RunIsRemembered(states, saves, path, target, backups);
    }
  }

  method SaveNext(disk: Disk, path: Name, target: Name, contents: Contents, backups: nat, n: nat)
      returns (ghost good: bool)
    requires !target.Temp? && Separate(path, target, backups)
    modifies disk
    ensures good ==> SaveStep(old(disk.files), disk.files, path, target, contents, backups)
    ensures old(disk.faults) <= disk.faults
    ensures disk.faults == old(disk.faults) && Temp(n) !in old(disk.files) ==> good
    ensures forall m :: m != n && m != n + 1 && Temp(m) !in old(disk.files) ==> Temp(m) !in disk.files
  {
    ghost var a, s := disk.files, disk.seen;
    ghost var renamed, trouble;
    var r;
    r, renamed, trouble := Save(disk, path, target, contents, backups, n);
    good := !trouble && (r == Unchanged || renamed);
    if good {
      GoodSaveIsAStep(a, disk.files, s, disk.seen, path, target, contents, backups, Temp(n), Temp(n + 1), r, renamed);
    }
    forall m | m != n && m != n + 1 && Temp(m) !in a
      ensures Temp(m) !in disk.files
    {
      assert Find(disk.files, Temp(m)) == Find(a, Temp(m));
    }
  }

  // ---- Runs with failures and crashes -------------------------------------------------------

  /** The target is the last of the versions, every backup one before it, and of two backups the one
      with the higher number is older; `ages` says which version each is. */
  ghost predicate Aged(files: Files, versions: seq<Contents>, ages: map<nat, nat>, path: Name, target: Name, backups: nat) {
    && Find(files, target) == (if versions == [] then None else Some(versions[|versions| - 1]))
    && (forall i: nat :: 1 <= i <= backups && Backup(path, i) in files ==>
          i in ages && ages[i] + 1 < |versions| && files[Backup(path, i)] == versions[ages[i]])
    && (forall i: nat, j: nat :: 1 <= i < j <= backups && Backup(path, i) in files && Backup(path, j) in files ==>
          ages[j] < ages[i])
  }

  ghost predicate InOrder(files: Files, versions: seq<Contents>, path: Name, target: Name, backups: nat) {
    exists ages :: Aged(files, versions, ages, path, target, backups)
  }

  function AgeAt(ages: map<nat, nat>, i: nat): nat { if i in ages then ages[i] else 0 }

  function MovedAge(ages: map<nat, nat>, k: nat, i: nat): nat { AgeAt(ages, if i <= k || i == 0 then i else i - 1) }

  function ShiftedAge(ages: map<nat, nat>, versions: nat, i: nat): nat {
    if i <= 1 then (if versions == 0 then 0 else versions - 1) else AgeAt(ages, i - 1)
  }

  lemma UntouchedStaysAged(a: Files, b: Files, versions: seq<Contents>, ages: map<nat, nat>, path: Name, target: Name,
                           backups: nat)
    requires Aged(a, versions, ages, path, target, backups) && !target.Temp? && Untouched(a, b)
    ensures Aged(b, versions, ages, path, target, backups)
  {
    forall i: nat
      ensures Find(b, Backup(path, i)) == Find(a, Backup(path, i))
    {
    }
  }

  lemma MovedStaysAged(a: Files, b: Files, versions: seq<Contents>, ages: map<nat, nat>, path: Name, target: Name,
                       contents: Contents, backups: nat, k: nat)
    requires Aged(a, versions, ages, path, target, backups) && MovedPast(a, b, path, backups, k)
    requires Find(b, target) == Some(contents)
    ensures InOrder(b, versions + [contents], path, target, backups)
  {
    var moved: map<nat, nat> := map i: nat | 1 <= i <= backups :: MovedAge(ages, k, i);
    forall i: nat | 1 <= i <= backups && Backup(path, i) in b
      ensures var o := if i <= k then i else i - 1; 1 <= o && Backup(path, o) in a && Find(b, Backup(path, i)) == Find(a, Backup(path, o))
    {
      assert i != k + 1;
    }
    assert Aged(b, versions + [contents], moved, path, target, backups);
  }

  lemma ShiftedStaysAged(a: Files, b: Files, versions: seq<Contents>, ages: map<nat, nat>, path: Name, target: Name,
                         contents: Contents, backups: nat)
    requires Aged(a, versions, ages, path, target, backups) && Shifted(a, b, path, target, backups)
    requires Find(b, target) == Some(contents)
    ensures InOrder(b, versions + [contents], path, target, backups)
  {
    var moved: map<nat, nat> := map i: nat | 1 <= i <= backups :: ShiftedAge(ages, |versions|, i);
    forall i: nat | 2 <= i <= backups && Backup(path, i) in b
      ensures Backup(path, i - 1) in a && Find(b, Backup(path, i)) == Find(a, Backup(path, i - 1))
    {
    }
    assert Aged(b, versions + [contents], moved, path, target, backups);
  }

  /** Whatever a save leaves behind, by success, failure or a crash at any step: the backups are still
      earlier versions in order of age. */
  lemma SafeStaysInOrder(a: Files, b: Files, versions: seq<Contents>, path: Name, target: Name, contents: Contents,
                         backups: nat)
    requires !target.Temp? && Separate(path, target, backups) && InOrder(a, versions, path, target, backups)
    requires Safe(a, b, path, target, contents, backups)
    ensures InOrder(b, versions, path, target, backups) || InOrder(b, versions + [contents], path, target, backups)
  {
    var ages :| Aged(a, versions, ages, path, target, backups);
    if Untouched(a, b) {
      UntouchedStaysAged(a, b, versions, ages, path, target, backups);
    } else if k :| MovedPast(a, b, path, backups, k) {
      MovedStaysAged(a, b, versions, ages, path, target, contents, backups, k);
    } else if Shifted(a, b, path, target, backups) {
      ShiftedStaysAged(a, b, versions, ages, path, target, contents, backups);
    } else {
      assert forall i: nat :: 1 <= i <= backups ==> Find(b, Backup(path, i)) == Find(a, Backup(path, i));
      assert Aged(b, versions + [contents], ages, path, target, backups);
    }
  }

  /** Some of these, in the order they came. */
  predicate Among(some: seq<Contents>, all: seq<Contents>) {
    if all == [] then some == []
    else
      var before := all[..|all| - 1];
      || Among(some, before)
      || (some != [] && some[|some| - 1] == all[|all| - 1] && Among(some[..|some| - 1], before))
  }

  /** Over any run of saves, each of which may have failed or been cut short at any step, the backups
      read from the first up are versions that were saved, ever older ones. */
  lemma {:induction false} RunStaysInOrder(states: seq<Files>, saves: seq<Contents>, path: Name, target: Name, backups: nat)
      returns (versions: seq<Contents>)
    requires !target.Temp? && Separate(path, target, backups) && |states| == |saves| + 1
    requires InOrder(states[0], [], path, target, backups)
    requires forall i :: 0 <= i < |saves| ==> Safe(states[i], states[i + 1], path, target, saves[i], backups)
    ensures InOrder(states[|saves|], versions, path, target, backups) && Among(versions, saves)
  {
    versions := [];
    if saves != [] {
      var n := |saves| - 1;
      versions := RunStaysInOrder(states[..n + 1], saves[..n], path, target, backups);
      assert states[..n + 1][n] == states[n];
      SafeStaysInOrder(states[n], states[n + 1], versions, path, target, saves[n], backups);
      if !InOrder(states[n + 1], versions, path, target, backups) {
        assert (versions + [saves[n]])[..|versions|] == versions;
        versions := versions + [saves[n]];
      }
    }
  }

  /** Saves whatever comes, going on after failures; `versions` are those that got through. */
  method SaveOn(disk: Disk, path: Name, target: Name, saves: seq<Contents>, backups: nat, n: nat)
      returns (ghost versions: seq<Contents>)
    requires !target.Temp? && Separate(path, target, backups) && InOrder(disk.files, [], path, target, backups)
    modifies disk
    ensures InOrder(disk.files, versions, path, target, backups) && Among(versions, saves)
  {
    ghost var states := [disk.files];
    for i := 0 to |saves|
      invariant |states| == i + 1 && states[i] == disk.files && InOrder(states[0], [], path, target, backups)
      invariant forall j :: 0 <= j < i ==> Safe(states[j], states[j + 1], path, target, saves[j], backups)
    {
      ghost var renamed, trouble;
      var r;
      r, renamed, trouble := Save(disk, path, target, saves[i], backups, n + 2 * i);
      states := states + [disk.files];
    }
    versions := RunStaysInOrder(states, saves, path, target, backups);
  }
}
