/** Replacing the program's own binary: backup, staging copy, rename, permissions, verification, rollback. */
module Upgrade {
  import opened Prelude

  type Path = string
  type Bytes = seq<bv8>

  datatype File = File(data: Bytes, mode: nat)

  /** The permission bits; set-user-id and the like are above them. */
  function Perm(mode: nat): nat {
    mode % 0x200
  }

  const TempMode: nat := 0x180

  type Disk = map<Path, File>

  predicate Holds(d: Disk, path: Path, f: File) {
    path in d && d[path] == f
  }

  /** Two disks agree outside some paths. */
  ghost predicate SameBut(a: Disk, b: Disk, paths: set<Path>) {
    forall q :: q !in paths ==> Get(a, q) == Get(b, q)
  }

  /** A directory tree as a map. Every operation may fail, and then changes nothing unless it says otherwise. */
  class FileSystem {
    var files: Disk
    /** The content after every change so far. */
    ghost var trace: seq<Disk>
    /** How many operations have failed, those on a file to rename or change that is not there left out. */
    ghost var faults: nat

    constructor (files: Disk)
      ensures this.files == files && trace == [files] && faults == 0
    {
      this.files, trace, faults := files, [files], 0;
    }

    method Stat(path: Path) returns (r: Option<nat>)
      modifies this`faults
      ensures r.Some? ==> path in files && r.value == files[path].mode && faults == old(faults)
      ensures r.None? ==> faults == old(faults) + 1
    {
      var works: bool := *;
      if !works || path !in files {
        faults := faults + 1;
        return None;
      }
      r := Some(files[path].mode);
    }

    /** A new empty file whose name starts with the pattern. */
    method CreateTemp(pattern: Path) returns (r: Option<Path>)
      modifies this
      ensures r.None? ==> files == old(files) && trace == old(trace) && faults == old(faults) + 1
      ensures r.Some? ==> pattern <= r.value && r.value !in old(files) && faults == old(faults) &&
                          files == old(files)[r.value := File([], TempMode)] && trace == old(trace) + [files]
    {
      var suffix: string := *;
      var works: bool := *;
      var path := pattern + suffix;
      if !works || path in files {
        faults := faults + 1;
        return None;
      }
      files := files[path := File([], TempMode)];
      trace := trace + [files];
      r := Some(path);
    }

    method Close(path: Path) returns (ok: bool)
      modifies this`faults
      ensures faults == if ok then old(faults) else old(faults) + 1
    {
      ok := *;
      if !ok {
        faults := faults + 1;
      }
    }

    method Remove(path: Path) returns (ok: bool)
      modifies this
      ensures ok ==> files == old(files) - {path} && trace == old(trace) + [files] && faults == old(faults)
      ensures !ok ==> files == old(files) && trace == old(trace) && faults == old(faults) + 1
    {
      ok := *;
      if ok {
        files := files - {path};
        trace := trace + [files];
      } else {
        faults := faults + 1;
      }
    }

    /** Atomic; replaces whatever the target was. */
    method Rename(from: Path, to: Path) returns (ok: bool)
      modifies this
      ensures ok ==>
        from in old(files) && files == (old(files) - {from})[to := old(files)[from]] && trace == old(trace) + [files] &&
                     faults == old(faults)
      ensures !ok ==> files == old(files) && trace == old(trace)
      ensures !ok ==> faults == if from in files then old(faults) + 1 else old(faults)
    {
      ok := *;
      ok := ok && from in files;
      if ok {
        files := (files - {from})[to := files[from]];
        trace := trace + [files];
      } else if from in files {
        faults := faults + 1;
      }
    }

    method Chmod(path: Path, mode: nat) returns (ok: bool)
      modifies this
      ensures ok ==> path in old(files) && trace == old(trace) + [files] && faults == old(faults)
      ensures ok ==> files == old(files)[path := old(files)[path].(mode := mode)]
      ensures !ok ==> files == old(files) && trace == old(trace)
      ensures !ok ==> faults == if path in files then old(faults) + 1 else old(faults)
    {
      ok := *;
      ok := ok && path in files;
      if ok {
        files := files[path := files[path].(mode := mode)];
        trace := trace + [files];
      } else if path in files {
        faults := faults + 1;
      }
    }

    method Read(path: Path) returns (r: Option<Bytes>)
      modifies this`faults
      ensures r.Some? ==> path in files && r.value == files[path].data && faults == old(faults)
      ensures r.None? ==> faults == old(faults) + 1
    {
      var works: bool := *;
      if !works || path !in files {
        faults := faults + 1;
        return None;
      }
      r := Some(files[path].data);
    }

    method Append(path: Path, chunk: Bytes) returns (ok: bool)
      modifies this
      ensures ok ==> path in old(files) && trace == old(trace) + [files] && faults == old(faults) &&
                     files == old(files)[path := old(files)[path].(data := old(files)[path].data + chunk)]
      ensures !ok ==> files == old(files) && trace == old(trace) && faults == old(faults) + 1
    {
      ok := *;
      ok := ok && path in files;
      if ok {
        files := files[path := files[path].(data := files[path].data + chunk)];
        trace := trace + [files];
      } else {
        faults := faults + 1;
      }
    }
  }

  // ----- What must hold at every step -------------------------------------------------------------

  /** The original binary, with its bytes and its mode, is at the target or at the backup. */
  predicate Survives(d: Disk, target: Path, backup: Path, original: File) {
    Holds(d, target, original) || Holds(d, backup, original)
  }

  /** The target is never a partial copy: it is the original or has all of the wanted bytes. */
  predicate Whole(d: Disk, target: Path, original: File, wanted: Option<Bytes>) {
    target in d && wanted.Some? ==> d[target] == original || d[target].data == wanted.value
  }

  /** From some moment on the trace only holds such disks. */
  ghost predicate SafeFrom(trace: seq<Disk>, start: nat, target: Path, backup: Path, original: File,
                           wanted: Option<Bytes>)
  {
    forall i :: start <= i < |trace| ==>
      Survives(trace[i], target, backup, original) && Whole(trace[i], target, original, wanted)
  }

  /** The bytes that are to be installed, if the new binary exists. */
  function Wanted(d: Disk, source: Path): Option<Bytes> {
    if source in d then Some(d[source].data) else None
  }

  // ----- Copying ------------------------------------------------------------------------------------

  /** The target is away, its original is at the backup, and nothing but the staging file changes. */
  ghost predicate Staging(before: Disk, now: Disk, target: Path, backup: Path, staging: Path, original: File) {
    && staging != target && staging != backup && backup != target
    && staging !in before && backup !in before
    && staging in now && target !in now && Holds(now, backup, original)
    && SameBut(before, now, {target, backup, staging})
  }

  /** Chunk by chunk into the staging file, which is left partial on an error. */
  method CopyToWriter(fs: FileSystem, source: Path, ghost before: Disk, ghost target: Path, ghost backup: Path,
                      staging: Path, ghost original: File, ghost start: nat)
    returns (ok: bool)
    requires Staging(before, fs.files, target, backup, staging, original) && fs.files[staging].data == []
    requires SafeFrom(fs.trace, start, target, backup, original, Wanted(before, source))
    modifies fs
    ensures Staging(before, fs.files, target, backup, staging, original)
    ensures SafeFrom(fs.trace, start, target, backup, original, Wanted(before, source))
    ensures old(fs.trace) <= fs.trace
    ensures ok && Wanted(before, source).Some? ==> fs.files[staging].data == Wanted(before, source).value
    ensures if ok then fs.faults == old(fs.faults) else fs.faults > old(fs.faults)
  {
    ok := false;
    var read := fs.Read(source);
    if read.None? {
      return;
    }
    var content := read.value;
    var n := 0;
    while n < |content|
      invariant n <= |content| && Staging(before, fs.files, target, backup, staging, original)
      invariant fs.files[staging].data == content[..n]
      invariant SafeFrom(fs.trace, start, target, backup, original, Wanted(before, source))
      invariant old(fs.trace) <= fs.trace && fs.faults == old(fs.faults)
      decreases |content| - n
    {
      var size: nat := *;
      var m := if 1 <= size <= |content| - n then n + size else |content|;
      var written := fs.Append(staging, content[n..m]);
      if !written {
        return;
      }
      assert content[..n] + content[n..m] == content[..m];
      n := m;
    }
    assert content[..|content|] == content;
    assert Wanted(before, source).Some? ==> Get(before, source) == Get(old(fs.files), source);
    ok := true;
  }

  // ----- Replacing the binary -------------------------------------------------------------------------

  /** The new binary is in place with the original's permissions, the original is at the backup. */
  ghost predicate Replaced(before: Disk, now: Disk, target: Path, backup: Path, staging: Path, source: Path) {
    && target in before && backup != target && backup !in before && Holds(now, backup, before[target])
    && target in now && now[target].mode == Perm(before[target].mode)
    && (source in before ==> now[target].data == before[source].data)
    && SameBut(before, now, {target, backup}) && staging !in now
  }

  /** The original is at the backup; the target is missing or has all the wanted bytes. */
  ghost predicate Stranded(before: Disk, now: Disk, target: Path, backup: Path, staging: Path, source: Path) {
    && target in before && backup != target && Holds(now, backup, before[target])
    && Whole(now, target, before[target], Wanted(before, source))
    && SameBut(before, now, {target, backup, staging})
  }

  /** Copies the new binary beside the target and renames it into place; anything may fail on the way. */
  method Install(fs: FileSystem, target: Path, source: Path, mode: nat, ghost before: Disk, ghost backup: Path,
                 ghost start: nat)
    returns (ok: bool, ghost staging: Path)
    requires target in before && backup != target && backup !in before && target !in fs.files
    requires Holds(fs.files, backup, before[target])
    requires SameBut(before, fs.files, {target, backup}) && mode == Perm(before[target].mode)
    requires SafeFrom(fs.trace, start, target, backup, before[target], Wanted(before, source))
    modifies fs
    ensures SafeFrom(fs.trace, start, target, backup, before[target], Wanted(before, source))
    ensures old(fs.trace) <= fs.trace
    ensures if ok then Replaced(before, fs.files, target, backup, staging, source)
            else Stranded(before, fs.files, target, backup, staging, source)
    ensures if ok then fs.faults == old(fs.faults) else fs.faults > old(fs.faults)
    ensures !ok && fs.faults == old(fs.faults) + 1 ==> SameBut(before, fs.files, {target, backup})
  {
    staging := backup;
    ghost var now := fs.files;
    var reserved := fs.CreateTemp(target + ".new.");
    if reserved.None? {
      return false, staging;
    }
    var path := reserved.value;
    staging := path;
    assert |path| > |target| && path != backup && Get(before, path) == Get(now, path);
    assert Staging(before, fs.files, target, backup, path, before[target]);
    ok := CopyToWriter(fs, source, before, target, backup, path, before[target], start);
    var closed := fs.Close(path);
    if !ok || !closed {
      var _ := fs.Remove(path);
      return false, staging;
    }
    ok := Swap(fs, target, path, mode, before, backup, start, Wanted(before, source));
  }

  /** The atomic rename into place, then the permissions. */
  method Swap(fs: FileSystem, target: Path, staging: Path, mode: nat, ghost before: Disk, ghost backup: Path,
              ghost start: nat, ghost wanted: Option<Bytes>)
    returns (ok: bool)
    requires target in before && Staging(before, fs.files, target, backup, staging, before[target])
    requires wanted.Some? ==> fs.files[staging].data == wanted.value
    requires SafeFrom(fs.trace, start, target, backup, before[target], wanted)
    modifies fs
    ensures SafeFrom(fs.trace, start, target, backup, before[target], wanted) && old(fs.trace) <= fs.trace
    ensures Holds(fs.files, backup, before[target]) && Whole(fs.files, target, before[target], wanted)
    ensures SameBut(before, fs.files, {target, backup, staging})
    ensures ok ==> target in fs.files && fs.files[target].mode == mode && staging !in fs.files &&
                   (wanted.Some? ==> fs.files[target].data == wanted.value)
    ensures if ok then fs.faults == old(fs.faults) else fs.faults > old(fs.faults)
    ensures !ok && fs.faults == old(fs.faults) + 1 ==> staging !in fs.files
  {
    ok := fs.Rename(staging, target);
    if !ok {
      var _ := fs.Remove(staging);
      return;
    }
    ok := fs.Chmod(target, mode);
  }

  /** backup is reserved as long as r is Some. On an error the deferred rename puts the original back; stranded
      tells that even this rename failed. */
  method ReplaceBinary(fs: FileSystem, target: Path, source: Path)
    returns (r: Option<Path>, ghost backup: Path, ghost staging: Path, ghost stranded: bool)
    modifies fs
    ensures old(fs.trace) <= fs.trace
    ensures target !in old(fs.files) ==> r.None? && fs.files == old(fs.files)
    ensures target in old(fs.files) ==>
      SafeFrom(fs.trace, old(|fs.trace|), target, backup, old(fs.files)[target], Wanted(old(fs.files), source))
    ensures r.Some? ==> r.value == backup && Replaced(old(fs.files), fs.files, target, backup, staging, source)
    ensures r.None? && !stranded ==>
      Get(fs.files, target) == Get(old(fs.files), target) && SameBut(old(fs.files), fs.files, {backup, staging})
    ensures r.None? && stranded ==> Stranded(old(fs.files), fs.files, target, backup, staging, source)
    ensures if r.Some? then fs.faults == old(fs.faults)
            else fs.faults >= old(fs.faults) + if stranded then 2 else 1
    ensures r.None? && fs.faults == old(fs.faults) + 1 ==> SameBut(old(fs.files), fs.files, {})
  {
    ghost var before, start := fs.files, |fs.trace|;
    backup, staging, stranded := target + ".bak.", target, false;
    var info := fs.Stat(target);
    if info.None? {
      return None, backup, staging, stranded;
    }
    var reserved := fs.CreateTemp(target + ".bak.");
    if reserved.None? {
      return None, backup, staging, stranded;
    }
    var path := reserved.value;
    backup, staging := path, path;
    var closed := fs.Close(path);
    if !closed {
      var _ := fs.Remove(path);
      return None, backup, staging, stranded;
    }
    var moved := fs.Rename(target, path);
    if !moved {
      var _ := fs.Remove(path);
      return None, backup, staging, stranded;
    }
    var ok;
    ok, staging := Install(fs, target, source, Perm(info.value), before, path, start);
    if ok {
      return Some(path), backup, staging, stranded;
    }
    var restored := fs.Rename(path, target);
    stranded := !restored;
    r := None;
  }

  // ----- Verification and rollback --------------------------------------------------------------------

  datatype Ending = Upgraded | ReplaceFailed | RolledBack | RollbackFailed(backup: Path)

  /** The tail of the upgrade; verified: what running the new binary reports. verifiedAt: the length of the
      trace when verification passed. If a single operation fails the replacement leaves no trace. */
  method ReplaceAndVerify(fs: FileSystem, target: Path, source: Path, verified: bool)
    returns (end: Ending, ghost backup: Path, ghost staging: Path, ghost stranded: bool, ghost verifiedAt: nat)
    requires target in fs.files
    modifies fs
    ensures old(|fs.trace|) <= verifiedAt <= |fs.trace| && old(fs.trace) <= fs.trace
    ensures SafeFrom(fs.trace[..verifiedAt], old(|fs.trace|), target, backup, old(fs.files)[target],
                     Wanted(old(fs.files), source))
    ensures !end.Upgraded? ==> verifiedAt == |fs.trace|
    ensures end.Upgraded? ==>
      verified && forall i :: verifiedAt <= i < |fs.trace| ==> Get(fs.trace[i], target) == Get(fs.files, target)
    ensures end.Upgraded? ==>
      && target in fs.files && fs.files[target].mode == Perm(old(fs.files)[target].mode)
      && (source in old(fs.files) ==> fs.files[target].data == old(fs.files)[source].data)
      && SameBut(old(fs.files), fs.files, {target, backup})
    ensures end.RolledBack? ==>
      !verified && Holds(fs.files, target, old(fs.files)[target]) && SameBut(old(fs.files), fs.files, {})
    ensures end.RollbackFailed? ==>
      !verified && end.backup == backup && Replaced(old(fs.files), fs.files, target, backup, staging, source)
    ensures end.ReplaceFailed? && !stranded ==>
      Holds(fs.files, target, old(fs.files)[target]) && SameBut(old(fs.files), fs.files, {backup, staging})
    ensures end.ReplaceFailed? && stranded ==> Stranded(old(fs.files), fs.files, target, backup, staging, source)
    ensures fs.faults == old(fs.faults) ==> end == if verified then Upgraded else RolledBack
    ensures end.RolledBack? ==> fs.faults == old(fs.faults)
    ensures end.RollbackFailed? ==> fs.faults == old(fs.faults) + 1
    ensures end.Upgraded? ==> fs.faults <= old(fs.faults) + 1
    ensures fs.faults == old(fs.faults) && end.Upgraded? ==> SameBut(old(fs.files), fs.files, {target})
    ensures fs.faults == old(fs.faults) + 1 && end.ReplaceFailed? ==> SameBut(old(fs.files), fs.files, {})
  {
    var kept;
    kept, backup, staging, stranded := ReplaceBinary(fs, target, source);
    if kept.None? {
      verifiedAt := |fs.trace|;
      assert fs.trace[..verifiedAt] == fs.trace;
      end := ReplaceFailed;
      return;
    }
    verifiedAt := |fs.trace|;
    assert fs.trace[..verifiedAt] == fs.trace;
    if !verified {
      var restored := fs.Rename(kept.value, target);
      verifiedAt := |fs.trace|;
      assert fs.trace[..verifiedAt] == fs.trace;
      end := if restored then RolledBack else RollbackFailed(kept.value);
      return;
    }
    var _ := fs.Remove(kept.value);
    end := Upgraded;
  }

  /** The new binary has the original's mode exactly if the original had permission bits only. */
  lemma ModeKept(before: Disk, now: Disk, target: Path, backup: Path, staging: Path, source: Path)
    requires Replaced(before, now, target, backup, staging, source)
    ensures now[target].mode == before[target].mode <==> before[target].mode < 0x200
  {
  }

  /** Such an input: a set-user-id binary (mode 4755) is replaced by one of mode 755; the lost bit is still on the
      backup, which a successful upgrade then removes. */
  lemma SetUserIdIsLost(before: Disk, now: Disk, target: Path, backup: Path, staging: Path, source: Path)
    requires Replaced(before, now, target, backup, staging, source) && before[target].mode == 0x9ED
    ensures now[target].mode == 0x1ED && now[backup].mode == 0x9ED
  {
  }

  /** Wherever the protocol is interrupted before verification has passed, one rename at most brings the
      original back: it is still at the target, or renaming the backup puts it there. */
  lemma Recoverable(trace: seq<Disk>, start: nat, i: nat, target: Path, backup: Path, original: File,
                    wanted: Option<Bytes>)
    requires SafeFrom(trace, start, target, backup, original, wanted) && start <= i < |trace|
    ensures var d := trace[i];
            Holds(d, target, original) ||
            (backup in d && Holds((d - {backup})[target := d[backup]], target, original))
  {
  }
}
