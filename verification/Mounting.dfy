/** The mount and unmount operations of the driver on a node. */
module Mounting {
  import opened Host

  const DATA_ROOT := "/var/lib/ibmc-s3fs"

  /** `hash` stands for the 64 hex digits of SHA-256. */
  function DataPath(hash: string -> string, dir: string): string {
    DATA_ROOT + "/" + hash(dir)
  }

  // ---------------------------------------------------------------- operations on nodes

  /** Detach, and force if that fails on what is known to be a mount point; a failing detach
      is forgiven when the mount check itself failed. */
  function DetachIfNeeded(n: Node, p: string): (Node, bool) {
    var (checked, c) := CheckMount(n);
    if !c.isMount && !c.failed then (checked, true)
    else
      var (detached, ok) := Umount(checked, p);
      if ok || c.failed then (detached, true) else Umount(detached, p)
  }

  function UnmountPath(n: Node, p: string, delete: bool): (Node, bool) {
    var (seen, found, err) := PathExists(n, p);
    if !found then (seen, !err)
    else
      var (detached, ok) := DetachIfNeeded(seen, p);
      if !ok then (detached, false)
      else if delete then RemoveAll(detached, p)
      else (detached, true)
  }

  /** How far a mount got. The two last failures run the deferred cleanup. */
  datatype Stage = NotStarted | TargetFailed | ClearFailed | DataDirFailed | TmpfsFailed
                 | PasswordFailed(cleaned: bool) | S3fsFailed(cleaned: bool) | Mounted

  function EnsureTarget(n: Node, dir: string): (Node, bool) {
    var (seen, present, err) := Stat(n, dir);
    if present || err then (seen, !err) else MkdirAll(seen, dir)
  }

  function CreateEmptyMountpoint(n: Node, p: string): (Node, Stage) {
    var (cleared, ok) := UnmountPath(n, p, true);
    if !ok then (cleared, ClearFailed)
    else
      var (made, dirOk) := MkdirAll(cleared, p);
      if !dirOk then (made, DataDirFailed)
      else
        var (mounted, tmpfsOk) := MountOn(made, p);
        (mounted, if tmpfsOk then Mounted else TmpfsFailed)
  }

  function FillAndStart(n: Node, p: string, dir: string): (Node, Stage) {
    var (written, ok) := WritePassword(n, p);
    if !ok then
      var (cleaned, done) := UnmountPath(written, p, true);
      (cleaned, PasswordFailed(done))
    else
      var (started, running) := MountOn(written, dir);
      if running then (started, Mounted)
      else
        var (cleaned, done) := UnmountPath(started, p, true);
        (cleaned, S3fsFailed(done))
  }

  /** Mounting `dir` once the options were accepted and the bucket was found. */
  function MountEffect(n: Node, p: string, dir: string): (Node, Stage) {
    var (ready, targetOk) := EnsureTarget(n, dir);
    if !targetOk then (ready, TargetFailed)
    else
      var (empty, stage) := CreateEmptyMountpoint(ready, p);
      if stage != Mounted then (empty, stage) else FillAndStart(empty, p, dir)
  }

  function UnmountEffect(n: Node, p: string, dir: string): (Node, bool) {
    var (detached, ok) := UnmountPath(n, dir, false);
    if !ok then (detached, false) else UnmountPath(detached, p, true)
  }

  // ---------------------------------------------------------------- the driver's methods

  class Mounter {
    const kernel: Kernel

    constructor (kernel: Kernel)
      ensures this.kernel == kernel
    {
      this.kernel := kernel;
    }

    method UnmountAt(mountPath: string, delete: bool) returns (ok: bool)
      modifies kernel
      ensures (kernel.node, ok) == UnmountPath(old(kernel.node), mountPath, delete)
    {
      var found, err := kernel.Exists(mountPath);
      if !found {
        if !err {
          return true;
        } else {
          return false;
        }
      }
      var check := kernel.Check();
      if check.isMount || check.failed {
        var detached := kernel.Unmount(mountPath);
        if !detached && !check.failed {
          detached := kernel.Unmount(mountPath);
          if !detached {
            return false;
          }
        }
      }
      if delete {
        var removed := kernel.Remove(mountPath);
        if !removed {
          return false;
        }
      }
      return true;
    }

    method CreateDirectoryIfNotExists(dir: string) returns (ok: bool)
      modifies kernel
      ensures (kernel.node, ok) == EnsureTarget(old(kernel.node), dir)
    {
      var present, err := kernel.StatPath(dir);
      if !err && present {
        return true;
      }
      if !err {
        ok := kernel.Mkdir(dir);
      } else {
        ok := false;
      }
    }

    method CreateEmptyMountpointAt(mountPath: string) returns (stage: Stage)
      modifies kernel
      ensures (kernel.node, stage) == CreateEmptyMountpoint(old(kernel.node), mountPath)
    {
      var cleared := UnmountAt(mountPath, true);
      if !cleared {
        return ClearFailed;
      }
      var made := kernel.Mkdir(mountPath);
      if !made {
        return DataDirFailed;
      }
      var mounted := kernel.Mount(mountPath);
      if !mounted {
        return TmpfsFailed;
      }
      return Mounted;
    }

    /** The part of the mount that comes after the checks; the deferred cleanup reads `done`. */
    method MountChecked(mountPath: string, dir: string) returns (stage: Stage)
      modifies kernel
      ensures (kernel.node, stage) == MountEffect(old(kernel.node), mountPath, dir)
    {
      var targetOk := CreateDirectoryIfNotExists(dir);
      if !targetOk {
        return TargetFailed;
      }
      stage := CreateEmptyMountpointAt(mountPath);
      if stage != Mounted {
        return;
      }
      var done := false;
      var wrote := kernel.PutPassword(mountPath);
      var started := false;
      if wrote {
        started := kernel.Mount(dir);
        if started {
          done := true;
        }
      }
      if !done {
        var cleaned := UnmountAt(mountPath, true);
        if wrote {
          return S3fsFailed(cleaned);
        } else {
          return PasswordFailed(cleaned);
        }
      }
      return Mounted;
    }

    method UnmountInternal(mountPath: string, dir: string) returns (ok: bool)
      modifies kernel
      ensures (kernel.node, ok) == UnmountEffect(old(kernel.node), mountPath, dir)
    {
      ok := UnmountAt(dir, false);
      if !ok {
        return false;
      }
      ok := UnmountAt(mountPath, true);
      if !ok {
        return false;
      }
    }
  }
}
