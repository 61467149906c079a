/** When a mount and an unmount succeed, from the node's state and the system's answers. */
module MountProgress {
  import opened Host
  import opened Mounting
  import opened MountSafety

  // ---------------------------------------------------------------- unmounting

  /** The path is what the first answer makes of it: there, as far as the driver can tell. */
  predicate Found(n: Node, p: string) {
    p != "" && (Now(n).stat.BrokenTransport? || (Now(n).stat.NoFault? && p in n.dirs))
  }

  predicate KnownAbsent(n: Node, p: string) {
    p != "" && Now(n).stat.NoFault? && p !in n.dirs
  }

  /** One of the two detaches takes a mount off, or need not: `mountpoint` failed, or said
      "not mounted". */
  predicate Detachable(n: Node, p: string) {
    var c := n.answers(n.clock + 1).check;
    c.failed || !c.isMount || (n.mounts[p] > 0 && (n.answers(n.clock + 2).ok || n.answers(n.clock + 3).ok))
  }

  /** A mount comes off: at the first try, or forced at the second if the check had worked. */
  predicate ComesOff(n: Node, p: string) {
    var c := n.answers(n.clock + 1).check;
    n.mounts[p] > 0 && (c.failed || c.isMount) && (n.answers(n.clock + 2).ok
                                                   || (!c.failed && n.answers(n.clock + 3).ok))
  }

  function Tries(n: Node, p: string): nat {
    var c := n.answers(n.clock + 1).check;
    if !c.failed && !c.isMount then 0 else if c.failed || (n.mounts[p] > 0 && n.answers(n.clock + 2).ok) then 1 else 2
  }

  /** An unmount succeeds iff the path is known to be absent, or it is found and the mount on
      it comes off where there is one. */
  lemma DetachSucceedsIff(n: Node, p: string)
    ensures UnmountPath(n, p, false).1 <==> KnownAbsent(n, p) || (Found(n, p) && Detachable(n, p))
  {
  }

  /** On a mounted path that stat finds: a failing first detach is forced, and both may fail
      only when the check itself had failed. */
  lemma MountedDetachSucceedsIff(n: Node, p: string)
    requires Found(n, p) && n.mounts[p] > 0
    ensures var c := n.answers(n.clock + 1).check;
            UnmountPath(n, p, false).1 <==>
              c.failed || !c.isMount || n.answers(n.clock + 2).ok || n.answers(n.clock + 3).ok
  {
    DetachSucceedsIff(n, p);
  }

  lemma UmountLeaves(n: Node, p: string)
    ensures var (after, ok) := Umount(n, p);
            && (ok <==> n.mounts[p] > 0 && n.answers(n.clock).ok)
            && after.dirs == n.dirs && after.answers == n.answers && after.clock == n.clock + 1
            && after.mounts == (if ok then n.mounts - multiset{p} else n.mounts)
  {
  }

  /** What an unmount leaves: the tree, one mount less or not, and the clock further on. */
  lemma DetachLeaves(n: Node, p: string)
    ensures var after := UnmountPath(n, p, false).0;
            && after.dirs == n.dirs && after.answers == n.answers
            && after.mounts == (if Found(n, p) && ComesOff(n, p) then n.mounts - multiset{p} else n.mounts)
            && after.clock == n.clock + (if p == "" then 0 else if Found(n, p) then 2 + Tries(n, p) else 1)
  {
    if Found(n, p) {
      var checked := Tick(Tick(n));
      var once := Umount(checked, p).0;
      UmountLeaves(checked, p);
      UmountLeaves(once, p);
      DetachedIs(n, p, once, Umount(once, p).0);
    }
  }

  lemma DetachedIs(n: Node, p: string, once: Node, twice: Node)
    requires Found(n, p) && once == Umount(Tick(Tick(n)), p).0 && twice == Umount(once, p).0
    ensures UnmountPath(n, p, false).0 ==
            (if Tries(n, p) == 0 then Tick(Tick(n)) else if Tries(n, p) == 1 then once else twice)
  {
  }

  /** Nothing is mounted at or below `p`, once the mount that comes off has come off. */
  ghost predicate Bare(n: Node, p: string) {
    forall q :: q in n.mounts && AtOrBelow(q, p) ==> q == p && n.mounts[p] == 1 && ComesOff(n, p)
  }

  /** What removing a path needs, answer by answer. */
  ghost predicate Removable(n: Node, p: string) {
    || KnownAbsent(n, p)
    || (Found(n, p) && Detachable(n, p) && Bare(n, p) && n.answers(n.clock + 2 + Tries(n, p)).ok)
  }

  lemma BareIff(n: Node, p: string)
    requires Found(n, p)
    ensures Busy(UnmountPath(n, p, false).0, p) <==> !Bare(n, p)
  {
    DetachLeaves(n, p);
    var after := UnmountPath(n, p, false).0;
    if !Bare(n, p) {
      var q :| q in n.mounts && AtOrBelow(q, p) && !(q == p && n.mounts[p] == 1 && ComesOff(n, p));
      assert q in after.mounts;
    }
  }

  lemma RemovalSucceedsIff(n: Node, p: string)
    ensures UnmountPath(n, p, true).1 <==> Removable(n, p)
  {
    DetachSucceedsIff(n, p);
    DetachLeaves(n, p);
    var (after, ok) := UnmountPath(n, p, false);
    if Found(n, p) {
      BareIff(n, p);
      assert ok ==> UnmountPath(n, p, true) == RemoveAll(after, p);
    }
  }

  /** A whole unmount succeeds iff the target detaches and the data path can then be removed. */
  lemma UnmountSucceedsIff(n: Node, p: string, dir: string)
    ensures UnmountEffect(n, p, dir).1 <==>
              && (KnownAbsent(n, dir) || (Found(n, dir) && Detachable(n, dir)))
              && Removable(UnmountPath(n, dir, false).0, p)
  {
    DetachSucceedsIff(n, dir);
    RemovalSucceedsIff(UnmountPath(n, dir, false).0, p);
  }

  /** Whatever is mounted at or below `p` is mounted on `p` itself. */
  ghost predicate NothingBelow(n: Node, p: string) {
    forall q :: q in n.mounts && q != p ==> !AtOrBelow(q, p)
  }

  /** From a sound data path with nothing mounted below it, and with no failure once the target
      was dealt with, a whole unmount succeeds iff the target's own does. */
  lemma UnmountWhenIff(n: Node, p: string, dir: string)
    requires Sound(n, p) && Apart(p, dir) && p != "" && NothingBelow(n, p)
    requires var mid := UnmountPath(n, dir, false).0;
             Calm(mid) && TruthfulNext(mid, p)
    ensures UnmountEffect(n, p, dir).1 <==> KnownAbsent(n, dir) || (Found(n, dir) && Detachable(n, dir))
  {
    var mid := UnmountPath(n, dir, false).0;
    UnmountSucceedsIff(n, p, dir);
    DetachLeaves(n, dir);
    CalmIsRemovable(mid, p);
  }

  lemma CalmIsRemovable(n: Node, p: string)
    requires Calm(n) && TruthfulNext(n, p) && p != "" && n.mounts[p] <= 1
    requires NothingBelow(n, p)
    ensures Removable(n, p)
  {
  }

  // ---------------------------------------------------------------- mounting

  /** An existing target is taken as it is, a missing one is made, and nothing else fails. */
  lemma TargetFailsIff(n: Node, p: string, dir: string)
    requires dir != ""
    ensures MountEffect(n, p, dir).1 == TargetFailed <==>
              n.answers(n.clock).stat != NoFault || (dir !in n.dirs && !n.answers(n.clock + 1).ok)
  {
  }

  lemma TargetLeaves(n: Node, dir: string)
    requires dir != "" && n.answers(n.clock).stat == NoFault && (dir in n.dirs || n.answers(n.clock + 1).ok)
    ensures var (ready, ok) := EnsureTarget(n, dir);
            ok && ready == (if dir in n.dirs then n.(clock := n.clock + 1)
                            else n.(clock := n.clock + 2, dirs := n.dirs + Ancestors(dir) + {dir}))
  {
  }

  /** The stage a mount stops at, from the target on, is that of the first call that fails. */
  lemma StageIff(n: Node, p: string, dir: string)
    requires Apart(p, dir) && p != "" && dir != ""
    requires n.answers(n.clock).stat == NoFault && (dir in n.dirs || n.answers(n.clock + 1).ok)
    ensures var ready := EnsureTarget(n, dir).0;
            var cleared, stage := UnmountPath(ready, p, true).0, MountEffect(n, p, dir).1;
            var a, c := cleared.answers, cleared.clock;
            && (stage == ClearFailed <==> !Removable(ready, p))
            && (stage == DataDirFailed <==> Removable(ready, p) && !a(c).ok)
            && (stage == TmpfsFailed <==> Removable(ready, p) && a(c).ok && !a(c + 1).ok)
            && (stage.PasswordFailed? <==> Removable(ready, p) && a(c).ok && a(c + 1).ok && !a(c + 2).ok)
            && (stage.S3fsFailed? <==>
                  Removable(ready, p) && a(c).ok && a(c + 1).ok && a(c + 2).ok && !a(c + 3).ok)
  {
    var ready := EnsureTarget(n, dir).0;
    TargetLeaves(n, dir);
    RemovalSucceedsIff(ready, p);
    StageFrom(ready, p, dir);
  }

  lemma StageFrom(ready: Node, p: string, dir: string)
    requires Apart(p, dir) && p != "" && dir in ready.dirs
    ensures var (empty, stage) := CreateEmptyMountpoint(ready, p);
            var (cleared, ok) := UnmountPath(ready, p, true);
            var a, c := cleared.answers, cleared.clock;
            && stage == (if !ok then ClearFailed else if !a(c).ok then DataDirFailed
                         else if !a(c + 1).ok then TmpfsFailed else Mounted)
            && (stage == Mounted ==>
                  && empty.answers == a && empty.clock == c + 2 && dir in empty.dirs && p in empty.dirs
                  && empty.mounts == cleared.mounts + multiset{p})
  {
    UnmountPathReach(ready, p, true);
    var cleared := UnmountPath(ready, p, true).0;
    assert SameAt(ready, cleared, dir);
  }

  /** The four calls that follow on the cleared data path: mkdir, tmpfs, password file, s3fs. */
  predicate FourCalls(n: Node) {
    n.answers(n.clock).ok && n.answers(n.clock + 1).ok && n.answers(n.clock + 2).ok && n.answers(n.clock + 3).ok
  }

  /** A mount succeeds iff the target is there or can be made, what is left at the data path can
      be removed, and four more calls work. */
  lemma MountSucceedsIff(n: Node, p: string, dir: string)
    requires Apart(p, dir) && p != "" && dir != ""
    ensures MountEffect(n, p, dir).1 == Mounted <==>
              && n.answers(n.clock).stat == NoFault && (dir in n.dirs || n.answers(n.clock + 1).ok)
              && Removable(EnsureTarget(n, dir).0, p)
              && FourCalls(UnmountPath(EnsureTarget(n, dir).0, p, true).0)
  {
    TargetFailsIff(n, p, dir);
    RemovalSucceedsIff(EnsureTarget(n, dir).0, p);
    if n.answers(n.clock).stat == NoFault && (dir in n.dirs || n.answers(n.clock + 1).ok) {
      StageIff(n, p, dir);
    }
  }

  /** With no failure a mount succeeds, also over a data path that a lost pod left mounted. */
  lemma CalmMountSucceeds(n: Node, p: string, dir: string)
    requires Calm(n) && Sound(n, p) && Apart(p, dir) && p != "" && dir != ""
    requires NothingBelow(n, p)
    requires TruthfulNext(EnsureTarget(n, dir).0, p)
    ensures MountEffect(n, p, dir).1 == Mounted
  {
    TargetLeaves(n, dir);
    var ready := EnsureTarget(n, dir).0;
    CalmIsRemovable(ready, p);
    UnmountPathReach(ready, p, true);
    MountSucceedsIff(n, p, dir);
  }

  /** So does one with nothing at the data path, whatever `mountpoint` would answer. */
  lemma CalmFirstMountSucceeds(n: Node, p: string, dir: string)
    requires Calm(n) && Clear(n, p) && Apart(p, dir) && p != "" && dir != ""
    ensures MountEffect(n, p, dir).1 == Mounted
  {
    TargetLeaves(n, dir);
    var ready := EnsureTarget(n, dir).0;
    if p in Ancestors(dir) {
      AncestorsAreAbove(dir, p);
    }
    assert AtOrBelow(p, p);
    assert KnownAbsent(ready, p);
    MountSucceedsIff(n, p, dir);
  }

  // ---------------------------------------------------------------- failing on the way

  lemma FilledStage(n: Node, p: string, dir: string)
    requires dir in n.dirs
    ensures FillAndStart(n, p, dir).1 ==
            (if !n.answers(n.clock).ok then PasswordFailed(Removable(WritePassword(n, p).0, p))
             else if !n.answers(n.clock + 1).ok then S3fsFailed(Removable(Tick(WritePassword(n, p).0), p))
             else Mounted)
  {
    var written := WritePassword(n, p).0;
    RemovalSucceedsIff(written, p);
    RemovalSucceedsIff(Tick(written), p);
  }

  /** Nothing fails after this call, and the mount check after the next one says "mounted" or
      exits with an error. */
  ghost predicate NoFailureAfter(n: Node, call: nat) {
    && (forall i: nat :: call < i ==> n.answers(i).ok && n.answers(i).stat == NoFault)
    && (n.answers(call + 2).check.failed || n.answers(call + 2).check.isMount)
  }

  lemma FailedFillCleansUp(n: Node, p: string, dir: string)
    requires dir in n.dirs && n.mounts[p] == 1 && p != "" && FillAndStart(n, p, dir).1 != Mounted
    requires NothingBelow(n, p)
    requires NoFailureAfter(n, n.clock + (if FillAndStart(n, p, dir).1.PasswordFailed? then 0 else 1))
    ensures FillAndStart(n, p, dir).1.cleaned
  {
    FilledStage(n, p, dir);
    var written := WritePassword(n, p).0;
    if FillAndStart(n, p, dir).1.PasswordFailed? {
      CalmIsRemovable(written, p);
    } else {
      CalmIsRemovable(Tick(written), p);
    }
  }

  /** The emptied data path carries its tmpfs, and nothing else about the calls has changed. */
  lemma EmptyIsReady(ready: Node, p: string, dir: string)
    requires Sound(ready, p) && Apart(p, dir) && p != "" && dir in ready.dirs
    requires NothingBelow(ready, p)
    requires CreateEmptyMountpoint(ready, p).1 == Mounted
    ensures var empty := CreateEmptyMountpoint(ready, p).0;
            && empty.answers == ready.answers && empty.clock == UnmountPath(ready, p, true).0.clock + 2
            && dir in empty.dirs && empty.mounts[p] == 1
            && NothingBelow(empty, p)
  {
    UnmountPathReach(ready, p, true);
    StageFrom(ready, p, dir);
    EmptyMountpoint(ready, p, dir);
  }

  /** A mount that got as far as the password file, from there. */
  lemma ReachedFill(n: Node, p: string, dir: string) returns (empty: Node)
    requires Sound(n, p) && Apart(p, dir) && p != "" && dir != ""
    requires NothingBelow(n, p)
    requires MountEffect(n, p, dir).1.PasswordFailed? || MountEffect(n, p, dir).1.S3fsFailed?
    ensures MountEffect(n, p, dir).1 == FillAndStart(empty, p, dir).1
    ensures empty.answers == n.answers
    ensures empty.clock == UnmountPath(EnsureTarget(n, dir).0, p, true).0.clock + 2
    ensures dir in empty.dirs && empty.mounts[p] == 1
    ensures NothingBelow(empty, p)
  {
    TargetFailsIff(n, p, dir);
    TargetLeaves(n, dir);
    var ready := EnsureTarget(n, dir).0;
    EmptyIsReady(ready, p, dir);
    empty := CreateEmptyMountpoint(ready, p).0;
  }

  lemma CleanedFrom(n: Node, empty: Node, p: string, dir: string, c: nat, stage: Stage)
    requires (stage.PasswordFailed? || stage.S3fsFailed?) && stage == FillAndStart(empty, p, dir).1
    requires empty.answers == n.answers && empty.clock == c + 2
    requires dir in empty.dirs && empty.mounts[p] == 1 && p != ""
    requires NothingBelow(empty, p)
    requires NoFailureAfter(n, c + (if stage.PasswordFailed? then 2 else 3))
    ensures stage.cleaned
  {
    FailedFillCleansUp(empty, p, dir);
  }

  lemma FailedMountIsCleaned(n: Node, p: string, dir: string)
    requires Sound(n, p) && Apart(p, dir) && p != "" && dir != ""
    requires NothingBelow(n, p)
    requires MountEffect(n, p, dir).1.PasswordFailed? || MountEffect(n, p, dir).1.S3fsFailed?
    requires var c := UnmountPath(EnsureTarget(n, dir).0, p, true).0.clock;
             NoFailureAfter(n, c + (if MountEffect(n, p, dir).1.PasswordFailed? then 2 else 3))
    ensures MountEffect(n, p, dir).1.cleaned
  {
    var empty := ReachedFill(n, p, dir);
    CleanedFrom(n, empty, p, dir, UnmountPath(EnsureTarget(n, dir).0, p, true).0.clock, MountEffect(n, p, dir).1);
  }

  /** A mount that fails at the password file or at s3fs, with no failure after that, leaves
      nothing at the data path: the password, the tmpfs and the directory are gone. */
  lemma FailedMountCleansUp(n: Node, p: string, dir: string)
    requires Sound(n, p) && Apart(p, dir) && p != "" && dir != ""
    requires NothingBelow(n, p)
    requires MountEffect(n, p, dir).1.PasswordFailed? || MountEffect(n, p, dir).1.S3fsFailed?
    requires var c := UnmountPath(EnsureTarget(n, dir).0, p, true).0.clock;
             NoFailureAfter(n, c + (if MountEffect(n, p, dir).1.PasswordFailed? then 2 else 3))
    ensures var (after, stage) := MountEffect(n, p, dir);
            stage.cleaned && Absent(after, p)
  {
    FailedMountIsCleaned(n, p, dir);
    MountOutcomes(n, p, dir);
  }
}
