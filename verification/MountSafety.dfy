/** What mounts and unmounts keep, over any run and any answers of the system. */
module MountSafety {
  import opened Text
  import opened Host
  import opened Mounting

  // ---------------------------------------------------------------- one path

  /** A data path carries at most one mount, on an existing directory, and a password file
      lies nowhere but inside that mount. */
  ghost predicate Sound(n: Node, p: string) {
    && n.mounts[p] <= 1
    && (n.mounts[p] > 0 ==> p in n.dirs)
    && (p in n.passwords ==> n.mounts[p] == 1)
  }

  ghost predicate Absent(n: Node, p: string) {
    p !in n.dirs && n.mounts[p] == 0 && p !in n.passwords
  }

  /** Both nodes show the same directory, mount depth and password at `q`. */
  ghost predicate SameAt(a: Node, b: Node, q: string) {
    (q in a.dirs <==> q in b.dirs) && a.mounts[q] == b.mounts[q] && (q in a.passwords <==> q in b.passwords)
  }

  ghost predicate Later(a: Node, b: Node) {
    a.answers == b.answers && a.clock <= b.clock
  }

  /** Only what is at or below `p` may have gone; nothing was added. */
  ghost predicate Shrinks(n: Node, after: Node, p: string) {
    && Later(n, after)
    && (forall q :: !AtOrBelow(q, p) ==> SameAt(n, after, q))
    && (forall q :: q != p ==> after.mounts[q] == n.mounts[q])
    && after.mounts[p] <= n.mounts[p]
    && after.dirs <= n.dirs && after.passwords <= n.passwords
    && (Sound(n, p) ==> Sound(after, p))
  }

  /** At most the mounts on `p` itself have come off, and with them the password inside. */
  ghost predicate Lowers(n: Node, after: Node, p: string) {
    && Later(n, after)
    && after.dirs == n.dirs
    && (forall q :: q != p ==> SameAt(n, after, q))
    && after.mounts[p] <= n.mounts[p]
    && (p in after.passwords ==> p in n.passwords && after.mounts[p] == n.mounts[p])
  }

  lemma LowersTwice(a: Node, b: Node, c: Node, p: string)
    requires Lowers(a, b, p) && Lowers(b, c, p)
    ensures Lowers(a, c, p)
  {
    forall q | q != p
      ensures SameAt(a, c, q)
    {
      assert SameAt(a, b, q) && SameAt(b, c, q);
    }
  }

  lemma LoweringShrinks(n: Node, after: Node, p: string)
    requires Lowers(n, after, p)
    ensures Shrinks(n, after, p)
  {
    assert forall q :: q != p ==> SameAt(n, after, q);
    forall q | q in after.passwords
      ensures q in n.passwords
    {
      assert q != p ==> SameAt(n, after, q);
    }
    assert forall q :: q != p && SameAt(n, after, q) ==> after.mounts[q] == n.mounts[q];
  }

  lemma UmountReach(n: Node, p: string)
    ensures Lowers(n, Umount(n, p).0, p)
  {
  }

  lemma DetachReach(n: Node, p: string)
    ensures Lowers(n, DetachIfNeeded(n, p).0, p)
  {
    var checked := CheckMount(n).0;
    assert Lowers(n, checked, p);
    var once := Umount(checked, p).0;
    UmountReach(checked, p);
    UmountReach(once, p);
    LowersTwice(n, checked, once, p);
    LowersTwice(n, once, Umount(once, p).0, p);
  }

  lemma RemoveReach(n: Node, p: string)
    ensures Shrinks(n, RemoveAll(n, p).0, p)
    ensures RemoveAll(n, p).1 ==> Absent(RemoveAll(n, p).0, p)
  {
  }

  lemma ShrinksTwice(a: Node, b: Node, c: Node, p: string)
    requires Shrinks(a, b, p) && Shrinks(b, c, p)
    ensures Shrinks(a, c, p)
  {
  }

  /** Looking costs a clock tick and nothing else. */
  lemma LookingReach(n: Node, p: string, path: string)
    ensures Lowers(n, PathExists(n, path).0, p)
  {
  }

  /** unmountPath reaches only what is at or below its path, keeps a data path sound, and
      with `delete` reports success only if nothing is left there. */
  lemma UnmountPathReach(n: Node, p: string, delete: bool)
    ensures var (after, ok) := UnmountPath(n, p, delete);
            && Shrinks(n, after, p)
            && (!delete ==> after.dirs == n.dirs)
            && (delete && ok && Sound(n, p) ==> Absent(after, p))
  {
    var (seen, found, err) := PathExists(n, p);
    LookingReach(n, p, p);
    LoweringShrinks(n, seen, p);
    if found {
      DetachThenRemove(n, seen, p);
    }
  }

  lemma DetachThenRemove(n: Node, seen: Node, p: string)
    requires Lowers(n, seen, p)
    ensures var detached := DetachIfNeeded(seen, p).0;
            var (removed, ok) := RemoveAll(detached, p);
            && Shrinks(n, detached, p) && detached.dirs == n.dirs
            && Shrinks(n, removed, p) && (ok ==> Absent(removed, p))
  {
    var detached := DetachIfNeeded(seen, p).0;
    DetachReach(seen, p);
    LowersTwice(n, seen, detached, p);
    LoweringShrinks(n, detached, p);
    RemoveReach(detached, p);
    ShrinksTwice(n, detached, RemoveAll(detached, p).0, p);
  }

  lemma DetachingLowers(n: Node, p: string)
    ensures Lowers(n, UnmountPath(n, p, false).0, p)
  {
    var seen := PathExists(n, p).0;
    LookingReach(n, p, p);
    DetachReach(seen, p);
    LowersTwice(n, seen, DetachIfNeeded(seen, p).0, p);
  }

  // ---------------------------------------------------------------- one call

  /** The target is not the data path nor inside it. */
  ghost predicate Apart(p: string, dir: string) {
    !AtOrBelow(dir, p)
  }

  lemma AncestorsAreAbove(p: string, q: string)
    requires q in Ancestors(p)
    ensures AtOrBelow(p, q) && q != p
  {
  }

  /** Every way a mount can end, and what it leaves at the data path and the target. */
  lemma MountOutcomes(n: Node, p: string, dir: string)
    requires Sound(n, p) && Apart(p, dir)
    ensures var (after, stage) := MountEffect(n, p, dir);
            && Later(n, after)
            && Sound(after, p)
            && after.mounts[dir] == n.mounts[dir] + (if stage.Mounted? then 1 else 0)
            && match stage
               case NotStarted => false
               case TargetFailed => SameAt(n, after, p)
               case ClearFailed => after.mounts[p] <= n.mounts[p]
               case DataDirFailed => Absent(after, p)
               case TmpfsFailed => p in after.dirs && after.mounts[p] == 0
               case PasswordFailed(cleaned) => cleaned ==> Absent(after, p)
               case S3fsFailed(cleaned) => cleaned ==> Absent(after, p)
               case Mounted => p in after.dirs && after.mounts[p] == 1 && p in after.passwords && dir in after.dirs
  {
    var (ready, targetOk) := EnsureTarget(n, dir);
    TargetKeepsDataPath(n, p, dir);
    if targetOk {
      UnmountPathReach(ready, p, true);
      var (empty, stage) := CreateEmptyMountpoint(ready, p);
      EmptyMountpoint(ready, p, dir);
      if stage.Mounted? {
        Filled(empty, p, dir);
      }
    }
  }

  lemma TargetKeepsDataPath(n: Node, p: string, dir: string)
    requires Apart(p, dir)
    ensures var (ready, ok) := EnsureTarget(n, dir);
            && Later(n, ready) && SameAt(n, ready, p)
            && ready.mounts == n.mounts && ready.passwords == n.passwords
            && n.dirs <= ready.dirs <= n.dirs + Ancestors(dir) + {dir}
            && (ok ==> dir in ready.dirs)
  {
  }

  lemma EmptyMountpoint(n: Node, p: string, dir: string)
    requires Sound(n, p) && Apart(p, dir)
    ensures var (after, stage) := CreateEmptyMountpoint(n, p);
            && Later(n, after) && Sound(after, p)
            && after.mounts[dir] == n.mounts[dir]
            && (dir in n.dirs ==> dir in after.dirs)
            && (forall q :: q != p ==> after.mounts[q] == n.mounts[q])
            && match stage
               case ClearFailed => after.mounts[p] <= n.mounts[p]
               case DataDirFailed => Absent(after, p)
               case TmpfsFailed => p in after.dirs && after.mounts[p] == 0
               case Mounted => p in after.dirs && after.mounts[p] == 1 && p !in after.passwords
               case _ => false
  {
    UnmountPathReach(n, p, true);
    if p in Ancestors(p) {
      AncestorsAreAbove(p, p);
    }
    assert !AtOrBelow(dir, p);
  }

  lemma Filled(n: Node, p: string, dir: string)
    requires Sound(n, p) && Apart(p, dir) && n.mounts[p] == 1 && dir in n.dirs
    ensures var (after, stage) := FillAndStart(n, p, dir);
            && Later(n, after) && Sound(after, p)
            && after.mounts[dir] == n.mounts[dir] + (if stage.Mounted? then 1 else 0)
            && match stage
               case PasswordFailed(cleaned) => cleaned ==> Absent(after, p)
               case S3fsFailed(cleaned) => cleaned ==> Absent(after, p)
               case Mounted => p in after.dirs && after.mounts[p] == 1 && p in after.passwords && dir in after.dirs
               case _ => false
  {
    var (written, ok) := WritePassword(n, p);
    UnmountPathReach(written, p, true);
    if ok {
      var (started, running) := MountOn(written, dir);
      UnmountPathReach(started, p, true);
    }
  }

  /** A successful unmount leaves the data path absent; a failed one leaves it sound. */
  lemma UnmountOutcomes(n: Node, p: string, dir: string)
    requires Sound(n, p) && Apart(p, dir)
    ensures var (after, ok) := UnmountEffect(n, p, dir);
            && Later(n, after)
            && Sound(after, p)
            && (ok ==> Absent(after, p))
            && after.mounts[dir] <= n.mounts[dir]
  {
    var (detached, ok) := UnmountPath(n, dir, false);
    UnmountPathReach(n, dir, false);
    DetachKeepsDataPath(n, p, dir);
    if ok {
      UnmountPathReach(detached, p, true);
    }
  }

  lemma DetachKeepsDataPath(n: Node, p: string, dir: string)
    requires p != dir
    ensures SameAt(n, UnmountPath(n, dir, false).0, p)
  {
    DetachingLowers(n, dir);
  }

  /** A successful unmount takes a mounted target down by exactly one iff the mount check
      failed and the detach worked, or the check said "mounted"; otherwise its depth stays. */
  lemma TargetDetachedIff(n: Node, p: string, dir: string)
    requires Apart(p, dir) && dir != "" && dir in n.dirs && n.mounts[dir] > 0
    ensures var (after, ok) := UnmountEffect(n, p, dir);
            var down := if n.answers(n.clock + 1).check.failed then n.answers(n.clock + 2).ok
              else n.answers(n.clock + 1).check.isMount;
            ok ==> after.mounts[dir] == n.mounts[dir] - (if down then 1 else 0)
  {
    TargetDetached(n, dir);
    UnmountPathReach(UnmountPath(n, dir, false).0, p, true);
  }

  lemma DetachDepth(n: Node, p: string)
    requires n.mounts[p] > 0
    ensures var (after, ok) := DetachIfNeeded(n, p);
            var down := if Now(n).check.failed then n.answers(n.clock + 1).ok else Now(n).check.isMount;
            ok ==> after.mounts[p] == n.mounts[p] - (if down then 1 else 0)
  {
    var checked := CheckMount(n).0;
    var (once, ok) := Umount(checked, p);
    assert ok <==> n.answers(n.clock + 1).ok;
  }

  lemma TargetDetached(n: Node, dir: string)
    requires dir != "" && dir in n.dirs && n.mounts[dir] > 0
    ensures var (after, ok) := UnmountPath(n, dir, false);
            var down := if n.answers(n.clock + 1).check.failed then n.answers(n.clock + 2).ok
              else n.answers(n.clock + 1).check.isMount;
            ok ==> after.mounts[dir] == n.mounts[dir] - (if down then 1 else 0)
  {
    DetachDepth(PathExists(n, dir).0, dir);
  }

  // ---------------------------------------------------------------- runs

  datatype MountCall = Mount(dir: string, accepted: bool) | Unmount(dir: string)

  function ApplyCall(n: Node, hash: string -> string, call: MountCall): Node {
    match call
    case Mount(dir, accepted) => if accepted then MountEffect(n, DataPath(hash, dir), dir).0 else n
    case Unmount(dir) => UnmountEffect(n, DataPath(hash, dir), dir).0
  }

  function RunCalls(n: Node, hash: string -> string, calls: seq<MountCall>): Node
    decreases calls
  {
    if calls == [] then n else RunCalls(ApplyCall(n, hash, calls[0]), hash, calls[1..])
  }

  /** The directories in use: their digests are 64 characters long and do not collide, and
      none of them lies at or below a data path. */
  ghost predicate Site(hash: string -> string, dirs: set<string>) {
    && (forall d :: d in dirs ==> |hash(d)| == 64)
    && (forall d, e :: d in dirs && e in dirs && hash(d) == hash(e) ==> d == e)
    && (forall d, e :: d in dirs && e in dirs ==> Apart(DataPath(hash, e), d))
  }

  lemma DataPathsAreApart(hash: string -> string, dirs: set<string>, d: string, e: string)
    requires Site(hash, dirs) && d in dirs && e in dirs && d != e
    ensures !AtOrBelow(DataPath(hash, e), DataPath(hash, d))
  {
    var p, q := DataPath(hash, d), DataPath(hash, e);
    assert p[|DATA_ROOT| + 1..] == hash(d) && q[|DATA_ROOT| + 1..] == hash(e);
  }

  /** What belongs to a directory: its data path and the mounts on the directory itself. */
  ghost predicate Untouched(a: Node, b: Node, hash: string -> string, dir: string) {
    SameAt(a, b, DataPath(hash, dir)) && a.mounts[dir] == b.mounts[dir]
  }

  lemma MountTouchesOwn(n: Node, p: string, dir: string, q: string)
    requires !AtOrBelow(q, p) && q != dir && q !in Ancestors(dir) && q !in Ancestors(p)
    ensures SameAt(n, MountEffect(n, p, dir).0, q)
  {
    var (ready, targetOk) := EnsureTarget(n, dir);
    UnmountPathReach(ready, p, true);
    var (empty, stage) := CreateEmptyMountpoint(ready, p);
    if targetOk && stage.Mounted? {
      var (written, ok) := WritePassword(empty, p);
      UnmountPathReach(written, p, true);
      UnmountPathReach(MountOn(written, dir).0, p, true);
    }
  }

  lemma MountKeepsOtherMounts(n: Node, p: string, dir: string, e: string)
    requires e != p && e != dir
    ensures MountEffect(n, p, dir).0.mounts[e] == n.mounts[e]
  {
    var (ready, targetOk) := EnsureTarget(n, dir);
    UnmountPathReach(ready, p, true);
    var (empty, stage) := CreateEmptyMountpoint(ready, p);
    if targetOk && stage.Mounted? {
      var (written, ok) := WritePassword(empty, p);
      UnmountPathReach(written, p, true);
      UnmountPathReach(MountOn(written, dir).0, p, true);
    }
  }

  /** A call on one directory changes nothing that belongs to another. */
  lemma CallsAreIsolated(n: Node, hash: string -> string, dirs: set<string>, call: MountCall, e: string)
    requires Site(hash, dirs) && call.dir in dirs && e in dirs && e != call.dir
    ensures Untouched(n, ApplyCall(n, hash, call), hash, e)
  {
    var d := call.dir;
    var p, q := DataPath(hash, d), DataPath(hash, e);
    DataPathsAreApart(hash, dirs, d, e);
    assert Apart(q, d) && Apart(p, e) && Apart(q, e);
    if q in Ancestors(d) {
      AncestorsAreAbove(d, q);
    }
    if q in Ancestors(p) {
      AncestorsAreAbove(p, q);
      DataPathsAreApart(hash, dirs, e, d);
    }
    match call
    case Mount(_, _) =>
      MountTouchesOwn(n, p, d, q);
      MountKeepsOtherMounts(n, p, d, e);
    case Unmount(_) =>
      var (detached, ok) := UnmountPath(n, d, false);
      UnmountPathReach(n, d, false);
      DetachKeepsDataPath(n, q, d);
      UnmountPathReach(detached, p, true);
  }

  ghost predicate AllSound(n: Node, hash: string -> string, dirs: set<string>) {
    forall d :: d in dirs ==> Sound(n, DataPath(hash, d))
  }

  lemma CallKeepsSound(n: Node, hash: string -> string, dirs: set<string>, call: MountCall)
    requires Site(hash, dirs) && call.dir in dirs && AllSound(n, hash, dirs)
    ensures AllSound(ApplyCall(n, hash, call), hash, dirs)
  {
    var d := call.dir;
    var p := DataPath(hash, d);
    assert Apart(p, d);
    MountOutcomes(n, p, d);
    UnmountOutcomes(n, p, d);
    forall e | e in dirs
      ensures Sound(ApplyCall(n, hash, call), DataPath(hash, e))
    {
      if e != d {
        CallsAreIsolated(n, hash, dirs, call, e);
      }
    }
  }

  /** In every state any run can reach, under any answers, every data path is sound: mounted
      at most once, on an existing directory, with its password only inside the mount. */
  lemma {:induction false} RunsKeepSound(n: Node, hash: string -> string, dirs: set<string>, calls: seq<MountCall>)
    requires Site(hash, dirs) && AllSound(n, hash, dirs)
    requires forall c :: c in calls ==> c.dir in dirs
    ensures AllSound(RunCalls(n, hash, calls), hash, dirs)
    decreases calls
  {
    if calls != [] {
      CallKeepsSound(n, hash, dirs, calls[0]);
      RunsKeepSound(ApplyCall(n, hash, calls[0]), hash, dirs, calls[1..]);
    }
  }

  /** And whatever is never called on stays exactly as it was. */
  lemma {:induction false} RunsAreIsolated(n: Node, hash: string -> string, dirs: set<string>, calls: seq<MountCall>,
                                           e: string)
    requires Site(hash, dirs) && e in dirs
    requires forall c :: c in calls ==> c.dir in dirs && c.dir != e
    ensures Untouched(n, RunCalls(n, hash, calls), hash, e)
    decreases calls
  {
    if calls != [] {
      CallsAreIsolated(n, hash, dirs, calls[0], e);
      RunsAreIsolated(ApplyCall(n, hash, calls[0]), hash, dirs, calls[1..], e);
    }
  }

  // ---------------------------------------------------------------- undoing a mount

  /** Same directories, mounts and passwords, whatever the clock says. */
  ghost predicate SameTree(a: Node, b: Node) {
    a.dirs == b.dirs && a.mounts == b.mounts && a.passwords == b.passwords
  }

  /** From now on no call fails and stat tells the truth. */
  ghost predicate Calm(n: Node) {
    forall i: nat :: n.clock <= i ==> n.answers(i).ok && n.answers(i).stat == NoFault
  }

  /** The next mount check exits non-zero, whatever it says, or tells the truth about `p`. */
  ghost predicate TruthfulNext(n: Node, p: string) {
    var check := n.answers(n.clock + 1).check;
    check.failed || (check.isMount <==> n.mounts[p] > 0)
  }

  lemma CalmDetach(n: Node, p: string)
    requires Calm(n) && TruthfulNext(n, p) && p in n.dirs && p != ""
    ensures var (after, ok) := UnmountPath(n, p, false);
            && ok && Calm(after) && Later(n, after) && after.dirs == n.dirs
            && after.mounts == n.mounts - multiset{p}
            && after.passwords == (if n.mounts[p] > 0 then n.passwords - {p} else n.passwords)
  {
  }

  /** There is nothing at or below `p`. */
  ghost predicate Clear(n: Node, p: string) {
    && (forall q :: q in n.dirs ==> !AtOrBelow(q, p))
    && (forall q :: q in n.mounts ==> !AtOrBelow(q, p))
    && (forall q :: q in n.passwords ==> !AtOrBelow(q, p))
  }

  /** A mount in full: the target and the data path mounted, parents created. */
  lemma MountedTree(n: Node, p: string, dir: string)
    requires Clear(n, p) && Apart(p, dir) && p != ""
    requires MountEffect(n, p, dir).1 == Mounted
    ensures var after := MountEffect(n, p, dir).0;
            && after.mounts == n.mounts + multiset{p} + multiset{dir}
            && n.dirs + {p, dir} <= after.dirs <= n.dirs + {p, dir} + Ancestors(p) + Ancestors(dir)
            && after.passwords == n.passwords + {p}
  {
    var (ready, targetOk) := EnsureTarget(n, dir);
    TargetKeepsDataPath(n, p, dir);
    var (cleared, ok) := UnmountPath(ready, p, true);
    UnmountPathReach(ready, p, true);
    forall q
      ensures cleared.mounts[q] == n.mounts[q]
    {
      assert q != p ==> cleared.mounts[q] == ready.mounts[q];
      assert p !in n.mounts;
    }
    assert cleared.mounts == n.mounts;
    forall q | q in n.passwords
      ensures q in cleared.passwords
    {
      assert SameAt(ready, cleared, q);
    }
    forall q | q in n.dirs
      ensures q in cleared.dirs
    {
      assert SameAt(ready, cleared, q);
    }
    assert dir in cleared.dirs by {
      assert SameAt(ready, cleared, dir);
    }
  }

  /** A calm removal of a mounted data path takes it away and nothing else. */
  lemma CalmRemoval(n: Node, p: string)
    requires Calm(n) && TruthfulNext(n, p) && p in n.dirs && p != "" && n.mounts[p] == 1
    requires forall q :: q in n.mounts && q != p ==> !AtOrBelow(q, p)
    ensures var (after, ok) := UnmountPath(n, p, true);
            && ok && Calm(after) && Later(n, after)
            && after.mounts == n.mounts - multiset{p}
            && after.dirs == (set q | q in n.dirs && !AtOrBelow(q, p))
            && after.passwords == (set q | q in n.passwords && !AtOrBelow(q, p))
  {
    CalmDetach(n, p);
    var (detached, ok) := UnmountPath(n, p, false);
    assert forall q :: q in detached.mounts ==> q in n.mounts && !AtOrBelow(q, p);
    assert UnmountPath(n, p, true) == RemoveAll(detached, p);
  }

  /** Unmounting undoes mounting: from a state with nothing at the data path, a mount that
      succeeds under any answers followed by an unmount that meets no failure restores the
      mount table and the passwords exactly, and of the tree keeps at most the target
      directory and parents that were missing. */
  lemma UnmountUndoesMount(n: Node, p: string, dir: string, now: Node)
    requires Clear(n, p) && Apart(p, dir) && p != "" && dir != "" && dir !in n.passwords
    requires MountEffect(n, p, dir).1 == Mounted && SameTree(now, MountEffect(n, p, dir).0)
    requires Calm(now) && TruthfulNext(now, dir) && TruthfulNext(UnmountPath(now, dir, false).0, p)
    ensures var (after, ok) := UnmountEffect(now, p, dir);
            && ok
            && after.mounts == n.mounts && after.passwords == n.passwords
            && n.dirs <= after.dirs <= n.dirs + {dir} + Ancestors(dir) + Ancestors(p)
            && p !in after.dirs
  {
    MountedTree(n, p, dir);
    CalmDetach(now, dir);
    var detached := UnmountPath(now, dir, false).0;
    assert detached.mounts == n.mounts + multiset{p};
    assert p !in n.mounts;
    CalmRemoval(detached, p);
    var after := UnmountEffect(now, p, dir).0;
    assert after.mounts == n.mounts;
    assert after.passwords == n.passwords;
  }

  /** The target directory and the parents that may remain all lie outside the data root. */
  lemma DataRootRestored(hash: string -> string, dir: string, q: string)
    requires '/' !in hash(dir) && !HasPrefix(dir, DATA_ROOT + "/")
    requires q in {dir} + Ancestors(dir) + Ancestors(DataPath(hash, dir))
    ensures !HasPrefix(q, DATA_ROOT + "/")
  {
  }

  lemma CalmIdle(n: Node, dir: string)
    requires Calm(n) && dir != "" && n.mounts[dir] == 0 && TruthfulNext(n, dir)
    ensures var (after, ok) := UnmountPath(n, dir, false);
            ok && Calm(after) && SameTree(n, after)
  {
  }

  /** A second unmount succeeds and changes nothing, whether `mountpoint` says "not mounted"
      with a clean or with a failing exit. */
  lemma SecondUnmountIsIdle(n: Node, p: string, dir: string)
    requires Calm(n) && Absent(n, p) && p != "" && dir != "" && n.mounts[dir] == 0 && TruthfulNext(n, dir)
    ensures var (after, ok) := UnmountEffect(n, p, dir);
            ok && SameTree(n, after)
  {
    CalmIdle(n, dir);
  }

  /** So unmounting twice after a mount, with nothing else going on, is unmounting once. */
  lemma UnmountTwice(n: Node, p: string, dir: string, now: Node, again: Node)
    requires Clear(n, p) && Apart(p, dir) && p != "" && dir != "" && dir !in n.passwords && n.mounts[dir] == 0
    requires MountEffect(n, p, dir).1 == Mounted && SameTree(now, MountEffect(n, p, dir).0)
    requires Calm(now) && TruthfulNext(now, dir) && TruthfulNext(UnmountPath(now, dir, false).0, p)
    requires SameTree(again, UnmountEffect(now, p, dir).0) && Calm(again) && TruthfulNext(again, dir)
    ensures var (after, ok) := UnmountEffect(again, p, dir);
            ok && SameTree(again, after) && after.mounts == n.mounts
  {
    UnmountUndoesMount(n, p, dir, now);
    assert p !in n.mounts && p !in n.passwords;
    SecondUnmountIsIdle(again, p, dir);
  }
}
