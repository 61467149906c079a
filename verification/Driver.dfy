/** The FlexVolume driver: a mount request from its options to the running s3fs. */
module Driver {
  import opened Wrappers
  import opened Store
  import opened Backend
  import opened Records
  import opened S3fsOptions
  import opened Host
  import opened Mounting
  import opened MountSafety

  /** Stage reached, the command line s3fs was or would have been started with, and what its
      password file holds. */
  datatype MountResult = MountResult(stage: Stage, args: seq<string>, password: string)

  function PasswordFile(mountPath: string): string {
    mountPath + "/passwd"
  }

  function PasswordText(creds: Credentials): string {
    if creds.apiKey != "" then ":" + creds.apiKey else creds.accessKey + ":" + creds.secretKey
  }

  /** The bucket, and the object path if one is asked for, exist as far as the store says. */
  function BucketChecks(w: World, plan: MountPlan): (World, bool) {
    var s := Session(plan.endpoint, plan.region, plan.creds);
    var (seen, err) := HeadCall(w, s, plan.options.bucket);
    if err.Some? then (seen, false)
    else if plan.options.objectPath == "" then (seen, true)
    else
      var (listed, found) := ObjectPathEffect(seen, s, plan.options.bucket, plan.options.objectPath);
      (listed, found.Ok? && found.value)
  }

  function CaWritten(n: Node, o: Options): (Node, bool) {
    if o.caBundleB64 == "" then (n, true) else WriteFile(n)
  }

  /** The request once its options were judged: an unacceptable one does nothing. */
  function Attempt(w: World, n: Node, plan: Option<MountPlan>, mountPath: string, dir: string): (World, Node, Stage) {
    if plan.None? then (w, n, NotStarted)
    else
      var (ready, caOk) := CaWritten(n, plan.value.options);
      if !caOk then (w, ready, NotStarted)
      else
        var (seen, ok) := BucketChecks(w, plan.value);
        if !ok then (seen, ready, NotStarted)
        else
          var (after, stage) := MountEffect(ready, mountPath, dir);
          (seen, after, stage)
  }

  function MountRequest(w: World, n: Node, decode: Decoder, mountPath: string, dir: string,
                        opts: map<OptionTag, string>)
    : (World, Node, MountResult)
  {
    var plan := Accept(decode, opts);
    var (seen, after, stage) := Attempt(w, n, plan, mountPath, dir);
    (seen, after, if stage == NotStarted || plan.None? then MountResult(stage, [], "")
                  else MountResult(stage, CommandLine(opts, plan.value, dir, PasswordFile(mountPath)),
                                   PasswordText(plan.value.creds)))
  }

  lemma PathFoundMeansKeys(w: World, s: Session, name: string, objectPath: string)
    ensures var (after, found) := ObjectPathEffect(w, s, name, objectPath);
            && after.buckets == w.buckets
            && (found == Ok(true) ==>
                  name in w.buckets && Matching(w.buckets[name].objects, ListingPrefix(objectPath)) != [])
  {
  }

  lemma ChecksOnlyLook(w: World, plan: MountPlan)
    ensures var (seen, ok) := BucketChecks(w, plan);
            var s := Session(plan.endpoint, plan.region, plan.creds);
            var o := plan.options;
            && seen.buckets == w.buckets
            && (ok ==> o.bucket in w.buckets && Denial(w, s, o.bucket) == None)
            && (ok && o.objectPath != "" ==> Matching(w.buckets[o.bucket].objects, ListingPrefix(o.objectPath)) != [])
  {
    var s := Session(plan.endpoint, plan.region, plan.creds);
    var seen := HeadCall(w, s, plan.options.bucket).0;
    PathFoundMeansKeys(seen, s, plan.options.bucket, plan.options.objectPath);
  }

  /** A mount attempt never changes the store, and it reaches the node only if the bucket is
      there, at the endpoint asked for, open to the account, and holds the object path. */
  lemma MountNeedsItsBucket(w: World, n: Node, plan: Option<MountPlan>, mountPath: string, dir: string)
    ensures var (seen, after, stage) := Attempt(w, n, plan, mountPath, dir);
            && seen.buckets == w.buckets
            && (stage != NotStarted ==>
                  && plan.Some?
                  && var o := plan.value.options;
                  && o.bucket in w.buckets
                  && Denial(w, Session(plan.value.endpoint, plan.value.region, plan.value.creds), o.bucket) == None
                  && (o.objectPath != "" ==> Matching(w.buckets[o.bucket].objects, ListingPrefix(o.objectPath)) != []))
  {
    if plan.Some? {
      ChecksOnlyLook(w, plan.value);
    }
  }

  /** Unacceptable options do nothing at all; a CA bundle is written before the store is asked,
      which it is not if that fails; and the node's tree waits for both. */
  lemma NothingBefore(w: World, n: Node, plan: Option<MountPlan>, mountPath: string, dir: string)
    ensures var (seen, after, stage) := Attempt(w, n, plan, mountPath, dir);
            && (plan.None? ==> seen == w && after == n && stage == NotStarted)
            && (plan.Some? && plan.value.options.caBundleB64 != "" && !Now(n).ok ==> seen == w)
            && (plan.Some? && (plan.value.options.caBundleB64 == "" || Now(n).ok) ==> seen.clock > w.clock)
            && (stage == NotStarted ==> SameTree(n, after))
  {
    if plan.Some? {
      MountStarts(CaWritten(n, plan.value.options).0, mountPath, dir);
    }
  }

  lemma MountStarts(n: Node, p: string, dir: string)
    ensures MountEffect(n, p, dir).1 != NotStarted
  {
  }

  /** Seen from the node, an attempt is one call of the mount machine, so what its runs keep
      holds for requests whatever their options, the store's answers and the faults. */
  lemma AttemptIsMountCall(w: World, n: Node, plan: Option<MountPlan>, hash: string -> string, dir: string)
    returns (start: Node)
    ensures SameTree(n, start) && Later(n, start)
    ensures var (seen, after, stage) := Attempt(w, n, plan, DataPath(hash, dir), dir);
            after == ApplyCall(start, hash, Mount(dir, stage != NotStarted))
  {
    start := if plan.None? then n else CaWritten(n, plan.value.options).0;
    MountStarts(start, DataPath(hash, dir), dir);
  }

  lemma AttemptKeepsSound(w: World, n: Node, plan: Option<MountPlan>, hash: string -> string, dirs: set<string>,
                          dir: string)
    requires Site(hash, dirs) && dir in dirs && AllSound(n, hash, dirs)
    ensures var after := Attempt(w, n, plan, DataPath(hash, dir), dir).1;
            && AllSound(after, hash, dirs)
            && forall e :: e in dirs && e != dir ==> Untouched(n, after, hash, e)
  {
    var start := AttemptIsMountCall(w, n, plan, hash, dir);
    var call := Mount(dir, Attempt(w, n, plan, DataPath(hash, dir), dir).2 != NotStarted);
    forall e | e in dirs
      ensures Sound(start, DataPath(hash, e))
    {
      assert Sound(n, DataPath(hash, e));
    }
    CallKeepsSound(start, hash, dirs, call);
    forall e | e in dirs && e != dir
      ensures Untouched(n, ApplyCall(start, hash, call), hash, e)
    {
      CallsAreIsolated(start, hash, dirs, call, e);
      assert SameAt(n, start, DataPath(hash, e));
    }
  }

  class S3fsPlugin {
    const cloud: Cloud
    const mounter: Mounter
    const decode: Decoder
    const hash: string -> string

    constructor (cloud: Cloud, mounter: Mounter, decode: Decoder, hash: string -> string)
      ensures this.cloud == cloud && this.mounter == mounter && this.decode == decode && this.hash == hash
    {
      this.cloud, this.mounter, this.decode, this.hash := cloud, mounter, decode, hash;
    }

    method CheckBucket(plan: MountPlan) returns (ok: bool)
      modifies cloud
      ensures (cloud.world, ok) == BucketChecks(old(cloud.world), plan)
    {
      var sess := new CosSession(cloud, plan.endpoint, plan.region, plan.creds);
      var err := sess.CheckBucketAccess(plan.options.bucket);
      if err.Some? {
        return false;
      }
      if plan.options.objectPath != "" {
        var again := new CosSession(cloud, plan.endpoint, plan.region, plan.creds);
        var exist := again.CheckObjectPathExistence(plan.options.bucket, plan.options.objectPath);
        if exist.Err? || !exist.value {
          return false;
        }
      }
      return true;
    }

    method MountAccepted(plan: MountPlan, mountPath: string, dir: string) returns (stage: Stage)
      modifies cloud, mounter.kernel
      ensures (cloud.world, mounter.kernel.node, stage) ==
              Attempt(old(cloud.world), old(mounter.kernel.node), Some(plan), mountPath, dir)
    {
      if plan.options.caBundleB64 != "" {
        var wrote := mounter.kernel.PutFile();
        if !wrote {
          return NotStarted;
        }
      }
      var ok := CheckBucket(plan);
      if !ok {
        return NotStarted;
      }
      stage := mounter.MountChecked(mountPath, dir);
    }

    method MountInternal(dir: string, opts: map<OptionTag, string>) returns (r: MountResult)
      modifies cloud, mounter.kernel
      ensures (cloud.world, mounter.kernel.node, r) ==
              MountRequest(old(cloud.world), old(mounter.kernel.node), decode, DataPath(hash, dir), dir, opts)
    {
      var plan := Accept(decode, opts);
      if plan.None? {
        return MountResult(NotStarted, [], "");
      }
      var mountPath := DATA_ROOT + "/" + hash(dir);
      var stage := MountAccepted(plan.value, mountPath, dir);
      var args, password := [], "";
      if stage != NotStarted {
        if plan.value.creds.apiKey != "" {
          password := ":" + plan.value.creds.apiKey;
        } else {
          password := plan.value.creds.accessKey + ":" + plan.value.creds.secretKey;
        }
        args := BuildArgs(opts, plan.value, dir, PasswordFile(mountPath));
      }
      return MountResult(stage, args, password);
    }

    method UnmountInternal(dir: string) returns (ok: bool)
      modifies mounter.kernel
      ensures (mounter.kernel.node, ok) == UnmountEffect(old(mounter.kernel.node), DataPath(hash, dir), dir)
    {
      var mountPath := DATA_ROOT + "/" + hash(dir);
      ok := mounter.UnmountInternal(mountPath, dir);
    }
  }
}
