/** Concrete claims that reach the corners the theorems speak of. */
module Witnesses {
  import opened Wrappers
  import opened Text
  import opened Store
  import opened Codec
  import opened Records
  import opened Annotations
  import opened Provisioner
  import opened Backend
  import opened ExistingBucket
  import opened Rollback
  import opened VolumeDeletion
  import opened BucketSettings
  import opened S3fsOptions
  import opened VolumeAcceptance
  import opened ObjectPath
  import IpLists

  // ---------------------------------------------------------------- a cluster and some claims

  const KEYS := Secret(DRIVER_NAME, map[AccessKey := "key", SecretKeyData := "secret", ResConfApiKey := "policy"])

  /** A VPC cluster with one secret, whose provider reports `endpoints`. */
  function Cluster(firewall: bool, quota: bool, endpoints: string, isIp: string -> bool): Env {
    Env(map[("team", "keys") := KEYS], map[], _ => true, isIp, [], false, firewall, quota, "vpc-gen2", endpoints)
  }

  predicate IsCluster(env: Env) {
    && env.secrets == map[("team", "keys") := KEYS] && env.services == map[]
    && (forall call :: env.ok(call)) && !env.allowCrossNsSecret && env.providerType == "vpc-gen2"
    && (env.configAccessPolicy ==> env.vpcEndpoints != "")
  }

  const SESSION := Session("https://s3", "", Credentials("key", "secret", "", "", "https://iam"))

  /** A plain cluster: no policies, and nothing counts as an address. */
  const PLAIN: Env := Cluster(false, false, "", _ => false)

  /** What a claim for bucket "b" with secret "keys" says besides. */
  datatype Wish = Wish(create: string, validate: string, versioning: string, quota: string)

  /** What a storage class says besides its two endpoints. */
  datatype Class = Class(timeout: string, autoDelete: string)

  const CREATE := Wish("", "", "", "")
  const TRUST := Wish("false", "no", "", "")
  const SILENT := Class("", "")

  const ONE_MODE: seq<string> := ["ReadWriteOnce"]

  function Notes(a: Wish): Pvc {
    Pvc(a.create, "", "b", "", "", "", "keys", "", "", "", "", "", "", "", a.validate, "", "", "", false, false, "",
        "", "", "",
        false, "", "", "", a.quota, a.versioning)
  }

  function Parameters(k: Class): map<ScTag, string> {
    map[ScTag.OSEndpoint := "https://s3", ScTag.IAMEndpoint := "https://iam", ScTag.ConnectTimeoutSeconds := k.timeout,
        ScTag.AutoDeleteBucket := k.autoDelete]
  }

  function ClaimOf(a: Wish, k: Class, modes: seq<string>): Claim {
    PvcRoundTrip(Notes(a));
    Claim("team", "pv", MarshalPvc(Notes(a)).value, Parameters(k), modes, 1)
  }

  // ---------------------------------------------------------------- what the validator makes of them

  lemma ScOfAt(v: ScTag -> Value, t: ScTag)
    requires HasKind(v(t), SC_SCHEMA.kind(t))
    ensures Sc.Of(v).Field(t) == v(t)
  {
  }

  function ScText(m: map<ScTag, string>, t: ScTag): string {
    if t in m then m[t] else ""
  }

  /** The text fields of `c` are those of `m`, missing ones blank. */
  ghost predicate Spells(c: Sc, m: map<ScTag, string>) {
    forall t: ScTag :: SC_SCHEMA.kind(t) == Text ==> c.Field(t) == Str(ScText(m, t))
  }

  lemma ClassFields(k: Class)
    ensures UnmarshalSc(Parameters(k)).Some? && Spells(UnmarshalSc(Parameters(k)).value, Parameters(k))
  {
    var m := Parameters(k);
    assert forall t: ScTag :: t in SC_SCHEMA.tags ==> FieldOf(SC_SCHEMA, m, t).Some?;
    forall t: ScTag | SC_SCHEMA.kind(t) == Text
      ensures Sc.Of(Unmarshalled(SC_SCHEMA, m)).Field(t) == Str(ScText(m, t))
    {
      ScOfAt(Unmarshalled(SC_SCHEMA, m), t);
    }
  }

  predicate IsClass(c: Sc, k: Class) {
    && c.secretName == c.secretNamespace == c.autoCreateBucket == c.bucket == c.objectPath == ""
    && c.bucketVersioning == c.retryCount == c.statCacheExpire == c.readwriteTimeout == c.osStorageClass == ""
    && c.osEndpoint == "https://s3" && c.iamEndpoint == "https://iam"
    && c.connectTimeout == k.timeout && c.autoDeleteBucket == k.autoDelete
  }

  lemma ClassBlanks(c: Sc, k: Class)
    requires Spells(c, Parameters(k))
    ensures c.secretName == c.secretNamespace == c.autoCreateBucket == c.bucket == c.objectPath == ""
  {
    assert c.Field(ScTag.SecretName) == Str(c.secretName) && c.Field(ScTag.SecretNamespace) == Str(c.secretNamespace);
    assert c.Field(ScTag.AutoCreateBucket) == Str(c.autoCreateBucket);
    assert c.Field(ScTag.Bucket) == Str(c.bucket) && c.Field(ScTag.ObjectPath) == Str(c.objectPath);
  }

  lemma ClassNumbers(c: Sc, k: Class)
    requires Spells(c, Parameters(k))
    ensures c.bucketVersioning == c.retryCount == c.statCacheExpire == c.readwriteTimeout == ""
  {
    assert c.Field(ScTag.BucketVersioning) == Str(c.bucketVersioning);
    assert c.Field(ScTag.S3FSFUSERetryCount) == Str(c.retryCount);
    assert c.Field(ScTag.StatCacheExpireSeconds) == Str(c.statCacheExpire);
    assert c.Field(ScTag.ReadwriteTimeoutSeconds) == Str(c.readwriteTimeout);
  }

  lemma ClassPlaces(c: Sc, k: Class)
    requires Spells(c, Parameters(k))
    ensures c.osStorageClass == "" && c.osEndpoint == "https://s3" && c.iamEndpoint == "https://iam"
    ensures c.connectTimeout == k.timeout && c.autoDeleteBucket == k.autoDelete
  {
    assert c.Field(ScTag.ConnectTimeoutSeconds) == Str(c.connectTimeout);
    assert c.Field(ScTag.AutoDeleteBucket) == Str(c.autoDeleteBucket);
    assert c.Field(ScTag.OSStorageClass) == Str(c.osStorageClass);
    assert c.Field(ScTag.OSEndpoint) == Str(c.osEndpoint) && c.Field(ScTag.IAMEndpoint) == Str(c.iamEndpoint);
  }

  lemma ClassReads(k: Class)
    ensures UnmarshalSc(Parameters(k)).Some? && IsClass(UnmarshalSc(Parameters(k)).value, k)
  {
    ClassFields(k);
    ClassBlanks(UnmarshalSc(Parameters(k)).value, k);
    ClassNumbers(UnmarshalSc(Parameters(k)).value, k);
    ClassPlaces(UnmarshalSc(Parameters(k)).value, k);
  }

  lemma Schemes()
    ensures HasScheme("https://s3") && HasScheme("https://iam")
  {
    assert "https://s3"[..8] == "https://" && "https://iam"[..8] == "https://";
  }

  /** The wishes below stay within these texts. */
  predicate Ordinary(a: Wish) {
    a.create in ["", "false"] && a.versioning in ["", "1", "true"] && a.quota in ["", "0"]
  }

  lemma NotesPass(env: Env, a: Wish, c: Sc, k: Class)
    requires Ordinary(a) && IsClass(c, k)
    ensures ClaimChecks(env, Notes(a), c)
  {
    NormalisedTwice(a.versioning);
  }

  function Merged(a: Wish, k: Class): Pvc {
    Notes(a.(create := FirstOf(a.create, "true"))).(secretNamespace := "team",
                                                    autoDeleteBucket := FirstOf(k.autoDelete, "false"))
  }

  lemma NotesMerge(env: Env, a: Wish, c: Sc, k: Class)
    requires Ordinary(a) && IsClass(c, k) && !env.allowCrossNsSecret
    ensures MergedPvc(env, "team", Notes(a), c, "") == Merged(a, k)
  {
    NormalisedTwice(a.versioning);
  }

  lemma ClassPasses(a: Wish, c: Sc, k: Class)
    requires IsClass(c, k)
    ensures SettingsChecks(Merged(a, k), MergedSc(Merged(a, k), c)) && IsClass(MergedSc(Merged(a, k), c), k)
  {
    Schemes();
  }

  lemma NotesAccepted(env: Env, a: Wish, c: Sc, k: Class)
    requires Ordinary(a) && IsClass(c, k) && IsCluster(env)
    ensures JudgeParsed(env, "team", Notes(a), c) == Accepted(Settings(Merged(a, k), MergedSc(Merged(a, k), c), ""))
  {
    NotesPass(env, a, c, k);
    NotesMerge(env, a, c, k);
    ClassPasses(a, c, k);
  }

  // ---------------------------------------------------------------- the plans

  lemma NotesJudged(env: Env, a: Wish, k: Class, modes: seq<string>) returns (sc: Sc)
    requires Ordinary(a) && IsCluster(env)
    ensures IsClass(sc, k)
    ensures Judge(env, ClaimOf(a, k, modes)) == Accepted(Settings(Merged(a, k), sc, ""))
  {
    var c := UnmarshalSc(Parameters(k)).value;
    PvcRoundTrip(Notes(a));
    ClassReads(k);
    NotesAccepted(env, a, c, k);
    ClassPasses(a, c, k);
    sc := MergedSc(Merged(a, k), c);
  }

  lemma DriverNameIsTrim()
    ensures TrimSpace(DRIVER_NAME) == DRIVER_NAME
  {
    assert !IsSpace(DRIVER_NAME[0]) && !IsSpace(DRIVER_NAME[|DRIVER_NAME| - 1]);
  }

  lemma KeysRead(env: Env)
    requires IsCluster(env)
    ensures GetLogin(env, "team", "keys") == Some(Login(Credentials("key", "secret", "", "", ""), [], "policy", ""))
  {
    DriverNameIsTrim();
  }

  lemma ProviderAnswers(env: Env, p: Pvc)
    requires IsCluster(env) && env.vpcEndpoints != "" && p.accessPolicyAllowedIps == ""
    ensures FirewallIps(env, p) == Some(env.vpcEndpoints)
  {
    assert "vpc-gen2" <= "vpc-gen2"[0..];
  }

  /** The plan of a claim that creates bucket "b". */
  predicate CreatesB(plan: Plan, env: Env, a: Wish, k: Class) {
    && plan.Creates() && plan.pvc.bucket == "b" && plan.session == Some(SESSION)
    && plan.Versioning() == (if a.versioning == "" then None else Some(a.versioning == "true"))
    && plan.firewall == (if env.configAccessPolicy then Some(env.vpcEndpoints) else None)
    && plan.quota == (if env.configQuota then Some(1) else None)
    && plan.pvc.autoDeleteBucket == FirstOf(k.autoDelete, "false")
  }

  lemma CreatingAdmitted(env: Env, p: Pvc)
    requires IsCluster(env) && p.autoCreateBucket == "true" && p.bucket == "b" && p.accessPolicyAllowedIps == ""
    requires p.secretNamespace == "team" && p.secretName == "keys"
    ensures Admissible(env, "team", p)
    ensures FirewallIps(env, p).Some? ==> FirewallIps(env, p) == Some(env.vpcEndpoints)
  {
    KeysRead(env);
    if env.vpcEndpoints != "" {
      ProviderAnswers(env, p);
    }
  }

  lemma CreatingPlanned(env: Env, claim: Claim, a: Wish, k: Class, sc: Sc)
    requires IsCluster(env) && Ordinary(a) && a.create == "" && IsClass(sc, k) && claim.storage == 1
    ensures var s := Settings(Merged(a, k), sc, "");
            Admissible(env, "team", s.pvc) && CreatesB(PlanOf(env, claim, s), env, a, k)
  {
    CreatingAdmitted(env, Merged(a, k));
    KeysRead(env);
    NormalisedTwice(a.versioning);
  }

  lemma CreatingIsReady(env: Env, a: Wish, k: Class, modes: seq<string>)
    requires IsCluster(env) && Ordinary(a) && a.create == ""
    ensures var prepared := Prepare(env, ClaimOf(a, k, modes));
            prepared.Ready? && CreatesB(prepared.plan, env, a, k)
  {
    var sc := NotesJudged(env, a, k, modes);
    CreatingPlanned(env, ClaimOf(a, k, modes), a, k, sc);
  }

  /** The plan of a claim for an existing bucket "b" that is not to be looked at. */
  predicate TrustsB(plan: Plan, a: Wish) {
    && !plan.Creates() && plan.pvc.bucket == "b" && plan.session.None? && !plan.validate
    && plan.pvc.objectPath == "" && plan.Versioning().Some? == (a.versioning != "")
    && plan.firewall.None? && plan.quota.None?
  }

  lemma TrustingPlanned(claim: Claim, a: Wish, k: Class, sc: Sc)
    requires Ordinary(a) && a.create == "false" && a.validate == "no" && k.autoDelete != "true"
    ensures var s := Settings(Merged(a, k), sc, "");
            && Admissible(PLAIN, "team", s.pvc) && TrustsB(PlanOf(PLAIN, claim, s), a)
            && PlanOf(PLAIN, claim, s).pvc.autoDeleteBucket == FirstOf(k.autoDelete, "false")
  {
    NormalisedTwice(a.versioning);
  }

  lemma TrustingIsReady(a: Wish, k: Class)
    requires Ordinary(a) && a.create == "false" && a.validate == "no" && k.autoDelete != "true"
    ensures var prepared := Prepare(PLAIN, ClaimOf(a, k, ONE_MODE));
            && prepared.Ready? && TrustsB(prepared.plan, a) && IsClass(prepared.plan.sc, k)
            && prepared.plan.pvc.autoDeleteBucket == FirstOf(k.autoDelete, "false")
  {
    var sc := NotesJudged(PLAIN, a, k, ONE_MODE);
    TrustingPlanned(ClaimOf(a, k, ONE_MODE), a, k, sc);
  }

  // ---------------------------------------------------------------- corners of the bucket's life

  /** The cluster's own bucket "b", unversioned and within a page, can be lost whole by
      provisioning a claim over it. */
  lemma OwnedBucketIsLost(w: World)
    requires "b" in w.buckets && Denial(w, SESSION, "b") == None && w.buckets["b"].owner == "key"
    requires var b := w.buckets["b"];
             b.versioning == Unset && b.retained == 0 && b.objects != [] && |b.objects| <= w.page
    ensures ProvisionAfter(w, DropSecond(w.clock), PLAIN, ClaimOf(CREATE.(versioning := "true"), SILENT, ONE_MODE)) ==
            w.buckets - {"b"}
  {
    var a := CREATE.(versioning := "true");
    CreatingIsReady(PLAIN, a, SILENT, ONE_MODE);
    ProvisionIsTransaction(w, DropSecond(w.clock), PLAIN, ClaimOf(a, SILENT, ONE_MODE));
    RollbackDeletesOwnedBucket(w, ClaimOf(a, SILENT, ONE_MODE), Prepare(PLAIN, ClaimOf(a, SILENT, ONE_MODE)).plan, "b");
  }

  /** Without faults, a creating claim with one access mode becomes a volume with the bucket it
      asks for. */
  lemma CreatingSucceeds(w: World, env: Env, a: Wish, k: Class)
    requires IsCluster(env) && Ordinary(a) && a.create == "" && Quiet(w) && "b" !in w.buckets
    ensures var (end, outcome) := ProvisionEffect(w, env, ClaimOf(a, k, ONE_MODE));
            var prepared := Prepare(env, ClaimOf(a, k, ONE_MODE));
            && outcome.Provisioned? && prepared.Ready? && CreatesB(prepared.plan, env, a, k)
            && end.buckets == w.buckets["b" := BucketAfter(prepared.plan, SESSION, STEPS)]
  {
    CreatingIsReady(env, a, k, ONE_MODE);
    QuietCreation(w, env, ClaimOf(a, k, ONE_MODE));
  }

  /** The annotation "1" is accepted, ParseBool reads it as true, and the new bucket is
      suspended. */
  lemma OneSuspends(w: World)
    requires Quiet(w) && "b" !in w.buckets
    ensures var (end, outcome) := ProvisionEffect(w, PLAIN, ClaimOf(CREATE.(versioning := "1"), SILENT, ONE_MODE));
            outcome.Provisioned? && MeansTrue("1") && "b" in end.buckets && end.buckets["b"].versioning == Suspended
  {
    CreatingSucceeds(w, PLAIN, CREATE.(versioning := "1"), SILENT);
  }

  /** On a cluster that sets quotas, the quota annotation "0" is accepted, ParseBool reads it as
      false, and the quota is set. */
  lemma ZeroSetsQuota(w: World)
    requires Quiet(w) && "b" !in w.buckets
    ensures var env := Cluster(false, true, "", _ => false);
            var (end, outcome) := ProvisionEffect(w, env, ClaimOf(CREATE.(quota := "0"), SILENT, ONE_MODE));
            outcome.Provisioned? && MeansFalse("0") && "b" in end.buckets && end.buckets["b"].quota == Some(1)
  {
    CreatingSucceeds(w, Cluster(false, true, "", _ => false), CREATE.(quota := "0"), SILENT);
  }

  /** The provider's list goes unchecked: whatever counts as an address, if "x" does not, a
      volume is provisioned all the same and its bucket's firewall holds the provider's "x". */
  lemma ProviderListIsUnchecked(w: World, isIp: string -> bool)
    requires Quiet(w) && "b" !in w.buckets && !isIp("x")
    ensures var env := Cluster(true, false, "x", isIp);
            var (end, outcome) := ProvisionEffect(w, env, ClaimOf(CREATE, SILENT, ONE_MODE));
            outcome.Provisioned? && "b" in end.buckets && !OnlyAddresses(end.buckets["b"], isIp)
  {
    var env := Cluster(true, false, "x", isIp);
    CreatingSucceeds(w, env, CREATE, SILENT);
    var plan := Prepare(env, ClaimOf(CREATE, SILENT, ONE_MODE)).plan;
    NonsenseIsStored(BucketAfter(plan, SESSION, STEPS), plan, isIp);
  }

  lemma NonsenseIsStored(b: Bucket, plan: Plan, isIp: string -> bool)
    requires plan.firewall == Some("x") && b.firewall == Some(IpLists.Entries("x")) && !isIp("x")
    ensures !OnlyAddresses(b, isIp)
  {
    assert Split("x", ',') == ["x"] by {
      assert "x"[1..] == "" && ["x"[0]] + "" == "x";
      assert Split("", ',')[1..] == [];
    }
    assert TrimSpace("x") == "x";
    assert IpLists.Entries("x")[0] == "x";
  }

  /** Two access modes leak the bucket without any fault. */
  lemma TwoModesLeak(w: World)
    requires Quiet(w) && "b" !in w.buckets
    ensures var (end, outcome) := ProvisionEffect(w, PLAIN, ClaimOf(CREATE, SILENT, ["ReadWriteOnce", "ReadOnlyMany"]));
            !outcome.Provisioned? && "b" in end.buckets
  {
    var claim := ClaimOf(CREATE, SILENT, ["ReadWriteOnce", "ReadOnlyMany"]);
    CreatingIsReady(PLAIN, CREATE, SILENT, claim.accessModes);
    QuietCreation(w, PLAIN, claim);
  }

  // ---------------------------------------------------------------- corners of a volume's end

  lemma DeletionOfKept(w: World, a: Wish, k: Class, now: World, later: Env)
    requires ProvisionEffect(w, PLAIN, ClaimOf(a, k, ONE_MODE)).1.Provisioned? && k.autoDelete !in ["", "true"]
    requires Prepare(PLAIN, ClaimOf(a, k, ONE_MODE)).Ready?
    requires Prepare(PLAIN, ClaimOf(a, k, ONE_MODE)).plan.pvc.autoDeleteBucket == k.autoDelete
    ensures var v := ProvisionEffect(w, PLAIN, ClaimOf(a, k, ONE_MODE)).1.volume;
            DeleteEffect(now, later, v) == (now, IsBool(k.autoDelete))
  {
    var claim := ClaimOf(a, k, ONE_MODE);
    PlannedSwitches(PLAIN, claim);
    KeptVolumeIff(w, PLAIN, claim, ProvisionEffect(w, PLAIN, claim).1.volume, now, later);
  }

  lemma SwitchTexts()
    ensures !IsBool("yes") && "yes" !in ["", "true"]
    ensures IsBool("1") && MeansTrue("1") && "1" !in ["", "true"]
  {
    assert "yes"[0] == 'y';
    assert |"1"| == 1;
  }

  /** A storage class with auto-delete "yes": its claim becomes a volume in any quiet store, and
      every deletion of the volume fails, for ever and without touching the store. */
  lemma YesCannotBeDeleted(w: World, now: World, later: Env)
    requires Quiet(w) && "b" !in w.buckets
    ensures var outcome := ProvisionEffect(w, PLAIN, ClaimOf(CREATE, Class("", "yes"), ONE_MODE)).1;
            outcome.Provisioned? && DeleteEffect(now, later, outcome.volume) == (now, false)
  {
    SwitchTexts();
    CreatingSucceeds(w, PLAIN, CREATE, Class("", "yes"));
    DeletionOfKept(w, CREATE, Class("", "yes"), now, later);
  }

  /** With auto-delete "1", which ParseBool reads as true, the deletion reports success and the
      bucket it made stays. */
  lemma OneKeepsBucket(w: World, later: Env)
    requires Quiet(w) && "b" !in w.buckets
    ensures var (end, outcome) := ProvisionEffect(w, PLAIN, ClaimOf(CREATE, Class("", "1"), ONE_MODE));
            && outcome.Provisioned? && MeansTrue("1")
            && DeleteEffect(end, later, outcome.volume) == (end, true) && "b" in end.buckets
  {
    SwitchTexts();
    CreatingSucceeds(w, PLAIN, CREATE, Class("", "1"));
    DeletionOfKept(w, CREATE, Class("", "1"), ProvisionEffect(w, PLAIN, ClaimOf(CREATE, Class("", "1"), ONE_MODE)).0,
                   later);
  }

  // ---------------------------------------------------------------- corners of a bucket not looked at

  /** With versioning asked for, the call uses the session it never created. */
  lemma NilIsReached(w: World)
    ensures var claim := ClaimOf(TRUST.(versioning := "true"), SILENT, ONE_MODE);
            Prepare(PLAIN, claim).Ready? && ProvisionEffect(w, PLAIN, claim).1 == NilDereference(1)
  {
    var a := TRUST.(versioning := "true");
    TrustingIsReady(a, SILENT);
    NilAtVersioning(w, ClaimOf(a, SILENT, ONE_MODE), Prepare(PLAIN, ClaimOf(a, SILENT, ONE_MODE)).plan, a);
  }

  lemma NilAtVersioning(w: World, claim: Claim, plan: Plan, a: Wish)
    requires TrustsB(plan, a) && a.versioning != ""
    ensures RunFrom(w, claim, plan, 0, false).1 == NilDereference(1)
  {
    assert RunFrom(w, claim, plan, 0, false) == RunFrom(w, claim, plan, 1, false);
  }

  lemma {:induction false} TrustingFinishes(w: World, claim: Claim, plan: Plan, k: nat)
    requires k <= STEPS && TrustsB(plan, TRUST)
    ensures RunFrom(w, claim, plan, k, false).1 == Finish(claim, plan)
    decreases STEPS - k
  {
    if k < STEPS {
      TrustingFinishes(w, claim, plan, k + 1);
    }
  }

  /** A storage class that says "soon": the volume is provisioned in any store, and the driver
      refuses it whatever the kubelet adds. */
  lemma RefusedVolume(w: World, decode: Decoder, opts: map<OptionTag, string>)
    ensures var outcome := ProvisionEffect(w, PLAIN, ClaimOf(TRUST, Class("soon", ""), ONE_MODE)).1;
            outcome.Provisioned? && (MountsVolume(decode, outcome.volume.options, opts) ==> Accept(decode, opts).None?)
  {
    var claim := ClaimOf(TRUST, Class("soon", ""), ONE_MODE);
    TrustingIsReady(TRUST, Class("soon", ""));
    TrustingFinishes(w, claim, Prepare(PLAIN, claim).plan, 0);
    FinishedIff(claim, Prepare(PLAIN, claim).plan);
    var outcome := ProvisionEffect(w, PLAIN, claim).1;
    SoonIsNoInteger();
    if MountsVolume(decode, outcome.volume.options, opts) {
      ProvisionedVolumeAcceptedIff(w, PLAIN, claim, outcome.volume, decode, opts);
    }
  }

  lemma SoonIsNoInteger()
    ensures !BlankOrInt("soon")
  {
    assert !IsDigit("soon"[0]);
  }

  /** A directory that exists only through a deeper key is reported absent, whatever its path. */
  lemma DeeperKeyIsNotEnough(w: World, s: Session, name: string, path: string)
    requires Denial(w, s, name) == None && w.fates(w.clock) == Served
    requires w.buckets[name].objects == [ListingPrefix(path) + "b"]
    ensures HasPrefix(w.buckets[name].objects[0], ListingPrefix(path))
            && ObjectPathEffect(w, s, name, path).1 == Ok(false)
  {
    var q := ListingPrefix(path);
    OneKeyIsSorted(q + "b");
    PathFoundIff(w, s, name, path);
    assert q + "/" != q + "b" by {
      assert (q + "/")[|q|] == '/' && (q + "b")[|q|] == 'b';
    }
  }

  lemma OneKeyIsSorted(key: string)
    ensures Sorted([key])
  {
  }
}
