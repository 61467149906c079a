/** What a provisioned volume says, and what its new bucket is, traced to the claim's texts. */
module VolumeContents {
  import opened Wrappers
  import opened Text
  import opened Store
  import opened Records
  import opened Annotations
  import opened ClaimMerge
  import opened Provisioner
  import opened Admission
  import opened Rollback
  import opened VolumeDeletion

  // ---------------------------------------------------------------- the driver's options

  /** The settings that validation merged. */
  predicate MergedOptions(env: Env, p: Pvc, c: Sc, o: Options) {
    && NumberWins(p.chunkSizeMb, c.chunkSizeMb, o.chunkSizeMb)
    && NumberWins(p.parallelCount, c.parallelCount, o.parallelCount)
    && NumberWins(p.multiReqMax, c.multiReqMax, o.multiReqMax)
    && NumberWins(p.statCacheSize, c.statCacheSize, o.statCacheSize)
    && Wins(p.retryCount, c.retryCount, o.retryCount) && Wins(p.statCacheExpire, c.statCacheExpire, o.statCacheExpire)
    && Wins(EndpointText(env, p), c.osEndpoint, o.osEndpoint) && Wins(p.region, c.osStorageClass, o.osStorageClass)
    && Wins(p.iamEndpoint, c.iamEndpoint, o.iamEndpoint)
    && Wins(p.connectTimeout, c.connectTimeout, o.connectTimeout)
    && Wins(p.readwriteTimeout, c.readwriteTimeout, o.readwriteTimeout)
    && Wins(p.addMountParam, c.addMountParam, o.addMountParam) && Wins(p.objectPath, c.objectPath, o.objectPath)
  }

  /** The settings that are merged last, and those taken over. */
  predicate LateOptions(claim: Claim, p: Pvc, c: Sc, o: Options) {
    && Wins(p.debugLevel, c.debugLevel, o.debugLevel)
    && (o.curlDebug <==> p.curlDebug || c.curlDebug) && (o.useXattr <==> p.useXattr || c.useXattr)
    && (o.autoCache <==> p.autoCache) && (o.kernelCache <==> c.kernelCache && !p.autoCache)
    && Wins(TrimSpace(p.tlsCipherSuite), c.tlsCipherSuite, o.tlsCipherSuite)
    && claim.accessModes == [o.accessMode]
  }

  /** What only the kubelet, or an older volume, would set. */
  predicate NothingElse(o: Options) {
    && o.fsGroup == o.fsGroupNew == o.endpoint == o.region == ""
    && o.accessKeyB64 == o.secretKeyB64 == o.apiKeyB64 == o.serviceInstanceIdB64 == o.caBundleB64 == ""
  }

  lemma OptionsTraced(env: Env, claim: Claim, plan: Plan, p: Pvc, c: Sc)
    requires |claim.accessModes| == 1 && ClassTexts(env, p, c, plan.sc) && KeepsTexts(p, plan.pvc)
    requires Wins(p.objectPath, c.objectPath, plan.pvc.objectPath)
    ensures var o := DriverOptions(plan, FinalSc(plan), claim.accessModes[0]);
            && MergedOptions(env, p, c, o) && LateOptions(claim, p, c, o) && NothingElse(o)
            && o.bucket == plan.pvc.bucket && o.cosServiceIp == plan.serviceIp
  {
    assert claim.accessModes == [claim.accessModes[0]];
  }

  /** Every option of every provisioned volume, as the driver will read it. */
  lemma VolumeOptions(w: World, env: Env, claim: Claim, v: Volume, p: Pvc, c: Sc, plan: Plan) returns (o: Options)
    requires IsProvisioned(w, env, claim, v) && Prepare(env, claim) == Ready(plan)
    requires UnmarshalPvc(claim.annotations) == Some(p) && UnmarshalSc(claim.parameters) == Some(c)
    ensures UnmarshalOptions(v.options) == Some(o)
    ensures MergedOptions(env, p, c, o) && LateOptions(claim, p, c, o) && NothingElse(o)
    ensures o.bucket == plan.pvc.bucket
    ensures o.cosServiceIp == (if NamesService(p) && ServiceFound(env, p)
                               then env.services[(p.cosServiceNamespace, p.cosServiceName)].ip else "")
  {
    VolumeParts(w, env, claim, v);
    PlannedTexts(env, claim);
    o := DriverOptions(plan, FinalSc(plan), claim.accessModes[0]);
    OptionsRoundTrip(o);
    OptionsTraced(env, claim, plan, p, c);
  }

  // ---------------------------------------------------------------- the annotations and the rest

  /** The volume's record: 24 fields of the merged claim, and six left blank. */
  predicate RecordOf(m: Pvc, a: Pvc) {
    && a.autoCreateBucket == m.autoCreateBucket && a.autoDeleteBucket == m.autoDeleteBucket && a.bucket == m.bucket
    && a.objectPath == m.objectPath && a.endpoint == m.endpoint && a.region == m.region && a.secretName == m.secretName
    && a.chunkSizeMb == m.chunkSizeMb && a.parallelCount == m.parallelCount && a.multiReqMax == m.multiReqMax
    && a.statCacheSize == m.statCacheSize && a.retryCount == m.retryCount && a.statCacheExpire == m.statCacheExpire
    && a.iamEndpoint == m.iamEndpoint && a.validateBucket == m.validateBucket && a.secretNamespace == m.secretNamespace
    && a.connectTimeout == m.connectTimeout && a.readwriteTimeout == m.readwriteTimeout && a.useXattr == m.useXattr
    && a.curlDebug == m.curlDebug && a.debugLevel == m.debugLevel && a.cosServiceName == m.cosServiceName
    && a.setAccessPolicy == m.setAccessPolicy && a.addMountParam == m.addMountParam
    && a.tlsCipherSuite == a.cosServiceNamespace == a.accessPolicyAllowedIps == a.quotaLimit == a.bucketVersioning == ""
    && !a.autoCache
  }

  /** Name, secret reference, access modes, capacity and annotations of a volume. */
  lemma VolumeRecord(w: World, env: Env, claim: Claim, v: Volume)
    requires IsProvisioned(w, env, claim, v)
    ensures var m := Prepare(env, claim).plan.pvc;
            && v.name == claim.volume && v.capacity == claim.storage
            && v.accessModes == claim.accessModes && |v.accessModes| == 1
            && v.secretName == m.secretName && v.secretNamespace == m.secretNamespace
            && UnmarshalPvc(v.annotations).Some? && RecordOf(m, UnmarshalPvc(v.annotations).value)
  {
    VolumeParts(w, env, claim, v);
    ProvisionedVolume(w, claim, Prepare(env, claim).plan, 0, false);
    AnnotationsRebuilt(Prepare(env, claim).plan.pvc, v.annotations);
  }

  // ---------------------------------------------------------------- the new bucket

  /** A bucket that a volume's provisioning created: where it lies, whose it is, and how it is
      encrypted; nobody else is let in and it is empty. */
  lemma NewBucketTraced(before: World, env: Env, claim: Claim, v: Volume)
    requires IsProvisioned(before, env, claim, v)
    requires Prepare(env, claim).plan.Creates() && Prepare(env, claim).plan.pvc.bucket !in before.buckets
    ensures var plan, end := Prepare(env, claim).plan, ProvisionEffect(before, env, claim).0.buckets;
            var ref := (plan.pvc.secretNamespace, plan.pvc.secretName);
            && plan.pvc.bucket in end && ref in env.secrets
            && var b, data := end[plan.pvc.bucket], env.secrets[ref].data;
            && b.home == plan.sc.osEndpoint && b.location == plan.sc.osStorageClass
            && b.rootKey == Entry(data, KpRootKeyCrn)
            && b.owner == (if Entry(data, ApiKey) != "" then Entry(data, ServiceInstanceId)
                           else if ApiKey in data then "" else Entry(data, AccessKey))
            && b.guests == {} && b.objects == [] && b.retained == 0
  {
    SessionIffValidated(env, claim);
    PlannedSession(env, claim);
    ProvisionedBucket(before, env, claim, v);
  }
}
