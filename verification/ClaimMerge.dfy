/** What validation makes of a claim, in terms of the claim's own texts: `p` are its
    annotations, `c` its storage class. */
module ClaimMerge {
  import opened Wrappers
  import opened Text
  import opened Records
  import opened Annotations
  import IpLists

  /** `r` is the annotated text if there is one, else the storage class's. */
  predicate Wins(annotated: string, inherited: string, r: string) {
    (annotated != "" ==> r == annotated) && (annotated == "" ==> r == inherited)
  }

  /** `r` is the annotated number if there is one, else the storage class's. */
  predicate NumberWins(annotated: string, inherited: Int64, r: Int64) {
    (annotated != "" ==> Atoi(annotated) == Some(r)) && (annotated == "" ==> r == inherited)
  }

  // ---------------------------------------------------------------- the endpoint

  /** Both names of an in-cluster store are given. */
  predicate NamesService(p: Pvc) {
    p.cosServiceName != "" && p.cosServiceNamespace != ""
  }

  predicate ServiceFound(env: Env, p: Pvc) {
    env.ok(GetService) && (p.cosServiceNamespace, p.cosServiceName) in env.services
  }

  predicate ServicePorts(env: Env, p: Pvc) {
    ServiceFound(env, p) && |env.services[(p.cosServiceNamespace, p.cosServiceName)].ports| >= 1
  }

  /** The annotated endpoint; for an in-cluster store its service name and first port. */
  function EndpointText(env: Env, p: Pvc): string {
    if NamesService(p) && ServicePorts(env, p) then
      "https://" + p.cosServiceName + "." + p.cosServiceNamespace + ".svc.cluster.local:" +
      Itoa(env.services[(p.cosServiceNamespace, p.cosServiceName)].ports[0])
    else p.endpoint
  }

  // ---------------------------------------------------------------- what is accepted

  /** Every entry of the list is blank or an address. */
  predicate NothingElseIn(ips: string, isIp: string -> bool) {
    forall e :: e in IpLists.Entries(ips) ==> e == "" || isIp(e)
  }

  /** The texts that are read before the first remote call. */
  predicate TextsReadable(env: Env, p: Pvc, c: Sc) {
    && (p.secretName != "" || c.secretName != "")
    && (p.autoCreateBucket == "" || IsBool(p.autoCreateBucket))
    && (p.autoDeleteBucket == "" || IsBool(p.autoDeleteBucket))
    && (p.bucketVersioning != "" ==> IsBool(ToLower(TrimSpace(p.bucketVersioning))))
    && (p.bucketVersioning == "" && c.bucketVersioning != "" ==> IsBool(ToLower(TrimSpace(c.bucketVersioning))))
    && (p.setAccessPolicy == "" || IsBool(p.setAccessPolicy))
    && (p.quotaLimit == "" || IsBool(p.quotaLimit))
    && (p.accessPolicyAllowedIps != "" ==> NothingElseIn(p.accessPolicyAllowedIps, env.isIp))
  }

  /** The secret is there, and a certificate in it can be written. */
  predicate SecretReadable(env: Env, namespace: string, p: Pvc, c: Sc) {
    var name := if p.secretName != "" then p.secretName else c.secretName;
    var place := if !env.allowCrossNsSecret then namespace
                 else if p.secretNamespace != "" then p.secretNamespace
                 else if c.secretNamespace != "" then c.secretNamespace else namespace;
    && env.ok(GetCertSecret) && (place, name) in env.secrets
    && (CaBundle !in env.secrets[(place, name)].data || env.ok(WriteCert))
  }

  predicate UrlReadable(annotated: string, inherited: string) {
    if annotated != "" then HasScheme(annotated) else HasScheme(inherited)
  }

  predicate NumberReadable(annotated: string, inherited: string, least: int) {
    var text := if annotated != "" then annotated else inherited;
    text == "" || (Atoi(text).Some? && least <= Atoi(text).value)
  }

  /** The texts that are read after it. The storage class's own timeouts are not. */
  predicate SettingsReadable(env: Env, p: Pvc, c: Sc) {
    && UrlReadable(EndpointText(env, p), c.osEndpoint)
    && UrlReadable(p.iamEndpoint, c.iamEndpoint)
    && NumberReadable(p.retryCount, c.retryCount, 1)
    && NumberReadable(p.statCacheExpire, c.statCacheExpire, 0)
    && (p.chunkSizeMb == "" || Atoi(p.chunkSizeMb).Some?) && (p.parallelCount == "" || Atoi(p.parallelCount).Some?)
    && (p.multiReqMax == "" || Atoi(p.multiReqMax).Some?) && (p.statCacheSize == "" || Atoi(p.statCacheSize).Some?)
    && (p.connectTimeout == "" || Atoi(p.connectTimeout).Some?)
    && (p.readwriteTimeout == "" || Atoi(p.readwriteTimeout).Some?)
  }

  /** An object path and the creation of its bucket exclude each other. */
  predicate PathWithoutCreation(p: Pvc, c: Sc) {
    var creates := p.autoCreateBucket == "true" ||
                   (p.autoCreateBucket == "" && (c.autoCreateBucket == "true" || c.autoCreateBucket == ""));
    creates ==> p.objectPath == "" && c.objectPath == ""
  }

  lemma ChecksIff(env: Env, p: Pvc, c: Sc)
    ensures ClaimChecks(env, p, c) <==> TextsReadable(env, p, c)
  {
  }

  lemma CertIff(env: Env, namespace: string, p: Pvc, c: Sc, endpoint: string)
    ensures var m := MergedPvc(env, namespace, p, c, endpoint);
            CertReadable(env, m.secretNamespace, m.secretName) <==> SecretReadable(env, namespace, p, c)
  {
  }

  lemma SettingsIff(env: Env, namespace: string, p: Pvc, c: Sc)
    ensures var m := MergedPvc(env, namespace, p, c, EndpointText(env, p));
            SettingsChecks(m, MergedSc(m, c)) <==> SettingsReadable(env, p, c) && PathWithoutCreation(p, c)
  {
  }

  lemma MergedAcceptedIff(env: Env, namespace: string, p: Pvc, c: Sc, serviceIp: string)
    ensures JudgeMerged(env, MergedPvc(env, namespace, p, c, EndpointText(env, p)), c, serviceIp).Accepted? <==>
              SecretReadable(env, namespace, p, c) && SettingsReadable(env, p, c) && PathWithoutCreation(p, c)
    ensures !JudgeMerged(env, MergedPvc(env, namespace, p, c, EndpointText(env, p)), c, serviceIp).Crashed?
  {
    CertIff(env, namespace, p, c, EndpointText(env, p));
    SettingsIff(env, namespace, p, c);
  }

  lemma EndpointIs(env: Env, p: Pvc)
    ensures UsesService(p) <==> NamesService(p)
    ensures ServiceOf(env, p).Some? <==> ServiceFound(env, p)
    ensures ServiceFound(env, p) ==> (ServiceOf(env, p).value.ports != [] <==> ServicePorts(env, p))
    ensures UsesService(p) && ServicePorts(env, p) ==>
              EndpointText(env, p) == ServiceUrl(p, ServiceOf(env, p).value.ports[0])
    ensures !UsesService(p) ==> EndpointText(env, p) == p.endpoint
  {
  }

  /** Exactly which claims validation accepts, and which make it panic: a service without
      ports, if nothing was refused before it is looked up. */
  lemma AcceptedIff(env: Env, namespace: string, p: Pvc, c: Sc)
    ensures JudgeParsed(env, namespace, p, c).Accepted? <==>
              && TextsReadable(env, p, c)
              && (NamesService(p) ==> ServicePorts(env, p))
              && SecretReadable(env, namespace, p, c)
              && SettingsReadable(env, p, c) && PathWithoutCreation(p, c)
    ensures JudgeParsed(env, namespace, p, c).Crashed? <==>
              TextsReadable(env, p, c) && NamesService(p) && ServiceFound(env, p) && !ServicePorts(env, p)
  {
    ChecksIff(env, p, c);
    EndpointIs(env, p);
    MergedAcceptedIff(env, namespace, p, c, if UsesService(p) && ServiceFound(env, p) then ServiceOf(env, p).value.ip
                                            else "");
  }

  // ---------------------------------------------------------------- what is merged

  /** The texts that decide about the bucket. */
  predicate BucketTexts(p: Pvc, c: Sc, m: Pvc) {
    && Wins(p.bucket, c.bucket, m.bucket) && Wins(p.objectPath, c.objectPath, m.objectPath)
    && Wins(p.secretName, c.secretName, m.secretName)
    && Wins(p.autoCreateBucket, if c.autoCreateBucket != "" then c.autoCreateBucket else "true", m.autoCreateBucket)
    && Wins(p.autoDeleteBucket, if c.autoDeleteBucket != "" then c.autoDeleteBucket else "false", m.autoDeleteBucket)
    && m.bucketVersioning ==
       ToLower(TrimSpace(if p.bucketVersioning != "" then p.bucketVersioning else c.bucketVersioning))
  }

  /** The annotations that validation leaves as they are. */
  predicate KeepsTexts(p: Pvc, m: Pvc) {
    && m.region == p.region && m.iamEndpoint == p.iamEndpoint && m.validateBucket == p.validateBucket
    && m.chunkSizeMb == p.chunkSizeMb && m.parallelCount == p.parallelCount && m.multiReqMax == p.multiReqMax
    && m.statCacheSize == p.statCacheSize && m.retryCount == p.retryCount && m.statCacheExpire == p.statCacheExpire
    && m.connectTimeout == p.connectTimeout && m.readwriteTimeout == p.readwriteTimeout
    && m.useXattr == p.useXattr && m.curlDebug == p.curlDebug && m.debugLevel == p.debugLevel
    && m.tlsCipherSuite == p.tlsCipherSuite && m.autoCache == p.autoCache && m.addMountParam == p.addMountParam
    && m.cosServiceName == p.cosServiceName && m.cosServiceNamespace == p.cosServiceNamespace
    && m.setAccessPolicy == p.setAccessPolicy && m.quotaLimit == p.quotaLimit
    && m.accessPolicyAllowedIps == p.accessPolicyAllowedIps
  }

  /** The storage class values that annotations override, and those they do not. */
  predicate ClassTexts(env: Env, p: Pvc, c: Sc, m: Sc) {
    && Wins(EndpointText(env, p), c.osEndpoint, m.osEndpoint) && Wins(p.region, c.osStorageClass, m.osStorageClass)
    && Wins(p.iamEndpoint, c.iamEndpoint, m.iamEndpoint)
    && Wins(p.retryCount, c.retryCount, m.retryCount) && Wins(p.statCacheExpire, c.statCacheExpire, m.statCacheExpire)
    && NumberWins(p.chunkSizeMb, c.chunkSizeMb, m.chunkSizeMb)
    && NumberWins(p.parallelCount, c.parallelCount, m.parallelCount)
    && NumberWins(p.multiReqMax, c.multiReqMax, m.multiReqMax)
    && NumberWins(p.statCacheSize, c.statCacheSize, m.statCacheSize)
    && Wins(p.connectTimeout, c.connectTimeout, m.connectTimeout)
    && Wins(p.readwriteTimeout, c.readwriteTimeout, m.readwriteTimeout)
    && Wins(p.addMountParam, c.addMountParam, m.addMountParam)
    && m.useXattr == c.useXattr && m.debugLevel == c.debugLevel && m.curlDebug == c.curlDebug
    && m.tlsCipherSuite == c.tlsCipherSuite && m.kernelCache == c.kernelCache
  }

  /** Every setting of an accepted claim, traced to the claim's two texts. */
  lemma MergedTexts(env: Env, namespace: string, p: Pvc, c: Sc)
    requires JudgeParsed(env, namespace, p, c).Accepted?
    ensures var s := JudgeParsed(env, namespace, p, c).settings;
            && BucketTexts(p, c, s.pvc) && KeepsTexts(p, s.pvc) && ClassTexts(env, p, c, s.sc)
            && s.pvc.endpoint == EndpointText(env, p)
            && (!env.allowCrossNsSecret ==> s.pvc.secretNamespace == namespace)
            && (env.allowCrossNsSecret ==>
                  Wins(p.secretNamespace, if c.secretNamespace != "" then c.secretNamespace else namespace,
                       s.pvc.secretNamespace))
            && s.serviceIp == if NamesService(p) then env.services[(p.cosServiceNamespace, p.cosServiceName)].ip else ""
  {
    AcceptedIff(env, namespace, p, c);
    AcceptedMerge(env, namespace, p, c);
    MergedPvcTexts(env, namespace, p, c);
    MergedScTexts(env, namespace, p, c);
  }

  lemma AcceptedMerge(env: Env, namespace: string, p: Pvc, c: Sc)
    requires JudgeParsed(env, namespace, p, c).Accepted?
    ensures var s := JudgeParsed(env, namespace, p, c).settings;
            && s.pvc == MergedPvc(env, namespace, p, c, EndpointText(env, p)) && s.sc == MergedSc(s.pvc, c)
            && (NamesService(p) ==> ServicePorts(env, p))
            && s.serviceIp == (if NamesService(p) then env.services[(p.cosServiceNamespace, p.cosServiceName)].ip
                               else "")
  {
    assert NamesService(p) && ServicePorts(env, p) ==>
             EndpointText(env, p) == ServiceUrl(p, ServiceOf(env, p).value.ports[0]);
  }

  lemma MergedPvcTexts(env: Env, namespace: string, p: Pvc, c: Sc)
    ensures var m := MergedPvc(env, namespace, p, c, EndpointText(env, p));
            BucketTexts(p, c, m) && KeepsTexts(p, m) && m.endpoint == EndpointText(env, p)
  {
  }

  lemma MergedScTexts(env: Env, namespace: string, p: Pvc, c: Sc)
    requires SettingsReadable(env, p, c)
    ensures ClassTexts(env, p, c, MergedSc(MergedPvc(env, namespace, p, c, EndpointText(env, p)), c))
  {
  }
}
