/** Claim validation: how annotations and storage class parameters are merged, and exactly
    which combinations are refused. */
module Annotations {
  import opened Wrappers
  import opened Text
  import opened Records
  import IpLists

  datatype SecretKey = AllowedNs | ApiKey | AccessKey | SecretKeyData | ServiceInstanceId | ResConfApiKey | KpRootKeyCrn
                     | CaBundle

  datatype Secret = Secret(kind: string, data: map<SecretKey, string>)

  datatype Service = Service(ip: string, ports: seq<int>)

  /** The remote and local calls a provisioning may lose. */
  datatype CallSite = GetService | GetCertSecret | WriteCert | GetCredentials | DialProvider | GetProviderType
                    | GetVpcEndpoint

  /** What one call of the provisioner sees around it. Secrets and services are found by
      (namespace, name); `ok` says which calls work. */
  datatype Env = Env(secrets: map<(string, string), Secret>, services: map<(string, string), Service>,
                     ok: CallSite -> bool, isIp: string -> bool, entropy: seq<bv8>,
                     allowCrossNsSecret: bool, configAccessPolicy: bool, configQuota: bool,
                     providerType: string, vpcEndpoints: string)

  datatype Claim = Claim(namespace: string, volume: string, annotations: map<PvcTag, string>,
                         parameters: map<ScTag, string>, accessModes: seq<string>, storage: int)

  datatype Settings = Settings(pvc: Pvc, sc: Sc, serviceIp: string)

  datatype Verdict = Accepted(settings: Settings) | Refused | Crashed

  // ---------------------------------------------------------------- the merged settings

  predicate UsesService(p: Pvc) {
    p.cosServiceName != "" && p.cosServiceNamespace != ""
  }

  function ServiceOf(env: Env, p: Pvc): Option<Service> {
    var key := (p.cosServiceNamespace, p.cosServiceName);
    if env.ok(GetService) && key in env.services then Some(env.services[key]) else None
  }

  function ServiceUrl(p: Pvc, port: int): string {
    "https://" + p.cosServiceName + "." + p.cosServiceNamespace + ".svc.cluster.local:" + Itoa(port)
  }

  function Normalised(flag: string): string {
    ToLower(TrimSpace(flag))
  }

  /** Annotations win over the storage class, which wins over the built-in default. */
  function MergedPvc(env: Env, namespace: string, p: Pvc, c: Sc, endpoint: string): Pvc {
    p.(secretName := FirstOf(p.secretName, c.secretName),
       secretNamespace := if env.allowCrossNsSecret
                            then FirstOf(p.secretNamespace, FirstOf(c.secretNamespace, namespace)) else namespace,
       autoCreateBucket := FirstOf(p.autoCreateBucket, FirstOf(c.autoCreateBucket, "true")),
       autoDeleteBucket := FirstOf(p.autoDeleteBucket, FirstOf(c.autoDeleteBucket, "false")),
       bucketVersioning := Normalised(FirstOf(p.bucketVersioning, c.bucketVersioning)),
       bucket := FirstOf(p.bucket, c.bucket),
       objectPath := FirstOf(p.objectPath, c.objectPath),
       endpoint := endpoint)
  }

  function IntOr(s: string, default: Int64): Int64 {
    if IsInteger(s) then Atoi(s).value else default
  }

  function MergedSc(p: Pvc, c: Sc): Sc {
    c.(osEndpoint := FirstOf(p.endpoint, c.osEndpoint),
       osStorageClass := FirstOf(p.region, c.osStorageClass),
       iamEndpoint := FirstOf(p.iamEndpoint, c.iamEndpoint),
       retryCount := FirstOf(p.retryCount, c.retryCount),
       statCacheExpire := FirstOf(p.statCacheExpire, c.statCacheExpire),
       chunkSizeMb := IntOr(p.chunkSizeMb, c.chunkSizeMb),
       parallelCount := IntOr(p.parallelCount, c.parallelCount),
       multiReqMax := IntOr(p.multiReqMax, c.multiReqMax),
       statCacheSize := IntOr(p.statCacheSize, c.statCacheSize),
       connectTimeout := FirstOf(p.connectTimeout, c.connectTimeout),
       readwriteTimeout := FirstOf(p.readwriteTimeout, c.readwriteTimeout),
       addMountParam := FirstOf(p.addMountParam, c.addMountParam))
  }

  // ---------------------------------------------------------------- what is refused

  predicate VersioningReadable(s: string) {
    s == "" || IsBool(Normalised(s))
  }

  /** Checks made before the first remote call. Auto-create and auto-delete are
      validated as annotations only; a storage class may say anything there. */
  predicate ClaimChecks(env: Env, p: Pvc, c: Sc) {
    && FirstOf(p.secretName, c.secretName) != ""
    && BlankOrBool(p.autoCreateBucket)
    && VersioningReadable(FirstOf(p.bucketVersioning, c.bucketVersioning))
    && BlankOrBool(p.autoDeleteBucket)
    && PolicyChecks(env, p)
  }

  predicate PolicyChecks(env: Env, p: Pvc) {
    && (p.accessPolicyAllowedIps == "" || IpLists.AllValid(p.accessPolicyAllowedIps, env.isIp))
    && BlankOrBool(p.setAccessPolicy)
    && BlankOrBool(p.quotaLimit)
  }

  predicate CertReadable(env: Env, namespace: string, name: string) {
    && env.ok(GetCertSecret)
    && (namespace, name) in env.secrets
    && (CaBundle in env.secrets[(namespace, name)].data ==> env.ok(WriteCert))
  }

  /** Checks on the merged settings. Storage class timeouts are not among them. */
  predicate SettingsChecks(p: Pvc, sc: Sc) {
    && HasScheme(sc.osEndpoint)
    && HasScheme(sc.iamEndpoint)
    && BlankOrAtLeast(sc.retryCount, 1)
    && BlankOrAtLeast(sc.statCacheExpire, 0)
    && BlankOrInt(p.chunkSizeMb)
    && BlankOrInt(p.parallelCount)
    && BlankOrInt(p.multiReqMax)
    && BlankOrInt(p.statCacheSize)
    && BlankOrInt(p.connectTimeout)
    && BlankOrInt(p.readwriteTimeout)
    && !(p.autoCreateBucket == "true" && p.objectPath != "")
  }

  /** The verdict on a claim whose two string maps have been unmarshalled. */
  function JudgeParsed(env: Env, namespace: string, p: Pvc, c: Sc): Verdict {
    if !ClaimChecks(env, p, c) then Refused
    else if UsesService(p) && ServiceOf(env, p).None? then Refused
    else if UsesService(p) && ServiceOf(env, p).value.ports == [] then Crashed
    else
      var endpoint := if UsesService(p) then ServiceUrl(p, ServiceOf(env, p).value.ports[0]) else p.endpoint;
      JudgeMerged(env, MergedPvc(env, namespace, p, c, endpoint), c,
                  if UsesService(p) then ServiceOf(env, p).value.ip else "")
  }

  function JudgeMerged(env: Env, pvc: Pvc, c: Sc, serviceIp: string): Verdict {
    if CertReadable(env, pvc.secretNamespace, pvc.secretName) && SettingsChecks(pvc, MergedSc(pvc, c)) then
      Accepted(Settings(pvc, MergedSc(pvc, c), serviceIp))
    else Refused
  }

  function Judge(env: Env, claim: Claim): Verdict {
    var p := UnmarshalPvc(claim.annotations);
    var c := UnmarshalSc(claim.parameters);
    if p.None? || c.None? then Refused else JudgeParsed(env, claim.namespace, p.value, c.value)
  }

  /** Whatever the validator accepts: the merged settings passed the checks, every switch has
      a value, the secret stays in the claim's namespace unless other ones are allowed, an
      annotated switch is a readable boolean and wins, and the firewall list is valid. */
  lemma AcceptedIsChecked(env: Env, namespace: string, p: Pvc, c: Sc)
    requires JudgeParsed(env, namespace, p, c).Accepted?
    ensures var s := JudgeParsed(env, namespace, p, c).settings;
            && SettingsChecks(s.pvc, s.sc)
            && CertReadable(env, s.pvc.secretNamespace, s.pvc.secretName)
            && s.pvc.secretName != "" && (!env.allowCrossNsSecret ==> s.pvc.secretNamespace == namespace)
            && s.pvc.autoCreateBucket != "" && s.pvc.autoDeleteBucket != ""
            && (p.autoCreateBucket != "" ==> s.pvc.autoCreateBucket == p.autoCreateBucket && IsBool(p.autoCreateBucket))
            && (p.autoDeleteBucket != "" ==> s.pvc.autoDeleteBucket == p.autoDeleteBucket && IsBool(p.autoDeleteBucket))
            && BlankOrBool(s.pvc.bucketVersioning)
            && (s.pvc.accessPolicyAllowedIps == "" || IpLists.AllValid(s.pvc.accessPolicyAllowedIps, env.isIp))
  {
  }

  // ---------------------------------------------------------------- the validator

  method WriteCrtFile(env: Env, namespace: string, name: string) returns (ok: bool)
    ensures ok == CertReadable(env, namespace, name)
  {
    if !env.ok(GetCertSecret) || (namespace, name) !in env.secrets {
      return false;
    }
    if CaBundle !in env.secrets[(namespace, name)].data {
      return true;
    }
    return env.ok(WriteCert);
  }

  method ValidateAnnotations(env: Env, claim: Claim) returns (v: Verdict)
    ensures v == Judge(env, claim)
  {
    var parsedPvc := UnmarshalPvc(claim.annotations);
    if parsedPvc.None? {
      return Refused;
    }
    var parsedSc := UnmarshalSc(claim.parameters);
    if parsedSc.None? {
      return Refused;
    }
    v := ValidateParsed(env, claim.namespace, parsedPvc.value, parsedSc.value);
  }

  method ValidateParsed(env: Env, namespace: string, p: Pvc, c: Sc) returns (v: Verdict)
    ensures v == JudgeParsed(env, namespace, p, c)
  {
    var checked := ValidateClaim(env, namespace, p, c);
    if checked.None? {
      return Refused;
    }
    var pvc := checked.value;
    var serviceIp := "";
    if pvc.cosServiceName != "" {
      if pvc.cosServiceNamespace != "" {
        var service := ServiceOf(env, pvc);
        if service.None? {
          return Refused;
        }
        if service.value.ports == [] {
          return Crashed;
        }
        serviceIp := service.value.ip;
        pvc := pvc.(endpoint := ServiceUrl(pvc, service.value.ports[0]));
      }
    }
    v := ValidateMerged(env, pvc, c, serviceIp);
  }

  method ValidateMerged(env: Env, pvc: Pvc, c: Sc, serviceIp: string) returns (v: Verdict)
    ensures v == JudgeMerged(env, pvc, c, serviceIp)
  {
    var certOk := WriteCrtFile(env, pvc.secretNamespace, pvc.secretName);
    if !certOk {
      return Refused;
    }
    var merged := MergeStorageClass(pvc, c);
    if merged.None? {
      return Refused;
    }
    return Accepted(Settings(pvc, merged.value, serviceIp));
  }

  /** The first half of the validator, up to the first remote call. */
  method ValidateClaim(env: Env, namespace: string, p: Pvc, c: Sc) returns (r: Option<Pvc>)
    ensures r == if ClaimChecks(env, p, c) then Some(MergedPvc(env, namespace, p, c, p.endpoint)) else None
  {
    var pvc := p;
    var secret := MergeSecret(env, namespace, pvc, c);
    if secret.None? {
      return None;
    }
    pvc := secret.value;
    var switches := MergeSwitches(pvc, c);
    if switches.None? {
      return None;
    }
    var versioned := MergeVersioning(switches.value, c);
    if versioned.None? {
      return None;
    }
    pvc := versioned.value;
    if pvc.bucket == "" && c.bucket != "" {
      pvc := pvc.(bucket := c.bucket);
    }
    if pvc.objectPath == "" && c.objectPath != "" {
      pvc := pvc.(objectPath := c.objectPath);
    }

    var ok := PolicyInputsValid(env, pvc);
    if !ok {
      return None;
    }
    return Some(pvc);
  }

  method PolicyInputsValid(env: Env, pvc: Pvc) returns (ok: bool)
    ensures ok == PolicyChecks(env, pvc)
  {
    if pvc.accessPolicyAllowedIps != "" {
      var valid, _ := IpLists.ParseIPs(pvc.accessPolicyAllowedIps, env.isIp);
      if !valid {
        return false;
      }
    }
    if pvc.setAccessPolicy != "" && !IsBool(pvc.setAccessPolicy) {
      return false;
    }
    return pvc.quotaLimit == "" || IsBool(pvc.quotaLimit);
  }

  method MergeSecret(env: Env, namespace: string, p: Pvc, c: Sc) returns (r: Option<Pvc>)
    ensures r == if FirstOf(p.secretName, c.secretName) == "" then None else
              Some(p.(secretName := FirstOf(p.secretName, c.secretName),
                      secretNamespace := if env.allowCrossNsSecret
                                         then FirstOf(p.secretNamespace, FirstOf(c.secretNamespace, namespace))
                                         else namespace))
  {
    var pvc := p;
    if pvc.secretName == "" {
      if c.secretName != "" {
        pvc := pvc.(secretName := c.secretName);
      } else {
        return None;
      }
    }
    if !env.allowCrossNsSecret {
      pvc := pvc.(secretNamespace := namespace);
    } else if pvc.secretNamespace == "" {
      if c.secretNamespace != "" {
        pvc := pvc.(secretNamespace := c.secretNamespace);
      } else {
        pvc := pvc.(secretNamespace := namespace);
      }
    }
    return Some(pvc);
  }

  method MergeSwitches(p: Pvc, c: Sc) returns (r: Option<Pvc>)
    ensures r == if BlankOrBool(p.autoCreateBucket) && BlankOrBool(p.autoDeleteBucket)
                 then Some(p.(autoCreateBucket := FirstOf(p.autoCreateBucket, FirstOf(c.autoCreateBucket, "true")),
                              autoDeleteBucket := FirstOf(p.autoDeleteBucket, FirstOf(c.autoDeleteBucket, "false"))))
                 else None
  {
    var pvc := p;
    if pvc.autoCreateBucket == "" {
      if c.autoCreateBucket != "" {
        pvc := pvc.(autoCreateBucket := c.autoCreateBucket);
      } else {
        pvc := pvc.(autoCreateBucket := "true");
      }
    } else if !IsBool(pvc.autoCreateBucket) {
      return None;
    }
    if pvc.autoDeleteBucket == "" {
      if c.autoDeleteBucket != "" {
        pvc := pvc.(autoDeleteBucket := c.autoDeleteBucket);
      } else {
        pvc := pvc.(autoDeleteBucket := "false");
      }
    } else if !IsBool(pvc.autoDeleteBucket) {
      return None;
    }
    return Some(pvc);
  }

  method MergeVersioning(p: Pvc, c: Sc) returns (r: Option<Pvc>)
    ensures var versioning := FirstOf(p.bucketVersioning, c.bucketVersioning);
            r == if VersioningReadable(versioning) then Some(p.(bucketVersioning := Normalised(versioning))) else None
  {
    assert Normalised("") == "";
    var pvc := p;
    if pvc.bucketVersioning == "" {
      pvc := pvc.(bucketVersioning := c.bucketVersioning);
    }
    if pvc.bucketVersioning != "" {
      pvc := pvc.(bucketVersioning := ToLower(TrimSpace(pvc.bucketVersioning)));
      if !IsBool(pvc.bucketVersioning) {
        return None;
      }
    }
    return Some(pvc);
  }

  /** The second half of the validator: storage class values overridden one by one. */
  method MergeStorageClass(pvc: Pvc, c: Sc) returns (r: Option<Sc>)
    ensures r == if SettingsChecks(pvc, MergedSc(pvc, c)) then Some(MergedSc(pvc, c)) else None
  {
    var places := MergeEndpoints(pvc, c);
    if places.None? {
      return None;
    }
    var retries := MergeRetries(pvc, places.value);
    if retries.None? {
      return None;
    }
    var counts := MergeCounts(pvc, retries.value);
    if counts.None? {
      return None;
    }
    var sc := counts.value;
    if pvc.connectTimeout != "" {
      if !IsInteger(pvc.connectTimeout) {
        return None;
      }
      sc := sc.(connectTimeout := pvc.connectTimeout);
    }
    if pvc.readwriteTimeout != "" {
      if !IsInteger(pvc.readwriteTimeout) {
        return None;
      }
      sc := sc.(readwriteTimeout := pvc.readwriteTimeout);
    }
    if pvc.autoCreateBucket == "true" && pvc.objectPath != "" {
      return None;
    }
    if pvc.addMountParam != "" {
      sc := sc.(addMountParam := pvc.addMountParam);
    }
    return Some(sc);
  }

  method MergeEndpoints(pvc: Pvc, c: Sc) returns (r: Option<Sc>)
    ensures var sc := c.(osEndpoint := FirstOf(pvc.endpoint, c.osEndpoint),
                         osStorageClass := FirstOf(pvc.region, c.osStorageClass),
                         iamEndpoint := FirstOf(pvc.iamEndpoint, c.iamEndpoint));
            r == if HasScheme(sc.osEndpoint) && HasScheme(sc.iamEndpoint) then Some(sc) else None
  {
    var sc := c;
    if pvc.endpoint != "" {
      sc := sc.(osEndpoint := pvc.endpoint);
    }
    if pvc.region != "" {
      sc := sc.(osStorageClass := pvc.region);
    }
    if !HasScheme(sc.osEndpoint) {
      return None;
    }
    if pvc.iamEndpoint != "" {
      sc := sc.(iamEndpoint := pvc.iamEndpoint);
    }
    if !HasScheme(sc.iamEndpoint) {
      return None;
    }
    return Some(sc);
  }

  method MergeRetries(pvc: Pvc, c: Sc) returns (r: Option<Sc>)
    ensures var sc := c.(retryCount := FirstOf(pvc.retryCount, c.retryCount),
                         statCacheExpire := FirstOf(pvc.statCacheExpire, c.statCacheExpire));
            r == if BlankOrAtLeast(sc.retryCount, 1) && BlankOrAtLeast(sc.statCacheExpire, 0) then Some(sc) else None
  {
    var sc := c;
    if pvc.retryCount != "" {
      sc := sc.(retryCount := pvc.retryCount);
    }
    if sc.retryCount != "" {
      var count := Atoi(sc.retryCount);
      if count.None? || count.value < 1 {
        return None;
      }
    }
    if pvc.statCacheExpire != "" {
      sc := sc.(statCacheExpire := pvc.statCacheExpire);
    }
    if sc.statCacheExpire != "" {
      var seconds := Atoi(sc.statCacheExpire);
      if seconds.None? || seconds.value < 0 {
        return None;
      }
    }
    return Some(sc);
  }

  method MergeCounts(pvc: Pvc, c: Sc) returns (r: Option<Sc>)
    ensures r == if BlankOrInt(pvc.chunkSizeMb) && BlankOrInt(pvc.parallelCount)
                    && BlankOrInt(pvc.multiReqMax) && BlankOrInt(pvc.statCacheSize)
                 then Some(c.(chunkSizeMb := IntOr(pvc.chunkSizeMb, c.chunkSizeMb),
                              parallelCount := IntOr(pvc.parallelCount, c.parallelCount),
                              multiReqMax := IntOr(pvc.multiReqMax, c.multiReqMax),
                              statCacheSize := IntOr(pvc.statCacheSize, c.statCacheSize)))
                 else None
  {
    var sc := c;
    if pvc.chunkSizeMb != "" {
      var n := Atoi(pvc.chunkSizeMb);
      if n.None? {
        return None;
      }
      sc := sc.(chunkSizeMb := n.value);
    }
    if pvc.parallelCount != "" {
      var n := Atoi(pvc.parallelCount);
      if n.None? {
        return None;
      }
      sc := sc.(parallelCount := n.value);
    }
    if pvc.multiReqMax != "" {
      var n := Atoi(pvc.multiReqMax);
      if n.None? {
        return None;
      }
      sc := sc.(multiReqMax := n.value);
    }
    if pvc.statCacheSize != "" {
      var n := Atoi(pvc.statCacheSize);
      if n.None? {
        return None;
      }
      sc := sc.(statCacheSize := n.value);
    }
    return Some(sc);
  }
}
