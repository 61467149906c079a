/** The controller as written: flags overwritten step by step, early returns, a
    hand-written compensation after each fallible request. */
module ProvisionerController {
  import opened Wrappers
  import opened Text
  import opened Store
  import opened Backend
  import opened Records
  import opened Annotations
  import opened Provisioner
  import IpLists
  import Uuid

  /** The local variables of Provision once the store is about to be used. */
  datatype Prepared = Prepared(pvc: Pvc, sc: Sc, serviceIp: string, login: Option<Login>, endpoints: Option<string>,
                               quota: Option<int>, valBucket: bool)
  {
    ghost function Plan(): Plan {
      Provisioner.Plan(pvc, sc, serviceIp, SessionFor(sc, login),
                       if login.Some? then login.value.rootKey else "", endpoints, quota,
                       valBucket)
    }
  }

  datatype PrepareResult = Proceed(locals: Prepared) | Decline | Panic

  class IBMS3fsProvisioner {
    const cloud: Cloud

    constructor (cloud: Cloud)
      ensures this.cloud == cloud
    {
      this.cloud := cloud;
    }

    method GenerateName(env: Env) returns (name: Option<string>)
      ensures name == GeneratedName(env)
    {
      var id := Uuid.New(env.entropy);
      if id.None? {
        return None;
      }
      return Some(Uuid.AUTO_BUCKET_PREFIX + id.value);
    }

    method ResolveFirewall(env: Env, pvc: Pvc) returns (endpoints: Option<string>)
      ensures endpoints == FirewallIps(env, pvc)
    {
      if !env.ok(DialProvider) {
        return None;
      }
      if !env.ok(GetProviderType) {
        return None;
      }
      if !Contains(env.providerType, "vpc-gen2") {
        return None;
      }
      if pvc.accessPolicyAllowedIps != "" {
        return Some(pvc.accessPolicyAllowedIps);
      }
      if !env.ok(GetVpcEndpoint) || env.vpcEndpoints == "" {
        return None;
      }
      return Some(env.vpcEndpoints);
    }

    method PrepareLocals(env: Env, claim: Claim) returns (r: PrepareResult)
      ensures match Prepare(env, claim)
              case Declined => r == Decline
              case Panicked => r == Panic
              case Ready(plan) => r.Proceed? && plan == r.locals.Plan() && (plan.Creates() ==> r.locals.login.Some?)
    {
      var verdict := ValidateAnnotations(env, claim);
      if verdict.Refused? {
        return Decline;
      }
      if verdict.Crashed? {
        return Panic;
      }
      r := PrepareAccepted(env, claim, verdict.settings);
    }

    method PrepareAccepted(env: Env, claim: Claim, s: Settings) returns (r: PrepareResult)
      ensures if Admissible(env, claim.namespace, s.pvc)
              then r.Proceed? && r.locals.Plan() == PlanOf(env, claim, s)
                && (s.pvc.autoCreateBucket == "true" ==> r.locals.login.Some?)
              else r == Decline
    {
      var bucket := NameBucket(env, s.pvc);
      if bucket.None? {
        return Decline;
      }
      var valBucket := true;
      if s.pvc.validateBucket == "no" && s.pvc.autoCreateBucket == "false" {
        valBucket := false;
      }
      var known, login := Authorize(env, claim.namespace, s.pvc, valBucket);
      if !known {
        return Decline;
      }
      var granted, endpoints, quota := PlanPolicies(env, claim.storage, s.pvc, login);
      if !granted {
        return Decline;
      }
      if s.pvc.autoCreateBucket == "true" {
        assert ValidatesBucket(s.pvc);
        if login.value.creds.apiKey != "" && login.value.creds.serviceInstanceId == "" {
          return Decline;
        }
      }
      return Proceed(Prepared(s.pvc.(bucket := bucket.value), s.sc, s.serviceIp, login, endpoints, quota, valBucket));
    }

    /** The bucket to use: given, or generated for auto-delete, or generated for auto-create. */
    method NameBucket(env: Env, pvc: Pvc) returns (r: Option<string>)
      ensures r == if pvc.autoDeleteBucket == "true" && pvc.autoCreateBucket == "false" then None
              else BucketName(env, pvc)
    {
      var bucket := pvc.bucket;
      if pvc.autoDeleteBucket == "true" {
        if pvc.autoCreateBucket == "false" {
          return None;
        }
        if bucket == "" {
          var name := GenerateName(env);
          if name.None? {
            return None;
          }
          bucket := name.value;
        }
      }
      if pvc.autoCreateBucket == "true" {
        if pvc.autoDeleteBucket != "true" && bucket == "" {
          var name := GenerateName(env);
          if name.None? {
            return None;
          }
          bucket := name.value;
        }
      } else {
        if bucket == "" {
          return None;
        }
      }
      return Some(bucket);
    }

    /** Credentials, unless the bucket is not to be looked at, and the namespaces they serve. */
    method Authorize(env: Env, namespace: string, pvc: Pvc, valBucket: bool) returns (ok: bool, login: Option<Login>)
      requires valBucket == ValidatesBucket(pvc)
      ensures ok <==> (valBucket ==> LoginFor(env, pvc).Some?) && NamespaceAllowed(LoginFor(env, pvc), namespace)
      ensures ok ==> login == LoginFor(env, pvc)
    {
      ok, login := true, None;
      if valBucket {
        login := ReadCredentials(env, pvc.secretNamespace, pvc.secretName);
        if login.None? {
          return false, None;
        }
      }
      if login.Some? && |login.value.allowedNamespaces| > 0 {
        var allowed := false;
        var names := login.value.allowedNamespaces;
        for i := 0 to |names|
          invariant !allowed && namespace !in names[..i]
        {
          if names[i] == namespace {
            allowed := true;
            break;
          }
        }
        ok := allowed;
      }
    }

    /** Whether quota and firewall are to be set, and the key that setting them takes. */
    method PlanPolicies(env: Env, storage: int, pvc: Pvc, login: Option<Login>)
      returns (ok: bool, endpoints: Option<string>, quota: Option<int>)
      ensures ok <==> (WantsFirewall(env, pvc) ==> FirewallIps(env, pvc).Some?)
                      && (WantsFirewall(env, pvc) || WantsQuota(env, pvc)
                          ==> login.Some? && login.value.resConfApiKey != "")
      ensures ok ==> endpoints == (if WantsFirewall(env, pvc) then FirewallIps(env, pvc) else None)
      ensures ok ==> quota == (if WantsQuota(env, pvc) then Some(storage) else None)
    {
      var resConfApiKey := if login.Some? then login.value.resConfApiKey else "";
      ok, quota, endpoints := true, None, None;
      if env.configQuota && pvc.quotaLimit != "false" {
        quota := Some(storage);
      }
      if env.configAccessPolicy && pvc.setAccessPolicy != "false" {
        endpoints := ResolveFirewall(env, pvc);
        if endpoints.None? {
          return false, None, None;
        }
      }
      if (endpoints.Some? && resConfApiKey == "") || (quota.Some? && resConfApiKey == "") {
        ok := false;
      }
    }

    method Provision(env: Env, claim: Claim) returns (outcome: Outcome)
      modifies cloud
      ensures (cloud.world, outcome) == ProvisionEffect(old(cloud.world), env, claim)
    {
      var prepared := PrepareLocals(env, claim);
      if prepared.Decline? {
        return Rejected;
      }
      if prepared.Panic? {
        return NilDereference(0);
      }
      outcome := UseStore(claim, prepared.locals);
    }

    /** From the first request on. `sess` and `updateAP` stay nil until they are created. */
    method UseStore(claim: Claim, p: Prepared) returns (outcome: Outcome)
      requires p.pvc.autoCreateBucket == "true" ==> p.login.Some?
      modifies cloud
      ensures (cloud.world, outcome) == RunFrom(old(cloud.world), claim, p.Plan(), 0, false)
    {
      var deleteBucket := false;
      var sess: CosSession? := null;
      if p.login.Some? {
        sess := new CosSession(cloud, p.sc.osEndpoint, p.sc.osStorageClass,
                               p.login.value.creds.(iamEndpoint := p.sc.iamEndpoint));
      }
      if p.pvc.autoCreateBucket == "true" {
        deleteBucket := true;
        var err := sess.CreateBucket(p.pvc.bucket, p.sc.osStorageClass, p.login.value.rootKey);
        if err.Some? {
          if err.value == BucketAlreadyExists {
            deleteBucket := false;
          } else {
            return Stopped(0, NotAttempted);
          }
        }
      }
      outcome := Configure(claim, p, sess, deleteBucket);
    }

    ghost predicate SessionOf(p: Prepared, sess: CosSession?) {
      && (sess == null <==> p.login.None?)
      && (sess != null ==> sess.cloud == cloud && SessionFor(p.sc, p.login) == Some(sess.id))
    }

    /** Steps 1 to 3. Without auto-create nothing is ever compensated. */
    method Configure(claim: Claim, p: Prepared, sess: CosSession?, deleteBucket: bool) returns (outcome: Outcome)
      requires SessionOf(p, sess) && (deleteBucket ==> sess != null)
      modifies cloud
      ensures (cloud.world, outcome) == RunFrom(old(cloud.world), claim, p.Plan(), 1, deleteBucket)
    {
      ghost var start := RunFrom(cloud.world, claim, p.Plan(), 1, deleteBucket);
      if p.pvc.bucketVersioning != "" {
        if sess == null {
          return NilDereference(1);
        }
        var enable := ToLower(TrimSpace(p.pvc.bucketVersioning)) == "true";
        var err := sess.SetBucketVersioning(p.pvc.bucket, enable);
        if err.Some? {
          var cleanup := Compensate(sess, deleteBucket, p.pvc.bucket);
          return Stopped(1, cleanup);
        }
      }
      assert start == RunFrom(cloud.world, claim, p.Plan(), 2, deleteBucket);
      outcome := SetPolicies(claim, p, sess, deleteBucket);
    }

    method SetPolicies(claim: Claim, p: Prepared, sess: CosSession?, deleteBucket: bool) returns (outcome: Outcome)
      requires SessionOf(p, sess) && (deleteBucket ==> sess != null)
      modifies cloud
      ensures (cloud.world, outcome) == RunFrom(old(cloud.world), claim, p.Plan(), 2, deleteBucket)
    {
      ghost var start := RunFrom(cloud.world, claim, p.Plan(), 2, deleteBucket);
      var valBucket := p.valBucket;
      var updateAP: IpLists.AccessPolicy? := null;
      if p.endpoints.Some? || p.quota.Some? {
        updateAP := new IpLists.AccessPolicy(cloud);
      }
      if p.endpoints.Some? {
        var err := updateAP.UpdateAccessPolicy(p.endpoints.value, p.pvc.bucket);
        if err.Some? {
          var cleanup := Compensate(sess, deleteBucket, p.pvc.bucket);
          return Stopped(2, cleanup);
        }
        valBucket := true;
      }
      assert start == RunFrom(cloud.world, claim, p.Plan(), 3, deleteBucket);
      if p.quota.Some? {
        var err := updateAP.UpdateQuotaLimit(p.quota.value, p.pvc.bucket);
        if err.Some? {
          var cleanup := Compensate(sess, deleteBucket, p.pvc.bucket);
          return Stopped(3, cleanup);
        }
      }
      assert start == RunFrom(cloud.world, claim, p.Plan(), 4, deleteBucket);
      outcome := CheckAndAssemble(claim, p, sess, valBucket, deleteBucket);
    }

    /** From the access check on, nothing is rolled back any more. */
    method CheckAndAssemble(claim: Claim, p: Prepared, sess: CosSession?, valBucket: bool, ghost deleteBucket: bool)
      returns (outcome: Outcome)
      requires SessionOf(p, sess) && (valBucket <==> p.valBucket || p.endpoints.Some?)
      modifies cloud
      ensures (cloud.world, outcome) == RunFrom(old(cloud.world), claim, p.Plan(), 4, deleteBucket)
    {
      ghost var start := RunFrom(cloud.world, claim, p.Plan(), 4, deleteBucket);
      if valBucket {
        if sess == null {
          return NilDereference(4);
        }
        var err := sess.CheckBucketAccess(p.pvc.bucket);
        if err.Some? {
          return Stopped(4, NotAttempted);
        }
      }
      assert start == RunFrom(cloud.world, claim, p.Plan(), 5, deleteBucket);
      if p.pvc.objectPath != "" {
        if sess == null {
          return NilDereference(5);
        }
        var exist := sess.CheckObjectPathExistence(p.pvc.bucket, p.pvc.objectPath);
        if exist.Err? || !exist.value {
          return Stopped(5, NotAttempted);
        }
      }
      assert start == RunFrom(cloud.world, claim, p.Plan(), STEPS, deleteBucket);
      outcome := Assemble(claim, p.Plan(), p.pvc, p.sc, p.serviceIp);
    }

    method Compensate(sess: CosSession?, deleteBucket: bool, bucket: string) returns (cleanup: Cleanup)
      requires deleteBucket ==> sess != null && sess.cloud == cloud
      modifies cloud
      ensures deleteBucket ==>
                var (after, err) := DeleteBucketEffect(old(cloud.world), sess.id, bucket);
                cloud.world == after && cleanup == if err.None? then Cleaned else Uncleaned(err.value)
      ensures !deleteBucket ==> cloud.world == old(cloud.world) && cleanup == NotAttempted
    {
      if !deleteBucket {
        return NotAttempted;
      }
      var err := sess.DeleteBucket(bucket);
      if err.Some? {
        return Uncleaned(err.value);
      }
      return Cleaned;
    }

    method Assemble(claim: Claim, ghost plan: Plan, pvc: Pvc, c: Sc, serviceIp: string) returns (outcome: Outcome)
      requires pvc == plan.pvc && c == plan.sc && serviceIp == plan.serviceIp
      ensures outcome == Finish(claim, plan)
    {
      var sc := MergeLast(pvc, c);
      if |claim.accessModes| > 1 {
        return Stopped(STEPS, NotAttempted);
      }
      if claim.accessModes == [] {
        return NilDereference(STEPS);
      }
      var options := MarshalOptions(Options(
        sc.chunkSizeMb, sc.parallelCount, sc.multiReqMax, sc.statCacheSize, "", "", "", "", pvc.bucket, pvc.objectPath,
        sc.debugLevel, sc.curlDebug, sc.kernelCache, sc.tlsCipherSuite, sc.retryCount, sc.statCacheExpire, "", "", "",
        sc.osEndpoint, sc.osStorageClass, sc.iamEndpoint, sc.connectTimeout, sc.readwriteTimeout, sc.useXattr,
        claim.accessModes[0], "", "", serviceIp, pvc.autoCache, sc.addMountParam));
      if options.None? {
        return Stopped(STEPS, NotAttempted);
      }
      var annotations := MarshalPvc(Pvc(
        pvc.autoCreateBucket, pvc.autoDeleteBucket, pvc.bucket, pvc.objectPath, pvc.endpoint, pvc.region,
          pvc.secretName,
        pvc.chunkSizeMb, pvc.parallelCount, pvc.multiReqMax, pvc.statCacheSize, pvc.retryCount, pvc.statCacheExpire,
        pvc.iamEndpoint, pvc.validateBucket, pvc.secretNamespace, pvc.connectTimeout, pvc.readwriteTimeout,
          pvc.useXattr,
        pvc.curlDebug, pvc.debugLevel, "", pvc.cosServiceName, "", false, pvc.setAccessPolicy, "", pvc.addMountParam,
          "", ""));
      if annotations.None? {
        return Stopped(STEPS, NotAttempted);
      }
      return Provisioned(Volume(claim.volume, options.value, annotations.value, pvc.secretNamespace, pvc.secretName,
                                claim.accessModes, claim.storage));
    }

    method MergeLast(pvc: Pvc, c: Sc) returns (sc: Sc)
      ensures sc == c.(useXattr := pvc.useXattr || c.useXattr, debugLevel := FirstOf(pvc.debugLevel, c.debugLevel),
                       curlDebug := pvc.curlDebug || c.curlDebug,
                       tlsCipherSuite := FirstOf(TrimSpace(pvc.tlsCipherSuite), c.tlsCipherSuite),
                       kernelCache := c.kernelCache && !pvc.autoCache)
    {
      sc := c;
      if pvc.useXattr {
        sc := sc.(useXattr := pvc.useXattr);
      }
      if pvc.debugLevel != "" {
        sc := sc.(debugLevel := pvc.debugLevel);
      }
      if pvc.curlDebug {
        sc := sc.(curlDebug := pvc.curlDebug);
      }
      if TrimSpace(pvc.tlsCipherSuite) != "" {
        sc := sc.(tlsCipherSuite := TrimSpace(pvc.tlsCipherSuite));
      }
      if pvc.autoCache {
        sc := sc.(kernelCache := false);
      }
    }

    method Delete(env: Env, v: Volume) returns (ok: bool)
      modifies cloud
      ensures (cloud.world, ok) == DeleteEffect(old(cloud.world), env, v)
    {
      var endpoint, region, iam := OptionText(v, OptionTag.OSEndpoint), OptionText(v, OptionTag.OSStorageClass),
                                   OptionText(v, OptionTag.IAMEndpoint);
      var annotations := UnmarshalPvc(v.annotations);
      if annotations.None? {
        return false;
      }
      if annotations.value.autoDeleteBucket == "true" {
        ok := DeleteVolumeBucket(env, v, annotations.value, endpoint, region, iam);
      } else {
        ok := IsBool(annotations.value.autoDeleteBucket);
      }
    }

    method DeleteVolumeBucket(env: Env, ghost v: Volume, a: Pvc, endpoint: string, region: string, iam: string)
      returns (ok: bool)
      requires endpoint == OptionText(v, OptionTag.OSEndpoint) && region == OptionText(v, OptionTag.OSStorageClass)
      requires iam == OptionText(v, OptionTag.IAMEndpoint)
      modifies cloud
      ensures var s := SessionToDelete(env, v, a);
              (cloud.world, ok) == if s.None? then (old(cloud.world), false)
                                   else
                                     var (after, err) := DeleteBucketEffect(old(cloud.world), s.value, a.bucket);
                                     (after, err.None?)
    {
      var certOk := WriteCrtFile(env, a.secretNamespace, a.secretName);
      if !certOk {
        return false;
      }
      var login := ReadCredentials(env, a.secretNamespace, a.secretName);
      if login.None? {
        return false;
      }
      var sess := new CosSession(cloud, endpoint, region, login.value.creds.(iamEndpoint := iam));
      var err := sess.DeleteBucket(a.bucket);
      return err.None?;
    }
  }
}
