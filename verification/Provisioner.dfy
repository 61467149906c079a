/** Provision and Delete. The bucket part of a provisioning is specified as a transaction:
    up to six steps in order, a failed step stops it, and steps 1 to 3 are compensated by
    deleting the bucket when this call's own create succeeded. */
module Provisioner {
  import opened Wrappers
  import opened Text
  import opened Store
  import opened Backend
  import opened Records
  import opened Annotations
  import IpLists
  import Uuid

  const DRIVER_NAME := "ibm/ibmc-s3fs"

  // ---------------------------------------------------------------- credentials

  datatype Login = Login(creds: Credentials, allowedNamespaces: seq<string>, resConfApiKey: string, rootKey: string)

  function Lookup(secret: Secret, key: SecretKey): string {
    if key in secret.data then secret.data[key] else ""
  }

  /** An API key needs a service instance id next to it; without one, both HMAC keys. */
  predicate CompleteKeys(secret: Secret) {
    if ApiKey in secret.data then ServiceInstanceId in secret.data
    else AccessKey in secret.data && SecretKeyData in secret.data
  }

  function GetLogin(env: Env, namespace: string, name: string): Option<Login> {
    if !env.ok(GetCredentials) || (namespace, name) !in env.secrets then None
    else
      var secret := env.secrets[(namespace, name)];
      if TrimSpace(secret.kind) != DRIVER_NAME || !CompleteKeys(secret) then None
      else
        var iam := ApiKey in secret.data;
        Some(Login(Credentials(if iam then "" else secret.data[AccessKey],
                               if iam then "" else secret.data[SecretKeyData],
                               Lookup(secret, ApiKey), if iam then secret.data[ServiceInstanceId] else "", ""),
                   if AllowedNs in secret.data then Split(secret.data[AllowedNs], ' ') else [],
                   Lookup(secret, ResConfApiKey), Lookup(secret, KpRootKeyCrn)))
  }

  /** A login carries one kind of key: with an API key entry no HMAC keys but the instance id of
      the secret, otherwise both HMAC keys and neither of the others; and its namespaces spell
      out the secret's list. */
  lemma LoginIsOneKind(env: Env, namespace: string, name: string)
    requires GetLogin(env, namespace, name).Some?
    ensures (namespace, name) in env.secrets
    ensures var data, login := env.secrets[(namespace, name)].data, GetLogin(env, namespace, name).value;
            && (if ApiKey in data
                then ServiceInstanceId in data &&
                     login.creds == Credentials("", "", data[ApiKey], data[ServiceInstanceId], "")
                else AccessKey in data && SecretKeyData in data &&
                     login.creds == Credentials(data[AccessKey], data[SecretKeyData], "", "", ""))
            && (if AllowedNs in data
                then login.allowedNamespaces != [] && Join(login.allowedNamespaces, ' ') == data[AllowedNs] &&
                     forall n :: n in login.allowedNamespaces ==> ' ' !in n
                else login.allowedNamespaces == [])
  {
    var data := env.secrets[(namespace, name)].data;
    if AllowedNs in data {
      SplitJoin(data[AllowedNs], ' ');
    }
  }

  method ReadCredentials(env: Env, namespace: string, name: string) returns (r: Option<Login>)
    ensures r == GetLogin(env, namespace, name)
  {
    if !env.ok(GetCredentials) || (namespace, name) !in env.secrets {
      return None;
    }
    var secret := env.secrets[(namespace, name)];
    if TrimSpace(secret.kind) != DRIVER_NAME {
      return None;
    }
    var accessKey, secretKey, apiKey, serviceInstanceId := "", "", "", "";
    var allowed: seq<string> := [];
    if AllowedNs in secret.data {
      allowed := Split(secret.data[AllowedNs], ' ');
    }
    if ApiKey !in secret.data {
      if AccessKey !in secret.data {
        return None;
      }
      accessKey := secret.data[AccessKey];
      if SecretKeyData !in secret.data {
        return None;
      }
      secretKey := secret.data[SecretKeyData];
    } else {
      apiKey := secret.data[ApiKey];
      if ServiceInstanceId !in secret.data {
        return None;
      }
      serviceInstanceId := secret.data[ServiceInstanceId];
    }
    var resConf, rootKey := "", "";
    if ResConfApiKey in secret.data {
      resConf := secret.data[ResConfApiKey];
    }
    if KpRootKeyCrn in secret.data {
      rootKey := secret.data[KpRootKeyCrn];
    }
    return Some(Login(Credentials(accessKey, secretKey, apiKey, serviceInstanceId, ""), allowed, resConf, rootKey));
  }

  // ---------------------------------------------------------------- the plan

  /** Everything decided before the first request to the store. */
  datatype Plan = Plan(pvc: Pvc, sc: Sc, serviceIp: string, session: Option<Session>, rootKey: string,
                       firewall: Option<string>, quota: Option<int>, validate: bool)
  {
    predicate Creates() {
      pvc.autoCreateBucket == "true"
    }

    /** Only the spelling "true" enables versioning; every other accepted value suspends it. */
    function Versioning(): Option<bool> {
      if pvc.bucketVersioning == "" then None else Some(Normalised(pvc.bucketVersioning) == "true")
    }
  }

  datatype Preparation = Ready(plan: Plan) | Declined | Panicked

  function GeneratedName(env: Env): Option<string> {
    if |env.entropy| < 16 then None else Some(Uuid.AUTO_BUCKET_PREFIX + Uuid.Print(Uuid.Stamp(env.entropy[..16])))
  }

  function BucketName(env: Env, pvc: Pvc): Option<string> {
    if pvc.bucket != "" then Some(pvc.bucket)
    else if pvc.autoDeleteBucket == "true" || pvc.autoCreateBucket == "true" then GeneratedName(env)
    else None
  }

  /** The bucket is looked at unless the claim opts out and brings its own bucket. */
  predicate ValidatesBucket(pvc: Pvc) {
    !(pvc.validateBucket == "no" && pvc.autoCreateBucket == "false")
  }

  predicate NamespaceAllowed(login: Option<Login>, namespace: string) {
    login.None? || login.value.allowedNamespaces == [] || namespace in login.value.allowedNamespaces
  }

  predicate WantsQuota(env: Env, pvc: Pvc) {
    env.configQuota && pvc.quotaLimit != "false"
  }

  predicate WantsFirewall(env: Env, pvc: Pvc) {
    env.configAccessPolicy && pvc.setAccessPolicy != "false"
  }

  /** The addresses the firewall will be told, or None if they cannot be had. */
  function FirewallIps(env: Env, pvc: Pvc): Option<string> {
    if !env.ok(DialProvider) || !env.ok(GetProviderType) || !Contains(env.providerType, "vpc-gen2") then None
    else if pvc.accessPolicyAllowedIps != "" then Some(pvc.accessPolicyAllowedIps)
    else if env.ok(GetVpcEndpoint) && env.vpcEndpoints != "" then Some(env.vpcEndpoints)
    else None
  }

  function LoginFor(env: Env, pvc: Pvc): Option<Login> {
    if ValidatesBucket(pvc) then GetLogin(env, pvc.secretNamespace, pvc.secretName) else None
  }

  predicate Admissible(env: Env, namespace: string, pvc: Pvc) {
    var login := LoginFor(env, pvc);
    && !(pvc.autoDeleteBucket == "true" && pvc.autoCreateBucket == "false")
    && BucketName(env, pvc).Some?
    && (ValidatesBucket(pvc) ==> login.Some?)
    && NamespaceAllowed(login, namespace)
    && (WantsFirewall(env, pvc) ==> FirewallIps(env, pvc).Some?)
    && (WantsFirewall(env, pvc) || WantsQuota(env, pvc) ==> login.Some? && login.value.resConfApiKey != "")
    && (pvc.autoCreateBucket == "true" && login.Some? ==>
          login.value.creds.apiKey == "" || login.value.creds.serviceInstanceId != "")
  }

  function SessionFor(sc: Sc, login: Option<Login>): Option<Session> {
    if login.None? then None
    else Some(Session(sc.osEndpoint, sc.osStorageClass, login.value.creds.(iamEndpoint := sc.iamEndpoint)))
  }

  function PlanOf(env: Env, claim: Claim, s: Settings): Plan
    requires BucketName(env, s.pvc).Some?
  {
    var login := LoginFor(env, s.pvc);
    Plan(s.pvc.(bucket := BucketName(env, s.pvc).value), s.sc, s.serviceIp,
         SessionFor(s.sc, login),
         if login.Some? then login.value.rootKey else "",
         if WantsFirewall(env, s.pvc) then FirewallIps(env, s.pvc) else None,
         if WantsQuota(env, s.pvc) then Some(claim.storage) else None,
         ValidatesBucket(s.pvc))
  }

  function Prepare(env: Env, claim: Claim): Preparation {
    match Judge(env, claim)
    case Refused => Declined
    case Crashed => Panicked
    case Accepted(s) => if Admissible(env, claim.namespace, s.pvc) then Ready(PlanOf(env, claim, s)) else Declined
  }

  // ---------------------------------------------------------------- the transaction

  datatype Step = Create | SetVersioning(enable: bool) | SetFirewall(ips: string) | SetQuota(limit: int)
                | CheckAccess | CheckPath(path: string)

  /** Step `k` of the plan, if it has one; 0 to 5 in the order of execution. */
  function StepAt(plan: Plan, k: nat): Option<Step> {
    match k
    case 0 => if plan.Creates() then Some(Create) else None
    case 1 => if plan.Versioning().Some? then Some(SetVersioning(plan.Versioning().value)) else None
    case 2 => if plan.firewall.Some? then Some(SetFirewall(plan.firewall.value)) else None
    case 3 => if plan.quota.Some? then Some(SetQuota(plan.quota.value)) else None
    case 4 => if plan.validate || plan.firewall.Some? then Some(CheckAccess) else None
    case 5 => if plan.pvc.objectPath != "" then Some(CheckPath(plan.pvc.objectPath)) else None
    case _ => None
  }

  const STEPS: nat := 6

  /** What became of the bucket this call had created. */
  datatype Cleanup = NotAttempted | Cleaned | Uncleaned(cause: DeleteError)

  datatype Volume = Volume(name: string, options: map<OptionTag, string>, annotations: map<PvcTag, string>,
                           secretNamespace: string, secretName: string, accessModes: seq<string>, capacity: int)

  /** A call refused before touching the store, one that stopped at a step (step 6 is the
      assembly of the volume), one that dereferenced nil, or a volume. */
  datatype Outcome = Rejected | Stopped(at: nat, cleanup: Cleanup) | NilDereference(at: nat)
                   | Provisioned(volume: Volume)

  predicate NeedsSession(step: Step) {
    !step.SetFirewall? && !step.SetQuota?
  }

  /** One step on the store: the world after it and whether the call may go on. */
  function Perform(w: World, s: Session, plan: Plan, step: Step): (World, bool) {
    var name := plan.pvc.bucket;
    match step
    case Create =>
      var (after, err) := CreateBucketEffect(w, s, name, plan.sc.osStorageClass, plan.rootKey);
      (after, err.None? || err.value == BucketAlreadyExists)
    case SetVersioning(enable) =>
      var (after, err) := SetVersioningEffect(w, s, name, enable);
      (after, err.None?)
    case SetFirewall(ips) =>
      var (after, err) := FirewallCall(w, name, IpLists.Entries(ips));
      (after, err.None?)
    case SetQuota(limit) =>
      var (after, err) := QuotaCall(w, name, limit);
      (after, err.None?)
    case CheckAccess =>
      var (after, err) := HeadCall(w, s, name);
      (after, err.None?)
    case CheckPath(path) =>
      var (after, found) := ObjectPathEffect(w, s, name, path);
      (after, found.Ok? && found.value)
  }

  /** Whether this call's own create request returned no error. */
  predicate CreateSucceeds(w: World, plan: Plan) {
    && plan.Creates() && plan.session.Some?
    && CreateBucketEffect(w, plan.session.value, plan.pvc.bucket, plan.sc.osStorageClass, plan.rootKey).1.None?
  }

  const NO_SESSION := Session("", "", Credentials("", "", "", "", ""))

  function RunFrom(w: World, claim: Claim, plan: Plan, k: nat, undo: bool): (World, Outcome)
    requires k <= STEPS
    decreases STEPS - k
  {
    if k == STEPS then (w, Finish(claim, plan))
    else if StepAt(plan, k).None? then RunFrom(w, claim, plan, k + 1, undo)
    else
      var step := StepAt(plan, k).value;
      if NeedsSession(step) && plan.session.None? then (w, NilDereference(k))
      else
        var s := if plan.session.Some? then plan.session.value else NO_SESSION;
        var (after, ok) := Perform(w, s, plan, step);
        if ok then RunFrom(after, claim, plan, k + 1, if k == 0 then CreateSucceeds(w, plan) else undo)
        else if undo && 1 <= k <= 3 then
          var (undone, err) := DeleteBucketEffect(after, s, plan.pvc.bucket);
          (undone, Stopped(k, if err.None? then Cleaned else Uncleaned(err.value)))
        else (after, Stopped(k, NotAttempted))
  }

  // ---------------------------------------------------------------- the volume

  function FinalSc(plan: Plan): Sc {
    var pvc, sc := plan.pvc, plan.sc;
    sc.(useXattr := pvc.useXattr || sc.useXattr,
        debugLevel := FirstOf(pvc.debugLevel, sc.debugLevel),
        curlDebug := pvc.curlDebug || sc.curlDebug,
        tlsCipherSuite := FirstOf(TrimSpace(pvc.tlsCipherSuite), sc.tlsCipherSuite),
        kernelCache := sc.kernelCache && !pvc.autoCache)
  }

  function DriverOptions(plan: Plan, sc: Sc, accessMode: string): Options {
    Options(sc.chunkSizeMb, sc.parallelCount, sc.multiReqMax, sc.statCacheSize, "", "", "", "", plan.pvc.bucket,
            plan.pvc.objectPath, sc.debugLevel, sc.curlDebug, sc.kernelCache, sc.tlsCipherSuite, sc.retryCount,
            sc.statCacheExpire, "", "", "", sc.osEndpoint, sc.osStorageClass, sc.iamEndpoint, sc.connectTimeout,
            sc.readwriteTimeout, sc.useXattr, accessMode, "", "", plan.serviceIp, plan.pvc.autoCache, sc.addMountParam)
  }

  /** The annotations a volume keeps; six of the claim's are not copied. */
  function KeptAnnotations(pvc: Pvc): Pvc {
    pvc.(tlsCipherSuite := "", cosServiceNamespace := "", autoCache := false, accessPolicyAllowedIps := "",
         quotaLimit := "", bucketVersioning := "")
  }

  function Finish(claim: Claim, plan: Plan): Outcome {
    if |claim.accessModes| > 1 then Stopped(STEPS, NotAttempted)
    else if claim.accessModes == [] then NilDereference(STEPS)
    else
      var options := MarshalOptions(DriverOptions(plan, FinalSc(plan), claim.accessModes[0]));
      var annotations := MarshalPvc(KeptAnnotations(plan.pvc));
      if options.None? || annotations.None? then Stopped(STEPS, NotAttempted)
      else Provisioned(Volume(claim.volume, options.value, annotations.value, plan.pvc.secretNamespace,
                              plan.pvc.secretName,
                              claim.accessModes, claim.storage))
  }

  function ProvisionEffect(w: World, env: Env, claim: Claim): (World, Outcome) {
    match Prepare(env, claim)
    case Declined => (w, Rejected)
    case Panicked => (w, NilDereference(0))
    case Ready(plan) => RunFrom(w, claim, plan, 0, false)
  }

  function OptionText(v: Volume, t: OptionTag): string {
    if t in v.options then v.options[t] else ""
  }

  function DeletionSession(v: Volume, login: Login): Session {
    Session(OptionText(v, OptionTag.OSEndpoint), OptionText(v, OptionTag.OSStorageClass),
            login.creds.(iamEndpoint := OptionText(v, OptionTag.IAMEndpoint)))
  }

  /** The session Delete opens for a volume whose auto-delete is "true", if it gets that far. */
  function SessionToDelete(env: Env, v: Volume, a: Pvc): Option<Session> {
    var login := GetLogin(env, a.secretNamespace, a.secretName);
    if CertReadable(env, a.secretNamespace, a.secretName) && login.Some? then Some(DeletionSession(v, login.value))
      else None
  }

  function DeleteEffect(w: World, env: Env, v: Volume): (World, bool) {
    var a := UnmarshalPvc(v.annotations);
    if a.None? then (w, false)
    else if a.value.autoDeleteBucket != "true" then (w, IsBool(a.value.autoDeleteBucket))
    else
      var s := SessionToDelete(env, v, a.value);
      if s.None? then (w, false)
      else
        var (after, err) := DeleteBucketEffect(w, s.value, a.value.bucket);
        (after, err.None?)
  }
}
