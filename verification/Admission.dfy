/** Which accepted claims a provisioning goes on with, what it plans for them, and which volumes
    a deletion goes on with, in terms of texts, the secret's entries and the cluster. */
module Admission {
  import opened Wrappers
  import opened Text
  import opened Store
  import opened Backend
  import opened Records
  import opened Annotations
  import opened ClaimMerge
  import opened Provisioner
  import Uuid

  // ---------------------------------------------------------------- the secret

  function Entry(data: map<SecretKey, string>, key: SecretKey): string {
    if key in data then data[key] else ""
  }

  /** An API key with an instance id, or without one both HMAC keys. */
  predicate HasKeys(data: map<SecretKey, string>) {
    || (ApiKey in data && ServiceInstanceId in data)
    || (ApiKey !in data && AccessKey in data && SecretKeyData in data)
  }

  /** Which secrets can be used to log in. */
  lemma LoginIff(env: Env, namespace: string, name: string)
    ensures GetLogin(env, namespace, name).Some? <==>
              && env.ok(GetCredentials) && (namespace, name) in env.secrets
              && TrimSpace(env.secrets[(namespace, name)].kind) == "ibm/ibmc-s3fs"
              && HasKeys(env.secrets[(namespace, name)].data)
  {
  }

  /** What a login takes over from its secret besides the keys. */
  lemma LoginEntries(env: Env, namespace: string, name: string)
    requires GetLogin(env, namespace, name).Some?
    ensures (namespace, name) in env.secrets
    ensures var data, login := env.secrets[(namespace, name)].data, GetLogin(env, namespace, name).value;
            && login.resConfApiKey == Entry(data, ResConfApiKey) && login.rootKey == Entry(data, KpRootKeyCrn)
            && login.creds.apiKey == Entry(data, ApiKey) && login.creds.iamEndpoint == ""
            && (ApiKey in data ==> login.creds.serviceInstanceId == Entry(data, ServiceInstanceId))
            && login.allowedNamespaces == (if AllowedNs in data then Split(data[AllowedNs], ' ') else [])
  {
  }

  // ---------------------------------------------------------------- who goes on

  /** A bucket is left alone only if the claim says so and brings its own. */
  predicate LooksAtBucket(m: Pvc) {
    m.validateBucket != "no" || m.autoCreateBucket != "false"
  }

  function SecretData(env: Env, m: Pvc): map<SecretKey, string> {
    if (m.secretNamespace, m.secretName) in env.secrets then env.secrets[(m.secretNamespace, m.secretName)].data
      else map[]
  }

  /** There is a name, or one may be generated. */
  predicate NameKnown(env: Env, m: Pvc) {
    m.bucket != "" || ((m.autoDeleteBucket == "true" || m.autoCreateBucket == "true") && |env.entropy| >= 16)
  }

  /** The secret's list, if there is one, names the claim's namespace. */
  predicate NamespaceListed(env: Env, namespace: string, m: Pvc) {
    LooksAtBucket(m) && AllowedNs in SecretData(env, m) ==> namespace in Split(SecretData(env, m)[AllowedNs], ' ')
  }

  predicate FirewallAsked(env: Env, m: Pvc) {
    env.configAccessPolicy && m.setAccessPolicy != "false"
  }

  /** A VPC cluster, and addresses from the claim or from the provider. */
  predicate FirewallPossible(env: Env, m: Pvc) {
    && env.ok(DialProvider) && env.ok(GetProviderType) && Contains(env.providerType, "vpc-gen2")
    && (m.accessPolicyAllowedIps != "" || (env.ok(GetVpcEndpoint) && env.vpcEndpoints != ""))
  }

  predicate QuotaAsked(env: Env, m: Pvc) {
    env.configQuota && m.quotaLimit != "false"
  }

  /** The key that policies are set with is at hand. */
  predicate PolicyKeyKnown(env: Env, m: Pvc) {
    LooksAtBucket(m) && Entry(SecretData(env, m), ResConfApiKey) != ""
  }

  /** All that can still be refused about an accepted claim. */
  predicate Admits(env: Env, namespace: string, m: Pvc) {
    && (m.autoDeleteBucket == "true" ==> m.autoCreateBucket != "false")
    && NameKnown(env, m)
    && (LooksAtBucket(m) ==> GetLogin(env, m.secretNamespace, m.secretName).Some?)
    && NamespaceListed(env, namespace, m)
    && (FirewallAsked(env, m) ==> FirewallPossible(env, m))
    && (FirewallAsked(env, m) || QuotaAsked(env, m) ==> PolicyKeyKnown(env, m))
    && (m.autoCreateBucket == "true" && Entry(SecretData(env, m), ApiKey) != "" ==>
          Entry(SecretData(env, m), ServiceInstanceId) != "")
  }

  lemma AdmissibleIff(env: Env, namespace: string, m: Pvc)
    ensures Admissible(env, namespace, m) <==> Admits(env, namespace, m)
  {
    if LooksAtBucket(m) && GetLogin(env, m.secretNamespace, m.secretName).Some? {
      LoginEntries(env, m.secretNamespace, m.secretName);
    }
  }

  /** Exactly which claims are prepared. */
  lemma ReadyIff(env: Env, claim: Claim)
    ensures Prepare(env, claim).Ready? <==>
              Judge(env, claim).Accepted? && Admits(env, claim.namespace, Judge(env, claim).settings.pvc)
  {
    if Judge(env, claim).Accepted? {
      AdmissibleIff(env, claim.namespace, Judge(env, claim).settings.pvc);
    }
  }

  /** The others do not reach the store: they are rejected, unless validation panics. */
  lemma UnpreparedIsUntouched(w: World, env: Env, claim: Claim)
    requires !Prepare(env, claim).Ready?
    ensures ProvisionEffect(w, env, claim) ==
            (w, if Judge(env, claim).Crashed? then NilDereference(0) else Rejected)
  {
  }

  /** A call that looks at its bucket comes from a namespace on the secret's list. */
  lemma NamespaceIsListed(env: Env, claim: Claim)
    requires Prepare(env, claim).Ready? && Prepare(env, claim).plan.validate
    ensures var pvc := Prepare(env, claim).plan.pvc;
            var ref := (pvc.secretNamespace, pvc.secretName);
            && ref in env.secrets
            && (AllowedNs in env.secrets[ref].data ==> claim.namespace in Split(env.secrets[ref].data[AllowedNs], ' '))
  {
    ReadyIff(env, claim);
    PlanKeeps(env, claim);
    LoginIff(env, Prepare(env, claim).plan.pvc.secretNamespace, Prepare(env, claim).plan.pvc.secretName);
  }

  /** A claim from any other namespace is rejected and the store is untouched. */
  lemma UnlistedIsRejected(w: World, env: Env, claim: Claim)
    requires Judge(env, claim).Accepted?
    requires var m := Judge(env, claim).settings.pvc;
             LooksAtBucket(m) && AllowedNs in SecretData(env, m) &&
             claim.namespace !in Split(SecretData(env, m)[AllowedNs], ' ')
    ensures ProvisionEffect(w, env, claim) == (w, Rejected)
  {
    ReadyIff(env, claim);
    UnpreparedIsUntouched(w, env, claim);
  }

  // ---------------------------------------------------------------- the plan

  /** A plan is the accepted settings with a bucket name filled in. */
  lemma PlanKeeps(env: Env, claim: Claim)
    requires Prepare(env, claim).Ready?
    ensures Judge(env, claim).Accepted?
    ensures var plan, s := Prepare(env, claim).plan, Judge(env, claim).settings;
            && plan.pvc == s.pvc.(bucket := plan.pvc.bucket) && plan.sc == s.sc && plan.serviceIp == s.serviceIp
            && (plan.validate <==> LooksAtBucket(s.pvc))
            && (s.pvc.bucket != "" ==> plan.pvc.bucket == s.pvc.bucket)
            && (s.pvc.bucket == "" ==>
                  |env.entropy| >= 16 && plan.pvc.bucket == "tmp-s3fs-" + Uuid.Print(Uuid.Stamp(env.entropy[..16])))
  {
  }

  /** The bucket a claim gets: the annotated one, else the storage class's, else a generated
      name of 45 characters. */
  lemma PlannedBucket(env: Env, claim: Claim)
    requires Prepare(env, claim).Ready?
    ensures UnmarshalPvc(claim.annotations).Some? && UnmarshalSc(claim.parameters).Some?
    ensures var p, c := UnmarshalPvc(claim.annotations).value, UnmarshalSc(claim.parameters).value;
            var bucket := Prepare(env, claim).plan.pvc.bucket;
            && (p.bucket != "" ==> bucket == p.bucket)
            && (p.bucket == "" && c.bucket != "" ==> bucket == c.bucket)
            && (p.bucket == "" && c.bucket == "" ==>
                  |env.entropy| >= 16 && |bucket| == 45 &&
                  bucket == "tmp-s3fs-" + Uuid.Print(Uuid.Stamp(env.entropy[..16])))
  {
    var p, c := UnmarshalPvc(claim.annotations).value, UnmarshalSc(claim.parameters).value;
    PlanKeeps(env, claim);
    MergedTexts(env, claim.namespace, p, c);
    if |env.entropy| >= 16 {
      Uuid.GeneratedBucketName(env.entropy[..16]);
    }
  }

  /** Every other setting of a plan, traced to the claim's two texts. */
  lemma PlannedTexts(env: Env, claim: Claim)
    requires Prepare(env, claim).Ready?
    ensures UnmarshalPvc(claim.annotations).Some? && UnmarshalSc(claim.parameters).Some?
    ensures var p, c := UnmarshalPvc(claim.annotations).value, UnmarshalSc(claim.parameters).value;
            var plan := Prepare(env, claim).plan;
            && BucketTexts(p, c, plan.pvc.(bucket := if p.bucket != "" then p.bucket else c.bucket))
            && KeepsTexts(p, plan.pvc) && ClassTexts(env, p, c, plan.sc)
            && plan.pvc.endpoint == EndpointText(env, p)
            && (!env.allowCrossNsSecret ==> plan.pvc.secretNamespace == claim.namespace)
            && (env.allowCrossNsSecret ==>
                  Wins(p.secretNamespace, if c.secretNamespace != "" then c.secretNamespace else claim.namespace,
                       plan.pvc.secretNamespace))
            && plan.serviceIp == (if NamesService(p) && ServiceFound(env, p)
                                  then env.services[(p.cosServiceNamespace, p.cosServiceName)].ip else "")
  {
    var p, c := UnmarshalPvc(claim.annotations).value, UnmarshalSc(claim.parameters).value;
    PlanKeeps(env, claim);
    AcceptedMerge(env, claim.namespace, p, c);
    MergedTexts(env, claim.namespace, p, c);
  }

  /** The session and root key of a plan that looks at its bucket, entry by entry. */
  lemma PlannedSession(env: Env, claim: Claim)
    requires Prepare(env, claim).Ready? && Prepare(env, claim).plan.validate
    ensures var plan := Prepare(env, claim).plan;
            var ref := (plan.pvc.secretNamespace, plan.pvc.secretName);
            && ref in env.secrets && plan.session.Some?
            && var data, s := env.secrets[ref].data, plan.session.value;
            && s.endpoint == plan.sc.osEndpoint && s.region == plan.sc.osStorageClass
            && s.creds.iamEndpoint == plan.sc.iamEndpoint
            && (ApiKey in data ==> s.creds.apiKey == data[ApiKey] && s.creds.accessKey == s.creds.secretKey == "")
            && (ApiKey in data ==> s.creds.serviceInstanceId == Entry(data, ServiceInstanceId))
            && (ApiKey !in data ==> s.creds.accessKey == Entry(data, AccessKey) && s.creds.apiKey == "")
            && (ApiKey !in data ==> s.creds.secretKey == Entry(data, SecretKeyData))
            && plan.rootKey == Entry(data, KpRootKeyCrn)
  {
    var pvc := Prepare(env, claim).plan.pvc;
    PlanLogin(env, claim);
    LoginEntries(env, pvc.secretNamespace, pvc.secretName);
    LoginIsOneKind(env, pvc.secretNamespace, pvc.secretName);
  }

  lemma PlanLogin(env: Env, claim: Claim)
    requires Prepare(env, claim).Ready? && Prepare(env, claim).plan.validate
    ensures var plan := Prepare(env, claim).plan;
            var login := GetLogin(env, plan.pvc.secretNamespace, plan.pvc.secretName);
            && login.Some?
            && plan.session == Some(Session(plan.sc.osEndpoint, plan.sc.osStorageClass,
                                            login.value.creds.(iamEndpoint := plan.sc.iamEndpoint)))
            && plan.rootKey == login.value.rootKey
  {
  }

  // ---------------------------------------------------------------- deletions

  /** A certificate in the secret can be written, and its keys can be used. */
  predicate SecretUsable(env: Env, namespace: string, name: string) {
    && (namespace, name) in env.secrets
    && var secret := env.secrets[(namespace, name)];
    && env.ok(GetCertSecret) && (CaBundle !in secret.data || env.ok(WriteCert))
    && env.ok(GetCredentials) && TrimSpace(secret.kind) == "ibm/ibmc-s3fs" && HasKeys(secret.data)
  }

  /** Which volumes a deletion touches the store for, whoever made them: auto-delete reads
      exactly "true" and the secret is usable. For all others it does nothing, and succeeds iff
      the switch is some other boolean. */
  lemma DeletionGoesOnIff(w: World, env: Env, v: Volume)
    ensures var a := UnmarshalPvc(v.annotations);
            var goesOn := a.Some? && a.value.autoDeleteBucket == "true" &&
                          SecretUsable(env, a.value.secretNamespace, a.value.secretName);
            && (!goesOn ==>
                  DeleteEffect(w, env, v) ==
                  (w, a.Some? && a.value.autoDeleteBucket != "true" && IsBool(a.value.autoDeleteBucket)))
            && (goesOn ==>
                  && SessionToDelete(env, v, a.value).Some?
                  && var (after, err) := DeleteBucketEffect(w, SessionToDelete(env, v, a.value).value, a.value.bucket);
                  DeleteEffect(w, env, v) == (after, err.None?))
  {
    var a := UnmarshalPvc(v.annotations);
    if a.Some? {
      LoginIff(env, a.value.secretNamespace, a.value.secretName);
    }
  }
}
