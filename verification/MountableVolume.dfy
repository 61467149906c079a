/** Provision, then mount: when a provisioned volume gets past the driver's checks to the
    mount itself. */
module MountableVolume {
  import opened Wrappers
  import opened Text
  import opened Store
  import opened Backend
  import opened Codec
  import opened Records
  import opened Annotations
  import opened Provisioner
  import opened Rollback
  import opened VolumeDeletion
  import opened S3fsOptions
  import opened VolumeAcceptance
  import opened ObjectPath
  import opened Host
  import opened Mounting
  import opened MountSafety
  import opened MountProgress
  import opened Driver

  // ---------------------------------------------------------------- the same secret, twice

  /** The option is the encoded text, and blank just when the text is. */
  predicate Carries(decode: Decoder, opts: map<OptionTag, string>, t: OptionTag, text: string) {
    var encoded := if t in opts then opts[t] else "";
    decode(encoded) == Some(text) && (encoded == "" <==> text == "")
  }

  /** The kubelet passes on the four keys of this secret. */
  predicate CarriesSecret(decode: Decoder, opts: map<OptionTag, string>, secret: Secret) {
    && Carries(decode, opts, APIKeyB64, Lookup(secret, ApiKey))
    && Carries(decode, opts, ServiceInstanceIDB64, Lookup(secret, ServiceInstanceId))
    && Carries(decode, opts, AccessKeyB64, Lookup(secret, AccessKey))
    && Carries(decode, opts, SecretKeyB64, Lookup(secret, SecretKeyData))
  }

  /** Who the store takes the driver for: a blank API key counts as none. */
  function DriverAccount(secret: Secret): string {
    if Lookup(secret, ApiKey) != "" then Lookup(secret, ServiceInstanceId) else Lookup(secret, AccessKey)
  }

  /** The provisioner and the driver act as the same account, except exactly when the secret
      has a blank API key next to an access key: the provisioner then goes by the API key. */
  lemma AccountsAgreeIff(env: Env, namespace: string, name: string)
    requires GetLogin(env, namespace, name).Some?
    ensures var secret := env.secrets[(namespace, name)];
            GetLogin(env, namespace, name).value.creds.Account() == DriverAccount(secret) <==>
              !(ApiKey in secret.data && secret.data[ApiKey] == "" && Lookup(secret, AccessKey) != "")
  {
    LoginIsOneKind(env, namespace, name);
  }

  lemma DriverKeys(o: Options, decode: Decoder, opts: map<OptionTag, string>, secret: Secret)
    requires CarriesSecret(decode, opts, secret)
    requires forall t: OptionTag :: FromKubelet(t) ==> o.Field(t) == Str(if t in opts then opts[t] else "")
    ensures Keys(decode, o).Some? && Keys(decode, o).value.Account() == DriverAccount(secret)
  {
    assert o.Field(APIKeyB64) == Str(o.apiKeyB64);
    assert o.Field(ServiceInstanceIDB64) == Str(o.serviceInstanceIdB64);
    assert o.Field(AccessKeyB64) == Str(o.accessKeyB64);
    assert o.Field(SecretKeyB64) == Str(o.secretKeyB64);
  }

  // ---------------------------------------------------------------- what the driver will look for

  lemma PlaceFields(a: Options, b: Options)
    requires forall t: OptionTag :: !FromKubelet(t) ==> a.Field(t) == b.Field(t)
    ensures a.osEndpoint == b.osEndpoint && a.bucket == b.bucket && a.objectPath == b.objectPath
  {
    assert a.Field(OptionTag.OSEndpoint) == b.Field(OptionTag.OSEndpoint);
    assert a.Field(OptionTag.Bucket) == b.Field(OptionTag.Bucket);
    assert a.Field(OptionTag.ObjectPath) == b.Field(OptionTag.ObjectPath);
  }

  function CaText(opts: map<OptionTag, string>): string {
    if CAbundleB64 in opts then opts[CAbundleB64] else ""
  }

  lemma AcceptedShape(decode: Decoder, opts: map<OptionTag, string>)
    requires Accept(decode, opts).Some?
    ensures UnmarshalOptions(opts).Some?
    ensures var plan, o := Accept(decode, opts).value, UnmarshalOptions(opts).value;
            && plan.options == o && plan.endpoint == S3fsOptions.Endpoint(o)
            && Keys(decode, o).Some? && plan.creds.Account() == Keys(decode, o).value.Account()
  {
  }

  /** The accepted plan looks for the provisioned bucket, at its endpoint, as the driver's
      account. */
  lemma MountTarget(o: Options, decode: Decoder, options: map<OptionTag, string>, opts: map<OptionTag, string>,
                    secret: Secret)
    requires MarshalOptions(o) == Some(options) && MountsVolume(decode, options, opts) && o.osEndpoint != ""
    requires CarriesSecret(decode, opts, secret) && Accept(decode, opts).Some?
    ensures var plan := Accept(decode, opts).value;
            && plan.endpoint == o.osEndpoint && plan.options.bucket == o.bucket
                 && plan.options.objectPath == o.objectPath
            && plan.creds.Account() == DriverAccount(secret)
            && plan.options.caBundleB64 == CaText(opts)
  {
    OverlayUnmarshals(o, decode, options, opts);
    AcceptedShape(decode, opts);
    TargetFields(UnmarshalOptions(opts).value, o, decode, opts, secret);
  }

  lemma TargetFields(a: Options, o: Options, decode: Decoder, opts: map<OptionTag, string>, secret: Secret)
    requires forall t: OptionTag :: !FromKubelet(t) ==> a.Field(t) == o.Field(t)
    requires forall t: OptionTag :: FromKubelet(t) ==> a.Field(t) == Str(if t in opts then opts[t] else "")
    requires CarriesSecret(decode, opts, secret) && o.osEndpoint != ""
    ensures S3fsOptions.Endpoint(a) == o.osEndpoint && a.bucket == o.bucket && a.objectPath == o.objectPath
    ensures Keys(decode, a).Some? && Keys(decode, a).value.Account() == DriverAccount(secret)
    ensures a.caBundleB64 == CaText(opts)
  {
    PlaceFields(a, o);
    DriverKeys(a, decode, opts, secret);
    assert a.Field(CAbundleB64) == Str(a.caBundleB64);
  }

  // ---------------------------------------------------------------- the object path

  /** A volume with an object path has seen the path. */
  lemma {:induction false} ProvisionedShowsPath(w: World, claim: Claim, plan: Plan, k: nat, undo: bool)
    requires k <= 5 && plan.session.Some? && plan.pvc.objectPath != ""
             && RunFrom(w, claim, plan, k, undo).1.Provisioned?
    ensures var end := RunFrom(w, claim, plan, k, undo).0;
            Denial(end, plan.session.value, plan.pvc.bucket) == None
            && ShowsPath(end.buckets[plan.pvc.bucket].objects, ListingPrefix(plan.pvc.objectPath))
    decreases STEPS - k
  {
    var s := plan.session.value;
    if k == 5 {
      LastCheckSeesPath(w, claim, plan, undo);
    } else if StepAt(plan, k).None? {
      ProvisionedShowsPath(w, claim, plan, k + 1, undo);
    } else {
      var next := Perform(w, s, plan, StepAt(plan, k).value).0;
      ProvisionedShowsPath(next, claim, plan, k + 1, if k == 0 then CreateSucceeds(w, plan) else undo);
    }
  }

  lemma LastCheckSeesPath(w: World, claim: Claim, plan: Plan, undo: bool)
    requires plan.session.Some? && plan.pvc.objectPath != "" && RunFrom(w, claim, plan, 5, undo).1.Provisioned?
    ensures var end := RunFrom(w, claim, plan, 5, undo).0;
            Denial(end, plan.session.value, plan.pvc.bucket) == None
            && ShowsPath(end.buckets[plan.pvc.bucket].objects, ListingPrefix(plan.pvc.objectPath))
  {
    var s, name := plan.session.value, plan.pvc.bucket;
    var next := Perform(w, s, plan, StepAt(plan, 5).value).0;
    assert RunFrom(w, claim, plan, 5, undo) == RunFrom(next, claim, plan, STEPS, undo);
    assert ObjectPathEffect(w, s, name, plan.pvc.objectPath).1 == Ok(true);
    PathCheckIff(w, s, name, plan.pvc.objectPath);
  }

  // ---------------------------------------------------------------- provision, then mount

  /** The bucket lets the account in. */
  predicate Open(b: Bucket, account: string) {
    account == b.owner || account in b.guests
  }

  lemma QuietChecksIff(w: World, plan: MountPlan)
    requires Quiet(w) && plan.options.bucket in w.buckets && w.buckets[plan.options.bucket].home == plan.endpoint
    ensures BucketChecks(w, plan).1 <==>
              && Open(w.buckets[plan.options.bucket], plan.creds.Account())
              && (plan.options.objectPath != "" ==> ShowsPath(w.buckets[plan.options.bucket].objects,
                                                              ListingPrefix(plan.options.objectPath)))
  {
    var s := Session(plan.endpoint, plan.region, plan.creds);
    var seen := HeadCall(w, s, plan.options.bucket).0;
    if Open(w.buckets[plan.options.bucket], plan.creds.Account()) {
      PathCheckIff(seen, s, plan.options.bucket, plan.options.objectPath);
    }
  }

  lemma AttemptStartsIff(w: World, n: Node, plan: Option<MountPlan>, mountPath: string, dir: string)
    ensures Attempt(w, n, plan, mountPath, dir).2 != NotStarted <==>
              plan.Some? && (plan.value.options.caBundleB64 == "" || Now(n).ok) && BucketChecks(w, plan.value).1
  {
    if plan.Some? {
      MountStarts(CaWritten(n, plan.value.options).0, mountPath, dir);
    }
  }

  lemma VolumeBucketSeen(w: World, env: Env, claim: Claim, v: Volume)
    requires IsProvisioned(w, env, claim, v) && Prepare(env, claim).plan.session.Some?
    ensures var plan, end := Prepare(env, claim).plan, ProvisionEffect(w, env, claim).0;
            && plan.pvc.bucket in end.buckets
            && end.buckets[plan.pvc.bucket].home == plan.session.value.endpoint == plan.sc.osEndpoint
            && Open(end.buckets[plan.pvc.bucket], plan.session.value.creds.Account())
            && (plan.pvc.objectPath != "" ==> ShowsPath(end.buckets[plan.pvc.bucket].objects,
                                                        ListingPrefix(plan.pvc.objectPath)))
  {
    SessionIffValidated(env, claim);
    PlanSession(env, claim);
    BucketSeen(w, claim, Prepare(env, claim).plan);
  }

  lemma BucketSeen(w: World, claim: Claim, plan: Plan)
    requires plan.session.Some? && plan.validate && RunFrom(w, claim, plan, 0, false).1.Provisioned?
    ensures var end := RunFrom(w, claim, plan, 0, false).0;
            && Denial(end, plan.session.value, plan.pvc.bucket) == None
            && (plan.pvc.objectPath != "" ==> ShowsPath(end.buckets[plan.pvc.bucket].objects,
                                                        ListingPrefix(plan.pvc.objectPath)))
  {
    ProvisionedIsReachable(w, claim, plan, 0, false);
    if plan.pvc.objectPath != "" {
      ProvisionedShowsPath(w, claim, plan, 0, false);
    }
  }

  lemma SecretInUse(env: Env, claim: Claim)
    requires Prepare(env, claim).Ready? && Prepare(env, claim).plan.session.Some?
    ensures var plan := Prepare(env, claim).plan;
            var ref := (plan.pvc.secretNamespace, plan.pvc.secretName);
            && ref in env.secrets
            && GetLogin(env, ref.0, ref.1).Some?
            && plan.session.value.creds.Account() == GetLogin(env, ref.0, ref.1).value.creds.Account()
  {
    PlanSession(env, claim);
  }

  lemma AcceptedVolumeStartsIff(o: Options, decode: Decoder, options: map<OptionTag, string>,
                                opts: map<OptionTag, string>, secret: Secret, now: World, n: Node, mountPath: string,
                                dir: string)
    requires MarshalOptions(o) == Some(options) && MountsVolume(decode, options, opts) && o.osEndpoint != ""
    requires CarriesSecret(decode, opts, secret) && Quiet(now)
    requires o.bucket in now.buckets && now.buckets[o.bucket].home == o.osEndpoint
    requires o.objectPath != "" ==> ShowsPath(now.buckets[o.bucket].objects, ListingPrefix(o.objectPath))
    ensures Attempt(now, n, Accept(decode, opts), mountPath, dir).2 != NotStarted <==>
              && Accept(decode, opts).Some? && (CaText(opts) == "" || Now(n).ok)
              && Open(now.buckets[o.bucket], DriverAccount(secret))
  {
    AttemptStartsIff(now, n, Accept(decode, opts), mountPath, dir);
    if Accept(decode, opts).Some? {
      MountTarget(o, decode, options, opts, secret);
      QuietChecksIff(now, Accept(decode, opts).value);
    }
  }

  /** A volume provisioned with a look at its bucket, and mounted with the secret it was
      provisioned with, in a store that has not changed and meets no fault: the driver gets to
      the mount itself iff both timeouts are blank or integers, a CA bundle, if there is one,
      can be written, and the bucket is open to the driver's account. */
  lemma ProvisionThenMountIff(w: World, env: Env, claim: Claim, v: Volume, now: World, n: Node, decode: Decoder,
                              opts: map<OptionTag, string>, mountPath: string, dir: string)
    requires IsProvisioned(w, env, claim, v) && Prepare(env, claim).plan.session.Some?
    requires MountsVolume(decode, v.options, opts)
    requires var pvc := Prepare(env, claim).plan.pvc;
             var ref := (pvc.secretNamespace, pvc.secretName);
             ref in env.secrets && CarriesSecret(decode, opts, env.secrets[ref])
    requires Quiet(now) && now.buckets == ProvisionEffect(w, env, claim).0.buckets
    ensures var plan := Prepare(env, claim).plan;
            var secret := env.secrets[(plan.pvc.secretNamespace, plan.pvc.secretName)];
            && plan.pvc.bucket in now.buckets
            && (Attempt(now, n, Accept(decode, opts), mountPath, dir).2 != NotStarted <==>
                  && BlankOrInt(plan.sc.connectTimeout) && BlankOrInt(plan.sc.readwriteTimeout)
                  && (CaText(opts) == "" || Now(n).ok)
                  && Open(now.buckets[plan.pvc.bucket], DriverAccount(secret)))
  {
    var plan := Prepare(env, claim).plan;
    var secret := env.secrets[(plan.pvc.secretNamespace, plan.pvc.secretName)];
    VolumeParts(w, env, claim, v);
    VolumeBucketSeen(w, env, claim, v);
    AcceptedSettings(env, claim);
    SchemeIsNotBlank(plan.sc.osEndpoint);
    ProvisionedVolumeAcceptedIff(w, env, claim, v, decode, opts);
    AcceptedVolumeStartsIff(DriverOptions(plan, FinalSc(plan), claim.accessModes[0]), decode, v.options, opts, secret,
                            now,
                            n, mountPath, dir);
  }

  lemma SchemeIsNotBlank(url: string)
    requires HasScheme(url)
    ensures url != ""
  {
  }

  /** On a node where nothing fails and nothing lies at the data path, that same mount also ends
      with s3fs running on the target. */
  lemma ProvisionThenMountedIff(w: World, env: Env, claim: Claim, v: Volume, now: World, n: Node, decode: Decoder,
                                opts: map<OptionTag, string>, mountPath: string, dir: string)
    requires IsProvisioned(w, env, claim, v) && Prepare(env, claim).plan.session.Some?
    requires MountsVolume(decode, v.options, opts)
    requires var pvc := Prepare(env, claim).plan.pvc;
             var ref := (pvc.secretNamespace, pvc.secretName);
             ref in env.secrets && CarriesSecret(decode, opts, env.secrets[ref])
    requires Quiet(now) && now.buckets == ProvisionEffect(w, env, claim).0.buckets
    requires Calm(n) && Clear(n, mountPath) && Apart(mountPath, dir) && mountPath != "" && dir != ""
    ensures var plan := Prepare(env, claim).plan;
            var secret := env.secrets[(plan.pvc.secretNamespace, plan.pvc.secretName)];
            && plan.pvc.bucket in now.buckets
            && (Attempt(now, n, Accept(decode, opts), mountPath, dir).2 == Mounted <==>
                  && BlankOrInt(plan.sc.connectTimeout) && BlankOrInt(plan.sc.readwriteTimeout)
                  && Open(now.buckets[plan.pvc.bucket], DriverAccount(secret)))
  {
    ProvisionThenMountIff(w, env, claim, v, now, n, decode, opts, mountPath, dir);
    CalmAttempt(now, n, Accept(decode, opts), mountPath, dir);
  }

  lemma CalmAttempt(w: World, n: Node, plan: Option<MountPlan>, mountPath: string, dir: string)
    requires Calm(n) && Clear(n, mountPath) && Apart(mountPath, dir) && mountPath != "" && dir != ""
    ensures Now(n).ok
    ensures var stage := Attempt(w, n, plan, mountPath, dir).2;
            stage == Mounted || stage == NotStarted
  {
    if plan.Some? {
      CalmFirstMountSucceeds(CaWritten(n, plan.value.options).0, mountPath, dir);
    }
  }

  /** With any secret but one whose API key is blank next to an access key, that account is
      the provisioner's own, which the bucket was open to. */
  lemma SameAccountOpens(w: World, env: Env, claim: Claim, v: Volume)
    requires IsProvisioned(w, env, claim, v) && Prepare(env, claim).plan.session.Some?
    ensures var pvc := Prepare(env, claim).plan.pvc;
            var ref := (pvc.secretNamespace, pvc.secretName);
            && ref in env.secrets
            && var data := env.secrets[ref].data;
            && pvc.bucket in ProvisionEffect(w, env, claim).0.buckets
            && (!(ApiKey in data && data[ApiKey] == "" && Lookup(env.secrets[ref], AccessKey) != "") ==>
                  Open(ProvisionEffect(w, env, claim).0.buckets[pvc.bucket], DriverAccount(env.secrets[ref])))
  {
    var pvc := Prepare(env, claim).plan.pvc;
    SecretInUse(env, claim);
    VolumeBucketSeen(w, env, claim, v);
    AccountsAgreeIff(env, pvc.secretNamespace, pvc.secretName);
  }
}
