/** From a claim's texts, by way of the volume's options, to the values s3fs is started with. */
module CommandValues {
  import opened Wrappers
  import opened Text
  import opened Store
  import opened Codec
  import opened Records
  import opened Annotations
  import opened Provisioner
  import opened S3fsOptions
  import opened S3fsSettings
  import opened VolumeDeletion
  import opened VolumeAcceptance
  import opened VolumeContents
  import opened Host
  import opened Mounting
  import opened Driver

  // ---------------------------------------------------------------- what the driver accepts

  /** A blank text, or an integer that is large enough. */
  predicate BlankOrFrom(text: string, least: int) {
    text == "" || (Atoi(text).Some? && least <= Atoi(text).value)
  }

  /** The keys in use decode: the API key and its instance if the key's text is not blank, else
      the access key and its secret. */
  predicate KeysDecode(decode: Decoder, o: Options) {
    if o.apiKeyB64 != "" then decode(o.apiKeyB64).Some? && decode(o.serviceInstanceIdB64).Some?
    else decode(o.accessKeyB64).Some? && decode(o.secretKeyB64).Some?
  }

  /** The driver signs in with an API key. */
  predicate UsesIam(decode: Decoder, o: Options) {
    o.apiKeyB64 != "" && decode(o.apiKeyB64) != Some("")
  }

  predicate Acceptable(decode: Decoder, o: Options) {
    && HasScheme(if o.osEndpoint != "" then o.osEndpoint else o.endpoint)
    && BlankOrFrom(o.retryCount, 1) && BlankOrFrom(o.statCacheExpire, 0)
    && (o.connectTimeout == "" || Atoi(o.connectTimeout).Some?)
    && (o.readwriteTimeout == "" || Atoi(o.readwriteTimeout).Some?)
    && KeysDecode(decode, o)
    && (UsesIam(decode, o) && o.iamEndpoint != "" ==> HasScheme(o.iamEndpoint))
    && (o.caBundleB64 != "" ==> decode(o.caBundleB64).Some?)
  }

  lemma ChecksIff(o: Options)
    ensures OptionChecks(o) <==>
              && HasScheme(if o.osEndpoint != "" then o.osEndpoint else o.endpoint)
              && BlankOrFrom(o.retryCount, 1) && BlankOrFrom(o.statCacheExpire, 0)
              && (o.connectTimeout == "" || Atoi(o.connectTimeout).Some?)
              && (o.readwriteTimeout == "" || Atoi(o.readwriteTimeout).Some?)
  {
  }

  lemma AccessIff(decode: Decoder, o: Options)
    ensures Keys(decode, o).Some? <==> KeysDecode(decode, o)
    ensures Keys(decode, o).Some? ==>
              (IamEndpoint(Keys(decode, o).value.apiKey, o).Some? <==>
                 (UsesIam(decode, o) && o.iamEndpoint != "" ==> HasScheme(o.iamEndpoint)))
  {
  }

  /** Which options the driver accepts, whoever wrote them. */
  lemma DriverAcceptsIff(decode: Decoder, opts: map<OptionTag, string>)
    ensures Accept(decode, opts).Some? <==>
              UnmarshalOptions(opts).Some? && Acceptable(decode, UnmarshalOptions(opts).value)
  {
    if UnmarshalOptions(opts).Some? {
      ChecksIff(UnmarshalOptions(opts).value);
      AccessIff(decode, UnmarshalOptions(opts).value);
    }
  }

  /** What the driver then goes by: where the store is, whose keys, and which IAM endpoint. */
  lemma AcceptedPlan(decode: Decoder, opts: map<OptionTag, string>)
    requires Accept(decode, opts).Some?
    ensures var plan := Accept(decode, opts).value;
            var o := plan.options;
            && UnmarshalOptions(opts) == Some(o)
            && plan.endpoint == (if o.osEndpoint != "" then o.osEndpoint else o.endpoint)
            && plan.region == (if o.osStorageClass != "" then o.osStorageClass
                               else if o.region != "" then o.region else "dummy-object-store-storageclass")
            && (o.apiKeyB64 != "" ==>
                  && Some(plan.creds.apiKey) == decode(o.apiKeyB64)
                  && Some(plan.creds.serviceInstanceId) == decode(o.serviceInstanceIdB64)
                  && plan.creds.accessKey == plan.creds.secretKey == "")
            && (o.apiKeyB64 == "" ==>
                  && Some(plan.creds.accessKey) == decode(o.accessKeyB64)
                  && Some(plan.creds.secretKey) == decode(o.secretKeyB64)
                  && plan.creds.apiKey == plan.creds.serviceInstanceId == "")
            && (plan.creds.apiKey != "" <==> UsesIam(decode, o))
            && plan.creds.iamEndpoint == (if !UsesIam(decode, o) then ""
                                          else if o.iamEndpoint != "" then o.iamEndpoint
                                          else "https://iam.cloud.ibm.com")
  {
  }

  // ---------------------------------------------------------------- a volume's options, mounted

  /** `o` with the seven options the kubelet adds. */
  function WithKubelet(o: Options, opts: map<OptionTag, string>): Options {
    o.(fsGroup := Added(opts, FSGroup), fsGroupNew := Added(opts, FSGroupNew),
       accessKeyB64 := Added(opts, AccessKeyB64), secretKeyB64 := Added(opts, SecretKeyB64),
       apiKeyB64 := Added(opts, APIKeyB64), serviceInstanceIdB64 := Added(opts, ServiceInstanceIDB64),
       caBundleB64 := Added(opts, CAbundleB64))
  }

  function Added(opts: map<OptionTag, string>, t: OptionTag): string {
    if t in opts then opts[t] else ""
  }

  lemma WithKubeletFields(o: Options, opts: map<OptionTag, string>, t: OptionTag)
    ensures WithKubelet(o, opts).Field(t) == (if FromKubelet(t) then Str(Added(opts, t)) else o.Field(t))
  {
  }

  lemma Overlaid(o: Options, decode: Decoder, options: map<OptionTag, string>, opts: map<OptionTag, string>)
    requires MarshalOptions(o) == Some(options) && MountsVolume(decode, options, opts)
    ensures UnmarshalOptions(opts) == Some(WithKubelet(o, opts))
  {
    OverlayUnmarshals(o, decode, options, opts);
    var a := UnmarshalOptions(opts).value;
    forall t: OptionTag
      ensures a.Field(t) == WithKubelet(o, opts).Field(t)
    {
      WithKubeletFields(o, opts, t);
    }
    SameOptions(a, WithKubelet(o, opts));
  }

  /** An accepted mount of a provisioned volume: each value s3fs gets is the annotation's, or
      else the storage class's, or the kubelet's, with the keys of the secret. */
  lemma MountedValues(w: World, env: Env, claim: Claim, v: Volume, p: Pvc, c: Sc, plan: Plan, decode: Decoder,
                      opts: map<OptionTag, string>)
    requires IsProvisioned(w, env, claim, v) && Prepare(env, claim) == Ready(plan)
    requires UnmarshalPvc(claim.annotations) == Some(p) && UnmarshalSc(claim.parameters) == Some(c)
    requires MountsVolume(decode, v.options, opts) && Accept(decode, opts).Some?
    ensures var mount := Accept(decode, opts).value;
            var o := mount.options;
            && MergedOptions(env, p, c, o) && LateOptions(claim, p, c, o) && o.bucket == plan.pvc.bucket
            && mount.endpoint == o.osEndpoint
            && (o.osStorageClass != "" ==> mount.region == o.osStorageClass)
            && (o.osStorageClass == "" ==> mount.region == "dummy-object-store-storageclass")
            && o.fsGroup == Added(opts, FSGroup) && o.fsGroupNew == Added(opts, FSGroupNew)
            && (mount.creds.apiKey != "" ==> mount.creds.iamEndpoint == o.iamEndpoint)
  {
    var o := VolumeOptions(w, env, claim, v, p, c, plan);
    VolumeMarshalled(w, env, claim, v, o);
    Overlaid(o, decode, v.options, opts);
    AcceptedPlan(decode, opts);
    AcceptedSettings(env, claim);
  }

  lemma VolumeMarshalled(w: World, env: Env, claim: Claim, v: Volume, o: Options)
    requires IsProvisioned(w, env, claim, v) && UnmarshalOptions(v.options) == Some(o)
    ensures MarshalOptions(o) == Some(v.options)
    ensures o.osEndpoint == Prepare(env, claim).plan.sc.osEndpoint
    ensures o.iamEndpoint == Prepare(env, claim).plan.sc.iamEndpoint
  {
    VolumeParts(w, env, claim, v);
    var plan := Prepare(env, claim).plan;
    OptionsRoundTrip(DriverOptions(plan, FinalSc(plan), claim.accessModes[0]));
  }

  // ---------------------------------------------------------------- the request

  /** A request that got as far as the node names the bucket or the path in it, the target, and
      the password file inside its own data path; one that did not starts nothing. */
  lemma RequestCommand(w: World, n: Node, decode: Decoder, hash: string -> string, dir: string,
                       opts: map<OptionTag, string>)
    ensures var r := MountRequest(w, n, decode, DataPath(hash, dir), dir, opts).2;
            if r.stage == NotStarted then r.args == []
            else
              && Accept(decode, opts).Some? && |r.args| >= 28 && r.args[1] == dir
              && r.args[0] == Source(Accept(decode, opts).value.options.bucket,
                                     Accept(decode, opts).value.options.objectPath)
              && r.args[7] == "passwd_file=" + ("/var/lib/ibmc-s3fs" + "/" + hash(dir) + "/passwd")
              && r.args[27] == "instance_name=" + dir
  {
    if Accept(decode, opts).Some? {
      FixedPositions(opts, Accept(decode, opts).value, dir, PasswordFile(DataPath(hash, dir)));
      MountSource(opts, Accept(decode, opts).value, dir, PasswordFile(DataPath(hash, dir)));
    }
  }

  /** The text of the decoded keys: the API key after a colon, or the access key and its secret
      with a colon between them. */
  function KeyText(decode: Decoder, o: Options): string
    requires KeysDecode(decode, o)
  {
    if UsesIam(decode, o) then ":" + decode(o.apiKeyB64).value
    else if o.apiKeyB64 != "" then ":"
    else decode(o.accessKeyB64).value + ":" + decode(o.secretKeyB64).value
  }

  lemma PlannedPassword(decode: Decoder, opts: map<OptionTag, string>)
    requires Accept(decode, opts).Some?
    ensures UnmarshalOptions(opts).Some? && KeysDecode(decode, UnmarshalOptions(opts).value)
    ensures PasswordText(Accept(decode, opts).value.creds) == KeyText(decode, UnmarshalOptions(opts).value)
  {
    DriverAcceptsIff(decode, opts);
    AcceptedPlan(decode, opts);
  }

  /** The password file holds the keys that the options carry. */
  lemma RequestPassword(w: World, n: Node, decode: Decoder, mountPath: string, dir: string,
                        opts: map<OptionTag, string>)
    requires MountRequest(w, n, decode, mountPath, dir, opts).2.stage != NotStarted
    ensures UnmarshalOptions(opts).Some? && KeysDecode(decode, UnmarshalOptions(opts).value)
    ensures MountRequest(w, n, decode, mountPath, dir, opts).2.password ==
            KeyText(decode, UnmarshalOptions(opts).value)
  {
    PlannedPassword(decode, opts);
  }
}
