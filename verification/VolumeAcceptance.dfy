/** Provisioned volumes meet the driver: which of them it accepts, and what it asks of s3fs. */
module VolumeAcceptance {
  import opened Wrappers
  import opened Text
  import opened Store
  import opened Codec
  import opened Records
  import opened Annotations
  import opened Provisioner
  import opened S3fsOptions
  import opened VolumeDeletion

  /** The options the kubelet adds to a volume's own. */
  predicate FromKubelet(t: OptionTag) {
    t in {FSGroup, FSGroupNew, AccessKeyB64, SecretKeyB64, APIKeyB64, ServiceInstanceIDB64, CAbundleB64}
  }

  /** `opts` are a volume's options plus whatever the kubelet added; its secrets decode. */
  ghost predicate MountsVolume(decode: Decoder, options: map<OptionTag, string>, opts: map<OptionTag, string>) {
    && (forall t: OptionTag :: !FromKubelet(t) ==> (t in opts <==> t in options))
    && (forall t: OptionTag :: !FromKubelet(t) && t in opts && t in options ==> opts[t] == options[t])
    && (forall t: OptionTag :: FromKubelet(t) ==> decode(if t in opts then opts[t] else "").Some?)
  }

  lemma OverlayValues(o: Options, decode: Decoder, options: map<OptionTag, string>, opts: map<OptionTag, string>)
    requires MarshalOptions(o) == Some(options) && MountsVolume(decode, options, opts)
    ensures Unmarshals(OPTIONS_SCHEMA, opts)
    ensures forall t: OptionTag :: Unmarshalled(OPTIONS_SCHEMA, opts)(t) ==
              if FromKubelet(t) then Str(if t in opts then opts[t] else "") else o.Field(t)
  {
    OptionsIsTyped(o);
    KubeletOptionsAreText();
    Overlay(OPTIONS_SCHEMA, t => o.Field(t), opts, t => FromKubelet(t));
  }

  lemma OverlayUnmarshals(o: Options, decode: Decoder, options: map<OptionTag, string>, opts: map<OptionTag, string>)
    requires MarshalOptions(o) == Some(options) && MountsVolume(decode, options, opts)
    ensures UnmarshalOptions(opts).Some?
    ensures forall t: OptionTag :: !FromKubelet(t) ==> UnmarshalOptions(opts).value.Field(t) == o.Field(t)
    ensures forall t: OptionTag :: FromKubelet(t) ==>
              UnmarshalOptions(opts).value.Field(t) == Str(if t in opts then opts[t] else "")
  {
    OverlayValues(o, decode, options, opts);
    UnmarshalledIsTyped(OPTIONS_SCHEMA, opts);
    OptionsFields(Unmarshalled(OPTIONS_SCHEMA, opts));
  }

  lemma OptionsFields(v: OptionTag -> Value)
    requires forall t: OptionTag :: HasKind(v(t), OPTIONS_SCHEMA.kind(t))
    ensures forall t: OptionTag :: Options.Of(v).Field(t) == v(t)
  {
    forall t: OptionTag
      ensures Options.Of(v).Field(t) == v(t)
    {
      OptionsOfAt(v, t);
    }
  }

  lemma KubeletOptionsAreText()
    ensures forall t: OptionTag :: FromKubelet(t) ==> OPTIONS_SCHEMA.kind(t) == Text
    ensures forall t: OptionTag :: OPTIONS_SCHEMA.kind(t) != BareInt
  {
  }

  /** The fields the driver's checks read. */
  lemma EndpointFields(a: Options, b: Options)
    requires forall t: OptionTag :: !FromKubelet(t) ==> a.Field(t) == b.Field(t)
    ensures a.osEndpoint == b.osEndpoint && a.endpoint == b.endpoint && a.iamEndpoint == b.iamEndpoint
  {
    assert a.Field(OptionTag.OSEndpoint) == b.Field(OptionTag.OSEndpoint);
    assert a.Field(OptionTag.Endpoint) == b.Field(OptionTag.Endpoint);
    assert a.Field(OptionTag.IAMEndpoint) == b.Field(OptionTag.IAMEndpoint);
  }

  lemma NumericFields(a: Options, b: Options)
    requires forall t: OptionTag :: !FromKubelet(t) ==> a.Field(t) == b.Field(t)
    ensures a.retryCount == b.retryCount && a.statCacheExpire == b.statCacheExpire
    ensures a.connectTimeout == b.connectTimeout && a.readwriteTimeout == b.readwriteTimeout
  {
    assert a.Field(OptionTag.S3FSFUSERetryCount) == b.Field(OptionTag.S3FSFUSERetryCount);
    assert a.Field(OptionTag.StatCacheExpireSeconds) == b.Field(OptionTag.StatCacheExpireSeconds);
    assert a.Field(OptionTag.ConnectTimeoutSeconds) == b.Field(OptionTag.ConnectTimeoutSeconds);
    assert a.Field(OptionTag.ReadwriteTimeoutSeconds) == b.Field(OptionTag.ReadwriteTimeoutSeconds);
  }

  lemma CacheFields(a: Options, b: Options)
    requires forall t: OptionTag :: !FromKubelet(t) ==> a.Field(t) == b.Field(t)
    ensures a.kernelCache == b.kernelCache && a.autoCache == b.autoCache
  {
    assert a.Field(OptionTag.KernelCache) == b.Field(OptionTag.KernelCache);
    assert a.Field(OptionTag.AutoCache) == b.Field(OptionTag.AutoCache);
  }

  lemma SecretFields(o: Options, decode: Decoder, opts: map<OptionTag, string>)
    requires forall t: OptionTag :: FromKubelet(t) ==> decode(if t in opts then opts[t] else "").Some?
    requires forall t: OptionTag :: FromKubelet(t) ==> o.Field(t) == Str(if t in opts then opts[t] else "")
    ensures Keys(decode, o).Some? && CaReadable(decode, o)
  {
    assert o.Field(APIKeyB64) == Str(o.apiKeyB64);
    assert o.Field(ServiceInstanceIDB64) == Str(o.serviceInstanceIdB64);
    assert o.Field(AccessKeyB64) == Str(o.accessKeyB64);
    assert o.Field(SecretKeyB64) == Str(o.secretKeyB64);
    assert o.Field(CAbundleB64) == Str(o.caBundleB64);
  }

  /** What validation guarantees about the merged storage class settings. */
  lemma AcceptedSettings(env: Env, claim: Claim)
    requires Prepare(env, claim).Ready?
    ensures var plan := Prepare(env, claim).plan;
            && HasScheme(plan.sc.osEndpoint) && HasScheme(plan.sc.iamEndpoint)
            && BlankOrAtLeast(plan.sc.retryCount, 1) && BlankOrAtLeast(plan.sc.statCacheExpire, 0)
  {
    var p, c := UnmarshalPvc(claim.annotations), UnmarshalSc(claim.parameters);
    assert Judge(env, claim).Accepted?;
    AcceptedIsChecked(env, claim.namespace, p.value, c.value);
  }

  /** Every volume Provision emits passes all of the driver's option checks, whatever the
      kubelet adds, exactly when its two timeouts are blank or integers. */
  lemma ProvisionedVolumeAcceptedIff(w: World, env: Env, claim: Claim, v: Volume, decode: Decoder,
                                     opts: map<OptionTag, string>)
    requires IsProvisioned(w, env, claim, v) && MountsVolume(decode, v.options, opts)
    ensures var sc := Prepare(env, claim).plan.sc;
            Accept(decode, opts).Some? <==> BlankOrInt(sc.connectTimeout) && BlankOrInt(sc.readwriteTimeout)
  {
    VolumeParts(w, env, claim, v);
    AcceptedSettings(env, claim);
    var plan := Prepare(env, claim).plan;
    AcceptedIff(DriverOptions(plan, FinalSc(plan), claim.accessModes[0]), decode, v.options, opts);
  }

  lemma AcceptedIff(o: Options, decode: Decoder, options: map<OptionTag, string>, opts: map<OptionTag, string>)
    requires MarshalOptions(o) == Some(options) && MountsVolume(decode, options, opts)
    requires HasScheme(o.osEndpoint) && HasScheme(o.iamEndpoint)
    requires BlankOrAtLeast(o.retryCount, 1) && BlankOrAtLeast(o.statCacheExpire, 0)
    ensures Accept(decode, opts).Some? <==> BlankOrInt(o.connectTimeout) && BlankOrInt(o.readwriteTimeout)
  {
    OverlayUnmarshals(o, decode, options, opts);
    AcceptedOptionsIff(UnmarshalOptions(opts).value, o, decode, opts);
  }

  lemma AcceptedOptionsIff(a: Options, o: Options, decode: Decoder, opts: map<OptionTag, string>)
    requires forall t: OptionTag :: !FromKubelet(t) ==> a.Field(t) == o.Field(t)
    requires forall t: OptionTag :: FromKubelet(t) ==> a.Field(t) == Str(if t in opts then opts[t] else "")
    requires forall t: OptionTag :: FromKubelet(t) ==> decode(if t in opts then opts[t] else "").Some?
    requires HasScheme(o.osEndpoint) && HasScheme(o.iamEndpoint)
    requires BlankOrAtLeast(o.retryCount, 1) && BlankOrAtLeast(o.statCacheExpire, 0)
    ensures Keys(decode, a).Some? && CaReadable(decode, a)
    ensures IamEndpoint(Keys(decode, a).value.apiKey, a).Some?
    ensures OptionChecks(a) <==> BlankOrInt(o.connectTimeout) && BlankOrInt(o.readwriteTimeout)
  {
    EndpointFields(a, o);
    NumericFields(a, o);
    SecretFields(a, decode, opts);
    assert o.osEndpoint != "" by {
      assert !HasScheme("");
    }
  }

  /** In terms of the claim: annotations were checked, so only storage class timeouts that no
      annotation overrides can make a volume the driver refuses. */
  lemma TimeoutsComeFromStorageClass(env: Env, claim: Claim)
    requires Prepare(env, claim).Ready?
    ensures var p, c := UnmarshalPvc(claim.annotations).value, UnmarshalSc(claim.parameters).value;
            var sc := Prepare(env, claim).plan.sc;
            && (BlankOrInt(sc.connectTimeout) <==> p.connectTimeout != "" || BlankOrInt(c.connectTimeout))
            && (BlankOrInt(sc.readwriteTimeout) <==> p.readwriteTimeout != "" || BlankOrInt(c.readwriteTimeout))
  {
  }

  /** For every provisioned volume, the driver's own flags never ask for both caches. */
  lemma NeverBothCaches(w: World, env: Env, claim: Claim, v: Volume, decode: Decoder, opts: map<OptionTag, string>,
                        dir: string, file: string)
    requires IsProvisioned(w, env, claim, v) && MountsVolume(decode, v.options, opts) && Accept(decode, opts).Some?
    ensures var flags := Flags(opts, Accept(decode, opts).value, dir, file);
            !("kernel_cache" in flags && "auto_cache" in flags)
  {
    VolumeParts(w, env, claim, v);
    var plan := Prepare(env, claim).plan;
    var o := DriverOptions(plan, FinalSc(plan), claim.accessModes[0]);
    OverlayUnmarshals(o, decode, v.options, opts);
    CacheFields(UnmarshalOptions(opts).value, o);
    CacheFlagsIff(opts, Accept(decode, opts).value, dir, file);
  }
}
