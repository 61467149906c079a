/** The three structs that cross the string-map codec. Tag constructors stand for the JSON
    tags of the Go fields of the same name ("ibm.io/..." on annotations and storage classes). */
module Records {
  import opened Wrappers
  import opened Text
  import opened Codec

  function TextIn(v: Value): string {
    if v.Str? then v.text else ""
  }

  function NumIn(v: Value): Int64 {
    if v.Num? && InInt64(v.num) then v.num else 0
  }

  function FlagIn(v: Value): bool {
    if v.Flag? then v.flag else false
  }

  datatype PvcTag =
    AutoCreateBucket | AutoDeleteBucket | Bucket | ObjectPath | Endpoint | Region | SecretName |
    ChunkSizeMB | ParallelCount | MultiReqMax | StatCacheSize | S3FSFUSERetryCount |
    StatCacheExpireSeconds | IAMEndpoint | ValidateBucket | SecretNamespace | ConnectTimeoutSeconds
    | ReadwriteTimeoutSeconds | UseXattr | CurlDebug | DebugLevel | TLSCipherSuite | CosServiceName
    | CosServiceNamespace | AutoCache | SetAccessPolicy | AccessPolicyAllowedIps | AddMountParam |
    QuotaLimit | BucketVersioning

  /** pvcAnnotations: what a claim asks for, and what a volume records for its deletion. */
  datatype Pvc = Pvc(
    autoCreateBucket: string, autoDeleteBucket: string, bucket: string, objectPath: string,
    endpoint: string, region: string, secretName: string, chunkSizeMb: string,
    parallelCount: string, multiReqMax: string, statCacheSize: string, retryCount: string,
    statCacheExpire: string, iamEndpoint: string, validateBucket: string, secretNamespace: string,
    connectTimeout: string, readwriteTimeout: string, useXattr: bool, curlDebug: bool,
    debugLevel: string, tlsCipherSuite: string, cosServiceName: string, cosServiceNamespace: string,
    autoCache: bool, setAccessPolicy: string, accessPolicyAllowedIps: string, addMountParam: string,
    quotaLimit: string, bucketVersioning: string)
  {
    function Field(t: PvcTag): Value {
      match t
      case AutoCreateBucket => Str(autoCreateBucket)
      case AutoDeleteBucket => Str(autoDeleteBucket)
      case Bucket => Str(bucket)
      case ObjectPath => Str(objectPath)
      case Endpoint => Str(endpoint)
      case Region => Str(region)
      case SecretName => Str(secretName)
      case ChunkSizeMB => Str(chunkSizeMb)
      case ParallelCount => Str(parallelCount)
      case MultiReqMax => Str(multiReqMax)
      case StatCacheSize => Str(statCacheSize)
      case S3FSFUSERetryCount => Str(retryCount)
      case StatCacheExpireSeconds => Str(statCacheExpire)
      case IAMEndpoint => Str(iamEndpoint)
      case ValidateBucket => Str(validateBucket)
      case SecretNamespace => Str(secretNamespace)
      case ConnectTimeoutSeconds => Str(connectTimeout)
      case ReadwriteTimeoutSeconds => Str(readwriteTimeout)
      case UseXattr => Flag(useXattr)
      case CurlDebug => Flag(curlDebug)
      case DebugLevel => Str(debugLevel)
      case TLSCipherSuite => Str(tlsCipherSuite)
      case CosServiceName => Str(cosServiceName)
      case CosServiceNamespace => Str(cosServiceNamespace)
      case AutoCache => Flag(autoCache)
      case SetAccessPolicy => Str(setAccessPolicy)
      case AccessPolicyAllowedIps => Str(accessPolicyAllowedIps)
      case AddMountParam => Str(addMountParam)
      case QuotaLimit => Str(quotaLimit)
      case BucketVersioning => Str(bucketVersioning)
    }

    static function Of(v: PvcTag -> Value): Pvc {
      Pvc(
        TextIn(v(PvcTag.AutoCreateBucket)), TextIn(v(PvcTag.AutoDeleteBucket)),
        TextIn(v(PvcTag.Bucket)), TextIn(v(PvcTag.ObjectPath)), TextIn(v(PvcTag.Endpoint)),
        TextIn(v(PvcTag.Region)), TextIn(v(PvcTag.SecretName)), TextIn(v(PvcTag.ChunkSizeMB)),
        TextIn(v(PvcTag.ParallelCount)), TextIn(v(PvcTag.MultiReqMax)),
        TextIn(v(PvcTag.StatCacheSize)), TextIn(v(PvcTag.S3FSFUSERetryCount)),
        TextIn(v(PvcTag.StatCacheExpireSeconds)), TextIn(v(PvcTag.IAMEndpoint)),
        TextIn(v(PvcTag.ValidateBucket)), TextIn(v(PvcTag.SecretNamespace)),
        TextIn(v(PvcTag.ConnectTimeoutSeconds)), TextIn(v(PvcTag.ReadwriteTimeoutSeconds)),
        FlagIn(v(PvcTag.UseXattr)), FlagIn(v(PvcTag.CurlDebug)), TextIn(v(PvcTag.DebugLevel)),
        TextIn(v(PvcTag.TLSCipherSuite)), TextIn(v(PvcTag.CosServiceName)),
        TextIn(v(PvcTag.CosServiceNamespace)), FlagIn(v(PvcTag.AutoCache)),
        TextIn(v(PvcTag.SetAccessPolicy)), TextIn(v(PvcTag.AccessPolicyAllowedIps)),
        TextIn(v(PvcTag.AddMountParam)), TextIn(v(PvcTag.QuotaLimit)),
        TextIn(v(PvcTag.BucketVersioning)))
    }
  }

  const PVC_SCHEMA: Schema<PvcTag> := Schema(
    set t: PvcTag | true,
    (t: PvcTag) => match t
    case UseXattr | CurlDebug | AutoCache => QuotedBool
    case _ => Text,
    (t: PvcTag) => match t
    case AutoCreateBucket | AutoDeleteBucket | Bucket | SecretName | CosServiceName => false
    case _ => true)

  function UnmarshalPvc(m: map<PvcTag, string>): Option<Pvc> {
    if Unmarshals(PVC_SCHEMA, m) then Some(Pvc.Of(Unmarshalled(PVC_SCHEMA, m))) else None
  }

  function MarshalPvc(r: Pvc): Option<map<PvcTag, string>> {
    PvcIsTyped(r);
    Marshalled(PVC_SCHEMA, t => r.Field(t))
  }

  lemma PvcIsTyped(r: Pvc)
    ensures WellTyped(PVC_SCHEMA, t => r.Field(t))
  {
  }

  lemma PvcOfAt(v: PvcTag -> Value, t: PvcTag)
    requires HasKind(v(t), PVC_SCHEMA.kind(t))
    ensures Pvc.Of(v).Field(t) == v(t)
  {
  }

  lemma SamePvcFields1(a: Pvc, b: Pvc)
    requires forall t: PvcTag :: a.Field(t) == b.Field(t)
    ensures a.autoCreateBucket == b.autoCreateBucket && a.autoDeleteBucket == b.autoDeleteBucket
    ensures a.bucket == b.bucket && a.objectPath == b.objectPath
    ensures a.endpoint == b.endpoint && a.region == b.region
    ensures a.secretName == b.secretName && a.chunkSizeMb == b.chunkSizeMb
  {
    assert a.Field(PvcTag.AutoCreateBucket) == b.Field(PvcTag.AutoCreateBucket);
    assert a.Field(PvcTag.AutoDeleteBucket) == b.Field(PvcTag.AutoDeleteBucket);
    assert a.Field(PvcTag.Bucket) == b.Field(PvcTag.Bucket);
    assert a.Field(PvcTag.ObjectPath) == b.Field(PvcTag.ObjectPath);
    assert a.Field(PvcTag.Endpoint) == b.Field(PvcTag.Endpoint);
    assert a.Field(PvcTag.Region) == b.Field(PvcTag.Region);
    assert a.Field(PvcTag.SecretName) == b.Field(PvcTag.SecretName);
    assert a.Field(PvcTag.ChunkSizeMB) == b.Field(PvcTag.ChunkSizeMB);
  }

  lemma SamePvcFields2(a: Pvc, b: Pvc)
    requires forall t: PvcTag :: a.Field(t) == b.Field(t)
    ensures a.parallelCount == b.parallelCount && a.multiReqMax == b.multiReqMax
    ensures a.statCacheSize == b.statCacheSize && a.retryCount == b.retryCount
    ensures a.statCacheExpire == b.statCacheExpire && a.iamEndpoint == b.iamEndpoint
    ensures a.validateBucket == b.validateBucket && a.secretNamespace == b.secretNamespace
  {
    assert a.Field(PvcTag.ParallelCount) == b.Field(PvcTag.ParallelCount);
    assert a.Field(PvcTag.MultiReqMax) == b.Field(PvcTag.MultiReqMax);
    assert a.Field(PvcTag.StatCacheSize) == b.Field(PvcTag.StatCacheSize);
    assert a.Field(PvcTag.S3FSFUSERetryCount) == b.Field(PvcTag.S3FSFUSERetryCount);
    assert a.Field(PvcTag.StatCacheExpireSeconds) == b.Field(PvcTag.StatCacheExpireSeconds);
    assert a.Field(PvcTag.IAMEndpoint) == b.Field(PvcTag.IAMEndpoint);
    assert a.Field(PvcTag.ValidateBucket) == b.Field(PvcTag.ValidateBucket);
    assert a.Field(PvcTag.SecretNamespace) == b.Field(PvcTag.SecretNamespace);
  }

  lemma SamePvcFields3(a: Pvc, b: Pvc)
    requires forall t: PvcTag :: a.Field(t) == b.Field(t)
    ensures a.connectTimeout == b.connectTimeout && a.readwriteTimeout == b.readwriteTimeout
    ensures a.useXattr == b.useXattr && a.curlDebug == b.curlDebug
    ensures a.debugLevel == b.debugLevel && a.tlsCipherSuite == b.tlsCipherSuite
    ensures a.cosServiceName == b.cosServiceName && a.cosServiceNamespace == b.cosServiceNamespace
  {
    assert a.Field(PvcTag.ConnectTimeoutSeconds) == b.Field(PvcTag.ConnectTimeoutSeconds);
    assert a.Field(PvcTag.ReadwriteTimeoutSeconds) == b.Field(PvcTag.ReadwriteTimeoutSeconds);
    assert a.Field(PvcTag.UseXattr) == b.Field(PvcTag.UseXattr);
    assert a.Field(PvcTag.CurlDebug) == b.Field(PvcTag.CurlDebug);
    assert a.Field(PvcTag.DebugLevel) == b.Field(PvcTag.DebugLevel);
    assert a.Field(PvcTag.TLSCipherSuite) == b.Field(PvcTag.TLSCipherSuite);
    assert a.Field(PvcTag.CosServiceName) == b.Field(PvcTag.CosServiceName);
    assert a.Field(PvcTag.CosServiceNamespace) == b.Field(PvcTag.CosServiceNamespace);
  }

  lemma SamePvcFields4(a: Pvc, b: Pvc)
    requires forall t: PvcTag :: a.Field(t) == b.Field(t)
    ensures a.autoCache == b.autoCache && a.setAccessPolicy == b.setAccessPolicy
    ensures a.accessPolicyAllowedIps == b.accessPolicyAllowedIps && a.addMountParam == b.addMountParam
    ensures a.quotaLimit == b.quotaLimit && a.bucketVersioning == b.bucketVersioning
  {
    assert a.Field(PvcTag.AutoCache) == b.Field(PvcTag.AutoCache);
    assert a.Field(PvcTag.SetAccessPolicy) == b.Field(PvcTag.SetAccessPolicy);
    assert a.Field(PvcTag.AccessPolicyAllowedIps) == b.Field(PvcTag.AccessPolicyAllowedIps);
    assert a.Field(PvcTag.AddMountParam) == b.Field(PvcTag.AddMountParam);
    assert a.Field(PvcTag.QuotaLimit) == b.Field(PvcTag.QuotaLimit);
    assert a.Field(PvcTag.BucketVersioning) == b.Field(PvcTag.BucketVersioning);
  }

  /** A record is determined by its fields. */
  lemma SamePvc(a: Pvc, b: Pvc)
    requires forall t: PvcTag :: a.Field(t) == b.Field(t)
    ensures a == b
  {
    SamePvcFields1(a, b);
    SamePvcFields2(a, b);
    SamePvcFields3(a, b);
    SamePvcFields4(a, b);
  }

  /** Marshalling never fails, and unmarshalling gives the record back. */
  lemma PvcRoundTrip(r: Pvc)
    ensures MarshalPvc(r).Some? && UnmarshalPvc(MarshalPvc(r).value) == Some(r)
  {
    PvcIsTyped(r);
    RoundTrip(PVC_SCHEMA, t => r.Field(t));
    forall t: PvcTag
      ensures UnmarshalPvc(MarshalPvc(r).value).value.Field(t) == r.Field(t)
    {
      PvcOfAt(Unmarshalled(PVC_SCHEMA, MarshalPvc(r).value), t);
    }
    SamePvc(UnmarshalPvc(MarshalPvc(r).value).value, r);
  }

  datatype ScTag =
    AutoCreateBucket | AutoDeleteBucket | Bucket | ObjectPath | SecretName | SecretNamespace |
    ChunkSizeMB | ParallelCount | MultiReqMax | StatCacheSize | TLSCipherSuite | DebugLevel |
    CurlDebug | KernelCache | S3FSFUSERetryCount | StatCacheExpireSeconds | IAMEndpoint | OSEndpoint
    | OSStorageClass | ConnectTimeoutSeconds | ReadwriteTimeoutSeconds | UseXattr | AddMountParam |
    BucketVersioning

  /** scOptions: the storage class parameters. */
  datatype Sc = Sc(
    autoCreateBucket: string, autoDeleteBucket: string, bucket: string, objectPath: string,
    secretName: string, secretNamespace: string, chunkSizeMb: Int64, parallelCount: Int64,
    multiReqMax: Int64, statCacheSize: Int64, tlsCipherSuite: string, debugLevel: string,
    curlDebug: bool, kernelCache: bool, retryCount: string, statCacheExpire: string,
    iamEndpoint: string, osEndpoint: string, osStorageClass: string, connectTimeout: string,
    readwriteTimeout: string, useXattr: bool, addMountParam: string, bucketVersioning: string)
  {
    function Field(t: ScTag): Value {
      match t
      case AutoCreateBucket => Str(autoCreateBucket)
      case AutoDeleteBucket => Str(autoDeleteBucket)
      case Bucket => Str(bucket)
      case ObjectPath => Str(objectPath)
      case SecretName => Str(secretName)
      case SecretNamespace => Str(secretNamespace)
      case ChunkSizeMB => Num(chunkSizeMb)
      case ParallelCount => Num(parallelCount)
      case MultiReqMax => Num(multiReqMax)
      case StatCacheSize => Num(statCacheSize)
      case TLSCipherSuite => Str(tlsCipherSuite)
      case DebugLevel => Str(debugLevel)
      case CurlDebug => Flag(curlDebug)
      case KernelCache => Flag(kernelCache)
      case S3FSFUSERetryCount => Str(retryCount)
      case StatCacheExpireSeconds => Str(statCacheExpire)
      case IAMEndpoint => Str(iamEndpoint)
      case OSEndpoint => Str(osEndpoint)
      case OSStorageClass => Str(osStorageClass)
      case ConnectTimeoutSeconds => Str(connectTimeout)
      case ReadwriteTimeoutSeconds => Str(readwriteTimeout)
      case UseXattr => Flag(useXattr)
      case AddMountParam => Str(addMountParam)
      case BucketVersioning => Str(bucketVersioning)
    }

    static function Of(v: ScTag -> Value): Sc {
      Sc(
        TextIn(v(ScTag.AutoCreateBucket)), TextIn(v(ScTag.AutoDeleteBucket)),
        TextIn(v(ScTag.Bucket)), TextIn(v(ScTag.ObjectPath)), TextIn(v(ScTag.SecretName)),
        TextIn(v(ScTag.SecretNamespace)), NumIn(v(ScTag.ChunkSizeMB)),
        NumIn(v(ScTag.ParallelCount)), NumIn(v(ScTag.MultiReqMax)), NumIn(v(ScTag.StatCacheSize)),
        TextIn(v(ScTag.TLSCipherSuite)), TextIn(v(ScTag.DebugLevel)), FlagIn(v(ScTag.CurlDebug)),
        FlagIn(v(ScTag.KernelCache)), TextIn(v(ScTag.S3FSFUSERetryCount)),
        TextIn(v(ScTag.StatCacheExpireSeconds)), TextIn(v(ScTag.IAMEndpoint)),
        TextIn(v(ScTag.OSEndpoint)), TextIn(v(ScTag.OSStorageClass)),
        TextIn(v(ScTag.ConnectTimeoutSeconds)), TextIn(v(ScTag.ReadwriteTimeoutSeconds)),
        FlagIn(v(ScTag.UseXattr)), TextIn(v(ScTag.AddMountParam)), TextIn(v(ScTag.BucketVersioning)))
    }
  }

  const SC_SCHEMA: Schema<ScTag> := Schema(
    set t: ScTag | true,
    (t: ScTag) => match t
    case ChunkSizeMB | ParallelCount | MultiReqMax | StatCacheSize => QuotedInt
    case CurlDebug | KernelCache | UseXattr => QuotedBool
    case _ => Text,
    (t: ScTag) => match t
    case ChunkSizeMB | ParallelCount | MultiReqMax | StatCacheSize | DebugLevel | UseXattr => false
    case _ => true)

  function UnmarshalSc(m: map<ScTag, string>): Option<Sc> {
    if Unmarshals(SC_SCHEMA, m) then Some(Sc.Of(Unmarshalled(SC_SCHEMA, m))) else None
  }

  datatype OptionTag =
    ChunkSizeMB | ParallelCount | MultiReqMax | StatCacheSize | FSGroup | FSGroupNew | Endpoint |
    Region | Bucket | ObjectPath | DebugLevel | CurlDebug | KernelCache | TLSCipherSuite |
    S3FSFUSERetryCount | StatCacheExpireSeconds | AccessKeyB64 | SecretKeyB64 | APIKeyB64 |
    OSEndpoint | OSStorageClass | IAMEndpoint | ConnectTimeoutSeconds | ReadwriteTimeoutSeconds |
    UseXattr | AccessMode | ServiceInstanceIDB64 | CAbundleB64 | CosServiceIP | AutoCache |
    AddMountParam

  /** driver.Options: what the volume hands to the FlexVolume driver. */
  datatype Options = Options(
    chunkSizeMb: Int64, parallelCount: Int64, multiReqMax: Int64, statCacheSize: Int64,
    fsGroup: string, fsGroupNew: string, endpoint: string, region: string, bucket: string,
    objectPath: string, debugLevel: string, curlDebug: bool, kernelCache: bool,
    tlsCipherSuite: string, retryCount: string, statCacheExpire: string, accessKeyB64: string,
    secretKeyB64: string, apiKeyB64: string, osEndpoint: string, osStorageClass: string,
    iamEndpoint: string, connectTimeout: string, readwriteTimeout: string, useXattr: bool,
    accessMode: string, serviceInstanceIdB64: string, caBundleB64: string, cosServiceIp: string,
    autoCache: bool, addMountParam: string)
  {
    function Field(t: OptionTag): Value {
      match t
      case ChunkSizeMB => Num(chunkSizeMb)
      case ParallelCount => Num(parallelCount)
      case MultiReqMax => Num(multiReqMax)
      case StatCacheSize => Num(statCacheSize)
      case FSGroup => Str(fsGroup)
      case FSGroupNew => Str(fsGroupNew)
      case Endpoint => Str(endpoint)
      case Region => Str(region)
      case Bucket => Str(bucket)
      case ObjectPath => Str(objectPath)
      case DebugLevel => Str(debugLevel)
      case CurlDebug => Flag(curlDebug)
      case KernelCache => Flag(kernelCache)
      case TLSCipherSuite => Str(tlsCipherSuite)
      case S3FSFUSERetryCount => Str(retryCount)
      case StatCacheExpireSeconds => Str(statCacheExpire)
      case AccessKeyB64 => Str(accessKeyB64)
      case SecretKeyB64 => Str(secretKeyB64)
      case APIKeyB64 => Str(apiKeyB64)
      case OSEndpoint => Str(osEndpoint)
      case OSStorageClass => Str(osStorageClass)
      case IAMEndpoint => Str(iamEndpoint)
      case ConnectTimeoutSeconds => Str(connectTimeout)
      case ReadwriteTimeoutSeconds => Str(readwriteTimeout)
      case UseXattr => Flag(useXattr)
      case AccessMode => Str(accessMode)
      case ServiceInstanceIDB64 => Str(serviceInstanceIdB64)
      case CAbundleB64 => Str(caBundleB64)
      case CosServiceIP => Str(cosServiceIp)
      case AutoCache => Flag(autoCache)
      case AddMountParam => Str(addMountParam)
    }

    static function Of(v: OptionTag -> Value): Options {
      Options(
        NumIn(v(OptionTag.ChunkSizeMB)), NumIn(v(OptionTag.ParallelCount)),
        NumIn(v(OptionTag.MultiReqMax)), NumIn(v(OptionTag.StatCacheSize)),
        TextIn(v(OptionTag.FSGroup)), TextIn(v(OptionTag.FSGroupNew)),
        TextIn(v(OptionTag.Endpoint)), TextIn(v(OptionTag.Region)), TextIn(v(OptionTag.Bucket)),
        TextIn(v(OptionTag.ObjectPath)), TextIn(v(OptionTag.DebugLevel)),
        FlagIn(v(OptionTag.CurlDebug)), FlagIn(v(OptionTag.KernelCache)),
        TextIn(v(OptionTag.TLSCipherSuite)), TextIn(v(OptionTag.S3FSFUSERetryCount)),
        TextIn(v(OptionTag.StatCacheExpireSeconds)), TextIn(v(OptionTag.AccessKeyB64)),
        TextIn(v(OptionTag.SecretKeyB64)), TextIn(v(OptionTag.APIKeyB64)),
        TextIn(v(OptionTag.OSEndpoint)), TextIn(v(OptionTag.OSStorageClass)),
        TextIn(v(OptionTag.IAMEndpoint)), TextIn(v(OptionTag.ConnectTimeoutSeconds)),
        TextIn(v(OptionTag.ReadwriteTimeoutSeconds)), FlagIn(v(OptionTag.UseXattr)),
        TextIn(v(OptionTag.AccessMode)), TextIn(v(OptionTag.ServiceInstanceIDB64)),
        TextIn(v(OptionTag.CAbundleB64)), TextIn(v(OptionTag.CosServiceIP)),
        FlagIn(v(OptionTag.AutoCache)), TextIn(v(OptionTag.AddMountParam)))
    }
  }

  const OPTIONS_SCHEMA: Schema<OptionTag> := Schema(
    set t: OptionTag | true,
    (t: OptionTag) => match t
    case ChunkSizeMB | ParallelCount | MultiReqMax | StatCacheSize => QuotedInt
    case CurlDebug | KernelCache | UseXattr | AutoCache => QuotedBool
    case _ => Text,
    (t: OptionTag) => match t
    case ChunkSizeMB | ParallelCount | MultiReqMax | StatCacheSize | Bucket | DebugLevel | CurlDebug => false
    case _ => true)

  function UnmarshalOptions(m: map<OptionTag, string>): Option<Options> {
    if Unmarshals(OPTIONS_SCHEMA, m) then Some(Options.Of(Unmarshalled(OPTIONS_SCHEMA, m))) else None
  }

  function MarshalOptions(r: Options): Option<map<OptionTag, string>> {
    OptionsIsTyped(r);
    Marshalled(OPTIONS_SCHEMA, t => r.Field(t))
  }

  lemma OptionsIsTyped(r: Options)
    ensures WellTyped(OPTIONS_SCHEMA, t => r.Field(t))
  {
  }

  lemma OptionsOfAt(v: OptionTag -> Value, t: OptionTag)
    requires HasKind(v(t), OPTIONS_SCHEMA.kind(t))
    ensures Options.Of(v).Field(t) == v(t)
  {
  }

  lemma SameOptionsFields1(a: Options, b: Options)
    requires forall t: OptionTag :: a.Field(t) == b.Field(t)
    ensures a.chunkSizeMb == b.chunkSizeMb && a.parallelCount == b.parallelCount
    ensures a.multiReqMax == b.multiReqMax && a.statCacheSize == b.statCacheSize
    ensures a.fsGroup == b.fsGroup && a.fsGroupNew == b.fsGroupNew && a.endpoint == b.endpoint && a.region == b.region
  {
    assert a.Field(OptionTag.ChunkSizeMB) == b.Field(OptionTag.ChunkSizeMB);
    assert a.Field(OptionTag.ParallelCount) == b.Field(OptionTag.ParallelCount);
    assert a.Field(OptionTag.MultiReqMax) == b.Field(OptionTag.MultiReqMax);
    assert a.Field(OptionTag.StatCacheSize) == b.Field(OptionTag.StatCacheSize);
    assert a.Field(OptionTag.FSGroup) == b.Field(OptionTag.FSGroup);
    assert a.Field(OptionTag.FSGroupNew) == b.Field(OptionTag.FSGroupNew);
    assert a.Field(OptionTag.Endpoint) == b.Field(OptionTag.Endpoint);
    assert a.Field(OptionTag.Region) == b.Field(OptionTag.Region);
  }

  lemma SameOptionsFields2(a: Options, b: Options)
    requires forall t: OptionTag :: a.Field(t) == b.Field(t)
    ensures a.bucket == b.bucket && a.objectPath == b.objectPath
    ensures a.debugLevel == b.debugLevel && a.curlDebug == b.curlDebug
    ensures a.kernelCache == b.kernelCache && a.tlsCipherSuite == b.tlsCipherSuite
    ensures a.retryCount == b.retryCount && a.statCacheExpire == b.statCacheExpire
  {
    assert a.Field(OptionTag.Bucket) == b.Field(OptionTag.Bucket);
    assert a.Field(OptionTag.ObjectPath) == b.Field(OptionTag.ObjectPath);
    assert a.Field(OptionTag.DebugLevel) == b.Field(OptionTag.DebugLevel);
    assert a.Field(OptionTag.CurlDebug) == b.Field(OptionTag.CurlDebug);
    assert a.Field(OptionTag.KernelCache) == b.Field(OptionTag.KernelCache);
    assert a.Field(OptionTag.TLSCipherSuite) == b.Field(OptionTag.TLSCipherSuite);
    assert a.Field(OptionTag.S3FSFUSERetryCount) == b.Field(OptionTag.S3FSFUSERetryCount);
    assert a.Field(OptionTag.StatCacheExpireSeconds) == b.Field(OptionTag.StatCacheExpireSeconds);
  }

  lemma SameOptionsFields3(a: Options, b: Options)
    requires forall t: OptionTag :: a.Field(t) == b.Field(t)
    ensures a.accessKeyB64 == b.accessKeyB64 && a.secretKeyB64 == b.secretKeyB64
    ensures a.apiKeyB64 == b.apiKeyB64 && a.osEndpoint == b.osEndpoint
    ensures a.osStorageClass == b.osStorageClass && a.iamEndpoint == b.iamEndpoint
    ensures a.connectTimeout == b.connectTimeout && a.readwriteTimeout == b.readwriteTimeout
  {
    assert a.Field(OptionTag.AccessKeyB64) == b.Field(OptionTag.AccessKeyB64);
    assert a.Field(OptionTag.SecretKeyB64) == b.Field(OptionTag.SecretKeyB64);
    assert a.Field(OptionTag.APIKeyB64) == b.Field(OptionTag.APIKeyB64);
    assert a.Field(OptionTag.OSEndpoint) == b.Field(OptionTag.OSEndpoint);
    assert a.Field(OptionTag.OSStorageClass) == b.Field(OptionTag.OSStorageClass);
    assert a.Field(OptionTag.IAMEndpoint) == b.Field(OptionTag.IAMEndpoint);
    assert a.Field(OptionTag.ConnectTimeoutSeconds) == b.Field(OptionTag.ConnectTimeoutSeconds);
    assert a.Field(OptionTag.ReadwriteTimeoutSeconds) == b.Field(OptionTag.ReadwriteTimeoutSeconds);
  }

  lemma SameOptionsFields4(a: Options, b: Options)
    requires forall t: OptionTag :: a.Field(t) == b.Field(t)
    ensures a.useXattr == b.useXattr && a.accessMode == b.accessMode
    ensures a.serviceInstanceIdB64 == b.serviceInstanceIdB64 && a.caBundleB64 == b.caBundleB64
    ensures a.cosServiceIp == b.cosServiceIp && a.autoCache == b.autoCache && a.addMountParam == b.addMountParam
  {
    assert a.Field(OptionTag.UseXattr) == b.Field(OptionTag.UseXattr);
    assert a.Field(OptionTag.AccessMode) == b.Field(OptionTag.AccessMode);
    assert a.Field(OptionTag.ServiceInstanceIDB64) == b.Field(OptionTag.ServiceInstanceIDB64);
    assert a.Field(OptionTag.CAbundleB64) == b.Field(OptionTag.CAbundleB64);
    assert a.Field(OptionTag.CosServiceIP) == b.Field(OptionTag.CosServiceIP);
    assert a.Field(OptionTag.AutoCache) == b.Field(OptionTag.AutoCache);
    assert a.Field(OptionTag.AddMountParam) == b.Field(OptionTag.AddMountParam);
  }

  /** A record is determined by its fields. */
  lemma SameOptions(a: Options, b: Options)
    requires forall t: OptionTag :: a.Field(t) == b.Field(t)
    ensures a == b
  {
    SameOptionsFields1(a, b);
    SameOptionsFields2(a, b);
    SameOptionsFields3(a, b);
    SameOptionsFields4(a, b);
  }

  /** Marshalling never fails, and unmarshalling gives the record back. */
  lemma OptionsRoundTrip(r: Options)
    ensures MarshalOptions(r).Some? && UnmarshalOptions(MarshalOptions(r).value) == Some(r)
  {
    OptionsIsTyped(r);
    RoundTrip(OPTIONS_SCHEMA, t => r.Field(t));
    forall t: OptionTag
      ensures UnmarshalOptions(MarshalOptions(r).value).value.Field(t) == r.Field(t)
    {
      OptionsOfAt(Unmarshalled(OPTIONS_SCHEMA, MarshalOptions(r).value), t);
    }
    SameOptions(UnmarshalOptions(MarshalOptions(r).value).value, r);
  }
}
