/** Which key of a string map each field is read from, and which keys are written: the JSON
    tags of the three structs, one by one. */
module RecordKeys {
  import opened Wrappers
  import opened Text
  import opened Codec
  import opened Records

  /** The text under a key, blank if it is missing. */
  function Said<T>(m: map<T, string>, t: T): string {
    if t in m then m[t] else ""
  }

  /** An int key that is missing or null leaves zero. */
  function NumberSaid<T>(m: map<T, string>, t: T): Int64 {
    if t in m && m[t] != "null" && Atoi(m[t]).Some? then Atoi(m[t]).value else 0
  }

  predicate ReadableNumber<T>(m: map<T, string>, t: T) {
    t in m ==> m[t] == "null" || (Atoi(m[t]).Some? && m[t][0] != '+')
  }

  predicate ReadableFlag<T>(m: map<T, string>, t: T) {
    t in m ==> m[t] in ["true", "false", "null"]
  }

  lemma FlagReads(text: string)
    ensures JsonBool(text).Some? <==> text in ["true", "false", "null"]
    ensures JsonBool(text).Some? ==> (JsonBool(text).value <==> text == "true")
    ensures "" != "true"
  {
    assert "true"[0] != "null"[0] && "true"[0] != "false"[0];
  }

  lemma NumberReads(text: string)
    ensures JsonInt(text).Some? <==> text == "null" || (Atoi(text).Some? && text[0] != '+')
    ensures JsonInt(text).Some? && text != "null" ==> JsonInt(text) == Atoi(text)
    ensures JsonInt("null") == Some(0)
  {
  }

  /** What one key contributes, by the kind of its field. */
  lemma KeyReads<T>(schema: Schema<T>, m: map<T, string>, t: T)
    requires schema.kind(t) != BareInt
    ensures FieldOf(schema, m, t).Some? <==>
              match schema.kind(t)
              case QuotedInt => ReadableNumber(m, t)
              case QuotedBool => ReadableFlag(m, t)
              case _ => true
    ensures FieldOf(schema, m, t).Some? ==>
              Unmarshalled(schema, m)(t) ==
              match schema.kind(t)
              case QuotedInt => Num(NumberSaid(m, t))
              case QuotedBool => Flag(Said(m, t) == "true")
              case _ => Str(Said(m, t))
  {
    FlagReads(Said(m, t));
    NumberReads(Said(m, t));
  }

  // ---------------------------------------------------------------- the annotation record

  predicate PvcFlag(t: PvcTag) {
    t in {PvcTag.UseXattr, PvcTag.CurlDebug, PvcTag.AutoCache}
  }

  lemma PvcKinds(t: PvcTag)
    ensures PVC_SCHEMA.kind(t) == if PvcFlag(t) then QuotedBool else Text
    ensures t in PVC_SCHEMA.tags
  {
  }

  /** It can be read iff its bool keys can. */
  lemma PvcReadableIff(m: map<PvcTag, string>)
    ensures UnmarshalPvc(m).Some? <==>
              && ReadableFlag(m, PvcTag.UseXattr)
              && ReadableFlag(m, PvcTag.CurlDebug)
              && ReadableFlag(m, PvcTag.AutoCache)
  {
    forall t: PvcTag
      ensures t in PVC_SCHEMA.tags
      ensures FieldOf(PVC_SCHEMA, m, t).Some? <==>
                (PvcFlag(t) ==> ReadableFlag(m, t))
    {
      PvcKinds(t);
      KeyReads(PVC_SCHEMA, m, t);
    }
  }

  predicate PvcValue(m: map<PvcTag, string>, v: PvcTag -> Value, t: PvcTag) {
    v(t) == if PvcFlag(t) then Flag(Said(m, t) == "true") else Str(Said(m, t))
  }

  lemma PvcRead(m: map<PvcTag, string>)
    requires UnmarshalPvc(m).Some?
    ensures forall t: PvcTag :: PvcValue(m, Unmarshalled(PVC_SCHEMA, m), t)
  {
    forall t: PvcTag
      ensures PvcValue(m, Unmarshalled(PVC_SCHEMA, m), t)
    {
      PvcKinds(t);
      KeyReads(PVC_SCHEMA, m, t);
      assert FieldOf(PVC_SCHEMA, m, t).Some?;
    }
  }

  predicate PvcFields1(m: map<PvcTag, string>, r: Pvc) {
    && r.autoCreateBucket == Said(m, PvcTag.AutoCreateBucket)
    && r.autoDeleteBucket == Said(m, PvcTag.AutoDeleteBucket)
    && r.bucket == Said(m, PvcTag.Bucket)
    && r.objectPath == Said(m, PvcTag.ObjectPath)
    && r.endpoint == Said(m, PvcTag.Endpoint)
  }

  lemma PvcOf1(m: map<PvcTag, string>, v: PvcTag -> Value)
    requires forall t: PvcTag :: PvcValue(m, v, t)
    ensures PvcFields1(m, Pvc.Of(v))
  {
    assert PvcValue(m, v, PvcTag.AutoCreateBucket);
    assert PvcValue(m, v, PvcTag.AutoDeleteBucket);
    assert PvcValue(m, v, PvcTag.Bucket);
    assert PvcValue(m, v, PvcTag.ObjectPath);
    assert PvcValue(m, v, PvcTag.Endpoint);
  }

  predicate PvcFields2(m: map<PvcTag, string>, r: Pvc) {
    && r.region == Said(m, PvcTag.Region)
    && r.secretName == Said(m, PvcTag.SecretName)
    && r.chunkSizeMb == Said(m, PvcTag.ChunkSizeMB)
    && r.parallelCount == Said(m, PvcTag.ParallelCount)
    && r.multiReqMax == Said(m, PvcTag.MultiReqMax)
  }

  lemma PvcOf2(m: map<PvcTag, string>, v: PvcTag -> Value)
    requires forall t: PvcTag :: PvcValue(m, v, t)
    ensures PvcFields2(m, Pvc.Of(v))
  {
    assert PvcValue(m, v, PvcTag.Region);
    assert PvcValue(m, v, PvcTag.SecretName);
    assert PvcValue(m, v, PvcTag.ChunkSizeMB);
    assert PvcValue(m, v, PvcTag.ParallelCount);
    assert PvcValue(m, v, PvcTag.MultiReqMax);
  }

  predicate PvcFields3(m: map<PvcTag, string>, r: Pvc) {
    && r.statCacheSize == Said(m, PvcTag.StatCacheSize)
    && r.retryCount == Said(m, PvcTag.S3FSFUSERetryCount)
    && r.statCacheExpire == Said(m, PvcTag.StatCacheExpireSeconds)
    && r.iamEndpoint == Said(m, PvcTag.IAMEndpoint)
    && r.validateBucket == Said(m, PvcTag.ValidateBucket)
  }

  lemma PvcOf3(m: map<PvcTag, string>, v: PvcTag -> Value)
    requires forall t: PvcTag :: PvcValue(m, v, t)
    ensures PvcFields3(m, Pvc.Of(v))
  {
    assert PvcValue(m, v, PvcTag.StatCacheSize);
    assert PvcValue(m, v, PvcTag.S3FSFUSERetryCount);
    assert PvcValue(m, v, PvcTag.StatCacheExpireSeconds);
    assert PvcValue(m, v, PvcTag.IAMEndpoint);
    assert PvcValue(m, v, PvcTag.ValidateBucket);
  }

  predicate PvcFields4(m: map<PvcTag, string>, r: Pvc) {
    && r.secretNamespace == Said(m, PvcTag.SecretNamespace)
    && r.connectTimeout == Said(m, PvcTag.ConnectTimeoutSeconds)
    && r.readwriteTimeout == Said(m, PvcTag.ReadwriteTimeoutSeconds)
    && r.debugLevel == Said(m, PvcTag.DebugLevel)
    && r.tlsCipherSuite == Said(m, PvcTag.TLSCipherSuite)
  }

  lemma PvcOf4(m: map<PvcTag, string>, v: PvcTag -> Value)
    requires forall t: PvcTag :: PvcValue(m, v, t)
    ensures PvcFields4(m, Pvc.Of(v))
  {
    assert PvcValue(m, v, PvcTag.SecretNamespace);
    assert PvcValue(m, v, PvcTag.ConnectTimeoutSeconds);
    assert PvcValue(m, v, PvcTag.ReadwriteTimeoutSeconds);
    assert PvcValue(m, v, PvcTag.DebugLevel);
    assert PvcValue(m, v, PvcTag.TLSCipherSuite);
  }

  predicate PvcFields5(m: map<PvcTag, string>, r: Pvc) {
    && r.cosServiceName == Said(m, PvcTag.CosServiceName)
    && r.cosServiceNamespace == Said(m, PvcTag.CosServiceNamespace)
    && r.setAccessPolicy == Said(m, PvcTag.SetAccessPolicy)
    && r.accessPolicyAllowedIps == Said(m, PvcTag.AccessPolicyAllowedIps)
    && r.addMountParam == Said(m, PvcTag.AddMountParam)
  }

  lemma PvcOf5(m: map<PvcTag, string>, v: PvcTag -> Value)
    requires forall t: PvcTag :: PvcValue(m, v, t)
    ensures PvcFields5(m, Pvc.Of(v))
  {
    assert PvcValue(m, v, PvcTag.CosServiceName);
    assert PvcValue(m, v, PvcTag.CosServiceNamespace);
    assert PvcValue(m, v, PvcTag.SetAccessPolicy);
    assert PvcValue(m, v, PvcTag.AccessPolicyAllowedIps);
    assert PvcValue(m, v, PvcTag.AddMountParam);
  }

  predicate PvcFields6(m: map<PvcTag, string>, r: Pvc) {
    && r.quotaLimit == Said(m, PvcTag.QuotaLimit)
    && r.bucketVersioning == Said(m, PvcTag.BucketVersioning)
    && (r.useXattr <==> Said(m, PvcTag.UseXattr) == "true")
    && (r.curlDebug <==> Said(m, PvcTag.CurlDebug) == "true")
    && (r.autoCache <==> Said(m, PvcTag.AutoCache) == "true")
  }

  lemma PvcOf6(m: map<PvcTag, string>, v: PvcTag -> Value)
    requires forall t: PvcTag :: PvcValue(m, v, t)
    ensures PvcFields6(m, Pvc.Of(v))
  {
    assert PvcValue(m, v, PvcTag.QuotaLimit);
    assert PvcValue(m, v, PvcTag.BucketVersioning);
    assert PvcValue(m, v, PvcTag.UseXattr);
    assert PvcValue(m, v, PvcTag.CurlDebug);
    assert PvcValue(m, v, PvcTag.AutoCache);
  }

  /** Every field is read from its own key. */
  lemma PvcFromKeys(m: map<PvcTag, string>)
    requires UnmarshalPvc(m).Some?
    ensures var r := UnmarshalPvc(m).value;
            PvcFields1(m, r) && PvcFields2(m, r) && PvcFields3(m, r) && PvcFields4(m, r) && PvcFields5(m, r)
              && PvcFields6(m, r)
  {
    var v := Unmarshalled(PVC_SCHEMA, m);
    PvcRead(m);
    PvcOf1(m, v);
    PvcOf2(m, v);
    PvcOf3(m, v);
    PvcOf4(m, v);
    PvcOf5(m, v);
    PvcOf6(m, v);
  }

  /** Some keys are always written, the others exactly when their field is not zero. */
  lemma PvcKeys(r: Pvc, t: PvcTag)
    requires MarshalPvc(r).Some?
    ensures t in MarshalPvc(r).value <==>
              t in {PvcTag.AutoCreateBucket, PvcTag.AutoDeleteBucket, PvcTag.Bucket, PvcTag.SecretName,
                    PvcTag.CosServiceName} || r.Field(t) !in {Str(""), Num(0), Flag(false)}
  {
    PvcIsTyped(r);
    EmittedIff(PVC_SCHEMA, tag => r.Field(tag), t);
  }

  // ---------------------------------------------------------------- the storage class record

  predicate ScFlag(t: ScTag) {
    t in {ScTag.CurlDebug, ScTag.KernelCache, ScTag.UseXattr}
  }

  predicate ScNumber(t: ScTag) {
    t in {ScTag.ChunkSizeMB, ScTag.ParallelCount, ScTag.MultiReqMax, ScTag.StatCacheSize}
  }

  lemma ScKinds(t: ScTag)
    ensures SC_SCHEMA.kind(t) == if ScFlag(t) then QuotedBool else if ScNumber(t) then QuotedInt else Text
    ensures t in SC_SCHEMA.tags
  {
  }

  /** It can be read iff its int and bool keys can. */
  lemma ScReadableIff(m: map<ScTag, string>)
    ensures UnmarshalSc(m).Some? <==>
              && ReadableFlag(m, ScTag.CurlDebug)
              && ReadableFlag(m, ScTag.KernelCache)
              && ReadableFlag(m, ScTag.UseXattr)
              && ReadableNumber(m, ScTag.ChunkSizeMB)
              && ReadableNumber(m, ScTag.ParallelCount)
              && ReadableNumber(m, ScTag.MultiReqMax)
              && ReadableNumber(m, ScTag.StatCacheSize)
  {
    forall t: ScTag
      ensures t in SC_SCHEMA.tags
      ensures FieldOf(SC_SCHEMA, m, t).Some? <==>
                (ScFlag(t) ==> ReadableFlag(m, t)) && (ScNumber(t) ==> ReadableNumber(m, t))
    {
      ScKinds(t);
      KeyReads(SC_SCHEMA, m, t);
    }
  }

  predicate ScValue(m: map<ScTag, string>, v: ScTag -> Value, t: ScTag) {
    v(t) == if ScFlag(t) then Flag(Said(m, t) == "true") else if ScNumber(t) then Num(NumberSaid(m, t))
      else Str(Said(m, t))
  }

  lemma ScRead(m: map<ScTag, string>)
    requires UnmarshalSc(m).Some?
    ensures forall t: ScTag :: ScValue(m, Unmarshalled(SC_SCHEMA, m), t)
  {
    forall t: ScTag
      ensures ScValue(m, Unmarshalled(SC_SCHEMA, m), t)
    {
      ScKinds(t);
      KeyReads(SC_SCHEMA, m, t);
      assert FieldOf(SC_SCHEMA, m, t).Some?;
    }
  }

  predicate ScFields1(m: map<ScTag, string>, r: Sc) {
    && r.autoCreateBucket == Said(m, ScTag.AutoCreateBucket)
    && r.autoDeleteBucket == Said(m, ScTag.AutoDeleteBucket)
    && r.bucket == Said(m, ScTag.Bucket)
    && r.objectPath == Said(m, ScTag.ObjectPath)
    && r.secretName == Said(m, ScTag.SecretName)
  }

  lemma ScOf1(m: map<ScTag, string>, v: ScTag -> Value)
    requires forall t: ScTag :: ScValue(m, v, t)
    ensures ScFields1(m, Sc.Of(v))
  {
    assert ScValue(m, v, ScTag.AutoCreateBucket);
    assert ScValue(m, v, ScTag.AutoDeleteBucket);
    assert ScValue(m, v, ScTag.Bucket);
    assert ScValue(m, v, ScTag.ObjectPath);
    assert ScValue(m, v, ScTag.SecretName);
  }

  predicate ScFields2(m: map<ScTag, string>, r: Sc) {
    && r.secretNamespace == Said(m, ScTag.SecretNamespace)
    && r.tlsCipherSuite == Said(m, ScTag.TLSCipherSuite)
    && r.debugLevel == Said(m, ScTag.DebugLevel)
    && r.retryCount == Said(m, ScTag.S3FSFUSERetryCount)
    && r.statCacheExpire == Said(m, ScTag.StatCacheExpireSeconds)
  }

  lemma ScOf2(m: map<ScTag, string>, v: ScTag -> Value)
    requires forall t: ScTag :: ScValue(m, v, t)
    ensures ScFields2(m, Sc.Of(v))
  {
    assert ScValue(m, v, ScTag.SecretNamespace);
    assert ScValue(m, v, ScTag.TLSCipherSuite);
    assert ScValue(m, v, ScTag.DebugLevel);
    assert ScValue(m, v, ScTag.S3FSFUSERetryCount);
    assert ScValue(m, v, ScTag.StatCacheExpireSeconds);
  }

  predicate ScFields3(m: map<ScTag, string>, r: Sc) {
    && r.iamEndpoint == Said(m, ScTag.IAMEndpoint)
    && r.osEndpoint == Said(m, ScTag.OSEndpoint)
    && r.osStorageClass == Said(m, ScTag.OSStorageClass)
    && r.connectTimeout == Said(m, ScTag.ConnectTimeoutSeconds)
    && r.readwriteTimeout == Said(m, ScTag.ReadwriteTimeoutSeconds)
  }

  lemma ScOf3(m: map<ScTag, string>, v: ScTag -> Value)
    requires forall t: ScTag :: ScValue(m, v, t)
    ensures ScFields3(m, Sc.Of(v))
  {
    assert ScValue(m, v, ScTag.IAMEndpoint);
    assert ScValue(m, v, ScTag.OSEndpoint);
    assert ScValue(m, v, ScTag.OSStorageClass);
    assert ScValue(m, v, ScTag.ConnectTimeoutSeconds);
    assert ScValue(m, v, ScTag.ReadwriteTimeoutSeconds);
  }

  predicate ScFields4(m: map<ScTag, string>, r: Sc) {
    && r.addMountParam == Said(m, ScTag.AddMountParam)
    && r.bucketVersioning == Said(m, ScTag.BucketVersioning)
    && r.chunkSizeMb == NumberSaid(m, ScTag.ChunkSizeMB)
    && r.parallelCount == NumberSaid(m, ScTag.ParallelCount)
    && r.multiReqMax == NumberSaid(m, ScTag.MultiReqMax)
  }

  lemma ScOf4(m: map<ScTag, string>, v: ScTag -> Value)
    requires forall t: ScTag :: ScValue(m, v, t)
    ensures ScFields4(m, Sc.Of(v))
  {
    assert ScValue(m, v, ScTag.AddMountParam);
    assert ScValue(m, v, ScTag.BucketVersioning);
    assert ScValue(m, v, ScTag.ChunkSizeMB);
    assert ScValue(m, v, ScTag.ParallelCount);
    assert ScValue(m, v, ScTag.MultiReqMax);
  }

  predicate ScFields5(m: map<ScTag, string>, r: Sc) {
    && r.statCacheSize == NumberSaid(m, ScTag.StatCacheSize)
    && (r.curlDebug <==> Said(m, ScTag.CurlDebug) == "true")
    && (r.kernelCache <==> Said(m, ScTag.KernelCache) == "true")
    && (r.useXattr <==> Said(m, ScTag.UseXattr) == "true")
  }

  lemma ScOf5(m: map<ScTag, string>, v: ScTag -> Value)
    requires forall t: ScTag :: ScValue(m, v, t)
    ensures ScFields5(m, Sc.Of(v))
  {
    assert ScValue(m, v, ScTag.StatCacheSize);
    assert ScValue(m, v, ScTag.CurlDebug);
    assert ScValue(m, v, ScTag.KernelCache);
    assert ScValue(m, v, ScTag.UseXattr);
  }

  /** Every field is read from its own key. */
  lemma ScFromKeys(m: map<ScTag, string>)
    requires UnmarshalSc(m).Some?
    ensures var r := UnmarshalSc(m).value;
            ScFields1(m, r) && ScFields2(m, r) && ScFields3(m, r) && ScFields4(m, r) && ScFields5(m, r)
  {
    var v := Unmarshalled(SC_SCHEMA, m);
    ScRead(m);
    ScOf1(m, v);
    ScOf2(m, v);
    ScOf3(m, v);
    ScOf4(m, v);
    ScOf5(m, v);
  }

  // ---------------------------------------------------------------- the options record

  predicate OptionsFlag(t: OptionTag) {
    t in {OptionTag.CurlDebug, OptionTag.KernelCache, OptionTag.UseXattr, OptionTag.AutoCache}
  }

  predicate OptionsNumber(t: OptionTag) {
    t in {OptionTag.ChunkSizeMB, OptionTag.ParallelCount, OptionTag.MultiReqMax, OptionTag.StatCacheSize}
  }

  lemma OptionsKinds(t: OptionTag)
    ensures OPTIONS_SCHEMA.kind(t) == if OptionsFlag(t) then QuotedBool else if OptionsNumber(t) then QuotedInt
            else Text
    ensures t in OPTIONS_SCHEMA.tags
  {
  }

  /** It can be read iff its int and bool keys can. */
  lemma OptionsReadableIff(m: map<OptionTag, string>)
    ensures UnmarshalOptions(m).Some? <==>
              && ReadableFlag(m, OptionTag.CurlDebug)
              && ReadableFlag(m, OptionTag.KernelCache)
              && ReadableFlag(m, OptionTag.UseXattr)
              && ReadableFlag(m, OptionTag.AutoCache)
              && ReadableNumber(m, OptionTag.ChunkSizeMB)
              && ReadableNumber(m, OptionTag.ParallelCount)
              && ReadableNumber(m, OptionTag.MultiReqMax)
              && ReadableNumber(m, OptionTag.StatCacheSize)
  {
    forall t: OptionTag
      ensures t in OPTIONS_SCHEMA.tags
      ensures FieldOf(OPTIONS_SCHEMA, m, t).Some? <==>
                (OptionsFlag(t) ==> ReadableFlag(m, t)) && (OptionsNumber(t) ==> ReadableNumber(m, t))
    {
      OptionsKinds(t);
      KeyReads(OPTIONS_SCHEMA, m, t);
    }
  }

  predicate OptionsValue(m: map<OptionTag, string>, v: OptionTag -> Value, t: OptionTag) {
    v(t) == if OptionsFlag(t) then Flag(Said(m, t) == "true") else if OptionsNumber(t) then Num(NumberSaid(m, t))
      else Str(Said(m, t))
  }

  lemma OptionsRead(m: map<OptionTag, string>)
    requires UnmarshalOptions(m).Some?
    ensures forall t: OptionTag :: OptionsValue(m, Unmarshalled(OPTIONS_SCHEMA, m), t)
  {
    forall t: OptionTag
      ensures OptionsValue(m, Unmarshalled(OPTIONS_SCHEMA, m), t)
    {
      OptionsKinds(t);
      KeyReads(OPTIONS_SCHEMA, m, t);
      assert FieldOf(OPTIONS_SCHEMA, m, t).Some?;
    }
  }

  predicate OptionsFields1(m: map<OptionTag, string>, r: Options) {
    && r.fsGroup == Said(m, OptionTag.FSGroup)
    && r.fsGroupNew == Said(m, OptionTag.FSGroupNew)
    && r.endpoint == Said(m, OptionTag.Endpoint)
    && r.region == Said(m, OptionTag.Region)
    && r.bucket == Said(m, OptionTag.Bucket)
  }

  lemma OptionsOf1(m: map<OptionTag, string>, v: OptionTag -> Value)
    requires forall t: OptionTag :: OptionsValue(m, v, t)
    ensures OptionsFields1(m, Options.Of(v))
  {
    assert OptionsValue(m, v, OptionTag.FSGroup);
    assert OptionsValue(m, v, OptionTag.FSGroupNew);
    assert OptionsValue(m, v, OptionTag.Endpoint);
    assert OptionsValue(m, v, OptionTag.Region);
    assert OptionsValue(m, v, OptionTag.Bucket);
  }

  predicate OptionsFields2(m: map<OptionTag, string>, r: Options) {
    && r.objectPath == Said(m, OptionTag.ObjectPath)
    && r.debugLevel == Said(m, OptionTag.DebugLevel)
    && r.tlsCipherSuite == Said(m, OptionTag.TLSCipherSuite)
    && r.retryCount == Said(m, OptionTag.S3FSFUSERetryCount)
    && r.statCacheExpire == Said(m, OptionTag.StatCacheExpireSeconds)
  }

  lemma OptionsOf2(m: map<OptionTag, string>, v: OptionTag -> Value)
    requires forall t: OptionTag :: OptionsValue(m, v, t)
    ensures OptionsFields2(m, Options.Of(v))
  {
    assert OptionsValue(m, v, OptionTag.ObjectPath);
    assert OptionsValue(m, v, OptionTag.DebugLevel);
    assert OptionsValue(m, v, OptionTag.TLSCipherSuite);
    assert OptionsValue(m, v, OptionTag.S3FSFUSERetryCount);
    assert OptionsValue(m, v, OptionTag.StatCacheExpireSeconds);
  }

  predicate OptionsFields3(m: map<OptionTag, string>, r: Options) {
    && r.accessKeyB64 == Said(m, OptionTag.AccessKeyB64)
    && r.secretKeyB64 == Said(m, OptionTag.SecretKeyB64)
    && r.apiKeyB64 == Said(m, OptionTag.APIKeyB64)
    && r.osEndpoint == Said(m, OptionTag.OSEndpoint)
    && r.osStorageClass == Said(m, OptionTag.OSStorageClass)
  }

  lemma OptionsOf3(m: map<OptionTag, string>, v: OptionTag -> Value)
    requires forall t: OptionTag :: OptionsValue(m, v, t)
    ensures OptionsFields3(m, Options.Of(v))
  {
    assert OptionsValue(m, v, OptionTag.AccessKeyB64);
    assert OptionsValue(m, v, OptionTag.SecretKeyB64);
    assert OptionsValue(m, v, OptionTag.APIKeyB64);
    assert OptionsValue(m, v, OptionTag.OSEndpoint);
    assert OptionsValue(m, v, OptionTag.OSStorageClass);
  }

  predicate OptionsFields4(m: map<OptionTag, string>, r: Options) {
    && r.iamEndpoint == Said(m, OptionTag.IAMEndpoint)
    && r.connectTimeout == Said(m, OptionTag.ConnectTimeoutSeconds)
    && r.readwriteTimeout == Said(m, OptionTag.ReadwriteTimeoutSeconds)
    && r.accessMode == Said(m, OptionTag.AccessMode)
    && r.serviceInstanceIdB64 == Said(m, OptionTag.ServiceInstanceIDB64)
  }

  lemma OptionsOf4(m: map<OptionTag, string>, v: OptionTag -> Value)
    requires forall t: OptionTag :: OptionsValue(m, v, t)
    ensures OptionsFields4(m, Options.Of(v))
  {
    assert OptionsValue(m, v, OptionTag.IAMEndpoint);
    assert OptionsValue(m, v, OptionTag.ConnectTimeoutSeconds);
    assert OptionsValue(m, v, OptionTag.ReadwriteTimeoutSeconds);
    assert OptionsValue(m, v, OptionTag.AccessMode);
    assert OptionsValue(m, v, OptionTag.ServiceInstanceIDB64);
  }

  predicate OptionsFields5(m: map<OptionTag, string>, r: Options) {
    && r.caBundleB64 == Said(m, OptionTag.CAbundleB64)
    && r.cosServiceIp == Said(m, OptionTag.CosServiceIP)
    && r.addMountParam == Said(m, OptionTag.AddMountParam)
    && r.chunkSizeMb == NumberSaid(m, OptionTag.ChunkSizeMB)
    && r.parallelCount == NumberSaid(m, OptionTag.ParallelCount)
  }

  lemma OptionsOf5(m: map<OptionTag, string>, v: OptionTag -> Value)
    requires forall t: OptionTag :: OptionsValue(m, v, t)
    ensures OptionsFields5(m, Options.Of(v))
  {
    assert OptionsValue(m, v, OptionTag.CAbundleB64);
    assert OptionsValue(m, v, OptionTag.CosServiceIP);
    assert OptionsValue(m, v, OptionTag.AddMountParam);
    assert OptionsValue(m, v, OptionTag.ChunkSizeMB);
    assert OptionsValue(m, v, OptionTag.ParallelCount);
  }

  predicate OptionsFields6(m: map<OptionTag, string>, r: Options) {
    && r.multiReqMax == NumberSaid(m, OptionTag.MultiReqMax)
    && r.statCacheSize == NumberSaid(m, OptionTag.StatCacheSize)
    && (r.curlDebug <==> Said(m, OptionTag.CurlDebug) == "true")
    && (r.kernelCache <==> Said(m, OptionTag.KernelCache) == "true")
    && (r.useXattr <==> Said(m, OptionTag.UseXattr) == "true")
  }

  lemma OptionsOf6(m: map<OptionTag, string>, v: OptionTag -> Value)
    requires forall t: OptionTag :: OptionsValue(m, v, t)
    ensures OptionsFields6(m, Options.Of(v))
  {
    assert OptionsValue(m, v, OptionTag.MultiReqMax);
    assert OptionsValue(m, v, OptionTag.StatCacheSize);
    assert OptionsValue(m, v, OptionTag.CurlDebug);
    assert OptionsValue(m, v, OptionTag.KernelCache);
    assert OptionsValue(m, v, OptionTag.UseXattr);
  }

  predicate OptionsFields7(m: map<OptionTag, string>, r: Options) {
    && (r.autoCache <==> Said(m, OptionTag.AutoCache) == "true")
  }

  lemma OptionsOf7(m: map<OptionTag, string>, v: OptionTag -> Value)
    requires forall t: OptionTag :: OptionsValue(m, v, t)
    ensures OptionsFields7(m, Options.Of(v))
  {
    assert OptionsValue(m, v, OptionTag.AutoCache);
  }

  /** Every field is read from its own key. */
  lemma OptionsFromKeys(m: map<OptionTag, string>)
    requires UnmarshalOptions(m).Some?
    ensures var r := UnmarshalOptions(m).value;
            OptionsFields1(m, r) && OptionsFields2(m, r) && OptionsFields3(m, r) && OptionsFields4(m, r)
              && OptionsFields5(m, r) && OptionsFields6(m, r) && OptionsFields7(m, r)
  {
    var v := Unmarshalled(OPTIONS_SCHEMA, m);
    OptionsRead(m);
    OptionsOf1(m, v);
    OptionsOf2(m, v);
    OptionsOf3(m, v);
    OptionsOf4(m, v);
    OptionsOf5(m, v);
    OptionsOf6(m, v);
    OptionsOf7(m, v);
  }

  /** Some keys are always written, the others exactly when their field is not zero. */
  lemma OptionsKeys(r: Options, t: OptionTag)
    requires MarshalOptions(r).Some?
    ensures t in MarshalOptions(r).value <==>
              t in {OptionTag.ChunkSizeMB, OptionTag.ParallelCount, OptionTag.MultiReqMax, OptionTag.StatCacheSize,
                    OptionTag.Bucket, OptionTag.DebugLevel, OptionTag.CurlDebug}
                      || r.Field(t) !in {Str(""), Num(0), Flag(false)}
  {
    OptionsIsTyped(r);
    EmittedIff(OPTIONS_SCHEMA, tag => r.Field(tag), t);
  }
}
