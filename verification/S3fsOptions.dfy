/** The driver's reading of a volume's options: which it accepts, and the s3fs command line
    it builds from them. */
module S3fsOptions {
  import opened Wrappers
  import opened Text
  import opened Store
  import opened Backend
  import opened Records

  const DEFAULT_IAM_ENDPOINT := "https://iam.cloud.ibm.com"

  /** `decode` stands for base64 decoding. */
  type Decoder = string -> Option<string>

  datatype MountPlan = MountPlan(options: Options, endpoint: string, region: string, creds: Credentials)

  function Endpoint(o: Options): string {
    FirstOf(o.osEndpoint, o.endpoint)
  }

  function Region(o: Options): string {
    FirstOf(o.osStorageClass, FirstOf(o.region, "dummy-object-store-storageclass"))
  }

  predicate OptionChecks(o: Options) {
    && HasScheme(Endpoint(o))
    && BlankOrAtLeast(o.retryCount, 1)
    && BlankOrAtLeast(o.statCacheExpire, 0)
    && BlankOrInt(o.connectTimeout)
    && BlankOrInt(o.readwriteTimeout)
  }

  function Keys(decode: Decoder, o: Options): Option<Credentials> {
    if o.apiKeyB64 != "" then
      match (decode(o.apiKeyB64), decode(o.serviceInstanceIdB64))
      case (Some(key), Some(id)) => Some(Credentials("", "", key, id, ""))
      case _ => None
    else
      match (decode(o.accessKeyB64), decode(o.secretKeyB64))
      case (Some(access), Some(secret)) => Some(Credentials(access, secret, "", "", ""))
      case _ => None
  }

  /** The IAM endpoint matters, and is checked, only with an API key. */
  function IamEndpoint(apiKey: string, o: Options): Option<string> {
    if apiKey == "" then Some("")
    else if o.iamEndpoint == "" then Some(DEFAULT_IAM_ENDPOINT)
    else if HasScheme(o.iamEndpoint) then Some(o.iamEndpoint)
    else None
  }

  predicate CaReadable(decode: Decoder, o: Options) {
    o.caBundleB64 == "" || decode(o.caBundleB64).Some?
  }

  function Accept(decode: Decoder, opts: map<OptionTag, string>): Option<MountPlan> {
    var o := UnmarshalOptions(opts);
    if o.None? || !OptionChecks(o.value) then None
    else
      var keys := Keys(decode, o.value);
      if keys.None? then None
      else
        var iam := IamEndpoint(keys.value.apiKey, o.value);
        if iam.None? || !CaReadable(decode, o.value) then None
        else Some(MountPlan(o.value, Endpoint(o.value), Region(o.value), keys.value.(iamEndpoint := iam.value)))
  }

  // ---------------------------------------------------------------- the command line

  function BucketSpec(bucket: string, objectPath: string): string {
    if objectPath == "" then bucket
    else if HasPrefix(objectPath, "/") then bucket + ":" + objectPath
    else bucket + ":/" + objectPath
  }

  function Opt(present: bool, value: string): seq<string> {
    if present then [value] else []
  }

  /** Owner flags come from the first group option present, even if its text is empty. */
  function OwnerFlags(opts: map<OptionTag, string>, o: Options): seq<string> {
    if FSGroup in opts then ["gid=" + o.fsGroup, "uid=" + o.fsGroup]
    else if FSGroupNew in opts then ["gid=" + o.fsGroupNew, "uid=" + o.fsGroupNew]
    else []
  }

  function FixedFlags(plan: MountPlan, dir: string, passwordFile: string): seq<string> {
    var o := plan.options;
    ["multireq_max=" + Itoa(o.multiReqMax), "use_path_request_style", "passwd_file=" + passwordFile,
     "url=" + plan.endpoint,
     "endpoint=" + plan.region, "parallel_count=" + Itoa(o.parallelCount), "multipart_size=" + Itoa(o.chunkSizeMb),
     "dbglevel=" + o.debugLevel, "max_stat_cache_size=" + Itoa(o.statCacheSize), "allow_other", "max_background=1000",
     "mp_umask=002", "instance_name=" + dir]
  }

  function TuningFlags(o: Options): seq<string> {
    Opt(o.accessMode == "ReadOnlyMany", "ro")
    + Opt(TrimSpace(o.tlsCipherSuite) != "" && o.tlsCipherSuite != "default", "cipher_suites=" + o.tlsCipherSuite)
    + Opt(o.retryCount != "", "retries=" + o.retryCount)
    + Opt(o.statCacheExpire != "", "stat_cache_expire=" + o.statCacheExpire)
    + Opt(o.curlDebug, "curldbg=body")
  }

  function CacheFlags(o: Options): seq<string> {
    Opt(o.autoCache, "auto_cache") + Opt(o.kernelCache, "kernel_cache")
  }

  function AccessFlags(plan: MountPlan): seq<string> {
    var o := plan.options;
    (if plan.creds.apiKey != "" then ["ibm_iam_auth", "ibm_iam_endpoint=" + plan.creds.iamEndpoint]
     else ["default_acl=private"])
    + Opt(o.connectTimeout != "", "connect_timeout=" + o.connectTimeout)
    + Opt(o.readwriteTimeout != "", "readwrite_timeout=" + o.readwriteTimeout)
    + Opt(o.useXattr, "use_xattr")
  }

  /** The values the driver chooses itself, in order. */
  function Flags(opts: map<OptionTag, string>, plan: MountPlan, dir: string, passwordFile: string): seq<string> {
    FixedFlags(plan, dir, passwordFile) + OwnerFlags(opts, plan.options) + TuningFlags(plan.options)
    + CacheFlags(plan.options) + AccessFlags(plan)
  }

  function Extras(o: Options): seq<string> {
    if o.addMountParam == "" then [] else Split(o.addMountParam, ',')
  }

  function DashO(values: seq<string>): seq<string> {
    if values == [] then [] else ["-o", values[0]] + DashO(values[1..])
  }

  function CommandLine(opts: map<OptionTag, string>, plan: MountPlan, dir: string, passwordFile: string): seq<string> {
    [BucketSpec(plan.options.bucket, plan.options.objectPath), dir]
    + DashO(Flags(opts, plan, dir, passwordFile) + Extras(plan.options))
  }

  lemma {:induction false} DashOAppend(a: seq<string>, b: seq<string>)
    ensures DashO(a + b) == DashO(a) + DashO(b)
  {
    if a == [] {
      assert a + b == b;
    } else {
      DashOAppend(a[1..], b);
      assert (a + b)[1..] == a[1..] + b;
    }
  }

  lemma DashONext(values: seq<string>, i: nat)
    requires i < |values|
    ensures DashO(values[..i + 1]) == DashO(values[..i]) + ["-o", values[i]]
  {
    assert values[..i + 1] == values[..i] + [values[i]];
    DashOAppend(values[..i], [values[i]]);
    assert DashO([values[i]]) == ["-o", values[i]];
  }

  lemma {:induction false} DashOShape(values: seq<string>)
    ensures |DashO(values)| == 2 * |values|
    ensures forall i :: 0 <= i < |values| ==> DashO(values)[2 * i] == "-o" && DashO(values)[2 * i + 1] == values[i]
  {
    if values != [] {
      DashOShape(values[1..]);
      forall i | 0 <= i < |values|
        ensures DashO(values)[2 * i] == "-o" && DashO(values)[2 * i + 1] == values[i]
      {
        if i > 0 {
          assert DashO(values)[2 * i] == DashO(values[1..])[2 * (i - 1)];
          assert DashO(values)[2 * i + 1] == DashO(values[1..])[2 * (i - 1) + 1];
        }
      }
    }
  }

  /** The command line is the bucket spec, the directory, and then only ("-o", value) pairs:
      first the driver's own values, then those of the extra parameter, which rejoin with
      commas to the original text. */
  lemma CommandLineShape(opts: map<OptionTag, string>, plan: MountPlan, dir: string, passwordFile: string)
    ensures var args := CommandLine(opts, plan, dir, passwordFile);
            var own := Flags(opts, plan, dir, passwordFile);
            && IsPairs(args[2..], own + Extras(plan.options))
            && args[..2] == [BucketSpec(plan.options.bucket, plan.options.objectPath), dir]
            && (plan.options.addMountParam != "" ==> Join(Extras(plan.options), ',') == plan.options.addMountParam)
  {
    DashOShape(Flags(opts, plan, dir, passwordFile) + Extras(plan.options));
    SplitJoin(plan.options.addMountParam, ',');
  }

  ghost predicate IsPairs(args: seq<string>, values: seq<string>) {
    && |args| == 2 * |values|
    && forall i :: 0 <= i < |values| ==> args[2 * i] == "-o" && args[2 * i + 1] == values[i]
  }

  /** Only one list spells out these values as pairs. */
  lemma PairsAreDashO(args: seq<string>, values: seq<string>)
    requires IsPairs(args, values)
    ensures args == DashO(values)
  {
    DashOShape(values);
    forall j | 0 <= j < |args|
      ensures args[j] == DashO(values)[j]
    {
      var i := j / 2;
      assert args[2 * i] == DashO(values)[2 * i] && args[2 * i + 1] == DashO(values)[2 * i + 1];
    }
  }

  lemma SixPairs(a: string, b: string, c: string, d: string, e: string, f: string)
    ensures DashO([a, b, c, d, e, f]) == ["-o", a, "-o", b, "-o", c, "-o", d, "-o", e, "-o", f]
  {
    PairsAreDashO(["-o", a, "-o", b, "-o", c, "-o", d, "-o", e, "-o", f], [a, b, c, d, e, f]);
  }

  /** A literal of thirteen pairs behind the two positional arguments. */
  lemma LiteralPairs(bucket: string, dir: string, a: string, b: string, c: string, d: string, e: string, f: string,
                     g: string, h: string, i: string, j: string, k: string, l: string, m: string)
    ensures [bucket, dir, "-o", a, "-o", b, "-o", c, "-o", d, "-o", e, "-o", f, "-o", g, "-o", h, "-o", i, "-o", j,
             "-o", k, "-o", l, "-o", m] == [bucket, dir] + DashO([a, b, c, d, e, f, g, h, i, j, k, l, m])
  {
    SixPairs(a, b, c, d, e, f);
    SixPairs(g, h, i, j, k, l);
    DashOAppend([a, b, c, d, e, f], [g, h, i, j, k, l]);
    DashOAppend([a, b, c, d, e, f] + [g, h, i, j, k, l], [m]);
    assert [a, b, c, d, e, f, g, h, i, j, k, l, m] == [a, b, c, d, e, f] + [g, h, i, j, k, l] + [m];
    assert DashO([m]) == ["-o", m];
  }

  // ---------------------------------------------------------------- building it

  /** One conditional append; `values` keeps the account of what `args` spells out. */
  method AppendIf(present: bool, value: string, args: seq<string>, ghost values: seq<string>)
    returns (r: seq<string>, ghost all: seq<string>)
    requires args == DashO(values)
    ensures r == (if present then args + ["-o", value] else args)
    ensures all == values + Opt(present, value) && r == DashO(all)
  {
    r := args;
    if present {
      r := r + ["-o", value];
    }
    all := values + Opt(present, value);
    DashOAppend(values, Opt(present, value));
    assert Opt(present, value) == [value] || Opt(present, value) == [];
  }

  /** The argument builder: one group of appends after another, in command line order. */
  method BuildArgs(opts: map<OptionTag, string>, plan: MountPlan, dir: string, passwordFile: string)
    returns (args: seq<string>)
    ensures args == CommandLine(opts, plan, dir, passwordFile)
  {
    var o := plan.options;
    var fullBucketPath := o.bucket;
    if o.objectPath != "" {
      if HasPrefix(o.objectPath, "/") {
        fullBucketPath := o.bucket + ":" + o.objectPath;
      } else {
        fullBucketPath := o.bucket + ":/" + o.objectPath;
      }
    }
    args := FixedArgs(fullBucketPath, plan, dir, passwordFile);
    ghost var head := [fullBucketPath, dir];
    ghost var values := FixedFlags(plan, dir, passwordFile);
    var more := OwnerArgs(opts, o);
    args, values := Extend(head, values, args, more, OwnerFlags(opts, o));
    more := TuningArgs(o);
    args, values := Extend(head, values, args, more, TuningFlags(o));
    more := CacheArgs(o);
    args, values := Extend(head, values, args, more, CacheFlags(o));
    more := AccessArgs(plan);
    args, values := Extend(head, values, args, more, AccessFlags(plan));
    assert values == Flags(opts, plan, dir, passwordFile);
    more := ExtraArgs(o);
    args, values := Extend(head, values, args, more, Extras(o));
  }

  /** One more group of appends. */
  method Extend(ghost head: seq<string>, ghost values: seq<string>, args: seq<string>, more: seq<string>,
                ghost added: seq<string>)
    returns (r: seq<string>, ghost all: seq<string>)
    requires args == head + DashO(values) && more == DashO(added)
    ensures r == args + more && all == values + added && r == head + DashO(all)
  {
    r := args + more;
    all := values + added;
    DashOAppend(values, added);
  }

  /** The literal the list starts as. */
  method FixedArgs(fullBucketPath: string, plan: MountPlan, dir: string, passwordFile: string)
    returns (args: seq<string>)
    ensures args == [fullBucketPath, dir] + DashO(FixedFlags(plan, dir, passwordFile))
  {
    var o := plan.options;
    args := [fullBucketPath, dir,
      "-o", "multireq_max=" + Itoa(o.multiReqMax),
      "-o", "use_path_request_style",
      "-o", "passwd_file=" + passwordFile,
      "-o", "url=" + plan.endpoint,
      "-o", "endpoint=" + plan.region,
      "-o", "parallel_count=" + Itoa(o.parallelCount),
      "-o", "multipart_size=" + Itoa(o.chunkSizeMb),
      "-o", "dbglevel=" + o.debugLevel,
      "-o", "max_stat_cache_size=" + Itoa(o.statCacheSize),
      "-o", "allow_other",
      "-o", "max_background=1000",
      "-o", "mp_umask=002",
      "-o", "instance_name=" + dir];
    LiteralPairs(fullBucketPath, dir, "multireq_max=" + Itoa(o.multiReqMax), "use_path_request_style",
                 "passwd_file=" + passwordFile, "url=" + plan.endpoint, "endpoint=" + plan.region,
                 "parallel_count=" + Itoa(o.parallelCount), "multipart_size=" + Itoa(o.chunkSizeMb),
                 "dbglevel=" + o.debugLevel,
                 "max_stat_cache_size=" + Itoa(o.statCacheSize), "allow_other", "max_background=1000", "mp_umask=002",
                 "instance_name=" + dir);
  }

  method OwnerArgs(opts: map<OptionTag, string>, o: Options) returns (args: seq<string>)
    ensures args == DashO(OwnerFlags(opts, o))
  {
    ghost var values: seq<string> := [];
    args := [];
    if FSGroup in opts {
      args, values := AppendIf(true, "gid=" + o.fsGroup, args, values);
      args, values := AppendIf(true, "uid=" + o.fsGroup, args, values);
    } else if FSGroupNew in opts {
      args, values := AppendIf(true, "gid=" + o.fsGroupNew, args, values);
      args, values := AppendIf(true, "uid=" + o.fsGroupNew, args, values);
    }
    assert values == OwnerFlags(opts, o);
  }

  method TuningArgs(o: Options) returns (args: seq<string>)
    ensures args == DashO(TuningFlags(o))
  {
    ghost var values: seq<string> := [];
    args, values := AppendIf(o.accessMode == "ReadOnlyMany", "ro", [], []);
    assert values == Opt(o.accessMode == "ReadOnlyMany", "ro");
    args, values := AppendIf(TrimSpace(o.tlsCipherSuite) != "" && o.tlsCipherSuite != "default",
                             "cipher_suites=" + o.tlsCipherSuite,
                             args, values);
    args, values := AppendIf(o.retryCount != "", "retries=" + o.retryCount, args, values);
    args, values := AppendIf(o.statCacheExpire != "", "stat_cache_expire=" + o.statCacheExpire, args, values);
    args, values := AppendIf(o.curlDebug, "curldbg=body", args, values);
  }

  method CacheArgs(o: Options) returns (args: seq<string>)
    ensures args == DashO(CacheFlags(o))
  {
    ghost var values: seq<string> := [];
    args, values := AppendIf(o.autoCache, "auto_cache", [], []);
    args, values := AppendIf(o.kernelCache, "kernel_cache", args, values);
    assert values == CacheFlags(o);
  }

  method AccessArgs(plan: MountPlan) returns (args: seq<string>)
    ensures args == DashO(AccessFlags(plan))
  {
    var o := plan.options;
    ghost var values: seq<string> := [];
    args := [];
    if plan.creds.apiKey != "" {
      args, values := AppendIf(true, "ibm_iam_auth", args, values);
      args, values := AppendIf(true, "ibm_iam_endpoint=" + plan.creds.iamEndpoint, args, values);
    } else {
      args, values := AppendIf(true, "default_acl=private", args, values);
    }
    args, values := AppendIf(o.connectTimeout != "", "connect_timeout=" + o.connectTimeout, args, values);
    args, values := AppendIf(o.readwriteTimeout != "", "readwrite_timeout=" + o.readwriteTimeout, args, values);
    args, values := AppendIf(o.useXattr, "use_xattr", args, values);
    assert values == AccessFlags(plan);
  }

  method ExtraArgs(o: Options) returns (args: seq<string>)
    ensures args == DashO(Extras(o))
  {
    args := [];
    if o.addMountParam != "" {
      var params := Split(o.addMountParam, ',');
      for i := 0 to |params|
        invariant args == DashO(params[..i])
      {
        DashONext(params, i);
        args := args + ["-o", params[i]];
      }
      assert params[..|params|] == params;
    }
  }

  // ---------------------------------------------------------------- the cache flags

  /** Neither cache flag: told apart by the first two characters. */
  predicate Plain(value: string) {
    |value| >= 2 && value[0] != 'k' && !(value[0] == 'a' && value[1] == 'u')
  }

  lemma PlainPrefix(head: string, rest: string)
    requires Plain(head)
    ensures Plain(head + rest)
  {
  }

  lemma FixedFlagsArePlain(plan: MountPlan, dir: string, passwordFile: string)
    ensures forall v :: v in FixedFlags(plan, dir, passwordFile) ==> Plain(v)
  {
    var o := plan.options;
    PlainPrefix("multireq_max=", Itoa(o.multiReqMax));
    PlainPrefix("passwd_file=", passwordFile);
    PlainPrefix("url=", plan.endpoint);
    PlainPrefix("endpoint=", plan.region);
    PlainPrefix("parallel_count=", Itoa(o.parallelCount));
    PlainPrefix("multipart_size=", Itoa(o.chunkSizeMb));
    PlainPrefix("dbglevel=", o.debugLevel);
    PlainPrefix("max_stat_cache_size=", Itoa(o.statCacheSize));
    PlainPrefix("instance_name=", dir);
    assert Plain("use_path_request_style") && Plain("allow_other") && Plain("max_background=1000")
           && Plain("mp_umask=002");
  }

  lemma OwnerFlagsArePlain(opts: map<OptionTag, string>, o: Options)
    ensures forall v :: v in OwnerFlags(opts, o) ==> Plain(v)
  {
  }

  lemma TuningFlagsArePlain(o: Options)
    ensures forall v :: v in TuningFlags(o) ==> Plain(v)
  {
    PlainPrefix("cipher_suites=", o.tlsCipherSuite);
    PlainPrefix("retries=", o.retryCount);
    PlainPrefix("stat_cache_expire=", o.statCacheExpire);
    assert Plain("ro") && Plain("curldbg=body");
  }

  lemma AccessFlagsArePlain(plan: MountPlan)
    ensures forall v :: v in AccessFlags(plan) ==> Plain(v)
  {
    PlainPrefix("ibm_iam_endpoint=", plan.creds.iamEndpoint);
    PlainPrefix("connect_timeout=", plan.options.connectTimeout);
    PlainPrefix("readwrite_timeout=", plan.options.readwriteTimeout);
    assert Plain("ibm_iam_auth") && Plain("default_acl=private") && Plain("use_xattr");
  }

  lemma CacheFlagsAlone(o: Options)
    ensures "kernel_cache" in CacheFlags(o) <==> o.kernelCache
    ensures "auto_cache" in CacheFlags(o) <==> o.autoCache
    ensures !Plain("kernel_cache") && !Plain("auto_cache")
  {
    assert "kernel_cache"[0] != "auto_cache"[0];
  }

  lemma OtherFlagsArePlain(opts: map<OptionTag, string>, plan: MountPlan, dir: string, passwordFile: string,
                           value: string)
    requires !Plain(value)
    ensures value in Flags(opts, plan, dir, passwordFile) <==> value in CacheFlags(plan.options)
  {
    FixedFlagsArePlain(plan, dir, passwordFile);
    OwnerFlagsArePlain(opts, plan.options);
    TuningFlagsArePlain(plan.options);
    AccessFlagsArePlain(plan);
  }

  /** Among the driver's own values each cache flag appears exactly when its option is set. */
  lemma CacheFlagsIff(opts: map<OptionTag, string>, plan: MountPlan, dir: string, passwordFile: string)
    ensures "kernel_cache" in Flags(opts, plan, dir, passwordFile) <==> plan.options.kernelCache
    ensures "auto_cache" in Flags(opts, plan, dir, passwordFile) <==> plan.options.autoCache
  {
    CacheFlagsAlone(plan.options);
    OtherFlagsArePlain(opts, plan, dir, passwordFile, "kernel_cache");
    OtherFlagsArePlain(opts, plan, dir, passwordFile, "auto_cache");
  }

  function WithSlash(path: string): string {
    if HasSuffix(path, "/") then path else path + "/"
  }

  /** The directory s3fs is told to mount is the one the existence check listed, for every
      object path but the bare slash: there the whole bucket is mounted, while the listing
      looks for keys that begin with a slash. */
  lemma MountedDirectoryIff(bucket: string, path: string)
    requires path != ""
    ensures var spec := BucketSpec(bucket, path);
            && spec[..|bucket| + 1] == bucket + ":"
            && (WithSlash(spec[|bucket| + 1..]) == "/" + ListingPrefix(path) <==> path != "/")
  {
    var p := TrimPrefix(path, "/");
    assert BucketSpec(bucket, path) == bucket + ":" + ("/" + p);
    assert BucketSpec(bucket, path)[|bucket| + 1..] == "/" + p;
    if path != "/" {
      assert p != "";
      assert ("/" + p)[|p|..] == [p[|p| - 1]] == p[|p| - 1..];
    }
  }
}
