/** Which s3fs option gets which value: the command line read back as a table. */
module S3fsSettings {
  import opened Text
  import opened Records
  import opened S3fsOptions

  datatype S3fsOption =
    MultireqMax | PathRequestStyle | PasswdFile | Url | EndpointName | ParallelTransfers | MultipartSize
    | DbgLevel | StatCache | AllowOther | MaxBackground | Umask | InstanceName | Gid | Uid | ReadOnly
    | Ciphers | Retries | StatExpiry | CurlDebugging | AutoCaching | KernelCaching | IamAuth | IamEndpointUrl
    | DefaultAcl | ConnectTimeout | ReadwriteTimeout | Xattr

  /** The option's name on the command line, before any "=". */
  function Name(s: S3fsOption): string {
    match s
    case MultireqMax => "multireq_max"
    case PathRequestStyle => "use_path_request_style"
    case PasswdFile => "passwd_file"
    case Url => "url"
    case EndpointName => "endpoint"
    case ParallelTransfers => "parallel_count"
    case MultipartSize => "multipart_size"
    case DbgLevel => "dbglevel"
    case StatCache => "max_stat_cache_size"
    case AllowOther => "allow_other"
    case MaxBackground => "max_background"
    case Umask => "mp_umask"
    case InstanceName => "instance_name"
    case Gid => "gid"
    case Uid => "uid"
    case ReadOnly => "ro"
    case Ciphers => "cipher_suites"
    case Retries => "retries"
    case StatExpiry => "stat_cache_expire"
    case CurlDebugging => "curldbg"
    case AutoCaching => "auto_cache"
    case KernelCaching => "kernel_cache"
    case IamAuth => "ibm_iam_auth"
    case IamEndpointUrl => "ibm_iam_endpoint"
    case DefaultAcl => "default_acl"
    case ConnectTimeout => "connect_timeout"
    case ReadwriteTimeout => "readwrite_timeout"
    case Xattr => "use_xattr"
  }

  /** The option a name of this length, first and last character belongs to. */
  function Named(length: nat, first: char, last: char): S3fsOption {
    if length == 12 && first == 'm' && last == 'x' then MultireqMax
    else if length == 22 && first == 'u' && last == 'e' then PathRequestStyle
    else if length == 11 && first == 'p' && last == 'e' then PasswdFile
    else if length == 3 && first == 'u' && last == 'l' then Url
    else if length == 8 && first == 'e' && last == 't' then EndpointName
    else if length == 14 && first == 'p' && last == 't' then ParallelTransfers
    else if length == 14 && first == 'm' && last == 'e' then MultipartSize
    else if length == 8 && first == 'd' && last == 'l' then DbgLevel
    else if length == 19 && first == 'm' && last == 'e' then StatCache
    else if length == 11 && first == 'a' && last == 'r' then AllowOther
    else if length == 14 && first == 'm' && last == 'd' then MaxBackground
    else if length == 8 && first == 'm' && last == 'k' then Umask
    else if length == 13 && first == 'i' && last == 'e' then InstanceName
    else if length == 3 && first == 'g' && last == 'd' then Gid
    else if length == 3 && first == 'u' && last == 'd' then Uid
    else if length == 2 && first == 'r' && last == 'o' then ReadOnly
    else if length == 13 && first == 'c' && last == 's' then Ciphers
    else if length == 7 && first == 'r' && last == 's' then Retries
    else if length == 17 && first == 's' && last == 'e' then StatExpiry
    else if length == 7 && first == 'c' && last == 'g' then CurlDebugging
    else if length == 10 && first == 'a' && last == 'e' then AutoCaching
    else if length == 12 && first == 'k' && last == 'e' then KernelCaching
    else if length == 12 && first == 'i' && last == 'h' then IamAuth
    else if length == 16 && first == 'i' && last == 't' then IamEndpointUrl
    else if length == 11 && first == 'd' && last == 'l' then DefaultAcl
    else if length == 15 && first == 'c' && last == 't' then ConnectTimeout
    else if length == 17 && first == 'r' && last == 't' then ReadwriteTimeout
    else Xattr
  }

  lemma NamesDiffer(a: S3fsOption, b: S3fsOption)
    ensures Name(a) == Name(b) ==> a == b
  {
    NameIsTelling(a);
    NameIsTelling(b);
  }

  /** The options that are always given. */
  predicate IsFixed(s: S3fsOption) {
    s.MultireqMax? || s.PathRequestStyle? || s.PasswdFile? || s.Url? || s.EndpointName? || s.ParallelTransfers?
    || s.MultipartSize? || s.DbgLevel? || s.StatCache? || s.AllowOther? || s.MaxBackground? || s.Umask?
    || s.InstanceName?
  }

  lemma FixedIsTelling(s: S3fsOption)
    requires IsFixed(s)
    ensures Name(s) != "" && Named(|Name(s)|, Name(s)[0], Name(s)[|Name(s)| - 1]) == s
  {
  }

  lemma NameIsTelling(s: S3fsOption)
    ensures Name(s) != "" && Named(|Name(s)|, Name(s)[0], Name(s)[|Name(s)| - 1]) == s
  {
    if IsFixed(s) {
      FixedIsTelling(s);
    }
  }

  predicate IsWord(key: string) {
    forall i :: 0 <= i < |key| ==> key[i] != '='
  }

  lemma Words1(s: S3fsOption)
    requires s.MultireqMax? || s.PathRequestStyle? || s.PasswdFile? || s.Url? || s.EndpointName?
             || s.ParallelTransfers? || s.MultipartSize?
    ensures IsWord(Name(s))
  {
  }

  lemma Words2(s: S3fsOption)
    requires s.DbgLevel? || s.StatCache? || s.AllowOther? || s.MaxBackground? || s.Umask? || s.InstanceName? || s.Gid?
    ensures IsWord(Name(s))
  {
  }

  lemma Words3(s: S3fsOption)
    requires s.Uid? || s.ReadOnly? || s.Ciphers? || s.Retries? || s.StatExpiry? || s.CurlDebugging? || s.AutoCaching?
    ensures IsWord(Name(s))
  {
  }

  lemma Words4(s: S3fsOption)
    requires s.KernelCaching? || s.IamAuth? || s.IamEndpointUrl? || s.DefaultAcl?
    ensures IsWord(Name(s))
  {
  }

  lemma Words5(s: S3fsOption)
    requires s.ConnectTimeout? || s.ReadwriteTimeout? || s.Xattr?
    ensures IsWord(Name(s))
  {
  }

  lemma NamesAreWords(s: S3fsOption)
    ensures IsWord(Name(s))
  {
    if s.MultireqMax? || s.PathRequestStyle? || s.PasswdFile? || s.Url? || s.EndpointName? || s.ParallelTransfers?
      || s.MultipartSize? {
      Words1(s);
    } else if s.DbgLevel? || s.StatCache? || s.AllowOther? || s.MaxBackground? || s.Umask? || s.InstanceName?
      || s.Gid? {
      Words2(s);
    } else if s.Uid? || s.ReadOnly? || s.Ciphers? || s.Retries? || s.StatExpiry? || s.CurlDebugging? || s.AutoCaching? {
      Words3(s);
    } else if s.KernelCaching? || s.IamAuth? || s.IamEndpointUrl? || s.DefaultAcl? {
      Words4(s);
    } else {
      Words5(s);
    }
  }

  /** A kubelet asked for a group, one way or the other. */
  predicate Grouped(opts: map<OptionTag, string>) {
    FSGroup in opts || FSGroupNew in opts
  }

  function Group(opts: map<OptionTag, string>, o: Options): string {
    if FSGroup in opts then o.fsGroup else o.fsGroupNew
  }

  /** When the option is given. */
  predicate Given(s: S3fsOption, opts: map<OptionTag, string>, plan: MountPlan) {
    var o := plan.options;
    match s
    case Gid | Uid => Grouped(opts)
    case ReadOnly => o.accessMode == "ReadOnlyMany"
    case Ciphers => TrimSpace(o.tlsCipherSuite) != "" && o.tlsCipherSuite != "default"
    case Retries => o.retryCount != ""
    case StatExpiry => o.statCacheExpire != ""
    case CurlDebugging => o.curlDebug
    case AutoCaching => o.autoCache
    case KernelCaching => o.kernelCache
    case IamAuth | IamEndpointUrl => plan.creds.apiKey != ""
    case DefaultAcl => plan.creds.apiKey == ""
    case ConnectTimeout => o.connectTimeout != ""
    case ReadwriteTimeout => o.readwriteTimeout != ""
    case Xattr => o.useXattr
    case _ => true
  }

  /** The option as it is written. */
  function Written(s: S3fsOption, opts: map<OptionTag, string>, plan: MountPlan, dir: string, file: string): string {
    var o := plan.options;
    match s
    case MultireqMax => "multireq_max=" + Itoa(o.multiReqMax)
    case PathRequestStyle => "use_path_request_style"
    case PasswdFile => "passwd_file=" + file
    case Url => "url=" + plan.endpoint
    case EndpointName => "endpoint=" + plan.region
    case ParallelTransfers => "parallel_count=" + Itoa(o.parallelCount)
    case MultipartSize => "multipart_size=" + Itoa(o.chunkSizeMb)
    case DbgLevel => "dbglevel=" + o.debugLevel
    case StatCache => "max_stat_cache_size=" + Itoa(o.statCacheSize)
    case AllowOther => "allow_other"
    case MaxBackground => "max_background=1000"
    case Umask => "mp_umask=002"
    case InstanceName => "instance_name=" + dir
    case Gid => "gid=" + Group(opts, o)
    case Uid => "uid=" + Group(opts, o)
    case ReadOnly => "ro"
    case Ciphers => "cipher_suites=" + o.tlsCipherSuite
    case Retries => "retries=" + o.retryCount
    case StatExpiry => "stat_cache_expire=" + o.statCacheExpire
    case CurlDebugging => "curldbg=body"
    case AutoCaching => "auto_cache"
    case KernelCaching => "kernel_cache"
    case IamAuth => "ibm_iam_auth"
    case IamEndpointUrl => "ibm_iam_endpoint=" + plan.creds.iamEndpoint
    case DefaultAcl => "default_acl=private"
    case ConnectTimeout => "connect_timeout=" + o.connectTimeout
    case ReadwriteTimeout => "readwrite_timeout=" + o.readwriteTimeout
    case Xattr => "use_xattr"
  }

  // ---------------------------------------------------------------- names

  /** What comes before the first "=". */
  function KeyOf(value: string): string {
    if value == "" || value[0] == '=' then "" else [value[0]] + KeyOf(value[1..])
  }

  lemma {:induction false} KeyOfFlag(key: string, text: string)
    requires IsWord(key)
    requires text == "" || text[0] == '='
    ensures KeyOf(key + text) == key
  {
    if key != "" {
      KeyOfFlag(key[1..], text);
      assert (key + text)[1..] == key[1..] + text;
    }
  }

  lemma WrittenKey(s: S3fsOption, opts: map<OptionTag, string>, plan: MountPlan, dir: string, file: string)
    ensures KeyOf(Written(s, opts, plan, dir, file)) == Name(s)
  {
    var w := Written(s, opts, plan, dir, file);
    NamesAreWords(s);
    WrittenStarts(s, opts, plan, dir, file);
    KeyOfFlag(Name(s), w[|Name(s)|..]);
    assert Name(s) + w[|Name(s)|..] == w;
  }

  lemma FixedStarts(s: S3fsOption, opts: map<OptionTag, string>, plan: MountPlan, dir: string, file: string)
    requires IsFixed(s)
    ensures var w := Written(s, opts, plan, dir, file);
            Name(s) <= w && (|w| == |Name(s)| || w[|Name(s)|] == '=')
  {
  }

  lemma WrittenStarts(s: S3fsOption, opts: map<OptionTag, string>, plan: MountPlan, dir: string, file: string)
    ensures var w := Written(s, opts, plan, dir, file);
            Name(s) <= w && (|w| == |Name(s)| || w[|Name(s)|] == '=')
  {
    if IsFixed(s) {
      FixedStarts(s, opts, plan, dir, file);
    }
  }

  // ---------------------------------------------------------------- the table

  lemma EarlySource(v: string, opts: map<OptionTag, string>, plan: MountPlan, dir: string, file: string)
    returns (s: S3fsOption)
    requires v in FixedFlags(plan, dir, file)[..7]
    ensures Given(s, opts, plan) && Written(s, opts, plan, dir, file) == v
  {
    var o := plan.options;
    if v == "multireq_max=" + Itoa(o.multiReqMax) {
      s := MultireqMax;
    } else if v == "use_path_request_style" {
      s := PathRequestStyle;
    } else if v == "passwd_file=" + file {
      s := PasswdFile;
    } else if v == "url=" + plan.endpoint {
      s := Url;
    } else if v == "endpoint=" + plan.region {
      s := EndpointName;
    } else if v == "parallel_count=" + Itoa(o.parallelCount) {
      s := ParallelTransfers;
    } else {
      s := MultipartSize;
    }
  }

  lemma LateSource(v: string, opts: map<OptionTag, string>, plan: MountPlan, dir: string, file: string)
    returns (s: S3fsOption)
    requires v in FixedFlags(plan, dir, file)[7..]
    ensures Given(s, opts, plan) && Written(s, opts, plan, dir, file) == v
  {
    var o := plan.options;
    if v == "dbglevel=" + o.debugLevel {
      s := DbgLevel;
    } else if v == "max_stat_cache_size=" + Itoa(o.statCacheSize) {
      s := StatCache;
    } else if v == "allow_other" {
      s := AllowOther;
    } else if v == "max_background=1000" {
      s := MaxBackground;
    } else if v == "mp_umask=002" {
      s := Umask;
    } else {
      s := InstanceName;
    }
  }

  lemma FixedSource(v: string, opts: map<OptionTag, string>, plan: MountPlan, dir: string, file: string)
    returns (s: S3fsOption)
    requires v in FixedFlags(plan, dir, file)
    ensures Given(s, opts, plan) && Written(s, opts, plan, dir, file) == v
  {
    if v in FixedFlags(plan, dir, file)[..7] {
      s := EarlySource(v, opts, plan, dir, file);
    } else {
      s := LateSource(v, opts, plan, dir, file);
    }
  }

  lemma FixedFromTable(s: S3fsOption, opts: map<OptionTag, string>, plan: MountPlan, dir: string, file: string)
    requires IsFixed(s)
    requires Given(s, opts, plan)
    ensures Written(s, opts, plan, dir, file) in FixedFlags(plan, dir, file)
  {
  }

  lemma OwnerSource(v: string, opts: map<OptionTag, string>, plan: MountPlan, dir: string, file: string)
    returns (s: S3fsOption)
    requires v in OwnerFlags(opts, plan.options)
    ensures Given(s, opts, plan) && Written(s, opts, plan, dir, file) == v
  {
    var o := plan.options;
    if v == "gid=" + Group(opts, o) {
      s := Gid;
    } else {
      s := Uid;
    }
  }

  lemma OwnerFromTable(s: S3fsOption, opts: map<OptionTag, string>, plan: MountPlan, dir: string, file: string)
    requires s.Gid? || s.Uid?
    requires Given(s, opts, plan)
    ensures Written(s, opts, plan, dir, file) in OwnerFlags(opts, plan.options)
  {
  }

  lemma TuningSource(v: string, opts: map<OptionTag, string>, plan: MountPlan, dir: string, file: string)
    returns (s: S3fsOption)
    requires v in TuningFlags(plan.options)
    ensures Given(s, opts, plan) && Written(s, opts, plan, dir, file) == v
  {
    var o := plan.options;
    if o.accessMode == "ReadOnlyMany" && v == "ro" {
      s := ReadOnly;
    } else if o.retryCount != "" && v == "retries=" + o.retryCount {
      s := Retries;
    } else if o.statCacheExpire != "" && v == "stat_cache_expire=" + o.statCacheExpire {
      s := StatExpiry;
    } else if o.curlDebug && v == "curldbg=body" {
      s := CurlDebugging;
    } else {
      s := Ciphers;
    }
  }

  lemma TuningFromTable(s: S3fsOption, opts: map<OptionTag, string>, plan: MountPlan, dir: string, file: string)
    requires s.ReadOnly? || s.Ciphers? || s.Retries? || s.StatExpiry? || s.CurlDebugging?
    requires Given(s, opts, plan)
    ensures Written(s, opts, plan, dir, file) in TuningFlags(plan.options)
  {
  }

  lemma CacheSource(v: string, opts: map<OptionTag, string>, plan: MountPlan, dir: string, file: string)
    returns (s: S3fsOption)
    requires v in CacheFlags(plan.options)
    ensures Given(s, opts, plan) && Written(s, opts, plan, dir, file) == v
  {
    var o := plan.options;
    if o.autoCache && v == "auto_cache" {
      s := AutoCaching;
    } else {
      s := KernelCaching;
    }
  }

  lemma CacheFromTable(s: S3fsOption, opts: map<OptionTag, string>, plan: MountPlan, dir: string, file: string)
    requires s.AutoCaching? || s.KernelCaching?
    requires Given(s, opts, plan)
    ensures Written(s, opts, plan, dir, file) in CacheFlags(plan.options)
  {
  }

  lemma AccessSource(v: string, opts: map<OptionTag, string>, plan: MountPlan, dir: string, file: string)
    returns (s: S3fsOption)
    requires v in AccessFlags(plan)
    ensures Given(s, opts, plan) && Written(s, opts, plan, dir, file) == v
  {
    var o := plan.options;
    if plan.creds.apiKey != "" && v == "ibm_iam_auth" {
      s := IamAuth;
    } else if plan.creds.apiKey != "" && v == "ibm_iam_endpoint=" + plan.creds.iamEndpoint {
      s := IamEndpointUrl;
    } else if o.connectTimeout != "" && v == "connect_timeout=" + o.connectTimeout {
      s := ConnectTimeout;
    } else if o.readwriteTimeout != "" && v == "readwrite_timeout=" + o.readwriteTimeout {
      s := ReadwriteTimeout;
    } else if o.useXattr && v == "use_xattr" {
      s := Xattr;
    } else {
      s := DefaultAcl;
    }
  }

  lemma AccessFromTable(s: S3fsOption, opts: map<OptionTag, string>, plan: MountPlan, dir: string, file: string)
    requires s.IamAuth? || s.IamEndpointUrl? || s.DefaultAcl? || s.ConnectTimeout? || s.ReadwriteTimeout? || s.Xattr?
    requires Given(s, opts, plan)
    ensures Written(s, opts, plan, dir, file) in AccessFlags(plan)
  {
  }

  lemma FlagSource(v: string, opts: map<OptionTag, string>, plan: MountPlan, dir: string, file: string)
    returns (s: S3fsOption)
    requires v in Flags(opts, plan, dir, file)
    ensures Given(s, opts, plan) && Written(s, opts, plan, dir, file) == v
  {
    if v in FixedFlags(plan, dir, file) {
      s := FixedSource(v, opts, plan, dir, file);
    } else if v in OwnerFlags(opts, plan.options) {
      s := OwnerSource(v, opts, plan, dir, file);
    } else if v in TuningFlags(plan.options) {
      s := TuningSource(v, opts, plan, dir, file);
    } else if v in CacheFlags(plan.options) {
      s := CacheSource(v, opts, plan, dir, file);
    } else {
      s := AccessSource(v, opts, plan, dir, file);
    }
  }

  lemma FlagsFromTable(s: S3fsOption, opts: map<OptionTag, string>, plan: MountPlan, dir: string, file: string)
    requires Given(s, opts, plan)
    ensures Written(s, opts, plan, dir, file) in Flags(opts, plan, dir, file)
  {
    if s.Gid? || s.Uid? {
      OwnerFromTable(s, opts, plan, dir, file);
    } else if s.ReadOnly? || s.Ciphers? || s.Retries? || s.StatExpiry? || s.CurlDebugging? {
      TuningFromTable(s, opts, plan, dir, file);
    } else if s.AutoCaching? || s.KernelCaching? {
      CacheFromTable(s, opts, plan, dir, file);
    } else if s.IamAuth? || s.IamEndpointUrl? || s.DefaultAcl? || s.ConnectTimeout? || s.ReadwriteTimeout? || s.Xattr? {
      AccessFromTable(s, opts, plan, dir, file);
    } else {
      FixedFromTable(s, opts, plan, dir, file);
    }
  }

  /** The driver's own values are the table and nothing else: every option is there exactly
      when it is given, and whatever goes by its name is the value the table says. */
  lemma FlagIff(s: S3fsOption, opts: map<OptionTag, string>, plan: MountPlan, dir: string, file: string)
    ensures Written(s, opts, plan, dir, file) in Flags(opts, plan, dir, file) <==> Given(s, opts, plan)
    ensures forall v :: v in Flags(opts, plan, dir, file) && KeyOf(v) == Name(s) ==>
              v == Written(s, opts, plan, dir, file)
  {
    forall v | v in Flags(opts, plan, dir, file) && KeyOf(v) == Name(s)
      ensures v == Written(s, opts, plan, dir, file) && Given(s, opts, plan)
    {
      var t := FlagSource(v, opts, plan, dir, file);
      WrittenKey(t, opts, plan, dir, file);
      NamesDiffer(s, t);
    }
    WrittenKey(s, opts, plan, dir, file);
    if Given(s, opts, plan) {
      FlagsFromTable(s, opts, plan, dir, file);
    }
  }

  function One(given: bool): nat {
    if given then 1 else 0
  }

  lemma OptLength(a: bool, v: string)
    ensures |Opt(a, v)| == One(a)
  {
  }

  /** How many of the options that depend on something are given. */
  function Extra(opts: map<OptionTag, string>, plan: MountPlan): nat {
    One(Given(Gid, opts, plan)) + One(Given(Uid, opts, plan))
    + TuningGiven(opts, plan) + One(Given(AutoCaching, opts, plan)) + One(Given(KernelCaching, opts, plan))
    + AccessGiven(opts, plan)
  }

  function TuningGiven(opts: map<OptionTag, string>, plan: MountPlan): nat {
    One(Given(ReadOnly, opts, plan)) + One(Given(Ciphers, opts, plan)) + One(Given(Retries, opts, plan))
    + One(Given(StatExpiry, opts, plan)) + One(Given(CurlDebugging, opts, plan))
  }

  function AccessGiven(opts: map<OptionTag, string>, plan: MountPlan): nat {
    One(Given(IamAuth, opts, plan)) + One(Given(IamEndpointUrl, opts, plan)) + One(Given(DefaultAcl, opts, plan))
    + One(Given(ConnectTimeout, opts, plan)) + One(Given(ReadwriteTimeout, opts, plan)) + One(Given(Xattr, opts, plan))
  }

  lemma TuningCount(opts: map<OptionTag, string>, plan: MountPlan)
    ensures |TuningFlags(plan.options)| == TuningGiven(opts, plan)
  {
    var o := plan.options;
    OptLength(o.accessMode == "ReadOnlyMany", "ro");
    OptLength(Given(Ciphers, opts, plan), "cipher_suites=" + o.tlsCipherSuite);
    OptLength(o.retryCount != "", "retries=" + o.retryCount);
    OptLength(o.statCacheExpire != "", "stat_cache_expire=" + o.statCacheExpire);
    OptLength(o.curlDebug, "curldbg=body");
  }

  lemma AccessCount(opts: map<OptionTag, string>, plan: MountPlan)
    ensures |AccessFlags(plan)| == AccessGiven(opts, plan)
  {
    var o := plan.options;
    OptLength(o.connectTimeout != "", "connect_timeout=" + o.connectTimeout);
    OptLength(o.readwriteTimeout != "", "readwrite_timeout=" + o.readwriteTimeout);
    OptLength(o.useXattr, "use_xattr");
  }

  lemma OwnerAndCacheCount(opts: map<OptionTag, string>, plan: MountPlan)
    ensures |OwnerFlags(opts, plan.options)| == One(Given(Gid, opts, plan)) + One(Given(Uid, opts, plan))
    ensures |CacheFlags(plan.options)| == One(Given(AutoCaching, opts, plan)) + One(Given(KernelCaching, opts, plan))
  {
  }

  lemma FlagLength(opts: map<OptionTag, string>, plan: MountPlan, dir: string, file: string)
    ensures |Flags(opts, plan, dir, file)| ==
            13 + |OwnerFlags(opts, plan.options)| + |TuningFlags(plan.options)| + |CacheFlags(plan.options)|
            + |AccessFlags(plan)|
  {
    assert |FixedFlags(plan, dir, file)| == 13;
  }

  /** And it is there once: there are no more values than options given. */
  lemma FlagCount(opts: map<OptionTag, string>, plan: MountPlan, dir: string, file: string)
    ensures |Flags(opts, plan, dir, file)| == 13 + Extra(opts, plan)
  {
    FlagLength(opts, plan, dir, file);
    TuningCount(opts, plan);
    AccessCount(opts, plan);
    OwnerAndCacheCount(opts, plan);
  }

  lemma PairedAt(head: seq<string>, own: seq<string>, extras: seq<string>, i: nat)
    requires |head| == 2 && i < |own|
    ensures var args := head + DashO(own + extras);
            |args| >= 2 + 2 * |own| && args[1] == head[1] && args[3 + 2 * i] == own[i]
  {
    DashOShape(own + extras);
    assert DashO(own + extras)[2 * i + 1] == (own + extras)[i];
  }

  lemma CommandAt(opts: map<OptionTag, string>, plan: MountPlan, dir: string, file: string, i: nat)
    requires i < 13
    ensures |CommandLine(opts, plan, dir, file)| >= 28 && CommandLine(opts, plan, dir, file)[1] == dir
    ensures |FixedFlags(plan, dir, file)| == 13
    ensures CommandLine(opts, plan, dir, file)[3 + 2 * i] == FixedFlags(plan, dir, file)[i]
  {
    FixedComesFirst(opts, plan, dir, file);
    PairedAt([BucketSpec(plan.options.bucket, plan.options.objectPath), dir], Flags(opts, plan, dir, file),
      Extras(plan.options), i);
  }

  /** What is mounted: the bucket, or the object path in it with exactly one slash in front. */
  function Source(bucket: string, path: string): string {
    if path == "" then bucket else if path[0] == '/' then bucket + (":" + path) else bucket + (":/" + path)
  }

  lemma SourceIs(bucket: string, path: string)
    ensures BucketSpec(bucket, path) == Source(bucket, path)
  {
    if path != "" {
      assert HasPrefix(path, "/") <==> path[0] == '/';
    }
  }

  lemma MountSource(opts: map<OptionTag, string>, plan: MountPlan, dir: string, file: string)
    ensures CommandLine(opts, plan, dir, file)[0] == Source(plan.options.bucket, plan.options.objectPath)
  {
    SourceIs(plan.options.bucket, plan.options.objectPath);
  }

  /** The fixed part of the command line, value by value. */
  lemma FixedPositions(opts: map<OptionTag, string>, plan: MountPlan, dir: string, file: string)
    ensures var args, o := CommandLine(opts, plan, dir, file), plan.options;
            && |args| >= 28 && args[1] == dir
            && args[3] == "multireq_max=" + Itoa(o.multiReqMax)
            && args[5] == "use_path_request_style"
            && args[7] == "passwd_file=" + file
            && args[9] == "url=" + plan.endpoint
            && args[11] == "endpoint=" + plan.region
            && args[13] == "parallel_count=" + Itoa(o.parallelCount)
            && args[15] == "multipart_size=" + Itoa(o.chunkSizeMb)
            && args[17] == "dbglevel=" + o.debugLevel
            && args[19] == "max_stat_cache_size=" + Itoa(o.statCacheSize)
            && args[21] == "allow_other"
            && args[23] == "max_background=1000"
            && args[25] == "mp_umask=002"
            && args[27] == "instance_name=" + dir
  {
    CommandAt(opts, plan, dir, file, 0);
    CommandAt(opts, plan, dir, file, 1);
    CommandAt(opts, plan, dir, file, 2);
    CommandAt(opts, plan, dir, file, 3);
    CommandAt(opts, plan, dir, file, 4);
    CommandAt(opts, plan, dir, file, 5);
    CommandAt(opts, plan, dir, file, 6);
    CommandAt(opts, plan, dir, file, 7);
    CommandAt(opts, plan, dir, file, 8);
    CommandAt(opts, plan, dir, file, 9);
    CommandAt(opts, plan, dir, file, 10);
    CommandAt(opts, plan, dir, file, 11);
    CommandAt(opts, plan, dir, file, 12);
  }

  lemma FixedComesFirst(opts: map<OptionTag, string>, plan: MountPlan, dir: string, file: string)
    ensures var values, fixed := Flags(opts, plan, dir, file), FixedFlags(plan, dir, file);
            |fixed| == 13 && |values| >= 13 && forall i :: 0 <= i < 13 ==> values[i] == fixed[i]
  {
  }
}
