/** The object store the plugin talks to, as an explicit world. Every request consumes one
    entry of an arbitrary stream of fates: it may be served, it may never arrive, or it may
    take effect while its reply is lost. */
module Store {
  import opened Wrappers
  import opened Text

  datatype Credentials = Credentials(accessKey: string, secretKey: string, apiKey: string,
                                     serviceInstanceId: string, iamEndpoint: string)
  {
    /** Who the store takes the caller for: IAM credentials win over an HMAC key pair. */
    function Account(): string {
      if apiKey != "" then serviceInstanceId else accessKey
    }
  }

  datatype Session = Session(endpoint: string, region: string, creds: Credentials)

  datatype Versioning = Unset | Suspended | Enabled

  /** A request can enable or suspend versioning, never unset it. */
  function VersioningFor(enable: bool): Versioning {
    if enable then Enabled else Suspended
  }

  /** A bucket is reachable through its home endpoint only. `objects` is in listing order;
      `retained` counts what deleting objects leaves behind once versioning was set. */
  datatype Bucket = Bucket(home: string, location: string, rootKey: string, owner: string, guests: set<string>,
                           objects: seq<string>, retained: nat,
                           versioning: Versioning, firewall: Option<seq<string>>, quota: Option<int>)

  datatype S3Error = NoSuchBucket | AccessDenied | BucketAlreadyExists | BucketAlreadyOwnedByYou | BucketNotEmpty
                   | RequestError

  datatype Fate = Served | Dropped | Lost

  type Buckets = map<string, Bucket>

  datatype World = World(buckets: Buckets, page: nat, fates: nat -> Fate, clock: nat)

  /** From now on every request is served. */
  ghost predicate Quiet(w: World) {
    forall i: nat :: w.clock <= i ==> w.fates(i) == Served
  }

  function Deliver(w: World, verdict: Option<S3Error>, after: Buckets): (World, Option<S3Error>) {
    var now := w.(clock := w.clock + 1);
    var done := if verdict.None? then now.(buckets := after) else now;
    match w.fates(w.clock)
    case Served => (done, verdict)
    case Dropped => (now, Some(RequestError))
    case Lost => (done, Some(RequestError))
  }

  function Denial(w: World, s: Session, name: string): Option<S3Error> {
    if name !in w.buckets || w.buckets[name].home != s.endpoint then Some(NoSuchBucket)
    else if s.creds.Account() != w.buckets[name].owner && s.creds.Account() !in w.buckets[name].guests
      then Some(AccessDenied)
    else None
  }

  function NewBucket(s: Session, location: string, rootKey: string): Bucket {
    Bucket(s.endpoint, location, rootKey, s.creds.Account(), {}, [], 0, Unset, None, None)
  }

  /** An empty root key means the bucket is not encrypted with a customer key. */
  function CreateCall(w: World, s: Session, name: string, location: string, rootKey: string): (World, Option<S3Error>) {
    if name in w.buckets then
      Deliver(w, Some(if w.buckets[name].owner == s.creds.Account() then BucketAlreadyOwnedByYou
                      else BucketAlreadyExists), w.buckets)
    else
      Deliver(w, None, w.buckets[name := NewBucket(s, location, rootKey)])
  }

  function HeadCall(w: World, s: Session, name: string): (World, Option<S3Error>) {
    Deliver(w, Denial(w, s, name), w.buckets)
  }

  function VersioningCall(w: World, s: Session, name: string, v: Versioning): (World, Option<S3Error>) {
    var denial := Denial(w, s, name);
    Deliver(w, denial, if denial.None? then w.buckets[name := w.buckets[name].(versioning := v)] else w.buckets)
  }

  function Matching(objects: seq<string>, prefix: string): seq<string> {
    if objects == [] then []
    else (if HasPrefix(objects[0], prefix) then [objects[0]] else []) + Matching(objects[1..], prefix)
  }

  function Take(keys: seq<string>, n: nat): seq<string> {
    if |keys| <= n then keys else keys[..n]
  }

  function ListCall(w: World, s: Session, name: string, prefix: string, max: nat)
    : (World, Result<seq<string>, S3Error>)
  {
    var (after, err) := HeadCall(w, s, name);
    (after, if err.Some? then Err(err.value) else
     if name in w.buckets then Ok(Take(Matching(w.buckets[name].objects, prefix), max)) else Ok([]))
  }

  function Without(objects: seq<string>, key: string): seq<string> {
    if objects == [] then []
    else if objects[0] == key then objects[1..]
    else [objects[0]] + Without(objects[1..], key)
  }

  function AfterDelete(b: Bucket, key: string): Bucket {
    b.(objects := Without(b.objects, key), retained := if b.versioning.Unset? then b.retained else b.retained + 1)
  }

  function DeleteObjectCall(w: World, s: Session, name: string, key: string): (World, Option<S3Error>) {
    var denial := Denial(w, s, name);
    Deliver(w, denial, if denial.None? then w.buckets[name := AfterDelete(w.buckets[name], key)] else w.buckets)
  }

  function DeleteBucketCall(w: World, s: Session, name: string): (World, Option<S3Error>) {
    var denial := Denial(w, s, name);
    if denial.Some? then Deliver(w, denial, w.buckets)
    else if w.buckets[name].objects != [] || w.buckets[name].retained > 0
      then Deliver(w, Some(BucketNotEmpty), w.buckets)
    else Deliver(w, None, w.buckets - {name})
  }

  // The resource configuration service addresses a bucket by its global name.

  function FirewallCall(w: World, name: string, ips: seq<string>): (World, Option<S3Error>) {
    if name !in w.buckets then Deliver(w, Some(NoSuchBucket), w.buckets)
    else Deliver(w, None, w.buckets[name := w.buckets[name].(firewall := Some(ips))])
  }

  function QuotaCall(w: World, name: string, limit: int): (World, Option<S3Error>) {
    if name !in w.buckets then Deliver(w, Some(NoSuchBucket), w.buckets)
    else Deliver(w, None, w.buckets[name := w.buckets[name].(quota := Some(limit))])
  }

  /** The remote service itself: one mutable world behind the request functions above. */
  class Cloud {
    var world: World

    constructor (world: World)
      ensures this.world == world
    {
      this.world := world;
    }

    method Create(s: Session, name: string, location: string, rootKey: string) returns (err: Option<S3Error>)
      modifies this
      ensures (world, err) == CreateCall(old(world), s, name, location, rootKey)
    {
      var (after, e) := CreateCall(world, s, name, location, rootKey);
      world, err := after, e;
    }

    method Head(s: Session, name: string) returns (err: Option<S3Error>)
      modifies this
      ensures (world, err) == HeadCall(old(world), s, name)
    {
      var (after, e) := HeadCall(world, s, name);
      world, err := after, e;
    }

    method PutVersioning(s: Session, name: string, v: Versioning) returns (err: Option<S3Error>)
      modifies this
      ensures (world, err) == VersioningCall(old(world), s, name, v)
    {
      var (after, e) := VersioningCall(world, s, name, v);
      world, err := after, e;
    }

    method List(s: Session, name: string, prefix: string, max: nat) returns (r: Result<seq<string>, S3Error>)
      modifies this
      ensures (world, r) == ListCall(old(world), s, name, prefix, max)
    {
      var (after, e) := ListCall(world, s, name, prefix, max);
      world, r := after, e;
    }

    method DeleteObject(s: Session, name: string, key: string) returns (err: Option<S3Error>)
      modifies this
      ensures (world, err) == DeleteObjectCall(old(world), s, name, key)
    {
      var (after, e) := DeleteObjectCall(world, s, name, key);
      world, err := after, e;
    }

    method DeleteBucket(s: Session, name: string) returns (err: Option<S3Error>)
      modifies this
      ensures (world, err) == DeleteBucketCall(old(world), s, name)
    {
      var (after, e) := DeleteBucketCall(world, s, name);
      world, err := after, e;
    }

    method PatchFirewall(name: string, ips: seq<string>) returns (err: Option<S3Error>)
      modifies this
      ensures (world, err) == FirewallCall(old(world), name, ips)
    {
      var (after, e) := FirewallCall(world, name, ips);
      world, err := after, e;
    }

    method PatchQuota(name: string, limit: int) returns (err: Option<S3Error>)
      modifies this
      ensures (world, err) == QuotaCall(old(world), name, limit)
    {
      var (after, e) := QuotaCall(world, name, limit);
      world, err := after, e;
    }
  }
}
