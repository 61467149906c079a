/** Sessions against the object store: the operations of COSSession, each given as a
    function on worlds and as the method that performs it. */
module Backend {
  import opened Wrappers
  import opened Text
  import opened Store

  datatype DeleteError = ListFailed(cause: S3Error) | ObjectFailed(cause: S3Error) | BucketFailed(cause: S3Error)

  // ---------------------------------------------------------------- operations on worlds

  /** A bucket the account already owns counts as created. */
  function CreateBucketEffect(w: World, s: Session, name: string, location: string, rootKey: string)
    : (World, Option<S3Error>)
  {
    var (after, err) := CreateCall(w, s, name, location, rootKey);
    (after, if err == Some(BucketAlreadyOwnedByYou) then None else err)
  }

  function SetVersioningEffect(w: World, s: Session, name: string, enabled: bool): (World, Option<S3Error>) {
    VersioningCall(w, s, name, VersioningFor(enabled))
  }

  function DeleteKeys(w: World, s: Session, name: string, keys: seq<string>): (World, Option<S3Error>)
    decreases keys
  {
    if keys == [] then (w, None)
    else
      var (after, err) := DeleteObjectCall(w, s, name, keys[0]);
      if err.Some? then (after, err) else DeleteKeys(after, s, name, keys[1..])
  }

  function DeleteBucketEffect(w: World, s: Session, name: string): (World, Option<DeleteError>) {
    var (listed, keys) := ListCall(w, s, name, "", w.page);
    if keys.Err? then (listed, if keys.error == NoSuchBucket then None else Some(ListFailed(keys.error)))
    else
      var (emptied, err) := DeleteKeys(listed, s, name, keys.value);
      if err.Some? then (emptied, Some(ObjectFailed(err.value)))
      else
        var (gone, last) := DeleteBucketCall(emptied, s, name);
        (gone, if last.Some? then Some(BucketFailed(last.value)) else None)
  }

  /** The listing prefix: one leading slash dropped, one trailing slash ensured. */
  function ListingPrefix(objectPath: string): string {
    var p := TrimPrefix(objectPath, "/");
    if HasSuffix(p, "/") then p else p + "/"
  }

  function ObjectPathEffect(w: World, s: Session, name: string, objectPath: string): (World, Result<bool, S3Error>) {
    var prefix := ListingPrefix(objectPath);
    var (after, keys) := ListCall(w, s, name, prefix, 1);
    (after, if keys.Err? then Err(keys.error)
            else Ok(|keys.value| == 1 && (keys.value[0] == prefix || TrimSuffix(keys.value[0], "/") == prefix)))
  }

  // ---------------------------------------------------------------- the session object

  class CosSession {
    const cloud: Cloud
    const id: Session

    constructor (cloud: Cloud, endpoint: string, region: string, creds: Credentials)
      ensures this.cloud == cloud && id == Session(endpoint, region, creds)
    {
      this.cloud := cloud;
      id := Session(endpoint, region, creds);
    }

    method CheckBucketAccess(bucket: string) returns (err: Option<S3Error>)
      modifies cloud
      ensures (cloud.world, err) == HeadCall(old(cloud.world), id, bucket)
    {
      err := cloud.Head(id, bucket);
    }

    method CheckObjectPathExistence(bucket: string, objectPath: string) returns (r: Result<bool, S3Error>)
      modifies cloud
      ensures (cloud.world, r) == ObjectPathEffect(old(cloud.world), id, bucket, objectPath)
    {
      var prefix := TrimPrefix(objectPath, "/");
      if !HasSuffix(prefix, "/") {
        prefix := prefix + "/";
      }
      var keys := cloud.List(id, bucket, prefix, 1);
      if keys.Err? {
        return Err(keys.error);
      }
      if |keys.value| == 1 {
        var first := keys.value[0];
        if first == prefix || TrimSuffix(first, "/") == prefix {
          return Ok(true);
        }
      }
      return Ok(false);
    }

    method CreateBucket(bucket: string, location: string, rootKey: string) returns (err: Option<S3Error>)
      modifies cloud
      ensures (cloud.world, err) == CreateBucketEffect(old(cloud.world), id, bucket, location, rootKey)
    {
      err := cloud.Create(id, bucket, location, rootKey);
      if err == Some(BucketAlreadyOwnedByYou) {
        err := None;
      }
    }

    method DeleteBucket(bucket: string) returns (err: Option<DeleteError>)
      modifies cloud
      ensures (cloud.world, err) == DeleteBucketEffect(old(cloud.world), id, bucket)
    {
      var page := cloud.List(id, bucket, "", cloud.world.page);
      if page.Err? {
        if page.error == NoSuchBucket {
          return None;
        }
        return Some(ListFailed(page.error));
      }
      var keys := page.value;
      ghost var listed := cloud.world;
      var i := 0;
      while i < |keys|
        invariant 0 <= i <= |keys|
        invariant DeleteKeys(listed, id, bucket, keys) == DeleteKeys(cloud.world, id, bucket, keys[i..])
      {
        var failure := cloud.DeleteObject(id, bucket, keys[i]);
        assert keys[i..][1..] == keys[i + 1..];
        if failure.Some? {
          return Some(ObjectFailed(failure.value));
        }
        i := i + 1;
      }
      var last := cloud.DeleteBucket(id, bucket);
      if last.Some? {
        return Some(BucketFailed(last.value));
      }
      return None;
    }

    method SetBucketVersioning(bucket: string, enabled: bool) returns (err: Option<S3Error>)
      modifies cloud
      ensures (cloud.world, err) == SetVersioningEffect(old(cloud.world), id, bucket, enabled)
    {
      var status;
      if enabled {
        status := Enabled;
      } else {
        status := Suspended;
      }
      err := cloud.PutVersioning(id, bucket, status);
    }
  }
}
