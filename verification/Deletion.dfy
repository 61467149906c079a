/** What one DeleteBucket call can do to the store under any faults, and why retrying it
    terminates. */
module Deletion {
  import opened Wrappers
  import opened Store
  import opened Backend

  /** The two stores agree on every bucket but `name`. */
  ghost predicate SameElsewhere(before: Buckets, after: Buckets, name: string) {
    before - {name} == after - {name}
  }

  ghost predicate SameCloud(before: World, after: World) {
    before.page == after.page && before.fates == after.fates && before.clock <= after.clock
  }

  lemma {:induction false} MatchingEverything(objects: seq<string>)
    ensures Matching(objects, "") == objects
  {
    if objects != [] {
      MatchingEverything(objects[1..]);
    }
  }

  lemma Overwrite(m: Buckets, name: string, b: Bucket)
    ensures m[name := b] - {name} == m - {name}
  {
  }

  lemma Replace(base: Buckets, name: string, b: Bucket, c: Bucket)
    ensures base[name := b][name := c] == base[name := c]
  {
  }

  /** Deleting a listed prefix of an unversioned bucket, one object at a time, stops
      anywhere: exactly the first `k` keys are gone and nothing else has changed. */
  lemma {:induction false} DeleteKeysDropsPrefix(w: World, s: Session, name: string, keys: seq<string>) returns (k: nat)
    requires Denial(w, s, name) == None
    requires w.buckets[name].versioning == Unset && keys <= w.buckets[name].objects
    ensures k <= |keys|
    ensures var (after, err) := DeleteKeys(w, s, name, keys);
            && SameCloud(w, after)
            && after.buckets == w.buckets[name := w.buckets[name].(objects := w.buckets[name].objects[k..])]
            && (err.None? ==> k == |keys|)
            && (Quiet(w) ==> err.None?)
    decreases keys
  {
    var b := w.buckets[name];
    if keys == [] {
      k := 0;
      assert b.objects[0..] == b.objects;
    } else {
      var (next, err) := DeleteObjectCall(w, s, name, keys[0]);
      assert Without(b.objects, keys[0]) == b.objects[1..];
      if err.Some? {
        k := if next.buckets == w.buckets then 0 else 1;
        assert b.objects[0..] == b.objects;
      } else {
        var rest := DeleteKeysDropsPrefix(next, s, name, keys[1..]);
        k := rest + 1;
        assert b.objects[1..][rest..] == b.objects[k..];
      }
    }
  }

  /** Whatever the fates, one call on an unversioned bucket removes a prefix of its first
      page and keeps the rest in order, or removes the bucket once that page was all it
      held; it touches no other bucket, and it reports success only if the bucket is gone
      from the session's endpoint. */
  lemma DeletionRemovesPrefix(w: World, s: Session, name: string)
    requires name in w.buckets && w.buckets[name].versioning == Unset
    ensures var b := w.buckets[name];
            var (after, err) := DeleteBucketEffect(w, s, name);
            && SameCloud(w, after)
            && SameElsewhere(w.buckets, after.buckets, name)
            && (name in after.buckets ==>
                  exists k: nat :: k <= |b.objects| && k <= w.page
                         && after.buckets[name] == b.(objects := b.objects[k..]))
            && (name !in after.buckets ==> |b.objects| <= w.page && b.retained == 0 && Denial(w, s, name) == None)
            && (err.None? ==> name !in after.buckets || b.home != s.endpoint)
            && (Quiet(w) && Denial(w, s, name) == None ==>
                  if |b.objects| <= w.page && b.retained == 0 then err.None? && name !in after.buckets
                  else err == Some(BucketFailed(BucketNotEmpty)) &&
                       after.buckets[name] == b.(objects := b.objects[|Take(b.objects, w.page)|..]))
  {
    var b := w.buckets[name];
    MatchingEverything(b.objects);
    assert b.objects[0..] == b.objects;
    var (listed, keys) := ListCall(w, s, name, "", w.page);
    var (after, err) := DeleteBucketEffect(w, s, name);
    if keys.Err? {
      assert after.buckets[name] == b.(objects := b.objects[0..]);
    } else {
      var k := DeleteKeysDropsPrefix(listed, s, name, keys.value);
      var (emptied, stop) := DeleteKeys(listed, s, name, keys.value);
      Overwrite(w.buckets, name, b.(objects := b.objects[k..]));
      assert k <= |b.objects| && k <= w.page;
      assert emptied.buckets[name] == b.(objects := b.objects[k..]);
      if stop.None? {
        assert (emptied.buckets - {name}) - {name} == emptied.buckets - {name};
      }
    }
  }

  /** Once versioning was ever set, a bucket that holds an object survives every call:
      deleting leaves markers behind, so auto-delete can never finish. */
  lemma VersionedBucketSurvives(w: World, s: Session, name: string)
    requires name in w.buckets && w.buckets[name].versioning != Unset
    requires w.buckets[name].objects != [] || w.buckets[name].retained > 0
    ensures var (after, err) := DeleteBucketEffect(w, s, name);
            && SameElsewhere(w.buckets, after.buckets, name)
            && name in after.buckets
            && after.buckets[name].versioning == w.buckets[name].versioning
            && (after.buckets[name].objects != [] || after.buckets[name].retained > 0)
            && (err.None? ==> w.buckets[name].home != s.endpoint)
  {
    var (listed, keys) := ListCall(w, s, name, "", w.page);
    if keys.Ok? {
      DeleteKeysKeepsTraces(listed, s, name, keys.value);
    }
  }

  lemma {:induction false} DeleteKeysKeepsTraces(w: World, s: Session, name: string, keys: seq<string>)
    requires Denial(w, s, name) == None && w.buckets[name].versioning != Unset
    requires w.buckets[name].objects != [] || w.buckets[name].retained > 0
    ensures var (after, err) := DeleteKeys(w, s, name, keys);
            && SameElsewhere(w.buckets, after.buckets, name)
            && Denial(after, s, name) == None
            && after.buckets[name].versioning == w.buckets[name].versioning
            && (after.buckets[name].objects != [] || after.buckets[name].retained > 0)
    decreases keys
  {
    if keys != [] {
      var (next, err) := DeleteObjectCall(w, s, name, keys[0]);
      Overwrite(w.buckets, name, AfterDelete(w.buckets[name], keys[0]));
      if err.None? {
        DeleteKeysKeepsTraces(next, s, name, keys[1..]);
      }
    }
  }

  /** A store is determined by its entry for `name` and what lies elsewhere. */
  lemma Rebuild(before: Buckets, after: Buckets, name: string)
    requires SameElsewhere(before, after, name)
    ensures after == if name in after then before[name := after[name]] else before - {name}
  {
    forall n | n != name && (n in before || n in after)
      ensures n in before && n in after && before[n] == after[n]
    {
      assert n in before - {name} <==> n in after - {name};
      assert (before - {name})[n] == (after - {name})[n];
    }
  }

  // ---------------------------------------------------------------- retrying

  /** The world after `calls` deletions of the same bucket. */
  function Retried(w: World, s: Session, name: string, calls: nat): World
    decreases calls
  {
    if calls == 0 then w else Retried(DeleteBucketEffect(w, s, name).0, s, name, calls - 1)
  }

  /** One call per page, and one for an empty bucket. */
  function CallsNeeded(n: nat, page: nat): nat
    requires page > 0
  {
    if n <= page then 1 else 1 + CallsNeeded(n - page, page)
  }

  /** In closed form: max(1, ceil(n / page)). */
  lemma {:induction false} CallsNeededIsCeiling(n: nat, page: nat)
    requires page > 0
    ensures var c := CallsNeeded(n, page);
            c >= 1 && n <= c * page && (c > 1 ==> (c - 1) * page < n)
  {
    if n > page {
      CallsNeededIsCeiling(n - page, page);
      var c := CallsNeeded(n - page, page);
      assert (c + 1) * page == c * page + page;
      assert c > 1 ==> c * page == (c - 1) * page + page;
    }
  }

  lemma {:induction false} GoneStaysGone(w: World, s: Session, name: string, calls: nat)
    requires Quiet(w) && name !in w.buckets
    ensures var before := Retried(w, s, name, calls);
            var (after, err) := DeleteBucketEffect(before, s, name);
            err.None? && before.buckets == w.buckets && after.buckets == w.buckets
    decreases calls
  {
    if calls > 0 {
      GoneStaysGone(DeleteBucketEffect(w, s, name).0, s, name, calls - 1);
    }
  }

  /** A fault-free call in full: which of the two outcomes, and the whole store after it. */
  lemma QuietDeletion(w: World, s: Session, name: string)
    requires Quiet(w) && Denial(w, s, name) == None
    requires w.buckets[name].versioning == Unset && w.buckets[name].retained == 0
    ensures var b := w.buckets[name];
            var (after, err) := DeleteBucketEffect(w, s, name);
            && SameCloud(w, after) && Quiet(after)
            && (err.None? <==> |b.objects| <= w.page)
            && after.buckets == if |b.objects| <= w.page then w.buckets - {name}
                                else w.buckets[name := b.(objects := b.objects[w.page..])]
  {
    DeletionRemovesPrefix(w, s, name);
    Rebuild(w.buckets, DeleteBucketEffect(w, s, name).0.buckets, name);
  }

  ghost predicate ConvergedTo(start: Buckets, name: string, page: nat, calls: nat, success: bool, end: Buckets)
    requires name in start && page > 0
  {
    var b := start[name];
    && (success <==> calls >= CallsNeeded(|b.objects|, page))
    && if success then end == start - {name}
       else calls * page <= |b.objects| && end == start[name := b.(objects := b.objects[calls * page..])]
  }

  lemma OnePageEarlier(start: Buckets, name: string, page: nat, calls: nat, success: bool, end: Buckets)
    requires name in start && 0 < page < |start[name].objects| && calls >= 1
    requires var next := start[name := start[name].(objects := start[name].objects[page..])];
             ConvergedTo(next, name, page, calls - 1, success, end)
    ensures ConvergedTo(start, name, page, calls, success, end)
  {
  }

  /** Without faults, the call after `earlier` others succeeds exactly when they and it
      make up max(1, ceil(n / page)) calls: before that each call fails having removed one
      page, from then on the bucket is gone and nothing else ever changes. */
  lemma {:induction false} RetriesConverge(w: World, s: Session, name: string, earlier: nat)
    requires Quiet(w) && w.page > 0
    requires Denial(w, s, name) == None
    requires w.buckets[name].versioning == Unset && w.buckets[name].retained == 0
    ensures var (after, err) := DeleteBucketEffect(Retried(w, s, name, earlier), s, name);
            ConvergedTo(w.buckets, name, w.page, earlier + 1, err.None?, after.buckets)
    decreases earlier, 1
  {
    var b := w.buckets[name];
    QuietDeletion(w, s, name);
    var next := DeleteBucketEffect(w, s, name).0;
    if |b.objects| <= w.page {
      if earlier > 0 {
        GoneStaysGone(next, s, name, earlier - 1);
      }
    } else if earlier > 0 {
      RetriesAfterOnePage(w.buckets, next, s, name, earlier);
    }
  }

  lemma {:induction false} RetriesAfterOnePage(start: Buckets, next: World, s: Session, name: string, earlier: nat)
    requires Quiet(next) && earlier > 0
    requires name in start && 0 < next.page < |start[name].objects|
    requires next.buckets == start[name := start[name].(objects := start[name].objects[next.page..])]
    requires Denial(next, s, name) == None
    requires start[name].versioning == Unset && start[name].retained == 0
    ensures var (after, err) := DeleteBucketEffect(Retried(next, s, name, earlier - 1), s, name);
            ConvergedTo(start, name, next.page, earlier + 1, err.None?, after.buckets)
    decreases earlier, 0
  {
    RetriesConverge(next, s, name, earlier - 1);
    var (after, err) := DeleteBucketEffect(Retried(next, s, name, earlier - 1), s, name);
    OnePageEarlier(start, name, next.page, earlier + 1, err.None?, after.buckets);
  }

  // ---------------------------------------------------------------- retrying under faults

  lemma {:induction false} MissingStaysMissing(w: World, s: Session, name: string, calls: nat)
    requires name !in w.buckets
    ensures Retried(w, s, name, calls).buckets == w.buckets
    decreases calls
  {
    if calls > 0 {
      MissingStaysMissing(DeleteBucketEffect(w, s, name).0, s, name, calls - 1);
    }
  }

  /** The bucket is gone, or has lost at most `limit` objects off the front of its listing;
      nothing else has changed. */
  ghost predicate Dwindled(before: Buckets, after: Buckets, name: string, limit: nat)
    requires name in before
  {
    || after == before - {name}
    || exists k: nat :: k <= limit && k <= |before[name].objects| && IsRest(before, after, name, k)
  }

  ghost predicate IsRest(before: Buckets, after: Buckets, name: string, k: nat)
    requires name in before && k <= |before[name].objects|
  {
    after == before[name := before[name].(objects := before[name].objects[k..])]
  }

  lemma OneCallDwindles(w: World, s: Session, name: string)
    requires name in w.buckets && w.buckets[name].versioning == Unset
    ensures Dwindled(w.buckets, DeleteBucketEffect(w, s, name).0.buckets, name, w.page)
  {
    DeletionRemovesPrefix(w, s, name);
    var next := DeleteBucketEffect(w, s, name).0;
    Rebuild(w.buckets, next.buckets, name);
    if name in next.buckets {
      var b := w.buckets[name];
      var k: nat :| k <= |b.objects| && k <= w.page && next.buckets[name] == b.(objects := b.objects[k..]);
      assert IsRest(w.buckets, next.buckets, name, k);
    }
  }

  lemma RestOfRest(a: Buckets, b: Buckets, c: Buckets, name: string, j: nat, k: nat)
    requires name in a && j <= |a[name].objects| && IsRest(a, b, name, j)
    requires k <= |b[name].objects| && IsRest(b, c, name, k)
    ensures j + k <= |a[name].objects| && IsRest(a, c, name, j + k)
  {
    assert a[name].objects[j..][k..] == a[name].objects[j + k..];
    Replace(a, name, b[name], c[name]);
  }

  lemma DwindledTwice(a: Buckets, b: Buckets, c: Buckets, name: string, j: nat, limit: nat, total: nat)
    requires name in a && j <= |a[name].objects| && IsRest(a, b, name, j) && Dwindled(b, c, name, limit)
    requires j + limit <= total
    ensures Dwindled(a, c, name, total)
  {
    if c == b - {name} {
      Overwrite(a, name, b[name]);
    } else {
      var k: nat :| k <= limit && k <= |b[name].objects| && IsRest(b, c, name, k);
      RestOfRest(a, b, c, name, j, k);
    }
  }

  lemma OneMorePage(calls: nat, page: nat)
    requires calls > 0
    ensures calls * page == (calls - 1) * page + page && (calls - 1) * page >= 0
  {
  }

  /** Any number of calls under any faults: the bucket has lost a prefix of its listing, at
      most a page per call, or the whole bucket is gone; nothing else has changed. */
  lemma {:induction false} RetriesRemovePrefix(w: World, s: Session, name: string, calls: nat)
    requires name in w.buckets && w.buckets[name].versioning == Unset
    ensures Dwindled(w.buckets, Retried(w, s, name, calls).buckets, name, calls * w.page)
    decreases calls
  {
    if calls == 0 {
      assert w.buckets[name].objects[0..] == w.buckets[name].objects;
      assert IsRest(w.buckets, w.buckets, name, 0);
    } else {
      var next := DeleteBucketEffect(w, s, name).0;
      OneCallDwindles(w, s, name);
      DeletionKeepsCloud(w, s, name);
      if name in next.buckets {
        var j: nat :| j <= w.page && j <= |w.buckets[name].objects| && IsRest(w.buckets, next.buckets, name, j);
        RetriesRemovePrefix(next, s, name, calls - 1);
        OneMorePage(calls, w.page);
        DwindledTwice(w.buckets, next.buckets, Retried(w, s, name, calls).buckets, name, j, (calls - 1) * w.page,
                      calls * w.page);
      } else {
        MissingStaysMissing(next, s, name, calls - 1);
      }
    }
  }

  lemma DeletionKeepsCloud(w: World, s: Session, name: string)
    requires name in w.buckets && w.buckets[name].versioning == Unset
    ensures SameCloud(w, DeleteBucketEffect(w, s, name).0)
  {
    DeletionRemovesPrefix(w, s, name);
  }
}
