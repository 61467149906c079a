/** When the one-key listing of CheckObjectPathExistence finds a path. */
module ObjectPath {
  import opened Wrappers
  import opened Text
  import opened Store
  import opened Backend

  /** Strict lexicographic order, the order of a listing. */
  ghost predicate Before(a: string, b: string) {
    b != "" && (a == "" || a[0] < b[0] || (a[0] == b[0] && Before(a[1..], b[1..])))
  }

  ghost predicate Sorted(keys: seq<string>) {
    forall i, j :: 0 <= i < j < |keys| ==> Before(keys[i], keys[j])
  }

  lemma {:induction false} BeforeIsAsymmetric(a: string, b: string)
    requires Before(a, b)
    ensures !Before(b, a) && a != b
  {
    if a != "" && a[0] == b[0] {
      BeforeIsAsymmetric(a[1..], b[1..]);
    }
  }

  lemma {:induction false} PrefixComesFirst(p: string, k: string)
    requires HasPrefix(k, p) && p != k
    ensures Before(p, k)
  {
    if p != "" {
      assert p[0] == k[0];
      PrefixComesFirst(p[1..], k[1..]);
    }
  }

  /** A listing keeps exactly the keys with the prefix, and its first entry is the least. */
  lemma {:induction false} FirstMatch(keys: seq<string>, prefix: string)
    requires Sorted(keys)
    ensures var found := Matching(keys, prefix);
            if found == [] then forall k :: k in keys ==> !HasPrefix(k, prefix)
            else found[0] in keys && HasPrefix(found[0], prefix) &&
                 forall k :: k in keys && HasPrefix(k, prefix) ==> k == found[0] || Before(found[0], k)
  {
    if keys != [] {
      FirstMatch(keys[1..], prefix);
      forall k | k in keys
        ensures k == keys[0] || (k in keys[1..] && Before(keys[0], k))
      {
        var i :| 0 <= i < |keys| && keys[i] == k;
        assert i > 0 ==> k == keys[1..][i - 1];
      }
    }
  }

  /** The one-key listing under `q` shows the path. */
  predicate ShowsPath(keys: seq<string>, q: string) {
    var first := Take(Matching(keys, q), 1);
    |first| == 1 && (first[0] == q || TrimSuffix(first[0], "/") == q)
  }

  /** The check looks only, and finds the path iff it is served and the listing shows it. */
  lemma PathCheckIff(w: World, s: Session, name: string, objectPath: string)
    requires Denial(w, s, name) == None
    ensures var (after, r) := ObjectPathEffect(w, s, name, objectPath);
            && after.buckets == w.buckets
            && (w.fates(w.clock) == Served ==> r == Ok(ShowsPath(w.buckets[name].objects, ListingPrefix(objectPath))))
            && (w.fates(w.clock) != Served ==> r.Err?)
  {
  }

  lemma TrimmedSlash(k: string, q: string)
    ensures TrimSuffix(k, "/") == q <==> k == q + "/" || (k == q && !HasSuffix(k, "/"))
  {
    if HasSuffix(k, "/") {
      assert k == k[..|k| - 1] + "/";
    }
  }

  /** In listing order, the first key shows the path iff `q` is a key, or `q` followed by one
      more slash is the least key under it. */
  lemma ShowsPathIff(keys: seq<string>, q: string)
    requires Sorted(keys)
    ensures ShowsPath(keys, q) <==>
              q in keys ||
              (q + "/" in keys && forall k :: k in keys && HasPrefix(k, q) && k != q + "/" ==> Before(q + "/", k))
  {
    var found := Matching(keys, q);
    FirstMatch(keys, q);
    if found != [] {
      TrimmedSlash(found[0], q);
      assert Take(found, 1)[0] == found[0];
      if q in keys && found[0] != q {
        PrefixComesFirst(q, found[0]);
        BeforeIsAsymmetric(q, found[0]);
      }
      if q + "/" in keys && found[0] != q + "/" {
        assert Before(found[0], q + "/");
        if forall k :: k in keys && HasPrefix(k, q) && k != q + "/" ==> Before(q + "/", k) {
          BeforeIsAsymmetric(found[0], q + "/");
        }
      }
    }
  }

  /** The path is reported present iff its normalised form Q (ending in a slash) is a key,
      or Q followed by one more slash is the least key under Q. A directory that exists
      only through deeper keys is therefore reported absent. */
  lemma PathFoundIff(w: World, s: Session, name: string, objectPath: string)
    requires Denial(w, s, name) == None && w.fates(w.clock) == Served
    requires Sorted(w.buckets[name].objects)
    ensures var keys := w.buckets[name].objects;
            var q := ListingPrefix(objectPath);
            var (after, r) := ObjectPathEffect(w, s, name, objectPath);
            && after.buckets == w.buckets
            && r.Ok?
            && (r.value <==>
                  (q in keys ||
                   (q + "/" in keys &&
                    forall k :: k in keys && HasPrefix(k, q) && k != q + "/" ==> Before(q + "/", k))))
  {
    PathCheckIff(w, s, name, objectPath);
    ShowsPathIff(w.buckets[name].objects, ListingPrefix(objectPath));
  }

  /** A path without slashes at its ends gets one at its end; otherwise one leading and one
      trailing slash do not matter. */
  lemma SlashesIgnored(path: string)
    ensures !HasPrefix(path, "/") && !HasSuffix(path, "/") ==> ListingPrefix(path) == path + "/"
    ensures !HasPrefix(path, "/") ==> ListingPrefix("/" + path) == ListingPrefix(path)
    ensures !HasSuffix(path, "/") && path != "" ==> ListingPrefix(path + "/") == ListingPrefix(path)
    ensures HasSuffix(ListingPrefix(path), "/")
  {
    assert ("/" + path)[1..] == path;
    if path != "" && !HasSuffix(path, "/") {
      assert path[|path| - 1..] == [path[|path| - 1]];
      assert (path + "/")[|path|..] == "/";
      if HasPrefix(path, "/") {
        assert (path + "/")[1..] == path[1..] + "/";
      }
    }
  }
}
