/** What the static-file handler promises, stated over `Dispatch` (and so,
    through `Handle`'s postcondition, over the handler as it runs). */
module HandlerProperties {

  import opened Wrappers
  import opened Strings
  import opened KvStore
  import opened AssetResolver
  import opened ContentPolicy
  import opened StaticHandler

  /** The listing the handler works with, when it is readable. */
  function Listing(store: Store): (keys: seq<string>)
    requires store.names.Value?
    ensures |keys| <= ListLimit && |keys| <= |store.names.value|
    ensures keys == store.names.value[..|keys|]
  {
    store.List(ListLimit).value
  }

  /** `/debug` answers 200 from the listing alone, or 500 when the listing
      itself faults (it is read before the path is looked at). */
  lemma DebugReply(env: Env, store: Store)
    ensures var o := Dispatch("/debug", env, store);
      o.ops == [ListOp(ListLimit)] &&
      (store.names.Value? ==>
        o.response.status == 200 && o.response.contentType == JsonType &&
        o.response.body == Json(Report("/debug", Listing(store), env))) &&
      (store.names.Fault? ==> o.response == ServerError(store.names.message))
  {
  }

  /** The fields of the debug payload. */
  lemma DebugReportFields(env: Env, store: Store)
    requires store.names.Value?
    ensures var d := Dispatch("/debug", env, store).response.body.report;
      d.path == "/debug" &&
      d.kvKeys == Listing(store) && d.totalKvKeys == |Listing(store)| <= ListLimit &&
      (d.authMode == BasicAuth <==> Truthy(env.username) && Truthy(env.password)) &&
      (d.authMode == NoAuth <==> !Truthy(env.username) || !Truthy(env.password)) &&
      d.hasUsername == Truthy(env.username) && d.hasPassword == Truthy(env.password) &&
      d.hasDebridToken == (env.debridToken != "")
  {
    DebugReply(env, store);
  }

  /** `/` with the index document present answers exactly its bytes as HTML. */
  lemma IndexReply(env: Env, store: Store, index: Bytes)
    requires store.names.Value?
    requires store.Get(IndexKey) == Value(Some(index))
    ensures Dispatch("/", env, store) == Outcome(OkHtml(index), [ListOp(ListLimit), GetOp(IndexKey)])
  {
  }

  /** `/` without the index document is 404. */
  lemma RootWithoutIndex(env: Env, store: Store)
    requires store.names.Value?
    requires IndexKey !in store.blobs
    ensures Dispatch("/", env, store).response == NotFound
  {
  }

  /** The reads of `ServeAfterIndex`: the listing, the index document and,
      for an asset path that resolved, that one key. */
  lemma AfterIndexReads(path: string, keys: seq<string>, index: Option<Bytes>, store: Store)
    requires path != "/" || index.None?
    ensures var ops := ServeAfterIndex(path, keys, index, store).ops;
      && 2 <= |ops| <= 3 && ops[..2] == [ListOp(ListLimit), GetOp(IndexKey)]
      && (|ops| == 3 <==> IsAssetPath(path) && Resolve(path, keys).Some?)
      && (|ops| == 3 ==> ops[2] == GetOp(Resolve(path, keys).value) && ops[2].key in keys)
  {
    if IsAssetPath(path) && Resolve(path, keys).Some? {
      var k := Resolve(path, keys).value;
      assert ServeAfterIndex(path, keys, index, store).ops == [ListOp(ListLimit), GetOp(IndexKey), GetOp(k)];
    }
  }

  /** The reads a request performs: the listing first, then the index
      document, then at most one asset, always a listed key that the
      resolver chose, and only for an asset path. */
  lemma ReadsPerformed(path: string, env: Env, store: Store)
    ensures var ops := Dispatch(path, env, store).ops;
      1 <= |ops| <= 3 && ops[0] == ListOp(ListLimit) &&
      (|ops| >= 2 ==> ops[1] == GetOp(IndexKey)) &&
      (|ops| == 1 <==> store.names.Fault? || path == "/debug") &&
      (|ops| == 3 ==>
        && IsAssetPath(path) && store.names.Value?
        && Resolve(path, Listing(store)).Some?
        && ops[2] == GetOp(Resolve(path, Listing(store)).value)
        && ops[2].key in Listing(store))
  {
    if store.names.Value? && path != "/debug" && store.Get(IndexKey).Value? {
      var keys := Listing(store);
      var index := store.Get(IndexKey).value;
      if !(path == "/" && index.Some?) {
        var ops := ServeAfterIndex(path, keys, index, store).ops;
        assert Dispatch(path, env, store).ops == ops;
        AfterIndexReads(path, keys, index, store);
        assert ops[0] == ops[..2][0] && ops[1] == ops[..2][1];
      }
    }
  }

  /** The reply depends on the store only through the reads in `ops`: two
      stores with the same listing that agree on every key the request
      reads give the same outcome. So `ops` records every read. */
  lemma ReadsDetermineOutcome(path: string, env: Env, s: Store, t: Store)
    requires s.names == t.names
    requires forall k :: GetOp(k) in Dispatch(path, env, s).ops ==> s.Get(k) == t.Get(k)
    ensures Dispatch(path, env, s) == Dispatch(path, env, t)
  {
    assert s.List(ListLimit) == t.List(ListLimit);
    if s.names.Value? && path != "/debug" {
      ReadsPerformed(path, env, s);
      var ops := Dispatch(path, env, s).ops;
      assert ops[1] == GetOp(IndexKey) && GetOp(IndexKey) in ops;
      assert s.Get(IndexKey) == t.Get(IndexKey);
      if s.Get(IndexKey).Value? {
        var keys := Listing(s);
        var index := s.Get(IndexKey).value;
        if !(path == "/" && index.Some?) {
          assert Dispatch(path, env, s) == ServeAfterIndex(path, keys, index, s);
          assert Dispatch(path, env, t) == ServeAfterIndex(path, keys, index, t);
          if IsAssetPath(path) && Resolve(path, keys).Some? {
            var k := Resolve(path, keys).value;
            assert ops[2] == GetOp(k) && GetOp(k) in ops;
            assert s.Get(k) == t.Get(k);
          }
        }
      }
    }
  }

  /** No path outside the asset prefixes reads any key but the index. */
  lemma OnlyAssetPathsReadAssets(path: string, env: Env, store: Store)
    requires !IsAssetPath(path)
    ensures forall op :: op in Dispatch(path, env, store).ops ==>
      op == ListOp(ListLimit) || op == GetOp(IndexKey)
  {
    ReadsPerformed(path, env, store);
  }

  /** An asset hit: the stored bytes, the type for the path's suffix and the
      long-lived cache header exactly for the hashed directories. */
  lemma AssetHit(path: string, env: Env, store: Store, key: string, bytes: Bytes)
    requires IsAssetPath(path)
    requires store.names.Value? && store.Get(IndexKey).Value?
    requires Resolve(path, Listing(store)) == Some(key)
    requires store.Get(key) == Value(Some(bytes))
    ensures var r := Dispatch(path, env, store).response;
      r == Response(200, Blob(bytes), ContentType(path), CacheControl(path)) &&
      (r.cacheControl == Some(ImmutableCache) <==> InHashedDirectory(path)) &&
      (r.cacheControl.None? <==> path == "/favicon.ico")
  {
    var keys := Listing(store);
    var index := store.Get(IndexKey).value;
    assert path != "/";
    assert Dispatch(path, env, store) == ServeAfterIndex(path, keys, index, store);
    FaviconPolicy();
  }

  /** A favicon hit is an icon without a cache header. */
  lemma FaviconHit(env: Env, store: Store, key: string, bytes: Bytes)
    requires store.names.Value? && store.Get(IndexKey).Value?
    requires Resolve("/favicon.ico", Listing(store)) == Some(key)
    requires store.Get(key) == Value(Some(bytes))
    ensures Dispatch("/favicon.ico", env, store).response ==
      Response(200, Blob(bytes), Icon, None)
  {
    FaviconPolicy();
    AssetHit("/favicon.ico", env, store, key, bytes);
  }

  /** An asset miss, whether nothing resolved or the resolved key reads as
      `null`, is not an error: it falls through to the SPA fallback. */
  lemma AssetMiss(path: string, env: Env, store: Store, index: Option<Bytes>)
    requires IsAssetPath(path)
    requires store.names.Value? && store.Get(IndexKey) == Value(index)
    requires var k := Resolve(path, Listing(store)); k.None? || store.Get(k.value) == Value(None)
    ensures Dispatch(path, env, store).response == Fallback(path, index)
  {
  }

  /** Every other path gets the SPA fallback: the index document as HTML
      outside `/api` when it is present, else 404. */
  lemma OtherPaths(path: string, env: Env, store: Store, index: Option<Bytes>)
    requires !IsAssetPath(path) && path != "/debug" && path != "/"
    requires store.names.Value? && store.Get(IndexKey) == Value(index)
    ensures var r := Dispatch(path, env, store).response;
      r == Fallback(path, index) &&
      (OutsideApi(path) && index.Some? ==> r == OkHtml(index.value)) &&
      (!OutsideApi(path) || index.None? ==> r == NotFound)
  {
  }

  /** A path under `/api` is never an asset path. */
  lemma ApiIsNotAssetPath(path: string)
    requires StartsWith(path, "/api")
    ensures !IsAssetPath(path) && path != "/" && path != "/debug"
  {
    StartsWithAt(path, "/api", 1);
    StartsWithAt(path, "/api", 2);
    if StartsWith(path, "/assets/") { StartsWithAt(path, "/assets/", 2); }
    if StartsWith(path, "/fonts/") { StartsWithAt(path, "/fonts/", 1); }
  }

  /** The handler never serves a path under `/api`: 404, or 500 on a fault. */
  lemma ApiPathsNotServed(path: string, env: Env, store: Store)
    requires StartsWith(path, "/api")
    ensures Dispatch(path, env, store).response.status in {404, 500}
  {
    ApiIsNotAssetPath(path);
  }

  /** The fault accounting of `ServeAfterIndex`, whose first two reads
      (the listing and the index document) have succeeded. */
  lemma AfterIndexFaults(path: string, keys: seq<string>, index: Option<Bytes>, store: Store)
    requires path != "/" || index.None?
    requires !store.Faults(ListOp(ListLimit)) && !store.Faults(GetOp(IndexKey))
    ensures var o := ServeAfterIndex(path, keys, index, store);
      && |o.ops| >= 2
      && o.response.status in {200, 404, 500}
      && (forall i :: 0 <= i < |o.ops| - 1 ==> !store.Faults(o.ops[i]))
      && (o.response.status == 500 <==> store.Faults(o.ops[|o.ops| - 1]))
      && (o.response.status == 500 ==> o.response == ServerError(store.FaultMessage(o.ops[|o.ops| - 1])))
  {
    var o := ServeAfterIndex(path, keys, index, store);
    var prefix := [ListOp(ListLimit), GetOp(IndexKey)];
    if IsAssetPath(path) && Resolve(path, keys).Some? {
      var k := Resolve(path, keys).value;
      var ops := prefix + [GetOp(k)];
      assert ops[0] == ListOp(ListLimit) && ops[1] == GetOp(IndexKey) && ops[2] == GetOp(k);
      match store.Get(k)
      case Fault(m) =>
        assert o == Outcome(ServerError(m), ops);
      case Value(None) =>
        assert o == Outcome(Fallback(path, index), ops);
      case Value(Some(b)) =>
        assert o == Outcome(Response(200, Blob(b), ContentType(path), CacheControl(path)), ops);
    } else {
      assert o == Outcome(Fallback(path, index), prefix);
    }
  }

  /** Faults and only faults give 500; the request stops at the first read
      that faults, and the reply carries that read's message. */
  lemma FaultIsServerError(path: string, env: Env, store: Store)
    ensures var o := Dispatch(path, env, store);
      && |o.ops| > 0
      && o.response.status in {200, 404, 500}
      && (forall i :: 0 <= i < |o.ops| - 1 ==> !store.Faults(o.ops[i]))
      && (o.response.status == 500 <==> store.Faults(o.ops[|o.ops| - 1]))
      && (o.response.status == 500 ==> o.response == ServerError(store.FaultMessage(o.ops[|o.ops| - 1])))
  {
    var o := Dispatch(path, env, store);
    if store.names.Fault? || path == "/debug" {
      assert o.ops == [ListOp(ListLimit)];
    } else if store.Get(IndexKey).Fault? || (path == "/" && store.Get(IndexKey).value.Some?) {
      assert o.ops == [ListOp(ListLimit), GetOp(IndexKey)];
    } else {
      var keys := Listing(store);
      var index := store.Get(IndexKey).value;
      assert o == ServeAfterIndex(path, keys, index, store);
      AfterIndexFaults(path, keys, index, store);
    }
  }

  /** A reply is 500 exactly when one of the reads it performed faulted. */
  lemma ServerErrorIffSomeReadFaults(path: string, env: Env, store: Store)
    ensures var o := Dispatch(path, env, store);
      o.response.status == 500 <==> exists i :: 0 <= i < |o.ops| && store.Faults(o.ops[i])
  {
    var o := Dispatch(path, env, store);
    FaultIsServerError(path, env, store);
    if o.response.status == 500 {
      assert store.Faults(o.ops[|o.ops| - 1]);
    }
  }
}
