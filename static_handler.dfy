/** The catch-all `GET *` handler that serves the single-page application
    out of the key-value store (server/app.ts, lines 36-109). One request
    reads the store at most three times (the listing, the index document,
    possibly one asset) and ends in exactly one of: the debug report, the
    index document, a static asset, the SPA fallback, 404 or 500. */
module StaticHandler {

  import opened Wrappers
  import opened Strings
  import opened KvStore
  import opened AssetResolver
  import opened ContentPolicy

  /** The index document, stored under its build-hashed name. */
  const IndexKey := "index.fd1221fc4e.html"

  /** The handler lists at most this many keys. */
  const ListLimit: nat := 50

  const HtmlType := "text/html"
  /** Content types Hono's `c.json` and `c.text` helpers put on their replies. */
  const JsonType := "application/json"
  const TextReplyType := "text/plain; charset=UTF-8"

  const BasicAuth := "basic-auth-enabled"
  const NoAuth := "no-auth-required"

  /** The bindings the handler reads: `USERNAME` and `PASSWORD` may be unset. */
  datatype Env = Env(username: Option<string>, password: Option<string>, debridToken: string)

  /** JavaScript truthiness of an optional string. */
  predicate Truthy(s: Option<string>) {
    s.Some? && s.value != ""
  }

  /** The fields of the `/debug` JSON payload. */
  datatype DebugReport = DebugReport(
    path: string,
    kvKeys: seq<string>,
    totalKvKeys: nat,
    authMode: string,
    hasUsername: bool,
    hasPassword: bool,
    hasDebridToken: bool)

  datatype Body = Blob(data: Bytes) | PlainText(text: string) | Json(report: DebugReport)

  /** A reply: status, body, `Content-Type` and the optional `Cache-Control`. */
  datatype Response = Response(status: nat, body: Body, contentType: string, cacheControl: Option<string>)

  /** The reply together with the store reads performed, in order. */
  datatype Outcome = Outcome(response: Response, ops: seq<Op>)

  /** Lines 41-49: the diagnostic payload. */
  function Report(path: string, keys: seq<string>, env: Env): (d: DebugReport)
    ensures d.path == path && d.kvKeys == keys && d.totalKvKeys == |keys|
    ensures d.hasUsername <==> env.username.Some? && env.username.value != ""
    ensures d.hasPassword <==> env.password.Some? && env.password.value != ""
    ensures d.hasDebridToken <==> env.debridToken != ""
    ensures d.authMode == BasicAuth <==> d.hasUsername && d.hasPassword
    ensures d.authMode == NoAuth <==> !(d.hasUsername && d.hasPassword)
  {
    DebugReport(
      path, keys, |keys|,
      if Truthy(env.username) && Truthy(env.password) then BasicAuth else NoAuth,
      Truthy(env.username), Truthy(env.password), env.debridToken != "")
  }

  function OkHtml(index: Bytes): Response {
    Response(200, Blob(index), HtmlType, None)
  }

  const NotFound := Response(404, PlainText("Not Found"), TextReplyType, None)

  /** Lines 105-107: a store fault, caught at the handler boundary. */
  function ServerError(message: string): Response {
    Response(500, PlainText("Static file error: " + message), TextReplyType, None)
  }

  /** Line 62: the paths that trigger an asset lookup. */
  predicate IsAssetPath(path: string) {
    StartsWith(path, "/assets/") || StartsWith(path, "/fonts/") || path == "/favicon.ico"
  }

  /** Line 98: the paths that may get the SPA fallback. */
  predicate OutsideApi(path: string) {
    !StartsWith(path, "/api")
  }

  /** Lines 98-104: what a request gets when no earlier branch answered. */
  function Fallback(path: string, index: Option<Bytes>): (r: Response)
    ensures r.status == 200 <==> OutsideApi(path) && index.Some?
    ensures r.status == 200 ==> r == OkHtml(index.value)
    ensures r.status != 200 ==> r == NotFound
  {
    if OutsideApi(path) && index.Some? then OkHtml(index.value) else NotFound
  }

  /** Lines 62-104, once the listing and the index read have succeeded. */
  function ServeAfterIndex(path: string, keys: seq<string>, index: Option<Bytes>, store: Store): (o: Outcome)
    requires path != "/" || index.None?
  {
    var prefix := [ListOp(ListLimit), GetOp(IndexKey)];
    if !IsAssetPath(path) then Outcome(Fallback(path, index), prefix)
    else match Resolve(path, keys)
      case None => Outcome(Fallback(path, index), prefix)
      case Some(k) =>
        match store.Get(k)
        case Fault(m) => Outcome(ServerError(m), prefix + [GetOp(k)])
        case Value(None) => Outcome(Fallback(path, index), prefix + [GetOp(k)])
        case Value(Some(b)) =>
          Outcome(Response(200, Blob(b), ContentType(path), CacheControl(path)), prefix + [GetOp(k)])
  }

  /** The whole handler as a result-threading function: each store read
      either yields its value to the next step or ends the request with 500. */
  function Dispatch(path: string, env: Env, store: Store): Outcome {
    match store.List(ListLimit)
    case Fault(m) => Outcome(ServerError(m), [ListOp(ListLimit)])
    case Value(keys) =>
      if path == "/debug" then
        Outcome(Response(200, Json(Report(path, keys, env)), JsonType, None), [ListOp(ListLimit)])
      else match store.Get(IndexKey)
        case Fault(m) => Outcome(ServerError(m), [ListOp(ListLimit), GetOp(IndexKey)])
        case Value(index) =>
          if path == "/" && index.Some? then Outcome(OkHtml(index.value), [ListOp(ListLimit), GetOp(IndexKey)])
          else ServeAfterIndex(path, keys, index, store)
  }

  /** Lines 81-85: `let contentType` and its chain of reassignments; the
      step-by-step version of `ContentType`. */
  method SelectContentType(path: string) returns (contentType: string)
    ensures contentType == ContentType(path)
  {
    contentType := TextPlain;
    if EndsWith(path, ".css") {
      contentType := TextCss;
    } else if EndsWith(path, ".js") {
      contentType := JavaScript;
    } else if EndsWith(path, ".ico") {
      contentType := Icon;
    } else if EndsWith(path, ".woff2") {
      contentType := Woff2;
    }
  }

  /** The handler as the source runs it: reads in sequence, early returns,
      the try/catch boundary as a return on the first fault, and the
      content type built by reassignment. `ops` records each read as it is
      issued. The step-by-step version of `Dispatch`. */
  method Handle(path: string, env: Env, store: Store) returns (resp: Response, ops: seq<Op>)
    ensures Outcome(resp, ops) == Dispatch(path, env, store)
  {
    ops := [ListOp(ListLimit)];
    var listed := store.List(ListLimit);
    if listed.Fault? {
      resp := ServerError(listed.message);
      return;
    }
    var kvKeys := listed.value;

    if path == "/debug" {
      resp := Response(200, Json(Report(path, kvKeys, env)), JsonType, None);
      return;
    }

    ops := ops + [GetOp(IndexKey)];
    var fetched := store.Get(IndexKey);
    if fetched.Fault? {
      resp := ServerError(fetched.message);
      return;
    }
    var indexAsset := fetched.value;

    if path == "/" && indexAsset.Some? {
      resp := OkHtml(indexAsset.value);
      return;
    }

    resp, ops := ServeAsset(path, kvKeys, indexAsset, store);
  }

  /** Lines 62-104: the asset lookup with its fall-through to the SPA
      fallback and to 404; the step-by-step version of `ServeAfterIndex`. */
  method ServeAsset(path: string, kvKeys: seq<string>, indexAsset: Option<Bytes>, store: Store)
    returns (resp: Response, ops: seq<Op>)
    requires path != "/" || indexAsset.None?
    ensures Outcome(resp, ops) == ServeAfterIndex(path, kvKeys, indexAsset, store)
  {
    ops := [ListOp(ListLimit), GetOp(IndexKey)];
    if IsAssetPath(path) {
      var matchingKey := Resolve(path, kvKeys);
      if matchingKey.Some? {
        ops := ops + [GetOp(matchingKey.value)];
        var asset := store.Get(matchingKey.value);
        if asset.Fault? {
          resp := ServerError(asset.message);
          return;
        }
        if asset.value.Some? {
          resp := AssetResponse(path, asset.value.value);
          return;
        }
      }
    }
    resp := SpaFallback(path, indexAsset);
  }

  /** Lines 81-92: a found asset, with its content type and cache header,
      built as the source builds its `Headers`. */
  method AssetResponse(path: string, data: Bytes) returns (resp: Response)
    ensures resp == Response(200, Blob(data), ContentType(path), CacheControl(path))
  {
    var contentType := SelectContentType(path);
    var cacheControl := None;
    if InHashedDirectory(path) {
      cacheControl := Some(ImmutableCache);
    }
    resp := Response(200, Blob(data), contentType, cacheControl);
  }

  /** Lines 97-104: the SPA fallback, else 404; the step-by-step version
      of `Fallback`. */
  method SpaFallback(path: string, indexAsset: Option<Bytes>) returns (resp: Response)
    ensures resp == Fallback(path, indexAsset)
  {
    if !StartsWith(path, "/api") && indexAsset.Some? {
      resp := OkHtml(indexAsset.value);
      return;
    }
    resp := NotFound;
  }
}
