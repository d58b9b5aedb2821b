# Static asset dispatcher of rdebrid-ui, in Dafny

This project models the catch-all `GET *` handler of the edge server in
`server/app.ts`. The handler serves the single-page application out of a
key-value store. It reads the store at most three times: the key listing
(at most 50 names), the index document under its hashed name
`index.fd1221fc4e.html`, and at most one asset. Each request then ends in
exactly one of these outcomes:

- the `/debug` report;
- the index document for `/`;
- a static asset for `/assets/*`, `/fonts/*` or `/favicon.ico`, with its
  content type and cache policy;
- the SPA fallback (the index document for any other path outside `/api`);
- `404 Not Found`, or `500` when a store read faults.

Modules, leaves first:

- `Wrappers` (`wrappers.dfy`): `Option`, which stands for JavaScript's
  `null` / `undefined`.
- `Strings` (`strings.dfy`): `startsWith`, `endsWith` and `includes` over
  `seq<char>`, with small facts about them.
- `KvStore` (`kv_store.dfy`): the store as a value. It holds the full
  listing (or the fault that reading it raises) and a partial map from keys
  to bytes (or to a fault). `List(limit)` and `Get(key)` return
  `Value(...)` or `Fault(message)`. `Op` names one read, so the handler can
  report which reads it made.
- `AssetResolver` (`resolver.dfy`): the pattern table of lines 68-74 as
  data, the `find` callback written as the source writes it, a lemma that
  the callback is the table's first-match rule, and `Resolve`.
- `ContentPolicy` (`content_policy.dfy`): content type by suffix, and
  `Cache-Control` by directory prefix.
- `StaticHandler` (`static_handler.dfy`): the response datatypes and
  `Dispatch`, the handler written as a function that threads each read's
  result. It also has `Handle`, the handler written as the source runs it:
  reads in sequence, early returns, the try/catch as a return at the first
  fault, and `contentType` set by reassignment. `Handle` is proved equal to
  `Dispatch`, so every lemma about `Dispatch` also holds for `Handle`.
- `HandlerProperties` (`handler_properties.dfy`): what the handler
  promises, stated over `Dispatch`.
- `HandlerScenarios` (`scenarios.dfy`): one concrete deployment (the index,
  `index-B-8WjzM4.js` and `rubik-abc123.woff2`) and four requests
  against it.

Three consequences of the code worth knowing:

- A listing fault gives 500 even for `/debug`, because line 38 reads the
  listing before line 40 tests the path (`DebugReply`).
- An asset path whose key is not listed falls through to line 98. It gets
  the index document when the index is present, and 404 only when it is
  absent (`AssetMiss`, `MissingScriptRequest`).
- `startsWith("/api")` at line 98 has no trailing slash, so `/apiary` gets
  404 (`ApiPathsNotServed`).

## Model

| member | source | states |
|---|---|---|
| `KvStore.Store.List` | server/app.ts:38 | The listing holds exactly the first min(limit, n) stored names, in store order. A failing listing gives a fault with the same message. |
| `KvStore.Store.Get` | server/app.ts:53 | A read gives `null` exactly when the key is not stored. It faults exactly when the stored read faults, and then carries that fault's message. Otherwise it gives the stored bytes. |
| `AssetResolver.RequestedFile` | server/app.ts:64 | `substring(1)` removes exactly the first character, and gives `""` for the empty path. |
| `AssetResolver.FirstPattern` | server/app.ts:68-75 | Gives the position of the first table entry whose test the file passes, with every earlier entry failing. Gives none exactly when no entry passes. |
| `AssetResolver.KeyMatches` | server/app.ts:65-76 | The `find` callback as written. `KeyMatchesFollowsTable` states that it is the table's first-match rule. |
| `AssetResolver.KeyMatchesFollowsTable` | server/app.ts:65-76 | The hand-written `find` callback accepts a key exactly when some entry applies to the file and the key contains the fragment of the first entry that applies. |
| `AssetResolver.FirstAccepted` | server/app.ts:65-76 | `find` gives the first listed key the callback accepts, and none exactly when the callback accepts no key. |
| `AssetResolver.Resolve` | server/app.ts:64-76 | A resolved key is always in the listing, and it contains the fragment of the first entry the file passes. It is the first listed key that contains that fragment. The result is none exactly when no entry applies, or when no listed key contains the fragment. |
| `AssetResolver.FaviconNameSelectsFavicon` | server/app.ts:68-73 | The file `favicon.ico` fails every earlier `includes` test and picks the favicon entry. |
| `AssetResolver.FaviconSelectedOnlyForExactName` | server/app.ts:73 | The fragment `favicon` is chosen if and only if the requested file is exactly `favicon.ico`. |
| `AssetResolver.FaviconResolution` | server/app.ts:64-76 | `/favicon.ico` resolves if and only if some listed key contains `favicon`, and then to the first such key. |
| `ContentPolicy.SuffixesExclusive` | server/app.ts:82-85 | No path ends with two of `.css`, `.js`, `.ico`, `.woff2`, so the order of the tests does not change the outcome. |
| `ContentPolicy.ContentType` | server/app.ts:81-85 | Each type is given exactly for its own suffix: `text/css` for `.css`, `application/javascript` for `.js`, `image/x-icon` for `.ico`, `font/woff2` for `.woff2`. `text/plain` is given exactly when none of these applies. |
| `ContentPolicy.CacheControl` | server/app.ts:87-90 | The header is present exactly for paths under `/assets/` or `/fonts/`, and its value is then `public, max-age=31536000`. |
| `ContentPolicy.FaviconPolicy` | server/app.ts:81-90 | `/favicon.ico` is `image/x-icon` and gets no cache header. |
| `StaticHandler.Report` | server/app.ts:41-49 | The payload echoes the path and the listing, and `totalKvKeys` is the listing's length. Each `has*` flag is true exactly when that binding is set and non-empty. `authMode` is `basic-auth-enabled` exactly when both the username and the password are set, and `no-auth-required` otherwise. |
| `StaticHandler.Fallback` | server/app.ts:98-104 | The reply is 200 exactly when the path is outside `/api` and the index is present, and it is then the index as HTML. Any other reply is exactly the 404 `Not Found`. |
| `StaticHandler.IsAssetPath` | server/app.ts:62 | The guard of the asset branch. Its meaning is stated by `OnlyAssetPathsReadAssets`, `ApiIsNotAssetPath` and `AssetHit`. |
| `StaticHandler.ServeAfterIndex` | server/app.ts:62-104 | The handler after its first two reads succeed. Its reads are stated by `AfterIndexReads`, and its fault rule by `AfterIndexFaults`. |
| `StaticHandler.Dispatch` | server/app.ts:36-109 | The whole handler as a function. Its promises are the `HandlerProperties` lemmas, and `Handle` is proved equal to it. |
| `StaticHandler.SelectContentType` | server/app.ts:81-85 | The chain of reassignments to `contentType` ends at the type of the path's suffix. |
| `StaticHandler.ServeAsset` | server/app.ts:62-104 | The asset branch and its fall-through, run step by step, give the same reply and the same reads as `ServeAfterIndex`. |
| `StaticHandler.AssetResponse` | server/app.ts:81-92 | A found asset is a 200 with its bytes, the content type of the path's suffix, and the cache header exactly under the hashed directories. |
| `StaticHandler.SpaFallback` | server/app.ts:97-104 | The final branch answers exactly the SPA fallback: the index as HTML outside `/api` when present, else the 404. |
| `StaticHandler.Handle` | server/app.ts:36-109 | The imperative handler gives exactly the reply and the read sequence of `Dispatch`. |
| `HandlerProperties.Listing` | server/app.ts:38 | The handler sees at most 50 names, a prefix of the store's listing. |
| `HandlerProperties.DebugReply` | server/app.ts:38-50 | `/debug` reads only the listing. It answers 200 with the JSON report of that listing, or 500 with the fault message when the listing faults. |
| `HandlerProperties.DebugReportFields` | server/app.ts:40-49 | The debug report holds the listing, `totalKvKeys` equal to its length (at most 50), the three presence flags, and the `authMode` rule in both directions. |
| `HandlerProperties.IndexReply` | server/app.ts:53-59 | `/` with the index present answers exactly the index bytes as `text/html`, after reading only the listing and the index. |
| `HandlerProperties.RootWithoutIndex` | server/app.ts:53-104 | `/` with the index absent answers the 404 `Not Found`. |
| `HandlerProperties.AfterIndexReads` | server/app.ts:62-95 | After the listing and the index, there are two or three reads. A third read happens exactly for an asset path whose key resolved, and it reads that listed key. |
| `HandlerProperties.ReadsPerformed` | server/app.ts:38-95 | The first read is the listing, the second is the index, and there are at most three reads. There is one read exactly when the listing faults or the path is `/debug`. A third read happens only for an asset path, and it reads the key `Resolve` chose from the listing. |
| `HandlerProperties.ReadsDetermineOutcome` | server/app.ts:38-95 | Two stores with the same listing that agree on every key the request reads give the same reply and reads, so the recorded reads are all the reads the handler depends on. |
| `HandlerProperties.OnlyAssetPathsReadAssets` | server/app.ts:62 | A path that is not an asset path reads nothing but the listing and the index key. |
| `HandlerProperties.AssetHit` | server/app.ts:78-92 | A resolved and present asset is served with status 200, its bytes, the content type of the path's suffix, and the cache header exactly under `/assets/` or `/fonts/`. Among asset paths only `/favicon.ico` gets no cache header. |
| `HandlerProperties.FaviconHit` | server/app.ts:62-92 | A favicon hit is `image/x-icon` with no cache header. |
| `HandlerProperties.AssetMiss` | server/app.ts:78-104 | If no key resolved, or the resolved key reads as `null`, the request falls through to the SPA fallback and does not fail. |
| `HandlerProperties.OtherPaths` | server/app.ts:97-104 | Any other path outside `/api` with the index present gets the index as HTML. Otherwise it gets the 404. |
| `HandlerProperties.ApiIsNotAssetPath` | server/app.ts:62 | A path under `/api` is not `/`, not `/debug`, and passes none of the asset tests. |
| `HandlerProperties.ApiPathsNotServed` | server/app.ts:62-104 | A path under `/api` is never served by this handler: the reply is 404, or 500 on a fault. |
| `HandlerProperties.AfterIndexFaults` | server/app.ts:78-108 | Once the listing and the index have been read, the reply is 500 exactly when the asset read faults, and it then carries that fault's message. |
| `HandlerProperties.FaultIsServerError` | server/app.ts:105-108 | The status is always 200, 404 or 500, and every read before the last one succeeded. The reply is 500 exactly when the last read faulted, and it is then `Static file error: ` followed by that fault's message. |
| `HandlerProperties.ServerErrorIffSomeReadFaults` | server/app.ts:38-108 | The reply is 500 if and only if one of the reads it made faulted. A fault never gives 200 or 404. |
| `HandlerScenarios.ScriptRequest` | server/app.ts:62-92 | `/assets/index-B-8WjzM4.js` is served from `index-B-8WjzM4.js` as `application/javascript`, with the cache header. |
| `HandlerScenarios.FontRequest` | server/app.ts:62-92 | `/fonts/rubik.woff2` is served from `rubik-abc123.woff2` as `font/woff2`, with the cache header. |
| `HandlerScenarios.ClientRouteRequest` | server/app.ts:97-102 | `/unknown/path` gets the index document as HTML. |
| `HandlerScenarios.MissingScriptRequest` | server/app.ts:68-102 | `/assets/index-DAIJuZOP.js` matches a pattern, but no listed key carries its fragment. The request falls through to the index document rather than failing. |

## Left out

- Hono wiring (server/app.ts lines 1-33 and 111): the CORS and logger middleware, the environment adapter and the `/api` router. The `./routes` module is not part of this model. The handler is modelled for the requests that reach it.
- HTTP methods: only the `GET` route is modelled.
- The `console.error` call on line 106: logging has no effect on the reply.
- JSON serialisation of the debug payload: only its fields and their values are modelled.
- Content types that Hono's helpers set: `c.json` and `c.text` are library code, and the model gives them the constants `application/json` and `text/plain; charset=UTF-8`.
- Paging of the key listing: the store's cursor is not modelled. The listing is only cut to its first 50 names.
- Asynchrony and request lifecycle: each request is one sequential computation over an immutable store value. No shared state and no cancellation are modelled.
- Error values that are not `Error` objects: a store fault always carries a message string. The source would print `undefined` for a thrown value without `message`.
- Strings: JavaScript strings are UTF-16, and `c.req.path` is the decoded path. The model compares Dafny characters, with no encoding or normalisation.
- The UI files (`ui/components/side-nav.tsx`, `ui/components/navbar.tsx`, `ui/routes/_authed.tsx`): they do React rendering and layout, with no decision logic outside the component tree.
