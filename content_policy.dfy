/** The content-type and cache policy applied to a served asset
    (server/app.ts, lines 81-90). */
module ContentPolicy {

  import opened Wrappers
  import opened Strings

  const TextPlain := "text/plain"
  const TextCss := "text/css"
  const JavaScript := "application/javascript"
  const Icon := "image/x-icon"
  const Woff2 := "font/woff2"

  /** The directive for content-hashed, never-changing files. */
  const ImmutableCache := "public, max-age=31536000"

  /** No path ends with two of the four recognised suffixes: each pair
      differs in one of its last two characters. */
  lemma SuffixesExclusive(path: string)
    ensures !(EndsWith(path, ".css") && EndsWith(path, ".js"))
    ensures !(EndsWith(path, ".css") && EndsWith(path, ".ico"))
    ensures !(EndsWith(path, ".css") && EndsWith(path, ".woff2"))
    ensures !(EndsWith(path, ".js") && EndsWith(path, ".ico"))
    ensures !(EndsWith(path, ".js") && EndsWith(path, ".woff2"))
    ensures !(EndsWith(path, ".ico") && EndsWith(path, ".woff2"))
  {
    if EndsWith(path, ".css") { EndsWithAt(path, ".css", 1); EndsWithAt(path, ".css", 2); }
    if EndsWith(path, ".js") { EndsWithAt(path, ".js", 1); EndsWithAt(path, ".js", 2); }
    if EndsWith(path, ".ico") { EndsWithAt(path, ".ico", 1); }
    if EndsWith(path, ".woff2") { EndsWithAt(path, ".woff2", 1); }
  }

  /** Lines 81-85: the content type, chosen by the path's suffix. Since the
      suffixes exclude each other, each type is given exactly for its own
      suffix, whatever order the tests are tried in. */
  function ContentType(path: string): (t: string)
    ensures t == TextCss <==> EndsWith(path, ".css")
    ensures t == JavaScript <==> EndsWith(path, ".js")
    ensures t == Icon <==> EndsWith(path, ".ico")
    ensures t == Woff2 <==> EndsWith(path, ".woff2")
    ensures t == TextPlain <==>
      !EndsWith(path, ".css") && !EndsWith(path, ".js") &&
      !EndsWith(path, ".ico") && !EndsWith(path, ".woff2")
  {
    SuffixesExclusive(path);
    if EndsWith(path, ".css") then TextCss
    else if EndsWith(path, ".js") then JavaScript
    else if EndsWith(path, ".ico") then Icon
    else if EndsWith(path, ".woff2") then Woff2
    else TextPlain
  }

  /** The two directories whose files are content-hashed. */
  predicate InHashedDirectory(path: string) {
    StartsWith(path, "/assets/") || StartsWith(path, "/fonts/")
  }

  /** Lines 87-90: the `Cache-Control` header, if any. */
  function CacheControl(path: string): (c: Option<string>)
    ensures c.Some? <==> InHashedDirectory(path)
    ensures c.Some? ==> c.value == ImmutableCache
  {
    if InHashedDirectory(path) then Some(ImmutableCache) else None
  }

  /** `/favicon.ico` is an icon and is never given the cache header. */
  lemma FaviconPolicy()
    ensures ContentType("/favicon.ico") == Icon
    ensures CacheControl("/favicon.ico") == None
  {
    assert EndsWith("/favicon.ico", ".ico");
    if StartsWith("/favicon.ico", "/assets/") { StartsWithAt("/favicon.ico", "/assets/", 1); }
    if StartsWith("/favicon.ico", "/fonts/") { StartsWithAt("/favicon.ico", "/fonts/", 2); }
  }
}
