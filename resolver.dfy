/** The asset-key resolver of the static-file handler (server/app.ts, lines
    64-76): it maps a stable request path such as `/assets/index-B-8WjzM4.js`
    to the content-hashed key that stores it, through a fixed, ordered table
    of file-name patterns. */
module AssetResolver {

  import opened Wrappers
  import opened Strings

  /** How a pattern tests the requested file: `includes` or `===`. */
  datatype FileTest = Includes(fragment: string) | Equals(name: string)

  /** A table entry: the test on the requested file, and the fragment that a
      key name must contain to serve it. */
  datatype Pattern = Pattern(test: FileTest, keyFragment: string)

  /** The build's table, in the order the source tries it. */
  const Patterns: seq<Pattern> := [
    Pattern(Includes("index-B-8WjzM4.js"), "index-B-8WjzM4"),
    Pattern(Includes("index-DAIJuZOP.js"), "index-DAIJuZOP"),
    Pattern(Includes("index-Sbz81UDz.css"), "index-Sbz81UDz"),
    Pattern(Includes("watch._-DE511lZx.css"), "watch._-DE511lZx"),
    Pattern(Includes("watch._.lazy-mpnTaOqP.js"), "watch._.lazy-mpnTaOqP"),
    Pattern(Equals("favicon.ico"), "favicon"),
    Pattern(Includes("rubik.woff2"), "rubik")
  ]

  /** Index of the favicon entry in `Patterns`. */
  const FaviconEntry: nat := 5

  predicate Satisfies(file: string, test: FileTest) {
    match test
    case Includes(f) => Contains(file, f)
    case Equals(n) => file == n
  }

  /** `path.substring(1)`: the path without its first character. */
  function RequestedFile(path: string): (file: string)
    ensures |path| > 0 ==> [path[0]] + file == path
    ensures |path| == 0 ==> file == ""
  {
    if |path| == 0 then "" else path[1..]
  }

  /** The position of the first entry of `table` whose test the file satisfies. */
  function FirstPattern(file: string, table: seq<Pattern>): (r: Option<nat>)
    ensures r.Some? ==> r.value < |table| && Satisfies(file, table[r.value].test)
    ensures r.Some? ==> forall j :: 0 <= j < r.value ==> !Satisfies(file, table[j].test)
    ensures r.None? <==> forall j :: 0 <= j < |table| ==> !Satisfies(file, table[j].test)
  {
    if table == [] then None
    else if Satisfies(file, table[0].test) then Some(0)
    else match FirstPattern(file, table[1..])
      case None => None
      case Some(i) => Some(i + 1)
  }

  /** The key fragment the requested file selects, if any pattern applies. */
  function SelectedFragment(file: string): Option<string> {
    match FirstPattern(file, Patterns)
    case None => None
    case Some(i) => Some(Patterns[i].keyFragment)
  }

  /** The callback given to `find`, written as the source writes it: the
      first test the requested file passes decides the answer for this key. */
  predicate KeyMatches(file: string, keyName: string) {
    if Contains(file, "index-B-8WjzM4.js") then Contains(keyName, "index-B-8WjzM4")
    else if Contains(file, "index-DAIJuZOP.js") then Contains(keyName, "index-DAIJuZOP")
    else if Contains(file, "index-Sbz81UDz.css") then Contains(keyName, "index-Sbz81UDz")
    else if Contains(file, "watch._-DE511lZx.css") then Contains(keyName, "watch._-DE511lZx")
    else if Contains(file, "watch._.lazy-mpnTaOqP.js") then Contains(keyName, "watch._.lazy-mpnTaOqP")
    else if file == "favicon.ico" then Contains(keyName, "favicon")
    else if Contains(file, "rubik.woff2") then Contains(keyName, "rubik")
    else false
  }

  /** The hand-written callback is the first-match rule over `Patterns`. */
  lemma KeyMatchesFollowsTable(file: string, keyName: string)
    ensures KeyMatches(file, keyName) <==>
      SelectedFragment(file).Some? && Contains(keyName, SelectedFragment(file).value)
  {
    var r := FirstPattern(file, Patterns);
    // Entry 0 .. 6 in turn: the first test that holds fixes r.
    if Satisfies(file, Patterns[0].test) {
      assert r == Some(0);
    } else if Satisfies(file, Patterns[1].test) {
      assert r == Some(1);
    } else if Satisfies(file, Patterns[2].test) {
      assert r == Some(2);
    } else if Satisfies(file, Patterns[3].test) {
      assert r == Some(3);
    } else if Satisfies(file, Patterns[4].test) {
      assert r == Some(4);
    } else if Satisfies(file, Patterns[5].test) {
      assert r == Some(5);
    } else if Satisfies(file, Patterns[6].test) {
      assert r == Some(6);
    } else {
      assert r == None;
    }
  }

  lemma KeyMatchesFollowsTableAll(file: string)
    ensures forall k :: KeyMatches(file, k) <==>
      SelectedFragment(file).Some? && Contains(k, SelectedFragment(file).value)
  {
    forall k { KeyMatchesFollowsTable(file, k); }
  }

  /** `keys.find(pred)` as a position: the first key that `pred` accepts. */
  function FirstAccepted(keys: seq<string>, file: string): (r: Option<nat>)
    ensures r.Some? ==> r.value < |keys| && KeyMatches(file, keys[r.value])
    ensures r.Some? ==> forall j :: 0 <= j < r.value ==> !KeyMatches(file, keys[j])
    ensures r.None? <==> forall j :: 0 <= j < |keys| ==> !KeyMatches(file, keys[j])
  {
    if keys == [] then None
    else if KeyMatches(file, keys[0]) then Some(0)
    else match FirstAccepted(keys[1..], file)
      case None => None
      case Some(i) => Some(i + 1)
  }

  /** `keys[i]` is the first key, in listing order, that contains `fragment`. */
  ghost predicate IsFirstWith(keys: seq<string>, i: int, fragment: string) {
    0 <= i < |keys| && Contains(keys[i], fragment) &&
    forall j :: 0 <= j < i ==> !Contains(keys[j], fragment)
  }

  /** Lines 64-76: the key that serves `path`, or `None` (a miss). */
  function Resolve(path: string, keys: seq<string>): (r: Option<string>)
    ensures r.Some? ==> r.value in keys
    ensures r.Some? ==> SelectedFragment(RequestedFile(path)).Some?
    ensures r.Some? ==> Contains(r.value, SelectedFragment(RequestedFile(path)).value)
    ensures r.Some? ==> exists i :: IsFirstWith(keys, i, SelectedFragment(RequestedFile(path)).value) && keys[i] == r.value
    ensures r.None? <==> (SelectedFragment(RequestedFile(path)).None? ||
      forall k :: k in keys ==> !Contains(k, SelectedFragment(RequestedFile(path)).value))
  {
    var file := RequestedFile(path);
    KeyMatchesFollowsTableAll(file);
    match FirstAccepted(keys, file)
    case None => None
    case Some(i) => Some(keys[i])
  }

  /** On `favicon.ico` no earlier `includes` test fires, since every earlier
      fragment is longer than that name. */
  lemma FaviconNameSelectsFavicon()
    ensures FirstPattern("favicon.ico", Patterns) == Some(FaviconEntry)
  {
    var file := "favicon.ico";
    forall j | 0 <= j < FaviconEntry ensures !Satisfies(file, Patterns[j].test) {
      NotContainsLonger(file, Patterns[j].test.fragment);
    }
    assert Satisfies(file, Patterns[FaviconEntry].test);
  }

  /** Only the favicon entry selects the fragment `favicon`. */
  lemma OnlyFaviconEntrySelectsFavicon(i: nat)
    requires i < |Patterns| && Patterns[i].keyFragment == "favicon"
    ensures i == FaviconEntry
  {
  }

  /** The favicon entry is chosen exactly when the requested file is
      `favicon.ico` itself. */
  lemma FaviconSelectedOnlyForExactName(file: string)
    ensures SelectedFragment(file) == Some("favicon") <==> file == "favicon.ico"
  {
    if file == "favicon.ico" {
      FaviconNameSelectsFavicon();
    }
    if SelectedFragment(file) == Some("favicon") {
      var r := FirstPattern(file, Patterns);
      OnlyFaviconEntrySelectsFavicon(r.value);
    }
  }

  /** `/favicon.ico` resolves exactly when some listed key contains
      `favicon`, and then to the first such key. */
  lemma FaviconResolution(keys: seq<string>)
    ensures Resolve("/favicon.ico", keys).Some? <==> exists k :: k in keys && Contains(k, "favicon")
    ensures Resolve("/favicon.ico", keys).Some? ==>
      exists i :: IsFirstWith(keys, i, "favicon") && keys[i] == Resolve("/favicon.ico", keys).value
  {
    assert RequestedFile("/favicon.ico") == "favicon.ico";
    FaviconSelectedOnlyForExactName("favicon.ico");
  }
}
