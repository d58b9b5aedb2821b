/** A concrete deployment: the index document, one hashed script and one
    hashed font in the store, and four requests against it. */
module HandlerScenarios {

  import opened Wrappers
  import opened Strings
  import opened KvStore
  import opened AssetResolver
  import opened ContentPolicy
  import opened StaticHandler

  const Keys: seq<string> := ["index.fd1221fc4e.html", "index-B-8WjzM4.js", "rubik-abc123.woff2"]

  function Deployed(html: Bytes, js: Bytes, font: Bytes): Store {
    Store(Value(Keys), map[Keys[0] := Value(html), Keys[1] := Value(js), Keys[2] := Value(font)])
  }

  lemma DeployedReads(html: Bytes, js: Bytes, font: Bytes)
    ensures var store := Deployed(html, js, font);
      && store.List(ListLimit) == Value(Keys)
      && store.Get(IndexKey) == Value(Some(html))
      && store.Get(Keys[1]) == Value(Some(js))
      && store.Get(Keys[2]) == Value(Some(font))
  {
    assert |Keys| == 3 && Keys[..3] == Keys;
  }

  /** Which listed keys carry which fragments. */
  lemma ScriptKeyFacts()
    ensures !Contains(Keys[0], "index-B-8WjzM4") && Contains(Keys[1], "index-B-8WjzM4")
  {
    NotContainsMissingChar(Keys[0], "index-B-8WjzM4", '-');
    assert OccursAt(Keys[1], "index-B-8WjzM4", 0);
  }

  lemma FontKeyFacts()
    ensures !Contains(Keys[0], "rubik") && !Contains(Keys[1], "rubik") && Contains(Keys[2], "rubik")
  {
    NotContainsMissingChar(Keys[0], "rubik", 'r');
    NotContainsMissingChar(Keys[1], "rubik", 'r');
    assert OccursAt(Keys[2], "rubik", 0);
  }

  lemma MissingScriptKeyFacts()
    ensures forall j :: 0 <= j < |Keys| ==> !Contains(Keys[j], "index-DAIJuZOP")
  {
    NotContainsMissingChar(Keys[0], "index-DAIJuZOP", 'D');
    NotContainsMissingChar(Keys[1], "index-DAIJuZOP", 'D');
    NotContainsMissingChar(Keys[2], "index-DAIJuZOP", 'D');
  }

  /** `assets/index-B-8WjzM4.js` passes the first test of the table. */
  lemma ScriptSelectsFirstEntry(file: string)
    requires file == "assets/index-B-8WjzM4.js"
    ensures FirstPattern(file, Patterns) == Some(0)
  {
    assert file == "assets/" + "index-B-8WjzM4.js" + "";
    OccursBetween("assets/", "index-B-8WjzM4.js", "");
  }

  /** `/assets/index-B-8WjzM4.js` resolves to the hashed script key. */
  lemma ScriptResolves(path: string)
    requires path == "/assets/index-B-8WjzM4.js"
    ensures Resolve(path, Keys) == Some(Keys[1])
  {
    ScriptSelectsFirstEntry(RequestedFile(path));
    ScriptKeyFacts();
    assert IsFirstWith(Keys, 1, "index-B-8WjzM4");
  }

  /** `/assets/index-B-8WjzM4.js` is served as a long-cached script. */
  lemma ScriptRequest(path: string, env: Env, html: Bytes, js: Bytes, font: Bytes)
    requires path == "/assets/index-B-8WjzM4.js"
    ensures Dispatch(path, env, Deployed(html, js, font)).response ==
      Response(200, Blob(js), JavaScript, Some(ImmutableCache))
  {
    ScriptResolves(path);
    assert StartsWith(path, "/assets/");
    assert EndsWith(path, ".js");
    DeployedReads(html, js, font);
    assert Dispatch(path, env, Deployed(html, js, font)) == ServeAfterIndex(path, Keys, Some(html), Deployed(html, js, font));
  }

  /** `fonts/rubik.woff2` contains none of the script and style names. */
  lemma FontFileFacts()
    ensures !Contains("fonts/rubik.woff2", "index-B-8WjzM4.js")
    ensures !Contains("fonts/rubik.woff2", "index-DAIJuZOP.js")
    ensures !Contains("fonts/rubik.woff2", "index-Sbz81UDz.css")
    ensures !Contains("fonts/rubik.woff2", "watch._-DE511lZx.css")
    ensures !Contains("fonts/rubik.woff2", "watch._.lazy-mpnTaOqP.js")
  {
    NotContainsMissingChar("fonts/rubik.woff2", "index-B-8WjzM4.js", 'x');
    NotContainsMissingChar("fonts/rubik.woff2", "index-DAIJuZOP.js", 'x');
    NotContainsLonger("fonts/rubik.woff2", "index-Sbz81UDz.css");
    NotContainsLonger("fonts/rubik.woff2", "watch._-DE511lZx.css");
    NotContainsLonger("fonts/rubik.woff2", "watch._.lazy-mpnTaOqP.js");
  }

  /** `fonts/rubik.woff2` passes none of the first six tests of the table. */
  lemma FontSkipsScriptEntries(file: string)
    requires file == "fonts/rubik.woff2"
    ensures forall j :: 0 <= j < 6 ==> !Satisfies(file, Patterns[j].test)
  {
    FontFileFacts();
  }

  lemma FontSelectsRubik(file: string)
    requires file == "fonts/rubik.woff2"
    ensures FirstPattern(file, Patterns) == Some(6)
  {
    FontSkipsScriptEntries(file);
    assert file == "fonts/" + "rubik.woff2" + "";
    OccursBetween("fonts/", "rubik.woff2", "");
    assert Satisfies(file, Patterns[6].test);
  }

  /** `/fonts/rubik.woff2` resolves to the hashed font key. */
  lemma FontResolves(path: string)
    requires path == "/fonts/rubik.woff2"
    ensures Resolve(path, Keys) == Some(Keys[2])
  {
    FontSelectsRubik(RequestedFile(path));
    FontKeyFacts();
    forall j | 0 <= j < 2 ensures !Contains(Keys[j], "rubik") {
      if j == 0 { } else { assert j == 1; }
    }
    assert IsFirstWith(Keys, 2, "rubik");
  }

  /** `/fonts/rubik.woff2` is served as a long-cached font. */
  lemma FontRequest(path: string, env: Env, html: Bytes, js: Bytes, font: Bytes)
    requires path == "/fonts/rubik.woff2"
    ensures Dispatch(path, env, Deployed(html, js, font)).response ==
      Response(200, Blob(font), Woff2, Some(ImmutableCache))
  {
    FontResolves(path);
    assert StartsWith(path, "/fonts/");
    assert EndsWith(path, ".woff2");
    DeployedReads(html, js, font);
    assert Dispatch(path, env, Deployed(html, js, font)) == ServeAfterIndex(path, Keys, Some(html), Deployed(html, js, font));
  }

  /** A client-side route gets the index document. */
  lemma ClientRouteRequest(path: string, env: Env, html: Bytes, js: Bytes, font: Bytes)
    requires path == "/unknown/path"
    ensures Dispatch(path, env, Deployed(html, js, font)).response == OkHtml(html)
  {
    if StartsWith(path, "/assets/") { StartsWithAt(path, "/assets/", 1); }
    if StartsWith(path, "/fonts/") { StartsWithAt(path, "/fonts/", 1); }
    if StartsWith(path, "/api") { StartsWithAt(path, "/api", 1); }
    var store := Deployed(html, js, font);
    assert !IsAssetPath(path);
    DeployedReads(html, js, font);
    assert Dispatch(path, env, store) == ServeAfterIndex(path, Keys, Some(html), store);
  }

  lemma MissingScriptFileFacts()
    ensures !Contains("assets/index-DAIJuZOP.js", "index-B-8WjzM4.js")
    ensures Contains("assets/index-DAIJuZOP.js", "index-DAIJuZOP.js")
  {
    NotContainsMissingChar("assets/index-DAIJuZOP.js", "index-B-8WjzM4.js", 'B');
    assert "assets/index-DAIJuZOP.js" == "assets/" + "index-DAIJuZOP.js" + "";
    OccursBetween("assets/", "index-DAIJuZOP.js", "");
  }

  /** `assets/index-DAIJuZOP.js` passes the second test of the table. */
  lemma MissingScriptSelectsSecondEntry(file: string)
    requires file == "assets/index-DAIJuZOP.js"
    ensures FirstPattern(file, Patterns) == Some(1)
  {
    MissingScriptFileFacts();
    assert !Satisfies(file, Patterns[0].test);
    assert Satisfies(file, Patterns[1].test);
  }

  /** A script the pattern table knows but no deployed key carries does not
      resolve. */
  lemma MissingScriptDoesNotResolve(path: string)
    requires path == "/assets/index-DAIJuZOP.js"
    ensures Resolve(path, Keys) == None
  {
    MissingScriptSelectsSecondEntry(RequestedFile(path));
    MissingScriptKeyFacts();
  }

  /** That miss falls through to the index document, not to 500. */
  lemma MissingScriptRequest(path: string, env: Env, html: Bytes, js: Bytes, font: Bytes)
    requires path == "/assets/index-DAIJuZOP.js"
    ensures Dispatch(path, env, Deployed(html, js, font)).response == OkHtml(html)
  {
    MissingScriptDoesNotResolve(path);
    assert StartsWith(path, "/assets/");
    if StartsWith(path, "/api") { StartsWithAt(path, "/api", 2); }
    DeployedReads(html, js, font);
    assert Dispatch(path, env, Deployed(html, js, font)) == ServeAfterIndex(path, Keys, Some(html), Deployed(html, js, font));
  }
}
