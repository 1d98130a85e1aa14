/** The address bar and the search engines: how typed input becomes a URL,
    which homepage each engine has, and which custom engines are accepted. */
module Navigation {
  import opened Wrappers
  import opened Text

  /** The engine table used when the settings store holds none. */
  function DefaultSearchEngines(): map<string, string> {
    map[
      "Google" := "https://www.google.com/search?q={}",
      "Bing" := "https://www.bing.com/search?q={}",
      "DuckDuckGo" := "https://duckduckgo.com/?q={}",
      "Yahoo" := "https://search.yahoo.com/search?p={}",
      "Ecosia" := "https://www.ecosia.org/search?q={}"
    ]
  }

  /** Input the address bar passes through as it is. */
  predicate HasExplicitScheme(input: string) {
    StartsWith(input, "http://") || StartsWith(input, "https://") || StartsWith(input, "file://")
  }

  /** Input taken for a domain name: it has a dot and no space. */
  predicate LooksLikeDomain(input: string) {
    Contains(input, ".") && !Contains(input, " ")
  }

  /** Why `navigate_to_url` raises instead of loading: the current engine is
      not in the table (a `KeyError`), or its template cannot be filled. */
  datatype NavError = UnknownEngine | BadTemplate(error: FormatError)

  /** The URL `navigate_to_url` hands to the current tab for the address-bar
      text `input`, or the exception it raises. `encode` is the engine's
      percent-encoding of the search term. */
  function AddressBarTarget(input: string, engines: map<string, string>, engine: string,
                            encode: string -> string): Result<string, NavError>
  {
    if HasExplicitScheme(input) then Ok(input)
    else if LooksLikeDomain(input) then Ok("http://" + input)
    else if engine !in engines then Err(UnknownEngine)
    else
      match Format(engines[engine], encode(input))
      case Ok(url) => Ok(url)
      case Err(e) => Err(BadTemplate(e))
  }

  /** Only a search can raise; a URL or a domain name always loads, and what
      it loads starts with a scheme, so typing the loaded URL again loads it
      unchanged. */
  lemma {:induction false} DirectTargetIsStable(input: string, engines: map<string, string>,
                                                engine: string, encode: string -> string)
    requires HasExplicitScheme(input) || LooksLikeDomain(input)
    ensures AddressBarTarget(input, engines, engine, encode).Ok?
    ensures var url := AddressBarTarget(input, engines, engine, encode).value;
      HasExplicitScheme(url) && AddressBarTarget(url, engines, engine, encode) == Ok(url)
  {
    if !HasExplicitScheme(input) {
      var url := "http://" + input;
      assert url[..7] == "http://";
      assert StartsWith(url, "http://");
    }
  }

  /** A search puts the encoded term into the slot of the current engine's
      template: `pre + encode(input) + post`. */
  lemma SearchFillsTemplate(input: string, engines: map<string, string>, engine: string,
                            encode: string -> string, pre: string, post: string)
    requires !HasExplicitScheme(input) && !LooksLikeDomain(input)
    requires engine in engines && engines[engine] == pre + "{}" + post
    requires BraceFree(pre) && BraceFree(post)
    ensures AddressBarTarget(input, engines, engine, encode) == Ok(pre + encode(input) + post)
  {
    FormatOnePlaceholder(pre, post, encode(input));
  }

  /** `get_search_engine_url`: the homepage of the named engine, Google's
      for a name it does not know. */
  function EngineHomepage(engine: string): (url: string)
    ensures HasExplicitScheme(url)
    ensures engine !in DefaultSearchEngines() ==> url == "https://www.google.com"
  {
    var url := EngineHomepageTable(engine);
    assert url[..8] == "https://";
    url
  }

  function EngineHomepageTable(engine: string): string {
    if engine == "Google" then "https://www.google.com"
    else if engine == "Bing" then "https://www.bing.com"
    else if engine == "DuckDuckGo" then "https://duckduckgo.com"
    else if engine == "Yahoo" then "https://www.yahoo.com"
    else if engine == "Ecosia" then "https://www.ecosia.org"
    else "https://www.google.com"
  }

  /** `add_search_engine` stores the engine exactly when this holds: a
      non-empty name and a non-empty template holding `{}`. */
  predicate AcceptsSearchEngine(name: string, template: string) {
    |name| > 0 && |template| > 0 && Contains(template, "{}")
  }

  /** Every default engine would pass the same check. */
  lemma DefaultEnginesAccepted(name: string)
    requires name in DefaultSearchEngines()
    ensures AcceptsSearchEngine(name, DefaultSearchEngines()[name])
  {
    var t := DefaultSearchEngines()[name];
    assert OccursAt(t, "{}", |t| - 2);
    ContainsIffOccurs(t, "{}");
  }

  /** The check looks for `{}` only: a template with two slots is accepted
      under any non-empty name, and every later search with it raises. */
  lemma AcceptedTemplateCanRaise(input: string, engines: map<string, string>, engine: string,
                                 encode: string -> string, pre: string, mid: string, post: string)
    requires !HasExplicitScheme(input) && !LooksLikeDomain(input)
    requires |engine| > 0 && engine in engines && engines[engine] == pre + "{}" + mid + "{}" + post
    requires BraceFree(pre) && BraceFree(mid)
    ensures AcceptsSearchEngine(engine, engines[engine])
    ensures AddressBarTarget(input, engines, engine, encode) == Err(BadTemplate(IndexOutOfRange))
  {
    var t := engines[engine];
    assert t[|pre|..|pre| + 2] == "{}";
    assert OccursAt(t, "{}", |pre|);
    ContainsIffOccurs(t, "{}");
    FormatTwoPlaceholdersFails(pre, mid, post, encode(input));
  }
}
