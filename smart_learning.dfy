/** The smart learning system (ai-easyeda-compiler/smart-learning-system.js):
  * a text is classified as a component or an instruction by two lists of
  * patterns, with a language model deciding when neither list matches;
  * components are looked up on several sources, the results saved as JSON,
  * and instructions appended to a rules file. The regexes of the two pattern
  * lists and of the specification scraper, the network, the model, JSON and
  * the file system are parameters. */
module SmartLearning {
  import opened Wrappers
  import opened Strings
  import opened Seqs

  const DefaultModel := "deepseek-r1:7b"
  const AllDataSheetHost := "https://www.alldatasheet.com"
  const AllDataSheetSearch := AllDataSheetHost + "/view.jsp?Searchword="
  const SnapEdaSearch := "https://www.snapeda.com/search/?q="
  const RulesFile := "rules-md/AUTO_GENERATED_RULES.md"
  const RulesHeader := "# Auto-Generated Design Rules\n\n"
  const ScrapedDir := "knowledge-base/web-scraped/"
  const CompleteSuffix := "_complete.json"
  const Component := "component"
  const Instruction := "instruction"
  const Unknown := "unknown"

  // ---------------------------------------------------------------------
  // validateComponent and aiValidation
  // ---------------------------------------------------------------------

  /** A regex's `test` on the whole input. */
  type Pattern = string -> bool

  /** `componentPatterns`: the IC patterns and the instruction patterns. */
  datatype Patterns = Patterns(icPatterns: seq<Pattern>, notComponentPatterns: seq<Pattern>)

  /** `patterns.some(p => p.test(text))`. */
  predicate AnyMatch(ps: seq<Pattern>, text: string)
  {
    exists i :: 0 <= i < |ps| && ps[i](text)
  }

  datatype Action = SearchDatasheet | StoreAsRule

  /** The record validateComponent returns; a field the source leaves out
    * is None. */
  datatype Validation = Validation(
    kind: Option<string>, text: Option<string>, name: Option<string>,
    confidence: Option<int>, action: Option<Action>)

  /** The fields of the model's JSON answer that are read; a missing field
    * is None. */
  datatype AiReply = AiReply(kind: Option<string>, confidence: Option<int>)

  /** What a GET returns: the body, an `error` event, or an exception
    * raised by `https.get` itself (an invalid or non-https URL). */
  datatype Reply = Body(body: string) | NetError(message: string) | Thrown(message: string)

  /** The outside world of the system: `get` is `https.get`, `encode` is
    * `encodeURIComponent`, `github` the GitHub repository search,
    * `ollama(model, prompt)` the language model, `parseReply` JSON.parse
    * of its classification answer with the fields read off (None when the
    * parse throws or the value is null, whose `.type` throws; a number or
    * a string is a reply without fields), `parseProfile` JSON.parse of its
    * synthesis answer (None only when the parse throws: any value, null
    * included, is the profile), `stringify` the JSON text of the sources,
    * `readFile` a file's content (None when it cannot be read),
    * `writeError` the error of writing a path (None when the write
    * succeeds), `specMatch(key, html)` the first capture of the scraper
    * pattern for `key`, and `clock` the ISO time of the call. */
  datatype World = World(
    get: string -> Reply,
    encode: string -> string,
    github: string -> Result<string>,
    ollama: (string, string) -> Result<string>,
    parseReply: string -> Option<AiReply>,
    parseProfile: string -> Option<string>,
    stringify: Sources -> string,
    readFile: string -> Option<string>,
    writeError: string -> Option<string>,
    specMatch: (string, string) -> Option<string>,
    clock: string)

  function InstructionFound(text: string): Validation
  {
    Validation(Some(Instruction), Some(text), None, None, Some(StoreAsRule))
  }

  function ComponentFound(text: string): Validation
  {
    Validation(Some(Component), None, Some(text), None, Some(SearchDatasheet))
  }

  function Unclassified(text: string): Validation
  {
    Validation(Some(Unknown), Some(text), None, None, None)
  }

  const AiPromptHead := "Analyze this text and determine " + "if it's:\nA) An electronic " +
    "component/IC (like LM358, ESP32" + ", resistor, capacitor)\nB) An " +
    "instruction or design rule (like" + " \"use bypass capacitors\", " +
    "\"connect power\")\n\nText: \""
  const AiPromptTail := "\"\n\nRespond ONLY with JSON:\n{\n" + "  \"type\": \"component\" or " +
    "\"instruction\",\n  \"confidence\": " + "0-100,\n  \"reasoning\": \"brief " +
    "explanation\"\n}"

  function AiPrompt(text: string): string
  {
    AiPromptHead + text + AiPromptTail
  }

  /** aiValidation: the model's type is taken as given, and only the type
    * "component" leads to a datasheet search; a failed call or an answer
    * that does not parse gives "unknown" with no action. */
  function AiValidation(w: World, text: string): (r: Validation)
    ensures r.action.None? <==>
      (w.ollama(DefaultModel, AiPrompt(text)).Err? || w.parseReply(w.ollama(DefaultModel, AiPrompt(text)).value).None?)
    ensures r.action.None? ==> r == Unclassified(text)
    ensures r.action == Some(SearchDatasheet) <==> r.action.Some? && r.kind == Some(Component)
    ensures r.action.Some? ==>
      var reply := w.parseReply(w.ollama(DefaultModel, AiPrompt(text)).value).value;
      r.kind == reply.kind && r.confidence == reply.confidence
    ensures r.text == Some(text) && r.name.None?
  {
    match w.ollama(DefaultModel, AiPrompt(text))
    case Err(_) => Unclassified(text)
    case Ok(response) =>
      match w.parseReply(response)
      case None => Unclassified(text)
      case Some(reply) =>
        Validation(reply.kind, Some(text), None, reply.confidence,
          Some(if reply.kind == Some(Component) then SearchDatasheet else StoreAsRule))
  }

  /** validateComponent: an instruction pattern wins over the IC patterns;
    * the model is asked only when neither list matches. The source's last
    * `unknown` return cannot be reached. */
  function ValidateComponent(p: Patterns, w: World, text: string): (r: Validation)
    ensures AnyMatch(p.notComponentPatterns, text) ==> r == InstructionFound(text)
    ensures r == ComponentFound(text) <==>
      AnyMatch(p.icPatterns, text) && !AnyMatch(p.notComponentPatterns, text)
    ensures !AnyMatch(p.icPatterns, text) && !AnyMatch(p.notComponentPatterns, text) ==> r == AiValidation(w, text)
  {
    var isComponent := AnyMatch(p.icPatterns, text);
    var isInstruction := AnyMatch(p.notComponentPatterns, text);
    if !isComponent && !isInstruction then AiValidation(w, text)
    else if isInstruction then InstructionFound(text)
    else ComponentFound(text)
  }

  // ---------------------------------------------------------------------
  // processInput dispatch
  // ---------------------------------------------------------------------

  datatype Route = Gather(component: string) | Store(rule: string)

  const ReferencePrefix := "[Reference] "

  /** processInput's branch on the validation: a search gathers data for
    * `validation.name || input`, a rule stores `validation.text`, and
    * anything else stores the input as reference text. */
  function RouteOf(v: Validation, input: string): Route
  {
    if v.action == Some(SearchDatasheet) then Gather(OrDefault(v.name, input))
    else if v.action == Some(StoreAsRule) then Store(Shown(v.text))
    else Store(ReferencePrefix + input)
  }

  /** The routes processInput takes: an instruction is stored as given, a
    * pattern-matched component or a model-confirmed one is searched under
    * the input's own name, a failed model call stores it as reference
    * text, and any other answer of the model stores it as a rule. */
  lemma RoutesOfInput(p: Patterns, w: World, input: string)
    ensures var v := ValidateComponent(p, w, input);
      && (AnyMatch(p.notComponentPatterns, input) ==> RouteOf(v, input) == Store(input))
      && (AnyMatch(p.icPatterns, input) && !AnyMatch(p.notComponentPatterns, input) ==>
            RouteOf(v, input) == Gather(input))
      && (!AnyMatch(p.icPatterns, input) && !AnyMatch(p.notComponentPatterns, input) ==>
            var a := AiValidation(w, input);
            RouteOf(v, input) ==
              if a.action.None? then Store(ReferencePrefix + input)
              else if a.kind == Some(Component) then Gather(input)
              else Store(input))
  {
  }

  /** Every route names the input: it is searched for, stored, or stored
    * behind the reference prefix. */
  lemma RouteKeepsInput(p: Patterns, w: World, input: string)
    ensures RouteOf(ValidateComponent(p, w, input), input) in
      {Gather(input), Store(input), Store(ReferencePrefix + input)}
  {
    RoutesOfInput(p, w, input);
  }

  // ---------------------------------------------------------------------
  // extractDatasheetLinks
  // ---------------------------------------------------------------------

  /** `href="` at position `p`, in any letter case (the regexes carry the
    * `i` flag). */
  predicate HrefAt(html: string, p: nat)
  {
    p + 6 <= |html| && LowerChar(html[p]) == 'h' && LowerChar(html[p + 1]) == 'r' &&
    LowerChar(html[p + 2]) == 'e' && LowerChar(html[p + 3]) == 'f' && html[p + 4] == '=' && html[p + 5] == '"'
  }

  /** The first quote at or after `i`. */
  function QuoteFrom(html: string, i: nat): (r: Option<nat>)
    decreases |html| - i
    ensures r.Some? ==> i <= r.value < |html| && html[r.value] == '"'
    ensures r.Some? ==> forall k :: i <= k < r.value ==> html[k] != '"'
    ensures r.None? ==> forall k :: i <= k < |html| ==> html[k] != '"'
  {
    if i >= |html| then None else if html[i] == '"' then Some(i) else QuoteFrom(html, i + 1)
  }

  /** The first match, at or after `from`, of `href="(...)"` whose quoted
    * part satisfies `accept`, as the start and end of the quoted part (the
    * closing quote is at the end). `[^"]*` cannot pass a quote, so the
    * captured part is everything up to the next quote. */
  function NextHref(html: string, from: nat, accept: string -> bool): (r: Option<(nat, nat)>)
    decreases |html| - from
    ensures r.Some? ==> from + 6 <= r.value.0 <= r.value.1 < |html|
  {
    if from + 6 > |html| then None
    else if !HrefAt(html, from) then NextHref(html, from + 1, accept)
    else match QuoteFrom(html, from + 6)
      case None => NextHref(html, from + 1, accept)
      case Some(q) => if accept(html[from + 6..q]) then Some((from + 6, q)) else NextHref(html, from + 1, accept)
  }

  /** A match starts with `href="`, ends at the next quote, and its quoted
    * part is accepted. */
  lemma {:induction false} NextHrefSound(html: string, from: nat, accept: string -> bool)
    requires NextHref(html, from, accept).Some?
    ensures var (s, q) := NextHref(html, from, accept).value;
      HrefAt(html, s - 6) && html[q] == '"' && '"' !in html[s..q] && accept(html[s..q])
    decreases |html| - from
  {
    if HrefAt(html, from) && QuoteFrom(html, from + 6).Some? && accept(html[from + 6..QuoteFrom(html, from + 6).value]) {
    } else {
      NextHrefSound(html, from + 1, accept);
    }
  }

  /** The pattern `href="([^"]*)"` with an accepted capture matches at `p`. */
  predicate MatchAt(html: string, p: nat, accept: string -> bool)
  {
    HrefAt(html, p) && QuoteFrom(html, p + 6).Some? && accept(html[p + 6..QuoteFrom(html, p + 6).value])
  }

  /** The scan finds the first position at or after `from` where the
    * pattern matches, and finds nothing exactly when it matches nowhere
    * from `from` on. */
  lemma {:induction false} NextHrefFirst(html: string, from: nat, accept: string -> bool)
    ensures var r := NextHref(html, from, accept);
      r.Some? ==> (r.value.0 >= 6 && MatchAt(html, r.value.0 - 6, accept)
                   && r.value.1 == QuoteFrom(html, r.value.0).value
                   && forall p :: from <= p < r.value.0 - 6 ==> !MatchAt(html, p, accept))
    ensures NextHref(html, from, accept).None? ==> forall p :: from <= p ==> !MatchAt(html, p, accept)
    decreases |html| - from
  {
    if from + 6 > |html| {
    } else if MatchAt(html, from, accept) {
    } else {
      NextHrefFirst(html, from + 1, accept);
    }
  }

  /** The captures of a global regex's `exec` loop from `from` on: after a
    * match, the search resumes behind its closing quote. */
  function Hrefs(html: string, from: nat, accept: string -> bool): (r: seq<string>)
    decreases |html| - from
  {
    match NextHref(html, from, accept)
    case None => []
    case Some((s, q)) => [html[s..q]] + Hrefs(html, q + 1, accept)
  }

  /** Every capture is accepted and holds no quote. */
  lemma {:induction false} HrefsSound(html: string, from: nat, accept: string -> bool)
    ensures forall l :: l in Hrefs(html, from, accept) ==> accept(l) && '"' !in l
    decreases |html| - from
  {
    match NextHref(html, from, accept)
    case None =>
    case Some((s, q)) =>
      NextHrefSound(html, from, accept);
      HrefsSound(html, q + 1, accept);
  }

  /** `/href="([^"]*\.pdf[^"]*)"/gi`. */
  predicate IsPdfHref(part: string) { Contains(Lower(part), ".pdf") }

  /** `/href="(\/datasheet-pdf\/[^"]*)"/gi`. */
  predicate IsViewHref(part: string) { StartsWith(Lower(part), "/datasheet-pdf/") }

  /** Each captured path behind `prefix`. */
  function Prefixed(prefix: string, paths: seq<string>): (r: seq<string>)
    ensures |r| == |paths|
  {
    if |paths| == 0 then [] else [prefix + paths[0]] + Prefixed(prefix, paths[1..])
  }

  /** extractDatasheetLinks as a value: the document links in document
    * order, then the page links behind the AllDataSheet host, each link
    * once. */
  function DatasheetLinks(html: string): seq<string>
  {
    Dedupe(Hrefs(html, 0, IsPdfHref) + Prefixed(AllDataSheetHost, Hrefs(html, 0, IsViewHref)))
  }

  /** What an `exec` loop that pushes `prefix + match[1]` leaves in the
    * list, starting at `from` with the list `links`. */
  function Pushed(links: seq<string>, html: string, from: nat, accept: string -> bool, prefix: string): seq<string>
    decreases |html| - from
  {
    match NextHref(html, from, accept)
    case None => links
    case Some((s, q)) => Pushed(links + [prefix + html[s..q]], html, q + 1, accept, prefix)
  }

  lemma {:induction false} PushedAppends(links: seq<string>, html: string, from: nat, accept: string -> bool, prefix: string)
    ensures Pushed(links, html, from, accept, prefix) == links + Prefixed(prefix, Hrefs(html, from, accept))
    decreases |html| - from
  {
    match NextHref(html, from, accept)
    case None =>
    case Some((s, q)) =>
      var x := html[s..q];
      var rest := Hrefs(html, q + 1, accept);
      assert Hrefs(html, from, accept) == [x] + rest;
      PushedAppends(links + [prefix + x], html, q + 1, accept, prefix);
      assert ([x] + rest)[1..] == rest;
      assert Prefixed(prefix, [x] + rest) == [prefix + x] + Prefixed(prefix, rest);
      assert (links + [prefix + x]) + Prefixed(prefix, rest) == links + ([prefix + x] + Prefixed(prefix, rest));
  }

  lemma {:induction false} PrefixedEmpty(paths: seq<string>)
    ensures Prefixed("", paths) == paths
  {
    if |paths| > 0 {
      PrefixedEmpty(paths[1..]);
      assert "" + paths[0] == paths[0];
      assert paths == [paths[0]] + paths[1..];
    }
  }

  /** `while ((match = regex.exec(html)) !== null) links.push(prefix + match[1])`. */
  method ExecLoop(links0: seq<string>, html: string, accept: string -> bool, prefix: string) returns (links: seq<string>)
    ensures links == links0 + Prefixed(prefix, Hrefs(html, 0, accept))
  {
    links := links0;
    var pos := 0;
    var m := NextHref(html, pos, accept);
    while m.Some?
      invariant m == NextHref(html, pos, accept)
      invariant Pushed(links, html, pos, accept, prefix) == Pushed(links0, html, 0, accept, prefix)
      decreases |html| - pos
    {
      var (s, q) := m.value;
      links := links + [prefix + html[s..q]];
      pos := q + 1;
      m := NextHref(html, pos, accept);
    }
    PushedAppends(links0, html, 0, accept, prefix);
  }

  /** extractDatasheetLinks: the two `exec` loops push their captures, the
    * second behind the host name, and `[...new Set(links)]` drops
    * repeats. */
  method ExtractDatasheetLinks(html: string) returns (links: seq<string>)
    ensures links == DatasheetLinks(html)
  {
    links := ExecLoop([], html, IsPdfHref, "");
    PrefixedEmpty(Hrefs(html, 0, IsPdfHref));
    assert links == Hrefs(html, 0, IsPdfHref);
    links := ExecLoop(links, html, IsViewHref, AllDataSheetHost);
    links := Dedupe(links);
  }

  /** The links come without repeats; each is a quoted document link or a
    * hosted page link, and every such link of the page is among them. */
  lemma DatasheetLinksSpec(html: string)
    ensures var links := DatasheetLinks(html);
      && NoDups(links)
      && (forall l :: l in links <==> l in Hrefs(html, 0, IsPdfHref) || l in Prefixed(AllDataSheetHost, Hrefs(html, 0, IsViewHref)))
      && (forall l :: l in Hrefs(html, 0, IsPdfHref) ==> IsPdfHref(l) && '"' !in l)
      && |links| <= |Hrefs(html, 0, IsPdfHref)| + |Hrefs(html, 0, IsViewHref)|
  {
    HrefsSound(html, 0, IsPdfHref);
    DedupeSpec(Hrefs(html, 0, IsPdfHref) + Prefixed(AllDataSheetHost, Hrefs(html, 0, IsViewHref)));
  }

  /** A document link comes before every hosted page link. */
  lemma {:induction false} PdfLinksFirst(html: string)
    requires |Hrefs(html, 0, IsPdfHref)| > 0
    ensures DatasheetLinks(html)[0] == Hrefs(html, 0, IsPdfHref)[0]
  {
    var all := Hrefs(html, 0, IsPdfHref) + Prefixed(AllDataSheetHost, Hrefs(html, 0, IsViewHref));
    DedupeFirst(all);
  }

  /** A page with no "href" in any letter case has no links. */
  lemma {:induction false} NoHrefNoLinks(html: string, from: nat, accept: string -> bool)
    requires forall p :: from <= p ==> !HrefAt(html, p)
    ensures Hrefs(html, from, accept) == []
    decreases |html| - from
  {
    if from + 6 <= |html| {
      NoHrefNoLinks(html, from + 1, accept);
      assert NextHref(html, from, accept) == NextHref(html, from + 1, accept);
    }
  }

  // ---------------------------------------------------------------------
  // extractSpecsFromHTML
  // ---------------------------------------------------------------------

  const SpecKeys := ["voltage", "current", "temperature", "package"]

  /** The specs object in key order: the trimmed first capture of each
    * key's pattern, with no entry for a key whose pattern does not match. */
  function SpecsOf(keys: seq<string>, html: string, specMatch: (string, string) -> Option<string>): (r: seq<(string, string)>)
  {
    if |keys| == 0 then []
    else
      var prev := SpecsOf(keys[..|keys| - 1], html, specMatch);
      var key := keys[|keys| - 1];
      match specMatch(key, html)
      case None => prev
      case Some(capture) => prev + [(key, Trim(capture))]
  }

  lemma SpecsOfStep(keys: seq<string>, i: nat, html: string, specMatch: (string, string) -> Option<string>)
    requires i < |keys|
    ensures SpecsOf(keys[..i + 1], html, specMatch) ==
      match specMatch(keys[i], html)
      case None => SpecsOf(keys[..i], html, specMatch)
      case Some(capture) => SpecsOf(keys[..i], html, specMatch) + [(keys[i], Trim(capture))]
  {
    assert keys[..i + 1][..i] == keys[..i];
  }

  /** extractSpecsFromHTML: one pattern per key, in key order. */
  method ExtractSpecsFromHtml(html: string, specMatch: (string, string) -> Option<string>) returns (specs: seq<(string, string)>)
    ensures specs == SpecsOf(SpecKeys, html, specMatch)
  {
    specs := [];
    for i := 0 to |SpecKeys|
      invariant specs == SpecsOf(SpecKeys[..i], html, specMatch)
    {
      SpecsOfStep(SpecKeys, i, html, specMatch);
      var m := specMatch(SpecKeys[i], html);
      if m.Some? {
        specs := specs + [(SpecKeys[i], Trim(m.value))];
      }
    }
    assert SpecKeys[..|SpecKeys|] == SpecKeys;
  }

  /** A key has an entry exactly when its pattern matches, and then it
    * holds the trimmed capture; the entries keep the key order. */
  lemma {:induction false} SpecsOfEntries(keys: seq<string>, html: string, specMatch: (string, string) -> Option<string>, key: string)
    requires NoDups(keys)
    ensures key in keys && specMatch(key, html).Some? ==> (key, Trim(specMatch(key, html).value)) in SpecsOf(keys, html, specMatch)
    ensures forall e :: e in SpecsOf(keys, html, specMatch) ==> e.0 in keys && specMatch(e.0, html).Some? && e.1 == Trim(specMatch(e.0, html).value)
  {
    if |keys| > 0 {
      var init := keys[..|keys| - 1];
      assert NoDups(init) by {
        forall i, j | 0 <= i < j < |init| ensures init[i] != init[j] {
          assert init[i] == keys[i] && init[j] == keys[j];
        }
      }
      SpecsOfEntries(init, html, specMatch, key);
      assert keys == init + [keys[|keys| - 1]];
      assert keys[|keys| - 1] !in init;
    }
  }

  // ---------------------------------------------------------------------
  // The sources of gatherComponentData
  // ---------------------------------------------------------------------

  /** fetchDetailedSpecs: the specs of the page, or the `Failed to fetch`
    * record after an `error` event. */
  datatype DetailedSpecs = Fetched(url: string, specs: seq<(string, string)>) | FetchFailed(url: string)

  /** The resolved value of searchAllDataSheet; `htmlLength` counts
    * characters. */
  datatype AllDataSheetResult = AllDataSheetResult(
    searchUrl: string, datasheets: seq<string>, detailedSpecs: Option<DetailedSpecs>, htmlLength: nat)

  datatype ApiHit = ApiHit(source: string, searchUrl: string)

  /** queryPublicAPIs: the SnapEDA search page, the only public source. */
  datatype PublicApiResult = PublicApiResult(component: string, results: seq<ApiHit>)

  /** scrapeDetailedSpecs: the component with an empty specs object. */
  datatype WebScrapeResult = WebScrapeResult(component: string)

  /** `results.sources`; a failed source holds `{error: message}` (Err).
    * The public APIs and the web scrape cannot fail. */
  datatype Sources = Sources(
    allDataSheet: Result<AllDataSheetResult>, github: Result<string>,
    publicApis: PublicApiResult, webScrape: WebScrapeResult)

  /** `results.aiSynthesis`: the parsed profile, kept as its JSON text, or
    * `{error: 'AI synthesis failed'}`. */
  datatype Synthesis = Profile(json: string) | SynthesisFailed

  datatype Gathered = Gathered(component: string, sources: Sources, timestamp: string, aiSynthesis: Synthesis)

  /** searchAllDataSheet as a value: the search page's links, and the
    * detailed specs of the first link. An exception raised while fetching
    * that link (a relative or non-https link) rejects the whole search. */
  function AllDataSheetOutcome(w: World, name: string): Result<AllDataSheetResult>
  {
    var searchUrl := AllDataSheetSearch + w.encode(name);
    match w.get(searchUrl)
    case NetError(e) => Err(e)
    case Thrown(e) => Err(e)
    case Body(data) =>
      var links := DatasheetLinks(data);
      if |links| == 0 then Ok(AllDataSheetResult(searchUrl, links, None, |data|))
      else match w.get(links[0])
        case Thrown(e) => Err(e)
        case NetError(_) => Ok(AllDataSheetResult(searchUrl, links, Some(FetchFailed(links[0])), |data|))
        case Body(page) =>
          Ok(AllDataSheetResult(searchUrl, links, Some(Fetched(links[0], SpecsOf(SpecKeys, page, w.specMatch))), |data|))
  }

  /** searchAllDataSheet with fetchDetailedSpecs. */
  method SearchAllDataSheet(w: World, name: string) returns (r: Result<AllDataSheetResult>)
    ensures r == AllDataSheetOutcome(w, name)
    ensures r.Ok? ==> r.value.searchUrl == AllDataSheetSearch + w.encode(name)
    ensures r.Ok? ==> (r.value.detailedSpecs.Some? <==> |r.value.datasheets| > 0)
    ensures r.Ok? && r.value.detailedSpecs.Some? ==> r.value.detailedSpecs.value.url == r.value.datasheets[0]
  {
    var searchUrl := AllDataSheetSearch + w.encode(name);
    var reply := w.get(searchUrl);
    if !reply.Body? {
      r := Err(reply.message);
      return;
    }
    var data := reply.body;
    var links := ExtractDatasheetLinks(data);
    var detailed: Option<DetailedSpecs> := None;
    if |links| > 0 {
      var page := w.get(links[0]);
      match page
      case Thrown(e) =>
        r := Err(e);
        return;
      case NetError(_) =>
        detailed := Some(FetchFailed(links[0]));
      case Body(html) =>
        var specs := ExtractSpecsFromHtml(html, w.specMatch);
        detailed := Some(Fetched(links[0], specs));
    }
    r := Ok(AllDataSheetResult(searchUrl, links, detailed, |data|));
  }

  /** queryPublicAPIs. */
  function QueryPublicApis(w: World, name: string): (r: PublicApiResult)
    ensures r.component == name && |r.results| == 1
    ensures r.results[0].searchUrl == SnapEdaSearch + w.encode(name)
  {
    PublicApiResult(name, [ApiHit("SnapEDA", SnapEdaSearch + w.encode(name))])
  }

  const SynthesisHead := "Analyze all gathered data and " + "create a comprehensive " +
    "component profile:\n\nComponent: "
  const SynthesisMiddle := "\n\nData sources:\n"
  const SynthesisTail := "\n\nGenerate a complete JSON " + "profile with:\n- Component name " +
    "and type\n- Key specifications " + "(voltage, current, pins, " +
    "package)\n- Typical applications" + "\n- Design recommendations\n- " +
    "Example circuits\n\nRespond ONLY " + "with valid JSON."

  function SynthesisPrompt(component: string, sourcesJson: string): string
  {
    SynthesisHead + component + SynthesisMiddle + sourcesJson + SynthesisTail
  }

  /** aiSynthesizeData: catches every failure of the model or of parsing. */
  function AiSynthesize(w: World, component: string, sources: Sources): (r: Synthesis)
    ensures r.Profile? <==>
      var answer := w.ollama(DefaultModel, SynthesisPrompt(component, w.stringify(sources)));
      answer.Ok? && w.parseProfile(answer.value).Some?
  {
    match w.ollama(DefaultModel, SynthesisPrompt(component, w.stringify(sources)))
    case Err(_) => SynthesisFailed
    case Ok(answer) =>
      match w.parseProfile(answer)
      case None => SynthesisFailed
      case Some(profile) => Profile(profile)
  }

  // ---------------------------------------------------------------------
  // saveAsJSON and storeAsRule
  // ---------------------------------------------------------------------

  /** `${name.replace(/[^a-z0-9]/gi, '_')}_complete.json`: letters keep
    * their case, every other non-alphanumeric character becomes '_'. */
  function CompleteFileName(name: string): (r: string)
    ensures |r| == |name| + |CompleteSuffix| && EndsWith(r, CompleteSuffix)
    ensures forall i :: 0 <= i < |name| ==> r[i] == (if IsAlnumAscii(name[i]) then name[i] else '_')
  {
    ReplaceChars(name, IsAlnumAscii, '_') + CompleteSuffix
  }

  /** Two names that differ only in punctuation share one file: the later
    * save overwrites the earlier. */
  lemma PunctuationCollides()
    ensures CompleteFileName("LM358-N") == CompleteFileName("LM358.N")
    ensures CompleteFileName("LM358-N") != CompleteFileName("lm358-n")
  {
    assert CompleteFileName("LM358-N")[0] == 'L';
    assert CompleteFileName("lm358-n")[0] == 'l';
  }

  /** saveAsJSON: the path written, or None (null) when the write fails. */
  function SaveAsJson(w: World, name: string): (r: Option<string>)
    ensures r.Some? <==> w.writeError(ScrapedDir + CompleteFileName(name)).None?
    ensures r.Some? ==> r.value == ScrapedDir + CompleteFileName(name)
  {
    var path := ScrapedDir + CompleteFileName(name);
    if w.writeError(path).None? then Some(path) else None
  }

  /** storeAsRule's result; `content` is what the rules file now holds. */
  datatype RuleStore = RuleStored(file: string, content: string) | RuleFailed(error: string)

  function RuleEntry(clock: string, text: string): string
  {
    "\n## Rule added " + clock + "\n\n" + text + "\n\n---\n"
  }

  /** storeAsRule: the rules file's old content (the default header when
    * it cannot be read) followed by one dated entry. */
  function StoreRule(w: World, text: string): (r: RuleStore)
    ensures r.RuleStored? <==> w.writeError(RulesFile).None?
    ensures r.RuleStored? ==> r.file == RulesFile
    ensures r.RuleFailed? ==> r.error == w.writeError(RulesFile).value
    ensures r.RuleStored? ==> StartsWith(r.content, w.readFile(RulesFile).GetOr(RulesHeader))
    ensures r.RuleStored? ==> EndsWith(r.content, text + "\n\n---\n")
    ensures r.RuleStored? ==> |r.content| == |w.readFile(RulesFile).GetOr(RulesHeader)| + |RuleEntry(w.clock, text)|
    ensures r.RuleStored? ==>
      r.content == w.readFile(RulesFile).GetOr(RulesHeader) + "\n## Rule added " + w.clock + "\n\n" + text + "\n\n---\n"
  {
    var existing := w.readFile(RulesFile).GetOr(RulesHeader);
    var content := existing + RuleEntry(w.clock, text);
    assert content[..|existing|] == existing;
    assert content[|content| - |text + "\n\n---\n"|..] == text + "\n\n---\n";
    match w.writeError(RulesFile)
    case Some(e) => RuleFailed(e)
    case None => RuleStored(RulesFile, content)
  }

  // ---------------------------------------------------------------------
  // gatherComponentData and processInput
  // ---------------------------------------------------------------------

  /** gatherComponentData: the four sources one after the other, each
    * failure kept in its own slot, then the synthesis over all of them and
    * the JSON file. `saved` is saveAsJSON's result, which the source
    * discards. */
  method GatherComponentData(w: World, name: string) returns (results: Gathered, saved: Option<string>)
    ensures results.component == name && results.timestamp == w.clock
    ensures results.sources == Sources(AllDataSheetOutcome(w, name), w.github(name), QueryPublicApis(w, name), WebScrapeResult(name))
    ensures results.aiSynthesis == AiSynthesize(w, name, results.sources)
    ensures saved == SaveAsJson(w, name)
  {
    var allDataSheet := SearchAllDataSheet(w, name);
    var github := w.github(name);
    var publicApis := QueryPublicApis(w, name);
    var webScrape := WebScrapeResult(name);
    var sources := Sources(allDataSheet, github, publicApis, webScrape);
    var synthesis := AiSynthesize(w, name, sources);
    results := Gathered(name, sources, w.clock, synthesis);
    saved := SaveAsJson(w, name);
  }

  datatype Processed = DataGathered(results: Gathered, saved: Option<string>) | RuleWritten(outcome: RuleStore)

  /** processInput: classify, then gather or store along RouteOf. */
  method ProcessInput(p: Patterns, w: World, input: string) returns (r: Processed)
    ensures var route := RouteOf(ValidateComponent(p, w, input), input);
      && (route.Gather? ==>
            (r.DataGathered? && r.results.component == route.component
             && r.results.timestamp == w.clock
             && r.results.sources == Sources(AllDataSheetOutcome(w, route.component), w.github(route.component),
                                             QueryPublicApis(w, route.component), WebScrapeResult(route.component))
             && r.results.aiSynthesis == AiSynthesize(w, route.component, r.results.sources)
             && r.saved == SaveAsJson(w, route.component)))
      && (route.Store? ==> r == RuleWritten(StoreRule(w, route.rule)))
    ensures AnyMatch(p.notComponentPatterns, input) ==> r == RuleWritten(StoreRule(w, input))
    ensures AnyMatch(p.icPatterns, input) && !AnyMatch(p.notComponentPatterns, input) ==>
      r.DataGathered? && r.results.component == input
  {
    var validation := ValidateComponent(p, w, input);
    RoutesOfInput(p, w, input);
    var route := RouteOf(validation, input);
    match route
    case Gather(name) =>
      var results, saved := GatherComponentData(w, name);
      r := DataGathered(results, saved);
    case Store(rule) =>
      r := RuleWritten(StoreRule(w, rule));
  }
}
