/** The download half of the datasheet downloader
  * (ai-easyeda-compiler/datasheet-downloader.js): how one response is
  * classified and stored (downloadFile), how the specification of an HTML
  * page is obtained (extractSpecsFromHTML), and the top-N download loop
  * with its summary (searchAndDownload). The network, the language model,
  * file sizes and the clock are parameters bundled in a `World`. */
module DatasheetDownload {
  import opened Wrappers
  import opened Strings
  import opened Seqs
  import opened NatText
  import DatasheetText
  import DatasheetSearch

  /** At most this many candidates are attempted. */
  const MaxDownloads: nat := 10
  /** Characters of cleaned page text handed to the language model. */
  const PromptTextLimit: nat := 10000

  const DownloadTimeout := "Download timeout"
  const ExtractFailed := "Failed to extract specs from HTML"
  const UnsupportedPrefix := "Unsupported content type: "
  /** What `undefined.startsWith` throws when a redirect has no location. */
  const NoLocation := "Cannot read properties of undefined (reading 'startsWith')"
  const PdfSuffix := ".pdf"
  const SpecsSuffix := "_specs.json"

  /** The part of an HTTP response the downloader looks at; a missing
    * header is `None`. */
  datatype Response = Response(status: int, location: Option<string>, contentType: Option<string>, body: string)

  /** What a request for a URL produces: a response, a request error, or
    * nothing before the 30-second timer fires. */
  datatype Fetch = Fetched(response: Response) | NetError(message: string) | TimedOut

  /** Everything outside the program: the server behind each URL, the
    * language model (given the component and the page text, it answers or
    * fails), which texts `JSON.parse` accepts, whether writing a file
    * fails, the size of each stored file and the time each attempt takes. */
  datatype World = World(
    fetch: string -> Fetch,
    llm: (string, string) -> Option<string>,
    parses: string -> bool,
    writeError: string -> Option<string>,
    sizeOf: string -> nat,
    elapsed: nat -> nat)

  /** How a download settles: resolved with a path (and whether a file was
    * written), rejected with a message, or not at all (a redirect chain
    * longer than the fuel: the source waits for it forever). */
  datatype Outcome = Resolved(path: string, wrote: bool) | Rejected(error: string) | Unsettled

  function PdfFile(dir: string, name: string, index: nat): string
  {
    dir + "/" + DatasheetText.SanitizeFilename(name) + "_" + NatStr(index) + PdfSuffix
  }

  function SpecsFile(dir: string, name: string): string
  {
    dir + "/" + DatasheetText.SanitizeFilename(name) + SpecsSuffix
  }

  /** extractSpecsFromHTML: clean the page, give the model the first 10000
    * characters, and parse what it answers; `None` when the model call
    * fails (the source catches the error and returns null). */
  function ExtractSpecs(html: string, name: string, w: World): (r: Option<DatasheetText.Specs>)
    ensures r.Some? <==> w.llm(name, PromptText(html)).Some?
  {
    match w.llm(name, PromptText(html))
    case Some(answer) => Some(DatasheetText.ParseAIResponse(answer, w.parses))
    case None => None
  }

  function PromptText(html: string): string
  {
    var text := DatasheetText.CleanText(html);
    if |text| <= PromptTextLimit then text else text[..PromptTextLimit]
  }

  /** downloadFile. `files` is what the download directory already holds.
    * Whatever the redirects, it resolves only to the component's
    * `_<index>.pdf` file or its `_specs.json` file, and it reports writing
    * the PDF exactly when that file was not there yet. */
  function DownloadFile(url: string, name: string, index: nat, dir: string, files: set<string>,
                        w: World, fuel: nat): (r: Outcome)
    decreases fuel
    ensures r.Resolved? ==> r.path in {PdfFile(dir, name, index), SpecsFile(dir, name)}
    ensures r.Resolved? && r.path == PdfFile(dir, name, index) ==> (r.wrote <==> PdfFile(dir, name, index) !in files)
  {
    if fuel == 0 then Unsettled
    else
      match w.fetch(url)
      case TimedOut => Rejected(DownloadTimeout)
      case NetError(message) => Rejected(message)
      case Fetched(response) =>
        if IsRedirect(response) then
          match response.location
          case Some(next) => DownloadFile(next, name, index, dir, files, w, fuel - 1)
          case None => Rejected(NoLocation)
        else Classify(response, name, index, dir, files, w)
  }

  predicate IsRedirect(response: Response) { response.status == 301 || response.status == 302 }

  /** The content-type branches of downloadFile for a response that is no
    * redirect. `pdf` is matched before `html`: a PDF resolves to the
    * attempt's PDF file when it is already there; otherwise the file is
    * streamed to disk, resolving when the stream finishes and rejecting
    * with the stream's error; an HTML page
    * resolves to the specs file exactly when the model answers and the
    * file is written, and is otherwise rejected with the extraction failure
    * or the write error; any other
    * type, a missing one counting as empty, is rejected with the type in
    * the message. */
  function Classify(response: Response, name: string, index: nat, dir: string, files: set<string>,
                    w: World): (r: Outcome)
    ensures r != Unsettled
    ensures Contains(response.contentType.GetOr(""), "pdf") && r.Resolved? ==>
      r.path == PdfFile(dir, name, index) && (r.wrote <==> PdfFile(dir, name, index) !in files)
    ensures Contains(response.contentType.GetOr(""), "pdf") && PdfFile(dir, name, index) in files ==>
      r == Resolved(PdfFile(dir, name, index), false)
    ensures Contains(response.contentType.GetOr(""), "pdf") && PdfFile(dir, name, index) !in files ==>
      r == (if w.writeError(PdfFile(dir, name, index)).None? then Resolved(PdfFile(dir, name, index), true)
            else Rejected(w.writeError(PdfFile(dir, name, index)).value))
    ensures !Contains(response.contentType.GetOr(""), "pdf") && Contains(response.contentType.GetOr(""), "html") ==>
      (r.Resolved? <==> w.llm(name, PromptText(response.body)).Some? && w.writeError(SpecsFile(dir, name)).None?)
      && (r.Resolved? ==> r == Resolved(SpecsFile(dir, name), true))
      && (w.llm(name, PromptText(response.body)).None? ==> r == Rejected(ExtractFailed))
      && (w.llm(name, PromptText(response.body)).Some? && w.writeError(SpecsFile(dir, name)).Some? ==>
            r == Rejected(w.writeError(SpecsFile(dir, name)).value))
    ensures !Contains(response.contentType.GetOr(""), "pdf") && !Contains(response.contentType.GetOr(""), "html") ==>
      r == Rejected(UnsupportedPrefix + response.contentType.GetOr(""))
    ensures r.Resolved? ==> r.path in {PdfFile(dir, name, index), SpecsFile(dir, name)}
    ensures r.Resolved? && r.path == PdfFile(dir, name, index) ==> (r.wrote <==> PdfFile(dir, name, index) !in files)
  {
    var contentType := response.contentType.GetOr("");
    if Contains(contentType, "pdf") then
      var path := PdfFile(dir, name, index);
      if path in files then Resolved(path, false)
      else match w.writeError(path)
        case Some(message) => Rejected(message)
        case None => Resolved(path, true)
    else if Contains(contentType, "html") then
      SpecsNotPdf(dir, name, index);
      if ExtractSpecs(response.body, name, w).Some? then
        match w.writeError(SpecsFile(dir, name))
        case Some(message) => Rejected(message)
        case None => Resolved(SpecsFile(dir, name), true)
      else Rejected(ExtractFailed)
    else Rejected(UnsupportedPrefix + contentType)
  }

  /** Every redirect is followed, however long the chain: when `chain[k]`
    * redirects to `chain[k + 1]` and the last URL answers without a
    * redirect, the download is that last answer, given fuel for the chain. */
  lemma {:induction false} RedirectChainFollowed(chain: seq<string>, name: string, index: nat, dir: string,
                                                 files: set<string>, w: World, fuel: nat)
    requires |chain| > 0 && fuel >= |chain|
    requires forall k :: 0 <= k < |chain| - 1 ==>
      w.fetch(chain[k]).Fetched? && IsRedirect(w.fetch(chain[k]).response)
      && w.fetch(chain[k]).response.location == Some(chain[k + 1])
    requires w.fetch(chain[|chain| - 1]).Fetched? && !IsRedirect(w.fetch(chain[|chain| - 1]).response)
    ensures DownloadFile(chain[0], name, index, dir, files, w, fuel)
         == Classify(w.fetch(chain[|chain| - 1]).response, name, index, dir, files, w)
  {
    if |chain| > 1 {
      RedirectChainFollowed(chain[1..], name, index, dir, files, w, fuel - 1);
    }
  }

  /** There is no cap on redirects: a URL that redirects to itself never
    * settles, however much fuel is given. */
  lemma {:induction false} SelfRedirectNeverSettles(url: string, name: string, index: nat, dir: string,
                                                    files: set<string>, w: World, fuel: nat)
    requires w.fetch(url).Fetched? && IsRedirect(w.fetch(url).response)
    requires w.fetch(url).response.location == Some(url)
    ensures DownloadFile(url, name, index, dir, files, w, fuel) == Unsettled
  {
    if fuel > 0 {
      SelfRedirectNeverSettles(url, name, index, dir, files, w, fuel - 1);
    }
  }

  /** The specs file is never one of the PDF files. */
  lemma SpecsNotPdf(dir: string, name: string, index: nat)
    ensures SpecsFile(dir, name) != PdfFile(dir, name, index)
  {
    var p := SpecsFile(dir, name);
    var q := PdfFile(dir, name, index);
    assert p[|p| - 1] == SpecsSuffix[|SpecsSuffix| - 1] == 'n';
    assert q[|q| - 1] == PdfSuffix[|PdfSuffix| - 1] == 'f';
  }

  /** Different attempts store different PDF files. */
  lemma PdfFileInjective(dir: string, name: string, i: nat, j: nat)
    requires PdfFile(dir, name, i) == PdfFile(dir, name, j)
    ensures i == j
  {
    var prefix := dir + "/" + DatasheetText.SanitizeFilename(name) + "_";
    var a, b := PdfFile(dir, name, i), PdfFile(dir, name, j);
    assert a == (prefix + NatStr(i)) + PdfSuffix;
    assert b == (prefix + NatStr(j)) + PdfSuffix;
    assert prefix + NatStr(i) == a[..|a| - |PdfSuffix|];
    assert prefix + NatStr(j) == b[..|b| - |PdfSuffix|];
    PrefixedInjective(prefix, i, j);
  }

  // ---------------------------------------------------------------------
  // searchAndDownload
  // ---------------------------------------------------------------------

  /** One stored download, as pushed to `results`. */
  datatype Download = Download(url: string, path: string, component: string, index: nat, size: nat, time: nat)

  /** One failed attempt, as pushed to `failed`, with the shortened URL. */
  datatype Failure = Failure(url: string, error: string)

  /** What the loop has gathered: results, failures, the directory's files,
    * and whether an attempt never settled (the loop then waits forever). */
  datatype Progress = Progress(results: seq<Download>, failed: seq<Failure>, files: set<string>, stalled: bool)

  /** The URL as the log and the failure list show it: longer than 60
    * characters becomes its first 57 and `...`. */
  function UrlShort(url: string): (r: string)
    ensures |r| <= 60
    ensures |url| <= 60 ==> r == url
    ensures |url| > 60 ==> r == url[..57] + "..." && |r| == 60
  {
    if |url| > 60 then url[..57] + "..." else url
  }

  /** One pass of the loop body for attempt `i`. */
  function Attempt(p: Progress, url: string, i: nat, name: string, dir: string, w: World, fuel: nat): Progress
  {
    if p.stalled then p
    else
      match DownloadFile(url, name, i, dir, p.files, w, fuel)
      case Resolved(path, wrote) =>
        Progress(p.results + [Download(url, path, name, i, w.sizeOf(path), w.elapsed(i))], p.failed,
                 if wrote then p.files + {path} else p.files, false)
      case Rejected(error) => Progress(p.results, p.failed + [Failure(UrlShort(url), error)], p.files, false)
      case Unsettled => Progress(p.results, p.failed, p.files, true)
  }

  /** The loop over the given URLs, in order, attempt `i` for `urls[i]`. */
  function AttemptAll(urls: seq<string>, name: string, dir: string, files: set<string>, w: World, fuel: nat): Progress
  {
    if |urls| == 0 then Progress([], [], files, false)
    else
      Attempt(AttemptAll(urls[..|urls| - 1], name, dir, files, w, fuel), urls[|urls| - 1], |urls| - 1, name, dir, w, fuel)
  }

  /** No early exit: unless an attempt never settles, every URL is either a
    * result or a failure; results keep their URL and index, in order;
    * failures keep the shortened URL; files are only ever added, and only
    * the component's PDF and specs files. */
  predicate Accounted(urls: seq<string>, name: string, dir: string, files0: set<string>, p: Progress)
  {
    (!p.stalled ==> |p.results| + |p.failed| == |urls|)
    && (forall k :: 0 <= k < |p.results| ==>
          p.results[k].index < |urls| && p.results[k].url == urls[p.results[k].index]
          && p.results[k].component == name
          && p.results[k].path in {PdfFile(dir, name, p.results[k].index), SpecsFile(dir, name)})
    && (forall k, l :: 0 <= k < l < |p.results| ==> p.results[k].index < p.results[l].index)
    && (forall k :: 0 <= k < |p.failed| ==> |p.failed[k].url| <= 60)
    && files0 <= p.files
    && (forall f :: f in p.files && f !in files0 ==>
          f == SpecsFile(dir, name) || exists i :: 0 <= i < |urls| && f == PdfFile(dir, name, i))
  }

  lemma {:induction false} AttemptAllAccounted(urls: seq<string>, name: string, dir: string, files0: set<string>,
                                               w: World, fuel: nat)
    ensures Accounted(urls, name, dir, files0, AttemptAll(urls, name, dir, files0, w, fuel))
    ensures AttemptAll(urls, name, dir, files0, w, fuel).stalled ==>
      |AttemptAll(urls, name, dir, files0, w, fuel).results| + |AttemptAll(urls, name, dir, files0, w, fuel).failed| < |urls|
  {
    if |urls| > 0 {
      var init := urls[..|urls| - 1];
      var i := |urls| - 1;
      AttemptAllAccounted(init, name, dir, files0, w, fuel);
      var p := AttemptAll(init, name, dir, files0, w, fuel);
      AttemptStep(init, urls[i], name, dir, files0, p, w, fuel);
      assert init + [urls[i]] == urls;
    }
  }

  lemma AttemptStep(init: seq<string>, url: string, name: string, dir: string, files0: set<string>,
                    p: Progress, w: World, fuel: nat)
    requires Accounted(init, name, dir, files0, p)
    requires p.stalled ==> |p.results| + |p.failed| < |init|
    ensures Accounted(init + [url], name, dir, files0, Attempt(p, url, |init|, name, dir, w, fuel))
    ensures Attempt(p, url, |init|, name, dir, w, fuel).stalled ==>
      |Attempt(p, url, |init|, name, dir, w, fuel).results| + |Attempt(p, url, |init|, name, dir, w, fuel).failed| < |init| + 1
  {
    var urls := init + [url];
    var q := Attempt(p, url, |init|, name, dir, w, fuel);
    assert forall k :: 0 <= k < |init| ==> urls[k] == init[k];
    forall f | f in q.files && f !in files0
      ensures f == SpecsFile(dir, name) || exists i :: 0 <= i < |urls| && f == PdfFile(dir, name, i)
    {
      if f in p.files {
        if f != SpecsFile(dir, name) {
          var i :| 0 <= i < |init| && f == PdfFile(dir, name, i);
          assert 0 <= i < |urls|;
        }
      } else {
        assert f == PdfFile(dir, name, |init|) || f == SpecsFile(dir, name);
      }
    }
  }

  /** The progress before attempt `i`: the loop over the first `i` URLs. */
  function Before(urls: seq<string>, i: nat, name: string, dir: string, files0: set<string>, w: World, fuel: nat): Progress
    requires i <= |urls|
  {
    AttemptAll(urls[..i], name, dir, files0, w, fuel)
  }

  /** What attempt `i` comes to, given the files the earlier attempts left. */
  function OutcomeAt(urls: seq<string>, i: nat, name: string, dir: string, files0: set<string>, w: World, fuel: nat): Outcome
    requires i < |urls|
  {
    DownloadFile(urls[i], name, i, dir, Before(urls, i, name, dir, files0, w, fuel).files, w, fuel)
  }

  /** Attempt `i` ran, no earlier one having stalled the loop, and was
    * rejected. */
  predicate RejectedAt(urls: seq<string>, i: nat, name: string, dir: string, files0: set<string>, w: World, fuel: nat)
    requires i < |urls|
  {
    !Before(urls, i, name, dir, files0, w, fuel).stalled && OutcomeAt(urls, i, name, dir, files0, w, fuel).Rejected?
  }

  /** Attempt `i` ran and resolved. */
  predicate ResolvedAt(urls: seq<string>, i: nat, name: string, dir: string, files0: set<string>, w: World, fuel: nat)
    requires i < |urls|
  {
    !Before(urls, i, name, dir, files0, w, fuel).stalled && OutcomeAt(urls, i, name, dir, files0, w, fuel).Resolved?
  }

  /** The rejected attempts among the first `n`, in URL order. */
  function RejectedIndices(urls: seq<string>, n: nat, name: string, dir: string, files0: set<string>, w: World, fuel: nat): seq<nat>
    requires n <= |urls|
  {
    if n == 0 then []
    else
      RejectedIndices(urls, n - 1, name, dir, files0, w, fuel)
      + (if RejectedAt(urls, n - 1, name, dir, files0, w, fuel) then [n - 1] else [])
  }

  /** One more pass of the loop is one more attempt. */
  lemma BeforeStep(urls: seq<string>, n: nat, name: string, dir: string, files0: set<string>, w: World, fuel: nat)
    requires n < |urls|
    ensures Before(urls, n + 1, name, dir, files0, w, fuel)
         == Attempt(Before(urls, n, name, dir, files0, w, fuel), urls[n], n, name, dir, w, fuel)
  {
    assert urls[..n + 1][..n] == urls[..n];
  }

  /** The failures list: the k-th failure is the shortened URL and the
    * error of the k-th rejected attempt, the rejected attempts in URL
    * order, and every rejected attempt has its failure. */
  lemma {:induction false} AttemptAllFailures(urls: seq<string>, n: nat, name: string, dir: string, files0: set<string>,
                                              w: World, fuel: nat)
    requires n <= |urls|
    ensures |Before(urls, n, name, dir, files0, w, fuel).failed| == |RejectedIndices(urls, n, name, dir, files0, w, fuel)|
    ensures forall k :: 0 <= k < |RejectedIndices(urls, n, name, dir, files0, w, fuel)| ==>
      var i := RejectedIndices(urls, n, name, dir, files0, w, fuel)[k];
      i < n && RejectedAt(urls, i, name, dir, files0, w, fuel) &&
      Before(urls, n, name, dir, files0, w, fuel).failed[k]
        == Failure(UrlShort(urls[i]), OutcomeAt(urls, i, name, dir, files0, w, fuel).error)
    ensures forall k, l :: 0 <= k < l < |RejectedIndices(urls, n, name, dir, files0, w, fuel)| ==>
      RejectedIndices(urls, n, name, dir, files0, w, fuel)[k] < RejectedIndices(urls, n, name, dir, files0, w, fuel)[l]
    ensures forall i :: 0 <= i < n && RejectedAt(urls, i, name, dir, files0, w, fuel) ==>
      i in RejectedIndices(urls, n, name, dir, files0, w, fuel)
  {
    if n > 0 {
      var m := n - 1;
      AttemptAllFailures(urls, m, name, dir, files0, w, fuel);
      BeforeStep(urls, m, name, dir, files0, w, fuel);
      var p := Before(urls, m, name, dir, files0, w, fuel);
      var ri := RejectedIndices(urls, m, name, dir, files0, w, fuel);
      var q := Before(urls, n, name, dir, files0, w, fuel);
      var rj := RejectedIndices(urls, n, name, dir, files0, w, fuel);
      if RejectedAt(urls, m, name, dir, files0, w, fuel) {
        assert rj == ri + [m];
        assert q.failed == p.failed + [Failure(UrlShort(urls[m]), OutcomeAt(urls, m, name, dir, files0, w, fuel).error)];
      } else {
        assert rj == ri;
        assert q.failed == p.failed;
      }
    }
  }

  /** The results list: each result is an attempt that resolved, with that
    * attempt's path, and every resolved attempt has its result. */
  lemma {:induction false} AttemptAllResults(urls: seq<string>, n: nat, name: string, dir: string, files0: set<string>,
                                             w: World, fuel: nat)
    requires n <= |urls|
    ensures forall k :: 0 <= k < |Before(urls, n, name, dir, files0, w, fuel).results| ==>
      var i := Before(urls, n, name, dir, files0, w, fuel).results[k].index;
      i < n && ResolvedAt(urls, i, name, dir, files0, w, fuel) &&
      Before(urls, n, name, dir, files0, w, fuel).results[k].path == OutcomeAt(urls, i, name, dir, files0, w, fuel).path
    ensures forall i :: 0 <= i < n && ResolvedAt(urls, i, name, dir, files0, w, fuel) ==>
      exists k :: 0 <= k < |Before(urls, n, name, dir, files0, w, fuel).results| &&
        Before(urls, n, name, dir, files0, w, fuel).results[k].index == i
  {
    if n > 0 {
      var m := n - 1;
      AttemptAllResults(urls, m, name, dir, files0, w, fuel);
      BeforeStep(urls, m, name, dir, files0, w, fuel);
      var p := Before(urls, m, name, dir, files0, w, fuel);
      var q := Before(urls, n, name, dir, files0, w, fuel);
      if ResolvedAt(urls, m, name, dir, files0, w, fuel) {
        var o := OutcomeAt(urls, m, name, dir, files0, w, fuel);
        assert q.results == p.results + [Download(urls[m], o.path, name, m, w.sizeOf(o.path), w.elapsed(m))];
        assert q.results[|p.results|].index == m;
        forall i | 0 <= i < m && ResolvedAt(urls, i, name, dir, files0, w, fuel)
          ensures exists k :: 0 <= k < |q.results| && q.results[k].index == i
        {
          var k :| 0 <= k < |p.results| && p.results[k].index == i;
          assert q.results[k] == p.results[k];
        }
      } else {
        assert q.results == p.results;
      }
    }
  }

  /** Unless the loop stalls, every attempt among the first `n` either
    * resolved or was rejected. */
  lemma {:induction false} AttemptAllSettles(urls: seq<string>, n: nat, name: string, dir: string, files0: set<string>,
                                             w: World, fuel: nat)
    requires n <= |urls|
    requires !Before(urls, n, name, dir, files0, w, fuel).stalled
    ensures forall i :: 0 <= i < n ==>
      ResolvedAt(urls, i, name, dir, files0, w, fuel) || RejectedAt(urls, i, name, dir, files0, w, fuel)
  {
    if n > 0 {
      var m := n - 1;
      BeforeStep(urls, m, name, dir, files0, w, fuel);
      var p := Before(urls, m, name, dir, files0, w, fuel);
      assert !p.stalled;
      assert OutcomeAt(urls, m, name, dir, files0, w, fuel) != Unsettled;
      AttemptAllSettles(urls, m, name, dir, files0, w, fuel);
    }
  }

  /** The results and the failures split the attempts: when the loop does
    * not stall, an attempt is among the failures exactly when no result
    * carries its index. */
  lemma AttemptAllPartition(urls: seq<string>, name: string, dir: string, files0: set<string>, w: World, fuel: nat)
    requires !AttemptAll(urls, name, dir, files0, w, fuel).stalled
    ensures forall i :: 0 <= i < |urls| ==>
      (i in RejectedIndices(urls, |urls|, name, dir, files0, w, fuel) <==>
       !exists k :: 0 <= k < |AttemptAll(urls, name, dir, files0, w, fuel).results| &&
                    AttemptAll(urls, name, dir, files0, w, fuel).results[k].index == i)
  {
    assert urls[..|urls|] == urls;
    var n := |urls|;
    AttemptAllFailures(urls, n, name, dir, files0, w, fuel);
    AttemptAllResults(urls, n, name, dir, files0, w, fuel);
    AttemptAllSettles(urls, n, name, dir, files0, w, fuel);
  }

  /** The sum of the sizes and of the times of the results. */
  function TotalSize(results: seq<Download>): nat
  {
    if |results| == 0 then 0 else TotalSize(results[..|results| - 1]) + results[|results| - 1].size
  }

  function TotalTime(results: seq<Download>): nat
  {
    if |results| == 0 then 0 else TotalTime(results[..|results| - 1]) + results[|results| - 1].time
  }

  /** `Math.round(total / n)` for a non-negative total, and 0 with no
    * results. */
  function AverageTime(results: seq<Download>): nat
  {
    if |results| == 0 then 0 else (2 * TotalTime(results) + |results|) / (2 * |results|)
  }

  /** The rounded mean of equal times is that time. */
  lemma {:induction false} AverageOfEqualTimes(results: seq<Download>, t: nat)
    requires forall k :: 0 <= k < |results| ==> results[k].time == t
    ensures AverageTime(results) == if |results| == 0 then 0 else t
  {
    TotalOfEqualTimes(results, t);
    if |results| > 0 {
      var n := |results|;
      assert 2 * (n * t) + n == (2 * n) * t + n;
      DivLemma(2 * n, t, n);
    }
  }

  lemma {:induction false} TotalOfEqualTimes(results: seq<Download>, t: nat)
    requires forall k :: 0 <= k < |results| ==> results[k].time == t
    ensures TotalTime(results) == |results| * t
  {
    if |results| > 0 {
      TotalOfEqualTimes(results[..|results| - 1], t);
    }
  }

  lemma DivLemma(d: nat, q: nat, r: nat)
    requires 0 <= r < d
    ensures (d * q + r) / d == q
  {
    var x := d * q + r;
    var q', r' := x / d, x % d;
    assert x == d * q' + r' && 0 <= r' < d;
    if q' < q {
      MulLe(d, q' + 1, q);
    } else if q' > q {
      MulLe(d, q + 1, q');
    }
  }

  lemma MulLe(a: nat, b: nat, c: nat)
    requires b <= c
    ensures a * b <= a * c
  {
  }

  /** The rounded mean never exceeds the largest time. */
  lemma AverageAtMostMax(results: seq<Download>, t: nat)
    requires forall k :: 0 <= k < |results| ==> results[k].time <= t
    ensures AverageTime(results) <= t
  {
    TotalAtMost(results, t);
    if |results| > 0 {
      var n := |results|;
      assert 2 * TotalTime(results) + n < (2 * n) * (t + 1);
      DivBelow(2 * TotalTime(results) + n, 2 * n, t + 1);
    }
  }

  lemma {:induction false} TotalAtMost(results: seq<Download>, t: nat)
    requires forall k :: 0 <= k < |results| ==> results[k].time <= t
    ensures TotalTime(results) <= |results| * t
  {
    if |results| > 0 {
      TotalAtMost(results[..|results| - 1], t);
    }
  }

  lemma DivBelow(a: nat, d: nat, q: nat)
    requires d > 0 && a < d * q
    ensures a / d < q
  {
    assert a == d * (a / d) + a % d;
    if a / d >= q {
      MulLe(d, q, a / d);
    }
  }

  /** The statistics the summary prints. */
  datatype Summary =
    | NoResults
    | SearchFailed
    | Finished(successful: nat, failedCount: nat, attempted: nat, totalSize: nat, averageTime: nat)
    | Stalled

  /** The download directory and the files it holds. */
  class Downloader {
    const downloadDir: string
    var files: set<string>

    constructor (dir: string, existing: set<string>)
      ensures downloadDir == dir && files == existing
    {
      downloadDir := dir;
      files := existing;
    }

    /** The download loop over the first `min(10, |urls|)` candidates. It
      * runs every attempt (no early exit); only an attempt that never
      * settles stops it. */
    method DownloadAll(urls: seq<string>, name: string, w: World, fuel: nat)
      returns (results: seq<Download>, failed: seq<Failure>, attempted: nat, stalled: bool)
      modifies this
      ensures attempted == DatasheetSearch.Min(MaxDownloads, |urls|)
      ensures Progress(results, failed, files, stalled)
           == AttemptAll(urls[..attempted], name, downloadDir, old(files), w, fuel)
    {
      attempted := DatasheetSearch.Min(MaxDownloads, |urls|);
      var downloads := urls[..attempted];
      results, failed, stalled := [], [], false;
      var i := 0;
      while i < |downloads|
        invariant 0 <= i <= |downloads|
        invariant Progress(results, failed, files, stalled)
               == AttemptAll(downloads[..i], name, downloadDir, old(files), w, fuel)
      {
        assert downloads[..i + 1][..i] == downloads[..i];
        if !stalled {
          var url := downloads[i];
          var outcome := DownloadFile(url, name, i, downloadDir, files, w, fuel);
          match outcome {
            case Resolved(path, wrote) =>
              results := results + [Download(url, path, name, i, w.sizeOf(path), w.elapsed(i))];
              if wrote {
                files := files + {path};
              }
            case Rejected(error) =>
              failed := failed + [Failure(UrlShort(url), error)];
            case Unsettled =>
              stalled := true;
          }
        }
        i := i + 1;
      }
      assert downloads[..i] == downloads;
    }

    /** searchAndDownload: search, then download the top candidates and
      * summarise. `dirReady` says whether the download directory could be
      * created; if not, the source's catch returns no results. */
    method SearchAndDownload(componentName: string, componentType: string, dirReady: bool, w: World, fuel: nat)
      returns (results: seq<Download>, summary: Summary)
      modifies this
      ensures !dirReady ==> results == [] && summary == SearchFailed && files == old(files)
      ensures dirReady ==>
        var urls := Dedupe(DatasheetSearch.CandidateUrls(componentName, componentType));
        var n := DatasheetSearch.Min(MaxDownloads, |urls|);
        var p := AttemptAll(urls[..n], componentName, downloadDir, old(files), w, fuel);
        if |urls| == 0 then results == [] && summary == NoResults && files == old(files)
        else
          results == p.results && files == p.files
          && summary == (if p.stalled then Stalled
                         else Finished(|p.results|, |p.failed|, n, TotalSize(p.results), AverageTime(p.results)))
    {
      if !dirReady {
        return [], SearchFailed;
      }
      var urls, _ := DatasheetSearch.SearchDatasheets(componentName, componentType);
      if |urls| == 0 {
        return [], NoResults;
      }
      var failed, attempted, stalled;
      results, failed, attempted, stalled := DownloadAll(urls, componentName, w, fuel);
      if stalled {
        summary := Stalled;
      } else {
        summary := Finished(|results|, |failed|, attempted, TotalSize(results), AverageTime(results));
      }
    }
  }

  /** A search always yields candidates, so the "no results" branch of
    * searchAndDownload is never taken, and between 1 and 10 downloads are
    * attempted. */
  lemma AttemptedCount(componentName: string, componentType: string)
    ensures 1 <= DatasheetSearch.Min(MaxDownloads, |Dedupe(DatasheetSearch.CandidateUrls(componentName, componentType))|) <= MaxDownloads
  {
    DatasheetSearch.SearchDatasheetsFirst(componentName, componentType);
  }
}
