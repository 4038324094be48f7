/** Candidate-URL generation of the datasheet downloader
  * (ai-easyeda-compiler/datasheet-downloader.js): the manufacturer guess,
  * the five search strategies, and the order-preserving de-duplication of
  * their concatenation. Each generator that fills a local array in a loop is
  * a method proved equal to the function that specifies it. */
module DatasheetSearch {
  import opened Wrappers
  import opened Strings
  import opened Seqs

  type PatternRow = (string, seq<string>)

  function Min(a: int, b: int): int { if a <= b then a else b }

  // Fixed text of the URL templates and search queries.
  const TiSymlink: string := "https://www.ti.com/lit/ds/symlink/"
  const AnalogTechDocs: string := "https://www.analog.com/media/en/technical-documentation/"
  const MicrochipDeviceDoc: string := "https://ww1.microchip.com/downloads/en/DeviceDoc/"
  const StDatasheet: string := "https://www.st.com/resource/en/datasheet/"
  const NxpDataSheet: string := "https://www.nxp.com/docs/en/data-sheet/"
  const InfineonDgdl: string := "https://www.infineon.com/dgdl/"
  const OnsemiDatasheet: string := "https://www.onsemi.com/pdf/datasheet/"
  const VishayDocs: string := "https://www.vishay.com/docs/"
  const DiodesDatasheets: string := "https://www.diodes.com/assets/Datasheets/"
  const MaximDomain: string := "maximintegrated.com"
  const SearchPath: string := "view.jsp?Searchword="
  const PdfPath: string := "datasheet-pdf/pdf/"
  const ViewDatasheetPath: string := "view_datasheet.jsp?Searchword="
  const TiSiteQuote: string := "site:ti.com \""
  const TiDocTerms: string := "\" (SLOS OR SBOS OR SLVS OR SLUS) filetype:pdf"
  const AnalogSiteQuote: string := "site:analog.com \""
  const AnalogDocTerms: string := "\" (Rev OR preliminary) filetype:pdf"
  const StSiteQuote: string := "site:st.com \""
  const DsDocTerms: string := "\" \"DS\" filetype:pdf"
  const MicrochipSiteQuote: string := "site:microchip.com \""
  const FiletypeSpaced: string := " filetype:pdf "
  const FiletypeQuote: string := "filetype:pdf \""
  const DatasheetQuoteFiletype: string := " datasheet\" filetype:pdf"
  const IntitleQuote: string := "intitle:\""
  const InurlQuote: string := "inurl:datasheet \""
  const MaxRatingsTerms: string := "\" \"absolute maximum ratings\" filetype:pdf"
  const ElectricalTerms: string := "\" \"electrical characteristics\" filetype:pdf"
  const AggregatorSites: string := "(site:alldatasheet.com OR site:datasheetspdf.com OR site:datasheet4u.com OR site:datasheetarchive.com OR site:datasheets.com) \""
  const QuoteDatasheetFiletype: string := "\" datasheet filetype:pdf"
  const ParenDatasheetFiletype: string := ") datasheet filetype:pdf"
  const TiGpn: string := "https://www.ti.com/lit/gpn/"
  const TiProduct: string := "https://www.ti.com/product/"
  const AnalogDataSheets: string := "https://www.analog.com/media/en/technical-documentation/data-sheets/"
  const StTechnicalDatasheet: string := "https://www.st.com/content/ccc/resource/technical/document/datasheet/"
  const InfineonNamed: string := "https://www.infineon.com/dgdl/Infineon-"
  const EspressifDocumentation: string := "https://www.espressif.com/sites/default/files/documentation/"
  const EspressifSuffix: string := "_datasheet_en.pdf"
  const EspressifFiles: string := "https://www.espressif.com/sites/default/files/"
  const AllDataSheetPdfOne: string := "https://www.alldatasheet.com/datasheet-pdf/pdf/1/"
  const DatasheetsPdfFile: string := "https://datasheetspdf.com/pdf-file/1/"
  const AllDataSheetPdf: string := "https://www.alldatasheet.com/datasheet-pdf/pdf/"
  const DatasheetsPdf: string := "https://datasheetspdf.com/pdf/"
  const ArchiveDownload: string := "https://datasheetarchive.com/pdf/download.php?id="
  const ElectrodragonImages: string := "http://www.electrodragon.com/w/images/"
  const Digchip: string := "https://www.digchip.com/datasheets/"
  const Datasheet4u: string := "https://www.datasheet4u.com/"
  const ArchiveWwwDownload: string := "https://www.datasheetarchive.com/pdf/download.php?id="
  const ArchiveWww: string := "https://www.datasheetarchive.com/"
  const DatasheetCatalog: string := "https://www.datasheetcatalog.com/datasheets_pdf/"
  const DatasheetsSearch: string := "https://www.datasheets.com/search?q="
  const OctopartSearch: string := "https://octopart.com/search?q="
  const SparkfunDatasheets: string := "https://www.sparkfun.com/datasheets/"
  const AdafruitDatasheets: string := "https://cdn-shop.adafruit.com/datasheets/"

  // ---------------------------------------------------------------------
  // Manufacturer guess (guessManufacturer) and the per-manufacturer tables
  // ---------------------------------------------------------------------

  /** The anchored name patterns of each manufacturer, as literal prefixes
    * of the lower-cased name; st's `l[0-9]` is spelled out digit by digit. */
  const TiPrefixes: seq<string> := ["lm", "tps", "tlv", "ina", "ads"]
  const AnalogPrefixes: seq<string> := ["ad", "lt", "adm", "adp"]
  const MicrochipPrefixes: seq<string> := ["pic", "atmega", "attiny", "sam", "mcp"]
  const StPrefixes: seq<string> := ["stm", "l0", "l1", "l2", "l3", "l4", "l5", "l6", "l7", "l8", "l9", "vn"]

  /** The pattern table in its declaration order. */
  const ManufacturerPatterns: seq<PatternRow> := [
    ("ti", TiPrefixes),
    ("analog", AnalogPrefixes),
    ("microchip", MicrochipPrefixes),
    ("st", StPrefixes),
    ("nxp", ["lpc", "i2c", "pca"]),
    ("infineon", ["irfz", "bss", "irf"]),
    ("onsemi", ["2n", "bc", "mur"]),
    ("vishay", ["tsop", "vs", "si"]),
    ("diodes", ["dmg", "dfn"])
  ]

  /** The manufacturers searched when no pattern matches. */
  const GenericManufacturers: seq<string> := ["ti", "analog", "st"]

  /** `/^(p1|p2|...)/.test(name)`. */
  predicate MatchesPattern(name: string, prefixes: seq<string>)
  {
    |prefixes| > 0 && (StartsWith(name, prefixes[0]) || MatchesPattern(name, prefixes[1..]))
  }

  lemma {:induction false} MatchesPatternSpec(name: string, prefixes: seq<string>)
    ensures MatchesPattern(name, prefixes) <==> exists p :: p in prefixes && StartsWith(name, p)
  {
    if |prefixes| > 0 {
      MatchesPatternSpec(name, prefixes[1..]);
      assert forall p :: p in prefixes <==> p == prefixes[0] || p in prefixes[1..];
    }
  }

  /** The ids of the rows whose pattern matches `name`, in row order. */
  function Matching(rows: seq<PatternRow>, name: string): seq<string>
  {
    if |rows| == 0 then []
    else
      var last := rows[|rows| - 1];
      Matching(rows[..|rows| - 1], name) + (if MatchesPattern(name, last.1) then [last.0] else [])
  }

  function GuessedManufacturers(componentName: string): seq<string>
  {
    var found := Matching(ManufacturerPatterns, Lower(componentName));
    if found == [] then GenericManufacturers else found
  }

  method GuessManufacturer(componentName: string) returns (manufacturers: seq<string>)
    ensures manufacturers == GuessedManufacturers(componentName)
  {
    manufacturers := [];
    var name := Lower(componentName);
    var i := 0;
    while i < |ManufacturerPatterns|
      invariant 0 <= i <= |ManufacturerPatterns|
      invariant manufacturers == Matching(ManufacturerPatterns[..i], name)
    {
      var row := ManufacturerPatterns[i];
      if MatchesPattern(name, row.1) {
        manufacturers := manufacturers + [row.0];
      }
      assert ManufacturerPatterns[..i + 1][..i] == ManufacturerPatterns[..i];
      i := i + 1;
    }
    assert ManufacturerPatterns[..i] == ManufacturerPatterns;
    if |manufacturers| == 0 {
      manufacturers := ["ti", "analog", "st"];
    }
  }

  lemma {:induction false} MatchingMembers(rows: seq<PatternRow>, name: string)
    ensures |Matching(rows, name)| <= |rows|
    ensures forall m :: m in Matching(rows, name) ==>
      exists k :: 0 <= k < |rows| && rows[k].0 == m && MatchesPattern(name, rows[k].1)
    ensures forall k :: 0 <= k < |rows| && MatchesPattern(name, rows[k].1) ==> rows[k].0 in Matching(rows, name)
  {
    if |rows| > 0 {
      var init := rows[..|rows| - 1];
      MatchingMembers(init, name);
      forall m | m in Matching(rows, name)
        ensures exists k :: 0 <= k < |rows| && rows[k].0 == m && MatchesPattern(name, rows[k].1)
      {
        if m in Matching(init, name) {
          var k :| 0 <= k < |init| && init[k].0 == m && MatchesPattern(name, init[k].1);
          assert rows[k] == init[k];
        } else {
          assert rows[|rows| - 1].0 == m && MatchesPattern(name, rows[|rows| - 1].1);
        }
      }
      forall k | 0 <= k < |rows| && MatchesPattern(name, rows[k].1)
        ensures rows[k].0 in Matching(rows, name)
      {
        if k < |rows| - 1 {
          assert init[k] == rows[k];
        }
      }
    }
  }

  predicate DistinctIds(rows: seq<PatternRow>)
  {
    forall i, j :: 0 <= i < j < |rows| ==> rows[i].0 != rows[j].0
  }

  lemma TableIdsDistinct()
    ensures DistinctIds(ManufacturerPatterns)
  {
    var ids := ["ti", "analog", "microchip", "st", "nxp", "infineon", "onsemi", "vishay", "diodes"];
    assert forall k :: 0 <= k < 9 ==> ManufacturerPatterns[k].0 == ids[k];
    forall i, j | 0 <= i < j < 9 ensures ids[i] != ids[j] {
      assert ids[i][0] != ids[j][0] || |ids[i]| != |ids[j]| || ids[i][1] != ids[j][1];
    }
  }

  /** With distinct ids, an id is matched exactly when its row's pattern matches. */
  lemma MatchingExactly(rows: seq<PatternRow>, name: string, k: nat)
    requires DistinctIds(rows) && k < |rows|
    ensures rows[k].0 in Matching(rows, name) <==> MatchesPattern(name, rows[k].1)
  {
    MatchingMembers(rows, name);
    if rows[k].0 in Matching(rows, name) {
      var k' :| 0 <= k' < |rows| && rows[k'].0 == rows[k].0 && MatchesPattern(name, rows[k'].1);
      assert k' == k;
    }
  }

  /** The guess is never empty and never longer than the table; with no
    * matching pattern it is exactly ti, analog, st, and otherwise a
    * manufacturer is in it exactly when one of its prefixes starts the
    * lower-cased name. */
  lemma GuessedManufacturersSpec(componentName: string)
    ensures 1 <= |GuessedManufacturers(componentName)| <= |ManufacturerPatterns|
    ensures (forall i :: 0 <= i < |ManufacturerPatterns| ==> !MatchesPattern(Lower(componentName), ManufacturerPatterns[i].1))
      ==> GuessedManufacturers(componentName) == GenericManufacturers
    ensures (exists k :: 0 <= k < |ManufacturerPatterns| && MatchesPattern(Lower(componentName), ManufacturerPatterns[k].1)) ==>
      forall i :: 0 <= i < |ManufacturerPatterns| ==>
        (ManufacturerPatterns[i].0 in GuessedManufacturers(componentName) <==>
         MatchesPattern(Lower(componentName), ManufacturerPatterns[i].1))
  {
    var name := Lower(componentName);
    var rows := ManufacturerPatterns;
    MatchingMembers(rows, name);
    var found := Matching(rows, name);
    if found != [] {
      assert found[0] in found;
    }
    if exists k :: 0 <= k < |rows| && MatchesPattern(name, rows[k].1) {
      assert found != [];
      TableIdsDistinct();
      forall i | 0 <= i < |rows|
        ensures rows[i].0 in found <==> MatchesPattern(name, rows[i].1)
      {
        MatchingExactly(rows, name, i);
      }
    }
  }

  lemma GuessedCount(componentName: string)
    ensures 1 <= |GuessedManufacturers(componentName)| <= |ManufacturerPatterns|
  {
    GuessedManufacturersSpec(componentName);
  }

  /** getManufacturerSites: the datasheet base URL of each manufacturer. */
  function ManufacturerSite(m: string): Option<string>
  {
    match m
    case "ti" => Some(TiSymlink)
    case "analog" => Some(AnalogTechDocs)
    case "microchip" => Some(MicrochipDeviceDoc)
    case "st" => Some(StDatasheet)
    case "nxp" => Some(NxpDataSheet)
    case "infineon" => Some(InfineonDgdl)
    case "onsemi" => Some(OnsemiDatasheet)
    case "vishay" => Some(VishayDocs)
    case "diodes" => Some(DiodesDatasheets)
    case _ => None
  }

  /** getManufacturerDomain: the domain used in a `site:` dork, or null. */
  function ManufacturerDomain(m: string): Option<string>
  {
    match m
    case "ti" => Some("ti.com")
    case "analog" => Some("analog.com")
    case "microchip" => Some("microchip.com")
    case "st" => Some("st.com")
    case "nxp" => Some("nxp.com")
    case "infineon" => Some("infineon.com")
    case "onsemi" => Some("onsemi.com")
    case "vishay" => Some("vishay.com")
    case "diodes" => Some("diodes.com")
    case "espressif" => Some("espressif.com")
    case "maxim" => Some(MaximDomain)
    case "fairchild" => Some("onsemi.com")
    case "freescale" => Some("nxp.com")
    case "atmel" => Some("microchip.com")
    case _ => None
  }

  /** Every guessed manufacturer has a datasheet site and a dork domain. */
  lemma GuessedHaveSites(componentName: string)
    ensures forall m :: m in GuessedManufacturers(componentName) ==>
      ManufacturerSite(m).Some? && ManufacturerDomain(m).Some?
  {
    var name := Lower(componentName);
    MatchingMembers(ManufacturerPatterns, name);
    forall m | m in GuessedManufacturers(componentName)
      ensures ManufacturerSite(m).Some? && ManufacturerDomain(m).Some?
    {
      if m !in GenericManufacturers {
        var k :| 0 <= k < |ManufacturerPatterns| && ManufacturerPatterns[k].0 == m && MatchesPattern(name, ManufacturerPatterns[k].1);
      }
    }
  }

  // ---------------------------------------------------------------------
  // Name variants used inside the URL templates
  // ---------------------------------------------------------------------

  predicate NameChar(c: char) { IsAlnumAscii(c) || c == '-' }
  predicate NotDash(c: char) { c != '-' }

  /** `name.replace(/[^a-zA-Z0-9-]/g, '')`. */
  function Stripped(name: string): string { FilterChars(name, NameChar) }

  function Top3(xs: seq<string>): seq<string> { xs[..Min(3, |xs|)] }

  // ---------------------------------------------------------------------
  // Strategy 1: AllDataSheet (searchAllDataSheet)
  // ---------------------------------------------------------------------

  const AllDataSheet: string := "https://www.alldatasheet.com/"

  /** An AllDataSheet search page and an AllDataSheet PDF page. */
  function ViewPage(query: string): string { AllDataSheet + SearchPath + query }
  function PdfPage(path: string): string { AllDataSheet + PdfPath + path + ".html" }

  /** The six pages for the name as given and its cleaned, upper- and
    * lower-case forms. */
  function AllDataSheetHead(name: string): seq<string>
  {
    var clean := Trim(Stripped(name));
    [ViewPage(name)] + [ViewPage(clean)] + [PdfPage(name)] + [PdfPage(clean)] + [PdfPage(Upper(clean))] + [PdfPage(Lower(clean))]
  }

  /** `urls` followed by the two per-manufacturer PDF pages of each of `mfrs`. */
  function PushMfrPdfUrls(urls: seq<string>, name: string, clean: string, mfrs: seq<string>): seq<string>
  {
    if |mfrs| == 0 then urls
    else
      var up := Upper(mfrs[|mfrs| - 1]);
      PushMfrPdfUrls(urls, name, clean, mfrs[..|mfrs| - 1]) + [PdfPage(name + "/" + up)] + [PdfPage(clean + "/" + up)]
  }

  /** `urls` followed by the two pages for name and type, when there is a type. */
  function PushTypedSearch(urls: seq<string>, name: string, componentType: string): seq<string>
  {
    if componentType != "" then urls + [ViewPage(name + "+" + componentType)] + [PdfPage(name + "+" + componentType)]
    else urls
  }

  /** `urls` followed by the name without hyphens and with spaces for them,
    * when the name has a hyphen. */
  function PushHyphenVariants(urls: seq<string>, name: string): seq<string>
  {
    if '-' in name then urls + [PdfPage(FilterChars(name, NotDash))] + [PdfPage(ReplaceChars(name, NotDash, ' '))]
    else urls
  }

  /** Everything searchAllDataSheet returns, in push order. */
  function AllDataSheetUrls(name: string, componentType: string): seq<string>
  {
    var withMfrs := PushMfrPdfUrls(AllDataSheetHead(name), name, Trim(Stripped(name)), Top3(GuessedManufacturers(name)));
    var withExact := withMfrs + [ViewPage(name + "&sField=4")] + [ViewPage(name + "&sField=2")];
    PushHyphenVariants(PushTypedSearch(withExact, name, componentType), name) + [AllDataSheet + ViewDatasheetPath + name]
  }

  method SearchAllDataSheet(componentName: string, componentType: string) returns (urls: seq<string>)
    ensures urls == AllDataSheetUrls(componentName, componentType)
  {
    var cleanName := Trim(Stripped(componentName));
    urls := [ViewPage(componentName)];
    urls := urls + [ViewPage(cleanName)];
    urls := urls + [PdfPage(componentName)];
    urls := urls + [PdfPage(cleanName)];
    urls := urls + [PdfPage(Upper(cleanName))];
    urls := urls + [PdfPage(Lower(cleanName))];
    var manufacturers := GuessManufacturer(componentName);
    urls := PushManufacturerPdfPages(urls, componentName, cleanName, manufacturers[..Min(3, |manufacturers|)]);
    urls := urls + [ViewPage(componentName + "&sField=4")];
    urls := urls + [ViewPage(componentName + "&sField=2")];
    ghost var beforeType := urls;
    if componentType != "" {
      urls := urls + [ViewPage(componentName + "+" + componentType)];
      urls := urls + [PdfPage(componentName + "+" + componentType)];
    }
    assert urls == PushTypedSearch(beforeType, componentName, componentType);
    ghost var beforeHyphen := urls;
    if '-' in componentName {
      urls := urls + [PdfPage(FilterChars(componentName, NotDash))];
      urls := urls + [PdfPage(ReplaceChars(componentName, NotDash, ' '))];
    }
    assert urls == PushHyphenVariants(beforeHyphen, componentName);
    urls := urls + [AllDataSheet + ViewDatasheetPath + componentName];
  }

  /** The loop over the top three manufacturers of searchAllDataSheet. */
  method PushManufacturerPdfPages(urls0: seq<string>, name: string, clean: string, top: seq<string>)
    returns (urls: seq<string>)
    ensures urls == PushMfrPdfUrls(urls0, name, clean, top)
  {
    urls := urls0;
    var j := 0;
    while j < |top|
      invariant 0 <= j <= |top|
      invariant urls == PushMfrPdfUrls(urls0, name, clean, top[..j])
    {
      var mfrUpper := Upper(top[j]);
      urls := urls + [PdfPage(name + "/" + mfrUpper)];
      urls := urls + [PdfPage(clean + "/" + mfrUpper)];
      assert top[..j + 1][..j] == top[..j];
      j := j + 1;
    }
    assert top[..j] == top;
  }

  lemma {:induction false} PushMfrPdfUrlsCount(urls: seq<string>, name: string, clean: string, mfrs: seq<string>)
    ensures |PushMfrPdfUrls(urls, name, clean, mfrs)| == |urls| + 2 * |mfrs|
  {
    if |mfrs| > 0 {
      PushMfrPdfUrlsCount(urls, name, clean, mfrs[..|mfrs| - 1]);
    }
  }

  /** 9 fixed URLs, 2 per guessed manufacturer up to three, 2 for a component
    * type and 2 for a hyphenated name: never fewer than 11, never more than 19. */
  lemma AllDataSheetUrlCount(name: string, componentType: string)
    ensures |AllDataSheetUrls(name, componentType)|
      == 9 + 2 * Min(3, |GuessedManufacturers(name)|)
         + (if componentType != "" then 2 else 0) + (if '-' in name then 2 else 0)
    ensures 11 <= |AllDataSheetUrls(name, componentType)| <= 19
  {
    GuessedCount(name);
    PushMfrPdfUrlsCount(AllDataSheetHead(name), name, Trim(Stripped(name)), Top3(GuessedManufacturers(name)));
  }

  /** The first URL is the search page for the name as given. */
  lemma AllDataSheetUrlsFirst(name: string, componentType: string)
    ensures |AllDataSheetUrls(name, componentType)| > 0
    ensures AllDataSheetUrls(name, componentType)[0] == ViewPage(name)
  {
    var head := AllDataSheetHead(name);
    var withMfrs := PushMfrPdfUrls(head, name, Trim(Stripped(name)), Top3(GuessedManufacturers(name)));
    PushMfrPdfUrlsPrefix(head, name, Trim(Stripped(name)), Top3(GuessedManufacturers(name)));
    assert withMfrs[0] == withMfrs[..|head|][0];
  }

  lemma {:induction false} PushMfrPdfUrlsPrefix(urls: seq<string>, name: string, clean: string, mfrs: seq<string>)
    ensures |urls| <= |PushMfrPdfUrls(urls, name, clean, mfrs)|
    ensures PushMfrPdfUrls(urls, name, clean, mfrs)[..|urls|] == urls
  {
    if |mfrs| > 0 {
      PushMfrPdfUrlsPrefix(urls, name, clean, mfrs[..|mfrs| - 1]);
    }
  }

  // ---------------------------------------------------------------------
  // Strategy 2: manufacturer sites (searchManufacturerSites)
  // ---------------------------------------------------------------------

  function ManufacturerSiteUrls(name: string, mfrs: seq<string>): seq<string>
  {
    if |mfrs| == 0 then []
    else
      var init := ManufacturerSiteUrls(name, mfrs[..|mfrs| - 1]);
      match ManufacturerSite(mfrs[|mfrs| - 1])
      case Some(base) => init + [base + Lower(Stripped(name)) + ".pdf"] + [base + Lower(name) + ".pdf"]
      case None => init
  }

  method SearchManufacturerSites(componentName: string) returns (urls: seq<string>)
    ensures urls == ManufacturerSiteUrls(componentName, GuessedManufacturers(componentName))
  {
    urls := [];
    var manufacturers := GuessManufacturer(componentName);
    var i := 0;
    while i < |manufacturers|
      invariant 0 <= i <= |manufacturers|
      invariant urls == ManufacturerSiteUrls(componentName, manufacturers[..i])
    {
      var site := ManufacturerSite(manufacturers[i]);
      if site.Some? {
        var baseUrl := site.value;
        var cleanName := Lower(Stripped(componentName));
        urls := urls + [baseUrl + cleanName + ".pdf"];
        urls := urls + [baseUrl + Lower(componentName) + ".pdf"];
      }
      assert manufacturers[..i + 1][..i] == manufacturers[..i];
      i := i + 1;
    }
    assert manufacturers[..i] == manufacturers;
  }

  lemma {:induction false} ManufacturerSiteUrlsCount(name: string, mfrs: seq<string>)
    requires forall m :: m in mfrs ==> ManufacturerSite(m).Some?
    ensures |ManufacturerSiteUrls(name, mfrs)| == 2 * |mfrs|
  {
    if |mfrs| > 0 {
      assert mfrs[|mfrs| - 1] in mfrs;
      ManufacturerSiteUrlsCount(name, mfrs[..|mfrs| - 1]);
    }
  }

  /** Exactly two URLs per guessed manufacturer, with no cap at three. */
  lemma ManufacturerUrlCount(name: string)
    ensures |ManufacturerSiteUrls(name, GuessedManufacturers(name))| == 2 * |GuessedManufacturers(name)|
  {
    GuessedHaveSites(name);
    ManufacturerSiteUrlsCount(name, GuessedManufacturers(name));
  }

  // ---------------------------------------------------------------------
  // Strategy 3: Google dorks (buildGoogleDorks, extractUrlsFromDork, ...)
  // ---------------------------------------------------------------------

  /** `name.replace(/[^a-zA-Z0-9-]/g, ' ').trim()`. */
  function DorkComponent(name: string): string { Trim(ReplaceChars(name, NameChar, ' ')) }

  /** generatePartNumberVariations. */
  function PartNumberVariations(c: string): seq<string>
  {
    Dedupe([c, ReplaceChars(c, NotDash, ' '), FilterChars(c, NotDash), c + " datasheet"])
  }

  /** The variations always hold the name and the name with " datasheet",
    * which differ, so the variations dork is always emitted. */
  lemma VariationsAtLeastTwo(c: string)
    ensures |PartNumberVariations(c)| >= 2
    ensures c in PartNumberVariations(c) && c + " datasheet" in PartNumberVariations(c)
  {
    var xs := [c, ReplaceChars(c, NotDash, ' '), FilterChars(c, NotDash), c + " datasheet"];
    DedupeSpec(xs);
    var r := Dedupe(xs);
    assert xs[0] in xs && xs[3] in xs;
    var i :| 0 <= i < |r| && r[i] == c;
    var j :| 0 <= j < |r| && r[j] == c + " datasheet";
    assert |r[i]| != |r[j]|;
  }

  /** getManufacturerDocPatterns: the first matching family, in ti, analog,
    * st, microchip order. */
  function DocPatternDork(componentName: string): Option<string>
  {
    var name := Lower(componentName);
    if MatchesPattern(name, TiPrefixes) then
      Some(TiSiteQuote + componentName + TiDocTerms)
    else if MatchesPattern(name, AnalogPrefixes) then
      Some(AnalogSiteQuote + componentName + AnalogDocTerms)
    else if MatchesPattern(name, StPrefixes) then
      Some(StSiteQuote + componentName + DsDocTerms)
    else if MatchesPattern(name, MicrochipPrefixes) then
      Some(MicrochipSiteQuote + componentName + DsDocTerms)
    else None
  }

  function SiteDork(domain: string, c: string): string { "site:" + domain + FiletypeSpaced + c }

  /** `dorks` followed by a `site:` dork for each of `mfrs` that has a domain. */
  function PushSiteDorks(dorks: seq<string>, mfrs: seq<string>, c: string): seq<string>
  {
    if |mfrs| == 0 then dorks
    else
      var init := PushSiteDorks(dorks, mfrs[..|mfrs| - 1], c);
      match ManufacturerDomain(mfrs[|mfrs| - 1])
      case Some(d) => init + [SiteDork(d, c)]
      case None => init
  }

  function Quoted(vs: seq<string>): seq<string>
  {
    seq(|vs|, i requires 0 <= i < |vs| => "\"" + vs[i] + "\"")
  }

  function DorkHead(c: string): seq<string>
  {
    [FiletypeQuote + c + " datasheet\""]
    + [IntitleQuote + Split(c, '-')[0] + DatasheetQuoteFiletype]
    + [InurlQuote + c + "\" filetype:pdf"]
  }

  /** `dorks` followed by the three dorks every component gets after the
    * `site:` ones. */
  function PushPhraseDorks(dorks: seq<string>, c: string): seq<string>
  {
    dorks + ["\"" + c + MaxRatingsTerms] + ["\"" + c + ElectricalTerms] + [AggregatorSites + c + "\""]
  }

  function PushTypeDork(dorks: seq<string>, c: string, componentType: string): seq<string>
  {
    if componentType != "" then dorks + ["\"" + c + "\" \"" + componentType + QuoteDatasheetFiletype] else dorks
  }

  function PushVariationsDork(dorks: seq<string>, c: string): seq<string>
  {
    var vs := PartNumberVariations(c);
    if |vs| > 1 then dorks + ["(" + Join(Quoted(vs), " OR ") + ParenDatasheetFiletype] else dorks
  }

  function PushDocDork(dorks: seq<string>, name: string): seq<string>
  {
    match DocPatternDork(name)
    case Some(d) => dorks + [d]
    case None => dorks
  }

  /** Everything buildGoogleDorks returns, in push order. */
  function GoogleDorks(name: string, componentType: string): seq<string>
  {
    var c := DorkComponent(name);
    var withSites := PushSiteDorks(DorkHead(c), Top3(GuessedManufacturers(name)), c);
    PushDocDork(PushVariationsDork(PushTypeDork(PushPhraseDorks(withSites, c), c, componentType), c), name)
  }

  method BuildGoogleDorks(componentName: string, componentType: string) returns (dorks: seq<string>)
    ensures dorks == GoogleDorks(componentName, componentType)
  {
    var component := DorkComponent(componentName);
    dorks := [FiletypeQuote + component + " datasheet\""];
    dorks := dorks + [IntitleQuote + Split(component, '-')[0] + DatasheetQuoteFiletype];
    dorks := dorks + [InurlQuote + component + "\" filetype:pdf"];
    var manufacturers := GuessManufacturer(componentName);
    dorks := PushDomainDorks(dorks, manufacturers[..Min(3, |manufacturers|)], component);
    dorks := dorks + ["\"" + component + MaxRatingsTerms];
    dorks := dorks + ["\"" + component + ElectricalTerms];
    dorks := dorks + [AggregatorSites + component + "\""];
    ghost var beforeType := dorks;
    if componentType != "" {
      dorks := dorks + ["\"" + component + "\" \"" + componentType + QuoteDatasheetFiletype];
    }
    assert dorks == PushTypeDork(beforeType, component, componentType);
    ghost var beforeVariations := dorks;
    var variations := PartNumberVariations(component);
    if |variations| > 1 {
      dorks := dorks + ["(" + Join(Quoted(variations), " OR ") + ParenDatasheetFiletype];
    }
    assert dorks == PushVariationsDork(beforeVariations, component);
    ghost var beforeDoc := dorks;
    var mfrTerms := DocPatternDork(componentName);
    if mfrTerms.Some? {
      dorks := dorks + [mfrTerms.value];
    }
    assert dorks == PushDocDork(beforeDoc, componentName);
  }

  /** The loop of buildGoogleDorks over the top three manufacturers. */
  method PushDomainDorks(dorks0: seq<string>, top: seq<string>, component: string) returns (dorks: seq<string>)
    ensures dorks == PushSiteDorks(dorks0, top, component)
  {
    dorks := dorks0;
    var j := 0;
    while j < |top|
      invariant 0 <= j <= |top|
      invariant dorks == PushSiteDorks(dorks0, top[..j], component)
    {
      var domain := ManufacturerDomain(top[j]);
      if domain.Some? {
        dorks := dorks + [SiteDork(domain.value, component)];
      }
      assert top[..j + 1][..j] == top[..j];
      j := j + 1;
    }
    assert top[..j] == top;
  }

  lemma {:induction false} PushSiteDorksCount(dorks: seq<string>, mfrs: seq<string>, c: string)
    requires forall m :: m in mfrs ==> ManufacturerDomain(m).Some?
    ensures |PushSiteDorks(dorks, mfrs, c)| == |dorks| + |mfrs|
  {
    if |mfrs| > 0 {
      assert mfrs[|mfrs| - 1] in mfrs;
      PushSiteDorksCount(dorks, mfrs[..|mfrs| - 1], c);
    }
  }

  /** Seven fixed dorks (the variations dork is always present), one `site:`
    * dork per top-three guessed manufacturer, one for a type and one for a
    * known part family: between 8 and 12. */
  lemma GoogleDorkCount(name: string, componentType: string)
    ensures |GoogleDorks(name, componentType)|
      == 7 + Min(3, |GuessedManufacturers(name)|)
         + (if componentType != "" then 1 else 0) + (if DocPatternDork(name).Some? then 1 else 0)
    ensures 8 <= |GoogleDorks(name, componentType)| <= 12
  {
    GuessedHaveSites(name);
    GuessedCount(name);
    var c := DorkComponent(name);
    var top := Top3(GuessedManufacturers(name));
    assert forall m :: m in top ==> m in GuessedManufacturers(name);
    PushSiteDorksCount(DorkHead(c), top, c);
    VariationsAtLeastTwo(c);
  }

  /** The run of non-space characters starting at `j`. */
  function NonSpaceRun(s: string, j: nat): (r: string)
    requires j <= |s|
    ensures forall i :: 0 <= i < |r| ==> !IsSpace(r[i])
    ensures j + |r| <= |s| && s[j..j + |r|] == r
    ensures j + |r| == |s| || IsSpace(s[j + |r|])
    decreases |s| - j
  {
    if j == |s| || IsSpace(s[j]) then "" else [s[j]] + NonSpaceRun(s, j + 1)
  }

  /** The capture of `/site:([^\s]+)/` at or after `i`: the leftmost "site:"
    * followed by at least one non-space character. */
  function SiteFrom(dork: string, i: nat): Option<string>
    decreases |dork| - i
  {
    if i + 5 >= |dork| then None
    else if dork[i..i + 5] == "site:" && !IsSpace(dork[i + 5]) then Some(NonSpaceRun(dork, i + 5))
    else SiteFrom(dork, i + 1)
  }

  /** getUrlPatternsForDomain. */
  function DomainPatterns(domain: string, name: string): seq<string>
  {
    var clean := Lower(Stripped(name));
    match domain
    case "ti.com" =>
      [TiSymlink + clean + ".pdf",
       TiGpn + clean,
       TiProduct + name]
    case "analog.com" =>
      [AnalogTechDocs + clean + ".pdf",
       AnalogDataSheets + clean + ".pdf"]
    case "microchip.com" =>
      [MicrochipDeviceDoc + clean + ".pdf",
       MicrochipDeviceDoc + clean + "-datasheet.pdf"]
    case "st.com" =>
      [StDatasheet + clean + ".pdf",
       StTechnicalDatasheet + clean + ".pdf"]
    case "nxp.com" =>
      [NxpDataSheet + name + ".pdf",
       NxpDataSheet + clean + ".pdf"]
    case "infineon.com" =>
      [InfineonNamed + name + "-DataSheet.pdf",
       InfineonDgdl + name + ".pdf"]
    case "espressif.com" =>
      [EspressifDocumentation + clean + EspressifSuffix,
       EspressifFiles + clean + EspressifSuffix]
    case _ => []
  }

  /** A `site:` dork built for a manufacturer names that manufacturer's domain
    * to extractUrlsFromDork. */
  lemma SiteDorkDomain(domain: string, c: string)
    requires |domain| > 0 && forall i :: 0 <= i < |domain| ==> !IsSpace(domain[i])
    ensures SiteFrom(SiteDork(domain, c), 0) == Some(domain)
  {
    var d := SiteDork(domain, c);
    assert d[0..5] == "site:";
    assert d[5] == domain[0];
    var r := NonSpaceRun(d, 5);
    assert d[5..5 + |domain|] == domain;
    assert d[5 + |domain|] == ' ';
    NonSpaceRunExact(d, 5, |domain|);
  }

  lemma {:induction false} NonSpaceRunExact(s: string, j: nat, n: nat)
    requires j + n < |s| && IsSpace(s[j + n])
    requires forall i :: j <= i < j + n ==> !IsSpace(s[i])
    ensures NonSpaceRun(s, j) == s[j..j + n]
    decreases n
  {
    if n > 0 {
      NonSpaceRunExact(s, j + 1, n - 1);
      assert s[j..j + n] == [s[j]] + s[j + 1..j + n];
    }
  }

  /** extractUrlsFromDork: the patterns of the dork's first `site:` domain,
    * then ten URLs common to every dork. */
  function SitePatterns(dork: string, name: string): seq<string>
  {
    match SiteFrom(dork, 0)
    case Some(domain) => DomainPatterns(domain, name)
    case None => []
  }

  function CommonDorkUrls(name: string): seq<string>
  {
    var clean := Lower(Stripped(name));
    var underscored := Lower(ReplaceChars(name, IsAlnumAscii, '_'));
    var dashed := Lower(ReplaceChars(name, IsAlnumAscii, '-'));
    [AllDataSheetPdfOne + clean + ".html",
     DatasheetsPdfFile + clean + "/1",
     TiSymlink + clean + ".pdf",
     AnalogTechDocs + clean + ".pdf",
     MicrochipDeviceDoc + clean + ".pdf",
     StDatasheet + clean + ".pdf",
     AllDataSheetPdf + dashed + ".html",
     DatasheetsPdf + underscored,
     ArchiveDownload + clean,
     ElectrodragonImages + name + "_Datasheet.pdf"]
  }

  function DorkUrls(dork: string, name: string): seq<string>
  {
    SitePatterns(dork, name) + CommonDorkUrls(name)
  }

  /** Every dork yields its domain's patterns followed by the ten common URLs;
    * the domain is the first `site:` operand, so each manufacturer dork
    * yields that manufacturer's patterns. */
  lemma DorkUrlsShape(dork: string, name: string, domain: string, c: string)
    requires |domain| > 0 && forall i :: 0 <= i < |domain| ==> !IsSpace(domain[i])
    ensures |DorkUrls(dork, name)| == |SitePatterns(dork, name)| + 10
    ensures DorkUrls(SiteDork(domain, c), name) == DomainPatterns(domain, name) + CommonDorkUrls(name)
  {
    SiteDorkDomain(domain, c);
  }

  function AllDorkUrls(dorks: seq<string>, name: string): seq<string>
  {
    if |dorks| == 0 then [] else AllDorkUrls(dorks[..|dorks| - 1], name) + DorkUrls(dorks[|dorks| - 1], name)
  }

  /** googleDorkSearch: the URLs of every dork, dork by dork. */
  method GoogleDorkSearch(componentName: string, componentType: string) returns (urls: seq<string>)
    ensures urls == AllDorkUrls(GoogleDorks(componentName, componentType), componentName)
  {
    var dorkQueries := BuildGoogleDorks(componentName, componentType);
    urls := CollectDorkUrls(dorkQueries, componentName);
  }

  /** The loop of googleDorkSearch over the dork queries. */
  method CollectDorkUrls(dorkQueries: seq<string>, componentName: string) returns (urls: seq<string>)
    ensures urls == AllDorkUrls(dorkQueries, componentName)
  {
    urls := [];
    var i := 0;
    while i < |dorkQueries|
      invariant 0 <= i <= |dorkQueries|
      invariant urls == AllDorkUrls(dorkQueries[..i], componentName)
    {
      urls := urls + DorkUrls(dorkQueries[i], componentName);
      assert dorkQueries[..i + 1][..i] == dorkQueries[..i];
      i := i + 1;
    }
    assert dorkQueries[..i] == dorkQueries;
  }

  lemma {:induction false} AllDorkUrlsAtLeast(dorks: seq<string>, name: string)
    ensures |AllDorkUrls(dorks, name)| >= 10 * |dorks|
  {
    if |dorks| > 0 {
      AllDorkUrlsAtLeast(dorks[..|dorks| - 1], name);
    }
  }

  // ---------------------------------------------------------------------
  // Strategies 4 and 5: hosting sites and component type
  // ---------------------------------------------------------------------

  /** `encodeURIComponent`: UTF-8 bytes of everything outside the unreserved
    * set, as upper-case `%XX`. */
  predicate Unreserved(c: char)
  {
    IsAlnumAscii(c) || c in "-_.!~*'()"
  }

  function HexDigit(d: nat): (c: char)
    requires d < 16
  {
    if d < 10 then ('0' as int + d) as char else ('A' as int + d - 10) as char
  }

  function Percent(b: nat): string
    requires b < 256
  {
    ['%', HexDigit(b / 16), HexDigit(b % 16)]
  }

  function Utf8(cp: nat): (bytes: seq<nat>)
    requires cp < 0x110000
    ensures 1 <= |bytes| <= 4 && forall i :: 0 <= i < |bytes| ==> bytes[i] < 256
  {
    if cp < 0x80 then [cp]
    else if cp < 0x800 then [0xC0 + cp / 64, 0x80 + cp % 64]
    else if cp < 0x10000 then [0xE0 + cp / 4096, 0x80 + (cp / 64) % 64, 0x80 + cp % 64]
    else [0xF0 + cp / 262144, 0x80 + (cp / 4096) % 64, 0x80 + (cp / 64) % 64, 0x80 + cp % 64]
  }

  function PercentAll(bytes: seq<nat>): string
    requires forall i :: 0 <= i < |bytes| ==> bytes[i] < 256
  {
    if |bytes| == 0 then "" else Percent(bytes[0]) + PercentAll(bytes[1..])
  }

  function EncodeUriComponent(s: string): string
  {
    if |s| == 0 then ""
    else
      (if Unreserved(s[0]) then [s[0]] else PercentAll(Utf8(s[0] as nat)))
      + EncodeUriComponent(s[1..])
  }

  /** `componentName[0]` inside a template: "undefined" for an empty name. */
  function FirstCharText(name: string): string
  {
    if |name| > 0 then [name[0]] else "undefined"
  }

  /** searchHostingSites: thirteen fixed templates. */
  function HostingSiteUrls(name: string): (r: seq<string>)
    ensures |r| == 13
  {
    var clean := Lower(Stripped(name));
    [DatasheetsPdf + name,
     DatasheetsPdfFile + clean + "/1",
     Digchip + name + ".html",
     Digchip + clean + ".html",
     Datasheet4u + name + ".html",
     Datasheet4u + clean + ".html",
     ArchiveWwwDownload + clean,
     ArchiveWww + name + "-datasheet.html",
     DatasheetCatalog + FirstCharText(name) + "/" + name + ".shtml",
     DatasheetsSearch + EncodeUriComponent(name),
     OctopartSearch + name,
     SparkfunDatasheets + name + ".pdf",
     AdafruitDatasheets + name + ".pdf"]
  }

  /** searchByType's keyword table. */
  function TypeKeywords(t: string): seq<string>
  {
    match t
    case "IC" => ["microcontroller", "integrated-circuit"]
    case "MOSFET" => ["mosfet", "transistor"]
    case "LED" => ["led", "light-emitting-diode"]
    case "Sensor" => ["sensor", "transducer"]
    case "Regulator" => ["voltage-regulator", "ldo"]
    case _ => []
  }

  function TypeUrls(name: string, keywords: seq<string>): seq<string>
  {
    if |keywords| == 0 then []
    else TypeUrls(name, keywords[..|keywords| - 1]) + [PdfPage(name + "/" + keywords[|keywords| - 1])]
  }

  method SearchByType(componentName: string, componentType: string) returns (urls: seq<string>)
    ensures urls == TypeUrls(componentName, TypeKeywords(componentType))
  {
    urls := [];
    var keywords := TypeKeywords(componentType);
    var i := 0;
    while i < |keywords|
      invariant 0 <= i <= |keywords|
      invariant urls == TypeUrls(componentName, keywords[..i])
    {
      urls := urls + [PdfPage(componentName + "/" + keywords[i])];
      assert keywords[..i + 1][..i] == keywords[..i];
      i := i + 1;
    }
    assert keywords[..i] == keywords;
  }

  lemma {:induction false} TypeUrlsCount(name: string, keywords: seq<string>)
    ensures |TypeUrls(name, keywords)| == |keywords|
  {
    if |keywords| > 0 {
      TypeUrlsCount(name, keywords[..|keywords| - 1]);
    }
  }

  /** Two URLs for IC, MOSFET, LED, Sensor and Regulator; none otherwise. */
  lemma TypeUrlCount(name: string, t: string)
    ensures |TypeUrls(name, TypeKeywords(t))| == if t in {"IC", "MOSFET", "LED", "Sensor", "Regulator"} then 2 else 0
  {
    TypeUrlsCount(name, TypeKeywords(t));
  }

  // ---------------------------------------------------------------------
  // searchDatasheets: concatenation in strategy order, then de-duplication
  // ---------------------------------------------------------------------

  function TypeStrategy(name: string, componentType: string): seq<string>
  {
    if componentType != "" then TypeUrls(name, TypeKeywords(componentType)) else []
  }

  /** Every generated URL, in the order the strategies push them. */
  function CandidateUrls(name: string, componentType: string): seq<string>
  {
    AllDataSheetUrls(name, componentType)
    + ManufacturerSiteUrls(name, GuessedManufacturers(name))
    + AllDorkUrls(GoogleDorks(name, componentType), name)
    + HostingSiteUrls(name)
    + TypeStrategy(name, componentType)
  }

  /** The strategy sequence of searchDatasheets: each strategy's URLs are
    * appended in turn, the type search only for a non-empty type. */
  method GatherCandidates(componentName: string, componentType: string) returns (urls: seq<string>)
    ensures urls == CandidateUrls(componentName, componentType)
  {
    urls := SearchAllDataSheet(componentName, componentType);
    var manufacturerUrls := SearchManufacturerSites(componentName);
    urls := urls + manufacturerUrls;
    var dorkUrls := GoogleDorkSearch(componentName, componentType);
    urls := urls + dorkUrls;
    urls := urls + HostingSiteUrls(componentName);
    ghost var beforeType := urls;
    if componentType != "" {
      var typeUrls := SearchByType(componentName, componentType);
      urls := urls + typeUrls;
    }
    assert urls == beforeType + TypeStrategy(componentName, componentType);
  }

  /** searchDatasheets: the candidates without repeats, first occurrences
    * kept in order, and how many repeats were dropped. */
  method SearchDatasheets(componentName: string, componentType: string)
    returns (uniqueUrls: seq<string>, duplicatesRemoved: nat)
    ensures uniqueUrls == Dedupe(CandidateUrls(componentName, componentType))
    ensures |uniqueUrls| + duplicatesRemoved == |CandidateUrls(componentName, componentType)|
  {
    var urls := GatherCandidates(componentName, componentType);
    uniqueUrls := Dedupe(urls);
    DedupeSpec(urls);
    duplicatesRemoved := |urls| - |uniqueUrls|;
  }

  /** What the later strategies add after AllDataSheet. */
  function LaterStrategies(name: string, componentType: string): seq<string>
  {
    ManufacturerSiteUrls(name, GuessedManufacturers(name))
    + AllDorkUrls(GoogleDorks(name, componentType), name)
    + HostingSiteUrls(name)
    + TypeStrategy(name, componentType)
  }

  lemma CandidateSplit(name: string, componentType: string)
    ensures CandidateUrls(name, componentType) == AllDataSheetUrls(name, componentType) + LaterStrategies(name, componentType)
  {
    AppendAssoc(AllDataSheetUrls(name, componentType), ManufacturerSiteUrls(name, GuessedManufacturers(name)),
      AllDorkUrls(GoogleDorks(name, componentType), name), HostingSiteUrls(name), TypeStrategy(name, componentType));
  }

  /** The de-duplicated candidates start with the de-duplicated AllDataSheet
    * URLs, followed by the new URLs of the later strategies in order. */
  lemma SearchDatasheetsOrder(name: string, componentType: string)
    ensures Dedupe(CandidateUrls(name, componentType))
      == Dedupe(AllDataSheetUrls(name, componentType))
         + Dedupe(Unseen(LaterStrategies(name, componentType), AllDataSheetUrls(name, componentType)))
  {
    CandidateSplit(name, componentType);
    DedupeAppend(AllDataSheetUrls(name, componentType), LaterStrategies(name, componentType));
  }

  /** The first de-duplicated candidate is the plain AllDataSheet search page. */
  lemma SearchDatasheetsFirst(name: string, componentType: string)
    ensures |Dedupe(CandidateUrls(name, componentType))| > 0
    ensures Dedupe(CandidateUrls(name, componentType))[0] == ViewPage(name)
  {
    SearchDatasheetsOrder(name, componentType);
    AllDataSheetUrlsFirst(name, componentType);
    DedupeFirst(AllDataSheetUrls(name, componentType));
  }

  /** Every candidate appears exactly once, nothing else appears, and a
    * second de-duplication changes nothing. */
  lemma SearchDatasheetsUnique(name: string, componentType: string)
    ensures NoDups(Dedupe(CandidateUrls(name, componentType)))
    ensures forall u :: u in Dedupe(CandidateUrls(name, componentType)) <==> u in CandidateUrls(name, componentType)
    ensures Dedupe(Dedupe(CandidateUrls(name, componentType))) == Dedupe(CandidateUrls(name, componentType))
  {
    DedupeSpec(CandidateUrls(name, componentType));
    DedupeIdempotent(CandidateUrls(name, componentType));
  }
}
