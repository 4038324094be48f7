/** The automatic PCB designer (both the optimized and the original
  * version): which requirement files a scan picks up and marks processed,
  * the project history and the master index built from it, the schematic
  * layout and, in the original version, the pin table. The pipeline steps a
  * requirement goes through (reading, extraction, downloads, model calls,
  * file writes) are summed up by their outcome, given as a parameter. */
module PcbDesigner {
  import opened Wrappers
  import opened Strings
  import opened Seqs
  import NatText
  import KnowledgeLoader

  const MdExt := ".md"

  /** `path.join(dir, name)` for a bare directory entry. */
  function PathJoin(dir: string, name: string): string
  {
    dir + "/" + name
  }

  lemma PathJoinInjective(dir: string, a: string, b: string)
    requires PathJoin(dir, a) == PathJoin(dir, b)
    ensures a == b
  {
    assert a == PathJoin(dir, a)[|dir| + 1..];
    assert b == PathJoin(dir, b)[|dir| + 1..];
  }

  predicate IsMd(f: string) { EndsWith(f, MdExt) }

  /** The directory entries ending in `.md`, in listing order. */
  function MdNames(listing: seq<string>): seq<string>
  {
    Filter(listing, IsMd)
  }

  /** `newFiles`: the `.md` entries whose joined path is not yet processed. */
  function NewNames(dir: string, listing: seq<string>, processed: set<string>): seq<string>
  {
    Filter(MdNames(listing), (f: string) => PathJoin(dir, f) !in processed)
  }

  lemma NewNamesSpec(dir: string, listing: seq<string>, processed: set<string>)
    ensures forall n :: n in NewNames(dir, listing, processed) <==>
      n in listing && IsMd(n) && PathJoin(dir, n) !in processed
  {
    FilterSpec(listing, IsMd);
    FilterSpec(MdNames(listing), (f: string) => PathJoin(dir, f) !in processed);
  }

  // ---------------------------------------------------------------------
  // Project names and the history record
  // ---------------------------------------------------------------------

  /** `filename.replace('.md', '')` as written: the FIRST `.md` in the name
    * is removed, wherever it occurs. */
  function ProjectNameAsWritten(filename: string): string
  {
    ReplaceFirst(filename, MdExt, "")
  }

  /** The evidently intended project name: the file name without its `.md`
    * extension. */
  function ProjectName(filename: string): (r: string)
    ensures IsMd(filename) ==> r + MdExt == filename
    ensures !IsMd(filename) ==> r == filename
  {
    if IsMd(filename) then filename[..|filename| - |MdExt|] else filename
  }

  /** A name holding `.md` before its extension loses the inner one. */
  lemma ProjectNameAsWrittenDropsInner()
    ensures ProjectNameAsWritten("v1.md-draft.md") == "v1-draft.md"
    ensures ProjectName("v1.md-draft.md") == "v1.md-draft"
  {
    var f := "v1.md-draft.md";
    assert f[0..3][0] == 'v' && f[1..4][0] == '1';
    assert PrefixAt(f, MdExt, 2);
    assert f[..2] + "" + f[5..] == "v1-draft.md";
  }

  /** Where `.md` occurs only as the extension, the two readings agree. */
  lemma ProjectNameAgrees(filename: string)
    requires IsMd(filename)
    requires forall i :: 0 <= i < |filename| - |MdExt| ==> !PrefixAt(filename, MdExt, i)
    ensures ProjectNameAsWritten(filename) == ProjectName(filename)
  {
    var k := |filename| - |MdExt|;
    assert PrefixAt(filename, MdExt, k);
    assert filename[k + |MdExt|..] == "";
  }

  /** `toISOString().replace(/[:.]/g, '-')`. */
  function Stamp(iso: string): (r: string)
    ensures |r| == |iso|
    ensures forall i :: 0 <= i < |r| ==> r[i] != ':' && r[i] != '.'
    ensures (forall i :: 0 <= i < |iso| ==> iso[i] != ':' && iso[i] != '.') ==> r == iso
  {
    ReplaceChars(iso, (c: char) => c != ':' && c != '.', '-')
  }

  /** What a successful `processRequirement` observed: the clock reading at
    * its start and the number of components it extracted. */
  datatype Run = Run(isoTime: string, components: nat)

  datatype Project = Project(
    name: string,
    timestamp: string,
    inputFile: string,
    components: nat,
    pinTable: string,
    schematic: string,
    doc: string,
    log: string)

  function PinTableFile(p: string, ts: string): string { p + "_pins_" + ts + ".md" }
  function SchematicFile(p: string, ts: string): string { p + "_schematic_" + ts + ".json" }
  function DocFile(p: string, ts: string): string { p + "_" + ts + ".md" }
  function LogFile(p: string, ts: string): string { p + "_" + ts + ".log" }

  /** The history record pushed for a requirement file. Both designers name
    * the project with the as-written `replace('.md', '')`, so a `.md` file
    * loses exactly three characters, though not always its extension. */
  function ProjectOf(filename: string, run: Run): Project
  {
    var p := ProjectNameAsWritten(filename);
    var ts := Stamp(run.isoTime);
    Project(p, ts, filename, run.components,
      PinTableFile(p, ts), SchematicFile(p, ts), DocFile(p, ts), LogFile(p, ts))
  }

  /** The record keeps the input file, the component count and the stamp;
    * a `.md` file name loses exactly three characters, and a name holding
    * no `.md` is kept whole. */
  lemma ProjectOfSpec(filename: string, run: Run)
    ensures var r := ProjectOf(filename, run);
      r.inputFile == filename && r.components == run.components && r.timestamp == Stamp(run.isoTime)
      && (IsMd(filename) ==> |r.name| + |MdExt| == |filename|)
      && (IndexOfFrom(filename, MdExt, 0).None? ==> r.name == filename)
  {
    if IsMd(filename) {
      assert PrefixAt(filename, MdExt, |filename| - |MdExt|);
    }
  }

  /** The record of "v1.md-draft.md" carries the name the source gives it,
    * and its pin table is written under that name. */
  lemma ProjectOfInnerMd(run: Run)
    ensures ProjectOf("v1.md-draft.md", run).name == "v1-draft.md"
    ensures ProjectOf("v1.md-draft.md", run).pinTable ==
      "v1-draft.md" + "_pins_" + Stamp(run.isoTime) + ".md"
  {
    ProjectNameAsWrittenDropsInner();
  }

  /** The four output files of one project never collide. */
  lemma {:induction false} OutputsDistinct(filename: string, run: Run)
    ensures var r := ProjectOf(filename, run);
      |{r.pinTable, r.schematic, r.doc, r.log}| == 4
  {
    var r := ProjectOf(filename, run);
    var n := |r.name| + |r.timestamp|;
    assert |r.pinTable| == n + 9 && |r.schematic| == n + 16;
    assert |r.doc| == n + 4 && |r.log| == n + 5;
  }

  /** The projects pushed while processing `names` in order. */
  function Projects(dir: string, names: seq<string>, outcome: string -> Option<Run>): seq<Project>
  {
    if |names| == 0 then []
    else
      var prev := Projects(dir, names[..|names| - 1], outcome);
      var n := names[|names| - 1];
      match outcome(PathJoin(dir, n))
      case None => prev
      case Some(run) => prev + [ProjectOf(n, run)]
  }

  /** The paths whose processing succeeded. */
  function Succeeded(dir: string, names: seq<string>, outcome: string -> Option<Run>): set<string>
  {
    if |names| == 0 then {}
    else
      var prev := Succeeded(dir, names[..|names| - 1], outcome);
      var f := PathJoin(dir, names[|names| - 1]);
      if outcome(f).Some? then prev + {f} else prev
  }

  /** The paths of all the given names. */
  function AllPaths(dir: string, names: seq<string>): set<string>
  {
    if |names| == 0 then {} else AllPaths(dir, names[..|names| - 1]) + {PathJoin(dir, names[|names| - 1])}
  }

  lemma {:induction false} SucceededSpec(dir: string, names: seq<string>, outcome: string -> Option<Run>, f: string)
    ensures f in Succeeded(dir, names, outcome) <==>
      outcome(f).Some? && exists n :: n in names && f == PathJoin(dir, n)
  {
    if |names| > 0 {
      var init := names[..|names| - 1];
      SucceededSpec(dir, init, outcome, f);
      assert names == init + [names[|names| - 1]];
      if outcome(f).Some? && f !in Succeeded(dir, init, outcome) && f == PathJoin(dir, names[|names| - 1]) {
        assert names[|names| - 1] in names;
      }
      forall n | n in names && f == PathJoin(dir, n) && n != names[|names| - 1]
        ensures n in init
      {
      }
    }
  }

  lemma {:induction false} AllPathsSpec(dir: string, names: seq<string>, n: string)
    requires n in names
    ensures PathJoin(dir, n) in AllPaths(dir, names)
  {
    var init := names[..|names| - 1];
    assert names == init + [names[|names| - 1]];
    if n != names[|names| - 1] {
      AllPathsSpec(dir, init, n);
    }
  }

  lemma ProjectsSnoc(dir: string, names: seq<string>, n: string, outcome: string -> Option<Run>)
    ensures Projects(dir, names + [n], outcome) ==
      Projects(dir, names, outcome) + (match outcome(PathJoin(dir, n))
        case None => []
        case Some(run) => [ProjectOf(n, run)])
    ensures Succeeded(dir, names + [n], outcome) ==
      Succeeded(dir, names, outcome) + (if outcome(PathJoin(dir, n)).Some? then {PathJoin(dir, n)} else {})
    ensures AllPaths(dir, names + [n]) == AllPaths(dir, names) + {PathJoin(dir, n)}
  {
    assert (names + [n])[..|names|] == names;
  }

  /** Optimized version: a file whose processing threw is not marked, so
    * the next scan of the same listing offers it again. */
  lemma FailedFileRetried(dir: string, listing: seq<string>, processed: set<string>,
                          outcome: string -> Option<Run>, n: string)
    requires n in NewNames(dir, listing, processed)
    requires outcome(PathJoin(dir, n)).None?
    ensures n in NewNames(dir, listing, processed + Succeeded(dir, NewNames(dir, listing, processed), outcome))
  {
    NewNamesSpec(dir, listing, processed);
    SucceededSpec(dir, NewNames(dir, listing, processed), outcome, PathJoin(dir, n));
    NewNamesSpec(dir, listing, processed + Succeeded(dir, NewNames(dir, listing, processed), outcome));
  }

  /** Optimized version: a file processed successfully is not offered
    * again. */
  lemma SucceededNotRetried(dir: string, listing: seq<string>, processed: set<string>,
                            outcome: string -> Option<Run>, n: string)
    requires n in NewNames(dir, listing, processed)
    requires outcome(PathJoin(dir, n)).Some?
    ensures n !in NewNames(dir, listing, processed + Succeeded(dir, NewNames(dir, listing, processed), outcome))
  {
    SucceededSpec(dir, NewNames(dir, listing, processed), outcome, PathJoin(dir, n));
    NewNamesSpec(dir, listing, processed + Succeeded(dir, NewNames(dir, listing, processed), outcome));
  }

  /** Original version: every new file is marked, failed or not, so a
    * second scan of the same listing finds nothing new. */
  lemma NeverRetried(dir: string, listing: seq<string>, processed: set<string>)
    ensures NewNames(dir, listing, processed + AllPaths(dir, NewNames(dir, listing, processed))) == []
  {
    var news := NewNames(dir, listing, processed);
    var after := processed + AllPaths(dir, news);
    NewNamesSpec(dir, listing, processed);
    FilterSpec(listing, IsMd);
    forall n | n in MdNames(listing)
      ensures PathJoin(dir, n) in after
    {
      if PathJoin(dir, n) !in processed {
        AllPathsSpec(dir, news, n);
      }
    }
    FilterNone(MdNames(listing), (f: string) => PathJoin(dir, f) !in after);
  }

  // ---------------------------------------------------------------------
  // Master index
  // ---------------------------------------------------------------------

  const Done := "\U{2705}"
  const IndexHead :=
    "# PCB Projects - Master Index\n"
    + "\n"
    + "**Updated:** "
  const TotalCaption := "\n**Total:** "
  const IndexTableGap :=
    "\n"
    + "\n"
    + "| # | Project | Components | Sta"
    + "tus |\n"
    + "|---|---------|------------|----"
    + "----|\n"

  /** The optimized index row of project `i` (0-based), numbered `i + 1`. */
  function IndexRow(i: nat, p: Project): string
  {
    "| " + NatText.NatStr(i + 1) + IndexRowRest(p)
  }

  function IndexRowRest(p: Project): string
  {
    " | " + p.name + " | " + NatText.NatStr(p.components) + " | " + Done + " |\n"
  }

  /** The rows of the first `|h|` projects. */
  function IndexRows(h: seq<Project>): string
  {
    if |h| == 0 then "" else IndexRows(h[..|h| - 1]) + IndexRow(|h| - 1, h[|h| - 1])
  }

  function IndexPrefix(now: string): string
  {
    IndexHead + now + TotalCaption
  }

  /** The optimized MASTER-INDEX.md. */
  function OptimizedIndex(now: string, h: seq<Project>): string
  {
    IndexPrefix(now) + NatText.NatStr(|h|) + IndexRest(h)
  }

  function IndexRest(h: seq<Project>): string
  {
    IndexTableGap + IndexRows(h)
  }

  /** The Total line reads back as the history length. */
  lemma OptimizedTotal(now: string, h: seq<Project>)
    ensures NatText.ParseInt(OptimizedIndex(now, h)[|IndexPrefix(now)|..]) == Some(|h|)
  {
    DropFront(IndexPrefix(now), NatText.NatStr(|h|), IndexRest(h));
    assert IndexRest(h)[0] == IndexTableGap[0] == '\n';
    NatText.ParseNatStrThen(|h|, IndexRest(h));
  }

  /** Row `i` carries the number `i + 1`, and rows of different positions
    * differ. */
  lemma IndexRowNumber(i: nat, p: Project)
    ensures NatText.ParseInt(IndexRow(i, p)[2..]) == Some(i + 1)
  {
    DropFront("| ", NatText.NatStr(i + 1), IndexRowRest(p));
    NatText.ParseNatStrThen(i + 1, IndexRowRest(p));
  }

  lemma IndexRowsDistinct(i: nat, j: nat, p: Project, q: Project)
    requires i != j
    ensures IndexRow(i, p) != IndexRow(j, q)
  {
    NatText.DelimitedDistinct("| ", i + 1, j + 1, IndexRowRest(p), IndexRowRest(q));
  }

  lemma IndexRowsStep(h: seq<Project>, i: nat)
    requires i < |h|
    ensures IndexRows(h[..i + 1]) == IndexRows(h[..i]) + IndexRow(i, h[i])
  {
    assert h[..i + 1][..i] == h[..i];
  }

  /** `.toLowerCase().replace(/\s+/g, '-')`: each run of white space becomes
    * one dash. */
  function Slug(name: string): (r: string)
    ensures forall i :: 0 <= i < |r| ==> !IsSpace(r[i])
    ensures (forall i :: 0 <= i < |name| ==> !IsSpace(name[i])) ==> r == Lower(name)
  {
    DashSpaces(Lower(name))
  }

  function DashSpaces(s: string): (r: string)
    ensures forall i :: 0 <= i < |r| ==> !IsSpace(r[i])
    ensures (forall i :: 0 <= i < |s| ==> !IsSpace(s[i])) ==> r == s
  {
    if |s| == 0 then ""
    else if IsSpace(s[0]) then "-" + DashSpaces(TrimStart(s[1..]))
    else [s[0]] + DashSpaces(s[1..])
  }

  const OrigIndexHead :=
    "# PCB Design Projects - Master I"
    + "ndex\n"
    + "\n"
    + "**Last Updated:** "
  const OrigTotalCaption := "\n**Total Projects:** "
  const OverviewHead :=
    "\n"
    + "\n"
    + "---\n"
    + "\n"
    + "## Project Overview\n"
    + "\n"
    + "| # | Project | Date | Component"
    + "s | Status |\n"
    + "|---|---------|------|----------"
    + "--|--------|\n"
  const DetailsHead := "\n---\n\n## Detailed Projects\n\n"
  const OrigTrailer :=
    "## System Status\n"
    + "\n"
    + "- \U{2705} Monitoring active\n"
    + "- \U{1F4C2} Watching: `inputs/` folder\n"
    + "- \U{23F1}\U{FE0F}  Check interval: Every 1 mi"
    + "nute\n"
    + "- \U{1F3AF} Auto-processing enabled\n"
    + "\n"
    + "## How to Use\n"
    + "\n"
    + "1. Create a `.md` file in `input"
    + "s/` folder\n"
    + "2. Describe your PCB design and "
    + "components\n"
    + "3. System will automatically:\n"
    + "   - Download datasheets\n"
    + "   - Extract specifications with"
    + " Ollama\n"
    + "   - Generate pin tables\n"
    + "   - Create schematics\n"
    + "   - Update this index\n"
    + "\n"

  /** The date shown for a project: the stamp with every `-` turned back
    * into `:`, handed to the locale's date rendering `dateOf`. */
  function DateShown(timestamp: string, dateOf: string -> string): string
  {
    dateOf(ReplaceChars(timestamp, (c: char) => c != '-', ':'))
  }

  function OverviewRow(i: nat, p: Project, dateOf: string -> string): string
  {
    "| " + NatText.NatStr(i + 1) + OverviewRowRest(p, dateOf)
  }

  const OverviewPieces := [" | [", "](#", ") | ", " | ", " | \U{2705} Complete |\n"]

  function OverviewRowRest(p: Project, dateOf: string -> string): string
  {
    Fill(OverviewPieces, [p.name, Slug(p.name), DateShown(p.timestamp, dateOf), NatText.NatStr(p.components)])
  }

  function OverviewRows(h: seq<Project>, dateOf: string -> string): string
  {
    if |h| == 0 then "" else OverviewRows(h[..|h| - 1], dateOf) + OverviewRow(|h| - 1, h[|h| - 1], dateOf)
  }

  function Detail(i: nat, p: Project): string
  {
    "### " + NatText.NatStr(i + 1) + DetailRest(p)
  }

  const DetailPieces := [
    ". ", "\n\n**Created:** ", "\n**Input File:** `inputs/", "`\n**Components:** ",
    "\n\n**Outputs:**\n", "- Documentation: [", "](outputs/docs/",
    ")\n- Pin Table: [", "](outputs/pin-tables/", ")\n- Schematic: [", "](outputs/schematics/",
    ")\n- Log: [", "](outputs/logs/", ")\n\n---\n\n"]

  function DetailRest(p: Project): string
  {
    Fill(DetailPieces, [p.name, p.timestamp, p.inputFile, NatText.NatStr(p.components), "",
      p.doc, p.doc, p.pinTable, p.pinTable, p.schematic, p.schematic, p.log, p.log])
  }

  function Details(h: seq<Project>): string
  {
    if |h| == 0 then "" else Details(h[..|h| - 1]) + Detail(|h| - 1, h[|h| - 1])
  }

  function OrigIndexPrefix(now: string): string
  {
    OrigIndexHead + now + OrigTotalCaption
  }

  /** The original MASTER-INDEX.md. */
  function OriginalIndex(now: string, h: seq<Project>, dateOf: string -> string): string
  {
    OrigIndexPrefix(now) + NatText.NatStr(|h|) + OrigIndexRest(OverviewRows(h, dateOf), Details(h))
  }

  function OrigIndexRest(overview: string, details: string): string
  {
    OverviewHead + overview + DetailsHead + details + OrigTrailer
  }

  /** The Total Projects line reads back as the number of projects `n`,
    * whatever the rows that follow. */
  lemma OriginalTotal(now: string, n: nat, overview: string, details: string)
    ensures var index := OrigIndexPrefix(now) + NatText.NatStr(n) + OrigIndexRest(overview, details);
      NatText.ParseInt(index[|OrigIndexPrefix(now)|..]) == Some(n)
  {
    var rest := OrigIndexRest(overview, details);
    DropFront(OrigIndexPrefix(now), NatText.NatStr(n), rest);
    assert rest[0] == '\n';
    NatText.ParseNatStrThen(n, rest);
  }

  lemma OverviewRowNumber(i: nat, p: Project, dateOf: string -> string)
    ensures NatText.ParseInt(OverviewRow(i, p, dateOf)[2..]) == Some(i + 1)
  {
    DropFront("| ", NatText.NatStr(i + 1), OverviewRowRest(p, dateOf));
    NatText.ParseNatStrThen(i + 1, OverviewRowRest(p, dateOf));
  }

  lemma DetailNumber(i: nat, p: Project)
    ensures NatText.ParseInt(Detail(i, p)[4..]) == Some(i + 1)
  {
    DropFront("### ", NatText.NatStr(i + 1), DetailRest(p));
    NatText.ParseNatStrThen(i + 1, DetailRest(p));
  }

  lemma OverviewDistinct(i: nat, j: nat, p: Project, q: Project, dateOf: string -> string)
    requires i != j
    ensures OverviewRow(i, p, dateOf) != OverviewRow(j, q, dateOf)
  {
    OverviewRowRestStart(p, dateOf);
    OverviewRowRestStart(q, dateOf);
    NatText.DelimitedDistinct("| ", i + 1, j + 1, OverviewRowRest(p, dateOf), OverviewRowRest(q, dateOf));
  }

  lemma OverviewRowRestStart(p: Project, dateOf: string -> string)
    ensures |OverviewRowRest(p, dateOf)| > 0 && OverviewRowRest(p, dateOf)[0] == ' '
  {
    assert OverviewPieces[0] == " | [";
  }

  lemma DetailsDistinct(i: nat, j: nat, p: Project, q: Project)
    requires i != j
    ensures Detail(i, p) != Detail(j, q)
  {
    NatText.DelimitedDistinct("### ", i + 1, j + 1, DetailRest(p), DetailRest(q));
  }

  lemma OverviewRowsStep(h: seq<Project>, i: nat, dateOf: string -> string)
    requires i < |h|
    ensures OverviewRows(h[..i + 1], dateOf) == OverviewRows(h[..i], dateOf) + OverviewRow(i, h[i], dateOf)
  {
    assert h[..i + 1][..i] == h[..i];
  }

  lemma DetailsStep(h: seq<Project>, i: nat)
    requires i < |h|
    ensures Details(h[..i + 1]) == Details(h[..i]) + Detail(i, h[i])
  {
    assert h[..i + 1][..i] == h[..i];
  }

  // ---------------------------------------------------------------------
  // The two designers
  // ---------------------------------------------------------------------

  /** The optimized designer: a file is marked processed only once its
    * processing succeeded. */
  class OptimizedDesigner {
    const inputsDir: string
    var processedFiles: set<string>
    var projectHistory: seq<Project>
    /** The content last written to MASTER-INDEX.md, if any. */
    var masterIndex: Option<string>

    constructor (inputsDir: string)
      ensures this.inputsDir == inputsDir
      ensures processedFiles == {} && projectHistory == [] && masterIndex == None
    {
      this.inputsDir := inputsDir;
      processedFiles := {};
      projectHistory := [];
      masterIndex := None;
    }

    /** processRequirement: `outcome` is None when a pipeline step threw;
      * the error is rethrown (`ok` false) and nothing is recorded. */
    method ProcessRequirement(filename: string, outcome: Option<Run>) returns (ok: bool)
      modifies this`projectHistory
      ensures ok <==> outcome.Some?
      ensures projectHistory == old(projectHistory) + (if ok then [ProjectOf(filename, outcome.value)] else [])
    {
      match outcome
      case None =>
        return false;
      case Some(run) =>
        projectHistory := projectHistory + [ProjectOf(filename, run)];
        return true;
    }

    /** scanAndProcess: `outcome(path)` says how processing that file ends;
      * `now` is the clock when the index is written. */
    method ScanAndProcess(dirExists: bool, listing: seq<string>, outcome: string -> Option<Run>, now: string)
      modifies this
      ensures var news := if dirExists then NewNames(inputsDir, listing, old(processedFiles)) else [];
        && processedFiles == old(processedFiles) + Succeeded(inputsDir, news, outcome)
        && projectHistory == old(projectHistory) + Projects(inputsDir, news, outcome)
        && masterIndex == (if |news| == 0 then old(masterIndex) else Some(OptimizedIndex(now, projectHistory)))
    {
      if !dirExists {
        return;
      }
      var newFiles := NewNames(inputsDir, listing, processedFiles);
      if |newFiles| == 0 {
        return;
      }
      ProcessNew(newFiles, outcome);
      UpdateMasterIndex(now);
    }

    /** The loop over the new files: each one is processed, and marked only
      * when that succeeded. */
    method ProcessNew(newFiles: seq<string>, outcome: string -> Option<Run>)
      modifies this`processedFiles, this`projectHistory
      ensures processedFiles == old(processedFiles) + Succeeded(inputsDir, newFiles, outcome)
      ensures projectHistory == old(projectHistory) + Projects(inputsDir, newFiles, outcome)
    {
      var i := 0;
      while i < |newFiles|
        invariant 0 <= i <= |newFiles|
        invariant processedFiles == old(processedFiles) + Succeeded(inputsDir, newFiles[..i], outcome)
        invariant projectHistory == old(projectHistory) + Projects(inputsDir, newFiles[..i], outcome)
      {
        ProjectsSnoc(inputsDir, newFiles[..i], newFiles[i], outcome);
        assert newFiles[..i + 1] == newFiles[..i] + [newFiles[i]];
        var file := PathJoin(inputsDir, newFiles[i]);
        var ok := ProcessRequirement(newFiles[i], outcome(file));
        if ok {
          processedFiles := processedFiles + {file};
        }
        i := i + 1;
      }
      assert newFiles[..i] == newFiles;
    }

    /** updateMasterIndex, building the rows one project at a time. */
    method UpdateMasterIndex(now: string)
      modifies this`masterIndex
      ensures masterIndex == Some(OptimizedIndex(now, projectHistory))
    {
      var rows := BuildIndexRows(projectHistory);
      masterIndex := Some(IndexPrefix(now) + NatText.NatStr(|projectHistory|) + (IndexTableGap + rows));
    }
  }

  /** The original designer: every new file is marked processed, because
    * processRequirement swallows its own errors. */
  class OriginalDesigner {
    const inputsDir: string
    var processedFiles: set<string>
    var projectHistory: seq<Project>
    var masterIndex: Option<string>

    constructor (inputsDir: string)
      ensures this.inputsDir == inputsDir
      ensures processedFiles == {} && projectHistory == [] && masterIndex == None
    {
      this.inputsDir := inputsDir;
      processedFiles := {};
      projectHistory := [];
      masterIndex := None;
    }

    /** processRequirement: a failed step is caught and logged; only a
      * success is recorded. */
    method ProcessRequirement(filename: string, outcome: Option<Run>)
      modifies this`projectHistory
      ensures projectHistory == old(projectHistory) + (match outcome
        case None => []
        case Some(run) => [ProjectOf(filename, run)])
    {
      if outcome.Some? {
        projectHistory := projectHistory + [ProjectOf(filename, outcome.value)];
      }
    }

    method ScanAndProcess(dirExists: bool, listing: seq<string>, outcome: string -> Option<Run>,
                          now: string, dateOf: string -> string)
      modifies this
      ensures var news := if dirExists then NewNames(inputsDir, listing, old(processedFiles)) else [];
        && processedFiles == old(processedFiles) + AllPaths(inputsDir, news)
        && projectHistory == old(projectHistory) + Projects(inputsDir, news, outcome)
        && masterIndex == (if |news| == 0 then old(masterIndex) else Some(OriginalIndex(now, projectHistory, dateOf)))
    {
      if !dirExists {
        return;
      }
      var newFiles := NewNames(inputsDir, listing, processedFiles);
      if |newFiles| == 0 {
        return;
      }
      ProcessNew(newFiles, outcome);
      UpdateMasterIndex(now, dateOf);
    }

    /** The loop over the new files: each one is processed and marked,
      * whatever the outcome. */
    method ProcessNew(newFiles: seq<string>, outcome: string -> Option<Run>)
      modifies this`processedFiles, this`projectHistory
      ensures processedFiles == old(processedFiles) + AllPaths(inputsDir, newFiles)
      ensures projectHistory == old(projectHistory) + Projects(inputsDir, newFiles, outcome)
    {
      var i := 0;
      while i < |newFiles|
        invariant 0 <= i <= |newFiles|
        invariant processedFiles == old(processedFiles) + AllPaths(inputsDir, newFiles[..i])
        invariant projectHistory == old(projectHistory) + Projects(inputsDir, newFiles[..i], outcome)
      {
        ProjectsSnoc(inputsDir, newFiles[..i], newFiles[i], outcome);
        assert newFiles[..i + 1] == newFiles[..i] + [newFiles[i]];
        var file := PathJoin(inputsDir, newFiles[i]);
        ProcessRequirement(newFiles[i], outcome(file));
        processedFiles := processedFiles + {file};
        i := i + 1;
      }
      assert newFiles[..i] == newFiles;
    }

    /** updateMasterIndex: the overview rows, then the detailed sections. */
    method UpdateMasterIndex(now: string, dateOf: string -> string)
      modifies this`masterIndex
      ensures masterIndex == Some(OriginalIndex(now, projectHistory, dateOf))
    {
      var overview := BuildOverviewRows(projectHistory, dateOf);
      var details := BuildDetails(projectHistory);
      masterIndex := Some(OrigIndexPrefix(now) + NatText.NatStr(|projectHistory|) + OrigIndexRest(overview, details));
    }

    /** generatePinTable: the content of the pin-table file. */
    method GeneratePinTable(projectName: string, now: string, components: seq<string>,
                            loader: KnowledgeLoader.ComponentKnowledgeLoader) returns (content: string)
      requires loader.Valid()
      ensures content == PinTable(projectName, now, components, loader.knowledge)
    {
      var sections := BuildPinSections(components, loader);
      content := PinHeader(projectName, now) + sections + Connections(components) + GpioAllocation;
    }
  }

  /** The `forEach` over the history that appends the optimized rows. */
  method BuildIndexRows(h: seq<Project>) returns (rows: string)
    ensures rows == IndexRows(h)
  {
    rows := "";
    var i := 0;
    while i < |h|
      invariant 0 <= i <= |h|
      invariant rows == IndexRows(h[..i])
    {
      IndexRowsStep(h, i);
      rows := rows + IndexRow(i, h[i]);
      i := i + 1;
    }
    assert h[..i] == h;
  }

  method BuildOverviewRows(h: seq<Project>, dateOf: string -> string) returns (rows: string)
    ensures rows == OverviewRows(h, dateOf)
  {
    rows := "";
    var i := 0;
    while i < |h|
      invariant 0 <= i <= |h|
      invariant rows == OverviewRows(h[..i], dateOf)
    {
      OverviewRowsStep(h, i, dateOf);
      rows := rows + OverviewRow(i, h[i], dateOf);
      i := i + 1;
    }
    assert h[..i] == h;
  }

  method BuildDetails(h: seq<Project>) returns (details: string)
    ensures details == Details(h)
  {
    details := "";
    var i := 0;
    while i < |h|
      invariant 0 <= i <= |h|
      invariant details == Details(h[..i])
    {
      DetailsStep(h, i);
      details := details + Detail(i, h[i]);
      i := i + 1;
    }
    assert h[..i] == h;
  }

  /** The `for` loop of generatePinTable over the components. */
  method BuildPinSections(components: seq<string>, loader: KnowledgeLoader.ComponentKnowledgeLoader)
    returns (sections: string)
    requires loader.Valid()
    ensures sections == PinSections(loader.knowledge, components)
  {
    sections := "";
    var i := 0;
    while i < |components|
      invariant 0 <= i <= |components|
      invariant sections == PinSections(loader.knowledge, components[..i])
    {
      PinSectionsStep(loader.knowledge, components, i);
      var specs := loader.GetSpecs(components[i]);
      var rows := EmitPinRows(PinRowCount(PinsOf(specs)));
      var section := ComponentHead(components[i], specs) + PinTableHead + rows + SectionEnd;
      sections := sections + section;
      i := i + 1;
    }
    assert components[..i] == components;
  }

  // ---------------------------------------------------------------------
  // Pin table (original version)
  // ---------------------------------------------------------------------

  const MaxPinRows := 10

  /** `specs?.pins`. */
  function PinsOf(found: Option<KnowledgeLoader.ComponentSpecs>): Option<string>
  {
    if found.Some? then found.value.pins else None
  }

  /** The rows emitted: `i` from 1 while `i <= Math.min(parseInt(pins ||
    * '8'), 10)`; a NaN bound emits none. */
  function PinRowCount(pins: Option<string>): nat
  {
    match NatText.ParseInt(OrDefault(pins, "8"))
    case None => 0
    case Some(n) => if n < 1 then 0 else if n > MaxPinRows then MaxPinRows else n
  }

  lemma PinRowCountBound(pins: Option<string>)
    ensures PinRowCount(pins) <= MaxPinRows
  {
  }

  /** A missing or empty pin count stands for 8 pins. */
  lemma PinRowCountDefault(pins: Option<string>)
    requires pins.None? || pins.value == ""
    ensures PinRowCount(pins) == 8
  {
    NatText.ParseNatStrThen(8, "");
    assert NatText.NatStr(8) + "" == "8";
  }

  /** A printed pin count `n` gives `min(n, 10)` rows. */
  lemma PinRowCountNumeric(n: nat)
    ensures PinRowCount(Some(NatText.NatStr(n))) == if n > MaxPinRows then MaxPinRows else n
  {
    NatText.ParseNatStrThen(n, "");
    assert NatText.NatStr(n) + "" == NatText.NatStr(n);
  }

  /** A present pin count that does not parse gives no rows. */
  lemma PinRowCountNaN(s: string)
    requires |s| > 0 && NatText.ParseInt(s).None?
    ensures PinRowCount(Some(s)) == 0
  {
  }

  const PinRowTail := " | GPIO/Power | TBD | - |"

  function PinRow(i: nat): string
  {
    "| " + NatText.NatStr(i) + " | PIN" + NatText.NatStr(i) + PinRowTail + "\n"
  }

  /** Rows 1..k. */
  function PinRows(k: nat): string
  {
    if k == 0 then "" else PinRows(k - 1) + PinRow(k)
  }

  function CountChar(s: string, c: char): nat
  {
    if |s| == 0 then 0 else CountChar(s[..|s| - 1], c) + (if s[|s| - 1] == c then 1 else 0)
  }

  lemma {:induction false} CountCharAppend(a: string, b: string, c: char)
    ensures CountChar(a + b, c) == CountChar(a, c) + CountChar(b, c)
  {
    if |b| > 0 {
      assert (a + b)[..|a + b| - 1] == a + b[..|b| - 1];
      CountCharAppend(a, b[..|b| - 1], c);
    } else {
      assert a + b == a;
    }
  }

  lemma {:induction false} CountCharNone(s: string, c: char)
    requires forall i :: 0 <= i < |s| ==> s[i] != c
    ensures CountChar(s, c) == 0
  {
    if |s| > 0 {
      CountCharNone(s[..|s| - 1], c);
    }
  }

  lemma PinRowLine(k: nat)
    ensures CountChar(PinRow(k), '\n') == 1
  {
    var d := NatText.NatStr(k);
    CountCharNone("| ", '\n');
    CountCharNone(d, '\n');
    CountCharNone(" | PIN", '\n');
    CountCharNone(PinRowTail, '\n');
    assert CountChar("\n", '\n') == 1 by {
      assert "\n"[..0] == "";
    }
    CountCharAppend("| ", d, '\n');
    CountCharAppend("| " + d, " | PIN", '\n');
    CountCharAppend("| " + d + " | PIN", d, '\n');
    CountCharAppend("| " + d + " | PIN" + d, PinRowTail, '\n');
    CountCharAppend("| " + d + " | PIN" + d + PinRowTail, "\n", '\n');
  }

  /** Each pin row is one line: `k` rows hold exactly `k` line breaks. */
  lemma {:induction false} PinRowsLines(k: nat)
    ensures CountChar(PinRows(k), '\n') == k
  {
    if k > 0 {
      PinRowsLines(k - 1);
      PinRowLine(k);
      CountCharAppend(PinRows(k - 1), PinRow(k), '\n');
    }
  }

  /** The row loop of generatePinTable. */
  method EmitPinRows(count: nat) returns (rows: string)
    ensures rows == PinRows(count)
  {
    rows := "";
    var i := 1;
    while i <= count
      invariant 1 <= i <= count + 1
      invariant rows == PinRows(i - 1)
    {
      rows := rows + PinRow(i);
      i := i + 1;
    }
  }

  const PinTableHead :=
    "### Pin Table\n"
    + "\n"
    + "| Pin # | Name | Function | Conn"
    + "ect To | Notes |\n"
    + "|-------|------|----------|-----"
    + "-------|-------|\n"
  const SectionEnd := "\n---\n\n"
  const ConnectionsHead :=
    "## Inter-Component Connections\n"
    + "\n"
    + "| From | Pin | To | Pin | Signal"
    + " | Notes |\n"
    + "|------|-----|----|----|--------"
    + "|-------|\n"
  const ConnectionsTail :=
    "| Power Supply | 3.3V | All | VC"
    + "C | Power | - |\n"
    + "| Ground | GND | All | GND | Gro"
    + "und | Common ground |\n"
    + "\n"
  const GpioAllocation :=
    "## GPIO Allocation\n"
    + "\n"
    + "| GPIO | Function | Component | "
    + "Notes |\n"
    + "|------|----------|-----------|-"
    + "------|\n"
    + "| GPIO0 | Button | User Input | "
    + "Pull-up |\n"
    + "| GPIO1 | LED | Status | Active "
    + "high |\n"
    + "| GPIO2 | Sensor | Data In | - |"
    + "\n"
    + "\n"

  function PinHeader(projectName: string, now: string): string
  {
    "# " + projectName + " - GPIO & Pin Connections\n\n**Generated:** " + now + "\n\n---\n\n"
  }

  /** The specification lines shown when the component has specs. */
  function SpecLines(s: KnowledgeLoader.ComponentSpecs): string
  {
    var vmin := if s.voltage.Some? then s.voltage.value.min else None;
    var vmax := if s.voltage.Some? then s.voltage.value.max else None;
    var op := if s.current.Some? then s.current.value.operating else None;
    "**Package:** " + OrDefault(s.package, "N/A") + "\n**Pins:** " + OrDefault(s.pins, "N/A")
      + "\n**Voltage:** " + OrDefault(vmin, "?") + " - " + OrDefault(vmax, "?")
      + "\n**Current:** " + OrDefault(op, "N/A") + "\n\n"
  }

  function ComponentHead(c: string, found: Option<KnowledgeLoader.ComponentSpecs>): string
  {
    "## " + c + "\n\n" + (if found.Some? then SpecLines(found.value) else "")
  }

  function PinSection(c: string, found: Option<KnowledgeLoader.ComponentSpecs>): string
  {
    ComponentHead(c, found) + PinTableHead + PinRows(PinRowCount(PinsOf(found))) + SectionEnd
  }

  function PinSections(t: KnowledgeLoader.Table, names: seq<string>): string
    requires KnowledgeLoader.Indexed(t)
  {
    if |names| == 0 then ""
    else (PinSections(t, names[..|names| - 1])
      + PinSection(names[|names| - 1], KnowledgeLoader.Lookup(t, names[|names| - 1])))
  }

  lemma PinSectionsStep(t: KnowledgeLoader.Table, names: seq<string>, i: nat)
    requires KnowledgeLoader.Indexed(t)
    requires i < |names|
    ensures PinSections(t, names[..i + 1]) ==
      PinSections(t, names[..i]) + PinSection(names[i], KnowledgeLoader.Lookup(t, names[i]))
  {
    assert names[..i + 1][..i] == names[..i];
  }

  /** The inter-component table: the first two components, or `MCU` and
    * `Sensor` in their place. */
  function Connections(components: seq<string>): string
  {
    var from := OrDefault(if |components| > 0 then Some(components[0]) else None, "MCU");
    var to := OrDefault(if |components| > 1 then Some(components[1]) else None, "Sensor");
    ConnectionsHead + "| " + from + " | GPIO1 | " + to + " | DATA | Data | - |\n" + ConnectionsTail
  }

  function PinTable(projectName: string, now: string, components: seq<string>, t: KnowledgeLoader.Table): string
    requires KnowledgeLoader.Indexed(t)
  {
    PinHeader(projectName, now) + PinSections(t, components) + Connections(components) + GpioAllocation
  }

  // ---------------------------------------------------------------------
  // Schematic
  // ---------------------------------------------------------------------

  datatype Position = Position(x: int, y: int)
  datatype Part = Part(id: string, name: string, package: string, voltage: string, position: Position)
  datatype Net = Net(name: string, connections: seq<string>)
  datatype Metadata = Metadata(requirement: string, componentKnowledge: string)
  datatype Schematic = Schematic(
    project: string,
    timestamp: string,
    components: seq<Part>,
    nets: seq<Net>,
    metadata: Option<Metadata>)

  const MetadataLength := 500

  function PartId(i: nat): string
  {
    "U" + NatText.NatStr(i + 1)
  }

  /** `specs?.package || 'DIP-8'`. */
  function PackageOf(found: Option<KnowledgeLoader.ComponentSpecs>): string
  {
    if found.Some? then OrDefault(found.value.package, "DIP-8") else "DIP-8"
  }

  /** `specs?.voltage?.typ || '5V'`. */
  function VoltageOf(found: Option<KnowledgeLoader.ComponentSpecs>): string
  {
    if found.Some? && found.value.voltage.Some? then OrDefault(found.value.voltage.value.typ, "5V") else "5V"
  }

  function PartOf(t: KnowledgeLoader.Table, name: string, i: nat): Part
    requires KnowledgeLoader.Indexed(t)
  {
    var found := KnowledgeLoader.Lookup(t, name);
    Part(PartId(i), name, PackageOf(found), VoltageOf(found), Position(100 + i * 200, 100))
  }

  function PowerNet(name: string, count: nat): Net
  {
    Net(name, seq(count, i requires 0 <= i < count => PartId(i) + "." + name))
  }

  /** The optimized schematic: one part per component and the VCC and GND
    * nets. */
  function OptimizedSchematic(project: string, now: string, names: seq<string>, t: KnowledgeLoader.Table): Schematic
    requires KnowledgeLoader.Indexed(t)
  {
    Schematic(project, now,
      seq(|names|, i requires 0 <= i < |names| => PartOf(t, names[i], i)),
      [PowerNet("VCC", |names|), PowerNet("GND", |names|)],
      None)
  }

  /** `s.substring(0, n)`. */
  function Prefix(s: string, n: nat): string
  {
    if |s| <= n then s else s[..n]
  }

  /** The original schematic adds the first 500 characters of the
    * requirement and of the component context. */
  function OriginalSchematic(project: string, now: string, requirement: string, names: seq<string>,
                             t: KnowledgeLoader.Table): Schematic
    requires KnowledgeLoader.Indexed(t)
  {
    var context := KnowledgeLoader.ContextHeader + KnowledgeLoader.Sections(t, names);
    OptimizedSchematic(project, now, names, t).(metadata :=
      Some(Metadata(Prefix(requirement, MetadataLength), Prefix(context, MetadataLength))))
  }

  /** Component `i` is `U{i+1}` at (100 + 200 i, 100), and each power net
    * lists that component's pin at position `i`. */
  lemma SchematicLayout(project: string, now: string, names: seq<string>, t: KnowledgeLoader.Table, i: nat)
    requires KnowledgeLoader.Indexed(t)
    requires i < |names|
    ensures var s := OptimizedSchematic(project, now, names, t);
      && |s.components| == |names|
      && s.components[i].name == names[i]
      && s.components[i].position == Position(100 + 200 * i, 100)
      && |s.nets| == 2 && s.nets[0].name == "VCC" && s.nets[1].name == "GND"
      && |s.nets[0].connections| == |names| && |s.nets[1].connections| == |names|
      && s.nets[0].connections[i] == s.components[i].id + ".VCC"
      && s.nets[1].connections[i] == s.components[i].id + ".GND"
  {
  }

  /** No two parts share an id or a position. */
  lemma PartsDistinct(project: string, now: string, names: seq<string>, t: KnowledgeLoader.Table, i: nat, j: nat)
    requires KnowledgeLoader.Indexed(t)
    requires i < j < |names|
    ensures var s := OptimizedSchematic(project, now, names, t);
      s.components[i].id != s.components[j].id
      && s.components[i].position.x < s.components[j].position.x
  {
    var s := OptimizedSchematic(project, now, names, t);
    if s.components[i].id == s.components[j].id {
      NatText.PrefixedInjective("U", i + 1, j + 1);
    }
  }

  /** A component with no specs gets the DIP-8 and 5V defaults; a stored
    * non-empty package is used as is. */
  lemma PartDefaults(t: KnowledgeLoader.Table, name: string, i: nat)
    requires KnowledgeLoader.Indexed(t)
    ensures KnowledgeLoader.Lookup(t, name).None? ==>
      PartOf(t, name, i).package == "DIP-8" && PartOf(t, name, i).voltage == "5V"
    ensures var f := KnowledgeLoader.Lookup(t, name);
      f.Some? && f.value.package.Some? && |f.value.package.value| > 0 ==>
      PartOf(t, name, i).package == f.value.package.value
  {
  }

  /** The original schematic has the same parts and nets, and its metadata
    * are prefixes of at most 500 characters. */
  lemma OriginalSchematicSpec(project: string, now: string, requirement: string, names: seq<string>,
                              t: KnowledgeLoader.Table)
    requires KnowledgeLoader.Indexed(t)
    ensures var o := OriginalSchematic(project, now, requirement, names, t);
      var s := OptimizedSchematic(project, now, names, t);
      && o.components == s.components && o.nets == s.nets
      && o.metadata.Some?
      && |o.metadata.value.requirement| <= MetadataLength
      && requirement[..|o.metadata.value.requirement|] == o.metadata.value.requirement
      && (|requirement| <= MetadataLength ==> o.metadata.value.requirement == requirement)
      && |o.metadata.value.componentKnowledge| <= MetadataLength
      && StartsWith(KnowledgeLoader.ContextHeader + KnowledgeLoader.Sections(t, names),
                    o.metadata.value.componentKnowledge)
  {
  }
}
