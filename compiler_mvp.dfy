/** The MVP compiler pipeline (ai-easyeda-compiler/compiler-mvp.js): the
  * prompt builder, the AI-response parser, the EasyEDA converter, the BOM
  * and report writers, and the compile guard that refuses to run without
  * requirement files. */
module CompilerMvp {
  import opened Wrappers
  import opened Strings
  import NatText
  import DatasheetText

  /** Printed numbers hold no line break. */
  lemma IntStrOneLine(n: int)
    ensures '\n' !in NatText.IntStr(n)
  {
    var m: nat := if n < 0 then -n else n;
    NatText.NatStrDigits(m);
    assert NatText.DigitIn('\n', 10).None?;
    if n < 0 {
      assert NatText.IntStr(n) == "-" + NatText.NatStr(m);
    }
  }

  // ---------------------------------------------------------------------
  // PromptBuilder
  // ---------------------------------------------------------------------

  /** A Markdown file loaded from one of the knowledge folders. */
  datatype MdFile = MdFile(filename: string, content: string)

  /** What KnowledgeLoader.loadAll returns; a missing folder loads as no
    * files. */
  datatype Knowledge = Knowledge(rules: seq<MdFile>, examples: seq<MdFile>, requirements: seq<MdFile>)

  const ExcerptLength := 500

  /** `content.substring(0, 500)`: the content's first 500 characters. */
  function Excerpt(content: string): (r: string)
    ensures |r| <= ExcerptLength && |r| <= |content|
    ensures |r| == |content| || |r| == ExcerptLength
    ensures r == content[..|r|]
  {
    if |content| <= ExcerptLength then content else content[..ExcerptLength]
  }

  /** Excerpting keeps short files whole and takes nothing new from an
    * excerpt. */
  lemma ExcerptIdempotent(content: string)
    ensures Excerpt(Excerpt(content)) == Excerpt(content)
    ensures Excerpt(content) == content <==> |content| <= ExcerptLength
  {
  }

  /** One rule or example file's section of the system prompt. */
  function KnowledgeSection(f: MdFile): string
  {
    "\n### " + f.filename + "\n" + Excerpt(f.content) + "...\n"
  }

  const SystemIntro := "You are an expert electronics " + "engineer generating " +
    "EasyEDA-compatible schematic " + "designs.\n\nDESIGN RULES:\n"
  const ExamplesHeading := "\nREFERENCE EXAMPLES:\n"
  /** The fixed output-format instructions that close the system prompt. */
  const OutputFormat :=
    "\n" +
    "OUTPUT FORMAT:\n" +
    "You must output valid JSON in th" +
    "is exact format:\n" +
    "{\n" +
    "  \"schematic\": {\n" +
    "    \"components\": [\n" +
    "      {\n" +
    "        \"designator\": \"U1\",\n" +
    "        \"type\": \"IC\",\n" +
    "        \"value\": \"ESP32-WROOM-32" +
    "\",\n" +
    "        \"package\": \"SMD\",\n" +
    "        \"x\": 300,\n" +
    "        \"y\": 200\n" +
    "      }\n" +
    "    ],\n" +
    "    \"nets\": [\n" +
    "      {\n" +
    "        \"name\": \"GND\",\n" +
    "        \"connections\": [\"U1.8\", " +
    "\"C1.2\"]\n" +
    "      }\n" +
    "    ]\n" +
    "  },\n" +
    "  \"bom\": [\n" +
    "    {\n" +
    "      \"designator\": \"U1\",\n" +
    "      \"component\": \"ESP32-WROOM-" +
    "32\",\n" +
    "      \"package\": \"SMD\",\n" +
    "      \"value\": \"ESP32-WROOM-32\"," +
    "\n" +
    "      \"quantity\": 1,\n" +
    "      \"lcsc\": \"C82899\"\n" +
    "    }\n" +
    "  ]\n" +
    "}\n" +
    "\n" +
    "CRITICAL RULES:\n" +
    "1. All ICs need 0.1\U{B5}F decoupling" +
    " capacitors\n" +
    "2. All power nets must be labele" +
    "d\n" +
    "3. Use LCSC part numbers\n" +
    "4. Follow industrial design stan" +
    "dards\n" +
    "5. Output ONLY valid JSON, no ma" +
    "rkdown\n" +
    "\n" +
    "Generate complete design now."

  /** The system prompt: the rule files, then the example files, each as
    * its name and first 500 characters, then the output format. */
  function SystemPrompt(k: Knowledge): string
  {
    SystemIntro + Rendered(k.rules, KnowledgeSection) + ExamplesHeading +
    Rendered(k.examples, KnowledgeSection) + OutputFormat
  }

  /** buildSystemPrompt. */
  method BuildSystemPrompt(k: Knowledge) returns (prompt: string)
    ensures prompt == SystemPrompt(k)
  {
    prompt := SystemIntro;
    prompt := AppendRendered(prompt, k.rules, KnowledgeSection);
    prompt := prompt + ExamplesHeading;
    prompt := AppendRendered(prompt, k.examples, KnowledgeSection);
    prompt := prompt + OutputFormat;
  }

  /** Every rule file and every example file has its section in the
    * system prompt, and no section carries more than 500 characters of
    * its file. */
  lemma SystemPromptHasEveryFile(k: Knowledge, i: nat, j: nat)
    requires i < |k.rules| && j < |k.examples|
    ensures Contains(SystemPrompt(k), KnowledgeSection(k.rules[i]))
    ensures Contains(SystemPrompt(k), KnowledgeSection(k.examples[j]))
    ensures |Excerpt(k.rules[i].content)| <= ExcerptLength && |Excerpt(k.examples[j].content)| <= ExcerptLength
  {
    RenderedContains(k.rules, i, KnowledgeSection);
    RenderedContains(k.examples, j, KnowledgeSection);
    var intro, heading, format := SystemIntro, ExamplesHeading, OutputFormat;
    var rules, examples := Rendered(k.rules, KnowledgeSection), Rendered(k.examples, KnowledgeSection);
    WithinFive(intro, rules, heading, examples, format, KnowledgeSection(k.rules[i]));
    WithinFive(intro, rules, heading, examples, format, KnowledgeSection(k.examples[j]));
  }

  const UserIntro := "Design a PCB based on these " + "requirements:\n\n"

  function RequirementSection(f: MdFile): string { f.content + "\n\n" }

  /** The user prompt: every requirement file's content, in order. */
  function UserPrompt(requirements: seq<MdFile>): string
  {
    UserIntro + Rendered(requirements, RequirementSection)
  }

  /** buildUserPrompt. */
  method BuildUserPrompt(requirements: seq<MdFile>) returns (prompt: string)
    ensures prompt == UserPrompt(requirements)
  {
    prompt := AppendRendered(UserIntro, requirements, RequirementSection);
  }

  /** The prompt generateSchematic sends. */
  function FullPrompt(k: Knowledge): string
  {
    SystemPrompt(k) + "\n\n" + UserPrompt(k.requirements)
  }

  // ---------------------------------------------------------------------
  // AIOrchestrator.parseAIResponse
  // ---------------------------------------------------------------------

  const FenceOpen := "```json\n"
  const FenceClose := "\n```"

  /** The capture of `/```json\n([\s\S]*?)\n```/`: from just after the
    * first opening fence up to the first closing fence after it. When no
    * closing fence follows the first opening, none follows a later one
    * either, so there is no match. */
  function FencedBody(response: string): (r: Option<string>)
    ensures r.Some? ==> Contains(response, FenceOpen + r.value + FenceClose)
    ensures r.Some? ==> forall k :: 0 <= k < |r.value| ==> !PrefixAt(r.value + FenceClose, FenceClose, k)
    ensures r.None? ==> (!Contains(response, FenceOpen) ||
      forall k :: IndexOfFrom(response, FenceOpen, 0).value + |FenceOpen| <= k ==> !PrefixAt(response, FenceClose, k))
  {
    match IndexOfFrom(response, FenceOpen, 0)
    case None =>
      NotContains(response, FenceOpen);
      None
    case Some(i) =>
      match IndexOfFrom(response, FenceClose, i + |FenceOpen|)
      case None => None
      case Some(j) =>
        FencedBetween(response, i, j);
        Some(response[i + |FenceOpen|..j])
  }

  /** The text between an opening fence at `i` and the first closing fence
    * after it at `j` sits between the two fences and holds no closing fence. */
  lemma FencedBetween(response: string, i: nat, j: nat)
    requires PrefixAt(response, FenceOpen, i) && i + |FenceOpen| <= j && PrefixAt(response, FenceClose, j)
    requires forall k :: i + |FenceOpen| <= k < j ==> !PrefixAt(response, FenceClose, k)
    ensures Contains(response, FenceOpen + response[i + |FenceOpen|..j] + FenceClose)
    ensures var body := response[i + |FenceOpen|..j];
      forall k :: 0 <= k < |body| ==> !PrefixAt(body + FenceClose, FenceClose, k)
  {
    var body := response[i + |FenceOpen|..j];
    assert response[i..j + |FenceClose|] == FenceOpen + body + FenceClose;
    assert PrefixAt(response, FenceOpen + body + FenceClose, i);
    var tail := response[i + |FenceOpen|..j + |FenceClose|];
    assert body + FenceClose == tail;
    forall k | 0 <= k < |body|
      ensures !PrefixAt(body + FenceClose, FenceClose, k)
    {
      if PrefixAt(body + FenceClose, FenceClose, k) {
        assert tail[k..k + |FenceClose|] == response[i + |FenceOpen| + k..i + |FenceOpen| + k + |FenceClose|];
        assert PrefixAt(response, FenceClose, i + |FenceOpen| + k);
      }
    }
  }

  lemma NotContains(s: string, p: string)
    requires IndexOfFrom(s, p, 0).None?
    ensures !Contains(s, p)
  {
  }

  /** The text handed to `JSON.parse`: the fenced block, else the span
    * from the first `{` to the last `}`, else the whole response. */
  function JsonText(response: string): string
  {
    match FencedBody(response)
    case Some(body) => body
    case None =>
      match DatasheetText.JsonSlice(response)
      case Some(t) => t
      case None => response
  }

  const InvalidJson := "AI did not generate valid JSON"

  /** parseAIResponse; `parse` is `JSON.parse`, None where it throws. */
  function ParseAIResponse<J>(response: string, parse: string -> Option<J>): (r: Result<J>)
    ensures r.Ok? <==> parse(JsonText(response)).Some?
    ensures r.Ok? ==> r.value == parse(JsonText(response)).value
    ensures r.Err? ==> r.error == InvalidJson
  {
    match parse(JsonText(response))
    case Some(j) => Ok(j)
    case None => Err(InvalidJson)
  }

  /** A response that opens with a fenced JSON block yields exactly that
    * block, whatever follows it, braces included. */
  lemma FencedBlockPreferred(body: string, rest: string)
    requires '`' !in body
    ensures JsonText(FenceOpen + body + FenceClose + rest) == body
  {
    var s := FenceOpen + body + FenceClose + rest;
    assert PrefixAt(s, FenceOpen, 0);
    IndexOfFromAt(s, FenceOpen, 0, 0);
    var e := |FenceOpen| + |body|;
    assert s[e..e + |FenceClose|] == FenceClose;
    forall k | |FenceOpen| <= k < e
      ensures !PrefixAt(s, FenceClose, k)
    {
      if k + 1 < e {
        assert s[k + 1] == body[k + 1 - |FenceOpen|];
      } else {
        assert s[k + 1] == FenceClose[0];
      }
    }
    IndexOfFromAt(s, FenceClose, |FenceOpen|, e);
    assert s[|FenceOpen|..e] == body;
  }

  /** Without a fenced block, the braces span is parsed when there is one,
    * and otherwise the whole response. */
  lemma UnfencedFallbacks(response: string)
    requires FencedBody(response).None?
    ensures DatasheetText.JsonSlice(response).Some? ==>
      JsonText(response) == DatasheetText.JsonSlice(response).value && JsonText(response)[0] == '{'
    ensures '{' !in response ==> JsonText(response) == response
  {
  }

  // ---------------------------------------------------------------------
  // EasyEDAWriter.convertToEasyEDA
  // ---------------------------------------------------------------------

  /** A component of the AI's design; any field may be missing. Positions
    * and rotations are whole numbers here. */
  datatype DesignComponent = DesignComponent(
    designator: Option<string>, kind: Option<string>, value: Option<string>, package: Option<string>,
    x: Option<int>, y: Option<int>, rotation: Option<int>, lcsc: Option<string>, manufacturer: Option<string>)

  /** A net of the AI's design: connection texts such as `U1.8`. */
  datatype DesignNet = DesignNet(name: string, connections: Option<seq<string>>)

  datatype BomItem = BomItem(
    designator: Option<string>, component: Option<string>, value: Option<string>, package: Option<string>,
    lcsc: Option<string>, quantity: Option<int>)

  /** The parsed AI design: `schematic.components`, `schematic.nets` and the
    * optional `bom`. */
  datatype Design = Design(components: seq<DesignComponent>, nets: seq<DesignNet>, bom: Option<seq<BomItem>>)

  datatype Point = Point(x: int, y: int)

  datatype SchComponent = SchComponent(
    uuid: string, kind: string, designator: Option<string>, value: Option<string>, package: Option<string>,
    position: Point, rotation: int, lcsc: string, manufacturer: string)

  datatype SchNet = SchNet(name: string, color: string, width: nat, connections: seq<string>)

  datatype PowerPort = PowerPort(kind: string, position: Point, net: string)

  /** The EasyEDA document; the fixed canvas and the fixed metadata texts
    * are not modelled, the ISO date is. */
  datatype Schematic = Schematic(docType: string, version: string, components: seq<SchComponent>,
    nets: seq<SchNet>, power: seq<PowerPort>, date: string)

  const SchematicDocType := "EasyEDA Schematic"

  /** `n || 0` on an optional number. */
  function OrZero(n: Option<int>): int { if n.Some? then n.value else 0 }

  function ConvertComponent(c: DesignComponent, uuid: string): (r: SchComponent)
    ensures r.kind != ""
    ensures r.designator == c.designator && r.value == c.value && r.package == c.package
  {
    SchComponent(uuid, OrDefault(c.kind, "Component"), c.designator, c.value, c.package,
      Point(OrZero(c.x), OrZero(c.y)), OrZero(c.rotation), OrDefault(c.lcsc, ""), OrDefault(c.manufacturer, ""))
  }

  /** A component given only a designator gets every default: type
    * Component, the origin, no rotation, empty LCSC and manufacturer. */
  lemma BareComponentDefaults(d: Option<string>, uuid: string)
    ensures var r := ConvertComponent(DesignComponent(d, None, None, None, None, None, None, None, None), uuid);
      r.kind == "Component" && r.position == Point(0, 0) && r.rotation == 0 && r.lcsc == "" && r.manufacturer == ""
  {
  }

  /** A component that states every field keeps them all. */
  lemma GivenFieldsKept(c: DesignComponent, uuid: string)
    requires c.kind.Some? && c.kind.value != "" && c.x.Some? && c.y.Some? && c.rotation.Some?
    requires c.lcsc.Some? && c.manufacturer.Some?
    ensures var r := ConvertComponent(c, uuid);
      r.kind == c.kind.value && r.position == Point(c.x.value, c.y.value) && r.rotation == c.rotation.value &&
      r.lcsc == c.lcsc.value && r.manufacturer == c.manufacturer.value
  {
  }

  const Black := "#000000"
  const Red := "#FF0000"
  const Green := "#008000"

  /** GND is black, any other name containing VCC red, the rest green. */
  function NetColor(name: string): (r: string)
    ensures r == Black <==> name == "GND"
    ensures r == Red <==> name != "GND" && Contains(name, "VCC")
    ensures r == Green <==> name != "GND" && !Contains(name, "VCC")
  {
    assert Black[1] != Red[1] && Black[3] != Green[3] && Red[1] != Green[1];
    if name == "GND" then Black else if Contains(name, "VCC") then Red else Green
  }

  function ConvertNet(n: DesignNet): (r: SchNet)
    ensures r.name == n.name && r.width == 1
    ensures r.connections == (if n.connections.Some? then n.connections.value else [])
  {
    SchNet(n.name, NetColor(n.name), 1, if n.connections.Some? then n.connections.value else [])
  }

  /** convertToEasyEDA; `uuid(i)` is the random identifier drawn for the
    * i-th component and `date` the conversion time. */
  function ConvertToEasyEDA(d: Design, uuid: nat -> string, date: string): (r: Schematic)
    ensures r.docType == SchematicDocType && r.version == "6.5.30"
    ensures |r.components| == |d.components| && |r.nets| == |d.nets|
    ensures forall i :: 0 <= i < |d.components| ==> r.components[i] == ConvertComponent(d.components[i], uuid(i))
    ensures forall i :: 0 <= i < |d.nets| ==> r.nets[i] == ConvertNet(d.nets[i])
    ensures r.power == [PowerPort("VCC", Point(100, 50), "VCC_3V3"), PowerPort("GND", Point(100, 100), "GND")]
  {
    Schematic(SchematicDocType, "6.5.30",
      seq(|d.components|, i requires 0 <= i < |d.components| => ConvertComponent(d.components[i], uuid(i))),
      seq(|d.nets|, i requires 0 <= i < |d.nets| => ConvertNet(d.nets[i])),
      [PowerPort("VCC", Point(100, 50), "VCC_3V3"), PowerPort("GND", Point(100, 100), "GND")],
      date)
  }

  // ---------------------------------------------------------------------
  // BOMGenerator.generate
  // ---------------------------------------------------------------------

  /** `item.quantity || 1`. */
  function Quantity(item: BomItem): int
  {
    if item.quantity.Some? && item.quantity.value != 0 then item.quantity.value else 1
  }

  function BomRow(item: BomItem): string
  {
    "| " + Shown(item.designator) + " | " + Shown(item.component) + " | " + Shown(item.value) + " | " +
    Shown(item.package) + " | " + OrDefault(item.lcsc, "TBD") + " | " + NatText.IntStr(Quantity(item)) + " |\n"
  }

  const BomColumns := "| Designator | Component | " + "Value | Package | LCSC | Qty |\n"
  const BomRule := "|------------|-----------|" + "-------|---------|------|-----|\n"

  function BomHeader(generated: string): string
  {
    "# Bill of Materials\n\n" + "Generated: " + generated + "\n\n" + BomColumns + BomRule
  }

  /** `design.bom?.length || 0`. */
  function BomCount(bom: Option<seq<BomItem>>): nat
  {
    if bom.Some? then |bom.value| else 0
  }

  function BomItems(bom: Option<seq<BomItem>>): seq<BomItem>
  {
    if bom.Some? then bom.value else []
  }

  function BomFooter(count: nat): string
  {
    "\n**Total Components:** " + NatText.NatStr(count) + "\n"
  }

  /** The BOM text: the header, one row per item, the total. */
  function BomText(d: Design, generated: string): string
  {
    BomHeader(generated) + Rendered(BomItems(d.bom), BomRow) + BomFooter(BomCount(d.bom))
  }

  /** BOMGenerator.generate; `generated` is the local time it prints. */
  method GenerateBom(d: Design, generated: string) returns (bom: string)
    ensures bom == BomText(d, generated)
  {
    bom := BomHeader(generated);
    if d.bom.Some? && |d.bom.value| > 0 {
      bom := AppendRendered(bom, d.bom.value, BomRow);
    }
    bom := bom + BomFooter(BomCount(d.bom));
  }

  /** A missing LCSC number prints as TBD and a missing or zero quantity
    * as 1. */
  lemma BomRowDefaults(item: BomItem)
    requires item.lcsc.None? || item.lcsc == Some("")
    requires item.quantity.None? || item.quantity == Some(0)
    ensures BomRow(item) == "| " + Shown(item.designator) + " | " + Shown(item.component) + " | " +
      Shown(item.value) + " | " + Shown(item.package) + " | TBD | 1 |\n"
  {
    assert NatText.IntStr(1) == "1";
  }

  /** Each BOM item is one table line, as long as no field holds a line
    * break: the rows hold exactly as many line breaks as there are items. */
  lemma {:induction false} BomRowsAreLines(items: seq<BomItem>)
    requires forall i :: 0 <= i < |items| ==> OneLine(items[i])
    ensures CharCount(Rendered(items, BomRow), '\n') == |items|
  {
    if |items| > 0 {
      var n := |items| - 1;
      BomRowsAreLines(items[..n]);
      BomRowIsLine(items[n]);
      CharCountAppend(Rendered(items[..n], BomRow), BomRow(items[n]), '\n');
    }
  }

  predicate OneLine(item: BomItem)
  {
    '\n' !in Shown(item.designator) && '\n' !in Shown(item.component) && '\n' !in Shown(item.value) &&
    '\n' !in Shown(item.package) && '\n' !in OrDefault(item.lcsc, "TBD")
  }

  lemma BomRowIsLine(item: BomItem)
    requires OneLine(item)
    ensures CharCount(BomRow(item), '\n') == 1
  {
    IntStrOneLine(Quantity(item));
    var cells := "| " + Shown(item.designator) + " | " + Shown(item.component) + " | " + Shown(item.value) + " | " +
      Shown(item.package) + " | " + OrDefault(item.lcsc, "TBD") + " | " + NatText.IntStr(Quantity(item)) + " |";
    assert '\n' !in cells;
    CharCountAbsent(cells, '\n');
    CharCountAppend(cells, "\n", '\n');
    assert BomRow(item) == cells + "\n";
    assert CharCount("\n", '\n') == CharCount("", '\n') + 1;
  }

  // ---------------------------------------------------------------------
  // OutputWriter.generateReport
  // ---------------------------------------------------------------------

  function ComponentLine(c: SchComponent): string
  {
    "- **" + Shown(c.designator) + "**: " + Shown(c.value) + " (" + Shown(c.package) + ")\n"
  }

  function NetLine(n: SchNet): string
  {
    "- **" + n.name + "**: " + NatText.NatStr(|n.connections|) + " connections\n"
  }

  function ReportHead(generated: string): string
  {
    "# Design Report\n\n" + "**Generated:** " + generated + "\n" + "**Compiler:** AI EasyEDA " + "Compiler MVP\n\n"
  }

  /** The summary block: components, nets and BOM items. */
  function Summary(components: nat, nets: nat, bomItems: nat): string
  {
    "## Summary\n\n" + "- Components: " + NatText.NatStr(components) + "\n" + "- Nets: " + NatText.NatStr(nets) +
    "\n" + "- BOM Items: " + NatText.NatStr(bomItems) + "\n\n"
  }

  const NextSteps := "\n## Next Steps\n\n" + "1. Open EasyEDA Pro\n" + "2. File \U{2192} Import \U{2192} " + "EasyEDA JSON\n" +
    "3. Select: output/" + "schematic.json\n" + "4. Review and modify as needed\n" + "5. Generate PCB layout\n"

  const ComponentsHeading := "## Components\n\n"
  const NetsHeading := "\n## Nets\n\n"

  function Report(d: Design, sch: Schematic, generated: string): string
  {
    ReportHead(generated) + Summary(|sch.components|, |sch.nets|, BomCount(d.bom)) +
    (ComponentsHeading + Rendered(sch.components, ComponentLine)) +
    (NetsHeading + Rendered(sch.nets, NetLine)) + NextSteps
  }

  /** generateReport. */
  method GenerateReport(d: Design, sch: Schematic, generated: string) returns (report: string)
    ensures report == Report(d, sch, generated)
  {
    report := ReportHead(generated);
    report := report + Summary(|sch.components|, |sch.nets|, BomCount(d.bom));
    var components := AppendRendered(ComponentsHeading, sch.components, ComponentLine);
    report := report + components;
    var nets := AppendRendered(NetsHeading, sch.nets, NetLine);
    report := report + nets;
    report := report + NextSteps;
  }

  /** The summary of a converted design's report counts the design's own
    * components and nets. */
  lemma ReportCountsDesign(d: Design, uuid: nat -> string, date: string, generated: string)
    ensures Contains(Report(d, ConvertToEasyEDA(d, uuid, date), generated),
      Summary(|d.components|, |d.nets|, BomCount(d.bom)))
  {
    var sch := ConvertToEasyEDA(d, uuid, date);
    var summary := Summary(|sch.components|, |sch.nets|, BomCount(d.bom));
    ContainsSelf(summary);
    WithinFive(ReportHead(generated), summary, ComponentsHeading + Rendered(sch.components, ComponentLine),
      NetsHeading + Rendered(sch.nets, NetLine), NextSteps, summary);
  }

  /** The report lists every component of the schematic. */
  lemma ReportListsComponent(d: Design, sch: Schematic, generated: string, i: nat)
    requires i < |sch.components|
    ensures Contains(Report(d, sch, generated), ComponentLine(sch.components[i]))
  {
    var comps := Rendered(sch.components, ComponentLine);
    RenderedContains(sch.components, i, ComponentLine);
    ContainsWithin(comps, ComponentLine(sch.components[i]), ComponentsHeading, "");
    assert ComponentsHeading + comps + "" == ComponentsHeading + comps;
    WithinFive(ReportHead(generated), Summary(|sch.components|, |sch.nets|, BomCount(d.bom)),
      ComponentsHeading + comps, NetsHeading + Rendered(sch.nets, NetLine), NextSteps, ComponentLine(sch.components[i]));
  }

  /** The report gives every net of the schematic with its number of
    * connections. */
  lemma ReportListsNet(d: Design, sch: Schematic, generated: string, j: nat)
    requires j < |sch.nets|
    ensures Contains(Report(d, sch, generated), NetLine(sch.nets[j]))
  {
    var nets := Rendered(sch.nets, NetLine);
    RenderedContains(sch.nets, j, NetLine);
    ContainsWithin(nets, NetLine(sch.nets[j]), NetsHeading, "");
    assert NetsHeading + nets + "" == NetsHeading + nets;
    WithinFive(ReportHead(generated), Summary(|sch.components|, |sch.nets|, BomCount(d.bom)),
      ComponentsHeading + Rendered(sch.components, ComponentLine), NetsHeading + nets, NextSteps, NetLine(sch.nets[j]));
  }

  // ---------------------------------------------------------------------
  // AIEasyEDACompiler.compile
  // ---------------------------------------------------------------------

  /** The three texts OutputWriter.save writes. */
  datatype Outputs = Outputs(schematic: Schematic, bom: string, report: string)

  /** `{ success: true, outputs }` or `{ success: false }`, with the error
    * message when one was thrown. */
  datatype CompileResult = Compiled(outputs: Outputs) | Failed(error: Option<string>)

  /** The schematic, BOM and report compile derives from a design; the BOM
    * and the report each print their own reading of the clock. */
  function OutputsOf(design: Design, uuid: nat -> string, date: string, bomTime: string, reportTime: string): Outputs
  {
    var schematic := ConvertToEasyEDA(design, uuid, date);
    Outputs(schematic, BomText(design, bomTime), Report(design, schematic, reportTime))
  }

  /** compile. `ai` is the model call (an error message where it throws),
    * `parse` is `JSON.parse` read as a design, `saveError` is the message
    * OutputWriter.save throws for these outputs (a directory it cannot
    * make or a file it cannot write), and `uuid`, `date`, `bomTime` and
    * `reportTime` stand for the random identifiers and the clock readings:
    * the schematic's date, then the local time the BOM prints and the one
    * the report prints, which the source reads separately. */
  function Compile(k: Knowledge, ai: string -> Result<string>, parse: string -> Option<Design>,
                   saveError: Outputs -> Option<string>,
                   uuid: nat -> string, date: string, bomTime: string, reportTime: string): (r: CompileResult)
    ensures r.Compiled? <==> (|k.requirements| > 0 && ai(FullPrompt(k)).Ok? &&
      ParseAIResponse(ai(FullPrompt(k)).value, parse).Ok? &&
      saveError(OutputsOf(ParseAIResponse(ai(FullPrompt(k)).value, parse).value, uuid, date, bomTime, reportTime)).None?)
    ensures |k.requirements| == 0 ==> r == Failed(None)
    ensures r.Compiled? ==> r.outputs.schematic.docType == SchematicDocType && saveError(r.outputs).None?
  {
    if |k.requirements| == 0 then Failed(None)
    else
      match ai(FullPrompt(k))
      case Err(e) => Failed(Some(e))
      case Ok(response) =>
        match ParseAIResponse(response, parse)
        case Err(e) => Failed(Some(e))
        case Ok(design) =>
          var outputs := OutputsOf(design, uuid, date, bomTime, reportTime);
          match saveError(outputs)
          case Some(e) => Failed(Some(e))
          case None => Compiled(outputs)
  }

  /** Without requirement files the model is never consulted: the outcome
    * is the same whatever the model would have answered. */
  lemma NoRequirementsNoModel(k: Knowledge, ai1: string -> Result<string>, ai2: string -> Result<string>,
                              parse: string -> Option<Design>, saveError: Outputs -> Option<string>,
                              uuid: nat -> string, date: string, bomTime: string, reportTime: string)
    requires |k.requirements| == 0
    ensures Compile(k, ai1, parse, saveError, uuid, date, bomTime, reportTime)
         == Compile(k, ai2, parse, saveError, uuid, date, bomTime, reportTime)
  {
  }

  /** A response the parser rejects fails with the parser's message. */
  lemma UnparsableResponseFails(k: Knowledge, ai: string -> Result<string>, parse: string -> Option<Design>,
                                saveError: Outputs -> Option<string>,
                                uuid: nat -> string, date: string, bomTime: string, reportTime: string)
    requires |k.requirements| > 0 && ai(FullPrompt(k)).Ok?
    requires parse(JsonText(ai(FullPrompt(k)).value)).None?
    ensures Compile(k, ai, parse, saveError, uuid, date, bomTime, reportTime) == Failed(Some(InvalidJson))
  {
  }

  /** An error thrown while saving the outputs is caught: compilation fails
    * with that error, after the model has answered with a valid design. */
  lemma SaveErrorFails(k: Knowledge, ai: string -> Result<string>, parse: string -> Option<Design>,
                       saveError: Outputs -> Option<string>,
                       uuid: nat -> string, date: string, bomTime: string, reportTime: string)
    requires |k.requirements| > 0 && ai(FullPrompt(k)).Ok?
    requires ParseAIResponse(ai(FullPrompt(k)).value, parse).Ok?
    requires saveError(OutputsOf(ParseAIResponse(ai(FullPrompt(k)).value, parse).value, uuid, date, bomTime, reportTime)).Some?
    ensures Compile(k, ai, parse, saveError, uuid, date, bomTime, reportTime)
         == Failed(saveError(OutputsOf(ParseAIResponse(ai(FullPrompt(k)).value, parse).value, uuid, date, bomTime, reportTime)))
  {
  }
}
