/** The markdown specification parser of `parser.js`: pipe tables become
  * rows keyed by header, three sections of a PCB description become
  * components and connections, and output files are named after an
  * India Standard Time stamp. */
module PcbParser {
  import opened Wrappers
  import opened Strings
  import opened Seqs
  import NatText

  // ---------------------------------------------------------------------------
  // Pipe tables

  /** `line.split('|').map(c => c.trim()).filter(c => c.length > 0)`. */
  function Cells(line: string): seq<string>
  {
    Filter(TrimAll(Split(line, '|')), NonEmpty)
  }

  function TrimAll(parts: seq<string>): seq<string>
  {
    seq(|parts|, k requires 0 <= k < |parts| => Trim(parts[k]))
  }

  predicate NonEmpty(c: string) { |c| > 0 }

  /** Every cell is a non-blank trimmed part, and every part that does not
    * trim to nothing is a cell. */
  lemma CellsSpec(line: string)
    ensures forall c :: c in Cells(line) ==> |c| > 0 && c in TrimAll(Split(line, '|'))
    ensures forall k :: 0 <= k < |Split(line, '|')| && |Trim(Split(line, '|')[k])| > 0 ==> Trim(Split(line, '|')[k]) in Cells(line)
  {
    var parts := Split(line, '|');
    var t := TrimAll(parts);
    FilterSpec(t, NonEmpty);
    forall k | 0 <= k < |parts| && |Trim(parts[k])| > 0
      ensures Trim(parts[k]) in Cells(line)
    {
      assert t[k] == Trim(parts[k]);
    }
  }

  /** The object a data row becomes, as the assignments
    * `row[headers[i]] = cells[i]` made in index order; reading a key gives
    * the last assignment to it. */
  datatype Row = Row(fields: seq<(string, string)>)

  function Pairs(headers: seq<string>, cells: seq<string>): seq<(string, string)>
    requires |headers| == |cells|
  {
    if |headers| == 0 then []
    else Pairs(headers[..|headers| - 1], cells[..|cells| - 1]) + [(headers[|headers| - 1], cells[|cells| - 1])]
  }

  function RowOf(headers: seq<string>, cells: seq<string>): Row
    requires |headers| == |cells|
  {
    Row(Pairs(headers, cells))
  }

  /** `row[key]`: the value of the last assignment to `key`, `undefined`
    * when there is none. */
  function LastValue(fields: seq<(string, string)>, key: string): Option<string>
  {
    if |fields| == 0 then None
    else if fields[|fields| - 1].0 == key then Some(fields[|fields| - 1].1)
    else LastValue(fields[..|fields| - 1], key)
  }

  function Get(row: Row, key: string): Option<string>
  {
    LastValue(row.fields, key)
  }

  /** The rows made from the cells of the data lines: only lines with
    * exactly as many cells as there are headers. */
  function Rows(headers: seq<string>, cellLines: seq<seq<string>>): seq<Row>
  {
    if |cellLines| == 0 then []
    else
      var p := Rows(headers, cellLines[..|cellLines| - 1]);
      var c := cellLines[|cellLines| - 1];
      if |c| == |headers| then p + [RowOf(headers, c)] else p
  }

  /** The cells of each line. */
  function CellLines(lines: seq<string>): (r: seq<seq<string>>)
    ensures |r| == |lines|
  {
    seq(|lines|, k requires 0 <= k < |lines| => Cells(lines[k]))
  }

  datatype Table = Table(headers: seq<string>, rows: seq<Row>)

  /** `parseTable` on the trimmed text split into lines: no table below
    * three lines; headers from line 0; line 1, the separator, unread. */
  function TableOfLines(lines: seq<string>): Option<Table>
  {
    if |lines| < 3 then None
    else
      var headers := Cells(lines[0]);
      Some(Table(headers, Rows(headers, CellLines(lines[2..]))))
  }

  function TableOf(tableText: string): Option<Table>
  {
    TableOfLines(Split(Trim(tableText), '\n'))
  }

  function TableRows(t: Option<Table>): seq<Row>
  {
    if t.Some? then t.value.rows else []
  }

  lemma PairsStep(headers: seq<string>, cells: seq<string>, j: nat)
    requires |headers| == |cells| && j < |headers|
    ensures Pairs(headers[..j + 1], cells[..j + 1]) == Pairs(headers[..j], cells[..j]) + [(headers[j], cells[j])]
  {
    var h, c := headers[..j + 1], cells[..j + 1];
    assert h[..|h| - 1] == headers[..j] && h[|h| - 1] == headers[j];
    assert c[..|c| - 1] == cells[..j] && c[|c| - 1] == cells[j];
  }

  lemma RowsSnoc(headers: seq<string>, cellLines: seq<seq<string>>, c: seq<string>)
    ensures Rows(headers, cellLines + [c]) ==
      if |c| == |headers| then Rows(headers, cellLines) + [RowOf(headers, c)] else Rows(headers, cellLines)
  {
    var d := cellLines + [c];
    assert d[..|d| - 1] == cellLines;
    assert d[|d| - 1] == c;
  }

  lemma RowsStep(headers: seq<string>, cellLines: seq<seq<string>>, i: nat)
    requires i < |cellLines|
    ensures Rows(headers, cellLines[..i + 1]) ==
      if |cellLines[i]| == |headers| then Rows(headers, cellLines[..i]) + [RowOf(headers, cellLines[i])]
      else Rows(headers, cellLines[..i])
  {
    TakeSnoc(cellLines, i);
    RowsSnoc(headers, cellLines[..i], cellLines[i]);
  }

  /** The assignments are the header/cell pairs in index order. */
  lemma {:induction false} PairsSpec(headers: seq<string>, cells: seq<string>)
    requires |headers| == |cells|
    ensures |Pairs(headers, cells)| == |headers|
    ensures forall k :: 0 <= k < |headers| ==> Pairs(headers, cells)[k] == (headers[k], cells[k])
  {
    if |headers| > 0 {
      var n := |headers| - 1;
      PairsSpec(headers[..n], cells[..n]);
    }
  }

  /** Reading a key finds the last assignment to it, and nothing when the
    * key was never assigned. */
  lemma {:induction false} LastValueSpec(fields: seq<(string, string)>, key: string)
    ensures LastValue(fields, key).None? <==> forall k :: 0 <= k < |fields| ==> fields[k].0 != key
    ensures forall k :: 0 <= k < |fields| && fields[k].0 == key && (forall j :: k < j < |fields| ==> fields[j].0 != key) ==>
      LastValue(fields, key) == Some(fields[k].1)
  {
    if |fields| > 0 {
      var n := |fields| - 1;
      LastValueSpec(fields[..n], key);
      assert forall k :: 0 <= k < n ==> fields[..n][k] == fields[k];
    }
  }

  /** Every header is a key of the row, nothing else is, and a header that
    * does not recur later reads as the cell at its own index (all of them
    * when headers are distinct); a recurring header keeps its last cell. */
  lemma RowOfSpec(headers: seq<string>, cells: seq<string>, key: string)
    requires |headers| == |cells|
    ensures Get(RowOf(headers, cells), key).Some? <==> key in headers
    ensures forall k :: 0 <= k < |headers| && headers[k] == key && (forall j :: k < j < |headers| ==> headers[j] != key) ==>
      Get(RowOf(headers, cells), key) == Some(cells[k])
  {
    PairsSpec(headers, cells);
    LastValueSpec(Pairs(headers, cells), key);
  }

  /** Reference reading of the row loop: keep the lines whose cell count
    * is the header count, in order, and turn each into its row. */
  lemma {:induction false} RowsAreFittingLines(headers: seq<string>, cellLines: seq<seq<string>>)
    ensures var fit := Filter(cellLines, (c: seq<string>) => |c| == |headers|);
      |Rows(headers, cellLines)| == |fit| &&
      forall k :: 0 <= k < |fit| ==> |fit[k]| == |headers| && Rows(headers, cellLines)[k] == RowOf(headers, fit[k])
  {
    if |cellLines| > 0 {
      var n := |cellLines| - 1;
      assert cellLines == cellLines[..n] + [cellLines[n]];
      RowsAreFittingLines(headers, cellLines[..n]);
      FilterSnoc(cellLines[..n], cellLines[n], (c: seq<string>) => |c| == |headers|);
      FilterSpec(cellLines, (c: seq<string>) => |c| == |headers|);
    }
  }

  /** Too few lines means no table; from three lines on there is one. */
  lemma TableOfNone(tableText: string)
    ensures TableOf(tableText).None? <==> |Split(Trim(tableText), '\n')| < 3
  {
  }

  /** Line 1 is never read: two texts whose lines differ only there give
    * the same table. */
  lemma SeparatorUnread(lines: seq<string>, other: seq<string>)
    requires |lines| == |other| && |lines| >= 3
    requires lines[0] == other[0] && lines[2..] == other[2..]
    ensures TableOfLines(lines) == TableOfLines(other)
  {
  }

  /** A data line framed by pipes with one part per header, one of them
    * blank, has too few cells: the blank part is filtered out along with
    * the two outside the frame, so the line yields no row. */
  lemma BlankCellDropsRow(headers: seq<string>, line: string, blank: nat)
    requires var parts := Split(line, '|');
      |parts| == |headers| + 2 && Trim(parts[0]) == "" && Trim(parts[|parts| - 1]) == "" &&
      0 < blank < |parts| - 1 && Trim(parts[blank]) == ""
    ensures |Cells(line)| < |headers|
    ensures forall cellLines :: Rows(headers, cellLines + [Cells(line)]) == Rows(headers, cellLines)
  {
    ThreeBlankParts(Split(line, '|'), blank);
    forall cellLines: seq<seq<string>>
      ensures Rows(headers, cellLines + [Cells(line)]) == Rows(headers, cellLines)
    {
      RowsSnoc(headers, cellLines, Cells(line));
    }
  }

  lemma ThreeBlankParts(parts: seq<string>, blank: nat)
    requires |parts| >= 3 && Trim(parts[0]) == "" && Trim(parts[|parts| - 1]) == ""
    requires 0 < blank < |parts| - 1 && Trim(parts[blank]) == ""
    ensures |Filter(TrimAll(parts), NonEmpty)| + 3 <= |parts|
  {
    var n := |parts| - 1;
    var two: set<nat> := {0} + {blank};
    assert blank !in {0};
    assert |two| == 2;
    var dropped := two + {n};
    assert n !in two;
    assert |dropped| == 3;
    var t := TrimAll(parts);
    assert t[0] == "" && t[blank] == "" && t[n] == "";
    assert forall i :: i in dropped ==> i == 0 || i == blank || i == n;
    FilterCount(t, NonEmpty, dropped);
  }

  // ---------------------------------------------------------------------------
  // Sections of the specification

  /** The three section headings as the source spells them: its dashes and
    * arrows are stored as the characters a Mac Roman reading of their UTF-8
    * bytes gives. */
  const IrHeading := "## PCB A \U{201A}\U{C4}\U{EE} " + "IR Receiver GPIO Mapping"
  const ControlHeading := "## PCB A \U{201A}\U{DC}\U{ED} " + "PCB B Control Signals"
  const MosfetHeading := "## PCB B \U{201A}\U{C4}\U{EE} " + "Shift Register to MOSFET Mapping"

  /** Group 1 of `heading([\s\S]*?)---`: what lies between the first
    * occurrence of the heading and the next `---`. If the first occurrence
    * has no `---` after it, no later one has. */
  function SectionBody(content: string, heading: string): Option<string>
  {
    match IndexOfFrom(content, heading, 0)
    case None => None
    case Some(i) =>
      match IndexOfFrom(content, "---", i + |heading|)
      case None => None
      case Some(j) => Some(content[i + |heading|..j])
  }

  /** The body sits between an occurrence of the heading and a `---`, and
    * holds no `---` itself; if the regular expression matches at all, the
    * body is found. */
  lemma SectionBodySpec(content: string, heading: string)
    ensures var r := SectionBody(content, heading);
      r.Some? ==> exists i, j :: (0 <= i && i + |heading| <= j && j + 3 <= |content| &&
        PrefixAt(content, heading, i) && PrefixAt(content, "---", j) && r.value == content[i + |heading|..j] && !Contains(r.value, "---"))
    ensures (exists i, j :: 0 <= i && i + |heading| <= j && PrefixAt(content, heading, i) && PrefixAt(content, "---", j)) ==>
      SectionBody(content, heading).Some?
  {
    match IndexOfFrom(content, heading, 0)
    case None =>
    case Some(i) =>
      match IndexOfFrom(content, "---", i + |heading|)
      case None =>
      case Some(j) =>
        NoDashesBefore(content, i + |heading|, j);
  }

  /** The match of `heading[\s\S]*?\|([\s\S]*?)---`: from the first
    * occurrence of the heading, past the next `|`, to the end of the next
    * `---`, heading included. */
  function SectionWithTable(content: string, heading: string): Option<string>
  {
    match IndexOfFrom(content, heading, 0)
    case None => None
    case Some(i) =>
      match IndexOfFrom(content, "|", i + |heading|)
      case None => None
      case Some(p) =>
        match IndexOfFrom(content, "---", p + 1)
        case None => None
        case Some(j) => Some(content[i..j + 3])
  }

  /** The match starts with the heading, ends with `---` and has a `|`
    * after the heading. */
  lemma SectionWithTableSpec(content: string, heading: string)
    requires SectionWithTable(content, heading).Some?
    ensures var m := SectionWithTable(content, heading).value;
      StartsWith(m, heading) && EndsWith(m, "---") && '|' in m[|heading|..]
  {
    var i := IndexOfFrom(content, heading, 0).value;
    var p := IndexOfFrom(content, "|", i + |heading|).value;
    var j := IndexOfFrom(content, "---", p + 1).value;
    assert SectionWithTable(content, heading).value == content[i..j + 3];
    assert PrefixAt(content, heading, i);
    assert PrefixAt(content, "---", j);
    PipeOf(content, p);
    assert i + |heading| <= p < j;
    MatchShape(content, heading, i, p, j);
  }

  lemma MatchShape(content: string, heading: string, i: nat, p: nat, j: nat)
    requires PrefixAt(content, heading, i) && i + |heading| <= p < j && PrefixAt(content, "---", j) && content[p] == '|'
    ensures var m := content[i..j + 3];
      StartsWith(m, heading) && EndsWith(m, "---") && '|' in m[|heading|..]
  {
    var m := content[i..j + 3];
    assert m[..|heading|] == content[i..i + |heading|];
    assert m[|heading|..][p - i - |heading|] == content[p];
    assert m[|m| - 3..] == content[j..j + 3];
  }

  lemma NoDashesBefore(content: string, from: nat, j: nat)
    requires from <= j && j + 3 <= |content|
    requires forall k :: from <= k < j ==> !PrefixAt(content, "---", k)
    ensures !Contains(content[from..j], "---")
  {
    var b := content[from..j];
    forall i | 0 <= i <= |b|
      ensures !PrefixAt(b, "---", i)
    {
      PrefixAtSlice(content, "---", from, j, i);
    }
  }

  /** As written, the table inside the receiver section is the match of
    * `\|[\s\S]*?\|[\s\S]*?\|`: from the first `|` to the third, whatever
    * lies beyond. */
  function IrTableAsWritten(body: string): Option<string>
  {
    match IndexOfFrom(body, "|", 0)
    case None => None
    case Some(i) =>
      match IndexOfFrom(body, "|", i + 1)
      case None => None
      case Some(j) =>
        match IndexOfFrom(body, "|", j + 1)
        case None => None
        case Some(k) => Some(body[i..k + 1])
  }

  /** Text without a line break is a single line, hence no table. */
  lemma OneLineNoTable(t: string)
    requires '\n' !in t
    ensures TableOf(t).None?
  {
    var r := Trim(t);
    var s := TrimStart(t);
    assert s == t[|t| - |s|..];
    assert r == s[..|r|];
    assert forall c :: c in r ==> c in s ==> c in t;
  }

  /** The defect: whenever the first three pipes of the section share a
    * line (any table whose header row has two or more columns), the text
    * handed to `parseTable` is one line and no receiver is found. */
  lemma IrTableAsWrittenCut(body: string)
    requires IrTableAsWritten(body).Some? && '\n' !in IrTableAsWritten(body).value
    ensures TableOf(IrTableAsWritten(body).value).None?
  {
    OneLineNoTable(IrTableAsWritten(body).value);
  }

  /** A receiver section holding a two-column table with one data row:
    * as written only its header line is handed on, which is no table. */
  lemma IrTableAsWrittenExample(body: string, header: string)
    requires body == "|a|b|\n|-|-|\n|1|2|" && header == "|a|b|"
    ensures IrTableAsWritten(body) == Some(header)
    ensures TableOf(header).None?
  {
    ExamplePipes(body);
    OneLineNoTable(header);
  }

  /** The same section read as intended: the whole table, first `|` to
    * last. */
  lemma IrTableExample(body: string)
    requires body == "|a|b|\n|-|-|\n|1|2|"
    ensures IrTable(body) == Some(body)
  {
    assert body == "" + body + "";
    IrTableWhole("", body, "");
  }

  lemma ExamplePipes(body: string)
    requires body == "|a|b|\n|-|-|\n|1|2|"
    ensures IndexOfFrom(body, "|", 0) == Some(0) && IndexOfFrom(body, "|", 1) == Some(2) && IndexOfFrom(body, "|", 3) == Some(4)
    ensures body[0..5] == "|a|b|"
  {
    PipeAt(body, 0);
    NoPipeAt(body, 1);
    PipeAt(body, 2);
    NoPipeAt(body, 3);
    PipeAt(body, 4);
    IndexOfFromAt(body, "|", 0, 0);
    IndexOfFromAt(body, "|", 1, 2);
    IndexOfFromAt(body, "|", 3, 4);
  }

  lemma PipeAt(s: string, p: nat)
    requires p < |s| && s[p] == '|'
    ensures PrefixAt(s, "|", p)
  {
    assert s[p..p + 1] == [s[p]];
  }

  lemma NoPipeAt(s: string, p: nat)
    requires p < |s| && s[p] != '|'
    ensures !PrefixAt(s, "|", p)
  {
    assert s[p..p + 1][0] == s[p];
  }

  lemma PipeOf(s: string, p: nat)
    requires PrefixAt(s, "|", p)
    ensures p < |s| && s[p] == '|'
  {
    assert s[p..p + 1][0] == s[p];
  }

  /** The table the section evidently means: from its first `|` to its
    * last. */
  function IrTable(body: string): Option<string>
  {
    match IndexOfFrom(body, "|", 0)
    case None => None
    case Some(i) =>
      match LastIndexOf(body, "|")
      case None => None
      case Some(k) => if i <= k then Some(body[i..k + 1]) else None
  }

  /** The slice runs from a `|` to a `|` and no pipe of the section lies
    * outside it. */
  lemma IrTableSpec(body: string)
    ensures var r := IrTable(body);
      r.Some? ==> exists i, k :: (0 <= i <= k < |body| && r.value == body[i..k + 1] &&
        body[i] == '|' && body[k] == '|' && forall p :: 0 <= p < |body| && body[p] == '|' ==> i <= p <= k)
    ensures '|' in body ==> IrTable(body).Some?
  {
    match IndexOfFrom(body, "|", 0)
    case None =>
      if '|' in body {
        var p :| 0 <= p < |body| && body[p] == '|';
        PipeAt(body, p);
      }
    case Some(i) =>
      PipeOf(body, i);
      PipeAt(body, i);
      match LastIndexOf(body, "|")
      case Some(k) =>
        PipeOf(body, k);
        PipesBetween(body, i, k);
  }

  lemma PipesBetween(body: string, i: nat, k: nat)
    requires forall p :: 0 <= p < i ==> !PrefixAt(body, "|", p)
    requires forall p :: k < p ==> !PrefixAt(body, "|", p)
    ensures forall p :: 0 <= p < |body| && body[p] == '|' ==> i <= p <= k
  {
    forall p | 0 <= p < |body| && body[p] == '|'
      ensures i <= p <= k
    {
      PipeAt(body, p);
    }
  }

  /** A table framed by pipe-free text is handed over whole. */
  lemma IrTableWhole(pre: string, table: string, post: string)
    requires '|' !in pre && '|' !in post
    requires |table| >= 1 && table[0] == '|' && table[|table| - 1] == '|'
    ensures IrTable(pre + table + post) == Some(table)
  {
    var body := pre + table + post;
    var a, z := |pre|, |pre| + |table| - 1;
    assert body[a] == table[0];
    PipeAt(body, a);
    assert body[z] == table[|table| - 1];
    PipeAt(body, z);
    var i := IndexOfFrom(body, "|", 0).value;
    var k := LastIndexOf(body, "|").value;
    PipeOf(body, i);
    PipeOf(body, k);
    assert forall p :: 0 <= p < a ==> body[p] == pre[p];
    assert forall p :: z < p < |body| ==> body[p] == post[p - a - |table|];
    assert i == a && k == z;
    assert body[a..z + 1] == table;
  }

  /** The first `# ` and the rest of its line: group 1 of `/# (.*)/`. */
  function Title(content: string): (r: Option<string>)
    ensures r.Some? ==> Contains(content, "# " + r.value) && forall c :: c in r.value ==> !IsLineTerminator(c)
  {
    match IndexOfFrom(content, "# ", 0)
    case None => None
    case Some(i) =>
      var e := LineEnd(content, i + 2);
      assert content[i..e] == "# " + content[i + 2..e];
      assert PrefixAt(content, "# " + content[i + 2..e], i);
      Some(content[i + 2..e])
  }

  predicate IsLineTerminator(c: char)
  {
    c == '\n' || c == '\r' || c == '\U{2028}' || c == '\U{2029}'
  }

  function LineEnd(s: string, from: nat): (e: nat)
    requires from <= |s|
    ensures from <= e <= |s| && (e < |s| ==> IsLineTerminator(s[e]))
    ensures forall k :: from <= k < e ==> !IsLineTerminator(s[k])
    decreases |s| - from
  {
    if from == |s| || IsLineTerminator(s[from]) then from else LineEnd(s, from + 1)
  }

  // ---------------------------------------------------------------------------
  // Components and connections

  datatype Endpoint = Endpoint(component: Option<string>, pin: Option<string>)

  datatype Connection =
    | Wire(from: Endpoint, to: Endpoint)
    | ControlSignal(signal: Option<string>, from: Endpoint, to: Endpoint, description: Option<string>)

  /** The component records; each kind's fixed type and model are below. */
  datatype Component =
    | IrReceiver(name: Option<string>, vcc: Option<string>, gnd: Option<string>, out: Option<string>, mcuPin: Option<string>)
    | Mosfet(designator: string, role: Option<string>)
    | IrLed(name: Option<string>, channel: nat)
    | Mcu
    | ShiftRegister
  {
    function Kind(): string
    {
      match this
      case IrReceiver(_, _, _, _, _) => "IR_RECEIVER"
      case Mosfet(_, _) => "MOSFET"
      case IrLed(_, _) => "IR_LED"
      case Mcu => "MCU"
      case ShiftRegister => "SHIFT_REGISTER"
    }

    function Model(): Option<string>
    {
      match this
      case IrReceiver(_, _, _, _, _) => Some("TSOP4838")
      case Mosfet(_, _) => None
      case IrLed(_, _) => Some("TSAL6400")
      case Mcu => Some(Pico)
      case ShiftRegister => Some(ShiftRegisterModel)
    }
  }

  const Pico := "Raspberry Pi Pico"
  const ShiftRegisterModel := "74HC595"

  function IrReceiverOf(row: Row): Component
  {
    IrReceiver(Get(row, "IR Receiver"), Get(row, "VCC"), Get(row, "GND"), Get(row, "GPIO Pin"), Get(row, "MCU Pin Name"))
  }

  function IrWireOf(row: Row): Connection
  {
    Wire(Endpoint(Get(row, "IR Receiver"), Some("OUT")), Endpoint(Some(Pico), Get(row, "MCU Pin Name")))
  }

  function ControlSignalOf(row: Row): Connection
  {
    ControlSignal(Get(row, "Signal Name"), Endpoint(Some(Pico), Get(row, "PCB A GPIO")),
      Endpoint(Some(ShiftRegisterModel), Get(row, "74HC595 Pin")), Get(row, "Description"))
  }

  /** `Q1`, `Q2`, ...: the MOSFET of row `idx`. */
  function MosfetName(idx: nat): string
  {
    "Q" + NatText.NatStr(idx + 1)
  }

  /** Row `idx` of the MOSFET table: the MOSFET `Q<idx+1>`, its LED on
    * channel `idx + 1`, the wire from the shift register output to its
    * gate, and the one from its drain to the LED's cathode. */
  function MosfetOf(row: Row, idx: nat): Component
  {
    Mosfet(MosfetName(idx), Get(row, "Function"))
  }

  function LedOf(row: Row, idx: nat): Component
  {
    IrLed(Get(row, "IR LED"), idx + 1)
  }

  function GateWireOf(row: Row, idx: nat): Connection
  {
    Wire(Endpoint(Some(ShiftRegisterModel), Get(row, "Shift Register Output")), Endpoint(Some(MosfetName(idx)), Some("Gate")))
  }

  function DrainWireOf(row: Row, idx: nat): Connection
  {
    Wire(Endpoint(Some(MosfetName(idx)), Some("Drain")), Endpoint(Get(row, "IR LED"), Some("Cathode")))
  }

  function IrComponents(rows: seq<Row>): seq<Component>
  {
    if |rows| == 0 then [] else IrComponents(rows[..|rows| - 1]) + [IrReceiverOf(rows[|rows| - 1])]
  }

  function IrConnections(rows: seq<Row>): seq<Connection>
  {
    if |rows| == 0 then [] else IrConnections(rows[..|rows| - 1]) + [IrWireOf(rows[|rows| - 1])]
  }

  function ControlConnections(rows: seq<Row>): seq<Connection>
  {
    if |rows| == 0 then [] else ControlConnections(rows[..|rows| - 1]) + [ControlSignalOf(rows[|rows| - 1])]
  }

  /** Per row: the MOSFET, then its LED on the row's channel. */
  function MosfetComponents(rows: seq<Row>): seq<Component>
  {
    if |rows| == 0 then []
    else
      var n := |rows| - 1;
      MosfetComponents(rows[..n]) + [MosfetOf(rows[n], n), LedOf(rows[n], n)]
  }

  /** Per row: shift register output to the gate, then drain to the
    * LED's cathode. */
  function MosfetConnections(rows: seq<Row>): seq<Connection>
  {
    if |rows| == 0 then []
    else
      var n := |rows| - 1;
      MosfetConnections(rows[..n]) + [
        GateWireOf(rows[n], n),
        DrainWireOf(rows[n], n)]
  }

  lemma IrStep(rows: seq<Row>, i: nat)
    requires i < |rows|
    ensures IrComponents(rows[..i + 1]) == IrComponents(rows[..i]) + [IrReceiverOf(rows[i])]
    ensures IrConnections(rows[..i + 1]) == IrConnections(rows[..i]) + [IrWireOf(rows[i])]
  {
    var d := rows[..i + 1];
    assert d[..|d| - 1] == rows[..i];
    assert d[|d| - 1] == rows[i];
  }

  lemma ControlStep(rows: seq<Row>, i: nat)
    requires i < |rows|
    ensures ControlConnections(rows[..i + 1]) == ControlConnections(rows[..i]) + [ControlSignalOf(rows[i])]
  {
    var d := rows[..i + 1];
    assert d[..|d| - 1] == rows[..i];
    assert d[|d| - 1] == rows[i];
  }

  lemma MosfetStep(rows: seq<Row>, i: nat)
    requires i < |rows|
    ensures MosfetComponents(rows[..i + 1]) ==
      MosfetComponents(rows[..i]) + [MosfetOf(rows[i], i), LedOf(rows[i], i)]
    ensures MosfetConnections(rows[..i + 1]) == MosfetConnections(rows[..i]) + [
      GateWireOf(rows[i], i),
      DrainWireOf(rows[i], i)]
  {
    var d := rows[..i + 1];
    assert d[..|d| - 1] == rows[..i];
    assert d[|d| - 1] == rows[i];
  }

  lemma {:induction false} IrComponentsSpec(rows: seq<Row>)
    ensures |IrComponents(rows)| == |rows| && |IrConnections(rows)| == |rows|
    ensures forall k :: 0 <= k < |rows| ==> IrComponents(rows)[k] == IrReceiverOf(rows[k]) && IrConnections(rows)[k] == IrWireOf(rows[k])
  {
    if |rows| > 0 {
      var n := |rows| - 1;
      IrComponentsSpec(rows[..n]);
      assert forall k :: 0 <= k < n ==> rows[..n][k] == rows[k];
    }
  }

  lemma {:induction false} ControlConnectionsSpec(rows: seq<Row>)
    ensures |ControlConnections(rows)| == |rows|
    ensures forall k :: 0 <= k < |rows| ==> ControlConnections(rows)[k] == ControlSignalOf(rows[k])
  {
    if |rows| > 0 {
      var n := |rows| - 1;
      ControlConnectionsSpec(rows[..n]);
      assert forall k :: 0 <= k < n ==> rows[..n][k] == rows[k];
    }
  }

  /** n rows give 2n components, Q1..Qn interleaved with their LEDs on
    * channels 1..n. */
  lemma {:induction false} MosfetComponentsSpec(rows: seq<Row>)
    ensures |MosfetComponents(rows)| == 2 * |rows|
    ensures forall k :: 0 <= k < |rows| ==>
      MosfetComponents(rows)[2 * k] == Mosfet(MosfetName(k), Get(rows[k], "Function")) &&
      MosfetComponents(rows)[2 * k + 1] == IrLed(Get(rows[k], "IR LED"), k + 1)
  {
    if |rows| > 0 {
      var n := |rows| - 1;
      MosfetComponentsSpec(rows[..n]);
      var prev, all := MosfetComponents(rows[..n]), MosfetComponents(rows);
      assert all == prev + [MosfetOf(rows[n], n), LedOf(rows[n], n)];
      forall k | 0 <= k < |rows|
        ensures all[2 * k] == MosfetOf(rows[k], k) && all[2 * k + 1] == LedOf(rows[k], k)
      {
        if k < n {
          assert all[2 * k] == prev[2 * k] && all[2 * k + 1] == prev[2 * k + 1];
          assert rows[..n][k] == rows[k];
        }
      }
    }
  }

  /** ... and 2n connections, each gate wire followed by its drain wire. */
  lemma {:induction false} MosfetConnectionsSpec(rows: seq<Row>)
    ensures |MosfetConnections(rows)| == 2 * |rows|
    ensures forall k :: 0 <= k < |rows| ==>
      MosfetConnections(rows)[2 * k] == Wire(Endpoint(Some(ShiftRegisterModel), Get(rows[k], "Shift Register Output")), Endpoint(Some(MosfetName(k)), Some("Gate"))) &&
      MosfetConnections(rows)[2 * k + 1] == Wire(Endpoint(Some(MosfetName(k)), Some("Drain")), Endpoint(Get(rows[k], "IR LED"), Some("Cathode")))
  {
    if |rows| > 0 {
      var n := |rows| - 1;
      MosfetConnectionsSpec(rows[..n]);
      var prev, all := MosfetConnections(rows[..n]), MosfetConnections(rows);
      assert all == prev + [GateWireOf(rows[n], n), DrainWireOf(rows[n], n)];
      forall k | 0 <= k < |rows|
        ensures all[2 * k] == GateWireOf(rows[k], k) && all[2 * k + 1] == DrainWireOf(rows[k], k)
      {
        if k < n {
          assert all[2 * k] == prev[2 * k] && all[2 * k + 1] == prev[2 * k + 1];
          assert rows[..n][k] == rows[k];
        }
      }
    }
  }

  /** The MOSFET names are pairwise distinct. */
  lemma MosfetNamesDistinct(a: nat, b: nat)
    requires a != b
    ensures MosfetName(a) != MosfetName(b)
  {
    if MosfetName(a) == MosfetName(b) {
      NatText.PrefixedInjective("Q", a + 1, b + 1);
    }
  }

  datatype Parsed = Parsed(title: Option<string>, components: seq<Component>, connections: seq<Connection>)

  class PCBSpecParser {
    const content: string
    var components: seq<Component>
    var connections: seq<Connection>
    /** `metadata.title`, absent until a title is found. */
    var title: Option<string>

    constructor(mdContent: string)
      ensures content == mdContent && components == [] && connections == [] && title == None
    {
      content := mdContent;
      components := [];
      connections := [];
      title := None;
    }

    method ParseTable(tableText: string) returns (t: Option<Table>)
      ensures t == TableOf(tableText)
    {
      var lines := Split(Trim(tableText), '\n');
      if |lines| < 3 {
        return None;
      }
      var headers := Cells(lines[0]);
      var rows := BuildRows(headers, lines[2..]);
      return Some(Table(headers, rows));
    }

    method ParseIRReceivers()
      modifies this`components, this`connections
      ensures var rows := IrRows(content);
        components == old(components) + IrComponents(rows) && connections == old(connections) + IrConnections(rows)
    {
      var rows := IrTableRows();
      var cs, ws := BuildIrParts(rows);
      components := components + cs;
      connections := connections + ws;
    }

    /** The receiver rows, none when the section, its table or the table's
      * three lines are missing. */
    method IrTableRows() returns (rows: seq<Row>)
      ensures rows == IrRows(content)
    {
      var section := SectionBody(content, IrHeading);
      if section.None? {
        return [];
      }
      var tableText := IrTableAsWritten(section.value);
      if tableText.None? {
        return [];
      }
      var table := ParseTable(tableText.value);
      if table.None? {
        return [];
      }
      return table.value.rows;
    }

    method ParseShiftRegisterInterface()
      modifies this`connections
      ensures connections == old(connections) + ControlConnections(ControlRows(content))
    {
      var rows := SectionTableRows(ControlHeading);
      var ws := BuildControlSignals(rows);
      connections := connections + ws;
    }

    method ParseMOSFETMapping()
      modifies this`components, this`connections
      ensures var rows := MosfetRows(content);
        components == old(components) + MosfetComponents(rows) && connections == old(connections) + MosfetConnections(rows)
    {
      var rows := SectionTableRows(MosfetHeading);
      var cs, ws := BuildMosfetParts(rows);
      components := components + cs;
      connections := connections + ws;
    }

    /** The rows of the table matched after `heading`, none when there is
      * no match or it has fewer than three lines. */
    method SectionTableRows(heading: string) returns (rows: seq<Row>)
      ensures rows == SectionRows(content, heading)
    {
      var section := SectionWithTable(content, heading);
      if section.None? {
        return [];
      }
      var table := ParseTable(section.value);
      if table.None? {
        return [];
      }
      return table.value.rows;
    }

    /** Title first, then the three sections in order, then the MCU `U1`
      * and the shift register `U2`. */
    method Parse() returns (result: Parsed)
      modifies this`components, this`connections, this`title
      ensures title == if Title(content).Some? then Title(content) else old(title)
      ensures components == old(components) + IrComponents(IrRows(content)) + MosfetComponents(MosfetRows(content)) + [Mcu, ShiftRegister]
      ensures connections == old(connections) + IrConnections(IrRows(content)) + ControlConnections(ControlRows(content)) + MosfetConnections(MosfetRows(content))
      ensures result == Parsed(title, components, connections)
    {
      var t := Title(content);
      if t.Some? {
        title := t;
      }
      ParseIRReceivers();
      ParseShiftRegisterInterface();
      ParseMOSFETMapping();
      components := components + [Mcu, ShiftRegister];
      return Parsed(title, components, connections);
    }
  }

  /** The `forEach` of `parseIRReceivers`: one receiver and one wire per
    * row. */
  method BuildIrParts(rows: seq<Row>) returns (cs: seq<Component>, ws: seq<Connection>)
    ensures cs == IrComponents(rows) && ws == IrConnections(rows)
  {
    cs, ws := [], [];
    var i := 0;
    while i < |rows|
      invariant 0 <= i <= |rows|
      invariant cs == IrComponents(rows[..i]) && ws == IrConnections(rows[..i])
    {
      cs := cs + [IrReceiverOf(rows[i])];
      ws := ws + [IrWireOf(rows[i])];
      IrStep(rows, i);
      i := i + 1;
    }
    assert rows[..i] == rows;
  }

  /** The `forEach` of `parseShiftRegisterInterface`. */
  method BuildControlSignals(rows: seq<Row>) returns (ws: seq<Connection>)
    ensures ws == ControlConnections(rows)
  {
    ws := [];
    var i := 0;
    while i < |rows|
      invariant 0 <= i <= |rows|
      invariant ws == ControlConnections(rows[..i])
    {
      ws := ws + [ControlSignalOf(rows[i])];
      ControlStep(rows, i);
      i := i + 1;
    }
    assert rows[..i] == rows;
  }

  /** The `forEach` of `parseMOSFETMapping`: two components and two wires
    * per row. */
  method BuildMosfetParts(rows: seq<Row>) returns (cs: seq<Component>, ws: seq<Connection>)
    ensures cs == MosfetComponents(rows) && ws == MosfetConnections(rows)
  {
    cs, ws := [], [];
    var idx := 0;
    while idx < |rows|
      invariant 0 <= idx <= |rows|
      invariant cs == MosfetComponents(rows[..idx]) && ws == MosfetConnections(rows[..idx])
    {
      var row := rows[idx];
      cs := cs + [MosfetOf(row, idx)];
      cs := cs + [LedOf(row, idx)];
      ws := ws + [GateWireOf(row, idx)];
      ws := ws + [DrainWireOf(row, idx)];
      MosfetStep(rows, idx);
      idx := idx + 1;
    }
    assert rows[..idx] == rows;
  }

  /** The loop of `parseTable` over the data lines. */
  method BuildRows(headers: seq<string>, lines: seq<string>) returns (rows: seq<Row>)
    ensures rows == Rows(headers, CellLines(lines))
  {
    ghost var cellLines := CellLines(lines);
    rows := [];
    var i := 0;
    while i < |lines|
      invariant 0 <= i <= |lines|
      invariant rows == Rows(headers, cellLines[..i])
    {
      var cells := Cells(lines[i]);
      assert cells == cellLines[i];
      if |cells| == |headers| {
        var row := BuildRow(headers, cells);
        rows := rows + [row];
      }
      RowsStep(headers, cellLines, i);
      i := i + 1;
    }
    assert cellLines[..i] == cellLines;
  }

  /** `buildRow`: the forEach over the headers that fills the row object. */
  method BuildRow(headers: seq<string>, cells: seq<string>) returns (row: Row)
    requires |headers| == |cells|
    ensures row == RowOf(headers, cells)
  {
    var fields := [];
    var j := 0;
    while j < |headers|
      invariant 0 <= j <= |headers|
      invariant fields == Pairs(headers[..j], cells[..j])
    {
      fields := fields + [(headers[j], cells[j])];
      PairsStep(headers, cells, j);
      j := j + 1;
    }
    assert headers[..j] == headers && cells[..j] == cells;
    row := Row(fields);
  }

  /** The receiver rows as parser.js reads them: the table text is the
    * lazy three-pipe match `IrTableAsWritten`. */
  function IrRows(content: string): seq<Row>
  {
    var section := SectionBody(content, IrHeading);
    if section.None? then [] else
    var tableText := IrTableAsWritten(section.value);
    if tableText.None? then [] else TableRows(TableOf(tableText.value))
  }

  /** The receiver rows under the intended reading `IrTable`. */
  function IrRowsFixed(content: string): seq<Row>
  {
    var section := SectionBody(content, IrHeading);
    if section.None? then [] else
    var tableText := IrTable(section.value);
    if tableText.None? then [] else TableRows(TableOf(tableText.value))
  }

  /** Read as intended, a receiver table framed by pipe-free text is parsed
    * whole. */
  lemma IrRowsFixedWhole(content: string, pre: string, table: string, post: string)
    requires SectionBody(content, IrHeading) == Some(pre + table + post)
    requires '|' !in pre && '|' !in post
    requires |table| >= 1 && table[0] == '|' && table[|table| - 1] == '|'
    ensures IrRowsFixed(content) == TableRows(TableOf(table))
  {
    IrTableWhole(pre, table, post);
  }

  /** As written, a receiver section whose first three pipes share a line
    * yields no receiver rows at all. */
  lemma IrRowsCut(content: string)
    requires SectionBody(content, IrHeading).Some?
    requires var t := IrTableAsWritten(SectionBody(content, IrHeading).value);
      t.Some? && '\n' !in t.value
    ensures IrRows(content) == []
  {
    IrTableAsWrittenCut(SectionBody(content, IrHeading).value);
  }

  /** The rows of the table in the match of
    * `heading[\s\S]*?\|([\s\S]*?)---`, whole match included. */
  function SectionRows(content: string, heading: string): seq<Row>
  {
    var section := SectionWithTable(content, heading);
    if section.None? then [] else TableRows(TableOf(section.value))
  }

  function ControlRows(content: string): seq<Row>
  {
    SectionRows(content, ControlHeading)
  }

  function MosfetRows(content: string): seq<Row>
  {
    SectionRows(content, MosfetHeading)
  }

  /** Whatever the sections hold: the receivers come first in row order,
    * then each MOSFET with its LED, and the last two components are the
    * MCU and the shift register. */
  lemma {:induction false} ParsedLayout(before: seq<Component>, ir: seq<Row>, mos: seq<Row>)
    ensures var cs := before + IrComponents(ir) + MosfetComponents(mos) + [Mcu, ShiftRegister];
      |cs| == |before| + |ir| + 2 * |mos| + 2 &&
      cs[..|before|] == before &&
      (forall k :: 0 <= k < |ir| ==> cs[|before| + k] == IrReceiverOf(ir[k])) &&
      (forall k :: 0 <= k < |mos| ==> cs[|before| + |ir| + 2 * k] == Mosfet(MosfetName(k), Get(mos[k], "Function"))) &&
      cs[|cs| - 2] == Mcu && cs[|cs| - 1] == ShiftRegister
  {
    IrComponentsSpec(ir);
    MosfetComponentsSpec(mos);
    LayoutOf(before, IrComponents(ir), MosfetComponents(mos), ir, mos);
  }

  /** ParsedLayout over the two lists, given what their specifications say. */
  lemma LayoutOf(before: seq<Component>, a: seq<Component>, m: seq<Component>, ir: seq<Row>, mos: seq<Row>)
    requires |a| == |ir| && forall k :: 0 <= k < |ir| ==> a[k] == IrReceiverOf(ir[k])
    requires |m| == 2 * |mos| && forall k :: 0 <= k < |mos| ==> m[2 * k] == Mosfet(MosfetName(k), Get(mos[k], "Function"))
    ensures var cs := before + a + m + [Mcu, ShiftRegister];
      |cs| == |before| + |ir| + 2 * |mos| + 2 &&
      cs[..|before|] == before &&
      (forall k :: 0 <= k < |ir| ==> cs[|before| + k] == IrReceiverOf(ir[k])) &&
      (forall k :: 0 <= k < |mos| ==> cs[|before| + |ir| + 2 * k] == Mosfet(MosfetName(k), Get(mos[k], "Function"))) &&
      cs[|cs| - 2] == Mcu && cs[|cs| - 1] == ShiftRegister
  {
    LayoutParts(before, a, m);
    var cs := before + a + m + [Mcu, ShiftRegister];
    forall k | 0 <= k < |mos|
      ensures cs[|before| + |ir| + 2 * k] == Mosfet(MosfetName(k), Get(mos[k], "Function"))
    {
      assert cs[|before| + |a| + 2 * k] == m[2 * k];
    }
  }

  lemma LayoutParts(before: seq<Component>, a: seq<Component>, m: seq<Component>)
    ensures var cs := before + a + m + [Mcu, ShiftRegister];
      |cs| == |before| + |a| + |m| + 2 && cs[..|before|] == before &&
      (forall k :: 0 <= k < |a| ==> cs[|before| + k] == a[k]) &&
      (forall k :: 0 <= k < |m| ==> cs[|before| + |a| + k] == m[k]) &&
      cs[|cs| - 2] == Mcu && cs[|cs| - 1] == ShiftRegister
  {
  }

  /** The fixed name and board of the two main parts. */
  function MainName(c: Component): string
  {
    match c
    case Mcu => "U1"
    case ShiftRegister => "U2"
    case _ => ""
  }

  function Board(c: Component): string
  {
    match c
    case Mcu => "PCB A"
    case ShiftRegister => "PCB B"
    case _ => ""
  }

  // ---------------------------------------------------------------------------
  // India Standard Time stamps

  /** 5.5 hours in milliseconds. */
  const IstOffset: int := 19800000
  const MsPerDay: int := 86400000

  /** A UTC calendar day as `getUTCFullYear`, `getUTCMonth` (0-based) and
    * `getUTCDate` report it. */
  datatype CivilDate = CivilDate(year: int, month0: nat, day: nat)

  datatype Clock = Clock(year: int, month: nat, day: nat, hours: nat, minutes: nat, seconds: nat)

  /** The UTC fields of time value `t` as ECMAScript defines them
    * (`HourFromTime` and its kin); `civil` maps a day number, days since
    * 1970-01-01, to its calendar date. */
  function ClockAt(t: int, civil: int -> CivilDate): (c: Clock)
    ensures c.hours < 24 && c.minutes < 60 && c.seconds < 60
  {
    var d := civil(t / MsPerDay);
    Clock(d.year, d.month0 + 1, d.day, (t / 3600000) % 24, (t / 60000) % 60, (t / 1000) % 60)
  }

  function IstClock(nowMs: int, civil: int -> CivilDate): Clock
  {
    ClockAt(nowMs + IstOffset, civil)
  }

  /** `${year}${month}${day}_${hours}${minutes}${seconds}`, all but the year
    * padded to two digits. */
  function Stamp(c: Clock): string
  {
    NatText.IntStr(c.year) + NatText.Pad2(c.month) + NatText.Pad2(c.day) + "_" +
      NatText.Pad2(c.hours) + NatText.Pad2(c.minutes) + NatText.Pad2(c.seconds)
  }

  function GetISTTimestamp(nowMs: int, civil: int -> CivilDate): string
  {
    Stamp(IstClock(nowMs, civil))
  }

  /** `${prefix}_${timestamp}.json`, the prefix defaulting to `pcb-data`
    * only when it is not passed at all. */
  function GenerateFilename(prefix: Option<string>, nowMs: int, civil: int -> CivilDate): (r: string)
    ensures EndsWith(r, ".json") && StartsWith(r, prefix.GetOr("pcb-data") + "_")
  {
    var p := prefix.GetOr("pcb-data");
    var r := p + "_" + GetISTTimestamp(nowMs, civil) + ".json";
    assert r[..|p + "_"|] == p + "_";
    assert r[|r| - 5..] == ".json";
    r
  }

  predicate InRange(c: Clock)
  {
    1000 <= c.year <= 9999 && 1 <= c.month <= 12 && 1 <= c.day <= 31 && c.hours < 24 && c.minutes < 60 && c.seconds < 60
  }

  /** Same seconds as UTC, minutes shifted by 30 and hours by 5, carrying
    * past the half hour; the date is that of the shifted day number. */
  lemma IstShift(nowMs: int, civil: int -> CivilDate)
    ensures var ist, utc := IstClock(nowMs, civil), ClockAt(nowMs, civil);
      ist.seconds == utc.seconds &&
      ist.minutes == (utc.minutes + 30) % 60 &&
      ist.hours == (utc.hours + 5 + (if utc.minutes >= 30 then 1 else 0)) % 24 &&
      civil((nowMs + IstOffset) / MsPerDay) == CivilDate(ist.year, ist.month - 1, ist.day)
  {
    ShiftSeconds(nowMs);
    ShiftMinutes(nowMs);
    ShiftHours(nowMs);
  }

  lemma ShiftSeconds(t: int)
    ensures ((t + IstOffset) / 1000) % 60 == (t / 1000) % 60
  {
    assert (t + IstOffset) / 1000 == t / 1000 + 19800;
  }

  lemma ShiftMinutes(t: int)
    ensures ((t + IstOffset) / 60000) % 60 == ((t / 60000) % 60 + 30) % 60
  {
    assert (t + IstOffset) / 60000 == t / 60000 + 330;
  }

  lemma ShiftHours(t: int)
    ensures ((t + IstOffset) / 3600000) % 24 == ((t / 3600000) % 24 + 5 + (if (t / 60000) % 60 >= 30 then 1 else 0)) % 24
  {
    var hr, r := t / 3600000, t % 3600000;
    var q := r / 60000;
    assert t == 60000 * (60 * hr + q) + r % 60000;
    assert t / 60000 == 60 * hr + q;
    assert (t / 60000) % 60 == q;
    var carry := if q >= 30 then 1 else 0;
    assert (t + IstOffset) / 3600000 == hr + 5 + carry;
    var hm := hr % 24;
    assert hr == 24 * (hr / 24) + hm;
    assert hr + 5 + carry == 24 * (hr / 24) + (hm + 5 + carry);
  }

  /** For four-digit years the stamp is `YYYYMMDD_HHMMSS`: fifteen
    * characters, an underscore at index 8 and digits elsewhere. */
  lemma StampShape(c: Clock)
    requires InRange(c)
    ensures var s := Stamp(c);
      |s| == 15 && s[8] == '_' && forall k :: 0 <= k < 15 && k != 8 ==> IsDigit(s[k])
  {
    NatText.NatStrLength4(c.year);
  }

  /** Stamps of in-range clocks read back uniquely: one second apart is
    * enough to get a different file name. */
  lemma StampInjective(c: Clock, d: Clock)
    requires InRange(c) && InRange(d) && Stamp(c) == Stamp(d)
    ensures c == d
  {
    NatText.NatStrLength4(c.year);
    NatText.NatStrLength4(d.year);
    var y, mo, da := NatText.NatStr(c.year), NatText.Pad2(c.month), NatText.Pad2(c.day);
    var ho, mi, se := NatText.Pad2(c.hours), NatText.Pad2(c.minutes), NatText.Pad2(c.seconds);
    var y', mo', da' := NatText.NatStr(d.year), NatText.Pad2(d.month), NatText.Pad2(d.day);
    var ho', mi', se' := NatText.Pad2(d.hours), NatText.Pad2(d.minutes), NatText.Pad2(d.seconds);
    SplitRight(y + mo + da + "_" + ho + mi, se, y' + mo' + da' + "_" + ho' + mi', se');
    SplitRight(y + mo + da + "_" + ho, mi, y' + mo' + da' + "_" + ho', mi');
    SplitRight(y + mo + da + "_", ho, y' + mo' + da' + "_", ho');
    SplitRight(y + mo + da, "_", y' + mo' + da', "_");
    SplitRight(y + mo, da, y' + mo', da');
    SplitRight(y, mo, y', mo');
    NatText.NatStrInjective(c.year, d.year);
    NatText.Pad2Injective(c.month, d.month);
    NatText.Pad2Injective(c.day, d.day);
    NatText.Pad2Injective(c.hours, d.hours);
    NatText.Pad2Injective(c.minutes, d.minutes);
    NatText.Pad2Injective(c.seconds, d.seconds);
  }

  lemma SplitRight(a: string, b: string, a': string, b': string)
    requires |b| == |b'| && a + b == a' + b'
    ensures a == a' && b == b'
  {
    assert a == (a + b)[..|a|];
    assert a' == (a' + b')[..|a'|];
    assert b == (a + b)[|a|..];
    assert b' == (a' + b')[|a'|..];
  }
}
