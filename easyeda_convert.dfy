/** The EasyEDA format converter (ai-easyeda-compiler/convert-to-easyeda.js):
  * the Standard shape list with its running `gge` identifiers, the
  * Professional shape list, and the line-per-shape text export. The input
  * is the schematic the MVP compiler writes, read back from JSON. */
module EasyedaConvert {
  import opened Wrappers
  import opened Strings
  import opened Seqs
  import NatText
  import CompilerMvp

  type Point = CompilerMvp.Point

  /** A component as toStandard reads it; a missing position makes the
    * source throw, so the position is always there. */
  datatype InComponent = InComponent(kind: Option<string>, uuid: Option<string>, designator: Option<string>,
    value: Option<string>, package: Option<string>, position: Point, rotation: Option<int>)

  datatype InNet = InNet(name: Option<string>, color: Option<string>, connections: Option<seq<string>>)

  datatype PowerSymbol = PowerSymbol(kind: Option<string>, position: Point)

  datatype Label = Label(text: Option<string>, position: Point, size: Option<int>)

  /** The AI schematic: every list may be missing. */
  datatype AiSchematic = AiSchematic(title: Option<string>, description: Option<string>,
    components: Option<seq<InComponent>>, nets: Option<seq<InNet>>,
    powerSymbols: Option<seq<PowerSymbol>>, labels: Option<seq<Label>>)


  // ---------------------------------------------------------------------
  // Standard shapes
  // ---------------------------------------------------------------------

  /** A shape without its identifier; `c_origin` is kept as the point it
    * prints, and a text's height as the number it prints. */
  datatype ShapeBody =
    | Lib(origin: Point, rotation: string, designator: Option<string>, value: Option<string>, package: string)
    | Text(origin: Point, text: Option<string>, height: int)
    | Wire(color: string)
    | PowerFlag(origin: Point, flagType: string)

  datatype Shape = Shape(gId: string, body: ShapeBody)

  function GgeId(n: nat): string { "gge" + NatText.NatStr(n) }

  /** The shapes with identifiers gge1, gge2, … in order. */
  function Numbered(bodies: seq<ShapeBody>): (r: seq<Shape>)
    ensures |r| == |bodies|
    ensures forall i :: 0 <= i < |r| ==> r[i] == Shape(GgeId(i + 1), bodies[i])
  {
    seq(|bodies|, i requires 0 <= i < |bodies| => Shape(GgeId(i + 1), bodies[i]))
  }

  /** No two shapes share an identifier. */
  lemma NumberedDistinct(bodies: seq<ShapeBody>, i: nat, j: nat)
    requires i < j < |bodies|
    ensures Numbered(bodies)[i].gId != Numbered(bodies)[j].gId
  {
    if GgeId(i + 1) == GgeId(j + 1) {
      NatText.PrefixedInjective("gge", i + 1, j + 1);
    }
  }

  predicate IsPart(c: InComponent) { c.kind != Some("Note") }

  /** createLibShape: `comp.rotation || "0"` and `comp.package || ""`. */
  function LibBody(c: InComponent): ShapeBody
  {
    Lib(c.position, if c.rotation.Some? && c.rotation.value != 0 then NatText.IntStr(c.rotation.value) else "0",
      c.designator, c.value, OrDefault(c.package, ""))
  }

  /** A component's three shapes: its symbol, its designator 20 left of
    * and 30 above its origin, its value 20 left of and 40 below it. */
  function PartBodies(c: InComponent): seq<ShapeBody>
  {
    [LibBody(c), Text(CompilerMvp.Point(c.position.x - 20, c.position.y - 30), c.designator, 10),
     Text(CompilerMvp.Point(c.position.x - 20, c.position.y + 40), c.value, 10)]
  }

  function ComponentBodies(cs: seq<InComponent>): seq<ShapeBody>
  {
    if |cs| == 0 then [] else
      ComponentBodies(cs[..|cs| - 1]) + (if IsPart(cs[|cs| - 1]) then PartBodies(cs[|cs| - 1]) else [])
  }

  predicate HasWire(n: InNet) { n.connections.Some? && |n.connections.value| > 1 }

  /** createWire: a net with at least two connections gets one wire. */
  function NetBodies(ns: seq<InNet>): seq<ShapeBody>
  {
    if |ns| == 0 then [] else
      NetBodies(ns[..|ns| - 1]) + (if HasWire(ns[|ns| - 1]) then [Wire(OrDefault(ns[|ns| - 1].color, "#008000"))] else [])
  }

  /** createPowerFlag: a GND flag for type GND, a VCC flag for anything else. */
  function FlagBody(p: PowerSymbol): (r: ShapeBody)
    ensures r.PowerFlag? && r.origin == p.position
    ensures r.flagType == "GND" <==> p.kind == Some("GND")
    ensures r.flagType == "GND" || r.flagType == "VCC"
  {
    PowerFlag(p.position, if p.kind == Some("GND") then "GND" else "VCC")
  }

  /** `label.size || 12`. */
  function LabelBody(l: Label): ShapeBody
  {
    Text(l.position, l.text, if l.size.Some? && l.size.value != 0 then l.size.value else 12)
  }

  function FlagBodies(ps: seq<PowerSymbol>): (r: seq<ShapeBody>)
    ensures |r| == |ps|
  {
    seq(|ps|, i requires 0 <= i < |ps| => FlagBody(ps[i]))
  }

  function LabelBodies(ls: seq<Label>): (r: seq<ShapeBody>)
    ensures |r| == |ls|
  {
    seq(|ls|, i requires 0 <= i < |ls| => LabelBody(ls[i]))
  }

  /** All shapes, in emission order: components, wires, flags, labels. */
  function StandardBodies(ai: AiSchematic): seq<ShapeBody>
  {
    ComponentBodies(Items(ai.components)) + NetBodies(Items(ai.nets)) +
    FlagBodies(Items(ai.powerSymbols)) + LabelBodies(Items(ai.labels))
  }

  const DefaultTitle := "AI Generated Schematic"

  /** The Standard document; the fixed head and canvas are not modelled. */
  datatype StandardDoc = StandardDoc(title: string, description: string, shapes: seq<Shape>)

  lemma NumberedSnoc(bodies: seq<ShapeBody>, b: ShapeBody)
    ensures Numbered(bodies + [b]) == Numbered(bodies) + [Shape(GgeId(|bodies| + 1), b)]
  {
  }

  /** `schematic.shape.push(create…(…, shapeId++))`. */
  method Push(shapes: seq<Shape>, shapeId: nat, b: ShapeBody, ghost bodies: seq<ShapeBody>)
    returns (shapes': seq<Shape>, shapeId': nat)
    requires shapes == Numbered(bodies) && shapeId == |bodies| + 1
    ensures shapes' == Numbered(bodies + [b]) && shapeId' == |bodies + [b]| + 1
  {
    NumberedSnoc(bodies, b);
    shapes' := shapes + [Shape(GgeId(shapeId), b)];
    shapeId' := shapeId + 1;
  }

  /** toStandard. */
  method ToStandard(ai: AiSchematic) returns (doc: StandardDoc)
    ensures doc.title == OrDefault(ai.title, DefaultTitle) && doc.description == OrDefault(ai.description, "")
    ensures doc.shapes == Numbered(StandardBodies(ai))
  {
    var shapes: seq<Shape> := [];
    var shapeId: nat := 1;
    ghost var parts := ComponentBodies(Items(ai.components));
    ghost var wires := NetBodies(Items(ai.nets));
    ghost var flags := FlagBodies(Items(ai.powerSymbols));
    shapes, shapeId := EmitComponents(shapes, shapeId, [], Items(ai.components));
    assert [] + parts == parts;
    shapes, shapeId := EmitWires(shapes, shapeId, parts, Items(ai.nets));
    shapes, shapeId := EmitFlags(shapes, shapeId, parts + wires, Items(ai.powerSymbols));
    shapes, shapeId := EmitLabels(shapes, shapeId, parts + wires + flags, Items(ai.labels));
    doc := StandardDoc(OrDefault(ai.title, DefaultTitle), OrDefault(ai.description, ""), shapes);
  }

  /** The symbol, designator text and value text of one component. */
  method PushPart(shapes0: seq<Shape>, shapeId0: nat, c: InComponent, ghost bodies: seq<ShapeBody>)
    returns (shapes: seq<Shape>, shapeId: nat)
    requires shapes0 == Numbered(bodies) && shapeId0 == |bodies| + 1
    ensures shapes == Numbered(bodies + PartBodies(c)) && shapeId == |shapes| + 1
  {
    shapes, shapeId := Push(shapes0, shapeId0, LibBody(c), bodies);
    var designator := Text(CompilerMvp.Point(c.position.x - 20, c.position.y - 30), c.designator, 10);
    shapes, shapeId := Push(shapes, shapeId, designator, bodies + [LibBody(c)]);
    var value := Text(CompilerMvp.Point(c.position.x - 20, c.position.y + 40), c.value, 10);
    shapes, shapeId := Push(shapes, shapeId, value, bodies + [LibBody(c)] + [designator]);
    assert bodies + [LibBody(c)] + [designator] + [value] == bodies + PartBodies(c);
  }

  /** The component loop: three shapes for each component that is not a note. */
  method EmitComponents(shapes0: seq<Shape>, shapeId0: nat, ghost done: seq<ShapeBody>, components: seq<InComponent>)
    returns (shapes: seq<Shape>, shapeId: nat)
    requires shapes0 == Numbered(done) && shapeId0 == |done| + 1
    ensures shapes == Numbered(done + ComponentBodies(components)) && shapeId == |shapes| + 1
  {
    shapes, shapeId := shapes0, shapeId0;
    ghost var bodies := done;
    assert components[..0] == [];
    var i := 0;
    while i < |components|
      invariant 0 <= i <= |components|
      invariant bodies == done + ComponentBodies(components[..i])
      invariant shapes == Numbered(bodies) && shapeId == |bodies| + 1
    {
      var c := components[i];
      assert components[..i + 1][..i] == components[..i];
      if c.kind != Some("Note") {
        shapes, shapeId := PushPart(shapes, shapeId, c, bodies);
        bodies := bodies + PartBodies(c);
      }
      i := i + 1;
    }
    assert components[..i] == components;
  }

  /** The net loop: one wire for each net with at least two connections. */
  method EmitWires(shapes0: seq<Shape>, shapeId0: nat, ghost done: seq<ShapeBody>, nets: seq<InNet>)
    returns (shapes: seq<Shape>, shapeId: nat)
    requires shapes0 == Numbered(done) && shapeId0 == |done| + 1
    ensures shapes == Numbered(done + NetBodies(nets)) && shapeId == |shapes| + 1
  {
    shapes, shapeId := shapes0, shapeId0;
    ghost var bodies := done;
    assert nets[..0] == [];
    var j := 0;
    while j < |nets|
      invariant 0 <= j <= |nets|
      invariant bodies == done + NetBodies(nets[..j])
      invariant shapes == Numbered(bodies) && shapeId == |bodies| + 1
    {
      var n := nets[j];
      assert nets[..j + 1][..j] == nets[..j];
      if n.connections.Some? && |n.connections.value| > 1 {
        var wire := Wire(OrDefault(n.color, "#008000"));
        shapes, shapeId := Push(shapes, shapeId, wire, bodies);
        bodies := bodies + [wire];
      }
      j := j + 1;
    }
    assert nets[..j] == nets;
  }

  /** The power-symbol loop. */
  method EmitFlags(shapes0: seq<Shape>, shapeId0: nat, ghost done: seq<ShapeBody>, symbols: seq<PowerSymbol>)
    returns (shapes: seq<Shape>, shapeId: nat)
    requires shapes0 == Numbered(done) && shapeId0 == |done| + 1
    ensures shapes == Numbered(done + FlagBodies(symbols)) && shapeId == |shapes| + 1
  {
    shapes, shapeId := shapes0, shapeId0;
    ghost var bodies := done;
    var k := 0;
    while k < |symbols|
      invariant 0 <= k <= |symbols|
      invariant bodies == done + FlagBodies(symbols[..k])
      invariant shapes == Numbered(bodies) && shapeId == |bodies| + 1
    {
      shapes, shapeId := Push(shapes, shapeId, FlagBody(symbols[k]), bodies);
      bodies := bodies + [FlagBody(symbols[k])];
      assert FlagBodies(symbols[..k + 1]) == FlagBodies(symbols[..k]) + [FlagBody(symbols[k])];
      k := k + 1;
    }
    assert symbols[..k] == symbols;
  }

  /** The label loop. */
  method EmitLabels(shapes0: seq<Shape>, shapeId0: nat, ghost done: seq<ShapeBody>, labels: seq<Label>)
    returns (shapes: seq<Shape>, shapeId: nat)
    requires shapes0 == Numbered(done) && shapeId0 == |done| + 1
    ensures shapes == Numbered(done + LabelBodies(labels)) && shapeId == |shapes| + 1
  {
    shapes, shapeId := shapes0, shapeId0;
    ghost var bodies := done;
    var m := 0;
    while m < |labels|
      invariant 0 <= m <= |labels|
      invariant bodies == done + LabelBodies(labels[..m])
      invariant shapes == Numbered(bodies) && shapeId == |bodies| + 1
    {
      shapes, shapeId := Push(shapes, shapeId, LabelBody(labels[m]), bodies);
      bodies := bodies + [LabelBody(labels[m])];
      assert LabelBodies(labels[..m + 1]) == LabelBodies(labels[..m]) + [LabelBody(labels[m])];
      m := m + 1;
    }
    assert labels[..m] == labels;
  }

  /** Three shapes per component that is not a note. */
  lemma {:induction false} ComponentBodiesCount(cs: seq<InComponent>)
    ensures |ComponentBodies(cs)| == 3 * |Filter(cs, IsPart)|
  {
    if |cs| > 0 {
      var n := |cs| - 1;
      ComponentBodiesCount(cs[..n]);
      FilterSnoc(cs[..n], cs[n], IsPart);
      assert cs == cs[..n] + [cs[n]];
    }
  }

  /** One wire per net with at least two connections. */
  lemma {:induction false} NetBodiesCount(ns: seq<InNet>)
    ensures |NetBodies(ns)| == |Filter(ns, HasWire)|
  {
    if |ns| > 0 {
      var n := |ns| - 1;
      NetBodiesCount(ns[..n]);
      FilterSnoc(ns[..n], ns[n], HasWire);
      assert ns == ns[..n] + [ns[n]];
    }
  }

  /** toStandard's shape count: 3 per component that is not a note, 1 per
    * net with at least two connections, 1 per power symbol, 1 per label. */
  lemma StandardShapeCount(ai: AiSchematic)
    ensures |StandardBodies(ai)| == 3 * |Filter(Items(ai.components), IsPart)| +
      |Filter(Items(ai.nets), HasWire)| + |Items(ai.powerSymbols)| + |Items(ai.labels)|
  {
    ComponentBodiesCount(Items(ai.components));
    NetBodiesCount(Items(ai.nets));
  }

  /** Component shapes come in threes: each symbol is followed by its
    * designator text at (x-20, y-30) and its value text at (x-20, y+40),
    * both 10 high. */
  lemma {:induction false} TextsFollowTheirSymbol(cs: seq<InComponent>, k: nat)
    requires k % 3 == 0 && k < |ComponentBodies(cs)|
    ensures k + 2 < |ComponentBodies(cs)|
    ensures var b := ComponentBodies(cs);
      b[k].Lib? && var o := b[k].origin;
      b[k + 1] == Text(CompilerMvp.Point(o.x - 20, o.y - 30), b[k].designator, 10) &&
      b[k + 2] == Text(CompilerMvp.Point(o.x - 20, o.y + 40), b[k].value, 10)
  {
    var n := |cs| - 1;
    var before := ComponentBodies(cs[..n]);
    ComponentBodiesCount(cs[..n]);
    if k < |before| {
      TextsFollowTheirSymbol(cs[..n], k);
    } else {
      assert IsPart(cs[n]);
      assert ComponentBodies(cs) == before + PartBodies(cs[n]);
      assert k == |before|;
    }
  }

  /** The bodies of a label without a size are 12 high. */
  lemma LabelSizeDefault(l: Label)
    requires l.size.None?
    ensures LabelBody(l).height == 12 && LabelBody(l).origin == l.position
  {
  }

  // ---------------------------------------------------------------------
  // Professional shapes
  // ---------------------------------------------------------------------

  datatype ProShape =
    | ProComponent(id: Option<string>, designator: Option<string>, value: Option<string>, position: Point, rotation: int)
    | ProNet(name: Option<string>, color: Option<string>)

  function ProComponentOf(c: InComponent): ProShape
  {
    ProComponent(c.uuid, c.designator, c.value, c.position, CompilerMvp.OrZero(c.rotation))
  }

  function ProComponents(cs: seq<InComponent>): seq<ProShape>
  {
    if |cs| == 0 then [] else
      ProComponents(cs[..|cs| - 1]) + (if IsPart(cs[|cs| - 1]) then [ProComponentOf(cs[|cs| - 1])] else [])
  }

  function ProNets(ns: seq<InNet>): (r: seq<ProShape>)
    ensures |r| == |ns|
  {
    seq(|ns|, i requires 0 <= i < |ns| => ProNet(ns[i].name, ns[i].color))
  }

  /** toProfessional. */
  method ToProfessional(ai: AiSchematic) returns (shapes: seq<ProShape>)
    ensures shapes == ProComponents(Items(ai.components)) + ProNets(Items(ai.nets))
  {
    shapes := [];
    var components := Items(ai.components);
    var i := 0;
    while i < |components|
      invariant 0 <= i <= |components| && shapes == ProComponents(components[..i])
    {
      assert components[..i + 1][..i] == components[..i];
      if components[i].kind != Some("Note") {
        shapes := shapes + [ProComponentOf(components[i])];
      }
      i := i + 1;
    }
    assert components[..i] == components;
    ghost var parts := shapes;
    var nets := Items(ai.nets);
    var j := 0;
    while j < |nets|
      invariant 0 <= j <= |nets| && shapes == parts + ProNets(nets[..j])
    {
      assert ProNets(nets[..j + 1]) == ProNets(nets[..j]) + [ProNet(nets[j].name, nets[j].color)];
      shapes := shapes + [ProNet(nets[j].name, nets[j].color)];
      j := j + 1;
    }
    assert nets[..j] == nets;
  }

  /** One Professional component per component that is not a note, in
    * order. */
  lemma {:induction false} ProComponentsAreParts(cs: seq<InComponent>)
    ensures ProComponents(cs) == seq(|Filter(cs, IsPart)|, i requires 0 <= i < |Filter(cs, IsPart)| =>
      ProComponentOf(Filter(cs, IsPart)[i]))
  {
    if |cs| > 0 {
      var n := |cs| - 1;
      ProComponentsAreParts(cs[..n]);
      FilterSnoc(cs[..n], cs[n], IsPart);
      assert cs == cs[..n] + [cs[n]];
    }
  }

  /** toProfessional's shape count: one per component that is not a note
    * plus one per net. */
  lemma ProfessionalShapeCount(ai: AiSchematic)
    ensures |ProComponents(Items(ai.components)) + ProNets(Items(ai.nets))| ==
      |Filter(Items(ai.components), IsPart)| + |Items(ai.nets)|
  {
    ProComponentsAreParts(Items(ai.components));
  }

  // ---------------------------------------------------------------------
  // Text export
  // ---------------------------------------------------------------------

  const TextHeader := "{\"head\":{\"docType\":\"1\"," + "\"editorVersion\":\"6.5.30\"," +
    "\"newgId\":true},\"canvas\":" + "\"A4\",\"shape\":["

  /** The export's lines: the header, one line per shape with a comma after
    * all but the last, and the closing `]}`. `stringify` is `JSON.stringify`. */
  function TextLines(shapes: seq<Shape>, stringify: Shape -> string): (r: seq<string>)
    ensures |r| == |shapes| + 2
  {
    [TextHeader] +
    seq(|shapes|, i requires 0 <= i < |shapes| => stringify(shapes[i]) + (if i < |shapes| - 1 then "," else "")) +
    ["]}"]
  }

  /** toEasyEDAText. */
  method ToEasyEDAText(doc: StandardDoc, stringify: Shape -> string) returns (text: string)
    ensures text == Join(TextLines(doc.shapes, stringify), "\n")
  {
    var lines := [TextHeader];
    var shapes := doc.shapes;
    var i := 0;
    while i < |shapes|
      invariant 0 <= i <= |shapes| && |lines| == i + 1 && lines[0] == TextHeader
      invariant forall k :: 0 <= k < i ==> lines[k + 1] == stringify(shapes[k]) + (if k < |shapes| - 1 then "," else "")
    {
      lines := lines + [stringify(shapes[i]) + (if i < |shapes| - 1 then "," else "")];
      i := i + 1;
    }
    lines := lines + ["]}"];
    assert lines == TextLines(shapes, stringify);
    text := Join(lines, "\n");
  }

  /** With one-line JSON per shape, the text has exactly one line per shape
    * plus the header and the closing line, and line i+1 is shape i. */
  lemma TextLineCount(shapes: seq<Shape>, stringify: Shape -> string)
    requires forall i :: 0 <= i < |shapes| ==> '\n' !in stringify(shapes[i])
    ensures Split(Join(TextLines(shapes, stringify), "\n"), '\n') == TextLines(shapes, stringify)
    ensures |Split(Join(TextLines(shapes, stringify), "\n"), '\n')| == |shapes| + 2
  {
    var lines := TextLines(shapes, stringify);
    assert '\n' !in TextHeader;
    forall k | 0 <= k < |lines|
      ensures '\n' !in lines[k]
    {
      if 0 < k <= |shapes| {
        assert lines[k] == stringify(shapes[k - 1]) + (if k - 1 < |shapes| - 1 then "," else "");
      }
    }
    SplitJoin(lines, '\n');
  }

  // ---------------------------------------------------------------------
  // The compiler's output, read back
  // ---------------------------------------------------------------------

  /** The compiler's schematic.json as this converter reads it. The
    * compiler writes its power ports under `power` and has no labels or
    * top-level title, so `power_symbols`, `labels` and `title` read as
    * missing. */
  function FromCompiler(sch: CompilerMvp.Schematic): AiSchematic
  {
    AiSchematic(None, None,
      Some(seq(|sch.components|, i requires 0 <= i < |sch.components| =>
        var c := sch.components[i];
        InComponent(Some(c.kind), Some(c.uuid), c.designator, c.value, c.package, c.position, Some(c.rotation)))),
      Some(seq(|sch.nets|, i requires 0 <= i < |sch.nets| =>
        var n := sch.nets[i];
        InNet(Some(n.name), Some(n.color), Some(n.connections)))),
      None, None)
  }

  /** Converting the compiler's output drops its two power ports: the
    * Standard document holds no power flag and takes the default title. */
  lemma CompilerPowerPortsDropped(sch: CompilerMvp.Schematic)
    ensures |StandardBodies(FromCompiler(sch))| == 3 * |Filter(Items(FromCompiler(sch).components), IsPart)| +
      |Filter(Items(FromCompiler(sch).nets), HasWire)|
    ensures forall b :: b in StandardBodies(FromCompiler(sch)) ==> !b.PowerFlag?
    ensures OrDefault(FromCompiler(sch).title, DefaultTitle) == DefaultTitle
  {
    var ai := FromCompiler(sch);
    StandardShapeCount(ai);
    NoFlagsAmongParts(Items(ai.components));
    NoFlagsAmongWires(Items(ai.nets));
  }

  lemma {:induction false} NoFlagsAmongParts(cs: seq<InComponent>)
    ensures forall b :: b in ComponentBodies(cs) ==> !b.PowerFlag?
  {
    if |cs| > 0 {
      NoFlagsAmongParts(cs[..|cs| - 1]);
    }
  }

  lemma {:induction false} NoFlagsAmongWires(ns: seq<InNet>)
    ensures forall b :: b in NetBodies(ns) ==> !b.PowerFlag?
  {
    if |ns| > 0 {
      NoFlagsAmongWires(ns[..|ns| - 1]);
    }
  }
}
