/** The markdown-to-schematic editor extension (easyeda-extension/main.js):
  * it lays the parsed PCB components out on a fixed grid, places each one
  * whose library part the editor finds, and draws every connection whose
  * two components were placed. The editor is outside the model: its
  * library lookup, placement and pin lookup are function parameters, and
  * what the extension asked it for is kept in sequences on the converter. */
module SchematicLayout {
  import opened Wrappers
  import opened Strings
  import opened Seqs
  import PcbParser
  import CompilerMvp

  type Point = CompilerMvp.Point

  // ---------------------------------------------------------------------
  // The parsed PCB data as the extension reads it
  // ---------------------------------------------------------------------

  datatype LayoutPart = LayoutPart(kind: Option<string>, name: Option<string>, model: Option<string>)

  datatype Link = Link(from: PcbParser.Endpoint, to: PcbParser.Endpoint, signal: Option<string>)

  datatype PcbData = PcbData(title: Option<string>, components: seq<LayoutPart>, connections: seq<Link>)

  /** The parser's records as JSON: the MCU is named U1 and the shift
    * register U2, while connections name them by model. */
  function PartOf(c: PcbParser.Component): LayoutPart
  {
    var name := match c
      case IrReceiver(n, _, _, _, _) => n
      case Mosfet(d, _) => Some(d)
      case IrLed(n, _) => n
      case Mcu => Some("U1")
      case ShiftRegister => Some("U2");
    LayoutPart(Some(c.Kind()), name, c.Model())
  }

  function LinkOf(c: PcbParser.Connection): Link
  {
    match c
    case Wire(f, t) => Link(f, t, None)
    case ControlSignal(s, f, t, _) => Link(f, t, s)
  }

  function FromParsed(p: PcbParser.Parsed): PcbData
  {
    PcbData(p.title, seq(|p.components|, i requires 0 <= i < |p.components| => PartOf(p.components[i])),
      seq(|p.connections|, i requires 0 <= i < |p.connections| => LinkOf(p.connections[i])))
  }

  // ---------------------------------------------------------------------
  // The library query and the placement of one component
  // ---------------------------------------------------------------------

  /** An `api.findComponent` query: a part name and a library or a type. */
  datatype Query = Query(name: string, library: Option<string>, kind: Option<string>)

  /** The query placeComponent makes for a component, if its type has one:
    * an MCU is looked up only when it is the Pico. */
  function QueryFor(c: LayoutPart): (q: Option<Query>)
    ensures q.None? <==> !(c.kind in {Some("IR_RECEIVER"), Some("SHIFT_REGISTER"), Some("MOSFET"), Some("IR_LED")} ||
                           (c.kind == Some("MCU") && c.model == Some(PcbParser.Pico)))
  {
    match c.kind
    case Some("MCU") => if c.model == Some(PcbParser.Pico) then Some(Query(PcbParser.Pico, Some("system"), None)) else None
    case Some("IR_RECEIVER") => Some(Query("TSOP4838", Some("system"), None))
    case Some("SHIFT_REGISTER") => Some(Query(PcbParser.ShiftRegisterModel, Some("system"), None))
    case Some("MOSFET") => Some(Query("N-Channel MOSFET", None, Some("MOSFET")))
    case Some("IR_LED") => Some(Query("LED", None, Some("LED")))
    case _ => None
  }

  /** The editor's library lookup. */
  type Find = Query -> Option<string>

  /** What the extension asks the editor to place. */
  datatype PlacementCall = PlacementCall(libraryPart: string, at: Point, designator: Option<string>)

  /** The editor's placement, giving the placed part's id. */
  type Place = PlacementCall -> string

  /** A component and the grid point the layout gives it. */
  datatype Attempt = Attempt(part: LayoutPart, at: Point)

  /** The placement an attempt leads to: only when the type has a query and
    * the library has the part. */
  function CallFor(a: Attempt, find: Find): Option<PlacementCall>
  {
    var q := QueryFor(a.part);
    if q.Some? && find(q.value).Some? then Some(PlacementCall(find(q.value).value, a.at, a.part.name)) else None
  }

  function Calls(attempts: seq<Attempt>, find: Find): seq<PlacementCall>
  {
    if |attempts| == 0 then []
    else
      var c := CallFor(attempts[|attempts| - 1], find);
      Calls(attempts[..|attempts| - 1], find) + (if c.Some? then [c.value] else [])
  }

  /** The component map after the attempts: the placed id under the
    * component's name, a later one replacing an earlier one. */
  function Placed(m: map<Option<string>, string>, attempts: seq<Attempt>, find: Find, place: Place): map<Option<string>, string>
  {
    if |attempts| == 0 then m
    else
      var a := attempts[|attempts| - 1];
      var m' := Placed(m, attempts[..|attempts| - 1], find, place);
      var c := CallFor(a, find);
      if c.Some? then m'[a.part.name := place(c.value)] else m'
  }

  lemma AttemptStep(m: map<Option<string>, string>, attempts: seq<Attempt>, i: nat, find: Find, place: Place)
    requires i < |attempts|
    ensures Calls(attempts[..i + 1], find) == Calls(attempts[..i], find) +
      (if CallFor(attempts[i], find).Some? then [CallFor(attempts[i], find).value] else [])
    ensures Placed(m, attempts[..i + 1], find, place) ==
      if CallFor(attempts[i], find).Some? then Placed(m, attempts[..i], find, place)[attempts[i].part.name := place(CallFor(attempts[i], find).value)]
      else Placed(m, attempts[..i], find, place)
  {
    assert attempts[..i + 1][..i] == attempts[..i];
  }

  lemma {:induction false} CallsAppend(xs: seq<Attempt>, ys: seq<Attempt>, find: Find)
    ensures Calls(xs + ys, find) == Calls(xs, find) + Calls(ys, find)
    decreases |ys|
  {
    if |ys| == 0 {
      assert xs + ys == xs;
    } else {
      var n := |ys| - 1;
      assert (xs + ys)[..|xs + ys| - 1] == xs + ys[..n];
      assert (xs + ys)[|xs + ys| - 1] == ys[n];
      CallsAppend(xs, ys[..n], find);
    }
  }

  lemma {:induction false} PlacedAppend(m: map<Option<string>, string>, xs: seq<Attempt>, ys: seq<Attempt>, find: Find, place: Place)
    ensures Placed(m, xs + ys, find, place) == Placed(Placed(m, xs, find, place), ys, find, place)
    decreases |ys|
  {
    if |ys| == 0 {
      assert xs + ys == xs;
    } else {
      var n := |ys| - 1;
      assert (xs + ys)[..|xs + ys| - 1] == xs + ys[..n];
      assert (xs + ys)[|xs + ys| - 1] == ys[n];
      PlacedAppend(m, xs, ys[..n], find, place);
    }
  }

  /** A name is in the component map afterwards exactly when it was before
    * or some attempt under that name found its library part. */
  lemma {:induction false} PlacedKeys(m: map<Option<string>, string>, attempts: seq<Attempt>, find: Find, place: Place, name: Option<string>)
    ensures name in Placed(m, attempts, find, place) <==>
      name in m || exists k :: 0 <= k < |attempts| && CallFor(attempts[k], find).Some? && attempts[k].part.name == name
  {
    if |attempts| > 0 {
      var n := |attempts| - 1;
      PlacedKeys(m, attempts[..n], find, place, name);
      if exists k :: 0 <= k < n && CallFor(attempts[..n][k], find).Some? && attempts[..n][k].part.name == name {
        var k :| 0 <= k < n && CallFor(attempts[..n][k], find).Some? && attempts[..n][k].part.name == name;
        assert attempts[k] == attempts[..n][k];
      }
      if exists k :: 0 <= k < |attempts| && CallFor(attempts[k], find).Some? && attempts[k].part.name == name {
        var k :| 0 <= k < |attempts| && CallFor(attempts[k], find).Some? && attempts[k].part.name == name;
        if k < n {
          assert attempts[..n][k] == attempts[k];
        }
      }
    }
  }

  // ---------------------------------------------------------------------
  // The grid
  // ---------------------------------------------------------------------

  const GridX := 100
  const GridY := 100
  const SpacingX := 300
  const SpacingY := 150

  /** Where the MOSFET columns start: four spacings right of the grid. */
  const MosfetStartX := GridX + SpacingX * 4

  predicate IsMain(c: LayoutPart) { c.kind == Some("MCU") || c.kind == Some("SHIFT_REGISTER") }
  predicate IsReceiver(c: LayoutPart) { c.kind == Some("IR_RECEIVER") }
  predicate IsMosfet(c: LayoutPart) { c.kind == Some("MOSFET") }
  predicate IsLed(c: LayoutPart) { c.kind == Some("IR_LED") }

  /** Main component k sits at (100 + 600k, 100). */
  function MainSlot(k: nat): Point
  {
    CompilerMvp.Point(GridX + 2 * SpacingX * k, GridY)
  }

  /** IR receiver i sits in column i mod 5 of row i div 5, starting at
    * (100, 400). */
  function ReceiverSlot(i: nat): Point
  {
    CompilerMvp.Point(GridX + SpacingX * (i % 5), GridY + 2 * SpacingY + SpacingY * (i / 5))
  }

  /** MOSFET i sits in column i mod 5 of row i div 5, rows three spacings
    * apart, with the LED of the same index one spacing below it. */
  function MosfetSlot(i: nat, startX: int): Point
  {
    CompilerMvp.Point(startX + SpacingX * (i % 5), GridY + 2 * SpacingY + 3 * SpacingY * (i / 5))
  }

  function LedSlot(i: nat, startX: int): Point
  {
    CompilerMvp.Point(MosfetSlot(i, startX).x, MosfetSlot(i, startX).y + SpacingY)
  }

  function MainAttempts(ms: seq<LayoutPart>): seq<Attempt>
  {
    seq(|ms|, k requires 0 <= k < |ms| => Attempt(ms[k], MainSlot(k)))
  }

  function ReceiverAttempts(rs: seq<LayoutPart>): seq<Attempt>
  {
    seq(|rs|, i requires 0 <= i < |rs| => Attempt(rs[i], ReceiverSlot(i)))
  }

  /** The MOSFET and LED attempts for the first n MOSFETs: MOSFET i, then
    * LED i when there is one. */
  function MosfetAttempts(ms: seq<LayoutPart>, leds: seq<LayoutPart>, n: nat, startX: int): seq<Attempt>
    requires n <= |ms|
  {
    if n == 0 then []
    else MosfetAttempts(ms, leds, n - 1, startX) + PairAttempts(ms, leds, n - 1, startX)
  }

  function PairAttempts(ms: seq<LayoutPart>, leds: seq<LayoutPart>, i: nat, startX: int): seq<Attempt>
    requires i < |ms|
  {
    [Attempt(ms[i], MosfetSlot(i, startX))] + (if i < |leds| then [Attempt(leds[i], LedSlot(i, startX))] else [])
  }

  /** For n MOSFETs there are n MOSFET attempts and one LED attempt for
    * each of them that has an LED. */
  lemma {:induction false} MosfetAttemptsCount(ms: seq<LayoutPart>, leds: seq<LayoutPart>, n: nat, startX: int)
    requires n <= |ms|
    ensures |MosfetAttempts(ms, leds, n, startX)| == n + (if n <= |leds| then n else |leds|)
  {
    if n > 0 {
      MosfetAttemptsCount(ms, leds, n - 1, startX);
    }
  }

  /** MOSFET i is attempted at its slot, and so is LED i when there is one. */
  lemma {:induction false} MosfetAttemptsAt(ms: seq<LayoutPart>, leds: seq<LayoutPart>, n: nat, startX: int, i: nat)
    requires i < n <= |ms|
    ensures Attempt(ms[i], MosfetSlot(i, startX)) in MosfetAttempts(ms, leds, n, startX)
    ensures i < |leds| ==> Attempt(leds[i], LedSlot(i, startX)) in MosfetAttempts(ms, leds, n, startX)
  {
    var a, p := MosfetAttempts(ms, leds, n - 1, startX), PairAttempts(ms, leds, n - 1, startX);
    assert MosfetAttempts(ms, leds, n, startX) == a + p;
    if i < n - 1 {
      MosfetAttemptsAt(ms, leds, n - 1, startX, i);
    } else {
      assert p[0] == Attempt(ms[i], MosfetSlot(i, startX));
      if i < |leds| {
        assert p[1] == Attempt(leds[i], LedSlot(i, startX));
      }
    }
  }

  /** The whole layout: main components, then IR receivers, then MOSFETs
    * with their LEDs. */
  function Layout(cs: seq<LayoutPart>): seq<Attempt>
  {
    var ms := Filter(cs, IsMosfet);
    MainAttempts(Filter(cs, IsMain)) + ReceiverAttempts(Filter(cs, IsReceiver)) +
    MosfetAttempts(ms, Filter(cs, IsLed), |ms|, MosfetStartX)
  }

  /** Every receiver gets its own grid point. */
  lemma ReceiverSlotsDistinct(i: nat, j: nat)
    requires i != j
    ensures ReceiverSlot(i) != ReceiverSlot(j)
  {
    assert i == 5 * (i / 5) + i % 5;
    assert j == 5 * (j / 5) + j % 5;
  }

  /** As laid out, the fifth IR receiver sits on the first MOSFET and the
    * tenth on the first LED: the MOSFET columns start on the last receiver
    * column. */
  lemma ReceiversOverlapMosfets()
    ensures ReceiverSlot(4) == MosfetSlot(0, MosfetStartX)
    ensures ReceiverSlot(9) == LedSlot(0, MosfetStartX)
  {
  }

  /** The evidently intended start, one column right of the receivers. */
  const SeparateMosfetStartX := GridX + SpacingX * 5

  /** With that start no receiver shares a point with a MOSFET or an LED. */
  lemma SeparateColumnsDoNotOverlap(i: nat, j: nat)
    ensures ReceiverSlot(i) != MosfetSlot(j, SeparateMosfetStartX)
    ensures ReceiverSlot(i) != LedSlot(j, SeparateMosfetStartX)
  {
    assert ReceiverSlot(i).x <= GridX + SpacingX * 4;
  }

  // ---------------------------------------------------------------------
  // Connections
  // ---------------------------------------------------------------------

  /** The editor's pin lookup for a placed part. */
  type PinLookup = (string, Option<string>) -> Option<Point>

  /** A wire the extension asks for, named `signal || 'auto'`. */
  datatype WireCall = WireCall(from: Point, to: Point, netName: string)

  /** createConnection: both components must be placed and both pins must
    * resolve. */
  function WireFor(m: map<Option<string>, string>, l: Link, pinAt: PinLookup): Option<WireCall>
  {
    if l.from.component in m && l.to.component in m then
      var fp, tp := pinAt(m[l.from.component], l.from.pin), pinAt(m[l.to.component], l.to.pin);
      if fp.Some? && tp.Some? then Some(WireCall(fp.value, tp.value, OrDefault(l.signal, "auto"))) else None
    else None
  }

  function Wires(m: map<Option<string>, string>, links: seq<Link>, pinAt: PinLookup): seq<WireCall>
  {
    if |links| == 0 then []
    else
      var w := WireFor(m, links[|links| - 1], pinAt);
      Wires(m, links[..|links| - 1], pinAt) + (if w.Some? then [w.value] else [])
  }

  lemma WiresStep(m: map<Option<string>, string>, links: seq<Link>, i: nat, pinAt: PinLookup)
    requires i < |links|
    ensures Wires(m, links[..i + 1], pinAt) == Wires(m, links[..i], pinAt) +
      (if WireFor(m, links[i], pinAt).Some? then [WireFor(m, links[i], pinAt).value] else [])
  {
    assert links[..i + 1][..i] == links[..i];
  }

  /** A link is wired exactly when both of its components are placed and
    * both pins resolve; at most one wire per link. */
  lemma WireForIff(m: map<Option<string>, string>, l: Link, pinAt: PinLookup)
    ensures WireFor(m, l, pinAt).Some? <==>
      (l.from.component in m && l.to.component in m &&
       pinAt(m[l.from.component], l.from.pin).Some? && pinAt(m[l.to.component], l.to.pin).Some?)
  {
  }

  lemma {:induction false} WiresBound(m: map<Option<string>, string>, links: seq<Link>, pinAt: PinLookup)
    ensures |Wires(m, links, pinAt)| <= |links|
  {
    if |links| > 0 {
      WiresBound(m, links[..|links| - 1], pinAt);
    }
  }

  /** Links that name a component no part is named after draw nothing.
    * The parser links the Pico and the 74HC595 by model while naming them
    * U1 and U2, so none of their links is drawn. */
  lemma {:induction false} UnnamedLinksDrawNothing(cs: seq<LayoutPart>, links: seq<Link>, find: Find, place: Place, pinAt: PinLookup)
    requires forall k :: 0 <= k < |links| ==>
      (forall c :: c in cs ==> c.name != links[k].from.component) ||
      (forall c :: c in cs ==> c.name != links[k].to.component)
    ensures Wires(Placed(map[], Layout(cs), find, place), links, pinAt) == []
  {
    if |links| > 0 {
      var n := |links| - 1;
      var m := Placed(map[], Layout(cs), find, place);
      assert forall k :: 0 <= k < n ==> links[..n][k] == links[k];
      UnnamedLinksDrawNothing(cs, links[..n], find, place, pinAt);
      var l := links[n];
      LayoutFromParts(cs);
      PlacedKeys(map[], Layout(cs), find, place, l.from.component);
      PlacedKeys(map[], Layout(cs), find, place, l.to.component);
    }
  }

  /** Every laid-out part is one of the components. */
  lemma LayoutFromParts(cs: seq<LayoutPart>)
    ensures forall k :: 0 <= k < |Layout(cs)| ==> Layout(cs)[k].part in cs
  {
    var main, recv, ms, leds := Filter(cs, IsMain), Filter(cs, IsReceiver), Filter(cs, IsMosfet), Filter(cs, IsLed);
    FilterSpec(cs, IsMain);
    FilterSpec(cs, IsReceiver);
    FilterSpec(cs, IsMosfet);
    FilterSpec(cs, IsLed);
    MosfetAttemptsFrom(ms, leds, |ms|, MosfetStartX);
    var a, b, c := MainAttempts(main), ReceiverAttempts(recv), MosfetAttempts(ms, leds, |ms|, MosfetStartX);
    forall k | 0 <= k < |a + b + c|
      ensures (a + b + c)[k].part in cs
    {
      if k < |a| {
        assert (a + b + c)[k] == a[k] && a[k].part == main[k];
      } else if k < |a| + |b| {
        assert (a + b + c)[k] == b[k - |a|] && b[k - |a|].part == recv[k - |a|];
      } else {
        assert (a + b + c)[k] == c[k - |a| - |b|];
      }
    }
  }

  lemma {:induction false} MosfetAttemptsFrom(ms: seq<LayoutPart>, leds: seq<LayoutPart>, n: nat, startX: int)
    requires n <= |ms|
    ensures forall k :: 0 <= k < |MosfetAttempts(ms, leds, n, startX)| ==>
      MosfetAttempts(ms, leds, n, startX)[k].part in ms || MosfetAttempts(ms, leds, n, startX)[k].part in leds
  {
    if n > 0 {
      MosfetAttemptsFrom(ms, leds, n - 1, startX);
      var p := PairAttempts(ms, leds, n - 1, startX);
      assert p[0].part == ms[n - 1];
      assert |p| == 2 ==> p[1].part == leds[n - 1];
    }
  }

  /** A link between two components whose library parts were found is
    * wired whenever the editor resolves both pins. */
  lemma FoundEndpointsAreWired(cs: seq<LayoutPart>, l: Link, find: Find, place: Place, pinAt: PinLookup)
    requires exists k :: 0 <= k < |Layout(cs)| && CallFor(Layout(cs)[k], find).Some? && Layout(cs)[k].part.name == l.from.component
    requires exists k :: 0 <= k < |Layout(cs)| && CallFor(Layout(cs)[k], find).Some? && Layout(cs)[k].part.name == l.to.component
    requires forall id :: pinAt(id, l.from.pin).Some? && pinAt(id, l.to.pin).Some?
    ensures WireFor(Placed(map[], Layout(cs), find, place), l, pinAt).Some?
  {
    PlacedKeys(map[], Layout(cs), find, place, l.from.component);
    PlacedKeys(map[], Layout(cs), find, place, l.to.component);
  }

  /** The parser's records with the MCU and shift register named after
    * their models, the names the parser's connections use. */
  function PartByModel(c: PcbParser.Component): LayoutPart
  {
    if c.Mcu? || c.ShiftRegister? then LayoutPart(Some(c.Kind()), c.Model(), c.Model()) else PartOf(c)
  }

  /** Named that way, the MCU and shift register carry the names the
    * parser's links use, so FoundEndpointsAreWired applies to them. */
  lemma ModelNamesMatchLinks()
    ensures PartByModel(PcbParser.Mcu).name == Some(PcbParser.Pico)
    ensures PartByModel(PcbParser.ShiftRegister).name == Some(PcbParser.ShiftRegisterModel)
    ensures IsMain(PartByModel(PcbParser.Mcu)) && IsMain(PartByModel(PcbParser.ShiftRegister))
  {
  }

  /** The parser's MCU and shift register are named U1 and U2, not after
    * their models. */
  lemma ParsedMainPartsNamedByDesignator()
    ensures PartOf(PcbParser.Mcu).name == Some("U1") != Some(PcbParser.Pico)
    ensures PartOf(PcbParser.ShiftRegister).name == Some("U2") != Some(PcbParser.ShiftRegisterModel)
  {
  }

  // ---------------------------------------------------------------------
  // The converter
  // ---------------------------------------------------------------------

  const LoadFirst := "Please load PCB data first"
  const Generated := "Schematic generated successfully!"
  const DefaultTitle := "PCB Schematic"

  /** MDToSchematicConverter: the loaded data, the name-to-id map, and the
    * documents, placements and wires it asked the editor for. */
  class Converter {
    var pcbData: Option<PcbData>
    var componentMap: map<Option<string>, string>
    var documents: seq<string>
    var placements: seq<PlacementCall>
    var wires: seq<WireCall>

    constructor()
      ensures pcbData == None && componentMap == map[]
      ensures documents == [] && placements == [] && wires == []
    {
      pcbData, componentMap := None, map[];
      documents, placements, wires := [], [], [];
    }

    /** loadPCBData: a picked file is parsed and loaded; no pick changes
      * nothing. */
    method LoadPcbData(picked: Option<string>, parse: string -> PcbData) returns (loaded: bool)
      modifies this`pcbData
      ensures loaded <==> picked.Some?
      ensures loaded ==> pcbData == Some(parse(picked.value))
      ensures !loaded ==> pcbData == old(pcbData)
    {
      if picked.Some? {
        pcbData := Some(parse(picked.value));
        return true;
      }
      return false;
    }

    /** placeComponent: one placement when the library has the part. */
    method PlaceComponent(c: LayoutPart, at: Point, find: Find, place: Place)
      modifies this`componentMap, this`placements
      ensures var call := CallFor(Attempt(c, at), find);
        placements == old(placements) + (if call.Some? then [call.value] else []) &&
        componentMap == if call.Some? then old(componentMap)[c.name := place(call.value)] else old(componentMap)
    {
      var q := QueryFor(c);
      var libraryPart := if q.Some? then find(q.value) else None;
      if libraryPart.Some? {
        var call := PlacementCall(libraryPart.value, at, c.name);
        placements := placements + [call];
        componentMap := componentMap[c.name := place(call)];
      }
    }

    /** The main components, two spacings apart on the top row. */
    method PlaceMain(ms: seq<LayoutPart>, find: Find, place: Place)
      modifies this`componentMap, this`placements
      ensures placements == old(placements) + Calls(MainAttempts(ms), find)
      ensures componentMap == Placed(old(componentMap), MainAttempts(ms), find, place)
    {
      var attempts := MainAttempts(ms);
      var currentX, currentY := GridX, GridY;
      assert attempts[..0] == [];
      for k := 0 to |ms|
        invariant currentX == GridX + 2 * SpacingX * k && currentY == GridY
        invariant placements == old(placements) + Calls(attempts[..k], find)
        invariant componentMap == Placed(old(componentMap), attempts[..k], find, place)
      {
        AttemptStep(old(componentMap), attempts, k, find, place);
        assert attempts[k] == Attempt(ms[k], CompilerMvp.Point(currentX, currentY));
        PlaceComponent(ms[k], CompilerMvp.Point(currentX, currentY), find, place);
        currentX := currentX + SpacingX * 2;
      }
      assert attempts[..|ms|] == attempts;
    }

    /** The IR receivers, five to a row. */
    method PlaceReceivers(rs: seq<LayoutPart>, find: Find, place: Place)
      modifies this`componentMap, this`placements
      ensures placements == old(placements) + Calls(ReceiverAttempts(rs), find)
      ensures componentMap == Placed(old(componentMap), ReceiverAttempts(rs), find, place)
    {
      var attempts := ReceiverAttempts(rs);
      var currentX, currentY := GridX, GridY + SpacingY * 2;
      var column := 0;
      ghost var row := 0;
      assert attempts[..0] == [];
      for i := 0 to |rs|
        invariant currentX == GridX
        invariant column == i % 5 && row == i / 5 && currentY == GridY + 2 * SpacingY + SpacingY * row
        invariant placements == old(placements) + Calls(attempts[..i], find)
        invariant componentMap == Placed(old(componentMap), attempts[..i], find, place)
      {
        AttemptStep(old(componentMap), attempts, i, find, place);
        assert attempts[i] == Attempt(rs[i], CompilerMvp.Point(currentX + column * SpacingX, currentY));
        PlaceComponent(rs[i], CompilerMvp.Point(currentX + column * SpacingX, currentY), find, place);
        ColumnStep(i);
        column := column + 1;
        if column >= 5 {
          column := 0;
          row := row + 1;
          currentY := currentY + SpacingY;
        }
      }
      assert attempts[..|rs|] == attempts;
    }

    /** The MOSFETs, five to a row, each with the LED of the same index
      * below it. */
    method PlaceMosfets(ms: seq<LayoutPart>, leds: seq<LayoutPart>, find: Find, place: Place)
      modifies this`componentMap, this`placements
      ensures placements == old(placements) + Calls(MosfetAttempts(ms, leds, |ms|, MosfetStartX), find)
      ensures componentMap == Placed(old(componentMap), MosfetAttempts(ms, leds, |ms|, MosfetStartX), find, place)
    {
      var currentX, currentY := GridX + SpacingX * 4, GridY + SpacingY * 2;
      var column := 0;
      ghost var row := 0;
      for i := 0 to |ms|
        invariant currentX == MosfetStartX
        invariant column == i % 5 && row == i / 5 && currentY == GridY + 2 * SpacingY + 3 * SpacingY * row
        invariant placements == old(placements) + Calls(MosfetAttempts(ms, leds, i, MosfetStartX), find)
        invariant componentMap == Placed(old(componentMap), MosfetAttempts(ms, leds, i, MosfetStartX), find, place)
      {
        assert CompilerMvp.Point(currentX + column * SpacingX, currentY) == MosfetSlot(i, MosfetStartX);
        PlacePair(ms, leds, i, currentX + column * SpacingX, currentY, find, place);
        MosfetAttemptsStep(old(placements), old(componentMap), ms, leds, i, find, place);
        ColumnStep(i);
        column := column + 1;
        if column >= 5 {
          column := 0;
          row := row + 1;
          currentY := currentY + SpacingY * 3;
        }
      }
    }

    /** One MOSFET and, when there is one, the LED of the same index. */
    method PlacePair(ms: seq<LayoutPart>, leds: seq<LayoutPart>, i: nat, x: int, y: int, find: Find, place: Place)
      requires i < |ms| && CompilerMvp.Point(x, y) == MosfetSlot(i, MosfetStartX)
      modifies this`componentMap, this`placements
      ensures placements == old(placements) + Calls(PairAttempts(ms, leds, i, MosfetStartX), find)
      ensures componentMap == Placed(old(componentMap), PairAttempts(ms, leds, i, MosfetStartX), find, place)
    {
      ghost var before, map0 := placements, componentMap;
      PlaceComponent(ms[i], CompilerMvp.Point(x, y), find, place);
      if i < |leds| {
        PlaceComponent(leds[i], CompilerMvp.Point(x, y + SpacingY), find, place);
      }
      PairPlaced(before, map0, placements, componentMap, ms, leds, i, find, place);
    }

    /** The three layout stages, in order. */
    method PlaceAll(cs: seq<LayoutPart>, find: Find, place: Place)
      modifies this`componentMap, this`placements
      ensures placements == old(placements) + Calls(Layout(cs), find)
      ensures componentMap == Placed(old(componentMap), Layout(cs), find, place)
    {
      var main, recv, ms, leds := Filter(cs, IsMain), Filter(cs, IsReceiver), Filter(cs, IsMosfet), Filter(cs, IsLed);
      ghost var calls0, map0 := placements, componentMap;
      PlaceMain(main, find, place);
      PlaceReceivers(recv, find, place);
      PlaceMosfets(ms, leds, find, place);
      LayoutPlaced(calls0, map0, cs, find, place);
    }

    /** createConnection over every link, in order. */
    method CreateConnections(links: seq<Link>, pinAt: PinLookup)
      modifies this`wires
      ensures wires == old(wires) + Wires(componentMap, links, pinAt)
    {
      assert links[..0] == [];
      for i := 0 to |links|
        invariant wires == old(wires) + Wires(componentMap, links[..i], pinAt)
      {
        WiresStep(componentMap, links, i, pinAt);
        var w := WireFor(componentMap, links[i], pinAt);
        if w.Some? {
          wires := wires + [w.value];
        }
      }
      assert links[..|links|] == links;
    }

    /** generateSchematic: without data only the message; otherwise a new
      * document, the whole layout and every wire. */
    method GenerateSchematic(find: Find, place: Place, pinAt: PinLookup) returns (message: string)
      modifies this`componentMap, this`placements, this`wires, this`documents
      ensures pcbData.None? ==> message == LoadFirst
      ensures pcbData.None? ==> (componentMap == old(componentMap) && placements == old(placements) &&
                                 wires == old(wires) && documents == old(documents))
      ensures pcbData.Some? ==> message == Generated
      ensures pcbData.Some? ==> documents == old(documents) + [OrDefault(pcbData.value.title, DefaultTitle)]
      ensures pcbData.Some? ==> placements == old(placements) + Calls(Layout(pcbData.value.components), find)
      ensures pcbData.Some? ==> componentMap == Placed(old(componentMap), Layout(pcbData.value.components), find, place)
      ensures pcbData.Some? ==> wires == old(wires) + Wires(componentMap, pcbData.value.connections, pinAt)
    {
      if pcbData.None? {
        return LoadFirst;
      }
      var data := pcbData.value;
      documents := documents + [OrDefault(data.title, DefaultTitle)];
      var cs := data.components;
      PlaceAll(cs, find, place);
      CreateConnections(data.connections, pinAt);
      message := Generated;
    }
  }

  /** The three layout stages together are the whole layout. */
  lemma LayoutPlaced(calls0: seq<PlacementCall>, m0: map<Option<string>, string>, cs: seq<LayoutPart>, find: Find, place: Place)
    ensures var a, b, c := MainAttempts(Filter(cs, IsMain)), ReceiverAttempts(Filter(cs, IsReceiver)),
        MosfetAttempts(Filter(cs, IsMosfet), Filter(cs, IsLed), |Filter(cs, IsMosfet)|, MosfetStartX);
      calls0 + Calls(a, find) + Calls(b, find) + Calls(c, find) == calls0 + Calls(Layout(cs), find) &&
      Placed(Placed(Placed(m0, a, find, place), b, find, place), c, find, place) == Placed(m0, Layout(cs), find, place)
  {
    var a, b, c := MainAttempts(Filter(cs, IsMain)), ReceiverAttempts(Filter(cs, IsReceiver)),
      MosfetAttempts(Filter(cs, IsMosfet), Filter(cs, IsLed), |Filter(cs, IsMosfet)|, MosfetStartX);
    CallsAppend(a, b, find);
    CallsAppend(a + b, c, find);
    PlacedAppend(m0, a, b, find, place);
    PlacedAppend(m0, a + b, c, find, place);
  }

  /** `column` and the row after one more component: the column wraps
    * after five. */
  lemma ColumnStep(i: nat)
    ensures i % 5 + 1 >= 5 ==> (i + 1) % 5 == 0 && (i + 1) / 5 == i / 5 + 1
    ensures i % 5 + 1 < 5 ==> (i + 1) % 5 == i % 5 + 1 && (i + 1) / 5 == i / 5
  {
  }

  /** The two placements of one MOSFET step are that step's attempts. */
  lemma PairPlaced(before: seq<PlacementCall>, m0: map<Option<string>, string>, after: seq<PlacementCall>,
                   m1: map<Option<string>, string>, ms: seq<LayoutPart>, leds: seq<LayoutPart>, i: nat, find: Find, place: Place)
    requires i < |ms|
    requires var c := CallFor(Attempt(ms[i], MosfetSlot(i, MosfetStartX)), find);
      var mid := before + (if c.Some? then [c.value] else []);
      var midMap := if c.Some? then m0[ms[i].name := place(c.value)] else m0;
      if i < |leds| then
        var d := CallFor(Attempt(leds[i], LedSlot(i, MosfetStartX)), find);
        after == mid + (if d.Some? then [d.value] else []) &&
        m1 == if d.Some? then midMap[leds[i].name := place(d.value)] else midMap
      else after == mid && m1 == midMap
    ensures after == before + Calls(PairAttempts(ms, leds, i, MosfetStartX), find)
    ensures m1 == Placed(m0, PairAttempts(ms, leds, i, MosfetStartX), find, place)
  {
    var p := PairAttempts(ms, leds, i, MosfetStartX);
    assert p[..0] == [];
    AttemptStep(m0, p, 0, find, place);
    if i < |leds| {
      AttemptStep(m0, p, 1, find, place);
      assert p[..2] == p;
    } else {
      assert p[..1] == p;
    }
  }

  lemma MosfetAttemptsStep(calls0: seq<PlacementCall>, m0: map<Option<string>, string>, ms: seq<LayoutPart>, leds: seq<LayoutPart>,
                           i: nat, find: Find, place: Place)
    requires i < |ms|
    ensures calls0 + Calls(MosfetAttempts(ms, leds, i + 1, MosfetStartX), find) ==
      calls0 + Calls(MosfetAttempts(ms, leds, i, MosfetStartX), find) + Calls(PairAttempts(ms, leds, i, MosfetStartX), find)
    ensures Placed(m0, MosfetAttempts(ms, leds, i + 1, MosfetStartX), find, place) ==
      Placed(Placed(m0, MosfetAttempts(ms, leds, i, MosfetStartX), find, place), PairAttempts(ms, leds, i, MosfetStartX), find, place)
  {
    var a, p := MosfetAttempts(ms, leds, i, MosfetStartX), PairAttempts(ms, leds, i, MosfetStartX);
    CallsAppend(a, p, find);
    PlacedAppend(m0, a, p, find, place);
  }
}
