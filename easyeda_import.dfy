/** The EasyEDA editor extension that imports a compiled schematic
  * (ai-easyeda-compiler/easyeda-extension/main.js). It checks the JSON,
  * places every component through the editor, draws each net between the
  * parts it placed, and builds a grouped BOM and a net check from what the
  * editor reports back. The editor is outside the model: each call into it
  * is a function parameter, and what the extension asked the editor to draw
  * is kept in sequences on the importer. */
module EasyedaImport {
  import opened Wrappers
  import opened Strings
  import opened Seqs
  import NatText
  import CompilerMvp

  type Point = CompilerMvp.Point

  // ---------------------------------------------------------------------
  // The schematic JSON as the extension reads it
  // ---------------------------------------------------------------------

  /** A net endpoint. The extension expects an object with `component` and
    * `pin` fields; any other JSON value, such as the text "U1.8", has both
    * fields undefined. */
  datatype Endpoint = PinRef(component: Option<string>, pin: Option<string>) | Other(text: string)

  function EndpointComponent(e: Endpoint): Option<string>
  {
    if e.PinRef? then e.component else None
  }

  function EndpointPin(e: Endpoint): Option<string>
  {
    if e.PinRef? then e.pin else None
  }

  /** A component entry. A missing position makes every read of its
    * coordinates throw. */
  datatype Part = Part(kind: Option<string>, designator: Option<string>, value: Option<string>,
    position: Option<Point>, rotation: Option<int>, pinCount: Option<nat>)

  datatype Net = Net(name: Option<string>, color: Option<string>, width: Option<int>,
    connections: Option<seq<Endpoint>>)

  datatype PowerSymbol = PowerSymbol(kind: Option<string>, caption: Option<string>, position: Option<Point>,
    net: Option<string>, color: Option<string>)

  /** A label entry; `size` and `bold` default when missing or falsy. */
  datatype LabelEntry = LabelEntry(text: Option<string>, position: Option<Point>, size: Option<int>, bold: Option<bool>)

  /** A top-level note entry. */
  datatype NoteEntry = NoteEntry(text: Option<string>, position: Option<Point>)

  datatype SchematicData = SchematicData(docType: Option<string>, version: Option<string>,
    components: Option<seq<Part>>, nets: Option<seq<Net>>, powerSymbols: Option<seq<PowerSymbol>>,
    labels: Option<seq<LabelEntry>>, notes: Option<seq<NoteEntry>>)

  /** JavaScript truthiness of an optional text. An array is truthy even when
    * empty, so only its presence matters. */
  predicate Truthy(s: Option<string>)
  {
    s.Some? && s.value != ""
  }

  /** validateSchematicJSON: a loaded document whose four required fields
    * are truthy and whose docType is exactly the EasyEDA one. */
  function ValidateSchematicJson(data: Option<SchematicData>): (valid: bool)
    ensures valid <==> (data.Some? && data.value.docType == Some(CompilerMvp.SchematicDocType) &&
                        Truthy(data.value.version) && data.value.components.Some? && data.value.nets.Some?)
  {
    if data.None? then false
    else
      var d := data.value;
      if !Truthy(d.docType) || !Truthy(d.version) || d.components.None? || d.nets.None? then false
      else d.docType == Some(CompilerMvp.SchematicDocType)
  }

  /** The compiler's schematic.json as this extension reads it back. The
    * compiler writes connections as text, and its power ports under
    * `power`, which the extension never reads. */
  function FromCompiler(s: CompilerMvp.Schematic): SchematicData
  {
    SchematicData(Some(s.docType), Some(s.version),
      Some(seq(|s.components|, i requires 0 <= i < |s.components| => PartOf(s.components[i]))),
      Some(seq(|s.nets|, i requires 0 <= i < |s.nets| => NetOf(s.nets[i]))), None, None, None)
  }

  function PartOf(c: CompilerMvp.SchComponent): Part
  {
    Part(Some(c.kind), c.designator, c.value, Some(c.position), Some(c.rotation), None)
  }

  function NetOf(n: CompilerMvp.SchNet): Net
  {
    Net(Some(n.name), Some(n.color), Some(n.width),
      Some(seq(|n.connections|, i requires 0 <= i < |n.connections| => Other(n.connections[i]))))
  }

  /** Whatever design the compiler converts passes the extension's check. */
  lemma CompiledSchematicIsValid(d: CompilerMvp.Design, uuid: nat -> string, date: string)
    ensures ValidateSchematicJson(Some(FromCompiler(CompilerMvp.ConvertToEasyEDA(d, uuid, date))))
  {
    var s := CompilerMvp.ConvertToEasyEDA(d, uuid, date);
    assert s.version == "6.5.30";
    assert Truthy(Some(s.version));
  }

  // ---------------------------------------------------------------------
  // Choosing a library symbol and placing it
  // ---------------------------------------------------------------------

  /** The editor's library search, `results[0]` for a keyword and a type. */
  type Search = (Option<string>, Option<string>) -> Option<string>

  /** The symbol a component is placed with: the library hit, a custom
    * rectangle for a module, or the generic placeholder. The editor is
    * taken to create every symbol it is asked for. */
  datatype Symbol = LibraryPart(id: string) | CustomModule(height: nat) | Placeholder

  /** The library query of placeComponent: the type picks the keyword and
    * the library type; an unknown type searches for its value. */
  function SearchTerms(c: Part): (Option<string>, Option<string>)
  {
    match c.kind
    case Some("Module") => (c.value, Some("Module"))
    case Some("Sensor") => (c.value, Some("IC"))
    case Some("Diode") => (Some("Diode"), Some("Diode"))
    case Some("Resistor") => (Some("Resistor"), Some("Resistor"))
    case Some("Capacitor") => (Some("Capacitor"), Some("Capacitor"))
    case Some("Connector") => (Some("Header"), Some("Connector"))
    case _ => (c.value, c.kind)
  }

  /** The fixed-name types search the library the same way whatever their
    * value. */
  lemma FixedTermsIgnoreValue(c: Part, v: Option<string>)
    requires c.kind in {Some("Diode"), Some("Resistor"), Some("Capacitor"), Some("Connector")}
    ensures SearchTerms(c) == SearchTerms(c.(value := v))
  {
  }

  /** `Math.max(300, pinCount * 20)`. */
  function ModuleHeight(pins: nat): (h: nat)
    ensures h >= 300 && h >= 20 * pins
    ensures h == 300 || h == 20 * pins
  {
    if 20 * pins > 300 then 20 * pins else 300
  }

  function PinCount(c: Part): nat
  {
    if c.pinCount.Some? then c.pinCount.value else 0
  }

  /** The symbol placeComponent settles on. */
  function SymbolFor(c: Part, search: Search): (r: Symbol)
    ensures r.LibraryPart? <==> search(SearchTerms(c).0, SearchTerms(c).1).Some?
    ensures r.CustomModule? <==> c.kind == Some("Module") && search(SearchTerms(c).0, SearchTerms(c).1).None?
    ensures r.Placeholder? <==> c.kind != Some("Module") && search(SearchTerms(c).0, SearchTerms(c).1).None?
    ensures r.CustomModule? ==> r.height >= 300 && r.height >= 20 * PinCount(c)
  {
    var terms := SearchTerms(c);
    match search(terms.0, terms.1)
    case Some(id) => LibraryPart(id)
    case None => if c.kind == Some("Module") then CustomModule(ModuleHeight(PinCount(c))) else Placeholder
  }

  /** What the extension asks the editor to place. */
  datatype Placement = Placement(symbol: Symbol, at: Point, rotation: int, designator: Option<string>,
    value: Option<string>)

  /** The editor's `placeComponent`: the placed part, or `None` when it
    * returns nothing or throws. */
  type Place = Placement -> Option<string>

  /** `n || 0` on an optional number. */
  function OrZero(n: Option<int>): int
  {
    if n.Some? then n.value else 0
  }

  /** What importComponents makes of one component. A component without a
    * position throws when its coordinates are read, and the loop counts it
    * as skipped, a note included. */
  datatype Outcome = Noted | Imported(handle: string) | Skipped

  function OutcomeOf(c: Part, search: Search, place: Place): Outcome
  {
    if c.kind == Some("Note") then (if c.position.Some? then Noted else Skipped)
    else if c.position.None? then Skipped
    else
      match place(Placement(SymbolFor(c, search), c.position.value, OrZero(c.rotation), c.designator, c.value))
      case Some(h) => Imported(h)
      case None => Skipped
  }

  predicate IsPart(c: Part)
  {
    c.kind != Some("Note")
  }

  /** A text the extension asks the editor to write. */
  datatype TextCall = TextCall(text: Option<string>, at: Point, size: nat, color: string)

  const NoteColor := "#999999"

  /** The `imported` and `skipped` counters after a list of components. */
  function Tally(cs: seq<Part>, search: Search, place: Place): (nat, nat)
  {
    if |cs| == 0 then (0, 0)
    else
      var t := Tally(cs[..|cs| - 1], search, place);
      match OutcomeOf(cs[|cs| - 1], search, place)
      case Imported(_) => (t.0 + 1, t.1)
      case Skipped => (t.0, t.1 + 1)
      case Noted => t
  }

  /** The component map after a list of components: each placed part under
    * its designator, a later one replacing an earlier one. */
  function Placed(m: map<Option<string>, string>, cs: seq<Part>, search: Search, place: Place): map<Option<string>, string>
  {
    if |cs| == 0 then m
    else
      var m' := Placed(m, cs[..|cs| - 1], search, place);
      var c := cs[|cs| - 1];
      match OutcomeOf(c, search, place)
      case Imported(h) => m'[c.designator := h]
      case _ => m'
  }

  /** The note texts, one per positioned note, in order. */
  function NotesOf(cs: seq<Part>, search: Search, place: Place): seq<TextCall>
  {
    if |cs| == 0 then []
    else
      var c := cs[|cs| - 1];
      NotesOf(cs[..|cs| - 1], search, place) +
      (if OutcomeOf(c, search, place).Noted? then [TextCall(c.value, c.position.value, 10, NoteColor)] else [])
  }

  lemma TallyStep(cs: seq<Part>, i: nat, search: Search, place: Place)
    requires i < |cs|
    ensures Tally(cs[..i + 1], search, place) ==
      match OutcomeOf(cs[i], search, place)
      case Imported(_) => (Tally(cs[..i], search, place).0 + 1, Tally(cs[..i], search, place).1)
      case Skipped => (Tally(cs[..i], search, place).0, Tally(cs[..i], search, place).1 + 1)
      case Noted => Tally(cs[..i], search, place)
  {
    assert cs[..i + 1][..i] == cs[..i];
  }

  lemma PlacedStep(m: map<Option<string>, string>, cs: seq<Part>, i: nat, search: Search, place: Place)
    requires i < |cs|
    ensures Placed(m, cs[..i + 1], search, place) ==
      match OutcomeOf(cs[i], search, place)
      case Imported(h) => Placed(m, cs[..i], search, place)[cs[i].designator := h]
      case _ => Placed(m, cs[..i], search, place)
    ensures NotesOf(cs[..i + 1], search, place) == NotesOf(cs[..i], search, place) +
      (if OutcomeOf(cs[i], search, place).Noted? then [TextCall(cs[i].value, cs[i].position.value, 10, NoteColor)] else [])
  {
    assert cs[..i + 1][..i] == cs[..i];
  }

  /** Every component is counted once: imported, skipped, or written as a
    * note. */
  lemma {:induction false} EveryComponentAccounted(cs: seq<Part>, search: Search, place: Place)
    ensures Tally(cs, search, place).0 + Tally(cs, search, place).1 + |NotesOf(cs, search, place)| == |cs|
  {
    if |cs| > 0 {
      EveryComponentAccounted(cs[..|cs| - 1], search, place);
    }
  }

  /** When every component has a position, notes are counted as neither
    * imported nor skipped, and every other component as exactly one. */
  lemma {:induction false} PartsAccounted(cs: seq<Part>, search: Search, place: Place)
    requires forall k :: 0 <= k < |cs| ==> cs[k].position.Some?
    ensures Tally(cs, search, place).0 + Tally(cs, search, place).1 == |Filter(cs, IsPart)|
    ensures |NotesOf(cs, search, place)| == |cs| - |Filter(cs, IsPart)|
  {
    if |cs| > 0 {
      var n := |cs| - 1;
      assert cs == cs[..n] + [cs[n]];
      FilterSnoc(cs[..n], cs[n], IsPart);
      PartsAccounted(cs[..n], search, place);
      EveryComponentAccounted(cs[..n], search, place);
    }
  }

  /** A designator is in the component map afterwards exactly when it was
    * before or some component under it was placed. */
  lemma {:induction false} PlacedKeys(m: map<Option<string>, string>, cs: seq<Part>, search: Search, place: Place, d: Option<string>)
    ensures d in Placed(m, cs, search, place) <==>
      d in m || exists k :: 0 <= k < |cs| && OutcomeOf(cs[k], search, place).Imported? && cs[k].designator == d
  {
    if |cs| > 0 {
      var n := |cs| - 1;
      PlacedKeys(m, cs[..n], search, place, d);
      if exists k :: 0 <= k < n && OutcomeOf(cs[..n][k], search, place).Imported? && cs[..n][k].designator == d {
        var k :| 0 <= k < n && OutcomeOf(cs[..n][k], search, place).Imported? && cs[..n][k].designator == d;
        assert cs[k] == cs[..n][k];
      }
      if exists k :: 0 <= k < |cs| && OutcomeOf(cs[k], search, place).Imported? && cs[k].designator == d {
        var k :| 0 <= k < |cs| && OutcomeOf(cs[k], search, place).Imported? && cs[k].designator == d;
        if k < n {
          assert cs[..n][k] == cs[k];
        }
      }
    }
  }

  /** Placing more parts never drops a designator already in the map: after
    * updateSchematic, the parts of the cleared drawing are still found. */
  lemma PlacedKeepsEarlierEntries(m: map<Option<string>, string>, cs: seq<Part>, search: Search, place: Place,
                                  d: Option<string>)
    requires d in m
    ensures d in Placed(m, cs, search, place)
  {
    PlacedKeys(m, cs, search, place, d);
  }


  // ---------------------------------------------------------------------
  // Nets and wires
  // ---------------------------------------------------------------------

  /** What createNet asks the editor for: `color || '#008000'` and
    * `width || 1`. */
  datatype NetRequest = NetRequest(name: Option<string>, color: string, width: int)

  function NetRequestOf(n: Net): NetRequest
  {
    NetRequest(n.name, OrDefault(n.color, "#008000"), if n.width.Some? && n.width.value != 0 then n.width.value else 1)
  }

  /** The editor's `getComponentPin`: a placed part and a pin name to a
    * position, or `None`. */
  type PinLookup = (string, Option<string>) -> Option<Point>

  /** A wire the extension asks the editor to draw. It passes the net's own
    * color and width, without the defaults of the net request. */
  datatype WireCall = WireCall(net: Option<string>, from: Point, to: Point, color: Option<string>, width: Option<int>)

  /** connectComponents: both endpoints' components must be placed and both
    * pins must resolve. */
  function WireFor(m: map<Option<string>, string>, net: Net, from: Endpoint, to: Endpoint, pinAt: PinLookup): Option<WireCall>
  {
    var fc, tc := EndpointComponent(from), EndpointComponent(to);
    if fc !in m || tc !in m then None
    else
      var fp, tp := pinAt(m[fc], EndpointPin(from)), pinAt(m[tc], EndpointPin(to));
      if fp.Some? && tp.Some? then Some(WireCall(net.name, fp.value, tp.value, net.color, net.width)) else None
  }

  function AsSeq<T>(o: Option<T>): seq<T>
  {
    if o.Some? then [o.value] else []
  }

  /** Consecutive pairs of a list: connection i with connection i + 1. */
  function Pairs<T>(xs: seq<T>): (ps: seq<(T, T)>)
    ensures |ps| == if |xs| <= 1 then 0 else |xs| - 1
    ensures forall i :: 0 <= i < |ps| ==> ps[i] == (xs[i], xs[i + 1])
  {
    if |xs| <= 1 then [] else Pairs(xs[..|xs| - 1]) + [(xs[|xs| - 2], xs[|xs| - 1])]
  }

  /** The wires drawn for a list of endpoint pairs. */
  function NetWires(m: map<Option<string>, string>, net: Net, ps: seq<(Endpoint, Endpoint)>, pinAt: PinLookup): seq<WireCall>
  {
    if |ps| == 0 then []
    else NetWires(m, net, ps[..|ps| - 1], pinAt) + AsSeq(WireFor(m, net, ps[|ps| - 1].0, ps[|ps| - 1].1, pinAt))
  }

  /** The wires createNet draws for one net. */
  function WiresOf(m: map<Option<string>, string>, net: Net, pinAt: PinLookup): seq<WireCall>
  {
    NetWires(m, net, Pairs(Items(net.connections)), pinAt)
  }

  lemma NetWiresStep(m: map<Option<string>, string>, net: Net, ps: seq<(Endpoint, Endpoint)>, i: nat, pinAt: PinLookup)
    requires i < |ps|
    ensures NetWires(m, net, ps[..i + 1], pinAt) == NetWires(m, net, ps[..i], pinAt) + AsSeq(WireFor(m, net, ps[i].0, ps[i].1, pinAt))
  {
    assert ps[..i + 1][..i] == ps[..i];
  }

  /** At most one wire per pair, so at most k - 1 per net of k connections. */
  lemma {:induction false} NetWiresBound(m: map<Option<string>, string>, net: Net, ps: seq<(Endpoint, Endpoint)>, pinAt: PinLookup)
    ensures |NetWires(m, net, ps, pinAt)| <= |ps|
  {
    if |ps| > 0 {
      NetWiresBound(m, net, ps[..|ps| - 1], pinAt);
    }
  }

  /** A pair is wired when both of its parts are placed and both pins
    * resolve. */
  predicate Wireable(m: map<Option<string>, string>, e: Endpoint, pinAt: PinLookup)
  {
    EndpointComponent(e) in m && pinAt(m[EndpointComponent(e)], EndpointPin(e)).Some?
  }

  /** When every endpoint is wireable, every consecutive pair gets its wire:
    * exactly k - 1 wires for k connections. */
  lemma {:induction false} FullyPlacedNetIsWired(m: map<Option<string>, string>, net: Net, ps: seq<(Endpoint, Endpoint)>, pinAt: PinLookup)
    requires forall i :: 0 <= i < |ps| ==> Wireable(m, ps[i].0, pinAt) && Wireable(m, ps[i].1, pinAt)
    ensures |NetWires(m, net, ps, pinAt)| == |ps|
  {
    if |ps| > 0 {
      var n := |ps| - 1;
      assert forall i :: 0 <= i < n ==> ps[..n][i] == ps[i];
      FullyPlacedNetIsWired(m, net, ps[..n], pinAt);
      assert Wireable(m, ps[n].0, pinAt) && Wireable(m, ps[n].1, pinAt);
    }
  }

  /** Endpoints that are not `{component, pin}` objects look up the
    * undefined designator, so unless some part was placed under no
    * designator, no wire is drawn. */
  lemma {:induction false} TextEndpointsDrawNothing(m: map<Option<string>, string>, net: Net, ps: seq<(Endpoint, Endpoint)>, pinAt: PinLookup)
    requires None !in m
    requires forall i :: 0 <= i < |ps| ==> ps[i].0.Other?
    ensures NetWires(m, net, ps, pinAt) == []
  {
    if |ps| > 0 {
      var n := |ps| - 1;
      assert forall i :: 0 <= i < n ==> ps[..n][i] == ps[i];
      TextEndpointsDrawNothing(m, net, ps[..n], pinAt);
      assert ps[n].0.Other?;
    }
  }

  /** The wires of every net, in order. */
  function AllNetWires(m: map<Option<string>, string>, nets: seq<Net>, pinAt: PinLookup): seq<WireCall>
  {
    if |nets| == 0 then [] else AllNetWires(m, nets[..|nets| - 1], pinAt) + WiresOf(m, nets[|nets| - 1], pinAt)
  }

  /** The editor's `createNet`: the net object, or `None` when the call
    * throws. */
  type CreateNetCall = NetRequest -> Option<string>

  /** The nets whose editor object was created, in order: a net whose
    * `createNet` throws is caught by createNets and is neither recorded nor
    * wired nor counted. */
  function CreatedNets(nets: seq<Net>, create: CreateNetCall): (r: seq<Net>)
    ensures |r| <= |nets|
    ensures forall k :: 0 <= k < |r| ==> r[k] in nets && create(NetRequestOf(r[k])).Some?
    ensures forall n :: n in nets && create(NetRequestOf(n)).Some? ==> n in r
  {
    if |nets| == 0 then []
    else
      var last := nets[|nets| - 1];
      CreatedNets(nets[..|nets| - 1], create) + (if create(NetRequestOf(last)).Some? then [last] else [])
  }

  /** When the editor creates every net, every net is created. */
  lemma {:induction false} CreatedNetsAll(nets: seq<Net>, create: CreateNetCall)
    requires forall k :: 0 <= k < |nets| ==> create(NetRequestOf(nets[k])).Some?
    ensures CreatedNets(nets, create) == nets
  {
    if |nets| > 0 {
      var n := |nets| - 1;
      assert forall k :: 0 <= k < n ==> nets[..n][k] == nets[k];
      CreatedNetsAll(nets[..n], create);
      assert create(NetRequestOf(nets[n])).Some?;
      assert nets[..n] + [nets[n]] == nets;
    }
  }

  /** A net whose `createNet` throws adds nothing: no net, no wire, no
    * count. */
  lemma FailedNetSkipped(nets: seq<Net>, n: Net, create: CreateNetCall)
    requires create(NetRequestOf(n)).None?
    ensures CreatedNets(nets + [n], create) == CreatedNets(nets, create)
  {
    assert (nets + [n])[..|nets|] == nets;
  }

  /** The net map after a list of nets: each created net's editor object
    * under its name, a later net replacing an earlier one; a net whose
    * creation throws leaves the map as it was. */
  function NetsRecorded(m: map<Option<string>, string>, nets: seq<Net>, create: CreateNetCall): map<Option<string>, string>
  {
    if |nets| == 0 then m
    else
      var last := nets[|nets| - 1];
      var before := NetsRecorded(m, nets[..|nets| - 1], create);
      match create(NetRequestOf(last))
      case Some(obj) => before[last.name := obj]
      case None => before
  }

  lemma NetsRecordedStep(m: map<Option<string>, string>, nets: seq<Net>, i: nat, create: CreateNetCall)
    requires i < |nets|
    ensures create(NetRequestOf(nets[i])).Some? ==>
      NetsRecorded(m, nets[..i + 1], create) == NetsRecorded(m, nets[..i], create)[nets[i].name := create(NetRequestOf(nets[i])).value]
    ensures create(NetRequestOf(nets[i])).None? ==> NetsRecorded(m, nets[..i + 1], create) == NetsRecorded(m, nets[..i], create)
    ensures CreatedNets(nets[..i + 1], create) ==
      CreatedNets(nets[..i], create) + (if create(NetRequestOf(nets[i])).Some? then [nets[i]] else [])
  {
    assert nets[..i + 1][..i] == nets[..i];
  }

  lemma AllNetWiresSnoc(m: map<Option<string>, string>, nets: seq<Net>, n: Net, pinAt: PinLookup)
    ensures AllNetWires(m, nets + [n], pinAt) == AllNetWires(m, nets, pinAt) + WiresOf(m, n, pinAt)
  {
    assert (nets + [n])[..|nets|] == nets;
  }

  /** A net whose every connection is text. */
  predicate TextOnly(n: Net)
  {
    forall j :: 0 <= j < |Items(n.connections)| ==> Items(n.connections)[j].Other?
  }

  lemma TextOnlyNetDrawsNothing(m: map<Option<string>, string>, net: Net, pinAt: PinLookup)
    requires None !in m && TextOnly(net)
    ensures WiresOf(m, net, pinAt) == []
  {
    var xs := Items(net.connections);
    var ps := Pairs(xs);
    forall i | 0 <= i < |ps|
      ensures ps[i].0.Other?
    {
      assert ps[i] == (xs[i], xs[i + 1]);
    }
    TextEndpointsDrawNothing(m, net, ps, pinAt);
  }

  lemma {:induction false} TextOnlyNetsDrawNothing(m: map<Option<string>, string>, nets: seq<Net>, pinAt: PinLookup)
    requires None !in m
    requires forall i :: 0 <= i < |nets| ==> TextOnly(nets[i])
    ensures AllNetWires(m, nets, pinAt) == []
  {
    if |nets| > 0 {
      var n := |nets| - 1;
      assert forall i :: 0 <= i < n ==> nets[..n][i] == nets[i];
      TextOnlyNetsDrawNothing(m, nets[..n], pinAt);
      assert TextOnly(nets[n]);
      TextOnlyNetDrawsNothing(m, nets[n], pinAt);
      assert AllNetWires(m, nets, pinAt) == AllNetWires(m, nets[..n], pinAt) + WiresOf(m, nets[n], pinAt);
    }
  }

  /** Read back from the compiler's output, no net draws a wire, because
    * every connection is text: the two files disagree on the connection
    * format. */
  lemma CompiledNetsDrawNoWire(m: map<Option<string>, string>, s: CompilerMvp.Schematic, create: CreateNetCall, pinAt: PinLookup)
    requires None !in m
    ensures AllNetWires(m, CreatedNets(Items(FromCompiler(s).nets), create), pinAt) == []
  {
    var nets := Items(FromCompiler(s).nets);
    var created := CreatedNets(nets, create);
    forall i | 0 <= i < |created|
      ensures TextOnly(created[i])
    {
      var j :| 0 <= j < |nets| && nets[j] == created[i];
      assert nets[j] == NetOf(s.nets[j]);
    }
    TextOnlyNetsDrawNothing(m, created, pinAt);
  }

  /** The evidently intended reading of a compiler connection: the text
    * before the first '.' is the designator and the rest is the pin. */
  function ReadEndpoint(s: string): (e: Endpoint)
    ensures '.' in s ==> e.PinRef? && e.component.Some? && '.' !in e.component.value
    ensures '.' !in s ==> e == Other(s)
  {
    if '.' in s then
      var i := FirstIndexOfChar(s, '.');
      PinRef(Some(s[..i]), Some(s[i + 1..]))
    else Other(s)
  }

  /** Reading "designator.pin" recovers both halves. */
  lemma ReadEndpointOfPin(d: string, p: string)
    requires '.' !in d
    ensures ReadEndpoint(d + "." + p) == PinRef(Some(d), Some(p))
  {
    var s := d + "." + p;
    FirstIndexOfCharAt(s, '.', |d|);
    assert s[..|d|] == d && s[|d| + 1..] == p;
  }

  /** With that reading, two consecutive compiler connections between placed
    * parts whose pins resolve do get their wire. */
  lemma ReadConnectionsAreWired(m: map<Option<string>, string>, net: Net, d1: string, p1: string, d2: string, p2: string, pinAt: PinLookup)
    requires '.' !in d1 && '.' !in d2
    requires Some(d1) in m && Some(d2) in m
    requires pinAt(m[Some(d1)], Some(p1)).Some? && pinAt(m[Some(d2)], Some(p2)).Some?
    ensures WireFor(m, net, ReadEndpoint(d1 + "." + p1), ReadEndpoint(d2 + "." + p2), pinAt).Some?
  {
    ReadEndpointOfPin(d1, p1);
    ReadEndpointOfPin(d2, p2);
  }

  // ---------------------------------------------------------------------
  // Power symbols
  // ---------------------------------------------------------------------

  datatype PowerCall = PowerCall(kind: string, caption: Option<string>, at: Point, net: Option<string>, color: Option<string>)

  /** addPowerSymbol: the ground symbol exactly for type GND. */
  function PowerSymbolKind(kind: Option<string>): (t: string)
    ensures t == "ground" <==> kind == Some("GND")
    ensures t == "power" <==> kind != Some("GND")
  {
    if kind == Some("GND") then "ground" else "power"
  }

  /** The power symbols placed; a symbol without a position throws and is
    * passed over. */
  function PowerCalls(ps: seq<PowerSymbol>): seq<PowerCall>
  {
    if |ps| == 0 then []
    else
      var p := ps[|ps| - 1];
      PowerCalls(ps[..|ps| - 1]) +
      (if p.position.Some? then [PowerCall(PowerSymbolKind(p.kind), p.caption, p.position.value, p.net, p.color)] else [])
  }

  lemma PowerCallsStep(ps: seq<PowerSymbol>, i: nat)
    requires i < |ps|
    ensures PowerCalls(ps[..i + 1]) == PowerCalls(ps[..i]) +
      (if ps[i].position.Some? then [PowerCall(PowerSymbolKind(ps[i].kind), ps[i].caption, ps[i].position.value, ps[i].net, ps[i].color)] else [])
  {
    assert ps[..i + 1][..i] == ps[..i];
  }

  /** Every positioned symbol is placed, ground exactly for GND: symbol i of
    * a fully positioned list is call i. */
  lemma {:induction false} PowerCallsSpec(ps: seq<PowerSymbol>)
    requires forall k :: 0 <= k < |ps| ==> ps[k].position.Some?
    ensures |PowerCalls(ps)| == |ps|
    ensures forall k :: 0 <= k < |ps| ==> (PowerCalls(ps)[k].kind == "ground" <==> ps[k].kind == Some("GND"))
  {
    if |ps| > 0 {
      var n := |ps| - 1;
      assert forall k :: 0 <= k < n ==> ps[..n][k] == ps[k];
      PowerCallsSpec(ps[..n]);
      assert PowerCalls(ps) == PowerCalls(ps[..n]) + [PowerCall(PowerSymbolKind(ps[n].kind), ps[n].caption, ps[n].position.value, ps[n].net, ps[n].color)];
    }
  }

  // ---------------------------------------------------------------------
  // Labels and notes
  // ---------------------------------------------------------------------

  datatype LabelCall = LabelCall(text: Option<string>, at: Point, size: int, bold: bool)

  const TopNoteColor := "#666666"

  /** `label.size || 12`: a missing or zero size reads as 12. */
  function LabelSize(size: Option<int>): (n: int)
    ensures size.Some? && size.value != 0 ==> n == size.value
    ensures size.None? || size == Some(0) ==> n == 12
  {
    if size.Some? && size.value != 0 then size.value else 12
  }

  /** The labels written; a label without a position throws inside its own
    * `try` and is passed over. */
  function LabelCalls(ls: seq<LabelEntry>): seq<LabelCall>
  {
    if |ls| == 0 then []
    else
      var l := ls[|ls| - 1];
      LabelCalls(ls[..|ls| - 1]) +
      (if l.position.Some? then [LabelCall(l.text, l.position.value, LabelSize(l.size), l.bold == Some(true))] else [])
  }

  lemma LabelCallsStep(ls: seq<LabelEntry>, i: nat)
    requires i < |ls|
    ensures LabelCalls(ls[..i + 1]) == LabelCalls(ls[..i]) +
      (if ls[i].position.Some? then [LabelCall(ls[i].text, ls[i].position.value, LabelSize(ls[i].size), ls[i].bold == Some(true))] else [])
  {
    assert ls[..i + 1][..i] == ls[..i];
  }

  /** Every positioned label is written, and only those: one call per label
    * when all have a position. */
  lemma {:induction false} LabelCallsCount(ls: seq<LabelEntry>)
    ensures |LabelCalls(ls)| <= |ls|
    ensures (forall k :: 0 <= k < |ls| ==> ls[k].position.Some?) ==> |LabelCalls(ls)| == |ls|
  {
    if |ls| > 0 {
      var n := |ls| - 1;
      assert forall k :: 0 <= k < n ==> ls[..n][k] == ls[k];
      LabelCallsCount(ls[..n]);
    }
  }

  function NoteText(n: NoteEntry): TextCall
    requires n.position.Some?
  {
    TextCall(n.text, n.position.value, 10, TopNoteColor)
  }

  /** The notes written. The note loop has no `try` of its own: the first
    * note without a position throws out of addLabels, and no later note is
    * written. */
  function NoteTexts(ns: seq<NoteEntry>): seq<TextCall>
  {
    if |ns| == 0 || ns[0].position.None? then []
    else [NoteText(ns[0])] + NoteTexts(ns[1..])
  }

  /** The notes written are the longest run of positioned notes at the
    * front, in order. */
  lemma {:induction false} NoteTextsSpec(ns: seq<NoteEntry>)
    ensures |NoteTexts(ns)| <= |ns|
    ensures forall j :: 0 <= j < |NoteTexts(ns)| ==> ns[j].position.Some? && NoteTexts(ns)[j] == NoteText(ns[j])
    ensures |NoteTexts(ns)| < |ns| ==> ns[|NoteTexts(ns)|].position.None?
  {
    if |ns| > 0 && ns[0].position.Some? {
      NoteTextsSpec(ns[1..]);
      assert forall j :: 1 <= j < |NoteTexts(ns)| ==> NoteTexts(ns)[j] == NoteTexts(ns[1..])[j - 1];
    }
  }

  // ---------------------------------------------------------------------
  // The BOM of the open schematic
  // ---------------------------------------------------------------------

  /** A component as the editor lists it. */
  datatype ListedPart = ListedPart(designator: Option<string>, component: Option<string>, value: Option<string>,
    package: Option<string>)

  /** The grouping key `${component}_${value}_${package}`. */
  function GroupKey(p: ListedPart): string
  {
    Shown(p.component) + "_" + Shown(p.value) + "_" + Shown(p.package)
  }

  /** A group of the insertion-ordered Map: its key and its parts. The
    * grouping is stated for any key function; the BOM uses GroupKey. */
  datatype Group<T> = Group(key: string, items: seq<T>)

  /** The position of the group under `k`, if there is one. */
  function FindGroup<T>(gs: seq<Group<T>>, k: string): (r: Option<nat>)
    ensures r.Some? ==> r.value < |gs| && gs[r.value].key == k
    ensures r.None? ==> forall i :: 0 <= i < |gs| ==> gs[i].key != k
  {
    if |gs| == 0 then None
    else if gs[0].key == k then Some(0)
    else
      match FindGroup(gs[1..], k)
      case Some(i) => Some(i + 1)
      case None => None
  }

  /** One step of groupComponents: append to the group of the part's key,
    * or open a new group at the end. */
  function AddToGroups<T>(gs: seq<Group<T>>, p: T, key: T -> string): seq<Group<T>>
  {
    match FindGroup(gs, key(p))
    case Some(i) => gs[i := Group(gs[i].key, gs[i].items + [p])]
    case None => gs + [Group(key(p), [p])]
  }

  /** The groups of a list of parts, in the order the Map keeps them. */
  function GroupsOf<T>(ps: seq<T>, key: T -> string): seq<Group<T>>
  {
    if |ps| == 0 then [] else AddToGroups(GroupsOf(ps[..|ps| - 1], key), ps[|ps| - 1], key)
  }

  function Keys<T>(gs: seq<Group<T>>): seq<string>
  {
    if |gs| == 0 then [] else Keys(gs[..|gs| - 1]) + [gs[|gs| - 1].key]
  }

  function KeysOf<T>(ps: seq<T>, key: T -> string): seq<string>
  {
    if |ps| == 0 then [] else KeysOf(ps[..|ps| - 1], key) + [key(ps[|ps| - 1])]
  }

  /** The parts under one key, in input order. */
  function WithKey<T>(ps: seq<T>, k: string, key: T -> string): seq<T>
  {
    if |ps| == 0 then []
    else WithKey(ps[..|ps| - 1], k, key) + (if key(ps[|ps| - 1]) == k then [ps[|ps| - 1]] else [])
  }

  function TotalSize<T>(gs: seq<Group<T>>): nat
  {
    if |gs| == 0 then 0 else TotalSize(gs[..|gs| - 1]) + |gs[|gs| - 1].items|
  }

  lemma GroupsStep<T>(ps: seq<T>, i: nat, key: T -> string)
    requires i < |ps|
    ensures GroupsOf(ps[..i + 1], key) == AddToGroups(GroupsOf(ps[..i], key), ps[i], key)
  {
    assert ps[..i + 1][..i] == ps[..i];
  }

  lemma {:induction false} KeysAt<T>(gs: seq<Group<T>>)
    ensures |Keys(gs)| == |gs|
    ensures forall i :: 0 <= i < |gs| ==> Keys(gs)[i] == gs[i].key
  {
    if |gs| > 0 {
      KeysAt(gs[..|gs| - 1]);
    }
  }

  lemma KeysEqual<T>(gs: seq<Group<T>>, hs: seq<Group<T>>)
    requires |gs| == |hs|
    requires forall i :: 0 <= i < |gs| ==> gs[i].key == hs[i].key
    ensures Keys(gs) == Keys(hs)
  {
    KeysAt(gs);
    KeysAt(hs);
  }

  lemma {:induction false} AbsentKeyHasNoParts<T>(ps: seq<T>, k: string, key: T -> string)
    requires k !in KeysOf(ps, key)
    ensures WithKey(ps, k, key) == []
  {
    if |ps| > 0 {
      var n := |ps| - 1;
      assert k != key(ps[n]);
      AbsentKeyHasNoParts(ps[..n], k, key);
    }
  }

  lemma {:induction false} TotalSizeUpdate<T>(gs: seq<Group<T>>, j: nat, g: Group<T>)
    requires j < |gs|
    ensures TotalSize(gs[j := g]) == TotalSize(gs) - |gs[j].items| + |g.items|
  {
    var n := |gs| - 1;
    if j == n {
      assert gs[j := g][..n] == gs[..n];
    } else {
      assert gs[j := g][..n] == gs[..n][j := g];
      TotalSizeUpdate(gs[..n], j, g);
    }
  }

  /** Group sizes sum to the number of parts. */
  lemma {:induction false} GroupSizesSum<T>(ps: seq<T>, key: T -> string)
    ensures TotalSize(GroupsOf(ps, key)) == |ps|
  {
    if |ps| > 0 {
      var n := |ps| - 1;
      var gs := GroupsOf(ps[..n], key);
      GroupSizesSum(ps[..n], key);
      match FindGroup(gs, key(ps[n]))
      case Some(i) =>
        TotalSizeUpdate(gs, i, Group(gs[i].key, gs[i].items + [ps[n]]));
      case None =>
        assert (gs + [Group(key(ps[n]), [ps[n]])])[..|gs|] == gs;
    }
  }

  lemma NoDupsKeys<T>(gs: seq<Group<T>>, ks: seq<string>)
    requires Keys(gs) == Dedupe(ks)
    ensures forall i, j :: 0 <= i < j < |gs| ==> gs[i].key != gs[j].key
  {
    DedupeSpec(ks);
    KeysAt(gs);
    assert NoDups(Keys(gs));
  }

  /** Adding one part under key `k` leaves the parts of every other key
    * alone and adds the part to those of `k`. */
  lemma WithKeySnoc<T>(ps: seq<T>, p: T, k: string, key: T -> string)
    ensures WithKey(ps + [p], k, key) == WithKey(ps, k, key) + (if key(p) == k then [p] else [])
  {
    assert (ps + [p])[..|ps|] == ps;
  }

  /** `gs` groups `ps`: its keys are the distinct keys of `ps` in
    * first-appearance order, and each group holds exactly the parts with
    * its key, in input order, and is never empty. */
  ghost predicate GroupedAs<T>(gs: seq<Group<T>>, ps: seq<T>, key: T -> string)
  {
    Keys(gs) == Dedupe(KeysOf(ps, key)) &&
    forall i :: 0 <= i < |gs| ==> gs[i].items == WithKey(ps, gs[i].key, key) && |gs[i].items| > 0
  }

  lemma {:induction false} GroupsOfSpec<T>(ps: seq<T>, key: T -> string)
    ensures GroupedAs(GroupsOf(ps, key), ps, key)
  {
    if |ps| > 0 {
      var n := |ps| - 1;
      var p, ps' := ps[n], ps[..n];
      assert ps == ps' + [p];
      GroupsOfSpec(ps', key);
      AddKeepsGrouped(GroupsOf(ps', key), ps', p, key);
    }
  }

  /** What one more part does to the keys and the per-key parts. */
  lemma SnocFacts<T>(gs: seq<Group<T>>, ps: seq<T>, p: T, key: T -> string)
    requires GroupedAs(gs, ps, key)
    ensures KeysOf(ps + [p], key) == KeysOf(ps, key) + [key(p)]
    ensures forall j :: 0 <= j < |gs| ==>
      WithKey(ps + [p], gs[j].key, key) == gs[j].items + (if key(p) == gs[j].key then [p] else [])
    ensures forall i, j :: 0 <= i < j < |gs| ==> gs[i].key != gs[j].key
    ensures |Keys(gs)| == |gs| && forall i :: 0 <= i < |gs| ==> Keys(gs)[i] == gs[i].key
  {
    assert (ps + [p])[..|ps|] == ps;
    forall j | 0 <= j < |gs|
      ensures WithKey(ps + [p], gs[j].key, key) == gs[j].items + (if key(p) == gs[j].key then [p] else [])
    {
      WithKeySnoc(ps, p, gs[j].key, key);
    }
    NoDupsKeys(gs, KeysOf(ps, key));
    KeysAt(gs);
  }

  lemma AddKeepsGrouped<T>(gs: seq<Group<T>>, ps: seq<T>, p: T, key: T -> string)
    requires GroupedAs(gs, ps, key)
    ensures GroupedAs(AddToGroups(gs, p, key), ps + [p], key)
  {
    SnocFacts(gs, ps, p, key);
    DedupeSnoc(KeysOf(ps, key), key(p));
    match FindGroup(gs, key(p))
    case Some(j) =>
      assert Keys(gs)[j] == key(p);
      AddToFound(gs, ps, p, key, j);
    case None =>
      assert key(p) !in Keys(gs);
      DedupeSpec(KeysOf(ps, key));
      AddToNew(gs, ps, p, key);
  }

  lemma AddToFound<T>(gs: seq<Group<T>>, ps: seq<T>, p: T, key: T -> string, j: nat)
    requires GroupedAs(gs, ps, key)
    requires j < |gs| && gs[j].key == key(p)
    requires forall j :: 0 <= j < |gs| ==>
      WithKey(ps + [p], gs[j].key, key) == gs[j].items + (if key(p) == gs[j].key then [p] else [])
    requires forall i, j :: 0 <= i < j < |gs| ==> gs[i].key != gs[j].key
    requires Dedupe(KeysOf(ps + [p], key)) == Dedupe(KeysOf(ps, key))
    ensures GroupedAs(gs[j := Group(gs[j].key, gs[j].items + [p])], ps + [p], key)
  {
    var hs := gs[j := Group(gs[j].key, gs[j].items + [p])];
    KeysEqual(hs, gs);
  }

  lemma AddToNew<T>(gs: seq<Group<T>>, ps: seq<T>, p: T, key: T -> string)
    requires GroupedAs(gs, ps, key)
    requires forall i :: 0 <= i < |gs| ==> gs[i].key != key(p)
    requires forall j :: 0 <= j < |gs| ==>
      WithKey(ps + [p], gs[j].key, key) == gs[j].items + (if key(p) == gs[j].key then [p] else [])
    requires |Keys(gs)| == |gs| && forall i :: 0 <= i < |gs| ==> Keys(gs)[i] == gs[i].key
    requires Dedupe(KeysOf(ps + [p], key)) == Dedupe(KeysOf(ps, key)) + [key(p)]
    requires key(p) !in KeysOf(ps, key)
    ensures GroupedAs(gs + [Group(key(p), [p])], ps + [p], key)
  {
    var k := key(p);
    var hs := gs + [Group(k, [p])];
    AbsentKeyHasNoParts(ps, k, key);
    WithKeySnoc(ps, p, k, key);
    assert WithKey(ps + [p], k, key) == [p];
    assert hs[..|gs|] == gs;
    assert Keys(hs) == Keys(gs) + [k];
    forall i | 0 <= i < |hs|
      ensures hs[i].items == WithKey(ps + [p], hs[i].key, key) && |hs[i].items| > 0
    {
      if i < |gs| {
        assert hs[i] == gs[i] && gs[i].key != k;
        assert WithKey(ps + [p], gs[i].key, key) == gs[i].items + [];
      } else {
        assert hs[i] == Group(k, [p]);
      }
    }
  }

  /** `items.map(i => i.designator).join(', ')`: join writes a missing value
    * as the empty text. */
  function Designators(items: seq<ListedPart>): seq<string>
  {
    if |items| == 0 then []
    else Designators(items[..|items| - 1]) + [OrDefault(items[|items| - 1].designator, "")]
  }

  const BomTitle := "# Bill of Materials (Generated from EasyEDA)\n\n"
  const BomColumns := "| Designator | Component | Value | Package | Qty |\n"
  const BomRule := "|------------|-----------|-------|---------|-----|\n"

  /** One BOM row per group, described by the group's first part. */
  function BomRow(g: Group<ListedPart>): string
  {
    var first := if |g.items| > 0 then g.items[0] else ListedPart(None, None, None, None);
    "| " + Join(Designators(g.items), ", ") + " | " + Shown(first.component) + " | " + Shown(first.value) +
    " | " + Shown(first.package) + " | " + NatText.NatStr(|g.items|) + " |\n"
  }

  function BomTable(ps: seq<ListedPart>): string
  {
    BomTitle + BomColumns + BomRule + Rendered(GroupsOf(ps, GroupKey), BomRow)
  }

  /** Every group has its row. */
  lemma BomListsEveryGroup(ps: seq<ListedPart>, i: nat)
    requires i < |GroupsOf(ps, GroupKey)|
    ensures Contains(BomTable(ps), BomRow(GroupsOf(ps, GroupKey)[i]))
  {
    var gs := GroupsOf(ps, GroupKey);
    var rows := Rendered(gs, BomRow);
    RenderedContains(gs, i, BomRow);
    var head := BomTitle + BomColumns + BomRule;
    ContainsWithin(rows, BomRow(gs[i]), head, "");
    assert head + rows + "" == BomTable(ps);
  }

  // ---------------------------------------------------------------------
  // The design check of the open schematic
  // ---------------------------------------------------------------------

  /** A net as the editor reports it, with its connection count. A missing
    * count compares false with 2. */
  datatype EditorNet = EditorNet(name: Option<string>, connections: Option<int>)

  predicate Underconnected(n: EditorNet)
  {
    n.connections.Some? && n.connections.value < 2
  }

  function IssueText(name: Option<string>): string
  {
    "\U{26A0}\U{FE0F}  Net \"" + Shown(name) + "\" has < 2 connections"
  }

  /** One issue per net with fewer than two connections, in net order. */
  function NetIssues(nets: seq<EditorNet>): seq<string>
  {
    if |nets| == 0 then []
    else NetIssues(nets[..|nets| - 1]) + (if Underconnected(nets[|nets| - 1]) then [IssueText(nets[|nets| - 1].name)] else [])
  }

  lemma NetIssuesStep(nets: seq<EditorNet>, i: nat)
    requires i < |nets|
    ensures NetIssues(nets[..i + 1]) == NetIssues(nets[..i]) + (if Underconnected(nets[i]) then [IssueText(nets[i].name)] else [])
  {
    assert nets[..i + 1][..i] == nets[..i];
  }

  /** Issue i names the i-th underconnected net, and there is one issue per
    * such net. */
  lemma {:induction false} NetIssuesSpec(nets: seq<EditorNet>)
    ensures |NetIssues(nets)| == |Filter(nets, Underconnected)|
    ensures forall i :: 0 <= i < |NetIssues(nets)| ==> NetIssues(nets)[i] == IssueText(Filter(nets, Underconnected)[i].name)
  {
    if |nets| > 0 {
      var n := |nets| - 1;
      assert nets == nets[..n] + [nets[n]];
      FilterSnoc(nets[..n], nets[n], Underconnected);
      NetIssuesSpec(nets[..n]);
    }
  }

  const NoIssues := "\U{2705} No design issues found!"
  const NoDocument := "No document open"

  /** The message validateDesign shows. */
  function DesignReport(issues: seq<string>): string
  {
    if |issues| == 0 then NoIssues else "Design Issues:\n" + Join(issues, "\n")
  }

  /** The design is reported clean exactly when no net has fewer than two
    * connections. */
  lemma CleanReportIffConnected(nets: seq<EditorNet>)
    ensures DesignReport(NetIssues(nets)) == NoIssues <==> forall k :: 0 <= k < |nets| ==> !Underconnected(nets[k])
  {
    NetIssuesSpec(nets);
    FilterSpec(nets, Underconnected);
    if DesignReport(NetIssues(nets)) == NoIssues {
      assert ("Design Issues:\n" + Join(NetIssues(nets), "\n"))[0] == 'D';
      assert |NetIssues(nets)| == 0;
      forall k | 0 <= k < |nets|
        ensures !Underconnected(nets[k])
      {
        assert nets[k] in nets;
      }
    } else {
      assert |NetIssues(nets)| > 0;
      var f := Filter(nets, Underconnected);
      assert f[0] in f;
      var k :| 0 <= k < |nets| && nets[k] == f[0];
    }
  }

  // ---------------------------------------------------------------------
  // The importer
  // ---------------------------------------------------------------------

  /** AIEasyEDACompiler: the designator and net maps it fills, and the
    * wires, texts, power symbols and labels it has asked the editor for. */
  class Importer {
    var componentMap: map<Option<string>, string>
    var netMap: map<Option<string>, string>
    var wires: seq<WireCall>
    var texts: seq<TextCall>
    var powerCalls: seq<PowerCall>
    var labelCalls: seq<LabelCall>

    constructor()
      ensures componentMap == map[] && netMap == map[]
      ensures wires == [] && texts == [] && powerCalls == [] && labelCalls == []
    {
      componentMap, netMap := map[], map[];
      wires, texts, powerCalls, labelCalls := [], [], [], [];
    }

    /** importComponents: the counters and the component map follow Tally
      * and Placed; notes become texts. */
    method ImportComponents(components: Option<seq<Part>>, search: Search, place: Place) returns (imported: nat, skipped: nat)
      modifies this`componentMap, this`texts
      ensures (imported, skipped) == Tally(Items(components), search, place)
      ensures componentMap == Placed(old(componentMap), Items(components), search, place)
      ensures texts == old(texts) + NotesOf(Items(components), search, place)
    {
      var cs := Items(components);
      imported, skipped := 0, 0;
      assert cs[..0] == [];
      for i := 0 to |cs|
        invariant (imported, skipped) == Tally(cs[..i], search, place)
        invariant componentMap == Placed(old(componentMap), cs[..i], search, place)
        invariant texts == old(texts) + NotesOf(cs[..i], search, place)
      {
        TallyStep(cs, i, search, place);
        PlacedStep(old(componentMap), cs, i, search, place);
        var c := cs[i];
        match OutcomeOf(c, search, place)
        case Noted =>
          texts := texts + [TextCall(c.value, c.position.value, 10, NoteColor)];
        case Imported(h) =>
          componentMap := componentMap[c.designator := h];
          imported := imported + 1;
        case Skipped =>
          skipped := skipped + 1;
      }
      assert cs[..|cs|] == cs;
    }

    /** connectComponents: at most one wire, drawn only between placed
      * parts whose pins resolve. */
    method ConnectComponents(from: Endpoint, to: Endpoint, net: Net, pinAt: PinLookup)
      modifies this`wires
      ensures wires == old(wires) + AsSeq(WireFor(componentMap, net, from, to, pinAt))
    {
      var w := WireFor(componentMap, net, from, to, pinAt);
      if w.Some? {
        wires := wires + [w.value];
      }
    }

    /** createNet: records the editor's net under the name, then connects
      * connection i to connection i + 1 for each i < k - 1. When the
      * editor's `createNet` throws, nothing is recorded or wired and `ok`
      * is false. */
    method CreateNet(net: Net, create: CreateNetCall, pinAt: PinLookup) returns (ok: bool)
      modifies this`netMap, this`wires
      ensures ok == create(NetRequestOf(net)).Some?
      ensures ok ==> netMap == old(netMap)[net.name := create(NetRequestOf(net)).value]
      ensures ok ==> wires == old(wires) + WiresOf(componentMap, net, pinAt)
      ensures !ok ==> netMap == old(netMap) && wires == old(wires)
    {
      var obj := create(NetRequestOf(net));
      if obj.None? {
        return false;
      }
      ok := true;
      netMap := netMap[net.name := obj.value];
      var cs := Items(net.connections);
      var ps := Pairs(cs);
      assert ps[..0] == [];
      if net.connections.Some? && |cs| > 1 {
        for i := 0 to |cs| - 1
          invariant netMap == old(netMap)[net.name := obj.value]
          invariant wires == old(wires) + NetWires(componentMap, net, ps[..i], pinAt)
        {
          NetWiresStep(componentMap, net, ps, i, pinAt);
          ConnectComponents(cs[i], cs[i + 1], net, pinAt);
        }
        assert ps[..|cs| - 1] == ps;
      }
    }

    /** createNets: every net in order, each in its own try; the count is
      * the number of nets the editor created. */
    method CreateNets(nets: Option<seq<Net>>, create: CreateNetCall, pinAt: PinLookup) returns (created: nat)
      modifies this`netMap, this`wires
      ensures created == |CreatedNets(Items(nets), create)|
      ensures netMap == NetsRecorded(old(netMap), Items(nets), create)
      ensures wires == old(wires) + AllNetWires(componentMap, CreatedNets(Items(nets), create), pinAt)
    {
      var ns := Items(nets);
      ghost var netMap0, wires0, m := netMap, wires, componentMap;
      created := 0;
      assert ns[..0] == [];
      for i := 0 to |ns|
        invariant created == |CreatedNets(ns[..i], create)|
        invariant netMap == NetsRecorded(netMap0, ns[..i], create)
        invariant wires == wires0 + AllNetWires(m, CreatedNets(ns[..i], create), pinAt)
      {
        NetsRecordedStep(netMap0, ns, i, create);
        ghost var before := CreatedNets(ns[..i], create);
        var ok := CreateNet(ns[i], create, pinAt);
        if ok {
          assert CreatedNets(ns[..i + 1], create) == before + [ns[i]];
          AllNetWiresSnoc(m, before, ns[i], pinAt);
          AppendAssoc3(wires0, AllNetWires(m, before, pinAt), WiresOf(m, ns[i], pinAt));
          created := created + 1;
        } else {
          assert CreatedNets(ns[..i + 1], create) == before;
        }
      }
      assert ns[..|ns|] == ns;
    }

    /** addPowerSymbols over `power_symbols || []`. */
    method AddPowerSymbols(symbols: Option<seq<PowerSymbol>>)
      modifies this`powerCalls
      ensures powerCalls == old(powerCalls) + PowerCalls(Items(symbols))
    {
      var ps := Items(symbols);
      assert ps[..0] == [];
      for i := 0 to |ps|
        invariant powerCalls == old(powerCalls) + PowerCalls(ps[..i])
      {
        PowerCallsStep(ps, i);
        var p := ps[i];
        if p.position.Some? {
          powerCalls := powerCalls + [PowerCall(PowerSymbolKind(p.kind), p.caption, p.position.value, p.net, p.color)];
        }
      }
      assert ps[..|ps|] == ps;
    }

    /** addLabels over `labels || []` and `notes || []`. */
    method AddLabels(labels: Option<seq<LabelEntry>>, notes: Option<seq<NoteEntry>>)
      modifies this`labelCalls, this`texts
      ensures labelCalls == old(labelCalls) + LabelCalls(Items(labels))
      ensures texts == old(texts) + NoteTexts(Items(notes))
    {
      var ls := Items(labels);
      assert ls[..0] == [];
      for i := 0 to |ls|
        invariant labelCalls == old(labelCalls) + LabelCalls(ls[..i])
        invariant texts == old(texts)
      {
        LabelCallsStep(ls, i);
        var l := ls[i];
        if l.position.Some? {
          labelCalls := labelCalls + [LabelCall(l.text, l.position.value, LabelSize(l.size), l.bold == Some(true))];
        }
      }
      assert ls[..|ls|] == ls;
      var ns := Items(notes);
      NoteTextsSpec(ns);
      var i := 0;
      while i < |ns| && ns[i].position.Some?
        invariant i <= |NoteTexts(ns)|
        invariant labelCalls == old(labelCalls) + LabelCalls(ls)
        invariant texts == old(texts) + NoteTexts(ns)[..i]
      {
        texts := texts + [NoteText(ns[i])];
        assert NoteTexts(ns)[..i + 1] == NoteTexts(ns)[..i] + [NoteTexts(ns)[i]];
        i := i + 1;
      }
      assert NoteTexts(ns)[..i] == NoteTexts(ns);
    }

    /** The import steps after the document is created: components, nets,
      * power symbols, then labels and notes. */
    method Populate(d: SchematicData, search: Search, place: Place,
                    create: CreateNetCall, pinAt: PinLookup)
      modifies this
      ensures componentMap == Placed(old(componentMap), Items(d.components), search, place)
      ensures texts == old(texts) + NotesOf(Items(d.components), search, place) + NoteTexts(Items(d.notes))
      ensures netMap == NetsRecorded(old(netMap), Items(d.nets), create)
      ensures wires == old(wires) + AllNetWires(componentMap, CreatedNets(Items(d.nets), create), pinAt)
      ensures powerCalls == old(powerCalls) + PowerCalls(Items(d.powerSymbols))
      ensures labelCalls == old(labelCalls) + LabelCalls(Items(d.labels))
    {
      var imported, skipped := ImportComponents(d.components, search, place);
      var created := CreateNets(d.nets, create, pinAt);
      AddPowerSymbols(d.powerSymbols);
      AddLabels(d.labels, d.notes);
    }

    /** importAISchematic: a document that fails the check leaves everything
      * as it was; otherwise every step of Populate follows. */
    method ImportSchematic(data: Option<SchematicData>, search: Search, place: Place,
                           create: CreateNetCall, pinAt: PinLookup) returns (valid: bool)
      modifies this
      ensures valid == ValidateSchematicJson(data)
      ensures !valid ==> (componentMap == old(componentMap) && netMap == old(netMap) && wires == old(wires) &&
                          texts == old(texts) && powerCalls == old(powerCalls) && labelCalls == old(labelCalls))
      ensures valid ==> componentMap == Placed(old(componentMap), Items(data.value.components), search, place)
      ensures valid ==>
        texts == old(texts) + NotesOf(Items(data.value.components), search, place) + NoteTexts(Items(data.value.notes))
      ensures valid ==> netMap == NetsRecorded(old(netMap), Items(data.value.nets), create)
      ensures valid ==> wires == old(wires) + AllNetWires(componentMap, CreatedNets(Items(data.value.nets), create), pinAt)
      ensures valid ==> powerCalls == old(powerCalls) + PowerCalls(Items(data.value.powerSymbols))
      ensures valid ==> labelCalls == old(labelCalls) + LabelCalls(Items(data.value.labels))
    {
      valid := ValidateSchematicJson(data);
      if valid {
        Populate(data.value, search, place, create, pinAt);
      }
    }

    /** importFromCompiler: no output file leaves everything as it was; a
      * file read back is imported without the validity check. */
    method ImportFromCompiler(output: Option<CompilerMvp.Schematic>, search: Search, place: Place,
                              create: CreateNetCall, pinAt: PinLookup)
      modifies this
      ensures output.None? ==> (componentMap == old(componentMap) && netMap == old(netMap) && wires == old(wires) &&
                                texts == old(texts) && powerCalls == old(powerCalls) && labelCalls == old(labelCalls))
      ensures output.Some? ==> componentMap == Placed(old(componentMap), Items(FromCompiler(output.value).components), search, place)
      ensures output.Some? ==>
        texts == old(texts) + NotesOf(Items(FromCompiler(output.value).components), search, place)
      ensures output.Some? ==> netMap == NetsRecorded(old(netMap), Items(FromCompiler(output.value).nets), create)
      ensures output.Some? ==> wires == old(wires) + AllNetWires(componentMap, CreatedNets(Items(FromCompiler(output.value).nets), create), pinAt)
      ensures output.Some? ==> powerCalls == old(powerCalls) && labelCalls == old(labelCalls)
    {
      if output.Some? {
        Populate(FromCompiler(output.value), search, place, create, pinAt);
      }
    }

    /** updateSchematic: with a schematic open, a compiler output file
      * present and the dialog answered with its first button, the drawing is
      * cleared; then the file is read and parsed (`output`, None when either
      * throws) and imported again. A read or parse failure leaves the
      * drawing cleared. The designator and net maps are not cleared, so the
      * entries of an earlier import stay in them. */
    method UpdateSchematic(schematicOpen: bool, outputExists: bool, output: Option<CompilerMvp.Schematic>,
                           choice: int, search: Search, place: Place, create: CreateNetCall,
                           pinAt: PinLookup)
      returns (cleared: bool)
      modifies this
      ensures cleared == (schematicOpen && outputExists && choice == 0)
      ensures !cleared ==> (componentMap == old(componentMap) && netMap == old(netMap) && wires == old(wires) &&
                            texts == old(texts) && powerCalls == old(powerCalls) && labelCalls == old(labelCalls))
      ensures cleared && output.None? ==> (componentMap == old(componentMap) && netMap == old(netMap) &&
                                           wires == [] && texts == [] && powerCalls == [] && labelCalls == [])
      ensures cleared && output.Some? ==>
        componentMap == Placed(old(componentMap), Items(FromCompiler(output.value).components), search, place)
      ensures cleared && output.Some? ==> texts == NotesOf(Items(FromCompiler(output.value).components), search, place)
      ensures cleared && output.Some? ==> netMap == NetsRecorded(old(netMap), Items(FromCompiler(output.value).nets), create)
      ensures cleared && output.Some? ==> wires == AllNetWires(componentMap, CreatedNets(Items(FromCompiler(output.value).nets), create), pinAt)
      ensures cleared ==> powerCalls == [] && labelCalls == []
    {
      cleared := schematicOpen && outputExists && choice == 0;
      if cleared {
        wires, texts, powerCalls, labelCalls := [], [], [], [];
        ImportFromCompiler(output, search, place, create, pinAt);
      }
    }

    /** groupComponents: a loop over the parts filling the insertion-ordered
      * Map. */
    method GroupComponents(ps: seq<ListedPart>) returns (groups: seq<Group<ListedPart>>)
      ensures groups == GroupsOf(ps, GroupKey)
    {
      groups := [];
      assert ps[..0] == [];
      for i := 0 to |ps|
        invariant groups == GroupsOf(ps[..i], GroupKey)
      {
        GroupsStep(ps, i, GroupKey);
        var key := GroupKey(ps[i]);
        match FindGroup(groups, key)
        case Some(j) =>
          groups := groups[j := Group(groups[j].key, groups[j].items + [ps[i]])];
        case None =>
          groups := groups + [Group(key, [ps[i]])];
      }
      assert ps[..|ps|] == ps;
    }

    /** createBOMTable: the heading, then a row per group. */
    method CreateBomTable(ps: seq<ListedPart>) returns (bom: string)
      ensures bom == BomTable(ps)
    {
      var groups := GroupComponents(ps);
      bom := BomTitle;
      bom := bom + BomColumns;
      bom := bom + BomRule;
      bom := AppendRendered(bom, groups, BomRow);
    }

    /** validateDesign: without a document only a warning; otherwise the
      * issues of the underconnected nets, or the all-clear. */
    method ValidateDesign(documentOpen: bool, nets: seq<EditorNet>) returns (message: string)
      ensures !documentOpen ==> message == NoDocument
      ensures documentOpen ==> message == DesignReport(NetIssues(nets))
    {
      if !documentOpen {
        return NoDocument;
      }
      var issues := [];
      assert nets[..0] == [];
      for i := 0 to |nets|
        invariant issues == NetIssues(nets[..i])
      {
        NetIssuesStep(nets, i);
        if Underconnected(nets[i]) {
          issues := issues + [IssueText(nets[i].name)];
        }
      }
      assert nets[..|nets|] == nets;
      message := DesignReport(issues);
    }
  }
}
