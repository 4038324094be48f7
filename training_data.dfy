/** The rule checks of the training-data generator
  * (ai-training/training-data-generator.js): component and connection
  * analysis, the first-match signal classifier, per-connection checks and
  * recommendations, the whole-design score, the power budget and the
  * dataset's example count. */
module TrainingData {
  import opened Wrappers
  import opened Strings
  import opened Seqs

  // ---------------------------------------------------------------------
  // Designs
  // ---------------------------------------------------------------------

  /** A component of the PCB JSON: `type`, `value` (absent on many parts),
    * `model` (the knowledge-base key) and `name`. */
  datatype Component = Component(kind: string, value: Option<string>, model: string, name: string)

  /** One end of a connection; `component` and `pin` may be absent. */
  datatype Endpoint = Endpoint(component: Option<string>, pin: Option<string>)

  /** A connection: `type`, `signal`, `from`, `to` and the `hasGateResistor`
    * flag (falsy when absent). */
  datatype Connection = Connection(kind: Option<string>, signal: Option<string>,
    from: Option<Endpoint>, to: Option<Endpoint>, hasGateResistor: bool)

  /** `connection.to?.pin === p`. */
  predicate ToPin(c: Connection, p: string) { c.to.Some? && c.to.value.pin == Some(p) }

  /** `connection.from?.pin === p`. */
  predicate FromPin(c: Connection, p: string) { c.from.Some? && c.from.value.pin == Some(p) }

  /** `connection.from?.component?.includes(p)`. */
  predicate FromIncludes(c: Connection, p: string)
  {
    c.from.Some? && c.from.value.component.Some? && Contains(c.from.value.component.value, p)
  }

  /** `connection.to?.component === p`. */
  predicate ToComponent(c: Connection, p: string) { c.to.Some? && c.to.value.component == Some(p) }

  /** `connection.from?.component === p`. */
  predicate FromComponent(c: Connection, p: string) { c.from.Some? && c.from.value.component == Some(p) }

  // ---------------------------------------------------------------------
  // Signal classification (identifySignalType)
  // ---------------------------------------------------------------------

  /** The six answers identifySignalType can give, in the order it tries them. */
  datatype SignalKind = DigitalControl | SpiLike | OutputEnable | GateDrive | SensorOutput | General

  function Rank(k: SignalKind): nat
  {
    match k
    case DigitalControl => 0
    case SpiLike => 1
    case OutputEnable => 2
    case GateDrive => 3
    case SensorOutput => 4
    case General => 5
  }

  /** The text identifySignalType returns for each answer. */
  function Label(k: SignalKind): string
  {
    match k
    case DigitalControl => "Digital Control"
    case SpiLike => "SPI-like Digital"
    case OutputEnable => "Output Enable (Active Low)"
    case GateDrive => "MOSFET Gate Drive"
    case SensorOutput => "Sensor Output"
    case General => "General Signal"
  }

  /** When an answer applies to a connection, taken on its own. */
  predicate Applies(k: SignalKind, c: Connection)
  {
    match k
    case DigitalControl => c.kind == Some("CONTROL_SIGNAL")
    case SpiLike => c.signal in {Some("DATA"), Some("CLOCK"), Some("LATCH")}
    case OutputEnable => c.signal == Some("OE")
    case GateDrive => ToPin(c, "Gate")
    case SensorOutput => FromPin(c, "OUT")
    case General => true
  }

  /** identifySignalType: the chain of early returns. */
  function SignalType(c: Connection): SignalKind
  {
    if c.kind == Some("CONTROL_SIGNAL") then DigitalControl
    else if c.signal.Some? && c.signal.value != "" && c.signal.value in ["DATA", "CLOCK", "LATCH"] then SpiLike
    else if c.signal.Some? && c.signal.value != "" && c.signal.value == "OE" then OutputEnable
    else if ToPin(c, "Gate") then GateDrive
    else if FromPin(c, "OUT") then SensorOutput
    else General
  }

  /** The answer is the first in order whose condition holds: it applies,
    * and no earlier answer does. */
  lemma SignalTypeFirstMatch(c: Connection)
    ensures Applies(SignalType(c), c)
    ensures forall k :: Rank(k) < Rank(SignalType(c)) ==> !Applies(k, c)
  {
    forall k | Rank(k) < Rank(SignalType(c))
      ensures !Applies(k, c)
    {
      if k == SpiLike {
        assert c.signal !in {Some("DATA"), Some("CLOCK"), Some("LATCH")};
      }
    }
  }

  /** A control-signal connection is always "Digital Control", whatever its
    * signal and pins. */
  lemma ControlSignalWins(c: Connection)
    requires c.kind == Some("CONTROL_SIGNAL")
    ensures Label(SignalType(c)) == "Digital Control"
  {
  }

  /** getSignalVoltage: the logic level by the driving component. */
  function SignalVoltage(c: Connection): string
  {
    if FromIncludes(c, "Pico") then "3.3V Logic"
    else if FromComponent(c, "74HC595") then "5V Logic (HC family)"
    else "Verify voltage level"
  }

  // ---------------------------------------------------------------------
  // Per-connection checks (validateConnection, getConnectionRecommendations)
  // ---------------------------------------------------------------------

  datatype ConnectionCheck = ConnectionCheck(issues: seq<string>, warnings: seq<string>)

  const LevelShiftWarning := "3.3V GPIO to 5V IC - Ensure " + "74HC595 runs at 3.3V or use " + "level shifter"
  const GateResistorIssue := "Add 220-470\U{3A9} series " + "resistor on MOSFET gate"

  /** A Pico GPIO driving the 74HC595 directly. */
  predicate PicoToShiftRegister(c: Connection) { FromIncludes(c, "Pico") && ToComponent(c, "74HC595") }

  /** A MOSFET gate with no series resistor. */
  predicate UnguardedGate(c: Connection) { ToPin(c, "Gate") && !c.hasGateResistor }

  /** validateConnection. */
  function ValidateConnection(c: Connection): ConnectionCheck
  {
    ConnectionCheck(if UnguardedGate(c) then [GateResistorIssue] else [],
      if PicoToShiftRegister(c) then [LevelShiftWarning] else [])
  }

  /** One issue exactly for an unguarded gate, one warning exactly for a
    * Pico driving the 74HC595, and nothing else. */
  lemma ValidateConnectionSpec(c: Connection)
    ensures |ValidateConnection(c).issues| == 1 <==> ToPin(c, "Gate") && !c.hasGateResistor
    ensures |ValidateConnection(c).issues| == 0 <==> !(ToPin(c, "Gate") && !c.hasGateResistor)
    ensures |ValidateConnection(c).warnings| == 1 <==> FromIncludes(c, "Pico") && ToComponent(c, "74HC595")
    ensures |ValidateConnection(c).warnings| == 0 <==> !(FromIncludes(c, "Pico") && ToComponent(c, "74HC595"))
  {
  }

  const ClockTips: seq<string> := ["Keep clock trace short (<6 inches)", "Route away from noisy signals",
    "Consider 22\U{3A9} series resistor " + "for termination"]
  const DataTips: seq<string> := ["Keep parallel to clock with " + "matched lengths", "Avoid vias if possible"]
  const GateTips: seq<string> := ["Add 220-470\U{3A9} series resistor",
    "Add 10k\U{3A9} pull-down resistor " + "gate-to-ground", "Keep gate trace short to " + "prevent ringing"]

  /** The recommendations for a connection: clock tips, then data tips,
    * then gate tips, each group when its condition holds. */
  function ConnectionRecommendations(c: Connection): seq<string>
  {
    (if c.signal == Some("CLOCK") then ClockTips else []) +
    (if c.signal == Some("DATA") then DataTips else []) +
    (if ToPin(c, "Gate") then GateTips else [])
  }

  /** getConnectionRecommendations: three pushes per matching group. */
  method GetConnectionRecommendations(c: Connection) returns (recs: seq<string>)
    ensures recs == ConnectionRecommendations(c)
  {
    recs := [];
    if c.signal == Some("CLOCK") {
      recs := recs + [ClockTips[0]];
      recs := recs + [ClockTips[1]];
      recs := recs + [ClockTips[2]];
    }
    if c.signal == Some("DATA") {
      recs := recs + [DataTips[0]];
      recs := recs + [DataTips[1]];
    }
    if ToPin(c, "Gate") {
      recs := recs + [GateTips[0]];
      recs := recs + [GateTips[1]];
      recs := recs + [GateTips[2]];
    }
  }

  /** Three for a clock, two for data, three more for a gate: so at most
    * six, and the gate advice, when given, comes last. */
  lemma RecommendationCount(c: Connection)
    ensures |ConnectionRecommendations(c)| ==
      (if c.signal == Some("CLOCK") then 3 else if c.signal == Some("DATA") then 2 else 0) +
      (if ToPin(c, "Gate") then 3 else 0)
    ensures |ConnectionRecommendations(c)| <= 6
    ensures ToPin(c, "Gate") ==> EndsWith(ConnectionRecommendations(c), GateTips)
  {
    var r := ConnectionRecommendations(c);
    var head := (if c.signal == Some("CLOCK") then ClockTips else []) +
      (if c.signal == Some("DATA") then DataTips else []);
    if ToPin(c, "Gate") {
      assert r == head + GateTips;
      assert r[|r| - |GateTips|..] == GateTips;
    }
  }

  /** EndsWith on sequences of lines. */
  predicate EndsWith(xs: seq<string>, tail: seq<string>)
  {
    |tail| <= |xs| && xs[|xs| - |tail|..] == tail
  }

  // ---------------------------------------------------------------------
  // Analyses (analyzeComponents, analyzeConnections)
  // ---------------------------------------------------------------------

  /** A knowledge-base entry, as far as getComponentRequirements reads it;
    * `bestPractices` is None when the entry has none (an empty list is
    * still truthy in the source). */
  datatype Knowledge = Knowledge(voltage: Option<string>, current: Option<string>,
    bestPractices: Option<seq<string>>)

  const NoKnowledge := Knowledge(None, None, None)

  /** A required passive part (getRequiredPassives); the IR LED entry's
    * worked `calculation` text is not modelled. */
  datatype Passive = Passive(kind: string, value: string, placement: string, purpose: string)

  const Decoupling := Passive("capacitor", "0.1\U{B5}F", "Near each VCC pin", "Decoupling")
  const BulkFilter := Passive("capacitor", "10\U{B5}F", "At power input", "Bulk filtering")
  const NoiseFilter := Passive("capacitor", "0.1\U{B5}F", "VCC to GND, close to IC", "Noise filtering")
  const RegisterDecoupling := Passive("capacitor", "0.1\U{B5}F", "VCC to GND", "Decoupling")
  const OutputLimiter := Passive("resistor", "220-470\U{3A9}", "On each output to " + "MOSFET gate", "Current limiting")
  const GateLimiter := Passive("resistor", "220-470\U{3A9}", "Gate to driver", "Gate current limiting")
  const GatePullDown := Passive("resistor", "10k\U{3A9}", "Gate to ground", "Pull-down to prevent " + "floating")
  const LedResistor := Passive("resistor", "39\U{3A9} (for 100mA)", "Series with LED", "Current limiting")

  /** getRequiredPassives: the passives each component type needs. */
  function RequiredPassives(kind: string): seq<Passive>
  {
    if kind == "MCU" then [Decoupling, BulkFilter]
    else if kind == "IR_RECEIVER" then [NoiseFilter]
    else if kind == "SHIFT_REGISTER" then [RegisterDecoupling, OutputLimiter]
    else if kind == "MOSFET" then [GateLimiter, GatePullDown]
    else if kind == "IR_LED" then [LedResistor]
    else []
  }

  /** Two passives for an MCU, a shift register or a MOSFET, one for an IR
    * receiver or IR LED, none for any other type. */
  lemma RequiredPassiveCount(kind: string)
    ensures |RequiredPassives(kind)| ==
      (if kind in {"MCU", "SHIFT_REGISTER", "MOSFET"} then 2
       else if kind in {"IR_RECEIVER", "IR_LED"} then 1 else 0)
  {
  }

  /** getComponentRequirements: nothing (the source's `[]`) without best
    * practices, else the entry's ratings, its practices and the passives. */
  datatype Requirements = Requirements(voltage: Option<string>, current: Option<string>,
    bestPractices: seq<string>, required: seq<Passive>)

  function ComponentRequirements(c: Component, k: Knowledge): Option<Requirements>
  {
    if k.bestPractices.None? then None
    else Some(Requirements(k.voltage, k.current, k.bestPractices.value, RequiredPassives(c.kind)))
  }

  /** describeComponentFunction. */
  function Describe(c: Component): string
  {
    if c.kind == "MCU" then "Microcontroller - Controls the " + "entire system. Reads " + c.name +
      " inputs and generates outputs."
    else if c.kind == "IR_RECEIVER" then "IR Receiver - Detects infrared " + "signals at 38kHz and outputs " +
      "active-low signal to GPIO."
    else if c.kind == "SHIFT_REGISTER" then "Shift Register - Converts serial " + "data to parallel outputs for " +
      "controlling multiple devices."
    else if c.kind == "MOSFET" then "MOSFET Switch - Acts as " + "electronic switch to control " +
      "high-current IR LED."
    else if c.kind == "IR_LED" then "Infrared LED - Emits 940nm IR " + "light for remote control " +
      "transmission."
    else "Unknown component type: " + c.kind
  }

  datatype ComponentAnalysis = ComponentAnalysis(component: Component, knowledge: Knowledge,
    description: string, requirements: Option<Requirements>)

  /** The knowledge entry for a model, `{}` when there is none. */
  function KnowledgeOf(kb: map<string, Knowledge>, model: string): Knowledge
  {
    if model in kb then kb[model] else NoKnowledge
  }

  /** analyzeComponents: one analysis per component, in order. */
  function AnalyzeComponents(cs: seq<Component>, kb: map<string, Knowledge>): (r: seq<ComponentAnalysis>)
    ensures |r| == |cs|
    ensures forall i :: 0 <= i < |cs| ==> r[i].component == cs[i] && r[i].knowledge == KnowledgeOf(kb, cs[i].model)
    ensures forall i :: 0 <= i < |cs| ==>
      (r[i].requirements.Some? <==> KnowledgeOf(kb, cs[i].model).bestPractices.Some?)
  {
    seq(|cs|, i requires 0 <= i < |cs| =>
      var k := KnowledgeOf(kb, cs[i].model);
      ComponentAnalysis(cs[i], k, Describe(cs[i]), ComponentRequirements(cs[i], k)))
  }

  datatype ConnectionAnalysis = ConnectionAnalysis(connection: Connection, signalType: string,
    voltageLevel: string, validation: ConnectionCheck, recommendations: seq<string>)

  /** analyzeConnections: one analysis per connection, in order. */
  function AnalyzeConnections(conns: seq<Connection>): (r: seq<ConnectionAnalysis>)
    ensures |r| == |conns|
    ensures forall i :: 0 <= i < |conns| ==> r[i].connection == conns[i]
    ensures forall i :: 0 <= i < |conns| ==> |r[i].validation.issues| <= 1 && |r[i].recommendations| <= 6
  {
    seq(|conns|, i requires 0 <= i < |conns| =>
      RecommendationCount(conns[i]);
      ConnectionAnalysis(conns[i], Label(SignalType(conns[i])), SignalVoltage(conns[i]),
        ValidateConnection(conns[i]), ConnectionRecommendations(conns[i])))
  }

  /** Analysing a longer list extends the analysis of its prefix. */
  lemma AnalyzeConnectionsAppend(a: seq<Connection>, b: seq<Connection>)
    ensures AnalyzeConnections(a + b) == AnalyzeConnections(a) + AnalyzeConnections(b)
  {
    var l, r := AnalyzeConnections(a + b), AnalyzeConnections(a) + AnalyzeConnections(b);
    assert |l| == |r|;
    forall i | 0 <= i < |l| ensures l[i] == r[i]
    {
      if i < |a| {
        assert (a + b)[i] == a[i];
      } else {
        assert (a + b)[i] == b[i - |a|];
      }
    }
  }

  // ---------------------------------------------------------------------
  // The whole-design check (validateDesign)
  // ---------------------------------------------------------------------

  datatype Validation = Validation(errors: seq<string>, warnings: seq<string>, score: int, status: string)

  const DecouplingMissing := "Missing decoupling capacitors - " + "Add 0.1\U{B5}F near each IC"
  const BulkCapAdvice := "Consider adding 10-100\U{B5}F bulk " + "capacitor at power input"
  const GateResistorAdvice := "Ensure each MOSFET has gate " + "resistor (220-470\U{3A9}) and " + "pull-down (10k\U{3A9})"
  const LedResistorAdvice := "Calculate and add " + "current-limiting resistors for " + "each IR LED"

  predicate IsMosfet(c: Component) { c.kind == "MOSFET" }
  predicate IsIrLed(c: Component) { c.kind == "IR_LED" }
  predicate IsIrReceiver(c: Component) { c.kind == "IR_RECEIVER" }
  predicate IsIcLoad(c: Component) { c.kind == "MCU" || c.kind == "SHIFT_REGISTER" }
  predicate IsCapacitor(c: Component) { c.kind == "CAPACITOR" }
  predicate IsBulkCap(c: Component) { c.value == Some("10\U{B5}F") || c.value == Some("100\U{B5}F") }

  /** validateDesign: start at 100; a missing capacitor is an error and
    * costs 20, a missing bulk capacitor is a warning and costs 5; MOSFETs
    * and IR LEDs each add one warning. PASS exactly when there is no error. */
  method ValidateDesign(cs: seq<Component>) returns (v: Validation)
    ensures v.errors == (if exists c :: c in cs && IsCapacitor(c) then [] else [DecouplingMissing])
    ensures v.score == 100 - (if exists c :: c in cs && IsCapacitor(c) then 0 else 20)
                           - (if exists c :: c in cs && IsBulkCap(c) then 0 else 5)
    ensures v.score in {75, 80, 95, 100}
    ensures |v.warnings| == (if exists c :: c in cs && IsBulkCap(c) then 0 else 1) +
      (if |Filter(cs, IsMosfet)| > 0 then 1 else 0) +
      (if |Filter(cs, IsIrLed)| > 0 then 1 else 0)
    ensures v.status == "PASS" <==> |v.errors| == 0
    ensures v.status == "PASS" || v.status == "FAIL"
  {
    var errors, warnings, score := [], [], 100;
    var hasDecoupling := exists c :: c in cs && IsCapacitor(c);
    if !hasDecoupling {
      errors := errors + [DecouplingMissing];
      score := score - 20;
    }
    var hasBulkCap := exists c :: c in cs && IsBulkCap(c);
    if !hasBulkCap {
      warnings := warnings + [BulkCapAdvice];
      score := score - 5;
    }
    var mosfets := Filter(cs, IsMosfet);
    if |mosfets| > 0 {
      warnings := warnings + [GateResistorAdvice];
    }
    var leds := Filter(cs, IsIrLed);
    if |leds| > 0 {
      warnings := warnings + [LedResistorAdvice];
    }
    var status := if |errors| == 0 then "PASS" else "FAIL";
    v := Validation(errors, warnings, score, status);
  }

  // ---------------------------------------------------------------------
  // The power budget (performCalculations)
  // ---------------------------------------------------------------------

  /** The supply and trace advice for a total current. */
  datatype PowerBudget = PowerBudget(receivers: nat, leds: nat, ics: nat, tenthsMilliamp: nat,
    supply: string, traces: string)

  /** The total draw in tenths of a milliamp: 0.4 mA per IR receiver,
    * 100 mA per IR LED and 20 mA per MCU or shift register. */
  function PowerBudgetOf(cs: seq<Component>): (b: PowerBudget)
    ensures b.tenthsMilliamp == 4 * b.receivers + 1000 * b.leds + 200 * b.ics
    ensures b.supply == "1A or higher" <==> b.tenthsMilliamp > 5000
    ensures b.receivers + b.leds + b.ics <= |cs|
  {
    var receivers := |Filter(cs, IsIrReceiver)|;
    var leds := |Filter(cs, IsIrLed)|;
    var ics := |Filter(cs, IsIcLoad)|;
    CountsDisjoint(cs);
    var total := receivers * 4 + leds * 1000 + ics * 200;
    PowerBudget(receivers, leds, ics, total, if total > 5000 then "1A or higher" else "500mA",
      if total > 5000 then "Use 30-50mil traces for power" else "Use 20mil traces for power")
  }

  /** The three counted groups are disjoint, so together they count at most
    * every component once. */
  lemma {:induction false} CountsDisjoint(cs: seq<Component>)
    ensures |Filter(cs, IsIrReceiver)| + |Filter(cs, IsIrLed)| +
      |Filter(cs, IsIcLoad)| <= |cs|
  {
    if |cs| > 0 {
      var n := |cs| - 1;
      CountsDisjoint(cs[..n]);
      assert cs == cs[..n] + [cs[n]];
      FilterSnoc(cs[..n], cs[n], IsIrReceiver);
      FilterSnoc(cs[..n], cs[n], IsIrLed);
      FilterSnoc(cs[..n], cs[n], IsIcLoad);
    }
  }

  /** Six IR LEDs already need the 1 A supply; five alone do not. */
  lemma SixLedsNeedAnAmp(cs: seq<Component>)
    requires |Filter(cs, IsIrLed)| >= 6
    ensures PowerBudgetOf(cs).supply == "1A or higher"
  {
  }

  /** Adding a component never lowers the budget. */
  lemma PowerBudgetMonotone(cs: seq<Component>, c: Component)
    ensures PowerBudgetOf(cs + [c]).tenthsMilliamp >= PowerBudgetOf(cs).tenthsMilliamp
  {
    FilterSnoc(cs, c, IsIrReceiver);
    FilterSnoc(cs, c, IsIrLed);
    FilterSnoc(cs, c, IsIcLoad);
  }

  /** The LED resistor calculation, present only when there are IR LEDs;
    * of its texts only the standard value is modelled (the others format
    * floating-point numbers). */
  datatype Calculations = Calculations(ledStandardValue: Option<string>, powerBudget: Option<PowerBudget>)

  const LedStandardValue := "39\U{3A9} (nearest E12 series)"

  /** performCalculations. */
  function PerformCalculations(cs: seq<Component>): (r: Calculations)
    ensures r.ledStandardValue.Some? <==> |Filter(cs, IsIrLed)| > 0
    ensures r.powerBudget == Some(PowerBudgetOf(cs))
  {
    Calculations(if |Filter(cs, IsIrLed)| > 0 then Some(LedStandardValue) else None, Some(PowerBudgetOf(cs)))
  }

  // ---------------------------------------------------------------------
  // The dataset (generateTrainingDataset)
  // ---------------------------------------------------------------------

  /** A design as JSON.parse leaves it; the example text comes from
    * generateTrainingExample, which is a parameter here. */
  datatype Design = Design(title: string, components: seq<Component>, connections: seq<Connection>)

  datatype Dataset = Dataset(totalExamples: nat, examples: seq<string>)

  /** generateTrainingDataset: one example per file, in order; a file that
    * does not parse (None) makes the whole call throw (None). */
  method GenerateTrainingDataset(files: seq<Option<Design>>, example: Design -> string) returns (r: Option<Dataset>)
    ensures r.Some? <==> forall i :: 0 <= i < |files| ==> files[i].Some?
    ensures r.Some? ==> r.value.totalExamples == |files| == |r.value.examples|
    ensures r.Some? ==> forall i :: 0 <= i < |files| ==> r.value.examples[i] == example(files[i].value)
  {
    var examples: seq<string> := [];
    var i := 0;
    while i < |files|
      invariant 0 <= i <= |files| && |examples| == i
      invariant forall j :: 0 <= j < i ==> files[j].Some? && examples[j] == example(files[j].value)
    {
      if files[i].None? {
        return None;
      }
      examples := examples + [example(files[i].value)];
      i := i + 1;
    }
    r := Some(Dataset(|examples|, examples));
  }
}
