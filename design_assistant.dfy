/** The rule-based parts of the design assistant
  * (ai-training/ai-design-assistant.js): protocol extraction, the MCU
  * suggestion, the clarifying questions, the netlist, the calculation
  * checks, the best-practice checks and the detailed issue list. */
module DesignAssistant {
  import opened Wrappers
  import opened Strings
  import opened Seqs
  import NatText
  import opened TrainingData

  // ---------------------------------------------------------------------
  // Case-insensitive patterns
  // ---------------------------------------------------------------------

  /** `/word/i.test(s)` for a lower-case ASCII word. */
  predicate Mentions(s: string, word: string) { Contains(Lower(s), word) }

  /** The characters `.` does not match. */
  predicate IsLineTerminator(c: char) { c == '\n' || c == '\r' || c == '\U{2028}' || c == '\U{2029}' }

  /** `/a.*b/i.test(s)`: `a`, then `b` later on the same line. */
  predicate FollowedOnLine(s: string, a: string, b: string)
  {
    var l := Lower(s);
    exists i, j :: 0 <= i && i + |a| <= j <= |l| && PrefixAt(l, a, i) && PrefixAt(l, b, j) &&
      forall k :: i + |a| <= k < j ==> !IsLineTerminator(l[k])
  }

  /** What may sit between the first digit of `(\d+\.?\d*)\s*v` and the
    * `v`: digits, an optional point, digits, white space. Taking each run
    * as long as possible loses no match, since a digit can be neither a
    * point nor white space. */
  predicate NumberTail(t: string)
  {
    var a := NatText.DigitRun(t, 10);
    var b := if a < |t| && t[a] == '.' then a + 1 else a;
    var c := b + NatText.DigitRun(t[b..], 10);
    forall k :: c <= k < |t| ==> IsSpace(t[k])
  }

  /** extractPower's voltage match is non-null: `/(\d+\.?\d*)\s*v/gi`
    * matches somewhere. */
  predicate VoltageMention(s: string)
  {
    exists i, j :: 0 <= i < j < |s| && IsDigit(s[i]) && LowerChar(s[j]) == 'v' && NumberTail(s[i + 1..j])
  }

  // ---------------------------------------------------------------------
  // extractCommunication
  // ---------------------------------------------------------------------

  const Protocols: seq<string> := ["spi", "i2c", "uart", "usb", "serial", "wireless"]

  /** The protocols the input names, case-insensitively, in list order. */
  function ExtractCommunication(input: string): (r: seq<string>)
    ensures forall p :: p in r <==> p in Protocols && Contains(Lower(input), p)
    ensures |r| <= |Protocols|
  {
    FilterSpec(Protocols, p => Contains(Lower(input), p));
    Filter(Protocols, p => Contains(Lower(input), p))
  }

  // ---------------------------------------------------------------------
  // suggestMCU
  // ---------------------------------------------------------------------

  /** A suggested microcontroller; its `pros` and `cons` lists are fixed
    * text and not modelled, and the fallback has no price. */
  datatype McuOption = McuOption(model: string, reason: string, price: Option<string>)

  const PicoOption := McuOption("Raspberry Pi Pico", "26 GPIO pins, 3.3V logic, USB " + "programmable, cost-effective", Some("$4-5"))
  const AtmegaOption := McuOption("ATmega328P", "Arduino-compatible, 5V logic, " + "widely used", Some("$2-3"))
  const Esp32Option := McuOption("ESP32", "Built-in WiFi/Bluetooth, powerful", Some("$3-6"))
  const McuFallback := McuOption("Raspberry Pi Pico", "Good general-purpose choice " + "for most projects", None)

  predicate WantsManyPins(s: string)
  {
    Mentions(s, "many gpio") || Mentions(s, "lots of pins") || FollowedOnLine(s, "20", "gpio")
  }
  predicate WantsAvr(s: string) { Mentions(s, "atmega") || Mentions(s, "arduino") }
  predicate WantsWireless(s: string) { Mentions(s, "esp32") || Mentions(s, "wifi") || Mentions(s, "bluetooth") }

  function McuRank(o: McuOption): nat
  {
    if o.model == "ATmega328P" then 1 else if o.model == "ESP32" then 2 else 0
  }

  /** suggestMCU: the matching options in Pico, ATmega, ESP32 order, or the
    * general-purpose Pico when none matches; never empty. */
  function SuggestMcu(input: string): (r: seq<McuOption>)
    ensures 1 <= |r| <= 3
    ensures r == [McuFallback] <==> !WantsManyPins(input) && !WantsAvr(input) && !WantsWireless(input)
    ensures PicoOption in r <==> WantsManyPins(input)
    ensures AtmegaOption in r <==> WantsAvr(input)
    ensures Esp32Option in r <==> WantsWireless(input)
    ensures forall i, j :: 0 <= i < j < |r| ==> McuRank(r[i]) < McuRank(r[j])
  {
    var options := (if WantsManyPins(input) then [PicoOption] else []) +
      (if WantsAvr(input) then [AtmegaOption] else []) +
      (if WantsWireless(input) then [Esp32Option] else []);
    if |options| > 0 then
      assert options[0] in [PicoOption, AtmegaOption, Esp32Option];
      assert options[0] != McuFallback;
      options
    else [McuFallback]
  }

  // ---------------------------------------------------------------------
  // generateClarifyingQuestions
  // ---------------------------------------------------------------------

  const VoltageQuestion := "What supply voltage will you " + "use? (3.3V, 5V, 12V, etc.)"
  const RateQuestion := "What is the operating " + "frequency/update rate needed?"
  const RangeQuestion := "What IR communication range " + "do you need?"
  const EnvironmentQuestion := "Operating environment? (indoor, " + "outdoor, industrial, " + "temperature range)"
  const SizeQuestion := "Any size constraints for the PCB?"
  const LayerQuestion := "Single-sided, double-sided, or " + "multilayer PCB?"

  predicate MentionsRate(s: string) { Mentions(s, "frequency") || Mentions(s, "speed") || Mentions(s, "rate") }
  predicate MentionsRange(s: string) { Mentions(s, "range") || Mentions(s, "distance") }
  predicate MentionsIr(s: string) { Mentions(s, "ir") || Mentions(s, "infrared") }
  predicate MentionsEnvironment(s: string) { Mentions(s, "temperature") || Mentions(s, "environment") }

  /** The six questions are different texts. */
  lemma QuestionsDistinct()
    ensures forall a, b :: 0 <= a < b < 6 ==>
      [VoltageQuestion, RateQuestion, RangeQuestion, EnvironmentQuestion, SizeQuestion, LayerQuestion][a] !=
      [VoltageQuestion, RateQuestion, RangeQuestion, EnvironmentQuestion, SizeQuestion, LayerQuestion][b]
  {
    assert VoltageQuestion[5] == 's' && RateQuestion[5] == 'i' && RangeQuestion[5] == 'I';
    assert EnvironmentQuestion[0] == 'O' && SizeQuestion[0] == 'A' && LayerQuestion[0] == 'S';
    assert RateQuestion[0] == 'W' && VoltageQuestion[0] == 'W' && RangeQuestion[0] == 'W';
  }

  /** The questions asked: one for each topic the input leaves open, in the
    * order voltage, rate, range (only for an IR design), environment, then
    * the size and layer questions. */
  function ClarifyingQuestions(input: string): seq<string>
  {
    (if !VoltageMention(input) then [VoltageQuestion] else []) +
    (if !MentionsRate(input) then [RateQuestion] else []) +
    (if MentionsIr(input) && !MentionsRange(input) then [RangeQuestion] else []) +
    (if !MentionsEnvironment(input) then [EnvironmentQuestion] else []) + [SizeQuestion, LayerQuestion]
  }

  /** A topic's question is asked exactly when the input leaves the topic
    * open, and the size and layer questions always are. */
  lemma QuestionAskedIff(input: string)
    ensures VoltageQuestion in ClarifyingQuestions(input) <==> !VoltageMention(input)
    ensures RateQuestion in ClarifyingQuestions(input) <==> !MentionsRate(input)
    ensures RangeQuestion in ClarifyingQuestions(input) <==> MentionsIr(input) && !MentionsRange(input)
    ensures EnvironmentQuestion in ClarifyingQuestions(input) <==> !MentionsEnvironment(input)
    ensures SizeQuestion in ClarifyingQuestions(input) && LayerQuestion in ClarifyingQuestions(input)
  {
    QuestionsDistinct();
    var qs := ClarifyingQuestions(input);
    var all := [VoltageQuestion, RateQuestion, RangeQuestion, EnvironmentQuestion, SizeQuestion, LayerQuestion];
    assert VoltageQuestion == all[0] && RateQuestion == all[1] && RangeQuestion == all[2];
    assert EnvironmentQuestion == all[3] && SizeQuestion == all[4] && LayerQuestion == all[5];
  }

  /** generateClarifyingQuestions: up to four questions about what the
    * input leaves open, then the size and layer questions. */
  method GenerateClarifyingQuestions(input: string) returns (qs: seq<string>)
    ensures 2 <= |qs| <= 6
    ensures |qs| == 2 + (if VoltageMention(input) then 0 else 1) + (if MentionsRate(input) then 0 else 1) +
      (if !MentionsRange(input) && MentionsIr(input) then 1 else 0) + (if MentionsEnvironment(input) then 0 else 1)
    ensures qs[|qs| - 2..] == [SizeQuestion, LayerQuestion]
    ensures !VoltageMention(input) ==> qs[0] == VoltageQuestion
    ensures qs == ClarifyingQuestions(input)
  {
    var hasVoltage, hasRate := VoltageMention(input), MentionsRate(input);
    var askRange, hasEnvironment := !MentionsRange(input) && MentionsIr(input), MentionsEnvironment(input);
    qs := [];
    if !hasVoltage {
      qs := qs + [VoltageQuestion];
    }
    if !hasRate {
      qs := qs + [RateQuestion];
    }
    if askRange {
      qs := qs + [RangeQuestion];
    }
    if !hasEnvironment {
      qs := qs + [EnvironmentQuestion];
    }
    ghost var asked := qs;
    qs := qs + [SizeQuestion];
    qs := qs + [LayerQuestion];
    assert qs == asked + [SizeQuestion, LayerQuestion];
  }

  // ---------------------------------------------------------------------
  // generateNetlist
  // ---------------------------------------------------------------------

  datatype Net = Net(number: nat, name: string, nodes: seq<string>)

  /** `${conn.from?.component}:${conn.from?.pin}`. */
  function NodeText(e: Option<Endpoint>): string
  {
    if e.Some? then Shown(e.value.component) + ":" + Shown(e.value.pin) else "undefined:undefined"
  }

  /** `conn.signal || \`Net${idx + 1}\``. */
  function NetName(idx: nat, c: Connection): string
  {
    if c.signal.Some? && c.signal.value != "" then c.signal.value else "Net" + NatText.NatStr(idx + 1)
  }

  /** generateNetlist: net idx + 1 for connection idx, in order. */
  method GenerateNetlist(conns: seq<Connection>) returns (nets: seq<Net>)
    ensures |nets| == |conns|
    ensures forall i :: 0 <= i < |conns| ==> nets[i].number == i + 1 && nets[i].name == NetName(i, conns[i])
    ensures forall i :: 0 <= i < |conns| ==> nets[i].nodes == [NodeText(conns[i].from), NodeText(conns[i].to)]
  {
    nets := [];
    var idx := 0;
    while idx < |conns|
      invariant 0 <= idx <= |conns| && |nets| == idx
      invariant forall i :: 0 <= i < idx ==> nets[i].number == i + 1 && nets[i].name == NetName(i, conns[i])
      invariant forall i :: 0 <= i < idx ==> nets[i].nodes == [NodeText(conns[i].from), NodeText(conns[i].to)]
    {
      var conn := conns[idx];
      nets := nets + [Net(idx + 1, NetName(idx, conn), [NodeText(conn.from), NodeText(conn.to)])];
      idx := idx + 1;
    }
  }

  /** Connections without a signal get distinct generated names. */
  lemma UnnamedNetsDistinct(i: nat, j: nat, a: Connection, b: Connection)
    requires i != j && (a.signal.None? || a.signal == Some("")) && (b.signal.None? || b.signal == Some(""))
    ensures NetName(i, a) != NetName(j, b)
  {
    if NetName(i, a) == NetName(j, b) {
      NatText.PrefixedInjective("Net", i + 1, j + 1);
    }
  }

  // ---------------------------------------------------------------------
  // verifyCalculations
  // ---------------------------------------------------------------------

  datatype LedCheck = LedCheck(status: string, value: string)
  datatype SupplyCheck = SupplyCheck(status: string, tenthsMilliamp: nat, recommendation: string,
    warning: Option<string>)
  datatype CalcChecks = CalcChecks(ledResistor: Option<LedCheck>, powerSupply: Option<SupplyCheck>)

  const HeatWarning := "Consider heat dissipation and " + "trace widths"

  /** verifyCalculations: the recorded total is read back (in tenths of a
    * milliamp); OK below 1000 mA, a warning above 500 mA. */
  function VerifyCalculations(calcs: Calculations): (r: CalcChecks)
    ensures r.ledResistor.Some? <==> calcs.ledStandardValue.Some?
    ensures r.powerSupply.Some? <==> calcs.powerBudget.Some?
    ensures r.powerSupply.Some? ==> (r.powerSupply.value.status == "OK" <==> calcs.powerBudget.value.tenthsMilliamp < 10000)
    ensures r.powerSupply.Some? ==> (r.powerSupply.value.warning.Some? <==> calcs.powerBudget.value.tenthsMilliamp > 5000)
  {
    var led := if calcs.ledStandardValue.Some? then Some(LedCheck("OK", calcs.ledStandardValue.value)) else None;
    var supply := if calcs.powerBudget.None? then None else
      var b := calcs.powerBudget.value;
      Some(SupplyCheck(if b.tenthsMilliamp < 10000 then "OK" else "CHECK", b.tenthsMilliamp, b.supply,
        if b.tenthsMilliamp > 5000 then Some(HeatWarning) else None));
    CalcChecks(led, supply)
  }

  /** The check warns exactly when the generator recommended the 1 A supply:
    * both compare the same total with 500 mA. */
  lemma WarningAgreesWithSupply(cs: seq<Component>)
    ensures VerifyCalculations(PerformCalculations(cs)).powerSupply.Some?
    ensures VerifyCalculations(PerformCalculations(cs)).powerSupply.value.warning.Some? <==>
      PowerBudgetOf(cs).supply == "1A or higher"
  {
  }

  // ---------------------------------------------------------------------
  // checkBestPractices
  // ---------------------------------------------------------------------

  datatype PracticeChecks = PracticeChecks(passed: seq<string>, failed: seq<string>, suggestions: seq<string>)

  const DecouplingPassed := "Decoupling capacitors included"
  const DecouplingFailed := "Missing decoupling capacitors"
  const DecouplingSuggestion := "Add 0.1\U{B5}F ceramic capacitor " + "near each IC VCC pin"
  const BulkPassed := "Bulk filtering capacitor included"
  const BulkSuggestion := "Add 10-100\U{B5}F bulk capacitor " + "at power input"
  const TestPointSuggestion := "Add test points for VCC, GND, " + "and critical signals"
  const LabelSuggestion := "Label all connectors and pins " + "on silkscreen"

  /** A 0.1 µF or 100 nF capacitor. */
  predicate IsDecouplingCap(c: Component)
  {
    c.kind == "CAPACITOR" && (c.value == Some("0.1\U{B5}F") || c.value == Some("100nF"))
  }

  /** A capacitor whose value matches `/10.*µF|100.*µF/i`; an absent value
    * is compared as the text "undefined". */
  predicate IsBulkCapacitor(c: Component)
  {
    var v := Shown(c.value);
    c.kind == "CAPACITOR" && (FollowedOnLine(v, "10", "\U{B5}f") || FollowedOnLine(v, "100", "\U{B5}f"))
  }

  predicate HasDecoupling(cs: seq<Component>) { exists c :: c in cs && IsDecouplingCap(c) }
  predicate HasBulkCap(cs: seq<Component>) { exists c :: c in cs && IsBulkCapacitor(c) }

  /** checkBestPractices: each of the two capacitor checks passes or adds
    * a suggestion (a missing decoupling capacitor also fails), and the
    * test-point and labelling suggestions always close the list. */
  method CheckBestPractices(cs: seq<Component>) returns (r: PracticeChecks)
    ensures r.passed == (if HasDecoupling(cs) then [DecouplingPassed] else []) + (if HasBulkCap(cs) then [BulkPassed] else [])
    ensures r.failed == (if HasDecoupling(cs) then [] else [DecouplingFailed])
    ensures r.suggestions == (if HasDecoupling(cs) then [] else [DecouplingSuggestion]) +
      (if HasBulkCap(cs) then [] else [BulkSuggestion]) + [TestPointSuggestion, LabelSuggestion]
  {
    var hasDecoupling := HasDecoupling(cs);
    var hasBulkCap := HasBulkCap(cs);
    var passed: seq<string>, failed: seq<string>, suggestions: seq<string> := [], [], [];
    if hasDecoupling {
      passed := passed + [DecouplingPassed];
    } else {
      failed := failed + [DecouplingFailed];
      suggestions := suggestions + [DecouplingSuggestion];
    }
    if hasBulkCap {
      passed := passed + [BulkPassed];
    } else {
      suggestions := suggestions + [BulkSuggestion];
    }
    suggestions := suggestions + [TestPointSuggestion, LabelSuggestion];
    r := PracticeChecks(passed, failed, suggestions);
  }

  /** What the practice report says, read back: each check's outcome is
    * recoverable from the lists, every check either passes or suggests,
    * and the report has two or three entries besides the suggestions. */
  lemma PracticeOutcomes(cs: seq<Component>, r: PracticeChecks)
    requires r.passed == (if HasDecoupling(cs) then [DecouplingPassed] else []) + (if HasBulkCap(cs) then [BulkPassed] else [])
    requires r.failed == (if HasDecoupling(cs) then [] else [DecouplingFailed])
    requires r.suggestions == (if HasDecoupling(cs) then [] else [DecouplingSuggestion]) +
      (if HasBulkCap(cs) then [] else [BulkSuggestion]) + [TestPointSuggestion, LabelSuggestion]
    ensures DecouplingPassed in r.passed <==> HasDecoupling(cs)
    ensures BulkPassed in r.passed <==> HasBulkCap(cs)
    ensures 2 <= |r.suggestions| <= 4
    ensures |r.passed| + |r.failed| + |r.suggestions| == 4 + (if HasDecoupling(cs) then 0 else 1)
  {
    assert DecouplingPassed != BulkPassed by {
      assert DecouplingPassed[0] != BulkPassed[0];
    }
  }

  // ---------------------------------------------------------------------
  // findDetailedIssues
  // ---------------------------------------------------------------------

  /** A detailed issue: a warning per required passive, an error per
    * connection issue. */
  datatype Issue =
    | PassiveWarning(component: string, issue: string, location: string, reason: string)
    | ConnectionError(connection: string, issue: string)

  /** `comp.component.name || comp.component.model`. */
  function Designation(c: Component): string
  {
    if c.name != "" then c.name else c.model
  }

  function PassiveIssue(c: Component, p: Passive): Issue
  {
    PassiveWarning(Designation(c), "Requires " + p.kind + " " + p.value, p.placement, p.purpose)
  }

  /** The warnings for one analysed component: none when it has no
    * requirements record. */
  function PassiveIssues(a: ComponentAnalysis): seq<Issue>
  {
    if a.requirements.None? then [] else
      seq(|a.requirements.value.required|, k requires 0 <= k < |a.requirements.value.required| =>
      PassiveIssue(a.component, a.requirements.value.required[k]))
  }

  /** `${from?.component} → ${to?.component}`. */
  function ConnectionText(c: Connection): string
  {
    (if c.from.Some? then Shown(c.from.value.component) else "undefined") + " \U{2192} " +
    (if c.to.Some? then Shown(c.to.value.component) else "undefined")
  }

  function ConnectionIssues(a: ConnectionAnalysis): seq<Issue>
  {
    seq(|a.validation.issues|, k requires 0 <= k < |a.validation.issues| =>
      ConnectionError(ConnectionText(a.connection), a.validation.issues[k]))
  }

  /** All component warnings, in component order. */
  function AllPassiveIssues(cas: seq<ComponentAnalysis>): seq<Issue>
  {
    if |cas| == 0 then [] else AllPassiveIssues(cas[..|cas| - 1]) + PassiveIssues(cas[|cas| - 1])
  }

  /** All connection errors, in connection order. */
  function AllConnectionIssues(cns: seq<ConnectionAnalysis>): seq<Issue>
  {
    if |cns| == 0 then [] else AllConnectionIssues(cns[..|cns| - 1]) + ConnectionIssues(cns[|cns| - 1])
  }

  lemma AllPassiveIssuesStep(cas: seq<ComponentAnalysis>, i: nat)
    requires i < |cas|
    ensures AllPassiveIssues(cas[..i + 1]) == AllPassiveIssues(cas[..i]) + PassiveIssues(cas[i])
  {
    assert cas[..i + 1][..i] == cas[..i];
  }

  lemma AllConnectionIssuesStep(cns: seq<ConnectionAnalysis>, i: nat)
    requires i < |cns|
    ensures AllConnectionIssues(cns[..i + 1]) == AllConnectionIssues(cns[..i]) + ConnectionIssues(cns[i])
  {
    assert cns[..i + 1][..i] == cns[..i];
  }

  /** The inner forEach over one component's required passives. */
  method PushPassiveIssues(issues0: seq<Issue>, a: ComponentAnalysis) returns (issues: seq<Issue>)
    ensures issues == issues0 + PassiveIssues(a)
  {
    issues := issues0;
    if a.requirements.Some? {
      var required := a.requirements.value.required;
      var k := 0;
      while k < |required|
        invariant 0 <= k <= |required| && |issues| == |issues0| + k
        invariant issues[..|issues0|] == issues0
        invariant forall m :: 0 <= m < k ==> issues[|issues0| + m] == PassiveIssue(a.component, required[m])
      {
        issues := issues + [PassiveIssue(a.component, required[k])];
        k := k + 1;
      }
    }
  }

  /** The inner forEach over one connection's issues. */
  method PushConnectionIssues(issues0: seq<Issue>, a: ConnectionAnalysis) returns (issues: seq<Issue>)
    ensures issues == issues0 + ConnectionIssues(a)
  {
    issues := issues0;
    var found := a.validation.issues;
    var k := 0;
    while k < |found|
      invariant 0 <= k <= |found| && |issues| == |issues0| + k
      invariant issues[..|issues0|] == issues0
      invariant forall m :: 0 <= m < k ==> issues[|issues0| + m] == ConnectionError(ConnectionText(a.connection), found[m])
    {
      issues := issues + [ConnectionError(ConnectionText(a.connection), found[k])];
      k := k + 1;
    }
  }

  /** findDetailedIssues: the component loop, then the connection loop. */
  method FindDetailedIssues(cas: seq<ComponentAnalysis>, cns: seq<ConnectionAnalysis>) returns (issues: seq<Issue>)
    ensures issues == AllPassiveIssues(cas) + AllConnectionIssues(cns)
  {
    issues := [];
    var i := 0;
    while i < |cas|
      invariant 0 <= i <= |cas| && issues == AllPassiveIssues(cas[..i])
    {
      AllPassiveIssuesStep(cas, i);
      issues := PushPassiveIssues(issues, cas[i]);
      i := i + 1;
    }
    assert cas[..i] == cas;
    ghost var warnings := issues;
    var j := 0;
    while j < |cns|
      invariant 0 <= j <= |cns| && issues == warnings + AllConnectionIssues(cns[..j])
    {
      AllConnectionIssuesStep(cns, j);
      issues := PushConnectionIssues(issues, cns[j]);
      j := j + 1;
    }
    assert cns[..j] == cns;
  }

  /** Every component issue is a warning, counted one per required passive. */
  lemma {:induction false} PassiveIssuesAreWarnings(cas: seq<ComponentAnalysis>)
    ensures forall x :: x in AllPassiveIssues(cas) ==> x.PassiveWarning?
  {
    if |cas| > 0 {
      PassiveIssuesAreWarnings(cas[..|cas| - 1]);
    }
  }

  /** Every connection issue is an error. */
  lemma {:induction false} ConnectionIssuesAreErrors(cns: seq<ConnectionAnalysis>)
    ensures forall x :: x in AllConnectionIssues(cns) ==> x.ConnectionError?
  {
    if |cns| > 0 {
      ConnectionIssuesAreErrors(cns[..|cns| - 1]);
    }
  }

  /** All warnings come before all errors. */
  lemma WarningsBeforeErrors(cas: seq<ComponentAnalysis>, cns: seq<ConnectionAnalysis>, i: nat, j: nat)
    requires i < j < |AllPassiveIssues(cas) + AllConnectionIssues(cns)|
    requires (AllPassiveIssues(cas) + AllConnectionIssues(cns))[i].ConnectionError?
    ensures (AllPassiveIssues(cas) + AllConnectionIssues(cns))[j].ConnectionError?
  {
    var w: seq<Issue>, e: seq<Issue> := AllPassiveIssues(cas), AllConnectionIssues(cns);
    PassiveIssuesAreWarnings(cas);
    ConnectionIssuesAreErrors(cns);
    forall k | 0 <= k < |w|
      ensures (w + e)[k].PassiveWarning?
    {
      assert (w + e)[k] == w[k];
      assert w[k] in w;
    }
    assert (w + e)[j] == e[j - |w|];
    assert e[j - |w|] in e;
  }

  /** The error count is the number of connection issues: one per
    * connection into an unguarded MOSFET gate. */
  lemma {:induction false} ErrorCount(conns: seq<Connection>)
    ensures |AllConnectionIssues(AnalyzeConnections(conns))| == |Filter(conns, UnguardedGate)|
  {
    if |conns| > 0 {
      var n := |conns| - 1;
      var a := AnalyzeConnections(conns);
      AnalyzeConnectionsAppend(conns[..n], [conns[n]]);
      assert conns == conns[..n] + [conns[n]];
      assert a[..n] == AnalyzeConnections(conns[..n]);
      ErrorCount(conns[..n]);
      FilterSnoc(conns[..n], conns[n], UnguardedGate);
    }
  }
}
