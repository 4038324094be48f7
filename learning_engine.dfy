/** The self-improvement loop's bookkeeping (ai-easyeda-compiler/learning-engine.js):
  * a nine-check quality score out of 100, letter grades, the design
  * metrics counters, per-reason failure counting with rule generation,
  * the quality trend over the last five evaluations and the automatic
  * improvement suggestions. */
module LearningEngine {
  import opened Wrappers
  import opened Strings
  import opened Seqs
  import NatText

  // ---------------------------------------------------------------------
  // The checks
  // ---------------------------------------------------------------------

  /** A schematic component as the checks read it: `c.name` and `c.value`,
    * None when absent (`c.name?.includes(...)` is then undefined, i.e. false). */
  datatype Part = Part(name: Option<string>, value: Option<string>)

  predicate NameHas(c: Part, p: string) { c.name.Some? && Contains(c.name.value, p) }
  predicate ValueHas(c: Part, p: string) { c.value.Some? && Contains(c.value.value, p) }

  predicate IcLike(c: Part) { NameHas(c, "IC") || NameHas(c, "MCU") }
  predicate CapLike(c: Part) { NameHas(c, "CAP") || ValueHas(c, "nF") || ValueHas(c, "\U{B5}F") }
  predicate ResistorLike(c: Part) { NameHas(c, "R") || ValueHas(c, "\U{3A9}") }
  predicate DiodeLike(c: Part) { NameHas(c, "D") || NameHas(c, "TVS") }
  predicate ShiftRegisterLike(c: Part) { NameHas(c, "595") || NameHas(c, "SHIFT") }

  /** checkDecoupling: `components` is `schematic.components`, None when the
    * schematic or its component list is missing; then the check fails. */
  function CheckDecoupling(components: Option<seq<Part>>): bool
  {
    components.Some? && |Filter(components.value, IcLike)| <= |Filter(components.value, CapLike)|
  }

  /** checkEMIMitigation, checkESDProtection and checkScalability: some
    * component of the given kind is present. */
  function AnyPresent(components: Option<seq<Part>>, kind: Part -> bool): bool
  {
    components.Some? && |Filter(components.value, kind)| > 0
  }

  /** A schematic without ICs passes the decoupling check, even with no
    * components at all; only a missing component list fails outright. */
  lemma DecouplingWithoutIcs(parts: seq<Part>)
    requires forall c :: c in parts ==> !IcLike(c)
    ensures CheckDecoupling(Some(parts))
  {
    FilterNone(parts, IcLike);
  }

  /** Adding a capacitor that is not itself IC-like keeps a passing design
    * passing; adding an IC that is not capacitor-like to a design with as
    * many capacitors as ICs makes it fail. */
  lemma DecouplingStep(parts: seq<Part>, c: Part)
    ensures CapLike(c) && !IcLike(c) && CheckDecoupling(Some(parts)) ==> CheckDecoupling(Some(parts + [c]))
    ensures IcLike(c) && !CapLike(c) && |Filter(parts, IcLike)| == |Filter(parts, CapLike)| ==>
      !CheckDecoupling(Some(parts + [c]))
  {
    FilterSnoc(parts, c, IcLike);
    FilterSnoc(parts, c, CapLike);
  }

  /** The presence checks hold exactly when some component is of the kind. */
  lemma AnyPresentSpec(components: Option<seq<Part>>, kind: Part -> bool)
    ensures AnyPresent(components, kind) <==> components.Some? && exists c :: c in components.value && kind(c)
  {
    if components.Some? {
      FilterSpec(components.value, kind);
      var f := Filter(components.value, kind);
      if |f| > 0 {
        assert f[0] in f;
      }
    }
  }

  // ---------------------------------------------------------------------
  // evaluateDesign
  // ---------------------------------------------------------------------

  /** The outcome of the nine checks, in evaluation order. */
  datatype Checks = Checks(
    decoupling: bool, derating: bool, headroom: bool, industrial: bool,
    emi: bool, esd: bool, thermal: bool, lcsc: bool, scalability: bool)

  /** The checks as the source implements them: the derating, headroom,
    * industrial, thermal and LCSC checks are placeholders that always pass
    * (they ignore the BOM). */
  function RunChecks(components: Option<seq<Part>>): Checks
  {
    Checks(CheckDecoupling(components), true, true, true,
      AnyPresent(components, ResistorLike), AnyPresent(components, DiodeLike),
      true, true, AnyPresent(components, ShiftRegisterLike))
  }

  /** What one check earns. */
  function Points(pass: bool, weight: nat): nat
  {
    if pass then weight else 0
  }

  /** The score: 10 points per check, 15 for derating and industrial grade. */
  function Score(c: Checks): nat
  {
    Points(c.decoupling, 10) + Points(c.derating, 15) + Points(c.headroom, 10) +
    Points(c.industrial, 15) + Points(c.emi, 10) + Points(c.esd, 10) +
    Points(c.thermal, 10) + Points(c.lcsc, 10) + Points(c.scalability, 10)
  }

  /** The points available: the sum of all nine weights. */
  const MaxScore: nat := 10 + 15 + 10 + 15 + 10 + 10 + 10 + 10 + 10

  predicate AllPass(c: Checks)
  {
    c.decoupling && c.derating && c.headroom && c.industrial && c.emi && c.esd &&
    c.thermal && c.lcsc && c.scalability
  }

  /** The number of failing checks. */
  function FailCount(c: Checks): nat
  {
    Points(!c.decoupling, 1) + Points(!c.derating, 1) + Points(!c.headroom, 1) +
    Points(!c.industrial, 1) + Points(!c.emi, 1) + Points(!c.esd, 1) +
    Points(!c.thermal, 1) + Points(!c.lcsc, 1) + Points(!c.scalability, 1)
  }

  const DecouplingIssue := "Add 0.1\U{B5}F ceramic capacitors near all IC VCC pins"
  const LcscIssue := "Add LCSC part numbers for all components"
  const DeratingAdvice := "Use 16V capacitors for 5V rails (3.2\U{D7} margin)"
  const HeadroomAdvice := "Add 20-50% current headroom for reliability"
  const IndustrialAdvice := "Upgrade to industrial temperature range " + "(-40\U{B0}C to +85\U{B0}C)"
  const EmiAdvice := "Add series resistors, ferrite beads, or RC filters"
  const EsdAdvice := "Add TVS diodes on USB, connectors, external I/O"
  const ThermalAdvice := "Add thermal vias under power components"
  const ScalabilityAdvice := "Design for cascading shift registers " + "/ modular expansion"

  /** The note one check leaves: none when it passes. */
  function NoteIf(pass: bool, note: string): seq<string>
  {
    if pass then [] else [note]
  }

  /** The issues: a missing decoupling capacitor and missing LCSC numbers. */
  function Issues(c: Checks): seq<string>
  {
    NoteIf(c.decoupling, DecouplingIssue) + NoteIf(c.lcsc, LcscIssue)
  }

  /** The recommendations of the other seven checks, in evaluation order. */
  function Recommendations(c: Checks): seq<string>
  {
    NoteIf(c.derating, DeratingAdvice) + NoteIf(c.headroom, HeadroomAdvice) +
    NoteIf(c.industrial, IndustrialAdvice) + NoteIf(c.emi, EmiAdvice) +
    NoteIf(c.esd, EsdAdvice) + NoteIf(c.thermal, ThermalAdvice) +
    NoteIf(c.scalability, ScalabilityAdvice)
  }

  /** The evaluation record evaluateDesign returns. `grade` is computed on
    * the percentage score/maxScore·100, which is the score itself because
    * maxScore is always 100 and every score is a whole number. */
  datatype Evaluation = Evaluation(
    project: string, timestamp: string, checks: Checks,
    score: nat, maxScore: nat, issues: seq<string>, recommendations: seq<string>, grade: char)

  /** The grade thresholds on a percentage. */
  function Grade(percentage: int): char
  {
    if percentage >= 90 then 'A'
    else if percentage >= 80 then 'B'
    else if percentage >= 70 then 'C'
    else 'D'
  }

  function GradeRank(g: char): nat
  {
    if g == 'A' then 0 else if g == 'B' then 1 else if g == 'C' then 2 else 3
  }

  /** A higher percentage never earns a worse grade, and a design counts
    * as successful (80 or more) exactly when its grade is A or B. */
  lemma GradeMonotone(p: int, q: int)
    requires p <= q
    ensures GradeRank(Grade(q)) <= GradeRank(Grade(p))
    ensures (p >= 80) <==> Grade(p) in {'A', 'B'}
  {
  }

  /** The evaluation evaluateDesign builds for a schematic. */
  function Evaluate(project: string, now: string, components: Option<seq<Part>>): Evaluation
  {
    var c := RunChecks(components);
    Evaluation(project, now, c, Score(c), MaxScore, Issues(c), Recommendations(c), Grade(Score(c)))
  }

  /** maxScore is 100; the score lies between 0 and 100, is a multiple of
    * 5, and is 100 exactly when every check passes; every failing check
    * leaves exactly one issue or recommendation. */
  lemma EvaluateSpec(project: string, now: string, components: Option<seq<Part>>)
    ensures var e := Evaluate(project, now, components);
      e.maxScore == 100 && e.score <= e.maxScore && e.score % 5 == 0 &&
      (e.score == e.maxScore <==> AllPass(e.checks)) &&
      |e.issues| + |e.recommendations| == FailCount(e.checks)
  {
  }

  /** Whatever the schematic, the placeholder checks pass: only the
    * decoupling, EMI, ESD and scalability checks can cost points, and the
    * only issue evaluateDesign can raise is the decoupling one. */
  lemma PlaceholdersPass(project: string, now: string, components: Option<seq<Part>>)
    ensures var e := Evaluate(project, now, components);
      e.score >= 60 && e.recommendations == NoteIf(e.checks.emi, EmiAdvice) +
        NoteIf(e.checks.esd, EsdAdvice) + NoteIf(e.checks.scalability, ScalabilityAdvice) &&
      e.issues == NoteIf(e.checks.decoupling, DecouplingIssue)
  {
  }

  // ---------------------------------------------------------------------
  // Metrics
  // ---------------------------------------------------------------------

  datatype Metrics = Metrics(
    totalDesigns: nat, successfulDesigns: nat, failedDesigns: nat,
    componentsLearned: nat, patternsPromoted: nat, rulesGenerated: nat, improvementsMade: nat)

  const NoMetrics := Metrics(0, 0, 0, 0, 0, 0, 0)

  predicate Balanced(m: Metrics) { m.totalDesigns == m.successfulDesigns + m.failedDesigns }

  /** The metrics update at the end of evaluateDesign. */
  function Recorded(m: Metrics, percentage: int): Metrics
  {
    if percentage >= 80 then m.(totalDesigns := m.totalDesigns + 1, successfulDesigns := m.successfulDesigns + 1)
    else m.(totalDesigns := m.totalDesigns + 1, failedDesigns := m.failedDesigns + 1)
  }

  /** The metrics after evaluating designs with the given scores in turn. */
  function RecordedAll(m: Metrics, scores: seq<int>): Metrics
  {
    if |scores| == 0 then m else Recorded(RecordedAll(m, scores[..|scores| - 1]), scores[|scores| - 1])
  }

  predicate Succeeded(p: int) { p >= 80 }
  predicate Failed(p: int) { p < 80 }

  /** From fresh metrics, totalDesigns counts the evaluations and
    * total = successful + failed throughout; evaluations generate no rules. */
  lemma {:induction false} RecordedAllBalanced(scores: seq<int>)
    ensures var m := RecordedAll(NoMetrics, scores);
      m.totalDesigns == |scores| && Balanced(m) && m.rulesGenerated == 0 && m.improvementsMade == 0
  {
    if |scores| > 0 {
      RecordedAllBalanced(scores[..|scores| - 1]);
    }
  }

  /** successfulDesigns counts the evaluations at or above 80 and
    * failedDesigns the ones below. */
  lemma {:induction false} RecordedAllCounts(scores: seq<int>)
    ensures var m := RecordedAll(NoMetrics, scores);
      m.successfulDesigns == |Filter(scores, Succeeded)| && m.failedDesigns == |Filter(scores, Failed)|
  {
    if |scores| > 0 {
      RecordedAllCounts(scores[..|scores| - 1]);
    }
  }

  // ---------------------------------------------------------------------
  // Failure patterns and generated rules
  // ---------------------------------------------------------------------

  /** `failure.feedback?.reason || 'Unknown'`: a missing or empty reason
    * counts as 'Unknown'. */
  function ReasonOf(r: Option<string>): (s: string)
    ensures |s| > 0
  {
    if r.Some? && r.value != "" then r.value else "Unknown"
  }

  function Reasons(failures: seq<Option<string>>): (rs: seq<string>)
    ensures |rs| == |failures|
  {
    seq(|failures|, i requires 0 <= i < |failures| => ReasonOf(failures[i]))
  }

  function Occurrences(xs: seq<string>, k: string): nat
  {
    if |xs| == 0 then 0 else Occurrences(xs[..|xs| - 1], k) + (if xs[|xs| - 1] == k then 1 else 0)
  }

  lemma OccurrencesSnoc(xs: seq<string>, x: string, k: string)
    ensures Occurrences(xs + [x], k) == Occurrences(xs, k) + (if x == k then 1 else 0)
  {
    assert (xs + [x])[..|xs|] == xs;
  }

  /** The failurePatterns Map's counts after the reasons `rs`, one
    * `set(reason, (get(reason) || 0) + 1)` each. */
  function CountsOf(rs: seq<string>): map<string, nat>
  {
    if |rs| == 0 then map[]
    else
      var m := CountsOf(rs[..|rs| - 1]);
      var r := rs[|rs| - 1];
      m[r := (if r in m then m[r] else 0) + 1]
  }

  lemma CountsOfStep(rs: seq<string>, i: nat)
    requires i < |rs|
    ensures CountsOf(rs[..i + 1]) ==
      CountsOf(rs[..i])[rs[i] := (if rs[i] in CountsOf(rs[..i]) then CountsOf(rs[..i])[rs[i]] else 0) + 1]
  {
    assert rs[..i + 1][..i] == rs[..i];
  }

  /** The Map holds exactly the reasons seen, each with its number of
    * occurrences. */
  lemma {:induction false} CountsOfSpec(rs: seq<string>)
    ensures forall k :: k in CountsOf(rs) <==> k in rs
    ensures forall k :: k in CountsOf(rs) ==> CountsOf(rs)[k] == Occurrences(rs, k)
  {
    if |rs| > 0 {
      var n := |rs| - 1;
      CountsOfSpec(rs[..n]);
      assert rs == rs[..n] + [rs[n]];
      forall k
        ensures Occurrences(rs, k) == Occurrences(rs[..n], k) + (if rs[n] == k then 1 else 0)
      {
        OccurrencesSnoc(rs[..n], rs[n], k);
      }
      if rs[n] !in rs[..n] {
        OccurrencesPositive(rs[..n], rs[n]);
      }
    }
  }

  /** Counting one element further along a sequence. */
  lemma OccurrencesPrefixStep(xs: seq<string>, i: nat, k: string)
    requires i < |xs|
    ensures Occurrences(xs[..i + 1], k) == Occurrences(xs[..i], k) + (if xs[i] == k then 1 else 0)
  {
    assert xs[..i + 1][..i] == xs[..i];
  }

  /** A reason is counted at least once exactly when it occurs. */
  lemma {:induction false} OccurrencesPositive(xs: seq<string>, k: string)
    ensures Occurrences(xs, k) > 0 <==> k in xs
  {
    if |xs| > 0 {
      var n := |xs| - 1;
      OccurrencesPositive(xs[..n], k);
      assert xs == xs[..n] + [xs[n]];
    }
  }

  /** The failurePatterns Map as (reason, count) pairs in insertion order. */
  function Tally(rs: seq<string>): seq<(string, nat)>
  {
    var order := Dedupe(rs);
    seq(|order|, j requires 0 <= j < |order| => (order[j], Occurrences(rs, order[j])))
  }

  /** The (reason, count) pairs of a recorded order and count map. */
  function PairsOf(order: seq<string>, counts: map<string, nat>): seq<(string, nat)>
    requires forall k :: k in order ==> k in counts
  {
    seq(|order|, j requires 0 <= j < |order| => (order[j], counts[order[j]]))
  }

  /** What CountFailures records is the tally of the reasons. */
  lemma TallyOfCounts(failures: seq<Option<string>>, order: seq<string>, counts: map<string, nat>)
    requires order == Dedupe(Reasons(failures))
    requires forall k :: k in counts <==> k in order
    requires forall k :: k in counts ==> counts[k] == Occurrences(Reasons(failures), k)
    ensures Tally(Reasons(failures)) == PairsOf(order, counts)
  {
  }

  /** A rule is generated for a count of 3 or more (the source comment says
    * "more than 3"; the code compares with >= 3). */
  predicate Repeats(p: (string, nat)) { p.1 >= 3 }

  /** The reasons (with their counts) that get a rule, in Map order. */
  function Repeated(failures: seq<Option<string>>): seq<(string, nat)>
  {
    Filter(Tally(Reasons(failures)), Repeats)
  }

  /** The reasons that get a rule are exactly the distinct reasons that
    * occur at least three times, each listed once with its count. */
  lemma RepeatedSpec(failures: seq<Option<string>>)
    ensures var rs := Reasons(failures);
      forall p: (string, nat) :: p in Repeated(failures) <==> p.0 in rs && p.1 == Occurrences(rs, p.0) && p.1 >= 3
  {
    var rs := Reasons(failures);
    var t := Tally(rs);
    FilterSpec(t, Repeats);
    DedupeSpec(rs);
    forall p: (string, nat) | p.0 in rs && p.1 == Occurrences(rs, p.0) && p.1 >= 3 ensures p in t {
      var j :| 0 <= j < |Dedupe(rs)| && Dedupe(rs)[j] == p.0;
      assert t[j] == p;
    }
  }

  const RulesHeader := "# Auto-Generated Rules from Failures\n\n" + "**Purpose:** Prevent repeated " + "design failures\n\n---\n\n"

  /** `count >= 5 ? 'CRITICAL' : 'HIGH'`. */
  function Severity(count: nat): string
  {
    if count >= 5 then "CRITICAL" else "HIGH"
  }

  const VoltageSteps := "- Increase voltage derating to 3\U{D7} (was 2\U{D7})\n" +
    "- Use 16V capacitors for 5V rails\n" + "- Add margin analysis to BOM\n"
  const CurrentSteps := "- Increase current headroom to 50% (was 20%)\n" +
    "- Calculate worst-case current budget\n" + "- Size power supply for 1.5\U{D7} expected load\n"
  const ThermalSteps := "- Add thermal vias for all power components\n" +
    "- Calculate junction temperature for worst-case\n" + "- Use thermal relief pads on ground plane\n"
  const GeneralSteps := "- Review and apply industrial design standards\n"

  /** The prevention steps: the first of 'voltage', 'current', 'thermal'
    * (case-sensitive) that the reason contains decides. */
  function Prevention(reason: string): string
  {
    if Contains(reason, "voltage") then VoltageSteps
    else if Contains(reason, "current") then CurrentSteps
    else if Contains(reason, "thermal") then ThermalSteps
    else GeneralSteps
  }

  const ObservedLabel := "\n\n**Observed:** "
  const GeneratedLabel := " times\n**Generated:** "
  const SeverityLabel := "\n**Severity:** "
  const PreventionLabel := "\n\n### Prevention:\n"
  const RuleFooter := "\n---\n\n"

  /** The heading of rule number `n`. */
  function RuleTitle(n: nat, reason: string): string
  {
    "## Rule #" + NatText.NatStr(n) + ": " + reason
  }

  /** The section generateRuleFromFailure appends for rule number `n`. */
  function RuleEntry(n: nat, reason: string, count: nat, now: string): string
  {
    RuleTitle(n, reason) + RuleDetails(reason, count, now)
  }

  function RuleDetails(reason: string, count: nat, now: string): string
  {
    ObservedLabel + NatText.NatStr(count) + GeneratedLabel + now + SeverityLabel + Severity(count) +
    PreventionLabel + Prevention(reason) + RuleFooter
  }

  /** The rule file an append starts from: its content, or the header. */
  function RuleBase(file: Option<string>): string
  {
    if file.Some? then file.value else RulesHeader
  }

  /** The entry for the k-th rule of a run: rule k is written at `clock(k)`. */
  function RuleMaker(clock: nat -> string): (nat, (string, nat)) -> string
  {
    (k: nat, p: (string, nat)) => RuleEntry(k, p.0, p.1, clock(k))
  }

  /** The entries `entry` makes for `items`, numbered from `n + 1`. */
  function RuleEntries(n: nat, items: seq<(string, nat)>, entry: (nat, (string, nat)) -> string): string
  {
    if |items| == 0 then ""
    else
      var k := |items| - 1;
      RuleEntries(n, items[..k], entry) + entry(n + k + 1, items[k])
  }

  /** The rule file after generating rules for `items` in turn: untouched
    * when there are none, else its old content (or the header) followed by
    * the new entries. */
  function RulesAfter(file: Option<string>, n: nat, items: seq<(string, nat)>, entry: (nat, (string, nat)) -> string): Option<string>
  {
    if |items| == 0 then file else Some(RuleBase(file) + RuleEntries(n, items, entry))
  }

  /** One more entry at the end of a run. */
  lemma RuleEntriesSnoc(n: nat, items: seq<(string, nat)>, p: (string, nat), entry: (nat, (string, nat)) -> string)
    ensures RuleEntries(n, items + [p], entry) == RuleEntries(n, items, entry) + entry(n + |items| + 1, p)
  {
    assert (items + [p])[..|items|] == items;
  }

  /** One more generated rule is one more append to the file as it stands. */
  lemma RulesAfterSnoc(file: Option<string>, n: nat, items: seq<(string, nat)>, p: (string, nat),
                       entry: (nat, (string, nat)) -> string)
    ensures RulesAfter(file, n, items + [p], entry) ==
      Some(RuleBase(RulesAfter(file, n, items, entry)) + entry(n + |items| + 1, p))
  {
    RuleEntriesSnoc(n, items, p, entry);
    if |items| > 0 {
      AppendAssoc3(RuleBase(file), RuleEntries(n, items, entry), entry(n + |items| + 1, p));
    } else {
      var e := entry(n + |items| + 1, p);
      assert RuleEntries(n, items + [p], entry) == "" + e == e;
      assert RulesAfter(file, n, items, entry) == file;
    }
  }

  /** Appending the next rule entry to the file after `items` gives the
    * file after `items + [p]`. */
  lemma RuleAppended(file: Option<string>, n: nat, items: seq<(string, nat)>, p: (string, nat),
                     clock: nat -> string, before: Option<string>, after: Option<string>)
    requires before == RulesAfter(file, n, items, RuleMaker(clock))
    requires after == Some(RuleBase(before) + RuleEntry(n + |items| + 1, p.0, p.1, clock(n + |items| + 1)))
    ensures after == RulesAfter(file, n, items + [p], RuleMaker(clock))
  {
    RulesAfterSnoc(file, n, items, p, RuleMaker(clock));
  }

  /** Generating rules only appends: whatever the file held (or the header
    * the first rule writes) stays at its front. */
  lemma RulesAppendOnly(file: Option<string>, n: nat, items: seq<(string, nat)>, entry: (nat, (string, nat)) -> string)
    ensures |items| > 0 ==> RulesAfter(file, n, items, entry).Some?
    ensures |items| > 0 ==> StartsWith(RulesAfter(file, n, items, entry).value, RuleBase(file))
  {
    StartsWithConcat(RuleBase(file), RuleEntries(n, items, entry));
  }

  /** The metrics after `k` more generated rules, each counted as an
    * improvement. */
  function RulesAdded(m: Metrics, k: nat): Metrics
  {
    m.(rulesGenerated := m.rulesGenerated + k, improvementsMade := m.improvementsMade + k)
  }

  /** The severity is CRITICAL exactly from five occurrences on, and the
    * entry opens with its rule number and reason. */
  lemma RuleEntryShape(n: nat, reason: string, count: nat, now: string)
    ensures Severity(count) == "CRITICAL" <==> count >= 5
    ensures StartsWith(RuleEntry(n, reason, count, now), RuleTitle(n, reason))
  {
    StartsWithConcat(RuleTitle(n, reason), RuleDetails(reason, count, now));
  }

  // ---------------------------------------------------------------------
  // Quality trend and improvement suggestions
  // ---------------------------------------------------------------------

  datatype Trend = Improving | Declining | Stable

  /** `qualityScores.slice(-5)`. */
  function Recent(es: seq<Evaluation>): (r: seq<Evaluation>)
    ensures |r| == if |es| <= 5 then |es| else 5
  {
    if |es| <= 5 then es else es[|es| - 5..]
  }

  /** trackQualityTrend: None ("need at least 2 designs") for fewer than two
    * evaluations, else the change from the first to the last of the recent
    * five, on percentages that equal the scores since maxScore is 100. */
  function QualityTrend(es: seq<Evaluation>): Option<Trend>
  {
    if |es| < 2 then None
    else
      var r := Recent(es);
      var change := r[|r| - 1].score - r[0].score;
      Some(if change > 10 then Improving else if change < -10 then Declining else Stable)
  }

  /** Only the last five evaluations matter; older history is ignored,
    * and the verdict compares the newest with the fifth newest. */
  lemma TrendWindow(older: seq<Evaluation>, es: seq<Evaluation>)
    requires |es| >= 5
    ensures QualityTrend(older + es) == QualityTrend(es)
    ensures QualityTrend(es).value == Improving <==> es[|es| - 1].score > es[|es| - 5].score + 10
  {
    var all := older + es;
    assert all[|all| - 5..] == es[|es| - 5..];
  }

  /** An improvement suggestion; `impact` is the number of points promised. */
  datatype Improvement = Improvement(priority: string, action: string, reason: string, impact: nat)

  const DecouplingFix := Improvement("CRITICAL", "Add 0.1\U{B5}F decoupling capacitors",
    "All ICs must have local decoupling", 10)
  const DeratingFix := Improvement("HIGH", "Increase voltage derating to 2\U{D7}", "Reliability requirement", 15)

  /** suggestImprovements: suggestions only below a score of 80, for a
    * failed decoupling check and a failed derating check, in that order. */
  function Suggestions(e: Evaluation): seq<Improvement>
  {
    if e.score < 80 then
      (if !e.checks.decoupling then [DecouplingFix] else []) + (if !e.checks.derating then [DeratingFix] else [])
    else []
  }

  function Impact(xs: seq<Improvement>): nat
  {
    if |xs| == 0 then 0 else Impact(xs[..|xs| - 1]) + xs[|xs| - 1].impact
  }

  /** For an evaluation evaluateDesign produces, the suggestions never
    * promise more points than the design is missing: each one names a
    * failed check with that check's weight. The derating suggestion never
    * appears, since the derating check always passes. */
  lemma SuggestionsWithinMissing(project: string, now: string, components: Option<seq<Part>>)
    ensures var e := Evaluate(project, now, components);
      e.score + Impact(Suggestions(e)) <= e.maxScore &&
      DeratingFix !in Suggestions(e) &&
      (Suggestions(e) == [DecouplingFix] <==> e.score < 80 && !e.checks.decoupling)
  {
    var e := Evaluate(project, now, components);
    if e.score < 80 && !e.checks.decoupling {
      assert Suggestions(e) == [DecouplingFix];
      assert Impact([DecouplingFix]) == 10;
    }
  }

  // ---------------------------------------------------------------------
  // The engine
  // ---------------------------------------------------------------------

  /** The engine's state: the metrics record (replaced by the stored one
    * when design-metrics.json exists), the evaluations of this run, and
    * the AUTO_FAILURE_RULES.md file (None while it does not exist). */
  class LearningEngine {
    var metrics: Metrics
    var qualityScores: seq<Evaluation>
    var ruleFile: Option<string>

    constructor(stored: Option<Metrics>, rules: Option<string>)
      ensures metrics == stored.GetOr(NoMetrics) && qualityScores == [] && ruleFile == rules
    {
      metrics := stored.GetOr(NoMetrics);
      qualityScores := [];
      ruleFile := rules;
    }

    /** evaluateDesign: run the nine checks, accumulate score and maxScore,
      * collect issues and recommendations, grade, and record the outcome. */
    method EvaluateDesign(project: string, now: string, components: Option<seq<Part>>) returns (e: Evaluation)
      modifies this
      ensures e == Evaluate(project, now, components)
      ensures qualityScores == old(qualityScores) + [e]
      ensures metrics == Recorded(old(metrics), e.score)
      ensures ruleFile == old(ruleFile)
    {
      var score, maxScore := 0, 0;
      var issues, recommendations := [], [];

      var hasDecoupling := CheckDecoupling(components);
      maxScore := maxScore + 10;
      if hasDecoupling { score := score + 10; } else { issues := issues + [DecouplingIssue]; }
      assert score == Points(hasDecoupling, 10) && issues == NoteIf(hasDecoupling, DecouplingIssue);

      var hasDerating := true;
      maxScore := maxScore + 15;
      if hasDerating { score := score + 15; } else { recommendations := recommendations + [DeratingAdvice]; }
      ghost var recs := NoteIf(hasDerating, DeratingAdvice);
      assert recommendations == recs;

      var hasHeadroom := true;
      maxScore := maxScore + 10;
      if hasHeadroom { score := score + 10; } else { recommendations := recommendations + [HeadroomAdvice]; }
      recs := recs + NoteIf(hasHeadroom, HeadroomAdvice);
      assert recommendations == recs;

      var hasIndustrial := true;
      maxScore := maxScore + 15;
      if hasIndustrial { score := score + 15; } else { recommendations := recommendations + [IndustrialAdvice]; }
      recs := recs + NoteIf(hasIndustrial, IndustrialAdvice);
      assert recommendations == recs;

      var hasEmi := AnyPresent(components, ResistorLike);
      maxScore := maxScore + 10;
      if hasEmi { score := score + 10; } else { recommendations := recommendations + [EmiAdvice]; }
      recs := recs + NoteIf(hasEmi, EmiAdvice);
      assert recommendations == recs;

      var hasEsd := AnyPresent(components, DiodeLike);
      maxScore := maxScore + 10;
      if hasEsd { score := score + 10; } else { recommendations := recommendations + [EsdAdvice]; }
      recs := recs + NoteIf(hasEsd, EsdAdvice);
      assert recommendations == recs;

      var hasThermal := true;
      maxScore := maxScore + 10;
      if hasThermal { score := score + 10; } else { recommendations := recommendations + [ThermalAdvice]; }
      recs := recs + NoteIf(hasThermal, ThermalAdvice);
      assert recommendations == recs;

      var hasLcsc := true;
      maxScore := maxScore + 10;
      if hasLcsc { score := score + 10; } else { issues := issues + [LcscIssue]; }
      assert issues == NoteIf(hasDecoupling, DecouplingIssue) + NoteIf(hasLcsc, LcscIssue);

      var hasScalability := AnyPresent(components, ShiftRegisterLike);
      maxScore := maxScore + 10;
      if hasScalability { score := score + 10; } else { recommendations := recommendations + [ScalabilityAdvice]; }
      recs := recs + NoteIf(hasScalability, ScalabilityAdvice);
      assert recommendations == recs;

      var checks := Checks(hasDecoupling, hasDerating, hasHeadroom, hasIndustrial, hasEmi, hasEsd,
        hasThermal, hasLcsc, hasScalability);
      e := Evaluation(project, now, checks, score, maxScore, issues, recommendations, Grade(score));
      qualityScores := qualityScores + [e];
      metrics := Recorded(metrics, score);
    }

    /** generateRuleFromFailure: append the rule to the rule file (starting
      * from the header when the file does not exist yet), numbered after
      * the rules generated so far, and count it. */
    method GenerateRuleFromFailure(reason: string, count: nat, now: string)
      modifies this
      ensures ruleFile == Some(RuleBase(old(ruleFile)) + RuleEntry(old(metrics.rulesGenerated) + 1, reason, count, now))
      ensures metrics == RulesAdded(old(metrics), 1)
      ensures qualityScores == old(qualityScores)
    {
      var content := RuleBase(ruleFile);
      content := content + RuleEntry(metrics.rulesGenerated + 1, reason, count, now);
      ruleFile := Some(content);
      metrics := metrics.(rulesGenerated := metrics.rulesGenerated + 1, improvementsMade := metrics.improvementsMade + 1);
    }

    /** identifyRepeatedFailures: count the failures per reason, then, in
      * the Map's order, generate a rule for every reason seen 3 or more
      * times; `clock(k)` is the time at which rule number k is written. */
    method IdentifyRepeatedFailures(failures: seq<Option<string>>, clock: nat -> string)
      modifies this
      ensures metrics == RulesAdded(old(metrics), |Repeated(failures)|)
      ensures ruleFile == RulesAfter(old(ruleFile), old(metrics.rulesGenerated), Repeated(failures), RuleMaker(clock))
      ensures qualityScores == old(qualityScores)
    {
      var order, counts := CountFailures(failures);
      TallyOfCounts(failures, order, counts);
      GenerateRepeatedRules(order, counts, clock);
    }

    /** The loop over the counted reasons: a rule for each count of 3 or
      * more, in order. */
    method GenerateRepeatedRules(order: seq<string>, counts: map<string, nat>, clock: nat -> string)
      requires forall k :: k in order ==> k in counts
      modifies this
      ensures metrics == RulesAdded(old(metrics), |Filter(PairsOf(order, counts), Repeats)|)
      ensures ruleFile == RulesAfter(old(ruleFile), old(metrics.rulesGenerated),
        Filter(PairsOf(order, counts), Repeats), RuleMaker(clock))
      ensures qualityScores == old(qualityScores)
    {
      ghost var pairs := PairsOf(order, counts);
      ghost var n0 := metrics.rulesGenerated;
      ghost var done: seq<(string, nat)> := [];
      var j := 0;
      assert pairs[..0] == [];
      while j < |order|
        invariant 0 <= j <= |order|
        invariant done == Filter(pairs[..j], Repeats)
        invariant metrics == RulesAdded(old(metrics), |done|)
        invariant ruleFile == RulesAfter(old(ruleFile), n0, done, RuleMaker(clock))
        invariant qualityScores == old(qualityScores)
      {
        var reason := order[j];
        var count := counts[reason];
        assert pairs[j] == (reason, count);
        FilterPrefixStep(pairs, j, Repeats);
        assert Repeats(pairs[j]) == (count >= 3);
        if count >= 3 {
          ghost var before := ruleFile;
          GenerateRuleFromFailure(reason, count, clock(metrics.rulesGenerated + 1));
          RuleAppended(old(ruleFile), n0, done, (reason, count), clock, before, ruleFile);
          done := done + [pairs[j]];
        }
        j := j + 1;
      }
      assert pairs[..j] == pairs;
    }
  }

  /** The failurePatterns Map: one pass over the failures, counting each
    * reason; a new reason goes last in the Map's order. */
  method CountFailures(failures: seq<Option<string>>) returns (order: seq<string>, counts: map<string, nat>)
    ensures order == Dedupe(Reasons(failures))
    ensures counts == CountsOf(Reasons(failures))
    ensures forall k :: k in counts <==> k in order
    ensures forall k :: k in counts ==> counts[k] == Occurrences(Reasons(failures), k)
  {
    ghost var rs := Reasons(failures);
    order, counts := [], map[];
    var i := 0;
    assert rs[..0] == [];
    while i < |failures|
      invariant 0 <= i <= |failures|
      invariant order == Dedupe(rs[..i])
      invariant counts == CountsOf(rs[..i])
    {
      var reason := ReasonOf(failures[i]);
      assert reason == rs[i];
      CountsOfStep(rs, i);
      DedupePrefixStep(rs, i);
      var count := if reason in counts then counts[reason] else 0;
      counts := counts[reason := count + 1];
      if reason !in order {
        order := order + [reason];
      }
      i := i + 1;
    }
    assert rs[..i] == rs;
    CountsOfSpec(rs);
    DedupeSpec(rs);
  }
}
