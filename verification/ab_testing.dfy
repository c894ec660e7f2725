/**
 * The A/B testing panel: a list of experiments, each switched on or off and
 * showing either its control or its variant; a report of the active ones;
 * and the page change applied when the shown arm is switched.
 */
module AbTesting {
  import opened Wrappers

  datatype Arm = Control | Variant

  function Other(a: Arm): (b: Arm)
    ensures b != a
  {
    if a == Control then Variant else Control
  }

  datatype AbTest = AbTest(
    id: string, name: string, description: string,
    control: string, variant: string,
    isActive: bool, current: Arm)

  /** The four experiments as the panel lists them, all off and on control. */
  const InitialTests: seq<AbTest> := [
    AbTest("cta-button-text", "CTA Button Text", "Test different call-to-action button texts",
           "Start Now", "Try Meditation", false, Control),
    AbTest("color-scheme", "Color Scheme", "Test blue vs green color palette",
           "Blue Palette (#E6F0FA)", "Green Palette (#D4F4E2)", false, Control),
    AbTest("home-layout", "Home Screen Layout", "Test different home screen arrangements",
           "Mood Summary First", "Quick Actions First", false, Control),
    AbTest("onboarding-flow", "Onboarding Flow", "Test different onboarding approaches",
           "3-Step Onboarding", "5-Step Detailed Onboarding", false, Control)
  ]

  /** Two tests that agree on everything but the on/off switch and the shown arm. */
  predicate SameExperiment(a: AbTest, b: AbTest) {
    a.id == b.id && a.name == b.name && a.description == b.description &&
    a.control == b.control && a.variant == b.variant
  }

  // ---------------------------------------------------------------------------
  // Toggling and switching
  // ---------------------------------------------------------------------------

  /** `toggleTest`: flip `isActive` of the tests carrying the id. */
  function ToggleTest(ts: seq<AbTest>, id: string): (r: seq<AbTest>)
    ensures |r| == |ts|
    ensures forall i :: 0 <= i < |ts| ==> SameExperiment(r[i], ts[i]) && r[i].current == ts[i].current
    ensures forall i :: 0 <= i < |ts| && ts[i].id == id ==> r[i].isActive == !ts[i].isActive
    ensures forall i :: 0 <= i < |ts| && ts[i].id != id ==> r[i] == ts[i]
    decreases |ts|
  {
    if |ts| == 0 then []
    else
      var head := if ts[0].id == id then ts[0].(isActive := !ts[0].isActive) else ts[0];
      var rest := ToggleTest(ts[1..], id);
      assert forall i :: 1 <= i < |ts| ==> ([head] + rest)[i] == rest[i - 1] && ts[i] == ts[1..][i - 1];
      [head] + rest
  }

  /** Toggling twice restores the list. */
  lemma ToggleTwice(ts: seq<AbTest>, id: string)
    ensures ToggleTest(ToggleTest(ts, id), id) == ts
  {
    var r := ToggleTest(ToggleTest(ts, id), id);
    assert forall i :: 0 <= i < |ts| ==> r[i] == ts[i];
  }

  /** `switchVariant`: swap the shown arm of the tests carrying the id. */
  function SwitchVariant(ts: seq<AbTest>, id: string): (r: seq<AbTest>)
    ensures |r| == |ts|
    ensures forall i :: 0 <= i < |ts| ==> SameExperiment(r[i], ts[i]) && r[i].isActive == ts[i].isActive
    ensures forall i :: 0 <= i < |ts| && ts[i].id == id ==> r[i].current == Other(ts[i].current)
    ensures forall i :: 0 <= i < |ts| && ts[i].id != id ==> r[i] == ts[i]
    decreases |ts|
  {
    if |ts| == 0 then []
    else
      var head := if ts[0].id == id then ts[0].(current := Other(ts[0].current)) else ts[0];
      var rest := SwitchVariant(ts[1..], id);
      assert forall i :: 1 <= i < |ts| ==> ([head] + rest)[i] == rest[i - 1] && ts[i] == ts[1..][i - 1];
      [head] + rest
  }

  /** Switching twice restores the list. */
  lemma SwitchTwice(ts: seq<AbTest>, id: string)
    ensures SwitchVariant(SwitchVariant(ts, id), id) == ts
  {
    var r := SwitchVariant(SwitchVariant(ts, id), id);
    assert forall i :: 0 <= i < |ts| ==> r[i] == ts[i];
  }

  /** Toggling one experiment and switching another do not interfere. */
  lemma ToggleSwitchCommute(ts: seq<AbTest>, a: string, b: string)
    ensures ToggleTest(SwitchVariant(ts, b), a) == SwitchVariant(ToggleTest(ts, a), b)
  {
    var x := ToggleTest(SwitchVariant(ts, b), a);
    var y := SwitchVariant(ToggleTest(ts, a), b);
    assert forall i :: 0 <= i < |ts| ==> x[i] == y[i];
  }

  // ---------------------------------------------------------------------------
  // The report
  // ---------------------------------------------------------------------------

  /** `tests.filter(t => t.isActive)`. */
  function ActiveTests(ts: seq<AbTest>): (r: seq<AbTest>)
    ensures |r| <= |ts|
    ensures forall t :: t in r <==> t in ts && t.isActive
    decreases |ts|
  {
    if |ts| == 0 then []
    else
      var rest := ActiveTests(ts[1..]);
      assert ts == [ts[0]] + ts[1..];
      if ts[0].isActive then [ts[0]] + rest else rest
  }

  /** The active filter keeps list order: it distributes over concatenation. */
  lemma {:induction false} ActiveAppend(a: seq<AbTest>, b: seq<AbTest>)
    ensures ActiveTests(a + b) == ActiveTests(a) + ActiveTests(b)
    decreases |a|
  {
    if |a| > 0 {
      assert (a + b)[1..] == a[1..] + b;
      ActiveAppend(a[1..], b);
    } else {
      assert a + b == b;
    }
  }

  /** An independent count of the switched-on experiments. */
  function CountActive(ts: seq<AbTest>): nat
    decreases |ts|
  {
    if |ts| == 0 then 0 else (if ts[0].isActive then 1 else 0) + CountActive(ts[1..])
  }

  lemma {:induction false} ActiveCount(ts: seq<AbTest>)
    ensures |ActiveTests(ts)| == CountActive(ts)
    decreases |ts|
  {
    if |ts| > 0 {
      ActiveCount(ts[1..]);
    }
  }

  /** One line of the report (the random conversion and engagement figures
      are not modelled). */
  datatype Result = Result(name: string, variant: Arm)

  datatype Report = Report(totalTests: nat, activeTests: nat, testResults: seq<Result>)

  /** One report line per experiment, in order. */
  function Results(active: seq<AbTest>): (r: seq<Result>)
    ensures |r| == |active|
    ensures forall k :: 0 <= k < |active| ==> r[k] == Result(active[k].name, active[k].current)
  {
    seq(|active|, k requires 0 <= k < |active| => Result(active[k].name, active[k].current))
  }

  lemma ResultsAppend(x: seq<AbTest>, y: seq<AbTest>)
    ensures Results(x + y) == Results(x) + Results(y)
  {
    assert forall k :: 0 <= k < |x + y| ==> Results(x + y)[k] == (Results(x) + Results(y))[k];
  }

  /** The line names a switched-on experiment and the arm it shows. */
  predicate ReportsActive(ts: seq<AbTest>, line: Result) {
    exists t :: t in ts && t.isActive && line == Result(t.name, t.current)
  }

  /** `generateTestReport`. */
  function GenerateReport(ts: seq<AbTest>): (rep: Report)
    ensures rep.totalTests == |ts|
    ensures rep.activeTests == CountActive(ts) == |rep.testResults|
    ensures forall k :: 0 <= k < |rep.testResults| ==> ReportsActive(ts, rep.testResults[k])
  {
    var active := ActiveTests(ts);
    ActiveCount(ts);
    ResultsFromActive(ts);
    Report(|ts|, |active|, Results(active))
  }

  lemma ResultsFromActive(ts: seq<AbTest>)
    ensures forall k :: 0 <= k < |Results(ActiveTests(ts))| ==> ReportsActive(ts, Results(ActiveTests(ts))[k])
  {
    var active := ActiveTests(ts);
    forall k | 0 <= k < |Results(active)|
      ensures ReportsActive(ts, Results(active)[k])
    {
      assert active[k] in active;
    }
  }

  /** The report lists the active experiments in panel order: the report of
      a concatenation is the two reports' results, one after the other. */
  lemma ReportKeepsOrder(a: seq<AbTest>, b: seq<AbTest>)
    ensures GenerateReport(a + b).testResults == GenerateReport(a).testResults + GenerateReport(b).testResults
  {
    ActiveAppend(a, b);
    ResultsAppend(ActiveTests(a), ActiveTests(b));
    assert GenerateReport(a + b).testResults == Results(ActiveTests(a + b));
    assert GenerateReport(a).testResults == Results(ActiveTests(a));
    assert GenerateReport(b).testResults == Results(ActiveTests(b));
  }

  /** A single experiment reports one line when it is on and none when off;
      with `ReportKeepsOrder` this fixes the report of any list. */
  lemma ReportOfOne(t: AbTest)
    ensures GenerateReport([t]).testResults == if t.isActive then [Result(t.name, t.current)] else []
  {
    assert [t][1..] == [];
  }

  // ---------------------------------------------------------------------------
  // Applying the shown arm to the page
  // ---------------------------------------------------------------------------

  /** `tests.find(t => t.id === id)`: the first test carrying the id. */
  function FindTest(ts: seq<AbTest>, id: string): (r: Option<AbTest>)
    ensures r.Some? ==> r.value in ts && r.value.id == id
    ensures r.None? <==> forall i :: 0 <= i < |ts| ==> ts[i].id != id
    ensures r.Some? ==> exists k :: 0 <= k < |ts| && ts[k] == r.value && forall i :: 0 <= i < k ==> ts[i].id != id
    decreases |ts|
  {
    if |ts| == 0 then None
    else if ts[0].id == id then Some(ts[0])
    else
      var r := FindTest(ts[1..], id);
      assert forall i :: 1 <= i < |ts| ==> ts[i] == ts[1..][i - 1];
      if r.Some? then
        var k :| 0 <= k < |ts[1..]| && ts[1..][k] == r.value && forall i :: 0 <= i < k ==> ts[1..][i].id != id;
        assert ts[k + 1] == r.value;
        assert forall i :: 0 <= i < k + 1 ==> ts[i].id != id;
        r
      else r
  }

  /** The test found is the one at the first position carrying the id. */
  lemma FindTestIsFirst(ts: seq<AbTest>, id: string, k: nat)
    requires k < |ts| && ts[k].id == id
    requires forall i :: 0 <= i < k ==> ts[i].id != id
    ensures FindTest(ts, id) == Some(ts[k])
  {
    var r := FindTest(ts, id);
    assert r.Some?;
    var j :| 0 <= j < |ts| && ts[j] == r.value && forall i :: 0 <= i < j ==> ts[i].id != id;
    assert ts[j].id == id;
    assert !(j < k) && !(k < j);
  }

  /** After a switch, the found test is the old one with the other arm shown. */
  lemma {:induction false} FindAfterSwitch(ts: seq<AbTest>, id: string)
    ensures FindTest(ts, id).Some? ==>
      FindTest(SwitchVariant(ts, id), id) == Some(FindTest(ts, id).value.(current := Other(FindTest(ts, id).value.current)))
    ensures FindTest(ts, id).None? ==> FindTest(SwitchVariant(ts, id), id).None?
    decreases |ts|
  {
    if |ts| > 0 && ts[0].id != id {
      FindAfterSwitch(ts[1..], id);
      assert SwitchVariant(ts, id)[1..] == SwitchVariant(ts[1..], id);
    }
  }

  /** What `applyTestVariant` does to the page. */
  datatype PageChange = SetCtaText(text: string) | SetTheme(theme: string) | NoChange

  function ThemeOf(a: Arm): string {
    if a == Control then "blue" else "green"
  }

  /** The text of the arm a test shows. */
  function ShownText(t: AbTest): string {
    if t.current == Control then t.control else t.variant
  }

  /** `applyTestVariant(id)` reading the test list `ts`: the call-to-action
      buttons get the shown arm's text, the colour scheme the shown arm's
      theme, and other experiments change nothing. */
  function ApplyVariant(ts: seq<AbTest>, id: string): (c: PageChange)
    ensures FindTest(ts, id).None? ==> c == NoChange
    ensures id != "cta-button-text" && id != "color-scheme" ==> c == NoChange
    ensures FindTest(ts, id).Some? && id == "cta-button-text" ==>
      c == SetCtaText(ShownText(FindTest(ts, id).value))
    ensures FindTest(ts, id).Some? && id == "color-scheme" ==>
      c == SetTheme(ThemeOf(FindTest(ts, id).value.current))
  {
    match FindTest(ts, id)
    case None => NoChange
    case Some(t) =>
      if id == "cta-button-text" then SetCtaText(ShownText(t))
      else if id == "color-scheme" then SetTheme(ThemeOf(t.current))
      else NoChange
  }

  /** The change that matches the arm the list shows for an experiment. */
  predicate ShowsOnPage(ts: seq<AbTest>, id: string, c: PageChange) {
    c == ApplyVariant(ts, id)
  }

  /** `switchVariant` as written: it queues the list update but then applies
      the variant from the list as it was before the switch. */
  function SwitchAsWritten(ts: seq<AbTest>, id: string): (r: (seq<AbTest>, PageChange))
    ensures r.0 == SwitchVariant(ts, id)
    ensures ShowsOnPage(ts, id, r.1)
    ensures FindTest(ts, id).Some? && id == "color-scheme" ==>
      && r.1 == SetTheme(ThemeOf(Other(FindTest(r.0, id).value.current)))
      && !ShowsOnPage(r.0, id, r.1)
  {
    FindAfterSwitch(ts, id);
    assert "blue"[0] != "green"[0];
    (SwitchVariant(ts, id), ApplyVariant(ts, id))
  }

  /** The opening list with one experiment switched on, so that its
      "Switch to ..." button is on screen. */
  function TurnedOn(id: string): (ts: seq<AbTest>)
    ensures |ts| == |InitialTests|
    ensures forall i :: 0 <= i < |ts| ==> (ts[i].isActive <==> InitialTests[i].id == id)
  {
    ToggleTest(InitialTests, id)
  }

  /** As written, once the colour-scheme experiment is on, switching it from
      control to variant sets the blue theme, while the panel now shows the
      green variant. */
  lemma StaleThemeOnSwitch()
    ensures FindTest(TurnedOn("color-scheme"), "color-scheme").value.isActive
    ensures SwitchAsWritten(TurnedOn("color-scheme"), "color-scheme").1 == SetTheme("blue")
    ensures FindTest(SwitchAsWritten(TurnedOn("color-scheme"), "color-scheme").0, "color-scheme").value.current == Variant
    ensures !ShowsOnPage(SwitchAsWritten(TurnedOn("color-scheme"), "color-scheme").0, "color-scheme",
                         SwitchAsWritten(TurnedOn("color-scheme"), "color-scheme").1)
  {
    var ts := TurnedOn("color-scheme");
    assert ts[0].id == InitialTests[0].id;
    assert ts[1] == InitialTests[1].(isActive := true);
    assert FindTest(ts, "color-scheme") == Some(ts[1]);
    FindAfterSwitch(ts, "color-scheme");
    assert ThemeOf(Variant)[0] != "blue"[0];
  }

  /** As written, once the button-text experiment is on, switching it from
      control to variant puts "Start Now" back on the buttons, while the
      panel now shows "Try Meditation". */
  lemma StaleTextOnSwitch()
    ensures FindTest(TurnedOn("cta-button-text"), "cta-button-text").value.isActive
    ensures SwitchAsWritten(TurnedOn("cta-button-text"), "cta-button-text").1 == SetCtaText("Start Now")
    ensures ShownText(FindTest(SwitchAsWritten(TurnedOn("cta-button-text"), "cta-button-text").0, "cta-button-text").value)
            == "Try Meditation"
    ensures !ShowsOnPage(SwitchAsWritten(TurnedOn("cta-button-text"), "cta-button-text").0, "cta-button-text",
                         SwitchAsWritten(TurnedOn("cta-button-text"), "cta-button-text").1)
  {
    var ts := TurnedOn("cta-button-text");
    assert ts[0] == InitialTests[0].(isActive := true);
    assert FindTest(ts, "cta-button-text") == Some(ts[0]);
    FindAfterSwitch(ts, "cta-button-text");
    assert "Try Meditation"[0] != "Start Now"[0];
  }

  /** The intended switch: apply the variant from the updated list. */
  function SwitchAndApply(ts: seq<AbTest>, id: string): (r: (seq<AbTest>, PageChange))
    ensures r.0 == SwitchVariant(ts, id)
    ensures ShowsOnPage(r.0, id, r.1)
  {
    var ts' := SwitchVariant(ts, id);
    (ts', ApplyVariant(ts', id))
  }

  /** With the correction, the theme set is the one for the arm the panel
      now shows, i.e. the other arm than before. */
  lemma SwitchAppliesNewTheme(ts: seq<AbTest>)
    requires FindTest(ts, "color-scheme").Some?
    ensures SwitchAndApply(ts, "color-scheme").1 ==
      SetTheme(ThemeOf(Other(FindTest(ts, "color-scheme").value.current)))
  {
    FindAfterSwitch(ts, "color-scheme");
  }

  /** With the correction, the call-to-action buttons get the text of the
      arm the panel now shows. */
  lemma SwitchAppliesNewText(ts: seq<AbTest>)
    requires FindTest(ts, "cta-button-text").Some?
    ensures var t := FindTest(ts, "cta-button-text").value;
      SwitchAndApply(ts, "cta-button-text").1 ==
        SetCtaText(if t.current == Control then t.variant else t.control)
  {
    FindAfterSwitch(ts, "cta-button-text");
  }
}
