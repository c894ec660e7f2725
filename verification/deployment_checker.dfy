/**
 * The deployment-readiness panel: eight checks, each with a severity, run
 * in order by the shared "run all" loop; the panel counts passes, failures
 * and critical (error-severity) failures and declares the build ready when
 * there is no critical failure and fewer than two failures overall.
 */
module DeploymentChecker {
  import opened QaRuns

  datatype Severity = Error | Warning | Info

  /** What a row shows besides its status. */
  datatype CheckInfo = CheckInfo(name: string, severity: Severity)

  type Check = Entry<CheckInfo>

  /** The eight checks as the panel lists them, all pending. */
  const InitialChecks: seq<Check> := [
    Entry("env-config", CheckInfo("Environment Configuration", Error), Pending),
    Entry("seo-meta", CheckInfo("SEO Meta Tags", Warning), Pending),
    Entry("pwa-manifest", CheckInfo("PWA Manifest", Warning), Pending),
    Entry("favicon", CheckInfo("Favicon & Icons", Info), Pending),
    Entry("sitemap", CheckInfo("Sitemap & Robots", Warning), Pending),
    Entry("https-ready", CheckInfo("HTTPS Configuration", Error), Pending),
    Entry("performance-budget", CheckInfo("Performance Budget", Warning), Pending),
    Entry("accessibility", CheckInfo("Accessibility Standards", Error), Pending)
  ]

  /** `criticalFailures`: failed rows of error severity. */
  function CriticalCount(cs: seq<Check>): (n: nat)
    ensures n <= |cs|
    decreases |cs|
  {
    if |cs| == 0 then 0
    else (if cs[0].status == Failed && cs[0].info.severity == Error then 1 else 0) + CriticalCount(cs[1..])
  }

  /** Every critical failure is a failure. */
  lemma {:induction false} CriticalAtMostFailed(cs: seq<Check>)
    ensures CriticalCount(cs) <= Count(cs, Failed)
    decreases |cs|
  {
    if |cs| > 0 {
      CriticalAtMostFailed(cs[1..]);
    }
  }

  /** There is no critical failure exactly when every failed row is a
      warning or merely informational. */
  lemma {:induction false} NoCriticalIff(cs: seq<Check>)
    ensures CriticalCount(cs) == 0 <==>
      forall j :: 0 <= j < |cs| && cs[j].status == Failed ==> cs[j].info.severity != Error
    decreases |cs|
  {
    if |cs| > 0 {
      NoCriticalIff(cs[1..]);
      assert forall j :: 1 <= j < |cs| ==> cs[j] == cs[1..][j - 1];
    }
  }

  /** `isDeploymentReady`. */
  predicate IsReady(cs: seq<Check>) {
    CriticalCount(cs) == 0 && Count(cs, Failed) < 2
  }

  /** Ready means: at most one failed row, and no failed row is an error. */
  lemma ReadyIff(cs: seq<Check>)
    ensures IsReady(cs) <==>
      && (forall i, j :: 0 <= i < j < |cs| ==> !(cs[i].status == Failed && cs[j].status == Failed))
      && (forall j :: 0 <= j < |cs| && cs[j].status == Failed ==> cs[j].info.severity != Error)
  {
    NoCriticalIff(cs);
    if Count(cs, Failed) >= 2 {
      TwoFailures(cs);
    }
    forall i, j | 0 <= i < j < |cs| && cs[i].status == Failed && cs[j].status == Failed
      ensures Count(cs, Failed) >= 2
    {
      CountTwo(cs, Failed, i, j);
    }
  }

  /** Two failures in the count are two failed rows. */
  lemma {:induction false} TwoFailures(cs: seq<Check>)
    requires Count(cs, Failed) >= 2
    ensures exists i, j :: 0 <= i < j < |cs| && cs[i].status == Failed && cs[j].status == Failed
    decreases |cs|
  {
    if cs[0].status == Failed {
      assert Count(cs[1..], Failed) >= 1;
      CountZeroIff(cs[1..], Failed);
      var k :| 0 <= k < |cs[1..]| && cs[1..][k].status == Failed;
      assert cs[k + 1].status == Failed;
    } else {
      TwoFailures(cs[1..]);
      var i, j :| 0 <= i < j < |cs[1..]| && cs[1..][i].status == Failed && cs[1..][j].status == Failed;
      assert cs[i + 1].status == Failed && cs[j + 1].status == Failed;
    }
  }

  /** The panel's first view reads "Ready": nothing has failed yet because
      nothing has run. */
  lemma FreshPanelReadsReady()
    ensures IsReady(InitialChecks)
    ensures Count(InitialChecks, Passed) == 0
  {
    CountZeroIff(InitialChecks, Failed);
    CountZeroIff(InitialChecks, Passed);
    NoCriticalIff(InitialChecks);
  }

  /** The eight ids are distinct, so after a run every row shows its own outcome. */
  lemma InitialIdsUnique()
    ensures UniqueIds(InitialChecks)
  {
  }

  /** Three of the eight checks are errors: any of them failing blocks the
      deployment on its own. */
  lemma ErrorChecksBlock(cs: seq<Check>, j: nat)
    requires j < |cs| && cs[j].status == Failed && cs[j].info.severity == Error
    ensures !IsReady(cs)
  {
    NoCriticalIff(cs);
  }

  // ---------------------------------------------------------------------------
  // Status icons
  // ---------------------------------------------------------------------------

  datatype StatusIcon = GreenCheck | RedCross | OrangeWarning | BluePulse | GreyRing

  /** `getStatusIcon`: a failure is a red cross for an error and an orange
      warning otherwise. */
  function IconOf(status: RunStatus, severity: Severity): (icon: StatusIcon)
    ensures icon == RedCross <==> status == Failed && severity == Error
    ensures icon == OrangeWarning <==> status == Failed && severity != Error
    ensures icon == GreenCheck <==> status == Passed
    ensures icon == BluePulse <==> status == Running
    ensures icon == GreyRing <==> status == Pending
  {
    match status
    case Passed => GreenCheck
    case Failed => if severity == Error then RedCross else OrangeWarning
    case Running => BluePulse
    case Pending => GreyRing
  }

  /** No red cross on screen exactly when there is no critical failure. */
  lemma NoRedCrossIff(cs: seq<Check>)
    ensures CriticalCount(cs) == 0 <==>
      forall j :: 0 <= j < |cs| ==> IconOf(cs[j].status, cs[j].info.severity) != RedCross
  {
    NoCriticalIff(cs);
  }
}
