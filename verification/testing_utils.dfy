/**
 * The QA testing panel: five smoke tests run in order by the shared
 * "run all" loop, with a coloured badge and an icon per status.
 */
module TestingUtils {
  import opened QaRuns

  type TestCase = Entry<string>

  /** The five tests as the panel lists them (id and name), all pending. */
  const InitialTests: seq<TestCase> := [
    Entry("navigation", "Navigation Test", Pending),
    Entry("language-switch", "Language Switch Test", Pending),
    Entry("responsive-design", "Mobile Responsiveness", Pending),
    Entry("accessibility", "Accessibility Check", Pending),
    Entry("performance", "Performance Check", Pending)
  ]

  /** The five ids are distinct, so after a run every row shows its own outcome. */
  lemma InitialIdsUnique()
    ensures UniqueIds(InitialTests)
  {
  }

  // ---------------------------------------------------------------------------
  // Badges and icons
  // ---------------------------------------------------------------------------

  /** The background class `getStatusBadge` looks up for a status. */
  function BadgeColour(s: RunStatus): string {
    match s
    case Pending => "bg-mind-neutral-300"
    case Running => "bg-orange-500"
    case Passed => "bg-green-500"
    case Failed => "bg-red-500"
  }

  /** `getStatusBadge`: the status colour followed by white text. */
  function StatusBadge(s: RunStatus): string {
    BadgeColour(s) + " text-white"
  }

  /** Every status has its own badge: two statuses share a badge only if
      they are the same status. */
  lemma StatusBadgeInjective(s: RunStatus, t: RunStatus)
    ensures StatusBadge(s) == StatusBadge(t) <==> s == t
  {
    if StatusBadge(s) == StatusBadge(t) {
      DropCommonSuffix(BadgeColour(s), BadgeColour(t), " text-white");
      ColourInjective(s, t);
    }
  }

  lemma ColourInjective(s: RunStatus, t: RunStatus)
    requires BadgeColour(s) == BadgeColour(t)
    ensures s == t
  {
  }

  lemma DropCommonSuffix(a: string, b: string, c: string)
    requires a + c == b + c
    ensures a == b
  {
    assert |a| == |b|;
    assert forall i :: 0 <= i < |a| ==> a[i] == (a + c)[i] == (b + c)[i] == b[i];
  }

  datatype StatusIcon = GreenCheck | RedCross | OrangePulse | GreyRing

  /** `getStatusIcon`. */
  function IconOf(s: RunStatus): (icon: StatusIcon)
    ensures icon == GreenCheck <==> s == Passed
    ensures icon == RedCross <==> s == Failed
    ensures icon == OrangePulse <==> s == Running
  {
    match s
    case Passed => GreenCheck
    case Failed => RedCross
    case Running => OrangePulse
    case Pending => GreyRing
  }

  /** Icon and badge tell the same story: the green and red icons sit on the
      green and red badges, the pulsing icon on the orange one. */
  lemma IconMatchesBadge(s: RunStatus)
    ensures IconOf(s) == GreenCheck <==> BadgeColour(s) == "bg-green-500"
    ensures IconOf(s) == RedCross <==> BadgeColour(s) == "bg-red-500"
    ensures IconOf(s) == OrangePulse <==> BadgeColour(s) == "bg-orange-500"
  {
    match s
    case Pending =>
      assert BadgeColour(s)[3] != "bg-green-500"[3];
      assert BadgeColour(s)[3] != "bg-red-500"[3];
      assert BadgeColour(s)[3] != "bg-orange-500"[3];
    case _ =>
  }
}
