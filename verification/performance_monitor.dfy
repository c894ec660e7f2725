/**
 * The performance overlay's traffic-light badge: a measured value against a
 * pair of thresholds, and the thresholds the overlay uses for page load
 * time, render time and memory use.
 */
module PerformanceMonitor {
  datatype Badge = Green | Orange | Red

  /** Badges from best to worst. */
  function Rank(b: Badge): nat {
    match b
    case Green => 0
    case Orange => 1
    case Red => 2
  }

  /** `getPerformanceBadge(value, [t0, t1])`. */
  function PerformanceBadge(value: int, t0: int, t1: int): (b: Badge)
    ensures b == Green <==> value <= t0
    ensures b == Orange <==> t0 < value <= t1
    ensures b == Red <==> value > t0 && value > t1
  {
    if value <= t0 then Green
    else if value <= t1 then Orange
    else Red
  }

  /** With ordered thresholds, a larger value never earns a better badge. */
  lemma BadgeMonotone(v: int, w: int, t0: int, t1: int)
    requires t0 <= t1 && v <= w
    ensures Rank(PerformanceBadge(v, t0, t1)) <= Rank(PerformanceBadge(w, t0, t1))
  {
  }

  /** With thresholds out of order the orange badge never shows. */
  lemma InvertedThresholdsSkipOrange(v: int, t0: int, t1: int)
    requires t1 <= t0
    ensures PerformanceBadge(v, t0, t1) != Orange
  {
  }

  /** The rounded measurements the overlay shows (milliseconds, megabytes, a count). */
  datatype Metrics = Metrics(loadTime: int, renderTime: int, memoryUsage: int, networkRequests: nat)

  const LoadTimeLimits: (int, int) := (2000, 4000)
  const RenderTimeLimits: (int, int) := (100, 300)
  const MemoryLimits: (int, int) := (50, 100)

  /** The three badges of the overlay; the request count has a fixed badge. */
  function Badges(m: Metrics): (r: (Badge, Badge, Badge))
    ensures r.0 == Green <==> m.loadTime <= 2000
    ensures r.0 == Red <==> m.loadTime > 4000
    ensures r.1 == Green <==> m.renderTime <= 100
    ensures r.1 == Red <==> m.renderTime > 300
    ensures r.2 == Green <==> m.memoryUsage <= 50
    ensures r.2 == Red <==> m.memoryUsage > 100
  {
    ( PerformanceBadge(m.loadTime, LoadTimeLimits.0, LoadTimeLimits.1),
      PerformanceBadge(m.renderTime, RenderTimeLimits.0, RenderTimeLimits.1),
      PerformanceBadge(m.memoryUsage, MemoryLimits.0, MemoryLimits.1) )
  }

  /** All three threshold pairs are ordered, so every badge is monotone. */
  lemma OverlayBadgesMonotone(m: Metrics, m': Metrics)
    requires m.loadTime <= m'.loadTime && m.renderTime <= m'.renderTime && m.memoryUsage <= m'.memoryUsage
    ensures Rank(Badges(m).0) <= Rank(Badges(m').0)
    ensures Rank(Badges(m).1) <= Rank(Badges(m').1)
    ensures Rank(Badges(m).2) <= Rank(Badges(m').2)
  {
    BadgeMonotone(m.loadTime, m'.loadTime, LoadTimeLimits.0, LoadTimeLimits.1);
    BadgeMonotone(m.renderTime, m'.renderTime, RenderTimeLimits.0, RenderTimeLimits.1);
    BadgeMonotone(m.memoryUsage, m'.memoryUsage, MemoryLimits.0, MemoryLimits.1);
  }
}
