/** frontend/src/components/Dashboard.jsx: the level shown for a completion
    rate, the hours-and-minutes split of the month's interview time, the zero
    defaults for missing figures and the upgrade button. */
module Dashboard {
  import opened Common
  import opened Store

  datatype Level = Beginner | Intermediate | Advanced

  /** The level label. A missing rate compares false with both thresholds, so
      it is a beginner's. */
  function LevelOf(rate: Option<real>): (l: Level)
    ensures l == Advanced <==> rate.Some? && rate.value > 70.0
    ensures l == Intermediate <==> rate.Some? && 40.0 < rate.value <= 70.0
    ensures l == Beginner <==> rate.None? || rate.value <= 40.0
  {
    if rate.Some? && rate.value > 70.0 then Advanced
    else if rate.Some? && rate.value > 40.0 then Intermediate
    else Beginner
  }

  function Rank(l: Level): int {
    match l
    case Beginner => 0
    case Intermediate => 1
    case Advanced => 2
  }

  /** A higher completion rate never shows a lower level. */
  lemma LevelMonotone(a: real, b: real)
    requires a <= b
    ensures Rank(LevelOf(Some(a))) <= Rank(LevelOf(Some(b)))
  {
  }

  /** `Math.floor(d / 3600)` hours and `Math.floor((d % 3600) / 60)` minutes:
      whole hours, then the whole minutes left over, which are below 60; the
      seconds dropped are below a minute. */
  function HoursMinutes(d: nat): (hm: (nat, nat))
    ensures hm.1 < 60
    ensures hm.0 * 3600 + hm.1 * 60 <= d < hm.0 * 3600 + hm.1 * 60 + 60
  {
    (d / 3600, (d % 3600) / 60)
  }

  /** `x || 0` on a figure that may be missing. */
  function OrZero<T(0)>(x: Option<T>, zero: T): T {
    if x.Some? then x.value else zero
  }

  /** The figures the dashboard reads from the progress reply. */
  datatype Analytics = Analytics(
    totalDuration: Option<nat>,
    totalInterviews: Option<nat>,
    completionRate: Option<real>,
    categoryBreakdown: seq<string>)

  /** What the dashboard falls back to when loading fails. */
  const DefaultAnalytics: Analytics := Analytics(Some(0), Some(0), Some(0.0), [])

  /** The figures shown: rate, interview count, hours and minutes, level. */
  datatype Shown = Shown(rate: real, interviews: nat, hours: nat, minutes: nat, level: Level)

  function Display(a: Analytics): (s: Shown)
    ensures s.minutes < 60
    ensures a.completionRate.None? ==> s.rate == 0.0 && s.level == Beginner
    ensures a.totalInterviews.None? ==> s.interviews == 0
    ensures a.totalDuration.None? ==> s.hours == 0 && s.minutes == 0
  {
    var hm := HoursMinutes(OrZero(a.totalDuration, 0));
    Shown(OrZero(a.completionRate, 0.0), OrZero(a.totalInterviews, 0), hm.0, hm.1, LevelOf(a.completionRate))
  }

  /** After a failed load the dashboard shows zeros everywhere, at the beginner
      level, with no categories. */
  lemma DefaultDisplay()
    ensures Display(DefaultAnalytics) == Shown(0.0, 0, 0, 0, Beginner)
    ensures DefaultAnalytics.categoryBreakdown == []
  {
  }

  /** The upgrade button is offered only to a user whose role is `free`. */
  predicate ShowUpgrade(role: Option<string>) { role == Some("free") }

  /** A newly registered user is offered the upgrade; once a payment is
      verified and the role is `paid`, the offer disappears. */
  lemma UpgradeOffer()
    ensures ShowUpgrade(Some(DefaultRole))
    ensures !ShowUpgrade(Some("paid")) && !ShowUpgrade(None)
  {
  }
}
