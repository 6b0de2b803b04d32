/**
 * The figures the earnings dashboard derives from the owner analytics: the
 * month-over-month growth and its arrow, whether there are spots to list,
 * the recent bookings shown, and the colour of a booking's status badge.
 */
module EarningsDashboard {
  import opened Maybe
  import opened Lists
  import opened SpotAnalytics

  /**
   * `monthlyGrowth`: the relative change from last month to this month in
   * percent; 0 without analytics and when last month earned nothing (the
   * value is falsy).
   */
  function MonthlyGrowth(analytics: Option<Analytics>): real {
    if analytics.Some? && analytics.value.lastMonthEarnings != 0.0 then
      Growth(analytics.value.thisMonthEarnings, analytics.value.lastMonthEarnings)
    else 0.0
  }

  function Growth(thisMonth: real, lastMonth: real): real
    requires lastMonth != 0.0
  {
    ((thisMonth - lastMonth) / lastMonth) * 100.0
  }

  /**
   * The growth is the percentage by which this month exceeds last month:
   * `last * (1 + g / 100) == this`. So after a positive last month it is
   * non-negative exactly when this month earned at least as much, and it is
   * zero exactly when both months are equal.
   */
  lemma GrowthSpec(thisMonth: real, lastMonth: real)
    requires lastMonth != 0.0
    ensures lastMonth * (1.0 + Growth(thisMonth, lastMonth) / 100.0) == thisMonth
    ensures lastMonth > 0.0 ==> (Growth(thisMonth, lastMonth) >= 0.0 <==> thisMonth >= lastMonth)
    ensures lastMonth < 0.0 ==> (Growth(thisMonth, lastMonth) >= 0.0 <==> thisMonth <= lastMonth)
    ensures Growth(thisMonth, lastMonth) == 0.0 <==> thisMonth == lastMonth
  {
    var q := (thisMonth - lastMonth) / lastMonth;
    assert q * lastMonth == thisMonth - lastMonth;
    assert Growth(thisMonth, lastMonth) / 100.0 == q;
    if lastMonth > 0.0 {
      if q >= 0.0 {
        assert q * lastMonth >= 0.0;
      } else {
        assert (-q) * lastMonth > 0.0;
      }
    } else {
      if q >= 0.0 {
        assert q * (-lastMonth) >= 0.0;
      } else {
        assert (-q) * (-lastMonth) > 0.0;
      }
    }
  }

  /** Without analytics, or without last-month earnings, the growth shown is zero and reads as "up". */
  lemma NoGrowthWithoutLastMonth(analytics: Option<Analytics>)
    requires analytics.None? || analytics.value.lastMonthEarnings == 0.0
    ensures MonthlyGrowth(analytics) == 0.0 && GrowthTrend(MonthlyGrowth(analytics)) == Up
  {
  }

  /** The arrow and colour of the growth line. */
  datatype Trend = Up | Down

  /** `monthlyGrowth >= 0`: an up arrow in the success colour, else a down arrow in the destructive one. */
  function GrowthTrend(growth: real): Trend {
    if growth >= 0.0 then Up else Down
  }

  function TrendClass(t: Trend): string {
    match t
    case Up => "text-success"
    case Down => "text-destructive"
  }

  /** `Math.abs(monthlyGrowth)`, the number printed before "% vs last month". */
  function DisplayedPercent(growth: real): real {
    if growth >= 0.0 then growth else -growth
  }

  /**
   * The printed number is never negative, and together with the arrow it
   * determines the growth: the sign is carried by the arrow alone.
   */
  lemma DisplayedGrowthSpec(growth: real)
    ensures DisplayedPercent(growth) >= 0.0
    ensures (if GrowthTrend(growth) == Up then DisplayedPercent(growth) else -DisplayedPercent(growth)) == growth
    ensures GrowthTrend(growth) == Up <==> growth >= 0.0
    ensures TrendClass(GrowthTrend(growth)) == "text-success" <==> growth >= 0.0
  {
  }

  /** `hasSpots`: analytics are present and list at least one spot. */
  predicate HasSpots(analytics: Option<Analytics>) {
    analytics.Some? && |analytics.value.spotStats| > 0
  }

  /** For computed analytics, the dashboard lists spots exactly when the owner has any. */
  lemma HasSpotsIffOwner(spots: seq<OwnedSpot>, bs: seq<BookingRow>, w: Windows, today: int)
    ensures HasSpots(Some(AnalyticsOf(spots, bs, w, today))) <==> |spots| > 0
  {
    if |spots| > 0 {
      SpotStatsSpec(spots, bs, w, today);
      var st := AnalyticsOf(spots, bs, w, today).spotStats;
      assert Owns(spots, spots[0].id);
      assert HasEntryFor(st, spots[0].id);
    }
  }

  /** The number of recent bookings the dashboard lists. */
  const ShownRecent: nat := 5

  /** `analytics?.recentBookings.slice(0, 5)`; nothing without analytics. */
  function RecentShown(analytics: Option<Analytics>): seq<RecentBooking> {
    if analytics.Some? then Take(analytics.value.recentBookings, ShownRecent) else []
  }

  /**
   * The listed bookings are the first five recent entries (all of them when
   * fewer), so each carries its fetched booking's id, price, date and status
   * and the first owned spot with its spot id.
   */
  lemma RecentShownSpec(spots: seq<OwnedSpot>, bs: seq<BookingRow>, w: Windows, today: int)
    requires |spots| > 0
    ensures var r := RecentShown(Some(AnalyticsOf(spots, bs, w, today)));
      |r| == (if |bs| < ShownRecent then |bs| else ShownRecent) &&
      r == AnalyticsOf(spots, bs, w, today).recentBookings[..|r|] &&
      forall i :: 0 <= i < |r| ==>
        r[i].id == bs[i].id && r[i].totalPrice == bs[i].totalPrice && r[i].status == bs[i].status &&
        r[i].date == bs[i].date && (r[i].spot.None? <==> !Owns(spots, bs[i].spotId))
  {
    RecentSpec(spots, bs, w, today);
  }

  /** The "No bookings yet" note: analytics present with an empty recent list. */
  predicate ShowsNoBookings(analytics: Option<Analytics>) {
    analytics.Some? && |analytics.value.recentBookings| == 0
  }

  /** An owner with spots sees the note exactly when there are no bookings at all. */
  lemma NoBookingsNote(spots: seq<OwnedSpot>, bs: seq<BookingRow>, w: Windows, today: int)
    requires |spots| > 0
    ensures ShowsNoBookings(Some(AnalyticsOf(spots, bs, w, today))) <==> |bs| == 0
  {
    RecentSpec(spots, bs, w, today);
  }

  /** The badge class of a recent booking's status. */
  function StatusClass(status: Status): string {
    if status == Completed then "bg-success/10 text-success"
    else if status == Active then "bg-primary/10 text-primary"
    else "bg-destructive/10 text-destructive"
  }

  /** Completed is green, active is the primary colour, every other status (cancelled or unknown) is red. */
  lemma StatusClassSpec(status: Status)
    ensures StatusClass(status) == "bg-success/10 text-success" <==> status == Completed
    ensures StatusClass(status) == "bg-primary/10 text-primary" <==> status == Active
    ensures StatusClass(status) == "bg-destructive/10 text-destructive" <==> status != Completed && status != Active
  {
  }
}
