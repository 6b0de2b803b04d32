/**
 * The owner's earnings analytics: one pass over the bookings of the
 * owner's spots that keeps status counters, earnings totals for the whole
 * history, this month, last month and this week, per-spot totals and
 * per-day totals; then the per-spot list sorted by earnings, a 30-day chart
 * and the ten most recent bookings.
 *
 * Dates are day numbers; the calendar windows (month and week boundaries)
 * are given as inclusive ranges of day numbers.
 */
module SpotAnalytics {
  import opened Maybe
  import opened Lists

  /** The booking status column; values other than the three known ones are kept as text. */
  datatype Status = Active | Completed | Cancelled | Other(name: string)

  datatype OwnedSpot = OwnedSpot(id: string, name: string)

  datatype BookingRow = BookingRow(
    id: string, totalPrice: real, date: int, status: Status, createdAt: string, spotId: string)

  /** An inclusive range of days. */
  datatype DayWindow = DayWindow(first: int, last: int)

  datatype Windows = Windows(thisMonth: DayWindow, lastMonth: DayWindow, thisWeek: DayWindow)

  datatype SpotStats = SpotStats(spotId: string, spotName: string, totalBookings: nat, totalEarnings: real)

  datatype DailyEarning = DailyEarning(date: int, earnings: real, bookings: nat)

  datatype RecentBooking = RecentBooking(
    id: string, totalPrice: real, date: int, status: Status, createdAt: string, spot: Option<OwnedSpot>)

  datatype Analytics = Analytics(
    totalEarnings: real, totalBookings: nat,
    activeBookings: nat, completedBookings: nat, cancelledBookings: nat,
    thisMonthEarnings: real, lastMonthEarnings: real, thisWeekEarnings: real,
    averageBookingValue: real,
    spotStats: seq<SpotStats>, dailyEarnings: seq<DailyEarning>, recentBookings: seq<RecentBooking>)

  /** The number of days on the earnings chart. */
  const ChartDays: nat := 30

  /** The number of bookings kept as recent. */
  const RecentLimit: nat := 10

  // ---------------------------------------------------------------------
  // The reference definition: what the pass computes, stated over whole lists.
  // ---------------------------------------------------------------------

  /** Only bookings that are not cancelled earn. */
  predicate Earns(b: BookingRow) {
    b.status != Cancelled
  }

  function NotCancelled(): BookingRow -> bool {
    (b: BookingRow) => Earns(b)
  }

  function Everything(): BookingRow -> bool {
    (b: BookingRow) => true
  }

  function OnDays(w: DayWindow): BookingRow -> bool {
    (b: BookingRow) => w.first <= b.date <= w.last
  }

  function ForSpot(id: string): BookingRow -> bool {
    (b: BookingRow) => b.spotId == id
  }

  function OnDay(d: int): BookingRow -> bool {
    (b: BookingRow) => b.date == d
  }

  /** The price a booking adds to a total restricted by `p`. */
  function Contribution(b: BookingRow, p: BookingRow -> bool): real {
    if Earns(b) && p(b) then b.totalPrice else 0.0
  }

  /** The sum of the prices of the earning bookings satisfying `p`. */
  function EarnedSum(bs: seq<BookingRow>, p: BookingRow -> bool): real {
    if bs == [] then 0.0 else EarnedSum(bs[..|bs| - 1], p) + Contribution(bs[|bs| - 1], p)
  }

  /** The number of earning bookings satisfying `p`. */
  function EarnedCount(bs: seq<BookingRow>, p: BookingRow -> bool): nat {
    if bs == [] then 0 else EarnedCount(bs[..|bs| - 1], p) + (if Earns(bs[|bs| - 1]) && p(bs[|bs| - 1]) then 1 else 0)
  }

  /** The number of bookings with status `st`. */
  function CountStatus(bs: seq<BookingRow>, st: Status): nat {
    if bs == [] then 0 else CountStatus(bs[..|bs| - 1], st) + (if bs[|bs| - 1].status == st then 1 else 0)
  }

  function HasSpotId(id: string): SpotStats -> bool {
    (e: SpotStats) => e.spotId == id
  }

  function FreshStats(s: OwnedSpot): SpotStats {
    SpotStats(s.id, s.name, 0, 0.0)
  }

  /** Writing `spotStatsMap[s.id]`: an existing key keeps its place, a new key goes last. */
  function Upsert(stats: seq<SpotStats>, s: OwnedSpot): seq<SpotStats> {
    var k := FindIndex(stats, HasSpotId(s.id));
    if k < |stats| then stats[k := FreshStats(s)] else stats + [FreshStats(s)]
  }

  /** The per-spot records after initialisation, in key insertion order. */
  function InitStats(spots: seq<OwnedSpot>): seq<SpotStats> {
    if spots == [] then [] else Upsert(InitStats(spots[..|spots| - 1]), spots[|spots| - 1])
  }

  /** A per-spot record with the totals of the earning bookings for its spot. */
  function Totals(e: SpotStats, bs: seq<BookingRow>): SpotStats {
    e.(totalBookings := EarnedCount(bs, ForSpot(e.spotId)), totalEarnings := EarnedSum(bs, ForSpot(e.spotId)))
  }

  function SpotTotals(spots: seq<OwnedSpot>, bs: seq<BookingRow>): seq<SpotStats> {
    var init := InitStats(spots);
    seq(|init|, k requires 0 <= k < |init| => Totals(init[k], bs))
  }

  predicate SortedByEarnings(s: seq<SpotStats>) {
    forall i, j :: 0 <= i < j < |s| ==> s[i].totalEarnings >= s[j].totalEarnings
  }

  /** Insert `x` before the first record that earned strictly less (so equal records keep their order). */
  function InsertByEarnings(x: SpotStats, t: seq<SpotStats>): seq<SpotStats> {
    if t == [] || x.totalEarnings >= t[0].totalEarnings then [x] + t
    else [t[0]] + InsertByEarnings(x, t[1..])
  }

  /** `sort((a, b) => b.totalEarnings - a.totalEarnings)`: a stable sort, most earning first. */
  function SortByEarnings(s: seq<SpotStats>): seq<SpotStats> {
    if s == [] then [] else InsertByEarnings(s[0], SortByEarnings(s[1..]))
  }

  lemma {:induction false} InsertPermutes(x: SpotStats, t: seq<SpotStats>)
    ensures multiset(InsertByEarnings(x, t)) == multiset{x} + multiset(t)
  {
    if !(t == [] || x.totalEarnings >= t[0].totalEarnings) {
      InsertPermutes(x, t[1..]);
      assert t == [t[0]] + t[1..];
    }
  }

  lemma {:induction false} InsertSorted(x: SpotStats, t: seq<SpotStats>)
    requires SortedByEarnings(t)
    ensures SortedByEarnings(InsertByEarnings(x, t))
  {
    if !(t == [] || x.totalEarnings >= t[0].totalEarnings) {
      SortedTail(t);
      InsertSorted(x, t[1..]);
      var rest := InsertByEarnings(x, t[1..]);
      forall e | e in rest ensures t[0].totalEarnings >= e.totalEarnings {
        InsertMembers(x, t[1..], e);
      }
      ConsSorted(t[0], rest);
    }
  }

  /** The records after an insert are the inserted one and the old ones. */
  lemma InsertMembers(x: SpotStats, t: seq<SpotStats>, e: SpotStats)
    ensures e in InsertByEarnings(x, t) <==> e == x || e in t
  {
    InsertPermutes(x, t);
    assert e in InsertByEarnings(x, t) <==> e in multiset(InsertByEarnings(x, t));
    assert e in t <==> e in multiset(t);
  }

  /** The tail of a sorted list is sorted and earned no more than its head. */
  lemma SortedTail(t: seq<SpotStats>)
    requires SortedByEarnings(t) && t != []
    ensures SortedByEarnings(t[1..])
    ensures forall e | e in t[1..] :: t[0].totalEarnings >= e.totalEarnings
  {
    forall i, j | 0 <= i < j < |t[1..]| ensures t[1..][i].totalEarnings >= t[1..][j].totalEarnings {
      assert t[1..][i] == t[i + 1] && t[1..][j] == t[j + 1];
    }
    forall e | e in t[1..] ensures t[0].totalEarnings >= e.totalEarnings {
      var j :| 0 <= j < |t[1..]| && t[1..][j] == e;
      assert t[j + 1] == e;
    }
  }

  /** A record that earned at least as much as every record of a sorted list can go in front of it. */
  lemma ConsSorted(h: SpotStats, rest: seq<SpotStats>)
    requires SortedByEarnings(rest)
    requires forall e | e in rest :: h.totalEarnings >= e.totalEarnings
    ensures SortedByEarnings([h] + rest)
  {
    var r := [h] + rest;
    forall i, j | 0 <= i < j < |r| ensures r[i].totalEarnings >= r[j].totalEarnings {
      if i == 0 {
        assert r[j] == rest[j - 1];
        assert r[j] in rest;
      } else {
        assert r[i] == rest[i - 1] && r[j] == rest[j - 1];
      }
    }
  }

  /** The per-spot list is sorted by earnings, most first, and is a permutation of its input. */
  lemma {:induction false} SortByEarningsSpec(s: seq<SpotStats>)
    ensures multiset(SortByEarnings(s)) == multiset(s)
    ensures SortedByEarnings(SortByEarnings(s))
  {
    if s != [] {
      SortByEarningsSpec(s[1..]);
      InsertPermutes(s[0], SortByEarnings(s[1..]));
      InsertSorted(s[0], SortByEarnings(s[1..]));
      assert s == [s[0]] + s[1..];
    }
  }

  function DayTotals(bs: seq<BookingRow>, d: int): DailyEarning {
    DailyEarning(d, EarnedSum(bs, OnDay(d)), EarnedCount(bs, OnDay(d)))
  }

  /** The chart: the 30 days ending today, oldest first, each with that day's totals. */
  function DailySeries(bs: seq<BookingRow>, today: int): seq<DailyEarning> {
    seq(ChartDays, j requires 0 <= j < ChartDays => DayTotals(bs, today - (ChartDays - 1) + j))
  }

  function SpotWithId(id: string): OwnedSpot -> bool {
    (s: OwnedSpot) => s.id == id
  }

  /** `userSpots.find(s => s.id === id) || null`. */
  function SpotOf(spots: seq<OwnedSpot>, id: string): Option<OwnedSpot> {
    Find(spots, SpotWithId(id))
  }

  function Recent(b: BookingRow, spots: seq<OwnedSpot>): RecentBooking {
    RecentBooking(b.id, b.totalPrice, b.date, b.status, b.createdAt, SpotOf(spots, b.spotId))
  }

  /** The first ten bookings in fetched order, each with its spot or `null`. */
  function RecentSeries(bs: seq<BookingRow>, spots: seq<OwnedSpot>): seq<RecentBooking> {
    var head := Take(bs, RecentLimit);
    seq(|head|, i requires 0 <= i < |head| => Recent(head[i], spots))
  }

  function Average(total: real, count: nat): real {
    if count > 0 then total / count as real else 0.0
  }

  /** The analytics of an owner without spots. */
  const NoAnalytics: Analytics :=
    Analytics(0.0, 0, 0, 0, 0, 0.0, 0.0, 0.0, 0.0, [], [], [])

  /** What `fetchAnalytics` stores, given the owner's spots and the bookings of those spots. */
  function AnalyticsOf(spots: seq<OwnedSpot>, bs: seq<BookingRow>, w: Windows, today: int): Analytics {
    if |spots| == 0 then NoAnalytics
    else
      var count := |Filter(bs, NotCancelled())|;
      Analytics(
        EarnedSum(bs, Everything()), count,
        CountStatus(bs, Active), CountStatus(bs, Completed), CountStatus(bs, Cancelled),
        EarnedSum(bs, OnDays(w.thisMonth)), EarnedSum(bs, OnDays(w.lastMonth)), EarnedSum(bs, OnDays(w.thisWeek)),
        Average(EarnedSum(bs, Everything()), count),
        SortByEarnings(SpotTotals(spots, bs)), DailySeries(bs, today), RecentSeries(bs, spots))
  }

  // ---------------------------------------------------------------------
  // The pass itself.
  // ---------------------------------------------------------------------

  lemma SumStep(bs: seq<BookingRow>, i: nat, p: BookingRow -> bool)
    requires i < |bs|
    ensures EarnedSum(bs[..i + 1], p) == EarnedSum(bs[..i], p) + Contribution(bs[i], p)
    ensures EarnedCount(bs[..i + 1], p) == EarnedCount(bs[..i], p) + (if Earns(bs[i]) && p(bs[i]) then 1 else 0)
  {
    assert bs[..i + 1][..i] == bs[..i];
  }

  lemma StatusStep(bs: seq<BookingRow>, i: nat, st: Status)
    requires i < |bs|
    ensures CountStatus(bs[..i + 1], st) == CountStatus(bs[..i], st) + (if bs[i].status == st then 1 else 0)
  {
    assert bs[..i + 1][..i] == bs[..i];
  }

  predicate DistinctSpotIds(stats: seq<SpotStats>) {
    forall i, j :: 0 <= i < j < |stats| ==> stats[i].spotId != stats[j].spotId
  }

  /** Some record of `stats` is for spot `id`. */
  predicate HasEntryFor(stats: seq<SpotStats>, id: string) {
    exists k :: 0 <= k < |stats| && stats[k].spotId == id
  }

  /** Some owned spot has id `id`. */
  predicate Owns(spots: seq<OwnedSpot>, id: string) {
    exists j :: 0 <= j < |spots| && spots[j].id == id
  }

  predicate ZeroTotals(stats: seq<SpotStats>) {
    forall k :: 0 <= k < |stats| ==> stats[k].totalBookings == 0 && stats[k].totalEarnings == 0.0
  }

  /** Writing one key keeps the ids distinct and the totals zero, and adds exactly that key. */
  lemma UpsertShape(stats: seq<SpotStats>, s: OwnedSpot)
    requires DistinctSpotIds(stats) && ZeroTotals(stats)
    ensures DistinctSpotIds(Upsert(stats, s)) && ZeroTotals(Upsert(stats, s))
    ensures forall id :: HasEntryFor(Upsert(stats, s), id) <==> HasEntryFor(stats, id) || id == s.id
  {
    var k := FindIndex(stats, HasSpotId(s.id));
    var r := Upsert(stats, s);
    forall id ensures HasEntryFor(r, id) <==> HasEntryFor(stats, id) || id == s.id {
      if HasEntryFor(stats, id) {
        var m :| 0 <= m < |stats| && stats[m].spotId == id;
        assert r[m].spotId == id;
      }
      if id == s.id {
        if k < |stats| { assert r[k].spotId == id; } else { assert r[|stats|].spotId == id; }
      }
      if HasEntryFor(r, id) && id != s.id {
        var m :| 0 <= m < |r| && r[m].spotId == id;
        assert stats[m].spotId == id;
      }
    }
  }

  /** The initial records have distinct ids, zero totals, and one record per owned spot id. */
  lemma {:induction false} InitStatsShape(spots: seq<OwnedSpot>)
    ensures DistinctSpotIds(InitStats(spots)) && ZeroTotals(InitStats(spots))
    ensures forall id :: HasEntryFor(InitStats(spots), id) <==> Owns(spots, id)
  {
    if spots != [] {
      var prev := spots[..|spots| - 1];
      var s := spots[|spots| - 1];
      InitStatsShape(prev);
      UpsertShape(InitStats(prev), s);
      forall id ensures Owns(spots, id) <==> Owns(prev, id) || id == s.id {
        if Owns(prev, id) {
          var j :| 0 <= j < |prev| && prev[j].id == id;
          assert spots[j].id == id;
        }
        if Owns(spots, id) && id != s.id {
          var j :| 0 <= j < |spots| && spots[j].id == id;
          assert prev[j].id == id;
        }
      }
    }
  }

  /** Initialising `spotStatsMap`: one record per owned spot, in spot order, a repeated id overwriting. */
  method InitialStats(spots: seq<OwnedSpot>) returns (stats: seq<SpotStats>)
    ensures stats == InitStats(spots)
  {
    stats := [];
    for j := 0 to |spots|
      invariant stats == InitStats(spots[..j])
    {
      assert spots[..j + 1][..j] == spots[..j];
      var s := spots[j];
      var k := FindIndex(stats, HasSpotId(s.id));
      if k < |stats| {
        stats := stats[k := FreshStats(s)];
      } else {
        stats := stats + [FreshStats(s)];
      }
    }
    assert spots[..|spots|] == spots;
  }

  /** A record with one more booking of the given price. */
  function Bump(e: SpotStats, price: real): SpotStats {
    e.(totalBookings := e.totalBookings + 1, totalEarnings := e.totalEarnings + price)
  }

  /** Adding one earning booking to the record of its spot, when the spot is one of the owner's. */
  method AddToSpot(stats: seq<SpotStats>, b: BookingRow) returns (r: seq<SpotStats>)
    requires DistinctSpotIds(stats)
    ensures |r| == |stats|
    ensures forall m :: 0 <= m < |r| ==> r[m] == if stats[m].spotId == b.spotId then Bump(stats[m], b.totalPrice) else stats[m]
  {
    var k := FindIndex(stats, HasSpotId(b.spotId));
    r := stats;
    if k < |stats| {
      r := stats[k := Bump(stats[k], b.totalPrice)];
    }
  }

  /** The status counters after one more booking. */
  method CountStep(bookings: seq<BookingRow>, i: nat, active: nat, completed: nat, cancelled: nat)
    returns (active': nat, completed': nat, cancelled': nat)
    requires i < |bookings|
    requires active == CountStatus(bookings[..i], Active)
    requires completed == CountStatus(bookings[..i], Completed)
    requires cancelled == CountStatus(bookings[..i], Cancelled)
    ensures active' == CountStatus(bookings[..i + 1], Active)
    ensures completed' == CountStatus(bookings[..i + 1], Completed)
    ensures cancelled' == CountStatus(bookings[..i + 1], Cancelled)
  {
    StatusStep(bookings, i, Active);
    StatusStep(bookings, i, Completed);
    StatusStep(bookings, i, Cancelled);
    active', completed', cancelled' := active, completed, cancelled;
    var b := bookings[i];
    if b.status == Active {
      active' := active + 1;
    } else if b.status == Completed {
      completed' := completed + 1;
    } else if b.status == Cancelled {
      cancelled' := cancelled + 1;
    }
  }

  /** The earnings totals after one more booking: only a booking that is not cancelled adds its price. */
  method EarnStep(bookings: seq<BookingRow>, i: nat, w: Windows, total: real, thisMonth: real, lastMonth: real, thisWeek: real)
    returns (total': real, thisMonth': real, lastMonth': real, thisWeek': real)
    requires i < |bookings|
    requires total == EarnedSum(bookings[..i], Everything())
    requires thisMonth == EarnedSum(bookings[..i], OnDays(w.thisMonth))
    requires lastMonth == EarnedSum(bookings[..i], OnDays(w.lastMonth))
    requires thisWeek == EarnedSum(bookings[..i], OnDays(w.thisWeek))
    ensures total' == EarnedSum(bookings[..i + 1], Everything())
    ensures thisMonth' == EarnedSum(bookings[..i + 1], OnDays(w.thisMonth))
    ensures lastMonth' == EarnedSum(bookings[..i + 1], OnDays(w.lastMonth))
    ensures thisWeek' == EarnedSum(bookings[..i + 1], OnDays(w.thisWeek))
  {
    SumStep(bookings, i, Everything());
    SumStep(bookings, i, OnDays(w.thisMonth));
    SumStep(bookings, i, OnDays(w.lastMonth));
    SumStep(bookings, i, OnDays(w.thisWeek));
    total', thisMonth', lastMonth', thisWeek' := total, thisMonth, lastMonth, thisWeek;
    var b := bookings[i];
    if b.status != Cancelled {
      total' := total + b.totalPrice;
      if w.thisMonth.first <= b.date <= w.thisMonth.last {
        thisMonth' := thisMonth + b.totalPrice;
      }
      if w.lastMonth.first <= b.date <= w.lastMonth.last {
        lastMonth' := lastMonth + b.totalPrice;
      }
      if w.thisWeek.first <= b.date <= w.thisWeek.last {
        thisWeek' := thisWeek + b.totalPrice;
      }
    }
  }

  /** The per-spot records after one more booking. */
  method SpotStep(bookings: seq<BookingRow>, i: nat, init: seq<SpotStats>, stats: seq<SpotStats>)
    returns (stats': seq<SpotStats>)
    requires i < |bookings| && DistinctSpotIds(init)
    requires |stats| == |init| && forall k :: 0 <= k < |stats| ==> stats[k] == Totals(init[k], bookings[..i])
    ensures |stats'| == |init| && forall k :: 0 <= k < |stats'| ==> stats'[k] == Totals(init[k], bookings[..i + 1])
  {
    forall k | 0 <= k < |init| {
      SumStep(bookings, i, ForSpot(init[k].spotId));
    }
    var b := bookings[i];
    stats' := stats;
    if b.status != Cancelled {
      assert forall k :: 0 <= k < |stats| ==> stats[k].spotId == init[k].spotId;
      stats' := AddToSpot(stats, b);
    }
  }

  /** The per-day map after one more booking: a day's entry is created on its first earning booking. */
  method DayStep(bookings: seq<BookingRow>, i: nat, daily: map<int, DailyEarning>)
    returns (daily': map<int, DailyEarning>)
    requires i < |bookings|
    requires forall d :: d in daily ==> daily[d] == DayTotals(bookings[..i], d)
    requires forall d :: d !in daily ==> DayTotals(bookings[..i], d) == DailyEarning(d, 0.0, 0)
    ensures forall d :: d in daily' ==> daily'[d] == DayTotals(bookings[..i + 1], d)
    ensures forall d :: d !in daily' ==> DayTotals(bookings[..i + 1], d) == DailyEarning(d, 0.0, 0)
  {
    forall d {
      SumStep(bookings, i, OnDay(d));
    }
    var b := bookings[i];
    daily' := daily;
    if b.status != Cancelled {
      var day := if b.date in daily then daily[b.date] else DailyEarning(b.date, 0.0, 0);
      daily' := daily[b.date := day.(earnings := day.earnings + b.totalPrice, bookings := day.bookings + 1)];
    }
  }

  /**
   * The `forEach` over the bookings: status counters, earnings totals for the
   * history and the three windows, the per-spot records and the per-day map.
   */
  method Tally(bookings: seq<BookingRow>, w: Windows, init: seq<SpotStats>)
    returns (totalEarnings: real, thisMonthEarnings: real, lastMonthEarnings: real, thisWeekEarnings: real,
             activeBookings: nat, completedBookings: nat, cancelledBookings: nat,
             stats: seq<SpotStats>, daily: map<int, DailyEarning>)
    requires DistinctSpotIds(init) && ZeroTotals(init)
    ensures totalEarnings == EarnedSum(bookings, Everything())
    ensures thisMonthEarnings == EarnedSum(bookings, OnDays(w.thisMonth))
    ensures lastMonthEarnings == EarnedSum(bookings, OnDays(w.lastMonth))
    ensures thisWeekEarnings == EarnedSum(bookings, OnDays(w.thisWeek))
    ensures activeBookings == CountStatus(bookings, Active)
    ensures completedBookings == CountStatus(bookings, Completed)
    ensures cancelledBookings == CountStatus(bookings, Cancelled)
    ensures |stats| == |init| && forall k :: 0 <= k < |stats| ==> stats[k] == Totals(init[k], bookings)
    ensures forall d :: d in daily ==> daily[d] == DayTotals(bookings, d)
    ensures forall d :: d !in daily ==> DayTotals(bookings, d) == DailyEarning(d, 0.0, 0)
  {
    totalEarnings, thisMonthEarnings, lastMonthEarnings, thisWeekEarnings := 0.0, 0.0, 0.0, 0.0;
    activeBookings, completedBookings, cancelledBookings := 0, 0, 0;
    stats := init;
    daily := map[];
    for i := 0 to |bookings|
      invariant totalEarnings == EarnedSum(bookings[..i], Everything())
      invariant thisMonthEarnings == EarnedSum(bookings[..i], OnDays(w.thisMonth))
      invariant lastMonthEarnings == EarnedSum(bookings[..i], OnDays(w.lastMonth))
      invariant thisWeekEarnings == EarnedSum(bookings[..i], OnDays(w.thisWeek))
      invariant activeBookings == CountStatus(bookings[..i], Active)
      invariant completedBookings == CountStatus(bookings[..i], Completed)
      invariant cancelledBookings == CountStatus(bookings[..i], Cancelled)
      invariant |stats| == |init| && forall k :: 0 <= k < |stats| ==> stats[k] == Totals(init[k], bookings[..i])
      invariant forall d :: d in daily ==> daily[d] == DayTotals(bookings[..i], d)
      invariant forall d :: d !in daily ==> DayTotals(bookings[..i], d) == DailyEarning(d, 0.0, 0)
    {
      activeBookings, completedBookings, cancelledBookings :=
        CountStep(bookings, i, activeBookings, completedBookings, cancelledBookings);
      totalEarnings, thisMonthEarnings, lastMonthEarnings, thisWeekEarnings :=
        EarnStep(bookings, i, w, totalEarnings, thisMonthEarnings, lastMonthEarnings, thisWeekEarnings);
      stats := SpotStep(bookings, i, init, stats);
      daily := DayStep(bookings, i, daily);
    }
    assert bookings[..|bookings|] == bookings;
  }

  /** The chart: for each of the 30 days ending today, oldest first, the day's entry or zeros. */
  method Chart(bookings: seq<BookingRow>, daily: map<int, DailyEarning>, today: int) returns (chart: seq<DailyEarning>)
    requires forall d :: d in daily ==> daily[d] == DayTotals(bookings, d)
    requires forall d :: d !in daily ==> DayTotals(bookings, d) == DailyEarning(d, 0.0, 0)
    ensures chart == DailySeries(bookings, today)
  {
    chart := [];
    for n := 0 to ChartDays
      invariant |chart| == n
      invariant forall j :: 0 <= j < n ==> chart[j] == DayTotals(bookings, today - (ChartDays - 1) + j)
    {
      var date := today - (ChartDays - 1 - n);
      var entry := if date in daily then daily[date] else DailyEarning(date, 0.0, 0);
      chart := chart + [entry];
    }
  }

  /**
   * `fetchAnalytics` after both queries returned rows: an owner without
   * spots gets the zero analytics; otherwise the records are initialised,
   * the bookings tallied in one pass, the per-spot list sorted, the chart
   * read from the day map and the first ten bookings mapped.
   */
  method Aggregate(spots: seq<OwnedSpot>, bookings: seq<BookingRow>, w: Windows, today: int) returns (a: Analytics)
    ensures a == AnalyticsOf(spots, bookings, w, today)
  {
    if |spots| == 0 {
      return NoAnalytics;
    }
    var init := InitialStats(spots);
    InitStatsShape(spots);
    var totalEarnings, thisMonthEarnings, lastMonthEarnings, thisWeekEarnings,
        activeBookings, completedBookings, cancelledBookings, stats, daily := Tally(bookings, w, init);
    var dailyEarnings := Chart(bookings, daily, today);
    var recentBookings := RecentSeries(bookings, spots);
    var totalBookingsCount := |Filter(bookings, NotCancelled())|;
    assert stats == SpotTotals(spots, bookings);
    a := Analytics(
      totalEarnings, totalBookingsCount, activeBookings, completedBookings, cancelledBookings,
      thisMonthEarnings, lastMonthEarnings, thisWeekEarnings,
      Average(totalEarnings, totalBookingsCount),
      SortByEarnings(stats), dailyEarnings, recentBookings);
  }

  // ---------------------------------------------------------------------
  // What the analytics mean.
  // ---------------------------------------------------------------------

  /** The sum of the prices of a list of bookings (an independent reference for the totals). */
  function SumPrices(bs: seq<BookingRow>): real {
    if bs == [] then 0.0 else SumPrices(bs[..|bs| - 1]) + bs[|bs| - 1].totalPrice
  }

  lemma SumPricesSnoc(bs: seq<BookingRow>, b: BookingRow)
    ensures SumPrices(bs + [b]) == SumPrices(bs) + b.totalPrice
  {
    assert (bs + [b])[..|bs + [b]| - 1] == bs;
  }

  /**
   * The total earnings are the sum of the prices of the bookings that are not
   * cancelled, and the booking count is their number.
   */
  lemma {:induction false} TotalsAreOverNotCancelled(bs: seq<BookingRow>)
    ensures EarnedSum(bs, Everything()) == SumPrices(Filter(bs, NotCancelled()))
    ensures EarnedCount(bs, Everything()) == |Filter(bs, NotCancelled())|
  {
    if bs != [] {
      var prev, b := bs[..|bs| - 1], bs[|bs| - 1];
      TotalsAreOverNotCancelled(prev);
      assert bs == prev + [b];
      FilterAppend(prev, [b], NotCancelled());
      assert Filter([b], NotCancelled()) == if Earns(b) then [b] else [];
      if Earns(b) {
        SumPricesSnoc(Filter(prev, NotCancelled()), b);
      } else {
        assert Filter(prev, NotCancelled()) + [] == Filter(prev, NotCancelled());
      }
    }
  }

  predicate IsOtherStatus(b: BookingRow) {
    b.status.Other?
  }

  /** The number of bookings whose status is none of the three known ones. */
  function CountOther(bs: seq<BookingRow>): nat {
    if bs == [] then 0 else CountOther(bs[..|bs| - 1]) + (if IsOtherStatus(bs[|bs| - 1]) then 1 else 0)
  }

  /**
   * Every booking is counted once: active, completed and cancelled plus the
   * unknown statuses make up all bookings, and the ones that are not
   * cancelled are the earning ones.
   */
  lemma {:induction false} StatusesPartition(bs: seq<BookingRow>)
    ensures CountStatus(bs, Active) + CountStatus(bs, Completed) + CountStatus(bs, Cancelled) + CountOther(bs) == |bs|
    ensures EarnedCount(bs, Everything()) + CountStatus(bs, Cancelled) == |bs|
  {
    if bs != [] {
      StatusesPartition(bs[..|bs| - 1]);
    }
  }

  /** The counters of the analytics: each booking in exactly one status counter or none, and the earning count. */
  lemma CountersSpec(spots: seq<OwnedSpot>, bs: seq<BookingRow>, w: Windows, today: int)
    requires |spots| > 0
    ensures var a := AnalyticsOf(spots, bs, w, today);
      a.activeBookings + a.completedBookings + a.cancelledBookings + CountOther(bs) == |bs| &&
      a.totalBookings + a.cancelledBookings == |bs| &&
      a.totalEarnings == SumPrices(Filter(bs, NotCancelled()))
  {
    TotalsAreOverNotCancelled(bs);
    StatusesPartition(bs);
  }

  /** An owner without spots gets every counter and total zero and every list empty, whatever the bookings. */
  lemma NoSpotsSpec(bs: seq<BookingRow>, w: Windows, today: int)
    ensures var a := AnalyticsOf([], bs, w, today);
      a.totalEarnings == 0.0 && a.totalBookings == 0 && a.activeBookings == 0 &&
      a.completedBookings == 0 && a.cancelledBookings == 0 && a.thisMonthEarnings == 0.0 &&
      a.lastMonthEarnings == 0.0 && a.thisWeekEarnings == 0.0 && a.averageBookingValue == 0.0 &&
      a.spotStats == [] && a.dailyEarnings == [] && a.recentBookings == []
  {
  }

  /**
   * The chart of an owner with spots has 30 consecutive days ending today,
   * each with the earnings and count of that day's earning bookings.
   */
  lemma ChartSpec(spots: seq<OwnedSpot>, bs: seq<BookingRow>, w: Windows, today: int)
    requires |spots| > 0
    ensures var c := AnalyticsOf(spots, bs, w, today).dailyEarnings;
      |c| == 30 && c[29].date == today &&
      (forall j :: 0 < j < |c| ==> c[j].date == c[j - 1].date + 1) &&
      (forall j :: 0 <= j < |c| ==>
        c[j].earnings == EarnedSum(bs, OnDay(c[j].date)) && c[j].bookings == EarnedCount(bs, OnDay(c[j].date)))
  {
    var c := AnalyticsOf(spots, bs, w, today).dailyEarnings;
    assert c == DailySeries(bs, today);
    forall j | 0 <= j < |c| ensures c[j] == DayTotals(bs, today - 29 + j) {
      assert c[j] == DailySeries(bs, today)[j];
    }
  }

  /** The average times the number of earning bookings is the total; with none it is zero. */
  lemma AverageSpec(spots: seq<OwnedSpot>, bs: seq<BookingRow>, w: Windows, today: int)
    ensures var a := AnalyticsOf(spots, bs, w, today);
      (a.totalBookings > 0 ==> a.averageBookingValue * a.totalBookings as real == a.totalEarnings) &&
      (a.totalBookings == 0 ==> a.averageBookingValue == 0.0)
  {
  }

  /** A cancelled booking added to a list adds nothing to any total of it. */
  lemma CancelledSums(bs: seq<BookingRow>, b: BookingRow, p: BookingRow -> bool)
    requires b.status == Cancelled
    ensures EarnedSum(bs + [b], p) == EarnedSum(bs, p)
    ensures EarnedCount(bs + [b], p) == EarnedCount(bs, p)
  {
    assert (bs + [b])[..|bs + [b]| - 1] == bs;
  }

  /**
   * Cancelling does not earn: with one more cancelled booking every earnings
   * figure, the booking count, the per-spot list and the chart are the same,
   * and only the cancelled counter grows.
   */
  lemma CancelledEarnsNothing(spots: seq<OwnedSpot>, bs: seq<BookingRow>, b: BookingRow, w: Windows, today: int)
    requires |spots| > 0 && b.status == Cancelled
    ensures var a, a' := AnalyticsOf(spots, bs, w, today), AnalyticsOf(spots, bs + [b], w, today);
      a'.totalEarnings == a.totalEarnings && a'.thisMonthEarnings == a.thisMonthEarnings &&
      a'.lastMonthEarnings == a.lastMonthEarnings && a'.thisWeekEarnings == a.thisWeekEarnings &&
      a'.totalBookings == a.totalBookings && a'.averageBookingValue == a.averageBookingValue &&
      a'.spotStats == a.spotStats && a'.dailyEarnings == a.dailyEarnings &&
      a'.cancelledBookings == a.cancelledBookings + 1 &&
      a'.activeBookings == a.activeBookings && a'.completedBookings == a.completedBookings
  {
    CancelledSums(bs, b, Everything());
    CancelledSums(bs, b, OnDays(w.thisMonth));
    CancelledSums(bs, b, OnDays(w.lastMonth));
    CancelledSums(bs, b, OnDays(w.thisWeek));
    assert (bs + [b])[..|bs + [b]| - 1] == bs;
    FilterAppend(bs, [b], NotCancelled());
    assert Filter([b], NotCancelled()) == [];
    assert Filter(bs, NotCancelled()) + [] == Filter(bs, NotCancelled());
    var init := InitStats(spots);
    forall k | 0 <= k < |init| ensures Totals(init[k], bs + [b]) == Totals(init[k], bs) {
      CancelledSums(bs, b, ForSpot(init[k].spotId));
    }
    assert SpotTotals(spots, bs + [b]) == SpotTotals(spots, bs);
    forall j | 0 <= j < ChartDays
      ensures DailySeries(bs + [b], today)[j] == DailySeries(bs, today)[j]
    {
      var d := today - (ChartDays - 1) + j;
      CancelledSums(bs, b, OnDay(d));
      assert DailySeries(bs + [b], today)[j] == DayTotals(bs + [b], d);
      assert DailySeries(bs, today)[j] == DayTotals(bs, d);
    }
  }

  /** A booking for a spot the owner does not have changes no per-spot total. */
  lemma ForeignBookingIgnored(spots: seq<OwnedSpot>, bs: seq<BookingRow>, b: BookingRow)
    requires !Owns(spots, b.spotId)
    ensures SpotTotals(spots, bs + [b]) == SpotTotals(spots, bs)
  {
    var init := InitStats(spots);
    InitStatsShape(spots);
    assert (bs + [b])[..|bs + [b]| - 1] == bs;
    forall k | 0 <= k < |init| ensures Totals(init[k], bs + [b]) == Totals(init[k], bs) {
      assert HasEntryFor(init, init[k].spotId);
    }
  }

  lemma {:induction false} InsertDistinct(x: SpotStats, t: seq<SpotStats>)
    requires DistinctSpotIds(t) && !HasEntryFor(t, x.spotId)
    ensures DistinctSpotIds(InsertByEarnings(x, t))
  {
    if t == [] || x.totalEarnings >= t[0].totalEarnings {
      forall e | e in t ensures e.spotId != x.spotId {
        var j :| 0 <= j < |t| && t[j] == e;
      }
      ConsDistinct(x, t);
    } else {
      DistinctTail(t);
      assert !HasEntryFor(t[1..], x.spotId) by {
        forall m | 0 <= m < |t[1..]| ensures t[1..][m].spotId != x.spotId {
          assert t[1..][m] == t[m + 1];
        }
      }
      InsertDistinct(x, t[1..]);
      var rest := InsertByEarnings(x, t[1..]);
      forall e | e in rest ensures e.spotId != t[0].spotId {
        InsertMembers(x, t[1..], e);
        assert t[0].spotId != x.spotId;
      }
      ConsDistinct(t[0], rest);
    }
  }

  /** The tail of a list with distinct ids has distinct ids, none of them the head's. */
  lemma DistinctTail(t: seq<SpotStats>)
    requires DistinctSpotIds(t) && t != []
    ensures DistinctSpotIds(t[1..])
    ensures forall e | e in t[1..] :: e.spotId != t[0].spotId
  {
    forall i, j | 0 <= i < j < |t[1..]| ensures t[1..][i].spotId != t[1..][j].spotId {
      assert t[1..][i] == t[i + 1] && t[1..][j] == t[j + 1];
    }
    forall e | e in t[1..] ensures e.spotId != t[0].spotId {
      var j :| 0 <= j < |t[1..]| && t[1..][j] == e;
      assert t[j + 1] == e;
    }
  }

  /** A record whose id no record of a distinct list has can go in front of it. */
  lemma ConsDistinct(h: SpotStats, rest: seq<SpotStats>)
    requires DistinctSpotIds(rest)
    requires forall e | e in rest :: e.spotId != h.spotId
    ensures DistinctSpotIds([h] + rest)
  {
    var r := [h] + rest;
    forall i, j | 0 <= i < j < |r| ensures r[i].spotId != r[j].spotId {
      if i == 0 {
        assert r[j] == rest[j - 1];
        assert r[j] in rest;
      } else {
        assert r[i] == rest[i - 1] && r[j] == rest[j - 1];
      }
    }
  }

  lemma {:induction false} SortDistinct(s: seq<SpotStats>)
    requires DistinctSpotIds(s)
    ensures DistinctSpotIds(SortByEarnings(s))
  {
    if s != [] {
      var sorted := SortByEarnings(s[1..]);
      assert DistinctSpotIds(s[1..]) by {
        forall i, j | 0 <= i < j < |s[1..]| ensures s[1..][i].spotId != s[1..][j].spotId {
          assert s[1..][i] == s[i + 1] && s[1..][j] == s[j + 1];
        }
      }
      SortDistinct(s[1..]);
      SortByEarningsSpec(s[1..]);
      forall m | 0 <= m < |sorted| ensures sorted[m].spotId != s[0].spotId {
        assert sorted[m] in multiset(s[1..]);
        var j :| 0 <= j < |s[1..]| && s[1..][j] == sorted[m];
        assert s[j + 1] == sorted[m];
      }
      InsertDistinct(s[0], sorted);
    }
  }

  /**
   * The per-spot list: sorted by earnings, most first; exactly one record for
   * each owned spot id and none for any other; each record holding the count
   * and the sum of the earning bookings of its spot.
   */
  lemma SpotStatsSpec(spots: seq<OwnedSpot>, bs: seq<BookingRow>, w: Windows, today: int)
    requires |spots| > 0
    ensures var st := AnalyticsOf(spots, bs, w, today).spotStats;
      SortedByEarnings(st) && DistinctSpotIds(st) &&
      (forall id :: HasEntryFor(st, id) <==> Owns(spots, id)) &&
      (forall k :: 0 <= k < |st| ==>
        st[k].totalBookings == EarnedCount(bs, ForSpot(st[k].spotId)) &&
        st[k].totalEarnings == EarnedSum(bs, ForSpot(st[k].spotId)))
  {
    var totals := SpotTotals(spots, bs);
    var st := SortByEarnings(totals);
    TotalsShape(spots, bs);
    SortByEarningsSpec(totals);
    SortDistinct(totals);
    forall e ensures e in st <==> e in totals {
      SortedMembers(totals, e);
    }
    forall id ensures HasEntryFor(st, id) <==> HasEntryFor(totals, id) {
      if HasEntryFor(st, id) {
        var m :| 0 <= m < |st| && st[m].spotId == id;
        assert st[m] in totals;
        var k :| 0 <= k < |totals| && totals[k] == st[m];
      }
      if HasEntryFor(totals, id) {
        var k :| 0 <= k < |totals| && totals[k].spotId == id;
        assert totals[k] in st;
        var m :| 0 <= m < |st| && st[m] == totals[k];
      }
    }
    forall k | 0 <= k < |st|
      ensures st[k].totalBookings == EarnedCount(bs, ForSpot(st[k].spotId))
      ensures st[k].totalEarnings == EarnedSum(bs, ForSpot(st[k].spotId))
    {
      assert st[k] in totals;
      var j :| 0 <= j < |totals| && totals[j] == st[k];
    }
  }

  /** Sorting keeps exactly the records it was given. */
  lemma SortedMembers(s: seq<SpotStats>, e: SpotStats)
    ensures e in SortByEarnings(s) <==> e in s
  {
    SortByEarningsSpec(s);
    assert e in SortByEarnings(s) <==> e in multiset(SortByEarnings(s));
    assert e in s <==> e in multiset(s);
  }

  /**
   * Before sorting, the records have distinct ids, one per owned spot id,
   * each with the totals of its spot's earning bookings.
   */
  lemma TotalsShape(spots: seq<OwnedSpot>, bs: seq<BookingRow>)
    ensures var t := SpotTotals(spots, bs);
      DistinctSpotIds(t) && (forall id :: HasEntryFor(t, id) <==> Owns(spots, id)) &&
      (forall k :: 0 <= k < |t| ==>
        t[k].totalBookings == EarnedCount(bs, ForSpot(t[k].spotId)) &&
        t[k].totalEarnings == EarnedSum(bs, ForSpot(t[k].spotId)))
  {
    var init := InitStats(spots);
    var t := SpotTotals(spots, bs);
    InitStatsShape(spots);
    assert forall k :: 0 <= k < |t| ==> t[k].spotId == init[k].spotId;
    forall id ensures HasEntryFor(t, id) <==> HasEntryFor(init, id) {
      if HasEntryFor(t, id) {
        var k :| 0 <= k < |t| && t[k].spotId == id;
        assert init[k].spotId == id;
      }
      if HasEntryFor(init, id) {
        var k :| 0 <= k < |init| && init[k].spotId == id;
        assert t[k].spotId == id;
      }
    }
  }

  /**
   * The recent list: the first ten bookings (all of them when fewer), in
   * order, each carrying its booking's id, price, date, status and creation
   * time, with the first owned spot of its id, or none when no owned spot
   * has that id.
   */
  lemma RecentSpec(spots: seq<OwnedSpot>, bs: seq<BookingRow>, w: Windows, today: int)
    requires |spots| > 0
    ensures var r := AnalyticsOf(spots, bs, w, today).recentBookings;
      |r| == (if |bs| < RecentLimit then |bs| else RecentLimit) &&
      forall i :: 0 <= i < |r| ==>
        r[i].id == bs[i].id && r[i].totalPrice == bs[i].totalPrice && r[i].status == bs[i].status &&
        r[i].date == bs[i].date && r[i].createdAt == bs[i].createdAt &&
        (r[i].spot.None? <==> !Owns(spots, bs[i].spotId)) &&
        (r[i].spot.Some? ==> (exists k :: 0 <= k < |spots| && spots[k] == r[i].spot.value &&
                                spots[k].id == bs[i].spotId && forall j :: 0 <= j < k ==> spots[j].id != bs[i].spotId))
  {
    var r := AnalyticsOf(spots, bs, w, today).recentBookings;
    forall i | 0 <= i < |r|
      ensures r[i].spot.None? <==> !Owns(spots, bs[i].spotId)
      ensures r[i].spot.Some? ==> (exists k :: 0 <= k < |spots| && spots[k] == r[i].spot.value &&
                                     spots[k].id == bs[i].spotId && forall j :: 0 <= j < k ==> spots[j].id != bs[i].spotId)
    {
      if Owns(spots, bs[i].spotId) {
        var j :| 0 <= j < |spots| && spots[j].id == bs[i].spotId;
        assert SpotWithId(bs[i].spotId)(spots[j]);
      }
    }
  }

  // ---------------------------------------------------------------------
  // The hook.
  // ---------------------------------------------------------------------

  /** `useSpotAnalytics`: the analytics of the signed-in owner and a loading flag. */
  class AnalyticsHook {
    var analytics: Option<Analytics>
    var isLoading: bool

    constructor ()
      ensures analytics == None && isLoading
    {
      analytics := None;
      isLoading := true;
    }

    /**
     * `fetchAnalytics`, with the two queries' replies as parameters: signed
     * out clears the analytics; a failed query keeps the old analytics; an
     * owner without spots gets the zero analytics (the bookings query is not
     * made); otherwise the aggregate. Loading ends in every case.
     */
    method Fetch(user: Option<string>, spotsReply: Result<seq<OwnedSpot>, string>,
                 bookingsReply: Result<seq<BookingRow>, string>, w: Windows, today: int)
      modifies this
      ensures !isLoading
      ensures user.None? ==> analytics == None
      ensures user.Some? && spotsReply.Failure? ==> analytics == old(analytics)
      ensures user.Some? && spotsReply.Success? && |spotsReply.value| == 0 ==> analytics == Some(NoAnalytics)
      ensures user.Some? && spotsReply.Success? && |spotsReply.value| > 0 && bookingsReply.Failure? ==>
        analytics == old(analytics)
      ensures user.Some? && spotsReply.Success? && |spotsReply.value| > 0 && bookingsReply.Success? ==>
        analytics == Some(AnalyticsOf(spotsReply.value, bookingsReply.value, w, today))
    {
      if user.None? {
        analytics := None;
        isLoading := false;
        return;
      }
      isLoading := true;
      if spotsReply.Failure? {
        isLoading := false;
        return;
      }
      var spots := spotsReply.value;
      if |spots| == 0 {
        analytics := Some(NoAnalytics);
        isLoading := false;
        return;
      }
      if bookingsReply.Failure? {
        isLoading := false;
        return;
      }
      var a := Aggregate(spots, bookingsReply.value, w, today);
      analytics := Some(a);
      isLoading := false;
    }
  }
}
