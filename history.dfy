/**
 * The booking history page: the context's finished bookings followed by a
 * fixed list of sample past bookings, with a status badge and a time text.
 */
module BookingHistory {
  import opened Lists
  import opened AppContext

  /** A sample past booking, with its own spot name, address and time text. */
  datatype PastBooking = PastBooking(
    id: string, spotName: string, address: string, date: string, time: string,
    duration: nat, totalPrice: real, status: BookingStatus)

  const MockHistory: seq<PastBooking> := [
    PastBooking("1", "Downtown Central Parking", "123 Main Street", "Jan 10, 2026", "10:00 AM - 12:00 PM", 2, 7.50, Completed),
    PastBooking("2", "City Mall Parking", "456 Shopping Ave", "Jan 8, 2026", "2:00 PM - 4:00 PM", 2, 4.50, Completed),
    PastBooking("3", "Metro Station Garage", "789 Transit Blvd", "Jan 5, 2026", "9:00 AM - 11:00 AM", 2, 8.50, Cancelled),
    PastBooking("4", "Harbor View Parking", "321 Waterfront Dr", "Jan 3, 2026", "6:00 PM - 10:00 PM", 4, 20.50, Completed)
  ]

  /** A row of the list: a booking from the context, or a sample. */
  datatype HistoryEntry = FromContext(booking: Booking) | FromSample(past: PastBooking)

  function NotActive(): Booking -> bool {
    (b: Booking) => b.status != Active
  }

  /** `allBookings`: the context bookings that are not active, in order, then the samples. */
  function AllBookings(bookings: seq<Booking>): seq<HistoryEntry> {
    var finished := Filter(bookings, NotActive());
    seq(|finished|, i requires 0 <= i < |finished| => FromContext(finished[i])) +
    seq(|MockHistory|, j requires 0 <= j < |MockHistory| => FromSample(MockHistory[j]))
  }

  function Status(e: HistoryEntry): BookingStatus {
    match e
    case FromContext(b) => b.status
    case FromSample(p) => p.status
  }

  /**
   * The list is the finished context bookings in their order (none of them
   * active, none of the finished ones missing) followed by the four samples,
   * so it always has at least four rows and the empty state never shows.
   */
  lemma AllBookingsSpec(bookings: seq<Booking>, b: Booking)
    ensures var all, finished := AllBookings(bookings), Filter(bookings, NotActive());
      |all| == |finished| + 4 && all != [] &&
      (forall i :: 0 <= i < |finished| ==> all[i] == FromContext(finished[i]) && Status(all[i]) != Active) &&
      (forall j :: 0 <= j < 4 ==> all[|finished| + j] == FromSample(MockHistory[j])) &&
      IsSubsequence(finished, bookings) &&
      (FromContext(b) in all <==> b in bookings && b.status != Active)
  {
    var finished := Filter(bookings, NotActive());
    var all := AllBookings(bookings);
    FilterSound(bookings, NotActive());
    FilterSubsequence(bookings, NotActive());
    FilterMembers(bookings, NotActive(), b);
    if FromContext(b) in all {
      var k :| 0 <= k < |all| && all[k] == FromContext(b);
      assert k < |finished|;
      assert finished[k] == b;
    }
    if b in finished {
      var k :| 0 <= k < |finished| && finished[k] == b;
      assert all[k] == FromContext(b);
    }
  }

  /** The badge's classes: success for a completed booking, destructive otherwise. */
  function BadgeClass(status: BookingStatus): string {
    if status == Completed then "bg-success/20 text-success" else "bg-destructive/20 text-destructive"
  }

  lemma BadgeSpec(status: BookingStatus)
    ensures BadgeClass(status) == "bg-success/20 text-success" <==> status == Completed
    ensures BadgeClass(status) == "bg-destructive/20 text-destructive" <==> status != Completed
  {
  }

  /** The time text: a sample's own `time`, else "start - end". */
  function TimeText(e: HistoryEntry): string {
    match e
    case FromSample(p) => p.time
    case FromContext(b) => b.startTime + " - " + b.endTime
  }

  /** A context booking's time text starts with its start time and ends with its end time. */
  lemma TimeTextSpec(e: HistoryEntry)
    ensures e.FromSample? ==> TimeText(e) == e.past.time
    ensures e.FromContext? ==>
      TimeText(e)[..|e.booking.startTime|] == e.booking.startTime &&
      TimeText(e)[|TimeText(e)| - |e.booking.endTime|..] == e.booking.endTime &&
      |TimeText(e)| == |e.booking.startTime| + 3 + |e.booking.endTime|
  {
  }
}
