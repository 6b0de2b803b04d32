/**
 * The bookings hook: the active booking among the fetched ones, the
 * booking code made from the timestamp, and the row `createBooking` inserts.
 */
module Bookings {
  import opened Maybe
  import opened Text
  import opened Lists

  datatype Status = Active | Completed | Cancelled

  datatype BookingRow = BookingRow(
    id: string, userId: string, spotId: string, vehicleId: Option<string>,
    date: string, startTime: string, endTime: string, duration: int, totalPrice: real,
    status: Status, bookingCode: string, createdAt: string)

  function IsActive(): BookingRow -> bool {
    (b: BookingRow) => b.status == Active
  }

  /** `bookingsQuery.data?.find(b => b.status === 'active')`: nothing before the data arrives. */
  function ActiveBooking(data: Option<seq<BookingRow>>): Option<BookingRow> {
    match data
    case None => None
    case Some(rows) => Find(rows, IsActive())
  }

  /**
   * The active booking is the first fetched booking whose status is active,
   * and there is none exactly when no fetched booking is active.
   */
  lemma ActiveBookingSpec(rows: seq<BookingRow>)
    ensures ActiveBooking(Some(rows)).None? <==> forall i :: 0 <= i < |rows| ==> rows[i].status != Active
    ensures ActiveBooking(Some(rows)).Some? ==>
      exists k :: 0 <= k < |rows| && rows[k] == ActiveBooking(Some(rows)).value && rows[k].status == Active &&
                  forall j :: 0 <= j < k ==> rows[j].status != Active
  {
    var r := Find(rows, IsActive());
    if r.Some? {
      var k :| 0 <= k < |rows| && rows[k] == r.value && IsActive()(rows[k]) && forall j :: 0 <= j < k ==> !IsActive()(rows[j]);
    }
  }

  /** `PK${Date.now().toString(36).toUpperCase()}`. */
  function BookingCode(now: nat): string {
    "PK" + Upper(ToRadix(now, 36))
  }

  /**
   * A code is "PK" and then upper-case base-36 digits only, reading those
   * digits in base 36 gives back the timestamp, and so distinct timestamps
   * give distinct codes.
   */
  lemma BookingCodeSpec(now: nat, other: nat)
    ensures |BookingCode(now)| >= 3 && BookingCode(now)[..2] == "PK"
    ensures forall i :: 2 <= i < |BookingCode(now)| ==> IsUpperRadixDigit(BookingCode(now)[i])
    ensures FromRadix(BookingCode(now)[2..], 36) == now
    ensures other != now ==> BookingCode(other) != BookingCode(now)
  {
    var digits := Upper(ToRadix(now, 36));
    ToRadixDigits(now, 36);
    UpperRadixDigits(now, 36);
    assert BookingCode(now)[2..] == digits;
    forall i | 2 <= i < |BookingCode(now)| ensures IsUpperRadixDigit(BookingCode(now)[i]) {
      assert BookingCode(now)[i] == digits[i - 2];
    }
    FromRadixUpper(ToRadix(now, 36), 36);
    FromToRadix(now, 36);
    if BookingCode(other) == BookingCode(now) {
      assert BookingCode(other)[2..] == Upper(ToRadix(other, 36));
      UpperRadixInjective(other, now, 36);
    }
  }

  /** What the caller passes to `createBooking`. */
  datatype BookingRequest = BookingRequest(
    spotId: string, date: string, startTime: string, endTime: string,
    duration: int, totalPrice: real, vehicleId: Option<string>)

  /** The row `createBooking` inserts. */
  datatype NewBookingRow = NewBookingRow(
    userId: string, spotId: string, date: string, startTime: string, endTime: string,
    duration: int, totalPrice: real, vehicleId: Option<string>, bookingCode: string, status: Status)

  /** The mutation's row at time `now`, or "Not authenticated" without a user. */
  function CreateBookingRow(user: Option<string>, req: BookingRequest, now: nat): Result<NewBookingRow, string> {
    match user
    case None => Failure("Not authenticated")
    case Some(uid) =>
      Success(NewBookingRow(uid, req.spotId, req.date, req.startTime, req.endTime,
                            req.duration, req.totalPrice, req.vehicleId, BookingCode(now), Active))
  }

  /** `createBooking`: the insert (a parameter) is reached only with a row built for a signed-in user. */
  function CreateBooking(user: Option<string>, req: BookingRequest, now: nat,
                         insert: NewBookingRow -> Result<BookingRow, string>): Result<BookingRow, string> {
    match CreateBookingRow(user, req, now)
    case Failure(e) => Failure(e)
    case Success(row) => insert(row)
  }

  /**
   * Without a user the mutation fails with "Not authenticated" whatever the
   * insert would do; with one, the inserted row is the request for that user,
   * active, with the timestamp's booking code.
   */
  lemma CreateBookingSpec(user: Option<string>, req: BookingRequest, now: nat,
                          insert: NewBookingRow -> Result<BookingRow, string>)
    ensures user.None? ==> CreateBooking(user, req, now, insert) == Failure("Not authenticated")
    ensures user.Some? ==>
      var row := CreateBookingRow(user, req, now).value;
      CreateBookingRow(user, req, now).Success? &&
      row.userId == user.value && row.status == Active && row.bookingCode == BookingCode(now) &&
      row.spotId == req.spotId && row.duration == req.duration && row.totalPrice == req.totalPrice &&
      row.date == req.date && row.startTime == req.startTime && row.endTime == req.endTime &&
      row.vehicleId == req.vehicleId &&
      CreateBooking(user, req, now, insert) == insert(row)
  {
  }
}
