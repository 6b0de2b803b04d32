/**
 * The booking confirmation page: the price of the fixed two-hour booking
 * with its service fee, the vehicle number field, when Confirm is enabled,
 * and the booking that confirming adds to the context.
 */
module BookingConfirmation {
  import opened Maybe
  import opened Text
  import opened AppContext

  /** Every booking from this page lasts two hours. */
  const BookedHours: nat := 2

  /** The flat fee added to every booking. */
  const ServiceFee: real := 0.5

  /** `totalPrice`: two hours at the selected spot's price, or 0 without a selected spot. */
  function TotalPrice(selected: Option<ParkingSpot>): real {
    match selected
    case Some(spot) => spot.price * BookedHours as real
    case None => 0.0
  }

  /** `finalTotal`: the price plus the service fee. */
  function FinalTotal(selected: Option<ParkingSpot>): real {
    TotalPrice(selected) + ServiceFee
  }

  /** The amount charged: twice the hourly price plus 0.50, or just the fee without a spot. */
  lemma PriceSpec(selected: Option<ParkingSpot>)
    ensures selected.Some? ==> FinalTotal(selected) == 2.0 * selected.value.price + 0.5
    ensures selected.None? ==> TotalPrice(selected) == 0.0 && FinalTotal(selected) == 0.5
    ensures FinalTotal(selected) - TotalPrice(selected) == ServiceFee
  {
  }

  /** The vehicle number field starts with the user's first vehicle, or empty. */
  function InitialVehicleNumber(user: Option<User>): string {
    if user.Some? && |user.value.vehicles| > 0 then user.value.vehicles[0].number else ""
  }

  /** Confirm is enabled while not processing and with a vehicle number entered. */
  predicate ConfirmEnabled(isProcessing: bool, vehicleNumber: string) {
    !isProcessing && vehicleNumber != ""
  }

  /**
   * On a fresh page Confirm is enabled exactly when the signed-in user has a
   * first vehicle with a number; while processing it is never enabled.
   */
  lemma ConfirmEnabledSpec(user: Option<User>, vehicleNumber: string)
    ensures ConfirmEnabled(false, InitialVehicleNumber(user)) <==>
      user.Some? && |user.value.vehicles| > 0 && user.value.vehicles[0].number != ""
    ensures !ConfirmEnabled(true, vehicleNumber)
    ensures ConfirmEnabled(false, vehicleNumber) <==> vehicleNumber != ""
  {
  }

  /**
   * The booking `handleConfirmBooking` builds at time `now` (milliseconds):
   * its id is the decimal timestamp and its code "PK" with an upper-cased
   * random tag.
   */
  function NewBooking(spot: ParkingSpot, vehicleNumber: string, now: nat, randomTag: string): Booking {
    Booking(Decimal(now), spot, "Today", "10:00 AM", "12:00 PM", BookedHours,
            FinalTotal(Some(spot)), Active, vehicleNumber, "PK" + Upper(randomTag))
  }

  /**
   * The new booking is active, lasts two hours, is for the selected spot and
   * the entered vehicle, costs the final total, and its id reads back as the
   * timestamp.
   */
  lemma NewBookingSpec(spot: ParkingSpot, vehicleNumber: string, now: nat, randomTag: string)
    ensures var b := NewBooking(spot, vehicleNumber, now, randomTag);
      b.status == Active && b.duration == 2 && b.spot == spot && b.vehicleNumber == vehicleNumber &&
      b.totalPrice == 2.0 * spot.price + 0.5 &&
      FromRadix(b.id, 10) == now &&
      b.bookingCode[..2] == "PK"
  {
    FromToRadix(now, 10);
  }

  class ConfirmationPage {
    var vehicleNumber: string
    var isProcessing: bool
    var isConfirmed: bool

    constructor (user: Option<User>)
      ensures vehicleNumber == InitialVehicleNumber(user) && !isProcessing && !isConfirmed
    {
      vehicleNumber := InitialVehicleNumber(user);
      isProcessing := false;
      isConfirmed := false;
    }

    /** Typing in the field, or clicking one of the user's vehicles. */
    method SetVehicleNumber(value: string)
      modifies this`vehicleNumber
      ensures vehicleNumber == value
    {
      vehicleNumber := value;
    }

    /**
     * `handleConfirmBooking` once the simulated payment delay is over: without
     * a selected spot nothing happens; otherwise the new booking becomes the
     * newest booking and the active booking, and the page shows it confirmed.
     */
    method Confirm(app: AppState, now: nat, randomTag: string)
      modifies this, app`bookings, app`activeBooking
      ensures old(app.selectedSpot).None? ==>
        app.bookings == old(app.bookings) && app.activeBooking == old(app.activeBooking) &&
        isConfirmed == old(isConfirmed) && isProcessing == old(isProcessing)
      ensures old(app.selectedSpot).Some? ==>
        var b := NewBooking(old(app.selectedSpot).value, old(vehicleNumber), now, randomTag);
        app.bookings == [b] + old(app.bookings) && app.activeBooking == Some(b) &&
        isConfirmed && !isProcessing
      ensures vehicleNumber == old(vehicleNumber)
    {
      if app.selectedSpot.None? {
        return;
      }
      isProcessing := true;
      var booking := NewBooking(app.selectedSpot.value, vehicleNumber, now, randomTag);
      app.AddBooking(booking);
      isProcessing := false;
      isConfirmed := true;
    }
  }
}
