/**
 * The application-wide state held by the context provider: the signed-in
 * user, the onboarding flag, the selected spot, the in-memory bookings and
 * the active booking, over a fixed list of mock parking spots.
 */
module AppContext {
  import opened Maybe

  datatype ParkingSpot = ParkingSpot(
    id: string, name: string, address: string, price: real, distance: string,
    rating: real, available: int, total: int, amenities: seq<string>,
    lat: real, lng: real, image: string)

  datatype BookingStatus = Active | Completed | Cancelled

  datatype Booking = Booking(
    id: string, spot: ParkingSpot, date: string, startTime: string, endTime: string,
    duration: int, totalPrice: real, status: BookingStatus,
    vehicleNumber: string, bookingCode: string)

  datatype Vehicle = Vehicle(number: string, kind: string, color: string)

  datatype User = User(
    id: string, name: string, email: string, phone: string,
    avatar: Option<string>, vehicles: seq<Vehicle>)

  /** The spots every view of the context sees. */
  const MockParkingSpots: seq<ParkingSpot> := [
    ParkingSpot("1", "Downtown Central Parking", "123 Main Street, Downtown", 3.50, "0.3 mi",
                4.8, 12, 50, ["EV Charging", "Security", "24/7"], 40.7128, -74.0060, "/placeholder.svg"),
    ParkingSpot("2", "City Mall Parking", "456 Shopping Ave", 2.00, "0.5 mi",
                4.5, 8, 120, ["Covered", "Security"], 40.7138, -74.0080, "/placeholder.svg"),
    ParkingSpot("3", "Metro Station Garage", "789 Transit Blvd", 4.00, "0.2 mi",
                4.9, 25, 80, ["EV Charging", "24/7", "Covered"], 40.7118, -74.0040, "/placeholder.svg"),
    ParkingSpot("4", "Harbor View Parking", "321 Waterfront Dr", 5.00, "0.8 mi",
                4.7, 4, 40, ["Valet", "Security", "Premium"], 40.7148, -74.0100, "/placeholder.svg")
  ]

  /** The mock spots have distinct ids and capacities with `0 <= available <= total` and `total > 0`. */
  lemma MockSpotsWellFormed()
    ensures forall i, j :: 0 <= i < j < |MockParkingSpots| ==> MockParkingSpots[i].id != MockParkingSpots[j].id
    ensures forall i :: 0 <= i < |MockParkingSpots| ==>
      0 <= MockParkingSpots[i].available <= MockParkingSpots[i].total && MockParkingSpots[i].total > 0
  {
  }

  class AppState {
    var user: Option<User>
    var isAuthenticated: bool
    var hasSeenOnboarding: bool
    var selectedSpot: Option<ParkingSpot>
    var bookings: seq<Booking>
    var activeBooking: Option<Booking>
    /** `parkingSpots` is always the mock list: it is a constant of the provider. */
    const parkingSpots: seq<ParkingSpot>

    /** The provider's initial state. */
    constructor ()
      ensures user == None && !isAuthenticated && !hasSeenOnboarding
      ensures selectedSpot == None && bookings == [] && activeBooking == None
      ensures parkingSpots == MockParkingSpots
    {
      user := None;
      isAuthenticated := false;
      hasSeenOnboarding := false;
      selectedSpot := None;
      bookings := [];
      activeBooking := None;
      parkingSpots := MockParkingSpots;
    }

    /**
     * `addBooking(booking)`: the booking is put in front of the unchanged old
     * list, and becomes the active booking exactly when its status is active.
     */
    method AddBooking(booking: Booking)
      modifies this`bookings, this`activeBooking
      ensures bookings == [booking] + old(bookings)
      ensures |bookings| == |old(bookings)| + 1
      ensures activeBooking == if booking.status == Active then Some(booking) else old(activeBooking)
    {
      bookings := [booking] + bookings;
      if booking.status == Active {
        activeBooking := Some(booking);
      }
    }

    method SetActiveBooking(booking: Option<Booking>)
      modifies this`activeBooking
      ensures activeBooking == booking
    {
      activeBooking := booking;
    }

    method SetSelectedSpot(spot: Option<ParkingSpot>)
      modifies this`selectedSpot
      ensures selectedSpot == spot
    {
      selectedSpot := spot;
    }

    method SetHasSeenOnboarding(value: bool)
      modifies this`hasSeenOnboarding
      ensures hasSeenOnboarding == value
    {
      hasSeenOnboarding := value;
    }
  }
}
