/**
 * The dashboard's simulated map: the availability class of each marker,
 * selecting a marker, and the card shown for the selected marker.
 */
module MapDashboard {
  import opened Maybe
  import opened Lists
  import opened AppContext
  import MapView

  /** The dashboard's own `getAvailabilityColor`, a second copy of the tier rule with class names. */
  function AvailabilityClass(available: int, total: int): string
    requires total > 0
  {
    var ratio := available as real / total as real;
    if ratio > 0.5 then "bg-success" else if ratio > 0.2 then "bg-warning" else "bg-destructive"
  }

  /** The class name the dashboard uses for each tier of the map view. */
  function TierClass(tier: MapView.Tier): string {
    match tier
    case Plentiful => "bg-success"
    case Limited => "bg-warning"
    case Scarce => "bg-destructive"
  }

  /**
   * The dashboard classes in integer terms: success when `2 * available > total`,
   * warning when that fails but `5 * available > total` holds, destructive otherwise.
   */
  lemma AvailabilityClassTiers(available: int, total: int)
    requires total > 0
    ensures AvailabilityClass(available, total) == "bg-success" <==> 2 * available > total
    ensures AvailabilityClass(available, total) == "bg-warning" <==> 2 * available <= total && 5 * available > total
    ensures AvailabilityClass(available, total) == "bg-destructive" <==> 5 * available <= total
  {
    MapView.QuotientAbove(available as real, total as real, 0.5);
    MapView.QuotientAbove(available as real, total as real, 0.2);
  }

  /**
   * For every capacity the dashboard's class and the map view's colour name
   * the same tier: success with green, warning with yellow, destructive with red.
   */
  lemma DashboardAgreesWithMapView(available: int, total: int)
    requires total > 0
    ensures AvailabilityClass(available, total) == TierClass(MapView.AvailabilityTier(available, total))
    ensures AvailabilityClass(available, total) == "bg-success" <==> MapView.AvailabilityColor(available, total) == "#22c55e"
    ensures AvailabilityClass(available, total) == "bg-warning" <==> MapView.AvailabilityColor(available, total) == "#eab308"
    ensures AvailabilityClass(available, total) == "bg-destructive" <==> MapView.AvailabilityColor(available, total) == "#ef4444"
  {
    AvailabilityClassTiers(available, total);
    MapView.TierByCrossMultiplication(available, total);
  }

  function HasId(id: string): ParkingSpot -> bool {
    (s: ParkingSpot) => s.id == id
  }

  /**
   * The spots on the selected card: none while no marker is selected (an
   * empty id is falsy too), else the spots whose id is the selected id.
   */
  function SelectedCard(spots: seq<ParkingSpot>, selectedMarkerId: Option<string>): seq<ParkingSpot> {
    match selectedMarkerId
    case None => []
    case Some(id) => if id == "" then [] else Filter(spots, HasId(id))
  }

  /** The card shows exactly the spots carrying the selected id, in list order. */
  lemma SelectedCardSpec(spots: seq<ParkingSpot>, id: string, s: ParkingSpot)
    requires id != ""
    ensures s in SelectedCard(spots, Some(id)) <==> s in spots && s.id == id
    ensures forall i :: 0 <= i < |SelectedCard(spots, Some(id))| ==> SelectedCard(spots, Some(id))[i].id == id
    ensures IsSubsequence(SelectedCard(spots, Some(id)), spots)
  {
    FilterMembers(spots, HasId(id), s);
    FilterSound(spots, HasId(id));
    FilterSubsequence(spots, HasId(id));
  }

  class DashboardPage {
    var selectedMarkerId: Option<string>

    constructor ()
      ensures selectedMarkerId == None
    {
      selectedMarkerId := None;
    }

    /** A marker click: the marker id and the context's selected spot become the clicked spot. */
    method ClickMarker(app: AppState, spot: ParkingSpot)
      modifies this`selectedMarkerId, app`selectedSpot
      ensures selectedMarkerId == Some(spot.id)
      ensures app.selectedSpot == Some(spot)
    {
      selectedMarkerId := Some(spot.id);
      app.SetSelectedSpot(Some(spot));
    }

    /** The spots the selected card renders. */
    function Card(spots: seq<ParkingSpot>): seq<ParkingSpot>
      reads this
    {
      SelectedCard(spots, selectedMarkerId)
    }
  }

  /** On the mock spots, whose ids are distinct, clicking a marker puts exactly that spot on the card. */
  lemma MockCardIsClickedSpot(k: nat)
    requires k < |MockParkingSpots|
    ensures SelectedCard(MockParkingSpots, Some(MockParkingSpots[k].id)) == [MockParkingSpots[k]]
  {
    var spots := MockParkingSpots;
    var p := HasId(spots[k].id);
    MockSpotsWellFormed();
    assert spots == [spots[0]] + [spots[1]] + [spots[2]] + [spots[3]];
    FilterAppend([spots[0]] + [spots[1]] + [spots[2]], [spots[3]], p);
    FilterAppend([spots[0]] + [spots[1]], [spots[2]], p);
    FilterAppend([spots[0]], [spots[1]], p);
  }
}
