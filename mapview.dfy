/**
 * The map view's pure logic: which spots are within the search radius of
 * the user, the three availability tiers and their marker colours, the
 * full/price marker label, and the closed ring drawn for the radius.
 */
module MapView {
  import opened Maybe
  import opened Lists

  /** A parking spot row as the spot query returns it. */
  datatype Spot = Spot(
    id: string, name: string, address: string, price: real, lat: real, lng: real,
    rating: real, available: int, total: int, amenities: seq<string>, imageUrl: Option<string>)

  datatype Coordinate = Coordinate(latitude: real, longitude: real)

  type Distance = d: real | d >= 0.0

  /**
   * The great-circle distance between (lat1, lng1) and (lat2, lng2); the
   * haversine arithmetic itself is floating point and is a parameter here.
   */
  type DistanceFn = (real, real, real, real) -> Distance

  /** The radius used when the caller passes none. */
  const DefaultSearchRadius: real := 1.0

  /** `searchRadius = 1`: the supplied radius, or 1 when it is not supplied. */
  function SearchRadius(supplied: Option<real>): (r: real)
    ensures supplied.None? ==> r == 1.0
    ensures supplied.Some? ==> r == supplied.value
  {
    supplied.GetOr(DefaultSearchRadius)
  }

  function WithinRadius(user: Coordinate, radius: real, distance: DistanceFn): Spot -> bool {
    (s: Spot) => distance(user.latitude, user.longitude, s.lat, s.lng) <= radius
  }

  /** `getSpotsInRange()`: all spots without a user location, else those within the radius. */
  function SpotsInRange(user: Option<Coordinate>, radius: real, spots: seq<Spot>, distance: DistanceFn): seq<Spot> {
    match user
    case None => spots
    case Some(u) => Filter(spots, WithinRadius(u, radius, distance))
  }

  /**
   * Without a location every spot is shown, unchanged. With one, the result
   * is an order-preserving subsequence of the spots, and a spot is in it
   * exactly when its distance is at most the radius (the boundary included).
   */
  lemma SpotsInRangeSpec(user: Option<Coordinate>, radius: real, spots: seq<Spot>, distance: DistanceFn, s: Spot)
    ensures user.None? ==> SpotsInRange(user, radius, spots, distance) == spots
    ensures IsSubsequence(SpotsInRange(user, radius, spots, distance), spots)
    ensures user.Some? ==>
      (s in SpotsInRange(user, radius, spots, distance) <==>
        s in spots && distance(user.value.latitude, user.value.longitude, s.lat, s.lng) <= radius)
  {
    match user
    case None => SubsequenceRefl(spots);
    case Some(u) =>
      FilterSubsequence(spots, WithinRadius(u, radius, distance));
      FilterMembers(spots, WithinRadius(u, radius, distance), s);
  }

  /** Every kept spot is within the radius, so a negative radius keeps nothing. */
  lemma SpotsInRangeBounded(u: Coordinate, radius: real, spots: seq<Spot>, distance: DistanceFn)
    ensures forall i :: 0 <= i < |SpotsInRange(Some(u), radius, spots, distance)| ==>
      var s := SpotsInRange(Some(u), radius, spots, distance)[i];
      distance(u.latitude, u.longitude, s.lat, s.lng) <= radius
    ensures radius < 0.0 ==> SpotsInRange(Some(u), radius, spots, distance) == []
  {
    FilterSound(spots, WithinRadius(u, radius, distance));
    if radius < 0.0 {
      FilterNone(spots, WithinRadius(u, radius, distance));
    }
  }

  /** The occupancy tiers: plenty free, limited, nearly or completely full. */
  datatype Tier = Plentiful | Limited | Scarce

  /** The tier of the ratio `available / total`: above 0.5, above 0.2, or neither. */
  function AvailabilityTier(available: int, total: int): Tier
    requires total > 0
  {
    var ratio := available as real / total as real;
    if ratio > 0.5 then Plentiful else if ratio > 0.2 then Limited else Scarce
  }

  /** Dividing by a positive number preserves comparisons: `a / b > c` exactly when `a > c * b`. */
  lemma QuotientAbove(a: real, b: real, c: real)
    requires b > 0.0
    ensures a / b > c <==> a > c * b
  {
    var q := a / b;
    assert q * b == a;
    if q > c {
      assert (q - c) * b > 0.0;
    } else {
      assert (c - q) * b >= 0.0;
    }
  }

  /**
   * The tiers in integer terms: plentiful exactly when `2 * available > total`,
   * limited exactly when that fails but `5 * available > total` holds, and
   * scarce otherwise.
   */
  lemma TierByCrossMultiplication(available: int, total: int)
    requires total > 0
    ensures AvailabilityTier(available, total) == Plentiful <==> 2 * available > total
    ensures AvailabilityTier(available, total) == Limited <==> 2 * available <= total && 5 * available > total
    ensures AvailabilityTier(available, total) == Scarce <==> 5 * available <= total
  {
    QuotientAbove(available as real, total as real, 0.5);
    QuotientAbove(available as real, total as real, 0.2);
  }

  /**
   * The boundaries: half free is limited (yellow), a fifth free or none free
   * is scarce (red), as the strict comparisons give.
   */
  lemma TierBoundaries(t: int)
    requires t > 0
    ensures AvailabilityTier(t, 2 * t) == Limited && AvailabilityColor(t, 2 * t) == "#eab308"
    ensures AvailabilityTier(t, 5 * t) == Scarce && AvailabilityColor(t, 5 * t) == "#ef4444"
    ensures AvailabilityTier(0, t) == Scarce && AvailabilityColor(0, t) == "#ef4444"
  {
    TierByCrossMultiplication(t, 2 * t);
    TierByCrossMultiplication(t, 5 * t);
    TierByCrossMultiplication(0, t);
  }

  /** The marker's availability dot colour of a tier. */
  function TierColor(tier: Tier): string {
    match tier
    case Plentiful => "#22c55e"
    case Limited => "#eab308"
    case Scarce => "#ef4444"
  }

  /** `getAvailabilityColor(available, total)` of the map view. */
  function AvailabilityColor(available: int, total: int): string
    requires total > 0
  {
    TierColor(AvailabilityTier(available, total))
  }

  /** What a spot marker shows: `FULL`, or the hourly price. */
  datatype MarkerLabel = FullLabel | PriceLabel(pricePerHour: real)

  predicate IsFull(s: Spot) {
    s.available == 0
  }

  function MarkerText(s: Spot): MarkerLabel {
    if IsFull(s) then FullLabel else PriceLabel(s.price)
  }

  /**
   * A marker reads `FULL` exactly when no space is free, and a full spot's
   * dot is always red; otherwise the marker shows the spot's price.
   */
  lemma FullMarker(s: Spot)
    requires s.total > 0
    ensures MarkerText(s) == FullLabel <==> s.available == 0
    ensures MarkerText(s) != FullLabel ==> MarkerText(s) == PriceLabel(s.price)
    ensures IsFull(s) ==> AvailabilityColor(s.available, s.total) == "#ef4444"
  {
    TierByCrossMultiplication(s.available, s.total);
  }

  /** The number of generated points on the radius ring. */
  const RingPoints: nat := 64

  /** Miles to kilometres, as the ring builder converts the radius. */
  const KmPerMile: real := 1.60934

  /**
   * The ring drawn around the user: point `i` of 64 on a circle of the radius
   * in kilometres (the trigonometry is the parameter `pointAt`), and then a
   * copy of the first point, so the ring is closed.
   */
  method RadiusRing(searchRadius: real, pointAt: (real, nat) -> Coordinate) returns (ring: seq<Coordinate>)
    ensures |ring| == RingPoints + 1
    ensures ring[RingPoints] == ring[0]
    ensures forall i :: 0 <= i < RingPoints ==> ring[i] == pointAt(searchRadius * KmPerMile, i)
  {
    var radiusInKm := searchRadius * KmPerMile;
    var coordinates: seq<Coordinate> := [];
    for i := 0 to RingPoints
      invariant |coordinates| == i
      invariant forall j :: 0 <= j < i ==> coordinates[j] == pointAt(radiusInKm, j)
    {
      coordinates := coordinates + [pointAt(radiusInKm, i)];
    }
    ring := coordinates + [coordinates[0]];
  }
}
