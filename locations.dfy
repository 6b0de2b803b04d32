/**
 * The catalogue of Indian cities used by the city pickers, and its two
 * queries: a free-text search and a lookup by city name.
 */
module Locations {
  import opened Maybe
  import opened Text
  import opened Lists

  datatype Location = Location(city: string, state: string, lat: real, lng: real)

  /** The fixed catalogue, in the order the source lists it. */
  const PopularLocations: seq<Location> := [
    Location("Mumbai", "Maharashtra", 19.0760, 72.8777),
    Location("Delhi", "Delhi", 28.6139, 77.2090),
    Location("Bangalore", "Karnataka", 12.9716, 77.5946),
    Location("Hyderabad", "Telangana", 17.3850, 78.4867),
    Location("Chennai", "Tamil Nadu", 13.0827, 80.2707),
    Location("Kolkata", "West Bengal", 22.5726, 88.3639),
    Location("Pune", "Maharashtra", 18.5204, 73.8567),
    Location("Ahmedabad", "Gujarat", 23.0225, 72.5714),
    Location("Chandigarh", "Chandigarh", 30.7333, 76.7794),
    Location("Jaipur", "Rajasthan", 26.9124, 75.7873),
    Location("Lucknow", "Uttar Pradesh", 26.8467, 80.9462),
    Location("Surat", "Gujarat", 21.1702, 72.8311),
    Location("Kanpur", "Uttar Pradesh", 26.4499, 80.3319),
    Location("Nagpur", "Maharashtra", 21.1458, 79.0882),
    Location("Indore", "Madhya Pradesh", 22.7196, 75.8577),
    Location("Thane", "Maharashtra", 19.2183, 72.9781),
    Location("Bhopal", "Madhya Pradesh", 23.2599, 77.4126),
    Location("Visakhapatnam", "Andhra Pradesh", 17.6868, 83.2185),
    Location("Patna", "Bihar", 25.5941, 85.1376),
    Location("Vadodara", "Gujarat", 22.3072, 73.1812),
    Location("Ghaziabad", "Uttar Pradesh", 28.6692, 77.4538),
    Location("Ludhiana", "Punjab", 30.9010, 75.8573),
    Location("Agra", "Uttar Pradesh", 27.1767, 78.0081),
    Location("Nashik", "Maharashtra", 19.9975, 73.7898),
    Location("Faridabad", "Haryana", 28.4089, 77.3178),
    Location("Meerut", "Uttar Pradesh", 28.9845, 77.7064),
    Location("Rajkot", "Gujarat", 22.3039, 70.8022),
    Location("Varanasi", "Uttar Pradesh", 25.3176, 82.9739),
    Location("Srinagar", "Jammu and Kashmir", 34.0837, 74.7973),
    Location("Amritsar", "Punjab", 31.6340, 74.8723),
    Location("Allahabad", "Uttar Pradesh", 25.4358, 81.8463),
    Location("Ranchi", "Jharkhand", 23.3441, 85.3096),
    Location("Coimbatore", "Tamil Nadu", 11.0168, 76.9558),
    Location("Jabalpur", "Madhya Pradesh", 23.1815, 79.9864),
    Location("Gwalior", "Madhya Pradesh", 26.2183, 78.1828),
    Location("Vijayawada", "Andhra Pradesh", 16.5062, 80.6480),
    Location("Jodhpur", "Rajasthan", 26.2389, 73.0243),
    Location("Madurai", "Tamil Nadu", 9.9252, 78.1198),
    Location("Raipur", "Chhattisgarh", 21.2514, 81.6296),
    Location("Kota", "Rajasthan", 25.2138, 75.8648),
    Location("Guwahati", "Assam", 26.1445, 91.7362),
    Location("Hubli", "Karnataka", 15.3647, 75.1240),
    Location("Tiruchirappalli", "Tamil Nadu", 10.7905, 78.7047),
    Location("Bareilly", "Uttar Pradesh", 28.3670, 79.4304),
    Location("Mysore", "Karnataka", 12.2958, 76.6394),
    Location("Moradabad", "Uttar Pradesh", 28.8386, 78.7733),
    Location("Gurgaon", "Haryana", 28.4595, 77.0266),
    Location("Aligarh", "Uttar Pradesh", 27.8974, 78.0880),
    Location("Jalandhar", "Punjab", 31.3260, 75.5762),
    Location("Bhubaneswar", "Odisha", 20.2961, 85.8245),
    Location("Noida", "Uttar Pradesh", 28.5355, 77.3910),
    Location("Salem", "Tamil Nadu", 11.6643, 78.1460),
    Location("Warangal", "Telangana", 17.9784, 79.5941),
    Location("Aurangabad", "Maharashtra", 19.8762, 75.3433),
    Location("Kochi", "Kerala", 9.9312, 76.2673),
    Location("Thiruvananthapuram", "Kerala", 8.5241, 76.9366),
    Location("Dehradun", "Uttarakhand", 30.3165, 78.0322),
    Location("Shimla", "Himachal Pradesh", 31.1048, 77.1734),
    Location("Manali", "Himachal Pradesh", 32.2432, 77.1892),
    Location("Udaipur", "Rajasthan", 24.5854, 73.7125),
    Location("Panaji", "Goa", 15.4909, 73.8278),
    Location("Pondicherry", "Puducherry", 11.9416, 79.8083),
    Location("Gangtok", "Sikkim", 27.3389, 88.6065),
    Location("Shillong", "Meghalaya", 25.5788, 91.8933),
    Location("Imphal", "Manipur", 24.8170, 93.9368),
    Location("Agartala", "Tripura", 23.8315, 91.2868),
    Location("Aizawl", "Mizoram", 23.7271, 92.7176),
    Location("Kohima", "Nagaland", 25.6751, 94.1086),
    Location("Itanagar", "Arunachal Pradesh", 27.0844, 93.6053),
    Location("Port Blair", "Andaman and Nicobar", 11.6234, 92.7265),
    Location("Leh", "Ladakh", 34.1526, 77.5771),
    Location("Mohali", "Punjab", 30.7046, 76.7179),
    Location("Panchkula", "Haryana", 30.6942, 76.8606),
    Location("Zirakpur", "Punjab", 30.6425, 76.8173),
    Location("Rishikesh", "Uttarakhand", 30.0869, 78.2676),
    Location("Haridwar", "Uttarakhand", 29.9457, 78.1642),
    Location("Nainital", "Uttarakhand", 29.3919, 79.4542),
    Location("Mussoorie", "Uttarakhand", 30.4598, 78.0644),
    Location("Dharamshala", "Himachal Pradesh", 32.2190, 76.3234),
    Location("Ooty", "Tamil Nadu", 11.4102, 76.6950),
    Location("Kodaikanal", "Tamil Nadu", 10.2381, 77.4892),
    Location("Munnar", "Kerala", 10.0889, 77.0595),
    Location("Lonavala", "Maharashtra", 18.7481, 73.4072),
    Location("Mahabaleshwar", "Maharashtra", 17.9307, 73.6477),
    Location("Mount Abu", "Rajasthan", 24.5926, 72.7156),
    Location("Pushkar", "Rajasthan", 26.4899, 74.5510),
    Location("Jaisalmer", "Rajasthan", 26.9157, 70.9083),
    Location("Ajmer", "Rajasthan", 26.4499, 74.6399),
    Location("Bikaner", "Rajasthan", 28.0229, 73.3119)
  ]

  /** How many entries a blank query returns. */
  const BlankQueryCount: nat := 10

  /** The most entries a non-blank query returns. */
  const MaxResults: nat := 15

  /** The search test: the lower-cased city or state contains the lower-cased query. */
  function MatchesQuery(lowerQuery: string): Location -> bool {
    (loc: Location) => Contains(Lower(loc.city), lowerQuery) || Contains(Lower(loc.state), lowerQuery)
  }

  /** Every entry of a catalogue that matches the query, in catalogue order. */
  function Matching(table: seq<Location>, query: string): seq<Location> {
    Filter(table, MatchesQuery(Lower(query)))
  }

  /** `searchLocations(query)` over a catalogue. */
  function SearchIn(table: seq<Location>, query: string): seq<Location> {
    if Trim(query) == [] then Take(table, BlankQueryCount)
    else Take(Matching(table, query), MaxResults)
  }

  /** `searchLocations(query)`: the search over the fixed catalogue. */
  function SearchLocations(query: string): seq<Location> {
    SearchIn(PopularLocations, query)
  }

  /** A blank or white-space-only query returns exactly the first ten entries (all of a smaller catalogue). */
  lemma SearchBlankQuery(table: seq<Location>, query: string)
    requires Blank(query)
    ensures var r := SearchIn(table, query);
      |r| == (if |table| < BlankQueryCount then |table| else BlankQueryCount) &&
      forall i :: 0 <= i < |r| ==> r[i] == table[i]
  {
    TrimEmptyIffBlank(query);
  }

  /**
   * A non-blank query returns the first fifteen matching entries (all of
   * them when fewer match), and each of them matches the untrimmed query.
   */
  lemma SearchNonBlankQuery(table: seq<Location>, query: string)
    requires !Blank(query)
    ensures var r := SearchIn(table, query);
      |r| == (if |Matching(table, query)| < MaxResults then |Matching(table, query)| else MaxResults) &&
      r == Matching(table, query)[..|r|] &&
      forall i :: 0 <= i < |r| ==>
        Contains(Lower(r[i].city), Lower(query)) || Contains(Lower(r[i].state), Lower(query))
  {
    TrimEmptyIffBlank(query);
    var m := Matching(table, query);
    FilterSound(table, MatchesQuery(Lower(query)));
    var r := SearchIn(table, query);
    assert r == Take(m, MaxResults);
    forall i | 0 <= i < |r|
      ensures Contains(Lower(r[i].city), Lower(query)) || Contains(Lower(r[i].state), Lower(query))
    {
      assert r[i] == m[i];
      assert MatchesQuery(Lower(query))(m[i]);
    }
  }

  /** The result is an order-preserving subsequence of the catalogue. */
  lemma SearchSubsequence(table: seq<Location>, query: string)
    ensures IsSubsequence(SearchIn(table, query), table)
  {
    if Trim(query) == [] {
      TakeSubsequence(table, BlankQueryCount);
    } else {
      var m := Matching(table, query);
      FilterSubsequence(table, MatchesQuery(Lower(query)));
      if MaxResults < |m| { PrefixSubsequence(m, table, MaxResults); }
    }
  }

  /** When fewer than fifteen entries match, an entry is returned exactly when it matches. */
  lemma SearchComplete(table: seq<Location>, query: string, loc: Location)
    requires !Blank(query)
    requires |Matching(table, query)| < MaxResults
    ensures loc in SearchIn(table, query) <==>
      loc in table &&
      (Contains(Lower(loc.city), Lower(query)) || Contains(Lower(loc.state), Lower(query)))
  {
    TrimEmptyIffBlank(query);
    var m := Matching(table, query);
    assert SearchIn(table, query) == m;
    FilterMembers(table, MatchesQuery(Lower(query)), loc);
  }

  /** The lookup test: the lower-cased city names are equal. */
  function SameCity(city: string): Location -> bool {
    (loc: Location) => Lower(loc.city) == Lower(city)
  }

  /** `find` over a catalogue by city name. */
  function FindCity(table: seq<Location>, city: string): Option<Location> {
    Find(table, SameCity(city))
  }

  /**
   * The lookup finds the first entry whose lower-cased city equals the
   * lower-cased argument, and `undefined` exactly when there is none.
   */
  lemma FindCitySpec(table: seq<Location>, city: string)
    ensures FindCity(table, city).None? <==> forall i :: 0 <= i < |table| ==> Lower(table[i].city) != Lower(city)
    ensures FindCity(table, city).Some? ==> Lower(FindCity(table, city).value.city) == Lower(city)
    ensures FindCity(table, city).Some? ==>
      exists k :: 0 <= k < |table| && table[k] == FindCity(table, city).value &&
        forall j :: 0 <= j < k ==> Lower(table[j].city) != Lower(city)
  {
    var r := Find(table, SameCity(city));
    assert r.None? <==> forall i :: 0 <= i < |table| ==> !SameCity(city)(table[i]);
    if r.Some? {
      var k :| 0 <= k < |table| && table[k] == r.value && SameCity(city)(table[k]) &&
               forall j :: 0 <= j < k ==> !SameCity(city)(table[j]);
    }
  }

  /** Every entry of a catalogue is found by its own city name. */
  lemma FindCityMember(table: seq<Location>, loc: Location)
    requires loc in table
    ensures FindCity(table, loc.city).Some?
    ensures Lower(FindCity(table, loc.city).value.city) == Lower(loc.city)
  {
    FindCitySpec(table, loc.city);
    var k :| 0 <= k < |table| && table[k] == loc;
    assert Lower(table[k].city) == Lower(loc.city);
  }

  /** `getLocationByCity(city)`: the lookup over the fixed catalogue. */
  function GetLocationByCity(city: string): Option<Location> {
    FindCity(PopularLocations, city)
  }
}
