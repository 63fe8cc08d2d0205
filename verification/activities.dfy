/**
 * The activity side of itinerary generation that involves no network: the
 * travel-style lookups with their "balanced" fallback, the classification of
 * OpenTripMap kinds into a category, the request limits, the currency chosen
 * for a destination, the per-category cost baselines, the fallback catalog and
 * the choice between fetched activities and that catalog
 * (agent/agent.py:102-168, 204-281).
 */
module Activities {
  import opened Text

  datatype Activity = Activity(name: string, description: string, category: string)

  datatype Currency = Currency(code: string, symbol: string)

  /** The travel styles the agent knows; any other style falls back to "balanced". */
  const KnownStyles: set<string> := {"adventure", "relaxed", "cultural", "food", "balanced"}

  const StyleKinds: map<string, string> := map[
    "adventure" := "hiking,active,beaches,water,parks",
    "relaxed" := "gardens,parks,spa,tea,cafes",
    "cultural" := "museums,historic,monuments,theatres,galleries,architecture",
    "food" := "restaurants,foods,cafes,marketplaces",
    "balanced" := "sights,interesting_places,architecture,restaurants,parks"
  ]

  /** The OpenTripMap kinds queried for a travel style (agent/agent.py:103-110). */
  function KindsForStyle(style: string): (r: string)
    ensures r in StyleKinds.Values
    ensures style in KnownStyles ==> r == StyleKinds[style]
    ensures style !in KnownStyles ==> r == StyleKinds["balanced"]
  {
    if style in StyleKinds then StyleKinds[style] else StyleKinds["balanced"]
  }

  /** How many activities to ask the fetcher for: at least 6, at least three per day. */
  function FetchLimit(durationDays: int): (r: int)
    ensures r >= 6 && r >= durationDays * 3
    ensures r == 6 || r == durationDays * 3
  {
    if durationDays * 3 > 6 then durationDays * 3 else 6
  }

  /** The `limit` sent to the radius query: the requested limit clamped into [3, 30]. */
  function QueryLimit(limit: int): (r: int)
    ensures 3 <= r <= 30
    ensures 3 <= limit <= 30 ==> r == limit
    ensures limit < 3 ==> r == 3
    ensures limit > 30 ==> r == 30
  {
    var capped := if limit < 30 then limit else 30;
    if capped > 3 then capped else 3
  }

  const MuseumKinds: set<string> := {"museums", "museum"}
  const ArtsKinds: set<string> := {"theatres", "theatre"}
  const HistoryKinds: set<string> := {"historic", "monuments"}
  const FoodKinds: set<string> := {"restaurants", "foods", "marketplaces"}
  const HikingKinds: set<string> := {"hiking", "active", "trails"}
  const WaterKinds: set<string> := {"water"}
  const ParkKinds: set<string> := {"parks", "gardens", "beaches"}

  /** The set of comma-separated kinds of a feature. */
  function KindSet(kinds: string): set<string> {
    var ks := Split(kinds, ',');
    set i | 0 <= i < |ks| :: ks[i]
  }

  /**
   * `map_kinds_to_category`: the first category, in priority order, one of
   * whose kinds the feature has; "Sightseeing" when none matches.
   */
  function MapKindsToCategory(kinds: string): (r: string)
    ensures r == FirstRule(CategoryRules, KindSet(kinds), 0)
  {
    var s := KindSet(kinds);
    var rs := CategoryRules;
    assert FirstRule(rs, s, 6) == if ParkKinds * s != {} then "Parks" else FirstRule(rs, s, 7);
    assert FirstRule(rs, s, 5) == if WaterKinds * s != {} then "Water Sports" else FirstRule(rs, s, 6);
    assert FirstRule(rs, s, 4) == if HikingKinds * s != {} then "Hiking" else FirstRule(rs, s, 5);
    assert FirstRule(rs, s, 3) == if FoodKinds * s != {} then "Food" else FirstRule(rs, s, 4);
    assert FirstRule(rs, s, 2) == if HistoryKinds * s != {} then "History" else FirstRule(rs, s, 3);
    assert FirstRule(rs, s, 1) == if ArtsKinds * s != {} then "Arts" else FirstRule(rs, s, 2);
    if MuseumKinds * s != {} then "Museum"
    else if ArtsKinds * s != {} then "Arts"
    else if HistoryKinds * s != {} then "History"
    else if FoodKinds * s != {} then "Food"
    else if HikingKinds * s != {} then "Hiking"
    else if WaterKinds * s != {} then "Water Sports"
    else if ParkKinds * s != {} then "Parks"
    else "Sightseeing"
  }

  datatype Rule = Rule(kinds: set<string>, category: string)

  /** The classification as a priority table, read from the top. */
  const CategoryRules: seq<Rule> := [
    Rule(MuseumKinds, "Museum"),
    Rule(ArtsKinds, "Arts"),
    Rule(HistoryKinds, "History"),
    Rule(FoodKinds, "Food"),
    Rule(HikingKinds, "Hiking"),
    Rule(WaterKinds, "Water Sports"),
    Rule(ParkKinds, "Parks")
  ]

  /** The category of the first rule from index `i` on that shares a kind with `s`. */
  function FirstRule(rules: seq<Rule>, s: set<string>, i: nat): (r: string)
    requires i <= |rules|
    ensures r == "Sightseeing" || exists j :: i <= j < |rules| && r == rules[j].category
    ensures (forall j :: i <= j < |rules| ==> rules[j].kinds * s == {}) ==> r == "Sightseeing"
    ensures forall j :: (i <= j < |rules| && rules[j].kinds * s != {} &&
                         (forall m :: i <= m < j ==> rules[m].kinds * s == {})) ==> r == rules[j].category
    decreases |rules| - i
  {
    if i == |rules| then "Sightseeing"
    else if rules[i].kinds * s != {} then rules[i].category
    else FirstRule(rules, s, i + 1)
  }

  /** Every kind that some rule recognises. */
  const KnownKinds: set<string> :=
    MuseumKinds + ArtsKinds + HistoryKinds + FoodKinds + HikingKinds + WaterKinds + ParkKinds

  /** "Sightseeing" is chosen exactly when the feature has no recognised kind. */
  lemma SightseeingIffNoKnownKind(kinds: string)
    ensures MapKindsToCategory(kinds) == "Sightseeing" <==> KnownKinds * KindSet(kinds) == {}
  {
    var s := KindSet(kinds);
    if KnownKinds * s == {} {
      assert MuseumKinds * s == {} && ArtsKinds * s == {} && HistoryKinds * s == {};
      assert FoodKinds * s == {} && HikingKinds * s == {} && WaterKinds * s == {} && ParkKinds * s == {};
    } else {
      var k :| k in KnownKinds * s;
      assert k in MuseumKinds * s || k in ArtsKinds * s || k in HistoryKinds * s || k in FoodKinds * s
        || k in HikingKinds * s || k in WaterKinds * s || k in ParkKinds * s;
    }
  }

  /** A museum kind wins over every other kind the feature may carry. */
  lemma MuseumTakesPriority(kinds: string)
    requires "museum" in KindSet(kinds) || "museums" in KindSet(kinds)
    ensures MapKindsToCategory(kinds) == "Museum"
  {
    var s := KindSet(kinds);
    if "museum" in s {
      assert "museum" in MuseumKinds * s;
    } else {
      assert "museums" in MuseumKinds * s;
    }
  }

  /** The kinds of two lists joined by a comma are the kinds of both. */
  lemma KindSetOfJoin(a: string, b: string)
    ensures KindSet(a + "," + b) == KindSet(a) + KindSet(b)
  {
    SplitAppend(a, b, ',');
    var sa, sb := Split(a, ','), Split(b, ',');
    assert a + "," + b == a + [','] + b;
    forall x | x in KindSet(a) + KindSet(b)
      ensures x in KindSet(a + "," + b)
    {
      if x in KindSet(a) {
        var i :| 0 <= i < |sa| && sa[i] == x;
        assert (sa + sb)[i] == x;
      } else {
        var i :| 0 <= i < |sb| && sb[i] == x;
        assert (sa + sb)[|sa| + i] == x;
      }
    }
  }

  /** Adding a museum kind to any list of kinds makes the feature a museum, whatever came before. */
  lemma MuseumAppendedWins(kinds: string)
    ensures MapKindsToCategory(kinds + ",museums") == "Museum"
  {
    KindSetOfJoin(kinds, "museums");
    SplitWithoutSeparator("museums", ',');
    assert Split("museums", ',')[0] == "museums";
    assert "museums" in KindSet("museums");
    assert kinds + ",museums" == kinds + "," + "museums";
    MuseumTakesPriority(kinds + ",museums");
  }

  /** A feature with a park kind and no kind of an earlier rule is classified as a park. */
  lemma ParkKindWithoutEarlierKinds(kinds: string)
    requires ParkKinds * KindSet(kinds) != {}
    requires (MuseumKinds + ArtsKinds + HistoryKinds + FoodKinds + HikingKinds + WaterKinds) * KindSet(kinds) == {}
    ensures MapKindsToCategory(kinds) == "Parks"
  {
    var s := KindSet(kinds);
    var earlier := MuseumKinds + ArtsKinds + HistoryKinds + FoodKinds + HikingKinds + WaterKinds;
    forall x | x in s
      ensures x !in MuseumKinds && x !in ArtsKinds && x !in HistoryKinds
      ensures x !in FoodKinds && x !in HikingKinds && x !in WaterKinds
    {
      assert x !in earlier * s;
    }
    assert MuseumKinds * s == {} && ArtsKinds * s == {} && HistoryKinds * s == {};
    assert FoodKinds * s == {} && HikingKinds * s == {} && WaterKinds * s == {};
  }

  const CurrencyMap: map<string, Currency> := map[
    "tokyo" := Currency("JPY", "\U{A5}"),
    "paris" := Currency("EUR", "\U{20AC}"),
    "bali" := Currency("IDR", "Rp")
  ]

  /** The currency of a destination: an exact match on the lower-cased name, US dollars otherwise. */
  function CurrencyFor(destination: string): (c: Currency)
    ensures c.code in {"JPY", "EUR", "IDR", "USD"}
    ensures c.code == "USD" <==> Lower(destination) !in CurrencyMap
  {
    var key := Lower(destination);
    if key in CurrencyMap then CurrencyMap[key] else Currency("USD", "$")
  }

  const BaselineCosts: map<string, nat> := map[
    "Hiking" := 0,
    "Water Sports" := 40,
    "Outdoors" := 0,
    "Wellness" := 50,
    "Leisure" := 12,
    "Parks" := 0,
    "Museum" := 18,
    "History" := 0,
    "Arts" := 45,
    "Food" := 22,
    "Class" := 55,
    "Sightseeing" := 0
  ]

  /** The USD baseline of one activity: its category's baseline, 0 for an unknown category. */
  function BaselineCost(category: string): (r: nat)
    ensures r <= 55
    ensures category !in BaselineCosts ==> r == 0
  {
    if category in BaselineCosts then BaselineCosts[category] else 0
  }

  const CatalogByStyle: map<string, seq<Activity>> := map[
    "adventure" := [
      Activity("Scenic Hiking Trail", "Half-day hike with panoramic views.", "Hiking"),
      Activity("Kayaking Experience", "Guided paddle through calm waters.", "Water Sports"),
      Activity("Sunset Viewpoint", "Short climb to catch golden hour.", "Outdoors")
    ],
    "relaxed" := [
      Activity("Spa & Wellness Session", "45\U{2013}60 min massage or spa treatment.", "Wellness"),
      Activity("Cafe Hopping", "Leisurely cafes with pastries and coffee.", "Leisure"),
      Activity("Park Stroll", "Light walk under trees and gardens.", "Parks")
    ],
    "cultural" := [
      Activity("Heritage Museum Visit", "Explore key exhibits and galleries.", "Museum"),
      Activity("Historic District Walk", "Streets with architecture and landmarks.", "History"),
      Activity("Theater or Live Show", "Local performance for an evening.", "Arts")
    ],
    "food" := [
      Activity("Market Food Tour", "Taste local bites and specialties.", "Food"),
      Activity("Cooking Class", "Hands-on class making regional dishes.", "Class"),
      Activity("Street Eats Crawl", "Popular snacks across a few blocks.", "Food")
    ],
    "balanced" := [
      Activity("City Highlights Walk", "Iconic spots in a compact route.", "Sightseeing"),
      Activity("Local Lunch Spot", "Casual eatery with regional flavors.", "Food"),
      Activity("Riverside Evening", "Sunset views and light snacks.", "Leisure")
    ]
  ]

  /** The fallback catalog for a travel style, "balanced" for an unknown style. */
  function Catalog(style: string): seq<Activity> {
    if style in CatalogByStyle then CatalogByStyle[style] else CatalogByStyle["balanced"]
  }

  /** Both style tables know the same styles and fall back to "balanced" for any other. */
  lemma UnknownStyleIsBalanced(style: string)
    ensures StyleKinds.Keys == CatalogByStyle.Keys == KnownStyles
    ensures style !in KnownStyles ==>
      KindsForStyle(style) == KindsForStyle("balanced") && Catalog(style) == Catalog("balanced")
  {
  }

  /** Every catalog entry offers three activities with pairwise different names. */
  lemma CatalogHasThreeDistinctNames(style: string)
    ensures |Catalog(style)| == 3
    ensures Catalog(style)[0].name != Catalog(style)[1].name
    ensures Catalog(style)[0].name != Catalog(style)[2].name
    ensures Catalog(style)[1].name != Catalog(style)[2].name
  {
  }

  /** The activity pool: the fetched activities when there are any, the style's catalog otherwise. */
  function ActivityPool(fetched: seq<Activity>, style: string): (pool: seq<Activity>)
    ensures |pool| > 0
    ensures fetched != [] ==> pool == fetched
    ensures fetched == [] ==> |pool| == 3 && pool == Catalog(style)
  {
    if fetched != [] then fetched else Catalog(style)
  }
}
