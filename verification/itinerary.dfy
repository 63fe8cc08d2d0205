/**
 * The structured itinerary (agent/agent.py:204-370): each day takes three
 * consecutive activities from a circular pool, skipping forward past names
 * already used that day, and the cost roll-up sums the per-part estimates
 * into an activities total and a trip total.
 *
 * Currency scaling and rounding are the parameter `toMoney`, which turns a
 * USD baseline into a non-negative local estimate; `json.dumps` is the
 * parameter `serialize`; the activities fetched over the network are the
 * input `fetched`, which may be empty.
 */
module Itinerary {
  import opened Text
  import opened Activities
  import Checklist

  datatype Money = Money(estimate: int, currency: string)

  datatype PlacedActivity = PlacedActivity(name: string, description: string, category: string, location: string)

  /** One slot of a day: its time of day, the activity placed there and its cost. */
  datatype Part = Part(timeOfDay: string, activity: PlacedActivity, cost: Money)

  datatype Day = Day(day: int, parts: seq<Part>, notes: seq<string>)

  datatype Breakdown = Breakdown(
    flights: Money,
    accommodationPerNight: Money,
    activities: Money,
    localTransportPerDay: Money,
    foodPerDay: Money)

  datatype Summary = Summary(estimatedTotalCost: Money, breakdown: Breakdown)

  datatype ItineraryData = ItineraryData(
    kind: string,
    version: int,
    destination: string,
    durationDays: int,
    travelStyle: string,
    currency: Currency,
    days: seq<Day>,
    summary: Summary,
    checklist: Checklist.ChecklistData)

  const Labels: seq<string> := ["Morning", "Afternoon", "Evening"]

  const DayNotes: seq<string> := [
    "Pre-book one key activity",
    "Group nearby sights to minimize transit",
    "Consider a day transit pass"
  ]

  /** USD baselines of the trip-level components. */
  const FlightsUsd: nat := 600
  const AccommodationPerNightUsd: nat := 120
  const LocalTransportPerDayUsd: nat := 12
  const FoodPerDayUsd: nat := 35

  /** `range(duration_days)` is empty for a duration of zero or less. */
  function DayCount(durationDays: int): (n: nat)
    ensures durationDays >= 0 ==> n == durationDays
    ensures durationDays < 0 ==> n == 0
  {
    if durationDays > 0 then durationDays else 0
  }

  lemma ModBelow(x: int, n: int)
    requires 0 <= x < n
    ensures x % n == x
  {
  }

  lemma ModWrap(x: int, n: int)
    requires n <= x < 2 * n
    ensures x % n == x - n
  {
  }

  /** Python's `(k + 1) % n` for an index `k` of the pool: the next index, wrapping to 0. */
  lemma NextIndex(k: nat, n: nat)
    requires k < n
    ensures (k + 1) % n == if k + 1 < n then k + 1 else 0
  {
  }

  /** The index reached from `k` after `t` steps forward around a pool of `n`. */
  function Advance(k: nat, t: nat, n: nat): (r: nat)
    requires k < n
    ensures r < n
    decreases t
  {
    if t == 0 then k else Advance((k + 1) % n, t - 1, n)
  }

  /** Stepping forward `t` times lands on `(k + t) % n`, the offset the source's loop computes. */
  lemma {:induction false} AdvanceIsOffset(k: nat, t: nat, n: nat)
    requires k < n && t <= n
    ensures Advance(k, t, n) == (k + t) % n
    decreases t
  {
    if t > 0 {
      NextIndex(k, n);
      AdvanceIsOffset((k + 1) % n, t - 1, n);
      if k + 1 == n {
        ModBelow(t - 1, n);
        ModWrap(k + t, n);
      } else if k + t < n {
        ModBelow(k + t, n);
        ModBelow(k + 1 + (t - 1), n);
      } else {
        ModWrap(k + t, n);
        ModWrap(k + 1 + (t - 1), n);
      }
    }
  }

  /**
   * The skip loop: starting at index `k` with `spins` steps already taken,
   * move forward while the name at `k` is already used and fewer than
   * `|pool|` steps were taken. Returns the final index and step count.
   */
  function Skip(pool: seq<Activity>, used: set<string>, k: nat, spins: nat): (r: (nat, nat))
    requires k < |pool| && spins <= |pool|
    ensures r.0 < |pool| && spins <= r.1 <= |pool|
    ensures pool[r.0].name !in used || r.1 == |pool|
    ensures r.0 == Advance(k, r.1 - spins, |pool|)
    ensures forall t :: 0 <= t < r.1 - spins ==> pool[Advance(k, t, |pool|)].name in used
    decreases |pool| - spins
  {
    if pool[k].name in used && spins < |pool| then Skip(pool, used, (k + 1) % |pool|, spins + 1)
    else (k, spins)
  }

  /** The names of the activities at the given indices. */
  function UsedNames(pool: seq<Activity>, picks: seq<nat>): set<string> {
    if picks == [] then {}
    else
      var last := picks[|picks| - 1];
      UsedNames(pool, picks[..|picks| - 1]) + (if last < |pool| then {pool[last].name} else {})
  }

  /** Picking index `k` adds its name to the used names. */
  lemma UsedNamesStep(pool: seq<Activity>, picks: seq<nat>, k: nat)
    requires k < |pool|
    ensures UsedNames(pool, picks + [k]) == UsedNames(pool, picks) + {pool[k].name}
  {
    assert (picks + [k])[..|picks|] == picks;
  }

  /** Slot `j` of a day starts its search at `(start + j) % |pool|`. */
  function Picks(pool: seq<Activity>, start: nat, j: nat): (r: seq<nat>)
    requires |pool| > 0
    ensures |r| == j
    ensures forall m :: 0 <= m < j ==> r[m] < |pool|
  {
    if j == 0 then []
    else
      var prev := Picks(pool, start, j - 1);
      prev + [Skip(pool, UsedNames(pool, prev), (start + (j - 1)) % |pool|, 0).0]
  }

  /** Slot `j` is found by a search from `(start + j) % |pool|` that skips the names of slots before it. */
  lemma PicksStep(pool: seq<Activity>, start: nat, j: nat)
    requires |pool| > 0
    ensures Picks(pool, start, j + 1) ==
      Picks(pool, start, j) + [Skip(pool, UsedNames(pool, Picks(pool, start, j)), (start + j) % |pool|, 0).0]
  {
  }

  /** Later slots leave the earlier ones of the day as they were. */
  lemma PicksPrefix(pool: seq<Activity>, start: nat, j: nat, m: nat)
    requires |pool| > 0 && m < j
    ensures Picks(pool, start, j + 1)[m] == Picks(pool, start, j)[m]
  {
    PicksStep(pool, start, j);
  }

  /** Day `i` (0-based) starts at `(i * 3) % |pool|`. */
  function DayStart(i: nat, n: nat): nat
    requires n > 0
  {
    (i * |Labels|) % n
  }

  /**
   * One slot: the activity, placed at the destination, priced at its
   * category's USD baseline converted to the local currency.
   */
  function MakePart(timeOfDay: string, act: Activity, destination: string, code: string, toMoney: nat -> nat)
    : (r: Part)
    ensures r.timeOfDay == timeOfDay && r.activity.location == destination
    ensures r.activity.name == act.name && r.activity.description == act.description
    ensures r.activity.category == act.category
    ensures r.cost.currency == code && r.cost.estimate >= 0
    ensures act.category !in BaselineCosts ==> r.cost.estimate == toMoney(0)
    ensures r.cost == Money(toMoney(BaselineCost(act.category)), code)
  {
    Part(timeOfDay, PlacedActivity(act.name, act.description, act.category, destination),
      Money(toMoney(BaselineCost(act.category)), code))
  }

  /** The parts of the first `|picks|` slots of a day, in label order. */
  function PartsOf(pool: seq<Activity>, picks: seq<nat>, destination: string, code: string, toMoney: nat -> nat)
    : (parts: seq<Part>)
    requires |picks| <= |Labels| && forall m :: 0 <= m < |picks| ==> picks[m] < |pool|
    ensures |parts| == |picks|
    ensures forall m :: 0 <= m < |picks| ==>
      parts[m].timeOfDay == Labels[m] && parts[m].activity.name == pool[picks[m]].name
    ensures forall m :: 0 <= m < |picks| ==>
      parts[m] == MakePart(Labels[m], pool[picks[m]], destination, code, toMoney)
  {
    seq(|picks|, m requires 0 <= m < |picks| => MakePart(Labels[m], pool[picks[m]], destination, code, toMoney))
  }

  /** Filling one more slot appends its part. */
  lemma PartsOfStep(pool: seq<Activity>, picks: seq<nat>, k: nat, destination: string, code: string,
                    toMoney: nat -> nat)
    requires |picks| < |Labels| && k < |pool| && forall m :: 0 <= m < |picks| ==> picks[m] < |pool|
    ensures PartsOf(pool, picks + [k], destination, code, toMoney)
      == PartsOf(pool, picks, destination, code, toMoney) + [MakePart(Labels[|picks|], pool[k], destination, code, toMoney)]
  {
  }

  /** Day `i` of the plan: the three slots found from the day's start index. */
  function PlanDay(pool: seq<Activity>, i: nat, destination: string, code: string, toMoney: nat -> nat): Day
    requires |pool| > 0
  {
    Day(i + 1, PartsOf(pool, Picks(pool, DayStart(i, |pool|), |Labels|), destination, code, toMoney), DayNotes)
  }

  /** The days of the itinerary, as the allocator is specified to produce them. */
  function PlanDays(pool: seq<Activity>, count: nat, destination: string, code: string, toMoney: nat -> nat)
    : (days: seq<Day>)
    requires |pool| > 0
    ensures |days| == count
    ensures forall i :: 0 <= i < |days| ==>
      days[i].day == i + 1 && days[i].notes == DayNotes && |days[i].parts| == |Labels|
    ensures forall i, m :: 0 <= i < |days| && 0 <= m < |days[i].parts| ==>
      days[i].parts[m].timeOfDay == Labels[m] && days[i].parts[m].activity.location == destination &&
      days[i].parts[m].cost.currency == code
  {
    seq(count, i requires 0 <= i < count => PlanDay(pool, i, destination, code, toMoney))
  }

  /**
   * The skip loop of one slot: from index `k0`, step forward (wrapping) past
   * names in `used`, at most `|pool|` times.
   */
  method SkipUsedNames(pool: seq<Activity>, used: set<string>, k0: nat) returns (k: nat, spins: nat)
    requires k0 < |pool|
    ensures (k, spins) == Skip(pool, used, k0, 0)
    ensures k < |pool| && spins <= |pool|
    ensures pool[k].name !in used || spins == |pool|
  {
    var n := |pool|;
    k, spins := k0, 0;
    while pool[k].name in used && spins < n
      invariant 0 <= k < n && 0 <= spins <= n
      invariant Skip(pool, used, k, spins) == Skip(pool, used, k0, 0)
      decreases n - spins
    {
      k := (k + 1) % n;
      spins := spins + 1;
    }
  }

  /**
   * One day of the allocation: three slots, each found by the skip loop from
   * `(start + j) % |pool|`, the used names growing slot by slot.
   */
  method AllocateDay(pool: seq<Activity>, i: nat, destination: string, code: string, toMoney: nat -> nat)
    returns (day: Day)
    requires |pool| > 0
    ensures day == PlanDay(pool, i, destination, code, toMoney)
  {
    var n := |pool|;
    var start := DayStart(i, n);
    var used: set<string> := {};
    var parts: seq<Part> := [];
    ghost var picks: seq<nat> := [];
    for j := 0 to |Labels|
      invariant picks == Picks(pool, start, j)
      invariant used == UsedNames(pool, picks)
      invariant parts == PartsOf(pool, picks, destination, code, toMoney)
    {
      var k, _ := SkipUsedNames(pool, used, (start + j) % n);
      var act := pool[k];
      PicksStep(pool, start, j);
      UsedNamesStep(pool, picks, k);
      PartsOfStep(pool, picks, k, destination, code, toMoney);
      used := used + {act.name};
      parts := parts + [MakePart(Labels[j], act, destination, code, toMoney)];
      picks := picks + [k];
    }
    day := Day(i + 1, parts, DayNotes);
  }

  /** The allocation loop: one day per value of `range(duration_days)`. */
  method AllocateDays(pool: seq<Activity>, durationDays: int, destination: string, code: string, toMoney: nat -> nat)
    returns (days: seq<Day>)
    requires |pool| > 0
    ensures days == PlanDays(pool, DayCount(durationDays), destination, code, toMoney)
    ensures |days| == DayCount(durationDays)
    ensures forall i :: 0 <= i < |days| ==>
      days[i].day == i + 1 && days[i].notes == DayNotes && |days[i].parts| == |Labels|
    ensures forall i, m :: 0 <= i < |days| && 0 <= m < |days[i].parts| ==>
      days[i].parts[m].timeOfDay == Labels[m] && days[i].parts[m].activity.location == destination
  {
    days := [];
    var i := 0;
    while i < durationDays
      invariant 0 <= i <= DayCount(durationDays)
      invariant days == PlanDays(pool, i, destination, code, toMoney)
    {
      var day := AllocateDay(pool, i, destination, code, toMoney);
      days := days + [day];
      i := i + 1;
    }
  }

  /** Sum of the cost estimates of some parts, accumulated from the front. */
  function PartsTotal(parts: seq<Part>): int {
    if parts == [] then 0 else PartsTotal(parts[..|parts| - 1]) + parts[|parts| - 1].cost.estimate
  }

  /** Every part of every day, day by day, in order. */
  function AllParts(days: seq<Day>): seq<Part> {
    if days == [] then [] else AllParts(days[..|days| - 1]) + days[|days| - 1].parts
  }

  /** The activities total: the nested loop over days and parts adding each estimate. */
  method SumActivityCosts(days: seq<Day>) returns (total: int)
    ensures total == PartsTotal(AllParts(days))
  {
    total := 0;
    for i := 0 to |days|
      invariant total == PartsTotal(AllParts(days[..i]))
    {
      ghost var before := AllParts(days[..i]);
      var parts := days[i].parts;
      PartsPrefixTotal(before, parts, 0);
      for j := 0 to |parts|
        invariant total == PartsTotal(before + parts[..j])
      {
        PartsPrefixTotal(before, parts, j + 1);
        total := total + parts[j].cost.estimate;
      }
      PartsPrefixTotal(before, parts, |parts|);
      AllPartsStep(days, i);
    }
    assert days[..|days|] == days;
  }

  /** The running sum over the parts so far plus a prefix of the next day's parts. */
  lemma PartsPrefixTotal(before: seq<Part>, parts: seq<Part>, j: nat)
    requires j <= |parts|
    ensures j == 0 ==> PartsTotal(before + parts[..j]) == PartsTotal(before)
    ensures j > 0 ==> PartsTotal(before + parts[..j]) == PartsTotal(before + parts[..j - 1]) + parts[j - 1].cost.estimate
    ensures j == |parts| ==> before + parts[..j] == before + parts
  {
    if j == 0 {
      assert before + parts[..j] == before;
    } else {
      assert (before + parts[..j])[..|before| + j - 1] == before + parts[..j - 1];
    }
    if j == |parts| {
      assert parts[..j] == parts;
    }
  }

  /** The parts of one more day follow the parts of the days before it. */
  lemma AllPartsStep(days: seq<Day>, i: nat)
    requires i < |days|
    ensures AllParts(days[..i + 1]) == AllParts(days[..i]) + days[i].parts
  {
    assert days[..i + 1][..i] == days[..i];
  }

  /** The trip total as the agent adds it up. */
  function TripTotal(flights: int, accommodationPerNight: int, activities: int, transportPerDay: int,
                     foodPerDay: int, durationDays: int): int
  {
    flights + accommodationPerNight * durationDays + activities + transportPerDay * durationDays
      + foodPerDay * durationDays
  }

  /** The trip total is the flights, the daily costs for every day, and the activities. */
  lemma TripTotalIdentity(flights: int, accommodationPerNight: int, activities: int, transportPerDay: int,
                          foodPerDay: int, durationDays: int)
    ensures TripTotal(flights, accommodationPerNight, activities, transportPerDay, foodPerDay, durationDays)
      == flights + durationDays * (accommodationPerNight + transportPerDay + foodPerDay) + activities
  {
  }

  /** The itinerary payload as the agent assembles it; `toMoney` converts a USD baseline into the local estimate. */
  function ItineraryOf(destination: string, durationDays: int, travelStyle: string, fetched: seq<Activity>,
                       toMoney: nat -> nat): (r: ItineraryData)
    ensures r.kind == "itinerary" && r.version == 1
    ensures r.destination == destination && r.durationDays == durationDays && r.travelStyle == travelStyle
    ensures r.currency == CurrencyFor(destination)
    ensures var b := r.summary.breakdown; var code := r.currency.code;
      r.summary.estimatedTotalCost.currency == code && b.flights.currency == code &&
      b.accommodationPerNight.currency == code && b.activities.currency == code &&
      b.localTransportPerDay.currency == code && b.foodPerDay.currency == code
    ensures forall i, m :: 0 <= i < |r.days| && 0 <= m < |r.days[i].parts| ==>
      r.days[i].parts[m].cost.currency == r.currency.code
  {
    var currency := CurrencyFor(destination);
    var days := PlanDays(ActivityPool(fetched, travelStyle), DayCount(durationDays), destination, currency.code, toMoney);
    var activities := PartsTotal(AllParts(days));
    var breakdown := Breakdown(
      Money(toMoney(FlightsUsd), currency.code),
      Money(toMoney(AccommodationPerNightUsd), currency.code),
      Money(activities, currency.code),
      Money(toMoney(LocalTransportPerDayUsd), currency.code),
      Money(toMoney(FoodPerDayUsd), currency.code));
    var total := TripTotal(toMoney(FlightsUsd), toMoney(AccommodationPerNightUsd), activities,
                           toMoney(LocalTransportPerDayUsd), toMoney(FoodPerDayUsd), durationDays);
    ItineraryData("itinerary", 1, destination, durationDays, travelStyle, currency, days,
                  Summary(Money(total, currency.code), breakdown), Checklist.ChecklistPayload(destination, "Trip"))
  }

  /**
   * Builds the itinerary: allocates the days, adds up the activity estimates,
   * fills in the breakdown and the total, and wraps the serialized payload in
   * its JSON tag.
   */
  method GenerateItinerary(destination: string, durationDays: int, travelStyle: string, fetched: seq<Activity>,
                           toMoney: nat -> nat, serialize: ItineraryData -> string)
    returns (data: ItineraryData, jsonTag: string)
    ensures data == ItineraryOf(destination, durationDays, travelStyle, fetched, toMoney)
    ensures data.days == PlanDays(ActivityPool(fetched, travelStyle), DayCount(durationDays), destination,
                                  CurrencyFor(destination).code, toMoney)
    ensures data.summary.breakdown.activities.estimate == PartsTotal(AllParts(data.days))
    ensures data.summary.estimatedTotalCost.estimate ==
      toMoney(FlightsUsd)
      + durationDays * (toMoney(AccommodationPerNightUsd) + toMoney(LocalTransportPerDayUsd) + toMoney(FoodPerDayUsd))
      + data.summary.breakdown.activities.estimate
    ensures jsonTag == JsonFence("itinerary", serialize(data))
  {
    var currency := CurrencyFor(destination);
    var pool := ActivityPool(fetched, travelStyle);
    var days := AllocateDays(pool, durationDays, destination, currency.code, toMoney);
    var activitiesTotal := SumActivityCosts(days);
    var flights := Money(toMoney(FlightsUsd), currency.code);
    var accommodation := Money(toMoney(AccommodationPerNightUsd), currency.code);
    var transport := Money(toMoney(LocalTransportPerDayUsd), currency.code);
    var food := Money(toMoney(FoodPerDayUsd), currency.code);
    var breakdown := Breakdown(flights, accommodation, Money(activitiesTotal, currency.code), transport, food);
    var total := TripTotal(flights.estimate, accommodation.estimate, activitiesTotal, transport.estimate,
                           food.estimate, durationDays);
    data := ItineraryData("itinerary", 1, destination, durationDays, travelStyle, currency, days,
                          Summary(Money(total, currency.code), breakdown),
                          Checklist.ChecklistPayload(destination, "Trip"));
    assert data == ItineraryOf(destination, durationDays, travelStyle, fetched, toMoney);
    ItineraryShape(destination, durationDays, travelStyle, fetched, toMoney);
    jsonTag := JsonFence("itinerary", serialize(data));
  }

  /**
   * What every itinerary promises: one numbered day per day of the trip, three
   * labelled parts per day, the activities total is the sum of the part
   * estimates and never negative, and the trip total adds the daily costs for
   * every day to the flights and the activities.
   */
  lemma ItineraryShape(destination: string, durationDays: int, travelStyle: string, fetched: seq<Activity>,
                       toMoney: nat -> nat)
    ensures var it := ItineraryOf(destination, durationDays, travelStyle, fetched, toMoney);
      |it.days| == DayCount(durationDays) &&
      (forall i :: 0 <= i < |it.days| ==> it.days[i].day == i + 1 && |it.days[i].parts| == |Labels|) &&
      it.summary.breakdown.activities.estimate == DaysTotal(it.days) &&
      it.summary.breakdown.activities.estimate >= 0 &&
      it.summary.estimatedTotalCost.estimate ==
        toMoney(FlightsUsd)
        + durationDays * (toMoney(AccommodationPerNightUsd) + toMoney(LocalTransportPerDayUsd) + toMoney(FoodPerDayUsd))
        + it.summary.breakdown.activities.estimate &&
      it.currency == CurrencyFor(destination) &&
      it.checklist == Checklist.ChecklistPayload(destination, "Trip")
  {
    var it := ItineraryOf(destination, durationDays, travelStyle, fetched, toMoney);
    var pool := ActivityPool(fetched, travelStyle);
    AllPartsTotal(it.days);
    PlanCostsNonNegative(pool, DayCount(durationDays), destination, it.currency.code, toMoney);
    TripTotalIdentity(toMoney(FlightsUsd), toMoney(AccommodationPerNightUsd), it.summary.breakdown.activities.estimate,
                      toMoney(LocalTransportPerDayUsd), toMoney(FoodPerDayUsd), durationDays);
  }

  // ----- Properties of the allocation -----

  /** The pool holds at least three different activity names. */
  ghost predicate ThreeDistinctNames(pool: seq<Activity>) {
    exists a, b, c :: 0 <= a < |pool| && 0 <= b < |pool| && 0 <= c < |pool| &&
      pool[a].name != pool[b].name && pool[a].name != pool[c].name && pool[b].name != pool[c].name
  }

  /**
   * If a free name lies within the next `|pool| - spins` positions, the skip
   * loop stops on a free name.
   */
  lemma {:induction false} SkipFindsFree(pool: seq<Activity>, used: set<string>, k: nat, spins: nat, m: nat)
    requires k < |pool| && spins <= |pool|
    requires m < |pool| - spins && pool[(k + m) % |pool|].name !in used
    ensures pool[Skip(pool, used, k, spins).0].name !in used
    decreases m
  {
    var n := |pool|;
    if pool[k].name in used {
      assert m != 0;
      NextIndex(k, n);
      if k + 1 == n {
        ModWrap(k + m, n);
        ModBelow(m - 1, n);
      }
      SkipFindsFree(pool, used, (k + 1) % n, spins + 1, m - 1);
    }
  }

  /** When some name of the pool is free, a search from any index ends on a free name. */
  lemma SkipFindsFreeFrom(pool: seq<Activity>, used: set<string>, k: nat, p: nat)
    requires k < |pool| && p < |pool| && pool[p].name !in used
    ensures pool[Skip(pool, used, k, 0).0].name !in used
  {
    var n := |pool|;
    var m := if p >= k then p - k else p + n - k;
    if p >= k {
      ModBelow(k + m, n);
    } else {
      ModWrap(k + m, n);
    }
    SkipFindsFree(pool, used, k, 0, m);
  }

  /** A set of at most two names misses one of three different names. */
  lemma OneOfThreeMissing(used: set<string>, x: string, y: string, u: string, v: string, w: string)
    requires used == {x} || used == {x, y}
    requires u != v && u != w && v != w
    ensures u !in used || v !in used || w !in used
  {
  }

  /** After the first slot, only its name is used. */
  lemma UsedAfterFirstSlot(pool: seq<Activity>, start: nat)
    requires |pool| > 0
    ensures UsedNames(pool, Picks(pool, start, 1)) == {pool[Picks(pool, start, 1)[0]].name}
  {
    var p1 := Picks(pool, start, 1);
    assert p1[..0] == [];
  }

  /** After the second slot, the names of the first two slots are used. */
  lemma UsedAfterSecondSlot(pool: seq<Activity>, start: nat)
    requires |pool| > 0
    ensures var p2 := Picks(pool, start, 2);
      UsedNames(pool, p2) == {pool[p2[0]].name, pool[p2[1]].name}
  {
    var p1 := Picks(pool, start, 1);
    var p2 := Picks(pool, start, 2);
    PicksStep(pool, start, 1);
    assert p2[..1] == p1;
    UsedAfterFirstSlot(pool, start);
  }

  /** Slot `j` gets a name no earlier slot of its day has, whenever some name of the pool is still free. */
  lemma SlotNameFresh(pool: seq<Activity>, start: nat, j: nat, f: nat)
    requires |pool| > 0 && f < |pool| && pool[f].name !in UsedNames(pool, Picks(pool, start, j))
    ensures pool[Picks(pool, start, j + 1)[j]].name !in UsedNames(pool, Picks(pool, start, j))
  {
    PicksStep(pool, start, j);
    SkipFindsFreeFrom(pool, UsedNames(pool, Picks(pool, start, j)), (start + j) % |pool|, f);
  }

  /** Indices `a`, `b`, `c` of the pool hold three different names. */
  predicate DistinctAt(pool: seq<Activity>, a: nat, b: nat, c: nat) {
    a < |pool| && b < |pool| && c < |pool| &&
    pool[a].name != pool[b].name && pool[a].name != pool[c].name && pool[b].name != pool[c].name
  }

  /** The second slot of a day differs in name from the first. */
  lemma SecondSlotFresh(pool: seq<Activity>, start: nat, a: nat, b: nat, c: nat)
    requires |pool| > 0 && DistinctAt(pool, a, b, c)
    ensures var p2 := Picks(pool, start, 2); pool[p2[1]].name != pool[p2[0]].name
  {
    var u1 := UsedNames(pool, Picks(pool, start, 1));
    UsedAfterFirstSlot(pool, start);
    var x := pool[Picks(pool, start, 1)[0]].name;
    OneOfThreeMissing(u1, x, x, pool[a].name, pool[b].name, pool[c].name);
    SlotNameFresh(pool, start, 1, if pool[a].name !in u1 then a else if pool[b].name !in u1 then b else c);
    PicksStep(pool, start, 1);
  }

  /** The third slot of a day differs in name from the first two. */
  lemma ThirdSlotFresh(pool: seq<Activity>, start: nat, a: nat, b: nat, c: nat)
    requires |pool| > 0 && DistinctAt(pool, a, b, c)
    ensures var p3 := Picks(pool, start, 3);
      pool[p3[2]].name != pool[p3[0]].name && pool[p3[2]].name != pool[p3[1]].name
  {
    var p2 := Picks(pool, start, 2);
    var u2 := UsedNames(pool, p2);
    UsedAfterSecondSlot(pool, start);
    OneOfThreeMissing(u2, pool[p2[0]].name, pool[p2[1]].name, pool[a].name, pool[b].name, pool[c].name);
    SlotNameFresh(pool, start, 2, if pool[a].name !in u2 then a else if pool[b].name !in u2 then b else c);
    PicksStep(pool, start, 2);
  }

  /** With three different names in the pool, the three activities of a day have pairwise different names. */
  lemma DayNamesDistinct(pool: seq<Activity>, start: nat, a: nat, b: nat, c: nat)
    requires |pool| > 0 && DistinctAt(pool, a, b, c)
    ensures var picks := Picks(pool, start, 3);
      pool[picks[0]].name != pool[picks[1]].name &&
      pool[picks[0]].name != pool[picks[2]].name &&
      pool[picks[1]].name != pool[picks[2]].name
  {
    SecondSlotFresh(pool, start, a, b, c);
    ThirdSlotFresh(pool, start, a, b, c);
    PicksPrefix(pool, start, 2, 0);
    PicksPrefix(pool, start, 2, 1);
  }

  /** Every day of a plan drawn from a pool with three different names has three different activities. */
  lemma PlanDaysDistinct(pool: seq<Activity>, count: nat, destination: string, code: string, toMoney: nat -> nat,
                         i: nat)
    requires |pool| > 0 && ThreeDistinctNames(pool) && i < count
    ensures var parts := PlanDays(pool, count, destination, code, toMoney)[i].parts;
      parts[0].activity.name != parts[1].activity.name &&
      parts[0].activity.name != parts[2].activity.name &&
      parts[1].activity.name != parts[2].activity.name
  {
    var a, b, c := DistinctWitness(pool);
    var start := DayStart(i, |pool|);
    DayNamesDistinct(pool, start, a, b, c);
    PartNames(pool, Picks(pool, start, |Labels|), destination, code, toMoney);
    assert PlanDays(pool, count, destination, code, toMoney)[i] == PlanDay(pool, i, destination, code, toMoney);
  }

  /** Three indices of the pool that hold different names. */
  lemma DistinctWitness(pool: seq<Activity>) returns (a: nat, b: nat, c: nat)
    requires ThreeDistinctNames(pool)
    ensures DistinctAt(pool, a, b, c)
  {
    a, b, c :| 0 <= a < |pool| && 0 <= b < |pool| && 0 <= c < |pool| &&
      pool[a].name != pool[b].name && pool[a].name != pool[c].name && pool[b].name != pool[c].name;
  }

  /** The parts of a day carry the names of the activities at its picks. */
  lemma PartNames(pool: seq<Activity>, picks: seq<nat>, destination: string, code: string, toMoney: nat -> nat)
    requires |picks| == |Labels| && forall m :: 0 <= m < |picks| ==> picks[m] < |pool|
    ensures var parts := PartsOf(pool, picks, destination, code, toMoney);
      parts[0].activity.name == pool[picks[0]].name &&
      parts[1].activity.name == pool[picks[1]].name &&
      parts[2].activity.name == pool[picks[2]].name
  {
  }

  /** Without fetched activities the catalog is used, so every day has three different activities. */
  lemma FallbackDaysDistinct(travelStyle: string, count: nat, destination: string, code: string,
                             toMoney: nat -> nat, i: nat)
    requires i < count
    ensures var parts := PlanDays(ActivityPool([], travelStyle), count, destination, code, toMoney)[i].parts;
      parts[0].activity.name != parts[1].activity.name &&
      parts[0].activity.name != parts[2].activity.name &&
      parts[1].activity.name != parts[2].activity.name
  {
    var pool := ActivityPool([], travelStyle);
    CatalogHasThreeDistinctNames(travelStyle);
    assert pool[0].name != pool[1].name && pool[0].name != pool[2].name && pool[1].name != pool[2].name;
    PlanDaysDistinct(pool, count, destination, code, toMoney, i);
  }

  /** With a single activity, the skip loop runs its full bound and the activity fills every slot. */
  lemma SingleActivityRepeats(pool: seq<Activity>, start: nat)
    requires |pool| == 1
    ensures Picks(pool, start, 3) == [0, 0, 0]
  {
    var p1 := Picks(pool, start, 1);
    var p2 := Picks(pool, start, 2);
    assert p1 == [0];
    assert p2 == [0, 0];
  }

  // ----- Properties of the cost roll-up -----

  lemma {:induction false} PartsTotalAppend(a: seq<Part>, b: seq<Part>)
    ensures PartsTotal(a + b) == PartsTotal(a) + PartsTotal(b)
    decreases |b|
  {
    if b == [] {
      assert a + b == a;
    } else {
      var b' := b[..|b| - 1];
      assert (a + b)[..|a + b| - 1] == a + b';
      PartsTotalAppend(a, b');
    }
  }

  /** The activities total is the sum, day by day, of each day's part estimates. */
  function DaysTotal(days: seq<Day>): int {
    if days == [] then 0 else DaysTotal(days[..|days| - 1]) + PartsTotal(days[|days| - 1].parts)
  }

  lemma {:induction false} AllPartsTotal(days: seq<Day>)
    ensures PartsTotal(AllParts(days)) == DaysTotal(days)
    decreases |days|
  {
    if days != [] {
      AllPartsTotal(days[..|days| - 1]);
      PartsTotalAppend(AllParts(days[..|days| - 1]), days[|days| - 1].parts);
    }
  }

  /** A plan has three parts per day, so its flattened parts number three times its days. */
  lemma {:induction false} PlanPartsCount(pool: seq<Activity>, count: nat, destination: string, code: string,
                                          toMoney: nat -> nat)
    requires |pool| > 0
    ensures |AllParts(PlanDays(pool, count, destination, code, toMoney))| == 3 * count
  {
    if count > 0 {
      var days := PlanDays(pool, count, destination, code, toMoney);
      assert days[..count - 1] == PlanDays(pool, count - 1, destination, code, toMoney);
      PlanPartsCount(pool, count - 1, destination, code, toMoney);
    }
  }

  lemma {:induction false} PartsTotalNonNegative(parts: seq<Part>)
    requires forall m :: 0 <= m < |parts| ==> parts[m].cost.estimate >= 0
    ensures PartsTotal(parts) >= 0
    decreases |parts|
  {
    if parts != [] {
      PartsTotalNonNegative(parts[..|parts| - 1]);
    }
  }

  /** Every estimate in a plan is non-negative, and so is the activities total. */
  lemma PlanCostsNonNegative(pool: seq<Activity>, count: nat, destination: string, code: string,
                             toMoney: nat -> nat)
    requires |pool| > 0
    ensures PartsTotal(AllParts(PlanDays(pool, count, destination, code, toMoney))) >= 0
  {
    var days := PlanDays(pool, count, destination, code, toMoney);
    AllPartsEstimates(days);
    PartsTotalNonNegative(AllParts(days));
  }

  /** With non-negative components and a duration of zero or more, the trip total is non-negative. */
  lemma TripTotalNonNegative(flights: nat, accommodationPerNight: nat, activities: nat, transportPerDay: nat,
                             foodPerDay: nat, durationDays: nat)
    ensures TripTotal(flights, accommodationPerNight, activities, transportPerDay, foodPerDay, durationDays) >= 0
  {
    TripTotalIdentity(flights, accommodationPerNight, activities, transportPerDay, foodPerDay, durationDays);
  }

  /** Every part of the flattened days is a part of some day. */
  lemma {:induction false} AllPartsEstimates(days: seq<Day>)
    requires forall i, m :: 0 <= i < |days| && 0 <= m < |days[i].parts| ==> days[i].parts[m].cost.estimate >= 0
    ensures forall m :: 0 <= m < |AllParts(days)| ==> AllParts(days)[m].cost.estimate >= 0
    decreases |days|
  {
    if days != [] {
      AllPartsEstimates(days[..|days| - 1]);
    }
  }
}
