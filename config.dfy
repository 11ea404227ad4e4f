/** The category tables and thresholds of config.py that drive the
    categorizers, the large-group statistics and the data validation. */
module Config {
  import opened Text

  /** A named half-open hour range `[start, end)` of `TIME_CATEGORIES`. */
  datatype HourRange = HourRange(name: String, start: int, end: int)

  /** A named closed passenger range `[min, max]` of `GROUP_SIZE_CATEGORIES`. */
  datatype SizeRange = SizeRange(name: String, min: int, max: int)

  /** A location category of `LOCATION_CATEGORIES` with its keywords. */
  datatype LocationCategory = LocationCategory(name: String, keywords: seq<String>)

  /** `TIME_CATEGORIES`, in dict order. */
  const TimeCategories: seq<HourRange> := [
    HourRange("early_morning", 0, 6),
    HourRange("morning", 6, 12),
    HourRange("afternoon", 12, 17),
    HourRange("evening", 17, 21),
    HourRange("night", 21, 24)
  ]

  /** `GROUP_SIZE_CATEGORIES`, in dict order. */
  const GroupSizeCategories: seq<SizeRange> := [
    SizeRange("small", 1, 4),
    SizeRange("medium", 5, 8),
    SizeRange("large", 9, 12),
    SizeRange("extra_large", 13, 20)
  ]

  /** `LOCATION_CATEGORIES`, in dict order. */
  const LocationCategories: seq<LocationCategory> := [
    LocationCategory("entertainment", ["bar", "club", "lounge", "aquarium", "rooftop", "social",
                                       "pub", "restaurant", "venue", "hall", "theater"]),
    LocationCategory("campus", ["campus", "university", "drag", "west campus", "student",
                                "dorm", "residence hall", "fraternity", "sorority"]),
    LocationCategory("residential", ["house", "apartment", "residence", "home", "complex",
                                     "condo", "townhouse", "manor"]),
    LocationCategory("business", ["office", "building", "center", "district", "plaza",
                                  "tower", "corporate", "business"]),
    LocationCategory("transport", ["airport", "station", "terminal", "stop", "hub",
                                   "depot", "port"]),
    LocationCategory("retail", ["mall", "store", "shop", "market", "center",
                                "plaza", "outlet", "galleria"])
  ]

  // ANALYSIS_THRESHOLDS
  const MinTripsForPattern: nat := 5
  const PeakHourThreshold: real := 0.8
  const PopularLocationThreshold: nat := 10
  const LargeGroupThreshold: nat := 6
  const MinGroupSizeForAnalysis: nat := 3

  // the passenger bounds of VALIDATION_RULES
  const MinPassengers: int := 1
  const MaxPassengers: int := 20

  /** Number of hour ranges of `table` that contain `h`. */
  function HourHits(table: seq<HourRange>, h: int): nat {
    if table == [] then 0
    else (if table[0].start <= h < table[0].end then 1 else 0) + HourHits(table[1..], h)
  }

  /** Number of size ranges of `table` that contain `n`. */
  function SizeHits(table: seq<SizeRange>, n: int): nat {
    if table == [] then 0
    else (if table[0].min <= n <= table[0].max then 1 else 0) + SizeHits(table[1..], n)
  }

  /** The hour ranges are laid end to end from `lo` to `hi`. */
  predicate HalfOpenChain(table: seq<HourRange>, lo: int, hi: int)
    decreases |table|
  {
    if table == [] then lo == hi
    else table[0].start == lo && lo < table[0].end && HalfOpenChain(table[1..], table[0].end, hi)
  }

  /** The closed size ranges are laid end to end from `lo` to `hi`. */
  predicate ClosedChain(table: seq<SizeRange>, lo: int, hi: int)
    decreases |table|
  {
    if table == [] then lo == hi + 1
    else table[0].min == lo && lo <= table[0].max && ClosedChain(table[1..], table[0].max + 1, hi)
  }

  /** Ranges laid end to end cover every point of `[lo, hi)` exactly once
      and nothing outside it. */
  lemma {:induction false} HalfOpenChainTiles(table: seq<HourRange>, lo: int, hi: int, h: int)
    requires HalfOpenChain(table, lo, hi)
    ensures lo <= hi
    ensures HourHits(table, h) == if lo <= h < hi then 1 else 0
    decreases |table|
  {
    if table != [] {
      HalfOpenChainTiles(table[1..], table[0].end, hi, h);
    }
  }

  lemma {:induction false} ClosedChainTiles(table: seq<SizeRange>, lo: int, hi: int, n: int)
    requires ClosedChain(table, lo, hi)
    ensures lo <= hi + 1
    ensures SizeHits(table, n) == if lo <= n <= hi then 1 else 0
    decreases |table|
  {
    if table != [] {
      ClosedChainTiles(table[1..], table[0].max + 1, hi, n);
    }
  }

  /** `TIME_CATEGORIES` tiles the day: every hour 0-23 lies in exactly one
      range, and no other value lies in any. */
  lemma TimeCategoriesTileDay(h: int)
    ensures HourHits(TimeCategories, h) == if 0 <= h < 24 then 1 else 0
  {
    assert HalfOpenChain(TimeCategories, 0, 24);
    HalfOpenChainTiles(TimeCategories, 0, 24, h);
  }

  /** `GROUP_SIZE_CATEGORIES` tiles 1..20: every count in it lies in exactly
      one range, and no other count lies in any. */
  lemma GroupSizeCategoriesTile(n: int)
    ensures SizeHits(GroupSizeCategories, n) == if MinPassengers <= n <= MaxPassengers then 1 else 0
  {
    assert ClosedChain(GroupSizeCategories, 1, 20);
    ClosedChainTiles(GroupSizeCategories, 1, 20, n);
  }

  /** The maximum passenger bound is the top of the last group-size range. */
  lemma PassengerBoundsMatchTable()
    ensures GroupSizeCategories[0].min == MinPassengers
    ensures GroupSizeCategories[|GroupSizeCategories| - 1].max == MaxPassengers
  {
  }
}
