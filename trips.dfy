/** The trip store of data_processor.py: the cleaned trip records, the
    hour, group-size and venue classifiers derived from them, the cached
    insights, and the three queries the chatbot runs against the store. */
module Trips {
  import opened Text
  import opened Seqs
  import opened Config
  import opened Utils

  /** One cleaned trip record: a row of the processed frame after the
      missing-value drop, with its main pickup and dropoff names, its hour,
      weekday name and calendar day (a day number) already derived. */
  datatype Trip = Trip(
    tripId: int,
    pickupMain: String,
    dropoffMain: String,
    hour: int,
    passengers: int,
    dayOfWeek: String,
    date: int)

  // ---- derived columns ----------------------------------------------------

  /** The text before the first comma (`s.split(',')[0]`). */
  function FirstField(s: String): (r: String)
    ensures |r| <= |s| && r == s[..|r|] && ',' !in r
    ensures |r| == |s| || s[|r|] == ','
  {
    if s == [] || s[0] == ',' then [] else [s[0]] + FirstField(s[1..])
  }

  /** `_extract_main_location(address)` */
  function ExtractMainLocation(address: Option<String>): String {
    match address
    case None => "Unknown"
    case Some(a) => Strip(FirstField(a))
  }

  /** A missing address is "Unknown"; otherwise the main location is the
      text before the first comma, trimmed, or the whole address trimmed when
      it has no comma. It never holds a comma nor starts or ends with
      whitespace. */
  lemma ExtractMainLocationCorrect(address: Option<String>)
    ensures address.None? ==> ExtractMainLocation(address) == "Unknown"
    ensures address.Some? && ',' !in address.value ==>
      ExtractMainLocation(address) == Strip(address.value)
    ensures address.Some? ==> ',' !in ExtractMainLocation(address)
    ensures var r := ExtractMainLocation(address); r == [] || (!IsSpace(r[0]) && !IsSpace(r[|r| - 1]))
  {
    if address.Some? {
      StripKeepsOut(FirstField(address.value), ',');
      if ',' !in address.value {
        FirstFieldWhole(address.value);
      }
    }
  }

  lemma FirstFieldWhole(a: String)
    requires ',' !in a
    ensures FirstField(a) == a
  {
    var f := FirstField(a);
    assert |f| == |a|;
  }

  /** With a comma at `i` and none before it, the main location is the text
      before position `i`, trimmed. */
  lemma ExtractMainLocationAtComma(a: String, i: nat)
    requires i < |a| && a[i] == ',' && ',' !in a[..i]
    ensures ExtractMainLocation(Some(a)) == Strip(a[..i])
  {
    var f := FirstField(a);
    if |f| > i {
      assert false;
    }
    assert |f| >= i;
  }

  /** Trimming adds no character. */
  lemma StripKeepsOut(s: String, c: char)
    requires c !in s
    ensures c !in Strip(s)
  {
    var l := TrimLeft(s);
    var r := Strip(s);
    assert r == l[..|r|];
    assert l == s[|s| - |l|..];
    assert forall k :: 0 <= k < |r| ==> r[k] == s[|s| - |l| + k];
  }

  /** `_categorize_time(hour)` */
  function CategorizeTime(hour: int): String {
    if 6 <= hour < 12 then "Morning"
    else if 12 <= hour < 17 then "Afternoon"
    else if 17 <= hour < 21 then "Evening"
    else if 21 <= hour <= 23 then "Night"
    else "Late Night"
  }

  /** The labels `_categorize_time` can give. */
  const TimeLabels: seq<String> := ["Morning", "Afternoon", "Evening", "Night", "Late Night"]

  /** The store's time labels agree with the configured time table from 6 in
      the morning to midnight; before 6 the store says "Late Night" where the
      table says "Early Morning", and outside the day the store still says
      "Late Night" where the table says "Unknown". */
  lemma CategorizeTimeAgrees(h: int)
    ensures CategorizeTime(h) in TimeLabels
    ensures 6 <= h < 24 ==> CategorizeTime(h) == GetTimeCategory(h)
    ensures 0 <= h < 6 ==> CategorizeTime(h) == "Late Night" && GetTimeCategory(h) == "Early Morning"
    ensures !(0 <= h < 24) ==> CategorizeTime(h) == "Late Night" && GetTimeCategory(h) == "Unknown"
  {
    TimeCategoryNames(h);
    TimeCategoryTotal(h);
  }

  /** `_categorize_group_size(passengers)` */
  function CategorizeGroupSize(passengers: int): String {
    if passengers <= 4 then "Small (1-4)"
    else if passengers <= 8 then "Medium (5-8)"
    else if passengers <= 12 then "Large (9-12)"
    else "Extra Large (13+)"
  }

  /** The group-size labels, smallest first. */
  const GroupLabels: seq<String> := ["Small (1-4)", "Medium (5-8)", "Large (9-12)", "Extra Large (13+)"]

  /** Every count gets one of the four labels, and a larger group never gets
      a smaller label. */
  lemma CategorizeGroupSizeMonotone(p: int, q: int, i: nat, j: nat)
    requires p <= q
    requires i < |GroupLabels| && j < |GroupLabels|
    requires CategorizeGroupSize(p) == GroupLabels[i] && CategorizeGroupSize(q) == GroupLabels[j]
    ensures i <= j
  {
    assert forall k :: 0 <= k < |GroupLabels| ==> GroupLabels[k][0] == "SMLE"[k];
  }

  lemma CategorizeGroupSizeTotal(p: int)
    ensures CategorizeGroupSize(p) in GroupLabels
  {
  }

  const EntertainmentKeywords: seq<String> := ["bar", "club", "lounge", "aquarium", "rooftop", "social", "pub"]
  const CampusKeywords: seq<String> := ["campus", "university", "drag", "west campus"]

  /** `_is_entertainment_venue(location)` */
  predicate IsEntertainmentVenue(location: String) {
    AnyKeyword(Lower(location), EntertainmentKeywords)
  }

  /** `_is_campus_location(location)` */
  predicate IsCampusLocation(location: String) {
    AnyKeyword(Lower(location), CampusKeywords)
  }

  lemma AnyKeywordWider(text: String, a: seq<String>, b: seq<String>)
    requires forall k :: k in a ==> k in b
    requires AnyKeyword(text, a)
    ensures AnyKeyword(text, b)
  {
  }

  /** The store's entertainment test uses the first seven entertainment
      keywords of the location table, so a venue it flags is categorized as
      entertainment by `categorize_location` too. */
  lemma EntertainmentIsFirstCategory(location: String)
    requires IsEntertainmentVenue(location)
    ensures FirstCategory(LocationCategories, Lower(location)) == Some(0)
  {
    assert EntertainmentKeywords == LocationCategories[0].keywords[..7];
    AnyKeywordWider(Lower(location), EntertainmentKeywords, LocationCategories[0].keywords);
  }

  /** The campus test uses the first four campus keywords of the table, so a
      campus location is categorized as entertainment or campus (an
      entertainment keyword such as "bar" wins over "campus"). */
  lemma CampusIsEarlyCategory(location: String)
    requires IsCampusLocation(location)
    ensures var r := FirstCategory(LocationCategories, Lower(location)); r.Some? && r.value <= 1
  {
    assert CampusKeywords == LocationCategories[1].keywords[..4];
    AnyKeywordWider(Lower(location), CampusKeywords, LocationCategories[1].keywords);
  }

  // ---- columns ------------------------------------------------------------

  function Hours(trips: seq<Trip>): (r: seq<int>)
    ensures |r| == |trips|
  {
    seq(|trips|, i requires 0 <= i < |trips| => trips[i].hour)
  }

  function Passengers(trips: seq<Trip>): (r: seq<int>)
    ensures |r| == |trips|
  {
    seq(|trips|, i requires 0 <= i < |trips| => trips[i].passengers)
  }

  function PickupNames(trips: seq<Trip>): (r: seq<String>)
    ensures |r| == |trips|
  {
    seq(|trips|, i requires 0 <= i < |trips| => trips[i].pickupMain)
  }

  function DropoffNames(trips: seq<Trip>): (r: seq<String>)
    ensures |r| == |trips|
  {
    seq(|trips|, i requires 0 <= i < |trips| => trips[i].dropoffMain)
  }

  function Days(trips: seq<Trip>): (r: seq<String>)
    ensures |r| == |trips|
  {
    seq(|trips|, i requires 0 <= i < |trips| => trips[i].dayOfWeek)
  }

  /** The `time_category` column. */
  function TimeCategoryColumn(trips: seq<Trip>): (r: seq<String>)
    ensures |r| == |trips|
  {
    seq(|trips|, i requires 0 <= i < |trips| => CategorizeTime(trips[i].hour))
  }

  function SumOf(xs: seq<int>): int {
    if xs == [] then 0 else xs[0] + SumOf(xs[1..])
  }

  /** `mean()` of a column; 0 for an empty one, as the callers substitute. */
  function Mean(xs: seq<int>): real {
    if |xs| == 0 then 0.0 else (SumOf(xs) as real) / (|xs| as real)
  }

  lemma {:induction false} SumBounds(xs: seq<int>, lo: int, hi: int)
    requires forall i :: 0 <= i < |xs| ==> lo <= xs[i] <= hi
    ensures lo * |xs| <= SumOf(xs) <= hi * |xs|
  {
    if xs != [] {
      SumBounds(xs[1..], lo, hi);
    }
  }

  /** The mean of a column lies between any bounds of its values. */
  lemma MeanBounds(xs: seq<int>, lo: int, hi: int)
    requires |xs| > 0
    requires forall i :: 0 <= i < |xs| ==> lo <= xs[i] <= hi
    ensures lo as real <= Mean(xs) <= hi as real
  {
    SumBounds(xs, lo, hi);
    QuotientBetween(SumOf(xs), |xs|, lo, hi);
  }

  lemma QuotientBetween(sum: int, n: int, lo: int, hi: int)
    requires n > 0 && lo * n <= sum <= hi * n
    ensures lo as real <= sum as real / n as real <= hi as real
  {
    CastProduct(lo, n);
    CastProduct(hi, n);
    QuotientAtLeast(sum as real, n as real, lo as real);
    QuotientAtMost(sum as real, n as real, hi as real);
  }

  lemma CastProduct(a: int, b: int)
    ensures (a * b) as real == (a as real) * (b as real)
  {
  }

  lemma QuotientAtLeast(a: real, n: real, b: real)
    requires n > 0.0 && b * n <= a
    ensures b <= a / n
  {
    assert a / n - b == (a - b * n) / n;
  }

  lemma QuotientAtMost(a: real, n: real, b: real)
    requires n > 0.0 && a <= b * n
    ensures a / n <= b
  {
    assert b - a / n == (b * n - a) / n;
  }

  function Always<T>(x: T): bool { true }

  /** Counts of at least `n`. */
  function AtLeast(n: int): int -> bool { k => k >= n }

  // ---- _calculate_insights ------------------------------------------------

  /** The passenger count data_processor.py treats as a large group. */
  const LargeGroupMin: int := 6

  /** The cached `insights` dict; the two lists are `(name, count)` pairs and
      the two distributions are ordered by key. */
  datatype Insights = Insights(
    totalTrips: nat,
    avgGroupSize: real,
    peakHour: int,
    largeGroupsCount: nat,
    largeGroupsPct: real,
    topPickups: seq<Tally<String>>,
    topDropoffs: seq<Tally<String>>,
    hourlyDistribution: seq<Tally<int>>,
    groupSizeDistribution: seq<Tally<int>>)

  /** `_calculate_insights()`; the source fails on an empty frame (the
      hour mode has no first value). */
  function InsightsOf(trips: seq<Trip>): Insights
    requires |trips| > 0
  {
    var hours := Hours(trips);
    ModesNonEmpty(hours);
    var large := CountWhere(Passengers(trips), AtLeast(LargeGroupMin));
    Insights(
      |trips|,
      Mean(Passengers(trips)),
      Modes(hours)[0],
      large,
      (large as real) / (|trips| as real) * 100.0,
      Take(ValueCounts(PickupNames(trips)), 10),
      Take(ValueCounts(DropoffNames(trips)), 10),
      SortedIndex(hours),
      SortedIndex(Passengers(trips)))
  }

  /** Both distributions count every trip once, and the large-group count is
      the group-size distribution's sum over sizes of at least 6, the
      configured large-group threshold. */
  lemma InsightsTotals(trips: seq<Trip>)
    requires |trips| > 0
    ensures var ins := InsightsOf(trips);
      && ins.totalTrips == |trips|
      && Total(ins.hourlyDistribution) == ins.totalTrips
      && Total(ins.groupSizeDistribution) == ins.totalTrips
      && ins.largeGroupsCount == SumWhere(ins.groupSizeDistribution, AtLeast(LargeGroupThreshold))
      && LargeGroupMin == LargeGroupThreshold
      && ins.largeGroupsCount <= ins.totalTrips
  {
    var ins := InsightsOf(trips);
    TotalIsSumWhere(ins.hourlyDistribution, Always);
    SortedIndexSum(Hours(trips), Always);
    CountWhereAll(Hours(trips), Always);
    TotalIsSumWhere(ins.groupSizeDistribution, Always);
    SortedIndexSum(Passengers(trips), Always);
    CountWhereAll(Passengers(trips), Always);
    SortedIndexSum(Passengers(trips), AtLeast(LargeGroupMin));
  }

  /** The two distributions give every hour (every group size) that occurs,
      each once with its true count, in ascending order. */
  lemma InsightsDistributions(trips: seq<Trip>)
    requires |trips| > 0
    ensures var ins := InsightsOf(trips);
      && TrueTally(ins.hourlyDistribution, Hours(trips))
      && CoversValues(ins.hourlyDistribution, Hours(trips))
      && TrueTally(ins.groupSizeDistribution, Passengers(trips))
      && CoversValues(ins.groupSizeDistribution, Passengers(trips))
  {
    SortedIndexCorrect(Hours(trips));
    SortedIndexCorrect(Passengers(trips));
  }

  lemma InsightsDistributionsAscending(trips: seq<Trip>)
    requires |trips| > 0
    ensures var d := InsightsOf(trips).hourlyDistribution;
      forall i, j :: 0 <= i < j < |d| ==> d[i].key < d[j].key
    ensures var d := InsightsOf(trips).groupSizeDistribution;
      forall i, j :: 0 <= i < j < |d| ==> d[i].key < d[j].key
  {
    SortedIndexCorrect(Hours(trips));
    SortedIndexCorrect(Passengers(trips));
  }

  /** The top lists hold at most 10 distinct names with their true counts,
      in non-increasing count. */
  lemma InsightsTopLists(trips: seq<Trip>)
    requires |trips| > 0
    ensures var ins := InsightsOf(trips);
      && |ins.topPickups| <= 10 && TrueTally(ins.topPickups, PickupNames(trips))
      && SortedDesc(ins.topPickups, ByCount)
      && |ins.topDropoffs| <= 10 && TrueTally(ins.topDropoffs, DropoffNames(trips))
      && SortedDesc(ins.topDropoffs, ByCount)
  {
    TopCountsCorrect(PickupNames(trips), 10);
    TopCountsCorrect(DropoffNames(trips), 10);
  }

  /** A pickup name missing from the top list only misses it when the list
      is full, and is no more frequent than the list's last name. */
  lemma InsightsTopPickupsComplete(trips: seq<Trip>, name: String)
    requires |trips| > 0
    requires name in PickupNames(trips) && name !in Keys(InsightsOf(trips).topPickups)
    ensures |InsightsOf(trips).topPickups| == 10
    ensures Count(PickupNames(trips), name) <= InsightsOf(trips).topPickups[9].count
  {
    TopCountsComplete(PickupNames(trips), 10, name);
  }

  lemma InsightsTopDropoffsComplete(trips: seq<Trip>, name: String)
    requires |trips| > 0
    requires name in DropoffNames(trips) && name !in Keys(InsightsOf(trips).topDropoffs)
    ensures |InsightsOf(trips).topDropoffs| == 10
    ensures Count(DropoffNames(trips), name) <= InsightsOf(trips).topDropoffs[9].count
  {
    TopCountsComplete(DropoffNames(trips), 10, name);
  }

  /** The peak hour is an hour of some trip that no hour outnumbers, and the
      smallest such hour. */
  lemma PeakHourCorrect(trips: seq<Trip>)
    requires |trips| > 0
    ensures var hours := Hours(trips); var peak := InsightsOf(trips).peakHour;
      && peak in hours
      && (forall h :: Count(hours, h) <= Count(hours, peak))
      && (forall h :: h < peak ==> Count(hours, h) < Count(hours, peak))
  {
    FirstModeCorrect(Hours(trips));
  }

  /** The first value of `mode()` occurs, no value outnumbers it, and every
      smaller value occurs fewer times. */
  lemma FirstModeCorrect(hours: seq<int>)
    requires |hours| > 0
    ensures Modes(hours) != []
    ensures var peak := Modes(hours)[0];
      && peak in hours
      && (forall h :: Count(hours, h) <= Count(hours, peak))
      && (forall h :: h < peak ==> Count(hours, h) < Count(hours, peak))
  {
    ModesNonEmpty(hours);
    var m := Modes(hours);
    var peak := m[0];
    ModesMembers(hours, peak);
    MaxCountCorrect(hours);
    ModesAscending(hours);
    forall h | h < peak ensures Count(hours, h) < Count(hours, peak) {
      assert forall k :: 0 < k < |m| ==> m[0] < m[k];
      assert h !in m;
      ModesMembers(hours, h);
    }
  }

  /** With every passenger count within the validation bounds, the mean group
      size is within them too. */
  lemma InsightsAverageBounds(trips: seq<Trip>)
    requires |trips| > 0
    requires forall i :: 0 <= i < |trips| ==> MinPassengers <= trips[i].passengers <= MaxPassengers
    ensures MinPassengers as real <= InsightsOf(trips).avgGroupSize <= MaxPassengers as real
  {
    MeanBounds(Passengers(trips), MinPassengers, MaxPassengers);
  }

  // ---- get_location_stats -------------------------------------------------

  /** `pickup_main.str.contains(location, case=False)` */
  function PickupMatches(location: String): Trip -> bool {
    (t: Trip) => ContainsIgnoreCase(t.pickupMain, location)
  }

  function DropoffMatches(location: String): Trip -> bool {
    (t: Trip) => ContainsIgnoreCase(t.dropoffMain, location)
  }

  predicate IncludesPickup(locationType: String) {
    locationType == "pickup" || locationType == "both"
  }

  predicate IncludesDropoff(locationType: String) {
    locationType == "dropoff" || locationType == "both"
  }

  datatype LocationStats = LocationStats(
    pickupCount: nat,
    dropoffCount: nat,
    avgGroupSizePickup: real,
    avgGroupSizeDropoff: real,
    peakHoursPickup: seq<int>,
    peakHoursDropoff: seq<int>)

  /** The pickup rows selected by `get_location_stats`. */
  function PickupData(trips: seq<Trip>, location: String, locationType: String): seq<Trip> {
    if IncludesPickup(locationType) then Filter(trips, PickupMatches(location)) else []
  }

  function DropoffData(trips: seq<Trip>, location: String, locationType: String): seq<Trip> {
    if IncludesDropoff(locationType) then Filter(trips, DropoffMatches(location)) else []
  }

  /** `hour.mode().tolist()` of a selection, or `[]` for an empty one. */
  function PeakHours(data: seq<Trip>): seq<int> {
    if |data| > 0 then Modes(Hours(data)) else []
  }

  /** `get_location_stats(location, location_type)` */
  function LocationStatsOf(trips: seq<Trip>, location: String, locationType: String): LocationStats {
    var pickupData := PickupData(trips, location, locationType);
    var dropoffData := DropoffData(trips, location, locationType);
    LocationStats(
      |pickupData|,
      |dropoffData|,
      if |pickupData| > 0 then Mean(Passengers(pickupData)) else 0.0,
      if |dropoffData| > 0 then Mean(Passengers(dropoffData)) else 0.0,
      PeakHours(pickupData),
      PeakHours(dropoffData))
  }

  /** Each count is the number of trips whose main name on that side
      contains the fragment, ignoring case; a side the location type leaves
      out counts 0. */
  lemma LocationStatsCounts(trips: seq<Trip>, location: String, locationType: String)
    ensures var st := LocationStatsOf(trips, location, locationType);
      && st.pickupCount == (if IncludesPickup(locationType) then CountWhere(trips, PickupMatches(location)) else 0)
      && st.dropoffCount == (if IncludesDropoff(locationType) then CountWhere(trips, DropoffMatches(location)) else 0)
  {
    FilterSize(trips, PickupMatches(location));
    FilterSize(trips, DropoffMatches(location));
  }

  /** The peak list of a selection holds exactly its hours of highest count,
      ascending; an empty selection has average 0 and no peak hours. */
  lemma PeakHoursCorrect(data: seq<Trip>)
    ensures forall h :: h in PeakHours(data) <==> h in Hours(data) && Count(Hours(data), h) == MaxCount(Hours(data))
    ensures forall i, j :: 0 <= i < j < |PeakHours(data)| ==> PeakHours(data)[i] < PeakHours(data)[j]
    ensures |data| > 0 <==> PeakHours(data) != []
  {
    ModesAscending(Hours(data));
    if |data| > 0 {
      ModesNonEmpty(Hours(data));
      forall h ensures h in PeakHours(data) <==> h in Hours(data) && Count(Hours(data), h) == MaxCount(Hours(data)) {
        ModesMembers(Hours(data), h);
      }
    }
  }

  lemma LocationStatsEmptySide(trips: seq<Trip>, location: String, locationType: String)
    ensures var st := LocationStatsOf(trips, location, locationType);
      && (st.pickupCount == 0 ==> st.avgGroupSizePickup == 0.0 && st.peakHoursPickup == [])
      && (st.dropoffCount == 0 ==> st.avgGroupSizeDropoff == 0.0 && st.peakHoursDropoff == [])
      && (st.pickupCount > 0 ==> st.peakHoursPickup != [])
      && (st.dropoffCount > 0 ==> st.peakHoursDropoff != [])
  {
    PeakHoursCorrect(PickupData(trips, location, locationType));
    PeakHoursCorrect(DropoffData(trips, location, locationType));
  }

  // ---- get_time_patterns --------------------------------------------------

  datatype TimePatterns = TimePatterns(
    hourlyCounts: seq<Tally<int>>,
    dailyCounts: seq<Tally<String>>,
    timeCategoryCounts: seq<Tally<String>>)

  function MinPassengersTest(n: int): Trip -> bool {
    (t: Trip) => t.passengers >= n
  }

  /** The rows `get_time_patterns` counts: a truthy filter (present and not
      0) keeps the trips of at least that many passengers. */
  function PatternData(trips: seq<Trip>, groupSizeFilter: Option<int>): seq<Trip> {
    if groupSizeFilter.Some? && groupSizeFilter.value != 0 then Filter(trips, MinPassengersTest(groupSizeFilter.value))
    else trips
  }

  /** `get_time_patterns(group_size_filter)` */
  function TimePatternsOf(trips: seq<Trip>, groupSizeFilter: Option<int>): TimePatterns {
    var data := PatternData(trips, groupSizeFilter);
    TimePatterns(SortedIndex(Hours(data)), ValueCounts(Days(data)), ValueCounts(TimeCategoryColumn(data)))
  }

  /** Without a truthy filter every trip is counted; with one, exactly the
      trips of at least that many passengers. */
  lemma PatternDataCorrect(trips: seq<Trip>, groupSizeFilter: Option<int>)
    ensures groupSizeFilter.None? || groupSizeFilter.value == 0 ==> PatternData(trips, groupSizeFilter) == trips
    ensures groupSizeFilter.Some? && groupSizeFilter.value != 0 ==>
      |PatternData(trips, groupSizeFilter)| == CountWhere(trips, MinPassengersTest(groupSizeFilter.value))
    ensures forall i :: 0 <= i < |PatternData(trips, groupSizeFilter)| ==>
      PatternData(trips, groupSizeFilter)[i] in trips &&
      (groupSizeFilter.Some? && groupSizeFilter.value != 0 ==>
        PatternData(trips, groupSizeFilter)[i].passengers >= groupSizeFilter.value)
  {
    if groupSizeFilter.Some? && groupSizeFilter.value != 0 {
      FilterSize(trips, MinPassengersTest(groupSizeFilter.value));
    }
  }

  /** Each of the three tallies counts every selected trip once. */
  lemma TimePatternsTotals(trips: seq<Trip>, groupSizeFilter: Option<int>)
    ensures var tp := TimePatternsOf(trips, groupSizeFilter); var n := |PatternData(trips, groupSizeFilter)|;
      && Total(tp.hourlyCounts) == n
      && Total(tp.dailyCounts) == n
      && Total(tp.timeCategoryCounts) == n
  {
    var data := PatternData(trips, groupSizeFilter);
    var tp := TimePatternsOf(trips, groupSizeFilter);
    TotalIsSumWhere(tp.hourlyCounts, Always);
    SortedIndexSum(Hours(data), Always);
    CountWhereAll(Hours(data), Always);
    TotalIsSumWhere(tp.dailyCounts, Always);
    ValueCountsSum(Days(data), Always);
    CountWhereAll(Days(data), Always);
    TotalIsSumWhere(tp.timeCategoryCounts, Always);
    ValueCountsSum(TimeCategoryColumn(data), Always);
    CountWhereAll(TimeCategoryColumn(data), Always);
  }

  /** The hourly counts are true counts of the selected trips' hours, in
      ascending hour order. */
  lemma TimePatternsHourly(trips: seq<Trip>, groupSizeFilter: Option<int>)
    ensures var tp := TimePatternsOf(trips, groupSizeFilter); var data := PatternData(trips, groupSizeFilter);
      && TrueTally(tp.hourlyCounts, Hours(data))
      && CoversValues(tp.hourlyCounts, Hours(data))
      && (forall i, j :: 0 <= i < j < |tp.hourlyCounts| ==> tp.hourlyCounts[i].key < tp.hourlyCounts[j].key)
  {
    SortedIndexCorrect(Hours(PatternData(trips, groupSizeFilter)));
  }

  /** Every time category counted is one of the five labels. */
  lemma TimePatternsCategories(trips: seq<Trip>, groupSizeFilter: Option<int>, i: nat)
    requires i < |TimePatternsOf(trips, groupSizeFilter).timeCategoryCounts|
    ensures TimePatternsOf(trips, groupSizeFilter).timeCategoryCounts[i].key in TimeLabels
  {
    var c := TimeCategoryColumn(PatternData(trips, groupSizeFilter));
    ValueCountsKey(c, i);
    var k :| 0 <= k < |c| && c[k] == ValueCounts(c)[i].key;
    CategorizeTimeAgrees(PatternData(trips, groupSizeFilter)[k].hour);
  }

  // ---- query_data ---------------------------------------------------------

  /** The keys of the `query_params` dict; an absent key is `None`. Hour and
      date ranges are inclusive `(start, end)` pairs; dates are day numbers. */
  datatype QueryParams = QueryParams(
    pickupLocation: Option<String>,
    dropoffLocation: Option<String>,
    hourRange: Option<(int, int)>,
    minPassengers: Option<int>,
    maxPassengers: Option<int>,
    dateRange: Option<(int, int)>)

  /** Filter `k` of `query_data` (in source order) passes `t`; an absent
      filter passes everything. */
  predicate Clause(q: QueryParams, k: nat, t: Trip) {
    if k == 0 then q.pickupLocation.Some? ==> ContainsIgnoreCase(t.pickupMain, q.pickupLocation.value)
    else if k == 1 then q.dropoffLocation.Some? ==> ContainsIgnoreCase(t.dropoffMain, q.dropoffLocation.value)
    else if k == 2 then q.hourRange.Some? ==> q.hourRange.value.0 <= t.hour <= q.hourRange.value.1
    else if k == 3 then q.minPassengers.Some? ==> t.passengers >= q.minPassengers.value
    else if k == 4 then q.maxPassengers.Some? ==> t.passengers <= q.maxPassengers.value
    else q.dateRange.Some? ==> q.dateRange.value.0 <= t.date <= q.dateRange.value.1
  }

  /** Filter `k` is present in the parameters. */
  predicate Present(q: QueryParams, k: nat) {
    if k == 0 then q.pickupLocation.Some?
    else if k == 1 then q.dropoffLocation.Some?
    else if k == 2 then q.hourRange.Some?
    else if k == 3 then q.minPassengers.Some?
    else if k == 4 then q.maxPassengers.Some?
    else q.dateRange.Some?
  }

  /** The first `n` filters all pass `t`. */
  predicate PassesFirst(q: QueryParams, n: nat, t: Trip) {
    if n == 0 then true else PassesFirst(q, n - 1, t) && Clause(q, n - 1, t)
  }

  function ClauseTest(q: QueryParams, k: nat): Trip -> bool {
    (t: Trip) => Clause(q, k, t)
  }

  function FirstTest(q: QueryParams, n: nat): Trip -> bool {
    (t: Trip) => PassesFirst(q, n, t)
  }

  /** Every filter of the parameters passes. */
  function QueryTest(q: QueryParams): Trip -> bool {
    FirstTest(q, 6)
  }

  /** A trip passes the query exactly when it passes each present filter. */
  lemma QueryTestMeaning(q: QueryParams, t: Trip)
    ensures QueryTest(q)(t) <==>
      && (q.pickupLocation.Some? ==> ContainsIgnoreCase(t.pickupMain, q.pickupLocation.value))
      && (q.dropoffLocation.Some? ==> ContainsIgnoreCase(t.dropoffMain, q.dropoffLocation.value))
      && (q.hourRange.Some? ==> q.hourRange.value.0 <= t.hour <= q.hourRange.value.1)
      && (q.minPassengers.Some? ==> t.passengers >= q.minPassengers.value)
      && (q.maxPassengers.Some? ==> t.passengers <= q.maxPassengers.value)
      && (q.dateRange.Some? ==> q.dateRange.value.0 <= t.date <= q.dateRange.value.1)
  {
    assert QueryTest(q)(t) == PassesFirst(q, 6, t);
    assert PassesFirst(q, 6, t) == (PassesFirst(q, 5, t) && Clause(q, 5, t));
    assert PassesFirst(q, 5, t) == (PassesFirst(q, 4, t) && Clause(q, 4, t));
    assert PassesFirst(q, 4, t) == (PassesFirst(q, 3, t) && Clause(q, 3, t));
    assert PassesFirst(q, 3, t) == (PassesFirst(q, 2, t) && Clause(q, 2, t));
    assert PassesFirst(q, 2, t) == (PassesFirst(q, 1, t) && Clause(q, 1, t));
    assert PassesFirst(q, 1, t) == Clause(q, 0, t);
  }

  /** One more filter step of `query_data`: filtering the selection so far by
      filter `k` is the selection of the first `k + 1` filters, and an absent
      filter changes nothing. */
  lemma QueryStep(trips: seq<Trip>, q: QueryParams, k: nat)
    ensures Filter(Filter(trips, FirstTest(q, k)), ClauseTest(q, k)) == Filter(trips, FirstTest(q, k + 1))
    ensures !Present(q, k) ==> Filter(trips, FirstTest(q, k)) == Filter(trips, FirstTest(q, k + 1))
  {
    FilterTwice(trips, FirstTest(q, k), ClauseTest(q, k), FirstTest(q, k + 1));
    if !Present(q, k) {
      FilterTwice(trips, FirstTest(q, k), Always, FirstTest(q, k + 1));
      FilterAll(Filter(trips, FirstTest(q, k)), Always);
    }
  }

  /** Parameters `q2` keep every filter of `q1`, with the same value. */
  predicate Extends(q2: QueryParams, q1: QueryParams) {
    && (q1.pickupLocation.Some? ==> q2.pickupLocation == q1.pickupLocation)
    && (q1.dropoffLocation.Some? ==> q2.dropoffLocation == q1.dropoffLocation)
    && (q1.hourRange.Some? ==> q2.hourRange == q1.hourRange)
    && (q1.minPassengers.Some? ==> q2.minPassengers == q1.minPassengers)
    && (q1.maxPassengers.Some? ==> q2.maxPassengers == q1.maxPassengers)
    && (q1.dateRange.Some? ==> q2.dateRange == q1.dateRange)
  }

  /** Adding filters only narrows the result: the larger query selects from
      the smaller query's result, in the same order. */
  lemma QueryNarrows(trips: seq<Trip>, q1: QueryParams, q2: QueryParams)
    requires Extends(q2, q1)
    ensures Filter(trips, QueryTest(q2)) == Filter(Filter(trips, QueryTest(q1)), QueryTest(q2))
    ensures |Filter(trips, QueryTest(q2))| <= |Filter(trips, QueryTest(q1))|
  {
    forall t ensures QueryTest(q2)(t) ==> QueryTest(q1)(t) {
      QueryTestMeaning(q1, t);
      QueryTestMeaning(q2, t);
    }
    FilterNarrows(trips, QueryTest(q1), QueryTest(q2));
  }

  /** The processor: the cleaned trips and the insights cached from them. */
  class DataProcessor {
    const trips: seq<Trip>
    const insights: Insights

    /** The store holds trips and its cached insights are theirs. */
    ghost predicate Valid() {
      |trips| > 0 && insights == InsightsOf(trips)
    }

    /** `load_and_process_data()` once the records are cleaned: keep them,
        then let `_calculate_insights()` cache the insights computed from
        them. Both run only while the store is built, so the records and
        their insights stay fixed afterwards. */
    constructor (records: seq<Trip>)
      requires |records| > 0
      ensures trips == records
      ensures insights == InsightsOf(records)
      ensures Valid()
    {
      trips := records;
      insights := InsightsOf(records);
    }

    /** `query_data(query_params)`: narrow the selection filter by filter,
        in source order. */
    method QueryData(params: QueryParams) returns (filtered: seq<Trip>)
      ensures filtered == Filter(trips, QueryTest(params))
    {
      filtered := trips;
      FilterAll(trips, FirstTest(params, 0));
      filtered := NarrowBy(filtered, params, 0);
      filtered := NarrowBy(filtered, params, 1);
      filtered := NarrowBy(filtered, params, 2);
      filtered := NarrowBy(filtered, params, 3);
      filtered := NarrowBy(filtered, params, 4);
      filtered := NarrowBy(filtered, params, 5);
    }

    /** The `if key in query_params:` step for filter `k`. */
    method NarrowBy(filtered: seq<Trip>, params: QueryParams, k: nat) returns (narrowed: seq<Trip>)
      requires filtered == Filter(trips, FirstTest(params, k))
      ensures narrowed == Filter(trips, FirstTest(params, k + 1))
    {
      narrowed := filtered;
      if Present(params, k) {
        narrowed := Filter(filtered, ClauseTest(params, k));
      }
      QueryStep(trips, params, k);
    }
  }
}
