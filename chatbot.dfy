/** The question-answering session of chatbot_engine.py: the conversation
    log, the fuzzy location resolver, and the handlers that turn a
    classified question into an answer drawn from the trip store. Each
    handler's answer is the data its reply text interpolates. */
module Chatbot {
  import opened Text
  import opened Seqs
  import opened Utils
  import opened Trips
  import opened Patterns

  // ---- _fuzzy_search_location ---------------------------------------------

  /** `d[t.key] = d.get(t.key, 0) + t.count` on a dict kept as a list in
      insertion order. */
  function AddCount(d: seq<Tally<String>>, t: Tally<String>): seq<Tally<String>> {
    if d == [] then [t]
    else if d[0].key == t.key then [Tally(t.key, d[0].count + t.count)] + d[1..]
    else [d[0]] + AddCount(d[1..], t)
  }

  /** Adding every tally of `ts`, in order. */
  function AddCounts(d: seq<Tally<String>>, ts: seq<Tally<String>>): seq<Tally<String>>
    decreases |ts|
  {
    if ts == [] then d else AddCounts(AddCount(d, ts[0]), ts[1..])
  }

  /** `all_locations`: the pickup value counts, then the dropoff value counts,
      merged by name. */
  function CombinedCounts(trips: seq<Trip>): seq<Tally<String>> {
    AddCounts(AddCounts([], ValueCounts(PickupNames(trips))), ValueCounts(DropoffNames(trips)))
  }

  /** Every name on either side of a trip, pickups first. */
  function AllNames(trips: seq<Trip>): seq<String> {
    PickupNames(trips) + DropoffNames(trips)
  }

  lemma {:induction false} AddCountSum(d: seq<Tally<String>>, t: Tally<String>, k: String)
    ensures SumWhere(AddCount(d, t), Equals(k)) == SumWhere(d, Equals(k)) + (if t.key == k then t.count else 0)
  {
    if d != [] && d[0].key != t.key {
      AddCountSum(d[1..], t, k);
      assert AddCount(d, t)[1..] == AddCount(d[1..], t);
    }
  }

  lemma {:induction false} AddCountKeys(d: seq<Tally<String>>, t: Tally<String>)
    requires NoDups(Keys(d))
    ensures NoDups(Keys(AddCount(d, t)))
    ensures forall x :: x in Keys(AddCount(d, t)) <==> x in Keys(d) || x == t.key
  {
    var r := AddCount(d, t);
    if d == [] {
    } else {
      assert Keys(d) == [d[0].key] + Keys(d[1..]);
      NoDupsTail(Keys(d));
      if d[0].key == t.key {
        assert Keys(r) == [t.key] + Keys(d[1..]);
      } else {
        AddCountKeys(d[1..], t);
        assert Keys(r) == [d[0].key] + Keys(AddCount(d[1..], t));
        NoDupsCons(d[0].key, Keys(AddCount(d[1..], t)));
      }
    }
  }

  lemma {:induction false} AddCountsSum(d: seq<Tally<String>>, ts: seq<Tally<String>>, k: String)
    ensures SumWhere(AddCounts(d, ts), Equals(k)) == SumWhere(d, Equals(k)) + SumWhere(ts, Equals(k))
    decreases |ts|
  {
    if ts != [] {
      AddCountSum(d, ts[0], k);
      AddCountsSum(AddCount(d, ts[0]), ts[1..], k);
    }
  }

  lemma {:induction false} AddCountsKeys(d: seq<Tally<String>>, ts: seq<Tally<String>>)
    requires NoDups(Keys(d))
    ensures NoDups(Keys(AddCounts(d, ts)))
    ensures forall x :: x in Keys(AddCounts(d, ts)) <==> x in Keys(d) || x in Keys(ts)
    decreases |ts|
  {
    if ts != [] {
      AddCountKeys(d, ts[0]);
      AddCountsKeys(AddCount(d, ts[0]), ts[1..]);
      assert Keys(ts) == [ts[0].key] + Keys(ts[1..]);
    }
  }

  /** One side's value counts hold every name of that side, with its count. */
  lemma ValueCountsByName(s: seq<String>, k: String)
    ensures NoDups(Keys(ValueCounts(s)))
    ensures k in Keys(ValueCounts(s)) <==> k in s
    ensures SumWhere(ValueCounts(s), Equals(k)) == Count(s, k)
  {
    ValueCountsCorrect(s);
    ValueCountsSum(s, Equals(k));
    CountWhereEquals(s, k);
    if k in Keys(ValueCounts(s)) {
      var i :| 0 <= i < |ValueCounts(s)| && Keys(ValueCounts(s))[i] == k;
    }
  }

  /** The merged dict holds each name of either side once, with its pickup
      occurrences plus its dropoff occurrences: a true tally of all names. */
  lemma CombinedCountsCorrect(trips: seq<Trip>)
    ensures TrueTally(CombinedCounts(trips), AllNames(trips))
    ensures CoversValues(CombinedCounts(trips), AllNames(trips))
    ensures forall i :: 0 <= i < |CombinedCounts(trips)| ==>
      CombinedCounts(trips)[i].count ==
        Count(PickupNames(trips), CombinedCounts(trips)[i].key) + Count(DropoffNames(trips), CombinedCounts(trips)[i].key)
  {
    var c := CombinedCounts(trips);
    CombinedKeys(trips);
    forall i | 0 <= i < |c|
      ensures c[i].count == Count(PickupNames(trips), c[i].key) + Count(DropoffNames(trips), c[i].key)
      ensures c[i].key in AllNames(trips) && c[i].count == Count(AllNames(trips), c[i].key)
    {
      CombinedEntry(trips, i);
    }
  }

  lemma CombinedKeys(trips: seq<Trip>)
    ensures NoDups(Keys(CombinedCounts(trips)))
    ensures forall x :: x in Keys(CombinedCounts(trips)) <==> x in AllNames(trips)
  {
    var p := ValueCounts(PickupNames(trips));
    var d := ValueCounts(DropoffNames(trips));
    AddCountsKeys([], p);
    AddCountsKeys(AddCounts([], p), d);
    forall x ensures x in Keys(CombinedCounts(trips)) <==> x in AllNames(trips) {
      ValueCountsByName(PickupNames(trips), x);
      ValueCountsByName(DropoffNames(trips), x);
    }
  }

  lemma CombinedEntry(trips: seq<Trip>, i: nat)
    requires i < |CombinedCounts(trips)|
    ensures var t := CombinedCounts(trips)[i];
      t.count == Count(PickupNames(trips), t.key) + Count(DropoffNames(trips), t.key)
    ensures var t := CombinedCounts(trips)[i];
      t.count == Count(AllNames(trips), t.key)
  {
    var p := ValueCounts(PickupNames(trips));
    var d := ValueCounts(DropoffNames(trips));
    var c := CombinedCounts(trips);
    var k := c[i].key;
    CombinedKeys(trips);
    AddCountsSum([], p, k);
    AddCountsSum(AddCounts([], p), d, k);
    ValueCountsByName(PickupNames(trips), k);
    ValueCountsByName(DropoffNames(trips), k);
    SumWhereOneKey(c, k);
    CountAppend(PickupNames(trips), DropoffNames(trips), k);
  }

  /** Exact tier: the names equal to the query, ignoring case. */
  predicate ExactMatch(queryLower: String, t: Tally<String>) {
    queryLower == Lower(t.key)
  }

  /** Partial tier: the query inside the name, or the name inside the query. */
  predicate PartialMatch(queryLower: String, t: Tally<String>) {
    Contains(Lower(t.key), queryLower) || Contains(queryLower, Lower(t.key))
  }

  predicate LongWord(w: String) { |w| > 2 }

  /** Word tier: some word of the query longer than 2 characters occurs in
      the name. */
  predicate WordMatch(queryLower: String, t: Tally<String>) {
    AnyKeyword(Lower(t.key), Filter(SplitWords(queryLower), LongWord))
  }

  function ExactTier(queryLower: String): Tally<String> -> bool { t => ExactMatch(queryLower, t) }

  function PartialTier(queryLower: String): Tally<String> -> bool { t => PartialMatch(queryLower, t) }

  function WordTier(queryLower: String): Tally<String> -> bool { t => WordMatch(queryLower, t) }

  /** The matches before sorting: the first non-empty tier. */
  function TierMatches(all: seq<Tally<String>>, queryLower: String): seq<Tally<String>> {
    var exact := Filter(all, ExactTier(queryLower));
    if exact != [] then exact
    else
      var partial := Filter(all, PartialTier(queryLower));
      if partial != [] then partial else Filter(all, WordTier(queryLower))
  }

  /** `_fuzzy_search_location(query_location)` */
  function FuzzyMatches(trips: seq<Trip>, queryLocation: String): seq<Tally<String>> {
    Take(SortDesc(TierMatches(CombinedCounts(trips), Lower(queryLocation)), ByCount), 5)
  }

  /** Filtering leaves nothing exactly when no element passes. */
  lemma FilterEmpty(all: seq<Tally<String>>, p: Tally<String> -> bool)
    ensures Filter(all, p) == [] <==> forall i :: 0 <= i < |all| ==> !p(all[i])
  {
    if Filter(all, p) != [] {
      assert p(Filter(all, p)[0]);
      var j :| 0 <= j < |all| && all[j] == Filter(all, p)[0];
    }
  }

  /** Every match belongs to the first tier that has any: the exact tier
      when some name equals the query, ignoring case. */
  lemma ExactTierFirst(all: seq<Tally<String>>, q: String)
    requires exists i :: 0 <= i < |all| && ExactMatch(q, all[i])
    ensures forall i :: 0 <= i < |TierMatches(all, q)| ==> ExactMatch(q, TierMatches(all, q)[i])
  {
    var i :| 0 <= i < |all| && ExactMatch(q, all[i]);
    assert ExactTier(q)(all[i]);
    FilterEmpty(all, ExactTier(q));
  }

  /** With no exact match, the partial tier when some name contains the
      query or is contained in it. */
  lemma PartialTierNext(all: seq<Tally<String>>, q: String)
    requires forall i :: 0 <= i < |all| ==> !ExactMatch(q, all[i])
    requires exists i :: 0 <= i < |all| && PartialMatch(q, all[i])
    ensures forall i :: 0 <= i < |TierMatches(all, q)| ==> PartialMatch(q, TierMatches(all, q)[i])
  {
    var i :| 0 <= i < |all| && PartialMatch(q, all[i]);
    assert PartialTier(q)(all[i]);
    FilterEmpty(all, ExactTier(q));
    FilterEmpty(all, PartialTier(q));
  }

  /** With neither, the word tier. */
  lemma WordTierLast(all: seq<Tally<String>>, q: String)
    requires forall i :: 0 <= i < |all| ==> !ExactMatch(q, all[i]) && !PartialMatch(q, all[i])
    ensures forall i :: 0 <= i < |TierMatches(all, q)| ==> WordMatch(q, TierMatches(all, q)[i])
  {
    FilterEmpty(all, ExactTier(q));
    FilterEmpty(all, PartialTier(q));
  }

  /** The resolver finds nothing exactly when no name is in any tier, and
      what it finds comes from the merged dict. */
  lemma TierMatchesEmpty(all: seq<Tally<String>>, q: String)
    ensures TierMatches(all, q) == [] <==>
      forall i :: 0 <= i < |all| ==> !ExactMatch(q, all[i]) && !PartialMatch(q, all[i]) && !WordMatch(q, all[i])
    ensures forall i :: 0 <= i < |TierMatches(all, q)| ==> TierMatches(all, q)[i] in all
  {
    FilterEmpty(all, ExactTier(q));
    FilterEmpty(all, PartialTier(q));
    FilterEmpty(all, WordTier(q));
  }

  /** Any tier of a true tally is a true tally. */
  lemma TierTrueTally(all: seq<Tally<String>>, q: String, s: seq<String>)
    requires TrueTally(all, s)
    ensures TrueTally(TierMatches(all, q), s)
  {
    TrueTallyFiltered(all, s, ExactTier(q));
    TrueTallyFiltered(all, s, PartialTier(q));
    TrueTallyFiltered(all, s, WordTier(q));
  }

  /** The resolver returns at most 5 distinct names of the data, each with
      its pickup count plus its dropoff count, in non-increasing count. */
  lemma FuzzyMatchesCorrect(trips: seq<Trip>, queryLocation: String)
    ensures |FuzzyMatches(trips, queryLocation)| <= 5
    ensures TrueTally(FuzzyMatches(trips, queryLocation), AllNames(trips))
    ensures SortedDesc(FuzzyMatches(trips, queryLocation), ByCount)
  {
    CombinedCountsCorrect(trips);
    TierTrueTally(CombinedCounts(trips), Lower(queryLocation), AllNames(trips));
    TopOfTally(TierMatches(CombinedCounts(trips), Lower(queryLocation)), AllNames(trips), 5);
  }

  /** Each resolved name carries its pickup count plus its dropoff count. */
  lemma FuzzyMatchCount(trips: seq<Trip>, queryLocation: String, i: nat)
    requires i < |FuzzyMatches(trips, queryLocation)|
    ensures var t := FuzzyMatches(trips, queryLocation)[i];
      t.count == Count(PickupNames(trips), t.key) + Count(DropoffNames(trips), t.key)
  {
    FuzzyMatchesCorrect(trips, queryLocation);
    CountAppend(PickupNames(trips), DropoffNames(trips), FuzzyMatches(trips, queryLocation)[i].key);
  }

  /** Matches of equal count keep the order in which they were found, and
      every match is in the first non-empty tier. */
  lemma FuzzyMatchesOrder(trips: seq<Trip>, queryLocation: String)
    ensures var m := TierMatches(CombinedCounts(trips), Lower(queryLocation));
      forall c :: WithRank(SortDesc(m, ByCount), ByCount, c) == WithRank(m, ByCount, c)
    ensures FuzzyMatches(trips, queryLocation) ==
      SortDesc(TierMatches(CombinedCounts(trips), Lower(queryLocation)), ByCount)[..|FuzzyMatches(trips, queryLocation)|]
  {
    SortDescCorrect(TierMatches(CombinedCounts(trips), Lower(queryLocation)), ByCount);
  }

  // ---- the answers ---------------------------------------------------------

  /** What a handler's reply reports: the values its text interpolates. */
  datatype Answer =
    | LocationReport(name: String, closestTo: Option<String>, stats: LocationStats, share: real, periodNote: bool)
    | LocationSuggestions(asked: String, suggestions: seq<Tally<String>>, tryAsking: String)
    | LocationNotFound(asked: String)
    | TimeReport(forGroupsOf: Option<nat>, busiestHours: seq<Tally<int>>, periods: seq<Tally<String>>)
    | GroupSizeReport(target: nat, largeTrips: nat, share: real, breakdown: seq<Tally<int>>, avgGroupSize: real)
    | TopLocationsReport(pickups: Option<seq<Tally<String>>>, dropoffs: Option<seq<Tally<String>>>, leader: Option<Tally<String>>)
    | DemographicsReport(ages: (nat, nat), spots: seq<Tally<String>>)
    | Overview(totalTrips: nat, avgGroupSize: real, peakHour: int, largeGroupsCount: nat, largeGroupsPct: real,
               topPickup: Tally<String>, topDropoff: Tally<String>, mostCommonSize: Tally<int>)
    | Fallback

  // ---- _handle_location_stats ----------------------------------------------

  /** The words whose presence adds the note that the data covers the whole
      dataset. */
  const PeriodWords: seq<String> := ["last", "this", "month", "week", "yesterday", "today"]

  /** The report on a location with non-zero stats; the share divides by the
      total trip count, which fails on an empty store. */
  function LocationReportOf(ins: Insights, name: String, closestTo: Option<String>, st: LocationStats,
                            originalQuery: String): Option<Answer>
  {
    if ins.totalTrips == 0 then None
    else
      var share := (st.pickupCount + st.dropoffCount) as real / ins.totalTrips as real * 100.0;
      Some(LocationReport(name, closestTo, st, share, AnyKeyword(originalQuery, PeriodWords)))
  }

  /** `_handle_location_stats`: the direct stats when any trip matches, the
      best fuzzy match's stats when that one matches, suggestions when it
      does not, and not found when the resolver finds nothing. */
  function LocationAnswerOf(trips: seq<Trip>, ins: Insights, location: String, originalQuery: String): Option<Answer> {
    var direct := LocationStatsOf(trips, location, "both");
    if direct.pickupCount == 0 && direct.dropoffCount == 0 then
      var matches := FuzzyMatches(trips, location);
      if matches == [] then Some(LocationNotFound(location))
      else
        var best := matches[0].key;
        var st := LocationStatsOf(trips, best, "both");
        if st.pickupCount > 0 || st.dropoffCount > 0 then LocationReportOf(ins, best, Some(location), st, originalQuery)
        else Some(LocationSuggestions(location, Take(matches, 3), best))
    else LocationReportOf(ins, Title(location), None, direct, originalQuery)
  }

  /** A name that occurs in the data matches itself, so its stats are never
      both zero. */
  lemma OwnNameMatches(trips: seq<Trip>, name: String)
    requires name in AllNames(trips)
    ensures var st := LocationStatsOf(trips, name, "both"); st.pickupCount > 0 || st.dropoffCount > 0
  {
    LocationStatsCounts(trips, name, "both");
    OwnNameCounts(trips, name);
  }

  /** Some trip's pickup or dropoff name contains a name of the data. */
  lemma OwnNameCounts(trips: seq<Trip>, name: String)
    requires name in AllNames(trips)
    ensures CountWhere(trips, PickupMatches(name)) > 0 || CountWhere(trips, DropoffMatches(name)) > 0
  {
    ContainsSelf(Lower(name));
    if name in PickupNames(trips) {
      var i :| 0 <= i < |PickupNames(trips)| && PickupNames(trips)[i] == name;
      assert trips[i].pickupMain == name;
      assert PickupMatches(name)(trips[i]);
      CountWherePositive(trips, PickupMatches(name), i);
    } else {
      var i :| 0 <= i < |DropoffNames(trips)| && DropoffNames(trips)[i] == name;
      assert trips[i].dropoffMain == name;
      assert DropoffMatches(name)(trips[i]);
      CountWherePositive(trips, DropoffMatches(name), i);
    }
  }

  /** The three ways a location question is answered: a direct hit, no
      match at all, and the resolver's best match. */
  lemma LocationDirectCase(trips: seq<Trip>, ins: Insights, location: String, originalQuery: String)
    requires var d := LocationStatsOf(trips, location, "both"); d.pickupCount > 0 || d.dropoffCount > 0
    ensures LocationAnswerOf(trips, ins, location, originalQuery) ==
      LocationReportOf(ins, Title(location), None, LocationStatsOf(trips, location, "both"), originalQuery)
  {
  }

  lemma LocationNoMatchCase(trips: seq<Trip>, ins: Insights, location: String, originalQuery: String)
    requires var d := LocationStatsOf(trips, location, "both"); d.pickupCount == 0 && d.dropoffCount == 0
    requires FuzzyMatches(trips, location) == []
    ensures LocationAnswerOf(trips, ins, location, originalQuery) == Some(LocationNotFound(location))
  {
  }

  lemma LocationClosestCase(trips: seq<Trip>, ins: Insights, location: String, originalQuery: String)
    requires var d := LocationStatsOf(trips, location, "both"); d.pickupCount == 0 && d.dropoffCount == 0
    requires FuzzyMatches(trips, location) != []
    ensures var best := FuzzyMatches(trips, location)[0].key;
      var st := LocationStatsOf(trips, best, "both");
      && (st.pickupCount > 0 || st.dropoffCount > 0)
      && LocationAnswerOf(trips, ins, location, originalQuery) == LocationReportOf(ins, best, Some(location), st, originalQuery)
  {
    BestMatchHasTrips(trips, location);
  }

  lemma BestMatchHasTrips(trips: seq<Trip>, location: String)
    requires FuzzyMatches(trips, location) != []
    ensures var st := LocationStatsOf(trips, FuzzyMatches(trips, location)[0].key, "both");
      st.pickupCount > 0 || st.dropoffCount > 0
  {
    FuzzyMatchesCorrect(trips, location);
    OwnNameMatches(trips, FuzzyMatches(trips, location)[0].key);
  }

  /** The suggestion branch is unreachable: the best fuzzy match is a name of
      the data, and its own stats are never both zero. */
  lemma LocationNeverSuggests(trips: seq<Trip>, ins: Insights, location: String, originalQuery: String)
    ensures var r := LocationAnswerOf(trips, ins, location, originalQuery); !(r.Some? && r.value.LocationSuggestions?)
  {
    var direct := LocationStatsOf(trips, location, "both");
    if direct.pickupCount > 0 || direct.dropoffCount > 0 {
      LocationDirectCase(trips, ins, location, originalQuery);
    } else if FuzzyMatches(trips, location) == [] {
      LocationNoMatchCase(trips, ins, location, originalQuery);
    } else {
      LocationClosestCase(trips, ins, location, originalQuery);
    }
  }

  /** Not found exactly when the direct stats are both zero and the
      resolver finds nothing. */
  lemma NotFoundWhenNoHit(trips: seq<Trip>, ins: Insights, location: String, originalQuery: String)
    ensures var direct := LocationStatsOf(trips, location, "both");
      (LocationAnswerOf(trips, ins, location, originalQuery) == Some(LocationNotFound(location))) <==>
        direct.pickupCount == 0 && direct.dropoffCount == 0 && FuzzyMatches(trips, location) == []
  {
    var direct := LocationStatsOf(trips, location, "both");
    if direct.pickupCount > 0 || direct.dropoffCount > 0 {
      LocationDirectCase(trips, ins, location, originalQuery);
    } else if FuzzyMatches(trips, location) != [] {
      LocationClosestCase(trips, ins, location, originalQuery);
    }
  }

  /** Not found exactly when no trip's pickup or dropoff name contains the
      location, ignoring case, and the resolver finds nothing. */
  lemma LocationNotFoundExactly(trips: seq<Trip>, ins: Insights, location: String, originalQuery: String)
    ensures var r := LocationAnswerOf(trips, ins, location, originalQuery);
      (r == Some(LocationNotFound(location))) <==>
        && CountWhere(trips, PickupMatches(location)) == 0
        && CountWhere(trips, DropoffMatches(location)) == 0
        && FuzzyMatches(trips, location) == []
  {
    LocationStatsCounts(trips, location, "both");
    NotFoundWhenNoHit(trips, ins, location, originalQuery);
  }

  /** What a report holds: the stats of the name it reports, never both zero;
      the share of all trips, in percent; the note exactly when the question
      names a period. */
  lemma LocationReportContents(ins: Insights, name: String, closestTo: Option<String>, st: LocationStats, originalQuery: String)
    requires ins.totalTrips > 0
    ensures var r := LocationReportOf(ins, name, closestTo, st, originalQuery);
      && r.Some? && r.value.LocationReport?
      && r.value.name == name && r.value.closestTo == closestTo && r.value.stats == st
      && r.value.share == (st.pickupCount + st.dropoffCount) as real / ins.totalTrips as real * 100.0
      && (r.value.periodNote <==> exists w :: w in PeriodWords && Contains(originalQuery, w))
  {
  }

  /** Every location answer is a report or not found. A direct hit reports
      the location in title case with its own stats; a fuzzy hit reports the
      resolver's best name with that name's stats, noting the location asked
      about. Either way the stats are not both zero. */
  lemma LocationReportShape(trips: seq<Trip>, ins: Insights, location: String, originalQuery: String)
    requires ins.totalTrips > 0
    ensures var r := LocationAnswerOf(trips, ins, location, originalQuery);
      r.Some? && (r.value.LocationReport? || r.value.LocationNotFound?)
    ensures var r := LocationAnswerOf(trips, ins, location, originalQuery);
      r.Some? && r.value.LocationReport? ==>
        r.value.stats.pickupCount > 0 || r.value.stats.dropoffCount > 0
    ensures var r := LocationAnswerOf(trips, ins, location, originalQuery);
      r.Some? && r.value.LocationReport? && r.value.closestTo.None? ==>
        r.value.name == Title(location) && r.value.stats == LocationStatsOf(trips, location, "both")
    ensures var r := LocationAnswerOf(trips, ins, location, originalQuery);
      r.Some? && r.value.LocationReport? && r.value.closestTo.Some? ==>
        && r.value.closestTo == Some(location)
        && FuzzyMatches(trips, location) != []
        && r.value.name == FuzzyMatches(trips, location)[0].key
        && r.value.stats == LocationStatsOf(trips, r.value.name, "both")
  {
    var direct := LocationStatsOf(trips, location, "both");
    if direct.pickupCount > 0 || direct.dropoffCount > 0 {
      LocationDirectCase(trips, ins, location, originalQuery);
      LocationReportContents(ins, Title(location), None, direct, originalQuery);
    } else if FuzzyMatches(trips, location) == [] {
      LocationNoMatchCase(trips, ins, location, originalQuery);
    } else {
      LocationClosestCase(trips, ins, location, originalQuery);
      var best := FuzzyMatches(trips, location)[0].key;
      LocationReportContents(ins, best, Some(location), LocationStatsOf(trips, best, "both"), originalQuery);
    }
  }

  // ---- _handle_time_patterns -----------------------------------------------

  /** The threshold handed to `get_time_patterns`. */
  function GroupFilter(minGroupSize: Option<nat>): Option<int> {
    match minGroupSize
    case None => None
    case Some(n) => Some(n)
  }

  /** `_handle_time_patterns`: the five busiest hours and every time period,
      both by count; taking the peak of an empty selection fails. */
  function TimeAnswerOf(trips: seq<Trip>, minGroupSize: Option<nat>): Option<Answer> {
    TimeAnswerFrom(TimePatternsOf(trips, GroupFilter(minGroupSize)), minGroupSize)
  }

  /** The same, from the patterns `get_time_patterns` returned. */
  function TimeAnswerFrom(tp: TimePatterns, minGroupSize: Option<nat>): Option<Answer> {
    var top := Take(SortDesc(tp.hourlyCounts, ByCount), 5);
    if top == [] then None
    else
      var shown := if minGroupSize.Some? && minGroupSize.value != 0 then minGroupSize else None;
      Some(TimeReport(shown, top, SortDesc(tp.timeCategoryCounts, ByCount)))
  }

  /** The facts about the hourly counts that the handler relies on. */
  ghost predicate HourlyOf(hourly: seq<Tally<int>>, hours: seq<int>) {
    && TrueTally(hourly, hours)
    && CoversValues(hourly, hours)
    && forall i, j :: 0 <= i < j < |hourly| ==> hourly[i].key < hourly[j].key
  }

  lemma HourlyOfPatterns(trips: seq<Trip>, minGroupSize: Option<nat>)
    ensures HourlyOf(TimePatternsOf(trips, GroupFilter(minGroupSize)).hourlyCounts,
                     Hours(PatternData(trips, GroupFilter(minGroupSize))))
  {
    TimePatternsHourly(trips, GroupFilter(minGroupSize));
  }

  lemma {:induction false} TimeFromFails(tp: TimePatterns, minGroupSize: Option<nat>, hours: seq<int>)
    requires HourlyOf(tp.hourlyCounts, hours)
    ensures TimeAnswerFrom(tp, minGroupSize).None? <==> hours == []
  {
    if hours != [] {
      assert hours[0] in Keys(tp.hourlyCounts);
    }
  }

  lemma TimeFromHours(tp: TimePatterns, minGroupSize: Option<nat>, hours: seq<int>)
    requires HourlyOf(tp.hourlyCounts, hours)
    requires TimeAnswerFrom(tp, minGroupSize).Some?
    ensures var a := TimeAnswerFrom(tp, minGroupSize).value;
      && a.TimeReport?
      && |a.busiestHours| <= 5
      && TrueTally(a.busiestHours, hours)
      && SortedDesc(a.busiestHours, ByCount)
      && TiesAscending(a.busiestHours)
  {
    var hourly := tp.hourlyCounts;
    var sorted := SortDesc(hourly, ByCount);
    TopOfTally(hourly, hours, 5);
    SortDescTiesAscending(hourly);
    assert forall i :: 0 <= i < |Take(sorted, 5)| ==> Take(sorted, 5)[i] == sorted[i];
  }

  lemma TimeFromPeak(tp: TimePatterns, minGroupSize: Option<nat>, hours: seq<int>)
    requires HourlyOf(tp.hourlyCounts, hours)
    requires TimeAnswerFrom(tp, minGroupSize).Some?
    ensures var a := TimeAnswerFrom(tp, minGroupSize).value;
      a.TimeReport? && a.busiestHours != [] && forall h :: Count(hours, h) <= a.busiestHours[0].count
  {
    SortedTallyPeak(tp.hourlyCounts, hours);
  }

  /** The time handler fails exactly when no trip passes the group filter. */
  lemma TimeAnswerFails(trips: seq<Trip>, minGroupSize: Option<nat>)
    ensures TimeAnswerOf(trips, minGroupSize).None? <==> PatternData(trips, GroupFilter(minGroupSize)) == []
  {
    HourlyOfPatterns(trips, minGroupSize);
    TimeFromFails(TimePatternsOf(trips, GroupFilter(minGroupSize)), minGroupSize, Hours(PatternData(trips, GroupFilter(minGroupSize))));
  }

  /** The busiest hours: at most five, each with its true count among the
      selected trips, in non-increasing count and ascending hour among equal
      counts; the first, the reported peak, is at least as busy as any hour.
      The group size is shown exactly when it filters. */
  lemma TimeAnswerHours(trips: seq<Trip>, minGroupSize: Option<nat>)
    requires TimeAnswerOf(trips, minGroupSize).Some?
    ensures var a := TimeAnswerOf(trips, minGroupSize).value; var data := PatternData(trips, GroupFilter(minGroupSize));
      && a.TimeReport?
      && |a.busiestHours| <= 5
      && TrueTally(a.busiestHours, Hours(data))
      && SortedDesc(a.busiestHours, ByCount)
      && TiesAscending(a.busiestHours)
    ensures var a := TimeAnswerOf(trips, minGroupSize).value; var data := PatternData(trips, GroupFilter(minGroupSize));
      a.busiestHours != [] && forall h :: Count(Hours(data), h) <= a.busiestHours[0].count
    ensures var a := TimeAnswerOf(trips, minGroupSize).value;
      a.forGroupsOf.Some? <==> minGroupSize.Some? && minGroupSize.value != 0
  {
    HourlyOfPatterns(trips, minGroupSize);
    TimeFromHours(TimePatternsOf(trips, GroupFilter(minGroupSize)), minGroupSize, Hours(PatternData(trips, GroupFilter(minGroupSize))));
    TimeFromPeak(TimePatternsOf(trips, GroupFilter(minGroupSize)), minGroupSize, Hours(PatternData(trips, GroupFilter(minGroupSize))));
  }

  /** Every time period among the selected trips, once, with its true count,
      in non-increasing count. */
  lemma TimeAnswerPeriods(trips: seq<Trip>, minGroupSize: Option<nat>)
    requires TimeAnswerOf(trips, minGroupSize).Some?
    ensures var a := TimeAnswerOf(trips, minGroupSize).value; var data := PatternData(trips, GroupFilter(minGroupSize));
      && a.TimeReport?
      && TrueTally(a.periods, TimeCategoryColumn(data))
      && CoversValues(a.periods, TimeCategoryColumn(data))
      && SortedDesc(a.periods, ByCount)
  {
    var g := GroupFilter(minGroupSize);
    var data := PatternData(trips, g);
    var cats := TimePatternsOf(trips, g).timeCategoryCounts;
    var sorted := SortDesc(cats, ByCount);
    ValueCountsCorrect(TimeCategoryColumn(data));
    TallyPermutation(sorted, cats, TimeCategoryColumn(data));
    SortDescCorrect(cats, ByCount);
  }

  // ---- _handle_group_size --------------------------------------------------

  /** The threshold used when the question names no size. */
  const DefaultTargetSize: nat := 6

  function SizeAtLeast(target: int): Tally<int> -> bool { (t: Tally<int>) => t.key >= target }

  /** `_handle_group_size`: the trips of at least `target` passengers, their
      share, and the eight commonest such sizes. */
  function GroupAnswerOf(ins: Insights, target: nat): Option<Answer> {
    if ins.totalTrips == 0 then None
    else
      var dist := ins.groupSizeDistribution;
      var large := SumWhere(dist, AtLeast(target));
      var breakdown := Take(SortDesc(Filter(dist, SizeAtLeast(target)), ByCount), 8);
      Some(GroupSizeReport(target, large, large as real / ins.totalTrips as real * 100.0, breakdown, ins.avgGroupSize))
  }

  /** The large-trip count is the number of trips with at least `target`
      passengers, which for the default threshold is the cached large-group
      count; the share is its percentage of all trips. */
  lemma GroupAnswerCount(trips: seq<Trip>, target: nat)
    requires |trips| > 0
    ensures var a := GroupAnswerOf(InsightsOf(trips), target);
      && a.Some? && a.value.GroupSizeReport?
      && a.value.largeTrips == CountWhere(Passengers(trips), AtLeast(target))
      && a.value.share == a.value.largeTrips as real / |trips| as real * 100.0
    ensures target == DefaultTargetSize ==>
      GroupAnswerOf(InsightsOf(trips), target).value.largeTrips == InsightsOf(trips).largeGroupsCount
  {
    SortedIndexSum(Passengers(trips), AtLeast(target));
    InsightsTotals(trips);
  }

  /** The breakdown: at most eight sizes, all at least `target`, each with
      its true number of trips, in non-increasing count and ascending size
      among equal counts. */
  lemma GroupAnswerBreakdown(trips: seq<Trip>, target: nat)
    requires |trips| > 0
    ensures var a := GroupAnswerOf(InsightsOf(trips), target);
      && a.Some? && a.value.GroupSizeReport?
      && |a.value.breakdown| <= 8
      && TrueTally(a.value.breakdown, Passengers(trips))
      && SortedDesc(a.value.breakdown, ByCount)
      && TiesAscending(a.value.breakdown)
      && forall i :: 0 <= i < |a.value.breakdown| ==> a.value.breakdown[i].key >= target
  {
    InsightsDistributions(trips);
    InsightsDistributionsAscending(trips);
    InsightsTotals(trips);
    BreakdownOf(InsightsOf(trips), target, Passengers(trips));
  }

  lemma BreakdownOf(ins: Insights, target: nat, sizes: seq<int>)
    requires ins.totalTrips > 0
    requires TrueTally(ins.groupSizeDistribution, sizes)
    requires forall i, j :: 0 <= i < j < |ins.groupSizeDistribution| ==>
      ins.groupSizeDistribution[i].key < ins.groupSizeDistribution[j].key
    ensures var a := GroupAnswerOf(ins, target);
      && a.Some? && a.value.GroupSizeReport?
      && |a.value.breakdown| <= 8
      && TrueTally(a.value.breakdown, sizes)
      && SortedDesc(a.value.breakdown, ByCount)
    ensures var a := GroupAnswerOf(ins, target);
      && a.Some? && a.value.GroupSizeReport?
      && TiesAscending(a.value.breakdown)
      && forall i :: 0 <= i < |a.value.breakdown| ==> a.value.breakdown[i].key >= target
  {
    var dist := ins.groupSizeDistribution;
    var f := Filter(dist, SizeAtLeast(target));
    TrueTallyFiltered(dist, sizes, SizeAtLeast(target));
    TopOfTally(f, sizes, 8);
    FilterAscending(dist, SizeAtLeast(target));
    SortDescTiesAscending(f);
    TiesTaken(SortDesc(f, ByCount), 8);
    TopOfFilterPasses(dist, SizeAtLeast(target), ByCount, 8);
  }

  // ---- _handle_top_locations -----------------------------------------------

  /** `_handle_top_locations`: up to eight names per side the location type
      asks for, and the leading pickup when pickups are asked for. */
  function TopAnswerOf(ins: Insights, locationType: String): Option<Answer> {
    var pickups := IncludesPickup(locationType);
    if pickups && ins.topPickups == [] then None
    else
      Some(TopLocationsReport(
        if pickups then Some(Take(ins.topPickups, 8)) else None,
        if IncludesDropoff(locationType) then Some(Take(ins.topDropoffs, 8)) else None,
        if pickups then Some(ins.topPickups[0]) else None))
  }

  /** A side is listed exactly when the location type asks for it; each list
      holds at most eight names with their true counts, in non-increasing
      count; the leader is a pickup name no other name outnumbers. */
  lemma TopAnswerCorrect(trips: seq<Trip>, locationType: String)
    requires |trips| > 0
    ensures var a := TopAnswerOf(InsightsOf(trips), locationType);
      && a.Some? && a.value.TopLocationsReport?
      && (a.value.pickups.Some? <==> IncludesPickup(locationType))
      && (a.value.dropoffs.Some? <==> IncludesDropoff(locationType))
      && (a.value.leader.Some? <==> IncludesPickup(locationType))
    ensures var a := TopAnswerOf(InsightsOf(trips), locationType).value;
      a.pickups.Some? ==>
        |a.pickups.value| <= 8 && TrueTally(a.pickups.value, PickupNames(trips)) && SortedDesc(a.pickups.value, ByCount)
    ensures var a := TopAnswerOf(InsightsOf(trips), locationType).value;
      a.dropoffs.Some? ==>
        |a.dropoffs.value| <= 8 && TrueTally(a.dropoffs.value, DropoffNames(trips)) && SortedDesc(a.dropoffs.value, ByCount)
    ensures var a := TopAnswerOf(InsightsOf(trips), locationType).value;
      a.leader.Some? ==>
        && a.leader.value.key in PickupNames(trips)
        && a.leader.value.count == Count(PickupNames(trips), a.leader.value.key)
        && forall x :: Count(PickupNames(trips), x) <= a.leader.value.count
  {
    var ins := InsightsOf(trips);
    InsightsTopLists(trips);
    TopNonEmpty(trips);
    TrueTallyTaken(ins.topPickups, PickupNames(trips), 8);
    TrueTallyTaken(ins.topDropoffs, DropoffNames(trips), 8);
    TakeSorted(ins.topPickups, 8);
    TakeSorted(ins.topDropoffs, 8);
  }

  /** How a top-locations question's wording picks the sides: pickups, and
      their leader, unless the question says "drop" without "pickup" or
      "pick up"; dropoffs unless it says "pickup" or "pick up". */
  lemma TopQuestionSides(trips: seq<Trip>, tables: QueryTables, userQuery: String)
    requires |trips| > 0
    requires Classify(tables, Strip(Lower(userQuery))).0 == TopLocationsQuery
    ensures var query := Strip(Lower(userQuery));
      var a := Respond(trips, InsightsOf(trips), tables, userQuery);
      var pickupWord := Contains(query, "pickup") || Contains(query, "pick up");
      && a.Some? && a.value.TopLocationsReport?
      && (a.value.pickups.Some? <==> pickupWord || !Contains(query, "drop"))
      && (a.value.leader.Some? <==> pickupWord || !Contains(query, "drop"))
      && (a.value.dropoffs.Some? <==> !pickupWord)
  {
    var query := Strip(Lower(userQuery));
    ClassifyTopLocations(tables, query);
    TopAnswerCorrect(trips, LocationTypeOf(query));
  }

  /** A non-empty store has a first pickup and a first dropoff, and each is
      the most frequent name of its side. */
  lemma TopNonEmpty(trips: seq<Trip>)
    requires |trips| > 0
    ensures InsightsOf(trips).topPickups != [] && InsightsOf(trips).topDropoffs != []
    ensures forall x :: Count(PickupNames(trips), x) <= InsightsOf(trips).topPickups[0].count
    ensures forall x :: Count(DropoffNames(trips), x) <= InsightsOf(trips).topDropoffs[0].count
  {
    var p := PickupNames(trips);
    var d := DropoffNames(trips);
    ValueCountsCorrect(p);
    ValueCountsCorrect(d);
    MaxCountCorrect(p);
    MaxCountCorrect(d);
    assert p[0] in p && p[0] in Keys(ValueCounts(p));
    assert d[0] in d && d[0] in Keys(ValueCounts(d));
  }

  // ---- _handle_demographics ------------------------------------------------

  /** The age range used when the question names none. */
  const DefaultAges: (nat, nat) := (18, 24)

  /** The venues the demographics reply looks for among the top dropoffs. */
  const EntertainmentSpots: seq<String> :=
    ["The Aquarium on 6th", "Wiggle Room", "Shakespeare's", "LUNA Rooftop", "Green Light Social"]

  /** The first top dropoff whose name contains `spot`, ignoring case. */
  function FirstContaining(top: seq<Tally<String>>, spot: String): (r: Option<nat>)
    ensures r.Some? ==> r.value < |top| && ContainsIgnoreCase(top[r.value].key, spot)
    ensures r.Some? ==> forall j :: 0 <= j < r.value ==> !ContainsIgnoreCase(top[j].key, spot)
    ensures r.None? ==> forall j :: 0 <= j < |top| ==> !ContainsIgnoreCase(top[j].key, spot)
  {
    if top == [] then None
    else if ContainsIgnoreCase(top[0].key, spot) then Some(0)
    else match FirstContaining(top[1..], spot)
      case Some(k) => Some(k + 1)
      case None => None
  }

  /** The entries listed for the spots, spot by spot. */
  function SpotsFound(top: seq<Tally<String>>, spots: seq<String>): (r: seq<Tally<String>>)
    ensures |r| <= |spots|
    ensures forall i :: 0 <= i < |r| ==> r[i] in top
    decreases |spots|
  {
    if spots == [] then []
    else
      var rest := SpotsFound(top, spots[..|spots| - 1]);
      match FirstContaining(top, spots[|spots| - 1])
      case Some(k) => rest + [top[k]]
      case None => rest
  }

  /** `_handle_demographics` */
  function DemographicsAnswerOf(ins: Insights, ages: (nat, nat)): Answer {
    DemographicsReport(ages, SpotsFound(ins.topDropoffs, EntertainmentSpots))
  }

  // ---- _handle_general_stats -----------------------------------------------

  /** `max(d.items(), key=count)`: the position of the first entry of
      highest count. */
  function MostCommon(t: seq<Tally<int>>): (k: nat)
    requires t != []
    ensures k < |t|
    ensures forall i :: 0 <= i < |t| ==> t[i].count <= t[k].count
    ensures forall i :: 0 <= i < k ==> t[i].count < t[k].count
  {
    if |t| == 1 then 0
    else
      var k := MostCommon(t[1..]);
      if t[0].count >= t[k + 1].count then 0 else k + 1
  }

  /** `_handle_general_stats`: the cached insights, with the first pickup,
      the first dropoff and the commonest group size; each of the three
      fails on an empty list. */
  function OverviewOf(ins: Insights): Option<Answer> {
    if ins.topPickups == [] || ins.topDropoffs == [] || ins.groupSizeDistribution == [] then None
    else
      Some(Overview(ins.totalTrips, ins.avgGroupSize, ins.peakHour, ins.largeGroupsCount, ins.largeGroupsPct,
                    ins.topPickups[0], ins.topDropoffs[0], ins.groupSizeDistribution[MostCommon(ins.groupSizeDistribution)]))
  }

  /** The commonest group size is the smallest size of highest count, with
      its true count; the two hotspots are the most frequent names of their
      sides. */
  lemma OverviewCorrect(trips: seq<Trip>)
    requires |trips| > 0
    ensures var a := OverviewOf(InsightsOf(trips)); a.Some? && a.value.Overview?
    ensures var m := OverviewOf(InsightsOf(trips)).value.mostCommonSize; var sizes := Passengers(trips);
      && m.key in sizes && m.count == Count(sizes, m.key)
      && (forall x :: Count(sizes, x) <= m.count)
      && (forall x :: Count(sizes, x) == m.count ==> m.key <= x)
    ensures var a := OverviewOf(InsightsOf(trips)).value;
      && (forall x :: Count(PickupNames(trips), x) <= a.topPickup.count)
      && (forall x :: Count(DropoffNames(trips), x) <= a.topDropoff.count)
  {
    TopNonEmpty(trips);
    InsightsDistributions(trips);
    InsightsDistributionsAscending(trips);
    MostCommonSize(InsightsOf(trips).groupSizeDistribution, Passengers(trips));
  }

  lemma MostCommonSize(dist: seq<Tally<int>>, sizes: seq<int>)
    requires sizes != []
    requires TrueTally(dist, sizes) && CoversValues(dist, sizes)
    requires forall i, j :: 0 <= i < j < |dist| ==> dist[i].key < dist[j].key
    ensures dist != []
    ensures var m := dist[MostCommon(dist)];
      && m.key in sizes && m.count == Count(sizes, m.key)
      && (forall x :: Count(sizes, x) <= m.count)
      && (forall x :: Count(sizes, x) == m.count ==> m.key <= x)
  {
    assert sizes[0] in Keys(dist);
    var k := MostCommon(dist);
    forall x ensures Count(sizes, x) <= dist[k].count && (Count(sizes, x) == dist[k].count ==> dist[k].key <= x) {
      if x in sizes {
        assert x in Keys(dist);
        var j :| 0 <= j < |dist| && Keys(dist)[j] == x;
        if j < k {
          assert dist[j].count < dist[k].count;
        }
      }
    }
  }

  // ---- _generate_response --------------------------------------------------

  /** `_generate_response`: the handler for the question type, with the
      handlers' defaults for absent parameters; `None` is an exception. */
  function AnswerOf(trips: seq<Trip>, ins: Insights, queryType: QueryType, params: Params, originalQuery: String): Option<Answer> {
    match queryType
    case LocationStatsQuery =>
      LocationAnswerOf(trips, ins, if params.location.Some? then params.location.value else "", originalQuery)
    case TimePatternsQuery => TimeAnswerOf(trips, params.minGroupSize)
    case GroupSizeQuery =>
      GroupAnswerOf(ins, if params.groupSize.Some? then params.groupSize.value else DefaultTargetSize)
    case TopLocationsQuery =>
      TopAnswerOf(ins, if params.locationType.Some? then params.locationType.value else "both")
    case DemographicsQuery =>
      Some(DemographicsAnswerOf(ins, if params.ageRange.Some? then params.ageRange.value else DefaultAges))
    case GeneralStatsQuery => OverviewOf(ins)
    case Unrecognized => Some(Fallback)
  }

  /** `process_query` up to the log: the question lower-cased and trimmed,
      then answered. */
  function Respond(trips: seq<Trip>, ins: Insights, tables: QueryTables, userQuery: String): Option<Answer> {
    AnswerTo(trips, ins, tables, Strip(Lower(userQuery)))
  }

  /** The normalised question classified and answered. */
  function AnswerTo(trips: seq<Trip>, ins: Insights, tables: QueryTables, query: String): Option<Answer> {
    var c := Classify(tables, query);
    AnswerOf(trips, ins, c.0, c.1, query)
  }

  /** Over a non-empty store, the only handler that fails is the time
      handler, and it fails exactly when no trip passes its group filter. */
  lemma AnswerFailsOnlyForEmptyTimeData(trips: seq<Trip>, queryType: QueryType, params: Params, originalQuery: String)
    requires |trips| > 0
    ensures AnswerOf(trips, InsightsOf(trips), queryType, params, originalQuery).None? <==>
      queryType == TimePatternsQuery && PatternData(trips, GroupFilter(params.minGroupSize)) == []
  {
    var ins := InsightsOf(trips);
    match queryType {
      case LocationStatsQuery =>
        InsightsTotals(trips);
        LocationReportShape(trips, ins, if params.location.Some? then params.location.value else "", originalQuery);
      case TimePatternsQuery =>
        TimeAnswerFails(trips, params.minGroupSize);
      case GroupSizeQuery =>
        InsightsTotals(trips);
      case TopLocationsQuery =>
        TopNonEmpty(trips);
      case DemographicsQuery =>
      case GeneralStatsQuery =>
        OverviewCorrect(trips);
      case Unrecognized =>
    }
  }

  /** Only the unrecognised type is answered with the fallback. */
  lemma AnswerOfNeverFallsBack(trips: seq<Trip>, ins: Insights, queryType: QueryType, params: Params, originalQuery: String)
    requires queryType != Unrecognized
    ensures AnswerOf(trips, ins, queryType, params, originalQuery) != Some(Fallback)
  {
    if queryType == LocationStatsQuery {
      LocationReportAnswer(trips, ins, if params.location.Some? then params.location.value else "", originalQuery);
    }
  }

  /** The fallback reply is never produced from a question: classification
      always yields one of the six types. */
  lemma RespondNeverFallsBack(trips: seq<Trip>, ins: Insights, tables: QueryTables, userQuery: String)
    ensures Respond(trips, ins, tables, userQuery) != Some(Fallback)
  {
    var query := Strip(Lower(userQuery));
    ClassifyCategories(tables, query);
    var c := Classify(tables, query);
    AnswerOfNeverFallsBack(trips, ins, c.0, c.1, query);
  }

  /** A location question never produces the fallback. */
  lemma LocationReportAnswer(trips: seq<Trip>, ins: Insights, location: String, originalQuery: String)
    ensures LocationAnswerOf(trips, ins, location, originalQuery) != Some(Fallback)
  {
    var direct := LocationStatsOf(trips, location, "both");
    if direct.pickupCount > 0 || direct.dropoffCount > 0 {
      LocationDirectCase(trips, ins, location, originalQuery);
    } else if FuzzyMatches(trips, location) == [] {
      LocationNoMatchCase(trips, ins, location, originalQuery);
    } else {
      LocationClosestCase(trips, ins, location, originalQuery);
    }
  }

  // ---- demographics: properties and the loop ------------------------------

  /** Whether some top dropoff names the spot. */
  function Listed(top: seq<Tally<String>>): String -> bool {
    spot => FirstContaining(top, spot).Some?
  }

  /** One entry per spot that some top dropoff names, and none for the rest. */
  lemma {:induction false} SpotsFoundCount(top: seq<Tally<String>>, spots: seq<String>)
    ensures |SpotsFound(top, spots)| == CountWhere(spots, Listed(top))
    decreases |spots|
  {
    if spots != [] {
      var init := spots[..|spots| - 1];
      SpotsFoundCount(top, init);
      assert spots == init + [spots[|spots| - 1]];
      CountWhereAppend(init, [spots[|spots| - 1]], Listed(top));
    }
  }

  /** Every spot some top dropoff names has its first such dropoff listed. */
  lemma {:induction false} SpotsFoundLists(top: seq<Tally<String>>, spots: seq<String>, j: nat, k: nat)
    requires j < |spots| && FirstContaining(top, spots[j]) == Some(k)
    ensures top[k] in SpotsFound(top, spots)
    decreases |spots|
  {
    var init := spots[..|spots| - 1];
    if j < |spots| - 1 {
      assert init[j] == spots[j];
      SpotsFoundLists(top, init, j, k);
    }
  }

  /** The demographics reply keeps the asked ages and lists top dropoffs that
      name entertainment spots, one per spot that is named. */
  lemma DemographicsAnswerSpots(ins: Insights, ages: (nat, nat))
    ensures var a := DemographicsAnswerOf(ins, ages);
      && a.DemographicsReport? && a.ages == ages
      && |a.spots| == CountWhere(EntertainmentSpots, Listed(ins.topDropoffs))
      && (forall i :: 0 <= i < |a.spots| ==> a.spots[i] in ins.topDropoffs)
  {
    SpotsFoundCount(ins.topDropoffs, EntertainmentSpots);
  }

  /** The loop of `_handle_demographics`: for each spot, the first top
      dropoff that names it. */
  method PopularSpots(top: seq<Tally<String>>, spots: seq<String>) returns (found: seq<Tally<String>>)
    ensures found == SpotsFound(top, spots)
  {
    found := [];
    for i := 0 to |spots|
      invariant found == SpotsFound(top, spots[..i])
    {
      var j := 0;
      while j < |top| && !ContainsIgnoreCase(top[j].key, spots[i])
        invariant j <= |top|
        invariant forall k :: 0 <= k < j ==> !ContainsIgnoreCase(top[k].key, spots[i])
      {
        j := j + 1;
      }
      assert spots[..i + 1][..i] == spots[..i];
      if j < |top| {
        found := found + [top[j]];
      }
    }
    assert spots[..|spots|] == spots;
  }

  // ---- the loops of _fuzzy_search_location ---------------------------------

  /** `all_locations[location] = all_locations.get(location, 0) + count`
      over every tally of `ts`. */
  method MergeCounts(start: seq<Tally<String>>, ts: seq<Tally<String>>) returns (d: seq<Tally<String>>)
    ensures d == AddCounts(start, ts)
  {
    d := start;
    for i := 0 to |ts|
      invariant AddCounts(d, ts[i..]) == AddCounts(start, ts)
    {
      assert ts[i..][1..] == ts[i + 1..];
      d := AddCount(d, ts[i]);
    }
  }

  /** One tier's scan: every tally passing `test`, in dictionary order. */
  method CollectMatches(all: seq<Tally<String>>, test: Tally<String> -> bool) returns (matches: seq<Tally<String>>)
    ensures matches == Filter(all, test)
  {
    matches := [];
    for i := 0 to |all|
      invariant matches == Filter(all[..i], test)
    {
      FilterSnoc(all, i, test);
      if test(all[i]) {
        matches := matches + [all[i]];
      }
    }
    assert all[..|all|] == all;
  }

  // ---- FetiiChatbot --------------------------------------------------------

  /** One entry of `conversation_history`. */
  datatype Entry = UserEntry(content: String) | AssistantEntry(answer: Answer)

  /** What `process_query` returns: the handler's answer, or the apology
      when a handler raised. */
  datatype Reply = Answered(answer: Answer) | Apology

  class FetiiChatbot {
    const store: DataProcessor
    const tables: QueryTables
    var conversationHistory: seq<Entry>

    /** The store holds trips and its cached insights are up to date. */
    ghost predicate Valid() {
      store.Valid()
    }

    /** `__init__`: the engine's pattern tables around the given location
        capture patterns, and an empty history; the chatbot is valid exactly
        when the store it is given is. */
    constructor (dataProcessor: DataProcessor, locationPatterns: seq<LocationPattern>)
      ensures store == dataProcessor && tables == EngineTables(locationPatterns)
      ensures conversationHistory == []
      ensures Valid() <==> dataProcessor.Valid()
    {
      store := dataProcessor;
      tables := EngineTables(locationPatterns);
      conversationHistory := [];
    }

    /** `_fuzzy_search_location` */
    method FuzzySearchLocation(queryLocation: String) returns (matches: seq<Tally<String>>)
      ensures matches == FuzzyMatches(store.trips, queryLocation)
      ensures |matches| <= 5 && TrueTally(matches, AllNames(store.trips)) && SortedDesc(matches, ByCount)
    {
      var all := MergeCounts([], ValueCounts(PickupNames(store.trips)));
      all := MergeCounts(all, ValueCounts(DropoffNames(store.trips)));
      var queryLower := Lower(queryLocation);
      var found := CollectMatches(all, ExactTier(queryLower));
      if found == [] {
        found := CollectMatches(all, PartialTier(queryLower));
      }
      if found == [] {
        found := CollectMatches(all, WordTier(queryLower));
      }
      matches := Take(SortDesc(found, ByCount), 5);
      FuzzyMatchesCorrect(store.trips, queryLocation);
    }

    /** `_handle_location_stats` */
    method HandleLocationStats(location: String, originalQuery: String) returns (answer: Option<Answer>)
      ensures answer == LocationAnswerOf(store.trips, store.insights, location, originalQuery)
    {
      var direct := LocationStatsOf(store.trips, location, "both");
      if direct.pickupCount == 0 && direct.dropoffCount == 0 {
        var matches := FuzzySearchLocation(location);
        if matches == [] {
          answer := Some(LocationNotFound(location));
        } else {
          var best := matches[0].key;
          var st := LocationStatsOf(store.trips, best, "both");
          if st.pickupCount > 0 || st.dropoffCount > 0 {
            answer := LocationReportOf(store.insights, best, Some(location), st, originalQuery);
          } else {
            answer := Some(LocationSuggestions(location, Take(matches, 3), best));
          }
        }
      } else {
        answer := LocationReportOf(store.insights, Title(location), None, direct, originalQuery);
      }
    }

    /** `_handle_demographics` */
    method HandleDemographics(ages: (nat, nat)) returns (answer: Answer)
      ensures answer == DemographicsAnswerOf(store.insights, ages)
    {
      var spots := PopularSpots(store.insights.topDropoffs, EntertainmentSpots);
      answer := DemographicsReport(ages, spots);
    }

    /** `_generate_response`; `None` when the handler raised. */
    method GenerateResponse(queryType: QueryType, params: Params, originalQuery: String) returns (answer: Option<Answer>)
      ensures answer == AnswerOf(store.trips, store.insights, queryType, params, originalQuery)
    {
      match queryType {
        case LocationStatsQuery =>
          answer := HandleLocationStats(if params.location.Some? then params.location.value else "", originalQuery);
        case TimePatternsQuery =>
          answer := TimeAnswerOf(store.trips, params.minGroupSize);
        case GroupSizeQuery =>
          answer := GroupAnswerOf(store.insights, if params.groupSize.Some? then params.groupSize.value else DefaultTargetSize);
        case TopLocationsQuery =>
          answer := TopAnswerOf(store.insights, if params.locationType.Some? then params.locationType.value else "both");
        case DemographicsQuery =>
          var a := HandleDemographics(if params.ageRange.Some? then params.ageRange.value else DefaultAges);
          answer := Some(a);
        case GeneralStatsQuery =>
          answer := OverviewOf(store.insights);
        case Unrecognized =>
          answer := Some(Fallback);
      }
    }

    /** The `try` block of `process_query` on the normalised question:
        classify it, then run its handler. */
    method AnswerQuery(query: String) returns (answer: Option<Answer>)
      ensures answer == AnswerTo(store.trips, store.insights, tables, query)
    {
      var queryType, params := ParseQuery(tables, query);
      answer := GenerateResponse(queryType, params, query);
    }

    /** `process_query`: the normalised question goes into the history; the
        answer follows it there, unless a handler raised, in which case the
        apology is returned and not logged. Over a valid store the apology
        comes exactly for a time question whose group filter keeps no trip,
        and the fallback never comes. */
    method ProcessQuery(userQuery: String) returns (reply: Reply)
      requires Valid()
      modifies this`conversationHistory
      ensures Valid()
      ensures var a := AnswerTo(store.trips, store.insights, tables, Strip(Lower(userQuery)));
        a.Some? ==>
          reply == Answered(a.value) &&
          conversationHistory == old(conversationHistory) + [UserEntry(Strip(Lower(userQuery))), AssistantEntry(a.value)]
      ensures AnswerTo(store.trips, store.insights, tables, Strip(Lower(userQuery))).None? ==>
        reply == Apology && conversationHistory == old(conversationHistory) + [UserEntry(Strip(Lower(userQuery)))]
      ensures var c := Classify(tables, Strip(Lower(userQuery)));
        reply == Apology <==> c.0 == TimePatternsQuery && PatternData(store.trips, GroupFilter(c.1.minGroupSize)) == []
      ensures reply != Answered(Fallback)
    {
      ProcessQueryAnswers(store.trips, tables, userQuery);
      var query := Strip(Lower(userQuery));
      var answer := AnswerQuery(query);
      if answer.Some? {
        conversationHistory := conversationHistory + [UserEntry(query), AssistantEntry(answer.value)];
        reply := Answered(answer.value);
      } else {
        conversationHistory := conversationHistory + [UserEntry(query)];
        reply := Apology;
      }
    }

    /** `get_conversation_history` */
    method GetConversationHistory() returns (history: seq<Entry>)
      ensures history == conversationHistory
    {
      history := conversationHistory;
    }

    /** `clear_history` */
    method ClearHistory()
      requires Valid()
      modifies this`conversationHistory
      ensures conversationHistory == []
      ensures Valid()
    {
      conversationHistory := [];
    }
  }

  /** Over a valid store, a question is answered unless it asks for times
      and no trip passes its group filter; an answer is never the
      fallback. */
  lemma ProcessQueryAnswers(trips: seq<Trip>, tables: QueryTables, userQuery: String)
    requires |trips| > 0
    ensures var c := Classify(tables, Strip(Lower(userQuery)));
      Respond(trips, InsightsOf(trips), tables, userQuery).None? <==>
        c.0 == TimePatternsQuery && PatternData(trips, GroupFilter(c.1.minGroupSize)) == []
    ensures Respond(trips, InsightsOf(trips), tables, userQuery) != Some(Fallback)
  {
    var query := Strip(Lower(userQuery));
    var c := Classify(tables, query);
    AnswerFailsOnlyForEmptyTimeData(trips, c.0, c.1, query);
    RespondNeverFallsBack(trips, InsightsOf(trips), tables, userQuery);
  }
}
