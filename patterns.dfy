/** The hand-written regular expressions of the chatbot engine: the time
    phrases cut out of a captured location, and the keyword patterns that
    classify a question. Every one of them is searched case-insensitively,
    so each is matched against the lower-cased text and, where it cuts,
    cuts the original text at the same positions. */
module Patterns {
  import opened Text
  import opened Utils

  // ---- pieces of a pattern ----------------------------------------------

  /** The fragment `w` occurs at position `i` of `t`. */
  predicate WordAt(t: String, i: nat, w: String) {
    i + |w| <= |t| && t[i..i + |w|] == w
  }

  /** The end of the first of `words` found at `j` of `t`. No word of the
      lists below is a prefix of another, so at most one alternative can
      match at a position and trying them in order is all the regex
      engine's backtracking can do. */
  function AltEnd(t: String, j: nat, words: seq<String>): (r: Option<nat>)
    requires j <= |t|
    ensures r.Some? ==> j < r.value <= |t|
    ensures r.Some? ==> exists k :: 0 <= k < |words| && words[k] != [] && WordAt(t, j, words[k]) && r.value == j + |words[k]|
    ensures r.None? ==> forall k :: 0 <= k < |words| && words[k] != [] ==> !WordAt(t, j, words[k])
    decreases |words|
  {
    if words == [] then None
    else if words[0] != [] && WordAt(t, j, words[0]) then Some(j + |words[0]|)
    else
      var r := AltEnd(t, j, words[1..]);
      assert forall k :: 1 <= k < |words| ==> words[k] == words[1..][k - 1];
      r
  }

  /** A whitespace run and then one of `words` at `i`: at least one
      whitespace character, all of the run (a letter must follow it), then
      one of the words. */
  function SpacedAltEnd(t: String, i: nat, words: seq<String>): (r: Option<nat>)
    requires i <= |t|
    ensures r.Some? ==> i < r.value <= |t|
  {
    var n := SpaceRunLen(t, i);
    if n == 0 then None else AltEnd(t, i + n, words)
  }

  /** A date with separator `sep` at `j`: the first two digit runs
      have one or two digits and end at the separator, the last has at
      least two digits and the match takes at most four of them. */
  function DateEnd(t: String, j: nat, sep: char): (r: Option<nat>)
    requires j <= |t|
    ensures r.Some? ==> j < r.value <= |t|
  {
    var a := DigitRunLen(t, j);
    if !(1 <= a <= 2) || j + a == |t| || t[j + a] != sep then None
    else
      var k := j + a + 1;
      var b := DigitRunLen(t, k);
      if !(1 <= b <= 2) || k + b == |t| || t[k + b] != sep then None
      else
        var m := k + b + 1;
        var c := DigitRunLen(t, m);
        if c < 2 then None else Some(m + if c > 4 then 4 else c)
  }

  // ---- the time phrases cut out of a location (`self.time_patterns`) ---------

  /** The seven time phrases; each starts with a run of whitespace. */
  datatype TimePhrase =
    | RelativePeriod   // one of `Relative`, whitespace, one of `Periods`
    | RelativeWeekday  // "last" or "this", whitespace, a weekday
    | MonthName        // a month name, optionally after "in" and whitespace
    | RelativeAny      // "last", "this" or "next", whitespace, a word
    | NearDay          // "yesterday", "today" or "tonight"
    | SlashDate        // a date written d/m/y with one or two digits for d and m and two to four for y
    | DashDate         // the same date written with dashes

  /** The phrases in the order the cleaner applies them. */
  const TimePhrases: seq<TimePhrase> :=
    [RelativePeriod, RelativeWeekday, MonthName, RelativeAny, NearDay, SlashDate, DashDate]

  const Relative: seq<String> := ["last", "this", "yesterday", "today"]
  const Periods: seq<String> := ["week", "month", "year", "night"]
  const LastThis: seq<String> := ["last", "this"]
  const Weekdays: seq<String> := ["monday", "tuesday", "wednesday", "thursday", "friday", "saturday", "sunday"]
  const Months: seq<String> := ["january", "february", "march", "april", "may", "june", "july",
                                "august", "september", "october", "november", "december"]
  const LastThisNext: seq<String> := ["last", "this", "next"]
  const NearDays: seq<String> := ["yesterday", "today", "tonight"]

  /** The end of the match of phrase `p` starting at `i` of the lower-cased
      text `t`. No pattern ends in a word boundary: a month is cut off the
      front of a longer word just as well. */
  function PhraseEnd(p: TimePhrase, t: String, i: nat): (r: Option<nat>)
    requires i <= |t|
    ensures r.Some? ==> i < r.value <= |t|
  {
    match p
    case RelativePeriod =>
      (match SpacedAltEnd(t, i, Relative)
       case None => None
       case Some(b) => SpacedAltEnd(t, b, Periods))
    case RelativeWeekday =>
      (match SpacedAltEnd(t, i, LastThis)
       case None => None
       case Some(b) => SpacedAltEnd(t, b, Weekdays))
    case MonthName =>
      var a := i + SpaceRunLen(t, i);
      if a == i then None
      else
        var withIn := if WordAt(t, a, "in") then SpacedAltEnd(t, a + 2, Months) else None;
        if withIn.Some? then withIn else AltEnd(t, a, Months)
    case RelativeAny =>
      (match SpacedAltEnd(t, i, LastThisNext)
       case None => None
       case Some(b) =>
         var c := b + SpaceRunLen(t, b);
         var w := WordCharRunLen(t, c);
         if c == b || w == 0 then None else Some(c + w))
    case NearDay => SpacedAltEnd(t, i, NearDays)
    case SlashDate =>
      var a := i + SpaceRunLen(t, i);
      if a == i then None else DateEnd(t, a, '/')
    case DashDate =>
      var a := i + SpaceRunLen(t, i);
      if a == i then None else DateEnd(t, a, '-')
  }

  /** `re.sub(p, '', s, flags=re.IGNORECASE)` from position `i`: scan left to
      right, drop every match and keep every other character. `t` is the
      lower-cased `s`. */
  function RemoveFrom(p: TimePhrase, s: String, t: String, i: nat): (r: String)
    requires |t| == |s| && i <= |s|
    ensures |r| <= |s| - i
    decreases |s| - i
  {
    if i == |s| then []
    else
      match PhraseEnd(p, t, i)
      case Some(e) => RemoveFrom(p, s, t, e)
      case None => [s[i]] + RemoveFrom(p, s, t, i + 1)
  }

  /** One `re.sub` of the cleaner. */
  function RemovePhrase(p: TimePhrase, s: String): (r: String)
    ensures |r| <= |s|
  {
    RemoveFrom(p, s, Lower(s), 0)
  }

  /** A text in which phrase `p` matches nowhere is left as it is. */
  lemma {:induction false} RemoveFromNoMatch(p: TimePhrase, s: String, t: String, i: nat)
    requires |t| == |s| && i <= |s|
    requires forall j :: i <= j < |s| ==> PhraseEnd(p, t, j).None?
    ensures RemoveFrom(p, s, t, i) == s[i..]
    decreases |s| - i
  {
    if i < |s| {
      RemoveFromNoMatch(p, s, t, i + 1);
    }
  }

  /** The first `n` substitutions of the cleaner, in order. */
  function StripPhrases(phrases: seq<TimePhrase>, s: String, n: nat): (r: String)
    requires n <= |phrases|
    ensures |r| <= |s|
  {
    if n == 0 then s else RemovePhrase(phrases[n - 1], StripPhrases(phrases, s, n - 1))
  }

  /** `_clean_location_from_query(location_text)` as a value: strip, apply
      the substitutions of `phrases` (the engine's are `TimePhrases`),
      collapse whitespace runs, strip again. */
  function CleanLocation(phrases: seq<TimePhrase>, text: String): (r: String)
    ensures Tidy(r)
  {
    var x := StripPhrases(phrases, Strip(text), |phrases|);
    TidyShape(x);
    Strip(CollapseSpaces(x))
  }

  /** Whitespace only as single spaces between words, none at either end. */
  ghost predicate Tidy(r: String) {
    SingleSpaced(r) && (r != [] ==> !IsSpace(r[0]) && !IsSpace(r[|r| - 1]))
  }

  /** Collapsing and then stripping leaves a tidy text. */
  lemma TidyShape(x: String)
    ensures Tidy(Strip(CollapseSpaces(x)))
  {
    CollapseSingleSpaced(x);
    StripSingleSpaced(CollapseSpaces(x));
  }

  /** `_clean_location_from_query`: the substitutions run one after the
      other on the text stripped so far. */
  method CleanLocationFromQuery(phrases: seq<TimePhrase>, locationText: String) returns (cleaned: String)
    ensures cleaned == CleanLocation(phrases, locationText)
    ensures Tidy(cleaned)
  {
    cleaned := Strip(locationText);
    for k := 0 to |phrases|
      invariant cleaned == StripPhrases(phrases, Strip(locationText), k)
    {
      cleaned := RemovePhrase(phrases[k], cleaned);
    }
    cleaned := Strip(CollapseSpaces(cleaned));
  }

  /** Every phrase begins with a whitespace run: none matches at a character that is
      not whitespace. */
  lemma NoSpaceNoMatch(p: TimePhrase, t: String, i: nat)
    requires i < |t| && !IsSpace(t[i])
    ensures PhraseEnd(p, t, i).None?
  {
  }

  /** The first matching alternative decides `AltEnd`. */
  lemma {:induction false} AltEndFirst(t: String, j: nat, words: seq<String>, k: nat)
    requires j <= |t| && k < |words| && words[k] != [] && WordAt(t, j, words[k])
    requires forall m :: 0 <= m < k ==> !WordAt(t, j, words[m])
    ensures AltEnd(t, j, words) == Some(j + |words[k]|)
    decreases k
  {
    if k > 0 {
      AltEndFirst(t, j, words[1..], k - 1);
    }
  }

  /** The month pattern has no word boundary: " may" is cut off the front of
      any word that starts with "may" (" mayfair" leaves "fair"). */
  lemma MonthCutsWordFront(t: String, i: nat)
    requires i + 4 <= |t| && t[i] == ' ' && t[i + 1..i + 4] == "may"
    ensures PhraseEnd(MonthName, t, i) == Some(i + 4)
  {
    assert t[i + 1] == 'm' && t[i + 3] == 'y';
    assert SpaceRunLen(t, i) == 1;
    assert !WordAt(t, i + 1, "in");
    forall m | 0 <= m < 4 ensures !WordAt(t, i + 1, Months[m]) {
      assert Months[m][0] != 'm' || Months[m][2] != 'y';
    }
    AltEndFirst(t, i + 1, Months, 4);
  }

  // ---- the question patterns (`self.query_patterns`) --------------------------

  /** A question pattern other than the location captures. A trailing
      optional letter (`groups?` before `.*`, `spots?` at the end) never
      changes whether a search succeeds, so it is left off the words. */
  datatype QueryPattern =
    | Chain(steps: seq<seq<String>>)  // `a.*b.*c`: one alternative of each step, in order
    | LargeGroups                     // "large group(s)", a number in parentheses
    | GroupsOfRiders                  // "group(s) of", a number, "rider(s)"
    | PassengerCount                  // a number, "passenger(s)"
    | AgeRange                        // two numbers joined by a dash, "year old(s)"

  /** One alternative of `steps[0]` occurs at `i`, and the remaining steps
      follow after it. */
  predicate ChainAt(t: String, steps: seq<seq<String>>, i: nat)
    requires i <= |t|
    decreases |steps|, 0
  {
    steps == [] ||
    exists k :: 0 <= k < |steps[0]| && WordAt(t, i, steps[0][k]) && ChainFrom(t, steps[1..], i + |steps[0][k]|)
  }

  /** `.*` and then the steps: they match at `i` or at some later position. */
  predicate ChainFrom(t: String, steps: seq<seq<String>>, i: nat)
    requires i <= |t|
    decreases |steps|, |t| - i + 1
  {
    ChainAt(t, steps, i) || (i < |t| && ChainFrom(t, steps, i + 1))
  }

  /** The number spelled by the digit run at `i`. */
  function NumberAt(t: String, i: nat): nat
    requires i <= |t|
  {
    DigitsValue(t[i..i + DigitRunLen(t, i)])
  }

  /** "large group", an optional "s", optional whitespace, and a number
      with an optional "+" in parentheses, at `i`. Backtracking never helps: a
      shorter run of digits or spaces leaves a character that cannot come
      next, so each run is taken whole. */
  function LargeGroupsAt(t: String, i: nat): (r: Option<seq<nat>>)
    requires i <= |t|
    ensures r.Some? ==> |r.value| == 1
  {
    if !WordAt(t, i, "large group") then None
    else
      var a := if WordAt(t, i + 11, "s") then i + 12 else i + 11;
      var b := a + SpaceRunLen(t, a);
      if !WordAt(t, b, "(") then None
      else
        var e := b + 1 + DigitRunLen(t, b + 1);
        var f := if WordAt(t, e, "+") then e + 1 else e;
        if e == b + 1 || !WordAt(t, f, ")") then None else Some([NumberAt(t, b + 1)])
  }

  /** "group", an optional "s", " of ", a number with an optional "+",
      and " rider", at `i`. */
  function GroupsOfRidersAt(t: String, i: nat): (r: Option<seq<nat>>)
    requires i <= |t|
    ensures r.Some? ==> |r.value| == 1
  {
    if !WordAt(t, i, "group") then None
    else
      var a := if WordAt(t, i + 5, "s") then i + 6 else i + 5;
      if !WordAt(t, a, " of ") then None
      else
        var e := a + 4 + DigitRunLen(t, a + 4);
        var f := if WordAt(t, e, "+") then e + 1 else e;
        if e == a + 4 || !WordAt(t, f, " rider") then None else Some([NumberAt(t, a + 4)])
  }

  /** A number with an optional "+" and then " passenger", at `i`. */
  function PassengerCountAt(t: String, i: nat): (r: Option<seq<nat>>)
    requires i <= |t|
    ensures r.Some? ==> |r.value| == 1
  {
    var e := i + DigitRunLen(t, i);
    var f := if WordAt(t, e, "+") then e + 1 else e;
    if e == i || !WordAt(t, f, " passenger") then None else Some([NumberAt(t, i)])
  }

  /** Two numbers joined by a hyphen or an en dash, then " year", a space
      or a hyphen, and "old", at `i`. */
  function AgeRangeAt(t: String, i: nat): (r: Option<seq<nat>>)
    requires i <= |t|
    ensures r.Some? ==> |r.value| == 2
  {
    var e := i + DigitRunLen(t, i);
    if e == i || !(WordAt(t, e, "-") || WordAt(t, e, "\U{2013}")) then None
    else
      var g := e + 1 + DigitRunLen(t, e + 1);
      if g == e + 1 || !WordAt(t, g, " year") || !(WordAt(t, g + 5, "-") || WordAt(t, g + 5, " "))
         || !WordAt(t, g + 6, "old")
      then None
      else Some([NumberAt(t, i), NumberAt(t, e + 1)])
  }

  /** The numbers a pattern captures. */
  function Groups(p: QueryPattern): nat {
    match p
    case Chain(_) => 0
    case AgeRange => 2
    case _ => 1
  }

  /** The captured numbers of a match of `p` starting at `i`. */
  function MatchAt(p: QueryPattern, t: String, i: nat): (r: Option<seq<nat>>)
    requires i <= |t|
    ensures r.Some? ==> |r.value| == Groups(p)
  {
    match p
    case Chain(steps) => if ChainAt(t, steps, i) then Some([]) else None
    case LargeGroups => LargeGroupsAt(t, i)
    case GroupsOfRiders => GroupsOfRidersAt(t, i)
    case PassengerCount => PassengerCountAt(t, i)
    case AgeRange => AgeRangeAt(t, i)
  }

  /** The leftmost position at or after `i` where `p` matches, as
      `re.search` finds it. */
  function Leftmost(p: QueryPattern, t: String, i: nat): (r: Option<nat>)
    requires i <= |t|
    ensures r.Some? ==> i <= r.value <= |t| && MatchAt(p, t, r.value).Some?
    ensures r.Some? ==> forall j :: i <= j < r.value ==> MatchAt(p, t, j).None?
    ensures r.None? ==> forall j :: i <= j <= |t| ==> MatchAt(p, t, j).None?
    decreases |t| - i
  {
    if MatchAt(p, t, i).Some? then Some(i)
    else if i == |t| then None
    else Leftmost(p, t, i + 1)
  }

  /** `re.search(p, query, re.IGNORECASE)`: the captured numbers of the
      leftmost match, or `None` when there is no match. */
  function Search(p: QueryPattern, query: String): (r: Option<seq<nat>>)
    ensures r.Some? ==> |r.value| == Groups(p)
  {
    var t := Lower(query);
    match Leftmost(p, t, 0)
    case None => None
    case Some(j) => MatchAt(p, t, j)
  }

  /** A bare phrase is searched as a substring of the lower-cased question. */
  lemma PhraseSearch(query: String, w: String)
    ensures Search(Chain([[w]]), query).Some? <==> Contains(Lower(query), w)
  {
    var t := Lower(query);
    var steps := [[w]];
    forall j | 0 <= j <= |t| ensures ChainAt(t, steps, j) <==> WordAt(t, j, w) {
      if WordAt(t, j, w) {
        assert ChainFrom(t, steps[1..], j + |w|);
        assert WordAt(t, j, steps[0][0]);
      }
    }
    if Contains(t, w) {
      var j := ContainsSome(t, w);
      assert MatchAt(Chain(steps), t, j).Some?;
    } else {
      forall j | 0 <= j <= |t| ensures MatchAt(Chain(steps), t, j).None? {
        if WordAt(t, j, w) {
          ContainsAt(t, w, j);
        }
      }
    }
  }

  // ---- the pattern tables, category by category --------------------------------

  const TimePatternsTable: seq<QueryPattern> := [
    Chain([["when do"], ["group"], ["ride"]]),
    Chain([["what time"], ["most popular"]]),
    Chain([["peak hour"]]),
    Chain([["busiest time"]])
  ]

  const GroupSizeTable: seq<QueryPattern> := [LargeGroups, GroupsOfRiders, PassengerCount, Chain([["group size"]])]

  const TopLocationsTable: seq<QueryPattern> := [
    Chain([["top"], ["pickup", "dropoff", "drop-off"], ["spot"]]),
    Chain([["most popular"], ["location"]]),
    Chain([["busiest"], ["location"]]),
    Chain([["hottest spot"]]),
    Chain([["show"], ["pickup", "dropoff", "drop-off", "location"]]),
    Chain([["list"], ["location"]])
  ]

  const DemographicsTable: seq<QueryPattern> := [AgeRange, Chain([["age group"]]), Chain([["demographic"]])]

  const GeneralStatsTable: seq<QueryPattern> := [
    Chain([["how many total"]]),
    Chain([["average group size"]]),
    Chain([["summary"]]),
    Chain([["overview"]]),
    Chain([["give me"], ["overview"]]),
    Chain([["show me"], ["stats"]]),
    Chain([["total trips"]])
  ]

  /** `p` matches the question; when `needGroups`, it must also capture
      something (`if match and match.groups():`). */
  /** The numbers a search of `p` captures; none when it does not match. */
  function Captures(p: QueryPattern, query: String): (r: seq<nat>)
    ensures Search(p, query).Some? ==> |r| == Groups(p)
  {
    match Search(p, query)
    case None => []
    case Some(g) => g
  }

  predicate Hits(p: QueryPattern, query: String, needGroups: bool) {
    var m := Search(p, query);
    m.Some? && (needGroups ==> m.value != [])
  }

  /** The index of the first `true` of `bs` from `k` on: the pattern a
      `for pattern in ...: if ...: return` loop stops at. */
  function FirstTrue(bs: seq<bool>, k: nat): (r: Option<nat>)
    requires k <= |bs|
    ensures r.Some? ==> k <= r.value < |bs| && bs[r.value]
    ensures r.Some? ==> forall j :: k <= j < r.value ==> !bs[j]
    ensures r.None? ==> forall j :: k <= j < |bs| ==> !bs[j]
    decreases |bs| - k
  {
    if k == |bs| then None
    else if bs[k] then Some(k)
    else FirstTrue(bs, k + 1)
  }

  /** One step of the scan: the first hit from `k` is `k` itself or lies
      beyond it. */
  lemma FirstTrueStep(bs: seq<bool>, k: nat)
    requires k < |bs|
    ensures FirstTrue(bs, k) == if bs[k] then Some(k) else FirstTrue(bs, k + 1)
  {
  }

  /** Which patterns of `table` hit the question. */
  function HitList(table: seq<QueryPattern>, query: String, needGroups: bool): (r: seq<bool>)
    ensures |r| == |table|
    ensures forall j :: 0 <= j < |table| ==> r[j] == Hits(table[j], query, needGroups)
  {
    seq(|table|, j requires 0 <= j < |table| => Hits(table[j], query, needGroups))
  }

  /** The index of the first pattern of `table` that hits. */
  function FirstHit(table: seq<QueryPattern>, query: String, needGroups: bool): (r: Option<nat>)
    ensures r.Some? ==> r.value < |table|
  {
    FirstTrue(HitList(table, query, needGroups), 0)
  }

  /** Some pattern of `table` hits. */
  ghost predicate AnyHit(table: seq<QueryPattern>, query: String, needGroups: bool) {
    exists j :: 0 <= j < |table| && Hits(table[j], query, needGroups)
  }

  /** A location capture pattern (`query_patterns['location_stats']`): the
      text of its group 1 when it matches the question. */
  type LocationPattern = String -> Option<String>

  /** What one location pattern yields: its capture stripped and cleaned of
      time phrases, or nothing when it does not match or nothing is left. */
  function CapturedLocation(phrases: seq<TimePhrase>, m: LocationPattern, query: String): (r: Option<String>)
    ensures r.Some? ==> r.value != []
    ensures r.Some? ==> Tidy(r.value)
  {
    match m(query)
    case None => None
    case Some(c) =>
      var l := CleanLocation(phrases, Strip(c));
      if l == [] then None else Some(l)
  }

  /** Which location patterns yield a location. */
  function LocationList(phrases: seq<TimePhrase>, patterns: seq<LocationPattern>, query: String): (r: seq<bool>)
    ensures |r| == |patterns|
    ensures forall j :: 0 <= j < |patterns| ==> r[j] == CapturedLocation(phrases, patterns[j], query).Some?
  {
    seq(|patterns|, j requires 0 <= j < |patterns| => CapturedLocation(phrases, patterns[j], query).Some?)
  }

  /** The index of the first location pattern that yields a location. */
  function FirstLocation(phrases: seq<TimePhrase>, patterns: seq<LocationPattern>, query: String): (r: Option<nat>)
    ensures r.Some? ==> r.value < |patterns|
  {
    FirstTrue(LocationList(phrases, patterns, query), 0)
  }

  /** Some location pattern yields a location. */
  ghost predicate AnyLocation(phrases: seq<TimePhrase>, patterns: seq<LocationPattern>, query: String) {
    exists j :: 0 <= j < |patterns| && CapturedLocation(phrases, patterns[j], query).Some?
  }

  // ---- _parse_query ------------------------------------------------------------

  /** `self.query_patterns`: the pattern lists of each category, in the order
      the categories are tried. */
  datatype QueryTables = QueryTables(
    location: seq<LocationPattern>,
    timePhrases: seq<TimePhrase>,
    timePatterns: seq<QueryPattern>,
    groupSize: seq<QueryPattern>,
    topLocations: seq<QueryPattern>,
    demographics: seq<QueryPattern>,
    generalStats: seq<QueryPattern>)

  /** The engine's tables around the given location capture patterns. */
  function EngineTables(location: seq<LocationPattern>): (r: QueryTables)
    ensures r.location == location && r.demographics == DemographicsTable
  {
    QueryTables(location, TimePhrases, TimePatternsTable, GroupSizeTable, TopLocationsTable, DemographicsTable, GeneralStatsTable)
  }

  /** The query types `_generate_response` dispatches on; `Unrecognized`
      stands for any other string, which gets the fallback answer. */
  datatype QueryType = LocationStatsQuery | TimePatternsQuery | GroupSizeQuery | TopLocationsQuery
                     | DemographicsQuery | GeneralStatsQuery | Unrecognized

  /** The `params` dict; an absent key is `None`. */
  datatype Params = Params(
    location: Option<String>,
    minGroupSize: Option<nat>,
    groupSize: Option<nat>,
    locationType: Option<String>,
    ageRange: Option<(nat, nat)>)

  const NoParams: Params := Params(None, None, None, None, None)

  /** The first run of digits anywhere in the question, as a number. */
  function FirstNumber(query: String): (r: Option<nat>)
    ensures r.None? <==> forall i :: 0 <= i < |query| ==> !IsDigit(query[i])
  {
    ExtractNumbersEmpty(query);
    var ns := ExtractNumbers(query);
    if ns == [] then None else Some(ns[0])
  }

  /** Which side a top-locations question asks for; the test is on the
      question as given, without case folding. */
  function LocationTypeOf(query: String): (r: String)
    ensures r == "pickup" <==> Contains(query, "pickup") || Contains(query, "pick up")
    ensures r == "dropoff" <==> !Contains(query, "pickup") && !Contains(query, "pick up") && Contains(query, "drop")
    ensures r == "both" <==> !Contains(query, "pickup") && !Contains(query, "pick up") && !Contains(query, "drop")
  {
    if Contains(query, "pickup") || Contains(query, "pick up") then "pickup"
    else if Contains(query, "drop") then "dropoff"
    else "both"
  }

  /** `_parse_query(query)` as a value: the categories are tried in order
      and the first one with a hit decides; general stats is the default. */
  function Classify(tables: QueryTables, query: String): (QueryType, Params) {
    match FirstLocation(tables.timePhrases, tables.location, query)
    case Some(k) => (LocationStatsQuery, NoParams.(location := CapturedLocation(tables.timePhrases, tables.location[k], query)))
    case None =>
      if FirstHit(tables.timePatterns, query, false).Some? then
        (TimePatternsQuery, NoParams.(minGroupSize := FirstNumber(query)))
      else match FirstHit(tables.groupSize, query, false)
      case Some(k) =>
        var g := Captures(tables.groupSize[k], query);
        (GroupSizeQuery, NoParams.(groupSize := if g == [] then None else Some(g[0])))
      case None =>
        if FirstHit(tables.topLocations, query, false).Some? then
          (TopLocationsQuery, NoParams.(locationType := Some(LocationTypeOf(query))))
        else match FirstHit(tables.demographics, query, true)
        case Some(k) =>
          var g := Captures(tables.demographics[k], query);
          (DemographicsQuery, NoParams.(ageRange := if |g| == 2 then Some((g[0], g[1])) else None))
        case None => (GeneralStatsQuery, NoParams)
  }

  /** The first location pattern that yields a location, in pattern order,
      and the location it yields. */
  method FindLocation(phrases: seq<TimePhrase>, patterns: seq<LocationPattern>, query: String)
    returns (found: Option<nat>, location: String)
    ensures found == FirstLocation(phrases, patterns, query)
    ensures found.Some? ==> found.value < |patterns| && CapturedLocation(phrases, patterns[found.value], query) == Some(location)
  {
    ghost var captured := LocationList(phrases, patterns, query);
    for j := 0 to |patterns|
      invariant FirstTrue(captured, 0) == FirstTrue(captured, j)
    {
      var m := patterns[j](query);
      location := [];
      if m.Some? {
        location := CleanLocationFromQuery(phrases, Strip(m.value));
        assert CapturedLocation(phrases, patterns[j], query) == if location == [] then None else Some(location);
      } else {
        assert CapturedLocation(phrases, patterns[j], query) == None;
      }
      assert captured[j] == CapturedLocation(phrases, patterns[j], query).Some?;
      FirstTrueStep(captured, j);
      if location != [] {
        return Some(j), location;
      }
    }
    return None, [];
  }

  /** The first pattern of one category that hits, in table order, and the
      numbers it captures. */
  method FirstMatching(table: seq<QueryPattern>, query: String, needGroups: bool)
    returns (found: Option<nat>, groups: seq<nat>)
    ensures found == FirstHit(table, query, needGroups)
    ensures found.Some? ==> groups == Captures(table[found.value], query)
  {
    for j := 0 to |table|
      invariant FirstTrue(HitList(table, query, needGroups), 0) == FirstTrue(HitList(table, query, needGroups), j)
    {
      var m := Search(table[j], query);
      if m.Some? && (needGroups ==> m.value != []) {
        return Some(j), m.value;
      }
    }
    return None, [];
  }

  /** `_parse_query(query)`. */
  method ParseQuery(tables: QueryTables, query: String) returns (queryType: QueryType, params: Params)
    ensures (queryType, params) == Classify(tables, query)
  {
    params := NoParams;
    var loc, location := FindLocation(tables.timePhrases, tables.location, query);
    if loc.Some? {
      return LocationStatsQuery, params.(location := Some(location));
    }
    var time, _ := FirstMatching(tables.timePatterns, query, false);
    if time.Some? {
      return TimePatternsQuery, params.(minGroupSize := FirstNumber(query));
    }
    var size, sizeGroups := FirstMatching(tables.groupSize, query, false);
    if size.Some? {
      if sizeGroups != [] {
        params := params.(groupSize := Some(sizeGroups[0]));
      }
      return GroupSizeQuery, params;
    }
    var top, _ := FirstMatching(tables.topLocations, query, false);
    if top.Some? {
      return TopLocationsQuery, params.(locationType := Some(LocationTypeOf(query)));
    }
    var demo, ages := FirstMatching(tables.demographics, query, true);
    if demo.Some? {
      if |ages| == 2 {
        params := params.(ageRange := Some((ages[0], ages[1])));
      }
      return DemographicsQuery, params;
    }
    var general, _ := FirstMatching(tables.generalStats, query, false);
    if general.Some? {
      return GeneralStatsQuery, params;
    }
    return GeneralStatsQuery, params;
  }

  // ---- what the classification means --------------------------------------------

  /** Some pattern of a category hits exactly when the loop over it stops. */
  lemma AnyHitFirst(table: seq<QueryPattern>, query: String, needGroups: bool)
    ensures AnyHit(table, query, needGroups) <==> FirstHit(table, query, needGroups).Some?
  {
    var bs := HitList(table, query, needGroups);
    if AnyHit(table, query, needGroups) {
      var j :| 0 <= j < |table| && Hits(table[j], query, needGroups);
      assert bs[j];
    }
  }

  lemma AnyLocationFirst(phrases: seq<TimePhrase>, patterns: seq<LocationPattern>, query: String)
    ensures AnyLocation(phrases, patterns, query) <==> FirstLocation(phrases, patterns, query).Some?
  {
    var bs := LocationList(phrases, patterns, query);
    if AnyLocation(phrases, patterns, query) {
      var j :| 0 <= j < |patterns| && CapturedLocation(phrases, patterns[j], query).Some?;
      assert bs[j];
    }
  }

  /** The query type is the first category, in source order, with a hit;
      general stats when none has one. The general-stats patterns cannot
      change the outcome, and no question reaches the fallback. */
  lemma ClassifyCategories(tables: QueryTables, query: String)
    ensures var qt := Classify(tables, query).0;
      var loc := AnyLocation(tables.timePhrases, tables.location, query);
      var time := AnyHit(tables.timePatterns, query, false);
      var size := AnyHit(tables.groupSize, query, false);
      var top := AnyHit(tables.topLocations, query, false);
      var demo := AnyHit(tables.demographics, query, true);
      && (qt == LocationStatsQuery <==> loc)
      && (qt == TimePatternsQuery <==> !loc && time)
      && (qt == GroupSizeQuery <==> !loc && !time && size)
      && (qt == TopLocationsQuery <==> !loc && !time && !size && top)
      && (qt == DemographicsQuery <==> !loc && !time && !size && !top && demo)
      && (qt == GeneralStatsQuery <==> !loc && !time && !size && !top && !demo)
      && qt != Unrecognized
  {
    AnyLocationFirst(tables.timePhrases, tables.location, query);
    AnyHitFirst(tables.timePatterns, query, false);
    AnyHitFirst(tables.groupSize, query, false);
    AnyHitFirst(tables.topLocations, query, false);
    AnyHitFirst(tables.demographics, query, true);
  }

  /** A location question carries the cleaned capture of the first location
      pattern that leaves a non-empty location, and nothing else. */
  lemma ClassifyLocation(tables: QueryTables, query: String) returns (k: nat)
    requires Classify(tables, query).0 == LocationStatsQuery
    ensures k < |tables.location|
    ensures forall j :: 0 <= j < k ==> CapturedLocation(tables.timePhrases, tables.location[j], query).None?
    ensures Classify(tables, query).1 == NoParams.(location := CapturedLocation(tables.timePhrases, tables.location[k], query))
    ensures CapturedLocation(tables.timePhrases, tables.location[k], query).Some?
  {
    var bs := LocationList(tables.timePhrases, tables.location, query);
    k := FirstLocation(tables.timePhrases, tables.location, query).value;
    assert bs[k];
  }

  /** With the engine's tables, a group-size question carries a size exactly
      when one of the three number patterns matches; the bare "group size"
      phrase carries none. */
  lemma ClassifyGroupSize(location: seq<LocationPattern>, query: String)
    requires Classify(EngineTables(location), query).0 == GroupSizeQuery
    ensures var params := Classify(EngineTables(location), query).1;
      params == NoParams.(groupSize := params.groupSize)
    ensures Classify(EngineTables(location), query).1.groupSize.None? <==>
      Search(LargeGroups, query).None? && Search(GroupsOfRiders, query).None? && Search(PassengerCount, query).None?
  {
    var bs := HitList(GroupSizeTable, query, false);
    var k := FirstHit(GroupSizeTable, query, false).value;
    assert bs[k];
    assert GroupSizeTable[0] == LargeGroups && GroupSizeTable[1] == GroupsOfRiders && GroupSizeTable[2] == PassengerCount;
    var g := Captures(GroupSizeTable[k], query);
    assert Classify(EngineTables(location), query).1 == NoParams.(groupSize := if g == [] then None else Some(g[0]));
    if k < 3 {
      assert |g| == 1;
    } else {
      assert g == [];
    }
  }

  /** A top-locations question carries the side its wording asks for, and
      nothing else. */
  lemma ClassifyTopLocations(tables: QueryTables, query: String)
    requires Classify(tables, query).0 == TopLocationsQuery
    ensures Classify(tables, query).1 == NoParams.(locationType := Some(LocationTypeOf(query)))
  {
    assert FirstLocation(tables.timePhrases, tables.location, query).None?;
    assert FirstHit(tables.groupSize, query, false).None?;
  }

  /** Only the numeric age pattern can make a demographics question: the
      "age group" and "demographics" patterns capture nothing, and such a
      question falls through to general stats. */
  lemma DemographicsNeedAges(query: String)
    ensures AnyHit(DemographicsTable, query, true) <==> Search(AgeRange, query).Some?
  {
    if Search(AgeRange, query).Some? {
      assert Hits(DemographicsTable[0], query, true);
    }
    ChainCapturesNothing([["age group"]], query);
    ChainCapturesNothing([["demographic"]], query);
  }

  /** A keyword chain has no group, so it never passes `match.groups()`. */
  lemma ChainCapturesNothing(steps: seq<seq<String>>, query: String)
    ensures !Hits(Chain(steps), query, true)
  {
  }

  /** A demographics question always carries the two ages. */
  lemma ClassifyDemographics(location: seq<LocationPattern>, query: String)
    requires Classify(EngineTables(location), query).0 == DemographicsQuery
    ensures var params := Classify(EngineTables(location), query).1;
      && params == NoParams.(ageRange := params.ageRange)
      && Search(AgeRange, query).Some?
      && params.ageRange == Some((Captures(AgeRange, query)[0], Captures(AgeRange, query)[1]))
  {
    var t := EngineTables(location);
    var bs := HitList(t.demographics, query, true);
    var k := FirstHit(t.demographics, query, true).value;
    assert bs[k];
    DemographicsNeedAges(query);
    ChainCapturesNothing([["age group"]], query);
    ChainCapturesNothing([["demographic"]], query);
    assert k == 0;
  }
}
